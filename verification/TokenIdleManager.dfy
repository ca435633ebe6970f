/** The token-style idle manager with the idle loop of BaseProcessor, for any workers and
    any number of other threads that resume freds.  fredCounter is positive when freds are
    queued that no worker has claimed, and negative when workers wait. */
module TokenIdleManager {
  import opened Memory

  type Fred = nat

  datatype Pc =
    | Run                              // a worker with a fred, or any other thread
    // enqueueResume(f): addReadyFred, then the ready queue or the handover
    | Add(k: Fred)                     // before fredCounter + 1
    | Put(k: Fred)                     // enqueueFred
    | UnLock(k: Fred)                  // unblock: procLock.acquire
    | UnCheck(k: Fred)                 // procLock held from here to release
    | UnRelease
    | UnReleaseTo(k: Fred, p: Tid)
    | Store(k: Fred, p: Tid)           // wake: handoverFred := f
    | Signal(p: Tid)                   // wake: haltSem.V
    // scheduleIdle
    | Claim(c: int)                    // tryGetReadyFred: compare-and-swap c to c - 1
    | Sub                              // getReadyFred: fredCounter - 1
    | Search                           // scheduleBlocking with a token
    | BlkLock                          // block: procLock.acquire
    | BlkCheck
    | BlkTake(k: Fred)                 // release, return the handed-over fred
    | BlkRelease
    | Halt                             // haltSem.P
    | Read                             // return handoverFred

  datatype Holder = Open | Held(t: Tid)

  /** History: where a fred is; Away means parked, running or early in a switch. */
  datatype Place = Away | Carried(t: Tid) | Listed | Handed(p: Tid) | Queued

  /** History: where a worker is between push_front and the end of halt. */
  datatype Phase = Up | Waiting | Popped(waker: Tid) | Stored(waker: Tid) | Woken

  datatype Act = Resume(k: Fred) | Yield(k: Fred, me: Fred) | Try | Get | Take(k: Fred) | Prefer(p: Tid) | Go

  /** fredCounter and, as history, the four sets it balances. */
  datatype Books = Books(
    fredCounter: int,
    backed: set<Fred>,              // queued or about to be queued
    holders: set<Tid>,              // workers with a claimed token
    givers: set<Fred>,              // waiting or committed to handover
    takers: set<Tid>)               // workers waiting or committed to wait

  datatype Manager = Manager(
    procLock: Holder,
    procs: seq<Tid>,                // waitingProcs
    freds: seq<Fred>,               // waitingFreds
    handover: map<Tid, Fred>,
    haltSem: map<Tid, nat>,
    phase: map<Tid, Phase>)         // history

  datatype State = State(workers: set<Tid>, pc: map<Tid, Pc>, ready: set<Fred>, place: map<Fred, Place>,
                         b: Books, m: Manager)
  {
    function Pc(t: Tid): Pc { if t in pc then pc[t] else Run }
    function Place(k: Fred): Place { if k in place then place[k] else Away }
    function Phase(p: Tid): Phase { if p in m.phase then m.phase[p] else Up }
    function Sem(p: Tid): nat { if p in m.haltSem then m.haltSem[p] else 0 }
    function Handover(p: Tid): Fred { if p in m.handover then m.handover[p] else 0 }
    function To(t: Tid, p: Pc): State { this.(pc := pc[t := p]) }
  }

  function Init(workers: set<Tid>): State {
    State(workers, map[], {}, map[], Books(0, {}, {}, {}, {}), Manager(Open, [], [], map[], map[], map[]))
  }

  // ---------------------------------------------------------------- the steps

  predicate OnCounter(p: Pc) {
    p.Run? || p.Add? || p.Put? || p.Claim? || p.Sub? || p.Search?
  }

  /** The steps on the counter and the ready queues. */
  function CounterStep(s: State, t: Tid, a: Act): State {
    var b := s.b;
    match s.Pc(t)
    case Run =>
      if a.Resume? && s.Place(a.k).Away? then s.(pc := s.pc[t := Add(a.k)], place := s.place[a.k := Carried(t)])
      else if t !in s.workers then s
      else if a.Yield? && a.k in s.ready && s.Place(a.me).Away? then
        s.(pc := s.pc[t := Put(a.me)], ready := s.ready - {a.k}, place := s.place[a.k := Away][a.me := Carried(t)],
           b := b.(backed := b.backed - {a.k} + {a.me}))
      else if a.Try? && b.fredCounter > 0 then s.To(t, Claim(b.fredCounter))
      else if a.Get? then s.To(t, Sub)
      else s
    case Add(k) =>
      if b.fredCounter + 1 > 0 then
        s.(pc := s.pc[t := Put(k)], b := b.(fredCounter := b.fredCounter + 1, backed := b.backed + {k}))
      else
        s.(pc := s.pc[t := UnLock(k)], b := b.(fredCounter := b.fredCounter + 1, givers := b.givers + {k}))
    case Put(k) => s.(pc := s.pc[t := Run], ready := s.ready + {k}, place := s.place[k := Queued])
    case Claim(c) =>
      if b.fredCounter == c then
        s.(pc := s.pc[t := Search], b := b.(fredCounter := c - 1, holders := b.holders + {t}))
      else s.To(t, Run)
    case Sub =>
      if b.fredCounter > 0 then
        s.(pc := s.pc[t := Search], b := b.(fredCounter := b.fredCounter - 1, holders := b.holders + {t}))
      else
        s.(pc := s.pc[t := BlkLock], b := b.(fredCounter := b.fredCounter - 1, takers := b.takers + {t}))
    case Search =>
      if a.Take? && a.k in s.ready then
        s.(pc := s.pc[t := Run], ready := s.ready - {a.k}, place := s.place[a.k := Away],
           b := b.(backed := b.backed - {a.k}, holders := b.holders - {t}))
      else s
    case _ => s
  }

  predicate InUnblock(p: Pc) {
    p.UnLock? || p.UnCheck? || p.UnRelease? || p.UnReleaseTo? || p.Store? || p.Signal?
  }

  /** The waiting worker to hand over to: the preferred one, which the act names, or the first. */
  function Chosen(m: Manager, a: Act): Tid
    requires m.procs != []
  {
    if a.Prefer? && a.p in m.procs then a.p else m.procs[0]
  }

  /** The steps of unblock and wake. */
  function UnblockStep(s: State, t: Tid, a: Act): State {
    var m, b := s.m, s.b;
    match s.Pc(t)
    case UnLock(k) =>
      if m.procLock.Open? then s.(pc := s.pc[t := UnCheck(k)], m := m.(procLock := Held(t))) else s
    case UnCheck(k) =>
      if m.procs == [] then
        s.(pc := s.pc[t := UnRelease], place := s.place[k := Listed], m := m.(freds := m.freds + [k]))
      else
        s.(pc := s.pc[t := UnReleaseTo(k, Chosen(m, a))],
           m := m.(procs := Without(m.procs, Chosen(m, a)), phase := m.phase[Chosen(m, a) := Popped(t)]),
           b := b.(givers := b.givers - {k}, takers := b.takers - {Chosen(m, a)}))
    case UnRelease => s.(pc := s.pc[t := Run], m := m.(procLock := Open))
    case UnReleaseTo(k, p) => s.(pc := s.pc[t := Store(k, p)], m := m.(procLock := Open))
    case Store(k, p) =>
      s.(pc := s.pc[t := Signal(p)], place := s.place[k := Handed(p)],
         m := m.(handover := m.handover[p := k], phase := m.phase[p := Stored(t)]))
    case Signal(p) =>
      s.(pc := s.pc[t := Run], m := m.(haltSem := m.haltSem[p := s.Sem(p) + 1], phase := m.phase[p := Woken]))
    case _ => s
  }

  /** The steps of block and halt. */
  function BlockStep(s: State, t: Tid): State {
    var m, b := s.m, s.b;
    match s.Pc(t)
    case BlkLock =>
      if m.procLock.Open? then s.(pc := s.pc[t := BlkCheck], m := m.(procLock := Held(t))) else s
    case BlkCheck =>
      if m.freds == [] then
        s.(pc := s.pc[t := BlkRelease], m := m.(procs := [t] + m.procs, phase := m.phase[t := Waiting]))
      else
        s.(pc := s.pc[t := BlkTake(m.freds[0])], place := s.place[m.freds[0] := Carried(t)],
           m := m.(freds := m.freds[1..]), b := b.(givers := b.givers - {m.freds[0]}, takers := b.takers - {t}))
    case BlkTake(k) => s.(pc := s.pc[t := Run], place := s.place[k := Away], m := m.(procLock := Open))
    case BlkRelease => s.(pc := s.pc[t := Halt], m := m.(procLock := Open))
    case Halt =>
      if s.Sem(t) > 0 then s.(pc := s.pc[t := Read], m := m.(haltSem := m.haltSem[t := s.Sem(t) - 1])) else s
    case Read =>
      s.(pc := s.pc[t := Run], place := s.place[s.Handover(t) := Away], m := m.(phase := m.phase[t := Up]))
    case _ => s
  }

  function Step(s: State, t: Tid, a: Act): State {
    if OnCounter(s.Pc(t)) then CounterStep(s, t, a)
    else if InUnblock(s.Pc(t)) then UnblockStep(s, t, a)
    else BlockStep(s, t)
  }

  // ------------------------------------------------------------ the invariant

  /** The fred in t's hands. */
  datatype Hand = Empty | With(k: Fred)

  function InHand(p: Pc): Hand {
    match p
    case Add(k) => With(k)
    case Put(k) => With(k)
    case UnLock(k) => With(k)
    case UnCheck(k) => With(k)
    case UnReleaseTo(k, _) => With(k)
    case Store(k, _) => With(k)
    case BlkTake(k) => With(k)
    case _ => Empty
  }

  predicate InLock(p: Pc) {
    p.UnCheck? || p.UnRelease? || p.UnReleaseTo? || p.BlkCheck? || p.BlkTake? || p.BlkRelease?
  }

  predicate Asleep(p: Pc) {
    p.BlkRelease? || p.Halt? || p.Read?
  }

  predicate InBlock(p: Pc) {
    p.BlkLock? || p.BlkCheck? || p.BlkTake? || Asleep(p)
  }

  predicate WakesUp(p: Pc, w: Tid) {
    (p.UnReleaseTo? || p.Store?) && p.p == w
  }

  /** t and the freds, and t and the books. */
  predicate Holding(s: State, t: Tid) {
    && (InHand(s.Pc(t)).With? ==> s.Place(InHand(s.Pc(t)).k) == Carried(t))
    && (t in s.b.holders <==> s.Pc(t).Search?)
    && (t in s.b.takers <==> s.Pc(t).BlkLock? || s.Pc(t).BlkCheck? || s.Phase(t).Waiting?)
    && (s.Pc(t).Claim? ==> s.Pc(t).c > 0)
  }

  /** t and the idle manager. */
  predicate Managing(s: State, t: Tid) {
    && (s.m.procLock == Held(t) <==> InLock(s.Pc(t)))
    && (s.Phase(t).Up? <==> !Asleep(s.Pc(t)))
    && (t in s.m.procs <==> s.Phase(t).Waiting?)
    && (s.Phase(t).Popped? ==> WakesUp(s.Pc(s.Phase(t).waker), t))
    && (s.Phase(t).Stored? ==> s.Pc(s.Phase(t).waker) == Signal(t))
    && (Given(s.Phase(t)) ==> s.Place(s.Handover(t)) == Handed(t))
    && s.Sem(t) == (if s.Phase(t).Woken? && !s.Pc(t).Read? then 1 else 0)
    && (s.Pc(t).Read? ==> s.Phase(t).Woken?)
    && (s.Pc(t).UnReleaseTo? || s.Pc(t).Store? ==> s.Phase(s.Pc(t).p) == Popped(t))
    && (s.Pc(t).Signal? ==> s.Phase(s.Pc(t).p) == Stored(t))
  }

  predicate Thread(s: State, t: Tid) {
    Holding(s, t) && Managing(s, t)
  }

  /** Every fred is in one place. */
  predicate Placed(s: State, k: Fred) {
    && (s.Place(k).Carried? ==> InHand(s.Pc(s.Place(k).t)) == With(k))
    && (s.Place(k).Listed? <==> k in s.m.freds)
    && (s.Place(k).Queued? <==> k in s.ready)
    && (s.Place(k).Handed? ==> s.Handover(s.Place(k).p) == k && Given(s.Phase(s.Place(k).p)))
    && (k in s.b.backed <==> k in s.ready || (s.Place(k).Carried? && s.Pc(s.Place(k).t).Put?))
    && (k in s.b.givers <==> k in s.m.freds || (s.Place(k).Carried? && Gives(s.Pc(s.Place(k).t))))
  }

  predicate Given(x: Phase) { x.Stored? || x.Woken? }

  predicate Gives(p: Pc) { p.UnLock? || p.UnCheck? }

  function Max0(n: int): int { if n > 0 then n else 0 }

  /** The books balance. */
  predicate Balanced(b: Books) {
    && |b.backed| - |b.holders| == Max0(b.fredCounter)
    && |b.takers| - |b.givers| == Max0(-b.fredCounter)
  }

  /** Processors and freds never wait for each other. */
  ghost predicate OneSided(m: Manager) {
    (m.procs == [] || m.freds == []) && Distinct(m.procs) && Distinct(m.freds)
  }

  ghost predicate Inv(s: State) {
    && Balanced(s.b) && OneSided(s.m)
    && (forall t: Tid :: Thread(s, t))
    && (forall k: Fred :: Placed(s, k))
  }

  // ------------------------------------------------------ every step keeps it

  lemma InitInv(workers: set<Tid>)
    ensures Inv(Init(workers))
  {}

  /** The ways in which a step on the counter changes the books. */
  predicate Entry(b: Books, b': Books, t: Tid, k: Fred, me: Fred) {
    || b' == b
    || (b.fredCounter >= 0 && b'.fredCounter == b.fredCounter + 1 && Grows(b.backed, b'.backed, k) &&
        b'.holders == b.holders && b'.givers == b.givers && b'.takers == b.takers)
    || (b.fredCounter < 0 && b'.fredCounter == b.fredCounter + 1 && Grows(b.givers, b'.givers, k) &&
        b'.holders == b.holders && b'.backed == b.backed && b'.takers == b.takers)
    || (b.fredCounter > 0 && b'.fredCounter == b.fredCounter - 1 && Grows(b.holders, b'.holders, t) &&
        b'.backed == b.backed && b'.givers == b.givers && b'.takers == b.takers)
    || (b.fredCounter <= 0 && b'.fredCounter == b.fredCounter - 1 && Grows(b.takers, b'.takers, t) &&
        b'.backed == b.backed && b'.givers == b.givers && b'.holders == b.holders)
    || (b'.fredCounter == b.fredCounter && Grows(b'.backed, b.backed, k) && Grows(b'.holders, b.holders, t) &&
        b'.givers == b.givers && b'.takers == b.takers)
    || (b'.fredCounter == b.fredCounter && Grows(b.backed - {k}, b.backed, k) && Grows(b.backed - {k}, b'.backed, me) &&
        b'.holders == b.holders && b'.givers == b.givers && b'.takers == b.takers)
  }

  predicate Grows(s: set<nat>, s': set<nat>, x: nat) {
    x !in s && s' == s + {x}
  }

  lemma Counts(s: set<nat>, s': set<nat>, x: nat)
    requires Grows(s, s', x)
    ensures |s'| == |s| + 1
  {}

  lemma EntryBalances(b: Books, b': Books, t: Tid, k: Fred, me: Fred)
    requires Balanced(b) && Entry(b, b', t, k, me)
    ensures Balanced(b')
  {
    if Grows(b.backed, b'.backed, k) { Counts(b.backed, b'.backed, k); }
    if Grows(b.givers, b'.givers, k) { Counts(b.givers, b'.givers, k); }
    if Grows(b.holders, b'.holders, t) { Counts(b.holders, b'.holders, t); }
    if Grows(b.takers, b'.takers, t) { Counts(b.takers, b'.takers, t); }
    if Grows(b'.backed, b.backed, k) { Counts(b'.backed, b.backed, k); }
    if Grows(b'.holders, b.holders, t) { Counts(b'.holders, b.holders, t); }
    if Grows(b.backed - {k}, b.backed, k) { Counts(b.backed - {k}, b.backed, k); }
    if Grows(b.backed - {k}, b'.backed, me) { Counts(b.backed - {k}, b'.backed, me); }
  }

  lemma CounterEntry(s: State, t: Tid, a: Act) returns (k: Fred, me: Fred)
    requires Thread(s, t) && OnCounter(s.Pc(t))
    requires InHand(s.Pc(t)).With? ==> Placed(s, InHand(s.Pc(t)).k)
    requires a.Take? ==> Placed(s, a.k)
    requires a.Yield? ==> Placed(s, a.k) && Placed(s, a.me)
    ensures Entry(s.b, CounterStep(s, t, a).b, t, k, me)
  {
    me := if a.Yield? then a.me else 0;
    k := if InHand(s.Pc(t)).With? then InHand(s.Pc(t)).k else if a.Yield? || a.Take? then a.k else 0;
  }

  lemma CounterBalance(s: State, t: Tid, a: Act)
    requires Balanced(s.b) && Thread(s, t) && OnCounter(s.Pc(t))
    requires InHand(s.Pc(t)).With? ==> Placed(s, InHand(s.Pc(t)).k)
    requires a.Take? ==> Placed(s, a.k)
    requires a.Yield? ==> Placed(s, a.k) && Placed(s, a.me)
    ensures Balanced(CounterStep(s, t, a).b)
  {
    var k, me := CounterEntry(s, t, a);
    EntryBalances(s.b, CounterStep(s, t, a).b, t, k, me);
  }

  lemma CounterThread(s: State, t: Tid, a: Act)
    requires Thread(s, t) && OnCounter(s.Pc(t))
    ensures Thread(CounterStep(s, t, a), t)
  {}

  lemma CounterSame(s: State, t: Tid, a: Act, u: Tid)
    requires Thread(s, t) && OnCounter(s.Pc(t)) && u != t && (a.Yield? || a.Take? ==> Placed(s, a.k))
    ensures var s' := CounterStep(s, t, a);
      && s'.m == s.m && (u in s'.b.holders <==> u in s.b.holders) && (u in s'.b.takers <==> u in s.b.takers)
      && (forall v :: v != t ==> s'.Pc(v) == s.Pc(v))
      && (forall k :: s.Place(k) == Carried(u) || s.Place(k).Handed? ==> s'.Place(k) == s.Place(k))
  {}

  lemma CounterOthers(s: State, t: Tid, a: Act, u: Tid)
    requires Thread(s, t) && Thread(s, u) && OnCounter(s.Pc(t)) && u != t
    requires a.Yield? || a.Take? ==> Placed(s, a.k)
    ensures Thread(CounterStep(s, t, a), u)
  {
    CounterSame(s, t, a, u);
    OthersKept(s, CounterStep(s, t, a), t, u);
  }

  lemma OthersKept(s: State, s': State, t: Tid, u: Tid)
    requires Thread(s, t) && Thread(s, u) && OnCounter(s.Pc(t)) && u != t
    requires s'.m == s.m && (u in s'.b.holders <==> u in s.b.holders) && (u in s'.b.takers <==> u in s.b.takers)
    requires forall v :: v != t ==> s'.Pc(v) == s.Pc(v)
    requires forall k :: s.Place(k) == Carried(u) || s.Place(k).Handed? ==> s'.Place(k) == s.Place(k)
    ensures Thread(s', u)
  {}

  lemma CounterPlaced(s: State, t: Tid, a: Act, k: Fred)
    requires Thread(s, t) && Placed(s, k) && OnCounter(s.Pc(t))
    requires a.Yield? || a.Take? ==> Placed(s, a.k)
    ensures Placed(CounterStep(s, t, a), k)
  {}

  /** The worker that the step of unblock is about. */
  function About(s: State, t: Tid, a: Act): Tid {
    match s.Pc(t)
    case UnCheck(_) => if s.m.procs != [] then Chosen(s.m, a) else t
    case Store(_, p) => p
    case Signal(p) => p
    case _ => t
  }

  lemma UnblockThread(s: State, t: Tid, a: Act)
    requires Thread(s, t) && Thread(s, About(s, t, a)) && InUnblock(s.Pc(t)) && OneSided(s.m)
    ensures Thread(UnblockStep(s, t, a), t)
  {
    if s.Pc(t).UnCheck? && s.m.procs != [] { RemoveOne(s.m.procs, Chosen(s.m, a)); }
  }

  lemma UnblockAbout(s: State, t: Tid, a: Act, p: Tid)
    requires Thread(s, t) && Thread(s, p) && InUnblock(s.Pc(t)) && OneSided(s.m) && p == About(s, t, a) != t
    ensures Thread(UnblockStep(s, t, a), p)
  {
    if s.Pc(t).UnCheck? && s.m.procs != [] { RemoveOne(s.m.procs, Chosen(s.m, a)); }
  }

  lemma UnblockHolding(s: State, t: Tid, a: Act, u: Tid)
    requires Thread(s, t) && Holding(s, u) && Thread(s, About(s, t, a)) && InUnblock(s.Pc(t))
    requires u != t && u != About(s, t, a)
    ensures Holding(UnblockStep(s, t, a), u)
  {}

  lemma HandManaging(s: State, t: Tid, a: Act, u: Tid)
    requires Thread(s, t) && Managing(s, u) && u != t && s.Pc(t).UnCheck?
    requires s.m.procs != [] ==> Thread(s, Chosen(s.m, a)) && u != Chosen(s.m, a) && Distinct(s.m.procs)
    ensures Managing(UnblockStep(s, t, a), u)
  {
    if s.m.procs != [] { RemoveOne(s.m.procs, Chosen(s.m, a)); }
  }

  lemma UnblockManaging(s: State, t: Tid, a: Act, u: Tid)
    requires Thread(s, t) && Managing(s, u) && Thread(s, About(s, t, a)) && InUnblock(s.Pc(t)) && OneSided(s.m)
    requires u != t && u != About(s, t, a)
    ensures Managing(UnblockStep(s, t, a), u)
  {
    if s.Pc(t).UnCheck? { HandManaging(s, t, a, u); } else { WakeManaging(s, t, a, u); }
  }

  lemma WakeManaging(s: State, t: Tid, a: Act, u: Tid)
    requires Thread(s, t) && Managing(s, u) && InUnblock(s.Pc(t)) && !s.Pc(t).UnCheck?
    requires u != t && u != About(s, t, a)
    ensures Managing(UnblockStep(s, t, a), u)
  {}

  lemma UnblockPlaced(s: State, t: Tid, a: Act, k: Fred)
    requires Thread(s, t) && Thread(s, About(s, t, a)) && Placed(s, k) && InUnblock(s.Pc(t)) && OneSided(s.m)
    ensures Placed(UnblockStep(s, t, a), k)
  {}

  lemma BlockThread(s: State, t: Tid)
    requires Thread(s, t) && InBlock(s.Pc(t)) && OneSided(s.m)
    ensures Thread(BlockStep(s, t), t)
  {}

  lemma BlockSame(s: State, t: Tid, u: Tid)
    requires Thread(s, t) && u != t && InBlock(s.Pc(t))
    requires s.m.freds != [] ==> Placed(s, s.m.freds[0])
    ensures var s' := BlockStep(s, t);
      && s'.Phase(u) == s.Phase(u) && s'.Sem(u) == s.Sem(u) && (u in s'.m.procs <==> u in s.m.procs)
      && (u in s'.b.holders <==> u in s.b.holders) && (u in s'.b.takers <==> u in s.b.takers)
      && s'.m.handover == s.m.handover
      && (forall v :: v != t ==> s'.Pc(v) == s.Pc(v))
      && (s'.m.procLock == s.m.procLock || (!s.m.procLock.Held? && s'.m.procLock == Held(t)) || (s.m.procLock == Held(t) && s'.m.procLock.Open?))
      && (forall k :: s.Place(k) == Carried(u) || s.Place(k) == Handed(u) ==> s'.Place(k) == s.Place(k))
      && (forall v :: s.Phase(v).Popped? || s.Phase(v).Stored? ==> s'.Phase(v) == s.Phase(v))
  {}

  lemma BlockOthers(s: State, t: Tid, u: Tid)
    requires Thread(s, t) && Thread(s, u) && u != t && InBlock(s.Pc(t)) && OneSided(s.m)
    requires s.m.freds != [] ==> Placed(s, s.m.freds[0])
    ensures Thread(BlockStep(s, t), u)
  {
    BlockSame(s, t, u);
    assert Holding(BlockStep(s, t), u);
  }

  lemma BlockPlaced(s: State, t: Tid, k: Fred)
    requires Thread(s, t) && Placed(s, k) && InBlock(s.Pc(t)) && OneSided(s.m)
    ensures Placed(BlockStep(s, t), k)
  {
    if s.Pc(t).BlkCheck? && s.m.freds != [] { TailKeeps(s.m.freds, k); }
  }

  lemma LockSides(s: State, t: Tid, a: Act)
    requires Inv(s) && !OnCounter(s.Pc(t))
    ensures OneSided(Step(s, t, a).m) && Balanced(Step(s, t, a).b)
  {
    assert Thread(s, t);
    if s.Pc(t).UnCheck? { HandSides(s, t, a); } else if s.Pc(t).BlkCheck? { BlockSides(s, t, a); }
  }

  lemma HandSides(s: State, t: Tid, a: Act)
    requires Inv(s) && s.Pc(t).UnCheck?
    ensures OneSided(Step(s, t, a).m) && Balanced(Step(s, t, a).b)
  {
    assert Thread(s, t) && Placed(s, s.Pc(t).k);
    if s.m.procs == [] {
      AppendDistinct(s.m.freds, [s.Pc(t).k]);
    } else {
      assert Thread(s, Chosen(s.m, a));
      MatchSides(s, t, a);
    }
  }

  lemma MatchSides(s: State, t: Tid, a: Act)
    requires s.Pc(t).UnCheck? && s.m.procs != [] && OneSided(s.m) && Balanced(s.b)
    requires s.Pc(t).k in s.b.givers && Chosen(s.m, a) in s.b.takers
    ensures OneSided(Step(s, t, a).m) && Balanced(Step(s, t, a).b)
  {
    RemoveOne(s.m.procs, Chosen(s.m, a));
  }

  lemma BlockSides(s: State, t: Tid, a: Act)
    requires Inv(s) && s.Pc(t).BlkCheck?
    ensures OneSided(Step(s, t, a).m) && Balanced(Step(s, t, a).b)
  {
    assert Thread(s, t);
    if s.m.freds == [] { AppendDistinct([t], s.m.procs); }
    else { assert Placed(s, s.m.freds[0]); TailKeeps(s.m.freds, t); }
  }

  lemma UnblockKeeps(s: State, t: Tid, a: Act)
    requires Inv(s) && InUnblock(s.Pc(t))
    ensures Inv(Step(s, t, a))
  {
    var s' := Step(s, t, a);
    assert Thread(s, t) && Thread(s, About(s, t, a));
    forall u ensures Thread(s', u) {
      assert Thread(s, u);
      if u == t {
        UnblockThread(s, t, a);
      } else if u == About(s, t, a) {
        UnblockAbout(s, t, a, u);
      } else {
        UnblockHolding(s, t, a, u);
        UnblockManaging(s, t, a, u);
      }
    }
    forall k ensures Placed(s', k) { assert Placed(s, k); UnblockPlaced(s, t, a, k); }
    LockSides(s, t, a);
  }

  lemma BlockKeeps(s: State, t: Tid, a: Act)
    requires Inv(s) && InBlock(s.Pc(t))
    ensures Inv(Step(s, t, a))
  {
    var s' := Step(s, t, a);
    assert Thread(s, t) && (s.m.freds != [] ==> Placed(s, s.m.freds[0]));
    forall u ensures Thread(s', u) {
      assert Thread(s, u);
      if u == t { BlockThread(s, t); } else { BlockOthers(s, t, u); }
    }
    forall k ensures Placed(s', k) { assert Placed(s, k); BlockPlaced(s, t, k); }
    LockSides(s, t, a);
  }

  lemma CounterKeeps(s: State, t: Tid, a: Act)
    requires Inv(s) && OnCounter(s.Pc(t))
    ensures Inv(Step(s, t, a))
  {
    var s' := Step(s, t, a);
    assert Thread(s, t) && (InHand(s.Pc(t)).With? ==> Placed(s, InHand(s.Pc(t)).k));
    assert a.Take? ==> Placed(s, a.k);
    assert a.Yield? ==> Placed(s, a.k) && Placed(s, a.me);
    forall u ensures Thread(s', u) {
      assert Thread(s, u);
      if u == t { CounterThread(s, t, a); } else { CounterOthers(s, t, a, u); }
    }
    forall k ensures Placed(s', k) { assert Placed(s, k); CounterPlaced(s, t, a, k); }
    CounterBalance(s, t, a);
    CounterSame(s, t, a, t + 1);
  }

  lemma StepKeeps(s: State, t: Tid, a: Act)
    requires Inv(s)
    ensures Inv(Step(s, t, a))
  {
    if OnCounter(s.Pc(t)) { CounterKeeps(s, t, a); }
    else if InUnblock(s.Pc(t)) { UnblockKeeps(s, t, a); }
    else { BlockKeeps(s, t, a); }
  }

  // ------------------------------------------------------------- the theorems

  function After(workers: set<Tid>, sched: seq<(Tid, Act)>): State {
    if sched == [] then Init(workers)
    else Step(After(workers, sched[..|sched| - 1]), sched[|sched| - 1].0, sched[|sched| - 1].1)
  }

  lemma {:induction false} EveryRun(workers: set<Tid>, sched: seq<(Tid, Act)>)
    ensures Inv(After(workers, sched))
  {
    if sched == [] {
      InitInv(workers);
    } else {
      EveryRun(workers, sched[..|sched| - 1]);
      StepKeeps(After(workers, sched[..|sched| - 1]), sched[|sched| - 1].0, sched[|sched| - 1].1);
    }
  }

  /** The counter is x - y, of which at most one is positive: x freds queued or about to be
      are unclaimed, y workers waiting or about to have no fred coming to them. */
  lemma {:induction false} BooksBalance(workers: set<Tid>, sched: seq<(Tid, Act)>)
    ensures var b := After(workers, sched).b; var x, y := |b.backed| - |b.holders|, |b.takers| - |b.givers|;
      b.fredCounter == x - y && x == Max0(b.fredCounter) && y == Max0(-b.fredCounter)
  {
    EveryRun(workers, sched);
    assert Balanced(After(workers, sched).b);
  }

  lemma {:induction false} NeverBothWait(workers: set<Tid>, sched: seq<(Tid, Act)>)
    ensures var m := After(workers, sched).m; m.procs == [] || m.freds == []
  {
    EveryRun(workers, sched);
  }

  /** A worker with a token has a fred to find: queued, or in the hands of a thread that is
      about to queue it. */
  lemma {:induction false} TokenIsBacked(workers: set<Tid>, sched: seq<(Tid, Act)>, t: Tid) returns (k: Fred)
    requires After(workers, sched).Pc(t).Search?
    ensures var s := After(workers, sched);
      k in s.ready || (s.Place(k).Carried? && s.Pc(s.Place(k).t) == Put(k))
  {
    EveryRun(workers, sched);
    var s := After(workers, sched);
    assert Thread(s, t);
    assert |s.b.holders| > 0 by { assert t in s.b.holders; }
    k :| k in s.b.backed;
    assert Placed(s, k);
  }

  /** A fred that waits to be handed over has a worker that will take it: one committed to
      block that has not taken the lock yet, or one that waits in the list. */
  lemma {:induction false} HandoverHasWorker(workers: set<Tid>, sched: seq<(Tid, Act)>, k: Fred) returns (t: Tid)
    requires k in After(workers, sched).b.givers
    ensures var s := After(workers, sched); s.Pc(t).BlkLock? || s.Pc(t).BlkCheck? || t in s.m.procs
    ensures var s := After(workers, sched); k in s.m.freds ==> s.Pc(t).BlkLock? || s.Pc(t).BlkCheck?
  {
    EveryRun(workers, sched);
    var s := After(workers, sched);
    assert |s.b.givers| > 0;
    t :| t in s.b.takers;
    assert Thread(s, t);
  }

  /** The fred a worker returns from halt was handed to that worker, and it is nowhere else. */
  lemma {:induction false} HaltReturnsOwnFred(workers: set<Tid>, sched: seq<(Tid, Act)>, t: Tid)
    requires After(workers, sched).Pc(t).Read?
    ensures var s := After(workers, sched); var k := s.Handover(t);
      && s.Place(k) == Handed(t) && k !in s.ready && k !in s.m.freds
      && (forall u: Tid :: InHand(s.Pc(u)) != With(k)) && (forall u: Tid :: s.Pc(u).Read? && s.Handover(u) == k ==> u == t)
  {
    EveryRun(workers, sched);
    var s := After(workers, sched);
    assert Thread(s, t) && Placed(s, s.Handover(t));
    forall u: Tid ensures InHand(s.Pc(u)) != With(s.Handover(t)) { assert Thread(s, u); }
    forall u: Tid | s.Pc(u).Read? && s.Handover(u) == s.Handover(t) ensures u == t { assert Thread(s, u); }
  }

  /** A queued fred is in no thread's hands and in no second queue; two threads never hold
      the same fred. */
  lemma {:induction false} OnePlace(workers: set<Tid>, sched: seq<(Tid, Act)>, t: Tid, u: Tid)
    requires InHand(After(workers, sched).Pc(t)).With?
    ensures var s := After(workers, sched); var k := InHand(s.Pc(t)).k;
      k !in s.ready && k !in s.m.freds && (InHand(s.Pc(u)) == With(k) ==> u == t)
  {
    EveryRun(workers, sched);
    var s := After(workers, sched);
    assert Thread(s, t) && Thread(s, u) && Placed(s, InHand(s.Pc(t)).k);
  }

  /** No stranded fred: when every worker is halted and nobody resumes, nothing is queued. */
  lemma {:induction false} AllAsleepMeansEmpty(workers: set<Tid>, sched: seq<(Tid, Act)>, w: Tid)
    requires w in workers
    requires var s := After(workers, sched); forall t: Tid ::
      if t in workers then s.Pc(t).Halt? && s.Sem(t) == 0 else s.Pc(t).Run?
    ensures After(workers, sched).ready == {} && After(workers, sched).m.freds == []
  {
    EveryRun(workers, sched);
    var s := After(workers, sched);
    assert Thread(s, w);
    assert s.Phase(w).Waiting? && w in s.m.procs;
    assert s.b.givers == {} by { forall k: Fred ensures k !in s.b.givers { assert Placed(s, k); } }
    assert s.b.holders == {} by { forall t: Tid ensures t !in s.b.holders { assert Thread(s, t); } }
    assert |s.b.takers| > 0 by { assert w in s.b.takers; }
    forall k: Fred ensures k !in s.ready { assert Placed(s, k); }
  }

  // ------------------------------------------- what calls answer, and progress

  /** addReadyFred hands a fred over exactly if more workers wait than freds are coming to
      them; otherwise the fred goes to a ready queue. */
  lemma {:induction false} HandsOverIff(workers: set<Tid>, sched: seq<(Tid, Act)>, t: Tid, a: Act)
    requires After(workers, sched).Pc(t).Add?
    ensures var s, s' := After(workers, sched), Step(After(workers, sched), t, a); var k := s.Pc(t).k;
      && (s'.Pc(t) == UnLock(k) <==> |s.b.takers| > |s.b.givers|) && (s'.Pc(t) == UnLock(k) || s'.Pc(t) == Put(k))
      && s'.b.fredCounter == s.b.fredCounter + 1
  {
    EveryRun(workers, sched);
    assert Balanced(After(workers, sched).b);
  }

  /** getReadyFred gives a token exactly if more freds are queued than claimed; otherwise
      the worker blocks. */
  lemma {:induction false} BlocksIff(workers: set<Tid>, sched: seq<(Tid, Act)>, t: Tid, a: Act)
    requires After(workers, sched).Pc(t).Sub?
    ensures var s, s' := After(workers, sched), Step(After(workers, sched), t, a);
      && (s'.Pc(t).Search? <==> |s.b.backed| > |s.b.holders|) && (s'.Pc(t).Search? || s'.Pc(t).BlkLock?)
      && s'.b.fredCounter == s.b.fredCounter - 1
  {
    EveryRun(workers, sched);
    assert Balanced(After(workers, sched).b);
  }

  /** tryGetReadyFred fails only if no fred is free to claim, or the counter has changed
      since it looked. */
  lemma {:induction false} TryFailsOnlyIf(workers: set<Tid>, sched: seq<(Tid, Act)>, t: Tid)
    requires var s := After(workers, sched); s.Pc(t).Claim? || (s.Pc(t).Run? && t in s.workers)
    ensures var s, s' := After(workers, sched), Step(After(workers, sched), t, Try);
      && (s.Pc(t).Run? ==> (s'.Pc(t) == Claim(s.b.fredCounter) <==> |s.b.backed| > |s.b.holders|))
      && (s.Pc(t).Claim? ==> (s'.Pc(t).Search? <==> s.b.fredCounter == s.Pc(t).c) && (s'.Pc(t).Search? || s'.Pc(t).Run?))
      && (s.Pc(t).Claim? && s'.Pc(t).Search? ==> |s.b.backed| > |s.b.holders|)
  {
    EveryRun(workers, sched);
    assert Balanced(After(workers, sched).b) && Thread(After(workers, sched), t);
  }

  /** A worker that goes to wait meets no fred waiting for a handover, and a fred goes to wait
      only if it meets no worker; otherwise they are matched. */
  lemma {:induction false} MeetsOrWaits(workers: set<Tid>, sched: seq<(Tid, Act)>, t: Tid, a: Act)
    requires var p := After(workers, sched).Pc(t); p.UnCheck? || p.BlkCheck?
    ensures var s, s' := After(workers, sched), Step(After(workers, sched), t, a);
      && (s.Pc(t).UnCheck? && s.m.procs == [] ==> s'.Pc(t).UnRelease? && s'.m.freds == s.m.freds + [s.Pc(t).k])
      && (s.Pc(t).UnCheck? && s.m.procs != [] ==>
            && s'.Pc(t).UnReleaseTo? && s'.Pc(t).k == s.Pc(t).k && s'.Pc(t).p in s.m.procs && s'.Pc(t).p !in s'.m.procs
            && s'.Pc(t).p == (if a.Prefer? && a.p in s.m.procs then a.p else s.m.procs[0]))
      && (s.Pc(t).BlkCheck? && s.m.freds == [] ==> s'.Pc(t).BlkRelease? && s'.m.procs == [t] + s.m.procs)
      && (s.Pc(t).BlkCheck? && s.m.freds != [] ==> s'.Pc(t) == BlkTake(s.m.freds[0]) && s'.m.freds == s.m.freds[1..])
  {
    EveryRun(workers, sched);
    var s := After(workers, sched);
    if s.Pc(t).UnCheck? && s.m.procs != [] { RemoveOne(s.m.procs, Chosen(s.m, a)); }
  }

  /** No deadlock: whoever is not asleep and not running a fred can go on, or the thread it
      waits for can. */
  lemma {:induction false} NoDeadlock(workers: set<Tid>, sched: seq<(Tid, Act)>, t: Tid) returns (u: Tid, a: Act)
    requires var s := After(workers, sched); !s.Pc(t).Run? && !(s.Pc(t).Halt? && s.Sem(t) == 0)
    ensures var s := After(workers, sched); !s.Pc(u).Run? && Step(s, u, a).Pc(u) != s.Pc(u)
  {
    EveryRun(workers, sched);
    var s := After(workers, sched);
    assert Thread(s, t);
    u, a := t, Go;
    if (s.Pc(t).UnLock? || s.Pc(t).BlkLock?) && s.m.procLock.Held? {
      u := s.m.procLock.t;
    } else if s.Pc(t).Search? {
      var k := TokenIsBacked(workers, sched, t);
      if k in s.ready { a := Take(k); } else { u := s.Place(k).t; }
    }
    assert Thread(s, u);
    Goes(s, u, a);
  }

  lemma Goes(s: State, u: Tid, a: Act)
    requires !s.Pc(u).Run? && !(s.Pc(u).Halt? && s.Sem(u) == 0)
    requires s.Pc(u).UnLock? || s.Pc(u).BlkLock? ==> s.m.procLock.Open?
    requires s.Pc(u).Search? ==> a.Take? && a.k in s.ready
    ensures Step(s, u, a).Pc(u) != s.Pc(u)
  {}

  // ------------------------------------------------- calls that run undisturbed

  /** n steps of t while nobody else moves; a running t begins a. */
  function Alone(s: State, t: Tid, a: Act, n: nat): State
    decreases n
  {
    if n == 0 then s else Step(Alone(s, t, a, n - 1), t, a)
  }

  /** With no worker waiting a resumed fred is queued, ... */
  lemma QueuesAlone(s: State, t: Tid, k: Fred)
    requires s.Pc(t).Run? && s.Place(k).Away? && s.b.fredCounter >= 0
    ensures var s' := Alone(s, t, Resume(k), 3);
      s'.Pc(t).Run? && s'.ready == s.ready + {k} && s'.Place(k).Queued? && s'.b.fredCounter == s.b.fredCounter + 1 && s'.m == s.m
  {
    assert Alone(s, t, Resume(k), 1).Pc(t) == Add(k);
    assert Alone(s, t, Resume(k), 2).Pc(t) == Put(k);
  }

  /** ... and a worker claims it by either call, and takes it. */
  lemma ClaimsAlone(s: State, t: Tid, k: Fred)
    requires s.Pc(t).Run? && t in s.workers && s.b.fredCounter > 0 && k in s.ready
    ensures var s' := Step(Alone(s, t, Try, 2), t, Take(k));
      s'.Pc(t).Run? && s'.ready == s.ready - {k} && s'.Place(k).Away? && s'.b.fredCounter == s.b.fredCounter - 1
    ensures var s' := Step(Alone(s, t, Get, 2), t, Take(k));
      s'.Pc(t).Run? && s'.ready == s.ready - {k} && s'.Place(k).Away? && s'.b.fredCounter == s.b.fredCounter - 1
  {
    assert Alone(s, t, Try, 1).Pc(t) == Claim(s.b.fredCounter);
    assert Alone(s, t, Try, 2).Pc(t).Search?;
    assert Alone(s, t, Get, 1).Pc(t).Sub?;
    assert Alone(s, t, Get, 2).Pc(t).Search?;
  }

  /** With no fred to claim and none waiting a worker lists itself and sleeps, ... */
  lemma SleepsAlone(s: State, t: Tid)
    requires s.Pc(t).Run? && t in s.workers && s.b.fredCounter <= 0 && s.m.procLock.Open? && s.m.freds == []
    ensures var s' := Alone(s, t, Get, 5);
      s'.Pc(t).Halt? && s'.m.procs == [t] + s.m.procs && s'.m.procLock.Open? && s'.b.fredCounter == s.b.fredCounter - 1
  {
    assert Alone(s, t, Get, 1).Pc(t).Sub?;
    assert Alone(s, t, Get, 2).Pc(t).BlkLock?;
    assert Alone(s, t, Get, 3).Pc(t).BlkCheck?;
    assert Alone(s, t, Get, 4).Pc(t).BlkRelease?;
  }

  /** ... a fred that is resumed then is given to a worker of the list, ... */
  lemma MatchesAlone(s: State, t: Tid, k: Fred, a: Act)
    requires s.Pc(t) == Add(k) && s.b.fredCounter < 0 && s.m.procLock.Open? && s.m.procs != []
    ensures var s', p := Alone(s, t, a, 3), Chosen(s.m, a);
      s'.Pc(t) == UnReleaseTo(k, p) && s'.m.procs == Without(s.m.procs, p) && s'.m.freds == s.m.freds && s'.ready == s.ready
  {
    assert Alone(s, t, a, 1).Pc(t) == UnLock(k);
    assert Alone(s, t, a, 2).Pc(t) == UnCheck(k);
  }

  /** ... which is woken, ... */
  lemma WakesAlone(s: State, t: Tid, k: Fred, p: Tid)
    requires s.Pc(t) == UnReleaseTo(k, p)
    ensures var s' := Alone(s, t, Go, 3);
      s'.Pc(t).Run? && s'.m.procLock.Open? && s'.Handover(p) == k && s'.Sem(p) == s.Sem(p) + 1 && s'.Place(k) == Handed(p)
  {
    assert Alone(s, t, Go, 1).Pc(t) == Store(k, p);
    assert Alone(s, t, Go, 2).Pc(t) == Signal(p);
  }

  /** ... and runs it. */
  lemma RunsHandedAlone(s: State, t: Tid)
    requires s.Pc(t).Halt? && s.Sem(t) > 0
    ensures var s' := Alone(s, t, Go, 2);
      s'.Pc(t).Run? && s'.Sem(t) == s.Sem(t) - 1 && s'.Place(s.Handover(t)).Away? && s'.Phase(t).Up?
  {
    assert Alone(s, t, Go, 1).Pc(t).Read?;
  }

  /** A fred that is resumed while the worker has not listed itself yet waits for it, ... */
  lemma WaitsAlone(s: State, t: Tid, k: Fred)
    requires s.Pc(t) == UnLock(k) && s.m.procLock.Open? && s.m.procs == []
    ensures var s' := Alone(s, t, Go, 3);
      s'.Pc(t).Run? && s'.m.freds == s.m.freds + [k] && s'.Place(k).Listed? && s'.m.procLock.Open?
  {
    assert Alone(s, t, Go, 1).Pc(t) == UnCheck(k);
    assert Alone(s, t, Go, 2).Pc(t).UnRelease?;
  }

  /** ... and is run without a sleep. */
  lemma MeetsAlone(s: State, t: Tid)
    requires s.Pc(t).BlkLock? && s.m.procLock.Open? && s.m.freds != []
    ensures var s' := Alone(s, t, Go, 3);
      s'.Pc(t).Run? && s'.m.freds == s.m.freds[1..] && s'.Place(s.m.freds[0]).Away? && s'.m.procLock.Open? && s'.m.procs == s.m.procs
  {
    assert Alone(s, t, Go, 1).Pc(t).BlkCheck?;
    assert Alone(s, t, Go, 2).Pc(t) == BlkTake(s.m.freds[0]);
  }

  /** A yield exchanges the running fred for a queued one. */
  lemma YieldsAlone(s: State, t: Tid, k: Fred, me: Fred)
    requires s.Pc(t).Run? && t in s.workers && k in s.ready && s.Place(me).Away? && me != k
    ensures var s' := Step(Step(s, t, Yield(k, me)), t, Go);
      s'.Pc(t).Run? && s'.ready == s.ready - {k} + {me} && s'.Place(k).Away? && s'.Place(me).Queued? && s'.b.fredCounter == s.b.fredCounter
  {
    assert Step(s, t, Yield(k, me)).Pc(t) == Put(me);
  }
}
