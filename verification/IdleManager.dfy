/** The default (Go-style) idle manager with the idle loop of BaseProcessor, its ready
    queues and work stealing, for any non-empty set of workers and any number of other
    threads that resume freds.  Every access to shared state is one step. */
module IdleManager {
  import opened Memory

  /** A fred's stay in a ready queue; every enqueue has a new number. */
  type Ticket = nat

  /** For whom a thread calls unblock: the enqueuer of a ticket, or unblockSpin. */
  datatype Job = Spinner | For(k: Ticket)

  datatype Pc =
    | Run                                // a worker with a fred, or any other thread
    // enqueueResume(f, proc): enqueue into the queue of worker q, then unblock
    | Link(k: Ticket, quiet: bool)      // after the exchange of tail, before the link
    | Check(job: Job)                    // while (waitCounter > 0)
    | TryProc(job: Job)                  // procLock.tryAcquire()
    | PopProc(job: Job)                  // procLock held from here to release
    | ProcEmpty(job: Job)
    | ProcRelease(job: Job, p: Tid)
    | DecWait(job: Job, p: Tid)
    | Wake(job: Job, p: Tid)
    // a running worker takes a fred from a queue whose lock it holds
    | TakePop(q: Tid)
    // scheduleIdle
    | SpinInc
    | SpinSearch
    | SpinPop(q: Tid)
    | SpinFound                          // unblockSpin: decrement, maybe unblock
    | SpinDec
    | WaitInc
    | Final(seen: set<Tid>)              // the last search; seen queues are done with
    | FinalTry(seen: set<Tid>, q: Tid)   // probe found q non-empty: tryAcquire
    | FinalPop(seen: set<Tid>, q: Tid)   // q's lock held
    | FinalDec                           // found one: decWaiting
    | BlockLock                          // block: procLock.acquire
    | BlockPush
    | BlockRelease
    | Halt                               // haltSem.P

  datatype Holder = Open | Held(t: Tid)

  /** History: where a worker is between push_front and the end of halt. */
  datatype Phase = Up | Listed | Popped(waker: Tid) | Uncounted(waker: Tid) | Woken

  datatype Act = Resume(q: Tid) | Yield | Take(q: Tid) | Idle | GiveUp | Visit(q: Tid) | Prefer(p: Tid) | Go

  /** The ready queues of all workers. */
  datatype Queues = Queues(
    ready: map<Tid, seq<Ticket>>,
    linked: set<Ticket>,
    readyLock: map<Tid, Holder>,
    ticket: Ticket,                 // history: next unused number
    source: map<Ticket, Tid>,       // history: the enqueuer
    settled: set<Ticket>)           // history: tickets whose enqueuer has finished unblock

  /** The fields of IdleManager and the halt semaphores. */
  datatype Manager = Manager(
    spinCounter: int,
    waitCounter: int,
    procLock: Holder,
    procs: seq<Tid>,                // waitingProcs
    haltSem: map<Tid, nat>,
    phase: map<Tid, Phase>,         // history
    waiting: set<Tid>,              // history: workers counted by waitCounter
    spinning: set<Tid>)             // history: workers counted by spinCounter
  {
    function Sem(p: Tid): nat { if p in haltSem then haltSem[p] else 0 }
    function Phase(p: Tid): Phase { if p in phase then phase[p] else Up }
  }

  datatype State = State(workers: set<Tid>, pc: map<Tid, Pc>, q: Queues, m: Manager)
  {
    function Pc(t: Tid): Pc { if t in pc then pc[t] else Run }
    function Ready(w: Tid): seq<Ticket> { if w in q.ready then q.ready[w] else [] }
    function Lock(w: Tid): Holder { if w in q.readyLock then q.readyLock[w] else Open }
    function Source(k: Ticket): Tid { if k in q.source then q.source[k] else 0 }
    function Phase(p: Tid): Phase { m.Phase(p) }
    function To(t: Tid, p: Pc): State { this.(pc := pc[t := p]) }
    /** The thread's call of unblock is over. */
    function End(t: Tid, job: Job): State {
      State(workers, pc[t := Run], if job.For? then q.(settled := q.settled + {job.k}) else q, m)
    }
  }

  function Init(workers: set<Tid>): State {
    State(workers, map[], Queues(map[], {}, map[], 0, map[], {}), Manager(0, 0, Open, [], map[], map[], {}, {}))
  }

  // ---------------------------------------------------------------- the steps

  /** readyQueue.enqueue, up to the exchange of tail. */
  function Enqueue(s: State, t: Tid, w: Tid, quiet: bool): State {
    var k := s.q.ticket;
    s.(pc := s.pc[t := Link(k, quiet)],
       q := s.q.(ready := s.q.ready[w := s.Ready(w) + [k]], ticket := k + 1, source := s.q.source[k := t]))
  }

  /** The queue's pop fails if it is empty or its first element is not linked yet. */
  predicate Poppable(s: State, w: Tid) {
    s.Ready(w) != [] && s.Ready(w)[0] in s.q.linked
  }

  /** Pop under the queue's lock, and release the lock. */
  function Pop(s: State, t: Tid, w: Tid, found: Pc, missed: Pc): State {
    var open := s.q.(readyLock := s.q.readyLock[w := Open]);
    if Poppable(s, w) then s.(pc := s.pc[t := found], q := open.(ready := s.q.ready[w := s.Ready(w)[1..]]))
    else s.(pc := s.pc[t := missed], q := open)
  }

  function Grab(s: State, t: Tid, w: Tid, p: Pc): State {
    if s.Lock(w).Open? then s.(pc := s.pc[t := p], q := s.q.(readyLock := s.q.readyLock[w := Held(t)])) else s
  }

  /** One queue of the last search: the own queue is locked, others are probed and tried. */
  function Visiting(s: State, t: Tid, seen: set<Tid>, w: Tid): State {
    if w !in s.workers || w in seen then s
    else if w == t then Grab(s, t, w, FinalPop(seen, w))
    else if s.Ready(w) == [] then s.To(t, Final(seen + {w}))
    else s.To(t, FinalTry(seen, w))
  }

  predicate OnQueues(p: Pc) {
    p.Run? || p.Link? || p.TakePop? || p.SpinSearch? || p.SpinPop? || p.Final? || p.FinalTry? || p.FinalPop?
  }

  /** The steps on ready queues. */
  function QueueStep(s: State, t: Tid, a: Act): State {
    match s.Pc(t)
    case Run =>
      if a.Resume? && a.q in s.workers then Enqueue(s, t, a.q, false)
      else if a.Yield? && t in s.workers then Enqueue(s, t, t, true)
      else if a.Take? && t in s.workers && a.q in s.workers then Grab(s, t, a.q, TakePop(a.q))
      else if a.Idle? && t in s.workers then s.To(t, SpinInc)
      else s
    case Link(k, quiet) =>
      var s' := s.(q := s.q.(linked := s.q.linked + {k}));
      if quiet then s'.End(t, For(k)) else s'.To(t, Check(For(k)))
    case TakePop(w) => Pop(s, t, w, Run, Run)
    case SpinSearch =>
      if a.Take? && a.q in s.workers then Grab(s, t, a.q, SpinPop(a.q))
      else if a.GiveUp? then s.To(t, SpinDec) else s
    case SpinPop(w) => Pop(s, t, w, SpinFound, SpinSearch)
    case Final(seen) =>
      if s.workers <= seen then s.To(t, BlockLock)
      else if a.Visit? then Visiting(s, t, seen, a.q) else s
    case FinalTry(seen, w) =>
      if s.Lock(w).Open? then Grab(s, t, w, FinalPop(seen, w)) else s.To(t, Final(seen + {w}))
    case FinalPop(seen, w) => Pop(s, t, w, FinalDec, Final(seen + {w}))
    case _ => s
  }

  predicate InUnblock(p: Pc) {
    p.Check? || p.TryProc? || p.PopProc? || p.ProcEmpty? || p.ProcRelease? || p.DecWait? || p.Wake?
  }

  /** The listed worker to wake: the preferred one, which the act names, or the first. */
  function ToWake(m: Manager, a: Act): Tid
    requires m.procs != []
  {
    if a.Prefer? && a.p in m.procs then a.p else m.procs[0]
  }

  /** IdleManager::unblock. */
  function UnblockStep(s: State, t: Tid, a: Act): State {
    var m := s.m;
    match s.Pc(t)
    case Check(job) => if m.waitCounter > 0 then s.To(t, TryProc(job)) else s.End(t, job)
    case TryProc(job) =>
      if m.procLock.Open? then s.(pc := s.pc[t := PopProc(job)], m := m.(procLock := Held(t)))
      else s.To(t, Check(job))
    case PopProc(job) =>
      if m.procs == [] then s.To(t, ProcEmpty(job))
      else s.(pc := s.pc[t := ProcRelease(job, ToWake(m, a))],
              m := m.(procs := Without(m.procs, ToWake(m, a)), phase := m.phase[ToWake(m, a) := Popped(t)]))
    case ProcEmpty(job) => s.(pc := s.pc[t := Check(job)], m := m.(procLock := Open))
    case ProcRelease(job, p) => s.(pc := s.pc[t := DecWait(job, p)], m := m.(procLock := Open))
    case DecWait(job, p) =>
      s.(pc := s.pc[t := Wake(job, p)],
         m := m.(waitCounter := m.waitCounter - 1, waiting := m.waiting - {p}, phase := m.phase[p := Uncounted(t)]))
    case Wake(job, p) =>
      s.(m := m.(haltSem := m.haltSem[p := m.Sem(p) + 1], phase := m.phase[p := Woken])).End(t, job)
    case _ => s
  }

  /** The steps of scheduleIdle and block on the idle manager's counters and list. */
  function IdleStep(s: State, t: Tid): State {
    var m := s.m;
    match s.Pc(t)
    case SpinInc =>
      s.(pc := s.pc[t := SpinSearch], m := m.(spinCounter := m.spinCounter + 1, spinning := m.spinning + {t}))
    case SpinFound =>
      s.(pc := s.pc[t := if m.spinCounter - 1 == 0 then Check(Spinner) else Run],
         m := m.(spinCounter := m.spinCounter - 1, spinning := m.spinning - {t}))
    case SpinDec =>
      s.(pc := s.pc[t := WaitInc], m := m.(spinCounter := m.spinCounter - 1, spinning := m.spinning - {t}))
    case WaitInc =>
      s.(pc := s.pc[t := Final({})], m := m.(waitCounter := m.waitCounter + 1, waiting := m.waiting + {t}))
    case FinalDec =>
      s.(pc := s.pc[t := Run], m := m.(waitCounter := m.waitCounter - 1, waiting := m.waiting - {t}))
    case BlockLock =>
      if m.procLock.Open? then s.(pc := s.pc[t := BlockPush], m := m.(procLock := Held(t))) else s
    case BlockPush =>
      s.(pc := s.pc[t := BlockRelease], m := m.(procs := [t] + m.procs, phase := m.phase[t := Listed]))
    case BlockRelease => s.(pc := s.pc[t := Halt], m := m.(procLock := Open))
    case Halt =>
      if m.Sem(t) > 0 then
        s.(pc := s.pc[t := SpinInc], m := m.(haltSem := m.haltSem[t := m.Sem(t) - 1], phase := m.phase[t := Up]))
      else s
    case _ => s
  }

  function Step(s: State, t: Tid, a: Act): State {
    if OnQueues(s.Pc(t)) then QueueStep(s, t, a)
    else if InUnblock(s.Pc(t)) then UnblockStep(s, t, a)
    else IdleStep(s, t)
  }

  // ------------------------------------------------------------ the invariant

  /** The steps that only a worker takes. */
  predicate Work(p: Pc) {
    !p.Run? && !p.Link? && !InUnblock(p)
  }

  predicate InProc(p: Pc) {
    p.PopProc? || p.ProcEmpty? || p.ProcRelease? || p.BlockPush? || p.BlockRelease?
  }

  /** The ready queue whose lock is held at p. */
  predicate Pops(p: Pc, q: Tid) {
    (p.TakePop? || p.SpinPop? || p.FinalPop?) && p.q == q
  }

  predicate Blocked(p: Pc) {
    p.BlockRelease? || p.Halt?
  }

  /** t is between incWaiting and the decWaiting done by it or for it. */
  predicate Counted(s: State, t: Tid) {
    match s.Pc(t)
    case Final(_) => true
    case FinalTry(_, _) => true
    case FinalPop(_, _) => true
    case FinalDec => true
    case BlockLock => true
    case BlockPush => true
    case BlockRelease => s.Phase(t).Listed? || s.Phase(t).Popped?
    case Halt => s.Phase(t).Listed? || s.Phase(t).Popped?
    case _ => false
  }

  /** On whose behalf the thread enqueues or is inside unblock. */
  function JobOf(p: Pc): Job {
    match p
    case Link(k, _) => For(k)
    case Check(job) => job
    case TryProc(job) => job
    case PopProc(job) => job
    case ProcEmpty(job) => job
    case ProcRelease(job, _) => job
    case DecWait(job, _) => job
    case Wake(job, _) => job
    case _ => Spinner
  }

  predicate Mine(s: State, t: Tid, k: Ticket) {
    k < s.q.ticket && k !in s.q.settled && s.Source(k) == t && (k !in s.q.linked <==> s.Pc(t).Link?)
  }

  /** t and the idle manager. */
  predicate Manages(s: State, t: Tid) {
    && (s.m.procLock == Held(t) <==> InProc(s.Pc(t)))
    && (t in s.m.waiting <==> Counted(s, t))
    && (t in s.m.spinning <==> Spins(s.Pc(t)))
    && (s.Phase(t).Up? <==> !Blocked(s.Pc(t)))
    && (t in s.m.procs <==> s.Phase(t).Listed?)
    && (s.Phase(t).Popped? ==> Holds(s, s.Phase(t).waker, t))
    && (s.Phase(t).Uncounted? ==> s.Pc(s.Phase(t).waker).Wake? && s.Pc(s.Phase(t).waker).p == t)
    && s.m.Sem(t) == (if s.Phase(t).Woken? then 1 else 0)
    && (s.Pc(t).ProcRelease? || s.Pc(t).DecWait? ==> s.Phase(s.Pc(t).p) == Popped(t))
    && (s.Pc(t).Wake? ==> s.Phase(s.Pc(t).p) == Uncounted(t))
  }

  /** t and the ready queues. */
  predicate Queueing(s: State, t: Tid) {
    && (Work(s.Pc(t)) ==> t in s.workers)
    && (s.Pc(t).Link? && s.Pc(t).quiet ==> t in s.workers)
    && (s.Pc(t).TakePop? || s.Pc(t).SpinPop? || s.Pc(t).FinalPop? ==> s.Lock(s.Pc(t).q) == Held(t))
    && (s.Pc(t).FinalTry? || s.Pc(t).FinalPop? ==> s.Pc(t).q !in s.Pc(t).seen && s.Pc(t).q in s.workers)
    && (JobOf(s.Pc(t)).For? ==> Mine(s, t, JobOf(s.Pc(t)).k))
  }

  predicate Thread(s: State, t: Tid) {
    Manages(s, t) && Queueing(s, t)
  }

  predicate Holds(s: State, u: Tid, p: Tid) {
    (s.Pc(u).ProcRelease? || s.Pc(u).DecWait?) && s.Pc(u).p == p
  }

  predicate Queue(s: State, q: Tid) {
    && (s.Lock(q).Held? ==> s.Lock(q).t in s.workers && Pops(s.Pc(s.Lock(q).t), q))
    && (s.Ready(q) != [] ==> q in s.workers)
    && (forall i :: 0 <= i < |s.Ready(q)| ==> s.Ready(q)[i] < s.q.ticket)
  }

  predicate Numbered(s: State, k: Ticket) {
    && (k in s.q.settled ==> k < s.q.ticket && k in s.q.linked)
    && (k in s.q.linked ==> k < s.q.ticket)
    && (k < s.q.ticket && k !in s.q.settled ==> JobOf(s.Pc(s.Source(k))) == For(k))
  }

  /** w has passed queue q in its last search, or sleeps, and no one is waking it. */
  predicate Committed(s: State, w: Tid, q: Tid) {
    match s.Pc(w)
    case Final(seen) => q in seen
    case FinalTry(seen, _) => q in seen
    case FinalPop(seen, _) => q in seen
    case BlockLock => true
    case BlockPush => true
    case BlockRelease => s.Phase(w).Listed?
    case Halt => s.Phase(w).Listed?
    case _ => false
  }

  ghost predicate Attended(s: State, q: Tid) {
    exists w :: w in s.workers && !Committed(s, w, q)
  }

  /** No stranded fred: a fred at the front of a ready queue, whose enqueuer has finished
      unblock, has a worker that is awake, being woken, or yet to search the queue. */
  ghost predicate Safe(s: State, q: Tid) {
    s.Ready(q) != [] && s.Ready(q)[0] in s.q.settled ==> Attended(s, q)
  }

  /** The counters and the list of waiting workers. */
  ghost predicate Counters(s: State) {
    s.m.waitCounter == |s.m.waiting| && s.m.spinCounter == |s.m.spinning| && Distinct(s.m.procs)
  }

  ghost predicate Inv(s: State) {
    && s.workers != {}
    && Counters(s)
    && (forall t: Tid :: Thread(s, t))
    && (forall q: Tid :: Queue(s, q))
    && (forall k: Ticket :: Numbered(s, k))
    && (forall q: Tid :: Safe(s, q))
  }

  // ------------------------------------------------------ every step keeps it

  lemma InitInv(workers: set<Tid>)
    requires workers != {}
    ensures Inv(Init(workers))
  {
    var s := Init(workers);
    forall t ensures Thread(s, t) {}
    forall q ensures Safe(s, q) {}
  }

  /** A lock changes only by t acquiring it when open, or t releasing it. */
  predicate Mutex(l: Holder, l': Holder, t: Tid) {
    l' == l || ((l.Open? || l.t == t) && (l'.Open? || l'.t == t))
  }

  lemma LockKept(s: State, t: Tid, a: Act, w: Tid)
    requires Thread(s, t) && OnQueues(s.Pc(t))
    ensures Mutex(s.Lock(w), QueueStep(s, t, a).Lock(w), t)
  {}

  lemma QueueSame(s: State, t: Tid, a: Act)
    requires OnQueues(s.Pc(t))
    ensures var s' := QueueStep(s, t, a);
      s'.m == s.m && s'.workers == s.workers && forall u :: u != t ==> s'.Pc(u) == s.Pc(u)
  {}

  lemma QueueManages(s: State, t: Tid, a: Act)
    requires Thread(s, t) && OnQueues(s.Pc(t))
    ensures Manages(QueueStep(s, t, a), t)
  {
    QueueSame(s, t, a);
  }

  lemma QueueQueueing(s: State, t: Tid, a: Act)
    requires Thread(s, t) && Numbered(s, s.q.ticket) && OnQueues(s.Pc(t))
    ensures Queueing(QueueStep(s, t, a), t)
  {}

  lemma JobKept(s: State, t: Tid, a: Act, u: Tid, k: Ticket)
    requires Thread(s, t) && OnQueues(s.Pc(t)) && u != t && Mine(s, u, k)
    ensures Mine(QueueStep(s, t, a), u, k)
  {}

  /** The thread u is not t, and no step of t changes what u relies on. */
  lemma QueueOthers(s: State, t: Tid, a: Act, u: Tid)
    requires Thread(s, t) && Thread(s, u) && OnQueues(s.Pc(t)) && u != t
    ensures Thread(QueueStep(s, t, a), u)
  {
    var s' := QueueStep(s, t, a);
    QueueSame(s, t, a);
    if s.Pc(u).TakePop? || s.Pc(u).SpinPop? || s.Pc(u).FinalPop? { LockKept(s, t, a, s.Pc(u).q); }
    if JobOf(s.Pc(u)).For? { JobKept(s, t, a, u, JobOf(s.Pc(u)).k); }
    SameThread(s, s', t, u);
  }

  lemma SameThread(s: State, s': State, t: Tid, u: Tid)
    requires Thread(s, t) && Thread(s, u) && OnQueues(s.Pc(t)) && u != t
    requires s'.m == s.m && s'.workers == s.workers && (forall v :: v != t ==> s'.Pc(v) == s.Pc(v))
    requires s.Pc(u).TakePop? || s.Pc(u).SpinPop? || s.Pc(u).FinalPop? ==>
      Mutex(s.Lock(s.Pc(u).q), s'.Lock(s.Pc(u).q), t)
    requires JobOf(s.Pc(u)).For? ==> Mine(s', u, JobOf(s.Pc(u)).k)
    ensures Thread(s', u)
  {}

  lemma IdleThread(s: State, t: Tid)
    requires Thread(s, t) && Work(s.Pc(t)) && !OnQueues(s.Pc(t))
    ensures Thread(IdleStep(s, t), t)
  {}

  lemma IdleOthers(s: State, t: Tid, u: Tid)
    requires Thread(s, t) && Thread(s, u) && Work(s.Pc(t)) && !OnQueues(s.Pc(t)) && u != t
    ensures Thread(IdleStep(s, t), u)
  {
    IdleManages(s, t, u);
    assert Queueing(IdleStep(s, t), u);
  }

  /** What u's part of the invariant depends on. */
  predicate SameFor(s: State, s': State, t: Tid, u: Tid) {
    && s'.Phase(u) == s.Phase(u) && s'.m.Sem(u) == s.m.Sem(u) && (u in s'.m.procs <==> u in s.m.procs)
    && (u in s'.m.waiting <==> u in s.m.waiting) && (u in s'.m.spinning <==> u in s.m.spinning)
    && Mutex(s.m.procLock, s'.m.procLock, t)
  }

  lemma IdleSame(s: State, t: Tid, u: Tid)
    requires Manages(s, t) && Work(s.Pc(t)) && !OnQueues(s.Pc(t)) && u != t
    ensures var s' := IdleStep(s, t);
      && SameFor(s, s', t, u) && (s.Phase(t).Popped? || s.Phase(t).Uncounted? ==> s'.Phase(t) == s.Phase(t))
      && (forall v :: v != t ==> s'.Pc(v) == s.Pc(v) && s'.Phase(v) == s.Phase(v))
  {}

  lemma IdleManages(s: State, t: Tid, u: Tid)
    requires Manages(s, t) && Manages(s, u) && Work(s.Pc(t)) && !OnQueues(s.Pc(t)) && u != t
    ensures Manages(IdleStep(s, t), u)
  {
    var s' := IdleStep(s, t);
    IdleSame(s, t, u);
    ManagesSame(s, s', t, u);
  }

  lemma ManagesSame(s: State, s': State, t: Tid, u: Tid)
    requires Manages(s, t) && Manages(s, u) && Work(s.Pc(t)) && u != t
    requires SameFor(s, s', t, u) && (s.Phase(t).Popped? || s.Phase(t).Uncounted? ==> s'.Phase(t) == s.Phase(t))
    requires forall v :: v != t ==> s'.Pc(v) == s.Pc(v) && s'.Phase(v) == s.Phase(v)
    ensures Manages(s', u)
  {}

  /** The waiting worker that the step of unblock is about. */
  predicate About(s: State, t: Tid, a: Act, p: Tid) {
    match s.Pc(t)
    case PopProc(_) => s.m.procs != [] && ToWake(s.m, a) == p
    case DecWait(_, x) => x == p
    case Wake(_, x) => x == p
    case _ => false
  }

  lemma UnblockThread(s: State, t: Tid, a: Act, p: Tid)
    requires Thread(s, t) && Thread(s, p) && InUnblock(s.Pc(t)) && Distinct(s.m.procs)
    requires forall x :: About(s, t, a, x) ==> x == p
    ensures Thread(UnblockStep(s, t, a), t)
  {
    if s.Pc(t).PopProc? && s.m.procs != [] { assert About(s, t, a, ToWake(s.m, a)); PopThread(s, t, a); } else { GoesThread(s, t, a, p); }
  }

  lemma GoesThread(s: State, t: Tid, a: Act, p: Tid)
    requires Thread(s, t) && Thread(s, p) && InUnblock(s.Pc(t)) && (s.Pc(t).PopProc? ==> s.m.procs == [])
    requires forall x :: About(s, t, a, x) ==> x == p
    ensures Thread(UnblockStep(s, t, a), t)
  {
    GoesQueueing(s, t, a);
    GoesManages(s, t, a, p);
  }

  lemma GoesQueueing(s: State, t: Tid, a: Act)
    requires Queueing(s, t) && InUnblock(s.Pc(t))
    ensures Queueing(UnblockStep(s, t, a), t)
  {}

  lemma GoesManages(s: State, t: Tid, a: Act, p: Tid)
    requires Manages(s, t) && Manages(s, p) && InUnblock(s.Pc(t)) && (s.Pc(t).PopProc? ==> s.m.procs == [])
    requires forall x :: About(s, t, a, x) ==> x == p
    ensures Manages(UnblockStep(s, t, a), t)
  {}

  lemma PopThread(s: State, t: Tid, a: Act)
    requires Thread(s, t) && s.Pc(t).PopProc? && s.m.procs != [] && Distinct(s.m.procs) && Thread(s, ToWake(s.m, a))
    ensures Thread(UnblockStep(s, t, a), t)
  {
    RemoveOne(s.m.procs, ToWake(s.m, a));
  }

  lemma UnblockSleeper(s: State, t: Tid, a: Act, p: Tid)
    requires Thread(s, t) && Thread(s, p) && InUnblock(s.Pc(t)) && About(s, t, a, p) && Distinct(s.m.procs)
    ensures Thread(UnblockStep(s, t, a), p)
  {
    if s.Pc(t).PopProc? { RemoveOne(s.m.procs, ToWake(s.m, a)); }
  }

  lemma UnblockJobs(s: State, t: Tid, a: Act, u: Tid)
    requires Thread(s, t) && Thread(s, u) && InUnblock(s.Pc(t)) && u != t
    ensures Queueing(UnblockStep(s, t, a), u)
  {
    OtherQueues(s, t, a);
    JobsSame(s, UnblockStep(s, t, a), t, u);
  }

  lemma JobsSame(s: State, s': State, t: Tid, u: Tid)
    requires Queueing(s, t) && Queueing(s, u) && u != t && s'.workers == s.workers && s'.Pc(u) == s.Pc(u)
    requires s'.q == s.q.(settled := s'.q.settled)
    requires s'.q.settled == s.q.settled || (JobOf(s.Pc(t)).For? && s'.q.settled == s.q.settled + {JobOf(s.Pc(t)).k})
    ensures Queueing(s', u)
  {}

  lemma PoppedOthers(s: State, t: Tid, a: Act, u: Tid)
    requires Thread(s, t) && Thread(s, u) && s.Pc(t).PopProc? && s.m.procs != [] && Distinct(s.m.procs)
    requires u != t && u != ToWake(s.m, a) && Thread(s, ToWake(s.m, a))
    ensures Manages(UnblockStep(s, t, a), u)
  {
    RemoveOne(s.m.procs, ToWake(s.m, a));
  }

  lemma WokenOthers(s: State, t: Tid, a: Act, u: Tid)
    requires Thread(s, t) && Thread(s, u) && (s.Pc(t).DecWait? || s.Pc(t).Wake?) && u != t && u != s.Pc(t).p
    ensures Manages(UnblockStep(s, t, a), u)
  {}

  lemma UnblockOthers(s: State, t: Tid, a: Act, u: Tid)
    requires Thread(s, t) && Thread(s, u) && InUnblock(s.Pc(t)) && !About(s, t, a, u) && Distinct(s.m.procs) && u != t
    requires s.Pc(t).PopProc? && s.m.procs != [] ==> Thread(s, ToWake(s.m, a))
    ensures Thread(UnblockStep(s, t, a), u)
  {
    UnblockJobs(s, t, a, u);
    if s.Pc(t).PopProc? && s.m.procs != [] {
      PoppedOthers(s, t, a, u);
    } else if s.Pc(t).DecWait? || s.Pc(t).Wake? {
      WokenOthers(s, t, a, u);
    } else {
      QuietOthers(s, t, a, u);
    }
  }

  lemma QuietOthers(s: State, t: Tid, a: Act, u: Tid)
    requires Manages(s, t) && Manages(s, u) && InUnblock(s.Pc(t)) && u != t && !s.Pc(t).DecWait? && !s.Pc(t).Wake?
    requires s.Pc(t).PopProc? ==> s.m.procs == []
    ensures Manages(UnblockStep(s, t, a), u)
  {}

  lemma ThreadsKept(s: State, t: Tid, a: Act, u: Tid)
    requires Inv(s)
    ensures Thread(Step(s, t, a), u)
  {
    assert Thread(s, t) && Thread(s, u);
    assert OnQueues(s.Pc(t)) || InUnblock(s.Pc(t)) || Work(s.Pc(t));
    if OnQueues(s.Pc(t)) {
      assert Numbered(s, s.q.ticket);
      if u == t { QueueManages(s, t, a); QueueQueueing(s, t, a); } else { QueueOthers(s, t, a, u); }
    } else if InUnblock(s.Pc(t)) {
      var p := AboutWhom(s, t, a);
      assert Thread(s, p);
      if u == t { UnblockThread(s, t, a, p); }
      else if About(s, t, a, u) { UnblockSleeper(s, t, a, u); }
      else { UnblockOthers(s, t, a, u); }
    } else {
      if u == t { IdleThread(s, t); } else { IdleOthers(s, t, u); }
    }
  }

  function AboutWhom(s: State, t: Tid, a: Act): (p: Tid)
    ensures forall x :: About(s, t, a, x) ==> x == p
  {
    match s.Pc(t)
    case PopProc(_) => if s.m.procs != [] then ToWake(s.m, a) else t
    case DecWait(_, x) => x
    case Wake(_, x) => x
    case _ => t
  }

  /** A counter follows the set of the workers it counts. */
  predicate Follows(c: int, who: set<Tid>, c': int, who': set<Tid>, t: Tid) {
    || (c' == c && who' == who)
    || (c' == c + 1 && t !in who && who' == who + {t})
    || (c' == c - 1 && t in who && who' == who - {t})
  }

  lemma IdleFollows(s: State, t: Tid)
    requires Thread(s, t)
    ensures var s' := IdleStep(s, t);
      && Follows(s.m.waitCounter, s.m.waiting, s'.m.waitCounter, s'.m.waiting, t)
      && Follows(s.m.spinCounter, s.m.spinning, s'.m.spinCounter, s'.m.spinning, t)
      && (s'.m.procs == s.m.procs || (t !in s.m.procs && s'.m.procs == [t] + s.m.procs))
  {}

  lemma IdleCounters(s: State, t: Tid)
    requires Thread(s, t) && Counters(s)
    ensures Counters(IdleStep(s, t))
  {
    IdleFollows(s, t);
    if t !in s.m.procs { AppendDistinct([t], s.m.procs); }
  }

  lemma UnblockCounters(s: State, t: Tid, a: Act)
    requires Thread(s, t) && Counters(s) && (s.Pc(t).DecWait? ==> Thread(s, s.Pc(t).p))
    ensures Counters(UnblockStep(s, t, a))
  {
    if s.Pc(t).DecWait? {
      assert s.Pc(t).p in s.m.waiting;
      assert Counters(UnblockStep(s, t, a));
    } else if s.Pc(t).PopProc? && s.m.procs != [] {
      RemoveOne(s.m.procs, ToWake(s.m, a));
    }
  }

  lemma QueueNumbered(s: State, t: Tid, a: Act, k: Ticket)
    requires Queueing(s, t) && Numbered(s, k) && OnQueues(s.Pc(t))
    ensures Numbered(QueueStep(s, t, a), k)
  {
    if s.Pc(t).Run? || s.Pc(t).Link? { PushNumbered(s, t, a, k); } else { PopNumbered(s, t, a, k); }
  }

  lemma PushNumbered(s: State, t: Tid, a: Act, k: Ticket)
    requires Queueing(s, t) && Numbered(s, k) && (s.Pc(t).Run? || s.Pc(t).Link?)
    ensures Numbered(QueueStep(s, t, a), k)
  {}

  lemma PopNumbered(s: State, t: Tid, a: Act, k: Ticket)
    requires Queueing(s, t) && Numbered(s, k) && OnQueues(s.Pc(t)) && !s.Pc(t).Run? && !s.Pc(t).Link?
    ensures Numbered(QueueStep(s, t, a), k)
  {}

  lemma UnblockNumbered(s: State, t: Tid, a: Act, k: Ticket)
    requires Queueing(s, t) && Numbered(s, k) && InUnblock(s.Pc(t))
    ensures Numbered(UnblockStep(s, t, a), k)
  {}

  lemma IdleNumbered(s: State, t: Tid, k: Ticket)
    requires Numbered(s, k) && Work(s.Pc(t)) && !OnQueues(s.Pc(t))
    ensures Numbered(IdleStep(s, t), k)
  {}

  lemma QueueQueue(s: State, t: Tid, a: Act, w: Tid)
    requires Queueing(s, t) && Queue(s, w) && OnQueues(s.Pc(t))
    ensures Queue(QueueStep(s, t, a), w)
  {
    var s' := QueueStep(s, t, a);
    LockOwner(s, t, a, w);
    ReadyMoves(s, t, a, w);
  }

  /** A step appends a new ticket, takes the first, or leaves the queue alone. */
  lemma ReadyMoves(s: State, t: Tid, a: Act, w: Tid)
    requires Queueing(s, t) && OnQueues(s.Pc(t))
    ensures var s' := QueueStep(s, t, a);
      && s'.workers == s.workers && s.q.ticket <= s'.q.ticket
      && (|| s'.Ready(w) == s.Ready(w)
          || (s.Ready(w) != [] && s'.Ready(w) == s.Ready(w)[1..])
          || (w in s.workers && s'.Ready(w) == s.Ready(w) + [s.q.ticket] && s'.q.ticket == s.q.ticket + 1))
  {}

  lemma LockOwner(s: State, t: Tid, a: Act, w: Tid)
    requires Queueing(s, t) && Queue(s, w) && OnQueues(s.Pc(t))
    ensures var s' := QueueStep(s, t, a);
      s'.Lock(w).Held? ==> s'.Lock(w).t in s'.workers && Pops(s'.Pc(s'.Lock(w).t), w)
  {}

  /** The other steps change nothing of the queues but the set of settled tickets. */
  lemma OtherQueues(s: State, t: Tid, a: Act)
    requires InUnblock(s.Pc(t)) || (Work(s.Pc(t)) && !OnQueues(s.Pc(t)))
    ensures var s' := Step(s, t, a);
      && s'.workers == s.workers && (forall u :: u != t ==> s'.Pc(u) == s.Pc(u))
      && s'.q == s.q.(settled := s'.q.settled)
      && (s'.q.settled == s.q.settled || (JobOf(s.Pc(t)).For? && s'.q.settled == s.q.settled + {JobOf(s.Pc(t)).k}))
  {}

  lemma QueueKept(s: State, t: Tid, a: Act, w: Tid)
    requires Inv(s)
    ensures Queue(Step(s, t, a), w)
  {
    assert Thread(s, t) && Queue(s, w);
    if OnQueues(s.Pc(t)) { QueueQueue(s, t, a, w); } else { OtherQueues(s, t, a); }
  }

  /** No step but those of the last search makes a worker committed. */
  lemma IdleCommits(s: State, t: Tid, u: Tid, w: Tid)
    requires Thread(s, t) && Work(s.Pc(t)) && !OnQueues(s.Pc(t)) && Committed(IdleStep(s, t), u, w)
    ensures Committed(s, u, w)
  {}

  lemma UnblockCommits(s: State, t: Tid, a: Act, u: Tid, w: Tid)
    requires Thread(s, u) && InUnblock(s.Pc(t)) && Committed(UnblockStep(s, t, a), u, w)
    ensures Committed(s, u, w)
  {}

  lemma QueueCommits(s: State, t: Tid, a: Act, u: Tid, w: Tid)
    requires Thread(s, t) && OnQueues(s.Pc(t)) && Committed(QueueStep(s, t, a), u, w) && !Committed(s, u, w)
    ensures u == t && (s.Pc(t).Final? || s.Pc(t).FinalTry? || s.Pc(t).FinalPop?)
    ensures var s' := QueueStep(s, t, a); s'.Ready(w) == s.Ready(w) && s'.q.settled == s.q.settled
    ensures w !in s.workers || s.Ready(w) == [] || (s.Pc(t).FinalPop? && !Poppable(s, w)) ||
      (s.Pc(t).FinalTry? && s.Pc(t).q == w && s.Lock(w).Held?)
  {}

  lemma IdleSafe(s: State, t: Tid, w: Tid)
    requires Thread(s, t) && Work(s.Pc(t)) && !OnQueues(s.Pc(t)) && Safe(s, w)
    ensures Safe(IdleStep(s, t), w)
  {
    var s' := IdleStep(s, t);
    assert s'.q == s.q && s'.workers == s.workers;
    if Attended(s, w) {
      var u :| u in s.workers && !Committed(s, u, w);
      if Committed(s', u, w) { IdleCommits(s, t, u, w); }
    }
  }

  /** Unblock ends when no worker waits, or when it has woken one. */
  lemma EndAttends(s: State, t: Tid, a: Act, w: Tid)
    requires Inv(s) && InUnblock(s.Pc(t)) && UnblockStep(s, t, a).q.settled != s.q.settled
    ensures Attended(UnblockStep(s, t, a), w)
  {
    var s' := UnblockStep(s, t, a);
    if s.Pc(t).Wake? {
      var p := s.Pc(t).p;
      assert Thread(s, t) && Thread(s, p);
      assert p in s'.workers && !Committed(s', p, w);
    } else {
      var u :| u in s.workers;
      assert Thread(s, u);
      assert u !in s.m.waiting;
      if Committed(s', u, w) { UnblockCommits(s, t, a, u, w); }
    }
  }

  lemma UnblockSafe(s: State, t: Tid, a: Act, w: Tid)
    requires Inv(s) && InUnblock(s.Pc(t))
    ensures Safe(UnblockStep(s, t, a), w)
  {
    var s' := UnblockStep(s, t, a);
    OtherQueues(s, t, a);
    assert Safe(s, w);
    if s'.q.settled != s.q.settled {
      EndAttends(s, t, a, w);
    } else if Attended(s, w) {
      var u :| u in s.workers && !Committed(s, u, w);
      assert Thread(s, u);
      if Committed(s', u, w) { UnblockCommits(s, t, a, u, w); }
    }
  }

  /** A worker that has just popped, or yielded, attends to every queue; and a thread that
      is no worker settles nothing by enqueueing. */
  lemma QueueFront(s: State, t: Tid, a: Act, w: Tid)
    requires Queueing(s, t) && Queue(s, w) && Numbered(s, s.q.ticket) && OnQueues(s.Pc(t))
    requires var s' := QueueStep(s, t, a); s'.Ready(w) != [] && s'.Ready(w)[0] in s'.q.settled
    ensures var s' := QueueStep(s, t, a);
      (t in s.workers && !Committed(s', t, w)) || (s.Ready(w) != [] && s.Ready(w)[0] in s.q.settled)
  {}

  lemma QueueSafe(s: State, t: Tid, a: Act, w: Tid)
    requires Inv(s) && OnQueues(s.Pc(t))
    ensures Safe(QueueStep(s, t, a), w)
  {
    var s' := QueueStep(s, t, a);
    assert Thread(s, t) && Queue(s, w) && Numbered(s, s.q.ticket) && Safe(s, w);
    QueueSame(s, t, a);
    if s'.Ready(w) != [] && s'.Ready(w)[0] in s'.q.settled {
      QueueFront(s, t, a, w);
      if !(t in s.workers && !Committed(s', t, w)) {
        assert Numbered(s, s.Ready(w)[0]);
        var u :| u in s.workers && !Committed(s, u, w);
        if Committed(s', u, w) {
          QueueCommits(s, t, a, u, w);
          var v := s.Lock(w).t;
          assert Thread(s, v) && v != t;
          assert !Committed(s', v, w);
        }
      }
    }
  }

  lemma StepKeeps(s: State, t: Tid, a: Act)
    requires Inv(s)
    ensures Inv(Step(s, t, a))
  {
    var s' := Step(s, t, a);
    forall u ensures Thread(s', u) { ThreadsKept(s, t, a, u); }
    forall w ensures Queue(s', w) { QueueKept(s, t, a, w); }
    assert Thread(s, t);
    if OnQueues(s.Pc(t)) {
      QueueSame(s, t, a);
      forall k ensures Numbered(s', k) { assert Numbered(s, k); QueueNumbered(s, t, a, k); }
      forall w ensures Safe(s', w) { QueueSafe(s, t, a, w); }
    } else if InUnblock(s.Pc(t)) {
      OtherQueues(s, t, a);
      assert s.Pc(t).DecWait? ==> Thread(s, s.Pc(t).p);
      UnblockCounters(s, t, a);
      forall k ensures Numbered(s', k) { assert Numbered(s, k); UnblockNumbered(s, t, a, k); }
      forall w ensures Safe(s', w) { UnblockSafe(s, t, a, w); }
    } else {
      OtherQueues(s, t, a);
      IdleCounters(s, t);
      forall k ensures Numbered(s', k) { assert Numbered(s, k); IdleNumbered(s, t, k); }
      forall w ensures Safe(s', w) { assert Safe(s, w); IdleSafe(s, t, w); }
    }
  }

  // ------------------------------------------------------------- the theorems

  function After(workers: set<Tid>, sched: seq<(Tid, Act)>): State {
    if sched == [] then Init(workers)
    else Step(After(workers, sched[..|sched| - 1]), sched[|sched| - 1].0, sched[|sched| - 1].1)
  }

  lemma {:induction false} EveryRun(workers: set<Tid>, sched: seq<(Tid, Act)>)
    requires workers != {}
    ensures Inv(After(workers, sched)) && After(workers, sched).workers == workers
  {
    if sched == [] {
      InitInv(workers);
    } else {
      var s := After(workers, sched[..|sched| - 1]);
      var t, a := sched[|sched| - 1].0, sched[|sched| - 1].1;
      EveryRun(workers, sched[..|sched| - 1]);
      StepKeeps(s, t, a);
      assert Thread(s, t);
      if OnQueues(s.Pc(t)) { QueueSame(s, t, a); } else { OtherQueues(s, t, a); }
    }
  }

  /** The enqueuer of the first ticket in queue w has not finished unblock. */
  predicate FrontOwed(s: State, w: Tid) {
    s.Ready(w) != [] && JobOf(s.Pc(s.Source(s.Ready(w)[0]))) == For(s.Ready(w)[0])
  }

  /** In every run a non-empty ready queue has a worker that is awake, being woken, or yet
      to search it, or a thread that will still call unblock for its first fred. */
  lemma {:induction false} NoStrandedFred(workers: set<Tid>, sched: seq<(Tid, Act)>, w: Tid)
    requires workers != {} && After(workers, sched).Ready(w) != []
    ensures Attended(After(workers, sched), w) || FrontOwed(After(workers, sched), w)
  {
    EveryRun(workers, sched);
    var s := After(workers, sched);
    assert Safe(s, w) && Queue(s, w) && Numbered(s, s.Ready(w)[0]);
  }

  /** All workers asleep with nobody resuming means that there is nothing to run. */
  lemma {:induction false} AllAsleepMeansEmpty(workers: set<Tid>, sched: seq<(Tid, Act)>, w: Tid)
    requires workers != {}
    requires var s := After(workers, sched); forall t: Tid ::
      if t in workers then s.Pc(t).Halt? && s.m.Sem(t) == 0 else s.Pc(t).Run?
    ensures After(workers, sched).Ready(w) == []
  {
    EveryRun(workers, sched);
    var s := After(workers, sched);
    forall u | u in workers ensures Committed(s, u, w) { assert Thread(s, u); }
    if s.Ready(w) != [] {
      assert !FrontOwed(s, w) && !Attended(s, w);
      NoStrandedFred(workers, sched, w);
    }
  }

  /** waitCounter counts the workers between incWaiting and decWaiting, so no decrement
      can find it at zero; and likewise spinCounter. */
  lemma {:induction false} CountersNeverUnderflow(workers: set<Tid>, sched: seq<(Tid, Act)>, t: Tid)
    requires workers != {}
    ensures var s := After(workers, sched);
      && (s.Pc(t).FinalDec? || s.Pc(t).DecWait? ==> s.m.waitCounter > 0)
      && (s.Pc(t).SpinFound? || s.Pc(t).SpinDec? ==> s.m.spinCounter > 0)
      && s.m.waitCounter == |s.m.waiting| && (forall u: Tid :: u in s.m.waiting <==> Counted(s, u))
  {
    EveryRun(workers, sched);
    var s := After(workers, sched);
    assert Thread(s, t);
    if s.Pc(t).DecWait? { assert Thread(s, s.Pc(t).p) && s.Pc(t).p in s.m.waiting; }
    forall u: Tid ensures u in s.m.waiting <==> Counted(s, u) { assert Thread(s, u); }
  }

  /** A wake goes to a worker that is blocked and has no wake yet, and no two threads wake
      the same worker: every block is matched by exactly one wake. */
  lemma {:induction false} OneWakePerBlock(workers: set<Tid>, sched: seq<(Tid, Act)>, t: Tid, u: Tid)
    requires workers != {}
    requires var s := After(workers, sched); s.Pc(t).Wake? && Wakes(s, u, s.Pc(t).p)
    ensures var s := After(workers, sched);
      u == t && s.m.Sem(s.Pc(t).p) == 0 && Blocked(s.Pc(s.Pc(t).p)) && s.Pc(t).p !in s.m.procs
  {
    EveryRun(workers, sched);
    var s := After(workers, sched);
    assert Thread(s, t) && Thread(s, u) && Thread(s, s.Pc(t).p);
  }

  /** The worker p that u is waking. */
  predicate Wakes(s: State, u: Tid, p: Tid) {
    (s.Pc(u).ProcRelease? || s.Pc(u).DecWait? || s.Pc(u).Wake?) && s.Pc(u).p == p
  }

  /** When unblock finds waitCounter positive and nobody listed, some worker is on its way
      into or out of the list, so the retry loop waits for a step of another thread. */
  lemma {:induction false} UnblockLoopHasReason(workers: set<Tid>, sched: seq<(Tid, Act)>) returns (u: Tid)
    requires workers != {}
    requires var s := After(workers, sched); s.m.waitCounter > 0 && s.m.procs == []
    ensures var s := After(workers, sched);
      u in s.m.waiting && (s.Phase(u).Popped? || s.Pc(u).BlockPush? || s.Pc(u).BlockLock? || s.Pc(u).FinalDec? ||
                            s.Pc(u).Final? || s.Pc(u).FinalTry? || s.Pc(u).FinalPop?)
  {
    EveryRun(workers, sched);
    var s := After(workers, sched);
    u :| u in s.m.waiting;
    assert Thread(s, u);
  }

  // ----------------------------------------- which position of a queue is covered

  /** A fred whose enqueuer has finished unblock has a worker to run it, unless it stands
      behind the first one and an unblock for the first one is still to come. */
  lemma {:induction false} UnattendedIsBehindOwed(workers: set<Tid>, sched: seq<(Tid, Act)>, w: Tid, i: nat)
    requires workers != {}
    requires var s := After(workers, sched);
      i < |s.Ready(w)| && s.Ready(w)[i] in s.q.settled && !Attended(s, w)
    ensures i > 0 && FrontOwed(After(workers, sched), w)
    ensures var s := After(workers, sched); s.Ready(w)[0] !in s.q.settled
  {
    EveryRun(workers, sched);
    NoStrandedFred(workers, sched, w);
    assert Safe(After(workers, sched), w);
  }

  /** In every run a fred at position i of a ready queue, whose enqueuer has finished
      unblock, has a worker that is awake, being woken, or yet to search the queue. */
  ghost predicate Covered(workers: set<Tid>, i: nat) {
    forall sched: seq<(Tid, Act)>, w: Tid ::
      i < |After(workers, sched).Ready(w)| && After(workers, sched).Ready(w)[i] in After(workers, sched).q.settled ==>
      Attended(After(workers, sched), w)
  }

  /** For any workers the first position is covered and no other is. */
  lemma CoveredIffFirst(workers: set<Tid>, i: nat)
    requires workers != {}
    ensures Covered(workers, i) <==> i == 0
  {
    if i == 0 {
      forall sched: seq<(Tid, Act)>, w: Tid
        | 0 < |After(workers, sched).Ready(w)| && After(workers, sched).Ready(w)[0] in After(workers, sched).q.settled
        ensures Attended(After(workers, sched), w)
      {
        EveryRun(workers, sched);
        assert Safe(After(workers, sched), w);
      }
    } else {
      var w :| w in workers;
      var sched := SettledBehindUnlinked(workers, w, i);
      assert !Attended(After(workers, sched), w);
    }
  }

  /** Behind an enqueue that has not stored its link, every position can hold a fred whose
      enqueuer has finished unblock while every worker sleeps: the pop stops at the missing
      link. */
  lemma SettledBehindUnlinked(workers: set<Tid>, w: Tid, i: nat) returns (sched: seq<(Tid, Act)>)
    requires w in workers && i > 0
    ensures var s := After(workers, sched);
      && i < |s.Ready(w)| && s.Ready(w)[i] in s.q.settled && !Attended(s, w)
      && forall u :: u in workers ==> s.Pc(u).Halt? && s.m.Sem(u) == 0
  {
    var z := Above(workers);
    sched := Resumes(workers, w, z, i);
    sched := AllSleep(workers, sched, w, z, i, workers);
    EveryRun(workers, sched);
    var s := After(workers, sched);
    forall u | u in workers ensures Committed(s, u, w) { assert Thread(s, u); }
  }

  lemma {:induction false} Above(workers: set<Tid>) returns (z: Tid)
    ensures forall w <- workers :: w < z
    decreases |workers|
  {
    if workers == {} {
      z := 0;
    } else {
      var w :| w in workers;
      var rest := workers - {w};
      z := Above(rest);
      if z <= w { z := w + 1; }
      forall v | v in workers ensures v < z { assert v in rest || v == w; }
    }
  }

  /** The first fred of queue w is not linked, and those behind it up to position i have
      been resumed; nobody holds a lock or has a wake. */
  ghost predicate Stuck(s: State, workers: set<Tid>, w: Tid, i: nat) {
    && s.workers == workers && |s.Ready(w)| == i + 1 && s.Ready(w)[0] !in s.q.linked
    && (i > 0 ==> s.Ready(w)[i] in s.q.settled)
    && (forall q: Tid :: q != w ==> s.Ready(q) == [])
    && s.m.procLock.Open? && (forall q: Tid :: s.Lock(q).Open?) && (forall u: Tid :: s.m.Sem(u) == 0)
  }

  /** t's program counter moves, and nothing of what Stuck speaks about but procLock. */
  ghost predicate MovesOnly(s: State, s': State, t: Tid) {
    && s'.workers == s.workers && s'.q.ready == s.q.ready && s'.q.linked == s.q.linked && s'.q.settled == s.q.settled
    && (forall q: Tid :: s'.Lock(q) == s.Lock(q))
    && (forall u: Tid :: s'.m.Sem(u) == s.m.Sem(u)) && (forall u: Tid :: u != t ==> s'.Pc(u) == s.Pc(u))
  }

  lemma MovesOnlyStuck(s: State, s': State, t: Tid, workers: set<Tid>, w: Tid, i: nat)
    requires Stuck(s, workers, w, i) && MovesOnly(s, s', t) && s'.m.procLock.Open?
    ensures Stuck(s', workers, w, i)
  {
    assert forall q: Tid :: s'.Ready(q) == s.Ready(q);
  }

  /** Thread z stays between its exchange and its link, while worker w resumes i freds. */
  lemma {:induction false} Resumes(workers: set<Tid>, w: Tid, z: Tid, i: nat) returns (sched: seq<(Tid, Act)>)
    requires w in workers && z != w
    ensures Resumed(After(workers, sched), workers, w, z, i)
    decreases i
  {
    if i == 0 {
      sched := Then(workers, [], z, Act.Resume(w));
    } else {
      sched := Resumes(workers, w, z, i - 1);
      sched := ResumesOne(workers, sched, w, z, i - 1);
    }
  }

  ghost predicate Resumed(s: State, workers: set<Tid>, w: Tid, z: Tid, i: nat) {
    && Stuck(s, workers, w, i) && s.m.waitCounter == 0 && s.q.ticket == i + 1 && s.Ready(w)[0] == 0
    && s.Pc(z).Link? && (forall u: Tid :: u != z ==> s.Pc(u).Run?)
  }

  lemma {:induction false} ResumesOne(workers: set<Tid>, sched: seq<(Tid, Act)>, w: Tid, z: Tid, i: nat)
    returns (sched': seq<(Tid, Act)>)
    requires w in workers && z != w && Resumed(After(workers, sched), workers, w, z, i)
    ensures Resumed(After(workers, sched'), workers, w, z, i + 1)
  {
    var s := After(workers, sched);
    ResumeStates(s, w, i + 1);
    sched' := Then(workers, sched, w, Act.Resume(w));
    sched' := Then(workers, sched', w, Go);
    sched' := Then(workers, sched', w, Go);
    StillResumed(s, workers, w, z, i);
  }

  /** The state after worker w has enqueued, linked and settled ticket k. */
  function Enqueued(s: State, w: Tid, k: Ticket): State {
    var s1 := Enqueue(s, w, w, false);
    s1.(q := s1.q.(linked := s1.q.linked + {k})).To(w, Check(For(k))).End(w, For(k))
  }

  lemma ResumeStates(s: State, w: Tid, k: Ticket)
    requires s.Pc(w).Run? && w in s.workers && s.q.ticket == k && s.m.waitCounter == 0
    ensures Step(Step(Step(s, w, Act.Resume(w)), w, Go), w, Go) == Enqueued(s, w, k)
  {
    var s1 := Step(s, w, Act.Resume(w));
    assert s1 == Enqueue(s, w, w, false);
    var s2 := Step(s1, w, Go);
    assert s2 == s1.(q := s1.q.(linked := s1.q.linked + {k})).To(w, Check(For(k)));
  }

  lemma StillResumed(s: State, workers: set<Tid>, w: Tid, z: Tid, i: nat)
    requires w in workers && z != w && Resumed(s, workers, w, z, i)
    ensures Resumed(Enqueued(s, w, i + 1), workers, w, z, i + 1)
  {
    var s' := Enqueued(s, w, i + 1);
    assert s'.Ready(w) == s.Ready(w) + [i + 1];
    assert forall q: Tid :: q != w ==> s'.Ready(q) == s.Ready(q);
    assert forall q: Tid :: s'.Lock(q) == s.Lock(q);
    assert forall u: Tid :: s'.m.Sem(u) == s.m.Sem(u);
    assert s'.Ready(w)[0] == s.Ready(w)[0] == 0 && s'.Ready(w)[i + 1] == i + 1;
    forall u: Tid ensures u != z ==> s'.Pc(u).Run? { assert u != z ==> s.Pc(u).Run?; }
    assert s'.Pc(z) == s.Pc(z);
  }

  /** One worker after the other goes to sleep. */
  lemma {:induction false} AllSleep(workers: set<Tid>, sched: seq<(Tid, Act)>, w: Tid, z: Tid, i: nat, awake: set<Tid>)
    returns (sched': seq<(Tid, Act)>)
    requires awake <= workers && z !in workers && Stuck(After(workers, sched), workers, w, i)
    requires var s := After(workers, sched);
      s.Pc(z).Link? && forall u: Tid :: u != z ==> if u in workers - awake then s.Pc(u).Halt? else s.Pc(u).Run?
    ensures Stuck(After(workers, sched'), workers, w, i)
    ensures var s := After(workers, sched');
      s.Pc(z).Link? && forall u: Tid :: u != z ==> if u in workers then s.Pc(u).Halt? else s.Pc(u).Run?
    decreases |awake|
  {
    if awake == {} {
      sched' := sched;
    } else {
      var u :| u in awake;
      sched' := FallsAsleep(workers, sched, w, i, u);
      sched' := AllSleep(workers, sched', w, z, i, awake - {u});
    }
  }

  /** Worker u spins in vain, searches all queues in vain, and goes to sleep. */
  lemma {:induction false} FallsAsleep(workers: set<Tid>, sched: seq<(Tid, Act)>, w: Tid, i: nat, u: Tid)
    returns (sched': seq<(Tid, Act)>)
    requires u in workers && Stuck(After(workers, sched), workers, w, i) && After(workers, sched).Pc(u).Run?
    ensures var s, s' := After(workers, sched), After(workers, sched');
      s'.Pc(u).Halt? && MovesOnly(s, s', u) && Stuck(s', workers, w, i)
  {
    var s := After(workers, sched);
    sched' := SpinsInVain(workers, sched, u);
    MovesOnlyStuck(s, After(workers, sched'), u, workers, w, i);
    sched' := SearchesInVain(workers, sched', w, i, u, {});
    var s1 := After(workers, sched');
    sched' := EndsSearch(workers, sched', u);
    sched' := LocksList(workers, sched', u);
    sched' := ListsItself(workers, sched', u);
    sched' := Lies(workers, sched', u);
    MovesOnlyStuck(s1, After(workers, sched'), u, workers, w, i);
  }

  /** The next step of worker u, when it leaves the queues alone. */
  lemma {:induction false} Moves(workers: set<Tid>, sched: seq<(Tid, Act)>, u: Tid, p: Pc, m: Manager)
    returns (sched': seq<(Tid, Act)>)
    requires var s := After(workers, sched); Step(s, u, GiveUp) == s.(pc := s.pc[u := p], m := m)
    ensures var s := After(workers, sched); After(workers, sched') == s.(pc := s.pc[u := p], m := m)
  {
    sched' := Then(workers, sched, u, GiveUp);
  }

  lemma {:induction false} SpinsInVain(workers: set<Tid>, sched: seq<(Tid, Act)>, u: Tid) returns (sched': seq<(Tid, Act)>)
    requires var s := After(workers, sched); u in s.workers && s.Pc(u).Run?
    ensures var s, s' := After(workers, sched), After(workers, sched'); s'.Pc(u) == Final({}) && MovesOnly(s, s', u) && s'.m.procLock == s.m.procLock
  {
    sched' := Then(workers, sched, u, Act.Idle);
    var m := After(workers, sched').m;
    sched' := Moves(workers, sched', u, SpinSearch, m.(spinCounter := m.spinCounter + 1, spinning := m.spinning + {u}));
    sched' := StopsSpinning(workers, sched', u);
  }

  lemma {:induction false} StopsSpinning(workers: set<Tid>, sched: seq<(Tid, Act)>, u: Tid) returns (sched': seq<(Tid, Act)>)
    requires After(workers, sched).Pc(u).SpinSearch?
    ensures var s, s' := After(workers, sched), After(workers, sched'); s'.Pc(u) == Final({}) && MovesOnly(s, s', u) && s'.m.procLock == s.m.procLock
  {
    var m := After(workers, sched).m;
    sched' := Moves(workers, sched, u, SpinDec, m);
    sched' := Moves(workers, sched', u, WaitInc, m.(spinCounter := m.spinCounter - 1, spinning := m.spinning - {u}));
    sched' := StartsWaiting(workers, sched', u);
  }

  lemma {:induction false} StartsWaiting(workers: set<Tid>, sched: seq<(Tid, Act)>, u: Tid) returns (sched': seq<(Tid, Act)>)
    requires After(workers, sched).Pc(u).WaitInc?
    ensures var s, s' := After(workers, sched), After(workers, sched'); s'.Pc(u) == Final({}) && MovesOnly(s, s', u) && s'.m.procLock == s.m.procLock
  {
    var m := After(workers, sched).m;
    sched' := Moves(workers, sched, u, Final({}), m.(waitCounter := m.waitCounter + 1, waiting := m.waiting + {u}));
  }

  lemma {:induction false} EndsSearch(workers: set<Tid>, sched: seq<(Tid, Act)>, u: Tid) returns (sched': seq<(Tid, Act)>)
    requires var s := After(workers, sched); s.Pc(u).Final? && s.workers <= s.Pc(u).seen
    ensures var s, s' := After(workers, sched), After(workers, sched'); s'.Pc(u).BlockLock? && MovesOnly(s, s', u) && s'.m == s.m
  {
    sched' := Moves(workers, sched, u, BlockLock, After(workers, sched).m);
  }

  lemma {:induction false} LocksList(workers: set<Tid>, sched: seq<(Tid, Act)>, u: Tid) returns (sched': seq<(Tid, Act)>)
    requires var s := After(workers, sched); s.Pc(u).BlockLock? && s.m.procLock.Open?
    ensures var s, s' := After(workers, sched), After(workers, sched'); s'.Pc(u).BlockPush? && MovesOnly(s, s', u)
  {
    var m := After(workers, sched).m;
    sched' := Moves(workers, sched, u, BlockPush, m.(procLock := Held(u)));
  }

  lemma {:induction false} ListsItself(workers: set<Tid>, sched: seq<(Tid, Act)>, u: Tid) returns (sched': seq<(Tid, Act)>)
    requires After(workers, sched).Pc(u).BlockPush?
    ensures var s, s' := After(workers, sched), After(workers, sched'); s'.Pc(u).BlockRelease? && MovesOnly(s, s', u)
  {
    var m := After(workers, sched).m;
    sched' := Moves(workers, sched, u, BlockRelease, m.(procs := [u] + m.procs, phase := m.phase[u := Listed]));
  }

  lemma {:induction false} Lies(workers: set<Tid>, sched: seq<(Tid, Act)>, u: Tid) returns (sched': seq<(Tid, Act)>)
    requires After(workers, sched).Pc(u).BlockRelease?
    ensures var s, s' := After(workers, sched), After(workers, sched');
      s'.Pc(u).Halt? && s'.m.procLock.Open? && MovesOnly(s, s', u)
  {
    var m := After(workers, sched).m;
    sched' := Moves(workers, sched, u, Halt, m.(procLock := Open));
  }

  /** The last search, queue by queue. */
  lemma {:induction false} SearchesInVain(workers: set<Tid>, sched: seq<(Tid, Act)>, w: Tid, i: nat, u: Tid, seen: set<Tid>)
    returns (sched': seq<(Tid, Act)>)
    requires u in workers && seen <= workers && Stuck(After(workers, sched), workers, w, i) && After(workers, sched).Pc(u) == Final(seen)
    ensures var s, s' := After(workers, sched), After(workers, sched');
      s'.Pc(u) == Final(workers) && MovesOnly(s, s', u) && Stuck(s', workers, w, i)
    decreases |workers - seen|
  {
    if seen == workers {
      sched' := sched;
    } else {
      var q :| q in workers && q !in seen;
      assert workers - (seen + {q}) < workers - seen;
      sched' := VisitsInVain(workers, sched, w, i, u, seen, q);
      MovesOnlyStuck(After(workers, sched), After(workers, sched'), u, workers, w, i);
      sched' := SearchesInVain(workers, sched', w, i, u, seen + {q});
    }
  }

  /** One queue of the last search. */
  lemma {:induction false} VisitsInVain(workers: set<Tid>, sched: seq<(Tid, Act)>, w: Tid, i: nat, u: Tid, seen: set<Tid>, q: Tid)
    returns (sched': seq<(Tid, Act)>)
    requires u in workers && q in workers && q !in seen && Stuck(After(workers, sched), workers, w, i)
    requires After(workers, sched).Pc(u) == Final(seen)
    ensures var s, s' := After(workers, sched), After(workers, sched'); s'.Pc(u) == Final(seen + {q}) && MovesOnly(s, s', u) && s'.m == s.m
  {
    var s := After(workers, sched);
    sched' := Then(workers, sched, u, Visit(q));
    FirstLook(s, u, seen, q);
    if q == u {
      PopsInVain(s, s, u, seen, q);
      sched' := Then(workers, sched', u, Go);
    } else if s.Ready(q) != [] {
      sched' := Then(workers, sched', u, Go);
      PopsInVain(s, s.To(u, FinalTry(seen, q)), u, seen, q);
      sched' := Then(workers, sched', u, Go);
    }
  }

  lemma FirstLook(s: State, u: Tid, seen: set<Tid>, q: Tid)
    requires s.Pc(u) == Final(seen) && q in s.workers && q !in seen && s.Lock(q).Open?
    ensures var s' := Step(s, u, Visit(q));
      if q == u then s' == Grab(s, u, q, FinalPop(seen, q))
      else if s.Ready(q) == [] then s'.Pc(u) == Final(seen + {q}) && MovesOnly(s, s', u) && s'.m == s.m
      else s' == s.To(u, FinalTry(seen, q)) && Step(s', u, Go) == Grab(s', u, q, FinalPop(seen, q))
  {
    assert Step(s, u, Visit(q)) == Visiting(s, u, seen, q);
  }

  /** u takes the queue's lock, finds nothing to pop and releases the lock. */
  lemma PopsInVain(s: State, s0: State, u: Tid, seen: set<Tid>, q: Tid)
    requires s.Lock(q).Open? && !Poppable(s, q)
    requires s0 == s.(pc := s0.pc) && forall v: Tid :: v != u ==> s0.Pc(v) == s.Pc(v)
    ensures var s1 := Grab(s0, u, q, FinalPop(seen, q));
      s1.Pc(u) == FinalPop(seen, q) && Step(s1, u, Go).Pc(u) == Final(seen + {q}) && MovesOnly(s, Step(s1, u, Go), u) &&
      Step(s1, u, Go).m == s.m
  {
    var s1 := Grab(s0, u, q, FinalPop(seen, q));
    assert Step(s1, u, Go) == Pop(s1, u, q, FinalDec, Final(seen + {q}));
    assert !Poppable(s1, q);
  }

  lemma {:induction false} Then(workers: set<Tid>, sched: seq<(Tid, Act)>, t: Tid, a: Act) returns (sched': seq<(Tid, Act)>)
    ensures After(workers, sched') == Step(After(workers, sched), t, a)
  {
    sched' := sched + [(t, a)];
    assert sched'[..|sched|] == sched;
  }

  // ------------------------------------------- what calls leave behind, and progress

  /** A spinner that finds a fred stops spinning; if it was the last one it calls unblock,
      and otherwise another worker goes on spinning. */
  lemma {:induction false} LastSpinnerPassesOn(workers: set<Tid>, sched: seq<(Tid, Act)>, t: Tid, a: Act)
    requires workers != {} && After(workers, sched).Pc(t).SpinFound?
    ensures var s, s' := After(workers, sched), Step(After(workers, sched), t, a);
      && t in s.m.spinning && s'.m.spinning == s.m.spinning - {t}
      && (s'.Pc(t) == Check(Spinner) <==> s'.m.spinning == {})
      && (s'.Pc(t).Run? <==> exists u: Tid :: u != t && u in s.m.spinning && Spins(s.Pc(u)))
  {
    EveryRun(workers, sched);
    var s := After(workers, sched);
    assert Thread(s, t);
    assert |s.m.spinning - {t}| == |s.m.spinning| - 1;
    forall u | u in s.m.spinning ensures Spins(s.Pc(u)) {
      assert Thread(s, u);
    }
    if s.m.spinning - {t} != {} { var u :| u in s.m.spinning - {t}; }
  }

  predicate Spins(p: Pc) { p.SpinSearch? || p.SpinPop? || p.SpinFound? || p.SpinDec? }

  /** unblock ends without a wake exactly if no worker has announced that it waits, ... */
  lemma {:induction false} UnblockEndsIff(workers: set<Tid>, sched: seq<(Tid, Act)>, t: Tid, a: Act)
    requires workers != {} && After(workers, sched).Pc(t).Check?
    ensures var s, s' := After(workers, sched), Step(After(workers, sched), t, a);
      (s'.Pc(t).Run? <==> s.m.waiting == {}) && (s'.Pc(t).Run? || s'.Pc(t).TryProc?)
  {
    EveryRun(workers, sched);
    assert |After(workers, sched).m.waiting| == 0 <==> After(workers, sched).m.waiting == {};
  }

  /** ... and once it has taken a worker off the list it wakes that one. */
  lemma {:induction false} UnblockWakes(workers: set<Tid>, sched: seq<(Tid, Act)>, t: Tid, p: Tid)
    requires workers != {} && Wakes(After(workers, sched), t, p)
    ensures var s := After(workers, sched);
      var s' := Alone(s, t, Go, if s.Pc(t).ProcRelease? then 3 else if s.Pc(t).DecWait? then 2 else 1);
      s'.Pc(t).Run? && s'.m.Sem(p) == s.m.Sem(p) + 1
  {
    var s := After(workers, sched);
    var job := s.Pc(t).job;
    if s.Pc(t).ProcRelease? {
      assert Alone(s, t, Go, 1).Pc(t) == DecWait(job, p);
      assert Alone(s, t, Go, 2).Pc(t) == Wake(job, p);
    } else if s.Pc(t).DecWait? {
      assert Alone(s, t, Go, 1).Pc(t) == Wake(job, p);
    }
  }

  /** A search takes the first fred of a queue exactly if there is one and it is linked. */
  lemma {:induction false} FindsIff(workers: set<Tid>, sched: seq<(Tid, Act)>, t: Tid, a: Act)
    requires var p := After(workers, sched).Pc(t); p.TakePop? || p.SpinPop? || p.FinalPop?
    ensures var s, s' := After(workers, sched), Step(After(workers, sched), t, a); var q := s.Pc(t).q;
      && s'.Ready(q) == (if Poppable(s, q) then s.Ready(q)[1..] else s.Ready(q)) && s'.Lock(q).Open?
      && (s.Pc(t).SpinPop? ==> s'.Pc(t) == if Poppable(s, q) then SpinFound else SpinSearch)
      && (s.Pc(t).FinalPop? ==> s'.Pc(t) == if Poppable(s, q) then FinalDec else Final(s.Pc(t).seen + {q}))
  {}

  /** The last search passes over a queue only if it is empty, its first fred is not linked
      yet, or another worker holds its lock; over the own queue only in the first two cases. */
  lemma {:induction false} PassesOverOnlyIf(workers: set<Tid>, sched: seq<(Tid, Act)>, t: Tid, a: Act, q: Tid)
    requires workers != {}
    requires var s, p := After(workers, sched), Step(After(workers, sched), t, a).Pc(t);
      (s.Pc(t).Final? || s.Pc(t).FinalTry? || s.Pc(t).FinalPop?) && p.Final? && q in p.seen && q !in s.Pc(t).seen
    ensures var s := After(workers, sched);
      || s.Ready(q) == [] || s.Ready(q)[0] !in s.q.linked
      || (q != t && s.Lock(q).Held? && s.Lock(q).t != t && s.Lock(q).t in workers)
  {
    EveryRun(workers, sched);
    var s := After(workers, sched);
    assert Thread(s, t) && Queue(s, q);
    OwnQueueTried(workers, sched, t);
    SameWorkers(workers, sched);
  }

  lemma {:induction false} SameWorkers(workers: set<Tid>, sched: seq<(Tid, Act)>)
    ensures After(workers, sched).workers == workers
  {
    if sched != [] {
      SameWorkers(workers, sched[..|sched| - 1]);
      StepWorkers(After(workers, sched[..|sched| - 1]), sched[|sched| - 1].0, sched[|sched| - 1].1);
    }
  }

  lemma StepWorkers(s: State, t: Tid, a: Act)
    ensures Step(s, t, a).workers == s.workers
  {}

  /** The own queue is not merely tried. */
  lemma {:induction false} OwnQueueTried(workers: set<Tid>, sched: seq<(Tid, Act)>, t: Tid)
    ensures After(workers, sched).Pc(t).FinalTry? ==> After(workers, sched).Pc(t).q != t
  {
    if sched != [] {
      OwnQueueTried(workers, sched[..|sched| - 1], t);
      TriesOthers(After(workers, sched[..|sched| - 1]), sched[|sched| - 1].0, sched[|sched| - 1].1, t);
    }
  }

  lemma TriesOthers(s: State, t: Tid, a: Act, u: Tid)
    requires s.Pc(u).FinalTry? ==> s.Pc(u).q != u
    ensures Step(s, t, a).Pc(u).FinalTry? ==> Step(s, t, a).Pc(u).q != u
  {}

  /** A worker sleeps only when it has passed over every queue. */
  lemma {:induction false} SleepsOnlyAfterSearch(workers: set<Tid>, sched: seq<(Tid, Act)>, t: Tid, a: Act)
    requires After(workers, sched).Pc(t).Final?
    ensures var s := After(workers, sched); Step(s, t, a).Pc(t).BlockLock? <==> workers <= s.Pc(t).seen
  {
    SameWorkers(workers, sched);
  }

  predicate Asleep(s: State, t: Tid) { s.Pc(t).Halt? && s.m.Sem(t) == 0 }

  /** The step of t that goes on, if no lock is in its way. */
  function Choice(s: State, t: Tid, q: Tid): Act {
    match s.Pc(t)
    case Final(_) => Visit(q)
    case _ => GiveUp
  }

  lemma QueueMoves(s: State, t: Tid, q: Tid)
    requires OnQueues(s.Pc(t)) && !s.Pc(t).Run?
    requires s.Pc(t).Final? && !(s.workers <= s.Pc(t).seen) ==> q in s.workers && q !in s.Pc(t).seen && (q == t ==> s.Lock(t).Open?)
    ensures QueueStep(s, t, Choice(s, t, q)).Pc(t) != s.Pc(t)
  {}

  lemma ManagerMoves(s: State, t: Tid, a: Act)
    requires !OnQueues(s.Pc(t)) && !Asleep(s, t) && (s.Pc(t).BlockLock? ==> s.m.procLock.Open?)
    ensures Step(s, t, a).Pc(t) != s.Pc(t)
  {}

  lemma Unlocked(s: State, t: Tid, q: Tid)
    requires Inv(s) && s.Lock(q).Held? && t == s.Lock(q).t
    ensures !s.Pc(t).Run? && OnQueues(s.Pc(t)) && !s.Pc(t).Final?
  {
    assert Queue(s, q);
  }

  /** No deadlock: whoever is not asleep and not running a fred can go on, or the holder of
      the lock that it waits for can. */
  lemma {:induction false} NoDeadlock(workers: set<Tid>, sched: seq<(Tid, Act)>, t: Tid) returns (u: Tid, a: Act)
    requires workers != {}
    requires var s := After(workers, sched); !s.Pc(t).Run? && !Asleep(s, t)
    ensures var s := After(workers, sched); !s.Pc(u).Run? && Step(s, u, a).Pc(u) != s.Pc(u)
  {
    EveryRun(workers, sched);
    var s := After(workers, sched);
    assert Thread(s, t);
    u, a := t, GiveUp;
    if OnQueues(s.Pc(t)) {
      var q := t;
      if s.Pc(t).Final? && !(s.workers <= s.Pc(t).seen) { q :| q in s.workers && q !in s.Pc(t).seen; }
      if s.Pc(t).Final? && q == t && s.Lock(t).Held? { u := s.Lock(t).t; Unlocked(s, u, t); }
      QueueMoves(s, u, q);
      a := Choice(s, u, q);
    } else {
      if s.Pc(t).BlockLock? && s.m.procLock.Held? { u := s.m.procLock.t; }
      assert Thread(s, u);
      ManagerMoves(s, u, a);
    }
  }

  // ------------------------------------------------- calls that run undisturbed

  /** n steps of t while nobody else moves; a running t begins a. */
  function Alone(s: State, t: Tid, a: Act, n: nat): State
    decreases n
  {
    if n == 0 then s else Step(Alone(s, t, a, n - 1), t, a)
  }

  /** A resume enqueues its fred last and links it, ... */
  lemma ResumesAlone(s: State, t: Tid, q: Tid)
    requires s.Pc(t).Run? && q in s.workers
    ensures var s' := Alone(s, t, Act.Resume(q), 2);
      && s'.Pc(t) == Check(For(s.q.ticket)) && s'.Ready(q) == s.Ready(q) + [s.q.ticket] && s.q.ticket in s'.q.linked
      && s'.m == s.m
  {
    assert Alone(s, t, Act.Resume(q), 1).Pc(t) == Link(s.q.ticket, false);
  }

  /** ... and is done if no worker waits, or takes the preferred or first worker off the
      list. */
  lemma UnblocksAlone(s: State, t: Tid, a: Act, job: Job)
    requires s.Pc(t) == Check(job)
    ensures s.m.waitCounter == 0 ==> Step(s, t, a) == s.End(t, job)
    ensures s.m.waitCounter > 0 && s.m.procs != [] && s.m.procLock.Open? ==>
      var s' := Alone(s, t, a, 3);
      && s'.Pc(t) == ProcRelease(job, if a.Prefer? && a.p in s.m.procs then a.p else s.m.procs[0])
      && s'.m.procs == Without(s.m.procs, s'.Pc(t).p) && s'.q == s.q
  {
    if s.m.waitCounter > 0 && s.m.procs != [] && s.m.procLock.Open? {
      assert Alone(s, t, a, 1).Pc(t) == TryProc(job);
      assert Alone(s, t, a, 2).Pc(t) == PopProc(job);
    }
  }

  /** A yield puts the fred last into the worker's own queue, and wakes nobody. */
  lemma YieldsAlone(s: State, t: Tid)
    requires s.Pc(t).Run? && t in s.workers
    ensures var s', k := Alone(s, t, Yield, 2), s.q.ticket;
      && s'.Pc(t).Run? && s'.Ready(t) == s.Ready(t) + [k] && k in s'.q.linked && s'.q.settled == s.q.settled + {k}
      && s'.m == s.m
  {
    assert Alone(s, t, Yield, 1).Pc(t) == Link(s.q.ticket, true);
  }

  /** The last search does not wait for the lock of another worker's queue. */
  lemma LockedIsPassedOver(s: State, t: Tid, q: Tid, a: Act)
    requires s.Pc(t).FinalTry? && s.Pc(t).q == q && s.Lock(q).Held?
    ensures Step(s, t, a) == s.To(t, Final(s.Pc(t).seen + {q}))
  {}

  /** A worker that spins in vain announces that it waits and begins its last search, ... */
  lemma GivesUpAlone(s: State, t: Tid)
    requires s.Pc(t).SpinSearch?
    ensures var s' := Alone(s, t, GiveUp, 3);
      s'.Pc(t) == Final({}) && s'.m.spinning == s.m.spinning - {t} && s'.m.waiting == s.m.waiting + {t} && s'.q == s.q
  {
    assert Alone(s, t, GiveUp, 1).Pc(t).SpinDec?;
    assert Alone(s, t, GiveUp, 2).Pc(t).WaitInc?;
  }

  /** ... and after a search in vain it puts itself at the front of the list and sleeps. */
  lemma SleepsAlone(s: State, t: Tid)
    requires s.Pc(t).Final? && s.workers <= s.Pc(t).seen && s.m.procLock.Open?
    ensures var s' := Alone(s, t, GiveUp, 4);
      s'.Pc(t).Halt? && s'.m.procs == [t] + s.m.procs && s'.m.procLock.Open? && s'.m.waiting == s.m.waiting && s'.q == s.q
  {
    assert Alone(s, t, GiveUp, 1).Pc(t).BlockLock?;
    assert Alone(s, t, GiveUp, 2).Pc(t).BlockPush?;
    assert Alone(s, t, GiveUp, 3).Pc(t).BlockRelease?;
  }

  /** A woken worker spins and takes the first fred of a queue. */
  lemma WokenFinds(s: State, t: Tid, q: Tid)
    requires s.Pc(t).Halt? && s.m.Sem(t) > 0 && q in s.workers && s.Lock(q).Open? && Poppable(s, q)
    ensures var s' := Alone(s, t, Take(q), 4);
      s'.Pc(t).SpinFound? && s'.Ready(q) == s.Ready(q)[1..] && s'.m.Sem(t) == s.m.Sem(t) - 1
  {
    assert Alone(s, t, Take(q), 1).Pc(t).SpinInc?;
    assert Alone(s, t, Take(q), 2).Pc(t).SpinSearch?;
    assert Alone(s, t, Take(q), 3).Pc(t) == SpinPop(q);
  }

  /** So does a worker that runs a fred and looks for another one. */
  lemma TakesAlone(s: State, t: Tid, q: Tid)
    requires s.Pc(t).Run? && t in s.workers && q in s.workers && s.Lock(q).Open? && Poppable(s, q)
    ensures var s' := Alone(s, t, Take(q), 2); s'.Pc(t).Run? && s'.Ready(q) == s.Ready(q)[1..] && s'.Lock(q).Open?
  {
    assert Alone(s, t, Take(q), 1).Pc(t) == TakePop(q);
  }
}
