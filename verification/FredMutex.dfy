/** The default FredMutex: SpinCondMutex over ConditionalQueue, with untimed and timed
    acquire, tryAcquire and release by any number of freds.  A fred that sleeps goes on
    when the winner of its resume race has resumed it. */
module FredMutex {
  import opened Memory

  datatype Mode = Untimed | Timed

  datatype Winner = Nobody | Queue | Timer

  datatype Pc =
    | Idle
    | TryOnly                    // tryAcquire: one tryLock1
    | First(mode: Mode)          // tryLock1 in the first spin loop
    | Second(mode: Mode)         // tryLock2 in Spin
    | SetOwner                   // the lock is won: owner = cf
    | Hold
    // queue.block(cf, value == 2, args): queue lock held from Test to Leave
    | QLock(mode: Mode)
    | Test(mode: Mode)
    | Prepare(mode: Mode)        // resumeInfo = nullptr
    | Push(mode: Mode)           // queue.push_back(node)
    | Release(mode: Mode)        // release the queue lock, then suspend
    | Sleep(mode: Mode)
    | Relock                     // timed out: acquire, remove the own node
    | Remove
    | Leave(retry: bool, mode: Mode)  // release the queue lock; retry or give up
    | Retry(mode: Mode)          // block returned true: tryLock2
    // release()
    | Clear                      // owner = nullptr
    | Swap                       // exchange value with 0
    | UnLock                     // unblock: acquire the queue lock
    | Scan(i: nat)
    | Done(next: Owner)          // release the queue lock
    | Wake(f: Tid)               // resume the fred whose race was won

  datatype Lock = Open | Held(t: Tid)

  /** What an idle thread begins, or a choice: Again keeps spinning, Late finds a timed
      acquire's deadline passed. */
  datatype Act = Acquire(mode: Mode) | TryAcquire | Unlock | Expire(f: Tid) | Again | Late | Go

  datatype Owner = Nil | By(t: Tid)

  datatype State = State(
    value: nat,
    owner: Owner,
    list: seq<Tid>,            // the freds whose nodes are in the wait queue
    info: map<Tid, Winner>,
    posted: set<Tid>,          // freds that have been resumed
    lock: Lock,                // the queue's lock
    pc: map<Tid, Pc>,
    holder: Owner,             // history: who has the mutex
    waker: map<Tid, Tid>,      // history: who has won a fred's race and is to resume it
    hot: set<Tid>)             // history: threads that are about to help a waiter
  {
    function Pc(t: Tid): Pc { if t in pc then pc[t] else Idle }
    function Info(t: Tid): Winner { if t in info then info[t] else Nobody }
    function To(t: Tid, p: Pc): State { this.(pc := pc[t := p]) }
  }

  function Init(): State {
    State(0, Nil, [], map[], {}, Open, map[], Nil, map[], {})
  }

  // ---------------------------------------------------------------- the steps

  function Begin(s: State, t: Tid, a: Act): State {
    match a
    case Acquire(mode) => s.To(t, First(mode))
    case TryAcquire => s.To(t, TryOnly)
    case Expire(f) =>
      if s.Pc(f) == Sleep(Timed) && s.Info(f).Nobody? then
        s.To(t, Wake(f)).(info := s.info[f := Timer], waker := s.waker[f := t])
      else s
    case _ => s
  }

  /** compare_exchange(value, 0, 1). */
  function TryLock1(s: State, t: Tid, otherwise: Pc): State {
    if s.value == 0 then s.To(t, SetOwner).(value := 1, holder := By(t)) else s.To(t, otherwise)
  }

  /** exchange(value, 2) == 0. */
  function TryLock2(s: State, t: Tid, otherwise: Pc): State {
    if s.value == 0 then s.To(t, SetOwner).(value := 2, holder := By(t))
    else s.To(t, otherwise).(value := 2)
  }

  function ScanNode(s: State, t: Tid, i: nat): State {
    if i >= |s.list| then s.To(t, Done(Nil)).(hot := s.hot - {t})
    else
      var f := s.list[i];
      if s.Info(f).Nobody?
      then s.To(t, Done(By(f))).(info := s.info[f := Queue], list := Without(s.list, f),
                                 waker := s.waker[f := t], hot := s.hot - {t} + {f})
      else s.To(t, Scan(i + 1))
  }

  function Step(s: State, t: Tid, a: Act): State {
    match s.Pc(t)
    case Idle => Begin(s, t, a)
    case TryOnly => TryLock1(s, t, Idle)
    case First(mode) => TryLock1(s, t, if s.value != 2 && a.Again? then First(mode) else Second(mode))
    case Second(mode) => TryLock2(s, t, if a.Again? then Second(mode) else QLock(mode))
    case SetOwner => s.To(t, Hold).(owner := By(t))
    case Hold => if a.Unlock? then s.To(t, Clear) else s
    case QLock(mode) => if s.lock.Open? then s.To(t, Test(mode)).(lock := Held(t)) else s
    case Test(mode) =>
      if s.value != 2 then s.To(t, Leave(true, mode)).(hot := s.hot + {t})
      else if mode.Timed? && a.Late? then s.To(t, Leave(false, mode))
      else s.To(t, Prepare(mode))
    case Prepare(mode) => s.To(t, Push(mode)).(info := s.info[t := Nobody])
    case Push(mode) => s.To(t, Release(mode)).(list := s.list + [t])
    case Release(mode) => s.To(t, Sleep(mode)).(lock := Open)
    case Sleep(mode) =>
      if t !in s.posted then s
      else s.To(t, if s.Info(t).Queue? then Retry(mode) else Relock).(posted := s.posted - {t})
    case Relock => if s.lock.Open? then s.To(t, Remove).(lock := Held(t)) else s
    case Remove => s.To(t, Leave(false, Timed)).(list := Without(s.list, t))
    case Leave(retry, mode) => s.To(t, if retry then Retry(mode) else Idle).(lock := Open)
    case Retry(mode) => TryLock2(s, t, QLock(mode)).(hot := s.hot - {t})
    case Clear => s.To(t, Swap).(owner := Nil)
    case Swap =>
      var s' := s.(value := 0, holder := Nil);
      if s.value == 1 then s'.To(t, Idle) else s'.To(t, UnLock).(hot := s.hot + {t})
    case UnLock => if s.lock.Open? then s.To(t, Scan(0)).(lock := Held(t)) else s
    case Scan(i) => ScanNode(s, t, i)
    case Done(next) => s.To(t, if next.Nil? then Idle else Wake(next.t)).(lock := Open)
    case Wake(f) => s.To(t, Idle).(posted := s.posted + {f}, waker := s.waker - {f})
  }

  // ------------------------------------------------------------ the invariant

  predicate Inside(p: Pc) {
    match p
    case Test(_) => true
    case Prepare(_) => true
    case Push(_) => true
    case Release(_) => true
    case Remove => true
    case Leave(_, _) => true
    case Scan(_) => true
    case Done(_) => true
    case _ => false
  }

  predicate Holds(p: Pc) {
    p.SetOwner? || p.Hold? || p.Clear? || p.Swap?
  }

  /** t has freed a contended lock and will unblock a waiter, or is a fred on its way to
      another tryLock2. */
  predicate Helps(s: State, t: Tid) {
    match s.Pc(t)
    case UnLock => true
    case Scan(_) => true
    case Sleep(_) => s.Info(t).Queue?
    case Leave(retry, _) => retry
    case Retry(_) => true
    case _ => false
  }

  /** t's node is in the wait queue. */
  predicate Queued(s: State, t: Tid) {
    match s.Pc(t)
    case Release(_) => true
    case Sleep(_) => !s.Info(t).Queue?
    case Relock => true
    case Remove => true
    case _ => false
  }

  predicate Thread(s: State, t: Tid) {
    && (s.lock == Held(t) <==> Inside(s.Pc(t)))
    && (s.holder == By(t) <==> Holds(s.Pc(t)))
    && (t in s.hot <==> Helps(s, t))
    && (s.owner == By(t) ==> s.Pc(t).Hold? || s.Pc(t).Clear?)
    && match s.Pc(t)
       case Hold => s.owner == By(t)
       case Clear => s.owner == By(t)
       case Push(_) => s.Info(t).Nobody?
       case Release(_) => s.Info(t).Nobody?
       case Sleep(mode) => s.Info(t).Timer? ==> mode.Timed?
       case Relock => s.Info(t).Timer?
       case Remove => s.Info(t).Timer?
       case Scan(i) => i <= |s.list| && forall j :: 0 <= j < i ==> !s.Info(s.list[j]).Nobody?
       case _ => true
  }

  ghost predicate Nodes(s: State) {
    && Distinct(s.list)
    && (forall k :: 0 <= k < |s.list| ==> Queued(s, s.list[k]))
    && (forall t: Tid :: Queued(s, t) ==> t in s.list)
  }

  /** A waiter whose race is open: in the queue, or about to enter it. */
  predicate Undecided(s: State, t: Tid) {
    match s.Pc(t)
    case Prepare(_) => true
    case Push(_) => true
    case Release(_) => true
    case Sleep(_) => s.Info(t).Nobody?
    case _ => false
  }

  /** No lost wakeup. */
  ghost predicate Awaited(s: State) {
    forall t: Tid :: Undecided(s, t) ==> s.value == 2 || s.hot != {}
  }

  /** The word value tells whether there is a holder. */
  predicate Word(s: State) {
    s.value <= 2 && (s.value == 0 <==> s.holder.Nil?)
  }

  ghost predicate Core(s: State) {
    && Word(s)
    && Nodes(s)
    && Awaited(s)
    && (forall t: Tid :: Thread(s, t))
  }

  /** t is to resume f. */
  predicate Wakes(p: Pc, f: Tid) { p == Done(By(f)) || p == Wake(f) }

  /** A fred whose race is decided has been resumed, or the winner is about to resume it. */
  predicate Woken(s: State, t: Tid) {
    && (t in s.waker <==> s.Pc(t).Sleep? && !s.Info(t).Nobody? && t !in s.posted)
    && (t in s.posted ==> s.Pc(t).Sleep? && !s.Info(t).Nobody?)
    && (t in s.waker ==> Wakes(s.Pc(s.waker[t]), t))
    && (s.Pc(t).Done? && s.Pc(t).next.By? ==> s.Pc(t).next.t in s.waker && s.waker[s.Pc(t).next.t] == t)
    && (s.Pc(t).Wake? ==> s.Pc(t).f in s.waker && s.waker[s.Pc(t).f] == t)
  }

  ghost predicate Inv(s: State) {
    Core(s) && forall t: Tid :: Woken(s, t)
  }

  // ------------------------------------------------------ every step keeps it

  lemma InitInv()
    ensures Inv(Init())
  {}

  /** What a step of t that concerns f leaves alone. */
  ghost predicate Frame(s: State, s': State, t: Tid, f: Tid) {
    && (forall u :: u != t ==> s'.Pc(u) == s.Pc(u))
    && (forall u :: u != t && u != f ==> s'.Info(u) == s.Info(u) && (u in s'.hot <==> u in s.hot))
    && (s'.lock == s.lock || ((s.lock.Open? || s.lock.t == t) && (s'.lock.Open? || s'.lock.t == t)))
    && (s'.holder == s.holder || ((s.holder.Nil? || s.holder.t == t) && (s'.holder.Nil? || s'.holder.t == t)))
    && (s'.owner == s.owner || ((s.owner.Nil? || s.owner.t == t) && (s'.owner.Nil? || s'.owner.t == t)))
    && (s.lock.Held? && s.lock.t != t ==> s'.list == s.list)
    && (forall k :: 0 <= k < |s.list| && !s.Info(s.list[k]).Nobody? ==> !s'.Info(s.list[k]).Nobody?)
  }

  lemma ThreadFrame(s: State, s': State, t: Tid, f: Tid, u: Tid)
    requires Frame(s, s', t, f) && Thread(s, u) && u != t && u != f
    ensures Thread(s', u)
  {}

  lemma Glue(s: State, s': State, t: Tid, f: Tid)
    requires Core(s) && Frame(s, s', t, f)
    requires Word(s') && Nodes(s') && Awaited(s') && Thread(s', t) && Thread(s', f)
    ensures Core(s')
  {
    forall u ensures Thread(s', u) {
      if u != t && u != f { ThreadFrame(s, s', t, f, u); }
    }
  }

  /** Steps of t that keep the queue and all races. */
  lemma OwnStep(s: State, s': State, t: Tid)
    requires Core(s) && Frame(s, s', t, t) && Thread(s', t) && Word(s')
    requires s'.list == s.list && s'.info == s.info
    requires Queued(s', t) <==> Queued(s, t)
    requires s'.value == 2 || s'.hot != {} || (s.value != 2 && s.hot == {})
    requires Undecided(s', t) ==> Undecided(s, t) || s'.value == 2
    ensures Core(s')
  {
    forall u ensures Queued(s', u) <==> Queued(s, u) {}
    forall u ensures Undecided(s', u) ==> s'.value == 2 || s'.hot != {} {
      assert Undecided(s', u) && u != t ==> Undecided(s, u);
    }
    Glue(s, s', t, t);
  }

  lemma BeginKeeps(s: State, t: Tid, a: Act)
    requires Core(s) && s.Pc(t).Idle?
    ensures Core(Begin(s, t, a))
  {
    assert Thread(s, t);
    if a.Expire? {
      if s.Pc(a.f) == Sleep(Timed) && s.Info(a.f).Nobody? { ExpireKeeps(s, t, a.f); }
    } else {
      OwnStep(s, Begin(s, t, a), t);
    }
  }

  lemma ExpireKeeps(s: State, t: Tid, f: Tid)
    requires Core(s) && s.Pc(t).Idle? && s.Pc(f) == Sleep(Timed) && s.Info(f).Nobody?
    ensures Core(Begin(s, t, Expire(f)))
  {
    var s' := Begin(s, t, Expire(f));
    assert Thread(s, t) && Thread(s, f);
    forall u ensures Queued(s', u) <==> Queued(s, u) {}
    forall u ensures Undecided(s', u) ==> s'.value == 2 || s'.hot != {} {
      assert Undecided(s', u) ==> Undecided(s, u);
    }
    Glue(s, s', t, f);
  }

  /** Steps on the lock word. */
  lemma WordKeeps(s: State, t: Tid, a: Act)
    requires Core(s) && (s.Pc(t).TryOnly? || s.Pc(t).First? || s.Pc(t).Second? || s.Pc(t).Retry?)
    ensures Core(Step(s, t, a))
  {
    assert Thread(s, t);
    OwnStep(s, Step(s, t, a), t);
  }

  lemma HoldKeeps(s: State, t: Tid, a: Act)
    requires Core(s) && (s.Pc(t).SetOwner? || s.Pc(t).Hold? || s.Pc(t).Clear? || s.Pc(t).Swap?)
    ensures Core(Step(s, t, a))
  {
    assert Thread(s, t);
    assert s.owner.By? ==> Thread(s, s.owner.t);
    if s.Pc(t).Hold? ==> a.Unlock? { OwnStep(s, Step(s, t, a), t); }
  }

  lemma LockKeeps(s: State, t: Tid, a: Act)
    requires Core(s) && (s.Pc(t).QLock? || s.Pc(t).Relock? || s.Pc(t).UnLock?)
    ensures Core(Step(s, t, a))
  {
    assert Thread(s, t);
    if s.lock.Open? { OwnStep(s, Step(s, t, a), t); }
  }

  lemma UnlockKeeps(s: State, t: Tid, a: Act)
    requires Core(s) && (s.Pc(t).Release? || s.Pc(t).Done? || s.Pc(t).Leave?)
    ensures Core(Step(s, t, a))
  {
    assert Thread(s, t);
    OwnStep(s, Step(s, t, a), t);
  }

  lemma TestKeeps(s: State, t: Tid, a: Act)
    requires Core(s) && s.Pc(t).Test?
    ensures Core(Step(s, t, a))
  {
    assert Thread(s, t);
    OwnStep(s, Step(s, t, a), t);
  }

  lemma ResumeKeeps(s: State, t: Tid, a: Act)
    requires Core(s) && Woken(s, t) && (s.Pc(t).Sleep? || s.Pc(t).Wake?)
    ensures Core(Step(s, t, a))
  {
    assert Thread(s, t);
    if s.Pc(t).Sleep? ==> t in s.posted { OwnStep(s, Step(s, t, a), t); }
  }

  lemma PrepareKeeps(s: State, t: Tid, a: Act)
    requires Core(s) && s.Pc(t).Prepare?
    ensures Core(Step(s, t, a))
  {
    var s' := Step(s, t, a);
    assert Thread(s, t);
    forall u ensures Queued(s', u) <==> Queued(s, u) {}
    forall u ensures Undecided(s', u) ==> s'.value == 2 || s'.hot != {} {
      assert Undecided(s', u) ==> Undecided(s, u);
    }
    Glue(s, s', t, t);
  }

  lemma PushKeeps(s: State, t: Tid, a: Act)
    requires Core(s) && s.Pc(t).Push?
    ensures Core(Step(s, t, a))
  {
    var s' := Step(s, t, a);
    assert Thread(s, t);
    forall u ensures Queued(s', u) <==> Queued(s, u) || u == t {}
    forall u ensures Undecided(s', u) ==> s'.value == 2 || s'.hot != {} {
      assert Undecided(s', u) ==> Undecided(s, u);
    }
    assert t !in s.list;
    AppendDistinct(s.list, [t]);
    assert s'.list[|s.list|] == t;
    Glue(s, s', t, t);
  }

  /** f's node leaves the wait queue. */
  lemma DropNode(s: State, f: Tid, s': State)
    requires Nodes(s) && Queued(s, f) && s'.list == Without(s.list, f)
    requires forall u :: Queued(s', u) <==> Queued(s, u) && u != f
    ensures Nodes(s')
  {
    var i :| 0 <= i < |s.list| && s.list[i] == f;
    WithoutAt(s.list, i);
    WithoutKeeps(s.list, i);
    forall k | 0 <= k < |s'.list| ensures Queued(s', s'.list[k]) {
      assert s'.list[k] in s'.list;
    }
  }

  lemma RemoveKeeps(s: State, t: Tid, a: Act)
    requires Core(s) && s.Pc(t).Remove?
    ensures Core(Step(s, t, a))
  {
    var s' := Step(s, t, a);
    assert Thread(s, t);
    DropNode(s, t, s');
    forall u ensures Undecided(s', u) ==> s'.value == 2 || s'.hot != {} {
      assert Undecided(s', u) ==> Undecided(s, u);
    }
    Glue(s, s', t, t);
  }

  lemma ScanKeeps(s: State, t: Tid, a: Act)
    requires Core(s) && s.Pc(t).Scan?
    ensures Core(Step(s, t, a))
  {
    var i := s.Pc(t).i;
    if i < |s.list| && s.Info(s.list[i]).Nobody? {
      GrantKeeps(s, t, a);
    } else {
      MissKeeps(s, t, a);
    }
  }

  lemma GrantKeeps(s: State, t: Tid, a: Act)
    requires Core(s) && s.Pc(t).Scan? && s.Pc(t).i < |s.list| && s.Info(s.list[s.Pc(t).i]).Nobody?
    ensures Core(Step(s, t, a))
  {
    var s' := Step(s, t, a);
    var f := s.list[s.Pc(t).i];
    assert Thread(s, t) && Thread(s, f);
    assert s.Pc(f).Sleep?;
    forall u ensures Queued(s', u) <==> Queued(s, u) && u != f {}
    DropNode(s, f, s');
    assert f in s'.hot;
    Glue(s, s', t, f);
  }

  /** A releaser that finds no open race leaves no waiter with an open race behind. */
  lemma MissKeeps(s: State, t: Tid, a: Act)
    requires Core(s) && s.Pc(t).Scan?
    requires s.Pc(t).i >= |s.list| || !s.Info(s.list[s.Pc(t).i]).Nobody?
    ensures Core(Step(s, t, a))
  {
    var s' := Step(s, t, a);
    assert Thread(s, t);
    forall u ensures Queued(s', u) <==> Queued(s, u) {}
    forall u ensures Undecided(s', u) ==> s'.value == 2 || s'.hot != {} {
      assert Thread(s, u);
      assert Undecided(s', u) ==> Undecided(s, u) && Queued(s, u);
    }
    Glue(s, s', t, t);
  }

  lemma CoreKeeps(s: State, t: Tid, a: Act)
    requires Core(s) && Woken(s, t)
    ensures Core(Step(s, t, a))
  {
    match s.Pc(t) {
      case Idle => BeginKeeps(s, t, a);
      case TryOnly => WordKeeps(s, t, a);
      case First(_) => WordKeeps(s, t, a);
      case Second(_) => WordKeeps(s, t, a);
      case Retry(_) => WordKeeps(s, t, a);
      case SetOwner => HoldKeeps(s, t, a);
      case Hold => HoldKeeps(s, t, a);
      case Clear => HoldKeeps(s, t, a);
      case Swap => HoldKeeps(s, t, a);
      case Test(_) => TestKeeps(s, t, a);
      case Leave(_, _) => UnlockKeeps(s, t, a);
      case Release(_) => UnlockKeeps(s, t, a);
      case Done(_) => UnlockKeeps(s, t, a);
      case Sleep(_) => ResumeKeeps(s, t, a);
      case Wake(_) => ResumeKeeps(s, t, a);
      case Prepare(_) => PrepareKeeps(s, t, a);
      case Push(_) => PushKeeps(s, t, a);
      case Remove => RemoveKeeps(s, t, a);
      case Scan(_) => ScanKeeps(s, t, a);
      case _ => LockKeeps(s, t, a);
    }
  }

  /** The fred whose race a step of t decides, or which t resumes. */
  function Object(s: State, t: Tid, a: Act): Tid {
    match s.Pc(t)
    case Idle => if a.Expire? then a.f else t
    case Scan(i) => if i < |s.list| then s.list[i] else t
    case Wake(f) => f
    case _ => t
  }

  /** The steps that are about races and resumes. */
  predicate OnRace(p: Pc) { p.Idle? || p.Scan? || p.Done? || p.Wake? || p.Sleep? }

  /** The fred whose race a scan is about to win sleeps. */
  predicate FindsSleeper(s: State, t: Tid) {
    s.Pc(t).Scan? && s.Pc(t).i < |s.list| && s.Info(s.list[s.Pc(t).i]).Nobody? ==> s.Pc(s.list[s.Pc(t).i]).Sleep?
  }

  lemma SleeperFound(s: State, t: Tid)
    requires Core(s)
    ensures FindsSleeper(s, t)
  {
    if s.Pc(t).Scan? && s.Pc(t).i < |s.list| {
      assert Thread(s, t) && Thread(s, s.list[s.Pc(t).i]) && Queued(s, s.list[s.Pc(t).i]);
    }
  }

  /** The other steps decide no race and resume nobody. */
  lemma QuietStep(s: State, t: Tid, a: Act)
    requires !OnRace(s.Pc(t))
    ensures Step(s, t, a).waker == s.waker && Step(s, t, a).posted == s.posted
  {}

  lemma OwnQuiet(s: State, t: Tid, a: Act)
    requires !OnRace(s.Pc(t))
    ensures var s' := Step(s, t, a);
      && !s'.Pc(t).Done? && !s'.Pc(t).Wake?
      && (s'.Pc(t).Sleep? ==> s'.Info(t) == s.Info(t) && s.Pc(t).Release?)
  {}

  lemma OtherQuiet(s: State, t: Tid, a: Act, u: Tid)
    requires !OnRace(s.Pc(t)) && u != t
    ensures Step(s, t, a).Pc(u) == s.Pc(u) && Step(s, t, a).Info(u) == s.Info(u)
  {}

  lemma OwnWoken(s: State, t: Tid, a: Act)
    requires Thread(s, t) && Woken(s, t) && Woken(s, Object(s, t, a)) && FindsSleeper(s, t)
    ensures Woken(Step(s, t, a), t)
  {
    if !OnRace(s.Pc(t)) { QuietStep(s, t, a); OwnQuiet(s, t, a); }
  }

  lemma OtherWoken(s: State, t: Tid, a: Act, u: Tid)
    requires Woken(s, t) && Woken(s, u) && Woken(s, Object(s, t, a)) && FindsSleeper(s, t) && u != t
    ensures Woken(Step(s, t, a), u)
  {
    if OnRace(s.Pc(t)) { RaceWoken(s, t, a, u); } else {
      QuietStep(s, t, a);
      OwnQuiet(s, t, a);
      OtherQuiet(s, t, a, u);
      if u in s.waker && s.waker[u] != t { OtherQuiet(s, t, a, s.waker[u]); }
      WokenFrame(s, Step(s, t, a), t, u);
    }
  }

  lemma WokenFrame(s: State, s': State, t: Tid, u: Tid)
    requires Woken(s, u) && u != t && !OnRace(s.Pc(t)) && s'.waker == s.waker && s'.posted == s.posted
    requires s'.Pc(u) == s.Pc(u) && s'.Info(u) == s.Info(u)
    requires u in s.waker ==> s.waker[u] == t || s'.Pc(s.waker[u]) == s.Pc(s.waker[u])
    ensures Woken(s', u)
  {}

  lemma RaceWoken(s: State, t: Tid, a: Act, u: Tid)
    requires Woken(s, t) && Woken(s, u) && Woken(s, Object(s, t, a)) && FindsSleeper(s, t) && u != t && OnRace(s.Pc(t))
    ensures Woken(Step(s, t, a), u)
  {
    if s.Pc(t).Scan? { ScanWoken(s, t, s.Pc(t).i, u); }
    else if s.Pc(t).Idle? { BeginWoken(s, t, a, u); }
    else { PassWoken(s, t, a, u); }
  }

  lemma PassWoken(s: State, t: Tid, a: Act, u: Tid)
    requires Woken(s, t) && Woken(s, u) && Woken(s, Object(s, t, a)) && u != t
    requires s.Pc(t).Done? || s.Pc(t).Wake? || s.Pc(t).Sleep?
    ensures Woken(Step(s, t, a), u)
  {}

  lemma BeginWoken(s: State, t: Tid, a: Act, u: Tid)
    requires s.Pc(t).Idle? && Woken(s, t) && Woken(s, u) && Woken(s, Object(s, t, a)) && u != t
    ensures Woken(Begin(s, t, a), u)
  {}

  lemma ScanWoken(s: State, t: Tid, i: nat, u: Tid)
    requires s.Pc(t) == Scan(i) && Woken(s, t) && Woken(s, u) && FindsSleeper(s, t) && u != t
    requires i < |s.list| ==> Woken(s, s.list[i])
    ensures Woken(ScanNode(s, t, i), u)
  {}

  lemma StepKeeps(s: State, t: Tid, a: Act)
    requires Inv(s)
    ensures Inv(Step(s, t, a))
  {
    var s' := Step(s, t, a);
    assert Thread(s, t) && Woken(s, t) && Woken(s, Object(s, t, a));
    CoreKeeps(s, t, a);
    SleeperFound(s, t);
    forall u ensures Woken(s', u) {
      assert Woken(s, u);
      if u == t { OwnWoken(s, t, a); } else { OtherWoken(s, t, a, u); }
    }
  }

  // ------------------------------------------------------------- the theorems

  function Run(sched: seq<(Tid, Act)>): State {
    if sched == [] then Init()
    else Step(Run(sched[..|sched| - 1]), sched[|sched| - 1].0, sched[|sched| - 1].1)
  }

  lemma {:induction false} EveryRun(sched: seq<(Tid, Act)>)
    ensures Inv(Run(sched))
  {
    if sched == [] {
      InitInv();
    } else {
      EveryRun(sched[..|sched| - 1]);
      StepKeeps(Run(sched[..|sched| - 1]), sched[|sched| - 1].0, sched[|sched| - 1].1);
    }
  }

  /** Mutual exclusion in every run, and the lock word is 0 exactly when nobody holds. */
  lemma {:induction false} MutualExclusion(sched: seq<(Tid, Act)>, t: Tid, u: Tid)
    ensures var s := Run(sched);
      && (Holds(s.Pc(t)) && Holds(s.Pc(u)) ==> t == u)
      && (Holds(s.Pc(t)) ==> s.value != 0)
      && (s.value != 0 ==> s.holder.By? && Holds(s.Pc(s.holder.t)))
      && (s.Pc(t).Hold? ==> s.owner == By(t))
  {
    EveryRun(sched);
    var s := Run(sched);
    assert Thread(s, t) && Thread(s, u);
    if s.holder.By? { assert Thread(s, s.holder.t); }
  }

  /** No lost wakeup in any run: while a fred sleeps whose race nobody has won, the mutex is
      held and marked contended, so that its release will unblock; or a thread is already
      on its way to unblock a waiter or to try the lock again, and will mark it. */
  lemma {:induction false} NoLostWakeup(sched: seq<(Tid, Act)>, f: Tid) returns (t: Tid)
    requires var s := Run(sched); s.Pc(f).Sleep? && s.Info(f).Nobody?
    ensures var s := Run(sched); (s.value == 2 && Holds(s.Pc(t))) || Helps(s, t)
  {
    EveryRun(sched);
    var s := Run(sched);
    assert Undecided(s, f);
    if s.hot != {} {
      t :| t in s.hot;
    } else {
      t := s.holder.t;
    }
    assert Thread(s, t);
  }

  /** A fred whose race is decided has been resumed, or one thread is to resume it. */
  lemma {:induction false} DecidedIsResumed(sched: seq<(Tid, Act)>, f: Tid) returns (t: Tid)
    requires var s := Run(sched); s.Pc(f).Sleep? && !s.Info(f).Nobody?
    ensures var s := Run(sched); f in s.posted || Wakes(s.Pc(t), f)
    ensures var s := Run(sched); forall u: Tid :: Wakes(s.Pc(u), f) ==> u == t && f !in s.posted
  {
    EveryRun(sched);
    var s := Run(sched);
    assert Woken(s, f);
    t := if f in s.waker then s.waker[f] else 0;
    forall u: Tid | Wakes(s.Pc(u), f) ensures u == t && f !in s.posted { assert Woken(s, u); }
  }

  /** So it never happens that all freds sleep without having been resumed or are idle,
      unless all are idle: a stuck waiter needs a holder that never releases. */
  lemma {:induction false} NoStuckSleeper(sched: seq<(Tid, Act)>, f: Tid)
    requires var s := Run(sched); forall t: Tid :: s.Pc(t).Idle? || (s.Pc(t).Sleep? && t !in s.posted)
    ensures Run(sched).Pc(f).Idle?
  {
    var s := Run(sched);
    forall u | s.Pc(u).Sleep? ensures s.Info(u).Nobody? {
      if !s.Info(u).Nobody? { var t := DecidedIsResumed(sched, u); }
    }
    if s.Pc(f).Sleep? { var t := NoLostWakeup(sched, f); }
  }

  // ------------------------------------------- what calls answer, and progress

  /** In acquire, before it holds the mutex. */
  predicate Acquires(p: Pc) {
    p.First? || p.Second? || p.QLock? || p.Test? || p.Prepare? || p.Push? || p.Release? || p.Sleep? || p.Retry? ||
    p.Relock? || p.Remove? || p.Leave?
  }

  /** tryAcquire fails exactly while somebody holds the mutex, and acquire takes the mutex
      exactly when it looks at it free. */
  lemma {:induction false} FailsOnlyIfHeld(sched: seq<(Tid, Act)>, t: Tid, a: Act)
    requires Run(sched).Pc(t).TryOnly? || Acquires(Run(sched).Pc(t))
    ensures var s, p := Run(sched), Step(Run(sched), t, a).Pc(t);
      && (s.Pc(t).TryOnly? ==> if s.holder.Nil? then p.SetOwner? else p.Idle?)
      && (s.Pc(t).First? || s.Pc(t).Second? || s.Pc(t).Retry? ==> (p.SetOwner? <==> s.holder.Nil?))
      && (p.SetOwner? ==> s.holder.Nil? && Step(s, t, a).holder == By(t))
  {
    EveryRun(sched);
    assert Thread(Run(sched), t);
  }

  /** An acquire fails only with a timeout: late before it queues up, or with its race lost
      to the timer. */
  lemma {:induction false} FailsOnlyTimedOut(sched: seq<(Tid, Act)>, t: Tid, a: Act)
    requires Acquires(Run(sched).Pc(t))
    ensures var s, p := Run(sched), Step(Run(sched), t, a).Pc(t);
      && (s.Pc(t).Test? ==> (p == Leave(false, s.Pc(t).mode) <==> s.value == 2 && s.Pc(t).mode.Timed? && a.Late?))
      && (p.Leave? && !p.retry && !s.Pc(t).Leave? ==>
            CallOf(s.Pc(t)).Timed? && ((s.Pc(t).Remove? && s.Info(t).Timer?) || (s.Pc(t).Test? && a.Late? && s.value == 2)))
      && (p.Idle? ==> s.Pc(t).Leave? && !s.Pc(t).retry)
  {
    EveryRun(sched);
    assert Thread(Run(sched), t);
  }

  /** How the acquire was called that p is a step of; only a timed one gets to Relock. */
  function CallOf(p: Pc): Mode {
    match p
    case First(mode) => mode
    case Second(mode) => mode
    case QLock(mode) => mode
    case Test(mode) => mode
    case Prepare(mode) => mode
    case Push(mode) => mode
    case Release(mode) => mode
    case Sleep(mode) => mode
    case Retry(mode) => mode
    case Leave(_, mode) => mode
    case Relock => Timed
    case Remove => Timed
    case _ => Untimed
  }

  predicate Patient(p: Pc) {
    Acquires(p) && CallOf(p).Untimed? && (p.Leave? ==> p.retry)
  }

  /** An acquire without timeout ends in holding the mutex only: whoever steps, it stays one
      until it holds the mutex. */
  lemma {:induction false} PatientAcquires(sched: seq<(Tid, Act)>, t: Tid, u: Tid, a: Act)
    requires Patient(Run(sched).Pc(t))
    ensures var s' := Step(Run(sched), u, a);
      Patient(s'.Pc(t)) || (s'.Pc(t).SetOwner? && s'.holder == By(t))
  {
    EveryRun(sched);
    var s := Run(sched);
    assert Thread(s, t) && Woken(s, t);
    if u == t { PatientStep(s, t, a); } else { OtherPc(s, u, a, t); }
  }

  lemma PatientStep(s: State, t: Tid, a: Act)
    requires Patient(s.Pc(t)) && Thread(s, t) && Woken(s, t)
    ensures var s' := Step(s, t, a); Patient(s'.Pc(t)) || (s'.Pc(t).SetOwner? && s'.holder == By(t))
  {}

  lemma OtherPc(s: State, t: Tid, a: Act, u: Tid)
    requires u != t
    ensures Step(s, t, a).Pc(u) == s.Pc(u)
  {
    if OnRace(s.Pc(t)) { OtherRace(s, t, a, u); } else { OtherQuiet(s, t, a, u); }
  }

  lemma OtherRace(s: State, t: Tid, a: Act, u: Tid)
    requires OnRace(s.Pc(t)) && u != t
    ensures Step(s, t, a).Pc(u) == s.Pc(u)
  {}

  /** Nobody but its holder's release ends a hold. */
  lemma {:induction false} KeepsUntilRelease(sched: seq<(Tid, Act)>, t: Tid, u: Tid, a: Act)
    requires Run(sched).Pc(t).Hold? && (u == t ==> !a.Unlock?)
    ensures Step(Run(sched), u, a).Pc(t).Hold?
  {
    if u != t { OtherPc(Run(sched), u, a, t); }
  }

  predicate Foremost(s: State, i: nat) {
    i < |s.list| && s.Info(s.list[i]).Nobody? && forall j :: 0 <= j < i ==> !s.Info(s.list[j]).Nobody?
  }

  /** release unblocks the first fred of the queue whose race is open, and nobody only if
      there is none. */
  lemma {:induction false} UnblocksFirst(sched: seq<(Tid, Act)>, t: Tid, a: Act)
    requires Run(sched).Pc(t).Scan?
    ensures var s, s' := Run(sched), Step(Run(sched), t, a);
      && (s'.Pc(t) == Scan(s.Pc(t).i + 1) || s'.Pc(t).Done?)
      && (s'.Pc(t) == Done(Nil) ==> forall k :: 0 <= k < |s.list| ==> !s.Info(s.list[k]).Nobody?)
      && (s'.Pc(t).Done? && s'.Pc(t).next.By? ==>
            exists i: nat :: Foremost(s, i) && s'.Pc(t).next == By(s.list[i]) && s'.list == Without(s.list, s.list[i]))
  {
    EveryRun(sched);
    var s := Run(sched);
    assert Thread(s, t);
    var i := s.Pc(t).i;
    assert i < |s.list| && s.Info(s.list[i]).Nobody? ==> Foremost(s, i);
  }

  predicate Moves(s: State, u: Tid) {
    s.Pc(u).Hold? || (!s.Pc(u).Idle? && Step(s, u, Go).Pc(u) != s.Pc(u))
  }

  lemma AwakeMoves(s: State, t: Tid) returns (u: Tid)
    requires Inv(s) && !s.Pc(t).Idle? && (s.Pc(t).Sleep? ==> !s.Info(t).Nobody?)
    ensures Moves(s, u)
  {
    u := t;
    assert Thread(s, t) && Woken(s, t);
    if s.Pc(t).Sleep? && t !in s.posted { u := s.waker[t]; }
    assert Thread(s, u);
    if (s.Pc(u).QLock? || s.Pc(u).Relock? || s.Pc(u).UnLock?) && s.lock.Held? { u := s.lock.t; }
    assert Thread(s, u);
  }

  /** No deadlock: while a call is under way, some fred holds the mutex at leisure, or some
      thread's next step takes its call further. */
  lemma {:induction false} NoDeadlock(sched: seq<(Tid, Act)>, t: Tid) returns (u: Tid)
    requires !Run(sched).Pc(t).Idle?
    ensures Moves(Run(sched), u)
  {
    EveryRun(sched);
    var s := Run(sched);
    u := t;
    if s.Pc(t).Sleep? && s.Info(t).Nobody? { u := NoLostWakeup(sched, t); }
    u := AwakeMoves(s, u);
  }

  // ------------------------------------------------- calls that run undisturbed

  /** n steps of t while nobody else moves; an idle t begins a. */
  function Alone(s: State, t: Tid, a: Act, n: nat): State
    decreases n
  {
    if n == 0 then s else Step(Alone(s, t, a, n - 1), t, a)
  }

  /** Each call acquires the free mutex. */
  lemma FreeIsTaken(s: State, t: Tid, a: Act)
    requires s.Pc(t).Idle? && s.value == 0 && (a.Acquire? || a.TryAcquire?)
    ensures var s' := Alone(s, t, a, 3); s'.Pc(t).Hold? && s'.value == 1 && s'.owner == By(t) && s'.list == s.list
  {
    assert Alone(s, t, a, 1).Pc(t) == if a.Acquire? then First(a.mode) else TryOnly;
    assert Alone(s, t, a, 2).Pc(t).SetOwner?;
  }

  /** While it is held tryAcquire fails and changes nothing, ... */
  lemma HeldTry(s: State, t: Tid)
    requires s.Pc(t).Idle? && s.value != 0
    ensures var s' := Alone(s, t, TryAcquire, 2); s'.Pc(t).Idle? && s'.value == s.value && s'.owner == s.owner && s'.list == s.list
  {
    assert Alone(s, t, TryAcquire, 1).Pc(t).TryOnly?;
  }

  /** ... and acquire marks it contended and prepares to sleep ... */
  lemma HeldIsMarked(s: State, t: Tid, mode: Mode)
    requires s.Pc(t).Idle? && s.value != 0 && s.lock.Open?
    ensures var s' := Alone(s, t, Acquire(mode), 4);
      s'.Pc(t) == Test(mode) && s'.value == 2 && s'.lock == Held(t) && s'.list == s.list && s'.owner == s.owner
  {
    assert Alone(s, t, Acquire(mode), 1).Pc(t) == First(mode);
    assert Alone(s, t, Acquire(mode), 2).Pc(t) == Second(mode);
    assert Alone(s, t, Acquire(mode), 3).Pc(t) == QLock(mode);
  }

  /** ... at the end of the queue. */
  lemma MarkedIsAwaited(s: State, t: Tid, mode: Mode)
    requires s.Pc(t) == Test(mode) && s.value == 2
    ensures var s' := Alone(s, t, Go, 4);
      s'.Pc(t) == Sleep(mode) && s'.value == 2 && s'.lock.Open? && s'.list == s.list + [t] && s'.Info(t).Nobody? && s'.owner == s.owner
  {
    assert Alone(s, t, Go, 1).Pc(t) == Prepare(mode);
    assert Alone(s, t, Go, 2).Pc(t) == Push(mode);
    assert Alone(s, t, Go, 3).Pc(t) == Release(mode);
  }

  /** release frees the mutex, ... */
  lemma ReleaseFrees(s: State, t: Tid)
    requires s.Pc(t).Hold?
    ensures var s' := Alone(s, t, Unlock, 3);
      s'.Pc(t) == (if s.value == 1 then Idle else UnLock) && s'.value == 0 && s'.owner.Nil? && s'.list == s.list && s'.lock == s.lock
  {
    assert Alone(s, t, Unlock, 1).Pc(t).Clear?;
    assert Alone(s, t, Unlock, 2).Pc(t).Swap?;
  }

  /** ... and if it was contended, goes on to lock the queue, ... */
  lemma ReleaseSearches(s: State, t: Tid, a: Act)
    requires s.Pc(t).UnLock? && s.lock.Open?
    ensures Step(s, t, a) == s.To(t, Scan(0)).(lock := Held(t))
  {}

  /** ... resumes the first fred there, if it is undecided, and returns. */
  lemma SearchResumes(s: State, t: Tid)
    requires s.Pc(t) == Scan(0) && (s.list != [] ==> s.Info(s.list[0]).Nobody?)
    ensures var s' := Alone(s, t, Unlock, if s.list == [] then 2 else 3);
      && s'.Pc(t).Idle? && s'.value == s.value && s'.lock.Open?
      && (s.list == [] ==> s'.list == [] && s'.posted == s.posted)
      && (s.list != [] ==> s'.list == s.list[1..] && s'.posted == s.posted + {s.list[0]} && s'.Info(s.list[0]).Queue?)
  {
    assert Alone(s, t, Unlock, 1).Pc(t) == Done(if s.list == [] then Nil else By(s.list[0]));
    assert s.list != [] ==> Alone(s, t, Unlock, 2).Pc(t) == Wake(s.list[0]);
  }

  /** The resumed fred acquires the mutex, ... */
  lemma ResumedAcquires(s: State, f: Tid, mode: Mode)
    requires s.Pc(f) == Sleep(mode) && f in s.posted && s.Info(f).Queue? && s.value == 0
    ensures var s' := Alone(s, f, Go, 3); s'.Pc(f).Hold? && s'.value == 2 && s'.owner == By(f)
  {
    assert Alone(s, f, Go, 1).Pc(f) == Retry(mode);
    assert Alone(s, f, Go, 2).Pc(f).SetOwner?;
  }

  /** ... and one whose timer has won takes its node out of the queue ... */
  lemma LoserLeaves(s: State, f: Tid)
    requires s.Pc(f) == Sleep(Timed) && f in s.posted && s.lock.Open? && s.Info(f).Timer?
    ensures var s' := Alone(s, f, Go, 3);
      && s'.Pc(f) == Leave(false, Timed) && s'.value == s.value && s'.owner == s.owner
      && s'.list == Without(s.list, f) && s'.lock == Held(f)
  {
    assert Alone(s, f, Go, 1).Pc(f).Relock?;
    assert Alone(s, f, Go, 2).Pc(f).Remove?;
  }

  /** ... and fails. */
  lemma LeaverFails(s: State, f: Tid)
    requires s.Pc(f) == Leave(false, Timed)
    ensures Step(s, f, Go) == s.To(f, Idle).(lock := Open)
  {}

  /** A timer wins the race of a sleeping fred, and resumes it. */
  lemma TimerWins(s: State, t: Tid, f: Tid)
    requires s.Pc(t).Idle? && s.Pc(f) == Sleep(Timed) && s.Info(f).Nobody? && f != t
    ensures var s' := Alone(s, t, Expire(f), 2);
      s'.Pc(t).Idle? && s'.Info(f).Timer? && f in s'.posted && s'.Pc(f) == Sleep(Timed) && s'.list == s.list && s'.value == s.value
  {
    assert Alone(s, t, Expire(f), 1).Pc(t) == Wake(f);
  }
}
