/** The counting semaphore LockedSemaphore<Lock, false> over BlockingQueue, with untimed P,
    timed P, tryP, V and tryV by any number of freds.  A timer may race with every V for a
    fred that sleeps with a deadline.  Each access to shared state is one step. */
module TimedSemaphore {
  import opened Memory

  datatype Mode = Untimed | Timed | Try

  datatype Result = Timeout | Success | WasOpen

  /** resumeInfo: nullptr, the wait queue's address, or the timer queue's address. */
  datatype Winner = Nobody | Queue | Timer

  datatype Pc =
    | Idle
    // P(args): the lock is held from PTest to PExit or PRelease
    | PLock(mode: Mode)
    | PTest(mode: Mode)
    | PExit(result: Result)          // release the lock and return
    | PPrepare(mode: Mode)           // resumeInfo = nullptr
    | PPush(mode: Mode)              // queue.push_back(node)
    | PRelease(mode: Mode)
    | PSleep(mode: Mode)             // in suspend
    | PWoken                         // resumed: reads resumeInfo
    | PRelock                        // timed out: acquire, remove the own node
    | PRemove
    // V (strict) and tryV: the lock is held from VScan to VExit
    | VLock(strict: bool)
    | VScan(strict: bool, i: nat)
    | VExit(strict: bool)            // no fred was found
    | VGrant(f: Tid)                 // f's race is won and its node removed
    | VResume(f: Tid)
    // the timer, after winning f's race
    | TResume(f: Tid)

  datatype Lock = Open | Held(t: Tid)

  /** What an idle thread does next; Late makes a timed P find its deadline passed. */
  datatype Act = P(mode: Mode) | V | TryV | Expire(f: Tid) | Late | Go

  datatype State = State(
    counter: int,
    list: seq<Tid>,            // the freds whose nodes are in the wait queue
    info: map<Tid, Winner>,
    posted: set<Tid>,          // freds resumed and not yet returned from suspend
    lock: Lock,
    pc: map<Tid, Pc>,
    waker: map<Tid, Tid>,      // history: who won a fred's race and owes its resume
    passed: nat,               // history: P and tryP calls that returned a success
    signals: nat,              // history: V calls, and tryV calls that found a fred
    grants: set<Tid>,          // history: freds given a token whose P has not returned
    mode: map<Tid, Mode>)      // history: how a fred's last P was called
  {
    function Pc(t: Tid): Pc { if t in pc then pc[t] else Idle }
    function Info(t: Tid): Winner { if t in info then info[t] else Nobody }
    function Mode(t: Tid): Mode { if t in mode then mode[t] else Untimed }
    function Waker(t: Tid): Tid { if t in waker then waker[t] else 0 }
    function To(t: Tid, p: Pc): State { this.(pc := pc[t := p]) }
  }

  function Init(c: nat): State {
    State(c, [], map[], {}, Open, map[], map[], 0, 0, {}, map[])
  }

  // ---------------------------------------------------------------- the steps

  function Begin(s: State, t: Tid, a: Act): State {
    match a
    case P(mode) => s.To(t, PLock(mode)).(mode := s.mode[t := mode])
    case V => s.To(t, VLock(true))
    case TryV => s.To(t, VLock(false))
    case Expire(f) =>
      if s.Pc(f) == PSleep(Timed) && s.Info(f).Nobody?
      then s.To(t, TResume(f)).(info := s.info[f := Timer], waker := s.waker[f := t]) else s
    case Late => s
    case Go => s
  }

  /** BlockingQueue::unblock, one node. */
  function Scan(s: State, t: Tid, strict: bool, i: nat): State {
    if i >= |s.list| then
      if strict then s.To(t, VExit(true)).(counter := s.counter + 1, signals := s.signals + 1)
      else s.To(t, VExit(false))
    else
      var f := s.list[i];
      if s.Info(f).Nobody? then
        s.To(t, VGrant(f)).(info := s.info[f := Queue], list := Without(s.list, f), waker := s.waker[f := t],
                            signals := s.signals + 1, grants := s.grants + {f})
      else s.To(t, VScan(strict, i + 1))
  }

  function Step(s: State, t: Tid, a: Act): State {
    match s.Pc(t)
    case Idle => Begin(s, t, a)
    case PLock(mode) => if s.lock.Open? then s.To(t, PTest(mode)).(lock := Held(t)) else s
    case PTest(mode) =>
      if s.counter < 1 then
        s.To(t, if mode.Try? || (mode.Timed? && a.Late?) then PExit(Timeout) else PPrepare(mode))
      else s.To(t, PExit(WasOpen)).(counter := s.counter - 1, grants := s.grants + {t})
    case PExit(result) =>
      if result.Timeout? then s.To(t, Idle).(lock := Open)
      else s.To(t, Idle).(lock := Open, passed := s.passed + 1, grants := s.grants - {t})
    case PPrepare(mode) => s.To(t, PPush(mode)).(info := s.info[t := Nobody])
    case PPush(mode) => s.To(t, PRelease(mode)).(list := s.list + [t])
    case PRelease(mode) => s.To(t, PSleep(mode)).(lock := Open)
    case PSleep(mode) => if t in s.posted then s.To(t, PWoken).(posted := s.posted - {t}) else s
    case PWoken =>
      if s.Info(t).Queue? then s.To(t, Idle).(passed := s.passed + 1, grants := s.grants - {t})
      else s.To(t, PRelock)
    case PRelock => if s.lock.Open? then s.To(t, PRemove).(lock := Held(t)) else s
    case PRemove => s.To(t, PExit(Timeout)).(list := Without(s.list, t))
    case VLock(strict) => if s.lock.Open? then s.To(t, VScan(strict, 0)).(lock := Held(t)) else s
    case VScan(strict, i) => Scan(s, t, strict, i)
    case VExit(strict) => s.To(t, Idle).(lock := Open)
    case VGrant(f) => s.To(t, VResume(f)).(lock := Open)
    case VResume(f) => s.To(t, Idle).(posted := s.posted + {f})
    case TResume(f) => s.To(t, Idle).(posted := s.posted + {f})
  }

  // ------------------------------------------------------------ the invariant

  predicate Inside(p: Pc) {
    match p
    case PTest(_) => true
    case PExit(_) => true
    case PPrepare(_) => true
    case PPush(_) => true
    case PRelease(_) => true
    case PRemove => true
    case VScan(_, _) => true
    case VExit(_) => true
    case VGrant(_) => true
    case _ => false
  }

  /** p owes f a resume. */
  predicate Owes(p: Pc, f: Tid) {
    p == VGrant(f) || p == VResume(f) || p == TResume(f)
  }

  /** The token of a P that has one and has not returned. */
  predicate Granted(s: State, t: Tid) {
    match s.Pc(t)
    case PExit(result) => !result.Timeout?
    case PSleep(_) => s.Info(t).Queue?
    case PWoken => s.Info(t).Queue?
    case _ => false
  }

  /** t's node is in the wait queue. */
  predicate Queued(s: State, t: Tid) {
    match s.Pc(t)
    case PRelease(_) => true
    case PSleep(_) => !s.Info(t).Queue?
    case PWoken => !s.Info(t).Queue?
    case PRelock => true
    case PRemove => true
    case _ => false
  }

  ghost predicate Thread(s: State, t: Tid) {
    && (Inside(s.Pc(t)) <==> s.lock == Held(t))
    && (t in s.grants <==> Granted(s, t))
    && (t in s.posted ==> s.Pc(t).PSleep? && !s.Info(t).Nobody?)
    && match s.Pc(t)
       case PLock(mode) => s.Mode(t) == mode
       case PTest(mode) => s.Mode(t) == mode
       case PExit(result) => result.Timeout? ==> !s.Mode(t).Untimed?
       case PPrepare(mode) => s.Mode(t) == mode && s.counter < 1 && !mode.Try?
       case PPush(mode) => s.Mode(t) == mode && s.counter < 1 && !mode.Try? && s.Info(t).Nobody?
       case PRelease(mode) => s.Mode(t) == mode && !mode.Try? && s.Info(t).Nobody?
       case PSleep(mode) =>
         && s.Mode(t) == mode && !mode.Try? && (s.Info(t).Timer? ==> mode.Timed?)
         && (!s.Info(t).Nobody? && t !in s.posted ==> Owes(s.Pc(s.Waker(t)), t))
       case PWoken => !s.Info(t).Nobody? && (s.Info(t).Timer? ==> s.Mode(t).Timed?)
       case PRelock => s.Info(t).Timer? && s.Mode(t).Timed?
       case PRemove => s.Info(t).Timer? && s.Mode(t).Timed?
       case VScan(_, i) => i <= |s.list| && forall j :: 0 <= j < i ==> !s.Info(s.list[j]).Nobody?
       case VGrant(f) => Owed(s, t, f) && s.Info(f).Queue?
       case VResume(f) => Owed(s, t, f) && s.Info(f).Queue?
       case TResume(f) => Owed(s, t, f) && s.Info(f).Timer?
       case _ => true
  }

  predicate Owed(s: State, t: Tid, f: Tid) {
    s.Waker(f) == t && s.Pc(f).PSleep? && f !in s.posted
  }

  ghost predicate Nodes(s: State) {
    && Distinct(s.list)
    && (forall k :: 0 <= k < |s.list| ==> Queued(s, s.list[k]))
    && (forall t: Tid :: Queued(s, t) ==> t in s.list)
  }

  /** A positive counter means that every node still queued has lost its race. */
  ghost predicate NoneUndecided(s: State) {
    s.counter > 0 ==> forall k :: 0 <= k < |s.list| ==> !s.Info(s.list[k]).Nobody?
  }

  /** Initial value and signals account for the counter, the returned and the granted Ps. */
  predicate Conserved(s: State, c: nat) {
    s.counter >= 0 && c + s.signals == s.counter + s.passed + |s.grants|
  }

  ghost predicate Inv(s: State, c: nat) {
    && Nodes(s)
    && NoneUndecided(s)
    && Conserved(s, c)
    && (forall t: Tid :: Thread(s, t))
  }

  // ------------------------------------------------------ every step keeps it

  lemma InitInv(c: nat)
    ensures Inv(Init(c), c)
  {}

  /** What a step of t that concerns f leaves alone. */
  ghost predicate Frame(s: State, s': State, t: Tid, f: Tid) {
    && (forall u :: u != t ==> s'.Pc(u) == s.Pc(u))
    && (s'.lock == s.lock || ((s.lock.Open? || s.lock.t == t) && (s'.lock.Open? || s'.lock.t == t)))
    && (s.lock.Held? && s.lock.t != t ==> s'.counter == s.counter && s'.list == s.list)
    && (forall u :: u != t && u != f ==>
          && s'.Info(u) == s.Info(u) && s'.Mode(u) == s.Mode(u) && s'.Waker(u) == s.Waker(u) && !Owes(s.Pc(t), u)
          && (u in s'.posted <==> u in s.posted) && (u in s'.grants <==> u in s.grants))
    && (forall k :: 0 <= k < |s.list| && !s.Info(s.list[k]).Nobody? ==> !s'.Info(s.list[k]).Nobody?)
    && Undisturbed(s, s', t)
  }

  /** The resumes that other threads owe are still owed. */
  ghost predicate Undisturbed(s: State, s': State, t: Tid) {
    forall u, x :: u != t && Owes(s.Pc(u), x) ==> Owed(s', u, x) && s'.Info(x) == s.Info(x)
  }

  lemma ThreadFrame(s: State, s': State, t: Tid, f: Tid, u: Tid)
    requires Frame(s, s', t, f) && Thread(s, u) && u != t && u != f
    ensures Thread(s', u)
  {}

  lemma Glue(s: State, s': State, t: Tid, f: Tid, c: nat)
    requires Inv(s, c) && Frame(s, s', t, f)
    requires Nodes(s') && NoneUndecided(s') && Conserved(s', c) && Thread(s', t) && Thread(s', f)
    ensures Inv(s', c)
  {
    forall u ensures Thread(s', u) {
      if u != t && u != f { ThreadFrame(s, s', t, f, u); }
    }
  }

  /** Steps of t that change at most its program counter, the lock and its own record. */
  lemma OwnStep(s: State, s': State, t: Tid, c: nat)
    requires Inv(s, c) && !s.Pc(t).VScan?
    requires s'.list == s.list && s'.waker == s.waker && s'.info == s.info
    requires forall u :: u != t ==> s'.Pc(u) == s.Pc(u)
    requires s'.lock == s.lock || ((s.lock.Open? || s.lock.t == t) && (s'.lock.Open? || s'.lock.t == t))
    requires s.lock.Held? && s.lock.t != t ==> s'.counter == s.counter
    requires forall u :: u != t ==> (u in s'.posted <==> u in s.posted) && (u in s'.grants <==> u in s.grants)
    requires forall x :: !Owes(s.Pc(t), x)
    requires s'.counter <= s.counter && Conserved(s', c) && Thread(s', t)
    requires Queued(s', t) <==> Queued(s, t)
    requires t in s'.posted ==> t in s.posted
    requires s.Pc(t).PSleep? && !s'.Pc(t).PSleep? ==> t in s.posted
    requires forall u :: u != t ==> s'.Mode(u) == s.Mode(u)
    ensures Inv(s', c)
  {
    forall u, x | u != t && Owes(s.Pc(u), x) ensures Owed(s', u, x) {
      assert Thread(s, u);
    }
    forall u ensures Queued(s', u) <==> Queued(s, u) {}
    Glue(s, s', t, t, c);
  }

  lemma BeginKeeps(s: State, t: Tid, a: Act, c: nat)
    requires Inv(s, c) && s.Pc(t).Idle?
    ensures Inv(Begin(s, t, a), c)
  {
    var s' := Begin(s, t, a);
    assert Thread(s, t);
    if a.Expire? { ExpireKeeps(s, t, a.f, c); } else { OwnStep(s, s', t, c); }
  }

  lemma ExpireKeeps(s: State, t: Tid, f: Tid, c: nat)
    requires Inv(s, c) && s.Pc(t).Idle?
    ensures Inv(Begin(s, t, Expire(f)), c)
  {
    var s' := Begin(s, t, Expire(f));
    assert Thread(s, t) && Thread(s, f);
    if s.Pc(f) == PSleep(Timed) && s.Info(f).Nobody? {
      ExpireOwed(s, t, f, c);
      forall u ensures Queued(s', u) <==> Queued(s, u) {}
      Glue(s, s', t, f, c);
    }
  }

  lemma ExpireOwed(s: State, t: Tid, f: Tid, c: nat)
    requires Inv(s, c) && s.Pc(t).Idle? && s.Pc(f) == PSleep(Timed) && s.Info(f).Nobody?
    ensures Undisturbed(s, Begin(s, t, Expire(f)), t)
  {
    var s' := Begin(s, t, Expire(f));
    forall u, x | u != t && Owes(s.Pc(u), x) ensures Owed(s', u, x) && s'.Info(x) == s.Info(x) {
      assert Thread(s, u);
    }
  }

  lemma LockKeeps(s: State, t: Tid, a: Act, c: nat)
    requires Inv(s, c) && (s.Pc(t).PLock? || s.Pc(t).PRelock? || s.Pc(t).VLock? || s.Pc(t).VExit?)
    ensures Inv(Step(s, t, a), c)
  {
    assert Thread(s, t);
    if s.Pc(t).VExit? || s.lock.Open? { OwnStep(s, Step(s, t, a), t, c); }
  }

  lemma TestKeeps(s: State, t: Tid, a: Act, c: nat)
    requires Inv(s, c) && s.Pc(t).PTest?
    ensures Inv(Step(s, t, a), c)
  {
    assert Thread(s, t);
    OwnStep(s, Step(s, t, a), t, c);
  }

  lemma ExitKeeps(s: State, t: Tid, a: Act, c: nat)
    requires Inv(s, c) && s.Pc(t).PExit?
    ensures Inv(Step(s, t, a), c)
  {
    assert Thread(s, t);
    OwnStep(s, Step(s, t, a), t, c);
  }

  lemma SleepKeeps(s: State, t: Tid, a: Act, c: nat)
    requires Inv(s, c) && (s.Pc(t).PRelease? || s.Pc(t).PSleep? || s.Pc(t).PWoken?)
    ensures Inv(Step(s, t, a), c)
  {
    assert Thread(s, t);
    if s.Pc(t).PSleep? ==> t in s.posted { OwnStep(s, Step(s, t, a), t, c); }
  }

  lemma PrepareKeeps(s: State, t: Tid, a: Act, c: nat)
    requires Inv(s, c) && s.Pc(t).PPrepare?
    ensures Inv(Step(s, t, a), c)
  {
    var s' := Step(s, t, a);
    assert Thread(s, t);
    forall u, x | u != t && Owes(s.Pc(u), x) ensures Owed(s', u, x) && s'.Info(x) == s.Info(x) {
      assert Thread(s, u);
    }
    forall u ensures Queued(s', u) <==> Queued(s, u) {}
    Glue(s, s', t, t, c);
  }

  lemma PushKeeps(s: State, t: Tid, a: Act, c: nat)
    requires Inv(s, c) && s.Pc(t).PPush?
    ensures Inv(Step(s, t, a), c)
  {
    var s' := Step(s, t, a);
    assert Thread(s, t);
    forall u, x | u != t && Owes(s.Pc(u), x) ensures Owed(s', u, x) && s'.Info(x) == s.Info(x) {
      assert Thread(s, u);
    }
    forall u ensures Queued(s', u) <==> Queued(s, u) || u == t {}
    assert t !in s.list;
    AppendDistinct(s.list, [t]);
    assert s'.list[|s.list|] == t;
    Glue(s, s', t, t, c);
  }

  lemma RemoveKeeps(s: State, t: Tid, a: Act, c: nat)
    requires Inv(s, c) && s.Pc(t).PRemove?
    ensures Inv(Step(s, t, a), c)
  {
    var s' := Step(s, t, a);
    assert Thread(s, t);
    DropNode(s, t, s');
    forall u, x | u != t && Owes(s.Pc(u), x) ensures Owed(s', u, x) && s'.Info(x) == s.Info(x) {
      assert Thread(s, u);
    }
    Glue(s, s', t, t, c);
  }

  /** f's node leaves the wait queue, the other nodes stay and stay decided. */
  lemma DropNode(s: State, f: Tid, s': State)
    requires Nodes(s) && NoneUndecided(s) && Queued(s, f) && s'.list == Without(s.list, f)
    requires forall u :: Queued(s', u) <==> Queued(s, u) && u != f
    requires s'.counter == s.counter && forall u :: u != f ==> s'.Info(u) == s.Info(u)
    ensures Nodes(s') && NoneUndecided(s')
  {
    var i :| 0 <= i < |s.list| && s.list[i] == f;
    WithoutAt(s.list, i);
    WithoutKeeps(s.list, i);
    forall k | 0 <= k < |s'.list| ensures s'.list[k] != f && s'.list[k] in s.list {
      assert s'.list[k] in s'.list;
    }
  }

  lemma ScanKeeps(s: State, t: Tid, a: Act, c: nat)
    requires Inv(s, c) && s.Pc(t).VScan?
    ensures Inv(Step(s, t, a), c)
  {
    assert Thread(s, t);
    var i := s.Pc(t).i;
    if i < |s.list| && s.Info(s.list[i]).Nobody? {
      GrantKeeps(s, t, a, c);
    } else {
      MissKeeps(s, t, a, c);
    }
  }

  lemma GrantKeeps(s: State, t: Tid, a: Act, c: nat)
    requires Inv(s, c) && s.Pc(t).VScan? && s.Pc(t).i < |s.list| && s.Info(s.list[s.Pc(t).i]).Nobody?
    ensures Inv(Step(s, t, a), c)
  {
    var s' := Step(s, t, a);
    var f := s.list[s.Pc(t).i];
    assert Thread(s, t) && Thread(s, f);
    assert s.Pc(f).PSleep?;
    GrantFrame(s, t, f, s', c);
    forall u ensures Queued(s', u) <==> Queued(s, u) && u != f {}
    DropNode(s, f, s');
    Glue(s, s', t, f, c);
  }

  lemma GrantFrame(s: State, t: Tid, f: Tid, s': State, c: nat)
    requires Inv(s, c) && s.Pc(t).VScan? && s.lock == Held(t) && s.Info(f).Nobody?
    requires s' == s.(pc := s.pc[t := VGrant(f)], info := s.info[f := Queue], list := Without(s.list, f),
                      waker := s.waker[f := t], signals := s.signals + 1, grants := s.grants + {f})
    ensures Frame(s, s', t, f)
  {
    forall u, x | u != t && Owes(s.Pc(u), x) ensures Owed(s', u, x) && s'.Info(x) == s.Info(x) {
      assert Thread(s, u);
    }
  }

  lemma MissKeeps(s: State, t: Tid, a: Act, c: nat)
    requires Inv(s, c) && s.Pc(t).VScan?
    requires s.Pc(t).i >= |s.list| || !s.Info(s.list[s.Pc(t).i]).Nobody?
    ensures Inv(Step(s, t, a), c)
  {
    var s' := Step(s, t, a);
    assert Thread(s, t);
    MissFrame(s, t, s', c);
    forall u ensures Queued(s', u) <==> Queued(s, u) {}
    Glue(s, s', t, t, c);
  }

  lemma MissFrame(s: State, t: Tid, s': State, c: nat)
    requires Inv(s, c) && s.Pc(t).VScan? && s.lock == Held(t)
    requires s' == s.(pc := s.pc[t := s'.Pc(t)], counter := s'.counter, signals := s'.signals)
    ensures Frame(s, s', t, t)
  {
    forall u, x | u != t && Owes(s.Pc(u), x) ensures Owed(s', u, x) { assert Thread(s, u); }
  }

  lemma GrantedKeeps(s: State, t: Tid, a: Act, c: nat)
    requires Inv(s, c) && s.Pc(t).VGrant?
    ensures Inv(Step(s, t, a), c)
  {
    var s' := Step(s, t, a);
    var f := s.Pc(t).f;
    assert Thread(s, t) && Thread(s, f);
    ResumeOwed(s, t, a, c);
    forall u ensures Queued(s', u) <==> Queued(s, u) {}
    Glue(s, s', t, f, c);
  }

  lemma ResumeOwed(s: State, t: Tid, a: Act, c: nat)
    requires Inv(s, c) && (s.Pc(t).VGrant? || s.Pc(t).VResume? || s.Pc(t).TResume?)
    ensures Undisturbed(s, Step(s, t, a), t)
  {
    var s' := Step(s, t, a);
    assert Thread(s, t);
    forall u, x | u != t && Owes(s.Pc(u), x) ensures Owed(s', u, x) && s'.Info(x) == s.Info(x) {
      assert Thread(s, u);
    }
  }

  lemma ResumeKeeps(s: State, t: Tid, a: Act, c: nat)
    requires Inv(s, c) && (s.Pc(t).VResume? || s.Pc(t).TResume?)
    ensures Inv(Step(s, t, a), c)
  {
    var s' := Step(s, t, a);
    var f := s.Pc(t).f;
    assert Thread(s, t) && Thread(s, f);
    ResumeOwed(s, t, a, c);
    forall u ensures Queued(s', u) <==> Queued(s, u) {}
    Glue(s, s', t, f, c);
  }

  lemma StepKeeps(s: State, t: Tid, a: Act, c: nat)
    requires Inv(s, c)
    ensures Inv(Step(s, t, a), c)
  {
    match s.Pc(t) {
      case Idle => BeginKeeps(s, t, a, c);
      case PPrepare(_) => PrepareKeeps(s, t, a, c);
      case PPush(_) => PushKeeps(s, t, a, c);
      case PRemove => RemoveKeeps(s, t, a, c);
      case VScan(_, _) => ScanKeeps(s, t, a, c);
      case VGrant(_) => GrantedKeeps(s, t, a, c);
      case VResume(_) => ResumeKeeps(s, t, a, c);
      case TResume(_) => ResumeKeeps(s, t, a, c);
      case PTest(_) => TestKeeps(s, t, a, c);
      case PExit(_) => ExitKeeps(s, t, a, c);
      case PRelease(_) => SleepKeeps(s, t, a, c);
      case PSleep(_) => SleepKeeps(s, t, a, c);
      case PWoken => SleepKeeps(s, t, a, c);
      case _ => LockKeeps(s, t, a, c);
    }
  }

  // ------------------------------------------------------------- the theorems

  function Run(c: nat, sched: seq<(Tid, Act)>): State {
    if sched == [] then Init(c)
    else Step(Run(c, sched[..|sched| - 1]), sched[|sched| - 1].0, sched[|sched| - 1].1)
  }

  lemma {:induction false} EveryRun(c: nat, sched: seq<(Tid, Act)>)
    ensures Inv(Run(c, sched), c)
  {
    if sched == [] {
      InitInv(c);
    } else {
      EveryRun(c, sched[..|sched| - 1]);
      StepKeeps(Run(c, sched[..|sched| - 1]), sched[|sched| - 1].0, sched[|sched| - 1].1, c);
    }
  }

  /** In every run, when all calls have returned, tokens put in equal tokens taken out plus
      the counter, and the wait queue is empty. */
  lemma {:induction false} TokensConserved(c: nat, sched: seq<(Tid, Act)>)
    requires forall t: Tid :: Run(c, sched).Pc(t).Idle?
    ensures var s := Run(c, sched); c + s.signals == s.counter + s.passed && s.counter >= 0 && s.list == []
  {
    var s := Run(c, sched);
    EveryRun(c, sched);
    forall t: Tid ensures t !in s.grants { assert Thread(s, t); }
    assert s.grants == {};
    assert |s.list| > 0 ==> Queued(s, s.list[0]);
  }

  /** A P reports success exactly when it was given a token: the step that returns a
      success uses up one grant, and the step that returns Timeout had none. */
  lemma ReportIsTruth(s: State, t: Tid, a: Act, c: nat)
    requires Inv(s, c) && !s.Pc(t).Idle? && Step(s, t, a).Pc(t).Idle?
    ensures var s' := Step(s, t, a);
      if t in s.grants then s'.passed == s.passed + 1 && s'.grants == s.grants - {t}
      else s'.passed == s.passed && s'.grants == s.grants
    ensures s.Pc(t) == PExit(Timeout) ==> t !in s.grants
    ensures s.Pc(t).PWoken? || s.Pc(t) == PExit(WasOpen) ==> t in s.grants
  {
    assert Thread(s, t);
  }

  /** No fred sleeps undecided while a token is available. */
  lemma NoSleepWithToken(s: State, c: nat, f: Tid)
    requires Inv(s, c) && s.Pc(f).PSleep? && s.counter > 0
    ensures s.Info(f) != Nobody
  {
    assert Thread(s, f);
    assert s.Info(f).Nobody? ==> Queued(s, f);
  }

  /** A decided sleeper has been resumed, or exactly one thread is about to resume it. */
  lemma OneResume(s: State, c: nat, f: Tid, u: Tid)
    requires Inv(s, c) && s.Pc(f).PSleep? && !s.Info(f).Nobody?
    ensures f !in s.posted ==> Owes(s.Pc(s.Waker(f)), f)
    ensures Owes(s.Pc(u), f) ==> f !in s.posted && u == s.Waker(f)
  {
    assert Thread(s, f) && Thread(s, u);
  }

  /** queue.remove(node) is called only for a node that is in the queue. */
  lemma RemovesOwnNode(s: State, c: nat, t: Tid)
    requires Inv(s, c) && s.Pc(t).PRemove?
    ensures t in s.list
  {
    assert Queued(s, t);
  }

  // ------------------------------------------- what calls answer, and progress

  /** Under the lock P takes a token exactly if there is one.  Otherwise a tryP fails, a
      timed P that is late fails, and every other P queues up. */
  lemma {:induction false} FailsIff(c: nat, sched: seq<(Tid, Act)>, t: Tid, a: Act)
    requires Run(c, sched).Pc(t).PTest?
    ensures var s, p := Run(c, sched), Step(Run(c, sched), t, a).Pc(t);
      && (p == PExit(WasOpen) <==> s.counter > 0)
      && (p == PExit(Timeout) <==> s.counter == 0 && (s.Mode(t).Try? || (s.Mode(t).Timed? && a.Late?)))
      && (p.PPrepare? <==> s.counter == 0 && (s.Mode(t).Untimed? || (s.Mode(t).Timed? && !a.Late?)))
  {
    EveryRun(c, sched);
    assert Thread(Run(c, sched), t);
  }

  predicate Takes(p: Pc) {
    p.PLock? || p.PTest? || p.PExit? || p.PPrepare? || p.PPush? || p.PRelease? || p.PSleep? || p.PWoken? || p.PRelock? || p.PRemove?
  }

  /** A P without timeout never fails: whenever it returns, it has a token. */
  lemma {:induction false} UntimedSucceeds(c: nat, sched: seq<(Tid, Act)>, t: Tid, a: Act)
    requires var s := Run(c, sched); Takes(s.Pc(t)) && s.Mode(t).Untimed? && Step(s, t, a).Pc(t).Idle?
    ensures t in Run(c, sched).grants && Step(Run(c, sched), t, a).passed == Run(c, sched).passed + 1
  {
    EveryRun(c, sched);
    assert Thread(Run(c, sched), t);
  }

  /** A fred that has slept fails exactly if its timer has won. */
  lemma {:induction false} SleeperFailsIff(c: nat, sched: seq<(Tid, Act)>, t: Tid, a: Act)
    requires Run(c, sched).Pc(t).PWoken?
    ensures var s, s' := Run(c, sched), Step(Run(c, sched), t, a);
      && (s.Info(t).Queue? <==> s'.Pc(t).Idle? && s'.passed == s.passed + 1)
      && (s.Info(t).Timer? <==> s'.Pc(t).PRelock?) && (s.Info(t).Timer? ==> s.Mode(t).Timed?)
  {
    EveryRun(c, sched);
    assert Thread(Run(c, sched), t);
  }

  /** V and tryV grant the first fred of the queue whose race is open, and find none only if
      there is none. */
  lemma {:induction false} GrantsFirst(c: nat, sched: seq<(Tid, Act)>, t: Tid, a: Act)
    requires Run(c, sched).Pc(t).VScan?
    ensures var s, s' := Run(c, sched), Step(Run(c, sched), t, a);
      && (s'.Pc(t).VExit? ==> forall k :: 0 <= k < |s.list| ==> !s.Info(s.list[k]).Nobody?)
      && (s'.Pc(t).VExit? ==> s'.counter == (if s.Pc(t).strict then s.counter + 1 else s.counter))
      && (s'.Pc(t).VGrant? ==> exists i: nat :: Foremost(s, i) && s'.Pc(t) == VGrant(s.list[i]) && s'.list == Without(s.list, s.list[i]))
      && (s'.Pc(t).VExit? || s'.Pc(t).VGrant? || s'.Pc(t) == VScan(s.Pc(t).strict, s.Pc(t).i + 1))
  {
    EveryRun(c, sched);
    var s := Run(c, sched);
    assert Thread(s, t);
    var i := s.Pc(t).i;
    assert i < |s.list| && s.Info(s.list[i]).Nobody? ==> Foremost(s, i);
  }

  predicate Foremost(s: State, i: nat) {
    i < |s.list| && s.Info(s.list[i]).Nobody? && forall j :: 0 <= j < i ==> !s.Info(s.list[j]).Nobody?
  }

  /** No deadlock: while a call is under way, a fred sleeps undecided, or some fred's next
      step takes its call further. */
  lemma {:induction false} NoDeadlock(c: nat, sched: seq<(Tid, Act)>, t: Tid) returns (u: Tid)
    requires var s := Run(c, sched); !s.Pc(t).Idle? && !(s.Pc(t).PSleep? && s.Info(t).Nobody?)
    ensures var s := Run(c, sched); !s.Pc(u).Idle? && Step(s, u, Go).Pc(u) != s.Pc(u)
  {
    EveryRun(c, sched);
    var s := Run(c, sched);
    assert Thread(s, t);
    u := t;
    if s.lock.Held? {
      u := s.lock.t;
    } else if s.Pc(t).PSleep? && t !in s.posted {
      u := s.Waker(t);
    }
    assert Thread(s, u);
  }

  // ------------------------------------------------- calls that run undisturbed

  /** n steps of t while nobody else moves; an idle t begins a. */
  function Alone(s: State, t: Tid, a: Act, n: nat): State
    decreases n
  {
    if n == 0 then s else Step(Alone(s, t, a, n - 1), t, a)
  }

  /** P takes a token if there is one, whatever its mode. */
  lemma TokenIsTaken(s: State, t: Tid, mode: Mode)
    requires s.Pc(t).Idle? && s.lock.Open? && s.counter > 0
    ensures var s' := Alone(s, t, P(mode), 4);
      s'.Pc(t).Idle? && s'.counter == s.counter - 1 && s'.passed == s.passed + 1 && s'.list == s.list && s'.lock.Open?
  {
    assert Alone(s, t, P(mode), 1).Pc(t).PLock?;
    assert Alone(s, t, P(mode), 2).Pc(t).PTest?;
    assert Alone(s, t, P(mode), 3).Pc(t) == PExit(WasOpen);
  }

  /** Without a token tryP fails and changes nothing, ... */
  lemma NoTokenTry(s: State, t: Tid)
    requires s.Pc(t).Idle? && s.lock.Open? && s.counter < 1
    ensures var s' := Alone(s, t, P(Try), 4);
      s'.Pc(t).Idle? && s'.counter == s.counter && s'.passed == s.passed && s'.list == s.list && s'.lock.Open?
  {
    assert Alone(s, t, P(Try), 1).Pc(t).PLock?;
    assert Alone(s, t, P(Try), 2).Pc(t).PTest?;
    assert Alone(s, t, P(Try), 3).Pc(t) == PExit(Timeout);
  }

  /** ... and the other forms put the fred to sleep at the end of the queue. */
  lemma NoTokenWait(s: State, t: Tid, mode: Mode)
    requires s.Pc(t).Idle? && s.lock.Open? && s.counter < 1 && !mode.Try?
    ensures var s' := Alone(s, t, P(mode), 6);
      s'.Pc(t) == PSleep(mode) && s'.Info(t).Nobody? && s'.counter == s.counter && s'.list == s.list + [t] && s'.lock.Open?
  {
    assert Alone(s, t, P(mode), 1).Pc(t).PLock?;
    assert Alone(s, t, P(mode), 2).Pc(t).PTest?;
    assert Alone(s, t, P(mode), 3).Pc(t) == PPrepare(mode);
    assert Alone(s, t, P(mode), 4).Pc(t) == PPush(mode);
    assert Alone(s, t, P(mode), 5).Pc(t) == PRelease(mode);
  }

  /** V and tryV grant the first fred of the queue, ... */
  lemma SleeperIsGranted(s: State, t: Tid, a: Act)
    requires s.Pc(t).Idle? && s.lock.Open? && (a.V? || a.TryV?)
    requires s.list != [] && s.Info(s.list[0]).Nobody?
    ensures var f, s' := s.list[0], Alone(s, t, a, 3);
      && s'.Pc(t) == VGrant(f) && s'.counter == s.counter && s'.list == s.list[1..] && s'.Info(f).Queue?
  {
    assert Alone(s, t, a, 1).Pc(t).VLock?;
    assert Alone(s, t, a, 2).Pc(t) == VScan(a.V?, 0);
  }

  /** ... and resume it, ... */
  lemma GrantedIsResumed(s: State, t: Tid, f: Tid)
    requires s.Pc(t) == VGrant(f)
    ensures var s' := Alone(s, t, Go, 2);
      s'.Pc(t).Idle? && s'.lock.Open? && s'.posted == s.posted + {f} && s'.counter == s.counter && s'.list == s.list
  {
    assert Alone(s, t, Go, 1).Pc(t) == VResume(f);
  }

  /** ... and its P succeeds. */
  lemma GrantedSucceeds(s: State, f: Tid)
    requires s.Pc(f).PSleep? && s.Info(f).Queue? && f in s.posted
    ensures Alone(s, f, Go, 2).Pc(f).Idle? && Alone(s, f, Go, 2).passed == s.passed + 1
  {
    assert Alone(s, f, Go, 1).Pc(f).PWoken?;
  }

  /** With nobody in the queue V adds a token, and tryV does not. */
  lemma TokenIsAdded(s: State, t: Tid, a: Act)
    requires s.Pc(t).Idle? && s.lock.Open? && (a.V? || a.TryV?) && s.list == []
    ensures var s' := Alone(s, t, a, 4);
      s'.Pc(t).Idle? && s'.counter == (if a.V? then s.counter + 1 else s.counter) && s'.list == [] && s'.lock.Open?
  {
    assert Alone(s, t, a, 1).Pc(t).VLock?;
    assert Alone(s, t, a, 2).Pc(t) == VScan(a.V?, 0);
    assert Alone(s, t, a, 3).Pc(t).VExit?;
  }

  /** A timer wins against a sleeping fred, which then leaves the queue and fails. */
  lemma TimerWins(s: State, t: Tid, f: Tid)
    requires s.Pc(t).Idle? && s.Pc(f) == PSleep(Timed) && s.Info(f).Nobody? && f != t
    ensures var s' := Alone(s, t, Expire(f), 2);
      s'.Pc(t).Idle? && s'.Info(f).Timer? && f in s'.posted && s'.Pc(f) == PSleep(Timed) && s'.list == s.list && s'.lock == s.lock
  {
    assert Alone(s, t, Expire(f), 1).Pc(t) == TResume(f);
  }

  lemma LoserLeaves(s: State, f: Tid)
    requires s.Pc(f) == PSleep(Timed) && s.Info(f).Timer? && f in s.posted && s.lock.Open?
    ensures var s' := Alone(s, f, Go, 5);
      s'.Pc(f).Idle? && s'.list == Without(s.list, f) && s'.passed == s.passed && s'.counter == s.counter && s'.lock.Open?
  {
    assert Alone(s, f, Go, 1).Pc(f).PWoken?;
    assert Alone(s, f, Go, 2).Pc(f).PRelock?;
    assert Alone(s, f, Go, 3).Pc(f).PRemove?;
    assert Alone(s, f, Go, 4).Pc(f) == PExit(Timeout);
  }
}
