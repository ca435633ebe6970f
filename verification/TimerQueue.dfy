/** The timer queue: blockTimeout by any number of freds, checkExpiry by any number of
    threads, an operating-system timer with one armed deadline, and other wakers that may
    win a fred's resume race first.  A locked section of one access is one step. */
module TimerQueue {
  import opened Memory

  /** History: one number for every call of blockTimeout. */
  type Suspension = nat

  datatype Winner = Nobody | Other | Timer

  datatype Pc =
    | Idle
    // blockTimeout(cf, deadline)
    | Arm(deadline: nat)                   // enqueue(node, absTimeout)
    | Sleep(sid: Suspension)               // in suspend
    | Woken(sid: Suspension)               // reads the winner
    | Erase(sid: Suspension)               // erase(iter, node)
    // checkExpiry(); the lock is held from Scan on
    | Lock(now: nat)
    | Scan(now: nat)
    | Resume(sid: Suspension, now: nat)    // race won: resume, then erase
    | Expire(sid: Suspension, now: nat)    // race lost: node->expired = true, then erase
    | EraseEntry(sid: Suspension, now: nat)

  datatype Holder = Open | Held(t: Tid)

  datatype Alarm = Off | Armed(deadline: nat)

  /** Pick names the entry at the front of the queue (any smallest key, as equal keys are
      kept in insertion order). */
  datatype Act = Block(deadline: nat) | Wake(f: Tid) | Check | Tick(n: nat) | Fire | Pick(sid: Suspension)

  datatype State = State(
    clock: nat,
    entries: map<Suspension, nat>,     // the queue: deadline of each entry
    expired: set<Suspension>,          // node.expired
    info: map<Tid, Winner>,            // resumeInfo of each fred
    posted: set<Tid>,                  // resumed and not yet returned from suspend
    lock: Holder,
    alarm: Alarm,                      // the operating-system timer
    pending: bool,                     // it has fired and checkExpiry is due
    pc: map<Tid, Pc>,
    owner: map<Suspension, Tid>,       // history: whose suspension it is
    due: map<Suspension, nat>,         // history: its deadline
    unused: Suspension,                 // history: next unused number
    erases: map<Suspension, nat>,      // history: how often an entry was erased
    runs: set<Tid>)                    // history: threads in checkExpiry
  {
    function Pc(t: Tid): Pc { if t in pc then pc[t] else Idle }
    function Info(t: Tid): Winner { if t in info then info[t] else Nobody }
    function Due(i: Suspension): nat { if i in due then due[i] else 0 }
    function Owner(i: Suspension): Tid { if i in owner then owner[i] else 0 }
    function Erases(i: Suspension): nat { if i in erases then erases[i] else 0 }
    function Go(t: Tid, p: Pc): State { this.(pc := pc[t := p]) }
    function Drop(i: Suspension): State {
      this.(entries := entries - {i}, erases := erases[i := Erases(i) + 1])
    }
    /** newTimeout: one deadline is armed, an unread expiration is forgotten. */
    function Timeout(d: nat): State { this.(alarm := Armed(d), pending := false) }
    predicate Minimal(d: nat) { forall i :: i in entries ==> d <= entries[i] }
  }

  function Init(): State {
    State(0, map[], {}, map[], {}, Open, Off, false, map[], map[], map[], 0, map[], {})
  }

  // ---------------------------------------------------------------- the steps

  function Begin(s: State, t: Tid, a: Act): State {
    match a
    case Block(deadline) => s.Go(t, Arm(deadline)).(info := s.info[t := Nobody])
    case Wake(f) =>
      if (s.Pc(f).Arm? || s.Pc(f).Sleep?) && s.Info(f).Nobody?
      then s.(info := s.info[f := Other], posted := s.posted + {f}) else s
    case Check => s.Go(t, Lock(s.clock)).(pending := false, runs := s.runs + {t})
    case Tick(n) => s.(clock := s.clock + n)
    case Fire =>
      if s.alarm.Armed? && s.alarm.deadline <= s.clock then s.(alarm := Off, pending := true) else s
    case Pick(_) => s
  }

  function Enqueue(s: State, t: Tid, deadline: nat): State {
    var i := s.unused;
    var first := forall j :: j in s.entries ==> deadline < s.entries[j];
    var s' := s.Go(t, Sleep(i)).(entries := s.entries[i := deadline], owner := s.owner[i := t],
                                  due := s.due[i := deadline], unused := i + 1);
    if first then s'.Timeout(deadline) else s'
  }

  predicate Front(s: State, a: Act) { a.Pick? && a.sid in s.entries && s.Minimal(s.entries[a.sid]) }

  /** One turn of the loop of checkExpiry, with the front entry given by the act. */
  function Turn(s: State, t: Tid, now: nat, a: Act): State {
    if s.entries == map[] then s.Go(t, Idle).(lock := Open, runs := s.runs - {t})
    else if !Front(s, a) then s
    else if s.entries[a.sid] > now then
      s.Go(t, Idle).(lock := Open, runs := s.runs - {t}).Timeout(s.entries[a.sid])
    else
      var f := s.Owner(a.sid);
      if s.Info(f).Nobody? then s.Go(t, Resume(a.sid, now)).(info := s.info[f := Timer])
      else s.Go(t, Expire(a.sid, now))
  }

  function Step(s: State, t: Tid, a: Act): State {
    match s.Pc(t)
    case Idle => Begin(s, t, a)
    case Arm(deadline) => if s.lock.Open? then Enqueue(s, t, deadline) else s
    case Sleep(i) => if t in s.posted then s.Go(t, Woken(i)).(posted := s.posted - {t}) else s
    case Woken(i) => s.Go(t, if s.Info(t).Timer? then Idle else Erase(i))
    case Erase(i) =>
      if i in s.expired then s.Go(t, Idle)
      else if s.lock.Open? then s.Go(t, Idle).Drop(i) else s
    case Lock(now) => if s.lock.Open? then s.Go(t, Scan(now)).(lock := Held(t)) else s
    case Scan(now) => Turn(s, t, now, a)
    case Resume(i, now) => s.Go(t, EraseEntry(i, now)).(posted := s.posted + {s.Owner(i)})
    case Expire(i, now) => s.Go(t, EraseEntry(i, now)).(expired := s.expired + {i})
    case EraseEntry(i, now) => s.Go(t, Scan(now)).Drop(i)
  }

  // ------------------------------------------------------------ the invariant

  predicate Runs(p: Pc) {
    p.Lock? || Inside(p)
  }

  predicate Inside(p: Pc) {
    p.Scan? || p.Resume? || p.Expire? || p.EraseEntry?
  }

  /** The lock holder is handling entry i. */
  predicate Handled(s: State, i: Suspension) {
    s.lock.Held? && var p := s.Pc(s.lock.t); (p.Resume? || p.EraseEntry?) && p.sid == i
  }

  predicate Erasing(s: State, i: Suspension) {
    s.lock.Held? && s.Pc(s.lock.t).EraseEntry? && s.Pc(s.lock.t).sid == i
  }

  /** The suspension i is not over. */
  predicate Current(s: State, i: Suspension) {
    var p := s.Pc(s.Owner(i));
    (p.Sleep? || p.Woken? || p.Erase?) && p.sid == i
  }

  /** t is in suspension i, and its entry is where the race's outcome puts it. */
  predicate Suspended(s: State, t: Tid, i: Suspension) {
    && i < s.unused && s.Owner(i) == t
    && match s.Info(t)
       case Nobody => i in s.entries && i !in s.expired
       case Other => i in s.entries || i in s.expired
       case Timer => s.Due(i) <= s.clock && (i in s.entries ==> Handled(s, i))
  }

  /** What holds of fred or thread t outside the critical section. */
  predicate Thread(s: State, t: Tid) {
    && (t in s.runs <==> Runs(s.Pc(t)))
    && (s.lock == Held(t) <==> Inside(s.Pc(t)))
    && (t in s.posted ==> (s.Pc(t).Arm? || s.Pc(t).Sleep?) && !s.Info(t).Nobody?)
    && match s.Pc(t)
       case Arm(_) => !s.Info(t).Timer? && (s.Info(t).Other? ==> t in s.posted)
       case Sleep(i) =>
         && Suspended(s, t, i)
         && (s.Info(t).Other? ==> t in s.posted)
         && (s.Info(t).Timer? && t !in s.posted ==> s.lock.Held? && s.Pc(s.lock.t).Resume? && s.Pc(s.lock.t).sid == i)
       case Woken(i) => Suspended(s, t, i) && !s.Info(t).Nobody?
       case Erase(i) => Suspended(s, t, i) && s.Info(t).Other?
       case Lock(now) => now <= s.clock
       case _ => true
  }

  /** What holds inside the critical section of checkExpiry, at step p. */
  predicate Section(s: State, p: Pc) {
    match p
    case Scan(now) => now <= s.clock
    case Resume(i, now) =>
      && now <= s.clock && i in s.entries && s.entries[i] <= now
      && s.Pc(s.Owner(i)) == Sleep(i) && s.Info(s.Owner(i)).Timer? && s.Owner(i) !in s.posted
    case Expire(i, now) =>
      && now <= s.clock && i in s.entries && s.entries[i] <= now
      && Current(s, i) && s.Info(s.Owner(i)).Other?
    case EraseEntry(i, now) =>
      && now <= s.clock && i in s.entries && s.entries[i] <= now
      && (Current(s, i) ==> i in s.expired || s.Info(s.Owner(i)).Timer?)
    case _ => false
  }

  predicate Entry(s: State, i: Suspension) {
    && (i in s.entries ==> i < s.unused && s.entries[i] == s.Due(i) && (Current(s, i) || Erasing(s, i)))
    && (i in s.entries && i in s.expired ==> Erasing(s, i))
    && (i in s.expired ==> i < s.unused)
    && s.Erases(i) == if i < s.unused && i !in s.entries then 1 else 0
  }

  /** The next due entry has an alarm at or before its deadline, or a run will see it. */
  predicate Alarmed(s: State) {
    s.entries == map[] || (s.alarm.Armed? && s.Minimal(s.alarm.deadline)) || s.pending || s.runs != {}
  }

  ghost predicate Inv(s: State) {
    && (forall t: Tid :: Thread(s, t))
    && (forall i: Suspension :: Entry(s, i))
    && (s.lock.Held? ==> Section(s, s.Pc(s.lock.t)))
    && Alarmed(s)
  }

  // ------------------------------------------------------ every step keeps it

  lemma InitInv()
    ensures Inv(Init())
  {}

  /** A step that leaves fred u, the lock and the entries of u's suspensions alone. */
  predicate Frame(s: State, s': State, u: Tid) {
    && s'.Pc(u) == s.Pc(u) && s'.Info(u) == s.Info(u)
    && (u in s'.posted <==> u in s.posted) && (u in s'.runs <==> u in s.runs)
    && s'.lock == s.lock && (s.lock.Held? ==> s'.Pc(s.lock.t) == s.Pc(s.lock.t))
    && s.clock <= s'.clock && s.unused <= s'.unused
    && var p := s.Pc(u);
       (p.Sleep? || p.Woken? || p.Erase?) ==>
         && (p.sid < s.unused ==> s'.Owner(p.sid) == s.Owner(p.sid) && s'.Due(p.sid) == s.Due(p.sid))
         && (p.sid in s'.entries <==> p.sid in s.entries) && (p.sid in s'.expired <==> p.sid in s.expired)
  }

  lemma ThreadFrame(s: State, s': State, u: Tid)
    requires Frame(s, s', u) && Thread(s, u)
    ensures Thread(s', u)
  {}

  /** The deadline of an entry that stays is unchanged, and no waker disturbs the section. */
  lemma SectionFrame(s: State, s': State)
    requires s.lock.Held? && Section(s, s.Pc(s.lock.t)) && s.clock <= s'.clock
    requires s'.lock == s.lock && s'.Pc(s.lock.t) == s.Pc(s.lock.t)
    requires !s.Pc(s.lock.t).Scan? ==>
      var i := s.Pc(s.lock.t).sid; var f := s.Owner(i);
      && (i in s.entries ==> i in s'.entries && s'.entries[i] == s.entries[i])
      && s'.Owner(i) == f && (i in s.expired ==> i in s'.expired)
      && (s.Pc(s.lock.t).Resume? ==> s'.Pc(f) == s.Pc(f))
      && (s.Pc(s.lock.t).Expire? ==> (Current(s, i) ==> Current(s', i)))
      && (Current(s, i) ==> s'.Info(f) == s.Info(f)) && (s.Pc(s.lock.t).Resume? && f in s'.posted ==> f in s.posted)
      && (s.Pc(s.lock.t).EraseEntry? && Current(s', i) ==> Current(s, i))
    ensures Section(s', s.Pc(s.lock.t))
  {}

  lemma WakeKeeps(s: State, t: Tid, f: Tid)
    requires Inv(s) && s.Pc(t).Idle? && (s.Pc(f).Arm? || s.Pc(f).Sleep?) && s.Info(f).Nobody?
    ensures Inv(Begin(s, t, Wake(f)))
  {
    var s' := Begin(s, t, Wake(f));
    assert Thread(s, f);
    forall u ensures Thread(s', u) {
      assert Thread(s, u);
      if u != f { ThreadFrame(s, s', u); }
    }
    forall i ensures Entry(s', i) { assert Entry(s, i); }
    if s.lock.Held? {
      assert Thread(s, s.lock.t);
      if !s.Pc(s.lock.t).Scan? { assert Entry(s, s.Pc(s.lock.t).sid); }
      SectionFrame(s, s');
    }
  }

  lemma BlockKeeps(s: State, t: Tid, d: nat)
    requires Inv(s) && s.Pc(t).Idle?
    ensures Inv(Begin(s, t, Block(d)))
  {
    var s' := Begin(s, t, Block(d));
    assert Thread(s, t);
    forall u ensures Thread(s', u) {
      assert Thread(s, u);
      if u != t { ThreadFrame(s, s', u); }
    }
    forall i ensures Entry(s', i) { assert Entry(s, i); }
    if s.lock.Held? {
      assert Thread(s, s.lock.t);
      SectionFrame(s, s');
    }
  }

  lemma CheckThreads(s: State, t: Tid)
    requires Inv(s) && s.Pc(t).Idle?
    ensures forall u: Tid :: Thread(Begin(s, t, Check), u)
  {
    var s' := Begin(s, t, Check);
    assert Thread(s, t);
    forall u ensures Thread(s', u) {
      assert Thread(s, u);
      if u != t { ThreadFrame(s, s', u); }
    }
  }

  lemma CheckKeeps(s: State, t: Tid)
    requires Inv(s) && s.Pc(t).Idle?
    ensures Inv(Begin(s, t, Check))
  {
    var s' := Begin(s, t, Check);
    assert Thread(s, t);
    CheckThreads(s, t);
    forall i ensures Entry(s', i) { assert Entry(s, i); }
    if s.lock.Held? {
      assert Thread(s, s.lock.t);
      SectionFrame(s, s');
    }
  }

  lemma TimeThreads(s: State, t: Tid, a: Act)
    requires Inv(s) && (a.Tick? || a.Fire?)
    ensures forall u: Tid :: Thread(Begin(s, t, a), u)
  {
    var s' := Begin(s, t, a);
    forall u ensures Thread(s', u) { assert Thread(s, u); ThreadFrame(s, s', u); }
  }

  lemma TimeEntries(s: State, t: Tid, a: Act)
    requires Inv(s) && (a.Tick? || a.Fire?)
    ensures forall i: Suspension :: Entry(Begin(s, t, a), i)
  {
    forall i ensures Entry(Begin(s, t, a), i) { assert Entry(s, i); }
  }

  /** Time passes, or the operating-system timer fires. */
  lemma TimeKeeps(s: State, t: Tid, a: Act)
    requires Inv(s) && s.Pc(t).Idle? && (a.Tick? || a.Fire?)
    ensures Inv(Begin(s, t, a))
  {
    TimeThreads(s, t, a);
    TimeEntries(s, t, a);
    if s.lock.Held? { SectionFrame(s, Begin(s, t, a)); }
  }

  lemma BeginKeeps(s: State, t: Tid, a: Act)
    requires Inv(s) && s.Pc(t).Idle?
    ensures Inv(Begin(s, t, a))
  {
    match a {
      case Block(d) => BlockKeeps(s, t, d);
      case Wake(f) => if (s.Pc(f).Arm? || s.Pc(f).Sleep?) && s.Info(f).Nobody? { WakeKeeps(s, t, f); }
      case Check => CheckKeeps(s, t);
      case Pick(_) =>
      case _ => TimeKeeps(s, t, a);
    }
  }

  /** What enqueue changes, apart from the alarm. */
  predicate Enqueued(s: State, t: Tid, d: nat, s': State) {
    var i := s.unused;
    s' == s.(pc := s.pc[t := Sleep(i)], entries := s.entries[i := d], owner := s.owner[i := t],
             due := s.due[i := d], unused := i + 1, alarm := s'.alarm, pending := s'.pending)
  }

  lemma ArmThreads(s: State, t: Tid, s': State)
    requires Inv(s) && s.Pc(t).Arm? && s.lock.Open? && Enqueued(s, t, s.Pc(t).deadline, s')
    ensures forall u: Tid :: Thread(s', u)
  {
    assert Thread(s, t) && Entry(s, s.unused);
    forall u ensures Thread(s', u) {
      assert Thread(s, u);
      if u != t { ThreadFrame(s, s', u); }
    }
  }

  lemma ArmEntries(s: State, t: Tid, s': State)
    requires Inv(s) && s.Pc(t).Arm? && s.lock.Open? && Enqueued(s, t, s.Pc(t).deadline, s')
    ensures forall i: Suspension :: Entry(s', i)
  {
    assert Entry(s, s.unused);
    forall i ensures Entry(s', i) { assert Entry(s, i); }
  }

  lemma ArmAlarm(s: State, t: Tid, s': State)
    requires Inv(s) && s.lock.Open? && s.Pc(t).Arm? && s' == Enqueue(s, t, s.Pc(t).deadline)
    ensures Alarmed(s')
  {
    assert Entry(s, s.unused);
  }

  lemma ArmKeeps(s: State, t: Tid, a: Act)
    requires Inv(s) && s.Pc(t).Arm?
    ensures Inv(Step(s, t, a))
  {
    var s' := Step(s, t, a);
    if s.lock.Open? {
      ArmThreads(s, t, s');
      ArmEntries(s, t, s');
      ArmAlarm(s, t, s');
    }
  }

  lemma SleepThreads(s: State, t: Tid, a: Act)
    requires Inv(s) && (s.Pc(t).Sleep? || s.Pc(t).Woken?)
    ensures forall u: Tid :: Thread(Step(s, t, a), u)
  {
    var s' := Step(s, t, a);
    assert Thread(s, t);
    forall u ensures Thread(s', u) {
      assert Thread(s, u);
      if u != t && s' != s { ThreadFrame(s, s', u); }
    }
  }

  lemma SleepKeeps(s: State, t: Tid, a: Act)
    requires Inv(s) && (s.Pc(t).Sleep? || s.Pc(t).Woken?)
    ensures Inv(Step(s, t, a))
  {
    var s' := Step(s, t, a);
    if s' != s {
      SleepThreads(s, t, a);
      assert Thread(s, t);
      forall i ensures Entry(s', i) { assert Entry(s, i); }
      if s.lock.Held? {
        assert Thread(s, s.lock.t);
        SectionFrame(s, s');
      }
    }
  }

  lemma EraseKeeps(s: State, t: Tid, a: Act)
    requires Inv(s) && s.Pc(t).Erase?
    ensures Inv(Step(s, t, a))
  {
    assert Thread(s, t) && Entry(s, s.Pc(t).sid);
    if s.Pc(t).sid in s.expired {
      EraseSkips(s, t, Step(s, t, a));
    } else if s.lock.Open? {
      EraseErases(s, t, Step(s, t, a));
    }
  }

  lemma EraseSkips(s: State, t: Tid, s': State)
    requires Inv(s) && s.Pc(t).Erase? && s.Pc(t).sid in s.expired && s' == s.Go(t, Idle)
    ensures Inv(s')
  {
    assert Thread(s, t);
    forall u ensures Thread(s', u) {
      assert Thread(s, u);
      if u != t { ThreadFrame(s, s', u); }
    }
    forall j ensures Entry(s', j) { assert Entry(s, j); }
    if s.lock.Held? {
      assert Thread(s, s.lock.t) && Entry(s, s.Pc(t).sid);
      SectionFrame(s, s');
    }
  }

  lemma EraseErases(s: State, t: Tid, s': State)
    requires Inv(s) && s.Pc(t).Erase? && s.lock.Open? && s.Pc(t).sid !in s.expired
    requires s' == s.Go(t, Idle).Drop(s.Pc(t).sid)
    ensures Inv(s')
  {
    assert Thread(s, t);
    forall u ensures Thread(s', u) {
      assert Thread(s, u);
      if u != t { ThreadFrame(s, s', u); }
    }
    forall j ensures Entry(s', j) { assert Entry(s, j); }
  }

  // inside checkExpiry

  lemma LockKeeps(s: State, t: Tid, a: Act)
    requires Inv(s) && s.Pc(t).Lock?
    ensures Inv(Step(s, t, a))
  {
    var s' := Step(s, t, a);
    assert Thread(s, t);
    if s.lock.Open? {
      forall u ensures Thread(s', u) { assert Thread(s, u); }
      forall i ensures Entry(s', i) { assert Entry(s, i); }
    }
  }

  /** The run releases the lock, having armed the next deadline if there is one. */
  lemma EndKeeps(s: State, t: Tid, s': State)
    requires Inv(s) && s.Pc(t).Scan?
    requires s' == s.Go(t, Idle).(lock := Open, runs := s.runs - {t}, alarm := s'.alarm, pending := s'.pending)
    requires Alarmed(s')
    ensures Inv(s')
  {
    assert Thread(s, t);
    forall u ensures Thread(s', u) { assert Thread(s, u); }
    forall i ensures Entry(s', i) { assert Entry(s, i); }
  }

  lemma ScanKeeps(s: State, t: Tid, a: Act)
    requires Inv(s) && s.Pc(t).Scan?
    ensures Inv(Step(s, t, a))
  {
    if s.entries == map[] || (Front(s, a) && s.entries[a.sid] > s.Pc(t).now) {
      EndKeeps(s, t, Step(s, t, a));
    } else if Front(s, a) {
      RaceKeeps(s, t, a);
    }
  }

  /** The entry that a run handles belongs to a suspension that is not over. */
  lemma RaceIsCurrent(s: State, t: Tid, i: Suspension)
    requires Inv(s) && s.Pc(t).Scan? && i in s.entries
    ensures Current(s, i) && i !in s.expired
    ensures s.Info(s.Owner(i)).Nobody? ==> s.Pc(s.Owner(i)) == Sleep(i)
    ensures s.Info(s.Owner(i)).Nobody? || s.Info(s.Owner(i)).Other?
  {
    assert Thread(s, t) && Entry(s, i) && Thread(s, s.Owner(i));
  }

  lemma RaceKeeps(s: State, t: Tid, a: Act)
    requires Inv(s) && s.Pc(t).Scan? && Front(s, a) && s.entries[a.sid] <= s.Pc(t).now
    ensures Inv(Step(s, t, a))
  {
    var now := s.Pc(t).now;
    RaceIsCurrent(s, t, a.sid);
    assert Thread(s, t);
    if s.Info(s.Owner(a.sid)).Nobody? {
      RaceWon(s, t, a.sid, now, Step(s, t, a));
    } else {
      RaceLost(s, t, a.sid, now, Step(s, t, a));
    }
  }

  lemma RaceWon(s: State, t: Tid, i: Suspension, now: nat, s': State)
    requires Inv(s) && s.Pc(t) == Scan(now) && i in s.entries && s.entries[i] <= now && s.lock == Held(t)
    requires s.Pc(s.Owner(i)) == Sleep(i) && s.Info(s.Owner(i)).Nobody?
    requires s' == s.Go(t, Resume(i, now)).(info := s.info[s.Owner(i) := Timer])
    ensures Inv(s')
  {
    assert Thread(s, s.Owner(i)) && Thread(s, t) && Entry(s, i);
    forall u ensures Thread(s', u) { assert Thread(s, u); }
    forall j ensures Entry(s', j) { assert Entry(s, j); }
  }

  lemma RaceLost(s: State, t: Tid, i: Suspension, now: nat, s': State)
    requires Inv(s) && s.Pc(t) == Scan(now) && i in s.entries && s.entries[i] <= now && s.lock == Held(t)
    requires Current(s, i) && s.Info(s.Owner(i)).Other?
    requires s' == s.Go(t, Expire(i, now))
    ensures Inv(s')
  {
    assert Thread(s, t);
    forall u ensures Thread(s', u) { assert Thread(s, u); }
    forall j ensures Entry(s', j) { assert Entry(s, j); }
  }

  lemma HandleKeeps(s: State, t: Tid, a: Act)
    requires Inv(s) && (s.Pc(t).Resume? || s.Pc(t).Expire?)
    ensures Inv(Step(s, t, a))
  {
    var s' := Step(s, t, a);
    assert Thread(s, t);
    assert Thread(s, s.Owner(s.Pc(t).sid));
    forall u ensures Thread(s', u) { assert Thread(s, u); }
    forall i ensures Entry(s', i) { assert Entry(s, i); }
  }

  lemma EraseEntryKeeps(s: State, t: Tid, a: Act)
    requires Inv(s) && s.Pc(t).EraseEntry?
    ensures Inv(Step(s, t, a))
  {
    var s' := Step(s, t, a);
    assert Thread(s, t);
    forall u ensures Thread(s', u) { assert Thread(s, u); }
    forall i ensures Entry(s', i) { assert Entry(s, i); }
  }

  lemma StepKeeps(s: State, t: Tid, a: Act)
    requires Inv(s)
    ensures Inv(Step(s, t, a))
  {
    match s.Pc(t) {
      case Idle => BeginKeeps(s, t, a);
      case Arm(_) => ArmKeeps(s, t, a);
      case Erase(_) => EraseKeeps(s, t, a);
      case Lock(_) => LockKeeps(s, t, a);
      case Scan(_) => ScanKeeps(s, t, a);
      case Resume(_, _) => HandleKeeps(s, t, a);
      case Expire(_, _) => HandleKeeps(s, t, a);
      case EraseEntry(_, _) => EraseEntryKeeps(s, t, a);
      case _ => SleepKeeps(s, t, a);
    }
  }

  // ------------------------------------------------------------- the theorems

  function Run(sched: seq<(Tid, Act)>): State {
    if sched == [] then Init()
    else Step(Run(sched[..|sched| - 1]), sched[|sched| - 1].0, sched[|sched| - 1].1)
  }

  lemma {:induction false} EveryRun(sched: seq<(Tid, Act)>)
    ensures Inv(Run(sched))
  {
    if sched == [] {
      InitInv();
    } else {
      EveryRun(sched[..|sched| - 1]);
      StepKeeps(Run(sched[..|sched| - 1]), sched[|sched| - 1].0, sched[|sched| - 1].1);
    }
  }

  /** In every run an entry is erased at most once, and exactly once when the call of
      blockTimeout has returned and no run is at work on it. */
  lemma {:induction false} ErasedOnce(sched: seq<(Tid, Act)>, i: Suspension)
    ensures var s := Run(sched);
      && s.Erases(i) <= 1
      && (i < s.unused && !Current(s, i) && s.lock.Open? ==> s.Erases(i) == 1 && i !in s.entries)
  {
    EveryRun(sched);
    assert Entry(Run(sched), i);
  }

  /** Whoever erases, fred or run, finds the entry in the queue and takes it out. */
  lemma ErasesPresent(s: State, t: Tid, a: Act)
    requires Inv(s) && (s.Pc(t).EraseEntry? || (s.Pc(t).Erase? && s.Pc(t).sid !in s.expired && s.lock.Open?))
    ensures s.Pc(t).sid in s.entries && s.Erases(s.Pc(t).sid) == 0
    ensures Step(s, t, a).entries == s.entries - {s.Pc(t).sid}
  {
    assert Thread(s, t) && Entry(s, s.Pc(t).sid);
  }

  /** When the timer wins a race it is that of the suspension the entry was made for, the
      fred still sleeps in it, and the deadline has passed. */
  lemma WinsOwnSuspension(s: State, t: Tid, a: Act)
    requires Inv(s) && s.Pc(t).Scan? && Step(s, t, a).Pc(t).Resume?
    ensures a.Pick? && a.sid in s.entries && s.entries[a.sid] <= s.clock
    ensures s.Pc(s.Owner(a.sid)) == Sleep(a.sid)
    ensures Step(s, t, a).info == s.info[s.Owner(a.sid) := Timer]
  {
    assert Thread(s, t);
    RaceIsCurrent(s, t, a.sid);
  }

  /** No deadline is forgotten: an overdue entry's timer can fire, has fired, or a run of
      checkExpiry is under way. */
  lemma {:induction false} OverdueIsSeen(sched: seq<(Tid, Act)>, i: Suspension)
    requires var s := Run(sched); i in s.entries && s.entries[i] <= s.clock
    ensures var s := Run(sched); s.pending || s.runs != {} || (s.alarm.Armed? && s.alarm.deadline <= s.clock)
  {
    EveryRun(sched);
  }

  /** While entries remain, the armed deadline is at most the smallest one, or an expiry
      run is due or under way. */
  lemma {:induction false} ArmedInTime(sched: seq<(Tid, Act)>)
    ensures var s := Run(sched);
      s.entries == map[] || s.pending || s.runs != {} ||
      (s.alarm.Armed? && forall i :: i in s.entries ==> s.alarm.deadline <= s.entries[i])
  {
    EveryRun(sched);
  }

  // ------------------------------------------- what calls answer, and progress

  /** A run of checkExpiry ends only when no entry is left that was due when it began; the
      timer is armed for the next one. */
  lemma {:induction false} RunLeavesNoneDue(sched: seq<(Tid, Act)>, t: Tid, a: Act)
    requires Run(sched).Pc(t).Scan? && Step(Run(sched), t, a).Pc(t).Idle?
    ensures var s, s' := Run(sched), Step(Run(sched), t, a);
      && s'.entries == s.entries && (forall i :: i in s.entries ==> s.entries[i] > s.Pc(t).now)
      && (s.entries != map[] ==> s'.alarm.Armed? && s'.alarm.deadline > s.Pc(t).now && s'.Minimal(s'.alarm.deadline))
      && s'.lock.Open?
  {
    EveryRun(sched);
    assert Thread(Run(sched), t);
    EndsRun(Run(sched), t, a);
  }

  lemma EndsRun(s: State, t: Tid, a: Act)
    requires s.Pc(t).Scan? && Turn(s, t, s.Pc(t).now, a).Pc(t).Idle?
    ensures var s' := Turn(s, t, s.Pc(t).now, a);
      && s'.entries == s.entries && (forall i :: i in s.entries ==> s.entries[i] > s.Pc(t).now)
      && (s.entries != map[] ==> s'.alarm.Armed? && s'.alarm.deadline > s.Pc(t).now && s'.Minimal(s'.alarm.deadline))
      && s'.lock.Open?
  {
    assert s.entries != map[] ==> Front(s, a) && s.entries[a.sid] > s.Pc(t).now;
  }

  /** The front entry, if it is due, has its race entered: it is won exactly if nobody else
      has won it before. */
  lemma {:induction false} DueIsHandled(sched: seq<(Tid, Act)>, t: Tid, i: Suspension)
    requires var s := Run(sched);
      s.Pc(t).Scan? && i in s.entries && s.Minimal(s.entries[i]) && s.entries[i] <= s.Pc(t).now
    ensures var s, s' := Run(sched), Step(Run(sched), t, Pick(i));
      && (s'.Pc(t).Resume? || s'.Pc(t).Expire?) && s'.Pc(t).sid == i
      && (s'.Pc(t).Resume? <==> s.Info(s.Owner(i)).Nobody?) && (s'.Pc(t).Resume? <==> s'.Info(s.Owner(i)).Timer?)
  {
    EveryRun(sched);
    var s := Run(sched);
    assert Thread(s, t);
    RaceIsCurrent(s, t, i);
  }

  /** Before a run erases an entry it has resumed the fred, or marked its node expired. */
  lemma {:induction false} HandledBeforeErased(sched: seq<(Tid, Act)>, t: Tid)
    requires Run(sched).Pc(t).EraseEntry?
    ensures var s := Run(sched); var i := s.Pc(t).sid; var f := s.Owner(i);
      Current(s, i) ==>
        || i in s.expired
        || (s.Info(f).Timer? && (s.Pc(f) == Sleep(i) ==> f in s.posted))
  {
    EveryRun(sched);
    var s := Run(sched);
    assert Thread(s, t) && Thread(s, s.Owner(s.Pc(t).sid));
  }

  /** blockTimeout reports a timeout exactly if the timer has won, and never early. */
  lemma {:induction false} TimesOutIff(sched: seq<(Tid, Act)>, t: Tid, a: Act)
    requires Run(sched).Pc(t).Woken?
    ensures var s, s' := Run(sched), Step(Run(sched), t, a);
      && (s'.Pc(t).Idle? <==> s.Info(t).Timer?) && (s'.Pc(t).Idle? ==> s.Due(s.Pc(t).sid) <= s.clock)
      && (s'.Pc(t) == Erase(s.Pc(t).sid) <==> s.Info(t).Other?)
  {
    EveryRun(sched);
    assert Thread(Run(sched), t);
  }

  lemma {:induction false} HasFront(s: State, ids: set<Suspension>) returns (i: Suspension)
    requires ids != {} && ids <= s.entries.Keys
    ensures i in ids && forall j :: j in ids ==> s.entries[i] <= s.entries[j]
    decreases |ids|
  {
    i :| i in ids;
    if ids != {i} {
      var k := HasFront(s, ids - {i});
      if s.entries[k] < s.entries[i] { i := k; }
    }
  }

  /** No deadlock: unless it is a fred asleep with an open race, whoever is in a call can go
      on, or the lock holder can. */
  lemma {:induction false} NoDeadlock(sched: seq<(Tid, Act)>, t: Tid) returns (u: Tid, a: Act)
    requires var s := Run(sched); !s.Pc(t).Idle? && !(s.Pc(t).Sleep? && s.Info(t).Nobody?)
    ensures var s := Run(sched); !s.Pc(u).Idle? && Step(s, u, a).Pc(u) != s.Pc(u)
  {
    EveryRun(sched);
    var s := Run(sched);
    assert Thread(s, t);
    u, a := if s.lock.Held? then s.lock.t else t, Fire;
    assert Thread(s, u);
    if s.Pc(u).Scan? { a := ScanMoves(s, u); } else { OthersMove(s, u, a); }
  }

  lemma OthersMove(s: State, u: Tid, a: Act)
    requires Thread(s, u) && !s.Pc(u).Idle? && !s.Pc(u).Scan? && (s.lock.Open? || s.lock == Held(u))
    requires s.Pc(u).Sleep? ==> u in s.posted
    ensures Step(s, u, a).Pc(u) != s.Pc(u)
  {}

  lemma ScanMoves(s: State, u: Tid) returns (a: Act)
    requires s.Pc(u).Scan?
    ensures Turn(s, u, s.Pc(u).now, a).Pc(u) != s.Pc(u)
  {
    a := Fire;
    if s.entries != map[] {
      assert s.entries.Keys != {};
      var i := HasFront(s, s.entries.Keys);
      a := Pick(i);
    }
  }

  // ------------------------------------------------- calls that run undisturbed

  /** n steps of t while nobody else moves; an idle t begins a. */
  function Alone(s: State, t: Tid, a: Act, n: nat): State
    decreases n
  {
    if n == 0 then s else Step(Alone(s, t, a, n - 1), t, a)
  }

  /** blockTimeout enters its deadline, arms the timer if that is the smallest, and sleeps. */
  lemma BlocksAlone(s: State, t: Tid, d: nat)
    requires s.Pc(t).Idle? && s.lock.Open?
    ensures var s' := Alone(s, t, Block(d), 2);
      && s'.Pc(t) == Sleep(s.unused) && s'.Info(t).Nobody? && s'.entries == s.entries[s.unused := d] && s'.lock.Open?
      && s'.alarm == if forall j :: j in s.entries ==> d < s.entries[j] then Armed(d) else s.alarm
  {
    assert Alone(s, t, Block(d), 1).Pc(t) == Arm(d);
  }

  /** The timer does not fire early. */
  lemma {:induction false} FiresOnlyDue(sched: seq<(Tid, Act)>, t: Tid, a: Act)
    requires Run(sched).Pc(t).Idle? && !Run(sched).pending && Step(Run(sched), t, a).pending
    ensures var s := Run(sched); s.alarm.Armed? && s.alarm.deadline <= s.clock && Step(s, t, a).alarm.Off?
  {}

  /** An armed timer fires when its deadline has passed, ... */
  lemma FiresAlone(s: State, t: Tid, n: nat)
    requires s.Pc(t).Idle? && s.alarm.Armed? && s.alarm.deadline <= s.clock + n
    ensures var s' := Step(Step(s, t, Tick(n)), t, Fire); s'.pending && s'.alarm.Off? && s'.clock == s.clock + n
  {}

  /** ... a run of checkExpiry looks at the clock and takes the lock, ... */
  lemma RunsAlone(s: State, t: Tid)
    requires s.Pc(t).Idle? && s.lock.Open?
    ensures var s' := Alone(s, t, Check, 2);
      s'.Pc(t) == Scan(s.clock) && s'.lock == Held(t) && s'.entries == s.entries && !s'.pending
  {
    assert Alone(s, t, Check, 1).Pc(t) == Lock(s.clock);
  }

  /** ... resumes the fred of the front entry if that is due, and erases the entry, ... */
  lemma TurnAlone(s: State, t: Tid, i: Suspension)
    requires s.Pc(t).Scan? && i in s.entries && s.Minimal(s.entries[i]) && s.entries[i] <= s.Pc(t).now
    ensures var s', f := Alone(s, t, Pick(i), 3), s.Owner(i);
      && s'.Pc(t) == s.Pc(t) && s'.entries == s.entries - {i}
      && (if s.Info(f).Nobody? then f in s'.posted && s'.Info(f).Timer? else i in s'.expired && s'.Info(f) == s.Info(f))
  {
    assert Alone(s, t, Pick(i), 1).Pc(t) == if s.Info(s.Owner(i)).Nobody? then Resume(i, s.Pc(t).now) else Expire(i, s.Pc(t).now);
    assert Alone(s, t, Pick(i), 2).Pc(t) == EraseEntry(i, s.Pc(t).now);
  }

  /** ... and ends when nothing is left. */
  lemma EndsAlone(s: State, t: Tid, a: Act)
    requires s.Pc(t).Scan? && s.entries == map[]
    ensures Step(s, t, a).Pc(t).Idle? && Step(s, t, a).lock.Open? && Step(s, t, a).entries == map[]
  {}

  /** A fred that another waker resumes erases its entry and returns. */
  lemma WokenAlone(s: State, u: Tid, t: Tid, i: Suspension)
    requires s.Pc(u).Idle? && s.Pc(t) == Sleep(i) && s.Info(t).Nobody? && s.lock.Open? && i in s.entries && i !in s.expired
    ensures var s' := Alone(Step(s, u, Wake(t)), t, Check, 3);
      s'.Pc(t).Idle? && s'.entries == s.entries - {i} && s'.Info(t).Other? && s'.lock.Open?
  {
    var s1 := Step(s, u, Wake(t));
    assert Alone(s1, t, Check, 1).Pc(t) == Woken(i);
    assert Alone(s1, t, Check, 2).Pc(t) == Erase(i);
  }
}
