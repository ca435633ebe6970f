/** LockedRWLock for any number of freds with untimed, timed and try acquires.  A section
    under the internal lock is one step; a timer may decide a sleeping fred's race in
    between.  A fred in a wait queue is undecided while it sleeps; one whose timer has won
    stays in the queue until it removes its own node. */
module RWLock {
  import opened Memory
  import opened Wrappers

  datatype Kind = Read | Write

  datatype Mode = Untimed | Timed | Try

  datatype Pc =
    | Idle
    | Want(kind: Kind, mode: Mode)       // acquireRead or acquireWrite
    | Sleep(kind: Kind, timed: bool)
    | Cleanup(kind: Kind)                // the timer has won: remove the own node
    | Chain                              // a reader woken up: lock, unblock the next reader
    | Wake(f: Tid, holds: bool)          // next->resume() after the section
    | Hold(kind: Kind)

  datatype Act = Acquire(kind: Kind, mode: Mode) | Late | Expire | Release | Go

  datatype State = State(
    state: int,                // -1 writer, 0 open, > 0 readers
    bqR: seq<Tid>,
    bqW: seq<Tid>,
    pc: map<Tid, Pc>,
    posted: set<Tid>,          // freds resumed and not yet returned from suspend
    readers: set<Tid>,         // history: granted and not released
    writers: set<Tid>,         // history: granted and not released
    waker: map<Tid, Tid>)      // history: who owes a granted sleeper its resume
  {
    function Pc(t: Tid): Pc { if t in pc then pc[t] else Idle }
    function Waker(t: Tid): Tid { if t in waker then waker[t] else 0 }
    function To(t: Tid, p: Pc): State { this.(pc := pc[t := p]) }
  }

  function Init(): State { State(0, [], [], map[], {}, {}, {}, map[]) }

  // ---------------------------------------------------------------- the steps

  /** BlockingQueue::unblock: the first fred that still sleeps undecided. */
  function Pick(s: State, q: seq<Tid>): (r: Option<Tid>)
    ensures r.Some? ==> r.value in q && s.Pc(r.value).Sleep?
    ensures r.None? ==> forall t :: t in q ==> !s.Pc(t).Sleep?
  {
    if q == [] then None else if s.Pc(q[0]).Sleep? then Some(q[0]) else Pick(s, q[1..])
  }

  function GrantRead(s: State, t: Tid, f: Tid, holds: bool): State {
    s.(pc := s.pc[t := Wake(f, holds)], state := s.state + 1, bqR := Without(s.bqR, f),
       readers := s.readers + {f}, waker := s.waker[f := t])
  }

  function GrantWrite(s: State, t: Tid, f: Tid): State {
    s.(pc := s.pc[t := Wake(f, false)], state := s.state - 1, bqW := Without(s.bqW, f),
       writers := s.writers + {f}, waker := s.waker[f := t])
  }

  /** A wait with this mode gives up at once. */
  predicate GivesUp(mode: Mode, a: Act) { mode.Try? || (mode.Timed? && a.Late?) }

  predicate Acquiring(p: Pc) { p.Idle? || p.Want? || p.Sleep? || p.Cleanup? || p.Wake? }

  function AcquireStep(s: State, t: Tid, a: Act): State {
    match s.Pc(t)
    case Idle => if a.Acquire? then s.To(t, Want(a.kind, a.mode)) else s
    case Want(kind, mode) =>
      if kind.Read? then
        if s.state >= 0 && s.bqW == [] then s.(pc := s.pc[t := Hold(Read)], state := s.state + 1, readers := s.readers + {t})
        else if GivesUp(mode, a) then s.To(t, Idle)
        else s.(pc := s.pc[t := Sleep(Read, mode.Timed?)], bqR := s.bqR + [t])
      else
        if s.state == 0 then s.(pc := s.pc[t := Hold(Write)], state := s.state - 1, writers := s.writers + {t})
        else if GivesUp(mode, a) then s.To(t, Idle)
        else s.(pc := s.pc[t := Sleep(Write, mode.Timed?)], bqW := s.bqW + [t])
    case Sleep(kind, timed) =>
      if t in s.posted then
        s.(pc := s.pc[t := if kind.Read? then Chain else Hold(Write)], posted := s.posted - {t})
      else if timed && a.Expire? && (t in s.bqR || t in s.bqW) then s.To(t, Cleanup(kind))
      else s
    case Cleanup(kind) =>
      if kind.Read? then s.(pc := s.pc[t := Idle], bqR := Without(s.bqR, t))
      else s.(pc := s.pc[t := Idle], bqW := Without(s.bqW, t))
    case Wake(f, holds) => s.(pc := s.pc[t := if holds then Hold(Read) else Idle], posted := s.posted + {f})
    case _ => s
  }

  /** The end of a reader's wake-up, and release. */
  function HolderStep(s: State, t: Tid, a: Act): State {
    match s.Pc(t)
    case Chain => if Pick(s, s.bqR).Some? then GrantRead(s, t, Pick(s, s.bqR).value, true) else s.To(t, Hold(Read))
    case Hold(kind) =>
      if !a.Release? then s
      else if s.state > 0 then
        var s' := s.(state := s.state - 1, readers := s.readers - {t});
        if s.state - 1 > 0 then s'.To(t, Idle)
        else if Pick(s, s.bqW).Some? then GrantWrite(s', t, Pick(s, s.bqW).value)
        else if Pick(s, s.bqR).Some? then GrantRead(s', t, Pick(s, s.bqR).value, false)
        else s'.To(t, Idle)
      else
        var s' := s.(state := s.state + 1, writers := s.writers - {t});
        if Pick(s, s.bqR).Some? then GrantRead(s', t, Pick(s, s.bqR).value, false)
        else if Pick(s, s.bqW).Some? then GrantWrite(s', t, Pick(s, s.bqW).value)
        else s'.To(t, Idle)
    case _ => s
  }

  function Step(s: State, t: Tid, a: Act): State {
    if Acquiring(s.Pc(t)) then AcquireStep(s, t, a) else HolderStep(s, t, a)
  }

  // ------------------------------------------------------------ the invariant

  predicate Reads(s: State, t: Tid) {
    s.Pc(t) == Hold(Read) || s.Pc(t).Chain? || (s.Pc(t).Wake? && s.Pc(t).holds) ||
    (s.Pc(t).Sleep? && s.Pc(t).kind.Read? && t !in s.bqR)
  }

  predicate Writes(s: State, t: Tid) {
    s.Pc(t) == Hold(Write) || (s.Pc(t).Sleep? && s.Pc(t).kind.Write? && t !in s.bqW)
  }

  predicate Thread(s: State, t: Tid) {
    && (t in s.readers <==> Reads(s, t))
    && (t in s.writers <==> Writes(s, t))
    && (t in s.bqR ==> (s.Pc(t).Sleep? || s.Pc(t).Cleanup?) && s.Pc(t).kind.Read?)
    && (t in s.bqW ==> (s.Pc(t).Sleep? || s.Pc(t).Cleanup?) && s.Pc(t).kind.Write?)
    && (s.Pc(t).Cleanup? ==> if s.Pc(t).kind.Read? then t in s.bqR else t in s.bqW)
    && (t in s.posted ==> s.Pc(t).Sleep? && (t in s.readers || t in s.writers))
    && (s.Pc(t).Sleep? && t !in s.bqR && t !in s.bqW && t !in s.posted ==>
          s.Pc(s.Waker(t)).Wake? && s.Pc(s.Waker(t)).f == t)
    && (s.Pc(t).Wake? ==> Owed(s, t, s.Pc(t).f))
  }

  predicate Owed(s: State, t: Tid, f: Tid) {
    s.Waker(f) == t && s.Pc(f).Sleep? && f !in s.bqR && f !in s.bqW && f !in s.posted
  }

  /** The state word is faithful. */
  predicate Faithful(s: State) {
    if s.writers == {} then s.state == |s.readers|
    else |s.writers| == 1 && s.readers == {} && s.state == -1
  }

  ghost predicate Inv(s: State) {
    Faithful(s) && Distinct(s.bqR) && Distinct(s.bqW) && forall t: Tid :: Thread(s, t)
  }

  // ------------------------------------------------------ every step keeps it

  lemma InitInv()
    ensures Inv(Init())
  {}

  lemma Pushed(q: seq<Tid>, t: Tid)
    ensures forall u :: u in q + [t] <==> u in q || u == t
  {}

  lemma WantThread(s: State, t: Tid, a: Act, u: Tid)
    requires Thread(s, t) && Thread(s, u) && s.Pc(t).Want?
    ensures Thread(AcquireStep(s, t, a), u)
  {
    Pushed(s.bqR, t);
    Pushed(s.bqW, t);
    if u == t { WantOwnThread(s, t, a); }
  }

  lemma WantOwnThread(s: State, t: Tid, a: Act)
    requires Thread(s, t) && s.Pc(t).Want?
    ensures Thread(AcquireStep(s, t, a), t)
  {
    Pushed(s.bqR, t);
    Pushed(s.bqW, t);
  }

  lemma CleanupThread(s: State, t: Tid, a: Act, u: Tid)
    requires Thread(s, t) && Thread(s, u) && s.Pc(t).Cleanup? && Distinct(s.bqR) && Distinct(s.bqW)
    ensures Thread(AcquireStep(s, t, a), u)
  {
    if s.Pc(t).kind.Read? { RemoveOne(s.bqR, t); } else { RemoveOne(s.bqW, t); }
  }

  lemma SleepThread(s: State, t: Tid, a: Act, u: Tid)
    requires Thread(s, t) && Thread(s, u) && (s.Pc(t).Idle? || s.Pc(t).Sleep?)
    ensures Thread(AcquireStep(s, t, a), u)
  {}

  lemma WakeThread(s: State, t: Tid, a: Act, u: Tid)
    requires Thread(s, t) && Thread(s, u) && s.Pc(t).Wake? && Thread(s, s.Pc(t).f)
    ensures Thread(AcquireStep(s, t, a), u)
  {}

  /** Granting to a fred of the readers' queue, by t in state s0. */
  lemma GrantReadThread(s: State, s0: State, t: Tid, f: Tid, holds: bool, u: Tid)
    requires Thread(s, t) && Thread(s, u) && Thread(s, f) && Distinct(s.bqR) && f in s.bqR && s.Pc(f).Sleep?
    requires s0.bqR == s.bqR && s0.bqW == s.bqW && s0.pc == s.pc && s0.posted == s.posted && s0.waker == s.waker
    requires s0.readers == s.readers - {t} && s0.writers == s.writers - {t}
    requires s.Pc(t).Hold? && !holds
    ensures Thread(GrantRead(s0, t, f, holds), u)
  {
    RemoveOne(s.bqR, f);
  }

  lemma ChainThread(s: State, t: Tid, f: Tid, u: Tid)
    requires Thread(s, t) && Thread(s, u) && Thread(s, f) && Distinct(s.bqR) && f in s.bqR && s.Pc(f).Sleep?
    requires s.Pc(t).Chain?
    ensures Thread(GrantRead(s, t, f, true), u)
  {
    RemoveOne(s.bqR, f);
  }

  lemma GrantWriteThread(s: State, s0: State, t: Tid, f: Tid, u: Tid)
    requires Thread(s, t) && Thread(s, u) && Thread(s, f) && Distinct(s.bqW) && f in s.bqW && s.Pc(f).Sleep?
    requires s0.bqR == s.bqR && s0.bqW == s.bqW && s0.pc == s.pc && s0.posted == s.posted && s0.waker == s.waker
    requires s0.readers == s.readers - {t} && s0.writers == s.writers - {t} && s.Pc(t).Hold?
    ensures Thread(GrantWrite(s0, t, f), u)
  {
    RemoveOne(s.bqW, f);
  }

  lemma LeaveThread(s: State, s0: State, t: Tid, u: Tid)
    requires Thread(s, t) && Thread(s, u) && s.Pc(t).Hold?
    requires s0 == s.(state := s0.state, readers := s.readers - {t}, writers := s.writers - {t})
    ensures Thread(s0.To(t, Idle), u)
  {}

  /** The state of a release before it grants the lock on. */
  function Left(s: State, t: Tid): State {
    s.(state := if s.state > 0 then s.state - 1 else s.state + 1, readers := s.readers - {t}, writers := s.writers - {t})
  }

  lemma ReleaseCases(s: State, t: Tid, a: Act)
    requires s.Pc(t).Hold? && a.Release? && (if s.state > 0 then t !in s.writers else t !in s.readers)
    ensures var r, w := Pick(s, s.bqR), Pick(s, s.bqW);
      HolderStep(s, t, a) == Left(s, t).To(t, Idle) ||
      (r.Some? && HolderStep(s, t, a) == GrantRead(Left(s, t), t, r.value, false)) ||
      (w.Some? && HolderStep(s, t, a) == GrantWrite(Left(s, t), t, w.value))
  {
    if s.state > 0 {
      assert s.writers - {t} == s.writers;
      ReadReleased(s, t, a);
    } else {
      assert s.readers - {t} == s.readers;
      WriteReleased(s, t, a);
    }
  }

  lemma ReadReleased(s: State, t: Tid, a: Act)
    requires s.Pc(t).Hold? && a.Release? && s.state > 0 && s.writers - {t} == s.writers
    ensures var r, w := Pick(s, s.bqR), Pick(s, s.bqW);
      HolderStep(s, t, a) ==
        if s.state > 1 || (r.None? && w.None?) then Left(s, t).To(t, Idle)
        else if w.Some? then GrantWrite(Left(s, t), t, w.value)
        else GrantRead(Left(s, t), t, r.value, false)
  {}

  lemma WriteReleased(s: State, t: Tid, a: Act)
    requires s.Pc(t).Hold? && a.Release? && s.state <= 0 && s.readers - {t} == s.readers
    ensures var r, w := Pick(s, s.bqR), Pick(s, s.bqW);
      HolderStep(s, t, a) ==
        if r.Some? then GrantRead(Left(s, t), t, r.value, false)
        else if w.Some? then GrantWrite(Left(s, t), t, w.value)
        else Left(s, t).To(t, Idle)
  {}

  lemma ReleaseThread(s: State, t: Tid, a: Act, u: Tid)
    requires Inv(s) && s.Pc(t).Hold? && a.Release? && Thread(s, t) && Thread(s, u)
    ensures Thread(HolderStep(s, t, a), u)
  {
    var r, w := Pick(s, s.bqR), Pick(s, s.bqW);
    HolderSet(s, t);
    ReleaseCases(s, t, a);
    LeaveThread(s, Left(s, t), t, u);
    if r.Some? { assert Thread(s, r.value); GrantReadThread(s, Left(s, t), t, r.value, false, u); }
    if w.Some? { assert Thread(s, w.value); GrantWriteThread(s, Left(s, t), t, w.value, u); }
  }

  lemma HolderThread(s: State, t: Tid, a: Act, u: Tid)
    requires Inv(s) && !Acquiring(s.Pc(t))
    ensures Thread(HolderStep(s, t, a), u)
  {
    assert Thread(s, t) && Thread(s, u);
    if s.Pc(t).Chain? {
      var r := Pick(s, s.bqR);
      if r.Some? { assert Thread(s, r.value); ChainThread(s, t, r.value, u); }
    } else if a.Release? {
      ReleaseThread(s, t, a, u);
    }
  }

  /** A holder holds the lock the way the state says. */
  lemma HolderSet(s: State, t: Tid)
    requires Inv(s) && s.Pc(t).Hold?
    ensures if s.state > 0 then t in s.readers && s.writers == {}
            else s.state == -1 && s.writers == {t} && s.readers == {}
  {
    assert Thread(s, t);
    if t in s.readers { assert |s.readers| > 0; }
    if t in s.writers { OnlyOne(s.writers, t); }
  }

  lemma OnlyOne(s: set<Tid>, t: Tid)
    requires t in s && |s| == 1
    ensures s == {t}
  {
    assert |s - {t}| == 0;
  }

  lemma StepQueues(s: State, t: Tid, a: Act)
    requires Distinct(s.bqR) && Distinct(s.bqW) && Thread(s, t)
    ensures Distinct(Step(s, t, a).bqR) && Distinct(Step(s, t, a).bqW)
  {
    if s.Pc(t).Want? {
      if t !in s.bqR && t !in s.bqW { AppendDistinct(s.bqR, [t]); AppendDistinct(s.bqW, [t]); }
    } else if s.Pc(t).Cleanup? {
      if s.Pc(t).kind.Read? { RemoveOne(s.bqR, t); } else { RemoveOne(s.bqW, t); }
    } else if !Acquiring(s.Pc(t)) {
      if Pick(s, s.bqR).Some? { RemoveOne(s.bqR, Pick(s, s.bqR).value); }
      if Pick(s, s.bqW).Some? { RemoveOne(s.bqW, Pick(s, s.bqW).value); }
    }
  }

  lemma AcquireFaithful(s: State, t: Tid, a: Act)
    requires Faithful(s) && Thread(s, t) && Acquiring(s.Pc(t))
    ensures Faithful(AcquireStep(s, t, a))
  {
    if s.Pc(t).Want? {
      assert |s.readers + {t}| == |s.readers| + 1 && (s.writers == {} ==> |s.writers + {t}| == 1);
    }
  }

  lemma GrantFaithful(s0: State, t: Tid, f: Tid, holds: bool)
    requires Faithful(s0) && f !in s0.readers && f !in s0.writers
    ensures s0.state >= 0 ==> Faithful(GrantRead(s0, t, f, holds))
    ensures s0.state == 0 ==> Faithful(GrantWrite(s0, t, f))
  {
    assert |s0.readers + {f}| == |s0.readers| + 1;
    assert s0.writers == {} ==> s0.writers + {f} == {f};
  }

  lemma HolderFaithful(s: State, t: Tid, a: Act)
    requires Inv(s) && !Acquiring(s.Pc(t))
    ensures Faithful(HolderStep(s, t, a))
  {
    assert Thread(s, t);
    var r, w := Pick(s, s.bqR), Pick(s, s.bqW);
    assert (r.Some? ==> Thread(s, r.value)) && (w.Some? ==> Thread(s, w.value));
    if s.Pc(t).Chain? {
      assert |s.readers| > 0 by { assert t in s.readers; }
      if r.Some? { GrantFaithful(s, t, r.value, true); }
    } else if a.Release? {
      HolderSet(s, t);
      var s0 := if s.state > 0 then s.(state := s.state - 1, readers := s.readers - {t})
                else s.(state := s.state + 1, writers := s.writers - {t});
      assert Faithful(s0);
      if r.Some? { GrantFaithful(s0, t, r.value, false); }
      if w.Some? { GrantFaithful(s0, t, w.value, false); }
    }
  }

  lemma StepKeeps(s: State, t: Tid, a: Act)
    requires Inv(s)
    ensures Inv(Step(s, t, a))
  {
    var s' := Step(s, t, a);
    assert Thread(s, t) && (s.Pc(t).Wake? ==> Thread(s, s.Pc(t).f));
    StepQueues(s, t, a);
    if Acquiring(s.Pc(t)) { AcquireFaithful(s, t, a); } else { HolderFaithful(s, t, a); }
    forall u ensures Thread(s', u) {
      assert Thread(s, u);
      if !Acquiring(s.Pc(t)) { HolderThread(s, t, a, u); }
      else if s.Pc(t).Want? { WantThread(s, t, a, u); }
      else if s.Pc(t).Cleanup? { CleanupThread(s, t, a, u); }
      else if s.Pc(t).Wake? { WakeThread(s, t, a, u); }
      else { SleepThread(s, t, a, u); }
    }
  }

  // ---------------------------------------------- waiters and the open lock

  /** Some fred still waits to be granted the lock. */
  predicate Undecided(s: State) {
    Pick(s, s.bqR).Some? || Pick(s, s.bqW).Some?
  }

  /** While a fred waits undecided the lock is not open. */
  predicate NotOpen(s: State) {
    Undecided(s) ==> s.state != 0
  }

  /** A reader queues up although the lock is open, because a writer whose timer has won
      has not removed its node yet. */
  predicate BlocksOpen(s: State, t: Tid, a: Act) {
    s.Pc(t).Want? && s.Pc(t).kind.Read? && s.state == 0 && s.bqW != [] && !GivesUp(s.Pc(t).mode, a)
  }

  /** No new undecided fred, unless the step queues one. */
  lemma NoNewWaiter(s: State, s': State)
    requires forall u :: u in s'.bqR && s'.Pc(u).Sleep? ==> u in s.bqR && s.Pc(u).Sleep?
    requires forall u :: u in s'.bqW && s'.Pc(u).Sleep? ==> u in s.bqW && s.Pc(u).Sleep?
    ensures Undecided(s') ==> Undecided(s)
    ensures Pick(s', s'.bqR).Some? ==> Pick(s, s.bqR).Some?
    ensures Pick(s', s'.bqW).Some? ==> Pick(s, s.bqW).Some?
  {}

  lemma WantNotOpen(s: State, t: Tid, a: Act)
    requires Faithful(s) && NotOpen(s) && s.Pc(t).Want?
    ensures NotOpen(AcquireStep(s, t, a)) <==> !BlocksOpen(s, t, a)
  {
    var s' := AcquireStep(s, t, a);
    if BlocksOpen(s, t, a) {
      assert t in s'.bqR by { assert s'.bqR[|s.bqR|] == t; }
    } else if s'.bqR == s.bqR && s'.bqW == s.bqW {
      NoNewWaiter(s, s');
    }
  }

  lemma AcquireNotOpen(s: State, t: Tid, a: Act)
    requires Inv(s) && NotOpen(s) && Acquiring(s.Pc(t)) && !s.Pc(t).Want?
    ensures NotOpen(AcquireStep(s, t, a))
  {
    var s' := AcquireStep(s, t, a);
    assert Thread(s, t);
    if s.Pc(t).Cleanup? {
      if s.Pc(t).kind.Read? { RemoveOne(s.bqR, t); } else { RemoveOne(s.bqW, t); }
    }
    NoNewWaiter(s, s');
  }

  lemma HolderNotOpen(s: State, t: Tid, a: Act)
    requires Inv(s) && NotOpen(s) && !Acquiring(s.Pc(t))
    ensures NotOpen(HolderStep(s, t, a))
  {
    var s' := HolderStep(s, t, a);
    var r, w := Pick(s, s.bqR), Pick(s, s.bqW);
    assert Thread(s, t);
    if s.Pc(t).Chain? {
      assert |s.readers| > 0 by { assert t in s.readers; }
    } else if a.Release? {
      HolderSet(s, t);
      if r.None? && w.None? { NoNewWaiter(s, s'); }
    }
  }

  /** The exact condition: a step from a state where no fred waits for an open lock leads to
      one where a fred does if and only if it is a reader that queues up at the open lock. */
  lemma StrandsIffBlocksOpen(s: State, t: Tid, a: Act)
    requires Inv(s) && NotOpen(s)
    ensures NotOpen(Step(s, t, a)) <==> !BlocksOpen(s, t, a)
  {
    if s.Pc(t).Want? { WantNotOpen(s, t, a); }
    else if Acquiring(s.Pc(t)) { AcquireNotOpen(s, t, a); }
    else { HolderNotOpen(s, t, a); }
  }

  // ------------------------------------------------------------- the theorems

  function After(sched: seq<(Tid, Act)>): State {
    if sched == [] then Init()
    else Step(After(sched[..|sched| - 1]), sched[|sched| - 1].0, sched[|sched| - 1].1)
  }

  lemma {:induction false} EveryRun(sched: seq<(Tid, Act)>)
    ensures Inv(After(sched))
  {
    if sched == [] {
      InitInv();
    } else {
      EveryRun(sched[..|sched| - 1]);
      StepKeeps(After(sched[..|sched| - 1]), sched[|sched| - 1].0, sched[|sched| - 1].1);
    }
  }

  /** No fred waits for an open lock anywhere in the run. */
  predicate NeverOpen(sched: seq<(Tid, Act)>) {
    forall n :: 0 <= n <= |sched| ==> NotOpen(After(sched[..n]))
  }

  /** No step of the run is a reader that queues up at the open lock. */
  predicate NeverBlocksOpen(sched: seq<(Tid, Act)>) {
    forall n :: 0 <= n < |sched| ==> !BlocksOpen(After(sched[..n]), sched[n].0, sched[n].1)
  }

  /** The exact condition for whole runs. */
  lemma {:induction false} NeverOpenIffNeverBlocksOpen(sched: seq<(Tid, Act)>)
    ensures NeverOpen(sched) <==> NeverBlocksOpen(sched)
  {
    if NeverOpen(sched) {
      forall n | 0 <= n < |sched| ensures !BlocksOpen(After(sched[..n]), sched[n].0, sched[n].1) {
        assert NotOpen(After(sched[..n + 1]));
        NextStep(sched, n);
      }
    }
    if NeverBlocksOpen(sched) {
      forall n | 0 <= n <= |sched| ensures NotOpen(After(sched[..n])) { OpenUpTo(sched, n); }
    }
  }

  /** The first n + 1 steps of a run, seen from its n-th state. */
  lemma {:induction false} NextStep(sched: seq<(Tid, Act)>, n: nat)
    requires n < |sched| && NotOpen(After(sched[..n]))
    ensures NotOpen(After(sched[..n + 1])) <==> !BlocksOpen(After(sched[..n]), sched[n].0, sched[n].1)
  {
    EveryRun(sched[..n]);
    assert sched[..n + 1][..n] == sched[..n] && sched[..n + 1][n] == sched[n];
    StrandsIffBlocksOpen(After(sched[..n]), sched[n].0, sched[n].1);
  }

  lemma {:induction false} OpenUpTo(sched: seq<(Tid, Act)>, n: nat)
    requires n <= |sched| && NeverBlocksOpen(sched)
    ensures NotOpen(After(sched[..n]))
    decreases n
  {
    if n > 0 {
      OpenUpTo(sched, n - 1);
      NextStep(sched, n - 1);
    }
  }

  /** In every run, with timeouts and the readers' wake-up chain, state is the number of
      readers granted and not released, or -1 for one writer, which then is alone. */
  lemma {:induction false} StateIsFaithful(sched: seq<(Tid, Act)>)
    ensures var s := After(sched);
      && (s.state == -1 <==> |s.writers| == 1 && s.readers == {})
      && (s.state >= 0 <==> s.writers == {} && s.state == |s.readers|)
  {
    EveryRun(sched);
  }

  lemma {:induction false} WriterIsAlone(sched: seq<(Tid, Act)>, t: Tid, u: Tid)
    requires After(sched).Pc(t) == Hold(Write) && After(sched).Pc(u).Hold?
    ensures t == u && After(sched).state == -1
  {
    EveryRun(sched);
    var s := After(sched);
    assert Thread(s, t) && Thread(s, u);
    HolderSet(s, t);
  }

  /** No timer ever wins. */
  predicate NoExpiry(sched: seq<(Tid, Act)>) {
    forall i :: 0 <= i < |sched| ==> !sched[i].1.Expire?
  }

  /** With untimed acquires a non-empty wait queue means that the lock is not open. */
  lemma {:induction false} UntimedNotOpen(sched: seq<(Tid, Act)>)
    requires NoExpiry(sched)
    ensures var s := After(sched);
      (s.bqR != [] || s.bqW != [] ==> s.state != 0) && forall t: Tid :: !s.Pc(t).Cleanup?
  {
    if sched != [] {
      var before := sched[..|sched| - 1];
      var s, t, a := After(before), sched[|sched| - 1].0, sched[|sched| - 1].1;
      EveryRun(before);
      UntimedNotOpen(before);
      assert sched[|sched| - 1].1 == a;
      AllUndecided(s);
      StrandsIffBlocksOpen(s, t, a);
      NoCleanup(s, t, a);
      StepKeeps(s, t, a);
      AllUndecided(Step(s, t, a));
    }
  }

  lemma NoCleanup(s: State, t: Tid, a: Act)
    requires (forall u: Tid :: !s.Pc(u).Cleanup?) && !a.Expire?
    ensures forall u: Tid :: !Step(s, t, a).Pc(u).Cleanup?
  {
    forall u: Tid ensures !Step(s, t, a).Pc(u).Cleanup? { assert !s.Pc(u).Cleanup? && !s.Pc(t).Cleanup?; }
  }

  lemma AllUndecided(s: State)
    requires Inv(s) && forall u: Tid :: !s.Pc(u).Cleanup?
    ensures s.bqR != [] ==> Pick(s, s.bqR).Some?
    ensures s.bqW != [] ==> Pick(s, s.bqW).Some?
  {
    if s.bqR != [] { assert Thread(s, s.bqR[0]) && s.bqR[0] in s.bqR; }
    if s.bqW != [] { assert Thread(s, s.bqW[0]) && s.bqW[0] in s.bqW; }
  }

  /** No stuck waiter without timeouts: if every fred is idle or asleep with no resume on
      its way, none is asleep. */
  lemma {:induction false} NoStuckSleeper(sched: seq<(Tid, Act)>, f: Tid)
    requires NoExpiry(sched)
    requires var s := After(sched); forall t: Tid :: s.Pc(t).Idle? || (s.Pc(t).Sleep? && t !in s.posted)
    ensures After(sched).Pc(f).Idle?
  {
    EveryRun(sched);
    UntimedNotOpen(sched);
    var s := After(sched);
    forall t: Tid ensures !Reads(s, t) && !Writes(s, t) { assert Thread(s, t); assert !s.Pc(s.Waker(t)).Wake?; }
    assert s.readers == {} by { forall t: Tid ensures t !in s.readers { assert Thread(s, t); } }
    assert s.writers == {} by { forall t: Tid ensures t !in s.writers { assert Thread(s, t); } }
    assert Thread(s, f);
  }

  lemma {:induction false} Then(sched: seq<(Tid, Act)>, t: Tid, a: Act) returns (sched': seq<(Tid, Act)>)
    ensures After(sched') == Step(After(sched), t, a)
  {
    sched' := sched + [(t, a)];
    assert sched'[..|sched|] == sched;
  }

  /** Reader 0 holds the lock and writer 1 waits with a deadline. */
  lemma WriterWaits() returns (sched: seq<(Tid, Act)>)
    ensures var s := After(sched);
      && s.state == 1 && s.bqR == [] && s.bqW == [1] && s.Pc(1) == Sleep(Write, true) && 1 !in s.posted
      && s.Pc(0) == Hold(Read) && s.Pc(2).Idle?
  {
    sched := Then([], 0, Acquire(Read, Untimed));
    sched := Then(sched, 0, Go);
    assert After(sched).Pc(0) == Hold(Read) && After(sched).state == 1;
    sched := Then(sched, 1, Acquire(Write, Timed));
    assert After(sched).Pc(1) == Want(Write, Timed);
    sched := Then(sched, 1, Go);
  }

  /** The timer of writer 1 has won, and reader 0 has left. */
  lemma WriterTimedOut() returns (sched: seq<(Tid, Act)>)
    ensures var s := After(sched);
      && s.state == 0 && s.bqR == [] && s.bqW == [1] && s.Pc(1) == Cleanup(Write)
      && s.Pc(0).Idle? && s.Pc(2).Idle?
  {
    sched := WriterWaits();
    sched := Then(sched, 1, Expire);
    assert After(sched).Pc(1) == Cleanup(Write) && Pick(After(sched), [1]).None?;
    sched := Then(sched, 0, Release);
  }

  /** With a timeout a reader can be left asleep at an open lock with nobody to wake it. */
  lemma TimedReaderStranded() returns (sched: seq<(Tid, Act)>)
    ensures var s := After(sched);
      && s.state == 0 && s.bqR == [2] && s.bqW == [] && s.Pc(2) == Sleep(Read, false) && 2 !in s.posted
      && s.Pc(0).Idle? && s.Pc(1).Idle?
  {
    sched := WriterTimedOut();
    EveryRun(sched);
    assert Thread(After(sched), 2);
    sched := Then(sched, 2, Acquire(Read, Untimed));
    sched := Then(sched, 2, Go);
    assert After(sched).bqR == [2];
    sched := Then(sched, 1, Go);
    assert Without([1], 1) == [];
  }

  // ------------------------------------------- what calls answer, and progress

  /** A reader gets in by its own acquire exactly if there is no writer inside and none in
      the queue, a writer exactly if the lock is open.  Otherwise a try or late acquire
      fails, and any other queues up last. */
  lemma {:induction false} EntersIff(sched: seq<(Tid, Act)>, t: Tid, a: Act)
    requires After(sched).Pc(t).Want?
    ensures var s, p := After(sched), Step(After(sched), t, a).Pc(t); var kind, mode := s.Pc(t).kind, s.Pc(t).mode;
      && (kind.Read? ==> (p == Hold(Read) <==> s.writers == {} && s.bqW == []))
      && (kind.Write? ==> (p == Hold(Write) <==> s.writers == {} && s.readers == {}))
      && (p.Idle? <==> !p.Hold? && (mode.Try? || (mode.Timed? && a.Late?)))
      && (!p.Hold? && !p.Idle? ==>
            && p == Sleep(kind, mode.Timed?)
            && (if kind.Read? then Step(s, t, a).bqR == s.bqR + [t] else Step(s, t, a).bqW == s.bqW + [t]))
  {
    EveryRun(sched);
    assert |After(sched).readers| == 0 <==> After(sched).readers == {};
  }

  /** f is the first fred of q that sleeps undecided. */
  ghost predicate Foremost(s: State, q: seq<Tid>, f: Tid) {
    exists k :: 0 <= k < |q| && q[k] == f && s.Pc(f).Sleep? && forall j :: 0 <= j < k ==> !s.Pc(q[j]).Sleep?
  }

  lemma {:induction false} PickForemost(s: State, q: seq<Tid>)
    ensures Pick(s, q).Some? ==> Foremost(s, q, Pick(s, q).value)
    ensures Pick(s, q).None? ==> forall t :: t in q ==> !s.Pc(t).Sleep?
  {
    if q != [] && !s.Pc(q[0]).Sleep? {
      PickForemost(s, q[1..]);
      if Pick(s, q).Some? {
        var f := Pick(s, q).value;
        var k :| 0 <= k < |q[1..]| && q[1..][k] == f && forall j :: 0 <= j < k ==> !s.Pc(q[1..][j]).Sleep?;
        forall j | 0 <= j < k + 1 ensures !s.Pc(q[j]).Sleep? { if j > 0 { assert q[j] == q[1..][j - 1]; } }
        assert q[k + 1] == f;
      }
    } else if q != [] {
      assert q[0] == Pick(s, q).value;
    }
  }

  /** release alternates: a writer hands on to the readers and only then to the writers, the
      last reader to the writers and only then to the readers, other readers to nobody; and
      in each queue to the first fred that still waits. */
  lemma {:induction false} ReleaseAlternates(sched: seq<(Tid, Act)>, t: Tid)
    requires After(sched).Pc(t).Hold?
    ensures var s, p := After(sched), Step(After(sched), t, Release).Pc(t);
      var noR, noW := (forall u :: u in s.bqR ==> !s.Pc(u).Sleep?), (forall u :: u in s.bqW ==> !s.Pc(u).Sleep?);
      if s.Pc(t).kind.Read? && s.readers != {t} then p.Idle?
      else if noR && noW then p.Idle?
      else p.Wake? && Foremost(s, if s.Pc(t).kind.Read? then (if noW then s.bqR else s.bqW) else (if noR then s.bqW else s.bqR), p.f)
  {
    EveryRun(sched);
    var s := After(sched);
    assert Thread(s, t);
    PickForemost(s, s.bqR);
    PickForemost(s, s.bqW);
    if s.Pc(t).kind.Read? { assert |s.readers - {t}| == |s.readers| - 1; }
    LastReader(s, t);
    ReleaseNext(s, t);
  }

  lemma LastReader(s: State, t: Tid)
    requires Inv(s) && s.Pc(t).Hold?
    ensures s.Pc(t).kind.Read? ==> s.state > 0 && (s.state == 1 <==> s.readers == {t})
    ensures s.Pc(t).kind.Write? ==> s.state == -1
  {
    assert Thread(s, t);
    if s.Pc(t).kind.Read? { assert |s.readers - {t}| == 0 <==> s.readers - {t} == {}; }
  }

  lemma ReleaseNext(s: State, t: Tid)
    requires s.Pc(t).Hold?
    ensures var r, w, p := Pick(s, s.bqR), Pick(s, s.bqW), HolderStep(s, t, Release).Pc(t);
      p == if s.state > 1 || (r.None? && w.None?) then Idle
           else if s.state > 0 then Wake(if w.Some? then w.value else r.value, false)
           else Wake(if r.Some? then r.value else w.value, false)
  {}

  /** A reader that was granted by another wakes the next waiting reader before it reads. */
  lemma {:induction false} ReadersBarge(sched: seq<(Tid, Act)>, t: Tid, a: Act)
    requires After(sched).Pc(t).Chain?
    ensures var s, p := After(sched), Step(After(sched), t, a).Pc(t);
      if forall u :: u in s.bqR ==> !s.Pc(u).Sleep? then p == Hold(Read)
      else p.Wake? && p.holds && Foremost(s, s.bqR, p.f) && Step(s, t, a).readers == s.readers + {p.f}
  {
    PickForemost(After(sched), After(sched).bqR);
  }

  /** In an acquire without timeout, before it returns. */
  predicate Patient(p: Pc) {
    (p.Want? && p.mode.Untimed?) || (p.Sleep? && !p.timed) || p.Chain? || (p.Wake? && p.holds)
  }

  /** Such an acquire ends in holding the lock only: whoever steps, it stays one until then. */
  lemma {:induction false} PatientEnters(sched: seq<(Tid, Act)>, t: Tid, u: Tid, a: Act)
    requires Patient(After(sched).Pc(t))
    ensures var p := Step(After(sched), u, a).Pc(t); Patient(p) || p.Hold?
  {
    if u != t { OtherPc(After(sched), u, a, t); }
  }

  lemma OtherPc(s: State, t: Tid, a: Act, u: Tid)
    requires u != t
    ensures Step(s, t, a).Pc(u) == s.Pc(u)
  {}

  /** Nobody but its holder's release ends a hold. */
  lemma {:induction false} KeepsUntilRelease(sched: seq<(Tid, Act)>, t: Tid, u: Tid, a: Act)
    requires After(sched).Pc(t).Hold? && (u == t ==> !a.Release?)
    ensures Step(After(sched), u, a).Pc(t) == After(sched).Pc(t)
  {
    if u != t { OtherPc(After(sched), u, a, t); }
  }

  lemma AwakeMoves(s: State, t: Tid) returns (u: Tid)
    requires Inv(s) && !s.Pc(t).Idle? && !s.Pc(t).Hold? && !(s.Pc(t).Sleep? && (t in s.bqR || t in s.bqW))
    ensures !s.Pc(u).Idle? && Step(s, u, Go).Pc(u) != s.Pc(u)
  {
    assert Thread(s, t);
    u := if s.Pc(t).Sleep? && t !in s.posted then s.Waker(t) else t;
  }

  /** No deadlock without timeouts: while a call is under way, some fred holds the lock at
      leisure, or some fred's next step takes its call further. */
  lemma {:induction false} NoDeadlock(sched: seq<(Tid, Act)>, t: Tid) returns (u: Tid)
    requires NoExpiry(sched) && !After(sched).Pc(t).Idle?
    ensures var s := After(sched); s.Pc(u).Hold? || (!s.Pc(u).Idle? && Step(s, u, Go).Pc(u) != s.Pc(u))
  {
    EveryRun(sched);
    var s := After(sched);
    u := t;
    if s.Pc(t).Sleep? && (t in s.bqR || t in s.bqW) {
      UntimedNotOpen(sched);
      assert s.readers + s.writers != {};
      u :| u in s.readers + s.writers;
      assert Thread(s, u);
    }
    if !s.Pc(u).Hold? {
      assert Thread(s, u);
      u := AwakeMoves(s, u);
    }
  }

  // ------------------------------------------------- calls that run undisturbed

  /** The open lock is acquired by every kind of call, ... */
  lemma OpenIsTaken(s: State, t: Tid, kind: Kind, mode: Mode)
    requires s.Pc(t).Idle? && s.state == 0 && s.bqW == []
    ensures var s' := Step(Step(s, t, Acquire(kind, mode)), t, Go);
      s'.Pc(t) == Hold(kind) && s'.state == (if kind.Read? then 1 else -1) && s'.bqR == s.bqR && s'.bqW == s.bqW
  {
    assert Step(s, t, Acquire(kind, mode)).Pc(t) == Want(kind, mode);
  }

  /** ... and the release of its only holder opens it again. */
  lemma LastOpens(s: State, t: Tid)
    requires s.Pc(t).Hold? && s.bqR == [] && s.bqW == [] && (s.state == 1 || s.state == -1)
    ensures var s' := Step(s, t, Release); s'.Pc(t).Idle? && s'.state == 0
  {}

  /** A granted fred returns holding the lock when it has been resumed. */
  lemma GrantedReturns(s: State, t: Tid, f: Tid)
    requires s.Pc(t) == Wake(f, false) && s.Pc(f).Sleep? && f != t && s.bqR == []
    ensures var s' := Step(Step(Step(s, t, Go), f, Go), f, Go);
      s'.Pc(t).Idle? && s'.Pc(f) == Hold(s.Pc(f).kind) && s'.state == s.state
  {
    assert Step(s, t, Go).Pc(f) == s.Pc(f) && f in Step(s, t, Go).posted;
  }

  /** A fred whose timer wins leaves its queue and fails. */
  lemma LoserLeaves(s: State, t: Tid)
    requires s.Pc(t).Sleep? && s.Pc(t).timed && t !in s.posted && (if s.Pc(t).kind.Read? then t in s.bqR else t in s.bqW)
    ensures var s' := Step(Step(s, t, Expire), t, Go);
      && s'.Pc(t).Idle? && s'.state == s.state
      && s'.bqR == (if s.Pc(t).kind.Read? then Without(s.bqR, t) else s.bqR)
      && s'.bqW == (if s.Pc(t).kind.Read? then s.bqW else Without(s.bqW, t))
  {
    assert Step(s, t, Expire).Pc(t) == Cleanup(s.Pc(t).kind);
  }

  /** It loses its race only to its own timer. */
  lemma {:induction false} FailsOnlyTimedOut(sched: seq<(Tid, Act)>, t: Tid, u: Tid, a: Act)
    requires After(sched).Pc(t).Sleep?
    ensures var s, p := After(sched), Step(After(sched), u, a).Pc(t);
      p == s.Pc(t) || (p.Cleanup? && u == t && s.Pc(t).timed && a.Expire?) || (t in s.posted && (p.Chain? || p == Hold(Write)))
  {
    if u != t { OtherPc(After(sched), u, a, t); }
  }
}
