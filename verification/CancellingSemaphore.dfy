/** LimitedTimeoutSemaphore with P, timed P, tryP and V by any number of freds.  Its queue
    is a bag of waiters, of which a pop may take any and may miss all, and from which a
    waiter whose timer wins removes itself.  A counter of n > 1 asks n - 1 searching Vs to
    give up. */
module CancellingSemaphore {
  import opened Memory

  datatype Pc =
    | Idle
    | TryLoad                          // tryP
    | TryCas
    | Load(timed: bool)                // P: prevCounter = counter
    | Cas(timed: bool, prev: int)
    | Push(timed: bool)                // queue.pushAndWaitUntilPopped
    | Wait(timed: bool)
    | OutLoad                          // handleTimeout
    | OutCas(prev: int)
    | Open(c: int)                     // V: compare_exchange(counter, c, c + 1)
    | Find                             // V: queue.tryPop
    | StopLoad                         // V: c = counter
    | StopCas(c: int)                  // V: compare_exchange(counter, c, c - 1)

  /** What an idle fred begins, or a choice: Expire lets the timer win, Pop names the waiter. */
  datatype Act = P(timed: bool) | TryP | V | Expire | Pop(f: Tid) | Go

  /** History: how a P ended. */
  datatype Result = WasOpen | Success | Timeout

  datatype State = State(
    counter: int,
    queue: set<Tid>,
    pc: map<Tid, Pc>,
    last: map<Tid, Result>,
    waiting: set<Tid>,        // history: Ps counted as waiting
    searching: set<Tid>,      // history: Vs that look for a waiter
    patient: set<Tid>,        // history: freds whose last P is without timeout
    openings: nat,              // history: times the semaphore became open
    taken: nat)               // history: Ps that found it open
  {
    function Pc(t: Tid): Pc { if t in pc then pc[t] else Idle }
    function To(t: Tid, p: Pc): State { this.(pc := pc[t := p]) }
    function End(t: Tid, r: Result): State { this.(pc := pc[t := Idle], last := last[t := r]) }
  }

  function Init(value: int): State {
    State(value, {}, map[], map[], {}, {}, {}, if value == 1 then 1 else 0, 0)
  }

  // ---------------------------------------------------------------- the steps

  predicate Taking(p: Pc) {
    p.Idle? || p.TryLoad? || p.TryCas? || p.Load? || p.Cas? || p.Push? || p.Wait? || p.OutLoad? || p.OutCas?
  }

  /** The steps of the three forms of P. */
  function TakeStep(s: State, t: Tid, a: Act): State {
    match s.Pc(t)
    case Idle =>
      if a.P? then
        s.To(t, Load(a.timed)).(patient := if a.timed then s.patient - {t} else s.patient + {t})
      else if a.TryP? then s.To(t, TryLoad).(patient := s.patient - {t})
      else if a.V? then s.To(t, Open(0)) else s
    case TryLoad => if s.counter == 1 then s.To(t, TryCas) else s.End(t, Timeout)
    case TryCas =>
      if s.counter == 1 then s.(counter := 0, taken := s.taken + 1).End(t, WasOpen) else s.End(t, Timeout)
    case Load(timed) => if timed && a.Expire? then s.End(t, Timeout) else s.To(t, Cas(timed, s.counter))
    case Cas(timed, prev) =>
      if prev >= 2 || s.counter != prev then s.To(t, Load(timed))
      else if prev > 0 then s.(counter := prev - 1, taken := s.taken + 1).End(t, WasOpen)
      else s.(pc := s.pc[t := Push(timed)], counter := prev - 1, waiting := s.waiting + {t})
    case Push(timed) => s.(pc := s.pc[t := Wait(timed)], queue := s.queue + {t})
    case Wait(timed) =>
      if t !in s.queue then s.End(t, Success)
      else if timed && a.Expire? then s.(pc := s.pc[t := OutLoad], queue := s.queue - {t})
      else s
    case OutLoad => s.To(t, OutCas(s.counter))
    case OutCas(prev) =>
      if s.counter != prev then s.To(t, OutLoad)
      else
        s.(counter := if prev == 0 then 2 else prev + 1, waiting := s.waiting - {t},
           openings := if prev == 0 then s.openings + 1 else s.openings).End(t, Timeout)
    case _ => s
  }

  /** The steps of V. */
  function GiveStep(s: State, t: Tid, a: Act): State {
    match s.Pc(t)
    case Open(c) =>
      if s.counter == c then
        if c == 0 then s.(pc := s.pc[t := Idle], counter := 1, openings := s.openings + 1)
        else s.(pc := s.pc[t := Find], counter := c + 1, searching := s.searching + {t})
      else if s.counter >= 1 then s.To(t, Idle)
      else s.To(t, Open(s.counter))
    case Find =>
      if a.Pop? && a.f in s.queue then
        s.(pc := s.pc[t := Idle], queue := s.queue - {a.f}, waiting := s.waiting - {a.f}, searching := s.searching - {t})
      else s.To(t, StopLoad)
    case StopLoad => if s.counter >= 2 then s.To(t, StopCas(s.counter)) else s.To(t, Find)
    case StopCas(c) =>
      if s.counter == c then s.(pc := s.pc[t := Idle], counter := c - 1, searching := s.searching - {t})
      else s.To(t, Find)
    case _ => s
  }

  function Step(s: State, t: Tid, a: Act): State {
    if Taking(s.Pc(t)) then TakeStep(s, t, a) else GiveStep(s, t, a)
  }

  // ------------------------------------------------------------ the invariant

  predicate Thread(s: State, t: Tid) {
    && (t in s.queue ==> s.Pc(t).Wait?)
    && (t in s.waiting <==> s.Pc(t).Push? || (s.Pc(t).Wait? && t in s.queue) || s.Pc(t).OutLoad? || s.Pc(t).OutCas?)
    && (t in s.searching <==> s.Pc(t).Find? || s.Pc(t).StopLoad? || s.Pc(t).StopCas?)
    && (s.Pc(t).Load? || s.Pc(t).Cas? || s.Pc(t).Push? || s.Pc(t).Wait? ==> (t in s.patient <==> !s.Pc(t).timed))
    && (s.Pc(t).TryLoad? || s.Pc(t).TryCas? || s.Pc(t).OutLoad? || s.Pc(t).OutCas? ==> t !in s.patient)
    && (s.Pc(t).StopCas? ==> s.Pc(t).c >= 2)
    && (s.Pc(t).Open? ==> s.Pc(t).c <= 0)
  }

  /** Waiting Ps less searching Vs, and the other way round beyond 1. */
  predicate Exact(s: State) {
    if s.counter <= 0 then |s.waiting| - |s.searching| == -s.counter
    else |s.searching| - |s.waiting| == s.counter - 1
  }

  predicate OpenOnce(s: State) {
    s.openings - s.taken == if s.counter >= 1 then 1 else 0
  }

  ghost predicate Inv(s: State) {
    Exact(s) && OpenOnce(s) && forall t: Tid :: Thread(s, t)
  }

  // ------------------------------------------------------ every step keeps it

  lemma InitInv(value: int)
    requires value == 0 || value == 1
    ensures Inv(Init(value))
  {
    var s := Init(value);
    assert |s.waiting| == 0 && |s.searching| == 0;
    forall t: Tid ensures Thread(s, t) { assert s.Pc(t).Idle?; }
  }

  lemma TakeThread(s: State, t: Tid, a: Act, u: Tid)
    requires Thread(s, t) && Thread(s, u) && Taking(s.Pc(t))
    ensures Thread(TakeStep(s, t, a), u)
  {}

  lemma GiveThread(s: State, t: Tid, a: Act, u: Tid)
    requires Thread(s, t) && Thread(s, u) && !Taking(s.Pc(t)) && (a.Pop? ==> Thread(s, a.f))
    ensures Thread(GiveStep(s, t, a), u)
  {}

  lemma TakeExact(s: State, t: Tid, a: Act)
    requires Thread(s, t) && Taking(s.Pc(t)) && Exact(s) && OpenOnce(s)
    ensures Exact(TakeStep(s, t, a)) && OpenOnce(TakeStep(s, t, a))
  {
    if s.Pc(t).Cas? { assert |s.waiting + {t}| == |s.waiting| + 1; }
    if s.Pc(t).OutCas? { assert |s.waiting - {t}| == |s.waiting| - 1; }
  }

  lemma GiveExact(s: State, t: Tid, a: Act)
    requires Thread(s, t) && !Taking(s.Pc(t)) && (a.Pop? ==> Thread(s, a.f)) && Exact(s) && OpenOnce(s)
    ensures Exact(GiveStep(s, t, a)) && OpenOnce(GiveStep(s, t, a))
  {
    if s.Pc(t).Find? && a.Pop? && a.f in s.queue {
      assert |s.waiting - {a.f}| == |s.waiting| - 1 && |s.searching - {t}| == |s.searching| - 1;
    }
    if s.Pc(t).StopCas? { assert |s.searching - {t}| == |s.searching| - 1; }
    if s.Pc(t).Open? { assert |s.searching + {t}| == |s.searching| + 1; }
  }

  lemma StepKeeps(s: State, t: Tid, a: Act)
    requires Inv(s)
    ensures Inv(Step(s, t, a))
  {
    var s' := Step(s, t, a);
    assert Thread(s, t) && (a.Pop? ==> Thread(s, a.f));
    forall u ensures Thread(s', u) {
      assert Thread(s, u);
      if Taking(s.Pc(t)) { TakeThread(s, t, a, u); } else { GiveThread(s, t, a, u); }
    }
    if Taking(s.Pc(t)) { TakeExact(s, t, a); } else { GiveExact(s, t, a); }
  }

  // ------------------------------------------------------------- the theorems

  function After(value: int, sched: seq<(Tid, Act)>): State {
    if sched == [] then Init(value)
    else Step(After(value, sched[..|sched| - 1]), sched[|sched| - 1].0, sched[|sched| - 1].1)
  }

  lemma {:induction false} EveryRun(value: int, sched: seq<(Tid, Act)>)
    requires value == 0 || value == 1
    ensures Inv(After(value, sched))
  {
    if sched == [] {
      InitInv(value);
    } else {
      EveryRun(value, sched[..|sched| - 1]);
      StepKeeps(After(value, sched[..|sched| - 1]), sched[|sched| - 1].0, sched[|sched| - 1].1);
    }
  }

  /** A V that searches while no P is waiting any more finds its cancellation: the counter
      is above 1, and the next attempt to lower it can succeed. */
  lemma {:induction false} SearchEnds(value: int, sched: seq<(Tid, Act)>, t: Tid)
    requires value == 0 || value == 1
    requires var s := After(value, sched); t in s.searching && s.waiting == {}
    ensures After(value, sched).counter >= 2
  {
    EveryRun(value, sched);
    var s := After(value, sched);
    assert |s.searching| > 0;
  }

  /** No stuck waiter: while the semaphore is open, every waiting P has a V searching for it. */
  lemma {:induction false} OpenMeansSearched(value: int, sched: seq<(Tid, Act)>)
    requires value == 0 || value == 1
    ensures var s := After(value, sched);
      && (s.counter >= 1 ==> |s.waiting| <= |s.searching|)
      && (s.searching == {} && s.waiting != {} ==> s.counter < 0)
  {
    EveryRun(value, sched);
    var s := After(value, sched);
    if s.waiting != {} { var t :| t in s.waiting; assert |s.waiting| > 0; }
  }

  /** No V vanishes: the step with which V ends grants a waiting P or leaves the semaphore
      open. */
  lemma {:induction false} EveryVCounts(value: int, sched: seq<(Tid, Act)>, t: Tid, a: Act)
    requires value == 0 || value == 1
    requires var s := After(value, sched); !Taking(s.Pc(t)) && Step(s, t, a).Pc(t).Idle?
    ensures var s := After(value, sched);
      Step(s, t, a).counter >= 1 ||
      (a.Pop? && s.Pc(a.f).Wait? && a.f in s.queue && a.f !in Step(s, t, a).queue)
  {
    EveryRun(value, sched);
    assert Thread(After(value, sched), t);
    if a.Pop? { assert Thread(After(value, sched), a.f); }
  }

  /** The semaphore is taken open as often as it was opened, but for the current opening;
      and V's assertion on the counter's old value cannot fail. */
  lemma {:induction false} TakenIsOpened(value: int, sched: seq<(Tid, Act)>, t: Tid)
    requires value == 0 || value == 1
    ensures var s := After(value, sched);
      && s.taken <= s.openings <= s.taken + 1
      && (s.openings == s.taken + 1 <==> s.counter >= 1)
      && (s.Pc(t).Open? && s.Pc(t).c != 0 ==> s.Pc(t).c < 0)
  {
    EveryRun(value, sched);
    assert Thread(After(value, sched), t);
  }

  /** A P returns success only after a V has taken it out of the queue, and a timed-out P
      was never taken: it leaves the queue itself. */
  lemma {:induction false} ResultIsTruth(value: int, sched: seq<(Tid, Act)>, t: Tid, a: Act)
    requires value == 0 || value == 1
    requires After(value, sched).Pc(t).Wait?
    ensures var s, s' := After(value, sched), Step(After(value, sched), t, a);
      && (s'.Pc(t).Idle? ==> t !in s.waiting && s'.last[t] == Success)
      && (s'.Pc(t).OutLoad? ==> t in s.waiting && t in s'.waiting && t !in s'.queue && a.Expire? && t !in s.patient)
  {
    EveryRun(value, sched);
    assert Thread(After(value, sched), t);
  }

  /** A P without timeout never fails: it ends with a token only. */
  lemma {:induction false} PatientSucceeds(value: int, sched: seq<(Tid, Act)>, t: Tid, a: Act)
    requires value == 0 || value == 1
    requires var s := After(value, sched); t in s.patient && Taking(s.Pc(t)) && !s.Pc(t).Idle?
    requires Step(After(value, sched), t, a).Pc(t).Idle?
    ensures Step(After(value, sched), t, a).last[t] != Timeout
  {
    EveryRun(value, sched);
    assert Thread(After(value, sched), t);
  }

  /** tryP fails exactly if it looks at a counter other than 1: the token is taken, or Vs are
      still searching for waiters that have left. */
  lemma {:induction false} TryFailsIff(value: int, sched: seq<(Tid, Act)>, t: Tid, a: Act)
    requires value == 0 || value == 1
    requires var s := After(value, sched); s.Pc(t).TryLoad? || s.Pc(t).TryCas?
    ensures var s, s' := After(value, sched), Step(After(value, sched), t, a);
      && (s'.Pc(t).Idle? && s'.last[t] == Timeout <==> s.counter != 1)
      && (s.counter != 1 ==> s.openings == s.taken || s.searching != {})
  {
    EveryRun(value, sched);
    var s := After(value, sched);
    assert s.counter >= 2 ==> |s.searching| > 0;
  }

  /** No deadlock: whoever is in a call and does not wait in the queue can go on, and while
      somebody waits there and the semaphore is open, some V can. */
  lemma {:induction false} NoDeadlock(value: int, sched: seq<(Tid, Act)>, t: Tid) returns (u: Tid)
    requires value == 0 || value == 1
    requires var s := After(value, sched); !s.Pc(t).Idle? && (t in s.queue ==> s.counter >= 1)
    ensures var s := After(value, sched); !s.Pc(u).Idle? && Step(s, u, Go).Pc(u) != s.Pc(u)
  {
    EveryRun(value, sched);
    var s := After(value, sched);
    assert Thread(s, t);
    u := t;
    if t in s.queue {
      assert |s.waiting| > 0;
      assert |s.searching| > 0;
      u :| u in s.searching;
    }
    assert Thread(s, u);
  }

  // ------------------------------------------------- calls that run undisturbed

  /** n steps of t while nobody else moves; an idle t begins a. */
  function Alone(s: State, t: Tid, a: Act, n: nat): State
    decreases n
  {
    if n == 0 then s else Step(Alone(s, t, a, n - 1), t, a)
  }

  /** P takes the token of an open semaphore, or is counted as a waiter and queues up. */
  lemma TakesAlone(s: State, t: Tid, timed: bool)
    requires s.Pc(t).Idle? && s.counter < 2
    ensures var s' := Alone(s, t, P(timed), 3);
      if s.counter == 1 then
        s'.Pc(t).Idle? && s'.last[t] == WasOpen && s'.counter == 0 && s'.waiting == s.waiting && s'.queue == s.queue
      else
        && s'.counter == s.counter - 1 && s'.waiting == s.waiting + {t}
        && Step(s', t, Go).Pc(t) == Wait(timed) && Step(s', t, Go).queue == s.queue + {t}
  {
    assert Alone(s, t, P(timed), 1).Pc(t) == Load(timed);
    assert Alone(s, t, P(timed), 2).Pc(t) == Cas(timed, s.counter);
  }

  /** Before it has lowered the counter, a P fails only if it is timed and late. */
  lemma {:induction false} FailsEarlyIffLate(value: int, sched: seq<(Tid, Act)>, t: Tid, a: Act)
    requires value == 0 || value == 1
    requires After(value, sched).Pc(t).Load?
    ensures var s, s' := After(value, sched), Step(After(value, sched), t, a);
      s'.Pc(t).Idle? && s'.last[t] == Timeout <==> t !in s.patient && a.Expire?
  {
    EveryRun(value, sched);
    assert Thread(After(value, sched), t);
  }

  /** A timed P that finds its deadline passed fails at once. */
  lemma LateFails(s: State, t: Tid)
    requires s.Pc(t).Idle?
    ensures var s' := Step(Step(s, t, P(true)), t, Expire);
      s'.Pc(t).Idle? && s'.last[t] == Timeout && s'.counter == s.counter && s'.waiting == s.waiting && s'.queue == s.queue
  {
    assert Step(s, t, P(true)).Pc(t) == Load(true);
  }

  /** tryP takes the token of an open semaphore, or changes nothing. */
  lemma TriesAlone(s: State, t: Tid)
    requires s.Pc(t).Idle?
    ensures var s' := Alone(s, t, TryP, if s.counter == 1 then 3 else 2);
      && s'.Pc(t).Idle? && s'.last[t] == (if s.counter == 1 then WasOpen else Timeout)
      && s'.counter == (if s.counter == 1 then 0 else s.counter) && s'.waiting == s.waiting && s'.queue == s.queue
  {
    assert Alone(s, t, TryP, 1).Pc(t) == TryLoad;
    assert s.counter == 1 ==> Alone(s, t, TryP, 2).Pc(t) == TryCas;
  }

  /** V opens the semaphore, leaves it open, or searches and grants the waiter it finds. */
  lemma GivesAlone(s: State, t: Tid, f: Tid)
    requires s.Pc(t).Idle? && t !in s.queue && (s.counter < 0 ==> f in s.queue && s.Pc(f).Wait?)
    ensures s.counter == 0 ==> var s' := Alone(s, t, V, 2); s'.Pc(t).Idle? && s'.counter == 1
    ensures s.counter > 0 ==> var s' := Alone(s, t, V, 2); s'.Pc(t).Idle? && s'.counter == s.counter
    ensures s.counter < 0 ==> var s' := Step(Alone(s, t, V, 3), t, Pop(f));
      && s'.Pc(t).Idle? && s'.counter == s.counter + 1 && s'.queue == s.queue - {f}
      && Step(s', f, Go).Pc(f).Idle? && Step(s', f, Go).last[f] == Success
  {
    assert Alone(s, t, V, 1).Pc(t) == Open(0);
    if s.counter < 0 {
      assert Alone(s, t, V, 2).Pc(t) == Open(s.counter);
      assert Alone(s, t, V, 3).Pc(t) == Find;
    }
  }

  /** A waiter whose timer wins leaves and gives back what it was counted for. */
  lemma LeavesAlone(s: State, t: Tid)
    requires s.Pc(t) == Wait(true) && t in s.queue
    ensures var s' := Alone(s, t, Expire, 3);
      && s'.Pc(t).Idle? && s'.last[t] == Timeout && s'.queue == s.queue - {t} && s'.waiting == s.waiting - {t}
      && s'.counter == if s.counter == 0 then 2 else s.counter + 1
  {
    assert Alone(s, t, Expire, 1).Pc(t) == OutLoad;
    assert Alone(s, t, Expire, 2).Pc(t) == OutCas(s.counter);
  }

  /** A V that finds nobody to grant, while no P is waiting, ends in three steps. */
  lemma {:induction false} StopsAlone(value: int, sched: seq<(Tid, Act)>, t: Tid)
    requires value == 0 || value == 1
    requires var s := After(value, sched); s.Pc(t).Find? && s.waiting == {}
    ensures var s, s' := After(value, sched), Alone(After(value, sched), t, Go, 3);
      s'.Pc(t).Idle? && s'.counter == s.counter - 1 && s'.searching == s.searching - {t}
  {
    EveryRun(value, sched);
    var s := After(value, sched);
    assert Thread(s, t);
    SearchEnds(value, sched, t);
    assert Alone(s, t, Go, 1).Pc(t) == StopLoad;
    assert Alone(s, t, Go, 2).Pc(t) == StopCas(s.counter);
  }
}
