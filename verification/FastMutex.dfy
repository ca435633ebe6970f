/** The default FastMutex: SpinSemMutex over a FredBenaphore made of a binary Benaphore and
    a LimitedSemaphore0, with acquire, tryAcquire and release by any number of freds.  The
    semaphore's Nemesis queue appears as the sequence that NemesisQueue proves it to be;
    a pop may miss elements that are still being linked. */
module FastMutex {
  import opened Memory

  datatype Pc =
    | Idle
    | TryOnly              // tryAcquire: one tryLock
    | Spin                 // tryLock in Spin
    | Dec                  // Benaphore::P: fetch_sub
    | Enqueue              // LimitedSemaphore0::P: queue.push(cf)
    | Sleep                // in suspend
    | Retry                // a P was passed or granted: tryLock
    | Hold
    | Clear                // release: owner = nullptr
    | Inc(c: int)          // Benaphore::V: compare_exchange(counter, c, c + 1)
    | Search               // LimitedSemaphore0::V: queue.pop() until a fred is found
    | Wake(f: Tid)         // resume that fred

  /** What an idle thread begins, or a choice: Again keeps spinning, Miss makes a pop fail. */
  datatype Act = Acquire | TryAcquire | Unlock | Again | Miss | Go

  datatype Owner = Nil | By(t: Tid)

  datatype State = State(
    owner: Owner,
    counter: int,
    queue: seq<Tid>,
    posted: set<Tid>,          // freds that have been resumed
    pc: map<Tid, Pc>,
    waker: map<Tid, Tid>,      // history: who has taken a fred out of the queue to resume it
    sleepers: set<Tid>,        // history: Ps that must be granted and are not
    searching: set<Tid>,       // history: Vs that must find a fred
    tokens: set<Tid>)          // history: Vs not finished, and Ps passed or granted
  {
    function Pc(t: Tid): Pc { if t in pc then pc[t] else Idle }
    function To(t: Tid, p: Pc): State { this.(pc := pc[t := p]) }
  }

  function Init(): State {
    State(Nil, 1, [], {}, map[], map[], {}, {}, {})
  }

  // ---------------------------------------------------------------- the steps

  /** compare_exchange(owner, nullptr, cf). */
  function TryLock(s: State, t: Tid, otherwise: Pc): State {
    if s.owner.Nil? then s.To(t, Hold).(owner := By(t)) else s.To(t, otherwise)
  }

  function Step(s: State, t: Tid, a: Act): State {
    match s.Pc(t)
    case Idle => if a.Acquire? then s.To(t, Spin) else if a.TryAcquire? then s.To(t, TryOnly) else s
    case TryOnly => TryLock(s, t, Idle)
    case Spin => TryLock(s, t, if a.Again? then Spin else Dec)
    case Dec =>
      var s' := s.(counter := s.counter - 1);
      if s.counter > 0 then s'.To(t, Retry).(tokens := s.tokens + {t})
      else s'.To(t, Enqueue).(sleepers := s.sleepers + {t})
    case Enqueue => s.To(t, Sleep).(queue := s.queue + [t])
    case Sleep => if t in s.posted then s.To(t, Retry).(posted := s.posted - {t}) else s
    case Retry => TryLock(s, t, Dec).(tokens := s.tokens - {t})
    case Hold => if a.Unlock? then s.To(t, Clear) else s
    case Clear => s.To(t, Inc(0)).(owner := Nil, tokens := s.tokens + {t})
    case Inc(c) =>
      if s.counter == c then
        var s' := s.(counter := c + 1);
        if c == 0 then s'.To(t, Idle).(tokens := s.tokens - {t})
        else s'.To(t, Search).(searching := s.searching + {t})
      else if s.counter == 1 then s.To(t, Idle).(tokens := s.tokens - {t})
      else s.To(t, Inc(s.counter))
    case Search =>
      if s.queue == [] || a.Miss? then s else
      var f := s.queue[0];
      s.To(t, Wake(f)).(queue := s.queue[1..], searching := s.searching - {t}, sleepers := s.sleepers - {f},
                        tokens := s.tokens - {t} + {f}, waker := s.waker[f := t])
    case Wake(f) => s.To(t, Idle).(posted := s.posted + {f}, waker := s.waker - {f})
  }

  // ------------------------------------------------------------ the invariant

  /** t sleeps or is about to, and no V has taken it out of the queue. */
  predicate Waits(s: State, t: Tid) {
    s.Pc(t).Enqueue? || (s.Pc(t).Sleep? && t in s.queue)
  }

  /** t's release still has its V pending, or t holds a passed or granted P and will retry. */
  predicate HasToken(s: State, t: Tid) {
    s.Pc(t).Inc? || s.Pc(t).Search? || s.Pc(t).Retry? || (s.Pc(t).Sleep? && t !in s.queue)
  }

  predicate Thread(s: State, t: Tid) {
    && (s.owner == By(t) <==> s.Pc(t).Hold? || s.Pc(t).Clear?)
    && (t in s.sleepers <==> Waits(s, t))
    && (t in s.searching <==> s.Pc(t).Search?)
    && (t in s.tokens <==> HasToken(s, t))
    && (t in s.queue ==> s.Pc(t).Sleep?)
    && (s.Pc(t).Inc? ==> s.Pc(t).c <= 0)
  }

  /** The counter says how many sleepers no V is looking for. */
  predicate Exact(s: State) {
    && s.counter <= 1
    && |s.sleepers| - |s.searching| == if s.counter < 0 then -s.counter else 0
  }

  /** No lost wakeup: the mutex is held, or open for the next P, or someone carries on. */
  predicate Live(s: State) {
    s.counter == 1 || s.owner.By? || s.tokens != {}
  }

  /** A fred out of the queue has been resumed, or the one that took it out is about to. */
  predicate Woken(s: State, t: Tid) {
    && (t in s.waker <==> s.Pc(t).Sleep? && t !in s.queue && t !in s.posted)
    && (t in s.posted ==> s.Pc(t).Sleep? && t !in s.queue)
    && (t in s.waker ==> s.Pc(s.waker[t]) == Wake(t))
    && (s.Pc(t).Wake? ==> s.Pc(t).f in s.waker && s.waker[s.Pc(t).f] == t)
  }

  ghost predicate Inv(s: State) {
    && Exact(s) && Live(s) && Distinct(s.queue)
    && (forall t: Tid :: Thread(s, t))
    && (forall t: Tid :: Woken(s, t))
  }

  // ------------------------------------------------------ every step keeps it

  lemma InitInv()
    ensures Inv(Init())
  {}

  /** The fred that a pop would take. */
  function Head(s: State): Tid { if s.queue == [] then 0 else s.queue[0] }

  lemma QueueKeeps(s: State, t: Tid, a: Act, u: Tid)
    requires Distinct(s.queue) && Thread(s, t)
    ensures var s' := Step(s, t, a);
      && Distinct(s'.queue)
      && (u in s'.queue <==> if s.Pc(t).Enqueue? && u == t then true
                             else if s.Pc(t).Search? && s.queue != [] && !a.Miss? then u in s.queue && u != s.queue[0]
                             else u in s.queue)
  {
    if s.Pc(t).Enqueue? {
      AppendDistinct(s.queue, [t]);
      assert u in s.queue + [t] <==> u in s.queue || u == t;
    } else if s.Pc(t).Search? && s.queue != [] {
      TailKeeps(s.queue, u);
    }
  }

  lemma OwnThread(s: State, t: Tid, a: Act)
    requires Distinct(s.queue) && Thread(s, t) && Woken(s, t) && Exact(s) && (s.queue != [] ==> Thread(s, Head(s)))
    ensures Thread(Step(s, t, a), t)
  {
    QueueKeeps(s, t, a, t);
    if OnOwner(s.Pc(t)) { OwnerThread(s, t, a); } else { TokenThread(s, t, a); }
  }

  /** The steps on the owner word. */
  predicate OnOwner(p: Pc) {
    p.Idle? || p.TryOnly? || p.Spin? || p.Retry? || p.Hold? || p.Clear?
  }

  lemma OwnerThread(s: State, t: Tid, a: Act)
    requires Thread(s, t) && OnOwner(s.Pc(t))
    ensures Thread(Step(s, t, a), t)
  {}

  lemma TokenThread(s: State, t: Tid, a: Act)
    requires Thread(s, t) && Woken(s, t) && Exact(s) && !OnOwner(s.Pc(t)) && (s.queue != [] ==> Thread(s, Head(s)))
    requires t in Step(s, t, a).queue <==> s.Pc(t).Enqueue? || t in s.queue
    ensures Thread(Step(s, t, a), t)
  {}

  lemma OtherThread(s: State, t: Tid, a: Act, u: Tid)
    requires Distinct(s.queue) && Thread(s, t) && Thread(s, u) && u != t && (s.queue != [] ==> Thread(s, Head(s)))
    ensures Thread(Step(s, t, a), u)
  {
    QueueKeeps(s, t, a, u);
  }

  lemma OwnWoken(s: State, t: Tid, a: Act)
    requires Distinct(s.queue) && Thread(s, t) && Woken(s, t) && (s.queue != [] ==> Thread(s, Head(s)))
    ensures Woken(Step(s, t, a), t)
  {
    QueueKeeps(s, t, a, t);
  }

  lemma OtherWoken(s: State, t: Tid, a: Act, u: Tid)
    requires Distinct(s.queue) && Thread(s, t) && Woken(s, t) && Woken(s, u) && u != t
    requires s.queue != [] ==> Thread(s, Head(s)) && Woken(s, Head(s))
    requires s.Pc(t).Wake? ==> Woken(s, s.Pc(t).f)
    ensures Woken(Step(s, t, a), u)
  {
    QueueKeeps(s, t, a, u);
  }

  /** The counter, the sleepers and the searches. */
  lemma ExactKeeps(s: State, t: Tid, a: Act)
    requires Exact(s) && Thread(s, t) && Distinct(s.queue) && (s.queue != [] ==> Thread(s, Head(s)))
    ensures Exact(Step(s, t, a))
  {
    if s.Pc(t).Dec? || s.Pc(t).Inc? || s.Pc(t).Search? { CountKeeps(s, t, a); }
  }

  lemma CountKeeps(s: State, t: Tid, a: Act)
    requires Exact(s) && Thread(s, t) && (s.queue != [] ==> Thread(s, Head(s)))
    requires s.Pc(t).Dec? || s.Pc(t).Inc? || s.Pc(t).Search?
    ensures Exact(Step(s, t, a))
  {
    if s.Pc(t).Search? && s.queue != [] { assert s.queue[0] in s.queue; }
  }

  lemma LiveKeeps(s: State, t: Tid, a: Act)
    requires Live(s) && Exact(s) && Thread(s, t)
    ensures Live(Step(s, t, a))
  {
    if s.Pc(t).Clear? || (s.Pc(t).Dec? && s.counter > 0) { assert t in Step(s, t, a).tokens; }
    if s.Pc(t).Search? && s.queue != [] && !a.Miss? { assert s.queue[0] in Step(s, t, a).tokens; }
  }

  lemma StepKeeps(s: State, t: Tid, a: Act)
    requires Inv(s)
    ensures Inv(Step(s, t, a))
  {
    var s' := Step(s, t, a);
    assert Thread(s, t) && Woken(s, t) && Thread(s, Head(s)) && Woken(s, Head(s));
    QueueKeeps(s, t, a, t);
    ExactKeeps(s, t, a);
    LiveKeeps(s, t, a);
    forall u ensures Thread(s', u) {
      assert Thread(s, u);
      if u == t { OwnThread(s, t, a); } else { OtherThread(s, t, a, u); }
    }
    forall u ensures Woken(s', u) {
      assert Woken(s, u) && (s.Pc(t).Wake? ==> Woken(s, s.Pc(t).f));
      if u == t { OwnWoken(s, t, a); } else { OtherWoken(s, t, a, u); }
    }
  }

  // ------------------------------------------------------------- the theorems

  function Run(sched: seq<(Tid, Act)>): State {
    if sched == [] then Init()
    else Step(Run(sched[..|sched| - 1]), sched[|sched| - 1].0, sched[|sched| - 1].1)
  }

  lemma {:induction false} EveryRun(sched: seq<(Tid, Act)>)
    ensures Inv(Run(sched))
  {
    if sched == [] {
      InitInv();
    } else {
      EveryRun(sched[..|sched| - 1]);
      StepKeeps(Run(sched[..|sched| - 1]), sched[|sched| - 1].0, sched[|sched| - 1].1);
    }
  }

  lemma {:induction false} MutualExclusion(sched: seq<(Tid, Act)>, t: Tid, u: Tid)
    requires var s := Run(sched); s.Pc(t).Hold? && s.Pc(u).Hold?
    ensures t == u && Run(sched).owner == By(t)
  {
    EveryRun(sched);
    assert Thread(Run(sched), t) && Thread(Run(sched), u);
  }

  /** No lost wakeup in any run. */
  lemma {:induction false} NoLostWakeup(sched: seq<(Tid, Act)>) returns (t: Tid)
    ensures var s := Run(sched);
      s.counter == 1 || s.Pc(t).Hold? || s.Pc(t).Clear? || HasToken(s, t)
  {
    EveryRun(sched);
    var s := Run(sched);
    if s.owner.By? {
      t := s.owner.t;
      assert Thread(s, t);
    } else if s.tokens != {} {
      t :| t in s.tokens;
      assert Thread(s, t);
    } else {
      t := 0;
    }
  }

  /** Every search has a fred to find, which is in the queue or about to enter it. */
  lemma {:induction false} SearchCanFind(sched: seq<(Tid, Act)>) returns (f: Tid)
    requires Run(sched).searching != {}
    ensures |Run(sched).searching| <= |Run(sched).sleepers| && Waits(Run(sched), f)
  {
    EveryRun(sched);
    var s := Run(sched);
    assert |s.searching| > 0 by { var t :| t in s.searching; }
    f :| f in s.sleepers;
    assert Thread(s, f);
  }

  /** A fred taken out of the queue is resumed, or a release is about to resume it. */
  lemma {:induction false} TakenIsResumed(sched: seq<(Tid, Act)>, f: Tid) returns (t: Tid)
    requires var s := Run(sched); s.Pc(f).Sleep? && f !in s.queue
    ensures var s := Run(sched); f in s.posted || s.Pc(t) == Wake(f)
    ensures var s := Run(sched); forall u: Tid :: s.Pc(u) == Wake(f) ==> u == t && f !in s.posted
  {
    EveryRun(sched);
    var s := Run(sched);
    assert Woken(s, f);
    t := if f in s.waker then s.waker[f] else 0;
    forall u: Tid | s.Pc(u) == Wake(f) ensures u == t && f !in s.posted { assert Woken(s, u); }
  }

  lemma HasWaker(s: State, u: Tid)
    requires Woken(s, u) && s.Pc(u).Sleep? && u !in s.queue && u !in s.posted
    ensures exists t :: s.Pc(t) == Wake(u)
  {
    assert s.Pc(s.waker[u]) == Wake(u);
  }

  /** It never happens that every fred is idle or asleep without having been resumed, and
      one is asleep. */
  lemma {:induction false} NoStuckSleeper(sched: seq<(Tid, Act)>, f: Tid)
    requires var s := Run(sched); forall t: Tid :: s.Pc(t).Idle? || (s.Pc(t).Sleep? && t !in s.posted)
    ensures Run(sched).Pc(f).Idle? && Run(sched).counter == 1
  {
    var s := Run(sched);
    var t := NoLostWakeup(sched);
    EveryRun(sched);
    forall u: Tid ensures u !in s.searching && (s.Pc(u).Sleep? ==> u in s.queue) {
      assert Thread(s, u) && Woken(s, u);
      if s.Pc(u).Sleep? && u !in s.queue { HasWaker(s, u); }
    }
    assert s.searching == {} && s.sleepers == {};
    assert Thread(s, f);
  }

  // ------------------------------------------- what calls answer, and progress

  predicate Acquires(p: Pc) { p.Spin? || p.Dec? || p.Enqueue? || p.Sleep? || p.Retry? }

  /** tryAcquire fails only while another fred holds the mutex, and acquire never fails: it
      ends in holding the mutex, which was free. */
  lemma {:induction false} FailsOnlyIfHeld(sched: seq<(Tid, Act)>, t: Tid, a: Act)
    requires Run(sched).Pc(t).TryOnly? || Acquires(Run(sched).Pc(t))
    ensures var s, s' := Run(sched), Step(Run(sched), t, a);
      && (s'.Pc(t).Idle? ==> s.Pc(t).TryOnly? && s.owner.By? && s.owner.t != t)
      && (s'.Pc(t).Hold? ==> s.owner.Nil? && s'.owner == By(t))
      && (s.Pc(t).TryOnly? || s.Pc(t).Spin? || s.Pc(t).Retry? ==> s'.Pc(t).Hold? || s.owner.By?)
  {
    EveryRun(sched);
    assert Thread(Run(sched), t);
  }

  /** Nobody but its holder's release ends a hold. */
  lemma {:induction false} KeepsUntilRelease(sched: seq<(Tid, Act)>, t: Tid, u: Tid, a: Act)
    requires Run(sched).Pc(t).Hold? && (u == t ==> !a.Unlock?)
    ensures Step(Run(sched), u, a).Pc(t).Hold?
  {
    HoldKept(Run(sched), t, u, a);
  }

  lemma HoldKept(s: State, t: Tid, u: Tid, a: Act)
    requires s.Pc(t).Hold? && (u == t ==> !a.Unlock?)
    ensures Step(s, u, a).Pc(t) == s.Pc(t)
  {
    if u != t { OtherPc(s, u, a, t); }
  }

  lemma OtherPc(s: State, t: Tid, a: Act, u: Tid)
    requires u != t
    ensures Step(s, t, a).Pc(u) == s.Pc(u)
  {}

  /** The thread that brings a sleeping fred out of suspend. */
  lemma SleeperHelped(s: State, t: Tid) returns (u: Tid)
    requires Inv(s) && s.Pc(t).Sleep? && t !in s.queue
    ensures !s.Pc(u).Idle? && !s.Pc(u).Hold? && Step(s, u, Go).Pc(u) != s.Pc(u)
  {
    assert Woken(s, t);
    u := if t in s.posted then t else s.waker[t];
  }

  /** A search has a fred to take, or one is about to enter the queue. */
  lemma SearchHelped(s: State, t: Tid) returns (u: Tid)
    requires Inv(s) && s.Pc(t).Search?
    ensures !s.Pc(u).Idle? && !s.Pc(u).Hold? && Step(s, u, Go).Pc(u) != s.Pc(u)
  {
    assert Thread(s, t);
    u := t;
    if s.queue == [] {
      assert |s.searching| > 0;
      assert |s.sleepers| > 0;
      u :| u in s.sleepers;
      assert Thread(s, u);
    }
  }

  /** No deadlock: while a call is under way, some fred holds the mutex at leisure, or some
      fred's next step takes it further. */
  lemma {:induction false} NoDeadlock(sched: seq<(Tid, Act)>, t: Tid) returns (u: Tid)
    requires !Run(sched).Pc(t).Idle?
    ensures var s := Run(sched); s.Pc(u).Hold? || (!s.Pc(u).Idle? && Step(s, u, Go).Pc(u) != s.Pc(u))
  {
    EveryRun(sched);
    var s := Run(sched);
    assert Thread(s, t);
    if s.Pc(t).Sleep? && t in s.queue {
      u := NoLostWakeup(sched);
      if s.counter == 1 {
        assert |s.sleepers| > 0;
        assert |s.searching| > 0;
        u :| u in s.searching;
      }
      assert Thread(s, u);
    } else {
      u := t;
    }
    if s.Pc(u).Sleep? { u := SleeperHelped(s, u); } else if s.Pc(u).Search? { u := SearchHelped(s, u); }
  }

  // ------------------------------------------------- calls that run undisturbed

  /** n steps of t while nobody else moves; an idle t begins a. */
  function Alone(s: State, t: Tid, a: Act, n: nat): State
    decreases n
  {
    if n == 0 then s else Step(Alone(s, t, a, n - 1), t, a)
  }

  /** The free mutex is acquired by either call. */
  lemma FreeIsTaken(s: State, t: Tid)
    requires s.Pc(t).Idle? && s.owner.Nil?
    ensures Alone(s, t, Acquire, 2) == s.To(t, Spin).To(t, Hold).(owner := By(t))
    ensures Alone(s, t, TryAcquire, 2) == s.To(t, TryOnly).To(t, Hold).(owner := By(t))
  {
    assert Alone(s, t, Acquire, 1) == s.To(t, Spin);
    assert Alone(s, t, TryAcquire, 1) == s.To(t, TryOnly);
  }

  /** A mutex that another fred holds: acquire goes to sleep behind those in the queue. */
  lemma HeldIsAwaited(s: State, t: Tid)
    requires s.Pc(t).Idle? && s.owner.By? && s.counter <= 1 && t !in s.posted
    ensures var s' := Alone(s, t, Acquire, 6);
      && s'.Pc(t).Sleep? && s'.queue == s.queue + [t] && s'.sleepers == s.sleepers + {t}
      && s'.counter == (if s.counter == 1 then -1 else s.counter - 1) && s'.owner == s.owner
  {
    assert Alone(s, t, Acquire, 2).Pc(t).Dec?;
    assert Alone(s, t, Acquire, 3).Pc(t) == if s.counter == 1 then Retry else Enqueue;
    assert Alone(s, t, Acquire, 4).Pc(t) == if s.counter == 1 then Dec else Sleep;
    assert Alone(s, t, Acquire, 5).Pc(t) == if s.counter == 1 then Enqueue else Sleep;
  }

  /** release opens the mutex if no fred is counted as sleeping. */
  lemma ReleaseOpens(s: State, t: Tid)
    requires s.Pc(t).Hold? && s.owner == By(t) && 0 <= s.counter <= 1
    ensures var s' := Alone(s, t, Unlock, 4);
      s'.Pc(t).Idle? && s'.owner.Nil? && s'.counter == 1 && s'.queue == s.queue && s'.posted == s.posted
  {
    assert Alone(s, t, Unlock, 1).Pc(t).Clear?;
    assert Alone(s, t, Unlock, 2).Pc(t) == Inc(0);
    assert Alone(s, t, Unlock, 3).Pc(t).Idle?;
  }

  /** Otherwise it goes on to search the queue, ... */
  lemma ReleaseSearches(s: State, t: Tid)
    requires s.Pc(t).Hold? && s.owner == By(t) && s.counter < 0
    ensures var s' := Alone(s, t, Unlock, 4);
      s'.Pc(t).Search? && s'.owner.Nil? && s'.counter == s.counter + 1 && s'.queue == s.queue && s'.posted == s.posted
  {
    assert Alone(s, t, Unlock, 1).Pc(t).Clear?;
    assert Alone(s, t, Unlock, 2).Pc(t) == Inc(0);
    assert Alone(s, t, Unlock, 3).Pc(t) == Inc(s.counter);
  }

  /** ... and resumes the first fred there. */
  lemma SearchResumes(s: State, t: Tid)
    requires s.Pc(t).Search? && s.queue != []
    ensures var s' := Alone(s, t, Unlock, 2);
      && s'.Pc(t).Idle? && s'.owner == s.owner && s'.counter == s.counter
      && s'.queue == s.queue[1..] && s'.posted == s.posted + {s.queue[0]}
  {
    assert Alone(s, t, Unlock, 1).Pc(t) == Wake(s.queue[0]);
  }

  /** And that fred then acquires the mutex. */
  lemma ResumedAcquires(s: State, f: Tid)
    requires s.Pc(f).Sleep? && f in s.posted && s.owner.Nil?
    ensures Alone(s, f, Go, 2).Pc(f).Hold? && Alone(s, f, Go, 2).owner == By(f)
  {
    assert Alone(s, f, Go, 1).Pc(f).Retry?;
  }
}
