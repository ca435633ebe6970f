/** FastBarrier for any number of freds that call wait again and again.  A fred's place in
    the queue and its place in the counter may differ; tickets number the places in the
    queue.  The Nemesis queue appears as the sequence that NemesisQueue proves it to be; a
    pop may miss elements that are still being linked. */
module FastBarrier {
  import opened Division
  import opened Memory

  type Ticket = nat

  datatype Pc =
    | Idle
    | Push                                      // prepareRace done; before queue.push
    | Add                                       // add_fetch(counter, 1) % target
    | Sub                                       // sub_fetch(counter, target)
    | Acquire                                   // lock.acquire
    | Pop(i: nat, park: bool)                   // lock held from here to release
    | Race(i: nat, next: Tid)                   // next->raceResume(cf)
    | Resume(i: nat, park: bool, next: Tid)     // next->resume()
    | Release(park: bool)
    | Park                                      // suspend
    | Done(serial: bool)                        // wait returns serial

  datatype Act = Arrive | Miss | Go

  datatype Holder = Open | Held(t: Tid)

  /** History: a group of target consecutive tickets, and the one that returns true. */
  datatype Group = Group(first: Ticket, winner: Ticket)

  datatype Choice = Undecided | Chosen(k: Ticket)

  /** The barrier's counter and, as history, what it counts. */
  datatype Tally = Tally(
    counter: int,
    partial: nat,               // additions since the last multiple of target
    owing: set<Tid>,            // freds that still have to subtract target
    late: set<Tid>,             // freds queued but not yet counted
    leaders: set<Tid>)          // freds that must still release a group

  /** The queue holds order[taken..]. */
  datatype Line = Line(
    order: seq<Tid>,            // all freds ever pushed, by ticket
    taken: nat,                 // tickets popped
    ticket: map<Tid, Ticket>,   // history
    won: set<Ticket>,           // history: tickets that make wait return true
    chosen: Choice,             // history: the winner of the group being released
    groups: seq<Group>,         // history: the groups released
    returned: map<Ticket, bool>)  // history: what the wait call with that ticket has returned

  datatype State = State(pc: map<Tid, Pc>, lock: Holder, info: map<Tid, bool>, resumed: map<Tid, bool>,
                         c: Tally, q: Line)
  {
    function Pc(t: Tid): Pc { if t in pc then pc[t] else Idle }
    /** resumeInfo is not null. */
    function Info(t: Tid): bool { t in info && info[t] }
    /** A resume has arrived: runState is ResumedEarly, or Running again. */
    function Resumed(t: Tid): bool { t in resumed && resumed[t] }
    function Ticket(t: Tid): Ticket { if t in q.ticket then q.ticket[t] else 0 }
    function To(t: Tid, p: Pc): State { this.(pc := pc[t := p]) }
  }

  function Init(): State {
    State(map[], Open, map[], map[], Tally(0, 0, {}, {}, {}), Line([], 0, map[], {}, Undecided, [], map[]))
  }

  // ---------------------------------------------------------------- the steps

  /** The first ticket of the group that is next, or being released. */
  function Start(target: nat, groups: seq<Group>): Ticket {
    if groups == [] then 0 else groups[|groups| - 1].first + target
  }

  /** After the (i + 1)-th pop: the next iteration, or the end of the loop. */
  function Next(target: nat, i: nat, park: bool): Pc {
    if i + 1 < target then Pop(i + 1, park) else Release(park)
  }

  /** The history of the end of a group. */
  function Close(target: nat, c: Tally, q: Line, i: nat, t: Tid): (Tally, Line) {
    if i + 1 < target then (c, q)
    else (c.(leaders := c.leaders - {t}),
          q.(chosen := Undecided,
             groups := q.groups + [Group(Start(target, q.groups), if q.chosen.Chosen? then q.chosen.k else 0)]))
  }

  predicate Counting(p: Pc) {
    p.Idle? || p.Push? || p.Add? || p.Sub? || p.Acquire? || p.Release? || p.Park? || p.Done?
  }

  /** The steps outside the release loop. */
  function CountStep(target: nat, s: State, t: Tid, a: Act): State
    requires target > 0
  {
    var c, q := s.c, s.q;
    match s.Pc(t)
    case Idle => if a.Arrive? then s.(pc := s.pc[t := Push], info := s.info[t := false]) else s
    case Push =>
      s.(pc := s.pc[t := Add], c := c.(late := c.late + {t}),
         q := q.(order := q.order + [t], ticket := q.ticket[t := |q.order|]))
    case Add =>
      if (c.counter + 1) % target == 0 then
        s.(pc := s.pc[t := Sub],
           c := Tally(c.counter + 1, 0, c.owing + {t}, c.late - {t}, c.leaders + {t}))
      else
        s.(pc := s.pc[t := Park], c := c.(counter := c.counter + 1, partial := c.partial + 1, late := c.late - {t}))
    case Sub => s.(pc := s.pc[t := Acquire], c := c.(counter := c.counter - target, owing := c.owing - {t}))
    case Acquire => if s.lock.Open? then s.(pc := s.pc[t := Pop(0, true)], lock := Held(t)) else s
    case Release(park) => s.(pc := s.pc[t := if park then Park else Done(true)], lock := Open)
    case Park =>
      if s.Resumed(t) then s.(pc := s.pc[t := Done(s.Info(t))], resumed := s.resumed[t := false]) else s
    case Done(serial) => s.(pc := s.pc[t := Idle], q := q.(returned := q.returned[s.Ticket(t) := serial]))
    case _ => s
  }

  /** The release loop, under the lock. */
  function LoopStep(target: nat, s: State, t: Tid, a: Act): State {
    var c, q := s.c, s.q;
    match s.Pc(t)
    case Pop(i, park) =>
      if q.taken >= |q.order| || a.Miss? then s else
      var next := q.order[q.taken];
      if next == t then
        var q' := q.(taken := q.taken + 1, won := q.won + {q.taken}, chosen := Chosen(q.taken));
        var (c2, q2) := Close(target, c, q', i, t);
        s.(pc := s.pc[t := Next(target, i, false)], c := c2, q := q2)
      else
        s.(pc := s.pc[t := if i == target - 1 && park then Race(i, next) else Resume(i, park, next)],
           q := q.(taken := q.taken + 1))
    case Race(i, next) =>
      if s.Info(next) then s.To(t, Resume(i, true, next))
      else s.(pc := s.pc[t := Resume(i, true, next)], info := s.info[next := true],
              q := q.(won := q.won + {s.Ticket(next)}, chosen := Chosen(s.Ticket(next))))
    case Resume(i, park, next) =>
      var (c2, q2) := Close(target, c, q, i, t);
      s.(pc := s.pc[t := Next(target, i, park)], resumed := s.resumed[next := true], c := c2, q := q2)
    case _ => s
  }

  function Step(target: nat, s: State, t: Tid, a: Act): State
    requires target > 0
  {
    if Counting(s.Pc(t)) then CountStep(target, s, t, a) else LoopStep(target, s, t, a)
  }

  // ------------------------------------------------------------ the invariant

  function Times(target: nat, n: nat): nat {
    if n == 0 then 0 else target + Times(target, n - 1)
  }

  /** The number of elements popped for the group being released. */
  function Got(p: Pc): nat {
    match p
    case Pop(i, _) => i
    case Race(i, _) => i + 1
    case Resume(i, _, _) => i + 1
    case _ => 0
  }

  function Progress(s: State): nat {
    if s.lock.Held? then Got(s.Pc(s.lock.t)) else 0
  }

  predicate InLoop(p: Pc) { p.Pop? || p.Race? || p.Resume? }

  /** The counter, modulo target, is the part of the next group; and the elements queued
      are those not yet counted, the part of the next group, and what the leaders lack. */
  predicate Tallied(target: nat, s: State) {
    && s.c.partial < target
    && s.c.counter == s.c.partial + Times(target, |s.c.owing|)
    && s.q.taken <= |s.q.order|
    && |s.q.order| - s.q.taken + Progress(s) == s.c.partial + |s.c.late| + Times(target, |s.c.leaders|)
    && s.q.taken == Start(target, s.q.groups) + Progress(s)
  }

  /** t waits for a group to be released. */
  predicate Active(p: Pc) { !p.Idle? && !p.Push? && !p.Done? }

  /** t has popped itself. */
  predicate Self(p: Pc) { (p.Pop? || p.Resume? || p.Release?) && !p.park }

  predicate Counts(target: nat, s: State, t: Tid) {
    && (t in s.c.late <==> s.Pc(t).Add?)
    && (t in s.c.owing <==> s.Pc(t).Sub?)
    && (t in s.c.leaders <==> s.Pc(t).Sub? || s.Pc(t).Acquire? || InLoop(s.Pc(t)))
    && (s.lock == Held(t) <==> InLoop(s.Pc(t)) || s.Pc(t).Release?)
    && (InLoop(s.Pc(t)) ==> s.Pc(t).i < target)
  }

  predicate Waits(s: State, t: Tid) {
    && (!s.Pc(t).Idle? && !s.Pc(t).Push? ==> s.Ticket(t) < |s.q.order| && s.q.order[s.Ticket(t)] == t)
    && (Active(s.Pc(t)) ==>
          && (s.Ticket(t) in s.q.won <==> s.Info(t) || Self(s.Pc(t)))
          && (Self(s.Pc(t)) ==> !s.Info(t) && s.Ticket(t) < s.q.taken))
    && (s.Pc(t).Push? ==> !s.Info(t))
    && (s.Resumed(t) ==> Active(s.Pc(t)) && s.Ticket(t) < s.q.taken && !Self(s.Pc(t)))
    && (s.Pc(t).Done? ==> s.Ticket(t) < s.q.taken && (s.Pc(t).serial <==> s.Ticket(t) in s.q.won))
  }

  /** The leader's side of the group being released. */
  predicate Leads(target: nat, s: State, t: Tid) {
    && (s.Pc(t).Pop? ==> (s.Pc(t).park <==> s.q.chosen.Undecided?))
    && (s.Pc(t).Race? ==> s.q.chosen.Undecided? && s.Pc(t).i == target - 1)
    && (s.Pc(t).Resume? && s.Pc(t).i < target - 1 ==> (s.Pc(t).park <==> s.q.chosen.Undecided?))
    && (s.Pc(t).Resume? && s.Pc(t).i == target - 1 ==> s.q.chosen.Chosen?)
    && (s.Pc(t).Race? || s.Pc(t).Resume? ==> Popped(s, t, s.Pc(t).next))
  }

  predicate Popped(s: State, t: Tid, next: Tid) {
    && next != t && Active(s.Pc(next)) && !s.Resumed(next) && !Self(s.Pc(next)) && s.Ticket(next) == s.q.taken - 1
  }

  /** A ticket in the queue, by number. */
  predicate Queued(s: State, k: Ticket) {
    s.q.taken <= k < |s.q.order| ==>
      var u := s.q.order[k]; Active(s.Pc(u)) && s.Ticket(u) == k && !s.Resumed(u) && k !in s.q.won
  }

  /** A call that has returned did so once, and true if and only if its ticket had won. */
  predicate Returned(s: State, k: Ticket) {
    k in s.q.returned ==>
      && k < s.q.taken <= |s.q.order| && (s.q.returned[k] <==> k in s.q.won)
      && (s.Ticket(s.q.order[k]) == k ==> s.Pc(s.q.order[k]).Idle? || s.Pc(s.q.order[k]).Push?)
  }

  /** Of the group being released the chosen ticket alone has won. */
  predicate Current(target: nat, s: State, k: Ticket) {
    && (Start(target, s.q.groups) <= k < s.q.taken ==> (k in s.q.won <==> s.q.chosen == Chosen(k)))
    && (s.q.chosen.Chosen? ==> Start(target, s.q.groups) <= s.q.chosen.k < s.q.taken)
    && (k in s.q.won ==> k < s.q.taken)
  }

  predicate InGroup(target: nat, g: Group, k: Ticket) { g.first <= k < g.first + target }

  /** Group g follows the group before, and its winner is one of its tickets. */
  predicate Placed(target: nat, q: Line, g: nat) {
    g < |q.groups| ==>
      && q.groups[g].first == Start(target, q.groups[..g]) && q.groups[g].first + target <= Start(target, q.groups)
      && InGroup(target, q.groups[g], q.groups[g].winner)
  }

  predicate OneWon(target: nat, q: Line, g: nat, k: Ticket) {
    g < |q.groups| && InGroup(target, q.groups[g], k) ==> (k in q.won <==> k == q.groups[g].winner)
  }

  /** The groups are consecutive, and each has one winner. */
  ghost predicate Released(target: nat, q: Line) {
    (forall g: nat :: Placed(target, q, g)) && (forall g: nat, k: Ticket :: OneWon(target, q, g, k))
  }

  ghost predicate Inv(target: nat, s: State) {
    && target > 0 && Tallied(target, s) && Released(target, s.q)
    && (forall t: Tid :: Counts(target, s, t))
    && (forall t: Tid :: Waits(s, t))
    && (forall t: Tid :: Leads(target, s, t))
    && (forall k: Ticket :: Queued(s, k))
    && (forall k: Ticket :: Returned(s, k))
    && (forall k: Ticket :: Current(target, s, k))
    && (s.lock.Open? || s.Pc(s.lock.t).Release? ==> s.q.chosen.Undecided?)
  }

  // ------------------------------------------------------ every step keeps it

  lemma InitInv(target: nat)
    requires target > 0
    ensures Inv(target, Init())
  {}

  lemma {:induction false} TimesRem(target: nat, p: nat, n: nat)
    requires target > 0
    ensures Rem(p + Times(target, n), target) == Rem(p, target)
  {
    if n > 0 {
      TimesRem(target, p, n - 1);
      assert p + Times(target, n) - target == p + Times(target, n - 1);
    }
  }

  /** The counter is a multiple of target exactly when the part of the next group is. */
  lemma GroupFull(target: nat, p: nat, n: nat)
    requires p < target
    ensures (p + 1 + Times(target, n)) % target == 0 <==> p + 1 == target
  {
    QuoIsDiv(p + 1 + Times(target, n), target);
    TimesRem(target, p + 1, n);
  }

  lemma ProgressKept(target: nat, s: State, t: Tid, a: Act)
    requires target > 0 && Counts(target, s, t) && Counting(s.Pc(t)) && (s.lock.Held? ==> Counts(target, s, s.lock.t))
    ensures Progress(CountStep(target, s, t, a)) == Progress(s)
  {}

  lemma AddTallied(target: nat, s: State, t: Tid, a: Act)
    requires target > 0 && Tallied(target, s) && Counts(target, s, t) && s.Pc(t).Add?
    requires Progress(CountStep(target, s, t, a)) == Progress(s)
    ensures Tallied(target, CountStep(target, s, t, a))
  {
    GroupFull(target, s.c.partial, |s.c.owing|);
    assert |s.c.late - {t}| == |s.c.late| - 1 && |s.c.owing + {t}| == |s.c.owing| + 1;
    assert |s.c.leaders + {t}| == |s.c.leaders| + 1;
  }

  lemma PushTallied(target: nat, s: State, t: Tid, a: Act)
    requires target > 0 && Tallied(target, s) && Counts(target, s, t) && (s.Pc(t).Push? || s.Pc(t).Sub?)
    requires Progress(CountStep(target, s, t, a)) == Progress(s)
    ensures Tallied(target, CountStep(target, s, t, a))
  {
    if s.Pc(t).Push? {
      assert |s.c.late + {t}| == |s.c.late| + 1;
    } else {
      assert |s.c.owing - {t}| == |s.c.owing| - 1;
    }
  }

  lemma CountTallied(target: nat, s: State, t: Tid, a: Act)
    requires target > 0 && Tallied(target, s) && Counts(target, s, t) && Counting(s.Pc(t))
    requires s.lock.Held? ==> Counts(target, s, s.lock.t)
    ensures Tallied(target, CountStep(target, s, t, a))
  {
    ProgressKept(target, s, t, a);
    if s.Pc(t).Add? { AddTallied(target, s, t, a); }
    else if s.Pc(t).Push? || s.Pc(t).Sub? { PushTallied(target, s, t, a); }
  }

  lemma CountCounts(target: nat, s: State, t: Tid, a: Act, u: Tid)
    requires target > 0 && Counts(target, s, t) && Counts(target, s, u) && Counting(s.Pc(t))
    ensures Counts(target, CountStep(target, s, t, a), u)
  {}

  lemma CountOwnWait(target: nat, s: State, t: Tid, a: Act)
    requires target > 0 && Tallied(target, s) && Waits(s, t) && Counting(s.Pc(t)) && Current(target, s, |s.q.order|)
    ensures Waits(CountStep(target, s, t, a), t)
  {
    if s.Pc(t).Idle? || s.Pc(t).Push? { ArriveWait(target, s, t, a); }
  }

  lemma ArriveWait(target: nat, s: State, t: Tid, a: Act)
    requires target > 0 && s.q.taken <= |s.q.order| && Waits(s, t) && Current(target, s, |s.q.order|)
    requires s.Pc(t).Idle? || s.Pc(t).Push?
    ensures Waits(CountStep(target, s, t, a), t)
  {}

  lemma CountWaits(target: nat, s: State, t: Tid, a: Act, u: Tid)
    requires target > 0 && Waits(s, u) && Counting(s.Pc(t)) && u != t
    ensures Waits(CountStep(target, s, t, a), u)
  {}

  lemma CountLeads(target: nat, s: State, t: Tid, a: Act, u: Tid)
    requires target > 0 && Leads(target, s, u) && Counting(s.Pc(t)) && Counts(target, s, t) && Counts(target, s, u)
    requires s.lock.Open? ==> s.q.chosen.Undecided?
    requires s.Pc(u).Race? || s.Pc(u).Resume? ==> Waits(s, s.Pc(u).next)
    ensures Leads(target, CountStep(target, s, t, a), u)
  {}

  lemma CountQueued(target: nat, s: State, t: Tid, a: Act, k: Ticket)
    requires target > 0 && Tallied(target, s) && Queued(s, k) && Counting(s.Pc(t)) && Waits(s, t)
    requires Current(target, s, |s.q.order|)
    ensures Queued(CountStep(target, s, t, a), k)
  {
    if k < |s.q.order| { OldQueued(target, s, t, a, k); }
  }

  lemma OldQueued(target: nat, s: State, t: Tid, a: Act, k: Ticket)
    requires target > 0 && k < |s.q.order| && Queued(s, k) && Counting(s.Pc(t)) && Waits(s, t)
    ensures Queued(CountStep(target, s, t, a), k)
  {}

  lemma CountReturned(target: nat, s: State, t: Tid, a: Act, k: Ticket)
    requires target > 0 && Tallied(target, s) && Returned(s, k) && Counting(s.Pc(t)) && Waits(s, t)
    ensures Returned(CountStep(target, s, t, a), k)
  {
    if k in s.q.returned {
      var s' := CountStep(target, s, t, a);
      assert s'.q.order[k] == s.q.order[k] && s'.q.won == s.q.won && s'.q.taken == s.q.taken;
    }
  }

  lemma CountKeeps(target: nat, s: State, t: Tid, a: Act)
    requires Inv(target, s) && Counting(s.Pc(t))
    ensures Inv(target, CountStep(target, s, t, a))
  {
    var s' := CountStep(target, s, t, a);
    assert Counts(target, s, t) && Waits(s, t) && Current(target, s, |s.q.order|);
    assert s.lock.Held? ==> Counts(target, s, s.lock.t);
    CountTallied(target, s, t, a);
    CountSame(target, s, t, a);
    forall u ensures Counts(target, s', u) { assert Counts(target, s, u); CountCounts(target, s, t, a, u); }
    forall u ensures Waits(s', u) { assert Waits(s, u);
      if u == t { CountOwnWait(target, s, t, a); } else { CountWaits(target, s, t, a, u); }
    }
    forall u ensures Leads(target, s', u) {
      assert Leads(target, s, u) && Counts(target, s, u);
      assert s.Pc(u).Race? || s.Pc(u).Resume? ==> Waits(s, s.Pc(u).next);
      CountLeads(target, s, t, a, u);
    }
    forall k ensures Queued(s', k) { assert Queued(s, k); CountQueued(target, s, t, a, k); }
    forall k ensures Returned(s', k) { assert Returned(s, k); CountReturned(target, s, t, a, k); }
    forall k ensures Current(target, s', k) { assert Current(target, s, k); }
    SameReleased(target, s.q, s'.q);
  }

  lemma SameReleased(target: nat, q: Line, q': Line)
    requires Released(target, q) && q'.groups == q.groups && q'.won == q.won
    ensures Released(target, q')
  {
    forall g: nat ensures Placed(target, q', g) { assert Placed(target, q, g); }
    forall g: nat, k: Ticket ensures OneWon(target, q', g, k) { assert OneWon(target, q, g, k); }
  }

  lemma CountSame(target: nat, s: State, t: Tid, a: Act)
    requires target > 0 && Counts(target, s, t) && Counting(s.Pc(t))
    requires s.lock.Open? || s.Pc(s.lock.t).Release? ==> s.q.chosen.Undecided?
    ensures var s' := CountStep(target, s, t, a);
      && s'.q.taken == s.q.taken && s'.q.won == s.q.won && s'.q.chosen == s.q.chosen && s'.q.groups == s.q.groups
      && (s'.lock.Open? || s'.Pc(s'.lock.t).Release? ==> s'.q.chosen.Undecided?)
  {}

  // ------------------------------------------------------ the release loop

  /** While a leader's loop is unfinished, the queue cannot run empty. */
  lemma NeverStarves(target: nat, s: State, t: Tid)
    requires Tallied(target, s) && Counts(target, s, t) && s.Pc(t).Pop?
    ensures s.q.taken < |s.q.order|
  {
    assert |s.c.leaders| > 0 by { assert t in s.c.leaders; }
  }

  /** Closing the group of t, the last of whose elements is popped. */
  lemma CloseTally(target: nat, s: State, c: Tally, q: Line, i: nat, t: Tid)
    requires target > 0 && Tallied(target, s) && t in s.c.leaders && i < target
    requires c == s.c && q.order == s.q.order && q.groups == s.q.groups
    ensures var (c2, q2) := Close(target, c, q, i, t);
      && q2.taken == q.taken && q2.order == q.order && c2.partial == c.partial && c2.late == c.late
      && c2.owing == c.owing && c2.counter == c.counter
      && Times(target, |c2.leaders|) + (if i + 1 < target then 0 else target) == Times(target, |c.leaders|)
      && Start(target, q2.groups) == Start(target, q.groups) + (if i + 1 < target then 0 else target)
  {
    assert |s.c.leaders - {t}| == |s.c.leaders| - 1;
  }

  /** The leader pops itself. */
  lemma SelfTallied(target: nat, s: State, t: Tid, a: Act)
    requires target > 0 && Tallied(target, s) && Counts(target, s, t) && s.Pc(t).Pop?
    requires s.q.taken < |s.q.order| && s.q.order[s.q.taken] == t
    ensures Tallied(target, LoopStep(target, s, t, a))
  {
    var q' := s.q.(taken := s.q.taken + 1, won := s.q.won + {s.q.taken}, chosen := Chosen(s.q.taken));
    CloseTally(target, s, s.c, q', s.Pc(t).i, t);
  }

  lemma PopTallied(target: nat, s: State, t: Tid, a: Act)
    requires target > 0 && Tallied(target, s) && Counts(target, s, t) && s.Pc(t).Pop?
    ensures Tallied(target, LoopStep(target, s, t, a))
  {
    if s.q.taken < |s.q.order| && s.q.order[s.q.taken] == t { SelfTallied(target, s, t, a); }
  }

  lemma ResumeTallied(target: nat, s: State, t: Tid, a: Act)
    requires target > 0 && Tallied(target, s) && Counts(target, s, t) && s.Pc(t).Resume?
    ensures Tallied(target, LoopStep(target, s, t, a))
  {
    CloseTally(target, s, s.c, s.q, s.Pc(t).i, t);
  }

  lemma LoopTallied(target: nat, s: State, t: Tid, a: Act)
    requires target > 0 && Tallied(target, s) && Counts(target, s, t) && InLoop(s.Pc(t))
    ensures Tallied(target, LoopStep(target, s, t, a))
  {
    if s.Pc(t).Pop? { PopTallied(target, s, t, a); } else if s.Pc(t).Resume? { ResumeTallied(target, s, t, a); }
  }

  lemma LoopCounts(target: nat, s: State, t: Tid, a: Act, u: Tid)
    requires target > 0 && Counts(target, s, t) && Counts(target, s, u) && InLoop(s.Pc(t))
    ensures Counts(target, LoopStep(target, s, t, a), u)
  {}

  lemma SelfWaits(target: nat, s: State, t: Tid, a: Act, u: Tid)
    requires target > 0 && Tallied(target, s) && s.Pc(t).Pop? && Waits(s, t) && Waits(s, u) && Queued(s, s.q.taken)
    requires Leads(target, s, t) && s.q.taken < |s.q.order| && s.q.order[s.q.taken] == t
    ensures Waits(LoopStep(target, s, t, a), u)
  {}

  lemma PopWaits(target: nat, s: State, t: Tid, a: Act, u: Tid)
    requires target > 0 && Tallied(target, s) && s.Pc(t).Pop? && Leads(target, s, t)
    requires Waits(s, t) && Waits(s, u) && Queued(s, s.q.taken)
    ensures Waits(LoopStep(target, s, t, a), u)
  {
    if s.q.taken < |s.q.order| && s.q.order[s.q.taken] == t { SelfWaits(target, s, t, a, u); }
  }

  lemma WakeWaits(target: nat, s: State, t: Tid, a: Act, u: Tid)
    requires target > 0 && Tallied(target, s) && (s.Pc(t).Race? || s.Pc(t).Resume?) && Leads(target, s, t)
    requires Waits(s, t) && Waits(s, u) && Waits(s, s.Pc(t).next)
    ensures Waits(LoopStep(target, s, t, a), u)
  {}

  lemma LoopWaits(target: nat, s: State, t: Tid, a: Act, u: Tid)
    requires target > 0 && Tallied(target, s) && InLoop(s.Pc(t)) && Leads(target, s, t)
    requires Waits(s, t) && Waits(s, u) && Queued(s, s.q.taken)
    requires s.Pc(t).Race? || s.Pc(t).Resume? ==> Waits(s, s.Pc(t).next)
    ensures Waits(LoopStep(target, s, t, a), u)
  {
    if s.Pc(t).Pop? { PopWaits(target, s, t, a, u); } else { WakeWaits(target, s, t, a, u); }
  }

  lemma LoopQueued(target: nat, s: State, t: Tid, a: Act, k: Ticket)
    requires target > 0 && Tallied(target, s) && Counts(target, s, t) && InLoop(s.Pc(t)) && Leads(target, s, t)
    requires Waits(s, t) && Queued(s, k) && Queued(s, s.q.taken)
    requires s.Pc(t).Race? || s.Pc(t).Resume? ==> Waits(s, s.Pc(t).next)
    ensures Queued(LoopStep(target, s, t, a), k)
  {
    if s.Pc(t).Pop? { PopQueued(target, s, t, a, k); } else { WakeQueued(target, s, t, a, k); }
  }

  lemma PopQueued(target: nat, s: State, t: Tid, a: Act, k: Ticket)
    requires target > 0 && s.Pc(t).Pop? && Waits(s, t) && Queued(s, k) && Queued(s, s.q.taken)
    ensures Queued(LoopStep(target, s, t, a), k)
  {}

  lemma WakeQueued(target: nat, s: State, t: Tid, a: Act, k: Ticket)
    requires target > 0 && s.q.taken <= |s.q.order| && (s.Pc(t).Race? || s.Pc(t).Resume?) && Leads(target, s, t)
    requires Waits(s, t) && Queued(s, k) && Waits(s, s.Pc(t).next)
    ensures Queued(LoopStep(target, s, t, a), k)
  {}

  lemma LoopReturned(target: nat, s: State, t: Tid, a: Act, k: Ticket)
    requires target > 0 && Tallied(target, s) && Counts(target, s, t) && InLoop(s.Pc(t)) && Leads(target, s, t)
    requires Returned(s, k) && (s.Pc(t).Race? || s.Pc(t).Resume? ==> Waits(s, s.Pc(t).next))
    ensures Returned(LoopStep(target, s, t, a), k)
  {}

  lemma LoopLeads(target: nat, s: State, t: Tid, a: Act, u: Tid)
    requires target > 0 && Tallied(target, s) && Counts(target, s, t) && InLoop(s.Pc(t)) && Leads(target, s, t)
    requires Waits(s, t) && Queued(s, s.q.taken) && (u != t ==> Counts(target, s, u))
    requires s.Pc(t).Race? || s.Pc(t).Resume? ==> Waits(s, s.Pc(t).next)
    requires s.q.taken < |s.q.order| ==> Waits(s, s.q.order[s.q.taken])
    requires s.q.taken > 0 ==> Current(target, s, s.q.taken - 1)
    ensures Leads(target, LoopStep(target, s, t, a), u)
  {}

  lemma LoopCurrent(target: nat, s: State, t: Tid, a: Act, k: Ticket)
    requires target > 0 && Tallied(target, s) && Counts(target, s, t) && InLoop(s.Pc(t)) && Leads(target, s, t)
    requires Waits(s, t) && Queued(s, s.q.taken) && Current(target, s, k)
    requires s.Pc(t).Race? || s.Pc(t).Resume? ==> Waits(s, s.Pc(t).next)
    ensures Current(target, LoopStep(target, s, t, a), k)
  {
    if s.Pc(t).Pop? { PopCurrent(target, s, t, a, k); } else { WakeCurrent(target, s, t, a, k); }
  }

  lemma PopCurrent(target: nat, s: State, t: Tid, a: Act, k: Ticket)
    requires target > 0 && Tallied(target, s) && Counts(target, s, t) && s.Pc(t).Pop? && Leads(target, s, t)
    requires Waits(s, t) && Queued(s, s.q.taken) && Current(target, s, k)
    ensures Current(target, LoopStep(target, s, t, a), k)
  {
    var s' := LoopStep(target, s, t, a);
    assert s'.q.groups == s.q.groups || Start(target, s'.q.groups) == s'.q.taken;
  }

  lemma WakeCurrent(target: nat, s: State, t: Tid, a: Act, k: Ticket)
    requires target > 0 && Tallied(target, s) && Counts(target, s, t) && (s.Pc(t).Race? || s.Pc(t).Resume?)
    requires Leads(target, s, t) && Waits(s, t) && Current(target, s, k) && Waits(s, s.Pc(t).next)
    ensures Current(target, LoopStep(target, s, t, a), k)
  {
    var s' := LoopStep(target, s, t, a);
    assert s'.q.groups == s.q.groups || Start(target, s'.q.groups) == s'.q.taken;
  }

  /** The groups stay, or one is closed, in which k wins if and only if it is the winner. */
  predicate Grows(target: nat, q: Line, q': Line, k: Ticket) {
    q'.groups == q.groups ||
    (|q'.groups| == |q.groups| + 1 && q'.groups[..|q.groups|] == q.groups && Closes(target, q, q', k))
  }

  predicate Closes(target: nat, q: Line, q': Line, k: Ticket)
    requires |q'.groups| == |q.groups| + 1
  {
    var g := q'.groups[|q.groups|];
    g.first == Start(target, q.groups) && InGroup(target, g, g.winner) &&
    (InGroup(target, g, k) ==> (k in q'.won <==> k == g.winner))
  }

  /** The group that the step closes has its winner, and no other. */
  lemma LoopCloses(target: nat, s: State, t: Tid, a: Act, k: Ticket)
    requires target > 0 && Tallied(target, s) && Counts(target, s, t) && InLoop(s.Pc(t)) && Leads(target, s, t)
    requires Waits(s, t) && Queued(s, s.q.taken) && Current(target, s, k)
    requires s.Pc(t).Race? || s.Pc(t).Resume? ==> Waits(s, s.Pc(t).next)
    ensures Grows(target, s.q, LoopStep(target, s, t, a).q, k)
  {
    var q, q' := s.q, LoopStep(target, s, t, a).q;
    assert q'.groups != q.groups ==> q'.groups[..|q.groups|] == q.groups;
  }

  lemma LoopWon(target: nat, s: State, t: Tid, a: Act, k: Ticket)
    requires target > 0 && Tallied(target, s) && Counts(target, s, t) && InLoop(s.Pc(t)) && Leads(target, s, t)
    requires s.Pc(t).Race? || s.Pc(t).Resume? ==> Waits(s, s.Pc(t).next)
    requires k < Start(target, s.q.groups)
    ensures k in LoopStep(target, s, t, a).q.won <==> k in s.q.won
  {}

  lemma GroupsGrow(target: nat, s: State, t: Tid, a: Act)
    requires Inv(target, s) && InLoop(s.Pc(t))
    ensures forall k: Ticket :: Grows(target, s.q, LoopStep(target, s, t, a).q, k)
  {
    assert Counts(target, s, t) && Leads(target, s, t) && Waits(s, t) && Queued(s, s.q.taken);
    assert s.Pc(t).Race? || s.Pc(t).Resume? ==> Waits(s, s.Pc(t).next);
    forall k: Ticket ensures Grows(target, s.q, LoopStep(target, s, t, a).q, k) {
      assert Current(target, s, k);
      LoopCloses(target, s, t, a, k);
    }
  }

  lemma LoopReleased(target: nat, s: State, t: Tid, a: Act)
    requires Inv(target, s) && InLoop(s.Pc(t))
    ensures Released(target, LoopStep(target, s, t, a).q)
  {
    var q, q' := s.q, LoopStep(target, s, t, a).q;
    assert Counts(target, s, t) && Leads(target, s, t);
    assert s.Pc(t).Race? || s.Pc(t).Resume? ==> Waits(s, s.Pc(t).next);
    GroupsGrow(target, s, t, a);
    forall k: Ticket | k < Start(target, q.groups) ensures k in q'.won <==> k in q.won { LoopWon(target, s, t, a, k); }
    ReleasedOn(target, q, q');
  }

  lemma ReleasedOn(target: nat, q: Line, q': Line)
    requires target > 0 && Released(target, q) && (forall k: Ticket :: Grows(target, q, q', k))
    requires forall k: Ticket :: k < Start(target, q.groups) ==> (k in q'.won <==> k in q.won)
    ensures Released(target, q')
  {
    assert Grows(target, q, q', 0);
    forall g: nat ensures Placed(target, q', g) {
      if g < |q.groups| { assert Placed(target, q, g); OldPlaced(target, q, q', g); } else { NewPlaced(target, q, q', g); }
    }
    forall g: nat, k: Ticket ensures OneWon(target, q', g, k) {
      assert Placed(target, q, g) && OneWon(target, q, g, k) && Grows(target, q, q', k);
      OneWonOn(target, q, q', g, k);
    }
  }

  lemma OldPlaced(target: nat, q: Line, q': Line, g: nat)
    requires g < |q.groups| && Placed(target, q, g) && Grows(target, q, q', 0)
    ensures Placed(target, q', g)
  {
    if q'.groups != q.groups { PrefixGroup(q.groups, q'.groups, g); }
  }

  lemma NewPlaced(target: nat, q: Line, q': Line, g: nat)
    requires g >= |q.groups| && Grows(target, q, q', 0)
    ensures Placed(target, q', g)
  {}

  lemma OneWonOn(target: nat, q: Line, q': Line, g: nat, k: Ticket)
    requires Placed(target, q, g) && OneWon(target, q, g, k) && Grows(target, q, q', k)
    requires k < Start(target, q.groups) ==> (k in q'.won <==> k in q.won)
    ensures OneWon(target, q', g, k)
  {
    if g < |q.groups| && q'.groups != q.groups { PrefixGroup(q.groups, q'.groups, g); }
  }

  lemma PrefixGroup(a: seq<Group>, b: seq<Group>, g: nat)
    requires g < |a| <= |b| && b[..|a|] == a
    ensures b[g] == a[g] && b[..g] == a[..g]
  {
    assert b[..|a|][g] == b[g] && b[..|a|][..g] == b[..g];
  }

  lemma LoopKeeps(target: nat, s: State, t: Tid, a: Act)
    requires Inv(target, s) && InLoop(s.Pc(t))
    ensures Inv(target, LoopStep(target, s, t, a))
  {
    var s' := LoopStep(target, s, t, a);
    assert Counts(target, s, t) && Leads(target, s, t) && Waits(s, t) && Queued(s, s.q.taken);
    assert s.Pc(t).Race? || s.Pc(t).Resume? ==> Waits(s, s.Pc(t).next);
    assert s.q.taken < |s.q.order| ==> Waits(s, s.q.order[s.q.taken]);
    assert s.q.taken > 0 ==> Current(target, s, s.q.taken - 1);
    LoopTallied(target, s, t, a);
    LoopReleased(target, s, t, a);
    forall u ensures Counts(target, s', u) { assert Counts(target, s, u); LoopCounts(target, s, t, a, u); }
    forall u ensures Waits(s', u) { assert Waits(s, u); LoopWaits(target, s, t, a, u); }
    forall u ensures Leads(target, s', u) { assert Counts(target, s, u); LoopLeads(target, s, t, a, u); }
    forall k ensures Queued(s', k) { assert Queued(s, k); LoopQueued(target, s, t, a, k); }
    forall k ensures Returned(s', k) { assert Returned(s, k); LoopReturned(target, s, t, a, k); }
    forall k ensures Current(target, s', k) { assert Current(target, s, k); LoopCurrent(target, s, t, a, k); }
    LoopHolder(target, s, t, a);
  }

  lemma LoopHolder(target: nat, s: State, t: Tid, a: Act)
    requires target > 0 && Counts(target, s, t) && InLoop(s.Pc(t))
    ensures var s' := LoopStep(target, s, t, a);
      s'.lock == Held(t) && (s'.Pc(t).Release? ==> s'.q.chosen.Undecided?)
  {}

  lemma StepKeeps(target: nat, s: State, t: Tid, a: Act)
    requires Inv(target, s)
    ensures Inv(target, Step(target, s, t, a))
  {
    if Counting(s.Pc(t)) { CountKeeps(target, s, t, a); } else { LoopKeeps(target, s, t, a); }
  }

  // ------------------------------------------------------------- the theorems

  function After(target: nat, sched: seq<(Tid, Act)>): State
    requires target > 0
  {
    if sched == [] then Init()
    else Step(target, After(target, sched[..|sched| - 1]), sched[|sched| - 1].0, sched[|sched| - 1].1)
  }

  lemma {:induction false} EveryRun(target: nat, sched: seq<(Tid, Act)>)
    requires target > 0
    ensures Inv(target, After(target, sched))
  {
    if sched == [] {
      InitInv(target);
    } else {
      EveryRun(target, sched[..|sched| - 1]);
      StepKeeps(target, After(target, sched[..|sched| - 1]), sched[|sched| - 1].0, sched[|sched| - 1].1);
    }
  }

  /** Every released group has target tickets, which follow those of the group before.  Of
      its wait calls, those that have returned and those about to, the winner's alone
      returns true. */
  lemma {:induction false} OneSerialPerGroup(target: nat, sched: seq<(Tid, Act)>, g: nat, k: Ticket, t: Tid)
    requires target > 0 && g < |After(target, sched).q.groups| && InGroup(target, After(target, sched).q.groups[g], k)
    ensures var s := After(target, sched); var group := s.q.groups[g];
      && group.first == Times(target, g) && InGroup(target, group, group.winner)
      && (k in s.q.returned ==> (s.q.returned[k] <==> k == group.winner))
      && (s.Pc(t).Done? && s.Ticket(t) == k ==> k !in s.q.returned && (s.Pc(t).serial <==> k == group.winner))
  {
    EveryRun(target, sched);
    var s := After(target, sched);
    assert Waits(s, t) && Returned(s, k) && Placed(target, s.q, g) && OneWon(target, s.q, g, k);
    FirstTicket(target, s.q, g);
  }

  lemma {:induction false} FirstTicket(target: nat, q: Line, g: nat)
    requires target > 0 && Released(target, q) && g <= |q.groups|
    ensures Start(target, q.groups[..g]) == Times(target, g)
    decreases g
  {
    if g > 0 {
      FirstTicket(target, q, g - 1);
      assert Placed(target, q, g - 1);
      assert q.groups[..g][|q.groups[..g]| - 1] == q.groups[g - 1];
    }
  }

  /** Two freds never wait with the same ticket, and a ticket is popped once: the tickets of
      the freds still queued are exactly those not yet taken. */
  lemma {:induction false} OwnTicket(target: nat, sched: seq<(Tid, Act)>, t: Tid, u: Tid)
    requires target > 0
    requires var s := After(target, sched); Active(s.Pc(t)) && Active(s.Pc(u)) && s.Ticket(t) == s.Ticket(u)
    ensures t == u
  {
    EveryRun(target, sched);
    assert Waits(After(target, sched), t) && Waits(After(target, sched), u);
  }

  /** A fred is resumed only after its ticket was popped, and it is never resumed twice. */
  lemma {:induction false} ResumedOnce(target: nat, sched: seq<(Tid, Act)>, t: Tid)
    requires target > 0 && After(target, sched).Pc(t).Resume?
    ensures var s := After(target, sched); var next := s.Pc(t).next;
      next != t && Active(s.Pc(next)) && !s.Resumed(next) && s.Ticket(next) == s.q.taken - 1
  {
    EveryRun(target, sched);
    assert Leads(target, After(target, sched), t);
  }

  /** No early release: the groups released need target counted arrivals each. */
  lemma {:induction false} NoEarlyRelease(target: nat, sched: seq<(Tid, Act)>)
    requires target > 0
    ensures var s := After(target, sched);
      Times(target, |s.q.groups|) <= s.q.taken <= |s.q.order| - |s.c.late|
  {
    EveryRun(target, sched);
    var s := After(target, sched);
    FirstTicket(target, s.q, |s.q.groups|);
    assert s.q.groups[..|s.q.groups|] == s.q.groups;
    assert s.lock.Held? ==> Counts(target, s, s.lock.t);
    if s.lock.Held? && InLoop(s.Pc(s.lock.t)) {
      assert |s.c.leaders| > 0 by { assert s.lock.t in s.c.leaders; }
    }
  }

  /** Neither subtraction can underflow, and a leader never waits for an empty queue. */
  lemma {:induction false} NoUnderflow(target: nat, sched: seq<(Tid, Act)>, t: Tid)
    requires target > 0
    ensures var s := After(target, sched);
      && (s.Pc(t).Sub? ==> s.c.counter >= target)
      && (s.Pc(t).Pop? ==> s.q.taken < |s.q.order|)
  {
    EveryRun(target, sched);
    var s := After(target, sched);
    assert Counts(target, s, t);
    if s.Pc(t).Sub? { assert |s.c.owing| > 0 by { assert t in s.c.owing; } }
    if s.Pc(t).Pop? { NeverStarves(target, s, t); }
  }

  /** With all arrivals counted and no leader at work, fewer than target freds are left. */
  lemma {:induction false} NobodyLeftBehind(target: nat, sched: seq<(Tid, Act)>)
    requires target > 0
    requires var s := After(target, sched); s.c.leaders == {} && s.c.late == {} && s.lock.Open?
    ensures var s := After(target, sched); |s.q.order| - s.q.taken < target
  {
    EveryRun(target, sched);
  }

  // ------------------------------------------------ nobody is forgotten, and progress

  /** A fred whose ticket is popped has been resumed, has popped itself, or is the one that
      the lock holder is about to resume. */
  predicate Handled(s: State, t: Tid) {
    Active(s.Pc(t)) && s.Ticket(t) < s.q.taken && !s.Resumed(t) && !Self(s.Pc(t)) ==>
      s.lock.Held? && (s.Pc(s.lock.t).Race? || s.Pc(s.lock.t).Resume?) && s.Pc(s.lock.t).next == t
  }

  lemma CountHandled(target: nat, s: State, t: Tid, a: Act, u: Tid)
    requires target > 0 && Counting(s.Pc(t)) && Handled(s, u) && Waits(s, t) && s.q.taken <= |s.q.order|
    requires Counts(target, s, t) && (s.lock.Held? ==> Counts(target, s, s.lock.t))
    ensures Handled(CountStep(target, s, t, a), u)
  {
    if u == t { OwnHandled(target, s, t, a); }
  }

  lemma OwnHandled(target: nat, s: State, t: Tid, a: Act)
    requires target > 0 && Counting(s.Pc(t)) && Handled(s, t) && Waits(s, t) && s.q.taken <= |s.q.order|
    requires Counts(target, s, t) && (s.lock.Held? ==> Counts(target, s, s.lock.t))
    ensures Handled(CountStep(target, s, t, a), t)
  {}

  lemma PopHandled(target: nat, s: State, t: Tid, a: Act, u: Tid)
    requires target > 0 && s.Pc(t).Pop? && s.lock == Held(t) && Handled(s, u) && Waits(s, u) && s.q.taken <= |s.q.order|
    ensures Handled(LoopStep(target, s, t, a), u)
  {}

  lemma WakeHandled(target: nat, s: State, t: Tid, a: Act, u: Tid)
    requires target > 0 && (s.Pc(t).Race? || s.Pc(t).Resume?) && s.lock == Held(t) && Handled(s, u)
    requires Self(s.Pc(t)) ==> Self(LoopStep(target, s, t, a).Pc(t))
    ensures Handled(LoopStep(target, s, t, a), u)
  {}

  lemma {:induction false} HandledAlways(target: nat, sched: seq<(Tid, Act)>, u: Tid)
    requires target > 0
    ensures Handled(After(target, sched), u)
  {
    if sched != [] {
      var s, t, a := After(target, sched[..|sched| - 1]), sched[|sched| - 1].0, sched[|sched| - 1].1;
      EveryRun(target, sched[..|sched| - 1]);
      HandledAlways(target, sched[..|sched| - 1], u);
      assert Waits(s, t) && Waits(s, u) && Counts(target, s, t);
      assert s.lock.Held? ==> Counts(target, s, s.lock.t);
      if Counting(s.Pc(t)) { CountHandled(target, s, t, a, u); }
      else if s.Pc(t).Pop? { PopHandled(target, s, t, a, u); }
      else { WakeHandled(target, s, t, a, u); }
    }
  }

  /** Whenever the lock is free every waiting fred of a closed group has been resumed, but
      for a leader that has popped itself and goes on without. */
  lemma {:induction false} ReleasedAreResumed(target: nat, sched: seq<(Tid, Act)>, t: Tid)
    requires target > 0
    requires var s := After(target, sched); s.lock.Open? && Active(s.Pc(t)) && s.Ticket(t) < Start(target, s.q.groups)
    ensures var s := After(target, sched); s.Resumed(t) || Self(s.Pc(t))
  {
    EveryRun(target, sched);
    HandledAlways(target, sched, t);
  }

  /** The next step of u takes its call further. */
  predicate Moves(target: nat, s: State, u: Tid)
    requires target > 0
  {
    !s.Pc(u).Idle? && Step(target, s, u, Go).Pc(u) != s.Pc(u)
  }

  lemma {:induction false} BusyMoves(target: nat, sched: seq<(Tid, Act)>, t: Tid) returns (u: Tid)
    requires target > 0
    requires var s := After(target, sched); !s.Pc(t).Idle? && (s.Pc(t).Park? ==> s.Resumed(t))
    ensures Moves(target, After(target, sched), u)
  {
    EveryRun(target, sched);
    var s := After(target, sched);
    u := if s.Pc(t).Acquire? && s.lock.Held? then s.lock.t else t;
    assert Counts(target, s, u);
    NoUnderflow(target, sched, u);
    StepMoves(target, s, u);
  }

  lemma StepMoves(target: nat, s: State, u: Tid)
    requires target > 0 && !s.Pc(u).Idle? && (s.Pc(u).Park? ==> s.Resumed(u)) && (s.Pc(u).Acquire? ==> s.lock.Open?)
    requires s.Pc(u).Pop? ==> s.q.taken < |s.q.order|
    ensures Moves(target, s, u)
  {}

  /** No deadlock: while a call is under way some fred's next step takes its call further, or
      everybody under way waits in the queue and target are not there yet. */
  lemma {:induction false} NoDeadlock(target: nat, sched: seq<(Tid, Act)>, t: Tid) returns (u: Tid)
    requires target > 0 && !After(target, sched).Pc(t).Idle?
    ensures var s := After(target, sched);
      Moves(target, s, u) || (s.lock.Open? && s.c.leaders == {} && s.c.late == {} && |s.q.order| - s.q.taken < target)
  {
    EveryRun(target, sched);
    var s := After(target, sched);
    u := t;
    if s.lock.Held? {
      assert Counts(target, s, s.lock.t);
      u := BusyMoves(target, sched, s.lock.t);
    } else if s.c.leaders + s.c.late != {} {
      u :| u in s.c.leaders + s.c.late;
      assert Counts(target, s, u);
      u := BusyMoves(target, sched, u);
    } else {
      NobodyLeftBehind(target, sched);
    }
  }

  // ------------------------------------------------- calls that run undisturbed

  /** n steps of t while nobody else moves; an idle t begins a. */
  function Alone(target: nat, s: State, t: Tid, a: Act, n: nat): State
    requires target > 0
    decreases n
  {
    if n == 0 then s else Step(target, Alone(target, s, t, a, n - 1), t, a)
  }

  /** An arrival that does not complete a group queues up and waits. */
  lemma ArrivesAlone(target: nat, s: State, t: Tid)
    requires target > 0 && s.Pc(t).Idle? && (s.c.counter + 1) % target != 0
    ensures var s' := Alone(target, s, t, Arrive, 3);
      s'.Pc(t).Park? && !s'.Info(t) && s'.q.order == s.q.order + [t] && s'.c.counter == s.c.counter + 1 && s'.Resumed(t) == s.Resumed(t)
  {
    assert Alone(target, s, t, Arrive, 1).Pc(t).Push?;
    assert Alone(target, s, t, Arrive, 2).Pc(t).Add?;
  }

  /** One that does takes the group off the counter and begins to release it. */
  lemma LeadsAlone(target: nat, s: State, t: Tid)
    requires target > 0 && s.Pc(t).Idle? && (s.c.counter + 1) % target == 0 && s.lock.Open?
    ensures var s' := Alone(target, s, t, Arrive, 5);
      s'.Pc(t) == Pop(0, true) && s'.lock == Held(t) && s'.q.order == s.q.order + [t] && s'.c.counter == s.c.counter + 1 - target
  {
    assert Alone(target, s, t, Arrive, 1).Pc(t).Push?;
    assert Alone(target, s, t, Arrive, 2).Pc(t).Add?;
    assert Alone(target, s, t, Arrive, 3).Pc(t).Sub?;
    assert Alone(target, s, t, Arrive, 4).Pc(t).Acquire?;
  }

  /** One turn of the release resumes the first fred of the queue, ... */
  lemma TurnAlone(target: nat, s: State, t: Tid, i: nat, park: bool)
    requires target > 0 && s.Pc(t) == Pop(i, park) && s.q.taken < |s.q.order| && s.q.order[s.q.taken] != t
    requires i < target && !(i == target - 1 && park)
    ensures var s', next := Alone(target, s, t, Go, 2), s.q.order[s.q.taken];
      s'.Pc(t) == Next(target, i, park) && s'.Resumed(next) && s'.q.taken == s.q.taken + 1 && s'.Info(next) == s.Info(next)
  {
    assert Alone(target, s, t, Go, 1).Pc(t) == Resume(i, park, s.q.order[s.q.taken]);
  }

  /** ... as the serial one if it is the last and the leader is not among those resumed, ... */
  lemma LastTurnAlone(target: nat, s: State, t: Tid)
    requires target > 0 && s.Pc(t) == Pop(target - 1, true) && s.q.taken < |s.q.order| && s.q.order[s.q.taken] != t
    ensures var s', next := Alone(target, s, t, Go, 3), s.q.order[s.q.taken];
      s'.Pc(t) == Release(true) && s'.Resumed(next) && s'.q.taken == s.q.taken + 1 && s'.Info(next)
  {
    assert Alone(target, s, t, Go, 1).Pc(t) == Race(target - 1, s.q.order[s.q.taken]);
    assert Alone(target, s, t, Go, 2).Pc(t) == Resume(target - 1, true, s.q.order[s.q.taken]);
  }

  /** ... and skips the leader itself, which then does not sleep, and is the serial one. */
  lemma SelfAlone(target: nat, s: State, t: Tid, i: nat, park: bool)
    requires target > 0 && s.Pc(t) == Pop(i, park) && s.q.taken < |s.q.order| && s.q.order[s.q.taken] == t
    ensures Step(target, s, t, Go).Pc(t) == Next(target, i, false) && Step(target, s, t, Go).q.taken == s.q.taken + 1
  {}

  lemma LeavesAlone(target: nat, s: State, t: Tid, park: bool)
    requires target > 0 && s.Pc(t) == Release(park)
    ensures park ==> Step(target, s, t, Go) == s.To(t, Park).(lock := Open)
    ensures !park ==> var s' := Alone(target, s, t, Go, 2);
      s'.Pc(t).Idle? && s'.lock.Open? && s'.q.returned == s.q.returned[s.Ticket(t) := true]
  {
    if !park { assert Alone(target, s, t, Go, 1).Pc(t) == Done(true); }
  }

  /** A resumed fred returns, as the serial one if the race says so. */
  lemma ReturnsAlone(target: nat, s: State, t: Tid)
    requires target > 0 && s.Pc(t).Park? && s.Resumed(t)
    ensures var s' := Alone(target, s, t, Go, 2);
      s'.Pc(t).Idle? && !s'.Resumed(t) && s'.q.returned == s.q.returned[s.Ticket(t) := s.Info(t)]
  {
    assert Alone(target, s, t, Go, 1).Pc(t) == Done(s.Info(t));
  }
}
