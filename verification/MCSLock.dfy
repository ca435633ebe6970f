/** The MCS queue lock with acquire, tryAcquire and release by any number of threads, each
    call with a node of the caller's choice that no other call is using.  One shared
    access is one step; a spin loop whose condition fails repeats its step. */
module MCSLock {
  import opened Memory

  datatype Pc =
    | Idle
    | Clear(n: Node, try_: bool)        // n.next = nullptr
    | Look(n: Node)                     // tryAcquire: tail == nullptr
    | TryCas(n: Node)
    | Swap(n: Node)                     // acquire: exchange tail
    | SetWait(n: Node, prev: Node)
    | LinkUp(n: Node, prev: Node)       // prev->next = &n
    | Spin(n: Node)                     // while n.wait
    | Hold(n: Node)
    | Cas(n: Node)                      // release: compare_exchange(tail, &n, nullptr)
    | WaitNext(n: Node)
    | Grant(n: Node)                    // n.next->wait = false

  datatype Act = Acquire(n: Node) | TryAcquire(n: Node) | Release | Go

  datatype User = Nobody | By(t: Tid)

  datatype State = State(
    tail: Ptr,
    next: map<Node, Ptr>,
    wait: map<Node, bool>,
    pc: map<Tid, Pc>,
    user: map<Node, User>,     // history: who uses the node in a call
    chain: seq<Node>,          // history: nodes in tail-exchange order, the holder first
    order: seq<Node>,          // history: all acquisitions, in tail-exchange order
    done: seq<Node>)           // history: all releases, in their order
  {
    function Pc(t: Tid): Pc { if t in pc then pc[t] else Idle }
    function Next(n: Node): Ptr { Link(next, n) }
    function Wait(n: Node): bool { n in wait && wait[n] }
    function User(n: Node): User { if n in user then user[n] else Nobody }
    function To(t: Tid, p: Pc): State { this.(pc := pc[t := p]) }
  }

  function Init(): State { State(Null, map[], map[], map[], map[], [], [], []) }

  // ---------------------------------------------------------------- the steps

  /** n is the new tail. */
  function Enter(s: State, t: Tid, n: Node, p: Pc): State {
    s.(tail := Memory.To(n), chain := s.chain + [n], order := s.order + [n], pc := s.pc[t := p])
  }

  /** The release of n is over. */
  function Leave(s: State, t: Tid, n: Node): State {
    s.(pc := s.pc[t := Idle], user := s.user[n := Nobody], chain := if s.chain == [] then [] else s.chain[1..],
       done := s.done + [n])
  }

  predicate Acquiring(p: Pc) {
    p.Idle? || p.Clear? || p.Look? || p.TryCas? || p.Swap? || p.SetWait? || p.LinkUp? || p.Spin?
  }

  function AcquireStep(s: State, t: Tid, a: Act): State {
    match s.Pc(t)
    case Idle =>
      if (a.Acquire? || a.TryAcquire?) && s.User(a.n).Nobody? then
        s.(pc := s.pc[t := Clear(a.n, a.TryAcquire?)], user := s.user[a.n := By(t)])
      else s
    case Clear(n, try_) => s.(pc := s.pc[t := if try_ then Look(n) else Swap(n)], next := s.next[n := Null])
    case Look(n) => if s.tail.Null? then s.To(t, TryCas(n)) else s.(pc := s.pc[t := Idle], user := s.user[n := Nobody])
    case TryCas(n) =>
      if s.tail.Null? then Enter(s, t, n, Hold(n)) else s.(pc := s.pc[t := Idle], user := s.user[n := Nobody])
    case Swap(n) => Enter(s, t, n, if s.tail.Null? then Hold(n) else SetWait(n, s.tail.node))
    case SetWait(n, prev) => s.(pc := s.pc[t := LinkUp(n, prev)], wait := s.wait[n := true])
    case LinkUp(n, prev) => s.(pc := s.pc[t := Spin(n)], next := s.next[prev := Memory.To(n)])
    case Spin(n) => if s.Wait(n) then s else s.To(t, Hold(n))
    case _ => s
  }

  function ReleaseStep(s: State, t: Tid, a: Act): State {
    match s.Pc(t)
    case Hold(n) => if a.Release? then s.To(t, Cas(n)) else s
    case Cas(n) => if s.tail == Memory.To(n) then Leave(s, t, n).(tail := Null) else s.To(t, WaitNext(n))
    case WaitNext(n) => if s.Next(n).To? then s.To(t, Grant(n)) else s
    case Grant(n) => if s.Next(n).To? then Leave(s, t, n).(wait := s.wait[s.Next(n).node := false]) else s
    case _ => s
  }

  function Step(s: State, t: Tid, a: Act): State {
    if Acquiring(s.Pc(t)) then AcquireStep(s, t, a) else ReleaseStep(s, t, a)
  }

  // ------------------------------------------------------------ the invariant

  /** The node of t's call. */
  function NodeOf(p: Pc): Ptr {
    match p
    case Idle => Null
    case Clear(n, _) => Memory.To(n)
    case Look(n) => Memory.To(n)
    case TryCas(n) => Memory.To(n)
    case Swap(n) => Memory.To(n)
    case SetWait(n, _) => Memory.To(n)
    case LinkUp(n, _) => Memory.To(n)
    case Spin(n) => Memory.To(n)
    case Hold(n) => Memory.To(n)
    case Cas(n) => Memory.To(n)
    case WaitNext(n) => Memory.To(n)
    case Grant(n) => Memory.To(n)
  }

  predicate Entered(p: Pc) {
    !p.Idle? && !p.Clear? && !p.Look? && !p.TryCas? && !p.Swap?
  }

  predicate Holds(p: Pc) { p.Hold? || p.Cas? || p.WaitNext? || p.Grant? }

  predicate Uses(s: State, n: Node) {
    && (s.User(n).By? ==> NodeOf(s.Pc(s.User(n).t)) == Memory.To(n))
    && (n in s.chain <==> s.User(n).By? && Entered(s.Pc(s.User(n).t)))
  }

  predicate Thread(s: State, t: Tid) {
    && (NodeOf(s.Pc(t)).To? ==> s.User(NodeOf(s.Pc(t)).node) == By(t))
    && (s.Pc(t).Look? || s.Pc(t).TryCas? || s.Pc(t).Swap? ==> s.Next(s.Pc(t).n) == Null)
    && (s.Pc(t).WaitNext? ==> s.tail != Memory.To(s.Pc(t).n))
    && (s.Pc(t).Grant? ==> s.Next(s.Pc(t).n).To?)
  }

  /** The owner of the k-th node, and its link from the node before. */
  predicate Place(s: State, k: nat) {
    k < |s.chain| ==>
      var n := s.chain[k];
      s.User(n).By? &&
      var p := s.Pc(s.User(n).t);
      if k == 0 then Holds(p) || (p == Spin(n) && !s.Wait(n))
      else
        var prev := s.chain[k - 1];
        || (p == SetWait(n, prev) && s.Next(prev) == Null)
        || (p == LinkUp(n, prev) && s.Next(prev) == Null && s.Wait(n))
        || (p == Spin(n) && s.Next(prev) == Memory.To(n) && s.Wait(n))
  }

  predicate Ends(s: State) {
    s.tail == LastOf(s.chain) && (s.chain != [] ==> s.Next(s.chain[|s.chain| - 1]) == Null)
  }

  ghost predicate Inv(s: State) {
    && Distinct(s.chain) && Ends(s) && s.order == s.done + s.chain
    && (forall n: Node :: Uses(s, n))
    && (forall t: Tid :: Thread(s, t))
    && (forall k: nat :: Place(s, k))
  }

  // ------------------------------------------------------ every step keeps it

  lemma InitInv()
    ensures Inv(Init())
  {}

  lemma AcquireUses(s: State, t: Tid, a: Act, n: Node)
    requires Uses(s, n) && Thread(s, t) && Acquiring(s.Pc(t))
    ensures Uses(AcquireStep(s, t, a), n)
  {}

  lemma AcquireThread(s: State, t: Tid, a: Act, u: Tid)
    requires Thread(s, t) && Thread(s, u) && Acquiring(s.Pc(t))
    requires s.Pc(t).LinkUp? ==> s.User(s.Pc(t).prev).By? && Entered(s.Pc(s.User(s.Pc(t).prev).t))
    ensures Thread(AcquireStep(s, t, a), u)
  {}

  /** Where the node of a call that has entered stands. */
  lemma IndexOf(s: State, t: Tid) returns (k: nat)
    requires Inv(s) && Entered(s.Pc(t))
    ensures k < |s.chain| && Memory.To(s.chain[k]) == NodeOf(s.Pc(t)) && (Holds(s.Pc(t)) ==> k == 0)
  {
    assert Thread(s, t);
    var n := NodeOf(s.Pc(t)).node;
    assert Uses(s, n);
    k :| 0 <= k < |s.chain| && s.chain[k] == n;
    assert Place(s, k);
  }

  lemma EnterPlace(s: State, t: Tid, a: Act, k: nat)
    requires Place(s, k) && (k > 0 ==> Place(s, k - 1)) && Ends(s) && Thread(s, t) && (s.Pc(t).TryCas? || s.Pc(t).Swap?)
    requires s.Pc(t).n !in s.chain
    ensures Place(AcquireStep(s, t, a), k)
  {
    var s' := AcquireStep(s, t, a);
    if k < |s.chain| { assert s.chain[k] in s.chain; }
  }

  lemma LinkPlace(s: State, t: Tid, a: Act, j: nat, k: nat)
    requires Place(s, k) && Place(s, j) && Distinct(s.chain) && Thread(s, t)
    requires (s.Pc(t).SetWait? || s.Pc(t).LinkUp? || s.Pc(t).Spin?) && j < |s.chain| && s.chain[j] == s.Pc(t).n
    ensures Place(AcquireStep(s, t, a), k)
  {
    if k < |s.chain| && k != j {
      assert s.chain[k] != s.chain[j] && (k >= 1 && j >= 1 ==> s.chain[k - 1] != s.chain[j - 1]);
    }
  }

  lemma OtherPlace(s: State, t: Tid, a: Act, k: nat)
    requires Place(s, k) && Thread(s, t) && (s.Pc(t).Idle? || s.Pc(t).Clear? || s.Pc(t).Look?)
    requires k < |s.chain| ==> s.chain[k] in s.chain && Uses(s, s.chain[k])
    requires 0 < k < |s.chain| ==> s.chain[k - 1] in s.chain && Uses(s, s.chain[k - 1])
    ensures Place(AcquireStep(s, t, a), k)
  {}

  lemma AcquireEnds(s: State, t: Tid, a: Act)
    requires Inv(s) && Acquiring(s.Pc(t))
    ensures var s' := AcquireStep(s, t, a); Ends(s') && Distinct(s'.chain) && s'.order == s'.done + s'.chain
  {
    assert Thread(s, t);
    if s.Pc(t).TryCas? || s.Pc(t).Swap? {
      assert Uses(s, s.Pc(t).n);
      AppendDistinct(s.chain, [s.Pc(t).n]);
    } else if s.Pc(t).LinkUp? {
      var j := IndexOf(s, t);
      assert Place(s, j);
    } else if s.Pc(t).Clear? {
      assert Uses(s, s.Pc(t).n);
    }
  }

  lemma AcquirePlace(s: State, t: Tid, a: Act, k: nat)
    requires Inv(s) && Acquiring(s.Pc(t))
    ensures Place(AcquireStep(s, t, a), k)
  {
    assert Thread(s, t) && Place(s, k);
    if s.Pc(t).TryCas? || s.Pc(t).Swap? {
      assert Uses(s, s.Pc(t).n) && (k > 0 ==> Place(s, k - 1));
      EnterPlace(s, t, a, k);
    } else if s.Pc(t).SetWait? || s.Pc(t).LinkUp? || s.Pc(t).Spin? {
      var j := IndexOf(s, t);
      assert Place(s, j);
      LinkPlace(s, t, a, j, k);
    } else {
      assert k < |s.chain| ==> Uses(s, s.chain[k]);
      assert 0 < k < |s.chain| ==> Uses(s, s.chain[k - 1]);
      OtherPlace(s, t, a, k);
    }
  }

  lemma AcquireKeeps(s: State, t: Tid, a: Act)
    requires Inv(s) && Acquiring(s.Pc(t))
    ensures Inv(AcquireStep(s, t, a))
  {
    var s' := AcquireStep(s, t, a);
    assert Thread(s, t);
    AcquireEnds(s, t, a);
    if s.Pc(t).LinkUp? {
      var j := IndexOf(s, t);
      assert Place(s, j) && Place(s, j - 1);
    }
    forall n ensures Uses(s', n) { assert Uses(s, n); AcquireUses(s, t, a, n); }
    forall u ensures Thread(s', u) { assert Thread(s, u); AcquireThread(s, t, a, u); }
    forall k: nat ensures Place(s', k) { AcquirePlace(s, t, a, k); }
  }

  // -------------------------------------------------------------- release

  lemma Front(s: State, t: Tid)
    requires Inv(s) && Holds(s.Pc(t))
    ensures s.chain != [] && Memory.To(s.chain[0]) == NodeOf(s.Pc(t))
    ensures s.tail == NodeOf(s.Pc(t)) ==> |s.chain| == 1
    ensures s.Pc(t).Grant? ==> |s.chain| >= 2 && s.Next(s.chain[0]) == Memory.To(s.chain[1]) && s.Wait(s.chain[1])
  {
    var j := IndexOf(s, t);
    if s.Pc(t).Grant? {
      assert Thread(s, t) && Place(s, 1);
      assert s.Next(s.chain[|s.chain| - 1]) == Null;
    }
  }

  lemma ReleaseUses(s: State, t: Tid, a: Act, n: Node)
    requires Uses(s, n) && Thread(s, t) && !Acquiring(s.Pc(t)) && Distinct(s.chain)
    requires s.chain != [] && Memory.To(s.chain[0]) == NodeOf(s.Pc(t))
    ensures Uses(ReleaseStep(s, t, a), n)
  {
    TailKeeps(s.chain, n);
  }

  lemma ReleaseThread(s: State, t: Tid, a: Act, u: Tid)
    requires Thread(s, t) && Thread(s, u) && !Acquiring(s.Pc(t))
    ensures Thread(ReleaseStep(s, t, a), u)
  {}

  /** The holder stays, and only its program counter moves. */
  lemma StayPlace(s: State, t: Tid, p: Pc, k: nat)
    requires Place(s, k) && Thread(s, t) && Holds(s.Pc(t)) && Holds(p) && NodeOf(p) == NodeOf(s.Pc(t))
    ensures Place(s.To(t, p), k)
  {}

  lemma CasPlace(s: State, t: Tid, a: Act, k: nat)
    requires s.Pc(t).Cas? && s.tail == Memory.To(s.Pc(t).n) && |s.chain| == 1
    ensures Place(ReleaseStep(s, t, a), k)
  {}

  lemma GrantPlace(s: State, t: Tid, a: Act, k: nat)
    requires Thread(s, t) && s.Pc(t).Grant? && Distinct(s.chain) && Place(s, k + 1)
    requires |s.chain| >= 2 && s.chain[0] == s.Pc(t).n && s.Next(s.chain[0]) == Memory.To(s.chain[1])
    ensures Place(ReleaseStep(s, t, a), k)
  {
    var s' := ReleaseStep(s, t, a);
    if k < |s'.chain| {
      assert s'.chain[k] == s.chain[k + 1] && s.chain[k + 1] != s.chain[0];
      assert k > 0 ==> s'.chain[k - 1] == s.chain[k] && s.chain[k + 1] != s.chain[1];
    }
  }

  lemma ReleasePlace(s: State, t: Tid, a: Act, k: nat)
    requires Thread(s, t) && !Acquiring(s.Pc(t)) && Distinct(s.chain)
    requires Place(s, k) && Place(s, k + 1) && s.chain != [] && Memory.To(s.chain[0]) == NodeOf(s.Pc(t))
    requires s.tail == NodeOf(s.Pc(t)) ==> |s.chain| == 1
    requires s.Pc(t).Grant? ==> |s.chain| >= 2 && s.Next(s.chain[0]) == Memory.To(s.chain[1])
    ensures Place(ReleaseStep(s, t, a), k)
  {
    match s.Pc(t)
    case Hold(n) => if a.Release? { StayPlace(s, t, Cas(n), k); }
    case Cas(n) => if s.tail == Memory.To(n) { CasPlace(s, t, a, k); } else { StayPlace(s, t, WaitNext(n), k); }
    case WaitNext(n) => if s.Next(n).To? { StayPlace(s, t, Grant(n), k); }
    case Grant(n) => GrantPlace(s, t, a, k);
  }

  lemma ReleaseKeeps(s: State, t: Tid, a: Act)
    requires Inv(s) && !Acquiring(s.Pc(t))
    ensures Inv(ReleaseStep(s, t, a))
  {
    var s' := ReleaseStep(s, t, a);
    assert Thread(s, t);
    Front(s, t);
    TailKeeps(s.chain, 0);
    assert s.chain == [s.chain[0]] + s.chain[1..];
    forall n ensures Uses(s', n) { assert Uses(s, n); ReleaseUses(s, t, a, n); }
    forall u ensures Thread(s', u) { assert Thread(s, u); ReleaseThread(s, t, a, u); }
    forall k: nat ensures Place(s', k) { assert Place(s, k) && Place(s, k + 1); ReleasePlace(s, t, a, k); }
  }

  // ------------------------------------------------------------- the theorems

  function After(sched: seq<(Tid, Act)>): State {
    if sched == [] then Init()
    else Step(After(sched[..|sched| - 1]), sched[|sched| - 1].0, sched[|sched| - 1].1)
  }

  lemma {:induction false} EveryRun(sched: seq<(Tid, Act)>)
    ensures Inv(After(sched))
  {
    if sched == [] {
      InitInv();
    } else {
      EveryRun(sched[..|sched| - 1]);
      var s, t, a := After(sched[..|sched| - 1]), sched[|sched| - 1].0, sched[|sched| - 1].1;
      if Acquiring(s.Pc(t)) { AcquireKeeps(s, t, a); } else { ReleaseKeeps(s, t, a); }
    }
  }

  lemma {:induction false} MutualExclusion(sched: seq<(Tid, Act)>, t: Tid, u: Tid)
    requires Holds(After(sched).Pc(t)) && Holds(After(sched).Pc(u))
    ensures t == u
  {
    EveryRun(sched);
    var s := After(sched);
    Front(s, t);
    Front(s, u);
    assert Thread(s, t) && Thread(s, u);
  }

  /** The lock is granted in the order of the exchanges of tail: the holder is the first
      acquisition that has not been released. */
  lemma {:induction false} GrantedInOrder(sched: seq<(Tid, Act)>, t: Tid)
    requires Holds(After(sched).Pc(t))
    ensures var s := After(sched);
      s.done < s.order && Memory.To(s.order[|s.done|]) == NodeOf(s.Pc(t))
  {
    EveryRun(sched);
    Front(After(sched), t);
  }

  /** No handover is missed: if any acquisition is pending, the first one holds the lock or
      has been woken, and a releaser that waits for a link has a thread about to store it. */
  lemma {:induction false} NoMissedHandover(sched: seq<(Tid, Act)>, t: Tid) returns (u: Tid)
    requires Entered(After(sched).Pc(t))
    ensures var s := After(sched);
      && s.chain != [] && s.User(s.chain[0]) == By(u)
      && (Holds(s.Pc(u)) || (s.Pc(u) == Spin(s.chain[0]) && !s.Wait(s.chain[0])))
  {
    EveryRun(sched);
    var s := After(sched);
    var k := IndexOf(s, t);
    assert Place(s, 0);
    u := s.User(s.chain[0]).t;
  }

  lemma {:induction false} WaitHasLinker(sched: seq<(Tid, Act)>, t: Tid) returns (u: Tid)
    requires var s := After(sched); s.Pc(t).WaitNext? && s.Next(s.Pc(t).n) == Null
    ensures var s := After(sched); (s.Pc(u).SetWait? || s.Pc(u).LinkUp?) && s.Pc(u).prev == s.Pc(t).n
  {
    EveryRun(sched);
    var s := After(sched);
    Front(s, t);
    assert Thread(s, t) && Place(s, 1);
    u := s.User(s.chain[1]).t;
  }

  /** The node that t's next step writes. */
  function Target(s: State, t: Tid): Ptr {
    match s.Pc(t)
    case Clear(n, _) => Memory.To(n)
    case SetWait(n, _) => Memory.To(n)
    case LinkUp(_, prev) => Memory.To(prev)
    case Grant(n) => s.Next(n)
    case _ => Null
  }

  /** A node is safe to reuse once its release has returned: no thread writes a node that
      no call is using. */
  lemma {:induction false} NoStrayWrite(sched: seq<(Tid, Act)>, t: Tid, n: Node)
    requires Target(After(sched), t) == Memory.To(n)
    ensures After(sched).User(n).By?
  {
    EveryRun(sched);
    var s := After(sched);
    assert Thread(s, t);
    if s.Pc(t).LinkUp? {
      var j := IndexOf(s, t);
      assert Place(s, j) && Place(s, j - 1);
    } else if s.Pc(t).Grant? {
      Front(s, t);
      assert Place(s, 1);
    }
  }

  // ------------------------------------------- what calls answer, and progress

  /** In tryAcquire, or in acquire, before the lock is held. */
  predicate Trying(p: Pc) { (p.Clear? && p.try_) || p.Look? || p.TryCas? }

  predicate Waiting(p: Pc) { (p.Clear? && !p.try_) || p.Swap? || p.SetWait? || p.LinkUp? || p.Spin? }

  /** tryAcquire never waits, and fails only if another acquisition is pending. */
  lemma {:induction false} TryFailsOnlyIfTaken(sched: seq<(Tid, Act)>, t: Tid, a: Act) returns (u: Tid)
    requires Trying(After(sched).Pc(t))
    ensures var s, p := After(sched), Step(After(sched), t, a).Pc(t);
      && p != s.Pc(t) && (Trying(p) || p.Hold? || p.Idle?)
      && (p.Hold? ==> s.chain == []) && (p.Idle? ==> u != t && Entered(s.Pc(u)))
  {
    EveryRun(sched);
    var s := After(sched);
    assert Thread(s, t);
    u := t;
    if s.chain != [] {
      assert Place(s, 0);
      u := s.User(s.chain[0]).t;
    }
  }

  /** acquire ends in holding the lock only. */
  lemma {:induction false} AcquireNeverFails(sched: seq<(Tid, Act)>, t: Tid, a: Act)
    requires Waiting(After(sched).Pc(t))
    ensures var p := Step(After(sched), t, a).Pc(t);
      Waiting(p) || (p.Hold? && (After(sched).chain == [] || After(sched).chain[0] == p.n))
  {
    EveryRun(sched);
    var s := After(sched);
    if s.Pc(t).Spin? {
      var k := IndexOf(s, t);
      assert Thread(s, t) && Place(s, k);
    }
  }

  /** Nobody but its holder's release ends a hold. */
  lemma {:induction false} KeepsUntilRelease(sched: seq<(Tid, Act)>, t: Tid, u: Tid, a: Act)
    requires After(sched).Pc(t).Hold? && (u == t ==> !a.Release?)
    ensures Step(After(sched), u, a).Pc(t) == After(sched).Pc(t)
  {
    HoldKept(After(sched), t, u, a);
  }

  lemma HoldKept(s: State, t: Tid, u: Tid, a: Act)
    requires s.Pc(t).Hold? && (u == t ==> !a.Release?)
    ensures Step(s, u, a).Pc(t) == s.Pc(t)
  {
    if u != t { OtherPc(s, u, a, t); }
  }

  lemma OtherPc(s: State, t: Tid, a: Act, u: Tid)
    requires u != t
    ensures Step(s, t, a).Pc(u) == s.Pc(u)
  {}

  /** No deadlock: while a call is under way, somebody holds the lock at leisure, or some
      thread's next step takes it further. */
  lemma {:induction false} NoDeadlock(sched: seq<(Tid, Act)>, t: Tid) returns (u: Tid)
    requires !After(sched).Pc(t).Idle?
    ensures var s := After(sched);
      s.Pc(u).Hold? || (!s.Pc(u).Idle? && Step(s, u, Go).Pc(u) != s.Pc(u))
  {
    EveryRun(sched);
    var s := After(sched);
    assert Thread(s, t);
    u := t;
    if Entered(s.Pc(t)) {
      u := NoMissedHandover(sched, t);
      assert Thread(s, u) && Uses(s, s.chain[0]) && Place(s, 0);
      if s.Pc(u).WaitNext? && s.Next(s.Pc(u).n).Null? { u := WaitHasLinker(sched, u); }
    }
  }

  /** n steps of t while nobody else moves; an idle t begins a. */
  function Alone(s: State, t: Tid, a: Act, n: nat): State
    decreases n
  {
    if n == 0 then s else Step(Alone(s, t, a, n - 1), t, a)
  }

  /** The free lock is acquired by either call, ... */
  lemma FreeIsTaken(s: State, t: Tid, n: Node)
    requires s.Pc(t).Idle? && s.User(n).Nobody? && s.tail == Null && s.chain == []
    ensures Alone(s, t, Acquire(n), 3).Pc(t) == Hold(n)
    ensures Alone(s, t, Acquire(n), 3).chain == [n] && Alone(s, t, Acquire(n), 3).tail == Memory.To(n)
  {
    assert Alone(s, t, Acquire(n), 1).Pc(t) == Clear(n, false);
    assert Alone(s, t, Acquire(n), 2).Pc(t) == Swap(n);
  }

  lemma FreeIsTried(s: State, t: Tid, n: Node)
    requires s.Pc(t).Idle? && s.User(n).Nobody? && s.tail == Null && s.chain == []
    ensures Alone(s, t, TryAcquire(n), 4).Pc(t) == Hold(n)
    ensures Alone(s, t, TryAcquire(n), 4).chain == [n] && Alone(s, t, TryAcquire(n), 4).tail == Memory.To(n)
  {
    assert Alone(s, t, TryAcquire(n), 1).Pc(t) == Clear(n, true);
    assert Alone(s, t, TryAcquire(n), 2).Pc(t) == Look(n);
    assert Alone(s, t, TryAcquire(n), 3).Pc(t) == TryCas(n);
  }

  /** ... and the release of its only user frees it again. */
  lemma LastFrees(s: State, t: Tid, n: Node)
    requires s.Pc(t) == Hold(n) && s.tail == Memory.To(n) && s.chain == [n]
    ensures var s' := Alone(s, t, Release, 2); s'.Pc(t).Idle? && s'.tail == Null && s'.chain == [] && s'.User(n).Nobody?
  {
    assert Alone(s, t, Release, 1).Pc(t) == Cas(n);
  }
}
