/** The stub-based MPSC queue (QueueStub), blocking or not: lock-free push of segments, and
    pop by any number of threads that share a lock.  One shared access is one step; head is
    private to the holder of the lock. */
module StubQueue {
  import opened Memory

  /** History: who may touch a node. */
  datatype Place =
    | Free
    | Private(t: Tid)
    | Trailing(t: Tid, pred: Node)  // first of a segment not yet linked from pred
    | Queued

  datatype Pc =
    | Idle
    | Swap(seg: seq<Node>)                // push: exchange tail
    | SetNext(first: Node, pred: Node)    // push: store the predecessor's link
    | Lock
    | Check                               // checkStub; lock held up to Unlock
    | WaitStub
    | SetHead                             // head = Next(stub)
    | ClearStub
    | ReSwap                              // push(stub): exchange tail
    | ReLink(pred: Node)
    | WaitHead(elem: Node)
    | Advance(elem: Node)                 // head = Next(head)
    | Unlock(result: Ptr)
    | Clear(elem: Node)                   // lock released

  datatype Holder = Open | Held(t: Tid)

  datatype Act = Push(seg: seq<Node>) | Pop | Write(n: Node, p: Ptr)

  datatype State = State(
    stub: Node,
    blocking: bool,
    head: Node,
    tail: Node,
    mark: bool,           // the low bit of tail: the queue is marked empty
    next: map<Node, Ptr>,
    lock: Holder,
    pc: map<Tid, Pc>,
    place: map<Node, Place>,
    chain: seq<Node>,     // history: nodes in the queue, in tail-exchange order
    order: seq<Node>,     // history: elements pushed, in tail-exchange order
    out: seq<Node>,       // history: elements popped
    marks: nat,           // history: times the queue was marked empty
    wakes: nat)           // history: pushes that returned true
  {
    function Pc(t: Tid): Pc { if t in pc then pc[t] else Idle }
    function Place(n: Node): Place { if n in place then place[n] else if n == stub then Queued else Free }
    function Next(n: Node): Ptr { Link(next, n) }
    function Go(t: Tid, p: Pc): State { this.(pc := pc[t := p]) }
    predicate InChain(n: Node) { Place(n).Queued? || Place(n).Trailing? }
  }

  function Init(stub: Node, blocking: bool): State {
    State(stub, blocking, stub, stub, blocking, map[], Open, map[], map[], [stub], [], [], if blocking then 1 else 0, 0)
  }

  // ---------------------------------------------------------------- the steps

  ghost predicate Inner(s: State, seg: seq<Node>, i: int) {
    0 <= i < |seg| - 1 ==> s.Next(seg[i]) == To(seg[i + 1])
  }

  /** The nodes of a segment are linked to each other, and the last to nothing. */
  ghost predicate Joined(s: State, seg: seq<Node>) {
    seg != [] && Distinct(seg) && s.Next(seg[|seg| - 1]) == Null && forall i :: Inner(s, seg, i)
  }

  ghost predicate CanPush(s: State, seg: seq<Node>) {
    Joined(s, seg) && forall n :: n in seg ==> s.Place(n).Free?
  }

  function Marked(place: map<Node, Place>, seg: seq<Node>, p: Place): map<Node, Place> {
    place + (map n | n in seg :: p)
  }

  ghost function Begin(s: State, t: Tid, a: Act): State {
    match a
    case Push(seg) => if CanPush(s, seg) then s.Go(t, Swap(seg)).(place := Marked(s.place, seg, Private(t))) else s
    case Pop => s.Go(t, Lock)
    case Write(n, p) => if s.Place(n).Free? then s.(next := s.next[n := p]) else s
  }

  /** Exchange tail, and look at the old value's mark. */
  function Append(s: State, t: Tid, seg: seq<Node>, p: Pc): State
    requires seg != []
  {
    s.(tail := seg[|seg| - 1], mark := false, chain := s.chain + seg,
       wakes := if s.mark then s.wakes + 1 else s.wakes,
       place := Marked(s.place, seg, Queued)[seg[0] := Trailing(t, s.tail)], pc := s.pc[t := p])
  }

  predicate InPush(p: Pc) { p.Idle? || p.Swap? || p.SetNext? }

  ghost function PushStep(s: State, t: Tid, a: Act): State {
    match s.Pc(t)
    case Idle => Begin(s, t, a)
    case Swap(seg) => if seg == [] then s else Append(s, t, seg, SetNext(seg[0], s.tail)).(order := s.order + seg)
    case SetNext(first, pred) =>
      s.(next := s.next[pred := To(first)], place := s.place[first := Queued], pc := s.pc[t := Idle])
    case _ => s
  }

  /** pop, under the lock but for its last step. */
  function PopStep(s: State, t: Tid): State {
    match s.Pc(t)
    case Lock => if s.lock.Open? then s.(pc := s.pc[t := Check], lock := Held(t)) else s
    case Check =>
      if s.head != s.stub then s.Go(t, WaitHead(s.head))
      else if s.tail != s.stub then s.Go(t, WaitStub)
      else if s.blocking && !s.mark then s.(pc := s.pc[t := Unlock(Null)], mark := true, marks := s.marks + 1)
      else s.Go(t, Unlock(Null))
    case WaitStub => if s.Next(s.stub).To? then s.Go(t, SetHead) else s
    case SetHead =>
      if s.Next(s.stub).To? && s.chain != [] then
        s.(head := s.Next(s.stub).node, pc := s.pc[t := ClearStub],
           chain := s.chain[1..], place := s.place[s.stub := Private(t)])
      else s
    case ClearStub => s.(next := s.next[s.stub := Null], pc := s.pc[t := ReSwap])
    case ReSwap => Append(s, t, [s.stub], ReLink(s.tail))
    case ReLink(pred) =>
      s.(next := s.next[pred := To(s.stub)], place := s.place[s.stub := Queued], pc := s.pc[t := WaitHead(s.head)])
    case WaitHead(elem) => if s.Next(elem).To? then s.Go(t, Advance(elem)) else s
    case Advance(elem) =>
      if s.Next(elem).To? && s.chain != [] then
        s.(head := s.Next(elem).node, pc := s.pc[t := Unlock(To(elem))],
           chain := s.chain[1..], out := s.out + [elem], place := s.place[elem := Private(t)])
      else s
    case Unlock(result) => s.(lock := Open, pc := s.pc[t := if result.Null? then Idle else Clear(result.node)])
    case Clear(elem) => s.(next := s.next[elem := Null], place := s.place[elem := Free], pc := s.pc[t := Idle])
    case _ => s
  }

  ghost function Step(s: State, t: Tid, a: Act): State {
    if InPush(s.Pc(t)) then PushStep(s, t, a) else PopStep(s, t)
  }

  // ------------------------------------------------------------ the invariant

  predicate Linked(s: State, a: Node, b: Node) {
    if s.Place(b).Trailing? then s.Place(b).pred == a && s.Next(a) == Null else s.Next(a) == To(b)
  }

  predicate Pair(s: State, k: int) {
    0 <= k < |s.chain| - 1 ==> Linked(s, s.chain[k], s.chain[k + 1])
  }

  predicate Ends(s: State) {
    && s.chain != [] && s.head == s.chain[0] && s.tail == s.chain[|s.chain| - 1]
    && s.Next(s.tail) == Null && s.Place(s.head).Queued?
    && (s.mark ==> s.chain == [s.stub])
  }

  /** The stub is in the chain, or in the hands of the popper that moves it. */
  predicate StubSafe(s: State) {
    if s.Place(s.stub).Private? then
      s.lock == Held(s.Place(s.stub).t) && (s.Pc(s.lock.t).ClearStub? || s.Pc(s.lock.t).ReSwap?) && !s.mark
    else !s.Place(s.stub).Free?
  }

  ghost predicate Nodes(s: State) {
    Distinct(s.chain) && forall n: Node :: n in s.chain <==> s.InChain(n)
  }

  predicate Owned(s: State, n: Node) {
    s.Place(n).Trailing? ==>
      (s.Pc(s.Place(n).t) == SetNext(n, s.Place(n).pred) || (s.Pc(s.Place(n).t) == ReLink(s.Place(n).pred) && n == s.stub))
  }

  predicate InLock(p: Pc) {
    !InPush(p) && !p.Lock? && !p.Clear?
  }

  ghost predicate Thread(s: State, t: Tid) {
    && (InLock(s.Pc(t)) <==> s.lock == Held(t))
    && match s.Pc(t)
       case Swap(seg) => Joined(s, seg) && forall n :: n in seg ==> s.Place(n) == Private(t) && n != s.stub
       case SetNext(first, pred) => s.Place(first) == Trailing(t, pred) && first != s.stub
       case WaitStub => s.head == s.stub && s.tail != s.stub
       case SetHead => s.head == s.stub && s.tail != s.stub && s.Next(s.stub).To?
       case ClearStub => s.Place(s.stub) == Private(t)
       case ReSwap => s.Place(s.stub) == Private(t) && s.Next(s.stub) == Null
       case ReLink(pred) => s.Place(s.stub) == Trailing(t, pred)
       case WaitHead(elem) => s.head == elem && elem != s.stub
       case Advance(elem) => s.head == elem && elem != s.stub && s.Next(elem).To?
       case Unlock(result) => result.To? ==> s.Place(result.node) == Private(t) && result.node != s.stub
       case Clear(elem) => s.Place(elem) == Private(t) && elem != s.stub
       case _ => true
  }

  ghost predicate Core(s: State) {
    && Ends(s) && StubSafe(s) && Nodes(s)
    && (forall k: int :: Pair(s, k))
    && (forall n: Node :: Owned(s, n))
    && (forall t: Tid :: Thread(s, t))
  }

  ghost predicate Fifo(s: State) {
    s.order == s.out + Without(s.chain, s.stub)
  }

  predicate Alarm(s: State) {
    if s.blocking then s.marks == s.wakes + (if s.mark then 1 else 0) else !s.mark && s.marks == 0 && s.wakes == 0
  }

  ghost predicate Inv(s: State) {
    Core(s) && Fifo(s) && Alarm(s)
  }

  // ------------------------------------------------------ every step keeps it

  lemma InitInv(stub: Node, blocking: bool)
    ensures Inv(Init(stub, blocking))
  {}

  /** What t's step leaves alone, so that the other threads are undisturbed. */
  ghost predicate Frame(s: State, s': State, t: Tid) {
    && s'.stub == s.stub
    && (forall u :: u != t ==> s'.Pc(u) == s.Pc(u))
    && (forall n :: !s.Place(n).Free? && !s.Place(n).Queued? && s.Place(n).t != t ==>
          s'.Place(n) == s.Place(n) && (s.Place(n).Private? ==> s'.Next(n) == s.Next(n)))
    && (forall n :: s.Next(n).To? && s.InChain(n) ==> s'.Next(n) == s.Next(n) || s.lock == Held(t))
    && (s'.lock == s.lock || ((s.lock.Open? || s.lock.t == t) && (s'.lock.Open? || s'.lock.t == t)))
    && (s.lock.Held? && s.lock.t != t ==> s'.head == s.head && (s.tail != s.stub && s.Place(s.stub).Queued? ==> s'.tail != s.stub))
  }

  lemma ThreadFrame(s: State, s': State, t: Tid, u: Tid)
    requires Frame(s, s', t) && u != t && Thread(s, u) && StubSafe(s) && Ends(s)
    requires s.InChain(s.head)
    ensures Thread(s', u)
  {
    if s.Pc(u).Swap? {
      forall i ensures Inner(s', s.Pc(u).seg, i) { assert Inner(s, s.Pc(u).seg, i); }
    }
  }

  lemma Glue(s: State, s': State, t: Tid)
    requires Core(s) && Frame(s, s', t) && Thread(s', t)
    requires Ends(s') && StubSafe(s') && Nodes(s') && (forall k: int :: Pair(s', k)) && (forall n: Node :: Owned(s', n))
    ensures Core(s')
  {
    assert s.InChain(s.head) by { assert s.head in s.chain; }
    forall u ensures Thread(s', u) {
      assert Thread(s, u);
      if u != t { ThreadFrame(s, s', t, u); }
    }
  }

  /** Appending a segment whose first node is not linked yet. */
  lemma AppendKeeps(s: State, t: Tid, seg: seq<Node>, p: Pc)
    requires Core(s) && Joined(s, seg) && (forall n :: n in seg ==> s.Place(n) == Private(t))
    requires p == SetNext(seg[0], s.tail) || (p == ReLink(s.tail) && seg == [s.stub])
    requires s.Pc(t).Swap? || s.Pc(t).ReSwap?
    ensures var s' := Append(s, t, seg, p);
      Nodes(s') && (forall k: int :: Pair(s', k)) && (forall n: Node :: Owned(s', n))
  {
    var s' := Append(s, t, seg, p);
    forall n | n in seg ensures n !in s.chain { assert !s.InChain(n); }
    AppendDistinct(s.chain, seg);
    forall n: Node ensures n in s'.chain <==> s'.InChain(n) { assert n in s.chain <==> s.InChain(n); }
    forall n: Node ensures Owned(s', n) { assert Owned(s, n); assert Thread(s, t); }
    forall k: int ensures Pair(s', k) { AppendPair(s, t, seg, p, k); }
  }

  lemma AppendPair(s: State, t: Tid, seg: seq<Node>, p: Pc, k: int)
    requires Joined(s, seg) && Ends(s) && Pair(s, k) && Distinct(s.chain)
    requires forall n :: n in seg ==> n !in s.chain
    ensures Pair(Append(s, t, seg, p), k)
  {
    var s' := Append(s, t, seg, p);
    var m := |s.chain|;
    if 0 <= k < |s'.chain| - 1 {
      if k < m - 1 {
        assert s'.chain[k] == s.chain[k] && s'.chain[k + 1] == s.chain[k + 1];
        assert s.chain[k] in s.chain && s.chain[k + 1] in s.chain;
      } else if k == m - 1 {
        assert s'.chain[k] == s.tail && s'.chain[k + 1] == seg[0];
        assert s.tail in s.chain;
      } else {
        assert s'.chain[k] == seg[k - m] && s'.chain[k + 1] == seg[k - m + 1];
        assert Inner(s, seg, k - m) && seg[k - m] in seg && seg[k - m + 1] in seg && seg[k - m + 1] != seg[0];
      }
    }
  }

  lemma SwapKeeps(s: State, t: Tid, a: Act)
    requires Core(s) && s.Pc(t).Swap?
    ensures Core(Step(s, t, a))
  {
    var seg := s.Pc(t).seg;
    assert Thread(s, t);
    AppendKeeps(s, t, seg, SetNext(seg[0], s.tail));
    var s1 := Append(s, t, seg, SetNext(seg[0], s.tail));
    var s' := Step(s, t, a);
    assert s' == s1.(order := s.order + seg);
    AppendEnds(s, t, seg, SetNext(seg[0], s.tail));
    SwapSame(s1, s');
    Glue(s, s', t);
  }

  /** The order of the exchanges is of no matter to the chain. */
  lemma SwapSame(s1: State, s': State)
    requires s' == s1.(order := s'.order) && Nodes(s1)
    requires (forall k: int :: Pair(s1, k)) && (forall n: Node :: Owned(s1, n))
    ensures Nodes(s') && (forall k: int :: Pair(s', k)) && (forall n: Node :: Owned(s', n))
  {
    forall k: int ensures Pair(s', k) { assert Pair(s1, k); }
    forall n: Node ensures Owned(s', n) { assert Owned(s1, n); }
  }

  lemma AppendEnds(s: State, t: Tid, seg: seq<Node>, p: Pc)
    requires Core(s) && Joined(s, seg) && (forall n :: n in seg ==> s.Place(n) == Private(t))
    requires s.Pc(t).Swap? || s.Pc(t).ReSwap?
    requires if s.Pc(t).ReSwap? then seg == [s.stub] && p == ReLink(s.tail) else s.stub !in seg && p == SetNext(seg[0], s.tail)
    ensures Ends(Append(s, t, seg, p)) && StubSafe(Append(s, t, seg, p))
  {
    assert s.chain[0] in s.chain && s.InChain(s.chain[0]);
  }

  lemma ReSwapKeeps(s: State, t: Tid, a: Act)
    requires Core(s) && s.Pc(t).ReSwap?
    ensures Core(Step(s, t, a))
  {
    assert Thread(s, t);
    AppendKeeps(s, t, [s.stub], ReLink(s.tail));
    AppendEnds(s, t, [s.stub], ReLink(s.tail));
    Glue(s, Step(s, t, a), t);
  }

  /** A pusher stores the missing link. */
  lemma LinkKeeps(s: State, t: Tid, a: Act)
    requires Core(s) && (s.Pc(t).SetNext? || s.Pc(t).ReLink?)
    ensures Core(Step(s, t, a))
  {
    var s' := Step(s, t, a);
    var first, pred := if s.Pc(t).SetNext? then s.Pc(t).first else s.stub, s.Pc(t).pred;
    assert Thread(s, t) && s.Place(first) == Trailing(t, pred);
    var j := TrailingAt(s, first);
    forall k: int ensures Pair(s', k) {
      assert Pair(s, k) && Pair(s, j);
      if 0 <= k < |s.chain| - 1 {
        assert k != j ==> s.chain[k] != pred && s.chain[k + 1] != first;
      }
    }
    assert Owned(s, s.head);
    forall n: Node ensures Owned(s', n) { assert Owned(s, n); }
    forall n: Node ensures n in s'.chain <==> s'.InChain(n) { assert n in s.chain <==> s.InChain(n); }
    assert s.chain[|s.chain| - 1] != pred;
    assert Pair(s, j);
    assert s.InChain(pred) && s.Next(pred) == Null;
    Glue(s, s', t);
  }

  lemma TrailingAt(s: State, n: Node) returns (j: int)
    requires Core(s) && s.Place(n).Trailing?
    ensures 0 <= j < |s.chain| - 1 && s.chain[j + 1] == n && s.chain[j] == s.Place(n).pred
  {
    assert n in s.chain;
    var k :| 0 <= k < |s.chain| && s.chain[k] == n;
    j := k - 1;
    assert Pair(s, j);
  }

  /** The first node leaves the chain; its link is there. */
  lemma FrontKeeps(s: State, t: Tid, a: Act)
    requires Core(s) && (s.Pc(t).SetHead? || s.Pc(t).Advance?)
    ensures Core(Step(s, t, a)) && |s.chain| >= 2 && s.chain[0] == (if s.Pc(t).SetHead? then s.stub else s.Pc(t).elem)
    ensures Step(s, t, a).chain == s.chain[1..]
  {
    var s' := Step(s, t, a);
    assert Thread(s, t);
    TwoNodes(s, t);
    var f := s.chain[0];
    assert Pair(s, 0);
    forall k: int ensures Pair(s', k) {
      if 0 <= k < |s'.chain| - 1 {
        assert Pair(s, k + 1);
        assert s'.chain[k] == s.chain[k + 1] && s'.chain[k + 1] == s.chain[k + 2];
        assert s.chain[k + 1] != f && s.chain[k + 2] != f;
      }
    }
    forall n: Node ensures n in s'.chain <==> s'.InChain(n) {
      assert n in s.chain <==> s.InChain(n);
      TailKeeps(s.chain, n);
    }
    assert s.InChain(s.chain[1]) by { assert s.chain[1] in s.chain; }
    forall n: Node ensures Owned(s', n) { assert Owned(s, n); }
    Glue(s, s', t);
  }

  lemma TwoNodes(s: State, t: Tid)
    requires Core(s) && (s.Pc(t).SetHead? || s.Pc(t).Advance?)
    ensures |s.chain| >= 2
  {
    assert Thread(s, t);
    if s.Pc(t).Advance? {
      assert s.stub in s.chain by { assert s.InChain(s.stub); }
    }
  }

  /** The chain, its links and its ends stay as they are. */
  ghost predicate SameChain(s: State, s': State, t: Tid) {
    && s'.stub == s.stub && s'.chain == s.chain && s'.head == s.head && s'.tail == s.tail
    && (s'.mark ==> s.mark || s.chain == [s.stub])
    && (forall u :: u != t ==> s'.Pc(u) == s.Pc(u))
    && (forall n :: s.InChain(n) ==> s'.Next(n) == s.Next(n) && s'.Place(n) == s.Place(n))
    && (forall n :: !s.InChain(n) ==> !s'.InChain(n))
  }

  lemma ChainKept(s: State, s': State, t: Tid)
    requires Core(s) && SameChain(s, s', t) && !s.Pc(t).SetNext? && !s.Pc(t).ReLink?
    ensures Ends(s') && Nodes(s') && (forall k: int :: Pair(s', k)) && (forall n: Node :: Owned(s', n))
  {
    assert s.head in s.chain && s.tail in s.chain;
    forall k: int ensures Pair(s', k) {
      assert Pair(s, k);
      if 0 <= k < |s.chain| - 1 { assert s.chain[k] in s.chain && s.chain[k + 1] in s.chain; }
    }
    forall n: Node ensures Owned(s', n) { assert Owned(s, n); }
    forall n: Node ensures n in s'.chain <==> s'.InChain(n) { assert n in s.chain <==> s.InChain(n); }
  }

  predicate Quiet(p: Pc) {
    p.Lock? || p.Check? || p.WaitStub? || p.ClearStub? || p.WaitHead? || p.Unlock? || p.Clear?
  }

  lemma CheckSame(s: State, t: Tid)
    requires s.Pc(t).Check? && Ends(s) && Distinct(s.chain)
    ensures SameChain(s, PopStep(s, t), t)
  {
    if s.head == s.stub && s.tail == s.stub { assert |s.chain| == 1 && s.chain == [s.stub]; }
  }

  lemma ClearSame(s: State, t: Tid)
    requires Thread(s, t) && (s.Pc(t).ClearStub? || s.Pc(t).Clear?)
    ensures SameChain(s, PopStep(s, t), t)
  {}

  lemma WaitSame(s: State, t: Tid)
    requires s.Pc(t).Lock? || s.Pc(t).WaitStub? || s.Pc(t).WaitHead? || s.Pc(t).Unlock?
    ensures SameChain(s, PopStep(s, t), t)
  {}

  lemma QuietSame(s: State, t: Tid)
    requires Thread(s, t) && Quiet(s.Pc(t)) && Ends(s) && Distinct(s.chain)
    ensures SameChain(s, PopStep(s, t), t)
  {
    if s.Pc(t).Check? { CheckSame(s, t); }
    else if s.Pc(t).ClearStub? || s.Pc(t).Clear? { ClearSame(s, t); }
    else { WaitSame(s, t); }
  }

  lemma QuietStub(s: State, t: Tid)
    requires Thread(s, t) && Quiet(s.Pc(t)) && StubSafe(s)
    ensures StubSafe(PopStep(s, t))
  {}

  lemma QuietThread(s: State, t: Tid)
    requires Thread(s, t) && Quiet(s.Pc(t)) && Ends(s) && StubSafe(s)
    ensures Thread(PopStep(s, t), t)
  {}

  lemma QuietFrame(s: State, t: Tid)
    requires Thread(s, t) && Quiet(s.Pc(t)) && Ends(s) && StubSafe(s)
    ensures Frame(s, PopStep(s, t), t)
  {}

  lemma QuietKeeps(s: State, t: Tid, a: Act)
    requires Core(s) && Quiet(s.Pc(t))
    ensures Core(Step(s, t, a))
  {
    assert Thread(s, t);
    QuietSame(s, t);
    QuietStub(s, t);
    QuietThread(s, t);
    QuietFrame(s, t);
    ChainKept(s, PopStep(s, t), t);
    Glue(s, PopStep(s, t), t);
  }

  lemma BeginKeeps(s: State, t: Tid, a: Act)
    requires Core(s) && s.Pc(t).Idle?
    ensures Core(Step(s, t, a))
  {
    var s' := Begin(s, t, a);
    assert Thread(s, t);
    BeginThread(s, t, a);
    BeginSame(s, t, a);
    BeginStub(s, t, a);
    BeginFrame(s, t, a);
    ChainKept(s, s', t);
    Glue(s, s', t);
  }

  lemma BeginThread(s: State, t: Tid, a: Act)
    requires Thread(s, t) && s.Pc(t).Idle? && StubSafe(s)
    ensures Thread(Begin(s, t, a), t)
  {
    if a.Push? && CanPush(s, a.seg) {
      forall i ensures Inner(Begin(s, t, a), a.seg, i) { assert Inner(s, a.seg, i); }
    }
  }

  lemma BeginStub(s: State, t: Tid, a: Act)
    requires s.Pc(t).Idle? && StubSafe(s) && Thread(s, t)
    ensures StubSafe(Begin(s, t, a))
  {}

  lemma BeginSame(s: State, t: Tid, a: Act)
    requires s.Pc(t).Idle?
    ensures SameChain(s, Begin(s, t, a), t)
  {
    var s' := Begin(s, t, a);
    forall n ensures s.InChain(n) ==> s'.Next(n) == s.Next(n) && s'.Place(n) == s.Place(n) {}
    forall n ensures !s.InChain(n) ==> !s'.InChain(n) {}
  }

  lemma BeginFrame(s: State, t: Tid, a: Act)
    requires s.Pc(t).Idle? && StubSafe(s) && Thread(s, t)
    ensures Frame(s, Begin(s, t, a), t)
  {}

  lemma CoreKeeps(s: State, t: Tid, a: Act)
    requires Core(s)
    ensures Core(Step(s, t, a))
  {
    match s.Pc(t)
    case Idle => BeginKeeps(s, t, a);
    case Swap(_) => SwapKeeps(s, t, a);
    case ReSwap => ReSwapKeeps(s, t, a);
    case SetNext(_, _) => LinkKeeps(s, t, a);
    case ReLink(_) => LinkKeeps(s, t, a);
    case SetHead => FrontKeeps(s, t, a);
    case Advance(_) => FrontKeeps(s, t, a);
    case _ => QuietKeeps(s, t, a);
  }

  // ---------------------------------------------------- order and marking

  lemma {:induction false} WithoutAppend(q: seq<Node>, seg: seq<Node>, n: Node)
    requires n !in seg
    ensures Without(q + seg, n) == Without(q, n) + seg
  {
    if q == [] {
      WithoutNone(seg, n);
      assert q + seg == seg;
    } else {
      assert (q + seg)[1..] == q[1..] + seg;
      WithoutAppend(q[1..], seg, n);
    }
  }

  lemma {:induction false} WithoutNone(q: seq<Node>, n: Node)
    requires n !in q
    ensures Without(q, n) == q
  {
    if q != [] { WithoutNone(q[1..], n); }
  }

  lemma {:induction false} WithoutLast(q: seq<Node>, n: Node)
    requires n !in q
    ensures Without(q + [n], n) == q
  {
    if q != [] {
      assert (q + [n])[1..] == q[1..] + [n];
      WithoutLast(q[1..], n);
    }
  }

  lemma SwapFifo(s: State, t: Tid, a: Act)
    requires Core(s) && Fifo(s) && s.Pc(t).Swap?
    ensures Fifo(PushStep(s, t, a))
  {
    assert Thread(s, t);
    WithoutAppend(s.chain, s.Pc(t).seg, s.stub);
  }

  lemma ReSwapFifo(s: State, t: Tid)
    requires Core(s) && Fifo(s) && s.Pc(t).ReSwap?
    ensures Fifo(PopStep(s, t))
  {
    assert Thread(s, t);
    assert s.stub !in s.chain;
    WithoutLast(s.chain, s.stub);
    WithoutNone(s.chain, s.stub);
  }

  lemma FrontFifo(s: State, t: Tid, a: Act)
    requires Core(s) && Fifo(s) && (s.Pc(t).SetHead? || s.Pc(t).Advance?)
    ensures Fifo(Step(s, t, a))
  {
    FrontKeeps(s, t, a);
    var s' := PopStep(s, t);
    assert Thread(s, t);
    if s.Pc(t).SetHead? {
      TailKeeps(s.chain, s.stub);
      WithoutNone(s'.chain, s.stub);
    } else {
      assert Without(s.chain, s.stub) == [s.Pc(t).elem] + Without(s.chain[1..], s.stub);
    }
  }

  lemma FifoKeeps(s: State, t: Tid, a: Act)
    requires Core(s) && Fifo(s)
    ensures Fifo(Step(s, t, a))
  {
    if s.Pc(t).Swap? { SwapFifo(s, t, a); }
    else if s.Pc(t).ReSwap? { ReSwapFifo(s, t); }
    else if s.Pc(t).SetHead? || s.Pc(t).Advance? { FrontFifo(s, t, a); }
    else if InPush(s.Pc(t)) { PushOrder(s, t, a); }
    else { PopOrder(s, t); }
  }

  lemma PushOrder(s: State, t: Tid, a: Act)
    requires !s.Pc(t).Swap?
    ensures var s' := PushStep(s, t, a);
      s'.chain == s.chain && s'.order == s.order && s'.out == s.out && s'.stub == s.stub
  {}

  lemma PopOrder(s: State, t: Tid)
    requires !s.Pc(t).ReSwap? && !s.Pc(t).SetHead? && !s.Pc(t).Advance?
    ensures var s' := PopStep(s, t);
      s'.chain == s.chain && s'.order == s.order && s'.out == s.out && s'.stub == s.stub
  {
    var s' := PopStep(s, t);
    if s.Pc(t).Lock? || s.Pc(t).WaitStub? || s.Pc(t).WaitHead? || s.Pc(t).Unlock? {
      assert s'.chain == s.chain && s'.order == s.order;
    }
  }

  lemma AlarmKeeps(s: State, t: Tid, a: Act)
    requires Core(s) && Alarm(s)
    ensures Alarm(Step(s, t, a))
  {
    assert Thread(s, t);
  }

  // ------------------------------------------------------------- the theorems

  ghost function After(stub: Node, blocking: bool, sched: seq<(Tid, Act)>): State {
    if sched == [] then Init(stub, blocking)
    else Step(After(stub, blocking, sched[..|sched| - 1]), sched[|sched| - 1].0, sched[|sched| - 1].1)
  }

  lemma SameQueue(s: State, t: Tid, a: Act)
    ensures Step(s, t, a).stub == s.stub && Step(s, t, a).blocking == s.blocking
  {
    if !InPush(s.Pc(t)) { PopSameQueue(s, t); }
  }

  lemma PopSameQueue(s: State, t: Tid)
    ensures PopStep(s, t).stub == s.stub && PopStep(s, t).blocking == s.blocking
  {}

  lemma {:induction false} EveryRun(stub: Node, blocking: bool, sched: seq<(Tid, Act)>)
    ensures Inv(After(stub, blocking, sched)) && After(stub, blocking, sched).stub == stub
    ensures After(stub, blocking, sched).blocking == blocking
  {
    if sched == [] {
      InitInv(stub, blocking);
    } else {
      var s, t, a := After(stub, blocking, sched[..|sched| - 1]), sched[|sched| - 1].0, sched[|sched| - 1].1;
      EveryRun(stub, blocking, sched[..|sched| - 1]);
      CoreKeeps(s, t, a);
      FifoKeeps(s, t, a);
      AlarmKeeps(s, t, a);
      SameQueue(s, t, a);
    }
  }

  /** First in, first out: what was popped is a prefix of what was pushed, in the order of
      the exchanges, and the rest is the chain with the stub left out. */
  lemma {:induction false} FirstInFirstOut(stub: Node, blocking: bool, sched: seq<(Tid, Act)>)
    ensures var s := After(stub, blocking, sched);
      s.out <= s.order && s.order[|s.out|..] == Without(s.chain, stub)
  {
    EveryRun(stub, blocking, sched);
  }

  /** The stub is in the chain once, or on its way to the end in the hands of the thread
      that holds the lock; and it is never returned. */
  lemma {:induction false} StubStays(stub: Node, blocking: bool, sched: seq<(Tid, Act)>, t: Tid)
    ensures var s := After(stub, blocking, sched);
      && Distinct(s.chain)
      && (stub in s.chain || (s.lock.Held? && (s.Pc(s.lock.t).ClearStub? || s.Pc(s.lock.t).ReSwap?)))
      && (s.Pc(t).Unlock? ==> s.Pc(t).result != To(stub)) && (s.Pc(t).Clear? ==> s.Pc(t).elem != stub)
  {
    EveryRun(stub, blocking, sched);
    var s := After(stub, blocking, sched);
    assert Thread(s, t);
    assert stub in s.chain <==> s.InChain(stub);
  }

  /** A pop that reports an empty queue found it empty: at its check every element pushed
      had been popped. */
  lemma {:induction false} EmptyIsEmpty(stub: Node, blocking: bool, sched: seq<(Tid, Act)>, t: Tid, a: Act)
    requires After(stub, blocking, sched).Pc(t).Check?
    requires Step(After(stub, blocking, sched), t, a).Pc(t) == Unlock(Null)
    ensures var s := After(stub, blocking, sched); s.chain == [stub] && s.order == s.out
    ensures blocking ==> Step(After(stub, blocking, sched), t, a).mark
  {
    EveryRun(stub, blocking, sched);
    var s := After(stub, blocking, sched);
    assert |s.chain| == 1;
    assert s.chain == [stub];
  }

  /** In blocking mode pushes that return true and empty markings alternate: between two
      markings exactly one push returns true, and moving the stub never consumes a mark. */
  lemma {:induction false} MarksAlternate(stub: Node, sched: seq<(Tid, Act)>, t: Tid)
    ensures var s := After(stub, true, sched);
      && s.wakes <= s.marks <= s.wakes + 1
      && (s.mark <==> s.marks == s.wakes + 1)
      && (s.mark ==> s.chain == [stub])
      && (s.Pc(t).ReSwap? ==> !s.mark)
  {
    EveryRun(stub, true, sched);
    assert Thread(After(stub, true, sched), t);
  }

  /** A popper that waits for a link waits for a pusher that still has to store it. */
  lemma {:induction false} WaitHasPusher(stub: Node, blocking: bool, sched: seq<(Tid, Act)>, t: Tid) returns (u: Tid)
    requires var s := After(stub, blocking, sched); (s.Pc(t).WaitStub? || s.Pc(t).WaitHead?) && s.Next(s.head) == Null
    ensures var s := After(stub, blocking, sched); s.Pc(u).SetNext? && s.Pc(u).pred == s.head
  {
    EveryRun(stub, blocking, sched);
    var s := After(stub, blocking, sched);
    assert Thread(s, t);
    if s.Pc(t).WaitHead? { assert stub in s.chain by { assert s.InChain(stub); } }
    assert |s.chain| >= 2 && Pair(s, 0);
    var b := s.chain[1];
    assert Owned(s, b) && s.Place(b).Trailing?;
    u := s.Place(b).t;
    assert Thread(s, u);
  }

  // ------------------------------------------- what calls answer, and progress

  /** A pop reports an empty queue exactly if at its check every element pushed has been
      popped. */
  lemma {:induction false} EmptyIff(stub: Node, blocking: bool, sched: seq<(Tid, Act)>, t: Tid, a: Act)
    requires After(stub, blocking, sched).Pc(t).Check?
    ensures var s, s' := After(stub, blocking, sched), Step(After(stub, blocking, sched), t, a);
      && (s'.Pc(t) == Unlock(Null) <==> s.order == s.out)
      && (s'.Pc(t) == Unlock(Null) || Fetches(s'.Pc(t)))
  {
    EveryRun(stub, blocking, sched);
    var s := After(stub, blocking, sched);
    assert Thread(s, t) && s.InChain(stub) && stub in s.chain;
    if |s.chain| == 1 { assert s.chain == [stub] && Without([stub], stub) == []; }
    else { OthersLeft(s.chain, stub); }
  }

  lemma {:induction false} OthersLeft(q: seq<Node>, n: Node)
    requires |q| >= 2
    ensures Without(q, n) != []
  {}

  /** In pop, on the way to an element. */
  predicate Fetches(p: Pc) {
    p.WaitStub? || p.SetHead? || p.ClearStub? || p.ReSwap? || p.ReLink? || p.WaitHead? || p.Advance?
  }

  /** Such a pop takes the next element in the order of the exchanges. */
  lemma {:induction false} FetchesNext(stub: Node, blocking: bool, sched: seq<(Tid, Act)>, t: Tid, a: Act)
    requires Fetches(After(stub, blocking, sched).Pc(t))
    ensures var s, s' := After(stub, blocking, sched), Step(After(stub, blocking, sched), t, a);
      (Fetches(s'.Pc(t)) && s'.out == s.out) ||
      (|s.out| < |s.order| && s'.Pc(t) == Unlock(To(s.order[|s.out|])) && s'.out == s.out + [s.order[|s.out|]])
  {
    EveryRun(stub, blocking, sched);
    var s := After(stub, blocking, sched);
    assert Thread(s, t);
    if s.Pc(t).Advance? { assert Without(s.chain, s.stub)[0] == s.Pc(t).elem; }
    FetchStep(s, t, a);
  }

  lemma FetchStep(s: State, t: Tid, a: Act)
    requires Fetches(s.Pc(t)) && s.chain != [] && Thread(s, t)
    ensures var s' := Step(s, t, a);
      if s.Pc(t).Advance? then s'.Pc(t) == Unlock(To(s.Pc(t).elem)) && s'.out == s.out + [s.Pc(t).elem]
      else Fetches(s'.Pc(t)) && s'.out == s.out
  {}

  /** And it returns that element, which is the caller's then. */
  lemma {:induction false} ReturnsWhatItTook(stub: Node, blocking: bool, sched: seq<(Tid, Act)>, t: Tid, n: Node)
    requires After(stub, blocking, sched).Pc(t) == Unlock(To(n))
    ensures var s' := Alone(After(stub, blocking, sched), t, Pop, 2);
      s'.Pc(t).Idle? && s'.lock.Open? && s'.Place(n).Free? && s'.Next(n) == Null
  {
    var s := After(stub, blocking, sched);
    assert Alone(s, t, Pop, 1).Pc(t) == Clear(n);
  }

  /** No deadlock: while a call is under way, some thread's next step takes its call
      further. */
  lemma {:induction false} NoDeadlock(stub: Node, blocking: bool, sched: seq<(Tid, Act)>, t: Tid) returns (u: Tid)
    requires !After(stub, blocking, sched).Pc(t).Idle?
    ensures var s := After(stub, blocking, sched); !s.Pc(u).Idle? && Step(s, u, Pop).Pc(u) != s.Pc(u)
  {
    EveryRun(stub, blocking, sched);
    var s := After(stub, blocking, sched);
    assert Thread(s, t);
    u := if s.Pc(t).Lock? && s.lock.Held? then s.lock.t else t;
    assert Thread(s, u);
    if (s.Pc(u).WaitStub? || s.Pc(u).WaitHead?) && s.Next(s.head) == Null {
      u := WaitHasPusher(stub, blocking, sched, u);
      assert Thread(s, u);
    }
    StepMoves(s, u);
  }

  lemma StepMoves(s: State, u: Tid)
    requires Thread(s, u) && !s.Pc(u).Idle? && s.chain != [] && (s.Pc(u).Lock? ==> s.lock.Open?)
    requires s.Pc(u).WaitStub? || s.Pc(u).WaitHead? ==> s.Next(s.head).To?
    ensures Step(s, u, Pop).Pc(u) != s.Pc(u)
  {}

  // ------------------------------------------------- calls that run undisturbed

  /** n steps of t while nobody else moves; an idle t begins a. */
  ghost function Alone(s: State, t: Tid, a: Act, n: nat): State
    decreases n
  {
    if n == 0 then s else Step(Alone(s, t, a, n - 1), t, a)
  }

  /** A push appends its segment, and wakes the popper if the queue is marked empty. */
  lemma PushesAlone(s: State, t: Tid, seg: seq<Node>)
    requires s.Pc(t).Idle? && CanPush(s, seg)
    ensures var s' := Alone(s, t, Push(seg), 3);
      && s'.Pc(t).Idle? && s'.order == s.order + seg && s'.chain == s.chain + seg && s'.out == s.out
      && !s'.mark && s'.wakes == if s.mark then s.wakes + 1 else s.wakes
  {
    assert Alone(s, t, Push(seg), 1).Pc(t) == Swap(seg);
    assert Alone(s, t, Push(seg), 2).Pc(t) == SetNext(seg[0], s.tail);
  }

  /** A pop locks and looks, and of an empty queue returns nothing and marks it, ... */
  lemma PopsAlone(s: State, t: Tid)
    requires s.Pc(t).Idle? && s.lock.Open?
    ensures s.head != s.stub ==> Alone(s, t, Pop, 3).Pc(t) == WaitHead(s.head)
    ensures s.head == s.stub && s.tail != s.stub ==> Alone(s, t, Pop, 3).Pc(t) == WaitStub
    ensures s.head == s.stub && s.tail == s.stub ==> var s' := Alone(s, t, Pop, 4);
      s'.Pc(t).Idle? && s'.lock.Open? && s'.out == s.out && s'.chain == s.chain && (s'.mark <==> s.mark || s.blocking)
  {
    assert Alone(s, t, Pop, 1).Pc(t) == Lock;
    assert Alone(s, t, Pop, 2).Pc(t) == Check;
    if s.head == s.stub && s.tail == s.stub { assert Alone(s, t, Pop, 3).Pc(t) == Unlock(Null); }
  }

  /** ... moves a stub at the front to the end, ... */
  lemma MovesStub(s: State, t: Tid)
    requires s.Pc(t).WaitStub? && s.Next(s.stub).To? && s.chain != []
    ensures var s' := Alone(s, t, Pop, 4);
      s'.Pc(t).ReLink? && s'.chain == s.chain[1..] + [s.stub] && s'.head == s.Next(s.stub).node && s'.tail == s.stub && s'.out == s.out
  {
    assert Alone(s, t, Pop, 1).Pc(t) == SetHead;
    assert Alone(s, t, Pop, 2).Pc(t) == ClearStub;
    assert Alone(s, t, Pop, 3).Pc(t) == ReSwap;
  }

  /** ... and takes an element at the front. */
  lemma TakesFront(s: State, t: Tid, elem: Node)
    requires s.Pc(t) == WaitHead(elem) && s.Next(elem).To? && s.chain != []
    ensures var s' := Alone(s, t, Pop, 4);
      s'.Pc(t).Idle? && s'.chain == s.chain[1..] && s'.head == s.Next(elem).node && s'.out == s.out + [elem] && s'.lock.Open? && s'.Place(elem).Free?
  {
    assert Alone(s, t, Pop, 1).Pc(t) == Advance(elem);
    assert Alone(s, t, Pop, 2).Pc(t) == Unlock(To(elem));
    assert Alone(s, t, Pop, 3).Pc(t) == Clear(elem);
  }
}
