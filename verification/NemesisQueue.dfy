/** The Nemesis MPSC queue (QueueNemesis over QueueMCS): lock-free push, and pop by any
    number of threads that share a lock but repair tail and head after releasing it.
    One shared access is one step; a spin loop whose condition fails repeats its step. */
module NemesisQueue {
  import opened Memory

  /** History: who may touch a node.  All but Free and Private nodes are in the chain. */
  datatype Place =
    | Free
    | Private(t: Tid)
    | Opening(t: Tid)               // first of a segment; t is about to store head
    | Trailing(t: Tid, pred: Node)  // first of a segment not yet linked from pred
    | Pushing(t: Tid)               // further node of a segment being pushed by t
    | Queued
    | Leaving(t: Tid)               // popped by t; its successor is not yet known

  datatype Pc =
    | Idle
    | PushSwap(seg: seq<Node>)
    | PushHead(first: Node)
    | PushNext(first: Node, pred: Node)
    | PopLock
    | PopHead                              // lock held up to PopUnlock
    | PopLoad(elem: Node)
    | PopStore(elem: Node, succ: Ptr)
    | PopUnlock(result: Ptr, succ: Ptr)
    | PopClear(elem: Node)                 // lock released from here on
    | PopCas(elem: Node)
    | PopSpin(elem: Node)
    | PopReload(elem: Node)
    | PopInvalidate(elem: Node, next: Node)
    | PopFix(elem: Node, next: Node)

  datatype Lock = Open | Held(t: Tid)

  datatype Writer = Nobody | By(t: Tid)

  datatype Act = Push(seg: seq<Node>) | Pop | SetNext(n: Node, p: Ptr)

  datatype State = State(
    head: Ptr,
    tail: Ptr,
    next: map<Node, Ptr>,
    lock: Lock,
    pc: map<Tid, Pc>,
    place: map<Node, Place>,
    chain: seq<Node>,     // history: nodes still linked, in tail-exchange order
    writer: Writer,       // history: the thread that owes the next store to head
    order: seq<Node>,     // history: all nodes pushed, in tail-exchange order
    out: seq<Node>)       // history: all nodes popped, in the order of the head loads
  {
    function Pc(t: Tid): Pc { if t in pc then pc[t] else Idle }
    function Place(n: Node): Place { if n in place then place[n] else Free }
    function Next(n: Node): Ptr { Link(next, n) }
    function Go(t: Tid, p: Pc): State { this.(pc := pc[t := p]) }
    function Put(n: Node, p: Place): State { this.(place := place[n := p]) }
    predicate InChain(n: Node) { !Place(n).Free? && !Place(n).Private? }
  }

  function Init(): State {
    State(Null, Null, map[], Open, map[], map[], [], Nobody, [], [])
  }

  // ---------------------------------------------------------------- the steps

  ghost predicate Joined(s: State, seg: seq<Node>)
    requires seg != []
  {
    && (forall i :: 0 <= i < |seg| - 1 ==> Inner(s, seg, i))
    && s.Next(seg[|seg| - 1]) == Null
  }

  ghost predicate Inner(s: State, seg: seq<Node>, i: int)
    requires 0 <= i < |seg| - 1
  {
    s.Next(seg[i]) == To(seg[i + 1])
  }

  ghost predicate CanPush(s: State, seg: seq<Node>) {
    seg != [] && Distinct(seg) && (forall n :: n in seg ==> s.Place(n).Free?) && Joined(s, seg)
  }

  function Mark(place: map<Node, Place>, seg: seq<Node>, p: Place): map<Node, Place> {
    place + (map n | n in seg :: p)
  }

  /** t's push has returned. */
  function Settle(place: map<Node, Place>, t: Tid): map<Node, Place> {
    map n | n in place :: Settled(place[n], t)
  }

  function Settled(p: Place, t: Tid): Place {
    if Member(p, t) then Queued else p
  }

  predicate Member(p: Place, t: Tid) {
    (p.Opening? || p.Trailing? || p.Pushing?) && p.t == t
  }

  ghost function Begin(s: State, t: Tid, a: Act): State {
    match a
    case Push(seg) =>
      if CanPush(s, seg) then s.Go(t, PushSwap(seg)).(place := Mark(s.place, seg, Private(t))) else s
    case Pop => s.Go(t, PopLock)
    case SetNext(n, p) => if s.Place(n).Free? then s.(next := s.next[n := p]) else s
  }

  function Swap(s: State, t: Tid, seg: seq<Node>): State {
    if seg == [] then s else
    var f := seg[0];
    var s' := s.(tail := LastOf(seg), chain := s.chain + seg, order := s.order + seg,
                 place := Mark(s.place, seg, Pushing(t)));
    match s.tail
    case Null => s'.Go(t, PushHead(f)).Put(f, Opening(t)).(writer := By(t))
    case To(pred) => s'.Go(t, PushNext(f, pred)).Put(f, Trailing(t, pred))
  }

  /** elem, the first node of the chain, now belongs to t alone. */
  function Drop(s: State, t: Tid, elem: Node): State {
    s.(chain := Without(s.chain, elem)).Put(elem, Private(t))
  }

  ghost function Step(s: State, t: Tid, a: Act): State {
    match s.Pc(t)
    case Idle => Begin(s, t, a)
    case PushSwap(seg) => Swap(s, t, seg)
    case PushHead(first) => s.Go(t, Idle).(head := To(first), writer := Nobody, place := Settle(s.place, t))
    case PushNext(first, pred) => s.Go(t, Idle).(next := s.next[pred := To(first)], place := Settle(s.place, t))
    case PopLock => if s.lock.Open? then s.Go(t, PopHead).(lock := Held(t)) else s
    case PopHead =>
      if s.head.Null? then s.Go(t, PopUnlock(Null, Null))
      else s.Go(t, PopLoad(s.head.node)).Put(s.head.node, Leaving(t)).(out := s.out + [s.head.node])
    case PopLoad(elem) => s.Go(t, PopStore(elem, s.Next(elem)))
    case PopStore(elem, succ) =>
      var s' := s.(head := succ).Go(t, PopUnlock(To(elem), succ));
      if succ.To? then Drop(s', t, elem) else s'.(writer := By(t))
    case PopUnlock(result, succ) =>
      s.(lock := Open).Go(t,
        if result.Null? then Idle
        else if succ.To? then PopClear(result.node) else PopCas(result.node))
    case PopClear(elem) => s.Go(t, Idle).Put(elem, Free).(next := s.next[elem := Null])
    case PopCas(elem) =>
      if s.tail == To(elem)
      then Drop(s, t, elem).(tail := Null, writer := Nobody).Go(t, Idle).Put(elem, Free)
      else s.Go(t, PopSpin(elem))
    case PopSpin(elem) => if s.Next(elem).To? then s.Go(t, PopReload(elem)) else s
    case PopReload(elem) =>
      if s.Next(elem).To? then Drop(s, t, elem).Go(t, PopInvalidate(elem, s.Next(elem).node)) else s
    case PopInvalidate(elem, next) => s.Go(t, PopFix(elem, next)).(next := s.next[elem := Null])
    case PopFix(elem, next) => s.Go(t, Idle).Put(elem, Free).(head := To(next), writer := Nobody)
  }

  // ------------------------------------------------------------ the invariant

  /** Only a pusher between its exchange and its link store leaves a gap. */
  predicate Linked(s: State, a: Node, b: Node) {
    && (if s.Place(b).Trailing? then s.Place(b).pred == a && s.Next(a) == Null else s.Next(a) == To(b))
    && !s.Place(b).Opening? && !s.Place(b).Leaving?
    && (s.Place(b).Pushing? ==> Member(s.Place(a), s.Place(b).t))
  }

  ghost predicate Pair(s: State, k: int) {
    0 <= k < |s.chain| - 1 ==> Linked(s, s.chain[k], s.chain[k + 1])
  }

  ghost predicate Pairs(s: State) {
    forall k :: Pair(s, k)
  }

  ghost predicate Ends(s: State) {
    && s.tail == LastOf(s.chain)
    && s.head == (if s.writer.Nobody? then FirstOf(s.chain) else Null)
    && (s.chain == [] ==> s.writer.Nobody?)
    && (s.chain != [] ==>
          var p := s.Place(s.chain[0]);
          && s.Next(s.chain[|s.chain| - 1]) == Null
          && !p.Pushing? && !p.Trailing?)
  }

  ghost predicate Places(s: State) {
    && Distinct(s.chain)
    && (forall k :: 0 <= k < |s.chain| ==> s.InChain(s.chain[k]))
    && (forall n: Node :: s.InChain(n) ==> n in s.chain)
  }

  predicate Pops(p: Pc, n: Node) {
    match p
    case PopLoad(elem) => elem == n
    case PopStore(elem, _) => elem == n
    case PopUnlock(result, succ) => result == To(n) && succ.Null?
    case PopCas(elem) => elem == n
    case PopSpin(elem) => elem == n
    case PopReload(elem) => elem == n
    case _ => false
  }

  ghost predicate Owners(s: State) {
    && (forall n: Node :: s.Place(n).Opening? ==> s.Pc(s.Place(n).t) == PushHead(n))
    && (forall n: Node :: s.Place(n).Trailing? ==> s.Pc(s.Place(n).t) == PushNext(n, s.Place(n).pred))
    && (forall n: Node :: s.Place(n).Leaving? ==> Pops(s.Pc(s.Place(n).t), n))
  }

  /** The queue's content: the chain without a node that a popper has already taken. */
  function Live(s: State): seq<Node> {
    if s.chain != [] && s.Place(s.chain[0]).Leaving? then s.chain[1..] else s.chain
  }

  ghost predicate Fifo(s: State) {
    s.order == s.out + Live(s)
  }

  predicate First(s: State, n: Node) {
    s.chain != [] && s.chain[0] == n
  }

  predicate Inside(p: Pc) {
    p.PopHead? || p.PopLoad? || p.PopStore? || p.PopUnlock?
  }

  /** t owes the next store to head. */
  predicate Owes(p: Pc) {
    match p
    case PushHead(_) => true
    case PopUnlock(result, succ) => result.To? && succ.Null?
    case PopCas(_) => true
    case PopSpin(_) => true
    case PopReload(_) => true
    case PopInvalidate(_, _) => true
    case PopFix(_, _) => true
    case _ => false
  }

  ghost predicate Thread(s: State, t: Tid) {
    && (Inside(s.Pc(t)) <==> s.lock == Held(t))
    && (Owes(s.Pc(t)) <==> s.writer == By(t))
    && match s.Pc(t)
       case PushSwap(seg) =>
         seg != [] && Distinct(seg) && Joined(s, seg) && forall n :: n in seg ==> s.Place(n) == Private(t)
       case PushHead(first) => s.Place(first) == Opening(t) && First(s, first)
       case PushNext(first, pred) => s.Place(first) == Trailing(t, pred)
       case PopLoad(elem) => s.Place(elem) == Leaving(t) && First(s, elem) && s.writer.Nobody?
       case PopStore(elem, succ) =>
         && s.Place(elem) == Leaving(t) && First(s, elem) && s.writer.Nobody?
         && (succ.To? ==> s.Next(elem) == succ)
       case PopUnlock(result, succ) =>
         result.To? ==>
           if succ.To? then s.Place(result.node) == Private(t)
           else s.Place(result.node) == Leaving(t) && First(s, result.node)
       case PopClear(elem) => s.Place(elem) == Private(t)
       case PopCas(elem) => s.Place(elem) == Leaving(t) && First(s, elem)
       case PopSpin(elem) => s.Place(elem) == Leaving(t) && First(s, elem) && s.tail != To(elem)
       case PopReload(elem) => s.Place(elem) == Leaving(t) && First(s, elem) && s.Next(elem).To?
       case PopInvalidate(elem, next) => s.Place(elem) == Private(t) && First(s, next)
       case PopFix(elem, next) =>
         s.Place(elem) == Private(t) && s.Next(elem) == Null && First(s, next)
       case _ => true
  }

  /** What holds of the links. */
  ghost predicate Core(s: State) {
    && Places(s)
    && Owners(s)
    && Ends(s)
    && Pairs(s)
    && (forall t: Tid :: Thread(s, t))
  }

  ghost predicate Inv(s: State) {
    Core(s) && Fifo(s)
  }

  // ------------------------------------------------------ every step keeps it

  lemma InitInv()
    ensures Inv(Init())
  {}

  /** What t's step leaves alone, so that the other threads are undisturbed. */
  ghost predicate Frame(s: State, s': State, t: Tid) {
    && (forall u :: u != t ==> s'.Pc(u) == s.Pc(u))
    && (forall n :: Foreign(s.Place(n), t) ==>
          && s'.Place(n) == s.Place(n)
          && (s.Place(n).Private? || s.Next(n).To? ==> s'.Next(n) == s.Next(n))
          && (s.tail != To(n) ==> s'.tail != To(n)))
    && (s'.lock == s.lock || ((s.lock.Open? || s.lock.t == t) && (s'.lock.Open? || s'.lock.t == t)))
    && (s'.writer == s.writer || ((s.writer.Nobody? || s.writer.t == t) && (s'.writer.Nobody? || s'.writer.t == t)))
    && (s.chain != [] && s.writer.By? && s.writer.t != t ==> First(s', s.chain[0]))
    && (s.chain != [] && s.writer.Nobody? && s.lock.Held? && s.lock.t != t ==> First(s', s.chain[0]) && s'.writer.Nobody?)
  }

  predicate Foreign(p: Place, t: Tid) {
    !p.Free? && !p.Queued? && p.t != t
  }

  lemma JoinedFrame(s: State, s': State, seg: seq<Node>)
    requires seg != [] && Joined(s, seg)
    requires forall n :: n in seg ==> s'.Next(n) == s.Next(n)
    ensures Joined(s', seg)
  {
    forall i | 0 <= i < |seg| - 1 ensures Inner(s', seg, i) { assert Inner(s, seg, i); }
  }

  lemma ThreadFrame(s: State, s': State, t: Tid, u: Tid)
    requires Frame(s, s', t) && u != t && Thread(s, u)
    ensures Thread(s', u)
  {
    if s.Pc(u).PushSwap? { JoinedFrame(s, s', s.Pc(u).seg); }
  }

  lemma Glue(s: State, s': State, t: Tid)
    requires Core(s) && Frame(s, s', t) && Thread(s', t)
    requires Places(s') && Owners(s') && Ends(s') && Pairs(s')
    ensures Core(s')
  {
    forall u ensures Thread(s', u) {
      if u != t { ThreadFrame(s, s', t, u); }
    }
  }

  /** The pair at k of s' is the pair at j of s, with the same link and places. */
  ghost predicate Same(s: State, s': State, k: int, j: int) {
    0 <= k < |s'.chain| - 1 ==>
      && 0 <= j < |s.chain| - 1
      && var a, b := s.chain[j], s.chain[j + 1];
      && s'.chain[k] == a && s'.chain[k + 1] == b && s'.Next(a) == s.Next(a)
      && s'.Place(a) == s.Place(a) && s'.Place(b) == s.Place(b)
  }

  lemma PairFrame(s: State, s': State, k: int, j: int)
    requires Same(s, s', k, j) && Pair(s, j)
    ensures Pair(s', k)
  {}

  /** Steps that touch no node of the chain keep its links. */
  lemma PairsSame(s: State, s': State)
    requires Places(s) && Pairs(s) && s'.chain == s.chain
    requires forall n :: s.InChain(n) ==> s'.Next(n) == s.Next(n) && s'.Place(n) == s.Place(n)
    ensures Pairs(s')
  {
    forall k ensures Pair(s', k) { PairFrame(s, s', k, k); }
  }

  lemma BeginKeeps(s: State, t: Tid, a: Act)
    requires Core(s) && s.Pc(t).Idle?
    ensures Core(Begin(s, t, a))
  {
    match a {
      case Push(seg) => if CanPush(s, seg) { BeginPush(s, t, seg); }
      case Pop => assert Thread(s, t); QuietKeeps(s, t, Begin(s, t, a));
      case SetNext(m, p) => if s.Place(m).Free? { BeginSetNext(s, t, m, p); }
    }
  }

  lemma BeginSetNext(s: State, t: Tid, m: Node, p: Ptr)
    requires Core(s) && s.Pc(t).Idle? && s.Place(m).Free?
    ensures Core(Begin(s, t, SetNext(m, p)))
  {
    var s' := Begin(s, t, SetNext(m, p));
    assert Thread(s, t);
    assert forall n :: n != m ==> s'.Next(n) == s.Next(n);
    PairsSame(s, s');
    Glue(s, s', t);
  }

  lemma BeginPush(s: State, t: Tid, seg: seq<Node>)
    requires Core(s) && s.Pc(t).Idle? && CanPush(s, seg)
    ensures Core(Begin(s, t, Push(seg)))
  {
    var s' := Begin(s, t, Push(seg));
    assert Thread(s, t);
    assert forall n :: s'.Place(n) == if n in seg then Private(t) else s.Place(n);
    JoinedFrame(s, s', seg);
    PairsSame(s, s');
    BeginPushFrame(s, t, seg);
    Glue(s, s', t);
  }

  lemma BeginPushFrame(s: State, t: Tid, seg: seq<Node>)
    requires s.Pc(t).Idle? && CanPush(s, seg)
    ensures Frame(s, Begin(s, t, Push(seg)), t)
  {}

  // push

  /** What the exchange of tail changes, in terms of the chain. */
  ghost predicate SwapEffect(s: State, t: Tid, s': State) {
    && s.Pc(t).PushSwap? && s.Pc(t).seg != []
    && var seg := s.Pc(t).seg;
    && s'.chain == s.chain + seg && s'.tail == LastOf(seg)
    && s'.next == s.next && s'.lock == s.lock && s'.head == s.head
    && (forall u :: u != t ==> s'.Pc(u) == s.Pc(u))
    && (forall n :: n != seg[0] ==> s'.Place(n) == if n in seg then Pushing(t) else s.Place(n))
    && if s.chain == [] then
         s'.writer == By(t) && s'.Pc(t) == PushHead(seg[0]) && s'.Place(seg[0]) == Opening(t)
       else
         var pred := s.chain[|s.chain| - 1];
         s'.writer == s.writer && s'.Pc(t) == PushNext(seg[0], pred) && s'.Place(seg[0]) == Trailing(t, pred)
  }

  lemma SwapEffects(s: State, t: Tid, a: Act)
    requires Core(s) && s.Pc(t).PushSwap?
    ensures SwapEffect(s, t, Step(s, t, a))
  {
    assert Thread(s, t);
  }

  lemma SwapKeeps(s: State, t: Tid, a: Act)
    requires Core(s) && s.Pc(t).PushSwap?
    ensures Core(Step(s, t, a))
  {
    var s' := Step(s, t, a);
    SwapEffects(s, t, a);
    SwapPlaces(s, t, s');
    SwapEnds(s, t, s');
    SwapFrame(s, t, s');
    forall k ensures Pair(s', k) { SwapPair(s, t, s', k); }
    Glue(s, s', t);
  }

  lemma SwapPlaces(s: State, t: Tid, s': State)
    requires Core(s) && SwapEffect(s, t, s')
    ensures Places(s') && Owners(s')
  {
    var seg := s.Pc(t).seg;
    assert Thread(s, t);
    assert seg[0] in seg;
    AppendDistinct(s.chain, seg);
  }

  lemma SwapFrame(s: State, t: Tid, s': State)
    requires Core(s) && SwapEffect(s, t, s')
    ensures Frame(s, s', t) && Thread(s', t)
  {
    var seg := s.Pc(t).seg;
    assert Thread(s, t);
    assert seg[0] in seg && seg[|seg| - 1] in seg;
  }

  lemma SwapEnds(s: State, t: Tid, s': State)
    requires Core(s) && SwapEffect(s, t, s')
    ensures Ends(s')
  {
    var seg := s.Pc(t).seg;
    assert Thread(s, t);
    assert seg[0] in seg && seg[|seg| - 1] in seg;
  }

  lemma SwapPair(s: State, t: Tid, s': State, k: int)
    requires Core(s) && SwapEffect(s, t, s')
    ensures Pair(s', k)
  {
    var seg, n := s.Pc(t).seg, |s.chain|;
    assert Thread(s, t);
    assert seg[0] in seg;
    if k < n - 1 {
      PairFrame(s, s', k, k);
    } else if n <= k < |s'.chain| - 1 {
      assert Inner(s, seg, k - n);
      assert seg[k - n] in seg && seg[k - n + 1] in seg;
    }
  }

  lemma PushHeadKeeps(s: State, t: Tid, a: Act)
    requires Core(s) && s.Pc(t).PushHead?
    ensures Core(Step(s, t, a))
  {
    var s' := Step(s, t, a);
    assert Thread(s, t);
    assert forall n :: s'.Place(n) == Settled(s.Place(n), t);
    forall k ensures Pair(s', k) { assert Pair(s, k); }
    Glue(s, s', t);
  }

  lemma TrailingPair(s: State, f: Node) returns (k: nat)
    requires Places(s) && Ends(s) && Pairs(s) && s.Place(f).Trailing?
    ensures k < |s.chain| - 1 && s.chain[k] == s.Place(f).pred && s.chain[k + 1] == f && Pair(s, k)
  {
    assert s.InChain(f);
    var j :| 0 <= j < |s.chain| && s.chain[j] == f;
    k := j - 1;
    assert Pair(s, k);
  }

  lemma PushNextKeeps(s: State, t: Tid, a: Act)
    requires Core(s) && s.Pc(t).PushNext?
    ensures Core(Step(s, t, a))
  {
    var s' := Step(s, t, a);
    var first, pred := s.Pc(t).first, s.Pc(t).pred;
    assert Thread(s, t);
    var j := TrailingPair(s, first);
    assert forall n :: s'.Place(n) == Settled(s.Place(n), t);
    assert forall n :: n != pred ==> s'.Next(n) == s.Next(n);
    forall k ensures Pair(s', k) { assert Pair(s, k); }
    Glue(s, s', t);
  }

  // pop

  /** Steps that write neither link, place, head nor tail. */
  lemma QuietKeeps(s: State, t: Tid, s': State)
    requires Core(s) && s' == s.(lock := s'.lock, pc := s.pc[t := s'.Pc(t)])
    requires Frame(s, s', t) && Thread(s', t) && !s.Pc(t).PushHead? && !s.Pc(t).PushNext?
    requires forall n :: Pops(s.Pc(t), n) ==> Pops(s'.Pc(t), n)
    ensures Core(s')
  {
    PairsSame(s, s');
    Glue(s, s', t);
  }

  lemma PopLockKeeps(s: State, t: Tid, a: Act)
    requires Core(s) && (s.Pc(t).PopLock? || s.Pc(t).PopUnlock?)
    ensures Core(Step(s, t, a))
  {
    assert Thread(s, t);
    if s.Pc(t).PopUnlock? || s.lock.Open? { QuietKeeps(s, t, Step(s, t, a)); }
  }

  /** With head set, no one but a popper in the critical section has its node. */
  lemma HeadNode(s: State)
    requires Core(s) && s.head.To?
    ensures s.chain != [] && s.head.node == s.chain[0]
    ensures var p := s.Place(s.chain[0]); p.Queued? || (p.Leaving? && s.lock == Held(p.t))
  {
    var p := s.Place(s.chain[0]);
    assert s.InChain(s.chain[0]);
    if p.Opening? || p.Leaving? { assert Thread(s, p.t); }
  }

  lemma PopHeadKeeps(s: State, t: Tid, a: Act)
    requires Core(s) && s.Pc(t).PopHead?
    ensures Core(Step(s, t, a))
  {
    assert Thread(s, t);
    if s.head.Null? {
      QuietKeeps(s, t, Step(s, t, a));
    } else {
      HeadNode(s);
      PopHeadTakes(s, t, Step(s, t, a));
    }
  }

  lemma PopHeadTakes(s: State, t: Tid, s': State)
    requires Core(s) && s.Pc(t).PopHead? && s.head.To? && First(s, s.head.node) && s.Place(s.head.node).Queued?
    requires s' == Step(s, t, Pop)
    ensures Core(s')
  {
    assert Thread(s, t);
    assert forall n :: n != s.chain[0] ==> s'.Place(n) == s.Place(n);
    forall k ensures Pair(s', k) { assert Pair(s, k); }
    Glue(s, s', t);
  }

  lemma PopLoadKeeps(s: State, t: Tid, a: Act)
    requires Core(s) && (s.Pc(t).PopLoad? || s.Pc(t).PopSpin?)
    ensures Core(Step(s, t, a))
  {
    assert Thread(s, t);
    if s.Pc(t).PopLoad? || s.Next(s.Pc(t).elem).To? { QuietKeeps(s, t, Step(s, t, a)); }
  }

  /** The first node leaves the chain; head is To its successor, Null, or owed by t. */
  ghost predicate Drops(s: State, t: Tid, s': State) {
    && Core(s) && s.chain != [] && s.Place(s.chain[0]) == Leaving(t)
    && s'.chain == Without(s.chain, s.chain[0])
    && s'.place == s.place[s.chain[0] := s'.Place(s.chain[0])]
    && ((s'.Place(s.chain[0]) == Private(t) && !Pops(s'.Pc(t), s.chain[0])) || s'.Place(s.chain[0]) == Free)
    && s'.next == s.next && s'.pc == s.pc[t := s'.Pc(t)]
    && !s.Pc(t).PushHead? && !s.Pc(t).PushNext?
    && (|s.chain| > 1 ==> s.Next(s.chain[0]).To?)
  }

  lemma DropPlaces(s: State, t: Tid, s': State)
    requires Drops(s, t, s')
    ensures Places(s')
  {
    var c := s.chain[0];
    WithoutAt(s.chain, 0);
    WithoutKeeps(s.chain, 0);
    assert forall n :: n != c ==> s'.Place(n) == s.Place(n);
    forall n | s'.InChain(n) ensures n in s'.chain { assert s.InChain(n); }
  }

  lemma DropOwners(s: State, t: Tid, s': State)
    requires Drops(s, t, s')
    ensures Owners(s')
  {
    var c := s.chain[0];
    assert forall n :: n != c ==> s'.Place(n) == s.Place(n);
    assert Pops(s.Pc(t), c);
  }

  lemma DropPairs(s: State, t: Tid, s': State)
    requires Drops(s, t, s')
    ensures Pairs(s')
    ensures |s.chain| > 1 ==> s.Next(s.chain[0]) == To(s.chain[1])
    ensures s'.chain != [] ==> s'.chain[0] == s.chain[1] && LastOf(s'.chain) == LastOf(s.chain)
    ensures s'.chain != [] ==> !s'.Place(s'.chain[0]).Pushing? && !s'.Place(s'.chain[0]).Trailing?
  {
    var c := s.chain[0];
    WithoutAt(s.chain, 0);
    assert forall n :: n != c ==> s'.Place(n) == s.Place(n);
    assert Pair(s, 0);
    forall k ensures Pair(s', k) { PairFrame(s, s', k, k + 1); }
  }

  lemma PopStoreKeeps(s: State, t: Tid, a: Act)
    requires Core(s) && s.Pc(t).PopStore?
    ensures Core(Step(s, t, a))
  {
    var s' := Step(s, t, a);
    var elem := s.Pc(t).elem;
    assert Thread(s, t);
    assert forall n :: n != elem ==> s'.Place(n) == s.Place(n);
    if s.Pc(t).succ.To? {
      DropPlaces(s, t, s');
      DropOwners(s, t, s');
      DropPairs(s, t, s');
      assert Pair(s, 0);
    } else {
      PairsSame(s, s');
    }
    Glue(s, s', t);
  }

  lemma PopCasKeeps(s: State, t: Tid, a: Act)
    requires Core(s) && s.Pc(t).PopCas?
    ensures Core(Step(s, t, a))
  {
    var s' := Step(s, t, a);
    var elem := s.Pc(t).elem;
    assert Thread(s, t);
    if s.tail == To(elem) {
      assert |s.chain| == 1;
      assert forall n :: n != elem ==> s'.Place(n) == s.Place(n);
      WithoutAt(s.chain, 0);
      DropPlaces(s, t, s');
      DropOwners(s, t, s');
      Glue(s, s', t);
    } else {
      QuietKeeps(s, t, s');
    }
  }

  lemma PopReloadKeeps(s: State, t: Tid, a: Act)
    requires Core(s) && s.Pc(t).PopReload?
    ensures Core(Step(s, t, a))
  {
    var s' := Step(s, t, a);
    var elem := s.Pc(t).elem;
    assert Thread(s, t);
    assert forall n :: n != elem ==> s'.Place(n) == s.Place(n);
    WithoutAt(s.chain, 0);
    DropPlaces(s, t, s');
    DropOwners(s, t, s');
    DropPairs(s, t, s');
    assert Pair(s, 0);
    Glue(s, s', t);
  }

  /** The stores to a node that already belongs to t alone. */
  lemma PopClearKeeps(s: State, t: Tid, a: Act)
    requires Core(s) && (s.Pc(t).PopClear? || s.Pc(t).PopInvalidate?)
    ensures Core(Step(s, t, a))
  {
    var s' := Step(s, t, a);
    var elem := s.Pc(t).elem;
    assert Thread(s, t);
    assert forall n :: n != elem ==> s'.Place(n) == s.Place(n) && s'.Next(n) == s.Next(n);
    PairsSame(s, s');
    Glue(s, s', t);
  }

  lemma PopFixKeeps(s: State, t: Tid, a: Act)
    requires Core(s) && s.Pc(t).PopFix?
    ensures Core(Step(s, t, a))
  {
    var s' := Step(s, t, a);
    var elem := s.Pc(t).elem;
    assert Thread(s, t);
    assert forall n :: n != elem ==> s'.Place(n) == s.Place(n);
    PairsSame(s, s');
    Glue(s, s', t);
  }

  /** Every step of every thread keeps the links in order. */
  lemma CoreKeeps(s: State, t: Tid, a: Act)
    requires Core(s)
    ensures Core(Step(s, t, a))
  {
    match s.Pc(t) {
      case Idle => BeginKeeps(s, t, a);
      case PushSwap(_) => SwapKeeps(s, t, a);
      case PushHead(_) => PushHeadKeeps(s, t, a);
      case PushNext(_, _) => PushNextKeeps(s, t, a);
      case PopLock => PopLockKeeps(s, t, a);
      case PopHead => PopHeadKeeps(s, t, a);
      case PopLoad(_) => PopLoadKeeps(s, t, a);
      case PopStore(_, _) => PopStoreKeeps(s, t, a);
      case PopUnlock(_, _) => PopLockKeeps(s, t, a);
      case PopClear(_) => PopClearKeeps(s, t, a);
      case PopCas(_) => PopCasKeeps(s, t, a);
      case PopSpin(_) => PopLoadKeeps(s, t, a);
      case PopReload(_) => PopReloadKeeps(s, t, a);
      case PopInvalidate(_, _) => PopClearKeeps(s, t, a);
      case PopFix(_, _) => PopFixKeeps(s, t, a);
    }
  }

  // ------------------------------------------------------------- the theorems

  /** The content changes with a push's exchange and a pop's head load, and not else. */
  lemma FifoKeeps(s: State, t: Tid, a: Act)
    requires Inv(s)
    ensures Fifo(Step(s, t, a))
  {
    var s' := Step(s, t, a);
    assert Thread(s, t);
    if s.Pc(t).PushSwap? {
      SwapEffects(s, t, a);
      LiveAppend(s, t, s');
      Regroup(s.out, Live(s), s.Pc(t).seg);
    } else if s.Pc(t).PopHead? && s.head.To? {
      HeadNode(s);
      Regroup(s.out, [s.chain[0]], s.chain[1..]);
      assert [s.chain[0]] + s.chain[1..] == s.chain;
    } else {
      LiveSame(s, t, a);
      OrderSame(s, t, a);
      OutSame(s, t, a);
    }
  }

  lemma Regroup(a: seq<Node>, b: seq<Node>, c: seq<Node>)
    ensures (a + b) + c == a + (b + c)
  {}

  lemma LiveAppend(s: State, t: Tid, s': State)
    requires Core(s) && SwapEffect(s, t, s')
    ensures Live(s') == Live(s) + s.Pc(t).seg
  {
    var seg := s.Pc(t).seg;
    assert Thread(s, t);
    if s.chain == [] {
      assert [] + seg == seg;
    } else {
      assert s.chain[0] !in seg;
      assert (s.chain + seg)[1..] == s.chain[1..] + seg;
    }
  }

  lemma OrderSame(s: State, t: Tid, a: Act)
    requires !s.Pc(t).PushSwap?
    ensures Step(s, t, a).order == s.order
  {}

  lemma OutSame(s: State, t: Tid, a: Act)
    requires !(s.Pc(t).PopHead? && s.head.To?)
    ensures Step(s, t, a).out == s.out
  {}

  lemma LiveSame(s: State, t: Tid, a: Act)
    requires Core(s) && !s.Pc(t).PushSwap? && !(s.Pc(t).PopHead? && s.head.To?)
    ensures Live(Step(s, t, a)) == Live(s)
  {
    if Step(s, t, a).chain != s.chain {
      LiveDrop(s, t, a);
    } else if s.chain != [] {
      FirstPlace(s, t, a);
    }
  }

  /** Only a head load makes the first node Leaving, and only its removal ends that. */
  lemma FirstPlace(s: State, t: Tid, a: Act)
    requires Core(s) && !s.Pc(t).PushSwap? && !(s.Pc(t).PopHead? && s.head.To?)
    requires s.chain != [] && Step(s, t, a).chain == s.chain
    ensures Step(s, t, a).Place(s.chain[0]).Leaving? == s.Place(s.chain[0]).Leaving?
  {
    assert Thread(s, t);
    assert s.InChain(s.chain[0]);
    WithoutAt(s.chain, 0);
  }

  /** A node that leaves the chain had left the content before. */
  lemma LiveDrop(s: State, t: Tid, a: Act)
    requires Core(s) && !s.Pc(t).PushSwap? && Step(s, t, a).chain != s.chain
    ensures Live(Step(s, t, a)) == Live(s)
  {
    assert Thread(s, t);
    DropsFirst(s, t, a);
    if |s.chain| > 1 { assert Pair(s, 0); }
  }

  lemma DropsFirst(s: State, t: Tid, a: Act)
    requires Thread(s, t) && Distinct(s.chain) && !s.Pc(t).PushSwap? && Step(s, t, a).chain != s.chain
    ensures var s' := Step(s, t, a);
      && s.chain != [] && s.Place(s.chain[0]).Leaving? && s'.chain == s.chain[1..]
      && forall n :: n != s.chain[0] ==> s'.Place(n) == s.Place(n)
  {
    assert Step(s, t, a).chain == Without(s.chain, s.chain[0]);
  }

  /** The state after a schedule: which thread steps, and what it begins when idle. */
  ghost function Run(sched: seq<(Tid, Act)>): State {
    if sched == [] then Init()
    else Step(Run(sched[..|sched| - 1]), sched[|sched| - 1].0, sched[|sched| - 1].1)
  }

  lemma {:induction false} EveryRun(sched: seq<(Tid, Act)>)
    ensures Inv(Run(sched))
  {
    if sched == [] {
      InitInv();
    } else {
      EveryRun(sched[..|sched| - 1]);
      CoreKeeps(Run(sched[..|sched| - 1]), sched[|sched| - 1].0, sched[|sched| - 1].1);
      FifoKeeps(Run(sched[..|sched| - 1]), sched[|sched| - 1].0, sched[|sched| - 1].1);
    }
  }

  /** In every run the popped nodes, in the order of the head loads, are a prefix of the
      pushed nodes in exchange order; what is missing is in the queue, each node once. */
  lemma {:induction false} FirstInFirstOut(sched: seq<(Tid, Act)>)
    ensures var s := Run(sched); s.out <= s.order && s.order[|s.out|..] == Live(s) && Distinct(Live(s))
  {
    EveryRun(sched);
  }

  /** The next store to head is owed by at most one thread, and by one exactly when the
      queue's memory is non-empty and head is nullptr. */
  lemma OneWriter(s: State, t: Tid, u: Tid)
    requires Inv(s) && Owes(s.Pc(t))
    ensures s.head == Null && s.chain != []
    ensures Owes(s.Pc(u)) ==> u == t
  {
    assert Thread(s, t) && Thread(s, u);
  }

  lemma MissingHeadIsOwed(s: State) returns (t: Tid)
    requires Inv(s) && s.head == Null && s.tail != Null
    ensures Owes(s.Pc(t))
  {
    t := s.writer.t;
    assert Thread(s, t);
  }

  /** A popper waits for a link only while some pusher is about to store that link. */
  lemma WaitHasPusher(s: State, t: Tid) returns (u: Tid)
    requires Inv(s) && s.Pc(t).PopSpin? && s.Next(s.Pc(t).elem).Null?
    ensures s.Pc(u).PushNext? && s.Pc(u).pred == s.Pc(t).elem
  {
    assert Thread(s, t);
    assert Pair(s, 0);
    u := s.Place(s.chain[1]).t;
  }

  /** Once push and pop are done with a node no thread but its user writes its link. */
  lemma NoStrayWrite(s: State, t: Tid, a: Act, n: Node)
    requires Inv(s) && s.Place(n).Free? && (s.Pc(t).Idle? ==> !(a.SetNext? && a.n == n))
    ensures Step(s, t, a).Next(n) == s.Next(n)
  {
    assert Thread(s, t);
    if s.Pc(t).PushNext? {
      var k := TrailingPair(s, s.Pc(t).first);
      assert s.InChain(s.chain[k]);
    }
    OwnWrites(s, t, a, n);
  }

  lemma OwnWrites(s: State, t: Tid, a: Act, n: Node)
    requires Thread(s, t) && s.Place(n).Free? && (s.Pc(t).Idle? ==> !(a.SetNext? && a.n == n))
    requires s.Pc(t).PushNext? ==> s.Pc(t).pred != n
    ensures Step(s, t, a).Next(n) == s.Next(n)
  {}

  /** When no operation is under way, the links from head meet exactly the content. */
  lemma MemoryIsContent(s: State, fuel: nat)
    requires Inv(s) && (forall t: Tid :: s.Pc(t).Idle?) && fuel >= |s.chain|
    ensures Walk(s.next, s.head, fuel) == Live(s) == s.chain
  {
    var w := if s.writer.By? then s.writer.t else 0;
    assert Thread(s, w) && s.writer != By(w);
    forall k | 0 <= k < |s.chain| - 1 ensures s.Next(s.chain[k]) == To(s.chain[k + 1]) { assert Pair(s, k); }
    WalkFrom(s, 0, fuel);
  }

  lemma {:induction false} WalkFrom(s: State, i: nat, fuel: nat)
    requires i <= |s.chain| <= i + fuel && (s.chain != [] ==> s.Next(s.chain[|s.chain| - 1]) == Null)
    requires forall k :: 0 <= k < |s.chain| - 1 ==> s.Next(s.chain[k]) == To(s.chain[k + 1])
    ensures Walk(s.next, FirstOf(s.chain[i..]), fuel) == s.chain[i..]
    decreases fuel
  {
    if i < |s.chain| {
      WalkFrom(s, i + 1, fuel - 1);
      assert s.Next(s.chain[i]) == FirstOf(s.chain[i + 1..]);
    }
  }

  // ------------------------------------------- what calls answer, and progress

  /** Under the lock a pop finds nothing exactly if everything pushed has been popped, or
      some thread owes the store to head; otherwise it takes the next node in order. */
  lemma {:induction false} FindsNothingIff(sched: seq<(Tid, Act)>, t: Tid, a: Act)
    requires Run(sched).Pc(t).PopHead?
    ensures var s, s' := Run(sched), Step(Run(sched), t, a);
      && (s'.Pc(t) == PopUnlock(Null, Null) <==> s.order == s.out || exists u :: Owes(s.Pc(u)))
      && (s'.Pc(t) != PopUnlock(Null, Null) ==>
            && |s.out| < |s.order| && s'.Pc(t) == PopLoad(s.order[|s.out|]) && s'.out == s.out + [s.order[|s.out|]])
  {
    EveryRun(sched);
    var s := Run(sched);
    assert Thread(s, t);
    if s.writer.By? { assert Thread(s, s.writer.t); }
    forall u | Owes(s.Pc(u)) ensures s.writer == By(u) { assert Thread(s, u); }
    if s.writer.Nobody? && s.chain != [] { AtHomeFirst(s, t); }
  }

  /** With nobody owing the store to head, the first node has not been taken. */
  lemma AtHomeFirst(s: State, t: Tid)
    requires Inv(s) && s.Pc(t).PopHead? && s.writer.Nobody? && s.chain != []
    ensures Live(s) == s.chain && s.head == To(s.chain[0])
  {
    var p := s.Place(s.chain[0]);
    assert Thread(s, t);
    assert p.Leaving? ==> Thread(s, p.t);
  }

  /** push reports an empty queue exactly if no node was linked at its exchange. */
  lemma {:induction false} PushReportsEmpty(sched: seq<(Tid, Act)>, t: Tid, a: Act)
    requires Run(sched).Pc(t).PushSwap?
    ensures Step(Run(sched), t, a).Pc(t).PushHead? <==> Run(sched).chain == []
  {
    EveryRun(sched);
    assert Thread(Run(sched), t);
  }

  /** A node that t has taken out is on its way to t's caller; one that t is about to append
      is in t's segment. */
  predicate InHand(s: State, n: Node) {
    s.Place(n).Private? ==>
      match s.Pc(s.Place(n).t)
      case PushSwap(seg) => n in seg
      case PopUnlock(result, succ) => result == To(n) && succ.To?
      case PopClear(elem) => elem == n
      case PopInvalidate(elem, _) => elem == n
      case PopFix(elem, _) => elem == n
      case _ => false
  }

  lemma InHandKept(s: State, t: Tid, a: Act, n: Node)
    requires Core(s) && InHand(s, n)
    ensures InHand(Step(s, t, a), n)
  {
    assert Thread(s, t);
    if s.Pc(t).Idle? || s.Pc(t).PushSwap? {
      PushInHand(s, t, a, n);
    } else if s.Pc(t).PopStore? || s.Pc(t).PopCas? || s.Pc(t).PopReload? {
      DropInHand(s, t, a, n);
    } else {
      StayInHand(s, t, a, n);
    }
  }

  lemma PushInHand(s: State, t: Tid, a: Act, n: Node)
    requires Thread(s, t) && InHand(s, n) && (s.Pc(t).Idle? || s.Pc(t).PushSwap?)
    ensures InHand(Step(s, t, a), n)
  {
    if s.Pc(t).PushSwap? { assert s.Pc(t).seg[0] in s.Pc(t).seg; }
  }

  lemma DropInHand(s: State, t: Tid, a: Act, n: Node)
    requires Thread(s, t) && InHand(s, n) && (s.Pc(t).PopStore? || s.Pc(t).PopCas? || s.Pc(t).PopReload?)
    ensures InHand(Step(s, t, a), n)
  {}

  /** The other steps make no node private. */
  lemma StayInHand(s: State, t: Tid, a: Act, n: Node)
    requires Thread(s, t) && InHand(s, n) && !s.Pc(t).Idle? && !s.Pc(t).PushSwap?
    requires !s.Pc(t).PopStore? && !s.Pc(t).PopCas? && !s.Pc(t).PopReload?
    ensures InHand(Step(s, t, a), n)
  {
    if s.Place(n).Private? { StayPrivate(s, t, a, n); } else { StayShared(s, t, a, n); }
  }

  lemma StayShared(s: State, t: Tid, a: Act, n: Node)
    requires !s.Place(n).Private? && !s.Pc(t).Idle? && !s.Pc(t).PushSwap?
    requires !s.Pc(t).PopStore? && !s.Pc(t).PopCas? && !s.Pc(t).PopReload?
    ensures !Step(s, t, a).Place(n).Private?
  {}

  lemma StayPrivate(s: State, t: Tid, a: Act, n: Node)
    requires Thread(s, t) && InHand(s, n) && s.Place(n).Private? && !s.Pc(t).Idle? && !s.Pc(t).PushSwap?
    requires !s.Pc(t).PopStore? && !s.Pc(t).PopCas? && !s.Pc(t).PopReload?
    ensures InHand(Step(s, t, a), n)
  {}

  lemma {:induction false} InHandAlways(sched: seq<(Tid, Act)>, n: Node)
    ensures InHand(Run(sched), n)
  {
    if sched != [] {
      EveryRun(sched[..|sched| - 1]);
      InHandAlways(sched[..|sched| - 1], n);
      InHandKept(Run(sched[..|sched| - 1]), sched[|sched| - 1].0, sched[|sched| - 1].1, n);
    }
  }

  /** The pop under way in p will return n. */
  predicate Returns(p: Pc, n: Node) {
    match p
    case PopLoad(elem) => elem == n
    case PopStore(elem, _) => elem == n
    case PopUnlock(result, _) => result == To(n)
    case PopClear(elem) => elem == n
    case PopCas(elem) => elem == n
    case PopSpin(elem) => elem == n
    case PopReload(elem) => elem == n
    case PopInvalidate(elem, _) => elem == n
    case PopFix(elem, _) => elem == n
    case _ => false
  }

  /** A pop returns the node it took, and has given it back to the user by then. */
  lemma {:induction false} ReturnsWhatItTook(sched: seq<(Tid, Act)>, t: Tid, a: Act, n: Node)
    requires Returns(Run(sched).Pc(t), n)
    ensures var s' := Step(Run(sched), t, a); Returns(s'.Pc(t), n) || (s'.Pc(t).Idle? && s'.Place(n).Free? && s'.Next(n) == Null)
  {
    EveryRun(sched);
    var s := Run(sched);
    assert Thread(s, t);
    if s.Pc(t).PopCas? { CasReturns(s, t, a, n); } else { NextReturns(s, t, a, n); }
  }

  lemma CasReturns(s: State, t: Tid, a: Act, n: Node)
    requires Thread(s, t) && Ends(s) && s.Pc(t) == PopCas(n) && s.chain != [] && s.chain[0] == n
    ensures var s' := Step(s, t, a); s'.Pc(t) == PopSpin(n) || (s'.Pc(t).Idle? && s'.Place(n).Free? && s'.Next(n) == Null)
  {}

  lemma NextReturns(s: State, t: Tid, a: Act, n: Node)
    requires Thread(s, t) && Returns(s.Pc(t), n) && !s.Pc(t).PopCas?
    ensures var s' := Step(s, t, a); Returns(s'.Pc(t), n) || (s'.Pc(t).Idle? && s'.Place(n).Free? && s'.Next(n) == Null)
  {}

  /** No deadlock: while a call is under way, some thread's next step takes its call
      further. */
  lemma {:induction false} NoDeadlock(sched: seq<(Tid, Act)>, t: Tid) returns (u: Tid)
    requires !Run(sched).Pc(t).Idle?
    ensures !Run(sched).Pc(u).Idle? && Step(Run(sched), u, Pop).Pc(u) != Run(sched).Pc(u)
  {
    EveryRun(sched);
    var s := Run(sched);
    assert Thread(s, t);
    u := t;
    if s.Pc(t).PopLock? && s.lock.Held? {
      u := s.lock.t;
    } else if s.Pc(t).PopSpin? && s.Next(s.Pc(t).elem).Null? {
      u := WaitHasPusher(s, t);
    }
    assert Thread(s, u);
  }

  // ------------------------------------------------- calls that run undisturbed

  /** n steps of t while nobody else moves; an idle t begins a. */
  ghost function Alone(s: State, t: Tid, a: Act, n: nat): State
    decreases n
  {
    if n == 0 then s else Step(Alone(s, t, a, n - 1), t, a)
  }

  /** A push appends its segment and returns. */
  lemma PushesAlone(s: State, t: Tid, seg: seq<Node>)
    requires s.Pc(t).Idle? && CanPush(s, seg)
    ensures var s' := Alone(s, t, Push(seg), 3);
      s'.Pc(t).Idle? && s'.order == s.order + seg && s'.chain == s.chain + seg && s'.tail == LastOf(seg) && s'.out == s.out
  {
    assert Alone(s, t, Push(seg), 1).Pc(t) == PushSwap(seg);
    assert Alone(s, t, Push(seg), 2).Pc(t) == if s.tail.Null? then PushHead(seg[0]) else PushNext(seg[0], s.tail.node);
  }

  /** A pop of a queue at rest takes the first node, ... */
  lemma PopsAlone(s: State, t: Tid)
    requires s.Pc(t).Idle? && s.lock.Open?
    ensures s.head.Null? ==> var s' := Alone(s, t, Pop, 4); s'.Pc(t) == Idle && s'.lock.Open? && s'.out == s.out && s'.chain == s.chain
    ensures s.head.To? ==> var s' := Alone(s, t, Pop, 4);
      s'.Pc(t) == PopStore(s.head.node, s.Next(s.head.node)) && s'.lock == Held(t) && s'.out == s.out + [s.head.node] && s'.chain == s.chain
  {
    assert Alone(s, t, Pop, 1).Pc(t) == PopLock;
    assert Alone(s, t, Pop, 2).Pc(t) == PopHead;
    assert Alone(s, t, Pop, 3).Pc(t) == if s.head.To? then PopLoad(s.head.node) else PopUnlock(Null, Null);
  }

  /** ... moves head and tail on, and returns the node with its link cleared. */
  lemma PoppedAlone(s: State, t: Tid, elem: Node, succ: Ptr)
    requires s.Pc(t) == PopStore(elem, succ) && s.chain != [] && s.chain[0] == elem && (succ.Null? ==> s.tail == To(elem))
    ensures var s' := Alone(s, t, Pop, 3);
      s'.Pc(t) == Idle && s'.lock.Open? && s'.chain == s.chain[1..] && s'.head == succ && s'.Place(elem).Free? &&
      s'.tail == (if succ.To? then s.tail else Null) && (succ.To? ==> s'.Next(elem) == Null)
  {
    assert Alone(s, t, Pop, 1).Pc(t) == PopUnlock(To(elem), succ);
    assert Alone(s, t, Pop, 2).Pc(t) == if succ.To? then PopClear(elem) else PopCas(elem);
  }
}
