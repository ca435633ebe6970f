/** The doubly linked Nemesis queue: lock-free push, and pop or removal from the middle
    under one lock.  Every load, store, exchange or compare-and-swap on shared memory is
    one step of one thread; a spin loop whose condition does not hold repeats its step. */
module NemesisDouble {
  import opened Memory

  /** History: who may touch a node.  All but Free and Private nodes are in the chain. */
  datatype Place =
    | Free                                     // with its user, who may write its links
    | Private(t: Tid)                          // t is about to append it, or took it out
    | Opening(t: Tid)                          // first of a segment; t is about to store head
    | Trailing(t: Tid, pred: Node, back: bool) // first of a segment not yet linked from pred
    | Pushing(t: Tid)                          // further node of a segment being pushed by t
    | Queued
    | Claimed(t: Tid)                          // t won its resume race and will take it out

  datatype Pc =
    | Idle
    | PushSwap(seg: seq<Node>)               // before the exchange of tail
    | PushHead(first: Node)                  // before head = &first
    | PushPrev(first: Node, pred: Node)      // before Prev(first) = prev
    | PushNext(first: Node, pred: Node)      // before Next(*prev) = &first
    | PopLock
    | RemoveLock(elem: Node)
    | Critical                               // holds the lock; see Lock.Held.at
    | Clear(elem: Node)                      // lock released, before Next(elem) = nullptr

  /** The steps inside the critical section. */
  datatype Crit =
    | PopHead
    | PopCheck(elem: Node)
    | RemoveTest(elem: Node)
    | HeadLoad(elem: Node)                   // removeHead
    | HeadStore(elem: Node, succ: Ptr)
    | HeadCut(elem: Node, stage: Stage)      // head was set to nullptr
    | MidLoad(elem: Node)                    // removeInternal
    | MidLoadPrev(elem: Node, succ: Ptr)
    | MidStore(elem: Node, succ: Ptr, link: Ptr)
    | MidBack(elem: Node, before: Node, next: Node)
    | MidCut(elem: Node, before: Node, stage: Stage)  // Next(*prev) was set to nullptr
    | Unlock(result: Ptr)

  datatype Stage = Cas | Spin | Reload | FixPrev(next: Node) | FixNext(next: Node)

  datatype Lock = Open | Held(t: Tid, at: Crit)

  /** What an idle thread does next.  A remover calls remove only for a node whose push
      has returned and whose resume race it has just won (ConditionalNemesisQueue). */
  datatype Act =
    | Push(seg: seq<Node>)
    | Pop
    | Remove(n: Node)
    | SetNext(n: Node, p: Ptr)
    | SetPrev(n: Node, p: Ptr)

  datatype State = State(
    head: Ptr,
    tail: Ptr,
    next: map<Node, Ptr>,
    prev: map<Node, Ptr>,
    lock: Lock,
    pc: map<Tid, Pc>,
    place: map<Node, Place>,
    chain: seq<Node>)          // history: the queue's nodes in tail-exchange order
  {
    function Pc(t: Tid): Pc { if t in pc then pc[t] else Idle }
    function Place(n: Node): Place { if n in place then place[n] else Free }
    function Next(n: Node): Ptr { Link(next, n) }
    function Prev(n: Node): Ptr { Link(prev, n) }
    function Go(t: Tid, p: Pc): State { this.(pc := pc[t := p]) }
    function Put(n: Node, p: Place): State { this.(place := place[n := p]) }
    function At(t: Tid, c: Crit): State { this.(lock := Held(t, c)) }
    predicate InChain(n: Node) { !Place(n).Free? && !Place(n).Private? }
  }

  function Init(): State {
    State(Null, Null, map[], map[], Open, map[], map[], [])
  }

  // ---------------------------------------------------------------- the steps

  /** A segment whose inner links are in place and whose last link is invalid. */
  ghost predicate Joined(s: State, seg: seq<Node>)
    requires seg != []
  {
    && (forall i :: 0 <= i < |seg| - 1 ==> Inner(s, seg, i))
    && s.Next(seg[|seg| - 1]) == Null
  }

  ghost predicate Inner(s: State, seg: seq<Node>, i: int)
    requires 0 <= i < |seg| - 1
  {
    s.Next(seg[i]) == To(seg[i + 1]) && s.Prev(seg[i + 1]) == To(seg[i])
  }

  ghost predicate CanPush(s: State, seg: seq<Node>) {
    && seg != [] && Distinct(seg)
    && (forall n :: n in seg ==> s.Place(n).Free?)
    && Joined(s, seg)
  }

  function Mark(place: map<Node, Place>, seg: seq<Node>, p: Place): map<Node, Place> {
    place + (map n | n in seg :: p)
  }

  /** t's push has returned: its nodes may now be claimed. */
  function Settle(place: map<Node, Place>, t: Tid): map<Node, Place> {
    map n | n in place :: Settled(place[n], t)
  }

  function Settled(p: Place, t: Tid): Place {
    if (p.Opening? || p.Trailing? || p.Pushing?) && p.t == t then Queued else p
  }

  ghost function Begin(s: State, t: Tid, a: Act): State {
    match a
    case Push(seg) =>
      if CanPush(s, seg) then s.Go(t, PushSwap(seg)).(place := Mark(s.place, seg, Private(t))) else s
    case Pop => s.Go(t, PopLock)
    case Remove(n) =>
      if s.Place(n).Queued? then s.Go(t, RemoveLock(n)).Put(n, Claimed(t)) else s
    case SetNext(n, p) => if s.Place(n).Free? then s.(next := s.next[n := p]) else s
    case SetPrev(n, p) => if s.Place(n).Free? then s.(prev := s.prev[n := p]) else s
  }

  function Swap(s: State, t: Tid, seg: seq<Node>): State {
    if seg == [] then s else
    var f := seg[0];
    var s' := s.(tail := LastOf(seg), chain := s.chain + seg, place := Mark(s.place, seg, Pushing(t)));
    match s.tail
    case Null => s'.Go(t, PushHead(f)).Put(f, Opening(t))
    case To(pred) => s'.Go(t, PushPrev(f, pred)).Put(f, Trailing(t, pred, false))
  }

  /** elem leaves the chain and now belongs to t alone. */
  function Take(s: State, t: Tid, elem: Node): State {
    s.(chain := Without(s.chain, elem)).Put(elem, Private(t)).At(t, Unlock(To(elem)))
  }

  function Inside(s: State, t: Tid, c: Crit): State {
    match c
    case PopHead => s.At(t, if s.head.To? then PopCheck(s.head.node) else Unlock(Null))
    case PopCheck(elem) =>
      if s.Place(elem).Queued? then s.At(t, HeadLoad(elem)).Put(elem, Claimed(t)) else s.At(t, Unlock(Null))
    case RemoveTest(elem) => s.At(t, if s.head == To(elem) then HeadLoad(elem) else MidLoad(elem))
    case HeadLoad(elem) => s.At(t, HeadStore(elem, s.Next(elem)))
    case HeadStore(elem, succ) =>
      if succ.To? then Take(s.(head := succ), t, elem) else s.(head := Null).At(t, HeadCut(elem, Cas))
    case HeadCut(elem, stage) => (
      match stage
      case Cas => if s.tail == To(elem) then Take(s.(tail := Null), t, elem) else s.At(t, HeadCut(elem, Spin))
      case Spin => if s.Next(elem).To? then s.At(t, HeadCut(elem, Reload)) else s
      case _ => Take(s.(head := s.Next(elem)), t, elem))
    case MidLoad(elem) => s.At(t, MidLoadPrev(elem, s.Next(elem)))
    case MidLoadPrev(elem, succ) => s.At(t, MidStore(elem, succ, s.Prev(elem)))
    case MidStore(elem, succ, link) =>
      if link.Null? then s else
      s.(next := s.next[link.node := succ]).At(t,
        if succ.To? then MidBack(elem, link.node, succ.node) else MidCut(elem, link.node, Cas))
    case MidBack(elem, before, next) => Take(s.(prev := s.prev[next := To(before)]), t, elem)
    case MidCut(elem, before, stage) => (
      match stage
      case Cas =>
        if s.tail == To(elem) then Take(s.(tail := To(before)), t, elem) else s.At(t, MidCut(elem, before, Spin))
      case Spin => if s.Next(elem).To? then s.At(t, MidCut(elem, before, Reload)) else s
      case Reload => if s.Next(elem).To? then s.At(t, MidCut(elem, before, FixPrev(s.Next(elem).node))) else s
      case FixPrev(next) => s.(prev := s.prev[next := To(before)]).At(t, MidCut(elem, before, FixNext(next)))
      case FixNext(next) => Take(s.(next := s.next[before := To(next)]), t, elem))
    case Unlock(result) => s.(lock := Open).Go(t, if result.To? then Clear(result.node) else Idle)
  }

  ghost function Step(s: State, t: Tid, a: Act): State {
    match s.Pc(t)
    case Idle => Begin(s, t, a)
    case PushSwap(seg) => Swap(s, t, seg)
    case PushHead(first) => s.Go(t, Idle).(head := To(first), place := Settle(s.place, t))
    case PushPrev(first, pred) =>
      s.(prev := s.prev[first := To(pred)]).Go(t, PushNext(first, pred)).Put(first, Trailing(t, pred, true))
    case PushNext(first, pred) =>
      s.(next := s.next[pred := To(first)]).Go(t, Idle).(place := Settle(s.place, t))
    case PopLock => if s.lock.Open? then s.At(t, PopHead).Go(t, Critical) else s
    case RemoveLock(elem) => if s.lock.Open? then s.At(t, RemoveTest(elem)).Go(t, Critical) else s
    case Critical => if s.lock.Held? then Inside(s, t, s.lock.at) else s
    case Clear(elem) => s.(next := s.next[elem := Null]).Go(t, Idle).Put(elem, Free)
  }

  // ------------------------------------------------------------ the invariant

  /** The links between the neighbours a, b.  Only a pusher that has not linked its
      segment and the one remover in the critical section leave them in flux. */
  predicate Linked(s: State, a: Node, b: Node) {
    && Forward(s, a, b)
    && (if s.Place(b).Trailing?
        then s.Place(b).pred == a && (s.Place(b).back ==> s.Prev(b) == To(a))
        else s.Prev(b) == To(Behind(s, a, b)))
    && !s.Place(b).Opening?
    && (s.Place(b).Pushing? ==> Member(s.Place(a), s.Place(b).t))
  }

  predicate Forward(s: State, a: Node, b: Node) {
    if s.lock.Held? && s.lock.at.MidBack? && s.lock.at.elem == b then
      s.lock.at.before == a && s.Next(a) == To(s.lock.at.next)
    else if s.lock.Held? && s.lock.at.MidCut? && s.lock.at.elem == b then
      s.lock.at.before == a && s.Next(a) == Null
    else
      s.Next(a) == if s.Place(b).Trailing? then Null else To(b)
  }

  function Behind(s: State, a: Node, b: Node): Node {
    if s.lock.Held? && s.lock.at.MidCut? && s.lock.at.stage == FixNext(b) then s.lock.at.before else a
  }

  /** p is the place of a node of the segment that t is pushing. */
  predicate Member(p: Place, t: Tid) {
    (p.Opening? || p.Trailing? || p.Pushing?) && p.t == t
  }

  ghost predicate Pair(s: State, k: int) {
    0 <= k < |s.chain| - 1 ==> Linked(s, s.chain[k], s.chain[k + 1])
  }

  ghost predicate Pairs(s: State) {
    forall k :: Pair(s, k)
  }

  predicate Follows(q: seq<Node>, k: int, a: Node, b: Node) {
    0 <= k < |q| - 1 && q[k] == a && q[k + 1] == b
  }

  ghost predicate Adjacent(s: State, a: Node, b: Node) {
    exists k :: Follows(s.chain, k, a, b)
  }

  ghost predicate Ends(s: State) {
    && s.tail == LastOf(s.chain)
    && (s.chain == [] ==> s.head == Null)
    && (s.chain != [] ==>
          var c := s.chain[0];
          && s.Next(s.chain[|s.chain| - 1]) == Null
          && !s.Place(c).Pushing? && !s.Place(c).Trailing?
          && s.head == if s.Place(c).Opening? || (s.lock.Held? && s.lock.at.HeadCut?) then Null else To(c))
  }

  ghost predicate Places(s: State) {
    && Distinct(s.chain)
    && (forall k :: 0 <= k < |s.chain| ==> s.InChain(s.chain[k]))
    && (forall n: Node :: s.InChain(n) ==> n in s.chain)
  }

  /** Only a pusher's first node is Opening or Trailing. */
  ghost predicate Owners(s: State) {
    && (forall n: Node :: s.Place(n).Opening? ==> s.Pc(s.Place(n).t) == PushHead(n))
    && (forall n: Node :: s.Place(n).Trailing? ==>
          var p := s.Pc(s.Place(n).t); (p.PushPrev? || p.PushNext?) && p.first == n)
  }

  /** What holds of thread t outside the critical section. */
  ghost predicate Thread(s: State, t: Tid) {
    match s.Pc(t)
    case Idle => true
    case PushSwap(seg) =>
      seg != [] && Distinct(seg) && Joined(s, seg) && forall n :: n in seg ==> s.Place(n) == Private(t)
    case PushHead(first) => s.Place(first) == Opening(t) && s.chain != [] && s.chain[0] == first
    case PushPrev(first, pred) => s.Place(first) == Trailing(t, pred, false)
    case PushNext(first, pred) => s.Place(first) == Trailing(t, pred, true)
    case PopLock => true
    case RemoveLock(elem) => s.Place(elem) == Claimed(t)
    case Critical => s.lock.Held? && s.lock.t == t
    case Clear(elem) => s.Place(elem) == Private(t)
  }

  predicate First(s: State, elem: Node) {
    s.chain != [] && s.chain[0] == elem
  }

  predicate Later(s: State, elem: Node) {
    s.chain != [] && s.chain[0] != elem
  }

  predicate Attached(s: State, n: Node) {
    s.InChain(n) && !s.Place(n).Trailing?
  }

  /** What holds of the thread inside the critical section. */
  ghost predicate Section(s: State, t: Tid, c: Crit) {
    match c
    case PopHead => true
    case PopCheck(elem) => First(s, elem) && s.head == To(elem)
    case RemoveTest(elem) => s.Place(elem) == Claimed(t)
    case HeadLoad(elem) => s.Place(elem) == Claimed(t) && First(s, elem)
    case HeadStore(elem, succ) =>
      s.Place(elem) == Claimed(t) && First(s, elem) && (succ.To? ==> succ == s.Next(elem))
    case HeadCut(elem, stage) =>
      && s.Place(elem) == Claimed(t) && First(s, elem)
      && (stage != Cas ==> s.tail != To(elem))
      && (stage != Cas && stage != Spin ==> s.Next(elem).To?)
    case MidLoad(elem) => s.Place(elem) == Claimed(t) && Later(s, elem)
    case MidLoadPrev(elem, succ) =>
      s.Place(elem) == Claimed(t) && Later(s, elem) && (succ.To? ==> succ == s.Next(elem))
    case MidStore(elem, succ, link) =>
      && s.Place(elem) == Claimed(t) && link.To? && Adjacent(s, link.node, elem)
      && (succ.To? ==> succ == s.Next(elem))
    case MidBack(elem, before, next) =>
      s.Place(elem) == Claimed(t) && Adjacent(s, before, elem) && s.Next(elem) == To(next)
    case MidCut(elem, before, stage) =>
      && s.Place(elem) == Claimed(t) && Adjacent(s, before, elem)
      && (stage != Cas ==> s.tail != To(elem))
      && (stage.Reload? ==> s.Next(elem).To?)
      && (stage.FixPrev? || stage.FixNext? ==> s.Next(elem) == To(stage.next) && Attached(s, stage.next))
    case Unlock(result) => result.To? ==> s.Place(result.node) == Private(t)
  }

  ghost predicate Inv(s: State) {
    && Places(s)
    && Owners(s)
    && Ends(s)
    && Pairs(s)
    && (forall t: Tid :: Thread(s, t))
    && (s.lock.Held? ==> s.Pc(s.lock.t).Critical? && Section(s, s.lock.t, s.lock.at))
  }

  // ------------------------------------------------------ every step keeps it

  lemma InitInv()
    ensures Inv(Init())
  {}

  /** What t's step leaves alone, so that the threads outside are undisturbed. */
  ghost predicate Frame(s: State, s': State, t: Tid) {
    && (forall u :: u != t ==> s'.Pc(u) == s.Pc(u))
    && (forall n :: Foreign(s.Place(n), t) ==> s'.Place(n) == s.Place(n))
    && (forall n :: s.Place(n).Private? && s.Place(n).t != t ==> s'.Next(n) == s.Next(n) && s'.Prev(n) == s.Prev(n))
    && (s.chain != [] && s.Place(s.chain[0]).Opening? ==> s'.chain != [] && s'.chain[0] == s.chain[0])
    && (s.lock.Held? && s.lock.t != t ==> s'.lock.Held? && s'.lock.t == s.lock.t)
  }

  predicate Foreign(p: Place, t: Tid) {
    !p.Free? && !p.Queued? && p.t != t
  }

  lemma JoinedFrame(s: State, s': State, seg: seq<Node>)
    requires seg != [] && Joined(s, seg)
    requires forall n :: n in seg ==> s'.Next(n) == s.Next(n) && s'.Prev(n) == s.Prev(n)
    ensures Joined(s', seg)
  {
    forall i | 0 <= i < |seg| - 1 ensures Inner(s', seg, i) { assert Inner(s, seg, i); }
  }

  lemma ThreadFrame(s: State, s': State, t: Tid, u: Tid)
    requires Frame(s, s', t) && u != t && Thread(s, u)
    ensures Thread(s', u)
  {
    if s.Pc(u).PushSwap? { JoinedFrame(s, s', s.Pc(u).seg); }
  }

  /** What a step outside the critical section may change under the lock holder's eyes. */
  ghost predicate SectionFrame(s: State, s': State) {
    s.lock.Held? ==>
      && s'.lock == s.lock
      && s.chain <= s'.chain
      && (s.head.To? ==> s'.head == s.head)
      && (forall n :: Attached(s, n) ==> Attached(s', n))
      && (forall n :: s.Place(n).Claimed? ==>
            && s'.Place(n) == s.Place(n)
            && (s.Next(n).To? ==> s'.Next(n) == s.Next(n))
            && (s.tail != To(n) ==> s'.tail != To(n)))
      && (forall n :: s.Place(n).Private? && s.Place(n).t == s.lock.t ==> s'.Place(n) == s.Place(n))
  }

  lemma AdjacentFrame(s: State, s': State, a: Node, b: Node)
    requires Adjacent(s, a, b) && s.chain <= s'.chain
    ensures Adjacent(s', a, b)
  {
    var k :| Follows(s.chain, k, a, b);
    assert Follows(s'.chain, k, a, b);
  }

  lemma SectionKept(s: State, s': State)
    requires s.lock.Held? && SectionFrame(s, s') && Section(s, s.lock.t, s.lock.at)
    ensures Section(s', s.lock.t, s.lock.at)
  {
    match s.lock.at {
      case MidStore(elem, _, link) => AdjacentFrame(s, s', link.node, elem);
      case MidBack(elem, before, _) => AdjacentFrame(s, s', before, elem);
      case MidCut(elem, before, _) => AdjacentFrame(s, s', before, elem);
      case _ =>
    }
  }

  /** A step outside the critical section keeps the invariant when it keeps its parts. */
  lemma GlueOutside(s: State, s': State, t: Tid)
    requires Inv(s) && Frame(s, s', t) && SectionFrame(s, s') && !s.Pc(t).Critical?
    requires s.lock.Open? ==> s'.lock.Open?
    requires Places(s') && Owners(s') && Ends(s') && Pairs(s') && Thread(s', t)
    ensures Inv(s')
  {
    forall u ensures Thread(s', u) {
      if u != t { ThreadFrame(s, s', t, u); }
    }
    if s.lock.Held? { SectionKept(s, s'); }
  }

  /** A step of the lock holder keeps the invariant when it keeps its parts. */
  lemma GlueInside(s: State, s': State, t: Tid)
    requires Inv(s) && Frame(s, s', t) && (s.lock.Open? || s.lock.t == t)
    requires Places(s') && Owners(s') && Ends(s') && Pairs(s') && Thread(s', t)
    requires s'.lock.Held? ==> s'.lock.t == t && s'.Pc(t).Critical? && Section(s', t, s'.lock.at)
    ensures Inv(s')
  {
    forall u ensures Thread(s', u) {
      if u != t { ThreadFrame(s, s', t, u); }
    }
  }

  /** The pair at k of s' is the pair at j of s, with the same links, places and lock. */
  ghost predicate Same(s: State, s': State, k: int, j: int) {
    0 <= k < |s'.chain| - 1 ==>
      && 0 <= j < |s.chain| - 1
      && var a, b := s.chain[j], s.chain[j + 1];
      && s'.chain[k] == a && s'.chain[k + 1] == b
      && s'.Next(a) == s.Next(a) && s'.Prev(b) == s.Prev(b)
      && s'.Place(a) == s.Place(a) && s'.Place(b) == s.Place(b)
      && (s'.lock == s.lock || (Calm(s, b) && Calm(s', b)))
  }

  /** The critical section is not at a point where b's links are in flux. */
  predicate Calm(s: State, b: Node) {
    s.lock.Held? ==>
      && (s.lock.at.MidBack? || s.lock.at.MidCut? ==> s.lock.at.elem != b)
      && (s.lock.at.MidCut? ==> s.lock.at.stage != FixNext(b))
  }

  lemma PairFrame(s: State, s': State, k: int, j: int)
    requires Same(s, s', k, j) && Pair(s, j)
    ensures Pair(s', k)
  {}

  /** Steps that touch no node of the chain, nor the critical section, keep its links. */
  lemma PairsSame(s: State, s': State)
    requires Places(s) && Pairs(s) && s'.chain == s.chain && s'.lock == s.lock
    requires forall n :: s.InChain(n) ==> s'.Next(n) == s.Next(n) && s'.Prev(n) == s.Prev(n) && s'.Place(n) == s.Place(n)
    ensures Pairs(s')
  {
    forall k ensures Pair(s', k) { PairFrame(s, s', k, k); }
  }

  lemma BeginPush(s: State, t: Tid, seg: seq<Node>)
    requires Inv(s) && s.Pc(t).Idle? && CanPush(s, seg)
    ensures Inv(Begin(s, t, Push(seg)))
  {
    var s' := Begin(s, t, Push(seg));
    assert forall n :: s'.Place(n) == if n in seg then Private(t) else s.Place(n);
    JoinedFrame(s, s', seg);
    PairsSame(s, s');
    BeginPushFrame(s, t, seg);
    GlueOutside(s, s', t);
  }

  lemma BeginPushFrame(s: State, t: Tid, seg: seq<Node>)
    requires s.Pc(t).Idle? && CanPush(s, seg)
    ensures Frame(s, Begin(s, t, Push(seg)), t) && SectionFrame(s, Begin(s, t, Push(seg)))
  {
    assert forall n :: Begin(s, t, Push(seg)).Place(n) == if n in seg then Private(t) else s.Place(n);
  }

  lemma BeginPop(s: State, t: Tid)
    requires Inv(s) && s.Pc(t).Idle?
    ensures Inv(Begin(s, t, Pop))
  {
    var s' := Begin(s, t, Pop);
    PairsSame(s, s');
    GlueOutside(s, s', t);
  }

  lemma BeginRemove(s: State, t: Tid, m: Node)
    requires Inv(s) && s.Pc(t).Idle? && s.Place(m).Queued?
    ensures Inv(Begin(s, t, Remove(m)))
  {
    var s' := Begin(s, t, Remove(m));
    assert forall n :: s'.Place(n) == if n == m then Claimed(t) else s.Place(n);
    BeginRemovePairs(s, t, m);
    BeginRemoveFrame(s, t, m);
    GlueOutside(s, s', t);
  }

  lemma BeginRemovePairs(s: State, t: Tid, m: Node)
    requires Pairs(s) && s.Place(m).Queued?
    ensures Pairs(Begin(s, t, Remove(m)))
  {
    forall k ensures Pair(Begin(s, t, Remove(m)), k) { assert Pair(s, k); }
  }

  lemma BeginRemoveFrame(s: State, t: Tid, m: Node)
    requires s.Pc(t).Idle? && s.Place(m).Queued?
    ensures Frame(s, Begin(s, t, Remove(m)), t)
  {}

  lemma BeginSetLink(s: State, t: Tid, m: Node, p: Ptr, back: bool)
    requires Inv(s) && s.Pc(t).Idle? && s.Place(m).Free?
    ensures Inv(Begin(s, t, if back then SetPrev(m, p) else SetNext(m, p)))
  {
    var s' := Begin(s, t, if back then SetPrev(m, p) else SetNext(m, p));
    assert forall n :: s'.Place(n) == s.Place(n);
    assert forall n :: n != m ==> s'.Next(n) == s.Next(n) && s'.Prev(n) == s.Prev(n);
    PairsSame(s, s');
    GlueOutside(s, s', t);
  }

  // push

  /** What the exchange of tail changes, in terms of the chain. */
  ghost predicate SwapEffect(s: State, t: Tid, s': State) {
    && s.Pc(t).PushSwap? && s.Pc(t).seg != []
    && var seg := s.Pc(t).seg;
    && s'.chain == s.chain + seg && s'.tail == LastOf(seg)
    && s'.next == s.next && s'.prev == s.prev && s'.lock == s.lock && s'.head == s.head
    && (forall u :: u != t ==> s'.Pc(u) == s.Pc(u))
    && (forall n :: n != seg[0] ==> s'.Place(n) == if n in seg then Pushing(t) else s.Place(n))
    && if s.chain == [] then
         s'.Pc(t) == PushHead(seg[0]) && s'.Place(seg[0]) == Opening(t)
       else
         var pred := s.chain[|s.chain| - 1];
         s'.Pc(t) == PushPrev(seg[0], pred) && s'.Place(seg[0]) == Trailing(t, pred, false)
  }

  lemma SwapEffects(s: State, t: Tid, a: Act)
    requires Inv(s) && s.Pc(t).PushSwap?
    ensures SwapEffect(s, t, Step(s, t, a))
  {
    assert Thread(s, t);
  }

  lemma SwapKeeps(s: State, t: Tid, a: Act)
    requires Inv(s) && s.Pc(t).PushSwap?
    ensures Inv(Step(s, t, a))
  {
    var s' := Step(s, t, a);
    SwapEffects(s, t, a);
    SwapPlaces(s, t, s');
    SwapEnds(s, t, s');
    SwapFrame(s, t, s');
    forall k ensures Pair(s', k) { SwapPair(s, t, s', k); }
    GlueOutside(s, s', t);
  }

  lemma SwapPlaces(s: State, t: Tid, s': State)
    requires Inv(s) && SwapEffect(s, t, s')
    ensures Places(s') && Owners(s')
  {
    var seg := s.Pc(t).seg;
    assert Thread(s, t);
    assert seg[0] in seg;
    AppendDistinct(s.chain, seg);
  }

  lemma SwapFrame(s: State, t: Tid, s': State)
    requires Inv(s) && SwapEffect(s, t, s')
    ensures Frame(s, s', t) && SectionFrame(s, s') && Thread(s', t)
  {
    var seg := s.Pc(t).seg;
    assert Thread(s, t);
    assert seg[0] in seg && seg[|seg| - 1] in seg;
  }

  lemma SwapEnds(s: State, t: Tid, s': State)
    requires Inv(s) && SwapEffect(s, t, s')
    ensures Ends(s')
  {
    var seg := s.Pc(t).seg;
    assert Thread(s, t);
    assert seg[0] in seg && seg[|seg| - 1] in seg;
  }

  lemma SwapPair(s: State, t: Tid, s': State, k: int)
    requires Inv(s) && SwapEffect(s, t, s')
    ensures Pair(s', k)
  {
    var seg, n := s.Pc(t).seg, |s.chain|;
    assert Thread(s, t);
    assert seg[0] in seg;
    if k < n - 1 {
      PairFrame(s, s', k, k);
    } else if n <= k < |s'.chain| - 1 {
      assert Inner(s, seg, k - n);
      assert seg[k - n] in seg && seg[k - n + 1] in seg;
    }
  }

  lemma PushHeadKeeps(s: State, t: Tid, a: Act)
    requires Inv(s) && s.Pc(t).PushHead?
    ensures Inv(Step(s, t, a))
  {
    var s' := Step(s, t, a);
    assert Thread(s, t);
    assert forall n :: s'.Place(n) == Settled(s.Place(n), t);
    forall k ensures Pair(s', k) { assert Pair(s, k); }
    GlueOutside(s, s', t);
  }

  lemma PushPrevKeeps(s: State, t: Tid, a: Act)
    requires Inv(s) && s.Pc(t).PushPrev?
    ensures Inv(Step(s, t, a))
  {
    var s' := Step(s, t, a);
    var first := s.Pc(t).first;
    assert Thread(s, t);
    assert forall n :: n != first ==> s'.Place(n) == s.Place(n) && s'.Prev(n) == s.Prev(n);
    PushPrevPairs(s, t, s');
    PushPrevFrame(s, t, a);
    GlueOutside(s, s', t);
  }

  lemma PushPrevFrame(s: State, t: Tid, a: Act)
    requires Thread(s, t) && s.Pc(t).PushPrev?
    ensures Frame(s, Step(s, t, a), t)
  {}

  lemma PushPrevPairs(s: State, t: Tid, s': State)
    requires Inv(s) && s.Pc(t).PushPrev? && s' == Step(s, t, Pop)
    ensures Pairs(s')
  {
    assert Thread(s, t);
    forall k ensures Pair(s', k) { assert Pair(s, k); PushPrevPair(s, t, s', k); }
  }

  lemma PushPrevPair(s: State, t: Tid, s': State, k: int)
    requires Thread(s, t) && s.Pc(t).PushPrev? && s' == Step(s, t, Pop) && Distinct(s.chain) && Pair(s, k)
    ensures Pair(s', k)
  {
    var first := s.Pc(t).first;
    assert forall n :: n != first ==> s'.Place(n) == s.Place(n) && s'.Prev(n) == s.Prev(n);
  }

  /** The node whose link a pusher writes still precedes its segment. */
  lemma TrailingPair(s: State, f: Node) returns (k: nat)
    requires Places(s) && Ends(s) && Pairs(s) && s.Place(f).Trailing?
    ensures Follows(s.chain, k, s.Place(f).pred, f)
  {
    assert s.InChain(f);
    var j :| 0 <= j < |s.chain| && s.chain[j] == f;
    k := j - 1;
    assert Pair(s, k);
  }

  lemma PushNextKeeps(s: State, t: Tid, a: Act)
    requires Inv(s) && s.Pc(t).PushNext?
    ensures Inv(Step(s, t, a))
  {
    var s' := Step(s, t, a);
    var first, pred := s.Pc(t).first, s.Pc(t).pred;
    assert Thread(s, t);
    assert forall n :: s'.Place(n) == Settled(s.Place(n), t);
    PushNextEnds(s, t, s');
    PushNextPairs(s, t, s');
    PushNextFrame(s, t, s');
    GlueOutside(s, s', t);
  }

  lemma PushNextEnds(s: State, t: Tid, s': State)
    requires Inv(s) && s.Pc(t).PushNext? && s' == Step(s, t, Pop)
    ensures Ends(s')
  {
    var first, pred := s.Pc(t).first, s.Pc(t).pred;
    assert Thread(s, t);
    var j := TrailingPair(s, first);
    assert Pair(s, j);
    assert forall n :: s'.Place(n) == Settled(s.Place(n), t);
    assert forall n :: n != pred ==> s'.Next(n) == s.Next(n);
  }

  lemma PushNextFrame(s: State, t: Tid, s': State)
    requires Inv(s) && s.Pc(t).PushNext? && s' == Step(s, t, Pop)
    ensures Frame(s, s', t) && SectionFrame(s, s')
  {
    var first, pred := s.Pc(t).first, s.Pc(t).pred;
    assert Thread(s, t);
    var j := TrailingPair(s, first);
    assert Pair(s, j);
    assert forall n :: s'.Place(n) == Settled(s.Place(n), t);
    assert forall n :: n != pred ==> s'.Next(n) == s.Next(n);
  }

  lemma PushNextPairs(s: State, t: Tid, s': State)
    requires Inv(s) && s.Pc(t).PushNext? && s' == Step(s, t, Pop)
    ensures Pairs(s')
  {
    var first, pred := s.Pc(t).first, s.Pc(t).pred;
    assert Thread(s, t);
    var j := TrailingPair(s, first);
    assert Pair(s, j);
    assert forall n :: s'.Place(n) == Settled(s.Place(n), t);
    assert forall n :: n != pred ==> s'.Next(n) == s.Next(n);
    forall k ensures Pair(s', k) { assert Pair(s, k); }
  }

  lemma ClearKeeps(s: State, t: Tid, a: Act)
    requires Inv(s) && s.Pc(t).Clear?
    ensures Inv(Step(s, t, a))
  {
    var s' := Step(s, t, a);
    var elem := s.Pc(t).elem;
    assert Thread(s, t);
    assert forall n :: n != elem ==> s'.Place(n) == s.Place(n) && s'.Next(n) == s.Next(n);
    PairsSame(s, s');
    GlueOutside(s, s', t);
  }

  // entering and leaving the critical section

  lemma LockKeeps(s: State, t: Tid, a: Act)
    requires Inv(s) && (s.Pc(t).PopLock? || s.Pc(t).RemoveLock?)
    ensures Inv(Step(s, t, a))
  {
    var s' := Step(s, t, a);
    if s.lock.Open? {
      assert Thread(s, t);
      forall k ensures Pair(s', k) { PairFrame(s, s', k, k); }
      GlueInside(s, s', t);
    }
  }

  /** t is inside the critical section. */
  ghost predicate Busy(s: State, t: Tid) {
    Inv(s) && s.Pc(t).Critical? && s.lock.Held? && s.lock.t == t
  }

  lemma UnlockKeeps(s: State, t: Tid)
    requires Busy(s, t) && s.lock.at.Unlock?
    ensures Inv(Inside(s, t, s.lock.at))
  {
    var s' := Inside(s, t, s.lock.at);
    forall k ensures Pair(s', k) { PairFrame(s, s', k, k); }
    GlueInside(s, s', t);
  }

  // inside the critical section: steps that only look

  lemma LookKeeps(s: State, t: Tid, c: Crit)
    requires Busy(s, t) && Section(s, t, c) && !c.MidBack? && !c.MidCut? && (c.HeadCut? <==> s.lock.at.HeadCut?)
    requires !s.lock.at.MidBack? && !s.lock.at.MidCut?
    ensures Inv(s.At(t, c))
  {
    var s' := s.At(t, c);
    forall k ensures Pair(s', k) { PairFrame(s, s', k, k); }
    GlueInside(s, s', t);
  }

  lemma PopHeadKeeps(s: State, t: Tid)
    requires Busy(s, t) && s.lock.at.PopHead?
    ensures Inv(Inside(s, t, s.lock.at))
  {
    LookKeeps(s, t, if s.head.To? then PopCheck(s.head.node) else Unlock(Null));
  }

  lemma PopCheckKeeps(s: State, t: Tid)
    requires Busy(s, t) && s.lock.at.PopCheck?
    ensures Inv(Inside(s, t, s.lock.at))
  {
    var elem := s.lock.at.elem;
    if s.Place(elem).Queued? {
      var s' := Inside(s, t, s.lock.at);
      assert forall n :: n != elem ==> s'.Place(n) == s.Place(n);
      forall k ensures Pair(s', k) { assert Pair(s, k); }
      GlueInside(s, s', t);
    } else {
      LookKeeps(s, t, Unlock(Null));
    }
  }

  lemma RemoveTestKeeps(s: State, t: Tid)
    requires Busy(s, t) && s.lock.at.RemoveTest?
    ensures Inv(Inside(s, t, s.lock.at))
  {
    var elem := s.lock.at.elem;
    assert s.InChain(elem);
    LookKeeps(s, t, if s.head == To(elem) then HeadLoad(elem) else MidLoad(elem));
  }

  lemma LoadKeeps(s: State, t: Tid)
    requires Busy(s, t) && (s.lock.at.HeadLoad? || s.lock.at.MidLoad?)
    ensures Inv(Inside(s, t, s.lock.at))
  {
    var elem := s.lock.at.elem;
    LookKeeps(s, t, if s.lock.at.HeadLoad? then HeadStore(elem, s.Next(elem)) else MidLoadPrev(elem, s.Next(elem)));
  }

  /** A claimed node that is not first has a predecessor, and its link names it. */
  lemma Predecessor(s: State, elem: Node) returns (k: nat)
    requires Inv(s) && s.Place(elem).Claimed? && Later(s, elem)
    ensures 0 < k < |s.chain| && s.chain[k] == elem && Pair(s, k - 1)
  {
    assert s.InChain(elem);
    k :| 0 <= k < |s.chain| && s.chain[k] == elem;
    assert Pair(s, k - 1);
  }

  lemma LoadPrevKeeps(s: State, t: Tid)
    requires Busy(s, t) && s.lock.at.MidLoadPrev?
    ensures Inv(Inside(s, t, s.lock.at))
  {
    var elem := s.lock.at.elem;
    var k := Predecessor(s, elem);
    assert Follows(s.chain, k - 1, s.chain[k - 1], elem);
    LookKeeps(s, t, MidStore(elem, s.lock.at.succ, s.Prev(elem)));
  }

  // taking a node out of the chain

  lemma TakePlaces(s: State, t: Tid, i: nat, s': State)
    requires Busy(s, t) && i < |s.chain| && s.Place(s.chain[i]) == Claimed(t)
    requires s' == s'.(chain := Without(s.chain, s.chain[i]), pc := s.pc).Put(s.chain[i], Private(t))
    requires s'.place == s.place[s.chain[i] := Private(t)]
    ensures Places(s') && Owners(s')
  {
    var elem := s.chain[i];
    WithoutAt(s.chain, i);
    WithoutKeeps(s.chain, i);
    assert forall n :: n != elem ==> s'.Place(n) == s.Place(n);
    forall k | 0 <= k < |s'.chain| ensures s'.InChain(s'.chain[k]) {
      assert s'.chain[k] in s'.chain;
      assert s'.chain[k] == s.chain[if k < i then k else k + 1];
    }
    forall n | s'.InChain(n) ensures n in s'.chain { assert s.InChain(n); }
  }

  /** The head leaves: what follows it, if anything, was linked and becomes the head. */
  ghost predicate TakesFirst(s: State, t: Tid, s': State) {
    && Busy(s, t) && s.chain != [] && s.Place(s.chain[0]) == Claimed(t)
    && (s.lock.at.HeadStore? || s.lock.at.HeadCut?)
    && var elem := s.chain[0];
       if |s.chain| == 1 then s' == Take(s.(head := Null, tail := Null), t, elem)
       else s' == Take(s.(head := To(s.chain[1])), t, elem) && s.Next(elem) == To(s.chain[1])
  }

  lemma TakeFirstPairs(s: State, t: Tid, s': State)
    requires TakesFirst(s, t, s')
    ensures Pairs(s')
  {
    var elem := s.chain[0];
    WithoutAt(s.chain, 0);
    assert forall n :: n != elem ==> s'.Place(n) == s.Place(n);
    forall k ensures Pair(s', k) { PairFrame(s, s', k, k + 1); }
  }

  lemma TakeFirstEnds(s: State, t: Tid, s': State)
    requires TakesFirst(s, t, s')
    ensures Ends(s')
  {
    WithoutAt(s.chain, 0);
    if |s.chain| > 1 {
      assert Pair(s, 0);
      assert s'.Place(s.chain[1]) == s.Place(s.chain[1]);
    }
  }

  lemma TakeFirst(s: State, t: Tid, s': State)
    requires TakesFirst(s, t, s')
    ensures Inv(s')
  {
    TakePlaces(s, t, 0, s');
    TakeFirstEnds(s, t, s');
    TakeFirstPairs(s, t, s');
    assert forall n :: n != s.chain[0] ==> s'.Place(n) == s.Place(n);
    GlueInside(s, s', t);
  }

  /** The node at i > 0 leaves: its neighbours are joined, or its predecessor is last. */
  ghost predicate TakesMid(s: State, t: Tid, i: nat, s': State) {
    && Busy(s, t) && 0 < i < |s.chain| && s.Place(s.chain[i]) == Claimed(t)
    && (s.lock.at.MidBack? || s.lock.at.MidCut?) && s.lock.at.elem == s.chain[i]
    && (s.lock.at.MidCut? && s.lock.at.stage.FixNext? ==> i + 1 < |s.chain| && s.lock.at.stage.next == s.chain[i + 1])
    && s' == Take(s.(tail := s'.tail, next := s'.next, prev := s'.prev), t, s.chain[i])
    && (forall n :: n != s.chain[i - 1] ==> s'.Next(n) == s.Next(n))
    && if i + 1 < |s.chain| then
         && s'.tail == s.tail
         && (forall n :: n != s.chain[i + 1] ==> s'.Prev(n) == s.Prev(n))
         && Linked(s', s.chain[i - 1], s.chain[i + 1])
       else
         && s'.tail == To(s.chain[i - 1]) && s'.prev == s.prev
         && s'.Next(s.chain[i - 1]) == Null
  }

  lemma TakeMidPairs(s: State, t: Tid, i: nat, s': State)
    requires TakesMid(s, t, i, s')
    ensures Pairs(s')
  {
    forall k ensures Pair(s', k) { TakeMidPair(s, t, i, s', k); }
  }

  lemma TakeMidPair(s: State, t: Tid, i: nat, s': State, k: int)
    requires TakesMid(s, t, i, s')
    ensures Pair(s', k)
  {
    WithoutAt(s.chain, i);
    if k != i - 1 { TakeMidSame(s, t, i, s', k); PairFrame(s, s', k, if k < i then k else k + 1); }
  }

  lemma TakeMidSame(s: State, t: Tid, i: nat, s': State, k: int)
    requires TakesMid(s, t, i, s') && k != i - 1
    ensures Same(s, s', k, if k < i then k else k + 1)
  {
    WithoutAt(s.chain, i);
    assert forall n :: n != s.chain[i] ==> s'.Place(n) == s.Place(n);
  }

  lemma TakeMidEnds(s: State, t: Tid, i: nat, s': State)
    requires TakesMid(s, t, i, s')
    ensures Ends(s')
  {
    WithoutAt(s.chain, i);
    assert s'.Place(s.chain[0]) == s.Place(s.chain[0]);
    TakeMidLast(s, t, i, s');
  }

  lemma TakeMidLast(s: State, t: Tid, i: nat, s': State)
    requires TakesMid(s, t, i, s')
    ensures s'.chain != [] && s'.tail == LastOf(s'.chain) && s'.Next(s'.chain[|s'.chain| - 1]) == Null
  {
    WithoutAt(s.chain, i);
  }

  lemma TakeMidFrame(s: State, t: Tid, i: nat, s': State)
    requires TakesMid(s, t, i, s')
    ensures Frame(s, s', t)
  {
    WithoutAt(s.chain, i);
    assert forall n :: n != s.chain[i] ==> s'.Place(n) == s.Place(n);
    assert s.InChain(s.chain[i - 1]);
    if i + 1 < |s.chain| { assert s.InChain(s.chain[i + 1]); }
  }

  lemma TakeMid(s: State, t: Tid, i: nat, s': State)
    requires TakesMid(s, t, i, s')
    ensures Inv(s')
  {
    TakePlaces(s, t, i, s');
    TakeMidEnds(s, t, i, s');
    TakeMidPairs(s, t, i, s');
    TakeMidFrame(s, t, i, s');
    GlueInside(s, s', t);
  }

  // removeHead

  lemma HeadStoreKeeps(s: State, t: Tid)
    requires Busy(s, t) && s.lock.at.HeadStore?
    ensures Inv(Inside(s, t, s.lock.at))
  {
    var s' := Inside(s, t, s.lock.at);
    var elem := s.lock.at.elem;
    assert Pair(s, 0);
    if s.lock.at.succ.To? {
      TakeFirst(s, t, s');
    } else {
      forall k ensures Pair(s', k) { PairFrame(s, s', k, k); }
      GlueInside(s, s', t);
    }
  }

  lemma HeadCutKeeps(s: State, t: Tid)
    requires Busy(s, t) && s.lock.at.HeadCut?
    ensures Inv(Inside(s, t, s.lock.at))
  {
    var s' := Inside(s, t, s.lock.at);
    var elem := s.lock.at.elem;
    if s.lock.at.stage.Spin? {
      if s.Next(elem).To? { LookKeeps(s, t, HeadCut(elem, Reload)); }
    } else if s.lock.at.stage.Cas? {
      if s.tail == To(elem) {
        assert |s.chain| == 1;
        TakeFirst(s, t, s');
      } else {
        LookKeeps(s, t, HeadCut(elem, Spin));
      }
    } else {
      assert Pair(s, 0);
      TakeFirst(s, t, s');
    }
  }

  // removeInternal

  lemma MidStoreKeeps(s: State, t: Tid)
    requires Busy(s, t) && s.lock.at.MidStore?
    ensures Inv(Inside(s, t, s.lock.at))
  {
    var s' := Inside(s, t, s.lock.at);
    var elem, before := s.lock.at.elem, s.lock.at.link.node;
    var k :| Follows(s.chain, k, before, elem);
    assert Follows(s'.chain, k, before, elem);
    MidStorePairs(s, t, s', k);
    MidStoreFrame(s, t, s', k);
    GlueInside(s, s', t);
  }

  lemma MidStoreFrame(s: State, t: Tid, s': State, k: nat)
    requires Busy(s, t) && s.lock.at.MidStore? && s' == Inside(s, t, s.lock.at) && s.lock.at.link.To?
    requires Follows(s.chain, k, s.lock.at.link.node, s.lock.at.elem)
    ensures Frame(s, s', t) && Places(s') && Owners(s') && Ends(s')
  {
    assert forall n :: n != s.lock.at.link.node ==> s'.Next(n) == s.Next(n);
    assert forall n :: s'.Place(n) == s.Place(n);
    assert s.InChain(s.chain[k]);
  }

  lemma MidStorePairs(s: State, t: Tid, s': State, k: nat)
    requires Busy(s, t) && s.lock.at.MidStore? && s' == Inside(s, t, s.lock.at) && s.lock.at.link.To?
    requires Follows(s.chain, k, s.lock.at.link.node, s.lock.at.elem)
    ensures Pairs(s')
  {
    assert Pair(s, k);
    assert forall n :: n != s.lock.at.link.node ==> s'.Next(n) == s.Next(n);
    assert forall n :: s'.Place(n) == s.Place(n);
    forall j ensures Pair(s', j) { if j != k { PairFrame(s, s', j, j); } }
  }

  lemma MidBackKeeps(s: State, t: Tid)
    requires Busy(s, t) && s.lock.at.MidBack?
    ensures Inv(Inside(s, t, s.lock.at))
  {
    var s' := Inside(s, t, s.lock.at);
    var elem, before, next := s.lock.at.elem, s.lock.at.before, s.lock.at.next;
    var k :| Follows(s.chain, k, before, elem);
    assert Pair(s, k) && Pair(s, k + 1);
    TakeMid(s, t, k + 1, s');
  }

  lemma MidCutLook(s: State, t: Tid, stage: Stage)
    requires Busy(s, t) && s.lock.at.MidCut? && !s.lock.at.stage.FixNext? && !stage.FixNext?
    requires Section(s, t, MidCut(s.lock.at.elem, s.lock.at.before, stage))
    ensures Inv(s.At(t, MidCut(s.lock.at.elem, s.lock.at.before, stage)))
  {
    var s' := s.At(t, MidCut(s.lock.at.elem, s.lock.at.before, stage));
    forall k ensures Pair(s', k) { assert Pair(s, k); }
    GlueInside(s, s', t);
  }

  lemma MidCutKeeps(s: State, t: Tid)
    requires Busy(s, t) && s.lock.at.MidCut?
    ensures Inv(Inside(s, t, s.lock.at))
  {
    var elem, before := s.lock.at.elem, s.lock.at.before;
    match s.lock.at.stage {
      case Cas => if s.tail == To(elem) { MidCutTakes(s, t); } else { MidCutLook(s, t, Spin); }
      case Spin => if s.Next(elem).To? { MidCutLook(s, t, Reload); }
      case Reload => MidReloadKeeps(s, t);
      case FixPrev(_) => FixPrevKeeps(s, t);
      case FixNext(_) => MidCutTakes(s, t);
    }
  }

  lemma MidReloadKeeps(s: State, t: Tid)
    requires Busy(s, t) && s.lock.at.MidCut? && s.lock.at.stage.Reload?
    ensures Inv(Inside(s, t, s.lock.at))
  {
    var elem := s.lock.at.elem;
    var k :| Follows(s.chain, k, s.lock.at.before, elem);
    assert Pair(s, k + 1);
    MidCutLook(s, t, FixPrev(s.Next(elem).node));
  }

  /** The last write of removeInternal after its link to the predecessor was cut. */
  lemma MidCutTakes(s: State, t: Tid)
    requires Busy(s, t) && s.lock.at.MidCut?
    requires s.lock.at.stage.FixNext? || (s.lock.at.stage.Cas? && s.tail == To(s.lock.at.elem))
    ensures Inv(Inside(s, t, s.lock.at))
  {
    var k :| Follows(s.chain, k, s.lock.at.before, s.lock.at.elem);
    assert Pair(s, k) && Pair(s, k + 1);
    TakeMid(s, t, k + 1, Inside(s, t, s.lock.at));
  }

  lemma FixPrevKeeps(s: State, t: Tid)
    requires Busy(s, t) && s.lock.at.MidCut? && s.lock.at.stage.FixPrev?
    ensures Inv(Inside(s, t, s.lock.at))
  {
    var s' := Inside(s, t, s.lock.at);
    var k :| Follows(s.chain, k, s.lock.at.before, s.lock.at.elem);
    var next := s.lock.at.stage.next;
    assert Pair(s, k + 1);
    assert Follows(s'.chain, k, s.lock.at.before, s.lock.at.elem);
    assert forall n :: n != next ==> s'.Prev(n) == s.Prev(n);
    assert forall n :: s'.Place(n) == s.Place(n);
    forall j ensures Pair(s', j) { assert Pair(s, j); }
    GlueInside(s, s', t);
  }

  lemma InsideKeeps(s: State, t: Tid)
    requires Busy(s, t)
    ensures Inv(Inside(s, t, s.lock.at))
  {
    match s.lock.at {
      case PopHead => PopHeadKeeps(s, t);
      case PopCheck(_) => PopCheckKeeps(s, t);
      case RemoveTest(_) => RemoveTestKeeps(s, t);
      case HeadLoad(_) => LoadKeeps(s, t);
      case HeadStore(_, _) => HeadStoreKeeps(s, t);
      case HeadCut(_, _) => HeadCutKeeps(s, t);
      case MidLoad(_) => LoadKeeps(s, t);
      case MidLoadPrev(_, _) => LoadPrevKeeps(s, t);
      case MidStore(_, _, _) => MidStoreKeeps(s, t);
      case MidBack(_, _, _) => MidBackKeeps(s, t);
      case MidCut(_, _, _) => MidCutKeeps(s, t);
      case Unlock(_) => UnlockKeeps(s, t);
    }
  }

  lemma BeginKeeps(s: State, t: Tid, a: Act)
    requires Inv(s) && s.Pc(t).Idle?
    ensures Inv(Begin(s, t, a))
  {
    match a {
      case Push(seg) => if CanPush(s, seg) { BeginPush(s, t, seg); }
      case Pop => BeginPop(s, t);
      case Remove(n) => if s.Place(n).Queued? { BeginRemove(s, t, n); }
      case SetNext(n, p) => if s.Place(n).Free? { BeginSetLink(s, t, n, p, false); }
      case SetPrev(n, p) => if s.Place(n).Free? { BeginSetLink(s, t, n, p, true); }
    }
  }

  /** Every step of every thread keeps the invariant. */
  lemma StepKeeps(s: State, t: Tid, a: Act)
    requires Inv(s)
    ensures Inv(Step(s, t, a))
  {
    match s.Pc(t) {
      case Idle => BeginKeeps(s, t, a);
      case PushSwap(_) => SwapKeeps(s, t, a);
      case PushHead(_) => PushHeadKeeps(s, t, a);
      case PushPrev(_, _) => PushPrevKeeps(s, t, a);
      case PushNext(_, _) => PushNextKeeps(s, t, a);
      case PopLock => LockKeeps(s, t, a);
      case RemoveLock(_) => LockKeeps(s, t, a);
      case Critical => assert Thread(s, t); InsideKeeps(s, t);
      case Clear(_) => ClearKeeps(s, t, a);
    }
  }

  // ------------------------------------------------------------- the theorems

  /** The state after a schedule: which thread steps, and what it begins when idle. */
  ghost function Run(sched: seq<(Tid, Act)>): State {
    if sched == [] then Init()
    else Step(Run(sched[..|sched| - 1]), sched[|sched| - 1].0, sched[|sched| - 1].1)
  }

  /** The invariant holds in every state of every interleaving. */
  lemma {:induction false} EveryRun(sched: seq<(Tid, Act)>)
    ensures Inv(Run(sched))
  {
    if sched == [] {
      InitInv();
    } else {
      EveryRun(sched[..|sched| - 1]);
      StepKeeps(Run(sched[..|sched| - 1]), sched[|sched| - 1].0, sched[|sched| - 1].1);
    }
  }

  /** A sequence with deletion, the object the queue stands for. */
  datatype Event = Quiet | Append(seg: seq<Node>) | TakeHead(n: Node) | TakeAny(n: Node)

  ghost predicate Abstract(q: seq<Node>, e: Event, q': seq<Node>) {
    match e
    case Quiet => q' == q
    case Append(seg) => q' == q + seg
    case TakeHead(n) => q != [] && q[0] == n && q' == q[1..]
    case TakeAny(n) => exists i :: DeletesAt(q, i, n, q')
  }

  predicate DeletesAt(q: seq<Node>, i: int, n: Node, q': seq<Node>) {
    0 <= i < |q| && q[i] == n && q' == q[..i] + q[i + 1..]
  }

  /** The critical section has just taken a node out of all links. */
  predicate Takes(s: State, s': State) {
    s.lock.Held? && s'.lock.Held? && !s.lock.at.Unlock? && s'.lock.at.Unlock? && s'.lock.at.result.To?
  }

  /** What the step of t from s to s' means for that object: a push takes effect at its
      exchange, a pop or removal when the node is out of all links. */
  function EventOf(s: State, t: Tid, s': State): Event {
    if s.Pc(t).PushSwap? then Append(s.Pc(t).seg)
    else if Takes(s, s') then
      if s.lock.at.HeadStore? || s.lock.at.HeadCut? then TakeHead(s'.lock.at.result.node)
      else TakeAny(s'.lock.at.result.node)
    else Quiet
  }

  /** Every step refines a step of a sequence with deletion. */
  lemma Refines(s: State, t: Tid, a: Act)
    requires Inv(s)
    ensures var s' := Step(s, t, a); Abstract(s.chain, EventOf(s, t, s'), s'.chain)
  {
    assert Thread(s, t);
    var s' := Step(s, t, a);
    if s.Pc(t).Critical? {
      InsideChain(s, t, s');
      if Takes(s, s') { TakenIsThere(s, t, s.lock.at.elem); TakeRefines(s, t, s', s.lock.at.elem); }
    } else {
      OutsideChain(s, t, a);
    }
  }

  lemma OutsideChain(s: State, t: Tid, a: Act)
    requires Thread(s, t) && !s.Pc(t).Critical?
    ensures var s' := Step(s, t, a);
      && !Takes(s, s')
      && s'.chain == if s.Pc(t).PushSwap? then s.chain + s.Pc(t).seg else s.chain
  {}

  /** Where the critical section changes the chain, and where it does not. */
  predicate ChainEffect(s: State, t: Tid, s': State)
    requires s.lock.Held?
  {
    var c := s.lock.at;
    if Takes(s, s') then
      && (c.HeadStore? || c.HeadCut? || c.MidBack? || c.MidCut?)
      && s'.lock == Held(t, Unlock(To(c.elem))) && s'.chain == Without(s.chain, c.elem)
    else s'.chain == s.chain
  }

  lemma InsideChain(s: State, t: Tid, s': State)
    requires s.lock.Held? && s' == Inside(s, t, s.lock.at)
    ensures ChainEffect(s, t, s')
  {
    if s.lock.at.MidCut? {
      MidCutChain(s, t, s');
    } else if s.lock.at.HeadCut? {
      HeadCutChain(s, t, s');
    } else {
      OtherChain(s, t, s');
    }
  }

  lemma MidCutChain(s: State, t: Tid, s': State)
    requires s.lock.Held? && s.lock.at.MidCut? && s' == Inside(s, t, s.lock.at)
    ensures ChainEffect(s, t, s')
  {
    if s.lock.at.stage.Cas? || s.lock.at.stage.FixNext? { MidCutEndChain(s, t, s'); } else { MidCutLookChain(s, t, s'); }
  }

  lemma MidCutEndChain(s: State, t: Tid, s': State)
    requires s.lock.Held? && s.lock.at.MidCut? && s' == Inside(s, t, s.lock.at)
    requires s.lock.at.stage.Cas? || s.lock.at.stage.FixNext?
    ensures ChainEffect(s, t, s')
  {}

  lemma MidCutLookChain(s: State, t: Tid, s': State)
    requires s.lock.Held? && s.lock.at.MidCut? && s' == Inside(s, t, s.lock.at)
    requires !s.lock.at.stage.Cas? && !s.lock.at.stage.FixNext?
    ensures !Takes(s, s') && s'.chain == s.chain
  {}

  lemma HeadCutChain(s: State, t: Tid, s': State)
    requires s.lock.Held? && s.lock.at.HeadCut? && s' == Inside(s, t, s.lock.at)
    ensures ChainEffect(s, t, s')
  {
    if s.lock.at.stage.Spin? { HeadSpinChain(s, t, s'); }
  }

  lemma HeadSpinChain(s: State, t: Tid, s': State)
    requires s.lock.Held? && s.lock.at.HeadCut? && s.lock.at.stage.Spin? && s' == Inside(s, t, s.lock.at)
    ensures !Takes(s, s') && s'.chain == s.chain
  {}

  lemma OtherChain(s: State, t: Tid, s': State)
    requires s.lock.Held? && !s.lock.at.HeadCut? && !s.lock.at.MidCut? && s' == Inside(s, t, s.lock.at)
    ensures ChainEffect(s, t, s')
  {
    if !s.lock.at.HeadStore? && !s.lock.at.MidBack? { LookChain(s, t, s'); }
  }

  lemma LookChain(s: State, t: Tid, s': State)
    requires s.lock.Held? && !s.lock.at.HeadCut? && !s.lock.at.MidCut? && s' == Inside(s, t, s.lock.at)
    requires !s.lock.at.HeadStore? && !s.lock.at.MidBack?
    ensures !Takes(s, s') && s'.chain == s.chain
  {}

  /** The node to take is in the chain, and removeHead takes the first one. */
  lemma TakenIsThere(s: State, t: Tid, n: Node)
    requires Places(s) && s.lock.Held? && Section(s, t, s.lock.at)
    requires s.lock.at.HeadStore? || s.lock.at.HeadCut? || s.lock.at.MidBack? || s.lock.at.MidCut?
    requires n == s.lock.at.elem
    ensures n in s.chain && (s.lock.at.HeadStore? || s.lock.at.HeadCut? ==> First(s, n))
  {
    assert s.InChain(n);
  }

  lemma TakeRefines(s: State, t: Tid, s': State, n: Node)
    requires Distinct(s.chain) && s.lock.Held? && !s.Pc(t).PushSwap?
    requires n in s.chain && (s.lock.at.HeadStore? || s.lock.at.HeadCut? ==> First(s, n))
    requires s.lock.at.HeadStore? || s.lock.at.HeadCut? || s.lock.at.MidBack? || s.lock.at.MidCut?
    requires s'.lock == Held(t, Unlock(To(n))) && s'.chain == Without(s.chain, n)
    ensures Abstract(s.chain, EventOf(s, t, s'), s'.chain)
  {
    Deleted(s.chain, n);
  }

  /** Without is a deletion, and of the first node it leaves the rest. */
  lemma Deleted(q: seq<Node>, n: Node)
    requires Distinct(q) && n in q
    ensures exists i :: DeletesAt(q, i, n, Without(q, n))
    ensures q[0] == n ==> Without(q, n) == q[1..]
  {
    var i :| 0 <= i < |q| && q[i] == n;
    WithoutAt(q, i);
    assert Without(q, n) == q[..i] + q[i + 1..];
    assert DeletesAt(q, i, n, Without(q, n));
  }

  function Reverse(q: seq<Node>): seq<Node> {
    if q == [] then [] else Reverse(q[1..]) + [q[0]]
  }

  /** No pusher is between its exchange and its last store, and no one is in the lock. */
  ghost predicate Settles(s: State) {
    s.lock.Open? && forall n: Node :: !s.Place(n).Opening? && !s.Place(n).Trailing?
  }

  /** In a settled state the memory is the sequence: the Next links from head meet exactly
      the chain and then nullptr; the Prev links from tail meet it backwards. */
  lemma MemoryIsChain(s: State, fuel: nat)
    requires Inv(s) && Settles(s) && fuel >= |s.chain|
    ensures Walk(s.next, s.head, fuel) == s.chain
    ensures Walk(s.prev, s.tail, |s.chain|) == Reverse(s.chain)
  {
    WalkForward(s, 0, fuel);
    WalkBackward(s, |s.chain|);
    assert s.chain[..|s.chain|] == s.chain;
  }

  lemma {:induction false} WalkForward(s: State, i: nat, fuel: nat)
    requires Inv(s) && Settles(s) && i <= |s.chain| <= i + fuel
    ensures Walk(s.next, FirstOf(s.chain[i..]), fuel) == s.chain[i..]
    decreases fuel
  {
    if i < |s.chain| {
      assert Pair(s, i);
      WalkForward(s, i + 1, fuel - 1);
      assert s.Next(s.chain[i]) == FirstOf(s.chain[i + 1..]);
    }
  }

  lemma {:induction false} WalkBackward(s: State, i: nat)
    requires Inv(s) && Settles(s) && i <= |s.chain|
    ensures i > 0 ==> Walk(s.prev, To(s.chain[i - 1]), i) == Reverse(s.chain[..i])
  {
    if i > 1 {
      assert Pair(s, i - 2);
      WalkBackward(s, i - 1);
      ReverseLast(s.chain[..i - 1], s.chain[i - 1]);
      assert s.chain[..i] == s.chain[..i - 1] + [s.chain[i - 1]];
    } else if i == 1 {
      assert s.chain[..1] == [s.chain[0]];
      assert Reverse([s.chain[0]]) == Reverse([]) + [s.chain[0]];
    }
  }

  lemma {:induction false} ReverseLast(q: seq<Node>, n: Node)
    ensures Reverse(q + [n]) == [n] + Reverse(q)
  {
    if q == [] {
      assert [] + [n] == [n];
    } else {
      ReverseLast(q[1..], n);
      assert (q + [n])[1..] == q[1..] + [n];
    }
  }

  /** A remover waits for a link only while some pusher is about to store that link. */
  lemma WaitHasPusher(s: State) returns (u: Tid)
    requires Inv(s) && s.lock.Held? && (s.lock.at.HeadCut? || s.lock.at.MidCut?)
    requires s.lock.at.stage.Spin? && s.Next(s.lock.at.elem).Null?
    ensures s.Pc(u).PushPrev? || s.Pc(u).PushNext?
    ensures s.Pc(u).pred == s.lock.at.elem
  {
    var elem := s.lock.at.elem;
    assert s.InChain(elem);
    var i :| 0 <= i < |s.chain| && s.chain[i] == elem;
    assert Pair(s, i);
    u := s.Place(s.chain[i + 1]).t;
    assert Thread(s, u);
  }

  /** No one writes the links of a node that is back with its user: only its user does.
      So a fred may reuse or free its node as soon as pop or remove has returned. */
  lemma NoStrayWrite(s: State, t: Tid, a: Act, n: Node)
    requires Inv(s) && s.Place(n).Free?
    requires s.Pc(t).Idle? ==> !(a.SetNext? && a.n == n) && !(a.SetPrev? && a.n == n)
    ensures Step(s, t, a).Next(n) == s.Next(n) && Step(s, t, a).Prev(n) == s.Prev(n)
  {
    assert Thread(s, t);
    if s.Pc(t).Critical? {
      InsideWrites(s, t, n);
    } else {
      OutsideWrites(s, t, a, n);
    }
  }

  lemma OutsideWrites(s: State, t: Tid, a: Act, n: Node)
    requires Inv(s) && s.Place(n).Free? && !s.Pc(t).Critical?
    requires s.Pc(t).Idle? ==> !(a.SetNext? && a.n == n) && !(a.SetPrev? && a.n == n)
    ensures Step(s, t, a).Next(n) == s.Next(n) && Step(s, t, a).Prev(n) == s.Prev(n)
  {
    assert Thread(s, t);
    if s.Pc(t).PushNext? {
      var k := TrailingPair(s, s.Pc(t).first);
      assert s.InChain(s.chain[k]);
    }
  }

  lemma InsideWrites(s: State, t: Tid, n: Node)
    requires Busy(s, t) && s.Place(n).Free?
    ensures Inside(s, t, s.lock.at).Next(n) == s.Next(n) && Inside(s, t, s.lock.at).Prev(n) == s.Prev(n)
  {
    if s.lock.at.MidBack? {
      MidBackWrites(s, t, n);
    } else if s.lock.at.MidStore? {
      MidWrites(s, n, s.lock.at.link.node);
    } else if s.lock.at.MidCut? {
      CutWrites(s, t, n);
    }
  }

  lemma CutWrites(s: State, t: Tid, n: Node)
    requires Busy(s, t) && s.Place(n).Free? && s.lock.at.MidCut?
    ensures Inside(s, t, s.lock.at).Next(n) == s.Next(n) && Inside(s, t, s.lock.at).Prev(n) == s.Prev(n)
  {
    MidWrites(s, n, s.lock.at.before);
    if s.lock.at.stage.FixPrev? || s.lock.at.stage.FixNext? { assert Attached(s, s.lock.at.stage.next); }
  }

  lemma MidWrites(s: State, n: Node, before: Node)
    requires Places(s) && s.Place(n).Free? && s.lock.Held?
    requires (s.lock.at.MidStore? || s.lock.at.MidCut?) && Adjacent(s, before, s.lock.at.elem)
    ensures n != before
  {
    var k :| Follows(s.chain, k, before, s.lock.at.elem);
    assert s.InChain(s.chain[k]);
  }

  lemma MidBackWrites(s: State, t: Tid, n: Node)
    requires Busy(s, t) && s.Place(n).Free? && s.lock.at.MidBack?
    ensures n != s.lock.at.next
  {
    var k :| Follows(s.chain, k, s.lock.at.before, s.lock.at.elem);
    assert Pair(s, k + 1);
    assert s.Next(s.lock.at.elem) == To(s.chain[k + 2]);
  }

  // --------------------------------------- what pop and remove answer, and progress

  /** The node that the section at c is taking out. */
  function Elem(c: Crit): Ptr {
    match c
    case PopHead => Null
    case PopCheck(_) => Null
    case RemoveTest(elem) => To(elem)
    case HeadLoad(elem) => To(elem)
    case HeadStore(elem, _) => To(elem)
    case HeadCut(elem, _) => To(elem)
    case MidLoad(elem) => To(elem)
    case MidLoadPrev(elem, _) => To(elem)
    case MidStore(elem, _, _) => To(elem)
    case MidBack(elem, _, _) => To(elem)
    case MidCut(elem, _, _) => To(elem)
    case Unlock(_) => Null
  }

  /** A claimed node is waited for by its remover, or being taken out.  A private one is in
      a segment to append, or on its way to the caller. */
  predicate InHand(s: State, n: Node) {
    match s.Place(n)
    case Claimed(u) => s.Pc(u) == RemoveLock(n) || (s.Pc(u).Critical? && InSection(s, u) && Elem(s.lock.at) == To(n))
    case Private(u) => (
      match s.Pc(u)
      case PushSwap(seg) => n in seg
      case Critical => InSection(s, u) && s.lock.at == Unlock(To(n))
      case Clear(elem) => elem == n
      case _ => false)
    case _ => true
  }

  predicate InSection(s: State, u: Tid) { s.lock.Held? && s.lock.t == u }

  lemma OutsideInHand(s: State, t: Tid, a: Act, n: Node)
    requires InHand(s, n) && Thread(s, t) && !s.Pc(t).Critical?
    ensures InHand(Step(s, t, a), n)
  {
    if s.Pc(t).Idle? { BeginInHand(s, t, a, n); } else if s.Pc(t).PushSwap? { SwapInHand(s, t, a, n); }
  }

  lemma BeginInHand(s: State, t: Tid, a: Act, n: Node)
    requires InHand(s, n) && s.Pc(t).Idle?
    ensures InHand(Begin(s, t, a), n)
  {}

  lemma SwapInHand(s: State, t: Tid, a: Act, n: Node)
    requires InHand(s, n) && Thread(s, t) && s.Pc(t).PushSwap?
    ensures InHand(Step(s, t, a), n)
  {
    assert s.Pc(t).seg[0] in s.Pc(t).seg;
  }

  lemma InsideInHand(s: State, t: Tid, n: Node)
    requires InHand(s, n) && s.Pc(t).Critical? && s.lock.Held? && s.lock.t == t
    requires Elem(s.lock.at).To? ==> s.Place(Elem(s.lock.at).node) == Claimed(t)
    ensures InHand(Inside(s, t, s.lock.at), n)
  {
    if s.lock.at.PopCheck? || s.lock.at.Unlock? {
    } else if Elem(s.lock.at) == To(n) {
      TakenInHand(s, t, n);
    } else {
      OtherInHand(s, t, n);
    }
  }

  lemma TakenInHand(s: State, t: Tid, n: Node)
    requires s.Pc(t).Critical? && s.lock.Held? && s.lock.t == t && Elem(s.lock.at) == To(n) && s.Place(n) == Claimed(t)
    ensures InHand(Inside(s, t, s.lock.at), n)
  {}

  lemma OtherInHand(s: State, t: Tid, n: Node)
    requires InHand(s, n) && s.Pc(t).Critical? && s.lock.Held? && s.lock.t == t && Elem(s.lock.at) != To(n)
    requires !s.lock.at.PopCheck? && !s.lock.at.Unlock?
    ensures InHand(Inside(s, t, s.lock.at), n)
  {
    OthersStay(s, t, n);
  }

  lemma OthersStay(s: State, t: Tid, n: Node)
    requires s.lock.Held? && Elem(s.lock.at) != To(n) && !s.lock.at.PopCheck? && !s.lock.at.Unlock?
    ensures var s' := Inside(s, t, s.lock.at);
      s'.Place(n) == s.Place(n) && s'.pc == s.pc && (s'.lock == s.lock || (s'.lock.Held? && s'.lock.t == t))
  {
    if s.lock.at.MidCut? { CutStays(s, t, n); }
  }

  lemma CutStays(s: State, t: Tid, n: Node)
    requires s.lock.Held? && Elem(s.lock.at) != To(n) && s.lock.at.MidCut?
    ensures var s' := Inside(s, t, s.lock.at);
      s'.Place(n) == s.Place(n) && s'.pc == s.pc && (s'.lock == s.lock || (s'.lock.Held? && s'.lock.t == t))
  {}

  lemma SectionElem(s: State, t: Tid)
    requires s.lock.Held? && Section(s, t, s.lock.at)
    ensures Elem(s.lock.at).To? ==> s.Place(Elem(s.lock.at).node) == Claimed(t)
  {}

  lemma {:induction false} InHandAlways(sched: seq<(Tid, Act)>, n: Node)
    ensures InHand(Run(sched), n)
  {
    if sched != [] {
      var s, t, a := Run(sched[..|sched| - 1]), sched[|sched| - 1].0, sched[|sched| - 1].1;
      EveryRun(sched[..|sched| - 1]);
      InHandAlways(sched[..|sched| - 1], n);
      assert Thread(s, t);
      if s.Pc(t).Critical? {
        SectionElem(s, t);
        InsideInHand(s, t, n);
      } else {
        OutsideInHand(s, t, a, n);
      }
    }
  }

  /** pop answers nullptr exactly if it meets an empty queue, a first node whose pusher is
      about to store head, or a first node that another thread has claimed and waits for the
      lock to remove.  No removal ends with nothing. */
  lemma {:induction false} EmptyPop(sched: seq<(Tid, Act)>, t: Tid, a: Act)
    requires var s := Run(sched); s.Pc(t).Critical? && s.lock.Held? && s.lock.t == t && !s.lock.at.Unlock?
    ensures var s, s' := Run(sched), Step(Run(sched), t, a);
      s'.lock == Held(t, Unlock(Null)) <==>
        || (s.lock.at.PopHead? && (s.chain == [] || Opens(s, s.chain[0])))
        || (s.lock.at.PopCheck? && s.chain != [] && exists u :: u != t && s.Pc(u) == RemoveLock(s.chain[0]))
  {
    EveryRun(sched);
    var s := Run(sched);
    assert Thread(s, t);
    if s.lock.at.PopCheck? {
      ChecksFirst(sched, s, t);
    } else if !s.lock.at.PopHead? {
      NoEmptyRemove(s, t);
    }
  }

  predicate Opens(s: State, n: Node) { s.Place(n).Opening? && s.Pc(s.Place(n).t) == PushHead(n) }

  lemma NoEmptyRemove(s: State, t: Tid)
    requires s.lock.Held? && !s.lock.at.PopHead? && !s.lock.at.PopCheck? && !s.lock.at.Unlock?
    ensures Inside(s, t, s.lock.at).lock != Held(t, Unlock(Null))
  {
    if s.lock.at.MidCut? { NoEmptyCut(s, t); }
  }

  lemma NoEmptyCut(s: State, t: Tid)
    requires s.lock.Held? && s.lock.at.MidCut?
    ensures Inside(s, t, s.lock.at).lock != Held(t, Unlock(Null))
  {}

  lemma {:induction false} ChecksFirst(sched: seq<(Tid, Act)>, s: State, t: Tid)
    requires s == Run(sched) && Busy(s, t) && s.lock.at.PopCheck?
    ensures s.chain != [] && s.lock.at.elem == s.chain[0]
    ensures !s.Place(s.chain[0]).Queued? <==> exists u :: u != t && s.Pc(u) == RemoveLock(s.chain[0])
  {
    var n := s.chain[0];
    assert Thread(s, t) && s.InChain(n);
    InHandAlways(sched, n);
    if s.Place(n).Claimed? { assert s.Pc(s.Place(n).t) == RemoveLock(n) && s.Place(n).t != t; }
    forall u | s.Pc(u) == RemoveLock(n) ensures s.Place(n) == Claimed(u) { assert Thread(s, u); }
  }

  /** What is taken out is the node that was claimed for it, and it is returned. */
  lemma {:induction false} TakesClaimed(sched: seq<(Tid, Act)>, t: Tid, a: Act)
    requires var s := Run(sched); s.Pc(t).Critical? && s.lock.Held? && s.lock.t == t && Elem(s.lock.at).To?
    ensures var s, s' := Run(sched), Step(Run(sched), t, a); var n := Elem(s.lock.at).node;
      && s.Place(n) == Claimed(t)
      && (Elem(s'.lock.at) == To(n) || (s'.lock.at == Unlock(To(n)) && n !in s'.chain))
  {
    EveryRun(sched);
    var s := Run(sched);
    assert Thread(s, t);
    SectionElem(s, t);
    KeepsElem(s, t);
    var n := Elem(s.lock.at).node;
    assert s.InChain(n);
    var i :| 0 <= i < |s.chain| && s.chain[i] == n;
    WithoutKeeps(s.chain, i);
  }

  lemma KeepsElem(s: State, t: Tid)
    requires s.lock.Held? && s.lock.t == t && Elem(s.lock.at).To?
    ensures var s', n := Inside(s, t, s.lock.at), Elem(s.lock.at).node;
      s'.lock.Held? && (Elem(s'.lock.at) == To(n) || (s'.lock.at == Unlock(To(n)) && s'.chain == Without(s.chain, n)))
  {
    if s.lock.at.MidCut? { CutKeepsElem(s, t); } else if s.lock.at.HeadCut? { HeadKeepsElem(s, t); } else { LoadKeepsElem(s, t); }
  }

  lemma HeadKeepsElem(s: State, t: Tid)
    requires s.lock.Held? && s.lock.t == t && s.lock.at.HeadCut?
    ensures var s', n := Inside(s, t, s.lock.at), s.lock.at.elem;
      s'.lock.Held? && (Elem(s'.lock.at) == To(n) || (s'.lock.at == Unlock(To(n)) && s'.chain == Without(s.chain, n)))
  {}

  lemma LoadKeepsElem(s: State, t: Tid)
    requires s.lock.Held? && s.lock.t == t && Elem(s.lock.at).To? && !s.lock.at.MidCut? && !s.lock.at.HeadCut?
    ensures var s', n := Inside(s, t, s.lock.at), Elem(s.lock.at).node;
      s'.lock.Held? && (Elem(s'.lock.at) == To(n) || (s'.lock.at == Unlock(To(n)) && s'.chain == Without(s.chain, n)))
  {
    if s.lock.at.HeadStore? { StoreKeepsElem(s, t); } else if s.lock.at.MidStore? { MidKeepsElem(s, t); } else { LookKeepsElem(s, t); }
  }

  lemma StoreKeepsElem(s: State, t: Tid)
    requires s.lock.Held? && s.lock.t == t && s.lock.at.HeadStore?
    ensures var s', n := Inside(s, t, s.lock.at), s.lock.at.elem;
      s'.lock == Held(t, HeadCut(n, Cas)) || (s'.lock == Held(t, Unlock(To(n))) && s'.chain == Without(s.chain, n))
  {}

  lemma MidKeepsElem(s: State, t: Tid)
    requires s.lock.Held? && s.lock.t == t && s.lock.at.MidStore?
    ensures var s', n := Inside(s, t, s.lock.at), s.lock.at.elem; s'.lock.Held? && Elem(s'.lock.at) == To(n)
  {}

  lemma LookKeepsElem(s: State, t: Tid)
    requires s.lock.Held? && s.lock.t == t && Elem(s.lock.at).To? && !s.lock.at.MidCut? && !s.lock.at.HeadCut?
    requires !s.lock.at.HeadStore? && !s.lock.at.MidStore?
    ensures var s', n := Inside(s, t, s.lock.at), Elem(s.lock.at).node;
      s'.lock.Held? && (Elem(s'.lock.at) == To(n) || (s'.lock.at == Unlock(To(n)) && s'.chain == Without(s.chain, n)))
  {}

  lemma CutKeepsElem(s: State, t: Tid)
    requires s.lock.Held? && s.lock.t == t && s.lock.at.MidCut?
    ensures var s', n := Inside(s, t, s.lock.at), s.lock.at.elem;
      s'.lock.Held? && (Elem(s'.lock.at) == To(n) || (s'.lock.at == Unlock(To(n)) && s'.chain == Without(s.chain, n)))
  {
    if s.lock.at.stage.Cas? || s.lock.at.stage.FixNext? { LastCut(s, t); } else { EarlyCut(s, t); }
  }

  lemma EarlyCut(s: State, t: Tid)
    requires s.lock.Held? && s.lock.t == t && s.lock.at.MidCut? && !s.lock.at.stage.Cas? && !s.lock.at.stage.FixNext?
    ensures var s' := Inside(s, t, s.lock.at); s'.lock.Held? && s'.lock.at.MidCut? && s'.lock.at.elem == s.lock.at.elem
  {}

  lemma LastCut(s: State, t: Tid)
    requires s.lock.Held? && s.lock.t == t && s.lock.at.MidCut? && (s.lock.at.stage.Cas? || s.lock.at.stage.FixNext?)
    ensures var s', n := Inside(s, t, s.lock.at), s.lock.at.elem;
      s'.lock == Held(t, MidCut(n, s.lock.at.before, Spin)) || (s'.lock == Held(t, Unlock(To(n))) && s'.chain == Without(s.chain, n))
  {}

  /** push reports an empty queue exactly if it was empty at its exchange. */
  lemma {:induction false} PushReportsEmpty(sched: seq<(Tid, Act)>, t: Tid, a: Act)
    requires Run(sched).Pc(t).PushSwap?
    ensures var s, s' := Run(sched), Step(Run(sched), t, a); s'.Pc(t).PushHead? <==> s.chain == []
  {
    EveryRun(sched);
    SwapEffects(Run(sched), t, a);
  }

  predicate Advances(s: State, s': State, u: Tid) { s'.Pc(u) != s.Pc(u) || s'.lock != s.lock }

  lemma SectionMoves(s: State, t: Tid) returns (u: Tid)
    requires Busy(s, t)
    ensures !s.Pc(u).Idle? && Advances(s, Step(s, u, Pop), u)
  {
    u := t;
    var c := s.lock.at;
    if (c.HeadCut? || c.MidCut?) && c.stage.Spin? && s.Next(c.elem).Null? { u := WaitHasPusher(s); }
    else { assert Inside(s, t, c).lock != s.lock; }
  }

  /** No deadlock: while a call is under way, some thread's next step takes its call
      further. */
  lemma {:induction false} NoDeadlock(sched: seq<(Tid, Act)>, t: Tid) returns (u: Tid)
    requires !Run(sched).Pc(t).Idle?
    ensures !Run(sched).Pc(u).Idle? && Advances(Run(sched), Step(Run(sched), u, Pop), u)
  {
    EveryRun(sched);
    var s := Run(sched);
    assert Thread(s, t);
    if s.lock.Held? { u := SectionMoves(s, s.lock.t); } else { u := t; }
  }

  // ------------------------------------------------- calls that run undisturbed

  /** n steps of t while nobody else moves; an idle t begins a. */
  ghost function Alone(s: State, t: Tid, a: Act, n: nat): State
    decreases n
  {
    if n == 0 then s else Step(Alone(s, t, a, n - 1), t, a)
  }

  /** A push appends its segment and returns. */
  lemma PushesAlone(s: State, t: Tid, seg: seq<Node>)
    requires s.Pc(t).Idle? && CanPush(s, seg)
    ensures var s' := Alone(s, t, Push(seg), if s.tail.Null? then 3 else 4);
      s'.Pc(t).Idle? && s'.chain == s.chain + seg && s'.tail == LastOf(seg) && s'.lock == s.lock
  {
    if s.tail.Null? { PushesFirst(s, t, seg); } else { PushesLater(s, t, seg); }
  }

  lemma PushesFirst(s: State, t: Tid, seg: seq<Node>)
    requires s.Pc(t).Idle? && CanPush(s, seg) && s.tail.Null?
    ensures var s' := Alone(s, t, Push(seg), 3);
      s'.Pc(t).Idle? && s'.chain == s.chain + seg && s'.tail == LastOf(seg) && s'.lock == s.lock
  {
    assert Alone(s, t, Push(seg), 1).Pc(t) == PushSwap(seg);
    assert Alone(s, t, Push(seg), 2).Pc(t) == PushHead(seg[0]);
  }

  lemma PushesLater(s: State, t: Tid, seg: seq<Node>)
    requires s.Pc(t).Idle? && CanPush(s, seg) && s.tail.To?
    ensures var s' := Alone(s, t, Push(seg), 4);
      s'.Pc(t).Idle? && s'.chain == s.chain + seg && s'.tail == LastOf(seg) && s'.lock == s.lock
  {
    assert Alone(s, t, Push(seg), 1).Pc(t) == PushSwap(seg);
    assert Alone(s, t, Push(seg), 2).Pc(t) == PushPrev(seg[0], s.tail.node);
    assert Alone(s, t, Push(seg), 3).Pc(t) == PushNext(seg[0], s.tail.node);
  }

  /** A pop claims the first node, ... */
  lemma PopsAlone(s: State, t: Tid)
    requires s.Pc(t).Idle? && s.lock.Open? && (s.head.To? ==> s.Place(s.head.node).Queued?)
    ensures s.head.To? ==> var s' := Alone(s, t, Pop, 4);
      s'.Pc(t).Critical? && s'.lock == Held(t, HeadLoad(s.head.node)) && s'.chain == s.chain && s'.Place(s.head.node) == Claimed(t)
    ensures s.head.Null? ==> var s' := Alone(s, t, Pop, 4); s'.Pc(t).Idle? && s'.lock.Open? && s'.chain == s.chain
  {
    assert Alone(s, t, Pop, 1).Pc(t) == PopLock;
    assert Alone(s, t, Pop, 2).lock == Held(t, PopHead);
    assert Alone(s, t, Pop, 3).lock == Held(t, if s.head.To? then PopCheck(s.head.node) else Unlock(Null));
  }

  /** ... and a removal claims its node, ... */
  lemma RemovesAlone(s: State, t: Tid, n: Node)
    requires s.Pc(t).Idle? && s.lock.Open? && s.Place(n).Queued?
    ensures var s' := Alone(s, t, Remove(n), 3);
      && s'.Pc(t).Critical? && s'.chain == s.chain && s'.Place(n) == Claimed(t)
      && s'.lock == Held(t, if s.head == To(n) then HeadLoad(n) else MidLoad(n))
  {
    assert Alone(s, t, Remove(n), 1).Pc(t) == RemoveLock(n);
    assert Alone(s, t, Remove(n), 2).lock == Held(t, RemoveTest(n));
  }

  /** ... the first node is taken out in two or three steps, ... */
  lemma TakesHeadAlone(s: State, t: Tid, n: Node)
    requires s.Pc(t).Critical? && s.lock == Held(t, HeadLoad(n)) && (s.Next(n).Null? ==> s.tail == To(n))
    ensures var s' := Alone(s, t, Pop, if s.Next(n).To? then 2 else 3);
      s'.lock == Held(t, Unlock(To(n))) && s'.chain == Without(s.chain, n) && s'.head == s.Next(n) && s'.Pc(t).Critical? &&
      s'.tail == if s.Next(n).To? then s.tail else Null
  {
    assert Alone(s, t, Pop, 1).lock == Held(t, HeadStore(n, s.Next(n)));
    assert s.Next(n).Null? ==> Alone(s, t, Pop, 2).lock == Held(t, HeadCut(n, Cas));
  }

  /** ... a later one in four, ... */
  lemma TakesMidAlone(s: State, t: Tid, n: Node)
    requires s.Pc(t).Critical? && s.lock == Held(t, MidLoad(n)) && s.Prev(n).To? && (s.Next(n).Null? ==> s.tail == To(n))
    requires s.Prev(n).node != n
    ensures var s' := Alone(s, t, Pop, 4);
      && s'.lock == Held(t, Unlock(To(n))) && s'.chain == Without(s.chain, n) && s'.Pc(t).Critical? && s'.head == s.head
      && s'.Next(s.Prev(n).node) == s.Next(n) && s'.tail == (if s.Next(n).To? then s.tail else s.Prev(n))
      && (s.Next(n).To? ==> s'.Prev(s.Next(n).node) == s.Prev(n))
  {
    assert Alone(s, t, Pop, 1).lock == Held(t, MidLoadPrev(n, s.Next(n)));
    assert Alone(s, t, Pop, 2).lock == Held(t, MidStore(n, s.Next(n), s.Prev(n)));
    assert Alone(s, t, Pop, 3).lock == Held(t,
      if s.Next(n).To? then MidBack(n, s.Prev(n).node, s.Next(n).node) else MidCut(n, s.Prev(n).node, Cas));
  }

  /** ... and then it is the caller's, with its link cleared. */
  lemma GivesBackAlone(s: State, t: Tid, n: Node)
    requires s.Pc(t).Critical? && s.lock == Held(t, Unlock(To(n)))
    ensures var s' := Alone(s, t, Pop, 2);
      s'.Pc(t).Idle? && s'.lock.Open? && s'.Place(n).Free? && s'.Next(n) == Null && s'.chain == s.chain
  {
    assert Alone(s, t, Pop, 1).Pc(t) == Clear(n);
  }
}
