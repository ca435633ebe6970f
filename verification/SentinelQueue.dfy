/** The intrusive singly linked Queue and Stack.  A link that ends the structure is the
    sentinel, a link of a node that is in no structure is null. */
module SentinelQueue {
  import Memory

  datatype Link = Null | Sentinel | At(node: Node)

  class Node {
    var next: Link

    constructor ()
      ensures next == Null
    {
      next := Null;
    }
  }

  ghost predicate Apart(s: seq<Node>, r: seq<Node>) {
    forall i, j :: 0 <= i < |s| && 0 <= j < |r| ==> s[i] != r[j]
  }

  function FirstOf(s: seq<Node>): Link { if s == [] then Sentinel else At(s[0]) }

  function LastOf(s: seq<Node>): Link { if s == [] then Sentinel else At(s[|s| - 1]) }

  /** The nodes of s are linked one to the next, and the last to end. */
  ghost predicate Chain(s: seq<Node>, end: Link)
    reads s
  {
    && Memory.Distinct(s)
    && (forall i :: 0 <= i < |s| - 1 ==> s[i].next == At(s[i + 1]))
    && (s != [] ==> s[|s| - 1].next == end)
  }

  lemma NextAt(s: seq<Node>, end: Link, i: nat)
    requires Chain(s, end) && i < |s|
    ensures s[i].next == if i + 1 < |s| then At(s[i + 1]) else end
  {}

  /** A chain cut after its first n nodes. */
  lemma Cut(s: seq<Node>, end: Link, n: nat)
    requires Chain(s, end) && 1 <= n <= |s|
    ensures Chain(s[..n], if n < |s| then At(s[n]) else end) && Chain(s[n..], end) && Apart(s[..n], s[n..])
  {
    NextAt(s, end, n - 1);
  }

  /** The ends of what is left of a chain without its first n nodes. */
  lemma RestEnds(s: seq<Node>, n: nat)
    requires Memory.Distinct(s) && 1 <= n <= |s|
    ensures n < |s| ==> FirstOf(s[n..]) == At(s[n]) && LastOf(s[n..]) == LastOf(s) != At(s[n - 1])
    ensures n == |s| ==> s[n..] == [] && LastOf(s) == At(s[n - 1])
  {}

  /** min(count, there), but 1 for a count of 0. */
  function Taken(count: nat, there: nat): (n: nat)
    ensures there > 0 ==> 1 <= n <= there
  {
    if count == 0 then 1 else if count <= there then count else there
  }

  class Queue {
    var head: Link
    var tail: Link
    ghost var nodes: seq<Node>

    ghost predicate Valid()
      reads this, nodes
    {
      Chain(nodes, Sentinel) && head == FirstOf(nodes) && tail == LastOf(nodes)
    }

    constructor ()
      ensures Valid() && nodes == []
    {
      head, tail := Sentinel, Sentinel;
      nodes := [];
    }

    method Empty() returns (r: bool)
      requires Valid()
      ensures r <==> nodes == []
    {
      r := head == Sentinel;
    }

    method Push(first: Node, last: Node, ghost seg: seq<Node>)
      requires Valid() && Chain(seg, Null) && Apart(nodes, seg)
      requires seg != [] && seg[0] == first && seg[|seg| - 1] == last
      modifies this, nodes, seg
      ensures Valid() && nodes == old(nodes) + seg
    {
      last.next := Sentinel;
      if head == Sentinel { head := At(first); } else { tail.node.next := At(first); }
      tail := At(last);
      nodes := nodes + seg;
    }

    method Pop() returns (r: Link)
      requires Valid()
      modifies this, nodes
      ensures Valid()
      ensures if old(nodes) == [] then r == Null && nodes == []
              else r == At(old(nodes)[0]) && nodes == old(nodes)[1..] && old(nodes)[0].next == Null
    {
      if head == Sentinel { return Null; }
      var elem := head.node;
      r := head;
      head := elem.next;
      if tail == r { tail := Sentinel; }
      elem.next := Null;
      nodes := nodes[1..];
    }

    /** pop(count): the last node of those removed, which stay linked to each other. */
    method PopCount(count: nat) returns (r: Link, reported: nat)
      requires Valid()
      modifies this, nodes
      ensures Valid()
      ensures if old(nodes) == [] then r == Null && nodes == [] && reported == count
              else var n := Taken(count, |old(nodes)|);
                && nodes == old(nodes)[n..] && Chain(old(nodes)[..n], Null) && r == At(old(nodes)[n - 1])
                && reported == (if count == 0 then 0 else n)
    {
      reported := count;
      if head == Sentinel { return Null, count; }
      var elem := head.node;
      ghost var got: nat := 1;
      var i := 1;
      while i < reported
        invariant 1 <= got <= |nodes| && elem == nodes[got - 1]
        invariant || (reported == count && i == got && got <= (if count == 0 then 1 else count))
                  || (reported == got && i == got + 1 && got == |nodes| && got < count)
        modifies {}
        decreases count + 1 - i
      {
        NextAt(nodes, Sentinel, got - 1);
        if elem.next == Sentinel {
          reported := i;
        } else {
          elem := elem.next.node;
          got := got + 1;
        }
        i := i + 1;
      }
      NextAt(nodes, Sentinel, got - 1);
      Cut(nodes, Sentinel, got);
      ghost var front, rest := nodes[..got], nodes[got..];
      RestEnds(nodes, got);
      assert front[got - 1] == elem;
      head := elem.next;
      if tail == At(elem) { tail := Sentinel; }
      elem.next := Null;
      r := At(elem);
      nodes := rest;
      assert Chain(front, Null) && Chain(rest, Sentinel);
    }
  }

  class Stack {
    var head: Link
    ghost var nodes: seq<Node>

    ghost predicate Valid()
      reads this, nodes
    {
      Chain(nodes, Sentinel) && head == FirstOf(nodes)
    }

    constructor ()
      ensures Valid() && nodes == []
    {
      head := Sentinel;
      nodes := [];
    }

    method Push(first: Node, last: Node, ghost seg: seq<Node>)
      requires Valid() && Chain(seg, Null) && Apart(nodes, seg)
      requires seg != [] && seg[0] == first && seg[|seg| - 1] == last
      modifies this, nodes, seg
      ensures Valid() && nodes == seg + old(nodes)
    {
      last.next := head;
      head := At(first);
      nodes := seg + nodes;
    }

    method Pop() returns (r: Link)
      requires Valid()
      modifies this, nodes
      ensures Valid()
      ensures if old(nodes) == [] then r == Null && nodes == []
              else r == At(old(nodes)[0]) && nodes == old(nodes)[1..] && old(nodes)[0].next == Null
    {
      if head == Sentinel { return Null; }
      var last := head.node;
      r := head;
      head := last.next;
      last.next := Null;
      nodes := nodes[1..];
    }

    /** pop(count): it looks for a null link where the stack ends in the sentinel, so it is
        right exactly when there are count nodes; `wild` says that the code would go on to
        follow the sentinel, and nothing has been changed up to there. */
    method PopCount(count: nat) returns (r: Link, wild: bool)
      requires Valid()
      modifies this, nodes
      ensures Valid()
      ensures wild <==> old(nodes) != [] && count > |old(nodes)|
      ensures wild ==> nodes == old(nodes)
      ensures !wild ==>
        if old(nodes) == [] then r == Null && nodes == []
        else var n := Taken(count, |old(nodes)|);
          nodes == old(nodes)[n..] && Chain(old(nodes)[..n], Null) && r == At(old(nodes)[n - 1])
    {
      if head == Sentinel { return Null, false; }
      var last := head;
      var i := 1;
      while i < count
        invariant 1 <= i && (i <= count || i == 1)
        invariant i <= |nodes| && last == At(nodes[i - 1])
        modifies {}
      {
        NextAt(nodes, Sentinel, i - 1);
        if last.node.next == Null {
          break;
        } else {
          last := last.node.next;
        }
        if last == Sentinel { return last, true; }
        i := i + 1;
      }
      NextAt(nodes, Sentinel, i - 1);
      Cut(nodes, Sentinel, i);
      ghost var front, rest := nodes[..i], nodes[i..];
      assert front[i - 1] == last.node;
      head := last.node.next;
      last.node.next := Null;
      nodes := rest;
      assert Chain(front, Null) && Chain(rest, Sentinel);
      return last, false;
    }
  }
}
