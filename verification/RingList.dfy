/** Intrusive rings and lists: the links of the nodes are rewritten in place, and the ring
    as a sequence of nodes says what that means. */
module RingList {
  import Memory

  class Node {
    var next: Node?
    var prev: Node?

    constructor ()
      ensures next == null && prev == null
    {
      next, prev := null, null;
    }
  }

  ghost predicate Apart(s: seq<Node>, r: seq<Node>) {
    forall i, j :: 0 <= i < |s| && 0 <= j < |r| ==> s[i] != r[j]
  }

  ghost predicate Linked(a: Node, b: Node)
    reads a, b
  {
    a.next == b && b.prev == a
  }

  /** The nodes of s are linked both ways, one to the next. */
  ghost predicate Chain(s: seq<Node>)
    reads s
  {
    s != [] && Memory.Distinct(s) && forall i :: 0 <= i < |s| - 1 ==> Linked(s[i], s[i + 1])
  }

  /** ... and the last one to the first. */
  ghost predicate Ring(s: seq<Node>)
    reads s
  {
    Chain(s) && Linked(s[|s| - 1], s[0])
  }

  /** A chain that is in no ring: its outer links are null. */
  ghost predicate Segment(s: seq<Node>)
    reads s
  {
    Chain(s) && s[0].prev == null && s[|s| - 1].next == null
  }

  /** A ring has no first node: it may be read from any node on. */
  lemma Rotate(r: seq<Node>, k: nat)
    requires Ring(r) && k < |r|
    ensures Ring(r[k..] + r[..k]) && (r[k..] + r[..k])[0] == r[k]
  {
    var q := r[k..] + r[..k];
    var n := |r|;
    forall i, j | 0 <= i < j < n ensures q[i] != q[j] {
      assert q[i] == r[if i < n - k then i + k else i - (n - k)];
      assert q[j] == r[if j < n - k then j + k else j - (n - k)];
    }
    forall i | 0 <= i < n - 1 ensures Linked(q[i], q[i + 1]) {
      var a := if i < n - k then i + k else i - (n - k);
      assert q[i] == r[a] && q[i + 1] == r[if a + 1 < n then a + 1 else 0];
    }
    assert q[n - 1] == r[if k > 0 then k - 1 else n - 1];
  }

  // ------------------------------------------------------------- the splices

  /** combine_before: splice seg in before next, the ring being read from next on. */
  method CombineBefore(next: Node, first: Node, last: Node, ghost r: seq<Node>, ghost seg: seq<Node>)
    requires Ring(r) && r[0] == next && Chain(seg) && Apart(r, seg) && seg[0] == first && seg[|seg| - 1] == last
    modifies r, seg
    ensures Ring(r + seg)
  {
    ghost var n := |r|;
    assert next.prev == r[n - 1];
    last.next := next;
    next.prev.next := first;
    first.prev := next.prev;
    next.prev := last;
    Joined(r, seg);
  }

  /** combine_after: splice seg in after prev, the ring being read up to prev. */
  method CombineAfter(prev: Node, first: Node, last: Node, ghost r: seq<Node>, ghost seg: seq<Node>)
    requires Ring(r) && r[|r| - 1] == prev && Chain(seg) && Apart(r, seg) && seg[0] == first && seg[|seg| - 1] == last
    modifies r, seg
    ensures Ring(r + seg)
  {
    assert prev.next == r[0];
    first.prev := prev;
    prev.next.prev := last;
    last.next := prev.next;
    prev.next := first;
    Joined(r, seg);
  }

  /** Two chains, linked at both joints, are a ring. */
  lemma Joined(r: seq<Node>, seg: seq<Node>)
    requires Chain(r) && Chain(seg) && Apart(r, seg)
    requires Linked(r[|r| - 1], seg[0]) && Linked(seg[|seg| - 1], r[0])
    ensures Ring(r + seg)
  {
    var q := r + seg;
    forall i | 0 <= i < |q| - 1 ensures Linked(q[i], q[i + 1]) {
      if i < |r| - 1 { assert q[i] == r[i] && q[i + 1] == r[i + 1]; }
      else if i == |r| - 1 { assert q[i] == r[i] && q[i + 1] == seg[0]; }
      else { assert q[i] == seg[i - |r|] && q[i + 1] == seg[i - |r| + 1]; }
    }
  }

  /** take_out: the nodes from first to last leave the ring, their own links unchanged. */
  method TakeOut(first: Node, last: Node, ghost r: seq<Node>, ghost seg: seq<Node>)
    requires r != [] && seg != [] && Ring(r + seg) && seg[0] == first && seg[|seg| - 1] == last
    modifies r
    ensures Ring(r) && Chain(seg)
  {
    Parts(r, seg);
    first.prev.next := last.next;
    last.next.prev := first.prev;
  }

  lemma Parts(r: seq<Node>, seg: seq<Node>)
    requires r != [] && seg != [] && Ring(r + seg)
    ensures Chain(r) && Chain(seg) && Apart(r, seg)
    ensures Linked(r[|r| - 1], seg[0]) && Linked(seg[|seg| - 1], r[0])
  {
    var q := r + seg;
    assert forall i :: 0 <= i < |r| ==> q[i] == r[i];
    assert forall i :: 0 <= i < |seg| ==> q[|r| + i] == seg[i];
    forall i | 0 <= i < |r| - 1 ensures Linked(r[i], r[i + 1]) { assert Linked(q[i], q[i + 1]); }
    forall i | 0 <= i < |seg| - 1 ensures Linked(seg[i], seg[i + 1]) { assert Linked(q[|r| + i], q[|r| + i + 1]); }
    assert Linked(q[|r| - 1], q[|r|]);
  }

  // ------------------------------------------------------ the ring's methods

  method InsertBefore(next: Node, first: Node, last: Node, ghost r: seq<Node>, ghost seg: seq<Node>)
    requires Ring(r) && r[0] == next && Segment(seg) && Apart(r, seg) && seg[0] == first && seg[|seg| - 1] == last
    modifies r, seg
    ensures Ring(r + seg)
  {
    CombineBefore(next, first, last, r, seg);
  }

  method InsertAfter(prev: Node, first: Node, last: Node, ghost r: seq<Node>, ghost seg: seq<Node>)
    requires Ring(r) && r[|r| - 1] == prev && Segment(seg) && Apart(r, seg) && seg[0] == first && seg[|seg| - 1] == last
    modifies r, seg
    ensures Ring(r + seg)
  {
    CombineAfter(prev, first, last, r, seg);
  }

  /** remove: what is left is a ring, and the outer links of what is removed are null. */
  method Remove(first: Node, last: Node, ghost r: seq<Node>, ghost seg: seq<Node>) returns (end: Node)
    requires r != [] && seg != [] && Ring(r + seg) && seg[0] == first && seg[|seg| - 1] == last
    modifies r, seg
    ensures Ring(r) && Segment(seg) && end == last
  {
    Parts(r, seg);
    TakeOut(first, last, r, seg);
    first.prev := null;
    last.next := null;
    return last;
  }

  method Close(first: Node, last: Node, ghost seg: seq<Node>)
    requires Chain(seg) && seg[0] == first && seg[|seg| - 1] == last
    modifies seg
    ensures Ring(seg)
  {
    first.prev := last;
    last.next := first;
  }

  /** join_before: two rings become one. */
  method JoinBefore(next: Node, first: Node, last: Node, ghost r: seq<Node>, ghost seg: seq<Node>)
    requires Ring(r) && r[0] == next && Ring(seg) && Apart(r, seg) && seg[0] == first && seg[|seg| - 1] == last
    modifies r, seg
    ensures Ring(r + seg)
  {
    CombineBefore(next, first, last, r, seg);
  }

  method JoinAfter(prev: Node, first: Node, last: Node, ghost r: seq<Node>, ghost seg: seq<Node>)
    requires Ring(r) && r[|r| - 1] == prev && Ring(seg) && Apart(r, seg) && seg[0] == first && seg[|seg| - 1] == last
    modifies r, seg
    ensures Ring(r + seg)
  {
    CombineAfter(prev, first, last, r, seg);
  }

  /** split: one ring becomes two, which undoes join. */
  method Split(first: Node, last: Node, ghost r: seq<Node>, ghost seg: seq<Node>) returns (end: Node)
    requires r != [] && seg != [] && Ring(r + seg) && seg[0] == first && seg[|seg| - 1] == last
    modifies r, seg
    ensures Ring(r) && Ring(seg) && end == last
  {
    Parts(r, seg);
    TakeOut(first, last, r, seg);
    Close(first, last, seg);
    return last;
  }

  // ---------------------------------------------------------------- the list

  /** The ring of a list, read up to the end of nodes[i..j]. */
  lemma Around(anchor: Node, nodes: seq<Node>, i: nat, j: nat)
    requires Ring([anchor] + nodes) && i <= j <= |nodes|
    ensures Ring((nodes[j..] + [anchor] + nodes[..i]) + nodes[i..j])
  {
    var full := [anchor] + nodes;
    if j < |nodes| {
      Rotate(full, j + 1);
      assert full[j + 1..] + full[..j + 1] == (nodes[j..] + [anchor] + nodes[..i]) + nodes[i..j];
    } else {
      assert full == (nodes[j..] + [anchor] + nodes[..i]) + nodes[i..j];
    }
  }

  /** ... and back from the anchor on. */
  lemma Home(anchor: Node, a: seq<Node>, b: seq<Node>)
    requires Ring(b + [anchor] + a)
    ensures Ring([anchor] + (a + b))
  {
    var r := b + [anchor] + a;
    Rotate(r, |b|);
    assert r[|b|..] + r[..|b|] == [anchor] + (a + b);
  }

  lemma StillApart(full: seq<Node>, r: seq<Node>, seg: seq<Node>)
    requires Apart(full, seg) && forall x <- r :: x in full
    ensures Apart(r, seg)
  {
    forall i, j | 0 <= i < |r| && 0 <= j < |seg| ensures r[i] != seg[j] {
      assert r[i] in full;
      var k :| 0 <= k < |full| && full[k] == r[i];
    }
  }

  class List {
    const anchor: Node
    ghost var nodes: seq<Node>

    ghost predicate Valid()
      reads this, anchor, nodes
    {
      Ring([anchor] + nodes)
    }

    constructor ()
      ensures Valid() && nodes == [] && fresh(anchor)
    {
      anchor := new Node();
      nodes := [];
      new;
      anchor.next := anchor;
      anchor.prev := anchor;
    }

    method Front() returns (n: Node)
      requires Valid()
      ensures n == if nodes == [] then anchor else nodes[0]
    {
      ghost var full := [anchor] + nodes;
      assert nodes != [] ==> Linked(full[0], full[1]);
      return anchor.next;
    }

    method Back() returns (n: Node)
      requires Valid()
      ensures n == if nodes == [] then anchor else nodes[|nodes| - 1]
    {
      return anchor.prev;
    }

    method Empty() returns (r: bool)
      requires Valid()
      ensures r <==> nodes == []
    {
      var f := Front();
      r := f == anchor;
      assert nodes != [] ==> ([anchor] + nodes)[1] != anchor;
    }

    /** The nodes of seg are in no ring and none of them is this list's. */
    ghost predicate Outside(seg: seq<Node>)
      reads this, seg
    {
      Segment(seg) && Apart([anchor] + nodes, seg)
    }

    /** Splice seg in at position k of the list. */
    method InsertAt(k: nat, first: Node, last: Node, ghost seg: seq<Node>, next: Node)
      requires Valid() && Outside(seg) && k <= |nodes| && seg[0] == first && seg[|seg| - 1] == last
      requires next == if k < |nodes| then nodes[k] else anchor
      modifies this, anchor, nodes, seg
      ensures Valid() && nodes == old(nodes[..k] + seg + nodes[k..])
    {
      ghost var r := nodes[k..] + [anchor] + nodes[..k];
      Around(anchor, nodes, k, k);
      assert r + nodes[k..k] == r;
      StillApart([anchor] + nodes, r, seg);
      InsertBefore(next, first, last, r, seg);
      assert r + seg == nodes[k..] + [anchor] + (nodes[..k] + seg);
      Home(anchor, nodes[..k] + seg, nodes[k..]);
      nodes := nodes[..k] + seg + nodes[k..];
      assert [anchor] + (old(nodes[..k]) + seg + old(nodes[k..])) == [anchor] + nodes;
    }

    method PushFront(elem: Node)
      requires Valid() && Outside([elem])
      modifies this, anchor, nodes, elem
      ensures Valid() && nodes == [elem] + old(nodes)
    {
      var f := Front();
      InsertAt(0, elem, elem, [elem], f);
    }

    /** insert_after(*back(), first, last). */
    method SpliceBack(first: Node, last: Node, ghost seg: seq<Node>)
      requires Valid() && Outside(seg) && seg[0] == first && seg[|seg| - 1] == last
      modifies this, anchor, nodes, seg
      ensures Valid() && nodes == old(nodes) + seg
    {
      var b := Back();
      InsertAfter(b, first, last, [anchor] + nodes, seg);
      assert [anchor] + nodes + seg == [anchor] + (nodes + seg);
      nodes := nodes + seg;
    }

    method PushBack(elem: Node)
      requires Valid() && Outside([elem])
      modifies this, anchor, nodes, elem
      ensures Valid() && nodes == old(nodes) + [elem]
    {
      SpliceBack(elem, elem, [elem]);
    }

    /** remove(first, last) for the nodes from position i to position j - 1. */
    method RemoveRange(first: Node, last: Node, ghost i: nat, ghost j: nat) returns (end: Node)
      requires Valid() && i < j <= |nodes| && first == nodes[i] && last == nodes[j - 1]
      modifies this, anchor, nodes
      ensures Valid() && nodes == old(nodes[..i] + nodes[j..]) && end == last
      ensures Segment(old(nodes[i..j]))
    {
      ghost var was := nodes;
      ghost var r, seg := nodes[j..] + [anchor] + nodes[..i], nodes[i..j];
      Around(anchor, nodes, i, j);
      end := Remove(first, last, r, seg);
      Home(anchor, was[..i], was[j..]);
      nodes := was[..i] + was[j..];
    }

    method RemoveAll() returns (end: Node)
      requires Valid() && nodes != []
      modifies this, anchor, nodes
      ensures Valid() && nodes == [] && Segment(old(nodes)) && end == old(nodes[|nodes| - 1])
    {
      var f := Front();
      var b := Back();
      assert nodes[0..|nodes|] == nodes;
      end := RemoveRange(f, b, 0, |nodes|);
    }

    method PopFront() returns (elem: Node)
      requires Valid() && nodes != []
      modifies this, anchor, nodes
      ensures Valid() && [elem] + nodes == old(nodes) && Segment([elem])
    {
      var f := Front();
      assert nodes[0..1] == [nodes[0]];
      elem := RemoveRange(f, f, 0, 1);
    }

    method PopBack() returns (elem: Node)
      requires Valid() && nodes != []
      modifies this, anchor, nodes
      ensures Valid() && nodes + [elem] == old(nodes) && Segment([elem])
    {
      var b := Back();
      ghost var n := |nodes|;
      assert nodes[n - 1..n][0] == nodes[n - 1] && nodes[..n - 1] + [nodes[n - 1]] == nodes;
      elem := RemoveRange(b, b, n - 1, n);
    }

    /** remove(first, count): the nodes removed, and the count reported, are as many as
        asked for and available; but for a count of 0 one node goes and 0 is reported. */
    method RemoveCounted(first: Node, count: nat, ghost i: nat) returns (end: Node, reported: nat)
      requires Valid() && i < |nodes| && first == nodes[i]
      modifies this, anchor, nodes
      ensures Valid() && reported == Available(count, |old(nodes)| - i)
      ensures var j := i + (if count == 0 then 1 else reported);
        && nodes == old(nodes[..i] + nodes[j..]) && Segment(old(nodes[i..j])) && end == old(nodes[j - 1])
    {
      ghost var full := [anchor] + nodes;
      var last := first;
      ghost var got: nat := 1;
      reported := count;
      var k := 1;
      while k < reported
        invariant 1 <= got <= |nodes| - i && last == nodes[i + got - 1]
        invariant || (reported == count && k == got && got <= (if count == 0 then 1 else count))
                  || (reported == got && k == got + 1 && i + got == |nodes| && got < count)
        decreases count + 1 - k
      {
        assert full[i + got] == last;
        assert i + got < |nodes| ==> Linked(full[i + got], full[i + got + 1]) && full[i + got + 1] != full[0];
        if last.next == anchor {
          reported := k;
        } else {
          last := last.next;
          got := got + 1;
        }
        k := k + 1;
      }
      end := RemoveRange(first, last, i, i + got);
    }
  }

  function Available(count: nat, there: nat): nat { if count <= there then count else there }
}
