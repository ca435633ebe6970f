/** What the concurrent models share: thread and node names, link words, and finite
    sequences without repetition.  A map key that is absent stands for the initial
    value, so no model bounds the number of threads or nodes. */
module Memory {
  type Tid = nat
  type Node = nat

  /** A link word: nullptr or the address of a node. */
  datatype Ptr = Null | To(node: Node)

  function Link(words: map<Node, Ptr>, n: Node): Ptr {
    if n in words then words[n] else Null
  }

  /** The pointer to the last node of a chain, Null for the empty chain. */
  function LastOf(q: seq<Node>): Ptr {
    if q == [] then Null else To(q[|q| - 1])
  }

  function FirstOf(q: seq<Node>): Ptr {
    if q == [] then Null else To(q[0])
  }

  /** The nodes met when following at most fuel links from p. */
  function Walk(links: map<Node, Ptr>, p: Ptr, fuel: nat): seq<Node>
    decreases fuel
  {
    if fuel == 0 || p.Null? then [] else [p.node] + Walk(links, Link(links, p.node), fuel - 1)
  }

  ghost predicate Distinct<T>(q: seq<T>) {
    forall i, j :: 0 <= i < j < |q| ==> q[i] != q[j]
  }

  /** The sequence with the first occurrence of n deleted. */
  function Without(q: seq<Node>, n: Node): seq<Node> {
    if q == [] then []
    else if q[0] == n then q[1..]
    else [q[0]] + Without(q[1..], n)
  }

  /** Deleting the element at index i moves the later ones down by one. */
  lemma {:induction false} WithoutAt(q: seq<Node>, i: nat)
    requires Distinct(q) && i < |q|
    ensures var r := Without(q, q[i]);
      && |r| == |q| - 1
      && (forall k :: 0 <= k < i ==> r[k] == q[k])
      && (forall k :: i <= k < |r| ==> r[k] == q[k + 1])
  {
    if i > 0 {
      WithoutAt(q[1..], i - 1);
    }
  }

  /** ... and keeps distinctness and every other element. */
  lemma WithoutKeeps(q: seq<Node>, i: nat)
    requires Distinct(q) && i < |q|
    ensures Distinct(Without(q, q[i]))
    ensures forall m :: m in Without(q, q[i]) <==> m in q && m != q[i]
  {
    WithoutAt(q, i);
    var r := Without(q, q[i]);
    forall m | m in q && m != q[i] ensures m in r {
      var k :| 0 <= k < |q| && q[k] == m;
      if k < i { assert r[k] == m; } else { assert r[k - 1] == m; }
    }
    forall j, k | 0 <= j < k < |r| ensures r[j] != r[k] {
      var j', k' := if j < i then j else j + 1, if k < i then k else k + 1;
      assert r[j] == q[j'] && r[k] == q[k'];
    }
  }

  lemma RemoveOne(q: seq<Node>, f: Node)
    requires Distinct(q) && f in q
    ensures Distinct(Without(q, f)) && forall u :: u in Without(q, f) <==> u in q && u != f
  {
    var i :| 0 <= i < |q| && q[i] == f;
    WithoutKeeps(q, i);
  }

  /** Without its first element a sequence loses that element only. */
  lemma TailKeeps(q: seq<Node>, n: Node)
    requires q != [] && Distinct(q)
    ensures Distinct(q[1..]) && (n in q[1..] <==> n in q && n != q[0])
  {
    if n in q && n != q[0] {
      var k :| 0 <= k < |q| && q[k] == n;
      assert q[1..][k - 1] == n;
    }
  }

  lemma AppendDistinct(q: seq<Node>, seg: seq<Node>)
    requires Distinct(q) && Distinct(seg)
    requires forall n :: n in seg ==> n !in q
    ensures Distinct(q + seg)
  {
    forall i, j | 0 <= i < j < |q + seg| ensures (q + seg)[i] != (q + seg)[j] {
      if i < |q| <= j { assert seg[j - |q|] in seg; assert q[i] in q; }
    }
  }
}
