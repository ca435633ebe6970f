/** The levels of a hierarchical bitmap as values: level 0 holds the elements, B to a
    word, and each bit of a higher level summarises one word of the level below. */
module Hierarchy {
  import opened Division
  import opened Words
  import opened Wrappers

  type Bits = set<nat>
  type Levels = seq<seq<Bits>>

  /** n words at level 0, one at the top, and every word within its B bits. */
  ghost predicate Shape(v: Levels, b: nat, n: nat) {
    && b >= 2 && n >= 1 && |v| >= 1 && |v[0]| == n && |v[|v| - 1]| == 1
    && (forall l :: 0 <= l < |v| ==> |v[l]| > 0)
    && (forall l :: 1 <= l < |v| ==> |v[l]| == DivUp(|v[l - 1]|, b))
    && (forall l, w :: 0 <= l < |v| && 0 <= w < |v[l]| ==> Fits(v[l][w], b))
  }

  ghost predicate Fits(s: Bits, b: nat) { forall r <- s :: r < b }

  predicate Bit(v: Levels, b: nat, l: nat, j: nat)
    requires b > 0
  {
    l < |v| && Quo(j, b) < |v[l]| && Rem(j, b) in v[l][Quo(j, b)]
  }

  /** The summary bit of word j of level l - 1 says whether the word is non-empty. */
  predicate Linked(v: Levels, b: nat, l: nat, j: nat)
    requires b > 0 && 1 <= l < |v|
  {
    Bit(v, b, l, j) <==> j < |v[l - 1]| && v[l - 1][j] != {}
  }

  ghost predicate Agrees(v: Levels, b: nat)
    requires b > 0
  {
    forall l, j: nat :: 1 <= l < |v| ==> Linked(v, b, l, j)
  }

  ghost predicate Valid(v: Levels, b: nat, n: nat) {
    Shape(v, b, n) && Agrees(v, b)
  }

  /** The flat set that the bitmap stands for. */
  function Members(v: Levels, b: nat): set<nat>
    requires b > 0 && |v| > 0
  {
    set x <- Below(Index(|v[0]|, 0, b)) | Bit(v, b, 0, x) :: x
  }

  lemma MemberIsBit(v: Levels, b: nat, x: nat)
    requires b > 0 && |v| > 0
    ensures x in Members(v, b) <==> Bit(v, b, 0, x)
  {
    PartsIndex(x, b);
    IndexOrder(Quo(x, b), Rem(x, b), |v[0]|, 0, b);
  }

  // ---------------------------------------------------------- set and clear

  function Replace(v: Levels, l: nat, w: nat, s: Bits): Levels
    requires l < |v| && w < |v[l]|
  {
    v[l := v[l][w := s]]
  }

  /** All links hold but possibly the one of word j of level l - 1. */
  ghost predicate AgreesBut(v: Levels, b: nat, l: nat, j: nat)
    requires b > 0
  {
    forall k, i: nat :: 1 <= k < |v| && (k != l || i != j) ==> Linked(v, b, k, i)
  }

  lemma ReplaceShape(v: Levels, b: nat, n: nat, l: nat, w: nat, s: Bits)
    requires Shape(v, b, n) && l < |v| && w < |v[l]| && Fits(s, b)
    ensures Shape(Replace(v, l, w, s), b, n)
  {}

  lemma ReplaceBit(v: Levels, b: nat, l: nat, w: nat, s: Bits, k: nat, j: nat)
    requires b > 0 && l < |v| && w < |v[l]|
    ensures var v' := Replace(v, l, w, s);
      Bit(v', b, k, j) <==> if k == l && Quo(j, b) == w then Rem(j, b) in s else Bit(v, b, k, j)
  {}

  /** Changing bit r of a word, when the link of that bit is open: the link to the level
      above is the only one that may now be wrong. */
  lemma ReplaceAgrees(v: Levels, b: nat, n: nat, l: nat, j: nat, s: Bits)
    requires Shape(v, b, n) && AgreesBut(v, b, l, j) && l < |v| && Quo(j, b) < |v[l]| && Fits(s, b)
    requires l >= 1 ==> forall r: nat :: r != Rem(j, b) ==> (r in s <==> r in v[l][Quo(j, b)])
    requires l >= 1 ==> (Rem(j, b) in s <==> j < |v[l - 1]| && v[l - 1][j] != {})
    ensures AgreesBut(Replace(v, l, Quo(j, b), s), b, l + 1, Quo(j, b))
  {
    var w := Quo(j, b);
    var v' := Replace(v, l, w, s);
    forall k, i: nat | 1 <= k < |v'| && (k != l + 1 || i != w) ensures Linked(v', b, k, i) {
      ReplaceBit(v, b, l, w, s, k, i);
      assert k != l || i != j ==> Linked(v, b, k, i);
      if k == l && Quo(i, b) == w && Rem(i, b) == Rem(j, b) { SameIndex(i, j, b); }
    }
  }

  lemma SameIndex(i: nat, j: nat, b: nat)
    requires b > 0 && Quo(i, b) == Quo(j, b) && Rem(i, b) == Rem(j, b)
    ensures i == j
  {
    PartsIndex(i, b);
    PartsIndex(j, b);
  }

  lemma ReplaceMembers(v: Levels, b: nat, w: nat, s: Bits, x: nat)
    requires b > 0 && |v| > 0 && w < |v[0]|
    ensures var v' := Replace(v, 0, w, s);
      x in Members(v', b) <==> if Quo(x, b) == w then Rem(x, b) in s else x in Members(v, b)
  {
    MemberIsBit(v, b, x);
    MemberIsBit(Replace(v, 0, w, s), b, x);
  }

  /** A word that stays non-empty keeps its link. */
  lemma StaysLinked(v: Levels, b: nat, l: nat, w: nat, s: Bits)
    requires b > 0 && l + 1 < |v| && w < |v[l]| && Linked(v, b, l + 1, w)
    requires v[l][w] != {} && s != {}
    ensures Linked(Replace(v, l, w, s), b, l + 1, w)
  {
    ReplaceBit(v, b, l, w, s, l + 1, w);
  }

  lemma OneMember(v: Levels, b: nat, j: nat, x: nat)
    requires b > 0 && |v| > 0 && Quo(j, b) < |v[0]|
    ensures Quo(x, b) == Quo(j, b) ==> (x in Members(v, b) <==> Rem(x, b) in v[0][Quo(j, b)])
    ensures Quo(x, b) == Quo(j, b) && Rem(x, b) == Rem(j, b) ==> x == j
  {
    MemberIsBit(v, b, x);
    PartsIndex(x, b);
    PartsIndex(j, b);
  }

  lemma SetMember(v: Levels, b: nat, j: nat)
    requires b > 0 && |v| > 0 && Quo(j, b) < |v[0]|
    ensures Members(Replace(v, 0, Quo(j, b), v[0][Quo(j, b)] + {Rem(j, b)}), b) == Members(v, b) + {j}
  {
    var s := v[0][Quo(j, b)] + {Rem(j, b)};
    forall x: nat ensures x in Members(Replace(v, 0, Quo(j, b), s), b) <==> x in Members(v, b) || x == j {
      ReplaceMembers(v, b, Quo(j, b), s, x);
      OneMember(v, b, j, x);
    }
  }

  lemma ClrMember(v: Levels, b: nat, j: nat)
    requires b > 0 && |v| > 0 && Quo(j, b) < |v[0]|
    ensures Members(Replace(v, 0, Quo(j, b), v[0][Quo(j, b)] - {Rem(j, b)}), b) == Members(v, b) - {j}
  {
    var s := v[0][Quo(j, b)] - {Rem(j, b)};
    forall x: nat ensures x in Members(Replace(v, 0, Quo(j, b), s), b) <==> x in Members(v, b) && x != j {
      ReplaceMembers(v, b, Quo(j, b), s, x);
      OneMember(v, b, j, x);
    }
  }

  // ---------------------------------------------------------------- searching

  /** x divided by b, l times: the bit of level l that stands for x. */
  function Up(x: nat, b: nat, l: nat): nat
    requires b > 0
    decreases l
  {
    if l == 0 then x else Up(Quo(x, b), b, l - 1)
  }

  lemma {:induction false} UpStep(x: nat, b: nat, l: nat)
    requires b > 0
    ensures Up(x, b, l + 1) == Quo(Up(x, b, l), b)
    decreases l
  {
    if l > 0 { UpStep(Quo(x, b), b, l - 1); }
  }

  lemma {:induction false} UpMonotone(x: nat, y: nat, b: nat, l: nat)
    requires b > 0 && x <= y
    ensures Up(x, b, l) <= Up(y, b, l)
    decreases l
  {
    if l > 0 {
      Order(y, x, b);
      UpMonotone(Quo(x, b), Quo(y, b), b, l - 1);
    }
  }

  /** A member has its bit set on every level. */
  lemma {:induction false} MemberUp(v: Levels, b: nat, n: nat, x: nat, l: nat)
    requires Valid(v, b, n) && x in Members(v, b) && l < |v|
    ensures Bit(v, b, l, Up(x, b, l)) && Up(x, b, l + 1) < |v[l]|
    decreases l
  {
    UpStep(x, b, l);
    if l == 0 {
      MemberIsBit(v, b, x);
    } else {
      MemberUp(v, b, n, x, l - 1);
      UpStep(x, b, l - 1);
      var j := Up(x, b, l);
      assert v[l - 1][j] != {};
      assert Linked(v, b, l, j);
    }
  }

  /** Down from a non-empty word, always to the first bit. */
  function FindDown(v: Levels, b: nat, l: nat, w: nat): nat
    requires b > 0
    decreases l
  {
    var j := Index(w, if l < |v| && w < |v[l]| then Least(v[l][w], 0, b) else 0, b);
    if l == 0 then j else FindDown(v, b, l - 1, j)
  }

  /** The first bit of a non-empty word leads to a non-empty word below. */
  lemma FirstBit(v: Levels, b: nat, n: nat, l: nat, w: nat)
    requires Valid(v, b, n) && l < |v| && w < |v[l]| && v[l][w] != {}
    ensures var r := Least(v[l][w], 0, b); var j := Index(w, r, b);
      r < b && Quo(j, b) == w && Bit(v, b, l, j) && (l > 0 ==> j < |v[l - 1]| && v[l - 1][j] != {})
  {
    var r := Least(v[l][w], 0, b);
    var x :| x in v[l][w];
    assert Fits(v[l][w], b);
    assert r <= x;
    IndexParts(w, r, b);
    if l > 0 { assert Linked(v, b, l, Index(w, r, b)); }
  }

  /** It ends at the least member under the word. */
  lemma {:induction false} FindDownLeast(v: Levels, b: nat, n: nat, l: nat, w: nat)
    requires Valid(v, b, n) && l < |v| && w < |v[l]| && v[l][w] != {}
    ensures var x := FindDown(v, b, l, w);
      x in Members(v, b) && Up(x, b, l + 1) == w && forall y :: y in Members(v, b) && Up(y, b, l + 1) == w ==> x <= y
    decreases l
  {
    FirstBit(v, b, n, l, w);
    var r := Least(v[l][w], 0, b);
    var j := Index(w, r, b);
    IndexParts(w, r, b);
    var x := FindDown(v, b, l, w);
    if l == 0 {
      MemberIsBit(v, b, x);
      UpStep(x, b, 0);
    } else {
      FindDownLeast(v, b, n, l - 1, j);
      UpStep(x, b, l);
    }
    forall y | y in Members(v, b) && Up(y, b, l + 1) == w ensures x <= y {
      UpStep(y, b, l);
      MemberUp(v, b, n, y, l);
      var k := Up(y, b, l);
      Order(k, j, b);
      assert Rem(k, b) in v[l][w] && j <= k;
      if l > 0 && y < x { UpMonotone(y, x, b, l); }
    }
  }

  /** findnext from bit ridx of word bidx of level l, while it still climbs. */
  function Climb(v: Levels, b: nat, n: nat, l: nat, bidx: nat, ridx: nat, mbc: nat): Option<nat>
    requires Shape(v, b, n) && l < |v| && bidx < |v[l]| && mbc <= |v[l]|
    decreases |v| - l
  {
    var r := Least(v[l][bidx], ridx, b);
    if r < b then Some(if l == 0 then Index(bidx, r, b) else FindDown(v, b, l - 1, Index(bidx, r, b)))
    else if bidx + 1 >= mbc then None
    else
      ClimbFits(v, b, n, l, bidx, mbc);
      Climb(v, b, n, l + 1, Quo(bidx + 1, b), Rem(bidx + 1, b), Quo(mbc, b))
  }

  lemma ClimbFits(v: Levels, b: nat, n: nat, l: nat, bidx: nat, mbc: nat)
    requires Shape(v, b, n) && l < |v| && bidx + 1 < mbc <= |v[l]|
    ensures l + 1 < |v| && Quo(bidx + 1, b) < |v[l + 1]| && Quo(mbc, b) <= |v[l + 1]|
  {
    assert l + 1 < |v|;
    DivUpCovers(bidx + 1, |v[l]|, b);
    Order(|v[l]|, mbc, b);
    QuoNext(|v[l]| - 1, b);
  }

  lemma {:induction false} QuoNext(x: nat, b: nat)
    requires b > 0
    ensures Quo(x + 1, b) <= Quo(x, b) + 1
  {
    if x >= b { QuoNext(x - b, b); }
  }

  lemma ClimbNext(v: Levels, b: nat, n: nat, l: nat, bidx: nat, ridx: nat, mbc: nat)
    requires Shape(v, b, n) && l < |v| && bidx + 1 < mbc <= |v[l]| && Least(v[l][bidx], ridx, b) >= b
    ensures l + 1 < |v| && Quo(bidx + 1, b) < |v[l + 1]| && Quo(mbc, b) <= |v[l + 1]|
    ensures Climb(v, b, n, l, bidx, ridx, mbc) == Climb(v, b, n, l + 1, Quo(bidx + 1, b), Rem(bidx + 1, b), Quo(mbc, b))
  {
    ClimbFits(v, b, n, l, bidx, mbc);
  }

  function FindNext(v: Levels, b: nat, n: nat, idx: nat): Option<nat>
    requires Shape(v, b, n) && Quo(idx, b) < n
  {
    Climb(v, b, n, 0, Quo(idx, b), Rem(idx, b), n)
  }

  /** The bucket count is k * b^j with k below b. */
  predicate Aligned(n: nat, b: nat)
    requires b >= 2
    decreases n
  {
    n < b || (Rem(n, b) == 0 && Aligned(Quo(n, b), b))
  }

  lemma {:induction false} AlignedUp(y: nat, n: nat, b: nat, l: nat)
    requires b >= 2 && y < n && Aligned(n, b) && Up(n, b, l) >= 1
    ensures Up(y, b, l) < Up(n, b, l)
    decreases l
  {
    if l > 0 {
      if n < b { UpZero(b, l - 1); } else { AlignedQuo(y, n, b); AlignedUp(Quo(y, b), Quo(n, b), b, l - 1); }
    }
  }

  lemma AlignedQuo(y: nat, n: nat, b: nat)
    requires b > 0 && y < n && Rem(n, b) == 0
    ensures Quo(y, b) < Quo(n, b)
  {
    Order(y, n, b);
  }

  lemma {:induction false} UpZero(b: nat, l: nat)
    requires b > 0
    ensures Up(0, b, l) == 0
    decreases l
  {
    if l > 0 { UpZero(b, l - 1); }
  }

  /** The climb stands at bit `at` of level l: nothing from i on was passed over. */
  ghost predicate Above(v: Levels, b: nat, i: nat, l: nat, at: nat)
    requires b > 0 && |v| > 0
  {
    && (forall x :: x in Members(v, b) && i <= x ==> at <= Up(x, b, l))
    && (forall x: nat :: at <= Up(x, b, l) ==> i <= x)
  }

  /** Nothing found in the word: go on with the next word, one level up. */
  lemma ClimbOn(v: Levels, b: nat, n: nat, i: nat, l: nat, bidx: nat, ridx: nat)
    requires Valid(v, b, n) && l < |v| && bidx < |v[l]| && ridx < b && Above(v, b, i, l, Index(bidx, ridx, b))
    requires Least(v[l][bidx], ridx, b) == b
    ensures Above(v, b, i, l + 1, bidx + 1)
  {
    var at := Index(bidx, ridx, b);
    IndexParts(bidx, ridx, b);
    forall x | x in Members(v, b) && i <= x ensures bidx + 1 <= Up(x, b, l + 1) {
      MemberUp(v, b, n, x, l);
      UpStep(x, b, l);
      Order(Up(x, b, l), at, b);
    }
    var up := l + 1;
    forall x: nat ensures bidx + 1 <= Up(x, b, up) ==> i <= x {
      UpStep(x, b, l);
      Order(at, Up(x, b, l), b);
    }
  }

  /** Found in the word: the rest of the way leads to the least member from i on. */
  lemma ClimbFound(v: Levels, b: nat, n: nat, i: nat, l: nat, bidx: nat, ridx: nat)
    requires Valid(v, b, n) && l < |v| && bidx < |v[l]| && ridx < b && Above(v, b, i, l, Index(bidx, ridx, b))
    requires Least(v[l][bidx], ridx, b) < b
    ensures var j := Index(bidx, Least(v[l][bidx], ridx, b), b);
      LeastFrom(v, b, i, if l == 0 then j else FindDown(v, b, l - 1, j))
    ensures var j := Index(bidx, Least(v[l][bidx], ridx, b), b);
      l > 0 ==> j < |v[l - 1]| && v[l - 1][j] != {}
  {
    var r := Least(v[l][bidx], ridx, b);
    var j := Index(bidx, r, b);
    IndexParts(bidx, r, b);
    IndexParts(bidx, ridx, b);
    var x := if l == 0 then j else FindDown(v, b, l - 1, j);
    if l == 0 { MemberIsBit(v, b, x); } else { assert Linked(v, b, l, j); FindDownLeast(v, b, n, l - 1, j); }
    assert Up(x, b, l) == j;
    Order(Index(bidx, ridx, b), j, b);
    forall y | y in Members(v, b) && i <= y ensures x <= y {
      MemberUp(v, b, n, y, l);
      var k := Up(y, b, l);
      Order(k, j, b);
      Order(k, Index(bidx, ridx, b), b);
      assert j <= k;
      if l > 0 && y < x { UpMonotone(y, x, b, l); }
    }
  }

  ghost predicate LeastFrom(v: Levels, b: nat, i: nat, x: nat)
    requires b > 0 && |v| > 0
  {
    x in Members(v, b) && i <= x && forall y :: y in Members(v, b) && i <= y ==> x <= y
  }

  ghost predicate NoneFrom(v: Levels, b: nat, i: nat)
    requires b > 0 && |v| > 0
  {
    forall y :: y in Members(v, b) ==> y < i
  }

  lemma ClimbStep(v: Levels, b: nat, n: nat, i: nat, l: nat, bidx: nat, ridx: nat, mbc: nat)
    requires Valid(v, b, n) && l < |v| && ridx < b && bidx + 1 < mbc <= |v[l]| && mbc == Up(n, b, l)
    requires Above(v, b, i, l, Index(bidx, ridx, b)) && Least(v[l][bidx], ridx, b) == b
    ensures var w, r := Quo(bidx + 1, b), Rem(bidx + 1, b);
      && l + 1 < |v| && w < |v[l + 1]| && r < b && Quo(mbc, b) <= |v[l + 1]| && Quo(mbc, b) == Up(n, b, l + 1)
      && Above(v, b, i, l + 1, Index(w, r, b))
      && Climb(v, b, n, l, bidx, ridx, mbc) == Climb(v, b, n, l + 1, w, r, Quo(mbc, b))
  {
    ClimbOn(v, b, n, i, l, bidx, ridx);
    ClimbNext(v, b, n, l, bidx, ridx, mbc);
    UpStep(n, b, l);
    PartsIndex(bidx + 1, b);
  }

  lemma {:induction false} ClimbIsLeast(v: Levels, b: nat, n: nat, i: nat, l: nat, bidx: nat, ridx: nat, mbc: nat)
    requires Valid(v, b, n) && l < |v| && bidx < |v[l]| && ridx < b && mbc <= |v[l]| && mbc == Up(n, b, l)
    requires Above(v, b, i, l, Index(bidx, ridx, b))
    ensures match Climb(v, b, n, l, bidx, ridx, mbc)
            case Some(x) => LeastFrom(v, b, i, x)
            case None => Aligned(n, b) ==> NoneFrom(v, b, i)
    decreases |v| - l
  {
    if Least(v[l][bidx], ridx, b) < b {
      ClimbFound(v, b, n, i, l, bidx, ridx);
    } else {
      if bidx + 1 >= mbc {
        ClimbOn(v, b, n, i, l, bidx, ridx);
        if Aligned(n, b) { NothingAbove(v, b, n, i, l, bidx + 1); }
      } else {
        ClimbStep(v, b, n, i, l, bidx, ridx, mbc);
        ClimbIsLeast(v, b, n, i, l + 1, Quo(bidx + 1, b), Rem(bidx + 1, b), Quo(mbc, b));
      }
    }
  }

  lemma NothingAbove(v: Levels, b: nat, n: nat, i: nat, l: nat, at: nat)
    requires Valid(v, b, n) && Aligned(n, b) && Above(v, b, i, l + 1, at) && at >= 1 && at >= Up(n, b, l)
    ensures NoneFrom(v, b, i)
  {
    forall y | y in Members(v, b) ensures y < i {
      MemberIsBit(v, b, y);
      if Up(n, b, l) >= 1 { AlignedUp(Quo(y, b), n, b, l); } else { UpMonotone(Quo(y, b), n, b, l); }
    }
  }

  /** findnext returns the least member from idx on, or nothing, and nothing only if there is
      none, provided the bucket count is aligned. */
  lemma FindNextIsLeast(v: Levels, b: nat, n: nat, idx: nat)
    requires Valid(v, b, n) && Quo(idx, b) < n
    ensures match FindNext(v, b, n, idx)
            case Some(x) => LeastFrom(v, b, idx, x)
            case None => Aligned(n, b) ==> NoneFrom(v, b, idx)
  {
    PartsIndex(idx, b);
    ClimbIsLeast(v, b, n, idx, 0, Quo(idx, b), Rem(idx, b), n);
  }

  // ------------------------------------- the exact condition for completeness

  /** The first word of level 0 below word w of level l. */
  function Down(w: nat, b: nat, l: nat): nat
    decreases l
  {
    if l == 0 then w else Index(Down(w, b, l - 1), 0, b)
  }

  lemma {:induction false} DownUp(w: nat, b: nat, l: nat, k: nat)
    requires b > 0 && k <= l
    ensures Up(Down(w, b, l), b, k) == Down(w, b, l - k)
    decreases k
  {
    if k > 0 {
      IndexParts(Down(w, b, l - 1), 0, b);
      DownUp(w, b, l - 1, k - 1);
    }
  }

  /** A count that is not aligned has a level whose words reach beyond a full multiple. */
  lemma {:induction false} OddLevel(n: nat, b: nat) returns (l: nat)
    requires b >= 2 && !Aligned(n, b)
    ensures l >= 1 && Up(n, b, l) >= 1 && Down(Up(n, b, l), b, l) < n
    decreases n
  {
    PartsIndex(n, b);
    if Rem(n, b) != 0 {
      l := 1;
      assert Up(n, b, 1) == Quo(n, b) && Down(Quo(n, b), b, 1) == Index(Quo(n, b), 0, b);
      IndexOrder(Quo(n, b), 0, Quo(n, b), Rem(n, b), b);
    } else {
      var k := OddLevel(Quo(n, b), b);
      l := k + 1;
      var d := Down(Up(Quo(n, b), b, k), b, k);
      IndexOrder(d, 0, Quo(n, b), 0, b);
    }
  }

  /** The levels whose only member is x. */
  function Single(lens: seq<nat>, b: nat, x: nat): Levels
    requires b > 0
  {
    seq(|lens|, l requires 0 <= l < |lens| => seq(lens[l], (w: nat) => SingleWord(b, x, l, w)))
  }

  function SingleWord(b: nat, x: nat, l: nat, w: nat): Bits
    requires b > 0
  {
    if w == Up(x, b, l + 1) then {Rem(Up(x, b, l), b)} else {}
  }

  /** The lengths of the levels for n words at the bottom. */
  function Lengths(n: nat, b: nat): (r: seq<nat>)
    requires b >= 2 && n >= 1
    ensures |r| >= 1 && r[0] == n && r[|r| - 1] == 1
    ensures (forall l :: 0 <= l < |r| ==> r[l] > 0) && (forall l :: 1 <= l < |r| ==> r[l] == DivUp(r[l - 1], b))
    decreases n
  {
    if n == 1 then [1] else [n] + Lengths(DivUp(n, b), b)
  }

  /** The words of level l end where the count of words ends. */
  lemma {:induction false} LengthsCover(n: nat, b: nat, y: nat, l: nat)
    requires b >= 2 && y < n && l < |Lengths(n, b)|
    ensures Up(y, b, l) < Lengths(n, b)[l]
    decreases l
  {
    if l > 0 { DivUpCovers(y, n, b); LengthsCover(DivUp(n, b), b, Quo(y, b), l - 1); }
  }

  lemma SingleShape(n: nat, b: nat, x: nat)
    requires b >= 2 && n >= 1
    ensures Shape(Single(Lengths(n, b), b, x), b, n)
  {
    var v := Single(Lengths(n, b), b, x);
    forall l, w | 0 <= l < |v| && 0 <= w < |v[l]| ensures Fits(v[l][w], b) { assert v[l][w] == SingleWord(b, x, l, w); }
  }

  lemma SingleBit(n: nat, b: nat, x: nat, l: nat, j: nat)
    requires b >= 2 && n >= 1 && Quo(x, b) < n && l < |Lengths(n, b)|
    ensures Bit(Single(Lengths(n, b), b, x), b, l, j) <==> j == Up(x, b, l)
  {
    var v := Single(Lengths(n, b), b, x);
    UpStep(x, b, l);
    LengthsCover(n, b, Quo(x, b), l);
    if Bit(v, b, l, j) { assert v[l][Quo(j, b)] == SingleWord(b, x, l, Quo(j, b)); SameIndex(j, Up(x, b, l), b); }
    if j == Up(x, b, l) { assert v[l][Quo(j, b)] == SingleWord(b, x, l, Quo(j, b)); }
  }

  lemma SingleValid(n: nat, b: nat, x: nat)
    requires b >= 2 && n >= 1 && Quo(x, b) < n
    ensures Valid(Single(Lengths(n, b), b, x), b, n) && Members(Single(Lengths(n, b), b, x), b) == {x}
  {
    var v := Single(Lengths(n, b), b, x);
    SingleShape(n, b, x);
    forall l, j: nat | 1 <= l < |v| ensures Linked(v, b, l, j) {
      SingleBit(n, b, x, l, j);
      LengthsCover(n, b, Quo(x, b), l - 1);
      if j < |v[l - 1]| { assert v[l - 1][j] == SingleWord(b, x, l - 1, j); }
    }
    forall y: nat ensures y in Members(v, b) <==> y == x { MemberIsBit(v, b, y); SingleBit(n, b, x, 0, y); }
  }

  lemma {:induction false} DownGap(m: nat, b: nat, k: nat)
    requires b >= 2 && m >= 1
    ensures Down(m - 1, b, k) + (if k >= 1 then 2 else 1) <= Down(m, b, k)
    decreases k
  {
    if k > 0 {
      DownGap(m, b, k - 1);
      var d, e := Down(m - 1, b, k - 1), Down(m, b, k - 1);
      IndexOrder(d, 1, e, 0, b);
      assert Index(d, 1, b) == Index(d, 0, b) + 1 by { IndexNext(d, b); }
    }
  }

  lemma {:induction false} IndexNext(w: nat, b: nat)
    ensures Index(w, 1, b) == Index(w, 0, b) + 1
  {
    if w > 0 { IndexNext(w - 1, b); }
  }

  /** The word of level k that the climb from below word m - 1 of level l comes through. */
  ghost predicate EmptyWay(v: Levels, b: nat, m: nat, l: nat)
    requires m >= 1
  {
    forall k: nat :: k <= l && k < |v| && Down(m - 1, b, l - k) < |v[k]| ==> v[k][Down(m - 1, b, l - k)] == {}
  }

  /** The climb from the word before: it gives up on level l, where the count is odd. */
  lemma {:induction false} ClimbMisses(v: Levels, b: nat, n: nat, m: nat, l: nat, j: nat)
    requires Shape(v, b, n) && m >= 1 && m == Up(n, b, l) && Down(m, b, l) <= n && EmptyWay(v, b, m, l)
    requires j <= l && j < |v| && Down(m - 1, b, l - j) < |v[j]| && Up(n, b, j) <= |v[j]|
    ensures Climb(v, b, n, j, Down(m - 1, b, l - j), if j == 0 then 0 else 1, Up(n, b, j)) == None
    decreases l - j
  {
    if j < l {
      ClimbMissStep(v, b, n, m, l, j);
      ClimbMisses(v, b, n, m, l, j + 1);
    } else {
      ClimbEnds(v, b, n, l, Down(m - 1, b, 0), if j == 0 then 0 else 1, m);
    }
  }

  /** Nothing on level j: the climb goes on at the next word of the way, one level up. */
  lemma ClimbMissStep(v: Levels, b: nat, n: nat, m: nat, l: nat, j: nat)
    requires Shape(v, b, n) && m >= 1 && Down(m, b, l) <= n && EmptyWay(v, b, m, l)
    requires j < l && j < |v| && Down(m - 1, b, l - j) < |v[j]| && Up(n, b, j) <= |v[j]|
    ensures j + 1 < |v| && Down(m - 1, b, l - (j + 1)) < |v[j + 1]| && Up(n, b, j + 1) <= |v[j + 1]|
    ensures Climb(v, b, n, j, Down(m - 1, b, l - j), if j == 0 then 0 else 1, Up(n, b, j))
         == Climb(v, b, n, j + 1, Down(m - 1, b, l - (j + 1)), 1, Up(n, b, j + 1))
  {
    WordAfter(b, n, m, l, j);
    ClimbNext(v, b, n, j, Down(m - 1, b, l - j), if j == 0 then 0 else 1, Up(n, b, j));
  }

  /** The words of the way on two levels, against the counts of words there. */
  lemma WordAfter(b: nat, n: nat, m: nat, l: nat, j: nat)
    requires b >= 2 && m >= 1 && Down(m, b, l) <= n && j < l
    ensures Down(m - 1, b, l - j) + 1 < Up(n, b, j) && Up(n, b, j + 1) == Quo(Up(n, b, j), b)
    ensures Quo(Down(m - 1, b, l - j) + 1, b) == Down(m - 1, b, l - (j + 1))
    ensures Rem(Down(m - 1, b, l - j) + 1, b) == 1
  {
    DownGap(m, b, l - j);
    CountAbove(n, b, m, l, j);
    DownNext(m - 1, b, l - j);
    UpStep(n, b, j);
  }

  lemma ClimbEnds(v: Levels, b: nat, n: nat, l: nat, bidx: nat, ridx: nat, mbc: nat)
    requires Shape(v, b, n) && l < |v| && bidx < |v[l]| && mbc <= |v[l]| && mbc <= bidx + 1 && ridx < b
    requires v[l][bidx] == {}
    ensures Climb(v, b, n, l, bidx, ridx, mbc) == None
  {}

  lemma DownNext(w: nat, b: nat, k: nat)
    requires b >= 2 && k >= 1
    ensures Quo(Down(w, b, k) + 1, b) == Down(w, b, k - 1) && Rem(Down(w, b, k) + 1, b) == 1
  {
    IndexNext(Down(w, b, k - 1), b);
    IndexParts(Down(w, b, k - 1), 1, b);
  }

  lemma WordBefore(v: Levels, b: nat, n: nat, x: nat, m: nat, l: nat, j: nat)
    requires b >= 2 && n >= 1 && v == Single(Lengths(n, b), b, x) && m >= 1 && x == Down(m, b, l + 1)
    requires j <= l && j < |v| && Down(m - 1, b, l - j) < |v[j]|
    ensures v[j][Down(m - 1, b, l - j)] == {}
  {
    var bidx := Down(m - 1, b, l - j);
    DownGap(m, b, l - j);
    DownUp(m, b, l + 1, j + 1);
    assert v[j][bidx] == SingleWord(b, x, j, bidx);
  }

  lemma CountAbove(n: nat, b: nat, m: nat, l: nat, j: nat)
    requires b >= 2 && Down(m, b, l) <= n && j <= l
    ensures Down(m, b, l - j) <= Up(n, b, j)
  {
    UpMonotone(Down(m, b, l), n, b, j);
    DownUp(m, b, l, j);
  }

  /** If the bucket count is not aligned, some bitmap has a member that findnext misses. */
  lemma FindNextMisses(n: nat, b: nat) returns (v: Levels, idx: nat, x: nat)
    requires b >= 2 && n >= 1 && !Aligned(n, b)
    ensures Valid(v, b, n) && Quo(idx, b) < n
    ensures x in Members(v, b) && idx <= x && FindNext(v, b, n, idx) == None
  {
    var l := OddLevel(n, b);
    var m := Up(n, b, l);
    x := Down(m, b, l + 1);
    idx := Down(m - 1, b, l + 1);
    DownGap(m, b, l);
    DownGap(m, b, l + 1);
    IndexParts(Down(m, b, l), 0, b);
    IndexParts(Down(m - 1, b, l), 0, b);
    v := Single(Lengths(n, b), b, x);
    SingleValid(n, b, x);
    forall k: nat | k <= l && k < |v| && Down(m - 1, b, l - k) < |v[k]| ensures v[k][Down(m - 1, b, l - k)] == {} {
      WordBefore(v, b, n, x, m, l, k);
    }
    ClimbMisses(v, b, n, m, l, 0);
  }

  /** findnext finds whatever there is, in every bitmap of n buckets. */
  ghost predicate Complete(n: nat, b: nat)
    requires b >= 2
  {
    forall v, idx :: Valid(v, b, n) && Quo(idx, b) < n && FindNext(v, b, n, idx) == None ==> NoneFrom(v, b, idx)
  }

  /** findnext is complete exactly for the bucket counts k * b^j with k below b. */
  lemma CompleteIffAligned(n: nat, b: nat)
    requires b >= 2 && n >= 1
    ensures Complete(n, b) <==> Aligned(n, b)
  {
    if Aligned(n, b) {
      forall v, idx | Valid(v, b, n) && Quo(idx, b) < n && FindNext(v, b, n, idx) == None ensures NoneFrom(v, b, idx) {
        FindNextIsLeast(v, b, n, idx);
      }
    } else {
      var v, idx, x := FindNextMisses(n, b);
      assert !NoneFrom(v, b, idx);
    }
  }

  /** The bits of idx's word and the words above are consistent again. */
  lemma Closed(v: Levels, b: nat, l: nat, j: nat)
    requires b > 0 && AgreesBut(v, b, l, j) && (l >= |v| || l == 0 || Linked(v, b, l, j))
    ensures Agrees(v, b)
  {
    forall k, i: nat | 1 <= k < |v| ensures Linked(v, b, k, i) {}
  }
}
