/** HierarchicalBitmap: one array of B-bit words for each level, updated in place. */
module HierarchicalBitmaps {
  import opened Division
  import opened Words
  import opened Hierarchy
  import opened Wrappers

  const WORD_LIMIT: nat := 0x1_0000_0000_0000_0000

  /** The arrays of all levels, zeroed. */
  method Allocate(b: nat, levels: nat, bitcount: nat) returns (maps: seq<array<Bits>>)
    requires b >= 2 && levels > 0 && bitcount > 0
    ensures |maps| == levels && fresh(maps)
    ensures forall i, j :: 0 <= i < j < levels ==> maps[i] != maps[j]
    ensures forall l :: 0 <= l < levels ==> maps[l].Length > 0
    ensures maps[0].Length == DivUp(bitcount, b) && maps[levels - 1].Length == TopCount(bitcount, b, levels)
    ensures forall l :: 1 <= l < levels ==> maps[l].Length == DivUp(maps[l - 1].Length, b)
    ensures forall l, w :: 0 <= l < levels && 0 <= w < maps[l].Length ==> maps[l][w] == {}
    {
    maps := [];
    var count := bitcount;
    for l := 0 to levels
      invariant |maps| == l && fresh(maps) && count > 0
      invariant count == (if l == 0 then bitcount else maps[l - 1].Length)
      invariant TopCount(bitcount, b, levels) == TopCount(count, b, levels - l)
      invariant forall i, j :: 0 <= i < j < l ==> maps[i] != maps[j]
      invariant forall k :: 0 <= k < l ==> maps[k].Length > 0
      invariant l > 0 ==> maps[0].Length == DivUp(bitcount, b)
      invariant forall k :: 1 <= k < l ==> maps[k].Length == DivUp(maps[k - 1].Length, b)
      invariant forall k, w :: 0 <= k < l && 0 <= w < maps[k].Length ==> maps[k][w] == {}
    {
      count := DivUp(count, b);
      var level := new Bits[count](_ => {});
      maps := maps + [level];
    }
  }

  /** Levels of the right lengths with no bit set are valid and empty. */
  lemma Zeroed(v: Levels, b: nat, n: nat)
    requires b >= 2 && n >= 1 && |v| >= 1 && |v[0]| == n && |v[|v| - 1]| == 1
    requires forall l :: 0 <= l < |v| ==> |v[l]| > 0
    requires forall l :: 1 <= l < |v| ==> |v[l]| == DivUp(|v[l - 1]|, b)
    requires forall l, w :: 0 <= l < |v| && 0 <= w < |v[l]| ==> v[l][w] == {}
    ensures Hierarchy.Valid(v, b, n) && Members(v, b) == {}
  {
    forall l, w | 0 <= l < |v| && 0 <= w < |v[l]| ensures Fits(v[l][w], b) { assert v[l][w] == {}; }
    forall l, j: nat | 1 <= l < |v| ensures Linked(v, b, l, j) {}
  }

  /** end - start of a range clipped at max, in machine words. */
  function RangeCount(first: nat, limit: nat, max: nat): nat {
    ((if limit > max then max else limit) - first) % WORD_LIMIT
  }

  /** The members of the run from first to limit that lie below max. */
  function RangePart(c: set<nat>, first: nat, limit: nat, max: nat): set<nat> {
    set y <- c | first <= y < limit && y < max :: y
  }

  lemma {:induction false} IntervalSize(s: set<nat>, from: nat, end: nat)
    requires from <= end && forall y: nat :: y in s <==> from <= y < end
    ensures |s| == end - from
    decreases end
  {
    if from == end {
      assert s == {};
    } else {
      IntervalSize(s - {end - 1}, from, end - 1);
    }
  }

  /** The length that findrange computes is the number of members of the clipped run if and
      only if the run does not start beyond max. */
  lemma CountIsRight(c: set<nat>, first: nat, limit: nat, max: nat)
    requires first < limit < WORD_LIMIT && forall y :: first <= y < limit ==> y in c
    ensures RangeCount(first, limit, max) == |RangePart(c, first, limit, max)| <==> first <= max
  {
    var part, end := RangePart(c, first, limit, max), if limit > max then max else limit;
    if first <= max {
      forall y: nat ensures y in part <==> first <= y < end { assert first <= y < limit ==> y in c; }
      IntervalSize(part, first, end);
    } else {
      assert part == {};
    }
  }

  /** A valid bitmap for which findrange from 0 with max 3 finds the run 5..6 and reports a
      length of almost the whole word. */
  lemma RangeWraps() returns (v: Levels)
    ensures Hierarchy.Valid(v, 64, 1) && Members(v, 64) == {5} && FindNext(v, 64, 1, 0) == Some(5)
    ensures RangeCount(5, 6, 3) == WORD_LIMIT - 2 && RangePart(Members(v, 64), 5, 6, 3) == {}
  {
    v := Single(Lengths(1, 64), 64, 5);
    SingleValid(1, 64, 5);
    FindNextIsLeast(v, 64, 1, 0);
    assert 5 in Members(v, 64);
  }

  class HierarchicalBitmap {
    const B: nat
    const bitmaps: seq<array<Bits>>
    const maxBucketCount: nat

    ghost function View(): Levels
      reads bitmaps
    {
      seq(|bitmaps|, l requires 0 <= l < |bitmaps| reads bitmaps => bitmaps[l][..])
    }

    ghost predicate Apart() {
      forall i, j :: 0 <= i < j < |bitmaps| ==> bitmaps[i] != bitmaps[j]
    }

    ghost predicate Valid()
      reads bitmaps
    {
      Apart() && Hierarchy.Valid(View(), B, maxBucketCount)
    }

    ghost function Contents(): set<nat>
      requires B > 0 && |bitmaps| > 0
      reads bitmaps
    {
      Members(View(), B)
    }

    /** init: every level zeroed. */
    constructor (b: nat, levels: nat, bitcount: nat)
      requires b >= 2 && levels > 0 && bitcount > 0
      requires TopCount(bitcount, b, levels) == 1
      ensures Valid() && B == b && maxBucketCount == DivUp(bitcount, b) && |bitmaps| == levels
      ensures Contents() == {} && fresh(bitmaps)
    {
      B := b;
      maxBucketCount := DivUp(bitcount, b);
      var maps := Allocate(b, levels, bitcount);
      bitmaps := maps;
      new;
      Zeroed(View(), B, maxBucketCount);
    }

    /** Write one word: the view changes in that word alone. */
    method Write(l: nat, w: nat, s: Bits)
      requires Apart() && l < |bitmaps| && w < bitmaps[l].Length
      modifies bitmaps[l]
      ensures View() == Replace(old(View()), l, w, s) && bitmaps[l][w] == s
    {
      ghost var was := View();
      bitmaps[l][w] := s;
      assert View()[l] == was[l][w := s] && View()[l][w] == bitmaps[l][w];
      forall k | 0 <= k < |bitmaps| && k != l ensures View()[k] == was[k] {}
    }

    /** The link of word j of level l - 1 is the only one that may be wrong. */
    ghost predicate Pending(l: nat, j: nat)
      requires B > 0
      reads bitmaps
    {
      && Apart() && Shape(View(), B, maxBucketCount) && AgreesBut(View(), B, l, j)
      && l <= |bitmaps| && (l < |bitmaps| ==> Quo(j, B) < bitmaps[l].Length)
      && (l >= 1 ==> j < bitmaps[l - 1].Length)
    }

    /** Write the word of bit j of level l. */
    method Put(l: nat, w: nat, s: Bits, ghost j: nat)
      requires B > 0 && Pending(l, j) && l < |bitmaps| && w == Quo(j, B) && Fits(s, B)
      requires l >= 1 ==> forall r: nat :: r != Rem(j, B) ==> (r in s <==> r in bitmaps[l][w])
      requires l >= 1 ==> (Rem(j, B) in s <==> bitmaps[l - 1][j] != {})
      modifies bitmaps[l]
      ensures View() == Replace(old(View()), l, w, s) && bitmaps[l][w] == s
      ensures Pending(l + 1, w)
      ensures l > 0 ==> View()[0] == old(View())[0]
    {
      ReplaceShape(View(), B, maxBucketCount, l, w, s);
      ReplaceAgrees(View(), B, maxBucketCount, l, j, s);
      if l + 1 < |bitmaps| { DivUpCovers(w, |View()[l]|, B); assert |View()[l + 1]| == bitmaps[l + 1].Length; }
      Write(l, w, s);
    }

    /** The loop body of set: bit j of level l, in word w at position r, is set. */
    method SetBit(l: nat, w: nat, r: nat, ghost j: nat)
      requires B > 0 && Pending(l, j) && l < |bitmaps| && w == Quo(j, B) && r == Rem(j, B)
      requires l >= 1 ==> bitmaps[l - 1][j] != {}
      modifies bitmaps[l]
      ensures Pending(l + 1, w) && bitmaps[l][w] != {}
      ensures View()[0] == if l == 0 then Added(old(View())[0], j) else old(View())[0]
    {
      assert Fits(View()[l][w], B);
      Put(l, w, bitmaps[l][w] + {r}, j);
    }

    /** No link is wrong any more. */
    lemma Finished(l: nat, j: nat)
      requires B > 0 && Pending(l, j) && (l == 0 || l >= |bitmaps| || Linked(View(), B, l, j))
      ensures Valid()
    {
      Closed(View(), B, l, j);
    }

    /** set(idx, botlevel). */
    method SetFrom(index: nat, botlevel: nat)
      requires B > 0 && Pending(botlevel, index)
      requires botlevel >= 1 ==> bitmaps[botlevel - 1][index] != {}
      modifies bitmaps
      ensures Valid()
      ensures View()[0] == if botlevel == 0 then Added(old(View())[0], index) else old(View())[0]
    {
      ghost var bottom := View()[0];
      var idx: nat := index;
      var l := botlevel;
      while l < |bitmaps|
        invariant botlevel <= l && Pending(l, idx) && (l >= 1 ==> bitmaps[l - 1][idx] != {})
        invariant View()[0] == if botlevel == 0 && l > 0 then Added(bottom, index) else bottom
        invariant l == botlevel ==> idx == index
        decreases |bitmaps| - l
      {
        ghost var j := idx;
        var r: nat;
        idx, r := Parts(idx);
        if r in bitmaps[l][idx] {
          if l == 0 { AddedAlready(View()[0], j); }
          Finished(l, j);
          return;
        }
        SetBit(l, idx, r, j);
        l := l + 1;
      }
      Finished(l, idx);
    }

    function Added(level: seq<Bits>, j: nat): seq<Bits>
      requires B > 0 && Quo(j, B) < |level|
    {
      level[Quo(j, B) := level[Quo(j, B)] + {Rem(j, B)}]
    }

    lemma AddedAlready(level: seq<Bits>, j: nat)
      requires B > 0 && Quo(j, B) < |level| && Rem(j, B) in level[Quo(j, B)]
      ensures Added(level, j) == level
    {
      assert level[Quo(j, B)] + {Rem(j, B)} == level[Quo(j, B)];
    }

    lemma AddedMembers(v: Levels, j: nat)
      requires B > 0 && |bitmaps| > 0 && |v| > 0 && Quo(j, B) < |v[0]| && View()[0] == Added(v[0], j)
      ensures Contents() == Members(v, B) + {j}
    {
      SetMember(v, B, j);
      SameMembers(View(), Replace(v, 0, Quo(j, B), v[0][Quo(j, B)] + {Rem(j, B)}), B);
    }

    /** The loop body of clr: bit j of level l, in word w at position r, is cleared; the loop
        is over if the word still has bits. */
    method ClrBit(l: nat, w: nat, r: nat, ghost j: nat) returns (over: bool)
      requires B > 0 && Pending(l, j) && l < |bitmaps| && w == Quo(j, B) && r == Rem(j, B)
      requires l >= 1 ==> bitmaps[l - 1][j] == {}
      modifies bitmaps[l]
      ensures over <==> bitmaps[l][w] != {}
      ensures if over then Valid() else Pending(l + 1, w)
      ensures View()[0] == if l == 0 then Dropped(old(View())[0], j) else old(View())[0]
    {
      ghost var v := View();
      assert Fits(v[l][w], B);
      Put(l, w, bitmaps[l][w] - {r}, j);
      over := bitmaps[l][w] != {};
      if over {
        if l + 1 < |bitmaps| {
          assert Linked(v, B, l + 1, w);
          StaysLinked(v, B, l, w, bitmaps[l][w]);
        }
        Finished(l + 1, w);
      }
    }

    /** clr(idx, botlevel). */
    method ClrFrom(index: nat, botlevel: nat)
      requires B > 0 && Pending(botlevel, index)
      requires botlevel >= 1 ==> bitmaps[botlevel - 1][index] == {}
      modifies bitmaps
      ensures Valid()
      ensures View()[0] == if botlevel == 0 then Dropped(old(View())[0], index) else old(View())[0]
    {
      ghost var bottom := View()[0];
      var idx: nat := index;
      var l := botlevel;
      while l < |bitmaps|
        invariant botlevel <= l && Pending(l, idx) && (l >= 1 ==> bitmaps[l - 1][idx] == {})
        invariant View()[0] == if botlevel == 0 && l > 0 then Dropped(bottom, index) else bottom
        invariant l == botlevel ==> idx == index
        decreases |bitmaps| - l
      {
        ghost var j := idx;
        var r: nat;
        idx, r := Parts(idx);
        var over := ClrBit(l, idx, r, j);
        if over { return; }
        l := l + 1;
      }
      Finished(l, idx);
    }

    function Dropped(level: seq<Bits>, j: nat): seq<Bits>
      requires B > 0 && Quo(j, B) < |level|
    {
      level[Quo(j, B) := level[Quo(j, B)] - {Rem(j, B)}]
    }

    lemma DroppedMembers(v: Levels, j: nat)
      requires B > 0 && |bitmaps| > 0 && |v| > 0 && Quo(j, B) < |v[0]| && View()[0] == Dropped(v[0], j)
      ensures Contents() == Members(v, B) - {j}
    {
      ClrMember(v, B, j);
      SameMembers(View(), Replace(v, 0, Quo(j, B), v[0][Quo(j, B)] - {Rem(j, B)}), B);
    }

    /** The index is inside the bitmap. */
    predicate InRange(idx: nat)
      requires B > 0
    {
      Quo(idx, B) < maxBucketCount
    }

    method Set(idx: nat)
      requires Valid() && InRange(idx)
      modifies bitmaps
      ensures Valid() && Contents() == old(Contents()) + {idx}
    {
      ghost var v := View();
      SetFrom(idx, 0);
      AddedMembers(v, idx);
    }

    method Clr(idx: nat)
      requires Valid() && InRange(idx)
      modifies bitmaps
      ensures Valid() && Contents() == old(Contents()) - {idx}
    {
      ghost var v := View();
      ClrFrom(idx, 0);
      DroppedMembers(v, idx);
    }

    /** The elements of the bucket of idx, numbered from its first. */
    function Bucket(idx: nat): set<nat>
      requires B > 0
    {
      set r <- Below(B) :: Index(Quo(idx, B), r, B)
    }

    method BlockSet(idx: nat)
      requires Valid() && InRange(idx)
      modifies bitmaps
      ensures Valid() && Contents() == old(Contents()) + Bucket(idx)
    {
      QuoIsDiv(idx, B);
      Put(0, idx / B, Below(B), idx);
      assert 0 in Below(B);
      BlockSetMembers(old(View()), idx);
      label L:
      SetFrom(idx / B, 1);
      SameMembers(View(), old@L(View()), B);
    }

    method BlockClr(idx: nat)
      requires Valid() && InRange(idx)
      modifies bitmaps
      ensures Valid() && Contents() == old(Contents()) - Bucket(idx)
    {
      QuoIsDiv(idx, B);
      Put(0, idx / B, {}, idx);
      BlockClrMembers(old(View()), idx);
      label L:
      ClrFrom(idx / B, 1);
      SameMembers(View(), old@L(View()), B);
    }

    lemma InBucket(idx: nat, x: nat)
      requires B > 0
      ensures x in Bucket(idx) <==> Quo(x, B) == Quo(idx, B)
    {
      PartsIndex(x, B);
      assert Rem(x, B) in Below(B);
      if x in Bucket(idx) {
        var r :| r in Below(B) && x == Index(Quo(idx, B), r, B);
        IndexParts(Quo(idx, B), r, B);
      }
    }

    lemma BlockSetMembers(v: Levels, idx: nat)
      requires B > 0 && |v| > 0 && Quo(idx, B) < |v[0]|
      ensures Members(Replace(v, 0, Quo(idx, B), Below(B)), B) == Members(v, B) + Bucket(idx)
    {
      forall x: nat ensures x in Members(Replace(v, 0, Quo(idx, B), Below(B)), B) <==> x in Members(v, B) || x in Bucket(idx) {
        InBucket(idx, x);
        ReplaceMembers(v, B, Quo(idx, B), Below(B), x);
      }
    }

    lemma BlockClrMembers(v: Levels, idx: nat)
      requires B > 0 && |v| > 0 && Quo(idx, B) < |v[0]|
      ensures Members(Replace(v, 0, Quo(idx, B), {}), B) == Members(v, B) - Bucket(idx)
    {
      forall x: nat ensures x in Members(Replace(v, 0, Quo(idx, B), {}), B) <==> x in Members(v, B) && x !in Bucket(idx) {
        InBucket(idx, x);
        ReplaceMembers(v, B, Quo(idx, B), {}, x);
      }
    }

    method Test(idx: nat) returns (r: bool)
      requires Valid() && InRange(idx)
      ensures r <==> idx in Contents()
    {
      QuoIsDiv(idx, B);
      r := idx % B in bitmaps[0][idx / B];
      MemberIsBit(View(), B, idx);
      assert View()[0][idx / B] == bitmaps[0][idx / B];
    }

    lemma TopWord()
      requires Valid()
      ensures View()[|bitmaps| - 1][0] == {} <==> Contents() == {}
    {
      var v, top := View(), |bitmaps| - 1;
      if v[top][0] != {} {
        FindDownLeast(v, B, maxBucketCount, top, 0);
      } else if Contents() != {} {
        var x :| x in Contents();
        UpStep(x, B, top);
        MemberUp(v, B, maxBucketCount, x, top);
      }
    }

    /** The top word tells whether there is any member. */
    method Empty() returns (r: bool)
      requires Valid()
      ensures r <==> Contents() == {}
    {
      r := bitmaps[|bitmaps| - 1][0] == {};
      assert View()[|bitmaps| - 1][0] == bitmaps[|bitmaps| - 1][0];
      TopWord();
    }

    method BlockEmpty(idx: nat) returns (r: bool)
      requires Valid() && InRange(idx)
      ensures r <==> Bucket(idx) !! Contents()
    {
      QuoIsDiv(idx, B);
      r := bitmaps[0][idx / B] == {};
      assert View()[0][idx / B] == bitmaps[0][idx / B];
      BucketBits(idx);
    }

    method BlockFull(idx: nat) returns (r: bool)
      requires Valid() && InRange(idx)
      ensures r <==> Bucket(idx) <= Contents()
    {
      QuoIsDiv(idx, B);
      r := bitmaps[0][idx / B] == Below(B);
      assert View()[0][idx / B] == bitmaps[0][idx / B];
      BucketBits(idx);
    }

    lemma BucketBits(idx: nat)
      requires Valid() && InRange(idx)
      ensures var w := View()[0][Quo(idx, B)];
        && (w == {} <==> Bucket(idx) !! Contents())
        && (w == Below(B) <==> Bucket(idx) <= Contents())
    {
      var w := View()[0][Quo(idx, B)];
      assert Fits(w, B);
      forall r | r in Below(B) ensures Index(Quo(idx, B), r, B) in Bucket(idx) && (Index(Quo(idx, B), r, B) in Contents() <==> r in w) {
        IndexParts(Quo(idx, B), r, B);
        MemberIsBit(View(), B, Index(Quo(idx, B), r, B));
      }
    }

    /** The least member, or None for the limit value. */
    method Find() returns (r: Option<nat>)
      requires Valid()
      ensures match r case None => Contents() == {} case Some(x) => x in Contents() && forall y :: y in Contents() ==> x <= y
    {
      ghost var v, top := View(), |bitmaps| - 1;
      TopWord();
      var idx: nat := 0;
      var i := |bitmaps| - 1;
      while true
        invariant 0 <= i <= top && idx < bitmaps[i].Length
        invariant if i == top then idx == 0 else v[i][idx] != {} && v[top][0] != {}
        invariant FindDown(v, B, i, idx) == FindDown(v, B, top, 0)
        decreases i
      {
        assert v[i][idx] == bitmaps[i][idx];
        if v[i][idx] != {} { FirstBit(v, B, maxBucketCount, i, idx); }
        var ldx := Least(bitmaps[i][idx], 0, B);
        if ldx == B { return None; }
        IndexIsProduct(idx, ldx, B);
        idx := idx * B + ldx;
        if i == 0 {
          LeastOfAll();
          return Some(idx);
        }
        i := i - 1;
      }
    }

    lemma LeastOfAll()
      requires Valid() && View()[|bitmaps| - 1][0] != {}
      ensures var x := FindDown(View(), B, |bitmaps| - 1, 0);
        x in Contents() && forall y :: y in Contents() ==> x <= y
    {
      var v, top := View(), |bitmaps| - 1;
      FindDownLeast(v, B, maxBucketCount, top, 0);
      forall y | y in Contents() ensures FindDown(v, B, top, 0) <= y {
        UpStep(y, B, top);
        MemberUp(v, B, maxBucketCount, y, top);
      }
    }

    /** Where the loop of findnext stands: still climbing, or descending to its result. */
    ghost predicate OnWay(v: Levels, idx: nat, l: nat, bidx: nat, ridx: nat, mbc: nat, down: bool) {
      && Hierarchy.Valid(v, B, maxBucketCount) && Quo(idx, B) < maxBucketCount
      && l < |v| && bidx < |v[l]| && ridx < B
      && if down then ridx == 0 && v[l][bidx] != {} && FindNext(v, B, maxBucketCount, idx) == Some(FindDown(v, B, l, bidx))
         else mbc <= |v[l]| && FindNext(v, B, maxBucketCount, idx) == Climb(v, B, maxBucketCount, l, bidx, ridx, mbc)
    }

    lemma GoesUp(v: Levels, idx: nat, l: nat, bidx: nat, ridx: nat, mbc: nat, down: bool)
      requires OnWay(v, idx, l, bidx, ridx, mbc, down) && Least(v[l][bidx], ridx, B) == B
      ensures !down
      ensures if bidx + 1 >= mbc then FindNext(v, B, maxBucketCount, idx) == None
              else OnWay(v, idx, l + 1, Quo(bidx + 1, B), Rem(bidx + 1, B), Quo(mbc, B), false)
    {
      if down {
        FirstBit(v, B, maxBucketCount, l, bidx);
      } else if bidx + 1 < mbc {
        ClimbNext(v, B, maxBucketCount, l, bidx, ridx, mbc);
      }
    }

    lemma GoesDown(v: Levels, idx: nat, l: nat, bidx: nat, ridx: nat, mbc: nat, down: bool, left: nat)
      requires OnWay(v, idx, l, bidx, ridx, mbc, down) && Least(v[l][bidx], ridx, B) < B
      ensures var j := Index(bidx, Least(v[l][bidx], ridx, B), B);
        if l == 0 then FindNext(v, B, maxBucketCount, idx) == Some(j) else OnWay(v, idx, l - 1, j, 0, left, true)
    {
      BitBelow(v, l, bidx, Least(v[l][bidx], ridx, B));
    }

    /** findnext, the loop: it climbs, then only descends. */
    method NextFrom(idx: nat) returns (r: Option<nat>)
      requires Valid() && InRange(idx)
      ensures r == FindNext(View(), B, maxBucketCount, idx)
    {
      ghost var v := View();
      var bidx: nat, ridx: nat := Parts(idx);
      var mbc: nat := maxBucketCount;
      var l: nat := 0;
      ghost var down := false;
      while true
        invariant OnWay(v, idx, l, bidx, ridx, mbc, down)
        decreases if down then l else |v| + |v| - l
      {
        ViewAt(l, bidx);
        var lidx := Least(bitmaps[l][bidx], ridx, B);
        if lidx == B {
          GoesUp(v, idx, l, bidx, ridx, mbc, down);
          if bidx + 1 >= mbc { return None; }
          bidx, ridx := Parts(bidx + 1);
          var left: nat;
          mbc, left := Parts(mbc);
          l := l + 1;
        } else {
          GoesDown(v, idx, l, bidx, ridx, mbc, down, Index(mbc, 0, B));
          bidx := Numbered(bidx, lidx);
          if l == 0 { return Some(bidx); }
          ridx := 0;
          mbc := Numbered(mbc, 0);
          l := l - 1;
          down := true;
        }
      }
    }

    lemma ViewAt(l: nat, w: nat)
      requires l < |View()| && w < |View()[l]|
      ensures l < |bitmaps| && w < bitmaps[l].Length && bitmaps[l][w] == View()[l][w]
    {}

    /** x / B and x % B. */
    method Parts(x: nat) returns (w: nat, r: nat)
      requires B > 0
      ensures w == Quo(x, B) && r == Rem(x, B)
    {
      QuoIsDiv(x, B);
      w, r := x / B, x % B;
    }

    /** w * B + r. */
    method Numbered(w: nat, r: nat) returns (x: nat)
      ensures x == Index(w, r, B)
    {
      IndexIsProduct(w, r, B);
      x := w * B + r;
    }

    lemma BitBelow(v: Levels, l: nat, w: nat, r: nat)
      requires Hierarchy.Valid(v, B, maxBucketCount) && l < |v| && w < |v[l]| && r < B && r in v[l][w]
      ensures l > 0 ==> Index(w, r, B) < |v[l - 1]| && v[l - 1][Index(w, r, B)] != {}
    {
      IndexParts(w, r, B);
      if l > 0 { assert Linked(v, B, l, Index(w, r, B)); }
    }

    /** The least member from idx on, idx included; when it reports none there is none,
        provided the bucket count is k * B^j with k below B. */
    method FindNextMember(idx: nat) returns (r: Option<nat>)
      requires Valid() && InRange(idx)
      ensures r.Some? ==> r.value in Contents() && idx <= r.value && forall y :: y in Contents() && idx <= y ==> r.value <= y
      ensures r.None? && Aligned(maxBucketCount, B) ==> forall y :: y in Contents() ==> y < idx
      ensures r == FindNext(View(), B, maxBucketCount, idx)
    {
      r := NextFrom(idx);
      FindNextIsLeast(View(), B, maxBucketCount, idx);
    }

    ghost predicate Run(from: nat, end: nat)
      requires B > 0 && |bitmaps| > 0
      reads bitmaps
    {
      from < end && forall y :: from <= y < end ==> y in Contents()
    }

    /** Scan to the end of the bucket. */
    method ScanBucket(from: nat) returns (end: nat)
      requires Valid() && from in Contents()
      ensures Run(from, end) && (Rem(end, B) == 0 || end !in Contents())
    {
      MemberIsBit(View(), B, from);
      end := from + 1;
      while true
        invariant Run(from, end) && InRange(end - 1)
        decreases Index(maxBucketCount, 0, B) - end
      {
        QuoIsDiv(end, B);
        if end % B == 0 { break; }
        NextParts(end - 1, B);
        InsideMap(end);
        var t := Test(end);
        if !t { break; }
        end := end + 1;
      }
    }

    /** Scan full buckets. */
    method ScanFullBuckets(from: nat, start: nat) returns (end: nat)
      requires Valid() && Run(from, start) && (Rem(start, B) == 0 || start !in Contents())
      ensures Run(from, end)
    {
      end := start;
      while true
        invariant Run(from, end) && (Rem(end, B) == 0 || end !in Contents())
        decreases Index(maxBucketCount, 0, B) - end
      {
        QuoIsDiv(end, B);
        if end / B >= maxBucketCount { break; }
        var full := BlockFull(end);
        if !full { break; }
        FullBucket(end);
        InsideMap(end);
        end := end + B;
      }
    }

    /** Scan the last, non-full bucket. */
    method ScanLast(from: nat, start: nat) returns (end: nat)
      requires Valid() && Run(from, start)
      ensures Run(from, end) && end !in Contents()
    {
      end := start;
      while true
        invariant Run(from, end)
        decreases Index(maxBucketCount, 0, B) - end
      {
        QuoIsDiv(end, B);
        MemberIsBit(View(), B, end);
        if end / B >= maxBucketCount { break; }
        InsideMap(end);
        var t := Test(end);
        if !t { break; }
        end := end + 1;
      }
    }

    /** findrange: the maximal run of members from the first one at or after start, clipped
        at max; the length is a machine word and wraps when the run starts after max. */
    method FindRange(start: nat, max: nat) returns (first: Option<nat>, count: nat, ghost limit: nat)
      requires Valid() && InRange(start)
      ensures first == FindNext(View(), B, maxBucketCount, start)
      ensures first.None? ==> count == 0
      ensures first.Some? ==>
        && Run(first.value, limit) && limit !in Contents() && count == RangeCount(first.value, limit, max)
        && (limit < WORD_LIMIT ==>
              (count == |RangePart(Contents(), first.value, limit, max)| <==> first.value <= max))
    {
      limit := 0;
      first := FindNextMember(start);
      if first.None? { return None, 0, 0; }
      var from := first.value;
      var end := ScanBucket(from);
      end := ScanFullBuckets(from, end);
      end := ScanLast(from, end);
      limit := end;
      if limit < WORD_LIMIT { CountIsRight(Contents(), from, limit, max); }
      if end > max { end := max; }
      count := (end - from) % WORD_LIMIT;
    }

    lemma InsideMap(x: nat)
      requires B > 0 && InRange(x)
      ensures x < Index(maxBucketCount, 0, B)
    {
      PartsIndex(x, B);
      IndexOrder(Quo(x, B), Rem(x, B), maxBucketCount, 0, B);
    }

    lemma FullBucket(x: nat)
      requires Valid() && InRange(x) && Bucket(x) <= Contents() && (Rem(x, B) == 0 || x !in Contents())
      ensures Rem(x, B) == 0 && Rem(x + B, B) == 0 && forall y :: x <= y < x + B ==> y in Contents()
    {
      PartsIndex(x, B);
      assert Rem(x, B) in Below(B) && x in Bucket(x);
      forall y | x <= y < x + B ensures y in Contents() {
        WordSpan(x, B, y);
        PartsIndex(y, B);
        assert Rem(y, B) in Below(B) && y in Bucket(x);
      }
    }
  }

  lemma SameMembers(v: Levels, v': Levels, b: nat)
    requires b > 0 && |v| > 0 && |v'| > 0
    ensures v[0] == v'[0] ==> Members(v, b) == Members(v', b)
  {
    if v[0] == v'[0] {
      forall x: nat ensures x in Members(v, b) <==> x in Members(v', b) { MemberIsBit(v, b, x); MemberIsBit(v', b, x); }
    }
  }

  /** The number of words of the top level. */
  function TopCount(bitcount: nat, b: nat, levels: nat): (n: nat)
    requires b >= 2 && bitcount > 0
    ensures n > 0
  {
    if levels == 0 then bitcount else TopCount(DivUp(bitcount, b), b, levels - 1)
  }
}
