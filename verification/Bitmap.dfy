/** The elementary bitmap: a fixed number of machine words. */
module Bitmaps {
  import opened Words

  /** The union, the intersection and the number of the bits of words 0 to x. */
  function AnyOf(bits: seq<Word>, x: nat): Word
    requires x < |bits|
  {
    if x == 0 then bits[0] else bits[x] + AnyOf(bits, x - 1)
  }

  function AllOf(bits: seq<Word>, x: nat): Word
    requires x < |bits|
  {
    if x == 0 then bits[0] else bits[x] * AllOf(bits, x - 1)
  }

  function CountOf(bits: seq<Word>, x: nat): nat
    requires x < |bits|
  {
    if x == 0 then |bits[0]| else |bits[x]| + CountOf(bits, x - 1)
  }

  lemma {:induction false} AnyOfWords(bits: seq<Word>, x: nat)
    requires x < |bits|
    ensures AnyOf(bits, x) == {} <==> forall i :: 0 <= i <= x ==> bits[i] == {}
  {
    if x > 0 { AnyOfWords(bits, x - 1); }
  }

  lemma {:induction false} AllOfWords(bits: seq<Word>, x: nat)
    requires x < |bits|
    ensures AllOf(bits, x) == FULL <==> forall i :: 0 <= i <= x ==> bits[i] == FULL
  {
    if x > 0 {
      AllOfWords(bits, x - 1);
      if AllOf(bits, x) == FULL {
        assert bits[x] == FULL && AllOf(bits, x - 1) == FULL by {
          forall b | b in FULL ensures b in bits[x] && b in AllOf(bits, x - 1) { assert b in AllOf(bits, x); }
        }
      }
    }
  }

  /** The bits of one word in the flat numbering. */
  function Shifted(w: Word, base: nat): set<nat> { set b <- w :: base + b }

  lemma {:induction false} ShiftedCount(w: Word, base: nat)
    ensures |Shifted(w, base)| == |w|
    decreases |w|
  {
    if w != {} {
      var b :| b in w;
      var rest: Word := w - {b};
      ShiftedCount(rest, base);
      assert w == rest + {b};
      assert Shifted(w, base) == Shifted(rest, base) + {base + b};
      assert base + b !in Shifted(rest, base);
    }
  }

  lemma FlatSplit(bits: seq<Word>, x: nat)
    requires x < |bits|
    ensures Flat(bits[..x + 1], true) == Flat(bits[..x], true) + Shifted(bits[x], x * BITS)
    ensures Flat(bits[..x], true) !! Shifted(bits[x], x * BITS)
  {
    var now, before, last := Flat(bits[..x + 1], true), Flat(bits[..x], true), Shifted(bits[x], x * BITS);
    forall p: nat ensures p in now <==> p in before || p in last {
      if p < x * BITS {
        FlatAt(bits[..x + 1], true, p / BITS, p % BITS);
        FlatAt(bits[..x], true, p / BITS, p % BITS);
      } else if p < (x + 1) * BITS {
        FlatAt(bits[..x + 1], true, x, p - x * BITS);
        assert p in last <==> p - x * BITS in bits[x];
      }
    }
  }

  lemma NoWords(bits: seq<Word>)
    requires bits == []
    ensures Flat(bits, true) == {}
  {}

  lemma SizeSplit(bits: seq<Word>, x: nat)
    requires x < |bits|
    ensures |Flat(bits[..x + 1], true)| == |Flat(bits[..x], true)| + |bits[x]|
  {
    ShiftedCount(bits[x], x * BITS);
    FlatSplit(bits, x);
  }

  lemma {:induction false} CountIsSize(bits: seq<Word>, x: nat)
    requires x < |bits|
    ensures CountOf(bits, x) == |Flat(bits[..x + 1], true)|
  {
    SizeSplit(bits, x);
    if x > 0 { CountIsSize(bits, x - 1); } else { NoWords(bits[..0]); }
  }

  /** Replacing one word by one that differs in the bit of idx alone. */
  lemma OneWord(bits: seq<Word>, idx: nat, w: Word)
    requires idx < |bits| * BITS
    requires var was, r := bits[idx / BITS], idx % BITS; forall b :: b != r ==> (b in w <==> b in was)
    ensures var now := Flat(bits[idx / BITS := w], true);
      now == if idx % BITS in w then Flat(bits, true) + {idx} else Flat(bits, true) - {idx}
  {
    var i := idx / BITS;
    var now := Flat(bits[i := w], true);
    forall p: nat ensures p in now <==> if p == idx then idx % BITS in w else p in Flat(bits, true) {
      if p < |bits| * BITS {
        FlatAt(bits, true, p / BITS, p % BITS);
        FlatAt(bits[i := w], true, p / BITS, p % BITS);
        assert p / BITS == i && p % BITS == idx % BITS ==> p == idx;
      }
    }
  }

  class Bitmap {
    const bits: array<Word>

    ghost predicate Valid()
      reads this, bits
    {
      bits.Length > 0
    }

    ghost function Contents(): set<nat>
      reads this, bits
    {
      Flat(bits[..], true)
    }

    /** All positions of the bitmap. */
    function Range(): set<nat> { Below(bits.Length * BITS) }

    constructor (n: nat)
      requires n > 0
      ensures Valid() && fresh(bits) && bits.Length == n && Contents() == {}
    {
      bits := new Word[n](_ => {});
    }

    method Fill(w: Word)
      modifies bits
      ensures forall i :: 0 <= i < bits.Length ==> bits[i] == w
    {
      for i := 0 to bits.Length
        invariant forall j :: 0 <= j < i ==> bits[j] == w
      {
        bits[i] := w;
      }
    }

    method SetB()
      modifies bits
      ensures Contents() == Range()
    {
      Fill(FULL);
      WordsFull(bits[..]);
    }

    method ClrB()
      modifies bits
      ensures Contents() == {}
    {
      Fill({});
      WordsEmpty(bits[..]);
    }

    method FlpB()
      modifies bits
      ensures Contents() == Range() - old(Contents())
    {
      for i := 0 to bits.Length
        invariant forall j :: 0 <= j < bits.Length ==> bits[j] == if j < i then Not(old(bits[j])) else old(bits[j])
      {
        bits[i] := Not(bits[i]);
      }
      forall p: nat ensures p in Contents() <==> p in Range() && p !in old(Contents()) {}
    }

    method Set(idx: nat)
      requires idx < bits.Length * BITS
      modifies bits
      ensures Contents() == old(Contents()) + {idx}
    {
      OneWord(bits[..], idx, bits[idx / BITS] + {idx % BITS});
      bits[idx / BITS] := bits[idx / BITS] + {idx % BITS};
    }

    method Clr(idx: nat)
      requires idx < bits.Length * BITS
      modifies bits
      ensures Contents() == old(Contents()) - {idx}
    {
      OneWord(bits[..], idx, bits[idx / BITS] - {idx % BITS});
      bits[idx / BITS] := bits[idx / BITS] - {idx % BITS};
    }

    method Flp(idx: nat)
      requires idx < bits.Length * BITS
      modifies bits
      ensures Contents() == if idx in old(Contents()) then old(Contents()) - {idx} else old(Contents()) + {idx}
    {
      var w, r := bits[idx / BITS], idx % BITS;
      OneWord(bits[..], idx, if r in w then w - {r} else w + {r});
      bits[idx / BITS] := if r in w then w - {r} else w + {r};
    }

    method Test(idx: nat) returns (r: bool)
      requires idx < bits.Length * BITS
      ensures r <==> idx in Contents()
    {
      r := idx % BITS in bits[idx / BITS];
    }

    method Empty() returns (r: bool)
      requires Valid()
      ensures r <==> Contents() == {}
    {
      r := AnyOf(bits[..], bits.Length - 1) == {};
      EmptyWords(bits[..]);
    }

    method Full() returns (r: bool)
      requires Valid()
      ensures r <==> Contents() == Range()
    {
      r := AllOf(bits[..], bits.Length - 1) == FULL;
      FullWords(bits[..]);
    }

    method Count() returns (r: nat)
      requires Valid()
      ensures r == |Contents()|
    {
      r := CountOf(bits[..], bits.Length - 1);
      CountIsSize(bits[..], bits.Length - 1);
      assert bits[..][..bits.Length] == bits[..];
    }

    method Find(findset: bool) returns (r: nat)
      requires Valid()
      ensures r == Least(if findset then Contents() else Range() - Contents(), 0, bits.Length * BITS)
    {
      r := Multiscan(bits, findset);
      FlatComplement(bits[..]);
    }

    method FindNext(idx: nat, findset: bool) returns (r: nat)
      requires Valid()
      ensures r == Least(if findset then Contents() else Range() - Contents(), idx, bits.Length * BITS)
    {
      r := MultiscanNext(bits, idx, findset);
      FlatComplement(bits[..]);
    }
  }

  lemma WordsEmpty(bits: seq<Word>)
    ensures Flat(bits, true) == {} <==> forall i :: 0 <= i < |bits| ==> bits[i] == {}
  {
    forall i, b | 0 <= i < |bits| && b in bits[i] ensures i * BITS + b in Flat(bits, true) { FlatAt(bits, true, i, b); }
  }

  lemma WordsFull(bits: seq<Word>)
    ensures Flat(bits, true) == Below(|bits| * BITS) <==> forall i :: 0 <= i < |bits| ==> bits[i] == FULL
  {
    if Flat(bits, true) == Below(|bits| * BITS) {
      forall i | 0 <= i < |bits| ensures bits[i] == FULL {
        forall b | b in FULL ensures b in bits[i] { FlatAt(bits, true, i, b); }
      }
    }
  }

  lemma FlatComplement(bits: seq<Word>)
    ensures Flat(bits, false) == Below(|bits| * BITS) - Flat(bits, true)
  {}

  lemma EmptyWords(bits: seq<Word>)
    requires |bits| > 0
    ensures AnyOf(bits, |bits| - 1) == {} <==> Flat(bits, true) == {}
  {
    AnyOfWords(bits, |bits| - 1);
    WordsEmpty(bits);
  }

  lemma FullWords(bits: seq<Word>)
    requires |bits| > 0
    ensures AllOf(bits, |bits| - 1) == FULL <==> Flat(bits, true) == Below(|bits| * BITS)
  {
    AllOfWords(bits, |bits| - 1);
    WordsFull(bits);
  }
}
