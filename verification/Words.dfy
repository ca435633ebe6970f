/** Machine words as sets of bit positions, and the scans over arrays of words. */
module Words {
  const BITS: nat := 64

  type Word = w: set<nat> | forall i <- w :: i < BITS witness {}

  const FULL: Word := set i: nat | i < BITS :: i

  function Not(w: Word): Word { FULL - w }

  /** w & ~bitmask(idx): the bits from idx on. */
  function From(w: Word, idx: nat): Word { set i <- w | idx <= i :: i }

  /** The bits that a scan looks for. */
  function Sought(w: Word, findset: bool): Word { if findset then w else Not(w) }

  /** The least element of s from `from` on, or lim if there is none below lim. */
  function Least(s: set<nat>, from: nat, lim: nat): (r: nat)
    ensures from <= lim ==> from <= r <= lim
    ensures r < lim ==> r in s
    ensures forall i :: from <= i < r && i < lim ==> i !in s
    decreases lim - from
  {
    if lim <= from then lim else if from in s then from else Least(s, from + 1, lim)
  }

  lemma LeastIs(s: set<nat>, from: nat, lim: nat, r: nat)
    requires from <= r <= lim && (r < lim ==> r in s) && forall i :: from <= i < r ==> i !in s
    ensures Least(s, from, lim) == r
  {}

  /** Count trailing zeros, or the width if there is no bit. */
  function Lsb(w: Word): nat { Least(w, 0, BITS) }

  lemma {:induction false} LsbFrom(w: Word, idx: nat)
    requires idx <= BITS
    ensures Lsb(From(w, idx)) == Least(w, idx, BITS)
  {
    LeastIs(From(w, idx), 0, BITS, Least(w, idx, BITS));
  }

  lemma LsbAll(w: Word)
    ensures From(w, 0) == w && (Lsb(w) < BITS <==> w != {})
  {
    if w != {} { var x :| x in w; assert Lsb(w) <= x; }
  }

  /** The greatest element below lim, or 0. */
  function Greatest(s: set<nat>, lim: nat): (r: nat)
    ensures r < lim || r == 0
    ensures r in s || (r == 0 && forall i :: 0 <= i < lim ==> i !in s)
    ensures forall i :: r < i < lim ==> i !in s
  {
    if lim == 0 then 0 else if lim - 1 in s then lim - 1 else Greatest(s, lim - 1)
  }

  lemma GreatestIs(s: set<nat>, lim: nat, r: nat)
    requires (r in s && r < lim) || (r == 0 && forall i :: 0 <= i < lim ==> i !in s)
    requires forall i :: r < i < lim ==> i !in s
    ensures Greatest(s, lim) == r
  {}

  /** The numbers below n. */
  function Below(n: nat): (s: set<nat>)
    ensures forall p: nat :: p in s <==> p < n
  {
    if n == 0 then {} else Below(n - 1) + {n - 1}
  }

  /** The bits of an array of words, numbered through. */
  function Flat(data: seq<Word>, findset: bool): set<nat> {
    set p <- Below(|data| * BITS) | p % BITS in Sought(data[p / BITS], findset) :: p
  }

  lemma FlatAt(data: seq<Word>, findset: bool, i: nat, r: nat)
    requires i < |data| && r < BITS
    ensures i * BITS + r in Flat(data, findset) <==> r in Sought(data[i], findset)
  {
    var p := i * BITS + r;
    assert p / BITS == i && p % BITS == r && p in Below(|data| * BITS);
  }

  lemma WordLeast(data: seq<Word>, findset: bool, i: nat, from: nat)
    requires i < |data| && from < BITS
    ensures var b := Least(Sought(data[i], findset), from, BITS);
      && (b < BITS ==> i * BITS + b in Flat(data, findset))
      && (forall p: nat :: i * BITS + from <= p < i * BITS + b ==> p !in Flat(data, findset))
  {
    var b := Least(Sought(data[i], findset), from, BITS);
    if b < BITS { FlatAt(data, findset, i, b); }
    forall p: nat | i * BITS + from <= p < i * BITS + b ensures p !in Flat(data, findset) {
      FlatAt(data, findset, i, p - i * BITS);
      assert i * BITS + (p - i * BITS) == p;
    }
  }

  /** One word of a scan: its bits in the flat numbering. */
  lemma WordScan(data: seq<Word>, findset: bool, i: nat, from: nat)
    requires i < |data| && from < BITS
    ensures var b := Lsb(From(Sought(data[i], findset), from));
      && from <= b <= BITS
      && (b < BITS ==> i * BITS + b in Flat(data, findset))
      && (forall p: nat :: i * BITS + from <= p < i * BITS + b ==> p !in Flat(data, findset))
  {
    LsbFrom(Sought(data[i], findset), from);
    WordLeast(data, findset, i, from);
  }

  /** Platform.h multiscan_next: the first sought bit from idx on. */
  method MultiscanNext(data: array<Word>, idx: nat, findset: bool) returns (result: nat)
    ensures result == Least(Flat(data[..], findset), idx, data.Length * BITS)
  {
    var n := data.Length;
    if n * BITS <= idx { return n * BITS; }
    var i := idx / BITS;
    result := i * BITS;
    ghost var from: nat := idx % BITS;
    var datafield := From(Sought(data[i], findset), idx % BITS);
    while true
      invariant i < n && from < BITS && result == i * BITS && datafield == From(Sought(data[i], findset), from)
      invariant idx <= i * BITS + from
      invariant forall p: nat :: idx <= p < i * BITS + from ==> p !in Flat(data[..], findset)
      decreases n - i
    {
      WordScan(data[..], findset, i, from);
      var b := Lsb(datafield);
      result := result + b;
      if b < BITS { break; }
      i := i + 1;
      if i == n { break; }
      datafield := Sought(data[i], findset);
      from := 0;
      assert datafield == From(datafield, 0);
    }
    LeastIs(Flat(data[..], findset), idx, n * BITS, result);
  }

  /** The first i words are scanned; with the mask still set there was no hit. */
  ghost predicate Scanned(data: seq<Word>, findset: bool, i: nat, result: nat, mask: bool) {
    && (forall p: nat :: p < result ==> p !in Flat(data, findset))
    && (if mask then result == i * BITS else result < i * BITS && result in Flat(data, findset))
  }

  lemma ScanWord(data: seq<Word>, findset: bool, i: nat, result: nat, mask: bool)
    requires i < |data| && Scanned(data, findset, i, result, mask)
    ensures var w := Sought(data[i], findset);
      Scanned(data, findset, i + 1, result + (if mask then Lsb(w) else 0), mask && w == {})
  {
    var w := Sought(data[i], findset);
    if mask {
      WordScan(data, findset, i, 0);
      LsbAll(w);
    }
  }

  /** Platform.h multiscan: no early exit, the mask drops what comes after the first hit. */
  method Multiscan(data: array<Word>, findset: bool) returns (result: nat)
    requires data.Length > 0
    ensures result == Least(Flat(data[..], findset), 0, data.Length * BITS)
  {
    result := 0;
    var mask, newmask := true, true;
    var i := 0;
    while i < data.Length
      invariant i <= data.Length && newmask == mask && Scanned(data[..], findset, i, result, mask)
    {
      ScanWord(data[..], findset, i, result, mask);
      var datafield := Sought(data[i], findset);
      var scan := Lsb(datafield);
      if datafield != {} { newmask := false; }
      result := result + (if mask then scan else 0);
      mask := newmask;
      i := i + 1;
    }
    LeastIs(Flat(data[..], findset), 0, data.Length * BITS, result);
  }

  /** The words from i on are scanned downwards; with the mask still set there was no hit. */
  ghost predicate ScannedDown(data: seq<Word>, findset: bool, i: nat, result: nat, mask: bool) {
    if mask then result == 0 && forall p: nat :: p >= i * BITS ==> p !in Flat(data, findset)
    else i * BITS + result in Flat(data, findset) && forall p: nat :: p > i * BITS + result ==> p !in Flat(data, findset)
  }

  lemma ScanWordDown(data: seq<Word>, findset: bool, i: nat, result: nat, mask: bool)
    requires i < |data| && ScannedDown(data, findset, i + 1, result, mask)
    ensures var w := Sought(data[i], findset);
      ScannedDown(data, findset, i, result + (if mask then Greatest(w, BITS) else 0) + (if mask then 0 else BITS),
                  mask && w == {})
  {
    if mask {
      TopOf(data, findset, i, Greatest(Sought(data[i], findset), BITS));
    } else {
      assert i * BITS + (result + BITS) == (i + 1) * BITS + result;
    }
  }

  /** Platform.h multiscan_rev: the highest sought bit, or 0 if there is none. */
  method MultiscanRev(data: array<Word>, findset: bool) returns (result: nat)
    requires data.Length > 0
    ensures result == Greatest(Flat(data[..], findset), data.Length * BITS)
  {
    result := 0;
    var mask, newmask := true, true;
    var i := data.Length;
    while i > 0
      invariant 0 <= i <= data.Length && newmask == mask && ScannedDown(data[..], findset, i, result, mask)
    {
      i := i - 1;
      ScanWordDown(data[..], findset, i, result, mask);
      var datafield := Sought(data[i], findset);
      var scan := Greatest(datafield, BITS);
      if datafield != {} { newmask := false; }
      result := result + (if mask then scan else 0) + (if mask then 0 else BITS);
      mask := newmask;
    }
    GreatestIs(Flat(data[..], findset), data.Length * BITS, result);
  }

  lemma TopOf(data: seq<Word>, findset: bool, i: nat, scan: nat)
    requires i < |data| && scan == Greatest(Sought(data[i], findset), BITS)
    requires forall p: nat :: p >= (i + 1) * BITS ==> p !in Flat(data, findset)
    ensures if Sought(data[i], findset) != {} then i * BITS + scan in Flat(data, findset)
            else scan == 0 && i * BITS !in Flat(data, findset)
    ensures forall p: nat :: p > i * BITS + scan ==> p !in Flat(data, findset)
  {
    var w := Sought(data[i], findset);
    FlatAt(data, findset, i, scan);
    forall p: nat | i * BITS + scan < p < (i + 1) * BITS ensures p !in Flat(data, findset) {
      FlatAt(data, findset, i, p - i * BITS);
    }
    if w != {} { var x :| x in w; assert scan in w; }
  }
}
