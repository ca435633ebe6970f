/** Division by recursion, which keeps the proofs free of non-linear arithmetic. */
module Division {
  /** x / b, x % b and w * b + r. */
  function Quo(x: nat, b: nat): (q: nat)
    requires b > 0
    ensures q <= x && (b >= 2 && x > 0 ==> q < x)
  {
    if x < b then 0 else 1 + Quo(x - b, b)
  }

  function Rem(x: nat, b: nat): (r: nat)
    requires b > 0
    ensures r < b
  {
    if x < b then x else Rem(x - b, b)
  }

  function Index(w: nat, r: nat, b: nat): (x: nat)
    ensures x >= r
  {
    if w == 0 then r else b + Index(w - 1, r, b)
  }

  lemma QuoIsDiv(x: nat, b: nat)
    requires b > 0
    ensures Quo(x, b) == x / b && Rem(x, b) == x % b
  {
    PartsIndex(x, b);
    IndexIsProduct(Quo(x, b), Rem(x, b), b);
    OneQuotient(x / b, Quo(x, b), x % b, Rem(x, b), b);
  }

  lemma OneQuotient(q: nat, w: nat, r: nat, r': nat, b: nat)
    requires r < b && r' < b && q * b + r == w * b + r'
    ensures q == w && r == r'
  {
    assert (q < w ==> (q + 1) * b <= w * b) && (w < q ==> (w + 1) * b <= q * b);
  }

  lemma {:induction false} IndexIsProduct(w: nat, r: nat, b: nat)
    ensures Index(w, r, b) == w * b + r
  {
    if w > 0 { IndexIsProduct(w - 1, r, b); }
  }

  lemma {:induction false} IndexParts(w: nat, r: nat, b: nat)
    requires r < b
    ensures Quo(Index(w, r, b), b) == w && Rem(Index(w, r, b), b) == r
  {
    if w > 0 { IndexParts(w - 1, r, b); }
  }

  lemma {:induction false} PartsIndex(x: nat, b: nat)
    requires b > 0
    ensures Index(Quo(x, b), Rem(x, b), b) == x
  {
    if x >= b { PartsIndex(x - b, b); }
  }

  lemma {:induction false} IndexOrder(w: nat, r: nat, w': nat, r': nat, b: nat)
    requires r < b && r' < b
    ensures Index(w, r, b) < Index(w', r', b) <==> w < w' || (w == w' && r < r')
  {
    if w > 0 && w' > 0 { IndexOrder(w - 1, r, w' - 1, r', b); }
  }

  /** Order by word and by position in the word. */
  lemma Order(x: nat, y: nat, b: nat)
    requires b > 0
    ensures x < y <==> Quo(x, b) < Quo(y, b) || (Quo(x, b) == Quo(y, b) && Rem(x, b) < Rem(y, b))
  {
    PartsIndex(x, b);
    PartsIndex(y, b);
    IndexOrder(Quo(x, b), Rem(x, b), Quo(y, b), Rem(y, b), b);
  }

  /** The next number is in the same word, or the first of the next word. */
  lemma {:induction false} NextParts(x: nat, b: nat)
    requires b > 0
    ensures if Rem(x + 1, b) == 0 then Quo(x + 1, b) == Quo(x, b) + 1 else Quo(x + 1, b) == Quo(x, b)
  {
    if x >= b {
      NextParts(x - b, b);
      assert x + 1 - b == x - b + 1;
    } else if x + 1 == b {
      assert Quo(x + 1, b) == 1 + Quo(0, b) && Rem(x + 1, b) == Rem(0, b);
    } else {
      assert Rem(x + 1, b) == x + 1;
    }
  }

  lemma {:induction false} IndexSucc(w: nat, b: nat)
    ensures Index(w + 1, 0, b) == Index(w, 0, b) + b
  {
    if w > 0 { IndexSucc(w - 1, b); }
  }

  /** The b numbers from a multiple of b on are one word. */
  lemma WordSpan(x: nat, b: nat, y: nat)
    requires b > 0 && Rem(x, b) == 0
    ensures x <= y < x + b <==> Quo(y, b) == Quo(x, b)
  {
    PartsIndex(x, b);
    PartsIndex(y, b);
    IndexSucc(Quo(x, b), b);
    IndexOrder(Quo(y, b), Rem(y, b), Quo(x, b) + 1, 0, b);
    IndexOrder(Quo(y, b), Rem(y, b), Quo(x, b), 0, b);
  }

  /** The words needed for n bits. */
  function DivUp(n: nat, b: nat): nat
    requires n > 0 && b > 0
  {
    Quo(n - 1, b) + 1
  }

  lemma DivUpCovers(j: nat, n: nat, b: nat)
    requires b > 0 && n > 0 && j < n
    ensures Quo(j, b) < DivUp(n, b)
  {
    Order(n - 1, j, b);
  }
}
