/** Integers read back from JSON: rounded to the nearest IEEE 754 binary64 value, ties to even
    (sections 3.6 and 4.3.1 of IEEE 754-2019). */
module Binary64 {
  const PRECISION: nat := 0x20_0000_0000_0000 // 2^53
  const INT64_END: int := 0x8000_0000_0000_0000

  type Int64 = n: int | -INT64_END <= n < INT64_END

  /** The distance between neighbouring binary64 values at n. */
  function Spacing(n: nat): (u: nat)
    ensures u > 0
  {
    if n < PRECISION then 1 else 2 * Spacing(n / 2)
  }

  function RoundNat(n: nat): nat {
    var u := Spacing(n);
    var q, r := n / u, n % u;
    if 2 * r < u || (2 * r == u && q % 2 == 0) then q * u else (q + 1) * u
  }

  function Round(n: int): int {
    if n >= 0 then RoundNat(n) else 0 - RoundNat(-n)
  }

  function Abs(n: int): nat {
    if n >= 0 then n else -n
  }

  /** An integer survives exactly when it is a multiple of the spacing at its size. */
  predicate Representable(n: int) {
    Abs(n) % Spacing(Abs(n)) == 0
  }

  lemma DivMod(n: nat, u: nat)
    requires u > 0
    ensures n == n / u * u + n % u && (n / u + 1) * u == n / u * u + u
  {
  }

  lemma RoundExact(n: int)
    ensures Round(n) == n <==> Representable(n)
  {
    DivMod(Abs(n), Spacing(Abs(n)));
  }

  /** Rounding moves by at most half the spacing, and to no other side of 0. */
  lemma RoundNear(n: int)
    ensures 2 * Abs(Round(n) - n) <= Spacing(Abs(n))
    ensures Round(n) == 0 <==> n == 0
  {
    DivMod(Abs(n), Spacing(Abs(n)));
    SpacingSmall(Abs(n));
  }

  lemma {:induction false} SpacingSmall(n: nat)
    ensures n > 0 ==> Spacing(n) <= n
  {
    if n >= PRECISION {
      SpacingSmall(n / 2);
    }
  }

  /** Up to 2^53 every integer survives, and 2^53 + 1 is the first that does not. */
  lemma ExactUpTo53Bits(n: int)
    requires Abs(n) <= 0x20_0000_0000_0000
    ensures Round(n) == n
    ensures Round(0x20_0000_0000_0001) == 0x20_0000_0000_0000
    ensures Round(0x20_0000_0000_0003) == 0x20_0000_0000_0004
  {
    assert Spacing(PRECISION) == 2 && Spacing(PRECISION + 1) == 2 && Spacing(PRECISION + 3) == 2;
    RoundExact(n);
  }

  /** The spacing doubles with each power of two from 2^53 on: a value has at most 53 significant bits. */
  lemma {:induction false} SpacingBounds(n: nat)
    ensures n < PRECISION * Spacing(n) && (Spacing(n) == 1 || PRECISION * Spacing(n) <= 2 * n)
  {
    if n >= PRECISION {
      SpacingBounds(n / 2);
    }
  }

  /** And that determines it. */
  lemma {:induction false} SameSpacing(m: nat, n: nat)
    requires m < PRECISION * Spacing(n) && (Spacing(n) == 1 || PRECISION * Spacing(n) <= 2 * m)
    ensures Spacing(m) == Spacing(n)
    decreases n
  {
    if n >= PRECISION {
      SameSpacing(m / 2, n / 2);
    }
  }

  lemma {:induction false} SpacingAtTop(n: nat)
    ensures Spacing(PRECISION * Spacing(n)) == 2 * Spacing(n)
  {
    if n >= PRECISION {
      SpacingAtTop(n / 2);
      assert PRECISION * Spacing(n) / 2 == PRECISION * Spacing(n / 2);
    } else {
      assert Spacing(PRECISION / 2) == 1;
    }
  }

  lemma Factors(a: int, b: int, u: nat)
    requires u > 0
    ensures a < b <==> a * u < b * u
    ensures (a + 1) * u == a * u + u
  {
    if a < b {
      assert (b - a) * u > 0;
    } else {
      assert (a - b) * u >= 0;
    }
  }

  lemma Between(q: int, u: nat, m: int)
    requires u > 0 && q * u < m < (q + 1) * u
    ensures m % u != 0
  {
    var k := m / u;
    Factors(q, k, u);
    Factors(k, q + 1, u);
  }

  lemma Quotient(k: nat, u: nat)
    requires u > 0
    ensures (k * u) % u == 0 && k * u / u == k
  {
    var d := k * u / u;
    Factors(d, k, u);
    Factors(k, d + 1, u);
    Factors(d, d + 1, u);
  }

  /** A half of the range is a multiple, so what reaches it by less than one step reaches it. */
  lemma ReachesHalf(q: nat, u: nat)
    requires u > 0 && PRECISION / 2 * u < q * u + u
    ensures PRECISION / 2 * u <= q * u
  {
    Factors(PRECISION / 2, q + 1, u);
    Factors(q, PRECISION / 2, u);
  }

  lemma StaysBelow(q: nat, u: nat)
    requires u > 0 && q * u < PRECISION * u
    ensures q * u + u <= PRECISION * u
  {
    Factors(q, PRECISION, u);
    Factors(PRECISION, q + 1, u);
  }

  /** The multiples of its spacing around n. */
  lemma Around(n: nat)
    ensures var u := Spacing(n);
      var q := n / u;
      && q * u <= n < (q + 1) * u == q * u + u <= PRECISION * u
      && (u > 1 ==> PRECISION * u <= 2 * (q * u))
  {
    var u := Spacing(n);
    var q := n / u;
    DivMod(n, u);
    SpacingBounds(n);
    hide Spacing;
    StaysBelow(q, u);
    if u > 1 {
      ReachesHalf(q, u);
    }
  }

  lemma MultipleIsValue(n: nat, k: nat, x: nat)
    requires var u := Spacing(n); x == k * u && x <= PRECISION * u && (u > 1 ==> PRECISION * u <= 2 * x)
    ensures Representable(x)
  {
    var u := Spacing(n);
    if x < PRECISION * u {
      SameSpacing(x, n);
      Quotient(k, u);
    } else {
      SpacingAtTop(n);
      Quotient(PRECISION / 2, 2 * u);
      assert x == PRECISION / 2 * (2 * u);
    }
  }

  lemma NothingBetween(n: nat, m: nat)
    requires Representable(m)
    ensures var u := Spacing(n);
      m <= n / u * u || m >= (n / u + 1) * u
  {
    var u := Spacing(n);
    var q := n / u;
    Around(n);
    if q * u < m < (q + 1) * u {
      SameSpacing(m, n);
      Between(q, u, m);
      assert false;
    }
  }

  lemma NearestNat(n: nat, m: nat)
    requires Representable(m)
    ensures Representable(RoundNat(n)) && Abs(RoundNat(n) - n) <= Abs(m - n)
  {
    var u, q := Spacing(n), n / Spacing(n);
    var low, high := q * u, (q + 1) * u;
    DivMod(n, u);
    Around(n);
    NothingBetween(n, m);
    MultipleIsValue(n, q, low);
    MultipleIsValue(n, q + 1, high);
    assert RoundNat(n) == low || RoundNat(n) == high;
    hide Representable, Spacing;
  }

  lemma TieIsEven(n: nat)
    ensures var u := Spacing(n); 2 * (n % u) == u ==> RoundNat(n) / u % 2 == 0
  {
    var u := Spacing(n);
    var q := n / u;
    if 2 * (n % u) == u {
      var even := if q % 2 == 0 then q else q + 1;
      assert RoundNat(n) == even * u;
      Quotient(even, u);
    }
  }

  /** Round gives a binary64 value, none is nearer, and a tie goes to an even multiple of the spacing. */
  lemma RoundsToNearest(n: int, m: int)
    requires Representable(m)
    ensures Representable(Round(n)) && Abs(Round(n) - n) <= Abs(m - n)
    ensures var a, u := Abs(n), Spacing(Abs(n)); 2 * (a % u) == u ==> Abs(Round(n)) / u % 2 == 0
  {
    NearestNat(Abs(n), Abs(m));
    TieIsEven(Abs(n));
    hide Spacing, RoundNat;
  }
}
