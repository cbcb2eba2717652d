/** Lock keys hashed to PostgreSQL advisory lock ids: 64-bit FNV-1a, cast to a signed bigint. */
module LockIds {
  type Byte = b: nat | b < 0x100
  type Key = seq<Byte>
  type Word = w: nat | w < WORDS

  const WORDS: nat := 0x1_0000_0000_0000_0000
  const OFFSET_BASIS: Word := 0xcbf29ce484222325
  const PRIME: Word := 0x100000001b3
  /** The prime is odd, so it has an inverse modulo 2^64. */
  const PRIME_INVERSE: Word := 0xce965057aff6957b

  /** Bitwise exclusive or. */
  function Xor(a: nat, b: nat): nat
    decreases a + b
  {
    if a == 0 && b == 0 then 0
    else 2 * Xor(a / 2, b / 2) + (if a % 2 == b % 2 then 0 else 1)
  }

  function Pow2(n: nat): nat {
    if n == 0 then 1 else 2 * Pow2(n - 1)
  }

  lemma {:induction false} Pow2Add(m: nat, n: nat)
    ensures Pow2(m + n) == Pow2(m) * Pow2(n)
  {
    if m > 0 {
      Pow2Add(m - 1, n);
      assert Pow2(m + n) == 2 * Pow2(m - 1 + n);
    }
  }

  lemma WordWidth()
    ensures Pow2(64) == WORDS
  {
    assert Pow2(8) == 0x100;
    Pow2Add(8, 8);
    Pow2Add(16, 16);
    Pow2Add(32, 32);
  }

  lemma {:induction false} XorBound(a: nat, b: nat, bits: nat)
    requires a < Pow2(bits) && b < Pow2(bits)
    ensures Xor(a, b) < Pow2(bits)
  {
    if bits > 0 {
      XorBound(a / 2, b / 2, bits - 1);
    }
  }

  lemma {:induction false} XorCancels(a: nat, b: nat)
    ensures Xor(Xor(a, b), b) == a && Xor(a, Xor(a, b)) == b
    decreases a + b
  {
    if a != 0 || b != 0 {
      XorCancels(a / 2, b / 2);
      assert Xor(a, b) / 2 == Xor(a / 2, b / 2);
    }
  }

  /** One byte of the hash: exclusive or, then multiply modulo 2^64. */
  function Absorb(h: Word, b: Byte): Word {
    (Xor(h, b) * PRIME) % WORDS
  }

  /** The digest of a key that follows a prefix whose digest is `h`. */
  function Digest(h: Word, key: Key): Word
    decreases |key|
  {
    if key == [] then h else Digest(Absorb(h, key[0]), key[1..])
  }

  /** The same 64 bits read as a two's complement number. */
  function Signed(h: Word): (id: int)
    ensures -0x8000_0000_0000_0000 <= id < 0x8000_0000_0000_0000
    ensures id % WORDS == h
  {
    if h < 0x8000_0000_0000_0000 then h else h - WORDS
  }

  function LockId(key: Key): int {
    Signed(Digest(OFFSET_BASIS, key))
  }

  method HashKey(key: Key) returns (id: int)
    ensures id == LockId(key)
  {
    var h := OFFSET_BASIS;
    assert key[0..] == key;
    for i := 0 to |key|
      invariant Digest(h, key[i..]) == Digest(OFFSET_BASIS, key)
    {
      assert key[i..][1..] == key[i + 1..];
      h := Absorb(h, key[i]);
    }
    id := Signed(h);
  }

  /** Multiplying by the prime loses nothing. */
  lemma TimesPrimeInjective(x: Word, y: Word)
    ensures (x * PRIME) % WORDS == (y * PRIME) % WORDS ==> x == y
  {
    TimesPrimeUndone(x);
    TimesPrimeUndone(y);
  }

  lemma TimesPrimeUndone(x: Word)
    ensures ((x * PRIME) % WORDS * PRIME_INVERSE) % WORDS == x
  {
    var q, r := (x * PRIME) / WORDS, (x * PRIME) % WORDS;
    var k := (PRIME * PRIME_INVERSE) / WORDS;
    assert PRIME * PRIME_INVERSE == k * WORDS + 1;
    assert r * PRIME_INVERSE == (x * k - q * PRIME_INVERSE) * WORDS + x;
    Remainder(x * k - q * PRIME_INVERSE, x);
  }

  lemma Remainder(q: int, x: Word)
    ensures (q * WORDS + x) % WORDS == x
  {
  }

  lemma AbsorbInjective(h: Word, g: Word, b: Byte, c: Byte)
    ensures b == c && Absorb(h, b) == Absorb(g, c) ==> h == g
    ensures h == g && Absorb(h, b) == Absorb(g, c) ==> b == c
  {
    WordWidth();
    XorBound(h, b, 64);
    XorBound(g, c, 64);
    TimesPrimeInjective(Xor(h, b), Xor(g, c));
    XorCancels(h, b);
    XorCancels(g, c);
  }

  lemma {:induction false} DigestConcat(h: Word, a: Key, b: Key)
    ensures Digest(h, a + b) == Digest(Digest(h, a), b)
    decreases |a|
  {
    if a == [] {
      assert a + b == b;
    } else {
      assert (a + b)[1..] == a[1..] + b;
      DigestConcat(Absorb(h, a[0]), a[1..], b);
    }
  }

  lemma {:induction false} SuffixCancels(h: Word, g: Word, suffix: Key)
    ensures Digest(h, suffix) == Digest(g, suffix) <==> h == g
    decreases |suffix|
  {
    if suffix != [] {
      AbsorbInjective(h, g, suffix[0], suffix[0]);
      SuffixCancels(Absorb(h, suffix[0]), Absorb(g, suffix[0]), suffix[1..]);
    }
  }

  /** A common suffix never decides whether two keys collide. */
  lemma CommonSuffix(a: Key, b: Key, suffix: Key)
    ensures LockId(a + suffix) == LockId(b + suffix) <==> LockId(a) == LockId(b)
  {
    DigestConcat(OFFSET_BASIS, a, suffix);
    DigestConcat(OFFSET_BASIS, b, suffix);
    SuffixCancels(Digest(OFFSET_BASIS, a), Digest(OFFSET_BASIS, b), suffix);
  }

  /** Keys that differ in exactly one byte never share a lock. */
  lemma OneByteSeparates(a: Key, b: Key, at: nat)
    requires |a| == |b| && at < |a| && a[at] != b[at]
    requires a[..at] == b[..at] && a[at + 1..] == b[at + 1..]
    ensures LockId(a) != LockId(b)
  {
    var h := Digest(OFFSET_BASIS, a[..at]);
    forall key: Key | key == a || key == b
      ensures Digest(OFFSET_BASIS, key) == Digest(Absorb(h, key[at]), key[at + 1..])
    {
      assert key == key[..at] + key[at..] && key[at..][1..] == key[at + 1..];
      DigestConcat(OFFSET_BASIS, key[..at], key[at..]);
    }
    AbsorbInjective(h, h, a[at], b[at]);
    SuffixCancels(Absorb(h, a[at]), Absorb(h, b[at]), a[at + 1..]);
  }

  lemma {:induction false} XorNothing(a: nat)
    ensures Xor(a, 0) == a
  {
    if a > 0 {
      XorNothing(a / 2);
    }
  }

  function Shift(a: nat, bits: nat): nat {
    if bits == 0 then a else 2 * Shift(a, bits - 1)
  }

  lemma {:induction false} XorLow(high: nat, low: nat, b: nat, bits: nat)
    requires low < Pow2(bits) && b < Pow2(bits)
    ensures Xor(Shift(high, bits) + low, b) == Shift(high, bits) + Xor(low, b)
    decreases bits
  {
    if bits == 0 {
      XorNothing(high);
    } else {
      XorLow(high, low / 2, b / 2, bits - 1);
      assert (Shift(high, bits) + low) / 2 == Shift(high, bits - 1) + low / 2;
    }
  }

  /** One byte on numbers: only the low byte of the digest meets it, which gives `x`. */
  lemma AbsorbsTo(high: nat, low: Byte, b: Byte, x: nat, next: Word)
    requires high * 0x100 + low < WORDS && Xor(low, b) == x
    requires ((high * 0x100 + x) * PRIME) % WORDS == next
    ensures Absorb(high * 0x100 + low, b) == next
  {
    assert Pow2(8) == 0x100;
    assert Shift(high, 1) == 2 * high;
    assert Shift(high, 3) == 4 * Shift(high, 1);
    assert Shift(high, 5) == 4 * Shift(high, 3);
    assert Shift(high, 7) == 4 * Shift(high, 5);
    assert Shift(high, 8) == 2 * Shift(high, 7);
    XorLow(high, low, b, 8);
  }

  lemma DigestOfTwo(h: Word, a: Byte, b: Byte)
    ensures Digest(h, []) == h && Digest(h, [a]) == Absorb(h, a)
    ensures Digest(h, [a, b]) == Absorb(Absorb(h, a), b)
  {
    hide Absorb;
    var one: Key, two: Key := [a], [a, b];
    assert one[1..] == [] && two[1..] == [b];
    assert Digest(Absorb(h, a), [b]) == Absorb(Absorb(h, a), b) by {
      var last: Key := [b];
      assert last[1..] == [];
    }
  }

  lemma LowBytes()
    ensures Xor(0x25, 0x61) == 0x44 && Xor(0x25, 0x66) == 0x43 && Xor(0xd9, 0x6f) == 0xb6
  {
    assert Xor(0x2, 0x6) == 0x4 && Xor(0x9, 0x18) == 0x11 && Xor(0x9, 0x19) == 0x10;
    assert Xor(0xd, 0x6) == 0xb && Xor(0x36, 0x1b) == 0x2d;
  }

  /** The published FNV-1a digests of "", "a" and "fo". */
  lemma PublishedDigests()
    ensures LockId([]) == 0xcbf29ce484222325 - 0x1_0000_0000_0000_0000
    ensures LockId([0x61]) == 0xaf63dc4c8601ec8c - 0x1_0000_0000_0000_0000
    ensures LockId([0x66, 0x6f]) == 0x08985907b541d342
  {
    hide Digest, Xor, Absorb;
    LowBytes();
    DigestOfTwo(OFFSET_BASIS, 0x61, 0);
    DigestOfTwo(OFFSET_BASIS, 0x66, 0x6f);
    AbsorbsTo(0xcbf29ce4842223, 0x25, 0x61, 0x44, 0xaf63dc4c8601ec8c);
    AbsorbsTo(0xcbf29ce4842223, 0x25, 0x66, 0x43, 0xaf63db4c8601ead9);
    AbsorbsTo(0xaf63db4c8601ea, 0xd9, 0x6f, 0xb6, 0x08985907b541d342);
  }
}
