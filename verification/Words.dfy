/** Fixed-width unsigned words as naturals: bytes, bitwise exclusive or, powers
    of two and the little-endian layout shared by every encoder. */
module Words {

  type byte = n: nat | n < 256

  const U16: nat := 0x1_0000
  const U32: nat := 0x1_0000_0000
  const U64: nat := 0x1_0000_0000_0000_0000

  function Pow2(n: nat): (p: nat)
    ensures p > 0
  {
    if n == 0 then 1 else 2 * Pow2(n - 1)
  }

  lemma Pow2Values()
    ensures Pow2(8) == 256 && Pow2(16) == U16 && Pow2(31) == 0x8000_0000 && Pow2(32) == U32
  {
    assert Pow2(4) == 16;
    assert Pow2(8) == 256;
    assert Pow2(12) == 4096;
    assert Pow2(16) == U16;
    assert Pow2(20) == 0x10_0000;
    assert Pow2(24) == 0x100_0000;
    assert Pow2(28) == 0x1000_0000;
  }

  lemma {:induction false} Pow2Add(m: nat, n: nat)
    ensures Pow2(m + n) == Pow2(m) * Pow2(n)
  {
    if m > 0 {
      Pow2Add(m - 1, n);
    }
  }

  /** Bitwise exclusive or. */
  function Xor(a: nat, b: nat): nat
    decreases a + b
  {
    if a == 0 then b
    else if b == 0 then a
    else 2 * Xor(a / 2, b / 2) + (if a % 2 == b % 2 then 0 else 1)
  }

  /** Exclusive or acts on every bit position independently. */
  lemma XorHalves(a: nat, b: nat)
    ensures Xor(a, b) / 2 == Xor(a / 2, b / 2)
    ensures Xor(a, b) % 2 == if a % 2 == b % 2 then 0 else 1
  {
  }

  lemma {:induction false} XorComm(a: nat, b: nat)
    ensures Xor(a, b) == Xor(b, a)
    decreases a + b
  {
    if a > 0 && b > 0 {
      XorComm(a / 2, b / 2);
    }
  }

  /** Bit i of v. */
  predicate Bit(v: nat, i: nat) {
    if i == 0 then v % 2 == 1 else Bit(v / 2, i - 1)
  }

  lemma {:induction false} XorBit(a: nat, b: nat, i: nat)
    ensures Bit(Xor(a, b), i) <==> Bit(a, i) != Bit(b, i)
    decreases i
  {
    XorHalves(a, b);
    if i > 0 {
      XorBit(a / 2, b / 2, i - 1);
    }
  }

  lemma {:induction false} SameBits(a: nat, b: nat)
    requires forall i: nat :: Bit(a, i) <==> Bit(b, i)
    ensures a == b
    decreases a + b
  {
    if a + b > 0 {
      assert Bit(a, 0) <==> Bit(b, 0);
      forall i: nat ensures Bit(a / 2, i) <==> Bit(b / 2, i) {
        assert Bit(a, i + 1) <==> Bit(b, i + 1);
      }
      SameBits(a / 2, b / 2);
    }
  }

  lemma XorAssoc(a: nat, b: nat, c: nat)
    ensures Xor(Xor(a, b), c) == Xor(a, Xor(b, c))
  {
    forall i: nat ensures Bit(Xor(Xor(a, b), c), i) <==> Bit(Xor(a, Xor(b, c)), i) {
      XorBit(a, b, i);
      XorBit(b, c, i);
      XorBit(Xor(a, b), c, i);
      XorBit(a, Xor(b, c), i);
    }
    SameBits(Xor(Xor(a, b), c), Xor(a, Xor(b, c)));
  }

  lemma {:induction false} XorSelf(a: nat)
    ensures Xor(a, a) == 0
  {
    if a > 0 {
      XorSelf(a / 2);
    }
  }

  /** Exclusive or with a fixed word loses nothing. */
  lemma XorInjective(a: nat, b: nat, c: nat)
    requires Xor(a, b) == Xor(a, c)
    ensures b == c
  {
    XorAssoc(a, a, b);
    XorAssoc(a, a, c);
    XorSelf(a);
  }

  lemma {:induction false} XorBound(a: nat, b: nat, n: nat)
    requires a < Pow2(n) && b < Pow2(n)
    ensures Xor(a, b) < Pow2(n)
    decreases n
  {
    if a > 0 && b > 0 {
      XorBound(a / 2, b / 2, n - 1);
    }
  }

  /** A bit set in only one operand is set in the result. */
  lemma {:induction false} XorTop(a: nat, b: nat, n: nat)
    requires Pow2(n) <= a && b < Pow2(n)
    ensures Xor(a, b) >= Pow2(n)
    decreases n
  {
    if n > 0 {
      XorHalves(a, b);
      XorTop(a / 2, b / 2, n - 1);
    }
  }

  lemma XorEven(low: nat, h: nat)
    ensures Xor(low, 2 * h) == 2 * Xor(low / 2, h) + low % 2
  {
    XorHalves(low, 2 * h);
    assert (2 * h) / 2 == h && (2 * h) % 2 == 0;
  }

  /** Disjoint bit ranges combine by addition. */
  lemma {:induction false} XorDisjoint(low: nat, k: nat, n: nat)
    requires low < Pow2(n)
    ensures Xor(low, Pow2(n) * k) == low + Pow2(n) * k
    decreases n
  {
    if n > 0 {
      var h := Pow2(n - 1) * k;
      assert Pow2(n) * k == 2 * h;
      XorDisjoint(low / 2, k, n - 1);
      XorEven(low, h);
    } else {
      assert Pow2(0) * k == k;
    }
  }

  /** The number a byte string stands for, least significant byte first. */
  function Value(bytes: seq<byte>): nat {
    if bytes == [] then 0 else bytes[0] + 256 * Value(bytes[1..])
  }

  lemma {:induction false} ValueBound(bytes: seq<byte>)
    ensures Value(bytes) < Pow2(8 * |bytes|)
  {
    if bytes != [] {
      ValueBound(bytes[1..]);
      Pow2Add(8, 8 * |bytes[1..]|);
      Pow2Values();
    }
  }

  /** The width-byte little-endian layout of v. */
  function Layout(v: nat, width: nat): (bytes: seq<byte>)
    ensures |bytes| == width
  {
    if width == 0 then [] else [v % 256] + Layout(v / 256, width - 1)
  }

  lemma {:induction false} ValueOfLayout(v: nat, width: nat)
    requires v < Pow2(8 * width)
    ensures Value(Layout(v, width)) == v
    decreases width
  {
    if width > 0 {
      Pow2Add(8, 8 * (width - 1));
      Pow2Values();
      ValueOfLayout(v / 256, width - 1);
      assert Layout(v, width)[1..] == Layout(v / 256, width - 1);
    }
  }

  lemma {:induction false} LayoutOfValue(bytes: seq<byte>)
    ensures Layout(Value(bytes), |bytes|) == bytes
  {
    if bytes != [] {
      LayoutOfValue(bytes[1..]);
      var v := Value(bytes);
      assert v % 256 == bytes[0] && v / 256 == Value(bytes[1..]);
    }
  }

  /** Two byte strings of one length standing for one number are the same string. */
  lemma ValueInjective(a: seq<byte>, b: seq<byte>)
    requires |a| == |b| && Value(a) == Value(b)
    ensures a == b
  {
    LayoutOfValue(a);
    LayoutOfValue(b);
  }

  lemma ScaleProduct(v: nat, p: nat, w: nat)
    ensures 256 * (v + p * w) == 256 * v + (256 * p) * w
  {
  }

  lemma {:induction false} ValueConcat(a: seq<byte>, b: seq<byte>)
    ensures Value(a + b) == Value(a) + Pow2(8 * |a|) * Value(b)
  {
    if a == [] {
      assert a + b == b;
    } else {
      assert (a + b)[1..] == a[1..] + b;
      ValueConcat(a[1..], b);
      Pow2Add(8, 8 * |a[1..]|);
      Pow2Values();
      assert Pow2(8 * |a|) == 256 * Pow2(8 * |a[1..]|);
      ScaleProduct(Value(a[1..]), Pow2(8 * |a[1..]|), Value(b));
    }
  }
}
