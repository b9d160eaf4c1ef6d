/** CRC-32C (Castagnoli): the reflected bitwise definition, the table-driven
    loops that compute it, and what it can and cannot miss. */
module Crc32c {
  import opened Words

  /** Reflected Castagnoli polynomial. */
  const POLY: nat := 0x82F6_3B78
  const ONES: nat := 0xFFFF_FFFF

  type word = n: nat | n < 0x1_0000_0000

  // ---- reference definition: one bit at a time -----------------------------

  /** Shifts one bit out of the register. */
  function ShiftOut(crc: nat): nat {
    if crc % 2 == 1 then Xor(POLY, crc / 2) else crc / 2
  }

  function ShiftBits(crc: nat, n: nat): nat
    decreases n, crc
  {
    if n == 0 then crc else ShiftBits(ShiftOut(crc), n - 1)
  }

  /** The register after the given bytes, without the two complements. */
  function Register(crc: nat, data: seq<byte>): nat
    decreases |data|
  {
    if data == [] then crc else Register(ShiftBits(Xor(crc, data[0]), 8), data[1..])
  }

  lemma {:induction false} RegisterIsWord(crc: word, data: seq<byte>)
    ensures Register(crc, data) < U32
    decreases |data|
  {
    if data != [] {
      Pow2Values();
      XorBound(crc, data[0], 32);
      ShiftBitsIsWord(Xor(crc, data[0]), 8);
      RegisterIsWord(ShiftBits(Xor(crc, data[0]), 8), data[1..]);
    }
  }

  /** Continues a checksum over more bytes. */
  function Extend(seed: word, data: seq<byte>): word {
    RegisterIsWord(ONES - seed, data);
    ONES - Register(ONES - seed, data)
  }

  function Checksum(data: seq<byte>): word {
    Extend(0, data)
  }

  // ---- shifting is injective and acts on high bits by division --------------

  lemma ShiftOutIsWord(crc: nat)
    requires crc < U32
    ensures ShiftOut(crc) < U32
  {
    Pow2Values();
    XorBound(POLY, crc / 2, 32);
  }

  lemma {:induction false} ShiftBitsIsWord(crc: nat, n: nat)
    requires crc < U32
    ensures ShiftBits(crc, n) < U32
    decreases n
  {
    if n > 0 {
      ShiftOutIsWord(crc);
      ShiftBitsIsWord(ShiftOut(crc), n - 1);
    }
  }

  /** The top bit of the result tells which bit was shifted out. */
  lemma ShiftOutInjective(a: nat, b: nat)
    requires a < U32 && b < U32 && ShiftOut(a) == ShiftOut(b)
    ensures a == b
  {
    Pow2Values();
    XorTop(POLY, a / 2, 31);
    XorTop(POLY, b / 2, 31);
    assert a % 2 == b % 2;
    if a % 2 == 1 {
      XorInjective(POLY, a / 2, b / 2);
    }
  }

  lemma {:induction false} ShiftBitsInjective(a: nat, b: nat, n: nat)
    requires a < U32 && b < U32 && ShiftBits(a, n) == ShiftBits(b, n)
    ensures a == b
    decreases n
  {
    if n > 0 {
      ShiftOutIsWord(a);
      ShiftOutIsWord(b);
      ShiftBitsInjective(ShiftOut(a), ShiftOut(b), n - 1);
      ShiftOutInjective(a, b);
    }
  }

  /** Even bits above the one shifted out simply move down. */
  lemma ShiftOutHigh(low: nat, high: nat)
    ensures ShiftOut(Xor(low, 2 * high)) == Xor(ShiftOut(low), high)
  {
    XorEven(low, high);
    var x := Xor(low, 2 * high);
    assert x % 2 == low % 2 && x / 2 == Xor(low / 2, high);
    if low % 2 == 1 {
      XorAssoc(POLY, low / 2, high);
    }
  }

  lemma {:induction false} ShiftBitsHigh(low: nat, high: nat, n: nat)
    ensures ShiftBits(Xor(low, Pow2(n) * high), n) == Xor(ShiftBits(low, n), high)
    decreases n
  {
    if n == 0 {
      assert Pow2(0) * high == high;
    } else {
      assert Pow2(n) * high == 2 * (Pow2(n - 1) * high);
      ShiftOutHigh(low, Pow2(n - 1) * high);
      ShiftBitsHigh(ShiftOut(low), high, n - 1);
    }
  }

  // ---- the table form -------------------------------------------------------

  lemma ByteAndRest(low: byte, k: nat)
    ensures Xor(low, 256 * k) == low + 256 * k
  {
    Pow2Values();
    XorDisjoint(low, k, 8);
  }

  lemma XorSwap(a: nat, b: nat, c: nat)
    ensures Xor(Xor(a, b), c) == Xor(Xor(a, c), b)
  {
    XorAssoc(a, b, c);
    XorComm(b, c);
    XorAssoc(a, c, b);
  }

  lemma QuotientRemainder(m: byte, k: nat)
    ensures (m + 256 * k) % 256 == m && (m + 256 * k) / 256 == k
  {
  }

  /** A byte only reaches the low eight bits of the register. */
  lemma LowByte(crc: nat, b: byte)
    ensures Xor(crc, b) % 256 == Xor(crc % 256, b)
    ensures Xor(crc, b) / 256 == crc / 256
  {
    var low, k := crc % 256, crc / 256;
    var m := Xor(low, b);
    assert m < 256 by {
      Pow2Values();
      XorBound(low, b, 8);
    }
    assert Xor(low, 256 * k) == crc by { ByteAndRest(low, k); }
    assert Xor(crc, b) == Xor(m, 256 * k) by { XorSwap(low, 256 * k, b); }
    assert Xor(m, 256 * k) == m + 256 * k by { ByteAndRest(m, k); }
    QuotientRemainder(m, k);
  }

  /** Eight bit steps equal one table lookup on the low byte. */
  lemma ByteSteps(x: nat)
    ensures ShiftBits(x, 8) == Xor(ShiftBits(x % 256, 8), x / 256)
  {
    Pow2Values();
    ByteAndRest(x % 256, x / 256);
    ShiftBitsHigh(x % 256, x / 256, 8);
  }

  /** One table step equals eight bit steps. */
  lemma TableStep(crc: word, b: byte)
    ensures ShiftBits(Xor(crc, b), 8) == Xor(ShiftBits(Xor(crc, b) % 256, 8), crc / 256)
  {
    LowByte(crc, b);
    ByteSteps(Xor(crc, b));
  }

  lemma {:induction false} ShiftBitsAppend(crc: nat, n: nat)
    ensures ShiftBits(crc, n + 1) == ShiftOut(ShiftBits(crc, n))
    decreases n
  {
    if n > 0 {
      ShiftBitsAppend(ShiftOut(crc), n - 1);
    }
  }

  predicate IsTable(table: seq<nat>) {
    |table| == 256 && forall i :: 0 <= i < 256 ==> table[i] == ShiftBits(i, 8)
  }

  /** Builds the 256-entry table with two nested loops. */
  method MakeTable() returns (out: seq<nat>)
    ensures IsTable(out)
  {
    var table := new nat[256];
    for index := 0 to 256
      invariant forall i :: 0 <= i < index ==> table[i] == ShiftBits(i, 8)
    {
      var crc := index;
      for bit := 0 to 8
        invariant crc == ShiftBits(index, bit)
        invariant forall i :: 0 <= i < index ==> table[i] == ShiftBits(i, 8)
      {
        ShiftBitsAppend(index, bit);
        assert ShiftOut(crc) == ShiftBits(index, bit + 1);
        crc := if crc % 2 == 1 then Xor(POLY, crc / 2) else crc / 2;
      }
      table[index] := crc;
    }
    out := table[..];
  }

  lemma {:induction false} RegisterAppend(crc: nat, data: seq<byte>, more: seq<byte>)
    ensures Register(crc, data + more) == Register(Register(crc, data), more)
    decreases |data|
  {
    if data == [] {
      assert data + more == more;
    } else {
      assert (data + more)[1..] == data[1..] + more;
      RegisterAppend(ShiftBits(Xor(crc, data[0]), 8), data[1..], more);
    }
  }

  /** The table loop computes the bitwise definition. */
  method ExtendByTable(table: seq<nat>, seed: word, data: seq<byte>) returns (out: word)
    requires IsTable(table)
    ensures out == Extend(seed, data)
  {
    var crc: word := ONES - seed;
    for i := 0 to |data|
      invariant crc == Register(ONES - seed, data[..i])
    {
      var index := Xor(crc, data[i]) % 256;
      TableStep(crc, data[i]);
      RegisterAppend(ONES - seed, data[..i], [data[i]]);
      assert data[..i] + [data[i]] == data[..i + 1];
      assert Register(crc, [data[i]]) == ShiftBits(Xor(crc, data[i]), 8);
      RegisterIsWord(ONES - seed, data[..i + 1]);
      crc := Xor(table[index], crc / 256);
    }
    assert data[..|data|] == data;
    out := ONES - crc;
  }

  // ---- splitting and damage detection ---------------------------------------

  /** Extending over a split equals one pass. */
  lemma ExtendSplit(seed: word, data: seq<byte>, more: seq<byte>)
    ensures Extend(Extend(seed, data), more) == Extend(seed, data + more)
  {
    RegisterAppend(ONES - seed, data, more);
  }

  lemma ByteStepInjective(a: word, b: word, d: byte)
    requires ShiftBits(Xor(a, d), 8) == ShiftBits(Xor(b, d), 8)
    ensures a == b
  {
    Pow2Values();
    XorBound(a, d, 32);
    XorBound(b, d, 32);
    ShiftBitsInjective(Xor(a, d), Xor(b, d), 8);
    XorComm(a, d);
    XorComm(b, d);
    XorInjective(d, a, b);
  }

  /** Common trailing bytes never bring two registers together. */
  lemma {:induction false} RegisterInjective(a: word, b: word, data: seq<byte>)
    requires Register(a, data) == Register(b, data)
    ensures a == b
    decreases |data|
  {
    if data != [] {
      RegisterIsWord(a, [data[0]]);
      RegisterIsWord(b, [data[0]]);
      assert Register(a, [data[0]]) == ShiftBits(Xor(a, data[0]), 8);
      assert Register(b, [data[0]]) == ShiftBits(Xor(b, data[0]), 8);
      RegisterInjective(ShiftBits(Xor(a, data[0]), 8), ShiftBits(Xor(b, data[0]), 8), data[1..]);
      ByteStepInjective(a, b, data[0]);
    }
  }

  lemma {:induction false} ShiftBitsAdd(crc: nat, m: nat, n: nat)
    ensures ShiftBits(ShiftBits(crc, m), n) == ShiftBits(crc, m + n)
    decreases m
  {
    if m > 0 {
      ShiftBitsAdd(ShiftOut(crc), m - 1, n);
    }
  }

  lemma AbsorbByte(crc: nat, first: byte, rest: nat)
    ensures Xor(ShiftBits(Xor(crc, first), 8), rest) == ShiftBits(Xor(crc, first + 256 * rest), 8)
  {
    ShiftBitsHigh(Xor(crc, first), rest, 8);
    Pow2Values();
    ByteAndRest(first, rest);
    XorAssoc(crc, first, 256 * rest);
  }

  /** Absorbing a byte string equals absorbing its little-endian value at once. */
  lemma {:induction false} RegisterOfValue(crc: nat, data: seq<byte>)
    ensures Register(crc, data) == ShiftBits(Xor(crc, Value(data)), 8 * |data|)
    decreases |data|
  {
    if data == [] {
      assert Xor(crc, 0) == crc;
    } else {
      var first, rest := data[0], data[1..];
      RegisterOfValue(ShiftBits(Xor(crc, first), 8), rest);
      AbsorbByte(crc, first, Value(rest));
      ShiftBitsAdd(Xor(crc, Value(data)), 8, 8 * |rest|);
    }
  }

  lemma {:induction false} Pow2Monotone(m: nat, n: nat)
    requires m <= n
    ensures Pow2(m) <= Pow2(n)
  {
    if m < n {
      Pow2Monotone(m, n - 1);
    }
  }

  /** From one register, two different windows of at most four bytes diverge. */
  lemma WindowInjective(crc: word, a: seq<byte>, b: seq<byte>)
    requires |a| == |b| <= 4
    requires Register(crc, a) == Register(crc, b)
    ensures a == b
  {
    RegisterOfValue(crc, a);
    RegisterOfValue(crc, b);
    Pow2Monotone(8 * |a|, 32);
    Pow2Values();
    ValueBound(a);
    ValueBound(b);
    XorBound(crc, Value(a), 32);
    XorBound(crc, Value(b), 32);
    ShiftBitsInjective(Xor(crc, Value(a)), Xor(crc, Value(b)), 8 * |a|);
    XorInjective(crc, Value(a), Value(b));
    ValueInjective(a, b);
  }

  /** Damage confined to four consecutive bytes always changes the checksum,
      whatever surrounds it and however long the message is. */
  lemma BurstDetected(seed: word, before: seq<byte>, a: seq<byte>, b: seq<byte>, after: seq<byte>)
    requires |a| == |b| <= 4 && a != b
    ensures Extend(seed, before + a + after) != Extend(seed, before + b + after)
  {
    var start := Register(ONES - seed, before);
    RegisterIsWord(ONES - seed, before);
    RegisterIsWord(start, a);
    RegisterIsWord(start, b);
    RegisterAppend(ONES - seed, before + a, after);
    RegisterAppend(ONES - seed, before, a);
    RegisterAppend(ONES - seed, before + b, after);
    RegisterAppend(ONES - seed, before, b);
    if Register(Register(start, a), after) == Register(Register(start, b), after) {
      RegisterInjective(Register(start, a), Register(start, b), after);
      WindowInjective(start, a, b);
    }
  }
}
