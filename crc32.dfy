/**
 * The table-driven CRC-32 of tftp_server/crc32.c: the reflected polynomial
 * 0xEDB88320, with the register inverted before and after the byte loop.
 * This is the CRC-32 of ISO/IEC 3309 (the frame check sequence of IEEE 802.3,
 * clause 3.2.9) and the function Python's `zlib.crc32` computes, so the
 * client's checksum is modelled by the same `Crc32`.
 *
 * Inside the loop a `uint32_t` register is held as its 32 bits, least
 * significant first (`Reg`): `^` is `Xor`, `>> 1` is `Shr1`, `>> 8` is
 * `Shr8` and `& 0xFF` is `LowByte`. At the interface `crc32` takes and
 * returns a `u32`, converted by `FromU32` and `ToU32`.
 */
module Crc {
  import opened Bytes

  /** A 32-bit register, bit 0 first. */
  type Reg = s: seq<bool> | |s| == 32 witness Zeros(32)

  function Zeros(n: nat): (r: seq<bool>)
    ensures |r| == n && forall i :: 0 <= i < n ==> !r[i]
  {
    seq(n, _ => false)
  }

  function Pow2(k: nat): nat {
    if k == 0 then 1 else 2 * Pow2(k - 1)
  }

  /** The low `w` bits of `n`, least significant first. */
  function Bits(n: nat, w: nat): seq<bool>
    decreases w
  {
    if w == 0 then [] else [n % 2 == 1] + Bits(n / 2, w - 1)
  }

  lemma {:induction false} BitsLength(n: nat, w: nat)
    ensures |Bits(n, w)| == w
    decreases w
  {
    if w > 0 {
      BitsLength(n / 2, w - 1);
    }
  }

  /** The number whose bits, least significant first, are `bs`. */
  function Value(bs: seq<bool>): nat
    decreases |bs|
  {
    if bs == [] then 0 else (if bs[0] then 1 else 0) + 2 * Value(bs[1..])
  }

  /** `a ^ b`. */
  function Xor(a: Reg, b: Reg): Reg {
    seq(32, i requires 0 <= i < 32 => a[i] != b[i])
  }

  /** `c >> 1`. */
  function Shr1(c: Reg): Reg {
    c[1..] + [false]
  }

  /** `c >> 8`. */
  function Shr8(c: Reg): Reg {
    c[8..] + Zeros(8)
  }

  /** POLYNOMIAL. */
  const Polynomial: Reg := FromU32(0xEDB8_8320)

  /** 0xFFFFFFFF, the pre- and post-inversion mask. */
  const AllOnes: Reg := FromU32(0xFFFF_FFFF)

  /** Bits per byte: the inner loop count of `make_crc_table`. */
  const ByteBits: nat := 8

  /** `c = (c & 1) ? (POLYNOMIAL ^ (c >> 1)) : (c >> 1)`. */
  function Step(c: Reg): Reg {
    if c[0] then Xor(Polynomial, Shr1(c)) else Shr1(c)
  }

  function Steps(c: Reg, n: nat): Reg
    decreases n
  {
    if n == 0 then c else Steps(Step(c), n - 1)
  }

  lemma XorAssoc(a: Reg, b: Reg, c: Reg)
    ensures Xor(Xor(a, b), c) == Xor(a, Xor(b, c))
  {
  }

  lemma XorCancel(a: Reg, b: Reg)
    ensures Xor(Xor(a, b), b) == a
  {
  }

  lemma ShrXor(x: Reg, y: Reg)
    ensures Shr1(Xor(x, y)) == Xor(Shr1(x), Shr1(y))
  {
  }

  lemma StepXor(x: Reg, y: Reg)
    ensures Step(Xor(x, y)) == Xor(Step(x), Step(y))
  {
    ShrXor(x, y);
  }

  /** One more step at the end. */
  lemma {:induction false} StepsSucc(c: Reg, n: nat)
    ensures Steps(c, n + 1) == Step(Steps(c, n))
    decreases n
  {
    if n > 0 {
      StepsSucc(Step(c), n - 1);
    }
  }

  lemma {:induction false} StepsXor(x: Reg, y: Reg, n: nat)
    ensures Steps(Xor(x, y), n) == Xor(Steps(x, n), Steps(y, n))
    decreases n
  {
    if n > 0 {
      StepXor(x, y);
      StepsXor(Step(x), Step(y), n - 1);
    }
  }

  lemma {:induction false} StepsOfClearLow(c: Reg, k: nat)
    requires k <= 32
    requires forall i :: 0 <= i < k ==> !c[i]
    ensures Steps(c, k) == c[k..] + Zeros(k)
    decreases k
  {
    if k > 0 {
      var d := Step(c);
      assert d == c[1..] + [false];
      StepsOfClearLow(d, k - 1);
      assert d[k - 1..] + Zeros(k - 1) == c[k..] + Zeros(k);
    }
  }

  lemma {:induction false} ValueBits(n: nat, w: nat)
    requires n < Pow2(w)
    ensures Value(Bits(n, w)) == n
    decreases w
  {
    if w > 0 {
      var bs := Bits(n, w);
      assert bs[1..] == Bits(n / 2, w - 1);
      ValueBits(n / 2, w - 1);
    }
  }

  lemma {:induction false} BitsValue(bs: seq<bool>)
    ensures Bits(Value(bs), |bs|) == bs
    decreases |bs|
  {
    if bs != [] {
      BitsValue(bs[1..]);
      var v := Value(bs);
      assert v / 2 == Value(bs[1..]);
      assert (v % 2 == 1) == bs[0];
    }
  }

  lemma {:induction false} ValueBound(bs: seq<bool>)
    ensures Value(bs) < Pow2(|bs|)
    decreases |bs|
  {
    if bs != [] {
      ValueBound(bs[1..]);
    }
  }

  lemma {:induction false} BitsOfZero(w: nat)
    ensures Bits(0, w) == Zeros(w)
    decreases w
  {
    if w > 0 {
      BitsOfZero(w - 1);
    }
  }

  /** A number below 2^k has no bits set from position k upward. */
  lemma {:induction false} BitsNarrow(n: nat, k: nat, w: nat)
    requires k <= w && n < Pow2(k)
    ensures Bits(n, w) == Bits(n, k) + Zeros(w - k)
    decreases k
  {
    if k == 0 {
      BitsOfZero(w);
    } else {
      BitsNarrow(n / 2, k - 1, w - 1);
    }
  }

  lemma Pow2Values()
    ensures Pow2(8) == 256 && Pow2(32) == 0x1_0000_0000
  {
    assert Pow2(8) == 256;
    assert Pow2(16) == 256 * Pow2(8) by {
      assert Pow2(16) == 2 * 2 * 2 * 2 * 2 * 2 * 2 * 2 * Pow2(8);
    }
    assert Pow2(24) == 256 * Pow2(16) by {
      assert Pow2(24) == 2 * 2 * 2 * 2 * 2 * 2 * 2 * 2 * Pow2(16);
    }
    assert Pow2(32) == 256 * Pow2(24) by {
      assert Pow2(32) == 2 * 2 * 2 * 2 * 2 * 2 * 2 * 2 * Pow2(24);
    }
  }

  /** A `uint32_t` as its 32 bits, least significant first. */
  function FromU32(n: u32): Reg {
    BitsLength(n, 32);
    Bits(n, 32)
  }

  function ToU32(c: Reg): u32 {
    ValueBound(c);
    Pow2Values();
    Value(c)
  }

  lemma U32RoundTrip(n: u32, c: Reg)
    ensures ToU32(FromU32(n)) == n
    ensures FromU32(ToU32(c)) == c
  {
    Pow2Values();
    ValueBits(n, 32);
    BitsValue(c);
  }

  /** A byte widened to 32 bits: `(uint32_t) buf[i]`. */
  function Widen(b: byte): Reg {
    BitsLength(b, 32);
    Bits(b, 32)
  }

  /** `x & 0xFF`, the index into the table. */
  function LowByte(x: Reg): byte {
    ValueBound(x[..8]);
    Value(x[..8])
  }

  // ---------------------------------------------------------------------------
  // The table-driven CRC.
  // ---------------------------------------------------------------------------

  /** What `make_crc_table` stores in `crc_table[n]`. */
  function TableEntry(n: byte): Reg {
    Steps(Widen(n), ByteBits)
  }

  /** One iteration of the byte loop, on the inverted register. */
  function TableUpdate(reg: Reg, b: byte): Reg {
    Xor(TableEntry(LowByte(Xor(reg, Widen(b)))), Shr8(reg))
  }

  /** A left fold of `f` over `buf`, first byte first. */
  function FoldWith(f: (Reg, byte) -> Reg, reg: Reg, buf: seq<byte>): Reg
    decreases |buf|
  {
    if buf == [] then reg else f(FoldWith(f, reg, buf[..|buf| - 1]), buf[|buf| - 1])
  }

  /** The byte loop of `crc32` over `buf`. */
  function Fold(reg: Reg, buf: seq<byte>): Reg {
    FoldWith(TableUpdate, reg, buf)
  }

  /** `crc32(crc, buf, len)`. */
  function Crc32(crc: u32, buf: seq<byte>): u32 {
    ToU32(Xor(Fold(Xor(FromU32(crc), AllOnes), buf), AllOnes))
  }

  // ---------------------------------------------------------------------------
  // Independent reference: the bit-at-a-time reflected CRC of ISO/IEC 3309.
  // ---------------------------------------------------------------------------

  /** The byte enters the low end of the register, then eight bit steps. */
  function BitUpdate(reg: Reg, b: byte): Reg {
    Steps(Xor(reg, Widen(b)), ByteBits)
  }

  function BitFold(reg: Reg, buf: seq<byte>): Reg {
    FoldWith(BitUpdate, reg, buf)
  }

  /** ISO/IEC 3309 CRC-32: register preset to all ones, result complemented. */
  function Iso3309(buf: seq<byte>): u32 {
    ToU32(Xor(BitFold(AllOnes, buf), AllOnes))
  }

  /** The low byte of a register, as a register of its own. */
  lemma WidenLowByte(x: Reg)
    ensures Widen(LowByte(x)) == x[..8] + Zeros(24)
  {
    Pow2Values();
    ValueBound(x[..8]);
    BitsNarrow(LowByte(x), 8, 32);
    BitsValue(x[..8]);
  }

  /** Eight bit steps split into a table lookup on the low byte and a shift
    * of the rest: the identity that makes the table-driven loop correct. */
  lemma EightStepsSplit(x: Reg)
    ensures Steps(x, ByteBits) == Xor(TableEntry(LowByte(x)), Shr8(x))
  {
    var lo: Reg := x[..8] + Zeros(24);
    var hi: Reg := Zeros(8) + x[8..];
    assert x == Xor(lo, hi);
    StepsXor(lo, hi, ByteBits);
    StepsOfClearLow(hi, ByteBits);
    assert hi[8..] == x[8..];
    WidenLowByte(x);
  }

  /** Xor with a byte leaves everything above the low 8 bits alone. */
  lemma ShrXorByte(reg: Reg, b: byte)
    ensures Shr8(Xor(reg, Widen(b))) == Shr8(reg)
  {
    Pow2Values();
    BitsNarrow(b, 8, 32);
  }

  /** The table-driven byte step equals eight bit-at-a-time steps. */
  lemma TableUpdateIsBitwise(reg: Reg, b: byte)
    ensures TableUpdate(reg, b) == BitUpdate(reg, b)
  {
    EightStepsSplit(Xor(reg, Widen(b)));
    ShrXorByte(reg, b);
  }

  lemma {:induction false} FoldWithSame(f: (Reg, byte) -> Reg, g: (Reg, byte) -> Reg, reg: Reg, buf: seq<byte>)
    requires forall r, b :: f(r, b) == g(r, b)
    ensures FoldWith(f, reg, buf) == FoldWith(g, reg, buf)
    decreases |buf|
  {
    if buf != [] {
      FoldWithSame(f, g, reg, buf[..|buf| - 1]);
    }
  }

  lemma FoldIsBitFold(reg: Reg, buf: seq<byte>)
    ensures Fold(reg, buf) == BitFold(reg, buf)
  {
    forall r, b ensures TableUpdate(r, b) == BitUpdate(r, b) {
      TableUpdateIsBitwise(r, b);
    }
    FoldWithSame(TableUpdate, BitUpdate, reg, buf);
  }

  /** `crc32(0, buf, len)` is the ISO/IEC 3309 CRC-32 of `buf`. */
  lemma Crc32IsIso3309(buf: seq<byte>)
    ensures Crc32(0, buf) == Iso3309(buf)
  {
    BitsOfZero(32);
    XorZero(AllOnes);
    FoldIsBitFold(AllOnes, buf);
  }

  lemma XorZero(a: Reg)
    ensures Xor(Zeros(32), a) == a
  {
  }

  /** `crc_table[0] == 0`. */
  lemma TableEntryZero()
    ensures TableEntry(0) == Zeros(32)
  {
    BitsOfZero(32);
    StepsOfClearLow(Zeros(32), ByteBits);
  }

  // ---------------------------------------------------------------------------
  // The incremental composition law.
  // ---------------------------------------------------------------------------

  lemma FoldAppend(reg: Reg, a: seq<byte>, b: seq<byte>)
    ensures Fold(reg, a + b) == Fold(Fold(reg, a), b)
  {
    FoldWithAppend(TableUpdate, reg, a, b);
  }

  lemma {:induction false} FoldWithAppend(f: (Reg, byte) -> Reg, reg: Reg, a: seq<byte>, b: seq<byte>)
    ensures FoldWith(f, reg, a + b) == FoldWith(f, FoldWith(f, reg, a), b)
    decreases |b|
  {
    if b == [] {
      assert a + b == a;
    } else {
      var ab := a + b;
      assert ab[..|ab| - 1] == a + b[..|b| - 1];
      assert ab[|ab| - 1] == b[|b| - 1];
      FoldWithAppend(f, reg, a, b[..|b| - 1]);
    }
  }

  /** On an empty buffer the two inversions cancel. */
  lemma Crc32Empty(crc: u32)
    ensures Crc32(crc, []) == crc
  {
    XorCancel(FromU32(crc), AllOnes);
    U32RoundTrip(crc, FromU32(crc));
  }

  /** Folding `a` and then `b` gives the CRC of `a + b`: the law that lets
    * the client, the server and the flash driver checksum block by block. */
  lemma Crc32Append(crc: u32, a: seq<byte>, b: seq<byte>)
    ensures Crc32(Crc32(crc, a), b) == Crc32(crc, a + b)
  {
    var start := Xor(FromU32(crc), AllOnes);
    var mid := Fold(start, a);
    U32RoundTrip(0, Xor(mid, AllOnes));
    assert FromU32(Crc32(crc, a)) == Xor(mid, AllOnes);
    XorCancel(mid, AllOnes);
    FoldAppend(start, a, b);
  }

  /** A checksum over bytes in `crc32`'s calling convention `(crc, bytes)`.
    * The client, the loader simulator's server and the flash driver each
    * fold their bytes with one; their constructors install `Crc32`. */
  type Checksum = (u32, seq<byte>) -> u32

  /** The empty case and the composition law, stated of any checksum: all
    * that the components' proofs use of the one they are given. */
  ghost predicate Incremental(h: Checksum) {
    (forall c: u32 :: h(c, []) == c)
    && (forall c: u32, a: seq<byte>, b: seq<byte> {:trigger h(h(c, a), b)} :: h(h(c, a), b) == h(c, a + b))
  }

  /** `crc32` is incremental. */
  lemma Crc32Incremental()
    ensures Incremental(Crc32)
  {
    forall c: u32 ensures Crc32(c, []) == c {
      Crc32Empty(c);
    }
    forall c: u32, a: seq<byte>, b: seq<byte> ensures Crc32(Crc32(c, a), b) == Crc32(c, a + b) {
      Crc32Append(c, a, b);
    }
  }

  // ---------------------------------------------------------------------------
  // The C routines: a static table filled once, then a per-byte loop.
  // ---------------------------------------------------------------------------

  class Crc32Engine {
    var table: array<Reg>         // crc_table[256]
    var tableComputed: bool       // table_computed

    ghost predicate Valid()
      reads this, table
    {
      table.Length == 256 &&
      (tableComputed ==> forall n :: 0 <= n < 256 ==> table[n] == TableEntry(n))
    }

    /** Static storage starts zeroed and not yet computed. */
    constructor ()
      ensures Valid() && fresh(table) && !tableComputed
    {
      table := new Reg[256](_ => Zeros(32));
      tableComputed := false;
    }

    /** `make_crc_table`: every entry is its index after eight steps. */
    method MakeCrcTable()
      requires Valid()
      modifies this, table
      ensures Valid() && table == old(table) && tableComputed
      ensures forall n :: 0 <= n < 256 ==> table[n] == TableEntry(n)
    {
      var i := 0;
      while i < 256
        invariant 0 <= i <= 256 && table == old(table)
        invariant forall n :: 0 <= n < i ==> table[..][n] == TableEntry(n)
        modifies table
      {
        var c := Widen(i);
        var j := 0;
        while j < ByteBits
          invariant 0 <= j <= ByteBits
          invariant c == Steps(Widen(i), j)
          modifies {}
        {
          StepsSucc(Widen(i), j);
          c := Step(c);
          j := j + 1;
        }
        ghost var before := table[..];
        table[i] := c;
        assert table[..] == before[i := c];
        i := i + 1;
      }
      tableComputed := true;
    }

    /** The byte loop of `crc32` over a computed table. */
    method FoldBytes(reg: Reg, buf: seq<byte>) returns (c: Reg)
      requires Valid() && tableComputed
      ensures c == Fold(reg, buf)
    {
      c := reg;
      var i := 0;
      while i < |buf|
        invariant 0 <= i <= |buf|
        invariant c == Fold(reg, buf[..i])
      {
        assert buf[..i + 1][..i] == buf[..i];
        var idx := LowByte(Xor(c, Widen(buf[i])));
        assert table[idx] == TableEntry(idx);
        c := Xor(table[idx], Shr8(c));
        i := i + 1;
      }
      assert buf[..i] == buf;
    }

    /** `crc32(crc, buf, len)`: builds the table on first use only, and the
      * result is the same whether or not this was the first call. */
    method Compute(crc: u32, buf: seq<byte>) returns (r: u32)
      requires Valid()
      modifies this, table
      ensures Valid() && table == old(table) && tableComputed
      ensures old(tableComputed) ==> table[..] == old(table[..])
      ensures r == Crc32(crc, buf)
    {
      if !tableComputed {
        MakeCrcTable();
      }
      var c := FoldBytes(Xor(FromU32(crc), AllOnes), buf);
      r := ToU32(Xor(c, AllOnes));
    }
  }
}
