/** The checksum of Redis Cluster slots: the table-driven CRC16 is polynomial division, and it tells close keys apart.
    The standard is the Redis Cluster Specification, "Appendix A: CRC16 reference implementation in ANSI C". */
module Crc16 {
  import opened Gf2

  type bytes = seq<bv8>

  /** crc16tab, in rows of eight. */
  const TABLE: seq<seq<bv16>> := [
    [0x0000, 0x1021, 0x2042, 0x3063, 0x4084, 0x50a5, 0x60c6, 0x70e7],
    [0x8108, 0x9129, 0xa14a, 0xb16b, 0xc18c, 0xd1ad, 0xe1ce, 0xf1ef],
    [0x1231, 0x0210, 0x3273, 0x2252, 0x52b5, 0x4294, 0x72f7, 0x62d6],
    [0x9339, 0x8318, 0xb37b, 0xa35a, 0xd3bd, 0xc39c, 0xf3ff, 0xe3de],
    [0x2462, 0x3443, 0x0420, 0x1401, 0x64e6, 0x74c7, 0x44a4, 0x5485],
    [0xa56a, 0xb54b, 0x8528, 0x9509, 0xe5ee, 0xf5cf, 0xc5ac, 0xd58d],
    [0x3653, 0x2672, 0x1611, 0x0630, 0x76d7, 0x66f6, 0x5695, 0x46b4],
    [0xb75b, 0xa77a, 0x9719, 0x8738, 0xf7df, 0xe7fe, 0xd79d, 0xc7bc],
    [0x48c4, 0x58e5, 0x6886, 0x78a7, 0x0840, 0x1861, 0x2802, 0x3823],
    [0xc9cc, 0xd9ed, 0xe98e, 0xf9af, 0x8948, 0x9969, 0xa90a, 0xb92b],
    [0x5af5, 0x4ad4, 0x7ab7, 0x6a96, 0x1a71, 0x0a50, 0x3a33, 0x2a12],
    [0xdbfd, 0xcbdc, 0xfbbf, 0xeb9e, 0x9b79, 0x8b58, 0xbb3b, 0xab1a],
    [0x6ca6, 0x7c87, 0x4ce4, 0x5cc5, 0x2c22, 0x3c03, 0x0c60, 0x1c41],
    [0xedae, 0xfd8f, 0xcdec, 0xddcd, 0xad2a, 0xbd0b, 0x8d68, 0x9d49],
    [0x7e97, 0x6eb6, 0x5ed5, 0x4ef4, 0x3e13, 0x2e32, 0x1e51, 0x0e70],
    [0xff9f, 0xefbe, 0xdfdd, 0xcffc, 0xbf1b, 0xaf3a, 0x9f59, 0x8f78],
    [0x9188, 0x81a9, 0xb1ca, 0xa1eb, 0xd10c, 0xc12d, 0xf14e, 0xe16f],
    [0x1080, 0x00a1, 0x30c2, 0x20e3, 0x5004, 0x4025, 0x7046, 0x6067],
    [0x83b9, 0x9398, 0xa3fb, 0xb3da, 0xc33d, 0xd31c, 0xe37f, 0xf35e],
    [0x02b1, 0x1290, 0x22f3, 0x32d2, 0x4235, 0x5214, 0x6277, 0x7256],
    [0xb5ea, 0xa5cb, 0x95a8, 0x8589, 0xf56e, 0xe54f, 0xd52c, 0xc50d],
    [0x34e2, 0x24c3, 0x14a0, 0x0481, 0x7466, 0x6447, 0x5424, 0x4405],
    [0xa7db, 0xb7fa, 0x8799, 0x97b8, 0xe75f, 0xf77e, 0xc71d, 0xd73c],
    [0x26d3, 0x36f2, 0x0691, 0x16b0, 0x6657, 0x7676, 0x4615, 0x5634],
    [0xd94c, 0xc96d, 0xf90e, 0xe92f, 0x99c8, 0x89e9, 0xb98a, 0xa9ab],
    [0x5844, 0x4865, 0x7806, 0x6827, 0x18c0, 0x08e1, 0x3882, 0x28a3],
    [0xcb7d, 0xdb5c, 0xeb3f, 0xfb1e, 0x8bf9, 0x9bd8, 0xabbb, 0xbb9a],
    [0x4a75, 0x5a54, 0x6a37, 0x7a16, 0x0af1, 0x1ad0, 0x2ab3, 0x3a92],
    [0xfd2e, 0xed0f, 0xdd6c, 0xcd4d, 0xbdaa, 0xad8b, 0x9de8, 0x8dc9],
    [0x7c26, 0x6c07, 0x5c64, 0x4c45, 0x3ca2, 0x2c83, 0x1ce0, 0x0cc1],
    [0xef1f, 0xff3e, 0xcf5d, 0xdf7c, 0xaf9b, 0xbfba, 0x8fd9, 0x9ff8],
    [0x6e17, 0x7e36, 0x4e55, 0x5e74, 0x2e93, 0x3eb2, 0x0ed1, 0x1ef0]
  ]

  // ---------------------------------------------------------------- polynomial division

  /** One more byte of the message, from its highest bit. */
  function DivideByte(crc: bv16, b: bv8): bv16
  {
    Shift8(Add(crc, High(b)))
  }

  /** Divides a message bit by bit, starting from 0 and without reflection. */
  function Remainder(data: bytes): bv16
  {
    if data == [] then 0 else DivideByte(Remainder(data[..|data| - 1]), data[|data| - 1])
  }

  // ---------------------------------------------------------------- the table

  lemma TableShape()
    ensures |TABLE| == 32
    ensures forall r :: 0 <= r < 32 ==> |TABLE[r]| == 8
  {
  }

  lemma IndexInTable(i: bv8)
    ensures (i >> 3) as int < 32 && (i & 7) as int < 8
  {
  }

  /** crc16tab[i] */
  function Entry(i: bv8): bv16
  {
    TableShape();
    IndexInTable(i);
    TABLE[(i >> 3) as int][(i & 7) as int]
  }

  /** Every entry is the remainder of its index. */
  lemma EntryIsShift8(i: bv8)
    ensures Entry(i) == Shift8(High(i))
  {
  }

  // ---------------------------------------------------------------- the loop

  function LowByte(x: bv16): bv8
  {
    (x & 0x00FF) as bv8
  }

  lemma SplitWord(crc: bv16, b: bv8)
    ensures Add(crc, High(b)) == Add(High(LowByte((crc >> 8) ^ (b as bv16))), Low(LowByte(crc)))
  {
    hide Shift8, Shift, Unshift, Add, LowByte;
    HighOfLow(crc, b);
    AddSwap(High(LowByte(crc >> 8)), Low(LowByte(crc)), High(b), 0);
    TwoHalves(crc);
    AddZero(High(b), 0);
    AddZero(Low(LowByte(crc)), 0);
    AddCommutative(0, High(b));
    AddCommutative(0, Low(LowByte(crc)));
  }

  lemma TwoHalves(crc: bv16)
    ensures crc == Add(High(LowByte(crc >> 8)), Low(LowByte(crc)))
  {
    hide Shift8, Shift, Unshift;
  }

  lemma HighOfLow(crc: bv16, b: bv8)
    ensures High(LowByte((crc >> 8) ^ (b as bv16))) == Add(High(LowByte(crc >> 8)), High(b))
  {
    hide Shift8, Shift, Unshift;
  }

  lemma ShiftedLow(crc: bv16)
    ensures crc << 8 == High(LowByte(crc))
  {
    hide Shift8, Shift, Unshift;
  }

  lemma TableAdds(crc: bv16, b: bv8)
    ensures Add(crc << 8, Entry(LowByte((crc >> 8) ^ (b as bv16)))) == DivideByte(crc, b)
  {
    hide Shift8, Entry, Add, High, Low, LowByte;
    var i, l := LowByte((crc >> 8) ^ (b as bv16)), LowByte(crc);
    SplitWord(crc, b);
    Shift8Linear(High(i), Low(l));
    EntryIsShift8(i);
    ShiftLow(l);
    ShiftedLow(crc);
    AddCommutative(Shift8(High(i)), High(l));
  }

  /** One turn of the loop divides eight more bits. */
  lemma TableStep(crc: bv16, b: bv8)
    ensures (crc << 8) ^ Entry(LowByte((crc >> 8) ^ (b as bv16))) == DivideByte(crc, b)
  {
    hide Entry, LowByte, DivideByte;
    TableAdds(crc, b);
  }

  /** CalculateCRC16 is division of the message by x^16 + x^12 + x^5 + 1. */
  method CalculateCRC16(data: bytes) returns (crc: bv16)
    ensures crc == Remainder(data)
  {
    hide Shift8, Entry, Add, High, Low, LowByte, DivideByte;
    crc := 0;
    for i := 0 to |data|
      invariant crc == Remainder(data[..i])
    {
      assert data[..i + 1][..i] == data[..i];
      var b := data[i];
      TableStep(crc, b);
      assert Remainder(data[..i + 1]) == DivideByte(crc, b);
      crc := (crc << 8) ^ Entry(LowByte((crc >> 8) ^ (b as bv16)));
    }
    assert data[..|data|] == data;
  }

  // ---------------------------------------------------------------- telling messages apart

  function Xor(a: bytes, b: bytes): (d: bytes)
    requires |a| == |b|
    ensures |d| == |a|
    ensures forall i :: 0 <= i < |a| ==> d[i] == a[i] ^ b[i]
  {
    seq(|a|, i requires 0 <= i < |a| => a[i] ^ b[i])
  }

  lemma DivideLinear(x: bv16, y: bv16, a: bv8, b: bv8)
    ensures DivideByte(Add(x, y), a ^ b) == Add(DivideByte(x, a), DivideByte(y, b))
  {
    hide Shift8, Add, High, Low;
    HighLinear(a, b);
    AddSwap(x, y, High(a), High(b));
    Shift8Linear(Add(x, High(a)), Add(y, High(b)));
  }

  /** Messages of one length: the checksum of the difference is the difference of the checksums. */
  lemma {:induction false} RemainderLinear(a: bytes, b: bytes)
    requires |a| == |b|
    ensures Remainder(Xor(a, b)) == Add(Remainder(a), Remainder(b))
  {
    hide Add, DivideByte;
    if a == [] {
      AddZero(0, 0);
    } else {
      var n := |a| - 1;
      assert Xor(a, b)[..n] == Xor(a[..n], b[..n]);
      RemainderLinear(a[..n], b[..n]);
      DivideLinear(Remainder(a[..n]), Remainder(b[..n]), a[n], b[n]);
    }
  }

  /** From one checksum to the next a byte is a bijection: whatever it leads to, exactly one checksum leads there. */
  lemma StepBijective(y: bv16, b: bv8) returns (x: bv16)
    ensures DivideByte(x, b) == y
    ensures forall z :: DivideByte(z, b) == y ==> z == x
  {
    hide Shift8, Add, High;
    var u := Shift8Onto(y);
    x := Add(u, High(b));
    AddCancel(u, High(b));
    forall z | DivideByte(z, b) == y
      ensures z == x
    {
      Shift8Injective(Add(z, High(b)), u);
      AddCancel(z, High(b));
    }
  }

  lemma AddCancel(x: bv16, h: bv16)
    ensures Add(Add(x, h), h) == x
  {
    hide Add;
    AddAssociative(x, h, h);
    AddZero(h, h);
    AddCommutative(x, 0);
    AddZero(x, x);
  }

  lemma DivideZero(x: bv16)
    ensures DivideByte(x, 0) == 0 <==> x == 0
  {
    hide Shift8, Add, High;
    HighZero();
    AddCommutative(x, 0);
    AddZero(x, x);
    Shift8Kernel(x);
  }

  lemma {:induction false} ZerosRemain(d: bytes, k: nat)
    requires k <= |d| && forall i :: 0 <= i < k ==> d[i] == 0
    ensures Remainder(d[..k]) == 0
  {
    hide DivideByte;
    if k > 0 {
      ZerosRemain(d, k - 1);
      assert d[..k][..k - 1] == d[..k - 1];
      DivideZero(0);
    }
  }

  /** Trailing zero bytes cannot make a remainder vanish. */
  lemma {:induction false} ZerosKeep(d: bytes, k: nat)
    requires k <= |d| && forall i :: k <= i < |d| ==> d[i] == 0
    requires Remainder(d[..k]) != 0
    ensures Remainder(d) != 0
  {
    hide DivideByte;
    if k == |d| {
      assert d[..k] == d;
    } else {
      var n := |d| - 1;
      assert d[..n][..k] == d[..k];
      ZerosKeep(d[..n], k);
      DivideZero(Remainder(d[..n]));
    }
  }

  lemma TwoBytes(x: bv8, y: bv8)
    requires x != 0 || y != 0
    ensures DivideByte(DivideByte(0, x), y) != 0
  {
    hide Shift8, Add, High, Low;
    var u := High(x);
    AddZero(u, u);
    ShiftLow(y);
    Shift8Linear(u, Low(y));
    HighLowZero(x, y);
    Shift8Kernel(Add(u, Low(y)));
    Shift8Kernel(Shift8(Add(u, Low(y))));
  }

  lemma XorZero8(x: bv8, y: bv8)
    ensures x ^ y == 0 <==> x == y
  {
  }

  /** Two messages of one length that differ, but only inside two adjacent bytes, never have the same checksum. */
  lemma AdjacentBytesNeverCollide(a: bytes, b: bytes, k: nat)
    requires |a| == |b| && k + 1 < |a|
    requires forall i :: 0 <= i < |a| && i != k && i != k + 1 ==> a[i] == b[i]
    requires a != b
    ensures Remainder(a) != Remainder(b)
  {
    hide Add, DivideByte;
    var d := Xor(a, b);
    forall i | 0 <= i < |a|
      ensures d[i] == 0 <==> a[i] == b[i]
    {
      XorZero8(a[i], b[i]);
    }
    assert d[k] != 0 || d[k + 1] != 0;
    ZerosRemain(d, k);
    assert d[..k + 2][..k + 1] == d[..k + 1] && d[..k + 1][..k] == d[..k];
    TwoBytes(d[k], d[k + 1]);
    ZerosKeep(d, k + 2);
    RemainderLinear(a, b);
    AddZero(Remainder(a), Remainder(b));
  }

  lemma Unroll(d: bytes, k: nat)
    requires k < |d|
    ensures Remainder(d[..k + 1]) == DivideByte(Remainder(d[..k]), d[k])
  {
    hide DivideByte;
    assert d[..k + 1][..k] == d[..k];
  }

  lemma CheckSteps()
    ensures DivideByte(0x0000, 0x31) == 0x2672
    ensures DivideByte(0x2672, 0x32) == 0x20b5
    ensures DivideByte(0x20b5, 0x33) == 0x9752
    ensures DivideByte(0x9752, 0x34) == 0xd789
    ensures DivideByte(0xd789, 0x35) == 0x546c
    ensures DivideByte(0x546c, 0x36) == 0x20e4
    ensures DivideByte(0x20e4, 0x37) == 0x86d6
    ensures DivideByte(0x86d6, 0x38) == 0x9015
    ensures DivideByte(0x9015, 0x39) == 0x31c3
  {
  }

  /** The standard's check value, for the message 123456789. */
  lemma CheckValue()
    ensures Remainder([0x31, 0x32, 0x33, 0x34, 0x35, 0x36, 0x37, 0x38, 0x39]) == 0x31C3
  {
    var d: bytes := [0x31, 0x32, 0x33, 0x34, 0x35, 0x36, 0x37, 0x38, 0x39];
    hide DivideByte;
    CheckSteps();
    Unroll(d, 0);
    Unroll(d, 1);
    Unroll(d, 2);
    Unroll(d, 3);
    Unroll(d, 4);
    Unroll(d, 5);
    Unroll(d, 6);
    Unroll(d, 7);
    Unroll(d, 8);
    assert d[..9] == d && d[..0] == [];
  }
}
