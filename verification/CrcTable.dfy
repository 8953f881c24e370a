/** The table of the pure Python checksum (record/_crc32c.py), entry by entry, and that it is
    the table the register generates. */
module CrcTable {
  import opened ShiftRegister
  import opened Crc32c

  function Row0(i: bv8): bv32 {
    if i == 0 then 0x00000000 else if i == 1 then 0xf26b8303 else if i == 2 then 0xe13b70f7
    else if i == 3 then 0x1350f3f4 else if i == 4 then 0xc79a971f else if i == 5 then 0x35f1141c
    else if i == 6 then 0x26a1e7e8 else if i == 7 then 0xd4ca64eb else if i == 8 then 0x8ad958cf
    else if i == 9 then 0x78b2dbcc else if i == 10 then 0x6be22838 else if i == 11 then 0x9989ab3b
    else if i == 12 then 0x4d43cfd0 else if i == 13 then 0xbf284cd3 else if i == 14 then 0xac78bf27
    else 0x5e133c24
  }

  function Row1(i: bv8): bv32 {
    if i == 0 then 0x105ec76f else if i == 1 then 0xe235446c else if i == 2 then 0xf165b798
    else if i == 3 then 0x030e349b else if i == 4 then 0xd7c45070 else if i == 5 then 0x25afd373
    else if i == 6 then 0x36ff2087 else if i == 7 then 0xc494a384 else if i == 8 then 0x9a879fa0
    else if i == 9 then 0x68ec1ca3 else if i == 10 then 0x7bbcef57 else if i == 11 then 0x89d76c54
    else if i == 12 then 0x5d1d08bf else if i == 13 then 0xaf768bbc else if i == 14 then 0xbc267848
    else 0x4e4dfb4b
  }

  function Row2(i: bv8): bv32 {
    if i == 0 then 0x20bd8ede else if i == 1 then 0xd2d60ddd else if i == 2 then 0xc186fe29
    else if i == 3 then 0x33ed7d2a else if i == 4 then 0xe72719c1 else if i == 5 then 0x154c9ac2
    else if i == 6 then 0x061c6936 else if i == 7 then 0xf477ea35 else if i == 8 then 0xaa64d611
    else if i == 9 then 0x580f5512 else if i == 10 then 0x4b5fa6e6 else if i == 11 then 0xb93425e5
    else if i == 12 then 0x6dfe410e else if i == 13 then 0x9f95c20d else if i == 14 then 0x8cc531f9
    else 0x7eaeb2fa
  }

  function Row3(i: bv8): bv32 {
    if i == 0 then 0x30e349b1 else if i == 1 then 0xc288cab2 else if i == 2 then 0xd1d83946
    else if i == 3 then 0x23b3ba45 else if i == 4 then 0xf779deae else if i == 5 then 0x05125dad
    else if i == 6 then 0x1642ae59 else if i == 7 then 0xe4292d5a else if i == 8 then 0xba3a117e
    else if i == 9 then 0x4851927d else if i == 10 then 0x5b016189 else if i == 11 then 0xa96ae28a
    else if i == 12 then 0x7da08661 else if i == 13 then 0x8fcb0562 else if i == 14 then 0x9c9bf696
    else 0x6ef07595
  }

  function Row4(i: bv8): bv32 {
    if i == 0 then 0x417b1dbc else if i == 1 then 0xb3109ebf else if i == 2 then 0xa0406d4b
    else if i == 3 then 0x522bee48 else if i == 4 then 0x86e18aa3 else if i == 5 then 0x748a09a0
    else if i == 6 then 0x67dafa54 else if i == 7 then 0x95b17957 else if i == 8 then 0xcba24573
    else if i == 9 then 0x39c9c670 else if i == 10 then 0x2a993584 else if i == 11 then 0xd8f2b687
    else if i == 12 then 0x0c38d26c else if i == 13 then 0xfe53516f else if i == 14 then 0xed03a29b
    else 0x1f682198
  }

  function Row5(i: bv8): bv32 {
    if i == 0 then 0x5125dad3 else if i == 1 then 0xa34e59d0 else if i == 2 then 0xb01eaa24
    else if i == 3 then 0x42752927 else if i == 4 then 0x96bf4dcc else if i == 5 then 0x64d4cecf
    else if i == 6 then 0x77843d3b else if i == 7 then 0x85efbe38 else if i == 8 then 0xdbfc821c
    else if i == 9 then 0x2997011f else if i == 10 then 0x3ac7f2eb else if i == 11 then 0xc8ac71e8
    else if i == 12 then 0x1c661503 else if i == 13 then 0xee0d9600 else if i == 14 then 0xfd5d65f4
    else 0x0f36e6f7
  }

  function Row6(i: bv8): bv32 {
    if i == 0 then 0x61c69362 else if i == 1 then 0x93ad1061 else if i == 2 then 0x80fde395
    else if i == 3 then 0x72966096 else if i == 4 then 0xa65c047d else if i == 5 then 0x5437877e
    else if i == 6 then 0x4767748a else if i == 7 then 0xb50cf789 else if i == 8 then 0xeb1fcbad
    else if i == 9 then 0x197448ae else if i == 10 then 0x0a24bb5a else if i == 11 then 0xf84f3859
    else if i == 12 then 0x2c855cb2 else if i == 13 then 0xdeeedfb1 else if i == 14 then 0xcdbe2c45
    else 0x3fd5af46
  }

  function Row7(i: bv8): bv32 {
    if i == 0 then 0x7198540d else if i == 1 then 0x83f3d70e else if i == 2 then 0x90a324fa
    else if i == 3 then 0x62c8a7f9 else if i == 4 then 0xb602c312 else if i == 5 then 0x44694011
    else if i == 6 then 0x5739b3e5 else if i == 7 then 0xa55230e6 else if i == 8 then 0xfb410cc2
    else if i == 9 then 0x092a8fc1 else if i == 10 then 0x1a7a7c35 else if i == 11 then 0xe811ff36
    else if i == 12 then 0x3cdb9bdd else if i == 13 then 0xceb018de else if i == 14 then 0xdde0eb2a
    else 0x2f8b6829
  }

  function Row8(i: bv8): bv32 {
    if i == 0 then 0x82f63b78 else if i == 1 then 0x709db87b else if i == 2 then 0x63cd4b8f
    else if i == 3 then 0x91a6c88c else if i == 4 then 0x456cac67 else if i == 5 then 0xb7072f64
    else if i == 6 then 0xa457dc90 else if i == 7 then 0x563c5f93 else if i == 8 then 0x082f63b7
    else if i == 9 then 0xfa44e0b4 else if i == 10 then 0xe9141340 else if i == 11 then 0x1b7f9043
    else if i == 12 then 0xcfb5f4a8 else if i == 13 then 0x3dde77ab else if i == 14 then 0x2e8e845f
    else 0xdce5075c
  }

  function Row9(i: bv8): bv32 {
    if i == 0 then 0x92a8fc17 else if i == 1 then 0x60c37f14 else if i == 2 then 0x73938ce0
    else if i == 3 then 0x81f80fe3 else if i == 4 then 0x55326b08 else if i == 5 then 0xa759e80b
    else if i == 6 then 0xb4091bff else if i == 7 then 0x466298fc else if i == 8 then 0x1871a4d8
    else if i == 9 then 0xea1a27db else if i == 10 then 0xf94ad42f else if i == 11 then 0x0b21572c
    else if i == 12 then 0xdfeb33c7 else if i == 13 then 0x2d80b0c4 else if i == 14 then 0x3ed04330
    else 0xccbbc033
  }

  function RowA(i: bv8): bv32 {
    if i == 0 then 0xa24bb5a6 else if i == 1 then 0x502036a5 else if i == 2 then 0x4370c551
    else if i == 3 then 0xb11b4652 else if i == 4 then 0x65d122b9 else if i == 5 then 0x97baa1ba
    else if i == 6 then 0x84ea524e else if i == 7 then 0x7681d14d else if i == 8 then 0x2892ed69
    else if i == 9 then 0xdaf96e6a else if i == 10 then 0xc9a99d9e else if i == 11 then 0x3bc21e9d
    else if i == 12 then 0xef087a76 else if i == 13 then 0x1d63f975 else if i == 14 then 0x0e330a81
    else 0xfc588982
  }

  function RowB(i: bv8): bv32 {
    if i == 0 then 0xb21572c9 else if i == 1 then 0x407ef1ca else if i == 2 then 0x532e023e
    else if i == 3 then 0xa145813d else if i == 4 then 0x758fe5d6 else if i == 5 then 0x87e466d5
    else if i == 6 then 0x94b49521 else if i == 7 then 0x66df1622 else if i == 8 then 0x38cc2a06
    else if i == 9 then 0xcaa7a905 else if i == 10 then 0xd9f75af1 else if i == 11 then 0x2b9cd9f2
    else if i == 12 then 0xff56bd19 else if i == 13 then 0x0d3d3e1a else if i == 14 then 0x1e6dcdee
    else 0xec064eed
  }

  function RowC(i: bv8): bv32 {
    if i == 0 then 0xc38d26c4 else if i == 1 then 0x31e6a5c7 else if i == 2 then 0x22b65633
    else if i == 3 then 0xd0ddd530 else if i == 4 then 0x0417b1db else if i == 5 then 0xf67c32d8
    else if i == 6 then 0xe52cc12c else if i == 7 then 0x1747422f else if i == 8 then 0x49547e0b
    else if i == 9 then 0xbb3ffd08 else if i == 10 then 0xa86f0efc else if i == 11 then 0x5a048dff
    else if i == 12 then 0x8ecee914 else if i == 13 then 0x7ca56a17 else if i == 14 then 0x6ff599e3
    else 0x9d9e1ae0
  }

  function RowD(i: bv8): bv32 {
    if i == 0 then 0xd3d3e1ab else if i == 1 then 0x21b862a8 else if i == 2 then 0x32e8915c
    else if i == 3 then 0xc083125f else if i == 4 then 0x144976b4 else if i == 5 then 0xe622f5b7
    else if i == 6 then 0xf5720643 else if i == 7 then 0x07198540 else if i == 8 then 0x590ab964
    else if i == 9 then 0xab613a67 else if i == 10 then 0xb831c993 else if i == 11 then 0x4a5a4a90
    else if i == 12 then 0x9e902e7b else if i == 13 then 0x6cfbad78 else if i == 14 then 0x7fab5e8c
    else 0x8dc0dd8f
  }

  function RowE(i: bv8): bv32 {
    if i == 0 then 0xe330a81a else if i == 1 then 0x115b2b19 else if i == 2 then 0x020bd8ed
    else if i == 3 then 0xf0605bee else if i == 4 then 0x24aa3f05 else if i == 5 then 0xd6c1bc06
    else if i == 6 then 0xc5914ff2 else if i == 7 then 0x37faccf1 else if i == 8 then 0x69e9f0d5
    else if i == 9 then 0x9b8273d6 else if i == 10 then 0x88d28022 else if i == 11 then 0x7ab90321
    else if i == 12 then 0xae7367ca else if i == 13 then 0x5c18e4c9 else if i == 14 then 0x4f48173d
    else 0xbd23943e
  }

  function RowF(i: bv8): bv32 {
    if i == 0 then 0xf36e6f75 else if i == 1 then 0x0105ec76 else if i == 2 then 0x12551f82
    else if i == 3 then 0xe03e9c81 else if i == 4 then 0x34f4f86a else if i == 5 then 0xc69f7b69
    else if i == 6 then 0xd5cf889d else if i == 7 then 0x27a40b9e else if i == 8 then 0x79b737ba
    else if i == 9 then 0x8bdcb4b9 else if i == 10 then 0x988c474d else if i == 11 then 0x6ae7c44e
    else if i == 12 then 0xbe2da0a5 else if i == 13 then 0x4c4623a6 else if i == 14 then 0x5f16d052
    else 0xad7d5351
  }

  function Rows03(h: bv8, i: bv8): bv32 {
    if h == 0 then Row0(i) else if h == 1 then Row1(i) else if h == 2 then Row2(i) else Row3(i)
  }

  function Rows47(h: bv8, i: bv8): bv32 {
    if h == 4 then Row4(i) else if h == 5 then Row5(i) else if h == 6 then Row6(i) else Row7(i)
  }

  function Rows8B(h: bv8, i: bv8): bv32 {
    if h == 8 then Row8(i) else if h == 9 then Row9(i) else if h == 10 then RowA(i) else RowB(i)
  }

  function RowsCF(h: bv8, i: bv8): bv32 {
    if h == 12 then RowC(i) else if h == 13 then RowD(i) else if h == 14 then RowE(i) else RowF(i)
  }

  function Row(h: bv8, i: bv8): bv32 {
    if h < 4 then Rows03(h, i) else if h < 8 then Rows47(h, i) else if h < 12 then Rows8B(h, i) else RowsCF(h, i)
  }

  /** Eight single-bit shifts. */
  function Eight(c: bv32): bv32 {
    ShiftBit(ShiftBit(ShiftBit(ShiftBit(ShiftBit(ShiftBit(ShiftBit(ShiftBit(c))))))))
  }

  lemma Row0Is(i: bv8)
    requires i < 16
    ensures Row0(i) == Eight(i as bv32)
  {
  }

  lemma Column0Is(h: bv8)
    requires h < 16
    ensures Row(h, 0) == Eight((h as bv32) << 4)
  {
  }

  // Rows differ by their first entries.

  lemma Rows03Differ(h: bv8, i: bv8)
    requires h < 4 && i < 16
    ensures Rows03(h, i) == Xor(Rows03(h, 0), Row0(i))
  {
  }

  lemma Rows47Differ(h: bv8, i: bv8)
    requires 4 <= h < 8 && i < 16
    ensures Rows47(h, i) == Xor(Rows47(h, 0), Row0(i))
  {
  }

  lemma Rows8BDiffer(h: bv8, i: bv8)
    requires 8 <= h < 12 && i < 16
    ensures Rows8B(h, i) == Xor(Rows8B(h, 0), Row0(i))
  {
  }

  lemma RowsCFDiffer(h: bv8, i: bv8)
    requires 12 <= h < 16 && i < 16
    ensures RowsCF(h, i) == Xor(RowsCF(h, 0), Row0(i))
  {
  }

  lemma RowsDiffer(h: bv8, i: bv8)
    requires h < 16 && i < 16
    ensures Row(h, i) == Xor(Row(h, 0), Row0(i))
  {
    hide Rows03, Rows47, Rows8B, RowsCF, Row0, Xor;
    if h < 4 {
      Rows03Differ(h, i);
    } else if h < 8 {
      Rows47Differ(h, i);
    } else if h < 12 {
      Rows8BDiffer(h, i);
    } else {
      RowsCFDiffer(h, i);
    }
  }

  function HighDigit(b: bv8): bv32 {
    ((b >> 4) as bv32) << 4
  }

  function LowDigit(b: bv8): bv32 {
    (b & 0x0f) as bv32
  }

  lemma Digits(b: bv8)
    ensures Embed(b) == Xor(HighDigit(b), LowDigit(b))
  {
  }

  lemma EightIsByte(c: bv32)
    ensures Eight(c) == ShiftByte(c)
  {
    hide ShiftBit;
    var c1 := ShiftBit(c);
    var c2 := ShiftBit(c1);
    var c3 := ShiftBit(c2);
    var c4 := ShiftBit(c3);
    var c5 := ShiftBit(c4);
    var c6 := ShiftBit(c5);
    var c7 := ShiftBit(c6);
    EightTimes(ShiftBit, c, c1, c2, c3, c4, c5, c6, c7, ShiftBit(c7));
  }

  /** CRC_TABLE: the entry of a byte is in the row of its high digit, at its low digit. */
  function Literal(b: bv8): bv32 {
    Row(b >> 4, b & 0x0f)
  }

  lemma LiteralIsSum(b: bv8)
    ensures Literal(b) == Xor(Eight(HighDigit(b)), Eight(LowDigit(b)))
  {
    hide Row, Row0, Eight, Xor;
    var h, i := b >> 4, b & 0x0f;
    RowsDiffer(h, i);
    Column0Is(h);
    Row0Is(i);
  }

  /** Every literal is the byte shifted eight times. */
  lemma LiteralIsEntry(b: bv8)
    ensures Literal(b) == Entry(Word(), 0, b)
  {
    hide Literal, Eight, ShiftByte, Xor, HighDigit, LowDigit, Embed;
    LiteralIsSum(b);
    Digits(b);
    EightIsByte(HighDigit(b));
    EightIsByte(LowDigit(b));
    ShiftByteXor(HighDigit(b), LowDigit(b));
    EntryNext(Word(), 0, b);
  }

  lemma PyStep(c: bv32, b: bv8)
    ensures Xor(Literal(Low(Xor(c, Embed(b)))), Down(c)) == Absorb(Word(), c, b)
  {
    hide Literal;
    LiteralIsEntry(Low(Xor(c, Embed(b))));
    TableAbsorbs(c, b);
  }

  /** crc_update: byte-at-a-time CRC-32C over the literal table. */
  method CrcUpdate(crc0: bv32, data: seq<bv8>) returns (crc: bv32)
    ensures crc == Update(crc0, data)
  {
    hide Literal;
    crc := Xor(crc0, MASK);
    for i := 0 to |data|
      invariant crc == Feed(Word(), Xor(crc0, MASK), data[..i])
    {
      FeedByte(Word(), Xor(crc0, MASK), data, i);
      PyStep(crc, data[i]);
      crc := Xor(Literal(Low(Xor(crc, Embed(data[i])))), Down(crc));
    }
    assert data[..|data|] == data;
    RegisterIsFeed(Xor(crc0, MASK), data);
    crc := Xor(crc, MASK);
  }
}
