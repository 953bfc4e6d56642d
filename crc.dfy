/**
 * The CRC-32 of section 5.5 of the PNG specification (ISO/IEC 15948): the reflected
 * ISO 3309 polynomial, register initialised to all ones and complemented at the end,
 * as generate-icons.js `crc32` computes it bit by bit.
 */
module PngCrc {
  /** A byte value. */
  type Byte = b: int | 0 <= b < 256

  type Bytes = seq<Byte>

  /** The reflected CRC-32 polynomial (ISO 3309). */
  const CrcPolynomial: bv32 := 0xEDB8_8320

  /** One bit step: shift right, and xor the polynomial when the bit shifted out was 1. */
  function CrcStep(c: bv32): bv32 {
    (c >> 1) ^ (if c & 1 == 1 then CrcPolynomial else 0)
  }

  /** `k` bit steps. */
  function CrcRounds(c: bv32, k: nat): bv32
    decreases k
  {
    if k == 0 then c else CrcStep(CrcRounds(c, k - 1))
  }

  /** A byte as the low eight bits of a register. */
  function ByteBits(b: Byte): bv32 {
    (b as bv8) as bv32
  }

  /** The register after one more byte: the byte xored into the low bits, then eight bit steps. */
  function CrcByte(c: bv32, b: Byte): bv32 {
    CrcRounds(c ^ ByteBits(b), 8)
  }

  /** The register after feeding `data` to a register holding `c`. */
  function CrcFrom(c: bv32, data: Bytes): bv32
    decreases |data|
  {
    if data == [] then c else CrcByte(CrcFrom(c, data[..|data| - 1]), data[|data| - 1])
  }

  /** CRC-32 with initial register and final xor `0xFFFFFFFF`. */
  function Crc32(data: Bytes): bv32 {
    CrcFrom(0xFFFF_FFFF, data) ^ 0xFFFF_FFFF
  }

  /** The inner loop of `crc32`: one byte xored in, then eight shifts. */
  method FeedByte(c: bv32, b: Byte) returns (r: bv32)
    ensures r == CrcByte(c, b)
  {
    r := c ^ ByteBits(b);
    ghost var start := r;
    for j := 0 to 8
      invariant r == CrcRounds(start, j)
    {
      r := (r >> 1) ^ (if r & 1 == 1 then 0xEDB8_8320 else 0);
    }
  }

  /**
   * `crc32(data)`. The source keeps the register in a JavaScript number: `^` yields a
   * signed 32-bit value and `>>>` reads it back unsigned, so the bits are those of a
   * 32-bit register throughout, and the final `>>> 0` makes the result unsigned.
   */
  method ComputeCrc32(data: Bytes) returns (crc: bv32)
    ensures crc == Crc32(data)
  {
    crc := 0xFFFF_FFFF;
    for i := 0 to |data|
      invariant crc == CrcFrom(0xFFFF_FFFF, data[..i])
    {
      PrefixStep(0xFFFF_FFFF, data, i);
      crc := FeedByte(crc, data[i]);
    }
    assert data[..|data|] == data;
    crc := crc ^ 0xFFFF_FFFF;
  }

  /** Feeding one more byte of `data`. */
  lemma PrefixStep(c: bv32, data: Bytes, i: nat)
    requires i < |data|
    ensures CrcFrom(c, data[..i + 1]) == CrcByte(CrcFrom(c, data[..i]), data[i])
  {
    assert data[..i + 1][..i] == data[..i];
  }

  /** The CRC can be computed piecewise: feeding `a` then `b` is feeding `a + b`. */
  lemma {:induction false} CrcFromConcat(c: bv32, a: Bytes, b: Bytes)
    ensures CrcFrom(c, a + b) == CrcFrom(CrcFrom(c, a), b)
    decreases |b|
  {
    if b == [] {
      assert a + b == a;
    } else {
      var n := |b| - 1;
      assert (a + b)[..|a + b| - 1] == a + b[..n];
      CrcFromConcat(c, a, b[..n]);
    }
  }

  /** Bit steps compose. */
  lemma {:induction false} RoundsSplit(c: bv32, j: nat, k: nat)
    ensures CrcRounds(c, j + k) == CrcRounds(CrcRounds(c, j), k)
    decreases k
  {
    if k > 0 {
      RoundsSplit(c, j, k - 1);
    }
  }

  /** One byte of a concrete computation, checked as four runs of two bit steps. */
  lemma ByteStep(c: bv32, b: Byte, q1: bv32, q2: bv32, q3: bv32, next: bv32)
    requires CrcRounds(c ^ ByteBits(b), 2) == q1
    requires CrcRounds(q1, 2) == q2
    requires CrcRounds(q2, 2) == q3
    requires CrcRounds(q3, 2) == next
    ensures CrcByte(c, b) == next
  {
    var x := c ^ ByteBits(b);
    RoundsSplit(x, 2, 2);
    RoundsSplit(x, 4, 2);
    RoundsSplit(x, 6, 2);
  }

  /** Feeding one byte after `data`. */
  lemma FeedOne(c: bv32, data: Bytes, b: Byte)
    ensures CrcFrom(c, data + [b]) == CrcByte(CrcFrom(c, data), b)
  {
    assert (data + [b])[..|data|] == data;
  }

  /** The register while "123456789" is fed, three bytes at a time. */
  lemma CheckBytesLow()
    ensures CrcByte(0xffff_ffff, 0x31) == 0x7c23_1048
    ensures CrcByte(0x7c23_1048, 0x32) == 0xb0ac_bb32
    ensures CrcByte(0xb0ac_bb32, 0x33) == 0x77b7_9c2d
  {
    ByteStep(0xffff_ffff, 0x31, 0xd247_7cd3, 0xaff5_1d84, 0x2bfd_4761, 0x7c23_1048);
    ByteStep(0x7c23_1048, 0x32, 0xf2b0_473e, 0xd114_92ef, 0xaf21_e60b, 0xb0ac_bb32);
    ByteStep(0xb0ac_bb32, 0x33, 0x5af7_6f50, 0x16bd_dbd4, 0x05af_76f5, 0x77b7_9c2d);
  }

  lemma CheckBytesMiddle()
    ensures CrcByte(0x77b7_9c2d, 0x34) == 0x641c_1f5c
    ensures CrcByte(0x641c_1f5c, 0x35) == 0x340a_c5e3
    ensures CrcByte(0x340a_c5e3, 0x36) == 0xf68d_2c9e
  {
    ByteStep(0x77b7_9c2d, 0x34, 0x6b31_a696, 0xf774_ea85, 0x4b01_7b31, 0x641c_1f5c);
    ByteStep(0x641c_1f5c, 0x35, 0x6fdb_464a, 0xf64e_52b2, 0xd02b_178c, 0x340a_c5e3);
    ByteStep(0x340a_c5e3, 0x36, 0x7bde_f0e5, 0x682b_fda9, 0x6cd6_befa, 0xf68d_2c9e);
  }

  lemma CheckBytesHigh()
    ensures CrcByte(0xf68d_2c9e, 0x37) == 0xaffc_9660
    ensures CrcByte(0xaffc_9660, 0x38) == 0x651f_2550
    ensures CrcByte(0x651f_2550, 0x39) == 0x340b_c6d9
  {
    ByteStep(0xf68d_2c9e, 0x37, 0x4b7f_0aba, 0xff67_418e, 0xd261_5343, 0xaffc_9660);
    ByteStep(0xaffc_9660, 0x38, 0x2bff_2596, 0xe747_4a45, 0x4f0d_9301, 0x651f_2550);
    ByteStep(0x651f_2550, 0x39, 0x6f9b_88ca, 0xf65e_6112, 0xd02f_1b64, 0x340b_c6d9);
  }

  /** "123456789" has the standard CRC-32 check value `0xCBF43926`. */
  lemma CrcCheckValue()
    ensures Crc32([0x31, 0x32, 0x33, 0x34, 0x35, 0x36, 0x37, 0x38, 0x39]) == 0xCBF4_3926
  {
    var c: bv32 := 0xFFFF_FFFF;
    CheckBytesLow();
    CheckBytesMiddle();
    CheckBytesHigh();
    var s: Bytes := [];
    assert CrcFrom(c, s) == c;
    FeedOne(c, s, 0x31);
    s := s + [0x31];
    assert CrcFrom(c, s) == 0x7c23_1048;
    FeedOne(c, s, 0x32);
    s := s + [0x32];
    assert CrcFrom(c, s) == 0xb0ac_bb32;
    FeedOne(c, s, 0x33);
    s := s + [0x33];
    assert CrcFrom(c, s) == 0x77b7_9c2d;
    FeedOne(c, s, 0x34);
    s := s + [0x34];
    assert CrcFrom(c, s) == 0x641c_1f5c;
    FeedOne(c, s, 0x35);
    s := s + [0x35];
    assert CrcFrom(c, s) == 0x340a_c5e3;
    FeedOne(c, s, 0x36);
    s := s + [0x36];
    assert CrcFrom(c, s) == 0xf68d_2c9e;
    FeedOne(c, s, 0x37);
    s := s + [0x37];
    assert CrcFrom(c, s) == 0xaffc_9660;
    FeedOne(c, s, 0x38);
    s := s + [0x38];
    assert CrcFrom(c, s) == 0x651f_2550;
    FeedOne(c, s, 0x39);
    s := s + [0x39];
    assert CrcFrom(c, s) == 0x340b_c6d9;
    assert s == [0x31, 0x32, 0x33, 0x34, 0x35, 0x36, 0x37, 0x38, 0x39];
  }

  /** The register while "IEND" is fed, two bytes at a time. */
  lemma IendBytesLow()
    ensures CrcByte(0xFFFF_FFFF, 0x49) == 0x22fd_e946
    ensures CrcByte(0x22fd_e946, 0x45) == 0x992b_ac53
  {
    ByteStep(0xFFFF_FFFF, 0x49, 0xd247_7ccd, 0x424d_9ea3, 0x8bf7_a518, 0x22fd_e946);
    ByteStep(0x22fd_e946, 0x45, 0x93db_b8f0, 0x24f6_ee3c, 0x093d_bb8f, 0x992b_ac53);
  }

  lemma IendBytesHigh()
    ensures CrcByte(0x992b_ac53, 0x4E) == 0x639f_4775
    ensures CrcByte(0x639f_4775, 0x44) == 0x51bd_9f7d
  {
    ByteStep(0x992b_ac53, 0x4E, 0x5096_aa97, 0x8f41_6815, 0x550c_1b95, 0x639f_4775);
    ByteStep(0x639f_4775, 0x44, 0x6e3b_905c, 0x1b8e_e417, 0x9d87_7bb5, 0x51bd_9f7d);
  }

  /**
   * The CRC of the chunk type "IEND" alone, the last four bytes of every PNG file
   * (`AE 42 60 82`); the CRC of nothing is 0.
   */
  lemma CrcOfIend()
    ensures Crc32([]) == 0
    ensures Crc32([0x49, 0x45, 0x4E, 0x44]) == 0xAE42_6082
  {
    var c: bv32 := 0xFFFF_FFFF;
    IendBytesLow();
    IendBytesHigh();
    var s0: Bytes := [];
    var s1: Bytes := [0x49];
    var s2: Bytes := [0x49, 0x45];
    var s3: Bytes := [0x49, 0x45, 0x4E];
    var s4: Bytes := [0x49, 0x45, 0x4E, 0x44];
    assert CrcFrom(c, s0) == c;
    FeedOne(c, s0, 0x49);
    assert s0 + [0x49] == s1;
    assert CrcFrom(c, s1) == 0x22fd_e946;
    FeedOne(c, s1, 0x45);
    assert s1 + [0x45] == s2;
    assert CrcFrom(c, s2) == 0x992b_ac53;
    FeedOne(c, s2, 0x4E);
    assert s2 + [0x4E] == s3;
    assert CrcFrom(c, s3) == 0x639f_4775;
    FeedOne(c, s3, 0x44);
    assert s3 + [0x44] == s4;
    assert CrcFrom(c, s4) == 0x51bd_9f7d;
  }
}
