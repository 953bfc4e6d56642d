/**
 * The icon generator (generate-icons.js): a PNG file made of the signature (section 5.2
 * of the PNG specification, ISO/IEC 15948), an IHDR chunk (section 11.2.2), one IDAT
 * chunk holding the compressed scanlines (each led by filter type 0, section 7.3) and an
 * IEND chunk, every chunk laid out as in section 5.3 with the CRC-32 of section 5.5.
 *
 * The deflate compressor is a parameter, a function on bytes; the shield geometry is
 * computed on exact reals.
 */
module Png {
  import opened Wrappers
  import opened PngCrc

  /** The largest length a chunk's four-byte length field can hold, plus one. */
  const Two32: nat := 0x1_0000_0000

  // ---- big-endian integers ----

  lemma MulAtLeast(k: int, d: int)
    requires k >= 1 && d > 0
    ensures k * d >= d
  {
  }

  /** `n / d == q` and `n % d == r` for the one `q`, `r` with `n == q * d + r` and `0 <= r < d`. */
  lemma DivUnique(n: int, d: int, q: int, r: int)
    requires d > 0 && n == q * d + r && 0 <= r < d
    ensures n / d == q && n % d == r
  {
    var q', r' := n / d, n % d;
    assert n == q' * d + r';
    assert (q - q') * d == r' - r;
    if q' < q {
      MulAtLeast(q - q', d);
    } else if q' > q {
      MulAtLeast(q' - q, d);
    }
  }

  /** `writeUInt32BE(n)`: the four bytes of `n`, most significant first. */
  function Be32(n: nat): (r: Bytes)
    requires n < Two32
    ensures |r| == 4
  {
    [n / 0x100_0000, (n / 0x1_0000) % 0x100, (n / 0x100) % 0x100, n % 0x100]
  }

  /** `readUInt32BE(0)`. */
  function ReadBe32(b: Bytes): (n: nat)
    requires |b| >= 4
    ensures n < Two32
  {
    ((b[0] as int * 0x100 + b[1]) * 0x100 + b[2]) * 0x100 + b[3]
  }

  /** Writing four big-endian bytes and reading them back gives the number. */
  lemma ReadBe32OfBe32(n: nat)
    requires n < Two32
    ensures ReadBe32(Be32(n)) == n
  {
    var h := n / 0x100;
    var hh := h / 0x100;
    DivUnique(n, 0x1_0000, hh, (h % 0x100) * 0x100 + n % 0x100);
    DivUnique(n, 0x100_0000, hh / 0x100, ((hh % 0x100) * 0x100 + h % 0x100) * 0x100 + n % 0x100);
  }

  /** Every four bytes are the big-endian form of the number they read as. */
  lemma Be32OfReadBe32(b: Bytes)
    requires |b| == 4
    ensures Be32(ReadBe32(b)) == b
  {
    var n := ReadBe32(b);
    var b0, b1, b2, b3 := b[0] as int, b[1] as int, b[2] as int, b[3] as int;
    DivUnique(n, 0x100, (b0 * 0x100 + b1) * 0x100 + b2, b3);
    DivUnique(n, 0x1_0000, b0 * 0x100 + b1, b2 * 0x100 + b3);
    DivUnique(n, 0x100_0000, b0, (b1 * 0x100 + b2) * 0x100 + b3);
    DivUnique(b0 * 0x100 + b1, 0x100, b0, b1);
    DivUnique((b0 * 0x100 + b1) * 0x100 + b2, 0x100, b0 * 0x100 + b1, b2);
  }

  /** `buf.writeUInt32BE(value, offset)`, in place. */
  method WriteUInt32BE(buf: array<Byte>, value: nat, offset: nat)
    requires value < Two32 && offset + 4 <= buf.Length
    modifies buf
    ensures buf[..] == old(buf[..offset]) + Be32(value) + old(buf[offset + 4..])
  {
    buf[offset] := value / 0x100_0000;
    buf[offset + 1] := (value / 0x1_0000) % 0x100;
    buf[offset + 2] := (value / 0x100) % 0x100;
    buf[offset + 3] := value % 0x100;
    assert buf[..] == old(buf[..offset]) + Be32(value) + old(buf[offset + 4..]);
  }

  // ---- chunks ----

  /** `Buffer.from(type)` for an ASCII chunk type. */
  function Ascii(s: string): (r: Bytes)
    requires forall i :: 0 <= i < |s| ==> s[i] < 128 as char
    ensures |r| == |s|
  {
    seq(|s|, i requires 0 <= i < |s| => s[i] as int)
  }

  const Ihdr: Bytes := Ascii("IHDR")
  const Idat: Bytes := Ascii("IDAT")
  const Iend: Bytes := Ascii("IEND")

  /** `crc32(bytes)` as the number `writeUInt32BE` is given: always an unsigned 32-bit value. */
  function CrcField(bytes: Bytes): (n: nat)
    ensures n < Two32
  {
    Crc32(bytes) as nat
  }

  /** A chunk: data length, type, data, and the CRC over type and data. */
  function Chunk(chunkType: Bytes, data: Bytes): Bytes
    requires |data| < Two32
  {
    Be32(|data|) + chunkType + data + Be32(CrcField(chunkType + data))
  }

  /** `createChunk(type, data)`: two four-byte buffers filled in place, then the concatenation. */
  method CreateChunk(chunkType: Bytes, data: Bytes) returns (chunk: Bytes)
    requires |data| < Two32
    ensures chunk == Chunk(chunkType, data)
  {
    var length := new Byte[4](_ => 0);
    WriteUInt32BE(length, |data|, 0);
    var crcData := chunkType + data;
    var crcValue := ComputeCrc32(crcData);
    var crc := new Byte[4](_ => 0);
    WriteUInt32BE(crc, crcValue as nat, 0);
    chunk := length[..] + chunkType + data + crc[..];
  }

  /** Reads one chunk: its type, its data and the bytes after it; `None` when short or the CRC is wrong. */
  function ReadChunk(bytes: Bytes): (r: Option<(Bytes, Bytes, Bytes)>)
    ensures r.Some? ==> |r.value.2| + 12 <= |bytes|
  {
    if |bytes| < 12 then None
    else
      var len := ReadBe32(bytes[..4]);
      if |bytes| < 12 + len then None
      else
        var chunkType := bytes[4..8];
        var data := bytes[8..8 + len];
        if ReadBe32(bytes[8 + len..12 + len]) != CrcField(chunkType + data) then None
        else Some((chunkType, data, bytes[12 + len..]))
  }

  /**
   * A chunk is 12 bytes longer than its data, and reading it back gives its type and data
   * and leaves whatever follows it.
   */
  lemma ChunkRoundTrip(chunkType: Bytes, data: Bytes, rest: Bytes)
    requires |chunkType| == 4 && |data| < Two32
    ensures |Chunk(chunkType, data)| == 12 + |data|
    ensures ReadChunk(Chunk(chunkType, data) + rest) == Some((chunkType, data, rest))
  {
    var len := |data|;
    var crc := CrcField(chunkType + data);
    var bytes := Chunk(chunkType, data) + rest;
    assert bytes == Be32(len) + chunkType + data + Be32(crc) + rest;
    assert bytes[..4] == Be32(len);
    ReadBe32OfBe32(len);
    assert bytes[4..8] == chunkType;
    assert bytes[8..8 + len] == data;
    assert bytes[8 + len..12 + len] == Be32(crc);
    ReadBe32OfBe32(crc);
    assert bytes[12 + len..] == rest;
  }

  /** The IEND chunk: zero length, the type, and the well-known CRC `AE 42 60 82`. */
  lemma IendChunkBytes()
    ensures Chunk(Iend, []) == [0, 0, 0, 0, 0x49, 0x45, 0x4E, 0x44, 0xAE, 0x42, 0x60, 0x82]
  {
    assert Iend + [] == [0x49, 0x45, 0x4E, 0x44];
    CrcOfIend();
    assert CrcField(Iend + []) == 0xAE42_6082;
    IendFields();
  }

  /** The length and checksum fields of the IEND chunk, in bytes. */
  lemma IendFields()
    ensures Be32(0) == [0, 0, 0, 0]
    ensures Be32(0xAE42_6082) == [0xAE, 0x42, 0x60, 0x82]
  {
    DivUnique(0xAE42_6082, 0x100_0000, 0xAE, 0x42_6082);
    DivUnique(0xAE42_6082, 0x1_0000, 0xAE42, 0x6082);
    DivUnique(0xAE42_6082, 0x100, 0xAE_4260, 0x82);
  }

  /** Reads a whole chunk stream. */
  function ReadChunks(bytes: Bytes): Option<seq<(Bytes, Bytes)>>
    decreases |bytes|
  {
    if bytes == [] then Some([])
    else
      match ReadChunk(bytes)
      case None => None
      case Some((t, d, rest)) =>
        match ReadChunks(rest)
        case None => None
        case Some(cs) => Some([(t, d)] + cs)
  }

  // ---- IHDR ----

  /** The IHDR fields: width, height, bit depth 8, colour type 2 (truecolour), compression, filter and interlace 0. */
  function IhdrData(size: nat): Bytes
    requires size < Two32
  {
    Be32(size) + Be32(size) + [8, 2, 0, 0, 0]
  }

  /** The IHDR data buffer: `Buffer.alloc(13)` then the seven writes. */
  method CreateIhdrData(size: nat) returns (buf: array<Byte>)
    requires size < Two32
    ensures fresh(buf) && buf[..] == IhdrData(size)
  {
    buf := new Byte[13](_ => 0);
    WriteUInt32BE(buf, size, 0);
    WriteUInt32BE(buf, size, 4);
    buf[8] := 8;
    buf[9] := 2;
    buf[10] := 0;
    buf[11] := 0;
    buf[12] := 0;
    assert buf[..] == IhdrData(size);
  }

  /** The IHDR data is 13 bytes declaring a `size`-square, 8-bit truecolour, non-interlaced image. */
  lemma IhdrFields(size: nat)
    requires size < Two32
    ensures var d := IhdrData(size);
            && |d| == 13
            && ReadBe32(d[0..4]) == size
            && ReadBe32(d[4..8]) == size
            && d[8] == 8 && d[9] == 2 && d[10] == 0 && d[11] == 0 && d[12] == 0
  {
    var d := IhdrData(size);
    assert d[0..4] == Be32(size);
    assert d[4..8] == Be32(size);
    ReadBe32OfBe32(size);
  }

  // ---- the picture ----

  /** Where a pixel lies in the icon's picture. */
  datatype Region = Shield | Circle | Outside

  function Abs(r: real): real {
    if r < 0.0 then -r else r
  }

  /**
   * The region of pixel (`x`, `y`): coordinates relative to the centre, scaled so that
   * the edges are at distance 1; the shield is 0.7 wide above the centre and narrows
   * below it, between heights -0.7 and 0.7; the circle has radius 0.9. The source
   * compares `Math.sqrt(dx * dx + dy * dy) < 0.9`, here the square of both sides.
   */
  function RegionAt(size: nat, x: nat, y: nat): Region
    requires size > 0
  {
    var cx := size as real / 2.0;
    var dx := Abs(x as real - cx) / cx;
    var dy := (y as real - cx) / cx;
    var shieldWidth := if dy < 0.0 then 0.7 else 0.7 - dy * 0.5;
    if dx < shieldWidth && dy > -0.7 && dy < 0.7 then Shield
    else if dx * dx + dy * dy < 0.81 then Circle
    else Outside
  }

  /** The picture is symmetric about the vertical line through the centre. */
  lemma RegionIsMirrored(size: nat, x: nat, y: nat)
    requires 0 < x < size
    ensures RegionAt(size, x, y) == RegionAt(size, size - x, y)
  {
    var cx := size as real / 2.0;
    assert (size - x) as real - cx == -(x as real - cx);
  }

  /** On an even-sized icon the centre pixel is part of the shield. */
  lemma CentreIsShield(half: nat)
    requires half > 0
    ensures RegionAt(2 * half, half, half) == Shield
  {
  }

  /** The top-left corner shows the light background. */
  lemma CornerIsBackground(size: nat)
    requires size > 0
    ensures RegionAt(size, 0, 0) == Outside
  {
    var cx := size as real / 2.0;
    assert Abs(0.0 - cx) / cx == 1.0;
    assert (0.0 - cx) / cx == -1.0;
  }

  datatype Rgb = Rgb(r: Byte, g: Byte, b: Byte)

  /** The pixel colour: the shield colour, the dark circle, or the light background. */
  function PixelColor(region: Region, shield: Rgb): Rgb {
    match region
    case Shield => shield
    case Circle => Rgb(26, 26, 46)
    case Outside => Rgb(240, 242, 245)
  }

  // ---- scanlines ----

  /** One filter byte then three bytes per pixel. */
  function RowSize(size: nat): nat {
    1 + 3 * size
  }

  function Channel(c: Rgb, k: nat): Byte
    requires k < 3
  {
    if k == 0 then c.r else if k == 1 then c.g else c.b
  }

  /** Byte `i` of the raw image: row `i / rowSize`; 0 at a row start, else a channel of a pixel. */
  function RawByte(size: nat, shield: Rgb, i: nat): Byte
    requires size > 0
  {
    var y := i / RowSize(size);
    var k := i % RowSize(size);
    if k == 0 then 0 else Channel(PixelColor(RegionAt(size, (k - 1) / 3, y), shield), (k - 1) % 3)
  }

  /** Each row starts with filter type 0 (None). */
  lemma RowStartByte(size: nat, shield: Rgb, y: nat)
    requires size > 0
    ensures RawByte(size, shield, y * RowSize(size)) == 0
  {
    DivUnique(y * RowSize(size), RowSize(size), y, 0);
  }

  /** Pixel `x` of row `y` holds the red, green and blue of its colour in the three bytes after the filter byte. */
  lemma PixelBytes(size: nat, shield: Rgb, y: nat, x: nat)
    requires 0 < size && x < size
    ensures var p := y * RowSize(size) + 1 + 3 * x;
            var c := PixelColor(RegionAt(size, x, y), shield);
            RawByte(size, shield, p) == c.r && RawByte(size, shield, p + 1) == c.g && RawByte(size, shield, p + 2) == c.b
  {
    var n := RowSize(size);
    var p := y * n + 1 + 3 * x;
    DivUnique(p, n, y, 1 + 3 * x);
    DivUnique(p + 1, n, y, 2 + 3 * x);
    DivUnique(p + 2, n, y, 3 + 3 * x);
    DivUnique(3 * x, 3, x, 0);
    DivUnique(3 * x + 1, 3, x, 1);
    DivUnique(3 * x + 2, 3, x, 2);
  }

  /**
   * The raw image buffer (the nested `y`/`x` loops of `createPNG`): `Buffer.alloc` then,
   * for each row, the filter byte and each pixel's three channels.
   */
  method RawScanlines(size: nat, shield: Rgb) returns (raw: array<Byte>)
    requires size > 0
    ensures fresh(raw) && raw.Length == RowSize(size) * size
    ensures forall i :: 0 <= i < raw.Length ==> raw[i] == RawByte(size, shield, i)
  {
    var rowSize := RowSize(size);
    raw := new Byte[rowSize * size](_ => 0);
    for y := 0 to size
      invariant y * rowSize <= raw.Length
      invariant forall i :: 0 <= i < y * rowSize ==> raw[i] == RawByte(size, shield, i)
    {
      var offset := y * rowSize;
      MulAtMost(y + 1, size, rowSize);
      RowStartByte(size, shield, y);
      raw[offset] := 0;
      for x := 0 to size
        invariant forall i :: 0 <= i < offset + 1 + 3 * x ==> raw[i] == RawByte(size, shield, i)
      {
        var px := offset + 1 + x * 3;
        var c := PixelColor(RegionAt(size, x, y), shield);
        PixelBytes(size, shield, y, x);
        raw[px] := c.r;
        raw[px + 1] := c.g;
        raw[px + 2] := c.b;
      }
    }
  }

  /** `a * n <= b * n` and `(a - 1) * n + n == a * n` when `a <= b`. */
  lemma MulAtMost(a: nat, b: nat, n: nat)
    requires a <= b
    ensures a * n <= b * n
    ensures a > 0 ==> (a - 1) * n + n == a * n
  {
  }

  /** The raw image as bytes. */
  function RawImage(size: nat, shield: Rgb): (r: Bytes)
    requires size > 0
    ensures |r| == RowSize(size) * size
  {
    seq(RowSize(size) * size, i requires 0 <= i < RowSize(size) * size => RawByte(size, shield, i))
  }

  /**
   * The raw image is `(1 + 3 * size) * size` bytes; every row starts with filter type 0
   * (None), and pixel `x` of row `y` holds the red, green and blue of its colour in the
   * three bytes after it.
   */
  lemma ScanlineLayout(size: nat, shield: Rgb, y: nat, x: nat)
    requires size > 0 && y < size && x < size
    ensures var raw := RawImage(size, shield);
            var row := y * RowSize(size);
            var c := PixelColor(RegionAt(size, x, y), shield);
            && |raw| == (1 + 3 * size) * size
            && row + RowSize(size) <= |raw|
            && raw[row] == 0
            && raw[row + 1 + 3 * x] == c.r
            && raw[row + 2 + 3 * x] == c.g
            && raw[row + 3 + 3 * x] == c.b
  {
    MulAtMost(y + 1, size, RowSize(size));
    RowStartByte(size, shield, y);
    PixelBytes(size, shield, y, x);
  }

  // ---- the file ----

  /** The PNG signature. */
  const Signature: Bytes := [137, 80, 78, 71, 13, 10, 26, 10]

  /** The file `createPNG` assembles around the compressed image. */
  function PngFile(size: nat, idat: Bytes): Bytes
    requires size < Two32 && |idat| < Two32
  {
    Signature + Chunk(Ihdr, IhdrData(size)) + Chunk(Idat, idat) + Chunk(Iend, [])
  }

  /** `createPNG(size, r, g, b)`. `deflate` stands for `zlib.deflateSync`. */
  method CreatePng(size: nat, shield: Rgb, deflate: Bytes -> Bytes) returns (png: Bytes)
    requires 0 < size < Two32
    requires |deflate(RawImage(size, shield))| < Two32
    ensures png == PngFile(size, deflate(RawImage(size, shield)))
  {
    var ihdrData := CreateIhdrData(size);
    var ihdr := CreateChunk(Ihdr, ihdrData[..]);
    var raw := RawScanlines(size, shield);
    assert raw[..] == RawImage(size, shield);
    var compressed := deflate(raw[..]);
    var idat := CreateChunk(Idat, compressed);
    var iend := CreateChunk(Iend, []);
    png := Signature + ihdr + idat + iend;
  }

  /** A chunk in front of a readable stream is read first, then the stream. */
  lemma ChunkThenStream(t: Bytes, d: Bytes, rest: Bytes, cs: seq<(Bytes, Bytes)>)
    requires |t| == 4 && |d| < Two32
    requires ReadChunks(rest) == Some(cs)
    ensures ReadChunks(Chunk(t, d) + rest) == Some([(t, d)] + cs)
  {
    ChunkRoundTrip(t, d, rest);
  }

  /** Three chunks in a row read back as those three chunks. */
  lemma ThreeChunksReadBack(t1: Bytes, d1: Bytes, t2: Bytes, d2: Bytes, t3: Bytes, d3: Bytes)
    requires |t1| == 4 && |t2| == 4 && |t3| == 4
    requires |d1| < Two32 && |d2| < Two32 && |d3| < Two32
    ensures ReadChunks(Chunk(t1, d1) + Chunk(t2, d2) + Chunk(t3, d3)) == Some([(t1, d1), (t2, d2), (t3, d3)])
  {
    var a, b, c := Chunk(t1, d1), Chunk(t2, d2), Chunk(t3, d3);
    ChunkThenStream(t3, d3, [], []);
    assert c + [] == c && [(t3, d3)] + [] == [(t3, d3)];
    ChunkThenStream(t2, d2, c, [(t3, d3)]);
    assert [(t2, d2)] + [(t3, d3)] == [(t2, d2), (t3, d3)];
    ChunkThenStream(t1, d1, b + c, [(t2, d2), (t3, d3)]);
    assert [(t1, d1)] + [(t2, d2), (t3, d3)] == [(t1, d1), (t2, d2), (t3, d3)];
    assert a + b + c == a + (b + c);
  }

  /**
   * The file starts with the signature, and the rest reads back as exactly three chunks:
   * IHDR with the header fields, IDAT with the compressed image, and an empty IEND.
   */
  lemma PngReadsBack(size: nat, idat: Bytes)
    requires size < Two32 && |idat| < Two32
    ensures var f := PngFile(size, idat);
            && f[..8] == Signature
            && ReadChunks(f[8..]) == Some([(Ihdr, IhdrData(size)), (Idat, idat), (Iend, [])])
  {
    var chunks := Chunk(Ihdr, IhdrData(size)) + Chunk(Idat, idat) + Chunk(Iend, []);
    assert PngFile(size, idat) == Signature + chunks;
    ThreeChunksReadBack(Ihdr, IhdrData(size), Idat, idat, Iend, []);
  }
}
