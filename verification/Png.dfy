/**
 * backend/installers/dcp_menubar.py, `_make_png`: an RGBA PNG written by hand, read back by a chunk parser
 * after RFC 2083, sections 3.2 and 6.2. CRC-32 and zlib are parameters, zlib a lossless pair.
 */
module Png {
  import opened Octets
  import opened Options

  type Bytes = seq<Byte>

  datatype Chunk = Chunk(kind: Bytes, data: Bytes)

  const SIGNATURE: Bytes := [0x89, 0x50, 0x4E, 0x47, 0x0D, 0x0A, 0x1A, 0x0A]
  const IHDR: Bytes := [0x49, 0x48, 0x44, 0x52]
  const IDAT: Bytes := [0x49, 0x44, 0x41, 0x54]
  const IEND: Bytes := [0x49, 0x45, 0x4E, 0x44]
  const LIMIT := 0x1_0000_0000

  /** A chunk type as its four ASCII letters. */
  function Letters(kind: string): Bytes
    requires |kind| == 4 && forall i :: 0 <= i < |kind| ==> kind[i] as int < 256
  {
    seq(4, i requires 0 <= i < 4 => kind[i] as int as Byte)
  }

  lemma KindsAre()
    ensures Letters("IHDR") == IHDR && Letters("IDAT") == IDAT && Letters("IEND") == IEND
  {
  }

  // ---- struct.pack('>I', n) ----

  function Be32(n: nat): (r: Bytes)
    requires n < LIMIT
    ensures |r| == 4
  {
    [(n / 0x1000000) as Byte, (n / 0x10000 % 256) as Byte, (n / 256 % 256) as Byte, (n % 256) as Byte]
  }

  function FromBe32(b: Bytes): nat
    requires |b| == 4
  {
    ((b[0] as nat * 256 + b[1] as nat) * 256 + b[2] as nat) * 256 + b[3] as nat
  }

  /** Big-endian: the first byte counts most. */
  lemma Be32IsBigEndian(n: nat)
    requires n < LIMIT
    ensures var b := Be32(n);
      b[0] as int * 256 * 256 * 256 + b[1] as int * 256 * 256 + b[2] as int * 256 + b[3] as int == n
  {
    Be32RoundTrip(n);
  }

  lemma Be32RoundTrip(n: nat)
    requires n < LIMIT
    ensures FromBe32(Be32(n)) == n
  {
    var a, b := n / 256, n / 0x10000;
    assert a / 256 == b && b / 256 == n / 0x1000000;
  }

  // ---- Writing ----

  /** One chunk: length, type, data, and the CRC of type and data. */
  function Encoded(crc: Bytes -> nat, c: Chunk): Bytes
    requires |c.data| < LIMIT && |c.kind| == 4
  {
    Be32(|c.data|) + c.kind + c.data + Be32(crc(c.kind + c.data) % LIMIT)
  }

  function Header(width: nat, height: nat): Bytes
    requires width < LIMIT && height < LIMIT
  {
    Be32(width) + Be32(height) + [8, 6, 0, 0, 0]
  }

  /** Python's b[:n] and b[n:]. */
  function Take(b: Bytes, n: nat): Bytes {
    if n <= |b| then b[..n] else b
  }

  function Drop(b: Bytes, n: nat): Bytes {
    if n <= |b| then b[n..] else []
  }

  /** Each row of `stride` bytes behind a zero filter byte. */
  function Filtered(pixels: Bytes, stride: nat, height: nat): Bytes
    decreases height
  {
    if height == 0 then [] else [0] + Take(pixels, stride) + Filtered(Drop(pixels, stride), stride, height - 1)
  }

  function File(crc: Bytes -> nat, width: nat, height: nat, idat: Bytes): Bytes
    requires width < LIMIT && height < LIMIT && |idat| < LIMIT
  {
    SIGNATURE + Encoded(crc, Chunk(IHDR, Header(width, height))) + Encoded(crc, Chunk(IDAT, idat))
      + Encoded(crc, Chunk(IEND, []))
  }

  /** Where row `y` begins in the buffer. */
  function RowStart(width: nat, y: nat): nat {
    y * width * 4
  }

  lemma RowStep(y: nat, width: nat)
    ensures RowStart(width, 0) == 0
    ensures RowStart(width, y + 1) == RowStart(width, y) + width * 4
  {
  }

  /** Each row of the image data: the byte 0, which names filter type None, then the row's own bytes. */
  lemma FilteredRow(pixels: Bytes, stride: nat, height: nat)
    requires height > 0 && |pixels| >= stride
    ensures var raw := Filtered(pixels, stride, height);
      && |raw| > stride && raw[0] == 0 && raw[1..1 + stride] == pixels[..stride]
      && raw[1 + stride..] == Filtered(pixels[stride..], stride, height - 1)
  {
  }

  /** What is left to filter after one more row. */
  lemma FilteredStep(pixels: Bytes, start: nat, stride: nat, rows: nat)
    requires rows > 0
    ensures Filtered(Drop(pixels, start), stride, rows)
         == [0] + Take(Drop(pixels, start), stride) + Filtered(Drop(pixels, start + stride), stride, rows - 1)
  {
    DropDrop(pixels, start, stride);
  }

  /** The row loop. */
  method FilterRows(width: nat, height: nat, pixels: Bytes) returns (raw: Bytes)
    ensures raw == Filtered(pixels, width * 4, height)
  {
    hide Filtered, RowStart;
    raw := [];
    ghost var stride, all := width * 4, Filtered(pixels, width * 4, height);
    RowStep(0, width);
    assert Drop(pixels, 0) == pixels;
    for y := 0 to height
      invariant raw + Filtered(Drop(pixels, RowStart(width, y)), stride, height - y) == all
    {
      RowStep(y, width);
      var rowStart := RowStart(width, y);
      var row := Take(Drop(pixels, rowStart), width * 4);
      FilteredStep(pixels, rowStart, stride, height - y);
      ghost var rest := Filtered(Drop(pixels, rowStart + stride), stride, height - y - 1);
      assert raw + ([0] + row + rest) == raw + [0] + row + rest;
      raw := raw + [0];
      raw := raw + row;
    }
    FilteredNone(Drop(pixels, RowStart(width, height)), stride);
    assert raw + [] == raw;
  }

  lemma FilteredNone(pixels: Bytes, stride: nat)
    ensures Filtered(pixels, stride, 0) == []
  {
  }

  /** None where struct.pack raises: a size or the compressed length does not fit in four bytes. */
  method MakePng(width: nat, height: nat, pixels: Bytes, crc: Bytes -> nat, compress: Bytes -> Bytes)
    returns (png: Option<Bytes>)
    ensures var idat := compress(Filtered(pixels, width * 4, height));
      var fits := width < 0x1_0000_0000 && height < 0x1_0000_0000 && |idat| < 0x1_0000_0000;
      png == if fits then Some(File(crc, width, height, idat)) else None
  {
    if width >= LIMIT || height >= LIMIT {
      return None;
    }
    var ihdr := Encoded(crc, Chunk(IHDR, Header(width, height)));
    var raw := FilterRows(width, height, pixels);
    var data := compress(raw);
    if |data| >= LIMIT {
      return None;
    }
    var idat := Encoded(crc, Chunk(IDAT, data));
    var iend := Encoded(crc, Chunk(IEND, []));
    return Some(SIGNATURE + ihdr + idat + iend);
  }

  lemma DropDrop(b: Bytes, m: nat, n: nat)
    ensures Drop(Drop(b, m), n) == Drop(b, m + n)
  {
  }

  // ---- Reading ----

  /** Reads length-prefixed chunks to the end; None on a short chunk or a CRC that does not match. */
  function Parse(crc: Bytes -> nat, b: Bytes): Option<seq<Chunk>> {
    if b == [] then Some([])
    else if |b| < 12 then None
    else
      var n := FromBe32(b[..4]);
      if |b| < 12 + n then None
      else
        var kind, data := b[4..8], b[8..8 + n];
        if FromBe32(b[8 + n..12 + n]) != crc(kind + data) % LIMIT then None
        else match Parse(crc, b[12 + n..])
             case None => None
             case Some(rest) => Some([Chunk(kind, data)] + rest)
  }

  /** Undoes filter type 0, row by row. */
  function Unfiltered(raw: Bytes, stride: nat, height: nat): Option<Bytes> {
    if height == 0 then if raw == [] then Some([]) else None
    else if |raw| < 1 + stride || raw[0] != 0 then None
    else match Unfiltered(raw[1 + stride..], stride, height - 1)
         case None => None
         case Some(rest) => Some(raw[1..1 + stride] + rest)
  }

  lemma Slices(a: Bytes, kind: Bytes, data: Bytes, sum: Bytes, rest: Bytes)
    requires |a| == 4 && |kind| == 4 && |sum| == 4
    ensures var b, n := a + kind + data + sum + rest, |data|;
      && |b| == 12 + n + |rest| && b[..4] == a && b[4..8] == kind && b[8..8 + n] == data
      && b[8 + n..12 + n] == sum && b[12 + n..] == rest
  {
  }

  /** The four parts of a chunk on the wire; the CRC is over type and data. */
  lemma EncodedIs(crc: Bytes -> nat, c: Chunk)
    requires |c.data| < LIMIT && |c.kind| == 4
    ensures var b, n := Encoded(crc, c), |c.data|;
      && |b| == 12 + n && FromBe32(b[..4]) == n && b[4..8] == c.kind && b[8..8 + n] == c.data
      && FromBe32(b[8 + n..]) == crc(c.kind + c.data) % 0x1_0000_0000
  {
    var n, sum := |c.data|, crc(c.kind + c.data) % LIMIT;
    Slices(Be32(n), c.kind, c.data, Be32(sum), []);
    Be32RoundTrip(n);
    Be32RoundTrip(sum);
    assert Encoded(crc, c) == Be32(n) + c.kind + c.data + Be32(sum) + [];
    hide Be32, FromBe32;
  }

  /** The parser reads an encoded chunk back, wherever it stands. */
  lemma ChunkRoundTrip(crc: Bytes -> nat, c: Chunk, rest: Bytes)
    requires |c.data| < LIMIT && |c.kind| == 4 && Parse(crc, rest).Some?
    ensures Parse(crc, Encoded(crc, c) + rest) == Some([c] + Parse(crc, rest).value)
  {
    hide Be32, FromBe32;
    var n, sum := |c.data|, crc(c.kind + c.data) % LIMIT;
    Be32RoundTrip(n);
    Be32RoundTrip(sum);
    Slices(Be32(n), c.kind, c.data, Be32(sum), rest);
  }

  function Area(stride: nat, height: nat): nat {
    stride * height
  }

  lemma {:induction false} FilterRoundTrip(pixels: Bytes, stride: nat, height: nat)
    requires |pixels| == Area(stride, height)
    ensures Unfiltered(Filtered(pixels, stride, height), stride, height) == Some(pixels)
  {
    hide Area;
    OneRowLess(stride, height);
    if height > 0 {
      var head, tail := pixels[..stride], pixels[stride..];
      var rest := Filtered(tail, stride, height - 1);
      FilterRoundTrip(tail, stride, height - 1);
      assert Take(pixels, stride) == head && Drop(pixels, stride) == tail;
      assert Filtered(pixels, stride, height) == [0] + head + rest;
      UnfilterRow(head, rest, stride, height);
      assert pixels == head + tail;
    } else {
      assert pixels == [];
    }
  }

  lemma OneRowLess(stride: nat, height: nat)
    ensures if height == 0 then Area(stride, 0) == 0 else Area(stride, height) == stride + Area(stride, height - 1)
  {
  }

  lemma UnfilterRow(row: Bytes, rest: Bytes, stride: nat, height: nat)
    requires |row| == stride && height > 0 && Unfiltered(rest, stride, height - 1).Some?
    ensures Unfiltered([0] + row + rest, stride, height) == Some(row + Unfiltered(rest, stride, height - 1).value)
  {
    RowRoundTrip(row, rest, stride);
  }

  lemma RowRoundTrip(row: Bytes, rest: Bytes, stride: nat)
    requires |row| == stride
    ensures var raw := [0] + row + rest;
      |raw| >= 1 + stride && raw[0] == 0 && raw[1..1 + stride] == row && raw[1 + stride..] == rest
  {
  }

  lemma FileSplits(crc: Bytes -> nat, width: nat, height: nat, idat: Bytes)
    requires width < LIMIT && height < LIMIT && |idat| < LIMIT
    ensures SIGNATURE <= File(crc, width, height, idat)
    ensures File(crc, width, height, idat)[8..] == Encoded(crc, Chunk(IHDR, Header(width, height)))
      + (Encoded(crc, Chunk(IDAT, idat)) + (Encoded(crc, Chunk(IEND, [])) + []))
  {
    hide Encoded, Header;
  }

  /**
   * For every size and pixel buffer, the file is the signature and exactly the chunks IHDR, IDAT and IEND
   * with matching CRCs, and inflating the IDAT data and taking off the filter bytes gives the pixels back.
   */
  lemma PngRoundTrip(width: nat, height: nat, pixels: Bytes, crc: Bytes -> nat, compress: Bytes -> Bytes,
                     decompress: Bytes -> Bytes)
    requires width < 0x1_0000_0000 && height < 0x1_0000_0000 && |pixels| == width * height * 4
    requires forall b :: decompress(compress(b)) == b
    requires |compress(Filtered(pixels, width * 4, height))| < 0x1_0000_0000
    ensures var idat := compress(Filtered(pixels, width * 4, height));
      && [0x89, 'P' as Byte, 'N' as Byte, 'G' as Byte, 13, 10, 26, 10] <= File(crc, width, height, idat)
      && Parse(crc, File(crc, width, height, idat)[8..])
         == Some([Chunk(Letters("IHDR"), Header(width, height)), Chunk(Letters("IDAT"), idat),
                  Chunk(Letters("IEND"), [])])
      && Unfiltered(decompress(idat), width * 4, height) == Some(pixels)
  {
    hide Encoded, Header, Be32, FromBe32, Area, Filtered, Unfiltered, File, Parse;
    var raw := Filtered(pixels, width * 4, height);
    KindsAre();
    ThreeChunks(crc, width, height, compress(raw));
    AreaOfImage(width, height);
    FilterRoundTrip(pixels, width * 4, height);
    assert decompress(compress(raw)) == raw;
  }

  lemma AreaOfImage(width: nat, height: nat)
    ensures Area(width * 4, height) == width * height * 4
  {
    assert width * 4 * height == width * height * 4;
  }

  lemma ThreeChunks(crc: Bytes -> nat, width: nat, height: nat, idat: Bytes)
    requires width < LIMIT && height < LIMIT && |idat| < LIMIT
    ensures SIGNATURE <= File(crc, width, height, idat)
    ensures Parse(crc, File(crc, width, height, idat)[8..])
         == Some([Chunk(IHDR, Header(width, height)), Chunk(IDAT, idat), Chunk(IEND, [])])
  {
    hide Encoded, Header, Be32, FromBe32;
    HeaderCarriesSize(width, height);
    var c1, c2, c3 := Chunk(IHDR, Header(width, height)), Chunk(IDAT, idat), Chunk(IEND, []);
    FileSplits(crc, width, height, idat);
    ChunkRoundTrip(crc, c3, []);
    ChunkRoundTrip(crc, c2, Encoded(crc, c3) + []);
    ChunkRoundTrip(crc, c1, Encoded(crc, c2) + (Encoded(crc, c3) + []));
    assert [c1] + ([c2] + ([c3] + [])) == [c1, c2, c3];
  }

  /** The header chunk's numbers are the size asked for. */
  lemma HeaderCarriesSize(width: nat, height: nat)
    requires width < LIMIT && height < LIMIT
    ensures |Header(width, height)| == 13
    ensures FromBe32(Header(width, height)[..4]) == width && FromBe32(Header(width, height)[4..8]) == height
    ensures Header(width, height)[8..] == [8, 6, 0, 0, 0]
  {
    Be32RoundTrip(width);
    Be32RoundTrip(height);
    assert Header(width, height)[..4] == Be32(width) && Header(width, height)[4..8] == Be32(height);
  }
}
