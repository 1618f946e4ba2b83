/** The encoders of src/server/pkg/Socket/Utils.go, and what a stream of whole frames is. */
module Framing {
  import opened Bytes
  import opened Common

  datatype PackHeader = PackHeader(compress: bool, packType: int)

  const MANAGER := 0
  const COMMAND := 1
  const DATA := 2
  const MESSAGE := 3

  function HeaderByte(header: PackHeader): byte {
    (if header.compress then 1 else 0) + 2 * (header.packType % 4)
  }

  /** One header byte, then the data, compressed when the header says so. */
  function Packed(z: Zlib, data: seq<byte>, header: PackHeader): seq<byte> {
    [HeaderByte(header)] + if header.compress then Compressed(z, data) else data
  }

  /** A body behind its size; the size keeps only 32 bits. */
  function Frame(body: seq<byte>): seq<byte> {
    BigEndian(|body|) + body
  }

  function Assembled(z: Zlib, header: PackHeader, data: seq<byte>): seq<byte> {
    Frame(Packed(z, data, header))
  }

  /** What a packed body says: its flag, its type with no bit above it, and the data, or when it is
      compressed the size of the data and the zlib stream. */
  ghost predicate PackedAs(z: Zlib, data: seq<byte>, header: PackHeader, body: seq<byte>) {
    && body != []
    && (body[0] % 2 == 1 <==> header.compress)
    && body[0] / 2 == header.packType % 4
    && if header.compress then PrefixedAs(z, data, body[1..]) else body[1..] == data
  }

  method ProtocolPack(data: seq<byte>) returns (tmp: seq<byte>)
    ensures tmp == Frame(data)
    ensures |tmp| >= 4 && FromBigEndian(tmp[..4]) == |data| % TWO_TO_32 && tmp[4..] == data
  {
    var length := |data|;
    var c1: byte := length % 256;
    length := length / 256;
    var c2: byte := length % 256;
    length := length / 256;
    var c3: byte := length % 256;
    length := length / 256;
    var c4: byte := length % 256;
    ShiftedTwice(|data|);
    tmp := [c4];
    tmp := tmp + [c3];
    tmp := tmp + [c2];
    tmp := tmp + [c1];
    tmp := tmp + data;
    BigEndianReadBack(|data|);
    assert tmp[..4] == BigEndian(|data|);
  }

  method BufferToPack(z: Zlib, data: seq<byte>, header: PackHeader) returns (tmpData: seq<byte>)
    ensures tmpData == Packed(z, data, header)
    ensures PackedAs(z, data, header, tmpData)
  {
    var converted := data;
    if header.compress {
      converted := QCompress(z, data);
    }
    var compressBit: byte := if header.compress then 1 else 0;
    var packTypeBits: byte := 2 * (header.packType % 4);
    tmpData := [compressBit + packTypeBits];
    tmpData := tmpData + converted;
    assert tmpData[1..] == converted;
  }

  method AssamblePack(z: Zlib, header: PackHeader, data: seq<byte>) returns (pack: seq<byte>)
    ensures pack == Assembled(z, header, data)
    ensures |pack| >= 4 && FromBigEndian(pack[..4]) == (|pack| - 4) % TWO_TO_32
    ensures PackedAs(z, data, header, pack[4..])
  {
    var result := BufferToPack(z, data, header);
    pack := ProtocolPack(result);
  }

  /** A whole frame: a size, and exactly that many bytes, one at least. */
  predicate IsFrame(f: seq<byte>) {
    |f| >= 5 && FromBigEndian(f[..4]) == |f| - 4
  }

  /** A frame is the frame of its body. */
  lemma {:induction false} FrameOfBody(f: seq<byte>)
    requires IsFrame(f)
    ensures Frame(f[4..]) == f
  {
    BigEndianWriteBack(f[..4]);
  }

  /** Framing makes a whole frame exactly of the non-empty bodies whose size fits in 32 bits. */
  lemma FramedIff(body: seq<byte>)
    ensures IsFrame(Frame(body)) <==> 0 < |body| < TWO_TO_32
  {
    BigEndianReadBack(|body|);
    assert Frame(body)[..4] == BigEndian(|body|);
  }

  /** The whole frames at the front of a byte string. */
  function Frames(b: seq<byte>): seq<seq<byte>>
    decreases |b|
  {
    if |b| < 5 then [] else
    var size := FromBigEndian(b[..4]);
    if size == 0 || |b| < 4 + size then [] else [b[..4 + size]] + Frames(b[4 + size..])
  }

  /** The byte string is nothing but whole frames. */
  predicate Whole(b: seq<byte>) {
    Concat(Frames(b)) == b
  }

  /** The byte string is nothing but whole frames, each one of those issued. */
  ghost predicate WholeFrom(b: seq<byte>, issued: set<seq<byte>>) {
    Whole(b) && forall f :: f in Frames(b) ==> f in issued
  }

  lemma {:induction false} FramesAreFrames(b: seq<byte>)
    ensures forall f :: f in Frames(b) ==> IsFrame(f)
    decreases |b|
  {
    if |b| >= 5 {
      var size := FromBigEndian(b[..4]);
      if size != 0 && |b| >= 4 + size {
        assert b[..4 + size][..4] == b[..4];
        FramesAreFrames(b[4 + size..]);
      }
    }
  }

  lemma SingleFrame(f: seq<byte>)
    requires IsFrame(f)
    ensures Frames(f) == [f] && Whole(f)
  {
    assert f[..4 + FromBigEndian(f[..4])] == f;
    assert Frames(f[|f|..]) == [];
    assert Concat([f]) == f + Concat([f][1..]);
  }

  lemma FrontFrame(f: seq<byte>, rest: seq<byte>)
    requires IsFrame(f)
    ensures Frames(f + rest) == [f] + Frames(rest)
    ensures Whole(f + rest) <==> Whole(rest)
  {
    assert (f + rest)[..4] == f[..4];
    assert (f + rest)[..|f|] == f && (f + rest)[|f|..] == rest;
    var fs := Frames(rest);
    assert Concat([f] + fs) == f + Concat(fs) by { assert ([f] + fs)[1..] == fs; }
    assert (f + Concat(fs))[|f|..] == Concat(fs);
  }

  /** A non-empty stream of whole frames starts with one, and goes on with whole frames. */
  lemma WholeStartsWithFrame(a: seq<byte>) returns (f: seq<byte>, rest: seq<byte>)
    requires Whole(a) && a != []
    ensures IsFrame(f) && a == f + rest && Whole(rest) && Frames(a) == [f] + Frames(rest)
  {
    FramesAreFrames(a);
    var size := FromBigEndian(a[..4]);
    f, rest := a[..4 + size], a[4 + size..];
    assert f in Frames(a);
    assert a == f + rest;
    FrontFrame(f, rest);
  }

  /** Cutting a stream at the end of a frame: the front's frames come first, and the rest is
      whole frames exactly when the stream is. */
  lemma {:induction false} WholeFront(a: seq<byte>, b: seq<byte>)
    requires Whole(a)
    ensures Frames(a + b) == Frames(a) + Frames(b)
    ensures Whole(a + b) <==> Whole(b)
    decreases |a|
  {
    if a == [] {
      assert a + b == b;
    } else {
      var f, rest := WholeStartsWithFrame(a);
      WholeFront(rest, b);
      FrontFrame(f, rest + b);
      WholeFrontStep(f, rest, a, b);
    }
  }

  lemma WholeFrontStep(f: seq<byte>, rest: seq<byte>, a: seq<byte>, b: seq<byte>)
    requires a == f + rest
    ensures a + b == f + (rest + b)
    ensures [f] + (Frames(rest) + Frames(b)) == ([f] + Frames(rest)) + Frames(b)
  {
  }

  lemma WholeFromAppend(a: seq<byte>, b: seq<byte>, issued: set<seq<byte>>)
    requires WholeFrom(a, issued) && WholeFrom(b, issued)
    ensures WholeFrom(a + b, issued)
  {
    WholeFront(a, b);
  }

  /** Frames put one after the other are found again, one by one. */
  lemma {:induction false} FramesOfConcat(fs: seq<seq<byte>>)
    requires forall f :: f in fs ==> IsFrame(f)
    ensures Frames(Concat(fs)) == fs && Whole(Concat(fs))
  {
    if fs != [] {
      SingleFrame(fs[0]);
      FramesOfConcat(fs[1..]);
      WholeFront(fs[0], Concat(fs[1..]));
    }
  }
}
