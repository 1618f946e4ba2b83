/** The resumable parser of src/server/pkg/Socket/SocketReader.go and the read loop that feeds it. */
module SocketReader {
  import opened Bytes
  import opened Common
  import opened Framing

  datatype Package = Package(packType: int, unpacked: seq<byte>, repacked: seq<byte>)

  /** Ok waits for more input. Failed is a block that does not decompress. Crashed is a size of
      zero: the header byte of an empty body is read, out of bounds. */
  datatype Status = Ok | Failed | Crashed

  /** What a parse leaves behind: the packages in the order their handlers are started, and the
      reader's two fields. */
  datatype Parsed = Parsed(packages: seq<Package>, status: Status, dataSize: nat, buffer: seq<byte>)

  function PackageOf(z: Zlib, body: seq<byte>): Option<Package>
    requires body != []
  {
    var packType, block := body[0] / 2 % 4, body[1..];
    if body[0] % 2 == 1 then
      match Uncompressed(z, block)
      case None => None
      case Some(plain) => Some(Package(packType, plain, Frame(body)))
    else
      Some(Package(packType, block, Frame(body)))
  }

  /** Parsing with the fields at some values, until nothing more can be read. */
  function Parse(z: Zlib, dataSize: nat, buffer: seq<byte>): Parsed
    decreases |buffer|, 1
  {
    if dataSize != 0 then ParseBody(z, dataSize, buffer)
    else if |buffer| < 4 then Parsed([], Ok, 0, buffer)
    else ParseBody(z, FromBigEndian(buffer[..4]), buffer[4..])
  }

  function ParseBody(z: Zlib, dataSize: nat, buffer: seq<byte>): Parsed
    decreases |buffer|, 0
  {
    if |buffer| < dataSize then Parsed([], Ok, dataSize, buffer)
    else if dataSize == 0 then Parsed([], Crashed, 0, buffer)
    else
      match PackageOf(z, buffer[..dataSize])
      case None => Parsed([], Failed, dataSize, buffer[dataSize..])
      case Some(p) => Prefixed([p], Parse(z, 0, buffer[dataSize..]))
  }

  function Prefixed(packages: seq<Package>, r: Parsed): Parsed {
    r.(packages := packages + r.packages)
  }

  /** The fields of a reader that has read all it can. */
  predicate Settled(dataSize: nat, buffer: seq<byte>) {
    |buffer| < (if dataSize == 0 then 4 else dataSize)
  }

  /** The bytes the fields stand for: a size already taken off the buffer, and the buffer. */
  function Pending(dataSize: nat, buffer: seq<byte>): seq<byte> {
    (if dataSize == 0 then [] else BigEndian(dataSize)) + buffer
  }

  /** The frames of the packages, one after the other. */
  function Repacked(packages: seq<Package>): seq<seq<byte>> {
    seq(|packages|, i requires 0 <= i < |packages| => packages[i].repacked)
  }

  class Reader {
    var buffer: seq<byte>
    var dataSize: nat

    constructor ()
      ensures buffer == [] && dataSize == 0
    {
      buffer, dataSize := [], 0;
    }

    /** Returns the packages whose handlers were started, in that order, and how it ended. */
    method OnData(z: Zlib, chunk: seq<byte>) returns (packages: seq<Package>, status: Status)
      modifies this
      ensures Parsed(packages, status, dataSize, buffer) == Parse(z, old(dataSize), old(buffer) + chunk)
    {
      buffer := buffer + chunk;
      packages := [];
      ghost var whole := Parse(z, dataSize, buffer);
      while true
        invariant whole == Prefixed(packages, Parse(z, dataSize, buffer))
        decreases |buffer|
      {
        if dataSize == 0 {
          if |buffer| < 4 {
            break;
          }
          dataSize := FromBigEndian(buffer[0..4]);
          buffer := buffer[4..];
        }
        assert whole == Prefixed(packages, ParseBody(z, dataSize, buffer));
        if |buffer| < dataSize {
          break;
        }
        if dataSize == 0 {
          return packages, Crashed;
        }
        var packageData := buffer[0..dataSize];
        buffer := buffer[dataSize..];
        var compressed, packType := packageData[0] % 2 == 1, packageData[0] / 2 % 4;
        var dataBlock := packageData[1..];
        var repacked := ProtocolPack(packageData);
        var p: Package;
        if compressed {
          var plain := QUncompress(z, dataBlock);
          if plain.None? {
            return packages, Failed;
          }
          p := Package(packType, plain.value, repacked);
        } else {
          p := Package(packType, dataBlock, repacked);
        }
        assert PackageOf(z, packageData) == Some(p);
        Associates(packages, [p], Parse(z, 0, buffer).packages);
        packages := packages + [p];
        dataSize := 0;
      }
      status := Ok;
    }

    /** Feeds what the connection delivers, read by read, until the first error. An empty read is
        skipped. `used` counts the reads taken. */
    method RunReadLoop(z: Zlib, input: seq<seq<byte>>)
      returns (packages: seq<Package>, status: Status, used: nat)
      requires Settled(dataSize, buffer)
      modifies this
      ensures used <= |input| && (status == Ok ==> used == |input|)
      ensures Parsed(packages, status, dataSize, buffer + Concat(input[used..]))
           == Parse(z, old(dataSize), old(buffer) + Concat(input))
    {
      packages, status, used := [], Ok, 0;
      ghost var whole := Parse(z, dataSize, buffer + Concat(input));
      assert input[used..] == input;
      while used < |input|
        invariant used <= |input| && status == Ok
        invariant Settled(dataSize, buffer)
        invariant whole == Prefixed(packages, Parse(z, dataSize, buffer + Concat(input[used..])))
      {
        var outBytes := input[used];
        ghost var rest := Concat(input[used + 1..]);
        assert Concat(input[used..]) == outBytes + rest by {
          assert input[used..][1..] == input[used + 1..];
        }
        used := used + 1;
        if |outBytes| == 0 {
          assert outBytes + rest == rest;
          continue;
        }
        ghost var was, had := buffer, dataSize;
        var more;
        more, status := OnData(z, outBytes);
        ReadOneMore(z, had, was, outBytes, rest, packages);
        packages := packages + more;
        if status != Ok {
          return;
        }
      }
      assert buffer + Concat(input[used..]) == buffer;
      assert Parse(z, dataSize, buffer) == Parsed([], Ok, dataSize, buffer);
    }
  }

  /** One read taken off the front of what is to come. */
  lemma ReadOneMore(z: Zlib, dataSize: nat, buffer: seq<byte>, read: seq<byte>, rest: seq<byte>, done: seq<Package>)
    ensures var r := Parse(z, dataSize, buffer + read);
      && Prefixed(done, Parse(z, dataSize, buffer + (read + rest)))
         == (if r.status == Ok then Prefixed(done + r.packages, Parse(z, r.dataSize, r.buffer + rest))
             else r.(packages := done + r.packages, buffer := r.buffer + rest))
      && (r.status == Ok ==> Settled(r.dataSize, r.buffer))
  {
    Associates(buffer, read, rest);
    ParseAppend(z, dataSize, buffer + read, rest);
    ParseSettles(z, dataSize, buffer + read);
    var r := Parse(z, dataSize, buffer + read);
    Associates(done, r.packages, Parse(z, r.dataSize, r.buffer + rest).packages);
  }

  /** Chunking does not matter: parsing a stream is parsing its front and, unless that ended in an
      error, going on from the fields it left. After an error the rest stays unread. */
  lemma {:induction false} ParseAppend(z: Zlib, dataSize: nat, a: seq<byte>, b: seq<byte>)
    ensures var r := Parse(z, dataSize, a);
      Parse(z, dataSize, a + b)
      == if r.status == Ok then Prefixed(r.packages, Parse(z, r.dataSize, r.buffer + b))
         else r.(buffer := r.buffer + b)
    decreases |a|, 1
  {
    if dataSize != 0 {
      ParseBodyAppend(z, dataSize, a, b);
    } else if |a| >= 4 {
      assert (a + b)[..4] == a[..4] && (a + b)[4..] == a[4..] + b;
      ParseBodyAppend(z, FromBigEndian(a[..4]), a[4..], b);
    }
  }

  lemma {:induction false} ParseBodyAppend(z: Zlib, dataSize: nat, a: seq<byte>, b: seq<byte>)
    ensures var r := ParseBody(z, dataSize, a);
      ParseBody(z, dataSize, a + b)
      == if r.status == Ok then Prefixed(r.packages, Parse(z, r.dataSize, r.buffer + b))
         else r.(buffer := r.buffer + b)
    decreases |a|, 0
  {
    if |a| < dataSize {
    } else if dataSize != 0 {
      assert (a + b)[..dataSize] == a[..dataSize] && (a + b)[dataSize..] == a[dataSize..] + b;
      var p := PackageOf(z, a[..dataSize]);
      if p.Some? {
        ParseAppend(z, 0, a[dataSize..], b);
        var r := Parse(z, 0, a[dataSize..]);
        Associates([p.value], r.packages, Parse(z, r.dataSize, r.buffer + b).packages);
      }
    }
  }

  /** A parse without error leaves no complete frame unread, and a size below 2^32. */
  lemma {:induction false} ParseSettles(z: Zlib, dataSize: nat, buffer: seq<byte>)
    ensures var r := Parse(z, dataSize, buffer);
      && (r.status == Ok ==> Settled(r.dataSize, r.buffer))
      && (dataSize < TWO_TO_32 ==> r.dataSize < TWO_TO_32)
    decreases |buffer|
  {
    var size, rest := dataSize, buffer;
    if dataSize == 0 && |buffer| >= 4 {
      size, rest := FromBigEndian(buffer[..4]), buffer[4..];
    }
    if 0 < size <= |rest| && PackageOf(z, rest[..size]).Some? {
      ParseSettles(z, 0, rest[size..]);
    }
  }

  lemma RepackedFront(p: Package, later: seq<Package>)
    ensures Repacked([p] + later) == [p.repacked] + Repacked(later)
    ensures Concat(Repacked([p] + later)) == p.repacked + Concat(Repacked(later))
  {
    assert Repacked([p] + later) == [p.repacked] + Repacked(later);
    assert Repacked([p] + later)[1..] == Repacked(later);
  }

  /** What an error swallowed: the body that does not decompress, or the size zero. */
  ghost predicate Swallowed(z: Zlib, r: Parsed, lost: seq<byte>) {
    match r.status
    case Ok => lost == Pending(r.dataSize, [])
    case Failed => r.dataSize != 0 && |lost| == 4 + r.dataSize && IsFrame(lost) && PackageOf(z, lost[4..]) == None
    case Crashed => r.dataSize == 0 && lost == [0, 0, 0, 0]
  }

  /** The frames of the packages, then what the fields or the error hold, then the buffer, are
      all the bytes there were. */
  ghost predicate Conserved(z: Zlib, all: seq<byte>, r: Parsed, lost: seq<byte>) {
    && Swallowed(z, r, lost)
    && all == Concat(Repacked(r.packages)) + lost + r.buffer
    && forall f :: f in Repacked(r.packages) ==> IsFrame(f)
  }

  /** No byte is lost or made up. */
  lemma {:induction false} ParseConserves(z: Zlib, dataSize: nat, buffer: seq<byte>) returns (lost: seq<byte>)
    requires dataSize < TWO_TO_32
    ensures Conserved(z, Pending(dataSize, buffer), Parse(z, dataSize, buffer), lost)
    decreases |buffer|, 1
  {
    if dataSize != 0 {
      lost := ParseBodyConserves(z, dataSize, buffer);
    } else if |buffer| < 4 {
      lost := [];
    } else {
      BigEndianWriteBack(buffer[..4]);
      assert buffer == buffer[..4] + buffer[4..];
      assert Pending(0, buffer) == buffer;
      lost := ParseBodyConserves(z, FromBigEndian(buffer[..4]), buffer[4..]);
    }
  }

  lemma {:induction false} ParseBodyConserves(z: Zlib, size: nat, buffer: seq<byte>) returns (lost: seq<byte>)
    requires size < TWO_TO_32
    ensures Conserved(z, BigEndian(size) + buffer, ParseBody(z, size, buffer), lost)
    decreases |buffer|, 0
  {
    if |buffer| < size || size == 0 {
      lost := if |buffer| < size then BigEndian(size) else [0, 0, 0, 0];
    } else {
      var body, rest := buffer[..size], buffer[size..];
      FramedIff(body);
      assert BigEndian(size) + buffer == Frame(body) + rest;
      match PackageOf(z, body) {
        case None =>
          lost := Frame(body);
          assert lost[4..] == body;
        case Some(p) =>
          lost := ParseConserves(z, 0, rest);
          ConservedFront(z, p, rest, Parse(z, 0, rest), lost);
      }
    }
  }

  lemma ConservedFront(z: Zlib, p: Package, rest: seq<byte>, later: Parsed, lost: seq<byte>)
    requires IsFrame(p.repacked) && Conserved(z, Pending(0, rest), later, lost)
    ensures Conserved(z, p.repacked + rest, Prefixed([p], later), lost)
  {
    RepackedFront(p, later.packages);
    assert Pending(0, rest) == rest;
    Regroup(p.repacked, Concat(Repacked(later.packages)), lost, later.buffer);
    assert Swallowed(z, Prefixed([p], later), lost);
  }

  /** A frame that the reader turns into a package. */
  ghost predicate Readable(z: Zlib, f: seq<byte>) {
    IsFrame(f) && PackageOf(z, f[4..]).Some?
  }

  function PackageIn(z: Zlib, f: seq<byte>): Package
    requires Readable(z, f)
  {
    PackageOf(z, f[4..]).value
  }

  /** A frame can be read exactly when its flag is not set, or else behind the header byte and a size
      stands something that inflates; the package has the type in the header and the plain data. */
  lemma ReadableIff(z: Zlib, f: seq<byte>)
    requires IsFrame(f)
    ensures Readable(z, f) <==> (f[4] % 2 == 1 ==> |f| >= 9 && z.inflate(f[9..]).Some?)
    ensures Readable(z, f) ==>
      PackageIn(z, f) == Package(f[4] / 2 % 4, if f[4] % 2 == 1 then z.inflate(f[9..]).value else f[5..], f)
  {
    FrameOfBody(f);
    var body := f[4..];
    assert body[0] == f[4] && body[1..] == f[5..];
    if |f| >= 9 {
      assert f[5..][4..] == f[9..];
    }
  }

  /** A frame that says it is compressed and does not inflate ends the parse, after exactly the packages of
      the frames before it; what comes behind it stays unread. */
  lemma {:induction false} CorruptFrameFails(z: Zlib, fs: seq<seq<byte>>, bad: seq<byte>, rest: seq<byte>)
    requires forall f :: f in fs ==> Readable(z, f)
    requires IsFrame(bad) && bad[4] % 2 == 1 && (|bad| < 9 || z.inflate(bad[9..]) == None)
    ensures var r := Parse(z, 0, Concat(fs) + (bad + rest));
      && r.status == Failed && r.dataSize == |bad| - 4 && r.buffer == rest
      && Repacked(r.packages) == fs
  {
    if fs == [] {
      ReadableIff(z, bad);
      assert Concat(fs) + (bad + rest) == bad + rest;
      var size := |bad| - 4;
      assert (bad + rest)[..4] == bad[..4] && (bad + rest)[4..] == bad[4..] + rest;
      assert (bad[4..] + rest)[..size] == bad[4..] && (bad[4..] + rest)[size..] == rest;
    } else {
      CorruptFrameFails(z, fs[1..], bad, rest);
      Associates(fs[0], Concat(fs[1..]), bad + rest);
      ParseFrontFrame(z, fs[0], Concat(fs[1..]) + (bad + rest));
      RepackedFront(PackageIn(z, fs[0]), Parse(z, 0, Concat(fs[1..]) + (bad + rest)).packages);
      assert fs == [fs[0]] + fs[1..];
    }
  }

  /** Reading one readable frame gives its package and goes on behind it. */
  lemma ParseFrontFrame(z: Zlib, f: seq<byte>, rest: seq<byte>)
    requires Readable(z, f)
    ensures Parse(z, 0, f + rest) == Prefixed([PackageIn(z, f)], Parse(z, 0, rest))
    ensures PackageIn(z, f).repacked == f
  {
    FrameOfBody(f);
    var size := |f| - 4;
    assert (f + rest)[..4] == f[..4] && (f + rest)[4..] == f[4..] + rest;
    assert (f[4..] + rest)[..size] == f[4..] && (f[4..] + rest)[size..] == rest;
  }

  /** The parse read exactly these frames, and keeps exactly these fields. */
  ghost predicate ReadAs(z: Zlib, r: Parsed, fs: seq<seq<byte>>, dataSize: nat, tail: seq<byte>)
    requires forall f :: f in fs ==> Readable(z, f)
  {
    && r.status == Ok && r.dataSize == dataSize && r.buffer == tail
    && |r.packages| == |fs| && Repacked(r.packages) == fs
    && forall i :: 0 <= i < |fs| ==> r.packages[i] == PackageIn(z, fs[i])
  }

  lemma ReadAsFront(z: Zlib, r: Parsed, fs: seq<seq<byte>>, dataSize: nat, tail: seq<byte>)
    requires fs != [] && forall f :: f in fs ==> Readable(z, f)
    requires ReadAs(z, r, fs[1..], dataSize, tail) && PackageIn(z, fs[0]).repacked == fs[0]
    ensures ReadAs(z, Prefixed([PackageIn(z, fs[0])], r), fs, dataSize, tail)
  {
    RepackedFront(PackageIn(z, fs[0]), r.packages);
    assert fs == [fs[0]] + fs[1..];
  }

  lemma {:induction false} ParseNoFrame(z: Zlib, dataSize: nat, tail: seq<byte>)
    requires Settled(dataSize, tail) && dataSize < TWO_TO_32
    ensures Parse(z, 0, Pending(dataSize, tail)) == Parsed([], Ok, dataSize, tail)
  {
    if dataSize != 0 {
      ParsePending(z, dataSize, tail);
    }
  }

  lemma SizeInFront(dataSize: nat, tail: seq<byte>)
    requires dataSize < TWO_TO_32
    ensures var rest := BigEndian(dataSize) + tail;
      FromBigEndian(rest[..4]) == dataSize && rest[4..] == tail
  {
    BigEndianReadBack(dataSize);
    assert (BigEndian(dataSize) + tail)[..4] == BigEndian(dataSize);
  }

  lemma ParsePending(z: Zlib, dataSize: nat, tail: seq<byte>)
    requires 0 < dataSize < TWO_TO_32
    ensures Parse(z, 0, Pending(dataSize, tail)) == ParseBody(z, dataSize, tail)
  {
    SizeInFront(dataSize, tail);
  }

  /** A stream of readable frames followed by an incomplete one parses to exactly those frames,
      in order, and keeps exactly the incomplete one. */
  lemma {:induction false} ParseFrames(z: Zlib, fs: seq<seq<byte>>, dataSize: nat, tail: seq<byte>)
    requires forall f :: f in fs ==> Readable(z, f)
    requires Settled(dataSize, tail) && dataSize < TWO_TO_32
    ensures ReadAs(z, Parse(z, 0, Concat(fs) + Pending(dataSize, tail)), fs, dataSize, tail)
  {
    var rest := Pending(dataSize, tail);
    if fs == [] {
      assert Concat(fs) + rest == rest;
      ParseNoFrame(z, dataSize, tail);
    } else {
      var later := Concat(fs[1..]) + rest;
      Associates(fs[0], Concat(fs[1..]), rest);
      ParseFrames(z, fs[1..], dataSize, tail);
      ParseFrontFrame(z, fs[0], later);
      ReadAsFront(z, Parse(z, 0, later), fs, dataSize, tail);
    }
  }

  /** Every package a reader emits was cut from a frame that any reader with the same library
      reads to the same package. */
  lemma {:induction false} EmittedAreReadable(z: Zlib, dataSize: nat, buffer: seq<byte>)
    requires dataSize < TWO_TO_32
    ensures forall p :: p in Parse(z, dataSize, buffer).packages
              ==> Readable(z, p.repacked) && PackageIn(z, p.repacked) == p
    decreases |buffer|
  {
    var size, rest := dataSize, buffer;
    if dataSize == 0 && |buffer| >= 4 {
      size, rest := FromBigEndian(buffer[..4]), buffer[4..];
    }
    if 0 < size <= |rest| && PackageOf(z, rest[..size]).Some? {
      FramedIff(rest[..size]);
      assert Frame(rest[..size])[4..] == rest[..size];
      EmittedAreReadable(z, 0, rest[size..]);
    }
  }

  /** The stream of some packs, encoded one by one. */
  function AssembledAll(z: Zlib, packs: seq<(PackHeader, seq<byte>)>): seq<seq<byte>> {
    seq(|packs|, i requires 0 <= i < |packs| => Assembled(z, packs[i].0, packs[i].1))
  }

  predicate Fits(z: Zlib, header: PackHeader, data: seq<byte>) {
    |Packed(z, data, header)| < TWO_TO_32
  }

  lemma AssembledIsReadable(z: Zlib, header: PackHeader, data: seq<byte>)
    requires z.RoundTrips() && Fits(z, header, data)
    ensures var f := Assembled(z, header, data);
      Readable(z, f) && PackageIn(z, f) == Package(header.packType % 4, data, f)
  {
    var body := Packed(z, data, header);
    FramedIff(body);
    assert Frame(body)[4..] == body;
    assert body[1..] == if header.compress then Compressed(z, data) else data;
    if header.compress {
      assert Compressed(z, data)[4..] == z.deflate(data);
    }
  }

  /** Decoding what was encoded gives the types and the data back, in order, with nothing left,
      however the stream is cut before it is read. */
  lemma {:induction false} RoundTrip(z: Zlib, packs: seq<(PackHeader, seq<byte>)>)
    requires z.RoundTrips()
    requires forall p :: p in packs ==> Fits(z, p.0, p.1)
    ensures var r := Parse(z, 0, Concat(AssembledAll(z, packs)));
      && r.status == Ok && r.dataSize == 0 && r.buffer == []
      && |r.packages| == |packs|
      && forall i :: 0 <= i < |packs| ==>
           r.packages[i].packType == packs[i].0.packType % 4 && r.packages[i].unpacked == packs[i].1
  {
    var fs := AssembledAll(z, packs);
    forall i | 0 <= i < |packs|
      ensures Readable(z, fs[i]) && PackageIn(z, fs[i]) == Package(packs[i].0.packType % 4, packs[i].1, fs[i])
    {
      assert packs[i] in packs;
      AssembledIsReadable(z, packs[i].0, packs[i].1);
    }
    ParseFrames(z, fs, 0, []);
    assert Concat(fs) + Pending(0, []) == Concat(fs);
    assert |Repacked(Parse(z, 0, Concat(fs)).packages)| == |packs|;
  }

  /** The 32-bit size is the only limit: one encoded pack is read as one package with nothing left
      over exactly when its size fits. */
  lemma {:induction false} OnePackIff(z: Zlib, header: PackHeader, data: seq<byte>)
    requires z.RoundTrips()
    ensures var r := Parse(z, 0, Assembled(z, header, data));
      (r.status == Ok && r.dataSize == 0 && r.buffer == [] && |r.packages| == 1) <==> Fits(z, header, data)
  {
    var f := Assembled(z, header, data);
    if Fits(z, header, data) {
      RoundTrip(z, [(header, data)]);
      assert AssembledAll(z, [(header, data)]) == [f];
      assert Concat([f]) == f;
    }
    var r := Parse(z, 0, f);
    if r.status == Ok && r.dataSize == 0 && r.buffer == [] && |r.packages| == 1 {
      OnePackageIsFrame(z, f);
      FramedIff(Packed(z, data, header));
    }
  }

  lemma OnePackageIsFrame(z: Zlib, b: seq<byte>)
    requires var r := Parse(z, 0, b); r.status == Ok && r.dataSize == 0 && r.buffer == [] && |r.packages| == 1
    ensures IsFrame(b)
  {
    var r := Parse(z, 0, b);
    var lost := ParseConserves(z, 0, b);
    assert Pending(0, b) == b;
    OneRepacked(r.packages);
    assert Repacked(r.packages)[0] == r.packages[0].repacked == b;
  }

  lemma OneRepacked(ps: seq<Package>)
    requires |ps| == 1
    ensures Concat(Repacked(ps)) + [] + [] == ps[0].repacked
  {
    assert Repacked(ps)[1..] == [];
  }
}
