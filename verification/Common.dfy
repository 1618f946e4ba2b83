/** The compressed form of src/server/pkg/Common/Common.go: a four-byte size, then a zlib stream. */
module Common {
  import opened Bytes

  /** The zlib library. deflate is what a writer produces for some data; inflate is what a reader
      delivers for some stream, None when the reader rejects the stream's header. */
  datatype Zlib = Zlib(deflate: seq<byte> -> seq<byte>, inflate: seq<byte> -> Option<seq<byte>>) {
    /** The library's promise: inflating what was deflated gives the data back. */
    ghost predicate RoundTrips() {
      forall d :: inflate(deflate(d)) == Some(d)
    }
  }

  function Compressed(z: Zlib, data: seq<byte>): seq<byte> {
    BigEndian(|data|) + z.deflate(data)
  }

  /** In front of the zlib stream stands the size of the data, as far as it fits in 32 bits. */
  ghost predicate PrefixedAs(z: Zlib, data: seq<byte>, block: seq<byte>) {
    |block| >= 4 && FromBigEndian(block[..4]) == |data| % TWO_TO_32 && block[4..] == z.deflate(data)
  }

  /** The size prefix is dropped unread; a block too short to hold one is an error. */
  function Uncompressed(z: Zlib, data: seq<byte>): Option<seq<byte>> {
    if |data| < 4 then None else z.inflate(data[4..])
  }

  method QCompress(z: Zlib, data: seq<byte>) returns (result: seq<byte>)
    ensures result == Compressed(z, data)
    ensures PrefixedAs(z, data, result)
    ensures z.RoundTrips() ==> Uncompressed(z, result) == Some(data)
  {
    var length := |data|;
    var tmp: seq<byte> := [];
    tmp := tmp + [length / 0x1000000 % 256];
    tmp := tmp + [length / 0x10000 % 256];
    tmp := tmp + [length / 0x100 % 256];
    tmp := tmp + [length % 256];
    tmp := tmp + z.deflate(data);
    assert tmp[4..] == z.deflate(data) && tmp[..4] == BigEndian(length);
    BigEndianReadBack(length);
    return tmp;
  }

  method QUncompress(z: Zlib, data: seq<byte>) returns (result: Option<seq<byte>>)
    ensures result == Uncompressed(z, data)
    ensures forall d :: z.RoundTrips() && data == Compressed(z, d) ==> result == Some(d)
  {
    if |data| < 4 {
      return None;
    }
    var resized := data[4..];
    result := z.inflate(resized);
  }
}
