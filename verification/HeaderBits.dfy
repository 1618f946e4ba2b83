/** The header byte of Framing and SocketReader, in the bits that the code shifts and masks. */
module HeaderBits {
  import opened Bytes
  import opened Common
  import opened Framing

  /** Of a type, whatever its size and sign, the masks see the low byte only. */
  lemma WrittenBits(compressBit: bv8, low: bv8, packType: int)
    requires compressBit <= 1 && low as int == packType % 256
    ensures (compressBit | ((low & 3) << 1)) as int == HeaderByte(PackHeader(compressBit == 1, packType))
  {
    ShiftedBits(compressBit, low);
    LowBits(packType);
  }

  lemma LowBits(n: int)
    ensures n % 256 % 4 == n % 4
  {
  }

  lemma ShiftedBits(compressBit: bv8, packType: bv8)
    requires compressBit <= 1
    ensures (compressBit | ((packType & 3) << 1)) as int == compressBit as int + 2 * (packType as int % 4)
  {
  }

  lemma Half(b: bv8)
    ensures (b >> 1) as int == b as int / 2
  {
    assert b >> 1 == b / 2;
  }

  lemma LowTwo(b: bv8)
    ensures (b & 3) as int == b as int % 4
  {
    assert b & 3 == b % 4;
  }

  lemma FlagBit(b: bv8)
    ensures (b & 1) as int == b as int % 2
  {
    assert b & 1 == b % 2;
  }

  /** The flag and the type that the reader masks out are the arithmetic ones. */
  lemma ReadBits(b: bv8)
    ensures (b & 1 == 1) == (b as int % 2 == 1)
    ensures ((b >> 1) & 3) as int == b as int / 2 % 4
  {
    FlagBit(b);
    var h := b >> 1;
    Half(b);
    LowTwo(h);
    assert h as int == b as int / 2;
  }

  /** In what is packed, bit 0 says whether it is compressed, bits 1 and 2 are the type, and the others are
      zero. */
  lemma PackedBits(z: Zlib, data: seq<byte>, header: PackHeader, body: seq<byte>, b: bv8)
    requires PackedAs(z, data, header, body) && b as int == body[0]
    ensures (b & 1 == 1) <==> header.compress
    ensures ((b >> 1) & 3) as int == header.packType % 4
    ensures b < 8
  {
    ReadBits(b);
  }
}
