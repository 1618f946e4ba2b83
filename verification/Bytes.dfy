/** Bytes, their concatenation, and the four-byte big-endian numbers of the wire format. */
module Bytes {

  type byte = b: int | 0 <= b < 256

  const TWO_TO_32: int := 0x1_0000_0000

  datatype Option<+T> = None | Some(value: T)

  /** The pieces one after the other. */
  function Concat<T>(pieces: seq<seq<T>>): seq<T> {
    if pieces == [] then [] else pieces[0] + Concat(pieces[1..])
  }

  lemma {:induction false} ConcatAppend<T>(a: seq<seq<T>>, b: seq<seq<T>>)
    ensures Concat(a + b) == Concat(a) + Concat(b)
  {
    if a == [] {
      assert a + b == b;
    } else {
      assert (a + b)[1..] == a[1..] + b;
      ConcatAppend(a[1..], b);
    }
  }

  lemma Associates<T>(a: seq<T>, b: seq<T>, c: seq<T>)
    ensures a + (b + c) == (a + b) + c
  {
  }

  lemma Regroup<T>(a: seq<T>, b: seq<T>, c: seq<T>, d: seq<T>)
    ensures a + (b + c + d) == (a + b) + c + d
  {
  }

  /** The low 32 bits of n, most significant byte first. */
  function BigEndian(n: nat): (r: seq<byte>)
    ensures |r| == 4
  {
    [n / 0x1000000 % 256, n / 0x10000 % 256, n / 0x100 % 256, n % 256]
  }

  function FromBigEndian(s: seq<byte>): (n: nat)
    requires |s| == 4
    ensures n < TWO_TO_32
  {
    var b0: int, b1: int, b2: int, b3: int := s[0], s[1], s[2], s[3];
    b0 * 0x1000000 + b1 * 0x10000 + b2 * 0x100 + b3
  }

  /** Reading back what was written gives the number, less what does not fit in 32 bits. */
  lemma {:induction false} BigEndianReadBack(n: nat)
    ensures FromBigEndian(BigEndian(n)) == n % TWO_TO_32
  {
    var a, b, c := n / 0x100, n / 0x10000, n / 0x1000000;
    assert b == a / 0x100 && c == b / 0x100;
    assert n == 0x100 * a + n % 0x100;
    assert a == 0x100 * b + a % 0x100;
    assert b == 0x100 * c + b % 0x100;
    assert c == 0x100 * (c / 0x100) + c % 0x100;
    var rest := FromBigEndian(BigEndian(n));
    assert n == TWO_TO_32 * (c / 0x100) + rest;
  }

  /** Earlier bytes decide before later ones. */
  ghost predicate Before(s: seq<byte>, t: seq<byte>)
    requires |s| == |t|
  {
    exists i :: 0 <= i < |s| && s[i] < t[i] && forall j :: 0 <= j < i ==> s[j] == t[j]
  }

  /** The most significant byte comes first: numbers compare as their bytes do. */
  lemma BigEndianOrders(s: seq<byte>, t: seq<byte>)
    requires |s| == 4 && |t| == 4
    ensures FromBigEndian(s) < FromBigEndian(t) <==> Before(s, t)
  {
    assert s[0] < t[0] ==> Before(s, t);
    assert s[0] == t[0] && s[1] < t[1] ==> Before(s, t);
    assert s[0] == t[0] && s[1] == t[1] && s[2] < t[2] ==> Before(s, t);
    assert s[0] == t[0] && s[1] == t[1] && s[2] == t[2] && s[3] < t[3] ==> Before(s, t);
  }

  /** Four bytes are exactly one number: writing what was read gives the same bytes. */
  lemma {:induction false} BigEndianWriteBack(s: seq<byte>)
    requires |s| == 4
    ensures BigEndian(FromBigEndian(s)) == s
  {
    var b0: int, b1: int, b2: int := s[0], s[1], s[2];
    LowByte(b0, s[1]);
    LowByte(b0 * 0x100 + b1, s[2]);
    LowByte((b0 * 0x100 + b1) * 0x100 + b2, s[3]);
    ShiftedTwice(FromBigEndian(s));
  }

  lemma LowByte(high: nat, low: byte)
    ensures (high * 0x100 + low) / 0x100 == high && (high * 0x100 + low) % 0x100 == low
  {
  }

  lemma ShiftedTwice(n: nat)
    ensures n / 256 / 256 == n / 0x10000 && n / 256 / 256 / 256 == n / 0x1000000
  {
  }
}
