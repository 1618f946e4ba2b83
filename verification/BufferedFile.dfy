/** The write-behind file of src/server/pkg/BufferedFile/BufferedFile.go. Disk calls succeed. */
module BufferedFile {
  import opened Bytes

  /** An operating-system file: its bytes on disk and the position of the open handle. */
  class OsFile {
    var content: seq<byte>
    var position: nat

    constructor (content: seq<byte>)
      ensures this.content == content && position == 0
    {
      this.content, position := content, 0;
    }

    /** Overwrites at the position; a position past the end leaves a hole of zeroes. */
    method Write(data: seq<byte>)
      modifies this
      ensures old(position) <= |old(content)| ==>
        content == old(content)[..old(position)] + data
          + (if old(position) + |data| < |old(content)| then old(content)[old(position) + |data|..] else [])
      ensures position == old(position) + |data|
    {
      var hole: seq<byte> := if position <= |content| then [] else seq(position - |content|, _ => 0);
      var padded := content + hole;
      content := padded[..position] + data
        + if position + |data| < |padded| then padded[position + |data|..] else [];
      position := position + |data|;
    }

    /** Fills data from an offset; a negative offset and a read past the end fail. */
    method ReadAt(data: array<byte>, off: int) returns (ok: bool)
      modifies data
      ensures ok <==> 0 <= off && (off + data.Length <= |content| || data.Length == 0)
      ensures ok && 0 < data.Length ==> data[..] == content[off..off + data.Length]
    {
      if off < 0 {
        return false;
      }
      var n := 0;
      while n < data.Length && off + n < |content|
        invariant 0 <= n <= data.Length
        invariant 0 < n ==> off + n <= |content|
        invariant forall k :: 0 <= k < n ==> data[k] == content[off + k]
      {
        data[n] := content[off + n];
        n := n + 1;
      }
      return n == data.Length;
    }

    /** Closing and opening again, then seeking to the end. */
    method Reopen()
      modifies this`position
      ensures position == |content|
    {
      position := 0;
      position := |content|;
    }

    method SeekStart()
      modifies this`position
      ensures position == 0
    {
      position := 0;
    }

    method Truncate()
      modifies this`content
      ensures content == []
    {
      content := [];
    }
  }

  /** How a read ends: all of the data, an error, or a panic. */
  datatype ReadStatus = Complete | Refused | Crashed

  class BufferedFile {
    var buffer: array<byte>
    var waterMark: nat
    var fileSize: nat
    var wholeSize: nat
    var file: OsFile

    /** The counters agree with the disk, the mark is inside the buffer, and the handle stands at
        the end of the file. */
    ghost predicate Valid()
      reads this, file
    {
      && waterMark <= buffer.Length
      && fileSize == |file.content| == file.position
      && wholeSize == fileSize + waterMark
    }

    /** What the file and its buffer stand for: one flat string of bytes. */
    ghost function Contents(): (s: seq<byte>)
      requires Valid()
      reads this, file, buffer
      ensures |s| == wholeSize
    {
      file.content + buffer[..waterMark]
    }

    /** MakeBufferedFile on whatever the disk holds. */
    constructor (bufferSize: nat, disk: OsFile)
      modifies disk
      ensures Valid() && file == disk && fresh(buffer) && buffer.Length == bufferSize
      ensures disk.content == old(disk.content) && Contents() == disk.content
    {
      buffer := new byte[bufferSize](_ => 0);
      waterMark := 0;
      file := disk;
      fileSize, wholeSize := |disk.content|, |disk.content|;
      new;
      disk.Reopen();
      assert buffer[..waterMark] == [];
    }

    method WholeSize() returns (n: nat)
      requires Valid()
      ensures n == |Contents()|
    {
      n := wholeSize;
    }

    /** Sync and innerSync: the timer calls it at any moment. */
    method Sync()
      requires Valid()
      modifies this`waterMark, this`fileSize, file
      ensures Valid() && waterMark == 0
      ensures Contents() == old(Contents()) == file.content
    {
      var mark := waterMark;
      if 1 <= mark {
        file.Write(buffer[0..mark]);
        fileSize := fileSize + mark;
        waterMark := 0;
      }
      file.Reopen();
      assert buffer[..waterMark] == [];
    }

    /** Appends. The disk is left alone while the data fits with room to spare; otherwise the
        buffer is flushed, and data larger than the buffer goes to the disk as well. */
    method Write(data: seq<byte>) returns (written: nat)
      requires Valid()
      modifies this, buffer, file
      ensures Valid() && buffer == old(buffer) && file == old(file)
      ensures Contents() == old(Contents()) + data
      ensures written == |data|
      ensures file.content ==
        if old(waterMark) + |data| < buffer.Length then old(file.content)
        else if |data| <= buffer.Length then old(Contents())
        else old(Contents()) + data
    {
      ghost var before := Contents();
      var length := |data|;
      var left := buffer.Length - waterMark;
      if left <= length {
        Sync();
        left := buffer.Length - waterMark;
      }
      if length > buffer.Length {
        wholeSize := wholeSize + length;
        fileSize := fileSize + length;
        file.Write(data);
        assert buffer[..waterMark] == [];
        return length;
      }
      CopyIn(data);
      waterMark := waterMark + length;
      wholeSize := wholeSize + length;
      assert Contents() == before + data;
      return length;
    }

    /** The copying loop of Write: it never stops short, since the data fits by then. */
    method CopyIn(data: seq<byte>)
      requires waterMark + |data| <= buffer.Length
      modifies buffer
      ensures buffer[..waterMark + |data|] == old(buffer[..waterMark]) + data
    {
      var i, j := waterMark, 0;
      while j < |data| && i < buffer.Length
        modifies buffer
        invariant 0 <= j <= |data| && i == waterMark + j <= buffer.Length
        invariant forall k :: 0 <= k < waterMark ==> buffer[k] == old(buffer[k])
        invariant forall k :: 0 <= k < j ==> buffer[waterMark + k] == data[k]
      {
        buffer[i] := data[j];
        i, j := i + 1, j + 1;
      }
      forall k | waterMark <= k < waterMark + |data|
        ensures buffer[k] == data[k - waterMark]
      {
        assert buffer[waterMark + (k - waterMark)] == data[k - waterMark];
      }
    }

    /** Reads a range of the flat bytes, from the disk, from the buffer or from both. It succeeds
        exactly when the range is inside them. On an empty disk, a range that ends before zero
        asks for a block of negative size. */
    method ReadAt(data: array<byte>, off: int) returns (length: nat, status: ReadStatus)
      requires Valid()
      requires data != buffer
      modifies data
      ensures status == Complete <==> 0 <= off && off + data.Length <= |Contents()|
      ensures status == Complete ==> length == data.Length && data[..] == Contents()[off..off + data.Length]
      ensures status == Crashed <==> fileSize == 0 && off + data.Length < 0
    {
      var n := data.Length;
      if off + n > fileSize + waterMark {
        return 0, Refused;
      }
      if off + n <= fileSize && fileSize != 0 {
        var ok := file.ReadAt(data, off);
        return if ok then n else 0, if ok then Complete else Refused;
      }
      if off > fileSize {
        var start := off - fileSize;
        forall k | 0 <= k < n {
          data[k] := buffer[start + k];
        }
        return n, Complete;
      }
      if off + n < fileSize {
        return 0, Crashed;
      }
      var ok := ReadAcross(data, off);
      return n, if ok then Complete else Refused;
    }

    /** The last branch of ReadAt: first what the file has, then the buffer's share. */
    method ReadAcross(data: array<byte>, off: int) returns (ok: bool)
      requires Valid()
      requires data != buffer
      requires off <= fileSize <= off + data.Length <= fileSize + waterMark
      modifies data
      ensures ok <==> 0 <= off
      ensures ok ==> data[..] == Contents()[off..off + data.Length]
    {
      var fileBuf := new byte[fileSize - off](_ => 0);
      ok := file.ReadAt(fileBuf, off);
      var bufferBuf := new byte[off + data.Length - fileSize](_ => 0);
      var i := 0;
      while i < bufferBuf.Length
        modifies bufferBuf
        invariant 0 <= i <= bufferBuf.Length
        invariant forall k :: 0 <= k < i ==> bufferBuf[k] == buffer[k]
      {
        bufferBuf[i] := buffer[i];
        i := i + 1;
      }
      i := 0;
      while i < fileBuf.Length
        modifies data
        invariant 0 <= i <= fileBuf.Length
        invariant forall k :: 0 <= k < i ==> data[k] == fileBuf[k]
      {
        data[i] := fileBuf[i];
        i := i + 1;
      }
      var pre := fileBuf.Length;
      i := 0;
      while i < bufferBuf.Length
        modifies data
        invariant 0 <= i <= bufferBuf.Length
        invariant forall k :: 0 <= k < pre ==> data[k] == fileBuf[k]
        invariant forall k :: 0 <= k < i ==> data[pre + k] == bufferBuf[k]
      {
        data[pre + i] := bufferBuf[i];
        i := i + 1;
      }
      if ok {
        assert forall k :: 0 <= k < pre ==> fileBuf[..][k] == file.content[off..fileSize][k];
        forall k | 0 <= k < data.Length
          ensures data[k] == Contents()[off + k]
        {
          if k >= pre {
            assert data[pre + (k - pre)] == bufferBuf[k - pre];
          }
        }
      }
    }

    /** The counters are reset before the disk is truncated. */
    method Clear()
      requires Valid()
      modifies this, file
      ensures Valid() && buffer == old(buffer) && file == old(file)
      ensures Contents() == [] && file.content == []
    {
      wholeSize := 0;
      waterMark := 0;
      fileSize := 0;
      file.SeekStart();
      file.Truncate();
    }

    /** Leaves everything on the disk, for the next opening to find. */
    method Close()
      requires Valid()
      modifies this`waterMark, this`fileSize, file
      ensures Valid()
      ensures file.content == old(Contents())
    {
      Sync();
    }
  }

  datatype Call = Write(data: seq<byte>) | ReadAt(off: nat, length: nat) | Clear | Sync | Size | Reopen(bufferSize: nat)
  datatype Reply = Written(count: nat) | Read(data: Option<seq<byte>>) | Done | SizeIs(n: nat)

  /** What one call does to a flat string of bytes, and what it answers. */
  function FlatCall(log: seq<byte>, call: Call): (seq<byte>, Reply) {
    match call
    case Write(data) => (log + data, Written(|data|))
    case ReadAt(off, length) => (log, Read(if off + length <= |log| then Some(log[off..off + length]) else None))
    case Clear => ([], Done)
    case Sync => (log, Done)
    case Size => (log, SizeIs(|log|))
    case Reopen(_) => (log, Done)
  }

  function FlatRun(log: seq<byte>, calls: seq<Call>): (seq<byte>, seq<Reply>)
    decreases |calls|
  {
    if calls == [] then (log, [])
    else
      var (mid, replies) := FlatRun(log, calls[..|calls| - 1]);
      var (end, reply) := FlatCall(mid, calls[|calls| - 1]);
      (end, replies + [reply])
  }

  /** In every run of calls, with flushes and reopenings anywhere and any buffer sizes, the file
      answers as the flat string of bytes does, and stands for it at the end. */
  method Run(disk: OsFile, bufferSize: nat, calls: seq<Call>) returns (f: BufferedFile, replies: seq<Reply>)
    modifies disk
    ensures f.Valid() && f.file == disk && fresh(f) && fresh(f.buffer)
    ensures (f.Contents(), replies) == FlatRun(old(disk.content), calls)
  {
    ghost var start := disk.content;
    f := new BufferedFile(bufferSize, disk);
    replies := [];
    assert calls[..0] == [];
    for i := 0 to |calls|
      invariant f.Valid() && f.file == disk && fresh(f) && fresh(f.buffer)
      invariant (f.Contents(), replies) == FlatRun(start, calls[..i])
    {
      assert calls[..i + 1][..i] == calls[..i];
      var reply;
      match calls[i] {
        case Write(data) =>
          var n := f.Write(data);
          reply := Written(n);
        case ReadAt(off, length) =>
          var data := new byte[length](_ => 0);
          var _, status := f.ReadAt(data, off);
          reply := Read(if status == Complete then Some(data[..]) else None);
        case Clear =>
          f.Clear();
          reply := Done;
        case Sync =>
          f.Sync();
          reply := Done;
        case Size =>
          var n := f.WholeSize();
          reply := SizeIs(n);
        case Reopen(size) =>
          f.Close();
          f := new BufferedFile(size, disk);
          reply := Done;
      }
      replies := replies + [reply];
    }
    assert calls[..|calls|] == calls;
  }

  /** The calls that a client makes, without the timer's flushes and without restarts. */
  function Asked(calls: seq<Call>): seq<Call> {
    if calls == [] then []
    else
      var last := calls[|calls| - 1];
      Asked(calls[..|calls| - 1]) + if last.Sync? || last.Reopen? then [] else [last]
  }

  /** The replies to those calls. */
  function Heard(calls: seq<Call>, replies: seq<Reply>): seq<Reply>
    requires |calls| == |replies|
  {
    if calls == [] then []
    else
      var n := |calls| - 1;
      Heard(calls[..n], replies[..n]) + if calls[n].Sync? || calls[n].Reopen? then [] else [replies[n]]
  }

  /** The flat string does not notice them: it answers the calls asked as it answers them in the run. */
  lemma {:induction false} AskedIsHeard(log: seq<byte>, calls: seq<Call>)
    ensures |FlatRun(log, calls).1| == |calls|
    ensures FlatRun(log, Asked(calls)) == (FlatRun(log, calls).0, Heard(calls, FlatRun(log, calls).1))
    decreases |calls|
  {
    if calls != [] {
      var n := |calls| - 1;
      var last := calls[n];
      AskedIsHeard(log, calls[..n]);
      var replies := FlatRun(log, calls).1;
      assert replies[..n] == FlatRun(log, calls[..n]).1;
      var asked := Asked(calls);
      if last.Sync? || last.Reopen? {
        assert asked == Asked(calls[..n]);
        assert Heard(calls, replies) == Heard(calls[..n], replies[..n]);
      } else {
        assert asked[..|asked| - 1] == Asked(calls[..n]) && asked[|asked| - 1] == last;
      }
    }
  }

  /** Two files on equal disks, with buffers of any sizes, are asked the same, and flushed and
      restarted each at its own moments: they answer the same and end with the same contents. */
  method TimerTransparency(disk1: OsFile, size1: nat, calls1: seq<Call>, disk2: OsFile, size2: nat, calls2: seq<Call>)
    returns (f1: BufferedFile, replies1: seq<Reply>, f2: BufferedFile, replies2: seq<Reply>)
    requires disk1 != disk2 && disk1.content == disk2.content
    requires Asked(calls1) == Asked(calls2)
    modifies disk1, disk2
    ensures f1.Valid() && f2.Valid() && f1.Contents() == f2.Contents()
    ensures |replies1| == |calls1| && |replies2| == |calls2|
    ensures Heard(calls1, replies1) == Heard(calls2, replies2)
  {
    AskedIsHeard(disk1.content, calls1);
    AskedIsHeard(disk2.content, calls2);
    f1, replies1 := Run(disk1, size1, calls1);
    f2, replies2 := Run(disk2, size2, calls2);
  }
}
