/** The per-client queue of src/server/pkg/Radio/Utils.go and the bytes it stands for. */
module TaskList {
  import opened Bytes
  import BufferedFile

  const CHUNK_SIZE: int := 1024 * 400
  const MAX_CHUNKS_IN_QUEUE: int := 2048

  datatype Chunk = FileChunk(start: int, length: nat) | RAMChunk(data: seq<byte>)

  /** One byte still to be sent: the archive's byte at a position, or a byte held in memory. */
  datatype Cell = At(pos: int) | Ram(value: byte)

  function Range(start: int, length: nat): seq<Cell> {
    seq(length, i requires 0 <= i < length => At(start + i))
  }

  function Cells(c: Chunk): seq<Cell> {
    match c
    case FileChunk(start, length) => Range(start, length)
    case RAMChunk(data) => seq(|data|, i requires 0 <= i < |data| => Ram(data[i]))
  }

  /** What a queue stands for, whatever the archive holds. */
  function Denote(q: seq<Chunk>): seq<Cell> {
    if q == [] then [] else Cells(q[0]) + Denote(q[1..])
  }

  ghost predicate InRange(cells: seq<Cell>, n: nat) {
    forall i :: 0 <= i < |cells| && cells[i].At? ==> 0 <= cells[i].pos < n
  }

  /** The bytes that cells stand for over an archive. */
  function Render(cells: seq<Cell>, archive: seq<byte>): seq<byte> {
    seq(|cells|, i requires 0 <= i < |cells| =>
      match cells[i]
      case At(p) => if 0 <= p < |archive| then archive[p] else 0
      case Ram(b) => b)
  }

  lemma {:induction false} DenoteAppend(a: seq<Chunk>, b: seq<Chunk>)
    ensures Denote(a + b) == Denote(a) + Denote(b)
  {
    if a == [] {
      assert a + b == b;
    } else {
      assert (a + b)[1..] == a[1..] + b;
      DenoteAppend(a[1..], b);
    }
  }

  lemma DenoteOne(c: Chunk)
    ensures Denote([c]) == Cells(c)
  {
    assert Denote([c][1..]) == [];
  }

  lemma RangeAppend(start: int, m: nat, n: nat)
    ensures Range(start, m) + Range(start + m, n) == Range(start, m + n)
  {
  }

  lemma RenderAppend(a: seq<Cell>, b: seq<Cell>, archive: seq<byte>)
    ensures Render(a + b, archive) == Render(a, archive) + Render(b, archive)
  {
  }

  /** Growing the archive changes nothing that was in range. */
  lemma RenderGrows(cells: seq<Cell>, archive: seq<byte>, more: seq<byte>)
    requires InRange(cells, |archive|)
    ensures Render(cells, archive + more) == Render(cells, archive)
    ensures InRange(cells, |archive + more|)
  {
  }

  lemma RenderRange(start: int, length: nat, archive: seq<byte>)
    requires 0 <= start && start + length <= |archive|
    ensures Render(Range(start, length), archive) == archive[start..start + length]
  {
  }

  lemma RenderRam(data: seq<byte>, archive: seq<byte>)
    ensures Render(Cells(RAMChunk(data)), archive) == data
  {
  }

  // ---------------------------------------------------------------- splitting

  /** The piece size for a length: doubled while there would be too many pieces. */
  function UnitFrom(length: nat, size: nat): (unit: nat)
    requires 0 < size
    ensures size <= unit && length < unit * (MAX_CHUNKS_IN_QUEUE + 1)
    ensures size < unit ==> unit * 1024 <= length
    decreases length - size
  {
    if length >= size * (MAX_CHUNKS_IN_QUEUE + 1) then UnitFrom(length, size * 2) else size
  }

  function Unit(length: nat): nat {
    UnitFrom(length, CHUNK_SIZE)
  }

  /** A range cut into pieces of one size and a shorter last one. */
  function Pieces(start: int, length: nat, unit: nat): seq<Chunk>
    requires 0 < unit
    decreases length
  {
    if length == 0 then []
    else if length < unit then [FileChunk(start, length)]
    else [FileChunk(start, unit)] + Pieces(start + unit, length - unit, unit)
  }

  function Split(start: int, length: nat): seq<Chunk> {
    Pieces(start, length, Unit(length))
  }

  lemma TimesStep(d: nat, n: nat)
    ensures d * (n + 1) == d * n + d
  {
  }

  lemma ManyPieces(length: nat, size: nat)
    requires 0 < size
    ensures length / size > MAX_CHUNKS_IN_QUEUE <==> length >= size * (MAX_CHUNKS_IN_QUEUE + 1)
  {
    var q, r := length / size, length % size;
    assert length == size * q + r;
    if q <= MAX_CHUNKS_IN_QUEUE {
      assert size * q <= size * MAX_CHUNKS_IN_QUEUE;
    } else {
      assert size * q >= size * (MAX_CHUNKS_IN_QUEUE + 1);
    }
  }

  lemma CutOne(done: seq<Chunk>, start: int, length: nat, unit: nat)
    requires 0 < unit <= length
    ensures done + Pieces(start, length, unit)
         == (done + [FileChunk(start, unit)]) + Pieces(start + unit, length - unit, unit)
  {
    var rest := Pieces(start + unit, length - unit, unit);
    assert done + ([FileChunk(start, unit)] + rest) == (done + [FileChunk(start, unit)]) + rest;
  }

  lemma CutLast(done: seq<Chunk>, start: int, length: nat, unit: nat)
    requires length < unit
    ensures done + Pieces(start, length, unit) == if 0 < length then done + [FileChunk(start, length)] else done
  {
  }

  /** n times d, by adding. */
  ghost function Times(d: nat, n: nat): nat {
    if n == 0 then 0 else d + Times(d, n - 1)
  }

  lemma {:induction false} TimesIsProduct(d: nat, n: nat)
    ensures Times(d, n) == d * n
  {
    if n != 0 {
      TimesIsProduct(d, n - 1);
      TimesStep(d, n - 1);
    }
  }

  lemma Quotient(n: nat, d: nat)
    requires 0 < d
    ensures 0 <= n / d && 0 <= n % d < d && n == Times(d, n / d) + n % d
  {
    TimesIsProduct(d, n / d);
  }

  method SplitChunk(chunk: Chunk) returns (queue: seq<Chunk>)
    requires chunk.FileChunk?
    ensures queue == Split(chunk.start, chunk.length)
  {
    var realChunkSize := ChunkSizeFor(chunk.length);
    var chunks, rest := chunk.length / realChunkSize, chunk.length % realChunkSize;
    Quotient(chunk.length, realChunkSize);
    var pos := chunk.start;
    ghost var left: nat := chunk.length;
    queue := [];
    var i := 0;
    while i < chunks
      invariant 0 <= i <= chunks && left == Times(realChunkSize, chunks - i) + rest
      invariant queue + Pieces(pos, left, realChunkSize) == Pieces(chunk.start, chunk.length, realChunkSize)
    {
      CutOne(queue, pos, left, realChunkSize);
      queue := queue + [FileChunk(pos, realChunkSize)];
      pos, left, i := pos + realChunkSize, left - realChunkSize, i + 1;
    }
    CutLast(queue, pos, rest, realChunkSize);
    if rest > 0 {
      queue := queue + [FileChunk(pos, rest)];
    }
  }

  /** The first loop of splitChunk. The size stays far below the length, so it cannot overflow
      where the length did not. */
  method ChunkSizeFor(length: nat) returns (realChunkSize: nat)
    ensures realChunkSize == Unit(length)
    ensures realChunkSize == CHUNK_SIZE || realChunkSize * 1024 <= length
  {
    realChunkSize := CHUNK_SIZE;
    var chunks := length / realChunkSize;
    while chunks > MAX_CHUNKS_IN_QUEUE
      invariant 0 < realChunkSize && chunks == length / realChunkSize
      invariant UnitFrom(length, realChunkSize) == Unit(length)
      invariant realChunkSize == CHUNK_SIZE || realChunkSize * 1024 <= length
      decreases length - realChunkSize
    {
      ManyPieces(length, realChunkSize);
      realChunkSize := realChunkSize * 2;
      chunks := length / realChunkSize;
    }
    ManyPieces(length, realChunkSize);
  }

  /** The pieces stand for the range, and each but the last is one unit long. */
  lemma {:induction false} PiecesCover(start: int, length: nat, unit: nat)
    requires 0 < unit
    ensures var q := Pieces(start, length, unit);
      && Denote(q) == Range(start, length)
      && (forall i :: 0 <= i < |q| ==> q[i].FileChunk? && 0 < q[i].length <= unit)
      && (forall i :: 0 <= i < |q| - 1 ==> q[i].length == unit && q[i + 1].start == q[i].start + unit)
      && (0 < length ==> q != [] && q[0].start == start)
    decreases length
  {
    if 0 < length < unit {
      DenoteOne(FileChunk(start, length));
    } else if unit <= length {
      PiecesCover(start + unit, length - unit, unit);
      RangeAppend(start, unit, length - unit);
    }
  }

  /** There are as many pieces as units fit into the length, rounded up. */
  lemma {:induction false} PiecesCount(start: int, length: nat, unit: nat, n: nat)
    requires 0 < unit
    ensures |Pieces(start, length, unit)| <= n <==> length <= unit * n
    decreases n
  {
    if n != 0 {
      TimesStep(unit, n - 1);
      if length < unit {
        assert unit * (n - 1) >= 0;
      } else {
        PiecesCount(start + unit, length - unit, unit, n - 1);
      }
    }
  }

  lemma FirstPiece(start: int, length: nat)
    requires 0 < length
    ensures var unit, q := Unit(length), Split(start, length);
      && q != [] && q[0] == FileChunk(start, if length < unit then length else unit)
      && (unit < length ==> q[1..] == Pieces(start + unit, length - unit, unit) && |q| >= 2)
  {
  }

  /** Splitting partitions the range into positive pieces, each followed by its continuation. */
  lemma SplitPartitions(start: int, length: nat)
    ensures var q := Split(start, length);
      && Denote(q) == Range(start, length)
      && (forall i :: 0 <= i < |q| ==> q[i].FileChunk? && 0 < q[i].length)
      && (forall i :: 0 <= i < |q| - 1 ==> q[i].length >= CHUNK_SIZE && q[i + 1].start == q[i].start + q[i].length)
      && (0 < length ==> q != [] && q[0].start == start)
  {
    PiecesCover(start, length, Unit(length));
  }

  /** The pieces are at most MAX_CHUNKS_IN_QUEUE exactly when that many of the chosen size cover the
      length; there is never more than one beyond, and once the size was doubled at least 1024. */
  lemma SplitCount(start: int, length: nat)
    ensures |Split(start, length)| <= MAX_CHUNKS_IN_QUEUE <==> length <= Unit(length) * MAX_CHUNKS_IN_QUEUE
    ensures |Split(start, length)| <= MAX_CHUNKS_IN_QUEUE + 1
    ensures Unit(length) > CHUNK_SIZE ==> |Split(start, length)| >= 1024
  {
    var unit := Unit(length);
    PiecesCount(start, length, unit, MAX_CHUNKS_IN_QUEUE);
    PiecesCount(start, length, unit, MAX_CHUNKS_IN_QUEUE + 1);
    PiecesCount(start, length, unit, 1023);
  }

  /** A range that is cut into one piece more than MAX_CHUNKS_IN_QUEUE. */
  lemma OnePieceTooMany(start: int)
    ensures |Split(start, CHUNK_SIZE * MAX_CHUNKS_IN_QUEUE + 1)| == MAX_CHUNKS_IN_QUEUE + 1
  {
    var length := CHUNK_SIZE * MAX_CHUNKS_IN_QUEUE + 1;
    assert Unit(length) == CHUNK_SIZE;
    SplitCount(start, length);
  }

  // ---------------------------------------------------------------- appending

  /** The queue after a chunk was appended: a file chunk that goes on where the last one stops is
      merged with it and split again. */
  function Appended(q: seq<Chunk>, c: Chunk): seq<Chunk> {
    if c.RAMChunk? then q + [c]
    else if Mergeable(q, c) then
      var last := q[|q| - 1];
      q[..|q| - 1] + Split(last.start, last.length + c.length)
    else
      q + Split(c.start, c.length)
  }

  predicate Mergeable(q: seq<Chunk>, c: Chunk) {
    && q != [] && q[|q| - 1].FileChunk?
    && c.FileChunk? && c.start == q[|q| - 1].start + q[|q| - 1].length
  }

  lemma PiecesAppended(q: seq<Chunk>, start: int, length: nat)
    ensures Denote(q + Split(start, length)) == Denote(q) + Range(start, length)
  {
    DenoteAppend(q, Split(start, length));
    SplitPartitions(start, length);
  }

  lemma {:induction false} LastDenotes(q: seq<Chunk>)
    requires q != []
    ensures Denote(q) == Denote(q[..|q| - 1]) + Cells(q[|q| - 1])
  {
    assert q == q[..|q| - 1] + [q[|q| - 1]];
    DenoteAppend(q[..|q| - 1], [q[|q| - 1]]);
    DenoteOne(q[|q| - 1]);
  }

  /** Appending to the queue appends to what it stands for, in every case. */
  lemma AppendedDenotes(q: seq<Chunk>, c: Chunk)
    ensures Denote(Appended(q, c)) == Denote(q) + Cells(c)
  {
    if c.RAMChunk? {
      DenoteAppend(q, [c]);
      DenoteOne(c);
    } else if Mergeable(q, c) {
      var front, last := q[..|q| - 1], q[|q| - 1];
      PiecesAppended(front, last.start, last.length + c.length);
      RangeAppend(last.start, last.length, c.length);
      LastDenotes(q);
      Associates(Denote(front), Cells(last), Cells(c));
    } else {
      PiecesAppended(q, c.start, c.length);
    }
  }

  /** Only the bottom of the queue matters. A range that goes on where it stops is as good as the two of them
      at once, however long they are; anything else is put behind it as into an empty queue. */
  lemma AppendIsLocal(q: seq<Chunk>, bottom: Chunk, c: Chunk)
    ensures Appended(q + [bottom], c)
         == if bottom.FileChunk? && c.FileChunk? && bottom.start + bottom.length == c.start then
              q + Appended([], FileChunk(bottom.start, bottom.length + c.length))
            else
              q + [bottom] + Appended([], c)
  {
    AppendedToNone(c);
    if c.FileChunk? && bottom.FileChunk? {
      AppendedToNone(FileChunk(bottom.start, bottom.length + c.length));
    }
    BottomOf(q, bottom);
  }

  lemma AppendedToNone(c: Chunk)
    ensures Appended([], c) == if c.RAMChunk? then [c] else Split(c.start, c.length)
  {
    var pieces := if c.RAMChunk? then [c] else Split(c.start, c.length);
    assert [] + pieces == pieces;
  }

  lemma BottomOf<T>(q: seq<T>, bottom: T)
    ensures var all := q + [bottom]; all[..|all| - 1] == q && all[|all| - 1] == bottom
  {
  }

  predicate Contiguous(a: Chunk, b: Chunk) {
    a.FileChunk? && b.FileChunk? && a.start + a.length == b.start
  }

  /** No empty file chunk, and no small one in front of its continuation. */
  ghost predicate Compact(q: seq<Chunk>) {
    && (forall i :: 0 <= i < |q| && q[i].FileChunk? ==> 0 < q[i].length)
    && (forall i :: 0 <= i < |q| - 1 && Contiguous(q[i], q[i + 1]) ==> q[i].length >= CHUNK_SIZE)
  }

  lemma CompactJoin(a: seq<Chunk>, b: seq<Chunk>)
    requires Compact(a) && Compact(b)
    requires a != [] && b != [] && Contiguous(a[|a| - 1], b[0]) ==> a[|a| - 1].length >= CHUNK_SIZE
    ensures Compact(a + b)
  {
    var r := a + b;
    forall i | 0 <= i < |r| - 1 && Contiguous(r[i], r[i + 1])
      ensures r[i].length >= CHUNK_SIZE
    {
      if i < |a| - 1 {
        assert r[i] == a[i] && r[i + 1] == a[i + 1];
      } else if i >= |a| {
        assert r[i] == b[i - |a|] && r[i + 1] == b[i - |a| + 1];
      }
    }
  }

  lemma AppendedCompact(q: seq<Chunk>, c: Chunk)
    requires Compact(q)
    ensures Compact(Appended(q, c))
  {
    if c.RAMChunk? {
      CompactJoin(q, [c]);
    } else if Mergeable(q, c) {
      var front, last := q[..|q| - 1], q[|q| - 1];
      SplitPartitions(last.start, last.length + c.length);
      if front != [] && Contiguous(front[|front| - 1], last) {
        assert Contiguous(q[|q| - 2], q[|q| - 1]);
      }
      CompactJoin(front, Split(last.start, last.length + c.length));
    } else {
      SplitPartitions(c.start, c.length);
      CompactJoin(q, Split(c.start, c.length));
    }
  }

  lemma CompactTail(q: seq<Chunk>)
    requires q != []
    ensures Compact(q) ==> Compact(q[1..])
    ensures OneRun(q) ==> OneRun(q[1..])
  {
    var rest := q[1..];
    assert forall i :: 0 <= i < |rest| ==> rest[i] == q[i + 1];
  }

  ghost predicate OneRun(q: seq<Chunk>) {
    && (forall i :: 0 <= i < |q| ==> q[i].FileChunk?)
    && (forall i :: 0 <= i < |q| - 1 ==> Contiguous(q[i], q[i + 1]))
  }

  /** A compact queue that is one run of the archive is short for its length. */
  lemma {:induction false} CompactIsShort(q: seq<Chunk>)
    requires Compact(q) && OneRun(q) && q != []
    ensures 0 < |Denote(q)| && |q| <= (|Denote(q)| - 1) / CHUNK_SIZE + 1
  {
    DenoteOne(q[0]);
    if |q| == 1 {
      assert q == [q[0]];
    } else {
      assert Contiguous(q[0], q[1]);
      CompactTail(q);
      CompactIsShort(q[1..]);
    }
  }

  // ---------------------------------------------------------------- sending

  /** The front can be read from an archive of n bytes. */
  predicate FrontReady(q: seq<Chunk>, n: nat) {
    q != [] && (q[0].FileChunk? ==> 0 <= q[0].start && q[0].start + q[0].length <= n)
  }

  /** A range that ends before the file. */
  predicate EndsBeforeZero(q: seq<Chunk>) {
    q != [] && q[0].FileChunk? && q[0].start + q[0].length < 0
  }

  /** The connection: what was written to it. accepted says how many bytes of the next write the
      network takes; fewer than all of them is an error. */
  class Connection {
    var written: seq<byte>

    constructor ()
      ensures written == []
    {
      written := [];
    }

    method WriteRaw(data: seq<byte>, accepted: nat) returns (ok: bool)
      modifies this
      ensures ok <==> |data| <= accepted
      ensures written == old(written) + if ok then data else data[..accepted]
    {
      ok := |data| <= accepted;
      written := written + if ok then data else data[..accepted];
    }
  }

  class RadioTaskList {
    var tasks: seq<Chunk>

    constructor ()
      ensures tasks == []
    {
      tasks := [];
    }

    method Append(chunks: seq<Chunk>)
      modifies this
      ensures tasks == old(tasks) + chunks
    {
      tasks := tasks + chunks;
    }

    method PopBack() returns (bottomItem: Chunk)
      requires tasks != []
      modifies this
      ensures tasks + [bottomItem] == old(tasks)
    {
      bottomItem := tasks[|tasks| - 1];
      tasks := tasks[..|tasks| - 1];
    }

    method PopFront() returns (item: Chunk)
      requires tasks != []
      modifies this
      ensures [item] + tasks == old(tasks)
    {
      item := tasks[0];
      tasks := tasks[1..];
    }

    /** Grows by one, shifts everything up by one, and overwrites the front. */
    method PushFront(chunk: Chunk)
      modifies this
      ensures tasks == [chunk] + old(tasks)
    {
      tasks := tasks + [chunk];
      tasks := tasks[..1] + tasks[..|tasks| - 1];
      tasks := tasks[0 := chunk];
    }

    method PushLargeChunk(chunk: Chunk)
      requires chunk.FileChunk?
      modifies this
      ensures tasks == old(tasks) + Split(chunk.start, chunk.length)
    {
      var newItems := SplitChunk(chunk);
      Append(newItems);
    }

    method AppendToPendings(chunk: Chunk)
      modifies this
      ensures tasks == Appended(old(tasks), chunk)
    {
      ghost var was := tasks;
      if chunk.RAMChunk? {
        Append([chunk]);
        return;
      }
      if |tasks| > 0 {
        var bottomItem := PopBack();
        assert was[|was| - 1] == bottomItem && was[..|was| - 1] == tasks;
        match bottomItem {
          case FileChunk(start, length) =>
            var newLength := length + chunk.length;
            if start + length == chunk.start {
              PushLargeChunk(FileChunk(start, newLength));
            } else {
              Append([bottomItem]);
              PushLargeChunk(FileChunk(chunk.start, chunk.length));
            }
          case RAMChunk(_) =>
            Append([bottomItem]);
            PushLargeChunk(chunk);
        }
      } else {
        PushLargeChunk(FileChunk(chunk.start, chunk.length));
      }
    }

    /** Sends the front item and drops it, or changes nothing when there is none or the file
        cannot be read there yet. Only a front that ends before zero, on an empty disk, crashes. */
    method FetchAndSend(client: Connection, file: BufferedFile.BufferedFile, accepted: nat)
      returns (ok: bool, crashed: bool)
      requires file.Valid()
      modifies this, client
      ensures file.Valid() && file.Contents() == old(file.Contents())
      ensures crashed <==> EndsBeforeZero(old(tasks)) && file.fileSize == 0
      ensures !crashed && !FrontReady(old(tasks), |file.Contents()|) ==>
        ok && tasks == old(tasks) && client.written == old(client.written)
      ensures FrontReady(old(tasks), |file.Contents()|) ==>
        var front := Render(Cells(old(tasks)[0]), file.Contents());
        && tasks == old(tasks)[1..]
        && (ok <==> |front| <= accepted)
        && client.written == old(client.written) + if ok then front else front[..accepted]
    {
      if |tasks| <= 0 {
        return true, false;
      }
      ghost var was := tasks;
      var item := PopFront();
      assert was[0] == item && was[1..] == tasks;
      crashed := false;
      match item {
        case FileChunk(start, length) =>
          var buf := new byte[length](_ => 0);
          var n, status := file.ReadAt(buf, start);
          if status == BufferedFile.Crashed {
            return false, true;
          }
          if n != length || status != BufferedFile.Complete {
            PushFront(item);
            return true, false;
          }
          RenderRange(start, length, file.Contents());
          ok := client.WriteRaw(buf[..], accepted);
        case RAMChunk(data) =>
          RenderRam(data, file.Contents());
          ok := client.WriteRaw(data, accepted);
      }
    }
  }

  /** The queue and the bytes sent after a number of successful fetches. */
  function Fetched(q: seq<Chunk>, archive: seq<byte>, calls: nat): (seq<Chunk>, seq<byte>) {
    if calls == 0 then (q, [])
    else if FrontReady(q, |archive|) then
      var (end, sent) := Fetched(q[1..], archive, calls - 1);
      (end, Render(Cells(q[0]), archive) + sent)
    else
      Fetched(q, archive, calls - 1)
  }

  /** When all of it lies inside the archive, each call sends exactly one item and drops it; the
      queue is empty after exactly as many calls as it has items, having sent what it stood for. */
  lemma {:induction false} Draining(q: seq<Chunk>, archive: seq<byte>, calls: nat)
    requires InRange(Denote(q), |archive|) && Compact(q) && calls <= |q|
    ensures Fetched(q, archive, calls) == (q[calls..], Render(Denote(q[..calls]), archive))
  {
    if calls != 0 {
      FrontInRange(q, |archive|);
      assert q[1..][calls - 1..] == q[calls..];
      assert q[..calls][1..] == q[1..][..calls - 1];
      RenderAppend(Cells(q[0]), Denote(q[1..][..calls - 1]), archive);
      CompactTail(q);
      Draining(q[1..], archive, calls - 1);
    } else {
      assert q[0..] == q && q[..0] == [];
      assert Render(Denote(q[..0]), archive) == [];
    }
  }

  lemma FrontInRange(q: seq<Chunk>, n: nat)
    requires q != [] && InRange(Denote(q), n) && Compact(q)
    ensures FrontReady(q, n) && InRange(Denote(q[1..]), n)
  {
    var a, b := Cells(q[0]), Denote(q[1..]);
    assert forall i :: 0 <= i < |b| ==> (a + b)[|a| + i] == b[i];
    if q[0].FileChunk? {
      assert (a + b)[|a| - 1] == At(q[0].start + q[0].length - 1) && (a + b)[0] == At(q[0].start);
    }
  }
}
