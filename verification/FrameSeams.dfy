/** Where the pieces of a queue meet the ends of frames, and what that says of the bytes sent so far. */
module FrameSeams {
  import opened Bytes
  import opened Framing
  import opened TaskList

  /** The position is the end of a frame, or the very front. */
  predicate FrameBoundary(archive: seq<byte>, p: int) {
    0 <= p <= |archive| && Whole(archive[..p])
  }

  lemma BoundaryStays(archive: seq<byte>, more: seq<byte>, p: int)
    requires p <= |archive|
    ensures FrameBoundary(archive + more, p) <==> FrameBoundary(archive, p)
  {
    if 0 <= p {
      assert (archive + more)[..p] == archive[..p];
    }
  }

  lemma FrontIsBoundary(archive: seq<byte>)
    ensures FrameBoundary(archive, 0)
  {
    assert archive[..0] == [];
  }

  /** From a frame boundary on, the archive is whole frames up to a position exactly when that is one. */
  lemma FromBoundary(archive: seq<byte>, a: int, p: int)
    requires FrameBoundary(archive, a) && a <= p <= |archive|
    ensures Whole(archive[a..p]) <==> FrameBoundary(archive, p)
    ensures Frames(archive[..p]) == Frames(archive[..a]) + Frames(archive[a..p])
  {
    assert archive[..p] == archive[..a] + archive[a..p];
    WholeFront(archive[..a], archive[a..p]);
  }

  predicate StartsFrame(c: Chunk, archive: seq<byte>) {
    c.FileChunk? ==> FrameBoundary(archive, c.start)
  }

  predicate EndsFrame(c: Chunk, archive: seq<byte>) {
    c.FileChunk? ==> FrameBoundary(archive, c.start + c.length)
  }

  /** Where two items meet the archive goes on, or a frame ends and one starts. */
  predicate Seam(a: Chunk, b: Chunk, archive: seq<byte>) {
    Contiguous(a, b) || (EndsFrame(a, archive) && StartsFrame(b, archive))
  }

  ghost predicate Seams(q: seq<Chunk>, archive: seq<byte>) {
    forall i :: 0 <= i < |q| - 1 ==> Seam(q[i], q[i + 1], archive)
  }

  /** The bytes are whole frames, and then the archive from a frame boundary to a position. */
  ghost predicate SentFrom(sent: seq<byte>, archive: seq<byte>, a: int, p: int) {
    && FrameBoundary(archive, a) && a <= p <= |archive| && p - a <= |sent|
    && Whole(sent[..|sent| - (p - a)]) && sent[|sent| - (p - a)..] == archive[a..p]
  }

  ghost predicate SentTo(sent: seq<byte>, archive: seq<byte>, p: int) {
    exists a :: SentFrom(sent, archive, a, p)
  }

  /** What was sent before this queue. */
  ghost predicate SentUpTo(sent: seq<byte>, archive: seq<byte>, q: seq<Chunk>) {
    if q == [] || q[0].RAMChunk? then Whole(sent) else SentTo(sent, archive, q[0].start)
  }

  ghost predicate CutWell(sent: seq<byte>, archive: seq<byte>, q: seq<Chunk>) {
    && Seams(q, archive) && SentUpTo(sent, archive, q)
    && (q != [] ==> EndsFrame(q[|q| - 1], archive))
  }

  lemma SentFromWhole(sent: seq<byte>, archive: seq<byte>, a: int, p: int)
    requires SentFrom(sent, archive, a, p)
    ensures Whole(sent) <==> FrameBoundary(archive, p)
  {
    var n := |sent| - (p - a);
    assert sent == sent[..n] + sent[n..];
    WholeFront(sent[..n], sent[n..]);
    FromBoundary(archive, a, p);
  }

  lemma WholeSentFrom(sent: seq<byte>, archive: seq<byte>, p: int)
    requires Whole(sent) && FrameBoundary(archive, p)
    ensures SentFrom(sent, archive, p, p)
  {
    assert sent[..|sent|] == sent && archive[p..p] == [];
  }

  /** The front of the queue tells whether what was sent is whole frames. */
  predicate FrontAtFrame(archive: seq<byte>, q: seq<Chunk>) {
    q == [] || StartsFrame(q[0], archive)
  }

  lemma SentWholeIff(sent: seq<byte>, archive: seq<byte>, q: seq<Chunk>)
    requires SentUpTo(sent, archive, q)
    ensures Whole(sent) <==> FrontAtFrame(archive, q)
  {
    if q != [] && q[0].FileChunk? {
      var a :| SentFrom(sent, archive, a, q[0].start);
      SentFromWhole(sent, archive, a, q[0].start);
    }
  }

  // ---------------------------------------------------------------- what keeps it

  lemma CutGrows(sent: seq<byte>, archive: seq<byte>, more: seq<byte>, q: seq<Chunk>)
    requires CutWell(sent, archive, q)
    ensures CutWell(sent, archive + more, q)
  {
    forall p: int | FrameBoundary(archive, p) ensures FrameBoundary(archive + more, p) {
      BoundaryStays(archive, more, p);
    }
    assert forall i :: 0 <= i < |q| - 1 ==> Seam(q[i], q[i + 1], archive);
    if q != [] && q[0].FileChunk? {
      var p := q[0].start;
      var a :| SentFrom(sent, archive, a, p);
      assert (archive + more)[a..p] == archive[a..p];
      assert SentFrom(sent, archive + more, a, p);
    }
  }

  lemma SeamsJoin(a: seq<Chunk>, b: seq<Chunk>, archive: seq<byte>)
    requires Seams(a, archive) && Seams(b, archive)
    requires a != [] && b != [] ==> Seam(a[|a| - 1], b[0], archive)
    ensures Seams(a + b, archive)
  {
    var r := a + b;
    forall i | 0 <= i < |r| - 1 ensures Seam(r[i], r[i + 1], archive) {
      if i < |a| - 1 {
        assert r[i] == a[i] && r[i + 1] == a[i + 1];
      } else if i >= |a| {
        assert r[i] == b[i - |a|] && r[i + 1] == b[i - |a| + 1];
      }
    }
  }

  lemma LastEnds(q: seq<Chunk>, start: int, length: nat)
    requires Denote(q) == Range(start, length) && q != []
    requires q[|q| - 1].FileChunk? && 0 < q[|q| - 1].length
    ensures q[|q| - 1].start + q[|q| - 1].length == start + length
  {
    LastDenotes(q);
    var last := q[|q| - 1];
    assert Denote(q)[|Denote(q)| - 1] == Cells(last)[last.length - 1] == At(last.start + last.length - 1);
  }

  /** The pieces of a range: one run from its start to its end. */
  ghost predicate RunFromTo(q: seq<Chunk>, start: int, end: int) {
    && OneRun(q) && q != [] && q[0].start == start
    && q[|q| - 1].start + q[|q| - 1].length == end
  }

  lemma SplitRuns(start: int, length: nat)
    requires 0 < length
    ensures RunFromTo(Split(start, length), start, start + length)
  {
    SplitPartitions(start, length);
    LastEnds(Split(start, length), start, length);
  }

  lemma RunSeams(q: seq<Chunk>, archive: seq<byte>)
    requires OneRun(q)
    ensures Seams(q, archive)
  {
    assert forall i :: 0 <= i < |q| - 1 ==> Contiguous(q[i], q[i + 1]);
  }

  /** A range between two frames, or nothing, or something in memory. */
  predicate AtFrames(c: Chunk, archive: seq<byte>) {
    c.FileChunk? && c.length != 0 ==> StartsFrame(c, archive) && EndsFrame(c, archive)
  }

  /** Putting more behind a queue. */
  lemma CutJoin(sent: seq<byte>, archive: seq<byte>, a: seq<Chunk>, b: seq<Chunk>)
    requires Seams(a, archive) && Seams(b, archive) && b != [] && EndsFrame(b[|b| - 1], archive)
    requires a != [] ==> Seam(a[|a| - 1], b[0], archive)
    requires SentUpTo(sent, archive, if a != [] then a else b)
    ensures CutWell(sent, archive, a + b)
  {
    SeamsJoin(a, b, archive);
    var q := a + b;
    assert q[|q| - 1] == b[|b| - 1];
    assert q[0] == if a != [] then a[0] else b[0];
  }

  lemma SeamsBut(q: seq<Chunk>, archive: seq<byte>)
    requires Seams(q, archive) && q != []
    ensures var front := q[..|q| - 1];
      Seams(front, archive) && (front != [] ==> Seam(front[|front| - 1], q[|q| - 1], archive))
  {
    var front := q[..|q| - 1];
    forall i | 0 <= i < |front| - 1 ensures Seam(front[i], front[i + 1], archive) {
      assert Seam(q[i], q[i + 1], archive);
    }
    if front != [] {
      assert Seam(q[|q| - 2], q[|q| - 2 + 1], archive);
    }
  }

  /** The last item is replaced by pieces that start where it did. */
  lemma MergedCut(sent: seq<byte>, archive: seq<byte>, q: seq<Chunk>, pieces: seq<Chunk>)
    requires CutWell(sent, archive, q) && q != [] && q[|q| - 1].FileChunk?
    requires pieces != [] && pieces[0].FileChunk? && pieces[0].start == q[|q| - 1].start
    requires Seams(pieces, archive) && EndsFrame(pieces[|pieces| - 1], archive)
    ensures CutWell(sent, archive, q[..|q| - 1] + pieces)
  {
    SeamsBut(q, archive);
    CutJoin(sent, archive, q[..|q| - 1], pieces);
  }

  /** A range that does not go on from the queue's end. */
  lemma RangeCut(sent: seq<byte>, archive: seq<byte>, q: seq<Chunk>, c: Chunk, pieces: seq<Chunk>)
    requires CutWell(sent, archive, q)
    requires c.FileChunk? && StartsFrame(c, archive) && EndsFrame(c, archive)
    requires RunFromTo(pieces, c.start, c.start + c.length)
    ensures CutWell(sent, archive, q + pieces)
  {
    RunSeams(pieces, archive);
    SentUpToRange(sent, archive, q, pieces);
    CutJoin(sent, archive, q, pieces);
  }

  lemma SentUpToRange(sent: seq<byte>, archive: seq<byte>, q: seq<Chunk>, pieces: seq<Chunk>)
    requires SentUpTo(sent, archive, q) && pieces != [] && StartsFrame(pieces[0], archive)
    ensures SentUpTo(sent, archive, if q != [] then q else pieces)
  {
    if q == [] {
      SentWholeUpTo(sent, archive, pieces);
    }
  }

  lemma CutMerged(sent: seq<byte>, archive: seq<byte>, q: seq<Chunk>, c: Chunk)
    requires CutWell(sent, archive, q) && Compact(q) && AtFrames(c, archive) && Mergeable(q, c)
    ensures CutWell(sent, archive, Appended(q, c))
  {
    var last := q[|q| - 1];
    SplitRuns(last.start, last.length + c.length);
    RunSeams(Split(last.start, last.length + c.length), archive);
    MergedCut(sent, archive, q, Split(last.start, last.length + c.length));
  }

  lemma CutAppended(sent: seq<byte>, archive: seq<byte>, q: seq<Chunk>, c: Chunk)
    requires CutWell(sent, archive, q) && Compact(q) && AtFrames(c, archive)
    ensures CutWell(sent, archive, Appended(q, c))
  {
    if c.RAMChunk? {
      CutJoin(sent, archive, q, [c]);
    } else if Mergeable(q, c) {
      CutMerged(sent, archive, q, c);
    } else if c.length == 0 {
      assert q + Split(c.start, c.length) == q;
    } else {
      SplitRuns(c.start, c.length);
      RangeCut(sent, archive, q, c, Split(c.start, c.length));
    }
  }

  lemma SeamsTail(q: seq<Chunk>, archive: seq<byte>)
    requires Seams(q, archive) && q != []
    ensures Seams(q[1..], archive)
  {
    var rest := q[1..];
    forall i | 0 <= i < |rest| - 1 ensures Seam(rest[i], rest[i + 1], archive) {
      assert Seam(q[i + 1], q[i + 1 + 1], archive);
    }
  }

  lemma SentWholeUpTo(sent: seq<byte>, archive: seq<byte>, q: seq<Chunk>)
    requires Whole(sent) && FrontAtFrame(archive, q)
    ensures SentUpTo(sent, archive, q)
  {
    if q != [] && q[0].FileChunk? {
      WholeSentFrom(sent, archive, q[0].start);
    }
  }

  lemma SentFurther(sent: seq<byte>, archive: seq<byte>, a: int, p: int, end: int)
    requires SentFrom(sent, archive, a, p) && p <= end <= |archive|
    ensures SentFrom(sent + archive[p..end], archive, a, end)
  {
    var n, sent' := |sent| - (p - a), sent + archive[p..end];
    assert |sent'| - (end - a) == n;
    assert sent'[..n] == sent[..n];
    assert sent'[n..] == sent[n..] + archive[p..end] == archive[a..p] + archive[p..end] == archive[a..end];
  }

  /** Sending the front keeps it. */
  lemma CutSent(sent: seq<byte>, archive: seq<byte>, q: seq<Chunk>)
    requires CutWell(sent, archive, q) && FrontReady(q, |archive|)
    requires q[0].RAMChunk? ==> Whole(q[0].data)
    ensures CutWell(sent + Render(Cells(q[0]), archive), archive, q[1..])
  {
    SeamsTail(q, archive);
    if |q| > 1 {
      assert Seam(q[0], q[0 + 1], archive);
    }
    if q[0].RAMChunk? {
      RenderRam(q[0].data, archive);
      WholeFront(sent, q[0].data);
      SentWholeUpTo(sent + q[0].data, archive, q[1..]);
    } else {
      RenderRange(q[0].start, q[0].length, archive);
      RangeSent(sent, archive, q[0].start, q[0].start + q[0].length, q[1..]);
    }
  }

  lemma SentOn(sent: seq<byte>, archive: seq<byte>, p: int, end: int)
    requires SentTo(sent, archive, p) && p <= end <= |archive|
    ensures 0 <= p && SentTo(sent + archive[p..end], archive, end)
    ensures Whole(sent + archive[p..end]) <==> FrameBoundary(archive, end)
  {
    var a :| SentFrom(sent, archive, a, p);
    SentFurther(sent, archive, a, p, end);
    SentFromWhole(sent + archive[p..end], archive, a, end);
  }

  /** What comes next goes on from there, or a frame ends and what comes next starts one. */
  predicate NextFrom(end: int, rest: seq<Chunk>, archive: seq<byte>) {
    || (rest != [] && rest[0].FileChunk? && rest[0].start == end)
    || (FrameBoundary(archive, end) && FrontAtFrame(archive, rest))
  }

  lemma RangeSent(sent: seq<byte>, archive: seq<byte>, p: int, end: int, rest: seq<Chunk>)
    requires SentTo(sent, archive, p) && 0 <= p <= end <= |archive| && NextFrom(end, rest, archive)
    ensures SentUpTo(sent + archive[p..end], archive, rest)
  {
    SentOn(sent, archive, p, end);
    if FrameBoundary(archive, end) && FrontAtFrame(archive, rest) {
      SentWholeUpTo(sent + archive[p..end], archive, rest);
    }
  }

  /** Nothing sent, and a range between two frames queued, or nothing. */
  lemma CutNew(archive: seq<byte>, start: int, length: nat)
    requires AtFrames(FileChunk(start, length), archive)
    ensures CutWell([], archive, Split(start, length))
  {
    if length != 0 {
      SplitRuns(start, length);
      RangeCut([], archive, [], FileChunk(start, length), Split(start, length));
      assert [] + Split(start, length) == Split(start, length);
    }
  }
}
