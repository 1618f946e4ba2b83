/** The radio cuts and interleaves; no frame is ever torn. */
module FrameAlignment {
  import opened Bytes
  import opened Framing
  import opened TaskList
  import opened Counting
  import opened Radio
  import opened RadioInvariant
  import opened RadioRuns
  import opened FrameSeams

  /** What an event hands to the radio. */
  function Issues(e: Event): set<seq<byte>> {
    match e
    case WriteBegin(data) => {data}
    case Send(data) => {data}
    case SingleSend(data, _) => {data}
    case _ => {}
  }

  function Issued(run: seq<Event>): set<seq<byte>> {
    if run == [] then {} else Issues(run[0]) + Issued(run[1..])
  }

  /** Only whole frames are handed to the radio, each by itself. */
  ghost predicate FramesOnly(run: seq<Event>) {
    forall f :: f in Issued(run) ==> IsFrame(f)
  }

  /** Issued frames in memory, or a range of the archive between two frames. */
  ghost predicate ChunkFramed(c: Chunk, archive: seq<byte>, issued: set<seq<byte>>) {
    AtFrames(c, archive) && (c.RAMChunk? ==> WholeFrom(c.data, issued))
  }

  ghost predicate AllFramed(q: seq<Chunk>, archive: seq<byte>, issued: set<seq<byte>>) {
    forall i :: 0 <= i < |q| ==> ChunkFramed(q[i], archive, issued)
  }

  ghost predicate RamWhole(q: seq<Chunk>, issued: set<seq<byte>>) {
    forall i :: 0 <= i < |q| && q[i].RAMChunk? ==> WholeFrom(q[i].data, issued)
  }

  /** The client joined inside the archive at the end of a frame, or a prune has come since. */
  predicate JoinedAtFrame(archive: seq<byte>, h: History) {
    h.tracked && FrameBoundary(archive, h.base)
  }

  /** What is on its way to a client is frames; what reached it as well when it joined at one, and then
      its queue and the bytes sent so far meet the ends of frames. */
  ghost predicate RecordFramed(archive: seq<byte>, issued: set<seq<byte>>, c: RadioClient) {
    && c.history.base <= |archive|
    && AllFramed(c.inflight, archive, issued) && RamWhole(c.list, issued) && Compact(c.list)
    && (JoinedAtFrame(archive, c.history) ==>
          AllFramed(c.history.delivered, archive, issued) && CutWell(c.sent, archive, c.list))
  }

  /** The archive is whole frames, and so is what is being written, and announced, in place. */
  ghost predicate ArchiveFramed(s: State, issued: set<seq<byte>>) {
    && WholeFrom(s.archive, issued)
    && (s.writing.SizeRead? ==> WholeFrom(s.writing.data, issued))
    && (InPlace(s.writing, |s.archive|) ==> ChunkFramed(Untold(s.writing), s.archive, issued))
  }

  // ---------------------------------------------------------------- the archive

  /** The end of the archive is a frame boundary. */
  lemma EndIsBoundary(archive: seq<byte>)
    requires Whole(archive)
    ensures FrameBoundary(archive, |archive|)
  {
    assert archive[..|archive|] == archive;
  }

  lemma WrittenFramed(archive: seq<byte>, data: seq<byte>, issued: set<seq<byte>>)
    requires WholeFrom(archive, issued) && WholeFrom(data, issued)
    ensures WholeFrom(archive + data, issued)
    ensures ChunkFramed(FileChunk(|archive|, |data|), archive + data, issued)
  {
    WholeFromAppend(archive, data, issued);
    EndIsBoundary(archive);
    BoundaryStays(archive, data, |archive|);
    EndIsBoundary(archive + data);
  }

  lemma AppendArchive(s: State, issued: set<seq<byte>>)
    requires ArchiveFramed(s, issued) && s.writing.SizeRead?
    ensures ArchiveFramed(Step(s, WriteAppend), issued)
  {
    WrittenFramed(s.archive, s.writing.data, issued);
  }

  lemma BeginArchive(s: State, issued: set<seq<byte>>, data: seq<byte>)
    requires ArchiveFramed(s, issued) && s.writing.NoWrite? && IsFrame(data)
    ensures ArchiveFramed(Step(s, WriteBegin(data)), issued + {data})
  {
    SingleFrame(data);
  }

  lemma OtherStep(s: State, e: Event)
    requires Enabled(s, e) && !e.WriteBegin? && !e.WriteAppend?
    ensures var s' := Step(s, e);
      if e.Prune? then s'.archive == [] && s'.writing == s.writing
      else s'.archive == s.archive && (s'.writing == s.writing || s'.writing == NoWrite)
  {
  }

  lemma OtherArchive(s: State, issued: set<seq<byte>>, s': State)
    requires ArchiveFramed(s, issued)
    requires (s'.archive == [] && s'.writing == s.writing)
          || (s'.archive == s.archive && (s'.writing == s.writing || s'.writing == NoWrite))
    ensures ArchiveFramed(s', issued)
  {
  }

  lemma MoreArchive(s: State, issued: set<seq<byte>>, more: set<seq<byte>>)
    requires ArchiveFramed(s, issued)
    ensures ArchiveFramed(s, issued + more)
  {
  }

  /** Every step, and a prune at any moment, keeps the archive whole frames. */
  lemma StepArchive(s: State, issued: set<seq<byte>>, e: Event)
    requires ArchiveFramed(s, issued) && Enabled(s, e)
    requires forall f :: f in Issues(e) ==> IsFrame(f)
    ensures ArchiveFramed(Step(s, e), issued + Issues(e))
  {
    var s' := Step(s, e);
    if e.WriteBegin? {
      BeginArchive(s, issued, e.data);
    } else {
      if e.WriteAppend? {
        AppendArchive(s, issued);
      } else {
        OtherStep(s, e);
        OtherArchive(s, issued, s');
      }
      MoreArchive(s', issued, Issues(e));
    }
  }

  lemma {:induction false} RunArchive(s: State, issued: set<seq<byte>>, run: seq<Event>)
    requires ArchiveFramed(s, issued) && Legal(s, run) && FramesOnly(run)
    ensures ArchiveFramed(Run(s, run), issued + Issued(run))
    decreases |run|
  {
    if run == [] {
      assert issued + {} == issued;
    } else {
      StepArchive(s, issued, run[0]);
      RunArchive(Step(s, run[0]), issued + Issues(run[0]), run[1..]);
      assert (issued + Issues(run[0])) + Issued(run[1..]) == issued + Issued(run);
    }
  }

  lemma MadeFramed(archive: seq<byte>)
    requires Whole(archive)
    ensures ArchiveFramed(Made(archive), set f | f in Frames(archive))
  {
  }

  /** From a frame boundary on, the archive is whole frames. */
  lemma RestIsWhole(archive: seq<byte>, p: int, issued: set<seq<byte>>)
    requires WholeFrom(archive, issued) && FrameBoundary(archive, p)
    ensures WholeFrom(archive[p..], issued)
    ensures Frames(archive) == Frames(archive[..p]) + Frames(archive[p..])
  {
    assert archive == archive[..p] + archive[p..];
    WholeFront(archive[..p], archive[p..]);
  }

  // ---------------------------------------------------------------- one record

  lemma AllGrow(q: seq<Chunk>, archive: seq<byte>, more: seq<byte>, issued: set<seq<byte>>)
    requires AllFramed(q, archive, issued)
    ensures AllFramed(q, archive + more, issued)
  {
    forall i | 0 <= i < |q| ensures ChunkFramed(q[i], archive + more, issued) {
      assert ChunkFramed(q[i], archive, issued);
      if q[i].FileChunk? && q[i].length != 0 {
        BoundaryStays(archive, more, q[i].start);
        BoundaryStays(archive, more, q[i].start + q[i].length);
      }
    }
  }

  lemma GrowFramed(archive: seq<byte>, more: seq<byte>, issued: set<seq<byte>>, c: RadioClient)
    requires RecordFramed(archive, issued, c)
    ensures RecordFramed(archive + more, issued, c)
  {
    AllGrow(c.inflight, archive, more, issued);
    BoundaryStays(archive, more, c.history.base);
    if JoinedAtFrame(archive, c.history) {
      AllGrow(c.history.delivered, archive, more, issued);
      CutGrows(c.sent, archive, more, c.list);
    }
  }

  lemma FirstFramed(archive: seq<byte>, base: int, issued: set<seq<byte>>)
    requires Whole(archive) && FrameBoundary(archive, base)
    ensures AllFramed(First(base, |archive|), archive, issued)
    ensures CutWell([], archive, Split(base, |archive| - base))
  {
    EndIsBoundary(archive);
    CutNew(archive, base, |archive| - base);
  }

  lemma NewClientFramed(s: State, issued: set<seq<byte>>, socket: nat, start: int, length: int)
    requires WholeFrom(s.archive, issued)
    ensures RecordFramed(s.archive, issued, NewClient(s, socket, start, length))
  {
    NewClientRanges(s, socket, start, length);
    if AsksInRange(|s.archive|, start, length) {
      NewClientQueue(s, socket, start, length);
    }
    JustJoined(s.archive, issued, NewClient(s, socket, start, length));
  }

  lemma NewClientRanges(s: State, socket: nat, start: int, length: int)
    ensures var c := NewClient(s, socket, start, length);
      Compact(c.list) && forall i :: 0 <= i < |c.list| ==> c.list[i].FileChunk?
  {
    SplitPartitions(JoinStart(|s.archive|, start), JoinLength(|s.archive|, start, length));
  }

  lemma JustJoined(archive: seq<byte>, issued: set<seq<byte>>, c: RadioClient)
    requires WholeFrom(archive, issued) && c.history.base <= |archive| && c.inflight == [] && c.sent == []
    requires Compact(c.list) && forall i :: 0 <= i < |c.list| ==> c.list[i].FileChunk?
    requires c.history.tracked ==>
      && c.list == Split(c.history.base, |archive| - c.history.base)
      && c.history.delivered == First(c.history.base, |archive|)
    ensures RecordFramed(archive, issued, c)
  {
    if JoinedAtFrame(archive, c.history) {
      FirstFramed(archive, c.history.base, issued);
    }
  }

  lemma AppendedInMemory(q: seq<Chunk>, chunk: Chunk, issued: set<seq<byte>>)
    requires RamWhole(q, issued) && (chunk.RAMChunk? ==> WholeFrom(chunk.data, issued))
    ensures RamWhole(Appended(q, chunk), issued)
  {
    if Mergeable(q, chunk) {
      SplitPartitions(q[|q| - 1].start, q[|q| - 1].length + chunk.length);
    } else if chunk.FileChunk? {
      SplitPartitions(chunk.start, chunk.length);
    }
  }

  lemma ReceivedFramed(archive: seq<byte>, issued: set<seq<byte>>, c: RadioClient, chunk: Chunk)
    requires RecordFramed(archive, issued, c) && ChunkFramed(chunk, archive, issued)
    ensures RecordFramed(archive, issued, Received(c, chunk))
  {
    AppendedInMemory(c.list, chunk, issued);
    AppendedCompact(c.list, chunk);
    if JoinedAtFrame(archive, c.history) {
      CutAppended(c.sent, archive, c.list, chunk);
    }
  }

  lemma SentFramed(archive: seq<byte>, issued: set<seq<byte>>, c: RadioClient)
    requires RecordFramed(archive, issued, c) && FrontReady(c.list, |archive|)
    ensures RecordFramed(archive, issued, SentFront(c, archive))
  {
    CompactTail(c.list);
    if JoinedAtFrame(archive, c.history) {
      CutSent(c.sent, archive, c.list);
    }
  }

  lemma ToldFramed(archive: seq<byte>, issued: set<seq<byte>>, c: RadioClient, chunk: Chunk)
    requires RecordFramed(archive, issued, c) && ChunkFramed(chunk, archive, issued)
    ensures RecordFramed(archive, issued, Told(c, chunk))
  {
  }

  lemma LessInFlight(archive: seq<byte>, issued: set<seq<byte>>, c: RadioClient, k: nat)
    requires RecordFramed(archive, issued, c) && k < |c.inflight|
    ensures RecordFramed(archive, issued, c.(inflight := Without(c.inflight, k)))
  {
  }

  /** Chunks in memory, and empty ranges, are as good over any other archive. */
  lemma RangelessFramed(q: seq<Chunk>, issued: set<seq<byte>>)
    requires NoRange(q) && RamWhole(q, issued)
    ensures AllFramed(q, [], issued)
    ensures Compact(q) ==> CutWell([], [], q)
  {
    if Compact(q) {
      assert forall i :: 0 <= i < |q| ==> q[i].RAMChunk?;
    }
  }

  lemma PrunedFramed(s: State, issued: set<seq<byte>>, r: nat)
    requires r < |s.records| && s.records[r].alive && QuietFor(s, r)
    requires RecordFramed(s.archive, issued, s.records[r])
    ensures RecordFramed([], issued, Pruned(s.records[r], Registered(s, r), Untold(s.writing)))
  {
    var c := s.records[r];
    assert forall i :: 0 <= i < |c.inflight| ==> ChunkFramed(c.inflight[i], s.archive, issued);
    RangelessFramed(c.inflight, issued);
    RangelessFramed(if Registered(s, r) then [] else c.list, issued);
  }

  lemma {:induction false} MoreIssued(s: State, issued: set<seq<byte>>, more: set<seq<byte>>, c: RadioClient)
    requires ArchiveFramed(s, issued)
    ensures ArchiveFramed(s, issued + more)
    ensures RecordFramed(s.archive, issued, c) ==> RecordFramed(s.archive, issued + more, c)
  {
    if RecordFramed(s.archive, issued, c) {
      MoreFrames(c.inflight, s.archive, issued, more);
      if JoinedAtFrame(s.archive, c.history) {
        MoreFrames(c.history.delivered, s.archive, issued, more);
      }
    }
  }

  lemma MoreFrames(q: seq<Chunk>, archive: seq<byte>, issued: set<seq<byte>>, more: set<seq<byte>>)
    requires AllFramed(q, archive, issued)
    ensures AllFramed(q, archive, issued + more)
  {
    forall i | 0 <= i < |q| ensures ChunkFramed(q[i], archive, issued + more) {
      assert ChunkFramed(q[i], archive, issued);
    }
  }

  // ---------------------------------------------------------------- one step, one record

  /** The record is framed while its client lives. */
  ghost predicate FramedAt(s: State, issued: set<seq<byte>>, r: nat) {
    r < |s.records| && (s.records[r].alive ==> RecordFramed(s.archive, issued, s.records[r]))
  }

  lemma SingleSendFramed(s: State, issued: set<seq<byte>>, data: seq<byte>, socket: nat, r: nat)
    requires FramedAt(s, issued, r) && s.writing.NoWrite? && IsFrame(data) && data in issued
    ensures FramedAt(Step(s, SingleSend(data, socket)), issued, r)
  {
    var c := s.records[r];
    if c.alive && socket in s.clients && s.clients[socket] == r {
      SingleFrame(data);
      var owed := c.(history := c.history.(due := c.history.due + [RAMChunk(data)]));
      ReceivedFramed(s.archive, issued, owed, RAMChunk(data));
    }
  }

  lemma DeliverFramed(s: State, issued: set<seq<byte>>, i: nat, k: nat, r: nat)
    requires FramedAt(s, issued, r) && Enabled(s, Deliver(i, k))
    ensures FramedAt(Step(s, Deliver(i, k)), issued, r)
  {
    if r == i {
      var c := s.records[r];
      assert ChunkFramed(c.inflight[k], s.archive, issued);
      LessInFlight(s.archive, issued, c, k);
      ReceivedFramed(s.archive, issued, c.(inflight := Without(c.inflight, k)), c.inflight[k]);
    }
  }

  lemma BroadcastFramed(s: State, issued: set<seq<byte>>, chunk: Chunk, w: Writing, r: nat)
    requires FramedAt(s, issued, r) && ChunkFramed(chunk, s.archive, issued)
    ensures FramedAt(Broadcast(s, chunk).(writing := w), issued, r)
  {
    if s.records[r].alive {
      ToldFramed(s.archive, issued, s.records[r], chunk);
    }
  }

  lemma FetchFramed(s: State, issued: set<seq<byte>>, i: nat, accepted: nat, r: nat)
    requires FramedAt(s, issued, r) && Enabled(s, Fetch(i, accepted))
    ensures FramedAt(Step(s, Fetch(i, accepted)), issued, r)
  {
    if r == i && FrontReady(s.records[r].list, |s.archive|) {
      SentFramed(s.archive, issued, s.records[r]);
    }
  }

  /** Steps that write nothing and tell nobody. */
  lemma QuietStepFramed(s: State, issued: set<seq<byte>>, e: Event, r: nat)
    requires FramedAt(s, issued, r) && Enabled(s, e)
    requires e.Join? || e.WriteBegin? || e.HelperTimeout? || e.CloseCallback? || e.RemoveClient?
             || e.RemoveAllClients?
    ensures FramedAt(Step(s, e), issued, r)
  {
    if e.HelperTimeout? && r == e.r && s.records[r].alive {
      LessInFlight(s.archive, issued, s.records[r], e.k);
    }
  }

  lemma WriteAppendFramed(s: State, issued: set<seq<byte>>, r: nat)
    requires FramedAt(s, issued, r) && s.writing.SizeRead? && InPlace(s.writing, |s.archive|)
    ensures FramedAt(Step(s, WriteAppend), issued, r)
  {
    if s.records[r].alive {
      GrowFramed(s.archive, s.writing.data, issued, s.records[r]);
    }
  }

  lemma PruneFramed(s: State, issued: set<seq<byte>>, r: nat)
    requires FramedAt(s, issued, r) && QuietFor(s, r)
    ensures FramedAt(Step(s, Prune), issued, r)
  {
    if s.records[r].alive {
      PrunedFramed(s, issued, r);
    }
  }

  /** Every step keeps a record framed; a prune does when it is quiet for this record. */
  lemma StepFramed(s: State, issued: set<seq<byte>>, e: Event, r: nat)
    requires ArchiveFramed(s, issued) && InPlace(s.writing, |s.archive|) && FramedAt(s, issued, r)
    requires Enabled(s, e) && (e.Prune? ==> QuietFor(s, r))
    requires forall f :: f in Issues(e) ==> IsFrame(f)
    ensures FramedAt(Step(s, e), issued + Issues(e), r)
  {
    var all := issued + Issues(e);
    MoreIssued(s, issued, Issues(e), s.records[r]);
    match e {
      case WriteAppend => WriteAppendFramed(s, all, r);
      case WriteNotify => BroadcastFramed(s, all, Untold(s.writing), NoWrite, r);
      case Send(data) => SingleFrame(data); BroadcastFramed(s, all, RAMChunk(data), s.writing, r);
      case SingleSend(data, socket) => SingleSendFramed(s, all, data, socket, r);
      case Deliver(i, k) => DeliverFramed(s, all, i, k, r);
      case Fetch(i, accepted) => FetchFramed(s, all, i, accepted, r);
      case Prune => PruneFramed(s, all, r);
      case _ => QuietStepFramed(s, all, e, r);
    }
  }

  lemma {:induction false} RunFramed(s: State, issued: set<seq<byte>>, run: seq<Event>, r: nat)
    requires ArchiveFramed(s, issued) && InPlace(s.writing, |s.archive|) && FramedAt(s, issued, r)
    requires Legal(s, run) && PruneFree(run) && FramesOnly(run)
    ensures ArchiveFramed(Run(s, run), issued + Issued(run)) && FramedAt(Run(s, run), issued + Issued(run), r)
    decreases |run|
  {
    if run == [] {
      assert issued + {} == issued;
    } else {
      StepArchive(s, issued, run[0]);
      StepFramed(s, issued, run[0], r);
      StepKeepsPlace(s, run[0]);
      RunFramed(Step(s, run[0]), issued + Issues(run[0]), run[1..], r);
      assert (issued + Issues(run[0])) + Issued(run[1..]) == issued + Issued(run);
    }
  }
}
