/** From a client's join to what its reader makes of the radio's stream. */
module EndToEnd {
  import opened Bytes
  import opened Common
  import opened Framing
  import opened SocketReader
  import opened TaskList
  import opened Counting
  import opened Radio
  import opened RadioInvariant
  import opened RadioRuns
  import opened FrameSeams
  import opened FrameAlignment

  /** Every frame there is to send: those of the first archive and those handed to the radio. */
  ghost function AllIssued(t: Story): set<seq<byte>> {
    (set f | f in Frames(t.archive)) + Issued(t.before) + Issued(t.after)
  }

  /** The archive was whole, only frames were handed over, and a write in progress at the join was at
      the end of the archive. Prunes before the join may have come at any moment. */
  ghost predicate OfFrames(t: Story) {
    && t.Valid() && InPlace(t.Found().writing, |t.Found().archive|)
    && Whole(t.archive) && FramesOnly(t.before) && FramesOnly(t.after)
  }

  /** And the client joined inside the archive between two frames. */
  ghost predicate Framed(t: Story) {
    && OfFrames(t) && 0 <= t.start && t.AskedInRange()
    && FrameBoundary(t.Found().archive, t.Base())
  }

  /** Wherever the client joined, the archive is whole frames and its record is framed. */
  lemma {:induction false} StoryFramed(t: Story)
    requires OfFrames(t)
    ensures Sound(t.End()) && ArchiveFramed(t.End(), AllIssued(t)) && FramedAt(t.End(), AllIssued(t), t.R())
  {
    StoryHolds(t);
    MadeFramed(t.archive);
    var all := set f | f in Frames(t.archive);
    RunArchive(Made(t.archive), all, t.before);
    var issued := all + Issued(t.before);
    NewClientFramed(t.Found(), issued, t.socket, t.start, t.length);
    EnteredFramed(t.Found(), issued, Join(t.socket, t.start, t.length));
    RunFramed(t.Entered(), issued, t.after, t.R());
  }

  lemma EnteredFramed(s: State, issued: set<seq<byte>>, join: Event)
    requires ArchiveFramed(s, issued) && InPlace(s.writing, |s.archive|) && join.Join?
    requires RecordFramed(s.archive, issued, NewClient(s, join.socket, join.start, join.length))
    ensures var s' := Step(s, join);
      ArchiveFramed(s', issued) && InPlace(s'.writing, |s'.archive|) && FramedAt(s', issued, |s.records|)
  {
  }

  lemma {:induction false} StoryAtFrame(t: Story)
    requires Framed(t)
    ensures t.R() < |t.End().records| && JoinedAtFrame(t.End().archive, t.Record().history)
  {
    StoryHolds(t);
    StillBoundary(t.Found().archive, t.End().archive, t.Base());
  }

  lemma StillBoundary(archive: seq<byte>, longer: seq<byte>, p: int)
    requires archive <= longer && FrameBoundary(archive, p)
    ensures FrameBoundary(longer, p)
  {
    assert longer == archive + longer[|archive|..];
    BoundaryStays(archive, longer[|archive|..], p);
  }

  /** The frames in a chunk. */
  ghost function FrameBag(archive: seq<byte>): Chunk -> multiset<seq<byte>> {
    (c: Chunk) => multiset(Frames(Render(Cells(c), archive)))
  }

  /** What stands between two frames of the archive is whole frames of it. */
  lemma {:induction false} RangeWhole(archive: seq<byte>, p: int, end: int, issued: set<seq<byte>>)
    requires WholeFrom(archive, issued) && FrameBoundary(archive, p) && p <= end && FrameBoundary(archive, end)
    ensures WholeFrom(archive[p..end], issued)
  {
    FromBoundary(archive, p, end);
    RestIsWhole(archive, end, issued);
    var all, front, back := Frames(archive), Frames(archive[..p]), Frames(archive[end..]);
    assert all == (front + Frames(archive[p..end])) + back;
    forall f | f in Frames(archive[p..end]) ensures f in issued {
      assert f in all;
    }
  }

  lemma {:induction false} ChunkWhole(c: Chunk, archive: seq<byte>, issued: set<seq<byte>>)
    requires WholeFrom(archive, issued) && ChunkFramed(c, archive, issued)
    ensures WholeFrom(Render(Cells(c), archive), issued)
  {
    if c.RAMChunk? {
      RenderRam(c.data, archive);
    } else if c.length != 0 {
      RenderRange(c.start, c.length, archive);
      RangeWhole(archive, c.start, c.start + c.length, issued);
    }
  }

  /** Framed chunks one after the other are whole, and their frames are the frames of each. */
  lemma {:induction false} QueueWhole(q: seq<Chunk>, archive: seq<byte>, issued: set<seq<byte>>)
    requires WholeFrom(archive, issued) && AllFramed(q, archive, issued)
    ensures WholeFrom(Render(Denote(q), archive), issued)
    ensures multiset(Frames(Render(Denote(q), archive))) == Sum(FrameBag(archive), q)
  {
    if q == [] {
      assert Render([], archive) == [];
    } else {
      var head, rest := Render(Cells(q[0]), archive), Render(Denote(q[1..]), archive);
      assert ChunkFramed(q[0], archive, issued);
      ChunkWhole(q[0], archive, issued);
      QueueWhole(q[1..], archive, issued);
      RenderAppend(Cells(q[0]), Denote(q[1..]), archive);
      WholeFront(head, rest);
      WholeFromAppend(head, rest, issued);
    }
  }

  lemma SentAndQueued(archive: seq<byte>, c: RadioClient)
    requires BookOk(archive, c)
    ensures c.sent + Render(Denote(c.list), archive) == Render(Denote(c.history.delivered), archive)
  {
    RenderAppend(c.history.cells, Denote(c.list), archive);
  }

  /** What a live client was sent since its join or the last prune, and what its queue stands for, are
      whole issued frames. */
  lemma StreamWhole(s: State, issued: set<seq<byte>>, r: nat)
    requires Sound(s) && ArchiveFramed(s, issued) && FramedAt(s, issued, r) && s.records[r].alive
    requires JoinedAtFrame(s.archive, s.records[r].history)
    ensures WholeFrom(s.records[r].sent + Render(Denote(s.records[r].list), s.archive), issued)
  {
    var c := s.records[r];
    assert RecordOk(s, r);
    SentAndQueued(s.archive, c);
    QueueWhole(c.history.delivered, s.archive, issued);
  }

  /** In every run and every order of delivery, the bytes sent to a live client and those its queue
      stands for are whole frames, each one archived or sent. */
  lemma {:induction false} NoFrameTorn(t: Story)
    requires Framed(t) && t.R() < |t.End().records| && t.Record().alive
    ensures WholeFrom(t.Record().sent + Render(Denote(t.Record().list), t.End().archive), AllIssued(t))
  {
    StoryFramed(t);
    StoryAtFrame(t);
    StreamWhole(t.End(), AllIssued(t), t.R());
  }

  /** When nothing is queued or in flight, a registered client has been sent each frame exactly as
      often as it was in the archive from its start on, and in what the client was told of. */
  lemma {:induction false} EachFrameOnce(t: Story, f: seq<byte>)
    requires Framed(t) && t.R() < |t.End().records| && Registered(t.End(), t.R())
    requires t.Record().list == [] && t.Record().inflight == []
    ensures 0 <= t.Base() <= |t.Found().archive|
    ensures multiset(Frames(t.Record().sent))[f]
         == multiset(Frames(t.Found().archive[t.Base()..]))[f]
            + Sum(FrameBag(t.End().archive), t.Told())[f]
  {
    StoryHolds(t);
    StoryFramed(t);
    StoryAtFrame(t);
    var end, c := t.End().archive, t.Record();
    assert RecordOk(t.End(), t.R());
    DrainedFrames(end, c, AllIssued(t));
    var first := First(t.Base(), |t.Found().archive|);
    SumAppend(FrameBag(end), first, t.Told());
    FirstFrames(t.Found().archive, end, t.Base());
  }

  lemma {:induction false} DrainedFrames(archive: seq<byte>, c: RadioClient, issued: set<seq<byte>>)
    requires BookOk(archive, c) && WholeFrom(archive, issued) && AllFramed(c.history.delivered, archive, issued)
    requires c.list == [] && c.inflight == []
    requires multiset(c.history.delivered + c.inflight) == multiset(c.history.due)
    ensures multiset(Frames(c.sent)) == Sum(FrameBag(archive), c.history.due)
  {
    QueueWhole(c.history.delivered, archive, issued);
    assert c.history.cells + [] == c.history.cells && c.history.delivered + [] == c.history.delivered;
    SumOfPermutation(FrameBag(archive), c.history.delivered, c.history.due);
  }

  lemma {:induction false} FirstFrames(found: seq<byte>, end: seq<byte>, base: int)
    requires found <= end && 0 <= base <= |found|
    ensures Sum(FrameBag(end), First(base, |found|)) == multiset(Frames(found[base..]))
  {
    if base < |found| {
      SumOne(FrameBag(end), FileChunk(base, |found| - base));
      RenderRange(base, |found| - base, end);
      assert end[base..base + (|found| - base)] == found[base..];
    } else {
      assert found[base..] == [];
    }
  }

  // ---------------------------------------------------------------- the reader's side

  lemma {:induction false} WholeStreamParses(z: Zlib, b: seq<byte>, issued: set<seq<byte>>)
    requires WholeFrom(b, issued) && forall f :: f in issued ==> Readable(z, f)
    ensures var r := Parse(z, 0, b);
      && r.status == Ok && r.dataSize == 0 && r.buffer == []
      && Repacked(r.packages) == Frames(b)
      && forall p :: p in r.packages ==> p.repacked in issued && p == PackageIn(z, p.repacked)
  {
    var fs := Frames(b);
    ParseFrames(z, fs, 0, []);
    assert Concat(fs) + Pending(0, []) == b;
    var r := Parse(z, 0, b);
    forall i | 0 <= i < |r.packages|
      ensures r.packages[i].repacked in issued && r.packages[i] == PackageIn(z, r.packages[i].repacked)
    {
      assert |Repacked(r.packages)| == |fs|;
      assert fs[i] == Repacked(r.packages)[i] == r.packages[i].repacked && fs[i] in fs;
    }
  }

  /** A client whose queue is empty reads the radio's stream, in whatever pieces the network makes
      of it, to the end: nothing is left over, and each package is a frame archived or sent. */
  method ReadStream(z: Zlib, ghost t: Story, pieces: seq<seq<byte>>) returns (packages: seq<Package>)
    requires Framed(t) && t.R() < |t.End().records| && t.Record().alive && t.Record().list == []
    requires forall f :: f in AllIssued(t) ==> Readable(z, f)
    requires Concat(pieces) == t.Record().sent
    ensures Repacked(packages) == Frames(t.Record().sent) && Whole(t.Record().sent)
    ensures forall p :: p in packages ==> p.repacked in AllIssued(t) && p == PackageIn(z, p.repacked)
  {
    NoFrameTorn(t);
    assert Render(Denote(t.Record().list), t.End().archive) == [];
    assert t.Record().sent + [] == t.Record().sent;
    WholeStreamParses(z, t.Record().sent, AllIssued(t));
    var reader := new Reader();
    assert reader.buffer + Concat(pieces) == t.Record().sent;
    var status, used;
    packages, status, used := reader.RunReadLoop(z, pieces);
    assert Parsed(packages, status, reader.dataSize, reader.buffer + Concat(pieces[used..]))
        == Parse(z, 0, t.Record().sent);
  }
}
