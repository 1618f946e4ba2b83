/** What a prune does to the frames a client has been sent in part. */
module FramePrunes {
  import opened Bytes
  import opened Framing
  import opened TaskList
  import opened Radio
  import opened RadioInvariant
  import opened RadioRuns
  import opened RadioPrunes
  import opened FrameSeams
  import opened FrameAlignment
  import opened EndToEnd

  /** All that the radio has ever written for a record. */
  function Out(c: RadioClient): seq<byte> {
    c.history.before + c.sent
  }

  /** All that, and what the queue stands for. */
  function OutAndQueued(s: State, r: nat): seq<byte>
    requires r < |s.records|
  {
    Out(s.records[r]) + Render(Denote(s.records[r].list), s.archive)
  }

  /** What was written before the last prune, and the rest. */
  lemma OutWhole(s: State, issued: set<seq<byte>>, r: nat)
    requires Sound(s) && ArchiveFramed(s, issued) && FramedAt(s, issued, r) && s.records[r].alive
    requires JoinedAtFrame(s.archive, s.records[r].history)
    ensures Whole(s.records[r].history.before) ==> Whole(OutAndQueued(s, r))
  {
    var c := s.records[r];
    StreamWhole(s, issued, r);
    var queued := Render(Denote(c.list), s.archive);
    Associates(c.history.before, c.sent, queued);
    if Whole(c.history.before) {
      WholeFront(c.history.before, c.sent + queued);
    }
  }

  /** A client's queue tells whether it has been sent whole frames: it has, exactly when the queue is
      empty, or starts with something in memory, or at a position where a frame of the archive ends. */
  lemma OutWholeIff(archive: seq<byte>, issued: set<seq<byte>>, c: RadioClient)
    requires RecordFramed(archive, issued, c) && JoinedAtFrame(archive, c.history) && Whole(c.history.before)
    ensures Whole(Out(c)) <==> FrontAtFrame(archive, c.list)
  {
    WholeFront(c.history.before, c.sent);
    SentWholeIff(c.sent, archive, c.list);
  }

  lemma PruneLeavesOut(s: State, r: nat)
    requires Registered(s, r)
    ensures OutAndQueued(Step(s, Prune), r) == Out(s.records[r])
  {
    var out := Out(s.records[r]);
    assert out + [] == out && Render([], []) == [];
  }

  /** A prune throws a registered client's queue away, and tears a frame exactly when the queue starts
      inside one: what the client then has is whole frames if and only if the queue was empty, or
      started with something in memory, or where a frame of the archive ends. */
  lemma {:induction false} PruneTearsIff(t: Story)
    requires Framed(t) && t.R() < |t.End().records| && Registered(t.End(), t.R())
    ensures Whole(OutAndQueued(t.End(), t.R()))
    ensures Whole(OutAndQueued(Step(t.End(), Prune), t.R())) <==> FrontAtFrame(t.End().archive, t.Record().list)
  {
    StoryHolds(t);
    StoryFramed(t);
    StoryAtFrame(t);
    OutWhole(t.End(), AllIssued(t), t.R());
    OutWholeIff(t.End().archive, AllIssued(t), t.Record());
    PruneLeavesOut(t.End(), t.R());
  }

  /** When the prune tears none, and is quiet for this client and the write in progress, all the client
      has been sent stays whole together with its queue, in every later run of frames without another
      prune; wherever it once joined. */
  lemma {:induction false} WholeAfterPrune(t: Story, after: seq<Event>)
    requires OfFrames(t) && t.R() < |t.End().records| && Registered(t.End(), t.R())
    requires QuietFor(t.End(), t.R()) && QuietWrite(t.End().writing)
    requires Legal(Step(t.End(), Prune), after) && PruneFree(after) && FramesOnly(after)
    requires Whole(OutAndQueued(Step(t.End(), Prune), t.R()))
    ensures var end := Run(Step(t.End(), Prune), after);
      t.R() < |end.records| && (end.records[t.R()].alive ==> Whole(OutAndQueued(end, t.R())))
  {
    StoryFramed(t);
    PruneLeavesOut(t.End(), t.R());
    KeptWhole(t.End(), AllIssued(t), after, t.R());
  }

  lemma {:induction false} KeptWhole(s: State, issued: set<seq<byte>>, after: seq<Event>, r: nat)
    requires Sound(s) && ArchiveFramed(s, issued) && FramedAt(s, issued, r) && Registered(s, r)
    requires QuietFor(s, r) && QuietWrite(s.writing) && Whole(Out(s.records[r]))
    requires Legal(Step(s, Prune), after) && PruneFree(after) && FramesOnly(after)
    ensures var end := Run(Step(s, Prune), after);
      r < |end.records| && (end.records[r].alive ==> Whole(OutAndQueued(end, r)))
  {
    var s1 := Step(s, Prune);
    PrunedOut(s, issued, r);
    RunFramed(s1, issued, after, r);
    RunContinues(s1, after, r);
    var end := Run(s1, after);
    FrontIsBoundary(end.archive);
    if end.records[r].alive {
      OutWhole(end, issued + Issued(after), r);
    }
  }

  /** What the steps after a quiet prune start from. */
  lemma PrunedOut(s: State, issued: set<seq<byte>>, r: nat)
    requires Sound(s) && ArchiveFramed(s, issued) && FramedAt(s, issued, r) && Registered(s, r)
    requires QuietFor(s, r) && QuietWrite(s.writing)
    ensures var s1 := Step(s, Prune);
      && Sound(s1) && ArchiveFramed(s1, issued) && FramedAt(s1, issued, r)
      && SizeStands(s1) && InPlace(s1.writing, |s1.archive|)
      && s1.records[r].history.before == Out(s.records[r])
      && s1.records[r].history.tracked && s1.records[r].history.base == 0
  {
    PruneSound(s);
    StepArchive(s, issued, Prune);
    assert issued + {} == issued;
    PruneFramed(s, issued, r);
  }

  // ---------------------------------------------------------------- runs in which it happens

  /** The front part of a frame is no whole frame. */
  lemma PartIsTorn(f: seq<byte>, n: nat)
    requires IsFrame(f) && 0 < n < |f|
    ensures !Whole(f[..n])
  {
    if 5 <= n {
      assert f[..n][..4] == f[..4];
    }
  }

  /** The archive's first piece is queued for the only client, and then the rest of it. */
  predicate AllQueued(s: State) {
    && CHUNK_SIZE < |s.archive| && |s.records| == 1 && Registered(s, 0)
    && var c := s.records[0];
       c.alive && c.list == Split(0, |s.archive|) && c.sent == [] && c.history.before == []
  }

  lemma FirstFetched(s: State) returns (e: Event)
    requires AllQueued(s)
    ensures e == Fetch(0, |s.archive|) && Enabled(s, e)
    ensures var s', unit := Step(s, e), Unit(|s.archive|);
      && s'.archive == s.archive && s'.writing == s.writing && |s'.records| == 1 && Registered(s', 0)
      && s'.records[0].inflight == s.records[0].inflight && unit < |s.archive|
      && Out(s'.records[0]) == s.archive[..unit]
      && Render(Denote(s'.records[0].list), s.archive) == s.archive[unit..]
  {
    var n := |s.archive|;
    var unit := Unit(n);
    e := Fetch(0, n);
    FirstPiece(0, n);
    FirstAndRest(s.archive, unit);
    assert [] + ([] + s.archive[..unit]) == s.archive[..unit];
  }

  lemma FirstAndRest(archive: seq<byte>, unit: nat)
    requires 0 < unit < |archive|
    ensures Render(Range(0, unit), archive) == archive[..unit]
    ensures Render(Denote(Pieces(unit, |archive| - unit, unit)), archive) == archive[unit..]
  {
    FrontRendered(archive, unit);
    PiecesCover(unit, |archive| - unit, unit);
    RestRendered(archive, unit);
  }

  lemma FrontRendered(archive: seq<byte>, p: nat)
    requires p <= |archive|
    ensures Render(Range(0, p), archive) == archive[..p]
  {
  }

  lemma RestRendered(archive: seq<byte>, p: nat)
    requires p <= |archive|
    ensures Render(Range(p, |archive| - p), archive) == archive[p..]
  {
  }

  /** A client that joins an archive longer than CHUNK_SIZE is sent the first piece; at that quiet moment
      a prune tears a frame exactly when none ends with the piece. So short frames can be torn too. */
  lemma JoinTornIff(k: nat, archive: seq<byte>) returns (run: seq<Event>, s: State)
    requires Whole(archive) && CHUNK_SIZE < |archive|
    ensures Legal(Made(archive), run) && FramesOnly(run) && PruneFree(run) && s == Run(Made(archive), run)
    ensures Quiet(s) && |s.records| == 1 && Registered(s, 0) && OutAndQueued(s, 0) == archive
    ensures Whole(OutAndQueued(Step(s, Prune), 0)) <==> FrameBoundary(archive, Unit(|archive|))
  {
    var s0, join := Made(archive), Join(k, 0, 0);
    JoinQueuesAll(s0, join);
    var s1 := Step(s0, join);
    var fetch := FirstFetched(s1);
    s := Step(s1, fetch);
    TornAfterFirst(s, archive, Unit(|archive|));
    run := TwoSteps(s0, join, fetch);
  }

  lemma TornAfterFirst(s: State, archive: seq<byte>, unit: nat)
    requires |s.records| == 1 && Registered(s, 0) && s.archive == archive && unit < |archive|
    requires s.writing.NoWrite? && s.records[0].inflight == []
    requires Out(s.records[0]) == archive[..unit] && Render(Denote(s.records[0].list), archive) == archive[unit..]
    ensures Quiet(s) && OutAndQueued(s, 0) == archive
    ensures Whole(OutAndQueued(Step(s, Prune), 0)) <==> FrameBoundary(archive, unit)
  {
    PruneLeavesOut(s, 0);
    assert archive[..unit] + archive[unit..] == archive;
  }

  lemma JoinQueuesAll(s: State, join: Event)
    requires s.records == [] && s.writing == NoWrite && CHUNK_SIZE < |s.archive|
    requires join.Join? && join.start == 0 && join.length == 0
    ensures var s' := Step(s, join);
      AllQueued(s') && s'.archive == s.archive && s'.writing == NoWrite && s'.records[0].inflight == []
  {
    NewClientQueue(s, join.socket, join.start, join.length);
    assert Step(s, join).records == [NewClient(s, join.socket, join.start, join.length)];
  }

  lemma TwoSteps(s: State, a: Event, b: Event) returns (run: seq<Event>)
    requires Enabled(s, a) && Enabled(Step(s, a), b) && a.Join? && b.Fetch?
    ensures Legal(s, run) && Run(s, run) == Step(Step(s, a), b) && FramesOnly(run) && PruneFree(run)
  {
    run := TwoStepRun(s, a, b);
    IssuedWithin(run, {});
  }

  /** Such as two frames of at most CHUNK_SIZE each, the first not of that very size. */
  lemma TwoShortFrames(f: seq<byte>, g: seq<byte>)
    requires IsFrame(f) && IsFrame(g) && |f| < CHUNK_SIZE && |g| <= CHUNK_SIZE < |f| + |g|
    ensures Whole(f + g) && !FrameBoundary(f + g, Unit(|f + g|))
  {
    SingleFrame(g);
    FrontFrame(f, g);
    assert Unit(|f + g|) == CHUNK_SIZE;
    assert (f + g)[..CHUNK_SIZE] == f + g[..CHUNK_SIZE - |f|];
    FrontFrame(f, g[..CHUNK_SIZE - |f|]);
    PartIsTorn(g, CHUNK_SIZE - |f|);
  }

  /** Every frame longer than CHUNK_SIZE can be torn: it is written, its first piece is sent, and at that
      quiet moment comes the prune. */
  lemma LongFrameTorn(k: nat, f: seq<byte>) returns (run: seq<Event>, s: State)
    requires IsFrame(f) && CHUNK_SIZE < |f|
    ensures Legal(Made([]), run) && FramesOnly(run) && PruneFree(run) && s == Run(Made([]), run)
    ensures Quiet(s) && |s.records| == 1 && Registered(s, 0)
    ensures OutAndQueued(s, 0) == f && Whole(f)
    ensures !Whole(OutAndQueued(Step(s, Prune), 0))
  {
    run, s := FirstPieceRun(Made([]), Join(k, 0, 0), f);
    SingleFrame(f);
    PartIsTorn(f, Unit(|f|));
    TornAfterFirst(s, f, Unit(|f|));
  }

  lemma FirstPieceRun(s0: State, join: Event, f: seq<byte>) returns (run: seq<Event>, s: State)
    requires s0.archive == [] && s0.writing == NoWrite && s0.records == []
    requires join.Join? && join.start == 0 && join.length == 0
    requires IsFrame(f) && CHUNK_SIZE < |f|
    ensures Legal(s0, run) && FramesOnly(run) && PruneFree(run) && s == Run(s0, run)
    ensures |s.records| == 1 && Registered(s, 0) && s.archive == f && s.writing == NoWrite
    ensures s.records[0].inflight == [] && Unit(|f|) < |f|
    ensures Out(s.records[0]) == f[..Unit(|f|)]
    ensures Render(Denote(s.records[0].list), f) == f[Unit(|f|)..]
  {
    EmptyJoin(s0, join);
    var write, mid := JoinAndWrite(s0, join, [], f);
    var send;
    send, s := FirstPieceSent(mid, f);
    run := OnlyThisFrame(s0, write, mid, send, f);
  }

  lemma EmptyJoin(s: State, join: Event)
    requires s.archive == [] && join.Join? && join.start == 0 && join.length == 0
    ensures NewClient(s, join.socket, join.start, join.length).list == []
  {
  }

  lemma OnlyThisFrame(s: State, a: seq<Event>, mid: State, b: seq<Event>, f: seq<byte>) returns (run: seq<Event>)
    requires Legal(s, a) && mid == Run(s, a) && Legal(mid, b)
    requires IsFrame(f) && |a| == 4 && |b| == 2 && a[0].Join? && a[1] == WriteBegin(f) && a[2].WriteAppend?
    requires a[3].WriteNotify? && b[0].Deliver? && b[1].Fetch?
    ensures Legal(s, run) && Run(s, run) == Run(mid, b) && FramesOnly(run) && PruneFree(run)
  {
    RunOn(s, a, b);
    run := a + b;
    IssuedWithin(run, {f});
  }

  lemma {:induction false} IssuedWithin(run: seq<Event>, issued: set<seq<byte>>)
    requires forall i :: 0 <= i < |run| ==> Issues(run[i]) <= issued
    ensures Issued(run) <= issued
  {
    if run != [] {
      IssuedWithin(run[1..], issued);
    }
  }

  lemma FirstPieceSent(s: State, f: seq<byte>) returns (run: seq<Event>, end: State)
    requires CHUNK_SIZE < |f| && OnItsWay(s, [], [FileChunk(0, |f|)], f)
    ensures |run| == 2 && run[0].Deliver? && run[1].Fetch? && Legal(s, run) && end == Run(s, run)
    ensures |end.records| == 1 && Registered(end, 0) && end.archive == f && end.writing == NoWrite
    ensures end.records[0].inflight == [] && Unit(|f|) < |f|
    ensures Out(end.records[0]) == f[..Unit(|f|)]
    ensures Render(Denote(end.records[0].list), f) == f[Unit(|f|)..]
  {
    var s1 := Step(s, Deliver(0, 0));
    assert s1.records[0].inflight == [];
    assert s1.records[0].list == [] + Split(0, |f|) == Split(0, |f|);
    var fetch := FirstFetched(s1);
    end := Step(s1, fetch);
    assert Legal(end, []) && Run(end, []) == end;
    Prepend(s1, fetch, []);
    Prepend(s, Deliver(0, 0), [fetch] + []);
    run := [Deliver(0, 0)] + ([fetch] + []);
  }

  /** There is such a frame. */
  lemma LongFrame() returns (f: seq<byte>)
    ensures IsFrame(f) && CHUNK_SIZE < |f| < 2 * CHUNK_SIZE
  {
    var body: seq<byte> := seq(CHUNK_SIZE, _ => 0);
    f := Frame(body);
    FramedIff(body);
  }
}
