/** What a run does, told from the calls that the radio's goroutine takes and nothing else. */
module RadioCalls {
  import opened Bytes
  import opened TaskList
  import opened Radio
  import opened RadioInvariant
  import opened RadioRuns
  import opened RadioMap

  /** The data of the writes that begin, in order, and how many of them reach the file. */
  function Begun(run: seq<Event>): seq<seq<byte>> {
    if run == [] then []
    else (if run[0].WriteBegin? then [run[0].data] else []) + Begun(run[1..])
  }

  function Appends(run: seq<Event>): nat {
    if run == [] then 0 else (if run[0].WriteAppend? then 1 else 0) + Appends(run[1..])
  }

  /** Does the call hand its data over to the client of a socket? */
  predicate HandsTo(e: Event, socket: nat) {
    e.WriteBegin? || e.Send? || (e.SingleSend? && e.socket == socket)
  }

  /** The data handed over for a socket: what is written, what is sent to all, and what is sent to it. */
  function Handed(run: seq<Event>, socket: nat): seq<seq<byte>> {
    if run == [] then []
    else (if HandsTo(run[0], socket) then [run[0].data] else []) + Handed(run[1..], socket)
  }

  /** The chunks that stand for it, when the first write goes to a position and each other one behind
      the one before. */
  function Called(run: seq<Event>, pos: nat, socket: nat): seq<Chunk> {
    if run == [] then []
    else if run[0].WriteBegin? then
      [FileChunk(pos, |run[0].data|)] + Called(run[1..], pos + |run[0].data|, socket)
    else
      (if HandsTo(run[0], socket) then [RAMChunk(run[0].data)] else []) + Called(run[1..], pos, socket)
  }

  // ---------------------------------------------------------------- the archive

  /** The write that has begun and not reached the file. */
  function Waiting(w: Writing): seq<seq<byte>> {
    if w.SizeRead? then [w.data] else []
  }

  lemma StepArchives(s: State, e: Event)
    requires Enabled(s, e) && !e.Prune?
    ensures var s' := Step(s, e);
      if e.WriteAppend? then
        |Waiting(s.writing)| == 1 && Waiting(s'.writing) == [] && s'.archive == s.archive + Waiting(s.writing)[0]
      else
        s'.archive == s.archive
        && Waiting(s'.writing) == Waiting(s.writing) + if e.WriteBegin? then [e.data] else []
  {
  }

  lemma TakeOne<T>(first: T, rest: seq<T>, n: nat)
    requires n <= |rest|
    ensures ([first] + rest)[..n + 1] == [first] + rest[..n]
  {
  }

  /** The archive is what it was, and then all of the data of the writes whose append came, in the order
      in which they began. */
  lemma {:induction false} ArchiveIsWritten(s: State, run: seq<Event>)
    requires Legal(s, run) && PruneFree(run)
    ensures var offered := Waiting(s.writing) + Begun(run);
      Appends(run) <= |offered| && Run(s, run).archive == s.archive + Concat(offered[..Appends(run)])
    ensures Waiting(Run(s, run).writing) == (Waiting(s.writing) + Begun(run))[Appends(run)..]
    decreases |run|
  {
    var offered := Waiting(s.writing) + Begun(run);
    if run == [] {
      assert offered[..0] == [] && s.archive + [] == s.archive;
    } else {
      var e, s' := run[0], Step(s, run[0]);
      StepArchives(s, e);
      ArchiveIsWritten(s', run[1..]);
      if e.WriteAppend? {
        var d, rest, n := s.writing.data, Begun(run[1..]), Appends(run[1..]);
        assert Waiting(s'.writing) + rest == rest && offered == [d] + rest;
        TakeOne(d, rest, n);
        assert Concat([d] + rest[..n]) == d + Concat(rest[..n]);
        Associates(s.archive, d, Concat(rest[..n]));
      } else {
        Associates(Waiting(s.writing), if e.WriteBegin? then [e.data] else [], Begun(run[1..]));
      }
    }
  }

  /** Between two moments at which no write is under way, all of them came. */
  lemma {:induction false} AllWritten(s: State, run: seq<Event>)
    requires Legal(s, run) && PruneFree(run) && s.writing.NoWrite? && !Run(s, run).writing.SizeRead?
    ensures Run(s, run).archive == s.archive + Concat(Begun(run))
  {
    ArchiveIsWritten(s, run);
    assert Waiting(s.writing) + Begun(run) == Begun(run);
    assert Begun(run)[Appends(run)..] == [];
    assert Begun(run)[..Appends(run)] == Begun(run);
  }

  // ---------------------------------------------------------------- what a client is told

  /** What the write under way will announce. */
  function Awaited(w: Writing): seq<Chunk> {
    match w
    case NoWrite => []
    case SizeRead(oldPos, data) => [FileChunk(oldPos, |data|)]
    case InFile(oldPos, length) => [FileChunk(oldPos, length)]
  }

  /** Where the next write will go. */
  function NextPos(s: State): nat {
    |s.archive| + if s.writing.SizeRead? then |s.writing.data| else 0
  }

  function CalledBy(e: Event, pos: nat, socket: nat): seq<Chunk> {
    if e.WriteBegin? then [FileChunk(pos, |e.data|)]
    else if HandsTo(e, socket) then [RAMChunk(e.data)]
    else []
  }

  lemma StepTells(s: State, e: Event, r: nat)
    requires Enabled(s, e) && !e.Prune? && r < |s.records| && Registered(s, r)
    ensures var s' := Step(s, e);
      && ToldBy(s, e, r) + Awaited(s'.writing) == Awaited(s.writing) + CalledBy(e, NextPos(s), s.records[r].socket)
      && NextPos(s') == NextPos(s) + if e.WriteBegin? then |e.data| else 0
  {
  }

  lemma Chain<T>(
    told: seq<T>, more: seq<T>, after: seq<T>, before: seq<T>, between: seq<T>, called: seq<T>, later: seq<T>)
    requires told + between == before + called
    requires more + after == between + later
    ensures (told + more) + after == before + (called + later)
  {
    assert (told + more) + after == told + (more + after);
    assert told + (between + later) == (told + between) + later;
  }

  /** What a client that is registered to the end is told, and what the write then under way will
      announce, are what the write under way at the beginning announces and then every call, in order. */
  lemma {:induction false} ToldIsCalled(s: State, run: seq<Event>, r: nat)
    requires Legal(s, run) && PruneFree(run) && r < |s.records|
    requires r < |Run(s, run).records| && Registered(Run(s, run), r)
    ensures ToldDuring(s, run, r) + Awaited(Run(s, run).writing)
         == Awaited(s.writing) + Called(run, NextPos(s), s.records[r].socket)
    decreases |run|
  {
    RegisteredIff(s, run, r);
    if run != [] {
      var e, s', socket := run[0], Step(s, run[0]), s.records[r].socket;
      StepRegistered(s, e, r);
      ToldIsCalled(s', run[1..], r);
      StepTells(s, e, r);
      Chain(ToldBy(s, e, r), ToldDuring(s', run[1..], r), Awaited(Run(s, run).writing), Awaited(s.writing),
            Awaited(s'.writing), CalledBy(e, NextPos(s), socket), Called(run[1..], NextPos(s'), socket));
    }
  }

  // ---------------------------------------------------------------- the bytes

  lemma RenderFront(q: seq<Chunk>, archive: seq<byte>)
    requires q != []
    ensures Render(Denote(q), archive) == Render(Cells(q[0]), archive) + Render(Denote(q[1..]), archive)
  {
    RenderAppend(Cells(q[0]), Denote(q[1..]), archive);
  }

  lemma CalledFront(e: Event, later: seq<Event>, pos: nat, socket: nat)
    ensures Called([e] + later, pos, socket)
         == CalledBy(e, pos, socket) + Called(later, if e.WriteBegin? then pos + |e.data| else pos, socket)
  {
    assert ([e] + later)[1..] == later;
  }

  lemma HandedFront(e: Event, later: seq<Event>, socket: nat)
    ensures Handed([e] + later, socket) == (if HandsTo(e, socket) then [e.data] else []) + Handed(later, socket)
  {
    assert ([e] + later)[1..] == later;
  }

  lemma BegunFront(e: Event, later: seq<Event>, front: seq<byte>)
    ensures front + Concat(Begun([e] + later)) == (front + if e.WriteBegin? then e.data else []) + Concat(Begun(later))
  {
    assert ([e] + later)[1..] == later;
    NoneInFront(Begun(later));
    Associates(front, if e.WriteBegin? then e.data else [], Concat(Begun(later)));
  }

  /** The first call and the later ones. */
  lemma CallsUnfold(e: Event, later: seq<Event>, front: seq<byte>, socket: nat)
    ensures var written := if e.WriteBegin? then e.data else [];
      && Called([e] + later, |front|, socket)
         == CalledBy(e, |front|, socket) + Called(later, |front + written|, socket)
      && Handed([e] + later, socket) == (if HandsTo(e, socket) then [e.data] else []) + Handed(later, socket)
      && front + Concat(Begun([e] + later)) == (front + written) + Concat(Begun(later))
  {
    CalledFront(e, later, |front|, socket);
    HandedFront(e, later, socket);
    BegunFront(e, later, front);
  }

  /** Over an archive that ends with all that was written, the chunks of the calls stand for their data. */
  lemma {:induction false} CalledRenders(run: seq<Event>, front: seq<byte>, socket: nat)
    ensures Render(Denote(Called(run, |front|, socket)), front + Concat(Begun(run))) == Concat(Handed(run, socket))
  {
    if run == [] {
      assert Render([], front + []) == [];
    } else {
      var e, later := run[0], run[1..];
      assert run == [e] + later;
      var next := front + if e.WriteBegin? then e.data else [];
      CalledRenders(later, next, socket);
      CallsUnfold(e, later, front, socket);
      if HandsTo(e, socket) {
        RenderFront(CalledBy(e, |front|, socket) + Called(later, |next|, socket), front + Concat(Begun(run)));
        CallRenders(e, front, Concat(Begun(later)), socket);
      } else {
        NoneInFront(Handed(later, socket));
        NoneInFront(Called(later, |next|, socket));
      }
    }
  }

  lemma NoneInFront<T>(q: seq<T>)
    ensures [] + q == q
  {
  }

  lemma CallRenders(e: Event, front: seq<byte>, rest: seq<byte>, socket: nat)
    requires HandsTo(e, socket)
    ensures var archive := (front + if e.WriteBegin? then e.data else []) + rest;
      Render(Cells(CalledBy(e, |front|, socket)[0]), archive) == e.data
  {
    var archive := (front + if e.WriteBegin? then e.data else []) + rest;
    if e.WriteBegin? {
      RenderRange(|front|, |e.data|, archive);
    } else {
      RenderRam(e.data, archive);
    }
  }

  /** Between two moments at which no write is under way, a client that is registered to the end is told
      exactly the calls, in order, and they stand for the data that was handed over. */
  lemma {:induction false} ToldBetween(s: State, run: seq<Event>, r: nat)
    requires Legal(s, run) && PruneFree(run) && r < |s.records|
    requires r < |Run(s, run).records| && Registered(Run(s, run), r)
    requires s.writing.NoWrite? && Run(s, run).writing.NoWrite?
    ensures var told, socket := ToldDuring(s, run, r), s.records[r].socket;
      && told == Called(run, |s.archive|, socket)
      && Render(Denote(told), Run(s, run).archive) == Concat(Handed(run, socket))
  {
    var told, called := ToldDuring(s, run, r), Called(run, |s.archive|, s.records[r].socket);
    ToldIsCalled(s, run, r);
    assert told + [] == told && [] + called == called;
    AllWritten(s, run);
    CalledRenders(run, s.archive, s.records[r].socket);
  }

  /** No write is under way at the join and at the end. */
  ghost predicate WholeCalls(t: Story) {
    t.Valid() && t.Found().writing.NoWrite? && t.End().writing.NoWrite?
  }

  lemma {:induction false} ToldSinceJoin(t: Story)
    requires WholeCalls(t) && t.R() < |t.End().records| && Registered(t.End(), t.R())
    ensures t.Told() == Called(t.after, |t.Found().archive|, t.socket)
    ensures Render(Denote(t.Told()), t.End().archive) == Concat(Handed(t.after, t.socket))
  {
    StoryHolds(t);
    JustEntered(t.Found(), Join(t.socket, t.start, t.length));
    ToldBetween(t.Entered(), t.after, t.R());
  }

  lemma {:induction false} ArchiveSinceJoin(t: Story)
    requires WholeCalls(t)
    ensures t.End().archive == t.Found().archive + Concat(Begun(t.after))
  {
    JustEntered(t.Found(), Join(t.socket, t.start, t.length));
    AllWritten(t.Entered(), t.after);
  }

  lemma JustEntered(s: State, join: Event)
    requires join.Join?
    ensures var s' := Step(s, join);
      && s'.archive == s.archive && s'.writing == s.writing
      && |s'.records| == |s.records| + 1 && s'.records[|s.records|].socket == join.socket
  {
  }

  /** The client asked in range, delivery was in order, and everything has been sent: the bytes sent are
      the archive from its start on, as it was at the join, and then all that was handed over since, in
      the order of the calls. */
  lemma {:induction false} SentExactly(t: Story)
    requires WholeCalls(t) && InOrderStory(t) && 0 <= t.start
    requires t.Record().list == [] && t.Record().inflight == []
    ensures t.Record().sent
         == t.Found().archive[if t.start > |t.Found().archive| then |t.Found().archive| else t.start..]
            + Concat(Handed(t.after, t.socket))
  {
    ToldSinceJoin(t);
    DrainedSent(t);
    RestThenTold(t.Found().archive, t.End().archive, t.Base(), t.Told());
  }

  lemma {:induction false} DrainedSent(t: Story)
    requires InOrderStory(t) && t.Record().list == [] && t.Record().inflight == []
    ensures t.Found().archive <= t.End().archive && t.Base() <= |t.Found().archive|
    ensures t.Record().sent
         == Render(Range(t.Base(), |t.Found().archive| - t.Base()) + Denote(t.Told()), t.End().archive)
  {
    StoryHolds(t);
    ExactStream(t);
    LinedAtEnd(t);
    SentAll(t.End().archive, t.Record());
  }

  lemma RestThenTold(found: seq<byte>, end: seq<byte>, base: int, told: seq<Chunk>)
    requires found <= end && 0 <= base <= |found|
    ensures Render(Range(base, |found| - base) + Denote(told), end) == found[base..] + Render(Denote(told), end)
  {
    RenderAppend(Range(base, |found| - base), Denote(told), end);
    RenderRange(base, |found| - base, end);
    assert end[base..|found|] == found[base..];
  }

  lemma SentAll(archive: seq<byte>, c: RadioClient)
    requires BookOk(archive, c) && c.list == [] && c.inflight == []
    ensures c.sent == Render(Stream(c), archive)
  {
    assert Stream(c) == c.history.cells;
  }

  // ---------------------------------------------------------------- one write

  function WriteRun(data: seq<byte>): seq<Event> {
    [WriteBegin(data), WriteAppend, WriteNotify]
  }

  lemma RunOfThree(s: State, run: seq<Event>)
    requires |run| == 3 && Enabled(s, run[0]) && Enabled(Step(s, run[0]), run[1])
    requires Enabled(Step(Step(s, run[0]), run[1]), run[2])
    ensures Legal(s, run) && Run(s, run) == Step(Step(Step(s, run[0]), run[1]), run[2])
  {
    var s1, s2 := Step(s, run[0]), Step(Step(s, run[0]), run[1]);
    assert run[1..][1..][1..] == [] && run[1..][1..][0] == run[2] && run[1..][0] == run[1];
    assert Legal(s2, run[1..][1..]) && Legal(s1, run[1..]);
    assert Run(s2, run[1..][1..]) == Step(s2, run[2]) && Run(s1, run[1..]) == Run(s2, run[1..][1..]);
  }

  /** Exactly this is put on its way to a record, and nothing else of it changes. */
  predicate MoreInFlight(c: RadioClient, c': RadioClient, chunks: seq<Chunk>) {
    && c'.inflight == c.inflight + chunks
    && c'.socket == c.socket && c'.list == c.list && c'.sent == c.sent && c'.alive == c.alive
    && c'.history.before == c.history.before
  }

  /** One write, with any number of clients: all of the data is at the end of the archive, and each client
      on the map, and no other record, has exactly its range on the way. */
  lemma WholeWrite(s: State, data: seq<byte>)
    requires s.writing.NoWrite?
    ensures Legal(s, WriteRun(data))
    ensures var s' := Run(s, WriteRun(data));
      && s'.archive == s.archive + data && s'.writing.NoWrite? && s'.clients == s.clients
      && |s'.records| == |s.records|
      && forall r :: 0 <= r < |s.records| ==>
           MoreInFlight(s.records[r], s'.records[r],
                        if Registered(s, r) then [FileChunk(|s.archive|, |data|)] else [])
  {
    RunOfThree(s, WriteRun(data));
  }

  /** One message: the same, with the data itself on the way and the archive as it was. */
  lemma WholeSend(s: State, data: seq<byte>)
    requires s.writing.NoWrite?
    ensures var s' := Step(s, Send(data));
      && s'.archive == s.archive && s'.writing.NoWrite? && s'.clients == s.clients
      && |s'.records| == |s.records|
      && forall r :: 0 <= r < |s.records| ==>
           MoreInFlight(s.records[r], s'.records[r], if Registered(s, r) then [RAMChunk(data)] else [])
  {
  }
}
