/** Whole runs of the radio, from a client's join on. */
module RadioRuns {
  import opened Bytes
  import opened TaskList
  import opened Counting
  import opened Radio
  import opened RadioInvariant

  ghost predicate PruneFree(run: seq<Event>) {
    forall i :: 0 <= i < |run| ==> !run[i].Prune?
  }

  /** A radio is made on an archive and runs for a while, in any way; then a client asks for a range
      of the archive, and the radio goes on without being pruned. */
  datatype Story = Story(
    archive: seq<byte>, before: seq<Event>, socket: nat, start: int, length: int, after: seq<Event>)
  {
    ghost predicate LegalStart() {
      Legal(Made(archive), before)
    }

    /** The state the client finds, and the one its join leaves. */
    ghost function Found(): State
      requires LegalStart()
    {
      Run(Made(archive), before)
    }

    ghost function Entered(): State
      requires LegalStart()
    {
      Step(Found(), Join(socket, start, length))
    }

    /** If a write had read its position at the join, it was the end of the file: no prune came
        between. */
    ghost predicate Valid() {
      && LegalStart() && Legal(Entered(), after) && PruneFree(after)
      && SizeStands(Found())
    }

    ghost function End(): State
      requires Valid()
    {
      Run(Entered(), after)
    }

    /** The client's record and where its range starts. */
    ghost function R(): nat
      requires LegalStart()
    {
      |Found().records|
    }

    ghost function Base(): int
      requires LegalStart()
    {
      if start > |Found().archive| then |Found().archive| else start
    }

    ghost function Record(): RadioClient
      requires Valid() && R() < |End().records|
    {
      End().records[R()]
    }

    /** What the client was told after its join. */
    ghost function Told(): seq<Chunk>
      requires Valid()
    {
      ToldDuring(Entered(), after, R())
    }

    /** The client asked for no more than there was. */
    ghost predicate AskedInRange()
      requires LegalStart()
    {
      Base() + length <= |Found().archive|
    }
  }

  /** A position that a write has read is still the end of the file. */
  predicate SizeStands(s: State) {
    s.writing.SizeRead? ==> s.writing.oldPos == |s.archive|
  }

  lemma {:induction false} PruneFreeIsQuiet(s: State, run: seq<Event>)
    requires Legal(s, run) && PruneFree(run)
    ensures QuietPrunes(s, run)
    decreases |run|
  {
    if run != [] {
      PruneFreeIsQuiet(Step(s, run[0]), run[1..]);
    }
  }

  // ---------------------------------------------------------------- what a run adds to a record

  /** What a step tells a registered client. */
  ghost function ToldBy(s: State, e: Event, r: nat): seq<Chunk>
    requires r < |s.records|
  {
    if !Registered(s, r) then []
    else
      match e
      case WriteNotify => [Untold(s.writing)]
      case Send(data) => [RAMChunk(data)]
      case SingleSend(data, socket) => if socket == s.records[r].socket then [RAMChunk(data)] else []
      case _ => []
  }

  ghost function ToldDuring(s: State, run: seq<Event>, r: nat): seq<Chunk>
    requires Legal(s, run) && r < |s.records|
    decreases |run|
  {
    if run == [] then []
    else
      var s' := Step(s, run[0]);
      ToldBy(s, run[0], r) + if r < |s'.records| then ToldDuring(s', run[1..], r) else []
  }

  /** A record keeps its socket, its base and its past, is owed exactly what it is told, and never
      comes back once it is off the map. */
  ghost predicate Continues(s: State, s': State, r: nat, told: seq<Chunk>) {
    && r < |s.records| <= |s'.records|
    && s.archive <= s'.archive
    && (Registered(s', r) ==> Registered(s, r))
    && var c, c' := s.records[r], s'.records[r];
       && c'.socket == c.socket && c'.history.before == c.history.before
       && c'.history.tracked == c.history.tracked && c'.history.base == c.history.base
       && c'.history.extra == c.history.extra && c'.history.missing == c.history.missing
       && c'.history.due == c.history.due + told
  }

  lemma StepContinues(s: State, e: Event, r: nat)
    requires WellFormed(s) && SizeStands(s) && Enabled(s, e) && !e.Prune? && r < |s.records|
    ensures SizeStands(Step(s, e)) && Continues(s, Step(s, e), r, ToldBy(s, e, r))
  {
    match e {
      case WriteNotify => BroadcastContinues(s, Untold(s.writing), NoWrite, r);
      case Send(data) => BroadcastContinues(s, RAMChunk(data), s.writing, r);
      case Fetch(i, accepted) => FetchContinues(s, i, accepted, r);
      case _ => OtherContinues(s, e, r);
    }
  }

  lemma FetchContinues(s: State, i: nat, accepted: nat, r: nat)
    requires Enabled(s, Fetch(i, accepted)) && r < |s.records|
    ensures Step(s, Fetch(i, accepted)).writing == s.writing && Continues(s, Step(s, Fetch(i, accepted)), r, [])
  {
  }

  lemma BroadcastContinues(s: State, chunk: Chunk, w: Writing, r: nat)
    requires r < |s.records|
    ensures Continues(s, Broadcast(s, chunk).(writing := w), r, if Registered(s, r) then [chunk] else [])
  {
  }

  lemma OtherContinues(s: State, e: Event, r: nat)
    requires WellFormed(s) && SizeStands(s) && Enabled(s, e) && !e.Prune? && r < |s.records|
    requires !e.WriteNotify? && !e.Send? && !e.Fetch?
    ensures SizeStands(Step(s, e)) && Continues(s, Step(s, e), r, ToldBy(s, e, r))
  {
  }

  lemma ContinuesOn(s: State, mid: State, end: State, r: nat, a: seq<Chunk>, b: seq<Chunk>)
    requires Continues(s, mid, r, a) && Continues(mid, end, r, b)
    ensures Continues(s, end, r, a + b)
  {
    Associates(s.records[r].history.due, a, b);
  }

  lemma {:induction false} RunContinues(s: State, run: seq<Event>, r: nat)
    requires Sound(s) && SizeStands(s) && Legal(s, run) && PruneFree(run) && r < |s.records|
    ensures Sound(Run(s, run)) && Continues(s, Run(s, run), r, ToldDuring(s, run, r))
    decreases |run|
  {
    if run != [] {
      var s' := Step(s, run[0]);
      StepSound(s, run[0]);
      StepContinues(s, run[0], r);
      RunContinues(s', run[1..], r);
      ContinuesOn(s, s', Run(s', run[1..]), r, ToldBy(s, run[0], r), ToldDuring(s', run[1..], r));
    }
  }

  /** The chunks a join owes. */
  function First(base: int, size: nat): seq<Chunk>
    requires base <= size
  {
    if base < size then [FileChunk(base, size - base)] else []
  }

  lemma FirstDenotes(base: int, size: nat)
    requires base <= size
    ensures Denote(First(base, size)) == Range(base, size - base)
  {
    DenoteOne(FileChunk(base, size - base));
  }

  lemma NewClientFirst(s: State, socket: nat, start: int, length: int)
    requires AsksInRange(|s.archive|, start, length)
    ensures var c, size := NewClient(s, socket, start, length), |s.archive|;
      c.history.base <= size && c.history.due == c.history.delivered == First(c.history.base, size)
  {
  }

  /** What a join queues, whatever it asks for: from its start, or the end if that comes first, up to the
      end when it asks for no more than that, and else exactly as much as it asks for. */
  lemma JoinQueues(s: State, socket: nat, start: int, length: int)
    ensures var size := |s.archive|;
      var c, base := NewClient(s, socket, start, length), if start > size then size else start;
      && c.history.base == base
      && (base + length <= size ==> Denote(c.list) == Range(base, size - base))
      && (base + length > size ==> length > 0 && Denote(c.list) == Range(base, length))
  {
    var size := |s.archive|;
    var base, n := JoinStart(size, start), JoinLength(size, start, length);
    JoinCovers(base, n);
    assert NewClient(s, socket, start, length).list == if n == 0 then [] else Split(base, n);
  }

  lemma JoinCovers(start: int, n: nat)
    ensures Denote(if n == 0 then [] else Split(start, n)) == Range(start, n)
  {
    SplitPartitions(start, n);
  }

  /** Otherwise the record of a join starts from nothing, in pieces as splitChunk makes them. */
  lemma JoinStartsFresh(s: State, socket: nat, start: int, length: int)
    ensures var c := NewClient(s, socket, start, length);
      && Compact(c.list) && c.socket == socket && c.alive
      && c.inflight == [] && c.sent == [] && c.history.before == []
  {
    NewClientBook(s, socket, start, length);
  }

  /** In range, a join queues what lies behind its start. */
  lemma NewClientQueue(s: State, socket: nat, start: int, length: int)
    requires AsksInRange(|s.archive|, start, length)
    ensures var c, size := NewClient(s, socket, start, length), |s.archive|;
      && c.history.base == JoinStart(size, start) && c.list == Split(c.history.base, size - c.history.base)
      && c.history.delivered == First(c.history.base, size)
  {
    NewClientFirst(s, socket, start, length);
    assert Split(|s.archive|, 0) == [];
  }

  /** At the end of the story the record is sound, starts at the base, is owed what the join owed
      and then what it was told, in order; beside the archive from the base on that is the write
      unannounced at the join and what was asked for beyond the end. */
  lemma {:induction false} StoryHolds(t: Story)
    requires t.Valid()
    ensures Sound(t.Found()) && Sound(t.Entered()) && Sound(t.End()) && t.R() < |t.End().records|
    ensures Continues(t.Entered(), t.End(), t.R(), t.Told())
    ensures var h := t.Record().history;
      && h.base == t.Base() && h.before == [] && h.missing == []
      && h.extra == [Untold(t.Found().writing), Overshoot(|t.Found().archive|, t.start, t.length)]
      && h.tracked == (0 <= t.start && t.AskedInRange())
    ensures t.AskedInRange() ==>
      t.Record().history.due
      == First(t.Base(), |t.Found().archive|) + t.Told()
  {
    MadeIsSound(t.archive);
    RunSound(Made(t.archive), t.before);
    JoinSound(t.Found(), t.socket, t.start, t.length);
    RunContinues(t.Entered(), t.after, t.R());
    if t.AskedInRange() {
      NewClientFirst(t.Found(), t.socket, t.start, t.length);
    }
  }

  // ---------------------------------------------------------------- no gap, no extra

  /** How often a position is sent, queued, in flight or about to be told to a client. */
  ghost function Named(s: State, r: nat, p: int): nat
    requires r < |s.records|
  {
    var c := s.records[r];
    multiset(c.history.cells)[At(p)] + Count(c.list, p) + Count(c.inflight, p)
    + One(Covers(Untold(s.writing), p))
  }

  lemma NamedIsOwed(s: State, r: nat, p: int)
    requires Sound(s) && Registered(s, r)
    ensures var h := s.records[r].history;
      Named(s, r, p) + Count(h.missing, p) == One(h.base <= p < |s.archive|) + Count(h.extra, p)
  {
    var c := s.records[r];
    assert RecordOk(s, r);
    assert OwedAt(s.archive, s.writing, c.history, p);
    assert multiset(c.history.cells + Denote(c.list)) == multiset(Denote(c.history.delivered));
    DenoteAppend(c.history.delivered, c.inflight);
    CountOfPermutation(c.history.delivered + c.inflight, c.history.due, p);
  }

  /** In any order of delivery, a client that is still registered gets every position from its start
      on exactly once and no earlier one; one more time only the write whose data was in the file but
      not announced when it joined, and what it asked for beyond the end. What was sent are the
      bytes at those positions. */
  lemma {:induction false} NoGapNoExtra(t: Story, p: int)
    requires t.Valid() && t.R() < |t.End().records| && Registered(t.End(), t.R())
    ensures Named(t.End(), t.R(), p)
         == One(t.Base() <= p < |t.End().archive|)
            + One(Covers(Untold(t.Found().writing), p))
            + One(|t.Found().archive| <= p < t.Base() + t.length)
    ensures t.Record().sent == Render(t.Record().history.cells, t.End().archive)
  {
    StoryHolds(t);
    NamedIsOwed(t.End(), t.R(), p);
    CountTwo(Untold(t.Found().writing), Overshoot(|t.Found().archive|, t.start, t.length), p);
    assert Count([], p) == 0;
    assert RecordOk(t.End(), t.R());
  }

  // ---------------------------------------------------------------- draining

  lemma BackInRange(a: seq<Cell>, b: seq<Cell>, n: nat)
    requires InRange(a + b, n)
    ensures InRange(b, n)
  {
    assert forall i :: 0 <= i < |b| ==> (a + b)[|a| + i] == b[i];
  }

  lemma QueueInside(s: State, r: nat)
    requires Sound(s) && r < |s.records| && s.records[r].alive && s.records[r].history.tracked
    requires ClientInside(s.records[r], |s.archive|)
    ensures InRange(Denote(s.records[r].list), |s.archive|)
  {
    var c, n := s.records[r], |s.archive|;
    assert RecordOk(s, r);
    InsideDenotes(c.history.delivered, n);
    BackInRange(c.history.cells, Denote(c.list), n);
  }

  lemma {:induction false} RunKeepsInside(s: State, run: seq<Event>, r: nat)
    requires Sound(s) && Legal(s, run) && PruneFree(run) && r < |s.records|
    requires InPlace(s.writing, |s.archive|) && ClientInside(s.records[r], |s.archive|)
    ensures var s' := Run(s, run);
      InPlace(s'.writing, |s'.archive|) && r < |s'.records| && ClientInside(s'.records[r], |s'.archive|)
    decreases |run|
  {
    if run != [] {
      StepKeepsInside(s, run[0], r);
      StepSound(s, run[0]);
      RunKeepsInside(Step(s, run[0]), run[1..], r);
    }
  }

  /** A client that joins in range while a write in progress, if any, is at the end of the archive
      never has an unreadable front: a fetch always sends. */
  lemma FetchAlwaysSends(t: Story)
    requires t.Valid() && 0 <= t.start && t.AskedInRange() && InPlace(t.Found().writing, |t.Found().archive|)
    requires t.R() < |t.End().records| && t.Record().alive && t.Record().list != []
    ensures InRange(Denote(t.Record().list), |t.End().archive|)
    ensures FrontReady(t.Record().list, |t.End().archive|)
  {
    StoryHolds(t);
    NewClientInside(t.Found(), t.socket, t.start, t.length);
    RunKeepsInside(t.Entered(), t.after, t.R());
    QueueInside(t.End(), t.R());
    assert RecordOk(t.End(), t.R());
    FrontInRange(t.Record().list, |t.End().archive|);
  }

  /** Nor does, when every prune comes at a quiet moment, any client that joined in range or has seen a
      prune since. */
  lemma {:induction false} QuietRunsAlwaysSend(archive: seq<byte>, run: seq<Event>, r: nat)
    requires Legal(Made(archive), run) && QuietPrunes(Made(archive), run)
    requires var s := Run(Made(archive), run);
      && r < |s.records| && s.records[r].alive && s.records[r].history.tracked && s.records[r].list != []
    ensures var s := Run(Made(archive), run); FrontReady(s.records[r].list, |s.archive|)
  {
    MadeIsOk(archive);
    RunKeeps(Made(archive), run);
    var s := Run(Made(archive), run);
    QueueInside(s, r);
    assert RecordOk(s, r);
    FrontInRange(s.records[r].list, |s.archive|);
  }

  /** No other record changes, nor the archive and what is being written to it. */
  predicate OnlyRecordChanges(s: State, s': State, r: nat) {
    && s'.archive == s.archive && s'.writing == s.writing && |s'.records| == |s.records|
    && forall i :: 0 <= i < |s.records| && i != r ==> s'.records[i] == s.records[i]
  }

  function Fetches(r: nat, accepted: nat, n: nat): seq<Event> {
    if n == 0 then [] else [Fetch(r, accepted)] + Fetches(r, accepted, n - 1)
  }

  /** Left alone on a connection that takes what it is given, a client's goroutine whose queue lies
      inside the archive empties it in exactly as many fetches as it has items, and sends what the
      queue stood for. */
  lemma {:induction false} FetchesDrain(s: State, r: nat, accepted: nat)
    requires Sound(s) && r < |s.records| && s.records[r].alive
    requires InRange(Denote(s.records[r].list), |s.archive|) && |Denote(s.records[r].list)| <= accepted
    ensures Legal(s, Fetches(r, accepted, |s.records[r].list|))
    ensures var s' := Run(s, Fetches(r, accepted, |s.records[r].list|));
      && OnlyRecordChanges(s, s', r) && s'.clients == s.clients && r < |s'.records|
      && s'.records[r].list == [] && s'.records[r].inflight == s.records[r].inflight
      && s'.records[r].sent == s.records[r].sent + Render(Denote(s.records[r].list), s.archive)
    decreases |s.records[r].list|
  {
    var c := s.records[r];
    assert RecordOk(s, r);
    if c.list == [] {
      assert c.sent + Render(Denote(c.list), s.archive) == c.sent;
    } else {
      FrontInRange(c.list, |s.archive|);
      var e := Fetch(r, accepted);
      StepSound(s, e);
      FetchesDrain(Step(s, e), r, accepted);
      Prepend(s, e, Fetches(r, accepted, |c.list| - 1));
      RenderAppend(Cells(c.list[0]), Denote(c.list[1..]), s.archive);
      Associates(c.sent, FrontBytes(c, s.archive), Render(Denote(c.list[1..]), s.archive));
    }
  }

  /** However many writes arrive while a client is slow, a queue that is one run of the archive
      stays short for its length: after every legal run, for every record there ever was. */
  lemma {:induction false} QueueStaysShort(archive: seq<byte>, run: seq<Event>, r: nat)
    requires Legal(Made(archive), run) && r < |Run(Made(archive), run).records|
    ensures var q := Run(Made(archive), run).records[r].list;
      Compact(q) && (OneRun(q) && q != [] ==> |q| <= (|Denote(q)| - 1) / CHUNK_SIZE + 1)
  {
    MadeIsSound(archive);
    RunSound(Made(archive), run);
    var s := Run(Made(archive), run);
    assert RecordOk(s, r);
    if OneRun(s.records[r].list) && s.records[r].list != [] {
      CompactIsShort(s.records[r].list);
    }
  }

  lemma OneMoreItem(s: State, r: nat, data: seq<byte>) returns (deliver: Event)
    requires WellFormed(s) && Registered(s, r) && s.writing.NoWrite?
    ensures !deliver.Prune? && Enabled(Step(s, Send(data)), deliver)
    ensures var s' := Step(Step(s, Send(data)), deliver);
      && WellFormed(s') && Registered(s', r) && s'.writing.NoWrite?
      && |s'.records[r].list| == |s.records[r].list| + 1
  {
    var inflight := s.records[r].inflight;
    deliver := Deliver(r, |inflight|);
    assert (inflight + [RAMChunk(data)])[|inflight|] == RAMChunk(data);
  }

  /** Otherwise there is no limit: messages that arrive while a client is slow add one item each. */
  lemma {:induction false} QueueHasNoLimit(s: State, r: nat, data: seq<byte>, n: nat) returns (run: seq<Event>)
    requires WellFormed(s) && Registered(s, r) && s.writing.NoWrite?
    ensures Legal(s, run) && PruneFree(run)
    ensures var s' := Run(s, run);
      Registered(s', r) && |s'.records[r].list| == |s.records[r].list| + n
    decreases n
  {
    run := [];
    if n != 0 {
      var deliver := OneMoreItem(s, r, data);
      var s1 := Step(s, Send(data));
      var rest := QueueHasNoLimit(Step(s1, deliver), r, data, n - 1);
      Prepend(s1, deliver, rest);
      Prepend(s, Send(data), [deliver] + rest);
      run := [Send(data)] + ([deliver] + rest);
    }
  }

  // ---------------------------------------------------------------- the exact stream

  /** The archive's part of a stream. */
  function FileCells(cells: seq<Cell>): seq<Cell> {
    if cells == [] then []
    else (if cells[0].At? then [cells[0]] else []) + FileCells(cells[1..])
  }

  lemma {:induction false} FileCellsAppend(a: seq<Cell>, b: seq<Cell>)
    ensures FileCells(a + b) == FileCells(a) + FileCells(b)
  {
    if a == [] {
      assert a + b == b;
    } else {
      assert (a + b)[1..] == a[1..] + b;
      FileCellsAppend(a[1..], b);
      Associates(if a[0].At? then [a[0]] else [], FileCells(a[1..]), FileCells(b));
    }
  }

  lemma {:induction false} FileCellsPure(cells: seq<Cell>)
    ensures (forall i :: 0 <= i < |cells| ==> cells[i].At?) ==> FileCells(cells) == cells
    ensures (forall i :: 0 <= i < |cells| ==> cells[i].Ram?) ==> FileCells(cells) == []
  {
    if cells != [] {
      FileCellsPure(cells[1..]);
    }
  }

  lemma FileCellsOf(q: seq<Chunk>, c: Chunk)
    ensures FileCells(Denote(q + [c])) == FileCells(Denote(q)) + if c.FileChunk? then Cells(c) else []
  {
    DenoteAppend(q, [c]);
    DenoteOne(c);
    FileCellsAppend(Denote(q), Cells(c));
    FileCellsPure(Cells(c));
  }

  /** The archive's part of what is owed, with the write not yet told, is the archive from the base on. */
  ghost predicate Owes(due: seq<Chunk>, untold: Chunk, base: int, size: nat) {
    base <= size && FileCells(Denote(due)) + Cells(untold) == Range(base, size - base)
  }

  ghost predicate OwesExactly(s: State, r: nat)
    requires r < |s.records|
  {
    var h := s.records[r].history;
    Owes(h.due, Untold(s.writing), h.base, |s.archive|)
  }

  lemma GrowOwes(due: seq<Chunk>, base: int, size: nat, more: nat)
    requires Owes(due, FileChunk(0, 0), base, size)
    ensures Owes(due, FileChunk(size, more), base, size + more)
  {
    RangeAppend(base, size - base, more);
    assert Cells(FileChunk(0, 0)) == [];
  }

  lemma TellOwes(due: seq<Chunk>, chunk: Chunk, base: int, size: nat)
    requires Owes(due, if chunk.RAMChunk? then FileChunk(0, 0) else chunk, base, size)
    ensures Owes(due + [chunk], FileChunk(0, 0), base, size)
  {
    FileCellsOf(due, chunk);
    assert Cells(FileChunk(0, 0)) == [];
  }

  /** What a step does to a registered record's dues, and to what is written but not told. */
  lemma StepOwesParts(s: State, e: Event, r: nat)
    requires Sound(s) && SizeStands(s) && Enabled(s, e) && !e.Prune? && r < |s.records| && Registered(Step(s, e), r)
    ensures var s', told := Step(s, e), ToldBy(s, e, r);
      && Continues(s, s', r, told)
      && if e.WriteAppend? then
           && told == [] && Untold(s.writing) == FileChunk(0, 0)
           && Untold(s'.writing) == FileChunk(|s.archive|, |s.writing.data|)
           && |s'.archive| == |s.archive| + |s.writing.data|
         else
           && s'.archive == s.archive
           && if told == [] then Untold(s'.writing) == Untold(s.writing)
              else |told| == 1 && Untold(s'.writing) == FileChunk(0, 0)
                   && Untold(s.writing) == if told[0].RAMChunk? then FileChunk(0, 0) else told[0]
  {
    StepContinues(s, e, r);
  }

  lemma {:induction false} StepOwesExactly(s: State, e: Event, r: nat)
    requires Sound(s) && SizeStands(s) && Enabled(s, e) && !e.Prune? && r < |s.records|
    requires OwesExactly(s, r) && Registered(Step(s, e), r)
    ensures OwesExactly(Step(s, e), r)
  {
    StepOwesParts(s, e, r);
    var h, told := s.records[r].history, ToldBy(s, e, r);
    if e.WriteAppend? {
      GrowOwes(h.due, h.base, |s.archive|, |s.writing.data|);
      assert h.due + told == h.due;
    } else if told == [] {
      assert h.due + told == h.due;
    } else {
      assert told == [told[0]];
      TellOwes(h.due, told[0], h.base, |s.archive|);
    }
  }

  lemma {:induction false} RunOwesExactly(s: State, run: seq<Event>, r: nat)
    requires Sound(s) && SizeStands(s) && Legal(s, run) && PruneFree(run)
    requires r < |s.records| && OwesExactly(s, r)
    ensures r < |Run(s, run).records|
    ensures Registered(Run(s, run), r) ==> OwesExactly(Run(s, run), r)
    decreases |run|
  {
    RunContinues(s, run, r);
    if run != [] && Registered(Run(s, run), r) {
      var s' := Step(s, run[0]);
      StepSound(s, run[0]);
      StepContinues(s, run[0], r);
      RunContinues(s', run[1..], r);
      StepOwesExactly(s, run[0], r);
      RunOwesExactly(s', run[1..], r);
    }
  }

  /** Helpers hand their chunks over in the order they were started. */
  ghost predicate InOrderStep(s: State, e: Event) {
    match e
    case Deliver(_, k) => k == 0
    case SingleSend(_, socket) =>
      socket in s.clients && s.clients[socket] < |s.records| ==> s.records[s.clients[socket]].inflight == []
    case _ => true
  }

  ghost predicate InOrder(s: State, run: seq<Event>)
    requires Legal(s, run)
    decreases |run|
  {
    run != [] ==> InOrderStep(s, run[0]) && InOrder(Step(s, run[0]), run[1..])
  }

  ghost predicate Lined(c: RadioClient) {
    c.history.delivered + c.inflight == c.history.due
  }

  lemma StepLined(s: State, e: Event, r: nat)
    requires Sound(s) && SizeStands(s) && Enabled(s, e) && !e.Prune? && InOrderStep(s, e)
    requires r < |s.records| && Lined(s.records[r]) && Registered(Step(s, e), r)
    ensures Lined(Step(s, e).records[r])
  {
    match e {
      case WriteNotify => BroadcastLined(s, Untold(s.writing), r);
      case Send(data) => BroadcastLined(s, RAMChunk(data), r);
      case _ => OtherLined(s, e, r);
    }
  }

  lemma BroadcastLined(s: State, chunk: Chunk, r: nat)
    requires r < |s.records| && Lined(s.records[r])
    ensures Lined(Broadcast(s, chunk).records[r])
  {
    var h := s.records[r].history;
    Associates(h.delivered, s.records[r].inflight, [chunk]);
  }

  lemma OtherLined(s: State, e: Event, r: nat)
    requires Sound(s) && SizeStands(s) && Enabled(s, e) && !e.Prune? && InOrderStep(s, e)
    requires r < |s.records| && Lined(s.records[r]) && Registered(Step(s, e), r)
    requires !e.WriteNotify? && !e.Send?
    ensures Lined(Step(s, e).records[r])
  {
  }

  lemma {:induction false} RunLined(s: State, run: seq<Event>, r: nat)
    requires Sound(s) && SizeStands(s) && Legal(s, run) && PruneFree(run) && InOrder(s, run)
    requires r < |s.records| && Lined(s.records[r])
    ensures r < |Run(s, run).records|
    ensures Registered(Run(s, run), r) ==> Lined(Run(s, run).records[r])
    decreases |run|
  {
    RunContinues(s, run, r);
    if run != [] && Registered(Run(s, run), r) {
      var s' := Step(s, run[0]);
      StepSound(s, run[0]);
      StepContinues(s, run[0], r);
      RunContinues(s', run[1..], r);
      StepLined(s, run[0], r);
      RunLined(s', run[1..], r);
    }
  }

  /** What a client has been sent, has queued and has in flight, in that order. */
  ghost function Stream(c: RadioClient): seq<Cell> {
    c.history.cells + Denote(c.list) + Denote(c.inflight)
  }

  /** The client asked in range and is still registered, delivery was in order, and no write was
      half announced at the join. */
  ghost predicate InOrderStory(t: Story) {
    && t.Valid() && t.R() < |t.End().records| && Registered(t.End(), t.R())
    && InOrder(t.Entered(), t.after) && t.AskedInRange() && !t.Found().writing.InFile?
  }

  lemma LinedAtEnd(t: Story)
    requires InOrderStory(t)
    ensures Lined(t.Record()) && OwesExactly(t.End(), t.R())
    ensures BookOk(t.End().archive, t.Record())
  {
    StoryHolds(t);
    var s, r := t.Entered(), t.R();
    JoinStartsLined(t.Found(), t.socket, t.start, t.length);
    RunLined(s, t.after, r);
    RunOwesExactly(s, t.after, r);
    assert RecordOk(t.End(), r);
  }

  /** Then the stream is the archive from the start to the join, and after it every write and every
      message in the order they were made. */
  lemma {:induction false} ExactStream(t: Story)
    requires InOrderStory(t)
    ensures Stream(t.Record())
         == Range(t.Base(), |t.Found().archive| - t.Base()) + Denote(t.Told())
  {
    LinedAtEnd(t);
    DueAtEnd(t);
    ExactAt(t.End().archive, t.Record(), t.Base(), |t.Found().archive|, t.Told());
  }

  lemma DueAtEnd(t: Story)
    requires t.Valid() && t.AskedInRange()
    ensures t.R() < |t.End().records| && t.Base() <= |t.Found().archive|
    ensures t.Record().history.due == First(t.Base(), |t.Found().archive|) + t.Told()
  {
    StoryHolds(t);
  }

  /** And its archive part, with a write not yet announced, is the archive from the start on. */
  lemma {:induction false} ExactArchive(t: Story)
    requires InOrderStory(t)
    ensures t.Base() <= |t.End().archive|
    ensures FileCells(Stream(t.Record())) + Cells(Untold(t.End().writing))
         == Range(t.Base(), |t.End().archive| - t.Base())
  {
    StoryHolds(t);
    LinedAtEnd(t);
    LinedStream(t.End().archive, t.Record());
  }

  lemma ExactAt(archive: seq<byte>, c: RadioClient, base: int, size: nat, told: seq<Chunk>)
    requires BookOk(archive, c) && Lined(c) && base <= size && c.history.due == First(base, size) + told
    ensures Stream(c) == Range(base, size - base) + Denote(told)
  {
    LinedStream(archive, c);
    FirstDenotes(base, size);
    DenoteAppend(First(base, size), told);
  }

  lemma JoinStartsLined(s: State, socket: nat, start: int, length: int)
    requires AsksInRange(|s.archive|, start, length) && !s.writing.InFile?
    ensures var s', r := Step(s, Join(socket, start, length)), |s.records|;
      Lined(s'.records[r]) && OwesExactly(s', r)
  {
    NewClientFirst(s, socket, start, length);
    var base := JoinStart(|s.archive|, start);
    FirstDenotes(base, |s.archive|);
    FileCellsPure(Range(base, |s.archive| - base));
    NothingUntold(s.writing);
  }

  lemma NothingUntold(w: Writing)
    requires !w.InFile?
    ensures Cells(Untold(w)) == []
  {
  }

  lemma LinedStream(archive: seq<byte>, c: RadioClient)
    requires BookOk(archive, c) && Lined(c)
    ensures Stream(c) == Denote(c.history.due)
  {
    DenoteAppend(c.history.delivered, c.inflight);
  }

  /** Once everything is sent, such a client's archive bytes are archive[start..]. */
  lemma {:induction false} DrainedStream(t: Story)
    requires InOrderStory(t) && !t.End().writing.InFile?
    requires t.Record().list == [] && t.Record().inflight == []
    ensures 0 <= t.Base() <= |t.End().archive|
    ensures t.Record().sent == Render(t.Record().history.cells, t.End().archive)
    ensures Render(FileCells(t.Record().history.cells), t.End().archive) == t.End().archive[t.Base()..]
  {
    ExactArchive(t);
    LinedAtEnd(t);
    DrainedBytes(t.End(), t.Record(), t.Base());
  }

  lemma DrainedBytes(s: State, c: RadioClient, base: int)
    requires c.list == [] && c.inflight == [] && !s.writing.InFile? && base <= |s.archive|
    requires BookOk(s.archive, c)
    requires FileCells(Stream(c)) + Cells(Untold(s.writing)) == Range(base, |s.archive| - base)
    ensures 0 <= base && Render(FileCells(c.history.cells), s.archive) == s.archive[base..]
  {
    assert Stream(c) == c.history.cells;
    NothingUntold(s.writing);
    var files := FileCells(c.history.cells);
    assert files == Range(base, |s.archive| - base);
    FileCellsInRange(c.history.cells, |s.archive|);
    if base < |s.archive| {
      assert files[0] == At(base);
    }
    RenderRange(base, |s.archive| - base, s.archive);
  }

  lemma {:induction false} FileCellsInRange(cells: seq<Cell>, n: nat)
    requires InRange(cells, n)
    ensures InRange(FileCells(cells), n)
  {
    if cells != [] {
      FileCellsInRange(cells[1..], n);
    }
  }
}
