/** What a prune leaves behind when it does not come at a quiet moment, and runs in which it happens. */
module RadioPrunes {
  import opened Bytes
  import opened TaskList
  import opened Counting
  import opened Radio
  import opened RadioInvariant
  import opened RadioRuns

  // ---------------------------------------------------------------- an unreadable front

  /** The queue starts with a range from a position on, at least so long. */
  predicate StartsWith(q: seq<Chunk>, start: int, least: nat) {
    q != [] && q[0].FileChunk? && q[0].start == start && q[0].length >= least
  }

  lemma SplitStarts(start: int, length: nat, least: nat)
    requires 0 < least <= length && least <= CHUNK_SIZE
    ensures StartsWith(Split(start, length), start, least)
  {
    SplitPartitions(start, length);
    var q := Split(start, length);
    if |q| == 1 {
      assert q == [q[0]];
      DenoteOne(q[0]);
      assert |Range(start, length)| == length;
    }
  }

  /** Appending may merge and split the front again, but leaves it where it starts. */
  lemma AppendedStarts(q: seq<Chunk>, c: Chunk, start: int, least: nat)
    requires StartsWith(q, start, least) && 0 < least <= CHUNK_SIZE
    ensures StartsWith(Appended(q, c), start, least)
  {
    if Mergeable(q, c) && |q| == 1 {
      SplitStarts(start, q[0].length + c.length, least);
      assert q[..0] == [];
    }
  }

  lemma {:induction false} ArchiveGrows(s: State, run: seq<Event>)
    requires Legal(s, run) && PruneFree(run)
    ensures s.archive <= Run(s, run).archive
    decreases |run|
  {
    if run != [] {
      ArchiveGrows(Step(s, run[0]), run[1..]);
    }
  }

  lemma StepWaits(s: State, e: Event, r: nat, start: int, least: nat)
    requires Enabled(s, e) && !e.Prune? && r < |s.records|
    requires StartsWith(s.records[r].list, start, least) && 0 < least <= CHUNK_SIZE
    requires start < 0 || |s.archive| < start + least
    ensures var s' := Step(s, e);
      && r < |s'.records| && StartsWith(s'.records[r].list, start, least)
      && s'.records[r].sent == s.records[r].sent
  {
    match e {
      case Deliver(i, k) => AppendedStarts(s.records[r].list, s.records[i].inflight[k], start, least);
      case SingleSend(data, _) => AppendedStarts(s.records[r].list, RAMChunk(data), start, least);
      case _ =>
    }
  }

  /** Behind a range that is not in the archive a queue waits, in every run without a prune: nothing
      is sent until the archive reaches the end of the range, or of its first CHUNK_SIZE bytes. Behind
      a range that starts before zero it waits for ever. */
  lemma {:induction false} FrontWaits(s: State, run: seq<Event>, r: nat, start: int, least: nat)
    requires Legal(s, run) && PruneFree(run) && r < |s.records|
    requires StartsWith(s.records[r].list, start, least) && 0 < least <= CHUNK_SIZE
    requires start < 0 || |Run(s, run).archive| < start + least
    ensures var s' := Run(s, run);
      && r < |s'.records| && StartsWith(s'.records[r].list, start, least)
      && s'.records[r].sent == s.records[r].sent
    decreases |run|
  {
    if run != [] {
      ArchiveGrows(s, run);
      ArchiveGrows(Step(s, run[0]), run[1..]);
      StepWaits(s, run[0], r, start, least);
      FrontWaits(Step(s, run[0]), run[1..], r, start, least);
    }
  }

  /** A front before zero with something behind it stays as it is. */
  predicate FrontStuck(q: seq<Chunk>, front: Chunk) {
    |q| >= 2 && q[0] == front && front.FileChunk? && front.start < 0
  }

  lemma AppendedStuck(q: seq<Chunk>, c: Chunk, front: Chunk)
    requires FrontStuck(q, front) && Compact(q)
    ensures FrontStuck(Appended(q, c), front) && Compact(Appended(q, c))
  {
    AppendedCompact(q, c);
    if Mergeable(q, c) {
      FirstPiece(q[|q| - 1].start, q[|q| - 1].length + c.length);
    }
  }

  lemma StepStuck(s: State, e: Event, r: nat, front: Chunk)
    requires Enabled(s, e) && !e.Prune? && r < |s.records|
    requires FrontStuck(s.records[r].list, front) && Compact(s.records[r].list)
    ensures var s' := Step(s, e);
      r < |s'.records| && FrontStuck(s'.records[r].list, front) && Compact(s'.records[r].list)
  {
    match e {
      case Deliver(i, k) => AppendedStuck(s.records[r].list, s.records[i].inflight[k], front);
      case SingleSend(data, _) => AppendedStuck(s.records[r].list, RAMChunk(data), front);
      case _ =>
    }
  }

  lemma {:induction false} RunStuck(s: State, run: seq<Event>, r: nat, front: Chunk)
    requires Legal(s, run) && PruneFree(run) && r < |s.records|
    requires FrontStuck(s.records[r].list, front) && Compact(s.records[r].list)
    ensures r < |Run(s, run).records| && FrontStuck(Run(s, run).records[r].list, front)
    decreases |run|
  {
    if run != [] {
      StepStuck(s, run[0], r, front);
      RunStuck(Step(s, run[0]), run[1..], r, front);
    }
  }

  /** The joins whose front ends before zero, so that fetching it crashes while nothing is on the disk. */
  lemma CrashingJoinIff(s: State, socket: nat, start: int, length: int)
    ensures EndsBeforeZero(NewClient(s, socket, start, length).list)
       <==> start + Unit(JoinLength(|s.archive|, start, length)) < 0
  {
    var n := JoinLength(|s.archive|, start, length);
    if n != 0 {
      FirstPiece(JoinStart(|s.archive|, start), n);
    }
  }

  /** So a join that starts before zero is never sent anything; and for as long as there is no prune,
      its front is one that crashes the fetch, when nothing is on the disk, exactly if the first piece
      ended before zero. */
  lemma {:induction false} NegativeStartWaits(t: Story)
    requires t.Valid() && t.start < 0
    ensures t.R() < |t.End().records| && t.Record().sent == []
    ensures EndsBeforeZero(t.Record().list)
       <==> t.start + Unit(JoinLength(|t.Found().archive|, t.start, t.length)) < 0
  {
    var n := JoinLength(|t.Found().archive|, t.start, t.length);
    assert 0 < -t.start <= n;
    FirstPiece(t.start, n);
    SplitStarts(t.start, n, 1);
    FrontWaits(t.Entered(), t.after, t.R(), t.start, 1);
    if Unit(n) < n {
      NewClientBook(t.Found(), t.socket, t.start, t.length);
      RunStuck(t.Entered(), t.after, t.R(), FileChunk(t.start, Unit(n)));
    } else {
      SplitStarts(t.start, n, n);
      FrontWaits(t.Entered(), t.after, t.R(), t.start, n);
    }
  }

  // ---------------------------------------------------------------- a stale range

  /** After a prune at any moment, a client still registered gets every position of the new archive
      once, and besides it every range that was on its way or in the file unannounced at the prune. */
  lemma {:induction false} PruneAccount(s: State, after: seq<Event>, r: nat, p: int)
    requires Sound(s) && Registered(s, r) && SizeStands(Step(s, Prune))
    requires Legal(Step(s, Prune), after) && PruneFree(after)
    ensures var t := Run(Step(s, Prune), after);
      && r < |t.records|
      && (Registered(t, r) ==>
            Named(t, r, p) == One(0 <= p < |t.archive|) + Count(s.records[r].inflight, p)
                              + One(Covers(Untold(s.writing), p)))
  {
    var s1 := Step(s, Prune);
    PruneSound(s);
    RunContinues(s1, after, r);
    var t := Run(s1, after);
    if Registered(t, r) {
      NamedIsOwed(t, r, p);
      var inflight := s.records[r].inflight;
      assert [] + inflight == inflight;
      CountAppend(inflight, Untold(s.writing), p);
      assert Count([], p) == 0;
    }
  }

  /** A range in flight at a prune is delivered into the emptied queue. The queue waits behind it until
      the archive has grown into it; nothing is sent before. */
  lemma {:induction false} StaleRangeWaits(s: State, r: nat, k: nat, after: seq<Event>)
    requires Registered(s, r) && s.records[r].alive && k < |s.records[r].inflight|
    requires s.records[r].inflight[k].FileChunk? && 0 < s.records[r].inflight[k].length
    requires Legal(Step(Step(s, Prune), Deliver(r, k)), after) && PruneFree(after)
    ensures var stale, t := s.records[r].inflight[k], Run(Step(Step(s, Prune), Deliver(r, k)), after);
      var least := if stale.length < CHUNK_SIZE then stale.length else CHUNK_SIZE;
      |t.archive| < stale.start + least ==>
        && r < |t.records| && t.records[r].sent == []
        && t.records[r].list != [] && !FrontReady(t.records[r].list, |t.archive|)
  {
    var stale := s.records[r].inflight[k];
    var s2 := Step(Step(s, Prune), Deliver(r, k));
    var least := if stale.length < CHUNK_SIZE then stale.length else CHUNK_SIZE;
    if |Run(s2, after).archive| < stale.start + least {
      SplitStarts(stale.start, stale.length, least);
      assert [] + Split(stale.start, stale.length) == Split(stale.start, stale.length);
      FrontWaits(s2, after, r, stale.start, least);
    }
  }

  // ---------------------------------------------------------------- runs in which it happens

  lemma SmallSplit(start: int, n: nat)
    requires 0 < n < CHUNK_SIZE
    ensures Split(start, n) == [FileChunk(start, n)]
  {
  }

  /** Runs one after the other. */
  lemma {:induction false} RunOn(s: State, a: seq<Event>, b: seq<Event>)
    requires Legal(s, a) && Legal(Run(s, a), b)
    ensures Legal(s, a + b) && Run(s, a + b) == Run(Run(s, a), b)
    decreases |a|
  {
    FirstAgain(a, b);
    if a != [] {
      RunOn(Step(s, a[0]), a[1..], b);
      Prepend(s, a[0], a[1..] + b);
    }
  }

  lemma FirstAgain<T>(a: seq<T>, b: seq<T>)
    ensures a + b == if a == [] then b else [a[0]] + (a[1..] + b)
  {
  }

  /** The three steps of one write, with the only record on the map. */
  lemma OneWrite(s: State, data: seq<byte>) returns (run: seq<Event>)
    requires s.writing == NoWrite && |s.records| == 1 && Registered(s, 0)
    ensures Legal(s, run) && run == [WriteBegin(data), WriteAppend, WriteNotify]
    ensures Run(s, run) == s.(archive := s.archive + data,
                              records := [Told(s.records[0], FileChunk(|s.archive|, |data|))])
  {
    var s1 := Step(s, WriteBegin(data));
    var s2 := Step(s1, WriteAppend);
    var s3 := Step(s2, WriteNotify);
    assert s3.records == [Told(s.records[0], FileChunk(|s.archive|, |data|))];
    assert Legal(s3, []) && Run(s3, []) == s3;
    Prepend(s2, WriteNotify, []);
    Prepend(s1, WriteAppend, [WriteNotify]);
    Prepend(s, WriteBegin(data), [WriteAppend, WriteNotify]);
    run := [WriteBegin(data), WriteAppend, WriteNotify];
    assert run == [WriteBegin(data)] + [WriteAppend, WriteNotify];
  }

  /** A client is alone on the map, with a queue and something on its way to it; nothing has been sent. */
  predicate OnItsWay(s: State, list: seq<Chunk>, inflight: seq<Chunk>, archive: seq<byte>) {
    && s.archive == archive && s.writing == NoWrite && |s.records| == 1 && Registered(s, 0)
    && var c := s.records[0];
       c.alive && c.list == list && c.inflight == inflight && c.sent == [] && c.history.before == []
  }

  lemma JoinAlone(s: State, join: Event, list: seq<Chunk>)
    requires s.archive == [] && s.writing == NoWrite && s.records == [] && join.Join?
    requires list == NewClient(s, join.socket, join.start, join.length).list
    ensures OnItsWay(Step(s, join), list, [], [])
  {
    assert Step(s, join).records == [NewClient(s, join.socket, join.start, join.length)];
  }

  lemma WriteAlone(s: State, list: seq<Chunk>, data: seq<byte>) returns (run: seq<Event>)
    requires OnItsWay(s, list, [], [])
    ensures run == [WriteBegin(data), WriteAppend, WriteNotify]
    ensures Legal(s, run) && OnItsWay(Run(s, run), list, [FileChunk(0, |data|)], data)
  {
    run := OneWrite(s, data);
    assert [] + data == data;
    assert [] + [FileChunk(0, |data|)] == [FileChunk(0, |data|)];
  }

  lemma JoinAndWrite(s: State, join: Event, list: seq<Chunk>, data: seq<byte>) returns (run: seq<Event>, end: State)
    requires s.archive == [] && s.writing == NoWrite && s.records == [] && join.Join?
    requires list == NewClient(s, join.socket, join.start, join.length).list
    ensures |run| == 4 && run[0] == join && run[1] == WriteBegin(data) && run[2].WriteAppend? && run[3].WriteNotify?
    ensures Legal(s, run) && end == Run(s, run) && OnItsWay(end, list, [FileChunk(0, |data|)], data)
  {
    JoinAlone(s, join, list);
    var s1 := Step(s, join);
    var write := WriteAlone(s1, list, data);
    Prepend(s, join, write);
    run, end := [join] + write, Run(s1, write);
  }

  /** From a radio without archive or clients, such as one just made, and for a client that asks for
      anything, in range or not: if one byte is on its way when the archive is pruned, and one more byte
      is written, that byte is sent twice. */
  lemma StaleByteSentTwice(s: State, join: Event, x: byte, y: byte)
    returns (run: seq<Event>, mid: State, after: seq<Event>, end: State)
    requires s.archive == [] && s.writing == NoWrite && s.records == [] && join.Join?
    ensures Legal(s, run) && run != [] && run[0] == join && mid == Run(s, run)
    ensures |mid.records| == 1 && Registered(mid, 0) && !Quiet(mid)
    ensures Legal(Step(mid, Prune), after) && PruneFree(after) && end == Run(Step(mid, Prune), after)
    ensures end.archive == [y] && |end.records| == 1 && Registered(end, 0)
    ensures end.records[0].list == [] && end.records[0].inflight == [] && end.records[0].sent == [y, y]
  {
    var list := NewClient(s, join.socket, join.start, join.length).list;
    run, mid := JoinAndWrite(s, join, list, [x]);
    PruneAlone(mid, list, [FileChunk(0, 1)], [x]);
    ByteOnItsWay(mid, list, [x]);
    after, end := WrittenAfterPrune(Step(mid, Prune), y);
  }

  lemma PruneAlone(s: State, list: seq<Chunk>, q: seq<Chunk>, archive: seq<byte>)
    requires OnItsWay(s, list, q, archive)
    ensures OnItsWay(Step(s, Prune), [], q, [])
  {
    var c := s.records[0];
    assert c.history.before + c.sent == [];
    assert Step(s, Prune).records[0] == Pruned(c, true, Untold(s.writing));
  }

  lemma ByteOnItsWay(s: State, list: seq<Chunk>, archive: seq<byte>)
    requires OnItsWay(s, list, [FileChunk(0, 1)], archive)
    ensures !Quiet(s)
  {
    var c := s.records[0];
    assert c.inflight[0].FileChunk? && !NoRange(c.inflight);
    assert !QuietFor(s, 0);
  }

  lemma WrittenAfterPrune(s: State, y: byte) returns (run: seq<Event>, end: State)
    requires OnItsWay(s, [], [FileChunk(0, 1)], [])
    ensures Legal(s, run) && PruneFree(run) && end == Run(s, run)
    ensures end.archive == [y] && |end.records| == 1 && Registered(end, 0)
    ensures end.records[0].list == [] && end.records[0].inflight == [] && end.records[0].sent == [y, y]
  {
    var write := OneWrite(s, [y]);
    var s2 := Run(s, write);
    assert s2.archive == [y] && s2.records[0].inflight == [FileChunk(0, 1), FileChunk(0, 1)];
    var rest;
    rest, end := TwoDelivered(s2, y);
    RunOn(s, write, rest);
    run := write + rest;
  }

  /** The same byte is delivered twice, and fetched twice. */
  lemma TwoDelivered(s: State, y: byte) returns (run: seq<Event>, end: State)
    requires s.archive == [y] && |s.records| == 1 && Registered(s, 0) && s.records[0].alive
    requires s.records[0].list == [] && s.records[0].sent == []
    requires s.records[0].inflight == [FileChunk(0, 1), FileChunk(0, 1)]
    ensures Legal(s, run) && PruneFree(run) && end == Run(s, run)
    ensures end.archive == [y] && |end.records| == 1 && Registered(end, 0)
    ensures end.records[0].list == [] && end.records[0].inflight == [] && end.records[0].sent == [y, y]
  {
    SmallSplit(0, 1);
    var s1 := Step(s, Deliver(0, 0));
    assert s1.records[0].list == [FileChunk(0, 1)] && s1.records[0].inflight == [FileChunk(0, 1)];
    var s2 := Step(s1, Deliver(0, 0));
    assert s2.records[0].list == [FileChunk(0, 1), FileChunk(0, 1)] && s2.records[0].inflight == [];
    var fetch;
    fetch, end := TwoFetched(s2, y);
    Prepend(s1, Deliver(0, 0), fetch);
    Prepend(s, Deliver(0, 0), [Deliver(0, 0)] + fetch);
    run := [Deliver(0, 0)] + ([Deliver(0, 0)] + fetch);
  }

  lemma TwoFetched(s: State, y: byte) returns (run: seq<Event>, end: State)
    requires s.archive == [y] && |s.records| == 1 && Registered(s, 0) && s.records[0].alive
    requires s.records[0].list == [FileChunk(0, 1), FileChunk(0, 1)] && s.records[0].sent == []
    ensures Legal(s, run) && PruneFree(run) && end == Run(s, run)
    ensures end.archive == [y] && |end.records| == 1 && Registered(end, 0)
    ensures end.records[0].list == [] && end.records[0].inflight == s.records[0].inflight
    ensures end.records[0].sent == [y, y]
  {
    var s1 := Step(s, Fetch(0, 1));
    assert s1.records[0].list == [FileChunk(0, 1)] && s1.records[0].sent == [y];
    end := Step(s1, Fetch(0, 1));
    assert end.records[0].list == [] && end.records[0].sent == [y, y];
    run := TwoStepRun(s, Fetch(0, 1), Fetch(0, 1));
  }

  /** A client off the map keeps its queue through a prune: it is sent a byte of the new archive that
      it was never told of. */
  lemma OffMapIsSentNewByte(k: nat, x: byte, y: byte)
    returns (run: seq<Event>, s: State, after: seq<Event>, end: State)
    ensures Legal(Made([x]), run) && s == Run(Made([x]), run)
    ensures |s.records| == 1 && s.records[0].alive && !Registered(s, 0) && s.records[0].history.tracked
    ensures s.records[0].inflight == [] && s.records[0].list == [FileChunk(0, 1)] && !Quiet(s)
    ensures Legal(Step(s, Prune), after) && end == Run(Step(s, Prune), after)
    ensures end.archive == [y] && |end.records| == 1 && end.records[0].sent == [y]
    ensures |Step(s, Prune).records| == 1 && ToldDuring(Step(s, Prune), after, 0) == []
  {
    run, s := OffMap(Made([x]), Join(k, 0, 0), x);
    PruneOffMap(s);
    after, end := OffMapWrite(Step(s, Prune), y);
  }

  /** The only record there is has the only byte of the archive in its queue, and nothing else happened. */
  predicate OneByteQueued(s: State, w: Writing) {
    && |s.archive| == 1 && s.writing == w && |s.records| == 1
    && var c := s.records[0];
       && s.clients == map[c.socket := 0] && c.alive && c.history.tracked
       && c.list == [FileChunk(0, 1)] && c.inflight == [] && c.sent == []
  }

  lemma JoinsOneByte(s: State, join: Event)
    requires |s.archive| == 1 && s.clients == map[] && s.records == []
    requires join.Join? && join.start == 0 && join.length == 0
    ensures OneByteQueued(Step(s, join), s.writing) && Step(s, join).archive == s.archive
  {
    SmallSplit(0, 1);
    NewClientQueue(s, join.socket, join.start, join.length);
    assert Step(s, join).records == [NewClient(s, join.socket, join.start, join.length)];
  }

  lemma OffMap(s0: State, join: Event, x: byte) returns (run: seq<Event>, s: State)
    requires s0 == State([x], NoWrite, map[], [])
    requires join.Join? && join.start == 0 && join.length == 0
    ensures Legal(s0, run) && s == Run(s0, run) && s.writing == NoWrite && s.clients == map[] && |s.records| == 1
    ensures var c := s.records[0];
      c.alive && c.history.tracked && c.list == [FileChunk(0, 1)] && c.inflight == [] && c.sent == []
  {
    JoinsOneByte(s0, join);
    var s1 := Step(s0, join);
    var remove;
    remove, s := TakenOff(s1);
    run := TwoStepRun(s0, join, remove);
  }

  lemma TakenOff(s: State) returns (remove: Event, s': State)
    requires OneByteQueued(s, NoWrite)
    ensures Enabled(s, remove) && s' == Step(s, remove)
    ensures s' == s.(clients := map[])
  {
    remove := RemoveClient(s.records[0].socket);
    s' := Step(s, remove);
    assert s'.clients == map[];
  }

  lemma TwoStepRun(s: State, a: Event, b: Event) returns (run: seq<Event>)
    requires Enabled(s, a) && Enabled(Step(s, a), b)
    ensures run == [a, b] && Legal(s, run) && Run(s, run) == Step(Step(s, a), b)
  {
    var end := Step(Step(s, a), b);
    assert Legal(end, []) && Run(end, []) == end;
    Prepend(Step(s, a), b, []);
    Prepend(s, a, [b] + []);
    run := [a] + ([b] + []);
  }

  lemma PruneOffMap(s: State)
    requires s.writing == NoWrite && s.clients == map[] && |s.records| == 1 && s.records[0].alive
    requires s.records[0].list == [FileChunk(0, 1)]
    ensures !Registered(s, 0) && !Quiet(s)
    ensures var s' := Step(s, Prune);
      && s'.archive == [] && s'.writing == NoWrite && s'.clients == map[] && |s'.records| == 1
      && s'.records[0].alive && s'.records[0].list == [FileChunk(0, 1)] && s'.records[0].sent == []
  {
    var list := s.records[0].list;
    assert list[0].FileChunk? && !NoRange(list);
    assert !QuietFor(s, 0);
  }

  lemma OffMapWrite(s: State, y: byte) returns (run: seq<Event>, end: State)
    requires s.archive == [] && s.writing == NoWrite && s.clients == map[] && |s.records| == 1
    requires s.records[0].alive && s.records[0].list == [FileChunk(0, 1)] && s.records[0].sent == []
    ensures Legal(s, run) && end == Run(s, run)
    ensures end.archive == [y] && |end.records| == 1 && end.records[0].sent == [y]
    ensures ToldDuring(s, run, 0) == []
  {
    var s1 := Step(s, WriteBegin([y]));
    var s2 := Step(s1, WriteAppend);
    assert s2.archive == [y] && s2.records == s.records;
    end := Step(s2, Fetch(0, 1));
    assert end.records[0].sent == [y];
    assert Legal(end, []) && Run(end, []) == end && ToldDuring(end, [], 0) == [];
    var a := [Fetch(0, 1)];
    Prepend(s2, Fetch(0, 1), []);
    assert a == [Fetch(0, 1)] + [] && a[1..] == [] && ToldDuring(s2, a, 0) == [];
    var b := [WriteAppend] + a;
    Prepend(s1, WriteAppend, a);
    assert b[1..] == a && ToldDuring(s1, b, 0) == [];
    run := [WriteBegin([y])] + b;
    Prepend(s, WriteBegin([y]), b);
    assert run[1..] == b;
  }

  /** A client that joins between a write's reaching the file and its announcement is sent it twice. */
  lemma JoinMidWrite(k: nat, y: byte) returns (t: Story)
    ensures t.Valid() && t.Found().writing == InFile(0, 1)
    ensures t.R() < |t.End().records| && Registered(t.End(), t.R())
    ensures t.End().archive == [y] && t.Record().sent == [y, y]
  {
    t := MidWrite([], Join(k, 0, 0), y);
  }

  lemma MidWrite(archive: seq<byte>, join: Event, y: byte) returns (t: Story)
    requires archive == [] && join.Join? && join.start == 0 && join.length == 0
    ensures t.Valid() && t.Found().writing == InFile(0, 1)
    ensures t.R() < |t.End().records| && Registered(t.End(), t.R())
    ensures t.End().archive == [y] && t.Record().sent == [y, y]
  {
    var before, s, after, end := MidRun(Made(archive), join, y);
    t := TheStory(archive, before, s, join, after);
  }

  lemma MidRun(s0: State, join: Event, y: byte)
    returns (before: seq<Event>, s: State, after: seq<Event>, end: State)
    requires s0.archive == [] && s0.writing == NoWrite && s0.clients == map[] && s0.records == []
    requires join.Join? && join.start == 0 && join.length == 0
    ensures Legal(s0, before) && s == Run(s0, before) && s.writing == InFile(0, 1) && s.records == []
    ensures Legal(Step(s, join), after) && PruneFree(after) && end == Run(Step(s, join), after)
    ensures end.archive == [y] && |end.records| == 1 && Registered(end, 0) && end.records[0].sent == [y, y]
  {
    before, s := HalfWritten(s0, y);
    JoinsOneByte(s, join);
    after, end := ToldThenFetched(Step(s, join), y);
  }

  lemma TheStory(archive: seq<byte>, before: seq<Event>, s: State, join: Event, after: seq<Event>) returns (t: Story)
    requires Legal(Made(archive), before) && s == Run(Made(archive), before) && SizeStands(s)
    requires join.Join? && Legal(Step(s, join), after) && PruneFree(after)
    ensures t.Valid() && t.Found() == s && t.End() == Run(Step(s, join), after) && t.R() == |s.records|
  {
    t := Story(archive, before, join.socket, join.start, join.length, after);
  }

  lemma HalfWritten(s0: State, y: byte) returns (run: seq<Event>, s: State)
    requires s0.archive == [] && s0.writing == NoWrite && s0.clients == map[] && s0.records == []
    ensures Legal(s0, run) && s == Run(s0, run)
    ensures s.archive == [y] && s.writing == InFile(0, 1) && s.clients == map[] && s.records == []
  {
    s := Step(Step(s0, WriteBegin([y])), WriteAppend);
    assert s.archive == [y];
    run := TwoStepRun(s0, WriteBegin([y]), WriteAppend);
  }

  lemma ToldThenFetched(s: State, y: byte) returns (run: seq<Event>, end: State)
    requires OneByteQueued(s, InFile(0, 1)) && s.archive == [y]
    ensures Legal(s, run) && PruneFree(run) && end == Run(s, run)
    ensures end.archive == [y] && |end.records| == 1 && Registered(end, 0) && end.records[0].sent == [y, y]
  {
    SmallSplit(0, 1);
    var s1 := Step(s, WriteNotify);
    assert s1.records[0].inflight == [FileChunk(0, 1)];
    var s2 := Step(s1, Deliver(0, 0));
    assert s2.records[0].list == [FileChunk(0, 1), FileChunk(0, 1)];
    var fetch;
    fetch, end := TwoFetched(s2, y);
    Prepend(s1, Deliver(0, 0), fetch);
    Prepend(s, WriteNotify, [Deliver(0, 0)] + fetch);
    run := [WriteNotify] + ([Deliver(0, 0)] + fetch);
  }
}
