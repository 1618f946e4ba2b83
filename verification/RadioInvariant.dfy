/** What holds in every reachable state of the radio, in any order of delivery. */
module RadioInvariant {
  import opened Bytes
  import opened TaskList
  import opened Counting
  import opened Radio

  // ---------------------------------------------------------------- in every run

  /** The queue is what has been delivered less what has been sent, and the connection got the
      archive's bytes at what has been sent. */
  ghost predicate BookOk(archive: seq<byte>, c: RadioClient) {
    && c.history.cells + Denote(c.list) == Denote(c.history.delivered)
    && InRange(c.history.cells, |archive|)
    && c.sent == Render(c.history.cells, archive)
  }

  function One(b: bool): nat {
    if b then 1 else 0
  }

  ghost predicate OwedAt(archive: seq<byte>, writing: Writing, h: History, p: int) {
    Count(h.due, p) + One(Covers(Untold(writing), p)) + Count(h.missing, p)
    == One(h.base <= p < |archive|) + Count(h.extra, p)
  }

  /** The chunks owed are those delivered and those in flight. With a write not yet announced, they
      name each archive position from the base on once, less what is missing and besides the extra. */
  ghost predicate DueOk(archive: seq<byte>, writing: Writing, c: RadioClient) {
    && multiset(c.history.delivered + c.inflight) == multiset(c.history.due)
    && c.history.base <= |archive|
    && forall p: int :: OwedAt(archive, writing, c.history, p)
  }

  /** A registered socket names a live record of its own. */
  ghost predicate WellFormed(s: State) {
    forall k :: k in s.clients ==>
      s.clients[k] < |s.records| && s.records[s.clients[k]].socket == k && s.records[s.clients[k]].alive
  }

  ghost predicate RecordOk(s: State, r: nat)
    requires r < |s.records|
  {
    var c := s.records[r];
    && Compact(c.list)
    && (c.alive ==> BookOk(s.archive, c))
    && (Registered(s, r) ==> DueOk(s.archive, s.writing, c))
  }

  /** Holds after every legal run, whatever the joins ask for and whenever the prunes come. */
  ghost predicate Sound(s: State) {
    WellFormed(s) && forall r :: 0 <= r < |s.records| ==> RecordOk(s, r)
  }

  // ---------------------------------------------------------------- one record, one step

  lemma NewClientBook(s: State, socket: nat, start: int, length: int)
    ensures BookOk(s.archive, NewClient(s, socket, start, length))
    ensures Compact(NewClient(s, socket, start, length).list)
  {
    var startPos, n := JoinStart(|s.archive|, start), JoinLength(|s.archive|, start, length);
    SplitPartitions(startPos, n);
    DenoteOne(FileChunk(startPos, n));
    assert Render([], s.archive) == [];
  }

  lemma NewClientDue(s: State, socket: nat, start: int, length: int)
    ensures DueOk(s.archive, s.writing, NewClient(s, socket, start, length))
  {
    var c, size := NewClient(s, socket, start, length), |s.archive|;
    var startPos, n := JoinStart(size, start), JoinLength(size, start, length);
    forall p: int ensures OwedAt(s.archive, s.writing, c.history, p) {
      CountOne(FileChunk(startPos, n), p);
      CountTwo(Untold(s.writing), Overshoot(size, start, length), p);
    }
  }

  lemma CountTwo(a: Chunk, b: Chunk, p: int)
    ensures Count([a, b], p) == One(Covers(a, p)) + One(Covers(b, p))
  {
    CountOne(a, p);
    CountAppend([a], b, p);
    assert [a, b] == [a] + [b];
  }

  /** Growing the archive keeps what was sent. */
  lemma GrowKeepsBook(archive: seq<byte>, more: seq<byte>, c: RadioClient)
    requires BookOk(archive, c)
    ensures BookOk(archive + more, c)
  {
    RenderGrows(c.history.cells, archive, more);
  }

  lemma {:induction false} ReceivedKeepsBook(archive: seq<byte>, c: RadioClient, chunk: Chunk)
    requires BookOk(archive, c)
    ensures BookOk(archive, Received(c, chunk))
  {
    AppendedDenotes(c.list, chunk);
    DenoteAppend(c.history.delivered, [chunk]);
    DenoteOne(chunk);
    Associates(c.history.cells, Denote(c.list), Cells(chunk));
  }

  lemma SentKeepsBook(archive: seq<byte>, c: RadioClient)
    requires BookOk(archive, c) && FrontReady(c.list, |archive|)
    ensures BookOk(archive, SentFront(c, archive))
  {
    RenderAppend(c.history.cells, Cells(c.list[0]), archive);
    Associates(c.history.cells, Cells(c.list[0]), Denote(c.list[1..]));
  }

  lemma ToldKeepsDue(archive: seq<byte>, writing: Writing, c: RadioClient, chunk: Chunk)
    requires DueOk(archive, writing, c)
    requires chunk.RAMChunk? || chunk == Untold(writing)
    ensures DueOk(archive, if chunk.RAMChunk? then writing else NoWrite, Told(c, chunk))
  {
    var after := if chunk.RAMChunk? then writing else NoWrite;
    var c' := Told(c, chunk);
    assert c'.history.delivered + c'.inflight == (c.history.delivered + c.inflight) + [chunk];
    forall p: int ensures OwedAt(archive, after, c'.history, p) {
      assert OwedAt(archive, writing, c.history, p);
      CountAppend(c.history.due, chunk, p);
    }
  }

  lemma AppendKeepsDue(archive: seq<byte>, w: Writing, c: RadioClient)
    requires w.SizeRead? && DueOk(archive, w, c)
    ensures var n, length := |archive|, |w.data|;
      DueOk(archive + w.data, InFile(w.oldPos, length),
            if w.oldPos == n then c else Misplaced(c, FileChunk(w.oldPos, length), FileChunk(n, length)))
  {
    var n, length := |archive|, |w.data|;
    var announced, written := FileChunk(w.oldPos, length), FileChunk(n, length);
    var c' := if w.oldPos == n then c else Misplaced(c, announced, written);
    forall p: int ensures OwedAt(archive + w.data, InFile(w.oldPos, length), c'.history, p) {
      assert OwedAt(archive, w, c.history, p);
      CountAppend(c.history.extra, announced, p);
      CountAppend(c.history.missing, written, p);
    }
  }

  lemma SameDue(archive: seq<byte>, w: Writing, c: RadioClient, w': Writing, c': RadioClient)
    requires DueOk(archive, w, c) && Untold(w') == Untold(w)
    requires multiset(c'.history.delivered + c'.inflight) == multiset(c.history.delivered + c.inflight)
    requires c'.history == c.history.(delivered := c'.history.delivered, cells := c'.history.cells)
    ensures DueOk(archive, w', c')
  {
    forall p: int ensures OwedAt(archive, w', c'.history, p) {
      assert OwedAt(archive, w, c.history, p);
    }
  }

  lemma HandedOverKeepsDue(archive: seq<byte>, writing: Writing, c: RadioClient, data: seq<byte>)
    requires DueOk(archive, writing, c)
    ensures DueOk(archive, writing,
      Received(c.(history := c.history.(due := c.history.due + [RAMChunk(data)])), RAMChunk(data)))
  {
    var chunk := RAMChunk(data);
    var c' := Received(c.(history := c.history.(due := c.history.due + [chunk])), chunk);
    assert multiset((c.history.delivered + [chunk]) + c.inflight)
        == multiset(c.history.delivered + c.inflight) + multiset{chunk};
    forall p: int ensures OwedAt(archive, writing, c'.history, p) {
      assert OwedAt(archive, writing, c.history, p);
      CountAppend(c.history.due, chunk, p);
    }
  }

  lemma PrunedKeeps(c: RadioClient, registered: bool, writing: Writing)
    requires Compact(c.list)
    ensures var c' := Pruned(c, registered, Untold(writing));
      Compact(c'.list) && BookOk([], c') && DueOk([], writing, c')
  {
    var c' := Pruned(c, registered, Untold(writing));
    assert [] + Denote(c'.list) == Denote(c'.list);
    assert Render([], []) == [];
    forall p: int ensures OwedAt([], writing, c'.history, p) {
      CountAppend(c'.list + c.inflight, Untold(writing), p);
      assert Count([], p) == 0;
    }
  }

  // ---------------------------------------------------------------- every record, one step

  lemma JoinSound(s: State, socket: nat, start: int, length: int)
    requires Sound(s)
    ensures Sound(Step(s, Join(socket, start, length)))
  {
    var s' := Step(s, Join(socket, start, length));
    NewClientBook(s, socket, start, length);
    NewClientDue(s, socket, start, length);
    forall r | 0 <= r < |s'.records| ensures RecordOk(s', r) {
      if r < |s.records| {
        assert RecordOk(s, r);
        assert Registered(s', r) ==> Registered(s, r);
      }
    }
  }

  lemma WriteBeginSound(s: State, data: seq<byte>)
    requires Sound(s) && s.writing.NoWrite?
    ensures Sound(Step(s, WriteBegin(data)))
  {
    var s' := Step(s, WriteBegin(data));
    forall r | 0 <= r < |s'.records| ensures RecordOk(s', r) {
      assert RecordOk(s, r) && (Registered(s', r) <==> Registered(s, r));
      if Registered(s, r) {
        SameDue(s.archive, s.writing, s.records[r], s'.writing, s.records[r]);
      }
    }
  }

  lemma WriteAppendSound(s: State)
    requires Sound(s) && s.writing.SizeRead?
    ensures Sound(Step(s, WriteAppend))
  {
    var s' := Step(s, WriteAppend);
    forall r | 0 <= r < |s'.records| ensures RecordOk(s', r) {
      var c := s.records[r];
      assert RecordOk(s, r) && (Registered(s', r) <==> Registered(s, r));
      if c.alive {
        GrowKeepsBook(s.archive, s.writing.data, c);
      }
      if Registered(s, r) {
        AppendKeepsDue(s.archive, s.writing, c);
      }
    }
  }

  lemma BroadcastSound(s: State, chunk: Chunk)
    requires Sound(s)
    requires chunk.RAMChunk? || (s.writing.InFile? && chunk == Untold(s.writing))
    ensures Sound(Broadcast(s, chunk).(writing := if chunk.RAMChunk? then s.writing else NoWrite))
  {
    var s' := Broadcast(s, chunk).(writing := if chunk.RAMChunk? then s.writing else NoWrite);
    forall r | 0 <= r < |s'.records| ensures RecordOk(s', r) {
      var c := s.records[r];
      assert RecordOk(s, r) && (Registered(s', r) <==> Registered(s, r));
      if Registered(s, r) {
        ToldKeepsDue(s.archive, s.writing, c, chunk);
      }
    }
  }

  lemma SingleSendSound(s: State, data: seq<byte>, socket: nat)
    requires Sound(s) && s.writing.NoWrite?
    ensures Sound(Step(s, SingleSend(data, socket)))
  {
    var s' := Step(s, SingleSend(data, socket));
    forall r | 0 <= r < |s'.records| ensures RecordOk(s', r) {
      var c := s.records[r];
      assert RecordOk(s, r) && (Registered(s', r) <==> Registered(s, r));
      if socket in s.clients && r == s.clients[socket] {
        var owed := c.(history := c.history.(due := c.history.due + [RAMChunk(data)]));
        ReceivedKeepsBook(s.archive, owed, RAMChunk(data));
        AppendedCompact(c.list, RAMChunk(data));
        HandedOverKeepsDue(s.archive, s.writing, c, data);
      }
    }
  }

  lemma DeliverSound(s: State, r: nat, k: nat)
    requires Sound(s) && Enabled(s, Deliver(r, k))
    ensures Sound(Step(s, Deliver(r, k)))
  {
    var s' := Step(s, Deliver(r, k));
    forall i | 0 <= i < |s'.records| ensures RecordOk(s', i) {
      var c := s.records[i];
      assert RecordOk(s, i) && (Registered(s', i) <==> Registered(s, i));
      if i == r {
        ReceivedKeepsBook(s.archive, c.(inflight := Without(c.inflight, k)), c.inflight[k]);
        AppendedCompact(c.list, c.inflight[k]);
        if Registered(s, r) {
          WithoutPermutes(c.history.delivered, c.inflight, k);
          SameDue(s.archive, s.writing, c, s.writing, s'.records[r]);
        }
      }
    }
  }

  lemma FetchSound(s: State, r: nat, accepted: nat)
    requires Sound(s) && Enabled(s, Fetch(r, accepted))
    ensures Sound(Step(s, Fetch(r, accepted)))
  {
    var s' := Step(s, Fetch(r, accepted));
    forall i | 0 <= i < |s'.records| ensures RecordOk(s', i) {
      var c := s.records[i];
      assert RecordOk(s, i) && (Registered(s', i) ==> Registered(s, i));
      if i == r && FrontReady(c.list, |s.archive|) {
        CompactTail(c.list);
        SentKeepsBook(s.archive, c);
        if Registered(s', r) {
          SameDue(s.archive, s.writing, c, s.writing, s'.records[r]);
        }
      }
    }
  }

  /** Steps that only take clients off the map, with at most one record losing a helper or its life. */
  lemma LeaveSound(s: State, e: Event)
    requires Sound(s) && Enabled(s, e)
    requires e.HelperTimeout? || e.CloseCallback? || e.RemoveClient? || e.RemoveAllClients?
    ensures Sound(Step(s, e))
  {
    var s' := Step(s, e);
    forall i | 0 <= i < |s'.records| ensures RecordOk(s', i) {
      assert RecordOk(s, i);
      assert Registered(s', i) ==> Registered(s, i) && s'.records[i] == s.records[i];
    }
  }

  lemma PruneSound(s: State)
    requires Sound(s)
    ensures Sound(Step(s, Prune))
  {
    var s' := Step(s, Prune);
    forall r | 0 <= r < |s'.records| ensures RecordOk(s', r) {
      assert RecordOk(s, r);
      PrunedKeeps(s.records[r], Registered(s, r), s.writing);
    }
  }

  lemma StepSound(s: State, e: Event)
    requires Sound(s) && Enabled(s, e)
    ensures Sound(Step(s, e))
  {
    match e {
      case Join(socket, start, length) => JoinSound(s, socket, start, length);
      case WriteBegin(data) => WriteBeginSound(s, data);
      case WriteAppend => WriteAppendSound(s);
      case WriteNotify => BroadcastSound(s, Untold(s.writing));
      case Send(data) => BroadcastSound(s, RAMChunk(data));
      case SingleSend(data, socket) => SingleSendSound(s, data, socket);
      case Deliver(r, k) => DeliverSound(s, r, k);
      case Fetch(r, accepted) => FetchSound(s, r, accepted);
      case Prune => PruneSound(s);
      case _ => LeaveSound(s, e);
    }
  }

  lemma {:induction false} RunSound(s: State, run: seq<Event>)
    requires Sound(s) && Legal(s, run)
    ensures Sound(Run(s, run))
    decreases |run|
  {
    if run != [] {
      StepSound(s, run[0]);
      RunSound(Step(s, run[0]), run[1..]);
    }
  }

  lemma MadeIsSound(archive: seq<byte>)
    ensures Sound(Made(archive))
  {
  }

  // ---------------------------------------------------------------- inside the archive

  ghost predicate ChunkInside(c: Chunk, n: nat) {
    c.FileChunk? ==> c.length == 0 || (0 <= c.start && c.start + c.length <= n)
  }

  ghost predicate AllInside(q: seq<Chunk>, n: nat) {
    forall i :: 0 <= i < |q| ==> ChunkInside(q[i], n)
  }

  lemma {:induction false} InsideDenotes(q: seq<Chunk>, n: nat)
    requires AllInside(q, n)
    ensures InRange(Denote(q), n)
  {
    if q != [] {
      InsideDenotes(q[1..], n);
    }
  }

  /** The write in progress is at the end of the archive. */
  predicate InPlace(w: Writing, n: nat) {
    match w
    case NoWrite => true
    case SizeRead(oldPos, _) => oldPos == n
    case InFile(oldPos, length) => oldPos + length == n
  }

  /** Nothing on its way to a live client points outside the archive, and nothing that has reached it
      either, unless it joined outside and no prune has come since. */
  ghost predicate ClientInside(c: RadioClient, n: nat) {
    c.alive ==>
      && AllInside(c.inflight, n)
      && (c.history.tracked ==> 0 <= c.history.base <= n && AllInside(c.history.delivered, n))
  }

  ghost predicate Inside(s: State) {
    && InPlace(s.writing, |s.archive|)
    && forall r :: 0 <= r < |s.records| ==> ClientInside(s.records[r], |s.archive|)
  }

  /** One record at a time: no step but a prune takes it outside the archive. */
  lemma StepKeepsInside(s: State, e: Event, r: nat)
    requires WellFormed(s) && Enabled(s, e) && !e.Prune? && r < |s.records|
    requires InPlace(s.writing, |s.archive|) && ClientInside(s.records[r], |s.archive|)
    ensures var s' := Step(s, e);
      InPlace(s'.writing, |s'.archive|) && r < |s'.records| && ClientInside(s'.records[r], |s'.archive|)
  {
    match e {
      case WriteNotify => BroadcastKeepsInside(s, Untold(s.writing), r);
      case Send(data) => BroadcastKeepsInside(s, RAMChunk(data), r);
      case _ => OtherKeepsInside(s, e, r);
    }
  }

  lemma BroadcastKeepsInside(s: State, chunk: Chunk, r: nat)
    requires r < |s.records| && ClientInside(s.records[r], |s.archive|) && ChunkInside(chunk, |s.archive|)
    ensures ClientInside(Broadcast(s, chunk).records[r], |s.archive|)
  {
  }

  lemma OtherKeepsInside(s: State, e: Event, r: nat)
    requires WellFormed(s) && Enabled(s, e) && !e.Prune? && !e.WriteNotify? && !e.Send? && r < |s.records|
    requires InPlace(s.writing, |s.archive|) && ClientInside(s.records[r], |s.archive|)
    ensures var s' := Step(s, e);
      InPlace(s'.writing, |s'.archive|) && r < |s'.records| && ClientInside(s'.records[r], |s'.archive|)
  {
  }

  lemma NewClientInside(s: State, socket: nat, start: int, length: int)
    ensures ClientInside(NewClient(s, socket, start, length), |s.archive|)
  {
  }

  /** No range of the archive is among the chunks. */
  predicate NoRange(q: seq<Chunk>) {
    forall i :: 0 <= i < |q| && q[i].FileChunk? ==> q[i].length == 0
  }

  /** A prune leaves this record nothing of the old archive: no range is on its way to it, nor in its
      queue when it is off the map. */
  predicate QuietFor(s: State, r: nat)
    requires r < |s.records|
  {
    s.records[r].alive ==> NoRange(s.records[r].inflight) && (Registered(s, r) || NoRange(s.records[r].list))
  }

  /** A write that has begun starts at zero, with nothing in the file. */
  predicate QuietWrite(w: Writing) {
    match w
    case NoWrite => true
    case SizeRead(oldPos, _) => oldPos == 0
    case InFile(oldPos, length) => oldPos == length == 0
  }

  predicate Quiet(s: State) {
    QuietWrite(s.writing) && forall r :: 0 <= r < |s.records| ==> QuietFor(s, r)
  }

  /** What is queued and in flight, to whomever, and what is being written, is inside the archive. */
  ghost predicate NothingStale(s: State) {
    && InPlace(s.writing, |s.archive|)
    && forall r :: 0 <= r < |s.records| && s.records[r].alive ==>
         AllInside(s.records[r].list, |s.archive|) && AllInside(s.records[r].inflight, |s.archive|)
  }

  lemma InsideEmpty(q: seq<Chunk>)
    ensures AllInside(q, 0) <==> NoRange(q)
  {
  }

  /** One record: what the prune leaves it is inside the empty archive exactly when it was quiet for it. */
  lemma PrunedInsideIff(s: State, r: nat)
    requires r < |s.records|
    ensures var c := Step(s, Prune).records[r];
      && (ClientInside(c, 0) <==> QuietFor(s, r))
      && (c.alive ==> (AllInside(c.list, 0) && AllInside(c.inflight, 0) <==> QuietFor(s, r)))
  {
    InsideEmpty(s.records[r].inflight);
    InsideEmpty(s.records[r].list);
  }

  /** A prune is safe exactly at a quiet moment: otherwise a range of the archive it throws away
      survives it, in flight, in the queue of a client off the map, or in the write in progress. */
  lemma PruneSafeIff(s: State)
    ensures NothingStale(Step(s, Prune)) <==> Quiet(s)
    ensures Inside(Step(s, Prune)) <==> Quiet(s)
  {
    var s' := Step(s, Prune);
    forall r | 0 <= r < |s.records|
      ensures ClientInside(s'.records[r], 0) <==> QuietFor(s, r)
      ensures s'.records[r].alive ==>
        (AllInside(s'.records[r].list, 0) && AllInside(s'.records[r].inflight, 0) <==> QuietFor(s, r))
    {
      PrunedInsideIff(s, r);
    }
    assert forall r :: 0 <= r < |s.records| && !s'.records[r].alive ==> QuietFor(s, r);
  }

  ghost predicate Inv(s: State) {
    Sound(s) && Inside(s)
  }

  lemma StepKeeps(s: State, e: Event)
    requires Inv(s) && Enabled(s, e) && (e.Prune? ==> Quiet(s))
    ensures Inv(Step(s, e))
  {
    StepSound(s, e);
    if e.Prune? {
      PruneSafeIff(s);
    } else {
      var s' := Step(s, e);
      forall r | 0 <= r < |s'.records| ensures ClientInside(s'.records[r], |s'.archive|) {
        if r < |s.records| {
          StepKeepsInside(s, e, r);
        } else {
          NewClientInside(s, e.socket, e.start, e.length);
        }
      }
      StepKeepsPlace(s, e);
    }
  }

  lemma StepKeepsPlace(s: State, e: Event)
    requires InPlace(s.writing, |s.archive|) && Enabled(s, e) && !e.Prune?
    ensures InPlace(Step(s, e).writing, |Step(s, e).archive|)
  {
  }

  /** A run in which every prune comes at a quiet moment. */
  ghost predicate QuietPrunes(s: State, run: seq<Event>)
    requires Legal(s, run)
    decreases |run|
  {
    run != [] ==> (run[0].Prune? ==> Quiet(s)) && QuietPrunes(Step(s, run[0]), run[1..])
  }

  lemma {:induction false} RunKeeps(s: State, run: seq<Event>)
    requires Inv(s) && Legal(s, run) && QuietPrunes(s, run)
    ensures Inv(Run(s, run))
    decreases |run|
  {
    if run != [] {
      StepKeeps(s, run[0]);
      RunKeeps(Step(s, run[0]), run[1..]);
    }
  }

  lemma MadeIsOk(archive: seq<byte>)
    ensures Inv(Made(archive))
  {
  }

  lemma Prepend(s: State, e: Event, run: seq<Event>)
    requires Enabled(s, e) && Legal(Step(s, e), run)
    ensures Legal(s, [e] + run) && Run(s, [e] + run) == Run(Step(s, e), run)
  {
    assert ([e] + run)[1..] == run;
  }
}
