/** Who is on the radio's map, how clients leave it, and what becomes of one that has left. */
module RadioMap {
  import opened Bytes
  import opened TaskList
  import opened Counting
  import opened Radio
  import opened RadioInvariant
  import opened RadioRuns

  /** The network takes less than the front of a client's queue. */
  predicate FetchFails(s: State, r: nat, accepted: nat) {
    && r < |s.records| && FrontReady(s.records[r].list, |s.archive|)
    && accepted < |Denote(s.records[r].list[..1])|
  }

  /** One socket is off the map, and every other one has what it had. */
  predicate OnlyLeaves<T(==)>(was: map<nat, T>, now: map<nat, T>, socket: nat) {
    socket !in now && SameButOne(was, now, socket)
  }

  predicate SameButOne<T(==)>(was: map<nat, T>, now: map<nat, T>, socket: nat) {
    && (forall k :: k in was && k != socket ==> k in now && now[k] == was[k])
    && (forall k :: k in now && k != socket ==> k in was)
  }

  predicate SocketIs(s: State, r: nat, socket: nat) {
    r < |s.records| && s.records[r].socket == socket
  }

  /** The event takes whoever has the socket off the map. */
  predicate TakesOff(s: State, e: Event, socket: nat) {
    match e
    case HelperTimeout(r, _) => SocketIs(s, r, socket)
    case Fetch(r, accepted) => SocketIs(s, r, socket) && FetchFails(s, r, accepted)
    case CloseCallback(r) => SocketIs(s, r, socket)
    case RemoveClient(k) => k == socket
    case RemoveAllClients => true
    case _ => false
  }

  /** Of all the sockets, an event takes exactly these off the map, and puts on it that of a join, with
      the newest record. */
  lemma StepMap(s: State, e: Event, socket: nat)
    requires Enabled(s, e)
    ensures var was, now := s.clients, Step(s, e).clients;
      if e.Join? && e.socket == socket then
        socket in now && now[socket] == |s.records| && |Step(s, e).records| == |s.records| + 1
      else if TakesOff(s, e, socket) then socket !in now
      else if socket in was then socket in now && now[socket] == was[socket]
      else socket !in now
  {
    if e.Fetch? && FrontReady(s.records[e.r].list, |s.archive|) {
      var c := s.records[e.r];
      assert c.list[..1] == [c.list[0]];
      DenoteOne(c.list[0]);
    }
  }

  /** Throughout the run no event takes the client off the map, and none puts another in its place. */
  ghost predicate StaysOn(s: State, run: seq<Event>, socket: nat)
    requires Legal(s, run)
    decreases |run|
  {
    run != [] ==>
      && !(run[0].Join? && run[0].socket == socket) && !TakesOff(s, run[0], socket)
      && StaysOn(Step(s, run[0]), run[1..], socket)
  }

  lemma StepRegistered(s: State, e: Event, r: nat)
    requires Enabled(s, e) && r < |s.records|
    ensures var s', socket := Step(s, e), s.records[r].socket;
      && r < |s'.records| && s'.records[r].socket == socket
      && (Registered(s', r) <==>
            Registered(s, r) && !(e.Join? && e.socket == socket) && !TakesOff(s, e, socket))
  {
    StepMap(s, e, s.records[r].socket);
    StepSockets(s, e, r);
  }

  lemma StepSockets(s: State, e: Event, r: nat)
    requires Enabled(s, e) && r < |s.records|
    ensures r < |Step(s, e).records| && Step(s, e).records[r].socket == s.records[r].socket
  {
  }

  /** After any run, prunes included, a record is on the map exactly when it was on it and no event has
      taken it off or put another in its place. */
  lemma {:induction false} RegisteredIff(s: State, run: seq<Event>, r: nat)
    requires Legal(s, run) && r < |s.records|
    ensures r < |Run(s, run).records| && Run(s, run).records[r].socket == s.records[r].socket
    ensures Registered(Run(s, run), r) <==> Registered(s, r) && StaysOn(s, run, s.records[r].socket)
    decreases |run|
  {
    if run != [] {
      StepRegistered(s, run[0], r);
      RegisteredIff(Step(s, run[0]), run[1..], r);
    }
  }

  /** A client that joins is on the map, with its own record, until then. */
  lemma {:induction false} JoinedIsOn(t: Story)
    requires t.Valid()
    ensures Registered(t.Entered(), t.R())
    ensures Registered(t.End(), t.R()) <==> StaysOn(t.Entered(), t.after, t.socket)
  {
    JoinRegisters(t.Found(), Join(t.socket, t.start, t.length));
    RegisteredIff(t.Entered(), t.after, t.R());
  }

  lemma JoinRegisters(s: State, join: Event)
    requires join.Join?
    ensures var s' := Step(s, join); Registered(s', |s.records|) && s'.records[|s.records|].socket == join.socket
  {
  }

  // ---------------------------------------------------------------- leaving

  /** What leaving does to the records: nothing when clients are removed; a helper that waited too long
      loses exactly its chunk; a close ends the goroutine. */
  lemma LeavingTouches(s: State, e: Event)
    requires Enabled(s, e) && (e.RemoveClient? || e.RemoveAllClients? || e.HelperTimeout? || e.CloseCallback?)
    ensures var s' := Step(s, e);
      && s'.archive == s.archive && s'.writing == s.writing
      && match e {
           case HelperTimeout(r, k) =>
             var c, c' := s.records[r], s'.records[r];
             && OnlyRecordChanges(s, s', r) && c' == c.(inflight := c'.inflight)
             && |c'.inflight| + 1 == |c.inflight|
             && c.inflight == c'.inflight[..k] + [c.inflight[k]] + c'.inflight[k..]
           case CloseCallback(r) => OnlyRecordChanges(s, s', r) && s'.records[r] == s.records[r].(alive := false)
           case _ => s'.records == s.records
         }
  {
  }

  /** A fetch of a front that cannot be read changes nothing. Any other takes the front off the queue; what
      the network takes of it is sent, and when that is not all of it the goroutine ends. */
  lemma FetchOutcome(s: State, r: nat, accepted: nat)
    requires Enabled(s, Fetch(r, accepted))
    ensures var s' := Step(s, Fetch(r, accepted));
      if !FrontReady(s.records[r].list, |s.archive|) then s' == s
      else
        var c, c', fails := s.records[r], s'.records[r], FetchFails(s, r, accepted);
        && OnlyRecordChanges(s, s', r) && (!fails ==> s'.clients == s.clients)
        && c'.list == c.list[1..] && c'.inflight == c.inflight && c'.socket == c.socket && c'.alive == !fails
        && var front := Render(Denote(c.list[..1]), s.archive);
           c'.sent == c.sent + if fails then front[..accepted] else front
  {
    var c := s.records[r];
    if FrontReady(c.list, |s.archive|) {
      assert c.list[..1] == [c.list[0]];
      DenoteOne(c.list[0]);
    }
  }

  // ---------------------------------------------------------------- off the map

  /** What can still be sent to a client that nobody tells anything: its queue and what is in flight. */
  ghost function Coming(c: RadioClient): multiset<Cell> {
    multiset(Denote(c.list)) + Sum(CellBag, c.inflight)
  }

  /** All that was ever written for a record. */
  function Output(c: RadioClient): seq<byte> {
    c.history.before + c.sent
  }

  /** What comes gets less, and what is written comes from it. */
  ghost predicate Dwindles(c: RadioClient, c': RadioClient) {
    && Coming(c') <= Coming(c)
    && Output(c) <= Output(c') && |Output(c')| + |Coming(c')| <= |Output(c)| + |Coming(c)|
  }

  lemma DeliveredDwindles(c: RadioClient, k: nat)
    requires k < |c.inflight|
    ensures Dwindles(c, Received(c.(inflight := Without(c.inflight, k)), c.inflight[k]))
  {
    TakeOut(CellBag, c.inflight, k);
    AppendedDenotes(c.list, c.inflight[k]);
    assert multiset(Denote(c.list) + Cells(c.inflight[k])) == multiset(Denote(c.list)) + CellBag(c.inflight[k]);
  }

  lemma LostDwindles(c: RadioClient, k: nat)
    requires k < |c.inflight|
    ensures Dwindles(c, c.(inflight := Without(c.inflight, k)))
  {
    TakeOut(CellBag, c.inflight, k);
  }

  lemma SentDwindles(c: RadioClient, archive: seq<byte>, accepted: nat)
    requires FrontReady(c.list, |archive|)
    ensures Dwindles(c, SentFront(c, archive))
    ensures accepted < |FrontBytes(c, archive)| ==> Dwindles(c, BrokenOff(c, archive, accepted))
  {
    assert multiset(Denote(c.list)) == multiset(Cells(c.list[0])) + multiset(Denote(c.list[1..]));
    Associates(c.history.before, c.sent, FrontBytes(c, archive));
    if accepted < |FrontBytes(c, archive)| {
      Associates(c.history.before, c.sent, FrontBytes(c, archive)[..accepted]);
    }
  }

  lemma PrunedDwindles(c: RadioClient, untold: Chunk)
    ensures Dwindles(c, Pruned(c, false, untold))
  {
    assert Output(c) + [] == Output(c);
  }

  lemma SameDwindles(c: RadioClient, c': RadioClient)
    requires c'.list == c.list && c'.inflight == c.inflight && Output(c') == Output(c)
    ensures Dwindles(c, c')
  {
  }

  /** What reaches a record off the map: only what its own goroutine, its helpers and a prune do. */
  lemma OthersPassBy(s: State, e: Event, r: nat)
    requires WellFormed(s) && Enabled(s, e) && r < |s.records| && !Registered(s, r)
    requires !((e.Deliver? || e.HelperTimeout? || e.Fetch?) && e.r == r) && !e.Prune?
    ensures var s' := Step(s, e);
      && r < |s'.records| && s'.records[r].list == s.records[r].list && s'.records[r].inflight == s.records[r].inflight
      && Output(s'.records[r]) == Output(s.records[r])
      && (s'.records[r].alive ==> s.records[r].alive)
  {
  }

  lemma StepDwindles(s: State, e: Event, r: nat)
    requires WellFormed(s) && Enabled(s, e) && r < |s.records| && !Registered(s, r)
    ensures r < |Step(s, e).records| && Dwindles(s.records[r], Step(s, e).records[r])
  {
    var c := s.records[r];
    if e.Prune? {
      PrunedDwindles(c, Untold(s.writing));
    } else if e.Deliver? && e.r == r {
      DeliveredDwindles(c, e.k);
    } else if e.HelperTimeout? && e.r == r {
      LostDwindles(c, e.k);
    } else if e.Fetch? && e.r == r {
      if FrontReady(c.list, |s.archive|) {
        SentDwindles(c, s.archive, e.accepted);
      }
    } else {
      OthersPassBy(s, e, r);
      SameDwindles(c, Step(s, e).records[r]);
    }
  }

  lemma StepWellFormed(s: State, e: Event)
    requires WellFormed(s) && Enabled(s, e)
    ensures WellFormed(Step(s, e))
  {
  }

  lemma StepOffMap(s: State, e: Event, r: nat)
    requires WellFormed(s) && Enabled(s, e) && r < |s.records| && !Registered(s, r)
    ensures var s' := Step(s, e);
      && WellFormed(s') && r < |s'.records| && !Registered(s', r) && ToldBy(s, e, r) == []
      && Dwindles(s.records[r], s'.records[r])
  {
    StepRegistered(s, e, r);
    StepDwindles(s, e, r);
    StepWellFormed(s, e);
  }

  /** Whoever is off the map never comes back, is told nothing in any later run, prunes and joins of the
      same socket included, and is sent no more than was queued for it and in flight. */
  lemma {:induction false} OffMapForGood(s: State, run: seq<Event>, r: nat)
    requires WellFormed(s) && Legal(s, run) && r < |s.records| && !Registered(s, r)
    ensures r < |Run(s, run).records| && !Registered(Run(s, run), r)
    ensures ToldDuring(s, run, r) == [] && Dwindles(s.records[r], Run(s, run).records[r])
    decreases |run|
  {
    if run != [] {
      StepOffMap(s, run[0], r);
      OffMapForGood(Step(s, run[0]), run[1..], r);
    }
  }

  lemma StepEnded(s: State, e: Event, r: nat)
    requires WellFormed(s) && Enabled(s, e) && r < |s.records| && !Registered(s, r) && !s.records[r].alive
    ensures var s' := Step(s, e);
      && WellFormed(s') && r < |s'.records| && !Registered(s', r) && !s'.records[r].alive
      && s'.records[r].list == s.records[r].list && Output(s'.records[r]) == Output(s.records[r])
  {
    StepRegistered(s, e, r);
    StepWellFormed(s, e);
    var c := s.records[r];
    if e.Prune? {
      assert Output(c) + [] == Output(c);
    } else if !e.HelperTimeout? {
      OthersPassBy(s, e, r);
    }
  }

  /** And when its goroutine has ended, nothing is written for it ever again. */
  lemma {:induction false} EndedForGood(s: State, run: seq<Event>, r: nat)
    requires WellFormed(s) && Legal(s, run) && r < |s.records| && !Registered(s, r) && !s.records[r].alive
    ensures var s' := Run(s, run);
      && r < |s'.records| && !Registered(s', r) && !s'.records[r].alive
      && s'.records[r].list == s.records[r].list && Output(s'.records[r]) == Output(s.records[r])
    decreases |run|
  {
    if run != [] {
      StepEnded(s, run[0], r);
      EndedForGood(Step(s, run[0]), run[1..], r);
    }
  }

  /** So it is from the moment a client is kicked, times out, closes or breaks off; and for one whose
      connection closed or broke off nothing is written from then on. */
  lemma {:induction false} LeavesForGood(s: State, e: Event, run: seq<Event>, r: nat)
    requires WellFormed(s) && Enabled(s, e) && Legal(Step(s, e), run) && r < |s.records|
    requires TakesOff(s, e, s.records[r].socket)
    ensures r < |Step(s, e).records|
    ensures var s', end := Step(s, e), Run(Step(s, e), run);
      && r < |end.records| && !Registered(end, r) && ToldDuring(s', run, r) == []
      && Dwindles(s'.records[r], end.records[r])
      && (e == CloseCallback(r) || (e.Fetch? && e.r == r) ==>
            Output(end.records[r]) == Output(s'.records[r]))
  {
    StepRegistered(s, e, r);
    StepWellFormed(s, e);
    OffMapForGood(Step(s, e), run, r);
    if e.CloseCallback? && e.r == r {
      EndedForGood(Step(s, e), run, r);
    } else if e.Fetch? && e.r == r {
      FetchOutcome(s, r, e.accepted);
      EndedForGood(Step(s, e), run, r);
    }
  }
}
