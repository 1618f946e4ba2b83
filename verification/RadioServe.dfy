/** What single steps do to the client they are about, and how a client is served to the end. */
module RadioServe {
  import opened Bytes
  import opened TaskList
  import opened Radio
  import opened RadioInvariant
  import opened RadioRuns
  import opened RadioPrunes
  import opened RadioMap
  import opened RadioCalls

  /** One chunk, whichever arrives, is taken out of what is in flight and added to what the queue stands for. */
  lemma DeliverMoves(s: State, r: nat, k: nat)
    requires Enabled(s, Deliver(r, k))
    ensures var s' := Step(s, Deliver(r, k));
      && OnlyRecordChanges(s, s', r) && s'.clients == s.clients
      && var c, c' := s.records[r], s'.records[r];
         && Denote(c'.list) == Denote(c.list) + Cells(c.inflight[k])
         && |c'.inflight| + 1 == |c.inflight|
         && c.inflight == c'.inflight[..k] + [c.inflight[k]] + c'.inflight[k..]
         && c'.sent == c.sent && c'.alive && c'.socket == c.socket
  {
    AppendedDenotes(s.records[r].list, s.records[r].inflight[k]);
  }

  /** A message for one client goes into its queue at once, before whatever is in flight; the others get
      nothing, and nobody does when the socket is not on the map. */
  lemma SingleSendHands(s: State, data: seq<byte>, socket: nat)
    requires WellFormed(s) && Enabled(s, SingleSend(data, socket))
    ensures var s' := Step(s, SingleSend(data, socket));
      if socket !in s.clients then s' == s
      else
        var r := s.clients[socket];
        && OnlyRecordChanges(s, s', r) && s'.clients == s.clients
        && var c, c' := s.records[r], s'.records[r];
           && Denote(c'.list) == Denote(c.list) + Cells(RAMChunk(data)) && c'.inflight == c.inflight
           && c'.sent == c.sent && c'.alive && c'.socket == socket
  {
    if socket in s.clients {
      AppendedDenotes(s.records[s.clients[socket]].list, RAMChunk(data));
    }
  }

  /** A prune empties the archive and the queues of exactly the clients on the map; what is in flight,
      what is being written and what was already written to the connections stays. */
  lemma PruneClears(s: State)
    ensures var s' := Step(s, Prune);
      && s'.archive == [] && s'.writing == s.writing && s'.clients == s.clients && |s'.records| == |s.records|
      && forall r :: 0 <= r < |s.records| ==>
           var c, c' := s.records[r], s'.records[r];
           && c'.list == (if Registered(s, r) then [] else c.list)
           && c'.inflight == c.inflight && c'.socket == c.socket && c'.alive == c.alive
           && c'.history.before + c'.sent == c.history.before + c.sent
  {
    forall r | 0 <= r < |s.records|
      ensures var c, c' := s.records[r], Step(s, Prune).records[r];
        c'.history.before + c'.sent == c.history.before + c.sent
    {
      var c := s.records[r];
      assert (c.history.before + c.sent) + [] == c.history.before + c.sent;
    }
  }

  /** The announcement of a write puts its range on the way to exactly the clients on the map. */
  lemma NotifyTells(s: State, r: nat)
    requires Enabled(s, WriteNotify) && r < |s.records|
    ensures var s', w := Step(s, WriteNotify), s.writing;
      && s'.archive == s.archive && s'.writing.NoWrite? && s'.clients == s.clients && |s'.records| == |s.records|
      && MoreInFlight(s.records[r], s'.records[r], if Registered(s, r) then [FileChunk(w.oldPos, w.length)] else [])
  {
  }

  // ---------------------------------------------------------------- bystanders

  /** The event is about this record. */
  predicate Concerns(s: State, e: Event, r: nat) {
    match e
    case WriteNotify => Registered(s, r)
    case Send(_) => Registered(s, r)
    case SingleSend(_, socket) => socket in s.clients && s.clients[socket] == r
    case Deliver(i, _) => i == r
    case HelperTimeout(i, _) => i == r
    case Fetch(i, _) => i == r
    case CloseCallback(i) => i == r
    case Prune => true
    case _ => false
  }

  lemma StepPassesBy(s: State, e: Event, r: nat)
    requires Enabled(s, e) && r < |s.records| && !Concerns(s, e, r)
    ensures r < |Step(s, e).records| && MoreInFlight(s.records[r], Step(s, e).records[r], [])
  {
  }

  ghost predicate NothingConcerns(s: State, run: seq<Event>, r: nat)
    requires Legal(s, run)
    decreases |run|
  {
    run != [] ==> !Concerns(s, run[0], r) && NothingConcerns(Step(s, run[0]), run[1..], r)
  }

  /** Whatever else happens, joins, writes and the service of others, a record that no event is about keeps
      its queue, what is in flight to it, and what was sent. */
  lemma {:induction false} RunPassesBy(s: State, run: seq<Event>, r: nat)
    requires Legal(s, run) && r < |s.records| && NothingConcerns(s, run, r)
    ensures r < |Run(s, run).records| && MoreInFlight(s.records[r], Run(s, run).records[r], [])
    decreases |run|
  {
    if run != [] {
      StepPassesBy(s, run[0], r);
      RunPassesBy(Step(s, run[0]), run[1..], r);
    }
  }

  function Deliveries(r: nat, n: nat): seq<Event> {
    if n == 0 then [] else [Deliver(r, 0)] + Deliveries(r, n - 1)
  }

  /** What is in flight to a live client can be delivered, one by one in the order it was started, to the
      end of its queue. */
  lemma {:induction false} DeliveredInOrder(s: State, r: nat)
    requires Sound(s) && r < |s.records| && s.records[r].alive
    ensures Legal(s, Deliveries(r, |s.records[r].inflight|))
    ensures var s' := Run(s, Deliveries(r, |s.records[r].inflight|));
      && Sound(s') && OnlyRecordChanges(s, s', r) && s'.clients == s.clients
      && var c, c' := s.records[r], s'.records[r];
         && Denote(c'.list) == Denote(c.list + c.inflight) && c'.inflight == []
         && c'.sent == c.sent && c'.alive
    decreases |s.records[r].inflight|
  {
    var c := s.records[r];
    if c.inflight == [] {
      assert c.list + c.inflight == c.list;
    } else {
      var e := Deliver(r, 0);
      DeliverMoves(s, r, 0);
      StepSound(s, e);
      var s1 := Step(s, e);
      FirstTaken(c.inflight, s1.records[r].inflight);
      DeliveredInOrder(s1, r);
      Prepend(s, e, Deliveries(r, |c.inflight| - 1));
      OneThenRest(c.list, c.inflight, s1.records[r].list);
    }
  }

  lemma FirstTaken(q: seq<Chunk>, rest: seq<Chunk>)
    requires q != [] && |rest| + 1 == |q| && q == rest[..0] + [q[0]] + rest[0..]
    ensures rest == q[1..]
  {
  }

  lemma OneThenRest(list: seq<Chunk>, q: seq<Chunk>, list': seq<Chunk>)
    requires q != [] && Denote(list') == Denote(list) + Cells(q[0])
    ensures Denote(list' + q[1..]) == Denote(list + q)
  {
    DenoteAppend(list, q);
    DenoteAppend(list', q[1..]);
    Associates(Denote(list), Cells(q[0]), Denote(q[1..]));
  }

  /** From any state of any run, a live client whose queue and chunks in flight lie inside the archive can
      be served to the end: a run that concerns nobody else delivers and sends exactly what they stand for. */
  lemma {:induction false} ServedToTheEnd(s: State, r: nat, accepted: nat) returns (run: seq<Event>)
    requires Sound(s) && r < |s.records| && s.records[r].alive
    requires InRange(Denote(s.records[r].list + s.records[r].inflight), |s.archive|)
    requires |Denote(s.records[r].list + s.records[r].inflight)| <= accepted
    ensures Legal(s, run) && forall i :: 0 <= i < |run| ==>
      (run[i].Deliver? && run[i].r == r) || run[i] == Fetch(r, accepted)
    ensures var s' := Run(s, run);
      && OnlyRecordChanges(s, s', r) && s'.clients == s.clients
      && var c, c' := s.records[r], s'.records[r];
         && c'.list == [] && c'.inflight == []
         && c'.sent == c.sent + Render(Denote(c.list + c.inflight), s.archive)
  {
    var deliveries := Deliveries(r, |s.records[r].inflight|);
    DeliveredInOrder(s, r);
    var s1 := Run(s, deliveries);
    var fetches := Fetches(r, accepted, |s1.records[r].list|);
    FetchesDrain(s1, r, accepted);
    RunOn(s, deliveries, fetches);
    OnlyDeliveries(r, |s.records[r].inflight|);
    OnlyFetches(r, accepted, |s1.records[r].list|);
    run := deliveries + fetches;
  }

  lemma {:induction false} OnlyDeliveries(r: nat, n: nat)
    ensures forall i :: 0 <= i < |Deliveries(r, n)| ==> Deliveries(r, n)[i] == Deliver(r, 0)
  {
    if n != 0 {
      OnlyDeliveries(r, n - 1);
    }
  }

  lemma {:induction false} OnlyFetches(r: nat, accepted: nat, n: nat)
    ensures forall i :: 0 <= i < |Fetches(r, accepted, n)| ==> Fetches(r, accepted, n)[i] == Fetch(r, accepted)
  {
    if n != 0 {
      OnlyFetches(r, accepted, n - 1);
    }
  }
}
