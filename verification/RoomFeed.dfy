/** From what clients upload to a room to what the radio makes of it: src/server/pkg/Room/Room.go. */
module RoomFeed {
  import opened Bytes
  import opened Framing
  import opened SocketReader
  import opened TaskList
  import opened Radio
  import opened RadioInvariant
  import opened RadioRuns
  import opened RadioCalls
  import opened RadioMap
  import opened RadioPrunes
  import opened EndToEnd
  import opened FrameCalls
  import opened Room

  /** A package from a client's reader; whether the client is then a user of the room; and whether, when it
      is a command, the room finds a mistake in it. */
  datatype Upload = Upload(package: Package, hasUser: bool, mistaken: bool)

  /** A drawing or a message from a client that is no user. */
  predicate Refused(u: Upload) {
    !u.hasUser && (u.package.packType == DATA || u.package.packType == MESSAGE)
  }

  /** What the radio is asked to do for a package. */
  function Answer(client: nat, u: Upload): seq<Event> {
    if u.package.packType == COMMAND then (if u.mistaken then [RemoveClient(client)] else [])
    else
      match PartFor(u.package, u.hasUser)
      case None => []
      case Some(part) => [part]
  }

  function Answers(client: nat, ups: seq<Upload>): seq<Event> {
    if ups == [] then [] else Answer(client, ups[0]) + Answers(client, ups[1..])
  }

  lemma {:induction false} AnswersAppend(client: nat, ups: seq<Upload>, u: Upload)
    ensures Answers(client, ups + [u]) == Answers(client, ups) + Answer(client, u)
  {
    if ups == [] {
      assert ups + [u] == [u] && Answers(client, [u][1..]) == [];
    } else {
      assert (ups + [u])[1..] == ups[1..] + [u];
      AnswersAppend(client, ups[1..], u);
      Associates(Answer(client, ups[0]), Answers(client, ups[1..]), Answer(client, u));
    }
  }

  lemma AnswersUpTo(client: nat, ups: seq<Upload>, n: nat)
    requires n < |ups|
    ensures Answers(client, ups[..n + 1]) == Answers(client, ups[..n]) + Answer(client, ups[n])
  {
    assert ups[..n + 1] == ups[..n] + [ups[n]];
    AnswersAppend(client, ups[..n], ups[n]);
  }

  /** The loop that serves one client, over what its reader delivers: the packages are answered in order up
      to the first that is refused, which removes the client and ends the loop. */
  method ProcessClient(client: nat, uploads: seq<Upload>) returns (asked: seq<Event>, served: nat)
    ensures served <= |uploads| && forall i :: 0 <= i < served ==> !Refused(uploads[i])
    ensures served < |uploads| ==> Refused(uploads[served])
    ensures asked == Answers(client, uploads[..served]) + if served < |uploads| then [RemoveClient(client)] else []
  {
    asked, served := [], 0;
    while served < |uploads|
      invariant served <= |uploads| && forall i :: 0 <= i < served ==> !Refused(uploads[i])
      invariant asked == Answers(client, uploads[..served])
    {
      var u := uploads[served];
      AnswersUpTo(client, uploads, served);
      if u.package.packType == COMMAND {
        if u.mistaken {
          asked := asked + [RemoveClient(client)];
        }
      } else if u.package.packType == DATA {
        if !u.hasUser {
          asked := asked + [RemoveClient(client)];
          return;
        }
        asked := asked + [WriteBegin(u.package.repacked)];
      } else if u.package.packType == MESSAGE {
        if !u.hasUser {
          asked := asked + [RemoveClient(client)];
          return;
        }
        asked := asked + [Send(u.package.repacked)];
      }
      served := served + 1;
    }
    assert uploads[..served] == uploads;
  }

  // ---------------------------------------------------------------- what a list of uploads amounts to

  /** The drawings of users: packages of type 2. */
  function Drawings(ups: seq<Upload>): seq<seq<byte>> {
    if ups == [] then []
    else (if ups[0].hasUser && ups[0].package.packType == 2 then [ups[0].package.repacked] else []) + Drawings(ups[1..])
  }

  /** The drawings and the messages, type 3, of users. */
  function Shared(ups: seq<Upload>): seq<seq<byte>> {
    if ups == [] then []
    else
      (if ups[0].hasUser && (ups[0].package.packType == 2 || ups[0].package.packType == 3)
       then [ups[0].package.repacked] else []) + Shared(ups[1..])
  }

  /** The same as chunks: each drawing a range behind the one before, each message in memory. */
  function Ranges(ups: seq<Upload>, pos: nat): seq<Chunk> {
    if ups == [] then []
    else
      var p := ups[0].package;
      if ups[0].hasUser && p.packType == 2 then
        [FileChunk(pos, |p.repacked|)] + Ranges(ups[1..], pos + |p.repacked|)
      else
        (if ups[0].hasUser && p.packType == 3 then [RAMChunk(p.repacked)] else []) + Ranges(ups[1..], pos)
  }

  /** The calls of a run that a room makes for its clients' packages. */
  function Fed(run: seq<Event>): seq<Event> {
    if run == [] then []
    else (if run[0].WriteBegin? || run[0].Send? then [run[0]] else []) + Fed(run[1..])
  }

  lemma {:induction false} FedAppend(a: seq<Event>, b: seq<Event>)
    ensures Fed(a + b) == Fed(a) + Fed(b)
  {
    if a == [] {
      assert a + b == b;
    } else {
      assert (a + b)[1..] == a[1..] + b;
      FedAppend(a[1..], b);
      Associates(if a[0].WriteBegin? || a[0].Send? then [a[0]] else [], Fed(a[1..]), Fed(b));
    }
  }

  ghost predicate NoReplyTo(run: seq<Event>, socket: nat) {
    forall i :: 0 <= i < |run| ==> !(run[i].SingleSend? && run[i].socket == socket)
  }

  /** The other events of a run add nothing to what it writes and hands over. */
  lemma {:induction false} OnlyFedCounts(run: seq<Event>, pos: nat, socket: nat)
    requires NoReplyTo(run, socket)
    ensures Begun(run) == Begun(Fed(run)) && Handed(run, socket) == Handed(Fed(run), socket)
    ensures Called(run, pos, socket) == Called(Fed(run), pos, socket)
  {
    if run != [] {
      var e, later := run[0], run[1..];
      OnlyFedCounts(later, if e.WriteBegin? then pos + |e.data| else pos, socket);
      assert Fed(run) == if e.WriteBegin? || e.Send? then [e] + Fed(later) else [] + Fed(later);
      assert [] + Fed(later) == Fed(later);
      if e.WriteBegin? || e.Send? {
        assert ([e] + Fed(later))[1..] == Fed(later);
      }
      NoneInFront(Begun(later));
      NoneInFront(Handed(later, socket));
      NoneInFront(Called(later, pos, socket));
    }
  }

  lemma FedAnswer(client: nat, u: Upload)
    ensures Fed(Answer(client, u))
         == if u.hasUser && u.package.packType == 2 then [WriteBegin(u.package.repacked)]
            else if u.hasUser && u.package.packType == 3 then [Send(u.package.repacked)]
            else []
  {
    assert forall e: Event :: [e][1..] == [];
  }

  /** The calls for a list of uploads: those for the first, which are one or none, and the later ones. */
  lemma FedUnfold(client: nat, ups: seq<Upload>)
    requires ups != []
    ensures var first, rest := Fed(Answer(client, ups[0])), Fed(Answers(client, ups[1..]));
      && Fed(Answers(client, ups)) == first + rest && |first| <= 1
      && (first == [] ==> first + rest == rest) && (first != [] ==> (first + rest)[1..] == rest)
  {
    FedAppend(Answer(client, ups[0]), Answers(client, ups[1..]));
    FedAnswer(client, ups[0]);
  }

  /** The calls for a list of uploads write the drawings, ... */
  lemma {:induction false} FeedWrites(client: nat, ups: seq<Upload>)
    ensures Begun(Fed(Answers(client, ups))) == Drawings(ups)
  {
    if ups != [] {
      FeedWrites(client, ups[1..]);
      FedUnfold(client, ups);
      FedAnswer(client, ups[0]);
      NoneInFront(Drawings(ups[1..]));
    }
  }

  /** ... hand over drawings and messages, ... */
  lemma {:induction false} FeedHands(client: nat, ups: seq<Upload>, socket: nat)
    ensures Handed(Fed(Answers(client, ups)), socket) == Shared(ups)
  {
    if ups != [] {
      FeedHands(client, ups[1..], socket);
      FedUnfold(client, ups);
      FedAnswer(client, ups[0]);
      NoneInFront(Shared(ups[1..]));
    }
  }

  /** ... and announce their ranges and the messages. */
  lemma {:induction false} FeedAnnounces(client: nat, ups: seq<Upload>, pos: nat, socket: nat)
    ensures Called(Fed(Answers(client, ups)), pos, socket) == Ranges(ups, pos)
  {
    if ups != [] {
      var u, rest := ups[0], Fed(Answers(client, ups[1..]));
      FeedAnnounces(
        client, ups[1..], if u.hasUser && u.package.packType == 2 then pos + |u.package.repacked| else pos, socket);
      FedUnfold(client, ups);
      FedAnswer(client, u);
      if u.hasUser && u.package.packType == 2 {
        CalledFront(WriteBegin(u.package.repacked), rest, pos, socket);
      } else if u.hasUser && u.package.packType == 3 {
        CalledFront(Send(u.package.repacked), rest, pos, socket);
      } else {
        NoneInFront(Ranges(ups[1..], pos));
      }
    }
  }

  // ---------------------------------------------------------------- what the radio makes of them

  /** Any run without a prune that takes the packages of some uploads in this order, from whichever clients
      and with whatever else in between: the archive grows by exactly the drawings, in order, and a client
      that is registered to the end comes to be owed exactly their ranges and the messages, in order; what
      has reached its queue and what is in flight is what it is owed. */
  lemma {:induction false} UploadsLand(s: State, run: seq<Event>, client: nat, ups: seq<Upload>, r: nat)
    requires Sound(s) && Legal(s, run) && PruneFree(run) && r < |s.records|
    requires s.writing.NoWrite? && Run(s, run).writing.NoWrite?
    requires Fed(run) == Fed(Answers(client, ups)) && NoReplyTo(run, s.records[r].socket)
    ensures var s' := Run(s, run);
      && s'.archive == s.archive + Concat(Drawings(ups))
      && r < |s'.records|
      && (Registered(s', r) ==>
            && s'.records[r].history.due == s.records[r].history.due + Ranges(ups, |s.archive|)
            && multiset(s'.records[r].history.delivered + s'.records[r].inflight)
               == multiset(s'.records[r].history.due))
  {
    var socket := s.records[r].socket;
    OnlyFedCounts(run, |s.archive|, socket);
    FeedWrites(client, ups);
    FeedAnnounces(client, ups, |s.archive|, socket);
    AllWritten(s, run);
    RunContinues(s, run, r);
    var s' := Run(s, run);
    if Registered(s', r) {
      ToldBetween(s, run, r);
      assert RecordOk(s', r);
    }
  }

  /** The calls, each carried out before the next. */
  function Played(calls: seq<Event>): seq<Event> {
    if calls == [] then []
    else (if calls[0].WriteBegin? then WriteRun(calls[0].data) else [calls[0]]) + Played(calls[1..])
  }

  /** The state has these drawings more, and every client on the map but this one has these chunks more on
      the way to it; nobody off the map has. */
  ghost predicate Landed(s: State, s': State, client: nat, drawings: seq<byte>, chunks: seq<Chunk>) {
    && s'.archive == s.archive + drawings && s'.writing.NoWrite? && |s'.records| == |s.records|
    && SameButOne(s.clients, s'.clients, client)
    && (client in s'.clients ==> client in s.clients && s'.clients[client] == s.clients[client])
    && forall r :: 0 <= r < |s.records| ==>
         && (Registered(s, r) && s.records[r].socket != client ==> MoreInFlight(s.records[r], s'.records[r], chunks))
         && (!Registered(s, r) ==> MoreInFlight(s.records[r], s'.records[r], []))
  }

  lemma LandedOn(
    s: State, mid: State, end: State, client: nat, a: seq<byte>, b: seq<byte>, q: seq<Chunk>, w: seq<Chunk>)
    requires Landed(s, mid, client, a, q) && Landed(mid, end, client, b, w)
    ensures Landed(s, end, client, a + b, q + w)
  {
    Associates(s.archive, a, b);
    forall r | 0 <= r < |s.records|
      ensures Registered(s, r) && s.records[r].socket != client ==> MoreInFlight(s.records[r], end.records[r], q + w)
      ensures !Registered(s, r) ==> MoreInFlight(s.records[r], end.records[r], [])
    {
      if Registered(s, r) && s.records[r].socket != client {
        assert Registered(mid, r);
        Associates(s.records[r].inflight, q, w);
      } else if !Registered(s, r) {
        assert !Registered(mid, r);
      }
    }
  }

  lemma DrawingLands(s: State, client: nat, data: seq<byte>)
    requires s.writing.NoWrite?
    ensures Legal(s, WriteRun(data))
    ensures Landed(s, Run(s, WriteRun(data)), client, data, [FileChunk(|s.archive|, |data|)])
  {
    WholeWrite(s, data);
  }

  lemma MessageLands(s: State, client: nat, data: seq<byte>)
    requires s.writing.NoWrite?
    ensures Landed(s, Step(s, Send(data)), client, [], [RAMChunk(data)])
  {
    WholeSend(s, data);
    assert s.archive + [] == s.archive;
  }

  lemma RemovalLands(s: State, client: nat)
    requires s.writing.NoWrite?
    ensures Landed(s, Step(s, RemoveClient(client)), client, [], []) && Landed(s, s, client, [], [])
  {
    assert s.archive + [] == s.archive;
  }

  /** What one upload adds to the archive, and to what is on its way. */
  lemma OneUpload(u: Upload, pos: nat)
    ensures Concat(Drawings([u])) == if u.hasUser && u.package.packType == 2 then u.package.repacked else []
    ensures Ranges([u], pos)
         == if u.hasUser && u.package.packType == 2 then [FileChunk(pos, |u.package.repacked|)]
            else if u.hasUser && u.package.packType == 3 then [RAMChunk(u.package.repacked)]
            else []
  {
    assert [u][1..] == [] && Drawings([]) == [] && Ranges([], pos) == [];
    assert Ranges([], pos + |u.package.repacked|) == [];
    assert [u.package.repacked][1..] == [];
  }

  lemma OneCall(s: State, e: Event)
    requires Enabled(s, e)
    ensures Legal(s, [e]) && Run(s, [e]) == Step(s, e)
    ensures Played([e]) == if e.WriteBegin? then WriteRun(e.data) else [e]
  {
    assert [e][1..] == [] && Played([]) == [] && Run(Step(s, e), []) == Step(s, e);
  }

  lemma OneAnswer(s: State, client: nat, u: Upload) returns (run: seq<Event>)
    requires s.writing.NoWrite?
    ensures run == Played(Answer(client, u)) && Legal(s, run)
    ensures Landed(s, Run(s, run), client, Concat(Drawings([u])), Ranges([u], |s.archive|))
  {
    OneUpload(u, |s.archive|);
    var calls := Answer(client, u);
    run := Played(calls);
    if calls == [] {
      RemovalLands(s, client);
    } else {
      OneCall(s, calls[0]);
      match calls[0] {
        case WriteBegin(data) => DrawingLands(s, client, data);
        case Send(data) => MessageLands(s, client, data);
        case _ => RemovalLands(s, client);
      }
    }
  }

  lemma PlayedFront(calls: seq<Event>, later: seq<Event>)
    requires |calls| <= 1
    ensures Played(calls + later) == Played(calls) + Played(later)
  {
    if calls == [] {
      assert calls + later == later;
      assert Played(calls) + Played(later) == Played(later);
    } else {
      assert (calls + later)[1..] == later && calls[1..] == [] && Played([]) == [];
      Associates(if calls[0].WriteBegin? then WriteRun(calls[0].data) else [calls[0]], [], Played(later));
    }
  }

  lemma DrawingsFront(u: Upload, later: seq<Upload>)
    ensures Concat(Drawings([u] + later)) == Concat(Drawings([u])) + Concat(Drawings(later))
  {
    assert ([u] + later)[1..] == later;
    OneUpload(u, 0);
    NoneInFront(Drawings(later));
  }

  lemma RangesFront(u: Upload, later: seq<Upload>, pos: nat)
    ensures Ranges([u] + later, pos) == Ranges([u], pos) + Ranges(later, pos + |Concat(Drawings([u]))|)
  {
    assert ([u] + later)[1..] == later;
    OneUpload(u, pos);
    NoneInFront(Ranges(later, pos));
  }

  /** Left alone, the radio does so at once: what a client uploads, carried out call by call, leaves the
      archive with exactly its drawings more, and every other client on the map with exactly their ranges and
      the messages on the way to it. */
  lemma {:induction false} UploadsPlayed(s: State, client: nat, ups: seq<Upload>) returns (run: seq<Event>)
    requires s.writing.NoWrite?
    ensures run == Played(Answers(client, ups)) && Legal(s, run)
    ensures Landed(s, Run(s, run), client, Concat(Drawings(ups)), Ranges(ups, |s.archive|))
    decreases |ups|
  {
    if ups == [] {
      run := [];
      assert s.archive + [] == s.archive;
    } else {
      var u, later := ups[0], ups[1..];
      assert ups == [u] + later;
      var first := OneAnswer(s, client, u);
      var mid := Run(s, first);
      var rest := UploadsPlayed(mid, client, later);
      RunOn(s, first, rest);
      run := first + rest;
      PlayedFront(Answer(client, u), Answers(client, later));
      OneThenLater(s, mid, Run(mid, rest), client, u, later);
    }
  }

  lemma OneThenLater(s: State, mid: State, end: State, client: nat, u: Upload, later: seq<Upload>)
    requires Landed(s, mid, client, Concat(Drawings([u])), Ranges([u], |s.archive|))
    requires Landed(mid, end, client, Concat(Drawings(later)), Ranges(later, |mid.archive|))
    ensures Landed(s, end, client, Concat(Drawings([u] + later)), Ranges([u] + later, |s.archive|))
  {
    var a, b := Concat(Drawings([u])), Concat(Drawings(later));
    DrawingsFront(u, later);
    RangesFront(u, later, |s.archive|);
    LandedOn(s, mid, end, client, a, b, Ranges([u], |s.archive|), Ranges(later, |s.archive| + |a|));
  }

  // ---------------------------------------------------------------- end to end

  /** Everything the radio took since the client joined was uploads, and replies to others. */
  ghost predicate FedBy(t: Story, client: nat, ups: seq<Upload>) {
    Fed(t.after) == Fed(Answers(client, ups)) && NoReplyTo(t.after, t.socket)
  }

  /** In any order of delivery: a client that is still registered, and to which everything has been sent,
      was sent each drawing and each message that users uploaded since it joined, and each frame of the
      archive from its start on as it was then, as often as there were. */
  lemma {:induction false} EachUploadArrives(t: Story, client: nat, ups: seq<Upload>, f: seq<byte>)
    requires Framed(t) && WholeCalls(t) && t.R() < |t.End().records| && Registered(t.End(), t.R())
    requires t.Record().list == [] && t.Record().inflight == [] && FedBy(t, client, ups)
    ensures 0 <= t.Base() <= |t.Found().archive|
    ensures multiset(Frames(t.Record().sent))[f]
         == multiset(Frames(t.Found().archive[t.Base()..]))[f] + multiset(Shared(ups))[f]
  {
    EachFrameHanded(t, f);
    OnlyFedCounts(t.after, 0, t.socket);
    FeedHands(client, ups, t.socket);
  }

  /** And with delivery in order it was sent that archive and then the uploads, in order. */
  lemma {:induction false} UploadsInOrder(t: Story, client: nat, ups: seq<Upload>)
    requires WholeCalls(t) && InOrderStory(t) && 0 <= t.start
    requires t.Record().list == [] && t.Record().inflight == [] && FedBy(t, client, ups)
    ensures 0 <= t.Base() <= |t.Found().archive|
    ensures t.Record().sent == t.Found().archive[t.Base()..] + Concat(Shared(ups))
  {
    SentExactly(t);
    OnlyFedCounts(t.after, 0, t.socket);
    FeedHands(client, ups, t.socket);
  }
}
