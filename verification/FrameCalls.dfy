/** Each frame handed to the radio reaches each client once. */
module FrameCalls {
  import opened Bytes
  import opened Framing
  import opened TaskList
  import opened Counting
  import opened Radio
  import opened RadioRuns
  import opened RadioCalls
  import opened FrameAlignment
  import opened EndToEnd

  lemma HandedIsIssued(e: Event, later: seq<Event>, socket: nat)
    requires FramesOnly([e] + later)
    ensures FramesOnly(later) && (HandsTo(e, socket) ==> IsFrame(e.data))
  {
    assert ([e] + later)[1..] == later;
  }

  lemma OneCallFrames(e: Event, front: seq<byte>, rest: seq<byte>, socket: nat)
    requires HandsTo(e, socket) ==> IsFrame(e.data)
    ensures var archive := (front + if e.WriteBegin? then e.data else []) + rest;
      Sum(FrameBag(archive), CalledBy(e, |front|, socket))
      == multiset(if HandsTo(e, socket) then [e.data] else [])
  {
    if HandsTo(e, socket) {
      var archive := (front + if e.WriteBegin? then e.data else []) + rest;
      CallRenders(e, front, rest, socket);
      SingleFrame(e.data);
      SumOne(FrameBag(archive), CalledBy(e, |front|, socket)[0]);
    }
  }

  lemma CallThenRest(e: Event, front: seq<byte>, rest: seq<byte>, socket: nat, later: seq<Chunk>, data: seq<seq<byte>>)
    requires HandsTo(e, socket) ==> IsFrame(e.data)
    requires Sum(FrameBag((front + if e.WriteBegin? then e.data else []) + rest), later) == multiset(data)
    ensures Sum(FrameBag((front + if e.WriteBegin? then e.data else []) + rest), CalledBy(e, |front|, socket) + later)
         == multiset((if HandsTo(e, socket) then [e.data] else []) + data)
  {
    OneCallFrames(e, front, rest, socket);
    SumAppend(FrameBag((front + if e.WriteBegin? then e.data else []) + rest), CalledBy(e, |front|, socket), later);
  }

  /** The frames in the chunks of the calls are those handed over. */
  lemma {:induction false} CalledFrames(run: seq<Event>, front: seq<byte>, socket: nat)
    requires FramesOnly(run)
    ensures Sum(FrameBag(front + Concat(Begun(run))), Called(run, |front|, socket)) == multiset(Handed(run, socket))
  {
    if run != [] {
      var e, later := run[0], run[1..];
      assert run == [e] + later;
      HandedIsIssued(e, later, socket);
      var next := front + if e.WriteBegin? then e.data else [];
      CalledFrames(later, next, socket);
      CallsUnfold(e, later, front, socket);
      CallThenRest(e, front, Concat(Begun(later)), socket, Called(later, |next|, socket), Handed(later, socket));
    }
  }

  lemma {:induction false} ToldFrames(t: Story)
    requires Framed(t) && WholeCalls(t) && t.R() < |t.End().records| && Registered(t.End(), t.R())
    ensures Sum(FrameBag(t.End().archive), t.Told()) == multiset(Handed(t.after, t.socket))
  {
    ToldSinceJoin(t);
    ArchiveSinceJoin(t);
    CalledFrames(t.after, t.Found().archive, t.socket);
  }

  /** In any order of delivery: a client that is still registered, and to which everything has been sent,
      was sent each frame exactly as often as it was in the archive from its start at the join and was
      handed over since. */
  lemma {:induction false} EachFrameHanded(t: Story, f: seq<byte>)
    requires Framed(t) && WholeCalls(t) && t.R() < |t.End().records| && Registered(t.End(), t.R())
    requires t.Record().list == [] && t.Record().inflight == []
    ensures 0 <= t.Base() <= |t.Found().archive|
    ensures multiset(Frames(t.Record().sent))[f]
         == multiset(Frames(t.Found().archive[t.Base()..]))[f] + multiset(Handed(t.after, t.socket))[f]
  {
    EachFrameOnce(t, f);
    ToldFrames(t);
  }
}
