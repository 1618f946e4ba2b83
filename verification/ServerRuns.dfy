/** What the real connections of a server hold after a run. */
module ServerRuns {
  import opened Bytes
  import opened Framing
  import opened TaskList
  import opened RadioRuns
  import opened RadioCalls
  import opened EndToEnd
  import opened RadioObject
  import opened RoomFeed

  /** A server whose methods were called along a story: the client's connection was written exactly
      the bytes that the story says were sent, and with what its task list still stands for, over
      the buffered file, they are whole frames, each one archived or sent. */
  lemma {:induction false} WrittenIsWhole(server: Server, t: Story)
    requires server.Valid() && Framed(t) && server.state == t.End()
    requires t.R() < |t.End().records| && t.Record().alive
    ensures t.R() < |server.started|
    ensures var c := server.started[t.R()];
      && c.output.written == t.Record().sent
      && WholeFrom(c.output.written + Render(Denote(c.list.tasks), server.file.Contents()), AllIssued(t))
  {
    StoryHolds(t);
    var c := server.started[t.R()];
    assert c.Shows(t.Record());
    assert [] + t.Record().sent == t.Record().sent;
    NoFrameTorn(t);
  }

  /** And when the story is in order, and everything is sent, the archive's part of what was written is
      the file from the client's start on. */
  lemma {:induction false} WrittenIsArchive(server: Server, t: Story)
    requires server.Valid() && t.Valid() && server.state == t.End()
    requires InOrderStory(t) && !t.End().writing.InFile?
    requires t.Record().list == [] && t.Record().inflight == []
    ensures t.R() < |server.started| && 0 <= t.Base() <= |server.file.Contents()|
    ensures server.started[t.R()].output.written == Render(t.Record().history.cells, server.file.Contents())
    ensures Render(FileCells(t.Record().history.cells), server.file.Contents())
         == server.file.Contents()[t.Base()..]
  {
    StoryHolds(t);
    var c := server.started[t.R()];
    assert c.Shows(t.Record());
    assert [] + t.Record().sent == t.Record().sent;
    DrainedStream(t);
  }

  /** When the radio was fed by a room, it is that archive as it was at the join, and then what users
      uploaded since, in order. */
  lemma {:induction false} WrittenIsUploads(server: Server, t: Story, client: nat, ups: seq<Upload>)
    requires server.Valid() && WholeCalls(t) && server.state == t.End()
    requires InOrderStory(t) && 0 <= t.start && FedBy(t, client, ups)
    requires t.Record().list == [] && t.Record().inflight == []
    ensures t.R() < |server.started| && 0 <= t.Base() <= |t.Found().archive|
    ensures server.started[t.R()].output.written == t.Found().archive[t.Base()..] + Concat(Shared(ups))
  {
    StoryHolds(t);
    var c := server.started[t.R()];
    assert c.Shows(t.Record());
    assert [] + t.Record().sent == t.Record().sent;
    UploadsInOrder(t, client, ups);
  }
}
