/** The archive's broadcaster of src/server/pkg/Radio/Radio.go, as a system of atomic steps: the
    goroutine that runs the radio, one goroutine for each client, and one helper goroutine for each
    chunk on its way to a client. */
module Radio {
  import opened Bytes
  import opened TaskList
  import opened Counting

  /** Where the only write in progress stands: its start position was read, or its data is in the
      file but the clients have not been told. */
  datatype Writing = NoWrite | SizeRead(oldPos: nat, data: seq<byte>) | InFile(oldPos: nat, length: nat)

  /** A client's record. inflight holds the chunks of its helper goroutines, which arrive in any
      order. sent is what the radio wrote to the connection since the join or the last prune. */
  datatype RadioClient = RadioClient(
    socket: nat, list: seq<Chunk>, inflight: seq<Chunk>, sent: seq<byte>, alive: bool, history: History)

  /** What happened to a record since its join or the last prune; no step depends on it.
      tracked: the join asked for a range inside the archive, or a prune has come since then.
      base: the first position owed.
      due: the chunks owed, in order. delivered: those that reached the queue, in order of arrival.
      cells: what was sent. before: the bytes sent earlier.
      extra and missing: what is owed besides, and not owed of, the archive from the base on. A join
      owes a write that is in the file but not announced twice, and what it asks for beyond the end.
      After a prune, what was under way is owed besides the new archive, and a write that had read
      its position announces a range that is not where its data went. */
  datatype History = History(
    tracked: bool, base: int, extra: seq<Chunk>, missing: seq<Chunk>, due: seq<Chunk>,
    delivered: seq<Chunk>, cells: seq<Cell>, before: seq<byte>)

  /** archive is the flat content of the file; clients maps a socket to its latest record. */
  datatype State = State(archive: seq<byte>, writing: Writing, clients: map<nat, nat>, records: seq<RadioClient>)

  datatype Event =
    | Join(socket: nat, start: int, length: int)
    | WriteBegin(data: seq<byte>)
    | WriteAppend
    | WriteNotify
    | Send(data: seq<byte>)
    | SingleSend(data: seq<byte>, socket: nat)
    | Deliver(r: nat, k: nat)
    | HelperTimeout(r: nat, k: nat)
    | Fetch(r: nat, accepted: nat)
    | CloseCallback(r: nat)
    | RemoveClient(socket: nat)
    | RemoveAllClients
    | Prune

  predicate Registered(s: State, r: nat) {
    r < |s.records| && s.records[r].socket in s.clients && s.clients[s.records[r].socket] == r
  }

  /** The radio's goroutine does one thing at a time; a client's goroutine acts while it lives. */
  predicate Enabled(s: State, e: Event) {
    match e
    case WriteBegin(_) => s.writing.NoWrite?
    case WriteAppend => s.writing.SizeRead?
    case WriteNotify => s.writing.InFile?
    case Send(_) => s.writing.NoWrite?
    case SingleSend(_, _) => s.writing.NoWrite?
    case Deliver(r, k) => r < |s.records| && s.records[r].alive && k < |s.records[r].inflight|
    case HelperTimeout(r, k) => r < |s.records| && k < |s.records[r].inflight|
    case Fetch(r, _) => r < |s.records| && s.records[r].alive
    case CloseCallback(r) => r < |s.records| && s.records[r].alive
    case _ => true
  }

  // ---------------------------------------------------------------- the steps

  /** Where a join starts, and how long a range it queues. */
  function JoinStart(size: nat, start: int): (startPos: int)
    ensures startPos <= size
  {
    if start > size then size else start
  }

  function JoinLength(size: nat, start: int, length: int): nat {
    var startPos := JoinStart(size, start);
    if startPos + length > size then length else size - startPos
  }

  /** The request ends inside the archive. */
  predicate AsksInRange(size: nat, start: int, length: int) {
    JoinStart(size, start) + length <= size
  }

  function Untold(w: Writing): Chunk {
    if w.InFile? then FileChunk(w.oldPos, w.length) else FileChunk(0, 0)
  }

  /** The part of a join's range that lies beyond the end. */
  function Overshoot(size: nat, start: int, length: int): Chunk {
    FileChunk(size, JoinStart(size, start) + JoinLength(size, start, length) - size)
  }

  function NewClient(s: State, socket: nat, start: int, length: int): RadioClient {
    var size := |s.archive|;
    var startPos, chunkSize := JoinStart(size, start), JoinLength(size, start, length);
    var owed := if chunkSize == 0 then [] else [FileChunk(startPos, chunkSize)];
    RadioClient(
      socket, if chunkSize == 0 then [] else Split(startPos, chunkSize), [], [], true,
      History(0 <= start && AsksInRange(size, start, length), startPos,
              [Untold(s.writing), Overshoot(size, start, length)], [], owed, owed, [], []))
  }

  /** Starts a helper goroutine that carries a chunk to the client. */
  function Told(c: RadioClient, chunk: Chunk): RadioClient {
    c.(inflight := c.inflight + [chunk], history := c.history.(due := c.history.due + [chunk]))
  }

  function Received(c: RadioClient, chunk: Chunk): RadioClient {
    c.(list := Appended(c.list, chunk), history := c.history.(delivered := c.history.delivered + [chunk]))
  }

  function FrontBytes(c: RadioClient, archive: seq<byte>): seq<byte>
    requires FrontReady(c.list, |archive|)
  {
    Render(Cells(c.list[0]), archive)
  }

  function SentFront(c: RadioClient, archive: seq<byte>): RadioClient
    requires FrontReady(c.list, |archive|)
  {
    c.(list := c.list[1..], sent := c.sent + FrontBytes(c, archive),
       history := c.history.(cells := c.history.cells + Cells(c.list[0])))
  }

  /** Writing to the connection failed part of the way. */
  function BrokenOff(c: RadioClient, archive: seq<byte>, accepted: nat): RadioClient
    requires FrontReady(c.list, |archive|) && accepted < |FrontBytes(c, archive)|
  {
    c.(list := c.list[1..], sent := c.sent + FrontBytes(c, archive)[..accepted], alive := false,
       history := c.history.(cells := c.history.cells + Cells(c.list[0])[..accepted]))
  }

  /** A prune empties the queue of a registered client, and of no other. What is in flight still
      arrives. */
  function Pruned(c: RadioClient, registered: bool, untold: Chunk): RadioClient {
    var list := if registered then [] else c.list;
    c.(list := list, sent := [],
       history := History(true, 0, list + c.inflight + [untold], [], list + c.inflight, list, [],
                          c.history.before + c.sent))
  }

  /** A write goes to the end of the file, wherever its position was read. */
  function Misplaced(c: RadioClient, announced: Chunk, written: Chunk): RadioClient {
    c.(history := c.history.(extra := c.history.extra + [announced], missing := c.history.missing + [written]))
  }

  function AllMisplaced(s: State, announced: Chunk, written: Chunk): seq<RadioClient> {
    seq(|s.records|, i requires 0 <= i < |s.records| => Misplaced(s.records[i], announced, written))
  }

  function Broadcast(s: State, chunk: Chunk): State {
    s.(records := seq(|s.records|, i requires 0 <= i < |s.records| =>
         if Registered(s, i) then Told(s.records[i], chunk) else s.records[i]))
  }

  function Dropped(s: State, socket: nat): State {
    s.(clients := s.clients - {socket})
  }

  function Update(s: State, r: nat, c: RadioClient): State
    requires r < |s.records|
  {
    s.(records := s.records[r := c])
  }

  function Step(s: State, e: Event): State
    requires Enabled(s, e)
  {
    match e
    case Join(socket, start, length) =>
      s.(clients := s.clients[socket := |s.records|], records := s.records + [NewClient(s, socket, start, length)])
    case WriteBegin(data) => s.(writing := SizeRead(|s.archive|, data))
    case WriteAppend =>
      var oldPos, n, length := s.writing.oldPos, |s.archive|, |s.writing.data|;
      s.(archive := s.archive + s.writing.data, writing := InFile(oldPos, length),
         records := if oldPos == n then s.records else AllMisplaced(s, FileChunk(oldPos, length), FileChunk(n, length)))
    case WriteNotify => Broadcast(s, Untold(s.writing)).(writing := NoWrite)
    case Send(data) => Broadcast(s, RAMChunk(data))
    case SingleSend(data, socket) =>
      if socket in s.clients && s.clients[socket] < |s.records| then
        var r := s.clients[socket];
        var c := s.records[r];
        Update(s, r, Received(c.(history := c.history.(due := c.history.due + [RAMChunk(data)])), RAMChunk(data)))
      else s
    case Deliver(r, k) =>
      var c := s.records[r];
      Update(s, r, Received(c.(inflight := Without(c.inflight, k)), c.inflight[k]))
    case HelperTimeout(r, k) =>
      var c := s.records[r];
      Dropped(Update(s, r, c.(inflight := Without(c.inflight, k))), c.socket)
    case Fetch(r, accepted) =>
      var c := s.records[r];
      if !FrontReady(c.list, |s.archive|) then s
      else if |FrontBytes(c, s.archive)| <= accepted then Update(s, r, SentFront(c, s.archive))
      else Dropped(Update(s, r, BrokenOff(c, s.archive, accepted)), c.socket)
    case CloseCallback(r) =>
      Dropped(Update(s, r, s.records[r].(alive := false)), s.records[r].socket)
    case RemoveClient(socket) => Dropped(s, socket)
    case RemoveAllClients => s.(clients := map[])
    case Prune =>
      s.(archive := [],
         records := seq(|s.records|, i requires 0 <= i < |s.records| =>
           Pruned(s.records[i], Registered(s, i), Untold(s.writing))))
  }

  /** A radio that has just been made on an archive. */
  function Made(archive: seq<byte>): State {
    State(archive, NoWrite, map[], [])
  }

  predicate Legal(s: State, run: seq<Event>)
    decreases |run|
  {
    run == [] || (Enabled(s, run[0]) && Legal(Step(s, run[0]), run[1..]))
  }

  function Run(s: State, run: seq<Event>): State
    requires Legal(s, run)
    decreases |run|
  {
    if run == [] then s else Run(Step(s, run[0]), run[1..])
  }
}
