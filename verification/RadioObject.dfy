/** The radio as src/server/pkg/Radio/Radio.go has it, an object over a buffered file, a map of
    clients and their task lists. Each method is one atomic step, and does what Radio.Step says. */
module RadioObject {
  import opened Bytes
  import opened TaskList
  import opened Counting
  import opened Radio
  import opened RadioRuns
  import opened RadioCalls
  import opened RadioMap
  import BufferedFile

  /** A client's record, with the chunks its helpers carry. output is what the radio writes to the
      connection on behalf of this record. */
  class Client {
    const socket: nat
    const output: Connection
    var list: RadioTaskList
    var inflight: seq<Chunk>
    var alive: bool

    constructor (socket: nat, list: RadioTaskList)
      ensures this.socket == socket && this.list == list && inflight == [] && alive
      ensures fresh(output) && output.written == []
    {
      this.socket, this.list, inflight, alive := socket, list, [], true;
      output := new Connection();
    }

    ghost predicate Shows(r: RadioClient)
      reads this, list, output
    {
      && socket == r.socket && inflight == r.inflight && alive == r.alive
      && list.tasks == r.list
      && output.written == r.history.before + r.sent
    }

    /** Fetches and sends the front of the queue; an error ends the goroutine. */
    method TryFetch(file: BufferedFile.BufferedFile, ghost rec: RadioClient, accepted: nat)
      returns (ok: bool, crashed: bool)
      requires file.Valid() && Shows(rec) && alive
      modifies this`alive, list, output
      ensures file.Valid() && file.Contents() == old(file.Contents())
      ensures crashed <==> EndsBeforeZero(rec.list) && file.fileSize == 0
      ensures !crashed ==>
        alive == ok == Took(rec, file.Contents(), accepted) && Shows(Tried(rec, file.Contents(), accepted))
    {
      TriedShows(rec, file.Contents(), accepted);
      ok, crashed := list.FetchAndSend(output, file, accepted);
      if !crashed {
        alive := ok;
      }
    }
  }

  // ---------------------------------------------------------------- one fetch, before the map is touched

  /** The network takes what a fetch sends, if it sends anything. */
  predicate Took(c: RadioClient, archive: seq<byte>, accepted: nat) {
    FrontReady(c.list, |archive|) ==> |FrontBytes(c, archive)| <= accepted
  }

  function Tried(c: RadioClient, archive: seq<byte>, accepted: nat): RadioClient {
    if !FrontReady(c.list, |archive|) then c
    else if Took(c, archive, accepted) then SentFront(c, archive)
    else BrokenOff(c, archive, accepted)
  }

  lemma FetchIsTried(s: State, r: nat, accepted: nat)
    requires r < |s.records| && s.records[r].alive
    ensures var c := s.records[r];
      var mid := Update(s, r, Tried(c, s.archive, accepted));
      Step(s, Event.Fetch(r, accepted)) == if Took(c, s.archive, accepted) then mid else Dropped(mid, c.socket)
  {
    assert s.records[r := s.records[r]] == s.records;
  }

  /** What a fetch adds to all that was written for a record. */
  lemma TriedShows(c: RadioClient, archive: seq<byte>, accepted: nat)
    ensures var c' := Tried(c, archive, accepted);
      c'.history.before + c'.sent == c.history.before + c.sent +
        if !FrontReady(c.list, |archive|) then []
        else if Took(c, archive, accepted) then FrontBytes(c, archive)
        else FrontBytes(c, archive)[..accepted]
  {
  }

  // ---------------------------------------------------------------- one join

  function Enrolled(s: State, c: RadioClient): State {
    s.(clients := s.clients[c.socket := |s.records|], records := s.records + [c])
  }

  /** What a join queues at some size of the file. */
  function QueueAt(size: nat, start: int, length: int): seq<Chunk> {
    var n := JoinLength(size, start, length);
    if n == 0 then [] else Split(JoinStart(size, start), n)
  }

  lemma JoinEnrolls(s: State, socket: nat, start: int, length: int)
    ensures NewClient(s, socket, start, length).list == QueueAt(|s.archive|, start, length)
    ensures Step(s, Event.Join(socket, start, length)) == Enrolled(s, NewClient(s, socket, start, length))
  {
  }

  // ---------------------------------------------------------------- half-way through a loop

  function ToldExcept(s: State, chunk: Chunk, left: set<nat>): State {
    s.(records := seq(|s.records|, i requires 0 <= i < |s.records| =>
         if Registered(s, i) && s.records[i].socket !in left then Told(s.records[i], chunk) else s.records[i]))
  }

  function EmptiedExcept(s: State, left: set<nat>): State {
    s.(records := seq(|s.records|, i requires 0 <= i < |s.records| =>
         if Registered(s, i) && s.records[i].socket !in left then Pruned(s.records[i], true, Untold(s.writing))
         else s.records[i]))
  }

  lemma NobodyTold(s: State, chunk: Chunk)
    ensures ToldExcept(s, chunk, s.clients.Keys) == s
  {
    assert ToldExcept(s, chunk, s.clients.Keys).records == s.records;
  }

  lemma NobodyEmptied(s: State)
    ensures EmptiedExcept(s, s.clients.Keys) == s
  {
    assert EmptiedExcept(s, s.clients.Keys).records == s.records;
  }

  lemma EveryoneTold(s: State, chunk: Chunk)
    ensures ToldExcept(s, chunk, {}) == Broadcast(s, chunk)
  {
    assert ToldExcept(s, chunk, {}).records == Broadcast(s, chunk).records;
  }

  /** Of the records off the map only the history changes. */
  lemma EveryoneEmptied(s: State)
    ensures var a, b := EmptiedExcept(s, {}), Step(s, Event.Prune);
      && a.clients == b.clients && a.writing == b.writing && |a.records| == |b.records|
      && forall i :: 0 <= i < |a.records| ==> SameObject(a.records[i], b.records[i])
  {
    forall i | 0 <= i < |s.records|
      ensures SameObject(EmptiedExcept(s, {}).records[i], Step(s, Event.Prune).records[i])
    {
      var h, sent := s.records[i].history, s.records[i].sent;
      assert (h.before + sent) + [] == h.before + sent;
    }
  }

  predicate SameObject(a: RadioClient, b: RadioClient) {
    && a.socket == b.socket && a.list == b.list && a.inflight == b.inflight && a.alive == b.alive
    && a.history.before + a.sent == b.history.before + b.sent
  }

  lemma ToldOneMore(s: State, chunk: Chunk, left: set<nat>, client: nat)
    requires client in left && client in s.clients
    requires s.clients[client] < |s.records| && s.records[s.clients[client]].socket == client
    ensures var r := s.clients[client];
      && ToldExcept(s, chunk, left).records[r] == s.records[r]
      && Update(ToldExcept(s, chunk, left), r, Told(s.records[r], chunk)) == ToldExcept(s, chunk, left - {client})
  {
    var r := s.clients[client];
    assert Update(ToldExcept(s, chunk, left), r, Told(s.records[r], chunk)).records
        == ToldExcept(s, chunk, left - {client}).records;
  }

  lemma EmptiedOneMore(s: State, left: set<nat>, client: nat)
    requires client in left && client in s.clients
    requires s.clients[client] < |s.records| && s.records[s.clients[client]].socket == client
    ensures var r := s.clients[client];
      && EmptiedExcept(s, left).records[r] == s.records[r]
      && Update(EmptiedExcept(s, left), r, Pruned(s.records[r], true, Untold(s.writing)))
         == EmptiedExcept(s, left - {client})
  {
    var r := s.clients[client];
    assert Update(EmptiedExcept(s, left), r, Pruned(s.records[r], true, Untold(s.writing))).records
        == EmptiedExcept(s, left - {client}).records;
  }

  ghost predicate NoneTwice<T>(s: seq<T>) {
    forall i, j :: 0 <= i < j < |s| ==> s[i] != s[j]
  }

  class Server {
    const file: BufferedFile.BufferedFile
    var clients: map<nat, Client>
    var writing: Writing
    ghost var started: seq<Client>  // one for each client goroutine there ever was
    ghost var lists: seq<RadioTaskList>  // theirs
    ghost var outputs: seq<Connection>
    ghost var state: State  // the state that the steps are about

    ghost predicate MapShown(registered: map<nat, nat>)
      reads this`clients, this`started
    {
      && clients.Keys == registered.Keys
      && forall k :: k in clients ==>
           registered[k] < |started| && clients[k] == started[registered[k]] && clients[k].socket == k
    }

    ghost predicate RecordsShown(records: seq<RadioClient>)
      reads this`started, this`lists, this`outputs, started, lists, outputs
    {
      && |started| == |lists| == |outputs| == |records|
      && forall i :: 0 <= i < |started| ==>
           started[i].list == lists[i] && started[i].output == outputs[i] && started[i].Shows(records[i])
    }

    ghost predicate Valid()
      reads this, file, file.file, file.buffer, started, lists, outputs
    {
      && file.Valid() && state.archive == file.Contents() && state.writing == writing
      && NoneTwice(started) && NoneTwice(lists) && NoneTwice(outputs)
      && MapShown(state.clients) && RecordsShown(state.records)
    }

    constructor (file: BufferedFile.BufferedFile)
      requires file.Valid()
      ensures this.file == file && Valid() && state == Made(file.Contents())
    {
      this.file := file;
      clients, writing := map[], NoWrite;
      started, lists, outputs := [], [], [];
      state := Made(file.Contents());
    }

    // -------------------------------------------------------------- one client's goroutine

    /** A helper hands its chunk to the client's goroutine, which appends it to the queue. */
    method Deliver(ghost r: nat, c: Client, k: nat)
      requires Valid() && r < |started| && started[r] == c && c.alive && k < |c.inflight|
      modifies this`state, c`inflight, c.list
      ensures Valid() && state == Step(old(state), Event.Deliver(r, k))
    {
      var chunk := c.inflight[k];
      c.inflight := Without(c.inflight, k);
      c.list.AppendToPendings(chunk);
      state := Step(state, Event.Deliver(r, k));
    }

    /** Fetches the front of a client's queue and sends it; a broken connection ends the client. Only
        a front that ends before zero, on an empty disk, crashes. */
    method FetchAndSend(ghost r: nat, c: Client, accepted: nat) returns (crashed: bool)
      requires Valid() && r < |started| && started[r] == c && c.alive
      modifies this`state, this`clients, c`alive, c.list, c.output
      ensures crashed <==> EndsBeforeZero(old(c.list.tasks)) && file.fileSize == 0
      ensures !crashed ==> Valid() && state == Step(old(state), Event.Fetch(r, accepted))
      ensures !crashed ==> if c.alive then clients == old(clients) else OnlyLeaves(old(clients), clients, c.socket)
    {
      FetchIsTried(state, r, accepted);
      var ok;
      ok, crashed := TrySend(r, c, accepted);
      if !crashed && !ok {
        Forget(c.socket);
      }
    }

    method TrySend(ghost r: nat, c: Client, accepted: nat) returns (ok: bool, crashed: bool)
      requires Valid() && r < |started| && started[r] == c && c.alive
      modifies this`state, c`alive, c.list, c.output
      ensures crashed <==> EndsBeforeZero(old(c.list.tasks)) && file.fileSize == 0
      ensures var was, rec := old(state), old(state.records[r]);
        !crashed ==>
          && c.alive == ok
          && Valid() && ok == Took(rec, was.archive, accepted)
          && state == Update(was, r, Tried(rec, was.archive, accepted))
    {
      ghost var rec := state.records[r];
      assert c.Shows(rec);
      ok, crashed := c.TryFetch(file, rec, accepted);
      state := Update(state, r, Tried(rec, state.archive, accepted));
    }

    method CloseCallback(ghost r: nat, c: Client)
      requires Valid() && r < |started| && started[r] == c && c.alive
      modifies this`state, this`clients, c`alive
      ensures Valid() && state == Step(old(state), Event.CloseCallback(r))
      ensures OnlyLeaves(old(clients), clients, c.socket)
    {
      clients := clients - {c.socket};
      c.alive := false;
      state := Step(state, Event.CloseCallback(r));
    }

    /** A helper waited too long: its chunk is dropped and the client taken off the map. */
    method HelperTimeout(ghost r: nat, c: Client, k: nat)
      requires Valid() && r < |started| && started[r] == c && k < |c.inflight|
      modifies this`state, this`clients, c`inflight
      ensures Valid() && state == Step(old(state), Event.HelperTimeout(r, k))
      ensures OnlyLeaves(old(clients), clients, c.socket)
    {
      clients := clients - {c.socket};
      c.inflight := Without(c.inflight, k);
      state := Step(state, Event.HelperTimeout(r, k));
    }

    // -------------------------------------------------------------- under the radio's lock

    method RemoveClient(socket: nat)
      requires Valid()
      modifies this`state, this`clients
      ensures Valid() && state == Step(old(state), Event.RemoveClient(socket))
      ensures OnlyLeaves(old(clients), clients, socket)
    {
      Forget(socket);
    }

    method Forget(socket: nat)
      requires Valid()
      modifies this`state, this`clients
      ensures Valid() && state == Dropped(old(state), socket) && OnlyLeaves(old(clients), clients, socket)
    {
      clients := clients - {socket};
      state := Dropped(state, socket);
    }

    method RemoveAllClients()
      requires Valid()
      modifies this`state, this`clients
      ensures Valid() && state == Step(old(state), Event.RemoveAllClients)
      ensures clients == map[]
    {
      clients := map[];
      state := state.(clients := map[]);
    }

    method AddClient(socket: nat, start: int, length: int)
      requires Valid()
      modifies this`state, this`clients, this`started, this`lists, this`outputs
      ensures Valid() && state == Step(old(state), Event.Join(socket, start, length))
      ensures SameButOne(old(clients), clients, socket) && socket in clients && fresh(clients[socket])
      ensures var size := |file.Contents()|;
        var startPos := if start > size then size else start;
        Denote(clients[socket].list.tasks)
        == Range(startPos, if startPos + length > size then length else size - startPos)
    {
      ghost var rec := NewClient(state, socket, start, length);
      JoinEnrolls(state, socket, start, length);
      JoinQueues(state, socket, start, length);
      var list := MakeList(start, length, rec);
      var radioClient := new Client(socket, list);
      assert Valid();
      Enroll(radioClient, rec);
    }

    /** The first part of AddClient: the clamping, and a list with the chunks. */
    method MakeList(start: int, length: int, ghost rec: RadioClient) returns (list: RadioTaskList)
      requires file.Valid() && rec.list == QueueAt(|file.Contents()|, start, length)
      ensures fresh(list) && list.tasks == rec.list
    {
      list := new RadioTaskList();
      var fileSize := file.WholeSize();
      var startPos: int;
      var chunkSize: nat;
      if start > fileSize {
        startPos := fileSize;
      } else {
        startPos := start;
      }
      if startPos + length > fileSize {
        chunkSize := length;
      } else {
        chunkSize := fileSize - startPos;
      }
      if chunkSize != 0 {
        list.PushLargeChunk(FileChunk(startPos, chunkSize));
      }
    }

    /** The end of AddClient: the record goes on the map, and its goroutine starts. */
    method Enroll(client: Client, ghost rec: RadioClient)
      requires Valid() && client !in started && client.list !in lists && client.output !in outputs
      requires client.Shows(rec)
      modifies this`state, this`clients, this`started, this`lists, this`outputs
      ensures Valid() && state == Enrolled(old(state), rec)
      ensures clients == old(clients)[client.socket := client] && client.list.tasks == rec.list
    {
      clients := clients[client.socket := client];
      started, lists, outputs := started + [client], lists + [client.list], outputs + [client.output];
      state := Enrolled(state, rec);
    }

    /** Waits, with the lock held, until the client's goroutine takes the data, and queues it. When it
        is not taken in 10 seconds the client should be removed; that waits for the lock, for ever. */
    method SingleSend(data: seq<byte>, socket: nat, taken: bool) returns (stuck: bool)
      requires Valid() && writing.NoWrite?
      modifies this`state, if socket in clients then {clients[socket].list} else {}
      ensures stuck <==> socket in clients && !taken
      ensures Valid() && state == if stuck then old(state) else Step(old(state), Event.SingleSend(data, socket))
    {
      stuck := false;
      if socket in clients {
        if taken {
          HandOver(state.clients[socket], clients[socket], data);
        } else {
          stuck := true;
        }
      }
    }

    method HandOver(ghost r: nat, cli: Client, data: seq<byte>)
      requires Valid() && r < |started| && started[r] == cli
      modifies this`state, cli.list
      ensures Valid()
      ensures var c := old(state).records[r];
        state == Update(old(state), r,
          Received(c.(history := c.history.(due := c.history.due + [RAMChunk(data)])), RAMChunk(data)))
    {
      cli.list.AppendToPendings(RAMChunk(data));
      ghost var c := state.records[r];
      state := Update(state, r,
        Received(c.(history := c.history.(due := c.history.due + [RAMChunk(data)])), RAMChunk(data)));
    }

    // -------------------------------------------------------------- write, in its real steps

    method WriteBegin(data: seq<byte>)
      requires Valid() && writing.NoWrite?
      modifies this`state, this`writing
      ensures Valid() && state == Step(old(state), Event.WriteBegin(data))
    {
      var oldPos := file.WholeSize();
      writing := SizeRead(oldPos, data);
      state := Step(state, Event.WriteBegin(data));
    }

    method WriteAppend()
      requires Valid() && writing.SizeRead?
      modifies this`state, this`writing, file, file.file, file.buffer
      ensures Valid() && state == Step(old(state), Event.WriteAppend)
      ensures file.buffer == old(file.buffer) && file.file == old(file.file)
    {
      var _ := file.Write(writing.data);
      writing := InFile(writing.oldPos, |writing.data|);
      state := Step(state, Event.WriteAppend);
    }

    method WriteNotify()
      requires Valid() && writing.InFile?
      modifies this`state, this`writing, started
      ensures Valid() && state == Step(old(state), Event.WriteNotify)
    {
      TellAll(FileChunk(writing.oldPos, writing.length));
      writing := NoWrite;
      state := state.(writing := NoWrite);
    }

    method Send(data: seq<byte>)
      requires Valid() && writing.NoWrite?
      modifies this`state, started
      ensures Valid() && state == Step(old(state), Event.Send(data))
    {
      TellAll(RAMChunk(data));
    }

    /** The loop of write and of send: a helper goroutine for each client on the map. */
    method TellAll(chunk: Chunk)
      requires Valid()
      modifies this`state, started
      ensures Valid() && state == Broadcast(old(state), chunk)
    {
      ghost var was := state;
      NobodyTold(was, chunk);
      EveryoneTold(was, chunk);
      var left := clients.Keys;
      while left != {}
        invariant left <= clients.Keys
        invariant Valid() && state == ToldExcept(was, chunk, left)
        decreases left
      {
        left := TellNext(was, chunk, left);
      }
    }

    method TellNext(ghost was: State, chunk: Chunk, left: set<nat>) returns (rest: set<nat>)
      requires Valid() && state == ToldExcept(was, chunk, left) && {} != left <= clients.Keys
      modifies this`state, started
      ensures Valid() && state == ToldExcept(was, chunk, rest) && rest < left
    {
      var client :| client in left;
      TellOne(was, chunk, left, client, clients[client]);
      rest := left - {client};
    }

    method TellOne(ghost was: State, chunk: Chunk, ghost left: set<nat>, ghost client: nat, cli: Client)
      requires Valid() && state == ToldExcept(was, chunk, left)
      requires client in left && client in clients && clients[client] == cli
      modifies this`state, cli`inflight
      ensures Valid() && state == ToldExcept(was, chunk, left - {client})
    {
      ghost var r := state.clients[client];
      assert started[r].Shows(state.records[r]);
      ToldOneMore(was, chunk, left, client);
      StartHelper(r, cli, chunk);
    }

    /** go write_helper, or go send_helper, for one client. */
    method StartHelper(ghost r: nat, cli: Client, chunk: Chunk)
      requires Valid() && r < |started| && started[r] == cli
      modifies this`state, cli`inflight
      ensures Valid() && state == Update(old(state), r, Told(old(state).records[r], chunk))
    {
      cli.inflight := cli.inflight + [chunk];
      state := Update(state, r, Told(state.records[r], chunk));
    }

    /** The whole of write, undisturbed. */
    method Write(data: seq<byte>)
      requires Valid() && writing.NoWrite?
      modifies this`state, this`writing, started, file, file.file, file.buffer
      ensures Valid() && writing.NoWrite?
      ensures Legal(old(state), WriteRun(data)) && state == Run(old(state), WriteRun(data))
      ensures file.Contents() == old(file.Contents()) + data
      ensures forall i :: 0 <= i < |started| ==>
        started[i].inflight == old(started[i].inflight)
          + if OnMap(started[i]) then [FileChunk(|old(file.Contents())|, |data|)] else []
    {
      ghost var was := state;
      assert forall i :: 0 <= i < |started| ==> started[i].Shows(was.records[i]);
      WholeWrite(state, data);
      RunOfThree(state, WriteRun(data));
      WriteBegin(data);
      WriteAppend();
      WriteNotify();
      forall i | 0 <= i < |started|
        ensures started[i].Shows(state.records[i]) && (OnMap(started[i]) <==> Registered(was, i))
      {
        OnMapIff(i);
      }
    }

    /** A client's socket is on the map, with this record. */
    predicate OnMap(c: Client)
      reads this`clients
    {
      c.socket in clients && clients[c.socket] == c
    }

    lemma OnMapIff(i: nat)
      requires Valid() && i < |started|
      ensures started[i].Shows(state.records[i]) && (OnMap(started[i]) <==> Registered(state, i))
    {
      assert started[i].Shows(state.records[i]);
    }


    // -------------------------------------------------------------- prune

    /** Gives every client on the map a new, empty queue, and clears the file. */
    method Prune()
      requires Valid()
      modifies this`state, this`lists, started, file, file.file
      ensures Valid() && state == Step(old(state), Event.Prune)
    {
      ghost var was := state;
      NobodyEmptied(was);
      EveryoneEmptied(was);
      EmptyAll(was);
      file.Clear();
      state := Step(was, Event.Prune);
    }

    /** The loop of prune. */
    method EmptyAll(ghost was: State)
      requires Valid() && state == EmptiedExcept(was, clients.Keys)
      modifies this`state, this`lists, started
      ensures Valid() && state == EmptiedExcept(was, {})
    {
      var left := clients.Keys;
      while left != {}
        invariant left <= clients.Keys
        invariant Valid() && state == EmptiedExcept(was, left)
        decreases left
      {
        left := EmptyNext(was, left);
      }
    }

    method EmptyNext(ghost was: State, left: set<nat>) returns (rest: set<nat>)
      requires Valid() && state == EmptiedExcept(was, left) && {} != left <= clients.Keys
      modifies this`state, this`lists, started
      ensures Valid() && state == EmptiedExcept(was, rest) && rest < left
    {
      var client :| client in left;
      EmptyOne(was, left, client, clients[client]);
      rest := left - {client};
    }

    method EmptyOne(ghost was: State, ghost left: set<nat>, ghost client: nat, cli: Client)
      requires Valid() && state == EmptiedExcept(was, left)
      requires client in left && client in clients && clients[client] == cli
      modifies this`state, this`lists, cli`list
      ensures Valid() && state == EmptiedExcept(was, left - {client})
    {
      ghost var r := state.clients[client];
      assert started[r].Shows(state.records[r]);
      EmptiedOneMore(was, left, client);
      EmptyList(r, cli);
    }

    method EmptyList(ghost r: nat, v: Client)
      requires Valid() && r < |started| && started[r] == v
      modifies this`state, this`lists, v`list
      ensures Valid() && state == Update(old(state), r, Pruned(old(state).records[r], true, Untold(old(state).writing)))
    {
      var list := new RadioTaskList();
      assert Valid();
      v.list, lists := list, lists[r := list];
      state := Update(state, r, Pruned(state.records[r], true, Untold(state.writing)));
    }
  }
}
