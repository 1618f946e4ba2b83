# painttyServer: the archive and its broadcast, verified

painttyServer relays a drawing room. Bytes arrive from TCP in arbitrary pieces and are cut into
frames (`src/server/pkg/Socket`). Drawing frames are appended to an archive, a file with a
write-behind buffer (`src/server/pkg/BufferedFile`). A radio sends each client its part of the
archive, from wherever it joined, through a queue of file ranges and of frames held in memory
(`src/server/pkg/Radio`). This project models that pipeline in Dafny and proves that it loses,
repeats, reorders and tears nothing it should not.

`dafny verify dfyconfig.toml` checks everything.

| file | models |
|---|---|
| `Bytes.dfy` | bytes, concatenation, big-endian numbers |
| `Common.dfy` | `QCompress`, `QUncompress`; the zlib library is a parameter |
| `Framing.dfy`, `HeaderBits.dfy` | the encoders, whole frames, the header byte |
| `SocketReader.dfy` | `OnData`, the read loop, and the parser they implement |
| `BufferedFile.dfy` | the buffered file as a class over a disk file |
| `TaskList.dfy` | the task list as a class, splitting and merging of ranges |
| `Counting.dfy` | order-independent sums over queues |
| `Radio.dfy` | the radio as a system of atomic steps |
| `RadioObject.dfy` | the radio as an object whose methods are those steps |
| `RadioInvariant.dfy` | what every step keeps, and when a prune is safe |
| `RadioRuns.dfy` | whole runs: no gap, exact stream, draining |
| `RadioMap.dfy` | who is on the map, how clients leave it, and what becomes of them |
| `RadioCalls.dfy` | the archive and each stream, told from the calls of a run alone |
| `RadioServe.dfy` | what single steps do to a client and to bystanders, and serving to the end |
| `RadioPrunes.dfy` | what an unquiet prune leaves behind, and runs in which it does |
| `FrameSeams.dfy` | where the pieces of a queue meet the ends of frames |
| `FrameAlignment.dfy`, `EndToEnd.dfy` | whole frames through every run, and what the reader gets |
| `FrameCalls.dfy` | each frame handed over reaches each client once |
| `FramePrunes.dfy` | which prunes tear a frame, and runs in which they do |
| `ServerRuns.dfy` | what the real connections hold after a run |
| `Room.dfy` | the archive request and what a room feeds its radio |
| `RoomFeed.dfy` | the loop that serves a client, and what the radio makes of uploads |

## How the model is built

* **Parser.** `Parse` says what a reader with given fields makes of a buffer. `Reader.OnData` and
  `Reader.RunReadLoop` are the source's loops, proved to compute it. A size of zero, on which the
  source indexes an empty slice, is the status `Crashed`, so no lemma excludes it.
* **Buffered file.** The abstraction is `disk ++ buffer[..waterMark]`. `BufferedFile.Run` plays any
  list of calls, with timer flushes, restarts and any buffer sizes, and answers as one flat string.
* **Queue.** `Denote` gives a queue's meaning as cells: an archive position or a byte in memory.
  It does not mention the archive, so the same statement covers bytes, positions and coverage.
* **Radio.** Each lock-protected region, and each of the three parts of `write` (the size is read,
  the data is in the file, the clients are told), is one step. A chunk carried by a helper goroutine
  is in `inflight`, and `Deliver` takes any of them. `History` records what happened and influences
  no step. `RadioObject.Server` is the same radio over real objects; every method is proved to do
  exactly its step.
* **Runs.** `RadioInvariant.Sound` holds after every legal run, whatever the joins ask for and
  whenever the prunes come. `Inside` (nothing on its way to a live client points outside the archive,
  and nothing that has reached it, unless it joined outside and no prune has come since) holds after
  every run whose prunes come at moments that are `Quiet`. A `Story` is any legal run of the radio, then
  a client's join, then any legal run without a prune.
* **Calls.** `Begun`, `Handed` and `Called` read off a list of events which data is written and handed to a
  socket, without looking at any state; what the radio holds and sends is proved equal to them.

## Where the code and its comments differ

The model follows the code.

* `src/server/pkg/Radio/Utils.go:15` speaks of at most 2048 chunks in a queue. One range is cut into at
  most 2048 exactly when 2048 pieces of the chosen size cover it (`TaskList.SplitCount`), and some give
  2049 (`TaskList.OnePieceTooMany`); a queue itself has no limit (`RadioRuns.QueueHasNoLimit`).
* `src/server/pkg/Socket/SocketReader.go:89` says that the repacked bytes should equal the package
  data; they are the package data behind its size.
* `docs/formats.md` counts the header byte beside the size; in the code the size includes it.

## Results that are not as one might wish

* A join reaches past the archive's end exactly when what was announced is more than there is at the
  join (`Room.JoinClamps`). One with a negative start is never sent anything; when its first piece ends
  before zero, and only then, the fetch of it crashes the process while nothing is on the disk
  (`RadioPrunes.NegativeStartWaits`, `RadioPrunes.CrashingJoinIff`).
* A prune leaves something pointing into the archive it throws away unless it comes at a quiet moment,
  and only then: no range is in flight to a live client, none is in the queue of one that is off the map
  but still served, and no write is under way other than one that read the size zero
  (`RadioInvariant.PruneSafeIff`). How the clients joined does not matter. A range that survives blocks
  the queue until the new archive has grown into it (`RadioPrunes.StaleRangeWaits`); then its positions
  are sent once more than once (`RadioPrunes.PruneAccount`, `RadioPrunes.StaleByteSentTwice`). A client
  off the map gets bytes of the new archive that it was never told of (`RadioPrunes.OffMapIsSentNewByte`).
* A prune, even a quiet one, tears a frame of a registered client that joined between two frames exactly
  when the client's queue starts inside one: with a range whose start is not the end of a frame of the
  archive (`FramePrunes.PruneTearsIff`). Every frame longer than CHUNK_SIZE can be torn
  (`FramePrunes.LongFrameTorn`), and so can short ones (`FramePrunes.JoinTornIff`,
  `FramePrunes.TwoShortFrames`).
* A client that joins between a write's reaching the file and its announcement gets that write a
  second time, and nothing else twice (`RadioRuns.NoGapNoExtra`, `RadioPrunes.JoinMidWrite`).
* One encoded pack is read back as one package exactly when its body is shorter than 2^32 bytes
  (`SocketReader.OnePackIff`).

## Model

| member | source | states |
|---|---|---|
| RoomFeed.EachUploadArrives | src/server/pkg/Room/Room.go:249-272 | In any order of delivery: a client that joined between two frames, is still registered and has nothing left to come was sent each frame of the archive from its start at the join, and the frame of each drawing and message that users uploaded since, exactly as often as there were. |
| RoomFeed.UploadsInOrder | src/server/pkg/Radio/Radio.go:137-170 | With delivery in order, the bytes sent to such a client are archive[start..] as it was at the join and then the frames of those uploads, in order. |
| RoomFeed.UploadsLand | src/server/pkg/Room/Room.go:249-272 | For any list of uploads, taken by the radio in this order with any other events in between: the archive grows by exactly the frames of the type 2 packages of users, in order; a client registered to the end is owed exactly their ranges and, in memory, the frames of type 3, in order, and has got or has in flight what it is owed. |
| RoomFeed.UploadsPlayed | src/server/pkg/Room/Room.go:249-272 | Carried out call by call, the uploads of a client leave the archive with exactly those drawings more, every other client on the map with exactly those ranges and messages in flight, nobody off it with anything, and the map as it was but for that client. |
| RoomFeed.ProcessClient | src/server/pkg/Room/Room.go:228-280 | The loop answers packages in order: a user's drawing is written, a message sent, a mistaken command removes the client; it stops, removing the client, exactly at the first drawing or message of one that is no user. |
| RadioCalls.SentExactly | src/server/pkg/Radio/Radio.go:137-170 | With delivery in order, the bytes sent to a client that asked in range and has nothing left to come are archive[min(start, size)..] as it was at the join, and then all data written, sent to all, or sent to it since, in the order of the calls. |
| RadioCalls.ToldIsCalled | src/server/pkg/Radio/Radio.go:206-258 | In every prune-free run, what a client that is registered to the end is told, with what the write then under way will announce, are the write under way at the beginning and then every call, each write as the range behind the one before. |
| RadioCalls.ArchiveIsWritten | src/server/pkg/Radio/Radio.go:246-258 | After every prune-free run the archive is what it was and then all of the data of the writes whose append came, in the order in which they began, whoever is on the map. |
| RadioCalls.WholeWrite | src/server/pkg/Radio/Radio.go:246-258 | One write, with any number of clients: the data is at the end of the archive, each client on the map has exactly its range more in flight, and no other record changes. |
| FrameCalls.EachFrameHanded | src/server/pkg/Radio/Radio.go:206-258 | In any order of delivery, a drained registered client was sent each frame exactly as often as it was in the archive from its start at the join and was handed over since. |
| RadioMap.RegisteredIff | src/server/pkg/Radio/Radio.go:97-182 | After every legal run, prunes included, a record is on the map if and only if it was, and no removal, timeout, close or failed write of its socket and no join with it came since. |
| RadioMap.JoinedIsOn | src/server/pkg/Radio/Radio.go:132 | A client that joins is on the map with its own record, whoever else is, and stays there exactly until then. |
| RadioMap.StepMap | src/server/pkg/Radio/Radio.go:132-182 | Of all sockets an event takes exactly the named ones off the map; a join puts its socket on it with the newest record; every other one keeps what it had. |
| RadioMap.LeavesForGood | src/server/pkg/Radio/Radio.go:143-182 | A client that is removed, times out, closes or breaks off is off the map in every later run, is told nothing, and is sent no more than was queued and in flight; when it closed or broke off, nothing at all. |
| RadioMap.OffMapForGood | src/server/pkg/Radio/Radio.go:172-182 | So it is with every record off the map, in every later run, prunes and joins of the same socket included. |
| RadioMap.EndedForGood | src/server/pkg/Radio/Radio.go:143-147 | When the goroutine of such a record has ended, its queue and all that was written for it stay as they are, for ever. |
| RadioMap.LeavingTouches | src/server/pkg/Radio/Radio.go:143-243 | Removals change no record; a helper that waited too long loses exactly its chunk, the others in flight staying in order; a close ends the goroutine; no other record changes. |
| RadioMap.FetchOutcome | src/server/pkg/Radio/Utils.go:126-152 | A fetch changes nothing when the front cannot be read; otherwise the front leaves the queue, exactly what the network takes of it is sent, and the goroutine ends exactly when that is not all. |
| RadioServe.ServedToTheEnd | src/server/pkg/Radio/Radio.go:137-170 | From every sound state, a live client whose queue and chunks in flight lie inside the archive can be served by deliveries and fetches of its own alone until nothing is left, having been sent exactly what they stood for. |
| RadioServe.RunPassesBy | src/server/pkg/Radio/Radio.go:97-282 | In every run, a record that no event is about keeps its queue, what is in flight to it and what was sent. |
| RadioServe.DeliverMoves | src/server/pkg/Radio/Radio.go:148-161 | Whichever chunk arrives is the one taken out of what is in flight, and the queue stands for it behind what it stood for before. |
| RadioServe.SingleSendHands | src/server/pkg/Radio/Radio.go:189-204 | Data for one client is at the end of its queue at once, before what is in flight, and nobody else gets it. |
| RadioServe.PruneClears | src/server/pkg/Radio/Radio.go:81-95 | A prune empties the archive and exactly the queues of the clients on the map; what is in flight, being written and already written to connections stays, and so does the map. |
| RadioRuns.JoinQueues | src/server/pkg/Radio/Radio.go:105-123 | Whatever a join asks for, its queue stands for the archive from min(start, size) on when it asks for no more than there is, and else for exactly as many positions as it asks for. |
| ServerRuns.WrittenIsUploads | src/server/pkg/Radio/Radio.go:137-170 | The connection of a real server was written archive[start..] as at the join and then the uploads since, in order. |
| SocketReader.CorruptFrameFails | src/server/pkg/Socket/SocketReader.go:90-94 | A frame that says it is compressed and is too short or does not inflate ends the parse with an error, after exactly the packages of the frames before it. |
| SocketReader.ReadableIff | src/server/pkg/Socket/SocketReader.go:86-108 | A whole frame is read exactly when its flag is not set or what is behind its size inflates; the package has the header's type, the plain data, and the frame. |
| HeaderBits.PackedBits | src/server/pkg/Socket/Utils.go:50-60 | In what is packed, bit 0 says whether it is compressed, bits 1 and 2 are the type, and the rest are zero. |
| Bytes.BigEndianOrders | src/server/pkg/Socket/Utils.go:19-35 | Sizes compare as their four bytes do, the first one deciding first. |
| RadioRuns.NoGapNoExtra | src/server/pkg/Radio/Radio.go:97-170 | From any join, after any run and in every order of delivery, with `write` in its real steps: what a registered client was sent, has queued, has in flight or is about to be told of names each archive position from min(start, size at join) to the end exactly once, no other position, and one more time exactly the write that was in the file but unannounced at the join and what was asked for beyond the end; the bytes sent are the archive's at the positions sent. |
| RadioRuns.NamedIsOwed | src/server/pkg/Radio/Radio.go:81-282 | The same account after every legal run, with prunes at any moment: each position of the archive from the base on once, less what a write misplaced by a prune did not announce, and besides it exactly what was under way at the join or the last prune. |
| RadioRuns.ExactStream | src/server/pkg/Radio/Radio.go:137-170 | With delivery in order and no half-announced write at the join, the sent, queued and in-flight cells are the archive from the start to the join, then every write and every message in the order made. |
| RadioRuns.ExactArchive | src/server/pkg/Radio/Radio.go:246-258 | The archive part of that stream, with a write not yet announced, is the archive from the start to its end. |
| RadioRuns.DrainedStream | src/server/pkg/Radio/Radio.go:137-170 | When such a client has nothing queued or in flight, its archive bytes are archive[start..]. |
| RadioRuns.StoryHolds | src/server/pkg/Radio/Radio.go:97-135 | After any run a joined record still satisfies the invariant, keeps min(start, size at join) as its base, owes besides the archive exactly the write unannounced at the join and what was asked for beyond the end, and, when the join was in range, is owed the archive from the base to the join followed by exactly what the run told it. |
| RadioRuns.FetchAlwaysSends | src/server/pkg/Radio/Utils.go:126-152 | A client that joins in range, while a write in progress, if any, is at the end of the archive, never afterwards has an unreadable front in any prune-free run: a fetch never has to push back. |
| RadioRuns.QuietRunsAlwaysSend | src/server/pkg/Radio/Utils.go:126-152 | After every legal run whose prunes come at quiet moments, the front of every live client that joined in range, or has seen a prune since, can be read. |
| RadioRuns.FetchesDrain | src/server/pkg/Radio/Radio.go:162-167 | After every legal run, for every live record whose queue lies inside the archive: with successful socket writes, exactly as many fetches as there are items empty the queue and send what it stood for. |
| RadioRuns.QueueStaysShort | src/server/pkg/Radio/Utils.go:86-124 | After every legal run, for every record there ever was, the queue is compact, and if it is one run of L bytes it has at most (L-1)/CHUNK_SIZE + 1 items. |
| RadioRuns.QueueHasNoLimit | src/server/pkg/Radio/Utils.go:81-124 | From any state with a registered client and no write under way, for every n: a legal run that makes its queue n items longer. |
| RadioInvariant.StepSound | src/server/pkg/Radio/Radio.go:81-282 | Every step, prunes at any moment included, keeps the account: the queue is what was delivered less what was sent, the bytes sent are the archive's, the delivered and in-flight chunks of a registered client are those owed up to order, the owed ones name each position as `NamedIsOwed` says, and every queue is compact. |
| RadioInvariant.RunSound | src/server/pkg/Radio/Radio.go:260-282 | So does every legal run. |
| RadioInvariant.StepKeeps | src/server/pkg/Radio/Radio.go:81-282 | Every step but an unquiet prune also keeps everything inside the archive: the write in progress, the chunks in flight to every live client, and the chunks delivered to every one that joined in range or has seen a prune. |
| RadioInvariant.RunKeeps | src/server/pkg/Radio/Radio.go:260-282 | So does every run whose prunes come at quiet moments. |
| RadioInvariant.PruneSafeIff | src/server/pkg/Radio/Radio.go:81-95 | In any state: after a prune the write in progress and what is queued for and in flight to all live clients, on the map or off it and however they joined, is inside the archive if and only if no range was in flight to any of them, none was queued for one off the map, and a write in progress had read the size zero and put nothing in the file. |
| RadioPrunes.StaleRangeWaits | src/server/pkg/Radio/Radio.go:81-95 | A file chunk in flight at a prune is delivered into the emptied queue; in every later prune-free run nothing is sent, and the front is unreadable, until the archive reaches the end of the chunk, or of its first CHUNK_SIZE bytes. |
| RadioPrunes.PruneAccount | src/server/pkg/Radio/Radio.go:81-95 | After a prune at any moment (but not inside a write that had read a position other than zero), in every prune-free run a registered client gets every position of the new archive once and, besides, every range that was in flight to it or unannounced at the prune. |
| RadioPrunes.StaleByteSentTwice | src/server/pkg/Radio/Radio.go:81-95 | For a client that asks for anything, in range or not: a legal run in which a prune comes at an unquiet moment and a byte written after it is sent twice. |
| RadioPrunes.OffMapIsSentNewByte | src/server/pkg/Radio/Radio.go:172-176 | A legal run in which a client is taken off the map, the archive is pruned, and the client is sent a byte of the new archive that it was never told of. |
| RadioPrunes.FrontWaits | src/server/pkg/Radio/Utils.go:126-152 | Behind a front outside the archive nothing is sent, in every prune-free run, until the archive reaches it; behind one before zero, never. |
| RadioPrunes.NegativeStartWaits | src/server/pkg/Radio/Radio.go:97-135 | A client that joins with a negative start is never sent anything, in any later prune-free run; throughout, its front ends before zero if and only if the first piece of its join did, which is when a fetch crashes on an empty disk. |
| RadioPrunes.CrashingJoinIff | src/server/pkg/Radio/Radio.go:105-123 | A join queues a front that ends before zero if and only if its start and the piece size chosen for its length sum up to less than zero. |
| RadioPrunes.JoinMidWrite | src/server/pkg/Radio/Radio.go:246-258 | A legal run in which a client joins in the middle of a write and is sent the byte written twice. |
| EndToEnd.NoFrameTorn | src/server/pkg/Radio/Utils.go:53-152 | In every run and every order of delivery, with prunes before the join at any moment, if only whole frames are archived and sent, a write in progress at the join was at the end of the archive, and the client joined inside it at a frame boundary, the bytes sent to it and those its queue stands for are whole frames, each one archived or sent. |
| EndToEnd.StreamWhole | src/server/pkg/Radio/Utils.go:53-152 | The same in any sound state whose archive and record are framed, for what was sent since the join or the last prune. |
| FramePrunes.PruneTearsIff | src/server/pkg/Radio/Radio.go:81-95 | After such a run, a prune leaves a registered client with whole frames if and only if its queue is empty, or starts with something in memory, or at the end of a frame of the archive. |
| FramePrunes.OutWholeIff | src/server/pkg/Radio/Radio.go:81-95 | The same condition says, of any framed record and after earlier prunes that tore none, whether all that was ever sent is whole frames. |
| FrameSeams.SentWholeIff | src/server/pkg/Radio/Utils.go:126-152 | When what was sent is whole frames and then the archive from a frame boundary to the queue's front, it is whole frames if and only if the front is at a frame boundary or in memory. |
| FrameSeams.CutAppended | src/server/pkg/Radio/Utils.go:86-124 | Appending a framed chunk, in the merge and every other case, keeps the queue cut well: neighbours go on one from another or meet at the ends of frames. |
| FrameSeams.CutSent | src/server/pkg/Radio/Utils.go:126-152 | Sending the front keeps that, and that what was sent is whole frames up to some boundary and the archive from there to the new front. |
| FramePrunes.WholeAfterPrune | src/server/pkg/Radio/Radio.go:81-95 | If it tears none, and is quiet for this client and the write in progress, all the client has been sent stays whole together with its queue, in every later prune-free run of frames, wherever the client had joined. |
| FramePrunes.LongFrameTorn | src/server/pkg/Radio/Utils.go:53-74 | For every frame longer than CHUNK_SIZE: a legal run with only this frame at whose end a quiet prune leaves the client with its first part. |
| FramePrunes.JoinTornIff | src/server/pkg/Radio/Utils.go:53-74 | For every archive of whole frames longer than CHUNK_SIZE: a run of a join and one fetch after which a quiet prune tears a frame if and only if none ends where the first piece does. |
| FramePrunes.TwoShortFrames | src/server/pkg/Radio/Utils.go:53-74 | None does in an archive of two frames of at most CHUNK_SIZE each (the first shorter) that together are longer. |
| EndToEnd.EachFrameOnce | src/server/pkg/Radio/Radio.go:206-258 | A registered client with nothing queued or in flight has been sent each frame exactly as often as it is in the archive from its start at the join and in what it was told of, in any order of delivery. |
| EndToEnd.ReadStream | src/server/pkg/Socket/Socket.go:110-142 | A fresh reader given such a client's stream in any pieces ends without error and with nothing left; its packages are the stream's frames in order, each one archived or sent. |
| EndToEnd.WholeStreamParses | src/server/pkg/Socket/SocketReader.go:48-113 | Any string of whole readable frames parses completely, to one package for each frame. |
| FrameAlignment.StepArchive | src/server/pkg/Radio/Radio.go:81-282 | Every step of frames, prunes at any moment included, keeps the archive whole issued frames, and what is announced in place a range between two frames. |
| FrameAlignment.StepFramed | src/server/pkg/Radio/Radio.go:81-282 | Every step keeps each live record framed: every chunk in flight is an issued frame or a range between two frames, and so is every chunk delivered when the client joined at a frame boundary, its queue then being cut well; a prune does when it is quiet for that client. |
| FrameAlignment.RunFramed | src/server/pkg/Radio/Radio.go:260-282 | So does every prune-free run of frames from a state whose write in progress is in place. |
| FrameAlignment.RestIsWhole | src/server/pkg/Radio/Radio.go:105-123 | From a frame boundary on, a whole archive is whole frames, and they are the archive's frames behind the boundary. |
| Room.Relay | src/server/pkg/Room/Room.go:249-272 | When everything archived and sent is a frame the room handed over, of an uploaded drawing or message or of a reply of the server's own, every package a client reads from the radio is such an upload, type and content unchanged, or one of the replies. |
| ServerRuns.WrittenIsWhole | src/server/pkg/Radio/Radio.go:137-170 | The connection of a real server that went along such a story was written exactly what the story says was sent, and together with its task list, over the real file, that is whole issued frames. |
| ServerRuns.WrittenIsArchive | src/server/pkg/Radio/Radio.go:137-170 | When the story was in order and everything is sent, the archive part of what was written is the real file's contents from the client's start on. |
| Room.PartsAreFrames | src/server/pkg/Room/Room.go:228-280 | What a room hands to its radio for a parsed package is one whole frame, and every reader makes the same package of it. |
| Room.JoinClamps | src/server/pkg/Room/Handlers.go:163-187 | The request and the join together queue exactly [min(start, W), W), W the size at the join, if and only if what was announced fits, whatever happened to the archive in between; it is then at least the length announced, and otherwise exactly that length and beyond the end. If the archive was not pruned in between, it fits exactly when everything was asked for or no more than is there. |
| Room.HandleArchive | src/server/pkg/Room/Handlers.go:163-173 | The answer never announces less than what lies behind the start, and announces something else than exactly that only when more was asked for. |
| RadioObject.Server.AddClient | src/server/pkg/Radio/Radio.go:97-135 | Does exactly the join step, over the objects as they are: a new record on the map and every other socket as it was; its list stands for the file from min(start, size) on, or for as much as was asked for beyond the end. |
| RadioObject.Server.Write | src/server/pkg/Radio/Radio.go:246-258 | Undisturbed, does exactly its three steps: the file has all of the data more, every client on the map has a helper with exactly its range, and no other record has. |
| RadioObject.Server.TellAll | src/server/pkg/Radio/Radio.go:223-257 | The loop over the map starts one helper for each registered client and changes nothing else. |
| RadioObject.Server.SingleSend | src/server/pkg/Radio/Radio.go:189-204 | Queues the data for the one client on the map, or does nothing when it is not on it; gets stuck, changing nothing, exactly when the client is on the map and its goroutine does not take the data in time. |
| RadioObject.Server.Deliver | src/server/pkg/Radio/Radio.go:148-161 | Moves one in-flight chunk to the end of its client's queue. |
| RadioObject.Server.FetchAndSend | src/server/pkg/Radio/Radio.go:162-167 | Sends the front of the queue; a failed socket write ends the goroutine and takes exactly this client off the map, and otherwise the map stays. It crashes exactly on a front that ends before zero, with nothing on the disk. |
| RadioObject.Server.HelperTimeout | src/server/pkg/Radio/Radio.go:228-243 | Loses the helper's chunk and takes exactly this socket off the map. |
| RadioObject.Server.CloseCallback | src/server/pkg/Radio/Radio.go:143-147 | Takes exactly this client's socket off the map and ends its goroutine. |
| RadioObject.Server.RemoveClient | src/server/pkg/Radio/Radio.go:172-176 | Takes exactly one socket off the map; every other one keeps its client, and no object but the map changes. |
| RadioObject.Server.RemoveAllClients | src/server/pkg/Radio/Radio.go:178-182 | Empties the map; the goroutines stay. |
| RadioObject.Server.Prune | src/server/pkg/Radio/Radio.go:81-95 | Gives exactly the clients on the map an empty queue and clears the file; what is in flight stays. |
| TaskList.RadioTaskList.AppendToPendings | src/server/pkg/Radio/Utils.go:86-124 | Leaves the queue that `Appended` says, in the merge, non-neighbour, RAM-bottom and empty cases. |
| TaskList.AppendIsLocal | src/server/pkg/Radio/Utils.go:86-124 | Whatever is above it, the bottom item and a range that continues it become what the two at once would be in an empty queue; anything else goes behind the bottom as into an empty queue. |
| TaskList.AppendedDenotes | src/server/pkg/Radio/Utils.go:86-124 | Appending a chunk appends its meaning to the queue's, in every case. |
| TaskList.AppendedCompact | src/server/pkg/Radio/Utils.go:86-124 | Appending keeps every file chunk non-empty and at least CHUNK_SIZE long when its continuation follows. |
| TaskList.CompactIsShort | src/server/pkg/Radio/Utils.go:86-124 | A compact queue that is one run of L bytes has at most (L-1)/CHUNK_SIZE + 1 items. |
| TaskList.SplitChunk | src/server/pkg/Radio/Utils.go:53-74 | Cuts the range into the pieces of `Split`; both loops end. |
| TaskList.ChunkSizeFor | src/server/pkg/Radio/Utils.go:55-62 | The doubled piece size is CHUNK_SIZE or at most 1/1024 of the length, so it cannot overflow. |
| TaskList.SplitPartitions | src/server/pkg/Radio/Utils.go:53-74 | The pieces are positive, each followed by its continuation, all but the last at least CHUNK_SIZE long, and cover exactly the range. |
| TaskList.SplitCount | src/server/pkg/Radio/Utils.go:53-74 | There are at most MAX_CHUNKS_IN_QUEUE pieces if and only if that many of the chosen size cover the length, never more than one beyond, and at least 1024 once the size was doubled. |
| TaskList.OnePieceTooMany | src/server/pkg/Radio/Utils.go:13-17 | A range of MAX_CHUNKS_IN_QUEUE chunks and one byte is cut into one piece more. |
| TaskList.PiecesCount | src/server/pkg/Radio/Utils.go:53-74 | There are at most n pieces of a size if and only if n of that size cover the length. |
| TaskList.RadioTaskList.FetchAndSend | src/server/pkg/Radio/Utils.go:126-152 | Sends exactly the front item's bytes and drops it, or leaves queue and connection as they were, over a real buffered file; crashes exactly on a front that ends before zero with nothing on the disk. |
| TaskList.Draining | src/server/pkg/Radio/Utils.go:126-152 | After k fetches a queue that lies inside the archive has lost its first k items and sent what they stood for. |
| TaskList.RadioTaskList.PushFront | src/server/pkg/Radio/Utils.go:47-51 | The shifting copy puts the chunk in front of the unchanged queue. |
| TaskList.RadioTaskList.PopFront | src/server/pkg/Radio/Utils.go:41-45 | Takes the front item off. |
| TaskList.RadioTaskList.PopBack | src/server/pkg/Radio/Utils.go:35-39 | Takes the last item off. |
| BufferedFile.Run | src/server/pkg/BufferedFile/BufferedFile.go:57-237 | In every run of writes, reads, clears, flushes, size queries and restarts, with any buffer sizes, the file answers and ends as one flat string of bytes would. |
| BufferedFile.TimerTransparency | src/server/pkg/BufferedFile/BufferedFile.go:57-110 | Two files on equal disks, with buffers of any sizes, asked the same but flushed and restarted each at its own moments, give the same replies and end with the same contents. |
| BufferedFile.BufferedFile.Write | src/server/pkg/BufferedFile/BufferedFile.go:140-170 | Appends exactly the data and keeps the counters and the file position; the disk changes only when the data does not fit with room to spare, and then holds the old contents, and the data too when that is larger than the buffer. |
| BufferedFile.BufferedFile.CopyIn | src/server/pkg/BufferedFile/BufferedFile.go:164-166 | The copying loop never stops short. |
| BufferedFile.BufferedFile.ReadAt | src/server/pkg/BufferedFile/BufferedFile.go:172-213 | Succeeds exactly when the range is inside the contents, and then fills the data with that range, from disk, buffer or both; crashes exactly on a range that ends before zero with nothing on the disk; is refused otherwise. |
| BufferedFile.BufferedFile.Sync | src/server/pkg/BufferedFile/BufferedFile.go:72-110 | Moves the buffer to the disk and changes no content. |
| BufferedFile.BufferedFile.Clear | src/server/pkg/BufferedFile/BufferedFile.go:122-134 | Leaves nothing, in memory and on disk. |
| BufferedFile.BufferedFile.Close | src/server/pkg/BufferedFile/BufferedFile.go:112-120 | Leaves the whole contents on the disk. |
| BufferedFile.BufferedFile.constructor | src/server/pkg/BufferedFile/BufferedFile.go:215-237 | Opening stands for what the disk holds. |
| SocketReader.Reader.OnData | src/server/pkg/Socket/SocketReader.go:48-113 | Starts the handlers of, and leaves the fields at, what `Parse` says of the old fields and the chunk. |
| SocketReader.Reader.RunReadLoop | src/server/pkg/Socket/Socket.go:110-142 | However the stream is cut into reads, the packages, the status and the fields are those of parsing it in one piece; after an error the reads not taken are what is missing from the buffer. |
| SocketReader.ParseAppend | src/server/pkg/Socket/SocketReader.go:48-113 | Parsing a stream is parsing its front and, unless that failed, going on from the fields it left. |
| SocketReader.ParseConserves | src/server/pkg/Socket/SocketReader.go:48-113 | The repacked frames, then the size in hand or what the error swallowed, then the buffer are all the bytes received. |
| SocketReader.ParseSettles | src/server/pkg/Socket/SocketReader.go:76-85 | Without error no complete frame is left unread. |
| SocketReader.ParseFrames | src/server/pkg/Socket/SocketReader.go:76-112 | Readable frames followed by an incomplete one parse to exactly those frames and keep exactly the incomplete one. |
| SocketReader.EmittedAreReadable | src/server/pkg/Socket/SocketReader.go:86-108 | The repacked bytes of every emitted package are one frame that parses to the same package. |
| SocketReader.RoundTrip | src/server/pkg/Socket/Utils.go:19-64 | The encodings of any list of packs whose bodies are shorter than 2^32 parse to their types (mod 4) and data in order, with nothing left. |
| SocketReader.OnePackIff | src/server/pkg/Socket/Utils.go:19-35 | One encoded pack is read as one package with nothing left if and only if its body is shorter than 2^32. |
| Framing.ProtocolPack | src/server/pkg/Socket/Utils.go:19-35 | The four shifted bytes read as the data's size (mod 2^32), in front of the data. |
| Framing.BufferToPack | src/server/pkg/Socket/Utils.go:37-64 | The first byte is odd exactly when compression was asked, half of it is the type (mod 4); behind it is the data as it is, or when asked its size (mod 2^32) and the zlib stream. |
| Framing.AssamblePack | src/server/pkg/Socket/Socket.go:89-95 | The size (mod 2^32), and behind it a body packed so. |
| Framing.FramedIff | src/server/pkg/Socket/Utils.go:19-35 | Packing makes a whole frame exactly of the non-empty bodies shorter than 2^32. |
| Framing.WholeFront | src/server/pkg/Socket/Utils.go:19-35 | Cut at the end of a frame, a stream is whole frames exactly when its rest is, and its frames are those of both parts. |
| Framing.FramesOfConcat | src/server/pkg/Socket/Utils.go:19-35 | Frames put one after the other are found again one by one. |
| HeaderBits.WrittenBits | src/server/pkg/Socket/Utils.go:51-60 | For every type, whatever its size and sign, the arithmetic header byte is the one the masks and shifts make. |
| HeaderBits.ReadBits | src/server/pkg/Socket/SocketReader.go:69-74 | The flag and type read by arithmetic are those read by mask and shift. |
| Common.QCompress | src/server/pkg/Common/Common.go:7-25 | The prefix reads as the size of the data (mod 2^32), the rest is its zlib stream, and both decompress to the data again. |
| Common.QUncompress | src/server/pkg/Common/Common.go:27-45 | Drops the prefix and inflates; a block too short for a prefix is an error. |

## Left out

- zlib (RFC 1950): a parameter, a writer and a reader with the promise that inflating what was deflated gives the data back; an inflation that breaks off in the middle is whatever the reader delivers, as the source ignores that error.
- Disk errors and short writes: disk calls succeed; the source counts bytes as written even when they were not.
- TCP, JSON, logging, clocks: a socket write is told how many bytes the network takes, and a timer or a timeout is a step that may happen at any time.
- Direct sends (`directSendCommand`, `directSendMessage`, `broadcastCommand`): they share the socket with the radio and may fall between two pieces of a frame; all stream properties are about the radio's own output for one record.
- The same socket joining twice: two records, each with its own output; how the two interleave on the socket is not modelled.
- RadioObject.Server.SingleSend: says when it gets stuck on the lock it holds, not that the lock stays held; after that no step that takes the radio's lock happens.
- The timeouts of the room's `processClient`: a part that is dropped after 5 seconds is an event that does not happen, and a client that is silent for 30 is one that uploads no more.
- What a command does: the router and its handlers; only whether it is mistaken, which removes the client, is told to the loop.
- UploadsLand, EachUploadArrives and UploadsInOrder: are about clients that got no reply of their own meanwhile; with replies, SentExactly and EachFrameHanded say the same of everything handed over.
- SentExactly, EachFrameHanded: need no write under way at the join and at the end; ToldIsCalled and ArchiveIsWritten say what is then still to come.
- NoGapNoExtra: has no prune after the join (NamedIsOwed and PruneAccount cover prunes), and none between a write's reading the size and the join; NamedIsOwed says what is then missing.
- ExactStream: requires delivery in the order the helpers were started, because the source's goroutines promise no order; NoGapNoExtra, NoFrameTorn and EachFrameOnce need no order.
- FetchAlwaysSends: is about clients that join in range; for the others FrontWaits says how long nothing is sent.
- A fetch is one step: the source holds only the list's lock, so a prune and a new write can fall between taking the front off and reading the file, and the bytes at an old position of the new archive are then sent. Runs without a prune are not affected.
- A crash ends the process: the steps of `Radio.dfy` have no crash; a front before zero just waits there.
- A join with an enormous length: the source makes a block of a piece's size before it reads, which panics when there is no such block; here a block of any size can be made.
- Machine integers: unbounded here, except the 32-bit size of a frame and the bound on the piece size; `int` is taken to have 64 bits.
- Reads and writes of the file inside one call: the buffered file's lock makes each call one step; its size counter, read without the lock, is taken at the moment of the append.
- Signatures, room and manager counters, options, expiry, keys: simple branches or hashes beside the pipeline.
- Closing and removing a radio, and panics on file errors: the process or the room ends there.
