/** What a room does with its radio: src/server/pkg/Room/Handlers.go and Room.go. */
module Room {
  import opened Bytes
  import opened Common
  import opened Framing
  import opened SocketReader
  import opened TaskList
  import opened Radio
  import opened RadioRuns
  import opened FrameAlignment
  import opened EndToEnd

  /** The data length that the answer to an archive request announces, and asks the radio for.
      size is the archive's size at the request; a request of zero asks for everything. */
  method HandleArchive(size: nat, start: int, requested: int) returns (dataLength: int)
    ensures dataLength == Announced(size, start, requested)
    ensures size <= start + dataLength
    ensures start + dataLength != size ==> dataLength == requested
  {
    dataLength := size - start;
    if requested != 0 {
      dataLength := requested;
    }
    if start + dataLength <= size {
      dataLength := size - start;
    }
  }

  function Announced(size: nat, start: int, requested: int): int {
    if requested == 0 || start + requested <= size then size - start else requested
  }

  /** A request joins with exactly the archive from its start on if and only if what was announced is
      no more than there is at the join, whatever happened to the archive in between; otherwise it
      queues what was announced, beyond the end. When the archive was not pruned in between, that
      is when everything was asked for, or no more than there is at the join. */
  lemma JoinClamps(s: State, socket: nat, size: nat, start: int, requested: int)
    ensures var announced, w := Announced(size, start, requested), |s.archive|;
      var c, base := NewClient(s, socket, start, announced), if start > w then w else start;
      && (Denote(c.list) == Range(base, w - base) <==> base + announced <= w)
      && (base + announced <= w ==> announced <= |Denote(c.list)|)
      && (base + announced > w ==> announced > 0 && Denote(c.list) == Range(base, announced))
      && (size <= w ==> (base + announced <= w <==> requested == 0 || base + requested <= w))
      && (c.history.tracked <==> 0 <= start && base + announced <= w)
  {
    var announced := Announced(size, start, requested);
    JoinQueues(s, socket, start, announced);
  }

  /** What the room hands to the radio for a package from a client: a drawing is written, a message
      is sent, and nothing of a client that is not a user. */
  function PartFor(p: Package, hasUser: bool): Option<Event> {
    if !hasUser then None
    else if p.packType == DATA then Some(WriteBegin(p.repacked))
    else if p.packType == MESSAGE then Some(Send(p.repacked))
    else None
  }

  /** Whatever a client uploads, the room hands over whole frames only, and every reader makes the
      same package of them as the room's. */
  lemma PartsAreFrames(z: Zlib, upload: seq<byte>, hasUser: bool, p: Package)
    requires p in Parse(z, 0, upload).packages
    ensures PartFor(p, hasUser).Some? ==>
      && Issues(PartFor(p, hasUser).value) == {p.repacked}
      && Readable(z, p.repacked) && PackageIn(z, p.repacked) == p
  {
    EmittedAreReadable(z, 0, upload);
  }

  /** A package that some upload was parsed to and that the room hands to its radio. */
  ghost predicate Uploaded(z: Zlib, uploads: set<seq<byte>>, p: Package) {
    PartFor(p, true).Some? && exists u :: u in uploads && p in Parse(z, 0, u).packages
  }

  /** A message of the server's own, which the room encodes and sends to one client. */
  datatype Reply = Reply(header: PackHeader, data: seq<byte>)

  function ReplyPackage(z: Zlib, a: Reply): Package {
    Package(a.header.packType % 4, a.data, Assembled(z, a.header, a.data))
  }

  ghost predicate Replied(z: Zlib, replies: set<Reply>, p: Package) {
    exists a :: a in replies && p == ReplyPackage(z, a)
  }

  /** A frame that the room hands to its radio: of an upload, or of a reply. */
  ghost predicate FromRoom(z: Zlib, uploads: set<seq<byte>>, replies: set<Reply>, f: seq<byte>) {
    || (exists p :: Uploaded(z, uploads, p) && f in Issues(PartFor(p, true).value))
    || (exists a :: a in replies && f == Assembled(z, a.header, a.data))
  }

  /** When everything archived and sent came from uploads and from the server's replies, every package
      a client reads from the radio is a drawing or a message that was uploaded, type and content
      unchanged, or one of the replies. */
  method Relay(z: Zlib, ghost uploads: set<seq<byte>>, ghost replies: set<Reply>, ghost t: Story,
               pieces: seq<seq<byte>>)
    returns (packages: seq<Package>)
    requires z.RoundTrips() && forall a :: a in replies ==> Fits(z, a.header, a.data)
    requires Framed(t) && t.R() < |t.End().records| && t.Record().alive && t.Record().list == []
    requires forall f :: f in AllIssued(t) ==> FromRoom(z, uploads, replies, f)
    requires Concat(pieces) == t.Record().sent
    ensures Repacked(packages) == Frames(t.Record().sent)
    ensures forall p :: p in packages ==> Uploaded(z, uploads, p) || Replied(z, replies, p)
  {
    forall f | f in AllIssued(t) ensures Readable(z, f) {
      RoomFrameReadsBack(z, uploads, replies, f);
    }
    packages := ReadStream(z, t, pieces);
    forall p | p in packages ensures Uploaded(z, uploads, p) || Replied(z, replies, p) {
      RoomFrameReadsBack(z, uploads, replies, p.repacked);
    }
  }

  lemma RoomFrameReadsBack(z: Zlib, uploads: set<seq<byte>>, replies: set<Reply>, f: seq<byte>)
    requires z.RoundTrips() && forall a :: a in replies ==> Fits(z, a.header, a.data)
    requires FromRoom(z, uploads, replies, f)
    ensures Readable(z, f)
    ensures Uploaded(z, uploads, PackageIn(z, f)) || Replied(z, replies, PackageIn(z, f))
  {
    if a :| a in replies && f == Assembled(z, a.header, a.data) {
      AssembledIsReadable(z, a.header, a.data);
    } else {
      var p :| Uploaded(z, uploads, p) && f in Issues(PartFor(p, true).value);
      var u :| u in uploads && p in Parse(z, 0, u).packages;
      PartsAreFrames(z, u, true, p);
    }
  }
}
