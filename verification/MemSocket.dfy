/** The memory socket: tar archives and CRIU page streams, one after the other, over one stream of
    bytes (phaul/util.py, `tarfile_fileobj_wrap`; phaul/images.py, `img_tar` and `untar_thread`). */
module MemSocket {
  import opened Prelude

  type Byte = x: int | 0 <= x < 256

  const BLOCKSIZE: nat := 512
  const RECORDSIZE: nat := 10240

  // ---- the contract of tarfile -----------------------------------------------------------

  function Zeros(n: nat): seq<Byte> {
    seq(n, _ => 0)
  }

  /** Up to the next multiple of RECORDSIZE. */
  function Padded(n: nat): nat {
    if n % RECORDSIZE == 0 then n else n + (RECORDSIZE - n % RECORDSIZE)
  }

  /** Members, two zero blocks, and zeros up to a full record. */
  function Archive(members: seq<Byte>): seq<Byte> {
    members + Zeros(Padded(|members| + 2 * BLOCKSIZE) - |members|)
  }

  /** The reader takes one zero block for the end of the archive, and stops there. */
  function Needed(members: nat): nat {
    members + BLOCKSIZE
  }

  // ---- what discarding achieves ---------------------------------------------------------

  /** Where a reader that stopped at `stop` leaves the stream after `discard_unread_input`. */
  function AfterDiscard(stop: nat): nat {
    Padded(stop)
  }

  /** A reader that stopped at `stop` of an archive with `n` bytes of members leaves the stream at
      the end of the archive, unless it stopped exactly at the end of a record right after the
      first zero block: then the second zero block begins one more record, and that is left unread. */
  lemma AlignedUnlessExact(n: nat, stop: nat)
    requires n % BLOCKSIZE == 0 && Needed(n) <= stop <= Padded(n + 2 * BLOCKSIZE)
    ensures AfterDiscard(stop) == Padded(n + 2 * BLOCKSIZE) <==> !(stop == Needed(n) && stop % RECORDSIZE == 0)
    ensures stop == Needed(n) && stop % RECORDSIZE == 0 ==> AfterDiscard(stop) + RECORDSIZE == Padded(n + 2 * BLOCKSIZE)
  {
    PaddedNext(n + BLOCKSIZE, n + 2 * BLOCKSIZE);
    if (n + BLOCKSIZE) % RECORDSIZE == 0 {
      LastBlockAlone(n + BLOCKSIZE, stop);
    } else {
      PaddedBetween(n + BLOCKSIZE, stop);
      PaddedMultiple(n + BLOCKSIZE);
    }
  }

  /** `m` ends a record, and the archive has one more. */
  lemma LastBlockAlone(m: nat, stop: nat)
    requires m % RECORDSIZE == 0 && m <= stop <= m + RECORDSIZE
    ensures Padded(stop) == if stop == m then m else m + RECORDSIZE
  {
    var q := m / RECORDSIZE;
    if stop == m + RECORDSIZE {
      RecordOf(stop, q + 1);
    } else {
      RecordOf(stop, q);
    }
  }

  lemma PaddedMultiple(m: nat)
    requires m % RECORDSIZE != 0
    ensures Padded(m) != m
  {
  }

  /** Padding is the same for everything within a record. */
  lemma PaddedBetween(a: nat, b: nat)
    requires a <= b <= Padded(a)
    ensures Padded(b) == Padded(a)
  {
    var q := a / RECORDSIZE;
    assert a == q * RECORDSIZE + a % RECORDSIZE;
    if a % RECORDSIZE != 0 {
      assert Padded(a) == (q + 1) * RECORDSIZE;
      if b < Padded(a) {
        RecordOf(b, q);
      } else {
        RecordOf(b, q + 1);
      }
    }
  }

  lemma RecordOf(b: nat, q: nat)
    requires q * RECORDSIZE <= b < (q + 1) * RECORDSIZE
    ensures b % RECORDSIZE == b - q * RECORDSIZE
  {
  }

  /** One block more stays in the record or begins the next. */
  lemma PaddedNext(a: nat, b: nat)
    requires a % BLOCKSIZE == 0 && b == a + BLOCKSIZE
    ensures if a % RECORDSIZE == 0 then Padded(b) == a + RECORDSIZE else Padded(b) == Padded(a)
    ensures b <= Padded(b) < b + RECORDSIZE && Padded(b) % RECORDSIZE == 0
  {
    var q, m := a / RECORDSIZE, a / BLOCKSIZE;
    var k := m - 20 * q;
    assert a == BLOCKSIZE * m && a == q * RECORDSIZE + BLOCKSIZE * k && 0 <= k < 20;
    RecordOf(a, q);
    if k == 19 {
      RecordOf(b, q + 1);
    } else {
      RecordOf(b, q);
      RecordOf((q + 1) * RECORDSIZE, q + 1);
    }
  }

  // ---- every way of chunking ----------------------------------------------------------------

  function Total(chunks: seq<nat>): nat {
    if chunks == [] then 0 else Total(chunks[..|chunks| - 1]) + chunks[|chunks| - 1]
  }

  /** The sizes of the reads of one archive: none is empty or above a record, they stop as soon as
      they have what is needed, and nothing but the archive is there to be read. */
  ghost predicate Reads(n: nat, chunks: seq<nat>) {
    && chunks != []
    && (forall i | 0 <= i < |chunks| :: 0 < chunks[i] <= RECORDSIZE)
    && Total(chunks[..|chunks| - 1]) < Needed(n) <= Total(chunks) <= Padded(n + 2 * BLOCKSIZE)
  }

  /** Reads of whole records only. */
  lemma {:induction false} WholeRecords(k: nat) returns (chunks: seq<nat>)
    ensures |chunks| == k && Total(chunks) == k * RECORDSIZE
    ensures forall i | 0 <= i < |chunks| :: chunks[i] == RECORDSIZE
  {
    if k == 0 {
      chunks := [];
    } else {
      var init := WholeRecords(k - 1);
      chunks := init + [RECORDSIZE];
      assert chunks[..k - 1] == init;
    }
  }

  /** What follows on the socket: an archive with `n` bytes of members, or a page stream of `n` bytes. */
  datatype Segment = Tar(n: nat) | Pages(n: nat)

  function Length(s: Segment): nat {
    if s.Tar? then Padded(s.n + 2 * BLOCKSIZE) else s.n
  }

  /** How much the reader of a segment takes from the socket; CRIU takes exactly its pages. */
  function Taken(s: Segment, chunks: seq<nat>): nat {
    if s.Tar? then AfterDiscard(Total(chunks)) else s.n
  }

  /** An archive whose first zero block ends a record. */
  predicate Unlucky(s: Segment) {
    s.Tar? && Needed(s.n) % RECORDSIZE == 0
  }

  ghost predicate Plausible(segments: seq<Segment>, plan: seq<seq<nat>>) {
    |plan| == |segments| && forall i | 0 <= i < |segments| :: segments[i].Tar? ==> Reads(segments[i].n, plan[i])
  }

  function Start(segments: seq<Segment>, i: nat): nat
    requires i <= |segments|
  {
    if i == 0 then 0 else Start(segments, i - 1) + Length(segments[i - 1])
  }

  /** Where the reader of segment `i` starts. */
  function Position(segments: seq<Segment>, plan: seq<seq<nat>>, i: nat): nat
    requires i <= |segments| == |plan|
  {
    if i == 0 then 0 else Position(segments, plan, i - 1) + Taken(segments[i - 1], plan[i - 1])
  }

  ghost predicate Framed(segments: seq<Segment>, plan: seq<seq<nat>>)
    requires |segments| == |plan|
  {
    forall i: nat | i <= |segments| :: Position(segments, plan, i) == Start(segments, i)
  }

  ghost predicate WellFormed(segments: seq<Segment>) {
    forall i | 0 <= i < |segments| :: segments[i].n % BLOCKSIZE == 0 || segments[i].Pages?
  }

  lemma TakesAll(s: Segment, chunks: seq<nat>)
    requires s.Tar? ==> s.n % BLOCKSIZE == 0 && Reads(s.n, chunks)
    ensures !Unlucky(s) ==> Taken(s, chunks) == Length(s)
  {
    if s.Tar? {
      AlignedUnlessExact(s.n, Total(chunks));
    }
  }

  lemma {:induction false} LuckyFraming(segments: seq<Segment>, plan: seq<seq<nat>>, i: nat)
    requires WellFormed(segments) && Plausible(segments, plan) && i <= |segments|
    requires forall k | 0 <= k < i :: !Unlucky(segments[k])
    ensures Position(segments, plan, i) == Start(segments, i)
  {
    if i > 0 {
      LuckyFraming(segments, plan, i - 1);
      TakesAll(segments[i - 1], plan[i - 1]);
    }
  }

  /** Some reads of any archive; those of an unlucky one leave a record on the socket. */
  lemma SomeReads(n: nat) returns (chunks: seq<nat>)
    requires n % BLOCKSIZE == 0
    ensures Reads(n, chunks)
    ensures Unlucky(Tar(n)) ==> Taken(Tar(n), chunks) + RECORDSIZE == Length(Tar(n))
  {
    var k := Needed(n) / RECORDSIZE;
    PaddedNext(n + BLOCKSIZE, n + 2 * BLOCKSIZE);
    assert Needed(n) == k * RECORDSIZE + Needed(n) % RECORDSIZE;
    if Unlucky(Tar(n)) {
      chunks := WholeRecords(k);
      assert Total(chunks) == Total(chunks[..k - 1]) + RECORDSIZE;
      AlignedUnlessExact(n, Total(chunks));
    } else {
      var records := WholeRecords(k);
      chunks := records + [Needed(n) % RECORDSIZE];
      assert chunks[..k] == records;
    }
  }

  lemma {:induction false} SomePlan(segments: seq<Segment>) returns (plan: seq<seq<nat>>)
    requires WellFormed(segments)
    ensures Plausible(segments, plan)
    ensures forall i | 0 <= i < |segments| && Unlucky(segments[i]) :: Taken(segments[i], plan[i]) < Length(segments[i])
  {
    if segments == [] {
      plan := [];
    } else {
      var last := segments[|segments| - 1];
      var init := segments[..|segments| - 1];
      var rest := SomePlan(init);
      var chunks: seq<nat> := [];
      if last.Tar? {
        chunks := SomeReads(last.n);
      }
      plan := rest + [chunks];
      forall i | 0 <= i < |segments| && segments[i].Tar?
        ensures Reads(segments[i].n, plan[i])
        ensures Unlucky(segments[i]) ==> Taken(segments[i], plan[i]) < Length(segments[i])
      {
        if i < |init| { assert segments[i] == init[i]; }
      }
    }
  }

  /** Framing of whole runs: for a given sequence of archives and page streams, every reader starts
      at the first byte of its own segment however the reads are chunked, if and only if no archive
      is unlucky. */
  lemma FramedIffLucky(segments: seq<Segment>)
    requires WellFormed(segments)
    ensures (forall plan | Plausible(segments, plan) :: Framed(segments, plan))
       <==> (forall i | 0 <= i < |segments| :: !Unlucky(segments[i]))
  {
    if i :| 0 <= i < |segments| && Unlucky(segments[i]) {
      var plan := SomePlan(segments);
      assert Position(segments, plan, i + 1) == Position(segments, plan, i) + Taken(segments[i], plan[i]);
      assert Start(segments, i + 1) == Start(segments, i) + Length(segments[i]);
      assert !Framed(segments, plan);
    } else {
      forall plan | Plausible(segments, plan) ensures Framed(segments, plan) {
        forall i: nat | i <= |segments| ensures Position(segments, plan, i) == Start(segments, i) {
          LuckyFraming(segments, plan, i);
        }
      }
    }
  }

  /** Every reader starts at the first byte of its segment; where the last one ends does not matter. */
  ghost predicate Aligned(segments: seq<Segment>, plan: seq<seq<nat>>)
    requires |segments| == |plan|
  {
    forall i: nat | i < |segments| :: Position(segments, plan, i) == Start(segments, i)
  }

  lemma AlignedIffLucky(segments: seq<Segment>)
    requires WellFormed(segments)
    ensures (forall plan | Plausible(segments, plan) :: Aligned(segments, plan))
       <==> (forall i | 0 <= i < |segments| - 1 :: !Unlucky(segments[i]))
  {
    if i :| 0 <= i < |segments| - 1 && Unlucky(segments[i]) {
      var plan := SomePlan(segments);
      assert Position(segments, plan, i + 1) == Position(segments, plan, i) + Taken(segments[i], plan[i]);
      assert Start(segments, i + 1) == Start(segments, i) + Length(segments[i]);
      assert !Aligned(segments, plan);
    } else {
      forall plan | Plausible(segments, plan) ensures Aligned(segments, plan) {
        forall i: nat | i < |segments| ensures Position(segments, plan, i) == Start(segments, i) {
          LuckyFraming(segments, plan, i);
        }
      }
    }
  }

  /** An archive of one 9728-byte file (with its header, 19 blocks): read record by record, its last
      record is taken for the beginning of whatever comes next. */
  lemma AnUnluckyArchive()
    ensures Reads(9728, [10240])
    ensures Length(Tar(9728)) == 20480 && Taken(Tar(9728), [10240]) == 10240
  {
    assert Total([RECORDSIZE]) == Total([]) + RECORDSIZE;
    assert [RECORDSIZE][..0] == [];
  }

  /** How much a read of at most `size` gets if `there` bytes were sent and `arrived` have come. */
  function Given(size: nat, arrived: nat, there: nat): (n: nat)
    requires size > 0
    ensures n <= size && n <= there && (n == 0 <==> there == 0)
    ensures 0 < arrived <= size && arrived <= there ==> n == arrived
  {
    if there == 0 then 0 else if 0 < arrived <= size && arrived <= there then arrived else 1
  }

  // ---- the socket and its two ends --------------------------------------------------------------

  class Socket {
    var inflight: seq<Byte> // sent and not yet received

    constructor ()
      ensures inflight == []
    {
      inflight := [];
    }

    method SendAll(data: seq<Byte>)
      modifies this
      ensures inflight == old(inflight) + data
    {
      inflight := inflight + data;
    }

    /** Any part of what is there, up to `size`; nothing only if there is nothing. */
    method Recv(size: nat, arrived: nat) returns (data: seq<Byte>)
      requires size > 0
      modifies this
      ensures data + inflight == old(inflight) && |data| == Given(size, arrived, |old(inflight)|)
    {
      var n := Given(size, arrived, |inflight|);
      data, inflight := inflight[..n], inflight[n..];
    }

    /** With MSG_WAITALL. */
    method RecvAll(size: nat) returns (data: seq<Byte>)
      modifies this
      ensures data + inflight == old(inflight)
      ensures |data| == if size <= |old(inflight)| then size else |old(inflight)|
    {
      var n := if size <= |inflight| then size else |inflight|;
      data, inflight := inflight[..n], inflight[n..];
    }
  }

  class TarfileFileobjWrap {
    const sk: Socket
    var nread: nat

    constructor (sk: Socket)
      ensures this.sk == sk && nread == 0
    {
      this.sk, nread := sk, 0;
    }

    method Read(size: nat, arrived: nat) returns (data: seq<Byte>)
      requires size > 0
      modifies this, sk
      ensures data + sk.inflight == old(sk.inflight) && |data| == Given(size, arrived, |old(sk.inflight)|)
      ensures nread == old(nread) + |data|
    {
      data := sk.Recv(size, arrived);
      nread := nread + |data|;
    }

    method Write(data: seq<Byte>) returns (n: nat)
      modifies sk
      ensures n == |data| && sk.inflight == old(sk.inflight) + data
    {
      sk.SendAll(data);
      return |data|;
    }

    method DiscardUnreadInput()
      modifies this, sk
      ensures nread == Padded(old(nread))
      ensures var n := Padded(old(nread)) - old(nread);
        sk.inflight == old(sk.inflight)[if n <= |old(sk.inflight)| then n else |old(sk.inflight)|..]
    {
      var remainder := nread % RECORDSIZE;
      if remainder > 0 {
        var dropped := sk.RecvAll(RECORDSIZE - remainder);
        nread := nread + (RECORDSIZE - remainder);
      }
    }
  }

  /** `img_tar`: writes one archive. */
  class ImgTar {
    const fileobj: TarfileFileobjWrap
    var offset: nat
    ghost const before: seq<Byte>
    ghost var members: seq<Byte>

    ghost predicate Valid()
      reads this, fileobj, fileobj.sk
    {
      offset == |members| && fileobj.sk.inflight == before + members
    }

    constructor (sk: Socket)
      ensures Valid() && fresh(fileobj) && fileobj.sk == sk && before == sk.inflight && members == []
    {
      fileobj := new TarfileFileobjWrap(sk);
      offset, before, members := 0, sk.inflight, [];
    }

    /** A member: header and data, in whole blocks. */
    method Add(member: seq<Byte>)
      requires Valid()
      modifies this, fileobj.sk
      ensures Valid() && members == old(members) + member
    {
      var n := fileobj.Write(member);
      offset, members := offset + |member|, members + member;
      assert before + (old(members) + member) == before + old(members) + member;
    }

    method Close()
      requires Valid()
      modifies fileobj.sk
      ensures fileobj.sk.inflight == before + Archive(members)
    {
      var end := offset + 2 * BLOCKSIZE;
      var n := fileobj.Write(Zeros(2 * BLOCKSIZE));
      if end % RECORDSIZE > 0 {
        n := fileobj.Write(Zeros(RECORDSIZE - end % RECORDSIZE));
        assert Zeros(2 * BLOCKSIZE) + Zeros(RECORDSIZE - end % RECORDSIZE) == Zeros(Padded(end) - offset);
      }
    }
  }

  /** The circumstances of unpacking an archive: how much has arrived at each read, and after which
      reads unpacking raises. */
  datatype Weather = Weather(arrived: nat -> nat, raises: nat -> bool)

  /** None of the first `n` reads is followed by an exception. */
  ghost predicate Calm(w: Weather, n: nat) {
    forall k: nat | k < n :: !w.raises(k)
  }

  /** Read `k` from a socket with `there` bytes got what there was to get. */
  ghost predicate SizeAt(w: Weather, there: nat, chunks: seq<nat>, k: nat)
    requires k < |chunks|
  {
    var before := Total(chunks[..k]);
    before <= there && chunks[k] == Given(RECORDSIZE, w.arrived(k), there - before)
  }

  ghost predicate Sizes(w: Weather, there: nat, chunks: seq<nat>) {
    forall k: nat | k < |chunks| :: SizeAt(w, there, chunks, k)
  }

  lemma OneMoreChunk(w: Weather, there: nat, chunks: seq<nat>, n: nat)
    requires Sizes(w, there, chunks) && Total(chunks) <= there
    requires n == Given(RECORDSIZE, w.arrived(|chunks|), there - Total(chunks))
    ensures Sizes(w, there, chunks + [n]) && Total(chunks + [n]) == Total(chunks) + n
    ensures (chunks + [n])[..|chunks|] == chunks
  {
    var more := chunks + [n];
    assert more[..|chunks|] == chunks;
    forall k: nat | k < |more| ensures SizeAt(w, there, more, k) {
      if k < |chunks| {
        assert SizeAt(w, there, chunks, k) && more[..k] == chunks[..k];
      }
    }
  }

  /** `extractall`: read until the end of the archive is seen. It succeeds exactly if that comes and
      unpacking has not raised before. */
  method ExtractAll(fileobj: TarfileFileobjWrap, needed: nat, w: Weather)
    returns (ok: bool, data: seq<Byte>, ghost chunks: seq<nat>)
    requires fileobj.nread == 0 && needed > 0
    modifies fileobj, fileobj.sk
    ensures data + fileobj.sk.inflight == old(fileobj.sk.inflight)
    ensures fileobj.nread == |data| == Total(chunks) && Sizes(w, |old(fileobj.sk.inflight)|, chunks)
    ensures chunks != [] && Calm(w, |chunks| - 1) && Total(chunks[..|chunks| - 1]) < needed
    ensures ok ==> needed <= |data| && Calm(w, |chunks|)
    ensures !ok ==> w.raises(|chunks| - 1) || (needed > |data| && fileobj.sk.inflight == [])
  {
    data, chunks := [], [];
    ghost var there := |fileobj.sk.inflight|;
    var i := 0;
    while |data| < needed
      invariant data + fileobj.sk.inflight == old(fileobj.sk.inflight)
      invariant fileobj.nread == |data| == Total(chunks) && |chunks| == i && Sizes(w, there, chunks) && Calm(w, i)
      invariant i > 0 ==> Total(chunks[..i - 1]) < needed
      invariant |data| >= needed ==> i > 0
      decreases needed - |data|
    {
      var chunk := ReadOne(fileobj, data, w.arrived(i));
      OneMoreChunk(w, there, chunks, |chunk|);
      data, chunks := data + chunk, chunks + [|chunk|];
      if w.raises(i) || chunk == [] {
        return false, data, chunks;
      }
      i := i + 1;
    }
    ok := true;
  }

  /** One read of the loop, after `data` was read. */
  method ReadOne(fileobj: TarfileFileobjWrap, ghost data: seq<Byte>, arrived: nat) returns (chunk: seq<Byte>)
    modifies fileobj, fileobj.sk
    ensures (data + chunk) + fileobj.sk.inflight == data + old(fileobj.sk.inflight)
    ensures |chunk| == Given(RECORDSIZE, arrived, |old(fileobj.sk.inflight)|)
    ensures chunk == [] ==> fileobj.sk.inflight == []
    ensures fileobj.nread == old(fileobj.nread) + |chunk|
  {
    chunk := fileobj.Read(RECORDSIZE, arrived);
    assert (data + chunk) + fileobj.sk.inflight == data + (chunk + fileobj.sk.inflight);
  }

  lemma Rest(archive: seq<Byte>, data: seq<Byte>, rest: seq<Byte>, stop: nat, end: nat)
    requires data + rest == archive && stop == |data| <= end <= |archive|
    ensures data == archive[..stop] && rest[end - stop..] == archive[end..]
  {
  }

  lemma SomeChunks(w: Weather, there: nat, chunks: seq<nat>, n: nat)
    requires Sizes(w, there, chunks) && chunks != [] && there == Padded(n + 2 * BLOCKSIZE) && Total(chunks) <= there
    requires Total(chunks[..|chunks| - 1]) < Needed(n) <= Total(chunks)
    ensures Reads(n, chunks)
  {
    PaddedBound(n + 2 * BLOCKSIZE);
    forall k: nat | k < |chunks| ensures 0 < chunks[k] <= RECORDSIZE {
      assert SizeAt(w, there, chunks, k);
      TotalGrows(chunks, k, |chunks| - 1);
    }
  }

  lemma PaddedBound(n: nat)
    ensures n <= Padded(n)
  {
  }

  lemma {:induction false} TotalGrows(chunks: seq<nat>, a: nat, b: nat)
    requires a <= b <= |chunks|
    ensures Total(chunks[..a]) <= Total(chunks[..b])
  {
    if a < b {
      TotalGrows(chunks, a, b - 1);
      assert chunks[..b][..b - 1] == chunks[..b - 1];
    }
  }

  /** `untar_thread.run`: unpack one archive, of which the first `needed` bytes tell where it ends. It
      is unpacked exactly if nothing raised. Whatever raises is swallowed, and then nothing is discarded. */
  method UntarThreadRun(sk: Socket, needed: nat, w: Weather, ghost members: seq<Byte>)
    returns (unpacked: bool, data: seq<Byte>, ghost chunks: seq<nat>)
    requires sk.inflight == Archive(members) && |members| % BLOCKSIZE == 0 && needed == Needed(|members|)
    modifies sk
    ensures data <= Archive(members) && |data| == Total(chunks) && Sizes(w, |Archive(members)|, chunks)
    ensures unpacked <==> forall k: nat | k < |chunks| :: !w.raises(k)
    ensures !unpacked ==> data + sk.inflight == Archive(members)
    ensures unpacked ==> Reads(|members|, chunks) && members <= data
    ensures unpacked ==> AfterDiscard(|data|) <= |Archive(members)|
    ensures unpacked ==> sk.inflight == Archive(members)[AfterDiscard(|data|)..]
    ensures unpacked ==> (sk.inflight == [] <==> !(|data| == needed && |data| % RECORDSIZE == 0))
  {
    var fileobj := new TarfileFileobjWrap(sk);
    ghost var archive := Archive(members);
    unpacked, data, chunks := ExtractAll(fileobj, needed, w);
    PaddedBound(|members| + 2 * BLOCKSIZE);
    assert |data| + |sk.inflight| == |archive|;
    if unpacked {
      AlignedUnlessExact(|members|, |data|);
      SomeChunks(w, |archive|, chunks, |members|);
      Rest(archive, data, sk.inflight, |data|, AfterDiscard(|data|));
      assert members == archive[..|members|];
      fileobj.DiscardUnreadInput();
    }
  }

  // ---- a whole run ------------------------------------------------------------------------------

  datatype Payload = Members(bytes: seq<Byte>) | Stream(bytes: seq<Byte>)

  function SegmentOf(p: Payload): Segment {
    if p.Members? then Tar(|p.bytes|) else Pages(|p.bytes|)
  }

  /** The source packs and sends an archive; the target's thread unpacks it, and the source waits. */
  method SendArchive(sk: Socket, members: seq<Byte>, w: Weather)
    returns (unpacked: bool, data: seq<Byte>, ghost chunks: seq<nat>)
    requires sk.inflight == [] && |members| % BLOCKSIZE == 0
    modifies sk
    ensures unpacked <==> forall k: nat | k < |chunks| :: !w.raises(k)
    ensures unpacked ==> members <= data <= Archive(members) && Reads(|members|, chunks)
    ensures unpacked ==> (sk.inflight == [] <==> Total(chunks) != Needed(|members|) || !Unlucky(Tar(|members|)))
  {
    var tar := new ImgTar(sk);
    tar.Add(members);
    tar.Close();
    assert [] + Archive([] + members) == Archive(members);
    unpacked, data, chunks := UntarThreadRun(sk, Needed(|members|), w, members);
  }

  predicate Delivered(p: Payload, data: seq<Byte>) {
    if p.Members? then p.bytes <= data <= Archive(p.bytes) else data == p.bytes
  }

  /** The reader of payload `i` made the reads `chunks`, none of which was followed by an exception. */
  ghost predicate Undisturbed(p: Payload, w: Weather, chunks: seq<nat>) {
    p.Members? ==> Reads(|p.bytes|, chunks) && forall k: nat | k < |chunks| :: !w.raises(k)
  }

  /** Archives and page streams in turn, as long as each reader leaves the socket at the end of its
      segment: every reader until then got exactly what was sent for it, and the first to fail had
      an archive on which unpacking raised, or an unlucky one of which it read just what is needed. */
  method Converse(sk: Socket, payloads: seq<Payload>, weather: nat -> Weather)
    returns (received: seq<seq<Byte>>, raised: bool, ghost plan: seq<seq<nat>>)
    requires sk.inflight == []
    requires forall p | p in payloads && p.Members? :: |p.bytes| % BLOCKSIZE == 0
    modifies sk
    ensures |received| <= |payloads| && |received| <= |plan|
    ensures forall i | 0 <= i < |received| :: Delivered(payloads[i], received[i])
    ensures forall i | 0 <= i < |received| :: Undisturbed(payloads[i], weather(i), plan[i])
    ensures |received| == |payloads| ==> sk.inflight == [] && !raised
    ensures |received| < |payloads| ==>
      var i := |received|;
      && |plan| == i + 1 && payloads[i].Members?
      && (raised <==> exists k: nat | k < |plan[i]| :: weather(i).raises(k))
      && (!raised ==> Unlucky(SegmentOf(payloads[i])) && Total(plan[i]) == Needed(|payloads[i].bytes|))
  {
    received, raised, plan := [], false, [];
    while |received| < |payloads|
      invariant |received| == |plan| <= |payloads| && sk.inflight == [] && !raised
      invariant forall i | 0 <= i < |received| :: Delivered(payloads[i], received[i])
      invariant forall i | 0 <= i < |received| :: Undisturbed(payloads[i], weather(i), plan[i])
    {
      var i := |received|;
      var data: seq<Byte>;
      ghost var chunks: seq<nat> := [];
      if payloads[i].Members? {
        var unpacked;
        unpacked, data, chunks := SendArchive(sk, payloads[i].bytes, weather(i));
        if !unpacked || sk.inflight != [] {
          return received, !unpacked, plan + [chunks];
        }
      } else {
        sk.SendAll(payloads[i].bytes);
        data := sk.RecvAll(|payloads[i].bytes|);
        assert data == (data + sk.inflight)[..|data|];
      }
      received, plan := received + [data], plan + [chunks];
    }
  }
}
