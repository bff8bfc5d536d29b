/** Live mode: what a run puts on the memory socket, and what that means for its readers. */
module LiveSocket {
  import opened Prelude
  import opened Target
  import opened Live
  import opened LiveChecks
  import opened MemSocket

  // ---- the segments of a run -------------------------------------------------------------------

  predicate StartsArchive(e: Event) {
    e.Rpc? && e.call.StartAcceptImages? && Succeeds(e.fate)
  }

  predicate StartsPages(e: Event) {
    e.Rpc? && e.call == StartIter(true) && Succeeds(e.fate)
  }

  /** One segment for every call that has started a reader on the target; `size` gives their sizes. */
  function SegmentsOf(log: seq<Event>, size: nat -> nat): seq<Segment> {
    if log == [] then [] else NextSegments(SegmentsOf(log[..|log| - 1], size), log[|log| - 1], size)
  }

  function NextSegments(before: seq<Segment>, e: Event, size: nat -> nat): seq<Segment> {
    if StartsArchive(e) then before + [Tar(size(|before|))]
    else if StartsPages(e) then before + [Pages(size(|before|))]
    else before
  }

  /** Nothing has been received yet. */
  predicate Untouched(pc: Pc) {
    BeforeChecks(pc) || pc == Prepare(AtCpuAccept)
  }

  /** The archive of the images is still to come. */
  predicate BeforeImages(pc: Pc) {
    pc.Prepare? || pc.Iterate? || pc.Final?
    || pc == HandOver(AtFinalEnd) || pc == HandOver(AtFsStop) || pc == HandOver(AtAccept)
  }

  /** Everything is pages but the first segment, which may be the archive of cpuinfo, and the last,
      which may be that of the images. */
  ghost predicate SocketInv(pc: Pc, segments: seq<Segment>) {
    && (Untouched(pc) ==> segments == [])
    && (forall i | 0 < i < |segments| - 1 :: segments[i].Pages?)
    && (BeforeImages(pc) ==> forall i | 0 < i < |segments| :: segments[i].Pages?)
  }

  lemma SocketWhere(s: Run, e: Event)
    requires Can(s, e)
    ensures StartsArchive(e) ==> s.pc == Prepare(AtCpuAccept) || s.pc == HandOver(AtAccept)
    ensures StartsPages(e) ==> s.pc.Iterate? || s.pc.Final?
  {
  }

  lemma SocketOpening(s: Run, e: Event)
    requires Can(s, e) && s.pc.Prepare?
    ensures Untouched(NextRun(s, e).pc) ==> Untouched(s.pc) && !StartsArchive(e)
  {
  }

  lemma SocketLater(s: Run, e: Event)
    requires Can(s, e) && !s.pc.Prepare?
    ensures !Untouched(NextRun(s, e).pc)
    ensures BeforeImages(NextRun(s, e).pc) ==> BeforeImages(s.pc) && !StartsArchive(e)
  {
  }

  lemma SocketStep(s: Run, e: Event, segments: seq<Segment>, size: nat -> nat)
    requires SocketInv(s.pc, segments) && Can(s, e)
    ensures SocketInv(NextRun(s, e).pc, NextSegments(segments, e, size))
  {
    SocketWhere(s, e);
    if s.pc.Prepare? {
      SocketOpening(s, e);
    } else {
      SocketLater(s, e);
    }
  }

  lemma {:induction false} SocketAlways(cfg: Config, mem: map<nat, int>, log: seq<Event>, size: nat -> nat)
    requires Possible(cfg, mem, log)
    ensures SocketInv(After(cfg, mem, log).run.pc, SegmentsOf(log, size))
  {
    if log != [] {
      var init, e := log[..|log| - 1], log[|log| - 1];
      SocketAlways(cfg, mem, init, size);
      SocketStep(After(cfg, mem, init).run, e, SegmentsOf(init, size), size);
    }
  }

  /** In a live run, whatever its sizes and however its reads are chunked, every reader on the socket
      starts at the first byte of its own segment if and only if the first segment, when another follows,
      is not an unlucky archive. Only the archive of cpuinfo can be: what is between is pages, and
      after the archive of the images nothing is read. */
  lemma LiveRunsStayAligned(cfg: Config, mem: map<nat, int>, log: seq<Event>, size: nat -> nat)
    requires Possible(cfg, mem, log) && WellFormed(SegmentsOf(log, size))
    ensures var segments := SegmentsOf(log, size);
      && (forall i | 0 < i < |segments| - 1 :: segments[i].Pages?)
      && ((forall plan | Plausible(segments, plan) :: Aligned(segments, plan))
          <==> |segments| < 2 || !Unlucky(segments[0]))
  {
    SocketAlways(cfg, mem, log, size);
    AlignedIffLucky(SegmentsOf(log, size));
  }

  // ---- the archive behind the flag ----------------------------------------------------------------

  /** `sync_imgs_to_target` on both ends: the target is told to receive, the source packs and sends its
      members, and the target is told to stop. Its images are complete exactly if the thread unpacked
      the archive, and then it has read all of the members. */
  method SyncImages(t: PhaulService, sk: Socket, members: seq<Byte>, w: Weather)
    returns (unpacked: bool, data: seq<Byte>, ghost chunks: seq<nat>)
    requires t.Valid() && Ready(t.View().svc, StartAcceptImages(IMGDIR))
    requires sk.inflight == [] && |members| % BLOCKSIZE == 0
    modifies t`accepting, t`complete, sk
    ensures t.Valid() && t.complete == unpacked
    ensures t.View() == Serve(Serve(old(t.View()), StartAcceptImages(IMGDIR), Returns(true)),
                              StopAcceptImages, Returns(unpacked))
    ensures t.complete <==> forall k: nat | k < |chunks| :: !w.raises(k)
    ensures unpacked ==> members <= data <= Archive(members) && Reads(|members|, chunks)
    ensures unpacked && !Unlucky(Tar(|members|)) ==> sk.inflight == []
  {
    var begun := t.RpcStartAcceptImages(IMGDIR);
    unpacked, data, chunks := SendArchive(sk, members, w);
    var ended := t.RpcStopAcceptImages(unpacked);
  }
}
