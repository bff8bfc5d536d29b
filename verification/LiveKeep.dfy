/** Live mode: on which host the images are kept, and on which they are removed. */
module LiveKeep {
  import opened Prelude
  import Images
  import opened Target
  import opened Live
  import opened LiveSafety

  /** The target has a hauler and an image store. */
  predicate Made(pc: Pc) {
    pc != Prepare(AtSetup) && !pc.Stopped? && !pc.Nowhere?
  }

  /** The options of the image store are set, here and */
  predicate LocalSet(pc: Pc) {
    pc != Prepare(AtSetup) && pc != Prepare(AtOptions) && !pc.Stopped? && !pc.Nowhere?
  }

  /** on the target. */
  predicate RemoteSet(pc: Pc) {
    LocalSet(pc) && pc != Prepare(AtRemoteOptions)
  }

  predicate Closes(log: seq<Event>) {
    exists e | e in log :: e.CloseImages?
  }

  /** The target has handled the disconnect, and a hook of the hauler did not cut that short. */
  predicate Disconnects(log: seq<Event>) {
    exists e | e in log :: e.Disconnect? && e.hookOk
  }

  predicate Handled(log: seq<Event>) {
    exists e | e in log :: e.Disconnect?
  }

  lemma OneMoreEvent(init: seq<Event>, e: Event)
    ensures Closes(init + [e]) <==> Closes(init) || e.CloseImages?
    ensures Disconnects(init + [e]) <==> Disconnects(init) || (e.Disconnect? && e.hookOk)
    ensures Handled(init + [e]) <==> Handled(init) || e.Disconnect?
  {
    assert e in init + [e];
  }

  predicate SourceKept(s: Run, src: Images.State, closed: bool) {
    && (LocalSet(s.pc) ==> src.ready && src.keep == s.cfg.keepImages)
    && (src.removed <==> closed && !s.cfg.keepImages)
  }

  predicate TargetKept(s: Run, img: Option<Images.State>, handled: bool) {
    && (s.tgt.images <==> img.Some?) && (Made(s.pc) ==> img.Some?) && (handled ==> s.gone)
    && (s.tgt.restored || (RemoteSet(s.pc) && !s.gone) ==>
          img.Some? && img.value.ready && img.value.keep == s.cfg.keepImages)
    && (s.tgt.restored ==> (img.value.removed <==> s.gone && !s.cfg.keepImages))
    && (img.Some? && !s.tgt.restored ==> !img.value.removed && (handled ==> img.value.keep))
  }

  // ---- the driver ----------------------------------------------------------------------------

  /** Only the two calls of `set_options` lead past them. */
  lemma SetStep(s: Run, e: Event)
    requires ByDriver(e) && !NextPc(s, e).Nowhere?
    ensures Made(NextPc(s, e)) ==> Made(s.pc) || (e.Rpc? && e.call == Setup(LIVE) && Succeeds(e.fate))
    ensures LocalSet(NextPc(s, e)) ==> LocalSet(s.pc) || e == Options(true)
    ensures RemoteSet(NextPc(s, e)) ==>
      RemoteSet(s.pc) || (e.Rpc? && e.call == SetOptions(s.cfg.keepImages) && Succeeds(e.fate))
    ensures e.Options? ==> s.pc == Prepare(AtOptions)
    ensures e.CloseImages? ==> s.pc == CleanUp(AtClose)
  {
    if s.pc.Prepare? { SetPrepare(s, e); } else { SetLater(s, e); }
  }

  lemma SetPrepare(s: Run, e: Event)
    requires ByDriver(e) && !NextPc(s, e).Nowhere? && s.pc.Prepare?
    ensures Made(NextPc(s, e)) ==> Made(s.pc) || (e.Rpc? && e.call == Setup(LIVE) && Succeeds(e.fate))
    ensures LocalSet(NextPc(s, e)) ==> LocalSet(s.pc) || e == Options(true)
    ensures RemoteSet(NextPc(s, e)) ==>
      RemoteSet(s.pc) || (e.Rpc? && e.call == SetOptions(s.cfg.keepImages) && Succeeds(e.fate))
    ensures (e.Options? ==> s.pc == Prepare(AtOptions)) && !e.CloseImages?
  {
  }

  lemma SetLater(s: Run, e: Event)
    requires ByDriver(e) && !NextPc(s, e).Nowhere? && !s.pc.Prepare?
    ensures RemoteSet(s.pc) && !e.Options? && (e.CloseImages? ==> s.pc == CleanUp(AtClose))
  {
  }

  /** Which calls touch the options of the store on the target, and when. */
  lemma CallStep(s: Run, e: Event)
    requires e.Rpc? && !NextPc(s, e).Nowhere?
    ensures e.call.Setup? ==> s.pc == Prepare(AtSetup) && e.call.mode == LIVE
    ensures e.call.SetOptions? ==> s.pc == Prepare(AtRemoteOptions) && e.call.keepImages == s.cfg.keepImages
    ensures e.call.RestoreFromImages? ==> s.pc == HandOver(AtRestore)
    ensures !e.call.StartHtype?
  {
    if s.pc.Prepare? {
      CallPrepare(s, e);
    } else if s.pc.Iterate? || s.pc.Final? {
      CallRound(s, e);
    } else {
      CallLate(s, e);
    }
  }

  lemma CallPrepare(s: Run, e: Event)
    requires e.Rpc? && !NextPc(s, e).Nowhere? && s.pc.Prepare?
    ensures e.call.Setup? ==> s.pc == Prepare(AtSetup) && e.call.mode == LIVE
    ensures e.call.SetOptions? ==> s.pc == Prepare(AtRemoteOptions) && e.call.keepImages == s.cfg.keepImages
    ensures !e.call.RestoreFromImages? && !e.call.StartHtype?
  {
  }

  lemma CallRound(s: Run, e: Event)
    requires e.Rpc? && !NextPc(s, e).Nowhere? && (s.pc.Iterate? || s.pc.Final?)
    ensures e.call.StartIter? || e.call.EndIter?
  {
  }

  lemma CallLate(s: Run, e: Event)
    requires e.Rpc? && !NextPc(s, e).Nowhere? && !Early(s.pc)
    ensures !e.call.Setup? && !e.call.SetOptions? && !e.call.StartHtype?
    ensures e.call.RestoreFromImages? ==> s.pc == HandOver(AtRestore)
  {
  }

  // ---- one step --------------------------------------------------------------------------------

  lemma SourceStep(s: Run, d: Data, e: Event, closed: bool)
    requires Can(s, e) && SourceKept(s, d.src, closed)
    ensures SourceKept(NextRun(s, e), NextData(s, d, e).src, closed || e.CloseImages?)
  {
    if ByDriver(e) { SetStep(s, e); }
    SourceMeans(s, d, e);
  }

  /** What an event does to the options of the source's store, and to whether it is there. */
  lemma SourceMeans(s: Run, d: Data, e: Event)
    ensures var t := NextData(s, d, e).src;
      && t.ready == (d.src.ready || e == Options(true))
      && t.keep == (if e.Options? then s.cfg.keepImages else d.src.keep)
      && t.removed == (d.src.removed || (e.CloseImages? && d.src.ready && !d.src.keep))
  {
  }

  lemma TargetCall(s: Run, d: Data, e: Event, handled: bool, orphaned: bool)
    requires Can(s, e) && TargetKept(s, d.tgt.img, handled) && TreeInv(s, orphaned) && e.Rpc? && e.fate.Served?
    ensures TargetKept(NextRun(s, e), NextData(s, d, e).tgt.img, handled)
  {
    CallStep(s, e);
    SetStep(s, e);
    StoreMeans(s, d, e);
  }

  lemma StoreMeans(s: Run, d: Data, e: Event)
    requires e.Rpc? && e.fate.Served? && Can(s, e) && (s.tgt.images <==> d.tgt.img.Some?)
    ensures var i, j, u := d.tgt.img, NextData(s, d, e).tgt.img, NextRun(s, e).tgt;
      && (u.images <==> j.Some?) && (i.Some? ==> j.Some?)
      && (j.Some? && i.None? ==> e.call.Setup? && j.value == Images.FRESH)
      && (i.Some? && !e.call.Setup? ==>
            && j.value.removed == i.value.removed
            && j.value.keep ==
                 (if e.call.SetOptions? && e.fate.out != Raises(0) then e.call.keepImages else i.value.keep)
            && j.value.ready == (i.value.ready || (e.call.SetOptions? && e.fate.out.Returns?)))
      && (i.Some? && e.call.Setup? ==> j == i || j.value == Images.FRESH)
      && (e.call == Setup(LIVE) && e.fate.out.Returns? ==> j.Some?)
      && (u.restored <==> s.tgt.restored || ((e.call.RestoreFromImages? || e.call.StartHtype?) && e.fate.out.Returns?))
      && (NextRun(s, e).gone <==> s.gone)
  {
  }

  lemma TargetLocal(s: Run, d: Data, e: Event, handled: bool)
    requires Can(s, e) && TargetKept(s, d.tgt.img, handled) && ByDriver(e) && (e.Rpc? ==> !e.fate.Served?)
    ensures TargetKept(NextRun(s, e), NextData(s, d, e).tgt.img, handled)
  {
    SetStep(s, e);
    StaysThere(s, d, e);
  }

  /** No dump and no local statement changes more of the target's store than the pages in it. */
  lemma StaysThere(s: Run, d: Data, e: Event)
    requires ByDriver(e) && (e.Rpc? ==> !e.fate.Served?)
    ensures var i, j := d.tgt.img, NextData(s, d, e).tgt.img;
      && (i.Some? <==> j.Some?)
      && (i.Some? ==> j.value.keep == i.value.keep && j.value.ready == i.value.ready)
      && (i.Some? ==> j.value.removed == i.value.removed)
  {
  }

  lemma TargetAround(s: Run, d: Data, e: Event, handled: bool)
    requires Can(s, e) && TargetKept(s, d.tgt.img, handled) && !ByDriver(e)
    ensures TargetKept(NextRun(s, e), NextData(s, d, e).tgt.img, handled || (e.Disconnect? && e.hookOk))
  {
  }

  lemma {:induction false} KeptAlways(cfg: Config, mem: map<nat, int>, log: seq<Event>)
    requires Possible(cfg, mem, log)
    ensures After(cfg, mem, log).run.cfg == cfg
    ensures SourceKept(After(cfg, mem, log).run, After(cfg, mem, log).data.src, Closes(log))
    ensures TargetKept(After(cfg, mem, log).run, After(cfg, mem, log).data.tgt.img, Disconnects(log))
    ensures After(cfg, mem, log).run.gone <==> Handled(log)
  {
    if log != [] {
      var init, e := log[..|log| - 1], log[|log| - 1];
      var s := After(cfg, mem, init);
      KeptAlways(cfg, mem, init);
      TreeAlways(cfg, mem, init);
      assert log == init + [e];
      OneMoreEvent(init, e);
      SourceStep(s.run, s.data, e, Closes(init));
      TargetStep(s.run, s.data, e, Disconnects(init), Orphaned(init));
      assert NextRun(s.run, e).gone == (s.run.gone || e.Disconnect?) && NextRun(s.run, e).cfg == cfg;
    }
  }

  lemma TargetStep(s: Run, d: Data, e: Event, handled: bool, orphaned: bool)
    requires Can(s, e) && TargetKept(s, d.tgt.img, handled) && TreeInv(s, orphaned)
    ensures TargetKept(NextRun(s, e), NextData(s, d, e).tgt.img, handled || (e.Disconnect? && e.hookOk))
  {
    if !ByDriver(e) {
      TargetAround(s, d, e, handled);
    } else if e.Rpc? && e.fate.Served? {
      TargetCall(s, d, e, handled, orphaned);
    } else {
      TargetLocal(s, d, e, handled);
    }
  }

  /** The source removes its images exactly if it got as far as closing them, and was not told to keep
      them. */
  lemma SourceImages(cfg: Config, mem: map<nat, int>, log: seq<Event>)
    requires Possible(cfg, mem, log)
    ensures After(cfg, mem, log).data.src.removed <==> !cfg.keepImages && exists e | e in log :: e.CloseImages?
  {
    KeptAlways(cfg, mem, log);
  }

  /** A target that has restored removes its images exactly if it has handled the disconnect and was
      not told to keep them; one that has not removes nothing, and once it has closed its store the
      images are kept whatever it was told. */
  lemma TargetImages(cfg: Config, mem: map<nat, int>, log: seq<Event>)
    requires Possible(cfg, mem, log)
    ensures var s := After(cfg, mem, log);
      var img := s.data.tgt.img;
      && (s.run.tgt.restored ==>
            img.Some? && (img.value.removed <==> !cfg.keepImages && exists e | e in log :: e.Disconnect?))
      && (!s.run.tgt.restored && img.Some? ==>
            !img.value.removed && ((exists e | e in log :: e.Disconnect? && e.hookOk) ==> img.value.keep))
  {
    KeptAlways(cfg, mem, log);
  }
}
