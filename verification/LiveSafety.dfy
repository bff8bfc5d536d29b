/** Live mode: who executes, and what becomes of the images, in every reachable state. */
module LiveSafety {
  import opened Prelude
  import Images
  import opened Target
  import opened Live

  /** The events after which the target executes the tree while the source has not been told to
      give it up: the reply to a successful restore is lost, a hook of the hauler raises after the
      tree was restored, or the ack of `post-dump` does not reach CRIU. */
  predicate Orphans(e: Event) {
    match e
    case Rpc(RestoreFromImages, Served(out, delivered)) => out == Raises(2) || (out.Returns? && !delivered)
    case Ack(how) => how.AckLost?
    case _ => false
  }

  /** The last step of the driver was a successful call to restore: the ack comes next. */
  predicate RestoreReported(log: seq<Event>) {
    log != [] &&
    var e := log[|log| - 1];
    if ByDriver(e) then ReportsRestore(e) else RestoreReported(log[..|log| - 1])
  }

  /** One of the events above has happened, or the source process died between the restore and the
      ack. */
  predicate Orphaned(log: seq<Event>) {
    log != [] &&
    var init, e := log[..|log| - 1], log[|log| - 1];
    Orphaned(init) || Orphans(e) || (e.Exit? && RestoreReported(init))
  }

  predicate OrphansNow(s: Run, e: Event) {
    Orphans(e) || (e.Exit? && s.pc.AtAck?)
  }

  predicate TreeInv(s: Run, orphaned: bool) {
    && s.tgt.mode == LIVE && (s.tgt.restored ==> s.tgt.running)
    && (s.exited ==> !s.tree.Frozen? && !s.up)
    && (s.gone ==> !s.up)
    && (s.acked <==> s.tree.Terminated?)
    && (s.acked ==> s.tgt.restored && !orphaned && (s.pc.CleanUp? || s.pc.Stopped?))
    && (!s.acked && !s.pc.AtAck? ==> (s.tgt.running <==> orphaned))
    && PhaseInv(s, orphaned)
  }

  predicate PhaseInv(s: Run, orphaned: bool) {
    && (s.pc.Prepare? || s.pc.Iterate? || s.pc.Final? ==> s.tree.Running? && !orphaned)
    && (s.pc.HandOver? ==> (s.exited || s.tree.Frozen?) && !orphaned)
    && (s.pc.AtFail? ==> s.exited || s.tree.Frozen?)
    && (s.pc.AtAck? ==> (s.exited || s.tree.Frozen?) && s.tgt.restored && (orphaned <==> s.exited))
    && (s.pc.CleanUp? ==> s.acked)
    && (s.pc.Stopped? ==> if s.pc.ok then s.tgt.restored else !s.acked)
  }

  predicate Early(pc: Pc) {
    pc.Prepare? || pc.Iterate? || pc.Final?
  }

  // Each kind of step on its own.

  lemma TreePrepare(s: Run, e: Event, orphaned: bool)
    requires TreeInv(s, orphaned) && Can(s, e) && ByDriver(e) && s.pc.Prepare? && !e.Rpc?
    ensures TreeInv(NextRun(s, e), orphaned || OrphansNow(s, e))
  {
  }

  lemma TreePrepareCall(s: Run, e: Event, orphaned: bool)
    requires TreeInv(s, orphaned) && Can(s, e) && e.Rpc? && s.pc.Prepare?
    ensures TreeInv(NextRun(s, e), orphaned || OrphansNow(s, e))
  {
  }

  lemma TreeIterate(s: Run, e: Event, orphaned: bool)
    requires TreeInv(s, orphaned) && Can(s, e) && ByDriver(e) && s.pc.Iterate?
    ensures TreeInv(NextRun(s, e), orphaned || OrphansNow(s, e))
  {
  }

  lemma TreeFinal(s: Run, e: Event, orphaned: bool)
    requires TreeInv(s, orphaned) && Can(s, e) && ByDriver(e) && s.pc.Final?
    ensures TreeInv(NextRun(s, e), orphaned || OrphansNow(s, e))
  {
  }

  lemma TreeLate(s: Run, e: Event, orphaned: bool)
    requires TreeInv(s, orphaned) && Can(s, e) && ByDriver(e) && !Early(s.pc) && !e.Rpc?
    ensures TreeInv(NextRun(s, e), orphaned || OrphansNow(s, e))
  {
  }

  lemma TreeLateCall(s: Run, e: Event, orphaned: bool)
    requires TreeInv(s, orphaned) && Can(s, e) && e.Rpc? && !Early(s.pc)
    ensures TreeInv(NextRun(s, e), orphaned || OrphansNow(s, e))
  {
  }

  lemma TreeStep(s: Run, e: Event, orphaned: bool)
    requires TreeInv(s, orphaned) && Can(s, e)
    ensures TreeInv(NextRun(s, e), orphaned || OrphansNow(s, e))
  {
    if !ByDriver(e) {
      TreeAround(s, e, orphaned);
    } else if s.pc.Prepare? {
      if e.Rpc? { TreePrepareCall(s, e, orphaned); } else { TreePrepare(s, e, orphaned); }
    } else if s.pc.Iterate? {
      TreeIterate(s, e, orphaned);
    } else if s.pc.Final? {
      TreeFinal(s, e, orphaned);
    } else {
      if e.Rpc? { TreeLateCall(s, e, orphaned); } else { TreeLate(s, e, orphaned); }
    }
  }

  lemma TreeAround(s: Run, e: Event, orphaned: bool)
    requires TreeInv(s, orphaned) && Can(s, e) && !ByDriver(e)
    ensures TreeInv(NextRun(s, e), orphaned || OrphansNow(s, e))
  {
  }

  predicate ReportsRestore(e: Event) {
    e.Rpc? && e.call.RestoreFromImages? && Succeeds(e.fate)
  }

  lemma AckStep(s: Run, e: Event)
    requires Can(s, e)
    ensures NextRun(s, e).pc.AtAck? <==> if ByDriver(e) then ReportsRestore(e) else s.pc.AtAck?
  {
    if ByDriver(e) {
      if Early(s.pc) { AckEarly(s, e); } else { AckLate(s, e); }
    }
  }

  lemma AckEarly(s: Run, e: Event)
    requires ByDriver(e) && Early(s.pc) && !NextPc(s, e).Nowhere?
    ensures !NextPc(s, e).AtAck? && !ReportsRestore(e)
  {
  }

  lemma AckLate(s: Run, e: Event)
    requires ByDriver(e) && !Early(s.pc) && !NextPc(s, e).Nowhere?
    ensures NextPc(s, e).AtAck? <==> ReportsRestore(e)
  {
  }

  lemma {:induction false} TreeAlways(cfg: Config, mem: map<nat, int>, log: seq<Event>)
    requires Possible(cfg, mem, log)
    ensures TreeInv(After(cfg, mem, log).run, Orphaned(log))
    ensures After(cfg, mem, log).run.pc.AtAck? <==> RestoreReported(log)
  {
    if log != [] {
      var init, e := log[..|log| - 1], log[|log| - 1];
      TreeAlways(cfg, mem, init);
      TreeStep(After(cfg, mem, init).run, e, Orphaned(init));
      AckStep(After(cfg, mem, init).run, e);
    }
  }

  /** Never killed without a restored target: no assumption on replies, hooks or acks. */
  lemma NoLoss(cfg: Config, mem: map<nat, int>, log: seq<Event>)
    requires Possible(cfg, mem, log)
    ensures var s := After(cfg, mem, log).run;
      (s.acked <==> s.tree.Terminated?) && (s.acked ==> s.tgt.restored && s.tgt.running)
  {
    TreeAlways(cfg, mem, log);
  }

  function Copies(s: Run): nat {
    (if s.tree.Running? then 1 else 0) + (if s.tgt.running then 1 else 0)
  }

  /** Source and target never execute at once unless one of the orphaning events has happened. */
  lemma NeverBoth(cfg: Config, mem: map<nat, int>, log: seq<Event>)
    requires Possible(cfg, mem, log)
    ensures Copies(After(cfg, mem, log).run) == 2 ==> Orphaned(log)
  {
    TreeAlways(cfg, mem, log);
  }

  /** Once the source process has ended, exactly one copy executes if and only if none of the
      orphaning events happened; otherwise both do. */
  lemma OneCopyAtTheEnd(cfg: Config, mem: map<nat, int>, log: seq<Event>)
    requires Possible(cfg, mem, log) && After(cfg, mem, log).run.exited
    ensures Copies(After(cfg, mem, log).run) == if Orphaned(log) then 2 else 1
  {
    TreeAlways(cfg, mem, log);
  }

  /** How `start_migration` ended tells who executes: if it raised or died, the source tree was thawed
      and never given up, unless the ack had gone out; if it returned, the target runs the restored
      tree. The other host executes too exactly in the orphaned runs. */
  lemma EndingIsTruthful(cfg: Config, mem: map<nat, int>, log: seq<Event>)
    requires Possible(cfg, mem, log) && After(cfg, mem, log).run.exited
    ensures var s := After(cfg, mem, log).run;
      && (s.acked || s.pc == Stopped(true) ==>
            s.tgt.restored && s.tgt.running && (s.tree.Running? <==> Orphaned(log)))
      && (!s.acked && s.pc != Stopped(true) ==> s.tree.Running? && (s.tgt.running <==> Orphaned(log)))
      && (s.pc == Stopped(false) ==> !s.acked)
  {
    TreeAlways(cfg, mem, log);
  }

  /** The source tree is given up exactly if an ack of `post-dump` was sent, and the last thing the
      driver did before that was a restore that the target reported as done. */
  lemma {:induction false} OnlyAckTerminates(cfg: Config, mem: map<nat, int>, log: seq<Event>)
    requires Possible(cfg, mem, log)
    ensures After(cfg, mem, log).run.acked <==> exists e | e in log :: e.Ack? && !e.how.AckLost?
    ensures After(cfg, mem, log).run.acked ==> exists k: nat | k < |log| :: SentAfterRestore(log, k)
  {
    if log != [] {
      var n := |log| - 1;
      var init, e := log[..n], log[n];
      OnlyAckTerminates(cfg, mem, init);
      TreeAlways(cfg, mem, init);
      assert log == init + [e];
      if After(cfg, mem, init).run.acked {
        var k: nat :| k < n && SentAfterRestore(init, k);
        assert log[..k] == init[..k];
        assert SentAfterRestore(log, k);
      } else if e.Ack? && !e.how.AckLost? {
        AckComesLast(After(cfg, mem, init).run, e);
        assert SentAfterRestore(log, n);
      }
    }
  }

  predicate SentAfterRestore(log: seq<Event>, k: nat)
    requires k < |log|
  {
    log[k].Ack? && !log[k].how.AckLost? && RestoreReported(log[..k])
  }

  lemma AckComesLast(s: Run, e: Event)
    requires Can(s, e) && e.Ack?
    ensures s.pc.AtAck?
  {
  }

  // ---- images ------------------------------------------------------------------------------

  predicate KeepInv(s: Sys) {
    && (s.data.src.removed ==> s.run.acked)
    && (s.data.tgt.img.Some? && s.data.tgt.img.value.removed ==> s.run.tgt.restored)
  }

  lemma KeepStep(s: Sys, e: Event, orphaned: bool)
    requires TreeInv(s.run, orphaned) && KeepInv(s) && Can(s.run, e)
    ensures KeepInv(Sys(NextRun(s.run, e), NextData(s.run, s.data, e)))
  {
    RestoredStays(s.run, e);
  }

  lemma RestoredStays(s: Run, e: Event)
    requires Can(s, e)
    ensures s.tgt.restored ==> NextRun(s, e).tgt.restored
    ensures s.acked ==> NextRun(s, e).acked
    ensures e.CloseImages? ==> s.pc.CleanUp?
  {
  }

  lemma {:induction false} KeepAlways(cfg: Config, mem: map<nat, int>, log: seq<Event>)
    requires Possible(cfg, mem, log)
    ensures KeepInv(After(cfg, mem, log))
  {
    if log != [] {
      var init, e := log[..|log| - 1], log[|log| - 1];
      KeepAlways(cfg, mem, init);
      TreeAlways(cfg, mem, init);
      KeepStep(After(cfg, mem, init), e, Orphaned(init));
    }
  }

  /** Neither host removes its images in a run, wherever it is cut off and whatever `keep_images`
      says, unless the target has restored. */
  lemma ImagesOutliveFailure(cfg: Config, mem: map<nat, int>, log: seq<Event>)
    requires Possible(cfg, mem, log)
    ensures var s := After(cfg, mem, log);
      !s.run.tgt.restored ==> !s.data.src.removed && (s.data.tgt.img.Some? ==> !s.data.tgt.img.value.removed)
  {
    KeepAlways(cfg, mem, log);
    TreeAlways(cfg, mem, log);
  }
}
