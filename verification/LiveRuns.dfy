/** Live mode: concrete runs, which show that what the theorems allow does happen. */
module LiveRuns {
  import opened Prelude
  import opened Target
  import opened Live
  import opened LiveSafety
  import opened LiveChecks
  import LiveLoop

  predicate Healthy(s: Run, cfg: Config, pc: Pc) {
    s.up && !s.exited && s.cfg == cfg && s.pc == pc
  }

  lemma Extend(cfg: Config, mem: map<nat, int>, log: seq<Event>, e: Event) returns (longer: seq<Event>)
    requires Possible(cfg, mem, log) && Can(After(cfg, mem, log).run, e)
    ensures Possible(cfg, mem, longer) && After(cfg, mem, longer).run == NextRun(After(cfg, mem, log).run, e)
    ensures longer == log + [e] && (Orphaned(log) || Orphans(e) ==> Orphaned(longer))
  {
    longer := log + [e];
    assert longer[..|log|] == log;
  }

  /** One more step of the driver without an incident. */
  lemma Onward(cfg: Config, mem: map<nat, int>, log: seq<Event>, from: Pc, e: Event, to: Pc)
    returns (longer: seq<Event>)
    requires Gets(cfg, mem, log, from) && ByDriver(e) && (e.Rpc? ==> Succeeds(e.fate))
    requires to == NextPc(After(cfg, mem, log).run, e) && !to.Nowhere?
    ensures Gets(cfg, mem, longer, to) && longer == log + [e]
    ensures var s, t := After(cfg, mem, log).run, After(cfg, mem, longer).run;
      && t.force == (s.force || Waives(e)) && t.usePre == (if e.Track? then e.on else s.usePre)
      && t.pages == (if e.Stats? then s.pages + [e.written] else s.pages) && t.tgt == TgtAfter(s.tgt, e)
  {
    longer := Extend(cfg, mem, log, e);
  }

  ghost predicate Gets(cfg: Config, mem: map<nat, int>, log: seq<Event>, pc: Pc) {
    Possible(cfg, mem, log) && Healthy(After(cfg, mem, log).run, cfg, pc)
  }

  // ---- parts of an undisturbed run, for any configuration -----------------------------------------

  lemma SetUpRun(cfg: Config, mem: map<nat, int>) returns (log: seq<Event>)
    ensures Gets(cfg, mem, log, Prepare(AtRemoteOptions))
    ensures After(cfg, mem, log).run.force == cfg.force && After(cfg, mem, log).run.pages == []
  {
    log := Onward(cfg, mem, [], Prepare(AtSetup), Answered(Setup(LIVE)), Prepare(AtOptions));
    log := Onward(cfg, mem, log, Prepare(AtOptions), Options(true), Prepare(AtRemoteOptions));
  }

  /** To the first check, or past both if they are forced. */
  lemma OptionsRun(cfg: Config, mem: map<nat, int>) returns (log: seq<Event>)
    requires cfg.force || !cfg.skipCpuCheck
    ensures Gets(cfg, mem, log, if cfg.force then Prepare(AtTrack) else Prepare(AtCpu))
    ensures After(cfg, mem, log).run.pages == []
  {
    log := SetUpRun(cfg, mem);
    var answered := Answered(SetOptions(cfg.keepImages));
    var to := if cfg.force then Prepare(AtTrack) else Prepare(AtCpu);
    log := Onward(cfg, mem, log, Prepare(AtRemoteOptions), answered, to);
  }

  lemma TrackRun(cfg: Config, mem: map<nat, int>, log: seq<Event>, on: bool) returns (longer: seq<Event>)
    requires Gets(cfg, mem, log, Prepare(AtTrack)) && cfg.preDump == Some(on)
    ensures Gets(cfg, mem, longer, if on then Iterate(AtIter) else Final(AtFinalIter)) && log <= longer
    ensures After(cfg, mem, longer).run.pages == After(cfg, mem, log).run.pages
  {
    longer := Onward(cfg, mem, log, Prepare(AtTrack), Track(on), Prepare(AtFsStart));
    var to := if on then Iterate(AtIter) else Final(AtFinalIter);
    longer := Onward(cfg, mem, longer, Prepare(AtFsStart), Local(FsStart, true), to);
  }

  lemma DumpRun(cfg: Config, mem: map<nat, int>, log: seq<Event>) returns (longer: seq<Event>)
    requires Gets(cfg, mem, log, Final(AtFinalIter))
    ensures Gets(cfg, mem, longer, HandOver(AtFinalEnd)) && log <= longer
  {
    longer := FinalDirRun(cfg, mem, log);
    longer := Onward(cfg, mem, longer, Final(AtDump), Dump({}, true, true), HandOver(AtFinalEnd));
  }

  lemma FinalDirRun(cfg: Config, mem: map<nat, int>, log: seq<Event>) returns (longer: seq<Event>)
    requires Gets(cfg, mem, log, Final(AtFinalIter))
    ensures Gets(cfg, mem, longer, Final(AtDump)) && log <= longer
  {
    var start := Answered(StartIter(cfg.finalPageServer));
    longer := Onward(cfg, mem, log, Final(AtFinalIter), start, Final(AtFinalMkDir));
    longer := Onward(cfg, mem, longer, Final(AtFinalMkDir), MakeDir(true), Final(AtDump));
  }

  lemma SendRun(cfg: Config, mem: map<nat, int>, log: seq<Event>) returns (longer: seq<Event>)
    requires Gets(cfg, mem, log, HandOver(AtFinalEnd))
    ensures Gets(cfg, mem, longer, HandOver(AtSend)) && log <= longer
  {
    longer := SyncRun(cfg, mem, log);
    longer := Onward(cfg, mem, longer, HandOver(AtAccept), Answered(StartAcceptImages(IMGDIR)), HandOver(AtSend));
  }

  lemma SyncRun(cfg: Config, mem: map<nat, int>, log: seq<Event>) returns (longer: seq<Event>)
    requires Gets(cfg, mem, log, HandOver(AtFinalEnd))
    ensures Gets(cfg, mem, longer, HandOver(AtAccept)) && log <= longer
  {
    longer := Onward(cfg, mem, log, HandOver(AtFinalEnd), Answered(EndIter), HandOver(AtFsStop));
    longer := Onward(cfg, mem, longer, HandOver(AtFsStop), Local(FsStop, true), HandOver(AtAccept));
  }

  lemma UnpackRun(cfg: Config, mem: map<nat, int>, log: seq<Event>, unpacked: bool) returns (longer: seq<Event>)
    requires Gets(cfg, mem, log, HandOver(AtSend))
    ensures Gets(cfg, mem, longer, HandOver(AtRestore)) && log <= longer
    ensures After(cfg, mem, longer).run.tgt.complete == unpacked
  {
    var received := Rpc(StopAcceptImages, Served(Returns(unpacked), true));
    longer := Onward(cfg, mem, log, HandOver(AtSend), Local(PackImages, true), HandOver(AtStopAccept));
    longer := Onward(cfg, mem, longer, HandOver(AtStopAccept), received, HandOver(AtRestore));
  }

  /** From the final dump to the request to restore. */
  lemma HandOverRun(cfg: Config, mem: map<nat, int>, log: seq<Event>, unpacked: bool) returns (longer: seq<Event>)
    requires Gets(cfg, mem, log, Final(AtFinalIter))
    ensures Gets(cfg, mem, longer, HandOver(AtRestore)) && log <= longer
    ensures After(cfg, mem, longer).run.tgt.complete == unpacked
  {
    longer := DumpRun(cfg, mem, log);
    longer := SendRun(cfg, mem, longer);
    longer := UnpackRun(cfg, mem, longer, unpacked);
  }

  lemma CompleteRun(cfg: Config, mem: map<nat, int>, log: seq<Event>) returns (longer: seq<Event>)
    requires Gets(cfg, mem, log, CleanUp(AtFinalStats))
    ensures Gets(cfg, mem, longer, CleanUp(AtRestoreTime)) && log <= longer
  {
    longer := Onward(cfg, mem, log, CleanUp(AtFinalStats), Local(FinalStats, true), CleanUp(AtComplete));
    longer := Onward(cfg, mem, longer, CleanUp(AtComplete), Answered(MigrationComplete), CleanUp(AtRestoreTime));
  }

  lemma CloseRun(cfg: Config, mem: map<nat, int>, log: seq<Event>) returns (longer: seq<Event>)
    requires Gets(cfg, mem, log, CleanUp(AtRestoreTime))
    ensures Gets(cfg, mem, longer, Stopped(true)) && log <= longer
  {
    longer := Onward(cfg, mem, log, CleanUp(AtRestoreTime), Answered(RestoreTime), CleanUp(AtClose));
    longer := Onward(cfg, mem, longer, CleanUp(AtClose), CloseImages, Stopped(true));
  }

  /** From the restore to the end of the driver. */
  lemma FinishRun(cfg: Config, mem: map<nat, int>, log: seq<Event>) returns (longer: seq<Event>)
    requires Gets(cfg, mem, log, HandOver(AtRestore))
    ensures Gets(cfg, mem, longer, Stopped(true)) && log <= longer
  {
    longer := AckRun(cfg, mem, log);
    longer := CompleteRun(cfg, mem, longer);
    longer := CloseRun(cfg, mem, longer);
  }

  lemma AckRun(cfg: Config, mem: map<nat, int>, log: seq<Event>) returns (longer: seq<Event>)
    requires Gets(cfg, mem, log, HandOver(AtRestore))
    ensures Gets(cfg, mem, longer, CleanUp(AtFinalStats)) && log <= longer
  {
    longer := Onward(cfg, mem, log, HandOver(AtRestore), Answered(RestoreFromImages), AtAck);
    longer := Onward(cfg, mem, longer, AtAck, Ack(Acked), CleanUp(AtFinalStats));
  }

  // ---- runs without checks and pre-dumps ------------------------------------------------------------

  const QUICK := Config(false, true, true, true, Some(false), true)

  lemma QuickRun(mem: map<nat, int>, unpacked: bool) returns (log: seq<Event>)
    ensures Gets(QUICK, mem, log, HandOver(AtRestore)) && After(QUICK, mem, log).run.tgt.complete == unpacked
  {
    log := OptionsRun(QUICK, mem);
    log := TrackRun(QUICK, mem, log, false);
    log := HandOverRun(QUICK, mem, log, unpacked);
  }

  /** If the reply to its successful restore call gets lost, a migration ends with two copies. */
  lemma LostReplyMakesTwo(mem: map<nat, int>) returns (log: seq<Event>)
    ensures Possible(QUICK, mem, log) && Orphaned(log)
    ensures After(QUICK, mem, log).run.exited && Copies(After(QUICK, mem, log).run) == 2
  {
    log := QuickRun(mem, true);
    log := Extend(QUICK, mem, log, Rpc(RestoreFromImages, Served(Returns(true), false)));
    assert Orphaned(log);
    log := Extend(QUICK, mem, log, Exit);
    OneCopyAtTheEnd(QUICK, mem, log);
  }

  lemma {:induction false} OrphansAreSeen(log: seq<Event>, e: Event)
    requires e in log && Orphans(e)
    ensures Orphaned(log)
  {
    if e != log[|log| - 1] {
      OrphansAreSeen(log[..|log| - 1], e);
    }
  }

  /** If the source process dies between the restore and the ack, so does one. */
  lemma DeathBeforeAckMakesTwo(mem: map<nat, int>) returns (log: seq<Event>)
    ensures Possible(QUICK, mem, log) && Orphaned(log) && !exists e | e in log :: Orphans(e)
    ensures After(QUICK, mem, log).run.exited && Copies(After(QUICK, mem, log).run) == 2
  {
    var calm := QuickRun(mem, true);
    calm := Onward(QUICK, mem, calm, HandOver(AtRestore), Answered(RestoreFromImages), AtAck);
    TreeAlways(QUICK, mem, calm);
    forall e | e in calm ensures !Orphans(e) {
      if Orphans(e) {
        OrphansAreSeen(calm, e);
      }
    }
    log := Extend(QUICK, mem, calm, Exit);
    assert Orphaned(log) by { assert log[..|log| - 1] == calm; }
    OneCopyAtTheEnd(QUICK, mem, log);
  }

  /** The thread that unpacks swallows its exceptions, and the source cannot know: here the target
      restores from images that were not unpacked, and the source gives up its tree. */
  lemma RestoredFromPartialImages(mem: map<nat, int>) returns (log: seq<Event>)
    ensures Possible(QUICK, mem, log)
    ensures var s := After(QUICK, mem, log).run;
      s.acked && s.tree.Terminated? && s.tgt.restored && !s.tgt.complete
  {
    log := QuickRun(mem, false);
    log := Onward(QUICK, mem, log, HandOver(AtRestore), Answered(RestoreFromImages), AtAck);
    log := Extend(QUICK, mem, log, Ack(Acked));
    NoLoss(QUICK, mem, log);
  }

  // ---- a run with both checks enabled and neither made ------------------------------------------------

  const CAREFUL := Config(false, false, false, false, Some(false), true)

  /** Nothing is skipped or forced; but CRIU cannot dump cpuinfo, and the migration succeeds without
      either check. */
  lemma UncheckedRun(mem: map<nat, int>) returns (log: seq<Event>)
    ensures Possible(CAREFUL, mem, log) && After(CAREFUL, mem, log).run.pc == Stopped(true) && Waived(log)
    ensures !Passed(log, CheckCpuinfo) && !Passed(log, CheckCriuVersion)
  {
    var waiver := CpuDump(NotSupported);
    log := OptionsRun(CAREFUL, mem);
    log := Onward(CAREFUL, mem, log, Prepare(AtCpu), waiver, Prepare(AtTrack));
    var checked := log;
    assert waiver in checked && Waives(waiver);
    log := TrackRun(CAREFUL, mem, log, false);
    log := HandOverRun(CAREFUL, mem, log, true);
    log := FinishRun(CAREFUL, mem, log);
    assert waiver in log;
    ChecksAreMade(CAREFUL, mem, log);
  }

  // ---- a run with nine pre-dumps ------------------------------------------------------------------------

  const EAGER := Config(false, true, true, true, Some(true), true)

  function Hundreds(k: nat): seq<nat> {
    seq(k, _ => 100)
  }

  lemma RoundRun(mem: map<nat, int>, log: seq<Event>) returns (longer: seq<Event>)
    requires Gets(EAGER, mem, log, Iterate(AtIter))
    ensures Gets(EAGER, mem, longer, Iterate(AtEndIter))
    ensures After(EAGER, mem, longer).run.pages == After(EAGER, mem, log).run.pages
    ensures After(EAGER, mem, longer).run.usePre == After(EAGER, mem, log).run.usePre
  {
    longer := Onward(EAGER, mem, log, Iterate(AtIter), Answered(StartIter(true)), Iterate(AtMkDir));
    longer := Onward(EAGER, mem, longer, Iterate(AtMkDir), MakeDir(true), Iterate(AtPreDump));
    longer := Onward(EAGER, mem, longer, Iterate(AtPreDump), PreDump({}, true), Iterate(AtEndIter));
  }

  lemma EndRun(mem: map<nat, int>, log: seq<Event>) returns (longer: seq<Event>)
    requires Gets(EAGER, mem, log, Iterate(AtEndIter))
    ensures Gets(EAGER, mem, longer, Iterate(AtStats))
    ensures After(EAGER, mem, longer).run.pages == After(EAGER, mem, log).run.pages
    ensures After(EAGER, mem, longer).run.usePre == After(EAGER, mem, log).run.usePre
  {
    longer := Onward(EAGER, mem, log, Iterate(AtEndIter), Answered(EndIter), Iterate(AtFsNext));
    longer := Onward(EAGER, mem, longer, Iterate(AtFsNext), Local(FsNext, true), Iterate(AtStats));
  }

  /** A round that sends 100 pages, as the ones before; it is the last if there were eight. */
  lemma HundredPages(mem: map<nat, int>, log: seq<Event>, k: nat) returns (longer: seq<Event>)
    requires Gets(EAGER, mem, log, Iterate(AtIter)) && k <= 8 && After(EAGER, mem, log).run.pages == Hundreds(k)
    ensures Gets(EAGER, mem, longer, if k < 8 then Iterate(AtIter) else Final(AtFinalIter))
    ensures After(EAGER, mem, longer).run.pages == Hundreds(k + 1)
    ensures After(EAGER, mem, longer).run.usePre == After(EAGER, mem, log).run.usePre
  {
    longer := RoundRun(mem, log);
    longer := EndRun(mem, longer);
    var to := if k < 8 then Iterate(AtIter) else Final(AtFinalIter);
    longer := Onward(EAGER, mem, longer, Iterate(AtStats), Stats(100), to);
    assert Hundreds(k) + [100] == Hundreds(k + 1);
  }

  lemma {:induction false} ManyRounds(mem: map<nat, int>, k: nat) returns (log: seq<Event>)
    requires k <= 8
    ensures Gets(EAGER, mem, log, Iterate(AtIter)) && After(EAGER, mem, log).run.pages == Hundreds(k)
  {
    if k == 0 {
      log := OptionsRun(EAGER, mem);
      log := TrackRun(EAGER, mem, log, true);
    } else {
      log := ManyRounds(mem, k - 1);
      log := HundredPages(mem, log, k - 1);
    }
  }

  /** The limit of eight is one too low for what it says: nine pre-dumps are made here. */
  lemma NinePreDumps(mem: map<nat, int>) returns (log: seq<Event>)
    ensures Possible(EAGER, mem, log) && After(EAGER, mem, log).run.pc == Final(AtFinalIter)
    ensures LiveLoop.PreDumps(log) == 9
  {
    log := ManyRounds(mem, 8);
    log := HundredPages(mem, log, 8);
    LiveLoop.PreDumpCount(EAGER, mem, log);
  }
}
