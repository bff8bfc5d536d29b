/** Live mode: the compatibility checks (phaul/iters.py, `__validate_cpu` and
    `__validate_criu_version`), exactly when they are made and passed. */
module LiveChecks {
  import opened Prelude
  import opened Target
  import opened Live

  /** CRIU cannot dump cpuinfo on the source's kernel. */
  predicate Waives(e: Event) {
    e.CpuDump? && e.probe.NotSupported?
  }

  ghost predicate Waived(log: seq<Event>) {
    exists e | e in log :: Waives(e)
  }

  predicate Passes(e: Event, c: Target.Call) {
    e.Rpc? && e.call == c && Succeeds(e.fate) && e.fate.out.flag
  }

  /** The check was made, and the answer was yes. */
  ghost predicate Passed(log: seq<Event>, c: Target.Call) {
    exists e | e in log :: Passes(e, c)
  }

  /** The driver has decided about pre-dumps, which it does right after the checks. */
  ghost predicate Decided(log: seq<Event>) {
    exists e | e in log :: e.Track?
  }

  predicate WantsCpu(cfg: Config, waived: bool) {
    !cfg.skipCpuCheck && !cfg.force && !waived
  }

  predicate WantsVersion(cfg: Config, waived: bool) {
    !cfg.skipCriuCheck && !cfg.force && !waived
  }

  /** What is known of a history: `cpu` and `version` stand for the checks having got somewhere, be it
      that they were begun or that they were passed. */
  datatype Marks = Marks(waived: bool, decided: bool, cpu: bool, version: bool)

  predicate BeforeChecks(pc: Pc) {
    pc == Prepare(AtSetup) || pc == Prepare(AtOptions) || pc == Prepare(AtRemoteOptions) || pc == Prepare(AtCpu)
  }

  predicate CheckingCpu(pc: Pc) {
    pc == Prepare(AtCpuAccept) || pc == Prepare(AtCpuSend) || pc == Prepare(AtCpuStop) || pc == Prepare(AtCpuCheck)
  }

  predicate CheckingVersion(pc: Pc) {
    pc == Prepare(AtVersion) || pc == Prepare(AtVersionCheck)
  }

  predicate PastChecks(pc: Pc) {
    !BeforeChecks(pc) && !CheckingCpu(pc) && !CheckingVersion(pc) && pc != Stopped(false)
  }

  predicate CheckInv(s: Run, m: Marks) {
    && (s.force <==> s.cfg.force || m.waived)
    && (m.cpu ==> WantsCpu(s.cfg, m.waived)) && (m.version ==> WantsVersion(s.cfg, m.waived))
    && (BeforeChecks(s.pc) ==> !m.waived && !m.cpu && !m.version)
    && (s.pc == Prepare(AtCpu) || CheckingCpu(s.pc) ==> WantsCpu(s.cfg, m.waived) && !m.version)
    && (CheckingVersion(s.pc) ==> WantsVersion(s.cfg, m.waived) && (m.cpu <==> !s.cfg.skipCpuCheck))
    && (s.pc == Prepare(AtVersion) ==> !m.version)
    && (PastChecks(s.pc) || m.decided ==>
          (m.cpu <==> WantsCpu(s.cfg, m.waived)) && (m.version <==> WantsVersion(s.cfg, m.waived)))
    && (PastChecks(s.pc) && s.pc != Prepare(AtTrack) ==> m.decided)
    && (m.decided ==> (PastChecks(s.pc) && s.pc != Prepare(AtTrack)) || s.pc == Stopped(false))
    && (m.decided || (s.tree.Running? && !s.tgt.running))
  }

  /** How a step may move the marks. */
  predicate Marked(s: Run, e: Event, m: Marks, n: Marks) {
    && n.waived == (m.waived || Waives(e)) && n.decided == (m.decided || e.Track?)
    && (if CheckingCpu(s.pc) && ByDriver(e) then (m.cpu || Passes(e, CheckCpuinfo) ==> n.cpu) else n.cpu == m.cpu)
    && (if CheckingVersion(s.pc) && ByDriver(e) then (m.version || Passes(e, CheckCriuVersion) ==> n.version)
        else n.version == m.version)
    && (s.pc == Prepare(AtVersion) ==> n.version == m.version)
  }

  lemma CheckOpening(s: Run, e: Event, m: Marks, n: Marks)
    requires CheckInv(s, m) && Can(s, e) && ByDriver(e) && Marked(s, e, m, n)
    requires s.pc == Prepare(AtOptions) || s.pc == Prepare(AtCpu)
    ensures CheckInv(NextRun(s, e), n)
  {
  }

  lemma CheckSetUp(s: Run, e: Event, m: Marks, n: Marks)
    requires CheckInv(s, m) && Can(s, e) && ByDriver(e) && Marked(s, e, m, n)
    requires s.pc == Prepare(AtSetup)
    ensures CheckInv(NextRun(s, e), n)
  {
  }

  lemma CheckOptions(s: Run, e: Event, m: Marks, n: Marks)
    requires CheckInv(s, m) && Can(s, e) && ByDriver(e) && Marked(s, e, m, n)
    requires s.pc == Prepare(AtRemoteOptions)
    ensures CheckInv(NextRun(s, e), n)
  {
  }

  lemma CheckCpu(s: Run, e: Event, m: Marks, n: Marks)
    requires CheckInv(s, m) && Can(s, e) && ByDriver(e) && Marked(s, e, m, n)
    requires CheckingCpu(s.pc) && s.pc != Prepare(AtCpuCheck) && !e.Rpc?
    ensures CheckInv(NextRun(s, e), n)
  {
  }

  lemma CheckCpuCall(s: Run, e: Event, m: Marks, n: Marks)
    requires CheckInv(s, m) && Can(s, e) && ByDriver(e) && Marked(s, e, m, n)
    requires CheckingCpu(s.pc) && s.pc != Prepare(AtCpuCheck) && e.Rpc?
    ensures CheckInv(NextRun(s, e), n)
  {
  }

  lemma CheckVerdict(s: Run, e: Event, m: Marks, n: Marks)
    requires CheckInv(s, m) && Can(s, e) && ByDriver(e) && Marked(s, e, m, n)
    requires s.pc == Prepare(AtCpuCheck)
    ensures CheckInv(NextRun(s, e), n)
  {
  }

  lemma CheckVersion(s: Run, e: Event, m: Marks, n: Marks)
    requires CheckInv(s, m) && Can(s, e) && ByDriver(e) && CheckingVersion(s.pc) && Marked(s, e, m, n)
    ensures CheckInv(NextRun(s, e), n)
  {
  }

  lemma CheckTrack(s: Run, e: Event, m: Marks, n: Marks)
    requires CheckInv(s, m) && Can(s, e) && ByDriver(e) && Marked(s, e, m, n)
    requires s.pc == Prepare(AtTrack) || s.pc == Prepare(AtFsStart)
    ensures CheckInv(NextRun(s, e), n)
  {
  }

  lemma CheckRound(s: Run, e: Event, m: Marks, n: Marks)
    requires CheckInv(s, m) && Can(s, e) && ByDriver(e) && (s.pc.Iterate? || s.pc.Final?) && Marked(s, e, m, n)
    ensures CheckInv(NextRun(s, e), n)
  {
  }

  lemma CheckHandOver(s: Run, e: Event, m: Marks, n: Marks)
    requires CheckInv(s, m) && Can(s, e) && ByDriver(e) && Marked(s, e, m, n)
    requires s.pc.HandOver?
    ensures CheckInv(NextRun(s, e), n)
  {
  }

  lemma CheckEnd(s: Run, e: Event, m: Marks, n: Marks)
    requires CheckInv(s, m) && Can(s, e) && ByDriver(e) && Marked(s, e, m, n)
    requires s.pc.AtFail? || s.pc.AtAck? || s.pc.CleanUp?
    ensures CheckInv(NextRun(s, e), n)
  {
  }

  lemma CheckAround(s: Run, e: Event, m: Marks, n: Marks)
    requires CheckInv(s, m) && Can(s, e) && !ByDriver(e) && Marked(s, e, m, n)
    ensures CheckInv(NextRun(s, e), n)
  {
  }

  lemma CheckStep(s: Run, e: Event, m: Marks, n: Marks)
    requires CheckInv(s, m) && Can(s, e) && Marked(s, e, m, n)
    ensures CheckInv(NextRun(s, e), n)
  {
    if !ByDriver(e) {
      CheckAround(s, e, m, n);
    } else if BeforeChecks(s.pc) {
      if s.pc == Prepare(AtSetup) {
        CheckSetUp(s, e, m, n);
      } else if s.pc == Prepare(AtRemoteOptions) {
        CheckOptions(s, e, m, n);
      } else {
        CheckOpening(s, e, m, n);
      }
    } else if s.pc == Prepare(AtCpuCheck) {
      CheckVerdict(s, e, m, n);
    } else if CheckingCpu(s.pc) {
      if e.Rpc? { CheckCpuCall(s, e, m, n); } else { CheckCpu(s, e, m, n); }
    } else if CheckingVersion(s.pc) {
      CheckVersion(s, e, m, n);
    } else if s.pc.Prepare? {
      CheckTrack(s, e, m, n);
    } else if s.pc.Iterate? || s.pc.Final? {
      CheckRound(s, e, m, n);
    } else if s.pc.HandOver? {
      CheckHandOver(s, e, m, n);
    } else if !s.pc.Stopped? && !s.pc.Nowhere? {
      CheckEnd(s, e, m, n);
    }
  }

  // ---- checks that were passed ------------------------------------------------------------------

  ghost function Seen(log: seq<Event>): Marks {
    Marks(Waived(log), Decided(log), Passed(log, CheckCpuinfo), Passed(log, CheckCriuVersion))
  }

  /** Where a check can be passed. */
  lemma PassesWhere(s: Run, e: Event)
    requires Can(s, e)
    ensures Passes(e, CheckCpuinfo) ==> s.pc == Prepare(AtCpuCheck)
    ensures Passes(e, CheckCriuVersion) ==> s.pc == Prepare(AtVersionCheck)
  {
  }

  lemma SeenMore(log: seq<Event>, e: Event)
    ensures Seen(log + [e]) == Marks(Waived(log) || Waives(e), Decided(log) || e.Track?,
      Passed(log, CheckCpuinfo) || Passes(e, CheckCpuinfo),
      Passed(log, CheckCriuVersion) || Passes(e, CheckCriuVersion))
  {
    var longer := log + [e];
    assert e in longer && forall x | x in log :: x in longer;
  }

  ghost predicate Checked(s: Run, log: seq<Event>) {
    CheckInv(s, Seen(log))
  }

  lemma CheckNothing(cfg: Config)
    ensures Checked(Start(cfg), [])
  {
    assert Seen([]) == Marks(false, false, false, false);
  }

  lemma CheckMore(s: Run, init: seq<Event>, e: Event)
    requires Checked(s, init) && Can(s, e)
    ensures Checked(NextRun(s, e), init + [e]) && NextRun(s, e).cfg == s.cfg
  {
    SeenMore(init, e);
    PassesWhere(s, e);
    CheckStep(s, e, Seen(init), Seen(init + [e]));
  }

  lemma {:induction false} CheckAlways(cfg: Config, mem: map<nat, int>, log: seq<Event>)
    requires Possible(cfg, mem, log)
    ensures Checked(After(cfg, mem, log).run, log) && After(cfg, mem, log).run.cfg == cfg
  {
    if log == [] {
      CheckNothing(cfg);
    } else {
      var init, e := log[..|log| - 1], log[|log| - 1];
      CheckAlways(cfg, mem, init);
      CheckMore(After(cfg, mem, init).run, init, e);
      assert log == init + [e];
    }
  }

  /** In every history: a check was passed only if it was wanted; and once the driver has gone past the
      checks, if and only if it was: not skipped, not forced, and not waived with the other one because
      CRIU cannot dump cpuinfo. */
  lemma ChecksAreMade(cfg: Config, mem: map<nat, int>, log: seq<Event>)
    requires Possible(cfg, mem, log)
    ensures Passed(log, CheckCpuinfo) ==> WantsCpu(cfg, Waived(log))
    ensures Passed(log, CheckCriuVersion) ==> WantsVersion(cfg, Waived(log))
    ensures Decided(log) || PastChecks(After(cfg, mem, log).run.pc) ==>
      && (Passed(log, CheckCpuinfo) <==> WantsCpu(cfg, Waived(log)))
      && (Passed(log, CheckCriuVersion) <==> WantsVersion(cfg, Waived(log)))
  {
    CheckAlways(cfg, mem, log);
  }

  /** The tree is frozen, terminated or running on the target only after every check that was wanted
      has been passed. */
  lemma NothingMovesUnchecked(cfg: Config, mem: map<nat, int>, log: seq<Event>)
    requires Possible(cfg, mem, log)
    requires !After(cfg, mem, log).run.tree.Running? || After(cfg, mem, log).run.tgt.running
    ensures Passed(log, CheckCpuinfo) <==> WantsCpu(cfg, Waived(log))
    ensures Passed(log, CheckCriuVersion) <==> WantsVersion(cfg, Waived(log))
  {
    CheckAlways(cfg, mem, log);
  }
}
