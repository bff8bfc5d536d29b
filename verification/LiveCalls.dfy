/** Live mode: the trace of calls on the target, and what they find there. */
module LiveCalls {
  import opened Prelude
  import Progress
  import opened Target
  import opened Live

  // ---- no call uses what was not created ----------------------------------------------------

  /** Setup has succeeded and no call after it has failed yet. */
  predicate Connected(pc: Pc) {
    pc != Prepare(AtSetup) && !pc.AtFail? && !pc.Stopped?
  }

  predicate Configured(pc: Pc) {
    Connected(pc) && pc != Prepare(AtOptions) && pc != Prepare(AtRemoteOptions)
  }

  predicate Receiving(pc: Pc) {
    pc == Prepare(AtCpuSend) || pc == Prepare(AtCpuStop) || pc == HandOver(AtSend) || pc == HandOver(AtStopAccept)
  }

  predicate HasDirectory(pc: Pc) {
    pc == Final(AtFinalMkDir) || pc == Final(AtDump) || pc.HandOver? || pc.AtAck? || pc.CleanUp?
  }

  predicate SvcInv(s: Run) {
    && (s.gone ==> !s.up)
    && (Connected(s.pc) ==> s.tgt.htype && s.tgt.images && (s.gone || s.tgt.criu) && !s.tgt.busy)
    && (Configured(s.pc) ==> s.tgt.ready)
    && (Receiving(s.pc) ==> s.tgt.accepting)
    && (HasDirectory(s.pc) ==> s.tgt.current)
  }

  lemma SvcPrepare(s: Run, e: Event)
    requires SvcInv(s) && Can(s, e) && ByDriver(e) && s.pc.Prepare? && !e.Rpc?
    ensures SvcInv(NextRun(s, e))
  {
  }

  lemma SvcSetUp(s: Run, e: Event)
    requires SvcInv(s) && Can(s, e) && e.Rpc? && s.pc == Prepare(AtSetup)
    ensures SvcInv(NextRun(s, e))
  {
  }

  lemma SvcPrepareCall(s: Run, e: Event)
    requires SvcInv(s) && Can(s, e) && e.Rpc? && s.pc.Prepare? && s.pc != Prepare(AtSetup)
    ensures SvcInv(NextRun(s, e))
  {
  }

  lemma SvcIterate(s: Run, e: Event)
    requires SvcInv(s) && Can(s, e) && ByDriver(e) && s.pc.Iterate?
    ensures SvcInv(NextRun(s, e))
  {
  }

  lemma SvcFinal(s: Run, e: Event)
    requires SvcInv(s) && Can(s, e) && ByDriver(e) && s.pc.Final?
    ensures SvcInv(NextRun(s, e))
  {
  }

  lemma SvcEnd(s: Run, e: Event)
    requires SvcInv(s) && Can(s, e) && ByDriver(e) && !s.pc.Prepare? && !s.pc.Iterate? && !s.pc.Final?
    ensures SvcInv(NextRun(s, e))
  {
  }

  lemma SvcAround(s: Run, e: Event)
    requires SvcInv(s) && Can(s, e) && !ByDriver(e)
    ensures SvcInv(NextRun(s, e))
  {
  }

  lemma SvcStep(s: Run, e: Event)
    requires SvcInv(s) && Can(s, e)
    ensures SvcInv(NextRun(s, e))
  {
    if !ByDriver(e) {
      SvcAround(s, e);
    } else if s.pc.Prepare? {
      if !e.Rpc? {
        SvcPrepare(s, e);
      } else if s.pc == Prepare(AtSetup) {
        SvcSetUp(s, e);
      } else {
        SvcPrepareCall(s, e);
      }
    } else if s.pc.Iterate? {
      SvcIterate(s, e);
    } else if s.pc.Final? {
      SvcFinal(s, e);
    } else {
      SvcEnd(s, e);
    }
  }

  lemma {:induction false} SvcAlways(cfg: Config, mem: map<nat, int>, log: seq<Event>)
    requires Possible(cfg, mem, log)
    ensures SvcInv(After(cfg, mem, log).run)
  {
    if log != [] {
      SvcAlways(cfg, mem, log[..|log| - 1]);
      SvcStep(After(cfg, mem, log[..|log| - 1]).run, log[|log| - 1]);
    }
  }

  /** Whatever call the target serves, in any run: the image store, the criu connection, the
      hauler and the current directory its body uses exist, and no notification is pending. */
  lemma ServedWhenReady(cfg: Config, mem: map<nat, int>, log: seq<Event>,
                        call: Target.Call, out: Outcome, delivered: bool)
    requires Possible(cfg, mem, log + [Rpc(call, Served(out, delivered))])
    ensures Possible(cfg, mem, log) && Ready(After(cfg, mem, log).run.tgt, call)
  {
    var e := Rpc(call, Served(out, delivered));
    assert (log + [e])[..|log|] == log;
    SvcAlways(cfg, mem, log);
    ReadyNow(After(cfg, mem, log).run, e);
  }

  lemma ReadyNow(s: Run, e: Event)
    requires SvcInv(s) && Can(s, e) && e.Rpc? && e.fate.Served?
    ensures Ready(s.tgt, e.call)
  {
  }
}
