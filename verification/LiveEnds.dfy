/** Live mode: how a run ends, and the statements it makes on the file systems and the hauler. */
module LiveEnds {
  import opened Prelude
  import opened Target
  import opened Live
  import opened LiveSafety
  import LiveLoop

  // ---- returning and raising -------------------------------------------------------------------

  /** The statement of the driver did not raise, and a check was passed. */
  predicate Fine(e: Event) {
    match e
    case Local(_, ok) => ok
    case Options(ok) => ok
    case Rpc(call, fate) =>
      fate.Served? && fate.out.Returns? && fate.delivered
      && (call.CheckCpuinfo? || call.CheckCriuVersion? ==> fate.out.flag)
    case CpuDump(probe) => !probe.CannotDump?
    case MakeDir(ok) => ok
    case PreDump(_, ok) => ok
    case Dump(_, ok, _) => ok
    case Ack(how) => how.Acked?
    case _ => true
  }

  /** The target has reported that it restored the tree. */
  predicate Reported(log: seq<Event>) {
    exists e | e in log :: e.Rpc? && e.call.RestoreFromImages? && Fine(e)
  }

  /** Statement `k` raised, before any such report. */
  predicate FailsAt(log: seq<Event>, k: nat)
    requires k < |log|
  {
    ByDriver(log[k]) && !Fine(log[k]) && !Reported(log[..k])
  }

  predicate Failed(log: seq<Event>) {
    exists k: nat | k < |log| :: FailsAt(log, k)
  }

  lemma ReportedMore(init: seq<Event>, e: Event)
    ensures Reported(init + [e]) <==> Reported(init) || ReportsRestore(e)
  {
    assert e in init + [e];
  }

  lemma FailedMore(init: seq<Event>, e: Event)
    ensures Failed(init + [e]) <==> Failed(init) || (ByDriver(e) && !Fine(e) && !Reported(init))
  {
    var log, n := init + [e], |init|;
    assert log[..n] == init;
    assert FailsAt(log, n) <==> ByDriver(e) && !Fine(e) && !Reported(init);
    forall k: nat | k < n ensures FailsAt(log, k) <==> FailsAt(init, k) {
      assert log[..k] == init[..k];
    }
    if Failed(init) {
      var k: nat :| k < n && FailsAt(init, k);
      assert FailsAt(log, k);
    }
    if Failed(log) {
      var k: nat :| k < |log| && FailsAt(log, k);
      assert k < n ==> FailsAt(init, k);
    }
  }

  /** The driver is past the restore, */
  predicate Past(pc: Pc) {
    pc.AtAck? || pc.CleanUp? || pc == Stopped(true)
  }

  /** or on its way out by an exception. */
  predicate Leaving(pc: Pc) {
    pc.AtFail? || pc == Stopped(false)
  }

  predicate EndsWell(pc: Pc, reported: bool, failed: bool) {
    (Past(pc) <==> reported) && (Leaving(pc) <==> failed)
  }

  lemma EndPrepare(s: Run, e: Event)
    requires ByDriver(e) && s.pc.Prepare? && !NextPc(s, e).Nowhere?
    ensures !Past(NextPc(s, e)) && (Leaving(NextPc(s, e)) <==> !Fine(e)) && !ReportsRestore(e)
  {
  }

  lemma EndRound(s: Run, e: Event)
    requires ByDriver(e) && (s.pc.Iterate? || s.pc.Final?) && !NextPc(s, e).Nowhere?
    ensures !Past(NextPc(s, e)) && (Leaving(NextPc(s, e)) <==> !Fine(e)) && !ReportsRestore(e)
  {
  }

  lemma EndHandOver(s: Run, e: Event)
    requires ByDriver(e) && s.pc.HandOver? && !NextPc(s, e).Nowhere?
    ensures (Leaving(NextPc(s, e)) <==> !Fine(e)) && (Past(NextPc(s, e)) <==> ReportsRestore(e))
  {
  }

  lemma EndLate(s: Run, e: Event)
    requires ByDriver(e) && (Past(s.pc) || Leaving(s.pc)) && !NextPc(s, e).Nowhere?
    ensures (Past(NextPc(s, e)) <==> Past(s.pc)) && (Leaving(NextPc(s, e)) <==> Leaving(s.pc)) && !ReportsRestore(e)
  {
  }

  lemma EndStep(s: Run, e: Event, reported: bool, failed: bool)
    requires EndsWell(s.pc, reported, failed) && Can(s, e)
    ensures EndsWell(NextRun(s, e).pc, reported || ReportsRestore(e), failed || (ByDriver(e) && !Fine(e) && !reported))
  {
    if ByDriver(e) {
      match s.pc
      case Prepare(_) => EndPrepare(s, e);
      case Iterate(_) => EndRound(s, e);
      case Final(_) => EndRound(s, e);
      case HandOver(_) => EndHandOver(s, e);
      case _ => EndLate(s, e);
    }
  }

  lemma {:induction false} EndsAlways(cfg: Config, mem: map<nat, int>, log: seq<Event>)
    requires Possible(cfg, mem, log)
    ensures EndsWell(After(cfg, mem, log).run.pc, Reported(log), Failed(log))
  {
    if log != [] {
      var init, e := log[..|log| - 1], log[|log| - 1];
      EndsAlways(cfg, mem, init);
      EndStep(After(cfg, mem, init).run, e, Reported(init), Failed(init));
      assert log == init + [e];
      ReportedMore(init, e);
      FailedMore(init, e);
    }
  }

  /** A run that has ended returned exactly if the target reported the restore, and raised exactly if a
      statement raised before that; what raises later is only logged. */
  lemma ReturnsIffReported(cfg: Config, mem: map<nat, int>, log: seq<Event>)
    requires Possible(cfg, mem, log) && After(cfg, mem, log).run.pc.Stopped?
    ensures After(cfg, mem, log).run.pc.ok <==>
      exists e | e in log :: e.Rpc? && e.call.RestoreFromImages? && Fine(e)
    ensures !After(cfg, mem, log).run.pc.ok <==> exists k: nat | k < |log| :: FailsAt(log, k)
  {
    EndsAlways(cfg, mem, log);
  }

  // ---- the connection ----------------------------------------------------------------------------

  /** The rpc connection is gone after this event: it broke, the source process ended, or a call got no
      reply. */
  predicate Cuts(e: Event) {
    e.Break? || e.Exit? || (e.Rpc? && !(e.fate.Served? && e.fate.delivered))
  }

  lemma {:induction false} UpMeans(cfg: Config, mem: map<nat, int>, log: seq<Event>)
    requires Possible(cfg, mem, log)
    ensures After(cfg, mem, log).run.up <==> forall e | e in log :: !Cuts(e)
    ensures After(cfg, mem, log).run.gone <==> exists e | e in log :: e.Disconnect?
  {
    if log != [] {
      var init, e := log[..|log| - 1], log[|log| - 1];
      UpMeans(cfg, mem, init);
      assert log == init + [e];
      UpStep(After(cfg, mem, init).run, e);
    }
  }

  lemma UpStep(s: Run, e: Event)
    requires Can(s, e)
    ensures NextRun(s, e).up <==> s.up && !Cuts(e)
    ensures NextRun(s, e).gone <==> s.gone || e.Disconnect?
    ensures e.Disconnect? ==> !s.up && !s.gone
    ensures e.Rpc? && e.fate.Served? ==> s.up
  {
  }

  lemma {:induction false} Before(cfg: Config, mem: map<nat, int>, log: seq<Event>, k: nat)
    requires Possible(cfg, mem, log) && k < |log|
    ensures Possible(cfg, mem, log[..k]) && Can(After(cfg, mem, log[..k]).run, log[k])
  {
    if k < |log| - 1 {
      var init := log[..|log| - 1];
      Before(cfg, mem, init, k);
      assert init[..k] == log[..k];
    }
  }

  /** After the connection is gone no call is served; and the target handles the disconnect at most
      once, and only then. */
  lemma ConnectionEndsOnce(cfg: Config, mem: map<nat, int>, log: seq<Event>, k: nat)
    requires Possible(cfg, mem, log) && k < |log|
    ensures log[k].Rpc? && log[k].fate.Served? ==> forall j: nat | j < k :: !Cuts(log[j])
    ensures log[k].Disconnect? ==>
      (exists j: nat :: j < k && Cuts(log[j])) && forall j: nat | j < k :: !log[j].Disconnect?
  {
    Before(cfg, mem, log, k);
    var init := log[..k];
    UpMeans(cfg, mem, init);
    UpStep(After(cfg, mem, init).run, log[k]);
    assert forall j: nat | j < k :: log[j] == init[j] && init[j] in init;
    if log[k].Disconnect? {
      var e :| e in init && Cuts(e);
      var j: nat :| j < k && init[j] == e;
      assert Cuts(log[j]);
    }
  }

  // ---- the file systems and the hauler ------------------------------------------------------------

  /** The statements that start, continue and end the migration of the file systems, and what the
      hauler does about it. */
  predicate Hook(what: Statement) {
    what == FsStart || what == FsNext || what == FsStop || what == MigrationFail || what == HaulerComplete
  }

  /** Those executed so far, whether or not they raised. */
  function Hooks(log: seq<Event>): seq<Statement> {
    if log == [] then [] else Hooks(log[..|log| - 1]) + HookOf(log[|log| - 1])
  }

  function HookOf(e: Event): seq<Statement> {
    if e.Local? && Hook(e.what) then [e.what] else []
  }

  /** Started, and continued `n` times. */
  function Begun(n: nat): seq<Statement> {
    [FsStart] + seq(n, i => FsNext)
  }

  /** What has been executed when the driver is at `pc` after `n` pre-dumps. */
  ghost predicate Hooked(pc: Pc, n: nat, hooks: seq<Statement>) {
    match pc
    case Prepare(_) => hooks == [] && n == 0
    case Iterate(i) =>
      if i.AtEndIter? || i.AtFsNext? then n > 0 && hooks == Begun(n - 1) else hooks == Begun(n)
    case Final(_) => hooks == Begun(n)
    case HandOver(h) => hooks == Begun(n) + if h.AtFinalEnd? || h.AtFsStop? then [] else [FsStop]
    case AtFail => hooks == Begun(n) + [FsStop]
    case AtAck => hooks == Begun(n) + [FsStop]
    case CleanUp(c) => HookedLate(n, hooks) && (c.AtFinalStats? || c.AtComplete? ==> hooks == Begun(n) + [FsStop])
    case Stopped(ok) => if ok then HookedLate(n, hooks) else HookedRaised(n, hooks)
    case Nowhere => false
  }

  predicate HookedLate(n: nat, hooks: seq<Statement>) {
    hooks == Begun(n) + [FsStop] || hooks == Begun(n) + [FsStop, HaulerComplete]
  }

  ghost predicate HookedRaised(n: nat, hooks: seq<Statement>) {
    hooks == [] || (exists k: nat | k <= n :: hooks == Begun(k)) || hooks == Begun(n) + [FsStop, MigrationFail]
  }

  lemma BegunMore(n: nat)
    ensures Begun(n) + [FsNext] == Begun(n + 1) && Begun(0) == [FsStart]
    ensures Begun(n) + [FsStop] + [HaulerComplete] == Begun(n) + [FsStop, HaulerComplete]
    ensures Begun(n) + [FsStop] + [MigrationFail] == Begun(n) + [FsStop, MigrationFail]
    ensures Begun(n) + [] == Begun(n)
  {
  }

  function Dumped(e: Event): nat {
    if e.PreDump? then 1 else 0
  }

  lemma HookPrepare(s: Run, e: Event, n: nat, hooks: seq<Statement>)
    requires Hooked(s.pc, n, hooks) && ByDriver(e) && !NextPc(s, e).Nowhere? && s.pc.Prepare?
    ensures Hooked(NextPc(s, e), n + Dumped(e), hooks + HookOf(e))
  {
    BegunMore(0);
    assert hooks + HookOf(e) == HookOf(e);
  }

  lemma HookLoop(s: Run, e: Event, n: nat, hooks: seq<Statement>)
    requires Hooked(s.pc, n, hooks) && ByDriver(e) && !NextPc(s, e).Nowhere? && s.pc.Iterate?
    ensures Hooked(NextPc(s, e), n + Dumped(e), hooks + HookOf(e))
  {
    BegunMore(n);
    if n > 0 { BegunMore(n - 1); }
    assert hooks + [] == hooks;
  }

  lemma HookFinal(s: Run, e: Event, n: nat, hooks: seq<Statement>)
    requires Hooked(s.pc, n, hooks) && ByDriver(e) && !NextPc(s, e).Nowhere? && (s.pc.Final? || s.pc.HandOver?)
    ensures Hooked(NextPc(s, e), n + Dumped(e), hooks + HookOf(e))
  {
    BegunMore(n);
    assert hooks + [] == hooks;
  }

  lemma HookLate(s: Run, e: Event, n: nat, hooks: seq<Statement>)
    requires Hooked(s.pc, n, hooks) && ByDriver(e) && !NextPc(s, e).Nowhere? && (Past(s.pc) || Leaving(s.pc))
    ensures Hooked(NextPc(s, e), n + Dumped(e), hooks + HookOf(e))
  {
    BegunMore(n);
    assert hooks + [] == hooks;
  }

  lemma HookStep(s: Run, e: Event, n: nat, hooks: seq<Statement>)
    requires Hooked(s.pc, n, hooks) && Can(s, e)
    ensures Hooked(NextRun(s, e).pc, n + Dumped(e), hooks + HookOf(e))
  {
    assert hooks + [] == hooks;
    if ByDriver(e) {
      match s.pc
      case Prepare(_) => HookPrepare(s, e, n, hooks);
      case Iterate(_) => HookLoop(s, e, n, hooks);
      case Final(_) => HookFinal(s, e, n, hooks);
      case HandOver(_) => HookFinal(s, e, n, hooks);
      case _ => HookLate(s, e, n, hooks);
    }
  }

  lemma {:induction false} HooksAlways(cfg: Config, mem: map<nat, int>, log: seq<Event>)
    requires Possible(cfg, mem, log)
    ensures Hooked(After(cfg, mem, log).run.pc, LiveLoop.PreDumps(log), Hooks(log))
  {
    if log != [] {
      var init, e := log[..|log| - 1], log[|log| - 1];
      HooksAlways(cfg, mem, init);
      HookStep(After(cfg, mem, init).run, e, LiveLoop.PreDumps(init), Hooks(init));
    }
  }

  /** A run that returned has started the file systems' migration, continued it once per pre-dump,
      and stopped it, in this order and nothing more. One that raised did a first part of that; and the
      hauler has undone the migration, once and last, exactly if the stop was reached. */
  lemma HookLanguage(cfg: Config, mem: map<nat, int>, log: seq<Event>)
    requires Possible(cfg, mem, log) && After(cfg, mem, log).run.pc.Stopped?
    ensures var n := LiveLoop.PreDumps(log);
      if After(cfg, mem, log).run.pc.ok then
        || Hooks(log) == [FsStart] + seq(n, i => FsNext) + [FsStop]
        || Hooks(log) == [FsStart] + seq(n, i => FsNext) + [FsStop, HaulerComplete]
      else
        || Hooks(log) == []
        || (exists k: nat | k <= n :: Hooks(log) == Begun(k))
        || Hooks(log) == [FsStart] + seq(n, i => FsNext) + [FsStop, MigrationFail]
  {
    HooksAlways(cfg, mem, log);
  }
}
