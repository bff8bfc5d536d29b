/** Restart migration (phaul/iters.py, `__start_restart_migration`) as a state machine over the
    same target: stop the tree here, unmount, start it there. */
module Restart {
  import opened Prelude
  import opened Progress
  import opened Target

  datatype Config = Config(keepImages: bool, nostart: bool)

  /** The statement the driver is about to execute. */
  datatype Pc =
    | AtSetup | AtOptions | AtRemoteOptions
    | AtFsStart | AtFsNext
    | AtStop
    | AtFsStop | AtUmount | AtStart // undone on failure
    | AtFail | AtFallback
    | AtComplete
    | Stopped(ok: bool)             // by returning, or by an exception
    | Nowhere                       // no such step

  datatype Run = Run(
    cfg: Config,
    pc: Pc,
    bytes: seq<nat>, // bytes_xferred of each iteration so far
    runs: bool,      // the tree executes on the source host,
    mounted: bool,   // and its root is mounted there
    flag: bool,      // _fs_mounted, what the hauler believes
    up: bool,        // the rpc connection
    exited: bool,    // the source process is gone
    gone: bool,      // the target has handled the disconnect
    tgt: Svc,
    calls: seq<Call>)

  /** `NoStats`: the FS driver returns nothing, and reading `bytes_xferred` of it raises. */
  datatype Transfer = Failed | NoStats | Sent(bytes: nat)

  // The only hauler that gets past the FS loop in restart mode is the Virtuozzo one: the other FS
  // drivers return no statistics. It does not look at the exit status of its stop and umount commands,
  // which raise only if they could not be run. Its undo has no shared disks to restore in restart mode,
  // and cannot raise.

  /** Statements of the driver that involve the hauler and its file systems only. */
  datatype Statement = HaulerOptions | FsStart | FsStop | HaulerComplete

  datatype Event =
    | Local(what: Statement, ok: bool)
    | Rpc(call: Call, fate: Fate)
    | FsNext(transfer: Transfer)
    | Stop(ok: bool, stopped: bool)
    | Umount(ok: bool, unmounted: bool)
    | Undo                           // migration_fail
    | Start(ok: bool, started: bool) // the fallback on the source
    | Break
    | Disconnect(hookOk: bool, stopped: bool)
    | Exit // of the source process: at its end, or killed anywhere

  function Init(cfg: Config): Run {
    Run(cfg, AtSetup, [], true, true, true, true, false, false, FRESH.svc, [])
  }

  // ---- one step ----------------------------------------------------------------------------

  function Called(e: Event, c: Call, good: Pc, bad: Pc): Pc {
    if e.Rpc? && e.call == c then (if Succeeds(e.fate) then good else bad) else Nowhere
  }

  function Step(e: Event, what: Statement, good: Pc, bad: Pc): Pc {
    if e.Local? && e.what == what then (if e.ok then good else bad) else Nowhere
  }

  function PrevBytes(s: Run): Option<nat> {
    if s.bytes == [] then None else Some(s.bytes[|s.bytes| - 1])
  }

  function LoopNext(s: Run, e: Event): Pc {
    if !e.FsNext? || PrevBytes(s) == Some(0) then Nowhere
    else if !e.transfer.Sent? then Stopped(false)
    else if CheckRestart(|s.bytes|, e.transfer.bytes, PrevBytes(s)) then AtFsNext
    else AtStop
  }

  /** Where the driver goes after event `e`; `Nowhere` if the event cannot happen here. */
  function NextPc(s: Run, e: Event): Pc {
    match s.pc
    case AtSetup => Called(e, Setup(RESTART), AtOptions, Stopped(false))
    case AtOptions => Step(e, HaulerOptions, AtRemoteOptions, Stopped(false))
    case AtRemoteOptions => Called(e, SetOptions(s.cfg.keepImages), AtFsStart, Stopped(false))
    case AtFsStart => Step(e, FsStart, AtFsNext, Stopped(false))
    case AtFsNext => LoopNext(s, e)
    case AtStop => if e.Stop? then (if e.ok then AtFsStop else Stopped(false)) else Nowhere
    case AtFsStop => Step(e, FsStop, AtUmount, AtFail)
    case AtUmount =>
      if !e.Umount? then Nowhere
      else if !s.flag then (if e == Umount(true, false) then AfterUmount(s) else Nowhere)
      else if e.ok then AfterUmount(s) else AtFail
    case AtStart => Called(e, StartHtype, AtComplete, AtFail)
    case AtFail => if e.Undo? then AtFallback else Nowhere
    case AtFallback => if e.Start? then Stopped(false) else Nowhere
    case AtComplete =>
      // what raises in the completion is only logged
      if e.Local? then Step(e, HaulerComplete, Stopped(true), Stopped(true))
      else Called(e, MigrationComplete, Stopped(true), Stopped(true))
    case Stopped(_) => Nowhere
    case Nowhere => Nowhere
  }

  function AfterUmount(s: Run): Pc {
    if s.cfg.nostart then AtComplete else AtStart
  }

  predicate ByDriver(e: Event) {
    !e.Break? && !e.Disconnect? && !e.Exit?
  }

  /** What a command of the hauler reports, and what it did: one that could not be run did nothing,
      and a start that succeeds has started the tree. */
  predicate Plausible(e: Event) {
    match e
    case Stop(ok, stopped) => stopped ==> ok
    case Umount(ok, unmounted) => unmounted ==> ok
    case Start(ok, started) => ok ==> started
    case Disconnect(hookOk, stopped) => stopped ==> hookOk
    case _ => true
  }

  predicate Can(s: Run, e: Event) {
    Plausible(e) &&
    match e
    case Break => true
    case Disconnect(_, _) => !s.up && !s.gone
    case Exit => !s.exited
    case _ => !s.exited && !NextPc(s, e).Nowhere? && (e.Rpc? && e.fate.Served? ==> s.up)
  }

  function TgtAfter(t: Svc, e: Event): Svc {
    match e
    case Rpc(c, fate) => if fate.Served? then ServeSvc(t, c, fate.out) else t
    case Disconnect(_, stopped) => DisconnectedSvc(t, stopped)
    case _ => t
  }

  predicate StaysUp(up: bool, e: Event) {
    up && !e.Break? && !e.Exit? && (e.Rpc? ==> e.fate.Served? && e.fate.delivered)
  }

  function Next(s: Run, e: Event): Run
    requires Can(s, e)
  {
    Run(s.cfg,
          if ByDriver(e) then NextPc(s, e) else s.pc,
          if e.FsNext? && e.transfer.Sent? then s.bytes + [e.transfer.bytes] else s.bytes,
          (s.runs && !(e.Stop? && e.stopped)) || (e.Start? && e.started),
          (s.mounted && !(e.Umount? && e.unmounted)) || (e.Start? && e.started),
          (s.flag && !(e.Umount? && e.ok)) || (e.Stop? && e.ok) || (e.Start? && e.ok),
          StaysUp(s.up, e),
          s.exited || e.Exit?,
          s.gone || e.Disconnect?,
          TgtAfter(s.tgt, e),
          if e.Rpc? then s.calls + [e.call] else s.calls)
  }

  /** The state after a history of events, if it is a possible one. */
  function Exec(s: Run, log: seq<Event>): Option<Run> {
    if log == [] then Some(s) else
    match Exec(s, log[..|log| - 1])
    case Some(t) => if Can(t, log[|log| - 1]) then Some(Next(t, log[|log| - 1])) else None
    case None => None
  }

  predicate Possible(cfg: Config, log: seq<Event>) {
    Exec(Init(cfg), log).Some?
  }

  function After(cfg: Config, log: seq<Event>): Run
    requires Possible(cfg, log)
  {
    Exec(Init(cfg), log).value
  }

  // ---- who executes --------------------------------------------------------------------------

  ghost predicate Any(log: seq<Event>, p: Event -> bool) {
    exists e | e in log :: p(e)
  }

  lemma AnyMore(log: seq<Event>, e: Event, p: Event -> bool)
    ensures Any(log + [e], p) <==> Any(log, p) || p(e)
  {
    assert e in log + [e];
    assert forall x | x in log :: x in log + [e];
  }

  predicate Halts(e: Event) { e.Stop? && e.stopped }

  predicate Unmounts(e: Event) { e.Umount? && e.unmounted }

  predicate Revives(e: Event) { e.Start? && e.started }

  /** A status was ignored: the command failed and the driver goes on as if it had not. */
  predicate IgnoresStop(e: Event) { e == Stop(true, false) }

  predicate IgnoresUmount(e: Event) { e == Umount(true, false) }

  /** The target starts the tree, and its start returns, */
  predicate Returned(e: Event) {
    e.Rpc? && e.call.StartHtype? && e.fate.Served? && e.fate.out.Returns?
  }

  /** or raises and leaves the tree running. */
  predicate LeavesRunning(e: Event) {
    e.Rpc? && e.call.StartHtype? && e.fate.Served? && e.fate.out == Raises(2)
  }

  predicate LosesReply(e: Event) {
    Returned(e) && !e.fate.delivered
  }

  /** The target stops what was not reported as started when the connection is gone. */
  predicate Quells(e: Event) { e.Disconnect? && e.stopped }

  /** What may break the hand-over: a failed stop that is ignored, a start on the target that works but
      is not reported, and a fallback that fails. */
  predicate Incident(e: Event) {
    || IgnoresStop(e) || LosesReply(e) || LeavesRunning(e) || (e.Start? && !e.started)
  }

  datatype Marks = Marks(halted: bool, revived: bool, unmounted: bool, ignoredStop: bool, ignoredUmount: bool,
                         returned: bool, lost: bool, left: bool, quelled: bool, incident: bool)

  ghost function Seen(log: seq<Event>): Marks {
    Marks(Any(log, Halts), Any(log, Revives), Any(log, Unmounts), Any(log, IgnoresStop), Any(log, IgnoresUmount),
          Any(log, Returned), Any(log, LosesReply), Any(log, LeavesRunning), Any(log, Quells), Any(log, Incident))
  }

  function Noted(m: Marks, e: Event): Marks {
    Marks(m.halted || Halts(e), m.revived || Revives(e), m.unmounted || Unmounts(e), m.ignoredStop || IgnoresStop(e),
          m.ignoredUmount || IgnoresUmount(e), m.returned || Returned(e), m.lost || LosesReply(e),
          m.left || LeavesRunning(e), m.quelled || Quells(e), m.incident || Incident(e))
  }

  lemma SeenMore(log: seq<Event>, e: Event)
    ensures Seen(log + [e]) == Noted(Seen(log), e)
  {
    AnyMore(log, e, Halts);
    AnyMore(log, e, Revives);
    AnyMore(log, e, Unmounts);
    AnyMore(log, e, IgnoresStop);
    AnyMore(log, e, IgnoresUmount);
    AnyMore(log, e, Returned);
    AnyMore(log, e, LosesReply);
    AnyMore(log, e, LeavesRunning);
    AnyMore(log, e, Quells);
    AnyMore(log, e, Incident);
  }

  predicate BeforeStop(pc: Pc) {
    pc.AtSetup? || pc.AtOptions? || pc.AtRemoteOptions? || pc.AtFsStart? || pc.AtFsNext? || pc.AtStop?
  }

  predicate Quiesced(pc: Pc) {
    pc.AtFsStop? || pc.AtUmount? || pc.AtStart?
  }

  predicate Succeeded(pc: Pc) {
    pc.AtComplete? || pc == Stopped(true)
  }

  predicate TreeInv(s: Run, m: Marks) {
    && !s.pc.Nowhere? && (s.exited ==> !s.up) && (s.gone ==> !s.up)
    && SourceInv(s, m) && TargetInv(s, m)
  }

  predicate SourceInv(s: Run, m: Marks) {
    && (s.runs <==> !m.halted || m.revived) && (s.mounted <==> !m.unmounted || m.revived)
    && (BeforeStop(s.pc) ==> !m.halted && !m.unmounted && !m.ignoredStop && !m.ignoredUmount)
    && (s.pc.AtFsStop? || s.pc.AtUmount? ==> !m.unmounted && !m.ignoredUmount && s.flag)
    && (s.pc == Stopped(false) || !m.revived)
    && (Quiesced(s.pc) || Succeeded(s.pc) ==> (m.halted <==> !m.ignoredStop))
    && (s.pc.AtStart? || Succeeded(s.pc) ==> (m.unmounted <==> !m.ignoredUmount))
    && (s.pc.AtStart? ==> !s.cfg.nostart)
  }

  predicate TargetInv(s: Run, m: Marks) {
    && (s.tgt.restored <==> m.returned)
    && (s.tgt.running <==> m.returned || (m.left && !m.quelled))
    && (m.quelled ==> s.gone) && (m.lost ==> m.returned)
    && (s.pc.AtSetup? || (s.pc.Stopped? && !m.returned && !m.left) || (s.tgt.htype && s.tgt.mode == RESTART))
    && (BeforeStop(s.pc) || Quiesced(s.pc) ==> !m.returned && !m.left)
    && (s.pc.AtFail? || s.pc.AtFallback? || s.pc == Stopped(false) ==> (m.returned <==> m.lost))
    && (Succeeded(s.pc) ==> !m.left && !m.lost && m.returned == !s.cfg.nostart)
  }

  predicate CopyInv(s: Run, m: Marks) {
    && (BeforeStop(s.pc) ==> s.runs && !s.tgt.running)
    && (!m.incident && (Quiesced(s.pc) || s.pc.AtFail? || s.pc.AtFallback?) ==> !s.runs && !s.tgt.running)
    && (!m.incident && Succeeded(s.pc) ==> !s.runs && s.tgt.running == !s.cfg.nostart)
    && (!m.incident && s.pc == Stopped(false) ==> s.runs && !s.tgt.running)
  }

  lemma TreeSetUp(s: Run, e: Event, m: Marks)
    requires TreeInv(s, m) && Can(s, e) && e.Rpc? && s.pc.AtSetup?
    ensures TreeInv(Next(s, e), Noted(m, e))
  {
  }

  lemma TreeOptions(s: Run, e: Event, m: Marks)
    requires TreeInv(s, m) && Can(s, e) && e.Rpc? && BeforeStop(s.pc) && !s.pc.AtSetup?
    ensures TreeInv(Next(s, e), Noted(m, e))
  {
  }

  lemma TreeStart(s: Run, e: Event, m: Marks)
    requires TreeInv(s, m) && Can(s, e) && e.Rpc? && !BeforeStop(s.pc)
    ensures TreeInv(Next(s, e), Noted(m, e))
  {
  }

  lemma TreeBefore(s: Run, e: Event, m: Marks)
    requires TreeInv(s, m) && Can(s, e) && ByDriver(e) && !e.Rpc? && BeforeStop(s.pc)
    ensures TreeInv(Next(s, e), Noted(m, e))
  {
  }

  lemma TreeHandOver(s: Run, e: Event, m: Marks)
    requires TreeInv(s, m) && Can(s, e) && ByDriver(e) && !e.Rpc? && Quiesced(s.pc)
    ensures TreeInv(Next(s, e), Noted(m, e))
  {
  }

  lemma TreeUndo(s: Run, e: Event, m: Marks)
    requires TreeInv(s, m) && Can(s, e) && ByDriver(e) && s.pc.AtFail?
    ensures TreeInv(Next(s, e), Noted(m, e))
  {
  }

  lemma FallbackNext(s: Run, e: Event)
    requires Can(s, e) && ByDriver(e) && s.pc.AtFallback?
    ensures e.Start? && Next(s, e) == Revived(s, e)
  {
  }

  function Revived(s: Run, e: Event): Run
    requires e.Start?
  {
    s.(pc := Stopped(false), runs := s.runs || e.started, mounted := s.mounted || e.started, flag := s.flag || e.ok)
  }

  lemma FallbackSource(s: Run, e: Event, m: Marks)
    requires SourceInv(s, m) && s.pc.AtFallback? && e.Start?
    ensures SourceInv(Revived(s, e), Noted(m, e))
  {
  }

  lemma FallbackTarget(s: Run, e: Event, m: Marks)
    requires TargetInv(s, m) && s.pc.AtFallback? && e.Start?
    ensures TargetInv(Revived(s, e), Noted(m, e))
  {
  }

  lemma TreeFallback(s: Run, e: Event, m: Marks)
    requires TreeInv(s, m) && Can(s, e) && ByDriver(e) && s.pc.AtFallback?
    ensures TreeInv(Next(s, e), Noted(m, e))
  {
    FallbackNext(s, e);
    FallbackSource(s, e, m);
    FallbackTarget(s, e, m);
  }

  lemma TreeEnd(s: Run, e: Event, m: Marks)
    requires TreeInv(s, m) && Can(s, e) && ByDriver(e) && !e.Rpc? && Succeeded(s.pc)
    ensures TreeInv(Next(s, e), Noted(m, e))
  {
  }

  lemma TreeAround(s: Run, e: Event, m: Marks)
    requires TreeInv(s, m) && Can(s, e) && !ByDriver(e)
    ensures TreeInv(Next(s, e), Noted(m, e))
  {
  }

  lemma TreeStep(s: Run, e: Event, m: Marks)
    requires TreeInv(s, m) && Can(s, e)
    ensures TreeInv(Next(s, e), Noted(m, e))
  {
    if !ByDriver(e) {
      TreeAround(s, e, m);
    } else if e.Rpc? {
      if s.pc.AtSetup? {
        TreeSetUp(s, e, m);
      } else if BeforeStop(s.pc) {
        TreeOptions(s, e, m);
      } else {
        TreeStart(s, e, m);
      }
    } else if BeforeStop(s.pc) {
      TreeBefore(s, e, m);
    } else if Quiesced(s.pc) {
      TreeHandOver(s, e, m);
    } else if Succeeded(s.pc) {
      TreeEnd(s, e, m);
    } else if s.pc.AtFail? {
      TreeUndo(s, e, m);
    } else if s.pc.AtFallback? {
      TreeFallback(s, e, m);
    }
  }

  lemma CopySetUp(s: Run, e: Event, m: Marks)
    requires TreeInv(s, m) && CopyInv(s, m) && Can(s, e) && e.Rpc? && s.pc.AtSetup?
    ensures CopyInv(Next(s, e), Noted(m, e))
  {
  }

  lemma CopyOptions(s: Run, e: Event, m: Marks)
    requires TreeInv(s, m) && CopyInv(s, m) && Can(s, e) && e.Rpc? && BeforeStop(s.pc) && !s.pc.AtSetup?
    ensures CopyInv(Next(s, e), Noted(m, e))
  {
  }

  lemma CopyStart(s: Run, e: Event, m: Marks)
    requires TreeInv(s, m) && CopyInv(s, m) && Can(s, e) && e.Rpc? && !BeforeStop(s.pc)
    ensures CopyInv(Next(s, e), Noted(m, e))
  {
  }

  lemma CopyBefore(s: Run, e: Event, m: Marks)
    requires TreeInv(s, m) && CopyInv(s, m) && Can(s, e) && ByDriver(e) && !e.Rpc? && BeforeStop(s.pc)
    ensures CopyInv(Next(s, e), Noted(m, e))
  {
  }

  lemma CopyHandOver(s: Run, e: Event, m: Marks)
    requires TreeInv(s, m) && CopyInv(s, m) && Can(s, e) && ByDriver(e) && !e.Rpc? && Quiesced(s.pc)
    ensures CopyInv(Next(s, e), Noted(m, e))
  {
  }

  lemma CopyEnd(s: Run, e: Event, m: Marks)
    requires TreeInv(s, m) && CopyInv(s, m) && Can(s, e) && ByDriver(e) && !e.Rpc?
    requires !BeforeStop(s.pc) && !Quiesced(s.pc)
    ensures CopyInv(Next(s, e), Noted(m, e))
  {
  }

  lemma CopyAround(s: Run, e: Event, m: Marks)
    requires TreeInv(s, m) && CopyInv(s, m) && Can(s, e) && !ByDriver(e)
    ensures CopyInv(Next(s, e), Noted(m, e))
  {
  }

  lemma CopyStep(s: Run, e: Event, m: Marks)
    requires TreeInv(s, m) && CopyInv(s, m) && Can(s, e)
    ensures CopyInv(Next(s, e), Noted(m, e))
  {
    if !ByDriver(e) {
      CopyAround(s, e, m);
    } else if e.Rpc? {
      if s.pc.AtSetup? {
        CopySetUp(s, e, m);
      } else if BeforeStop(s.pc) {
        CopyOptions(s, e, m);
      } else {
        CopyStart(s, e, m);
      }
    } else if BeforeStop(s.pc) {
      CopyBefore(s, e, m);
    } else if Quiesced(s.pc) {
      CopyHandOver(s, e, m);
    } else {
      CopyEnd(s, e, m);
    }
  }

  ghost predicate RunInv(s: Run, m: Marks) {
    TreeInv(s, m) && CopyInv(s, m)
  }

  lemma RunStep(s: Run, e: Event, m: Marks)
    requires RunInv(s, m) && Can(s, e)
    ensures RunInv(Next(s, e), Noted(m, e)) && Next(s, e).cfg == s.cfg
  {
    TreeStep(s, e, m);
    CopyStep(s, e, m);
  }

  lemma RunMore(s: Run, init: seq<Event>, e: Event)
    requires RunInv(s, Seen(init)) && Can(s, e)
    ensures RunInv(Next(s, e), Seen(init + [e])) && Next(s, e).cfg == s.cfg
  {
    RunStep(s, e, Seen(init));
    SeenMore(init, e);
  }

  lemma SeenNothing()
    ensures Seen([]) == Marks(false, false, false, false, false, false, false, false, false, false)
  {
  }

  lemma {:induction false} TreeAlways(cfg: Config, log: seq<Event>)
    requires Possible(cfg, log)
    ensures RunInv(After(cfg, log), Seen(log)) && After(cfg, log).cfg == cfg
  {
    if log == [] {
      SeenNothing();
    } else {
      var init, e := log[..|log| - 1], log[|log| - 1];
      TreeAlways(cfg, init);
      RunMore(After(cfg, init), init, e);
      assert log == init + [e];
    }
  }

  /** When the target starts the tree, the source has asked for its stop and its unmounting, and each
      really took effect if and only if no failed status of it was ignored. */
  lemma StartFollowsStop(cfg: Config, log: seq<Event>, out: Outcome, delivered: bool)
    requires Possible(cfg, log + [Rpc(StartHtype, Served(out, delivered))])
    ensures Possible(cfg, log) && !cfg.nostart
    ensures var s := After(cfg, log);
      && (!s.runs <==> Any(log, Halts)) && (s.runs <==> Any(log, IgnoresStop))
      && (!s.mounted <==> Any(log, Unmounts)) && (s.mounted <==> Any(log, IgnoresUmount))
  {
    var e := Rpc(StartHtype, Served(out, delivered));
    assert (log + [e])[..|log|] == log;
    TreeAlways(cfg, log);
    StartWhere(After(cfg, log), e);
  }

  lemma StartWhere(s: Run, e: Event)
    requires Can(s, e) && e.Rpc? && e.call.StartHtype?
    ensures s.pc.AtStart?
  {
  }

  function Copies(s: Run): nat {
    (if s.runs then 1 else 0) + (if s.tgt.running then 1 else 0)
  }

  /** The source was never stopped, or was started again. */
  ghost predicate KeptHere(log: seq<Event>) {
    !Any(log, Halts) || Any(log, Revives)
  }

  /** The target's start returned, or it left the tree running and nobody stopped that. */
  ghost predicate StartedThere(log: seq<Event>) {
    Any(log, Returned) || (Any(log, LeavesRunning) && !Any(log, Quells))
  }

  /** In every reachable state, who executes, exactly. */
  lemma WhoRuns(cfg: Config, log: seq<Event>)
    requires Possible(cfg, log)
    ensures var s := After(cfg, log);
      && (s.runs <==> KeptHere(log)) && (s.tgt.running <==> StartedThere(log))
      && (s.tgt.restored <==> Any(log, Returned))
      && Copies(s) == (if KeptHere(log) then 1 else 0) + (if StartedThere(log) then 1 else 0)
  {
    TreeAlways(cfg, log);
  }

  /** When one copy is left. A run that returned: exactly if a failed stop was ignored under `nostart`,
      and not ignored otherwise. A run that raised, or whose process died: if nothing was left running
      on the target, exactly if the source was not stopped or was started again; and if something was,
      exactly if it was stopped and not started again. In a run that raised, what is left there is
      a start whose reply was lost, or one that raised and was not stopped. */
  lemma OneCopyAtTheEnd(cfg: Config, log: seq<Event>)
    requires Possible(cfg, log) && (After(cfg, log).pc.Stopped? || After(cfg, log).exited)
    ensures var s := After(cfg, log);
      && (s.pc == Stopped(true) ==> (Copies(s) == 1 <==> (Any(log, IgnoresStop) <==> cfg.nostart)))
      && (s.pc != Stopped(true) ==> (Copies(s) == 1 <==> (KeptHere(log) <==> !StartedThere(log))))
      && (s.pc == Stopped(false) ==>
            (StartedThere(log) <==> Any(log, LosesReply) || (Any(log, LeavesRunning) && !Any(log, Quells))))
  {
    TreeAlways(cfg, log);
  }

  /** Without an incident there are never two copies, and a run that was not killed ends with exactly
      one: on the source if it raised, on the target if it returned; and with none under `nostart`. */
  lemma CalmRuns(cfg: Config, log: seq<Event>)
    requires Possible(cfg, log) && !Any(log, Incident)
    ensures var s := After(cfg, log);
      && Copies(s) <= 1
      && (s.pc.Stopped? ==> s.runs == !s.pc.ok && s.tgt.running == (s.pc.ok && !cfg.nostart))
  {
    TreeAlways(cfg, log);
  }

  /** A run that returned has one copy too many exactly if it ignored a failed stop. */
  lemma SuccessfulEnd(cfg: Config, log: seq<Event>)
    requires Possible(cfg, log) && After(cfg, log).pc == Stopped(true)
    ensures Copies(After(cfg, log)) ==
      (if cfg.nostart then 0 else 1) + (if Any(log, IgnoresStop) then 1 else 0)
  {
    TreeAlways(cfg, log);
  }

  // ---- runs that end with two copies, with none, and with one after all ----------------------------

  const QUICK := Config(false, false)

  /** Everything went well so far. */
  ghost predicate Gets(log: seq<Event>, pc: Pc, runs: bool, calls: nat) {
    && Possible(QUICK, log)
    && var s := After(QUICK, log);
      && s.cfg == QUICK && s.pc == pc && s.up && !s.exited && s.runs == runs && s.flag
      && s.bytes == [] && |s.calls| == calls
  }

  lemma Extend(log: seq<Event>, e: Event) returns (longer: seq<Event>)
    requires Possible(QUICK, log) && Can(After(QUICK, log), e)
    ensures longer == log + [e] && Possible(QUICK, longer) && After(QUICK, longer) == Next(After(QUICK, log), e)
  {
    longer := log + [e];
    assert longer[..|log|] == log;
  }

  function Answered(c: Call): Event {
    Rpc(c, Served(Returns(true), true))
  }

  lemma QuickSetup() returns (log: seq<Event>)
    ensures Gets(log, AtRemoteOptions, true, 1)
  {
    log := Extend([], Answered(Setup(RESTART)));
    assert Gets(log, AtOptions, true, 1);
    log := Extend(log, Local(HaulerOptions, true));
  }

  lemma QuickOptions() returns (log: seq<Event>)
    ensures Gets(log, AtFsStart, true, 2)
  {
    log := QuickSetup();
    log := Extend(log, Answered(SetOptions(false)));
  }

  lemma QuickLoop() returns (log: seq<Event>)
    ensures Possible(QUICK, log)
    ensures var s := After(QUICK, log);
      s.cfg == QUICK && s.pc == AtStop && s.up && !s.exited && s.runs && s.flag && !s.tgt.running
  {
    log := QuickOptions();
    log := Extend(log, Local(FsStart, true));
    assert Gets(log, AtFsNext, true, 2);
    log := Extend(log, FsNext(Sent(0)));
    TreeAlways(QUICK, log);
  }

  /** The quickest way to the end of the FS migration. */
  lemma QuickStop(stopped: bool) returns (log: seq<Event>)
    ensures Possible(QUICK, log)
    ensures var s := After(QUICK, log);
      s.cfg == QUICK && s.pc == AtFsStop && s.up && !s.exited && s.runs == !stopped && s.flag && !s.tgt.running
  {
    log := QuickLoop();
    log := Extend(log, Stop(true, stopped));
  }

  /** The quickest way to the start on the target. */
  lemma QuickStart(stopped: bool) returns (log: seq<Event>)
    ensures Possible(QUICK, log)
    ensures var s := After(QUICK, log); s.cfg == QUICK && s.pc == AtStart && s.up && !s.exited && s.runs == !stopped
  {
    log := QuickStop(stopped);
    log := Extend(log, Local(FsStop, true));
    log := Extend(log, Umount(true, true));
  }

  ghost predicate EndsWith(log: seq<Event>, pc: Pc, copies: nat) {
    Possible(QUICK, log) && After(QUICK, log).pc == pc && Copies(After(QUICK, log)) == copies
  }

  /** If the stop command fails and its status is ignored, both hosts execute the tree. */
  lemma IgnoredStopMakesTwo() returns (log: seq<Event>)
    ensures EndsWith(log, Stopped(true), 2)
  {
    log := QuickStart(false);
    log := Extend(log, Answered(StartHtype));
    log := Extend(log, Local(HaulerComplete, true));
  }

  /** If the reply to a successful start gets lost, the source starts its tree again. */
  lemma LostReplyMakesTwo() returns (log: seq<Event>)
    ensures EndsWith(log, Stopped(false), 2)
  {
    log := QuickLost();
    log := Extend(log, Undo);
    log := Extend(log, Start(true, true));
  }

  lemma QuickLost() returns (log: seq<Event>)
    ensures Possible(QUICK, log)
    ensures var s := After(QUICK, log); s.cfg == QUICK && s.pc == AtFail && !s.exited && !s.runs && s.tgt.running
  {
    log := QuickStart(true);
    log := Extend(log, Rpc(StartHtype, Served(Returns(true), false)));
  }

  /** If the final sync fails, and then the fallback start on the source does, nobody executes the tree. */
  lemma FailedFallbackMakesNone() returns (log: seq<Event>)
    ensures EndsWith(log, Stopped(false), 0)
  {
    log := QuickFallback(true);
    log := Extend(log, Start(false, false));
  }

  /** If the source process dies between stop and start, nothing is started anywhere. */
  lemma DeathMakesNone() returns (log: seq<Event>)
    ensures EndsWith(log, AtFsStop, 0) && After(QUICK, log).exited
  {
    log := QuickStop(true);
    log := Extend(log, Exit);
  }

  /** Incidents may cancel out: the stop did nothing, and neither did the fallback. */
  lemma IncidentsMayLeaveOne() returns (log: seq<Event>)
    ensures EndsWith(log, Stopped(false), 1) && Any(log, Incident)
  {
    var before := QuickFallback(false);
    log := Extend(before, Start(false, false));
    AnyMore(before, Start(false, false), Incident);
  }

  lemma QuickFallback(stopped: bool) returns (log: seq<Event>)
    ensures Possible(QUICK, log)
    ensures var s := After(QUICK, log);
      s.cfg == QUICK && s.pc == AtFallback && !s.exited && s.runs == !stopped && !s.tgt.running
  {
    log := QuickStop(stopped);
    log := Extend(log, Local(FsStop, false));
    log := Extend(log, Undo);
  }

  // ---- the loop ------------------------------------------------------------------------------

  ghost predicate LoopInv(s: Run) {
    var n := |s.bytes|;
    && (s.pc.AtSetup? || s.pc.AtOptions? || s.pc.AtRemoteOptions? || s.pc.AtFsStart? ==> n == 0)
    && (s.pc.AtFsNext? ==> WentOn(MAX_ITERS_COUNT, MIN_ITER_FS_XFER_BYTES, s.bytes, n))
    && (n > 0 ==> WentOn(MAX_ITERS_COUNT, MIN_ITER_FS_XFER_BYTES, s.bytes, n - 1))
    && (s.pc.AtStop? || Quiesced(s.pc) || Succeeded(s.pc) || s.pc.AtFail? || s.pc.AtFallback? ==>
          n > 0 && StopsAt(MAX_ITERS_COUNT, MIN_ITER_FS_XFER_BYTES, s.bytes, n - 1))
  }

  lemma LoopStep(s: Run, e: Event)
    requires LoopInv(s) && Can(s, e)
    ensures LoopInv(Next(s, e))
  {
    if e.FsNext? && e.transfer.Sent? {
      NoteTransfer(s, Next(s, e), e);
    } else {
      LoopQuiet(s, e);
    }
  }

  lemma LoopQuiet(s: Run, e: Event)
    requires LoopInv(s) && Can(s, e) && !(e.FsNext? && e.transfer.Sent?)
    ensures LoopInv(Next(s, e))
  {
  }

  lemma NoteTransfer(s: Run, t: Run, e: Event)
    requires LoopInv(s) && s.pc.AtFsNext? && e.FsNext? && e.transfer.Sent? && PrevBytes(s) != Some(0)
    requires t.bytes == s.bytes + [e.transfer.bytes] && t.pc == LoopNext(s, e)
    ensures LoopInv(t)
  {
    forall i: nat | i < |s.bytes|
      ensures !StopsAt(MAX_ITERS_COUNT, MIN_ITER_FS_XFER_BYTES, t.bytes, i)
    {
      assert !StopsAt(MAX_ITERS_COUNT, MIN_ITER_FS_XFER_BYTES, s.bytes, i);
    }
    CheckIsStop(MAX_ITERS_COUNT, MIN_ITER_FS_XFER_BYTES, t.bytes, |s.bytes|);
  }

  lemma {:induction false} LoopAlways(cfg: Config, log: seq<Event>)
    requires Possible(cfg, log)
    ensures LoopInv(After(cfg, log))
  {
    if log != [] {
      LoopAlways(cfg, log[..|log| - 1]);
      LoopStep(After(cfg, log[..|log| - 1]), log[|log| - 1]);
    }
  }

  /** The source tree is stopped only after between one and nine transfers, the last of which is
      the first that meets the stop condition; the check never divides by zero. */
  lemma TransferCount(cfg: Config, log: seq<Event>)
    requires Possible(cfg, log)
    ensures var s := After(cfg, log);
      && |s.bytes| <= MAX_ITERS_COUNT + 1
      && (s.pc.AtFsNext? && s.bytes != [] ==> PrevBytes(s).value > MIN_ITER_FS_XFER_BYTES)
      && (s.pc.AtStop? ==> 1 <= |s.bytes| && forall k: nat | k < |s.bytes| ::
           StopsAt(MAX_ITERS_COUNT, MIN_ITER_FS_XFER_BYTES, s.bytes, k) <==> k == |s.bytes| - 1)
  {
    LoopAlways(cfg, log);
    var bytes := After(cfg, log).bytes;
    if bytes != [] {
      StopsLeast(MAX_ITERS_COUNT, MIN_ITER_FS_XFER_BYTES, bytes);
      if After(cfg, log).pc.AtFsNext? {
        DivisorPositive(MAX_ITERS_COUNT, MIN_ITER_FS_XFER_BYTES, bytes, |bytes|);
      }
    }
  }

  /** All transfers of the loop but the last together send at most a geometric sum of the first. */
  lemma BytesBound(cfg: Config, log: seq<Event>)
    requires Possible(cfg, log) && |After(cfg, log).bytes| > 1
    ensures var bytes := After(cfg, log).bytes;
      var n := |bytes| - 1;
      11 * Pow(100, n - 1) * Sum(bytes[..n]) <= bytes[0] * (Pow(111, n) - Pow(100, n))
  {
    LoopAlways(cfg, log);
    var bytes := After(cfg, log).bytes;
    var sent := bytes[..|bytes| - 1];
    forall k: nat | k < |sent| ensures !StopsAt(MAX_ITERS_COUNT, MIN_ITER_FS_XFER_BYTES, sent, k) {
      assert !StopsAt(MAX_ITERS_COUNT, MIN_ITER_FS_XFER_BYTES, bytes, k);
    }
    GeometricBound(MAX_ITERS_COUNT, MIN_ITER_FS_XFER_BYTES, sent);
  }

  // ---- calls -----------------------------------------------------------------------------------

  /** The calls of an undisturbed migration. */
  function Whole(cfg: Config): seq<Call> {
    [Setup(RESTART), SetOptions(cfg.keepImages)] + (if cfg.nostart then [] else [StartHtype]) + [MigrationComplete]
  }

  function CallsMade(s: Run): nat {
    if s.pc.AtSetup? then 0 else if s.pc.AtOptions? || s.pc.AtRemoteOptions? then 1
    else if s.pc.AtComplete? then |Whole(s.cfg)| - 1 else 2
  }

  predicate CallInv(s: Run) {
    && !s.pc.Nowhere?
    && (s.pc.AtStart? ==> !s.cfg.nostart)
    && (!s.pc.AtSetup? && !s.pc.Stopped? ==> s.tgt.htype)
    && (if s.pc.Stopped? || s.pc.AtFail? || s.pc.AtFallback? then s.calls <= Whole(s.cfg)
        else s.calls == Whole(s.cfg)[..CallsMade(s)])
  }

  lemma CallMade(s: Run, e: Event)
    requires CallInv(s) && Can(s, e) && e.Rpc?
    ensures CallInv(Next(s, e)) && Ready(s.tgt, e.call)
  {
  }

  lemma CallStep(s: Run, e: Event)
    requires CallInv(s) && Can(s, e)
    ensures CallInv(Next(s, e))
    ensures e.Rpc? ==> Ready(s.tgt, e.call)
  {
    if e.Rpc? {
      CallMade(s, e);
    }
  }

  lemma {:induction false} CallAlways(cfg: Config, log: seq<Event>)
    requires Possible(cfg, log)
    ensures CallInv(After(cfg, log)) && After(cfg, log).cfg == cfg
  {
    if log != [] {
      CallAlways(cfg, log[..|log| - 1]);
      CallStep(After(cfg, log[..|log| - 1]), log[|log| - 1]);
    }
  }

  /** The calls of every run are a prefix of setup, options, start unless `nostart`, completion; and
      the target has all that a call uses when it is made. */
  lemma TraceLanguage(cfg: Config, log: seq<Event>)
    requires Possible(cfg, log)
    ensures After(cfg, log).calls <= Whole(cfg)
    ensures forall e: Event | e.Rpc? && Can(After(cfg, log), e) :: Ready(After(cfg, log).tgt, e.call)
  {
    CallAlways(cfg, log);
    forall e: Event | e.Rpc? && Can(After(cfg, log), e) ensures Ready(After(cfg, log).tgt, e.call) {
      CallStep(After(cfg, log), e);
    }
  }

  // ---- statements --------------------------------------------------------------------------------

  /** What the driver does in an event. */
  datatype Deed =
    | SetsUp | SetsHauler | SetsTarget | StartsFs | ContinuesFs | StopsTree | StopsFs | UnmountsRoot | StartsThere
    | Undoes | StartsHere | Completes | Nothing

  function DeedOf(e: Event): Deed {
    match e
    case Rpc(Setup(_), _) => SetsUp
    case Rpc(SetOptions(_), _) => SetsTarget
    case Rpc(StartHtype, _) => StartsThere
    case Rpc(MigrationComplete, _) => Completes
    case Local(HaulerOptions, _) => SetsHauler
    case Local(FsStart, _) => StartsFs
    case Local(FsStop, _) => StopsFs
    case Local(HaulerComplete, _) => Completes
    case FsNext(_) => ContinuesFs
    case Stop(_, _) => StopsTree
    case Umount(_, _) => UnmountsRoot
    case Undo => Undoes
    case Start(_, _) => StartsHere
    case _ => Nothing
  }

  /** Everything the driver has done, in order, whether or not it raised. */
  function Deeds(log: seq<Event>): seq<Deed> {
    if log == [] then [] else
    Deeds(log[..|log| - 1]) + if ByDriver(log[|log| - 1]) then [DeedOf(log[|log| - 1])] else []
  }

  const OPENING: seq<Deed> := [SetsUp, SetsHauler, SetsTarget, StartsFs]

  function Closing(cfg: Config): seq<Deed> {
    [StopsTree, StopsFs, UnmountsRoot] + (if cfg.nostart then [] else [StartsThere]) + [Completes]
  }

  /** An undisturbed run with `n` transfers. */
  function Course(cfg: Config, n: nat): seq<Deed> {
    OPENING + seq(n, i => ContinuesFs) + Closing(cfg)
  }

  /** How far into a run with `n` transfers the driver is. */
  function Far(pc: Pc, n: nat): nat {
    match pc
    case AtSetup => 0
    case AtOptions => 1
    case AtRemoteOptions => 2
    case AtFsStart => 3
    case AtFsNext => 4 + n
    case AtStop => 4 + n
    case AtFsStop => 5 + n
    case AtUmount => 6 + n
    case AtStart => 7 + n
    case _ => 7 + n
  }

  /** A part of a run with `n` transfers that got to the stop of the tree, and what undoes it. */
  ghost predicate Undone(cfg: Config, n: nat, deeds: seq<Deed>, undo: seq<Deed>) {
    exists k: nat | 6 + n <= k < |Course(cfg, n)| :: deeds == Course(cfg, n)[..k] + undo
  }

  /** What was done when the driver is at `pc` after `n` complete transfers. */
  ghost predicate Done(cfg: Config, pc: Pc, n: nat, deeds: seq<Deed>) {
    match pc
    case AtComplete => deeds == Course(cfg, n)[..|Course(cfg, n)| - 1]
    case AtFail => Undone(cfg, n, deeds, [])
    case AtFallback => Undone(cfg, n, deeds, [Undoes])
    case Stopped(ok) =>
      if ok then deeds == Course(cfg, n)
      else BrokenOff(cfg, n, deeds) || Undone(cfg, n, deeds, [Undoes, StartsHere])
    case Nowhere => false
    case _ =>
      deeds == Course(cfg, n)[..Far(pc, n)] && (pc.AtStart? ==> !cfg.nostart) && (Far(pc, n) < 4 ==> n == 0)
  }

  /** A first part of a run, at most up to the stop of the tree, or to one more transfer. */
  ghost predicate BrokenOff(cfg: Config, n: nat, deeds: seq<Deed>) {
    deeds <= OPENING + seq(n, i => ContinuesFs) + [StopsTree] || deeds == OPENING + seq(n + 1, i => ContinuesFs)
  }

  lemma CourseAt(cfg: Config, n: nat)
    ensures var c := Course(cfg, n);
      && |c| == 4 + n + |Closing(cfg)|
      && c[0] == SetsUp && c[1] == SetsHauler && c[2] == SetsTarget && c[3] == StartsFs
      && c[4 + n] == StopsTree && c[5 + n] == StopsFs && c[6 + n] == UnmountsRoot
      && c[7 + n] == (if cfg.nostart then Completes else StartsThere) && c[|c| - 1] == Completes
      && c[..4 + n] == OPENING + seq(n, i => ContinuesFs)
      && c[..5 + n] == OPENING + seq(n, i => ContinuesFs) + [StopsTree]
  {
  }

  lemma CourseNext(cfg: Config, n: nat)
    ensures Course(cfg, n)[..4 + n] + [ContinuesFs] == Course(cfg, n + 1)[..5 + n]
    ensures Course(cfg, n + 1)[..5 + n] == OPENING + seq(n + 1, i => ContinuesFs)
  {
  }

  lemma Longer(cfg: Config, n: nat, k: nat)
    requires k < |Course(cfg, n)|
    ensures Course(cfg, n)[..k] + [Course(cfg, n)[k]] == Course(cfg, n)[..k + 1]
  {
  }

  lemma DoneOpening(s: Run, e: Event, deeds: seq<Deed>)
    requires Done(s.cfg, s.pc, 0, deeds) && ByDriver(e) && !NextPc(s, e).Nowhere?
    requires s.pc.AtSetup? || s.pc.AtOptions? || s.pc.AtRemoteOptions? || s.pc.AtFsStart?
    ensures Done(s.cfg, NextPc(s, e), 0, deeds + [DeedOf(e)])
  {
    CourseAt(s.cfg, 0);
    Longer(s.cfg, 0, Far(s.pc, 0));
    assert Course(s.cfg, 0)[..Far(s.pc, 0) + 1] <= Course(s.cfg, 0)[..5];
  }

  lemma DoneTransfer(s: Run, e: Event, n: nat, deeds: seq<Deed>)
    requires Done(s.cfg, s.pc, n, deeds) && s.pc.AtFsNext? && ByDriver(e) && !NextPc(s, e).Nowhere?
    ensures Done(s.cfg, NextPc(s, e), if e.FsNext? && e.transfer.Sent? then n + 1 else n, deeds + [DeedOf(e)])
  {
    CourseNext(s.cfg, n);
  }

  lemma DoneStop(s: Run, e: Event, n: nat, deeds: seq<Deed>)
    requires Done(s.cfg, s.pc, n, deeds) && s.pc.AtStop? && ByDriver(e) && !NextPc(s, e).Nowhere?
    ensures Done(s.cfg, NextPc(s, e), n, deeds + [DeedOf(e)])
  {
    CourseAt(s.cfg, n);
    Longer(s.cfg, n, 4 + n);
  }

  lemma DoneHandOver(s: Run, e: Event, n: nat, deeds: seq<Deed>)
    requires Done(s.cfg, s.pc, n, deeds) && Quiesced(s.pc) && ByDriver(e) && !NextPc(s, e).Nowhere?
    ensures Done(s.cfg, NextPc(s, e), n, deeds + [DeedOf(e)])
  {
    var k := Far(s.pc, n);
    CourseAt(s.cfg, n);
    Longer(s.cfg, n, k);
    var more := deeds + [DeedOf(e)];
    assert more == Course(s.cfg, n)[..k + 1] && 6 + n <= k + 1 < |Course(s.cfg, n)|;
    assert more == Course(s.cfg, n)[..k + 1] + [];
    assert Undone(s.cfg, n, more, []);
  }

  lemma DoneEnd(s: Run, e: Event, n: nat, deeds: seq<Deed>)
    requires Done(s.cfg, s.pc, n, deeds) && ByDriver(e) && !NextPc(s, e).Nowhere?
    requires s.pc.AtFail? || s.pc.AtFallback? || s.pc.AtComplete?
    ensures Done(s.cfg, NextPc(s, e), n, deeds + [DeedOf(e)])
  {
    var c := Course(s.cfg, n);
    CourseAt(s.cfg, n);
    if s.pc.AtComplete? {
      Longer(s.cfg, n, |c| - 1);
      assert c[..|c|] == c;
    } else {
      var undo := if s.pc.AtFail? then [] else [Undoes];
      var k: nat :| 6 + n <= k < |c| && deeds == c[..k] + undo;
      assert deeds + [DeedOf(e)] == c[..k] + (undo + [DeedOf(e)]);
      assert undo + [DeedOf(e)] == if s.pc.AtFail? then [Undoes] else [Undoes, StartsHere];
    }
  }

  lemma DoneStep(s: Run, e: Event, deeds: seq<Deed>)
    requires Done(s.cfg, s.pc, |s.bytes|, deeds) && LoopInv(s) && Can(s, e)
    ensures Done(s.cfg, Next(s, e).pc, |Next(s, e).bytes|, deeds + if ByDriver(e) then [DeedOf(e)] else [])
  {
    var n := |s.bytes|;
    if !ByDriver(e) {
      assert deeds + [] == deeds;
    } else if s.pc.AtFsNext? {
      DoneTransfer(s, e, n, deeds);
    } else {
      NoTransfer(s, e);
      if s.pc.AtStop? {
        DoneStop(s, e, n, deeds);
      } else if Quiesced(s.pc) {
        DoneHandOver(s, e, n, deeds);
      } else if s.pc.AtFail? || s.pc.AtFallback? || s.pc.AtComplete? {
        DoneEnd(s, e, n, deeds);
      } else {
        DoneOpening(s, e, deeds);
      }
    }
  }

  lemma NoTransfer(s: Run, e: Event)
    requires Can(s, e) && ByDriver(e) && !s.pc.AtFsNext?
    ensures Next(s, e).bytes == s.bytes && !s.pc.Stopped? && !s.pc.Nowhere?
  {
  }

  lemma {:induction false} DoneAlways(cfg: Config, log: seq<Event>)
    requires Possible(cfg, log)
    ensures Done(cfg, After(cfg, log).pc, |After(cfg, log).bytes|, Deeds(log)) && After(cfg, log).cfg == cfg
  {
    if log != [] {
      var init, e := log[..|log| - 1], log[|log| - 1];
      DoneAlways(cfg, init);
      LoopAlways(cfg, init);
      DoneStep(After(cfg, init), e, Deeds(init));
    }
  }

  /** What the driver does, in order. A run that returned has set up here and there, transferred the
      file systems `n` times, stopped the tree, synced for the last time, unmounted, started the tree on the
      target unless told not to, and completed. One that raised did a first part of that up to the
      stop; or it got further, and then undid the migration and started the tree here again. */
  lemma StatementLanguage(cfg: Config, log: seq<Event>)
    requires Possible(cfg, log) && After(cfg, log).pc.Stopped?
    ensures var n := |After(cfg, log).bytes|;
      var transfers := seq(n, i => ContinuesFs);
      var rest := [StopsTree, StopsFs, UnmountsRoot] + (if cfg.nostart then [] else [StartsThere]) + [Completes];
      var course := [SetsUp, SetsHauler, SetsTarget, StartsFs] + transfers + rest;
      if After(cfg, log).pc.ok then Deeds(log) == course
      else
        || Deeds(log) <= course[..5 + n]
        || Deeds(log) == [SetsUp, SetsHauler, SetsTarget, StartsFs] + seq(n + 1, i => ContinuesFs)
        || exists k: nat | 6 + n <= k < |course| :: Deeds(log) == course[..k] + [Undoes, StartsHere]
  {
    DoneAlways(cfg, log);
    CourseAt(cfg, |After(cfg, log).bytes|);
  }
}
