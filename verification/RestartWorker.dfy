/** The source driver in restart mode (phaul/iters.py, `phaul_iter_worker`), statement by statement,
    with the Virtuozzo hauler under it: every run of it is a possible history in `Restart`. */
module RestartWorker {
  import opened Prelude
  import opened Progress
  import opened Target
  import opened Restart

  /** phaul/p_haul_vz.py, `mount`/`umount`/`start`/`stop`: the flag against what is really so. */
  class VzHauler {
    var fsMounted: bool
    ghost var runs: bool
    ghost var mounted: bool

    constructor InitSrc()
      ensures fsMounted && runs && mounted
    {
      fsMounted, runs, mounted := true, true, true;
    }

    /** The exit status of the command is not looked at; only a failure to run it raises. */
    method StopTree(umount: bool, ran: bool, ghost stopped: bool) returns (ok: bool)
      requires stopped ==> ran
      modifies this`fsMounted, this`runs
      ensures ok == ran && fsMounted == (if ok then !umount else old(fsMounted))
      ensures runs == (old(runs) && !stopped)
    {
      runs := runs && !stopped;
      if !ran {
        return false;
      }
      fsMounted := !umount;
      return true;
    }

    /** Nothing is done about a root that is not thought to be mounted. */
    method UmountRoot(ran: bool, ghost unmounted: bool) returns (ok: bool)
      requires unmounted ==> ran
      modifies this`fsMounted, this`mounted
      ensures ok == (!old(fsMounted) || ran) && fsMounted == (old(fsMounted) && !ok)
      ensures mounted == (old(mounted) && !(old(fsMounted) && unmounted))
    {
      if fsMounted {
        mounted := mounted && !unmounted;
        if !ran {
          return false;
        }
        fsMounted := false;
      }
      return true;
    }

    /** Unlike the others this one raises if the command fails. */
    method StartTree(status: bool, ghost started: bool) returns (ok: bool)
      requires status ==> started
      modifies this
      ensures ok == status && fsMounted == (old(fsMounted) || ok)
      ensures runs == (old(runs) || started) && mounted == (old(mounted) || started)
    {
      runs, mounted := runs || started, mounted || started;
      if !status {
        return false;
      }
      fsMounted := true;
      return true;
    }
  }

  predicate SameDriver(a: Run, b: Run) {
    a.cfg == b.cfg && a.pc == b.pc && a.bytes == b.bytes && a.runs == b.runs && a.mounted == b.mounted
    && a.flag == b.flag && a.exited == b.exited
  }

  /** The driver has gone from `a` to `b` as in event `e`. */
  predicate Moved(a: Run, b: Run, e: Event) {
    && b.pc == NextPc(a, e) && b.cfg == a.cfg && b.exited == a.exited
    && b.bytes == (if e.FsNext? && e.transfer.Sent? then a.bytes + [e.transfer.bytes] else a.bytes)
    && b.runs == ((a.runs && !(e.Stop? && e.stopped)) || (e.Start? && e.started))
    && b.mounted == ((a.mounted && !(e.Umount? && e.unmounted)) || (e.Start? && e.started))
    && b.flag == ((a.flag && !(e.Umount? && e.ok)) || (e.Stop? && e.ok) || (e.Start? && e.ok))
  }

  lemma Summary(s: Run, e: Event)
    requires Can(s, e)
    ensures if ByDriver(e) then Moved(s, Next(s, e), e) else e.Exit? || SameDriver(s, Next(s, e))
    ensures e.Exit? ==> SameDriver(s.(exited := true), Next(s, e))
    ensures Next(s, e).up == StaysUp(s.up, e)
  {
  }

  lemma SameNext(a: Run, b: Run, e: Event)
    requires SameDriver(a, b)
    ensures NextPc(a, e) == NextPc(b, e)
    ensures forall c: Run | Moved(b, c, e) :: Moved(a, c, e)
  {
  }

  lemma OnlyReply(s: Run, c: Target.Call, fate: Fate)
    ensures NextPc(s, Rpc(c, fate)) == NextPc(s, Rpc(c, FateOf(Reply(fate))))
    ensures NextPc(s, Rpc(c, fate)).Nowhere? <==> NextPc(s, Rpc(c, Lost)).Nowhere?
  {
  }

  /** The circumstances of one statement: everything the driver does not decide itself. */
  datatype Choice = Choice(
    around: seq<Event>,  // what happens elsewhere before it
    ok: bool,            // a statement does not raise; a command could be run, or succeeded
    effect: bool,        // a command did what it is for
    fate: Fate,          // of a call, if the connection is intact
    transfer: Transfer)  // of the file systems

  /** The driver's event `e` at `s` is what the circumstances `c` make of it. `remote`: the hauler
      completes the migration by a call. */
  predicate Fits(remote: bool, c: Choice, s: Run, e: Event) {
    match e
    case Local(what, ok) => ok == c.ok && (what.HaulerComplete? ==> !remote)
    case Rpc(call, fate) => fate == (if s.up then c.fate else Lost) && (call.MigrationComplete? ==> remote)
    case FsNext(transfer) => transfer == c.transfer
    case Stop(ok, stopped) => ok == c.ok && stopped == (c.ok && c.effect)
    case Umount(ok, unmounted) => s.flag ==> ok == c.ok && unmounted == (c.ok && c.effect)
    case Start(ok, started) => ok == c.ok && started == (c.ok || c.effect)
    case _ => true
  }

  predicate Elsewhere(e: Event) {
    e.Break? || e.Disconnect?
  }

  /** The state after those of the events that can happen elsewhere and are possible when their turn
      comes, */
  function Later(s: Run, around: seq<Event>): Run {
    if around == [] then s else
    var t, e := Later(s, around[..|around| - 1]), around[|around| - 1];
    if Elsewhere(e) && Can(t, e) then Next(t, e) else t
  }

  /** and these events. */
  function Happened(s: Run, around: seq<Event>): seq<Event> {
    if around == [] then [] else
    var init, e := around[..|around| - 1], around[|around| - 1];
    Happened(s, init) + if Elsewhere(e) && Can(Later(s, init), e) then [e] else []
  }

  lemma OneMoreAround(s: Run, around: seq<Event>, n: nat)
    requires n < |around|
    ensures var t, e := Later(s, around[..n]), around[n];
      if Elsewhere(e) && Can(t, e) then
        Later(s, around[..n + 1]) == Next(t, e)
        && Happened(s, around[..n + 1]) == Happened(s, around[..n]) + [e]
      else Later(s, around[..n + 1]) == t && Happened(s, around[..n + 1]) == Happened(s, around[..n])
  {
    assert around[..n + 1][..n] == around[..n];
  }

  /** The event is in the log and had its effect if it could happen elsewhere and was possible. */
  predicate Adds(a: Run, before: seq<Event>, e: Event, b: Run, after: seq<Event>) {
    if Elsewhere(e) && Can(a, e) then b == Next(a, e) && after == before + [e] else b == a && after == before
  }

  /** The statements executed so far. */
  function Steps(log: seq<Event>): nat {
    if log == [] then 0 else Steps(log[..|log| - 1]) + if ByDriver(log[|log| - 1]) then 1 else 0
  }

  /** The history is what the script makes of the run. */
  ghost predicate Plays(cfg: Config, remote: bool, script: nat -> Choice, log: seq<Event>) {
    log != [] ==>
      var init, e := log[..|log| - 1], log[|log| - 1];
      && Plays(cfg, remote, script, init) && Possible(cfg, init)
      && (ByDriver(e) ==> Fits(remote, script(Steps(init)), After(cfg, init), e))
  }

  lemma PlaysMore(cfg: Config, remote: bool, script: nat -> Choice, log: seq<Event>, e: Event)
    requires Possible(cfg, log) && Plays(cfg, remote, script, log)
    requires ByDriver(e) ==> Fits(remote, script(Steps(log)), After(cfg, log), e)
    ensures Plays(cfg, remote, script, log + [e])
    ensures Steps(log + [e]) == Steps(log) + if ByDriver(e) then 1 else 0
  {
    assert (log + [e])[..|log|] == log;
  }

  /** The quantifier keeps this folded: only a proof that mentions `Unfolded` looks inside. */
  ghost predicate Leads(cfg: Config, remote: bool, script: nat -> Choice, log: seq<Event>, run: Run, step: nat) {
    forall n {:trigger Unfolded(n)} :: Unfolded(n) ==>
      && Exec(Init(cfg), log) == Some(run) && LoopInv(run)
      && Plays(cfg, remote, script, log) && step == Steps(log)
  }

  lemma LeadsMore(cfg: Config, remote: bool, script: nat -> Choice, log: seq<Event>, run: Run, step: nat, e: Event)
    requires Leads(cfg, remote, script, log, run, step) && Can(run, e)
    requires ByDriver(e) ==> Fits(remote, script(step), run, e)
    ensures Leads(cfg, remote, script, log + [e], Next(run, e), step + if ByDriver(e) then 1 else 0)
  {
    assert Unfolded(0);
    LoopStep(run, e);
    PlaysMore(cfg, remote, script, log, e);
    assert (log + [e])[..|log|] == log;
  }

  lemma LoopHere(cfg: Config, remote: bool, script: nat -> Choice, log: seq<Event>, run: Run, step: nat)
    requires Leads(cfg, remote, script, log, run, step)
    ensures LoopInv(run)
  {
    assert Unfolded(0);
  }

  lemma DivisorHere(run: Run)
    requires LoopInv(run) && run.pc.AtFsNext?
    ensures PrevBytes(run).Some? ==> PrevBytes(run).value > MIN_ITER_FS_XFER_BYTES
  {
    if run.bytes != [] {
      DivisorPositive(MAX_ITERS_COUNT, MIN_ITER_FS_XFER_BYTES, run.bytes, |run.bytes|);
    }
  }

  class RestartDriver {
    const cfg: Config
    const remote: bool          // the completion hook of the hauler is a call
    const script: nat -> Choice // the circumstances of each statement
    const hauler: VzHauler
    var step: nat               // statements executed
    var up: bool                // the rpc connection
    ghost var log: seq<Event>   // everything that happened so far, here and elsewhere
    ghost var run: Run
    ghost var told: nat         // statements in the log

    /** The log is a possible history, as the script has it, and leads to the present state. */
    ghost predicate History()
      reads this`log, this`run, this`told
    {
      Leads(cfg, remote, script, log, run, told)
    }

    /** The objects of the driver agree with that state, after `n` statements. */
    ghost predicate LinkedAt(n: nat)
      reads this`run, this`up, this`told, hauler
    {
      && run.cfg == cfg && run.up == up && told == n
      && run.flag == hauler.fsMounted && run.runs == hauler.runs && run.mounted == hauler.mounted
    }

    ghost predicate Valid()
      reads this, hauler
    {
      History() && LinkedAt(step)
    }

    constructor (cfg: Config, remote: bool, script: nat -> Choice)
      ensures Valid() && run == Init(cfg) && fresh(hauler)
      ensures this.cfg == cfg && this.remote == remote && this.script == script
    {
      this.cfg, this.remote, this.script := cfg, remote, script;
      hauler := new VzHauler.InitSrc();
      step, up := 0, true;
      log, run, told := [], Init(cfg), 0;
    }

    ghost method Emit(e: Event)
      requires History() && Can(run, e) && (ByDriver(e) ==> Fits(remote, script(told), run, e))
      modifies this`log, this`run, this`told
      ensures History() && run.up == StaysUp(old(run.up), e) && log == old(log) + [e]
      ensures if ByDriver(e) then Moved(old(run), run, e) else e.Exit? || SameDriver(old(run), run)
      ensures e.Exit? ==> SameDriver(old(run).(exited := true), run)
      ensures told == old(told) + if ByDriver(e) then 1 else 0
      ensures run == old(Next(run, e))
    {
      LeadsMore(cfg, remote, script, log, run, told, e);
      Summary(run, e);
      told := if ByDriver(e) then told + 1 else told;
      run, log := Next(run, e), log + [e];
    }

    /** On to the next statement. */
    method Advance()
      requires History() && LinkedAt(step + 1)
      modifies this`step
      ensures Valid() && step == old(step) + 1
    {
      step := step + 1;
    }

    /** Between two statements the connection may break, and the target may handle it. */
    method Interfere(around: seq<Event>)
      requires Valid()
      modifies this`up, this`log, this`run, this`told
      ensures Valid() && SameDriver(run, old(run)) && told == old(told) && up == (old(up) && Break !in around)
      ensures run == Later(old(run), around) && log == old(log) + Happened(old(run), around)
    {
      for i := 0 to |around|
        invariant Valid() && SameDriver(run, old(run)) && told == old(told)
        invariant up == (old(up) && Break !in around[..i])
        invariant run == Later(old(run), around[..i]) && log == old(log) + Happened(old(run), around[..i])
      {
        OneMoreAround(old(run), around, i);
        ghost var log0 := log;
        Other(around[i]);
        assert around[..i + 1] == around[..i] + [around[i]];
        assert log0 + [around[i]] == old(log) + (Happened(old(run), around[..i]) + [around[i]]);
      }
      assert around[..|around|] == around;
    }

    method Other(e: Event)
      requires Valid()
      modifies this`up, this`log, this`run, this`told
      ensures Valid() && SameDriver(run, old(run)) && told == old(told) && up == (old(up) && !e.Break?)
      ensures Adds(old(run), old(log), e, run, log)
    {
      if e.Break? {
        up := false;
      }
      if e.Break? || e.Disconnect? {
        NoteOther(e);
      }
    }

    ghost method NoteOther(e: Event)
      requires History() && (e.Break? || e.Disconnect?)
      modifies this`log, this`run, this`told
      ensures History() && SameDriver(old(run), run) && run.up == (old(run.up) && !e.Break?) && told == old(told)
      ensures Adds(old(run), old(log), e, run, log)
    {
      if Can(run, e) {
        Emit(e);
      }
    }

    /** A call on the target host: the reply, or an exception. It fails if the connection is broken. */
    method CallTarget(c: Target.Call) returns (r: Result<bool>)
      requires Valid() && !run.exited && !NextPc(run, Rpc(c, Lost)).Nowhere? && (c.MigrationComplete? ==> remote)
      modifies this`up, this`log, this`run, this`told, this`step
      ensures Valid() && Moved(old(run), run, Rpc(c, FateOf(r))) && step == old(step) + 1
      ensures r == if old(up) && Break !in script(old(step)).around then Reply(script(old(step)).fate) else Failure
    {
      Interfere(script(step).around);
      r := CallNow(old(run), c);
    }

    /** The driver was at `before`, and events elsewhere have happened since. */
    method CallNow(ghost before: Run, c: Target.Call) returns (r: Result<bool>)
      requires Valid() && !run.exited && SameDriver(run, before) && !NextPc(before, Rpc(c, Lost)).Nowhere?
      requires c.MigrationComplete? ==> remote
      modifies this`up, this`log, this`run, this`told, this`step
      ensures Valid() && Moved(before, run, Rpc(c, FateOf(r))) && step == old(step) + 1
      ensures r == if old(up) then Reply(script(old(step)).fate) else Failure
    {
      var fate := if up then script(step).fate else Lost;
      NoteCall(before, c, fate);
      up := up && fate.Served? && fate.delivered;
      Advance();
      return Reply(fate);
    }

    ghost method NoteCall(before: Run, c: Target.Call, fate: Fate)
      requires History() && !run.exited && SameDriver(run, before)
      requires !NextPc(before, Rpc(c, Lost)).Nowhere? && (c.MigrationComplete? ==> remote)
      requires fate == if run.up then script(told).fate else Lost
      modifies this`log, this`run, this`told
      ensures History() && Moved(before, run, Rpc(c, FateOf(Reply(fate)))) && told == old(told) + 1
      ensures run.up == (old(run.up) && fate.Served? && fate.delivered)
    {
      SameNext(before, run, Rpc(c, Lost));
      OnlyReply(run, c, fate);
      Emit(Rpc(c, fate));
    }

    /** A local statement of the driver. */
    ghost method Note(e: Event)
      requires History() && !run.exited && !NextPc(run, e).Nowhere? && ByDriver(e) && !e.Rpc? && Plausible(e)
      requires Fits(remote, script(told), run, e)
      modifies this`log, this`run, this`told
      ensures History() && Moved(old(run), run, e) && run.up == old(run.up) && told == old(told) + 1
    {
      Emit(e);
    }

    method Attempt(what: Statement) returns (ok: bool)
      requires Valid() && !run.exited && (what.HaulerComplete? ==> !remote)
      requires !NextPc(run, Local(what, false)).Nowhere? && !NextPc(run, Local(what, true)).Nowhere?
      modifies this`up, this`log, this`run, this`told, this`step
      ensures Valid() && Moved(old(run), run, Local(what, ok)) && ok == script(old(step)).ok && step == old(step) + 1
    {
      Interfere(script(step).around);
      ok := script(step).ok;
      SameNext(old(run), run, Local(what, ok));
      Note(Local(what, ok));
      Advance();
    }

    // ---- the driver ------------------------------------------------------------------------------

    /** One FS iteration and the decision after it. */
    method NextTransfer(iterIndex: nat, prev: Option<nat>) returns (r: Result<bool>, sent: nat)
      requires Valid() && !run.exited && run.pc.AtFsNext?
      requires iterIndex == |run.bytes| && prev == PrevBytes(run)
      modifies this`log, this`run, this`told, this`step
      ensures Valid() && !run.exited
      ensures r.Failure? ==> run.pc == Stopped(false)
      ensures r.Success? ==> run.bytes == old(run.bytes) + [sent] && run.pc == if r.value then AtFsNext else AtStop
      ensures r == Success(true) ==> iterIndex < MAX_ITERS_COUNT
      ensures var t := script(old(step)).transfer; if t.Sent? then r.Success? && sent == t.bytes else r.Failure?
    {
      LoopHere(cfg, remote, script, log, run, told);
      DivisorHere(run);
      var transfer := script(step).transfer;
      Note(FsNext(transfer));
      Advance();
      if !transfer.Sent? {
        return Failure, 0;
      }
      sent := transfer.bytes;
      r := Success(CheckRestart(iterIndex, sent, prev));
    }

    lemma NoBytesYet()
      requires History() && run.pc.AtFsStart?
      ensures run.bytes == []
    {
      LoopHere(cfg, remote, script, log, run, told);
    }

    /** The FS migration loop. */
    method TransferLoop() returns (ok: bool)
      requires Valid() && !run.exited && run.pc.AtFsNext? && run.bytes == []
      modifies this`log, this`run, this`told, this`step
      ensures Valid() && !run.exited
      ensures run.pc == if ok then AtStop else Stopped(false)
      ensures ok ==> 1 <= |run.bytes| <= MAX_ITERS_COUNT + 1
    {
      var iterIndex: nat := 0;
      var prevFsstats: Option<nat> := None;
      while true
        invariant Valid() && !run.exited && run.pc.AtFsNext?
        invariant iterIndex == |run.bytes| <= MAX_ITERS_COUNT && prevFsstats == PrevBytes(run)
        decreases MAX_ITERS_COUNT - iterIndex
      {
        var more, sent := NextTransfer(iterIndex, prevFsstats);
        if more.Failure? {
          return false;
        }
        if !more.value {
          return true;
        }
        iterIndex := iterIndex + 1;
        prevFsstats := Some(sent);
      }
    }

    method StopHere() returns (ok: bool)
      requires Valid() && !run.exited && run.pc.AtStop?
      modifies this`log, this`run, this`told, this`step, hauler
      ensures Valid() && !run.exited
      ensures run.pc == if ok then AtFsStop else Stopped(false)
      ensures ok == script(old(step)).ok && hauler.runs == (old(hauler.runs) && !(ok && script(old(step)).effect))
    {
      var c := script(step);
      ok := hauler.StopTree(false, c.ok, c.ok && c.effect);
      Note(Stop(ok, c.ok && c.effect));
      Advance();
    }

    lemma FlagHere()
      requires History() && run.pc.AtUmount?
      ensures run.flag
    {
      assert Unfolded(0);
      TreeAlways(cfg, log);
    }

    method UmountHere() returns (ok: bool)
      requires Valid() && !run.exited && run.pc.AtUmount?
      modifies this`log, this`run, this`told, this`step, hauler
      ensures Valid() && !run.exited
      ensures run.pc == if ok then AfterUmount(run) else AtFail
      ensures ok == script(old(step)).ok
    {
      FlagHere();
      var c := script(step);
      ok := hauler.UmountRoot(c.ok, c.ok && c.effect);
      Note(Umount(ok, c.ok && c.effect));
      Advance();
    }

    /** The final sync, the unmounting and, unless told not to, the start on the target. */
    method HandOver() returns (ok: bool)
      requires Valid() && !run.exited && run.pc.AtFsStop?
      modifies this`up, this`log, this`run, this`told, this`step, hauler
      ensures Valid() && !run.exited
      ensures run.pc == if ok then AtComplete else AtFail
    {
      ok := Attempt(FsStop);
      if ok { ok := UmountHere(); }
      if ok && !cfg.nostart { ok := StartThere(); }
    }

    method StartThere() returns (ok: bool)
      requires Valid() && !run.exited && run.pc.AtStart?
      modifies this`up, this`log, this`run, this`told, this`step
      ensures Valid() && !run.exited && run.pc == if ok then AtComplete else AtFail
    {
      var answer := CallTarget(StartHtype);
      return answer.Success?;
    }

    /** `migration_fail`, and the start of the tree here: whatever comes of it, the driver raises. */
    method FallBack()
      requires Valid() && !run.exited && run.pc.AtFail?
      modifies this`log, this`run, this`told, this`step, hauler
      ensures Valid() && !run.exited && run.pc == Stopped(false)
      ensures var c := script(old(step) + 1); hauler.runs == (old(hauler.runs) || c.ok || c.effect)
    {
      Note(Undo);
      Advance();
      StartAgain();
    }

    method StartAgain()
      requires Valid() && !run.exited && run.pc.AtFallback?
      modifies this`log, this`run, this`told, this`step, hauler
      ensures Valid() && !run.exited && run.pc == Stopped(false)
      ensures var c := script(old(step)); hauler.runs == (old(hauler.runs) || c.ok || c.effect)
    {
      var c := script(step);
      var ok := hauler.StartTree(c.ok, c.ok || c.effect);
      Note(Start(ok, c.ok || c.effect));
      Advance();
    }

    /** The completion hook of the hauler; what raises in it is only logged. */
    method Complete()
      requires Valid() && !run.exited && run.pc.AtComplete?
      modifies this`up, this`log, this`run, this`told, this`step
      ensures Valid() && !run.exited && run.pc == Stopped(true)
    {
      if remote {
        var answer := CallTarget(MigrationComplete);
      } else {
        var ok := Attempt(HaulerComplete);
      }
    }

    /** Before anything is stopped. */
    method TransferFirst() returns (ok: bool)
      requires Valid() && !run.exited && run.pc.AtFsStart?
      modifies this`up, this`log, this`run, this`told, this`step
      ensures Valid() && !run.exited
      ensures run.pc == if ok then AtStop else Stopped(false)
    {
      NoBytesYet();
      ok := Attempt(Restart.FsStart);
      if ok { ok := TransferLoop(); }
    }

    /** `__start_restart_migration`; false stands for an exception. */
    method StartRestartMigration() returns (ok: bool)
      requires Valid() && !run.exited && run.pc.AtFsStart?
      modifies this`up, this`log, this`run, this`told, this`step, hauler
      ensures Valid() && !run.exited && run.pc == Stopped(ok)
    {
      ok := TransferFirst();
      if ok { ok := StopHere(); }
      if !ok {
        return;
      }
      ok := HandOver();
      if ok { Complete(); } else { FallBack(); }
    }

    /** `__init__` and `set_options`. */
    method SetUp() returns (ok: bool)
      requires Valid() && !run.exited && run.pc.AtSetup?
      modifies this`up, this`log, this`run, this`told, this`step
      ensures Valid() && !run.exited
      ensures run.pc == if ok then AtFsStart else Stopped(false)
    {
      var answer := CallTarget(Setup(RESTART));
      if answer.Failure? {
        return false;
      }
      ok := Options();
    }

    method Options() returns (ok: bool)
      requires Valid() && !run.exited && run.pc.AtOptions?
      modifies this`up, this`log, this`run, this`told, this`step
      ensures Valid() && !run.exited
      ensures run.pc == if ok then AtFsStart else Stopped(false)
    {
      ok := Attempt(HaulerOptions);
      if ok {
        var answer := CallTarget(SetOptions(cfg.keepImages));
        return answer.Success?;
      }
    }

    lemma Ending()
      requires History() && run.pc.Stopped?
      ensures Plays(cfg, remote, script, log)
      ensures Copies(run) == (if KeptHere(log) then 1 else 0) + (if StartedThere(log) then 1 else 0)
      ensures run.pc.ok ==> Copies(run) == (if cfg.nostart then 0 else 1) + (if Any(log, IgnoresStop) then 1 else 0)
      ensures !Any(log, Incident) ==>
        run.runs == !run.pc.ok && run.tgt.running == (run.pc.ok && !cfg.nostart)
    {
      assert Unfolded(0);
      WhoRuns(cfg, log);
      if !Any(log, Incident) {
        CalmRuns(cfg, log);
      }
      if run.pc.ok {
        SuccessfulEnd(cfg, log);
      }
    }

    /** A whole run of the source process, to its exit. */
    method Migrate() returns (ok: bool)
      requires Valid() && !run.exited && run.pc.AtSetup?
      modifies this`up, this`log, this`run, this`told, this`step, hauler
      ensures History() && run.exited && run.pc == Stopped(ok) && hauler.runs == run.runs
      ensures Plays(cfg, remote, script, log)
      ensures Copies(run) == (if KeptHere(log) then 1 else 0) + (if StartedThere(log) then 1 else 0)
      ensures !Any(log, Incident) ==> hauler.runs == !ok && run.tgt.running == (ok && !cfg.nostart)
      ensures ok ==> Copies(run) == (if cfg.nostart then 0 else 1) + (if Any(log, IgnoresStop) then 1 else 0)
    {
      ok := SetUp();
      if ok { ok := StartRestartMigration(); }
      Emit(Exit);
      Ending();
    }
  }
}
