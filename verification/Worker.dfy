/** The source driver (phaul/iters.py, `phaul_iter_worker`) in live mode, statement by statement:
    every run of it is a possible history of the state machine in `Live`. */
module Worker {
  import opened Prelude
  import Images
  import Progress
  import opened CriuSession
  import opened Target
  import opened Live
  import opened LiveLoop
  import opened LiveSafety
  import LiveEnds
  import opened LiveScript

  /** The states in which the source's CRIU connection has no notification pending. */
  predicate Idle(pc: Pc) {
    pc.Prepare? || pc.Iterate? || pc.Final?
  }

  /** The driver's own part of the control state. */
  predicate SameDriver(a: Run, b: Run) {
    a.cfg == b.cfg && a.pc == b.pc && a.force == b.force && a.usePre == b.usePre && a.pages == b.pages
    && a.exited == b.exited && a.acked == b.acked
  }

  lemma SameNext(a: Run, b: Run, e: Event)
    requires SameDriver(a, b)
    ensures NextPc(a, e) == NextPc(b, e)
  {
    if a.pc.Prepare? {
      SamePrepare(a, b, e);
    }
  }

  lemma SamePrepare(a: Run, b: Run, e: Event)
    requires SameDriver(a, b) && a.pc.Prepare?
    ensures NextPc(a, e) == NextPc(b, e)
  {
  }

  /** The post-dump notification is pending. */
  predicate Holding(pc: Pc) {
    pc.HandOver? || pc.AtFail? || pc.AtAck?
  }

  predicate Tracked(pc: Pc) {
    pc == Prepare(AtFsStart) || pc.Iterate? || pc.Final?
  }

  /** The driver has gone from `a` to `b` as in event `e`. */
  predicate Moved(a: Run, b: Run, e: Event) {
    && b.pc == NextPc(a, e) && b.cfg == a.cfg && b.exited == a.exited
    && b.force == (a.force || (e.CpuDump? && e.probe.NotSupported?))
    && b.usePre == (if e.Track? then e.on else a.usePre)
    && b.pages == (if e.Stats? then a.pages + [e.written] else a.pages)
    && b.acked == (a.acked || (e.Ack? && !e.how.AckLost?))
  }

  /** What an event does to the image store of the source. */
  function SourceAfter(cfg: Config, src: Images.State, e: Event): Images.State {
    match e
    case Options(ok) => Images.Options(src, cfg.keepImages, ok)
    case MakeDir(ok) => Images.NewDir(src, ok)
    case CloseImages => Images.Closed(src)
    case _ => src
  }

  lemma Summary(s: Run, d: Data, e: Event)
    requires Can(s, e)
    ensures if ByDriver(e) then Moved(s, NextRun(s, e), e) else e.Exit? || SameDriver(s, NextRun(s, e))
    ensures NextRun(s, e).up == StaysUp(s.up, e)
    ensures NextRun(s, e).exited == (s.exited || e.Exit?) && NextRun(s, e).cfg == s.cfg
    ensures e.Exit? ==> SameDriver(s.(exited := true), NextRun(s, e))
    ensures NextData(s, d, e).src == SourceAfter(s.cfg, d.src, e)
  {
  }

  /** Calls and local statements start no dump, track nothing and read no statistics. */
  predicate Plain(e: Event) {
    e.Rpc? || e.Local? || e.Options? || e.MakeDir? || e.CpuDump? || e.PreDump? || e.Stats?
  }

  lemma Phases(s: Run, e: Event)
    requires !NextPc(s, e).Nowhere? && Plain(e)
    ensures KeepsPhase(s.pc, NextPc(s, e))
  {
    if s.pc.Prepare? {
      PhasesPrepare(s, e);
    } else if s.pc.Iterate? {
      PhasesIterate(s, e);
    } else {
      PhasesElsewhere(s, e);
    }
  }

  lemma PhasesPrepare(s: Run, e: Event)
    requires !NextPc(s, e).Nowhere? && Plain(e) && s.pc.Prepare?
    ensures KeepsPhase(s.pc, NextPc(s, e))
  {
  }

  lemma PhasesIterate(s: Run, e: Event)
    requires !NextPc(s, e).Nowhere? && Plain(e) && s.pc.Iterate?
    ensures KeepsPhase(s.pc, NextPc(s, e))
  {
  }

  lemma PhasesElsewhere(s: Run, e: Event)
    requires !NextPc(s, e).Nowhere? && Plain(e) && !s.pc.Prepare? && !s.pc.Iterate?
    ensures KeepsPhase(s.pc, NextPc(s, e))
  {
  }

  /** Where the driver goes depends only on the reply. */
  lemma OnlyReply(s: Run, c: Target.Call, fate: Fate)
    ensures NextPc(s, Rpc(c, fate)) == NextPc(s, Rpc(c, FateOf(Reply(fate))))
  {
    if s.pc.Prepare? {
      OnlyReplyPrepare(s, c, fate);
    } else if s.pc.Iterate? || s.pc.Final? {
      OnlyReplyRound(s, c, fate);
    } else if s.pc.HandOver? {
      OnlyReplyHandOver(s, c, fate);
    } else if s.pc.CleanUp? {
      OnlyReplyCleanUp(s, c, fate);
    }
  }

  lemma OnlyReplyHandOver(s: Run, c: Target.Call, fate: Fate)
    requires s.pc.HandOver?
    ensures NextPc(s, Rpc(c, fate)) == NextPc(s, Rpc(c, FateOf(Reply(fate))))
  {
  }

  lemma OnlyReplyCleanUp(s: Run, c: Target.Call, fate: Fate)
    requires s.pc.CleanUp?
    ensures NextPc(s, Rpc(c, fate)) == NextPc(s, Rpc(c, FateOf(Reply(fate))))
  {
  }

  lemma OnlyReplyPrepare(s: Run, c: Target.Call, fate: Fate)
    requires s.pc.Prepare?
    ensures NextPc(s, Rpc(c, fate)) == NextPc(s, Rpc(c, FateOf(Reply(fate))))
  {
  }

  lemma OnlyReplyRound(s: Run, c: Target.Call, fate: Fate)
    requires s.pc.Iterate? || s.pc.Final?
    ensures NextPc(s, Rpc(c, fate)) == NextPc(s, Rpc(c, FateOf(Reply(fate))))
  {
  }

  /** What a step leaves of the promises about the CRIU session. */
  predicate KeepsPhase(a: Pc, b: Pc) {
    (Idle(b) ==> Idle(a)) && (Holding(b) ==> Holding(a)) && (Tracked(b) ==> Tracked(a))
  }

  lemma CallFacts(s: Run, c: Target.Call, fate: Fate)
    requires !NextPc(s, Rpc(c, Lost)).Nowhere?
    ensures !NextPc(s, Rpc(c, fate)).Nowhere? && KeepsPhase(s.pc, NextPc(s, Rpc(c, fate)))
  {
    if s.pc.Prepare? {
      CallFactsPrepare(s, c, fate);
    } else {
      CallFactsElsewhere(s, c, fate);
    }
  }

  lemma CallFactsPrepare(s: Run, c: Target.Call, fate: Fate)
    requires s.pc.Prepare? && !NextPc(s, Rpc(c, Lost)).Nowhere?
    ensures !NextPc(s, Rpc(c, fate)).Nowhere? && KeepsPhase(s.pc, NextPc(s, Rpc(c, fate)))
  {
  }

  lemma CallFactsElsewhere(s: Run, c: Target.Call, fate: Fate)
    requires !s.pc.Prepare? && !NextPc(s, Rpc(c, Lost)).Nowhere?
    ensures !NextPc(s, Rpc(c, fate)).Nowhere? && KeepsPhase(s.pc, NextPc(s, Rpc(c, fate)))
  {
  }

  lemma MovedOn(a: Run, b: Run, c: Run, e: Event)
    requires SameDriver(b, a) && Moved(b, c, e)
    ensures Moved(a, c, e)
  {
    SameNext(a, b, e);
  }

  function MkDirPc(pc: Pc, ok: bool): Pc {
    if !ok then Stopped(false) else if pc.Iterate? then Iterate(AtPreDump) else Final(AtDump)
  }

  function AfterProbe(s: Run, probe: Probe): Pc {
    match probe
    case Dumped => Prepare(AtCpuAccept)
    case NotSupported => VersionPc(s, true)
    case CannotDump => Stopped(false)
  }

  /** One more statement has been executed, which asked CRIU nothing. */
  predicate Silent(a: Told, b: Told) {
    b.step == a.step + 1 && b.dirs == a.dirs && b.track == a.track && b.sent == a.sent
  }

  /** One that asked for a directory. */
  predicate Listed(a: Told, b: Told) {
    b.step == a.step + 1 && b.dirs == a.dirs + 1 && b.track == a.track && b.sent == a.sent
  }

  /** One that asked CRIU something. */
  predicate Requested(a: Told, b: Told, req: Req, inbox: seq<Resp>) {
    && b.step == a.step + 1 && b.dirs == a.dirs && b.track == a.track
    && b.sent == a.sent + [Exchanged(req, First(inbox))]
  }

  /** The choice about tracking was made. */
  predicate TrackSet(a: Run, b: Run, use: bool) {
    b.pc == Prepare(AtFsStart) && b.usePre == use && b.cfg == a.cfg && b.exited == a.exited && b.force == a.force
    && b.acked == a.acked
  }

  /** The connection to CRIU is in the state the driver's statement needs. */
  ghost predicate Connected(run: Run, wire: seq<Msg>, track: bool, lastReq: Option<Type>) {
    && (Tracked(run.pc) ==> track == run.usePre)
    && Session(wire).Some? && (Idle(run.pc) ==> Session(wire) == Some(None))
    && (Holding(run.pc) ==> Session(wire) == Some(Some("post-dump")) && lastReq == Some(DUMP))
    && (Killed(wire) <==> run.acked)
  }

  /** The connection has carried what the log tells, and as many directories were asked for. */
  ghost predicate Heard(told: Told, wire: seq<Msg>, iter: nat, track: bool, dirs: nat) {
    told.sent == Exchanges(wire) && |told.sent| == iter && told.track == track && told.dirs == dirs
  }

  /** Nothing has happened that matters to the connection. */
  predicate Undisturbed(a: Run, b: Run) {
    KeepsPhase(a.pc, b.pc) && a.acked == b.acked && a.usePre == b.usePre
  }

  /** Nothing more than a request without notifications. */
  predicate Probed(a: Run, b: Run) {
    !Holding(b.pc) && a.acked == b.acked && (Tracked(b.pc) ==> Tracked(a.pc) && a.usePre == b.usePre)
  }

  /** A dump was asked for; `dumped` if it was made, and waits for the ack of `post-dump`. */
  ghost predicate Froze(before: seq<Msg>, req: Req, inbox: seq<Resp>, after: seq<Msg>, dumped: bool,
                        lastReq: Option<Type>)
  {
    && Begins(before, req, inbox, after) && Session(after).Some? && Killed(after) == Killed(before)
    && (dumped ==> Session(after) == Some(Some("post-dump")) && lastReq == Some(DUMP))
  }

  /** The event is in the log and had its effect if it could happen elsewhere and was possible. */
  predicate Adds(a: Run, before: seq<Event>, e: Event, b: Run, after: seq<Event>) {
    if Elsewhere(e) && Can(a, e) then b == NextRun(a, e) && after == before + [e] else b == a && after == before
  }

  /** The quantifier keeps this folded: only a proof that mentions `Unfolded` looks inside. */
  ghost predicate Leads(cfg: Config, mem: map<nat, int>, remote: bool, script: nat -> Choice, log: seq<Event>,
                        run: Run, data: Data, told: Told)
  {
    forall n {:trigger Unfolded(n)} :: Unfolded(n) ==>
      && Exec(Init(cfg, mem), log) == Some(Sys(run, data)) && LoopInv(run)
      && Plays(cfg, mem, remote, script, log) && told == Talk(cfg, script, log)
  }

  lemma LeadsMore(cfg: Config, mem: map<nat, int>, remote: bool, script: nat -> Choice, log: seq<Event>,
                  run: Run, data: Data, told: Told, e: Event)
    requires Leads(cfg, mem, remote, script, log, run, data, told) && Can(run, e)
    requires ByDriver(e) ==> Fits(remote, script(told.step), run, data.src, e)
    ensures Leads(cfg, mem, remote, script, log + [e], NextRun(run, e), NextData(run, data, e),
                  if ByDriver(e) then Tell(cfg, told, script(told.step), e) else told)
  {
    assert Unfolded(0);
    LoopStep(run, e);
    PlaysMore(cfg, mem, remote, script, log, e);
    assert (log + [e])[..|log|] == log;
  }

  lemma LoopHere(cfg: Config, mem: map<nat, int>, remote: bool, script: nat -> Choice, log: seq<Event>,
                 run: Run, data: Data, told: Told)
    requires Leads(cfg, mem, remote, script, log, run, data, told)
    ensures LoopInv(run)
  {
    assert Unfolded(0);
  }

  lemma DivisorHere(run: Run)
    requires LoopInv(run) && run.pc == Iterate(AtStats)
    ensures PrevPages(run).Some? ==> PrevPages(run).value > Progress.MIN_ITER_PAGES_COUNT
  {
    if run.pages != [] {
      Progress.DivisorPositive(Progress.MAX_ITERS_COUNT, Progress.MIN_ITER_PAGES_COUNT, run.pages, |run.pages|);
    }
  }

  class PhaulIterWorker {
    const cfg: Config
    const remote: bool          // the completion hook of the hauler is a call
    const script: nat -> Choice // the circumstances of each statement
    var step: nat               // statements executed
    var force: bool
    const img: Images.PhaulImages
    const criu: CriuConn
    var up: bool                // the rpc connection
    ghost const mem: map<nat, int>
    ghost var log: seq<Event>   // everything that happened so far, here and elsewhere
    ghost var run: Run
    ghost var data: Data
    ghost var told: Told

    /** The log is a possible history, as the script has it, and leads to the present state. */
    ghost predicate History()
      reads this`log, this`run, this`data, this`told
    {
      Leads(cfg, mem, remote, script, log, run, data, told)
    }

    /** The objects of the driver agree with that state, after `n` statements. */
    ghost predicate LinkedAt(n: nat)
      reads this`run, this`force, this`up, this`data, this`told, img
      reads criu`wire, criu`iter, criu`trackMem, criu`lastReq
    {
      && run.cfg == cfg && run.force == force && run.up == up
      && data.src == img.View() && told.step == n
      && Connected(run, criu.wire, criu.trackMem, criu.lastReq)
      && Heard(told, criu.wire, criu.iter, criu.trackMem, img.currentIter)
    }

    ghost predicate Valid()
      reads this, img, criu
    {
      History() && LinkedAt(step)
    }

    constructor (cfg: Config, remote: bool, script: nat -> Choice, ghost mem: map<nat, int>)
      ensures Valid() && run == Start(cfg)
      ensures this.cfg == cfg && this.remote == remote && this.script == script && this.mem == mem
      ensures fresh(img) && fresh(criu)
    {
      this.cfg, this.remote, this.script, this.mem := cfg, remote, script, mem;
      step, force, up := 0, cfg.force, true;
      img := new Images.PhaulImages();
      criu := new CriuConn([]);
      log, run, data, told := [], Start(cfg), Init(cfg, mem).data, SILENT;
    }

    /** Record an event. */
    ghost method Emit(e: Event)
      requires History() && Can(run, e)
      requires ByDriver(e) ==> Fits(remote, script(told.step), run, data.src, e)
      modifies this`log, this`run, this`data, this`told
      ensures History() && run.up == StaysUp(old(run.up), e) && run.cfg == old(run.cfg)
      ensures if ByDriver(e) then Moved(old(run), run, e) else e.Exit? || SameDriver(old(run), run)
      ensures e.Exit? ==> SameDriver(old(run).(exited := true), run)
      ensures run == old(NextRun(run, e)) && log == old(log) + [e]
      ensures data.src == SourceAfter(run.cfg, old(data.src), e)
      ensures told == if ByDriver(e) then Tell(cfg, old(told), script(old(told.step)), e) else old(told)
    {
      LeadsMore(cfg, mem, remote, script, log, run, data, told, e);
      Summary(run, data, e);
      told := if ByDriver(e) then Tell(cfg, told, script(told.step), e) else told;
      run, data, log := NextRun(run, e), NextData(run, data, e), log + [e];
    }

    /** On to the next statement. */
    method Advance()
      requires History() && LinkedAt(step + 1)
      modifies this`step
      ensures Valid() && step == old(step) + 1
    {
      step := step + 1;
    }

    /** An event outside the driver, if it is possible now. */
    method Other(e: Event)
      requires Valid()
      modifies this`up, this`log, this`run, this`data, this`told
      ensures Valid() && SameDriver(run, old(run)) && up == (old(up) && !e.Break?) && told == old(told)
      ensures Adds(old(run), old(log), e, run, log)
    {
      if e.Break? {
        up := false;
      }
      if e.Break? || e.Disconnect? || e.Compute? {
        NoteOther(e);
      }
    }

    ghost method NoteOther(e: Event)
      requires History() && (e.Break? || e.Disconnect? || e.Compute?)
      modifies this`log, this`run, this`data, this`told
      ensures History() && SameDriver(old(run), run) && data.src == old(data.src) && told == old(told)
      ensures run.up == (old(run.up) && !e.Break?) && Undisturbed(old(run), run)
      ensures Adds(old(run), old(log), e, run, log)
    {
      if Can(run, e) {
        Emit(e);
      }
    }

    /** Between two statements anything may happen elsewhere: the tree computes, the connection
        breaks, the target handles it. */
    method Interfere(around: seq<Event>)
      requires Valid()
      modifies this`up, this`log, this`run, this`data, this`told
      ensures Valid() && SameDriver(run, old(run)) && told == old(told)
      ensures up == (old(up) && Break !in around)
      ensures run == Later(old(run), around) && log == old(log) + Happened(old(run), around)
    {
      for i := 0 to |around|
        invariant Valid() && SameDriver(run, old(run)) && told == old(told)
        invariant up == (old(up) && Break !in around[..i])
        invariant run == Later(old(run), around[..i]) && log == old(log) + Happened(old(run), around[..i])
      {
        OneMoreAround(old(run), around, i);
        ghost var log0 := log;
        Other(around[i]);
        assert around[..i + 1] == around[..i] + [around[i]];
        assert log0 + [around[i]] == old(log) + (Happened(old(run), around[..i]) + [around[i]]);
      }
      assert around[..|around|] == around;
    }

    // ---- single statements --------------------------------------------------------------------

    ghost method NoteCall(before: Run, c: Target.Call, fate: Fate)
      requires History() && !run.exited && SameDriver(run, before)
      requires !NextPc(before, Rpc(c, Lost)).Nowhere? && (c.MigrationComplete? ==> remote)
      requires fate == if run.up then script(told.step).fate else Lost
      modifies this`log, this`run, this`data, this`told
      ensures History() && Moved(before, run, Rpc(c, FateOf(Reply(fate)))) && KeepsPhase(before.pc, run.pc)
      ensures run.up == (old(run.up) && fate.Served? && fate.delivered) && data.src == old(data.src)
      ensures Silent(old(told), told) && Undisturbed(old(run), run)
    {
      SameNext(before, run, Rpc(c, Lost));
      CallFacts(run, c, fate);
      OnlyReply(run, c, fate);
      ghost var was := run;
      Emit(Rpc(c, fate));
      MovedOn(before, was, run, Rpc(c, FateOf(Reply(fate))));
    }

    /** A call on the target host: the reply, or an exception. It fails if the connection is broken. */
    method CallTarget(c: Target.Call) returns (r: Result<bool>)
      requires Valid() && !run.exited && !NextPc(run, Rpc(c, Lost)).Nowhere? && (c.MigrationComplete? ==> remote)
      modifies this`up, this`log, this`run, this`data, this`told, this`step
      ensures Valid() && Moved(old(run), run, Rpc(c, FateOf(r))) && step == old(step) + 1
      ensures r == if old(up) && Break !in script(old(step)).around then Reply(script(old(step)).fate) else Failure
    {
      Interfere(script(step).around);
      r := CallNow(old(run), c);
    }

    /** The driver was at `before`, and events elsewhere have happened since. */
    method CallNow(ghost before: Run, c: Target.Call) returns (r: Result<bool>)
      requires Valid() && !run.exited && SameDriver(run, before) && !NextPc(before, Rpc(c, Lost)).Nowhere?
      requires c.MigrationComplete? ==> remote
      modifies this`up, this`log, this`run, this`data, this`told, this`step
      ensures Valid() && Moved(before, run, Rpc(c, FateOf(r))) && step == old(step) + 1
      ensures r == if old(up) then Reply(script(old(step)).fate) else Failure
    {
      var fate := if up then script(step).fate else Lost;
      NoteCall(before, c, fate);
      up := up && fate.Served? && fate.delivered;
      Advance();
      return Reply(fate);
    }

    /** A local statement that may raise. */
    method Attempt(what: Statement) returns (ok: bool)
      requires Valid() && !run.exited && (what == HaulerComplete ==> !remote)
      requires !NextPc(run, Local(what, false)).Nowhere? && !NextPc(run, Local(what, true)).Nowhere?
      modifies this`up, this`log, this`run, this`data, this`told, this`step
      ensures Valid() && Moved(old(run), run, Local(what, ok)) && ok == script(old(step)).ok && step == old(step) + 1
    {
      Interfere(script(step).around);
      ok := script(step).ok;
      NoteAfter(old(run), Local(what, ok));
      Advance();
    }

    /** The driver was at `before`, and events elsewhere have happened since. */
    ghost method NoteAfter(before: Run, e: Event)
      requires History() && !run.exited && SameDriver(run, before) && !NextPc(before, e).Nowhere?
      requires e.Local? && Fits(remote, script(told.step), run, data.src, e)
      modifies this`log, this`run, this`data, this`told
      ensures History() && Moved(before, run, e) && KeepsPhase(before.pc, run.pc)
      ensures run.up == old(run.up) && data.src == old(data.src)
      ensures told == Tell(cfg, old(told), script(old(told.step)), e) && Undisturbed(old(run), run)
    {
      SameNext(before, run, e);
      ghost var was := run;
      Note(e);
      MovedOn(before, was, run, e);
    }

    /** A request that asks for no notifications, and the answer. */
    method AskCriu(typ: Type, inbox: seq<Resp>) returns (r: Result<Resp>)
      requires Session(criu.wire) == Some(None) && AnswersQuietly(inbox)
      modifies criu`inbox, criu`wire, criu`iter, criu`lastReq
      ensures Session(criu.wire) == Some(None) && Killed(criu.wire) == old(Killed(criu.wire))
      ensures r == if Answers(inbox, typ) then Success(inbox[0]) else Failure
      ensures criu.wire == Asked(old(criu.wire), ProbeReq(typ, criu.trackMem, old(criu.iter)), inbox)
      ensures criu.iter == old(criu.iter) + 1
    {
      criu.inbox := inbox;
      r := Ask(criu, MakeProbeReq(typ));
    }

    ghost method Note(e: Event)
      requires History() && !run.exited && !NextPc(run, e).Nowhere?
      requires Plain(e) && !e.Rpc? && Fits(remote, script(told.step), run, data.src, e)
      modifies this`log, this`run, this`data, this`told
      ensures History() && Moved(old(run), run, e) && KeepsPhase(old(run).pc, run.pc)
      ensures run.up == old(run.up) && data.src == SourceAfter(run.cfg, old(data.src), e)
      ensures told == Tell(cfg, old(told), script(old(told.step)), e) && Undisturbed(old(run), run)
    {
      Phases(run, e);
      Emit(e);
    }

    // ---- set_options and the checks -----------------------------------------------------------

    /** The local half of `set_options`: the hauler and its fs driver, and the image store. */
    method SetLocalOptions() returns (ok: bool)
      requires Valid() && !run.exited && run.pc == Prepare(AtOptions)
      modifies this`log, this`run, this`data, this`told, this`step, img
      ensures Valid() && !run.exited && run.force == old(run.force)
      ensures run.pc == if ok then Prepare(AtRemoteOptions) else Stopped(false)
    {
      if script(step).ok {
        ok := SetImageOptions();
      } else {
        Note(Local(HaulerOptions, false));
        Advance();
        return false;
      }
    }

    method SetImageOptions() returns (ok: bool)
      requires Valid() && !run.exited && run.pc == Prepare(AtOptions) && script(step).ok
      modifies this`log, this`run, this`data, this`told, this`step, img
      ensures Valid() && !run.exited && run.force == old(run.force) && ok == script(old(step)).made
      ensures run.pc == if ok then Prepare(AtRemoteOptions) else Stopped(false)
    {
      var r := img.SetOptions(cfg.keepImages, script(step).made);
      Note(Options(r.Success?));
      Advance();
      return r.Success?;
    }

    method SetRemoteOptions() returns (ok: bool)
      requires Valid() && !run.exited && run.pc == Prepare(AtRemoteOptions)
      modifies this`up, this`log, this`run, this`data, this`told, this`step
      ensures Valid() && !run.exited
      ensures run.pc == if ok then CpuPc(run) else Stopped(false)
    {
      var answer := CallTarget(Target.SetOptions(cfg.keepImages));
      return answer.Success?;
    }

    method SetOptions() returns (ok: bool)
      requires Valid() && !run.exited && run.pc == Prepare(AtOptions)
      modifies this`up, this`log, this`run, this`data, this`told, this`step, img
      ensures Valid() && !run.exited
      ensures run.pc == if ok then CpuPc(run) else Stopped(false)
    {
      ok := SetLocalOptions();
      if ok { ok := SetRemoteOptions(); }
    }

    /** `__validate_cpu`. */
    method ValidateCpu() returns (ok: bool)
      requires Valid() && !run.exited && run.pc == CpuPc(run)
      modifies this, criu`inbox, criu`wire, criu`iter, criu`lastReq
      ensures Valid() && !run.exited
      ensures run.pc == if ok then VersionPc(run, run.force) else Stopped(false)
    {
      if cfg.skipCpuCheck || force {
        return true;
      }
      var probe := DumpCpuinfo();
      if probe.NotSupported? {
        return true;
      }
      if probe.CannotDump? {
        return false;
      }
      ok := SendCpuinfo();
      if ok { ok := CheckCpuinfo(); }
    }

    method CheckCpuinfo() returns (ok: bool)
      requires Valid() && !run.exited && run.pc == Prepare(AtCpuCheck)
      modifies this`up, this`log, this`run, this`data, this`told, this`step
      ensures Valid() && !run.exited
      ensures run.pc == if ok then VersionPc(run, run.force) else Stopped(false)
    {
      var verdict := CallTarget(Target.CheckCpuinfo);
      return verdict == Success(true);
    }

    method AskVerdict(inbox: seq<Resp>) returns (probe: Probe)
      requires Session(criu.wire) == Some(None) && AnswersQuietly(inbox)
      modifies criu`inbox, criu`wire, criu`iter, criu`lastReq
      ensures Session(criu.wire) == Some(None) && Killed(criu.wire) == old(Killed(criu.wire))
      ensures probe == ProbeOf(First(inbox)) && criu.iter == old(criu.iter) + 1
      ensures criu.wire == Asked(old(criu.wire), ProbeReq(CPUINFO_DUMP, criu.trackMem, old(criu.iter)), inbox)
    {
      var resp := AskCriu(CPUINFO_DUMP, inbox);
      probe := if resp.Success? && resp.value.notSupported then NotSupported
               else if resp.Failure? || !resp.value.success then CannotDump else Dumped;
    }

    /** If CRIU cannot dump cpuinfo on this kernel, all further checks are waived. */
    method DumpCpuinfo() returns (probe: Probe)
      requires Valid() && !run.exited && run.pc == Prepare(AtCpu)
      modifies this`log, this`run, this`data, this`told, this`step, this`force
      modifies criu`inbox, criu`wire, criu`iter, criu`lastReq
      ensures Valid() && !run.exited && step == old(step) + 1
      ensures var inbox := Quietly(script(old(step)).inbox);
        && criu.wire == Asked(old(criu.wire), ProbeReq(CPUINFO_DUMP, criu.trackMem, old(criu.iter)), inbox)
        && (probe.NotSupported? <==> inbox != [] && inbox[0].typ == CPUINFO_DUMP && inbox[0].notSupported)
        && (probe.Dumped? <==>
              inbox != [] && inbox[0].typ == CPUINFO_DUMP && !inbox[0].notSupported && inbox[0].success)
      ensures run.force == (old(run.force) || probe.NotSupported?)
      ensures run.pc == AfterProbe(run, probe)
    {
      probe := ProbeAndNote(Quietly(script(step).inbox));
      Advance();
    }

    method ProbeAndNote(inbox: seq<Resp>) returns (probe: Probe)
      requires Valid() && !run.exited && run.pc == Prepare(AtCpu) && inbox == Quietly(script(step).inbox)
      modifies this`log, this`run, this`data, this`told, this`force
      modifies criu`inbox, criu`wire, criu`iter, criu`lastReq
      ensures History() && LinkedAt(step + 1) && !run.exited
      ensures probe == ProbeOf(First(inbox))
      ensures criu.wire == Asked(old(criu.wire), ProbeReq(CPUINFO_DUMP, criu.trackMem, old(criu.iter)), inbox)
      ensures run.force == (old(run.force) || probe.NotSupported?)
      ensures run.pc == AfterProbe(run, probe)
    {
      ghost var req := ProbeReq(CPUINFO_DUMP, criu.trackMem, criu.iter);
      probe := AskVerdict(inbox);
      NoteProbe(probe, inbox);
      AskedOnce(old(criu.wire), req, inbox);
      force := force || probe.NotSupported?;
    }

    ghost method NoteProbe(probe: Probe, inbox: seq<Resp>)
      requires History() && !run.exited && run.pc == Prepare(AtCpu)
      requires inbox == Quietly(script(told.step).inbox) && probe == ProbeOf(First(inbox))
      modifies this`log, this`run, this`data, this`told
      ensures History() && run.up == old(run.up) && data.src == old(data.src) && !run.exited
      ensures run.cfg == old(run.cfg) && run.acked == old(run.acked)
      ensures run.force == (old(run.force) || probe.NotSupported?)
      ensures run.pc == AfterProbe(run, probe) && Probed(old(run), run)
      ensures Requested(old(told), told, ProbeReq(CPUINFO_DUMP, old(told).track, |old(told).sent|), inbox)
    {
      Emit(CpuDump(probe));
    }

    method AcceptCpuinfo() returns (ok: bool)
      requires Valid() && !run.exited && run.pc == Prepare(AtCpuAccept)
      modifies this`up, this`log, this`run, this`data, this`told, this`step
      ensures Valid() && !run.exited && run.force == old(run.force)
      ensures run.pc == if ok then Prepare(AtCpuSend) else Stopped(false)
    {
      var answer := CallTarget(Target.StartAcceptImages(Target.WDIR));
      return answer.Success?;
    }

    method PackCpuinfo() returns (ok: bool)
      requires Valid() && !run.exited && run.pc == Prepare(AtCpuSend)
      modifies this`up, this`log, this`run, this`data, this`told, this`step
      ensures Valid() && !run.exited && run.force == old(run.force)
      ensures run.pc == if ok then Prepare(AtCpuStop) else Stopped(false)
    {
      ok := Attempt(Live.PackCpuinfo);
    }

    method StopCpuinfo() returns (ok: bool)
      requires Valid() && !run.exited && run.pc == Prepare(AtCpuStop)
      modifies this`up, this`log, this`run, this`data, this`told, this`step
      ensures Valid() && !run.exited && run.force == old(run.force)
      ensures run.pc == if ok then Prepare(AtCpuCheck) else Stopped(false)
    {
      var answer := CallTarget(Target.StopAcceptImages);
      return answer.Success?;
    }

    /** `send_cpuinfo`. */
    method SendCpuinfo() returns (ok: bool)
      requires Valid() && !run.exited && run.pc == Prepare(AtCpuAccept)
      modifies this`up, this`log, this`run, this`data, this`told, this`step
      ensures Valid() && !run.exited && run.force == old(run.force)
      ensures run.pc == if ok then Prepare(AtCpuCheck) else Stopped(false)
    {
      ok := AcceptCpuinfo();
      if ok { ok := PackCpuinfo(); }
      if ok { ok := StopCpuinfo(); }
    }

    method FindVersion() returns (ok: bool)
      requires Valid() && !run.exited && run.pc == Prepare(AtVersion)
      modifies this`up, this`log, this`run, this`data, this`told, this`step
      ensures Valid() && !run.exited
      ensures run.pc == if ok then Prepare(AtVersionCheck) else Stopped(false)
    {
      ok := Attempt(Live.FindVersion);
    }

    method CompareVersions() returns (ok: bool)
      requires Valid() && !run.exited && run.pc == Prepare(AtVersionCheck)
      modifies this`up, this`log, this`run, this`data, this`told, this`step
      ensures Valid() && !run.exited
      ensures run.pc == if ok then Prepare(AtTrack) else Stopped(false)
    {
      var verdict := CallTarget(Target.CheckCriuVersion);
      return verdict == Success(true);
    }

    /** `__validate_criu_version`. */
    method ValidateCriuVersion() returns (ok: bool)
      requires Valid() && !run.exited && run.pc == VersionPc(run, run.force)
      modifies this`up, this`log, this`run, this`data, this`told, this`step
      ensures Valid() && !run.exited
      ensures run.pc == if ok then Prepare(AtTrack) else Stopped(false)
    {
      if cfg.skipCriuCheck || force {
        return true;
      }
      ok := FindVersion();
      if ok { ok := CompareVersions(); }
    }

    /** Whether CRIU reports memory tracking on this host, and the hauler can pre-dump. */
    method DetectTracking(inbox: seq<Resp>, canPreDump: bool) returns (use: bool)
      requires Session(criu.wire) == Some(None) && AnswersQuietly(inbox)
      modifies criu`inbox, criu`wire, criu`iter, criu`lastReq
      ensures Session(criu.wire) == Some(None) && Killed(criu.wire) == old(Killed(criu.wire))
      ensures use == (ShowsTracking(First(inbox)) && canPreDump) && criu.iter == old(criu.iter) + 1
      ensures criu.wire == Asked(old(criu.wire), ProbeReq(FEATURE_CHECK, criu.trackMem, old(criu.iter)), inbox)
    {
      var resp := AskCriu(FEATURE_CHECK, inbox);
      use := resp.Success? && resp.value.success && resp.value.memTrack && canPreDump;
    }

    /** With pre-dumps on auto: CRIU is asked, */
    method Detect() returns (use: bool)
      requires Valid() && !run.exited && run.pc == Prepare(AtTrack) && cfg.preDump.None?
      modifies this`log, this`run, this`data, this`told, this`step, criu
      ensures Valid() && !run.exited && run.pc == Prepare(AtFsStart) && run.usePre == use == criu.trackMem
      ensures var inbox := Quietly(script(old(step)).inbox);
        && criu.wire == Asked(old(criu.wire), ProbeReq(FEATURE_CHECK, old(criu.trackMem), old(criu.iter)), inbox)
        && use == (ShowsTracking(First(inbox)) && script(old(step)).ok)
    {
      use := DetectAndNote(Quietly(script(step).inbox), script(step).ok);
      Advance();
    }

    method DetectAndNote(inbox: seq<Resp>, canPreDump: bool) returns (use: bool)
      requires Valid() && !run.exited && run.pc == Prepare(AtTrack) && cfg.preDump.None?
      requires inbox == Quietly(script(step).inbox) && canPreDump == script(step).ok
      modifies this`log, this`run, this`data, this`told, criu
      ensures History() && LinkedAt(step + 1) && !run.exited
      ensures run.pc == Prepare(AtFsStart) && run.usePre == use == criu.trackMem
      ensures criu.wire == Asked(old(criu.wire), ProbeReq(FEATURE_CHECK, old(criu.trackMem), old(criu.iter)), inbox)
      ensures use == (ShowsTracking(First(inbox)) && canPreDump)
    {
      ghost var req := ProbeReq(FEATURE_CHECK, criu.trackMem, criu.iter);
      use := DetectTracking(inbox, canPreDump);
      criu.MemoryTracking(use);
      NoteDetected(use, inbox);
      AskedOnce(old(criu.wire), req, inbox);
    }

    /** and with an explicit choice it is not. */
    method Choose() returns (use: bool)
      requires Valid() && !run.exited && run.pc == Prepare(AtTrack) && cfg.preDump.Some?
      modifies this`log, this`run, this`data, this`told, this`step, criu`trackMem
      ensures Valid() && !run.exited && run.pc == Prepare(AtFsStart) && run.usePre == use == criu.trackMem
      ensures use == cfg.preDump.value && criu.wire == old(criu.wire)
    {
      use := cfg.preDump.value;
      criu.MemoryTracking(use);
      NoteChosen(use);
      Advance();
    }

    /** `__check_use_pre_dumps`: any failure of the detection disables pre-dumps. */
    method CheckUsePreDumps() returns (use: bool)
      requires Valid() && !run.exited && run.pc == Prepare(AtTrack)
      modifies this`log, this`run, this`data, this`told, this`step, criu
      ensures Valid() && !run.exited && run.pc == Prepare(AtFsStart) && run.usePre == use == criu.trackMem
      ensures var c := script(old(step));
        && (cfg.preDump.Some? ==> use == cfg.preDump.value && criu.wire == old(criu.wire))
        && (cfg.preDump.None? ==>
              var inbox := Quietly(c.inbox);
              && criu.wire == Asked(old(criu.wire), ProbeReq(FEATURE_CHECK, old(criu.trackMem), old(criu.iter)), inbox)
              && (use <==>
                    inbox != [] && inbox[0].typ == FEATURE_CHECK && inbox[0].success && inbox[0].memTrack && c.ok))
    {
      if cfg.preDump.None? {
        use := Detect();
      } else {
        use := Choose();
      }
    }

    ghost method NoteChosen(use: bool)
      requires History() && !run.exited && run.pc == Prepare(AtTrack) && run.cfg == cfg && cfg.preDump == Some(use)
      modifies this`log, this`run, this`data, this`told
      ensures History() && TrackSet(old(run), run, use) && run.up == old(run.up) && data.src == old(data.src)
      ensures told.step == old(told).step + 1 && told.dirs == old(told).dirs && told.sent == old(told).sent
      ensures told.track == use
    {
      Emit(Track(use));
    }

    ghost method NoteDetected(use: bool, inbox: seq<Resp>)
      requires History() && !run.exited && run.pc == Prepare(AtTrack) && run.cfg == cfg && cfg.preDump.None?
      requires var c := script(told.step);
        inbox == Quietly(c.inbox) && use == (ShowsTracking(First(inbox)) && c.ok)
      modifies this`log, this`run, this`data, this`told
      ensures History() && TrackSet(old(run), run, use) && run.up == old(run.up) && data.src == old(data.src)
      ensures told.step == old(told).step + 1 && told.dirs == old(told).dirs && told.track == use
      ensures told.sent ==
        old(told).sent + [Exchanged(ProbeReq(FEATURE_CHECK, old(told).track, |old(told).sent|), First(inbox))]
    {
      Emit(Track(use));
    }

    // ---- the pre-dump loop ---------------------------------------------------------------------

    ghost method NoteMkDir(ok: bool)
      requires History() && !run.exited && (run.pc == Iterate(AtMkDir) || run.pc == Final(AtFinalMkDir))
      requires ok == (script(told.step).made && Images.CanMake(data.src))
      modifies this`log, this`run, this`data, this`told
      ensures History() && run.up == old(run.up) && data.src == Images.NewDir(old(data.src), ok)
      ensures !run.exited && run.cfg == old(run.cfg) && run.pages == old(run.pages) && run.force == old(run.force)
      ensures run.pc == MkDirPc(old(run.pc), ok) && Undisturbed(old(run), run)
      ensures Listed(old(told), told)
    {
      Note(Live.MakeDir(ok));
    }

    /** `new_image_dir`. */
    method NewImageDir() returns (ok: bool)
      requires Valid() && !run.exited && (run.pc == Iterate(AtMkDir) || run.pc == Final(AtFinalMkDir))
      modifies this`log, this`run, this`data, this`told, this`step, img
      ensures Valid() && !run.exited && run.pages == old(run.pages) && run.force == old(run.force)
      ensures run.pc == MkDirPc(old(run.pc), ok) && step == old(step) + 1
      ensures ok == (script(old(step)).made && old(img.wdir) && old(img.currentIter) + 1 !in old(img.dirs))
    {
      ok := MakeAndNote(script(step).made);
      Advance();
    }

    method MakeAndNote(made: bool) returns (ok: bool)
      requires Valid() && !run.exited && (run.pc == Iterate(AtMkDir) || run.pc == Final(AtFinalMkDir))
      requires made == script(step).made
      modifies this`log, this`run, this`data, this`told, img
      ensures History() && LinkedAt(step + 1)
      ensures !run.exited && run.pages == old(run.pages) && run.force == old(run.force)
      ensures run.pc == MkDirPc(old(run.pc), ok)
      ensures ok == (made && old(Images.CanMake(img.View())))
    {
      var r := img.NewImageDir(made);
      ok := r.Success?;
      NoteMkDir(ok);
    }

    method MakeDir() returns (ok: bool)
      requires Valid() && !run.exited && run.pc == Iterate(AtMkDir)
      modifies this`log, this`run, this`data, this`told, this`step, img
      ensures Valid() && !run.exited && run.pages == old(run.pages) && run.force == old(run.force)
      ensures run.pc == if ok then Iterate(AtPreDump) else Stopped(false)
    {
      ok := NewImageDir();
    }

    method MakeFinalDir() returns (ok: bool)
      requires Valid() && !run.exited && run.pc == Final(AtFinalMkDir)
      modifies this`log, this`run, this`data, this`told, this`step, img
      ensures Valid() && !run.exited
      ensures run.pc == if ok then Final(AtDump) else Stopped(false)
    {
      ok := NewImageDir();
    }

    method StartIter() returns (ok: bool)
      requires Valid() && !run.exited && run.pc == Iterate(AtIter)
      modifies this`up, this`log, this`run, this`data, this`told, this`step
      ensures Valid() && !run.exited && run.pages == old(run.pages) && run.force == old(run.force)
      ensures run.pc == if ok then Iterate(AtMkDir) else Stopped(false)
    {
      var answer := CallTarget(Target.StartIter(true));
      return answer.Success?;
    }

    /** The next image directory on both hosts. */
    method OpenDirs() returns (ok: bool)
      requires Valid() && !run.exited && run.pc == Iterate(AtIter)
      modifies this`up, this`log, this`run, this`data, this`told, this`step, img
      ensures Valid() && !run.exited && run.pages == old(run.pages) && run.force == old(run.force)
      ensures run.pc == if ok then Iterate(AtPreDump) else Stopped(false)
    {
      ok := StartIter();
      if ok { ok := MakeDir(); }
    }

    /** A pre-dump, over a session without a pending notification. */
    method AskPreDump(inbox: seq<Resp>) returns (r: Result<()>)
      requires Session(criu.wire) == Some(None) && AnswersQuietly(inbox)
      modifies criu`inbox, criu`wire, criu`iter, criu`lastReq
      ensures Session(criu.wire) == Some(None) && Killed(criu.wire) == old(Killed(criu.wire))
      ensures r.Success? <==> PreDumped(inbox)
      ensures criu.wire == Asked(old(criu.wire), PreDumpReq(img.currentIter, criu.trackMem, old(criu.iter)), inbox)
      ensures criu.iter == old(criu.iter) + 1
    {
      criu.inbox := inbox;
      r := CriuPredump(img, criu);
    }

    /** CRIU is asked for a pre-dump, with the directory before the current one as parent; the round
        goes on exactly if it answers that one was made. */
    method PreDumpPages() returns (ok: bool)
      requires Valid() && !run.exited && run.pc == Iterate(AtPreDump)
      modifies this`up, this`log, this`run, this`data, this`told, this`step
      modifies criu`inbox, criu`wire, criu`iter, criu`lastReq
      ensures Valid() && !run.exited && run.pages == old(run.pages) && run.force == old(run.force)
      ensures run.pc == if ok then Iterate(AtEndIter) else Stopped(false)
      ensures var inbox := Quietly(script(old(step)).inbox);
        && criu.wire == Asked(old(criu.wire), PreDumpReq(img.currentIter, criu.trackMem, old(criu.iter)), inbox)
        && (ok <==> inbox != [] && inbox[0].typ == PRE_DUMP && inbox[0].success)
    {
      Interfere(script(step).around);
      ok := PreDumpAndNote(script(step).extra, Quietly(script(step).inbox));
      Advance();
    }

    method PreDumpAndNote(extra: set<nat>, inbox: seq<Resp>) returns (ok: bool)
      requires Valid() && !run.exited && run.pc == Iterate(AtPreDump)
      requires extra == script(step).extra && inbox == Quietly(script(step).inbox)
      modifies this`log, this`run, this`data, this`told, criu`inbox, criu`wire, criu`iter, criu`lastReq
      ensures History() && LinkedAt(step + 1)
      ensures !run.exited && run.pages == old(run.pages) && run.force == old(run.force)
      ensures run.pc == if ok then Iterate(AtEndIter) else Stopped(false)
      ensures criu.wire == Asked(old(criu.wire), PreDumpReq(img.currentIter, criu.trackMem, old(criu.iter)), inbox)
      ensures ok == PreDumped(inbox)
    {
      ghost var req := PreDumpReq(img.currentIter, criu.trackMem, criu.iter);
      var r := AskPreDump(inbox);
      ok := r.Success?;
      NotePreDump(extra, inbox, ok);
      AskedOnce(old(criu.wire), req, inbox);
    }

    ghost method NotePreDump(extra: set<nat>, inbox: seq<Resp>, ok: bool)
      requires History() && !run.exited && run.pc == Iterate(AtPreDump)
      requires extra == script(told.step).extra && inbox == Quietly(script(told.step).inbox) && ok == PreDumped(inbox)
      modifies this`log, this`run, this`data, this`told
      ensures History() && !run.exited && run.pages == old(run.pages) && run.force == old(run.force)
      ensures run.pc == if ok then Iterate(AtEndIter) else Stopped(false)
      ensures run.cfg == old(run.cfg) && run.up == old(run.up) && data.src == old(data.src) && Probed(old(run), run)
      ensures Requested(old(told), told, PreDumpReq(old(told).dirs, old(told).track, |old(told).sent|), inbox)
    {
      Note(PreDump(extra, ok));
    }

    method EndIter() returns (ok: bool)
      requires Valid() && !run.exited && run.pc == Iterate(AtEndIter)
      modifies this`up, this`log, this`run, this`data, this`told, this`step
      ensures Valid() && !run.exited && run.pages == old(run.pages) && run.force == old(run.force)
      ensures run.pc == if ok then Iterate(AtFsNext) else Stopped(false)
    {
      var answer := CallTarget(Target.EndIter);
      return answer.Success?;
    }

    method FsNext() returns (ok: bool)
      requires Valid() && !run.exited && run.pc == Iterate(AtFsNext)
      modifies this`up, this`log, this`run, this`data, this`told, this`step
      ensures Valid() && !run.exited && run.pages == old(run.pages) && run.force == old(run.force)
      ensures run.pc == if ok then Iterate(AtStats) else Stopped(false)
    {
      ok := Attempt(Live.FsNext);
    }

    method EndRound() returns (ok: bool)
      requires Valid() && !run.exited && run.pc == Iterate(AtEndIter)
      modifies this`up, this`log, this`run, this`data, this`told, this`step
      ensures Valid() && !run.exited && run.pages == old(run.pages) && run.force == old(run.force)
      ensures run.pc == if ok then Iterate(AtStats) else Stopped(false)
    {
      ok := EndIter();
      if ok { ok := FsNext(); }
    }

    /** The body of the loop up to the decision. */
    method Round() returns (ok: bool)
      requires Valid() && !run.exited && run.pc == Iterate(AtIter)
      modifies this`up, this`log, this`run, this`data, this`told, this`step
      modifies img, criu`inbox, criu`wire, criu`iter, criu`lastReq
      ensures Valid() && !run.exited && run.pages == old(run.pages) && run.force == old(run.force)
      ensures run.pc == if ok then Iterate(AtStats) else Stopped(false)
    {
      ok := OpenDirs();
      if ok { ok := PreDumpPages(); }
      if ok { ok := EndRound(); }
    }

    /** Read `pages_written` and decide whether to go on. */
    method Decide(iterIndex: nat, prev: Option<nat>) returns (r: Result<bool>, written: nat)
      requires Valid() && !run.exited && run.pc == Iterate(AtStats)
      requires iterIndex == |run.pages| && prev == PrevPages(run)
      modifies this`log, this`run, this`data, this`told, this`step
      ensures Valid() && !run.exited
      ensures r.Failure? ==> run.pc == Stopped(false)
      ensures r.Success? ==> run.pages == old(run.pages) + [written]
      ensures r.Success? ==> run.pc == if r.value then Iterate(AtIter) else Final(AtFinalIter)
      ensures r == Success(true) ==> iterIndex < Progress.MAX_ITERS_COUNT
    {
      var c := script(step);
      if c.ok {
        var more := DecideOn(iterIndex, prev, c.written);
        return Success(more), c.written;
      } else {
        Note(Local(ReadStats, false));
        Advance();
        return Failure, 0;
      }
    }

    method DecideOn(iterIndex: nat, prev: Option<nat>, written: nat) returns (more: bool)
      requires Valid() && !run.exited && run.pc == Iterate(AtStats)
      requires iterIndex == |run.pages| && prev == PrevPages(run)
      requires script(step).ok && script(step).written == written
      modifies this`log, this`run, this`data, this`told, this`step
      ensures Valid() && !run.exited && run.pages == old(run.pages) + [written]
      ensures run.pc == if more then Iterate(AtIter) else Final(AtFinalIter)
      ensures more ==> iterIndex < Progress.MAX_ITERS_COUNT
    {
      LoopHere(cfg, mem, remote, script, log, run, data, told);
      DivisorHere(run);
      more := Progress.CheckLive(iterIndex, written, prev);
      Note(Stats(written));
      Advance();
    }

    /** The pre-dump loop of `__start_live_migration`. */
    method PreDumpLoop() returns (ok: bool)
      requires Valid() && !run.exited && run.pc == Iterate(AtIter) && run.pages == []
      modifies this`up, this`log, this`run, this`data, this`told, this`step
      modifies img, criu`inbox, criu`wire, criu`iter, criu`lastReq
      ensures Valid() && !run.exited
      ensures run.pc == if ok then Final(AtFinalIter) else Stopped(false)
      ensures ok ==> 1 <= |run.pages| <= Progress.MAX_ITERS_COUNT + 1
    {
      var iterIndex: nat := 0;
      var prevDstats: Option<nat> := None;
      while true
        invariant Valid() && !run.exited && run.pc == Iterate(AtIter)
        invariant iterIndex == |run.pages| <= Progress.MAX_ITERS_COUNT && prevDstats == PrevPages(run)
        decreases Progress.MAX_ITERS_COUNT - iterIndex
      {
        ok := Round();
        if !ok {
          return false;
        }
        var more, written := Decide(iterIndex, prevDstats);
        if more.Failure? {
          return false;
        }
        if !more.value {
          return true;
        }
        iterIndex := iterIndex + 1;
        prevDstats := Some(written);
      }
    }

    // ---- final dump, hand-over, clean-up --------------------------------------------------------

    method StartFinalIter() returns (ok: bool)
      requires Valid() && !run.exited && run.pc == Final(AtFinalIter)
      modifies this`up, this`log, this`run, this`data, this`told, this`step
      ensures Valid() && !run.exited
      ensures run.pc == if ok then Final(AtFinalMkDir) else Stopped(false)
    {
      var answer := CallTarget(Target.StartIter(cfg.finalPageServer));
      return answer.Success?;
    }

    method OpenFinalDir() returns (ok: bool)
      requires Valid() && !run.exited && run.pc == Final(AtFinalIter)
      modifies this`up, this`log, this`run, this`data, this`told, this`step, img
      ensures Valid() && !run.exited
      ensures run.pc == if ok then Final(AtDump) else Stopped(false)
    {
      ok := StartFinalIter();
      if ok { ok := MakeFinalDir(); }
    }

    ghost method NoteDump(c: Choice, ok: bool, frozen: bool)
      requires History() && !run.exited && run.pc == Final(AtDump)
      requires c == script(told.step) && c.ok && DumpFits(c, ok, frozen)
      modifies this`log, this`run, this`data, this`told
      ensures History() && run.up == old(run.up) && data.src == old(data.src) && !run.exited
      ensures run.pc == if ok then HandOver(AtFinalEnd) else Stopped(false)
      ensures run.cfg == old(run.cfg) && run.force == old(run.force) && run.acked == old(run.acked)
      ensures Requested(old(told), told, DumpReq(old(told).dirs, old(told).track, |old(told).sent|), c.inbox)
    {
      Emit(Dump(c.extra, ok, frozen));
    }

    ghost method NoteNoDump(c: Choice)
      requires History() && !run.exited && run.pc == Final(AtDump) && c == script(told.step) && !c.ok
      modifies this`log, this`run, this`data, this`told
      ensures History() && run.up == old(run.up) && data.src == old(data.src) && !run.exited
      ensures run.pc == Stopped(false) && Silent(old(told), told) && Undisturbed(old(run), run)
      ensures run.cfg == old(run.cfg) && run.force == old(run.force)
    {
      Emit(Dump(c.extra, false, false));
    }

    /** The dump itself: CRIU freezes the tree, and on success waits for the ack of `post-dump`. */
    method AskDump(c: Choice) returns (dumped: bool)
      requires Session(criu.wire) == Some(None)
      modifies criu`inbox, criu`wire, criu`iter, criu`lastReq
      ensures dumped == Dumps(c) && criu.iter == old(criu.iter) + 1
      ensures Froze(old(criu.wire), DumpReq(img.currentIter, criu.trackMem, old(criu.iter)), c.inbox, criu.wire, dumped,
                    criu.lastReq)
    {
      criu.inbox := c.inbox;
      var r := CriuDump(img, criu, c.hookOk);
      return r.Success?;
    }

    /** `final_dump`: exactly one dump request goes to CRIU, unless what the hauler does first raises;
        it succeeds exactly if CRIU's notifications end in `post-dump`, which then waits for its ack with
        the tree frozen, and what the hauler does afterwards does not raise. */
    method FinalDump() returns (ok: bool)
      requires Valid() && !run.exited && run.pc == Final(AtDump)
      modifies this`up, this`log, this`run, this`data, this`told, this`step
      modifies criu`inbox, criu`wire, criu`iter, criu`lastReq
      ensures Valid() && !run.exited
      ensures run.pc == if ok then HandOver(AtFinalEnd) else Stopped(false)
      ensures ok ==> Session(criu.wire) == Some(Some("post-dump")) && !run.acked
      ensures var c := script(old(step));
        && (ok <==> c.ok && DumpEnds(c.inbox, c.hookOk, 0) && c.after)
        && if !c.ok then criu.wire == old(criu.wire)
           else Begins(old(criu.wire), DumpReq(img.currentIter, criu.trackMem, old(criu.iter)), c.inbox, criu.wire)
    {
      Interfere(script(step).around);
      if script(step).ok {
        ok := DumpNow();
      } else {
        ok := DumpNothing();
      }
      NotAckedYet();
    }

    /** What the hauler does before the dump has raised. */
    method DumpNothing() returns (ok: bool)
      requires Valid() && !run.exited && run.pc == Final(AtDump) && !script(step).ok
      modifies this`log, this`run, this`data, this`told, this`step
      ensures Valid() && !run.exited && !ok && run.pc == Stopped(false)
    {
      NoteNoDump(script(step));
      Advance();
      return false;
    }

    method DumpNow() returns (ok: bool)
      requires Valid() && !run.exited && run.pc == Final(AtDump) && script(step).ok
      modifies this`log, this`run, this`data, this`told, this`step, criu`inbox, criu`wire, criu`iter, criu`lastReq
      ensures Valid() && !run.exited
      ensures run.pc == if ok then HandOver(AtFinalEnd) else Stopped(false)
      ensures var c := script(old(step));
        && ok == (Dumps(c) && c.after)
        && Begins(old(criu.wire), DumpReq(img.currentIter, criu.trackMem, old(criu.iter)), c.inbox, criu.wire)
    {
      var c := script(step);
      ghost var req := DumpReq(img.currentIter, criu.trackMem, criu.iter);
      ok := DumpAndNote(c);
      Advance();
    }

    method DumpAndNote(c: Choice) returns (ok: bool)
      requires Valid() && !run.exited && run.pc == Final(AtDump) && c.ok && c == script(step)
      modifies this`log, this`run, this`data, this`told, criu`inbox, criu`wire, criu`iter, criu`lastReq
      ensures History() && LinkedAt(step + 1) && !run.exited
      ensures run.pc == if ok then HandOver(AtFinalEnd) else Stopped(false)
      ensures ok == (Dumps(c) && c.after)
      ensures Begins(old(criu.wire), DumpReq(img.currentIter, criu.trackMem, old(criu.iter)), c.inbox, criu.wire)
    {
      ghost var req := DumpReq(img.currentIter, criu.trackMem, criu.iter);
      var dumped := AskDump(c);
      ok := dumped && c.after;
      NoteDump(c, ok, dumped || c.frozen);
    }

    method AcceptImages() returns (ok: bool)
      requires Valid() && !run.exited && run.pc == HandOver(AtAccept)
      modifies this`up, this`log, this`run, this`data, this`told, this`step
      ensures Valid() && !run.exited
      ensures run.pc == if ok then HandOver(AtSend) else AtFail
    {
      var answer := CallTarget(Target.StartAcceptImages(Target.IMGDIR));
      return answer.Success?;
    }

    method PackImages() returns (ok: bool)
      requires Valid() && !run.exited && run.pc == HandOver(AtSend)
      modifies this`up, this`log, this`run, this`data, this`told, this`step
      ensures Valid() && !run.exited
      ensures run.pc == if ok then HandOver(AtStopAccept) else AtFail
    {
      ok := Attempt(Live.PackImages);
    }

    method StopImages() returns (ok: bool)
      requires Valid() && !run.exited && run.pc == HandOver(AtStopAccept)
      modifies this`up, this`log, this`run, this`data, this`told, this`step
      ensures Valid() && !run.exited
      ensures run.pc == if ok then HandOver(AtRestore) else AtFail
    {
      var answer := CallTarget(Target.StopAcceptImages);
      return answer.Success?;
    }

    /** `sync_imgs_to_target`. */
    method SyncImages() returns (ok: bool)
      requires Valid() && !run.exited && run.pc == HandOver(AtAccept)
      modifies this`up, this`log, this`run, this`data, this`told, this`step
      ensures Valid() && !run.exited
      ensures run.pc == if ok then HandOver(AtRestore) else AtFail
    {
      ok := AcceptImages();
      if ok { ok := PackImages(); }
      if ok { ok := StopImages(); }
    }

    method StopFs() returns (ok: bool)
      requires Valid() && !run.exited && run.pc == HandOver(AtFsStop)
      modifies this`up, this`log, this`run, this`data, this`told, this`step
      ensures Valid() && !run.exited
      ensures run.pc == if ok then HandOver(AtAccept) else AtFail
    {
      ok := Attempt(Live.FsStop);
    }

    method Restore() returns (ok: bool)
      requires Valid() && !run.exited && run.pc == HandOver(AtRestore)
      modifies this`up, this`log, this`run, this`data, this`told, this`step
      ensures Valid() && !run.exited
      ensures run.pc == if ok then AtAck else AtFail
    {
      var answer := CallTarget(Target.RestoreFromImages);
      return answer.Success?;
    }

    /** From the frozen tree to the restored one. */
    method Transfer() returns (ok: bool)
      requires Valid() && !run.exited && run.pc == HandOver(AtFsStop)
      modifies this`up, this`log, this`run, this`data, this`told, this`step
      ensures Valid() && !run.exited
      ensures run.pc == if ok then AtAck else AtFail
    {
      ok := StopFs();
      if ok { ok := SyncImages(); }
      if ok { ok := Restore(); }
    }

    /** Ack `post-dump` over the CRIU connection: CRIU terminates the frozen tree. */
    method AckCriu(inbox: seq<Resp>) returns (r: Result<Resp>)
      requires Session(criu.wire) == Some(Some("post-dump")) && criu.lastReq == Some(DUMP)
      modifies criu`inbox, criu`wire
      ensures Session(criu.wire).Some? && Killed(criu.wire)
      ensures r.Success? <==> AnswersAck(inbox)
      ensures old(criu.wire) + [SentAck] <= criu.wire && Exchanges(criu.wire) == old(Exchanges(criu.wire))
    {
      criu.inbox := inbox;
      r := criu.AckNotify();
      Exchange(old(criu.wire), SentAck, inbox, criu.wire);
      OneExchange(old(criu.wire), SentAck, inbox, criu.wire);
    }

    ghost method NoteAck(how: AckFate)
      requires History() && !run.exited && run.pc.AtAck? && !run.acked
      requires var c := script(told.step);
        how == if !c.ok then AckLost else if AnswersAck(c.inbox) then Acked else AckedNoReply
      modifies this`log, this`run, this`data, this`told
      ensures History() && run.up == old(run.up) && data.src == old(data.src) && !run.exited
      ensures run.pc == if how.Acked? then CleanUp(AtFinalStats) else Stopped(true)
      ensures run.cfg == old(run.cfg) && run.force == old(run.force) && run.acked == !how.AckLost?
      ensures Silent(old(told), told)
    {
      Emit(Ack(how));
    }

    lemma NotAckedYet()
      requires History() && (run.pc.HandOver? || run.pc.AtAck? || run.pc == Stopped(false))
      ensures !run.acked
    {
      assert Unfolded(0);
      TreeAlways(cfg, mem, log);
    }

    /** A bad answer is only logged; no answer, or an ack that cannot be sent, raises. The tree is
        given up exactly if the ack was sent. */
    method AckDump() returns (ok: bool)
      requires Valid() && !run.exited && run.pc.AtAck?
      modifies this`up, this`log, this`run, this`data, this`told, this`step, criu`inbox, criu`wire
      ensures Valid() && !run.exited
      ensures run.pc == if ok then CleanUp(AtFinalStats) else Stopped(true)
      ensures var c := script(old(step));
        && run.acked == Killed(criu.wire) == c.ok
        && (ok <==> c.ok && c.inbox != [] && (c.inbox[0].typ == NOTIFY || c.inbox[0].typ == DUMP))
        && if c.ok then old(criu.wire) + [SentAck] <= criu.wire else criu.wire == old(criu.wire)
    {
      NotAckedYet();
      var c := script(step);
      if !c.ok {
        NoteAck(AckLost);
          Advance();
        return false;
      }
      var r := AckCriu(c.inbox);
      NoteAck(if r.Success? then Acked else AckedNoReply);
      Advance();
      return r.Success?;
    }

    /** The completion hook of the hauler: a call, or nothing remote. */
    method Complete() returns (ok: bool)
      requires Valid() && !run.exited && run.pc == CleanUp(AtComplete)
      modifies this`up, this`log, this`run, this`data, this`told, this`step
      ensures Valid() && !run.exited
      ensures run.pc == if ok then CleanUp(AtRestoreTime) else Stopped(true)
    {
      if remote {
        var answer := CallTarget(Target.MigrationComplete);
        return answer.Success?;
      }
      ok := Attempt(HaulerComplete);
    }

    method ReadFinalStats() returns (ok: bool)
      requires Valid() && !run.exited && run.pc == CleanUp(AtFinalStats)
      modifies this`up, this`log, this`run, this`data, this`told, this`step
      ensures Valid() && !run.exited
      ensures run.pc == if ok then CleanUp(AtComplete) else Stopped(true)
    {
      ok := Attempt(Live.FinalStats);
    }

    ghost method NoteClose()
      requires History() && !run.exited && run.pc == CleanUp(AtClose)
      modifies this`log, this`run, this`data, this`told
      ensures History() && Moved(old(run), run, CloseImages) && run.up == old(run.up)
      ensures data.src == Images.Closed(old(data.src)) && Silent(old(told), told) && Undisturbed(old(run), run)
    {
      Emit(CloseImages);
    }

    method CloseAll()
      requires Valid() && !run.exited && run.pc == CleanUp(AtClose)
      modifies this`log, this`run, this`data, this`told, this`step, img, criu`open
      ensures Valid() && !run.exited && run.pc == Stopped(true)
    {
      img.Close();
      NoteClose();
      Advance();
      criu.Close();
    }

    /** The total time reported at the end takes a last call. */
    method ReportTimes() returns (ok: bool)
      requires Valid() && !run.exited && run.pc == CleanUp(AtRestoreTime)
      modifies this`up, this`log, this`run, this`data, this`told, this`step
      ensures Valid() && !run.exited
      ensures run.pc == if ok then CleanUp(AtClose) else Stopped(true)
    {
      var answer := CallTarget(Target.RestoreTime);
      return answer.Success?;
    }

    /** The last try block: whatever raises in it is only logged. */
    method CleanUpSource()
      requires Valid() && !run.exited && run.pc.AtAck?
      modifies this`up, this`log, this`run, this`data, this`told, this`step, img, criu`inbox, criu`wire, criu`open
      ensures Valid() && !run.exited && run.pc == Stopped(true)
    {
      var ok := AckDump();
      if ok { FinishUp(); }
    }

    method FinishUp()
      requires Valid() && !run.exited && run.pc == CleanUp(AtFinalStats)
      modifies this`up, this`log, this`run, this`data, this`told, this`step, img, criu`open
      ensures Valid() && !run.exited && run.pc == Stopped(true)
    {
      var ok := ReadFinalStats();
      if ok { ok := Complete(); }
      if ok { ok := ReportTimes(); }
      if ok { CloseAll(); }
    }

    // ---- the whole run ---------------------------------------------------------------------------

    lemma NoPagesYet()
      requires History() && run.pc.Prepare?
      ensures run.pages == []
    {
      assert Unfolded(0);
    }

    /** The preliminary FS migration. */
    method StartFs() returns (ok: bool)
      requires Valid() && !run.exited && run.pc == Prepare(AtFsStart)
      modifies this`up, this`log, this`run, this`data, this`told, this`step
      ensures Valid() && !run.exited && run.pages == [] && run.usePre == old(run.usePre)
      ensures run.pc == if ok then LoopPc(run) else Stopped(false)
    {
      NoPagesYet();
      ok := Attempt(Live.FsStart);
    }

    /** `__start_live_migration` up to the final dump. */
    method PrepareAndPreDump() returns (ok: bool)
      requires Valid() && !run.exited && run.pc == CpuPc(run)
      modifies this, img, criu
      ensures Valid() && !run.exited
      ensures run.pc == if ok then Final(AtFinalIter) else Stopped(false)
    {
      ok := ValidateCpu();
      if ok { ok := ValidateCriuVersion(); }
      if ok {
        var use := CheckUsePreDumps();
        ok := StartFs();
        if ok && use { ok := PreDumpLoop(); }
      }
    }

    /** The final round: its directory, the dump that freezes the tree, and its end. */
    method FinalRound() returns (ok: bool)
      requires Valid() && !run.exited && run.pc == Final(AtFinalIter)
      modifies this`up, this`log, this`run, this`data, this`told, this`step
      modifies img, criu`inbox, criu`wire, criu`iter, criu`lastReq
      ensures Valid() && !run.exited
      ensures run.pc == if ok then HandOver(AtFsStop) else Stopped(false)
    {
      ok := OpenFinalDir();
      if ok { ok := FinalDump(); }
      if ok { ok := EndFinalIter(); }
    }

    method EndFinalIter() returns (ok: bool)
      requires Valid() && !run.exited && run.pc == HandOver(AtFinalEnd)
      modifies this`up, this`log, this`run, this`data, this`told, this`step
      ensures Valid() && !run.exited
      ensures run.pc == if ok then HandOver(AtFsStop) else Stopped(false)
    {
      var answer := CallTarget(Target.EndIter);
      return answer.Success?;
    }

    /** `migration_fail`: whether or not it raises, so does the driver. */
    method Undo()
      requires Valid() && !run.exited && run.pc.AtFail?
      modifies this`up, this`log, this`run, this`data, this`told, this`step
      ensures Valid() && !run.exited && run.pc == Stopped(false)
    {
      var undone := Attempt(Live.MigrationFail);
    }

    /** `__start_live_migration`; false stands for an exception. */
    method StartLiveMigration() returns (ok: bool)
      requires Valid() && !run.exited && run.pc == CpuPc(run)
      modifies this, img, criu
      ensures Valid() && !run.exited && run.pc == Stopped(ok)
    {
      ok := PrepareAndPreDump();
      if ok { ok := FinalRound(); }
      if !ok {
        return;
      }
      ok := HandOverTree();
    }

    /** From the frozen tree on: what fails is undone, and after the restore nothing fails any more. */
    method HandOverTree() returns (ok: bool)
      requires Valid() && !run.exited && run.pc == HandOver(AtFsStop)
      modifies this`up, this`log, this`run, this`data, this`told, this`step
      modifies img, criu`inbox, criu`wire, criu`open
      ensures Valid() && !run.exited && run.pc == Stopped(ok)
    {
      ok := Transfer();
      if ok {
        CleanUpSource();
      } else {
        Undo();
      }
    }

    lemma Ending()
      requires History() && run.exited && run.pc.Stopped?
      ensures Copies(run) == if Orphaned(log) then 2 else 1
      ensures if run.pc.ok then run.tgt.restored && run.tgt.running else run.tree.Running? && !run.acked
      ensures run.pc.ok <==> LiveEnds.Reported(log)
      ensures !run.pc.ok <==> LiveEnds.Failed(log)
      ensures Plays(cfg, mem, remote, script, log) && AskedFor(told.sent, log)
    {
      assert Unfolded(0);
      RequestsMade(cfg, mem, remote, script, log);
      OneCopyAtTheEnd(cfg, mem, log);
      EndingIsTruthful(cfg, mem, log);
      LiveEnds.ReturnsIffReported(cfg, mem, log);
    }

    /** The last statement of `__init__`. */
    method SetUp() returns (ok: bool)
      requires Valid() && !run.exited && run.pc == Prepare(AtSetup)
      modifies this`up, this`log, this`run, this`data, this`told, this`step
      ensures Valid() && !run.exited
      ensures run.pc == if ok then Prepare(AtOptions) else Stopped(false)
    {
      var answer := CallTarget(Target.Setup(Target.LIVE));
      return answer.Success?;
    }

    /** The source process ends. */
    ghost method Finish()
      requires History() && !run.exited && run.pc.Stopped?
      modifies this`log, this`run, this`data, this`told
      ensures History() && run.exited && run.pc == old(run.pc) && run.acked == old(run.acked)
      ensures Copies(run) == if Orphaned(log) then 2 else 1
      ensures if run.pc.ok then run.tgt.restored && run.tgt.running else run.tree.Running? && !run.acked
      ensures run.pc.ok <==> LiveEnds.Reported(log)
      ensures !run.pc.ok <==> LiveEnds.Failed(log)
      ensures Plays(cfg, mem, remote, script, log) && told == old(told) && AskedFor(told.sent, log)
    {
      Emit(Exit);
      Ending();
    }

    /** A whole run of the source process, to its exit. It returns exactly if the target reported the
        restore, and raises exactly if a statement raised before that. Without an incident that orphans a
        copy, the tree executes once: on the target if this returns, on the source if it raises. */
    method Migrate() returns (ok: bool)
      requires Valid() && !run.exited && run.pc == Prepare(AtSetup)
      modifies this, img, criu
      ensures History() && run.exited && run.pc == Stopped(ok) && Plays(cfg, mem, remote, script, log)
      ensures ok <==> LiveEnds.Reported(log)
      ensures !ok <==> LiveEnds.Failed(log)
      ensures Copies(run) == if Orphaned(log) then 2 else 1
      ensures if ok then run.tgt.restored && run.tgt.running else run.tree.Running? && !run.acked
      ensures Killed(criu.wire) <==> run.acked
      ensures AskedFor(Exchanges(criu.wire), log)
    {
      ok := SetUp();
      if ok { ok := SetOptions(); }
      if ok { ok := StartLiveMigration(); }
      Finish();
    }
  }
}
