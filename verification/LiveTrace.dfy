/** Live mode: the language of the calls that a run makes on the target. */
module LiveTrace {
  import opened Prelude
  import opened Target
  import opened Live
  import LiveLoop
  import opened LiveChecks

  // ---- the language ----------------------------------------------------------------------------

  /** The optional parts of a trace. */
  datatype Parts = Parts(cpu: bool, version: bool, complete: bool)

  function Opening(keep: bool): seq<Target.Call> {
    [Setup(LIVE), SetOptions(keep)]
  }

  function CpuCheck(cpu: bool): seq<Target.Call> {
    if cpu then [StartAcceptImages(WDIR), StopAcceptImages, CheckCpuinfo] else []
  }

  function VersionCheck(version: bool): seq<Target.Call> {
    if version then [CheckCriuVersion] else []
  }

  function Head(cfg: Config, q: Parts): seq<Target.Call> {
    Opening(cfg.keepImages) + CpuCheck(q.cpu) + VersionCheck(q.version)
  }

  function Rounds(n: nat): seq<Target.Call> {
    if n == 0 then [] else Rounds(n - 1) + [StartIter(true), EndIter]
  }

  function Tail(cfg: Config, q: Parts): seq<Target.Call> {
    [StartIter(cfg.finalPageServer), EndIter, StartAcceptImages(IMGDIR), StopAcceptImages, RestoreFromImages]
    + (if q.complete then [MigrationComplete] else []) + [RestoreTime]
  }

  /** The calls of an undisturbed migration with `n` pre-dumps. */
  function Whole(cfg: Config, n: nat, q: Parts): seq<Target.Call> {
    Head(cfg, q) + Rounds(n) + Tail(cfg, q)
  }

  predicate Dead(pc: Pc) {
    pc.Stopped? || pc.AtFail?
  }

  /** The calls made when the driver is at a statement that is not a dead end. */
  function Expected(cfg: Config, pc: Pc, n: nat, q: Parts): seq<Target.Call>
    requires !Dead(pc) && !pc.Nowhere?
  {
    var opening := Opening(cfg.keepImages);
    var done := Head(cfg, q) + Rounds(n);
    var tail := Tail(cfg, q);
    match pc
    case Prepare(AtSetup) => []
    case Prepare(AtOptions) => opening[..1]
    case Prepare(AtRemoteOptions) => opening[..1]
    case Prepare(AtCpu) => opening
    case Prepare(AtCpuAccept) => opening
    case Prepare(AtCpuSend) => opening + CpuCheck(true)[..1]
    case Prepare(AtCpuStop) => opening + CpuCheck(true)[..1]
    case Prepare(AtCpuCheck) => opening + CpuCheck(true)[..2]
    case Prepare(AtVersion) => opening + CpuCheck(q.cpu)
    case Prepare(AtVersionCheck) => opening + CpuCheck(q.cpu)
    case Prepare(_) => Head(cfg, q)
    case Iterate(i) =>
      done + [StartIter(true), EndIter][..if i.AtIter? then 0 else if i.AtFsNext? || i.AtStats? then 2 else 1]
    case Final(d) => done + tail[..if d.AtFinalIter? then 0 else 1]
    case HandOver(h) => done + tail[..Step(h)]
    case AtAck => done + tail[..5]
    case CleanUp(c) =>
      done + tail[..if c.AtRestoreTime? then |tail| - 1 else if c.AtClose? then |tail| else 5]
  }

  function Step(h: HandingOver): nat {
    match h
    case AtFinalEnd => 1
    case AtFsStop => 2
    case AtAccept => 2
    case AtSend => 3
    case AtStopAccept => 3
    case AtRestore => 4
  }

  /** The trace is exactly as far as the statement the driver is at; in a dead end it is a prefix
      of a whole one. `dumps` is the number of pre-dumps so far. */
  ghost predicate OnTrack(s: Run, dumps: nat, q: Parts) {
    && !s.pc.Nowhere?
    && (s.pc.Prepare? ==> s.pages == [])
    && if Dead(s.pc) then IsPrefix(s, dumps, q) else s.calls == Expected(s.cfg, s.pc, |s.pages|, q)
  }

  /** One more round than pre-dumps only if the loop was broken off in one. */
  ghost predicate FitsRounds(pc: Pc, calls: seq<Target.Call>, cfg: Config, dumps: nat, n: nat, q: Parts) {
    && dumps <= n <= dumps + 1 && (!pc.Iterate? && pc != Stopped(false) ==> n == dumps)
    && calls <= Whole(cfg, n, q)
  }

  ghost predicate IsPrefix(s: Run, dumps: nat, q: Parts) {
    exists n: nat :: FitsRounds(s.pc, s.calls, s.cfg, dumps, n, q)
  }

  predicate InCpuCheck(pc: Pc) {
    pc == Prepare(AtCpuSend) || pc == Prepare(AtCpuStop) || pc == Prepare(AtCpuCheck)
  }

  function WholeRounds(pc: Pc, n: nat): nat {
    if pc.Iterate? then n + 1 else n
  }

  lemma ExpectedIsPrefix(cfg: Config, pc: Pc, n: nat, q: Parts)
    requires !Dead(pc) && !pc.Nowhere? && (pc.Prepare? ==> n == 0) && (InCpuCheck(pc) ==> q.cpu)
    ensures Expected(cfg, pc, n, q) <= Whole(cfg, WholeRounds(pc, n), q)
  {
    if pc.Prepare? {
      HeadIsPrefix(cfg, pc.p, q);
      StillPrefix(Expected(cfg, pc, 0, q), Head(cfg, q), Rounds(0), Tail(cfg, q));
    } else if pc.Iterate? {
      RoundIsPrefix(cfg, pc, n, q);
    }
  }

  lemma StillPrefix(a: seq<Target.Call>, b: seq<Target.Call>, c: seq<Target.Call>, d: seq<Target.Call>)
    requires a <= b
    ensures a <= b + c + d
  {
  }

  lemma HeadIsPrefix(cfg: Config, p: Preparing, q: Parts)
    requires InCpuCheck(Prepare(p)) ==> q.cpu
    ensures Expected(cfg, Prepare(p), 0, q) <= Head(cfg, q)
  {
    if InCpuCheck(Prepare(p)) {
      CutIsPrefix(Opening(cfg.keepImages), CpuCheck(true), if p.AtCpuCheck? then 2 else 1, VersionCheck(q.version));
    }
  }

  lemma CutIsPrefix(a: seq<Target.Call>, b: seq<Target.Call>, k: nat, c: seq<Target.Call>)
    requires k <= |b|
    ensures a + b[..k] <= a + b + c
  {
  }

  lemma RoundIsPrefix(cfg: Config, pc: Pc, n: nat, q: Parts)
    requires pc.Iterate?
    ensures Expected(cfg, pc, n, q) <= Whole(cfg, n + 1, q)
  {
    var done := Head(cfg, q) + Rounds(n);
    assert Rounds(n + 1) == Rounds(n) + [StartIter(true), EndIter];
    assert Whole(cfg, n + 1, q) == done + [StartIter(true), EndIter] + Tail(cfg, q);
  }

  /** Which of the optional parts the trace has, after a step from `pc`. */
  function Seen(pc: Pc, e: Event, q: Parts): Parts {
    Parts(CpuSeen(pc, q.cpu), VersionSeen(pc, q.version), if pc == CleanUp(AtComplete) then e.Rpc? else q.complete)
  }

  function CpuSeen(pc: Pc, cpu: bool): bool {
    if BeforeChecks(pc) then false else CheckingCpu(pc) || cpu
  }

  function VersionSeen(pc: Pc, version: bool): bool {
    if BeforeChecks(pc) || CheckingCpu(pc) || pc == Prepare(AtVersion) then false
    else pc == Prepare(AtVersionCheck) || version
  }

  // ---- a call adds itself to the trace, where an undisturbed migration has it --------------------

  lemma Grow(done: seq<Target.Call>, tail: seq<Target.Call>, k: nat, c: Target.Call)
    requires k < |tail| && tail[k] == c
    ensures done + tail[..k] + [c] == done + tail[..k + 1]
  {
  }

  ghost predicate Continues(s: Run, e: Event, n: nat, q: Parts)
    requires e.Rpc? && !Dead(s.pc) && !s.pc.Nowhere?
  {
    var good := NextPc(s, Answered(e.call));
    && !Dead(good) && !good.Nowhere?
    && Expected(s.cfg, s.pc, n, q) + [e.call] == Expected(s.cfg, good, n, Seen(s.pc, e, q))
  }

  lemma OpeningCall(s: Run, e: Event, q: Parts)
    requires e.Rpc? && BeforeChecks(s.pc) && !NextPc(s, e).Nowhere?
    ensures Continues(s, e, 0, q)
  {
  }

  lemma CpuCall(s: Run, e: Event, q: Parts)
    requires e.Rpc? && CheckingCpu(s.pc) && !NextPc(s, e).Nowhere?
    ensures Continues(s, e, 0, q)
  {
    var k := if s.pc == Prepare(AtCpuAccept) then 0 else if s.pc == Prepare(AtCpuStop) then 1 else 2;
    Grow(Opening(s.cfg.keepImages), CpuCheck(true), k, e.call);
  }

  lemma VersionCall(s: Run, e: Event, q: Parts)
    requires e.Rpc? && CheckingVersion(s.pc) && !NextPc(s, e).Nowhere?
    ensures Continues(s, e, 0, q)
  {
  }

  lemma RoundCall(s: Run, e: Event, n: nat, q: Parts)
    requires e.Rpc? && s.pc.Iterate? && !NextPc(s, e).Nowhere?
    ensures Continues(s, e, n, q)
  {
    Grow(Head(s.cfg, q) + Rounds(n), [StartIter(true), EndIter], if s.pc.i.AtIter? then 0 else 1, e.call);
  }

  lemma FinalCall(s: Run, e: Event, n: nat, q: Parts)
    requires e.Rpc? && s.pc.Final? && !NextPc(s, e).Nowhere?
    ensures Continues(s, e, n, q)
  {
    Grow(Head(s.cfg, q) + Rounds(n), Tail(s.cfg, q), 0, e.call);
  }

  lemma HandOverCall(s: Run, e: Event, n: nat, q: Parts)
    requires e.Rpc? && s.pc.HandOver? && !NextPc(s, e).Nowhere?
    ensures Continues(s, e, n, q)
  {
    Grow(Head(s.cfg, q) + Rounds(n), Tail(s.cfg, q), Step(s.pc.h), e.call);
  }

  lemma CompleteCall(s: Run, e: Event, n: nat, q: Parts)
    requires e.Rpc? && s.pc == CleanUp(AtComplete) && !NextPc(s, e).Nowhere?
    ensures Continues(s, e, n, q)
  {
    var done, next := Head(s.cfg, q) + Rounds(n), Seen(s.pc, e, q);
    assert Tail(s.cfg, next)[..5] == Tail(s.cfg, q)[..5];
    Grow(done, Tail(s.cfg, next), 5, e.call);
  }

  lemma TimeCall(s: Run, e: Event, n: nat, q: Parts)
    requires e.Rpc? && s.pc == CleanUp(AtRestoreTime) && !NextPc(s, e).Nowhere?
    ensures Continues(s, e, n, q)
  {
    Grow(Head(s.cfg, q) + Rounds(n), Tail(s.cfg, q), |Tail(s.cfg, q)| - 1, e.call);
  }

  lemma CleanUpCall(s: Run, e: Event, n: nat, q: Parts)
    requires e.Rpc? && s.pc.CleanUp? && !NextPc(s, e).Nowhere?
    ensures Continues(s, e, n, q)
  {
    if s.pc == CleanUp(AtComplete) {
      CompleteCall(s, e, n, q);
    } else {
      TimeCall(s, e, n, q);
    }
  }

  lemma AnsweredOrDead(s: Run, e: Event)
    requires e.Rpc? && !NextPc(s, e).Nowhere?
    ensures NextPc(s, e) == NextPc(s, Answered(e.call)) || Dead(NextPc(s, e))
    ensures !Dead(s.pc) && !s.pc.Nowhere?
  {
  }

  lemma NoWayBack(s: Run, e: Event)
    requires !NextPc(s, e).Nowhere?
    ensures NextPc(s, e).Prepare? ==> s.pc.Prepare? && !e.Stats?
  {
  }

  lemma CallWhere(s: Run, e: Event)
    requires e.Rpc? && s.pc.Prepare? && !NextPc(s, e).Nowhere?
    ensures BeforeChecks(s.pc) || CheckingCpu(s.pc) || CheckingVersion(s.pc)
  {
  }

  lemma CallContinues(s: Run, e: Event, dumps: nat, q: Parts)
    requires OnTrack(s, dumps, q) && e.Rpc? && !Dead(s.pc) && !NextPc(s, e).Nowhere?
    ensures Continues(s, e, |s.pages|, q)
  {
    var n := |s.pages|;
    if s.pc.Prepare? {
      CallWhere(s, e);
      if BeforeChecks(s.pc) {
        OpeningCall(s, e, q);
      } else if CheckingCpu(s.pc) {
        CpuCall(s, e, q);
      } else {
        VersionCall(s, e, q);
      }
    } else if s.pc.Iterate? {
      RoundCall(s, e, n, q);
    } else if s.pc.Final? {
      FinalCall(s, e, n, q);
    } else if s.pc.HandOver? {
      HandOverCall(s, e, n, q);
    } else {
      CleanUpCall(s, e, n, q);
    }
  }

  /** Where a call leads when it succeeds, and how that compares with where it leads when it fails. */
  lemma CallLeads(s: Run, e: Event, q: Parts)
    requires e.Rpc? && !NextPc(s, e).Nowhere? && !Dead(s.pc) && !s.pc.Nowhere?
    ensures var good := NextPc(s, Answered(e.call));
      && (InCpuCheck(good) ==> CpuSeen(s.pc, q.cpu)) && (good.Iterate? ==> s.pc.Iterate?)
      && (good.Prepare? ==> s.pc.Prepare?)
      && (Dead(NextPc(s, e)) && NextPc(s, e) != Stopped(false) ==> !s.pc.Iterate?)
  {
  }

  lemma TraceCall(s: Run, t: Run, e: Event, dumps: nat, q: Parts)
    requires OnTrack(s, dumps, q) && e.Rpc? && LiveLoop.Rounds(s, dumps)
    requires t.cfg == s.cfg && t.pages == s.pages && t.calls == s.calls + [e.call]
    requires t.pc == NextPc(s, e) && !t.pc.Nowhere?
    ensures OnTrack(t, dumps, Seen(s.pc, e, q))
  {
    var good, n := NextPc(s, Answered(e.call)), |s.pages|;
    AnsweredOrDead(s, e);
    CallContinues(s, e, dumps, q);
    CallLeads(s, e, q);
    if Dead(t.pc) {
      ExpectedIsPrefix(s.cfg, good, n, Seen(s.pc, e, q));
      RoundsThen(s, e, dumps);
      assert FitsRounds(t.pc, t.calls, t.cfg, dumps, WholeRounds(good, n), Seen(s.pc, e, q));
    }
  }

  /** How many rounds to count when a call fails. */
  lemma RoundsThen(s: Run, e: Event, dumps: nat)
    requires e.Rpc? && !NextPc(s, e).Nowhere? && LiveLoop.Rounds(s, dumps) && !Dead(s.pc)
    ensures var n := WholeRounds(NextPc(s, Answered(e.call)), |s.pages|);
      dumps <= n <= dumps + 1 && (!s.pc.Iterate? ==> n == dumps)
  {
  }

  // ---- a step without a call leaves the trace where the next statement expects it ----------------

  ghost predicate StaysPut(s: Run, e: Event, q: Parts)
    requires !Dead(s.pc) && !s.pc.Nowhere?
  {
    var pc := NextPc(s, e);
    var n := if e.Stats? then |s.pages| + 1 else |s.pages|;
    pc.Nowhere? || Dead(pc) || Expected(s.cfg, pc, n, Seen(s.pc, e, q)) == Expected(s.cfg, s.pc, |s.pages|, q)
  }

  lemma QuietOpening(s: Run, e: Event, q: Parts)
    requires BeforeChecks(s.pc) && s.pages == [] && !e.Rpc?
    ensures StaysPut(s, e, q)
  {
  }

  lemma QuietCpu(s: Run, e: Event, q: Parts)
    requires CheckingCpu(s.pc) && s.pages == [] && !e.Rpc?
    ensures StaysPut(s, e, q)
  {
  }

  lemma QuietVersion(s: Run, e: Event, q: Parts)
    requires CheckingVersion(s.pc) && s.pages == [] && !e.Rpc?
    ensures StaysPut(s, e, q)
  {
  }

  lemma QuietTrack(s: Run, e: Event, q: Parts)
    requires (s.pc == Prepare(AtTrack) || s.pc == Prepare(AtFsStart)) && s.pages == [] && !e.Rpc?
    ensures StaysPut(s, e, q)
  {
  }

  lemma QuietIterate(s: Run, e: Event, q: Parts)
    requires s.pc.Iterate? && !e.Rpc?
    ensures StaysPut(s, e, q)
  {
    if e.Stats? {
      QuietStats(s, e, q);
    } else {
      QuietInRound(s, e, q);
    }
  }

  lemma RoundDone(head: seq<Target.Call>, n: nat)
    ensures head + Rounds(n) + [StartIter(true), EndIter][..2] == head + Rounds(n + 1)
  {
    assert Rounds(n + 1) == Rounds(n) + [StartIter(true), EndIter];
  }

  lemma QuietStats(s: Run, e: Event, q: Parts)
    requires s.pc.Iterate? && e.Stats?
    ensures StaysPut(s, e, q)
  {
    RoundDone(Head(s.cfg, q), |s.pages|);
  }

  lemma QuietInRound(s: Run, e: Event, q: Parts)
    requires s.pc.Iterate? && !e.Rpc? && !e.Stats?
    ensures StaysPut(s, e, q)
  {
  }

  lemma QuietFinal(s: Run, e: Event, q: Parts)
    requires s.pc.Final? && !e.Rpc?
    ensures StaysPut(s, e, q)
  {
  }

  lemma QuietHandOver(s: Run, e: Event, q: Parts)
    requires s.pc.HandOver? && !e.Rpc?
    ensures StaysPut(s, e, q)
  {
    HandOverLeads(s, e);
  }

  lemma HandOverLeads(s: Run, e: Event)
    requires s.pc.HandOver? && !e.Rpc?
    ensures var pc := NextPc(s, e);
      pc.Nowhere? || Dead(pc) || (pc.HandOver? && Step(pc.h) == Step(s.pc.h))
  {
  }

  lemma QuietAck(s: Run, e: Event, q: Parts)
    requires s.pc.AtAck? && !e.Rpc?
    ensures StaysPut(s, e, q)
  {
  }

  lemma QuietCleanUp(s: Run, e: Event, q: Parts)
    requires s.pc.CleanUp? && !e.Rpc?
    ensures StaysPut(s, e, q)
  {
  }

  lemma QuietStays(s: Run, e: Event, dumps: nat, q: Parts)
    requires OnTrack(s, dumps, q) && !e.Rpc? && !Dead(s.pc)
    ensures StaysPut(s, e, q)
  {
    if BeforeChecks(s.pc) {
      QuietOpening(s, e, q);
    } else if CheckingCpu(s.pc) {
      QuietCpu(s, e, q);
    } else if CheckingVersion(s.pc) {
      QuietVersion(s, e, q);
    } else if s.pc.Prepare? {
      QuietTrack(s, e, q);
    } else if s.pc.Iterate? {
      QuietIterate(s, e, q);
    } else if s.pc.Final? {
      QuietFinal(s, e, q);
    } else if s.pc.CleanUp? {
      QuietCleanUp(s, e, q);
    } else if s.pc.HandOver? {
      QuietHandOver(s, e, q);
    } else {
      QuietAck(s, e, q);
    }
  }

  /** Parts of the trace that are still to come do not matter. */
  lemma SeenIrrelevant(cfg: Config, pc: Pc, n: nat, e: Event, q: Parts)
    requires !Dead(pc) && !pc.Nowhere?
    ensures Expected(cfg, pc, n, Seen(pc, e, q)) == Expected(cfg, pc, n, q)
  {
  }

  lemma QuietLeads(s: Run, e: Event, dumps: nat)
    requires !e.Rpc? && !NextPc(s, e).Nowhere? && LiveLoop.Rounds(s, dumps) && !Dead(s.pc)
    ensures var n := WholeRounds(s.pc, |s.pages|);
      var more := dumps + if e.PreDump? then 1 else 0;
      Dead(NextPc(s, e)) ==> more <= n <= more + 1 && (NextPc(s, e) != Stopped(false) ==> n == more)
  {
  }

  lemma TraceQuiet(s: Run, t: Run, e: Event, dumps: nat, q: Parts)
    requires OnTrack(s, dumps, q) && !e.Rpc? && !Dead(s.pc) && LiveLoop.Rounds(s, dumps)
    requires t.cfg == s.cfg && t.calls == s.calls
    requires t.pages == if e.Stats? then s.pages + [e.written] else s.pages
    requires t.pc == NextPc(s, e) && !t.pc.Nowhere?
    ensures OnTrack(t, dumps + if e.PreDump? then 1 else 0, Seen(s.pc, e, q))
  {
    if Dead(t.pc) {
      QuietDies(s, t, e, dumps, q);
    } else {
      QuietLives(s, t, e, dumps, q);
    }
  }

  lemma QuietLives(s: Run, t: Run, e: Event, dumps: nat, q: Parts)
    requires OnTrack(s, dumps, q) && !e.Rpc? && !Dead(s.pc)
    requires t.cfg == s.cfg && t.calls == s.calls && t.pc == NextPc(s, e) && !t.pc.Nowhere? && !Dead(t.pc)
    requires t.pages == if e.Stats? then s.pages + [e.written] else s.pages
    ensures OnTrack(t, dumps + if e.PreDump? then 1 else 0, Seen(s.pc, e, q))
  {
    NoWayBack(s, e);
    QuietStays(s, e, dumps, q);
  }

  lemma QuietDies(s: Run, t: Run, e: Event, dumps: nat, q: Parts)
    requires OnTrack(s, dumps, q) && !e.Rpc? && !Dead(s.pc) && LiveLoop.Rounds(s, dumps)
    requires t.cfg == s.cfg && t.calls == s.calls && t.pc == NextPc(s, e) && Dead(t.pc)
    ensures IsPrefix(t, dumps + if e.PreDump? then 1 else 0, Seen(s.pc, e, q))
  {
    var n, next := |s.pages|, Seen(s.pc, e, q);
    var more := dumps + if e.PreDump? then 1 else 0;
    BegunIsPrefix(s, e, q);
    QuietLeads(s, e, dumps);
    assert FitsRounds(t.pc, t.calls, t.cfg, more, WholeRounds(s.pc, n), next);
  }

  lemma BegunIsPrefix(s: Run, e: Event, q: Parts)
    requires !Dead(s.pc) && !s.pc.Nowhere? && (s.pc.Prepare? ==> s.pages == [])
    ensures Expected(s.cfg, s.pc, |s.pages|, q) <= Whole(s.cfg, WholeRounds(s.pc, |s.pages|), Seen(s.pc, e, q))
  {
    SeenIrrelevant(s.cfg, s.pc, |s.pages|, e, q);
    ExpectedIsPrefix(s.cfg, s.pc, |s.pages|, Seen(s.pc, e, q));
  }

  lemma QuietElsewhere(s: Run, e: Event)
    requires Can(s, e) && (Dead(s.pc) || !ByDriver(e))
    ensures NextRun(s, e).calls == s.calls && NextRun(s, e).cfg == s.cfg && NextRun(s, e).pages == s.pages
    ensures if ByDriver(e) then NextRun(s, e).pc == Stopped(false) else NextRun(s, e).pc == s.pc
    ensures !e.PreDump?
  {
  }

  // ---- whole runs ----------------------------------------------------------------------------------

  function MarksOf(waived: bool, decided: bool, q: Parts): Marks {
    Marks(waived, decided, q.cpu, q.version)
  }

  /** The parts that were seen move as the marks of the checks do. */
  lemma SeenIsMarked(s: Run, e: Event, m: Marks, q: Parts)
    requires m == MarksOf(m.waived, m.decided, q) && CheckInv(s, m) && Can(s, e)
    ensures var next := if ByDriver(e) then Seen(s.pc, e, q) else q;
      Marked(s, e, m, MarksOf(m.waived || Waives(e), m.decided || e.Track?, next))
  {
    PassesWhere(s, e);
    WaivesWhere(s, e);
  }

  lemma WaivesWhere(s: Run, e: Event)
    requires Can(s, e)
    ensures Waives(e) ==> BeforeChecks(s.pc)
    ensures e.Track? ==> PastChecks(s.pc)
  {
  }

  lemma TraceStep(s: Run, e: Event, dumps: nat, q: Parts) returns (next: Parts)
    requires OnTrack(s, dumps, q) && Can(s, e) && LiveLoop.Rounds(s, dumps)
    ensures OnTrack(NextRun(s, e), dumps + if e.PreDump? then 1 else 0, next)
    ensures next == if ByDriver(e) && !Dead(s.pc) then Seen(s.pc, e, q) else q
  {
    next := q;
    if ByDriver(e) && !Dead(s.pc) {
      next := Seen(s.pc, e, q);
      if e.Rpc? {
        TraceCall(s, NextRun(s, e), e, dumps, q);
      } else {
        TraceQuiet(s, NextRun(s, e), e, dumps, q);
      }
    } else {
      QuietElsewhere(s, e);
      if Dead(s.pc) {
        var n: nat :| FitsRounds(s.pc, s.calls, s.cfg, dumps, n, q);
        assert FitsRounds(NextRun(s, e).pc, s.calls, s.cfg, dumps, n, q);
      }
    }
  }

  ghost predicate Traced(s: Run, log: seq<Event>, q: Parts) {
    && OnTrack(s, LiveLoop.PreDumps(log), q) && CheckInv(s, MarksOf(Waived(log), Decided(log), q))
    && LiveLoop.Rounds(s, LiveLoop.PreDumps(log))
  }

  lemma MarksSeen(init: seq<Event>, e: Event, q: Parts)
    ensures MarksOf(Waived(init + [e]), Decided(init + [e]), q)
         == MarksOf(Waived(init) || Waives(e), Decided(init) || e.Track?, q)
  {
    SeenMore(init, e);
  }

  lemma MarksStep(s: Run, e: Event, m: Marks, q: Parts, next: Parts)
    requires m == MarksOf(m.waived, m.decided, q) && CheckInv(s, m) && Can(s, e)
    requires next == if ByDriver(e) && !Dead(s.pc) then Seen(s.pc, e, q) else q
    ensures CheckInv(NextRun(s, e), MarksOf(m.waived || Waives(e), m.decided || e.Track?, next))
  {
    SeenIsMarked(s, e, m, q);
    CheckStep(s, e, m, MarksOf(m.waived || Waives(e), m.decided || e.Track?, next));
  }

  lemma MarksMore(s: Run, init: seq<Event>, e: Event, q: Parts, next: Parts)
    requires CheckInv(s, MarksOf(Waived(init), Decided(init), q)) && Can(s, e)
    requires next == if ByDriver(e) && !Dead(s.pc) then Seen(s.pc, e, q) else q
    ensures CheckInv(NextRun(s, e), MarksOf(Waived(init + [e]), Decided(init + [e]), next))
  {
    MarksSeen(init, e, next);
    MarksStep(s, e, MarksOf(Waived(init), Decided(init), q), q, next);
  }

  lemma DumpsMore(init: seq<Event>, e: Event)
    ensures LiveLoop.PreDumps(init + [e]) == LiveLoop.PreDumps(init) + if e.PreDump? then 1 else 0
  {
    assert (init + [e])[..|init|] == init;
  }

  lemma TraceMore(s: Run, init: seq<Event>, e: Event, q: Parts) returns (next: Parts)
    requires Traced(s, init, q) && Can(s, e)
    ensures Traced(NextRun(s, e), init + [e], next) && NextRun(s, e).cfg == s.cfg
  {
    LiveLoop.RoundsStep(s, e, LiveLoop.PreDumps(init));
    next := TraceStep(s, e, LiveLoop.PreDumps(init), q);
    DumpsMore(init, e);
    MarksMore(s, init, e, q, next);
  }

  lemma TraceNothing(cfg: Config)
    ensures Traced(Start(cfg), [], Parts(false, false, false))
  {
    CheckNothing(cfg);
    assert !Waived([]) && !Decided([]);
  }

  lemma {:induction false} TraceAlways(cfg: Config, mem: map<nat, int>, log: seq<Event>) returns (q: Parts)
    requires Possible(cfg, mem, log)
    ensures Traced(After(cfg, mem, log).run, log, q) && After(cfg, mem, log).run.cfg == cfg
  {
    if log == [] {
      q := Parts(false, false, false);
      TraceNothing(cfg);
    } else {
      var init, e := log[..|log| - 1], log[|log| - 1];
      q := TraceAlways(cfg, mem, init);
      q := TraceMore(After(cfg, mem, init).run, init, e, q);
      assert log == init + [e];
    }
  }

  /** The optional checks of a trace are those that the options and the kernel ask for, all of them
      once the driver is past them. */
  ghost predicate FitsChecks(cfg: Config, log: seq<Event>, q: Parts) {
    && (q.cpu ==> WantsCpu(cfg, Waived(log))) && (q.version ==> WantsVersion(cfg, Waived(log)))
    && (Decided(log) ==> (q.cpu <==> WantsCpu(cfg, Waived(log))) && (q.version <==> WantsVersion(cfg, Waived(log))))
  }

  /** The calls of every run are a prefix of: setup, options, the checks that are wanted, one round per
      pre-dump (and one more if the loop was left in the middle), the final round, the images,
      restore, optional completion, restore time. */
  lemma TraceLanguage(cfg: Config, mem: map<nat, int>, log: seq<Event>)
    requires Possible(cfg, mem, log)
    ensures var s := After(cfg, mem, log).run;
      exists n: nat, q :: FitsRounds(s.pc, s.calls, cfg, LiveLoop.PreDumps(log), n, q) && FitsChecks(cfg, log, q)
  {
    var q := TraceAlways(cfg, mem, log);
    var s, dumps := After(cfg, mem, log).run, LiveLoop.PreDumps(log);
    if Dead(s.pc) {
      var n: nat :| FitsRounds(s.pc, s.calls, s.cfg, dumps, n, q);
      assert FitsChecks(cfg, log, q);
    } else {
      LanguageHere(s, log, q);
    }
  }

  lemma LanguageHere(s: Run, log: seq<Event>, q: Parts)
    requires Traced(s, log, q) && !Dead(s.pc)
    ensures exists n: nat, q ::
      FitsRounds(s.pc, s.calls, s.cfg, LiveLoop.PreDumps(log), n, q) && FitsChecks(s.cfg, log, q)
  {
    var begun, n := Seen(s.pc, Exit, q), |s.pages|;
    BegunIsPrefix(s, Exit, q);
    assert FitsRounds(s.pc, s.calls, s.cfg, LiveLoop.PreDumps(log), WholeRounds(s.pc, n), begun);
    assert FitsChecks(s.cfg, log, begun);
  }

  /** After `ENOTSUP` on dumping cpuinfo neither of the two checks is ever called. */
  lemma NoCpuinfoNoChecks(cfg: Config, mem: map<nat, int>, log: seq<Event>)
    requires Possible(cfg, mem, log) && Waived(log)
    ensures CheckCpuinfo !in After(cfg, mem, log).run.calls && CheckCriuVersion !in After(cfg, mem, log).run.calls
  {
    TraceLanguage(cfg, mem, log);
    var s := After(cfg, mem, log).run;
    var n: nat, q :| FitsRounds(s.pc, s.calls, cfg, LiveLoop.PreDumps(log), n, q) && FitsChecks(cfg, log, q);
    NoChecksIn(cfg, n, q);
    assert forall c | c in s.calls :: c in Whole(cfg, n, q);
  }

  lemma {:induction false} NoChecksIn(cfg: Config, n: nat, q: Parts)
    requires !q.cpu && !q.version
    ensures CheckCpuinfo !in Whole(cfg, n, q) && CheckCriuVersion !in Whole(cfg, n, q)
  {
    OnlyRounds(n);
    assert Whole(cfg, n, q) == Opening(cfg.keepImages) + Rounds(n) + Tail(cfg, q);
  }

  lemma {:induction false} OnlyRounds(n: nat)
    ensures forall c | c in Rounds(n) :: c == StartIter(true) || c == EndIter
  {
    if n > 0 {
      OnlyRounds(n - 1);
    }
  }

  // ---- which archive was unpacked -------------------------------------------------------------------

  /** A call that the target has served without an exception, whatever became of the reply. */
  predicate Done(e: Event) {
    e.Rpc? && e.fate.Served? && e.fate.out.Returns?
  }

  /** Where the archive that is being received goes. */
  function LastStore(log: seq<Event>): Option<Store> {
    if log == [] then None else
    var e := log[|log| - 1];
    if Done(e) && e.call.StartAcceptImages? then Some(e.call.store) else LastStore(log[..|log| - 1])
  }

  /** The archive of the images, as opposed to that of cpuinfo, was unpacked. */
  function ImagesUnpacked(log: seq<Event>): bool {
    if log == [] then false else
    var init, e := log[..|log| - 1], log[|log| - 1];
    if Done(e) && e.call.StopAcceptImages? && LastStore(init) == Some(IMGDIR) then e.fate.out.flag
    else ImagesUnpacked(init)
  }

  predicate ArchiveInv(s: Run, store: Option<Store>, unpacked: bool) {
    && (s.pc == HandOver(AtSend) || s.pc == HandOver(AtStopAccept) ==> store == Some(IMGDIR))
    && (s.pc == HandOver(AtRestore) || s.pc.AtAck? || s.pc.CleanUp? || s.pc == Stopped(true) || s.tgt.running ==>
          s.tgt.complete == unpacked)
    && (!s.pc.AtAck? && !s.pc.CleanUp? && !s.pc.Stopped? && !s.pc.AtFail? ==> !s.tgt.running)
  }

  predicate Archived(e: Event, store: Option<Store>, unpacked: bool, store1: Option<Store>, unpacked1: bool) {
    && store1 == (if Done(e) && e.call.StartAcceptImages? then Some(e.call.store) else store)
    && unpacked1 == (if Done(e) && e.call.StopAcceptImages? && store == Some(IMGDIR) then e.fate.out.flag else unpacked)
  }

  lemma ArchiveOpening(s: Run, e: Event, store: Option<Store>, u: bool, store1: Option<Store>, u1: bool)
    requires ArchiveInv(s, store, u) && Can(s, e) && e.Rpc? && Archived(e, store, u, store1, u1)
    requires BeforeChecks(s.pc)
    ensures ArchiveInv(NextRun(s, e), store1, u1)
  {
  }

  lemma ArchiveCheck(s: Run, e: Event, store: Option<Store>, u: bool, store1: Option<Store>, u1: bool)
    requires ArchiveInv(s, store, u) && Can(s, e) && e.Rpc? && Archived(e, store, u, store1, u1)
    requires s.pc.Prepare? && !BeforeChecks(s.pc)
    ensures ArchiveInv(NextRun(s, e), store1, u1)
  {
  }

  lemma ArchiveRound(s: Run, e: Event, store: Option<Store>, u: bool, store1: Option<Store>, u1: bool)
    requires ArchiveInv(s, store, u) && Can(s, e) && e.Rpc? && Archived(e, store, u, store1, u1)
    requires s.pc.Iterate? || s.pc.Final?
    ensures ArchiveInv(NextRun(s, e), store1, u1)
  {
  }

  lemma ArchiveLate(s: Run, e: Event, store: Option<Store>, u: bool, store1: Option<Store>, u1: bool)
    requires ArchiveInv(s, store, u) && Can(s, e) && e.Rpc? && Archived(e, store, u, store1, u1)
    requires !s.pc.Prepare? && !s.pc.Iterate? && !s.pc.Final?
    ensures ArchiveInv(NextRun(s, e), store1, u1)
  {
  }

  lemma QuietArchivePrepare(s: Run, e: Event, store: Option<Store>, u: bool)
    requires ArchiveInv(s, store, u) && Can(s, e) && ByDriver(e) && !e.Rpc?
    requires s.pc.Prepare?
    ensures ArchiveInv(NextRun(s, e), store, u)
  {
  }

  lemma QuietArchiveRound(s: Run, e: Event, store: Option<Store>, u: bool)
    requires ArchiveInv(s, store, u) && Can(s, e) && ByDriver(e) && !e.Rpc?
    requires s.pc.Iterate? || s.pc.Final?
    ensures ArchiveInv(NextRun(s, e), store, u)
  {
  }

  lemma QuietArchiveLate(s: Run, e: Event, store: Option<Store>, u: bool)
    requires ArchiveInv(s, store, u) && Can(s, e) && ByDriver(e) && !e.Rpc?
    requires !s.pc.Prepare? && !s.pc.Iterate? && !s.pc.Final?
    ensures ArchiveInv(NextRun(s, e), store, u)
  {
  }

  lemma ArchiveStep(s: Run, e: Event, store: Option<Store>, u: bool, store1: Option<Store>, u1: bool)
    requires ArchiveInv(s, store, u) && Can(s, e) && Archived(e, store, u, store1, u1)
    ensures ArchiveInv(NextRun(s, e), store1, u1)
  {
    if !ByDriver(e) {
      ArchiveAround(s, e, store, u);
    } else if s.pc.Prepare? {
      if !e.Rpc? {
        QuietArchivePrepare(s, e, store, u);
      } else if BeforeChecks(s.pc) {
        ArchiveOpening(s, e, store, u, store1, u1);
      } else {
        ArchiveCheck(s, e, store, u, store1, u1);
      }
    } else if s.pc.Iterate? || s.pc.Final? {
      if e.Rpc? { ArchiveRound(s, e, store, u, store1, u1); } else { QuietArchiveRound(s, e, store, u); }
    } else {
      if e.Rpc? { ArchiveLate(s, e, store, u, store1, u1); } else { QuietArchiveLate(s, e, store, u); }
    }
  }

  lemma ArchiveAround(s: Run, e: Event, store: Option<Store>, u: bool)
    requires ArchiveInv(s, store, u) && Can(s, e) && !ByDriver(e)
    ensures ArchiveInv(NextRun(s, e), store, u)
  {
  }

  lemma {:induction false} ArchiveAlways(cfg: Config, mem: map<nat, int>, log: seq<Event>)
    requires Possible(cfg, mem, log)
    ensures ArchiveInv(After(cfg, mem, log).run, LastStore(log), ImagesUnpacked(log))
  {
    if log != [] {
      var init, e := log[..|log| - 1], log[|log| - 1];
      ArchiveAlways(cfg, mem, init);
      var s := After(cfg, mem, init).run;
      ArchiveStep(s, e, LastStore(init), ImagesUnpacked(init), LastStore(log), ImagesUnpacked(log));
    }
  }

  /** When the restore is asked for, the last two calls have received the archive of the images; and
      from then on, and wherever the tree executes on the target, its images are complete exactly if
      that archive, not the one of cpuinfo, was unpacked. */
  lemma CompleteIffUnpacked(cfg: Config, mem: map<nat, int>, log: seq<Event>)
    requires Possible(cfg, mem, log)
    ensures var s := After(cfg, mem, log).run;
      && (s.pc == HandOver(AtRestore) ==>
            |s.calls| >= 2 && s.calls[|s.calls| - 2..] == [StartAcceptImages(IMGDIR), StopAcceptImages])
      && (s.pc == HandOver(AtRestore) || s.pc.AtAck? || s.pc.CleanUp? || s.pc == Stopped(true) || s.tgt.running ==>
            s.tgt.complete == ImagesUnpacked(log))
  {
    ArchiveAlways(cfg, mem, log);
    var q := TraceAlways(cfg, mem, log);
    var s := After(cfg, mem, log).run;
    if s.pc == HandOver(AtRestore) {
      var done, tail := Head(cfg, q) + Rounds(|s.pages|), Tail(cfg, q);
      assert s.calls == done + tail[..4];
      assert tail[..4][2..] == [StartAcceptImages(IMGDIR), StopAcceptImages];
    }
  }
}
