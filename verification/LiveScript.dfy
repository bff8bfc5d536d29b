/** Live mode: a run under given circumstances. Everything the driver does not decide itself is
    given in advance, statement by statement; what it does and what it asks of CRIU then follow. */
module LiveScript {
  import opened Prelude
  import Images
  import opened CriuSession
  import opened Target
  import opened Live
  import LiveLoop

  /** The circumstances of one statement. */
  datatype Choice = Choice(
    around: seq<Event>,    // what happens elsewhere before it
    ok: bool,              // a local statement, or what comes before its main part, does not raise
    after: bool,           // nor does what comes after
    made: bool,            // a directory can be made
    fate: Fate,            // of a call, if the connection is intact
    inbox: seq<Resp>,      // what CRIU will answer
    hookOk: nat -> bool,   // the hooks of the hauler, by notification
    written: nat,          // the pages counted
    extra: set<nat>,       // pages written without need
    frozen: bool)          // a failed dump left the tree frozen

  predicate Elsewhere(e: Event) {
    e.Break? || e.Disconnect? || e.Compute?
  }

  /** The state after those of the events that can happen elsewhere and are possible when their turn
      comes, */
  function Later(s: Run, around: seq<Event>): Run {
    if around == [] then s else
    var t, e := Later(s, around[..|around| - 1]), around[|around| - 1];
    if Elsewhere(e) && Can(t, e) then NextRun(t, e) else t
  }

  /** and these events. */
  function Happened(s: Run, around: seq<Event>): seq<Event> {
    if around == [] then [] else
    var init, e := around[..|around| - 1], around[|around| - 1];
    Happened(s, init) + if Elsewhere(e) && Can(Later(s, init), e) then [e] else []
  }

  lemma OneMoreAround(s: Run, around: seq<Event>, n: nat)
    requires n < |around|
    ensures var t, e := Later(s, around[..n]), around[n];
      if Elsewhere(e) && Can(t, e) then
        Later(s, around[..n + 1]) == NextRun(t, e)
        && Happened(s, around[..n + 1]) == Happened(s, around[..n]) + [e]
      else Later(s, around[..n + 1]) == t && Happened(s, around[..n + 1]) == Happened(s, around[..n])
  {
    assert around[..n + 1][..n] == around[..n];
  }

  /** What CRIU answers a request that asks for no notifications. */
  function Quietly(inbox: seq<Resp>): seq<Resp> {
    if AnswersQuietly(inbox) then inbox else []
  }

  /** What the answer to the cpuinfo request comes to. */
  function ProbeOf(answer: Option<Resp>): Probe {
    match answer
    case Some(resp) =>
      if resp.typ != CPUINFO_DUMP then CannotDump
      else if resp.notSupported then NotSupported
      else if resp.success then Dumped
      else CannotDump
    case None => CannotDump
  }

  /** CRIU answers that it can track memory. */
  predicate ShowsTracking(answer: Option<Resp>) {
    match answer
    case Some(resp) => resp.typ == FEATURE_CHECK && resp.success && resp.memTrack
    case None => false
  }

  /** Some answer to the ack that is not of a wrong type. */
  predicate AnswersAck(inbox: seq<Resp>) {
    inbox != [] && (inbox[0].typ == NOTIFY || inbox[0].typ == DUMP)
  }

  /** The driver's event `e` at state `s`, with the source's image store `src`, is what the
      circumstances `c` make of it. `remote`: the hauler completes the migration by a call. */
  ghost predicate Fits(remote: bool, c: Choice, s: Run, src: Images.State, e: Event) {
    match e
    case Local(what, ok) => ok == c.ok && (what == HaulerComplete ==> !remote)
    case Options(ok) => c.ok && ok == c.made
    case Rpc(call, fate) => fate == (if s.up then c.fate else Lost) && (call.MigrationComplete? ==> remote)
    case CpuDump(probe) => probe == ProbeOf(First(Quietly(c.inbox)))
    case Track(on) => s.cfg.preDump.None? ==> on == (ShowsTracking(First(Quietly(c.inbox))) && c.ok)
    case MakeDir(ok) => ok == (c.made && Images.CanMake(src))
    case PreDump(extra, ok) => ok == PreDumped(Quietly(c.inbox)) && extra == c.extra
    case Stats(written) => c.ok && written == c.written
    case Dump(extra, ok, frozen) =>
      DumpFits(c, ok, frozen) && extra == c.extra
    case Ack(how) => how == if !c.ok then AckLost else if AnswersAck(c.inbox) then Acked else AckedNoReply
    case _ => true
  }

  /** CRIU's notifications end in `post-dump`. */
  ghost predicate Dumps(c: Choice) {
    DumpEnds(c.inbox, c.hookOk, 0)
  }

  ghost predicate DumpFits(c: Choice, ok: bool, frozen: bool) {
    ok == (c.ok && Dumps(c) && c.after) && frozen == (c.ok && (Dumps(c) || c.frozen))
  }

  /** What the driver's events so far say about its connection to CRIU. */
  datatype Told = Told(
    step: nat,              // statements executed
    dirs: nat,              // image directories asked for
    track: bool,            // memory tracking
    sent: seq<Exchanged>)   // the requests, with what came back

  const SILENT := Told(0, 0, true, [])

  function WithRequest(t: Told, req: Req, inbox: seq<Resp>): Told {
    t.(step := t.step + 1, sent := t.sent + [Exchanged(req, First(inbox))])
  }

  function Tell(cfg: Config, t: Told, c: Choice, e: Event): Told {
    var log := |t.sent|;
    match e
    case CpuDump(_) => WithRequest(t, ProbeReq(CPUINFO_DUMP, t.track, log), Quietly(c.inbox))
    case Track(on) =>
      (if cfg.preDump.None? then WithRequest(t, ProbeReq(FEATURE_CHECK, t.track, log), Quietly(c.inbox))
       else t.(step := t.step + 1)).(track := on)
    case MakeDir(_) => t.(step := t.step + 1, dirs := t.dirs + 1)
    case PreDump(_, _) => WithRequest(t, PreDumpReq(t.dirs, t.track, log), Quietly(c.inbox))
    case Dump(_, _, _) =>
      if c.ok then WithRequest(t, DumpReq(t.dirs, t.track, log), c.inbox) else t.(step := t.step + 1)
    case _ => t.(step := t.step + 1)
  }

  function Talk(cfg: Config, script: nat -> Choice, log: seq<Event>): Told {
    if log == [] then SILENT else
    var t, e := Talk(cfg, script, log[..|log| - 1]), log[|log| - 1];
    if ByDriver(e) then Tell(cfg, t, script(t.step), e) else t
  }

  /** The history is what the script makes of the run. */
  ghost predicate Plays(cfg: Config, mem: map<nat, int>, remote: bool, script: nat -> Choice, log: seq<Event>) {
    log != [] ==>
      var init, e := log[..|log| - 1], log[|log| - 1];
      && Plays(cfg, mem, remote, script, init) && Possible(cfg, mem, init)
      && (ByDriver(e) ==>
            var s := After(cfg, mem, init);
            Fits(remote, script(Talk(cfg, script, init).step), s.run, s.data.src, e))
  }

  lemma PlaysMore(cfg: Config, mem: map<nat, int>, remote: bool, script: nat -> Choice, log: seq<Event>, e: Event)
    requires Possible(cfg, mem, log) && Plays(cfg, mem, remote, script, log)
    requires var s := After(cfg, mem, log);
      ByDriver(e) ==> Fits(remote, script(Talk(cfg, script, log).step), s.run, s.data.src, e)
    ensures Plays(cfg, mem, remote, script, log + [e])
    ensures var t := Talk(cfg, script, log);
      Talk(cfg, script, log + [e]) == if ByDriver(e) then Tell(cfg, t, script(t.step), e) else t
  {
    assert (log + [e])[..|log|] == log;
  }

  // ---- what it comes to -----------------------------------------------------------------------

  /** A pre-dump was asked for, and CRIU answered that it was made. */
  predicate MadePreDump(x: Exchanged) {
    x.req.typ == PRE_DUMP && x.answer.Some? && x.answer.value.typ == PRE_DUMP && x.answer.value.success
  }

  function PreDumpsMade(sent: seq<Exchanged>): nat {
    if sent == [] then 0 else
    PreDumpsMade(sent[..|sent| - 1]) + if MadePreDump(sent[|sent| - 1]) then 1 else 0
  }

  /** The pre-dumps of the log that succeeded. */
  function PreDumpsLogged(log: seq<Event>): nat {
    if log == [] then 0 else
    PreDumpsLogged(log[..|log| - 1]) + if log[|log| - 1].PreDump? && log[|log| - 1].ok then 1 else 0
  }

  predicate OfDump(req: Req) {
    req.typ == PRE_DUMP || req.typ == DUMP
  }

  /** The requests for pre-dumps and dumps, in order. */
  function DumpReqs(sent: seq<Exchanged>): seq<Req> {
    if sent == [] then [] else
    DumpReqs(sent[..|sent| - 1]) + if OfDump(sent[|sent| - 1].req) then [sent[|sent| - 1].req] else []
  }

  /** Request `j` of those refers to the directory before its own, if there is one, streams to the
      page server, and asks for notifications if it is the final one. */
  predicate GoodDump(reqs: seq<Req>, j: nat)
    requires j < |reqs|
  {
    && reqs[j].parentImg == (if j == 0 then None else Some(j))
    && reqs[j].pageServer && !reqs[j].keepOpen
    && (reqs[j].typ == PRE_DUMP ==> reqs[j].trackMem && !reqs[j].notifyScripts)
    && (reqs[j].typ == DUMP ==> reqs[j].notifyScripts && j == |reqs| - 1 && (j > 0 ==> reqs[j].trackMem))
  }

  predicate Numbered(sent: seq<Exchanged>) {
    forall k | 0 <= k < |sent| :: sent[k].req.log == k
  }

  lemma SentMore(sent: seq<Exchanged>, x: Exchanged)
    ensures DumpReqs(sent + [x]) == DumpReqs(sent) + if OfDump(x.req) then [x.req] else []
    ensures PreDumpsMade(sent + [x]) == PreDumpsMade(sent) + if MadePreDump(x) then 1 else 0
  {
    assert (sent + [x])[..|sent|] == sent;
  }

  /** Where the run is and what was told so far fit together. */
  predicate Chained(pc: Pc, usePre: bool, dirs: nat, track: bool, reqs: seq<Req>) {
    && (forall j | 0 <= j < |reqs| :: GoodDump(reqs, j))
    && (pc.Prepare? ==> dirs == 0 && reqs == [])
    && (pc.Iterate? || pc.Final? ==>
          && dirs == |reqs| + (if pc == Iterate(AtPreDump) || pc == Final(AtDump) then 1 else 0)
          && (forall j | 0 <= j < |reqs| :: reqs[j].typ == PRE_DUMP)
          && track == usePre && (reqs != [] ==> usePre))
    && (pc == Prepare(AtFsStart) ==> track == usePre)
  }

  lemma ChainedQuiet(s: Run, e: Event, dirs: nat, track: bool, reqs: seq<Req>)
    requires Chained(s.pc, s.usePre, dirs, track, reqs) && ByDriver(e) && !NextPc(s, e).Nowhere?
    requires !e.PreDump? && !e.Dump? && !e.CpuDump? && !e.Track?
    ensures Chained(NextPc(s, e), s.usePre, if e.MakeDir? then dirs + 1 else dirs, track, reqs)
  {
    if s.pc.Prepare? {
      QuietPrepare(s, e);
    } else if s.pc.Iterate? {
      QuietIterate(s, e);
    } else {
      QuietLater(s, e);
    }
  }

  lemma QuietPrepare(s: Run, e: Event)
    requires ByDriver(e) && !NextPc(s, e).Nowhere? && s.pc.Prepare? && !e.Track?
    ensures var pc := NextPc(s, e);
      && !e.MakeDir? && pc != Prepare(AtFsStart) && (pc.Iterate? || pc.Final? ==> s.pc == Prepare(AtFsStart))
      && (pc.Iterate? ==> pc.i.AtIter?) && (pc.Final? ==> pc.d.AtFinalIter?)
  {
  }

  lemma QuietIterate(s: Run, e: Event)
    requires ByDriver(e) && !NextPc(s, e).Nowhere? && s.pc.Iterate? && !e.PreDump?
    ensures var pc := NextPc(s, e);
      && (pc.Iterate? || pc == Final(AtFinalIter) || pc.Stopped?) && !e.Track?
      && (pc == Iterate(AtPreDump) || pc.Stopped? || !e.MakeDir?) && s.pc != Iterate(AtPreDump)
      && (pc == Iterate(AtPreDump) ==> e.MakeDir?)
  {
  }

  lemma QuietLater(s: Run, e: Event)
    requires ByDriver(e) && !NextPc(s, e).Nowhere? && !s.pc.Prepare? && !s.pc.Iterate? && !e.Dump?
    ensures var pc := NextPc(s, e);
      && !pc.Prepare? && !pc.Iterate? && (pc.Final? ==> s.pc.Final? && s.pc != Final(AtDump)) && !e.Track?
      && (pc == Final(AtDump) <==> s.pc == Final(AtFinalMkDir) && e == MakeDir(true)) && !e.PreDump? && !e.CpuDump?
      && (pc.Final? && e.MakeDir? ==> pc == Final(AtDump))
  {
  }

  lemma ProbeWhere(s: Run, e: Event)
    requires (e.CpuDump? || e.Track?) && !NextPc(s, e).Nowhere?
    ensures s.pc.Prepare? && (NextPc(s, e).Prepare? || NextPc(s, e).Stopped?)
    ensures NextPc(s, e) == Prepare(AtFsStart) ==> e.Track?
  {
  }

  lemma MoreDumps(reqs: seq<Req>, req: Req)
    requires forall j | 0 <= j < |reqs| :: GoodDump(reqs, j) && reqs[j].typ == PRE_DUMP
    requires GoodDump(reqs + [req], |reqs|)
    ensures forall j | 0 <= j <= |reqs| :: GoodDump(reqs + [req], j)
  {
    forall j | 0 <= j < |reqs| ensures GoodDump(reqs + [req], j) {
      assert GoodDump(reqs, j) && (reqs + [req])[j] == reqs[j];
    }
  }

  lemma PreDumpWhere(s: Run, e: Event)
    requires e.PreDump? && !NextPc(s, e).Nowhere?
    ensures s.pc == Iterate(AtPreDump) && NextPc(s, e) == if e.ok then Iterate(AtEndIter) else Stopped(false)
  {
  }

  lemma DumpWhere(s: Run, e: Event)
    requires e.Dump? && !NextPc(s, e).Nowhere?
    ensures s.pc == Final(AtDump) && NextPc(s, e) == if e.ok then HandOver(AtFinalEnd) else Stopped(false)
  {
  }

  lemma ChainedPreDump(pc: Pc, dirs: nat, reqs: seq<Req>, log: nat)
    requires Chained(Iterate(AtPreDump), true, dirs, true, reqs) && (pc == Iterate(AtEndIter) || pc == Stopped(false))
    ensures Chained(pc, true, dirs, true, reqs + [PreDumpReq(dirs, true, log)])
  {
    MoreDumps(reqs, PreDumpReq(dirs, true, log));
  }

  lemma ChainedDump(pc: Pc, dirs: nat, track: bool, reqs: seq<Req>, log: nat)
    requires Chained(Final(AtDump), track, dirs, track, reqs) && (pc == HandOver(AtFinalEnd) || pc == Stopped(false))
    ensures Chained(pc, track, dirs, track, reqs + [DumpReq(dirs, track, log)])
    ensures Chained(pc, track, dirs, track, reqs)
  {
    MoreDumps(reqs, DumpReq(dirs, track, log));
  }

  /** The requests for dumps after an event, given those before. */
  function MoreReqs(reqs: seq<Req>, c: Choice, e: Event, dirs: nat, track: bool, log: nat): seq<Req> {
    if e.PreDump? then reqs + [PreDumpReq(dirs, track, log)]
    else if e.Dump? && c.ok then reqs + [DumpReq(dirs, track, log)]
    else reqs
  }

  lemma TellProbe(cfg: Config, c: Choice, e: Event, t: Told)
    requires e.CpuDump? || e.Track?
    ensures DumpReqs(Tell(cfg, t, c, e).sent) == DumpReqs(t.sent)
  {
    var typ := if e.Track? then FEATURE_CHECK else CPUINFO_DUMP;
    SentMore(t.sent, Exchanged(ProbeReq(typ, t.track, |t.sent|), First(Quietly(c.inbox))));
  }

  lemma TellDump(cfg: Config, c: Choice, e: Event, t: Told)
    requires e.PreDump? || e.Dump?
    ensures DumpReqs(Tell(cfg, t, c, e).sent) == MoreReqs(DumpReqs(t.sent), c, e, t.dirs, t.track, |t.sent|)
  {
    if e.PreDump? {
      SentMore(t.sent, Exchanged(PreDumpReq(t.dirs, t.track, |t.sent|), First(Quietly(c.inbox))));
    } else {
      SentMore(t.sent, Exchanged(DumpReq(t.dirs, t.track, |t.sent|), First(c.inbox)));
    }
  }

  lemma TellDumps(cfg: Config, c: Choice, e: Event, t: Told)
    ensures var u := Tell(cfg, t, c, e);
      && u.dirs == (if e.MakeDir? then t.dirs + 1 else t.dirs) && u.track == (if e.Track? then e.on else t.track)
      && DumpReqs(u.sent) == MoreReqs(DumpReqs(t.sent), c, e, t.dirs, t.track, |t.sent|)
  {
    if e.CpuDump? || e.Track? {
      TellProbe(cfg, c, e, t);
    } else if e.PreDump? || e.Dump? {
      TellDump(cfg, c, e, t);
    }
  }

  lemma ChainedNext(s: Run, c: Choice, e: Event, dirs: nat, track: bool, reqs: seq<Req>, log: nat)
    requires Chained(s.pc, s.usePre, dirs, track, reqs) && (s.pc.Iterate? ==> s.usePre)
    requires ByDriver(e) && !NextPc(s, e).Nowhere?
    ensures Chained(NextPc(s, e), if e.Track? then e.on else s.usePre, if e.MakeDir? then dirs + 1 else dirs,
                    if e.Track? then e.on else track, MoreReqs(reqs, c, e, dirs, track, log))
  {
    if e.PreDump? {
      PreDumpWhere(s, e);
      ChainedPreDump(NextPc(s, e), dirs, reqs, log);
    } else if e.Dump? {
      DumpWhere(s, e);
      ChainedDump(NextPc(s, e), dirs, track, reqs, log);
    } else if e.CpuDump? || e.Track? {
      ProbeWhere(s, e);
    } else {
      ChainedQuiet(s, e, dirs, track, reqs);
    }
  }

  lemma ChainedStep(cfg: Config, c: Choice, s: Run, e: Event, t: Told)
    requires Chained(s.pc, s.usePre, t.dirs, t.track, DumpReqs(t.sent)) && LiveLoop.LoopInv(s) && Can(s, e)
    ensures var u, n := if ByDriver(e) then Tell(cfg, t, c, e) else t, NextRun(s, e);
      Chained(n.pc, n.usePre, u.dirs, u.track, DumpReqs(u.sent))
  {
    if ByDriver(e) {
      TellDumps(cfg, c, e, t);
      ChainedNext(s, c, e, t.dirs, t.track, DumpReqs(t.sent), |t.sent|);
    }
  }

  lemma CountStep(cfg: Config, remote: bool, c: Choice, s: Run, src: Images.State, e: Event, t: Told)
    requires ByDriver(e) && Fits(remote, c, s, src, e) && Numbered(t.sent)
    ensures Numbered(Tell(cfg, t, c, e).sent)
    ensures PreDumpsMade(Tell(cfg, t, c, e).sent) == PreDumpsMade(t.sent) + if e.PreDump? && e.ok then 1 else 0
  {
    var quiet := First(Quietly(c.inbox));
    match e
    case CpuDump(_) => SentMore(t.sent, Exchanged(ProbeReq(CPUINFO_DUMP, t.track, |t.sent|), quiet));
    case Track(_) => SentMore(t.sent, Exchanged(ProbeReq(FEATURE_CHECK, t.track, |t.sent|), quiet));
    case PreDump(_, _) => SentMore(t.sent, Exchanged(PreDumpReq(t.dirs, t.track, |t.sent|), quiet));
    case Dump(_, _, _) => SentMore(t.sent, Exchanged(DumpReq(t.dirs, t.track, |t.sent|), First(c.inbox)));
    case _ =>
  }

  /** The requests are numbered; those for dumps, the final one last, form a chain; and exactly the
      successful pre-dumps of the log were answered as such. */
  predicate AskedFor(sent: seq<Exchanged>, log: seq<Event>) {
    && (forall k | 0 <= k < |sent| :: sent[k].req.log == k)
    && (forall j | 0 <= j < |DumpReqs(sent)| :: GoodDump(DumpReqs(sent), j))
    && PreDumpsMade(sent) == PreDumpsLogged(log)
  }

  lemma AskedMore(cfg: Config, remote: bool, c: Choice, s: Run, src: Images.State, e: Event, t: Told, log: seq<Event>)
    requires LiveLoop.LoopInv(s) && Can(s, e) && AskedFor(t.sent, log)
    requires Chained(s.pc, s.usePre, t.dirs, t.track, DumpReqs(t.sent))
    requires ByDriver(e) ==> Fits(remote, c, s, src, e)
    ensures var u, n := if ByDriver(e) then Tell(cfg, t, c, e) else t, NextRun(s, e);
      AskedFor(u.sent, log + [e]) && Chained(n.pc, n.usePre, u.dirs, u.track, DumpReqs(u.sent))
  {
    ChainedStep(cfg, c, s, e, t);
    assert (log + [e])[..|log|] == log;
    if ByDriver(e) {
      assert Numbered(t.sent);
      CountStep(cfg, remote, c, s, src, e, t);
      assert Numbered(Tell(cfg, t, c, e).sent);
    }
  }

  /** What every run asks of CRIU. */
  lemma {:induction false} RequestsMade(cfg: Config, mem: map<nat, int>, remote: bool, script: nat -> Choice,
                                        log: seq<Event>)
    requires Possible(cfg, mem, log) && Plays(cfg, mem, remote, script, log)
    ensures AskedFor(Talk(cfg, script, log).sent, log)
    ensures var s, t := After(cfg, mem, log).run, Talk(cfg, script, log);
      Chained(s.pc, s.usePre, t.dirs, t.track, DumpReqs(t.sent))
  {
    if log != [] {
      var init, e := log[..|log| - 1], log[|log| - 1];
      var t, s := Talk(cfg, script, init), After(cfg, mem, init);
      RequestsMade(cfg, mem, remote, script, init);
      LiveLoop.LoopAlways(cfg, mem, init);
      AskedMore(cfg, remote, script(t.step), s.run, s.data.src, e, t, init);
      assert log == init + [e];
    }
  }
}
