/** Live migration as a state machine: the source driver (phaul/iters.py,
    `__start_live_migration`), the two hosts, and everything around them that may fail. */
module Live {
  import opened Prelude
  import Images
  import Progress
  import opened Target

  /** The process tree on the source host. */
  datatype Tree = Running | Frozen | Terminated

  datatype Config = Config(
    keepImages: bool,
    force: bool,
    skipCpuCheck: bool,
    skipCriuCheck: bool,
    preDump: Option<bool>, // None: auto detect
    finalPageServer: bool) // htype.dump_need_page_server()

  // The statement the driver is about to execute.

  datatype Preparing =
    | AtSetup | AtOptions | AtRemoteOptions
    | AtCpu | AtCpuAccept | AtCpuSend | AtCpuStop | AtCpuCheck | AtVersion | AtVersionCheck
    | AtTrack | AtFsStart

  datatype Iterating = AtIter | AtMkDir | AtPreDump | AtEndIter | AtFsNext | AtStats

  datatype Dumping = AtFinalIter | AtFinalMkDir | AtDump

  datatype HandingOver = AtFinalEnd | AtFsStop | AtAccept | AtSend | AtStopAccept | AtRestore

  datatype CleaningUp = AtFinalStats | AtComplete | AtRestoreTime | AtClose

  datatype Pc =
    | Prepare(p: Preparing)
    | Iterate(i: Iterating)
    | Final(d: Dumping)
    | HandOver(h: HandingOver)
    | AtFail
    | AtAck
    | CleanUp(c: CleaningUp)
    | Stopped(ok: bool) // by returning, or by an exception
    | Nowhere // no such step

  /** Control: the driver, the connections, and who executes. */
  datatype Run = Run(
    cfg: Config,
    pc: Pc,
    force: bool,       // __force
    usePre: bool,      // use_pre_dumps, and track_mem of the source connection
    pages: seq<nat>,   // pages_written of each pre-dump so far
    tree: Tree,
    acked: bool,       // post-dump was acked
    up: bool,          // the rpc connection
    exited: bool,      // the source process is gone
    gone: bool,        // the target has handled the disconnect
    tgt: Svc,
    calls: seq<Call>)  // the rpc trace

  /** Memory and images. */
  datatype Data = Data(
    mem: map<nat, int>,              // the memory of the tree
    dirty: set<nat>,                 // pages written since the last tracked dump
    atFreeze: Option<map<nat, int>>, // the memory when the final dump froze the tree
    src: Images.State,               // the image store of the source
    tgt: Disk)

  datatype Sys = Sys(run: Run, data: Data)

  datatype Probe = Dumped | NotSupported | CannotDump

  datatype AckFate = Acked | AckedNoReply | AckLost

  /** The statements of the driver that involve the hauler, its file systems and local files only. */
  datatype Statement =
    | HaulerOptions | PackCpuinfo | FindVersion | FsStart | FsNext | ReadStats
    | FsStop | PackImages | MigrationFail | FinalStats | HaulerComplete

  datatype Event =
    // steps of the driver
    | Local(what: Statement, ok: bool)
    | Options(ok: bool)
    | Rpc(call: Call, fate: Fate)
    | CpuDump(probe: Probe)
    | Track(on: bool)
    | MakeDir(ok: bool)
    | PreDump(extra: set<nat>, ok: bool)
    | Stats(written: nat)
    | Dump(extra: set<nat>, ok: bool, frozen: bool)
    | Ack(how: AckFate)
    | CloseImages
    // everything else
    | Compute(next: map<nat, int>)
    | Break
    | Disconnect(hookOk: bool, stopped: bool)
    | Exit // of the source process: at its end, or killed anywhere

  /** A call that succeeds. */
  function Answered(call: Target.Call): Event {
    Rpc(call, Served(Returns(true), true))
  }

  function Start(cfg: Config): Run {
    Run(cfg, Prepare(AtSetup), cfg.force, false, [], Running, false, true, false, false, FRESH.svc, [])
  }

  function Init(cfg: Config, mem: map<nat, int>): Sys {
    Sys(Start(cfg), Data(mem, {}, None, Images.FRESH, FRESH.disk))
  }

  // ---- the contract of CRIU ------------------------------------------------------------

  /** Every page without a parent; with one and tracking, at least the pages changed since. */
  function Written(mem: map<nat, int>, dirty: set<nat>, extra: set<nat>, parent: Option<int>, track: bool)
    : map<nat, Images.Entry>
  {
    map p | p in mem ::
      if parent.None? || (track && p in dirty) || p in extra then Images.Data(mem[p]) else Images.InParent
  }

  /** A dump of the tree streams its pages to the page server waiting on the target, if any. */
  function Stream(d: Data, extra: set<nat>, track: bool): Data {
    var clean := d.(dirty := if track then {} else d.dirty);
    match d.tgt.server
    case Some(PageServer(dir, parent)) =>
      if d.tgt.img.None? then clean else
      var pages := Written(d.mem, d.dirty, extra, Images.Prev(d.src), track);
      var img := d.tgt.img.value;
      clean.(tgt := Disk(Some(img.(dirs := img.dirs[dir := Images.Dir(parent, pages)])), None))
    case None => clean
  }

  function Changed(a: map<nat, int>, b: map<nat, int>): set<nat> {
    set p | p in b && (p !in a || a[p] != b[p])
  }

  // ---- one step ----------------------------------------------------------------------------

  function VersionPc(s: Run, force: bool): Pc {
    if s.cfg.skipCriuCheck || force then Prepare(AtTrack) else Prepare(AtVersion)
  }

  function CpuPc(s: Run): Pc {
    if s.cfg.skipCpuCheck || s.force then VersionPc(s, s.force) else Prepare(AtCpu)
  }

  function LoopPc(s: Run): Pc {
    if s.usePre then Iterate(AtIter) else Final(AtFinalIter)
  }

  /** The call `c`, then on to `good` if it returns normally and to `bad` if it raises. */
  function Call(e: Event, c: Call, good: Pc, bad: Pc): Pc {
    if e.Rpc? && e.call == c then (if Succeeds(e.fate) then good else bad) else Nowhere
  }

  /** A check: the answer false raises, too. */
  function Check(e: Event, c: Call, good: Pc): Pc {
    if e.Rpc? && e.call == c then (if Succeeds(e.fate) && e.fate.out.flag then good else Stopped(false)) else Nowhere
  }

  /** A local statement that may raise. */
  function Step(e: Event, what: Statement, good: Pc, bad: Pc): Pc {
    if e.Local? && e.what == what then (if e.ok then good else bad) else Nowhere
  }

  function PrevPages(s: Run): Option<nat> {
    if s.pages == [] then None else Some(s.pages[|s.pages| - 1])
  }

  function PrepareNext(s: Run, p: Preparing, e: Event): Pc {
    match p
    // __init__ and set_options
    case AtSetup => Call(e, Setup(LIVE), Prepare(AtOptions), Stopped(false))
    case AtOptions =>
      if e.Options? then (if e.ok then Prepare(AtRemoteOptions) else Stopped(false))
      else if e == Local(HaulerOptions, false) then Stopped(false) // the hauler or its fs driver rejects them
      else Nowhere
    case AtRemoteOptions => Call(e, SetOptions(s.cfg.keepImages), CpuPc(s), Stopped(false))
    // __validate_cpu
    case AtCpu =>
      if !e.CpuDump? then Nowhere
      else if e.probe.Dumped? then Prepare(AtCpuAccept)
      else if e.probe.NotSupported? then VersionPc(s, true)
      else Stopped(false)
    case AtCpuAccept => Call(e, StartAcceptImages(WDIR), Prepare(AtCpuSend), Stopped(false))
    case AtCpuSend => Step(e, PackCpuinfo, Prepare(AtCpuStop), Stopped(false))
    case AtCpuStop => Call(e, StopAcceptImages, Prepare(AtCpuCheck), Stopped(false))
    case AtCpuCheck => Check(e, CheckCpuinfo, VersionPc(s, s.force))
    // __validate_criu_version
    case AtVersion => Step(e, FindVersion, Prepare(AtVersionCheck), Stopped(false))
    case AtVersionCheck => Check(e, CheckCriuVersion, Prepare(AtTrack))
    // __check_use_pre_dumps, and the preliminary FS migration
    case AtTrack =>
      if e.Track? && (s.cfg.preDump == None || s.cfg.preDump == Some(e.on)) then Prepare(AtFsStart) else Nowhere
    case AtFsStart => Step(e, FsStart, LoopPc(s), Stopped(false))
  }

  function IterateNext(s: Run, i: Iterating, e: Event): Pc {
    match i
    // the pre-dump loop
    case AtIter => Call(e, StartIter(true), Iterate(AtMkDir), Stopped(false))
    case AtMkDir => if e.MakeDir? then (if e.ok then Iterate(AtPreDump) else Stopped(false)) else Nowhere
    case AtPreDump => if e.PreDump? then (if e.ok then Iterate(AtEndIter) else Stopped(false)) else Nowhere
    case AtEndIter => Call(e, EndIter, Iterate(AtFsNext), Stopped(false))
    case AtFsNext => Step(e, FsNext, Iterate(AtStats), Stopped(false))
    case AtStats =>
      if e == Local(ReadStats, false) then Stopped(false) // the statistics cannot be read
      else if !e.Stats? || PrevPages(s) == Some(0) then Nowhere
      else if Progress.CheckLive(|s.pages|, e.written, PrevPages(s)) then Iterate(AtIter)
      else Final(AtFinalIter)
  }

  function FinalNext(s: Run, d: Dumping, e: Event): Pc {
    match d
    // the final dump
    case AtFinalIter => Call(e, StartIter(s.cfg.finalPageServer), Final(AtFinalMkDir), Stopped(false))
    case AtFinalMkDir => if e.MakeDir? then (if e.ok then Final(AtDump) else Stopped(false)) else Nowhere
    case AtDump => if e.Dump? then (if e.ok then HandOver(AtFinalEnd) else Stopped(false)) else Nowhere
  }

  function HandOverNext(h: HandingOver, e: Event): Pc {
    match h
    case AtFinalEnd => Call(e, EndIter, HandOver(AtFsStop), Stopped(false))
    // sync and restore, undone on failure
    case AtFsStop => Step(e, FsStop, HandOver(AtAccept), AtFail)
    case AtAccept => Call(e, StartAcceptImages(IMGDIR), HandOver(AtSend), AtFail)
    case AtSend => Step(e, PackImages, HandOver(AtStopAccept), AtFail)
    case AtStopAccept => Call(e, StopAcceptImages, HandOver(AtRestore), AtFail)
    case AtRestore => Call(e, RestoreFromImages, AtAck, AtFail)
  }

  function CleanUpNext(c: CleaningUp, e: Event): Pc {
    match c
    case AtFinalStats => Step(e, FinalStats, CleanUp(AtComplete), Stopped(true))
    case AtComplete =>
      // a hauler may have no completion call
      if e.Local? then Step(e, HaulerComplete, CleanUp(AtRestoreTime), Stopped(true))
      else Call(e, MigrationComplete, CleanUp(AtRestoreTime), Stopped(true))
    case AtRestoreTime => Call(e, RestoreTime, CleanUp(AtClose), Stopped(true))
    case AtClose => if e.CloseImages? then Stopped(true) else Nowhere
  }

  /** Where the driver goes after event `e`; `Nowhere` if the event cannot happen here. */
  function NextPc(s: Run, e: Event): Pc {
    match s.pc
    case Prepare(p) => PrepareNext(s, p, e)
    case Iterate(i) => IterateNext(s, i, e)
    case Final(d) => FinalNext(s, d, e)
    case HandOver(h) => HandOverNext(h, e)
    case AtFail => Step(e, MigrationFail, Stopped(false), Stopped(false))
    case AtAck => if e.Ack? then (if e.how.Acked? then CleanUp(AtFinalStats) else Stopped(true)) else Nowhere
    case CleanUp(c) => CleanUpNext(c, e)
    case Stopped(_) => Nowhere
    case Nowhere => Nowhere
  }

  /** A call is served only over an intact connection; the target sees a disconnect once. */
  predicate Can(s: Run, e: Event) {
    match e
    case Compute(_) => s.tree.Running?
    case Break => true
    case Disconnect(_, _) => !s.up && !s.gone
    case Exit => !s.exited
    case _ => !s.exited && !NextPc(s, e).Nowhere? && (e.Rpc? && e.fate.Served? ==> s.up)
  }

  predicate ByDriver(e: Event) {
    !e.Compute? && !e.Break? && !e.Disconnect? && !e.Exit?
  }

  /** An un-acked dump thaws when CRIU loses the connection: with the process, or when the ack
      does not get through. */
  function TreeAfter(t: Tree, e: Event): Tree {
    match e
    case Dump(_, ok, frozen) => if ok || frozen then Frozen else Running
    case Ack(how) => if how.AckLost? then Running else Terminated
    case Exit => if t.Frozen? then Running else t
    case _ => t
  }

  function TgtAfter(t: Svc, e: Event): Svc {
    match e
    case Rpc(c, fate) => if fate.Served? then ServeSvc(t, c, fate.out) else t
    case Disconnect(_, stopped) => DisconnectedSvc(t, stopped)
    case _ => t
  }

  predicate StaysUp(up: bool, e: Event) {
    up && !e.Break? && !e.Exit? && (e.Rpc? ==> e.fate.Served? && e.fate.delivered)
  }

  /** The control state after a possible event. */
  function NextRun(s: Run, e: Event): Run
    requires Can(s, e)
  {
    Run(s.cfg,
        if ByDriver(e) then NextPc(s, e) else s.pc,
        s.force || (e.CpuDump? && e.probe.NotSupported?),
        if e.Track? then e.on else s.usePre,
        if e.Stats? then s.pages + [e.written] else s.pages,
        TreeAfter(s.tree, e),
        s.acked || (e.Ack? && !e.how.AckLost?),
        StaysUp(s.up, e),
        s.exited || e.Exit?,
        s.gone || e.Disconnect?,
        TgtAfter(s.tgt, e),
        if e.Rpc? then s.calls + [e.call] else s.calls)
  }

  /** Memory and images after it. */
  function NextData(s: Run, d: Data, e: Event): Data {
    match e
    case Options(ok) => d.(src := Images.Options(d.src, s.cfg.keepImages, ok))
    case Rpc(c, fate) => if fate.Served? then d.(tgt := ServeDisk(d.tgt, c, fate.out)) else d
    case MakeDir(ok) => d.(src := Images.NewDir(d.src, ok))
    case PreDump(extra, ok) => if ok then Stream(d, extra, s.usePre) else d
    case Dump(extra, ok, _) => if ok then Stream(d, extra, s.usePre).(atFreeze := Some(d.mem)) else d
    case CloseImages => d.(src := Images.Closed(d.src))
    case Compute(mem) => d.(mem := mem, dirty := d.dirty + Changed(d.mem, mem))
    case Disconnect(hookOk, _) => d.(tgt := DisconnectedDisk(s.tgt, d.tgt, hookOk))
    case _ => d
  }

  /** The state after a history of events, if it is a possible one. */
  function Exec(s: Sys, log: seq<Event>): Option<Sys> {
    if log == [] then Some(s) else
    match Exec(s, log[..|log| - 1])
    case Some(t) =>
      var e := log[|log| - 1];
      if Can(t.run, e) then Some(Sys(NextRun(t.run, e), NextData(t.run, t.data, e))) else None
    case None => None
  }

  predicate Possible(cfg: Config, mem: map<nat, int>, log: seq<Event>) {
    Exec(Init(cfg, mem), log).Some?
  }

  /** The state reached by a possible history. */
  function After(cfg: Config, mem: map<nat, int>, log: seq<Event>): Sys
    requires Possible(cfg, mem, log)
  {
    Exec(Init(cfg, mem), log).value
  }
}
