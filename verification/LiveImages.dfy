/** Live mode: the image directories of both hosts, and the memory they describe. */
module LiveImages {
  import opened Prelude
  import Images
  import opened Target
  import opened Live
  import LiveSafety
  import LiveTrace

  // ---- directories ----------------------------------------------------------------------------

  ghost predicate Numbered(dirs: map<nat, Images.Dir>, n: nat) {
    forall k: nat :: k in dirs <==> 1 <= k <= n
  }

  /** Between the target making a directory and the source making its own. */
  predicate TargetAhead(pc: Pc) {
    pc == Iterate(AtMkDir) || pc == Final(AtFinalMkDir)
  }

  predicate SetUp(pc: Pc) {
    pc != Prepare(AtSetup) && !pc.Stopped?
  }

  predicate SourceReady(pc: Pc) {
    SetUp(pc) && pc != Prepare(AtOptions)
  }

  predicate TargetReady(pc: Pc) {
    SourceReady(pc) && pc != Prepare(AtRemoteOptions)
  }

  /** The driver has ended by an exception. */
  predicate Raised(pc: Pc) {
    pc == Stopped(false)
  }

  /** What matters here of a state. */
  datatype View = View(
    pc: Pc, usePre: bool, frozen: bool,
    mem: map<nat, int>, dirty: set<nat>, atFreeze: Option<map<nat, int>>,
    src: Images.State,
    index: nat, tgt: Option<Images.State>, server: Option<PageServer>)
  {
    function Iter(): nat {
      if tgt.Some? then tgt.value.iter else 0
    }

    function Current(): Option<nat> {
      if tgt.Some? then tgt.value.current else None
    }

    function Dirs(): map<nat, Images.Dir> {
      if tgt.Some? then tgt.value.dirs else map[]
    }
  }

  function Look(s: Sys): View {
    View(s.run.pc, s.run.usePre, s.run.tree.Frozen?, s.data.mem, s.data.dirty, s.data.atFreeze, s.data.src,
         s.run.tgt.index, s.data.tgt.img, s.data.tgt.server)
  }

  /** Before the first failure directories are exactly 1..n on both hosts, in lockstep; at any time
      the target is at most one ahead, and its iteration index is its image counter. */
  ghost predicate Lockstep(v: View) {
    && v.index == v.Iter()
    && (SetUp(v.pc) ==> v.tgt.Some?)
    && (v.tgt.None? ==> v.src.iter == 0) && (v.pc == Prepare(AtSetup) ==> v.tgt.None?)
    && (SourceReady(v.pc) ==> v.src.ready)
    && (TargetReady(v.pc) ==> v.tgt.value.ready)
    && v.src.iter <= v.Iter() <= v.src.iter + 1
    && (!Raised(v.pc) ==> Level(v))
    && (v.pc.Prepare? ==> v.Iter() == 0 && v.Dirs() == map[] && v.src.dirs == map[] && v.server.None?)
    && (v.server.Some? ==> 1 <= v.server.value.dir <= v.Iter())
  }

  /** The current directory is the last one made. */
  function Last(n: nat): Option<nat> {
    if n == 0 then None else Some(n)
  }

  ghost predicate Level(v: View) {
    && v.Iter() == (if TargetAhead(v.pc) then v.src.iter + 1 else v.src.iter)
    && Numbered(v.src.dirs, v.src.iter) && Numbered(v.Dirs(), v.Iter())
    && v.src.current == Last(v.src.iter) && v.Current() == Last(v.Iter())
  }

  // ---- memory ----------------------------------------------------------------------------------

  function LinkFor(k: nat): Option<int> {
    if k == 1 then None else Some(k - 1)
  }

  /** Every directory up to `n` has the one before it as parent. */
  ghost predicate Chained(dirs: map<nat, Images.Dir>, n: nat) {
    forall k: nat | 1 <= k <= n :: k in dirs && dirs[k].parent == LinkFor(k)
  }

  /** The pages not written since dump `n` are resolved correctly from it. */
  ghost predicate Clean(dirs: map<nat, Images.Dir>, n: nat, mem: map<nat, int>, dirty: set<nat>) {
    forall p | p in mem && p !in dirty :: Images.Value(dirs, n, p) == Some(mem[p])
  }

  /** What a restore from directory `n` sees is exactly the memory `mem`. */
  ghost predicate Exact(dirs: map<nat, Images.Dir>, n: nat, mem: map<nat, int>) {
    Images.Memory(dirs, n) == map p | p in mem :: Some(mem[p])
  }

  /** A page server waits for the next page stream. */
  predicate Awaiting(pc: Pc) {
    pc == Iterate(AtMkDir) || pc == Iterate(AtPreDump) || pc == Final(AtFinalMkDir) || pc == Final(AtDump)
  }

  /** One more dump, with the right parent on both sides, makes the chain exact. */
  lemma DumpIsExact(dirs: map<nat, Images.Dir>, n: nat, mem: map<nat, int>, dirty: set<nat>, extra: set<nat>,
                    track: bool)
    requires n >= 1 && Chained(dirs, n - 1)
    requires n > 1 ==> track && Clean(dirs, n - 1, mem, dirty)
    ensures var after := dirs[n := Images.Dir(LinkFor(n), Written(mem, dirty, extra, LinkFor(n), track))];
      Chained(after, n) && Exact(after, n, mem) && Clean(after, n, mem, {})
  {
    var pages := Written(mem, dirty, extra, LinkFor(n), track);
    var after := dirs[n := Images.Dir(LinkFor(n), pages)];
    forall p | p in mem ensures Images.Value(after, n, p) == Some(mem[p]) {
      if pages[p].InParent? {
        Images.ValueFrame(dirs, after, n - 1, p);
      }
    }
  }

  /** Links lead from any directory of a chain to the first, one step at a time. */
  lemma {:induction false} ChainLength(dirs: map<nat, Images.Dir>, n: nat, k: nat)
    requires Chained(dirs, n) && 1 <= k <= n
    ensures Images.Links(dirs, k) == Some(k - 1)
  {
    if k > 1 {
      ChainLength(dirs, n, k - 1);
    }
  }

  /** The last directory that holds a complete dump. */
  function Dumps(v: View): nat {
    if Awaiting(v.pc) && v.Iter() > 0 then v.Iter() - 1 else v.Iter()
  }

  ghost predicate Precopy(v: View) {
    && (!v.pc.Stopped? ==> Chained(v.Dirs(), Dumps(v)))
    && (Awaiting(v.pc) ==> v.server.Some? && v.server.value.dir == v.Iter())
    && ((v.pc.Iterate? || v.pc.Final?) && Dumps(v) >= 1 ==>
          v.usePre && Clean(v.Dirs(), Dumps(v), v.mem, v.dirty))
    && (v.pc.Prepare? || v.pc.Iterate? || v.pc.Final? ==> v.atFreeze.None?)
    && (v.atFreeze.Some? ==>
          v.Iter() >= 1 && Chained(v.Dirs(), v.Iter()) && Exact(v.Dirs(), v.Iter(), v.atFreeze.value))
    && (v.atFreeze.Some? && v.frozen ==> v.mem == v.atFreeze.value)
  }

  /** Pre-dumps use tracking; from the final dump on the memory at the freeze is known; and a page
      server that waits has the directory before its own as parent. */
  ghost predicate ParentInv(v: View) {
    && (v.pc.Iterate? ==> v.usePre) && (v.pc.Prepare? ==> v.Iter() == 0) && (Awaiting(v.pc) ==> v.Iter() >= 1)
    && (v.pc.Final? && v.src.iter > (if v.pc == Final(AtDump) then 1 else 0) ==> v.usePre)
    && (v.pc.HandOver? || v.pc.AtFail? || v.pc.AtAck? || v.pc.CleanUp? || v.pc == Stopped(true) ==> v.atFreeze.Some?)
    && (v.server.Some? ==> v.server.value.dir >= 1 && v.server.value.parent == LinkFor(v.server.value.dir))
  }

  // ---- the steps -------------------------------------------------------------------------------

  function Then(s: Sys, e: Event): Sys
    requires Can(s.run, e)
  {
    Sys(NextRun(s.run, e), NextData(s.run, s.data, e))
  }

  ghost predicate Inv(v: View, pageServer: bool) {
    Lockstep(v) && ParentInv(v) && (pageServer ==> Precopy(v))
  }

  // Each kind of event: first what it changes of the view, then why the invariant survives.

  /** Nothing about directories, dumps and memory is different, and no page server is awaited. */
  ghost predicate Same(v: View, w: View) {
    && w.Dirs() == v.Dirs() && w.Iter() == v.Iter() && w.server == v.server && w.index == v.index
    && w.mem == v.mem && w.dirty == v.dirty && w.atFreeze == v.atFreeze
    && w.src.iter == v.src.iter && w.src.dirs == v.src.dirs && w.src.current == v.src.current
    && w.Current() == v.Current()
    && (w.frozen ==> v.frozen) && (w.usePre == v.usePre || v.pc.Prepare?)
    && (v.tgt.Some? ==> w.tgt.Some? && (v.tgt.value.ready ==> w.tgt.value.ready || Raised(w.pc)))
    && (v.src.ready ==> w.src.ready)
  }

  /** Where the driver may go in a step that is neither a dump nor the making of a directory. */
  ghost predicate Onward(v: View, w: View) {
    && !Awaiting(v.pc) && !Awaiting(w.pc)
    && (Raised(w.pc) || w.pc == v.pc
        || (v.pc.Prepare? && (w.pc.Prepare? || w.pc == Final(AtFinalIter) || (w.pc == Iterate(AtIter) && w.usePre)))
        || (v.pc.Iterate? && (w.pc.Iterate? || w.pc == Final(AtFinalIter)))
        || (v.pc.HandOver? && (w.pc.HandOver? || w.pc.AtFail? || w.pc.AtAck?))
        || ((v.pc.AtAck? || v.pc.CleanUp?) && (w.pc.CleanUp? || w.pc == Stopped(true))))
    && (SetUp(w.pc) && v.pc == Prepare(AtSetup) ==> w.tgt.Some?)
    && (SourceReady(w.pc) && v.pc == Prepare(AtOptions) ==> w.src.ready)
    && (TargetReady(w.pc) && v.pc == Prepare(AtRemoteOptions) ==> w.tgt.Some? && w.tgt.value.ready)
    && (SourceReady(w.pc) ==> v.pc != Prepare(AtSetup)) && (w.pc == Prepare(AtSetup) ==> v.pc == w.pc && w.tgt == v.tgt)
    && (TargetReady(w.pc) ==> TargetReady(v.pc) || v.pc == Prepare(AtRemoteOptions))
    && (v.pc.Stopped? ==> w.pc.Stopped?)
  }

  lemma InvSame(v: View, w: View, pageServer: bool)
    requires Inv(v, pageServer) && Same(v, w) && Onward(v, w)
    ensures Inv(w, pageServer)
  {
  }

  predicate Quiet(e: Event) {
    ByDriver(e) && !e.MakeDir? && !e.PreDump? && !e.Dump? && (e.Rpc? ==> !e.call.StartIter?)
  }

  lemma SetUpWhere(s: Run, e: Event)
    requires e.Rpc? && e.call.Setup? && !NextPc(s, e).Nowhere?
    ensures s.pc == Prepare(AtSetup) && (NextPc(s, e) == Prepare(AtOptions) || Raised(NextPc(s, e)))
  {
  }

  lemma SameSetUp(s: Sys, e: Event)
    requires Can(s.run, e) && e.Rpc? && e.call.Setup? && s.run.pc == Prepare(AtSetup) && Lockstep(Look(s))
    ensures Same(Look(s), Look(Then(s, e)))
  {
  }

  lemma SameOptions(s: Sys, e: Event)
    requires Can(s.run, e) && Quiet(e) && Lockstep(Look(s)) && e.Rpc? && e.call.SetOptions?
    ensures Same(Look(s), Look(Then(s, e)))
  {
  }

  lemma SameCall(s: Sys, e: Event)
    requires Can(s.run, e) && Quiet(e) && Lockstep(Look(s)) && e.Rpc? && !e.call.Setup? && !e.call.SetOptions?
    ensures Same(Look(s), Look(Then(s, e)))
  {
  }

  lemma SameImages(s: Sys, e: Event)
    requires Can(s.run, e) && Quiet(e) && Lockstep(Look(s)) && (e.Options? || e.CloseImages?)
    ensures Same(Look(s), Look(Then(s, e)))
  {
  }

  lemma SameLocal(s: Sys, e: Event)
    requires Can(s.run, e) && Quiet(e) && Lockstep(Look(s)) && !e.Rpc? && !e.Options? && !e.CloseImages?
    ensures Same(Look(s), Look(Then(s, e)))
  {
  }

  lemma OnwardPrepare(s: Sys, e: Event)
    requires Can(s.run, e) && Quiet(e) && Lockstep(Look(s)) && s.run.pc.Prepare? && !e.Rpc?
    ensures Onward(Look(s), Look(Then(s, e)))
  {
  }

  lemma OnwardSetUp(s: Sys, e: Event)
    requires Can(s.run, e) && Quiet(e) && Lockstep(Look(s)) && e.Rpc? && s.run.pc == Prepare(AtSetup)
    ensures Onward(Look(s), Look(Then(s, e)))
  {
  }

  lemma OnwardOptions(s: Sys, e: Event)
    requires Can(s.run, e) && Quiet(e) && Lockstep(Look(s)) && e.Rpc? && s.run.pc == Prepare(AtRemoteOptions)
    ensures Onward(Look(s), Look(Then(s, e)))
  {
  }

  lemma OnwardCheck(s: Sys, e: Event)
    requires Can(s.run, e) && Quiet(e) && Lockstep(Look(s)) && e.Rpc? && s.run.pc.Prepare?
    requires s.run.pc != Prepare(AtSetup) && s.run.pc != Prepare(AtRemoteOptions)
    ensures Onward(Look(s), Look(Then(s, e)))
  {
  }

  lemma OnwardIterate(s: Sys, e: Event)
    requires Can(s.run, e) && Quiet(e) && Lockstep(Look(s)) && s.run.pc.Iterate?
    ensures Onward(Look(s), Look(Then(s, e)))
  {
  }

  lemma OnwardHandOver(s: Sys, e: Event)
    requires Can(s.run, e) && Quiet(e) && Lockstep(Look(s)) && s.run.pc.HandOver?
    ensures Onward(Look(s), Look(Then(s, e)))
  {
  }

  lemma OnwardCleanUp(s: Sys, e: Event)
    requires Can(s.run, e) && Quiet(e) && Lockstep(Look(s)) && s.run.pc.CleanUp?
    ensures Onward(Look(s), Look(Then(s, e)))
  {
  }

  lemma OnwardEnd(s: Sys, e: Event)
    requires Can(s.run, e) && Quiet(e) && Lockstep(Look(s))
    requires s.run.pc.AtFail? || s.run.pc.AtAck? || s.run.pc.Stopped?
    ensures Onward(Look(s), Look(Then(s, e)))
  {
  }

  lemma OnwardStep(s: Sys, e: Event)
    requires Can(s.run, e) && Quiet(e) && Lockstep(Look(s))
    ensures Onward(Look(s), Look(Then(s, e)))
  {
    match s.run.pc
    case Prepare(p) =>
      if !e.Rpc? {
        OnwardPrepare(s, e);
      } else if p.AtSetup? {
        OnwardSetUp(s, e);
      } else if p.AtRemoteOptions? {
        OnwardOptions(s, e);
      } else {
        OnwardCheck(s, e);
      }
    case Iterate(_) => OnwardIterate(s, e);
    case Final(_) => assert false;
    case HandOver(_) => OnwardHandOver(s, e);
    case CleanUp(_) => OnwardCleanUp(s, e);
    case _ => OnwardEnd(s, e);
  }

  /** Where a directory is asked for, and where that leads. */
  lemma StartsWhere(s: Run, e: Event)
    requires e.Rpc? && e.call.StartIter? && !NextPc(s, e).Nowhere?
    ensures s.pc == Iterate(AtIter) || (s.pc == Final(AtFinalIter) && e.call.needPageServer == s.cfg.finalPageServer)
    ensures s.pc.Iterate? ==> e.call.needPageServer
    ensures NextPc(s, e) == if !Succeeds(e.fate) then Stopped(false)
                            else if s.pc.Iterate? then Iterate(AtMkDir) else Final(AtFinalMkDir)
  {
  }

  lemma CallToStart(s: Sys, e: Event) returns (out: Option<Outcome>)
    requires Can(s.run, e) && e.Rpc? && e.call.StartIter? && Lockstep(Look(s))
    ensures var v, w := Look(s), Look(Then(s, e));
      && (v.pc == Iterate(AtIter) || v.pc == Final(AtFinalIter))
      && (Raised(w.pc) || w.pc == if v.pc.Iterate? then Iterate(AtMkDir) else Final(AtFinalMkDir))
      && (s.run.cfg.finalPageServer ==> e.call.needPageServer)
      && (out.None? ==> w == v.(pc := Stopped(false)))
      && (out.Some? ==> Raised(w.pc) || out.value.Returns?)
      && (out.Some? ==> w == StartedView(v, e.call.needPageServer, out.value).(pc := w.pc))
  {
    StartsWhere(s.run, e);
    out := if e.fate.Served? then Some(e.fate.out) else None;
    if out.Some? { CallServed(s, e); } else { CallLost(s, e); }
  }

  lemma CallLost(s: Sys, e: Event)
    requires Can(s.run, e) && e.Rpc? && !e.fate.Served?
    ensures Look(Then(s, e)) == Look(s).(pc := NextPc(s.run, e))
  {
  }

  lemma CallServed(s: Sys, e: Event)
    requires Can(s.run, e) && e.Rpc? && e.call.StartIter? && e.fate.Served? && Lockstep(Look(s))
    ensures var v, w := Look(s), Look(Then(s, e));
      v.tgt.Some? && w == StartedView(v, e.call.needPageServer, e.fate.out).(pc := w.pc)
  {
  }

  function StartedView(v: View, need: bool, out: Outcome): View
    requires v.tgt.Some?
  {
    var img := Images.NewDir(v.tgt.value, out != Raises(0));
    v.(index := v.index + 1, tgt := Some(img),
       server := if need && out.Returns? then Some(PageServer(img.iter, Images.Prev(img))) else v.server)
  }

  /** The target has made the next directory and waits for its pages. */
  predicate Started(v: View, w: View, need: bool, out: Outcome)
    requires v.tgt.Some?
  {
    && (v.pc == Iterate(AtIter) || v.pc == Final(AtFinalIter))
    && w == StartedView(v, need, out).(pc := w.pc)
    && (Raised(w.pc) || (out.Returns? && w.pc == if v.pc.Iterate? then Iterate(AtMkDir) else Final(AtFinalMkDir)))
  }

  lemma StartedLockstep(v: View, w: View, need: bool, out: Outcome)
    requires Lockstep(v) && ParentInv(v) && v.tgt.Some? && Started(v, w, need, out)
    ensures Lockstep(w) && ParentInv(w)
  {
  }

  lemma StartedPrecopy(v: View, w: View, out: Outcome)
    requires Inv(v, true) && v.tgt.Some? && Started(v, w, true, out)
    ensures Precopy(w)
  {
    var t := v.Iter();
    if v.atFreeze.None? && t >= 1 && !Raised(w.pc) {
      forall p | p in v.mem && p !in v.dirty ensures Images.Value(w.Dirs(), t, p) == Some(v.mem[p]) {
        Images.ValueFrame(v.Dirs(), w.Dirs(), t, p);
      }
    }
  }

  lemma InvStarted(v: View, w: View, need: bool, out: Outcome, pageServer: bool)
    requires Inv(v, pageServer) && v.tgt.Some? && Started(v, w, need, out) && (pageServer ==> need)
    ensures Inv(w, pageServer)
  {
    StartedLockstep(v, w, need, out);
    if pageServer { StartedPrecopy(v, w, out); }
  }

  lemma MkDirWhere(s: Run, e: Event)
    requires e.MakeDir? && !NextPc(s, e).Nowhere?
    ensures TargetAhead(s.pc)
    ensures NextPc(s, e) == if !e.ok then Stopped(false)
                            else if s.pc.Iterate? then Iterate(AtPreDump) else Final(AtDump)
  {
  }

  lemma MkDirEvent(s: Sys, e: Event)
    requires Can(s.run, e) && e.MakeDir?
    ensures Look(Then(s, e)) == Look(s).(pc := NextPc(s.run, e), src := Images.NewDir(s.data.src, e.ok))
  {
  }

  lemma InvMade(v: View, w: View, ok: bool, pageServer: bool)
    requires Inv(v, pageServer) && TargetAhead(v.pc)
    requires w == v.(pc := w.pc, src := Images.NewDir(v.src, ok))
    requires w.pc == if !ok then Stopped(false) else if v.pc.Iterate? then Iterate(AtPreDump) else Final(AtDump)
    ensures Inv(w, pageServer)
  {
  }

  lemma MkDirStep(s: Sys, e: Event, pageServer: bool)
    requires Can(s.run, e) && e.MakeDir? && Inv(Look(s), pageServer)
    ensures Inv(Look(Then(s, e)), pageServer)
  {
    MkDirWhere(s.run, e);
    MkDirEvent(s, e);
    InvMade(Look(s), Look(Then(s, e)), e.ok, pageServer);
  }

  predicate DumpShown(s: Sys, e: Event)
    requires Can(s.run, e) && (e.PreDump? || e.Dump?) && Look(s).tgt.Some?
  {
    var v, w := Look(s), Look(Then(s, e));
    && (v.pc == if e.PreDump? then Iterate(AtPreDump) else Final(AtDump))
    && (!e.ok ==> Raised(w.pc) && w.(pc := v.pc, frozen := v.frozen) == v)
    && (e.ok ==> w == DumpedView(v, e))
  }

  lemma DumpWhere(s: Run, e: Event)
    requires (e.PreDump? || e.Dump?) && !NextPc(s, e).Nowhere?
    ensures s.pc == if e.PreDump? then Iterate(AtPreDump) else Final(AtDump)
    ensures NextPc(s, e) == if !e.ok then Stopped(false)
                            else if e.PreDump? then Iterate(AtEndIter) else HandOver(AtFinalEnd)
  {
  }

  lemma PreDumpEvent(s: Sys, e: Event)
    requires Can(s.run, e) && e.PreDump? && s.run.pc == Iterate(AtPreDump) && Look(s).tgt.Some?
    ensures DumpShown(s, e)
  {
  }

  lemma FinalDumpEvent(s: Sys, e: Event)
    requires Can(s.run, e) && e.Dump? && s.run.pc == Final(AtDump) && Look(s).tgt.Some?
    ensures DumpShown(s, e)
  {
  }

  lemma DumpEvent(s: Sys, e: Event)
    requires Can(s.run, e) && (e.PreDump? || e.Dump?) && Lockstep(Look(s))
    ensures Look(s).tgt.Some? && DumpShown(s, e)
  {
    DumpWhere(s.run, e);
    if e.PreDump? { PreDumpEvent(s, e); } else { FinalDumpEvent(s, e); }
  }

  function DumpedView(v: View, e: Event): View
    requires v.tgt.Some? && (e.PreDump? || e.Dump?)
  {
    var img := v.tgt.value;
    var pages := Written(v.mem, v.dirty, e.extra, Images.Prev(v.src), v.usePre);
    v.(pc := if e.PreDump? then Iterate(AtEndIter) else HandOver(AtFinalEnd),
       frozen := if e.Dump? then true else v.frozen,
       dirty := if v.usePre then {} else v.dirty,
       atFreeze := if e.Dump? then Some(v.mem) else v.atFreeze,
       tgt := if v.server.None? then v.tgt
              else Some(img.(dirs := img.dirs[v.server.value.dir := Images.Dir(v.server.value.parent, pages)])),
       server := None)
  }

  lemma InvDumped(v: View, e: Event, pageServer: bool)
    requires Inv(v, pageServer) && (e.PreDump? || e.Dump?)
    requires v.pc == if e.PreDump? then Iterate(AtPreDump) else Final(AtDump)
    ensures Inv(DumpedView(v, e), pageServer)
  {
    if pageServer {
      DumpIsExact(v.Dirs(), v.Iter(), v.mem, v.dirty, e.extra, v.usePre);
    }
  }

  lemma AroundCompute(s: Sys, e: Event, pageServer: bool)
    requires Can(s.run, e) && Inv(Look(s), pageServer) && e.Compute?
    ensures Inv(Look(Then(s, e)), pageServer)
  {
  }

  lemma DisconnectEvent(s: Sys, e: Event)
    requires Can(s.run, e) && e.Disconnect?
    ensures var v, w := Look(s), Look(Then(s, e));
      && w == v.(tgt := w.tgt) && (w.tgt.Some? <==> v.tgt.Some?)
      && (v.tgt.Some? ==> w.tgt.value == v.tgt.value.(keep := w.tgt.value.keep, removed := w.tgt.value.removed))
  {
  }

  lemma InvDisconnected(v: View, w: View, pageServer: bool)
    requires Inv(v, pageServer) && w == v.(tgt := w.tgt) && (w.tgt.Some? <==> v.tgt.Some?)
    requires v.tgt.Some? ==> w.tgt.value == v.tgt.value.(keep := w.tgt.value.keep, removed := w.tgt.value.removed)
    ensures Inv(w, pageServer)
  {
  }

  lemma AroundEnd(s: Sys, e: Event, pageServer: bool)
    requires Can(s.run, e) && Inv(Look(s), pageServer) && (e.Break? || e.Exit?)
    ensures Inv(Look(Then(s, e)), pageServer)
  {
  }

  lemma Around(s: Sys, e: Event, pageServer: bool)
    requires Can(s.run, e) && !ByDriver(e) && Inv(Look(s), pageServer)
    ensures Inv(Look(Then(s, e)), pageServer)
  {
    if e.Compute? {
      AroundCompute(s, e, pageServer);
    } else if e.Disconnect? {
      DisconnectEvent(s, e);
      InvDisconnected(Look(s), Look(Then(s, e)), pageServer);
    } else {
      AroundEnd(s, e, pageServer);
    }
  }

  lemma DumpStep(s: Sys, e: Event, pageServer: bool)
    requires Can(s.run, e) && (e.PreDump? || e.Dump?) && Inv(Look(s), pageServer)
    ensures Inv(Look(Then(s, e)), pageServer)
  {
    var v, w := Look(s), Look(Then(s, e));
    DumpEvent(s, e);
    if e.ok {
      InvDumped(v, e, pageServer);
    } else {
      InvFailed(v, w, pageServer);
    }
  }

  lemma InvFailed(v: View, w: View, pageServer: bool)
    requires Inv(v, pageServer) && (v.pc.Iterate? || v.pc.Final?)
    requires Raised(w.pc) && w.(pc := v.pc, frozen := v.frozen) == v
    ensures Inv(w, pageServer)
  {
  }

  lemma StartStep(s: Sys, e: Event)
    requires Can(s.run, e) && e.Rpc? && e.call.StartIter? && Inv(Look(s), s.run.cfg.finalPageServer)
    ensures Inv(Look(Then(s, e)), s.run.cfg.finalPageServer)
  {
    var v, w := Look(s), Look(Then(s, e));
    var out := CallToStart(s, e);
    if out.Some? {
      InvStarted(v, w, e.call.needPageServer, out.value, s.run.cfg.finalPageServer);
    } else {
      InvFailed(v, w, s.run.cfg.finalPageServer);
    }
  }

  lemma QuietStep(s: Sys, e: Event, pageServer: bool)
    requires Can(s.run, e) && Quiet(e) && Inv(Look(s), pageServer)
    ensures Inv(Look(Then(s, e)), pageServer)
  {
    var v, w := Look(s), Look(Then(s, e));
    if e.Options? || e.CloseImages? {
      SameImages(s, e);
    } else if !e.Rpc? {
      SameLocal(s, e);
    } else if e.call.Setup? {
      SetUpWhere(s.run, e);
      SameSetUp(s, e);
    } else if e.call.SetOptions? {
      SameOptions(s, e);
    } else {
      SameCall(s, e);
    }
    OnwardStep(s, e);
    InvSame(v, w, pageServer);
  }

  lemma InvStep(s: Sys, e: Event)
    requires Can(s.run, e) && Inv(Look(s), s.run.cfg.finalPageServer)
    ensures Inv(Look(Then(s, e)), s.run.cfg.finalPageServer)
  {
    var ps := s.run.cfg.finalPageServer;
    if !ByDriver(e) {
      Around(s, e, ps);
    } else if e.MakeDir? {
      MkDirStep(s, e, ps);
    } else if e.PreDump? || e.Dump? {
      DumpStep(s, e, ps);
    } else if e.Rpc? && e.call.StartIter? {
      StartStep(s, e);
    } else {
      QuietStep(s, e, ps);
    }
  }

  lemma {:induction false} InvAlways(cfg: Config, mem: map<nat, int>, log: seq<Event>)
    requires Possible(cfg, mem, log)
    ensures Inv(Look(After(cfg, mem, log)), cfg.finalPageServer) && After(cfg, mem, log).run.cfg == cfg
  {
    if log != [] {
      InvAlways(cfg, mem, log[..|log| - 1]);
      InvStep(After(cfg, mem, log[..|log| - 1]), log[|log| - 1]);
    }
  }

  /** In every reachable state the target's iteration index is its image counter and exceeds the
      source's by 0 or 1; at `end_iter` they agree. Unless the driver has raised, the directories of
      both hosts are exactly 1..n, and the last one is the current one. */
  lemma DirectoriesInLockstep(cfg: Config, mem: map<nat, int>, log: seq<Event>)
    requires Possible(cfg, mem, log)
    ensures var s := After(cfg, mem, log);
      var src, tgt := s.data.src, Look(s).Iter();
      && s.run.tgt.index == tgt && src.iter <= tgt <= src.iter + 1
      && (s.run.pc == Iterate(AtEndIter) || s.run.pc == HandOver(AtFinalEnd) ==> src.iter == tgt)
      && (!Raised(s.run.pc) ==> Numbered(src.dirs, src.iter) && Numbered(Look(s).Dirs(), tgt))
      && (!Raised(s.run.pc) && tgt > 0 ==> s.data.tgt.img.Some? && s.data.tgt.img.value.current == Some(tgt))
      && (!Raised(s.run.pc) && src.iter > 0 ==> src.current == Some(src.iter))
  {
    InvAlways(cfg, mem, log);
  }

  /** Pre-copy is exact: whatever was written between however many pre-dumps, the memory the target
      resolves through the parent links of its last directory is the memory the final dump froze;
      the links lead to directory 1 in n - 1 steps. */
  lemma PrecopyIsExact(cfg: Config, mem: map<nat, int>, log: seq<Event>)
    requires Possible(cfg, mem, log) && cfg.finalPageServer
    requires After(cfg, mem, log).data.atFreeze.Some?
    ensures var s := After(cfg, mem, log);
      var dirs, n := Look(s).Dirs(), Look(s).Iter();
      && n >= 1 && Exact(dirs, n, s.data.atFreeze.value) && Images.Links(dirs, n) == Some(n - 1)
      && (s.run.tree.Frozen? ==> Exact(dirs, n, s.data.mem))
  {
    InvAlways(cfg, mem, log);
    var s := After(cfg, mem, log);
    ChainLength(Look(s).Dirs(), Look(s).Iter(), Look(s).Iter());
  }

  /** The final dump happened in every run in which the target was asked to restore. */
  lemma RestoreFollowsDump(cfg: Config, mem: map<nat, int>, log: seq<Event>)
    requires Possible(cfg, mem, log)
    ensures var pc := After(cfg, mem, log).run.pc;
      pc == HandOver(AtRestore) || pc.AtAck? || pc.CleanUp? || pc == Stopped(true) ==>
        After(cfg, mem, log).data.atFreeze.Some?
  {
    InvAlways(cfg, mem, log);
  }

  /** A request with a parent is sent only under memory tracking, its parent is the directory before,
      which exists, and the counter is never asked before the first. */
  lemma ParentNeedsTracking(cfg: Config, mem: map<nat, int>, log: seq<Event>)
    requires Possible(cfg, mem, log)
    ensures var s := After(cfg, mem, log);
      s.run.pc == Iterate(AtPreDump) || s.run.pc == Final(AtDump) ==>
        && s.data.src.iter >= 1 && (Images.Prev(s.data.src).Some? <==> s.data.src.iter > 1)
        && (s.data.src.iter > 1 ==>
             && s.run.usePre && Images.Prev(s.data.src) == Some(s.data.src.iter - 1)
             && s.data.src.iter - 1 in s.data.src.dirs)
  {
    InvAlways(cfg, mem, log);
  }

  /** A page server that waits on the target was given no parent for directory 1 and otherwise the
      directory before, which is there unless the driver has raised. */
  lemma ServerHasParent(cfg: Config, mem: map<nat, int>, log: seq<Event>)
    requires Possible(cfg, mem, log)
    ensures var v := Look(After(cfg, mem, log));
      v.server.Some? ==>
        var dir := v.server.value.dir;
        && 1 <= dir <= v.Iter() && v.server.value.parent == (if dir == 1 then None else Some(dir - 1))
        && (!Raised(v.pc) ==> dir in v.Dirs() && (dir > 1 ==> dir - 1 in v.Dirs()))
  {
    InvAlways(cfg, mem, log);
  }

  /** Nothing is lost: if the source tree was terminated, the target has restored, and its page
      images hold exactly the memory at the freeze; the rest of its images is there if and only if
      the archive with them was unpacked. No assumption on replies, failures or writes. */
  lemma NothingLost(cfg: Config, mem: map<nat, int>, log: seq<Event>)
    requires Possible(cfg, mem, log) && cfg.finalPageServer
    ensures var s := After(cfg, mem, log);
      s.run.tree.Terminated? ==>
        && s.run.tgt.restored && s.run.tgt.running
        && s.data.atFreeze.Some? && Exact(Look(s).Dirs(), Look(s).Iter(), s.data.atFreeze.value)
        && s.run.tgt.complete == LiveTrace.ImagesUnpacked(log)
  {
    LiveSafety.TreeAlways(cfg, mem, log);
    LiveTrace.CompleteIffUnpacked(cfg, mem, log);
    InvAlways(cfg, mem, log);
  }
}
