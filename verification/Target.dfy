/** The target side of a migration (phaul/service.py, `phaul_service`). */
module Target {
  import opened Prelude
  import Images
  import opened CriuSession

  datatype Mode = LIVE | RESTART

  datatype Store = WDIR | IMGDIR

  datatype Call =
    | Setup(mode: Mode)
    | SetOptions(keepImages: bool)
    | StartIter(needPageServer: bool)
    | EndIter
    | StartAcceptImages(store: Store)
    | StopAcceptImages
    | CheckCpuinfo
    | CheckCriuVersion
    | RestoreFromImages
    | RestoreTime
    | StartHtype
    | MigrationComplete

  /** How the body of a call ended: with a (boolean) value, or with an exception at some step. */
  datatype Outcome = Returns(flag: bool) | Raises(step: nat)

  /** What becomes of a call. `Lost`: the connection broke before the target saw the call. */
  datatype Fate = Lost | Served(out: Outcome, delivered: bool)

  /** The caller sees the call return normally. */
  predicate Succeeds(f: Fate) {
    f.Served? && f.out.Returns? && f.delivered
  }

  /** What the caller sees of a call. */
  function Reply(fate: Fate): Result<bool> {
    if Succeeds(fate) then Success(fate.out.flag) else Failure
  }

  /** A fate with this reply; any failed call will do for a failure. */
  function FateOf(r: Result<bool>): Fate {
    if r.Success? then Served(Returns(r.value), true) else Lost
  }

  /** A page server that will store the next page stream: directory and parent link. */
  datatype PageServer = PageServer(dir: nat, parent: Option<int>)

  /** The fields of the service itself. */
  datatype Svc = Svc(
    mode: Mode,
    htype: bool,
    images: bool,           // an image store exists,
    ready: bool,            // its options are set,
    current: bool,          // and it has a current directory
    criu: bool,             // a criu connection exists and is open
    busy: bool,             // a notification on it is waiting for an ack
    index: nat,             // dump_iter_index
    restored: bool,
    running: bool,          // the migrated tree executes on this host
    accepting: bool,        // an untar thread was started
    complete: bool)         // the last archive was unpacked without error

  /** Its image store, and the page server that will fill the next directory. */
  datatype Disk = Disk(img: Option<Images.State>, server: Option<PageServer>)

  datatype State = State(svc: Svc, disk: Disk)

  const FRESH := State(Svc(LIVE, false, false, false, false, false, false, 0, false, false, false, false),
                       Disk(None, None))

  /** Everything the body of the call uses has been created. */
  predicate Ready(t: Svc, c: Call) {
    match c
    case Setup(_) => true
    case SetOptions(_) => t.htype
    case StartIter(need) => t.images && t.ready && (need ==> t.criu && !t.busy)
    case EndIter => true
    case StartAcceptImages(store) => t.images && if store == WDIR then t.ready else t.current
    case StopAcceptImages => t.images && t.accepting
    case CheckCpuinfo => t.images && t.ready && t.criu && !t.busy
    case CheckCriuVersion => true
    case RestoreFromImages => t.htype && t.images && t.current && t.criu && !t.busy
    case RestoreTime => t.images && t.ready
    case StartHtype => t.htype
    case MigrationComplete => t.htype
  }

  // The steps of a call that can raise:
  // Setup: the hauler (0), its fs receiver (1), the criu connection (2);
  // SetOptions: the hauler (0), the image store (1);
  // StartIter: the directory (0), the page server (1);
  // RestoreFromImages: before anything runs (0), the same in the middle of a notification (1),
  // a hook after the tree is up (2); StartHtype: nothing runs (0), or the tree does (2).

  function ServeSvc(t: Svc, c: Call, out: Outcome): Svc {
    var ok := out.Returns?;
    var store := MakesStore(c, out);
    var starts := c.RestoreFromImages? || c.StartHtype?;
    Svc(if c.Setup? then c.mode else t.mode,
        t.htype || (c.Setup? && out != Raises(0)),
        t.images || store,
        if store then false else t.ready || (c.SetOptions? && ok && t.images),
        if store then false else t.current || (c.StartIter? && t.images && t.ready && out != Raises(0)),
        t.criu || (store && ok),
        if store && ok then false else t.busy || (c.RestoreFromImages? && out == Raises(1)),
        if c.StartIter? then t.index + 1 else t.index,
        t.restored || (starts && ok),
        t.running || (starts && (ok || out == Raises(2))),
        t.accepting || (c.StartAcceptImages? && ok),
        if c.StopAcceptImages? && ok then out.flag else t.complete)
  }

  predicate MakesStore(c: Call, out: Outcome) {
    c.Setup? && c.mode == LIVE && out != Raises(0) && out != Raises(1)
  }

  function ServeDisk(d: Disk, c: Call, out: Outcome): Disk {
    if MakesStore(c, out) then Disk(Some(Images.FRESH), d.server)
    else if d.img.None? then d
    else if c.SetOptions? && out != Raises(0) then
      d.(img := Some(Images.Options(d.img.value, c.keepImages, out.Returns?)))
    else if c.StartIter? then
      var img := Images.NewDir(d.img.value, out != Raises(0));
      Disk(Some(img),
           if c.needPageServer && out.Returns? then Some(PageServer(img.iter, Images.Prev(img))) else d.server)
    else d
  }

  /** The state after the body of a call ran to the given outcome. */
  function Serve(t: State, c: Call, out: Outcome): State {
    State(ServeSvc(t.svc, c, out), ServeDisk(t.disk, c, out))
  }

  // `on_disconnect`; the hauler's umount or stop may raise and cut it short. Whether a stop took
  // effect is another matter: the hauler need not look at its status.

  function DisconnectedSvc(t: Svc, stopped: bool): Svc {
    t.(criu := false, running := t.running && !(t.htype && !t.restored && t.mode == RESTART && stopped))
  }

  function DisconnectedDisk(t: Svc, d: Disk, hookOk: bool): Disk {
    if d.img.None? || (t.htype && !t.restored && !hookOk) then d
    else d.(img := Some(Images.Closed(if t.restored then d.img.value else d.img.value.(keep := true))))
  }

  // ---- the same said field by field --------------------------------------------------------------

  /** What each call does to the service, and that it does nothing else. */
  lemma ServeMeans(t: Svc, c: Call, out: Outcome)
    ensures var u := ServeSvc(t, c, out);
      && u.index == (if c.StartIter? then t.index + 1 else t.index)
      && (u.restored <==> t.restored || ((c.RestoreFromImages? || c.StartHtype?) && out.Returns?))
      && (u.running <==> t.running || ((c.RestoreFromImages? || c.StartHtype?) && (out.Returns? || out == Raises(2))))
      && (u.complete != t.complete ==> c.StopAcceptImages? && out == Returns(u.complete))
      && (c.StopAcceptImages? && out.Returns? ==> u.complete == out.flag)
      && (u.accepting <==> t.accepting || (c.StartAcceptImages? && out.Returns?))
      && (u.mode == if c.Setup? then c.mode else t.mode)
      && (u.htype <==> t.htype || (c.Setup? && out != Raises(0)))
      && (!c.Setup? ==> u.images == t.images && u.criu == t.criu)
      && (c == Setup(LIVE) && out.Returns? ==> u.images && u.criu && !u.busy && !u.ready && !u.current)
      && (c == Setup(RESTART) ==> u.images == t.images && u.criu == t.criu)
  {
  }

  /** What the calls that touch the image store do to it. */
  lemma ServeImagesMeans(d: Disk, c: Call, out: Outcome)
    ensures var u := ServeDisk(d, c, out);
      && (c == Setup(LIVE) && out.Returns? ==> u.img == Some(Images.FRESH))
      && (d.img.Some? && c.SetOptions? && out.Returns? ==>
            u.img == Some(d.img.value.(keep := c.keepImages, ready := true)))
      && (d.img.Some? && c.StartIter? ==> u.img.Some? && u.img.value.iter == d.img.value.iter + 1)
      && (!c.Setup? && !c.SetOptions? && !c.StartIter? ==> u == d)
  {
  }

  /** A disconnect closes the connection to CRIU; it removes the images of a restored tree unless they
      are to be kept, keeps those of any other, and does neither if the hook cuts it short. */
  lemma DisconnectMeans(t: Svc, d: Disk, hookOk: bool, stopped: bool)
    ensures var u, e := DisconnectedSvc(t, stopped), DisconnectedDisk(t, d, hookOk);
      && !u.criu && u == t.(criu := false, running := u.running)
      && (u.running <==> t.running && !(t.htype && !t.restored && t.mode == RESTART && stopped))
      && (e.img.Some? <==> d.img.Some?) && e.server == d.server
      && (d.img.Some? ==>
           var i, j := d.img.value, e.img.value;
           && j == i.(keep := j.keep, removed := j.removed)
           && (t.restored ==> j.keep == i.keep && j.removed == (i.removed || (i.ready && !i.keep)))
           && (!t.restored ==> j.removed == i.removed && (hookOk || !t.htype ==> j.keep)))
  {
  }

  class PhaulService {
    var mode: Mode
    var htype: bool
    var img: Images.PhaulImages?
    var criu: CriuConn?
    var dumpIterIndex: nat
    var restored: bool
    var running: bool
    var server: Option<PageServer>
    var accepting: bool
    var complete: bool

    ghost predicate Valid()
      reads this, criu
    {
      criu != null ==> Session(criu.wire).Some?
    }

    ghost function View(): State
      reads this, img, criu
    {
      State(Svc(mode, htype, img != null, img != null && img.wdir, img != null && img.currentDir.Some?,
                criu != null && criu.open, criu != null && Session(criu.wire) != Some(None),
                dumpIterIndex, restored, running, accepting, complete),
            Disk(if img == null then None else Some(img.View()), server))
    }

    constructor ()
      ensures Valid() && View() == FRESH && img == null && criu == null
    {
      mode, htype, img, criu := LIVE, false, null, null;
      dumpIterIndex, restored, running := 0, false, false;
      server, accepting, complete := None, false, false;
    }

    /** What `setup` returns or raises, by the step that fails. */
    static function SetupOutcome(m: Mode, getOk: bool, fsOk: bool, connOk: bool): Outcome {
      if !getOk then Raises(0) else if !fsOk then Raises(1) else if m == LIVE && !connOk then Raises(2)
      else Returns(true)
    }

    method RpcSetup(m: Mode, getOk: bool, fsOk: bool, connOk: bool) returns (out: Outcome)
      requires Valid()
      modifies this
      ensures Valid() && View() == Serve(old(View()), Setup(m), out)
      ensures out == SetupOutcome(m, getOk, fsOk, connOk)
      ensures img != old(img) ==> fresh(img)
      ensures criu != old(criu) ==> fresh(criu)
    {
      mode := m;
      out := Raises(0);
      if getOk {
        htype := true;
        out := SetUpReceiver(fsOk, connOk);
      }
    }

    /** The fs receiver and, in live mode, the image store and the connection to CRIU. */
    method SetUpReceiver(fsOk: bool, connOk: bool) returns (out: Outcome)
      modifies this`img, this`criu
      ensures out == SetupOutcome(mode, true, fsOk, connOk)
      ensures if fsOk && mode == LIVE then fresh(img) && img.View() == Images.FRESH else img == old(img)
      ensures if out.Returns? && mode == LIVE then fresh(criu) && criu.open && criu.wire == [] else criu == old(criu)
    {
      if !fsOk {
        return Raises(1);
      }
      if mode != LIVE {
        return Returns(true);
      }
      var ok := MakeStore(connOk);
      return if ok then Returns(true) else Raises(2);
    }

    /** The image store and the connection to CRIU. */
    method MakeStore(connOk: bool) returns (ok: bool)
      modifies this`img, this`criu
      ensures ok == connOk && fresh(img) && img.View() == Images.FRESH
      ensures if ok then fresh(criu) && criu.open && criu.wire == [] else criu == old(criu)
    {
      img := new Images.PhaulImages();
      if connOk {
        criu := new CriuConn([]);
      }
      return connOk;
    }

    method RpcSetOptions(keepImages: bool, htypeOk: bool, mkdirOk: bool) returns (out: Outcome)
      requires Valid() && Ready(View().svc, SetOptions(keepImages))
      modifies img
      ensures Valid() && View() == Serve(old(View()), SetOptions(keepImages), out)
      ensures out == if !htypeOk then Raises(0) else if img != null && !mkdirOk then Raises(1) else Returns(true)
    {
      if !htypeOk {
        return Raises(0);
      }
      if img != null {
        var r := img.SetOptions(keepImages, mkdirOk);
        if r.Failure? {
          return Raises(1);
        }
      }
      return Returns(true);
    }

    /** CRIU answers that a page server has started. */
    static predicate Starts(inbox: seq<Resp>) {
      inbox != [] && inbox[0].typ == PAGE_SERVER && inbox[0].success
    }

    /** `inbox` is what CRIU will answer to the page server request. */
    method StartPageServer(inbox: seq<Resp>) returns (ok: bool)
      requires Valid() && img != null && criu != null && Session(criu.wire) == Some(None)
      requires AnswersQuietly(inbox)
      modifies this`server, criu`inbox, criu`wire, criu`iter, criu`lastReq
      ensures Session(criu.wire) == Some(None)
      ensures server == if ok then Some(PageServer(img.currentIter, ParentFor(img.currentIter))) else old(server)
      ensures ok == Starts(inbox)
      ensures criu.wire == Asked(old(criu.wire), PageServerReq(img.currentIter, criu.trackMem, old(criu.iter)), inbox)
    {
      var req := MakePageServerReq(img);
      criu.inbox := inbox;
      var resp := Ask(criu, req);
      if resp.Failure? || !resp.value.success {
        return false;
      }
      server := Some(PageServer(img.currentIter, req.parentImg));
      return true;
    }

    method RpcStartIter(need: bool, mkdirOk: bool, inbox: seq<Resp>) returns (out: Outcome)
      requires Valid() && Ready(View().svc, StartIter(need)) && AnswersQuietly(inbox)
      modifies this`server, this`dumpIterIndex, img, criu
      ensures Valid() && View() == Serve(old(View()), StartIter(need), out)
      ensures out == if !mkdirOk || old(img.currentIter) + 1 in old(img.dirs) then Raises(0)
                     else if need && !Starts(inbox) then Raises(1) else Returns(true)
      ensures criu != null && (!need || out == Raises(0)) ==> criu.wire == old(criu.wire)
      ensures need && out != Raises(0) ==>
        criu.wire == Asked(old(criu.wire), PageServerReq(img.currentIter, criu.trackMem, old(criu.iter)), inbox)
      ensures need && out.Returns? ==> server == Some(PageServer(img.currentIter, ParentFor(img.currentIter)))
    {
      out := NextDir(mkdirOk);
      if out.Returns? && need {
        out := ServePages(inbox);
      }
    }

    /** The page server for the directory just made. */
    method ServePages(inbox: seq<Resp>) returns (out: Outcome)
      requires Valid() && img != null && criu != null && criu.open && Session(criu.wire) == Some(None)
      requires AnswersQuietly(inbox)
      modifies this`server, criu`inbox, criu`wire, criu`iter, criu`lastReq
      ensures Valid() && out == if Starts(inbox) then Returns(true) else Raises(1)
      ensures View().svc == old(View().svc) && View().disk.img == old(View().disk.img)
      ensures server ==
        if out.Returns? then Some(PageServer(img.currentIter, ParentFor(img.currentIter))) else old(server)
      ensures criu.wire == Asked(old(criu.wire), PageServerReq(img.currentIter, criu.trackMem, old(criu.iter)), inbox)
    {
      var ok := StartPageServer(inbox);
      return if ok then Returns(true) else Raises(1);
    }

    /** The next directory, before any page server. */
    method NextDir(mkdirOk: bool) returns (out: Outcome)
      requires Valid() && Ready(View().svc, StartIter(false))
      modifies this`dumpIterIndex, img
      ensures out == if !mkdirOk || old(img.currentIter) + 1 in old(img.dirs) then Raises(0) else Returns(true)
      ensures Valid() && View() == Serve(old(View()), StartIter(false), out)
    {
      dumpIterIndex := dumpIterIndex + 1;
      var r := img.NewImageDir(mkdirOk);
      return if r.Success? then Returns(true) else Raises(0);
    }

    method RpcEndIter() returns (out: Outcome)
      requires Valid()
      ensures out == Returns(true) && View() == Serve(View(), EndIter, out)
    {
      return Returns(true);
    }

    method RpcStartAcceptImages(store: Store) returns (out: Outcome)
      requires Valid() && Ready(View().svc, StartAcceptImages(store))
      modifies this`accepting
      ensures Valid() && out == Returns(true) && View() == Serve(old(View()), StartAcceptImages(store), out)
    {
      accepting := true;
      return Returns(true);
    }

    /** The untar thread swallows its exceptions: the call returns whether or not it unpacked. */
    method RpcStopAcceptImages(unpacked: bool) returns (out: Outcome)
      requires Valid() && Ready(View().svc, StopAcceptImages)
      modifies this`complete
      ensures Valid() && out == Returns(unpacked) && View() == Serve(old(View()), StopAcceptImages, out)
    {
      complete := unpacked;
      return Returns(unpacked);
    }

    /** The images of the hauler are in place, and CRIU restores the tree. */
    static ghost predicate Restores(putOk: bool, inbox: seq<Resp>, mountOk: bool, hookOk: nat -> bool) {
      putOk && mountOk && RestoreEnds(inbox, hookOk, 0)
    }

    /** The caller sees only `ok`; `out` records what the call left running. */
    method RpcRestoreFromImages(putOk: bool, inbox: seq<Resp>, mountOk: bool, hookOk: nat -> bool, restoredOk: bool)
      returns (ok: bool, ghost out: Outcome)
      requires Valid() && Ready(View().svc, RestoreFromImages)
      modifies this`running, this`restored, criu
      ensures Valid() && ok == out.Returns? && View() == Serve(old(View()), RestoreFromImages, out)
      ensures ok <==> Restores(putOk, inbox, mountOk, hookOk) && restoredOk
      ensures out == Raises(2) <==> Restores(putOk, inbox, mountOk, hookOk) && !restoredOk
      ensures if !putOk || !mountOk then criu.wire == old(criu.wire)
        else Begins(old(criu.wire), RestoreReq(criu.trackMem, old(criu.iter)), inbox, criu.wire)
    {
      ok, out := false, Raises(0);
      if putOk {
        criu.inbox := inbox;
        ok, out := Restore(mountOk, hookOk, restoredOk);
      }
    }

    /** `final_restore`, with CRIU ready to answer. */
    method Restore(mountOk: bool, hookOk: nat -> bool, restoredOk: bool) returns (ok: bool, ghost out: Outcome)
      requires criu != null && Session(criu.wire) == Some(None)
      modifies this`running, this`restored, criu`inbox, criu`wire, criu`iter, criu`lastReq
      ensures ok == out.Returns? && restored == (old(restored) || ok)
      ensures var up := mountOk && RestoreEnds(old(criu.inbox), hookOk, 0);
        && (ok <==> up && restoredOk) && (out == Raises(2) <==> up && !restoredOk)
        && running == (old(running) || up) && (ok ==> out == Returns(true))
      ensures Session(criu.wire).Some? && (out == Raises(1) <==> Session(criu.wire) != Some(None))
      ensures if !mountOk then criu.wire == old(criu.wire)
        else Begins(old(criu.wire), RestoreReq(criu.trackMem, old(criu.iter)), old(criu.inbox), criu.wire)
    {
      var r, up := CriuRestore(criu, mountOk, hookOk, restoredOk);
      running := running || up;
      restored := restored || r.Success?;
      ok := r.Success?;
      out := if ok then Returns(true) else if up then Raises(2)
             else if Session(criu.wire) != Some(None) then Raises(1) else Raises(0);
    }

    /** `leftRunning`: the hauler raised after it had started the tree. */
    method RpcStartHtype(startOk: bool, leftRunning: bool) returns (out: Outcome)
      requires Valid() && Ready(View().svc, StartHtype)
      modifies this`running, this`restored
      ensures Valid() && out.Returns? == startOk && View() == Serve(old(View()), StartHtype, out)
    {
      if !startOk {
        running := running || leftRunning;
        return Raises(if leftRunning then 2 else 0);
      }
      running := true;
      restored := true;
      return Returns(true);
    }

    /** A request that asks for no notifications; the answer of CRIU is the result. */
    method RpcCheckCpuinfo(inbox: seq<Resp>) returns (out: Outcome)
      requires Valid() && Ready(View().svc, CheckCpuinfo) && AnswersQuietly(inbox)
      modifies criu`inbox, criu`wire, criu`iter, criu`lastReq
      ensures Valid() && View() == Serve(old(View()), CheckCpuinfo, out)
      ensures out == if inbox == [] || inbox[0].typ != CPUINFO_CHECK then Raises(0) else Returns(inbox[0].success)
      ensures criu.wire == Asked(old(criu.wire), ProbeReq(CPUINFO_CHECK, criu.trackMem, old(criu.iter)), inbox)
    {
      criu.inbox := inbox;
      var resp := Ask(criu, MakeProbeReq(CPUINFO_CHECK));
      if resp.Failure? {
        return Raises(0);
      }
      return Returns(resp.value.success);
    }

    /** The source's version must not be above the one found here, if any is. */
    method RpcCheckCriuVersion(source: nat, target: Option<nat>) returns (out: Outcome)
      requires Valid()
      ensures out == Returns(target.Some? && source <= target.value)
      ensures View() == Serve(View(), CheckCriuVersion, out)
    {
      if target.None? {
        return Returns(false);
      }
      return Returns(source <= target.value);
    }

    method RpcRestoreTime(readable: bool) returns (out: Outcome)
      requires Valid() && Ready(View().svc, RestoreTime)
      ensures out.Returns? == readable && View() == Serve(View(), RestoreTime, out)
    {
      return if readable then Returns(true) else Raises(0);
    }

    /** The hauler's `target_cleanup`; see `SharedDisk` for what it does to the disks. */
    method RpcMigrationComplete(cleanupOk: bool) returns (out: Outcome)
      requires Valid() && Ready(View().svc, MigrationComplete)
      ensures out.Returns? == cleanupOk && View() == Serve(View(), MigrationComplete, out)
    {
      return if cleanupOk then Returns(true) else Raises(0);
    }

    /** `hookOk`: the hauler's umount or stop returned; `stopped`: a stop took effect. */
    method OnDisconnect(hookOk: bool, stopped: bool)
      requires Valid()
      modifies this`running, img, criu
      ensures Valid() && View().svc == DisconnectedSvc(old(View().svc), stopped)
      ensures View().disk == DisconnectedDisk(old(View().svc), old(View().disk), hookOk)
      ensures criu != null ==> !criu.open
    {
      if criu != null {
        criu.Close();
      }
      if htype && !restored {
        if mode == RESTART && stopped {
          running := false;
        }
        if !hookOk {
          return;
        }
      }
      CloseImages();
    }

    /** Images of an un-restored tree are kept whatever `keep_images` said. */
    method CloseImages()
      modifies img
      ensures img != null ==>
        img.View() == Images.Closed(if restored then old(img.View()) else old(img.View()).(keep := true))
    {
      if img != null {
        if !restored {
          img.SaveImages();
        }
        img.Close();
      }
    }
  }
}
