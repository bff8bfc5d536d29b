/** The image directories of one host (phaul/images.py, `phaul_images`). */
module Images {
  import opened Prelude

  /** A page of a dump: its contents, or a mark that it did not change since the parent dump. */
  datatype Entry = Data(value: int) | InParent

  /** One image directory: the pages a dump left in it, and the parent link the dump was made with. */
  datatype Dir = Dir(parent: Option<int>, pages: map<nat, Entry>)

  datatype State = State(
    iter: nat,            // current_iter
    current: Option<nat>, // _current_dir
    dirs: map<nat, Dir>,  // what is under _img_path
    keep: bool,           // _keep_on_close
    ready: bool,          // _wdir and _img_path exist
    removed: bool)        // the working directory was removed by close()

  const FRESH := State(0, None, map[], false, false, false)

  function Options(s: State, keep: bool, ok: bool): State {
    s.(keep := keep, ready := s.ready || ok)
  }

  /** There is room for the next directory. */
  predicate CanMake(s: State) {
    s.ready && s.iter + 1 !in s.dirs
  }

  /** The counter moves even when the directory cannot be made. */
  function NewDir(s: State, ok: bool): State {
    var n := s.iter + 1;
    var made := ok && s.ready && n !in s.dirs;
    State(n, if made then Some(n) else s.current, if made then s.dirs[n := Dir(None, map[])] else s.dirs,
          s.keep, s.ready, s.removed)
  }

  function Closed(s: State): State {
    s.(removed := s.removed || (s.ready && !s.keep))
  }

  /** The parent link a request gets: a directory name relative to the current one. */
  function Prev(s: State): Option<int> {
    if s.iter == 1 then None else Some(s.iter - 1)
  }

  class PhaulImages {
    var currentIter: nat
    var currentDir: Option<nat>
    var dirs: map<nat, Dir>
    var keepOnClose: bool
    var wdir: bool
    var removed: bool

    function View(): State
      reads this
    {
      State(currentIter, currentDir, dirs, keepOnClose, wdir, removed)
    }

    constructor ()
      ensures View() == FRESH
    {
      currentIter, currentDir, dirs := 0, None, map[];
      keepOnClose, wdir, removed := false, false, false;
    }

    method SaveImages()
      modifies this
      ensures View() == old(View()).(keep := true)
    {
      keepOnClose := true;
    }

    method SetOptions(keepImages: bool, mkdirOk: bool) returns (r: Result<()>)
      modifies this
      ensures View() == Options(old(View()), keepImages, mkdirOk) && r.Success? == mkdirOk
    {
      keepOnClose := keepImages;
      if !mkdirOk {
        return Failure;
      }
      wdir := true;
      return Success(());
    }

    method NewImageDir(mkdirOk: bool) returns (r: Result<()>)
      modifies this
      ensures View() == NewDir(old(View()), mkdirOk) == NewDir(old(View()), r.Success?)
      ensures currentIter == old(currentIter) + 1
      ensures r.Success? <==> mkdirOk && old(CanMake(View()))
      ensures currentDir == if r.Success? then Some(currentIter) else old(currentDir)
    {
      currentIter := currentIter + 1;
      if !mkdirOk || !wdir || currentIter in dirs {
        return Failure;
      }
      dirs := dirs[currentIter := Dir(None, map[])];
      currentDir := Some(currentIter);
      return Success(());
    }

    method PrevImageDir() returns (link: Option<int>)
      ensures link == Prev(View())
    {
      if currentIter == 1 {
        return None;
      } else {
        return Some(currentIter - 1);
      }
    }

    method Close()
      modifies this
      ensures View() == Closed(old(View()))
    {
      if !wdir {
        return;
      }
      if !keepOnClose {
        removed := true;
      }
    }
  }

  // ---- resolving memory through the parent links -------------------------------

  /** The contents of a page, following parent links from directory `k`. */
  function Value(dirs: map<nat, Dir>, k: nat, page: nat): Option<int>
    decreases k
  {
    if k !in dirs || page !in dirs[k].pages then None else
    match dirs[k].pages[page]
    case Data(v) => Some(v)
    case InParent =>
      match dirs[k].parent
      case Some(j) => if 0 <= j < k then Value(dirs, j, page) else None
      case None => None
  }

  /** The memory image a restore from directory `k` sees. */
  function Memory(dirs: map<nat, Dir>, k: nat): map<nat, Option<int>> {
    if k in dirs then map page | page in dirs[k].pages :: Value(dirs, k, page) else map[]
  }

  lemma {:induction false} ValueFrame(a: map<nat, Dir>, b: map<nat, Dir>, k: nat, page: nat)
    requires forall j: nat | j <= k :: (j in a <==> j in b) && (j in a ==> a[j] == b[j])
    ensures Value(a, k, page) == Value(b, k, page)
    decreases k
  {
    if k in a && page in a[k].pages && a[k].pages[page].InParent? && a[k].parent.Some?
       && 0 <= a[k].parent.value < k {
      ValueFrame(a, b, a[k].parent.value, page);
    }
  }

  /** How many parent links lead from directory `k` to one without a parent; none if they break off. */
  function Links(dirs: map<nat, Dir>, k: nat): Option<nat>
    decreases k
  {
    if k !in dirs then None else
    match dirs[k].parent
    case None => Some(0)
    case Some(j) =>
      if !(0 <= j < k) then None else
      match Links(dirs, j)
      case Some(n) => Some(n + 1)
      case None => None
  }
}
