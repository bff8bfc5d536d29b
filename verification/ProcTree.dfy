/** The process-tree builder of the web interface (webgui/procs.py, `unflatten`). */
module ProcTree {
  import opened Prelude

  /** One `proc` dictionary: only its list of children is ever changed. */
  class Proc {
    const id: int
    const parent: Option<int>
    var children: seq<Proc>

    constructor (id: int, parent: Option<int>)
      ensures this.id == id && this.parent == parent && children == []
    {
      this.id := id;
      this.parent := parent;
      children := [];
    }
  }

  predicate IsChild(x: Proc, p: Proc) {
    x.parent == Some(p.id)
  }

  /** The processes of `flat` whose parent is `p`, in order. */
  function ChildrenOf(flat: seq<Proc>, p: Proc): seq<Proc> {
    if flat == [] then [] else
      var last := flat[|flat| - 1];
      ChildrenOf(flat[..|flat| - 1], p) + (if IsChild(last, p) then [last] else [])
  }

  /** The processes of `flat` that are not in `gone`, in order. */
  function Without(flat: seq<Proc>, gone: set<Proc>): seq<Proc> {
    if flat == [] then [] else
      var last := flat[|flat| - 1];
      Without(flat[..|flat| - 1], gone) + (if last in gone then [] else [last])
  }

  function Set(s: seq<Proc>): set<Proc> {
    set x | x in s
  }

  /** `x` hangs below `root` by a chain of at most `d` other processes of `flat`. */
  ghost predicate Under(flat: seq<Proc>, root: Proc, x: Proc, d: nat) {
    x in flat &&
    (IsChild(x, root) || (d > 0 && exists y | y in flat :: IsChild(x, y) && Under(flat, root, y, d - 1)))
  }

  ghost predicate Reaches(flat: seq<Proc>, root: Proc, x: Proc) {
    exists d: nat :: Under(flat, root, x, d)
  }

  /** A finished tree: a process and the trees of its children. */
  datatype Tree = Node(proc: Proc, kids: seq<Tree>)

  function Roots(ts: seq<Tree>): (ps: seq<Proc>)
    ensures |ps| == |ts|
  {
    if ts == [] then [] else [ts[0].proc] + Roots(ts[1..])
  }

  /** All processes of a tree, its root first. */
  function Nodes(t: Tree): seq<Proc>
    decreases t, 1
  {
    [t.proc] + AllNodes(t.kids)
  }

  function AllNodes(ts: seq<Tree>): seq<Proc>
    decreases ts, 0
  {
    if ts == [] then [] else Nodes(ts[0]) + AllNodes(ts[1..])
  }

  /** Specification of `unflatten`: the tree below `p`, and the processes left over. */
  function Build(flat: seq<Proc>, p: Proc): (r: (Tree, seq<Proc>))
    ensures r.0.proc == p && |r.1| <= |flat|
    decreases |flat|, 1, 0
  {
    Partition(flat, p);
    var kids := ChildrenOf(flat, p);
    var (ts, rest) := BuildAll(Without(flat, Set(kids)), kids);
    (Node(p, ts), rest)
  }

  function BuildAll(rest: seq<Proc>, kids: seq<Proc>): (r: (seq<Tree>, seq<Proc>))
    ensures |r.0| == |kids| && Roots(r.0) == kids && |r.1| <= |rest|
    decreases |rest| + |kids|, 0, |kids|
  {
    if kids == [] then ([], rest) else
      var (t, rest1) := Build(rest, kids[0]);
      var (ts, rest2) := BuildAll(rest1, kids[1..]);
      ([t] + ts, rest2)
  }


  lemma AllNodesCons(t: Tree, ts: seq<Tree>)
    ensures AllNodes([t] + ts) == Nodes(t) + AllNodes(ts)
  {
    assert ([t] + ts)[0] == t && ([t] + ts)[1..] == ts;
  }

  // ---- selecting from a list -------------------------------------------------

  lemma {:induction false} ChildrenAre(flat: seq<Proc>, p: Proc)
    ensures forall x :: x in ChildrenOf(flat, p) ==> x in flat && IsChild(x, p)
    ensures forall x :: x in flat && IsChild(x, p) ==> x in ChildrenOf(flat, p)
  {
    if flat != [] {
      ChildrenAre(flat[..|flat| - 1], p);
      assert flat == flat[..|flat| - 1] + [flat[|flat| - 1]];
    }
  }

  lemma {:induction false} WithoutAre(flat: seq<Proc>, gone: set<Proc>)
    ensures forall x :: x in Without(flat, gone) ==> x in flat && x !in gone
    ensures forall x :: x in flat && x !in gone ==> x in Without(flat, gone)
  {
    if flat != [] {
      WithoutAre(flat[..|flat| - 1], gone);
      assert flat == flat[..|flat| - 1] + [flat[|flat| - 1]];
    }
  }

  lemma {:induction false} WithoutTwice(flat: seq<Proc>, a: set<Proc>, b: set<Proc>)
    ensures Without(Without(flat, a), b) == Without(flat, a + b)
  {
    if flat != [] {
      var last := flat[|flat| - 1];
      var init := Without(flat[..|flat| - 1], a);
      WithoutTwice(flat[..|flat| - 1], a, b);
      if last !in a {
        assert (init + [last])[..|init|] == init;
      } else {
        assert init + [] == init;
      }
    }
  }

  /** Only the part of `gone` that occurs in the list matters. */
  lemma {:induction false} WithoutSame(flat: seq<Proc>, a: set<Proc>, b: set<Proc>)
    requires forall x :: x in flat ==> (x in a <==> x in b)
    ensures Without(flat, a) == Without(flat, b)
  {
    if flat != [] {
      WithoutSame(flat[..|flat| - 1], a, b);
    }
  }

  /** The children and the others partition the list. */
  lemma {:induction false} Partition(flat: seq<Proc>, p: Proc)
    ensures multiset(ChildrenOf(flat, p)) + multiset(Without(flat, Set(ChildrenOf(flat, p)))) == multiset(flat)
    ensures |ChildrenOf(flat, p)| + |Without(flat, Set(ChildrenOf(flat, p)))| == |flat|
  {
    ChildrenAre(flat, p);
    PartitionBy(flat, p, Set(ChildrenOf(flat, p)));
  }

  lemma {:induction false} PartitionBy(flat: seq<Proc>, p: Proc, gone: set<Proc>)
    requires forall x :: x in flat ==> (x in gone <==> IsChild(x, p))
    ensures multiset(ChildrenOf(flat, p)) + multiset(Without(flat, gone)) == multiset(flat)
    ensures |ChildrenOf(flat, p)| + |Without(flat, gone)| == |flat|
  {
    if flat != [] {
      var init, last := flat[..|flat| - 1], flat[|flat| - 1];
      assert last in flat;
      PartitionBy(init, p, gone);
      assert flat == init + [last];
    }
  }

  // ---- every process is kept ---------------------------------------------------

  /** Nothing is lost or duplicated: the nodes below the root and the remainder are the input. */
  lemma {:induction false} Conserves(flat: seq<Proc>, p: Proc)
    ensures multiset(AllNodes(Build(flat, p).0.kids)) + multiset(Build(flat, p).1) == multiset(flat)
    decreases |flat|, 1, 0
  {
    var kids := ChildrenOf(flat, p);
    Partition(flat, p);
    ConservesAll(Without(flat, Set(kids)), kids);
  }

  lemma {:induction false} ConservesAll(rest: seq<Proc>, kids: seq<Proc>)
    ensures multiset(AllNodes(BuildAll(rest, kids).0)) + multiset(BuildAll(rest, kids).1)
         == multiset(kids) + multiset(rest)
    decreases |rest| + |kids|, 0, |kids|
  {
    if kids == [] {
      assert AllNodes(BuildAll(rest, kids).0) == [];
    } else {
      var (t, rest1) := Build(rest, kids[0]);
      var (ts, rest2) := BuildAll(rest1, kids[1..]);
      Conserves(rest, kids[0]);
      ConservesAll(rest1, kids[1..]);
      AllNodesCons(t, ts);
      assert kids == [kids[0]] + kids[1..];
      calc {
        multiset(AllNodes([t] + ts)) + multiset(rest2);
        multiset{kids[0]} + multiset(AllNodes(t.kids)) + (multiset(AllNodes(ts)) + multiset(rest2));
        multiset{kids[0]} + multiset(AllNodes(t.kids)) + (multiset(kids[1..]) + multiset(rest1));
        multiset{kids[0]} + multiset(kids[1..]) + multiset(rest);
      }
    }
  }

  // ---- the remainder -----------------------------------------------------------

  /** The remainder is the input, in order, without the nodes placed below the root. */
  lemma {:induction false} RemainderOrder(flat: seq<Proc>, p: Proc)
    ensures Build(flat, p).1 == Without(flat, Set(AllNodes(Build(flat, p).0.kids)))
    decreases |flat|, 1, 0
  {
    var kids := ChildrenOf(flat, p);
    var rest := Without(flat, Set(kids));
    var (ts, rem) := BuildAll(rest, kids);
    Partition(flat, p);
    WithoutAre(flat, Set(kids));
    RemainderOrderAll(rest, kids);
    WithoutTwice(flat, Set(kids), Set(AllNodes(ts)));
    RootsAreNodes(ts);
    WithoutSame(flat, Set(kids) + Set(AllNodes(ts)), Set(AllNodes(ts)));
  }

  lemma {:induction false} RemainderOrderAll(rest: seq<Proc>, kids: seq<Proc>)
    requires forall x :: x in kids ==> x !in rest
    ensures BuildAll(rest, kids).1 == Without(rest, Set(AllNodes(BuildAll(rest, kids).0)))
    decreases |rest| + |kids|, 0, |kids|
  {
    if kids == [] {
      assert AllNodes(BuildAll(rest, kids).0) == [];
      WithoutNone(rest);
      assert Set(AllNodes(BuildAll(rest, kids).0)) == {};
    } else {
      var (t, rest1) := Build(rest, kids[0]);
      var ts := BuildAll(rest1, kids[1..]).0;
      RemainderOrder(rest, kids[0]);
      WithoutAre(rest, Set(AllNodes(t.kids)));
      RemainderOrderAll(rest1, kids[1..]);
      AllNodesCons(t, ts);
      WithoutTwice(rest, Set(AllNodes(t.kids)), Set(AllNodes(ts)));
      WithoutSame(rest, Set(AllNodes(t.kids)) + Set(AllNodes(ts)), Set(AllNodes([t] + ts)));
    }
  }

  lemma {:induction false} WithoutNone(s: seq<Proc>)
    ensures Without(s, {}) == s
  {
    if s != [] { WithoutNone(s[..|s| - 1]); }
  }

  lemma {:induction false} RootsAreNodes(ts: seq<Tree>)
    ensures forall x :: x in Roots(ts) ==> x in AllNodes(ts)
  {
    if ts != [] { RootsAreNodes(ts[1..]); }
  }

  // ---- who is placed -----------------------------------------------------------

  lemma NodesAndRemainder(flat: seq<Proc>, p: Proc)
    ensures forall x :: x in flat ==> x in AllNodes(Build(flat, p).0.kids) || x in Build(flat, p).1
    ensures forall x :: x in AllNodes(Build(flat, p).0.kids) ==> x in flat
    ensures forall x :: x in Build(flat, p).1 ==> x in flat
  {
    Conserves(flat, p);
    var below, rem := AllNodes(Build(flat, p).0.kids), Build(flat, p).1;
    assert forall x :: x in multiset(flat) ==> x in multiset(below) || x in multiset(rem);
    forall x | x in below ensures x in flat { assert x in multiset(flat); }
    forall x | x in rem ensures x in flat { assert x in multiset(flat); }
    forall x | x in flat ensures x in below || x in rem { assert x in multiset(flat); }
  }

  /** No process left over is a child of a process that was placed. */
  lemma {:induction false} NoneLeftBelow(flat: seq<Proc>, p: Proc, x: Proc, y: Proc)
    requires x in Build(flat, p).1 && y in Nodes(Build(flat, p).0)
    ensures !IsChild(x, y)
    decreases |flat|, 1, 0
  {
    var kids := ChildrenOf(flat, p);
    var rest := Without(flat, Set(kids));
    Partition(flat, p);
    if y == p {
      NodesAndRemainderAll(rest, kids);
      WithoutAre(flat, Set(kids));
      ChildrenAre(flat, p);
    } else {
      NoneLeftBelowAll(rest, kids, x, y);
    }
  }

  lemma {:induction false} NoneLeftBelowAll(rest: seq<Proc>, kids: seq<Proc>, x: Proc, y: Proc)
    requires x in BuildAll(rest, kids).1 && y in AllNodes(BuildAll(rest, kids).0)
    ensures !IsChild(x, y)
    decreases |rest| + |kids|, 0, |kids|
  {
    if kids == [] {
      assert false;
    } else {
      var (t, rest1) := Build(rest, kids[0]);
      var ts := BuildAll(rest1, kids[1..]).0;
      AllNodesCons(t, ts);
      if y in Nodes(t) {
        NodesAndRemainderAll(rest1, kids[1..]);
        NoneLeftBelow(rest, kids[0], x, y);
      } else {
        NoneLeftBelowAll(rest1, kids[1..], x, y);
      }
    }
  }

  lemma {:induction false} NodesAndRemainderAll(rest: seq<Proc>, kids: seq<Proc>)
    ensures forall x :: x in BuildAll(rest, kids).1 ==> x in rest
    ensures forall x :: x in AllNodes(BuildAll(rest, kids).0) ==> x in rest || x in kids
    decreases |rest| + |kids|, 0, |kids|
  {
    if kids == [] {
      assert AllNodes(BuildAll(rest, kids).0) == [];
    } else {
      var (t, rest1) := Build(rest, kids[0]);
      var ts := BuildAll(rest1, kids[1..]).0;
      NodesAndRemainder(rest, kids[0]);
      NodesAndRemainderAll(rest1, kids[1..]);
      AllNodesCons(t, ts);
    }
  }

  /** A chain inside part of the list, below a child of `p`, is a chain below `p`. */
  lemma {:induction false} ChainGrows(part: seq<Proc>, flat: seq<Proc>, c: Proc, p: Proc, x: Proc, d: nat)
    requires forall y :: y in part ==> y in flat
    requires c in flat && IsChild(c, p) && Under(part, c, x, d)
    ensures Under(flat, p, x, d + 1)
  {
    if IsChild(x, c) {
      assert Under(flat, p, c, d);
    } else {
      var y :| y in part && IsChild(x, y) && Under(part, c, y, d - 1);
      ChainGrows(part, flat, c, p, y, d - 1);
    }
  }

  /** Whatever is placed below the root has a parent chain to it. */
  lemma {:induction false} PlacedReaches(flat: seq<Proc>, p: Proc, x: Proc)
    requires x in AllNodes(Build(flat, p).0.kids)
    ensures Reaches(flat, p, x)
    decreases |flat|, 1, 0
  {
    var kids := ChildrenOf(flat, p);
    var rest := Without(flat, Set(kids));
    Partition(flat, p);
    ChildrenAre(flat, p);
    WithoutAre(flat, Set(kids));
    PlacedReachesAll(flat, p, rest, kids, x);
  }

  lemma {:induction false} PlacedReachesAll(flat: seq<Proc>, p: Proc, rest: seq<Proc>, kids: seq<Proc>, x: Proc)
    requires forall y :: y in rest ==> y in flat
    requires forall c :: c in kids ==> c in flat && IsChild(c, p)
    requires x in AllNodes(BuildAll(rest, kids).0)
    ensures Reaches(flat, p, x)
    decreases |rest| + |kids|, 0, |kids|
  {
    if kids == [] {
      assert false;
    } else {
      var (t, rest1) := Build(rest, kids[0]);
      var ts := BuildAll(rest1, kids[1..]).0;
      AllNodesCons(t, ts);
      if x == kids[0] {
        assert Under(flat, p, x, 0);
      } else if x in AllNodes(t.kids) {
        PlacedReaches(rest, kids[0], x);
        var d: nat :| Under(rest, kids[0], x, d);
        ChainGrows(rest, flat, kids[0], p, x, d);
      } else {
        NodesAndRemainder(rest, kids[0]);
        PlacedReachesAll(flat, p, rest1, kids[1..], x);
      }
    }
  }

  /** A process with a parent chain to the root is not left over. */
  lemma {:induction false} ReachingIsPlaced(flat: seq<Proc>, p: Proc, x: Proc, d: nat)
    requires Under(flat, p, x, d)
    ensures x !in Build(flat, p).1
  {
    if x in Build(flat, p).1 {
      if IsChild(x, p) {
        NoneLeftBelow(flat, p, x, p);
      } else {
        var y :| y in flat && IsChild(x, y) && Under(flat, p, y, d - 1);
        ReachingIsPlaced(flat, p, y, d - 1);
        NodesAndRemainder(flat, p);
        NoneLeftBelow(flat, p, x, y);
      }
    }
  }

  ghost function Descendants(flat: seq<Proc>, root: Proc): set<Proc> {
    set x | x in flat && Reaches(flat, root, x)
  }

  /** The remainder is, in input order, exactly the processes without a parent chain to the root. */
  lemma RemainderIsUnreached(flat: seq<Proc>, p: Proc)
    ensures Build(flat, p).1 == Without(flat, Descendants(flat, p))
    ensures Set(AllNodes(Build(flat, p).0.kids)) == Descendants(flat, p)
  {
    var below := AllNodes(Build(flat, p).0.kids);
    NodesAndRemainder(flat, p);
    RemainderOrder(flat, p);
    WithoutAre(flat, Set(below));
    forall x | x in flat ensures x in Set(below) <==> x in Descendants(flat, p) {
      if x in below { PlacedReaches(flat, p, x); }
      if Reaches(flat, p, x) {
        var d: nat :| Under(flat, p, x, d);
        ReachingIsPlaced(flat, p, x, d);
      }
    }
    WithoutSame(flat, Set(below), Descendants(flat, p));
  }

  // ---- whose children ------------------------------------------------------------

  /** Every child in the tree names its parent node as parent. */
  ghost predicate Linked(t: Tree) {
    forall k | k in t.kids :: IsChild(k.proc, t.proc) && Linked(k)
  }

  lemma {:induction false} BuildLinked(flat: seq<Proc>, p: Proc)
    ensures Linked(Build(flat, p).0)
    decreases |flat|, 1, 0
  {
    var kids := ChildrenOf(flat, p);
    Partition(flat, p);
    ChildrenAre(flat, p);
    BuildAllLinked(Without(flat, Set(kids)), kids, p);
  }

  lemma {:induction false} BuildAllLinked(rest: seq<Proc>, kids: seq<Proc>, p: Proc)
    requires forall c :: c in kids ==> IsChild(c, p)
    ensures forall k | k in BuildAll(rest, kids).0 :: IsChild(k.proc, p) && Linked(k)
    decreases |rest| + |kids|, 0, |kids|
  {
    if kids != [] {
      BuildLinked(rest, kids[0]);
      BuildAllLinked(Build(rest, kids[0]).1, kids[1..], p);
    }
  }

  lemma {:induction false} BelowHasParent(t: Tree, b: Proc)
    requires Linked(t) && b in AllNodes(t.kids)
    ensures exists z | z in Nodes(t) :: IsChild(b, z)
    decreases t, 1
  {
    BelowHasParentAll(t.kids, t.proc, b);
  }

  lemma {:induction false} BelowHasParentAll(ts: seq<Tree>, p: Proc, b: Proc)
    requires forall k | k in ts :: IsChild(k.proc, p) && Linked(k)
    requires b in AllNodes(ts)
    ensures exists z | z in [p] + AllNodes(ts) :: IsChild(b, z)
    decreases ts, 0
  {
    if b == ts[0].proc {
      assert p in [p] + AllNodes(ts);
    } else if b in AllNodes(ts[0].kids) {
      BelowHasParent(ts[0], b);
      var z :| z in Nodes(ts[0]) && IsChild(b, z);
      assert z in [p] + AllNodes(ts);
    } else {
      BelowHasParentAll(ts[1..], p, b);
      var z :| z in [p] + AllNodes(ts[1..]) && IsChild(b, z);
      assert z in [p] + AllNodes(ts);
    }
  }

  /** Every node of the tree has as children exactly the processes of `flat` whose parent it is. */
  ghost predicate Exact(t: Tree, flat: seq<Proc>) {
    Roots(t.kids) == ChildrenOf(flat, t.proc) && forall k | k in t.kids :: Exact(k, flat)
  }

  ghost predicate NoDup(s: seq<Proc>) {
    forall i, j | 0 <= i < j < |s| :: s[i] != s[j]
  }

  ghost predicate UniqueIds(ps: set<Proc>) {
    forall x, y | x in ps && y in ps :: x.id == y.id ==> x == y
  }

  ghost predicate NotParents(gone: set<Proc>, flat: seq<Proc>, ps: set<Proc>) {
    forall g, y | g in flat && g in gone && y in ps :: !IsChild(g, y)
  }

  lemma {:induction false} ChildrenWithout(flat: seq<Proc>, gone: set<Proc>, y: Proc)
    requires forall g | g in flat && g in gone :: !IsChild(g, y)
    ensures ChildrenOf(Without(flat, gone), y) == ChildrenOf(flat, y)
  {
    if flat != [] {
      var init, last := flat[..|flat| - 1], flat[|flat| - 1];
      ChildrenWithout(init, gone, y);
      if last !in gone {
        assert (Without(init, gone) + [last])[..|Without(init, gone)|] == Without(init, gone);
      } else {
        assert Without(init, gone) + [] == Without(init, gone);
      }
    }
  }

  lemma {:induction false} NoDupChildren(flat: seq<Proc>, p: Proc)
    requires NoDup(flat)
    ensures NoDup(ChildrenOf(flat, p))
  {
    if flat != [] {
      NoDupChildren(flat[..|flat| - 1], p);
      ChildrenAre(flat[..|flat| - 1], p);
    }
  }

  lemma {:induction false} NoDupWithout(flat: seq<Proc>, gone: set<Proc>)
    requires NoDup(flat)
    ensures NoDup(Without(flat, gone))
  {
    if flat != [] {
      NoDupWithout(flat[..|flat| - 1], gone);
      WithoutAre(flat[..|flat| - 1], gone);
    }
  }

  /** With unique ids, `unflatten` gives every node all of its children, in input order. */
  lemma ChildrenExact(flat: seq<Proc>, p: Proc)
    requires p !in flat && NoDup(flat) && UniqueIds(Set(flat) + {p})
    ensures Exact(Build(flat, p).0, flat)
  {
    WithoutNone(flat);
    assert NotParents({}, flat, Set(flat) + {p});
    ExactBuild(flat, flat, {}, p, Set(flat) + {p});
  }

  lemma {:induction false} ExactBuild(all: seq<Proc>, flat: seq<Proc>, gone: set<Proc>, p: Proc, ps: set<Proc>)
    requires flat == Without(all, gone) && NoDup(flat)
    requires Set(all) <= ps && p in ps && p !in flat && UniqueIds(ps)
    requires NotParents(gone, all, Set(flat) + {p})
    ensures Exact(Build(flat, p).0, all)
    decreases |flat|, 1, 0
  {
    var kids := ChildrenOf(flat, p);
    var rest := Without(flat, Set(kids));
    Partition(flat, p);
    ChildrenAre(flat, p);
    WithoutAre(all, gone);
    WithoutAre(flat, Set(kids));
    ChildrenWithout(all, gone, p);
    WithoutTwice(all, gone, Set(kids));
    NoDupChildren(flat, p);
    NoDupWithout(flat, Set(kids));
    assert NotParents(gone + Set(kids), all, Set(rest) + Set(kids));
    ExactBuildAll(all, rest, gone + Set(kids), kids, ps);
  }

  lemma {:induction false} ExactBuildAll(all: seq<Proc>, rest: seq<Proc>, gone: set<Proc>, kids: seq<Proc>,
                                         ps: set<Proc>)
    requires rest == Without(all, gone) && NoDup(rest) && NoDup(kids)
    requires Set(all) <= ps && Set(kids) <= ps && Set(kids) !! Set(rest) && UniqueIds(ps)
    requires NotParents(gone, all, Set(rest) + Set(kids))
    ensures forall t | t in BuildAll(rest, kids).0 :: Exact(t, all)
    decreases |rest| + |kids|, 0, |kids|
  {
    if kids != [] {
      var c := kids[0];
      var (t, rest1) := Build(rest, c);
      var below := Set(AllNodes(t.kids));
      assert c in Set(kids) && Set(kids[1..]) <= Set(kids);
      ExactBuild(all, rest, gone, c, ps);
      NodesAndRemainder(rest, c);
      RemainderOrder(rest, c);
      WithoutAre(all, gone);
      WithoutAre(rest, below);
      WithoutTwice(all, gone, below);
      NoDupWithout(rest, below);
      BuildLinked(rest, c);
      forall g, y | g in all && g in gone + below && y in Set(rest1) + Set(kids[1..])
        ensures !IsChild(g, y)
      {
        if g in below {
          BelowHasParent(t, g);
          var z :| z in Nodes(t) && IsChild(g, z);
          assert z in ps && y in ps && z != y;
        }
      }
      ExactBuildAll(all, rest1, gone + below, kids[1..], ps);
    }
  }

  // ---- the same said of the lists themselves ------------------------------------------------------

  /** The elements of `s` come in the order they have in `flat`, each of them once. */
  ghost predicate InOrder(s: seq<Proc>, flat: seq<Proc>) {
    forall i, j, a, b | 0 <= i < j < |s| && 0 <= a < |flat| && 0 <= b < |flat| ::
      flat[a] == s[i] && flat[b] == s[j] ==> a < b
  }

  /** A list of children: exactly the processes of `flat` that name `y` as parent, in input order. */
  ghost predicate Lists(children: seq<Proc>, y: Proc, flat: seq<Proc>) {
    && (forall x | x in children :: x in flat && x.parent == Some(y.id))
    && (forall x | x in flat && x.parent == Some(y.id) :: x in children)
    && InOrder(children, flat)
  }

  lemma OrderGrows(s: seq<Proc>, init: seq<Proc>, last: Proc)
    requires NoDup(init + [last]) && InOrder(s, init) && forall x | x in s :: x in init
    ensures InOrder(s, init + [last]) && InOrder(s + [last], init + [last])
  {
    var flat, more, n := init + [last], s + [last], |init|;
    assert flat[n] == last;
    forall i, j, a, b | 0 <= i < j < |more| && 0 <= a <= n && 0 <= b <= n && flat[a] == more[i] && flat[b] == more[j]
      ensures a < b
    {
      assert more[i] == s[i] && s[i] in init;
      var k :| 0 <= k < n && init[k] == s[i];
      assert flat[k] == flat[a];
      if j < |s| {
        assert more[j] == s[j] && s[j] in init;
        var l :| 0 <= l < n && init[l] == s[j];
        assert flat[l] == flat[b];
        assert init[k] == s[i] && init[l] == s[j];
      } else {
        assert flat[b] == flat[n];
      }
    }
    forall i, j, a, b | 0 <= i < j < |s| && 0 <= a <= n && 0 <= b <= n && flat[a] == s[i] && flat[b] == s[j]
      ensures a < b
    {
      assert more[i] == s[i] && more[j] == s[j];
    }
  }

  lemma {:induction false} ChildrenInOrder(flat: seq<Proc>, p: Proc)
    requires NoDup(flat)
    ensures Lists(ChildrenOf(flat, p), p, flat)
  {
    if flat != [] {
      var init, last := flat[..|flat| - 1], flat[|flat| - 1];
      ChildrenInOrder(init, p);
      assert flat == init + [last];
      OrderGrows(ChildrenOf(init, p), init, last);
    }
  }

  lemma {:induction false} WithoutInOrder(flat: seq<Proc>, gone: set<Proc>)
    requires NoDup(flat)
    ensures InOrder(Without(flat, gone), flat)
    ensures forall x :: x in Without(flat, gone) <==> x in flat && x !in gone
  {
    if flat != [] {
      var init, last := flat[..|flat| - 1], flat[|flat| - 1];
      WithoutInOrder(init, gone);
      assert flat == init + [last];
      assert forall x | x in Without(init, gone) :: x in init by { WithoutAre(init, gone); }
      WithoutAre(flat, gone);
      OrderGrows(Without(init, gone), init, last);
    }
  }

  /** The remainder holds exactly the processes without a parent chain to the root, in input order. */
  lemma RemainderInOrder(flat: seq<Proc>, p: Proc)
    requires NoDup(flat)
    ensures InOrder(Build(flat, p).1, flat)
    ensures forall x :: x in Build(flat, p).1 <==> x in flat && !Reaches(flat, p, x)
  {
    RemainderIsUnreached(flat, p);
    WithoutInOrder(flat, Descendants(flat, p));
  }

  // ---- the algorithm in place -----------------------------------------------------

  /** The child lists of the processes in `region` are exactly those of the tree `t`. */
  ghost predicate Holds(t: Tree, region: set<Proc>)
    reads region
    decreases t
  {
    t.proc in region && t.proc.children == Roots(t.kids) && forall k | k in t.kids :: Holds(k, region)
  }

  lemma {:induction false} HoldsGrows(t: Tree, small: set<Proc>, big: set<Proc>)
    requires small <= big && Holds(t, small)
    ensures Holds(t, big)
    decreases t
  {
    forall k | k in t.kids ensures Holds(k, big) { HoldsGrows(k, small, big); }
  }

  lemma {:induction false} HoldsTight(t: Tree, region: set<Proc>)
    requires Holds(t, region)
    ensures Holds(t, Set(Nodes(t)))
    decreases t
  {
    forall k | k in t.kids ensures Holds(k, Set(Nodes(t))) {
      HoldsTight(k, region);
      KidNodes(t.kids, k);
      HoldsGrows(k, Set(Nodes(k)), Set(Nodes(t)));
    }
  }

  lemma {:induction false} KidNodes(ts: seq<Tree>, k: Tree)
    requires k in ts
    ensures Set(Nodes(k)) <= Set(AllNodes(ts))
  {
    if k != ts[0] { KidNodes(ts[1..], k); }
  }

  ghost predicate Bare(ps: set<Proc>)
    reads ps
  {
    forall x | x in ps :: x.children == []
  }

  ghost predicate AllHold(ts: seq<Tree>, region: set<Proc>)
    reads region
  {
    forall k | k in ts :: Holds(k, region)
  }

  /** `BuildAll` on an empty list makes leaves: breaking off the loop changes nothing. */
  lemma {:induction false} BuildAllNothing(kids: seq<Proc>)
    ensures BuildAll([], kids).1 == []
    ensures forall t | t in BuildAll([], kids).0 :: t.kids == []
    ensures AllNodes(BuildAll([], kids).0) == kids
  {
    if kids != [] {
      BuildAllNothing(kids[1..]);
      assert Build([], kids[0]) == (Node(kids[0], []), []);
      AllNodesCons(Node(kids[0], []), BuildAll([], kids[1..]).0);
    }
  }

  /** The first loop of `unflatten`: the children of `proc` are appended to it, the others set aside. */
  method Claim(flat: seq<Proc>, proc: Proc) returns (remainder: seq<Proc>)
    requires proc !in flat && proc.children == []
    modifies proc
    ensures proc.children == ChildrenOf(flat, proc)
    ensures remainder == Without(flat, Set(ChildrenOf(flat, proc)))
    ensures NoDup(flat) ==> Lists(proc.children, proc, flat) && InOrder(remainder, flat)
    ensures forall x :: x in remainder <==> x in flat && x.parent != Some(proc.id)
  {
    ChildrenAre(flat, proc);
    ghost var kids := Set(ChildrenOf(flat, proc));
    remainder := [];
    for i := 0 to |flat|
      invariant proc.children == ChildrenOf(flat[..i], proc)
      invariant remainder == Without(flat[..i], kids)
    {
      var childProc := flat[i];
      assert flat[..i + 1][..i] == flat[..i];
      if IsChild(childProc, proc) {
        proc.children := proc.children + [childProc];
      } else {
        remainder := remainder + [childProc];
      }
    }
    assert flat[..|flat|] == flat;
    WithoutAre(flat, kids);
    if NoDup(flat) {
      ChildrenInOrder(flat, proc);
      WithoutInOrder(flat, kids);
    }
  }

  lemma Claimed(flat: seq<Proc>, proc: Proc)
    requires NoDup(flat)
    ensures var kids := ChildrenOf(flat, proc);
      var rest := Without(flat, Set(kids));
      && NoDup(kids) && NoDup(rest) && Set(kids) !! Set(rest) && Set(kids) + Set(rest) == Set(flat)
      && |kids| + |rest| == |flat| && kids[0..] == kids
  {
    var kids := ChildrenOf(flat, proc);
    Partition(flat, proc);
    ChildrenAre(flat, proc);
    NoDupChildren(flat, proc);
    WithoutAre(flat, Set(kids));
    NoDupWithout(flat, Set(kids));
  }

  /** The children still to be visited are apart from everything the recursive call may touch. */
  lemma Waiting(rest: seq<Proc>, kids: seq<Proc>, before: seq<Proc>, i: nat)
    requires i < |kids| && NoDup(kids) && Set(kids) !! Set(rest) && Set(before) <= Set(rest)
    ensures Set(kids[i..]) == {kids[i]} + Set(kids[i + 1..])
    ensures Set(kids[i + 1..]) !! Set(before) + {kids[i]} && kids[i] !in before
  {
    assert kids[i..] == [kids[i]] + kids[i + 1..];
    forall x | x in kids[i..] ensures x in Set(kids) && x !in Set(before) { assert x in kids; }
    assert kids[i] in Set(kids);
  }

  /** One more tree is complete after the recursive call on child `i`. */
  lemma Placed(rest: seq<Proc>, kids: seq<Proc>, done: seq<Tree>, before: seq<Proc>, i: nat, placed: set<Proc>)
    returns (placed1: set<Proc>)
    requires i < |kids| && NoDup(before) && kids[i] !in before
    requires placed !! Set(before) && placed !! Set(kids[i..])
    requires Set(kids[i..]) == {kids[i]} + Set(kids[i + 1..]) && Set(kids[i + 1..]) !! Set(before) + {kids[i]}
    requires BuildAll(rest, kids) == (done + BuildAll(before, kids[i..]).0, BuildAll(before, kids[i..]).1)
    requires AllHold(done, placed)
    requires Holds(Build(before, kids[i]).0, Set(before) + {kids[i]})
    ensures var (t, after) := Build(before, kids[i]);
      && NoDup(after) && |after| <= |before| && Set(after) <= Set(before)
      && BuildAll(rest, kids) == (done + [t] + BuildAll(after, kids[i + 1..]).0, BuildAll(after, kids[i + 1..]).1)
      && AllHold(done + [t], placed1)
      && placed1 <= placed + {kids[i]} + Set(before)
      && placed1 !! Set(after) && placed1 !! Set(kids[i + 1..])
  {
    var (t, after) := Build(before, kids[i]);
    placed1 := placed + {kids[i]} + (Set(before) - Set(after));
    assert kids[i..][1..] == kids[i + 1..];
    var ts := BuildAll(after, kids[i + 1..]).0;
    assert done + ([t] + ts) == done + [t] + ts;
    NodesAndRemainder(before, kids[i]);
    RemainderOrder(before, kids[i]);
    NoDupWithout(before, Set(AllNodes(t.kids)));
    WithoutAre(before, Set(AllNodes(t.kids)));
    HoldsTight(t, Set(before) + {kids[i]});
    HoldsGrows(t, Set(Nodes(t)), placed1);
    forall k | k in done ensures Holds(k, placed1) { HoldsGrows(k, placed, placed1); }
  }

  /** When the loop ends, normally or by `break`, the whole tree is in place. */
  lemma Finished(flat: seq<Proc>, proc: Proc, done: seq<Tree>, remainder: seq<Proc>, i: nat, placed: set<Proc>)
    requires var kids := ChildrenOf(flat, proc);
      && proc.children == kids && i <= |kids| && (i == |kids| || remainder == [])
      && Bare(Set(kids[i..]))
      && BuildAll(Without(flat, Set(kids)), kids)
         == (done + BuildAll(remainder, kids[i..]).0, BuildAll(remainder, kids[i..]).1)
    requires AllHold(done, placed) && placed <= Set(flat)
    ensures Build(flat, proc).1 == remainder
    ensures Holds(Build(flat, proc).0, Set(flat) + {proc})
  {
    var kids := ChildrenOf(flat, proc);
    var last := BuildAll(remainder, kids[i..]).0;
    ChildrenAre(flat, proc);
    forall k | k in done + last ensures Holds(k, Set(flat) + {proc}) {
      if k in done {
        HoldsGrows(k, placed, Set(flat) + {proc});
      } else {
        BuildAllNothing(kids[i..]);
        RootIn(last, k);
      }
    }
  }

  lemma {:induction false} RootIn(ts: seq<Tree>, k: Tree)
    requires k in ts
    ensures k.proc in Roots(ts)
  {
    if k != ts[0] { RootIn(ts[1..], k); }
  }

  /** What the second loop of `unflatten` has established before it visits child `i`. */
  ghost predicate Visiting(rest: seq<Proc>, kids: seq<Proc>, i: nat, remainder: seq<Proc>, done: seq<Tree>,
                           placed: set<Proc>)
    reads placed, Set(remainder), Set(kids)
  {
    && i <= |kids| && NoDup(kids) && Set(kids) !! Set(rest)
    && NoDup(remainder) && |remainder| <= |rest| && Set(remainder) <= Set(rest)
    && BuildAll(rest, kids) == (done + BuildAll(remainder, kids[i..]).0, BuildAll(remainder, kids[i..]).1)
    && placed <= Set(kids) + Set(rest) && placed !! Set(remainder) && placed !! Set(kids[i..])
    && Bare(Set(kids[i..])) && Bare(Set(remainder))
    && AllHold(done, placed)
  }

  /** One round of the second loop: the recursive call on child `i`. */
  method Descend(ghost rest: seq<Proc>, kids: seq<Proc>, i: nat, before: seq<Proc>, ghost done: seq<Tree>,
                 ghost placed: set<Proc>)
    returns (remainder: seq<Proc>, ghost done1: seq<Tree>, ghost placed1: set<Proc>)
    requires i < |kids| && Visiting(rest, kids, i, before, done, placed)
    modifies kids[i], Set(before)
    ensures Visiting(rest, kids, i + 1, remainder, done1, placed1)
    decreases |before|, 1
  {
    var child := kids[i];
    Waiting(rest, kids, before, i);
    remainder := Unflatten(before, child);
    placed1 := Placed(rest, kids, done, before, i, placed);
    done1 := done + [Build(before, child).0];
  }

  /** Every process that was placed, and the root, has exactly its children, in input order. */
  ghost predicate AllListed(flat: seq<Proc>, root: Proc)
    reads Set(flat) + {root}
  {
    forall y | y in Set(flat) + {root} :: y == root || Reaches(flat, root, y) ==> Lists(y.children, y, flat)
  }

  lemma {:induction false} HeldLists(t: Tree, flat: seq<Proc>, region: set<Proc>, y: Proc)
    requires Holds(t, region) && Exact(t, flat) && NoDup(flat) && y in region && y in Nodes(t)
    ensures Lists(y.children, y, flat)
    decreases t
  {
    if y == t.proc {
      ChildrenInOrder(flat, y);
    } else {
      var k := KidWith(t.kids, y);
      HeldLists(k, flat, region, y);
    }
  }

  lemma {:induction false} KidWith(ts: seq<Tree>, y: Proc) returns (k: Tree)
    requires y in AllNodes(ts)
    ensures k in ts && y in Nodes(k)
  {
    if y in Nodes(ts[0]) {
      k := ts[0];
    } else {
      k := KidWith(ts[1..], y);
    }
  }

  lemma HeldAllListed(flat: seq<Proc>, root: Proc)
    requires root !in flat && NoDup(flat) && UniqueIds(Set(flat) + {root})
    requires Holds(Build(flat, root).0, Set(flat) + {root})
    ensures AllListed(flat, root)
  {
    ChildrenExact(flat, root);
    RemainderIsUnreached(flat, root);
    var t := Build(flat, root).0;
    forall y | y in Set(flat) + {root} && (y == root || Reaches(flat, root, y))
      ensures Lists(y.children, y, flat)
    {
      assert y != root ==> y in Set(AllNodes(t.kids));
      HeldLists(t, flat, Set(flat) + {root}, y);
    }
  }

  /** `unflatten`: afterwards the child lists are exactly the specified tree; with unique ids, each is
      exactly the children of its process in input order; and the result is what was not placed, in
      input order. */
  method Unflatten(flat: seq<Proc>, proc: Proc) returns (remainder: seq<Proc>)
    requires proc !in flat && NoDup(flat)
    requires proc.children == [] && Bare(Set(flat))
    modifies proc, Set(flat)
    ensures Holds(Build(flat, proc).0, Set(flat) + {proc})
    ensures remainder == Build(flat, proc).1
    ensures Bare(Set(remainder))
    ensures UniqueIds(Set(flat) + {proc}) ==> AllListed(flat, proc)
    ensures InOrder(remainder, flat) && forall x :: x in remainder <==> x in flat && !Reaches(flat, proc, x)
    decreases |flat|, 0
  {
    Claimed(flat, proc);
    remainder := Claim(flat, proc);
    ghost var kids, rest := proc.children, remainder;
    ghost var done: seq<Tree>, placed: set<Proc> := [], {};
    assert [] + BuildAll(rest, kids).0 == BuildAll(rest, kids).0;
    var i := 0;
    while i < |proc.children| && remainder != []
      invariant proc.children == kids && Visiting(rest, kids, i, remainder, done, placed)
      decreases |kids| - i
    {
      remainder, done, placed := Descend(rest, proc.children, i, remainder, done, placed);
      i := i + 1;
    }
    Finished(flat, proc, done, remainder, i, placed);
    Spelled(flat, proc);
  }

  lemma Spelled(flat: seq<Proc>, proc: Proc)
    requires proc !in flat && NoDup(flat) && Holds(Build(flat, proc).0, Set(flat) + {proc})
    ensures UniqueIds(Set(flat) + {proc}) ==> AllListed(flat, proc)
    ensures var remainder := Build(flat, proc).1;
      InOrder(remainder, flat) && forall x :: x in remainder <==> x in flat && !Reaches(flat, proc, x)
  {
    RemainderInOrder(flat, proc);
    if UniqueIds(Set(flat) + {proc}) {
      HeldAllListed(flat, proc);
    }
  }
}
