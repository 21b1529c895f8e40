/** host/playbook.go: the routine tree. Groups form a forest kept under creation,
    renaming, moving and deletion; routines hang on existing groups. */
module Playbook {
  import opened GoText

  datatype Group = Group(id: string, name: string, parentID: string, collapsed: bool)

  datatype Routine = Routine(
    id: string, name: string, groupID: string, body: string,
    createdAt: int, updatedAt: int, lastRunAt: int, runCount: int)

  datatype Result<T> = Ok(value: T) | Err(error: string)

  // ------------------------------------------------------------ the parent walk

  function Ids(gs: seq<Group>): set<string> {
    set i | 0 <= i < |gs| :: gs[i].id
  }

  /** Where id first stands, |ids| if nowhere. */
  function Position(ids: seq<string>, id: string): (i: nat)
    ensures i <= |ids|
    ensures i < |ids| ==> ids[i] == id
    ensures forall j | 0 <= j < i :: ids[j] != id
  {
    if ids == [] || ids[0] == id then 0 else 1 + Position(ids[1..], id)
  }

  function IndexOf(gs: seq<Group>, id: string): (i: nat)
    ensures i <= |gs|
    ensures i < |gs| ==> gs[i].id == id
    ensures forall j | 0 <= j < i :: gs[j].id != id
  {
    var ids := seq(|gs|, i requires 0 <= i < |gs| => gs[i].id);
    assert forall j | 0 <= j < |gs| :: ids[j] == gs[j].id;
    Position(ids, id)
  }

  lemma IndexOfIn(gs: seq<Group>, id: string)
    ensures id in Ids(gs) <==> IndexOf(gs, id) < |gs|
  {}

  /** The parent of a group; "" above roots and unknown ids. */
  function ParentOf(gs: seq<Group>, id: string): string {
    if IndexOf(gs, id) < |gs| then gs[IndexOf(gs, id)].parentID else ""
  }

  /** k steps up from id. */
  function Up(gs: seq<Group>, id: string, k: nat): string
    decreases k
  {
    if id == "" || k == 0 then id else Up(gs, ParentOf(gs, id), k - 1)
  }

  /** id and its ancestors, at most n of them. */
  function Chain(gs: seq<Group>, id: string, n: nat): seq<string>
    decreases n
  {
    if id == "" || n == 0 then [] else [id] + Chain(gs, ParentOf(gs, id), n - 1)
  }

  /** Within n steps up from id the walk has left the tree. */
  predicate Tops(gs: seq<Group>, id: string, n: nat)
    decreases n
  {
    id == "" || (n > 0 && Tops(gs, ParentOf(gs, id), n - 1))
  }

  lemma {:induction false} TopsMore(gs: seq<Group>, id: string, n: nat, m: nat)
    requires Tops(gs, id, n) && n <= m
    ensures Tops(gs, id, m) && Chain(gs, id, m) == Chain(gs, id, n)
    decreases n
  {
    if id != "" { TopsMore(gs, ParentOf(gs, id), n - 1, m - 1); }
  }

  lemma {:induction false} ChainPrefix(gs: seq<Group>, id: string, n: nat, m: nat)
    requires n <= m
    ensures Chain(gs, id, n) <= Chain(gs, id, m)
    decreases n
  {
    if id != "" && n > 0 { ChainPrefix(gs, ParentOf(gs, id), n - 1, m - 1); }
  }

  lemma {:induction false} ChainSnoc(gs: seq<Group>, id: string, k: nat)
    requires Up(gs, id, k) != ""
    ensures Chain(gs, id, k + 1) == Chain(gs, id, k) + [Up(gs, id, k)] && |Chain(gs, id, k)| == k
    ensures Up(gs, id, k + 1) == ParentOf(gs, Up(gs, id, k))
    decreases k
  {
    if k > 0 { ChainSnoc(gs, ParentOf(gs, id), k - 1); }
  }

  lemma {:induction false} UpTops(gs: seq<Group>, id: string, k: nat)
    ensures Up(gs, id, k) == "" <==> Tops(gs, id, k)
    decreases k
  {
    if id != "" && k > 0 { UpTops(gs, ParentOf(gs, id), k - 1); }
  }

  /** The rest of a finite walk from where it meets x. */
  lemma {:induction false} RestOfWalk(gs: seq<Group>, id: string, n: nat, x: string) returns (k: nat)
    requires Tops(gs, id, n) && x in Chain(gs, id, n)
    ensures 0 < k <= n && Tops(gs, x, k)
    decreases n
  {
    if id == x { k := n; } else { k := RestOfWalk(gs, ParentOf(gs, id), n - 1, x); }
  }

  /** Who reaches the top is not among their own ancestors. */
  lemma {:induction false} NotOwnAncestor(gs: seq<Group>, x: string, m: nat)
    requires x != "" && Tops(gs, ParentOf(gs, x), m)
    ensures x !in Chain(gs, ParentOf(gs, x), m)
    decreases m
  {
    if x in Chain(gs, ParentOf(gs, x), m) {
      var k := RestOfWalk(gs, ParentOf(gs, x), m, x);
      TopsMore(gs, ParentOf(gs, x), k - 1, m);
      NotOwnAncestor(gs, x, k - 1);
    }
  }

  /** On a walk that reaches the top nobody comes twice. */
  lemma {:induction false} ChainNoRepeat(gs: seq<Group>, id: string, n: nat)
    requires Tops(gs, id, n)
    ensures var c := Chain(gs, id, n); forall i, j | 0 <= i < j < |c| :: c[i] != c[j]
    decreases n
  {
    if id != "" {
      ChainNoRepeat(gs, ParentOf(gs, id), n - 1);
      NotOwnAncestor(gs, id, n - 1);
    }
  }

  /** x lies on the walk up from id. */
  ghost predicate OnChain(gs: seq<Group>, id: string, x: string) {
    exists n: nat :: x in Chain(gs, id, n)
  }

  ghost predicate ReachesTop(gs: seq<Group>, id: string) {
    exists n: nat :: Tops(gs, id, n)
  }

  /** The whole walk is known once it tops out. */
  lemma OnChainTops(gs: seq<Group>, id: string, x: string, n: nat)
    requires Tops(gs, id, n)
    ensures OnChain(gs, id, x) <==> x in Chain(gs, id, n)
  {
    if OnChain(gs, id, x) {
      var m: nat :| x in Chain(gs, id, m);
      if m <= n { ChainPrefix(gs, id, m, n); } else { TopsMore(gs, id, n, m); }
    }
  }

  /** A walk that comes back to where it was never tops out. */
  lemma RepeatNeverTops(gs: seq<Group>, id: string, k: nat)
    requires Up(gs, id, k) != "" && Up(gs, id, k) in Chain(gs, id, k)
    ensures !ReachesTop(gs, id)
  {
    if ReachesTop(gs, id) {
      var n: nat :| Tops(gs, id, n);
      var m := if n > k then n else k + 1;
      TopsMore(gs, id, n, m);
      ChainPrefix(gs, id, k + 1, m);
      ChainSnoc(gs, id, k);
      var i :| 0 <= i < k && Chain(gs, id, k)[i] == Up(gs, id, k);
      assert i < |Chain(gs, id, m)| && k < |Chain(gs, id, m)| && Chain(gs, id, m)[i] == Chain(gs, id, m)[k];
      ChainNoRepeat(gs, id, m);
    }
  }

  // ------------------------------------------------------------------ validity

  ghost predicate Distinct(gs: seq<Group>) {
    && (forall i, j | 0 <= i < j < |gs| :: gs[i].id != gs[j].id)
    && (forall i | 0 <= i < |gs| :: gs[i].id != "")
  }

  ghost predicate Parented(gs: seq<Group>) {
    forall id | id in Ids(gs) :: ParentOf(gs, id) == "" || ParentOf(gs, id) in Ids(gs)
  }

  ghost predicate Forest(gs: seq<Group>) {
    forall id | id in Ids(gs) :: ReachesTop(gs, id)
  }

  ghost predicate ValidGroups(gs: seq<Group>) {
    Distinct(gs) && Parented(gs) && Forest(gs)
  }

  ghost predicate ValidRoutines(gs: seq<Group>, ps: seq<Routine>) {
    && (forall i, j | 0 <= i < j < |ps| :: ps[i].id != ps[j].id)
    && (forall i | 0 <= i < |ps| :: ps[i].groupID == "" || ps[i].groupID in Ids(gs))
  }

  // ------------------------------------------------ creating, renaming, moving

  function PutGroup(gs: seq<Group>, g: Group): seq<Group> {
    if IndexOf(gs, g.id) < |gs| then gs[IndexOf(gs, g.id) := g] else gs + [g]
  }

  lemma {:induction false} IndexOfUnique(gs: seq<Group>, i: nat)
    requires Distinct(gs) && i < |gs|
    ensures IndexOf(gs, gs[i].id) == i
  {
    var k := IndexOf(gs, gs[i].id);
    IndexOfIn(gs, gs[i].id);
  }

  lemma PutGroupParents(gs: seq<Group>, g: Group)
    requires Distinct(gs) && g.id != ""
    ensures Distinct(PutGroup(gs, g)) && Ids(PutGroup(gs, g)) == Ids(gs) + {g.id}
    ensures forall x :: ParentOf(PutGroup(gs, g), x) == if x == g.id then g.parentID else ParentOf(gs, x)
  {
    var z, k := PutGroup(gs, g), IndexOf(gs, g.id);
    assert Distinct(z);
    assert z[k] == g;
    forall x ensures ParentOf(z, x) == if x == g.id then g.parentID else ParentOf(gs, x) {
      if x == g.id {
        IndexOfUnique(z, k);
      } else {
        SameIndex(gs, z, x, k);
      }
    }
    assert Ids(z) == Ids(gs) + {g.id} by {
      forall x | x in Ids(gs) + {g.id} ensures x in Ids(z) {
        if x != g.id { SameIndex(gs, z, x, k); IndexOfIn(gs, x); IndexOfIn(z, x); } else { assert z[k].id == x; }
      }
    }
  }

  /** Lists alike except at k agree about ids not at k. */
  lemma SameIndex(gs: seq<Group>, z: seq<Group>, x: string, k: nat)
    requires k <= |gs| && k < |z| && |gs| <= |z| <= |gs| + 1 && (|z| > |gs| ==> k == |gs|)
    requires forall i | 0 <= i < |gs| && i != k :: gs[i] == z[i]
    requires z[k].id != x && (k < |gs| ==> gs[k].id != x)
    ensures IndexOf(gs, x) < |gs| <==> IndexOf(z, x) < |z|
    ensures IndexOf(gs, x) < |gs| ==> IndexOf(z, x) == IndexOf(gs, x)
  {
    var i, j := IndexOf(gs, x), IndexOf(z, x);
    if i < |gs| { assert z[i].id == x; }
    if j < |z| { assert gs[j].id == x; }
  }

  /** As long as a walk does not meet id, changing id's parent does not show. */
  lemma {:induction false} WalkUntouched(gs: seq<Group>, z: seq<Group>, id: string, x: string, n: nat)
    requires forall y | y != id :: ParentOf(z, y) == ParentOf(gs, y)
    requires id !in Chain(gs, x, n)
    ensures Tops(z, x, n) == Tops(gs, x, n) && Chain(z, x, n) == Chain(gs, x, n)
    decreases n
  {
    if x != "" && n > 0 { WalkUntouched(gs, z, id, ParentOf(gs, x), n - 1); }
  }

  lemma {:induction false} WalkOverMoved(gs: seq<Group>, z: seq<Group>, id: string, m: nat, x: string, n: nat)
    requires forall y | y != id :: ParentOf(z, y) == ParentOf(gs, y)
    requires Tops(z, id, m) && Tops(gs, x, n)
    ensures Tops(z, x, n + m)
    decreases n
  {
    if x == id {
      TopsMore(z, id, m, n + m);
    } else if x != "" {
      WalkOverMoved(gs, z, id, m, ParentOf(gs, x), n - 1);
    }
  }

  lemma MovedForest(gs: seq<Group>, z: seq<Group>, id: string, m: nat)
    requires forall y | y != id :: ParentOf(z, y) == ParentOf(gs, y)
    requires Tops(z, id, m) && Forest(gs) && Ids(z) == Ids(gs) + {id}
    ensures Forest(z)
  {
    forall x | x in Ids(z) ensures ReachesTop(z, x) {
      if x != id {
        assert ReachesTop(gs, x);
        var k: nat :| Tops(gs, x, k);
        WalkOverMoved(gs, z, id, m, x, k);
      }
    }
  }

  lemma KnownReachesTop(gs: seq<Group>, id: string) returns (n: nat)
    requires Forest(gs) && (id == "" || id in Ids(gs))
    ensures Tops(gs, id, n)
  {
    if id == "" {
      n := 0;
    } else {
      assert ReachesTop(gs, id);
      n :| Tops(gs, id, n);
    }
  }

  /** Putting a group under a parent that is not below it keeps the forest. */
  lemma PutGroupValid(gs: seq<Group>, g: Group)
    requires ValidGroups(gs) && g.id != ""
    requires g.parentID == "" || g.parentID in Ids(gs)
    requires !OnChain(gs, g.parentID, g.id)
    ensures ValidGroups(PutGroup(gs, g)) && Ids(PutGroup(gs, g)) == Ids(gs) + {g.id}
  {
    var z := PutGroup(gs, g);
    PutGroupParents(gs, g);
    var n := KnownReachesTop(gs, g.parentID);
    assert g.id !in Chain(gs, g.parentID, n);
    WalkUntouched(gs, z, g.id, g.parentID, n);
    assert Tops(z, g.id, n + 1);
    MovedForest(gs, z, g.id, n + 1);
    assert Parented(z) by {
      forall x | x in Ids(z) ensures ParentOf(z, x) == "" || ParentOf(z, x) in Ids(z) {
        assert x == g.id || x in Ids(gs);
      }
    }
  }

  // ---------------------------------------------------------------- deletion

  /** DeleteGroup's new list: id is gone, its children hang on parent. */
  function Without(gs: seq<Group>, id: string, parent: string): seq<Group> {
    if gs == [] then []
    else
      var g := gs[|gs| - 1];
      Without(gs[..|gs| - 1], id, parent)
        + if g.id == id then [] else [if g.parentID == id then g.(parentID := parent) else g]
  }

  function Regrouped(ps: seq<Routine>, id: string, parent: string): (r: seq<Routine>)
    ensures |r| == |ps|
    ensures forall i | 0 <= i < |ps| :: r[i] == if ps[i].groupID == id then ps[i].(groupID := parent) else ps[i]
  {
    seq(|ps|, i requires 0 <= i < |ps| => if ps[i].groupID == id then ps[i].(groupID := parent) else ps[i])
  }

  lemma Snoc(gs: seq<Group>, g: Group)
    ensures Ids(gs + [g]) == Ids(gs) + {g.id}
    ensures Distinct(gs) && g.id !in Ids(gs) && g.id != "" ==> Distinct(gs + [g])
  {
    var z := gs + [g];
    assert forall i | 0 <= i < |gs| :: z[i] == gs[i] && gs[i].id in Ids(gs);
    assert z[|gs|] == g;
  }

  lemma {:induction false} WithoutIds(gs: seq<Group>, id: string, parent: string)
    requires Distinct(gs)
    ensures Ids(Without(gs, id, parent)) == Ids(gs) - {id} && Distinct(Without(gs, id, parent))
  {
    if gs != [] {
      var front, g := gs[..|gs| - 1], gs[|gs| - 1];
      WithoutIds(front, id, parent);
      var w := Without(front, id, parent);
      assert gs == front + [g];
      Snoc(front, g);
      assert g.id !in Ids(front);
      if g.id == id {
        assert Without(gs, id, parent) == w;
      } else {
        Snoc(w, if g.parentID == id then g.(parentID := parent) else g);
      }
    }
  }

  lemma {:induction false} WithoutHas(gs: seq<Group>, id: string, parent: string, i: nat) returns (j: nat)
    requires i < |gs| && gs[i].id != id
    ensures var z := Without(gs, id, parent);
      j < |z| && z[j] == if gs[i].parentID == id then gs[i].(parentID := parent) else gs[i]
  {
    var w := Without(gs[..|gs| - 1], id, parent);
    if i == |gs| - 1 {
      j := |w|;
    } else {
      assert gs[..|gs| - 1][i] == gs[i];
      j := WithoutHas(gs[..|gs| - 1], id, parent, i);
      assert Without(gs, id, parent)[j] == w[j];
    }
  }

  lemma WithoutParents(gs: seq<Group>, id: string, parent: string, x: string)
    requires Distinct(gs) && x in Ids(gs) && x != id
    ensures ParentOf(Without(gs, id, parent), x) == if ParentOf(gs, x) == id then parent else ParentOf(gs, x)
  {
    IndexOfIn(gs, x);
    var j := WithoutHas(gs, id, parent, IndexOf(gs, x));
    WithoutIds(gs, id, parent);
    IndexOfUnique(Without(gs, id, parent), j);
  }

  function Removed(c: seq<string>, id: string): seq<string> {
    if c == [] then [] else (if c[0] == id then [] else [c[0]]) + Removed(c[1..], id)
  }

  lemma {:induction false} RemovedAbsent(c: seq<string>, id: string)
    requires id !in c
    ensures Removed(c, id) == c
  {
    if c != [] { RemovedAbsent(c[1..], id); }
  }

  lemma RemovedSkips(x: string, id: string, c: seq<string>)
    requires x != id
    ensures Removed([x] + ([id] + c), id) == [x] + Removed(c, id)
  {
    assert ([x] + ([id] + c))[1..] == [id] + c && ([id] + c)[1..] == c;
  }

  /** Every remaining node keeps its ancestors, the deleted one taken out. */
  lemma {:induction false} DeleteKeepsChains(gs: seq<Group>, id: string, x: string, n: nat)
    requires ValidGroups(gs) && id in Ids(gs) && x != id && (x == "" || x in Ids(gs)) && Tops(gs, x, n)
    ensures var z := Without(gs, id, ParentOf(gs, id));
      Tops(z, x, n) && Chain(z, x, n) == Removed(Chain(gs, x, n), id)
    decreases n
  {
    var p, z := ParentOf(gs, id), Without(gs, id, ParentOf(gs, id));
    if x != "" {
      var y := ParentOf(gs, x);
      WithoutParents(gs, id, p, x);
      assert id != "" by { IndexOfIn(gs, id); }
      assert Chain(gs, x, n)[1..] == Chain(gs, y, n - 1);
      if y == id {
        SelfParentNever(gs, id);
        assert p == "" || p in Ids(gs);
        DeleteKeepsChains(gs, id, p, n - 2);
        TopsMore(z, p, n - 2, n - 1);
        NotOwnAncestor(gs, id, n - 2);
        RemovedAbsent(Chain(gs, p, n - 2), id);
        assert Chain(gs, x, n) == [x] + ([id] + Chain(gs, p, n - 2));
        RemovedSkips(x, id, Chain(gs, p, n - 2));
      } else {
        DeleteKeepsChains(gs, id, y, n - 1);
      }
    }
  }

  lemma DeleteValid(gs: seq<Group>, ps: seq<Routine>, id: string)
    requires ValidGroups(gs) && ValidRoutines(gs, ps) && id in Ids(gs)
    ensures var p := ParentOf(gs, id);
      ValidGroups(Without(gs, id, p)) && ValidRoutines(Without(gs, id, p), Regrouped(ps, id, p))
  {
    var p := ParentOf(gs, id);
    var z := Without(gs, id, p);
    WithoutIds(gs, id, p);
    assert p != id by { SelfParentNever(gs, id); }
    forall x | x in Ids(z) ensures (ParentOf(z, x) == "" || ParentOf(z, x) in Ids(z)) && ReachesTop(z, x) {
      WithoutParents(gs, id, p, x);
      assert ReachesTop(gs, x);
      var n: nat :| Tops(gs, x, n);
      DeleteKeepsChains(gs, id, x, n);
    }
  }

  lemma SelfParentNever(gs: seq<Group>, id: string)
    requires ValidGroups(gs) && id in Ids(gs)
    ensures ParentOf(gs, id) != id && id != ""
  {
    IndexOfIn(gs, id);
    var n: nat :| Tops(gs, id, n);
    var m: nat := n - 1;
    NotOwnAncestor(gs, id, m);
    assert ParentOf(gs, id) == id ==> id in Chain(gs, ParentOf(gs, id), m);
  }

  // --------------------------------------------------------------- the store

  class PlaybookStore {
    var groups: seq<Group>
    var routines: seq<Routine>

    ghost predicate Valid()
      reads this
    {
      ValidGroups(groups) && ValidRoutines(groups, routines)
    }

    constructor ()
      ensures Valid() && groups == [] && routines == []
    {
      groups, routines := [], [];
    }

    method FindGroup(id: string) returns (i: nat)
      ensures i == IndexOf(groups, id)
    {
      i := 0;
      while i < |groups| && groups[i].id != id
        invariant i <= |groups| && forall j | 0 <= j < i :: groups[j].id != id
      {
        i := i + 1;
      }
    }

    /** On any graph at all: true iff the walk up from newParent meets id or goes
        round for ever; it always returns. */
    method CreatesGroupCycle(id: string, newParent: string) returns (r: bool)
      requires id != ""
      ensures r <==> OnChain(groups, newParent, id) || !ReachesTop(groups, newParent)
    {
      var seen: set<string> := {};
      var cur := newParent;
      ghost var k: nat := 0;
      while cur != ""
        invariant cur == Up(groups, newParent, k)
        invariant forall x :: x in seen <==> x in Chain(groups, newParent, k)
        invariant id !in Chain(groups, newParent, k)
        invariant seen <= Ids(groups)
        decreases Ids(groups) - seen
      {
        ChainSnoc(groups, newParent, k);
        if cur == id {
          assert id in Chain(groups, newParent, k + 1);
          return true;
        }
        if cur in seen {
          RepeatNeverTops(groups, newParent, k);
          return true;
        }
        seen := seen + {cur};
        k := k + 1;
        var i := FindGroup(cur);
        if i >= |groups| {
          UpTops(groups, newParent, k);
          OnChainTops(groups, newParent, id, k);
          return false;
        }
        assert cur in Ids(groups) by { IndexOfIn(groups, cur); }
        cur := groups[i].parentID;
      }
      UpTops(groups, newParent, k);
      OnChainTops(groups, newParent, id, k);
      return false;
    }

    /** mint: the id a group without one gets. */
    method UpsertGroup(g: Group, mint: string) returns (r: Result<Group>)
      requires Valid() && mint != "" && mint !in Ids(groups)
      modifies this`groups
      ensures Valid()
      ensures var n := g.(name := TrimSpace(g.name), id := if g.id == "" then mint else g.id);
        if n.name == "" || (g.id != "" && g.parentID == g.id) || (g.parentID != "" && g.parentID !in Ids(old(groups)))
           || (g.id != "" && OnChain(old(groups), g.parentID, g.id))
        then r.Err? && groups == old(groups)
        else r == Ok(n) && groups == PutGroup(old(groups), n)
    {
      var name := TrimSpace(g.name);
      if name == "" {
        return Err("group name required");
      }
      if g.id != "" && g.parentID == g.id {
        return Err("group cannot be its own parent");
      }
      if g.parentID != "" {
        var p := FindGroup(g.parentID);
        IndexOfIn(groups, g.parentID);
        if p >= |groups| {
          return Err("parent group not found");
        }
      }
      assert ReachesTop(groups, g.parentID) by { assert Tops(groups, "", 0); }
      if g.id != "" {
        var cyclic := CreatesGroupCycle(g.id, g.parentID);
        if cyclic {
          return Err("move would create a cycle");
        }
      }
      var n := g.(name := name, id := if g.id == "" then mint else g.id);
      if g.id == "" { FreshOffChain(groups, g.parentID, mint); }
      PutGroupValid(groups, n);
      IndexOfIn(groups, n.id);
      if g.id == "" {
        groups := groups + [n];
      } else {
        var i := FindGroup(g.id);
        groups := if i < |groups| then groups[i := n] else groups + [n];
      }
      r := Ok(n);
    }

    method DeleteGroup(id: string) returns (r: Result<()>)
      requires Valid()
      modifies this
      ensures Valid()
      ensures if id !in Ids(old(groups)) then r.Err? && groups == old(groups) && routines == old(routines)
        else (var p := ParentOf(old(groups), id);
              r.Ok? && groups == Without(old(groups), id, p) && routines == Regrouped(old(routines), id, p))
    {
      var t := FindGroup(id);
      IndexOfIn(groups, id);
      if t >= |groups| {
        return Err("group not found");
      }
      var parent := groups[t].parentID;
      DeleteValid(groups, routines, id);
      groups := Kept(id, parent);
      Regroup(id, parent);
      r := Ok(());
    }

    method Kept(id: string, parent: string) returns (kept: seq<Group>)
      ensures kept == Without(groups, id, parent)
    {
      kept := [];
      for i := 0 to |groups|
        invariant kept == Without(groups[..i], id, parent)
      {
        var g := groups[i];
        assert groups[..i + 1][..i] == groups[..i];
        if g.id == id {
          continue;
        }
        kept := kept + [if g.parentID == id then g.(parentID := parent) else g];
      }
      assert groups[..|groups|] == groups;
    }

    method Regroup(id: string, parent: string)
      modifies this`routines
      ensures routines == Regrouped(old(routines), id, parent)
    {
      for i := 0 to |routines|
        invariant |routines| == |old(routines)|
        invariant forall j | 0 <= j < i :: routines[j] == Regrouped(old(routines), id, parent)[j]
        invariant forall j | i <= j < |routines| :: routines[j] == old(routines)[j]
      {
        if routines[i].groupID == id {
          routines := routines[i := routines[i].(groupID := parent)];
        }
      }
    }

    method FindPlaybook(id: string) returns (i: nat)
      ensures i == RoutineIndex(routines, id)
    {
      i := 0;
      while i < |routines| && routines[i].id != id
        invariant i <= |routines| && forall j | 0 <= j < i :: routines[j].id != id
      {
        i := i + 1;
      }
    }

    /** An existing routine keeps its creation time and run statistics. */
    method UpsertPlaybook(p: Routine, mint: string, now: int) returns (r: Result<Routine>)
      requires Valid() && mint != "" && RoutineIndex(routines, mint) == |routines|
      modifies this`routines
      ensures Valid()
      ensures var id := if p.id == "" then mint else p.id;
        if TrimSpace(p.name) == "" || (p.groupID != "" && p.groupID !in Ids(groups))
        then r.Err? && routines == old(routines)
        else r == Ok(Stamped(old(routines), p, id, now)) && routines == PutRoutine(old(routines), r.value)
    {
      var name := TrimSpace(p.name);
      if name == "" {
        return Err("routine name required");
      }
      if p.groupID != "" {
        var g := FindGroup(p.groupID);
        IndexOfIn(groups, p.groupID);
        if g >= |groups| {
          return Err("group not found");
        }
      }
      var n := p.(name := name, id := if p.id == "" then mint else p.id, createdAt := now, updatedAt := now);
      var i := FindPlaybook(n.id);
      if i < |routines| {
        var x := routines[i];
        n := n.(createdAt := x.createdAt, lastRunAt := x.lastRunAt, runCount := x.runCount);
        routines := routines[i := n];
      } else {
        routines := routines + [n];
      }
      r := Ok(n);
    }

    method DeletePlaybook(id: string) returns (r: Result<()>)
      requires Valid()
      modifies this`routines
      ensures Valid()
      ensures var i := RoutineIndex(old(routines), id);
        if i == |old(routines)| then r.Err? && routines == old(routines)
        else r.Ok? && routines == Cut(old(routines), i)
    {
      var kept: seq<Routine> := [];
      var found := false;
      for i := 0 to |routines|
        invariant found <==> RoutineIndex(routines, id) < i
        invariant kept == Dropped(routines[..i], id)
      {
        assert routines[..i + 1][..i] == routines[..i];
        if routines[i].id == id {
          found := true;
          continue;
        }
        kept := kept + [routines[i]];
      }
      assert routines[..|routines|] == routines;
      if !found {
        return Err("routine not found");
      }
      DroppedOne(routines, id);
      DropKeepsValid(groups, routines, RoutineIndex(routines, id));
      routines := kept;
      r := Ok(());
    }
  }

  /** ps without every entry of that id. */
  function Dropped(ps: seq<Routine>, id: string): seq<Routine> {
    if ps == [] then []
    else Dropped(ps[..|ps| - 1], id) + if ps[|ps| - 1].id == id then [] else [ps[|ps| - 1]]
  }

  lemma {:induction false} DroppedAbsent(ps: seq<Routine>, id: string)
    requires forall i | 0 <= i < |ps| :: ps[i].id != id
    ensures Dropped(ps, id) == ps
  {
    if ps != [] {
      var front, last := ps[..|ps| - 1], ps[|ps| - 1];
      DroppedAbsent(front, id);
      assert ps == front + [last];
    }
  }

  function Cut<T>(s: seq<T>, k: nat): seq<T>
    requires k < |s|
  {
    s[..k] + s[k + 1..]
  }

  lemma CutSnoc<T>(front: seq<T>, last: T, k: nat)
    requires k < |front|
    ensures Cut(front + [last], k) == Cut(front, k) + [last]
  {
    var s := front + [last];
    assert s[..k] == front[..k];
    assert s[k + 1..] == front[k + 1..] + [last];
  }

  lemma CutLast<T>(front: seq<T>, last: T)
    ensures Cut(front + [last], |front|) == front
  {}

  lemma IndexInFront(front: seq<Routine>, last: Routine, id: string)
    requires RoutineIndex(front + [last], id) < |front|
    ensures RoutineIndex(front, id) == RoutineIndex(front + [last], id)
  {
    var ps := front + [last];
    assert forall i | 0 <= i < |front| :: ps[i] == front[i];
    assert front[RoutineIndex(ps, id)].id == id;
  }

  /** Ids being distinct, dropping an id takes out one entry and no other. */
  lemma {:induction false} DroppedOne(ps: seq<Routine>, id: string)
    requires forall i, j | 0 <= i < j < |ps| :: ps[i].id != ps[j].id
    requires RoutineIndex(ps, id) < |ps|
    ensures Dropped(ps, id) == Cut(ps, RoutineIndex(ps, id))
  {
    var front, last := ps[..|ps| - 1], ps[|ps| - 1];
    assert ps == front + [last];
    if RoutineIndex(ps, id) == |front| {
      DroppedAbsent(front, id);
      CutLast(front, last);
    } else {
      IndexInFront(front, last, id);
      DroppedOne(front, id);
      CutSnoc(front, last, RoutineIndex(ps, id));
    }
  }

  lemma DropKeepsValid(gs: seq<Group>, ps: seq<Routine>, k: nat)
    requires ValidRoutines(gs, ps) && k < |ps|
    ensures ValidRoutines(gs, Cut(ps, k))
  {
    var z := Cut(ps, k);
    assert forall i | 0 <= i < |z| :: z[i] == ps[if i < k then i else i + 1];
  }

  function RoutineIndex(ps: seq<Routine>, id: string): (i: nat)
    ensures i <= |ps|
    ensures i < |ps| ==> ps[i].id == id
    ensures forall j | 0 <= j < i :: ps[j].id != id
  {
    var ids := seq(|ps|, i requires 0 <= i < |ps| => ps[i].id);
    assert forall j | 0 <= j < |ps| :: ids[j] == ps[j].id;
    Position(ids, id)
  }

  /** p as it is stored under id at time now. */
  function Stamped(ps: seq<Routine>, p: Routine, id: string, now: int): Routine {
    var i := RoutineIndex(ps, id);
    var q := p.(name := TrimSpace(p.name), id := id, createdAt := now, updatedAt := now);
    if i < |ps| then q.(createdAt := ps[i].createdAt, lastRunAt := ps[i].lastRunAt, runCount := ps[i].runCount) else q
  }

  function PutRoutine(ps: seq<Routine>, p: Routine): seq<Routine> {
    var i := RoutineIndex(ps, p.id);
    if i < |ps| then ps[i := p] else ps + [p]
  }

  /** An id nobody has yet is on no walk up from a known group. */
  lemma FreshOffChain(gs: seq<Group>, parent: string, mint: string)
    requires ValidGroups(gs) && (parent == "" || parent in Ids(gs)) && mint !in Ids(gs) && mint != ""
    ensures !OnChain(gs, parent, mint)
  {
    forall n: nat ensures mint !in Chain(gs, parent, n) { ChainKnown(gs, parent, n); }
  }

  lemma ParentKnown(gs: seq<Group>, id: string)
    requires ValidGroups(gs) && id in Ids(gs)
    ensures ParentOf(gs, id) == "" || ParentOf(gs, id) in Ids(gs)
  {}

  lemma {:induction false} ChainKnown(gs: seq<Group>, id: string, n: nat)
    requires ValidGroups(gs) && (id == "" || id in Ids(gs))
    ensures forall x | x in Chain(gs, id, n) :: x in Ids(gs)
    decreases n
  {
    if id != "" && n > 0 {
      ParentKnown(gs, id);
      ChainKnown(gs, ParentOf(gs, id), n - 1);
      assert Chain(gs, id, n) == [id] + Chain(gs, ParentOf(gs, id), n - 1);
    }
  }

  /** The cycle walk's other reason to say no: a and b under each other, and a group c
      on neither's walk is still refused below them. */
  lemma OldCycleRefused() returns (gs: seq<Group>)
    ensures !OnChain(gs, "a", "c") && !ReachesTop(gs, "a")
  {
    gs := [Group("a", "A", "b", false), Group("b", "B", "a", false)];
    assert "a"[0] == 'a' && "b"[0] == 'b' && "c"[0] == 'c';
    assert gs[0].id == "a" && gs[1].id == "b" && "a" != "b";
    assert IndexOf(gs, "a") == 0 && IndexOf(gs, "b") == 1;
    forall n: nat ensures !Tops(gs, "a", n) && "c" !in Chain(gs, "a", n) { GoesRound(gs, "a", "b", "c", n); }
  }

  lemma {:induction false} GoesRound(gs: seq<Group>, a: string, b: string, c: string, n: nat)
    requires a != "" && b != "" && a != c && b != c && ParentOf(gs, a) == b && ParentOf(gs, b) == a
    ensures !Tops(gs, a, n) && c !in Chain(gs, a, n)
    decreases n
  {
    if n > 0 { GoesRound(gs, b, a, c, n - 1); }
  }
}
