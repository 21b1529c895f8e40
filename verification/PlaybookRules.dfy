/** host/playbook.go: what edits of the routine tree leave alone, one by one and over any
    sequence of them. */
module PlaybookRules {
  import opened GoText
  import opened Playbook

  // ------------------------------------------------------------------ one edit each

  /** Distinct ids. */
  ghost predicate OneEach(ps: seq<Routine>) {
    forall i, j | 0 <= i < j < |ps| :: ps[i].id != ps[j].id
  }

  /** Exactly the routine of that id is other than it was, or new at the end. */
  ghost predicate OnlyRoutine(ps: seq<Routine>, z: seq<Routine>, id: string) {
    && |ps| <= |z| <= |ps| + 1
    && (forall i | 0 <= i < |ps| :: z[i].id == ps[i].id && (ps[i].id != id ==> z[i] == ps[i]))
    && (|z| > |ps| ==> z[|ps|].id == id)
  }

  ghost predicate Has(ps: seq<Routine>, id: string) { exists i | 0 <= i < |ps| :: ps[i].id == id }

  /** Saving a routine: it is found under its id, says what was asked for with the name
      trimmed, and was made and run when it was; a new one is made now. No other changes. */
  lemma RoutineSaved(ps: seq<Routine>, p: Routine, id: string, now: int) returns (k: nat)
    requires OneEach(ps)
    ensures var z := PutRoutine(ps, Stamped(ps, p, id, now));
      && OneEach(z) && OnlyRoutine(ps, z, id) && k < |z| && z[k].id == id
      && z[k].name == TrimSpace(p.name) && z[k].body == p.body && z[k].groupID == p.groupID && z[k].updatedAt == now
      && (if Has(ps, id) then k < |ps| && |z| == |ps| && SameHistory(ps[k], z[k]) else k == |ps| && z[k].createdAt == now)
  {
    k := RoutineIndex(ps, id);
    var s := Stamped(ps, p, id, now);
    assert RoutineIndex(ps, s.id) == k;
    var z := PutRoutine(ps, s);
    assert forall i | 0 <= i < |ps| && i != k :: z[i] == ps[i];
  }

  predicate SameHistory(a: Routine, b: Routine) {
    a.createdAt == b.createdAt && a.lastRunAt == b.lastRunAt && a.runCount == b.runCount
  }

  /** Where the routines of group x stand. */
  function Under(ps: seq<Routine>, x: string): set<nat> {
    set i | 0 <= i < |ps| && ps[i].groupID == x
  }

  /** Deleting a group: its routines are listed under its parent, besides those already
      there, those of other groups stay, and nothing else about any routine changes. */
  lemma RoutinesMoveUp(ps: seq<Routine>, id: string, parent: string, x: string)
    requires parent != id
    ensures var z := Regrouped(ps, id, parent);
      && Under(z, x) == (if x == id then {} else if x == parent then Under(ps, parent) + Under(ps, id) else Under(ps, x))
      && |z| == |ps| && forall i | 0 <= i < |ps| :: z[i].(groupID := ps[i].groupID) == ps[i]
  {}

  /** The ids in their order. */
  function IdList(gs: seq<Group>): (ids: seq<string>)
    ensures |ids| == |gs| && forall i | 0 <= i < |gs| :: ids[i] == gs[i].id
  {
    seq(|gs|, i requires 0 <= i < |gs| => gs[i].id)
  }

  ghost predicate Alike(g: Group, h: Group) { g.id == h.id && g.name == h.name && g.collapsed == h.collapsed }

  /** z holds x as gs does, its parent aside. */
  ghost predicate KeepsGroup(gs: seq<Group>, z: seq<Group>, x: string) {
    && (IndexOf(gs, x) < |gs| <==> IndexOf(z, x) < |z|)
    && (IndexOf(gs, x) < |gs| ==> Alike(gs[IndexOf(gs, x)], z[IndexOf(z, x)]))
  }

  /** Deleting a group takes one id out of the order and leaves name and fold of all others. */
  lemma {:induction false} GroupDeleted(gs: seq<Group>, id: string, parent: string)
    ensures var z := Without(gs, id, parent);
      IdList(z) == Removed(IdList(gs), id)
      && forall x | x != id :: KeepsGroup(gs, z, x)
  {
    if gs != [] {
      var f, g := gs[..|gs| - 1], gs[|gs| - 1];
      GroupDeleted(f, id, parent);
      assert gs == f + [g];
      GroupDeletedSnoc(f, g, gs, id, parent);
    }
  }

  lemma GroupDeletedSnoc(f: seq<Group>, g: Group, gs: seq<Group>, id: string, parent: string)
    requires gs == f + [g] && IdList(Without(f, id, parent)) == Removed(IdList(f), id)
    requires forall x | x != id :: KeepsGroup(f, Without(f, id, parent), x)
    ensures IdList(Without(gs, id, parent)) == Removed(IdList(gs), id)
    ensures forall x | x != id :: KeepsGroup(gs, Without(gs, id, parent), x)
  {
    assert gs[..|gs| - 1] == f;
    var w, h := Without(f, id, parent), if g.parentID == id then g.(parentID := parent) else g;
    assert IdList(gs) == IdList(f) + [g.id];
    RemovedSnoc(IdList(f), g.id, id);
    if g.id == id {
      assert Without(gs, id, parent) == w;
      forall x | x != id ensures KeepsGroup(gs, w, x) { KeptAt(f, g, w, w, x); }
    } else {
      assert IdList(w + [h]) == IdList(w) + [g.id];
      forall x | x != id ensures KeepsGroup(gs, w + [h], x) { KeptSnoc(f, g, w, h, x); }
    }
  }

  lemma {:induction false} RemovedSnoc(c: seq<string>, x: string, id: string)
    ensures Removed(c + [x], id) == Removed(c, id) + if x == id then [] else [x]
  {
    if c == [] {
      assert [] + [x] == [x] && [x][1..] == [];
    } else {
      RemovedSnoc(c[1..], x, id);
      assert (c + [x])[1..] == c[1..] + [x];
    }
  }

  lemma IndexSnoc(f: seq<Group>, g: Group, x: string)
    ensures IndexOf(f + [g], x) == if IndexOf(f, x) < |f| then IndexOf(f, x) else if g.id == x then |f| else |f| + 1
  {
    var z := f + [g];
    assert z[|f|] == g && forall i | 0 <= i < |f| :: z[i] == f[i];
  }

  lemma KeptAt(f: seq<Group>, g: Group, w: seq<Group>, z: seq<Group>, x: string)
    requires KeepsGroup(f, w, x) && z == w && g.id != x
    ensures KeepsGroup(f + [g], z, x)
  {
    IndexSnoc(f, g, x);
  }

  lemma KeptSnoc(f: seq<Group>, g: Group, w: seq<Group>, h: Group, x: string)
    requires KeepsGroup(f, w, x) && Alike(g, h)
    ensures KeepsGroup(f + [g], w + [h], x)
  {
    IndexSnoc(f, g, x);
    IndexSnoc(w, h, x);
  }

  /** Saving a group: it is found as it was given, every other one is where and what it
      was; a new one comes last. */
  lemma GroupSaved(gs: seq<Group>, g: Group) returns (k: nat)
    requires Distinct(gs) && g.id != ""
    ensures var z := PutGroup(gs, g);
      && k < |z| && z[k] == g && |z| == (if g.id in Ids(gs) then |gs| else |gs| + 1)
      && (forall i | 0 <= i < |gs| && i != k :: z[i] == gs[i])
      && (k < |gs| ==> gs[k].id == g.id)
  {
    k := IndexOf(gs, g.id);
    IndexOfIn(gs, g.id);
  }

  // ---------------------------------------------------------- any sequence of edits

  /** Those that touch routines. */
  datatype Edit = Save(p: Routine, id: string, now: int) | Drop(id: string) | DropGroup(group: string, parent: string)

  function Edited(ps: seq<Routine>, e: Edit): seq<Routine> {
    match e
    case Save(p, id, now) => PutRoutine(ps, Stamped(ps, p, id, now))
    case Drop(id) => var k := RoutineIndex(ps, id); if k < |ps| then Cut(ps, k) else ps
    case DropGroup(g, parent) => Regrouped(ps, g, parent)
  }

  function EditedBy(ps: seq<Routine>, es: seq<Edit>): seq<Routine> {
    if es == [] then ps else Edited(EditedBy(ps, es[..|es| - 1]), es[|es| - 1])
  }

  /** z has the routine r, made and run when r was. */
  ghost predicate Records(z: seq<Routine>, r: Routine) {
    exists i | 0 <= i < |z| :: z[i].id == r.id && SameHistory(r, z[i])
  }

  /** Taking entry k out leaves every other one, in order. */
  lemma CutKeeps(ps: seq<Routine>, k: nat)
    requires k < |ps|
    ensures |Cut(ps, k)| == |ps| - 1
    ensures (forall i | 0 <= i < k :: Cut(ps, k)[i] == ps[i]) && (forall i | k <= i < |ps| - 1 :: Cut(ps, k)[i] == ps[i + 1])
    ensures OneEach(ps) ==> OneEach(Cut(ps, k))
  {}

  lemma EditRecords(ps: seq<Routine>, e: Edit, r: Routine)
    requires OneEach(ps) && Records(ps, r) && e != Drop(r.id)
    ensures OneEach(Edited(ps, e)) && Records(Edited(ps, e), r)
  {
    var i :| 0 <= i < |ps| && ps[i].id == r.id && SameHistory(r, ps[i]);
    var z := Edited(ps, e);
    match e
    case Save(p, id, now) =>
      var k := RoutineSaved(ps, p, id, now);
      assert z[i].id == r.id;
    case Drop(id) =>
      var k := RoutineIndex(ps, id);
      if k < |ps| {
        CutKeeps(ps, k);
        assert i != k && z[if i < k then i else i - 1] == ps[i];
      }
    case DropGroup(_, _) => assert z[i].id == r.id && OneEach(z);
  }

  /** Whatever is saved, dropped or moved: until it is dropped itself a routine stays, and
      so do the time it was made, its last run and how often it ran. */
  lemma {:induction false} HistorySurvives(ps: seq<Routine>, es: seq<Edit>, r: Routine)
    requires OneEach(ps) && r in ps && Drop(r.id) !in es
    ensures OneEach(EditedBy(ps, es)) && Records(EditedBy(ps, es), r)
  {
    if es == [] {
      var i :| 0 <= i < |ps| && ps[i] == r;
    } else {
      var f := es[..|es| - 1];
      assert es[|es| - 1] in es && forall e | e in f :: e in es;
      HistorySurvives(ps, f, r);
      EditRecords(EditedBy(ps, f), es[|es| - 1], r);
    }
  }

  /** And one that is dropped is gone. */
  lemma Dropping(ps: seq<Routine>, id: string)
    requires OneEach(ps)
    ensures !Has(Edited(ps, Drop(id)), id)
  {
    var k := RoutineIndex(ps, id);
    if k < |ps| {
      CutKeeps(ps, k);
    }
  }
}
