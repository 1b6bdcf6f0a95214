/** What every run of the category commands keeps: the path index agrees with the parent relation. */
module CategoryIndex {
  import opened Common
  import opened Categories

  // ---------------------------------------------------------------- the parent relation

  /** The category n steps up from id. */
  function Climb(t: Table, id: Id, n: nat): Option<Id>
    decreases n
  {
    if n == 0 then Some(id)
    else if id in t && t[id].parentId.Some? then Climb(t, t[id].parentId.value, n - 1)
    else None
  }

  ghost predicate Descends(t: Table, ancestor: Id, id: Id) {
    exists n: nat :: n > 0 && Climb(t, id, n) == Some(ancestor)
  }

  // ---------------------------------------------------------------- the index

  predicate ParentKnown(t: Table, c: Category) {
    c.parentId.Some? ==> c.parentId.value in t
  }

  function ParentPath(t: Table, c: Category): string
    requires ParentKnown(t, c)
  {
    if c.parentId.Some? then t[c.parentId.value].path else ""
  }

  ghost predicate Indexed(t: Table) {
    forall k :: k in t ==>
      IsId(k) && ParentKnown(t, t[k]) && t[k].path == ParentPath(t, t[k]) + "/" + k
  }

  /** The last '/' of a path is the one before its id. */
  lemma {:induction false} NoSlashInId(front: string, id: Id)
    requires IsId(id)
    ensures forall k :: |front| < k < |front + "/" + id| ==> (front + "/" + id)[k] != '/'
  {
    var path := front + "/" + id;
    forall k | |front| < k < |path| ensures path[k] != '/' {
      var c := id[k - |front| - 1];
      assert c in id && path[k] == c;
    }
  }

  lemma {:induction false} ExtendsOneSegment(path: string, front: string, id: Id)
    requires IsId(id) && path != ""
    ensures path + "/" <= front + "/" + id <==> front != "" && (path == front || path + "/" <= front)
  {
    var whole := front + "/" + id;
    NoSlashInId(front, id);
    if path + "/" <= whole {
      assert whole[|path|] == (path + "/")[|path|] == '/';
      assert |path| <= |front|;
      assert path == whole[..|path|] == front[..|path|];
    }
  }

  lemma {:induction false} PathNamesTheCategory(t: Table, a: Id, b: Id)
    requires Indexed(t) && a in t && b in t && t[a].path == t[b].path
    ensures a == b
  {
    var path := t[a].path;
    assert path[|path| - IdLength..] == a;
    assert path[|path| - IdLength..] == b;
  }

  /** One step of the equivalence between the prefix test and the parent relation. */
  lemma {:induction false} InsideByParent(t: Table, a: Id, b: Id)
    requires Indexed(t) && a in t && b in t
    ensures Inside(t[a].path, t[b].path) <==>
      t[b].parentId.Some? && (t[b].parentId.value == a || Inside(t[a].path, t[t[b].parentId.value].path))
  {
    ExtendsOneSegment(t[a].path, ParentPath(t, t[b]), b);
    if t[b].parentId.Some? && t[t[b].parentId.value].path == t[a].path {
      PathNamesTheCategory(t, a, t[b].parentId.value);
    }
  }

  lemma {:induction false} ClimbIsInside(t: Table, a: Id, b: Id, n: nat)
    requires Indexed(t) && a in t && b in t && n > 0 && Climb(t, b, n) == Some(a)
    ensures Inside(t[a].path, t[b].path)
    decreases n
  {
    InsideByParent(t, a, b);
    if n > 1 {
      ClimbIsInside(t, a, t[b].parentId.value, n - 1);
    }
  }

  lemma {:induction false} InsideIsClimb(t: Table, a: Id, b: Id) returns (n: nat)
    requires Indexed(t) && a in t && b in t && Inside(t[a].path, t[b].path)
    ensures n > 0 && Climb(t, b, n) == Some(a)
    decreases |t[b].path|
  {
    InsideByParent(t, a, b);
    var p := t[b].parentId.value;
    if p == a {
      n := 1;
      assert Climb(t, p, 0) == Some(a);
    } else {
      n := InsideIsClimb(t, a, p);
      n := n + 1;
    }
  }

  /** The prefix query finds the proper descendants, all of them and nothing else. */
  lemma {:induction false} PrefixQueryFindsDescendants(t: Table, a: Id, b: Id)
    requires Indexed(t) && a in t && b in t
    ensures Inside(t[a].path, t[b].path) <==> Descends(t, a, b)
  {
    if Inside(t[a].path, t[b].path) {
      var n := InsideIsClimb(t, a, b);
    }
    if Descends(t, a, b) {
      var n: nat :| n > 0 && Climb(t, b, n) == Some(a);
      ClimbIsInside(t, a, b, n);
    }
  }

  /** No category is its own ancestor: the path is longer at every step down. */
  lemma {:induction false} ForestIsAcyclic(t: Table, a: Id)
    requires Indexed(t) && a in t
    ensures !Descends(t, a, a)
  {
    PrefixQueryFindsDescendants(t, a, a);
  }

  // ---------------------------------------------------------------- every command keeps it

  lemma CreateKeepsIndex(t: Table, id: Id, parentId: string)
    requires Indexed(t) && IsId(id) && id !in t && Created(t, id, parentId).Ok?
    ensures Indexed(Created(t, id, parentId).value)
  {}

  lemma DeleteKeepsIndex(t: Table, id: Id, hasProducts: bool)
    requires Indexed(t) && Deleted(t, id, hasProducts).Ok?
    ensures Indexed(Deleted(t, id, hasProducts).value)
  {}

  lemma Rebase(old_: string, next: string, front: string, id: Id)
    requires old_ <= front
    ensures next + (front + "/" + id)[|old_|..] == (next + front[|old_|..]) + "/" + id
  {}

  /** The parent of a moved subtree's member moves along, so its path stays the parent's path and its id. */
  lemma {:induction false} MovedMember(t: Table, id: Id, parentId: Option<Id>, next: string, k: Id)
    requires Indexed(t) && id in t && k in t && k != id && Inside(t[id].path, t[k].path)
    ensures var u := Moved(t, id, parentId, next);
      ParentKnown(u, u[k]) && u[k].path == ParentPath(u, u[k]) + "/" + k
  {
    InsideByParent(t, id, k);
    var p := t[k].parentId.value;
    Rebase(t[id].path, next, t[p].path, k);
    assert p == id ==> next + t[p].path[|t[id].path|..] == next;
  }

  lemma {:induction false} MoveKeepsIndex(t: Table, id: Id, parentId: Option<Id>, next: string)
    requires Indexed(t) && id in t
    requires parentId.Some? ==>
      parentId.value in t && parentId.value != id && !Inside(t[id].path, t[parentId.value].path)
    requires next == (if parentId.Some? then t[parentId.value].path else "") + "/" + id
    ensures Indexed(Moved(t, id, parentId, next))
  {
    var u := Moved(t, id, parentId, next);
    forall k | k in u
      ensures IsId(k) && ParentKnown(u, u[k]) && u[k].path == ParentPath(u, u[k]) + "/" + k
    {
      if k == id {
      } else if Inside(t[id].path, t[k].path) {
        MovedMember(t, id, parentId, next, k);
      } else {
        InsideByParent(t, id, k);
      }
    }
  }

  /** New ids are fresh UUIDs. */
  predicate FreshIds(t: Table, c: Command) {
    c.Create? ==> IsId(c.id) && c.id !in t
  }

  lemma {:induction false} EveryCommandKeepsIndex(t: Table, c: Command)
    requires Indexed(t) && FreshIds(t, c)
    ensures Indexed(Step(t, c))
  {
    if Execute(t, c).Ok? {
      match c
      case Create(id, parentId) => CreateKeepsIndex(t, id, parentId);
      case Delete(id, hasProducts) => DeleteKeepsIndex(t, id, hasProducts);
      case Update(id, parent) =>
        if parent.Some? {
          MoveKeepsIndex(t, id, if parent.value == "" then None else Some(parent.value),
                         BuildPath(id, if parent.value == "" then "" else t[parent.value].path));
        }
    }
  }

  ghost predicate Regular(commands: seq<Command>) {
    forall k :: 0 <= k < |commands| ==> FreshIds(Run(commands[..k]), commands[k])
  }

  lemma {:induction false} RunsAreIndexed(commands: seq<Command>)
    requires Regular(commands)
    ensures Indexed(Run(commands))
  {
    if commands != [] {
      var last := |commands| - 1;
      forall k | 0 <= k < last ensures commands[..last][..k] == commands[..k] {}
      RunsAreIndexed(commands[..last]);
      EveryCommandKeepsIndex(Run(commands[..last]), commands[last]);
    }
  }

  /** In every reachable state the path is the parent's path and the id, no category descends from
      itself, and the subtree query is exact. */
  lemma {:induction false} PathIndexIsExact(commands: seq<Command>, a: Id, b: Id)
    requires Regular(commands) && a in Run(commands) && b in Run(commands)
    ensures var t := Run(commands);
      && ParentKnown(t, t[a])
      && t[a].path == ParentPath(t, t[a]) + "/" + a
      && !Descends(t, a, a)
      && (Inside(t[a].path, t[b].path) <==> Descends(t, a, b))
  {
    RunsAreIndexed(commands);
    ForestIsAcyclic(Run(commands), a);
    PrefixQueryFindsDescendants(Run(commands), a, b);
  }

  /** What a move does to the parent relation: only the moved category has a new parent, and a move is
      refused exactly when it would put a category under itself or a descendant. */
  lemma {:induction false} MoveIsRefusedForCycles(t: Table, id: Id, parent: Id)
    requires Indexed(t) && id in t && parent in t && parent != ""
    ensures Updated(t, id, Some(parent)).Err? <==> parent == id || Descends(t, id, parent)
    ensures Updated(t, id, Some(parent)).Ok? ==>
      var u := Updated(t, id, Some(parent)).value;
      && u.Keys == t.Keys && u[id].parentId == Some(parent)
      && forall k :: k in t && k != id ==> u[k].parentId == t[k].parentId
  {
    PrefixQueryFindsDescendants(t, id, parent);
    if t[parent].path == t[id].path {
      PathNamesTheCategory(t, parent, id);
    }
  }

  lemma {:induction false} ChildMeansDescendant(t: Table, id: Id)
    requires Indexed(t) && id in t
    ensures HasChildren(t, id) <==> exists k :: k in t && Descends(t, id, k)
  {
    if HasChildren(t, id) {
      var k :| k in t && t[k].parentId == Some(id);
      assert Climb(t, id, 0) == Some(id);
      assert Climb(t, k, 1) == Some(id);
      assert Descends(t, id, k);
    }
    if k :| k in t && Descends(t, id, k) {
      var n: nat :| n > 0 && Climb(t, k, n) == Some(id);
      LastStepIsFromAChild(t, id, k, n);
    }
  }

  lemma {:induction false} LastStepIsFromAChild(t: Table, id: Id, k: Id, n: nat)
    requires Indexed(t) && k in t && n > 0 && Climb(t, k, n) == Some(id)
    ensures HasChildren(t, id)
    decreases n
  {
    if n > 1 {
      LastStepIsFromAChild(t, id, t[k].parentId.value, n - 1);
    } else {
      assert Climb(t, t[k].parentId.value, 0) == Some(t[k].parentId.value);
    }
  }

  /** A category is deleted unless it has products or anything below it, and nothing else goes with it. */
  lemma {:induction false} DeleteOrphansNothing(t: Table, id: Id, hasProducts: bool)
    requires Indexed(t) && id in t
    ensures Deleted(t, id, hasProducts).Err? <==> hasProducts || exists k :: k in t && Descends(t, id, k)
    ensures Deleted(t, id, hasProducts).Ok? ==>
      var u := Deleted(t, id, hasProducts).value;
      u.Keys == t.Keys - {id} && forall k :: k in u ==> u[k] == t[k] && u[k].parentId != Some(id)
  {
    ChildMeansDescendant(t, id);
  }
}
