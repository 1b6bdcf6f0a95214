/** The category forest and its path index (category/category.service.ts, category/category.repository.ts).
    A path spells the chain of ids from the root down, and stands in for the parent relation in the
    subtree query, in the cycle check of a move and in the breadcrumb. */
module Categories {
  import opened Common

  datatype Category = Category(parentId: Option<Id>, path: string)

  /** The categories table by primary key. */
  type Table = map<Id, Category>

  datatype CategoryError = CategoryNotFound | OwnParent | MovedUnderDescendant | StillInUse

  /** Ids are UUIDs in text form. */
  const IdLength := 36

  predicate IsSpace(c: char) {
    c == ' ' || '\t' <= c <= '\r'
  }

  predicate IsId(id: string) {
    |id| == IdLength && forall c :: c in id ==> c != '/' && !IsSpace(c)
  }

  // ---------------------------------------------------------------- commands

  function BuildPath(id: Id, parentPath: string): string {
    parentPath + "/" + id
  }

  /** The findDescendants filter. */
  predicate Inside(path: string, other: string) {
    path + "/" <= other
  }

  /** String.replace with a string pattern: the first occurrence only. */
  function ReplaceFirst(s: string, old_: string, new_: string): string {
    if old_ <= s then new_ + s[|old_|..]
    else if s == "" then s
    else [s[0]] + ReplaceFirst(s[1..], old_, new_)
  }

  /** No parent is the empty string: the code treats null and "" alike. */
  function Created(t: Table, id: Id, parentId: string): Result<Table, CategoryError> {
    if parentId == "" then Ok(t[id := Category(None, BuildPath(id, ""))])
    else if parentId !in t then Err(CategoryNotFound)
    else Ok(t[id := Category(Some(parentId), BuildPath(id, t[parentId].path))])
  }

  function Moved(t: Table, id: Id, parentId: Option<Id>, next: string): (r: Table)
    requires id in t
    ensures r.Keys == t.Keys
  {
    map k | k in t ::
      if k == id then Category(parentId, next)
      else if Inside(t[id].path, t[k].path) then Category(t[k].parentId, next + t[k].path[|t[id].path|..])
      else t[k]
  }

  /** resolveParentForUpdate: the new parent, none for an empty id. */
  function ResolveParent(t: Table, id: Id, parentId: string): (r: Result<Option<Id>, CategoryError>)
    requires id in t
    ensures r.Ok? && r.value.Some? ==> r.value.value in t && r.value.value != id
  {
    if parentId == "" then Ok(None)
    else if parentId == id then Err(OwnParent)
    else if parentId !in t then Err(CategoryNotFound)
    else if t[parentId].path == t[id].path || Inside(t[id].path, t[parentId].path) then Err(MovedUnderDescendant)
    else Ok(Some(parentId))
  }

  /** parent is None when the request leaves the parent alone. */
  function Updated(t: Table, id: Id, parent: Option<string>): Result<Table, CategoryError> {
    if id !in t then Err(CategoryNotFound)
    else if parent.None? then Ok(t)
    else
      match ResolveParent(t, id, parent.value)
      case Err(e) => Err(e)
      case Ok(None) => Ok(Moved(t, id, None, BuildPath(id, "")))
      case Ok(Some(p)) => Ok(Moved(t, id, Some(p), BuildPath(id, t[p].path)))
  }

  predicate HasChildren(t: Table, id: Id) {
    exists k :: k in t && t[k].parentId == Some(id)
  }

  function Deleted(t: Table, id: Id, hasProducts: bool): Result<Table, CategoryError> {
    if id !in t then Err(CategoryNotFound)
    else if HasChildren(t, id) || hasProducts then Err(StillInUse)
    else Ok(t - {id})
  }

  datatype Command =
    | Create(id: Id, parentId: string)
    | Update(id: Id, parent: Option<string>)
    | Delete(id: Id, hasProducts: bool)

  function Execute(t: Table, c: Command): Result<Table, CategoryError> {
    match c
    case Create(id, parentId) => Created(t, id, parentId)
    case Update(id, parent) => Updated(t, id, parent)
    case Delete(id, hasProducts) => Deleted(t, id, hasProducts)
  }

  function Step(t: Table, c: Command): Table {
    match Execute(t, c)
    case Ok(u) => u
    case Err(_) => t
  }

  function Run(commands: seq<Command>): Table {
    if commands == [] then map[]
    else Step(Run(commands[..|commands| - 1]), commands[|commands| - 1])
  }

  /** A move to where the category already is leaves every path as it was. */
  lemma {:induction false} SamePathMovesNothing(t: Table, id: Id, parentId: Option<Id>)
    requires id in t
    ensures Moved(t, id, parentId, t[id].path) == t[id := Category(parentId, t[id].path)]
  {
    forall k | k in t && Inside(t[id].path, t[k].path)
      ensures t[id].path + t[k].path[|t[id].path|..] == t[k].path
    {}
  }

  // ---------------------------------------------------------------- the service

  class CategoryService {
    var rows: Table

    constructor ()
      ensures rows == map[]
    {
      rows := map[];
    }

    method Create(id: Id, parentId: string) returns (r: Result<(), CategoryError>)
      modifies this
      ensures rows == Step(old(rows), Command.Create(id, parentId))
      ensures r.Ok? <==> Execute(old(rows), Command.Create(id, parentId)).Ok?
    {
      var parentPath := "";
      if parentId != "" {
        if parentId !in rows {
          return Err(CategoryNotFound);
        }
        parentPath := rows[parentId].path;
      }
      rows := rows[id := Category(if parentId == "" then None else Some(parentId), BuildPath(id, parentPath))];
      r := Ok(());
    }

    method FindDescendants(path: string) returns (found: seq<Id>)
      ensures forall k :: k in found <==> k in rows && Inside(path, rows[k].path)
      ensures forall d, e :: 0 <= d < e < |found| ==> found[d] != found[e]
    {
      found := [];
      var left := rows.Keys;
      while left != {}
        invariant left <= rows.Keys
        invariant forall k :: k in found <==> k in rows && k !in left && Inside(path, rows[k].path)
        invariant forall d, e :: 0 <= d < e < |found| ==> found[d] != found[e]
        decreases |left|
      {
        var k :| k in left;
        left := left - {k};
        if Inside(path, rows[k].path) {
          found := found + [k];
        }
      }
    }

    /** One transaction: the category's own row, then each descendant's path. */
    method UpdateWithDescendantPaths(id: Id, own: Category, descendants: seq<Id>, paths: seq<string>)
      requires id in rows && id !in descendants && |descendants| == |paths|
      requires forall d :: d in descendants ==> d in rows
      requires forall d, e :: 0 <= d < e < |descendants| ==> descendants[d] != descendants[e]
      modifies this
      ensures rows.Keys == old(rows).Keys && rows[id] == own
      ensures forall d :: 0 <= d < |descendants| ==>
        rows[descendants[d]] == Category(old(rows)[descendants[d]].parentId, paths[d])
      ensures forall k :: k in rows && k != id && k !in descendants ==> rows[k] == old(rows)[k]
    {
      rows := rows[id := own];
      var n := 0;
      while n < |descendants|
        invariant n <= |descendants| && rows.Keys == old(rows).Keys && rows[id] == own
        invariant forall d :: 0 <= d < n ==>
          rows[descendants[d]] == Category(old(rows)[descendants[d]].parentId, paths[d])
        invariant forall k :: k in rows && k != id && k !in descendants[..n] ==> rows[k] == old(rows)[k]
      {
        var d := descendants[n];
        assert d !in descendants[..n];
        rows := rows[d := Category(rows[d].parentId, paths[n])];
        assert descendants[..n + 1] == descendants[..n] + [d];
        n := n + 1;
      }
      assert descendants[..n] == descendants;
    }

    method ResolveParentForUpdate(id: Id, parentId: string) returns (r: Result<Option<Id>, CategoryError>)
      requires id in rows
      ensures r == ResolveParent(rows, id, parentId)
    {
      if parentId == "" {
        return Ok(None);
      }
      if parentId == id {
        return Err(OwnParent);
      }
      if parentId !in rows {
        return Err(CategoryNotFound);
      }
      if rows[parentId].path == rows[id].path || Inside(rows[id].path, rows[parentId].path) {
        return Err(MovedUnderDescendant);
      }
      r := Ok(Some(parentId));
    }

    method MoveSubtree(id: Id, parentId: Option<Id>, next: string)
      requires id in rows
      modifies this
      ensures rows == Moved(old(rows), id, parentId, next)
    {
      var path := rows[id].path;
      var descendants := FindDescendants(path);
      var before := rows;
      var paths := seq(|descendants|, d requires 0 <= d < |descendants| && descendants[d] in before =>
        ReplaceFirst(before[descendants[d]].path, path, next));
      UpdateWithDescendantPaths(id, Category(parentId, next), descendants, paths);
      forall k | k in rows ensures rows[k] == Moved(before, id, parentId, next)[k] {
        if k in descendants {
          var d :| 0 <= d < |descendants| && descendants[d] == k;
          assert rows[descendants[d]] == Category(before[k].parentId, paths[d]);
        }
      }
    }

    method Update(id: Id, parent: Option<string>) returns (r: Result<(), CategoryError>)
      modifies this
      ensures rows == Step(old(rows), Command.Update(id, parent))
      ensures r.Ok? <==> Execute(old(rows), Command.Update(id, parent)).Ok?
    {
      if id !in rows {
        return Err(CategoryNotFound);
      }
      if parent.None? {
        return Ok(());
      }
      var resolved := ResolveParentForUpdate(id, parent.value);
      if resolved.Err? {
        return Err(resolved.error);
      }
      var path := rows[id].path;
      var next := BuildPath(id, if resolved.value.Some? then rows[resolved.value.value].path else "");
      if next == path {
        SamePathMovesNothing(rows, id, resolved.value);
        rows := rows[id := Category(resolved.value, next)];
      } else {
        MoveSubtree(id, resolved.value, next);
      }
      r := Ok(());
    }

    method Delete(id: Id, hasProducts: bool) returns (r: Result<(), CategoryError>)
      modifies this
      ensures rows == Step(old(rows), Command.Delete(id, hasProducts))
      ensures r.Ok? <==> Execute(old(rows), Command.Delete(id, hasProducts)).Ok?
    {
      if id !in rows {
        return Err(CategoryNotFound);
      }
      if HasChildren(rows, id) || hasProducts {
        return Err(StillInUse);
      }
      rows := rows - {id};
      r := Ok(());
    }
  }
}
