/** resolveBreadcrumb (storefront/store-catalog.service.ts): a path read back into the chain of
    categories it was built from. */
module Breadcrumb {
  import opened Common
  import opened Categories
  import opened CategoryIndex

  /** String.split on '/'. */
  function Split(s: string): (r: seq<string>)
    ensures r != []
  {
    if s == "" then [""]
    else
      var rest := Split(s[1..]);
      if s[0] == '/' then [""] + rest else [[s[0]] + rest[0]] + rest[1..]
  }

  function TrimStart(s: string): string {
    if s != "" && IsSpace(s[0]) then TrimStart(s[1..]) else s
  }

  function TrimEnd(s: string): string {
    if s != "" && IsSpace(s[|s| - 1]) then TrimEnd(s[..|s| - 1]) else s
  }

  /** The trimmed segments that are not empty. */
  function Segments(parts: seq<string>): seq<string> {
    if parts == [] then []
    else
      var first := TrimEnd(TrimStart(parts[0]));
      if first == "" then Segments(parts[1..]) else [first] + Segments(parts[1..])
  }

  /** The ids that name a category. */
  function Known(t: Table, ids: seq<string>): seq<Id> {
    if ids == [] then []
    else if ids[0] in t then [ids[0]] + Known(t, ids[1..])
    else Known(t, ids[1..])
  }

  function Resolve(t: Table, path: string): seq<Id> {
    Known(t, Segments(Split(path)))
  }

  /** The ancestors of a category from its root down, and the category itself. */
  ghost function Chain(t: Table, id: Id): seq<Id>
    requires Indexed(t) && id in t
    decreases |t[id].path|
  {
    (if t[id].parentId.Some? then Chain(t, t[id].parentId.value) else []) + [id]
  }

  // ---------------------------------------------------------------- splitting what buildPath joins

  lemma {:induction false} SplitPlain(id: string)
    requires '/' !in id
    ensures Split(id) == [id]
  {
    if id != "" {
      assert forall c :: c in id[1..] ==> c in id;
      assert id[0] in id;
      SplitPlain(id[1..]);
      assert id == [id[0]] + id[1..];
    }
  }

  lemma {:induction false} SplitLastSegment(front: string, id: string)
    requires '/' !in id
    ensures Split(front + "/" + id) == Split(front) + [id]
  {
    var whole := front + "/" + id;
    if front == "" {
      SplitPlain(id);
      assert whole[1..] == id;
      assert Split(whole) == [""] + Split(id);
    } else {
      assert whole[1..] == front[1..] + "/" + id;
      SplitLastSegment(front[1..], id);
    }
  }

  lemma {:induction false} SegmentsConcat(xs: seq<string>, ys: seq<string>)
    ensures Segments(xs + ys) == Segments(xs) + Segments(ys)
  {
    if xs == [] {
      assert xs + ys == ys;
    } else {
      assert (xs + ys)[1..] == xs[1..] + ys;
      SegmentsConcat(xs[1..], ys);
    }
  }

  lemma {:induction false} KnownConcat(t: Table, xs: seq<string>, ys: seq<string>)
    ensures Known(t, xs + ys) == Known(t, xs) + Known(t, ys)
  {
    if xs == [] {
      assert xs + ys == ys;
    } else {
      assert (xs + ys)[1..] == xs[1..] + ys;
      KnownConcat(t, xs[1..], ys);
    }
  }

  lemma IdIsItsOwnSegment(id: Id)
    requires IsId(id)
    ensures '/' !in id && Segments([id]) == [id]
  {}

  /** The breadcrumb of a category's path is its ancestor chain, root first, the category last. */
  lemma {:induction false} BreadcrumbIsTheChain(t: Table, id: Id)
    requires Indexed(t) && id in t
    ensures Resolve(t, t[id].path) == Chain(t, id)
    decreases |t[id].path|
  {
    var front := ParentPath(t, t[id]);
    IdIsItsOwnSegment(id);
    SplitLastSegment(front, id);
    SegmentsConcat(Split(front), [id]);
    KnownConcat(t, Segments(Split(front)), [id]);
    assert [id][1..] == [];
    if t[id].parentId.Some? {
      BreadcrumbIsTheChain(t, t[id].parentId.value);
    } else {
      assert Split(front) == [""];
      assert [""][1..] == [];
    }
  }

  /** The n-th entry from the end, if there are so many. */
  function FromEnd(ids: seq<Id>, n: nat): Option<Id> {
    if n < |ids| then Some(ids[|ids| - 1 - n]) else None
  }

  /** ids leads from a root to id, parent by parent. */
  predicate LeadsTo(t: Table, ids: seq<Id>, id: Id) {
    && ids != [] && ids[|ids| - 1] == id && id in t
    && match t[id].parentId
       case None => |ids| == 1
       case Some(parent) => LeadsTo(t, ids[..|ids| - 1], parent)
  }

  lemma {:induction false} ChainLeadsTo(t: Table, id: Id)
    requires Indexed(t) && id in t
    ensures LeadsTo(t, Chain(t, id), id)
    decreases |t[id].path|
  {
    if t[id].parentId.Some? {
      var front := Chain(t, t[id].parentId.value);
      ChainLeadsTo(t, t[id].parentId.value);
      assert (front + [id])[..|front|] == front;
    }
  }

  lemma {:induction false} LeadingIsClimbing(t: Table, ids: seq<Id>, id: Id, n: nat)
    requires LeadsTo(t, ids, id)
    ensures Climb(t, id, n) == FromEnd(ids, n)
    decreases n
  {
    if n > 0 && t[id].parentId.Some? {
      LeadingIsClimbing(t, ids[..|ids| - 1], t[id].parentId.value, n - 1);
    }
  }

  /** Read from its end, the chain is the climb along parents, and it is the whole climb. */
  lemma ChainIsTheClimb(t: Table, id: Id, n: nat)
    requires Indexed(t) && id in t
    ensures Climb(t, id, n) == FromEnd(Chain(t, id), n)
  {
    ChainLeadsTo(t, id);
    LeadingIsClimbing(t, Chain(t, id), id, n);
  }

  /** After any run of creations, moves and deletions a breadcrumb is the climb from the category to its
      root, read backwards. */
  lemma {:induction false} BreadcrumbSurvivesMoves(commands: seq<Command>, id: Id, n: nat)
    requires Regular(commands) && id in Run(commands)
    ensures var t := Run(commands); Climb(t, id, n) == FromEnd(Resolve(t, t[id].path), n)
  {
    RunsAreIndexed(commands);
    BreadcrumbIsTheChain(Run(commands), id);
    ChainIsTheClimb(Run(commands), id, n);
  }
}
