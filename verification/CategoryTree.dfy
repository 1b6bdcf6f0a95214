/** Reading the path index back into a tree: getTree (category/category.service.ts). */
module CategoryTree {
  import opened Common
  import opened Categories
  import opened CategoryIndex

  // ---------------------------------------------------------------- building the tree

  /** The listed categories with this parent, in list order. */
  function Children(t: Table, list: seq<Id>, parent: Id): seq<Id>
    requires forall k :: k in list ==> k in t
  {
    if list == [] then []
    else
      var last := |list| - 1;
      var earlier := Children(t, list[..last], parent);
      if t[list[last]].parentId == Some(parent) then earlier + [list[last]] else earlier
  }

  /** The listed categories whose parent is absent or not among the nodes. */
  function Roots(t: Table, list: seq<Id>, nodes: set<Id>): seq<Id>
    requires forall k :: k in list ==> k in t
  {
    if list == [] then []
    else
      var last := |list| - 1;
      var earlier := Roots(t, list[..last], nodes);
      var parentId := t[list[last]].parentId;
      if parentId.Some? && parentId.value in nodes then earlier else earlier + [list[last]]
  }

  function Ids(list: seq<Id>): set<Id> {
    set k | k in list
  }

  ghost predicate TreeOf(t: Table, list: seq<Id>, nodes: map<Id, seq<Id>>, roots: seq<Id>)
    requires forall k :: k in list ==> k in t
  {
    && nodes.Keys == Ids(list)
    && (forall k :: k in nodes ==> nodes[k] == Children(t, list, k))
    && roots == Roots(t, list, Ids(list))
  }

  /** The children of every node and the roots, filled in one pass over the list. */
  method GetTree(t: Table, list: seq<Id>) returns (nodes: map<Id, seq<Id>>, roots: seq<Id>)
    requires forall k :: k in list ==> k in t
    ensures TreeOf(t, list, nodes, roots)
  {
    nodes, roots := map[], [];
    var i := 0;
    while i < |list|
      invariant i <= |list|
      invariant nodes.Keys == Ids(list[..i]) && forall k :: k in nodes ==> nodes[k] == []
    {
      nodes := nodes[list[i] := []];
      assert list[..i + 1] == list[..i] + [list[i]];
      i := i + 1;
    }
    assert list[..i] == list;
    i := 0;
    while i < |list|
      invariant i <= |list| && nodes.Keys == Ids(list)
      invariant forall k :: k in nodes ==> nodes[k] == Children(t, list[..i], k)
      invariant roots == Roots(t, list[..i], Ids(list))
    {
      var id := list[i];
      assert list[..i + 1][..i] == list[..i];
      var parentId := t[id].parentId;
      if parentId.Some? && parentId.value in nodes {
        nodes := nodes[parentId.value := nodes[parentId.value] + [id]];
      } else {
        roots := roots + [id];
      }
      i := i + 1;
    }
    assert list[..i] == list;
  }

  /** out lists the trees rooted at ids node by node, each node before its children's trees. */
  ghost predicate Preorder<T(!new)>(children: map<T, seq<T>>, ids: seq<T>, out: seq<T>)
    decreases |out|
  {
    if ids == [] then out == []
    else exists n :: Unfolds(children, ids, out, n)
  }

  ghost predicate Unfolds<T(!new)>(children: map<T, seq<T>>, ids: seq<T>, out: seq<T>, n: nat)
    requires ids != []
    decreases |out|, 0
  {
    && 1 <= n <= |out| && out[0] == ids[0] && ids[0] in children
    && Preorder(children, children[ids[0]], out[1..n])
    && Preorder(children, ids[1..], out[n..])
  }

  lemma {:induction false} PreorderIsUnique<T(!new)>(children: map<T, seq<T>>, ids: seq<T>, x: seq<T>, y: seq<T>)
    requires Preorder(children, ids, x) && Preorder(children, ids, y)
    ensures x == y
    decreases |x|
  {
    if ids != [] {
      var n: nat :| Unfolds(children, ids, x, n);
      var m: nat :| Unfolds(children, ids, y, m);
      PreorderIsUnique(children, children[ids[0]], x[1..n], y[1..m]);
      PreorderIsUnique(children, ids[1..], x[n..], y[m..]);
      assert x == [x[0]] + x[1..n] + x[n..];
      assert y == [y[0]] + y[1..m] + y[m..];
    }
  }

  // ---------------------------------------------------------------- positions

  /** Position x is above position z when climbing parents from z meets x. */
  predicate Above(parents: seq<Option<nat>>, x: nat, z: nat)
    requires z < |parents|
    decreases z
  {
    && parents[z].Some? && parents[z].value < z
    && (parents[z].value == x || Above(parents, x, parents[z].value))
  }

  /** Parents come first, and whatever lies between a node and its descendant is a descendant too. */
  ghost predicate Nested(parents: seq<Option<nat>>) {
    && (forall z :: 0 <= z < |parents| && parents[z].Some? ==> parents[z].value < z)
    && (forall x, y, z :: 0 <= x < y < z < |parents| && Above(parents, x, z) ==> Above(parents, x, y))
  }

  predicate Within(positions: seq<nat>, n: nat) {
    forall i :: 0 <= i < |positions| ==> positions[i] < n
  }

  /** The positions in lo..hi with this parent. */
  function KidsIn(parents: seq<Option<nat>>, p: Option<nat>, lo: nat, hi: nat): (r: seq<nat>)
    requires hi <= |parents|
    ensures Within(r, hi)
  {
    if lo >= hi then []
    else
      var earlier := KidsIn(parents, p, lo, hi - 1);
      if parents[hi - 1] == p then earlier + [hi - 1] else earlier
  }

  function KidsMap(parents: seq<Option<nat>>): map<nat, seq<nat>> {
    map x: nat | 0 <= x < |parents| :: KidsIn(parents, Some(x), 0, |parents|)
  }

  function Range(lo: nat, hi: nat): seq<nat>
    requires lo <= hi
  {
    seq(hi - lo, i => lo + i)
  }

  lemma {:induction false} KidsSplit(parents: seq<Option<nat>>, p: Option<nat>, lo: nat, mid: nat, hi: nat)
    requires lo <= mid <= hi <= |parents|
    ensures KidsIn(parents, p, lo, hi) == KidsIn(parents, p, lo, mid) + KidsIn(parents, p, mid, hi)
    decreases hi
  {
    if mid < hi {
      KidsSplit(parents, p, lo, mid, hi - 1);
    }
  }

  lemma {:induction false} NoKids(parents: seq<Option<nat>>, p: Option<nat>, lo: nat, hi: nat)
    requires lo <= hi <= |parents| && forall j :: lo <= j < hi ==> parents[j] != p
    ensures KidsIn(parents, p, lo, hi) == []
    decreases hi
  {
    if lo < hi {
      NoKids(parents, p, lo, hi - 1);
    }
  }

  /** lo..hi holds whole trees whose roots have parent p. */
  ghost predicate WholeTrees(parents: seq<Option<nat>>, p: Option<nat>, lo: nat, hi: nat) {
    && lo <= hi <= |parents|
    && (p.Some? ==> p.value < lo)
    && (forall j :: lo <= j < hi ==> parents[j] == p || (parents[j].Some? && lo <= parents[j].value))
    && (forall j :: hi <= j < |parents| ==> !(parents[j].Some? && lo <= parents[j].value < hi))
  }

  /** Where the tree rooted at lo ends. */
  lemma {:induction false} TreeEnd(parents: seq<Option<nat>>, lo: nat, hi: nat) returns (e: nat)
    requires Nested(parents) && lo < hi <= |parents|
    ensures lo < e <= hi
    ensures forall j :: lo < j < e ==> Above(parents, lo, j)
    ensures forall j :: e <= j < hi ==> !Above(parents, lo, j)
    decreases hi
  {
    if hi == lo + 1 {
      e := hi;
    } else {
      e := TreeEnd(parents, lo, hi - 1);
      if e < hi - 1 {
        assert !Above(parents, lo, e);
      } else if Above(parents, lo, hi - 1) {
        e := hi;
      }
    }
  }

  lemma {:induction false} AboveIsNotBelow(parents: seq<Option<nat>>, x: nat, z: nat)
    requires z < |parents| && Above(parents, x, z)
    ensures x < z && parents[z].Some? && x <= parents[z].value < z
    decreases z
  {
    if parents[z].value != x {
      AboveIsNotBelow(parents, x, parents[z].value);
    }
  }

  /** lo is a root, its tree ends at e, and nothing from e on hangs below it. */
  ghost predicate TreeEndsAt(parents: seq<Option<nat>>, p: Option<nat>, lo: nat, e: nat) {
    && lo < e <= |parents| && parents[lo] == p && (p.Some? ==> p.value < lo)
    && (forall j :: lo < j < e ==> parents[j].Some? && lo <= parents[j].value)
    && (forall j :: e <= j < |parents| ==> !(parents[j].Some? && lo <= parents[j].value < e))
  }

  lemma TreeEndIsEnd(parents: seq<Option<nat>>, p: Option<nat>, lo: nat, e: nat, hi: nat)
    requires Nested(parents) && WholeTrees(parents, p, lo, hi) && lo < e <= hi
    requires forall j :: lo < j < e ==> Above(parents, lo, j)
    requires forall j :: e <= j < hi ==> !Above(parents, lo, j)
    ensures TreeEndsAt(parents, p, lo, e)
  {
    forall j | lo < j < e ensures parents[j].Some? && lo <= parents[j].value {
      AboveIsNotBelow(parents, lo, j);
    }
    forall j | e <= j < |parents| ensures !(parents[j].Some? && lo <= parents[j].value < e) {
      if j < hi && parents[j].Some? && lo <= parents[j].value < e {
        assert Above(parents, lo, j);
      }
    }
  }

  lemma TreesSplit(parents: seq<Option<nat>>, p: Option<nat>, lo: nat, e: nat, hi: nat)
    requires WholeTrees(parents, p, lo, hi) && e <= hi && TreeEndsAt(parents, p, lo, e)
    ensures WholeTrees(parents, Some(lo), lo + 1, e) && WholeTrees(parents, p, e, hi)
  {}

  lemma {:induction false} OnlyRoot(parents: seq<Option<nat>>, p: Option<nat>, lo: nat, e: nat)
    requires lo < e <= |parents| && parents[lo] == p && forall j :: lo < j < e ==> parents[j] != p
    ensures KidsIn(parents, p, lo, e) == [lo]
    decreases e
  {
    if lo + 1 < e {
      OnlyRoot(parents, p, lo, e - 1);
    } else {
      assert KidsIn(parents, p, lo, lo) == [];
    }
  }

  lemma RootsSplit(parents: seq<Option<nat>>, p: Option<nat>, lo: nat, e: nat, hi: nat)
    requires e <= hi <= |parents| && TreeEndsAt(parents, p, lo, e)
    ensures KidsIn(parents, p, lo, hi) == [lo] + KidsIn(parents, p, e, hi)
  {
    OnlyRoot(parents, p, lo, e);
    KidsSplit(parents, p, lo, e, hi);
  }

  lemma KidsAreInside(parents: seq<Option<nat>>, p: Option<nat>, lo: nat, e: nat)
    requires TreeEndsAt(parents, p, lo, e)
    requires forall z :: 0 <= z < |parents| && parents[z].Some? ==> parents[z].value < z
    ensures KidsIn(parents, Some(lo), 0, |parents|) == KidsIn(parents, Some(lo), lo + 1, e)
  {
    KidsSplit(parents, Some(lo), 0, lo + 1, |parents|);
    KidsSplit(parents, Some(lo), lo + 1, e, |parents|);
    NoKids(parents, Some(lo), 0, lo + 1);
    NoKids(parents, Some(lo), e, |parents|);
  }

  /** One segment of whole trees splits into its first tree's inside and the rest. */
  lemma FirstTree(parents: seq<Option<nat>>, p: Option<nat>, lo: nat, hi: nat) returns (e: nat)
    requires Nested(parents) && WholeTrees(parents, p, lo, hi) && lo < hi
    ensures lo < e <= hi && parents[lo] == p
    ensures WholeTrees(parents, Some(lo), lo + 1, e) && WholeTrees(parents, p, e, hi)
    ensures KidsIn(parents, p, lo, hi) == [lo] + KidsIn(parents, p, e, hi)
    ensures KidsIn(parents, Some(lo), 0, |parents|) == KidsIn(parents, Some(lo), lo + 1, e)
  {
    e := TreeEnd(parents, lo, hi);
    TreeEndIsEnd(parents, p, lo, e, hi);
    TreesSplit(parents, p, lo, e, hi);
    RootsSplit(parents, p, lo, e, hi);
    KidsAreInside(parents, p, lo, e);
  }

  /** lo's children in order, then the rest: lo with its tree, then the trees of the rest. */
  lemma UnfoldsFirst(children: map<nat, seq<nat>>, lo: nat, rest: seq<nat>, e: nat, hi: nat)
    requires lo < e <= hi && lo in children
    requires Preorder(children, children[lo], Range(lo + 1, e)) && Preorder(children, rest, Range(e, hi))
    ensures Preorder(children, [lo] + rest, Range(lo, hi))
  {
    var ids, out := [lo] + rest, Range(lo, hi);
    assert ids[1..] == rest;
    assert out[1..e - lo] == Range(lo + 1, e);
    assert out[e - lo..] == Range(e, hi);
    assert Unfolds(children, ids, out, e - lo);
  }

  lemma {:induction false} SegmentUnfolds(parents: seq<Option<nat>>, p: Option<nat>, lo: nat, hi: nat)
    requires Nested(parents) && WholeTrees(parents, p, lo, hi)
    ensures Preorder(KidsMap(parents), KidsIn(parents, p, lo, hi), Range(lo, hi))
    decreases hi - lo
  {
    if lo < hi {
      var e := FirstTree(parents, p, lo, hi);
      SegmentUnfolds(parents, Some(lo), lo + 1, e);
      SegmentUnfolds(parents, p, e, hi);
      UnfoldsFirst(KidsMap(parents), lo, KidsIn(parents, p, e, hi), e, hi);
    }
  }

  // ---------------------------------------------------------------- path order

  /** Character order of the database's collation; any order that tells apart the characters occurring in
      paths will do, a case-insensitive one of lower-case ids included. */
  type Collation = char -> int

  ghost predicate TellsApart(rank: Collation, letters: set<char>) {
    forall c, d :: c in letters && d in letters && rank(c) == rank(d) ==> c == d
  }

  ghost predicate Spelled(path: string, letters: set<char>) {
    forall i :: 0 <= i < |path| ==> path[i] in letters
  }

  /** The characters that occur in paths. */
  ghost function Letters(t: Table): set<char> {
    set k, c | k in t && c in t[k].path :: c
  }

  lemma PathIsSpelled(t: Table, k: Id)
    requires k in t
    ensures Spelled(t[k].path, Letters(t))
  {
    forall i | 0 <= i < |t[k].path| ensures t[k].path[i] in Letters(t) {
      assert t[k].path[i] in t[k].path;
    }
  }

  predicate Less(rank: Collation, a: string, b: string) {
    b != "" && (a == "" || rank(a[0]) < rank(b[0]) || (a[0] == b[0] && Less(rank, a[1..], b[1..])))
  }

  lemma {:induction false} LessIsStrict(rank: Collation, a: string, b: string)
    requires Less(rank, a, b)
    ensures !Less(rank, b, a)
  {
    if a != "" && a[0] == b[0] {
      LessIsStrict(rank, a[1..], b[1..]);
    }
  }

  lemma {:induction false} PrefixIsLess(rank: Collation, a: string, b: string)
    requires a < b
    ensures Less(rank, a, b)
  {
    if a != "" {
      assert a[1..] < b[1..];
      PrefixIsLess(rank, a[1..], b[1..]);
    }
  }

  /** The strings that start with a lie together. */
  lemma {:induction false} PrefixedLieTogether(rank: Collation, letters: set<char>, a: string, b: string, c: string)
    requires TellsApart(rank, letters) && Spelled(a, letters) && Spelled(b, letters)
    requires Less(rank, a, b) && Less(rank, b, c) && a <= c
    ensures a <= b
  {
    if a != "" {
      assert a[0] == c[0] && a[1..] <= c[1..];
      assert rank(a[0]) == rank(b[0]);
      PrefixedLieTogether(rank, letters, a[1..], b[1..], c[1..]);
    }
  }

  // ---------------------------------------------------------------- the path-sorted listing

  /** findAllForTree: every category, in ascending order of path. */
  ghost predicate SortedListing(t: Table, list: seq<Id>, rank: Collation) {
    && (forall k :: k in t <==> k in list)
    && (forall i, j :: 0 <= i < j < |list| ==> Less(rank, t[list[i]].path, t[list[j]].path))
  }

  lemma PrefixComesFirst(t: Table, list: seq<Id>, rank: Collation, i: nat, j: nat)
    requires SortedListing(t, list, rank) && i < |list| && j < |list| && t[list[i]].path < t[list[j]].path
    ensures i < j
  {
    PrefixIsLess(rank, t[list[i]].path, t[list[j]].path);
    LessIsStrict(rank, t[list[i]].path, t[list[j]].path);
    assert i != j;
  }

  ghost predicate Bordered(path: string) {
    && |path| % (IdLength + 1) == 0
    && forall i :: 0 <= i < |path| && i % (IdLength + 1) == 0 ==> path[i] == '/'
  }

  lemma LongerByWholeBlocks(path: string, longer: string)
    requires Bordered(path) && Bordered(longer) && path <= longer && path != longer
    ensures path + "/" <= longer
  {}

  /** Paths are made of blocks of one slash and one id, so the slashes sit at the block borders. */
  lemma {:induction false} SlashesAtBorders(t: Table, k: Id)
    requires Indexed(t) && k in t
    ensures Bordered(t[k].path)
    decreases |t[k].path|
  {
    var front := ParentPath(t, t[k]);
    if t[k].parentId.Some? {
      SlashesAtBorders(t, t[k].parentId.value);
    }
    forall i | 0 <= i < |t[k].path| && i % (IdLength + 1) == 0 ensures t[k].path[i] == '/' {
      if i > |front| {
        BorderOfLastBlock(|front|, i);
        assert false;
      }
    }
  }

  lemma BorderOfLastBlock(front: nat, i: nat)
    requires front % (IdLength + 1) == 0 && i % (IdLength + 1) == 0 && front < i
    ensures front + IdLength + 1 <= i
  {}

  /** Between a category and its descendant in the listing there are only its descendants. */
  lemma DescendantsLieTogether(t: Table, a: Id, b: Id, c: Id, rank: Collation)
    requires Indexed(t) && TellsApart(rank, Letters(t)) && a in t && b in t && c in t
    requires Less(rank, t[a].path, t[b].path) && Less(rank, t[b].path, t[c].path) && Inside(t[a].path, t[c].path)
    ensures Inside(t[a].path, t[b].path)
  {
    assert t[a].path <= t[c].path;
    PathIsSpelled(t, a);
    PathIsSpelled(t, b);
    PrefixedLieTogether(rank, Letters(t), t[a].path, t[b].path, t[c].path);
    SlashesAtBorders(t, a);
    SlashesAtBorders(t, b);
    LessIsStrict(rank, t[a].path, t[b].path);
    LongerByWholeBlocks(t[a].path, t[b].path);
  }

  // ---------------------------------------------------------------- the listing is nested

  /** The position of an id in the listing, or its length. */
  function Where(list: seq<Id>, id: Id): (i: nat)
    ensures i <= |list| && (i < |list| ==> list[i] == id)
    ensures id in list ==> i < |list|
  {
    if list == [] then 0 else if list[0] == id then 0 else 1 + Where(list[1..], id)
  }

  function Parents(t: Table, list: seq<Id>): (r: seq<Option<nat>>)
    requires forall k :: k in list ==> k in t
    ensures |r| == |list|
  {
    seq(|list|, j requires 0 <= j < |list| =>
      if t[list[j]].parentId.Some? && Where(list, t[list[j]].parentId.value) < |list|
      then Some(Where(list, t[list[j]].parentId.value))
      else None)
  }

  lemma ParentComesFirst(t: Table, list: seq<Id>, rank: Collation, j: nat)
    requires Indexed(t) && SortedListing(t, list, rank) && j < |list|
    ensures var p := Parents(t, list)[j];
      && (p.Some? <==> t[list[j]].parentId.Some?)
      && (p.Some? ==> p.value < j && t[list[j]].parentId == Some(list[p.value]))
  {
    var c := t[list[j]];
    assert list[j] in list;
    if c.parentId.Some? {
      var i := Where(list, c.parentId.value);
      assert c.path == t[list[i]].path + "/" + list[j];
      assert t[list[i]].path < c.path;
      PrefixComesFirst(t, list, rank, i, j);
    }
  }

  lemma {:induction false} AboveIsInside(t: Table, list: seq<Id>, rank: Collation, x: nat, z: nat)
    requires Indexed(t) && SortedListing(t, list, rank) && x < |list| && z < |list|
    ensures Above(Parents(t, list), x, z) <==> Inside(t[list[x]].path, t[list[z]].path)
    decreases z
  {
    ParentComesFirst(t, list, rank, z);
    assert list[x] in list && list[z] in list;
    InsideByParent(t, list[x], list[z]);
    var p := Parents(t, list)[z];
    if p.Some? {
      AboveIsInside(t, list, rank, x, p.value);
      if list[x] == list[p.value] {
        Distinct(t, list, rank, x, p.value);
      }
    }
  }

  lemma Distinct(t: Table, list: seq<Id>, rank: Collation, i: nat, j: nat)
    requires SortedListing(t, list, rank) && i < |list| && j < |list| && list[i] == list[j]
    ensures i == j
  {
    if i < j {
      LessIsStrict(rank, t[list[i]].path, t[list[j]].path);
    } else if j < i {
      LessIsStrict(rank, t[list[j]].path, t[list[i]].path);
    }
  }

  lemma {:induction false} ListingIsNested(t: Table, list: seq<Id>, rank: Collation)
    requires Indexed(t) && SortedListing(t, list, rank) && TellsApart(rank, Letters(t))
    ensures Nested(Parents(t, list))
  {
    var parents := Parents(t, list);
    forall z | 0 <= z < |parents| && parents[z].Some? ensures parents[z].value < z {
      ParentComesFirst(t, list, rank, z);
    }
    forall x, y, z | 0 <= x < y < z < |parents| && Above(parents, x, z) ensures Above(parents, x, y) {
      AboveIsInside(t, list, rank, x, z);
      AboveIsInside(t, list, rank, x, y);
      assert list[x] in list && list[y] in list && list[z] in list;
      DescendantsLieTogether(t, list[x], list[y], list[z], rank);
    }
  }

  // ---------------------------------------------------------------- from positions to ids

  function At(list: seq<Id>, positions: seq<nat>): (r: seq<Id>)
    requires Within(positions, |list|)
    ensures |r| == |positions|
  {
    seq(|positions|, i requires 0 <= i < |positions| => list[positions[i]])
  }

  lemma {:induction false} ChildrenAt(t: Table, list: seq<Id>, parents: seq<Option<nat>>, x: nat, n: nat)
    requires (forall k :: k in list ==> k in t) && |parents| == |list| && x < |list| && n <= |list|
    requires forall j :: 0 <= j < |list| ==> (parents[j] == Some(x) <==> t[list[j]].parentId == Some(list[x]))
    ensures Children(t, list[..n], list[x]) == At(list, KidsIn(parents, Some(x), 0, n))
  {
    if n > 0 {
      ChildrenAt(t, list, parents, x, n - 1);
      assert list[..n][..n - 1] == list[..n - 1];
    }
  }

  lemma {:induction false} RootsAt(t: Table, list: seq<Id>, parents: seq<Option<nat>>, nodes: set<Id>, n: nat)
    requires (forall k :: k in list ==> k in t) && |parents| == |list| && n <= |list|
    requires forall j :: 0 <= j < |list| ==>
      (parents[j].Some? <==> t[list[j]].parentId.Some? && t[list[j]].parentId.value in nodes)
    ensures Roots(t, list[..n], nodes) == At(list, KidsIn(parents, None, 0, n))
  {
    if n > 0 {
      RootsAt(t, list, parents, nodes, n - 1);
      assert list[..n][..n - 1] == list[..n - 1];
    }
  }

  lemma ParentPositions(t: Table, list: seq<Id>, rank: Collation, x: nat, j: nat)
    requires Indexed(t) && SortedListing(t, list, rank) && x < |list| && j < |list|
    ensures Parents(t, list)[j] == Some(x) <==> t[list[j]].parentId == Some(list[x])
  {
    ParentComesFirst(t, list, rank, j);
    var p := Parents(t, list)[j];
    if p.Some? && list[p.value] == list[x] {
      Distinct(t, list, rank, p.value, x);
    }
  }

  /** The tree that getTree builds is the one the positions describe. */
  lemma {:induction false} TreeAtPositions(t: Table, list: seq<Id>, rank: Collation)
    requires Indexed(t) && SortedListing(t, list, rank)
    ensures var parents := Parents(t, list);
      && Roots(t, list, Ids(list)) == At(list, KidsIn(parents, None, 0, |list|))
      && forall x :: 0 <= x < |list| ==> Children(t, list, list[x]) == At(list, KidsIn(parents, Some(x), 0, |list|))
  {
    var parents := Parents(t, list);
    assert list[..|list|] == list;
    forall j | 0 <= j < |list|
      ensures parents[j].Some? <==> t[list[j]].parentId.Some? && t[list[j]].parentId.value in Ids(list)
    {
      ParentComesFirst(t, list, rank, j);
    }
    RootsAt(t, list, parents, Ids(list), |list|);
    forall x | 0 <= x < |list| ensures Children(t, list, list[x]) == At(list, KidsIn(parents, Some(x), 0, |list|)) {
      forall j | 0 <= j < |list| ensures parents[j] == Some(x) <==> t[list[j]].parentId == Some(list[x]) {
        ParentPositions(t, list, rank, x, j);
      }
      ChildrenAt(t, list, parents, x, |list|);
    }
  }

  ghost predicate SameTree(list: seq<Id>, kids: map<nat, seq<nat>>, nodes: map<Id, seq<Id>>) {
    forall x :: x in kids ==>
      && x < |list| && list[x] in nodes
      && Within(kids[x], |list|)
      && nodes[list[x]] == At(list, kids[x])
  }

  lemma {:induction false} PreorderAt(list: seq<Id>, kids: map<nat, seq<nat>>, nodes: map<Id, seq<Id>>,
                                      ids: seq<nat>, out: seq<nat>)
    requires SameTree(list, kids, nodes) && Preorder(kids, ids, out)
    requires Within(ids, |list|) && Within(out, |list|)
    ensures Preorder(nodes, At(list, ids), At(list, out))
    decreases |out|
  {
    if ids != [] {
      var n: nat :| Unfolds(kids, ids, out, n);
      PreorderAt(list, kids, nodes, kids[ids[0]], out[1..n]);
      PreorderAt(list, kids, nodes, ids[1..], out[n..]);
      assert At(list, out)[1..n] == At(list, out[1..n]);
      assert At(list, out)[n..] == At(list, out[n..]);
      assert At(list, ids)[1..] == At(list, ids[1..]);
      assert Unfolds(nodes, At(list, ids), At(list, out), n);
    }
  }

  lemma {:induction false} TreeIsTheSame(
    t: Table, list: seq<Id>, rank: Collation, nodes: map<Id, seq<Id>>, roots: seq<Id>)
    requires Indexed(t) && SortedListing(t, list, rank) && TreeOf(t, list, nodes, roots)
    ensures SameTree(list, KidsMap(Parents(t, list)), nodes)
    ensures roots == At(list, KidsIn(Parents(t, list), None, 0, |list|))
  {
    TreeAtPositions(t, list, rank);
    var kids := KidsMap(Parents(t, list));
    forall x | x in kids
      ensures x < |list| && list[x] in nodes && Within(kids[x], |list|) && nodes[list[x]] == At(list, kids[x])
    {
      assert nodes[list[x]] == Children(t, list, list[x]);
    }
  }

  lemma PreorderOfTheTree(list: seq<Id>, parents: seq<Option<nat>>, nodes: map<Id, seq<Id>>)
    requires |parents| == |list| && Nested(parents) && SameTree(list, KidsMap(parents), nodes)
    ensures Preorder(nodes, At(list, KidsIn(parents, None, 0, |list|)), list)
  {
    SegmentUnfolds(parents, None, 0, |list|);
    PreorderAt(list, KidsMap(parents), nodes, KidsIn(parents, None, 0, |list|), Range(0, |list|));
    assert At(list, Range(0, |list|)) == list;
  }

  /** Reading the tree of getTree in preorder gives back the path-sorted listing: every category once,
      under its parent, nothing lost and nothing repeated. */
  lemma TreeReadsAsTheListing(t: Table, list: seq<Id>, rank: Collation, nodes: map<Id, seq<Id>>, roots: seq<Id>)
    requires Indexed(t) && SortedListing(t, list, rank) && TellsApart(rank, Letters(t))
    requires TreeOf(t, list, nodes, roots)
    ensures Preorder(nodes, roots, list)
    ensures forall out :: Preorder(nodes, roots, out) ==> out == list
  {
    ListingIsNested(t, list, rank);
    TreeIsTheSame(t, list, rank, nodes, roots);
    PreorderOfTheTree(list, Parents(t, list), nodes);
    forall out | Preorder(nodes, roots, out) ensures out == list {
      PreorderIsUnique(nodes, roots, out, list);
    }
  }
}
