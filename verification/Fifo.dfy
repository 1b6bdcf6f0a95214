/** First-expiring, first-out consumption of cost batches
    (inventory-fifo/fifo.service.ts, inventory-batch/batch.service.ts and the batch queries of
    inventory/inventory.repository.ts). */
module Fifo {
  import opened Common

  /** A row of inventory_batches. Rows are only ever appended, so a batch is named by its position,
      and positions follow createdAt. */
  datatype Batch = Batch(
    productId: Id,
    stockItemId: Option<Id>,
    received: real,
    remaining: real,
    unitCost: real,
    expiry: Option<int>)

  datatype Allocation = Allocation(batch: nat, quantity: real, unitCost: real)

  /** What the batch queries filter on; no stock item means all of the product's batches. */
  datatype Query = Query(productId: Id, stockItemId: Option<Id>, now: int)

  datatype FifoError = QuantityNotPositive | InsufficientInventory

  // ---------------------------------------------------------------- the batch queries

  predicate InScope(b: Batch, query: Query) {
    && b.productId == query.productId
    && (query.stockItemId.Some? ==> b.stockItemId == query.stockItemId)
    && b.remaining > 0.0
  }

  predicate ExpiresLater(b: Batch, query: Query) {
    InScope(b, query) && b.expiry.Some? && b.expiry.value > query.now
  }

  predicate NeverExpires(b: Batch, query: Query) {
    InScope(b, query) && b.expiry.None?
  }

  /** A batch that a consumption at query.now may draw on. */
  predicate Eligible(b: Batch, query: Query) {
    ExpiresLater(b, query) || NeverExpires(b, query)
  }

  predicate InBounds(order: seq<nat>, n: nat) {
    forall k :: 0 <= k < |order| ==> order[k] < n
  }

  predicate AllExpire(bs: seq<Batch>, order: seq<nat>)
    requires InBounds(order, |bs|)
  {
    forall k :: 0 <= k < |order| ==> bs[order[k]].expiry.Some?
  }

  /** Position i goes before every listed batch that expires later than it does. */
  function InsertByExpiry(bs: seq<Batch>, order: seq<nat>, i: nat): (r: seq<nat>)
    requires i < |bs| && InBounds(order, |bs|)
    requires bs[i].expiry.Some? && AllExpire(bs, order)
    ensures |r| == |order| + 1 && InBounds(r, |bs|) && AllExpire(bs, r)
  {
    if order == [] then [i]
    else if bs[i].expiry.value < bs[order[0]].expiry.value then [i] + order
    else [order[0]] + InsertByExpiry(bs, order[1..], i)
  }

  /** findExpiringFifoBatches over the first n rows: ordered by expiry date, then creation. */
  function FindExpiring(bs: seq<Batch>, query: Query, n: nat): (r: seq<nat>)
    requires n <= |bs|
    ensures InBounds(r, |bs|) && AllExpire(bs, r)
  {
    if n == 0 then []
    else if ExpiresLater(bs[n - 1], query) then InsertByExpiry(bs, FindExpiring(bs, query, n - 1), n - 1)
    else FindExpiring(bs, query, n - 1)
  }

  /** findNonExpiringFifoBatches over the first n rows: ordered by creation. */
  function FindNonExpiring(bs: seq<Batch>, query: Query, n: nat): (r: seq<nat>)
    requires n <= |bs|
    ensures InBounds(r, |bs|)
  {
    if n == 0 then []
    else if NeverExpires(bs[n - 1], query) then FindNonExpiring(bs, query, n - 1) + [n - 1]
    else FindNonExpiring(bs, query, n - 1)
  }

  function FindFifoBatches(bs: seq<Batch>, query: Query): (r: seq<nat>)
    ensures InBounds(r, |bs|)
  {
    var expiring := FindExpiring(bs, query, |bs|);
    if expiring == [] then FindNonExpiring(bs, query, |bs|)
    else expiring + FindNonExpiring(bs, query, |bs|)
  }

  lemma {:induction false} InsertMembers(bs: seq<Batch>, order: seq<nat>, i: nat, j: nat)
    requires i < |bs| && InBounds(order, |bs|)
    requires bs[i].expiry.Some? && AllExpire(bs, order)
    ensures j in InsertByExpiry(bs, order, i) <==> j == i || j in order
  {
    if order != [] && !(bs[i].expiry.value < bs[order[0]].expiry.value) {
      InsertMembers(bs, order[1..], i, j);
      assert j in order <==> j == order[0] || j in order[1..];
    }
  }

  lemma {:induction false} FindExpiringMembers(bs: seq<Batch>, query: Query, n: nat, j: nat)
    requires n <= |bs|
    ensures j in FindExpiring(bs, query, n) <==> j < n && ExpiresLater(bs[j], query)
  {
    if n > 0 {
      FindExpiringMembers(bs, query, n - 1, j);
      if ExpiresLater(bs[n - 1], query) {
        InsertMembers(bs, FindExpiring(bs, query, n - 1), n - 1, j);
      }
    }
  }

  lemma {:induction false} FindNonExpiringMembers(bs: seq<Batch>, query: Query, n: nat, j: nat)
    requires n <= |bs|
    ensures j in FindNonExpiring(bs, query, n) <==> j < n && NeverExpires(bs[j], query)
  {
    if n > 0 {
      FindNonExpiringMembers(bs, query, n - 1, j);
    }
  }

  /** The candidates are exactly the eligible batches. */
  lemma CandidateMembers(bs: seq<Batch>, query: Query)
    ensures forall j: nat :: j in FindFifoBatches(bs, query) <==> j < |bs| && Eligible(bs[j], query)
  {
    forall j: nat ensures j in FindFifoBatches(bs, query) <==> j < |bs| && Eligible(bs[j], query) {
      FindExpiringMembers(bs, query, |bs|, j);
      FindNonExpiringMembers(bs, query, |bs|, j);
    }
  }

  // ---------------------------------------------------------------- the FIFO order

  /** Expiring batches first, the earliest expiry first; ties and the rest by creation. */
  predicate Before(bs: seq<Batch>, i: nat, j: nat)
    requires i < |bs| && j < |bs|
  {
    match (bs[i].expiry, bs[j].expiry)
    case (Some(x), Some(y)) => x < y || (x == y && i < j)
    case (Some(_), None) => true
    case (None, Some(_)) => false
    case (None, None) => i < j
  }

  predicate Ordered(bs: seq<Batch>, order: seq<nat>)
    requires InBounds(order, |bs|)
  {
    forall k, l :: 0 <= k < l < |order| ==> Before(bs, order[k], order[l])
  }

  lemma {:induction false} InsertKeepsOrder(bs: seq<Batch>, order: seq<nat>, i: nat)
    requires i < |bs| && InBounds(order, i)
    requires bs[i].expiry.Some? && AllExpire(bs, order)
    requires Ordered(bs, order)
    ensures Ordered(bs, InsertByExpiry(bs, order, i))
  {
    if order != [] && !(bs[i].expiry.value < bs[order[0]].expiry.value) {
      var rest := InsertByExpiry(bs, order[1..], i);
      InsertKeepsOrder(bs, order[1..], i);
      forall l | 0 <= l < |rest| ensures Before(bs, order[0], rest[l]) {
        assert rest[l] in rest;
        InsertMembers(bs, order[1..], i, rest[l]);
        if rest[l] != i {
          var m :| 0 <= m < |order[1..]| && order[1..][m] == rest[l];
          assert Before(bs, order[0], order[m + 1]);
        }
      }
    }
  }

  lemma {:induction false} FindExpiringIsOrdered(bs: seq<Batch>, query: Query, n: nat)
    requires n <= |bs|
    ensures Ordered(bs, FindExpiring(bs, query, n))
  {
    if n > 0 {
      FindExpiringIsOrdered(bs, query, n - 1);
      var found := FindExpiring(bs, query, n - 1);
      if ExpiresLater(bs[n - 1], query) {
        forall k | 0 <= k < |found| ensures found[k] < n - 1 {
          assert found[k] in found;
          FindExpiringMembers(bs, query, n - 1, found[k]);
        }
        InsertKeepsOrder(bs, found, n - 1);
      }
    }
  }

  lemma {:induction false} FindNonExpiringIsOrdered(bs: seq<Batch>, query: Query, n: nat)
    requires n <= |bs|
    ensures Ordered(bs, FindNonExpiring(bs, query, n))
  {
    if n > 0 {
      FindNonExpiringIsOrdered(bs, query, n - 1);
      var found := FindNonExpiring(bs, query, n - 1);
      forall k | 0 <= k < |found| ensures found[k] < n - 1 && bs[found[k]].expiry.None? {
        assert found[k] in found;
        FindNonExpiringMembers(bs, query, n - 1, found[k]);
      }
    }
  }

  /** The two queries together list every eligible batch, once each, in FIFO order. */
  lemma CandidatesAreOrdered(bs: seq<Batch>, query: Query)
    ensures Ordered(bs, FindFifoBatches(bs, query))
  {
    var e, f := FindExpiring(bs, query, |bs|), FindNonExpiring(bs, query, |bs|);
    FindExpiringIsOrdered(bs, query, |bs|);
    FindNonExpiringIsOrdered(bs, query, |bs|);
    forall k | 0 <= k < |f| ensures bs[f[k]].expiry.None? {
      assert f[k] in f;
      FindNonExpiringMembers(bs, query, |bs|, f[k]);
    }
  }

  predicate Distinct(order: seq<nat>) {
    order != [] ==> order[0] !in order[1..] && Distinct(order[1..])
  }

  lemma {:induction false} OrderedIsDistinct(bs: seq<Batch>, order: seq<nat>)
    requires InBounds(order, |bs|) && Ordered(bs, order)
    ensures Distinct(order)
  {
    if order != [] {
      OrderedIsDistinct(bs, order[1..]);
      forall k | 0 < k < |order| ensures order[k] != order[0] {
        assert Before(bs, order[0], order[k]);
      }
    }
  }

  /** The order leaves no freedom: a set of batches has one ordered listing. */
  lemma {:induction false} OrderedListingIsUnique(bs: seq<Batch>, xs: seq<nat>, ys: seq<nat>)
    requires InBounds(xs, |bs|) && InBounds(ys, |bs|)
    requires Ordered(bs, xs) && Ordered(bs, ys)
    requires forall j: nat :: j in xs <==> j in ys
    ensures xs == ys
  {
    assert ys != [] ==> ys[0] in xs;
    if xs != [] {
      assert xs[0] in ys;
      OrderedIsDistinct(bs, xs);
      OrderedIsDistinct(bs, ys);
      var k :| 0 <= k < |ys| && ys[k] == xs[0];
      var l :| 0 <= l < |xs| && xs[l] == ys[0];
      assert k == 0;
      forall j: nat ensures j in xs[1..] <==> j in ys[1..] {
        assert j in xs <==> j == xs[0] || j in xs[1..];
        assert j in ys <==> j == ys[0] || j in ys[1..];
      }
      OrderedListingIsUnique(bs, xs[1..], ys[1..]);
    }
  }

  // ---------------------------------------------------------------- consuming

  function Clamp(x: real, high: real): real {
    if x < 0.0 then 0.0 else if x < high then x else high
  }

  /** What the batches at the listed positions hold. */
  function Held(bs: seq<Batch>, order: seq<nat>): (r: seq<real>)
    requires InBounds(order, |bs|)
    ensures |r| == |order|
  {
    seq(|order|, k requires 0 <= k < |order| => bs[order[k]].remaining)
  }

  /** The part of a quantity that falls on batch i: what the batches listed before it leave over,
      up to what it holds. */
  function Share(bs: seq<Batch>, order: seq<nat>, quantity: real, i: nat): real
    requires InBounds(order, |bs|)
  {
    if order == [] then 0.0
    else if order[0] == i then Clamp(quantity, bs[i].remaining)
    else Share(bs, order[1..], quantity - bs[order[0]].remaining, i)
  }

  /** The batch table once every batch has given its share. */
  function After(bs: seq<Batch>, order: seq<nat>, quantity: real): (r: seq<Batch>)
    requires InBounds(order, |bs|)
    ensures |r| == |bs|
  {
    seq(|bs|, i requires 0 <= i < |bs| =>
      bs[i].(remaining := bs[i].remaining - Share(bs, order, quantity, i)))
  }

  /** The shares that are not zero, in list order. */
  function Allocate(bs: seq<Batch>, order: seq<nat>, quantity: real): seq<Allocation>
    requires InBounds(order, |bs|)
  {
    if order == [] || quantity <= 0.0 then []
    else
      var b := bs[order[0]];
      [Allocation(order[0], Min(b.remaining, quantity), b.unitCost)]
      + Allocate(bs, order[1..], quantity - b.remaining)
  }

  datatype Consumption = Consumption(batches: seq<Batch>, allocations: seq<Allocation>)

  /** What FifoService.consume answers; a failed consumption keeps nothing. */
  function Consume(bs: seq<Batch>, query: Query, quantity: real): Result<Consumption, FifoError> {
    var order := FindFifoBatches(bs, query);
    if quantity <= 0.0 then Err(QuantityNotPositive)
    else if Sum(Held(bs, order)) < quantity then Err(InsufficientInventory)
    else Ok(Consumption(After(bs, order, quantity), Allocate(bs, order, quantity)))
  }

  // ---------------------------------------------------------------- eligible stock

  /** The stock a consumption may draw on, counted batch by batch whatever the order. */
  function EligibleColumn(bs: seq<Batch>, query: Query): (r: seq<real>)
    ensures |r| == |bs|
  {
    seq(|bs|, i requires 0 <= i < |bs| => if Eligible(bs[i], query) then bs[i].remaining else 0.0)
  }

  function EligibleStock(bs: seq<Batch>, query: Query): real {
    Sum(EligibleColumn(bs, query))
  }

  lemma {:induction false} InsertAddsHeld(bs: seq<Batch>, order: seq<nat>, i: nat)
    requires i < |bs| && InBounds(order, |bs|)
    requires bs[i].expiry.Some? && AllExpire(bs, order)
    ensures Sum(Held(bs, InsertByExpiry(bs, order, i))) == Sum(Held(bs, order)) + bs[i].remaining
  {
    var r := InsertByExpiry(bs, order, i);
    assert Held(bs, r)[1..] == Held(bs, r[1..]);
    if order == [] || bs[i].expiry.value < bs[order[0]].expiry.value {
      assert r[1..] == order;
    } else {
      InsertAddsHeld(bs, order[1..], i);
      assert Held(bs, order)[1..] == Held(bs, order[1..]);
      assert r[1..] == InsertByExpiry(bs, order[1..], i);
    }
  }

  lemma {:induction false} QueriesCoverEligible(bs: seq<Batch>, query: Query, n: nat)
    requires n <= |bs|
    ensures Sum(Held(bs, FindExpiring(bs, query, n))) + Sum(Held(bs, FindNonExpiring(bs, query, n)))
         == Sum(EligibleColumn(bs, query)[..n])
  {
    var column := EligibleColumn(bs, query);
    if n > 0 {
      QueriesCoverEligible(bs, query, n - 1);
      assert column[..n] == column[..n - 1] + [column[n - 1]];
      SumSnoc(column[..n - 1], column[n - 1]);
      var e, f := FindExpiring(bs, query, n - 1), FindNonExpiring(bs, query, n - 1);
      if ExpiresLater(bs[n - 1], query) {
        InsertAddsHeld(bs, e, n - 1);
      } else if NeverExpires(bs[n - 1], query) {
        assert Held(bs, f + [n - 1]) == Held(bs, f) + [bs[n - 1].remaining];
        SumSnoc(Held(bs, f), bs[n - 1].remaining);
      }
    }
  }

  /** The candidate list holds exactly the eligible stock. */
  lemma CandidatesHoldEligibleStock(bs: seq<Batch>, query: Query)
    ensures Sum(Held(bs, FindFifoBatches(bs, query))) == EligibleStock(bs, query)
  {
    var e, f := FindExpiring(bs, query, |bs|), FindNonExpiring(bs, query, |bs|);
    QueriesCoverEligible(bs, query, |bs|);
    assert EligibleColumn(bs, query)[..|bs|] == EligibleColumn(bs, query);
    SumConcat(Held(bs, e), Held(bs, f));
    assert Held(bs, e + f) == Held(bs, e) + Held(bs, f);
    if e == [] {
      assert e + f == f;
    }
  }

  // ---------------------------------------------------------------- exact and greedy

  predicate Stocked(bs: seq<Batch>, order: seq<nat>)
    requires InBounds(order, |bs|)
  {
    forall k :: 0 <= k < |order| ==> bs[order[k]].remaining > 0.0
  }

  function Quantities(allocations: seq<Allocation>): (r: seq<real>)
    ensures |r| == |allocations|
  {
    seq(|allocations|, k requires 0 <= k < |allocations| => allocations[k].quantity)
  }

  /** The allocations follow the list from its head; all but the last drain their batch. */
  ghost predicate Greedy(bs: seq<Batch>, order: seq<nat>, taken: seq<Allocation>)
    requires InBounds(order, |bs|)
  {
    && |taken| <= |order|
    && (forall k :: 0 <= k < |taken| ==>
          && taken[k].batch == order[k]
          && taken[k].unitCost == bs[order[k]].unitCost
          && 0.0 < taken[k].quantity <= bs[order[k]].remaining)
    && (forall k :: 0 <= k < |taken| - 1 ==> taken[k].quantity == bs[order[k]].remaining)
  }

  lemma GreedyCons(bs: seq<Batch>, order: seq<nat>, a: Allocation, rest: seq<Allocation>)
    requires InBounds(order, |bs|) && order != [] && Greedy(bs, order[1..], rest)
    requires a.batch == order[0] && a.unitCost == bs[order[0]].unitCost && 0.0 < a.quantity <= bs[order[0]].remaining
    requires rest != [] ==> a.quantity == bs[order[0]].remaining
    ensures Greedy(bs, order, [a] + rest)
  {}

  lemma {:induction false} AllocateIsGreedy(bs: seq<Batch>, order: seq<nat>, quantity: real)
    requires InBounds(order, |bs|) && Stocked(bs, order)
    ensures Greedy(bs, order, Allocate(bs, order, quantity))
    decreases |order|
  {
    if order != [] && quantity > 0.0 {
      var b := bs[order[0]];
      AllocateIsGreedy(bs, order[1..], quantity - b.remaining);
      GreedyCons(bs, order, Allocation(order[0], Min(b.remaining, quantity), b.unitCost),
                 Allocate(bs, order[1..], quantity - b.remaining));
    }
  }

  lemma {:induction false} AllocateIsExact(bs: seq<Batch>, order: seq<nat>, quantity: real)
    requires InBounds(order, |bs|) && Stocked(bs, order)
    requires quantity <= Sum(Held(bs, order))
    ensures Sum(Quantities(Allocate(bs, order, quantity))) == if quantity < 0.0 then 0.0 else quantity
    decreases |order|
  {
    if order != [] && quantity > 0.0 {
      var b := bs[order[0]];
      assert Held(bs, order)[1..] == Held(bs, order[1..]);
      AllocateIsExact(bs, order[1..], quantity - b.remaining);
      QuantitiesCons(
        Allocation(order[0], Min(b.remaining, quantity), b.unitCost),
        Allocate(bs, order[1..], quantity - b.remaining));
    }
  }

  lemma QuantitiesCons(a: Allocation, rest: seq<Allocation>)
    ensures Sum(Quantities([a] + rest)) == a.quantity + Sum(Quantities(rest))
  {
    assert Quantities([a] + rest)[1..] == Quantities(rest);
  }

  /** The part of batch i that a list of allocations takes. */
  function AllocatedTo(allocations: seq<Allocation>, i: nat): real {
    if allocations == [] then 0.0
    else (if allocations[0].batch == i then allocations[0].quantity else 0.0) + AllocatedTo(allocations[1..], i)
  }

  lemma {:induction false} NothingFallsAfterTheEnd(bs: seq<Batch>, order: seq<nat>, quantity: real, i: nat)
    requires InBounds(order, |bs|) && Stocked(bs, order)
    requires i !in order || quantity <= 0.0
    ensures Share(bs, order, quantity, i) == 0.0
    decreases |order|
  {
    if order != [] && order[0] != i {
      NothingFallsAfterTheEnd(bs, order[1..], quantity - bs[order[0]].remaining, i);
    }
  }

  /** The share of a batch is what the allocation list records for it. */
  lemma {:induction false} SharesAreAllocated(bs: seq<Batch>, order: seq<nat>, quantity: real, i: nat)
    requires InBounds(order, |bs|) && Stocked(bs, order) && Distinct(order)
    ensures Share(bs, order, quantity, i) == AllocatedTo(Allocate(bs, order, quantity), i)
    decreases |order|
  {
    if quantity <= 0.0 {
      NothingFallsAfterTheEnd(bs, order, quantity, i);
    } else if order != [] {
      var b := bs[order[0]];
      var rest := Allocate(bs, order[1..], quantity - b.remaining);
      SharesAreAllocated(bs, order[1..], quantity - b.remaining, i);
      assert ([Allocation(order[0], Min(b.remaining, quantity), b.unitCost)] + rest)[1..] == rest;
      if order[0] == i {
        NothingFallsAfterTheEnd(bs, order[1..], quantity - b.remaining, i);
      }
    }
  }

  /** The candidate list of a consumption, ready for the lemmas about lists. */
  lemma Candidates(bs: seq<Batch>, query: Query)
    ensures var order := FindFifoBatches(bs, query);
      && Distinct(order) && Stocked(bs, order)
      && Sum(Held(bs, order)) == EligibleStock(bs, query)
  {
    var order := FindFifoBatches(bs, query);
    CandidatesAreOrdered(bs, query);
    OrderedIsDistinct(bs, order);
    CandidatesHoldEligibleStock(bs, query);
    CandidateMembers(bs, query);
    assert forall k :: 0 <= k < |order| ==> order[k] in order;
  }

  /** FifoService.consume is exact and greedy: it succeeds exactly when the eligible stock covers a
      positive quantity; then the allocations are positive, add up to it, follow the FIFO order from
      its head and drain every batch before the last, and each batch loses what was allocated to it. */
  lemma ConsumeIsExactAndGreedy(bs: seq<Batch>, query: Query, quantity: real)
    ensures Consume(bs, query, quantity).Ok? <==> 0.0 < quantity <= EligibleStock(bs, query)
    ensures Ordered(bs, FindFifoBatches(bs, query))
    ensures Consume(bs, query, quantity).Ok? ==>
      var c := Consume(bs, query, quantity).value;
      && Greedy(bs, FindFifoBatches(bs, query), c.allocations)
      && Sum(Quantities(c.allocations)) == quantity
      && |c.batches| == |bs|
      && forall i: nat :: i < |bs| ==>
           c.batches[i] == bs[i].(remaining := bs[i].remaining - AllocatedTo(c.allocations, i))
  {
    var order := FindFifoBatches(bs, query);
    CandidatesAreOrdered(bs, query);
    Candidates(bs, query);
    if 0.0 < quantity <= EligibleStock(bs, query) {
      AllocateIsGreedy(bs, order, quantity);
      AllocateIsExact(bs, order, quantity);
      forall i: nat | i < |bs| ensures Share(bs, order, quantity, i) == AllocatedTo(Allocate(bs, order, quantity), i) {
        SharesAreAllocated(bs, order, quantity, i);
      }
    }
  }

  // ---------------------------------------------------------------- what leaves the table

  /** What the accounting of a successful consumption rests on. */
  lemma {:induction false} ConsumeDeducts(bs: seq<Batch>, query: Query, quantity: real)
    requires Consume(bs, query, quantity).Ok?
    ensures var c := Consume(bs, query, quantity).value;
      && |c.batches| == |bs|
      && (forall i: nat :: i < |bs| ==>
            && c.batches[i] == bs[i].(remaining := bs[i].remaining - AllocatedTo(c.allocations, i))
            && (Eligible(bs[i], query) ==> 0.0 <= c.batches[i].remaining)
            && (!Eligible(bs[i], query) ==> c.batches[i] == bs[i]))
      && (forall k :: 0 <= k < |c.allocations| ==>
            && c.allocations[k].batch < |bs|
            && Eligible(bs[c.allocations[k].batch], query)
            && c.allocations[k].unitCost == bs[c.allocations[k].batch].unitCost)
      && Sum(Quantities(c.allocations)) == quantity
  {
    var order := FindFifoBatches(bs, query);
    var c := Consume(bs, query, quantity).value;
    ConsumeIsExactAndGreedy(bs, query, quantity);
    Candidates(bs, query);
    CandidateMembers(bs, query);
    forall i: nat | i < |bs|
      ensures 0.0 <= Share(bs, order, quantity, i)
      ensures if Eligible(bs[i], query) then Share(bs, order, quantity, i) <= bs[i].remaining
              else Share(bs, order, quantity, i) == 0.0
    {
      SharesAreBounded(bs, order, quantity, i);
    }
    forall k | 0 <= k < |c.allocations| ensures c.allocations[k].batch in order {
      assert order[k] in order;
    }
  }

  function Worth(quantity: real, unitCost: real): real {
    quantity * unitCost
  }

  function Costs(allocations: seq<Allocation>): (r: seq<real>)
    ensures |r| == |allocations|
  {
    seq(|allocations|, k requires 0 <= k < |allocations| =>
      Worth(allocations[k].quantity, allocations[k].unitCost))
  }

  /** remaining * unitCost of each batch. */
  function ValueColumn(bs: seq<Batch>): (r: seq<real>)
    ensures |r| == |bs|
  {
    seq(|bs|, i requires 0 <= i < |bs| => Worth(bs[i].remaining, bs[i].unitCost))
  }

  /** The valuation of the batches on hand. */
  function Value(bs: seq<Batch>): real {
    Sum(ValueColumn(bs))
  }

  /** A part of the batch table that no consumption moves a batch into or out of. */
  datatype Scope = OfProduct(productId: Id) | OfStockItem(stockItemId: Id)

  predicate Covers(scope: Scope, b: Batch) {
    match scope
    case OfProduct(p) => b.productId == p
    case OfStockItem(s) => b.stockItemId == Some(s)
  }

  function StockColumn(bs: seq<Batch>, scope: Scope): (r: seq<real>)
    ensures |r| == |bs|
  {
    seq(|bs|, i requires 0 <= i < |bs| => if Covers(scope, bs[i]) then bs[i].remaining else 0.0)
  }

  /** What the batches of a scope hold together. */
  function Stock(bs: seq<Batch>, scope: Scope): real {
    Sum(StockColumn(bs, scope))
  }

  function WeightedShares(allocations: seq<Allocation>, weights: seq<real>): (r: seq<real>)
    ensures |r| == |weights|
  {
    seq(|weights|, i requires 0 <= i < |weights| => Worth(AllocatedTo(allocations, i), weights[i]))
  }

  function WeightedQuantities(allocations: seq<Allocation>, weights: seq<real>): (r: seq<real>)
    requires forall k :: 0 <= k < |allocations| ==> allocations[k].batch < |weights|
    ensures |r| == |allocations|
  {
    seq(|allocations|, k requires 0 <= k < |allocations| =>
      Worth(allocations[k].quantity, weights[allocations[k].batch]))
  }

  /** Summing per batch and summing per allocation agree, whatever each batch's unit is worth. */
  lemma {:induction false} PerBatchIsPerAllocation(allocations: seq<Allocation>, weights: seq<real>)
    requires forall k :: 0 <= k < |allocations| ==> allocations[k].batch < |weights|
    ensures Sum(WeightedShares(allocations, weights)) == Sum(WeightedQuantities(allocations, weights))
  {
    if allocations == [] {
      SumZero(WeightedShares(allocations, weights));
    } else {
      var a, rest := allocations[0], allocations[1..];
      PerBatchIsPerAllocation(rest, weights);
      assert WeightedQuantities(allocations, weights)[1..] == WeightedQuantities(rest, weights);
      WeightedSharesOfOneMore(a, rest, weights);
      assert allocations == [a] + rest;
      SumUpdate(WeightedShares(rest, weights), a.batch, WeightedShares(allocations, weights)[a.batch]);
    }
  }

  lemma WeightedSharesOfOneMore(a: Allocation, rest: seq<Allocation>, weights: seq<real>)
    requires a.batch < |weights|
    ensures var was, now := WeightedShares(rest, weights), WeightedShares([a] + rest, weights);
      && now == was[a.batch := now[a.batch]]
      && now[a.batch] == was[a.batch] + Worth(a.quantity, weights[a.batch])
  {}

  function Negated(xs: seq<real>): (r: seq<real>)
    ensures |r| == |xs|
  {
    seq(|xs|, i requires 0 <= i < |xs| => -xs[i])
  }

  lemma {:induction false} SumNegated(xs: seq<real>)
    ensures Sum(Negated(xs)) == -Sum(xs)
  {
    if xs != [] {
      SumNegated(xs[1..]);
      assert Negated(xs)[1..] == Negated(xs[1..]);
    }
  }

  /** Each cell loses the weight of what is allocated to its row. */
  ghost predicate CellsDrop(before: seq<real>, after: seq<real>, allocations: seq<Allocation>, weights: seq<real>) {
    && |before| == |after| == |weights|
    && (forall k :: 0 <= k < |allocations| ==> allocations[k].batch < |weights|)
    && forall i :: 0 <= i < |before| ==> after[i] == before[i] - Worth(AllocatedTo(allocations, i), weights[i])
  }

  /** A column of the table that weighs what remains drops by the weight of the allocations. */
  lemma WeightedColumnDrops(before: seq<real>, after: seq<real>, allocations: seq<Allocation>, weights: seq<real>)
    requires CellsDrop(before, after, allocations, weights)
    ensures Sum(after) == Sum(before) - Sum(WeightedQuantities(allocations, weights))
  {
    PerBatchIsPerAllocation(allocations, weights);
    SumNegated(WeightedShares(allocations, weights));
    SumAdd(before, Negated(WeightedShares(allocations, weights)), after);
  }

  lemma WorthMinus(x: real, y: real, unitCost: real)
    ensures Worth(x - y, unitCost) == Worth(x, unitCost) - Worth(y, unitCost)
  {}

  lemma WorthOfUnit(x: real)
    ensures Worth(x, 1.0) == x && Worth(x, 0.0) == 0.0
  {}

  function UnitCosts(bs: seq<Batch>): (r: seq<real>)
    ensures |r| == |bs|
  {
    seq(|bs|, i requires 0 <= i < |bs| => bs[i].unitCost)
  }

  /** What ConsumeDeducts says of the table, for the cells of a column. */
  ghost predicate Deducted(bs: seq<Batch>, after: seq<Batch>, allocations: seq<Allocation>) {
    && |after| == |bs|
    && forall i: nat :: i < |bs| ==> after[i] == bs[i].(remaining := bs[i].remaining - AllocatedTo(allocations, i))
  }

  lemma ValueCellsDrop(bs: seq<Batch>, after: seq<Batch>, allocations: seq<Allocation>)
    requires Deducted(bs, after, allocations)
    requires forall k :: 0 <= k < |allocations| ==> allocations[k].batch < |bs|
    ensures CellsDrop(ValueColumn(bs), ValueColumn(after), allocations, UnitCosts(bs))
  {
    forall i: nat | i < |bs|
      ensures ValueColumn(after)[i] == ValueColumn(bs)[i] - Worth(AllocatedTo(allocations, i), UnitCosts(bs)[i])
    {
      WorthMinus(bs[i].remaining, AllocatedTo(allocations, i), bs[i].unitCost);
    }
  }

  lemma CostsAreWeighted(bs: seq<Batch>, allocations: seq<Allocation>)
    requires forall k :: 0 <= k < |allocations| ==>
      allocations[k].batch < |bs| && allocations[k].unitCost == bs[allocations[k].batch].unitCost
    ensures WeightedQuantities(allocations, UnitCosts(bs)) == Costs(allocations)
  {}

  /** The cost of a consumption is exactly the value that leaves the table. */
  lemma ConsumeCostsTheDrop(bs: seq<Batch>, query: Query, quantity: real)
    requires Consume(bs, query, quantity).Ok?
    ensures var c := Consume(bs, query, quantity).value;
      Value(c.batches) == Value(bs) - Sum(Costs(c.allocations))
  {
    ConsumeDeducts(bs, query, quantity);
    var c := Consume(bs, query, quantity).value;
    ValueCellsDrop(bs, c.batches, c.allocations);
    CostsAreWeighted(bs, c.allocations);
    WeightedColumnDrops(ValueColumn(bs), ValueColumn(c.batches), c.allocations, UnitCosts(bs));
  }

  // ---------------------------------------------------------------- when a consumption costs anything

  ghost predicate CostsKept(bs: seq<Batch>) {
    forall i :: 0 <= i < |bs| ==> 0.0 <= bs[i].unitCost
  }

  /** The candidates before some batch with a positive cost hold less than the quantity. */
  ghost predicate DrawsAtCost(bs: seq<Batch>, query: Query, quantity: real) {
    exists k: nat :: ReachesCost(bs, FindFifoBatches(bs, query), quantity, k)
  }

  ghost predicate ReachesCost(bs: seq<Batch>, order: seq<nat>, quantity: real, k: nat)
    requires InBounds(order, |bs|)
  {
    k < |order| && bs[order[k]].unitCost > 0.0 && Sum(Held(bs, order[..k])) < quantity
  }

  /** A candidate is drawn on exactly when those before it hold less than the quantity. */
  lemma {:induction false} AllocateReaches(bs: seq<Batch>, order: seq<nat>, quantity: real, k: nat)
    requires InBounds(order, |bs|) && Stocked(bs, order) && k < |order|
    ensures k < |Allocate(bs, order, quantity)| <==> Sum(Held(bs, order[..k])) < quantity
    decreases |order|
  {
    if k == 0 {
      assert Held(bs, order[..0]) == [];
    } else {
      var b := bs[order[0]];
      assert Held(bs, order[..k])[1..] == Held(bs, order[1..][..k - 1]);
      AllocateReaches(bs, order[1..], quantity - b.remaining, k - 1);
      if quantity <= 0.0 {
        HeldIsNotNegative(bs, order[..k]);
      }
    }
  }

  lemma HeldIsNotNegative(bs: seq<Batch>, order: seq<nat>)
    requires InBounds(order, |bs|) && Stocked(bs, order)
    ensures 0.0 <= Sum(Held(bs, order))
  {
    SumNonNegative(Held(bs, order));
  }

  lemma WorthIsPositive(quantity: real, unitCost: real)
    requires quantity > 0.0 && 0.0 <= unitCost
    ensures 0.0 <= Worth(quantity, unitCost)
    ensures Worth(quantity, unitCost) > 0.0 <==> unitCost > 0.0
  {}

  /** Whether a consumption costs anything can be told from the batches beforehand. */
  lemma {:induction false} CostIsPositiveExactly(bs: seq<Batch>, query: Query, quantity: real)
    requires CostsKept(bs) && Consume(bs, query, quantity).Ok?
    ensures Sum(Costs(Consume(bs, query, quantity).value.allocations)) > 0.0 <==> DrawsAtCost(bs, query, quantity)
  {
    var order, taken := FindFifoBatches(bs, query), Consume(bs, query, quantity).value.allocations;
    Candidates(bs, query);
    AllocateIsGreedy(bs, order, quantity);
    forall k | 0 <= k < |taken|
      ensures 0.0 <= Costs(taken)[k] && (Costs(taken)[k] > 0.0 <==> bs[order[k]].unitCost > 0.0)
    {
      WorthIsPositive(taken[k].quantity, taken[k].unitCost);
    }
    SumPositive(Costs(taken));
    forall k: nat | k < |order| ensures k < |taken| <==> Sum(Held(bs, order[..k])) < quantity {
      AllocateReaches(bs, order, quantity, k);
    }
    if k :| 0 <= k < |taken| && Costs(taken)[k] > 0.0 {
      assert ReachesCost(bs, order, quantity, k);
    }
  }

  function CoverWeights(bs: seq<Batch>, scope: Scope): (r: seq<real>)
    ensures |r| == |bs|
  {
    seq(|bs|, i requires 0 <= i < |bs| => if Covers(scope, bs[i]) then 1.0 else 0.0)
  }

  lemma StockCellsDrop(bs: seq<Batch>, after: seq<Batch>, allocations: seq<Allocation>, scope: Scope)
    requires Deducted(bs, after, allocations)
    requires forall k :: 0 <= k < |allocations| ==> allocations[k].batch < |bs|
    ensures CellsDrop(StockColumn(bs, scope), StockColumn(after, scope), allocations, CoverWeights(bs, scope))
  {
    forall i: nat | i < |bs|
      ensures StockColumn(after, scope)[i]
           == StockColumn(bs, scope)[i] - Worth(AllocatedTo(allocations, i), CoverWeights(bs, scope)[i])
    {
      WorthOfUnit(AllocatedTo(allocations, i));
    }
  }

  /** Unit weights on every allocation weigh the quantities, zero weights nothing. */
  lemma UniformWeights(allocations: seq<Allocation>, weights: seq<real>, weight: real)
    requires weight == 0.0 || weight == 1.0
    requires forall k :: 0 <= k < |allocations| ==>
      allocations[k].batch < |weights| && weights[allocations[k].batch] == weight
    ensures Sum(WeightedQuantities(allocations, weights)) == if weight == 1.0 then Sum(Quantities(allocations)) else 0.0
  {
    forall k | 0 <= k < |allocations|
      ensures WeightedQuantities(allocations, weights)[k] == if weight == 1.0 then allocations[k].quantity else 0.0
    {
      WorthOfUnit(allocations[k].quantity);
    }
    if weight == 1.0 {
      assert WeightedQuantities(allocations, weights) == Quantities(allocations);
    } else {
      SumZero(WeightedQuantities(allocations, weights));
    }
  }

  /** A scope that covers every candidate loses the whole quantity; one that covers none, nothing. */
  lemma ConsumeDropsStock(bs: seq<Batch>, query: Query, quantity: real, scope: Scope, covered: bool)
    requires Consume(bs, query, quantity).Ok?
    requires forall i: nat :: i < |bs| && Eligible(bs[i], query) ==> Covers(scope, bs[i]) == covered
    ensures Stock(Consume(bs, query, quantity).value.batches, scope)
         == Stock(bs, scope) - if covered then quantity else 0.0
  {
    ConsumeDeducts(bs, query, quantity);
    var c := Consume(bs, query, quantity).value;
    StockCellsDrop(bs, c.batches, c.allocations, scope);
    UniformWeights(c.allocations, CoverWeights(bs, scope), if covered then 1.0 else 0.0);
    WeightedColumnDrops(StockColumn(bs, scope), StockColumn(c.batches, scope), c.allocations, CoverWeights(bs, scope));
  }

  // ---------------------------------------------------------------- when a consumption touches a scope

  /** The candidates before some batch of the scope hold less than the quantity. */
  ghost predicate DrawsOn(bs: seq<Batch>, query: Query, quantity: real, scope: Scope) {
    exists k: nat :: ReachesScope(bs, FindFifoBatches(bs, query), quantity, scope, k)
  }

  ghost predicate ReachesScope(bs: seq<Batch>, order: seq<nat>, quantity: real, scope: Scope, k: nat)
    requires InBounds(order, |bs|)
  {
    k < |order| && Covers(scope, bs[order[k]]) && Sum(Held(bs, order[..k])) < quantity
  }

  lemma CoveredQuantities(bs: seq<Batch>, order: seq<nat>, taken: seq<Allocation>, scope: Scope)
    requires InBounds(order, |bs|) && Greedy(bs, order, taken)
    ensures var drop := Sum(WeightedQuantities(taken, CoverWeights(bs, scope)));
      && 0.0 <= drop
      && (drop > 0.0 <==> exists k :: 0 <= k < |taken| && Covers(scope, bs[order[k]]))
  {
    var column := WeightedQuantities(taken, CoverWeights(bs, scope));
    forall k | 0 <= k < |taken|
      ensures 0.0 <= column[k] && (column[k] > 0.0 <==> Covers(scope, bs[order[k]]))
    {
      WorthOfUnit(taken[k].quantity);
    }
    SumNonNegative(column);
    SumPositive(column);
  }

  /** Whether a consumption takes anything of a scope can be told from the batches beforehand. */
  lemma {:induction false} DrawsOnExactly(bs: seq<Batch>, query: Query, quantity: real, scope: Scope)
    requires Consume(bs, query, quantity).Ok?
    ensures var after := Consume(bs, query, quantity).value.batches;
      && Stock(after, scope) <= Stock(bs, scope)
      && (Stock(after, scope) < Stock(bs, scope) <==> DrawsOn(bs, query, quantity, scope))
  {
    var order, c := FindFifoBatches(bs, query), Consume(bs, query, quantity).value;
    Candidates(bs, query);
    AllocateIsGreedy(bs, order, quantity);
    ConsumeDeducts(bs, query, quantity);
    StockCellsDrop(bs, c.batches, c.allocations, scope);
    WeightedColumnDrops(StockColumn(bs, scope), StockColumn(c.batches, scope), c.allocations, CoverWeights(bs, scope));
    CoveredQuantities(bs, order, c.allocations, scope);
    AllocatedIsReached(bs, order, quantity, scope);
  }

  lemma AllocatedIsReached(bs: seq<Batch>, order: seq<nat>, quantity: real, scope: Scope)
    requires InBounds(order, |bs|) && Stocked(bs, order) && |Allocate(bs, order, quantity)| <= |order|
    ensures (exists k :: 0 <= k < |Allocate(bs, order, quantity)| && Covers(scope, bs[order[k]]))
       <==> exists k: nat :: ReachesScope(bs, order, quantity, scope, k)
  {
    forall k: nat | k < |order|
      ensures k < |Allocate(bs, order, quantity)| <==> Sum(Held(bs, order[..k])) < quantity
    {
      AllocateReaches(bs, order, quantity, k);
    }
    if k: nat :| k < |Allocate(bs, order, quantity)| && Covers(scope, bs[order[k]]) {
      assert ReachesScope(bs, order, quantity, scope, k);
    }
  }

  function EligibleWeights(bs: seq<Batch>, query: Query): (r: seq<real>)
    ensures |r| == |bs|
  {
    seq(|bs|, i requires 0 <= i < |bs| => if Eligible(bs[i], query) then 1.0 else 0.0)
  }

  lemma EligibleCellDrops(b: Batch, query: Query, taken: real)
    requires if Eligible(b, query) then taken <= b.remaining else taken == 0.0
    ensures var after := b.(remaining := b.remaining - taken);
      (if Eligible(after, query) then after.remaining else 0.0)
      == (if Eligible(b, query) then b.remaining else 0.0) - Worth(taken, if Eligible(b, query) then 1.0 else 0.0)
  {
    WorthOfUnit(taken);
  }

  lemma EligibleStockDrops(bs: seq<Batch>, query: Query, quantity: real)
    requires Consume(bs, query, quantity).Ok?
    ensures EligibleStock(Consume(bs, query, quantity).value.batches, query) == EligibleStock(bs, query) - quantity
  {
    ConsumeDeducts(bs, query, quantity);
    var c := Consume(bs, query, quantity).value;
    forall i: nat | i < |bs|
      ensures EligibleColumn(c.batches, query)[i]
           == EligibleColumn(bs, query)[i] - Worth(AllocatedTo(c.allocations, i), EligibleWeights(bs, query)[i])
    {
      EligibleCellDrops(bs[i], query, AllocatedTo(c.allocations, i));
    }
    UniformWeights(c.allocations, EligibleWeights(bs, query), 1.0);
    WeightedColumnDrops(EligibleColumn(bs, query), EligibleColumn(c.batches, query), c.allocations,
                        EligibleWeights(bs, query));
  }

  // ---------------------------------------------------------------- additivity

  /** The listed batches that still hold stock. */
  function StillStocked(bs: seq<Batch>, order: seq<nat>): (r: seq<nat>)
    requires InBounds(order, |bs|)
    ensures InBounds(r, |bs|)
  {
    if order == [] then []
    else if bs[order[0]].remaining > 0.0 then [order[0]] + StillStocked(bs, order[1..])
    else StillStocked(bs, order[1..])
  }

  lemma {:induction false} StillStockedMembers(bs: seq<Batch>, order: seq<nat>, j: nat)
    requires InBounds(order, |bs|) && j < |bs|
    ensures j in StillStocked(bs, order) <==> j in order && bs[j].remaining > 0.0
  {
    if order != [] {
      StillStockedMembers(bs, order[1..], j);
      assert j in order <==> j == order[0] || j in order[1..];
    }
  }

  lemma {:induction false} StillStockedIsOrdered(bs: seq<Batch>, order: seq<nat>)
    requires InBounds(order, |bs|) && Ordered(bs, order)
    ensures Ordered(bs, StillStocked(bs, order))
  {
    if order != [] {
      StillStockedIsOrdered(bs, order[1..]);
      var rest := StillStocked(bs, order[1..]);
      forall k | 0 <= k < |rest| ensures Before(bs, order[0], rest[k]) {
        assert rest[k] in rest;
        StillStockedMembers(bs, order[1..], rest[k]);
        var m :| 0 <= m < |order[1..]| && order[1..][m] == rest[k];
        assert Before(bs, order[0], order[m + 1]);
      }
    }
  }

  lemma {:induction false} SharesAreBounded(bs: seq<Batch>, order: seq<nat>, quantity: real, i: nat)
    requires InBounds(order, |bs|) && Stocked(bs, order)
    ensures 0.0 <= Share(bs, order, quantity, i)
    ensures i in order ==> i < |bs| && Share(bs, order, quantity, i) <= bs[i].remaining
    ensures i !in order ==> Share(bs, order, quantity, i) == 0.0
    decreases |order|
  {
    if order != [] {
      assert i in order <==> i == order[0] || i in order[1..];
      SharesAreBounded(bs, order[1..], quantity - bs[order[0]].remaining, i);
    }
  }

  /** Asking again after a consumption gives the old list without its drained batches. */
  lemma RequeryDropsDrained(bs: seq<Batch>, query: Query, quantity: real)
    ensures var order := FindFifoBatches(bs, query);
      FindFifoBatches(After(bs, order, quantity), query) == StillStocked(After(bs, order, quantity), order)
  {
    var order := FindFifoBatches(bs, query);
    var after := After(bs, order, quantity);
    Candidates(bs, query);
    CandidatesAreOrdered(bs, query);
    CandidatesAreOrdered(after, query);
    CandidateMembers(bs, query);
    CandidateMembers(after, query);
    forall k, l | 0 <= k < l < |order| ensures Before(after, order[k], order[l]) {
      assert Before(bs, order[k], order[l]);
    }
    StillStockedIsOrdered(after, order);
    forall j: nat | j < |bs|
      ensures j in FindFifoBatches(after, query) <==> j in StillStocked(after, order)
    {
      SharesAreBounded(bs, order, quantity, j);
      StillStockedMembers(after, order, j);
    }
    OrderedListingIsUnique(after, FindFifoBatches(after, query), StillStocked(after, order));
  }

  lemma {:induction false} StillStockedIsStocked(bs: seq<Batch>, order: seq<nat>)
    requires InBounds(order, |bs|)
    ensures Stocked(bs, StillStocked(bs, order))
  {
    if order != [] {
      StillStockedIsStocked(bs, order[1..]);
    }
  }

  /** Leaving out drained batches moves no share. */
  lemma {:induction false} DrainedBatchesTakeNothing(bs: seq<Batch>, order: seq<nat>, quantity: real, i: nat)
    requires InBounds(order, |bs|) && Distinct(order)
    requires forall k :: 0 <= k < |order| ==> 0.0 <= bs[order[k]].remaining
    ensures Share(bs, StillStocked(bs, order), quantity, i) == Share(bs, order, quantity, i)
    decreases |order|
  {
    if order != [] {
      var head, rest := order[0], order[1..];
      DrainedBatchesTakeNothing(bs, rest, quantity - bs[head].remaining, i);
      if bs[head].remaining > 0.0 {
        assert StillStocked(bs, order)[1..] == StillStocked(bs, rest);
      } else if i == head {
        StillStockedIsStocked(bs, rest);
        StillStockedMembers(bs, rest, i);
        NothingFallsAfterTheEnd(bs, StillStocked(bs, rest), quantity, i);
      }
    }
  }

  lemma ClampTwice(h: real, x: real, b: real)
    requires h >= 0.0 && b >= 0.0
    ensures Clamp(x, h) + Clamp(b + Min(x, 0.0), h - Clamp(x, h)) == Clamp(x + b, h)
    ensures b + Min(x, 0.0) - (h - Clamp(x, h)) == b + Min(x - h, 0.0)
  {}

  /** Two passes over a list split every share. When the first pass reaches the list with x to place
      (spent already if x <= 0), the second reaches it with b, less what x lacks. */
  lemma {:induction false} SharesSplit(bs: seq<Batch>, after: seq<Batch>, order: seq<nat>, x: real, b: real, i: nat)
    requires InBounds(order, |bs|) && |after| == |bs| && Distinct(order) && Stocked(bs, order) && b > 0.0
    requires forall j: nat :: j in order ==> j < |bs| && after[j].remaining == bs[j].remaining - Share(bs, order, x, j)
    ensures Share(bs, order, x, i) + Share(after, order, b + Min(x, 0.0), i) == Share(bs, order, x + b, i)
    decreases |order|
  {
    if order != [] {
      var head, rest := order[0], order[1..];
      var h := bs[head].remaining;
      assert head in order;
      ClampTwice(h, x, b);
      if i != head {
        forall j: nat | j in rest
          ensures j < |bs| && after[j].remaining == bs[j].remaining - Share(bs, rest, x - h, j)
        {
          assert j in order && j != head;
        }
        SharesSplit(bs, after, rest, x - h, b, i);
        assert x - h + b == x + b - h;
      }
    }
  }

  /** Consuming a and then b, the table queried anew in between, is consuming a + b at once:
      the same table, the same total per batch, the same total cost. */
  lemma ConsumeIsAdditive(bs: seq<Batch>, query: Query, a: real, b: real)
    requires a > 0.0 && b > 0.0 && a + b <= EligibleStock(bs, query)
    ensures Consume(bs, query, a).Ok? && Consume(bs, query, a + b).Ok?
    ensures Consume(Consume(bs, query, a).value.batches, query, b).Ok?
    ensures var first := Consume(bs, query, a).value;
      var second := Consume(first.batches, query, b).value;
      var both := Consume(bs, query, a + b).value;
      && second.batches == both.batches
      && (forall i: nat :: i < |bs| ==>
            AllocatedTo(first.allocations, i) + AllocatedTo(second.allocations, i)
            == AllocatedTo(both.allocations, i))
      && Sum(Costs(first.allocations)) + Sum(Costs(second.allocations)) == Sum(Costs(both.allocations))
  {
    SecondConsumptionFits(bs, query, a, b);
    var middle := Consume(bs, query, a).value.batches;
    SecondTableIsBoth(bs, query, a, b);
    forall i: nat | i < |bs|
      ensures AllocatedTo(Consume(bs, query, a).value.allocations, i)
            + AllocatedTo(Consume(middle, query, b).value.allocations, i)
           == AllocatedTo(Consume(bs, query, a + b).value.allocations, i)
    {
      AllocatedIsTheDrop(bs, query, a, i);
      AllocatedIsTheDrop(middle, query, b, i);
      AllocatedIsTheDrop(bs, query, a + b, i);
    }
    ConsumeCostsTheDrop(bs, query, a);
    ConsumeCostsTheDrop(middle, query, b);
    ConsumeCostsTheDrop(bs, query, a + b);
  }

  lemma AllocatedIsTheDrop(bs: seq<Batch>, query: Query, quantity: real, i: nat)
    requires Consume(bs, query, quantity).Ok? && i < |bs|
    ensures var c := Consume(bs, query, quantity).value;
      |c.batches| == |bs| && AllocatedTo(c.allocations, i) == bs[i].remaining - c.batches[i].remaining
  {
    ConsumeDeducts(bs, query, quantity);
  }

  lemma SecondConsumptionFits(bs: seq<Batch>, query: Query, a: real, b: real)
    requires a > 0.0 && b > 0.0 && a + b <= EligibleStock(bs, query)
    ensures Consume(bs, query, a).Ok? && Consume(bs, query, a + b).Ok?
    ensures Consume(Consume(bs, query, a).value.batches, query, b).Ok?
  {
    ConsumeIsExactAndGreedy(bs, query, a);
    ConsumeIsExactAndGreedy(bs, query, a + b);
    EligibleStockDrops(bs, query, a);
    ConsumeIsExactAndGreedy(Consume(bs, query, a).value.batches, query, b);
  }

  lemma SecondTableIsBoth(bs: seq<Batch>, query: Query, a: real, b: real)
    requires a > 0.0 && b > 0.0
    requires Consume(bs, query, a).Ok? && Consume(bs, query, a + b).Ok?
    requires Consume(Consume(bs, query, a).value.batches, query, b).Ok?
    ensures Consume(Consume(bs, query, a).value.batches, query, b).value.batches
         == Consume(bs, query, a + b).value.batches
  {
    var order := FindFifoBatches(bs, query);
    var middle := After(bs, order, a);
    var again := FindFifoBatches(middle, query);
    forall i: nat | i < |bs|
      ensures Share(bs, order, a, i) + Share(middle, again, b, i) == Share(bs, order, a + b, i)
    {
      ShareOfTheSecond(bs, query, a, b, i);
    }
    assert After(middle, again, b) == After(bs, order, a + b);
  }

  lemma RemainingAfter(bs: seq<Batch>, order: seq<nat>, a: real)
    requires InBounds(order, |bs|) && Distinct(order) && Stocked(bs, order) && a > 0.0
    ensures var middle := After(bs, order, a);
      forall j: nat :: j in order ==>
        j < |bs| && middle[j].remaining == bs[j].remaining - Share(bs, order, a, j) >= 0.0
  {
    var middle := After(bs, order, a);
    forall j: nat | j in order
      ensures j < |bs| && middle[j].remaining == bs[j].remaining - Share(bs, order, a, j) >= 0.0
    {
      SharesAreBounded(bs, order, a, j);
    }
  }

  /** A second pass over the old list, without its drained batches, completes the first. */
  lemma SecondPassCompletes(bs: seq<Batch>, order: seq<nat>, a: real, b: real, i: nat)
    requires InBounds(order, |bs|) && Distinct(order) && Stocked(bs, order) && a > 0.0 && b > 0.0
    ensures var middle := After(bs, order, a);
      Share(bs, order, a, i) + Share(middle, StillStocked(middle, order), b, i) == Share(bs, order, a + b, i)
  {
    var middle := After(bs, order, a);
    RemainingAfter(bs, order, a);
    SharesSplit(bs, middle, order, a, b, i);
    forall k | 0 <= k < |order| ensures 0.0 <= middle[order[k]].remaining {
      assert order[k] in order;
    }
    DrainedBatchesTakeNothing(middle, order, b, i);
  }

  lemma ShareOfTheSecond(bs: seq<Batch>, query: Query, a: real, b: real, i: nat)
    requires a > 0.0 && b > 0.0 && i < |bs|
    ensures var order := FindFifoBatches(bs, query);
      var middle := After(bs, order, a);
      Share(bs, order, a, i) + Share(middle, FindFifoBatches(middle, query), b, i) == Share(bs, order, a + b, i)
  {
    Candidates(bs, query);
    RequeryDropsDrained(bs, query, a);
    SecondPassCompletes(bs, FindFifoBatches(bs, query), a, b, i);
  }
}
