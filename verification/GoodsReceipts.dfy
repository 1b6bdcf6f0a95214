/** Receiving goods against purchase orders (goods-receipts/goods-receipts.service.ts,
    goods-receipts/goods-receipts.repository.ts, purchase-orders/purchase-orders.service.ts). */
module GoodsReceipts {
  import opened Common
  import opened Identity
  import Books

  datatype OrderStatus = DRAFT | APPROVED | PARTIALLY_RECEIVED | RECEIVED | CANCELLED

  /** A row of purchase_order_items. */
  datatype OrderLine = OrderLine(productId: Id, stockItemId: Option<Id>, unitId: Option<Id>, quantity: real, received: real)

  /** An item of a receipt request. */
  datatype Goods = Goods(line: Line, unitCost: real, hasBatchCode: bool, hasExpiry: bool)

  /** A row of goods_receipt_items. */
  datatype Item = Item(productId: Id, stockItemId: Option<Id>, unitId: Option<Id>, quantity: real, unitCost: real)

  /** A purchase order with its goods receipts, oldest first. */
  datatype PurchaseOrder = PurchaseOrder(status: OrderStatus, lines: seq<OrderLine>, receipts: seq<seq<Item>>)

  /** requestKeys are the keys of all goods receipts. */
  datatype Purchasing = Purchasing(orders: map<Id, PurchaseOrder>, requestKeys: set<string>)

  datatype ReceiptError =
    | OrderNotFound
    | OrderExists
    | QuantityRefused
    | WrongStatus
    | DuplicateIdentities
    | Unresolved(why: IdentityError)
    | ConfigurationRefused
    | NotOnOrder
    | ExceedsOpenQuantity

  // ---------------------------------------------------------------- identities

  const NoStockItem := "legacy-product"

  const NoUnit := "base-unit"

  function Or(id: Option<Id>, placeholder: string): string {
    if id.Some? then id.value else placeholder
  }

  function Joined(x: string, y: string, z: string): string {
    x + ":" + y + ":" + z
  }

  /** purchaseItemKey. */
  function ItemKey(productId: Id, stockItemId: Option<Id>, unitId: Option<Id>): string {
    Joined(productId, Or(stockItemId, NoStockItem), Or(unitId, NoUnit))
  }

  /** UUIDs carry no colon and are not one of the two placeholders. */
  predicate PlainIdentity(productId: Id, stockItemId: Option<Id>, unitId: Option<Id>) {
    Books.Plain(productId) && PlainUnless(stockItemId, NoStockItem) && PlainUnless(unitId, NoUnit)
  }

  predicate PlainUnless(id: Option<Id>, placeholder: string) {
    id.Some? ==> Books.Plain(id.value) && id.value != placeholder
  }

  lemma JoinedTellsItsParts(x: string, y: string, z: string, u: string, v: string, w: string)
    requires Books.Plain(x) && Books.Plain(y) && Books.Plain(u) && Books.Plain(v)
    requires Joined(x, y, z) == Joined(u, v, w)
    ensures x == u && y == v && z == w
  {
    assert Joined(x, y, z) == x + ":" + (y + ":" + z);
    assert Joined(u, v, w) == u + ":" + (v + ":" + w);
    Books.SplitAtColon(x, y + ":" + z, u, v + ":" + w);
    Books.SplitAtColon(y, z, v, w);
  }

  lemma OrIsPlain(id: Option<Id>)
    requires PlainUnless(id, NoStockItem)
    ensures Books.Plain(Or(id, NoStockItem))
  {
    assert Books.Plain(NoStockItem);
  }

  lemma OrTells(id: Option<Id>, other: Option<Id>, placeholder: string)
    requires PlainUnless(id, placeholder) && PlainUnless(other, placeholder)
    requires Or(id, placeholder) == Or(other, placeholder)
    ensures id == other
  {}

  /** The key tells product, stock item and unit, and whether the latter two are there. */
  lemma {:induction false} ItemKeyIsIdentity(p: Id, s: Option<Id>, u: Option<Id>, q: Id, t: Option<Id>, v: Option<Id>)
    requires PlainIdentity(p, s, u) && PlainIdentity(q, t, v)
    requires ItemKey(p, s, u) == ItemKey(q, t, v)
    ensures p == q && s == t && u == v
  {
    OrIsPlain(s);
    OrIsPlain(t);
    JoinedTellsItsParts(p, Or(s, NoStockItem), Or(u, NoUnit), q, Or(t, NoStockItem), Or(v, NoUnit));
    OrTells(s, t, NoStockItem);
    OrTells(u, v, NoUnit);
  }

  function KeyOfLine(l: OrderLine): string {
    ItemKey(l.productId, l.stockItemId, l.unitId)
  }

  function KeyOfItem(item: Item): string {
    ItemKey(item.productId, item.stockItemId, item.unitId)
  }

  function Keys(lines: seq<OrderLine>): (r: seq<string>)
    ensures |r| == |lines|
  {
    seq(|lines|, i requires 0 <= i < |lines| => KeyOfLine(lines[i]))
  }

  function FindKey(keys: seq<string>, key: string): (i: nat)
    ensures i <= |keys| && (i < |keys| ==> keys[i] == key)
    ensures forall j :: 0 <= j < i ==> keys[j] != key
  {
    if keys == [] then 0 else if keys[0] == key then 0 else 1 + FindKey(keys[1..], key)
  }

  function FindLine(lines: seq<OrderLine>, key: string): (i: nat)
    ensures i <= |lines| && (i < |lines| ==> KeyOfLine(lines[i]) == key)
  {
    FindKey(Keys(lines), key)
  }

  predicate DistinctKeys(keys: seq<string>) {
    forall i :: 0 <= i < |keys| ==> FindKey(keys, keys[i]) == i
  }

  predicate DistinctLines(lines: seq<OrderLine>) {
    DistinctKeys(Keys(lines))
  }

  // ---------------------------------------------------------------- receiving

  /** resolveForWrite and assertReceiptConfiguration on each item; a receipt names no variant. */
  function ResolveItems(catalog: Catalog, goods: seq<Goods>): Result<seq<Item>, ReceiptError> {
    if goods == [] then Ok([])
    else
      match Resolve(catalog, goods[0].line.(variantId := None))
      case Err(e) => Err(Unresolved(e))
      case Ok(r) =>
        if !ReceiptAccepted(catalog, r, goods[0].hasBatchCode, goods[0].hasExpiry) then Err(ConfigurationRefused)
        else
          match ResolveItems(catalog, goods[1..])
          case Err(e) => Err(e)
          case Ok(rest) =>
            Ok([Item(goods[0].line.productId, r.stockItemId, r.unitId, goods[0].line.quantity, goods[0].unitCost)] + rest)
  }

  /** Every item is held against the open quantity of its line as it was before this receipt. */
  function CheckItems(lines: seq<OrderLine>, items: seq<Item>): Result<(), ReceiptError> {
    if items == [] then Ok(())
    else
      var i := FindLine(lines, KeyOfItem(items[0]));
      if i == |lines| then Err(NotOnOrder)
      else if items[0].quantity > lines[i].quantity - lines[i].received then Err(ExceedsOpenQuantity)
      else CheckItems(lines, items[1..])
  }

  function QuantityColumn(items: seq<Item>, key: string): (r: seq<real>)
    ensures |r| == |items|
  {
    seq(|items|, k requires 0 <= k < |items| => if KeyOfItem(items[k]) == key then items[k].quantity else 0.0)
  }

  /** What a receipt brings for an identity. */
  function Brought(items: seq<Item>, key: string): real {
    Sum(QuantityColumn(items, key))
  }

  /** The lines once their identity's quantities have been added. */
  function Filled(lines: seq<OrderLine>, items: seq<Item>): (r: seq<OrderLine>)
    ensures |r| == |lines|
  {
    seq(|lines|, i requires 0 <= i < |lines| =>
      lines[i].(received := lines[i].received + Brought(items, KeyOfLine(lines[i]))))
  }

  predicate AllFilled(lines: seq<OrderLine>) {
    forall i :: 0 <= i < |lines| ==> lines[i].received >= lines[i].quantity
  }

  function ReceivedOrder(order: PurchaseOrder, items: seq<Item>): PurchaseOrder {
    var lines := Filled(order.lines, items);
    PurchaseOrder(if AllFilled(lines) then RECEIVED else PARTIALLY_RECEIVED, lines, order.receipts + [items])
  }

  /** create, in the order of its checks. */
  function ReceiveTx(s: Purchasing, requestKey: string, orderId: Id, catalog: Catalog, goods: seq<Goods>)
    : Result<Purchasing, ReceiptError>
  {
    if requestKey in s.requestKeys then Ok(s)
    else if orderId !in s.orders then Err(OrderNotFound)
    else
      var order := s.orders[orderId];
      if order.status != APPROVED && order.status != PARTIALLY_RECEIVED then Err(WrongStatus)
      else if !DistinctLines(order.lines) then Err(DuplicateIdentities)
      else
        match ResolveItems(catalog, goods)
        case Err(e) => Err(e)
        case Ok(items) =>
          match CheckItems(order.lines, items)
          case Err(e) => Err(e)
          case Ok(_) =>
            Ok(Purchasing(s.orders[orderId := ReceivedOrder(order, items)], s.requestKeys + {requestKey}))
  }

  predicate FreshLines(lines: seq<OrderLine>) {
    forall i :: 0 <= i < |lines| ==> lines[i].quantity > 0.0 && lines[i].received == 0.0
  }

  datatype Command =
    | PlaceOrder(orderId: Id, lines: seq<OrderLine>)
    | Approve(orderId: Id)
    | CancelOrder(orderId: Id)
    | Receive(requestKey: string, orderId: Id, catalog: Catalog, goods: seq<Goods>)

  function Execute(s: Purchasing, c: Command): Result<Purchasing, ReceiptError> {
    match c
    case PlaceOrder(orderId, lines) =>
      if orderId in s.orders then Err(OrderExists)
      else if !FreshLines(lines) then Err(QuantityRefused)
      else Ok(s.(orders := s.orders[orderId := PurchaseOrder(DRAFT, lines, [])]))
    case Approve(orderId) =>
      if orderId !in s.orders then Err(OrderNotFound)
      else if s.orders[orderId].status != DRAFT then Err(WrongStatus)
      else Ok(s.(orders := s.orders[orderId := s.orders[orderId].(status := APPROVED)]))
    case CancelOrder(orderId) =>
      if orderId !in s.orders then Err(OrderNotFound)
      else if s.orders[orderId].status == RECEIVED then Err(WrongStatus)
      else Ok(s.(orders := s.orders[orderId := s.orders[orderId].(status := CANCELLED)]))
    case Receive(requestKey, orderId, catalog, goods) => ReceiveTx(s, requestKey, orderId, catalog, goods)
  }

  function Step(s: Purchasing, c: Command): Purchasing {
    match Execute(s, c)
    case Ok(u) => u
    case Err(_) => s
  }

  function Run(commands: seq<Command>): Purchasing {
    if commands == [] then Purchasing(map[], {})
    else Step(Run(commands[..|commands| - 1]), commands[|commands| - 1])
  }

  // ---------------------------------------------------------------- the invariant

  /** What all receipts of an order have brought for an identity. */
  function BroughtByAll(receipts: seq<seq<Item>>, key: string): real {
    if receipts == [] then 0.0
    else BroughtByAll(receipts[..|receipts| - 1], key) + Brought(receipts[|receipts| - 1], key)
  }

  ghost predicate Conserved(o: PurchaseOrder) {
    forall i :: 0 <= i < |o.lines| ==> o.lines[i].received == BroughtByAll(o.receipts, KeyOfLine(o.lines[i]))
  }

  ghost predicate Classified(o: PurchaseOrder) {
    && (o.receipts != [] && o.status != CANCELLED ==>
          o.status == if AllFilled(o.lines) then RECEIVED else PARTIALLY_RECEIVED)
    && (o.receipts == [] ==> o.status != RECEIVED && o.status != PARTIALLY_RECEIVED)
  }

  ghost predicate Sound(s: Purchasing) {
    forall o :: o in s.orders ==> Conserved(s.orders[o]) && Classified(s.orders[o])
  }

  ghost predicate NotOverfilled(o: PurchaseOrder) {
    forall i :: 0 <= i < |o.lines| ==> o.lines[i].received <= o.lines[i].quantity
  }

  lemma ReceiptKeepsConserved(o: PurchaseOrder, items: seq<Item>)
    requires Conserved(o)
    ensures Conserved(ReceivedOrder(o, items))
  {}

  lemma EveryCommandConserves(s: Purchasing, c: Command)
    requires Sound(s)
    ensures Sound(Step(s, c))
  {
    if c.Receive? && Execute(s, c).Ok? && c.requestKey !in s.requestKeys {
      ReceiptKeepsConserved(s.orders[c.orderId], ResolveItems(c.catalog, c.goods).value);
    }
  }

  lemma {:induction false} RunsConserve(commands: seq<Command>)
    ensures Sound(Run(commands))
  {
    if commands != [] {
      RunsConserve(commands[..|commands| - 1]);
      EveryCommandConserves(Run(commands[..|commands| - 1]), commands[|commands| - 1]);
    }
  }

  /** In every reachable state a line's received quantity is what all receipts of its order brought for
      its identity, and an order that has received goods and is not cancelled is RECEIVED exactly when
      every line is filled, and PARTIALLY_RECEIVED otherwise. */
  lemma {:induction false} ReceivingConservesAndClassifies(commands: seq<Command>, orderId: Id, i: nat)
    requires orderId in Run(commands).orders && i < |Run(commands).orders[orderId].lines|
    ensures var o := Run(commands).orders[orderId];
      && o.lines[i].received == BroughtByAll(o.receipts, KeyOfLine(o.lines[i]))
      && (o.receipts != [] && o.status != CANCELLED ==>
            && (o.status == RECEIVED <==> AllFilled(o.lines))
            && (o.status == PARTIALLY_RECEIVED <==> !AllFilled(o.lines)))
  {
    RunsConserve(commands);
  }

  // ---------------------------------------------------------------- how much may be received

  ghost predicate DistinctItems(items: seq<Item>) {
    forall j, k :: 0 <= j < k < |items| ==> KeyOfItem(items[j]) != KeyOfItem(items[k])
  }

  /** An identity that a receipt names once brings the one item's quantity. */
  lemma {:induction false} BroughtOnce(items: seq<Item>, key: string, k: nat)
    requires k <= |items| && (k < |items| ==> KeyOfItem(items[k]) == key)
    requires forall j :: 0 <= j < |items| && j != k ==> KeyOfItem(items[j]) != key
    ensures Brought(items, key) == if k < |items| then items[k].quantity else 0.0
  {
    if items != [] {
      assert QuantityColumn(items, key)[1..] == QuantityColumn(items[1..], key);
      BroughtOnce(items[1..], key, if k == 0 then |items| - 1 else k - 1);
    }
  }

  lemma {:induction false} CheckedItemFits(lines: seq<OrderLine>, items: seq<Item>, k: nat)
    requires CheckItems(lines, items).Ok? && k < |items|
    ensures var i := FindLine(lines, KeyOfItem(items[k]));
      i < |lines| && items[k].quantity <= lines[i].quantity - lines[i].received
  {
    if k > 0 {
      CheckedItemFits(lines, items[1..], k - 1);
    }
  }

  lemma DistinctItemsFit(o: PurchaseOrder, items: seq<Item>)
    requires NotOverfilled(o) && DistinctLines(o.lines) && DistinctItems(items) && CheckItems(o.lines, items).Ok?
    ensures NotOverfilled(ReceivedOrder(o, items))
  {
    forall i | 0 <= i < |o.lines|
      ensures o.lines[i].received + Brought(items, KeyOfLine(o.lines[i])) <= o.lines[i].quantity
    {
      var key := KeyOfLine(o.lines[i]);
      assert Keys(o.lines)[i] == key;
      if k: nat :| k < |items| && KeyOfItem(items[k]) == key {
        CheckedItemFits(o.lines, items, k);
        BroughtOnce(items, key, k);
      } else {
        BroughtOnce(items, key, |items|);
      }
    }
  }

  /** Every receipt of the run names each identity once. */
  ghost predicate OnePerIdentity(commands: seq<Command>) {
    forall k :: 0 <= k < |commands| ==> NamesOnce(commands[k])
  }

  ghost predicate NamesOnce(c: Command) {
    c.Receive? && ResolveItems(c.catalog, c.goods).Ok? ==> DistinctItems(ResolveItems(c.catalog, c.goods).value)
  }

  lemma {:induction false} NeverOverReceived(commands: seq<Command>, orderId: Id)
    requires OnePerIdentity(commands) && orderId in Run(commands).orders
    ensures NotOverfilled(Run(commands).orders[orderId])
  {
    var last := |commands| - 1;
    var s, c := Run(commands[..last]), commands[last];
    assert NamesOnce(c);
    if orderId in s.orders {
      NeverOverReceived(commands[..last], orderId);
      if c.Receive? && c.orderId == orderId && Execute(s, c).Ok? && c.requestKey !in s.requestKeys {
        DistinctItemsFit(s.orders[orderId], ResolveItems(c.catalog, c.goods).value);
      }
    }
  }

  /** Two items of a receipt name the same identity. */
  ghost predicate Repeated(items: seq<Item>, key: string) {
    exists j, k :: 0 <= j < k < |items| && KeyOfItem(items[j]) == key && KeyOfItem(items[k]) == key
  }

  lemma NotRepeated(items: seq<Item>, key: string) returns (k: nat)
    requires !Repeated(items, key)
    ensures k <= |items| && (k < |items| ==> KeyOfItem(items[k]) == key)
    ensures forall j :: 0 <= j < |items| && j != k ==> KeyOfItem(items[j]) != key
  {
    if j: nat :| j < |items| && KeyOfItem(items[j]) == key {
      k := j;
    } else {
      k := |items|;
    }
  }

  /** The check holds each item against the open quantity by itself, so an accepted receipt can overfill a
      line, but only one whose identity it names on more than one item. */
  lemma OverfilledOnlyByRepeats(o: PurchaseOrder, items: seq<Item>, i: nat)
    requires i < |o.lines| && DistinctLines(o.lines) && NotOverfilled(o) && CheckItems(o.lines, items).Ok?
    requires ReceivedOrder(o, items).lines[i].received > o.lines[i].quantity
    ensures Repeated(items, KeyOfLine(o.lines[i]))
  {
    var key := KeyOfLine(o.lines[i]);
    assert Keys(o.lines)[i] == key;
    if !Repeated(items, key) {
      var k := NotRepeated(items, key);
      BroughtOnce(items, key, k);
      if k < |items| {
        CheckedItemFits(o.lines, items, k);
      }
    }
  }

  /** Every item is on the order, and the items of each identity together fit its open quantity. */
  ghost predicate FitTogether(lines: seq<OrderLine>, items: seq<Item>) {
    && (forall k :: 0 <= k < |items| ==> FindLine(lines, KeyOfItem(items[k])) < |lines|)
    && (forall i :: 0 <= i < |lines| ==> Brought(items, KeyOfLine(lines[i])) <= lines[i].quantity - lines[i].received)
  }

  lemma {:induction false} SingleChecksPass(lines: seq<OrderLine>, items: seq<Item>)
    requires forall k :: 0 <= k < |items| ==>
      var i := FindLine(lines, KeyOfItem(items[k]));
      i < |lines| && items[k].quantity <= lines[i].quantity - lines[i].received
    ensures CheckItems(lines, items).Ok?
  {
    if items != [] {
      SingleChecksPass(lines, items[1..]);
    }
  }

  lemma ItemIsWithinBrought(items: seq<Item>, k: nat)
    requires k < |items| && forall j :: 0 <= j < |items| ==> 0.0 <= items[j].quantity
    ensures items[k].quantity <= Brought(items, KeyOfItem(items[k]))
  {
    SumNonNegative(QuantityColumn(items, KeyOfItem(items[k])));
    assert QuantityColumn(items, KeyOfItem(items[k]))[k] == items[k].quantity;
  }

  /** A receipt is accepted and keeps every line within its order if and only if its items fit together. */
  lemma {:induction false} FittingReceiptsExactly(o: PurchaseOrder, items: seq<Item>)
    requires DistinctLines(o.lines) && forall k :: 0 <= k < |items| ==> 0.0 <= items[k].quantity
    ensures CheckItems(o.lines, items).Ok? && NotOverfilled(ReceivedOrder(o, items)) <==> FitTogether(o.lines, items)
  {
    if CheckItems(o.lines, items).Ok? && NotOverfilled(ReceivedOrder(o, items)) {
      forall k | 0 <= k < |items| ensures FindLine(o.lines, KeyOfItem(items[k])) < |o.lines| {
        CheckedItemFits(o.lines, items, k);
      }
      forall i | 0 <= i < |o.lines|
        ensures Brought(items, KeyOfLine(o.lines[i])) <= o.lines[i].quantity - o.lines[i].received
      {
        assert ReceivedOrder(o, items).lines[i].received <= o.lines[i].quantity;
      }
    }
    if FitTogether(o.lines, items) {
      forall k | 0 <= k < |items|
        ensures var i := FindLine(o.lines, KeyOfItem(items[k]));
          i < |o.lines| && items[k].quantity <= o.lines[i].quantity - o.lines[i].received
      {
        ItemIsWithinBrought(items, k);
      }
      SingleChecksPass(o.lines, items);
    }
  }

  const OneProduct := Catalog(map["p" := Product(true, {})], map[], [], map[])

  const Six := Goods(Line("p", None, None, None, 6.0), 1.0, false, false)

  const Overshooting: seq<Command> := [
    PlaceOrder("o", [OrderLine("p", None, None, 10.0, 0.0)]),
    Approve("o"),
    Receive("k", "o", OneProduct, [Six, Six])]

  lemma OneMoreResolved(catalog: Catalog, g: Goods, rest: seq<Goods>)
    requires Resolve(catalog, g.line.(variantId := None)).Ok? && ResolveItems(catalog, rest).Ok?
    requires ReceiptAccepted(catalog, Resolve(catalog, g.line.(variantId := None)).value, g.hasBatchCode, g.hasExpiry)
    ensures var r := Resolve(catalog, g.line.(variantId := None)).value;
      ResolveItems(catalog, [g] + rest)
      == Ok([Item(g.line.productId, r.stockItemId, r.unitId, g.line.quantity, g.unitCost)]
            + ResolveItems(catalog, rest).value)
  {
    assert ([g] + rest)[1..] == rest;
  }

  lemma SixAndSixResolve()
    ensures var six := Item("p", None, None, 6.0, 1.0); ResolveItems(OneProduct, [Six, Six]) == Ok([six, six])
  {
    var six := Item("p", None, None, 6.0, 1.0);
    assert Resolve(OneProduct, Six.line.(variantId := None)) == Ok(Resolved("p", None, None, 6.0));
    OneMoreResolved(OneProduct, Six, []);
    assert [Six] + [] == [Six] && [six] + [] == [six];
    OneMoreResolved(OneProduct, Six, [Six]);
    assert [Six] + [Six] == [Six, Six] && [six] + [six] == [six, six];
  }

  lemma SixAndSixFill(line: OrderLine)
    requires line == OrderLine("p", None, None, 10.0, 0.0)
    ensures var six := Item("p", None, None, 6.0, 1.0);
      && DistinctLines([line]) && CheckItems([line], [six, six]).Ok?
      && Filled([line], [six, six]) == [line.(received := 12.0)]
  {
    var six := Item("p", None, None, 6.0, 1.0);
    assert Keys([line]) == [KeyOfItem(six)];
    assert [six, six][1..] == [six] && [six][1..] == [];
    assert CheckItems([line], [six]).Ok?;
    assert QuantityColumn([six, six], KeyOfItem(six)) == [6.0] + [6.0];
    SumSnoc([6.0], 6.0);
    SumOfOne(6.0);
  }

  /** Ten ordered, six and six received in one receipt: the receipt is accepted, and twelve are booked. */
  lemma RepeatedIdentityOvershoots()
    ensures var s := Run(Overshooting);
      && "o" in s.orders && "k" in s.requestKeys
      && s.orders["o"].status == RECEIVED
      && s.orders["o"].lines == [OrderLine("p", None, None, 10.0, 12.0)]
  {
    var line := OrderLine("p", None, None, 10.0, 0.0);
    var placed := Purchasing(map["o" := PurchaseOrder(DRAFT, [line], [])], {});
    var approved := Purchasing(map["o" := PurchaseOrder(APPROVED, [line], [])], {});
    assert Overshooting[..2][..1] == Overshooting[..1] && Overshooting[..1][..0] == [];
    assert Run(Overshooting[..1]) == Step(Run(Overshooting[..1][..0]), Overshooting[0]) == placed;
    assert Run(Overshooting[..2]) == Step(Run(Overshooting[..2][..1]), Overshooting[1]) == approved;
    SixAndSixResolve();
    SixAndSixFill(line);
    assert Run(Overshooting) == Step(Run(Overshooting[..2]), Overshooting[2]);
  }

  // ---------------------------------------------------------------- the service

  /** The first n keys are indexed at their place. */
  ghost predicate IndexOf(keys: seq<string>, index: map<string, nat>, n: nat) {
    forall key :: if key in index then FindKey(keys, key) == index[key] < n else FindKey(keys, key) >= n
  }

  lemma IndexOneMore(keys: seq<string>, index: map<string, nat>, i: nat)
    requires i < |keys| && IndexOf(keys, index, i) && keys[i] !in index
    ensures FindKey(keys, keys[i]) == i && IndexOf(keys, index[keys[i] := i], i + 1)
  {}

  class GoodsReceiptsService {
    var orders: map<Id, PurchaseOrder>
    var requestKeys: set<string>

    ghost function State(): Purchasing
      reads this
    {
      Purchasing(orders, requestKeys)
    }

    constructor ()
      ensures State() == Purchasing(map[], {})
    {
      orders, requestKeys := map[], {};
    }

    /** The Map of order lines by identity; two lines of one identity are refused. */
    method IndexLines(keys: seq<string>) returns (r: Result<map<string, nat>, ReceiptError>)
      ensures r.Ok? <==> DistinctKeys(keys)
      ensures r.Ok? ==> IndexOf(keys, r.value, |keys|)
      ensures r.Err? ==> r.error == DuplicateIdentities
    {
      var index: map<string, nat> := map[];
      var i := 0;
      while i < |keys|
        invariant i <= |keys| && IndexOf(keys, index, i)
        invariant forall j :: 0 <= j < i ==> FindKey(keys, keys[j]) == j
      {
        if keys[i] in index {
          return Err(DuplicateIdentities);
        }
        IndexOneMore(keys, index, i);
        index := index[keys[i] := i];
        i := i + 1;
      }
      r := Ok(index);
    }

    /** The check of each item against its line, adding up the receipt's total on the way. */
    method CheckReceipt(lines: seq<OrderLine>, items: seq<Item>, index: map<string, nat>)
      returns (r: Result<real, ReceiptError>)
      requires IndexOf(Keys(lines), index, |lines|)
      ensures r.Ok? <==> CheckItems(lines, items).Ok?
      ensures r.Err? ==> CheckItems(lines, items) == Err(r.error)
      ensures r.Ok? ==> r.value == Sum(WorthColumn(items))
    {
      var total, k := 0.0, 0;
      while k < |items|
        invariant k <= |items| && total == Sum(WorthColumn(items[..k]))
        invariant CheckItems(lines, items) == CheckItems(lines, items[k..])
      {
        assert items[k..][0] == items[k] && items[k..][1..] == items[k + 1..];
        var key := KeyOfItem(items[k]);
        if key !in index {
          return Err(NotOnOrder);
        }
        var line := lines[index[key]];
        if items[k].quantity > line.quantity - line.received {
          return Err(ExceedsOpenQuantity);
        }
        WorthOfOneMore(items, k);
        total := total + Worth(items[k]);
        k := k + 1;
      }
      assert items[..k] == items;
      r := Ok(total);
    }

    /** updateReceivedQuantity, once for each item. */
    method UpdateReceivedQuantities(lines: seq<OrderLine>, items: seq<Item>, index: map<string, nat>)
      returns (filled: seq<OrderLine>)
      requires DistinctLines(lines) && CheckItems(lines, items).Ok?
      requires IndexOf(Keys(lines), index, |lines|)
      ensures filled == Filled(lines, items)
    {
      filled := lines;
      BroughtNothing(lines);
      var k := 0;
      while k < |items|
        invariant k <= |items| && filled == Filled(lines, items[..k])
      {
        CheckedItemFits(lines, items, k);
        var i := index[KeyOfItem(items[k])];
        OneMoreItem(lines, items, k, i);
        filled := filled[i := filled[i].(received := filled[i].received + items[k].quantity)];
        k := k + 1;
      }
      assert items[..k] == items;
    }

    method Create(requestKey: string, orderId: Id, catalog: Catalog, goods: seq<Goods>)
      returns (r: Result<real, ReceiptError>)
      modifies this
      ensures State() == Step(old(State()), Receive(requestKey, orderId, catalog, goods))
      ensures r.Ok? <==> ReceiveTx(old(State()), requestKey, orderId, catalog, goods).Ok?
      ensures r.Ok? && requestKey !in old(requestKeys) ==>
        ResolveItems(catalog, goods).Ok? && r.value == Sum(WorthColumn(ResolveItems(catalog, goods).value))
    {
      if requestKey in requestKeys {
        return Ok(0.0);
      }
      if orderId !in orders {
        return Err(OrderNotFound);
      }
      var order := orders[orderId];
      if order.status != APPROVED && order.status != PARTIALLY_RECEIVED {
        return Err(WrongStatus);
      }
      var index := IndexLines(Keys(order.lines));
      if index.Err? {
        return Err(index.error);
      }
      var items := ResolveItems(catalog, goods);
      if items.Err? {
        return Err(items.error);
      }
      r := CheckReceipt(order.lines, items.value, index.value);
      if r.Err? {
        return;
      }
      var filled := UpdateReceivedQuantities(order.lines, items.value, index.value);
      var status := if AllFilled(filled) then RECEIVED else PARTIALLY_RECEIVED;
      orders := orders[orderId := PurchaseOrder(status, filled, order.receipts + [items.value])];
      requestKeys := requestKeys + {requestKey};
    }
  }

  function Worth(item: Item): real {
    item.quantity * item.unitCost
  }

  function WorthColumn(items: seq<Item>): (r: seq<real>)
    ensures |r| == |items|
  {
    seq(|items|, k requires 0 <= k < |items| => Worth(items[k]))
  }

  lemma WorthOfOneMore(items: seq<Item>, k: nat)
    requires k < |items|
    ensures Sum(WorthColumn(items[..k + 1])) == Sum(WorthColumn(items[..k])) + Worth(items[k])
  {
    assert WorthColumn(items[..k + 1]) == WorthColumn(items[..k]) + [Worth(items[k])];
    SumSnoc(WorthColumn(items[..k]), Worth(items[k]));
  }

  lemma BroughtNothing(lines: seq<OrderLine>)
    ensures Filled(lines, []) == lines
  {}

  lemma BroughtOneMore(items: seq<Item>, k: nat, key: string)
    requires k < |items|
    ensures Brought(items[..k + 1], key)
         == Brought(items[..k], key) + if KeyOfItem(items[k]) == key then items[k].quantity else 0.0
  {
    var more := if KeyOfItem(items[k]) == key then items[k].quantity else 0.0;
    assert QuantityColumn(items[..k + 1], key) == QuantityColumn(items[..k], key) + [more];
    SumSnoc(QuantityColumn(items[..k], key), more);
  }

  lemma OneMoreItem(lines: seq<OrderLine>, items: seq<Item>, k: nat, i: nat)
    requires DistinctLines(lines) && k < |items| && i < |lines| && Keys(lines)[i] == KeyOfItem(items[k])
    ensures var filled := Filled(lines, items[..k]);
      Filled(lines, items[..k + 1]) == filled[i := filled[i].(received := filled[i].received + items[k].quantity)]
  {
    forall j | 0 <= j < |lines|
      ensures Brought(items[..k + 1], KeyOfLine(lines[j]))
           == Brought(items[..k], KeyOfLine(lines[j])) + if j == i then items[k].quantity else 0.0
    {
      BroughtOneMore(items, k, KeyOfLine(lines[j]));
      assert Keys(lines)[j] == KeyOfLine(lines[j]);
    }
  }
}
