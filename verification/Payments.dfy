/** Payments and order status (payments/payments.service.ts, payments/payments.repository.ts,
    orders/orders.service.ts): one function per transaction. */
module Payments {
  import opened Common

  datatype PaymentStatus = PENDING | AWAITING_VERIFICATION | SUCCESS | FAILED

  /** OPEN is the status an order is placed with, PENDING in the database. */
  datatype OrderStatus = OPEN | PAID | COMPLETED | CANCELLED | REFUNDED

  /** refundOf is the position of the payment that this one refunds. */
  datatype Payment = Payment(
    id: Id,
    orderId: Id,
    payMethod: string,
    amount: real,
    status: PaymentStatus,
    reference: Option<string>,
    idempotencyKey: Option<string>,
    refundOf: Option<nat>)

  datatype Order = Order(total: real, status: OrderStatus)

  /** Payments stand in creation order and are never deleted. */
  datatype Shop = Shop(orders: map<Id, Order>, payments: seq<Payment>)

  datatype Request = Request(
    orderId: Id,
    payMethod: string,
    amount: real,
    status: PaymentStatus,
    reference: Option<string>,
    idempotencyKey: Option<string>)

  datatype ShopError =
    | PaymentNotFound
    | OrderNotFound
    | OrderExists
    | ReplayMismatch
    | OrderClosed
    | AlreadyPaid
    | NoTransition
    | NotSuccessful
    | UniqueViolation
    | WrongOrderStatus

  datatype Command =
    | PlaceOrder(orderId: Id, total: real)
    | RecordPayment(request: Request, newId: Id)
    | RefundPayment(paymentId: Id, newId: Id)
    | Cancel(orderId: Id)
    | Complete(orderId: Id)
    | MarkRefunded(orderId: Id)

  // ---------------------------------------------------------------- finding rows

  function FindById(payments: seq<Payment>, id: Id): (i: nat)
    ensures i <= |payments| && (i < |payments| ==> payments[i].id == id)
  {
    if payments == [] then 0 else if payments[0].id == id then 0 else 1 + FindById(payments[1..], id)
  }

  function FindByKey(payments: seq<Payment>, key: string): (i: nat)
    ensures i <= |payments| && (i < |payments| ==> payments[i].idempotencyKey == Some(key))
  {
    if payments == [] then 0
    else if payments[0].idempotencyKey == Some(key) then 0
    else 1 + FindByKey(payments[1..], key)
  }

  function FindByReference(payments: seq<Payment>, reference: string): (i: nat)
    ensures i <= |payments| && (i < |payments| ==> payments[i].reference == Some(reference))
  {
    if payments == [] then 0
    else if payments[0].reference == Some(reference) then 0
    else 1 + FindByReference(payments[1..], reference)
  }

  /** findRefundForPayment. */
  function FindRefund(payments: seq<Payment>, k: nat): (i: nat)
    ensures i <= |payments| && (i < |payments| ==> payments[i].refundOf == Some(k))
    ensures forall j :: 0 <= j < i ==> payments[j].refundOf != Some(k)
  {
    if payments == [] then 0
    else if payments[0].refundOf == Some(k) then 0
    else 1 + FindRefund(payments[1..], k)
  }

  /** A key that is absent or empty is not looked up. */
  predicate Given(key: Option<string>) {
    key.Some? && key.value != ""
  }

  /** findExistingPaymentForReplay: by idempotency key, then by reference. */
  function FindReplay(payments: seq<Payment>, request: Request): (i: nat)
    ensures i <= |payments|
  {
    var byKey := if Given(request.idempotencyKey) then FindByKey(payments, request.idempotencyKey.value) else |payments|;
    if byKey < |payments| then byKey
    else if Given(request.reference) then FindByReference(payments, request.reference.value)
    else |payments|
  }

  predicate Compatible(p: Payment, request: Request) {
    p.orderId == request.orderId && p.payMethod == request.payMethod && p.amount == request.amount
  }

  /** The unique columns of the payments table. */
  predicate Unique(payments: seq<Payment>, row: Payment) {
    && FindById(payments, row.id) == |payments|
    && (row.reference.Some? ==> FindByReference(payments, row.reference.value) == |payments|)
    && (row.idempotencyKey.Some? ==> FindByKey(payments, row.idempotencyKey.value) == |payments|)
    && (row.refundOf.Some? ==> FindRefund(payments, row.refundOf.value) == |payments|)
  }

  function SuccessColumn(payments: seq<Payment>, orderId: Id): (r: seq<real>)
    ensures |r| == |payments|
  {
    seq(|payments|, i requires 0 <= i < |payments| =>
      if payments[i].orderId == orderId && payments[i].status == SUCCESS then payments[i].amount else 0.0)
  }

  /** sumSuccessfulPayments. */
  function SuccessSum(payments: seq<Payment>, orderId: Id): real {
    Sum(SuccessColumn(payments, orderId))
  }

  // ---------------------------------------------------------------- the transactions

  predicate Allowed(current: PaymentStatus, desired: PaymentStatus) {
    if desired == SUCCESS || desired == FAILED then current == PENDING || current == AWAITING_VERIFICATION
    else current == PENDING
  }

  function WithStatus(s: Shop, orderId: Id, status: OrderStatus): Shop
    requires orderId in s.orders
  {
    s.(orders := s.orders[orderId := s.orders[orderId].(status := status)])
  }

  /** finalizePaymentStatus. */
  function FinalizeTx(s: Shop, k: nat, desired: PaymentStatus): Result<Shop, ShopError>
    requires k < |s.payments| && s.payments[k].orderId in s.orders
  {
    var p := s.payments[k];
    if p.status == desired then Ok(s)
    else if !Allowed(p.status, desired) then Err(NoTransition)
    else
      var u := s.(payments := s.payments[k := p.(status := desired)]);
      var order := s.orders[p.orderId];
      if desired == SUCCESS && SuccessSum(u.payments, p.orderId) >= order.total && order.status == OPEN
      then Ok(WithStatus(u, p.orderId, PAID))
      else if desired == FAILED && order.status == OPEN then Ok(WithStatus(u, p.orderId, CANCELLED))
      else Ok(u)
  }

  /** recordPayment. */
  function RecordTx(s: Shop, request: Request, newId: Id): Result<Shop, ShopError> {
    var existing := FindReplay(s.payments, request);
    if existing < |s.payments| && !Compatible(s.payments[existing], request) then Err(ReplayMismatch)
    else if request.orderId !in s.orders then Err(OrderNotFound)
    else
      var order := s.orders[request.orderId];
      if order.status == CANCELLED || order.status == REFUNDED then Err(OrderClosed)
      else if request.status == SUCCESS && (order.status == PAID || order.status == COMPLETED)
           && !(existing < |s.payments| && s.payments[existing].status == SUCCESS)
      then Err(AlreadyPaid)
      else if existing < |s.payments| then
        if request.status == PENDING then Ok(s) else FinalizeTx(s, existing, request.status)
      else
        var row := NewPayment(request, newId);
        if !Unique(s.payments, row) then Err(UniqueViolation)
        else
          var created := s.(payments := s.payments + [row]);
          if request.status == PENDING then Ok(created) else FinalizeTx(created, |s.payments|, request.status)
  }

  function NewPayment(request: Request, newId: Id): Payment {
    Payment(newId, request.orderId, request.payMethod, request.amount, PENDING,
            request.reference, request.idempotencyKey, None)
  }

  function RefundOf(p: Payment, k: nat, newId: Id): Payment {
    var key := "refund:" + p.id;
    Payment(newId, p.orderId, p.payMethod, -p.amount, SUCCESS, Some(key), Some(key), Some(k))
  }

  /** refundPayment. */
  function RefundTx(s: Shop, paymentId: Id, newId: Id): Result<Shop, ShopError> {
    var k := FindById(s.payments, paymentId);
    if k == |s.payments| then Err(PaymentNotFound)
    else if s.payments[k].orderId !in s.orders then Err(OrderNotFound)
    else if s.payments[k].status != SUCCESS then Err(NotSuccessful)
    else if FindRefund(s.payments, k) < |s.payments| then Ok(s)
    else
      var row := RefundOf(s.payments[k], k, newId);
      if !Unique(s.payments, row) then Err(UniqueViolation)
      else
        var u := s.(payments := s.payments + [row]);
        var status := s.orders[row.orderId].status;
        if status == PAID || status == COMPLETED then Ok(WithStatus(u, row.orderId, REFUNDED)) else Ok(u)
  }

  /** cancel, complete and markRefunded, each read and written as one step. */
  function OrderTx(s: Shop, orderId: Id, from: set<OrderStatus>, to: OrderStatus, again: bool): Result<Shop, ShopError> {
    if orderId !in s.orders then Err(OrderNotFound)
    else if again && s.orders[orderId].status == to then Ok(s)
    else if s.orders[orderId].status !in from then Err(WrongOrderStatus)
    else Ok(WithStatus(s, orderId, to))
  }

  function Execute(s: Shop, c: Command): Result<Shop, ShopError> {
    match c
    case PlaceOrder(orderId, total) =>
      if orderId in s.orders then Err(OrderExists) else Ok(s.(orders := s.orders[orderId := Order(total, OPEN)]))
    case RecordPayment(request, newId) => RecordTx(s, request, newId)
    case RefundPayment(paymentId, newId) => RefundTx(s, paymentId, newId)
    case Cancel(orderId) => OrderTx(s, orderId, {OPEN}, CANCELLED, true)
    case Complete(orderId) => OrderTx(s, orderId, {PAID}, COMPLETED, false)
    case MarkRefunded(orderId) => OrderTx(s, orderId, {PAID, COMPLETED}, REFUNDED, true)
  }

  function Step(s: Shop, c: Command): Shop {
    match Execute(s, c)
    case Ok(u) => u
    case Err(_) => s
  }

  function Run(commands: seq<Command>): Shop {
    if commands == [] then Shop(map[], [])
    else Step(Run(commands[..|commands| - 1]), commands[|commands| - 1])
  }
}
