/** payments/payments.service.ts and the status commands of orders/orders.service.ts over rows that
    change in place. A transaction that throws leaves the rows as they were. */
module PaymentsService {
  import opened Common
  import opened Payments

  class Service {
    var orders: map<Id, Order>
    var payments: seq<Payment>

    ghost function State(): Shop
      reads this
    {
      Shop(orders, payments)
    }

    constructor ()
      ensures State() == Shop(map[], [])
    {
      orders, payments := map[], [];
    }

    /** updateStatusIfCurrent. */
    method UpdateStatusIfCurrent(k: nat, current: PaymentStatus, next: PaymentStatus) returns (count: nat)
      requires k < |payments|
      modifies this`payments
      ensures count == if old(payments)[k].status == current then 1 else 0
      ensures payments == if count == 1 then old(payments)[k := old(payments)[k].(status := next)] else old(payments)
    {
      count := 0;
      if payments[k].status == current {
        payments := payments[k := payments[k].(status := next)];
        count := 1;
      }
    }

    /** updateOrderStatusIfCurrent. */
    method UpdateOrderStatusIfCurrent(orderId: Id, current: set<OrderStatus>, next: OrderStatus) returns (count: nat)
      requires orderId in orders
      modifies this`orders
      ensures count == if old(orders)[orderId].status in current then 1 else 0
      ensures orders == if count == 1 then old(orders)[orderId := old(orders)[orderId].(status := next)] else old(orders)
    {
      count := 0;
      if orders[orderId].status in current {
        orders := orders[orderId := orders[orderId].(status := next)];
        count := 1;
      }
    }

    method SumSuccessfulPayments(orderId: Id) returns (sum: real)
      ensures sum == SuccessSum(payments, orderId)
    {
      sum := 0.0;
      var i := 0;
      while i < |payments|
        invariant i <= |payments| && sum == SuccessSum(payments[..i], orderId)
      {
        var p := payments[i];
        SumOfOneMore(payments, i, orderId);
        if p.orderId == orderId && p.status == SUCCESS {
          sum := sum + p.amount;
        }
        i := i + 1;
      }
      assert payments[..i] == payments;
    }

    method FinalizePaymentStatus(k: nat, desired: PaymentStatus) returns (r: Result<(), ShopError>)
      requires k < |payments| && payments[k].orderId in orders && desired != PENDING
      modifies this
      ensures FinalizeTx(old(State()), k, desired).Ok? ==> r.Ok? && State() == FinalizeTx(old(State()), k, desired).value
      ensures FinalizeTx(old(State()), k, desired).Err? ==>
        r == Err(FinalizeTx(old(State()), k, desired).error) && State() == old(State())
    {
      var p := payments[k];
      if p.status == desired {
        return Ok(());
      }
      var allowed: set<PaymentStatus> :=
        if desired == SUCCESS || desired == FAILED then {PENDING, AWAITING_VERIFICATION} else {PENDING};
      if p.status !in allowed {
        return Err(NoTransition);
      }
      var count := UpdateStatusIfCurrent(k, p.status, desired);
      if desired == SUCCESS {
        var paid := SumSuccessfulPayments(p.orderId);
        if paid >= orders[p.orderId].total && orders[p.orderId].status == OPEN {
          count := UpdateOrderStatusIfCurrent(p.orderId, {OPEN}, PAID);
        }
      } else if desired == FAILED {
        count := UpdateOrderStatusIfCurrent(p.orderId, {OPEN}, CANCELLED);
      }
      r := Ok(());
    }

    method RecordPayment(request: Request, newId: Id) returns (r: Result<(), ShopError>)
      modifies this
      ensures State() == Step(old(State()), Command.RecordPayment(request, newId))
      ensures r.Ok? <==> RecordTx(old(State()), request, newId).Ok?
    {
      var record := FindReplay(payments, request);
      if record < |payments| && !Compatible(payments[record], request) {
        return Err(ReplayMismatch);
      }
      if request.orderId !in orders {
        return Err(OrderNotFound);
      }
      var status := orders[request.orderId].status;
      if status == CANCELLED || status == REFUNDED {
        return Err(OrderClosed);
      }
      var known := record < |payments|;
      if request.status == SUCCESS && (status == PAID || status == COMPLETED)
         && !(known && payments[record].status == SUCCESS) {
        return Err(AlreadyPaid);
      }
      var before := payments;
      if !known {
        var row := NewPayment(request, newId);
        if !Unique(payments, row) {
          return Err(UniqueViolation);
        }
        payments := payments + [row];
      }
      if request.status != PENDING {
        r := FinalizePaymentStatus(record, request.status);
        if r.Err? {
          payments := before;
          return;
        }
      }
      r := Ok(());
    }

    method RefundPayment(paymentId: Id, newId: Id) returns (r: Result<(), ShopError>)
      modifies this
      ensures State() == Step(old(State()), Command.RefundPayment(paymentId, newId))
      ensures r.Ok? <==> RefundTx(old(State()), paymentId, newId).Ok?
    {
      var k := FindById(payments, paymentId);
      if k == |payments| {
        return Err(PaymentNotFound);
      }
      var original := payments[k];
      if original.orderId !in orders {
        return Err(OrderNotFound);
      }
      if original.status != SUCCESS {
        return Err(NotSuccessful);
      }
      if FindRefund(payments, k) < |payments| {
        return Ok(());
      }
      var row := RefundOf(original, k, newId);
      if !Unique(payments, row) {
        return Err(UniqueViolation);
      }
      payments := payments + [row];
      var count := UpdateOrderStatusIfCurrent(original.orderId, {PAID, COMPLETED}, REFUNDED);
      r := Ok(());
    }

    method Cancel(orderId: Id) returns (r: Result<(), ShopError>)
      modifies this`orders
      ensures State() == Step(old(State()), Command.Cancel(orderId))
      ensures r.Ok? <==> Execute(old(State()), Command.Cancel(orderId)).Ok?
    {
      if orderId !in orders {
        return Err(OrderNotFound);
      }
      if orders[orderId].status == CANCELLED {
        return Ok(());
      }
      if orders[orderId].status != OPEN {
        return Err(WrongOrderStatus);
      }
      orders := orders[orderId := orders[orderId].(status := CANCELLED)];
      r := Ok(());
    }

    method Complete(orderId: Id) returns (r: Result<(), ShopError>)
      modifies this`orders
      ensures State() == Step(old(State()), Command.Complete(orderId))
      ensures r.Ok? <==> Execute(old(State()), Command.Complete(orderId)).Ok?
    {
      if orderId !in orders {
        return Err(OrderNotFound);
      }
      if orders[orderId].status != PAID {
        return Err(WrongOrderStatus);
      }
      orders := orders[orderId := orders[orderId].(status := COMPLETED)];
      r := Ok(());
    }

    method MarkRefunded(orderId: Id) returns (r: Result<(), ShopError>)
      modifies this`orders
      ensures State() == Step(old(State()), Command.MarkRefunded(orderId))
      ensures r.Ok? <==> Execute(old(State()), Command.MarkRefunded(orderId)).Ok?
    {
      if orderId !in orders {
        return Err(OrderNotFound);
      }
      if orders[orderId].status == REFUNDED {
        return Ok(());
      }
      if orders[orderId].status != PAID && orders[orderId].status != COMPLETED {
        return Err(WrongOrderStatus);
      }
      orders := orders[orderId := orders[orderId].(status := REFUNDED)];
      r := Ok(());
    }
  }

  lemma SumOfOneMore(payments: seq<Payment>, i: nat, orderId: Id)
    requires i < |payments|
    ensures var p := payments[i];
      SuccessSum(payments[..i + 1], orderId)
      == SuccessSum(payments[..i], orderId) + if p.orderId == orderId && p.status == SUCCESS then p.amount else 0.0
  {
    var p := payments[i];
    var x := if p.orderId == orderId && p.status == SUCCESS then p.amount else 0.0;
    assert SuccessColumn(payments[..i + 1], orderId) == SuccessColumn(payments[..i], orderId) + [x];
    SumSnoc(SuccessColumn(payments[..i], orderId), x);
  }
}
