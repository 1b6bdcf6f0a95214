/** What every run of the payment commands keeps: refunds chain up and conserve money, and an order
    counts as paid only while its payments cover it. */
module PaymentChains {
  import opened Common
  import opened Payments

  // ---------------------------------------------------------------- the invariant

  /** A refund is a later SUCCESS payment of the same order by the exact opposite amount, of a payment
      that stands as SUCCESS, and it is the only one. */
  ghost predicate IsRefund(payments: seq<Payment>, j: nat, k: nat)
    requires j < |payments|
  {
    && k < j && FindRefund(payments, k) == j
    && payments[j].status == SUCCESS && payments[k].status == SUCCESS
    && payments[j].amount == -payments[k].amount
    && payments[j].orderId == payments[k].orderId && payments[j].payMethod == payments[k].payMethod
  }

  ghost predicate Linked(payments: seq<Payment>) {
    forall j :: 0 <= j < |payments| && payments[j].refundOf.Some? ==> IsRefund(payments, j, payments[j].refundOf.value)
  }

  ghost predicate Owned(s: Shop) {
    forall j :: 0 <= j < |s.payments| ==> s.payments[j].orderId in s.orders
  }

  ghost predicate PaidInFull(s: Shop) {
    forall o :: o in s.orders && (s.orders[o].status == PAID || s.orders[o].status == COMPLETED) ==>
      SuccessSum(s.payments, o) >= s.orders[o].total
  }

  // ---------------------------------------------------------------- tables that grow

  lemma {:induction false} FindRefundInLonger(payments: seq<Payment>, row: Payment, k: nat)
    ensures FindRefund(payments + [row], k)
         == if FindRefund(payments, k) < |payments| then FindRefund(payments, k)
            else if row.refundOf == Some(k) then |payments| else |payments| + 1
  {
    if payments != [] {
      assert (payments + [row])[1..] == payments[1..] + [row];
      FindRefundInLonger(payments[1..], row, k);
    }
  }

  lemma AppendKeepsLinks(payments: seq<Payment>, row: Payment)
    requires Linked(payments)
    requires row.refundOf.Some? ==>
      && row.refundOf.value < |payments| && FindRefund(payments, row.refundOf.value) == |payments|
      && row.status == SUCCESS && payments[row.refundOf.value].status == SUCCESS
      && row.amount == -payments[row.refundOf.value].amount
      && row.orderId == payments[row.refundOf.value].orderId
      && row.payMethod == payments[row.refundOf.value].payMethod
    ensures Linked(payments + [row])
  {}

  /** A status is only ever changed on a payment that is not SUCCESS, so no link is touched. */
  lemma StatusKeepsLinks(payments: seq<Payment>, k: nat, status: PaymentStatus)
    requires Linked(payments) && k < |payments| && payments[k].status != SUCCESS
    ensures Linked(payments[k := payments[k].(status := status)])
  {}

  // ---------------------------------------------------------------- sums that move

  lemma AppendMovesSum(payments: seq<Payment>, row: Payment, orderId: Id)
    ensures SuccessSum(payments + [row], orderId)
         == SuccessSum(payments, orderId) + if row.orderId == orderId && row.status == SUCCESS then row.amount else 0.0
  {
    var x := if row.orderId == orderId && row.status == SUCCESS then row.amount else 0.0;
    assert SuccessColumn(payments + [row], orderId) == SuccessColumn(payments, orderId) + [x];
    SumSnoc(SuccessColumn(payments, orderId), x);
  }

  lemma StatusMovesOneSum(payments: seq<Payment>, k: nat, status: PaymentStatus, orderId: Id)
    requires k < |payments| && (payments[k].orderId != orderId || (payments[k].status != SUCCESS && status != SUCCESS))
    ensures SuccessSum(payments[k := payments[k].(status := status)], orderId) == SuccessSum(payments, orderId)
  {
    assert SuccessColumn(payments[k := payments[k].(status := status)], orderId) == SuccessColumn(payments, orderId);
  }

  // ---------------------------------------------------------------- every command keeps it

  ghost predicate Sound(s: Shop) {
    Linked(s.payments) && Owned(s) && PaidInFull(s)
  }

  lemma CreateKeepsSound(s: Shop, row: Payment)
    requires Sound(s) && row.orderId in s.orders && row.status != SUCCESS && row.refundOf.None?
    ensures Sound(s.(payments := s.payments + [row]))
  {
    AppendKeepsLinks(s.payments, row);
    forall o | o in s.orders ensures SuccessSum(s.payments + [row], o) == SuccessSum(s.payments, o) {
      AppendMovesSum(s.payments, row, o);
    }
  }

  lemma FinalizeKeepsSound(s: Shop, k: nat, desired: PaymentStatus)
    requires Sound(s) && k < |s.payments| && s.payments[k].orderId in s.orders
    requires desired == SUCCESS && s.payments[k].status != SUCCESS ==>
      s.orders[s.payments[k].orderId].status != PAID && s.orders[s.payments[k].orderId].status != COMPLETED
    requires FinalizeTx(s, k, desired).Ok?
    ensures Sound(FinalizeTx(s, k, desired).value)
  {
    if s.payments[k].status != desired {
      StatusKeepsLinks(s.payments, k, desired);
      forall o | o in s.orders && (o != s.payments[k].orderId || desired != SUCCESS)
        ensures SuccessSum(s.payments[k := s.payments[k].(status := desired)], o) == SuccessSum(s.payments, o)
      {
        StatusMovesOneSum(s.payments, k, desired, o);
      }
    }
  }

  lemma RecordKeepsSound(s: Shop, request: Request, newId: Id)
    requires Sound(s) && RecordTx(s, request, newId).Ok?
    ensures Sound(RecordTx(s, request, newId).value)
  {
    var existing := FindReplay(s.payments, request);
    if existing < |s.payments| {
      if request.status != PENDING {
        FinalizeKeepsSound(s, existing, request.status);
      }
    } else {
      var row := NewPayment(request, newId);
      CreateKeepsSound(s, row);
      if request.status != PENDING {
        FinalizeKeepsSound(s.(payments := s.payments + [row]), |s.payments|, request.status);
      }
    }
  }

  lemma RefundKeepsSound(s: Shop, paymentId: Id, newId: Id)
    requires Sound(s) && RefundTx(s, paymentId, newId).Ok?
    ensures Sound(RefundTx(s, paymentId, newId).value)
  {
    var k := FindById(s.payments, paymentId);
    if FindRefund(s.payments, k) == |s.payments| {
      var row := RefundOf(s.payments[k], k, newId);
      AppendKeepsLinks(s.payments, row);
      forall o | o in s.orders && o != row.orderId
        ensures SuccessSum(s.payments + [row], o) == SuccessSum(s.payments, o)
      {
        AppendMovesSum(s.payments, row, o);
      }
    }
  }

  lemma EveryCommandKeepsSound(s: Shop, c: Command)
    requires Sound(s)
    ensures Sound(Step(s, c))
  {
    if Execute(s, c).Ok? {
      match c
      case PlaceOrder(_, _) =>
      case RecordPayment(request, newId) => RecordKeepsSound(s, request, newId);
      case RefundPayment(paymentId, newId) => RefundKeepsSound(s, paymentId, newId);
      case Cancel(_) =>
      case Complete(_) =>
      case MarkRefunded(_) =>
    }
  }

  lemma {:induction false} RunsAreSound(commands: seq<Command>)
    ensures Sound(Run(commands))
  {
    if commands != [] {
      RunsAreSound(commands[..|commands| - 1]);
      EveryCommandKeepsSound(Run(commands[..|commands| - 1]), commands[|commands| - 1]);
    }
  }

  /** In every reachable state a paid or completed order is covered by its SUCCESS payments. */
  lemma PaidMeansFullyPaid(commands: seq<Command>, o: Id)
    requires o in Run(commands).orders
    requires Run(commands).orders[o].status == PAID || Run(commands).orders[o].status == COMPLETED
    ensures SuccessSum(Run(commands).payments, o) >= Run(commands).orders[o].total
  {
    RunsAreSound(commands);
  }

  // ---------------------------------------------------------------- what is final

  lemma ClosedOrderStays(s: Shop, c: Command, o: Id)
    requires o in s.orders && (s.orders[o].status == CANCELLED || s.orders[o].status == REFUNDED)
    ensures o in Step(s, c).orders && Step(s, c).orders[o] == s.orders[o]
  {}

  /** CANCELLED and REFUNDED are never left. */
  lemma {:induction false} ClosedOrdersStayClosed(commands: seq<Command>, n: nat, o: Id)
    requires n <= |commands| && o in Run(commands[..n]).orders
    requires Run(commands[..n]).orders[o].status == CANCELLED || Run(commands[..n]).orders[o].status == REFUNDED
    ensures o in Run(commands).orders && Run(commands).orders[o] == Run(commands[..n]).orders[o]
    decreases |commands|
  {
    if n == |commands| {
      assert commands[..n] == commands;
    } else {
      var last := |commands| - 1;
      assert commands[..last][..n] == commands[..n];
      ClosedOrdersStayClosed(commands[..last], n, o);
      ClosedOrderStays(Run(commands[..last]), commands[last], o);
    }
  }

  lemma SuccessStays(s: Shop, c: Command, k: nat)
    requires k < |s.payments| && s.payments[k].status == SUCCESS
    ensures k < |Step(s, c).payments| && Step(s, c).payments[k] == s.payments[k]
  {}

  /** A SUCCESS payment is never written again. */
  lemma {:induction false} SuccessIsTerminal(commands: seq<Command>, n: nat, k: nat)
    requires n <= |commands| && k < |Run(commands[..n]).payments|
    requires Run(commands[..n]).payments[k].status == SUCCESS
    ensures k < |Run(commands).payments| && Run(commands).payments[k] == Run(commands[..n]).payments[k]
    decreases |commands|
  {
    if n == |commands| {
      assert commands[..n] == commands;
    } else {
      var last := |commands| - 1;
      assert commands[..last][..n] == commands[..n];
      SuccessIsTerminal(commands[..last], n, k);
      SuccessStays(Run(commands[..last]), commands[last], k);
    }
  }

  // ---------------------------------------------------------------- refund chains

  /** A payment, its refund, the refund's refund and so on. */
  function ChainLength(payments: seq<Payment>, k: nat): nat
    requires k < |payments|
    decreases |payments| - k
  {
    var j := FindRefund(payments, k);
    if k < j < |payments| then 1 + ChainLength(payments, j) else 1
  }

  function ChainSum(payments: seq<Payment>, k: nat): real
    requires k < |payments|
    decreases |payments| - k
  {
    var j := FindRefund(payments, k);
    payments[k].amount + if k < j < |payments| then ChainSum(payments, j) else 0.0
  }

  predicate Odd(n: nat) {
    n % 2 == 1
  }

  lemma {:induction false} ChainCollapses(payments: seq<Payment>, k: nat)
    requires Linked(payments) && k < |payments|
    ensures ChainSum(payments, k) == if Odd(ChainLength(payments, k)) then payments[k].amount else 0.0
    decreases |payments| - k
  {
    var j := FindRefund(payments, k);
    if k < j < |payments| {
      assert IsRefund(payments, j, payments[j].refundOf.value);
      ChainCollapses(payments, j);
    }
  }

  /** What a chain that starts at k leaves to the order. */
  function ChainShare(payments: seq<Payment>, orderId: Id, k: nat): real
    requires k < |payments|
  {
    if payments[k].orderId == orderId && payments[k].status == SUCCESS then ChainSum(payments, k) else 0.0
  }

  function ShareColumn(payments: seq<Payment>, orderId: Id): (r: seq<real>)
    ensures |r| == |payments|
  {
    seq(|payments|, k requires 0 <= k < |payments| => ChainShare(payments, orderId, k))
  }

  /** Shares of the refunds among the first m rows, by the payment they refund ... */
  function ByRefunded(payments: seq<Payment>, shares: seq<real>, m: nat): (r: seq<real>)
    requires |shares| == |payments| && m <= |payments|
    ensures |r| == |payments|
  {
    seq(|payments|, k requires 0 <= k < |payments| =>
      var j := FindRefund(payments, k); if j < m then shares[j] else 0.0)
  }

  /** ... and by themselves. */
  function ByRefund(payments: seq<Payment>, shares: seq<real>, m: nat): (r: seq<real>)
    requires |shares| == |payments| && m <= |payments|
    ensures |r| == |payments|
  {
    seq(|payments|, j requires 0 <= j < |payments| =>
      if j < m && payments[j].refundOf.Some? then shares[j] else 0.0)
  }

  /** Counting the refunds by payment or one by one comes to the same. */
  lemma {:induction false} RefundsCountOnce(payments: seq<Payment>, shares: seq<real>, m: nat)
    requires Linked(payments) && |shares| == |payments| && m <= |payments|
    ensures Sum(ByRefunded(payments, shares, m)) == Sum(ByRefund(payments, shares, m))
  {
    if m == 0 {
      SumZero(ByRefunded(payments, shares, 0));
      SumZero(ByRefund(payments, shares, 0));
    } else {
      RefundsCountOnce(payments, shares, m - 1);
      OneMoreRefund(payments, shares, m - 1);
    }
  }

  lemma OneMoreRefund(payments: seq<Payment>, shares: seq<real>, m: nat)
    requires Linked(payments) && |shares| == |payments| && m < |payments|
    ensures Sum(ByRefunded(payments, shares, m + 1)) - Sum(ByRefunded(payments, shares, m))
         == Sum(ByRefund(payments, shares, m + 1)) - Sum(ByRefund(payments, shares, m))
  {
    var x, y := ByRefunded(payments, shares, m), ByRefund(payments, shares, m);
    if payments[m].refundOf.Some? {
      var k := payments[m].refundOf.value;
      assert IsRefund(payments, m, k);
      forall i | 0 <= i < |payments| && i != k ensures FindRefund(payments, i) != m {}
      assert ByRefunded(payments, shares, m + 1) == x[k := shares[m]];
      assert ByRefund(payments, shares, m + 1) == y[m := shares[m]];
      SumUpdate(x, k, shares[m]);
      SumUpdate(y, m, shares[m]);
    } else {
      forall i | 0 <= i < |payments| ensures FindRefund(payments, i) != m {}
      assert ByRefunded(payments, shares, m + 1) == x;
      assert ByRefund(payments, shares, m + 1) == y;
    }
  }

  /** What the root payments of odd chains amount to. */
  function OddRootColumn(payments: seq<Payment>, orderId: Id): (r: seq<real>)
    ensures |r| == |payments|
  {
    seq(|payments|, k requires 0 <= k < |payments| =>
      if payments[k].refundOf.None? && payments[k].orderId == orderId && payments[k].status == SUCCESS
         && Odd(ChainLength(payments, k))
      then payments[k].amount else 0.0)
  }

  /** Each SUCCESS amount is its chain's share less the share of its refund's chain. */
  lemma AmountIsADifference(payments: seq<Payment>, orderId: Id, k: nat)
    requires Linked(payments) && k < |payments|
    ensures var j := FindRefund(payments, k);
      SuccessColumn(payments, orderId)[k]
      == ChainShare(payments, orderId, k) - if j < |payments| then ChainShare(payments, orderId, j) else 0.0
  {}

  lemma SharesSplit(payments: seq<Payment>, orderId: Id)
    requires Linked(payments)
    ensures Sum(ShareColumn(payments, orderId))
         == Sum(OddRootColumn(payments, orderId)) + Sum(ByRefund(payments, ShareColumn(payments, orderId), |payments|))
  {
    var shares, roots := ShareColumn(payments, orderId), OddRootColumn(payments, orderId);
    var refunds := ByRefund(payments, shares, |payments|);
    forall k | 0 <= k < |payments| ensures shares[k] == roots[k] + refunds[k] {
      ChainCollapses(payments, k);
    }
    SumAdd(roots, refunds, shares);
  }

  lemma AmountsSplit(payments: seq<Payment>, orderId: Id)
    requires Linked(payments)
    ensures Sum(ShareColumn(payments, orderId))
         == SuccessSum(payments, orderId) + Sum(ByRefunded(payments, ShareColumn(payments, orderId), |payments|))
  {
    var shares, amounts := ShareColumn(payments, orderId), SuccessColumn(payments, orderId);
    var refunded := ByRefunded(payments, shares, |payments|);
    forall k | 0 <= k < |payments| ensures shares[k] == amounts[k] + refunded[k] {
      AmountIsADifference(payments, orderId, k);
    }
    SumAdd(amounts, refunded, shares);
  }

  /** Refund chains conserve money: an order's SUCCESS amounts sum to the amounts of its root payments
      whose chain has odd length, and to no less than nothing when those are not negative. */
  lemma ChainsConserveMoney(commands: seq<Command>, orderId: Id)
    ensures var payments := Run(commands).payments;
      && Linked(payments)
      && SuccessSum(payments, orderId) == Sum(OddRootColumn(payments, orderId))
      && ((forall k :: 0 <= k < |payments| && payments[k].refundOf.None? ==> payments[k].amount >= 0.0)
          ==> SuccessSum(payments, orderId) >= 0.0)
  {
    var payments := Run(commands).payments;
    RunsAreSound(commands);
    SharesSplit(payments, orderId);
    AmountsSplit(payments, orderId);
    RefundsCountOnce(payments, ShareColumn(payments, orderId), |payments|);
    if forall k :: 0 <= k < |payments| && payments[k].refundOf.None? ==> payments[k].amount >= 0.0 {
      SumNonNegative(OddRootColumn(payments, orderId));
    }
  }
}
