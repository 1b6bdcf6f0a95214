/** Replays of recordPayment (payments/payments.service.ts): a request that has taken effect is absorbed
    when it comes again, at any later point of any run. */
module PaymentReplays {
  import opened Common
  import opened Payments

  /** PENDING comes before AWAITING_VERIFICATION, and SUCCESS and FAILED are final. */
  function Rank(status: PaymentStatus): nat {
    match status
    case PENDING => 0
    case AWAITING_VERIFICATION => 1
    case SUCCESS => 2
    case FAILED => 2
  }

  /** Where the request's own key points: its idempotency key, or its reference when it has no such key. */
  function OwnKey(payments: seq<Payment>, request: Request): (k: nat)
    ensures k <= |payments|
  {
    if Given(request.idempotencyKey) then FindByKey(payments, request.idempotencyKey.value)
    else if Given(request.reference) then FindByReference(payments, request.reference.value)
    else |payments|
  }

  /** The payment the request's key names has got as far as the request asks for. */
  predicate TakenEffect(s: Shop, request: Request) {
    var k := OwnKey(s.payments, request);
    k < |s.payments| && Rank(s.payments[k].status) >= Rank(request.status)
  }

  lemma TakenEffectIsAbsorbed(s: Shop, request: Request, newId: Id)
    requires TakenEffect(s, request)
    ensures Step(s, RecordPayment(request, newId)) == s
  {}

  // ---------------------------------------------------------------- keys in a growing table

  lemma {:induction false} KeyInLonger(payments: seq<Payment>, row: Payment, key: string)
    ensures FindByKey(payments + [row], key)
         == if FindByKey(payments, key) < |payments| || row.idempotencyKey == Some(key) then FindByKey(payments, key)
            else |payments| + 1
  {
    if payments != [] {
      assert (payments + [row])[1..] == payments[1..] + [row];
      KeyInLonger(payments[1..], row, key);
    }
  }

  lemma {:induction false} ReferenceInLonger(payments: seq<Payment>, row: Payment, key: string)
    ensures FindByReference(payments + [row], key)
         == if FindByReference(payments, key) < |payments| || row.reference == Some(key)
            then FindByReference(payments, key) else |payments| + 1
  {
    if payments != [] {
      assert (payments + [row])[1..] == payments[1..] + [row];
      ReferenceInLonger(payments[1..], row, key);
    }
  }

  /** The tables have the same keys in the same places. */
  ghost predicate SameKeys(payments: seq<Payment>, after: seq<Payment>) {
    && |after| == |payments|
    && forall i :: 0 <= i < |payments| ==>
         after[i].idempotencyKey == payments[i].idempotencyKey && after[i].reference == payments[i].reference
  }

  lemma {:induction false} KeysStay(payments: seq<Payment>, after: seq<Payment>, key: string)
    requires SameKeys(payments, after)
    ensures FindByKey(after, key) == FindByKey(payments, key)
    ensures FindByReference(after, key) == FindByReference(payments, key)
  {
    if payments != [] {
      KeysStay(payments[1..], after[1..], key);
    }
  }

  // ---------------------------------------------------------------- what each transaction leaves

  /** Rows keep their place and their keys and move up in rank, and at most one row is added. */
  ghost predicate Advanced(payments: seq<Payment>, after: seq<Payment>) {
    && |payments| <= |after| <= |payments| + 1
    && SameKeys(payments, after[..|payments|])
    && forall i :: 0 <= i < |payments| ==> Rank(payments[i].status) <= Rank(after[i].status)
  }

  lemma OwnKeyStays(payments: seq<Payment>, after: seq<Payment>, request: Request)
    requires Advanced(payments, after) && OwnKey(payments, request) < |payments|
    ensures OwnKey(after, request) == OwnKey(payments, request)
  {
    var front := after[..|payments|];
    var key := if Given(request.idempotencyKey) then request.idempotencyKey.value else request.reference.value;
    KeysStay(payments, front, key);
    if |after| > |payments| {
      assert after == front + [after[|payments|]];
      KeyInLonger(front, after[|payments|], key);
      ReferenceInLonger(front, after[|payments|], key);
    } else {
      assert after == front;
    }
  }

  lemma FinalizeAdvances(s: Shop, k: nat, desired: PaymentStatus)
    requires k < |s.payments| && s.payments[k].orderId in s.orders && FinalizeTx(s, k, desired).Ok?
    ensures Advanced(s.payments, FinalizeTx(s, k, desired).value.payments)
    ensures FinalizeTx(s, k, desired).value.payments[k].status == desired
    ensures |FinalizeTx(s, k, desired).value.payments| == |s.payments|
  {}

  lemma RecordAdvances(s: Shop, request: Request, newId: Id)
    requires RecordTx(s, request, newId).Ok?
    ensures Advanced(s.payments, RecordTx(s, request, newId).value.payments)
  {
    var existing := FindReplay(s.payments, request);
    if existing < |s.payments| {
      if request.status != PENDING {
        FinalizeAdvances(s, existing, request.status);
      }
    } else if request.status != PENDING {
      var created := s.(payments := s.payments + [NewPayment(request, newId)]);
      FinalizeAdvances(created, |s.payments|, request.status);
      var after := FinalizeTx(created, |s.payments|, request.status).value.payments;
      forall i | 0 <= i < |s.payments| ensures created.payments[i] == s.payments[i] {}
    }
  }

  lemma EveryCommandAdvances(s: Shop, c: Command)
    ensures Advanced(s.payments, Step(s, c).payments)
  {
    if c.RecordPayment? && Execute(s, c).Ok? {
      RecordAdvances(s, c.request, c.newId);
    }
  }

  lemma EffectLasts(s: Shop, c: Command, request: Request)
    requires TakenEffect(s, request)
    ensures TakenEffect(Step(s, c), request)
  {
    EveryCommandAdvances(s, c);
    OwnKeyStays(s.payments, Step(s, c).payments, request);
  }

  // ---------------------------------------------------------------- the main results

  /** A request that succeeds has taken effect under its own key, unless it brings an idempotency key
      that no payment has and was answered with the payment that has its reference. */
  lemma SuccessTakesEffect(s: Shop, request: Request, newId: Id)
    requires RecordTx(s, request, newId).Ok? && (Given(request.idempotencyKey) || Given(request.reference))
    ensures TakenEffect(RecordTx(s, request, newId).value, request)
       <==> OwnKey(s.payments, request) < |s.payments| || FindReplay(s.payments, request) == |s.payments|
  {
    var existing, own := FindReplay(s.payments, request), OwnKey(s.payments, request);
    var after := RecordTx(s, request, newId).value.payments;
    RecordAdvances(s, request, newId);
    if own < |s.payments| {
      OwnKeyStays(s.payments, after, request);
      if request.status != PENDING {
        FinalizeAdvances(s, existing, request.status);
      }
    } else if existing < |s.payments| {
      if request.status != PENDING {
        FinalizeAdvances(s, existing, request.status);
      }
      KeysStay(s.payments, after[..|s.payments|], request.idempotencyKey.value);
      assert after[..|s.payments|] == after;
    } else {
      var row := NewPayment(request, newId);
      var created := s.(payments := s.payments + [row]);
      var key := if Given(request.idempotencyKey) then request.idempotencyKey.value else request.reference.value;
      KeyInLonger(s.payments, row, key);
      ReferenceInLonger(s.payments, row, key);
      if request.status != PENDING {
        FinalizeAdvances(created, |s.payments|, request.status);
        assert after[..|after|] == after;
        KeysStay(created.payments, after, key);
      }
    }
  }

  /** The shop after more commands. */
  function From(s: Shop, commands: seq<Command>): Shop {
    if commands == [] then s
    else Step(From(s, commands[..|commands| - 1]), commands[|commands| - 1])
  }

  lemma {:induction false} RunContinues(commands: seq<Command>, more: seq<Command>)
    ensures Run(commands + more) == From(Run(commands), more)
    decreases |more|
  {
    if more == [] {
      assert commands + more == commands;
    } else {
      var last := |more| - 1;
      var front := commands + more[..last];
      RunContinues(commands, more[..last]);
      assert (commands + more)[..|commands + more| - 1] == front;
    }
  }

  lemma {:induction false} EffectLastsForever(s: Shop, more: seq<Command>, request: Request)
    requires TakenEffect(s, request)
    ensures TakenEffect(From(s, more), request)
  {
    if more != [] {
      var last := |more| - 1;
      EffectLastsForever(s, more[..last], request);
      EffectLasts(From(s, more[..last]), more[last], request);
    }
  }

  /** Once a payment request has taken effect, sending it again after whatever else has happened
      changes no payment and no order. */
  lemma PaymentReplaysAreAbsorbed(commands: seq<Command>, more: seq<Command>, request: Request, newId: Id)
    requires TakenEffect(Run(commands), request)
    ensures Run(commands + more + [RecordPayment(request, newId)]) == Run(commands + more)
  {
    RunContinues(commands, more);
    EffectLastsForever(Run(commands), more, request);
    RunContinues(commands + more, [RecordPayment(request, newId)]);
    StepFrom(Run(commands + more), RecordPayment(request, newId));
  }

  lemma StepFrom(s: Shop, c: Command)
    ensures From(s, [c]) == Step(s, c)
  {
    assert [c][..0] == [];
  }

  // ---------------------------------------------------------------- what else can never act again

  /** The order would still take the payment: it is open, or settled and the request is not for SUCCESS. */
  predicate OrderTakes(s: Shop, request: Request) {
    && request.orderId in s.orders
    && var status := s.orders[request.orderId].status;
       status == OPEN || (request.status != SUCCESS && (status == PAID || status == COMPLETED))
  }

  predicate OrderRefuses(s: Shop, request: Request) {
    request.orderId in s.orders && !OrderTakes(s, request)
  }

  /** A request without a key and a reference whose empty string stands in one of their columns. */
  predicate EmptyTaken(s: Shop, request: Request) {
    && !Given(request.idempotencyKey) && !Given(request.reference)
    && (|| (request.idempotencyKey.Some? && FindByKey(s.payments, "") < |s.payments|)
        || (request.reference.Some? && FindByReference(s.payments, "") < |s.payments|))
  }

  predicate Answered(s: Shop, request: Request) {
    FindReplay(s.payments, request) < |s.payments|
  }

  /** Sent again, the request changes nothing, now or later. */
  predicate Idle(s: Shop, request: Request) {
    || TakenEffect(s, request)
    || (Answered(s, request) && request.status == PENDING)
    || OrderRefuses(s, request)
    || EmptyTaken(s, request)
  }

  ghost predicate Absorbed(s: Shop, request: Request, id: Id) {
    Step(s, RecordPayment(request, id)) == s
  }

  lemma IdleIsAbsorbed(s: Shop, request: Request, id: Id)
    requires Idle(s, request)
    ensures Absorbed(s, request, id)
  {}

  lemma FoundStays(payments: seq<Payment>, after: seq<Payment>, key: string)
    requires Advanced(payments, after)
    ensures FindByKey(payments, key) < |payments| ==> FindByKey(after, key) < |after|
    ensures FindByReference(payments, key) < |payments| ==> FindByReference(after, key) < |after|
  {
    var front := after[..|payments|];
    KeysStay(payments, front, key);
    if |after| > |payments| {
      assert after == front + [after[|payments|]];
      KeyInLonger(front, after[|payments|], key);
      ReferenceInLonger(front, after[|payments|], key);
    } else {
      assert after == front;
    }
  }

  lemma AnsweredStays(s: Shop, c: Command, request: Request)
    ensures Answered(s, request) ==> Answered(Step(s, c), request)
    ensures EmptyTaken(s, request) ==> EmptyTaken(Step(s, c), request)
  {
    EveryCommandAdvances(s, c);
    FoundStays(s.payments, Step(s, c).payments, "");
    if Given(request.idempotencyKey) {
      FoundStays(s.payments, Step(s, c).payments, request.idempotencyKey.value);
    }
    if Given(request.reference) {
      FoundStays(s.payments, Step(s, c).payments, request.reference.value);
    }
  }

  lemma RefusalStays(s: Shop, c: Command, request: Request)
    requires OrderRefuses(s, request)
    ensures OrderRefuses(Step(s, c), request)
  {}

  lemma {:induction false} IdleStays(s: Shop, more: seq<Command>, request: Request)
    requires Idle(s, request)
    ensures Idle(From(s, more), request)
  {
    if more != [] {
      var last := |more| - 1;
      var before := From(s, more[..last]);
      IdleStays(s, more[..last], request);
      AnsweredStays(before, more[last], request);
      if TakenEffect(before, request) {
        EffectLasts(before, more[last], request);
      } else if OrderRefuses(before, request) {
        RefusalStays(before, more[last], request);
      }
    }
  }

  // ---------------------------------------------------------------- a request that acts again

  /** An id that no payment has. */
  function FreshId(payments: seq<Payment>): Id {
    if payments == [] then "x" else payments[0].id + FreshId(payments[1..])
  }

  lemma {:induction false} FreshIsLonger(payments: seq<Payment>, i: nat)
    requires i < |payments|
    ensures |FreshId(payments)| > |payments[i].id|
  {
    if i == 0 {
      FreshIsNotEmpty(payments[1..]);
    } else {
      FreshIsLonger(payments[1..], i - 1);
    }
  }

  lemma {:induction false} FreshIsNotEmpty(payments: seq<Payment>)
    ensures |FreshId(payments)| > 0
  {
    if payments != [] {
      FreshIsNotEmpty(payments[1..]);
    }
  }

  lemma FreshIsFresh(payments: seq<Payment>)
    ensures FindById(payments, FreshId(payments)) == |payments|
  {
    var i := FindById(payments, FreshId(payments));
    if i < |payments| {
      FreshIsLonger(payments, i);
    }
  }

  /** A request that finds no payment and whose order takes it makes one. */
  lemma NewRequestIsMade(s: Shop, request: Request)
    requires OrderTakes(s, request) && !Answered(s, request)
    requires request.reference.Some? ==> FindByReference(s.payments, request.reference.value) == |s.payments|
    requires request.idempotencyKey.Some? ==> FindByKey(s.payments, request.idempotencyKey.value) == |s.payments|
    ensures var id := FreshId(s.payments);
      && RecordTx(s, request, id).Ok?
      && |RecordTx(s, request, id).value.payments| == |s.payments| + 1
  {
    FreshIsFresh(s.payments);
    var row := NewPayment(request, FreshId(s.payments));
    assert Unique(s.payments, row);
    if request.status != PENDING {
      FinalizeAdvances(s.(payments := s.payments + [row]), |s.payments|, request.status);
    }
  }

  /** Another payment of the same order, method and amount under the request's key, still to be paid. */
  function KeyTaker(request: Request): Request {
    request.(status := PENDING, reference := None)
  }

  lemma KeyIsTakenBy(s: Shop, request: Request)
    requires Given(request.idempotencyKey) && FindByKey(s.payments, request.idempotencyKey.value) == |s.payments|
    requires OrderTakes(s, request)
    ensures var row := NewPayment(KeyTaker(request), FreshId(s.payments));
      Step(s, RecordPayment(KeyTaker(request), FreshId(s.payments))) == s.(payments := s.payments + [row])
  {
    FreshIsFresh(s.payments);
    assert Unique(s.payments, NewPayment(KeyTaker(request), FreshId(s.payments)));
  }

  lemma TakenKeyIsAdvanced(s: Shop, request: Request, id: Id)
    requires Given(request.idempotencyKey) && request.status != PENDING && OrderTakes(s, request)
    requires var k := FindByKey(s.payments, request.idempotencyKey.value);
      k < |s.payments| && s.payments[k].status == PENDING && Compatible(s.payments[k], request)
    ensures !Absorbed(s, request, id)
  {
    var k := FindByKey(s.payments, request.idempotencyKey.value);
    FinalizeAdvances(s, k, request.status);
  }

  lemma CrossedActsAgain(s: Shop, request: Request, id: Id)
    requires Given(request.idempotencyKey) && FindByKey(s.payments, request.idempotencyKey.value) == |s.payments|
    requires OrderTakes(s, request) && request.status != PENDING
    ensures !Absorbed(From(s, [RecordPayment(KeyTaker(request), FreshId(s.payments))]), request, id)
  {
    var row := NewPayment(KeyTaker(request), FreshId(s.payments));
    StepFrom(s, RecordPayment(KeyTaker(request), FreshId(s.payments)));
    KeyIsTakenBy(s, request);
    KeyInLonger(s.payments, row, request.idempotencyKey.value);
    TakenKeyIsAdvanced(s.(payments := s.payments + [row]), request, id);
  }

  // ---------------------------------------------------------------- exactly which requests are absorbed

  /** However long it is put off and whatever else happens before, sending the request again changes
      nothing. */
  ghost predicate AbsorbedForGood(s: Shop, request: Request) {
    forall more, id :: Absorbed(From(s, more), request, id)
  }

  predicate Keyless(request: Request) {
    request.idempotencyKey.None? && request.reference.None?
  }

  /** The request brought an idempotency key that no payment had, was answered with the payment that has its
      reference, and asked for more than PENDING. */
  predicate Crossed(s: Shop, request: Request) {
    && OwnKey(s.payments, request) == |s.payments| && Answered(s, request)
    && request.status != PENDING
  }

  lemma SuccessIsIdleUnless(s: Shop, request: Request, newId: Id)
    requires RecordTx(s, request, newId).Ok?
    ensures var u := RecordTx(s, request, newId).value;
      Idle(u, request) || ((Keyless(request) || Crossed(s, request)) && OrderTakes(u, request))
  {
    var u := RecordTx(s, request, newId).value;
    var c := RecordPayment(request, newId);
    assert Step(s, c) == u;
    AnsweredStays(s, c, request);
    if Given(request.idempotencyKey) || Given(request.reference) {
      SuccessTakesEffect(s, request, newId);
    } else if !Keyless(request) {
      MadeWithEmpty(s, request, newId);
    }
  }

  lemma MadeWithEmpty(s: Shop, request: Request, newId: Id)
    requires RecordTx(s, request, newId).Ok?
    requires !Given(request.idempotencyKey) && !Given(request.reference) && !Keyless(request)
    ensures EmptyTaken(RecordTx(s, request, newId).value, request)
  {
    var row := NewPayment(request, newId);
    var created := s.(payments := s.payments + [row]);
    KeyInLonger(s.payments, row, "");
    ReferenceInLonger(s.payments, row, "");
    if request.status != PENDING {
      FinalizeAdvances(created, |s.payments|, request.status);
      FoundStays(created.payments, RecordTx(s, request, newId).value.payments, "");
    }
  }

  lemma CrossedKeyStaysUnknown(s: Shop, request: Request, newId: Id)
    requires RecordTx(s, request, newId).Ok? && Crossed(s, request)
    ensures var after := RecordTx(s, request, newId).value.payments;
      Given(request.idempotencyKey) && FindByKey(after, request.idempotencyKey.value) == |after|
  {
    var after := RecordTx(s, request, newId).value.payments;
    FinalizeAdvances(s, FindReplay(s.payments, request), request.status);
    assert after[..|s.payments|] == after;
    KeysStay(s.payments, after, request.idempotencyKey.value);
  }

  /** A payment request that succeeded is absorbed for good if and only if its order takes it no more, or it
      has a key or a reference and was not crossed. */
  lemma {:induction false} AbsorbedExactlyUnlessCrossed(s: Shop, request: Request, newId: Id)
    requires RecordTx(s, request, newId).Ok?
    ensures var u := RecordTx(s, request, newId).value;
      AbsorbedForGood(u, request) <==> !((Keyless(request) || Crossed(s, request)) && OrderTakes(u, request))
  {
    var u := RecordTx(s, request, newId).value;
    if !((Keyless(request) || Crossed(s, request)) && OrderTakes(u, request)) {
      SuccessIsIdleUnless(s, request, newId);
      forall more, id ensures Absorbed(From(u, more), request, id) {
        IdleStays(u, more, request);
        IdleIsAbsorbed(From(u, more), request, id);
      }
    } else if Keyless(request) {
      NewRequestIsMade(u, request);
      assert !Absorbed(From(u, []), request, FreshId(u.payments));
    } else {
      CrossedKeyStaysUnknown(s, request, newId);
      CrossedActsAgain(u, request, newId);
    }
  }

  // ---------------------------------------------------------------- a request answered by its reference

  function Ten(status: PaymentStatus, reference: string, key: string): Request {
    Request("o", "CASH", 10.0, status, Some(reference), Some(key))
  }

  /** The second request is answered with the first one's payment; the third one takes its key. */
  const Crossing: seq<Command> := [
    PlaceOrder("o", 100.0),
    RecordPayment(Ten(PENDING, "r", "k"), "p"),
    RecordPayment(Ten(AWAITING_VERIFICATION, "r", "l"), "q"),
    RecordPayment(Ten(PENDING, "s", "l"), "q")]

  function TenPaid(id: Id, status: PaymentStatus, reference: string, key: string): Payment {
    Payment(id, "o", "CASH", 10.0, status, Some(reference), Some(key), None)
  }

  lemma FindInOne(p: Payment, key: string)
    ensures FindByKey([p], key) == if p.idempotencyKey == Some(key) then 0 else 1
    ensures FindByReference([p], key) == if p.reference == Some(key) then 0 else 1
    ensures FindById([p], key) == if p.id == key then 0 else 1
  {
    assert [p][1..] == [];
  }

  lemma AnsweredByReference(s: Shop)
    requires s == Shop(map["o" := Order(100.0, OPEN)], [TenPaid("p", PENDING, "r", "k")])
    ensures var request, after := Ten(AWAITING_VERIFICATION, "r", "l"), [TenPaid("p", AWAITING_VERIFICATION, "r", "k")];
      RecordTx(s, request, "q") == Ok(s.(payments := after)) && !TakenEffect(s.(payments := after), request)
  {
    FindInOne(s.payments[0], "l");
    FindInOne(s.payments[0], "r");
    FindInOne(TenPaid("p", AWAITING_VERIFICATION, "r", "k"), "l");
    var request, answered := Ten(AWAITING_VERIFICATION, "r", "l"), TenPaid("p", AWAITING_VERIFICATION, "r", "k");
    assert FindReplay(s.payments, request) == 0;
    assert s.payments[0 := answered] == [answered];
    assert FinalizeTx(s, 0, AWAITING_VERIFICATION) == Ok(s.(payments := [answered]));
  }

  lemma KeyIsTaken(s: Shop)
    requires s == Shop(map["o" := Order(100.0, OPEN)], [TenPaid("p", AWAITING_VERIFICATION, "r", "k")])
    ensures RecordTx(s, Ten(PENDING, "s", "l"), "q") == Ok(s.(payments := s.payments + [TenPaid("q", PENDING, "s", "l")]))
  {
    var request := Ten(PENDING, "s", "l");
    FindInOne(s.payments[0], "l");
    FindInOne(s.payments[0], "s");
    FindInOne(s.payments[0], "q");
    assert FindReplay(s.payments, request) == |s.payments|;
    assert NewPayment(request, "q") == TenPaid("q", PENDING, "s", "l");
    assert Unique(s.payments, TenPaid("q", PENDING, "s", "l"));
  }

  lemma AnsweredByKey(s: Shop)
    requires s.orders == map["o" := Order(100.0, OPEN)]
    requires s.payments == [TenPaid("p", AWAITING_VERIFICATION, "r", "k")] + [TenPaid("q", PENDING, "s", "l")]
    ensures RecordTx(s, Ten(AWAITING_VERIFICATION, "r", "l"), "q")
         == Ok(s.(payments := s.payments[1 := TenPaid("q", AWAITING_VERIFICATION, "s", "l")]))
  {
    FindInOne(s.payments[0], "l");
    KeyInLonger([s.payments[0]], s.payments[1], "l");
  }

  /** The shop with the one order and these payments. */
  function Holding(payments: seq<Payment>): Shop {
    Shop(map["o" := Order(100.0, OPEN)], payments)
  }

  lemma {:induction false} CrossedUpToTheAnswer()
    ensures Run(Crossing[..2]) == Holding([TenPaid("p", PENDING, "r", "k")])
    ensures Run(Crossing[..3]) == Holding([TenPaid("p", AWAITING_VERIFICATION, "r", "k")])
  {
    assert Crossing[..1][..0] == [] && Crossing[..2][..1] == Crossing[..1] && Crossing[..3][..2] == Crossing[..2];
    assert Run(Crossing[..1]) == Step(Run(Crossing[..1][..0]), Crossing[0]) == Holding([]);
    assert Run(Crossing[..2]) == Step(Run(Crossing[..2][..1]), Crossing[1]);
    AnsweredByReference(Run(Crossing[..2]));
    assert Run(Crossing[..3]) == Step(Run(Crossing[..3][..2]), Crossing[2]);
  }

  /** A request with an unknown idempotency key and a known reference is not absorbed for good: sent
      again once another payment has its key, it changes that payment. */
  lemma {:induction false} CrossedRequestIsNotAbsorbed()
    ensures var request := Ten(AWAITING_VERIFICATION, "r", "l");
      && RecordTx(Run(Crossing[..2]), request, "q").Ok?
      && !TakenEffect(Run(Crossing[..3]), request)
      && Run(Crossing + [RecordPayment(request, "q")]) != Run(Crossing)
  {
    var request := Ten(AWAITING_VERIFICATION, "r", "l");
    CrossedUpToTheAnswer();
    AnsweredByReference(Run(Crossing[..2]));
    KeyIsTaken(Run(Crossing[..3]));
    assert Run(Crossing) == Step(Run(Crossing[..3]), Crossing[3]);
    AnsweredByKey(Run(Crossing));
    RunContinues(Crossing, [RecordPayment(request, "q")]);
    StepFrom(Run(Crossing), RecordPayment(request, "q"));
    assert Run(Crossing + [RecordPayment(request, "q")]).payments[1].status == AWAITING_VERIFICATION;
  }
}
