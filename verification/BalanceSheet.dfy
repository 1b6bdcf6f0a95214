/** Journal entries and the balance-sheet report (accounting/journal/journal.service.ts,
    accounting/accounting.controller.ts). */
module BalanceSheet {
  import opened Common

  datatype AccountType = ASSET | LIABILITY | EQUITY | INCOME | EXPENSE

  datatype Account = Account(id: Id, accountType: AccountType)

  datatype Line = Line(accountId: Id, debit: real, credit: real)

  datatype Entry = Entry(createdAt: int, lines: seq<Line>)

  // ---------------------------------------------------------------- journal entries

  function Debits(lines: seq<Line>): (r: seq<real>)
    ensures |r| == |lines|
  {
    seq(|lines|, i requires 0 <= i < |lines| => lines[i].debit)
  }

  function Credits(lines: seq<Line>): (r: seq<real>)
    ensures |r| == |lines|
  {
    seq(|lines|, i requires 0 <= i < |lines| => lines[i].credit)
  }

  predicate OneSided(l: Line) {
    (l.debit > 0.0 && l.credit == 0.0) || (l.debit == 0.0 && l.credit > 0.0)
  }

  /** A double entry: two lines or more, each on one side, both sides equal. */
  ghost predicate DoubleEntry(lines: seq<Line>) {
    && |lines| >= 2
    && (forall i :: 0 <= i < |lines| ==> OneSided(lines[i]))
    && Sum(Debits(lines)) == Sum(Credits(lines))
  }

  datatype LineError = TooFewLines | Negative | NotOneSided | Unbalanced

  /** normalizeAndValidateLines lets exactly the double entries through. */
  method NormalizeAndValidateLines(lines: seq<Line>) returns (r: Result<seq<Line>, LineError>)
    ensures r.Ok? <==> DoubleEntry(lines)
    ensures r.Ok? ==> r.value == lines
  {
    if |lines| < 2 {
      return Err(TooFewLines);
    }
    var totalDebit, totalCredit := 0.0, 0.0;
    var i := 0;
    while i < |lines|
      invariant i <= |lines|
      invariant forall j :: 0 <= j < i ==> OneSided(lines[j])
      invariant totalDebit == Sum(Debits(lines)[..i]) && totalCredit == Sum(Credits(lines)[..i])
    {
      var debit, credit := lines[i].debit, lines[i].credit;
      if debit < 0.0 || credit < 0.0 {
        return Err(Negative);
      }
      if (debit > 0.0) == (credit > 0.0) {
        return Err(NotOneSided);
      }
      SumSnoc(Debits(lines)[..i], debit);
      SumSnoc(Credits(lines)[..i], credit);
      assert Debits(lines)[..i + 1] == Debits(lines)[..i] + [debit];
      assert Credits(lines)[..i + 1] == Credits(lines)[..i] + [credit];
      totalDebit, totalCredit := totalDebit + debit, totalCredit + credit;
      i := i + 1;
    }
    assert Debits(lines)[..i] == Debits(lines) && Credits(lines)[..i] == Credits(lines);
    if totalDebit != totalCredit {
      return Err(Unbalanced);
    }
    r := Ok(lines);
  }

  /** The lines of the entries created up to a moment: entries are in or out as a whole. */
  function LinesUpTo(journal: seq<Entry>, asOf: int): seq<Line> {
    if journal == [] then []
    else (if journal[0].createdAt <= asOf then journal[0].lines else []) + LinesUpTo(journal[1..], asOf)
  }

  // ---------------------------------------------------------------- rounding

  /** Decimal.toFixed(2): to the nearest cent, halves away from zero. */
  function Cents(x: real): real {
    if x >= 0.0 then (x * 100.0 + 0.5).Floor as real / 100.0 else -((-x * 100.0 + 0.5).Floor as real / 100.0)
  }

  function FromCents(n: int): real {
    n as real / 100.0
  }

  ghost predicate WholeCents(x: real) {
    exists n: int :: x == FromCents(n)
  }

  lemma CentsIsOdd(x: real)
    ensures Cents(-x) == -Cents(x)
  {}

  lemma CentsIsNear(x: real)
    ensures Abs(Cents(x) - x) <= 0.005
    ensures WholeCents(Cents(x))
  {
    var n := if x >= 0.0 then (x * 100.0 + 0.5).Floor else -(-x * 100.0 + 0.5).Floor;
    assert Cents(x) == FromCents(n);
  }

  lemma {:induction false} CentsKeepsWholeCents(x: real)
    requires WholeCents(x)
    ensures Cents(x) == x
  {
    var n: int :| x == FromCents(n);
    assert x * 100.0 == n as real;
    if x >= 0.0 {
      assert (n as real + 0.5).Floor == n;
    } else {
      assert ((-n) as real + 0.5).Floor == -n;
    }
  }

  lemma {:induction false} SumOfWholeCents(xs: seq<real>)
    requires forall i :: 0 <= i < |xs| ==> WholeCents(xs[i])
    ensures WholeCents(Sum(xs))
  {
    if xs == [] {
      assert 0.0 == FromCents(0);
    } else {
      SumOfWholeCents(xs[1..]);
      var n: int :| xs[0] == FromCents(n);
      var m: int :| Sum(xs[1..]) == FromCents(m);
      assert Sum(xs) == FromCents(n + m);
    }
  }

  // ---------------------------------------------------------------- the report

  datatype Row = Row(account: Account, debit: real, credit: real)

  function OnAccount(lines: seq<Line>, id: Id): seq<Line> {
    if lines == [] then []
    else
      var last := |lines| - 1;
      OnAccount(lines[..last], id) + if lines[last].accountId == id then [lines[last]] else []
  }

  /** aggregateJournalLines: one row for each account of the given types, in the order of the accounts. */
  function Aggregate(accounts: seq<Account>, lines: seq<Line>, types: set<AccountType>): seq<Row> {
    if accounts == [] then []
    else
      var a := accounts[0];
      var own := OnAccount(lines, a.id);
      (if a.accountType in types then [Row(a, Sum(Debits(own)), Sum(Credits(own)))] else [])
      + Aggregate(accounts[1..], lines, types)
  }

  function AccountBalance(accountType: AccountType, debit: real, credit: real): real {
    if accountType == ASSET || accountType == EXPENSE then debit - credit else credit - debit
  }

  /** The balance as the report shows it. */
  function Balance(row: Row): real {
    Cents(AccountBalance(row.account.accountType, row.debit, row.credit))
  }

  function FindRow(rows: seq<Row>, id: Id): (i: nat)
    ensures i <= |rows| && (i < |rows| ==> rows[i].account.id == id)
    ensures forall j :: 0 <= j < i ==> rows[j].account.id != id
  {
    if rows == [] then 0 else if rows[0].account.id == id then 0 else 1 + FindRow(rows[1..], id)
  }

  ghost predicate DistinctRows(rows: seq<Row>) {
    forall i, j :: 0 <= i < j < |rows| ==> rows[i].account.id != rows[j].account.id
  }

  /** groupByAccount: rows of one account are added up at its first place. Rows that are one to an
      account, as aggregateJournalLines gives them, come out as they went in. */
  method GroupByAccount(rows: seq<Row>) returns (groups: seq<Row>)
    ensures DistinctRows(groups)
    ensures forall id :: Debit(groups, id) == Debit(rows, id) && Credit(groups, id) == Credit(rows, id)
    ensures DistinctRows(rows) ==> groups == rows
  {
    groups := [];
    var i := 0;
    while i < |rows|
      invariant i <= |rows| && DistinctRows(groups)
      invariant forall id :: Debit(groups, id) == Debit(rows[..i], id) && Credit(groups, id) == Credit(rows[..i], id)
      invariant DistinctRows(rows) ==> groups == rows[..i]
    {
      var row := rows[i];
      var k := FindRow(groups, row.account.id);
      ghost var before := groups;
      if k < |groups| {
        groups := groups[k := Row(groups[k].account, groups[k].debit + row.debit, groups[k].credit + row.credit)];
      } else {
        groups := groups + [row];
      }
      assert rows[..i + 1] == rows[..i] + [row];
      forall id ensures Debit(groups, id) == Debit(rows[..i + 1], id) && Credit(groups, id) == Credit(rows[..i + 1], id) {
        AddedRow(rows[..i], row, id);
        if k < |before| {
          RaisedRow(before, k, row, id);
        } else {
          AddedRow(before, row, id);
        }
      }
      i := i + 1;
    }
    assert rows[..i] == rows;
  }

  function DebitColumn(rows: seq<Row>, id: Id): (r: seq<real>)
    ensures |r| == |rows|
  {
    seq(|rows|, i requires 0 <= i < |rows| => if rows[i].account.id == id then rows[i].debit else 0.0)
  }

  function CreditColumn(rows: seq<Row>, id: Id): (r: seq<real>)
    ensures |r| == |rows|
  {
    seq(|rows|, i requires 0 <= i < |rows| => if rows[i].account.id == id then rows[i].credit else 0.0)
  }

  function Debit(rows: seq<Row>, id: Id): real {
    Sum(DebitColumn(rows, id))
  }

  function Credit(rows: seq<Row>, id: Id): real {
    Sum(CreditColumn(rows, id))
  }

  lemma AddedRow(rows: seq<Row>, row: Row, id: Id)
    ensures Debit(rows + [row], id) == Debit(rows, id) + if row.account.id == id then row.debit else 0.0
    ensures Credit(rows + [row], id) == Credit(rows, id) + if row.account.id == id then row.credit else 0.0
  {
    var d, c := if row.account.id == id then row.debit else 0.0, if row.account.id == id then row.credit else 0.0;
    assert DebitColumn(rows + [row], id) == DebitColumn(rows, id) + [d];
    assert CreditColumn(rows + [row], id) == CreditColumn(rows, id) + [c];
    SumSnoc(DebitColumn(rows, id), d);
    SumSnoc(CreditColumn(rows, id), c);
  }

  lemma RaisedRow(rows: seq<Row>, k: nat, row: Row, id: Id)
    requires k < |rows| && rows[k].account.id == row.account.id
    ensures var after := rows[k := Row(rows[k].account, rows[k].debit + row.debit, rows[k].credit + row.credit)];
      && Debit(after, id) == Debit(rows, id) + (if row.account.id == id then row.debit else 0.0)
      && Credit(after, id) == Credit(rows, id) + (if row.account.id == id then row.credit else 0.0)
  {
    var after := rows[k := Row(rows[k].account, rows[k].debit + row.debit, rows[k].credit + row.credit)];
    var ds, cs := DebitColumn(rows, id), CreditColumn(rows, id);
    var d, c := DebitColumn(after, id)[k], CreditColumn(after, id)[k];
    assert DebitColumn(after, id) == ds[k := d];
    assert CreditColumn(after, id) == cs[k := c];
    SumUpdate(ds, k, d);
    SumUpdate(cs, k, c);
  }

  // ---------------------------------------------------------------- the totals

  function OfType(rows: seq<Row>, accountType: AccountType): seq<Row> {
    if rows == [] then []
    else (if rows[0].account.accountType == accountType then [rows[0]] else []) + OfType(rows[1..], accountType)
  }

  function Balances(rows: seq<Row>): (r: seq<real>)
    ensures |r| == |rows|
  {
    seq(|rows|, i requires 0 <= i < |rows| => Balance(rows[i]))
  }

  /** sumBalances. */
  function SumBalances(balances: seq<real>): real {
    Cents(Sum(balances))
  }

  function RowOf(a: Account, lines: seq<Line>): Row {
    Row(a, Sum(Debits(OnAccount(lines, a.id))), Sum(Credits(OnAccount(lines, a.id))))
  }

  /** The shown balances of all accounts of one type, added up. */
  function TypeTotal(accounts: seq<Account>, lines: seq<Line>, accountType: AccountType): real {
    if accounts == [] then 0.0
    else
      (if accounts[0].accountType == accountType then Balance(RowOf(accounts[0], lines)) else 0.0)
      + TypeTotal(accounts[1..], lines, accountType)
  }

  ghost predicate DistinctAccounts(accounts: seq<Account>) {
    forall i, j :: 0 <= i < j < |accounts| ==> accounts[i].id != accounts[j].id
  }

  /** The three totals of the balance sheet as of a moment. */
  method Report(accounts: seq<Account>, journal: seq<Entry>, asOf: int)
    returns (assets: real, liabilities: real, equity: real)
    requires DistinctAccounts(accounts)
    ensures var lines := LinesUpTo(journal, asOf);
      && assets == TypeTotal(accounts, lines, ASSET)
      && liabilities == TypeTotal(accounts, lines, LIABILITY)
      && equity == TypeTotal(accounts, lines, EQUITY)
                 + TypeTotal(accounts, lines, INCOME) - TypeTotal(accounts, lines, EXPENSE)
  {
    var lines := LinesUpTo(journal, asOf);
    var sheetTypes, resultTypes := {ASSET, LIABILITY, EQUITY}, {INCOME, EXPENSE};
    AggregateIsDistinct(accounts, lines, sheetTypes);
    AggregateIsDistinct(accounts, lines, resultTypes);
    var grouped := GroupByAccount(Aggregate(accounts, lines, sheetTypes));
    var equityBalances := Balances(OfType(grouped, EQUITY));
    var profitAndLoss := GroupByAccount(Aggregate(accounts, lines, resultTypes));
    var netIncome := NetIncome(profitAndLoss);
    AggregateTotals(accounts, lines, resultTypes, INCOME);
    AggregateTotals(accounts, lines, resultTypes, EXPENSE);
    AggregateTotals(accounts, lines, sheetTypes, ASSET);
    AggregateTotals(accounts, lines, sheetTypes, LIABILITY);
    AggregateTotals(accounts, lines, sheetTypes, EQUITY);
    WholeDifference(Sum(Balances(OfType(profitAndLoss, INCOME))), Sum(Balances(OfType(profitAndLoss, EXPENSE))));
    CentsKeepsWholeCents(netIncome);
    WholeSum(Sum(equityBalances), netIncome);
    if netIncome != 0.0 {
      SumSnoc(equityBalances, Cents(netIncome));
      equityBalances := equityBalances + [Cents(netIncome)];
    }
    CentsKeepsWholeCents(Sum(equityBalances));
    assets := SumBalances(Balances(OfType(grouped, ASSET)));
    liabilities := SumBalances(Balances(OfType(grouped, LIABILITY)));
    equity := SumBalances(equityBalances);
  }

  method NetIncome(rows: seq<Row>) returns (netIncome: real)
    requires forall i :: 0 <= i < |rows| ==> rows[i].account.accountType == INCOME || rows[i].account.accountType == EXPENSE
    ensures netIncome == Sum(Balances(OfType(rows, INCOME))) - Sum(Balances(OfType(rows, EXPENSE)))
  {
    netIncome := 0.0;
    var i := 0;
    while i < |rows|
      invariant i <= |rows|
      invariant netIncome + Sum(Balances(OfType(rows[i..], INCOME))) - Sum(Balances(OfType(rows[i..], EXPENSE)))
             == Sum(Balances(OfType(rows, INCOME))) - Sum(Balances(OfType(rows, EXPENSE)))
    {
      FirstOfType(rows[i..], INCOME);
      FirstOfType(rows[i..], EXPENSE);
      assert rows[i..][1..] == rows[i + 1..];
      var balance := Balance(rows[i]);
      netIncome := netIncome + if rows[i].account.accountType == INCOME then balance else -balance;
      i := i + 1;
    }
  }

  lemma FirstOfType(rows: seq<Row>, accountType: AccountType)
    requires rows != []
    ensures Sum(Balances(OfType(rows, accountType)))
         == (if rows[0].account.accountType == accountType then Balance(rows[0]) else 0.0)
            + Sum(Balances(OfType(rows[1..], accountType)))
  {
    if rows[0].account.accountType == accountType {
      assert Balances(OfType(rows, accountType))[1..] == Balances(OfType(rows[1..], accountType));
    } else {
      assert OfType(rows, accountType) == OfType(rows[1..], accountType);
    }
  }

  lemma WholeDifference(x: real, y: real)
    requires WholeCents(x) && WholeCents(y)
    ensures WholeCents(x - y)
  {
    var n: int :| x == FromCents(n);
    var m: int :| y == FromCents(m);
    assert x - y == FromCents(n - m);
  }

  lemma WholeSum(x: real, y: real)
    requires WholeCents(x) && WholeCents(y)
    ensures WholeCents(x + y)
  {
    var n: int :| x == FromCents(n);
    var m: int :| y == FromCents(m);
    assert x + y == FromCents(n + m);
  }

  lemma {:induction false} AggregateNames(accounts: seq<Account>, lines: seq<Line>, types: set<AccountType>, i: nat)
    requires i < |Aggregate(accounts, lines, types)|
    ensures var row := Aggregate(accounts, lines, types)[i];
      && row.account.accountType in types
      && exists j :: 0 <= j < |accounts| && accounts[j] == row.account
  {
    var rest := Aggregate(accounts[1..], lines, types);
    if accounts[0].accountType !in types {
      AggregateNames(accounts[1..], lines, types, i);
      var j :| 0 <= j < |accounts[1..]| && accounts[1..][j] == rest[i].account;
      assert accounts[j + 1] == rest[i].account;
    } else if i > 0 {
      AggregateNames(accounts[1..], lines, types, i - 1);
      var j :| 0 <= j < |accounts[1..]| && accounts[1..][j] == rest[i - 1].account;
      assert accounts[j + 1] == rest[i - 1].account;
    }
  }

  lemma {:induction false} AggregateIsDistinct(accounts: seq<Account>, lines: seq<Line>, types: set<AccountType>)
    requires DistinctAccounts(accounts)
    ensures DistinctRows(Aggregate(accounts, lines, types))
    ensures forall i :: 0 <= i < |Aggregate(accounts, lines, types)| ==>
      Aggregate(accounts, lines, types)[i].account.accountType in types
  {
    if accounts != [] {
      var rest := Aggregate(accounts[1..], lines, types);
      AggregateIsDistinct(accounts[1..], lines, types);
      forall i | 0 <= i < |rest| ensures rest[i].account.id != accounts[0].id {
        AggregateNames(accounts[1..], lines, types, i);
      }
    }
  }

  lemma {:induction false} AggregateTotals(accounts: seq<Account>, lines: seq<Line>, types: set<AccountType>,
                                           accountType: AccountType)
    requires accountType in types
    ensures var balances := Balances(OfType(Aggregate(accounts, lines, types), accountType));
      && Sum(balances) == TypeTotal(accounts, lines, accountType)
      && WholeCents(Sum(balances)) && SumBalances(balances) == Sum(balances)
  {
    var rows := Aggregate(accounts, lines, types);
    var balances := Balances(OfType(rows, accountType));
    forall i | 0 <= i < |balances| ensures WholeCents(balances[i]) {
      var row := OfType(rows, accountType)[i];
      CentsIsNear(AccountBalance(row.account.accountType, row.debit, row.credit));
    }
    SumOfWholeCents(balances);
    CentsKeepsWholeCents(Sum(balances));
    if accounts != [] {
      AggregateTotals(accounts[1..], lines, types, accountType);
      if accounts[0].accountType in types {
        FirstOfType(rows, accountType);
        assert rows[1..] == Aggregate(accounts[1..], lines, types);
      } else {
        assert rows == Aggregate(accounts[1..], lines, types);
      }
    }
  }

  // ---------------------------------------------------------------- the balance-sheet equation

  /** Debit less credit on one account. */
  function Net(lines: seq<Line>, id: Id): real {
    Sum(Debits(OnAccount(lines, id))) - Sum(Credits(OnAccount(lines, id)))
  }

  function NetTotal(accounts: seq<Account>, lines: seq<Line>): real {
    if accounts == [] then 0.0 else Net(lines, accounts[0].id) + NetTotal(accounts[1..], lines)
  }

  function ShownTotal(accounts: seq<Account>, lines: seq<Line>): real {
    if accounts == [] then 0.0 else Cents(Net(lines, accounts[0].id)) + ShownTotal(accounts[1..], lines)
  }

  ghost predicate Charted(accounts: seq<Account>, lines: seq<Line>) {
    forall i :: 0 <= i < |lines| ==> exists j :: 0 <= j < |accounts| && accounts[j].id == lines[i].accountId
  }

  lemma NetOfOneMore(lines: seq<Line>, l: Line, id: Id)
    ensures Net(lines + [l], id) == Net(lines, id) + if l.accountId == id then l.debit - l.credit else 0.0
  {
    var own := OnAccount(lines, id);
    assert (lines + [l])[..|lines|] == lines;
    if l.accountId == id {
      assert Debits(own + [l]) == Debits(own) + [l.debit];
      assert Credits(own + [l]) == Credits(own) + [l.credit];
      SumSnoc(Debits(own), l.debit);
      SumSnoc(Credits(own), l.credit);
    } else {
      assert OnAccount(lines + [l], id) == own;
    }
  }

  lemma {:induction false} NetTotalOfOneMore(accounts: seq<Account>, lines: seq<Line>, l: Line, k: nat)
    requires DistinctAccounts(accounts) && k <= |accounts|
    requires k < |accounts| ==> accounts[k].id == l.accountId
    requires forall j :: 0 <= j < |accounts| && j != k ==> accounts[j].id != l.accountId
    ensures NetTotal(accounts, lines + [l])
         == NetTotal(accounts, lines) + if k < |accounts| then l.debit - l.credit else 0.0
  {
    if accounts != [] {
      NetOfOneMore(lines, l, accounts[0].id);
      NetTotalOfOneMore(accounts[1..], lines, l, if k == 0 then |accounts| - 1 else k - 1);
    }
  }

  lemma {:induction false} NetTotalOfNothing(accounts: seq<Account>)
    ensures NetTotal(accounts, []) == 0.0
  {
    if accounts != [] {
      NetTotalOfNothing(accounts[1..]);
    }
  }

  /** Regrouping the lines by account loses nothing. */
  lemma {:induction false} NetTotalIsLineTotal(accounts: seq<Account>, lines: seq<Line>)
    requires DistinctAccounts(accounts) && Charted(accounts, lines)
    ensures NetTotal(accounts, lines) == Sum(Debits(lines)) - Sum(Credits(lines))
  {
    if lines == [] {
      NetTotalOfNothing(accounts);
    } else {
      var last := |lines| - 1;
      var front, l := lines[..last], lines[last];
      NetTotalIsLineTotal(accounts, front);
      var k :| 0 <= k < |accounts| && accounts[k].id == l.accountId;
      NetTotalOfOneMore(accounts, front, l, k);
      assert lines == front + [l];
      assert Debits(lines) == Debits(front) + [l.debit];
      assert Credits(lines) == Credits(front) + [l.credit];
      SumSnoc(Debits(front), l.debit);
      SumSnoc(Credits(front), l.credit);
    }
  }

  lemma JoinedSides(x: seq<Line>, y: seq<Line>)
    ensures Sum(Debits(x + y)) == Sum(Debits(x)) + Sum(Debits(y))
    ensures Sum(Credits(x + y)) == Sum(Credits(x)) + Sum(Credits(y))
  {
    assert Debits(x + y) == Debits(x) + Debits(y);
    assert Credits(x + y) == Credits(x) + Credits(y);
    SumConcat(Debits(x), Debits(y));
    SumConcat(Credits(x), Credits(y));
  }

  /** The lines of double entries, cut at any moment, balance. */
  lemma {:induction false} CutBalances(journal: seq<Entry>, asOf: int)
    requires forall e :: 0 <= e < |journal| ==> DoubleEntry(journal[e].lines)
    ensures Sum(Debits(LinesUpTo(journal, asOf))) == Sum(Credits(LinesUpTo(journal, asOf)))
  {
    if journal != [] {
      CutBalances(journal[1..], asOf);
      assert DoubleEntry(journal[0].lines);
      JoinedSides(if journal[0].createdAt <= asOf then journal[0].lines else [], LinesUpTo(journal[1..], asOf));
    }
  }

  /** Every account shows on its own side, rounded; the sheet's difference is the sum of these. */
  lemma {:induction false} DifferenceIsShownTotal(accounts: seq<Account>, lines: seq<Line>)
    ensures TypeTotal(accounts, lines, ASSET) - TypeTotal(accounts, lines, LIABILITY)
            - (TypeTotal(accounts, lines, EQUITY) + TypeTotal(accounts, lines, INCOME)
               - TypeTotal(accounts, lines, EXPENSE))
         == ShownTotal(accounts, lines)
  {
    if accounts != [] {
      DifferenceIsShownTotal(accounts[1..], lines);
      CentsIsOdd(Net(lines, accounts[0].id));
    }
  }

  lemma {:induction false} RoundingIsBounded(accounts: seq<Account>, lines: seq<Line>)
    ensures Abs(ShownTotal(accounts, lines) - NetTotal(accounts, lines)) <= 0.005 * |accounts| as real
  {
    if accounts != [] {
      RoundingIsBounded(accounts[1..], lines);
      CentsIsNear(Net(lines, accounts[0].id));
    }
  }

  lemma {:induction false} WholeCentsRoundToThemselves(accounts: seq<Account>, lines: seq<Line>)
    requires forall i :: 0 <= i < |accounts| ==> WholeCents(Net(lines, accounts[i].id))
    ensures ShownTotal(accounts, lines) == NetTotal(accounts, lines)
  {
    if accounts != [] {
      WholeCentsRoundToThemselves(accounts[1..], lines);
      CentsKeepsWholeCents(Net(lines, accounts[0].id));
    }
  }

  lemma {:induction false} WholeNet(lines: seq<Line>, id: Id)
    requires forall i :: 0 <= i < |lines| ==> WholeCents(lines[i].debit) && WholeCents(lines[i].credit)
    ensures WholeCents(Net(lines, id))
  {
    if lines == [] {
      assert Net(lines, id) == FromCents(0);
    } else {
      var last := |lines| - 1;
      WholeNet(lines[..last], id);
      assert lines == lines[..last] + [lines[last]];
      NetOfOneMore(lines[..last], lines[last], id);
      WholeDifference(lines[last].debit, lines[last].credit);
      if lines[last].accountId == id {
        WholeSum(Net(lines[..last], id), lines[last].debit - lines[last].credit);
      }
    }
  }

  ghost predicate InWholeCents(lines: seq<Line>) {
    forall i :: 0 <= i < |lines| ==> WholeCents(lines[i].debit) && WholeCents(lines[i].credit)
  }

  lemma {:induction false} ShownTotalIsSmall(accounts: seq<Account>, lines: seq<Line>)
    requires DistinctAccounts(accounts) && Charted(accounts, lines) && Sum(Debits(lines)) == Sum(Credits(lines))
    ensures Abs(ShownTotal(accounts, lines)) <= 0.005 * |accounts| as real
    ensures InWholeCents(lines) ==> ShownTotal(accounts, lines) == 0.0
  {
    NetTotalIsLineTotal(accounts, lines);
    RoundingIsBounded(accounts, lines);
    if InWholeCents(lines) {
      forall i | 0 <= i < |accounts| ensures WholeCents(Net(lines, accounts[i].id)) {
        WholeNet(lines, accounts[i].id);
      }
      WholeCentsRoundToThemselves(accounts, lines);
    }
  }

  /** For any journal of double entries and any cut, assets differ from liabilities and equity by at
      most half a cent an account, and not at all when all amounts are whole cents. */
  lemma {:induction false} SheetBalances(accounts: seq<Account>, journal: seq<Entry>, asOf: int)
    requires DistinctAccounts(accounts) && Charted(accounts, LinesUpTo(journal, asOf))
    requires forall e :: 0 <= e < |journal| ==> DoubleEntry(journal[e].lines)
    ensures var lines := LinesUpTo(journal, asOf);
      var assets, liabilities := TypeTotal(accounts, lines, ASSET), TypeTotal(accounts, lines, LIABILITY);
      var equity := TypeTotal(accounts, lines, EQUITY)
                  + TypeTotal(accounts, lines, INCOME) - TypeTotal(accounts, lines, EXPENSE);
      && Abs(assets - (liabilities + equity)) <= 0.005 * |accounts| as real
      && (InWholeCents(lines) ==> assets == liabilities + equity)
  {
    CutBalances(journal, asOf);
    DifferenceIsShownTotal(accounts, LinesUpTo(journal, asOf));
    ShownTotalIsSmall(accounts, LinesUpTo(journal, asOf));
  }

  function Own(l: Line, id: Id): seq<Line> {
    if l.accountId == id then [l] else []
  }

  lemma OnAccountOfThree(x: Line, y: Line, z: Line, id: Id)
    ensures OnAccount([x, y, z], id) == Own(x, id) + Own(y, id) + Own(z, id)
  {
    assert [x, y, z][..2] == [x, y] && [x, y][..1] == [x] && [x][..0] == [];
    assert OnAccount([x], id) == Own(x, id);
    assert OnAccount([x, y], id) == Own(x, id) + Own(y, id);
  }

  lemma RowOfSingleLine(a: Account, lines: seq<Line>, l: Line)
    requires OnAccount(lines, a.id) == [l]
    ensures RowOf(a, lines) == Row(a, l.debit, l.credit)
  {
    SumOfOne(l.debit);
    SumOfOne(l.credit);
    assert Debits([l]) == [l.debit] && Credits([l]) == [l.credit];
  }

  lemma TotalOfThree(a: Account, b: Account, c: Account, lines: seq<Line>, accountType: AccountType)
    ensures TypeTotal([a, b, c], lines, accountType)
         == (if a.accountType == accountType then Balance(RowOf(a, lines)) else 0.0)
            + (if b.accountType == accountType then Balance(RowOf(b, lines)) else 0.0)
            + (if c.accountType == accountType then Balance(RowOf(c, lines)) else 0.0)
  {
    assert [a, b, c][1..] == [b, c] && [b, c][1..] == [c] && [c][1..] == [];
    assert TypeTotal([c][1..], lines, accountType) == 0.0;
    assert TypeTotal([c], lines, accountType)
        == if c.accountType == accountType then Balance(RowOf(c, lines)) else 0.0;
  }

  const Chart := [Account("a", ASSET), Account("b", LIABILITY), Account("c", LIABILITY)]

  const HalfACent := [Line("a", 0.005, 0.0), Line("b", 0.0, 0.0025), Line("c", 0.0, 0.0025)]

  lemma HalfACentIsADoubleEntry()
    ensures DoubleEntry(HalfACent)
  {
    var debits, credits := Debits(HalfACent), Credits(HalfACent);
    assert debits == [0.005] + [0.0] + [0.0] && credits == [0.0] + [0.0025] + [0.0025];
    SumOfOne(0.005);
    SumOfOne(0.0);
    SumSnoc([0.005], 0.0);
    SumSnoc([0.005] + [0.0], 0.0);
    SumSnoc([0.0], 0.0025);
    SumSnoc([0.0] + [0.0025], 0.0025);
  }

  lemma HalfACentIsNotWhole()
    ensures !InWholeCents(HalfACent)
  {
    forall n: int ensures 0.005 != FromCents(n) {
      assert n as real != 0.5;
    }
    assert !WholeCents(HalfACent[0].debit);
  }

  lemma HalfACentShowsOne()
    ensures TypeTotal(Chart, HalfACent, ASSET) == 0.01 && TypeTotal(Chart, HalfACent, LIABILITY) == 0.0
  {
    var a, b, c := Account("a", ASSET), Account("b", LIABILITY), Account("c", LIABILITY);
    var x, y, z := Line("a", 0.005, 0.0), Line("b", 0.0, 0.0025), Line("c", 0.0, 0.0025);
    OnAccountOfThree(x, y, z, "a");
    OnAccountOfThree(x, y, z, "b");
    OnAccountOfThree(x, y, z, "c");
    RowOfSingleLine(a, [x, y, z], x);
    RowOfSingleLine(b, [x, y, z], y);
    RowOfSingleLine(c, [x, y, z], z);
    TotalOfThree(a, b, c, [x, y, z], ASSET);
    TotalOfThree(a, b, c, [x, y, z], LIABILITY);
  }

  /** For amounts finer than a cent the bound is not idle: a double entry of half a cent over two accounts
      shows as one cent of difference. Lines kept in columns of two decimals are never that fine. */
  lemma {:induction false} RoundingCanShow()
    ensures DoubleEntry(HalfACent) && !InWholeCents(HalfACent)
    ensures TypeTotal(Chart, HalfACent, ASSET) == 0.01 && TypeTotal(Chart, HalfACent, LIABILITY) == 0.0
  {
    HalfACentIsADoubleEntry();
    HalfACentIsNotWhole();
    HalfACentShowsOne();
  }
}
