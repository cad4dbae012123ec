// The two money reports of order.repository.ts: one over all selected orders,
// one grouped by the shipper's company name.
module Reports {
  import opened Prelude
  import opened Store

  // An SQL value of a numeric column: NULL, or a number that may be 'NaN'.
  datatype Cell = Null | Number(value: Money)

  datatype Row = Row(status: OrderStatus, invoiced: bool, due: Option<int>, salePrice: Cell, shipper: Option<string>)

  // The four sums, named by what their SQL selects.
  datatype Column = Revenue | PaidInvoices | DueAfterNow | DueBeforeNow

  function CellOf(row: Row, now: int, column: Column): Cell {
    match column
    case Revenue => if row.salePrice.Number? && !row.salePrice.value.NaN? then row.salePrice else Number(ZERO)
    case PaidInvoices => if row.status == Paid && row.invoiced then row.salePrice else Number(ZERO)
    case DueAfterNow =>
      if row.status != Paid && row.invoiced && row.due.Some? && row.due.value > now then row.salePrice else Number(ZERO)
    case DueBeforeNow =>
      if row.status != Paid && row.invoiced && row.due.Some? && row.due.value < now then row.salePrice else Number(ZERO)
  }

  // SUM passes over NULLs and is NULL when there is nothing else.
  function SqlAdd(a: Cell, b: Cell): Cell {
    if a.Null? then b else if b.Null? then a else Number(Add(a.value, b.value))
  }

  function SqlSum(rows: seq<Row>, now: int, column: Column): Cell {
    if rows == [] then Null
    else SqlAdd(CellOf(rows[0], now, column), SqlSum(rows[1..], now, column))
  }

  // parseFloat of the raw answer.
  function ParseFloat(c: Cell): Money {
    if c.Null? then NaN else c.value
  }

  datatype Report = Report(totalRevenue: Money, totalPaid: Money, totalDue: Money, totalPastDue: Money)

  // The labels as the two queries attach them: what is due after now is
  // totalPastDue in the one and totalDue in the other.
  function GeneralReport(rows: seq<Row>, now: int): Report {
    Report(ParseFloat(SqlSum(rows, now, Revenue)), ParseFloat(SqlSum(rows, now, PaidInvoices)),
      ParseFloat(SqlSum(rows, now, DueBeforeNow)), ParseFloat(SqlSum(rows, now, DueAfterNow)))
  }

  function ShipperReport(rows: seq<Row>, now: int, shipper: Option<string>): Report {
    var group := Group(rows, shipper);
    Report(ParseFloat(SqlSum(group, now, Revenue)), ParseFloat(SqlSum(group, now, PaidInvoices)),
      ParseFloat(SqlSum(group, now, DueAfterNow)), ParseFloat(SqlSum(group, now, DueBeforeNow)))
  }

  function Group(rows: seq<Row>, shipper: Option<string>): (group: seq<Row>) {
    if rows == [] then []
    else (if rows[0].shipper == shipper then [rows[0]] else []) + Group(rows[1..], shipper)
  }

  function Without(rows: seq<Row>, shipper: Option<string>): seq<Row> {
    if rows == [] then []
    else (if rows[0].shipper == shipper then [] else [rows[0]]) + Without(rows[1..], shipper)
  }

  // The groups of the answer, in any order, each once, the null shipper included.
  ghost predicate Lists(shippers: seq<Option<string>>, rows: seq<Row>) {
    NoDuplicates(shippers) && forall s :: s in shippers <==> s in ShippersOf(rows)
  }

  function ShippersOf(rows: seq<Row>): set<Option<string>> {
    if rows == [] then {} else {rows[0].shipper} + ShippersOf(rows[1..])
  }

  function SumOfGroups(rows: seq<Row>, now: int, column: Column, shippers: seq<Option<string>>): Cell {
    if shippers == [] then Null
    else SqlAdd(SqlSum(Group(rows, shippers[0]), now, column), SumOfGroups(rows, now, column, shippers[1..]))
  }

  // ------------------------------------------------------------------------

  lemma SqlAddLaws(a: Cell, b: Cell, c: Cell)
    ensures SqlAdd(a, b) == SqlAdd(b, a)
    ensures SqlAdd(SqlAdd(a, b), c) == SqlAdd(a, SqlAdd(b, c))
  {
  }

  lemma {:induction false} SplitOffGroup(rows: seq<Row>, now: int, column: Column, shipper: Option<string>)
    ensures SqlSum(rows, now, column)
      == SqlAdd(SqlSum(Group(rows, shipper), now, column), SqlSum(Without(rows, shipper), now, column))
  {
    if rows != [] {
      var cell, rest := CellOf(rows[0], now, column), rows[1..];
      SplitOffGroup(rest, now, column, shipper);
      var g, w := Group(rest, shipper), Without(rest, shipper);
      if rows[0].shipper == shipper {
        assert ([rows[0]] + g)[1..] == g && [] + w == w;
        SqlAddLaws(cell, SqlSum(g, now, column), SqlSum(w, now, column));
      } else {
        assert ([rows[0]] + w)[1..] == w && [] + g == g;
        SqlAddLaws(cell, SqlSum(g, now, column), SqlSum(w, now, column));
        SqlAddLaws(SqlSum(g, now, column), cell, SqlSum(w, now, column));
      }
    }
  }

  lemma {:induction false} OtherGroupStays(rows: seq<Row>, gone: Option<string>, shipper: Option<string>)
    requires shipper != gone
    ensures Group(Without(rows, gone), shipper) == Group(rows, shipper)
  {
    if rows != [] {
      OtherGroupStays(rows[1..], gone, shipper);
      var w := Without(rows[1..], gone);
      assert ([rows[0]] + w)[1..] == w && [] + w == w;
    }
  }

  lemma {:induction false} OtherGroupsStay(rows: seq<Row>, now: int, column: Column, gone: Option<string>,
    shippers: seq<Option<string>>)
    requires gone !in shippers
    ensures SumOfGroups(Without(rows, gone), now, column, shippers) == SumOfGroups(rows, now, column, shippers)
  {
    if shippers != [] {
      OtherGroupStays(rows, gone, shippers[0]);
      OtherGroupsStay(rows, now, column, gone, shippers[1..]);
    }
  }

  lemma {:induction false} WithoutShippers(rows: seq<Row>, gone: Option<string>)
    ensures ShippersOf(Without(rows, gone)) == ShippersOf(rows) - {gone}
  {
    if rows != [] {
      WithoutShippers(rows[1..], gone);
      var w := Without(rows[1..], gone);
      assert ([rows[0]] + w)[1..] == w && [] + w == w;
    }
  }

  lemma NoGroupsIfNoRows(shippers: seq<Option<string>>, rows: seq<Row>)
    requires Lists(shippers, rows)
    ensures shippers == [] <==> rows == []
  {
    if rows != [] {
      assert rows[0].shipper in shippers;
    }
    if shippers != [] {
      assert shippers[0] in ShippersOf(rows);
    }
  }

  // Column by column, the groups add up to the ungrouped sum, whatever the
  // prices are: NULL and NaN included.
  lemma {:induction false} GroupsAddUp(rows: seq<Row>, now: int, column: Column, shippers: seq<Option<string>>)
    requires Lists(shippers, rows)
    ensures SumOfGroups(rows, now, column, shippers) == SqlSum(rows, now, column)
    decreases shippers
  {
    NoGroupsIfNoRows(shippers, rows);
    if shippers != [] {
      var s, rest := shippers[0], Without(rows, shippers[0]);
      SplitOffGroup(rows, now, column, s);
      WithoutShippers(rows, s);
      assert s !in shippers[1..];
      assert forall k :: k in shippers <==> k == s || k in shippers[1..];
      GroupsAddUp(rest, now, column, shippers[1..]);
      OtherGroupsStay(rows, now, column, s, shippers[1..]);
    }
  }

  // ------------------------------------------------------------------------
  // What the callers read: the parsed answers of the two reports.

  function ReportedSum(rows: seq<Row>, now: int, column: Column, shippers: seq<Option<string>>): Money {
    if shippers == [] then ZERO
    else Add(ParseFloat(SqlSum(Group(rows, shippers[0]), now, column)), ReportedSum(rows, now, column, shippers[1..]))
  }

  // No group of the answer is without any number in the column.
  predicate NoEmptyGroup(rows: seq<Row>, now: int, column: Column, shippers: seq<Option<string>>) {
    shippers == []
    || (SqlSum(Group(rows, shippers[0]), now, column).Number? && NoEmptyGroup(rows, now, column, shippers[1..]))
  }

  lemma {:induction false} ReportedIsParsed(rows: seq<Row>, now: int, column: Column, shippers: seq<Option<string>>)
    ensures NoEmptyGroup(rows, now, column, shippers) && shippers != [] ==>
      ReportedSum(rows, now, column, shippers) == ParseFloat(SumOfGroups(rows, now, column, shippers))
    ensures !NoEmptyGroup(rows, now, column, shippers) ==> ReportedSum(rows, now, column, shippers) == NaN
    decreases shippers
  {
    if shippers != [] {
      ReportedIsParsed(rows, now, column, shippers[1..]);
      AddLaws(ParseFloat(SqlSum(Group(rows, shippers[0]), now, column)), ZERO, ZERO);
    }
  }

  // The parsed group totals of a column add up to the parsed general total
  // exactly when some order was selected and either no group lacks a number in
  // that column or the general total is not a number itself.
  lemma ReportsAgree(rows: seq<Row>, now: int, column: Column, shippers: seq<Option<string>>)
    requires Lists(shippers, rows)
    ensures ReportedSum(rows, now, column, shippers) == ParseFloat(SqlSum(rows, now, column))
      <==> rows != [] && (NoEmptyGroup(rows, now, column, shippers) || ParseFloat(SqlSum(rows, now, column)).NaN?)
  {
    GroupsAddUp(rows, now, column, shippers);
    ReportedIsParsed(rows, now, column, shippers);
    NoGroupsIfNoRows(shippers, rows);
  }

  // Every selected order has a price.
  predicate Priced(rows: seq<Row>) {
    forall i :: 0 <= i < |rows| ==> rows[i].salePrice.Number?
  }

  lemma {:induction false} PricedSum(rows: seq<Row>, now: int, column: Column)
    requires Priced(rows) && rows != []
    ensures SqlSum(rows, now, column).Number?
  {
    if |rows| > 1 {
      PricedSum(rows[1..], now, column);
    }
  }

  lemma {:induction false} PricedGroup(rows: seq<Row>, shipper: Option<string>)
    requires Priced(rows)
    ensures Priced(Group(rows, shipper))
    ensures shipper in ShippersOf(rows) ==> Group(rows, shipper) != []
  {
    if rows != [] {
      PricedGroup(rows[1..], shipper);
    }
  }

  // The totals of the shipper reports, added up.
  function TotalDue(rows: seq<Row>, now: int, shippers: seq<Option<string>>): Money {
    if shippers == [] then ZERO
    else Add(ShipperReport(rows, now, shippers[0]).totalDue, TotalDue(rows, now, shippers[1..]))
  }

  function TotalPastDue(rows: seq<Row>, now: int, shippers: seq<Option<string>>): Money {
    if shippers == [] then ZERO
    else Add(ShipperReport(rows, now, shippers[0]).totalPastDue, TotalPastDue(rows, now, shippers[1..]))
  }

  function TotalPaid(rows: seq<Row>, now: int, shippers: seq<Option<string>>): Money {
    if shippers == [] then ZERO
    else Add(ShipperReport(rows, now, shippers[0]).totalPaid, TotalPaid(rows, now, shippers[1..]))
  }

  function TotalRevenue(rows: seq<Row>, now: int, shippers: seq<Option<string>>): Money {
    if shippers == [] then ZERO
    else Add(ShipperReport(rows, now, shippers[0]).totalRevenue, TotalRevenue(rows, now, shippers[1..]))
  }

  lemma {:induction false} TotalsAreColumns(rows: seq<Row>, now: int, shippers: seq<Option<string>>)
    ensures TotalRevenue(rows, now, shippers) == ReportedSum(rows, now, Revenue, shippers)
    ensures TotalPaid(rows, now, shippers) == ReportedSum(rows, now, PaidInvoices, shippers)
    ensures TotalDue(rows, now, shippers) == ReportedSum(rows, now, DueAfterNow, shippers)
    ensures TotalPastDue(rows, now, shippers) == ReportedSum(rows, now, DueBeforeNow, shippers)
  {
    if shippers != [] {
      TotalsAreColumns(rows, now, shippers[1..]);
    }
  }

  lemma PricedColumn(rows: seq<Row>, now: int, column: Column, shippers: seq<Option<string>>)
    requires Lists(shippers, rows) && Priced(rows) && rows != []
    ensures ReportedSum(rows, now, column, shippers) == ParseFloat(SqlSum(rows, now, column))
  {
    ReportsAgree(rows, now, column, shippers);
    PricedGroups(rows, now, column, shippers);
  }

  lemma {:induction false} PricedGroups(rows: seq<Row>, now: int, column: Column, shippers: seq<Option<string>>)
    requires Priced(rows) && forall s :: s in shippers ==> s in ShippersOf(rows)
    ensures NoEmptyGroup(rows, now, column, shippers)
  {
    if shippers != [] {
      PricedGroup(rows, shippers[0]);
      PricedSum(Group(rows, shippers[0]), now, column);
      PricedGroups(rows, now, column, shippers[1..]);
    }
  }

  // With a price on every order, revenue and paid of the shipper report add up
  // to the general report; its due adds up to the general past due, and its past
  // due to the general due: the two labels are exchanged.
  lemma ShippersAddUpWithLabelsExchanged(rows: seq<Row>, now: int, shippers: seq<Option<string>>)
    requires Lists(shippers, rows) && Priced(rows) && rows != []
    ensures TotalRevenue(rows, now, shippers) == GeneralReport(rows, now).totalRevenue
    ensures TotalPaid(rows, now, shippers) == GeneralReport(rows, now).totalPaid
    ensures TotalDue(rows, now, shippers) == GeneralReport(rows, now).totalPastDue
    ensures TotalPastDue(rows, now, shippers) == GeneralReport(rows, now).totalDue
  {
    TotalsAreColumns(rows, now, shippers);
    PricedColumn(rows, now, Revenue, shippers);
    PricedColumn(rows, now, PaidInvoices, shippers);
    PricedColumn(rows, now, DueAfterNow, shippers);
    PricedColumn(rows, now, DueBeforeNow, shippers);
  }

  // At a given time the two reports agree under their own labels when the two
  // amounts happen to be equal.
  ghost predicate LabelsAgree(rows: seq<Row>, now: int, shippers: seq<Option<string>>) {
    && TotalDue(rows, now, shippers) == GeneralReport(rows, now).totalDue
    && TotalPastDue(rows, now, shippers) == GeneralReport(rows, now).totalPastDue
  }

  lemma LabelsAgreeOnEqualAmounts(rows: seq<Row>, now: int, shippers: seq<Option<string>>)
    requires Lists(shippers, rows) && Priced(rows) && rows != []
    ensures LabelsAgree(rows, now, shippers)
      <==> ParseFloat(SqlSum(rows, now, DueBeforeNow)) == ParseFloat(SqlSum(rows, now, DueAfterNow))
  {
    ShippersAddUpWithLabelsExchanged(rows, now, shippers);
  }

  predicate NonNegativeRow(row: Row) {
    row.salePrice.Number? && row.salePrice.value.Amount? && row.salePrice.value.value >= 0.0
  }

  predicate NonNegative(rows: seq<Row>) {
    forall i :: 0 <= i < |rows| ==> NonNegativeRow(rows[i])
  }

  // The same, row after row.
  predicate EachNonNegative(rows: seq<Row>) {
    rows == [] || (NonNegativeRow(rows[0]) && EachNonNegative(rows[1..]))
  }

  lemma {:induction false} NonNegativeIsEach(rows: seq<Row>)
    requires NonNegative(rows)
    ensures EachNonNegative(rows)
  {
    if rows != [] {
      NonNegativeIsEach(rows[1..]);
    }
  }

  // An invoice is paid, or due, or past due, or none of them: the three never
  // exceed the revenue of the same orders, so neither in a group nor overall.
  lemma InvoicesWithinRevenue(rows: seq<Row>, now: int)
    requires NonNegative(rows) && rows != []
    ensures Within(GeneralReport(rows, now))
  {
    SumsWithin(rows, now);
  }

  predicate Within(r: Report) {
    && r.totalRevenue.Amount? && r.totalPaid.Amount? && r.totalDue.Amount? && r.totalPastDue.Amount?
    && r.totalPaid.value + r.totalDue.value + r.totalPastDue.value <= r.totalRevenue.value
  }

  predicate CellsWithin(revenue: Cell, paid: Cell, after: Cell, before: Cell) {
    && revenue.Number? && paid.Number? && after.Number? && before.Number?
    && revenue.value.Amount? && paid.value.Amount? && after.value.Amount? && before.value.Amount?
    && paid.value.value + after.value.value + before.value.value <= revenue.value.value
  }

  lemma RowWithin(row: Row, now: int)
    requires NonNegativeRow(row)
    ensures CellsWithin(CellOf(row, now, Revenue), CellOf(row, now, PaidInvoices),
      CellOf(row, now, DueAfterNow), CellOf(row, now, DueBeforeNow))
  {
  }

  lemma {:induction false} SumsWithin(rows: seq<Row>, now: int)
    requires NonNegative(rows) && rows != []
    ensures CellsWithin(SqlSum(rows, now, Revenue), SqlSum(rows, now, PaidInvoices),
      SqlSum(rows, now, DueAfterNow), SqlSum(rows, now, DueBeforeNow))
  {
    RowWithin(rows[0], now);
    if |rows| > 1 {
      SumsWithin(rows[1..], now);
    } else {
      assert rows[1..] == [];
    }
  }

  lemma {:induction false} NonNegativeGroup(rows: seq<Row>, shipper: Option<string>)
    requires NonNegative(rows)
    ensures NonNegative(Group(rows, shipper))
  {
    if rows != [] {
      NonNegativeGroup(rows[1..], shipper);
    }
  }

  lemma GroupInvoicesWithinRevenue(rows: seq<Row>, now: int, shipper: Option<string>)
    requires NonNegative(rows) && shipper in ShippersOf(rows)
    ensures Within(ShipperReport(rows, now, shipper))
  {
    PricedGroup(rows, shipper);
    NonNegativeGroup(rows, shipper);
    InvoicesWithinRevenue(Group(rows, shipper), now);
  }

  // ------------------------------------------------------------------------
  // When the exchanged labels show.

  // An invoice that is not paid, has a due date and is worth something.
  predicate Outstanding(row: Row) {
    && row.status != Paid && row.invoiced && row.due.Some?
    && row.salePrice.Number? && row.salePrice.value.Amount? && row.salePrice.value.value > 0.0
  }

  lemma {:induction false} NothingOutstanding(rows: seq<Row>, now: int, column: Column)
    requires NonNegative(rows) && rows != [] && (column == DueAfterNow || column == DueBeforeNow)
    requires forall i :: 0 <= i < |rows| ==> !Outstanding(rows[i])
    ensures SqlSum(rows, now, column) == Number(ZERO)
  {
    assert CellOf(rows[0], now, column) == Number(ZERO);
    if |rows| > 1 {
      NothingOutstanding(rows[1..], now, column);
    } else {
      assert rows[1..] == [];
    }
  }

  ghost predicate DueLater(rows: seq<Row>, now: int) {
    forall i :: 0 <= i < |rows| && rows[i].due.Some? ==> now < rows[i].due.value
  }

  // A time before every due date.
  lemma {:induction false} EarlyEnough(rows: seq<Row>) returns (now: int)
    ensures DueLater(rows, now)
  {
    now := 0;
    if rows != [] {
      now := EarlyEnough(rows[1..]);
      now := if rows[0].due.Some? && rows[0].due.value <= now then rows[0].due.value - 1 else now;
      forall i | 0 <= i < |rows| && rows[i].due.Some?
        ensures now < rows[i].due.value
      {
        assert i > 0 ==> rows[i] == rows[1..][i - 1];
      }
    }
  }

  predicate SomeOutstanding(rows: seq<Row>) {
    rows != [] && (Outstanding(rows[0]) || SomeOutstanding(rows[1..]))
  }

  lemma {:induction false} OutstandingAt(rows: seq<Row>, i: nat)
    requires i < |rows| && Outstanding(rows[i])
    ensures SomeOutstanding(rows)
  {
    if i > 0 {
      OutstandingAt(rows[1..], i - 1);
    }
  }

  // The same, row after row.
  predicate EachDueLater(rows: seq<Row>, now: int) {
    rows == [] || ((rows[0].due.Some? ==> now < rows[0].due.value) && EachDueLater(rows[1..], now))
  }

  lemma {:induction false} DueLaterIsEach(rows: seq<Row>, now: int)
    requires DueLater(rows, now)
    ensures EachDueLater(rows, now)
  {
    if rows != [] {
      DueLaterIsEach(rows[1..], now);
    }
  }

  // An amount that is not negative, and positive if there is something.
  predicate Positive(cell: Cell, some: bool) {
    cell.Number? && cell.value.Amount? && cell.value.value >= 0.0 && (some ==> cell.value.value > 0.0)
  }

  lemma PositiveAdds(a: Cell, a': Cell, some: bool, some': bool)
    requires Positive(a, some) && Positive(a', some')
    ensures Positive(SqlAdd(a, a'), some || some')
  {
  }

  // Before every due date nothing is due before now.
  lemma {:induction false} NoneDueEarlier(rows: seq<Row>, now: int)
    requires EachDueLater(rows, now) && rows != []
    ensures SqlSum(rows, now, DueBeforeNow) == Number(ZERO)
  {
    SumStep(rows, now, DueBeforeNow);
    if |rows| > 1 {
      NoneDueEarlier(rows[1..], now);
      AddLaws(ZERO, ZERO, ZERO);
    }
  }

  // And if there is something outstanding, it is due after it.
  lemma {:induction false} AllDueLater(rows: seq<Row>, now: int)
    requires EachNonNegative(rows) && EachDueLater(rows, now) && rows != []
    ensures Positive(SqlSum(rows, now, DueAfterNow), SomeOutstanding(rows))
  {
    var row, rest := rows[0], rows[1..];
    LaterCell(row, now);
    SumStep(rows, now, DueAfterNow);
    if |rows| > 1 {
      AllDueLater(rest, now);
      PositiveAdds(CellOf(row, now, DueAfterNow), SqlSum(rest, now, DueAfterNow), Outstanding(row),
        SomeOutstanding(rest));
    } else {
      assert !SomeOutstanding(rest);
    }
  }

  lemma LaterCell(row: Row, now: int)
    requires NonNegativeRow(row) && (row.due.Some? ==> now < row.due.value)
    ensures Positive(CellOf(row, now, DueAfterNow), Outstanding(row))
  {
  }

  lemma SumStep(rows: seq<Row>, now: int, column: Column)
    requires rows != []
    ensures SqlSum(rows, now, column) ==
      if |rows| == 1 then CellOf(rows[0], now, column)
      else SqlAdd(CellOf(rows[0], now, column), SqlSum(rows[1..], now, column))
  {
    if |rows| == 1 {
      assert rows[1..] == [];
    }
  }

  lemma NonNegativeIsPriced(rows: seq<Row>)
    requires NonNegative(rows)
    ensures Priced(rows)
  {
  }

  // So the two reports agree under their own labels at every time exactly when no
  // selected order has an unpaid invoice with a due date and a positive price.
  lemma LabelsAgreeExactlyWhen(rows: seq<Row>, shippers: seq<Option<string>>)
    requires Lists(shippers, rows) && NonNegative(rows) && rows != []
    ensures (forall now :: LabelsAgree(rows, now, shippers))
      <==> forall i :: 0 <= i < |rows| ==> !Outstanding(rows[i])
  {
    NonNegativeIsPriced(rows);
    if forall i :: 0 <= i < |rows| ==> !Outstanding(rows[i]) {
      forall now
        ensures LabelsAgree(rows, now, shippers)
      {
        NothingOutstanding(rows, now, DueAfterNow);
        NothingOutstanding(rows, now, DueBeforeNow);
        LabelsAgreeOnEqualAmounts(rows, now, shippers);
      }
    } else {
      var i :| 0 <= i < |rows| && Outstanding(rows[i]);
      OutstandingAt(rows, i);
      var now := EarlyEnough(rows);
      NonNegativeIsEach(rows);
      DueLaterIsEach(rows, now);
      NoneDueEarlier(rows, now);
      AllDueLater(rows, now);
      LabelsAgreeOnEqualAmounts(rows, now, shippers);
    }
  }

  // ------------------------------------------------------------------------
  // What the four totals are made of.

  // Every selected order has a price that is a number.
  predicate Numeric(rows: seq<Row>) {
    forall i :: 0 <= i < |rows| ==> rows[i].salePrice.Number? && rows[i].salePrice.value.Amount?
  }

  function PriceOf(row: Row): real {
    if row.salePrice.Number? && row.salePrice.value.Amount? then row.salePrice.value.value else 0.0
  }

  // The prices of the chosen rows, added up.
  function SumWhere(rows: seq<Row>, chosen: Row -> bool): real {
    if rows == [] then 0.0
    else (if chosen(rows[0]) then PriceOf(rows[0]) else 0.0) + SumWhere(rows[1..], chosen)
  }

  // A column whose cells are the price of the chosen rows and zero elsewhere.
  lemma {:induction false} ColumnIsSum(rows: seq<Row>, now: int, column: Column, chosen: Row -> bool)
    requires Numeric(rows) && rows != []
    requires forall i :: 0 <= i < |rows| ==> PicksCell(rows[i], now, column, chosen)
    ensures SqlSum(rows, now, column) == Number(Amount(SumWhere(rows, chosen)))
  {
    assert PicksCell(rows[0], now, column, chosen);
    if |rows| > 1 {
      ColumnIsSum(rows[1..], now, column, chosen);
    } else {
      assert rows[1..] == [];
    }
  }

  ghost predicate PicksCell(row: Row, now: int, column: Column, chosen: Row -> bool) {
    CellOf(row, now, column) == Number(Amount(if chosen(row) then PriceOf(row) else 0.0))
  }

  // Revenue is the price of every order; the paid total is that of the paid orders
  // with an invoice; what is due before and after now, that of the unpaid invoices
  // with a due date before and after it.
  lemma SqlSumsAre(rows: seq<Row>, now: int)
    requires Numeric(rows) && rows != []
    ensures SqlSum(rows, now, Revenue) == Number(Amount(SumWhere(rows, (r: Row) => true)))
    ensures SqlSum(rows, now, PaidInvoices)
      == Number(Amount(SumWhere(rows, (r: Row) => r.status == Paid && r.invoiced)))
    ensures SqlSum(rows, now, DueBeforeNow) == Number(Amount(
      SumWhere(rows, (r: Row) => r.status != Paid && r.invoiced && r.due.Some? && r.due.value < now)))
    ensures SqlSum(rows, now, DueAfterNow) == Number(Amount(
      SumWhere(rows, (r: Row) => r.status != Paid && r.invoiced && r.due.Some? && r.due.value > now)))
  {
    ColumnIsSum(rows, now, Revenue, (r: Row) => true);
    ColumnIsSum(rows, now, PaidInvoices, (r: Row) => r.status == Paid && r.invoiced);
    ColumnIsSum(rows, now, DueBeforeNow,
      (r: Row) => r.status != Paid && r.invoiced && r.due.Some? && r.due.value < now);
    ColumnIsSum(rows, now, DueAfterNow,
      (r: Row) => r.status != Paid && r.invoiced && r.due.Some? && r.due.value > now);
  }

  // So the general report says, with the labels as they are attached: due is what
  // was due before now, and past due what is due after it.
  lemma GeneralReportIs(rows: seq<Row>, now: int)
    requires Numeric(rows) && rows != []
    ensures GeneralReport(rows, now) == Report(
      Amount(SumWhere(rows, (r: Row) => true)),
      Amount(SumWhere(rows, (r: Row) => r.status == Paid && r.invoiced)),
      Amount(SumWhere(rows, (r: Row) => r.status != Paid && r.invoiced && r.due.Some? && r.due.value < now)),
      Amount(SumWhere(rows, (r: Row) => r.status != Paid && r.invoiced && r.due.Some? && r.due.value > now)))
  {
    SqlSumsAre(rows, now);
  }

  // The report of one shipper says the same of its orders, with the last two the
  // other way round.
  lemma ShipperReportIs(rows: seq<Row>, now: int, shipper: Option<string>)
    requires Numeric(rows) && shipper in ShippersOf(rows)
    ensures ShipperReport(rows, now, shipper) == Report(
      Amount(SumWhere(rows, (r: Row) => r.shipper == shipper)),
      Amount(SumWhere(rows, (r: Row) => r.shipper == shipper && r.status == Paid && r.invoiced)),
      Amount(SumWhere(rows, (r: Row) => r.shipper == shipper && r.status != Paid && r.invoiced
        && r.due.Some? && r.due.value > now)),
      Amount(SumWhere(rows, (r: Row) => r.shipper == shipper && r.status != Paid && r.invoiced
        && r.due.Some? && r.due.value < now)))
  {
    PricedGroup(rows, shipper);
    NumericGroup(rows, shipper);
    SqlSumsAre(Group(rows, shipper), now);
    SumOfGroup(rows, shipper, (r: Row) => true, (r: Row) => r.shipper == shipper);
    SumOfGroup(rows, shipper, (r: Row) => r.status == Paid && r.invoiced,
      (r: Row) => r.shipper == shipper && r.status == Paid && r.invoiced);
    SumOfGroup(rows, shipper, (r: Row) => r.status != Paid && r.invoiced && r.due.Some? && r.due.value > now,
      (r: Row) => r.shipper == shipper && r.status != Paid && r.invoiced && r.due.Some? && r.due.value > now);
    SumOfGroup(rows, shipper, (r: Row) => r.status != Paid && r.invoiced && r.due.Some? && r.due.value < now,
      (r: Row) => r.shipper == shipper && r.status != Paid && r.invoiced && r.due.Some? && r.due.value < now);
  }

  lemma {:induction false} NumericGroup(rows: seq<Row>, shipper: Option<string>)
    requires Numeric(rows)
    ensures Numeric(Group(rows, shipper))
  {
    if rows != [] {
      NumericGroup(rows[1..], shipper);
    }
  }

  lemma {:induction false} SumOfGroup(rows: seq<Row>, shipper: Option<string>, chosen: Row -> bool, both: Row -> bool)
    requires forall r :: both(r) <==> r.shipper == shipper && chosen(r)
    ensures SumWhere(Group(rows, shipper), chosen) == SumWhere(rows, both)
  {
    if rows != [] {
      SumOfGroup(rows[1..], shipper, chosen, both);
      var tail := Group(rows[1..], shipper);
      assert both(rows[0]) <==> rows[0].shipper == shipper && chosen(rows[0]);
      if rows[0].shipper == shipper {
        assert Group(rows, shipper)[1..] == tail;
      } else {
        assert Group(rows, shipper) == tail;
      }
    }
  }

  // An invoice that is in one of the three totals, or an order worth nothing.
  predicate Accounted(row: Row, now: int) {
    PriceOf(row) > 0.0 ==> row.invoiced && (row.status == Paid || (row.due.Some? && row.due.value != now))
  }

  // The three totals make up the whole revenue exactly when every order with a
  // positive price has an invoice that is paid or has a due date other than now.
  lemma InvoicesMakeUpRevenueExactlyWhen(rows: seq<Row>, now: int)
    requires NonNegative(rows) && rows != []
    ensures Within(GeneralReport(rows, now))
    ensures var r := GeneralReport(rows, now);
      r.totalPaid.value + r.totalDue.value + r.totalPastDue.value == r.totalRevenue.value
      <==> forall i :: 0 <= i < |rows| ==> Accounted(rows[i], now)
  {
    InvoicesWithinRevenue(rows, now);
    NonNegativeIsEach(rows);
    SumsMeetExactlyWhen(rows, now);
    if AllAccounted(rows, now) {
      forall i | 0 <= i < |rows|
        ensures Accounted(rows[i], now)
      {
        AccountedAt(rows, now, i);
      }
    } else {
      NotAllAccounted(rows, now);
    }
  }

  predicate AllAccounted(rows: seq<Row>, now: int) {
    rows == [] || (Accounted(rows[0], now) && AllAccounted(rows[1..], now))
  }

  lemma {:induction false} AccountedAt(rows: seq<Row>, now: int, i: nat)
    requires AllAccounted(rows, now) && i < |rows|
    ensures Accounted(rows[i], now)
  {
    if i > 0 {
      AccountedAt(rows[1..], now, i - 1);
    }
  }

  lemma {:induction false} NotAllAccounted(rows: seq<Row>, now: int)
    requires !AllAccounted(rows, now)
    ensures exists i :: 0 <= i < |rows| && !Accounted(rows[i], now)
  {
    if Accounted(rows[0], now) {
      NotAllAccounted(rows[1..], now);
      var i :| 0 <= i < |rows[1..]| && !Accounted(rows[1..][i], now);
      assert !Accounted(rows[i + 1], now);
    }
  }

  predicate CellsMeet(revenue: Cell, paid: Cell, after: Cell, before: Cell)
    requires CellsWithin(revenue, paid, after, before)
  {
    paid.value.value + after.value.value + before.value.value == revenue.value.value
  }

  lemma RowMeetsExactlyWhen(row: Row, now: int)
    requires NonNegativeRow(row)
    ensures var revenue, paid := CellOf(row, now, Revenue), CellOf(row, now, PaidInvoices);
      var after, before := CellOf(row, now, DueAfterNow), CellOf(row, now, DueBeforeNow);
      CellsWithin(revenue, paid, after, before) && (CellsMeet(revenue, paid, after, before) <==> Accounted(row, now))
  {
  }

  lemma {:induction false} CellsAdd(r: Cell, p: Cell, a: Cell, b: Cell, r': Cell, p': Cell, a': Cell, b': Cell)
    requires CellsWithin(r, p, a, b) && CellsWithin(r', p', a', b')
    ensures CellsWithin(SqlAdd(r, r'), SqlAdd(p, p'), SqlAdd(a, a'), SqlAdd(b, b'))
    ensures CellsMeet(SqlAdd(r, r'), SqlAdd(p, p'), SqlAdd(a, a'), SqlAdd(b, b'))
      <==> CellsMeet(r, p, a, b) && CellsMeet(r', p', a', b')
  {
  }

  lemma {:induction false} SumsMeetExactlyWhen(rows: seq<Row>, now: int)
    requires EachNonNegative(rows) && rows != []
    ensures var revenue, paid := SqlSum(rows, now, Revenue), SqlSum(rows, now, PaidInvoices);
      var after, before := SqlSum(rows, now, DueAfterNow), SqlSum(rows, now, DueBeforeNow);
      && CellsWithin(revenue, paid, after, before)
      && (CellsMeet(revenue, paid, after, before) <==> AllAccounted(rows, now))
  {
    var row, rest := rows[0], rows[1..];
    RowMeetsExactlyWhen(row, now);
    SumStep(rows, now, Revenue);
    SumStep(rows, now, PaidInvoices);
    SumStep(rows, now, DueAfterNow);
    SumStep(rows, now, DueBeforeNow);
    if |rows| > 1 {
      SumsMeetExactlyWhen(rest, now);
      CellsAdd(CellOf(row, now, Revenue), CellOf(row, now, PaidInvoices), CellOf(row, now, DueAfterNow),
        CellOf(row, now, DueBeforeNow), SqlSum(rest, now, Revenue), SqlSum(rest, now, PaidInvoices),
        SqlSum(rest, now, DueAfterNow), SqlSum(rest, now, DueBeforeNow));
    } else {
      assert AllAccounted(rest, now);
    }
  }
}
