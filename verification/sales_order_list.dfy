/** The Sales Order list view: its status indicator, an ordered first-match
    decision table over the row's status, delivery and billing percentages,
    grand total and delivery date. Its Email bulk action is `BulkEmail` with
    `EmailSettings`; its create-from-order actions are in `BulkCreate`. */
module SalesOrderList {
  import opened Base
  import opened Indicators
  import BulkEmail

  /** Percentages are compared after rounding to six decimals, so they are
      counted here in millionths of a percentage point. */
  const Scale: nat := 1_000_000
  const Full: int := 100 * Scale

  /** The fields of a Sales Order list row the indicator reads. `perDelivered`
      and `perBilled` are already rounded, in units of 1/`Scale` percent;
      `grandTotal` matters only through its comparison with zero. */
  datatype Row = Row(
    status: string,
    skipDeliveryNote: bool,
    perDelivered: int,
    perBilled: int,
    grandTotal: int,
    deliveryDate: Date)

  const NotClosed := Clause(Status, Ne, Text("Closed"))

  const ClosedIndicator := Indicator("Closed", Some(Green), [Clause(Status, Eq, Text("Closed"))])
  const OnHoldIndicator := Indicator("On Hold", Some(Orange), [Clause(Status, Eq, Text("On Hold"))])
  const CompletedIndicator := Indicator("Completed", Some(Green), [Clause(Status, Eq, Text("Completed"))])
  const OverdueIndicator := Indicator("Overdue", Some(Red),
    [Clause(PerDelivered, Lt, Number(100)), Clause(DeliveryDate, Lt, Today), NotClosed])
  const ToDeliverUnpricedIndicator := Indicator("To Deliver", Some(Orange),
    [Clause(PerDelivered, Lt, Number(100)), Clause(GrandTotal, Eq, Number(0)), NotClosed])
  const ToDeliverAndBillIndicator := Indicator("To Deliver and Bill", Some(Orange),
    [Clause(PerDelivered, Lt, Number(100)), Clause(PerBilled, Lt, Number(100)), NotClosed])
  const ToDeliverBilledIndicator := Indicator("To Deliver", Some(Orange),
    [Clause(PerDelivered, Lt, Number(100)), Clause(PerBilled, Eq, Number(100)), NotClosed])
  const ToBillDeliveredIndicator := Indicator("To Bill", Some(Orange),
    [Clause(PerDelivered, Eq, Number(100)), Clause(PerBilled, Lt, Number(100)), NotClosed])
  const ToBillSkippedIndicator := Indicator("To Bill", Some(Orange),
    [Clause(PerBilled, Lt, Number(100)), NotClosed])

  /** The seven captions the table can produce. */
  const Captions: set<string> :=
    {"Closed", "On Hold", "Completed", "Overdue", "To Deliver", "To Deliver and Bill", "To Bill"}

  /** The status values that decide the indicator before any number is read. */
  predicate FixedStatus(status: string)
  {
    status == "Closed" || status == "On Hold" || status == "Completed"
  }

  /** The row is still awaiting delivery: delivery is not skipped and less than
      everything has been delivered. */
  predicate AwaitingDelivery(row: Row)
  {
    !row.skipDeliveryNote && row.perDelivered < Full
  }

  /** The indicator of a row on `today`, or None when no rule matches. The
      rules are tried in order and the first that matches decides. */
  function GetIndicator(row: Row, today: Date): (r: Option<Indicator>)
    ensures r.Some? ==> r.value.caption in Captions
    ensures r.Some? ==> r.value.colour in {Some(Green), Some(Orange), Some(Red)}
    ensures r.Some? && r.value.colour == Some(Red) ==> r.value.caption == "Overdue"
    ensures r == Some(OverdueIndicator) <==>
      !FixedStatus(row.status) && AwaitingDelivery(row) && row.deliveryDate < today
  {
    if row.status == "Closed" then Some(ClosedIndicator)
    else if row.status == "On Hold" then Some(OnHoldIndicator)
    else if row.status == "Completed" then Some(CompletedIndicator)
    else if AwaitingDelivery(row) then
      if DaysFrom(row.deliveryDate, today) < 0 then Some(OverdueIndicator)
      else if row.grandTotal == 0 then Some(ToDeliverUnpricedIndicator)
      else if row.perBilled < Full then Some(ToDeliverAndBillIndicator)
      else Some(ToDeliverBilledIndicator)
    else if row.perDelivered == Full && row.grandTotal != 0 && row.perBilled < Full then
      Some(ToBillDeliveredIndicator)
    else if row.skipDeliveryNote && row.perBilled < Full then Some(ToBillSkippedIndicator)
    else None
  }

  /** A Closed, On Hold or Completed row gets its status indicator whatever its
      numbers and dates: rows that agree on such a status get the same indicator. */
  lemma StatusRulesComeFirst(row: Row, other: Row, today: Date, otherDay: Date)
    requires FixedStatus(row.status) && other.status == row.status
    ensures GetIndicator(row, today) == GetIndicator(other, otherDay)
    ensures GetIndicator(row, today).Some?
    ensures GetIndicator(row, today).value.caption == row.status
    ensures row.status == "On Hold" <==> GetIndicator(row, today).value.colour == Some(Orange)
    ensures row.status == "Closed" ==> GetIndicator(row, today) == Some(ClosedIndicator)
    ensures row.status == "On Hold" ==> GetIndicator(row, today) == Some(OnHoldIndicator)
    ensures row.status == "Completed" ==> GetIndicator(row, today) == Some(CompletedIndicator)
  {
  }

  /** Among rows still awaiting delivery, a past delivery date gives the red
      "Overdue" indicator with its filter, whatever the grand total and the
      billed percentage. */
  lemma OverdueBeforeTotals(row: Row, today: Date)
    requires !FixedStatus(row.status) && AwaitingDelivery(row)
    ensures GetIndicator(row, today).Some?
    ensures GetIndicator(row, today).value.caption == "Overdue" <==> row.deliveryDate < today
    ensures row.deliveryDate < today ==>
      GetIndicator(row, today) == GetIndicator(row.(grandTotal := 0, perBilled := 0), today)
    ensures row.deliveryDate < today ==> GetIndicator(row, today) == Some(OverdueIndicator)
  {
  }

  /** Every row awaiting delivery gets one of the three delivery captions; the
      branch never falls through. */
  lemma AwaitingDeliveryAlwaysIndicated(row: Row, today: Date)
    requires !FixedStatus(row.status) && AwaitingDelivery(row)
    ensures GetIndicator(row, today).Some?
    ensures GetIndicator(row, today).value.caption in {"Overdue", "To Deliver", "To Deliver and Bill"}
  {
  }

  /** The rules after the status rules, for any other status. An order awaiting
      delivery and not overdue is "To Deliver" when its total is zero, whatever
      it is billed, and otherwise "To Deliver and Bill" or "To Deliver" by
      whether it is billed below 100 percent. A delivered order with a total,
      billed below 100 percent, is "To Bill", and so is an order that skips
      delivery and is billed below 100 percent. */
  lemma NumericRules(row: Row, today: Date)
    requires !FixedStatus(row.status)
    ensures AwaitingDelivery(row) && today <= row.deliveryDate && row.grandTotal == 0 ==>
      GetIndicator(row, today) == Some(ToDeliverUnpricedIndicator)
    ensures AwaitingDelivery(row) && today <= row.deliveryDate && row.grandTotal != 0 && row.perBilled < Full ==>
      GetIndicator(row, today) == Some(ToDeliverAndBillIndicator)
    ensures AwaitingDelivery(row) && today <= row.deliveryDate && row.grandTotal != 0 && row.perBilled >= Full ==>
      GetIndicator(row, today) == Some(ToDeliverBilledIndicator)
    ensures !AwaitingDelivery(row) && row.perDelivered == Full && row.grandTotal != 0 && row.perBilled < Full ==>
      GetIndicator(row, today) == Some(ToBillDeliveredIndicator)
    ensures !AwaitingDelivery(row) && !(row.perDelivered == Full && row.grandTotal != 0) &&
            row.skipDeliveryNote && row.perBilled < Full ==>
      GetIndicator(row, today) == Some(ToBillSkippedIndicator)
    ensures row.skipDeliveryNote && row.perBilled < Full ==>
      GetIndicator(row, today).Some? && GetIndicator(row, today).value.caption == "To Bill"
  {
  }

  /** An order that skips delivery and is half billed is "To Bill", whatever it
      has delivered. */
  lemma HalfBilledSkippedOrderIsToBill(row: Row, today: Date)
    requires !FixedStatus(row.status) && row.skipDeliveryNote && row.perBilled == 50 * Scale
    ensures GetIndicator(row, today).Some? && GetIndicator(row, today).value.caption == "To Bill"
  {
    NumericRules(row, today);
  }

  /** Exactly which rows get no indicator: none of the rules' conditions hold. */
  lemma NoIndicatorExactly(row: Row, today: Date)
    ensures GetIndicator(row, today).None? <==>
      && !FixedStatus(row.status)
      && !AwaitingDelivery(row)
      && !(row.perDelivered == Full && row.grandTotal != 0 && row.perBilled < Full)
      && !(row.skipDeliveryNote && row.perBilled < Full)
  {
  }

  /** Two kinds of delivered row with delivery not skipped get no badge: a fully
      delivered zero-total order, and an order delivered and billed in full. */
  lemma DeliveredRowsWithoutIndicator(row: Row, today: Date)
    requires !FixedStatus(row.status) && !row.skipDeliveryNote
    requires (row.perDelivered == Full && row.grandTotal == 0)
          || (row.perDelivered >= Full && row.perBilled >= Full)
    ensures GetIndicator(row, today).None?
  {
  }

  /** Whether `row` satisfies one clause of a filter on `today`; fields a Sales
      Order row does not have never match. */
  predicate Holds(row: Row, c: Clause, today: Date)
  {
    match c.field
    case Status => TextHolds(c.op, row.status, c.value)
    case PerDelivered => NumberHolds(c.op, row.perDelivered, Scale, c.value)
    case PerBilled => NumberHolds(c.op, row.perBilled, Scale, c.value)
    case GrandTotal => NumberHolds(c.op, row.grandTotal, 1, c.value)
    case DeliveryDate => DateHolds(c.op, row.deliveryDate, c.value, today)
    case PerReceived => false
  }

  predicate Matches(row: Row, f: Filter, today: Date)
  {
    forall i :: 0 <= i < |f| ==> Holds(row, f[i], today)
  }

  /** The filter of an indicator selects the row it was computed for, except in
      one branch: "To Deliver" for a fully billed order filters on billed
      "= 100", which a row billed over 100 percent does not satisfy. */
  lemma FilterSelectsItsRow(row: Row, today: Date)
    requires GetIndicator(row, today).Some?
    ensures Matches(row, GetIndicator(row, today).value.filter, today)
        <==> GetIndicator(row, today) != Some(ToDeliverBilledIndicator) || row.perBilled == Full
  {
    var ind := GetIndicator(row, today).value;
    if ind == ToDeliverBilledIndicator && row.perBilled != Full {
      assert !Holds(row, ind.filter[1], today);
    }
  }

  /** Every filter the Sales Order rules hand to the host is well formed, so
      its string reads back as the same clauses. */
  lemma FiltersRoundTrip(row: Row, today: Date)
    requires GetIndicator(row, today).Some?
    ensures WellFormed(GetIndicator(row, today).value.filter)
    ensures Parse(Serialize(GetIndicator(row, today).value.filter)) == Some(GetIndicator(row, today).value.filter)
  {
    var ind := GetIndicator(row, today).value;
    assert ind in Table;
    TableWellFormed(ind);
    ParseSerialize(ind.filter);
  }

  /** The nine indicators the rules can return. */
  const Table: set<Indicator> := {
    ClosedIndicator, OnHoldIndicator, CompletedIndicator, OverdueIndicator,
    ToDeliverUnpricedIndicator, ToDeliverAndBillIndicator, ToDeliverBilledIndicator,
    ToBillDeliveredIndicator, ToBillSkippedIndicator}

  /** Every indicator of the table has a well-formed filter. */
  lemma TableWellFormed(ind: Indicator)
    requires ind in Table
    ensures WellFormed(ind.filter)
  {
    StatusTextsWellFormed();
  }

  /** The status texts the rules filter on are plain text values. */
  lemma StatusTextsWellFormed()
    ensures WellFormedValue(Text("Closed"))
    ensures WellFormedValue(Text("On Hold"))
    ensures WellFormedValue(Text("Completed"))
  {
    assert !IsDigit("Closed"[0]);
    assert !IsDigit("On Hold"[0]);
    assert !IsDigit("Completed"[0]);
  }

  /** The text of every status clause the rules use. */
  lemma StatusClauseTexts()
    ensures ClauseText(Clause(Status, Eq, Text("Closed"))) == "status,=,Closed"
    ensures ClauseText(Clause(Status, Eq, Text("On Hold"))) == "status,=,On Hold"
    ensures ClauseText(Clause(Status, Eq, Text("Completed"))) == "status,=,Completed"
    ensures ClauseText(NotClosed) == "status,!=,Closed"
  {
  }

  /** The text of every percentage clause the rules use. */
  lemma PercentClauseTexts()
    ensures ClauseText(Clause(PerDelivered, Lt, Number(100))) == "per_delivered,<,100"
    ensures ClauseText(Clause(PerDelivered, Eq, Number(100))) == "per_delivered,=,100"
    ensures ClauseText(Clause(PerBilled, Lt, Number(100))) == "per_billed,<,100"
    ensures ClauseText(Clause(PerBilled, Eq, Number(100))) == "per_billed,=,100"
  {
    SmallNumerals();
  }

  /** The text of the delivery date and grand total clauses. */
  lemma DateAndTotalClauseTexts()
    ensures ClauseText(Clause(DeliveryDate, Lt, Today)) == "delivery_date,<,Today"
    ensures ClauseText(Clause(GrandTotal, Eq, Number(0))) == "grand_total,=,0"
  {
    SmallNumerals();
  }

  /** Each rule's filter serializes to exactly the filter text the list view
      hands to the host: its clauses, in the written order, joined by '|'. */
  lemma FilterTexts()
    ensures Serialize(ClosedIndicator.filter) == "status,=,Closed"
    ensures Serialize(OnHoldIndicator.filter) == "status,=,On Hold"
    ensures Serialize(CompletedIndicator.filter) == "status,=,Completed"
    ensures Serialize(OverdueIndicator.filter) == "per_delivered,<,100" + "|" + "delivery_date,<,Today" + "|" + "status,!=,Closed"
    ensures Serialize(ToDeliverUnpricedIndicator.filter) == "per_delivered,<,100" + "|" + "grand_total,=,0" + "|" + "status,!=,Closed"
    ensures Serialize(ToDeliverAndBillIndicator.filter) == "per_delivered,<,100" + "|" + "per_billed,<,100" + "|" + "status,!=,Closed"
    ensures Serialize(ToDeliverBilledIndicator.filter) == "per_delivered,<,100" + "|" + "per_billed,=,100" + "|" + "status,!=,Closed"
    ensures Serialize(ToBillDeliveredIndicator.filter) == "per_delivered,=,100" + "|" + "per_billed,<,100" + "|" + "status,!=,Closed"
    ensures Serialize(ToBillSkippedIndicator.filter) == "per_billed,<,100" + "|" + "status,!=,Closed"
  {
    StatusClauseTexts();
    PercentClauseTexts();
    DateAndTotalClauseTexts();
    SerializeOfOne(ClosedIndicator.filter[0]);
    SerializeOfOne(OnHoldIndicator.filter[0]);
    SerializeOfOne(CompletedIndicator.filter[0]);
    SerializeOfThree(OverdueIndicator.filter[0], OverdueIndicator.filter[1], OverdueIndicator.filter[2]);
    SerializeOfThree(ToDeliverUnpricedIndicator.filter[0], ToDeliverUnpricedIndicator.filter[1], ToDeliverUnpricedIndicator.filter[2]);
    SerializeOfThree(ToDeliverAndBillIndicator.filter[0], ToDeliverAndBillIndicator.filter[1], ToDeliverAndBillIndicator.filter[2]);
    SerializeOfThree(ToDeliverBilledIndicator.filter[0], ToDeliverBilledIndicator.filter[1], ToDeliverBilledIndicator.filter[2]);
    SerializeOfThree(ToBillDeliveredIndicator.filter[0], ToBillDeliveredIndicator.filter[1], ToBillDeliveredIndicator.filter[2]);
    SerializeOfTwo(ToBillSkippedIndicator.filter[0], ToBillSkippedIndicator.filter[1]);
  }

  /** The Email action of this list: the counterparty is the customer. */
  const EmailSettings := BulkEmail.Settings(
    "Sales Order",
    "erpnext.utilities.utils.get_contact",
    "erpnext.utilities.utils.get_document_links",
    "customer",
    "Select only one customer's sales orders")

  function SendEmail(docs: seq<Doc>): (o: BulkEmail.Outcome)
    ensures |docs| == 0 ==> o.error.None? && o.calls == []
    ensures o.error.Some? ==> o.calls == []
    ensures o.calls != [] <==> BulkEmail.Eligible(docs)
    ensures o.calls != [] ==>
      o.calls[0] == BulkEmail.GetContact("erpnext.utilities.utils.get_contact", "Sales Order", docs[0].name, "customer")
  {
    BulkEmail.Run(EmailSettings, docs)
  }
}
