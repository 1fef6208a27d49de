/** The Purchase Order list view: its status indicator, an ordered first-match
    decision table over the row's status and its received and billed
    percentages. Its Email bulk action is `BulkEmail` with `EmailSettings`. */
module PurchaseOrderList {
  import opened Base
  import opened Indicators
  import BulkEmail

  /** Percentages are compared after rounding to two decimals, so they are
      counted here in hundredths of a percentage point. */
  const Scale: nat := 100
  const Full: int := 100 * Scale

  /** The fields of a Purchase Order list row the indicator reads, the
      percentages already rounded, in units of 1/`Scale` percent. */
  datatype Row = Row(status: string, perReceived: int, perBilled: int)

  const NotClosed := Clause(Status, Ne, Text("Closed"))

  const ClosedIndicator := Indicator("Closed", Some(Green), [Clause(Status, Eq, Text("Closed"))])
  const OnHoldIndicator := Indicator("On Hold", Some(Orange), [Clause(Status, Eq, Text("On Hold"))])
  /** A delivered order is labelled "Delivered" but filtered on the Closed status. */
  const DeliveredIndicator := Indicator("Delivered", Some(Green), [Clause(Status, Eq, Text("Closed"))])
  const ToReceiveAndBillIndicator := Indicator("To Receive and Bill", Some(Orange),
    [Clause(PerReceived, Lt, Number(100)), Clause(PerBilled, Lt, Number(100)), NotClosed])
  const ToReceiveIndicator := Indicator("To Receive", Some(Orange),
    [Clause(PerReceived, Lt, Number(100)), Clause(PerBilled, Eq, Number(100)), NotClosed])
  const ToBillIndicator := Indicator("To Bill", Some(Orange),
    [Clause(PerReceived, Eq, Number(100)), Clause(PerBilled, Lt, Number(100)), NotClosed])
  const CompletedIndicator := Indicator("Completed", Some(Green),
    [Clause(PerReceived, Eq, Number(100)), Clause(PerBilled, Eq, Number(100)), NotClosed])

  /** The status values that decide the indicator before any number is read. */
  predicate FixedStatus(status: string)
  {
    status == "Closed" || status == "On Hold" || status == "Delivered"
  }

  /** The indicator of a row, or None when no rule matches; first match wins.
      The later rules keep their `status != "Closed"` tests, which are redundant
      after the Closed rule (see `ClosedGuardsRedundant`). */
  function GetIndicator(row: Row): (r: Option<Indicator>)
    ensures r.Some? ==> r.value.colour in {Some(Green), Some(Orange)}
    ensures r.Some? ==>
      r.value.caption in {"Closed", "On Hold", "Delivered", "To Receive and Bill", "To Receive", "To Bill", "Completed"}
  {
    if row.status == "Closed" then Some(ClosedIndicator)
    else if row.status == "On Hold" then Some(OnHoldIndicator)
    else if row.status == "Delivered" then Some(DeliveredIndicator)
    else if row.perReceived < Full && row.status != "Closed" then
      if row.perBilled < Full then Some(ToReceiveAndBillIndicator)
      else Some(ToReceiveIndicator)
    else if row.perReceived >= Full && row.perBilled < Full && row.status != "Closed" then
      Some(ToBillIndicator)
    else if row.perReceived >= Full && row.perBilled == Full && row.status != "Closed" then
      Some(CompletedIndicator)
    else None
  }

  /** The same table with the repeated `status != "Closed"` tests left out. */
  function GetIndicatorUnguarded(row: Row): Option<Indicator>
  {
    if row.status == "Closed" then Some(ClosedIndicator)
    else if row.status == "On Hold" then Some(OnHoldIndicator)
    else if row.status == "Delivered" then Some(DeliveredIndicator)
    else if row.perReceived < Full then
      if row.perBilled < Full then Some(ToReceiveAndBillIndicator)
      else Some(ToReceiveIndicator)
    else if row.perBilled < Full then Some(ToBillIndicator)
    else if row.perBilled == Full then Some(CompletedIndicator)
    else None
  }

  /** The `status != "Closed"` tests are redundant: dropping them changes no
      indicator, and a Closed row never reaches a numeric rule. */
  lemma ClosedGuardsRedundant(row: Row)
    ensures GetIndicator(row) == GetIndicatorUnguarded(row)
    ensures row.status == "Closed" ==> GetIndicator(row) == Some(ClosedIndicator)
  {
  }

  /** Closed, On Hold and Delivered rows get their status indicator whatever
      their percentages. */
  lemma StatusRulesComeFirst(row: Row, other: Row)
    requires FixedStatus(row.status) && other.status == row.status
    ensures GetIndicator(row) == GetIndicator(other)
    ensures GetIndicator(row).Some? && GetIndicator(row).value.caption == row.status
  {
  }

  /** The numeric rules, for any other status: what is not fully received is
      "To Receive and Bill" or "To Receive" by the billed percentage; what is
      fully received is "To Bill" below, "Completed" at, and unmarked above
      100 percent billed. */
  lemma NumericRules(row: Row)
    requires !FixedStatus(row.status)
    ensures row.perReceived < Full && row.perBilled < Full ==> GetIndicator(row) == Some(ToReceiveAndBillIndicator)
    ensures row.perReceived < Full && row.perBilled >= Full ==> GetIndicator(row) == Some(ToReceiveIndicator)
    ensures row.perReceived >= Full && row.perBilled < Full ==> GetIndicator(row) == Some(ToBillIndicator)
    ensures row.perReceived >= Full && row.perBilled == Full ==> GetIndicator(row) == Some(CompletedIndicator)
    ensures GetIndicator(row).None? <==> row.perReceived >= Full && row.perBilled > Full
  {
  }

  /** Whether `row` satisfies one clause of a filter; fields a Purchase Order
      row does not have never match. */
  predicate Holds(row: Row, c: Clause)
  {
    match c.field
    case Status => TextHolds(c.op, row.status, c.value)
    case PerReceived => NumberHolds(c.op, row.perReceived, Scale, c.value)
    case PerBilled => NumberHolds(c.op, row.perBilled, Scale, c.value)
    case _ => false
  }

  predicate Matches(row: Row, f: Filter)
  {
    forall i :: 0 <= i < |f| ==> Holds(row, f[i])
  }

  /** Exactly when the filter of an indicator fails to select the row it was
      computed for: always for "Delivered", whose filter asks for Closed; and
      for the rules that test "at least 100" but filter on "= 100", when that
      percentage is above 100. */
  lemma FilterSelectsItsRow(row: Row)
    requires GetIndicator(row).Some?
    ensures !Matches(row, GetIndicator(row).value.filter) <==>
      || row.status == "Delivered"
      || (GetIndicator(row) == Some(ToReceiveIndicator) && row.perBilled != Full)
      || (GetIndicator(row) in {Some(ToBillIndicator), Some(CompletedIndicator)} && row.perReceived != Full)
  {
    var ind := GetIndicator(row).value;
    if row.status == "Delivered" {
      assert !Holds(row, ind.filter[0]);
    } else if ind == ToReceiveIndicator && row.perBilled != Full {
      assert !Holds(row, ind.filter[1]);
    } else if (ind == ToBillIndicator || ind == CompletedIndicator) && row.perReceived != Full {
      assert !Holds(row, ind.filter[0]);
    }
  }

  /** Every filter the Purchase Order rules hand to the host is well formed,
      so its string reads back as the same clauses. */
  lemma FiltersRoundTrip(row: Row)
    requires GetIndicator(row).Some?
    ensures WellFormed(GetIndicator(row).value.filter)
    ensures Parse(Serialize(GetIndicator(row).value.filter)) == Some(GetIndicator(row).value.filter)
  {
    StatusTextsWellFormed();
    ParseSerialize(GetIndicator(row).value.filter);
  }

  /** The status texts the rules filter on are plain text values. */
  lemma StatusTextsWellFormed()
    ensures WellFormedValue(Text("Closed"))
    ensures WellFormedValue(Text("On Hold"))
  {
    assert !IsDigit("Closed"[0]);
    assert !IsDigit("On Hold"[0]);
  }

  /** The text of every status clause the rules use. */
  lemma StatusClauseTexts()
    ensures ClauseText(Clause(Status, Eq, Text("Closed"))) == "status,=,Closed"
    ensures ClauseText(Clause(Status, Eq, Text("On Hold"))) == "status,=,On Hold"
    ensures ClauseText(NotClosed) == "status,!=,Closed"
  {
  }

  /** The text of every percentage clause the rules use. */
  lemma PercentClauseTexts()
    ensures ClauseText(Clause(PerReceived, Lt, Number(100))) == "per_received,<,100"
    ensures ClauseText(Clause(PerReceived, Eq, Number(100))) == "per_received,=,100"
    ensures ClauseText(Clause(PerBilled, Lt, Number(100))) == "per_billed,<,100"
    ensures ClauseText(Clause(PerBilled, Eq, Number(100))) == "per_billed,=,100"
  {
    SmallNumerals();
  }

  /** Each rule's filter serializes to exactly the filter text the list view
      hands to the host: its clauses, in the written order, joined by '|'. */
  lemma FilterTexts()
    ensures Serialize(ClosedIndicator.filter) == "status,=,Closed"
    ensures Serialize(OnHoldIndicator.filter) == "status,=,On Hold"
    ensures Serialize(DeliveredIndicator.filter) == "status,=,Closed"
    ensures Serialize(ToReceiveAndBillIndicator.filter) == "per_received,<,100" + "|" + "per_billed,<,100" + "|" + "status,!=,Closed"
    ensures Serialize(ToReceiveIndicator.filter) == "per_received,<,100" + "|" + "per_billed,=,100" + "|" + "status,!=,Closed"
    ensures Serialize(ToBillIndicator.filter) == "per_received,=,100" + "|" + "per_billed,<,100" + "|" + "status,!=,Closed"
    ensures Serialize(CompletedIndicator.filter) == "per_received,=,100" + "|" + "per_billed,=,100" + "|" + "status,!=,Closed"
  {
    StatusClauseTexts();
    PercentClauseTexts();
    SerializeOfOne(ClosedIndicator.filter[0]);
    SerializeOfOne(OnHoldIndicator.filter[0]);
    SerializeOfOne(DeliveredIndicator.filter[0]);
    SerializeOfThree(ToReceiveAndBillIndicator.filter[0], ToReceiveAndBillIndicator.filter[1], ToReceiveAndBillIndicator.filter[2]);
    SerializeOfThree(ToReceiveIndicator.filter[0], ToReceiveIndicator.filter[1], ToReceiveIndicator.filter[2]);
    SerializeOfThree(ToBillIndicator.filter[0], ToBillIndicator.filter[1], ToBillIndicator.filter[2]);
    SerializeOfThree(CompletedIndicator.filter[0], CompletedIndicator.filter[1], CompletedIndicator.filter[2]);
  }

  /** The Email action of this list: the counterparty is the supplier, and the
      contact and link lookups go to the bloomstack_core server methods. */
  const EmailSettings := BulkEmail.Settings(
    "Purchase Order",
    "bloomstack_core.utils.get_contact",
    "bloomstack_core.utils.get_document_links",
    "supplier",
    "Select only one Supplier's purchase orders")

  function SendEmail(docs: seq<Doc>): (o: BulkEmail.Outcome)
    ensures |docs| == 0 ==> o.error.None? && o.calls == []
    ensures o.error.Some? ==> o.calls == []
    ensures o.calls != [] <==> BulkEmail.Eligible(docs)
    ensures o.calls != [] ==>
      o.calls[0] == BulkEmail.GetContact("bloomstack_core.utils.get_contact", "Purchase Order", docs[0].name, "supplier")
  {
    BulkEmail.Run(EmailSettings, docs)
  }
}
