/** The Sales Invoice list view: its indicator is a direct lookup of the
    invoice status in a colour table, and its Email bulk action is `BulkEmail`
    with `EmailSettings`. */
module SalesInvoiceList {
  import opened Base
  import opened Indicators
  import BulkEmail

  /** The colour of each status the list view knows. */
  const StatusColours: map<string, Colour> := map[
    "Draft" := Grey,
    "Unpaid" := Orange,
    "Paid" := Green,
    "Return" := DarkGrey,
    "Credit Note Issued" := DarkGrey,
    "Unpaid and Discounted" := Orange,
    "Overdue and Discounted" := Red,
    "Overdue" := Red]

  /** The indicator of an invoice with status `status`: captioned with the status
      itself and filtered on it, coloured from the table when the table has it. */
  function GetIndicator(status: string): (r: Indicator)
    ensures r.caption == status
    ensures r.filter == [Clause(Status, Eq, Text(status))]
    ensures r.colour.Some? <==> status in StatusColours
  {
    Indicator(status, if status in StatusColours then Some(StatusColours[status]) else None,
              [Clause(Status, Eq, Text(status))])
  }

  /** The colour table covers exactly eight statuses, with these colours. */
  lemma ColourTable()
    ensures StatusColours.Keys ==
      {"Draft", "Unpaid", "Paid", "Return", "Credit Note Issued",
       "Unpaid and Discounted", "Overdue and Discounted", "Overdue"}
    ensures |StatusColours| == 8
    ensures GetIndicator("Paid").colour == Some(Green)
    ensures GetIndicator("Overdue").colour == Some(Red)
    ensures GetIndicator("Overdue and Discounted").colour == Some(Red)
    ensures GetIndicator("Unpaid").colour == Some(Orange)
    ensures GetIndicator("Unpaid and Discounted").colour == Some(Orange)
    ensures GetIndicator("Draft").colour == Some(Grey)
    ensures GetIndicator("Return").colour == Some(DarkGrey)
    ensures GetIndicator("Credit Note Issued").colour == Some(DarkGrey)
  {
  }

  /** The filter string is "status,=," followed by the status, and an invoice
      always satisfies the filter of its own indicator. */
  lemma FilterIsStatus(status: string)
    ensures Serialize(GetIndicator(status).filter) == "status,=," + status
    ensures TextHolds(GetIndicator(status).filter[0].op, status, GetIndicator(status).filter[0].value)
  {
    SpelledOne(GetIndicator(status).filter, "status" + "," + "=" + "," + status);
  }

  /** The filter of every status in the colour table reads back from its
      string as the same clause. */
  lemma TableFiltersRoundTrip(status: string)
    requires status in StatusColours
    ensures WellFormed(GetIndicator(status).filter)
    ensures Parse(Serialize(GetIndicator(status).filter)) == Some(GetIndicator(status).filter)
  {
    TableStatusesWellFormed();
    ParseSerialize(GetIndicator(status).filter);
  }

  /** No status in the colour table holds a separator, or reads as a numeral
      or as the date placeholder. */
  lemma TableStatusesWellFormed()
    ensures forall status :: status in StatusColours ==> WellFormedValue(Text(status))
  {
    forall status | status in StatusColours
      ensures WellFormedValue(Text(status))
    {
      if status == "Unpaid and Discounted" || status == "Overdue and Discounted" {
        DiscountedStatusesWellFormed(status);
      } else {
        PlainStatusesWellFormed(status);
      }
    }
  }

  lemma DiscountedStatusesWellFormed(status: string)
    requires status == "Unpaid and Discounted" || status == "Overdue and Discounted"
    ensures WellFormedValue(Text(status))
  {
    assert ',' !in status;
    assert '|' !in status;
    assert !IsDigit(status[0]);
  }

  lemma PlainStatusesWellFormed(status: string)
    requires status == "Draft" || status == "Unpaid" || status == "Paid" || status == "Overdue" ||
             status == "Return" || status == "Credit Note Issued"
    ensures WellFormedValue(Text(status))
  {
    assert !IsDigit(status[0]);
  }

  /** Statuses are not restricted, and the model's `Parse` reads the string
      `status,=,100` as a number clause, so a status that is all digits does not
      read back as text. This is a limit of the model's reader. */
  lemma NumeralStatusReadsBackAsNumber()
    ensures !WellFormed(GetIndicator("100").filter)
    ensures Parse(Serialize(GetIndicator("100").filter)) != Some(GetIndicator("100").filter)
  {
    var f := GetIndicator("100").filter;
    assert IsNumeral("100");
    ClauseRoundTrip(Clause(Status, Eq, Number(100)));
    SmallNumerals();
    SerializeOfOne(f[0]);
    assert f == [f[0]];
    assert ClauseText(f[0]) == ClauseText(Clause(Status, Eq, Number(100)));
    assert Split(ClauseText(f[0]), '|') == [ClauseText(f[0])] by {
      SplitWithoutSeparator(ClauseText(f[0]), '|');
    }
  }

  /** The Email action of this list: the counterparty is the customer. */
  const EmailSettings := BulkEmail.Settings(
    "Sales Invoice",
    "erpnext.utilities.utils.get_contact",
    "erpnext.utilities.utils.get_document_links",
    "customer",
    "Select only one customer's sales invoice")

  function SendEmail(docs: seq<Doc>): (o: BulkEmail.Outcome)
    ensures |docs| == 0 ==> o.error.None? && o.calls == []
    ensures o.error.Some? ==> o.calls == []
    ensures o.calls != [] <==> BulkEmail.Eligible(docs)
    ensures o.calls != [] ==>
      o.calls[0] == BulkEmail.GetContact("erpnext.utilities.utils.get_contact", "Sales Invoice", docs[0].name, "customer")
  {
    BulkEmail.Run(EmailSettings, docs)
  }
}
