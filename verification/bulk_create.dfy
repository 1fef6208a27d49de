/** The Sales Order list's create-from-order bulk actions (Pick Lists, Sales
    Invoices, Delivery Notes). An action first checks every selected order,
    then asks the user to confirm, then makes one blocking server call with the
    order names. The server's answer lists, per order, whether documents were
    newly created or already existed. `Handle` is the intended handling of that
    answer: summarise the two groups, created first, show the server's own
    messages after the summary, and refresh the list. As written, the summary
    lines are tagged template literals whose tag is an empty string and whose
    substitutions name an out-of-scope `order`, so the callback throws before
    the summary whenever an entry is flagged true or false. */
module BulkCreate {
  import opened Base

  /** The document type an action creates and the server method that does it. */
  datatype Target = Target(doctype: string, serverMethod: string)

  const PickLists := Target("Pick List",
    "erpnext.selling.doctype.sales_order.sales_order.create_multiple_pick_lists")
  const SalesInvoices := Target("Sales Invoice",
    "erpnext.selling.doctype.sales_order.sales_order.create_multiple_sales_invoices")
  /** The method name is spelled as the list view spells it. */
  const DeliveryNotes := Target("Delivery Note",
    "erpnext.selling.doctype.sales_order.sales_order.create_muliple_delivery_notes")

  datatype CreateError = CannotCreate(target: string, status: string)

  /** The confirmation prompt: how many documents of which type will be made. */
  datatype Confirmation = Confirmation(target: string, count: nat)

  datatype CreateCall = CreateCall(serverMethod: string, orders: seq<string>, freeze: bool)

  /** What the action does before the server answers: the error it throws, the
      prompt it shows and the call it makes, each possibly absent. */
  datatype Request = Request(error: Option<CreateError>, prompt: Option<Confirmation>, call: Option<CreateCall>)

  /** An order documents can be created from: submitted, and neither on hold nor closed. */
  predicate Creatable(doc: Doc)
  {
    doc.docstatus == 1 && doc.status != "On Hold" && doc.status != "Closed"
  }

  function Check(t: Target, doc: Doc): (r: Option<CreateError>)
    ensures r.None? <==> Creatable(doc)
  {
    if doc.docstatus != 1 || doc.status in ["On Hold", "Closed"] then Some(CannotCreate(t.doctype, doc.status))
    else None
  }

  /** The action on the selected orders `docs`, where `confirmed` is the user's
      answer to the prompt. */
  function Start(t: Target, docs: seq<Doc>, confirmed: bool): (r: Request)
    ensures |docs| == 0 ==> r == Request(None, None, None)
    ensures r.error.Some? ==> r.prompt.None? && r.call.None?
    ensures r.error.Some? <==> exists i :: 0 <= i < |docs| && !Creatable(docs[i])
    ensures r.error.Some? ==>
      exists k :: 0 <= k < |docs| && !Creatable(docs[k]) && r.error == Some(CannotCreate(t.doctype, docs[k].status)) &&
        forall j :: 0 <= j < k ==> Creatable(docs[j])
    ensures r.prompt.Some? <==> |docs| > 0 && forall i :: 0 <= i < |docs| ==> Creatable(docs[i])
    ensures r.prompt.Some? ==> r.prompt.value == Confirmation(t.doctype, |docs|)
    ensures r.call.Some? <==> r.prompt.Some? && confirmed
    ensures r.call.Some? ==> r.call.value == CreateCall(t.serverMethod, Names(docs), true)
  {
    if |docs| == 0 then Request(None, None, None)
    else match FirstFailure(docs, d => Check(t, d))
      case Some(e) => Request(Some(e), None, None)
      case None =>
        var prompt := Confirmation(t.doctype, |docs|);
        Request(None, Some(prompt), if confirmed then Some(CreateCall(t.serverMethod, Names(docs), true)) else None)
  }

  // ---------------------------------------------------------------------------
  // Handling the server's answer

  /** The JavaScript value of an entry's `created` flag: the groups are chosen
      with strict comparisons against true and false, so any other value is
      in neither. */
  datatype Flag = True | False | Other

  /** One order's entry in the answer: its flag and the names of the documents
      of the target type made or found for it. */
  datatype Entry = Entry(created: Flag, docs: seq<string>)

  datatype Response = Response(exc: bool, entries: seq<Entry>, serverMessages: Option<seq<string>>)

  /** A summary line lists the documents' links, or says there are no items. */
  datatype Line = Links(names: seq<string>) | NoItems

  datatype Section = Section(created: bool, lines: seq<Line>)

  datatype Notice = Summary(target: string, sections: seq<Section>) | ServerNotice(text: string)

  /** The notices shown in order, whether the list is refreshed, and the server
      messages left on the answer for the host to show itself. */
  datatype Handling = Handling(notices: seq<Notice>, refresh: bool, leftForHost: Option<seq<string>>)

  /** The entries whose flag is `flag`, in answer order. */
  function Group(entries: seq<Entry>, flag: Flag): (r: seq<Entry>)
    ensures |r| <= |entries|
    ensures forall e :: e in r <==> e in entries && e.created == flag
  {
    if |entries| == 0 then []
    else if entries[0].created == flag then [entries[0]] + Group(entries[1..], flag)
    else Group(entries[1..], flag)
  }

  /** Grouping keeps the answer's order: the group of a concatenation is the
      concatenation of the groups. */
  lemma {:induction false} GroupOfConcat(xs: seq<Entry>, ys: seq<Entry>, flag: Flag)
    ensures Group(xs + ys, flag) == Group(xs, flag) + Group(ys, flag)
  {
    if |xs| == 0 {
      assert xs + ys == ys;
    } else {
      assert (xs + ys)[0] == xs[0];
      assert (xs + ys)[1..] == xs[1..] + ys;
      GroupOfConcat(xs[1..], ys, flag);
    }
  }

  /** One entry is kept exactly when it carries the flag. */
  lemma GroupOfOne(e: Entry, flag: Flag)
    ensures Group([e], flag) == if e.created == flag then [e] else []
  {
    assert [e][1..] == [];
  }

  /** The three groups split the answer: every entry is in exactly one, so the
      true and false groups together miss exactly the entries flagged otherwise. */
  lemma {:induction false} GroupsPartition(entries: seq<Entry>)
    ensures multiset(entries) == multiset(Group(entries, True)) + multiset(Group(entries, False)) + multiset(Group(entries, Other))
    ensures |Group(entries, True)| + |Group(entries, False)| + |Group(entries, Other)| == |entries|
  {
    if |entries| > 0 {
      GroupsPartition(entries[1..]);
      assert entries == [entries[0]] + entries[1..];
    }
  }

  /** Created orders list their links as they are, even none. */
  function CreatedLines(group: seq<Entry>): (r: seq<Line>)
    ensures |r| == |group|
    ensures forall i :: 0 <= i < |group| ==> r[i] == Links(group[i].docs)
  {
    if |group| == 0 then [] else [Links(group[0].docs)] + CreatedLines(group[1..])
  }

  /** Existing orders with no documents say so instead of listing nothing. */
  function ExistingLines(group: seq<Entry>): (r: seq<Line>)
    ensures |r| == |group|
    ensures forall i :: 0 <= i < |group| ==> (r[i] == NoItems <==> group[i].docs == [])
    ensures forall i :: 0 <= i < |group| ==> r[i].Links? ==> r[i].names == group[i].docs
  {
    if |group| == 0 then []
    else [if group[0].docs == [] then NoItems else Links(group[0].docs)] + ExistingLines(group[1..])
  }

  /** Some entry of the answer carries `flag`. */
  predicate Flagged(entries: seq<Entry>, flag: Flag)
  {
    exists i :: 0 <= i < |entries| && entries[i].created == flag
  }

  /** The summary's sections: created orders first, then existing ones, each
      present only when its group is not empty. */
  function Sections(entries: seq<Entry>): (r: seq<Section>)
    ensures forall k :: 0 <= k < |r| ==> |r[k].lines| > 0
    ensures forall k, l :: 0 <= k < l < |r| ==> r[k].created && !r[l].created
    ensures (|r| > 0 && r[0].created) <==> Flagged(entries, True)
    ensures (|r| > 0 && !r[|r| - 1].created) <==> Flagged(entries, False)
    ensures forall k :: 0 <= k < |r| && r[k].created ==> r[k].lines == CreatedLines(Group(entries, True))
    ensures forall k :: 0 <= k < |r| && !r[k].created ==> r[k].lines == ExistingLines(Group(entries, False))
  {
    GroupNonEmpty(entries, True);
    GroupNonEmpty(entries, False);
    Arrange(Group(entries, True), Group(entries, False))
  }

  /** The sections for the created group and the existing group: the created
      section first, each present exactly when its group is not empty. */
  function Arrange(created: seq<Entry>, existing: seq<Entry>): (r: seq<Section>)
    ensures forall k :: 0 <= k < |r| ==> |r[k].lines| > 0
    ensures forall k, l :: 0 <= k < l < |r| ==> r[k].created && !r[l].created
    ensures (|r| > 0 && r[0].created) <==> created != []
    ensures (|r| > 0 && !r[|r| - 1].created) <==> existing != []
    ensures forall k :: 0 <= k < |r| && r[k].created ==> r[k].lines == CreatedLines(created)
    ensures forall k :: 0 <= k < |r| && !r[k].created ==> r[k].lines == ExistingLines(existing)
  {
    if created == [] && existing == [] then []
    else if existing == [] then [Section(true, CreatedLines(created))]
    else if created == [] then [Section(false, ExistingLines(existing))]
    else [Section(true, CreatedLines(created)), Section(false, ExistingLines(existing))]
  }

  lemma GroupNonEmpty(entries: seq<Entry>, flag: Flag)
    ensures Group(entries, flag) != [] <==> Flagged(entries, flag)
  {
    var g := Group(entries, flag);
    if g != [] {
      assert g[0] in g;
    }
    forall i | 0 <= i < |entries| && entries[i].created == flag
      ensures entries[i] in g
    {
    }
  }

  /** The server messages shown as notices of their own, in order. */
  function ServerNotices(messages: seq<string>): (r: seq<Notice>)
    ensures |r| == |messages|
    ensures forall i :: 0 <= i < |messages| ==> r[i] == ServerNotice(messages[i])
  {
    if |messages| == 0 then [] else [ServerNotice(messages[0])] + ServerNotices(messages[1..])
  }

  /** The handling of the server's answer. */
  function Handle(t: Target, resp: Response): (h: Handling)
    ensures resp.exc || |resp.entries| == 0 ==> h == Handling([], false, resp.serverMessages)
    ensures !resp.exc && |resp.entries| > 0 ==>
      && h.refresh
      && h.leftForHost.None?
      && |h.notices| >= 1
      && h.notices[0] == Summary(t.doctype, Sections(resp.entries))
      && (resp.serverMessages.None? ==> |h.notices| == 1)
      && (resp.serverMessages.Some? ==> h.notices[1..] == ServerNotices(resp.serverMessages.value))
  {
    if resp.exc || |resp.entries| == 0 then Handling([], false, resp.serverMessages)
    else
      var summary := Summary(t.doctype, Sections(resp.entries));
      match resp.serverMessages
      case None => Handling([summary], true, None)
      case Some(messages) => Handling([summary] + ServerNotices(messages), true, None)
  }

  /** Each server message is shown exactly once: either by the action, after
      its summary, or by the host, never both. */
  lemma ServerMessagesShownOnce(t: Target, resp: Response, m: string)
    requires resp.serverMessages.Some? && m in resp.serverMessages.value
    ensures var h := Handle(t, resp);
      (ServerNotice(m) in h.notices) != (h.leftForHost.Some? && m in h.leftForHost.value)
  {
    var h := Handle(t, resp);
    if !resp.exc && |resp.entries| > 0 {
      var messages := resp.serverMessages.value;
      var i :| 0 <= i < |messages| && messages[i] == m;
      assert h.notices[1 + i] == ServerNotice(m);
    }
  }
}
