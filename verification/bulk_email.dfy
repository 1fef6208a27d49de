/** The Email bulk action shared by the Sales Order, Purchase Order and Sales
    Invoice list views. It validates the checked documents before any remote
    call: each must be submitted and all must share the first one's title, the
    counterparty. Only then does it ask the server for the counterparty's
    contact and, once that answers, for the links to the documents. The
    composer dialog the answers fill is outside the model. */
module BulkEmail {
  import opened Base

  /** What differs between the document types: the document type, the two
      server methods, the counterparty field and the mixed-title message. */
  datatype Settings = Settings(
    doctype: string,
    contactMethod: string,
    linksMethod: string,
    contactField: string,
    mixedTitleMessage: string)

  datatype EmailError = DraftOrCancelled | MixedCounterparty

  /** A server call the action makes. The link lookup is sent the checked rows
      themselves, not their names. */
  datatype RemoteCall =
    | GetContact(serverMethod: string, doctype: string, name: string, contactField: string)
    | GetDocumentLinks(serverMethod: string, doctype: string, docs: seq<Doc>)

  /** The error thrown, if any, and the remote calls issued, in order. */
  datatype Outcome = Outcome(error: Option<EmailError>, calls: seq<RemoteCall>)

  /** The verdict on one document, against the first document's title: the
      submitted test comes before the title test. */
  function Check(doc: Doc, title: string): (r: Option<EmailError>)
    ensures r.None? <==> doc.docstatus == 1 && doc.title == title
    ensures r == Some(DraftOrCancelled) <==> doc.docstatus != 1
  {
    if doc.docstatus != 1 then Some(DraftOrCancelled)
    else if doc.title != title then Some(MixedCounterparty)
    else None
  }

  /** Every checked document is submitted and has the first document's title. */
  predicate Eligible(docs: seq<Doc>)
  {
    |docs| > 0 && forall i :: 0 <= i < |docs| ==> docs[i].docstatus == 1 && docs[i].title == docs[0].title
  }

  /** The action run on the checked documents `docs`. The link lookup is made
      from the contact lookup's callback; the contact's answer is not modelled,
      so the link lookup is taken to follow it. */
  function Run(s: Settings, docs: seq<Doc>): (o: Outcome)
    ensures |docs| == 0 ==> o == Outcome(None, [])
    ensures o.error.Some? ==> o.calls == []
    ensures o.calls != [] <==> Eligible(docs)
    ensures o.error.None? <==> |docs| == 0 || Eligible(docs)
    ensures Eligible(docs) ==>
      o.calls == [GetContact(s.contactMethod, s.doctype, docs[0].name, s.contactField),
                  GetDocumentLinks(s.linksMethod, s.doctype, docs)]
    ensures o.error.Some? ==>
      exists k :: 0 <= k < |docs| && Check(docs[k], docs[0].title) == o.error &&
        forall j :: 0 <= j < k ==> Check(docs[j], docs[0].title).None?
  {
    if |docs| == 0 then Outcome(None, [])
    else
      var title := docs[0].title;
      match FirstFailure(docs, d => Check(d, title))
      case Some(e) => Outcome(Some(e), [])
      case None =>
        Outcome(None, [GetContact(s.contactMethod, s.doctype, docs[0].name, s.contactField),
                       GetDocumentLinks(s.linksMethod, s.doctype, docs)])
  }

  /** A selection that already fails keeps failing, with the same error and no
      call, however many documents are checked after it. */
  lemma FailureSurvivesMoreDocuments(s: Settings, docs: seq<Doc>, more: seq<Doc>)
    requires Run(s, docs).error.Some?
    ensures Run(s, docs + more) == Run(s, docs)
  {
    var title := docs[0].title;
    assert (docs + more)[0] == docs[0];
    FirstFailureOfPrefix(docs, more, d => Check(d, title));
  }
}
