/** Shared vocabulary of the list-view and contract models: optional values,
    calendar dates and the list-row view of a submitted document. */
module Base {

  /** A value that may be absent: a blank date field, a rule that matched nothing,
      a colour the lookup table does not define. */
  datatype Option<+T> = None | Some(value: T)

  /** A calendar date as a day number: a later day has a larger number. Parsing
      and time zones belong to the host framework, so only the order matters. */
  type Date = int

  /** Signed number of days from `today` to `d`. Only its sign is modelled,
      which is all the Sales Order rule reads of the framework's date
      difference helper. */
  function DaysFrom(d: Date, today: Date): (r: int)
    ensures r < 0 <==> d < today
    ensures r == 0 <==> d == today
  {
    d - today
  }

  /** The fields of a checked list row that the bulk actions look at.
      `docstatus` is 0 for a draft, 1 for a submitted and 2 for a cancelled
      document; `title` names the counterparty. */
  datatype Doc = Doc(name: string, docstatus: int, title: string, status: string)

  /** The document names of a selection, in selection order. */
  function Names(docs: seq<Doc>): (r: seq<string>)
    ensures |r| == |docs|
    ensures forall i :: 0 <= i < |docs| ==> r[i] == docs[i].name
  {
    if |docs| == 0 then [] else [docs[0].name] + Names(docs[1..])
  }

  /** The verdict of the first element `check` rejects, scanning in order, or
      None when it rejects none: a loop that throws at the first bad element. */
  function FirstFailure<T, E>(xs: seq<T>, check: T -> Option<E>): (r: Option<E>)
    ensures r.None? <==> forall i :: 0 <= i < |xs| ==> check(xs[i]).None?
    ensures r.Some? ==>
      exists k :: 0 <= k < |xs| && check(xs[k]) == r && forall j :: 0 <= j < k ==> check(xs[j]).None?
  {
    if |xs| == 0 then None
    else if check(xs[0]).Some? then check(xs[0])
    else FirstFailure(xs[1..], check)
  }

  /** Once a prefix already fails, what follows it changes nothing: the verdict
      is the prefix's. */
  lemma {:induction false} FirstFailureOfPrefix<T, E>(xs: seq<T>, ys: seq<T>, check: T -> Option<E>)
    requires FirstFailure(xs, check).Some?
    ensures FirstFailure(xs + ys, check) == FirstFailure(xs, check)
  {
    if check(xs[0]).None? {
      assert (xs + ys)[1..] == xs[1..] + ys;
      FirstFailureOfPrefix(xs[1..], ys, check);
    }
  }
}
