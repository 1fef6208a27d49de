/** The status rules of a Contract document: whether it is Active, Inactive or
    Unsigned on a given day, how far its fulfilment terms are met, and the date
    check its validation runs first. "Today" is a parameter. */
module ContractRules {
  import opened Base

  datatype ContractStatus = Active | Inactive | Unsigned
  {
    /** The value stored in the contract's status field. */
    function Text(): string
    {
      match this
      case Active => "Active"
      case Inactive => "Inactive"
      case Unsigned => "Unsigned"
    }
  }

  datatype FulfilmentStatus = NotApplicable | Unfulfilled | PartiallyFulfilled | Fulfilled | Lapsed
  {
    /** The value stored in the contract's fulfilment status field. */
    function Text(): string
    {
      match this
      case NotApplicable => "N/A"
      case Unfulfilled => "Unfulfilled"
      case PartiallyFulfilled => "Partially Fulfilled"
      case Fulfilled => "Fulfilled"
      case Lapsed => "Lapsed"
    }
  }

  /** The stored status values are the three words the status field takes, and
      each names one status. */
  lemma StatusTexts()
    ensures forall a: ContractStatus, b: ContractStatus :: a.Text() == b.Text() ==> a == b
    ensures forall a: ContractStatus :: a.Text() in {"Active", "Inactive", "Unsigned"}
  {
    assert "Active" != "Inactive" && "Active" != "Unsigned" && "Inactive" != "Unsigned";
  }

  /** The stored fulfilment status values are the five the field takes, and
      each names one status. */
  lemma FulfilmentTexts()
    ensures forall a: FulfilmentStatus, b: FulfilmentStatus :: a.Text() == b.Text() ==> a == b
    ensures forall a: FulfilmentStatus ::
      a.Text() in {"N/A", "Unfulfilled", "Partially Fulfilled", "Fulfilled", "Lapsed"}
  {
    assert "N/A"[0] != "Unfulfilled"[0] && "N/A"[0] != "Partially Fulfilled"[0] && "N/A"[0] != "Fulfilled"[0];
    assert "N/A"[0] != "Lapsed"[0] && "Unfulfilled"[0] != "Partially Fulfilled"[0];
    assert "Unfulfilled"[0] != "Fulfilled"[0] && "Unfulfilled"[0] != "Lapsed"[0];
    assert "Partially Fulfilled"[0] != "Fulfilled"[0] && "Partially Fulfilled"[0] != "Lapsed"[0];
    assert "Fulfilled"[0] != "Lapsed"[0];
  }

  /** A fulfilment term, of which only the fulfilled flag matters here. */
  datatype Term = Term(fulfilled: bool)

  /** The fields of a contract the status rules read. */
  datatype Contract = Contract(
    isSigned: bool,
    startDate: Date,
    endDate: Option<Date>,
    requiresFulfilment: bool,
    fulfilmentTerms: seq<Term>,
    fulfilmentDeadline: Option<Date>)

  /** The status of a contract running from `start` to `end` on `today`: with
      no end date it is always running. */
  function GetStatus(start: Date, end: Option<Date>, today: Date): (r: ContractStatus)
    ensures r != Unsigned
    ensures end.None? ==> r == Active
    ensures end.Some? ==> (r == Active <==> start <= today <= end.value)
  {
    if end.None? then Active
    else if start <= today <= end.value then Active
    else Inactive
  }

  /** The contract's status: an unsigned contract is Unsigned whatever its dates. */
  function UpdateContractStatus(c: Contract, today: Date): (r: ContractStatus)
    ensures r == Unsigned <==> !c.isSigned
    ensures r == Active <==> c.isSigned && (c.endDate.None? || c.startDate <= today <= c.endDate.value)
    ensures r == Inactive <==> c.isSigned && c.endDate.Some? && !(c.startDate <= today <= c.endDate.value)
  {
    if c.isSigned then GetStatus(c.startDate, c.endDate, today) else Unsigned
  }

  /** How many terms are flagged fulfilled. */
  function FulfilmentProgress(terms: seq<Term>): (r: nat)
    ensures r <= |terms|
    ensures r == |terms| <==> forall i :: 0 <= i < |terms| ==> terms[i].fulfilled
    ensures r == 0 <==> forall i :: 0 <= i < |terms| ==> !terms[i].fulfilled
  {
    if |terms| == 0 then 0
    else (if terms[0].fulfilled then 1 else 0) + FulfilmentProgress(terms[1..])
  }

  /** The terms' fulfilled flags, in order. */
  function Flags(terms: seq<Term>): (r: seq<bool>)
    ensures |r| == |terms|
    ensures forall i :: 0 <= i < |terms| ==> r[i] == terms[i].fulfilled
  {
    seq(|terms|, i requires 0 <= i < |terms| => terms[i].fulfilled)
  }

  /** The progress is the number of true flags among the terms' flags. */
  lemma {:induction false} ProgressCountsFulfilledFlags(terms: seq<Term>)
    ensures FulfilmentProgress(terms) == multiset(Flags(terms))[true]
  {
    if |terms| > 0 {
      ProgressCountsFulfilledFlags(terms[1..]);
      assert Flags(terms) == [terms[0].fulfilled] + Flags(terms[1..]);
    }
  }

  /** Fulfilling one more term never lowers the progress and raises it by one
      exactly when that term was not fulfilled before. */
  lemma {:induction false} ProgressMonotone(terms: seq<Term>, k: nat)
    requires k < |terms|
    ensures var after := terms[k := Term(true)];
      FulfilmentProgress(after) == FulfilmentProgress(terms) + (if terms[k].fulfilled then 0 else 1)
  {
    var after := terms[k := Term(true)];
    if k > 0 {
      assert after[1..] == terms[1..][k - 1 := Term(true)];
      ProgressMonotone(terms[1..], k - 1);
    } else {
      assert after[1..] == terms[1..];
    }
  }

  /** The deadline has passed: there is one and today is after it. */
  predicate DeadlinePassed(c: Contract, today: Date)
  {
    c.fulfilmentDeadline.Some? && today > c.fulfilmentDeadline.value
  }

  /** Every term is fulfilled, and there is at least one. */
  predicate AllTermsFulfilled(c: Contract)
  {
    |c.fulfilmentTerms| > 0 && forall i :: 0 <= i < |c.fulfilmentTerms| ==> c.fulfilmentTerms[i].fulfilled
  }

  /** The fulfilment status on `today`. The progress tests run in order and any
      status but Fulfilled lapses once the deadline has passed. */
  function UpdateFulfilmentStatus(c: Contract, today: Date): (r: FulfilmentStatus)
    ensures r == NotApplicable <==> !c.requiresFulfilment
    ensures r == Fulfilled <==> c.requiresFulfilment && AllTermsFulfilled(c)
    ensures r == Lapsed <==> c.requiresFulfilment && !AllTermsFulfilled(c) && DeadlinePassed(c, today)
    ensures r == Unfulfilled <==>
      c.requiresFulfilment && !DeadlinePassed(c, today) &&
      forall i :: 0 <= i < |c.fulfilmentTerms| ==> !c.fulfilmentTerms[i].fulfilled
    ensures r == PartiallyFulfilled <==>
      c.requiresFulfilment && !DeadlinePassed(c, today) &&
      0 < FulfilmentProgress(c.fulfilmentTerms) < |c.fulfilmentTerms|
  {
    if !c.requiresFulfilment then NotApplicable
    else
      var progress := FulfilmentProgress(c.fulfilmentTerms);
      var status :=
        if progress == 0 then Unfulfilled
        else if progress < |c.fulfilmentTerms| then PartiallyFulfilled
        else if progress == |c.fulfilmentTerms| then Fulfilled
        else NotApplicable;
      if status != Fulfilled && c.fulfilmentDeadline.Some? && today > c.fulfilmentDeadline.value then Lapsed
      else status
  }

  /** Once Fulfilled, a contract stays Fulfilled on every later day, whatever
      its deadline. */
  lemma FulfilledNeverLapses(c: Contract, today: Date, later: Date)
    requires UpdateFulfilmentStatus(c, today) == Fulfilled
    ensures UpdateFulfilmentStatus(c, later) == Fulfilled
    ensures UpdateFulfilmentStatus(c.(fulfilmentDeadline := Some(today - 1)), today) == Fulfilled
  {
  }

  /** The status a requiring contract has on the days it does not lapse depends
      only on its terms: the deadline can only turn it into Lapsed. */
  lemma DeadlineOnlyLapses(c: Contract, today: Date)
    requires c.requiresFulfilment
    ensures var r := UpdateFulfilmentStatus(c, today);
      r == UpdateFulfilmentStatus(c.(fulfilmentDeadline := None), today) || r == Lapsed
  {
  }

  datatype DateError = EndBeforeStart

  /** The date check: only an end date strictly before the start date fails. */
  function ValidateDates(c: Contract): (r: Option<DateError>)
    ensures r.Some? <==> c.endDate.Some? && c.endDate.value < c.startDate
  {
    if c.endDate.Some? && c.endDate.value < c.startDate then Some(EndBeforeStart) else None
  }

  /** What saving a contract yields: the date error, or the two statuses. */
  datatype Validation =
    | Rejected(error: DateError)
    | Validated(status: ContractStatus, fulfilment: FulfilmentStatus)

  /** Validation checks the dates first and sets no status when they fail. */
  function Validate(c: Contract, today: Date): (r: Validation)
    ensures r.Rejected? <==> c.endDate.Some? && c.endDate.value < c.startDate
    ensures r.Validated? ==> r.status == UpdateContractStatus(c, today)
    ensures r.Validated? ==> r.fulfilment == UpdateFulfilmentStatus(c, today)
  {
    match ValidateDates(c)
    case Some(e) => Rejected(e)
    case None => Validated(UpdateContractStatus(c, today), UpdateFulfilmentStatus(c, today))
  }

  /** A contract that passes validation and is signed with an end date is
      Active on its start and end days, and Inactive before and after them. */
  lemma ValidatedContractActiveOverItsTerm(c: Contract, today: Date)
    requires c.isSigned && c.endDate.Some? && Validate(c, today).Validated?
    ensures Validate(c, c.startDate).status == Active
    ensures Validate(c, c.endDate.value).status == Active
    ensures today < c.startDate || today > c.endDate.value ==> Validate(c, today).status == Inactive
  {
  }
}
