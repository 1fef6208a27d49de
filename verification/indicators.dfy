/** A list indicator is the triple the host list view renders as a status badge:
    a caption (the label), a colour and a filter clause. The filter clause is kept here as a
    structured predicate, a list of (field, operator, value) conditions, and is
    turned into the host's "field,op,value|field,op,value" string only by
    `Serialize`; `Parse` reads such a string back. */
module Indicators {
  import opened Base

  datatype Colour = Green | Orange | Red | Grey | DarkGrey

  /** The document fields that the indicator filter clauses mention. */
  datatype Field = Status | PerDelivered | PerBilled | PerReceived | GrandTotal | DeliveryDate

  datatype Op = Eq | Ne | Lt

  /** A right-hand side: a literal text, a whole number, or the host's
      placeholder for the current date. */
  datatype Value = Text(text: string) | Number(n: nat) | Today

  datatype Clause = Clause(field: Field, op: Op, value: Value)

  /** Conjunction of clauses, in the order they are written. */
  type Filter = seq<Clause>

  /** The colour is optional because a lookup table may not define one for a
      status; the badge is then rendered without a colour. */
  datatype Indicator = Indicator(caption: string, colour: Option<Colour>, filter: Filter)

  function FieldName(f: Field): string
  {
    match f
    case Status => "status"
    case PerDelivered => "per_delivered"
    case PerBilled => "per_billed"
    case PerReceived => "per_received"
    case GrandTotal => "grand_total"
    case DeliveryDate => "delivery_date"
  }

  function FieldNamed(s: string): (r: Option<Field>)
    ensures r.Some? ==> FieldName(r.value) == s
  {
    if s == "status" then Some(Status)
    else if s == "per_delivered" then Some(PerDelivered)
    else if s == "per_billed" then Some(PerBilled)
    else if s == "per_received" then Some(PerReceived)
    else if s == "grand_total" then Some(GrandTotal)
    else if s == "delivery_date" then Some(DeliveryDate)
    else None
  }

  function OpSymbol(o: Op): string
  {
    match o
    case Eq => "="
    case Ne => "!="
    case Lt => "<"
  }

  function OpNamed(s: string): (r: Option<Op>)
    ensures r.Some? ==> OpSymbol(r.value) == s
  {
    if s == "=" then Some(Eq)
    else if s == "!=" then Some(Ne)
    else if s == "<" then Some(Lt)
    else None
  }

  // ---------------------------------------------------------------------------
  // Decimal numerals

  predicate IsDigit(c: char)
  {
    '0' <= c <= '9'
  }

  predicate AllDigits(s: string)
  {
    forall i :: 0 <= i < |s| ==> IsDigit(s[i])
  }

  predicate IsNumeral(s: string)
  {
    |s| > 0 && AllDigits(s)
  }

  function DigitChar(d: nat): (c: char)
    requires d < 10
    ensures IsDigit(c)
    ensures c as int - '0' as int == d
  {
    ('0' as int + d) as char
  }

  /** The decimal numeral of `n`, most significant digit first. */
  function Numeral(n: nat): (s: string)
    ensures IsNumeral(s)
  {
    if n < 10 then [DigitChar(n)] else Numeral(n / 10) + [DigitChar(n % 10)]
  }

  /** The value of a string of decimal digits. */
  function NumeralValue(s: string): nat
    requires AllDigits(s)
  {
    if |s| == 0 then 0
    else 10 * NumeralValue(s[..|s| - 1]) + (s[|s| - 1] as int - '0' as int)
  }

  lemma {:induction false} NumeralValueOfNumeral(n: nat)
    ensures NumeralValue(Numeral(n)) == n
  {
    var s := Numeral(n);
    if n >= 10 {
      assert s[..|s| - 1] == Numeral(n / 10);
      NumeralValueOfNumeral(n / 10);
    }
  }

  // ---------------------------------------------------------------------------
  // Joining and splitting on a separator character

  function Join(parts: seq<string>, sep: char): string
  {
    if |parts| == 0 then ""
    else if |parts| == 1 then parts[0]
    else parts[0] + [sep] + Join(parts[1..], sep)
  }

  /** Splits `s` at every occurrence of `sep`; always yields at least one piece. */
  function Split(s: string, sep: char): (r: seq<string>)
    ensures |r| >= 1
  {
    if |s| == 0 then [""]
    else if s[0] == sep then [""] + Split(s[1..], sep)
    else
      var rest := Split(s[1..], sep);
      [[s[0]] + rest[0]] + rest[1..]
  }

  lemma {:induction false} SplitWithoutSeparator(p: string, sep: char)
    requires sep !in p
    ensures Split(p, sep) == [p]
  {
    if |p| > 0 {
      SplitWithoutSeparator(p[1..], sep);
      assert [p[0]] + p[1..] == p;
    }
  }

  lemma {:induction false} SplitAtFirstSeparator(p: string, sep: char, rest: string)
    requires sep !in p
    ensures Split(p + [sep] + rest, sep) == [p] + Split(rest, sep)
  {
    if |p| == 0 {
      assert p + [sep] + rest == [sep] + rest;
      assert ([sep] + rest)[1..] == rest;
    } else {
      var s := p + [sep] + rest;
      assert s[1..] == p[1..] + [sep] + rest;
      SplitAtFirstSeparator(p[1..], sep, rest);
      assert [p[0]] + p[1..] == p;
    }
  }

  /** Splitting undoes joining when no piece contains the separator. */
  lemma {:induction false} SplitJoin(parts: seq<string>, sep: char)
    requires |parts| >= 1
    requires forall i :: 0 <= i < |parts| ==> sep !in parts[i]
    ensures Split(Join(parts, sep), sep) == parts
  {
    if |parts| == 1 {
      SplitWithoutSeparator(parts[0], sep);
    } else {
      SplitJoin(parts[1..], sep);
      SplitAtFirstSeparator(parts[0], sep, Join(parts[1..], sep));
      assert [parts[0]] + parts[1..] == parts;
    }
  }

  /** A character that is neither the separator nor in any piece is not in the join. */
  lemma {:induction false} JoinAvoids(parts: seq<string>, sep: char, c: char)
    requires c != sep
    requires forall i :: 0 <= i < |parts| ==> c !in parts[i]
    ensures c !in Join(parts, sep)
  {
    if |parts| > 1 {
      JoinAvoids(parts[1..], sep, c);
    }
  }

  // ---------------------------------------------------------------------------
  // Filter clause strings

  function ValueText(v: Value): string
  {
    match v
    case Text(t) => t
    case Number(n) => Numeral(n)
    case Today => "Today"
  }

  /** Reads a value back: the placeholder word, a numeral, or else literal text. */
  function ValueOf(s: string): Value
  {
    if s == "Today" then Today
    else if IsNumeral(s) then Number(NumeralValue(s))
    else Text(s)
  }

  /** The string of a clause: field name, operator and value separated by commas. */
  function ClauseText(c: Clause): string
  {
    FieldName(c.field) + "," + OpSymbol(c.op) + "," + ValueText(c.value)
  }

  function ClauseTexts(f: Filter): (r: seq<string>)
    ensures |r| == |f|
    ensures forall i :: 0 <= i < |f| ==> r[i] == ClauseText(f[i])
  {
    if |f| == 0 then [] else [ClauseText(f[0])] + ClauseTexts(f[1..])
  }

  /** The host's string form of a filter: clauses joined by '|'. */
  function Serialize(f: Filter): string
  {
    Join(ClauseTexts(f), '|')
  }

  function ParseClause(s: string): (r: Option<Clause>)
  {
    var parts := Split(s, ',');
    if |parts| != 3 then None
    else match (FieldNamed(parts[0]), OpNamed(parts[1]))
      case (Some(f), Some(o)) => Some(Clause(f, o, ValueOf(parts[2])))
      case _ => None
  }

  function ParseClauses(texts: seq<string>): (r: Option<Filter>)
    ensures r.Some? ==> |r.value| == |texts|
  {
    if |texts| == 0 then Some([])
    else match (ParseClause(texts[0]), ParseClauses(texts[1..]))
      case (Some(c), Some(cs)) => Some([c] + cs)
      case _ => None
  }

  function Parse(s: string): Option<Filter>
  {
    ParseClauses(Split(s, '|'))
  }

  /** A literal text value survives the round trip when it contains neither
      separator and cannot be mistaken for a numeral or the date placeholder. */
  predicate WellFormedValue(v: Value)
  {
    v.Text? ==> ',' !in v.text && '|' !in v.text && v.text != "Today" && !IsNumeral(v.text)
  }

  predicate WellFormed(f: Filter)
  {
    |f| >= 1 && forall i :: 0 <= i < |f| ==> WellFormedValue(f[i].value)
  }

  lemma ValueRoundTrip(v: Value)
    requires WellFormedValue(v)
    ensures ValueOf(ValueText(v)) == v
    ensures ',' !in ValueText(v) && '|' !in ValueText(v)
  {
    if v.Number? {
      NumeralValueOfNumeral(v.n);
      var s := Numeral(v.n);
      assert s != "Today" by { assert !IsDigit("Today"[0]); }
      assert forall i :: 0 <= i < |s| ==> s[i] != ',' && s[i] != '|' by {
        assert forall i :: 0 <= i < |s| ==> IsDigit(s[i]);
      }
    }
  }

  /** A field name reads back as its field and holds neither separator. */
  lemma FieldNameRoundTrip(f: Field)
    ensures FieldNamed(FieldName(f)) == Some(f)
    ensures ',' !in FieldName(f) && '|' !in FieldName(f)
  {
    match f
    case _ =>
  }

  /** An operator symbol reads back as its operator and holds neither separator. */
  lemma OpSymbolRoundTrip(o: Op)
    ensures OpNamed(OpSymbol(o)) == Some(o)
    ensures ',' !in OpSymbol(o) && '|' !in OpSymbol(o)
  {
    match o
    case _ =>
  }

  lemma ClauseRoundTrip(c: Clause)
    requires WellFormedValue(c.value)
    ensures ParseClause(ClauseText(c)) == Some(c)
    ensures '|' !in ClauseText(c)
  {
    ValueRoundTrip(c.value);
    FieldNameRoundTrip(c.field);
    OpSymbolRoundTrip(c.op);
    var parts := [FieldName(c.field), OpSymbol(c.op), ValueText(c.value)];
    SplitJoin(parts, ',');
    JoinOfThree(parts[0], parts[1], parts[2], ',');
    JoinAvoids(parts, ',', '|');
  }

  lemma {:induction false} ParseClausesOfTexts(f: Filter)
    requires forall i :: 0 <= i < |f| ==> WellFormedValue(f[i].value)
    ensures ParseClauses(ClauseTexts(f)) == Some(f)
  {
    if |f| > 0 {
      ClauseRoundTrip(f[0]);
      ParseClausesOfTexts(f[1..]);
      assert ClauseTexts(f)[1..] == ClauseTexts(f[1..]);
      assert [f[0]] + f[1..] == f;
    }
  }

  /** Reading back the string of a well-formed filter recovers the filter, so
      the string carries exactly the predicate that chose the label. */
  lemma ParseSerialize(f: Filter)
    requires WellFormed(f)
    ensures Parse(Serialize(f)) == Some(f)
  {
    var texts := ClauseTexts(f);
    forall i | 0 <= i < |texts|
      ensures '|' !in texts[i]
    {
      ClauseRoundTrip(f[i]);
    }
    SplitJoin(texts, '|');
    ParseClausesOfTexts(f);
  }

  /** Two well-formed filters with the same string are the same filter. */
  lemma SerializeInjective(f: Filter, g: Filter)
    requires WellFormed(f) && WellFormed(g)
    requires Serialize(f) == Serialize(g)
    ensures f == g
  {
    ParseSerialize(f);
    ParseSerialize(g);
  }

  lemma JoinOfThree(a: string, b: string, c: string, sep: char)
    ensures Join([a, b, c], sep) == a + [sep] + b + [sep] + c
  {
    assert [a, b, c][1..] == [b, c];
    assert [b, c][1..] == [c];
    assert Join([c], sep) == c;
    assert Join([b, c], sep) == b + [sep] + c;
    assert Join([a, b, c], sep) == a + [sep] + (b + [sep] + c);
  }

  /** The string of a filter of one clause, given the string of the clause. */
  lemma SpelledOne(f: Filter, s1: string)
    requires |f| == 1 && ClauseText(f[0]) == s1
    ensures Serialize(f) == s1
  {
    SerializeOfOne(f[0]);
    assert f == [f[0]];
  }

  /** The string of a filter of three clauses, from the clauses' strings. */
  lemma SerializeOfThree(c1: Clause, c2: Clause, c3: Clause)
    ensures Serialize([c1, c2, c3]) == ClauseText(c1) + "|" + ClauseText(c2) + "|" + ClauseText(c3)
  {
    assert ClauseTexts([c1, c2, c3]) == [ClauseText(c1), ClauseText(c2), ClauseText(c3)];
    JoinOfThree(ClauseText(c1), ClauseText(c2), ClauseText(c3), '|');
  }

  lemma SerializeOfTwo(c1: Clause, c2: Clause)
    ensures Serialize([c1, c2]) == ClauseText(c1) + "|" + ClauseText(c2)
  {
    assert ClauseTexts([c1, c2]) == [ClauseText(c1), ClauseText(c2)];
    assert [ClauseText(c1), ClauseText(c2)][1..] == [ClauseText(c2)];
    assert Join([ClauseText(c2)], '|') == ClauseText(c2);
  }

  lemma SerializeOfOne(c: Clause)
    ensures Serialize([c]) == ClauseText(c)
  {
    assert ClauseTexts([c]) == [ClauseText(c)];
  }

  /** The two numbers the host filter strings use. */
  lemma SmallNumerals()
    ensures Numeral(0) == "0"
    ensures Numeral(100) == "100"
  {
    assert Numeral(1) == "1";
    assert Numeral(10) == Numeral(1) + [DigitChar(0)];
    assert Numeral(100) == Numeral(10) + [DigitChar(0)];
  }

  // ---------------------------------------------------------------------------
  // Evaluating a clause against a row's field values

  /** A text field compared with a literal; only equality tests apply. */
  predicate TextHolds(op: Op, actual: string, v: Value)
  {
    v.Text? && (op == Eq ==> actual == v.text) && (op == Ne ==> actual != v.text) && op != Lt
  }

  /** A numeric field compared with a whole number, the field being counted in
      units of 1/`scale` of the number. */
  predicate NumberHolds(op: Op, actual: int, scale: nat, v: Value)
  {
    v.Number? &&
    match op
    case Eq => actual == v.n * scale
    case Ne => actual != v.n * scale
    case Lt => actual < v.n * scale
  }

  /** A date field compared with the current date. */
  predicate DateHolds(op: Op, actual: Date, v: Value, today: Date)
  {
    v.Today? &&
    match op
    case Eq => actual == today
    case Ne => actual != today
    case Lt => actual < today
  }
}
