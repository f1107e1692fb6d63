/** The two request-body schemas: `{id: integer, name: string}`, both
    required, for creating a planet, and `{name: string}`, required, for
    renaming one. Validation stops at the first fault, and the fields are
    checked in the order they are declared. */
module Validation {
  import opened Planets

  /** A JSON value as the schema sees it: a number, a string, or anything
      else (a boolean, null, an array or an object). */
  datatype Value = Num(x: real) | Str(s: string) | Other

  datatype Field = IdField | NameField

  /** Why a field was refused, in the order the schema checks them:
      absent; wrong type; a number outside the safe range; a number with a
      fractional part; the empty string. */
  datatype Issue = Required | NotANumber | Unsafe | NotAnInteger | NotAString | Empty

  /** The first fault found: which field and why. */
  datatype Fault = Fault(field: Field, issue: Issue)

  /** The outcome of checking one field. */
  datatype FieldCheck<T> = Accepted(value: T) | Refused(issue: Issue)

  /** The outcome of checking a whole body. */
  datatype Verdict<T> = Pass(value: T) | Fail(fault: Fault)

  /** A create body: each declared key may be absent. */
  datatype Candidate = Candidate(id: Option<Value>, name: Option<Value>)

  /** A number the integer schema accepts. */
  predicate SafeInteger(x: real)
  {
    -MaxSafeInteger as real <= x <= MaxSafeInteger as real && x.Floor as real == x
  }

  predicate AcceptableId(v: Option<Value>)
  {
    v.Some? && v.value.Num? && SafeInteger(v.value.x)
  }

  predicate AcceptableName(v: Option<Value>)
  {
    v.Some? && v.value.Str? && v.value.s != ""
  }

  /** The `id` rule: a required number, within the safe range, integral. */
  function CheckInteger(v: Option<Value>): (r: FieldCheck<int>)
    ensures r.Accepted? <==> AcceptableId(v)
    ensures r.Accepted? ==>
      r.value as real == v.value.x && -MaxSafeInteger <= r.value <= MaxSafeInteger
    ensures r == Refused(Required) <==> v.None?
    ensures r == Refused(NotANumber) <==> v.Some? && !v.value.Num?
    ensures r == Refused(Unsafe) <==>
      v.Some? && v.value.Num? && !(-MaxSafeInteger as real <= v.value.x <= MaxSafeInteger as real)
    ensures r == Refused(NotAnInteger) <==>
      v.Some? && v.value.Num? && -MaxSafeInteger as real <= v.value.x <= MaxSafeInteger as real
      && v.value.x.Floor as real != v.value.x
  {
    match v
    case None => Refused(Required)
    case Some(Num(x)) =>
      if x < -MaxSafeInteger as real || MaxSafeInteger as real < x then Refused(Unsafe)
      else if x.Floor as real != x then Refused(NotAnInteger)
      else Accepted(x.Floor)
    case Some(_) => Refused(NotANumber)
  }

  /** The `name` rule: a required, non-empty string. */
  function CheckString(v: Option<Value>): (r: FieldCheck<string>)
    ensures r.Accepted? <==> AcceptableName(v)
    ensures r.Accepted? ==> r.value == v.value.s && r.value != ""
    ensures r == Refused(Required) <==> v.None?
    ensures r == Refused(NotAString) <==> v.Some? && !v.value.Str?
    ensures r == Refused(Empty) <==> v == Some(Str(""))
  {
    match v
    case None => Refused(Required)
    case Some(Str(s)) => if s == "" then Refused(Empty) else Accepted(s)
    case Some(_) => Refused(NotAString)
  }

  /** The create schema: `id` is checked before `name`, and the first
      fault is the one reported. */
  function ValidatePlanet(c: Candidate): (r: Verdict<Planet>)
    ensures r.Pass? <==> AcceptableId(c.id) && AcceptableName(c.name)
    ensures r.Pass? ==>
      r.value.id as real == c.id.value.x && r.value.name == c.name.value.s && WellFormed(r.value)
    ensures r.Fail? ==> (r.fault.field == IdField <==> !AcceptableId(c.id))
    ensures r.Fail? && r.fault.field == NameField ==> !AcceptableName(c.name)
    ensures r.Fail? ==>
      r.fault == if !AcceptableId(c.id) then Fault(IdField, CheckInteger(c.id).issue)
                 else Fault(NameField, CheckString(c.name).issue)
  {
    match CheckInteger(c.id)
    case Refused(issue) => Fail(Fault(IdField, issue))
    case Accepted(id) =>
      match CheckString(c.name)
      case Refused(issue) => Fail(Fault(NameField, issue))
      case Accepted(name) => Pass(Planet(id, name))
  }

  /** The rename schema: only `name`. */
  function ValidateRename(name: Option<Value>): (r: Verdict<string>)
    ensures r.Pass? <==> AcceptableName(name)
    ensures r.Pass? ==> r.value == name.value.s && r.value != ""
    ensures r.Fail? ==> r.fault == Fault(NameField, CheckString(name).issue)
  {
    match CheckString(name)
    case Refused(issue) => Fail(Fault(NameField, issue))
    case Accepted(s) => Pass(s)
  }

  /** The body a client sends to create `p`. */
  function Body(p: Planet): Candidate
  {
    Candidate(Some(Num(p.id as real)), Some(Str(p.name)))
  }

  /** Every well-formed planet passes the create schema unchanged, and
      nothing else does: the schema accepts exactly the well-formed records. */
  lemma ValidateBody(p: Planet)
    ensures WellFormed(p) ==> ValidatePlanet(Body(p)) == Pass(p)
    ensures !WellFormed(p) ==> ValidatePlanet(Body(p)).Fail?
  {
    assert (p.id as real).Floor == p.id;
  }
}
