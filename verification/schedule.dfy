/** The value lookups `DocumentStatus(status)` and `ScheduleType(type)`
    that a schedule entry performs on its raw fields. */
module Schedules {
  import opened Values

  datatype DocumentStatus = Assigned | Completed

  datatype ScheduleType = Review | Annotate

  /** The value each member is declared with. */
  function StatusCode(s: DocumentStatus): string {
    match s
    case Assigned => "A"
    case Completed => "C"
  }

  function TypeCode(t: ScheduleType): string {
    match t
    case Review => "R"
    case Annotate => "A"
  }

  /** `DocumentStatus(v)`: the member declared with value `v`, else
      `ValueError`. */
  function ParseStatus(v: Value): (r: Result<DocumentStatus>)
    ensures r.Ok? <==> v == Str("A") || v == Str("C")
    ensures r.Ok? ==> v == Str(StatusCode(r.value))
    ensures r.Err? ==> r.error == ValueError("DocumentStatus")
  {
    if v == Str("A") then Ok(Assigned)
    else if v == Str("C") then Ok(Completed)
    else Err(ValueError("DocumentStatus"))
  }

  /** `ScheduleType(v)`: the member declared with value `v`, else
      `ValueError`. */
  function ParseType(v: Value): (r: Result<ScheduleType>)
    ensures r.Ok? <==> v == Str("R") || v == Str("A")
    ensures r.Ok? ==> v == Str(TypeCode(r.value))
    ensures r.Err? ==> r.error == ValueError("ScheduleType")
  {
    if v == Str("R") then Ok(Review)
    else if v == Str("A") then Ok(Annotate)
    else Err(ValueError("ScheduleType"))
  }

  /** Each member is found again from its value, and distinct members have
      distinct values. */
  lemma StatusRoundTrip(s: DocumentStatus, t: DocumentStatus)
    ensures ParseStatus(Str(StatusCode(s))) == Ok(s)
    ensures StatusCode(s) == StatusCode(t) ==> s == t
  {
  }

  lemma TypeRoundTrip(s: ScheduleType, t: ScheduleType)
    ensures ParseType(Str(TypeCode(s))) == Ok(s)
    ensures TypeCode(s) == TypeCode(t) ==> s == t
  {
  }
}
