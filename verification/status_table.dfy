/**
  Status classification as an explicit table: a list of (literal, outcome)
  entries, consulted in order, with a fallback for statuses no entry matches.
  Each adapter's `_check_status` is an `if`/`elif` chain; the adapters prove that
  chain equal to classification by their own table.
 */
module StatusTable {
  import opened PyJson

  /** A literal a status is compared against with Python's `==`. */
  datatype Literal = IntLit(n: int) | StrLit(s: string)

  /** What `_check_status` does: return silently, or raise GeocoderQueryError with a message. */
  datatype Check = Silent | QueryError(message: string)

  datatype Entry = Entry(literal: Literal, outcome: Check)

  predicate Matches(status: Json, lit: Literal) {
    match lit
    case IntLit(n) => EqualsInt(status, n)
    case StrLit(s) => EqualsStr(status, s)
  }

  /** Entry `i` is the first entry of `table` whose literal equals `status`. */
  ghost predicate FirstMatch(table: seq<Entry>, status: Json, i: int) {
    && 0 <= i < |table|
    && Matches(status, table[i].literal)
    && forall j :: 0 <= j < i ==> !Matches(status, table[j].literal)
  }

  /** No entry of `table` equals `status`. */
  ghost predicate NoMatch(table: seq<Entry>, status: Json) {
    forall j :: 0 <= j < |table| ==> !Matches(status, table[j].literal)
  }

  /** The outcome of the first entry equal to `status`, or `fallback` when there is none. */
  function Classify(table: seq<Entry>, status: Json, fallback: Check): (r: Check)
    ensures forall i :: FirstMatch(table, status, i) ==> r == table[i].outcome
    ensures NoMatch(table, status) ==> r == fallback
    decreases |table|
  {
    if |table| == 0 then fallback
    else if Matches(status, table[0].literal) then table[0].outcome
    else
      var rest := Classify(table[1..], status, fallback);
      assert forall i :: FirstMatch(table, status, i) ==> FirstMatch(table[1..], status, i - 1);
      rest
  }
}
