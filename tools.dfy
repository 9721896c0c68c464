/** The tool set (`mcpTools`): the clock, the calculator and the web-search stub.
    The clock reading and its locale formatting, and the evaluation of the
    sanitised expression, are foreign; they are parameters here. */
module Tools {
  import opened Js
  import Seqs

  /** The characters the calculator keeps: `[0-9+\-*\/().%\s]`. */
  predicate IsAllowed(c: char) {
    ('0' <= c <= '9') || c in "+-*/().%" || IsWhitespace(c)
  }

  predicate AllAllowed(s: string) {
    forall i :: 0 <= i < |s| ==> IsAllowed(s[i])
  }

  predicate NoneAllowed(w: string) {
    forall i :: 0 <= i < |w| ==> !IsAllowed(w[i])
  }

  /** `expression.replace(/[^0-9+\-*\/().%\s]/g, '')`. */
  function Sanitize(expression: string): (r: string)
    ensures AllAllowed(r)
  {
    Seqs.Filter(expression, IsAllowed)
  }

  /** The sanitised text holds only allowed characters, is an order-preserving
      deletion from the input, and keeps every allowed character as often as it
      occurs. */
  lemma SanitizeSpec(expression: string)
    ensures AllAllowed(Sanitize(expression))
    ensures Seqs.IsSubsequence(Sanitize(expression), expression)
    ensures forall c :: IsAllowed(c) ==> multiset(Sanitize(expression))[c] == multiset(expression)[c]
    ensures forall c :: !IsAllowed(c) ==> c !in Sanitize(expression)
  {
    Seqs.FilterIsSubsequence(expression, IsAllowed);
    forall c ensures multiset(Sanitize(expression))[c] == if IsAllowed(c) then multiset(expression)[c] else 0 {
      Seqs.FilterCount(expression, IsAllowed, c);
    }
  }

  lemma SanitizeIdempotent(expression: string)
    ensures Sanitize(Sanitize(expression)) == Sanitize(expression)
  {
    Seqs.FilterIdempotent(expression, IsAllowed);
  }

  /** A purely arithmetic expression passes unchanged. */
  lemma SanitizeKeepsArithmetic(expression: string)
    requires AllAllowed(expression)
    ensures Sanitize(expression) == expression
  {
    Seqs.FilterAllKept(expression, IsAllowed);
  }

  /** Sanitising distributes over concatenation. */
  lemma SanitizeAppend(a: string, b: string)
    ensures Sanitize(a + b) == Sanitize(a) + Sanitize(b)
  {
    Seqs.FilterAppend(a, b, IsAllowed);
  }

  /** A word of letters and punctuation outside the allowed set vanishes. */
  lemma SanitizeDropsWord(w: string)
    requires NoneAllowed(w)
    ensures Sanitize(w) == []
  {
    Seqs.FilterNoneKept(w, IsAllowed);
  }

  /** An injection attempt such as `DROP TABLE users; 1+1`: the words, made of
      letters and punctuation outside the allowed set, are stripped, but the
      spaces between them stay in front of the arithmetic that follows. */
  lemma SanitizeStripsInjection(w1: string, w2: string, w3: string, arithmetic: string)
    requires NoneAllowed(w1) && NoneAllowed(w2) && NoneAllowed(w3)
    requires AllAllowed(arithmetic)
    ensures Sanitize(w1 + " " + w2 + " " + w3 + arithmetic) == "  " + arithmetic
  {
    SanitizeDropsWord(w1);
    SanitizeDropsWord(w2);
    SanitizeDropsWord(w3);
    SanitizeKeepsArithmetic(" ");
    SanitizeKeepsArithmetic(arithmetic);
    SanitizeAppend(w1, " ");
    SanitizeAppend(w1 + " ", w2);
    SanitizeAppend(w1 + " " + w2, " ");
    SanitizeAppend(w1 + " " + w2 + " ", w3);
    SanitizeAppend(w1 + " " + w2 + " " + w3, arithmetic);
  }

  /** The calculator's two result shapes. */
  datatype CalcResult<V> = Calculated(expression: string, result: V) | CalcError(expression: string, error: string)

  /** `calculate`: sanitise, evaluate, and turn any failure into the error shape.
      The evaluator is defined at least on sanitised text and is only ever given
      sanitised text. */
  function Calculate<V>(expression: string, evaluate: string --> Outcome<V>): (r: CalcResult<V>)
    requires forall s :: AllAllowed(s) ==> evaluate.requires(s)
    ensures r.expression == expression
    ensures r.Calculated? <==> evaluate(Sanitize(expression)).Returned?
    ensures r.Calculated? ==> r.result == evaluate(Sanitize(expression)).value
    ensures r.CalcError? ==> r.error == "Invalid expression"
  {
    var sanitized := Sanitize(expression);
    SanitizeSpec(expression);
    match evaluate(sanitized)
    case Returned(v) => Calculated(expression, v)
    case Threw(_) => CalcError(expression, "Invalid expression")
  }

  /** Two expressions that sanitise alike give the same outcome; only the echoed
      expression differs. */
  lemma CalculateDependsOnlyOnSanitized<V>(e1: string, e2: string, evaluate: string --> Outcome<V>)
    requires forall s :: AllAllowed(s) ==> evaluate.requires(s)
    requires Sanitize(e1) == Sanitize(e2)
    ensures Calculate(e1, evaluate).(expression := e2) == Calculate(e2, evaluate)
  {
  }

  datatype TimeResult = TimeResult(time: string, timezone: string, timestamp: string)

  /** `getCurrentTime`: the zone defaults to `'UTC'` and is echoed. `formatIn`
      renders the current instant in a zone and may throw for an unknown zone;
      `isoNow` is the instant in ISO form. */
  function GetCurrentTime(timezone: Option<string>, formatIn: string -> Outcome<string>, isoNow: string): (r: Outcome<TimeResult>)
    ensures var zone := if timezone.Some? then timezone.value else "UTC";
      && (r.Returned? <==> formatIn(zone).Returned?)
      && (r.Returned? ==> r.value == TimeResult(formatIn(zone).value, zone, isoNow))
      && (r.Threw? ==> r.thrown == formatIn(zone).thrown)
  {
    var zone := if timezone.Some? then timezone.value else "UTC";
    match formatIn(zone)
    case Threw(e) => Threw(e)
    case Returned(time) => Returned(TimeResult(time, zone, isoNow))
  }

  datatype SearchResult = SearchResult(query: string, message: string, results: seq<string>)

  const SearchPlaceholder := "Web search is a placeholder. Integrate with a real search API."

  /** `webSearch`: a stub that echoes the query and finds nothing. */
  function WebSearch(query: string, limit: Option<int>): (r: SearchResult)
    ensures r.query == query && r.results == []
  {
    SearchResult(query, SearchPlaceholder, [])
  }

  /** The stub ignores `limit`. */
  lemma WebSearchIgnoresLimit(query: string, l1: Option<int>, l2: Option<int>)
    ensures WebSearch(query, l1) == WebSearch(query, l2)
  {
  }
}
