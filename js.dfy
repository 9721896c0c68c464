/** JavaScript runtime notions shared by the whole model: thrown values,
    string truthiness, the whitespace class of `\s` and `String.prototype.trim`,
    and `String.prototype.startsWith`. */
module Js {
  import Seqs

  datatype Option<+T> = None | Some(value: T)

  /** A thrown value: an `Error` instance (with its message) or anything else. */
  datatype Thrown = ErrorValue(message: string) | OtherValue

  /** The result of a call that may throw. */
  datatype Outcome<+T> = Returned(value: T) | Threw(thrown: Thrown)

  /** `!!s` for a string that may be undefined. */
  predicate Truthy(s: Option<string>) {
    s.Some? && s.value != ""
  }

  /** ECMAScript WhiteSpace and LineTerminator code points: the class `\s`
      and the characters `trim` removes. */
  predicate IsWhitespace(c: char) {
    || c == '\t' || c == '\n' || c == '\U{000B}' || c == '\U{000C}' || c == '\r'
    || c == ' ' || c == '\U{00A0}' || c == '\U{1680}'
    || ('\U{2000}' <= c <= '\U{200A}')
    || c == '\U{2028}' || c == '\U{2029}' || c == '\U{202F}' || c == '\U{205F}'
    || c == '\U{3000}' || c == '\U{FEFF}'
  }

  predicate AllWhitespace(s: string) {
    forall i :: 0 <= i < |s| ==> IsWhitespace(s[i])
  }

  /** `s.trim()`: the string with leading and trailing whitespace removed. */
  function Trim(s: string): string {
    Seqs.Strip(s, IsWhitespace)
  }

  /** `s.trim()` is an infix of `s` that neither starts nor ends with
      whitespace, and only whitespace surrounds it. */
  lemma TrimShape(s: string)
    ensures var t, i := Trim(s), Seqs.Leading(s, IsWhitespace);
      && i + |t| <= |s| && s[i..i + |t|] == t
      && AllWhitespace(s[..i]) && AllWhitespace(s[i + |t|..])
      && (t != [] ==> !IsWhitespace(t[0]) && !IsWhitespace(t[|t| - 1]))
  {
    Seqs.StripShape(s, IsWhitespace);
  }

  /** `s.trim()` is falsy exactly when `s` is made only of whitespace. */
  lemma TrimEmptyIffAllWhitespace(s: string)
    ensures Trim(s) == "" <==> AllWhitespace(s)
  {
    Seqs.StripEmptyIff(s, IsWhitespace);
  }

  /** Trimming twice is trimming once. */
  lemma TrimIdempotent(s: string)
    ensures Trim(Trim(s)) == Trim(s)
  {
    Seqs.StripIdempotent(s, IsWhitespace);
  }

  predicate StartsWith(s: string, prefix: string) {
    |prefix| <= |s| && s[..|prefix|] == prefix
  }
}
