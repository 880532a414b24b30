/** The Option wrapper used for values that may be absent: a regular-expression
    match that fails, or a `parseFloat` that yields NaN. */
module Wrappers {
  datatype Option<+T> = None | Some(value: T)
}

/** Character classes shared by the salary parser: ASCII digits (`\d` of a
    JavaScript regular expression), JavaScript white space (`\s`), and the
    maximal run of characters of one class. */
module Chars {

  predicate IsDigit(c: char) {
    '0' <= c <= '9'
  }

  function DigitValue(c: char): (v: nat)
    requires IsDigit(c)
    ensures v < 10
  {
    (c as int - '0' as int) as nat
  }

  function DigitChar(v: nat): (c: char)
    requires v < 10
    ensures IsDigit(c) && DigitValue(c) == v
  {
    (v + '0' as int) as char
  }

  /** The characters `\s` matches in an ECMAScript regular expression:
      WhiteSpace (tab, vertical tab, form feed, space, no-break space, BOM and
      the Unicode space separators) and LineTerminator. */
  predicate IsJsWhitespace(c: char) {
    || c == '\t' || c == '\n' || c == '\U{000B}' || c == '\U{000C}' || c == '\r'
    || c == ' ' || c == '\U{00A0}' || c == '\U{1680}'
    || ('\U{2000}' <= c <= '\U{200A}')
    || c == '\U{2028}' || c == '\U{2029}' || c == '\U{202F}' || c == '\U{205F}'
    || c == '\U{3000}' || c == '\U{FEFF}'
  }

  /** End of the longest run of characters satisfying `p` that starts at `i`:
      what a greedy `[…]+` or `\d+` consumes. */
  function Span(s: string, i: nat, p: char -> bool): (j: nat)
    requires i <= |s|
    ensures i <= j <= |s|
    ensures forall k :: i <= k < j ==> p(s[k])
    ensures j == |s| || !p(s[j])
    decreases |s| - i
  {
    if i < |s| && p(s[i]) then Span(s, i + 1, p) else i
  }

  /** A run that fills `s[i..j]` and is stopped at `j` is exactly what Span finds. */
  lemma SpanExact(s: string, i: nat, j: nat, p: char -> bool)
    requires i <= j <= |s|
    requires forall k :: i <= k < j ==> p(s[k])
    requires j == |s| || !p(s[j])
    ensures Span(s, i, p) == j
  {
  }
}
