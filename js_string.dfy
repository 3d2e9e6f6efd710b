/** JavaScript's String.prototype.trim, the only string operation the handler performs. */
module JsString {

  /** The code points trim strips: ECMAScript's WhiteSpace (tab, vertical tab,
      form feed, the byte order mark and every space separator of category Zs)
      and LineTerminator (line feed, carriage return, line and paragraph separator). */
  predicate IsWhitespace(c: char) {
    c == '\t' || c == '\n' || c == '\U{000B}' || c == '\U{000C}' || c == '\r' ||
    c == ' ' || c == '\U{00A0}' || c == '\U{1680}' || ('\U{2000}' <= c <= '\U{200A}') ||
    c == '\U{2028}' || c == '\U{2029}' || c == '\U{202F}' || c == '\U{205F}' ||
    c == '\U{3000}' || c == '\U{FEFF}'
  }

  /** Index of the first character that is not whitespace, |s| when there is none. */
  function LeadingEnd(s: string): (i: nat)
    ensures i <= |s|
    ensures forall k :: 0 <= k < i ==> IsWhitespace(s[k])
    ensures i < |s| ==> !IsWhitespace(s[i])
  {
    if s == [] || !IsWhitespace(s[0]) then 0 else 1 + LeadingEnd(s[1..])
  }

  /** Index just past the last character that is not whitespace, 0 when there is none. */
  function TrailingStart(s: string): (j: nat)
    ensures j <= |s|
    ensures forall k :: j <= k < |s| ==> IsWhitespace(s[k])
    ensures 0 < j ==> !IsWhitespace(s[j - 1])
  {
    if s == [] || !IsWhitespace(s[|s| - 1]) then |s| else TrailingStart(s[..|s| - 1])
  }

  /** The string with leading and trailing whitespace removed. */
  function Trim(s: string): (r: string)
    ensures |r| <= |s|
    ensures r == [] <==> forall k :: 0 <= k < |s| ==> IsWhitespace(s[k])
    ensures r != [] ==> !IsWhitespace(r[0]) && !IsWhitespace(r[|r| - 1])
  {
    var i, j := LeadingEnd(s), TrailingStart(s);
    if i < j then s[i..j] else []
  }

  /** The characters trim removes are whitespace, and the ones it keeps are
      exactly the stretch between the first and the last non-whitespace character. */
  lemma TrimKeepsInnerStretch(s: string)
    ensures var i, j := LeadingEnd(s), TrailingStart(s);
      (i < j && Trim(s) == s[i..j]) || (i == |s| && j == 0 && Trim(s) == [])
  {
    var i, j := LeadingEnd(s), TrailingStart(s);
    if i < |s| {
      assert !IsWhitespace(s[i]);
      assert i < j;
    }
  }
}
