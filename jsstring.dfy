/** JavaScript's `String.prototype.trim`, which the recognition result handler
    applies to the assembled transcript before it is sent to the chat. */
module JsString {

  /** The characters ECMAScript's `trim` removes: WhiteSpace (tab, vertical tab,
      form feed, space, no-break space, byte order mark and every other Unicode
      space separator) and LineTerminator (LF, CR, U+2028, U+2029). Tab, LF,
      vertical tab, form feed and CR are the consecutive U+0009..U+000D. */
  predicate IsJsWhitespace(c: char) {
    ('\t' <= c <= '\r') || c == ' ' || c == '\U{00A0}' || c == '\U{1680}' ||
    ('\U{2000}' <= c <= '\U{200A}') || ('\U{2028}' <= c <= '\U{2029}') ||
    c == '\U{202F}' || c == '\U{205F}' || c == '\U{3000}' || c == '\U{FEFF}'
  }

  /** Every character of `s` is a space for `isSpace`. */
  ghost predicate AllSpace(isSpace: char -> bool, s: string) {
    forall i :: 0 <= i < |s| ==> isSpace(s[i])
  }

  /** How many characters at the start of `s` are spaces. */
  function LeadingSpaces(isSpace: char -> bool, s: string): (n: nat)
    ensures n <= |s|
    ensures forall i :: 0 <= i < n ==> isSpace(s[i])
    ensures n < |s| ==> !isSpace(s[n])
    decreases |s|
  {
    if s == [] || !isSpace(s[0]) then 0 else 1 + LeadingSpaces(isSpace, s[1..])
  }

  /** How many characters at the end of `s` are spaces. */
  function TrailingSpaces(isSpace: char -> bool, s: string): (n: nat)
    ensures n <= |s|
    ensures forall i :: |s| - n <= i < |s| ==> isSpace(s[i])
    ensures n < |s| ==> !isSpace(s[|s| - n - 1])
    decreases |s|
  {
    if s == [] || !isSpace(s[|s| - 1]) then 0 else 1 + TrailingSpaces(isSpace, s[..|s| - 1])
  }

  /** Both ends trimmed: the slice of `s` between its leading and its trailing
      run of spaces, which is empty exactly when `s` is all spaces. */
  function TrimBy(isSpace: char -> bool, s: string): (r: string)
    ensures var a := LeadingSpaces(isSpace, s);
      a + |r| <= |s| && r == s[a..a + |r|] &&
      (forall i :: a + |r| <= i < |s| ==> isSpace(s[i]))
    ensures r != [] ==> !isSpace(r[0]) && !isSpace(r[|r| - 1])
    ensures r == [] <==> AllSpace(isSpace, s)
  {
    var a := LeadingSpaces(isSpace, s);
    if a == |s| then ""
    else
      var b := TrailingSpaces(isSpace, s);
      assert !isSpace(s[a]);
      s[a..|s| - b]
  }

  /** `s.trim()`. */
  function Trim(s: string): string {
    TrimBy(IsJsWhitespace, s)
  }

  /** Trimming twice is trimming once. */
  lemma TrimIdempotent(s: string)
    ensures Trim(Trim(s)) == Trim(s)
  {
    var r := Trim(s);
    if r != [] {
      assert LeadingSpaces(IsJsWhitespace, r) == 0;
      assert TrailingSpaces(IsJsWhitespace, r) == 0;
    }
  }

  /** White space added before or after a text does not change what it
      trims to. */
  lemma TrimIgnoresPadding(p: string, s: string, q: string)
    requires forall i :: 0 <= i < |p| ==> IsJsWhitespace(p[i])
    requires forall i :: 0 <= i < |q| ==> IsJsWhitespace(q[i])
    ensures Trim(p + s + q) == Trim(s)
  {
    var w := p + s + q;
    var r := Trim(s);
    var a := LeadingSpaces(IsJsWhitespace, s);
    if r == [] {
      assert AllSpace(IsJsWhitespace, w) by {
        forall i | 0 <= i < |w| ensures IsJsWhitespace(w[i]) {
          if i < |p| { assert w[i] == p[i]; }
          else if i < |p| + |s| { assert w[i] == s[i - |p|]; }
          else { assert w[i] == q[i - |p| - |s|]; }
        }
      }
    } else {
      assert w[|p| + a..|p| + a + |r|] == r;
      forall i | 0 <= i < |p| + a ensures IsJsWhitespace(w[i]) {
        if i < |p| { assert w[i] == p[i]; } else { assert w[i] == s[i - |p|]; }
      }
      forall i | |p| + a + |r| <= i < |w| ensures IsJsWhitespace(w[i]) {
        if i < |p| + |s| { assert w[i] == s[i - |p|]; } else { assert w[i] == q[i - |p| - |s|]; }
      }
      TrimUnique(IsJsWhitespace, w, |p| + a, r);
    }
  }

  /** The contract of `TrimBy` determines its result: a non-empty slice with
      only spaces around it and no space at either end is the trimmed text. */
  lemma TrimUnique(isSpace: char -> bool, s: string, a: nat, r: string)
    requires r != [] && a + |r| <= |s| && r == s[a..a + |r|]
    requires forall i :: 0 <= i < a ==> isSpace(s[i])
    requires forall i :: a + |r| <= i < |s| ==> isSpace(s[i])
    requires !isSpace(r[0]) && !isSpace(r[|r| - 1])
    ensures TrimBy(isSpace, s) == r
  {
    var t := TrimBy(isSpace, s);
    var b := LeadingSpaces(isSpace, s);
    assert !isSpace(s[a]);
    assert b == a;
    assert t != [] by { assert !AllSpace(isSpace, s); }
    assert s[a + |t| - 1] == t[|t| - 1];
    assert s[a + |r| - 1] == r[|r| - 1];
    assert |t| == |r|;
  }
}
