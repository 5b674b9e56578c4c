/**
 * Whitespace trimming as the two halves of the system do it: the page uses
 * JavaScript's `String.prototype.trim`, the backend Python's `str.strip()`.
 * Both strip the same way from both ends, but with different sets of
 * whitespace characters.
 */
module Text {

  /**
   * A character `String.prototype.trim` removes: ECMAScript WhiteSpace (tab,
   * vertical tab, form feed, space, no-break space, the byte order mark and
   * the other Unicode space separators) and LineTerminator.
   */
  predicate IsJsWhitespace(c: char)
    ensures c < '\U{80}' ==> (IsJsWhitespace(c) <==> c == ' ' || '\t' <= c <= '\r')
    ensures IsJsWhitespace(c) ==> c <= '\U{FEFF}'
  {
    c == '\t' || c == '\n' || c == '\U{B}' || c == '\U{C}' || c == '\r' || c == ' '
    || c == '\U{A0}' || c == '\U{1680}' || ('\U{2000}' <= c <= '\U{200A}')
    || c == '\U{2028}' || c == '\U{2029}' || c == '\U{202F}' || c == '\U{205F}'
    || c == '\U{3000}' || c == '\U{FEFF}'
  }

  /**
   * A character for which Python's `str.isspace` holds, which is the set
   * `str.strip()` with no argument removes. Unlike JavaScript it includes
   * the information separators U+001C..U+001F and U+0085, and it excludes
   * the byte order mark U+FEFF.
   */
  predicate IsPyWhitespace(c: char)
    ensures IsPyWhitespace(c) <==>
              (IsJsWhitespace(c) && c != '\U{FEFF}') || ('\U{1C}' <= c <= '\U{1F}') || c == '\U{85}'
  {
    ('\t' <= c <= '\r') || ('\U{1C}' <= c <= ' ') || c == '\U{85}' || c == '\U{A0}'
    || c == '\U{1680}' || ('\U{2000}' <= c <= '\U{200A}')
    || c == '\U{2028}' || c == '\U{2029}' || c == '\U{202F}' || c == '\U{205F}'
    || c == '\U{3000}'
  }

  /** The two whitespace sets, by the runtime whose trimming uses them. */
  datatype Runtime = JavaScript | Python

  predicate IsSpace(rt: Runtime, c: char) {
    match rt
    case JavaScript => IsJsWhitespace(c)
    case Python => IsPyWhitespace(c)
  }

  predicate AllSpace(s: string, rt: Runtime) {
    forall i :: 0 <= i < |s| ==> IsSpace(rt, s[i])
  }

  /** Drops the leading whitespace. */
  function TrimStart(s: string, rt: Runtime): (r: string)
    ensures |r| <= |s|
    decreases |s|
  {
    if s != [] && IsSpace(rt, s[0]) then TrimStart(s[1..], rt) else s
  }

  /** Drops the trailing whitespace. */
  function TrimEnd(s: string, rt: Runtime): (r: string)
    ensures |r| <= |s|
    decreases |s|
  {
    if s != [] && IsSpace(rt, s[|s| - 1]) then TrimEnd(s[..|s| - 1], rt) else s
  }

  /** Both ends trimmed, as `trim()` and `strip()` do. */
  function Trim(s: string, rt: Runtime): (r: string)
    ensures |r| <= |s|
  {
    TrimEnd(TrimStart(s, rt), rt)
  }

  /**
   * `String.prototype.trim`: the result is no longer than the input, neither
   * starts nor ends with JavaScript whitespace, and a string that already
   * does neither comes back unchanged (so trimming twice is trimming once).
   */
  function JsTrim(s: string): (r: string)
    ensures |r| <= |s|
    ensures r != [] ==> !IsJsWhitespace(r[0]) && !IsJsWhitespace(r[|r| - 1])
    ensures s != [] && !IsJsWhitespace(s[0]) && !IsJsWhitespace(s[|s| - 1]) ==> r == s
  {
    TrimSpec(s, JavaScript);
    Trim(s, JavaScript)
  }

  /** Python's `str.strip()` with no argument, with the same guarantees for Python whitespace. */
  function PyStrip(s: string): (r: string)
    ensures |r| <= |s|
    ensures r != [] ==> !IsPyWhitespace(r[0]) && !IsPyWhitespace(r[|r| - 1])
    ensures s != [] && !IsPyWhitespace(s[0]) && !IsPyWhitespace(s[|s| - 1]) ==> r == s
  {
    TrimSpec(s, Python);
    Trim(s, Python)
  }

  /** The result of TrimStart is the longest suffix that does not start with whitespace. */
  lemma {:induction false} TrimStartSpec(s: string, rt: Runtime)
    ensures var r := TrimStart(s, rt);
            r == s[|s| - |r|..] && (r == [] || !IsSpace(rt, r[0]))
            && forall i :: 0 <= i < |s| - |r| ==> IsSpace(rt, s[i])
    decreases |s|
  {
    if s != [] && IsSpace(rt, s[0]) {
      TrimStartSpec(s[1..], rt);
      var r := TrimStart(s, rt);
      forall i | 0 <= i < |s| - |r| ensures IsSpace(rt, s[i]) {
        if i > 0 { assert s[i] == s[1..][i - 1]; }
      }
    }
  }

  /** The result of TrimEnd is the longest prefix that does not end in whitespace. */
  lemma {:induction false} TrimEndSpec(s: string, rt: Runtime)
    ensures var r := TrimEnd(s, rt);
            r == s[..|r|] && (r == [] || !IsSpace(rt, r[|r| - 1]))
            && forall i :: |r| <= i < |s| ==> IsSpace(rt, s[i])
    decreases |s|
  {
    if s != [] && IsSpace(rt, s[|s| - 1]) {
      TrimEndSpec(s[..|s| - 1], rt);
      var r := TrimEnd(s, rt);
      forall i | |r| <= i < |s| ensures IsSpace(rt, s[i]) {
        if i < |s| - 1 { assert s[i] == s[..|s| - 1][i]; }
      }
    }
  }

  /**
   * A trimmed string is empty exactly when every character was whitespace,
   * which is what the "blank query" guards of both halves test; otherwise
   * it starts and ends with a character that is not whitespace and is a
   * contiguous piece of the original.
   */
  lemma TrimSpec(s: string, rt: Runtime)
    ensures Trim(s, rt) == [] <==> AllSpace(s, rt)
    ensures var r := Trim(s, rt);
            r != [] ==> !IsSpace(rt, r[0]) && !IsSpace(rt, r[|r| - 1])
    ensures var r := Trim(s, rt);
            exists i {:trigger s[i..]} :: 0 <= i <= |s| - |r| && r == s[i..][..|r|]
  {
    var t := TrimStart(s, rt);
    TrimStartSpec(s, rt);
    TrimEndSpec(t, rt);
    var r := TrimEnd(t, rt);
    assert r == s[|s| - |t|..][..|r|];
  }

  /**
   * The two blank-query guards disagree: a query made of the information
   * separator U+001C is not blank for the page but blank for the backend.
   */
  lemma SeparatorBlankOnlyForPython()
    ensures JsTrim("\U{1C}") != [] && PyStrip("\U{1C}") == []
  {
    var sep := "\U{1C}";
    assert !IsJsWhitespace(sep[0]);
    assert TrimStart(sep, JavaScript) == sep;
    assert IsPyWhitespace(sep[0]);
    assert TrimStart(sep, Python) == TrimStart([], Python);
  }

  /** And the other way round: a byte order mark alone is blank for the page only. */
  lemma ByteOrderMarkBlankOnlyForJavaScript()
    ensures JsTrim("\U{FEFF}") == [] && PyStrip("\U{FEFF}") != []
  {
    var bom := "\U{FEFF}";
    assert IsJsWhitespace(bom[0]);
    assert TrimStart(bom, JavaScript) == TrimStart([], JavaScript);
    assert !IsPyWhitespace(bom[0]);
    assert TrimStart(bom, Python) == bom;
  }
}
