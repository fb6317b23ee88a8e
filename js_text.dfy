/** The two JavaScript string operations the core depends on: `String.prototype.trim`
    and the implicit `Array.prototype.toString` of a list of strings. */
module JsText {

  /** The characters `trim` strips: the ECMAScript WhiteSpace and LineTerminator code points. */
  predicate IsWhitespace(c: char) {
    c in {'\t', '\n', '\U{000B}', '\U{000C}', '\r', ' ', '\U{00A0}', '\U{1680}',
          '\U{2000}', '\U{2001}', '\U{2002}', '\U{2003}', '\U{2004}', '\U{2005}',
          '\U{2006}', '\U{2007}', '\U{2008}', '\U{2009}', '\U{200A}',
          '\U{2028}', '\U{2029}', '\U{202F}', '\U{205F}', '\U{3000}', '\U{FEFF}'}
  }

  predicate AllWhitespace(s: string) {
    forall i :: 0 <= i < |s| ==> IsWhitespace(s[i])
  }

  /** Drops leading whitespace: the result is a suffix of `s` that does not start with whitespace,
      and everything dropped is whitespace. */
  function TrimStart(s: string): (r: string)
    ensures |r| <= |s| && r == s[|s| - |r|..]
    ensures AllWhitespace(s[..|s| - |r|])
    ensures r != [] ==> !IsWhitespace(r[0])
    decreases |s|
  {
    if s != [] && IsWhitespace(s[0]) then
      var r := TrimStart(s[1..]);
      assert s[..|s| - |r|] == [s[0]] + s[1..][..|s[1..]| - |r|];
      assert s[1..][|s[1..]| - |r|..] == s[|s| - |r|..];
      r
    else s
  }

  /** Drops trailing whitespace: the result is a prefix of `s` that does not end with whitespace,
      and everything dropped is whitespace. */
  function TrimEnd(s: string): (r: string)
    ensures |r| <= |s| && r == s[..|r|]
    ensures AllWhitespace(s[|r|..])
    ensures r != [] ==> !IsWhitespace(r[|r| - 1])
    decreases |s|
  {
    if s != [] && IsWhitespace(s[|s| - 1]) then
      var init := s[..|s| - 1];
      var r := TrimEnd(init);
      assert s[|r|..] == init[|r|..] + [s[|s| - 1]];
      assert init[..|r|] == s[..|r|];
      r
    else s
  }

  /** `s.trim()`: neither end of the result is whitespace, and it is empty exactly when
      every character of `s` is whitespace. */
  function Trim(s: string): (r: string)
    ensures r != [] ==> !IsWhitespace(r[0]) && !IsWhitespace(r[|r| - 1])
    ensures r == [] <==> AllWhitespace(s)
  {
    var t := TrimStart(s);
    var r := TrimEnd(t);
    assert r != [] ==> r[0] == t[0];
    assert t == [] ==> s[..|s| - |t|] == s;
    if t == [] then r
    else
      NotAllWhitespace(t, 0);
      assert t[|r|..] == t || r != [];
      assert t[0] == s[|s| - |t|];
      NotAllWhitespace(s, |s| - |t|);
      r
  }

  lemma NotAllWhitespace(s: string, i: int)
    requires 0 <= i < |s| && !IsWhitespace(s[i])
    ensures !AllWhitespace(s)
  {
  }

  /** A message whose trimmed form is non-empty is itself non-empty. */
  lemma TrimmedNonEmpty(s: string)
    requires Trim(s) != ""
    ensures s != ""
  {
  }

  /** `list.toString()` (equivalently `list.join(",")`) for a list of strings. */
  function JoinComma(items: seq<string>): (r: string)
    ensures items == [] ==> r == ""
    ensures |items| == 1 ==> r == items[0]
    decreases |items|
  {
    if items == [] then ""
    else if |items| == 1 then items[0]
    else items[0] + "," + JoinComma(items[1..])
  }

  /** Joining two non-empty lists puts one comma between their joins. */
  lemma {:induction false} JoinCommaAppend(a: seq<string>, b: seq<string>)
    requires a != [] && b != []
    ensures JoinComma(a + b) == JoinComma(a) + "," + JoinComma(b)
    decreases |a|
  {
    assert (a + b)[0] == a[0];
    assert (a + b)[1..] == a[1..] + b;
    if |a| > 1 {
      JoinCommaAppend(a[1..], b);
    }
  }

  /** The two-item case, as in the default persona's trait list. */
  lemma JoinCommaPair(x: string, y: string)
    ensures JoinComma([x, y]) == x + "," + y
  {
    JoinCommaAppend([x], [y]);
    assert [x] + [y] == [x, y];
  }

  /** The number of UTF-16 code units of a code point: two for a code point outside the Basic
      Multilingual Plane (a surrogate pair), one otherwise. */
  function CodeUnits(c: char): (n: nat)
    ensures n == 1 || n == 2
    ensures n == 2 <==> c as int >= 0x10000
  {
    if c as int >= 0x10000 then 2 else 1
  }

  /** A JavaScript string's `length`: the number of UTF-16 code units of `s`. */
  function Utf16Length(s: string): (n: nat)
    ensures |s| <= n <= 2 * |s|
    ensures n == |s| <==> forall i :: 0 <= i < |s| ==> s[i] as int < 0x10000
    decreases |s|
  {
    if s == [] then 0
    else
      var n := Utf16Length(s[..|s| - 1]) + CodeUnits(s[|s| - 1]);
      assert forall i :: 0 <= i < |s| - 1 ==> s[..|s| - 1][i] == s[i];
      n
  }

  /** The code-unit length of a concatenation is the sum of the parts' lengths. */
  lemma {:induction false} Utf16LengthAppend(a: string, b: string)
    ensures Utf16Length(a + b) == Utf16Length(a) + Utf16Length(b)
    decreases |b|
  {
    if b == [] {
      assert a + b == a;
    } else {
      assert (a + b)[..|a + b| - 1] == a + b[..|b| - 1];
      Utf16LengthAppend(a, b[..|b| - 1]);
    }
  }
}
