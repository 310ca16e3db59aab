/**
 * The few `String.prototype` methods the loader relies on: `split` on a
 * one-character separator, `join`, and `trim` with ECMAScript's white space set.
 */
module JsString {

  /** `s.split(sep)` continued from a partly read piece `cur`. */
  function SplitFrom(s: string, sep: char, cur: string): (parts: seq<string>)
    ensures |parts| >= 1
    ensures forall i :: 0 <= i < |parts| ==> sep !in parts[i] || (i == 0 && sep in cur)
    decreases s
  {
    if s == [] then [cur]
    else if s[0] == sep then [cur] + SplitFrom(s[1..], sep, "")
    else SplitFrom(s[1..], sep, cur + [s[0]])
  }

  /** `s.split(sep)` for a one-character separator: the pieces between separators, empty ones included. */
  function Split(s: string, sep: char): (parts: seq<string>)
    ensures |parts| >= 1
    ensures forall i :: 0 <= i < |parts| ==> sep !in parts[i]
  {
    SplitFrom(s, sep, "")
  }

  /** `parts.join(sep)`. */
  function Join(parts: seq<string>, sep: string): string
    requires |parts| >= 1
  {
    if |parts| == 1 then parts[0] else parts[0] + sep + Join(parts[1..], sep)
  }

  /** Splitting after a piece prefix `cur` and joining back gives `cur + s`. */
  lemma {:induction false} SplitFromJoin(s: string, sep: char, cur: string)
    ensures Join(SplitFrom(s, sep, cur), [sep]) == cur + s
    decreases s
  {
    if s != [] {
      if s[0] == sep {
        SplitFromJoin(s[1..], sep, "");
        assert s == [sep] + s[1..];
      } else {
        SplitFromJoin(s[1..], sep, cur + [s[0]]);
        assert cur + [s[0]] + s[1..] == cur + s;
      }
    }
  }

  /** `split` loses nothing: joining the pieces with the separator gives the string back. */
  lemma SplitJoin(s: string, sep: char)
    ensures Join(Split(s, sep), [sep]) == s
  {
    SplitFromJoin(s, sep, "");
  }

  /** A string without the separator is one piece, continuing the piece `cur`. */
  lemma {:induction false} SplitFromNoSep(s: string, sep: char, cur: string)
    requires sep !in s
    ensures SplitFrom(s, sep, cur) == [cur + s]
    decreases s
  {
    if s == [] {
      assert cur + s == cur;
    } else {
      assert s[0] in s && forall c :: c in s[1..] ==> c in s;
      SplitFromNoSep(s[1..], sep, cur + [s[0]]);
      assert cur + [s[0]] + s[1..] == cur + s;
    }
  }

  /** `split` of a string without the separator gives that string alone. */
  lemma SplitNoSep(s: string, sep: char)
    requires sep !in s
    ensures Split(s, sep) == [s]
  {
    SplitFromNoSep(s, sep, "");
    assert "" + s == s;
  }

  /** The characters `String.prototype.trim` strips: white space and line terminators. */
  predicate IsJsSpace(c: char) {
    c == '\t' || c == '\n' || c == '\U{000B}' || c == '\U{000C}' || c == '\r' || c == ' '
    || c == '\U{00A0}' || c == '\U{1680}' || ('\U{2000}' <= c <= '\U{200A}')
    || c == '\U{2028}' || c == '\U{2029}' || c == '\U{202F}' || c == '\U{205F}'
    || c == '\U{3000}' || c == '\U{FEFF}'
  }

  /** The index of the first non-space character at or after `i` (or `|s|`). */
  function SkipSpaces(s: string, i: nat): (k: nat)
    requires i <= |s|
    ensures i <= k <= |s|
    ensures forall j :: i <= j < k ==> IsJsSpace(s[j])
    ensures k == |s| || !IsJsSpace(s[k])
    decreases |s| - i
  {
    if i < |s| && IsJsSpace(s[i]) then SkipSpaces(s, i + 1) else i
  }

  /** The end of `s[lo..hi]` once its trailing spaces are dropped. */
  function DropTrailing(s: string, lo: nat, hi: nat): (k: nat)
    requires lo <= hi <= |s|
    ensures lo <= k <= hi
    ensures forall j :: k <= j < hi ==> IsJsSpace(s[j])
    ensures k == lo || !IsJsSpace(s[k - 1])
    decreases hi
  {
    if lo < hi && IsJsSpace(s[hi - 1]) then DropTrailing(s, lo, hi - 1) else hi
  }

  /**
   * `s.trim()`: the piece of `s` left once the white space at both ends is removed;
   * everything outside it is white space and it neither starts nor ends with any.
   */
  function Trim(s: string): (r: string)
    ensures r == [] || (!IsJsSpace(r[0]) && !IsJsSpace(r[|r| - 1]))
    ensures var a := SkipSpaces(s, 0);
      && a + |r| <= |s| && r == s[a..a + |r|]
      && (forall i :: 0 <= i < a ==> IsJsSpace(s[i]))
      && (forall i :: a + |r| <= i < |s| ==> IsJsSpace(s[i]))
  {
    var a := SkipSpaces(s, 0);
    var b := DropTrailing(s, a, |s|);
    assert a < b ==> !IsJsSpace(s[a]);
    s[a..b]
  }

  /** Trimming cannot bring in a character the string lacks. */
  lemma TrimKeepsOut(s: string, c: char)
    requires c !in s
    ensures c !in Trim(s)
  {
    var a := SkipSpaces(s, 0);
    var r := Trim(s);
    assert forall i :: 0 <= i < |r| ==> r[i] == s[a + i];
  }

  /** A string that neither starts nor ends with white space is its own trim. */
  lemma TrimUnspaced(s: string)
    requires s != [] && !IsJsSpace(s[0]) && !IsJsSpace(s[|s| - 1])
    ensures Trim(s) == s
  {
    assert SkipSpaces(s, 0) == 0;
    assert DropTrailing(s, 0, |s|) == |s|;
    assert s[0..|s|] == s;
  }
}
