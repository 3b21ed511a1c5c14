/** The string operations the services call: string.IsNullOrWhiteSpace,
    string.IsNullOrEmpty, ToLower, Contains, StartsWith, TrimStart, Trim and
    ordinal comparison, over strings as sequences of UTF-16 code units. */
module Text {
  import opened Common

  /** char.IsWhiteSpace: the Unicode space separators, the line and
      paragraph separators, and the control characters U+0009..U+000D and U+0085. */
  predicate IsWhiteSpace(c: char) {
    c == ' ' || ('\t' <= c <= '\r') || c == '\U{85}' || c == '\U{A0}' || c == '\U{1680}'
    || ('\U{2000}' <= c <= '\U{200A}') || c == '\U{2028}' || c == '\U{2029}'
    || c == '\U{202F}' || c == '\U{205F}' || c == '\U{3000}'
  }

  /** string.IsNullOrWhiteSpace */
  predicate IsNullOrWhiteSpace(s: Option<string>) {
    s.None? || forall i :: 0 <= i < |s.value| ==> IsWhiteSpace(s.value[i])
  }

  /** string.IsNullOrEmpty */
  predicate IsNullOrEmpty(s: Option<string>) {
    s.None? || s.value == ""
  }

  /** A value that is not blank is present and holds a visible character. */
  lemma NotBlankHasContent(s: Option<string>)
    requires !IsNullOrWhiteSpace(s)
    ensures s.Some? && |s.value| > 0
    ensures exists i :: 0 <= i < |s.value| && !IsWhiteSpace(s.value[i])
  {
  }

  /** Lower-casing of one character, on the ASCII letters. */
  function LowerChar(c: char): (d: char)
    ensures 'A' <= c <= 'Z' ==> 'a' <= d <= 'z' && d as int - c as int == 32
    ensures !('A' <= c <= 'Z') ==> d == c
  {
    if 'A' <= c <= 'Z' then (c as int + 32) as char else c
  }

  /** string.ToLower */
  function ToLower(s: string): (r: string)
    ensures |r| == |s|
    ensures forall i :: 0 <= i < |s| ==> r[i] == LowerChar(s[i])
  {
    seq(|s|, i requires 0 <= i < |s| => LowerChar(s[i]))
  }

  /** Lower-casing twice changes nothing more. */
  lemma ToLowerIdempotent(s: string)
    ensures ToLower(ToLower(s)) == ToLower(s)
  {
  }

  /** `sub` occurs in `s` starting at index `i`. */
  predicate OccursAt(s: string, sub: string, i: int) {
    0 <= i && i + |sub| <= |s| && s[i..i + |sub|] == sub
  }

  /** string.Contains(string), an ordinal substring test. */
  predicate Contains(s: string, sub: string) {
    exists i :: 0 <= i <= |s| - |sub| && OccursAt(s, sub, i)
  }

  /** Every string contains itself and its prefixes and suffixes. */
  lemma ContainsConcat(a: string, sub: string, b: string)
    ensures Contains(a + sub + b, sub)
  {
    assert OccursAt(a + sub + b, sub, |a|) by {
      assert (a + sub + b)[|a|..|a| + |sub|] == sub;
    }
  }

  /** string.StartsWith(string), ordinal. */
  predicate StartsWith(s: string, prefix: string) {
    |prefix| <= |s| && s[..|prefix|] == prefix
  }

  /** string.TrimStart(char): drops every leading occurrence of `c`. */
  function TrimStart(s: string, c: char): (r: string)
    ensures |r| <= |s| && r == s[|s| - |r|..]
    ensures forall i :: 0 <= i < |s| - |r| ==> s[i] == c
    ensures r == [] || r[0] != c
  {
    if s != [] && s[0] == c then TrimStart(s[1..], c) else s
  }

  /** Leading white space removed, as string.TrimStart() does. */
  function TrimStartWhiteSpace(s: string): (r: string)
    ensures |r| <= |s| && r == s[|s| - |r|..]
    ensures forall i :: 0 <= i < |s| - |r| ==> IsWhiteSpace(s[i])
    ensures r == [] || !IsWhiteSpace(r[0])
  {
    if s != [] && IsWhiteSpace(s[0]) then TrimStartWhiteSpace(s[1..]) else s
  }

  /** Trailing white space removed, as string.TrimEnd() does. */
  function TrimEndWhiteSpace(s: string): (r: string)
    ensures |r| <= |s| && r == s[..|r|]
    ensures forall i :: |r| <= i < |s| ==> IsWhiteSpace(s[i])
    ensures r == [] || !IsWhiteSpace(r[|r| - 1])
  {
    if s != [] && IsWhiteSpace(s[|s| - 1]) then TrimEndWhiteSpace(s[..|s| - 1]) else s
  }

  /** string.Trim(): white space removed at both ends. */
  function Trim(s: string): (r: string)
    ensures r == [] || (!IsWhiteSpace(r[0]) && !IsWhiteSpace(r[|r| - 1]))
    ensures Contains(s, r)
  {
    var t := TrimStartWhiteSpace(s);
    var r := TrimEndWhiteSpace(t);
    assert OccursAt(s, r, |s| - |t|) by {
      assert r == s[|s| - |t|..|s| - |t| + |r|];
    }
    r
  }

  /** Ordinal string order: the first differing code unit decides, and a
      proper prefix comes first. */
  predicate OrdinalLe(a: string, b: string) {
    if a == [] then true
    else if b == [] then false
    else if a[0] != b[0] then a[0] < b[0]
    else OrdinalLe(a[1..], b[1..])
  }

  lemma {:induction false} OrdinalLeTotal(a: string, b: string)
    ensures OrdinalLe(a, b) || OrdinalLe(b, a)
  {
    if a != [] && b != [] && a[0] == b[0] {
      OrdinalLeTotal(a[1..], b[1..]);
    }
  }

  lemma {:induction false} OrdinalLeTransitive(a: string, b: string, c: string)
    requires OrdinalLe(a, b) && OrdinalLe(b, c)
    ensures OrdinalLe(a, c)
  {
    if a != [] && b != [] && c != [] && a[0] == b[0] && b[0] == c[0] {
      OrdinalLeTransitive(a[1..], b[1..], c[1..]);
    }
  }

  lemma {:induction false} OrdinalLeAntisymmetric(a: string, b: string)
    requires OrdinalLe(a, b) && OrdinalLe(b, a)
    ensures a == b
  {
    if a != [] && b != [] {
      OrdinalLeAntisymmetric(a[1..], b[1..]);
      assert a == [a[0]] + a[1..] && b == [b[0]] + b[1..];
    }
  }
}
