/**
  The JavaScript string operations the components rely on, over `string`
  (a `seq<char>`). A `char` is a Unicode scalar value, while JavaScript
  indexes strings by UTF-16 code unit. The two agree on text from the Basic
  Multilingual Plane, which holds ASCII and the Hiragana and Katakana blocks
  (U+3040–U+30FF), so there one `char` stands for one index position.
 */
module Strings {

  /** `s.slice(0, -k)` for a positive `k`: everything but the last `k`
      characters, clamped to the empty string when `s` is shorter. */
  function DropLast(s: string, k: nat): (r: string)
    requires 0 < k
    ensures r <= s
    ensures |r| == if k <= |s| then |s| - k else 0
  {
    if k <= |s| then s[..|s| - k] else ""
  }

  /** `s.slice(-1)`: the final character as a string, "" for "". */
  function Last(s: string): (r: string)
    ensures |r| == if s == "" then 0 else 1
    ensures DropLast(s, 1) + r == s
  {
    if s == "" then "" else s[|s| - 1..]
  }

  /** `s.endsWith(suffix)`. */
  predicate EndsWith(s: string, suffix: string)
  {
    |suffix| <= |s| && s[|s| - |suffix|..] == suffix
  }

  /** `s.startsWith(prefix)`. */
  predicate StartsWith(s: string, prefix: string)
  {
    prefix <= s
  }

  /** Appending a non-empty `b` gives a string that ends with `b` and from
      which dropping `|b|` characters gives back `a`. */
  lemma AppendSuffix(a: string, b: string)
    requires 0 < |b|
    ensures EndsWith(a + b, b)
    ensures DropLast(a + b, |b|) == a
  {
    assert (a + b)[|a|..] == b;
    assert (a + b)[..|a|] == a;
  }

  /** A string that ends with a non-empty `t` is what remains after
      dropping `|t|` characters, followed by `t`. */
  lemma EndsWithSplit(s: string, t: string)
    requires 0 < |t| && EndsWith(s, t)
    ensures s == DropLast(s, |t|) + t
  {
    assert s == s[..|s| - |t|] + s[|s| - |t|..];
  }

  /** Concatenation is associative. */
  lemma Assoc<T>(a: seq<T>, b: seq<T>, c: seq<T>)
    ensures a + b + c == a + (b + c)
  {
  }

  /** A suffix of `b` is a suffix of `a + b`. */
  lemma EndsWithAppend(a: string, b: string, c: string)
    requires EndsWith(b, c)
    ensures EndsWith(a + b, c)
  {
    assert (a + b)[|a + b| - |c|..] == b[|b| - |c|..];
  }

  /** `m[k] || ''` on a record whose values are strings: the entry for `k`,
      or "" (the falsy default) when there is none. */
  function Get<K>(m: map<K, string>, k: K): string
  {
    if k in m then m[k] else ""
  }

  /** The characters `String.prototype.trim` removes: ECMAScript WhiteSpace
      and LineTerminator code points. */
  predicate IsSpace(c: char)
  {
    || c == '\t' || c == '\n' || c == '\U{000B}' || c == '\U{000C}' || c == '\r'
    || c == ' ' || c == '\U{00A0}' || c == '\U{1680}'
    || ('\U{2000}' <= c <= '\U{200A}')
    || c == '\U{2028}' || c == '\U{2029}' || c == '\U{202F}' || c == '\U{205F}'
    || c == '\U{3000}' || c == '\U{FEFF}'
  }

  /** Leading white space removed. */
  function TrimStart(s: string): (r: string)
    ensures |r| <= |s|
    ensures r == "" || !IsSpace(r[0])
  {
    if s != "" && IsSpace(s[0]) then TrimStart(s[1..]) else s
  }

  /** Trailing white space removed. */
  function TrimEnd(s: string): (r: string)
    ensures |r| <= |s|
    ensures r == "" || !IsSpace(r[|r| - 1])
  {
    if s != "" && IsSpace(s[|s| - 1]) then TrimEnd(s[..|s| - 1]) else s
  }

  /** `s.trim()`: white space removed at both ends. */
  function Trim(s: string): (r: string)
    ensures |r| <= |s|
    ensures r == "" || (!IsSpace(r[0]) && !IsSpace(r[|r| - 1]))
  {
    TrimEndPrefix(TrimStart(s));
    TrimEnd(TrimStart(s))
  }

  /** `TrimStart` keeps the longest suffix that does not start with white
      space: what it drops is all white space. */
  lemma {:induction false} TrimStartSuffix(s: string)
    ensures TrimStart(s) == s[|s| - |TrimStart(s)|..]
    ensures forall k :: 0 <= k < |s| - |TrimStart(s)| ==> IsSpace(s[k])
    decreases |s|
  {
    if s != "" && IsSpace(s[0]) {
      TrimStartSuffix(s[1..]);
      assert s[1..][|s| - 1 - |TrimStart(s[1..])|..] == s[|s| - |TrimStart(s)|..];
    }
  }

  /** `TrimEnd` keeps the longest prefix that does not end with white
      space: what it drops is all white space. */
  lemma {:induction false} TrimEndPrefix(s: string)
    ensures TrimEnd(s) <= s
    ensures forall k :: |TrimEnd(s)| <= k < |s| ==> IsSpace(s[k])
    decreases |s|
  {
    if s != "" && IsSpace(s[|s| - 1]) {
      TrimEndPrefix(s[..|s| - 1]);
    }
  }

  /** The trim of `s` is the stretch of `s` that starts after its leading
      white space. */
  lemma TrimSlice(s: string)
    ensures var lead := |s| - |TrimStart(s)|;
      && lead + |Trim(s)| <= |s|
      && Trim(s) == s[lead..lead + |Trim(s)|]
  {
    var t := TrimStart(s);
    var lead := |s| - |t|;
    var r := Trim(s);
    TrimStartSuffix(s);
    TrimEndPrefix(t);
    assert r == t[..|r|];
  }

  /** What the trim drops, before and after the kept stretch, is all white
      space. */
  lemma TrimDropsSpace(s: string)
    ensures var lead := |s| - |TrimStart(s)|;
      && (forall k :: 0 <= k < lead ==> IsSpace(s[k]))
      && (forall k :: lead + |Trim(s)| <= k < |s| ==> IsSpace(s[k]))
  {
    var t := TrimStart(s);
    var lead := |s| - |t|;
    var r := Trim(s);
    TrimStartSuffix(s);
    TrimEndPrefix(t);
    forall k | lead + |r| <= k < |s|
      ensures IsSpace(s[k])
    {
      assert s[k] == t[k - lead];
    }
  }

  /** The ASCII part of `toLowerCase`: `A`–`Z` become `a`–`z`. */
  function LowerChar(c: char): char
  {
    if 'A' <= c <= 'Z' then (c as int + 32) as char else c
  }

  predicate IsAsciiLetter(c: char)
  {
    'a' <= c <= 'z' || 'A' <= c <= 'Z'
  }

  /** `s.toLowerCase()` restricted to ASCII: same length, every upper-case
      letter lowered, every other character kept. */
  function ToLower(s: string): (r: string)
    ensures |r| == |s|
    ensures forall i :: 0 <= i < |s| ==> r[i] == LowerChar(s[i])
    ensures forall i :: 0 <= i < |s| ==> !('A' <= r[i] <= 'Z')
  {
    seq(|s|, i requires 0 <= i < |s| => LowerChar(s[i]))
  }

  /** Text without upper-case ASCII letters is its own lower case. */
  lemma ToLowerUnchanged(s: string)
    requires forall i :: 0 <= i < |s| ==> !('A' <= s[i] <= 'Z')
    ensures ToLower(s) == s
  {
  }

  /** Text that neither starts nor ends with white space is its own trim. */
  lemma TrimUnchanged(s: string)
    requires s == "" || (!IsSpace(s[0]) && !IsSpace(s[|s| - 1]))
    ensures Trim(s) == s
  {
    assert TrimStart(s) == s;
  }

  /** `parts.join(sep)`. */
  function Join(parts: seq<string>, sep: string): string
  {
    if |parts| == 0 then ""
    else if |parts| == 1 then parts[0]
    else parts[0] + sep + Join(parts[1..], sep)
  }
}
