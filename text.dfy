/** String operations of the JavaScript runtime that the bridge relies on:
    `startsWith`, `indexOf`/`includes`, `replace` with a string pattern (first
    occurrence only), `split`/`join` on a one-character separator, `trim`,
    and decimal digits. A string is a `seq<char>` of Unicode scalar values. */
module Text {

  datatype Option<+T> = None | Some(value: T)

  predicate StartsWith(s: string, prefix: string) {
    |prefix| <= |s| && s[..|prefix|] == prefix
  }

  /** `p` occurs in `s` starting at index `i`. */
  predicate OccursAt(s: string, p: string, i: nat) {
    i + |p| <= |s| && s[i..i + |p|] == p
  }

  /** The search of `s.indexOf(p, from)`: the first occurrence at or after `from`. */
  function FirstIndexFrom(s: string, p: string, from: nat): (r: Option<nat>)
    requires from <= |s|
    ensures r.Some? ==> from <= r.value && OccursAt(s, p, r.value)
    ensures r.Some? ==> forall j: nat :: from <= j < r.value ==> !OccursAt(s, p, j)
    ensures r.None? ==> forall j: nat :: from <= j ==> !OccursAt(s, p, j)
    decreases |s| - from
  {
    if OccursAt(s, p, from) then Some(from)
    else if from + |p| >= |s| then None
    else FirstIndexFrom(s, p, from + 1)
  }

  /** `s.indexOf(p)`, with `None` for -1. */
  function FirstIndexOf(s: string, p: string): (r: Option<nat>)
    ensures r.Some? <==> exists j: nat :: OccursAt(s, p, j)
    ensures r.Some? ==> OccursAt(s, p, r.value) && forall j: nat :: j < r.value ==> !OccursAt(s, p, j)
  {
    FirstIndexFrom(s, p, 0)
  }

  /** `s.includes(p)`. */
  predicate Contains(s: string, p: string) {
    FirstIndexOf(s, p).Some?
  }

  /** `s.replace(p, r)` with a string pattern: only the FIRST occurrence of `p`
      is replaced; without an occurrence `s` is returned unchanged. (None of the
      replacement strings used by the bridge contains `$`, so JavaScript's
      `$`-substitution patterns do not arise.) */
  function ReplaceFirst(s: string, p: string, r: string): (t: string)
    ensures FirstIndexOf(s, p).None? ==> t == s
    ensures FirstIndexOf(s, p).Some? ==>
              var i := FirstIndexOf(s, p).value;
              |t| == |s| - |p| + |r| &&
              t[..i] == s[..i] && t[i..i + |r|] == r && t[i + |r|..] == s[i + |p|..]
  {
    match FirstIndexOf(s, p)
    case None => s
    case Some(i) => s[..i] + r + s[i + |p|..]
  }

  /** When `s` starts with `p`, the first occurrence is the prefix itself. */
  lemma ReplaceFirstOfPrefix(s: string, p: string, r: string)
    requires StartsWith(s, p)
    ensures ReplaceFirst(s, p, r) == r + s[|p|..]
  {
    assert OccursAt(s, p, 0);
    assert FirstIndexOf(s, p) == Some(0);
  }

  /** Locating `p` in `a + b` when `a` holds no occurrence that reaches into
      `b` and `p` occurs right at the start of `b`. */
  lemma FirstIndexAfterPrefix(a: string, b: string, p: string)
    requires |p| > 0 && StartsWith(b, p)
    requires forall j: nat :: j < |a| ==> !OccursAt(a + b, p, j)
    ensures FirstIndexOf(a + b, p) == Some(|a|)
  {
    assert (a + b)[|a|..|a| + |p|] == b[..|p|];
    assert OccursAt(a + b, p, |a|);
  }

  /** Replacing in `a + b` where the first occurrence opens `b`. */
  lemma ReplaceFirstAfter(a: string, b: string, p: string, r: string)
    requires |p| > 0 && StartsWith(b, p)
    requires forall j: nat :: j < |a| ==> !OccursAt(a + b, p, j)
    ensures ReplaceFirst(a + b, p, r) == a + r + b[|p|..]
  {
    FirstIndexAfterPrefix(a, b, p);
    assert (a + b)[..|a|] == a;
    assert (a + b)[|a| + |p|..] == b[|p|..];
  }

  /** Replacing in `a + b` where no occurrence starts inside `a` because
      `a` holds none of the pattern's first character. */
  lemma ReplaceFirstAfterFree(a: string, b: string, p: string, r: string)
    requires |p| > 0 && StartsWith(b, p) && p[0] !in a
    ensures ReplaceFirst(a + b, p, r) == a + r + b[|p|..]
  {
    forall j: nat | j < |a| ensures !OccursAt(a + b, p, j) {
    }
    ReplaceFirstAfter(a, b, p, r);
  }

  /** The index of the first `c` in `s`. */
  function FirstIndexOfChar(s: string, c: char): (i: nat)
    requires c in s
    ensures i < |s| && s[i] == c && c !in s[..i]
  {
    if s[0] == c then 0 else FirstIndexOfChar(s[1..], c) + 1
  }

  /** `s.split(sep)` for a one-character separator: never empty; the pieces
      hold no separator. */
  function Split(s: string, sep: char): (parts: seq<string>)
    ensures |parts| > 0
    ensures forall k :: 0 <= k < |parts| ==> sep !in parts[k]
    decreases |s|
  {
    if sep in s then
      var i := FirstIndexOfChar(s, sep);
      [s[..i]] + Split(s[i + 1..], sep)
    else
      [s]
  }

  /** `parts.join(sep)`; the join of no parts is the empty string. */
  function Join(parts: seq<string>, sep: string): string
  {
    if |parts| == 0 then ""
    else if |parts| == 1 then parts[0]
    else parts[0] + sep + Join(parts[1..], sep)
  }

  /** Joining two non-empty lists is joining their joins. */
  lemma {:induction false} JoinAppend(a: seq<string>, b: seq<string>, sep: string)
    requires |a| > 0 && |b| > 0
    ensures Join(a + b, sep) == Join(a, sep) + sep + Join(b, sep)
    decreases |a|
  {
    if |a| == 1 {
      assert (a + b)[1..] == b;
    } else {
      assert (a + b)[1..] == a[1..] + b;
      JoinAppend(a[1..], b, sep);
    }
  }

  lemma JoinCons(x: string, rest: seq<string>, sep: string)
    requires |rest| > 0
    ensures Join([x] + rest, sep) == x + sep + Join(rest, sep)
  {
    assert ([x] + rest)[1..] == rest;
  }

  lemma JoinThree(a: string, b: string, c: string, sep: string)
    ensures Join([a, b, c], sep) == a + sep + b + sep + c
  {
    assert [a, b, c][1..] == [b, c];
    assert [b, c][1..] == [c];
    assert Join([b, c], sep) == b + sep + c;
  }

  /** Splitting a joined list gives the list back when no part holds the
      separator. */
  lemma {:induction false} SplitJoin(parts: seq<string>, sep: char)
    requires |parts| > 0
    requires forall k :: 0 <= k < |parts| ==> sep !in parts[k]
    ensures Split(Join(parts, [sep]), sep) == parts
    decreases |parts|
  {
    if |parts| > 1 {
      var s := Join(parts, [sep]);
      var rest := Join(parts[1..], [sep]);
      assert s == parts[0] + [sep] + rest;
      assert s[|parts[0]|] == sep;
      var i := FirstIndexOfChar(s, sep);
      assert s[..|parts[0]|] == parts[0];
      assert s[i + 1..] == rest;
      SplitJoin(parts[1..], sep);
    }
  }

  /** The first piece of a string whose first separator follows `a`. */
  lemma SplitFirstPiece(a: string, b: string, sep: char)
    requires sep !in a
    ensures Split(a + [sep] + b, sep)[0] == a
  {
    var s := a + [sep] + b;
    assert s[|a|] == sep;
    assert s[..|a|] == a;
  }

  /** A character that is in no part and not in the separator is not in the join. */
  lemma {:induction false} JoinAvoids(parts: seq<string>, sep: string, c: char)
    requires forall k :: 0 <= k < |parts| ==> c !in parts[k]
    requires c !in sep
    ensures c !in Join(parts, sep)
    decreases |parts|
  {
    if |parts| > 1 {
      JoinAvoids(parts[1..], sep, c);
    }
  }

  /** The first piece of `s.split(sep)` and how it sits in `s`: it is a prefix,
      holds no separator, and is followed by a separator or by the end. */
  lemma FirstPiece(s: string, sep: char)
    ensures var t := Split(s, sep)[0];
            StartsWith(s, t) && sep !in t && (|t| == |s| || s[|t|] == sep)
  {
  }

  // ---------------------------------------------------------------------
  // Whitespace and `trim`

  /** The characters JavaScript's `trim` removes: WhiteSpace and
      LineTerminator of ECMA-262, section 12.2 and 12.3. */
  const JsWhitespace: set<char> :=
    {'\t', '\n', '\U{000B}', '\U{000C}', '\r', ' ', '\U{00A0}', '\U{1680}',
     '\U{2000}', '\U{2001}', '\U{2002}', '\U{2003}', '\U{2004}', '\U{2005}',
     '\U{2006}', '\U{2007}', '\U{2008}', '\U{2009}', '\U{200A}',
     '\U{2028}', '\U{2029}', '\U{202F}', '\U{205F}', '\U{3000}', '\U{FEFF}'}

  predicate IsJsWhitespace(c: char) {
    c in JsWhitespace
  }

  function TrimStart(s: string): (t: string)
    ensures |t| <= |s| && t == s[|s| - |t|..]
    ensures t == [] || !IsJsWhitespace(t[0])
    ensures forall k :: 0 <= k < |s| - |t| ==> IsJsWhitespace(s[k])
  {
    if |s| > 0 && IsJsWhitespace(s[0]) then TrimStart(s[1..]) else s
  }

  function TrimEnd(s: string): (t: string)
    ensures |t| <= |s| && t == s[..|t|]
    ensures t == [] || !IsJsWhitespace(t[|t| - 1])
    ensures forall k :: |t| <= k < |s| ==> IsJsWhitespace(s[k])
  {
    if |s| > 0 && IsJsWhitespace(s[|s| - 1]) then TrimEnd(s[..|s| - 1]) else s
  }

  /** `t` is the slice of `s` at `i` and everything around it is whitespace. */
  predicate TrimmedSlice(s: string, t: string, i: nat) {
    i + |t| <= |s| && s[i..i + |t|] == t
    && (forall k :: 0 <= k < i ==> IsJsWhitespace(s[k]))
    && (forall k :: i + |t| <= k < |s| ==> IsJsWhitespace(s[k]))
  }

  /** `s.trim()`: the slice of `s` left after removing leading and trailing
      whitespace; everything removed is whitespace. */
  function Trim(s: string): (t: string)
    ensures exists i: nat :: TrimmedSlice(s, t, i)
    ensures t == [] || (!IsJsWhitespace(t[0]) && !IsJsWhitespace(t[|t| - 1]))
  {
    var a := TrimStart(s);
    var b := TrimEnd(a);
    TrimEndInside(s, a, b);
    b
  }

  lemma TrimEndInside(s: string, a: string, b: string)
    requires |a| <= |s| && a == s[|s| - |a|..]
    requires forall k :: 0 <= k < |s| - |a| ==> IsJsWhitespace(s[k])
    requires |b| <= |a| && b == a[..|b|]
    requires forall k :: |b| <= k < |a| ==> IsJsWhitespace(a[k])
    ensures TrimmedSlice(s, b, |s| - |a|)
  {
    var i := |s| - |a|;
    assert b == s[i..i + |b|];
    forall k | i + |b| <= k < |s| ensures IsJsWhitespace(s[k]) {
      assert s[k] == a[k - i];
    }
  }

  /** A string with no whitespace at either end is its own trim. */
  lemma TrimOfTrimmed(s: string)
    requires s == [] || (!IsJsWhitespace(s[0]) && !IsJsWhitespace(s[|s| - 1]))
    ensures Trim(s) == s
  {
  }

  /** A string made only of whitespace trims to the empty string. */
  lemma TrimAllWhitespace(s: string)
    requires forall k :: 0 <= k < |s| ==> IsJsWhitespace(s[k])
    ensures Trim(s) == ""
  {
  }

  // ---------------------------------------------------------------------
  // Decimal digits

  predicate IsDigit(c: char) { '0' <= c <= '9' }

  predicate AllDigits(s: string) { forall k :: 0 <= k < |s| ==> IsDigit(s[k]) }

  function DigitValue(c: char): nat
    requires IsDigit(c)
  {
    (c as int - '0' as int) as nat
  }

  /** The number a string of decimal digits denotes. */
  function DigitsValue(s: string): nat
    requires AllDigits(s)
  {
    if |s| == 0 then 0 else DigitsValue(s[..|s| - 1]) * 10 + DigitValue(s[|s| - 1])
  }

  /** The decimal form of `n`, without leading zeros. */
  function NatToDigits(n: nat): (s: string)
    ensures |s| > 0 && AllDigits(s)
    ensures s[0] == '0' ==> n == 0 && |s| == 1
  {
    var d := ['0' + (n % 10) as char];
    if n < 10 then d else NatToDigits(n / 10) + d
  }

  lemma {:induction false} NatToDigitsValue(n: nat)
    ensures DigitsValue(NatToDigits(n)) == n
  {
    var s := NatToDigits(n);
    if n >= 10 {
      NatToDigitsValue(n / 10);
      assert s[..|s| - 1] == NatToDigits(n / 10);
    }
  }
}
