/**
 * The JavaScript and Go string operations the model relies on, written out:
 * case mapping (ASCII letters only), prefix/suffix tests, `includes`,
 * `replace` with a string pattern, `split` and `join` on one character,
 * and the decimal rendering of an integer.
 */
module Text {
  import opened Wrappers

  function ToLowerChar(c: char): char {
    if 'A' <= c <= 'Z' then (c as int + 32) as char else c
  }

  function ToUpperChar(c: char): char {
    if 'a' <= c <= 'z' then (c as int - 32) as char else c
  }

  /** `String.prototype.toLowerCase`, on ASCII letters. */
  function ToLower(s: string): (r: string)
    ensures |r| == |s|
    ensures forall i :: 0 <= i < |s| ==> r[i] == ToLowerChar(s[i])
  {
    seq(|s|, i requires 0 <= i < |s| => ToLowerChar(s[i]))
  }

  /** `String.prototype.toUpperCase`, on ASCII letters. */
  function ToUpper(s: string): (r: string)
    ensures |r| == |s|
    ensures forall i :: 0 <= i < |s| ==> r[i] == ToUpperChar(s[i])
  {
    seq(|s|, i requires 0 <= i < |s| => ToUpperChar(s[i]))
  }

  predicate StartsWith(s: string, p: string) {
    |p| <= |s| && s[..|p|] == p
  }

  predicate EndsWith(s: string, suffix: string) {
    |suffix| <= |s| && s[|s| - |suffix|..] == suffix
  }

  /** `t` occurs in `s` starting at index `i`. */
  predicate OccursAt(s: string, t: string, i: int) {
    0 <= i && i + |t| <= |s| && s[i..i + |t|] == t
  }

  /** The first index at or after `from` where `t` occurs in `s` (`indexOf`). */
  function IndexOfFrom(s: string, t: string, from: nat): (r: Option<nat>)
    requires from <= |s| + 1
    ensures r.Some? ==> from <= r.value && OccursAt(s, t, r.value)
    ensures r.Some? ==> forall j :: from <= j < r.value ==> !OccursAt(s, t, j)
    ensures r.None? ==> forall j :: from <= j ==> !OccursAt(s, t, j)
    decreases |s| + 1 - from
  {
    if from + |t| > |s| then None
    else if s[from..from + |t|] == t then Some(from)
    else IndexOfFrom(s, t, from + 1)
  }

  function IndexOf(s: string, t: string): Option<nat> {
    IndexOfFrom(s, t, 0)
  }

  /** `String.prototype.includes`. */
  predicate Contains(s: string, t: string) {
    IndexOf(s, t).Some?
  }

  lemma ContainsIff(s: string, t: string)
    ensures Contains(s, t) <==> exists i :: OccursAt(s, t, i)
  {
    if Contains(s, t) {
      assert OccursAt(s, t, IndexOf(s, t).value);
    }
  }

  /** `s.replace(pattern, replacement)` with a string pattern: only the FIRST occurrence is replaced. */
  function ReplaceFirst(s: string, pattern: string, replacement: string): string {
    match IndexOf(s, pattern)
    case None => s
    case Some(i) => s[..i] + replacement + s[i + |pattern|..]
  }

  /** `s.split(d)`: the pieces between occurrences of `d`; never empty (`"".split("/")` is `[""]`). */
  function Split(s: string, d: char): (r: seq<string>)
    ensures |r| >= 1
    decreases |s|
  {
    if s == [] then [""]
    else if s[0] == d then [""] + Split(s[1..], d)
    else
      var t := Split(s[1..], d);
      [[s[0]] + t[0]] + t[1..]
  }

  /** `parts.join(d)`: `[].join` is `""`. */
  function Join(parts: seq<string>, d: char): string
    decreases |parts|
  {
    if |parts| == 0 then ""
    else if |parts| == 1 then parts[0]
    else parts[0] + [d] + Join(parts[1..], d)
  }

  predicate NoDelimiter(parts: seq<string>, d: char) {
    forall k :: 0 <= k < |parts| ==> d !in parts[k]
  }

  lemma JoinCons(p: string, rest: seq<string>, d: char)
    ensures Join([p] + rest, d) == if rest == [] then p else p + [d] + Join(rest, d)
  {
    assert ([p] + rest)[1..] == rest;
  }

  lemma {:induction false} JoinSnoc(parts: seq<string>, p: string, d: char)
    requires |parts| >= 1
    ensures Join(parts + [p], d) == Join(parts, d) + [d] + p
    decreases |parts|
  {
    if |parts| == 1 {
      assert parts + [p] == [parts[0]] + [p];
      JoinCons(parts[0], [p], d);
    } else {
      assert (parts + [p])[1..] == parts[1..] + [p];
      JoinSnoc(parts[1..], p, d);
    }
  }

  /** Splitting and re-joining gives back the string. */
  lemma {:induction false} JoinSplit(s: string, d: char)
    ensures Join(Split(s, d), d) == s
    ensures NoDelimiter(Split(s, d), d)
    decreases |s|
  {
    if s == [] {
    } else if s[0] == d {
      JoinSplit(s[1..], d);
      JoinSplitDelimiterHead(s, d);
    } else {
      JoinSplit(s[1..], d);
      JoinSplitOtherHead(s, d);
    }
  }

  lemma JoinSplitDelimiterHead(s: string, d: char)
    requires s != [] && s[0] == d
    requires Join(Split(s[1..], d), d) == s[1..] && NoDelimiter(Split(s[1..], d), d)
    ensures Join(Split(s, d), d) == s && NoDelimiter(Split(s, d), d)
  {
    var t := Split(s[1..], d);
    assert Split(s, d) == [""] + t;
    JoinCons("", t, d);
    assert s == [d] + s[1..];
  }

  lemma JoinSplitOtherHead(s: string, d: char)
    requires s != [] && s[0] != d
    requires Join(Split(s[1..], d), d) == s[1..] && NoDelimiter(Split(s[1..], d), d)
    ensures Join(Split(s, d), d) == s && NoDelimiter(Split(s, d), d)
  {
    var t := Split(s[1..], d);
    assert Split(s, d) == [[s[0]] + t[0]] + t[1..];
    JoinExtendHead(s[0], t, d);
    assert s == [s[0]] + s[1..];
    PrependHeadNoDelimiter(s[0], t, d);
  }

  lemma JoinExtendHead(c: char, t: seq<string>, d: char)
    requires |t| >= 1
    ensures Join([[c] + t[0]] + t[1..], d) == [c] + Join(t, d)
  {
    assert t == [t[0]] + t[1..];
    JoinCons([c] + t[0], t[1..], d);
    JoinCons(t[0], t[1..], d);
  }

  lemma PrependHeadNoDelimiter(c: char, t: seq<string>, d: char)
    requires |t| >= 1 && c != d && NoDelimiter(t, d)
    ensures NoDelimiter([[c] + t[0]] + t[1..], d)
  {
    var r := [[c] + t[0]] + t[1..];
    assert d !in t[0];
    forall k | 0 <= k < |r| ensures d !in r[k] {
      if k > 0 { assert r[k] == t[k]; }
    }
  }

  lemma {:induction false} SplitNoDelimiter(s: string, d: char)
    requires d !in s
    ensures Split(s, d) == [s]
    decreases |s|
  {
    if s != [] {
      SplitNoDelimiter(s[1..], d);
      assert s == [s[0]] + s[1..];
    }
  }

  lemma {:induction false} SplitAfterPart(a: string, rest: string, d: char)
    requires d !in a
    ensures Split(a + [d] + rest, d) == [a] + Split(rest, d)
    decreases |a|
  {
    var s := a + [d] + rest;
    if a == [] {
      assert s[0] == d && s[1..] == rest;
    } else {
      assert s[0] == a[0] && s[1..] == a[1..] + [d] + rest;
      SplitAfterPart(a[1..], rest, d);
      assert [a[0]] + a[1..] == a;
    }
  }

  /** Joining pieces free of the delimiter and splitting again gives back the pieces. */
  lemma {:induction false} SplitJoin(parts: seq<string>, d: char)
    requires |parts| >= 1 && NoDelimiter(parts, d)
    ensures Split(Join(parts, d), d) == parts
    decreases |parts|
  {
    if |parts| == 1 {
      assert d !in parts[0];
      SplitNoDelimiter(parts[0], d);
    } else {
      assert d !in parts[0];
      SplitJoin(parts[1..], d);
      SplitAfterPart(parts[0], Join(parts[1..], d), d);
      assert [parts[0]] + parts[1..] == parts;
    }
  }

  function DigitChar(n: nat): char
    requires n < 10
  {
    "0123456789"[n]
  }

  function NatToString(n: nat): string
    decreases n
  {
    if n < 10 then [DigitChar(n)] else NatToString(n / 10) + [DigitChar(n % 10)]
  }

  /** The decimal rendering JavaScript gives an integral number. */
  function IntToString(i: int): string {
    if i < 0 then "-" + NatToString(-i) else NatToString(i)
  }
}
