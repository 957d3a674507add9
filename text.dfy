/**
 * The handful of Python `str` operations the services rely on, written out
 * over `seq<char>`: `isspace`/`strip`, ASCII `lower`, `isdigit`, `int()`,
 * `str()` of an integer, slicing, `in`, `find`, `split` and `join`.
 */
module Text {
  import opened Wrappers

  /** `str.isspace()` for one character; also the class `\s` matches in a `str` pattern. */
  predicate IsSpace(c: char) {
    var n := c as int;
    (9 <= n <= 13) || (28 <= n <= 32) || n == 0x85 || n == 0xA0 || n == 0x1680
    || (0x2000 <= n <= 0x200A) || n == 0x2028 || n == 0x2029 || n == 0x202F
    || n == 0x205F || n == 0x3000
  }

  predicate IsDigit(c: char) { '0' <= c <= '9' }

  predicate IsLetter(c: char) { ('a' <= c <= 'z') || ('A' <= c <= 'Z') }

  /** The class `\w`, restricted to ASCII. */
  predicate IsWordChar(c: char) { IsLetter(c) || IsDigit(c) || c == '_' }

  predicate AllSpace(s: string) { forall i :: 0 <= i < |s| ==> IsSpace(s[i]) }

  /** `str.isdigit()` (ASCII digits): true only for a non-empty all-digit string. */
  predicate IsDigits(s: string) { |s| > 0 && forall i :: 0 <= i < |s| ==> IsDigit(s[i]) }

  // ----- strip -----

  /** First index at or after `i` that is not whitespace, or `|s|`. */
  function SkipSpace(s: string, i: nat): (k: nat)
    requires i <= |s|
    ensures i <= k <= |s|
    ensures forall j :: i <= j < k ==> IsSpace(s[j])
    ensures k < |s| ==> !IsSpace(s[k])
    decreases |s| - i
  {
    if i == |s| || !IsSpace(s[i]) then i else SkipSpace(s, i + 1)
  }

  /** Largest `k` in `lo..j` such that `s[k..j]` is all whitespace. */
  function TrimEnd(s: string, lo: nat, j: nat): (k: nat)
    requires lo <= j <= |s|
    ensures lo <= k <= j
    ensures forall m :: k <= m < j ==> IsSpace(s[m])
    ensures k > lo ==> !IsSpace(s[k - 1])
    decreases j - lo
  {
    if j == lo || !IsSpace(s[j - 1]) then j else TrimEnd(s, lo, j - 1)
  }

  /** Python's `s.strip()`. */
  function Strip(s: string): (r: string)
    ensures |r| <= |s|
    ensures r == [] <==> AllSpace(s)
    ensures r != [] ==> !IsSpace(r[0]) && !IsSpace(r[|r| - 1])
  {
    var lo := SkipSpace(s, 0);
    var hi := TrimEnd(s, lo, |s|);
    assert lo < |s| ==> lo < hi;
    assert AllSpace(s) ==> lo == |s|;
    s[lo..hi]
  }

  /** Python's `s.lstrip()`. */
  function LStrip(s: string): (r: string)
    ensures |r| <= |s| && r == s[|s| - |r|..]
    ensures r != [] ==> !IsSpace(r[0])
    ensures AllSpace(s[..|s| - |r|])
  {
    s[SkipSpace(s, 0)..]
  }

  lemma StripOfStripped(s: string)
    requires s == [] || (!IsSpace(s[0]) && !IsSpace(s[|s| - 1]))
    ensures Strip(s) == s
  {
    if s != [] {
      assert SkipSpace(s, 0) == 0;
      assert TrimEnd(s, 0, |s|) == |s|;
    }
  }

  /** Stripping twice is stripping once. */
  lemma StripIdempotent(s: string)
    ensures Strip(Strip(s)) == Strip(s)
  {
    StripOfStripped(Strip(s));
  }

  // ----- case -----

  function LowerChar(c: char): char {
    if 'A' <= c <= 'Z' then (c as int + 32) as char else c
  }

  /** `str.lower()` on ASCII letters; every other character is kept. */
  function Lower(s: string): (r: string)
    ensures |r| == |s|
    ensures forall i :: 0 <= i < |s| ==> r[i] == LowerChar(s[i])
  {
    seq(|s|, i requires 0 <= i < |s| => LowerChar(s[i]))
  }

  // ----- searching -----

  predicate MatchesAt(s: string, i: nat, m: string) {
    i + |m| <= |s| && s[i..i + |m|] == m
  }

  /** An `IGNORECASE` match of the literal `m` at position `i`. */
  predicate MatchesAtCI(s: string, i: nat, m: string) {
    i + |m| <= |s| && forall k :: 0 <= k < |m| ==> LowerChar(s[i + k]) == LowerChar(m[k])
  }

  /** The first occurrence of `m` at or after `i`. */
  function Find(s: string, m: string, i: nat): (r: Option<nat>)
    requires i <= |s|
    ensures r.Some? ==> i <= r.value <= |s| && MatchesAt(s, r.value, m)
    ensures r.Some? ==> forall j :: i <= j < r.value ==> !MatchesAt(s, j, m)
    ensures r.None? ==> forall j :: i <= j <= |s| ==> !MatchesAt(s, j, m)
    decreases |s| - i
  {
    if MatchesAt(s, i, m) then Some(i)
    else if i == |s| then None
    else Find(s, m, i + 1)
  }

  /** The first case-insensitive occurrence of `m` at or after `i`. */
  function FindCI(s: string, m: string, i: nat): (r: Option<nat>)
    requires i <= |s|
    ensures r.Some? ==> i <= r.value <= |s| && MatchesAtCI(s, r.value, m)
    ensures r.Some? ==> forall j :: i <= j < r.value ==> !MatchesAtCI(s, j, m)
    ensures r.None? ==> forall j :: i <= j <= |s| ==> !MatchesAtCI(s, j, m)
    decreases |s| - i
  {
    if MatchesAtCI(s, i, m) then Some(i)
    else if i == |s| then None
    else FindCI(s, m, i + 1)
  }

  /** Python's `m in s`. */
  predicate Contains(s: string, m: string) {
    Find(s, m, 0).Some?
  }

  predicate StartsWith(s: string, p: string) {
    |p| <= |s| && s[..|p|] == p
  }

  predicate EndsWith(s: string, p: string) {
    |p| <= |s| && s[|s| - |p|..] == p
  }

  /** Python's `s[:n]`. */
  function Take(s: string, n: nat): (r: string)
    ensures |r| == if |s| <= n then |s| else n
    ensures r == s[..|r|]
  {
    if |s| <= n then s else s[..n]
  }

  /** `s[:n] + "..." if len(s) > n else s`, the truncation used for previews. */
  function Ellipsize(s: string, n: nat): (r: string)
    ensures |s| <= n ==> r == s
    ensures |s| > n ==> |r| == n + 3 && r[..n] == s[..n] && r[n..] == "..."
  {
    if |s| > n then s[..n] + "..." else s
  }

  // ----- split and join -----

  /** Python's `sep.join(parts)`. */
  function Join(sep: string, parts: seq<string>): string
  {
    if |parts| == 0 then ""
    else if |parts| == 1 then parts[0]
    else parts[0] + sep + Join(sep, parts[1..])
  }

  /** Python's `s.split(c)` for a one-character separator. */
  function Split(s: string, c: char): (r: seq<string>)
    ensures |r| >= 1
    ensures forall k :: 0 <= k < |r| ==> c !in r[k]
    ensures Join([c], r) == s
    decreases |s|
  {
    var f := Find(s, [c], 0);
    if f.None? then
      assert forall j :: 0 <= j < |s| ==> s[j] != c by {
        forall j | 0 <= j < |s| ensures s[j] != c {
          assert !MatchesAt(s, j, [c]);
          assert s[j..j + 1] == [s[j]];
        }
      }
      [s]
    else
      var i := f.value;
      assert s[i..i + 1] == [c];
      assert forall j :: 0 <= j < i ==> s[j] != c by {
        forall j | 0 <= j < i ensures s[j] != c {
          assert !MatchesAt(s, j, [c]);
          assert s[j..j + 1] == [s[j]];
        }
      }
      var rest := Split(s[i + 1..], c);
      var r := [s[..i]] + rest;
      assert r[1..] == rest;
      assert s == s[..i] + [c] + s[i + 1..];
      r
  }

  /** First whitespace index at or after `i`, or `|s|`. */
  function SkipWord(s: string, i: nat): (k: nat)
    requires i <= |s|
    ensures i <= k <= |s|
    ensures forall j :: i <= j < k ==> !IsSpace(s[j])
    ensures k < |s| ==> IsSpace(s[k])
    decreases |s| - i
  {
    if i == |s| || IsSpace(s[i]) then i else SkipWord(s, i + 1)
  }

  /** Python's `s.split()` with no separator: the maximal runs of non-whitespace. */
  function Words(s: string): (r: seq<string>)
    ensures forall k :: 0 <= k < |r| ==> r[k] != [] && forall j :: 0 <= j < |r[k]| ==> !IsSpace(r[k][j])
    ensures AllSpace(s) ==> r == []
    decreases |s|
  {
    var i := SkipSpace(s, 0);
    if i == |s| then []
    else
      var e := SkipWord(s, i);
      [s[i..e]] + Words(s[e..])
  }

  /** Splitting at the first separator: `(a + c + b).split(c) == [a] + b.split(c)`. */
  lemma SplitAtFirst(a: string, c: char, b: string)
    requires c !in a
    ensures Split(a + [c] + b, c) == [a] + Split(b, c)
  {
    var s := a + [c] + b;
    var f := Find(s, [c], 0);
    assert MatchesAt(s, |a|, [c]) by { assert s[|a|..|a| + 1] == [c]; }
    forall j | 0 <= j < |a| ensures !MatchesAt(s, j, [c]) {
      assert s[j..j + 1] == [a[j]];
    }
    assert f == Some(|a|);
    assert s[..|a|] == a;
    assert s[|a| + 1..] == b;
  }

  lemma SplitNoSeparator(a: string, c: char)
    requires c !in a
    ensures Split(a, c) == [a]
  {
  }

  /** A word with a letter the text lacks does not occur in it. */
  lemma AbsentLetter(s: string, m: string, c: char)
    requires c in m && c !in s
    ensures !Contains(s, m)
  {
  }

  lemma ContainsItself(t: string)
    ensures Contains(t, t)
  {
    assert MatchesAt(t, 0, t);
  }

  /** A string occurs in any text built around it. */
  lemma ContainsMiddle(a: string, m: string, b: string)
    ensures Contains(a + m + b, m)
  {
    var s := a + m + b;
    assert s[|a|..|a| + |m|] == m;
    assert MatchesAt(s, |a|, m);
  }

  /** A string that occurs in `x` occurs in any text built around `x`. */
  lemma ContainsWithin(a: string, x: string, b: string, m: string)
    requires Contains(x, m)
    ensures Contains(a + x + b, m)
  {
    var i := Find(x, m, 0).value;
    var s := a + x + b;
    assert s[|a| + i..|a| + i + |m|] == x[i..i + |m|];
    assert MatchesAt(s, |a| + i, m);
  }

  /** A word whose first letter the prefix lacks occurs in `p + x` only inside `x`. */
  lemma PrefixContains(p: string, x: string, m: string)
    requires |m| > 0 && m[0] !in p && Contains(p + x, m)
    ensures Contains(x, m)
  {
    var s := p + x;
    var i := Find(s, m, 0).value;
    assert s[i..i + |m|] == m;
    assert s[i] == m[0];
    assert i >= |p|;
    var j := i - |p|;
    assert x[j..j + |m|] == s[i..i + |m|];
    assert MatchesAt(x, j, m);
  }

  /** Joining parts that lack the separator and splitting again gives the parts back. */
  lemma {:induction false} SplitJoin(parts: seq<string>, c: char)
    requires |parts| >= 1
    requires forall k :: 0 <= k < |parts| ==> c !in parts[k]
    ensures Split(Join([c], parts), c) == parts
    decreases |parts|
  {
    if |parts| == 1 {
      SplitNoSeparator(parts[0], c);
    } else {
      SplitJoin(parts[1..], c);
      SplitAtFirst(parts[0], c, Join([c], parts[1..]));
      assert parts == [parts[0]] + parts[1..];
    }
  }

  lemma JoinFirst(sep: string, parts: seq<string>)
    requires |parts| >= 1 && parts[0] != []
    ensures Join(sep, parts) != [] && Join(sep, parts)[0] == parts[0][0]
  {
  }

  /** The joined text ends with the last part's last character. */
  lemma {:induction false} JoinLast(sep: string, parts: seq<string>)
    requires |parts| >= 1 && parts[|parts| - 1] != []
    ensures Join(sep, parts) != []
    ensures Join(sep, parts)[|Join(sep, parts)| - 1] == parts[|parts| - 1][|parts[|parts| - 1]| - 1]
    decreases |parts|
  {
    if |parts| > 1 {
      JoinLast(sep, parts[1..]);
    }
  }

  /** The `A | B | C` row that the model is asked to answer with, one per item. */
  function PipeRow(a: string, b: string, c: string): string {
    a + " | " + b + " | " + c
  }

  /** A field that survives being written into a row and stripped back out. */
  predicate CleanField(x: string) {
    '|' !in x && (x == [] || (!IsSpace(x[0]) && !IsSpace(x[|x| - 1])))
  }

  lemma SplitPipeRow(a: string, b: string, c: string)
    requires CleanField(a) && CleanField(b) && CleanField(c)
    ensures Split(PipeRow(a, b, c), '|') == [a + " ", " " + b + " ", " " + c]
  {
    var x, y, z := a + " ", " " + b + " ", " " + c;
    assert '|' !in x && '|' !in y && '|' !in z;
    calc {
      PipeRow(a, b, c);
      a + " | " + b + " | " + c;
      { assert " | " == " " + ['|'] + " "; }
      a + (" " + ['|'] + " ") + b + (" " + ['|'] + " ") + c;
      x + ['|'] + (y + ['|'] + z);
    }
    SplitAtFirst(x, '|', y + ['|'] + z);
    SplitAtFirst(y, '|', z);
    SplitNoSeparator(z, '|');
  }

  /** Padding a stripped string with blanks and stripping it again gives it back. */
  lemma StripPadded(x: string)
    requires x == [] || (!IsSpace(x[0]) && !IsSpace(x[|x| - 1]))
    ensures Strip(" " + x + " ") == x
    ensures Strip(x + " ") == x
    ensures Strip(" " + x) == x
  {
    var a := " " + x + " ";
    var b := x + " ";
    var c := " " + x;
    if x == [] {
      assert AllSpace(a) && AllSpace(b) && AllSpace(c);
    } else {
      assert SkipSpace(a, 1) == 1;
      assert SkipSpace(a, 0) == 1;
      assert TrimEnd(a, 1, |a| - 1) == |a| - 1;
      assert TrimEnd(a, 1, |a|) == |a| - 1;
      assert a[1..|a| - 1] == x;
      assert SkipSpace(b, 0) == 0;
      assert TrimEnd(b, 0, |b| - 1) == |b| - 1;
      assert TrimEnd(b, 0, |b|) == |b| - 1;
      assert b[0..|b| - 1] == x;
      assert SkipSpace(c, 1) == 1;
      assert SkipSpace(c, 0) == 1;
      assert TrimEnd(c, 1, |c|) == |c|;
      assert c[1..] == x;
    }
  }

  // ----- integers -----

  function DigitChar(d: nat): (c: char)
    requires d < 10
    ensures IsDigit(c)
  {
    ('0' as int + d) as char
  }

  /** Python's `str(n)` for a natural number. */
  function NatToString(n: nat): (r: string)
    ensures IsDigits(r)
    decreases n
  {
    if n < 10 then [DigitChar(n)] else NatToString(n / 10) + [DigitChar(n % 10)]
  }

  /** Python's `str(i)`. */
  function IntToString(i: int): (r: string)
    ensures |r| > 0
    ensures (r[0] == '-') <==> i < 0
  {
    if i < 0 then "-" + NatToString(-i) else NatToString(i)
  }

  /** `str(HTTPException(status, detail))`. */
  function HttpErrorText(e: HttpError): string {
    NatToString(e.status) + ": " + e.detail
  }

  /** Python's `int(s)` on a string of decimal digits (leading zeros allowed). */
  function DigitsValue(s: string): nat
    requires forall i :: 0 <= i < |s| ==> IsDigit(s[i])
    decreases |s|
  {
    if s == [] then 0
    else
      assert IsDigit(s[|s| - 1]);
      DigitsValue(s[..|s| - 1]) * 10 + (s[|s| - 1] as int - '0' as int)
  }

  /** `int(str(n)) == n`. */
  lemma {:induction false} NatToStringRoundTrip(n: nat)
    ensures DigitsValue(NatToString(n)) == n
    decreases n
  {
    if n >= 10 {
      NatToStringRoundTrip(n / 10);
      var s := NatToString(n);
      assert s[..|s| - 1] == NatToString(n / 10);
    }
  }
}
