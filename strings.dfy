/**
 * The JavaScript string operations the helpers are built from:
 * `String.prototype.trim`, `replace` with a string pattern, `Array.prototype.join`,
 * and the decimal text of an integer inside a template literal.
 */
module Strings {
  import opened Js

  /** JavaScript's WhiteSpace and LineTerminator code points, the set that
      `trim` removes. */
  predicate IsWhitespace(c: char)
  {
    var u := c as int;
    || 0x09 <= u <= 0x0D   // tab, line feed, vertical tab, form feed, carriage return
    || u == 0x20 || u == 0xA0 || u == 0x1680
    || 0x2000 <= u <= 0x200A
    || u == 0x2028 || u == 0x2029 || u == 0x202F || u == 0x205F
    || u == 0x3000 || u == 0xFEFF
  }

  /** Drops leading whitespace: the result is a suffix of `s`, everything cut
      off is whitespace, and the result does not start with whitespace. */
  function TrimStart(s: string): (r: string)
    ensures |r| <= |s| && r == s[|s| - |r|..]
    ensures forall i :: 0 <= i < |s| - |r| ==> IsWhitespace(s[i])
    ensures r != [] ==> !IsWhitespace(r[0])
  {
    if s != [] && IsWhitespace(s[0]) then TrimStart(s[1..]) else s
  }

  /** Drops trailing whitespace: the result is a prefix of `s`, everything cut
      off is whitespace, and the result does not end with whitespace. */
  function TrimEnd(s: string): (r: string)
    ensures |r| <= |s| && r == s[..|r|]
    ensures forall i :: |r| <= i < |s| ==> IsWhitespace(s[i])
    ensures r != [] ==> !IsWhitespace(r[|r| - 1])
  {
    if s != [] && IsWhitespace(s[|s| - 1]) then TrimEnd(s[..|s| - 1]) else s
  }

  /** `s.trim()`. */
  function Trim(s: string): (r: string)
    ensures r != [] ==> !IsWhitespace(r[0]) && !IsWhitespace(r[|r| - 1])
  {
    TrimEnd(TrimStart(s))
  }

  /** The trimmed text is empty exactly when every character is whitespace. */
  lemma TrimEmptyIff(s: string)
    ensures Trim(s) == [] <==> forall i :: 0 <= i < |s| ==> IsWhitespace(s[i])
  {
    var t := TrimStart(s);
    if Trim(s) == [] {
      assert t == [];
    } else {
      var r := Trim(s);
      assert r[0] == t[0];
      assert t[0] == s[|s| - |t|];
    }
  }

  /** `pat` occurs in `s` at index `i`. */
  predicate OccursAt(s: string, pat: string, i: nat)
  {
    i + |pat| <= |s| && s[i..i + |pat|] == pat
  }

  ghost predicate Contains(s: string, pat: string)
  {
    exists i: nat :: OccursAt(s, pat, i)
  }

  /** The index of the first occurrence of `pat` in `s`, as `indexOf` finds it. */
  function FindFirst(s: string, pat: string): (r: Option<nat>)
    ensures r.Some? ==> OccursAt(s, pat, r.value)
    ensures r.Some? ==> forall j: nat :: j < r.value ==> !OccursAt(s, pat, j)
    ensures r.None? <==> !Contains(s, pat)
  {
    if |s| < |pat| then
      assert forall j: nat :: !OccursAt(s, pat, j);
      None
    else if s[..|pat|] == pat then
      Some(0)
    else
      assert !OccursAt(s, pat, 0);
      ShiftOccurrence(s, pat);
      match FindFirst(s[1..], pat)
      case None => None
      case Some(i) => Some(i + 1)
  }

  /** Occurrences in `s[1..]` are the occurrences in `s` one index further on. */
  lemma ShiftOccurrence(s: string, pat: string)
    requires s != []
    ensures forall j: nat {:trigger OccursAt(s[1..], pat, j)} :: OccursAt(s[1..], pat, j) <==> OccursAt(s, pat, j + 1)
    ensures forall j: nat {:trigger OccursAt(s, pat, j)} :: 1 <= j ==> (OccursAt(s, pat, j) <==> OccursAt(s[1..], pat, j - 1))
  {
    forall j: nat ensures OccursAt(s[1..], pat, j) <==> OccursAt(s, pat, j + 1) {
      if j + |pat| <= |s| - 1 {
        assert s[1..][j..j + |pat|] == s[j + 1..j + 1 + |pat|];
      }
    }
  }

  /** `s.replace(pat, rep)` with a string pattern: only the first occurrence
      is replaced, and a string without an occurrence comes back unchanged.
      (`rep` is taken literally; the widget's replacement has no `$`.) */
  function ReplaceFirst(s: string, pat: string, rep: string): (r: string)
    ensures !Contains(s, pat) ==> r == s
    ensures Contains(s, pat) ==> |r| == |s| - |pat| + |rep|
  {
    match FindFirst(s, pat)
    case None => s
    case Some(i) => s[..i] + rep + s[i + |pat|..]
  }

  /** Whatever follows the first occurrence is kept as it is, later
      occurrences included: splitting `s` at its first occurrence of `pat`
      determines the result. */
  lemma ReplaceFirstAtSplit(prefix: string, pat: string, suffix: string, rep: string)
    requires forall j: nat :: j < |prefix| ==> !OccursAt(prefix + pat + suffix, pat, j)
    ensures ReplaceFirst(prefix + pat + suffix, pat, rep) == prefix + rep + suffix
  {
    var s := prefix + pat + suffix;
    assert s[|prefix|..|prefix| + |pat|] == pat;
    assert OccursAt(s, pat, |prefix|);
    var i := FindFirst(s, pat).value;
    assert i == |prefix|;
    assert s[..i] == prefix;
    assert s[i + |pat|..] == suffix;
  }

  /** `parts.join(sep)`. */
  function Join(parts: seq<string>, sep: string): (r: string)
    ensures parts == [] ==> r == ""
    ensures |parts| == 1 ==> r == parts[0]
  {
    if parts == [] then ""
    else if |parts| == 1 then parts[0]
    else parts[0] + sep + Join(parts[1..], sep)
  }

  /** Joining two or three parts puts one separator between neighbours. */
  lemma JoinSmall(a: string, b: string, c: string, sep: string)
    ensures Join([a, b], sep) == a + sep + b
    ensures Join([a, b, c], sep) == a + sep + b + sep + c
  {
    assert [a, b][1..] == [b];
    assert [a, b, c][1..] == [b, c];
  }

  /** The joined text holds every part and one separator between neighbours. */
  lemma {:induction false} JoinLength(parts: seq<string>, sep: string)
    requires parts != []
    ensures |Join(parts, sep)| == TotalLength(parts) + (|parts| - 1) * |sep|
  {
    if |parts| > 1 {
      JoinLength(parts[1..], sep);
    }
  }

  function TotalLength(parts: seq<string>): nat
  {
    if parts == [] then 0 else |parts[0]| + TotalLength(parts[1..])
  }

  /** `parts.filter(Boolean)` on strings: the non-empty ones, in order. */
  function KeepNonEmpty(parts: seq<string>): (r: seq<string>)
    ensures |r| <= |parts|
    ensures forall k :: 0 <= k < |r| ==> r[k] != ""
    ensures (forall k :: 0 <= k < |parts| ==> parts[k] != "") ==> r == parts
    ensures forall x :: x in r <==> x in parts && x != ""
  {
    if parts == [] then []
    else if parts[0] == "" then KeepNonEmpty(parts[1..])
    else [parts[0]] + KeepNonEmpty(parts[1..])
  }

  /** Filtering keeps every non-empty part as often as it occurs, and no
      empty one. */
  lemma {:induction false} KeepNonEmptyCounts(parts: seq<string>)
    ensures multiset(KeepNonEmpty(parts)) == multiset(parts)["" := 0]
  {
    if parts != [] {
      assert parts == [parts[0]] + parts[1..];
      KeepNonEmptyCounts(parts[1..]);
    }
  }

  /** Filtering keeps the order: filtering a concatenation is the
      concatenation of the filtered halves. */
  lemma {:induction false} KeepNonEmptyAppend(a: seq<string>, b: seq<string>)
    ensures KeepNonEmpty(a + b) == KeepNonEmpty(a) + KeepNonEmpty(b)
  {
    if a != [] {
      assert (a + b)[1..] == a[1..] + b;
      KeepNonEmptyAppend(a[1..], b);
    } else {
      assert a + b == b;
    }
  }

  /** The decimal digit for 0..9. */
  function Digit(d: nat): (c: char)
    requires d < 10
    ensures '0' <= c <= '9'
  {
    "0123456789"[d]
  }

  function DigitValue(c: char): (d: nat)
    requires '0' <= c <= '9'
    ensures d < 10 && Digit(d) == c
  {
    c as int - '0' as int
  }

  predicate AllDigits(s: string)
  {
    forall k :: 0 <= k < |s| ==> '0' <= s[k] <= '9'
  }

  /** Decimal text of a natural number, without leading zeros. */
  function NatToString(n: nat): (r: string)
    ensures r != [] && AllDigits(r)
    ensures |r| > 1 ==> r[0] != '0'
  {
    if n < 10 then [Digit(n)] else NatToString(n / 10) + [Digit(n % 10)]
  }

  /** The text of an integer as a template literal writes it: a minus sign
      for negatives, then the digits. */
  function IntToString(i: int): (r: string)
    ensures r != []
    ensures i < 0 <==> r[0] == '-'
  {
    if i < 0 then "-" + NatToString(-i) else NatToString(i)
  }

  function ParseNat(s: string): nat
    requires AllDigits(s)
  {
    if s == [] then 0 else 10 * ParseNat(s[..|s| - 1]) + DigitValue(s[|s| - 1])
  }

  /** Reads back the text written by `IntToString`. */
  function ParseInt(s: string): int
    requires s != []
    requires s[0] == '-' ==> AllDigits(s[1..])
    requires s[0] != '-' ==> AllDigits(s)
  {
    if s[0] == '-' then -(ParseNat(s[1..]) as int) else ParseNat(s)
  }

  lemma {:induction false} NatRoundTrip(n: nat)
    ensures ParseNat(NatToString(n)) == n
  {
    if n >= 10 {
      NatRoundTrip(n / 10);
      var r := NatToString(n);
      assert r[..|r| - 1] == NatToString(n / 10);
    }
  }

  /** Decimal text is an exact encoding: reading it back gives the integer. */
  lemma IntRoundTrip(i: int)
    ensures var r := IntToString(i); (r[0] != '-' ==> AllDigits(r)) && (r[0] == '-' ==> AllDigits(r[1..]))
    ensures ParseInt(IntToString(i)) == i
  {
    if i < 0 {
      NatRoundTrip(-i);
      assert IntToString(i)[1..] == NatToString(-i);
    } else {
      NatRoundTrip(i);
    }
  }

  /** Hence different integers are written differently. */
  lemma IntToStringInjective(i: int, j: int)
    requires IntToString(i) == IntToString(j)
    ensures i == j
  {
    IntRoundTrip(i);
    IntRoundTrip(j);
  }

  /** `s.split(sep)` for a one-character separator. */
  function Split(s: string, sep: char): (r: seq<string>)
    ensures r != []
    ensures sep !in s ==> r == [s]
  {
    if s == [] then [""]
    else
      var rest := Split(s[1..], sep);
      assert sep !in s ==> [s[0]] + rest[0] == s;
      if s[0] == sep then [""] + rest else [[s[0]] + rest[0]] + rest[1..]
  }

  /** A separator-free field followed by the separator splits off as the first piece. */
  lemma {:induction false} SplitAfterField(a: string, sep: char, b: string)
    requires sep !in a
    ensures Split(a + [sep] + b, sep) == [a] + Split(b, sep)
  {
    if a != [] {
      assert (a + [sep] + b)[1..] == a[1..] + [sep] + b;
      SplitAfterField(a[1..], sep, b);
      assert [a[0]] + a[1..] == a;
    } else {
      assert ([sep] + b)[1..] == b;
    }
  }

  /** Splitting undoes joining when no part holds the separator. */
  lemma {:induction false} SplitJoin(parts: seq<string>, sep: char)
    requires parts != []
    requires forall k :: 0 <= k < |parts| ==> sep !in parts[k]
    ensures Split(Join(parts, [sep]), sep) == parts
  {
    if |parts| > 1 {
      SplitJoin(parts[1..], sep);
      SplitAfterField(parts[0], sep, Join(parts[1..], [sep]));
      assert [parts[0]] + parts[1..] == parts;
    }
  }
}
