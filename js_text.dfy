/**
 * The JavaScript string and array built-ins the server relies on, stated
 * over `seq<char>`: truthiness and `||` on optional strings, `Array.join`,
 * `String.split` on one character, `slice(-n)`, `indexOf`, the first-match
 * `String.replace`, and the decimal rendering of a non-negative integer.
 */
module JsText {
  import opened Wrappers

  /** Truthiness of a value that is either undefined or a string: `""` is falsy. */
  predicate Truthy(v: Option<string>)
  {
    v.Some? && v.value != ""
  }

  /** `a || b` where both sides are undefined-or-string: `a` when truthy, otherwise `b`. */
  function Or(a: Option<string>, b: Option<string>): (r: Option<string>)
    ensures Truthy(a) ==> r == a
    ensures !Truthy(a) ==> r == b
  {
    if Truthy(a) then a else b
  }

  /** `s || fallback` where `s` is a string. */
  function StrOr(s: string, fallback: string): string
  {
    if s != "" then s else fallback
  }

  // ---------------------------------------------------------------- join / split

  /** `parts.join(sep)`: empty for no parts, and it always starts with the first part. */
  function Join(parts: seq<string>, sep: string): (r: string)
    ensures parts == [] ==> r == ""
    ensures |parts| >= 1 ==> |parts[0]| <= |r| && r[..|parts[0]|] == parts[0]
  {
    if |parts| == 0 then ""
    else if |parts| == 1 then parts[0]
    else parts[0] + sep + Join(parts[1..], sep)
  }

  /** `s.split(sep)` for a one-character separator: never empty, and no part holds `sep`. */
  function Split(s: string, sep: char): (parts: seq<string>)
    ensures |parts| >= 1
    ensures forall i :: 0 <= i < |parts| ==> sep !in parts[i]
  {
    if s == [] then [""]
    else
      var rest := Split(s[1..], sep);
      if s[0] == sep then [""] + rest
      else [[s[0]] + rest[0]] + rest[1..]
  }

  lemma JoinCons(a: string, rest: seq<string>, sep: string)
    requires |rest| >= 1
    ensures Join([a] + rest, sep) == a + sep + Join(rest, sep)
  {
    assert ([a] + rest)[1..] == rest;
  }

  /** Joining the parts of a split with the same separator gives back the string. */
  lemma {:induction false} JoinSplit(s: string, sep: char)
    ensures Join(Split(s, sep), [sep]) == s
  {
    if s != [] {
      var rest := Split(s[1..], sep);
      JoinSplit(s[1..], sep);
      if s[0] == sep {
        JoinCons("", rest, [sep]);
        assert s == [sep] + s[1..];
      } else {
        var head := [s[0]] + rest[0];
        if |rest| == 1 {
          assert Split(s, sep) == [head];
          assert s == [s[0]] + s[1..];
        } else {
          assert rest == [rest[0]] + rest[1..];
          JoinCons(head, rest[1..], [sep]);
          JoinCons(rest[0], rest[1..], [sep]);
          assert s == [s[0]] + s[1..];
        }
      }
    }
  }

  lemma {:induction false} SplitWithoutSeparator(p: string, sep: char)
    requires sep !in p
    ensures Split(p, sep) == [p]
  {
    if p != [] {
      SplitWithoutSeparator(p[1..], sep);
      assert p == [p[0]] + p[1..];
    }
  }

  lemma {:induction false} SplitAtSeparator(p: string, sep: char, t: string)
    requires sep !in p
    ensures Split(p + [sep] + t, sep) == [p] + Split(t, sep)
  {
    var s := p + [sep] + t;
    if p == [] {
      assert s[0] == sep && s[1..] == t;
    } else {
      SplitAtSeparator(p[1..], sep, t);
      assert s[0] == p[0] && s[1..] == p[1..] + [sep] + t;
      assert p == [p[0]] + p[1..];
    }
  }

  /** Splitting a join of separator-free parts gives back the parts. */
  lemma {:induction false} SplitJoin(parts: seq<string>, sep: char)
    requires |parts| >= 1
    requires forall i :: 0 <= i < |parts| ==> sep !in parts[i]
    ensures Split(Join(parts, [sep]), sep) == parts
  {
    if |parts| == 1 {
      SplitWithoutSeparator(parts[0], sep);
    } else {
      SplitJoin(parts[1..], sep);
      SplitAtSeparator(parts[0], sep, Join(parts[1..], [sep]));
      assert parts[0] + [sep] + Join(parts[1..], [sep]) == Join(parts, [sep]);
      assert parts == [parts[0]] + parts[1..];
    }
  }

  /** `xs.slice(-n)` for n > 0: the last n elements, or all of them when there are fewer. */
  function LastN<T>(xs: seq<T>, n: nat): (r: seq<T>)
    ensures |r| == if |xs| <= n then |xs| else n
    ensures r == xs[|xs| - |r|..]
  {
    if |xs| <= n then xs else xs[|xs| - n..]
  }

  // ---------------------------------------------------------------- indexOf / replace

  /** `pat` occurs in `s` starting at index `i`. */
  predicate OccursAt(s: string, pat: string, i: nat)
  {
    i + |pat| <= |s| && s[i..i + |pat|] == pat
  }

  /** `s.indexOf(pat)`, with -1 as None: the first index at which `pat` occurs. */
  function IndexOf(s: string, pat: string): (r: Option<nat>)
    ensures r.Some? ==> OccursAt(s, pat, r.value)
    ensures r.Some? ==> forall j: nat :: j < r.value ==> !OccursAt(s, pat, j)
    ensures r.None? ==> forall j: nat :: !OccursAt(s, pat, j)
    decreases |s|
  {
    if |pat| <= |s| && s[..|pat|] == pat then Some(0)
    else if s == [] then None
    else
      var r := IndexOf(s[1..], pat);
      ShiftOccurs(s, pat);
      assert !OccursAt(s, pat, 0);
      match r
      case None => None
      case Some(i) => Some(i + 1)
  }

  lemma ShiftOccurs(s: string, pat: string)
    requires s != []
    ensures forall j: nat :: 0 < j ==> (OccursAt(s, pat, j) <==> OccursAt(s[1..], pat, j - 1))
  {
    forall j: nat | 0 < j
      ensures OccursAt(s, pat, j) <==> OccursAt(s[1..], pat, j - 1)
    {
      if j + |pat| <= |s| {
        var here, there := s[j..j + |pat|], s[1..][j - 1..j - 1 + |pat|];
        assert forall k :: 0 <= k < |pat| ==> here[k] == there[k];
        assert here == there;
      }
    }
  }

  /**
   * `s.replace(pat, rep)` with a string pattern: only the first occurrence
   * of `pat` is replaced, and `s` is returned as it is when there is none.
   */
  function ReplaceFirst(s: string, pat: string, rep: string): (r: string)
    ensures |r| == |s| || |r| == |s| - |pat| + |rep|
    ensures (forall j: nat :: !OccursAt(s, pat, j)) ==> r == s
    ensures forall i: nat :: OccursAt(s, pat, i) && (forall j: nat :: j < i ==> !OccursAt(s, pat, j)) ==>
              r == s[..i] + rep + s[i + |pat|..]
  {
    match IndexOf(s, pat)
    case None => s
    case Some(i) => s[..i] + rep + s[i + |pat|..]
  }

  /** An occurrence with none before it is the one `indexOf` finds. */
  lemma FirstOccurrence(s: string, pat: string, i: nat)
    requires OccursAt(s, pat, i)
    requires forall j: nat :: j < i ==> !OccursAt(s, pat, j)
    ensures IndexOf(s, pat) == Some(i)
  {
  }

  /** Occurrences in `p + s` from `|p|` on are the occurrences in `s`, shifted. */
  lemma OccursShift(p: string, s: string, pat: string)
    ensures forall j: nat :: OccursAt(p + s, pat, |p| + j) <==> OccursAt(s, pat, j)
  {
    var t := p + s;
    forall j: nat
      ensures OccursAt(t, pat, |p| + j) <==> OccursAt(s, pat, j)
    {
      if j + |pat| <= |s| {
        assert t[|p| + j..|p| + j + |pat|] == s[j..j + |pat|];
      }
    }
  }

  /**
   * Replacing in `p + s` when no occurrence of the pattern starts inside
   * `p` leaves `p` alone and replaces in `s`.
   */
  lemma ReplaceAfterPrefix(p: string, s: string, pat: string, rep: string)
    requires forall j: nat :: j < |p| ==> !OccursAt(p + s, pat, j)
    ensures ReplaceFirst(p + s, pat, rep) == p + ReplaceFirst(s, pat, rep)
  {
    var t := p + s;
    OccursShift(p, s, pat);
    match IndexOf(s, pat)
    case None =>
      forall j: nat
        ensures !OccursAt(t, pat, j)
      {
        if j >= |p| {
          assert OccursAt(t, pat, |p| + (j - |p|)) <==> OccursAt(s, pat, j - |p|);
        }
      }
      assert IndexOf(t, pat).None?;
      assert ReplaceFirst(t, pat, rep) == t && ReplaceFirst(s, pat, rep) == s;
    case Some(i) =>
      var k := |p| + i;
      forall j: nat | j < k
        ensures !OccursAt(t, pat, j)
      {
        if j >= |p| {
          assert OccursAt(t, pat, |p| + (j - |p|)) <==> OccursAt(s, pat, j - |p|);
        }
      }
      FirstOccurrence(t, pat, k);
      var before, after := s[..i], s[i + |pat|..];
      assert t[..k] == p + before;
      assert t[k + |pat|..] == after;
      assert ReplaceFirst(s, pat, rep) == before + rep + after;
      assert ReplaceFirst(t, pat, rep) == p + before + rep + after;
      Regroup(p, before, rep, after);
  }

  lemma Regroup3(a: string, b: string, c: string)
    ensures a + b + c == a + (b + c)
  {
  }

  lemma Regroup(a: string, b: string, c: string, d: string)
    ensures a + b + c + d == a + (b + c + d)
  {
  }

  // ---------------------------------------------------------------- decimal numbers

  predicate IsDigit(c: char)
  {
    '0' <= c <= '9'
  }

  predicate AllDigits(s: string)
  {
    forall i :: 0 <= i < |s| ==> IsDigit(s[i])
  }

  function DigitChar(d: nat): char
    requires d < 10
  {
    ('0' as int + d) as char
  }

  function DigitValue(c: char): nat
    requires IsDigit(c)
  {
    c as int - '0' as int
  }

  /** `${n}` for a non-negative integer below 10^21: its decimal digits, no sign, no leading zero. */
  function Decimal(n: nat): (s: string)
    ensures |s| >= 1 && AllDigits(s)
    ensures |s| > 1 ==> s[0] != '0'
    decreases n
  {
    if n < 10 then [DigitChar(n)] else Decimal(n / 10) + [DigitChar(n % 10)]
  }

  /** The value of a string of decimal digits; the inverse of Decimal. */
  function ParseDecimal(s: string): nat
    requires AllDigits(s)
  {
    if s == [] then 0 else ParseDecimal(s[..|s| - 1]) * 10 + DigitValue(s[|s| - 1])
  }

  lemma {:induction false} ParseDecimalOfDecimal(n: nat)
    ensures ParseDecimal(Decimal(n)) == n
  {
    var s := Decimal(n);
    if n < 10 {
      assert s[..|s| - 1] == [];
    } else {
      ParseDecimalOfDecimal(n / 10);
      assert s[..|s| - 1] == Decimal(n / 10);
    }
  }
}
