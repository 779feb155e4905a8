/** Character and string functions with the meaning of the Python and
    JavaScript built-ins the system calls (str.split, str.rsplit, str.join,
    str.strip, int(), str() of an int, sorted() of strings, String.includes,
    toLowerCase). */
module Text {
  import opened Wrappers

  predicate IsDigit(c: char) { '0' <= c <= '9' }

  predicate AllDigits(s: string) { forall i | 0 <= i < |s| :: IsDigit(s[i]) }

  /** Python's str.isspace, restricted to the ASCII range. */
  predicate IsSpace(c: char) {
    c == ' ' || ('\t' <= c <= '\r') || ('\U{1C}' <= c <= '\U{1F}')
  }

  function DigitChar(d: nat): (c: char)
    requires d < 10
    ensures IsDigit(c)
  {
    (d + '0' as int) as char
  }

  function DigitValue(c: char): (d: nat)
    requires IsDigit(c)
    ensures d < 10 && DigitChar(d) == c
  {
    (c as int) - ('0' as int)
  }

  /** The digits of s in their order: `re.sub(r'\D', '', s)` in Python,
      `s.replace(/\D/g, '')` in JavaScript. */
  function DigitsOf(s: string): (r: string)
    ensures AllDigits(r) && |r| <= |s|
    ensures AllDigits(s) ==> r == s
  {
    if s == [] then [] else (if IsDigit(s[0]) then [s[0]] else []) + DigitsOf(s[1..])
  }

  /** Python's str() of a non-negative int: decimal, no leading zero. */
  function NatToString(n: nat): (s: string)
    ensures |s| >= 1 && AllDigits(s)
    ensures s[0] == '0' ==> n == 0 && s == "0"
    decreases n
  {
    if n < 10 then [DigitChar(n)] else NatToString(n / 10) + [DigitChar(n % 10)]
  }

  /** The number a string of decimal digits denotes. */
  function DigitsValue(s: string): nat
    requires AllDigits(s)
  {
    if s == [] then 0 else DigitsValue(s[..|s| - 1]) * 10 + DigitValue(s[|s| - 1])
  }

  lemma {:induction false} NatToStringRoundTrip(n: nat)
    ensures DigitsValue(NatToString(n)) == n
    decreases n
  {
    if n >= 10 {
      var s := NatToString(n);
      assert s[..|s| - 1] == NatToString(n / 10);
      NatToStringRoundTrip(n / 10);
    }
  }

  /** Different numbers print differently, so a printed id names one record. */
  lemma NatToStringInjective(a: nat, b: nat)
    ensures NatToString(a) == NatToString(b) <==> a == b
  {
    NatToStringRoundTrip(a);
    NatToStringRoundTrip(b);
  }

  /** Python's str() of an int. */
  function IntToString(i: int): (s: string)
    ensures |s| >= 1 && (s[0] == '-' <==> i < 0)
    ensures i >= 0 ==> AllDigits(s)
    ensures i < 0 ==> AllDigits(s[1..])
  {
    if i < 0 then "-" + NatToString(-i) else NatToString(i)
  }

  function StripStart(s: string): (r: string)
    ensures |r| <= |s| && r == s[|s| - |r|..]
    ensures forall k | 0 <= k < |s| - |r| :: IsSpace(s[k])
    ensures r == [] || !IsSpace(r[0])
  {
    if |s| > 0 && IsSpace(s[0]) then StripStart(s[1..]) else s
  }

  function StripEnd(s: string): (r: string)
    ensures |r| <= |s| && r == s[..|r|]
    ensures forall k | |r| <= k < |s| :: IsSpace(s[k])
    ensures r == [] || !IsSpace(r[|r| - 1])
  {
    if |s| > 0 && IsSpace(s[|s| - 1]) then StripEnd(s[..|s| - 1]) else s
  }

  /** Python's str.strip() with no argument: drops leading and trailing
      whitespace and nothing else. */
  function Strip(s: string): (r: string)
    ensures |r| <= |s|
    ensures r == [] || (!IsSpace(r[0]) && !IsSpace(r[|r| - 1]))
  {
    StripEnd(StripStart(s))
  }

  /** Python's int() of a string: optional surrounding whitespace, an
      optional sign, then one or more ASCII digits. */
  function ParseInt(s: string): Option<int>
  {
    var t := Strip(s);
    if |t| >= 2 && (t[0] == '-' || t[0] == '+') && AllDigits(t[1..]) then
      var v: int := DigitsValue(t[1..]);
      Some(if t[0] == '-' then -v else v)
    else if |t| >= 1 && AllDigits(t) then
      Some(DigitsValue(t))
    else
      None
  }

  /** int(str(i)) == i. */
  lemma IntRoundTrip(i: int)
    ensures ParseInt(IntToString(i)) == Some(i)
  {
    var s := IntToString(i);
    if i < 0 {
      assert Strip(s) == s && |s| >= 2 && s[0] == '-' && AllDigits(s[1..]) && DigitsValue(s[1..]) == -i by {
        var d := NatToString(-i);
        assert s[1..] == d;
        assert !IsSpace(s[|s| - 1]) by { assert s[|s| - 1] == d[|d| - 1]; }
        StripKeeps(s);
        NatToStringRoundTrip(-i);
      }
    } else {
      assert Strip(s) == s && s[0] != '-' && s[0] != '+' && AllDigits(s) && DigitsValue(s) == i by {
        StripKeeps(s);
        NatToStringRoundTrip(i);
      }
    }
  }

  /** strip() leaves a string that starts and ends with a non-space alone. */
  lemma StripKeeps(s: string)
    requires |s| >= 1 && !IsSpace(s[0]) && !IsSpace(s[|s| - 1])
    ensures Strip(s) == s
  {
    assert StripStart(s) == s;
  }

  predicate OccursAt(s: string, sep: string, i: nat) {
    i + |sep| <= |s| && s[i..i + |sep|] == sep
  }

  predicate Contains(s: string, t: string) {
    exists i | 0 <= i <= |s| :: OccursAt(s, t, i)
  }

  /** Index of the first occurrence of sep in s (Python's str.find). */
  function Find(s: string, sep: string): (r: Option<nat>)
    requires |sep| > 0
    ensures r.Some? ==> OccursAt(s, sep, r.value)
    ensures r.Some? ==> forall j | 0 <= j < r.value :: !OccursAt(s, sep, j)
    ensures r.None? ==> forall j | 0 <= j <= |s| :: !OccursAt(s, sep, j)
    decreases |s|
  {
    if |s| < |sep| then None
    else if s[..|sep|] == sep then Some(0)
    else
      DropFirstOccurrences(s, sep);
      match Find(s[1..], sep)
      case Some(j) => Some(j + 1)
      case None => None
  }

  /** sep occurs in s past the start exactly where it occurs in s without
      its first character, one place earlier. */
  lemma DropFirstOccurrences(s: string, sep: string)
    requires |s| >= 1
    ensures forall k | 1 <= k <= |s| :: OccursAt(s, sep, k) <==> OccursAt(s[1..], sep, k - 1)
  {
    forall k | 1 <= k <= |s| ensures OccursAt(s, sep, k) <==> OccursAt(s[1..], sep, k - 1) {
      if k + |sep| <= |s| {
        var a, b := s[k..k + |sep|], s[1..][k - 1..k - 1 + |sep|];
        assert forall i | 0 <= i < |sep| :: a[i] == b[i];
        assert a == b;
      }
    }
  }

  /** Index of the last occurrence of sep in s (Python's str.rfind). */
  function RFind(s: string, sep: string): (r: Option<nat>)
    requires |sep| > 0
    ensures r.Some? ==> OccursAt(s, sep, r.value)
    ensures r.Some? ==> forall j | r.value < j <= |s| :: !OccursAt(s, sep, j)
    ensures r.None? ==> forall j | 0 <= j <= |s| :: !OccursAt(s, sep, j)
    decreases |s|
  {
    if |s| < |sep| then None
    else if s[|s| - |sep|..] == sep then Some(|s| - |sep|)
    else
      DropLastOccurrences(s, sep);
      RFind(s[..|s| - 1], sep)
  }

  /** When s does not end with sep, sep occurs in s exactly where it occurs
      in s without its last character. */
  lemma DropLastOccurrences(s: string, sep: string)
    requires |s| >= |sep| > 0 && s[|s| - |sep|..] != sep
    ensures forall k | 0 <= k <= |s| :: OccursAt(s, sep, k) <==> k < |s| && OccursAt(s[..|s| - 1], sep, k)
  {
    var t := s[..|s| - 1];
    forall k | 0 <= k <= |s| ensures OccursAt(s, sep, k) <==> k < |s| && OccursAt(t, sep, k) {
      if k + |sep| <= |t| {
        assert s[k..k + |sep|] == t[k..k + |sep|];
      }
    }
  }

  /** Python's str.split(sep) for a non-empty separator. */
  function Split(s: string, sep: string): (parts: seq<string>)
    requires |sep| > 0
    ensures |parts| >= 1
    decreases |s|
  {
    match Find(s, sep)
    case None => [s]
    case Some(i) => [s[..i]] + Split(s[i + |sep|..], sep)
  }

  /** Python's `sep.join(parts)`, JavaScript's `parts.join(sep)`. */
  function Join(parts: seq<string>, sep: string): string
  {
    if parts == [] then ""
    else if |parts| == 1 then parts[0]
    else parts[0] + sep + Join(parts[1..], sep)
  }

  /** Python's `s.rsplit(sep, 1)` when it yields two pieces; None when
      sep does not occur (the one-piece list the caller cannot unpack). */
  function RSplitOnce(s: string, sep: string): (r: Option<(string, string)>)
    requires |sep| > 0
    ensures r.Some? ==> s == r.value.0 + sep + r.value.1
  {
    match RFind(s, sep)
    case None => None
    case Some(i) =>
      assert s == s[..i] + s[i..i + |sep|] + s[i + |sep|..];
      Some((s[..i], s[i + |sep|..]))
  }

  /** In p + sep the first occurrence of sep is the appended one. */
  predicate SepFree(p: string, sep: string) {
    forall j | 0 <= j < |p| :: !OccursAt(p + sep, sep, j)
  }

  lemma SepFreeFindNone(p: string, sep: string)
    requires |sep| > 0 && SepFree(p, sep)
    ensures Find(p, sep) == None
  {
    forall j | 0 <= j <= |p| && OccursAt(p, sep, j)
      ensures false
    {
      assert (p + sep)[j..j + |sep|] == p[j..j + |sep|];
      assert OccursAt(p + sep, sep, j);
    }
  }

  lemma SepFreeFindFirst(p: string, sep: string, rest: string)
    requires |sep| > 0 && SepFree(p, sep)
    ensures Find(p + sep + rest, sep) == Some(|p|)
  {
    var s := p + sep + rest;
    assert s[|p|..|p| + |sep|] == sep;
    assert OccursAt(s, sep, |p|);
    forall j | 0 <= j < |p| && OccursAt(s, sep, j)
      ensures false
    {
      assert s[j..j + |sep|] == (p + sep)[j..j + |sep|];
      assert OccursAt(p + sep, sep, j);
    }
  }

  /** Splitting a joined list gives the list back when no part contains
      the separator (nor ends in a prefix that completes it). */
  lemma {:induction false} SplitJoin(parts: seq<string>, sep: string)
    requires |sep| > 0 && |parts| >= 1
    requires forall k | 0 <= k < |parts| :: SepFree(parts[k], sep)
    ensures Split(Join(parts, sep), sep) == parts
    decreases |parts|
  {
    if |parts| == 1 {
      SepFreeFindNone(parts[0], sep);
    } else {
      var p, rest := parts[0], Join(parts[1..], sep);
      var s := p + sep + rest;
      SepFreeFindFirst(p, sep, rest);
      assert s[..|p|] == p;
      assert s[|p| + |sep|..] == rest;
      SplitJoin(parts[1..], sep);
    }
  }

  /** A single-character separator is SepFree exactly when it is absent. */
  lemma SepFreeSingle(p: string, c: char)
    requires forall k | 0 <= k < |p| :: p[k] != c
    ensures SepFree(p, [c])
  {
    forall j | 0 <= j < |p| ensures !OccursAt(p + [c], [c], j) {
      assert (p + [c])[j] == p[j];
    }
  }

  /** Lower-casing as JavaScript's toLowerCase and Python's str.lower do it
      for the ASCII and Cyrillic letters. */
  function LowerChar(c: char): (r: char)
    ensures ('A' <= c <= 'Z') ==> 'a' <= r <= 'z'
    ensures !('A' <= c <= 'Z') ==> !('a' <= r <= 'z') || r == c
  {
    if 'A' <= c <= 'Z' then (c as int + 32) as char
    else if '\U{0410}' <= c <= '\U{042F}' then (c as int + 32) as char
    else if '\U{0400}' <= c <= '\U{040F}' then (c as int + 80) as char
    else if c == '\U{0490}' then '\U{0491}'
    else c
  }

  function Lower(s: string): (r: string)
    ensures |r| == |s| && forall i | 0 <= i < |s| :: r[i] == LowerChar(s[i])
  {
    if s == [] then [] else [LowerChar(s[0])] + Lower(s[1..])
  }

  /** Code-point lexicographic order: Python's `<=` on str, and the order
      JavaScript's default sort gives to strings of digits. */
  predicate StrLe(a: string, b: string)
  {
    if a == [] then true
    else if b == [] then false
    else a[0] < b[0] || (a[0] == b[0] && StrLe(a[1..], b[1..]))
  }

  lemma {:induction false} StrLeTotal(a: string, b: string)
    ensures StrLe(a, b) || StrLe(b, a)
  {
    if a != [] && b != [] && a[0] == b[0] { StrLeTotal(a[1..], b[1..]); }
  }

  lemma {:induction false} StrLeReflexive(a: string)
    ensures StrLe(a, a)
  {
    if a != [] { StrLeReflexive(a[1..]); }
  }

  lemma {:induction false} StrLeAntisymmetric(a: string, b: string)
    requires StrLe(a, b) && StrLe(b, a)
    ensures a == b
  {
    if a != [] && b != [] {
      StrLeAntisymmetric(a[1..], b[1..]);
      assert a == [a[0]] + a[1..] && b == [b[0]] + b[1..];
    }
  }

  lemma {:induction false} StrLeTransitive(a: string, b: string, c: string)
    requires StrLe(a, b) && StrLe(b, c)
    ensures StrLe(a, c)
  {
    if a != [] && b != [] && c != [] && a[0] == b[0] && b[0] == c[0] {
      StrLeTransitive(a[1..], b[1..], c[1..]);
    }
  }

  ghost predicate SortedStrings(s: seq<string>) {
    forall i, j | 0 <= i < j < |s| :: StrLe(s[i], s[j])
  }

  function InsertString(x: string, s: seq<string>): (r: seq<string>)
    requires SortedStrings(s)
    ensures multiset(r) == multiset(s) + multiset{x}
    ensures SortedStrings(r)
  {
    if s == [] then [x]
    else if StrLe(x, s[0]) then
      assert forall j | 0 <= j < |s| :: StrLe(x, s[j]) by {
        forall j | 0 <= j < |s| ensures StrLe(x, s[j]) {
          if j > 0 { StrLeTransitive(x, s[0], s[j]); }
        }
      }
      [x] + s
    else
      StrLeTotal(x, s[0]);
      var t := InsertString(x, s[1..]);
      assert s == [s[0]] + s[1..];
      assert forall k | 0 <= k < |t| :: StrLe(s[0], t[k]) by {
        forall k | 0 <= k < |t| ensures StrLe(s[0], t[k]) {
          assert t[k] in multiset(t);
          assert t[k] == x || t[k] in multiset(s[1..]);
          if t[k] != x {
            var m :| 0 <= m < |s[1..]| && s[1..][m] == t[k];
            assert s[m + 1] == t[k];
          }
        }
      }
      [s[0]] + t
  }

  /** Python's sorted() of a list of strings (insertion sort). */
  function SortStrings(s: seq<string>): (r: seq<string>)
    ensures multiset(r) == multiset(s) && SortedStrings(r)
  {
    if s == [] then [] else
      assert s == [s[0]] + s[1..];
      InsertString(s[0], SortStrings(s[1..]))
  }

  /** A sorted arrangement of a multiset of strings is unique. */
  lemma {:induction false} SortedUnique(a: seq<string>, b: seq<string>)
    requires SortedStrings(a) && SortedStrings(b)
    requires multiset(a) == multiset(b)
    ensures a == b
    decreases |a|
  {
    if a == [] {
      assert |b| == |multiset(b)| == 0;
    } else {
      SortedHeads(a, b);
      assert multiset(a[1..]) == multiset(b[1..]) by {
        assert a == [a[0]] + a[1..] && b == [b[0]] + b[1..];
        assert multiset(a[1..]) == multiset(a) - multiset{a[0]};
        assert multiset(b[1..]) == multiset(b) - multiset{b[0]};
      }
      assert SortedStrings(a[1..]) && SortedStrings(b[1..]) by {
        SortedTail(a);
        SortedTail(b);
      }
      SortedUnique(a[1..], b[1..]);
      assert a == [a[0]] + a[1..] && b == [b[0]] + b[1..];
    }
  }

  /** Two sorted arrangements of one multiset start alike. */
  lemma SortedHeads(a: seq<string>, b: seq<string>)
    requires SortedStrings(a) && SortedStrings(b)
    requires multiset(a) == multiset(b) && a != []
    ensures b != [] && a[0] == b[0]
  {
    assert a[0] in multiset(b);
    assert b[0] in multiset(a);
    var k :| 0 <= k < |b| && b[k] == a[0];
    var m :| 0 <= m < |a| && a[m] == b[0];
    assert StrLe(a[0], b[0]) by { if m > 0 { assert StrLe(a[0], a[m]); } else { StrLeReflexive(a[0]); } }
    assert StrLe(b[0], a[0]) by { if k > 0 { assert StrLe(b[0], b[k]); } else { StrLeReflexive(b[0]); } }
    StrLeAntisymmetric(a[0], b[0]);
  }

  lemma SortedTail(a: seq<string>)
    requires SortedStrings(a) && a != []
    ensures SortedStrings(a[1..])
  {
    forall i, j | 0 <= i < j < |a[1..]| ensures StrLe(a[1..][i], a[1..][j]) {
      assert a[1..][i] == a[i + 1] && a[1..][j] == a[j + 1];
    }
  }

  /** sorted() depends only on the multiset of its input. */
  lemma SortStringsCanonical(a: seq<string>, b: seq<string>)
    requires multiset(a) == multiset(b)
    ensures SortStrings(a) == SortStrings(b)
  {
    SortedUnique(SortStrings(a), SortStrings(b));
  }
}
