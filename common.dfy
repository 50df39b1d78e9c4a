/** Shared vocabulary of the model: optional values, bounded deques, feature
    values, decimal rendering of integers, sequence filters and folds, a stable
    sort, and the floating-point library routines that stay abstract. */
module Common {

  datatype Option<T> = None | Some(value: T)

  /** A value as it appears in a feature dictionary or a JSON message. */
  datatype Value = Num(r: real) | Flag(b: bool) | Null | Text(s: string)

  /** Library routines whose numerics are not modelled (numpy statistics,
      square root, arc tangent, exponential, decimal logarithm, power).
      Every property proved in the model holds for ANY choice of these. */
  datatype Numerics = Numerics(
    sqrt: real -> real,
    std: seq<real> -> real,
    median: seq<real> -> real,
    percentile: (seq<real>, real) -> real,
    atan2: (real, real) -> real,
    exp: real -> real,
    log10: real -> real,
    pow: (real, real) -> real)

  // ---------------------------------------------------------------------
  // Bounded buffers

  /** `deque(maxlen=cap).append(x)`: append at the right end and, when the
      deque is full, drop from the left end. */
  function DequeAppend<T>(s: seq<T>, x: T, cap: nat): (r: seq<T>)
    ensures |r| <= cap
    ensures |r| == if |s| < cap then |s| + 1 else cap
    ensures forall i :: 0 <= i < |r| ==> r[i] == (s + [x])[|s| + 1 - |r| + i]
  {
    var t := s + [x];
    if |t| <= cap then t else t[|t| - cap..]
  }

  /** Pop from the front of a queue while the front element is older than
      the cutoff. */
  function DropOlder<T>(s: seq<T>, time: T -> real, cutoff: real): seq<T>
  {
    if s != [] && time(s[0]) < cutoff then DropOlder(s[1..], time, cutoff) else s
  }

  /** Cleanup in both Rust extractors keeps events back to twice the
      window. */
  function CleanupCutoff(now: real, windowSeconds: nat): real
  {
    now - windowSeconds as real * 2.0
  }

  /** Dropping old elements from the front never drops one that a filter
      keeps, when everything the filter keeps is at or after the cutoff. */
  lemma {:induction false} DropOlderKeeps<T>(s: seq<T>, time: T -> real, cutoff: real, keep: T -> bool)
    requires forall x :: keep(x) ==> time(x) >= cutoff
    ensures Filter(DropOlder(s, time, cutoff), keep) == Filter(s, keep)
  {
    if s != [] && time(s[0]) < cutoff {
      DropOlderKeeps(s[1..], time, cutoff, keep);
    }
  }

  /** What remains is the suffix after the longest prefix older than the
      cutoff. */
  lemma {:induction false} DropOlderSuffix<T>(s: seq<T>, time: T -> real, cutoff: real) returns (k: nat)
    ensures k <= |s| && DropOlder(s, time, cutoff) == s[k..]
    ensures forall i :: 0 <= i < k ==> time(s[i]) < cutoff
    ensures k < |s| ==> time(s[k]) >= cutoff
  {
    if s != [] && time(s[0]) < cutoff {
      var j := DropOlderSuffix(s[1..], time, cutoff);
      k := j + 1;
      assert s[1..][j..] == s[k..];
      forall i | 0 <= i < k
        ensures time(s[i]) < cutoff
      {
        if i > 0 {
          assert s[i] == s[1..][i - 1];
        }
      }
    } else {
      k := 0;
    }
  }

  lemma AppendTwice<T>(s: seq<T>, a: seq<T>, b: seq<T>)
    ensures s + a + b == s + (a + b)
  {
  }

  lemma DequeAppendLast<T>(s: seq<T>, x: T, cap: nat)
    requires cap > 0
    ensures |DequeAppend(s, x, cap)| > 0 && DequeAppend(s, x, cap)[|DequeAppend(s, x, cap)| - 1] == x
  {
  }

  // ---------------------------------------------------------------------
  // Filters, counts and sums over sequences

  function Filter<T>(s: seq<T>, p: T -> bool): (r: seq<T>)
    ensures |r| <= |s|
    ensures forall i :: 0 <= i < |r| ==> p(r[i])
    ensures forall x :: x in r ==> x in s
  {
    if s == [] then [] else if p(s[0]) then [s[0]] + Filter(s[1..], p) else Filter(s[1..], p)
  }

  function Count<T>(s: seq<T>, p: T -> bool): nat
  {
    |Filter(s, p)|
  }

  lemma {:induction false} FilterAppend<T>(a: seq<T>, b: seq<T>, p: T -> bool)
    ensures Filter(a + b, p) == Filter(a, p) + Filter(b, p)
  {
    if a == [] {
      assert a + b == b;
    } else {
      assert (a + b)[1..] == a[1..] + b;
      FilterAppend(a[1..], b, p);
    }
  }

  /** Elements that satisfy `p` and those that do not partition the sequence. */
  lemma {:induction false} FilterPartition<T>(s: seq<T>, p: T -> bool, q: T -> bool)
    requires forall x :: q(x) == !p(x)
    ensures |Filter(s, p)| + |Filter(s, q)| == |s|
  {
    if s != [] {
      FilterPartition(s[1..], p, q);
    }
  }

  lemma {:induction false} FilterAll<T>(s: seq<T>, p: T -> bool)
    requires forall i :: 0 <= i < |s| ==> p(s[i])
    ensures Filter(s, p) == s
  {
    if s != [] {
      FilterAll(s[1..], p);
    }
  }

  /** A filter that keeps every element keeps only elements satisfying it. */
  lemma {:induction false} FilterFull<T>(s: seq<T>, p: T -> bool)
    requires |Filter(s, p)| == |s|
    ensures forall i :: 0 <= i < |s| ==> p(s[i])
  {
    if s != [] {
      assert p(s[0]);
      FilterFull(s[1..], p);
      assert forall i :: 1 <= i < |s| ==> s[i] == s[1..][i - 1];
    }
  }

  /** Filtering by a stronger predicate keeps fewer elements. */
  lemma {:induction false} FilterMonotone<T>(s: seq<T>, p: T -> bool, q: T -> bool)
    requires forall x :: p(x) ==> q(x)
    ensures |Filter(s, p)| <= |Filter(s, q)|
  {
    if s != [] {
      FilterMonotone(s[1..], p, q);
    }
  }

  lemma {:induction false} FilterDisjoint<T>(s: seq<T>, p: T -> bool, q: T -> bool, pq: T -> bool)
    requires forall x :: pq(x) == (p(x) || q(x))
    requires forall x :: !(p(x) && q(x))
    ensures |Filter(s, p)| + |Filter(s, q)| == |Filter(s, pq)|
  {
    if s != [] {
      FilterDisjoint(s[1..], p, q, pq);
    }
  }

  function Map<T, U>(s: seq<T>, f: T -> U): (r: seq<U>)
    ensures |r| == |s|
    ensures forall i :: 0 <= i < |s| ==> r[i] == f(s[i])
  {
    if s == [] then [] else [f(s[0])] + Map(s[1..], f)
  }

  /** Left-to-right sum. */
  function Sum(s: seq<real>): real
  {
    if s == [] then 0.0 else Sum(s[..|s| - 1]) + s[|s| - 1]
  }

  /** Arithmetic mean; 0 for an empty sequence (both sources guard it so). */
  function Mean(s: seq<real>): real
  {
    if s == [] then 0.0 else Sum(s) / (|s| as real)
  }

  lemma {:induction false} SumBounds(s: seq<real>, lo: real, hi: real)
    requires forall i :: 0 <= i < |s| ==> lo <= s[i] <= hi
    ensures (|s| as real) * lo <= Sum(s) <= (|s| as real) * hi
  {
    if s != [] {
      SumBounds(s[..|s| - 1], lo, hi);
    }
  }

  lemma MeanBounds(s: seq<real>, lo: real, hi: real)
    requires s != []
    requires forall i :: 0 <= i < |s| ==> lo <= s[i] <= hi
    ensures lo <= Mean(s) <= hi
  {
    SumBounds(s, lo, hi);
    var n := |s| as real;
    assert n * lo <= Sum(s) <= n * hi;
    assert Sum(s) / n >= lo by {
      assert Sum(s) >= n * lo;
    }
    assert Sum(s) / n <= hi by {
      assert Sum(s) <= n * hi;
    }
  }

  function AbsR(x: real): real { if x < 0.0 then -x else x }

  function MaxR(a: real, b: real): real { if a < b then b else a }

  function MinR(a: real, b: real): real { if a < b then a else b }

  /** Python `int(x)` and Rust `x as i64` on a finite float: truncation
      toward zero. */
  function Trunc(x: real): (r: int)
    ensures 0.0 <= x ==> r as real <= x < r as real + 1.0
    ensures x < 0.0 ==> r as real - 1.0 < x <= r as real
  {
    if x >= 0.0 then x.Floor else -((-x).Floor)
  }

  /** Consecutive differences (`numpy.diff`). */
  function Diff(s: seq<real>): (r: seq<real>)
    ensures |r| == if |s| == 0 then 0 else |s| - 1
    ensures forall i :: 0 <= i < |r| ==> r[i] == s[i + 1] - s[i]
  {
    if |s| < 2 then [] else [s[1] - s[0]] + Diff(s[1..])
  }

  // ---------------------------------------------------------------------
  // Stable sort by a real-valued key (Python `sorted`, Rust `sort_by`)

  ghost predicate SortedBy<T>(s: seq<T>, key: T -> real)
  {
    forall i, j :: 0 <= i < j < |s| ==> key(s[i]) <= key(s[j])
  }

  function InsertBy<T>(x: T, s: seq<T>, key: T -> real): (r: seq<T>)
    ensures multiset(r) == multiset(s) + multiset{x}
    ensures |r| == |s| + 1
  {
    if s == [] || key(x) < key(s[0]) then [x] + s
    else
      assert s == [s[0]] + s[1..];
      [s[0]] + InsertBy(x, s[1..], key)
  }

  lemma {:induction false} InsertBySorted<T>(x: T, s: seq<T>, key: T -> real)
    requires SortedBy(s, key)
    ensures SortedBy(InsertBy(x, s, key), key)
  {
    if s == [] || key(x) < key(s[0]) {
    } else {
      InsertBySorted(x, s[1..], key);
      var r := InsertBy(x, s, key);
      var t := InsertBy(x, s[1..], key);
      assert r == [s[0]] + t;
      InsertByLowerBound(x, s[1..], key, key(s[0]));
    }
  }

  /** Inserting an element no smaller than a bound keeps every key above it. */
  lemma {:induction false} InsertByLowerBound<T>(x: T, s: seq<T>, key: T -> real, b: real)
    requires b <= key(x) && forall i :: 0 <= i < |s| ==> b <= key(s[i])
    ensures forall i :: 0 <= i < |InsertBy(x, s, key)| ==> b <= key(InsertBy(x, s, key)[i])
  {
    if s != [] && key(s[0]) <= key(x) {
      InsertByLowerBound(x, s[1..], key, b);
      assert InsertBy(x, s, key) == [s[0]] + InsertBy(x, s[1..], key);
    }
  }

  /** Stable insertion sort: an element is inserted behind every element
      whose key equals its own. */
  function SortBy<T>(s: seq<T>, key: T -> real): (r: seq<T>)
    ensures multiset(r) == multiset(s)
    ensures |r| == |s|
  {
    if s == [] then []
    else
      assert s == s[..|s| - 1] + [s[|s| - 1]];
      InsertBy(s[|s| - 1], SortBy(s[..|s| - 1], key), key)
  }

  lemma {:induction false} SortBySorted<T>(s: seq<T>, key: T -> real)
    ensures SortedBy(SortBy(s, key), key)
  {
    if s != [] {
      SortBySorted(s[..|s| - 1], key);
      InsertBySorted(s[|s| - 1], SortBy(s[..|s| - 1], key), key);
    }
  }

  function Id(x: real): real { x }

  function SortReals(s: seq<real>): (r: seq<real>)
    ensures multiset(r) == multiset(s) && |r| == |s|
  {
    SortBy(s, Id)
  }

  lemma SortRealsSorted(s: seq<real>)
    ensures forall i, j :: 0 <= i < j < |SortReals(s)| ==> SortReals(s)[i] <= SortReals(s)[j]
  {
    SortBySorted(s, Id);
  }

  /** `part / max(whole, 1)`. */
  function Fraction(part: int, whole: int): real
  {
    part as real / MaxR(whole as real, 1.0)
  }

  /** Of `whole` items, `part` and the rest are complementary fractions. */
  lemma FractionsComplement(part: nat, whole: nat)
    requires part <= whole
    ensures whole > 0 ==> 0.0 <= Fraction(part, whole) <= 1.0 && Fraction(part, whole) + Fraction(whole - part, whole) == 1.0
    ensures whole == 0 ==> Fraction(part, whole) == 0.0 && Fraction(whole - part, whole) == 0.0
  {
    if whole > 0 {
      var w := whole as real;
      FractionUnit(part, whole);
      assert Fraction(part, whole) == part as real / w && Fraction(whole - part, whole) == (whole - part) as real / w;
      SplitQuotient(part as real, (whole - part) as real, w);
      WholeQuotient(w);
    }
  }

  lemma SplitQuotient(a: real, b: real, d: real)
    requires d > 0.0
    ensures a / d + b / d == (a + b) / d
  {
  }

  lemma WholeQuotient(d: real)
    requires d > 0.0
    ensures d / d == 1.0
  {
  }

  lemma FractionUnit(part: nat, whole: nat)
    requires part <= whole
    ensures 0.0 <= Fraction(part, whole) <= 1.0
  {
    if whole > 0 {
      assert MaxR(whole as real, 1.0) == whole as real;
      assert part as real / whole as real <= whole as real / whole as real;
    }
  }

  // ---------------------------------------------------------------------
  // Splitting on a separator (`s.split(c)`) and joining (`c.join(parts)`)

  /** The position of the first `c` in `s`, or the length when there is none. */
  function FirstOf(s: string, c: char): (r: nat)
    ensures r <= |s|
    ensures forall j :: 0 <= j < r ==> s[j] != c
    ensures r < |s| ==> s[r] == c
  {
    if s == [] || s[0] == c then 0 else 1 + FirstOf(s[1..], c)
  }

  /** `s.split(c)`: the pieces between the separators, empty ones included. */
  function SplitOn(s: string, c: char): (r: seq<string>)
    ensures |r| >= 1
    ensures forall i :: 0 <= i < |r| ==> c !in r[i]
    decreases |s|
  {
    var d := FirstOf(s, c);
    if d == |s| then [s] else [s[..d]] + SplitOn(s[d + 1..], c)
  }

  /** `c.join(parts)` for a non-empty list. */
  function JoinWith(parts: seq<string>, c: char): string
    requires |parts| >= 1
  {
    if |parts| == 1 then parts[0] else parts[0] + [c] + JoinWith(parts[1..], c)
  }

  /** Joining the pieces gives back the string. */
  lemma {:induction false} JoinSplitOn(s: string, c: char)
    ensures JoinWith(SplitOn(s, c), c) == s
    decreases |s|
  {
    var d := FirstOf(s, c);
    if d < |s| {
      var rest := SplitOn(s[d + 1..], c);
      JoinSplitOn(s[d + 1..], c);
      assert SplitOn(s, c) == [s[..d]] + rest;
      JoinCons(s[..d], rest, c);
      Reassemble(s, d);
    } else {
      assert SplitOn(s, c) == [s];
    }
  }

  /** A string is its part before position `d`, the element there, and the
      part after. */
  lemma Reassemble<T>(s: seq<T>, d: nat)
    requires d < |s|
    ensures s == s[..d] + [s[d]] + s[d + 1..]
  {
  }

  lemma JoinCons(a: string, rest: seq<string>, c: char)
    requires |rest| >= 1
    ensures JoinWith([a] + rest, c) == a + [c] + JoinWith(rest, c)
  {
    assert ([a] + rest)[1..] == rest;
  }

  lemma {:induction false} FirstOfAfter(p: string, c: char, t: string)
    requires c !in p
    ensures FirstOf(p + [c] + t, c) == |p|
  {
    if p != [] {
      assert (p + [c] + t)[1..] == p[1..] + [c] + t;
      FirstOfAfter(p[1..], c, t);
    }
  }

  /** A string without the separator is its own single piece. */
  lemma {:induction false} FirstOfNone(s: string, c: char)
    requires c !in s
    ensures FirstOf(s, c) == |s| && SplitOn(s, c) == [s]
  {
    if s != [] {
      assert s[0] in s;
      assert forall x :: x in s[1..] ==> x in s;
      FirstOfNone(s[1..], c);
    }
  }

  /** Splitting a join of separator-free pieces gives the pieces back. */
  lemma {:induction false} SplitJoinOn(parts: seq<string>, c: char)
    requires |parts| >= 1 && forall i :: 0 <= i < |parts| ==> c !in parts[i]
    ensures SplitOn(JoinWith(parts, c), c) == parts
  {
    if |parts| == 1 {
      FirstOfNone(parts[0], c);
    } else {
      var rest := JoinWith(parts[1..], c);
      assert JoinWith(parts, c) == parts[0] + [c] + rest;
      SplitAfterPiece(parts[0], c, rest);
      SplitJoinOn(parts[1..], c);
      assert parts == [parts[0]] + parts[1..];
    }
  }

  /** A piece without the separator, then the separator, splits off first. */
  lemma SplitAfterPiece(p: string, c: char, t: string)
    requires c !in p
    ensures SplitOn(p + [c] + t, c) == [p] + SplitOn(t, c)
  {
    var s := p + [c] + t;
    FirstOfAfter(p, c, t);
    assert s[..|p|] == p;
    assert s[|p| + 1..] == t;
  }

  /** Appending a piece at the end of a join. */
  lemma {:induction false} JoinWithSnoc(parts: seq<string>, c: char, x: string)
    requires |parts| >= 1
    ensures JoinWith(parts + [x], c) == JoinWith(parts, c) + [c] + x
  {
    if |parts| > 1 {
      assert (parts + [x])[1..] == parts[1..] + [x];
      JoinWithSnoc(parts[1..], c, x);
    }
  }

  /** Every character of every piece appears in the join. */
  lemma {:induction false} JoinWithContains(parts: seq<string>, c: char, i: nat, x: char)
    requires i < |parts| && x in parts[i]
    ensures x in JoinWith(parts, c)
  {
    if i > 0 {
      JoinWithContains(parts[1..], c, i - 1, x);
    }
  }

  /** A character missing from the join is missing from every piece. */
  lemma {:induction false} JoinWithPieceAvoids(parts: seq<string>, c: char, i: nat, x: char)
    requires i < |parts| && x !in JoinWith(parts, c)
    ensures x !in parts[i]
  {
    if i > 0 {
      JoinWithPieceAvoids(parts[1..], c, i - 1, x);
    }
  }

  /** A character in no piece and other than the separator is not in the join. */
  lemma {:induction false} JoinWithAvoids(parts: seq<string>, c: char, x: char)
    requires |parts| >= 1 && x != c
    requires forall i :: 0 <= i < |parts| ==> x !in parts[i]
    ensures x !in JoinWith(parts, c)
  {
    if |parts| > 1 {
      JoinWithAvoids(parts[1..], c, x);
    }
  }

  /** How many times `c` occurs in `s`. */
  function Occurrences(s: string, c: char): nat
  {
    if s == [] then 0 else (if s[0] == c then 1 else 0) + Occurrences(s[1..], c)
  }

  lemma {:induction false} OccurrencesAppend(a: string, b: string, c: char)
    ensures Occurrences(a + b, c) == Occurrences(a, c) + Occurrences(b, c)
  {
    if a != [] {
      assert (a + b)[1..] == a[1..] + b;
      OccurrencesAppend(a[1..], b, c);
    } else {
      assert a + b == b;
    }
  }

  /** `s.split(c)` has one piece more than `s` has separators. */
  lemma {:induction false} SplitCount(s: string, c: char)
    ensures |SplitOn(s, c)| == Occurrences(s, c) + 1
    decreases |s|
  {
    var d := FirstOf(s, c);
    NoOccurrences(s[..d], c);
    if d < |s| {
      SplitCount(s[d + 1..], c);
      assert s == s[..d] + ([c] + s[d + 1..]);
      OccurrencesAppend(s[..d], [c] + s[d + 1..], c);
      assert ([c] + s[d + 1..])[1..] == s[d + 1..];
    } else {
      assert s[..d] == s;
    }
  }

  lemma {:induction false} NoOccurrences(s: string, c: char)
    requires c !in s
    ensures Occurrences(s, c) == 0
  {
    if s != [] {
      assert s[0] in s;
      assert forall x :: x in s[1..] ==> x in s;
      NoOccurrences(s[1..], c);
    }
  }

  // ---------------------------------------------------------------------
  // Decimal rendering of integers (`str(n)`, `format!("{}", n)`)

  function DigitChar(d: nat): char
    requires d < 10
  {
    ('0' as int + d) as char
  }

  function NatToString(n: nat): (s: string)
    ensures |s| >= 1
    ensures forall i :: 0 <= i < |s| ==> '0' <= s[i] <= '9'
    ensures n < 10 <==> |s| == 1
  {
    if n < 10 then [DigitChar(n)] else NatToString(n / 10) + [DigitChar(n % 10)]
  }

  /** Distinct numbers render differently. */
  lemma {:induction false} NatToStringInjective(a: nat, b: nat)
    requires NatToString(a) == NatToString(b)
    ensures a == b
  {
    if a >= 10 && b >= 10 {
      var sa, sb := NatToString(a), NatToString(b);
      assert sa[|sa| - 1] == sb[|sb| - 1];
      assert a % 10 == b % 10;
      assert sa[..|sa| - 1] == NatToString(a / 10);
      assert sb[..|sb| - 1] == NatToString(b / 10);
      NatToStringInjective(a / 10, b / 10);
    }
  }

  function IntToString(n: int): (s: string)
    ensures |s| >= 1
  {
    if n < 0 then "-" + NatToString(-n) else NatToString(n)
  }

  function DigitValue(c: char): nat
    requires '0' <= c <= '9'
  {
    c as int - '0' as int
  }

  predicate AllDigits(s: string)
  {
    forall i :: 0 <= i < |s| ==> '0' <= s[i] <= '9'
  }

  /** The value of a string of decimal digits. */
  function Digits(s: string): nat
    requires AllDigits(s)
  {
    if s == [] then 0 else Digits(s[..|s| - 1]) * 10 + DigitValue(s[|s| - 1])
  }

  /** `int(s)` for a string: an optional sign and decimal digits. */
  function ParseInt(s: string): Option<int>
  {
    if |s| >= 2 && s[0] == '-' && AllDigits(s[1..]) then Some(-(Digits(s[1..]) as int))
    else if |s| >= 2 && s[0] == '+' && AllDigits(s[1..]) then Some(Digits(s[1..]))
    else if |s| >= 1 && AllDigits(s) then Some(Digits(s))
    else None
  }

  lemma {:induction false} DigitsOfNat(n: nat)
    ensures Digits(NatToString(n)) == n
  {
    var s := NatToString(n);
    if n >= 10 {
      var t := NatToString(n / 10);
      DigitsOfNat(n / 10);
      assert s == t + [DigitChar(n % 10)];
      assert s[..|s| - 1] == t;
      assert DigitValue(s[|s| - 1]) == n % 10;
      assert Digits(s) == Digits(t) * 10 + n % 10;
    } else {
      assert s == [DigitChar(n)] && s[..0] == [];
    }
  }

  lemma ParseNat(n: nat)
    ensures ParseInt(NatToString(n)) == Some(n)
  {
    DigitsOfNat(n);
    ParseUnsigned(NatToString(n), n);
  }

  /** A non-empty string of digits parses to its value. */
  lemma ParseUnsigned(t: string, v: nat)
    requires |t| >= 1 && AllDigits(t) && Digits(t) == v
    ensures ParseInt(t) == Some(v)
  {
    assert '0' <= t[0] <= '9';
  }

  lemma ParseNegative(n: nat)
    requires n > 0
    ensures ParseInt("-" + NatToString(n)) == Some(-(n as int))
  {
    DigitsOfNat(n);
    ParseSigned(NatToString(n), n);
  }

  /** A minus sign before a non-empty string of digits negates its value. */
  lemma ParseSigned(t: string, v: nat)
    requires |t| >= 1 && AllDigits(t) && Digits(t) == v
    ensures ParseInt("-" + t) == Some(-(v as int))
  {
    assert ("-" + t)[1..] == t;
  }

  /** Parsing a rendered integer gives the integer back. */
  lemma ParseRendered(i: int)
    ensures ParseInt(IntToString(i)) == Some(i)
  {
    if i < 0 {
      ParseNegative(-i);
      assert IntToString(i) == "-" + NatToString(-i);
    } else {
      ParseNat(i);
      assert IntToString(i) == NatToString(i);
    }
  }

  /** `prefix + str(i) + suffix` names are distinct for distinct `i`. */
  lemma IndexedNameInjective(prefix: string, suffix: string, a: nat, b: nat)
    requires prefix + NatToString(a) + suffix == prefix + NatToString(b) + suffix
    ensures a == b
  {
    var x, y := prefix + NatToString(a) + suffix, prefix + NatToString(b) + suffix;
    assert |NatToString(a)| == |NatToString(b)|;
    assert NatToString(a) == x[|prefix|..|prefix| + |NatToString(a)|];
    assert NatToString(b) == y[|prefix|..|prefix| + |NatToString(b)|];
    NatToStringInjective(a, b);
  }

  /** The feature names `prefix0suffix` .. `prefix(n-1)suffix`. */
  function IndexedNames(prefix: string, suffix: string, n: nat): (r: set<string>)
  {
    set i | 0 <= i < n :: prefix + NatToString(i) + suffix
  }

  lemma {:induction false} IndexedNamesCard(prefix: string, suffix: string, n: nat)
    ensures |IndexedNames(prefix, suffix, n)| == n
  {
    if n > 0 {
      IndexedNamesCard(prefix, suffix, n - 1);
      IndexedNamesStep(prefix, suffix, n - 1);
      IndexedNameFresh(prefix, suffix, n - 1);
    }
  }

  lemma IndexedNamesStep(prefix: string, suffix: string, n: nat)
    ensures IndexedNames(prefix, suffix, n + 1) == IndexedNames(prefix, suffix, n) + {prefix + NatToString(n) + suffix}
  {
  }

  /** The name for `n` is not among those for `0 .. n - 1`. */
  lemma IndexedNameFresh(prefix: string, suffix: string, n: nat)
    ensures prefix + NatToString(n) + suffix !in IndexedNames(prefix, suffix, n)
  {
    var name := prefix + NatToString(n) + suffix;
    if name in IndexedNames(prefix, suffix, n) {
      var i :| 0 <= i < n && prefix + NatToString(i) + suffix == name;
      IndexedNameInjective(prefix, suffix, i, n);
    }
  }

  /** A name that differs from `prefix` at some position is not indexed. */
  lemma NotIndexed(k: string, prefix: string, suffix: string, n: nat, j: nat)
    requires j < |prefix| && j < |k| && k[j] != prefix[j]
    ensures k !in IndexedNames(prefix, suffix, n)
  {
  }

  /** `{f"{prefix}{i}{suffix}": v for i in range(n)}`. */
  function ConstIndexed(prefix: string, suffix: string, n: nat, v: Value): (m: map<string, Value>)
    ensures m.Keys == IndexedNames(prefix, suffix, n)
    ensures forall k :: k in m ==> m[k] == v
  {
    map i | 0 <= i < n :: prefix + NatToString(i) + suffix := v
  }

  /** `{f"{prefix}{i}{suffix}": vals[i] for i in range(len(vals))}`. */
  function IndexedMap(prefix: string, suffix: string, vals: seq<Value>): (m: map<string, Value>)
    ensures m.Keys == IndexedNames(prefix, suffix, |vals|)
    ensures forall i :: 0 <= i < |vals| ==> m[prefix + NatToString(i) + suffix] == vals[i]
  {
    IndexedNamesDistinct(prefix, suffix);
    map i | 0 <= i < |vals| :: prefix + NatToString(i) + suffix := vals[i]
  }

  lemma IndexedNamesDistinct(prefix: string, suffix: string)
    ensures forall i: nat, j: nat :: prefix + NatToString(i) + suffix == prefix + NatToString(j) + suffix ==> i == j
  {
    forall i: nat, j: nat | prefix + NatToString(i) + suffix == prefix + NatToString(j) + suffix
      ensures i == j
    {
      IndexedNameInjective(prefix, suffix, i, j);
    }
  }

  /** `dict.update`: the later dictionary wins on shared keys. */
  lemma UpdateWins<K, V>(a: map<K, V>, b: map<K, V>, k: K)
    requires k in b
    ensures k in a + b && (a + b)[k] == b[k]
  {
  }

  /** `dict.update`: keys the later dictionary lacks keep their entry. */
  lemma UpdateKeeps<K, V>(a: map<K, V>, b: map<K, V>, k: K)
    requires k !in b
    ensures (k in a + b <==> k in a) && (k in a ==> (a + b)[k] == a[k])
  {
  }

  // ---------------------------------------------------------------------
  // Association lists: dictionaries whose insertion order the source relies on

  function Lookup<K(==), V>(d: seq<(K, V)>, k: K): Option<V>
  {
    if d == [] then None else if d[0].0 == k then Some(d[0].1) else Lookup(d[1..], k)
  }

  function Keys<K, V>(d: seq<(K, V)>): seq<K>
  {
    Map(d, (e: (K, V)) => e.0)
  }

  /** `d[k] += 1` on a `defaultdict(int)`: a new key goes to the end. */
  function Increment<K(==,!new)>(d: seq<(K, nat)>, k: K): (r: seq<(K, nat)>)
    ensures Lookup(r, k) == Some(match Lookup(d, k) case None => 1 case Some(c) => c + 1)
    ensures forall j :: j != k ==> Lookup(r, j) == Lookup(d, j)
    ensures |r| == if Lookup(d, k).None? then |d| + 1 else |d|
  {
    if d == [] then [(k, 1)]
    else if d[0].0 == k then [(k, d[0].1 + 1)] + d[1..]
    else [d[0]] + Increment(d[1..], k)
  }

  /** Incrementing keeps every key in its place, never lowers a count, and
      a new key comes last with count one. */
  lemma {:induction false} IncrementPositions<K(!new)>(d: seq<(K, nat)>, k: K)
    ensures forall i :: 0 <= i < |d| ==> Increment(d, k)[i].0 == d[i].0 && Increment(d, k)[i].1 >= d[i].1
    ensures |Increment(d, k)| > |d| ==> Increment(d, k)[|d|] == (k, 1)
  {
    if d != [] && d[0].0 != k {
      IncrementPositions(d[1..], k);
    }
  }

  function Values<K>(d: seq<(K, nat)>): seq<nat>
  {
    Map(d, (e: (K, nat)) => e.1)
  }

  function SumNat(s: seq<nat>): nat
  {
    if s == [] then 0 else s[0] + SumNat(s[1..])
  }

  lemma {:induction false} SumNatAppend(a: seq<nat>, b: seq<nat>)
    ensures SumNat(a + b) == SumNat(a) + SumNat(b)
  {
    if a != [] {
      assert (a + b)[0] == a[0] && (a + b)[1..] == a[1..] + b;
      SumNatAppend(a[1..], b);
    } else {
      assert a + b == b;
    }
  }

  /** Python's `<` on strings: lexicographic order of code points. */
  predicate StrLess(a: string, b: string)
  {
    if a == [] then b != []
    else if b == [] then false
    else if a[0] != b[0] then a[0] < b[0]
    else StrLess(a[1..], b[1..])
  }

  lemma {:induction false} StrLessIrreflexive(s: string)
    ensures !StrLess(s, s)
  {
    if s != [] {
      StrLessIrreflexive(s[1..]);
    }
  }

  /** Two different strings are ordered one way or the other, never both. */
  lemma {:induction false} StrLessTotal(a: string, b: string)
    ensures a != b ==> StrLess(a, b) || StrLess(b, a)
    ensures !(StrLess(a, b) && StrLess(b, a))
  {
    if a != [] && b != [] && a[0] == b[0] {
      StrLessTotal(a[1..], b[1..]);
    }
  }

  lemma {:induction false} StrLessTrans(a: string, b: string, c: string)
    requires StrLess(a, b) && StrLess(b, c)
    ensures StrLess(a, c)
  {
    if a != [] && a[0] == b[0] && b[0] == c[0] {
      StrLessTrans(a[1..], b[1..], c[1..]);
    }
  }

  /** `part in s` for strings (also a regular expression without special
      characters). */
  predicate Contains(s: string, part: string)
    decreases |s|
  {
    (|part| <= |s| && s[..|part|] == part) || (s != [] && Contains(s[1..], part))
  }

  /** `min` of a non-empty sequence. */
  function SeqMin(s: seq<real>): (r: real)
    requires s != []
    ensures forall i :: 0 <= i < |s| ==> r <= s[i]
    ensures r in s
  {
    if |s| == 1 then s[0] else MinR(SeqMin(s[..|s| - 1]), s[|s| - 1])
  }

  /** `max` of a non-empty sequence. */
  function SeqMax(s: seq<real>): (r: real)
    requires s != []
    ensures forall i :: 0 <= i < |s| ==> s[i] <= r
    ensures r in s
  {
    if |s| == 1 then s[0] else MaxR(SeqMax(s[..|s| - 1]), s[|s| - 1])
  }

  /** `d[k].append(v)` on a `defaultdict(list)`: a new key goes to the end. */
  function AppendAt<K(==,!new), V>(d: seq<(K, seq<V>)>, k: K, v: V): (r: seq<(K, seq<V>)>)
    ensures Lookup(r, k) == Some(match Lookup(d, k) case None => [v] case Some(l) => l + [v])
    ensures forall j :: j != k ==> Lookup(r, j) == Lookup(d, j)
    ensures |r| == if Lookup(d, k).None? then |d| + 1 else |d|
  {
    if d == [] then [(k, [v])]
    else if d[0].0 == k then [(k, d[0].1 + [v])] + d[1..]
    else [d[0]] + AppendAt(d[1..], k, v)
  }

  /** Appending keeps every key in its place; a new key comes last. */
  lemma {:induction false} AppendAtPositions<K(!new), V>(d: seq<(K, seq<V>)>, k: K, v: V)
    ensures forall i :: 0 <= i < |d| ==> AppendAt(d, k, v)[i].0 == d[i].0
    ensures |AppendAt(d, k, v)| > |d| ==> AppendAt(d, k, v)[|d|].0 == k
  {
    if d != [] && d[0].0 != k {
      AppendAtPositions(d[1..], k, v);
    }
  }

  // ---------------------------------------------------------------------
  // Sample statistics shared by the Rust extractors

  function Square(x: real): (r: real)
    ensures r >= 0.0
  {
    if x >= 0.0 then x * x else (-x) * (-x)
  }

  function SquaredDeviations(s: seq<real>, m: real): real
  {
    if s == [] then 0.0 else SquaredDeviations(s[..|s| - 1], m) + Square(s[|s| - 1] - m)
  }

  lemma {:induction false} SquaredDeviationsNonNegative(s: seq<real>, m: real)
    ensures SquaredDeviations(s, m) >= 0.0
  {
    if s != [] {
      SquaredDeviationsNonNegative(s[..|s| - 1], m);
    }
  }

  /** Population variance (division by the length). */
  function Variance(s: seq<real>): (v: real)
    requires s != []
    ensures v >= 0.0
  {
    SquaredDeviationsNonNegative(s, Mean(s));
    SquaredDeviations(s, Mean(s)) / |s| as real
  }

  /** The middle of a sorted copy, or the average of the two middles. */
  function Median(s: seq<real>): real
    requires s != []
  {
    var sorted := SortReals(s);
    var mid := |sorted| / 2;
    if |sorted| % 2 == 0 then (sorted[mid - 1] + sorted[mid]) / 2.0 else sorted[mid]
  }

  /** Every element of a sorted copy lies between the minimum and the
      maximum of the original. */
  lemma SortedWithin(s: seq<real>, i: nat)
    requires s != [] && i < |s|
    ensures SeqMin(s) <= SortReals(s)[i] <= SeqMax(s)
  {
    var sorted := SortReals(s);
    assert sorted[i] in multiset(sorted);
    assert sorted[i] in s;
    var j :| 0 <= j < |s| && s[j] == sorted[i];
  }

  lemma MedianWithin(s: seq<real>)
    requires s != []
    ensures SeqMin(s) <= Median(s) <= SeqMax(s)
  {
    var mid := |s| / 2;
    SortedWithin(s, mid);
    if |s| % 2 == 0 {
      SortedWithin(s, mid - 1);
    }
  }
}
