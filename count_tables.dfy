/** Count tables shared by the application trackers and the Markov-chain
    trainer: dictionaries of counts keyed by (from, to) application pairs or
    by hour of day, their row totals, and the probabilities obtained by
    dividing a count by the total of its row. A dictionary is an association
    list in insertion order; the dictionaries here never repeat a key. */
module CountTables {
  import opened Common

  /** A (from application, to application) transition. */
  type Pair = (string, string)

  /** `f"{from_app}->{to_app}"`, the key of a transition in every output. */
  function PairName(p: Pair): string
  {
    p.0 + "->" + p.1
  }

  /** No key appears twice. */
  ghost predicate Distinct<K, V>(d: seq<(K, V)>)
  {
    forall i, j :: 0 <= i < j < |d| ==> d[i].0 != d[j].0
  }

  /** Every stored count is at least one (counts only come from `+= 1`). */
  ghost predicate AllPositive<K>(d: seq<(K, nat)>)
  {
    forall i :: 0 <= i < |d| ==> d[i].1 > 0
  }

  /** `d.get(k, 0)`. */
  function CountOf<K(==)>(d: seq<(K, nat)>, k: K): nat
  {
    match Lookup(d, k)
    case None => 0
    case Some(c) => c
  }

  lemma {:induction false} LookupIndex<K, V>(d: seq<(K, V)>, k: K) returns (i: nat)
    requires Lookup(d, k).Some?
    ensures i < |d| && d[i].0 == k && d[i].1 == Lookup(d, k).value
  {
    if d[0].0 == k {
      i := 0;
    } else {
      var j := LookupIndex(d[1..], k);
      i := j + 1;
    }
  }

  lemma {:induction false} LookupAbsent<K, V>(d: seq<(K, V)>, k: K)
    requires forall i :: 0 <= i < |d| ==> d[i].0 != k
    ensures Lookup(d, k).None?
  {
    if d != [] {
      LookupAbsent(d[1..], k);
    }
  }

  lemma {:induction false} LookupDistinct<K, V>(d: seq<(K, V)>, i: nat)
    requires Distinct(d) && i < |d|
    ensures Lookup(d, d[i].0) == Some(d[i].1)
  {
    if i > 0 {
      LookupDistinct(d[1..], i - 1);
    }
  }

  /** A key missing from a dictionary with distinct keys is none of its keys. */
  lemma AbsentKey<K, V>(d: seq<(K, V)>, k: K)
    requires Distinct(d) && Lookup(d, k).None?
    ensures forall i :: 0 <= i < |d| ==> d[i].0 != k
  {
    forall i | 0 <= i < |d|
      ensures d[i].0 != k
    {
      LookupDistinct(d, i);
    }
  }

  /** `d[k] += 1` keeps the keys distinct and the counts positive. */
  lemma IncrementKeepsCounts<K(!new)>(d: seq<(K, nat)>, k: K)
    requires Distinct(d) && AllPositive(d)
    ensures Distinct(Increment(d, k)) && AllPositive(Increment(d, k))
  {
    var r := Increment(d, k);
    IncrementPositions(d, k);
    if |r| > |d| {
      AbsentKey(d, k);
    }
    forall i, j | 0 <= i < j < |r|
      ensures r[i].0 != r[j].0
    {
      if j < |d| {
        assert r[i].0 == d[i].0 && r[j].0 == d[j].0;
      }
    }
    forall i | 0 <= i < |r|
      ensures r[i].1 > 0
    {
      if i < |d| {
        assert r[i].1 >= d[i].1;
      }
    }
  }

  /** `d[k].append(v)` keeps the keys distinct. */
  lemma AppendAtKeepsKeys<K(!new), V>(d: seq<(K, seq<V>)>, k: K, v: V)
    requires Distinct(d)
    ensures Distinct(AppendAt(d, k, v))
  {
    var r := AppendAt(d, k, v);
    AppendAtPositions(d, k, v);
    if |r| > |d| {
      AbsentKey(d, k);
    }
    forall i, j | 0 <= i < j < |r|
      ensures r[i].0 != r[j].0
    {
      if j < |d| {
        assert r[i].0 == d[i].0 && r[j].0 == d[j].0;
      }
    }
  }

  // ---------------------------------------------------------------------
  // Totals

  /** `sum(d.values())`. */
  function Total<K>(d: seq<(K, nat)>): nat
  {
    if d == [] then 0 else d[0].1 + Total(d[1..])
  }

  lemma {:induction false} TotalCovers<K>(d: seq<(K, nat)>, i: nat)
    requires i < |d|
    ensures d[i].1 <= Total(d)
  {
    if i > 0 {
      TotalCovers(d[1..], i - 1);
    }
  }

  lemma {:induction false} TotalSnoc<K>(d: seq<(K, nat)>, i: nat)
    requires i < |d|
    ensures Total(d[..i + 1]) == Total(d[..i]) + d[i].1
  {
    if i > 0 {
      assert d[..i + 1][1..] == d[1..][..i];
      assert d[..i][1..] == d[1..][..i - 1];
      TotalSnoc(d[1..], i - 1);
    }
  }

  /** The total of the counts leaving `f`:
      `sum(count for (f, _), count in t.items() if f == from_app)`. */
  function RowTotal(t: seq<(Pair, nat)>, f: string): nat
  {
    if t == [] then 0 else (if t[0].0.0 == f then t[0].1 else 0) + RowTotal(t[1..], f)
  }

  lemma {:induction false} RowTotalAppend(a: seq<(Pair, nat)>, b: seq<(Pair, nat)>, f: string)
    ensures RowTotal(a + b, f) == RowTotal(a, f) + RowTotal(b, f)
  {
    if a == [] {
      assert a + b == b;
    } else {
      assert (a + b)[1..] == a[1..] + b;
      RowTotalAppend(a[1..], b, f);
    }
  }

  lemma {:induction false} RowTotalCovers(t: seq<(Pair, nat)>, i: nat)
    requires i < |t|
    ensures t[i].1 <= RowTotal(t, t[i].0.0)
  {
    if i > 0 {
      RowTotalCovers(t[1..], i - 1);
    }
  }

  /** Recording one transition adds one to the total of its source row and
      leaves the other rows alone. */
  lemma {:induction false} RowTotalIncrement(t: seq<(Pair, nat)>, p: Pair, f: string)
    ensures RowTotal(Increment(t, p), f) == RowTotal(t, f) + (if p.0 == f then 1 else 0)
  {
    if t != [] && t[0].0 != p {
      RowTotalIncrement(t[1..], p, f);
    }
  }

  /** A count that can be looked up is part of its row total. */
  lemma CountWithinRow(t: seq<(Pair, nat)>, p: Pair)
    ensures CountOf(t, p) <= RowTotal(t, p.0)
  {
    if Lookup(t, p).Some? {
      var i := LookupIndex(t, p);
      RowTotalCovers(t, i);
    }
  }

  // ---------------------------------------------------------------------
  // Probabilities

  /** `count / total if total > 0 else 0`. */
  function Probability(count: nat, total: nat): real
  {
    if total > 0 then count as real / total as real else 0.0
  }

  /** A count within its total gives a probability, positive when the count
      is; no total gives 0. */
  lemma ProbabilityBounds(count: nat, total: nat)
    ensures 0.0 <= Probability(count, total)
    ensures count <= total ==> Probability(count, total) <= 1.0
    ensures 0 < count <= total ==> 0.0 < Probability(count, total)
    ensures total == 0 ==> Probability(count, total) == 0.0
  {
  }

  /** A dictionary built by assigning its items in order: a later item with
      the same key overwrites an earlier one. */
  function Keyed<K, V>(s: seq<(K, V)>): (m: map<K, V>)
    ensures forall i :: 0 <= i < |s| ==> s[i].0 in m
    ensures forall k :: k in m ==> exists i :: 0 <= i < |s| && s[i].0 == k
  {
    if s == [] then map[] else Keyed(s[..|s| - 1])[s[|s| - 1].0 := s[|s| - 1].1]
  }

  /** Building from one more pair sets that pair's key. */
  lemma KeyedSnoc<K, V>(s: seq<(K, V)>, i: nat)
    requires i < |s|
    ensures Keyed(s[..i + 1]) == Keyed(s[..i])[s[i].0 := s[i].1]
  {
    assert s[..i + 1][..i] == s[..i];
  }

  lemma {:induction false} KeyedLastWins<K, V>(s: seq<(K, V)>, i: nat)
    requires i < |s|
    requires forall j :: i < j < |s| ==> s[j].0 != s[i].0
    ensures Keyed(s)[s[i].0] == s[i].1
  {
    if i < |s| - 1 {
      KeyedLastWins(s[..|s| - 1], i);
    }
  }

  /** Each transition of `part` with the probability it has in the table
      `whole`. */
  function Shares(part: seq<(Pair, nat)>, whole: seq<(Pair, nat)>): (r: seq<(Pair, real)>)
    ensures |r| == |part|
    ensures forall i :: 0 <= i < |part| ==>
              r[i] == (part[i].0, Probability(part[i].1, RowTotal(whole, part[i].0.0)))
  {
    if part == [] then []
    else [(part[0].0, Probability(part[0].1, RowTotal(whole, part[0].0.0)))] + Shares(part[1..], whole)
  }

  /** The transition matrix as a list: each transition with its count divided
      by the total of its source row. */
  function MatrixEntries(t: seq<(Pair, nat)>): seq<(Pair, real)>
  {
    Shares(t, t)
  }

  /** The entries of the transition matrix under their `"from->to"` names. */
  function NamedEntries(t: seq<(Pair, nat)>): (r: seq<(string, real)>)
    ensures |r| == |t|
    ensures forall i :: 0 <= i < |t| ==> r[i] == (PairName(t[i].0), MatrixEntries(t)[i].1)
  {
    seq(|t|, i requires 0 <= i < |t| => (PairName(t[i].0), MatrixEntries(t)[i].1))
  }

  /** The transition matrix as the dictionary keyed by `"from->to"`. */
  function Matrix(t: seq<(Pair, nat)>): map<string, real>
  {
    Keyed(NamedEntries(t))
  }

  /** The probabilities of the entries leaving `f`, added up. */
  function RowMass(es: seq<(Pair, real)>, f: string): real
  {
    if es == [] then 0.0 else (if es[0].0.0 == f then es[0].1 else 0.0) + RowMass(es[1..], f)
  }

  lemma {:induction false} RowMassOfShares(part: seq<(Pair, nat)>, whole: seq<(Pair, nat)>, f: string)
    requires RowTotal(whole, f) > 0
    ensures RowMass(Shares(part, whole), f) == RowTotal(part, f) as real / RowTotal(whole, f) as real
  {
    if part != [] {
      RowMassOfShares(part[1..], whole, f);
      var total := RowTotal(whole, f) as real;
      var c := (if part[0].0.0 == f then part[0].1 else 0) as real;
      var rest := RowTotal(part[1..], f) as real;
      assert RowMass(Shares(part, whole), f) == c / total + rest / total;
      SplitQuotient(c, rest, total);
    }
  }

  /** Every row of the transition matrix that has a transition sums to 1. */
  lemma MatrixRowSumsToOne(t: seq<(Pair, nat)>, f: string)
    requires RowTotal(t, f) > 0
    ensures RowMass(MatrixEntries(t), f) == 1.0
  {
    RowMassOfShares(t, t, f);
    WholeQuotient(RowTotal(t, f) as real);
  }

  /** Every entry of the matrix is a probability, positive for a recorded
      transition. */
  lemma MatrixEntryBounds(t: seq<(Pair, nat)>, i: nat)
    requires AllPositive(t) && i < |t|
    ensures 0.0 < MatrixEntries(t)[i].1 <= 1.0
  {
    RowTotalCovers(t, i);
    ProbabilityBounds(t[i].1, RowTotal(t, t[i].0.0));
  }

  /** With no two transitions sharing a `"from->to"` name, the dictionary holds
      each entry's probability under its name. */
  lemma MatrixHoldsEntries(t: seq<(Pair, nat)>, i: nat)
    requires i < |t|
    requires forall j :: 0 <= j < |t| && j != i ==> PairName(t[j].0) != PairName(t[i].0)
    ensures PairName(t[i].0) in Matrix(t)
    ensures Matrix(t)[PairName(t[i].0)] == MatrixEntries(t)[i].1
  {
    KeyedLastWins(NamedEntries(t), i);
  }

  /** `get_transition_probability`: the count of the pair over the total
      leaving its source, 0 when nothing left the source. */
  function TransitionProbability(t: seq<(Pair, nat)>, f: string, to: string): real
  {
    Probability(CountOf(t, (f, to)), RowTotal(t, f))
  }

  lemma TransitionProbabilityBounds(t: seq<(Pair, nat)>, f: string, to: string)
    ensures 0.0 <= TransitionProbability(t, f, to) <= 1.0
    ensures Lookup(t, (f, to)).None? ==> TransitionProbability(t, f, to) == 0.0
  {
    CountWithinRow(t, (f, to));
    ProbabilityBounds(CountOf(t, (f, to)), RowTotal(t, f));
  }

  /** The getter and the matrix agree on every recorded transition. */
  lemma TransitionProbabilityInMatrix(t: seq<(Pair, nat)>, i: nat)
    requires Distinct(t) && i < |t|
    ensures TransitionProbability(t, t[i].0.0, t[i].0.1) == MatrixEntries(t)[i].1
  {
    LookupDistinct(t, i);
  }

  // ---------------------------------------------------------------------
  // Hour-of-day rows

  /** Each hour of `part` with its count divided by `total`. */
  function SharesOf<H>(part: seq<(H, nat)>, total: nat): (r: seq<(H, real)>)
    ensures |r| == |part|
    ensures forall i :: 0 <= i < |part| ==> r[i] == (part[i].0, Probability(part[i].1, total))
  {
    if part == [] then [] else [(part[0].0, Probability(part[0].1, total))] + SharesOf(part[1..], total)
  }

  /** Each hour of a row with its count divided by the row total. */
  function HourShares<H>(row: seq<(H, nat)>): seq<(H, real)>
  {
    SharesOf(row, Total(row))
  }

  /** `{hour: count / total for hour, count in hour_counts.items()}`. */
  function HourMap<H>(row: seq<(H, nat)>): map<H, real>
  {
    Keyed(HourShares(row))
  }

  function Mass<H>(s: seq<(H, real)>): real
  {
    if s == [] then 0.0 else s[0].1 + Mass(s[1..])
  }

  lemma {:induction false} MassOfShares<H>(part: seq<(H, nat)>, total: nat)
    requires total > 0
    ensures Mass(SharesOf(part, total)) == Total(part) as real / total as real
  {
    if part != [] {
      MassOfShares(part[1..], total);
      var c := part[0].1 as real;
      var rest := Total(part[1..]) as real;
      assert Mass(SharesOf(part, total)) == c / total as real + rest / total as real;
      SplitQuotient(c, rest, total as real);
    }
  }

  /** The hour probabilities of a non-empty row sum to 1 and each lies in
      (0, 1]. */
  lemma HourSharesSumToOne<H>(row: seq<(H, nat)>)
    requires row != [] && AllPositive(row)
    ensures Mass(HourShares(row)) == 1.0
    ensures forall i :: 0 <= i < |row| ==> 0.0 < HourShares(row)[i].1 <= 1.0
  {
    forall i | 0 <= i < |row|
      ensures 0.0 < HourShares(row)[i].1 <= 1.0
    {
      TotalCovers(row, i);
      ProbabilityBounds(row[i].1, Total(row));
    }
    TotalCovers(row, 0);
    MassOfShares(row, Total(row));
    var total := Total(row) as real;
    assert total / total == 1.0;
  }

  /** A row with distinct hours holds each hour's probability. */
  lemma HourMapHoldsShares<H>(row: seq<(H, nat)>, i: nat)
    requires Distinct(row) && i < |row|
    ensures row[i].0 in HourMap(row) && HourMap(row)[row[i].0] == HourShares(row)[i].1
  {
    KeyedLastWins(HourShares(row), i);
  }

  // ---------------------------------------------------------------------
  // Nested tables: application -> hour -> count

  /** `table[k]` on a `defaultdict(lambda: defaultdict(int))`, without
      creating the row. */
  function RowOf<K(==), H>(p: seq<(K, seq<(H, nat)>)>, k: K): seq<(H, nat)>
  {
    match Lookup(p, k)
    case None => []
    case Some(row) => row
  }

  /** `table[k][h] += 1`: a new application goes to the end. */
  function IncrementIn<K(==,!new), H(==,!new)>(p: seq<(K, seq<(H, nat)>)>, k: K, h: H): (r: seq<(K, seq<(H, nat)>)>)
    ensures Lookup(r, k) == Some(Increment(RowOf(p, k), h))
    ensures forall j :: j != k ==> Lookup(r, j) == Lookup(p, j)
    ensures |r| == if Lookup(p, k).None? then |p| + 1 else |p|
    ensures forall i :: 0 <= i < |p| ==> r[i].0 == p[i].0
    ensures |r| > |p| ==> r[|p|].0 == k
  {
    if p == [] then [(k, [(h, 1)])]
    else if p[0].0 == k then [(k, Increment(p[0].1, h))] + p[1..]
    else [p[0]] + IncrementIn(p[1..], k, h)
  }

  /** `table[k]` on a `defaultdict`: reading a missing row creates it empty. */
  function Touch<K(==,!new), H>(p: seq<(K, seq<(H, nat)>)>, k: K): (r: seq<(K, seq<(H, nat)>)>)
    ensures RowOf(r, k) == RowOf(p, k)
    ensures forall j :: Lookup(r, j) == if j == k then Some(RowOf(p, k)) else Lookup(p, j)
  {
    if Lookup(p, k).Some? then p
    else
      LookupAppendMissing(p, k, []);
      p + [(k, [])]
  }

  lemma {:induction false} LookupAppendMissing<K(!new), V>(p: seq<(K, V)>, k: K, v: V)
    requires Lookup(p, k).None?
    ensures forall j :: Lookup(p + [(k, v)], j) == if j == k then Some(v) else Lookup(p, j)
  {
    if p != [] {
      assert (p + [(k, v)])[1..] == p[1..] + [(k, v)];
      LookupAppendMissing(p[1..], k, v);
    }
  }

  /** Every row has distinct hours and positive counts, and no application
      has two rows. */
  ghost predicate RowsWellFormed<K, H>(p: seq<(K, seq<(H, nat)>)>)
  {
    Distinct(p) && forall i :: 0 <= i < |p| ==> Distinct(p[i].1) && AllPositive(p[i].1)
  }

  lemma IncrementInKeepsRows<K(!new), H(!new)>(p: seq<(K, seq<(H, nat)>)>, k: K, h: H)
    requires RowsWellFormed(p)
    ensures RowsWellFormed(IncrementIn(p, k, h))
  {
    var r := IncrementIn(p, k, h);
    IncrementInDistinct(p, k, h);
    forall i | 0 <= i < |r|
      ensures Distinct(r[i].1) && AllPositive(r[i].1)
    {
      IncrementInRow(p, k, h, i);
    }
  }

  lemma {:induction false} IncrementInDistinct<K(!new), H(!new)>(p: seq<(K, seq<(H, nat)>)>, k: K, h: H)
    requires Distinct(p)
    ensures Distinct(IncrementIn(p, k, h))
  {
    if p != [] && p[0].0 != k {
      var t := IncrementIn(p[1..], k, h);
      IncrementInDistinct(p[1..], k, h);
      forall j | 0 <= j < |t|
        ensures t[j].0 != p[0].0
      {
        if j < |p[1..]| {
          assert t[j].0 == p[j + 1].0;
        } else {
          assert t[j].0 == k;
        }
      }
      ConsDistinct(p[0], t);
      assert IncrementIn(p, k, h) == [p[0]] + t;
    }
  }

  lemma ConsDistinct<K, V>(x: (K, V), t: seq<(K, V)>)
    requires Distinct(t) && forall j :: 0 <= j < |t| ==> t[j].0 != x.0
    ensures Distinct([x] + t)
  {
    var r := [x] + t;
    forall i, j | 0 <= i < j < |r|
      ensures r[i].0 != r[j].0
    {
      assert r[j] == t[j - 1];
      if i > 0 {
        assert r[i] == t[i - 1];
      }
    }
  }

  /** Every row of the updated table is a row of the old one, or the old row
      of `k` with one count raised, or a new single-count row. */
  lemma IncrementInRow<K(!new), H(!new)>(p: seq<(K, seq<(H, nat)>)>, k: K, h: H, i: nat)
    requires RowsWellFormed(p) && Distinct(IncrementIn(p, k, h)) && i < |IncrementIn(p, k, h)|
    ensures Distinct(IncrementIn(p, k, h)[i].1) && AllPositive(IncrementIn(p, k, h)[i].1)
  {
    var r := IncrementIn(p, k, h);
    LookupDistinct(r, i);
    if r[i].0 == k {
      if Lookup(p, k).Some? {
        var j := LookupIndex(p, k);
        IncrementKeepsCounts(p[j].1, h);
      }
    } else {
      var j := LookupIndex(p, r[i].0);
    }
  }

  lemma TouchKeepsRows<K(!new), H>(p: seq<(K, seq<(H, nat)>)>, k: K)
    requires RowsWellFormed(p)
    ensures RowsWellFormed(Touch(p, k))
  {
    if Lookup(p, k).None? {
      forall i | 0 <= i < |p|
        ensures p[i].0 != k
      {
        LookupDistinct(p, i);
      }
    }
  }

  /** The probability of hour `h` in the row of `k`, 0 for an empty row. */
  function HourProbability<K(==), H(==)>(p: seq<(K, seq<(H, nat)>)>, k: K, h: H): real
  {
    Probability(CountOf(RowOf(p, k), h), Total(RowOf(p, k)))
  }

  lemma HourProbabilityBounds<K, H>(p: seq<(K, seq<(H, nat)>)>, k: K, h: H)
    ensures 0.0 <= HourProbability(p, k, h) <= 1.0
    ensures Lookup(RowOf(p, k), h).None? ==> HourProbability(p, k, h) == 0.0
  {
    if Lookup(RowOf(p, k), h).Some? {
      var i := LookupIndex(RowOf(p, k), h);
      TotalCovers(RowOf(p, k), i);
    }
    ProbabilityBounds(CountOf(RowOf(p, k), h), Total(RowOf(p, k)));
  }

  /** `{app: {hour: count / total ...} for app, hour_counts in table.items()}`. */
  function TimePreferences<K, H>(p: seq<(K, seq<(H, nat)>)>): map<K, map<H, real>>
  {
    Keyed(seq(|p|, i requires 0 <= i < |p| => (p[i].0, HourMap(p[i].1))))
  }

  /** The time preferences hold, for every recorded (application, hour), the
      probability the hour getter reports. */
  lemma TimePreferencesAgree<K, H>(p: seq<(K, seq<(H, nat)>)>, i: nat, j: nat)
    requires RowsWellFormed(p) && i < |p| && j < |p[i].1|
    ensures p[i].0 in TimePreferences(p)
    ensures p[i].1[j].0 in TimePreferences(p)[p[i].0]
    ensures TimePreferences(p)[p[i].0][p[i].1[j].0] == HourProbability(p, p[i].0, p[i].1[j].0)
  {
    var named := seq(|p|, k requires 0 <= k < |p| => (p[k].0, HourMap(p[k].1)));
    KeyedLastWins(named, i);
    LookupDistinct(p, i);
    HourMapHoldsShares(p[i].1, j);
    LookupDistinct(p[i].1, j);
  }

  // ---------------------------------------------------------------------
  // A tracker's transition and duration tables

  /** The durations recorded for `app`, empty when none was. */
  function DurationsOf(d: seq<(string, seq<real>)>, app: string): seq<real>
  {
    match Lookup(d, app)
    case None => []
    case Some(l) => l
  }

  /** `defaultdict(int)[k]` read from a plain dictionary. */
  function Get0(m: map<string, nat>, k: string): nat
  {
    if k in m then m[k] else 0
  }

  /** The transition and duration tables are dictionaries, the counts are
      positive, and every switch away from an application left one
      transition out of it and one duration for it. */
  ghost predicate TablesOk(t: seq<(Pair, nat)>, d: seq<(string, seq<real>)>)
  {
    && Distinct(t) && AllPositive(t) && Distinct(d)
    && forall f :: RowTotal(t, f) == |DurationsOf(d, f)|
  }

  /** Recording a switch from `from` to `to` keeps the tables consistent,
      counts the pair once more and adds exactly one duration for `from`. */
  lemma RecordKeepsTables(t: seq<(Pair, nat)>, d: seq<(string, seq<real>)>, from: string, to: string, duration: real)
    requires TablesOk(t, d)
    ensures TablesOk(Increment(t, (from, to)), AppendAt(d, from, duration))
    ensures CountOf(Increment(t, (from, to)), (from, to)) == CountOf(t, (from, to)) + 1
    ensures DurationsOf(AppendAt(d, from, duration), from) == DurationsOf(d, from) + [duration]
  {
    IncrementKeepsCounts(t, (from, to));
    AppendAtKeepsKeys(d, from, duration);
    forall f
      ensures RowTotal(Increment(t, (from, to)), f) == |DurationsOf(AppendAt(d, from, duration), f)|
    {
      RowTotalIncrement(t, (from, to), f);
    }
  }

  /** A switch to `app` at `hour` counts that hour once more for the
      application and changes no other count. */
  lemma PatternCountsOneMore(p: seq<(string, seq<(int, nat)>)>, app: string, hour: int, other: string, h: int)
    ensures CountOf(RowOf(IncrementIn(p, app, hour), app), hour) == CountOf(RowOf(p, app), hour) + 1
    ensures (other, h) != (app, hour) ==>
              CountOf(RowOf(IncrementIn(p, app, hour), other), h) == CountOf(RowOf(p, other), h)
  {
  }

  lemma RowTotalSnoc(t: seq<(Pair, nat)>, i: nat, f: string)
    requires i < |t|
    ensures RowTotal(t[..i + 1], f) == RowTotal(t[..i], f) + (if t[i].0.0 == f then t[i].1 else 0)
  {
    assert t[..i + 1] == t[..i] + [t[i]];
    RowTotalAppend(t[..i], [t[i]], f);
    var single: seq<(Pair, nat)> := [t[i]];
    assert single[1..] == [];
  }
}
