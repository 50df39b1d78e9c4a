/** The offline trainer of the application-usage model. It counts a list of
    recorded switches into the same tables the trackers keep (transitions,
    durations, per-application hours and per-application occurrences), then
    derives the Markov-chain transition probabilities, the hour-of-day
    distribution of each application, the ranking of the most used
    applications and the density metric, and names the saved model file by
    the wall-clock time.

    The time-series query, the JSON writer, the wall clock and the entropy
    metrics (base-2 logarithms) are outside the model; the records and the
    time are parameters. */
module TrainAppUsage {
  import opened Common
  import opened CountTables
  import InferenceEngine

  /** `timestamp.hour`. */
  type Hour = h: nat | h < 24

  /** One transition read from the time-series store. */
  datatype TrainingRecord = TrainingRecord(fromApp: string, toApp: string, durationMs: real, hour: Hour)

  /** The trainer's four dictionaries. */
  datatype Tables = Tables(
    transitions: seq<(Pair, nat)>,
    durations: seq<(string, seq<real>)>,
    timePatterns: seq<(string, seq<(Hour, nat)>)>,
    appCounts: seq<(string, nat)>)

  // -----------------------------------------------------------------------
  // Key sets

  /** The keys of a dictionary. */
  function KeySet<K, V>(d: seq<(K, V)>): set<K>
  {
    set i | 0 <= i < |d| :: d[i].0
  }

  /** Every application that is the source or the target of a transition. */
  function Endpoints(t: seq<(Pair, nat)>): set<string>
  {
    Ends(KeySet(t))
  }

  function Ends(pairs: set<Pair>): set<string>
  {
    (set p | p in pairs :: p.0) + (set p | p in pairs :: p.1)
  }

  lemma EndsAdd(pairs: set<Pair>, p: Pair)
    ensures Ends(pairs + {p}) == Ends(pairs) + {p.0, p.1}
  {
    var l, r := Ends(pairs + {p}), Ends(pairs) + {p.0, p.1};
    forall x | x in l
      ensures x in r
    {
      var q :| q in pairs + {p} && (q.0 == x || q.1 == x);
    }
    forall x | x in r
      ensures x in l
    {
      if x !in {p.0, p.1} {
        var q :| q in pairs && (q.0 == x || q.1 == x);
        assert q in pairs + {p};
      }
    }
  }

  lemma IncrementKeySet<K(!new)>(d: seq<(K, nat)>, k: K)
    ensures KeySet(Increment(d, k)) == KeySet(d) + {k}
  {
    IncrementKeysWithin(d, k);
    IncrementKeysKept(d, k);
  }

  lemma IncrementKeysWithin<K(!new)>(d: seq<(K, nat)>, k: K)
    ensures KeySet(Increment(d, k)) <= KeySet(d) + {k}
  {
    var r := Increment(d, k);
    forall x | x in KeySet(r)
      ensures x in KeySet(d) + {k}
    {
      var i :| 0 <= i < |r| && r[i].0 == x;
      IncrementKeyAt(d, k, i);
    }
  }

  /** Each key of the incremented table is an old key or `k`. */
  lemma IncrementKeyAt<K(!new)>(d: seq<(K, nat)>, k: K, i: nat)
    requires i < |Increment(d, k)|
    ensures Increment(d, k)[i].0 in KeySet(d) + {k}
  {
    IncrementPositions(d, k);
    if i < |d| {
      assert d[i].0 in KeySet(d);
    }
  }

  lemma IncrementKeysKept<K(!new)>(d: seq<(K, nat)>, k: K)
    ensures KeySet(d) + {k} <= KeySet(Increment(d, k))
  {
    var r := Increment(d, k);
    IncrementPositions(d, k);
    if Lookup(d, k).Some? {
      var i := LookupIndex(d, k);
      assert r[i].0 in KeySet(r);
    } else {
      assert r[|d|].0 in KeySet(r);
    }
    forall x | x in KeySet(d)
      ensures x in KeySet(r)
    {
      var i :| 0 <= i < |d| && d[i].0 == x;
      assert r[i].0 in KeySet(r);
    }
  }

  lemma EndpointsIncrement(t: seq<(Pair, nat)>, p: Pair)
    ensures Endpoints(Increment(t, p)) == Endpoints(t) + {p.0, p.1}
  {
    IncrementKeySet(t, p);
    EndsAdd(KeySet(t), p);
  }

  lemma KeySetSnoc<K, V>(d: seq<(K, V)>, i: nat)
    requires i < |d|
    ensures KeySet(d[..i + 1]) == KeySet(d[..i]) + {d[i].0}
  {
    var a, b := d[..i], d[..i + 1];
    forall x | x in KeySet(b)
      ensures x in KeySet(a) + {d[i].0}
    {
      var j :| 0 <= j < |b| && b[j].0 == x;
      if j < i {
        assert a[j] == b[j];
      }
    }
    forall x | x in KeySet(a)
      ensures x in KeySet(b)
    {
      var j :| 0 <= j < |a| && a[j].0 == x;
      assert b[j] == a[j];
    }
    assert b[i] == d[i];
  }

  lemma EndpointsSnoc(t: seq<(Pair, nat)>, i: nat)
    requires i < |t|
    ensures Endpoints(t[..i + 1]) == Endpoints(t[..i]) + {t[i].0.0, t[i].0.1}
  {
    KeySetSnoc(t, i);
    EndsAdd(KeySet(t[..i]), t[i].0);
  }

  // -----------------------------------------------------------------------
  // Counting the records (`build_markov_chain`, first loop)

  /** One record counted: its transition, the duration of its source
      application, the hour of its source application, and one occurrence
      for each end. */
  function Tally(tb: Tables, r: TrainingRecord): Tables
  {
    Tables(
      Increment(tb.transitions, (r.fromApp, r.toApp)),
      AppendAt(tb.durations, r.fromApp, r.durationMs),
      IncrementIn(tb.timePatterns, r.fromApp, r.hour),
      Increment(Increment(tb.appCounts, r.fromApp), r.toApp))
  }

  function TallyAll(tb: Tables, rs: seq<TrainingRecord>): Tables
  {
    if rs == [] then tb else Tally(TallyAll(tb, rs[..|rs| - 1]), rs[|rs| - 1])
  }

  lemma TallyAllSnoc(tb: Tables, rs: seq<TrainingRecord>, i: nat)
    requires i < |rs|
    ensures TallyAll(tb, rs[..i + 1]) == Tally(TallyAll(tb, rs[..i]), rs[i])
  {
    assert rs[..i + 1][..i] == rs[..i];
  }

  /** The tables are dictionaries with positive counts, each source
      application has one duration per transition out of it, and the
      occurrence table counts exactly the applications seen in transitions. */
  ghost predicate WellFormed(tb: Tables)
  {
    && TablesOk(tb.transitions, tb.durations)
    && RowsWellFormed(tb.timePatterns)
    && Distinct(tb.appCounts) && AllPositive(tb.appCounts)
    && KeySet(tb.appCounts) == Endpoints(tb.transitions)
  }

  lemma TallyKeeps(tb: Tables, r: TrainingRecord)
    requires WellFormed(tb)
    ensures WellFormed(Tally(tb, r))
  {
    RecordKeepsTables(tb.transitions, tb.durations, r.fromApp, r.toApp, r.durationMs);
    IncrementInKeepsRows(tb.timePatterns, r.fromApp, r.hour);
    IncrementKeepsCounts(tb.appCounts, r.fromApp);
    IncrementKeepsCounts(Increment(tb.appCounts, r.fromApp), r.toApp);
    IncrementKeySet(tb.appCounts, r.fromApp);
    IncrementKeySet(Increment(tb.appCounts, r.fromApp), r.toApp);
    EndpointsIncrement(tb.transitions, (r.fromApp, r.toApp));
  }

  lemma {:induction false} TallyAllKeeps(tb: Tables, rs: seq<TrainingRecord>)
    requires WellFormed(tb)
    ensures WellFormed(TallyAll(tb, rs))
  {
    if rs != [] {
      TallyAllKeeps(tb, rs[..|rs| - 1]);
      TallyKeeps(TallyAll(tb, rs[..|rs| - 1]), rs[|rs| - 1]);
    }
  }

  /** Each record adds one to the count of its pair and one duration to its
      source application. */
  lemma TallyCounts(tb: Tables, r: TrainingRecord)
    requires WellFormed(tb)
    ensures CountOf(Tally(tb, r).transitions, (r.fromApp, r.toApp))
            == CountOf(tb.transitions, (r.fromApp, r.toApp)) + 1
    ensures DurationsOf(Tally(tb, r).durations, r.fromApp) == DurationsOf(tb.durations, r.fromApp) + [r.durationMs]
    ensures CountOf(RowOf(Tally(tb, r).timePatterns, r.fromApp), r.hour)
            == CountOf(RowOf(tb.timePatterns, r.fromApp), r.hour) + 1
    ensures r.fromApp != r.toApp ==>
              && CountOf(Tally(tb, r).appCounts, r.fromApp) == CountOf(tb.appCounts, r.fromApp) + 1
              && CountOf(Tally(tb, r).appCounts, r.toApp) == CountOf(tb.appCounts, r.toApp) + 1
    ensures r.fromApp == r.toApp ==>
              CountOf(Tally(tb, r).appCounts, r.fromApp) == CountOf(tb.appCounts, r.fromApp) + 2
  {
    RecordKeepsTables(tb.transitions, tb.durations, r.fromApp, r.toApp, r.durationMs);
  }

  // -----------------------------------------------------------------------
  // Transition probabilities (`build_markov_chain`, second part)

  /** A stored transition: `{"probability", "count", "from_app", "to_app"}`. */
  datatype MarkovEntry = MarkovEntry(probability: real, count: nat, fromApp: string, toApp: string)

  /** Every stored entry sits under the `"from->to"` name of its own pair of
      applications, both of them seen, with the pair's positive count and its
      count over the source application's total. */
  ghost predicate Stored(t: seq<(Pair, nat)>, probs: map<string, MarkovEntry>, apps: set<string>)
  {
    forall k :: k in probs ==>
      && k == PairName((probs[k].fromApp, probs[k].toApp))
      && probs[k].fromApp in apps && probs[k].toApp in apps
      && probs[k].count == CountOf(t, (probs[k].fromApp, probs[k].toApp)) > 0
      && probs[k].probability == TransitionProbability(t, probs[k].fromApp, probs[k].toApp)
  }

  /** A stored probability lies in (0, 1]. */
  lemma StoredProbabilityBounds(t: seq<(Pair, nat)>, probs: map<string, MarkovEntry>, apps: set<string>, k: string)
    requires Stored(t, probs, apps) && k in probs
    ensures 0.0 < probs[k].probability <= 1.0
  {
    var e := probs[k];
    CountWithinRow(t, (e.fromApp, e.toApp));
    ProbabilityBounds(e.count, RowTotal(t, e.fromApp));
  }

  /** When no two recorded pairs share a `"from->to"` name, each recorded
      transition is stored under its name with its count and with the
      probability of the transition matrix, whose rows sum to one. */
  lemma StoredAreMatrixEntries(t: seq<(Pair, nat)>, probs: map<string, MarkovEntry>, apps: set<string>, i: nat)
    requires Distinct(t) && i < |t|
    requires Stored(t, probs, apps)
    requires forall j :: 0 <= j < |t| ==> PairName(t[j].0) in probs
    requires forall a, b :: 0 <= a < b < |t| ==> PairName(t[a].0) != PairName(t[b].0)
    ensures var e := probs[PairName(t[i].0)];
            && (e.fromApp, e.toApp) == t[i].0
            && e.count == t[i].1
            && e.probability == MatrixEntries(t)[i].1
  {
    var e := probs[PairName(t[i].0)];
    var q := (e.fromApp, e.toApp);
    assert CountOf(t, q) > 0;
    var j := LookupIndex(t, q);
    assert PairName(t[j].0) == PairName(t[i].0);
    LookupDistinct(t, i);
  }

  /** `for from_app, to_app in transitions.keys(): all_apps.add(...)`. */
  method AllApps(t: seq<(Pair, nat)>) returns (apps: set<string>)
    ensures apps == Endpoints(t)
  {
    apps := {};
    var i := 0;
    while i < |t|
      invariant 0 <= i <= |t|
      invariant apps == Endpoints(t[..i])
    {
      EndpointsSnoc(t, i);
      apps := apps + {t[i].0.0};
      apps := apps + {t[i].0.1};
      i := i + 1;
    }
    assert t[..i] == t;
  }

  /** The probability loops of `build_markov_chain`: for every source
      application with a positive total, every target in `all_apps` whose
      probability is positive. The set is iterated in no particular order. */
  method TransitionProbabilities(t: seq<(Pair, nat)>, apps: set<string>) returns (probs: map<string, MarkovEntry>)
    requires Distinct(t) && AllPositive(t) && apps == Endpoints(t)
    ensures Stored(t, probs, apps)
    ensures forall i :: 0 <= i < |t| ==> PairName(t[i].0) in probs
  {
    probs := map[];
    var outer := apps;
    while outer != {}
      invariant outer <= apps
      invariant Stored(t, probs, apps)
      invariant forall i :: 0 <= i < |t| && t[i].0.0 !in outer ==> PairName(t[i].0) in probs
      decreases outer
    {
      var fromApp :| fromApp in outer;
      outer := outer - {fromApp};
      var totalFrom := RowTotal(t, fromApp);
      if totalFrom == 0 {
        forall i | 0 <= i < |t|
          ensures t[i].0.0 != fromApp
        {
          RowTotalCovers(t, i);
        }
        continue;
      }
      probs := ProbabilitiesFrom(t, apps, fromApp, probs);
    }
  }

  /** The inner loop of `build_markov_chain` for one source application. */
  method ProbabilitiesFrom(t: seq<(Pair, nat)>, apps: set<string>, fromApp: string, probs0: map<string, MarkovEntry>)
    returns (probs: map<string, MarkovEntry>)
    requires Distinct(t) && AllPositive(t) && apps == Endpoints(t)
    requires fromApp in apps && RowTotal(t, fromApp) > 0
    requires Stored(t, probs0, apps)
    ensures Stored(t, probs, apps)
    ensures probs0.Keys <= probs.Keys
    ensures forall i :: 0 <= i < |t| && t[i].0.0 == fromApp ==> PairName(t[i].0) in probs
  {
    probs := probs0;
    var totalFrom := RowTotal(t, fromApp);
    var inner := apps;
    while inner != {}
      invariant inner <= apps
      invariant Stored(t, probs, apps)
      invariant probs0.Keys <= probs.Keys
      invariant forall i :: 0 <= i < |t| && t[i].0.0 == fromApp && t[i].0.1 !in inner ==> PairName(t[i].0) in probs
      decreases inner
    {
      var toApp :| toApp in inner;
      inner := inner - {toApp};
      var count := CountOf(t, (fromApp, toApp));
      var prob := Probability(count, totalFrom);
      ProbabilityBounds(count, totalFrom);
      CountWithinRow(t, (fromApp, toApp));
      forall i | 0 <= i < |t| && t[i].0 == (fromApp, toApp)
        ensures count > 0
      {
        LookupDistinct(t, i);
      }
      if prob > 0.0 {
        probs := probs[PairName((fromApp, toApp)) := MarkovEntry(prob, count, fromApp, toApp)];
      }
    }
  }

  // -----------------------------------------------------------------------
  // Density (`evaluate_model`)

  /** `n_transitions / (n_apps * n_apps)`, 0 when there are no applications. */
  function Density(nTransitions: nat, nApps: nat): real
  {
    Probability(nTransitions, nApps * nApps)
  }

  /** The `"from->to"` names of pairs with a source in `from` and a target in
      `to`. */
  function Names(from: set<string>, to: set<string>): set<string>
  {
    set f, t | f in from && t in to :: PairName((f, t))
  }

  lemma SubsetCard<T>(a: set<T>, b: set<T>)
    requires a <= b
    ensures |a| <= |b|
  {
    assert b == a + (b - a);
  }

  lemma {:induction false} RowNamesCard(f: string, to: set<string>)
    ensures |Names({f}, to)| <= |to|
    decreases |to|
  {
    if to == {} {
      assert Names({f}, to) == {};
    } else {
      var t :| t in to;
      RowNamesCard(f, to - {t});
      forall k | k in Names({f}, to)
        ensures k in Names({f}, to - {t}) + {PairName((f, t))}
      {
        var g, u :| g in {f} && u in to && k == PairName((g, u));
        if u != t {
          assert g in {f} && u in to - {t};
        }
      }
      SubsetCard(Names({f}, to), Names({f}, to - {t}) + {PairName((f, t))});
    }
  }

  lemma NamesSplit(from: set<string>, to: set<string>, f: string)
    requires f in from
    ensures Names(from, to) <= Names(from - {f}, to) + Names({f}, to)
  {
    forall k | k in Names(from, to)
      ensures k in Names(from - {f}, to) + Names({f}, to)
    {
      var g, u :| g in from && u in to && k == PairName((g, u));
      if g == f {
        assert g in {f};
      } else {
        assert g in from - {f};
      }
    }
  }

  lemma {:induction false} NamesCard(from: set<string>, to: set<string>)
    ensures |Names(from, to)| <= |from| * |to|
    decreases |from|
  {
    if from == {} {
      assert Names(from, to) == {};
    } else {
      var f :| f in from;
      var rest, row := Names(from - {f}, to), Names({f}, to);
      NamesCard(from - {f}, to);
      RowNamesCard(f, to);
      NamesSplit(from, to, f);
      SubsetCard(Names(from, to), rest + row);
      UnionCard(rest, row);
      assert |from - {f}| == |from| - 1;
      ProductStep(|from|, |to|);
    }
  }

  lemma UnionCard<T>(a: set<T>, b: set<T>)
    ensures |a + b| <= |a| + |b|
  {
    assert a + b == a + (b - a);
  }

  lemma ProductStep(x: nat, y: nat)
    requires x > 0
    ensures x * y == (x - 1) * y + y
  {
  }

  lemma {:induction false} DistinctCard<K, V>(d: seq<(K, V)>)
    requires Distinct(d)
    ensures |KeySet(d)| == |d|
  {
    if d != [] {
      var prefix := d[..|d| - 1];
      assert Distinct(prefix) by {
        forall a, b | 0 <= a < b < |prefix|
          ensures prefix[a].0 != prefix[b].0
        {
          assert prefix[a] == d[a] && prefix[b] == d[b];
        }
      }
      DistinctCard(prefix);
      KeySetSnoc(d, |d| - 1);
      assert d[..|d|] == d;
      forall j | 0 <= j < |prefix|
        ensures prefix[j].0 != d[|d| - 1].0
      {
        assert prefix[j] == d[j];
      }
    }
  }

  /** Stored transitions name pairs of applications in `apps`, so there are
      at most `|apps| * |apps|` of them. */
  lemma StoredCard(t: seq<(Pair, nat)>, probs: map<string, MarkovEntry>, apps: set<string>)
    requires Stored(t, probs, apps)
    ensures |probs| <= |apps| * |apps|
  {
    forall k | k in probs
      ensures k in Names(apps, apps)
    {
      var f, u := probs[k].fromApp, probs[k].toApp;
      assert f in apps && u in apps && k == PairName((f, u));
    }
    SubsetCard(probs.Keys, Names(apps, apps));
    NamesCard(apps, apps);
  }

  /** The stored transitions name pairs of seen applications, so there are
      at most `n_apps * n_apps` of them and the density lies in [0, 1]. */
  lemma DensityBounds(tb: Tables, probs: map<string, MarkovEntry>)
    requires WellFormed(tb)
    requires Stored(tb.transitions, probs, Endpoints(tb.transitions))
    ensures |probs| <= |tb.appCounts| * |tb.appCounts|
    ensures 0.0 <= Density(|probs|, |tb.appCounts|) <= 1.0
  {
    StoredCard(tb.transitions, probs, Endpoints(tb.transitions));
    DistinctCard(tb.appCounts);
    ProbabilityBounds(|probs|, |tb.appCounts| * |tb.appCounts|);
  }

  // -----------------------------------------------------------------------
  // Time patterns (`build_time_patterns`)

  /** One hour of an application's `hourly_distribution`. */
  datatype HourEntry = HourEntry(probability: real, count: nat)

  /** An application's `{"hourly_distribution", "total_occurrences",
      "peak_hour"}`. */
  datatype TimePattern = TimePattern(hourlyDistribution: map<string, HourEntry>, totalOccurrences: nat, peakHour: Hour)

  /** `max(hour_counts, key=hour_counts.get)`: the first entry, in insertion
      order, whose count is the largest. */
  function PeakIndex(row: seq<(Hour, nat)>): (i: nat)
    requires row != []
    ensures i < |row|
    ensures forall j :: 0 <= j < |row| ==> row[j].1 <= row[i].1
    ensures forall j :: 0 <= j < i ==> row[j].1 < row[i].1
  {
    if |row| == 1 then 0
    else
      var best := 1 + PeakIndex(row[1..]);
      if row[best].1 > row[0].1 then best else 0
  }

  /** The hours `0 .. n - 1` of a row with a positive probability, keyed by
      `str(hour)`. */
  function Hourly(row: seq<(Hour, nat)>, total: nat, n: nat): map<string, HourEntry>
    requires n <= 24
  {
    if n == 0 then map[]
    else
      var m := Hourly(row, total, n - 1);
      var count := CountOf<Hour>(row, n - 1);
      var prob := Probability(count, total);
      if prob > 0.0 then m[NatToString(n - 1) := HourEntry(prob, count)] else m
  }

  /** With a positive total, an hour's share is positive exactly when its
      count is. */
  lemma ShareSign(count: nat, total: nat)
    requires total > 0
    ensures Probability(count, total) > 0.0 <==> count > 0
  {
    if count > 0 {
      assert count as real / total as real > 0.0;
    }
  }

  /** An hour is in the distribution exactly when it was counted, and then
      with its count and its share of the total. */
  lemma {:induction false} HourlyAt(row: seq<(Hour, nat)>, total: nat, n: nat, h: Hour)
    requires n <= 24 && total > 0 && h < n
    ensures NatToString(h) in Hourly(row, total, n) <==> CountOf(row, h) > 0
    ensures CountOf(row, h) > 0 ==>
              Hourly(row, total, n)[NatToString(h)] == HourEntry(Probability(CountOf(row, h), total), CountOf(row, h))
  {
    ShareSign(CountOf(row, h), total);
    if h < n - 1 {
      HourlyAt(row, total, n - 1, h);
      if NatToString(h) == NatToString(n - 1) {
        NatToStringInjective(h, n - 1);
      }
    } else {
      HourlyFresh(row, total, n - 1, h);
    }
  }

  /** No hour from `n` on is in the distribution of hours `0 .. n - 1`. */
  lemma {:induction false} HourlyFresh(row: seq<(Hour, nat)>, total: nat, n: nat, h: nat)
    requires n <= 24 && n <= h
    ensures NatToString(h) !in Hourly(row, total, n)
  {
    if n > 0 {
      HourlyFresh(row, total, n - 1, h);
      if NatToString(n - 1) == NatToString(h) {
        NatToStringInjective(n - 1, h);
      }
    }
  }

  /** `str(hour)` for the hours `0 .. n - 1`. */
  function HourNames(n: nat): set<string>
  {
    set h: nat | h < n :: NatToString(h)
  }

  /** Every key of the distribution is the name of an hour. */
  lemma {:induction false} HourlyKeys(row: seq<(Hour, nat)>, total: nat, n: nat)
    requires n <= 24
    ensures Hourly(row, total, n).Keys <= HourNames(n)
  {
    if n > 0 {
      HourlyKeys(row, total, n - 1);
      forall k | k in Hourly(row, total, n)
        ensures k in HourNames(n)
      {
        if k in Hourly(row, total, n - 1) {
          var h: nat :| h < n - 1 && k == NatToString(h);
          assert h < n;
        } else {
          var h: nat := n - 1;
          assert k == NatToString(h);
        }
      }
    } else {
      assert Hourly(row, total, n) == map[];
    }
  }

  /** The sum of the counts of hours `0 .. n - 1`. */
  function HourCountSum(row: seq<(Hour, nat)>, n: nat): nat
    requires n <= 24
  {
    if n == 0 then 0 else HourCountSum(row, n - 1) + CountOf<Hour>(row, n - 1)
  }

  lemma {:induction false} HourCountSumSplit(row: seq<(Hour, nat)>, n: nat)
    requires n <= 24 && row != [] && Lookup(row[1..], row[0].0).None?
    ensures HourCountSum(row, n) == HourCountSum(row[1..], n) + (if row[0].0 < n then row[0].1 else 0)
  {
    if n > 0 {
      HourCountSumSplit(row, n - 1);
      var k: Hour := n - 1;
      if row[0].0 == k {
        assert CountOf(row, k) == row[0].1;
        assert CountOf(row[1..], k) == 0;
      } else {
        assert Lookup(row, k) == Lookup(row[1..], k);
      }
    }
  }

  /** Every hour of a row lies in 0 .. 23, so the 24 hour counts add up to
      the row total. */
  lemma {:induction false} HourCountSumIsTotal(row: seq<(Hour, nat)>)
    requires Distinct(row)
    ensures HourCountSum(row, 24) == Total(row)
  {
    if row != [] {
      var tail := row[1..];
      assert Distinct(tail) by {
        forall a, b | 0 <= a < b < |tail|
          ensures tail[a].0 != tail[b].0
        {
          assert tail[a] == row[a + 1] && tail[b] == row[b + 1];
        }
      }
      assert Lookup(tail, row[0].0).None? by {
        forall j | 0 <= j < |tail|
          ensures tail[j].0 != row[0].0
        {
          assert tail[j] == row[j + 1];
        }
        LookupAbsent(tail, row[0].0);
      }
      HourCountSumSplit(row, 24);
      HourCountSumIsTotal(tail);
      assert Total(row) == row[0].1 + Total(tail);
    } else {
      NoHourCounts(row, 24);
    }
  }

  lemma {:induction false} NoHourCounts(row: seq<(Hour, nat)>, n: nat)
    requires n <= 24 && row == []
    ensures HourCountSum(row, n) == 0
  {
    if n > 0 {
      NoHourCounts(row, n - 1);
    }
  }

  /** The sum of the probabilities of hours `0 .. n - 1`. */
  function HourMass(row: seq<(Hour, nat)>, total: nat, n: nat): real
    requires n <= 24
  {
    if n == 0 then 0.0 else HourMass(row, total, n - 1) + Probability(CountOf<Hour>(row, n - 1), total)
  }

  lemma {:induction false} HourMassOfCounts(row: seq<(Hour, nat)>, total: nat, n: nat)
    requires n <= 24 && total > 0
    ensures HourMass(row, total, n) == HourCountSum(row, n) as real / total as real
  {
    if n > 0 {
      HourMassOfCounts(row, total, n - 1);
      SplitQuotient(HourCountSum(row, n - 1) as real, CountOf<Hour>(row, n - 1) as real, total as real);
    }
  }

  /** `build_time_patterns` for one application with a positive total. */
  function Pattern(row: seq<(Hour, nat)>): TimePattern
    requires Total(row) > 0
  {
    TimePattern(Hourly(row, Total(row), 24), Total(row), row[PeakIndex(row)].0)
  }

  /** A pattern's occurrences are the counts of its 24 hours, at least one,
      and its hour probabilities sum to one. */
  lemma PatternMass(row: seq<(Hour, nat)>)
    requires Distinct(row) && AllPositive(row) && row != []
    ensures Total(row) == HourCountSum(row, 24) > 0
    ensures HourMass(row, Total(row), 24) == 1.0
  {
    TotalCovers(row, 0);
    HourCountSumIsTotal(row);
    HourMassOfCounts(row, Total(row), 24);
    WholeShare(Total(row) as real);
  }

  lemma WholeShare(x: real)
    requires x > 0.0
    ensures x / x == 1.0
  {
  }

  /** No hour has a larger count than the peak hour. */
  lemma PatternPeak(row: seq<(Hour, nat)>, h: Hour)
    requires Distinct(row) && AllPositive(row) && row != []
    ensures Total(row) > 0
    ensures CountOf(row, h) <= CountOf(row, Pattern(row).peakHour)
  {
    TotalCovers(row, 0);
    var p := PeakIndex(row);
    LookupDistinct(row, p);
    if Lookup(row, h).Some? {
      var j := LookupIndex(row, h);
      LookupDistinct(row, j);
    }
  }

  /** `build_time_patterns` on the hour table: one pattern per application
      with a positive total. */
  function Patterns(p: seq<(string, seq<(Hour, nat)>)>): map<string, TimePattern>
  {
    if p == [] then map[]
    else
      var rest := Patterns(p[..|p| - 1]);
      var last := p[|p| - 1];
      if Total(last.1) == 0 then rest else rest[last.0 := Pattern(last.1)]
  }

  lemma {:induction false} PatternsAbsent(p: seq<(string, seq<(Hour, nat)>)>, app: string)
    requires forall i :: 0 <= i < |p| ==> p[i].0 != app
    ensures app !in Patterns(p)
  {
    if p != [] {
      PatternsAbsent(p[..|p| - 1], app);
    }
  }

  /** Every application of a well-formed hour table has its pattern, and no
      other name has one. */
  lemma {:induction false} PatternsAt(p: seq<(string, seq<(Hour, nat)>)>, i: nat)
    requires RowsWellFormed(p) && i < |p|
    ensures p[i].1 != [] ==> p[i].0 in Patterns(p) && Total(p[i].1) > 0 && Patterns(p)[p[i].0] == Pattern(p[i].1)
  {
    var prefix := p[..|p| - 1];
    assert RowsWellFormed(prefix) by {
      forall a, b | 0 <= a < b < |prefix|
        ensures prefix[a].0 != prefix[b].0
      {
        assert prefix[a] == p[a] && prefix[b] == p[b];
      }
      forall a | 0 <= a < |prefix|
        ensures Distinct(prefix[a].1) && AllPositive(prefix[a].1)
      {
        assert prefix[a] == p[a];
      }
    }
    if p[i].1 != [] {
      TotalCovers(p[i].1, 0);
    }
    if i < |p| - 1 {
      assert p[|p| - 1].0 != p[i].0;
      assert prefix[i] == p[i];
      PatternsAt(prefix, i);
    }
  }

  // -----------------------------------------------------------------------
  // Rankings (`build_app_rankings`)

  /** One entry of the ranking. */
  datatype Ranking = Ranking(rank: nat, app: string, occurrences: nat)

  const RankingSize: nat := 20

  function Descending(e: (string, nat)): real
  {
    -(e.1 as real)
  }

  /** `sorted(app_counts.items(), key=count, reverse=True)`: a stable sort
      on the negated count. */
  function RankedCounts(c: seq<(string, nat)>): seq<(string, nat)>
  {
    SortBy(c, Descending)
  }

  /** The ranked counts are the counts, in non-increasing order. */
  lemma RankedCountsOrdered(c: seq<(string, nat)>)
    ensures multiset(RankedCounts(c)) == multiset(c)
    ensures forall i, j :: 0 <= i < j < |RankedCounts(c)| ==> RankedCounts(c)[j].1 <= RankedCounts(c)[i].1
  {
    SortBySorted(c, Descending);
  }

  /** The top entries outrank every entry left out of the ranking. */
  lemma RankingIsTop(c: seq<(string, nat)>, i: nat, j: nat)
    requires i < RankingSize <= j < |c|
    ensures RankedCounts(c)[j].1 <= RankedCounts(c)[i].1
    ensures RankedCounts(c)[j] in multiset(c)
  {
    RankedCountsOrdered(c);
    assert RankedCounts(c)[j] in multiset(RankedCounts(c));
  }

  /** `build_app_rankings`: the first twenty ranked counts, numbered from 1. */
  function Rankings(c: seq<(string, nat)>): (r: seq<Ranking>)
    ensures |r| == if |c| < RankingSize then |c| else RankingSize
  {
    var sorted := RankedCounts(c);
    assert |multiset(sorted)| == |multiset(c)|;
    var n := if |c| < RankingSize then |c| else RankingSize;
    seq(n, i requires 0 <= i < n => Ranking(i + 1, sorted[i].0, sorted[i].1))
  }

  /** The rankings are numbered 1, 2, ..., list applications with their
      counts, in non-increasing order of occurrences, and no count left out
      exceeds a ranked one. */
  lemma RankingsSpec(c: seq<(string, nat)>)
    ensures forall i :: 0 <= i < |Rankings(c)| ==>
              Rankings(c)[i].rank == i + 1 && (Rankings(c)[i].app, Rankings(c)[i].occurrences) in multiset(c)
    ensures forall i, j :: 0 <= i < j < |Rankings(c)| ==> Rankings(c)[j].occurrences <= Rankings(c)[i].occurrences
    ensures forall i, j :: 0 <= i < |Rankings(c)| <= j < |c| ==> RankedCounts(c)[j].1 <= Rankings(c)[i].occurrences
  {
    var r, sorted := Rankings(c), RankedCounts(c);
    RankedCountsOrdered(c);
    forall i | 0 <= i < |r|
      ensures (r[i].app, r[i].occurrences) in multiset(c)
    {
      assert (r[i].app, r[i].occurrences) == sorted[i];
      assert sorted[i] in multiset(sorted);
    }
  }

  // -----------------------------------------------------------------------
  // Minimum-data check (`fetch_training_data`)

  datatype Fetch = Fetched(records: seq<TrainingRecord>, count: nat) | Insufficient(message: string)

  const InsufficientPrefix := "Insufficient data: "

  /** The check after the query: too few records raise `ValueError`;
      otherwise the records are handed on with their number. */
  function CheckTrainingData(records: seq<TrainingRecord>, minTransitions: int): (r: Fetch)
    ensures r.Fetched? <==> |records| >= minTransitions
    ensures r.Fetched? ==> r.records == records && r.count == |records|
    ensures r.Insufficient? ==>
              |r.message| > |InsufficientPrefix| && r.message[..|InsufficientPrefix|] == InsufficientPrefix
  {
    if |records| < minTransitions then
      Insufficient(InsufficientPrefix + NatToString(|records|) + " transitions (minimum "
                   + IntToString(minTransitions) + " required)")
    else Fetched(records, |records|)
  }

  // -----------------------------------------------------------------------
  // Model file name (`save_model`)

  type Year = y: nat | y <= 9999
  type TwoDigits = n: nat | n <= 99

  /** The wall-clock time `save_model` reads. */
  datatype DateTime = DateTime(year: Year, month: TwoDigits, day: TwoDigits,
                               hour: TwoDigits, minute: TwoDigits, second: TwoDigits)

  function Pow10(w: nat): (p: nat)
    ensures p >= 1
  {
    if w == 0 then 1 else 10 * Pow10(w - 1)
  }

  /** `n` in `w` zero-padded decimal digits. */
  function Digits(n: nat, w: nat): (s: string)
    requires n < Pow10(w)
    ensures |s| == w
  {
    if w == 0 then [] else Digits(n / 10, w - 1) + [DigitChar(n % 10)]
  }

  lemma {:induction false} StrLessCommonPrefix(p: string, x: string, y: string)
    ensures StrLess(p + x, p + y) <==> StrLess(x, y)
  {
    if p != [] {
      assert (p + x)[0] == p[0] == (p + y)[0];
      assert (p + x)[1..] == p[1..] + x;
      assert (p + y)[1..] == p[1..] + y;
      StrLessCommonPrefix(p[1..], x, y);
    } else {
      assert p + x == x && p + y == y;
    }
  }

  /** Two different numbers in the same width compare as strings the way
      they compare as numbers, whatever follows them. */
  lemma {:induction false} DigitsOrder(a: nat, b: nat, w: nat, x: string, y: string)
    requires a < Pow10(w) && b < Pow10(w) && a != b
    ensures StrLess(Digits(a, w) + x, Digits(b, w) + y) <==> a < b
  {
    var da, db := [DigitChar(a % 10)], [DigitChar(b % 10)];
    assert Digits(a, w) + x == Digits(a / 10, w - 1) + (da + x);
    assert Digits(b, w) + y == Digits(b / 10, w - 1) + (db + y);
    if a / 10 != b / 10 {
      DigitsOrder(a / 10, b / 10, w - 1, da + x, db + y);
    } else {
      StrLessCommonPrefix(Digits(a / 10, w - 1), da + x, db + y);
      assert (da + x)[0] == da[0] && (db + y)[0] == db[0];
    }
  }

  /** A field written in a fixed width decides the order when it differs,
      and leaves it to what follows when it does not. */
  lemma FieldOrder(a: nat, b: nat, w: nat, x: string, y: string)
    requires a < Pow10(w) && b < Pow10(w)
    ensures a != b ==> (StrLess(Digits(a, w) + x, Digits(b, w) + y) <==> a < b)
    ensures a == b ==> (StrLess(Digits(a, w) + x, Digits(b, w) + y) <==> StrLess(x, y))
  {
    if a != b {
      DigitsOrder(a, b, w, x, y);
    } else {
      StrLessCommonPrefix(Digits(a, w), x, y);
    }
  }

  /** `%H%M%S`. */
  function ClockText(d: DateTime): string
  {
    assert Pow10(2) == 100;
    Digits(d.hour, 2) + (Digits(d.minute, 2) + Digits(d.second, 2))
  }

  /** `%d_%H%M%S`. */
  function DayText(d: DateTime): string
  {
    assert Pow10(2) == 100;
    Digits(d.day, 2) + ("_" + ClockText(d))
  }

  /** `%m%d_%H%M%S`. */
  function MonthText(d: DateTime): string
  {
    assert Pow10(2) == 100;
    Digits(d.month, 2) + DayText(d)
  }

  /** `%Y%m%d_%H%M%S`. */
  function Stamp(d: DateTime): string
  {
    assert Pow10(4) == 10000;
    Digits(d.year, 4) + MonthText(d)
  }

  const VersionPrefix := "v1.0.0_"
  const ModelSuffix := ".json"

  /** `strftime("v1.0.0_%Y%m%d_%H%M%S")`. */
  function Version(d: DateTime): string
  {
    VersionPrefix + Stamp(d)
  }

  /** `app_markov_{version}.json`. */
  function ModelFileName(d: DateTime): string
  {
    InferenceEngine.AppPrefix + Version(d) + ModelSuffix
  }

  /** Chronological order of two wall-clock readings. */
  predicate Earlier(a: DateTime, b: DateTime)
  {
    if a.year != b.year then a.year < b.year
    else if a.month != b.month then a.month < b.month
    else if a.day != b.day then a.day < b.day
    else if a.hour != b.hour then a.hour < b.hour
    else if a.minute != b.minute then a.minute < b.minute
    else a.second < b.second
  }

  /** A fixed-width field followed by the rest of a name and a common
      suffix. */
  lemma FieldThen(a: nat, b: nat, w: nat, ra: string, rb: string, x: string)
    requires a < Pow10(w) && b < Pow10(w)
    ensures a != b ==> (StrLess(Digits(a, w) + ra + x, Digits(b, w) + rb + x) <==> a < b)
    ensures a == b ==> (StrLess(Digits(a, w) + ra + x, Digits(b, w) + rb + x) <==> StrLess(ra + x, rb + x))
  {
    assert Digits(a, w) + ra + x == Digits(a, w) + (ra + x);
    assert Digits(b, w) + rb + x == Digits(b, w) + (rb + x);
    FieldOrder(a, b, w, ra + x, rb + x);
  }

  lemma ClockOrder(a: DateTime, b: DateTime, x: string)
    requires a.year == b.year && a.month == b.month && a.day == b.day
    ensures StrLess(ClockText(a) + x, ClockText(b) + x) <==> Earlier(a, b)
  {
    assert Pow10(2) == 100;
    FieldThen(a.hour, b.hour, 2, Digits(a.minute, 2) + Digits(a.second, 2),
              Digits(b.minute, 2) + Digits(b.second, 2), x);
    FieldThen(a.minute, b.minute, 2, Digits(a.second, 2), Digits(b.second, 2), x);
    FieldOrder(a.second, b.second, 2, x, x);
    StrLessIrreflexive(x);
  }

  lemma DayOrder(a: DateTime, b: DateTime, x: string)
    requires a.year == b.year && a.month == b.month
    ensures StrLess(DayText(a) + x, DayText(b) + x) <==> Earlier(a, b)
  {
    assert Pow10(2) == 100;
    FieldThen(a.day, b.day, 2, "_" + ClockText(a), "_" + ClockText(b), x);
    AppendTwice("_", ClockText(a), x);
    AppendTwice("_", ClockText(b), x);
    StrLessCommonPrefix("_", ClockText(a) + x, ClockText(b) + x);
    if a.day == b.day {
      ClockOrder(a, b, x);
    }
  }

  lemma MonthOrder(a: DateTime, b: DateTime, x: string)
    requires a.year == b.year
    ensures StrLess(MonthText(a) + x, MonthText(b) + x) <==> Earlier(a, b)
  {
    assert Pow10(2) == 100;
    FieldThen(a.month, b.month, 2, DayText(a), DayText(b), x);
    if a.month == b.month {
      DayOrder(a, b, x);
    }
  }

  /** Time stamps followed by the same suffix compare in chronological
      order. */
  lemma StampOrder(a: DateTime, b: DateTime, x: string)
    ensures StrLess(Stamp(a) + x, Stamp(b) + x) <==> Earlier(a, b)
  {
    assert Pow10(4) == 10000;
    FieldThen(a.year, b.year, 4, MonthText(a), MonthText(b), x);
    if a.year == b.year {
      MonthOrder(a, b, x);
    }
  }

  lemma HeadOrder(h: string, v: string, sa: string, sb: string, x: string)
    ensures StrLess(h + (v + sa) + x, h + (v + sb) + x) <==> StrLess(sa + x, sb + x)
  {
    assert h + (v + sa) + x == (h + v) + (sa + x);
    assert h + (v + sb) + x == (h + v) + (sb + x);
    StrLessCommonPrefix(h + v, sa + x, sb + x);
  }

  /** The saved file names sort lexically in the order of the times they
      were saved at. */
  lemma FileNameOrder(a: DateTime, b: DateTime)
    ensures StrLess(ModelFileName(a), ModelFileName(b)) <==> Earlier(a, b)
  {
    HeadOrder(InferenceEngine.AppPrefix, VersionPrefix, Stamp(a), Stamp(b), ModelSuffix);
    StampOrder(a, b, ModelSuffix);
  }

  lemma FileNameMatchesGlob(d: DateTime)
    ensures InferenceEngine.Matches(ModelFileName(d), InferenceEngine.AppPrefix, ModelSuffix)
  {
    var head, v := InferenceEngine.AppPrefix, Version(d);
    var name := ModelFileName(d);
    assert name == head + v + ModelSuffix;
    assert name[..|head|] == head;
    assert name[|name| - |ModelSuffix|..] == ModelSuffix;
  }

  /** The names of models saved at the given times. */
  function SavedFiles(saves: seq<DateTime>): (files: seq<string>)
    ensures |files| == |saves|
  {
    seq(|saves|, i requires 0 <= i < |saves| => ModelFileName(saves[i]))
  }

  /** When every file matches, one of them is selected and no file is
      lexically greater. */
  lemma LatestOfMatching(files: seq<string>, prefix: string, suffix: string) returns (k: nat)
    requires files != []
    requires forall i :: 0 <= i < |files| ==> InferenceEngine.Matches(files[i], prefix, suffix)
    ensures k < |files| && InferenceEngine.SelectLatest(files, prefix, suffix) == Some(files[k])
    ensures forall j :: 0 <= j < |files| ==> !StrLess(files[k], files[j])
  {
    var chosen := InferenceEngine.SelectLatest(files, prefix, suffix);
    assert InferenceEngine.Matches(files[0], prefix, suffix);
    k :| 0 <= k < |files| && files[k] == chosen.value;
  }

  /** Among models saved at the given times, the inference engine loads the
      one saved last. */
  lemma LatestSaveIsLoaded(saves: seq<DateTime>) returns (k: nat)
    requires saves != []
    ensures k < |saves|
    ensures InferenceEngine.SelectLatest(SavedFiles(saves), InferenceEngine.AppPrefix, ModelSuffix)
            == Some(ModelFileName(saves[k]))
    ensures forall j :: 0 <= j < |saves| ==> !Earlier(saves[k], saves[j])
  {
    var files := SavedFiles(saves);
    forall i | 0 <= i < |files|
      ensures InferenceEngine.Matches(files[i], InferenceEngine.AppPrefix, ModelSuffix)
    {
      FileNameMatchesGlob(saves[i]);
    }
    k := LatestOfMatching(files, InferenceEngine.AppPrefix, ModelSuffix);
    forall j | 0 <= j < |saves|
      ensures !Earlier(saves[k], saves[j])
    {
      assert !StrLess(files[k], files[j]);
      assert files[k] == ModelFileName(saves[k]) && files[j] == ModelFileName(saves[j]);
      FileNameOrder(saves[k], saves[j]);
    }
  }

  // -----------------------------------------------------------------------
  // The trainer

  class Trainer {
    /** (from, to) -> number of transitions. */
    var transitions: seq<(Pair, nat)>
    /** application -> durations of the transitions out of it. */
    var durations: seq<(string, seq<real>)>
    /** source application -> hour -> number of transitions. */
    var timePatterns: seq<(string, seq<(Hour, nat)>)>
    /** application -> number of transitions it took part in, per end. */
    var appCounts: seq<(string, nat)>

    function Current(): Tables
      reads this`transitions, this`durations, this`timePatterns, this`appCounts
    {
      Tables(transitions, durations, timePatterns, appCounts)
    }

    ghost predicate Valid()
      reads this`transitions, this`durations, this`timePatterns, this`appCounts
    {
      WellFormed(Current())
    }

    constructor()
      ensures Valid()
      ensures Current() == Tables([], [], [], [])
    {
      transitions := [];
      durations := [];
      timePatterns := [];
      appCounts := [];
    }

    /** `build_markov_chain(records)`: counts the records, then stores the
        positive transition probabilities between the applications seen. */
    method BuildMarkovChain(records: seq<TrainingRecord>) returns (probs: map<string, MarkovEntry>)
      requires Valid()
      modifies this`transitions, this`durations, this`timePatterns, this`appCounts
      ensures Valid()
      ensures Current() == TallyAll(old(Current()), records)
      ensures Stored(transitions, probs, Endpoints(transitions))
      ensures forall i :: 0 <= i < |transitions| ==> PairName(transitions[i].0) in probs
    {
      TallyAllKeeps(Current(), records);
      CountRecords(records);
      var apps := AllApps(transitions);
      probs := TransitionProbabilities(transitions, apps);
    }

    /** The counting loop of `build_markov_chain`. */
    method CountRecords(records: seq<TrainingRecord>)
      modifies this`transitions, this`durations, this`timePatterns, this`appCounts
      ensures Current() == TallyAll(old(Current()), records)
    {
      ghost var start := Current();
      var i := 0;
      while i < |records|
        invariant 0 <= i <= |records|
        invariant Current() == TallyAll(start, records[..i])
      {
        CountNext(records, i, start);
        i := i + 1;
      }
      assert records[..i] == records;
    }

    /** One turn of the loop above. */
    method CountNext(records: seq<TrainingRecord>, i: nat, ghost start: Tables)
      requires i < |records| && Current() == TallyAll(start, records[..i])
      modifies this`transitions, this`durations, this`timePatterns, this`appCounts
      ensures Current() == TallyAll(start, records[..i + 1])
    {
      TallyAllSnoc(start, records, i);
      CountRecord(records[i]);
    }

    /** The body of the counting loop for one record. */
    method CountRecord(r: TrainingRecord)
      modifies this`transitions, this`durations, this`timePatterns, this`appCounts
      ensures Current() == Tally(old(Current()), r)
    {
      transitions := Increment(transitions, (r.fromApp, r.toApp));
      durations := AppendAt(durations, r.fromApp, r.durationMs);
      timePatterns := IncrementIn(timePatterns, r.fromApp, r.hour);
      appCounts := Increment(appCounts, r.fromApp);
      appCounts := Increment(appCounts, r.toApp);
    }

    /** `build_time_patterns`: the hour profile of every application that
        has a transition. */
    method BuildTimePatterns() returns (patterns: map<string, TimePattern>)
      ensures patterns == Patterns(timePatterns)
    {
      patterns := map[];
      var i := 0;
      while i < |timePatterns|
        invariant 0 <= i <= |timePatterns|
        invariant patterns == Patterns(timePatterns[..i])
      {
        var (app, row) := timePatterns[i];
        assert timePatterns[..i + 1][..i] == timePatterns[..i];
        var total := Total(row);
        if total > 0 {
          var hourly := HourlyDistribution(row, total);
          patterns := patterns[app := TimePattern(hourly, total, row[PeakIndex(row)].0)];
        }
        i := i + 1;
      }
      assert timePatterns[..i] == timePatterns;
    }

    /** The hour loop of `build_time_patterns`. */
    static method HourlyDistribution(row: seq<(Hour, nat)>, total: nat) returns (hourly: map<string, HourEntry>)
      requires total > 0
      ensures hourly == Hourly(row, total, 24)
    {
      hourly := map[];
      var hour: nat := 0;
      while hour < 24
        invariant hour <= 24
        invariant hourly == Hourly(row, total, hour)
      {
        var count := CountOf<Hour>(row, hour);
        var prob := count as real / total as real;
        if prob > 0.0 {
          hourly := hourly[NatToString(hour) := HourEntry(prob, count)];
        }
        hour := hour + 1;
      }
    }

    /** `build_app_rankings`. */
    method BuildAppRankings() returns (rankings: seq<Ranking>)
      ensures rankings == Rankings(appCounts)
    {
      var sorted := RankedCounts(appCounts);
      assert |multiset(sorted)| == |multiset(appCounts)|;
      var n := if |sorted| < RankingSize then |sorted| else RankingSize;
      ghost var target := Rankings(appCounts);
      assert |target| == n;
      rankings := [];
      var i := 0;
      while i < n
        invariant 0 <= i <= n
        invariant rankings == target[..i]
      {
        assert target[i] == Ranking(i + 1, sorted[i].0, sorted[i].1);
        assert target[..i + 1] == target[..i] + [target[i]];
        rankings := rankings + [Ranking(i + 1, sorted[i].0, sorted[i].1)];
        i := i + 1;
      }
      assert target[..n] == target;
    }
  }
}
