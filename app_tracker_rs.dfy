/** The application usage tracker of the Rust extractors. It keeps the same
    tables as the Python tracker: (from, to) switch counts, the seconds each
    application stayed in front, per-application hour-of-day counts and the
    last 1000 switch events. The hour counted on a switch is the wall clock's
    hour at the moment of the call, given here as the parameter `nowHour`.

    Counters are unbounded: the `u32` counters of the source would overflow
    only after 2^32 switches. */
module AppTrackerRs {
  import opened Common
  import opened CountTables

  const RecentCapacity: nat := 1000

  /** An entry of `recent_events`. */
  datatype AppEvent = AppEvent(timestamp: real, appName: string)

  /** One application's entry of `calculate_usage_stats`. */
  datatype UsageStats = UsageStats(totalTimeSeconds: real, avgSessionSeconds: real, sessionCount: nat)

  /** The statistics of a non-empty list of session lengths. */
  function StatsOf(ds: seq<real>): UsageStats
    requires ds != []
  {
    UsageStats(Sum(ds), Sum(ds) / |ds| as real, |ds|)
  }

  /** The count, the total and the average of the session lengths. */
  lemma StatsOfMeaning(ds: seq<real>)
    requires ds != []
    ensures StatsOf(ds).sessionCount == |ds| && StatsOf(ds).totalTimeSeconds == Sum(ds)
    ensures StatsOf(ds).avgSessionSeconds * |ds| as real == Sum(ds)
  {
  }

  /** `calculate_usage_stats` on a duration table: one entry per application
      with at least one recorded session. */
  function Usage(d: seq<(string, seq<real>)>): map<string, UsageStats>
  {
    if d == [] then map[]
    else
      var rest := Usage(d[..|d| - 1]);
      var last := d[|d| - 1];
      if last.1 == [] then rest else rest[last.0 := StatsOf(last.1)]
  }

  lemma {:induction false} UsageAbsent(d: seq<(string, seq<real>)>, app: string)
    requires forall i :: 0 <= i < |d| ==> d[i].0 != app
    ensures app !in Usage(d)
  {
    if d != [] {
      UsageAbsent(d[..|d| - 1], app);
    }
  }

  lemma {:induction false} UsageAt(d: seq<(string, seq<real>)>, i: nat)
    requires Distinct(d) && i < |d|
    ensures d[i].0 in Usage(d) <==> d[i].1 != []
    ensures d[i].1 != [] ==> Usage(d)[d[i].0] == StatsOf(d[i].1)
  {
    var prefix := d[..|d| - 1];
    assert Distinct(prefix) by {
      forall a, b | 0 <= a < b < |prefix|
        ensures prefix[a].0 != prefix[b].0
      {
        assert prefix[a] == d[a] && prefix[b] == d[b];
      }
    }
    if i == |d| - 1 {
      forall j | 0 <= j < |prefix|
        ensures prefix[j].0 != d[i].0
      {
        assert prefix[j] == d[j];
      }
      UsageAbsent(prefix, d[i].0);
    } else {
      assert d[|d| - 1].0 != d[i].0;
      assert prefix[i] == d[i];
      UsageAt(prefix, i);
    }
  }

  /** The usage statistics hold an application exactly when it has recorded
      sessions, and then its total, its average and its session count. */
  lemma UsageAgree(d: seq<(string, seq<real>)>, app: string)
    requires Distinct(d)
    ensures app in Usage(d) <==> DurationsOf(d, app) != []
    ensures app in Usage(d) ==>
              var ds := DurationsOf(d, app);
              && Usage(d)[app].sessionCount == |ds|
              && Usage(d)[app].totalTimeSeconds == Sum(ds)
              && Usage(d)[app].avgSessionSeconds * |ds| as real == Sum(ds)
  {
    if Lookup(d, app).Some? {
      var i := LookupIndex(d, app);
      UsageAt(d, i);
      assert DurationsOf(d, app) == d[i].1;
      if d[i].1 != [] {
        StatsOfMeaning(d[i].1);
      }
    } else {
      AbsentKey(d, app);
      UsageAbsent(d, app);
    }
  }

  /** Every session counted in the statistics ended with one recorded
      transition out of the application, so the session count is the
      application's transition row total. */
  lemma SessionsAreTransitions(t: seq<(Pair, nat)>, d: seq<(string, seq<real>)>, app: string)
    requires TablesOk(t, d)
    ensures app in Usage(d) <==> RowTotal(t, app) > 0
    ensures app in Usage(d) ==> Usage(d)[app].sessionCount == RowTotal(t, app)
  {
    UsageAgree(d, app);
  }

  /** `len >= 1000` then `pop_front`, then `push_back`: on a deque holding at
      most 1000 events this is a bounded append. */
  function PushBounded(recent: seq<AppEvent>, e: AppEvent): (r: seq<AppEvent>)
    requires |recent| <= RecentCapacity
    ensures r == DequeAppend(recent, e, RecentCapacity)
  {
    if |recent| >= RecentCapacity then recent[1..] + [e] else recent + [e]
  }

  class Tracker {
    /** (from, to) -> number of switches. */
    var transitions: seq<(Pair, nat)>
    /** application -> seconds it stayed in front, one per switch away from it. */
    var durations: seq<(string, seq<real>)>
    /** application -> wall-clock hour -> number of switches to it. */
    var timePatterns: seq<(string, seq<(nat, nat)>)>
    var currentApp: Option<string>
    /** When `currentApp` came to the front. */
    var currentStart: Option<real>
    var recentEvents: seq<AppEvent>

    /** The tables are dictionaries with positive counts, every switch away
        from an application left one transition and one duration, the recent
        events fit their deque, and a current application has a start time. */
    ghost predicate Valid()
      reads this`transitions, this`durations, this`timePatterns, this`currentApp,
            this`currentStart, this`recentEvents
    {
      && TablesOk(transitions, durations)
      && RowsWellFormed(timePatterns)
      && |recentEvents| <= RecentCapacity
      && (currentApp.Some? ==> currentStart.Some?)
    }

    constructor()
      ensures Valid()
      ensures transitions == [] && durations == [] && timePatterns == []
      ensures currentApp == None && currentStart == None && recentEvents == []
    {
      transitions := [];
      durations := [];
      timePatterns := [];
      currentApp := None;
      currentStart := None;
      recentEvents := [];
    }

    /** `handle_app_switch(app_name, timestamp)` with the wall clock at
        `nowHour`. A transition and a duration are recorded only when a
        different application with a start time was in front. */
    method HandleAppSwitch(appName: string, timestamp: real, nowHour: nat)
      requires Valid()
      modifies this`transitions, this`durations, this`timePatterns, this`currentApp,
               this`currentStart, this`recentEvents
      ensures Valid()
      ensures currentApp == Some(appName) && currentStart == Some(timestamp)
      ensures timePatterns == IncrementIn(old(timePatterns), appName, nowHour)
      ensures recentEvents == DequeAppend(old(recentEvents), AppEvent(timestamp, appName), RecentCapacity)
      ensures old(currentApp).Some? && old(currentApp).value != appName && old(currentStart).Some? ==>
                && transitions == Increment(old(transitions), (old(currentApp).value, appName))
                && durations == AppendAt(old(durations), old(currentApp).value, timestamp - old(currentStart).value)
      ensures !(old(currentApp).Some? && old(currentApp).value != appName && old(currentStart).Some?) ==>
                transitions == old(transitions) && durations == old(durations)
    {
      LeaveApp(appName, timestamp);
      EnterApp(appName, timestamp, nowHour);
    }

    /** The part of `handle_app_switch` before the new application is
        entered: a switch away from a different application with a start
        time is recorded. */
    method LeaveApp(appName: string, timestamp: real)
      requires TablesOk(transitions, durations)
      modifies this`transitions, this`durations, this`currentApp
      ensures TablesOk(transitions, durations) && currentApp == None
      ensures old(currentApp).Some? && old(currentApp).value != appName && currentStart.Some? ==>
                && transitions == Increment(old(transitions), (old(currentApp).value, appName))
                && durations == AppendAt(old(durations), old(currentApp).value, timestamp - currentStart.value)
      ensures !(old(currentApp).Some? && old(currentApp).value != appName && currentStart.Some?) ==>
                transitions == old(transitions) && durations == old(durations)
    {
      var previous := currentApp;
      currentApp := None;
      if previous.Some? && previous.value != appName && currentStart.Some? {
        RecordTransition(previous.value, appName, timestamp - currentStart.value);
      }
    }

    /** The transition and duration of a switch away from `prevApp`. */
    method RecordTransition(prevApp: string, appName: string, duration: real)
      requires TablesOk(transitions, durations)
      modifies this`transitions, this`durations
      ensures TablesOk(transitions, durations)
      ensures transitions == Increment(old(transitions), (prevApp, appName))
      ensures durations == AppendAt(old(durations), prevApp, duration)
    {
      RecordKeepsTables(transitions, durations, prevApp, appName, duration);
      transitions := Increment(transitions, (prevApp, appName));
      durations := AppendAt(durations, prevApp, duration);
    }

    /** The steps of `handle_app_switch` that run on every call. */
    method EnterApp(appName: string, timestamp: real, nowHour: nat)
      requires RowsWellFormed(timePatterns) && |recentEvents| <= RecentCapacity
      modifies this`currentApp, this`currentStart, this`timePatterns, this`recentEvents
      ensures RowsWellFormed(timePatterns) && |recentEvents| <= RecentCapacity
      ensures currentApp == Some(appName) && currentStart == Some(timestamp)
      ensures timePatterns == IncrementIn(old(timePatterns), appName, nowHour)
      ensures recentEvents == DequeAppend(old(recentEvents), AppEvent(timestamp, appName), RecentCapacity)
    {
      currentApp := Some(appName);
      currentStart := Some(timestamp);
      IncrementInKeepsRows(timePatterns, appName, nowHour);
      timePatterns := IncrementIn(timePatterns, appName, nowHour);
      recentEvents := PushBounded(recentEvents, AppEvent(timestamp, appName));
    }

    /** `calculate_transition_matrix`: row totals first, then each count over
        its row total. The `unwrap_or(1)` default never applies, and no total
        is zero, because every count is positive. */
    method CalculateTransitionMatrix() returns (probs: map<string, real>)
      requires Valid()
      ensures probs == Matrix(transitions)
    {
      var totals := FromTotals(transitions);
      probs := Divide(transitions, totals);
    }

    /** The first loop of `calculate_transition_matrix`. */
    static method FromTotals(t: seq<(Pair, nat)>) returns (totals: map<string, nat>)
      ensures forall f :: Get0(totals, f) == RowTotal(t, f)
      ensures forall j :: 0 <= j < |t| ==> t[j].0.0 in totals
    {
      totals := map[];
      var i := 0;
      while i < |t|
        invariant 0 <= i <= |t|
        invariant forall f :: Get0(totals, f) == RowTotal(t[..i], f)
        invariant forall j :: 0 <= j < i ==> t[j].0.0 in totals
      {
        ghost var before := totals;
        totals := totals[t[i].0.0 := Get0(totals, t[i].0.0) + t[i].1];
        forall f
          ensures Get0(totals, f) == RowTotal(t[..i + 1], f)
        {
          assert Get0(totals, f) == Get0(before, f) + (if t[i].0.0 == f then t[i].1 else 0);
          RowTotalSnoc(t, i, f);
        }
        i := i + 1;
      }
      assert t[..i] == t;
    }

    /** The second loop of `calculate_transition_matrix`. */
    static method Divide(t: seq<(Pair, nat)>, totals: map<string, nat>) returns (probs: map<string, real>)
      requires AllPositive(t)
      requires forall f :: Get0(totals, f) == RowTotal(t, f)
      requires forall j :: 0 <= j < |t| ==> t[j].0.0 in totals
      ensures probs == Matrix(t)
    {
      ghost var named := NamedEntries(t);
      probs := map[];
      var i := 0;
      while i < |t|
        invariant 0 <= i <= |t|
        invariant probs == Keyed(named[..i])
      {
        var fromApp := t[i].0.0;
        var total: nat := if fromApp in totals then totals[fromApp] else 1;
        RowTotalCovers(t, i);
        assert total == Get0(totals, fromApp) == RowTotal(t, fromApp) > 0;
        assert named[i] == (PairName(t[i].0), t[i].1 as real / total as real);
        KeyedSnoc(named, i);
        probs := probs[PairName(t[i].0) := t[i].1 as real / total as real];
        i := i + 1;
      }
      assert named[..i] == named;
    }

    /** `calculate_time_preferences`: for each application, its hour counts
        over their sum. */
    method CalculateTimePreferences() returns (prefs: map<string, map<nat, real>>)
      requires Valid()
      ensures prefs == TimePreferences(timePatterns)
    {
      var p := timePatterns;
      ghost var named := seq(|p|, k requires 0 <= k < |p| => (p[k].0, HourMap(p[k].1)));
      prefs := map[];
      var i := 0;
      while i < |p|
        invariant 0 <= i <= |p|
        invariant prefs == Keyed(named[..i])
      {
        var hourProbs := HourProbabilities(p[i].1);
        KeyedSnoc(named, i);
        prefs := prefs[p[i].0 := hourProbs];
        i := i + 1;
      }
      assert named[..i] == named;
    }

    /** The inner loops of `calculate_time_preferences` for one application:
        the sum of its counts, then each count over that sum. */
    static method HourProbabilities(row: seq<(nat, nat)>) returns (hourProbs: map<nat, real>)
      requires AllPositive(row)
      ensures hourProbs == HourMap(row)
    {
      var total := SumCounts(row);
      hourProbs := DivideCounts(row, total);
    }

    static method SumCounts(row: seq<(nat, nat)>) returns (total: nat)
      ensures total == Total(row)
    {
      total := 0;
      var j := 0;
      while j < |row|
        invariant 0 <= j <= |row|
        invariant total == Total(row[..j])
      {
        TotalSnoc(row, j);
        total := total + row[j].1;
        j := j + 1;
      }
      assert row[..j] == row;
    }

    static method DivideCounts(row: seq<(nat, nat)>, total: nat) returns (hourProbs: map<nat, real>)
      requires AllPositive(row) && total == Total(row)
      ensures hourProbs == HourMap(row)
    {
      ghost var shares := HourShares(row);
      hourProbs := map[];
      var j := 0;
      while j < |row|
        invariant 0 <= j <= |row|
        invariant hourProbs == Keyed(shares[..j])
      {
        TotalCovers(row, j);
        assert shares[j] == (row[j].0, row[j].1 as real / total as real);
        KeyedSnoc(shares, j);
        hourProbs := hourProbs[row[j].0 := row[j].1 as real / total as real];
        j := j + 1;
      }
      assert shares[..j] == shares;
    }

    /** `calculate_usage_stats`: applications without sessions are skipped. */
    method CalculateUsageStats() returns (stats: map<string, UsageStats>)
      ensures stats == Usage(durations)
    {
      var d := durations;
      stats := map[];
      var i := 0;
      while i < |d|
        invariant 0 <= i <= |d|
        invariant stats == Usage(d[..i])
      {
        assert d[..i + 1][..i] == d[..i];
        var app := d[i].0;
        var ds := d[i].1;
        if ds != [] {
          var mean := Sum(ds) / |ds| as real;
          var totalTime := Sum(ds);
          stats := stats[app := UsageStats(totalTime, mean, |ds|)];
        }
        i := i + 1;
      }
      assert d[..i] == d;
    }
  }
}
