/** Grouping a newest-first list of signals into bursts for the operator dashboard. */
module SignalGroups {
  import opened Basics

  datatype Key = Key(strategy: string, direction: string, market: Option<string>)

  datatype Quote = Quote(binance: Option<real>, chainlink: Option<real>, upAsk: Option<real>, downAsk: Option<real>,
                         fidelity: Option<string>)

  datatype Signal = Signal(id: int, timestamp: nat, key: Key, quote: Quote)

  /** One burst: its key, time bounds, size, the ids at both ends, and the newest signal's quotes. */
  datatype Group = Group(key: Key, start: nat, end: nat, count: nat, firstId: int, lastId: int, quote: Quote)

  /** Two neighbours of the list belong to one burst. */
  predicate Joined(newer: Signal, older: Signal, gap: nat) {
    newer.key == older.key && SatSub(newer.timestamp, older.timestamp) <= gap
  }

  type Run = r: seq<Signal> | |r| > 0 witness [Signal(0, 0, Key("", "", None), Quote(None, None, None, None, None))]

  function Flatten(runs: seq<Run>): seq<Signal> {
    if runs == [] then [] else Flatten(runs[..|runs| - 1]) + runs[|runs| - 1]
  }

  predicate Chained(r: seq<Signal>, gap: nat) {
    forall i | 0 <= i < |r| - 1 :: Joined(r[i], r[i + 1], gap)
  }

  /** The specification: a split of the list into maximal runs of joined neighbours. */
  ghost predicate IsSplit(signals: seq<Signal>, runs: seq<Run>, gap: nat) {
    && Flatten(runs) == signals
    && (forall k | 0 <= k < |runs| :: Chained(runs[k], gap))
    && (forall k | 0 <= k < |runs| - 1 :: !Joined(runs[k][|runs[k]| - 1], runs[k + 1][0], gap))
  }

  /** What the dashboard shows of one run, newest signal first. */
  function Summary(r: Run): Group {
    var newest, oldest := r[0], r[|r| - 1];
    Group(newest.key, oldest.timestamp, newest.timestamp, |r|, newest.id, oldest.id, newest.quote)
  }

  function Summaries(runs: seq<Run>): seq<Group> {
    seq(|runs|, i requires 0 <= i < |runs| => Summary(runs[i]))
  }

  // ----- The split exists, is unique, and a prefix of the list fixes all but its last run -----

  function Split(signals: seq<Signal>, gap: nat): (runs: seq<Run>)
    ensures signals == [] <==> runs == []
  {
    if signals == [] then []
    else
      var n := |signals| - 1;
      var runs := Split(signals[..n], gap);
      if n > 0 && Joined(signals[n - 1], signals[n], gap) then
        runs[..|runs| - 1] + [runs[|runs| - 1] + [signals[n]]]
      else runs + [[signals[n]]]
  }

  lemma FlattenPush(runs: seq<Run>, r: Run)
    ensures Flatten(runs + [r]) == Flatten(runs) + r
  {
    assert (runs + [r])[..|runs|] == runs;
  }

  lemma FlattenLast(runs: seq<Run>)
    requires runs != []
    ensures Flatten(runs) != []
    ensures Flatten(runs)[|Flatten(runs)| - 1] == runs[|runs| - 1][|runs[|runs| - 1]| - 1]
  {
  }

  lemma FlattenExtend(init: seq<Run>, last: Run, longer: Run, x: Signal)
    requires longer == last + [x]
    ensures Flatten(init + [longer]) == Flatten(init + [last]) + [x]
  {
    hide Flatten;
    FlattenPush(init, last);
    FlattenPush(init, longer);
    assert Flatten(init) + (last + [x]) == (Flatten(init) + last) + [x];
  }

  /** A signal joined to the last one extends the last run. */
  lemma ExtendSplit(signals: seq<Signal>, runs: seq<Run>, x: Signal, gap: nat)
    requires IsSplit(signals, runs, gap) && signals != []
    requires Joined(signals[|signals| - 1], x, gap)
    ensures runs != []
    ensures IsSplit(signals + [x], runs[..|runs| - 1] + [runs[|runs| - 1] + [x]], gap)
  {
    NonEmpty(signals, runs, gap);
    hide Joined, Flatten;
    FlattenLast(runs);
    var m := |runs| - 1;
    var longer: Run := runs[m] + [x];
    var runs': seq<Run> := runs[..m] + [longer];
    assert runs == runs[..m] + [runs[m]];
    FlattenExtend(runs[..m], runs[m], longer, x);
    assert Chained(runs'[m], gap) by { assert Chained(runs[m], gap); }
    assert forall k | 0 <= k < m :: runs'[k] == runs[k];
  }

  lemma NonEmpty(signals: seq<Signal>, runs: seq<Run>, gap: nat)
    requires IsSplit(signals, runs, gap)
    ensures signals == [] <==> runs == []
  {
    if runs != [] { FlattenLast(runs); }
  }

  /** A signal not joined to the last one starts a run. */
  lemma StartSplit(signals: seq<Signal>, runs: seq<Run>, x: Signal, gap: nat)
    requires IsSplit(signals, runs, gap)
    requires signals == [] || !Joined(signals[|signals| - 1], x, gap)
    ensures IsSplit(signals + [x], runs + [[x]], gap)
  {
    hide Joined, Flatten;
    if runs != [] { FlattenLast(runs); }
    var runs': seq<Run> := runs + [[x]];
    FlattenPush(runs, [x]);
    assert forall k | 0 <= k < |runs| :: runs'[k] == runs[k];
  }

  lemma {:induction false} SplitIsSplit(signals: seq<Signal>, gap: nat)
    ensures IsSplit(signals, Split(signals, gap), gap)
  {
    if signals != [] {
      hide IsSplit, Joined;
      var n := |signals| - 1;
      var init := signals[..n];
      SplitIsSplit(init, gap);
      assert signals == init + [signals[n]];
      if n > 0 && Joined(signals[n - 1], signals[n], gap) {
        ExtendSplit(init, Split(init, gap), signals[n], gap);
      } else {
        StartSplit(init, Split(init, gap), signals[n], gap);
      }
    } else {
      assert Split(signals, gap) == [];
    }
  }

  /** A last run of one signal was started by it. */
  lemma UnsplitStarted(signals: seq<Signal>, runs: seq<Run>, gap: nat)
    requires IsSplit(signals, runs, gap) && runs != [] && |runs[|runs| - 1]| == 1
    ensures signals != []
    ensures var m, n := |runs| - 1, |signals| - 1;
            && IsSplit(signals[..n], runs[..m], gap)
            && runs == runs[..m] + [[signals[n]]]
            && (n > 0 ==> !Joined(signals[n - 1], signals[n], gap))
  {
    hide Joined, Flatten;
    var m := |runs| - 1;
    var rest, last := runs[..m], runs[m];
    assert runs == rest + [last];
    FlattenPush(rest, last);
    var n := |signals| - 1;
    assert signals[..n] == Flatten(rest) && last == [signals[n]];
    if rest != [] {
      FlattenLast(rest);
      assert !Joined(runs[m - 1][|runs[m - 1]| - 1], runs[m][0], gap);
    } else {
      EmptyFlatten();
    }
    assert forall k | 0 <= k < m :: rest[k] == runs[k];
  }

  lemma EmptyFlatten()
    ensures Flatten([]) == []
  {
  }

  /** A longer last run was extended by its last signal. */
  lemma UnsplitExtended(signals: seq<Signal>, runs: seq<Run>, gap: nat) returns (rest: seq<Run>)
    requires IsSplit(signals, runs, gap) && runs != [] && |runs[|runs| - 1]| > 1
    ensures |signals| > 1
    ensures var n := |signals| - 1;
            && IsSplit(signals[..n], rest, gap)
            && rest != [] && runs == rest[..|rest| - 1] + [rest[|rest| - 1] + [signals[n]]]
            && Joined(signals[n - 1], signals[n], gap)
  {
    hide Joined, Flatten;
    var m := |runs| - 1;
    var init, last := runs[..m], runs[m];
    var shorter: Run := last[..|last| - 1];
    rest := init + [shorter];
    assert runs == init + [last];
    FlattenPush(init, last);
    FlattenPush(init, shorter);
    var n := |signals| - 1;
    assert last == shorter + [signals[n]];
    assert Flatten(rest) == signals[..n];
    assert Joined(last[|last| - 2], last[|last| - 1], gap) by { assert Chained(last, gap); }
    assert signals[n - 1] == last[|last| - 2];
    assert Chained(shorter, gap) by { assert Chained(last, gap); }
    assert forall k | 0 <= k < m :: rest[k] == runs[k];
    assert rest[..m] == init;
  }

  /** The split is unique. */
  lemma {:induction false} SplitUnique(signals: seq<Signal>, runs: seq<Run>, gap: nat)
    requires IsSplit(signals, runs, gap)
    ensures runs == Split(signals, gap)
    decreases |signals|
  {
    hide IsSplit, Joined, Flatten;
    NonEmpty(signals, runs, gap);
    if runs != [] {
      var n := |signals| - 1;
      if |runs[|runs| - 1]| == 1 {
        UnsplitStarted(signals, runs, gap);
        SplitUnique(signals[..n], runs[..|runs| - 1], gap);
      } else {
        var rest := UnsplitExtended(signals, runs, gap);
        SplitUnique(signals[..n], rest, gap);
      }
    }
  }

  /** Reading on never changes a burst that has already ended. */
  lemma {:induction false} SplitGrows(signals: seq<Signal>, gap: nat, n: nat)
    requires n <= |signals|
    ensures var early, all := Split(signals[..n], gap), Split(signals, gap);
            |early| <= |all| && (early != [] ==> early[..|early| - 1] == all[..|early| - 1])
    decreases |signals| - n
  {
    if n == |signals| {
      assert signals[..n] == signals;
    } else {
      SplitGrows(signals, gap, n + 1);
      assert signals[..n + 1][..n] == signals[..n];
      var early, next, all := Split(signals[..n], gap), Split(signals[..n + 1], gap), Split(signals, gap);
      if early != [] {
        var k := |early| - 1;
        assert next[..k] == early[..k];
        assert k <= |next| - 1;
        assert next[..|next| - 1][..k] == next[..k];
        assert all[..|next| - 1][..k] == all[..k];
      }
    }
  }

  /**
   * The agent's loop: it keeps one open accumulator, extends it or closes it at each signal, and
   * stops as soon as `limit` bursts are closed. It returns the first `limit` runs of the split.
   */
  method GetSignalGroups(signals: seq<Signal>, limit: nat, gap: nat, rawLimit: nat)
    returns (groups: seq<Group>, scanned: nat)
    requires |signals| <= rawLimit
    ensures limit == 0 || rawLimit == 0 ==> groups == [] && scanned == 0
    ensures limit > 0 && rawLimit > 0 ==>
              && scanned == |signals|
              && var all := Summaries(Split(signals, gap));
                 groups == if |all| <= limit then all else all[..limit]
  {
    if limit == 0 || rawLimit == 0 {
      return [], 0;
    }
    groups, scanned := [], |signals|;
    var current: Option<Group> := None;
    var i := 0;
    ghost var runs: seq<Run> := [];
    while i < |signals|
      invariant 0 <= i <= |signals| && |groups| < limit
      invariant runs == Split(signals[..i], gap)
      invariant i == 0 ==> current == None && groups == []
      invariant i > 0 ==> current.Some? && runs != [] && Summaries(runs) == groups + [current.value]
      invariant i > 0 ==> current.value.start == signals[i - 1].timestamp && current.value.key == signals[i - 1].key
    {
      hide Summaries, Summary;
      var signal := signals[i];
      ghost var next: seq<Run> := Split(signals[..i + 1], gap);
      assert signals[..i + 1][..i] == signals[..i];
      if current.Some? && current.value.key == signal.key && SatSub(current.value.start, signal.timestamp) <= gap {
        var g := current.value;
        ExtendSummary(runs, groups, g, signal);
        current := Some(g.(start := signal.timestamp, count := g.count + 1, lastId := signal.id));
      } else {
        StartSummary(runs, signal);
        if current.Some? {
          groups := groups + [current.value];
          if |groups| >= limit {
            SummariesCount(runs);
            CutShort(signals, gap, i, limit);
            return;
          }
        }
        current := Some(Group(signal.key, signal.timestamp, signal.timestamp, 1, signal.id, signal.id, signal.quote));
      }
      runs := next;
      i := i + 1;
    }
    assert signals[..|signals|] == signals;
    if current.Some? {
      groups := groups + [current.value];
    }
    SummariesCount(runs);
  }

  lemma SummariesCount(runs: seq<Run>)
    ensures |Summaries(runs)| == |runs|
    ensures runs == [] ==> Summaries(runs) == []
  {
  }

  /** Extending the last run extends its accumulator. */
  lemma ExtendSummary(runs: seq<Run>, groups: seq<Group>, g: Group, x: Signal)
    requires runs != [] && Summaries(runs) == groups + [g]
    ensures Summaries(runs[..|runs| - 1] + [runs[|runs| - 1] + [x]])
         == groups + [g.(start := x.timestamp, count := g.count + 1, lastId := x.id)]
  {
    var k := |runs| - 1;
    var longer: Run := runs[k] + [x];
    assert g == Summaries(runs)[k] == Summary(runs[k]);
    assert Summary(longer) == g.(start := x.timestamp, count := g.count + 1, lastId := x.id);
    assert Summaries(runs)[..k] == groups;
    assert Summaries(runs[..k] + [longer]) == Summaries(runs)[..k] + [Summary(longer)];
  }

  /** A new run starts a new accumulator. */
  lemma StartSummary(runs: seq<Run>, x: Signal)
    ensures Summaries(runs + [[x]])
            == Summaries(runs) + [Group(x.key, x.timestamp, x.timestamp, 1, x.id, x.id, x.quote)]
  {
    var single: Run := [x];
    assert Summary(single) == Group(x.key, x.timestamp, x.timestamp, 1, x.id, x.id, x.quote);
  }

  /** Stopping early is sound: the closed bursts are already the first ones of the full split. */
  lemma CutShort(signals: seq<Signal>, gap: nat, i: nat, limit: nat)
    requires 0 < i < |signals| && !Joined(signals[i - 1], signals[i], gap)
    requires |Split(signals[..i], gap)| == limit
    ensures var all := Summaries(Split(signals, gap));
            |all| > limit && all[..limit] == Summaries(Split(signals[..i], gap))
  {
    var early, next, all := Split(signals[..i], gap), Split(signals[..i + 1], gap), Split(signals, gap);
    assert signals[..i + 1][..i] == signals[..i];
    assert next == early + [[signals[i]]];
    SplitGrows(signals, gap, i + 1);
    assert next[..limit] == early;
    assert all[..limit] == early;
    assert Summaries(all)[..limit] == Summaries(all[..limit]);
  }

  ghost predicate NewestFirst(signals: seq<Signal>) {
    forall i, j | 0 <= i <= j < |signals| :: signals[i].timestamp >= signals[j].timestamp
  }

  lemma {:induction false} RunsNewestFirst(runs: seq<Run>, k: nat)
    requires NewestFirst(Flatten(runs)) && k < |runs|
    ensures NewestFirst(runs[k])
  {
    var m := |runs| - 1;
    var init := Flatten(runs[..m]);
    if k == m {
      assert forall i | 0 <= i < |runs[m]| :: runs[m][i] == Flatten(runs)[|init| + i];
    } else {
      assert forall i | 0 <= i < |init| :: init[i] == Flatten(runs)[i];
      RunsNewestFirst(runs[..m], k);
    }
  }

  /** On a newest-first list the reported bounds are the true extremes of each burst. */
  lemma BoundsAreExtremes(signals: seq<Signal>, gap: nat, k: nat)
    requires NewestFirst(signals) && k < |Split(signals, gap)|
    ensures var r := Split(signals, gap)[k];
            forall i | 0 <= i < |r| :: Summary(r).start <= r[i].timestamp <= Summary(r).end
  {
    SplitIsSplit(signals, gap);
    RunsNewestFirst(Split(signals, gap), k);
  }
}
