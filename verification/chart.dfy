/**
 Chart series built from the sample trials of a batch. Each chart has one
 row per history index up to the longest sample history; row `i` carries the
 bet number it stands for and, for every sample `k` (numbered from 1) whose
 history reaches index `i`, that sample's value at `i`. The key `k` of a
 row's series stands for the property `balance{k}` or `earnings{k}`.
 */
module Chart {
  import opened Game
  import opened Batch
  import GameFacts

  /** Which of the two charts a row belongs to. */
  datatype Field = Balance | Earnings

  /** One chart data point: the bet label and the value of each series. */
  datatype Row = Row(bet: int, series: map<nat, int>)

  /** Bets between two history entries: 10 for the $1 strategy, else 1. */
  function Cadence(p: Policy): nat {
    if p.Fixed1? then 10 else 1
  }

  function Value(field: Field, s: State): int {
    match field
    case Balance => s.balance
    case Earnings => s.earnings
  }

  /** Length of the longest sample history; 0 when there are no samples,
      in which case no row is built. */
  function MaxLength(samples: seq<Sample>): (m: nat)
    ensures forall k :: 0 <= k < |samples| ==> |samples[k].trial.history| <= m
    ensures |samples| > 0 ==>
      exists k :: 0 <= k < |samples| && m == |samples[k].trial.history|
    ensures |samples| == 0 ==> m == 0
  {
    if |samples| == 0 then 0
    else
      var rest := MaxLength(samples[..|samples| - 1]);
      var last := |samples[|samples| - 1].trial.history|;
      if rest < last then last else rest
  }

  /** Builds the rows of one chart: one row per index below the longest
      history, labelled with the bet it stands for, holding the series of
      exactly the samples whose history reaches that index. */
  method ChartRows(p: Policy, samples: seq<Sample>, field: Field) returns (rows: seq<Row>)
    ensures |rows| == MaxLength(samples)
    ensures forall i :: 0 <= i < |rows| ==> rows[i].bet == Cadence(p) * i
    ensures forall i, k :: 0 <= i < |rows| ==>
      (k in rows[i].series <==> 1 <= k <= |samples| && i < |samples[k - 1].trial.history|)
    ensures forall i, k :: 0 <= i < |rows| && k in rows[i].series ==>
      1 <= k <= |samples| && i < |samples[k - 1].trial.history| &&
      rows[i].series[k] == Value(field, samples[k - 1].trial.history[i])
  {
    var maxLength := MaxLength(samples);
    rows := [];
    var i := 0;
    while i < maxLength
      invariant i <= maxLength && |rows| == i
      invariant forall r :: 0 <= r < i ==> rows[r].bet == Cadence(p) * r
      invariant forall r, k :: 0 <= r < i ==>
        (k in rows[r].series <==> 1 <= k <= |samples| && r < |samples[k - 1].trial.history|)
      invariant forall r, k :: 0 <= r < i && k in rows[r].series ==>
        1 <= k <= |samples| && r < |samples[k - 1].trial.history| &&
        rows[r].series[k] == Value(field, samples[k - 1].trial.history[r])
    {
      var point: map<nat, int> := map[];
      var idx := 0;
      while idx < |samples|
        invariant idx <= |samples|
        invariant forall k :: k in point <==> 1 <= k <= idx && i < |samples[k - 1].trial.history|
        invariant forall k :: k in point ==>
          1 <= k <= idx && i < |samples[k - 1].trial.history| &&
          point[k] == Value(field, samples[k - 1].trial.history[i])
      {
        if i < |samples[idx].trial.history| {
          point := point[idx + 1 := Value(field, samples[idx].trial.history[i])];
        }
        idx := idx + 1;
      }
      rows := rows + [Row(Cadence(p) * i, point)];
      i := i + 1;
    }
  }

  /** The label of chart row `i` is the bet count of the history entry it
      shows: history entry `i` of a trial has `bet == Cadence(p) * i`. For
      all-in and $5 the last entry is the final snapshot, taken after the
      last bet; every other entry was recorded before the bet with that
      index. */
  lemma HistoryFollowsCadence(p: Policy, o: Outcomes)
    ensures var h := RunTrial(p, o).history;
      forall i :: 0 <= i < |h| ==> h[i].bet == Cadence(p) * i
  {
    if p.Fixed1? {
      GameFacts.HistoryEveryTenthBet(o);
    } else {
      GameFacts.HistoryEveryBet(p, o);
    }
  }

  /** A strategy's batch followed by one of its charts: the rows show the
      batch's own samples, every sample whose history reaches a row has its
      key there, and every value a row shows comes from the history entry
      whose bet count is the row's label. */
  method BatchChart(p: Policy, numSims: int, draws: nat -> Outcomes, field: Field)
    returns (samples: seq<Sample>, rows: seq<Row>)
    ensures |samples| == if TrialCount(numSims) < SampleLimit then TrialCount(numSims) else SampleLimit
    ensures forall i {:trigger RunTrial(p, draws(i))} :: 0 <= i < |samples| ==>
      samples[i] == Sample(i + 1, RunTrial(p, draws(i)))
    ensures |rows| == MaxLength(samples)
    ensures forall i :: 0 <= i < |rows| ==> rows[i].bet == Cadence(p) * i
    ensures forall i, k :: 0 <= i < |rows| ==>
      (k in rows[i].series <==> 1 <= k <= |samples| && i < |samples[k - 1].trial.history|)
    ensures forall i, k :: 0 <= i < |rows| && k in rows[i].series ==>
      1 <= k <= |samples| && i < |samples[k - 1].trial.history| &&
      rows[i].series[k] == Value(field, samples[k - 1].trial.history[i])
    ensures forall i, k :: 0 <= i < |rows| && k in rows[i].series ==>
      1 <= k <= |samples| && i < |samples[k - 1].trial.history| &&
      rows[i].bet == samples[k - 1].trial.history[i].bet
  {
    var stats, tally;
    stats, samples, tally := RunSimulations(p, numSims, draws);
    rows := ChartRows(p, samples, field);
    forall k | 0 <= k < |samples|
      ensures forall i :: 0 <= i < |samples[k].trial.history| ==>
        samples[k].trial.history[i].bet == Cadence(p) * i
    {
      HistoryFollowsCadence(p, draws(k));
    }
  }
}
