/**
 A batch of trials: run a requested number of independent trials, fold
 each result into running totals (wins, losses, bets placed in lost
 trials) and keep the first five results, numbered from 1, for charting.
 Trial `i` of a batch uses its own outcome oracle `draws(i)`.
 */
module Batch {
  import opened Game
  import GameFacts

  /** A kept trial together with its 1-based position in the batch. */
  datatype Sample = Sample(simNumber: nat, trial: Trial)

  /** The running totals of the batch loop. */
  datatype Tally = Tally(wins: nat, lossCount: nat, totalBetsWhenLost: nat)

  /** The summary shown for a batch. The average is an exact rational;
      the display rounding is not modelled. */
  datatype Stats = Stats(wins: nat, totalSims: int, avgBetsWhenLost: real)

  /** How many samples a batch keeps. */
  const SampleLimit: nat := 5

  /** Number of trials the loop `for (i = 0; i < numSims; i++)` runs. */
  function TrialCount(numSims: int): nat {
    if numSims > 0 then numSims else 0
  }

  /** The trials of a batch, in execution order. */
  function Trials(p: Policy, draws: nat -> Outcomes, n: nat): seq<Trial> {
    seq(n, i requires 0 <= i < n => RunTrial(p, draws(i)))
  }

  /** Reference counts over a sequence of trials. */
  function Wins(ts: seq<Trial>): nat {
    if |ts| == 0 then 0
    else Wins(ts[..|ts| - 1]) + (if ts[|ts| - 1].won then 1 else 0)
  }

  function Losses(ts: seq<Trial>): nat {
    if |ts| == 0 then 0
    else Losses(ts[..|ts| - 1]) + (if ts[|ts| - 1].won then 0 else 1)
  }

  function LostBets(ts: seq<Trial>): nat {
    if |ts| == 0 then 0
    else LostBets(ts[..|ts| - 1]) + (if ts[|ts| - 1].won then 0 else ts[|ts| - 1].totalBets)
  }

  function TallyOf(ts: seq<Trial>): Tally {
    Tally(Wins(ts), Losses(ts), LostBets(ts))
  }

  /** The summary of a batch from its totals: the average number of bets in
      a lost trial, or 0 when no trial was lost. */
  function StatsOf(numSims: int, tally: Tally): (s: Stats)
    ensures s.wins == tally.wins && s.totalSims == numSims
    ensures tally.lossCount > 0 ==>
      s.avgBetsWhenLost * (tally.lossCount as real) == tally.totalBetsWhenLost as real
    ensures tally.lossCount == 0 ==> s.avgBetsWhenLost == 0.0
  {
    var avg := if tally.lossCount > 0
      then (tally.totalBetsWhenLost as real) / (tally.lossCount as real)
      else 0.0;
    Stats(tally.wins, numSims, avg)
  }

  /** Extending a prefix by one trial adds that trial to the counts. */
  lemma PrefixStep(ts: seq<Trial>, i: nat, t: Trial)
    requires i < |ts| && ts[i] == t
    ensures Wins(ts[..i + 1]) == Wins(ts[..i]) + (if t.won then 1 else 0)
    ensures Losses(ts[..i + 1]) == Losses(ts[..i]) + (if t.won then 0 else 1)
    ensures LostBets(ts[..i + 1]) == LostBets(ts[..i]) + (if t.won then 0 else t.totalBets)
  {
    assert ts[..i + 1][..i] == ts[..i];
  }

  /** Every trial is either a win or a loss: no trial is uncounted or
      counted twice. */
  lemma {:induction false} WinsPlusLosses(ts: seq<Trial>)
    ensures Wins(ts) + Losses(ts) == |ts|
    decreases |ts|
  {
    if |ts| > 0 {
      WinsPlusLosses(ts[..|ts| - 1]);
    }
  }

  /** Every lost trial contributes between 1 and `bound` bets. */
  lemma {:induction false} LostBetsBetween(ts: seq<Trial>, bound: nat)
    requires forall i :: 0 <= i < |ts| ==> ts[i].totalBets >= 1
    requires forall i :: 0 <= i < |ts| ==> !ts[i].won ==> ts[i].totalBets <= bound
    ensures Losses(ts) <= LostBets(ts) <= bound * Losses(ts)
    decreases |ts|
  {
    if |ts| > 0 {
      var init := ts[..|ts| - 1];
      var last := ts[|ts| - 1];
      assert forall i :: 0 <= i < |init| ==> init[i] == ts[i];
      LostBetsBetween(init, bound);
      var l := Losses(init);
      if !last.won {
        assert bound * (l + 1) == bound * l + bound;
      }
    }
  }

  /** Every lost trial of a batch places between 1 and `MaxBets(p)` bets. */
  lemma LostBetsOfBatch(p: Policy, draws: nat -> Outcomes, n: nat)
    ensures var ts := Trials(p, draws, n);
      Losses(ts) <= LostBets(ts) <= GameFacts.MaxBets(p) * Losses(ts)
  {
    var ts := Trials(p, draws, n);
    forall i | 0 <= i < |ts|
      ensures ts[i].totalBets >= 1 && (!ts[i].won ==> ts[i].totalBets <= GameFacts.MaxBets(p))
    {
      GameFacts.TrialBetBounds(p, draws(i));
    }
    LostBetsBetween(ts, GameFacts.MaxBets(p));
  }

  /** Division by a positive count keeps bounds on the count's multiples. */
  lemma QuotientBetween(sum: real, c: real, lo: real, hi: real)
    requires c > 0.0 && lo * c <= sum <= hi * c
    ensures lo <= sum / c <= hi
  {
    var a := sum / c;
    assert a * c == sum;
    assert (a - lo) * c == sum - lo * c;
    assert (hi - a) * c == hi * c - sum;
  }

  /** An average of counts that each lie between 1 and `bound` lies between
      1 and `bound` too. */
  lemma AverageBetween(numSims: int, t: Tally, bound: nat)
    requires t.lossCount > 0
    requires t.lossCount <= t.totalBetsWhenLost <= bound * t.lossCount
    ensures 1.0 <= StatsOf(numSims, t).avgBetsWhenLost <= bound as real
  {
    var c := t.lossCount as real;
    assert (bound * t.lossCount) as real == (bound as real) * c;
    QuotientBetween(t.totalBetsWhenLost as real, c, 1.0, bound as real);
  }

  /** The average number of bets in a lost trial lies between 1 and the
      strategy's bound on a trial: at most 3 for all-in, 9 for $5 and 53 for
      $1. */
  lemma AverageBetsWhenLostBounds(p: Policy, numSims: int, draws: nat -> Outcomes)
    ensures var t := TallyOf(Trials(p, draws, TrialCount(numSims)));
      t.lossCount > 0 ==>
        1.0 <= StatsOf(numSims, t).avgBetsWhenLost <= GameFacts.MaxBets(p) as real
  {
    LostBetsOfBatch(p, draws, TrialCount(numSims));
    var t := TallyOf(Trials(p, draws, TrialCount(numSims)));
    if t.lossCount > 0 {
      AverageBetween(numSims, t, GameFacts.MaxBets(p));
    }
  }

  /** The batch loop over the results of its trials: `trialAt(i)` is the
      result of the i-th call of the single-trial routine. It folds each
      result into the totals and keeps the first five with their 1-based
      numbers. */
  method Tabulate(numSims: int, trialAt: nat -> Trial)
    returns (stats: Stats, samples: seq<Sample>, tally: Tally)
    ensures tally == TallyOf(seq(TrialCount(numSims), i requires 0 <= i => trialAt(i)))
    ensures tally.wins + tally.lossCount == TrialCount(numSims)
    ensures stats == StatsOf(numSims, tally)
    ensures |samples| == if TrialCount(numSims) < SampleLimit then TrialCount(numSims) else SampleLimit
    ensures forall i :: 0 <= i < |samples| ==> samples[i] == Sample(i + 1, trialAt(i))
  {
    var wins: nat := 0;
    var totalBetsWhenLost: nat := 0;
    var lossCount: nat := 0;
    samples := [];
    ghost var ts := seq(TrialCount(numSims), i requires 0 <= i => trialAt(i));
    var i: nat := 0;
    while i < numSims
      invariant i <= TrialCount(numSims)
      invariant wins == Wins(ts[..i])
      invariant lossCount == Losses(ts[..i])
      invariant totalBetsWhenLost == LostBets(ts[..i])
      invariant |samples| == if i < SampleLimit then i else SampleLimit
      invariant forall j :: 0 <= j < |samples| ==> samples[j] == Sample(j + 1, trialAt(j))
    {
      var result := trialAt(i);
      PrefixStep(ts, i, result);
      if result.won {
        wins := wins + 1;
      } else {
        totalBetsWhenLost := totalBetsWhenLost + result.totalBets;
        lossCount := lossCount + 1;
      }
      if i < SampleLimit {
        samples := samples + [Sample(i + 1, result)];
      }
      i := i + 1;
    }
    assert ts[..i] == ts;
    WinsPlusLosses(ts);
    tally := Tally(wins, lossCount, totalBetsWhenLost);
    stats := StatsOf(numSims, tally);
  }

  /** A batch of `numSims` trials of one strategy, trial `i` drawing its
      outcomes from `draws(i)`. */
  method RunSimulations(p: Policy, numSims: int, draws: nat -> Outcomes)
    returns (stats: Stats, samples: seq<Sample>, tally: Tally)
    ensures tally == TallyOf(Trials(p, draws, TrialCount(numSims)))
    ensures tally.wins + tally.lossCount == TrialCount(numSims)
    ensures stats == StatsOf(numSims, tally)
    ensures |samples| == if TrialCount(numSims) < SampleLimit then TrialCount(numSims) else SampleLimit
    ensures forall i :: 0 <= i < |samples| ==>
      samples[i] == Sample(i + 1, RunTrial(p, draws(i)))
  {
    stats, samples, tally := Tabulate(numSims, (i: nat) => RunTrial(p, draws(i)));
    assert seq(TrialCount(numSims), i requires 0 <= i => ((i: nat) => RunTrial(p, draws(i)))(i))
        == Trials(p, draws, TrialCount(numSims));
  }
}
