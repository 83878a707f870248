/**
 Properties of single trials: per-strategy conservation laws, exit facts,
 bounds on the number of bets, the shape of the recorded history, and the
 exact behaviour of the all-in strategy.
 */
module GameFacts {
  import opened Game

  /** Per-strategy conservation law, kept by every bet of a trial.
      All-in: money in hand is winnings plus the $5 start until the first
      loss empties it, and the winnings double-and-add-5 from 0.
      $5 and $1: every bet moves a fixed amount, so the balance is fixed by
      the winnings and the number of bets; winnings never pass the goal, and
      the goal is reached by a win, which leaves at least twice the stake. */
  predicate Conserved(p: Policy, s: State) {
    match p
    case AllIn =>
      && (s.balance == 0 || s.balance == s.earnings + StartBalance)
      && s.earnings in {0, 5, 15, 35}
    case Fixed5 =>
      && s.balance == StartBalance + 2 * s.earnings - 5 * s.bet
      && s.earnings % 5 == 0
      && s.earnings <= Goal
      && (s.earnings >= Goal ==> s.balance >= 10)
    case Fixed1 =>
      && s.balance == StartBalance + 2 * s.earnings - s.bet
      && s.earnings <= Goal
      && (s.earnings >= Goal ==> s.balance >= 2)
  }

  /** The state after `n` more bets from `s`, or the terminal state if the
      trial ends sooner: a reference definition of the loop, without history. */
  function Reach(p: Policy, o: Outcomes, s: State, n: nat): State
    decreases n
  {
    if n == 0 || !Playing(s) then s
    else Reach(p, o, Step(p, s, o(s.bet)), n - 1)
  }

  /** Under the $5 strategy the balance is a positive multiple of 5 whenever
      a bet is placed, so the stake is always exactly $5. */
  lemma Fixed5StakeIsFive(s: State)
    requires Playing(s) && Conserved(Fixed5, s)
    ensures Stake(Fixed5, s.balance) == 5
  {
    var m := s.earnings / 5;
    assert s.earnings == 5 * m;
    assert s.balance == 5 * (1 + 2 * m - s.bet);
  }

  /** An all-in bet either empties the balance or doubles it, and the
      winnings move along the 0, 5, 15, 35 ladder. */
  lemma StepConservesAllIn(s: State, win: bool)
    requires Playing(s) && Conserved(AllIn, s)
    ensures Conserved(AllIn, Step(AllIn, s, win))
  {
    var t := Step(AllIn, s, win);
    if win {
      assert t.balance == t.earnings + StartBalance;
    } else {
      assert t.balance == 0;
    }
  }

  /** Adding 5 to a multiple of 5 gives a multiple of 5. */
  lemma NextMultipleOfFive(e: int)
    requires e % 5 == 0
    ensures (e + 5) % 5 == 0
  {
  }

  /** A $5 bet stakes exactly $5, so the winnings stay a multiple of 5 and
      each bet moves the balance by a fixed amount. */
  lemma StepConservesFixed5(s: State, win: bool)
    requires Playing(s) && Conserved(Fixed5, s)
    ensures Conserved(Fixed5, Step(Fixed5, s, win))
  {
    Fixed5StakeIsFive(s);
    var t := Step(Fixed5, s, win);
    if win {
      assert t.earnings == s.earnings + 5 && t.balance == s.balance + 5;
      NextMultipleOfFive(s.earnings);
    } else {
      assert t.earnings == s.earnings && t.balance == s.balance - 5;
    }
  }

  /** A $1 bet moves the balance and winnings by one. */
  lemma StepConservesFixed1(s: State, win: bool)
    requires Playing(s) && Conserved(Fixed1, s)
    ensures Conserved(Fixed1, Step(Fixed1, s, win))
  {
  }

  /** Every bet keeps the conservation law of its strategy. */
  lemma StepConserves(p: Policy, s: State, win: bool)
    requires Playing(s) && Conserved(p, s)
    ensures Conserved(p, Step(p, s, win))
  {
    match p
    case AllIn => StepConservesAllIn(s, win);
    case Fixed5 => StepConservesFixed5(s, win);
    case Fixed1 => StepConservesFixed1(s, win);
  }

  /** The conservation law holds of every snapshot and of the terminal state. */
  lemma {:induction false} PlayConserves(p: Policy, o: Outcomes, s: State)
    requires Valid(s) && Conserved(p, s)
    ensures Conserved(p, Play(p, o, s).0)
    ensures forall x :: x in Play(p, o, s).1 ==> Conserved(p, x)
    decreases Measure(s)
  {
    if Playing(s) {
      StepConserves(p, s, o(s.bet));
      PlayConserves(p, o, Step(p, s, o(s.bet)));
    }
  }

  /** Conservation laws and exit facts of a whole trial. A won trial of the
      $5 or $1 strategy ends with winnings of exactly $25, and the number of
      bets is fixed by the final balance and winnings. */
  lemma TrialConservation(p: Policy, o: Outcomes)
    ensures var t := RunTrial(p, o);
      && Conserved(p, State(t.totalBets, t.finalBalance, t.finalEarnings))
      && (forall x :: x in t.history ==> Conserved(p, x))
      && (t.won && !p.AllIn? ==> t.finalEarnings == Goal)
      && (p.Fixed1? ==> t.totalBets == StartBalance + 2 * t.finalEarnings - t.finalBalance)
      && (p.Fixed5? ==> 5 * t.totalBets == StartBalance + 2 * t.finalEarnings - t.finalBalance)
  {
    PlayConserves(p, o, Initial);
  }

  /** Most bets a trial of the strategy can place. */
  function MaxBets(p: Policy): nat {
    match p
    case AllIn => 3
    case Fixed5 => 9
    case Fixed1 => 53
  }

  /** Bounds on the length of a trial: all-in places at most 3 bets, $5 at
      most 9 and $1 at most 53, whatever the outcomes. */
  lemma TrialBetBounds(p: Policy, o: Outcomes)
    ensures 1 <= RunTrial(p, o).totalBets <= MaxBets(p)
  {
    TrialConservation(p, o);
    if p.AllIn? {
      AllInExact(o);
    }
  }

  /** `Reach` unrolled by one bet. */
  lemma ReachStep(p: Policy, o: Outcomes, s: State, n: nat)
    requires Playing(s) && n >= 1
    ensures Reach(p, o, s, n) == Reach(p, o, Step(p, s, o(s.bet)), n - 1)
  {
  }

  /** The terminal state of the loop is the state reached after all of its
      bets. */
  lemma {:induction false} PlayEndsAtReach(p: Policy, o: Outcomes, s: State)
    requires Valid(s)
    ensures Play(p, o, s).0 == Reach(p, o, s, Play(p, o, s).0.bet - s.bet)
    decreases Measure(s)
  {
    if Playing(s) {
      var s' := Step(p, s, o(s.bet));
      PlayEndsAtReach(p, o, s');
      ReachStep(p, o, s, Play(p, o, s).0.bet - s.bet);
    }
  }

  /** Every state before the last bet of the loop is still running, and
      the k-th of them has placed k bets. */
  lemma {:induction false} ReachRunsUntilEnd(p: Policy, o: Outcomes, s: State)
    requires Valid(s)
    ensures forall k: nat :: k < Play(p, o, s).0.bet - s.bet ==>
      Playing(Reach(p, o, s, k)) && Reach(p, o, s, k).bet == s.bet + k
    decreases Measure(s)
  {
    if Playing(s) {
      var s' := Step(p, s, o(s.bet));
      ReachRunsUntilEnd(p, o, s');
      forall k: nat | k < Play(p, o, s).0.bet - s.bet
        ensures Playing(Reach(p, o, s, k)) && Reach(p, o, s, k).bet == s.bet + k
      {
        if k > 0 {
          ReachStep(p, o, s, k);
        }
      }
    }
  }

  /** Every snapshot the loop records is the state reached by the bets
      before it, taken while the trial is still running, at a sampled index
      below the final bet count. */
  lemma {:induction false} PlaySnapshotsAreReached(p: Policy, o: Outcomes, s: State)
    requires Valid(s)
    ensures var (t, h) := Play(p, o, s);
      forall x :: x in h ==>
        && s.bet <= x.bet < t.bet
        && Playing(x)
        && Sampled(p, x.bet)
        && x == Reach(p, o, s, x.bet - s.bet)
    decreases Measure(s)
  {
    if Playing(s) {
      var s' := Step(p, s, o(s.bet));
      PlaySnapshotsAreReached(p, o, s');
      var h' := Play(p, o, s').1;
      forall x | x in Play(p, o, s).1
        ensures x == Reach(p, o, s, x.bet - s.bet)
      {
        if x != s {
          assert x in h';
          ReachStep(p, o, s, x.bet - s.bet);
        }
      }
    }
  }

  /** All-in and $5: the snapshots of the loop from `s` followed by its
      terminal state are the chain of states reached bet by bet. */
  lemma {:induction false} PlayChain(p: Policy, o: Outcomes, s: State)
    requires Valid(s) && !p.Fixed1?
    ensures var H := Play(p, o, s).1 + [Play(p, o, s).0];
      && |H| == Play(p, o, s).0.bet - s.bet + 1
      && H[0] == s
      && (forall i :: 0 <= i < |H| ==> H[i].bet == s.bet + i)
      && (forall i :: 0 <= i < |H| - 1 ==>
            Playing(H[i]) && H[i + 1] == Step(p, H[i], o(H[i].bet)))
    decreases Measure(s)
  {
    if Playing(s) {
      var s' := Step(p, s, o(s.bet));
      PlayChain(p, o, s');
      var H' := Play(p, o, s').1 + [Play(p, o, s').0];
      var H := Play(p, o, s).1 + [Play(p, o, s).0];
      assert H == [s] + H';
      forall i | 0 <= i < |H| - 1
        ensures Playing(H[i]) && H[i + 1] == Step(p, H[i], o(H[i].bet))
      {
        if i > 0 {
          assert H[i] == H'[i - 1] && H[i + 1] == H'[i];
        }
      }
    }
  }

  /** History of an all-in or $5 trial: one snapshot per bet plus a final
      one, each entry follows from the previous by one bet on the recorded
      outcome, and the last entry is the terminal state. */
  lemma HistoryEveryBet(p: Policy, o: Outcomes)
    requires !p.Fixed1?
    ensures var t := RunTrial(p, o);
      && |t.history| == t.totalBets + 1
      && t.history[0] == Initial
      && (forall i :: 0 <= i < |t.history| ==> t.history[i].bet == i)
      && (forall i :: 0 <= i < |t.history| - 1 ==>
            Playing(t.history[i]) && t.history[i + 1] == Step(p, t.history[i], o(i)))
      && t.history[|t.history| - 1] == State(t.totalBets, t.finalBalance, t.finalEarnings)
  {
    PlayChain(p, o, Initial);
  }

  /** Under the $5 strategy every bet of a trial stakes exactly $5. */
  lemma Fixed5EveryStakeIsFive(o: Outcomes)
    ensures var t := RunTrial(Fixed5, o);
      |t.history| == t.totalBets + 1 &&
      forall i :: 0 <= i < t.totalBets ==>
        Playing(t.history[i]) && Stake(Fixed5, t.history[i].balance) == 5
  {
    HistoryEveryBet(Fixed5, o);
    TrialConservation(Fixed5, o);
    var t := RunTrial(Fixed5, o);
    forall i | 0 <= i < t.totalBets
      ensures Playing(t.history[i]) && Stake(Fixed5, t.history[i].balance) == 5
    {
      assert t.history[i] in t.history;
      Fixed5StakeIsFive(t.history[i]);
    }
  }

  /** Number of multiples of 10 below `n`. */
  function TensBelow(n: nat): nat {
    (n + 9) / 10
  }

  /** Moving past index `n` adds one multiple of 10 exactly when `n` is one,
      and that multiple is the next one counted. */
  lemma TensBelowStep(n: nat)
    ensures TensBelow(n + 1) == TensBelow(n) + (if n % 10 == 0 then 1 else 0)
    ensures n % 10 == 0 ==> n == 10 * TensBelow(n)
    ensures n >= 1 ==> TensBelow(n) == (n - 1) / 10 + 1
  {
  }

  /** $1 strategy from `s`: the snapshots are taken exactly at the multiples
      of 10 among the bet indices the loop passes through. */
  lemma {:induction false} PlayFixed1Sampling(o: Outcomes, s: State)
    requires Valid(s)
    ensures var (t, h) := Play(Fixed1, o, s);
      && |h| == TensBelow(t.bet) - TensBelow(s.bet)
      && forall i :: 0 <= i < |h| ==> h[i].bet == 10 * (TensBelow(s.bet) + i)
    decreases Measure(s)
  {
    if Playing(s) {
      var s' := Step(Fixed1, s, o(s.bet));
      PlayFixed1Sampling(o, s');
      var (t, h) := Play(Fixed1, o, s);
      var (t', h') := Play(Fixed1, o, s');
      TensBelowStep(s.bet);
      assert t == t' && s'.bet == s.bet + 1;
      if s.bet % 10 == 0 {
        assert h == [s] + h';
        forall i | 0 <= i < |h|
          ensures h[i].bet == 10 * (TensBelow(s.bet) + i)
        {
          if i > 0 {
            assert h[i] == h'[i - 1];
          }
        }
      } else {
        assert h == h';
      }
    }
  }

  /** History of a $1 trial: one snapshot every ten bets, taken before the
      bet with that index, and no final snapshot (every entry is a state in
      which the trial is still running). */
  lemma HistoryEveryTenthBet(o: Outcomes)
    ensures var t := RunTrial(Fixed1, o);
      && |t.history| == (t.totalBets - 1) / 10 + 1
      && forall i :: 0 <= i < |t.history| ==>
           && t.history[i].bet == 10 * i
           && t.history[i].bet < t.totalBets
           && Playing(t.history[i])
           && t.history[i] == Reach(Fixed1, o, Initial, 10 * i)
  {
    var (last, h) := Play(Fixed1, o, Initial);
    PlayFixed1Sampling(o, Initial);
    PlaySnapshotsAreReached(Fixed1, o, Initial);
    TensBelowStep(last.bet);
    SnapshotsByIndex(o, last.bet, h);
  }

  /** Snapshots at bets 0, 10, 20, … of a $1 trial, each known to be a
      running state reached by the bets before it, read by position. */
  lemma SnapshotsByIndex(o: Outcomes, end: nat, h: seq<State>)
    requires forall i :: 0 <= i < |h| ==> h[i].bet == 10 * i
    requires forall x :: x in h ==>
      x.bet < end && Playing(x) && x == Reach(Fixed1, o, Initial, x.bet)
    ensures forall i :: 0 <= i < |h| ==>
      h[i].bet < end && Playing(h[i]) && h[i] == Reach(Fixed1, o, Initial, 10 * i)
  {
    forall i | 0 <= i < |h|
      ensures h[i].bet < end && Playing(h[i]) && h[i] == Reach(Fixed1, o, Initial, 10 * i)
    {
      assert h[i] in h;
    }
  }

  /** The `balance < 1` guard of the $1 loop never fires: before every bet of
      a $1 trial the balance is at least $1, and the state after the last bet
      no longer satisfies the loop condition, so the loop leaves through its
      condition and never through the guard. */
  lemma Fixed1GuardNeverFires(o: Outcomes)
    ensures forall k: nat :: k < RunTrial(Fixed1, o).totalBets ==>
      Reach(Fixed1, o, Initial, k).balance >= 1
    ensures !Playing(Reach(Fixed1, o, Initial, RunTrial(Fixed1, o).totalBets))
  {
    ReachRunsUntilEnd(Fixed1, o, Initial);
    PlayEndsAtReach(Fixed1, o, Initial);
  }


  /** A trial depends only on the outcomes of the bets it actually places:
      two oracles that agree on those give the same trial. */
  lemma {:induction false} PlayDeterminedByUsedOutcomes(p: Policy, o1: Outcomes, o2: Outcomes, s: State)
    requires Valid(s)
    requires forall k: nat :: s.bet <= k < Play(p, o1, s).0.bet ==> o1(k) == o2(k)
    ensures Play(p, o1, s) == Play(p, o2, s)
    decreases Measure(s)
  {
    if Playing(s) {
      assert o1(s.bet) == o2(s.bet);
      PlayDeterminedByUsedOutcomes(p, o1, o2, Step(p, s, o1(s.bet)));
    }
  }

  /** Determinism: the same outcomes on the bets placed give the same trial. */
  lemma TrialDeterminedByUsedOutcomes(p: Policy, o1: Outcomes, o2: Outcomes)
    requires forall k: nat :: k < RunTrial(p, o1).totalBets ==> o1(k) == o2(k)
    ensures RunTrial(p, o1) == RunTrial(p, o2)
  {
    PlayDeterminedByUsedOutcomes(p, o1, o2, Initial);
  }

  /** The all-in strategy written out: it wins exactly when the first three
      bets are won, and otherwise ends at its first loss. */
  function AllInReference(o: Outcomes): Trial {
    var s0 := State(0, 5, 0);
    var s1 := State(1, 10, 5);
    var s2 := State(2, 20, 15);
    if !o(0) then Trial(false, 0, 0, 1, [s0, State(1, 0, 0)])
    else if !o(1) then Trial(false, 0, 5, 2, [s0, s1, State(2, 0, 5)])
    else if !o(2) then Trial(false, 0, 15, 3, [s0, s1, s2, State(3, 0, 15)])
    else Trial(true, 40, 35, 3, [s0, s1, s2, State(3, 40, 35)])
  }

  /** The all-in loop computes exactly the written-out reference. */
  lemma AllInExact(o: Outcomes)
    ensures RunTrial(AllIn, o) == AllInReference(o)
  {
    var s0 := Initial;
    var s1 := Step(AllIn, s0, o(0));
    if o(0) {
      var s2 := Step(AllIn, s1, o(1));
      assert Play(AllIn, o, s0).1 == [s0] + Play(AllIn, o, s1).1;
      if o(1) {
        var s3 := Step(AllIn, s2, o(2));
        assert Play(AllIn, o, s1).1 == [s1] + Play(AllIn, o, s2).1;
        assert Play(AllIn, o, s2).1 == [s2] + Play(AllIn, o, s3).1;
        assert !Playing(s3);
      } else {
        assert Play(AllIn, o, s1).1 == [s1] + Play(AllIn, o, s2).1;
        assert !Playing(s2);
      }
    } else {
      assert !Playing(s1);
    }
  }

  /** All-in: a trial is won exactly when its first three bets are won; a
      trial ends at its first loss with nothing left; until then the
      balance is the winnings plus the $5 start. */
  lemma AllInEndsAtFirstLoss(o: Outcomes)
    ensures var t := RunTrial(AllIn, o);
      && (t.won <==> o(0) && o(1) && o(2))
      && (forall k :: 0 <= k < t.totalBets - 1 ==> o(k))
      && (!t.won ==> !o(t.totalBets - 1) && t.finalBalance == 0)
      && |t.history| == t.totalBets + 1
      && (forall i :: 0 <= i < t.totalBets ==>
            t.history[i].balance - t.history[i].earnings == StartBalance)
  {
    AllInExact(o);
  }

  /** Scenario: all-in, a win then a loss. */
  lemma AllInWinThenLoss(o: Outcomes)
    requires o(0) && !o(1)
    ensures var t := RunTrial(AllIn, o);
      t.totalBets == 2 && t.finalBalance == 0 && t.finalEarnings == 5 && !t.won
  {
    AllInExact(o);
  }

  /** Scenario: all-in, three wins. */
  lemma AllInThreeWins(o: Outcomes)
    requires o(0) && o(1) && o(2)
    ensures var t := RunTrial(AllIn, o);
      t.totalBets == 3 && t.finalBalance == 40 && t.finalEarnings == 35 && t.won
  {
    AllInExact(o);
  }

  /** Scenario: $5, a single win from the start leaves $10 in hand and $5 of
      winnings, and the trial continues. */
  lemma Fixed5FirstWin()
    ensures Step(Fixed5, Initial, true) == State(1, 10, 5)
    ensures Playing(Step(Fixed5, Initial, true))
  {
  }
}
