/**
 The single-trial engine of the betting game. A player starts with $5 and bets
 until either the balance is gone (ruin) or the cumulative winnings reach $25
 (the goal). The three strategies of the application differ only in how much
 they stake on each bet and in how often they record a history snapshot, so
 they are modelled as one loop parameterised by a `Policy`.

 Randomness is abstracted as an outcome oracle: `o(k)` is true when the bet
 with index `k` (the k-th bet of the trial, counting from 0) is won.
 */
module Game {

  /** Money a trial starts with. */
  const StartBalance: int := 5

  /** Cumulative earnings at which a trial counts as won. */
  const Goal: int := 25

  /** The bet-sizing rule of a strategy. */
  datatype Policy = AllIn | Fixed5 | Fixed1

  /** The loop state of a trial, which is also the shape of a history entry:
      the number of bets placed so far, the money in hand and the winnings. */
  datatype State = State(bet: nat, balance: int, earnings: int)

  /** The outcome of one trial as returned by the simulation routine. */
  datatype Trial = Trial(
    won: bool,
    finalBalance: int,
    finalEarnings: int,
    totalBets: nat,
    history: seq<State>)

  /** Outcome oracle of one trial: entry k says whether bet k is won. */
  type Outcomes = nat -> bool

  const Initial: State := State(0, StartBalance, 0)

  /** The loop condition shared by the three strategies. */
  predicate Playing(s: State) {
    s.balance > 0 && s.earnings < Goal
  }

  /** Facts that hold of every state a trial passes through: money is never
      negative, winnings never negative, and a state at or past the goal still
      holds money (the goal is only ever reached by a win). */
  predicate Valid(s: State) {
    && s.balance >= 0
    && s.earnings >= 0
    && (s.earnings >= Goal ==> s.balance > 0)
  }

  /** Distance to the end of a trial: it drops by the stake on every bet. */
  function Measure(s: State): int {
    2 * (Goal - s.earnings) + s.balance
  }

  /** Whether the loop records a snapshot before the bet with this index:
      every bet for all-in and $5, every tenth bet for $1. */
  predicate Sampled(p: Policy, bet: nat) {
    p.Fixed1? ==> bet % 10 == 0
  }

  /** Amount staked on the next bet. */
  function Stake(p: Policy, balance: int): (amount: int)
    requires balance > 0
    ensures 1 <= amount <= balance
  {
    match p
    case AllIn => balance
    case Fixed5 => if balance < 5 then balance else 5
    case Fixed1 => 1
  }

  /** One bet: the stake leaves the balance, and a win pays back twice the
      stake and adds the stake to the winnings. */
  function Step(p: Policy, s: State, win: bool): (t: State)
    requires Playing(s)
    ensures t.bet == s.bet + 1
    ensures win ==> t.balance == s.balance + Stake(p, s.balance)
                    && t.earnings == s.earnings + Stake(p, s.balance)
    ensures !win ==> t.balance == s.balance - Stake(p, s.balance)
                     && t.earnings == s.earnings
    ensures Measure(t) == Measure(s) - Stake(p, s.balance)
    ensures Valid(s) ==> Valid(t)
  {
    var amount := Stake(p, s.balance);
    // all-in sets the balance to 0 outright; the others subtract the stake
    var afterStake := if p.AllIn? then 0 else s.balance - amount;
    if win then State(s.bet + 1, afterStake + amount * 2, s.earnings + amount)
    else State(s.bet + 1, afterStake, s.earnings)
  }

  /** The simulation loop from state `s`: the terminal state and the
      snapshots recorded on the way. */
  function Play(p: Policy, o: Outcomes, s: State): (r: (State, seq<State>))
    requires Valid(s)
    ensures Valid(r.0) && !Playing(r.0)
    ensures r.0.bet >= s.bet && r.0.earnings >= s.earnings
    ensures Measure(r.0) <= Measure(s) - (r.0.bet - s.bet)
    ensures !Playing(s) ==> r == (s, [])
    decreases Measure(s)
  {
    if !Playing(s) then (s, [])
    else
      var snap := if Sampled(p, s.bet) then [s] else [];
      if p.Fixed1? && s.balance < 1 then (s, snap)
      else
        var rest := Play(p, o, Step(p, s, o(s.bet)));
        (rest.0, snap + rest.1)
  }

  /** The loop's outcome once `history` has been recorded and the loop
      stands at `s`. */
  function Resume(p: Policy, o: Outcomes, s: State, history: seq<State>): (State, seq<State>)
    requires Valid(s)
  {
    var rest := Play(p, o, s);
    (rest.0, history + rest.1)
  }

  /** One iteration of the loop leaves the outcome unchanged. */
  lemma ResumeStep(p: Policy, o: Outcomes, s: State, history: seq<State>)
    requires Valid(s) && Playing(s)
    ensures Resume(p, o, s, history)
      == Resume(p, o, Step(p, s, o(s.bet)), history + (if Sampled(p, s.bet) then [s] else []))
  {
    var snap := if Sampled(p, s.bet) then [s] else [];
    var rest := Play(p, o, Step(p, s, o(s.bet)));
    assert Play(p, o, s) == (rest.0, snap + rest.1);
    assert history + (snap + rest.1) == (history + snap) + rest.1;
  }

  /** One complete trial. The $1 strategy records no final snapshot. */
  function RunTrial(p: Policy, o: Outcomes): (t: Trial)
    ensures t.won <==> t.finalEarnings >= Goal
    ensures t.won <==> t.finalBalance > 0
    ensures !t.won ==> t.finalBalance == 0
    ensures t.totalBets >= 1
  {
    var (last, snaps) := Play(p, o, Initial);
    var history := if p.Fixed1? then snaps else snaps + [last];
    Trial(last.earnings >= Goal, last.balance, last.earnings, last.bet, history)
  }

  /** The loop of the single-trial routine, written imperatively: it ends in
      the same state, with the same snapshots, as `Play` from the start. */
  method SimulationLoop(p: Policy, o: Outcomes) returns (s: State, history: seq<State>)
    ensures (s, history) == Play(p, o, Initial)
  {
    s := Initial;
    history := [];
    ghost var whole := Play(p, o, Initial);
    assert Resume(p, o, s, history) == whole by {
      assert [] + whole.1 == whole.1;
    }
    while Playing(s)
      invariant Valid(s) && Resume(p, o, s, history) == whole
      decreases Measure(s)
    {
      var snap := if Sampled(p, s.bet) then [s] else [];
      ResumeStep(p, o, s, history);
      history := history + snap;
      if p.Fixed1? && s.balance < 1 {
        // the $1 routine's guard: unreachable, since the loop condition
        // keeps the balance at least $1
        assert false;
        break;
      }
      s := Step(p, s, o(s.bet));
    }
    assert history + [] == history;
  }

  /** The single-trial routine: the loop, the final snapshot (all-in and $5
      only) and the result record. It computes exactly `RunTrial`. */
  method RunSingleSimulation(p: Policy, o: Outcomes) returns (t: Trial)
    ensures t == RunTrial(p, o)
  {
    var s, history := SimulationLoop(p, o);
    if !p.Fixed1? {
      history := history + [s];
    }
    t := Trial(s.earnings >= Goal, s.balance, s.earnings, s.bet, history);
  }
}
