# Betting-strategy simulation engine, modelled in Dafny

The application compares three betting strategies with a Monte Carlo
simulation. A player starts each trial with $5 and bets until either the
money is gone (ruin, a lost trial) or the cumulative winnings reach $25 (a
won trial). Each bet is won with probability 0.35. A win pays back twice
the stake and adds the stake to the winnings. A loss keeps the stake. The
three strategies are:

- all-in: stake the whole balance;
- $5: stake `min(5, balance)`;
- $1: stake $1.

Each strategy component holds its own copy of three pieces:

- `runSingleSimulation`, one trial with its history of snapshots;
- `runSimulations`, a batch of trials folded into win/loss counts, with the
  first five trials kept;
- the construction of the chart rows from those five trials.

The three copies share their structure. They differ in these places:

- the stake rule: the whole balance (AllInStrategyAnalysis.tsx:48),
  `Math.min(5, balance)` (Bet5StrategyAnalysis.tsx:48) or $1, which the $1
  copy writes directly as `moneyBalance -= 1` and `+= 2`
  (Bet1StrategyAnalysis.tsx:62, 66);
- how the stake moves the balance: all-in sets the balance to 0 and, on a
  win, to twice the stake (AllInStrategyAnalysis.tsx:50, 54), while the
  other two subtract the stake and add back twice it;
- the $1 copy records a snapshot only before every tenth bet, has a
  `balance < 1` guard before each bet, records no final snapshot, labels
  chart rows `i * 10` instead of `i` (Bet1StrategyAnalysis.tsx:126, 139),
  formats the win rate with four decimals instead of two (line 111),
  shows the average bets per lost trial with `toLocaleString()` instead of
  `toFixed(2)` (line 167 against AllInStrategyAnalysis.tsx:162 and
  Bet5StrategyAnalysis.tsx:162), has an extra `calculateExpectedValue`
  helper (lines 33-38) and an extra "Mathematical Expectation" block that
  displays it (lines 242-246);
- colours and explanatory text, which are presentation only.

AllInStrategyAnalysis.tsx and Bet5StrategyAnalysis.tsx have the same
number of lines, and their shared code sits at the same line numbers.

The model has one engine parameterised by `Game.Policy`:

- `game.dfy` (module `Game`): the state, one bet (`Step`), the trial loop.
  The loop is written as a recursive function (`Play`, `RunTrial`) and as
  the imperative loop of the source (`RunSingleSimulation`), and the two
  are proved equal.
- `game_facts.dfy` (module `GameFacts`): per-strategy conservation laws,
  bounds on the number of bets, the shape of the history, determinism, and
  the all-in strategy written out in full.
- `batch.dfy` (module `Batch`): the batch fold, its counts and the first
  five samples.
- `chart.dfy` (module `Chart`): the chart rows.

Randomness is a parameter. A trial takes an outcome oracle
`o: nat -> bool`, where `o(k)` says whether bet number `k` of that trial
(counting from 0) is won. A batch takes one oracle per trial,
`draws: nat -> (nat -> bool)`. Trial `i` uses `draws(i)`.

Two consequences of the code are worth stating:

- Losing trials are short. A $1 trial places at most 53 bets
  (`GameFacts.TrialBetBounds`), so the batch average of bets per lost
  trial is at most 53 (`Batch.AverageBetsWhenLostBounds`).
- The `balance < 1` guard of the $1 routine (Bet1StrategyAnalysis.tsx:58)
  is unreachable, because balances are integers and the loop runs only
  while the balance is positive (`Game.SimulationLoop`,
  `GameFacts.Fixed1GuardNeverFires`).

## Model

| member | source | states |
|---|---|---|
| `Game.Stake` | src/components/Bet5StrategyAnalysis.tsx:47-48 | the stake of every strategy is at least $1 and never more than the balance, so a bet never overdraws |
| `Game.Step` | src/components/Bet5StrategyAnalysis.tsx:47-57 | one bet counts one more bet; a win adds the stake to both balance and winnings, a loss takes it from the balance; the measure `2*(25-earnings)+balance` falls by exactly the stake; non-negative money and winnings are kept |
| `Game.Play` | src/components/Bet5StrategyAnalysis.tsx:39-58 | the loop terminates for every outcome sequence (decreasing measure); it exits in a state with balance 0 or winnings at least 25, with money never negative and winnings never lower; the measure has fallen by at least one per bet |
| `Game.RunTrial` | src/components/AllInStrategyAnalysis.tsx:67-73 | `won` holds exactly when the final winnings reach 25, and exactly when money is left; a lost trial ends with balance 0; every trial places at least one bet |
| `Game.SimulationLoop` | src/components/Bet1StrategyAnalysis.tsx:47-70 | the imperative `while` loop, with its snapshot push before each bet and its `balance < 1` guard, ends in the same state with the same snapshots as the recursive `Play` from the initial state; the guard branch is proved unreachable |
| `Game.RunSingleSimulation` | src/components/Bet1StrategyAnalysis.tsx:41-79 | the imperative loop, including its `balance < 1` guard and per-strategy final snapshot, computes exactly `RunTrial`; the guard branch is proved unreachable |
| `GameFacts.Fixed5StakeIsFive` | src/components/Bet5StrategyAnalysis.tsx:48 | under the $5 law a positive balance is a multiple of 5, so `min(5, balance)` is 5 |
| `GameFacts.StepConservesAllIn` | src/components/AllInStrategyAnalysis.tsx:47-57 | an all-in bet keeps balance = winnings + 5 (or empties the balance) and keeps the winnings on the 0, 5, 15, 35 ladder |
| `GameFacts.StepConservesFixed5` | src/components/Bet5StrategyAnalysis.tsx:47-56 | a $5 bet keeps balance = 5 + 2*winnings - 5*bets, winnings a multiple of 5 and at most 25, and at least $10 once 25 is reached |
| `GameFacts.StepConservesFixed1` | src/components/Bet1StrategyAnalysis.tsx:60-69 | a $1 bet keeps balance = 5 + 2*winnings - bets, winnings at most 25, and at least $2 once 25 is reached |
| `GameFacts.StepConserves` | src/components/Bet1StrategyAnalysis.tsx:60-69 | every bet keeps its strategy's conservation law (all-in: balance = winnings + 5 until ruin; $5: balance = 5 + 2*winnings - 5*bets; $1: balance = 5 + 2*winnings - bets) |
| `GameFacts.PlayConserves` | src/components/Bet1StrategyAnalysis.tsx:47-70 | the conservation law holds of every snapshot and of the terminal state of the loop |
| `GameFacts.TrialConservation` | src/components/Bet1StrategyAnalysis.tsx:61-77 | a whole trial keeps its law; a won $5 or $1 trial ends with winnings exactly 25; the bet count is fixed by final balance and winnings |
| `GameFacts.TrialBetBounds` | src/components/Bet1StrategyAnalysis.tsx:47-69 | every trial places between 1 and 3 (all-in), 9 ($5) or 53 ($1) bets, whatever the outcomes |
| `GameFacts.PlayEndsAtReach` | src/components/Bet1StrategyAnalysis.tsx:47-70 | the terminal state of the loop is the state reached from the start by exactly the bets the loop placed |
| `GameFacts.ReachRunsUntilEnd` | src/components/Bet1StrategyAnalysis.tsx:47-58 | every state reached before the last bet of the loop is still running and has placed exactly the bets before it, so the loop never stops early |
| `GameFacts.PlaySnapshotsAreReached` | src/components/Bet1StrategyAnalysis.tsx:47-58 | every recorded snapshot was taken while the trial was running, at a sampled bet index below the final one, and is the state reached by the bets before it |
| `GameFacts.PlayChain` | src/components/AllInStrategyAnalysis.tsx:39-58 | for all-in and $5 the loop records one snapshot per bet, each the result of one bet on the previous one |
| `GameFacts.HistoryEveryBet` | src/components/AllInStrategyAnalysis.tsx:41-65 | all-in and $5 history: length `totalBets + 1`, entry `i` has `bet == i`, starts at the initial state, each entry follows from the previous by one bet on the drawn outcome, and the last entry is the final state |
| `GameFacts.Fixed5EveryStakeIsFive` | src/components/Bet5StrategyAnalysis.tsx:39-56 | every bet of a $5 trial is placed from a running state and stakes exactly $5 |
| `GameFacts.PlayFixed1Sampling` | src/components/Bet1StrategyAnalysis.tsx:49-55 | the $1 loop records snapshots exactly at the multiples of 10 among the bet indices it passes |
| `GameFacts.HistoryEveryTenthBet` | src/components/Bet1StrategyAnalysis.tsx:49-78 | $1 history: length `(totalBets - 1) / 10 + 1`, entry `i` has `bet == 10*i` and is the state before bet `10*i`; no final snapshot (every entry is a running state) |
| `GameFacts.Fixed1GuardNeverFires` | src/components/Bet1StrategyAnalysis.tsx:47-58 | before every bet of a $1 trial the balance is at least $1, and the state after the last bet fails the loop condition, so the loop ends through its condition and the `balance < 1` break never fires |
| `GameFacts.PlayDeterminedByUsedOutcomes` | src/components/Bet1StrategyAnalysis.tsx:47-70 | the loop from a state depends only on the outcomes of the bets it places |
| `GameFacts.TrialDeterminedByUsedOutcomes` | src/components/AllInStrategyAnalysis.tsx:33-74 | two outcome sequences that agree on the bets a trial places give the identical trial |
| `GameFacts.AllInExact` | src/components/AllInStrategyAnalysis.tsx:33-74 | the all-in trial equals the written-out table: lose at bet 1, 2 or 3, or win after three wins with $40 and $35 |
| `GameFacts.AllInEndsAtFirstLoss` | src/components/AllInStrategyAnalysis.tsx:48-57 | all-in wins exactly when its first three bets win; every bet before the last is a win; a lost trial ends at its first loss with balance 0; the history has one entry per bet plus the final one; balance minus winnings is 5 at every bet |
| `GameFacts.AllInWinThenLoss` | src/components/AllInStrategyAnalysis.tsx:39-58 | outcomes win, loss give 2 bets, balance 0, winnings 5, not won |
| `GameFacts.AllInThreeWins` | src/components/AllInStrategyAnalysis.tsx:39-58 | three wins give 3 bets, balance 40, winnings 35, won |
| `GameFacts.Fixed5FirstWin` | src/components/Bet5StrategyAnalysis.tsx:47-56 | a first $5 win leaves balance 10 and winnings 5, and the trial goes on |
| `Batch.StatsOf` | src/components/AllInStrategyAnalysis.tsx:102-107 | the average bets per lost trial times the loss count is the loss-bet total, and the average is 0 when nothing was lost |
| `Batch.WinsPlusLosses` | src/components/AllInStrategyAnalysis.tsx:86-91 | wins plus losses is the number of trials: none uncounted or counted twice |
| `Batch.LostBetsBetween` | src/components/Bet1StrategyAnalysis.tsx:91-96 | the loss-bet total lies between the loss count and the bound times the loss count when each lost trial places 1 to bound bets |
| `Batch.LostBetsOfBatch` | src/components/Bet1StrategyAnalysis.tsx:88-105 | in a batch of one strategy the loss-bet total is at least the loss count and at most its bet bound times the loss count |
| `Batch.AverageBetsWhenLostBounds` | src/components/Bet1StrategyAnalysis.tsx:107-112 | when some trial is lost, the average bets per lost trial is between 1 and 3 (all-in), 9 ($5) or 53 ($1) |
| `Batch.Tabulate` | src/components/Bet5StrategyAnalysis.tsx:77-110 | the batch loop's wins, loss count and loss-bet total are the counts over the trials run; wins plus losses is the trial count; the samples are exactly the first `min(5, numSims)` results in order with numbers `i + 1` |
| `Batch.RunSimulations` | src/components/AllInStrategyAnalysis.tsx:77-110 | the same, with trial `i` being the single-trial routine on `draws(i)`; a count of 0 or less runs no trial |
| `Chart.MaxLength` | src/components/Bet1StrategyAnalysis.tsx:123 | the result is the length of the longest sample history (at least every length, equal to one), or 0 without samples |
| `Chart.ChartRows` | src/components/Bet1StrategyAnalysis.tsx:121-146 | one row per index below the longest sample history; row `i` is labelled `cadence * i`; sample `k`'s key is present exactly when `i` is within its history, holding its balance or winnings at `i` |
| `Chart.HistoryFollowsCadence` | src/components/AllInStrategyAnalysis.tsx:120-124 | history entry `i` has `bet == cadence * i` (cadence 1, or 10 for $1): every entry but the all-in and $5 final snapshot was recorded before that bet, and the final snapshot after the last bet, so each row's label is the bet count of every entry it shows |
| `Chart.BatchChart` | src/components/Bet1StrategyAnalysis.tsx:88-146 | the charted samples are the batch's first `min(5, numSims)` trials in order, numbered from 1; row `i` is labelled `cadence * i`; sample `k`'s key is in row `i` exactly when its history reaches `i`, and holds the balance or winnings of the history entry whose bet count is the row's label |

## Left out

- React state, hooks, JSX and chart rendering: presentation only. The chart
  rows that feed the charts are modelled.
- `Math.random() < 0.35`: replaced by the outcome oracle. The model makes no
  probabilistic claim.
- The `winRate` string (`toFixed` of `wins / numSims * 100`) and the
  `toLocaleString` display: floating-point formatting. The average bets per
  lost trial is kept as an exact rational, not a double.
- `calculateExpectedValue` in Bet1StrategyAnalysis.tsx: float arithmetic
  used only for display.
- The request count: the `parseInt(...) || 1000` fallback in App.tsx is not
  modelled. The batch accepts any integer, and a count of 0 or less runs no
  trial.
- An empty sample list: the source's `Math.max()` of no lengths is
  `-Infinity` and `Chart.MaxLength` gives 0. Both build no row.
- Re-running a batch on a button click or a count change: this replaces the
  component state and is I/O of the presentation layer.
- vite.config.ts: build configuration.
