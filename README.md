# Baccarat toolkit core in Dafny

This project models the card-counting and odds core of `baccarat_toolkit.py`:

- the Punto Banco card values;
- the shoe, a per-rank counter of the cards left, with its weighted random draw;
- the hand total, the player's third-card rule and the banker's tableau;
- the dealing of one hand from a shoe;
- the Monte Carlo estimator of the next hand's outcome probabilities;
- the expected value of each bet and the Kelly stake fraction.

Modules, one per file:

- `Cards` (`cards.dfy`): ranks 1 to 13, the value table, `PointSum` and `HandTotal`, and lemmas about totals (order does not matter, tens and court cards add nothing, adding a card moves the total by its value modulo 10).
- `ShoeCounts` (`counts.dfy`): a shoe's composition as a value, thirteen counts in rank order. `Take`/`PutBack` remove and return one card. `Pick` walks the ranks until the cumulative count reaches `r`. `RandInt` turns a random stream entry into `randint(1, total)`. `Draw` is one weighted draw.
- `Shoes` (`shoe.dfy`): the `Shoe` class. Its `counts` field is updated in place by `Remove`, `AddBack` and `DrawRandom`; each is proved against the value functions of `ShoeCounts`. `DrawRandom` keeps the source's accumulation loop.
- `Rules` (`rules.dfy`): naturals, `PlayerDrawsThird` and `BankerDrawRule`. The banker's rule is proved equal to the printed tableau, cell by cell.
- `Dealer` (`dealer.dfy`): `DealSpec` describes a hand as a value, in stages: `OpeningDeal`, `ThirdCards` and `BankerStage`. `DealHand` and its staged helper methods deal the hand from a `Shoe` and are proved to compute `DealSpec`. Lemmas state the drawing rules, the outcome rule, and card conservation: every dealt card came out of the shoe.
- `Simulator` (`simulator.dfy`): `RunTrials` is the tally of up to `n` hands, each dealt from a fresh copy of the same counts. `PlayTrials` is the estimator's loop, proved to compute `RunTrials`. `Simulate` turns the tally into frequencies.
- `Economics` (`economics.dfy`): `ExpectedValue` and `KellyFraction`, related to the mean profit of a unit bet and to the classic Kelly formula.
- `Wrappers` (`wrappers.dfy`): the `Option` type.

Randomness is an explicit input. Every draw consumes one entry `x` of a stream of naturals, and the drawn position is `RandInt(x, total) == 1 + x % total`. Every value in `1..total` is reachable (`RandIntCovers`), so the stream stands for every possible run of the generator. Seeding the generator becomes choosing the stream, and two runs with one stream agree (`SimulateTwice`). Probabilities, expected values and Kelly fractions are `real`.

## Model

| member | source | states |
|---|---|---|
| Cards.CardValue | baccarat_toolkit.py:12-15 | aces to nines count their face value, tens and court cards count 0, and every value is in 0..9 |
| Cards.HandTotal | baccarat_toolkit.py:63-64 | the total of a hand is a digit 0..9 (the point sum modulo 10) |
| Cards.PointSumPermutation | baccarat_toolkit.py:63-64 | two hands holding the same multiset of cards have the same point sum (proved by induction, removing one matching card at a time) |
| Cards.HandTotalReorder | baccarat_toolkit.py:63-64 | reordering the cards of a hand does not change its total |
| Cards.FaceCardAddsNothing | baccarat_toolkit.py:12-15 | a ten or court card inserted anywhere in a hand leaves its total unchanged |
| Cards.HandTotalAddCard | baccarat_toolkit.py:63-64 | appending a card moves the total by that card's value, modulo 10 |
| Cards.PointSumAppend | baccarat_toolkit.py:63-64 | the point sum of two concatenated hands is the sum of their point sums |
| ShoeCounts.SumUpdate | baccarat_toolkit.py:32-33 | changing one rank's count changes the number of remaining cards by exactly the same amount |
| ShoeCounts.CumMonotone | baccarat_toolkit.py:48-53 | the running count accumulated over the ranks never decreases |
| ShoeCounts.FullCounts | baccarat_toolkit.py:27-30 | a full shoe holds 4 * decks cards of every rank and 52 * decks cards in all |
| ShoeCounts.Take | baccarat_toolkit.py:35-38 | removing a card lowers that rank's count by one and the total by one |
| ShoeCounts.TakeKeepsOtherRanks | baccarat_toolkit.py:38 | removing a card leaves every other rank's count unchanged |
| ShoeCounts.PutBack | baccarat_toolkit.py:40-41 | returning a card raises that rank's count and the total by one and leaves the other ranks unchanged |
| ShoeCounts.PutBackUndoesTake | baccarat_toolkit.py:35-41 | returning a card just removed restores the exact composition |
| ShoeCounts.PickFrom | baccarat_toolkit.py:48-55 | the walk from rank k on stops at a rank with cards left, at which the running count first reaches r |
| ShoeCounts.Pick | baccarat_toolkit.py:48-55 | the walk over all ranks picks a rank that still has cards left |
| ShoeCounts.PickIsFirst | baccarat_toolkit.py:48-55 | the picked rank's running count reaches r, and at no earlier rank did it |
| ShoeCounts.PickUnique | baccarat_toolkit.py:48-55 | any rank whose running count first reaches r is the picked rank, and such an r lies in 1..total |
| ShoeCounts.RandInt | baccarat_toolkit.py:47 | the drawn position lies in 1..total |
| ShoeCounts.RandIntCovers | baccarat_toolkit.py:47 | every position in 1..total is drawn by some stream entry |
| ShoeCounts.Draw | baccarat_toolkit.py:43-61 | a draw fails exactly when the shoe is empty; otherwise it takes out one card of a rank that had cards left, and the total falls by one |
| Shoes.Shoe.constructor | baccarat_toolkit.py:22-30 | empty counts give a full shoe of the given decks; thirteen given counts are kept as they are |
| Shoes.Shoe.Remaining | baccarat_toolkit.py:32-33 | the count of cards left is zero exactly when no rank has a card left; how it moves under each change is stated by ShoeCounts.SumUpdate and ShoeCounts.FullCounts |
| Shoes.Shoe.Remove | baccarat_toolkit.py:35-38 | succeeds exactly when the rank has a card left, then takes out one card of it; otherwise the shoe is unchanged |
| Shoes.Shoe.AddBack | baccarat_toolkit.py:40-41 | puts one card of the rank back, and the remaining count rises by one |
| Shoes.Shoe.DrawRandom | baccarat_toolkit.py:43-61 | the accumulation loop computes Draw: it fails and changes nothing on an empty shoe, otherwise it returns the picked rank and takes that card out |
| Rules.IsNatural | baccarat_toolkit.py:101 | a two-card total of 8 or 9; Dealer.NaturalEndsHand states that it ends the hand with no third card |
| Rules.PlayerDrawsThird | baccarat_toolkit.py:66-71 | the player draws on a total of 0 to 5 whatever the banker holds; Dealer.PlayerThirdCardRule states that the dealt hand follows it |
| Rules.BankerDrawRule | baccarat_toolkit.py:73-89 | the banker's draw decision; Rules.BankerRuleMatchesTableau states that it equals the standard tableau cell by cell, and Dealer.BankerThirdCardRule that the dealt hand follows it |
| Rules.TableauColumn | baccarat_toolkit.py:74 | a player's third-card value maps to a tableau column 0..9, and a player who stood maps to the last column |
| Rules.BankerRuleMatchesTableau | baccarat_toolkit.py:73-89 | on each banker total 0..7 the banker draws exactly where the standard tableau says draw, for every third-card value and for a player who stood |
| Rules.BankerRuleMonotone | baccarat_toolkit.py:73-89 | a banker who stands on a total also stands on every higher total |
| Rules.BankerMirrorsPlayerWhenPlayerStands | baccarat_toolkit.py:66-77 | when the player stood, the banker follows the player's rule: draw on 0..5 |
| Dealer.OpeningDeal | baccarat_toolkit.py:94-95 | the opening deal gives two cards to each side and takes four cards out of the shoe |
| Dealer.BankerStage | baccarat_toolkit.py:115-118 | the banker keeps the player's cards and gains a third card exactly when the banker's rule says draw; the stream use and the shoe's count move by the cards drawn |
| Dealer.ThirdCards | baccarat_toolkit.py:100-128 | after the opening, each side holds 2 or 3 cards extending its opening cards, and each card uses one stream entry and one card of the shoe |
| Dealer.DealSpec | baccarat_toolkit.py:91-128 | a completed hand uses 4 to 6 cards, one stream entry per card, and the shoe loses exactly those cards |
| Dealer.DealFailsOnShortShoe | baccarat_toolkit.py:94-95 | a shoe with fewer than four cards cannot deal a hand |
| Dealer.DealCompletesOnSixCards | baccarat_toolkit.py:91-128 | a shoe with six or more cards always completes a hand |
| Dealer.NaturalEndsHand | baccarat_toolkit.py:100-107 | a natural 8 or 9 on either side ends the hand with two cards each and four cards dealt |
| Dealer.PlayerThirdCardRule | baccarat_toolkit.py:109-113 | without a natural, the player takes a third card exactly when PlayerDrawsThird holds for the opening cards |
| Dealer.BankerThirdCardRule | baccarat_toolkit.py:115-118 | without a natural, the banker takes a third card exactly when the banker's rule holds, given the player's third-card value or a player who stood |
| Dealer.Decide | baccarat_toolkit.py:102-107 | Player exactly when the player total is higher, Banker exactly when the banker total is higher, Tie exactly on equal totals (the same choice is made at lines 123-128) |
| Dealer.FinishOutcome | baccarat_toolkit.py:120-128 | Player wins exactly on the higher player total, Banker exactly on the higher banker total, Tie exactly on equal totals |
| Dealer.OutcomeMatchesTotals | baccarat_toolkit.py:101-107 | every dealt hand, natural or not, names as winner the side with the higher final total, and Tie on equal totals |
| Dealer.DrawConserves | baccarat_toolkit.py:54-55 | a draw keeps card conservation: the drawn card moves from the shoe to the dealt cards |
| Dealer.OpeningConserves | baccarat_toolkit.py:94-95 | the four opening cards are exactly the cards the shoe lost, rank by rank |
| Dealer.BankerStageConserves | baccarat_toolkit.py:117-118 | the banker's stage preserves card conservation |
| Dealer.ThirdCardsConserve | baccarat_toolkit.py:109-118 | the third-card stages preserve card conservation |
| Dealer.DealConservesCards | baccarat_toolkit.py:91-128 | per rank, the shoe's count before a hand equals its count after plus the copies dealt to either side |
| Dealer.DealOpening | baccarat_toolkit.py:94-95 | draws the opening deal from the shoe, leaving the shoe at OpeningDeal's remaining counts; a failure leaves the shoe empty |
| Dealer.BankerAction | baccarat_toolkit.py:115-128 | the banker's in-place draw and the outcome compute BankerStage |
| Dealer.PlayOut | baccarat_toolkit.py:97-128 | the in-place natural check, player action and banker action compute ThirdCards |
| Dealer.DealHand | baccarat_toolkit.py:91-128 | dealing a hand from the shoe computes DealSpec on the shoe's counts: the same hand, stream use and remaining counts; a failure leaves the shoe empty |
| Simulator.Record | baccarat_toolkit.py:144 | recording a hand adds one win to that hand's outcome, leaves the other two outcomes' wins unchanged, and so adds exactly one completed hand |
| Simulator.RunTrials | baccarat_toolkit.py:136-144 | a run of n trials completes at most n hands |
| Simulator.AfterDeal | baccarat_toolkit.py:139-144 | the run that follows a first deal completes at most n hands |
| Simulator.RunTrialsStep | baccarat_toolkit.py:136-144 | a failed first hand ends the run with no wins; otherwise the run records that hand's outcome on the run of the remaining trials over the rest of the stream |
| Simulator.TrialStep | baccarat_toolkit.py:136-144 | RunTrialsStep restated with a running tally added, as the loop keeps it |
| Simulator.AllTrialsComplete | baccarat_toolkit.py:136-144 | a shoe with at least six cards completes all n trials (by induction on n) |
| Simulator.NoTrialOnShortShoe | baccarat_toolkit.py:139-143 | a shoe with fewer than four cards completes no trial |
| Simulator.Share | baccarat_toolkit.py:148 | a count's share of a total it does not exceed lies in [0, 1] |
| Simulator.ShareScales | baccarat_toolkit.py:148 | a share times its total gives back the count |
| Simulator.SharesSum | baccarat_toolkit.py:145-148 | the shares of three counts in their own sum add up to 1 |
| Simulator.Frequencies | baccarat_toolkit.py:145-148 | the result has exactly the three outcome keys, is all zeros when no hand was completed, and holds values in [0, 1] |
| Simulator.FrequenciesSumToOne | baccarat_toolkit.py:145-148 | once a hand was completed, the three frequencies sum to 1 |
| Simulator.FrequencyIsShare | baccarat_toolkit.py:148 | each outcome's frequency is its win count's share of the completed hands |
| Simulator.PlayTrials | baccarat_toolkit.py:133-144 | the trial loop, which deals each hand from a fresh copy of the counts and stops at the first failed deal, computes RunTrials on the shoe's counts; the shoe itself is not modified |
| Simulator.Simulate | baccarat_toolkit.py:130-148 | the estimate is the frequencies of RunTrials: three keys, all zeros when no hand completed, and summing to 1 otherwise |
| Simulator.SimulateTwice | baccarat_toolkit.py:130-132 | with the same shoe and the same random stream (the same seed), two estimates are equal |
| Economics.ExpectedValue | baccarat_toolkit.py:150-166 | the Player and Banker values are the mean profit of a unit bet (win pays the payout, loss costs 1, a tie pushes); the Tie value is the mean profit whenever the probabilities sum to 1 |
| Economics.ExpectedValueOnSurePlayerWin | baccarat_toolkit.py:150-166 | with Player certain, at payouts 1.0, 0.95 and 8.0, the values are 1 for Player and -1 for Banker and Tie |
| Economics.TieValueOnEmptyDistribution | baccarat_toolkit.py:164 | on the all-zero distribution the estimator returns when no hand completed, the Player and Banker values are 0 but the Tie value is -1 |
| Economics.KellyFraction | baccarat_toolkit.py:168-175 | the fraction is never negative, is 0 for a non-positive payout or edge, and otherwise times the payout gives the edge |
| Economics.KellyIsClassicKelly | baccarat_toolkit.py:168-175 | for a win probability p and net odds b, the edge recovers p as (edge + 1) / (b + 1), and the fraction equals the classic Kelly stake max(0, p - (1 - p) / b) |

## Left out

- The Streamlit and command-line front ends, CSV export, timing, and the `RANK_LABEL` table: they are user interface, not the counting and odds core. The clamping of the deck count to a valid range happens in the front end and is not modelled.
- The random generator: it becomes an input stream of naturals, one entry per draw. `random.randint(1, total)` is `RandInt(x, total) == 1 + x % total`. The estimator is given a stream of at least six entries per trial, the most one hand can use, so it never runs out of stream before it runs out of trials.
- Floating point: probabilities, expected values and Kelly fractions are exact `real`s. Rounding in the division `v / total` and in the EV arithmetic is not modelled.
- Shoes.Shoe.constructor: the shoe's dictionary becomes exactly thirteen counts for ranks 1 to 13, in rank order, each a natural number. A dictionary with other keys, missing ranks or negative counts is not representable. A full shoe is built only for a non-negative number of decks, because `4 * decks` would give negative counts otherwise. The default of 8 decks is a caller's choice and is not modelled.
- Shoes.Shoe.AddBack: takes a rank 1 to 13. The source raises `KeyError` for a rank that is not a key of its dictionary.
- Shoes.Shoe.Remove: a rank with no card left makes the source raise `ValueError`. A rank outside 1..13 makes it raise `KeyError` while it builds that error's message from `RANK_LABEL`. The model returns `false` in both cases, and the shoe is unchanged in the source and the model.
- Shoes.Shoe.DrawRandom: the "Shoe is empty" error becomes `None`. The fallback walk after the main loop, and its `RuntimeError`, are left out. The loop invariants of `DrawRandom` (the rank index stays below 13, and the running count stays below `r` until a rank is taken) show the main loop always returns a rank, so the fallback can never run. `PickUnique` identifies that rank as the one `Draw` picks.
- Dealer.DealHand: a `ValueError` from a draw becomes `None`. The cards drawn before the failure stay out of the shoe, and the method states only that the shoe is then empty. `deal_hand_from_shoe` does not put back the cards drawn before a failed draw, and the model keeps that. The estimator is unaffected, because it deals from a throwaway copy. `deal_hand_from_shoe` is split into `DealOpening`, `PlayOut` and `BankerAction`, which run the source's steps in its order.
- Dealer.PlayOut: the player's draw tests the two-card total `<= 5` directly, as the source does at line 111, rather than by calling `player_draws_third`. `PlayerThirdCardRule` proves the two agree.
- Simulator.Simulate: the `seed` argument becomes the choice of the random stream. Only the `ValueError` of an exhausted shoe ends the run early; other exceptions cannot arise in the model.
- Economics.ExpectedValue: missing keys read as probability 0, as `dict.get` does. The Tie value equals the mean profit only when the probabilities sum to 1; on other maps it is the source's formula, as `TieValueOnEmptyDistribution` shows. The default payouts (1.0, 0.95 and 8.0) are the caller's arguments.
