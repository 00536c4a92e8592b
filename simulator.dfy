/**
 * The Monte Carlo estimator: up to n hands, each dealt from a fresh copy of
 * one shoe composition, turned into outcome frequencies.
 */
module Simulator {
  import opened Wrappers
  import opened ShoeCounts
  import opened Shoes
  import opened Dealer

  /** Wins per outcome. */
  datatype Tally = Tally(player: nat, banker: nat, tie: nat)

  const NoWins := Tally(0, 0, 0)

  /** The number of hands a tally records. */
  function Completed(t: Tally): nat
  {
    t.player + t.banker + t.tie
  }

  /** The tally with one more win for outcome o. */
  function Record(t: Tally, o: Outcome): (u: Tally)
    ensures u.player == t.player + (if o == Player then 1 else 0)
    ensures u.banker == t.banker + (if o == Banker then 1 else 0)
    ensures u.tie == t.tie + (if o == Tie then 1 else 0)
    ensures Completed(u) == Completed(t) + 1
  {
    match o
    case Player => t.(player := t.player + 1)
    case Banker => t.(banker := t.banker + 1)
    case Tie => t.(tie := t.tie + 1)
  }

  function Plus(a: Tally, b: Tally): Tally
  {
    Tally(a.player + b.player, a.banker + b.banker, a.tie + b.tie)
  }

  /** The number of trials a request for n simulations runs at most: a negative n runs none. */
  function Trials(n: int): nat
  {
    if n < 0 then 0 else n
  }

  /**
   * The tally of up to n hands, each dealt from the same counts c, with the
   * stream rolls consumed in order across them; the first hand the shoe
   * cannot complete ends the run.
   */
  function RunTrials(c: Counts, n: nat, rolls: seq<nat>): (t: Tally)
    requires |rolls| >= 6 * n
    ensures Completed(t) <= n
    decreases n, 1
  {
    if n == 0 then NoWins else AfterDeal(c, n, rolls, DealSpec(c, rolls))
  }

  /** The rest of a run of n trials once its first deal d is known. */
  function AfterDeal(c: Counts, n: nat, rolls: seq<nat>, d: Option<Deal>): (t: Tally)
    requires n > 0 && |rolls| >= 6 * n
    requires d.Some? ==> d.value.used <= 6
    ensures Completed(t) <= n
    decreases n, 0
  {
    match d
    case None => NoWins
    case Some(d) => Record(RunTrials(c, n - 1, rolls[d.used..]), d.hand.outcome)
  }

  /** One trial of a run: the first hand is dealt, then the rest of the run follows on the remaining stream. */
  lemma RunTrialsStep(c: Counts, n: nat, rolls: seq<nat>)
    requires n > 0 && |rolls| >= 6 * n
    ensures DealSpec(c, rolls).None? ==> RunTrials(c, n, rolls) == NoWins
    ensures DealSpec(c, rolls).Some? ==>
      var d := DealSpec(c, rolls).value;
      RunTrials(c, n, rolls) == Record(RunTrials(c, n - 1, rolls[d.used..]), d.hand.outcome)
  {
  }

  /** The accumulator form of RunTrialsStep that the estimator's loop keeps. */
  lemma TrialStep(wins: Tally, c: Counts, n: nat, rolls: seq<nat>)
    requires n > 0 && |rolls| >= 6 * n
    ensures DealSpec(c, rolls).None? ==> Plus(wins, RunTrials(c, n, rolls)) == wins
    ensures DealSpec(c, rolls).Some? ==>
      var d := DealSpec(c, rolls).value;
      Plus(wins, RunTrials(c, n, rolls)) == Plus(Record(wins, d.hand.outcome), RunTrials(c, n - 1, rolls[d.used..]))
  {
    RunTrialsStep(c, n, rolls);
    match DealSpec(c, rolls)
    case None =>
      PlusNoWins(wins);
    case Some(d) =>
      PlusRecord(wins, RunTrials(c, n - 1, rolls[d.used..]), d.hand.outcome);
  }

  /**
   * The remaining run of RunTrialsStep, with its trial count n - 1 named m:
   * the form in which the estimator's loop and the induction below use it.
   * The equation holds by the requires alone. It is a lemma of its own
   * because the solver does not identify RunTrials(c, n - 1, rolls) with
   * the same run at a variable equal to n - 1 when the RunTrials unfolding
   * happens in the same proof, and stated inline it makes those proofs
   * exceed the resource limit.
   */
  lemma CountDown(c: Counts, n: nat, m: nat, rolls: seq<nat>)
    requires n > 0 && m == n - 1 && |rolls| >= 6 * m
    ensures RunTrials(c, n - 1, rolls) == RunTrials(c, m, rolls)
  {
  }

  /** Moving one recorded win from one side of a sum to the other. */
  lemma PlusRecord(a: Tally, b: Tally, o: Outcome)
    ensures Plus(a, Record(b, o)) == Plus(Record(a, o), b)
  {
  }

  /** The empty tally is neutral on either side of a sum. */
  lemma PlusNoWins(a: Tally)
    ensures Plus(a, NoWins) == a
    ensures Plus(NoWins, a) == a
  {
  }

  /** A shoe that always has six cards completes every one of the n trials. */
  lemma {:induction false} AllTrialsComplete(c: Counts, n: nat, rolls: seq<nat>)
    requires |rolls| >= 6 * n && Sum(c) >= 6
    ensures Completed(RunTrials(c, n, rolls)) == n
    decreases n
  {
    if n > 0 {
      DealCompletesOnSixCards(c, rolls);
      RunTrialsStep(c, n, rolls);
      var d := DealSpec(c, rolls).value;
      var later := rolls[d.used..];
      var m := n - 1;
      AllTrialsComplete(c, m, later);
      CountDown(c, n, m, later);
    }
  }

  /** A shoe with fewer than four cards completes no trial. */
  lemma NoTrialOnShortShoe(c: Counts, n: nat, rolls: seq<nat>)
    requires |rolls| >= 6 * n && Sum(c) < 4
    ensures RunTrials(c, n, rolls) == NoWins
  {
    if n > 0 {
      DealFailsOnShortShoe(c, rolls);
      RunTrialsStep(c, n, rolls);
    }
  }

  /** The all-zero distribution returned when no hand was completed. */
  const NoHands: map<Outcome, real> := map[Player := 0.0, Banker := 0.0, Tie := 0.0]

  /** The share of total that count makes up, as a real in [0, 1]. */
  function Share(count: nat, total: nat): (s: real)
    requires 0 < total && count <= total
    ensures 0.0 <= s <= 1.0
  {
    count as real / total as real
  }

  /** A share times the total gives back the count. */
  lemma ShareScales(count: nat, total: nat)
    requires 0 < total && count <= total
    ensures Share(count, total) * total as real == count as real
  {
  }

  /** The shares of three counts in their own sum add up to one. */
  lemma SharesSum(a: nat, b: nat, c: nat, n: nat)
    requires n == a + b + c && n > 0
    ensures Share(a, n) + Share(b, n) + Share(c, n) == 1.0
  {
    var x, y, z := Share(a, n), Share(b, n), Share(c, n);
    var r := n as real;
    ShareScales(a, n);
    ShareScales(b, n);
    ShareScales(c, n);
    calc {
      (x + y + z) * r;
      x * r + y * r + z * r;
      a as real + b as real + c as real;
      r;
    }
    assert x + y + z == 1.0 by {
      assert (x + y + z - 1.0) * r == 0.0;
    }
  }

  /**
   * Wins divided by completed hands, or all zeros when no hand was completed.
   */
  function Frequencies(t: Tally): (p: map<Outcome, real>)
    ensures p.Keys == {Player, Banker, Tie}
    ensures Completed(t) == 0 ==> p == NoHands
    ensures forall o :: o in p ==> 0.0 <= p[o] <= 1.0
  {
    var total := Completed(t);
    if total == 0 then NoHands
    else map[Player := Share(t.player, total), Banker := Share(t.banker, total), Tie := Share(t.tie, total)]
  }

  /** Once a hand was completed, the three frequencies sum to one. */
  lemma FrequenciesSumToOne(t: Tally)
    requires Completed(t) > 0
    ensures var p := Frequencies(t); p[Player] + p[Banker] + p[Tie] == 1.0
  {
    var total := Completed(t);
    var p := Frequencies(t);
    assert p[Player] == Share(t.player, total);
    assert p[Banker] == Share(t.banker, total);
    assert p[Tie] == Share(t.tie, total);
    SharesSum(t.player, t.banker, t.tie, total);
  }

  /** The wins a tally records for outcome o. */
  function Wins(t: Tally, o: Outcome): nat
  {
    match o
    case Player => t.player
    case Banker => t.banker
    case Tie => t.tie
  }

  /** Once a hand was completed, an outcome's frequency is its share of the completed hands. */
  lemma FrequencyIsShare(t: Tally, o: Outcome, n: nat)
    requires n == Completed(t) && n > 0
    ensures Frequencies(t)[o] == Share(Wins(t, o), n)
  {
  }

  /**
   * The trial loop of the estimator: deals up to n hands, each from a fresh
   * copy of the shoe, all drawing on one stream in trial order, and stops at
   * the first hand the shoe cannot complete. The given shoe is never changed
   * (no modifies clause).
   */
  method PlayTrials(shoe: Shoe, n: nat, rolls: seq<nat>) returns (wins: Tally)
    requires |rolls| >= 6 * n
    ensures wins == RunTrials(shoe.counts, n, rolls)
  {
    wins := NoWins;
    var baseCounts := shoe.counts;
    var left: nat := n;
    var pos: nat := 0;
    ghost var goal := RunTrials(baseCounts, n, rolls);
    assert rolls[pos..] == rolls;
    PlusNoWins(goal);
    while left > 0
      invariant left <= n
      invariant 0 <= pos <= |rolls| && |rolls| - pos >= 6 * left
      invariant shoe.counts == baseCounts
      invariant Plus(wins, RunTrials(baseCounts, left, rolls[pos..])) == goal
    {
      var stream := rolls[pos..];
      var tempShoe := new Shoe(shoe.decks, baseCounts);
      var result, used := DealHand(tempShoe, stream);
      if result.None? {
        TrialStep(wins, baseCounts, left, stream);
        break;
      }
      TrialStep(wins, baseCounts, left, stream);
      var nextWins := Record(wins, result.value.outcome);
      var nextPos := pos + used;
      var nextLeft := left - 1;
      ghost var tail := stream[used..];
      assert tail == rolls[nextPos..];
      CountDown(baseCounts, left, nextLeft, tail);
      wins, pos, left := nextWins, nextPos, nextLeft;
    }
    PlusNoWins(wins);
  }

  /**
   * The estimator: the frequencies of the outcomes over the hands the trial
   * loop completed, all zeros when it completed none.
   */
  method Simulate(shoe: Shoe, nSims: int, rolls: seq<nat>) returns (prob: map<Outcome, real>)
    requires |rolls| >= 6 * nSims
    ensures prob == Frequencies(RunTrials(shoe.counts, Trials(nSims), rolls))
    ensures prob.Keys == {Player, Banker, Tie}
    ensures Completed(RunTrials(shoe.counts, Trials(nSims), rolls)) == 0 ==> prob == NoHands
    ensures Completed(RunTrials(shoe.counts, Trials(nSims), rolls)) > 0 ==>
      prob[Player] + prob[Banker] + prob[Tie] == 1.0
  {
    var wins := PlayTrials(shoe, Trials(nSims), rolls);
    prob := Frequencies(wins);
    if Completed(wins) > 0 {
      FrequenciesSumToOne(wins);
    }
  }

  /** Two runs on the same shoe with the same stream give the same distribution. */
  method SimulateTwice(shoe: Shoe, nSims: int, rolls: seq<nat>) returns (first: map<Outcome, real>, second: map<Outcome, real>)
    requires |rolls| >= 6 * nSims
    ensures first == second
  {
    first := Simulate(shoe, nSims, rolls);
    second := Simulate(shoe, nSims, rolls);
  }
}
