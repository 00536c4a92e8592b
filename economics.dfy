/** Expected value per unit staked on each bet, and the Kelly stake fraction. */
module Economics {
  import opened Dealer

  /** The probability of an outcome; an outcome missing from the map reads as 0. */
  function Prob(prob: map<Outcome, real>, o: Outcome): real
  {
    if o in prob then prob[o] else 0.0
  }

  /**
   * The profit of one unit staked on bet when the hand ends in result, at
   * net odds payout: the payout on a win, the stake back on a tie for a
   * Player or Banker bet, the stake lost otherwise.
   */
  function Profit(bet: Outcome, result: Outcome, payout: real): real
  {
    if bet == result then payout
    else if result == Tie then 0.0
    else -1.0
  }

  /** The profit of a unit bet averaged over the three outcomes. */
  function MeanProfit(prob: map<Outcome, real>, bet: Outcome, payout: real): real
  {
    Prob(prob, Player) * Profit(bet, Player, payout)
    + Prob(prob, Banker) * Profit(bet, Banker, payout)
    + Prob(prob, Tie) * Profit(bet, Tie, payout)
  }

  /**
   * The expected value of a unit stake on each bet. For the Player and
   * Banker bets it is always the mean profit; for the Tie bet, which counts
   * every non-tie as a loss of 1 - P(Tie), only when the probabilities sum to 1.
   */
  function ExpectedValue(prob: map<Outcome, real>, payoutPlayer: real, payoutBanker: real, payoutTie: real)
    : (ev: map<Outcome, real>)
    ensures ev.Keys == {Player, Banker, Tie}
    ensures ev[Player] == MeanProfit(prob, Player, payoutPlayer)
    ensures ev[Banker] == MeanProfit(prob, Banker, payoutBanker)
    ensures Prob(prob, Player) + Prob(prob, Banker) + Prob(prob, Tie) == 1.0 ==>
      ev[Tie] == MeanProfit(prob, Tie, payoutTie)
  {
    var pP, pB, pT := Prob(prob, Player), Prob(prob, Banker), Prob(prob, Tie);
    map[
      Player := pP * payoutPlayer - pB * 1.0,
      Banker := pB * payoutBanker - pP * 1.0,
      Tie := pT * payoutTie - (1.0 - pT) * 1.0
    ]
  }

  /**
   * On the all-zero distribution (no hand completed), the Tie bet is
   * reported as a sure loss although no outcome has any weight.
   */
  lemma TieValueOnEmptyDistribution(payoutPlayer: real, payoutBanker: real, payoutTie: real)
    ensures var ev := ExpectedValue(map[Player := 0.0, Banker := 0.0, Tie := 0.0], payoutPlayer, payoutBanker, payoutTie);
      ev[Player] == 0.0 && ev[Banker] == 0.0 && ev[Tie] == -1.0
  {
  }

  /** A sure Player win at the default payouts: the Player bet gains 1, the other two bets lose 1. */
  lemma ExpectedValueOnSurePlayerWin()
    ensures var ev := ExpectedValue(map[Player := 1.0, Banker := 0.0, Tie := 0.0], 1.0, 0.95, 8.0);
      ev[Player] == 1.0 && ev[Banker] == -1.0 && ev[Tie] == -1.0
  {
  }

  function Max(a: real, b: real): real
  {
    if a >= b then a else b
  }

  /**
   * The Kelly fraction for a bet with the given edge per unit stake at net
   * odds payout: never negative, zero for a non-positive payout or a
   * non-positive edge, and otherwise the fraction f with f * payout == edge.
   */
  function KellyFraction(edge: real, payout: real): (f: real)
    ensures f >= 0.0
    ensures payout <= 0.0 || edge <= 0.0 ==> f == 0.0
    ensures payout > 0.0 && edge >= 0.0 ==> f * payout == edge
  {
    if payout <= 0.0 then 0.0
    else Max(0.0, edge / payout)
  }

  /**
   * For a win/lose bet won with probability p at net odds b, the edge is
   * p * b - (1 - p); the win probability is recovered as (edge + 1) / (b + 1),
   * and the Kelly fraction is the classic p - (1 - p) / b whenever that is
   * not negative, and zero otherwise.
   */
  lemma KellyIsClassicKelly(p: real, b: real)
    requires 0.0 <= p <= 1.0 && b > 0.0
    ensures var edge := p * b - (1.0 - p);
      && p == (edge + 1.0) / (b + 1.0)
      && KellyFraction(edge, b) == Max(0.0, p - (1.0 - p) / b)
  {
    var edge := p * b - (1.0 - p);
    assert edge + 1.0 == p * (b + 1.0);
    assert edge / b == p - (1.0 - p) / b by {
      assert (p * b) / b == p;
      assert edge / b == (p * b) / b - (1.0 - p) / b;
    }
  }
}
