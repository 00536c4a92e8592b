/** The Punto Banco drawing rules: naturals, the player's rule and the banker's tableau. */
module Rules {
  import opened Wrappers
  import opened Cards

  /** A two-card total of 8 or 9 is a natural, which ends the hand. */
  predicate IsNatural(total: int)
  {
    total == 8 || total == 9
  }

  /** The player draws a third card on a total of 0 to 5; the banker's cards are not consulted. */
  predicate PlayerDrawsThird(playerCards: seq<Rank>, bankerCards: seq<Rank>)
  {
    HandTotal(playerCards) <= 5
  }

  /**
   * Whether the banker draws a third card, given the value of the player's
   * third card, or None when the player stood.
   */
  predicate BankerDrawRule(bankerCards: seq<Rank>, playerThird: Option<int>)
  {
    var b := HandTotal(bankerCards);
    match playerThird
    case None => b <= 5
    case Some(v) =>
      if b <= 2 then true
      else if b == 3 then v != 8
      else if b == 4 then v in [2, 3, 4, 5, 6, 7]
      else if b == 5 then v in [4, 5, 6, 7]
      else if b == 6 then v in [6, 7]
      else false
  }

  /**
   * The banker's tableau as casinos print it: one row per banker total 0 to 7,
   * one column per value 0 to 9 of the player's third card and a last column
   * for a player who stood; 'D' is draw, 'S' is stand.
   */
  const Tableau: seq<string> := [
    "DDDDDDDDDDD",
    "DDDDDDDDDDD",
    "DDDDDDDDDDD",
    "DDDDDDDDSDD",
    "SSDDDDDDSSD",
    "SSSSDDDDSSD",
    "SSSSSSDDSSS",
    "SSSSSSSSSSS"
  ]

  /** The column of the tableau for a player's third card (or none). */
  function TableauColumn(playerThird: Option<int>): (col: nat)
    requires playerThird.Some? ==> 0 <= playerThird.value <= 9
    ensures col <= 10
    ensures playerThird.Some? <==> col < 10
  {
    match playerThird
    case None => 10
    case Some(v) => v
  }

  /** On every non-natural banker total, the rule draws exactly where the printed tableau says 'D'. */
  lemma BankerRuleMatchesTableau(bankerCards: seq<Rank>, playerThird: Option<int>)
    requires HandTotal(bankerCards) <= 7
    requires playerThird.Some? ==> 0 <= playerThird.value <= 9
    ensures BankerDrawRule(bankerCards, playerThird)
            <==> Tableau[HandTotal(bankerCards)][TableauColumn(playerThird)] == 'D'
  {
    var b := HandTotal(bankerCards);
    var col := TableauColumn(playerThird);
    assert Tableau[0] == "DDDDDDDDDDD" && Tableau[1] == "DDDDDDDDDDD" && Tableau[2] == "DDDDDDDDDDD";
    assert Tableau[3] == "DDDDDDDDSDD" && Tableau[4] == "SSDDDDDDSSD" && Tableau[5] == "SSSSDDDDSSD";
    assert Tableau[6] == "SSSSSSDDSSS" && Tableau[7] == "SSSSSSSSSSS";
  }

  /** A banker who stands on some total also stands on every higher total, whatever the player did. */
  lemma BankerRuleMonotone(lower: seq<Rank>, higher: seq<Rank>, playerThird: Option<int>)
    requires HandTotal(lower) <= HandTotal(higher)
    ensures BankerDrawRule(higher, playerThird) ==> BankerDrawRule(lower, playerThird)
  {
  }

  /** A player who stood leaves the banker under the player's own rule: draw on 0 to 5. */
  lemma BankerMirrorsPlayerWhenPlayerStands(bankerCards: seq<Rank>)
    ensures BankerDrawRule(bankerCards, None) == PlayerDrawsThird(bankerCards, [])
  {
  }
}
