/**
 * Dealing one hand from a shoe: two cards each, the natural check, the
 * player's third card, the banker's third card, and the outcome.
 */
module Dealer {
  import opened Wrappers
  import opened Cards
  import opened ShoeCounts
  import opened Shoes
  import opened Rules

  datatype Outcome = Player | Banker | Tie

  /** The cards and result of one dealt hand. */
  datatype Hand = Hand(outcome: Outcome, player: seq<Rank>, banker: seq<Rank>)

  /** A dealt hand, the counts it leaves in the shoe and how many stream entries it consumed. */
  datatype Deal = Deal(hand: Hand, rest: Counts, used: nat)

  /** The higher total wins; equal totals tie. */
  function Decide(playerTotal: int, bankerTotal: int): (o: Outcome)
    ensures o == Player <==> playerTotal > bankerTotal
    ensures o == Banker <==> playerTotal < bankerTotal
    ensures o == Tie <==> playerTotal == bankerTotal
  {
    if playerTotal > bankerTotal then Player
    else if bankerTotal > playerTotal then Banker
    else Tie
  }

  function Finish(pc: seq<Rank>, bc: seq<Rank>, rest: Counts, used: nat): Deal
  {
    Deal(Hand(Decide(HandTotal(pc), HandTotal(bc)), pc, bc), rest, used)
  }

  /** Every rank's count before equals its count after plus its copies among the dealt cards. */
  ghost predicate Conserves(before: Counts, after: Counts, dealt: seq<Rank>)
  {
    forall k: Rank :: before[k - 1] == after[k - 1] + multiset(dealt)[k]
  }

  lemma DrawConserves(c: Counts, x: nat, before: Counts, dealt: seq<Rank>)
    requires Draw(c, x).Some? && Conserves(before, c, dealt)
    ensures Conserves(before, Draw(c, x).value.rest, dealt + [Draw(c, x).value.rank])
  {
    var d := Draw(c, x).value;
    forall k: Rank
      ensures before[k - 1] == d.rest[k - 1] + multiset(dealt + [d.rank])[k]
    {
      assert multiset(dealt + [d.rank]) == multiset(dealt) + multiset{d.rank};
    }
  }

  /** The four opening cards, player, player, banker, banker, and the counts they leave. */
  datatype Opening = Opening(pc: seq<Rank>, bc: seq<Rank>, rest: Counts)

  /** The opening deal from counts c with stream entries rolls[0..4]; None when the shoe runs out. */
  function OpeningDeal(c: Counts, rolls: seq<nat>): (o: Option<Opening>)
    requires |rolls| >= 4
    ensures o.Some? ==> |o.value.pc| == 2 && |o.value.bc| == 2
    ensures o.Some? ==> Sum(o.value.rest) == Sum(c) - 4
  {
    var p1 :- Draw(c, rolls[0]);
    var p2 :- Draw(p1.rest, rolls[1]);
    var b1 :- Draw(p2.rest, rolls[2]);
    var b2 :- Draw(b1.rest, rolls[3]);
    Some(Opening([p1.rank, p2.rank], [b1.rank, b2.rank], b2.rest))
  }

  /** The banker's action, with stream entry x for a third card, then the outcome. */
  function BankerStage(pc: seq<Rank>, bc: seq<Rank>, playerThird: Option<int>,
                       c: Counts, x: nat, used: nat): (d: Option<Deal>)
    ensures d.Some? ==> d.value.hand.player == pc
    ensures d.Some? ==> d.value.hand.banker == bc || (|d.value.hand.banker| == |bc| + 1 && d.value.hand.banker[..|bc|] == bc)
    ensures d.Some? ==> (|d.value.hand.banker| == |bc| + 1 <==> BankerDrawRule(bc, playerThird))
    ensures d.Some? ==> d.value.used == used + |d.value.hand.banker| - |bc|
    ensures d.Some? ==> Sum(d.value.rest) == Sum(c) - (|d.value.hand.banker| - |bc|)
  {
    if BankerDrawRule(bc, playerThird) then
      var b3 :- Draw(c, x);
      Some(Finish(pc, bc + [b3.rank], b3.rest, used + 1))
    else
      Some(Finish(pc, bc, c, used))
  }

  /**
   * What follows the opening: the natural check, the player's action on a
   * total of 0 to 5, the banker's action, and the outcome.
   */
  function ThirdCards(o: Opening, rolls: seq<nat>): (d: Option<Deal>)
    requires |rolls| >= 6 && |o.pc| == 2 && |o.bc| == 2
    ensures d.Some? ==> 4 <= d.value.used <= 6
    ensures d.Some? ==> 2 <= |d.value.hand.player| <= 3 && 2 <= |d.value.hand.banker| <= 3
    ensures d.Some? ==> d.value.used == |d.value.hand.player| + |d.value.hand.banker|
    ensures d.Some? ==> Sum(d.value.rest) == Sum(o.rest) - (d.value.used - 4)
    ensures d.Some? ==> d.value.hand.player[..2] == o.pc && d.value.hand.banker[..2] == o.bc
  {
    var pt, bt := HandTotal(o.pc), HandTotal(o.bc);
    if IsNatural(pt) || IsNatural(bt) then
      Some(Finish(o.pc, o.bc, o.rest, 4))
    else if pt <= 5 then
      var p3 :- Draw(o.rest, rolls[4]);
      BankerStage(o.pc + [p3.rank], o.bc, Some(CardValue(p3.rank)), p3.rest, rolls[5], 5)
    else
      BankerStage(o.pc, o.bc, None, o.rest, rolls[4], 4)
  }

  /**
   * One hand dealt from counts c with the random stream rolls: the value
   * DealHand computes. None when the shoe runs out of cards.
   */
  function DealSpec(c: Counts, rolls: seq<nat>): (d: Option<Deal>)
    requires |rolls| >= 6
    ensures d.Some? ==> 4 <= d.value.used <= 6
    ensures d.Some? ==> 2 <= |d.value.hand.player| <= 3 && 2 <= |d.value.hand.banker| <= 3
    ensures d.Some? ==> d.value.used == |d.value.hand.player| + |d.value.hand.banker|
    ensures d.Some? ==> Sum(d.value.rest) == Sum(c) - d.value.used
  {
    var o :- OpeningDeal(c, rolls);
    ThirdCards(o, rolls)
  }

  /** With fewer than four cards in the shoe the opening deal cannot be completed. */
  lemma DealFailsOnShortShoe(c: Counts, rolls: seq<nat>)
    requires |rolls| >= 6 && Sum(c) < 4
    ensures DealSpec(c, rolls).None?
  {
    assert OpeningDeal(c, rolls).None?;
  }

  /** With six cards or more in the shoe every hand is completed. */
  lemma DealCompletesOnSixCards(c: Counts, rolls: seq<nat>)
    requires |rolls| >= 6 && Sum(c) >= 6
    ensures DealSpec(c, rolls).Some?
  {
    var o := OpeningDeal(c, rolls);
    assert o.Some?;
    var pt, bt := HandTotal(o.value.pc), HandTotal(o.value.bc);
    if !(IsNatural(pt) || IsNatural(bt)) && pt <= 5 {
      var p3 := Draw(o.value.rest, rolls[4]);
      assert p3.Some?;
    }
  }

  /**
   * A natural in either opening hand ends the hand: both sides keep exactly
   * their two cards and exactly four cards leave the shoe.
   */
  lemma NaturalEndsHand(c: Counts, rolls: seq<nat>)
    requires |rolls| >= 6
    ensures DealSpec(c, rolls).Some? ==>
      var d := DealSpec(c, rolls).value;
      IsNatural(HandTotal(d.hand.player[..2])) || IsNatural(HandTotal(d.hand.banker[..2])) ==>
        |d.hand.player| == 2 && |d.hand.banker| == 2 && Sum(d.rest) == Sum(c) - 4
  {
    if DealSpec(c, rolls).Some? {
      var o := OpeningDeal(c, rolls).value;
      assert DealSpec(c, rolls) == ThirdCards(o, rolls);
    }
  }

  /**
   * Without a natural, the player ends with three cards exactly when the
   * two-card total is 0 to 5, which is PlayerDrawsThird.
   */
  lemma PlayerThirdCardRule(c: Counts, rolls: seq<nat>)
    requires |rolls| >= 6
    ensures DealSpec(c, rolls).Some? ==>
      var d := DealSpec(c, rolls).value;
      var pc, bc := d.hand.player[..2], d.hand.banker[..2];
      !IsNatural(HandTotal(pc)) && !IsNatural(HandTotal(bc)) ==>
        (|d.hand.player| == 3 <==> PlayerDrawsThird(pc, bc))
  {
    if DealSpec(c, rolls).Some? {
      var o := OpeningDeal(c, rolls).value;
      assert DealSpec(c, rolls) == ThirdCards(o, rolls);
    }
  }

  /**
   * Without a natural, the banker ends with three cards exactly when the
   * banker's rule holds for the opening banker cards and the value of the
   * player's third card, or None when the player stood.
   */
  lemma BankerThirdCardRule(c: Counts, rolls: seq<nat>)
    requires |rolls| >= 6
    ensures DealSpec(c, rolls).Some? ==>
      var d := DealSpec(c, rolls).value;
      var pc, bc := d.hand.player[..2], d.hand.banker[..2];
      var third := if |d.hand.player| == 3 then Some(CardValue(d.hand.player[2])) else None;
      !IsNatural(HandTotal(pc)) && !IsNatural(HandTotal(bc)) ==>
        (|d.hand.banker| == 3 <==> BankerDrawRule(bc, third))
  {
    if DealSpec(c, rolls).Some? {
      var o := OpeningDeal(c, rolls).value;
      assert DealSpec(c, rolls) == ThirdCards(o, rolls);
    }
  }

  lemma FinishOutcome(pc: seq<Rank>, bc: seq<Rank>, rest: Counts, used: nat)
    ensures var h := Finish(pc, bc, rest, used).hand;
      && (h.outcome == Player <==> HandTotal(h.player) > HandTotal(h.banker))
      && (h.outcome == Banker <==> HandTotal(h.player) < HandTotal(h.banker))
      && (h.outcome == Tie <==> HandTotal(h.player) == HandTotal(h.banker))
  {
  }

  /** The outcome names the side with the higher final total, and Tie on equal totals. */
  lemma OutcomeMatchesTotals(c: Counts, rolls: seq<nat>)
    requires |rolls| >= 6
    ensures DealSpec(c, rolls).Some? ==>
      var h := DealSpec(c, rolls).value.hand;
      && (h.outcome == Player <==> HandTotal(h.player) > HandTotal(h.banker))
      && (h.outcome == Banker <==> HandTotal(h.player) < HandTotal(h.banker))
      && (h.outcome == Tie <==> HandTotal(h.player) == HandTotal(h.banker))
  {
    if DealSpec(c, rolls).Some? {
      var d := DealSpec(c, rolls).value;
      assert d == Finish(d.hand.player, d.hand.banker, d.rest, d.used) by {
        var o := OpeningDeal(c, rolls).value;
        assert DealSpec(c, rolls) == ThirdCards(o, rolls);
        var pt, bt := HandTotal(o.pc), HandTotal(o.bc);
        if !(IsNatural(pt) || IsNatural(bt)) {
          if pt <= 5 {
            var p3 := Draw(o.rest, rolls[4]).value;
            var third := Some(CardValue(p3.rank));
            if BankerDrawRule(o.bc, third) {
              var b3 := Draw(p3.rest, rolls[5]).value;
            }
          } else if BankerDrawRule(o.bc, None) {
            var b3 := Draw(o.rest, rolls[4]).value;
          }
        }
      }
      FinishOutcome(d.hand.player, d.hand.banker, d.rest, d.used);
    }
  }

  lemma OpeningConserves(c: Counts, rolls: seq<nat>)
    requires |rolls| >= 4 && OpeningDeal(c, rolls).Some?
    ensures var o := OpeningDeal(c, rolls).value;
      Conserves(c, o.rest, o.pc + o.bc)
  {
    var p1 := Draw(c, rolls[0]).value;
    var p2 := Draw(p1.rest, rolls[1]).value;
    var b1 := Draw(p2.rest, rolls[2]).value;
    var b2 := Draw(b1.rest, rolls[3]).value;
    assert Conserves(c, c, []);
    DrawConserves(c, rolls[0], c, []);
    DrawConserves(p1.rest, rolls[1], c, [p1.rank]);
    DrawConserves(p2.rest, rolls[2], c, [p1.rank] + [p2.rank]);
    DrawConserves(b1.rest, rolls[3], c, [p1.rank] + [p2.rank] + [b1.rank]);
    var o := OpeningDeal(c, rolls).value;
    assert [p1.rank] + [p2.rank] + [b1.rank] + [b2.rank] == o.pc + o.bc;
  }

  lemma BankerStageConserves(before: Counts, pc: seq<Rank>, bc: seq<Rank>, playerThird: Option<int>,
                             c: Counts, x: nat, used: nat)
    requires BankerStage(pc, bc, playerThird, c, x, used).Some?
    requires Conserves(before, c, pc + bc)
    ensures var d := BankerStage(pc, bc, playerThird, c, x, used).value;
      Conserves(before, d.rest, d.hand.player + d.hand.banker)
  {
    if BankerDrawRule(bc, playerThird) {
      var b3 := Draw(c, x).value;
      DrawConserves(c, x, before, pc + bc);
      assert pc + bc + [b3.rank] == pc + (bc + [b3.rank]);
    }
  }

  lemma ThirdCardsConserve(before: Counts, o: Opening, rolls: seq<nat>)
    requires |rolls| >= 6 && |o.pc| == 2 && |o.bc| == 2 && ThirdCards(o, rolls).Some?
    requires Conserves(before, o.rest, o.pc + o.bc)
    ensures var d := ThirdCards(o, rolls).value;
      Conserves(before, d.rest, d.hand.player + d.hand.banker)
  {
    var pt, bt := HandTotal(o.pc), HandTotal(o.bc);
    if IsNatural(pt) || IsNatural(bt) {
    } else if pt <= 5 {
      var p3 := Draw(o.rest, rolls[4]).value;
      DrawConserves(o.rest, rolls[4], before, o.pc + o.bc);
      var pc := o.pc + [p3.rank];
      assert multiset(o.pc + o.bc + [p3.rank]) == multiset(pc + o.bc);
      assert Conserves(before, p3.rest, pc + o.bc);
      BankerStageConserves(before, pc, o.bc, Some(CardValue(p3.rank)), p3.rest, rolls[5], 5);
    } else {
      BankerStageConserves(before, o.pc, o.bc, None, o.rest, rolls[4], 4);
    }
  }

  /** Every card dealt came out of the shoe: per rank, the count before is the count after plus the copies dealt. */
  lemma DealConservesCards(c: Counts, rolls: seq<nat>)
    requires |rolls| >= 6
    ensures DealSpec(c, rolls).Some? ==>
      var d := DealSpec(c, rolls).value;
      Conserves(c, d.rest, d.hand.player + d.hand.banker)
  {
    if DealSpec(c, rolls).Some? {
      var o := OpeningDeal(c, rolls).value;
      OpeningConserves(c, rolls);
      ThirdCardsConserve(c, o, rolls);
    }
  }

  /** Draws the four opening cards from the shoe; on failure the shoe is empty. */
  method DealOpening(shoe: Shoe, rolls: seq<nat>) returns (o: Option<Opening>)
    requires |rolls| >= 4
    modifies shoe
    ensures shoe.decks == old(shoe.decks)
    ensures o == OpeningDeal(old(shoe.counts), rolls)
    ensures o.None? ==> shoe.Remaining() == 0
    ensures o.Some? ==> shoe.counts == o.value.rest
  {
    var p1 := shoe.DrawRandom(rolls[0]);
    if p1.None? { return None; }
    var p2 := shoe.DrawRandom(rolls[1]);
    if p2.None? { return None; }
    var b1 := shoe.DrawRandom(rolls[2]);
    if b1.None? { return None; }
    var b2 := shoe.DrawRandom(rolls[3]);
    if b2.None? { return None; }
    o := Some(Opening([p1.value, p2.value], [b1.value, b2.value], shoe.counts));
  }

  /** The banker's action on the shoe, then the outcome: the steps BankerStage describes. */
  method BankerAction(shoe: Shoe, pc: seq<Rank>, bc: seq<Rank>, playerThird: Option<int>,
                      x: nat, used: nat) returns (res: Option<Hand>, usedAfter: nat)
    modifies shoe
    ensures shoe.decks == old(shoe.decks)
    ensures BankerStage(pc, bc, playerThird, old(shoe.counts), x, used).None? ==>
      res.None? && shoe.Remaining() == 0
    ensures BankerStage(pc, bc, playerThird, old(shoe.counts), x, used).Some? ==>
      var d := BankerStage(pc, bc, playerThird, old(shoe.counts), x, used).value;
      res == Some(d.hand) && shoe.counts == d.rest && usedAfter == d.used
  {
    var banker := bc;
    usedAfter := used;
    if BankerDrawRule(bc, playerThird) {
      var b3 := shoe.DrawRandom(x);
      if b3.None? { return None, 0; }
      banker := bc + [b3.value];
      usedAfter := used + 1;
    }
    var pt := HandTotal(pc);
    var bt := HandTotal(banker);
    res := Some(Hand(Decide(pt, bt), pc, banker));
  }

  /** Everything after the opening: the steps ThirdCards describes. */
  method PlayOut(shoe: Shoe, o: Opening, rolls: seq<nat>) returns (res: Option<Hand>, used: nat)
    requires |rolls| >= 6 && |o.pc| == 2 && |o.bc| == 2 && shoe.counts == o.rest
    modifies shoe
    ensures shoe.decks == old(shoe.decks)
    ensures ThirdCards(o, rolls).None? ==> res.None? && shoe.Remaining() == 0
    ensures ThirdCards(o, rolls).Some? ==>
      var d := ThirdCards(o, rolls).value;
      res == Some(d.hand) && shoe.counts == d.rest && used == d.used
  {
    var pc, bc := o.pc, o.bc;
    var pt := HandTotal(pc);
    var bt := HandTotal(bc);

    if IsNatural(pt) || IsNatural(bt) {
      return Some(Hand(Decide(pt, bt), pc, bc)), 4;
    }

    if pt <= 5 {
      var p3 := shoe.DrawRandom(rolls[4]);
      if p3.None? { return None, 0; }
      res, used := BankerAction(shoe, pc + [p3.value], bc, Some(CardValue(p3.value)), rolls[5], 5);
    } else {
      res, used := BankerAction(shoe, pc, bc, None, rolls[4], 4);
    }
  }

  /**
   * Deals one hand from the shoe, drawing player, player, banker, banker,
   * then the third cards the rules call for, with one stream entry per draw.
   * A failed draw abandons the hand; it can only fail once the shoe is empty.
   */
  method DealHand(shoe: Shoe, rolls: seq<nat>) returns (res: Option<Hand>, used: nat)
    requires |rolls| >= 6
    modifies shoe
    ensures shoe.decks == old(shoe.decks)
    ensures DealSpec(old(shoe.counts), rolls).None? ==> res.None? && shoe.Remaining() == 0
    ensures DealSpec(old(shoe.counts), rolls).Some? ==>
      var d := DealSpec(old(shoe.counts), rolls).value;
      res == Some(d.hand) && shoe.counts == d.rest && used == d.used
  {
    var opening := DealOpening(shoe, rolls);
    if opening.None? { return None, 0; }
    res, used := PlayOut(shoe, opening.value, rolls);
  }
}
