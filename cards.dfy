/** Card ranks, their Punto Banco point values and the total of a hand. */
module Cards {

  /** A card rank: 1 is the ace, 10 the ten, 11, 12 and 13 the jack, queen and king. */
  type Rank = r: int | 1 <= r <= 13 witness 1

  /** The point value of each rank, indexed by rank - 1 (the CARD_VALUES table). */
  const CardValues: seq<int> := [1, 2, 3, 4, 5, 6, 7, 8, 9, 0, 0, 0, 0]

  /** Aces to nines count their face value; tens and court cards count nothing. */
  function CardValue(rank: Rank): (v: int)
    ensures 0 <= v <= 9
    ensures rank <= 9 ==> v == rank
    ensures rank >= 10 ==> v == 0
  {
    CardValues[rank - 1]
  }

  /** The sum of the point values of some cards, before reduction modulo 10. */
  function PointSum(cards: seq<Rank>): nat
  {
    if cards == [] then 0 else CardValue(cards[0]) + PointSum(cards[1..])
  }

  /** The Baccarat total of a hand: the last digit of its point sum. */
  function HandTotal(cards: seq<Rank>): (t: int)
    ensures 0 <= t <= 9
  {
    PointSum(cards) % 10
  }

  lemma {:induction false} PointSumAppend(a: seq<Rank>, b: seq<Rank>)
    ensures PointSum(a + b) == PointSum(a) + PointSum(b)
    decreases |a|
  {
    if a == [] {
      assert a + b == b;
    } else {
      assert (a + b)[1..] == a[1..] + b;
      PointSumAppend(a[1..], b);
    }
  }

  /** Taking the card at index j out of a hand lowers its point sum by that card's value. */
  lemma {:induction false} PointSumRemove(b: seq<Rank>, j: nat)
    requires j < |b|
    ensures PointSum(b) == CardValue(b[j]) + PointSum(b[..j] + b[j + 1..])
  {
    var front, back := b[..j], b[j + 1..];
    var tail := [b[j]] + back;
    assert b == front + tail;
    assert tail[1..] == back;
    assert PointSum(tail) == CardValue(b[j]) + PointSum(back);
    PointSumAppend(front, tail);
    PointSumAppend(front, back);
  }

  /** Taking the card at index j out of a hand takes one copy of it out of the hand's multiset. */
  lemma {:induction false} MultisetRemove(b: seq<Rank>, j: nat)
    requires j < |b|
    ensures multiset(b[..j] + b[j + 1..]) == multiset(b) - multiset{b[j]}
  {
    assert b == b[..j] + [b[j]] + b[j + 1..];
  }

  /** The point sum depends only on which cards are held, not on their order. */
  lemma {:induction false} PointSumPermutation(a: seq<Rank>, b: seq<Rank>)
    requires multiset(a) == multiset(b)
    ensures PointSum(a) == PointSum(b)
    decreases |a|
  {
    if a == [] {
      assert |multiset(b)| == 0;
    } else {
      var x := a[0];
      assert x in multiset(a);
      var j :| 0 <= j < |b| && b[j] == x;
      MultisetRemove(a, 0);
      MultisetRemove(b, j);
      assert a[..0] + a[1..] == a[1..];
      PointSumPermutation(a[1..], b[..j] + b[j + 1..]);
      PointSumRemove(b, j);
    }
  }

  /** Reordering the cards of a hand leaves its total unchanged. */
  lemma HandTotalReorder(a: seq<Rank>, b: seq<Rank>)
    requires multiset(a) == multiset(b)
    ensures HandTotal(a) == HandTotal(b)
  {
    PointSumPermutation(a, b);
  }

  /** A ten or a court card, added anywhere in a hand, leaves its total unchanged. */
  lemma FaceCardAddsNothing(front: seq<Rank>, back: seq<Rank>, k: Rank)
    requires k >= 10
    ensures HandTotal(front + [k] + back) == HandTotal(front + back)
  {
    PointSumAppend(front + [k], back);
    PointSumAppend(front, [k]);
    PointSumAppend(front, back);
    assert PointSum([k]) == CardValue(k) == 0;
  }

  /** Adding a card to a hand moves its total by that card's value, modulo 10. */
  lemma HandTotalAddCard(cards: seq<Rank>, k: Rank)
    ensures HandTotal(cards + [k]) == (HandTotal(cards) + CardValue(k)) % 10
  {
    PointSumAppend(cards, [k]);
    assert PointSum([k]) == CardValue(k);
  }
}
