/**
 * The composition of a shoe as plain values: how many cards of each rank are
 * left, and what drawing one card at a given random position does to it.
 */
module ShoeCounts {
  import opened Wrappers
  import opened Cards

  /** Cards left per rank, at index rank - 1 (ranks 1 to 13 in order, as the shoe's dictionary keeps them). */
  type Counts = c: seq<nat> | |c| == 13 witness [0, 0, 0, 0, 0, 0, 0, 0, 0, 0, 0, 0, 0]

  /** The cumulative count of the first k ranks. */
  function Cum(s: seq<nat>, k: nat): nat
    requires k <= |s|
  {
    if k == 0 then 0 else Cum(s, k - 1) + s[k - 1]
  }

  /** The number of cards in a sequence of counts. */
  function Sum(s: seq<nat>): nat
  {
    Cum(s, |s|)
  }

  /** Cumulative counts never decrease along the ranks. */
  lemma {:induction false} CumMonotone(s: seq<nat>, i: nat, j: nat)
    requires i <= j <= |s|
    ensures Cum(s, i) <= Cum(s, j)
    decreases j - i
  {
    if i < j {
      CumMonotone(s, i, j - 1);
    }
  }

  lemma {:induction false} CumUpdate(s: seq<nat>, i: nat, v: nat, k: nat)
    requires i < |s| && k <= |s|
    ensures Cum(s[i := v], k) == if i < k then Cum(s, k) - s[i] + v else Cum(s, k)
  {
    if k > 0 {
      CumUpdate(s, i, v, k - 1);
      if i < k - 1 {
        CumMonotone(s, i + 1, k - 1);
        assert Cum(s, i + 1) == Cum(s, i) + s[i];
      }
    }
  }

  /** The first k ranks hold no card exactly when each of their counts is zero. */
  lemma {:induction false} CumZero(s: seq<nat>, k: nat)
    requires k <= |s|
    ensures Cum(s, k) == 0 <==> forall i :: 0 <= i < k ==> s[i] == 0
  {
    if k > 0 {
      CumZero(s, k - 1);
    }
  }

  /** Changing one count changes the total by the same amount. */
  lemma SumUpdate(s: seq<nat>, i: nat, v: nat)
    requires i < |s|
    ensures Sum(s[i := v]) == Sum(s) - s[i] + v
  {
    CumUpdate(s, i, v, |s|);
  }

  lemma {:induction false} CumConstant(n: nat, v: nat, k: nat)
    requires k <= n
    ensures Cum(seq(n, _ => v), k) == k * v
  {
    if k > 0 {
      CumConstant(n, v, k - 1);
    }
  }

  /** A full shoe of the given number of decks: four cards of every rank per deck. */
  function FullCounts(decks: nat): (c: Counts)
    ensures forall i :: 0 <= i < 13 ==> c[i] == 4 * decks
    ensures Sum(c) == 52 * decks
  {
    CumConstant(13, 4 * decks, 13);
    seq(13, _ => 4 * decks)
  }

  /** The counts after one card at index i leaves the shoe. */
  function Take(c: Counts, i: nat): (d: Counts)
    requires i < 13 && c[i] > 0
    ensures Sum(d) == Sum(c) - 1
    ensures d[i] == c[i] - 1
  {
    SumUpdate(c, i, c[i] - 1);
    c[i := c[i] - 1]
  }

  /** Taking a card of one rank leaves the counts of all other ranks as they were. */
  lemma TakeKeepsOtherRanks(c: Counts, i: nat)
    requires i < 13 && c[i] > 0
    ensures forall j :: 0 <= j < 13 && j != i ==> Take(c, i)[j] == c[j]
  {
  }

  /** The counts after one card at index i is returned to the shoe. */
  function PutBack(c: Counts, i: nat): (d: Counts)
    requires i < 13
    ensures Sum(d) == Sum(c) + 1
    ensures d[i] == c[i] + 1
    ensures forall j :: 0 <= j < 13 && j != i ==> d[j] == c[j]
  {
    SumUpdate(c, i, c[i] + 1);
    c[i := c[i] + 1]
  }

  /** Returning a card that was just taken out restores the counts exactly. */
  lemma PutBackUndoesTake(c: Counts, i: nat)
    requires i < 13 && c[i] > 0
    ensures PutBack(Take(c, i), i) == c
  {
    var d := PutBack(Take(c, i), i);
    assert forall j :: 0 <= j < 13 ==> d[j] == c[j];
  }

  /**
   * The index of the first rank, from index k on, whose cumulative count
   * reaches r: the walk over the ranks that a weighted draw performs.
   */
  function PickFrom(c: seq<nat>, r: int, k: nat): (i: nat)
    requires k <= |c| && Cum(c, k) < r <= Sum(c)
    ensures k <= i < |c|
    ensures Cum(c, i) < r <= Cum(c, i + 1)
    ensures c[i] > 0
    decreases |c| - k
  {
    if r <= Cum(c, k + 1) then k else PickFrom(c, r, k + 1)
  }

  function Pick(c: seq<nat>, r: int): (i: nat)
    requires 1 <= r <= Sum(c)
    ensures i < |c| && c[i] > 0
  {
    PickFrom(c, r, 0)
  }

  /**
   * The picked rank is the first one whose cumulative count reaches r: the
   * cumulative count of the ranks before it, at every prefix, stays below r.
   */
  lemma PickIsFirst(c: seq<nat>, r: int)
    requires 1 <= r <= Sum(c)
    ensures r <= Cum(c, Pick(c, r) + 1)
    ensures forall j :: 0 <= j <= Pick(c, r) ==> Cum(c, j) < r
  {
    var i := Pick(c, r);
    forall j | 0 <= j <= i
      ensures Cum(c, j) < r
    {
      CumMonotone(c, j, i);
    }
  }

  /** Any rank whose cumulative count is the first to reach r is the picked one. */
  lemma PickUnique(c: seq<nat>, r: int, i: nat)
    requires i < |c| && Cum(c, i) < r <= Cum(c, i + 1)
    ensures 1 <= r <= Sum(c)
    ensures Pick(c, r) == i
  {
    CumMonotone(c, i + 1, |c|);
    var p := Pick(c, r);
    if p < i {
      CumMonotone(c, p + 1, i);
    } else if p > i {
      CumMonotone(c, i + 1, p);
    }
  }

  /**
   * The value randint(1, total) yields when the random stream supplies x.
   * Every value in [1, total] is reachable (RandIntCovers), so a stream of
   * naturals stands for every possible run of the generator.
   */
  function RandInt(x: nat, total: nat): (r: int)
    requires total > 0
    ensures 1 <= r <= total
  {
    1 + x % total
  }

  lemma RandIntCovers(total: nat, r: int)
    requires 1 <= r <= total
    ensures RandInt(r - 1, total) == r
  {
  }

  /** One card taken out of a shoe: its rank and the counts left behind. */
  datatype Drawn = Drawn(rank: Rank, rest: Counts)

  /**
   * A weighted draw with stream entry x: nothing on an empty shoe; otherwise
   * the first rank whose cumulative count reaches randint(1, total), taken out.
   */
  function Draw(c: Counts, x: nat): (d: Option<Drawn>)
    ensures d.None? <==> Sum(c) == 0
    ensures d.Some? ==> c[d.value.rank - 1] > 0
    ensures d.Some? ==> d.value.rest == Take(c, d.value.rank - 1)
    ensures d.Some? ==> Sum(d.value.rest) == Sum(c) - 1
  {
    if Sum(c) == 0 then None
    else
      var i := Pick(c, RandInt(x, Sum(c)));
      Some(Drawn(i + 1, Take(c, i)))
  }
}
