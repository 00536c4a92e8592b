/** The shoe: a per-rank card counter that is drawn from and adjusted in place. */
module Shoes {
  import opened Wrappers
  import opened Cards
  import opened ShoeCounts

  class Shoe {
    var decks: int
    var counts: Counts

    /**
     * A shoe of the given number of decks. Empty counts stand for a full
     * shoe, four cards of every rank per deck; thirteen counts are kept as given.
     */
    constructor (decks: int, counts: seq<nat>)
      requires |counts| == 0 || |counts| == 13
      requires |counts| == 0 ==> decks >= 0
      ensures this.decks == decks
      ensures |counts| == 0 ==> this.counts == FullCounts(decks)
      ensures |counts| == 13 ==> this.counts == counts
    {
      this.decks := decks;
      if |counts| == 0 {
        this.counts := FullCounts(decks);
      } else {
        this.counts := counts;
      }
    }

    /** The number of cards left in the shoe: zero exactly when no rank has a card left. */
    function Remaining(): (n: nat)
      reads this
      ensures n == 0 <==> forall i :: 0 <= i < 13 ==> counts[i] == 0
    {
      CumZero(counts, 13);
      Sum(counts)
    }

    /**
     * Records a card of the given rank as seen: fails, changing nothing, when
     * no card of that rank is left (or the rank does not exist).
     */
    method Remove(rank: int) returns (ok: bool)
      modifies this
      ensures decks == old(decks)
      ensures ok <==> 1 <= rank <= 13 && old(counts)[rank - 1] > 0
      ensures ok ==> counts == Take(old(counts), rank - 1) && Remaining() == old(Remaining()) - 1
      ensures !ok ==> counts == old(counts)
    {
      if rank < 1 || rank > 13 || counts[rank - 1] <= 0 {
        return false;
      }
      counts := Take(counts, rank - 1);
      ok := true;
    }

    /** Returns a card of the given rank to the shoe, undoing a removal. */
    method AddBack(rank: Rank)
      modifies this
      ensures decks == old(decks)
      ensures counts == PutBack(old(counts), rank - 1)
      ensures Remaining() == old(Remaining()) + 1
    {
      counts := PutBack(counts, rank - 1);
    }

    /**
     * Draws one card, weighted by the counts: with r = randint(1, total) taken
     * from stream entry x, walks the ranks in order accumulating their counts
     * and takes out the first rank whose cumulative count reaches r. Fails,
     * changing nothing, on an empty shoe. The walk always finds a rank, so the
     * source's fallback after the walk is never reached.
     */
    method DrawRandom(x: nat) returns (res: Option<Rank>)
      modifies this
      ensures decks == old(decks)
      ensures Draw(old(counts), x).None? ==> res.None? && counts == old(counts)
      ensures Draw(old(counts), x).Some? ==>
        res == Some(Draw(old(counts), x).value.rank) && counts == Draw(old(counts), x).value.rest
    {
      var total := Remaining();
      if total <= 0 {
        return None;
      }
      var r := RandInt(x, total);
      var cum := 0;
      var i := 0;
      while true
        invariant 0 <= i < 13
        invariant counts == old(counts) && decks == old(decks)
        invariant cum == Cum(counts, i) < r
        decreases 13 - i
      {
        if counts[i] > 0 {
          cum := cum + counts[i];
          if r <= cum {
            PickUnique(counts, r, i);
            counts := Take(counts, i);
            return Some(i + 1);
          }
        }
        i := i + 1;
      }
    }
  }
}
