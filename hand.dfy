/** A hand: its cards, the cached total and the flag that ends play on it. */
module Hands {
  import opened Cards

  /** The total of a list of cards under the per-card value rule, summed from the
      front, as the summing loop visits them. */
  function Total(cs: seq<Card>): (t: int)
    ensures 2 * |cs| <= t <= 11 * |cs|
  {
    if cs == [] then 0 else Total(cs[..|cs| - 1]) + Value(cs[|cs| - 1])
  }

  /** The total of two lists put together is the sum of their totals. */
  lemma {:induction false} TotalAppend(s: seq<Card>, t: seq<Card>)
    ensures Total(s + t) == Total(s) + Total(t)
    decreases |t|
  {
    if t == [] {
      assert s + t == s;
    } else {
      var u := t[..|t| - 1];
      TotalAppend(s, u);
      assert (s + t)[..|s + t| - 1] == s + u;
      assert (s + t)[|s + t| - 1] == t[|t| - 1];
    }
  }

  /** Summing from the back agrees with taking the first card's value first. */
  lemma {:induction false} TotalFront(c: Card, cs: seq<Card>)
    ensures Total([c] + cs) == Value(c) + Total(cs)
  {
    TotalAppend([c], cs);
    assert [c][..0] == [];
  }

  /** A list that holds each of its cards twice totals twice as much. */
  lemma TotalDoubled(cs: seq<Card>)
    ensures Total(cs + cs) == 2 * Total(cs)
  {
    TotalAppend(cs, cs);
  }

  class Hand {
    var sum: int
    var cards: seq<Card>
    var done: bool

    /** The cards the cached sum was computed over: the first half of the list. */
    ghost function Summed(): seq<Card>
      reads this
    {
      cards[..|cards| / 2]
    }

    /** The state every sum leaves: the list holds the summed cards twice over, and
        the cached sum is their total. Appending a card breaks it until the next sum. */
    ghost predicate Valid()
      reads this
    {
      |cards| % 2 == 0 && Summed() == cards[|cards| / 2..] && sum == Total(Summed())
    }

    /** The default constructor: no cards, total 0, not done. */
    constructor Empty()
      ensures Valid()
      ensures cards == [] && sum == 0 && !done
    {
      sum := 0;
      cards := [];
      done := false;
    }

    /** The constructor from a vector of cards: copies them, then sums the hand,
        which also appends a second copy of every card (see SumUpHand). */
    constructor FromCards(cs: seq<Card>)
      ensures Valid() && Summed() == cs
      ensures cards == cs + cs
      ensures sum == Total(cs)
      ensures !done
    {
      cards := cs;
      sum := 0;
      done := false;
      new;
      SumUpHand();
    }

    method AddCard(card: Card)
      modifies this
      ensures cards == old(cards) + [card]
      ensures sum == old(sum) && done == old(done)
    {
      cards := cards + [card];
    }

    /** Recomputes the total over the cards held on entry. The summing loop also
        pushes every card it visits onto the same list; the loop runs over the
        entries present on entry, so the list ends up holding them twice. The
        new total does not depend on the old one. */
    method SumUpHand()
      modifies this
      ensures sum == Total(old(cards))
      ensures cards == old(cards) + old(cards)
      ensures done == old(done)
      ensures Valid() && Summed() == old(cards)
    {
      sum := 0;
      var entry := cards;
      var i := 0;
      while i < |entry|
        invariant 0 <= i <= |entry|
        invariant cards == entry + entry[..i]
        invariant sum == Total(entry[..i])
        invariant done == old(done)
      {
        var c := entry[i];
        cards := cards + [c];
        if IsFaceCard(c) {
          sum := sum + 10;
        } else if c.rank == Ace {
          sum := sum + 11;
        } else {
          sum := sum + RankOrdinal(c.rank) + 2;
        }
        assert entry[..i + 1][..i] == entry[..i];
        i := i + 1;
      }
      assert entry[..i] == entry;
      assert cards[..|cards| / 2] == entry && cards[|cards| / 2..] == entry;
    }
  }

  /** The consequence for a hand dealt two cards and then given one more: the
      next sum counts both dealt cards twice, since the list then reads
      c0, c1, c0, c1, c. */
  lemma DealtThenOneMore(c0: Card, c1: Card, c: Card)
    ensures Total([c0, c1] + [c0, c1] + [c]) == 2 * (Value(c0) + Value(c1)) + Value(c)
    ensures Total([c0, c1] + [c0, c1] + [c]) >= 10
  {
    assert [c0, c1] + [c0, c1] + [c] == [c0] + ([c1] + ([c0] + ([c1] + [c])));
    TotalFront(c0, [c1] + ([c0] + ([c1] + [c])));
    TotalFront(c1, [c0] + ([c1] + [c]));
    TotalFront(c0, [c1] + [c]);
    TotalFront(c1, [c]);
  }
}
