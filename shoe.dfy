/** The shoe: a list of card ids from several decks, from which one entry at a
    random position is removed per deal. The random number is a parameter. */
module Shoe {
  import opened Cards

  /** The ids of one deck, 0 to 51, in order. */
  function Deck(): (ids: seq<int>)
  {
    seq(52, i => i)
  }

  /** Every entry is the id of a card of one deck. */
  ghost predicate IdsInRange(ids: seq<int>)
  {
    forall k :: 0 <= k < |ids| ==> 0 <= ids[k] < 52
  }

  /** The ids the constructor pushes for n decks: n copies of one deck, one after another. */
  function Decks(n: int): (ids: seq<int>)
    ensures IdsInRange(ids)
    decreases n
  {
    if n <= 0 then [] else Decks(n - 1) + Deck()
  }

  /** n decks hold 52 * n ids. */
  lemma {:induction false} DecksLength(n: nat)
    ensures |Decks(n)| == 52 * n
  {
    if n > 0 {
      DecksLength(n - 1);
    }
  }

  /** n decks hold every id of 0 to 51 exactly n times, and nothing else. */
  lemma {:induction false} DecksCount(n: nat, id: int)
    ensures multiset(Decks(n))[id] == if 0 <= id < 52 then n else 0
  {
    if n > 0 {
      DecksCount(n - 1, id);
      assert multiset(Deck())[id] == if 0 <= id < 52 then 1 else 0 by {
        if 0 <= id < 52 {
          assert Deck()[id] == id;
          assert Deck() == Deck()[..id] + [id] + Deck()[id + 1..];
          assert id !in Deck()[..id] && id !in Deck()[id + 1..];
        } else {
          assert id !in Deck();
        }
      }
    }
  }

  /** The outcome of one deal: the card handed out and the ids left in the shoe. */
  datatype Draw = Draw(card: Card, rest: seq<int>)

  /** One deal on the ids `ids`, where `roll` is the value rand() returned. An empty
      shoe hands out the card of id 0 and stays empty; otherwise the entry at
      position roll mod |ids| is decoded and erased. */
  function DealFrom(ids: seq<int>, roll: nat): (d: Draw)
    requires IdsInRange(ids)
    ensures IdsInRange(d.rest)
    ensures ids == [] ==> d == Draw(CardFromId(0), [])
    ensures ids != [] ==> |d.rest| == |ids| - 1
  {
    if |ids| == 0 then Draw(CardFromId(0), ids)
    else
      var i := roll % |ids|;
      Draw(CardFromId(ids[i]), ids[..i] + ids[i + 1..])
  }

  /** A deal on a non-empty shoe removes exactly the entry it decodes: the ids
      before it keep their positions, the ids after it move down by one, and
      as a multiset the shoe loses that one id. */
  lemma DealRemovesDrawn(ids: seq<int>, roll: nat)
    requires IdsInRange(ids) && ids != []
    ensures var i := roll % |ids|; var d := DealFrom(ids, roll);
      d.card == CardFromId(ids[i]) &&
      (forall k :: 0 <= k < i ==> d.rest[k] == ids[k]) &&
      (forall k :: i <= k < |d.rest| ==> d.rest[k] == ids[k + 1]) &&
      multiset(d.rest) + multiset{ids[i]} == multiset(ids)
  {
    var i := roll % |ids|;
    assert ids == ids[..i] + [ids[i]] + ids[i + 1..];
  }

  /** The outcome of several deals in a row, one roll each. */
  datatype Draws = Draws(cards: seq<Card>, rest: seq<int>)

  function DealMany(ids: seq<int>, rolls: seq<nat>): (ds: Draws)
    requires IdsInRange(ids)
    ensures IdsInRange(ds.rest)
    ensures |ds.cards| == |rolls|
    decreases |rolls|
  {
    if rolls == [] then Draws([], ids)
    else
      var d := DealFrom(ids, rolls[0]);
      var more := DealMany(d.rest, rolls[1..]);
      Draws([d.card] + more.cards, more.rest)
  }

  /** Each deal takes one id until the shoe is empty, and the shoe is never refilled:
      after k deals it holds max(|ids| - k, 0) ids, and every deal made once it is
      empty hands out the fabricated card of id 0. */
  lemma {:induction false} DealManyExhausts(ids: seq<int>, rolls: seq<nat>)
    requires IdsInRange(ids)
    ensures var ds := DealMany(ids, rolls);
      |ds.rest| == if |rolls| <= |ids| then |ids| - |rolls| else 0
    ensures var ds := DealMany(ids, rolls);
      forall k :: |ids| <= k < |rolls| ==> ds.cards[k] == CardFromId(0)
    decreases |rolls|
  {
    if rolls != [] {
      var d := DealFrom(ids, rolls[0]);
      DealManyExhausts(d.rest, rolls[1..]);
      var ds := DealMany(ids, rolls);
      var more := DealMany(d.rest, rolls[1..]);
      assert ds.cards == [d.card] + more.cards;
      forall k | |ids| <= k < |rolls|
        ensures ds.cards[k] == CardFromId(0)
      {
        if ids == [] {
          if k > 0 {
            assert ds.cards[k] == more.cards[k - 1];
          }
        } else {
          assert ds.cards[k] == more.cards[k - 1];
        }
      }
    }
  }

  /** A shoe of n decks deals 52 * n real cards and is then empty; the next deal
      hands out the fabricated card of id 0. */
  lemma FullShoeExhausts(n: nat, rolls: seq<nat>)
    requires |rolls| == 52 * n + 1
    ensures DealMany(Decks(n), rolls).rest == []
    ensures DealMany(Decks(n), rolls).cards[52 * n] == CardFromId(0)
  {
    DecksLength(n);
    DealManyExhausts(Decks(n), rolls);
  }

  /** The constructor's nested loops: numDecks rounds, each pushing 0 to 51. */
  method BuildDecks(numDecks: int) returns (ids: seq<int>)
    ensures ids == Decks(numDecks)
  {
    ids := [];
    var i := 0;
    while i < numDecks
      invariant numDecks <= 0 ==> i == 0
      invariant numDecks > 0 ==> 0 <= i <= numDecks
      invariant ids == Decks(i)
    {
      var j := 0;
      while j < 52
        invariant 0 <= j <= 52
        invariant ids == Decks(i) + Deck()[..j]
      {
        ids := ids + [j];
        j := j + 1;
      }
      assert Deck()[..52] == Deck();
      i := i + 1;
    }
  }

  /** The shoe (`Shoot` in the source). Its vector of ids is a sequence field. */
  class Shoot {
    var cards: seq<int>

    ghost predicate Valid()
      reads this
    {
      IdsInRange(cards)
    }

    constructor (numDecks: int)
      ensures Valid()
      ensures cards == Decks(numDecks)
    {
      var ids := BuildDecks(numDecks);
      cards := ids;
    }

    /** Deals one card. `roll` stands for the value of rand(). */
    method Deal(roll: nat) returns (card: Card)
      requires Valid()
      modifies this
      ensures Valid()
      ensures Draw(card, cards) == DealFrom(old(cards), roll)
    {
      var cardsLeft := |cards|;
      if cardsLeft == 0 {
        return CardFromId(0);
      }
      var randomIdx := roll % cardsLeft;
      var cardAsInt := cards[randomIdx];
      card := CardFromId(cardAsInt);
      cards := cards[..randomIdx] + cards[randomIdx + 1..];
    }
  }
}
