/** The two parties at the table: the player, who holds a list of hands and a
    bankroll, and the dealer, who holds one hand. */
module Table {
  import opened Cards
  import opened Shoe
  import opened Hands

  class Player {
    var hands: seq<Hand>
    var money: int

    /** Every hand of the player is in the state a sum leaves it in. */
    ghost predicate Valid()
      reads this, hands
    {
      forall k :: 0 <= k < |hands| ==> hands[k].Valid()
    }

    constructor (dollars: int)
      ensures Valid()
      ensures hands == [] && money == dollars
    {
      hands := [];
      money := dollars;
    }

    /** Deals two cards from the shoe, first with `roll0` and then with `roll1`,
        and appends a new hand built from them. The hand constructor sums the two
        cards and, doing so, lists each of them twice. */
    method InitialDeal(shoe: Shoot, roll0: nat, roll1: nat)
      requires shoe.Valid()
      modifies this, shoe
      ensures shoe.Valid()
      ensures hands != [] && hands[|hands| - 1].Valid()
      ensures old(Valid()) ==> Valid()
      ensures var d0 := DealFrom(old(shoe.cards), roll0);
              var d1 := DealFrom(d0.rest, roll1);
              shoe.cards == d1.rest &&
              |hands| == |old(hands)| + 1 && hands[..|old(hands)|] == old(hands) &&
              hands[|hands| - 1].cards == [d0.card, d1.card, d0.card, d1.card] &&
              hands[|hands| - 1].sum == Value(d0.card) + Value(d1.card) &&
              !hands[|hands| - 1].done
      ensures fresh(hands[|hands| - 1])
      ensures money == old(money)
    {
      var c0 := shoe.Deal(roll0);
      var c1 := shoe.Deal(roll1);
      var h := new Hand.FromCards([c0, c1]);
      assert h.sum == Value(c0) + Value(c1) by {
        assert [c0, c1][..1] == [c0];
        assert [c0][..0] == [];
      }
      hands := hands + [h];
    }

    /** The strength of the player is the total of the cards last summed in the
        first hand, which its cached sum holds. */
    method Strength() returns (s: int)
      requires Valid() && hands != []
      ensures s == Total(hands[0].Summed())
      ensures 2 * (|hands[0].cards| / 2) <= s <= 11 * (|hands[0].cards| / 2)
    {
      s := hands[0].sum;
    }

    /** Discards every hand; the bankroll is not touched. */
    method Muck()
      modifies this
      ensures Valid()
      ensures hands == [] && money == old(money)
    {
      hands := [];
    }
  }

  class Dealer {
    var hand: Hand

    /** The dealer's hand is in the state a sum leaves it in. */
    ghost predicate Valid()
      reads this, hand
    {
      hand.Valid()
    }

    constructor ()
      ensures Valid()
      ensures hand.cards == [] && hand.sum == 0 && !hand.done
    {
      hand := new Hand.Empty();
    }

    /** Deals two cards from the shoe, first with `roll0` and then with `roll1`,
        and replaces the dealer's hand with a new one built from them. */
    method InitialDeal(shoe: Shoot, roll0: nat, roll1: nat)
      requires shoe.Valid()
      modifies this, shoe
      ensures shoe.Valid() && Valid()
      ensures var d0 := DealFrom(old(shoe.cards), roll0);
              var d1 := DealFrom(d0.rest, roll1);
              shoe.cards == d1.rest &&
              hand.cards == [d0.card, d1.card, d0.card, d1.card] &&
              hand.sum == Value(d0.card) + Value(d1.card) &&
              !hand.done
      ensures fresh(hand)
    {
      var c0 := shoe.Deal(roll0);
      var c1 := shoe.Deal(roll1);
      hand := new Hand.FromCards([c0, c1]);
      assert hand.sum == Value(c0) + Value(c1) by {
        assert [c0, c1][..1] == [c0];
        assert [c0][..0] == [];
      }
    }

    /** What showing the first card reports: whether the dealer's total is 21.
        Reading the first card needs the hand to hold one. */
    method PrintFirstCard() returns (blackjack: bool)
      requires hand.cards != []  // the first card is read to print it
      ensures blackjack <==> hand.sum == 21
    {
      blackjack := hand.sum == 21;
    }
  }

  /** The two-card total of an initial deal, as Dealer.InitialDeal leaves it in
      the dealer's sum, is 21 exactly when one of the two ids dealt is 9 modulo 13
      (a Ten, worth 11) and the other is 8, 10, 11 or 12 modulo 13 (worth 10).
      A shoe with fewer than two ids never gives 21: the fabricated card of id 0
      is worth 2. */
  lemma DealtTwentyOne(ids: seq<int>, roll0: nat, roll1: nat)
    requires IdsInRange(ids)
    ensures var d0 := DealFrom(ids, roll0);
            var d1 := DealFrom(d0.rest, roll1);
            |ids| >= 2 ==>
              var a := ids[roll0 % |ids|];
              var b := d0.rest[roll1 % |d0.rest|];
              (Value(d0.card) + Value(d1.card) == 21 <==>
                (a % 13 == 9 && b % 13 in {8, 10, 11, 12}) || (b % 13 == 9 && a % 13 in {8, 10, 11, 12}))
    ensures var d0 := DealFrom(ids, roll0);
            var d1 := DealFrom(d0.rest, roll1);
            |ids| < 2 ==> Value(d0.card) + Value(d1.card) != 21
  {
    var d0 := DealFrom(ids, roll0);
    var d1 := DealFrom(d0.rest, roll1);
    if |ids| >= 2 {
      DealRemovesDrawn(ids, roll0);
      DealRemovesDrawn(d0.rest, roll1);
      var a := ids[roll0 % |ids|];
      var b := d0.rest[roll1 % |d0.rest|];
      ValueOfId(a);
      ValueOfId(b);
    } else {
      ValueOfId(0);
      if ids != [] {
        DealRemovesDrawn(ids, roll0);
        ValueOfId(ids[0]);
      }
    }
  }

  /** The dealer's opening in a round: the initial deal, then showing the first
      card, whose result says whether the dealer holds 21. */
  method DealerOpening(dealer: Dealer, shoe: Shoot, roll0: nat, roll1: nat) returns (blackjack: bool)
    requires shoe.Valid()
    modifies dealer, shoe
    ensures shoe.Valid() && dealer.Valid()
    ensures var ids := old(shoe.cards);
            var d0 := DealFrom(ids, roll0);
            |ids| >= 2 ==>
              var a := ids[roll0 % |ids|];
              var b := d0.rest[roll1 % |d0.rest|];
              (blackjack <==>
                (a % 13 == 9 && b % 13 in {8, 10, 11, 12}) || (b % 13 == 9 && a % 13 in {8, 10, 11, 12}))
    ensures |old(shoe.cards)| < 2 ==> !blackjack
  {
    DealtTwentyOne(shoe.cards, roll0, roll1);
    dealer.InitialDeal(shoe, roll0, roll1);
    blackjack := dealer.PrintFirstCard();
  }
}
