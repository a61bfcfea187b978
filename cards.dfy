/** Cards: how an integer card id becomes a rank and a suit, and what a card is worth. */
module Cards {

  /** The ranks in declaration order. The enumeration starts at One, so One has
      ordinal 0, Ten has ordinal 9 and Ace has ordinal 13. */
  datatype Rank = One | Two | Three | Four | Five | Six | Seven | Eight | Nine
                | Ten | Jack | Queen | King | Ace

  /** The suits in declaration order (ordinals 0 to 3). */
  datatype Suit = Clubs | Spades | Hearts | Diamonds

  /** A card is a rank and a suit; it is copied by value. */
  datatype Card = Card(rank: Rank, suit: Suit)

  /** The ordinal of a rank, as the C++ enumeration numbers it. */
  function RankOrdinal(r: Rank): (k: nat)
    ensures k <= 13
  {
    match r
    case One => 0
    case Two => 1
    case Three => 2
    case Four => 3
    case Five => 4
    case Six => 5
    case Seven => 6
    case Eight => 7
    case Nine => 8
    case Ten => 9
    case Jack => 10
    case Queen => 11
    case King => 12
    case Ace => 13
  }

  /** The rank with a given ordinal: the cast from an integer to the enumeration. */
  function RankOf(k: nat): (r: Rank)
    requires k <= 13
    ensures RankOrdinal(r) == k
  {
    if k == 0 then One
    else if k == 1 then Two
    else if k == 2 then Three
    else if k == 3 then Four
    else if k == 4 then Five
    else if k == 5 then Six
    else if k == 6 then Seven
    else if k == 7 then Eight
    else if k == 8 then Nine
    else if k == 9 then Ten
    else if k == 10 then Jack
    else if k == 11 then Queen
    else if k == 12 then King
    else Ace
  }

  function SuitOrdinal(s: Suit): (k: nat)
    ensures k < 4
  {
    match s
    case Clubs => 0
    case Spades => 1
    case Hearts => 2
    case Diamonds => 3
  }

  /** The suit with a given ordinal: the cast from an integer to the enumeration. */
  function SuitOf(k: nat): (s: Suit)
    requires k < 4
    ensures SuitOrdinal(s) == k
  {
    if k == 0 then Clubs
    else if k == 1 then Spades
    else if k == 2 then Hearts
    else Diamonds
  }

  /** The card built from an integer id: rank from the id modulo 13, suit from the
      id modulo 4. Since the remainder modulo 13 is at most 12, it is never an Ace. */
  function CardFromId(num: nat): (c: Card)
    ensures RankOrdinal(c.rank) == num % 13
    ensures SuitOrdinal(c.suit) == num % 4
    ensures c.rank != Ace
  {
    Card(RankOf(num % 13), SuitOf(num % 4))
  }

  /** The card made by the default constructor: the Ace of Hearts. */
  function DefaultCard(): Card
  {
    Card(Ace, Hearts)
  }

  /** Only the default constructor produces an Ace: no card id decodes to it. */
  lemma DefaultCardHasNoId(num: nat)
    ensures CardFromId(num) != DefaultCard()
    ensures DefaultCard().rank == Ace
  {
  }

  /** The 52 ids of one deck decode to 52 different cards: a pair of remainders
      modulo 13 and modulo 4 fixes an id below 52, because 13 and 4 are coprime. */
  lemma CardIdsDistinct(i: nat, j: nat)
    requires i < 52 && j < 52
    ensures CardFromId(i) == CardFromId(j) <==> i == j
  {
    if CardFromId(i) == CardFromId(j) {
      RemaindersFixId(i, j);
    }
  }

  /** Below 52, the remainders modulo 13 and modulo 4 determine the number. */
  lemma RemaindersFixId(i: nat, j: nat)
    requires i < 52 && j < 52
    requires i % 13 == j % 13 && i % 4 == j % 4
    ensures i == j
  {
    var r := i % 13;
    var qi, qj := i / 13, j / 13;
    assert i == 13 * qi + r && j == 13 * qj + r;
    assert qi < 4 && qj < 4;
    // 13 * q + r = 4 * (3 * q) + (q + r), so it leaves the remainder of q + r modulo 4
    assert i == 4 * (3 * qi) + (qi + r);
    assert j == 4 * (3 * qj) + (qj + r);
    ShiftMod4(3 * qi, qi + r);
    ShiftMod4(3 * qj, qj + r);
    assert (qi + r) % 4 == (qj + r) % 4;
  }

  lemma ShiftMod4(k: nat, x: nat)
    ensures (4 * k + x) % 4 == x % 4
  {
  }

  /** Conversely every card other than an Ace has an id in one deck: the id
      a + 13 * t, where a is the rank ordinal and t = (s - a) mod 4 for the
      suit ordinal s, since 13 leaves remainder 1 modulo 4. */
  lemma EveryCardHasId(c: Card)
    requires c.rank != Ace
    ensures exists id: nat :: id < 52 && CardFromId(id) == c
  {
    var a: int, s: int := RankOrdinal(c.rank), SuitOrdinal(c.suit);
    var t := (s - a) % 4;
    var id := a + 13 * t;
    assert id % 13 == a;
    assert id % 4 == s;
    assert CardFromId(id).rank == c.rank by {
      RankOfOrdinal(c.rank);
    }
    assert CardFromId(id).suit == c.suit by {
      SuitOfOrdinal(c.suit);
    }
  }

  lemma RankOfOrdinal(r: Rank)
    ensures RankOf(RankOrdinal(r)) == r
  {
  }

  lemma SuitOfOrdinal(s: Suit)
    ensures SuitOf(SuitOrdinal(s)) == s
  {
  }

  /** The free-standing rank helper: the id modulo 13 with C++ semantics, where the
      remainder takes the sign of the dividend. */
  function GetRank(card: int): (r: int)
    ensures -13 < r < 13
    ensures card >= 0 ==> r >= 0 && r == RankOrdinal(CardFromId(card).rank)
    ensures card < 0 ==> r <= 0 && (card - r) % 13 == 0
  {
    if card >= 0 then card % 13 else -((-card) % 13)
  }

  /** Jack, Queen and King are the face cards. */
  predicate IsFaceCard(c: Card)
    ensures IsFaceCard(c) <==> 10 <= RankOrdinal(c.rank) <= 12
  {
    c.rank == Jack || c.rank == Queen || c.rank == King
  }

  /** What one card adds to a hand's total: 10 for a face card, 11 for an Ace,
      its ordinal plus 2 otherwise. Because the ordinals start at One, Nine is
      worth 10 and Ten is worth 11. */
  function Value(c: Card): (v: int)
    ensures 2 <= v <= 11
    ensures v == 11 <==> c.rank == Ten || c.rank == Ace
    ensures v == 10 <==> c.rank == Nine || IsFaceCard(c)
    ensures v < 10 ==> v == RankOrdinal(c.rank) + 2
  {
    if IsFaceCard(c) then 10
    else if c.rank == Ace then 11
    else RankOrdinal(c.rank) + 2
  }

  /** The value of the card with a given id depends only on the id modulo 13:
      remainders 0 to 8 are worth 2 to 10, remainder 9 is worth 11 and
      remainders 10 to 12 are worth 10. */
  lemma ValueOfId(num: nat)
    ensures Value(CardFromId(num)) ==
      if num % 13 < 9 then num % 13 + 2 else if num % 13 == 9 then 11 else 10
  {
  }

  /** Two cards make 21 exactly when one is worth 11 (a Ten or an Ace) and the
      other is worth 10 (a Nine or a face card). */
  lemma TwoCardTwentyOne(c0: Card, c1: Card)
    ensures Value(c0) + Value(c1) == 21 <==>
      ((c0.rank == Ten || c0.rank == Ace) && (c1.rank == Nine || IsFaceCard(c1))) ||
      ((c1.rank == Ten || c1.rank == Ace) && (c0.rank == Nine || IsFaceCard(c0)))
  {
  }
}
