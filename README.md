# Blackjack engine model

A Dafny model of the engine in `main.cpp` of a small terminal blackjack game.
The model covers these parts:

- **Card ids.** Card ids decode into a rank and a suit.
- **Card values.** One card is worth 10 for a face card, 11 for an Ace, and its rank ordinal plus 2 otherwise.
- **The shoe (`Shoot`).** It holds several decks of ids. Each deal erases the entry at a random position.
- **`Hand`.** It holds a card list, a cached `sum` and a `done` flag.
- **`Player`.** It holds a list of hands and a bankroll.
- **`Dealer`.** It holds one hand.
- **Move text.** The text is lower-cased and checked against the eight move words.
- **`processMove`.** It applies hit, stand and double to a hand.

Files and modules:

- `cards.dfy` (`Cards`): ranks, suits, decoding an id, the value rule.
- `shoe.dfy` (`Shoe`): the shoe class, and the functions that specify its constructor and its deal.
- `hand.dfy` (`Hands`): the hand total and the `Hand` class.
- `table.dfy` (`Table`): the `Player` and `Dealer` classes.
- `moves.dfy` (`Moves`): lower-casing, the move check and `processMove`.

Behaviour of the code that the model keeps as written:

- **The rank enumeration starts at `One`.** Ordinal 0 is `One` and ordinal 13 is `Ace`.
  - An id decodes to a rank ordinal between 0 and 12, so no id ever gives an Ace.
  - Only the default `Card()` is an Ace.
  - Under the value rule, `Nine` is worth 10 and `Ten` is worth 11 (`Cards.Value`).
  - The value of an id's card depends only on the id modulo 13 (`Cards.ValueOfId`).
- **Summing a hand doubles its card list.** The summing loop in `sumUpHand` pushes each card it visits back onto the list it is iterating.
  - The model follows what the loop does without reallocation: it visits the cards held on entry and then holds each of them twice.
  - The new `sum` is the total of the entry cards (`Hands.Hand.SumUpHand`).
  - `Hand.Valid()` states the result as the hand invariant: the list is the summed cards twice over, and `sum` is their total. Appending a card breaks it until the next sum, which `processMove` always runs straight after.
  - A hand built from two dealt cards therefore lists four cards.
  - A later hit counts both dealt cards twice (`Hands.DealtThenOneMore`).
- **Dealing from an empty shoe.** It returns the card of id 0 and leaves the shoe empty. It does not report an error.
- **`processMove` does not check `done`.** A hit or a double deals a card even on a finished hand.
  - Double does not change the bet.
  - Double ends the hand only when the sum reaches 21, as hit does.
  - Split and every other text do nothing.
- **Text comparison in `processMove` is exact.** Only the lower-case words act. In the round loop (main.cpp:246-249) the text reaches `processMove` as typed; `isValidMove` lowers it only afterwards, at the next loop test. So `HIT` typed at the re-prompt does nothing, and the round then ends.

The C++ `rand()` value that picks the card becomes a parameter `roll: nat`. The position dealt is `roll % |cards|`, as in the source.

## Model

| member | source | states |
|---|---|---|
| Cards.RankOf | main.cpp:62 | casting an ordinal 0..13 to the rank enumeration gives the rank with that ordinal |
| Cards.SuitOf | main.cpp:63 | casting an ordinal 0..3 to the suit enumeration gives the suit with that ordinal |
| Cards.CardFromId | main.cpp:61-64 | the card of id num has rank ordinal num mod 13 and suit ordinal num mod 4, so it is never an Ace |
| Cards.DefaultCardHasNoId | main.cpp:68 | the default card is the Ace of Hearts, and no id decodes to it |
| Cards.CardIdsDistinct | main.cpp:61-64 | two ids below 52 decode to the same card exactly when they are equal, since 13 and 4 are coprime |
| Cards.EveryCardHasId | main.cpp:61-64 | every card other than an Ace is the card of some id below 52, so one deck is exactly the 52 non-Ace cards |
| Cards.GetRank | main.cpp:23 | getRank stays strictly between -13 and 13. For a non-negative id it is the rank ordinal of that id's card. For a negative id it is non-positive and congruent to the id modulo 13, because C++ truncates. |
| Cards.IsFaceCard | main.cpp:71 | the face cards are exactly the ranks of ordinal 10 to 12 (Jack, Queen, King) |
| Cards.Value | main.cpp:122-128 | a card is worth 2 to 11. It is worth 11 exactly for Ten and Ace, and 10 exactly for Nine and the face cards. Below 10 it is worth its ordinal plus 2. |
| Cards.ValueOfId | main.cpp:122-128 | the value of the card of an id depends only on the id mod 13: remainders 0..8 are worth 2..10, remainder 9 is worth 11, and remainders 10..12 are worth 10 |
| Cards.TwoCardTwentyOne | main.cpp:122-128 | two cards total 21 exactly when one is a Ten or an Ace and the other is a Nine or a face card |
| Shoe.Decks | main.cpp:78-84 | every id the constructor pushes lies in 0..51 |
| Shoe.DecksLength | main.cpp:78-84 | a shoe of n decks holds 52 * n ids |
| Shoe.DecksCount | main.cpp:78-84 | a shoe of n decks holds each id 0..51 exactly n times and no other id |
| Shoe.BuildDecks | main.cpp:79-83 | the nested push loops build exactly the n-deck id list |
| Shoe.Shoot.constructor | main.cpp:78-84 | a new shoe holds the n-deck id list, with all ids in range |
| Shoe.DealFrom | main.cpp:86-96 | on an empty shoe a deal gives the card of id 0 and the shoe stays empty; otherwise the shoe loses exactly one entry, and all remaining ids stay in range |
| Shoe.DealRemovesDrawn | main.cpp:91-94 | the card dealt is the card of the entry at roll mod size. That entry is erased: the ids before it keep their places, the ids after it move down by one, and the multiset of ids loses exactly that id. |
| Shoe.DealMany | main.cpp:86-96 | a sequence of deals hands out one card per roll and keeps the remaining ids in range |
| Shoe.DealManyExhausts | main.cpp:86-96 | after k deals the shoe holds max(size - k, 0) ids, and every deal made on the empty shoe gives the card of id 0 |
| Shoe.FullShoeExhausts | main.cpp:78-96 | a shoe of n decks is empty after 52 * n deals, and deal 52 * n + 1 gives the card of id 0 |
| Shoe.Shoot.Deal | main.cpp:86-96 | the dealt card and the new id list are those of DealFrom on the old list and the roll; the ids stay in range |
| Hands.Total | main.cpp:118-130 | the total of k cards lies between 2k and 11k |
| Hands.TotalAppend | main.cpp:118-130 | the total of two card lists put together is the sum of their totals |
| Hands.TotalFront | main.cpp:118-130 | summing from the back agrees with taking the first card's value first |
| Hands.TotalDoubled | main.cpp:120-121 | a list holding each card twice, as summing leaves it, totals twice the entry total |
| Hands.Hand.Empty | main.cpp:104-107 | the default hand has no cards, total 0, and is not done; it satisfies the hand invariant |
| Hands.Hand.FromCards | main.cpp:109-114 | a hand built from cards cs holds cs twice, has the total of cs, and is not done; it satisfies the hand invariant with cs as the summed cards |
| Hands.Hand.AddCard | main.cpp:116 | adding appends the card and leaves the sum and the flag as they were |
| Hands.Hand.SumUpHand | main.cpp:118-130 | the new sum is the total of the cards held on entry, whatever the old sum. The list becomes the entry list twice over, and done is unchanged. So every sum establishes the hand invariant: the list is the summed cards twice over and the cached sum is their total. |
| Hands.DealtThenOneMore | main.cpp:109-130 | after a two-card deal and one more card, the next sum is twice the two dealt values plus the new one, so it is at least 10 |
| Table.Player.constructor | main.cpp:158 | a new player has no hands and the given bankroll |
| Table.Player.InitialDeal | main.cpp:137-143 | two cards are dealt in order from the shoe, and a fresh hand is appended after the old ones, which are kept. The new hand lists the two cards twice, sums to their two values, satisfies the hand invariant and is not done. The bankroll is unchanged, and the player's invariant is kept. |
| Table.Player.Strength | main.cpp:160 | the strength is the total of the cards last summed in the first hand, so between 2 and 11 per summed card; a player without a hand has none |
| Table.Player.Muck | main.cpp:162 | mucking empties the hand list and leaves the bankroll unchanged |
| Table.Dealer.constructor | main.cpp:168 | a new dealer holds an empty hand with total 0 that is not done |
| Table.Dealer.InitialDeal | main.cpp:170-175 | two cards are dealt in order from the shoe, and the dealer's hand is replaced by a fresh one that lists them twice, sums to their values, satisfies the hand invariant and is not done |
| Table.Dealer.PrintFirstCard | main.cpp:177-185 | the returned flag is true exactly when the dealer's sum is 21; the first card must exist |
| Table.DealtTwentyOne | main.cpp:170-182 | the two-card sum an initial deal gives the dealer is 21 exactly when one dealt id is 9 mod 13 (a Ten) and the other is 8, 10, 11 or 12 mod 13; the ids are named by position in the shoe and the rolls. A shoe with fewer than two ids never gives 21. |
| Table.DealerOpening | main.cpp:238-240 | the dealer's initial deal followed by showing the first card reports 21 exactly under that condition on the two ids dealt, and never when the shoe held fewer than two ids; the dealer's hand is left valid |
| Moves.LowerChar | main.cpp:20 | a lowered character is never upper case. An upper-case letter becomes the lower-case letter at the same place in the alphabet, and any other character is kept. |
| Moves.LoweredIsLower | main.cpp:18-21 | lowering keeps the length, leaves no upper-case letter, and leaves an already lower-case text as it is, so it is idempotent |
| Moves.ConvertToLower | main.cpp:18-21 | the array afterwards holds the lowered form of its old contents |
| Moves.IsValidMove | main.cpp:188-192 | the text is lowered in place, and the result is true exactly when the lowered text is one of the eight move words |
| Moves.AcceptsIff | main.cpp:188-192 | a text is accepted exactly when it spells one of the eight words in some mix of upper and lower case |
| Moves.AcceptsStable | main.cpp:188-192 | checking the already lowered text again gives the same answer and the same text |
| Moves.ParseMoveOfWords | main.cpp:194-225 | every text that processMove acts on is an accepted word, and among the words only split and sp have no effect |
| Moves.ProcessMove | main.cpp:194-225 | hit and double deal one card from the shoe and append it. The hand then lists the held cards plus the new one twice, and its sum is their total. done becomes set when the sum is 21 or more and is never cleared. After hit or double the hand satisfies the hand invariant, and no move breaks it. Stand only sets done. Any other text changes neither the hand nor the shoe. The player and bankroll are untouched. |
| Moves.OneMoreCard | main.cpp:196-207 | the card a hit or double appends raises the total of the summed cards by its value, between 2 and 11 |

## Left out

- Console output is not modelled: `operator<<` for suits and ranks, `printCard`, `printHand`, and the printing in `printFirstCard` and `processMove`. It renders state and changes none.
- Rendering defects are not modelled. The rank name table has no entry for ordinal 13 (Ace), and the suit names are listed in a different order from the enumeration. Both are display only.
- The random number generator (`rand`, `srand(time(0))`) is not modelled. A deal takes the random number as a parameter, so uniformity is not stated.
- `playHand` and `main` are not modelled, apart from the dealer's opening (`Table.DealerOpening`). They are the prompt loop read from `cin` and the endless round loop.
- Several engine features are absent from the code and are not invented: split (the branch is a TODO), doubling the bet, a dealer drawing rule, settlement, the blackjack payout, and soft aces. `money` is never written after construction.
- Cards.CardFromId takes a non-negative id only. Every caller passes a shoe id (0..51) or 0. A negative id would cast a negative remainder to the enumeration.
- Hands.Hand.SumUpHand models the loop that pushes into the vector it iterates as the run without reallocation: it visits the entries present on entry. C++ leaves the loop undefined once a push reallocates. With the usual doubling growth, the hand constructor's vector is full (two cards in two slots) before it sums, so the first push reallocates. The modelled run is therefore the evidently intended one, not what a typical standard-library build does.
- Table.Player.InitialDeal keeps hands as object references. The C++ vector stores hands by value. Every appended hand is fresh, so no two entries share a hand.
- Table.Player.Strength requires a hand, because `hands[0]` on an empty vector is undefined in C++. It also requires the player's hands to be in the state a sum leaves them in, which every hand the code creates is.
- Fixed-width integers are not modelled. Each sum doubles the card list, so a long run of hits could in principle overflow the C++ `int` sum. This does not arise in play: `done` is never read, but a round applies at most one move with an effect. An exact lower-case word passes the loop test that follows it and ends the loop (main.cpp:246-251), and `muck` follows (main.cpp:254).
