/** Move text: lower-casing, the check against the move vocabulary, and the
    effect of a move on a hand. */
module Moves {
  import opened Cards
  import opened Shoe
  import opened Hands
  import opened Table

  /** The eight accepted move words: four long forms and their abbreviations. */
  const ValidMoves: seq<string> := ["hit", "stand", "split", "double", "h", "st", "sp", "d"]

  predicate IsUpper(c: char)
  {
    'A' <= c <= 'Z'
  }

  /** tolower in the C locale: an upper-case ASCII letter becomes the lower-case
      letter at the same place in the alphabet; every other character stays. */
  function LowerChar(c: char): (d: char)
    ensures !IsUpper(d)
    ensures IsUpper(c) ==> d as int - 'a' as int == c as int - 'A' as int
    ensures !IsUpper(c) ==> d == c
  {
    if IsUpper(c) then (c as int + 32) as char else c
  }

  /** A text with every character lowered. */
  function Lowered(s: string): (r: string)
  {
    seq(|s|, i requires 0 <= i < |s| => LowerChar(s[i]))
  }

  /** The lowered text has the same length and no upper-case letter, and lowering
      leaves a text without upper-case letters as it is; so lowering twice is
      lowering once. */
  lemma LoweredIsLower(s: string)
    ensures |Lowered(s)| == |s|
    ensures forall i :: 0 <= i < |s| ==> !IsUpper(Lowered(s)[i])
    ensures (forall i :: 0 <= i < |s| ==> !IsUpper(s[i])) ==> Lowered(s) == s
    ensures Lowered(Lowered(s)) == Lowered(s)
  {
  }

  /** Two texts are equal up to case when they lower to the same text. */
  predicate SameIgnoringCase(s: string, t: string)
  {
    |s| == |t| && forall i :: 0 <= i < |s| ==> LowerChar(s[i]) == LowerChar(t[i])
  }

  /** convertToLower: lowers the text in place, one character at a time. */
  method ConvertToLower(s: array<char>)
    modifies s
    ensures s[..] == Lowered(old(s[..]))
  {
    var i := 0;
    while i < s.Length
      invariant 0 <= i <= s.Length
      invariant forall k :: 0 <= k < i ==> s[k] == LowerChar(old(s[k]))
      invariant forall k :: i <= k < s.Length ==> s[k] == old(s[k])
    {
      s[i] := LowerChar(s[i]);
      i := i + 1;
    }
  }

  /** Whether the move check accepts a text: its lowered form is one of the words. */
  predicate Accepts(s: string)
  {
    Lowered(s) in ValidMoves
  }

  /** isValidMove: lowers the text in place and looks the result up among the words. */
  method IsValidMove(text: array<char>) returns (valid: bool)
    modifies text
    ensures text[..] == Lowered(old(text[..]))
    ensures valid <==> Accepts(old(text[..]))
    ensures valid <==> text[..] in ValidMoves
  {
    ConvertToLower(text);
    valid := text[..] in ValidMoves;
  }

  /** The check accepts exactly the texts that spell one of the eight words in any
      mix of cases. */
  lemma AcceptsIff(s: string)
    ensures Accepts(s) <==> exists t :: t in ValidMoves && SameIgnoringCase(s, t)
  {
    LoweredIsLower(s);
    if Accepts(s) {
      var t := Lowered(s);
      assert t in ValidMoves && SameIgnoringCase(s, t);
    }
    if t :| t in ValidMoves && SameIgnoringCase(s, t) {
      assert forall i :: 0 <= i < |t| ==> !IsUpper(t[i]);
      assert Lowered(t) == t;
      assert Lowered(s) == Lowered(t);
    }
  }

  /** A second check of the same text gives the same answer and the same text. */
  lemma AcceptsStable(s: string)
    ensures Accepts(Lowered(s)) == Accepts(s)
    ensures Lowered(Lowered(s)) == Lowered(s)
  {
    LoweredIsLower(s);
  }

  /** The moves the engine carries out. */
  datatype Move = Hit | Stand | Double

  datatype Option<T> = None | Some(value: T)

  /** Which move a text stands for when it is processed. The comparison is exact:
      the text is expected to be lowered already. Split has no effect yet. */
  function ParseMove(text: string): Option<Move>
  {
    if text == "hit" || text == "h" then Some(Hit)
    else if text == "stand" || text == "st" then Some(Stand)
    else if text == "double" || text == "d" then Some(Double)
    else None
  }

  /** Every text that has an effect passes the check, and the only words that pass
      the check but have no effect are the two spellings of split. */
  lemma ParseMoveOfWords(text: string)
    ensures ParseMove(text).Some? ==> text in ValidMoves && Accepts(text)
    ensures text in ValidMoves ==> (ParseMove(text) == None <==> text == "split" || text == "sp")
  {
    if ParseMove(text).Some? {
      LoweredIsLower(text);
    }
  }

  /** processMove: applies a move to a hand. Hit and double deal one card, append
      it and sum the hand (which lists the held cards twice), and end the hand when
      the sum reaches 21. Stand ends the hand. Anything else changes nothing. The
      bet and the player are not touched: doubling does not double the bet. */
  method ProcessMove(player: Player, text: string, hand: Hand, shoe: Shoot, bet: int, roll: nat)
    requires shoe.Valid()
    modifies hand, shoe
    ensures shoe.Valid()
    ensures ParseMove(text) == Some(Hit) || ParseMove(text) == Some(Double) ==>
      var d := DealFrom(old(shoe.cards), roll);
      var held := old(hand.cards) + [d.card];
      shoe.cards == d.rest &&
      hand.cards == held + held &&
      hand.sum == Total(held) &&
      hand.Valid() && hand.Summed() == held &&
      hand.done == (old(hand.done) || hand.sum >= 21)
    ensures ParseMove(text) == Some(Stand) ==>
      hand.done && hand.cards == old(hand.cards) && hand.sum == old(hand.sum) &&
      shoe.cards == old(shoe.cards)
    ensures ParseMove(text) == None ==> unchanged(hand, shoe)
    ensures old(hand.done) ==> hand.done
    ensures old(hand.Valid()) ==> hand.Valid()
    ensures unchanged(player)
  {
    if text == "hit" || text == "h" {
      var card := shoe.Deal(roll);
      hand.AddCard(card);
      hand.SumUpHand();
      if hand.sum >= 21 {
        hand.done := true;
      }
      return;
    }
    if text == "stand" || text == "st" {
      hand.done := true;
      return;
    }
    if text == "double" || text == "d" {
      var card := shoe.Deal(roll);
      hand.AddCard(card);
      hand.SumUpHand();
      if hand.sum >= 21 {
        hand.done := true;
      }
      return;
    }
  }

  /** Hit and double add exactly one card to the cards summed: the new total is the
      old cards' total plus the dealt card's value, between 2 and 11 more. */
  lemma OneMoreCard(held: seq<Card>, c: Card)
    ensures Total(held + [c]) == Total(held) + Value(c)
    ensures Total(held) + 2 <= Total(held + [c]) <= Total(held) + 11
  {
    TotalAppend(held, [c]);
    assert [c][..0] == [];
  }
}
