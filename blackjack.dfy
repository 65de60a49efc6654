/** A blackjack hand scorer: cards, a hand that grows one card at a time,
    the hand's value (aces count 1 or 11, whichever keeps the hand at or
    below 21) and whether the hand is lost (its value is above 21). */
module Blackjack {

  /** The twelve kinds of card the scorer knows. There is no Ten. */
  datatype Card = Ace | Two | Three | Four | Five | Six | Seven | Eight | Nine
                | Jack | Queen | King

  /** The value of a card when every ace counts as 1 and every face card as 10. */
  function MinCardValue(c: Card): (v: nat)
    ensures 1 <= v <= 10
    ensures v == 1 <==> c == Ace
    ensures v == 10 <==> c == Jack || c == Queen || c == King
  {
    match c
    case Ace => 1
    case Two => 2
    case Three => 3
    case Four => 4
    case Five => 5
    case Six => 6
    case Seven => 7
    case Eight => 8
    case Nine => 9
    case Jack => 10
    case Queen => 10
    case King => 10
  }

  /** The minimal value of a sequence of cards: the sum of their minimal values,
      accumulated from the first card to the last. */
  function MinSum(s: seq<Card>): (r: nat)
    ensures |s| <= r <= 10 * |s|
  {
    if s == [] then 0 else MinSum(s[..|s| - 1]) + MinCardValue(s[|s| - 1])
  }

  /** The number of aces in a sequence of cards. */
  function AceCount(s: seq<Card>): (n: nat)
    ensures n <= |s|
  {
    if s == [] then 0
    else AceCount(s[..|s| - 1]) + (if s[|s| - 1] == Ace then 1 else 0)
  }

  /** The value of a hand: its minimal value, plus 10 for one ace counted as 11
      when the hand holds an ace and that keeps the total at or below 21. */
  function HandValue(s: seq<Card>): (v: nat)
    ensures MinSum(s) <= v <= MinSum(s) + 10
    ensures MinSum(s) <= 21 ==> v <= 21
    ensures MinSum(s) > 21 ==> v == MinSum(s)
    ensures v > 21 <==> MinSum(s) > 21
  {
    if AceCount(s) >= 1 && MinSum(s) + 10 <= 21 then MinSum(s) + 10 else MinSum(s)
  }

  /** A total the hand reaches when exactly k of its aces count as 11. */
  ghost predicate Reaches(s: seq<Card>, k: nat, total: nat)
  {
    k <= AceCount(s) && total == MinSum(s) + 10 * k
  }

  /** The value is the best total the hand can reach by counting each ace as
      1 or 11: the largest one at or below 21 when there is one, and the
      all-ones total otherwise. At most one ace is ever counted as 11. */
  lemma HandValueIsBestTotal(s: seq<Card>)
    ensures exists k :: Reaches(s, k, HandValue(s))
    ensures HandValue(s) <= 21 ==>
              forall k: nat :: k <= AceCount(s) && MinSum(s) + 10 * k <= 21 ==>
                MinSum(s) + 10 * k <= HandValue(s)
    ensures HandValue(s) > 21 ==>
              forall k: nat :: k <= AceCount(s) ==> MinSum(s) + 10 * k > 21
    ensures forall k: nat :: Reaches(s, k, HandValue(s)) ==> k <= 1
  {
    if AceCount(s) >= 1 && MinSum(s) + 10 <= 21 {
      assert Reaches(s, 1, HandValue(s));
    } else {
      assert Reaches(s, 0, HandValue(s));
    }
  }

  /** The weighted count of a hand's cards: how many of each kind it holds,
      times that kind's minimal value. */
  function CountedSum(m: multiset<Card>): nat
  {
    m[Ace] * 1 + m[Two] * 2 + m[Three] * 3 + m[Four] * 4 + m[Five] * 5
    + m[Six] * 6 + m[Seven] * 7 + m[Eight] * 8 + m[Nine] * 9
    + (m[Jack] + m[Queen] + m[King]) * 10
  }

  /** The minimal value depends only on how many cards of each kind the hand holds. */
  lemma {:induction false} MinSumByCounts(s: seq<Card>)
    ensures MinSum(s) == CountedSum(multiset(s))
  {
    if s != [] {
      var p, x := s[..|s| - 1], s[|s| - 1];
      assert s == p + [x];
      MinSumByCounts(p);
      CountedSumAddOne(multiset(p), x);
    }
  }

  /** One more card adds its minimal value to the weighted count. */
  lemma CountedSumAddOne(m: multiset<Card>, x: Card)
    ensures CountedSum(m + multiset{x}) == CountedSum(m) + MinCardValue(x)
  {
  }

  /** The ace count is the number of occurrences of Ace in the hand. */
  lemma {:induction false} AceCountIsMultiplicity(s: seq<Card>)
    ensures AceCount(s) == multiset(s)[Ace]
  {
    if s != [] {
      var p, x := s[..|s| - 1], s[|s| - 1];
      assert s == p + [x];
      AceCountIsMultiplicity(p);
      assert multiset(s) == multiset(p) + multiset{x};
    }
  }

  /** The order in which cards were added does not change the hand's value. */
  lemma HandValueOrderIndependent(s: seq<Card>, t: seq<Card>)
    requires multiset(s) == multiset(t)
    ensures MinSum(s) == MinSum(t)
    ensures HandValue(s) == HandValue(t)
  {
    MinSumByCounts(s);
    MinSumByCounts(t);
    AceCountIsMultiplicity(s);
    AceCountIsMultiplicity(t);
  }

  /** A hand of cards that grows in place. */
  class Hand {
    var cards: seq<Card>

    /** A new hand holds no cards. */
    constructor ()
      ensures cards == []
    {
      cards := [];
    }

    /** Puts a card at the end of the hand; the earlier cards stay as they were. */
    method Add(card: Card)
      modifies this
      ensures cards == old(cards) + [card]
      ensures MinSum(cards) == old(MinSum(cards)) + MinCardValue(card)
      ensures AceCount(cards) == old(AceCount(cards)) + (if card == Ace then 1 else 0)
    {
      cards := cards + [card];
      assert cards[..|cards| - 1] == old(cards);
    }

    /** Scores the hand in two passes: the minimal value and the ace count
        first, then one ace at a time upgraded to 11 while that stays at or
        below 21, stopping once the total reaches 21. */
    method Value() returns (result: nat)
      ensures result == HandValue(cards)
    {
      var minValue: nat := 0;
      var aceCount: nat := 0;
      for i := 0 to |cards|
        invariant minValue == MinSum(cards[..i])
        invariant aceCount == AceCount(cards[..i])
      {
        assert cards[..i + 1][..i] == cards[..i];
        var card := cards[i];
        if card == Ace {
          aceCount := aceCount + 1;
        }
        minValue := minValue + MinCardValue(card);
      }
      assert cards[..|cards|] == cards;

      result := minValue;
      for i := 0 to aceCount
        invariant result == if i >= 1 && minValue + 10 <= 21 then minValue + 10 else minValue
      {
        if result >= 21 {
          break;
        }
        result := if result + 10 <= 21 then result + 10 else result;
      }
    }

    /** A hand is lost when its value is above 21. */
    method IsLoosingHand() returns (lost: bool)
      ensures lost <==> HandValue(cards) > 21
      ensures lost <==> MinSum(cards) > 21
    {
      var v := Value();
      lost := v > 21;
    }
  }

  /** An empty hand is worth 0. */
  method TestEmptyHand() returns (v: nat)
    ensures v == 0
  {
    var hand := new Hand();
    v := hand.Value();
  }

  /** Queen and Ace make 21. */
  method TestStrongHand() returns (v: nat)
    ensures v == 21
  {
    var hand := new Hand();
    hand.Add(Queen);
    hand.Add(Ace);
    v := hand.Value();
  }

  /** King, Queen and Ace make 21: the ace counts as 1. */
  method TestRiskyHand() returns (v: nat)
    ensures v == 21
  {
    var hand := new Hand();
    hand.Add(King);
    hand.Add(Queen);
    hand.Add(Ace);
    v := hand.Value();
  }

  /** King, Seven and Five make 22, a lost hand. */
  method TestOops() returns (lost: bool, v: nat)
    ensures lost && v == 22
  {
    var hand := new Hand();
    hand.Add(King);
    hand.Add(Seven);
    hand.Add(Five);
    lost := hand.IsLoosingHand();
    v := hand.Value();
  }

  /** Three, Three and Seven make 13. */
  method TestLowHand() returns (v: nat)
    ensures v == 13
  {
    var hand := new Hand();
    hand.Add(Three);
    hand.Add(Three);
    hand.Add(Seven);
    v := hand.Value();
  }

  /** Four aces make 14: one counts as 11, the others as 1. */
  method TestFourAces() returns (v: nat)
    ensures v == 14
  {
    var hand := new Hand();
    hand.Add(Ace);
    hand.Add(Ace);
    hand.Add(Ace);
    hand.Add(Ace);
    v := hand.Value();
  }

  /** King, Queen and Two are a lost hand. */
  method TestIsLoosingHand() returns (lost: bool)
    ensures lost
  {
    var hand := new Hand();
    hand.Add(King);
    hand.Add(Queen);
    hand.Add(Two);
    lost := hand.IsLoosingHand();
  }

  /** King, Seven and Two are not a lost hand. */
  method TestIsNotLoosingHand() returns (lost: bool)
    ensures !lost
  {
    var hand := new Hand();
    hand.Add(King);
    hand.Add(Seven);
    hand.Add(Two);
    lost := hand.IsLoosingHand();
  }
}
