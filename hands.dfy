/**
 * Hand evaluation (hand.py): every Ace first counts 11, then Aces are demoted
 * to 1, one at a time, while the total is over 21. The pure functions below
 * specify the value and softness; class Hand keeps the source's mutable
 * fields and re-evaluates on every change.
 */
module Hands {
  import opened Deck

  /** value_map: the base value of a rank, with an Ace counted as 11. */
  function BaseValue(r: Rank): (v: nat)
    ensures 2 <= v <= 11
    ensures v == 11 <==> r == Ace
    ensures v == 10 <==> r in {Ten, Jack, Queen, King}
  {
    match r
    case Ace => 11
    case Two => 2
    case Three => 3
    case Four => 4
    case Five => 5
    case Six => 6
    case Seven => 7
    case Eight => 8
    case Nine => 9
    case Ten | Jack | Queen | King => 10
  }

  /** The value of a rank with an Ace counted as 1: the base value less the 10 a demotion removes. */
  function HardValue(r: Rank): (v: nat)
    ensures 1 <= v <= 10
    ensures v == if r == Ace then BaseValue(r) - 10 else BaseValue(r)
  {
    if r == Ace then 1 else BaseValue(r)
  }

  /** The first pass of evaluate: the sum of the base values. */
  function RawTotal(cards: seq<Card>): nat
  {
    if |cards| == 0 then 0 else RawTotal(cards[..|cards| - 1]) + BaseValue(cards[|cards| - 1].rank)
  }

  /** The number of Aces in the hand. */
  function AceCount(cards: seq<Card>): (n: nat)
    ensures n <= |cards|
  {
    if |cards| == 0 then 0
    else AceCount(cards[..|cards| - 1]) + (if cards[|cards| - 1].rank == Ace then 1 else 0)
  }

  /** The hard total: every Ace counted as 1. */
  function HardTotal(cards: seq<Card>): nat
  {
    if |cards| == 0 then 0 else HardTotal(cards[..|cards| - 1]) + HardValue(cards[|cards| - 1].rank)
  }

  /** The raw total counts each Ace 10 more than the hard total does. */
  lemma {:induction false} RawIsHardPlusAces(cards: seq<Card>)
    ensures RawTotal(cards) == HardTotal(cards) + 10 * AceCount(cards)
  {
    if |cards| > 0 {
      RawIsHardPlusAces(cards[..|cards| - 1]);
    }
  }

  /** Adding a card raises the hard total by that card's hard value, so by at least one. */
  lemma HardTotalAppend(cards: seq<Card>, card: Card)
    ensures HardTotal(cards + [card]) == HardTotal(cards) + HardValue(card.rank)
    ensures HardTotal(cards + [card]) >= HardTotal(cards) + 1
  {
    assert (cards + [card])[..|cards|] == cards;
  }

  /**
   * The number of passes the demotion loop makes from `total` with `aces`
   * Aces still counted as 11. It never demotes more Aces than there are; it
   * stops short of that only once the total is at most 21; and each demotion
   * it makes was taken while the total was still over 21.
   */
  function Demotions(total: int, aces: nat): (d: nat)
    ensures d <= aces
    ensures d < aces ==> total - 10 * d <= 21
    ensures d > 0 ==> total - 10 * (d - 1) > 21
    decreases aces
  {
    if total > 21 && aces > 0 then 1 + Demotions(total - 10, aces - 1) else 0
  }

  /** The value evaluate computes: the raw total less 10 per demoted Ace. */
  function HandValue(cards: seq<Card>): (v: int)
    ensures v >= HardTotal(cards)
  {
    RawIsHardPlusAces(cards);
    RawTotal(cards) - 10 * Demotions(RawTotal(cards), AceCount(cards))
  }

  /** The soft flag evaluate computes: an Ace still counts as 11. A soft hand is never over 21. */
  function IsSoft(cards: seq<Card>): (s: bool)
    ensures s ==> HandValue(cards) <= 21 && AceCount(cards) > 0
  {
    AceCount(cards) > Demotions(RawTotal(cards), AceCount(cards))
  }

  /**
   * The value is the best total: any total reachable by counting k of the
   * Aces as 11 and the rest as 1 that does not exceed 21 is at most the value,
   * and the value then does not exceed 21 either.
   */
  lemma BestTotal(cards: seq<Card>, k: nat)
    requires k <= AceCount(cards)
    requires HardTotal(cards) + 10 * k <= 21
    ensures HardTotal(cards) + 10 * k <= HandValue(cards) <= 21
  {
    RawIsHardPlusAces(cards);
  }

  /** A hand is over 21 exactly when its hard total is. */
  lemma BustIffHardBust(cards: seq<Card>)
    ensures HandValue(cards) > 21 <==> HardTotal(cards) > 21
  {
    if HardTotal(cards) <= 21 {
      BestTotal(cards, 0);
    }
  }

  /** A natural: two cards, one an Ace and the other worth ten. */
  predicate IsNatural(cards: seq<Card>)
  {
    |cards| == 2 &&
    ((cards[0].rank == Ace && BaseValue(cards[1].rank) == 10) ||
     (cards[1].rank == Ace && BaseValue(cards[0].rank) == 10))
  }

  /** The totals of a two-card hand are sums over its two cards. */
  lemma TwoCardSums(cards: seq<Card>)
    requires |cards| == 2
    ensures RawTotal(cards) == BaseValue(cards[0].rank) + BaseValue(cards[1].rank)
    ensures AceCount(cards) == (if cards[0].rank == Ace then 1 else 0) + (if cards[1].rank == Ace then 1 else 0)
    ensures HardTotal(cards) == HardValue(cards[0].rank) + HardValue(cards[1].rank)
  {
    var first := cards[..1];
    assert first[..0] == [] && first[0] == cards[0] && cards[..|cards| - 1] == first;
    assert RawTotal(first) == BaseValue(cards[0].rank);
    assert HardTotal(first) == HardValue(cards[0].rank);
  }

  /**
   * A two-card hand is worth the sum of its base values, except a pair of
   * Aces, which is worth 12; it is soft exactly when it holds an Ace.
   */
  lemma TwoCardValue(cards: seq<Card>)
    requires |cards| == 2
    ensures HandValue(cards) ==
              if cards[0].rank == Ace && cards[1].rank == Ace then 12
              else BaseValue(cards[0].rank) + BaseValue(cards[1].rank)
    ensures IsSoft(cards) <==> cards[0].rank == Ace || cards[1].rank == Ace
  {
    TwoCardSums(cards);
    if cards[0].rank == Ace && cards[1].rank == Ace {
      assert Demotions(22, 2) == 1 + Demotions(12, 1);
    }
  }

  /** Two cards are worth 21 exactly when they are an Ace and a ten-valued card. */
  lemma TwoCardTwentyOne(cards: seq<Card>)
    requires |cards| == 2
    ensures HandValue(cards) == 21 <==> IsNatural(cards)
  {
    TwoCardValue(cards);
  }

  /**
   * Hand: the cards held, and the value and softness evaluate last wrote.
   * The source re-evaluates on every change, so the two fields always agree
   * with the cards: that is Valid().
   */
  class Hand {
    var cards: seq<Card>
    var value: int
    var soft: bool

    predicate Valid()
      reads this
    {
      value == HandValue(cards) && soft == IsSoft(cards)
    }

    /** Hand(cards): holds the given cards, evaluated when there are any; value 0 and hard otherwise. */
    constructor(initial: seq<Card>)
      ensures cards == initial && Valid()
    {
      cards := initial;
      value := 0;
      soft := false;
      new;
      if |cards| > 0 {
        var total := Evaluate();
      }
    }

    /**
     * evaluate: sums the base values and counts the Aces, then demotes Aces
     * while the total is over 21. The cards are untouched and the fields end
     * up equal to the value and softness of the cards, so a second call
     * changes nothing.
     */
    method Evaluate() returns (total: int)
      modifies this
      ensures cards == old(cards)
      ensures Valid()
      ensures total == value
    {
      total := 0;
      var aceCount := 0;
      for i := 0 to |cards|
        invariant total == RawTotal(cards[..i])
        invariant aceCount == AceCount(cards[..i])
      {
        assert cards[..i + 1][..i] == cards[..i];
        total := total + BaseValue(cards[i].rank);
        if cards[i].rank == Ace {
          aceCount := aceCount + 1;
        }
      }
      assert cards[..|cards|] == cards;
      ghost var raw, aces, k := total, aceCount, 0;
      while total > 21 && aceCount > 0
        invariant total == raw - 10 * k && aceCount == aces - k
        invariant aceCount >= 0
        invariant Demotions(raw, aces) == k + Demotions(total, aceCount)
      {
        total := total - 10;
        aceCount := aceCount - 1;
        k := k + 1;
      }
      soft := aceCount > 0;
      value := total;
    }

    /** add_card: appends one card at the end and re-evaluates. */
    method AddCard(card: Card)
      modifies this
      ensures cards == old(cards) + [card]
      ensures Valid()
    {
      cards := cards + [card];
      var total := Evaluate();
    }

    /** is_busted: the value is over 21, which for a consistent hand is a hard total over 21. */
    predicate IsBusted()
      reads this
      ensures Valid() ==> (IsBusted() <==> HardTotal(cards) > 21)
    {
      BustIffHardBust(cards);
      value > 21
    }

    /**
     * is_blackjack, which the source calls but does not define: assumed to
     * be two cards worth 21, which for a consistent hand is an Ace and a
     * ten-valued card.
     */
    predicate IsBlackjack()
      reads this
      ensures Valid() ==> (IsBlackjack() <==> IsNatural(cards))
    {
      if |cards| == 2 then TwoCardTwentyOne(cards); value == 21 else false
    }

    /** clear: no cards, value 0, not soft; the same state as a hand built with no cards. */
    method Clear()
      modifies this
      ensures cards == [] && value == 0 && !soft
      ensures Valid()
    {
      cards := [];
      value := 0;
      soft := false;
    }
  }
}
