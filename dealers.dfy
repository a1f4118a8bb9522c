/**
 * The dealer (dealer.py): draws from the shoe until the hand stands or
 * busts. The dealer stands on more than 17, and on exactly 17 unless the
 * hand is soft and the table hits soft 17. Each draw raises the hard total
 * of the hand by at least one, and the value never falls below the hard
 * total, so the loop ends.
 */
module Dealers {
  import opened Deck
  import opened Hands

  /** The result strings dealer_turn assigns. BLACKJACK is assigned but always overwritten. */
  datatype DealerResult = DealerStand | DealerBust | DealerBlackjack

  /** The stand rule: more than 17, or exactly 17 unless soft with hit-on-soft-17 set. */
  function DealerStands(total: int, soft: bool, hitOnSoft17: bool): (b: bool)
    ensures b ==> total >= 17
    ensures total > 17 ==> b
    ensures total == 17 ==> (b <==> !(soft && hitOnSoft17))
  {
    total > 17 || (total == 17 && !(soft && hitOnSoft17))
  }

  /**
   * An Ace and a six are a soft 17: a dealer who hits soft 17 does not stand
   * on it, so the turn draws at least once; one who does not hit soft 17 stands.
   */
  lemma SoftSeventeen(c1: Card, c2: Card)
    requires c1.rank == Ace && c2.rank == Six
    ensures HandValue([c1, c2]) == 17 && IsSoft([c1, c2])
    ensures !DealerStands(HandValue([c1, c2]), IsSoft([c1, c2]), true)
    ensures DealerStands(HandValue([c1, c2]), IsSoft([c1, c2]), false)
  {
    TwoCardValue([c1, c2]);
  }

  /** hand.add_card(shoe.deal_card()): the shoe deals one card and the hand takes it. */
  method DealTo(hand: Hand, shoe: BlackjackShoe) returns (card: Card)
    requires shoe.Valid() && shoe.numDecks >= 1
    modifies hand, shoe
    ensures shoe.Valid() && hand.Valid()
    ensures shoe.dealt == old(shoe.dealt) + [card]
    ensures hand.cards == old(hand.cards) + [card]
  {
    card := shoe.DealCard();
    hand.AddCard(card);
  }

  /** Every card of `cards` from position `from` on was drawn onto a hand that did not stand. */
  ghost predicate DrawnWhileHitting(cards: seq<Card>, from: nat, hitOnSoft17: bool)
  {
    forall k :: from <= k < |cards| ==> !DealerStands(HandValue(cards[..k]), IsSoft(cards[..k]), hitOnSoft17)
  }

  /** A card drawn onto a hand that does not stand extends the run of such draws. */
  lemma DrawnWhileHittingAppend(cards: seq<Card>, from: nat, card: Card, hitOnSoft17: bool)
    requires DrawnWhileHitting(cards, from, hitOnSoft17)
    requires from <= |cards| && !DealerStands(HandValue(cards), IsSoft(cards), hitOnSoft17)
    ensures DrawnWhileHitting(cards + [card], from, hitOnSoft17)
  {
    var longer := cards + [card];
    forall k | from <= k < |longer|
      ensures !DealerStands(HandValue(longer[..k]), IsSoft(longer[..k]), hitOnSoft17)
    {
      assert longer[..k] == cards[..k];
    }
  }

  /**
   * Since the shoe stood at `dealt0` and the hand at `cards0`, the shoe has
   * only dealt more cards, and the hand took exactly those, in order.
   */
  ghost predicate DealtOnto(cards: seq<Card>, dealt: seq<Card>, cards0: seq<Card>, dealt0: seq<Card>)
  {
    |dealt0| <= |dealt| && dealt[..|dealt0|] == dealt0 && cards == cards0 + dealt[|dealt0|..]
  }

  /** One more card dealt onto the hand keeps the relation. */
  lemma DealtOntoAppend(cards: seq<Card>, dealt: seq<Card>, cards0: seq<Card>, dealt0: seq<Card>, card: Card)
    requires DealtOnto(cards, dealt, cards0, dealt0)
    ensures DealtOnto(cards + [card], dealt + [card], cards0, dealt0)
  {
    assert (dealt + [card])[..|dealt0|] == dealt[..|dealt0|];
    assert (dealt + [card])[|dealt0|..] == dealt[|dealt0|..] + [card];
  }

  /** Dealer: the hit-on-soft-17 rule and the dealer's hand. */
  class Dealer {
    const hitOnSoft17: bool
    var hand: Hand

    constructor(hitOnSoft17: bool, hand: Hand)
      ensures this.hitOnSoft17 == hitOnSoft17 && this.hand == hand
    {
      this.hitOnSoft17 := hitOnSoft17;
      this.hand := hand;
    }

    /**
     * dealer_turn. The cards drawn are exactly the cards the shoe dealt during
     * the turn, appended in order; every one of them was drawn while the hand
     * did not stand; the turn draws at least once exactly when the starting
     * hand does not stand. The turn ends standing or busted, never with
     * BLACKJACK, and with a total of at least 17.
     */
    method DealerTurn(shoe: BlackjackShoe) returns (total: int, result: DealerResult)
      requires shoe.Valid() && shoe.numDecks >= 1
      modifies hand, shoe
      ensures shoe.Valid()
      ensures hand.Valid() && total == hand.value
      ensures |shoe.dealt| >= |old(shoe.dealt)| && shoe.dealt[..|old(shoe.dealt)|] == old(shoe.dealt)
      ensures hand.cards == old(hand.cards) + shoe.dealt[|old(shoe.dealt)|..]
      ensures DrawnWhileHitting(hand.cards, |old(hand.cards)|, hitOnSoft17)
      ensures |hand.cards| > |old(hand.cards)| <==>
                !DealerStands(HandValue(old(hand.cards)), IsSoft(old(hand.cards)), hitOnSoft17)
      ensures result == DealerStand ==> DealerStands(total, hand.soft, hitOnSoft17)
      ensures result == DealerBust ==> total > 21
      ensures |hand.cards| > |old(hand.cards)| ==> (result == DealerBust <==> total > 21)
      ensures |hand.cards| == |old(hand.cards)| ==> result == DealerStand
      ensures result != DealerBlackjack
      ensures total >= 17
    {
      ghost var cards0, dealt0 := hand.cards, shoe.dealt;
      assert dealt0[..|dealt0|] == dealt0 && dealt0[|dealt0|..] == [];
      while true
        invariant shoe.Valid()
        invariant |hand.cards| > |cards0| ==> hand.Valid()
        invariant DealtOnto(hand.cards, shoe.dealt, cards0, dealt0)
        invariant DrawnWhileHitting(hand.cards, |cards0|, hitOnSoft17)
        invariant |hand.cards| > |cards0| ==> HardTotal(hand.cards) <= 21
        invariant |hand.cards| > |cards0| ==> !DealerStands(HandValue(cards0), IsSoft(cards0), hitOnSoft17)
        invariant |hand.cards| == |cards0| ==> hand.cards == cards0
        decreases 22 - HardTotal(hand.cards)
      {
        total := hand.Evaluate();
        var isSoft := hand.soft;
        if hand.IsBlackjack() {
          result := DealerBlackjack;
        }
        if total > 17 || (total == 17 && !(isSoft && hitOnSoft17)) {
          BustIffHardBust(hand.cards);
          result := DealerStand;
          break;
        }
        var newCard, after := DrawCard(shoe, |cards0|, cards0, dealt0);
        if after > 21 {
          result := DealerBust;
          break;
        }
      }
      total := hand.Evaluate();
      BustIffHardBust(hand.cards);
    }

    /**
     * One hit onto a hand that does not stand, and the re-evaluation after
     * it: the shoe deals a card and the hand takes it, so the run of cards
     * drawn while hitting grows by one and the hard total rises; `total` is
     * the new value, at most 21 exactly when the hard total is.
     */
    method DrawCard(shoe: BlackjackShoe, ghost from: nat, ghost cards0: seq<Card>, ghost dealt0: seq<Card>)
      returns (card: Card, total: int)
      requires shoe.Valid() && shoe.numDecks >= 1
      requires from <= |hand.cards| && DrawnWhileHitting(hand.cards, from, hitOnSoft17)
      requires DealtOnto(hand.cards, shoe.dealt, cards0, dealt0)
      requires !DealerStands(HandValue(hand.cards), IsSoft(hand.cards), hitOnSoft17)
      modifies hand, shoe
      ensures shoe.Valid() && hand.Valid()
      ensures shoe.dealt == old(shoe.dealt) + [card]
      ensures hand.cards == old(hand.cards) + [card]
      ensures DrawnWhileHitting(hand.cards, from, hitOnSoft17)
      ensures DealtOnto(hand.cards, shoe.dealt, cards0, dealt0)
      ensures HardTotal(hand.cards) > HardTotal(old(hand.cards))
      ensures total == hand.value && (total <= 21 <==> HardTotal(hand.cards) <= 21)
    {
      ghost var before, dealtBefore := hand.cards, shoe.dealt;
      card := DealTo(hand, shoe);
      DealtOntoAppend(before, dealtBefore, cards0, dealt0, card);
      DrawnWhileHittingAppend(before, from, card, hitOnSoft17);
      HardTotalAppend(before, card);
      total := hand.Evaluate();
      BustIffHardBust(hand.cards);
    }

    /** new_hand: a new, empty hand. */
    method NewHand()
      modifies this
      ensures fresh(hand) && hand.cards == [] && hand.Valid()
    {
      hand := new Hand([]);
    }
  }
}
