/**
 * One round (round.py): two cards each, dealt player by player and then to
 * the dealer, twice over; each player hits while under 17; the dealer plays
 * out the hand; each player's hand is then settled against the dealer's.
 */
module Rounds {
  import opened Deck
  import opened Hands
  import opened Dealers

  /** The outcome of one player's hand, in place of the source's message strings. */
  datatype Outcome = PlayerBusts | DealerBusts | PlayerWins | DealerWins | Push

  /**
   * The comparison of _evaluate_round. A player over 21 loses first, even
   * when the dealer is over 21 too; otherwise a dealer over 21 loses;
   * otherwise the higher total wins and equal totals push.
   */
  function Settle(playerTotal: int, dealerTotal: int): (o: Outcome)
    ensures o == PlayerBusts <==> playerTotal > 21
    ensures o == DealerBusts <==> playerTotal <= 21 && dealerTotal > 21
    ensures o == PlayerWins <==> playerTotal <= 21 && dealerTotal <= 21 && playerTotal > dealerTotal
    ensures o == DealerWins <==> playerTotal <= 21 && dealerTotal <= 21 && playerTotal < dealerTotal
    ensures o == Push <==> playerTotal <= 21 && dealerTotal <= 21 && playerTotal == dealerTotal
  {
    if playerTotal > 21 then PlayerBusts
    else if dealerTotal > 21 then DealerBusts
    else if playerTotal > dealerTotal then PlayerWins
    else if playerTotal < dealerTotal then DealerWins
    else Push
  }

  /** The outcomes in which the player's hand wins. */
  predicate PlayerWon(o: Outcome)
  {
    o == DealerBusts || o == PlayerWins
  }

  /**
   * A player wins exactly when not over 21 and the dealer is over 21 or
   * below the player; swapping the two totals of a hand neither side busted
   * swaps the winner.
   */
  lemma SettleWinner(playerTotal: int, dealerTotal: int)
    ensures PlayerWon(Settle(playerTotal, dealerTotal)) <==>
              playerTotal <= 21 && (dealerTotal > 21 || playerTotal > dealerTotal)
    ensures playerTotal <= 21 && dealerTotal <= 21 ==>
              (Settle(playerTotal, dealerTotal) == PlayerWins <==> Settle(dealerTotal, playerTotal) == DealerWins)
  {
  }

  /** Every card of `cards` from position `from` on was drawn onto a hand worth less than 17. */
  ghost predicate DrawnBelowSeventeen(cards: seq<Card>, from: nat)
  {
    forall k :: from <= k < |cards| ==> HandValue(cards[..k]) < 17
  }

  /** A card drawn onto a hand worth less than 17 extends the run of such draws. */
  lemma DrawnBelowSeventeenAppend(cards: seq<Card>, from: nat, card: Card)
    requires DrawnBelowSeventeen(cards, from) && from <= |cards| && HandValue(cards) < 17
    ensures DrawnBelowSeventeen(cards + [card], from)
  {
    var longer := cards + [card];
    forall k | from <= k < |longer|
      ensures HandValue(longer[..k]) < 17
    {
      assert longer[..k] == cards[..k];
    }
  }

  /** The runs of cards laid end to end, in order. */
  function Concat(runs: seq<seq<Card>>): (s: seq<Card>)
    ensures |runs| > 0 ==> |s| >= |runs[|runs| - 1]|
  {
    if runs == [] then [] else Concat(runs[..|runs| - 1]) + runs[|runs| - 1]
  }

  /** A log that holds the runs so far, followed by one more run, holds the longer list of runs. */
  lemma ConcatAppend(log: seq<Card>, runs: seq<seq<Card>>, run: seq<Card>)
    ensures log + Concat(runs) + run == log + Concat(runs + [run])
  {
    assert (runs + [run])[..|runs|] == runs;
  }

  /**
   * The inner loop of the initial deal: one card to each of the given
   * distinct hands, in order. Hand k takes the k-th card dealt.
   */
  method DealEach(hands: seq<Hand>, shoe: BlackjackShoe) returns (drawn: seq<Card>)
    requires shoe.Valid() && shoe.numDecks >= 1
    requires forall a, b :: 0 <= a < b < |hands| ==> hands[a] != hands[b]
    modifies shoe, set h | h in hands
    ensures shoe.Valid() && shoe.dealt == old(shoe.dealt) + drawn && |drawn| == |hands|
    ensures forall k :: 0 <= k < |hands| ==> hands[k].cards == old(hands[k].cards) + [drawn[k]] && hands[k].Valid()
  {
    drawn := [];
    for i := 0 to |hands|
      invariant shoe.Valid() && shoe.dealt == old(shoe.dealt) + drawn && |drawn| == i
      invariant forall k :: 0 <= k < i ==> hands[k].cards == old(hands[k].cards) + [drawn[k]] && hands[k].Valid()
      invariant forall k :: i <= k < |hands| ==> hands[k].cards == old(hands[k].cards)
    {
      var card := DealTo(hands[i], shoe);
      drawn := drawn + [card];
    }
  }

  /**
   * One hit onto a hand worth less than 17: the shoe deals a card and the
   * hand takes it, so the run of cards drawn below 17 grows by one and the
   * hard total rises.
   */
  method Hit(hand: Hand, shoe: BlackjackShoe, ghost from: nat) returns (card: Card)
    requires shoe.Valid() && shoe.numDecks >= 1
    requires from <= |hand.cards| && DrawnBelowSeventeen(hand.cards, from) && HandValue(hand.cards) < 17
    modifies hand, shoe
    ensures shoe.Valid() && hand.Valid()
    ensures shoe.dealt == old(shoe.dealt) + [card]
    ensures hand.cards == old(hand.cards) + [card]
    ensures DrawnBelowSeventeen(hand.cards, from)
    ensures HardTotal(hand.cards) > HardTotal(old(hand.cards))
  {
    ghost var before := hand.cards;
    card := DealTo(hand, shoe);
    DrawnBelowSeventeenAppend(before, from, card);
    HardTotalAppend(before, card);
  }

  /**
   * The loop of _player_turn on one hand: hit while the hand is worth less
   * than 17. The cards taken are the cards the shoe dealt meanwhile, each
   * one onto a hand worth less than 17, and the hand ends worth 17 or more.
   */
  method HitBelowSeventeen(hand: Hand, shoe: BlackjackShoe) returns (ghost drawn: seq<Card>)
    requires shoe.Valid() && shoe.numDecks >= 1
    modifies hand, shoe
    ensures shoe.Valid() && hand.Valid()
    ensures hand.value >= 17
    ensures shoe.dealt == old(shoe.dealt) + drawn
    ensures hand.cards == old(hand.cards) + drawn
    ensures DrawnBelowSeventeen(hand.cards, |old(hand.cards)|)
  {
    ghost var cards0, d0 := hand.cards, shoe.dealt;
    drawn := [];
    assert cards0 + drawn == cards0 && d0 + drawn == d0;
    var total := hand.Evaluate();
    while total < 17
      invariant shoe.Valid() && hand.Valid() && total == hand.value
      invariant shoe.dealt == d0 + drawn && hand.cards == cards0 + drawn
      invariant DrawnBelowSeventeen(hand.cards, |cards0|)
      decreases 17 - HardTotal(hand.cards)
    {
      var card := Hit(hand, shoe, |cards0|);
      drawn := drawn + [card];
      total := hand.Evaluate();
    }
  }

  /**
   * The loop of play_round over the players' turns: the hit loop of
   * _player_turn on each of the given distinct hands, in order. Hand k takes
   * the run runs[k], each card onto a hand worth less than 17, and ends on
   * 17 or more; the shoe deals exactly those runs, one after the other.
   */
  method HitEach(hands: seq<Hand>, shoe: BlackjackShoe) returns (ghost runs: seq<seq<Card>>)
    requires shoe.Valid() && shoe.numDecks >= 1
    requires forall a, b :: 0 <= a < b < |hands| ==> hands[a] != hands[b]
    modifies shoe, set h | h in hands
    ensures shoe.Valid()
    ensures |runs| == |hands| && shoe.dealt == old(shoe.dealt) + Concat(runs)
    ensures forall k :: 0 <= k < |hands| ==> hands[k].cards == old(hands[k].cards) + runs[k]
    ensures forall k :: 0 <= k < |hands| ==>
              DrawnBelowSeventeen(hands[k].cards, |old(hands[k].cards)|) && hands[k].value >= 17 && hands[k].Valid()
  {
    runs := [];
    assert old(shoe.dealt) + Concat(runs) == old(shoe.dealt);
    for i := 0 to |hands|
      invariant shoe.Valid()
      invariant |runs| == i && shoe.dealt == old(shoe.dealt) + Concat(runs)
      invariant forall k :: 0 <= k < i ==> hands[k].cards == old(hands[k].cards) + runs[k]
      invariant forall k :: 0 <= k < i ==>
                  DrawnBelowSeventeen(hands[k].cards, |old(hands[k].cards)|) && hands[k].value >= 17 && hands[k].Valid()
      invariant forall k :: i <= k < |hands| ==> hands[k].cards == old(hands[k].cards)
    {
      label hit:
      ghost var drawn := HitBelowSeventeen(hands[i], shoe);
      forall k | 0 <= k < |hands| && k != i
        ensures hands[k].cards == old@hit(hands[k].cards)
        ensures hands[k].value == old@hit(hands[k].value) && hands[k].soft == old@hit(hands[k].soft)
      {
        assert hands[k] != hands[i];
      }
      ConcatAppend(old(shoe.dealt), runs, drawn);
      runs := runs + [drawn];
    }
  }

  /**
   * The seats of __init__: n new, distinct, empty hands, and a new dealer
   * who hits soft 17 holding a new, empty hand of its own.
   */
  method NewTable(n: nat) returns (hands: seq<Hand>, dealer: Dealer)
    ensures |hands| == n && fresh(dealer) && fresh(dealer.hand)
    ensures dealer.hitOnSoft17 && dealer.hand.cards == [] && dealer.hand.Valid()
    ensures forall k :: 0 <= k < n ==> fresh(hands[k]) && hands[k].cards == [] && hands[k].Valid()
    ensures forall a, b :: 0 <= a < b < n ==> hands[a] != hands[b]
    ensures forall k :: 0 <= k < n ==> hands[k] != dealer.hand
  {
    hands := NewHands(n);
    var dealerHand := new Hand([]);
    dealer := new Dealer(true, dealerHand);
  }

  /** [Hand() for _ in range(n)]: n new, distinct, empty hands. */
  method NewHands(n: nat) returns (hands: seq<Hand>)
    ensures |hands| == n
    ensures forall k :: 0 <= k < n ==> fresh(hands[k]) && hands[k].cards == [] && hands[k].Valid()
    ensures forall a, b :: 0 <= a < b < n ==> hands[a] != hands[b]
  {
    hands := [];
    for i := 0 to n
      invariant |hands| == i
      invariant forall k :: 0 <= k < i ==> fresh(hands[k]) && hands[k].cards == [] && hands[k].Valid()
      invariant forall a, b :: 0 <= a < b < i ==> hands[a] != hands[b]
    {
      var h := new Hand([]);
      hands := hands + [h];
    }
  }

  /**
   * BlackjackRound: the shoe, the players' hands and the dealer. Valid: the
   * shoe is usable, there is one hand per player, no two of them are the
   * same object and none is the dealer's, and every hand's fields agree with
   * its cards.
   */
  class BlackjackRound {
    const shoe: BlackjackShoe
    const numPlayers: nat
    const players: seq<Hand>
    const dealer: Dealer

    ghost predicate Valid()
      reads this, shoe, dealer, dealer.hand, players
    {
      && shoe.Valid() && shoe.numDecks >= 1
      && |players| == numPlayers
      && (forall i, j :: 0 <= i < j < |players| ==> players[i] != players[j])
      && (forall i :: 0 <= i < |players| ==> players[i] != dealer.hand && players[i].Valid())
      && dealer.hand.Valid()
    }

    /**
     * __init__: one empty hand per player and a dealer who hits soft 17,
     * then the initial deal: player i holds the i-th and (n+1+i)-th cards
     * dealt and the dealer the n-th and (2n+1)-th, for n players.
     */
    constructor(shoe: BlackjackShoe, numPlayers: nat)
      requires shoe.Valid() && shoe.numDecks >= 1
      modifies shoe
      ensures Valid()
      ensures this.shoe == shoe && this.numPlayers == numPlayers && dealer.hitOnSoft17
      ensures |shoe.dealt| == |old(shoe.dealt)| + 2 * (numPlayers + 1)
      ensures shoe.dealt[..|old(shoe.dealt)|] == old(shoe.dealt)
      ensures forall i :: 0 <= i < numPlayers ==>
                players[i].cards == [shoe.dealt[|old(shoe.dealt)| + i], shoe.dealt[|old(shoe.dealt)| + numPlayers + 1 + i]]
      ensures dealer.hand.cards ==
                [shoe.dealt[|old(shoe.dealt)| + numPlayers], shoe.dealt[|old(shoe.dealt)| + 2 * numPlayers + 1]]
    {
      var hands, houseDealer := NewTable(numPlayers);
      this.shoe := shoe;
      this.numPlayers := numPlayers;
      players := hands;
      dealer := houseDealer;
      new;
      label empty:
      DealInitialCards();
      ghost var d := |old(shoe.dealt)|;
      forall i | 0 <= i < numPlayers
        ensures players[i].cards == [shoe.dealt[d + i], shoe.dealt[d + numPlayers + 1 + i]]
      {
        assert old@empty(players[i].cards) == [];
      }
    }

    /**
     * _deal_initial_cards: two passes, each dealing one card to every player
     * in order and then one to the dealer, so 2(n+1) cards in all.
     */
    method DealInitialCards()
      requires Valid()
      modifies shoe, dealer.hand, players
      ensures Valid()
      ensures |shoe.dealt| == |old(shoe.dealt)| + 2 * (numPlayers + 1)
      ensures shoe.dealt[..|old(shoe.dealt)|] == old(shoe.dealt)
      ensures forall i :: 0 <= i < numPlayers ==>
                players[i].cards == old(players[i].cards) +
                  [shoe.dealt[|old(shoe.dealt)| + i], shoe.dealt[|old(shoe.dealt)| + numPlayers + 1 + i]]
      ensures dealer.hand.cards == old(dealer.hand.cards) +
                [shoe.dealt[|old(shoe.dealt)| + numPlayers], shoe.dealt[|old(shoe.dealt)| + 2 * numPlayers + 1]]
    {
      ghost var d0 := shoe.dealt;
      DealPass();
      ghost var d1 := shoe.dealt;
      DealPass();
      assert shoe.dealt[..|d1|] == d1 && d1[..|d0|] == d0;
      assert forall k :: 0 <= k < |d1| ==> shoe.dealt[k] == d1[k];
    }

    /** One pass of the initial deal: a card to each player in order, then one to the dealer. */
    method DealPass()
      requires Valid()
      modifies shoe, dealer.hand, players
      ensures Valid()
      ensures |shoe.dealt| == |old(shoe.dealt)| + numPlayers + 1
      ensures shoe.dealt[..|old(shoe.dealt)|] == old(shoe.dealt)
      ensures forall i :: 0 <= i < numPlayers ==>
                players[i].cards == old(players[i].cards) + [shoe.dealt[|old(shoe.dealt)| + i]]
      ensures dealer.hand.cards == old(dealer.hand.cards) + [shoe.dealt[|old(shoe.dealt)| + numPlayers]]
    {
      var drawn := DealEach(players, shoe);
      var card := DealTo(dealer.hand, shoe);
    }

    /**
     * _player_turn: the player hits while the hand is worth less than 17.
     * The cards taken are the cards the shoe dealt during the turn, each one
     * onto a hand worth less than 17, and the hand ends worth 17 or more;
     * no other hand changes.
     */
    method PlayerTurn(i: nat) returns (ghost drawn: seq<Card>)
      requires Valid() && i < numPlayers
      modifies shoe, players[i]
      ensures Valid()
      ensures players[i].value >= 17
      ensures shoe.dealt == old(shoe.dealt) + drawn
      ensures players[i].cards == old(players[i].cards) + drawn
      ensures DrawnBelowSeventeen(players[i].cards, |old(players[i].cards)|)
    {
      drawn := HitBelowSeventeen(players[i], shoe);
    }

    /**
     * _evaluate_round: one outcome per player, in player order, each the
     * settlement of that player's total against the dealer's.
     */
    method EvaluateRound() returns (outcomes: seq<Outcome>)
      requires Valid()
      ensures |outcomes| == numPlayers
      ensures forall i :: 0 <= i < numPlayers ==>
                outcomes[i] == Settle(HandValue(players[i].cards), HandValue(dealer.hand.cards))
    {
      var dealerTotal := dealer.hand.value;
      outcomes := [];
      for i := 0 to numPlayers
        invariant |outcomes| == i
        invariant forall k :: 0 <= k < i ==>
                    outcomes[k] == Settle(HandValue(players[k].cards), HandValue(dealer.hand.cards))
      {
        var playerTotal := players[i].value;
        outcomes := outcomes + [Settle(playerTotal, dealerTotal)];
      }
    }

    /**
     * play_round: every player's turn in order, then the dealer's, then the
     * settlement. The shoe deals player 1's run of hits, then player 2's,
     * and so on, then the dealer's draws: each player card drawn onto a hand
     * worth less than 17 and each player ending on 17 or more; each dealer
     * card drawn onto a hand that did not stand, the dealer ending standing
     * or over 21. The outcomes settle those final hands.
     */
    method PlayRound() returns (outcomes: seq<Outcome>, ghost runs: seq<seq<Card>>, ghost dealerRun: seq<Card>)
      requires Valid()
      modifies shoe, dealer.hand, players
      ensures Valid()
      ensures |runs| == numPlayers && shoe.dealt == old(shoe.dealt) + Concat(runs) + dealerRun
      ensures forall i :: 0 <= i < numPlayers ==> players[i].cards == old(players[i].cards) + runs[i]
      ensures forall i :: 0 <= i < numPlayers ==>
                DrawnBelowSeventeen(players[i].cards, |old(players[i].cards)|) && players[i].value >= 17
      ensures dealer.hand.cards == old(dealer.hand.cards) + dealerRun
      ensures DrawnWhileHitting(dealer.hand.cards, |old(dealer.hand.cards)|, dealer.hitOnSoft17)
      ensures dealer.hand.value >= 17
      ensures DealerStands(dealer.hand.value, dealer.hand.soft, dealer.hitOnSoft17) || dealer.hand.value > 21
      ensures |outcomes| == numPlayers
      ensures forall i :: 0 <= i < numPlayers ==> outcomes[i] == Settle(players[i].value, dealer.hand.value)
    {
      runs := PlayerTurns();
      dealerRun := DealerPlays();
      outcomes := EvaluateRound();
    }

    /**
     * The dealer's turn of play_round: the dealer takes the run of cards the
     * shoe deals, each drawn onto a hand that did not stand, and ends on 17
     * or more, standing or over 21. No player's hand changes.
     */
    method DealerPlays() returns (ghost run: seq<Card>)
      requires Valid()
      modifies shoe, dealer.hand
      ensures Valid()
      ensures shoe.dealt == old(shoe.dealt) + run && dealer.hand.cards == old(dealer.hand.cards) + run
      ensures DrawnWhileHitting(dealer.hand.cards, |old(dealer.hand.cards)|, dealer.hitOnSoft17)
      ensures dealer.hand.value >= 17
      ensures DealerStands(dealer.hand.value, dealer.hand.soft, dealer.hitOnSoft17) || dealer.hand.value > 21
    {
      var total, result := dealer.DealerTurn(shoe);
      run := shoe.dealt[|old(shoe.dealt)|..];
      assert shoe.dealt == old(shoe.dealt) + run;
    }

    /**
     * The players' turns of play_round, in player order (the hit loop of
     * _player_turn on each hand). Player i takes the run runs[i], each card
     * drawn onto a hand worth less than 17, and ends on 17 or more; the shoe
     * deals exactly those runs, one after the other.
     */
    method PlayerTurns() returns (ghost runs: seq<seq<Card>>)
      requires Valid()
      modifies shoe, players
      ensures Valid()
      ensures |runs| == numPlayers && shoe.dealt == old(shoe.dealt) + Concat(runs)
      ensures forall i :: 0 <= i < numPlayers ==> players[i].cards == old(players[i].cards) + runs[i]
      ensures forall i :: 0 <= i < numPlayers ==>
                DrawnBelowSeventeen(players[i].cards, |old(players[i].cards)|) && players[i].value >= 17
    {
      runs := HitEach(players, shoe);
    }
  }
}
