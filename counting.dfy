/**
 * The running counts (counter.py): Hi-Lo and Ace/Five. The tally functions
 * give the count a sequence of observed cards produces; class Counter holds
 * the two integer fields the source updates card by card.
 */
module Counting {
  import opened Deck

  /** Hi-Lo tag: 10, J, Q, K and A count -1, 2 to 6 count +1, 7, 8 and 9 count 0. */
  function HiLoTag(r: Rank): (t: int)
    ensures -1 <= t <= 1
  {
    match r
    case Ten | Jack | Queen | King | Ace => -1
    case Two | Three | Four | Five | Six => 1
    case Seven | Eight | Nine => 0
  }

  /** Ace/Five tag: a 5 counts +1, an Ace -1, anything else 0. */
  function AceFiveTag(r: Rank): (t: int)
    ensures -1 <= t <= 1
  {
    match r
    case Five => 1
    case Ace => -1
    case _ => 0
  }

  /** The Hi-Lo count after observing `cards` in order from zero. */
  function HiLoCount(cards: seq<Card>): int
  {
    if |cards| == 0 then 0 else HiLoCount(cards[..|cards| - 1]) + HiLoTag(cards[|cards| - 1].rank)
  }

  /** The Ace/Five count after observing `cards` in order from zero. */
  function AceFiveCount(cards: seq<Card>): int
  {
    if |cards| == 0 then 0 else AceFiveCount(cards[..|cards| - 1]) + AceFiveTag(cards[|cards| - 1].rank)
  }

  /** The counts of two runs of observations add up. */
  lemma {:induction false} CountsAppend(a: seq<Card>, b: seq<Card>)
    ensures HiLoCount(a + b) == HiLoCount(a) + HiLoCount(b)
    ensures AceFiveCount(a + b) == AceFiveCount(a) + AceFiveCount(b)
  {
    if |b| > 0 {
      var b' := b[..|b| - 1];
      assert (a + b)[..|a + b| - 1] == a + b';
      CountsAppend(a, b');
    } else {
      assert a + b == a;
    }
  }

  /** The counts depend only on which cards were seen, not on their order. */
  lemma {:induction false} CountsIgnoreOrder(a: seq<Card>, b: seq<Card>)
    requires multiset(a) == multiset(b)
    ensures HiLoCount(a) == HiLoCount(b)
    ensures AceFiveCount(a) == AceFiveCount(b)
    decreases |a|
  {
    if |a| > 0 {
      var last := a[|a| - 1];
      var a' := a[..|a| - 1];
      assert a == a' + [last];
      assert last in multiset(b) by {
        assert last in a;
      }
      var i :| 0 <= i < |b| && b[i] == last;
      var left, right := b[..i], b[i + 1..];
      assert b == left + [last] + right;
      MultisetCancel(a', last, left, right);
      CountsIgnoreOrder(a', left + right);
      CountsMiddle(left, last, right);
    }
  }

  /** Taking the same card out of two sequences with equal multisets leaves equal multisets. */
  lemma MultisetCancel(a: seq<Card>, card: Card, left: seq<Card>, right: seq<Card>)
    requires multiset(a + [card]) == multiset(left + [card] + right)
    ensures multiset(a) == multiset(left + right)
  {
    assert multiset(a + [card]) == multiset(a) + multiset{card};
    assert multiset(left + [card] + right) == multiset(left + right) + multiset{card};
    assert multiset(a) == multiset(a + [card]) - multiset{card};
    assert multiset(left + right) == multiset(left + [card] + right) - multiset{card};
  }

  /** A card seen between two runs adds its tag to the counts of the two runs. */
  lemma CountsMiddle(left: seq<Card>, card: Card, right: seq<Card>)
    ensures HiLoCount(left + [card] + right) == HiLoCount(left + right) + HiLoTag(card.rank)
    ensures AceFiveCount(left + [card] + right) == AceFiveCount(left + right) + AceFiveTag(card.rank)
  {
    assert (left + [card])[..|left|] == left;
    CountsAppend(left + [card], right);
    CountsAppend(left, right);
  }

  /** Observing one more card moves the Hi-Lo count by that card's tag. */
  lemma HiLoStep(cards: seq<Card>, k: nat)
    requires k < |cards|
    ensures HiLoCount(cards[..k + 1]) == HiLoCount(cards[..k]) + HiLoTag(cards[k].rank)
  {
    assert cards[..k + 1][..k] == cards[..k];
  }

  /** Observing one more card moves the Ace/Five count by that card's tag. */
  lemma AceFiveStep(cards: seq<Card>, k: nat)
    requires k < |cards|
    ensures AceFiveCount(cards[..k + 1]) == AceFiveCount(cards[..k]) + AceFiveTag(cards[k].rank)
  {
    assert cards[..k + 1][..k] == cards[..k];
  }

  /** The Hi-Lo tags of the first k ranks of `Ranks`, added up. */
  function RanksHiLo(k: nat): int
    requires k <= 13
  {
    if k == 0 then 0 else RanksHiLo(k - 1) + HiLoTag(Ranks[k - 1])
  }

  /** The Ace/Five tags of the first k ranks of `Ranks`, added up. */
  function RanksAceFive(k: nat): int
    requires k <= 13
  {
    if k == 0 then 0 else RanksAceFive(k - 1) + AceFiveTag(Ranks[k - 1])
  }

  /** The counts of the first k cards of a suit are the tags of the first k ranks. */
  lemma {:induction false} SuitRowPrefix(s: Suit, k: nat)
    requires k <= 13
    ensures HiLoCount(SuitRow(s)[..k]) == RanksHiLo(k)
    ensures AceFiveCount(SuitRow(s)[..k]) == RanksAceFive(k)
  {
    if k > 0 {
      SuitRowPrefix(s, k - 1);
      HiLoStep(SuitRow(s), k - 1);
      AceFiveStep(SuitRow(s), k - 1);
    }
  }

  /** Both counts of one suit, in deck order, are 0. */
  lemma SuitRowBalanced(s: Suit)
    ensures HiLoCount(SuitRow(s)) == 0 && AceFiveCount(SuitRow(s)) == 0
  {
    SuitRowPrefix(s, 13);
    assert SuitRow(s)[..13] == SuitRow(s);
    RanksBalanced();
  }

  /** Over the thirteen ranks the Hi-Lo tags and the Ace/Five tags each sum to 0. */
  lemma RanksBalanced()
    ensures RanksHiLo(13) == 0 && RanksAceFive(13) == 0
  {
    RanksAceToFive();
    RanksSixToNine();
    RanksTenToJack();
    RanksQueenToKing();
  }

  /** Ace to Five: Hi-Lo -1 + 4, Ace/Five -1 + 1. */
  lemma RanksAceToFive()
    ensures RanksHiLo(5) == 3 && RanksAceFive(5) == 0
  {
    assert Ranks[0] == Ace && Ranks[1] == Two && Ranks[2] == Three && Ranks[3] == Four && Ranks[4] == Five;
  }

  /** Six to Nine: Hi-Lo +1, Ace/Five nothing. */
  lemma RanksSixToNine()
    ensures RanksHiLo(9) == RanksHiLo(5) + 1 && RanksAceFive(9) == RanksAceFive(5)
  {
    assert Ranks[5] == Six && Ranks[6] == Seven && Ranks[7] == Eight && Ranks[8] == Nine;
  }

  /** Ten and Jack: Hi-Lo -2, Ace/Five nothing. */
  lemma RanksTenToJack()
    ensures RanksHiLo(11) == RanksHiLo(9) - 2 && RanksAceFive(11) == RanksAceFive(9)
  {
    assert Ranks[9] == Ten && Ranks[10] == Jack;
  }

  /** Queen and King: Hi-Lo -2, Ace/Five nothing. */
  lemma RanksQueenToKing()
    ensures RanksHiLo(13) == RanksHiLo(11) - 2 && RanksAceFive(13) == RanksAceFive(11)
  {
    assert Ranks[11] == Queen && Ranks[12] == King;
  }

  /** Both counts of a full n-deck shoe, dealt in build order, are 0. */
  lemma {:induction false} ShoeBalanced(n: nat)
    ensures HiLoCount(ShoeCards(n)) == 0 && AceFiveCount(ShoeCards(n)) == 0
  {
    if n > 0 {
      ShoeBalanced(n - 1);
      var d := CreateSingleDeck();
      assert d == SuitRow(Suits[0]) + SuitRow(Suits[1]) + SuitRow(Suits[2]) + SuitRow(Suits[3]);
      SuitRowBalanced(Suits[0]);
      SuitRowBalanced(Suits[1]);
      SuitRowBalanced(Suits[2]);
      SuitRowBalanced(Suits[3]);
      CountsAppend(SuitRow(Suits[0]), SuitRow(Suits[1]));
      CountsAppend(SuitRow(Suits[0]) + SuitRow(Suits[1]), SuitRow(Suits[2]));
      CountsAppend(SuitRow(Suits[0]) + SuitRow(Suits[1]) + SuitRow(Suits[2]), SuitRow(Suits[3]));
      CountsAppend(ShoeCards(n - 1), d);
    }
  }

  /** Any shuffle of a full shoe, seen to the end, brings both counts back to 0. */
  lemma FullShoeCountsZero(n: nat, cards: seq<Card>)
    requires multiset(cards) == multiset(ShoeCards(n))
    ensures HiLoCount(cards) == 0 && AceFiveCount(cards) == 0
  {
    CountsIgnoreOrder(cards, ShoeCards(n));
    ShoeBalanced(n);
  }

  /** Counter: the two running tallies. */
  class Counter {
    var highLowCount: int
    var fiveAcesCount: int

    constructor()
      ensures highLowCount == 0 && fiveAcesCount == 0
    {
      highLowCount := 0;
      fiveAcesCount := 0;
    }

    /** update_count: each tally moves by the card's tag, so by at most one. */
    method UpdateCount(card: Card)
      modifies this
      ensures highLowCount == old(highLowCount) + HiLoTag(card.rank)
      ensures fiveAcesCount == old(fiveAcesCount) + AceFiveTag(card.rank)
    {
      if card.rank in {Ten, Jack, Queen, King, Ace} {
        highLowCount := highLowCount - 1;
      } else if card.rank in {Two, Three, Four, Five, Six} {
        highLowCount := highLowCount + 1;
      }
      if card.rank == Five {
        fiveAcesCount := fiveAcesCount + 1;
      } else if card.rank == Ace {
        fiveAcesCount := fiveAcesCount - 1;
      }
    }

    /** get_high_low_count: the Hi-Lo tally, nothing changed. */
    method GetHighLowCount() returns (n: int)
      ensures n == highLowCount
    {
      n := highLowCount;
    }

    /** get_five_aces_count: the Ace/Five tally, nothing changed. */
    method GetFiveAcesCount() returns (n: int)
      ensures n == fiveAcesCount
    {
      n := fiveAcesCount;
    }

    /** reset: both tallies back to 0. */
    method Reset()
      modifies this
      ensures highLowCount == 0 && fiveAcesCount == 0
    {
      highLowCount := 0;
      fiveAcesCount := 0;
    }
  }

  /**
   * The count test: every card of a sequence fed to the counter in order.
   * The tallies move by the counts of the sequence; for a fresh counter and
   * any shuffle of a full shoe both end at 0.
   */
  method CountCards(counter: Counter, cards: seq<Card>)
    modifies counter
    ensures counter.highLowCount == old(counter.highLowCount) + HiLoCount(cards)
    ensures counter.fiveAcesCount == old(counter.fiveAcesCount) + AceFiveCount(cards)
  {
    for i := 0 to |cards|
      invariant counter.highLowCount == old(counter.highLowCount) + HiLoCount(cards[..i])
      invariant counter.fiveAcesCount == old(counter.fiveAcesCount) + AceFiveCount(cards[..i])
    {
      HiLoStep(cards, i);
      AceFiveStep(cards, i);
      counter.UpdateCount(cards[i]);
    }
    assert cards[..|cards|] == cards;
  }

  /**
   * test_count: a fresh counter fed every card of a freshly built and
   * shuffled shoe reads 0 on both tallies, whatever the shuffle drew.
   */
  method CountShuffledShoe(numDecks: nat, draw: nat -> nat) returns (highLow: int, fiveAces: int)
    ensures highLow == 0 && fiveAces == 0
  {
    var built := CreateShoe(numDecks);
    var shoe := new Card[|built|](i requires 0 <= i < |built| => built[i]);
    assert shoe[..] == built;
    ShuffleShoe(shoe, draw);
    var counter := new Counter();
    CountCards(counter, shoe[..]);
    FullShoeCountsZero(numDecks, shoe[..]);
    highLow := counter.GetHighLowCount();
    fiveAces := counter.GetFiveAcesCount();
  }
}
