/**
 * Cards, the single deck, the multi-deck shoe, the cut card and the shuffle,
 * and the shoe object that deals from a cursor and rebuilds itself once the
 * cursor passes the cut card (deck.py).
 */
module Deck {

  datatype Rank = Ace | Two | Three | Four | Five | Six | Seven | Eight | Nine | Ten | Jack | Queen | King

  datatype Suit = Clubs | Diamonds | Hearts | Spades

  /** A card is a value; Dafny's structural equality on it is the source's Card.__eq__. */
  datatype Card = Card(rank: Rank, suit: Suit)

  /** Card.__eq__: two cards are equal when their ranks and their suits are. */
  function SameCard(a: Card, b: Card): (r: bool)
    ensures r <==> a == b
  {
    a.rank == b.rank && a.suit == b.suit
  }

  /** The module-level `suits` and `ranks` lists, in their order. */
  const Suits: seq<Suit> := [Clubs, Diamonds, Hearts, Spades]
  const Ranks: seq<Rank> := [Ace, Two, Three, Four, Five, Six, Seven, Eight, Nine, Ten, Jack, Queen, King]

  /** Position of a rank in `Ranks`. */
  function RankIndex(r: Rank): (i: nat)
    ensures i < 13 && Ranks[i] == r
  {
    match r
    case Ace => 0
    case Two => 1
    case Three => 2
    case Four => 3
    case Five => 4
    case Six => 5
    case Seven => 6
    case Eight => 7
    case Nine => 8
    case Ten => 9
    case Jack => 10
    case Queen => 11
    case King => 12
  }

  /** Position of a suit in `Suits`. */
  function SuitIndex(s: Suit): (i: nat)
    ensures i < 4 && Suits[i] == s
  {
    match s
    case Clubs => 0
    case Diamonds => 1
    case Hearts => 2
    case Spades => 3
  }

  /** The inner loop of the deck comprehension: every rank of one suit, in rank order. */
  function SuitRow(s: Suit): seq<Card>
  {
    seq(13, i requires 0 <= i < 13 => Card(Ranks[i], s))
  }

  /** No card appears twice in `s`. */
  predicate Distinct(s: seq<Card>)
  {
    forall i, j :: 0 <= i < j < |s| ==> s[i] != s[j]
  }

  /**
   * create_single_deck: the suit-major comprehension over `Suits` and `Ranks`.
   * The deck has 52 cards, card i is the (i mod 13)-th rank of the (i div 13)-th
   * suit, every card is in it and none is in it twice.
   */
  function CreateSingleDeck(): (d: seq<Card>)
    ensures |d| == 52
    ensures forall i :: 0 <= i < 52 ==> d[i] == Card(Ranks[i % 13], Suits[i / 13])
    ensures forall c: Card :: c in d
    ensures Distinct(d)
  {
    var d := SuitRow(Suits[0]) + SuitRow(Suits[1]) + SuitRow(Suits[2]) + SuitRow(Suits[3]);
    SingleDeckLayout(d);
    d
  }

  lemma SingleDeckLayout(d: seq<Card>)
    requires d == SuitRow(Suits[0]) + SuitRow(Suits[1]) + SuitRow(Suits[2]) + SuitRow(Suits[3])
    ensures |d| == 52
    ensures forall i :: 0 <= i < 52 ==> d[i] == Card(Ranks[i % 13], Suits[i / 13])
    ensures forall c: Card :: c in d
    ensures Distinct(d)
  {
    SingleDeckPositions(d);
    SingleDeckComplete(d);
    SingleDeckDistinct(d);
  }

  /** Card i of the single deck has rank i mod 13 and suit i div 13. */
  lemma SingleDeckPositions(d: seq<Card>)
    requires d == SuitRow(Suits[0]) + SuitRow(Suits[1]) + SuitRow(Suits[2]) + SuitRow(Suits[3])
    ensures |d| == 52
    ensures forall i :: 0 <= i < 52 ==> d[i] == Card(Ranks[i % 13], Suits[i / 13])
  {
    forall i | 0 <= i < 52
      ensures d[i] == Card(Ranks[i % 13], Suits[i / 13])
    {
      var k := if i < 13 then 0 else if i < 26 then 1 else if i < 39 then 2 else 3;
      assert i / 13 == k && i % 13 == i - 13 * k;
      assert d[i] == SuitRow(Suits[k])[i - 13 * k];
    }
  }

  /** Laid out by rank and suit, the deck holds every card. */
  lemma SingleDeckComplete(d: seq<Card>)
    requires |d| == 52
    requires forall i :: 0 <= i < 52 ==> d[i] == Card(Ranks[i % 13], Suits[i / 13])
    ensures forall c: Card :: c in d
  {
    forall c: Card
      ensures c in d
    {
      var i := 13 * SuitIndex(c.suit) + RankIndex(c.rank);
      assert i % 13 == RankIndex(c.rank) && i / 13 == SuitIndex(c.suit);
      assert d[i] == c;
    }
  }

  /** Laid out by rank and suit, no card appears twice. */
  lemma SingleDeckDistinct(d: seq<Card>)
    requires |d| == 52
    requires forall i :: 0 <= i < 52 ==> d[i] == Card(Ranks[i % 13], Suits[i / 13])
    ensures Distinct(d)
  {
    forall i, j | 0 <= i < j < 52
      ensures d[i] != d[j]
    {
      assert i % 13 != j % 13 || i / 13 != j / 13;
    }
  }

  /** The cards of `n` single decks, concatenated in order: what create_shoe builds. */
  function ShoeCards(n: nat): (s: seq<Card>)
    ensures |s| == 52 * n
  {
    if n == 0 then [] else ShoeCards(n - 1) + CreateSingleDeck()
  }

  /** Card i of an n-deck shoe is card (i mod 52) of a single deck. */
  lemma {:induction false} ShoeCardsAt(n: nat, i: nat)
    requires i < 52 * n
    ensures ShoeCards(n)[i] == CreateSingleDeck()[i % 52]
  {
    if i < 52 * (n - 1) {
      ShoeCardsAt(n - 1, i);
      assert ShoeCards(n)[i] == ShoeCards(n - 1)[i];
    } else {
      assert i - 52 * (n - 1) == i % 52;
      assert ShoeCards(n)[i] == CreateSingleDeck()[i - 52 * (n - 1)];
    }
  }

  /** A card that occurs once in a duplicate-free sequence has multiplicity one. */
  lemma {:induction false} DistinctMultiplicity(s: seq<Card>, c: Card)
    requires Distinct(s)
    ensures multiset(s)[c] == if c in s then 1 else 0
  {
    if s != [] {
      var t := s[..|s| - 1];
      assert s == t + [s[|s| - 1]];
      assert Distinct(t);
      DistinctMultiplicity(t, c);
      assert s[|s| - 1] !in t;
    }
  }

  /** Every card occurs exactly n times in an n-deck shoe. */
  lemma {:induction false} ShoeMultiplicity(n: nat, c: Card)
    ensures multiset(ShoeCards(n))[c] == n
  {
    if n > 0 {
      ShoeMultiplicity(n - 1, c);
      DistinctMultiplicity(CreateSingleDeck(), c);
      assert multiset(ShoeCards(n)) == multiset(ShoeCards(n - 1)) + multiset(CreateSingleDeck());
    }
  }

  /** create_shoe: extends an empty list by one single deck per requested deck. */
  method CreateShoe(numDecks: nat) returns (shoe: seq<Card>)
    ensures shoe == ShoeCards(numDecks)
  {
    shoe := [];
    for k := 0 to numDecks
      invariant shoe == ShoeCards(k)
    {
      shoe := shoe + CreateSingleDeck();
    }
  }

  /** A positive denominator. */
  type Positive = n: nat | n > 0 witness 1

  /** The cut penetration, a non-negative fraction num/den of the shoe dealt before the cut card. */
  datatype Fraction = Fraction(num: nat, den: Positive)

  /** The default number of decks of a shoe, 8. */
  const DefaultDecks: nat := 8

  /** The default penetration, 0.75. */
  const DefaultPenetration: Fraction := Fraction(3, 4)

  /**
   * place_cut_card: the shoe comes back unchanged and the cut index is
   * the floor of |shoe| * penetration.
   */
  function PlaceCutCard(shoe: seq<Card>, penetration: Fraction): (r: (seq<Card>, nat))
    ensures r.0 == shoe
    ensures r.1 * penetration.den <= |shoe| * penetration.num < (r.1 + 1) * penetration.den
  {
    var cut := |shoe| * penetration.num / penetration.den;
    FloorDivision(|shoe| * penetration.num, penetration.den);
    (shoe, cut)
  }

  lemma FloorDivision(a: nat, b: Positive)
    ensures (a / b) * b <= a < (a / b + 1) * b
  {
    assert a == (a / b) * b + a % b;
  }

  /** With a penetration below one the cut card lies strictly inside a non-empty shoe. */
  lemma CutInsideShoe(shoe: seq<Card>, penetration: Fraction)
    requires |shoe| > 0 && penetration.num < penetration.den
    ensures PlaceCutCard(shoe, penetration).1 < |shoe|
  {
    var cut := PlaceCutCard(shoe, penetration).1;
    MulLess(penetration.num, penetration.den, |shoe|);
    assert |shoe| * penetration.num < |shoe| * penetration.den;
    if cut >= |shoe| {
      MulAtLeast(|shoe|, cut, penetration.den);
    }
  }

  /**
   * With the default penetration the cut card sits three quarters of the way
   * into the shoe: at index 312 of a default shoe of 8 decks, and inside any
   * non-empty shoe.
   */
  lemma DefaultCut(shoe: seq<Card>)
    ensures PlaceCutCard(shoe, DefaultPenetration).1 == |shoe| * 3 / 4
    ensures |shoe| == 52 * DefaultDecks ==> PlaceCutCard(shoe, DefaultPenetration).1 == 312
    ensures |shoe| > 0 ==> PlaceCutCard(shoe, DefaultPenetration).1 < |shoe|
  {
    if |shoe| > 0 {
      CutInsideShoe(shoe, DefaultPenetration);
    }
  }

  lemma {:induction false} MulLess(a: nat, b: nat, c: nat)
    requires a < b && c > 0
    ensures c * a < c * b
  {
    if c > 1 {
      MulLess(a, b, c - 1);
      assert c * a == (c - 1) * a + a && c * b == (c - 1) * b + b;
    }
  }

  lemma {:induction false} MulAtLeast(a: nat, b: nat, c: nat)
    requires a <= b
    ensures a * c <= b * c
  {
    if c > 0 {
      MulAtLeast(a, b, c - 1);
      assert a * c == a * (c - 1) + a && b * c == b * (c - 1) + b;
    }
  }

  /** shuffle_shoe: Python's random.shuffle (Fisher-Yates), with the random draws given by `draw`. */
  method ShuffleShoe(a: array<Card>, draw: nat -> nat)
    modifies a
    ensures multiset(a[..]) == multiset(old(a[..]))
  {
    var i := a.Length;
    while i > 1
      invariant 0 <= i <= a.Length
      invariant multiset(a[..]) == multiset(old(a[..]))
    {
      i := i - 1;
      var j := draw(i) % (i + 1);
      a[i], a[j] := a[j], a[i];
    }
  }

  /**
   * BlackjackShoe. `shoe` is the current card sequence, `dealIndex` the number
   * of cards dealt from it and `cutIndex` the cut card's position. The random
   * source is `rng`: draw i of the k-th shuffle is rng(k, i), and `shuffles`
   * counts the shuffles so far. `dealt` records every card dealt, across rebuilds.
   */
  class BlackjackShoe {
    const numDecks: nat
    const cutPenetration: Fraction
    const rng: (nat, nat) -> nat
    var shoe: seq<Card>
    var cutIndex: nat
    var dealIndex: nat
    var shuffles: nat
    ghost var dealt: seq<Card>

    /**
     * The shoe holds numDecks copies of every card and nothing else, is cut at
     * its penetration, and the cursor is not past the cut.
     */
    ghost predicate Valid()
      reads this
    {
      && |shoe| == 52 * numDecks
      && (forall c: Card :: multiset(shoe)[c] == numDecks)
      && cutIndex == PlaceCutCard(shoe, cutPenetration).1
      && dealIndex <= cutIndex
      && dealIndex <= |shoe|
    }

    constructor(numDecks: nat, cutPenetration: Fraction, rng: (nat, nat) -> nat)
      ensures Valid()
      ensures this.numDecks == numDecks && this.cutPenetration == cutPenetration && this.rng == rng
      ensures dealIndex == 0 && shuffles == 1 && dealt == []
    {
      this.numDecks := numDecks;
      this.cutPenetration := cutPenetration;
      this.rng := rng;
      shuffles := 0;
      dealt := [];
      new;
      Reshuffle();
    }

    /**
     * reshuffle: a fresh shoe of numDecks decks, shuffled, with the cut card
     * placed again and the cursor back at the top.
     */
    method Reshuffle()
      modifies this
      ensures Valid()
      ensures multiset(shoe) == multiset(ShoeCards(numDecks))
      ensures dealIndex == 0
      ensures shuffles == old(shuffles) + 1 && dealt == old(dealt)
    {
      var built := CreateShoe(numDecks);
      var a := new Card[|built|](i requires 0 <= i < |built| => built[i]);
      assert a[..] == built;
      var k, r := shuffles, rng;
      ShuffleShoe(a, i => r(k, i));
      shoe := a[..];
      forall c: Card
        ensures multiset(shoe)[c] == numDecks
      {
        ShoeMultiplicity(numDecks, c);
      }
      shuffles := shuffles + 1;
      cutIndex := PlaceCutCard(shoe, cutPenetration).1;
      dealIndex := 0;
    }

    /**
     * deal_card. An exhausted shoe is rebuilt before the read, so the read is
     * in bounds: the card is then the top of the new shoe and the cursor ends
     * at 1. Otherwise the card at the cursor is returned and the cursor
     * advances; passing the cut card rebuilds the shoe at once.
     */
    method DealCard() returns (card: Card)
      requires Valid() && numDecks >= 1
      modifies this
      ensures Valid()
      ensures cutIndex == old(cutIndex)
      ensures dealt == old(dealt) + [card]
      ensures old(dealIndex) < |old(shoe)| ==> card == old(shoe[dealIndex])
      ensures old(dealIndex) < old(cutIndex) && old(dealIndex) < |old(shoe)| ==>
                shoe == old(shoe) && dealIndex == old(dealIndex) + 1 && shuffles == old(shuffles)
      ensures old(dealIndex) == old(cutIndex) < |old(shoe)| ==>
                dealIndex == 0 && shuffles == old(shuffles) + 1
      ensures old(dealIndex) >= |old(shoe)| ==>
                cutIndex >= |shoe| && card == shoe[0] && dealIndex == 1 && shuffles == old(shuffles) + 1
    {
      if dealIndex >= |shoe| {
        Reshuffle();
      }
      card := shoe[dealIndex];
      dealIndex := dealIndex + 1;
      if dealIndex > cutIndex {
        Reshuffle();
      }
      dealt := dealt + [card];
    }
  }
}
