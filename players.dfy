/**
 * The player's decision function (player.py): a lookup with a fixed
 * precedence. A busted hand is BUST and a natural is BLACKJACK before any
 * table is consulted; a pair is looked up in the pair table; what the pair
 * table does not settle goes to the soft table for a soft hand and to the
 * hard table otherwise. Within a row a wildcard wins over the dealer's
 * upcard, and the upcard over DEFAULT. A double is only ever returned for a
 * two-card hand.
 */
module Players {
  import opened Wrappers
  import opened Deck
  import opened Hands

  /** The six action strings get_action can return. */
  datatype Action = Hit | Stand | Double | Split | Bust | Blackjack

  /** The one-letter codes of the strategy tables. */
  datatype Code = H | S | D | P

  /** A key of a table row: the wildcards 'ANY' and 'ALL', 'DEFAULT', or a dealer upcard value. */
  datatype Key = Any | All | Default | Up(upcard: int)

  /** A table row: per key, a code or None. */
  type Rule = map<Key, Option<Code>>

  /**
   * A strategy: the PAIR table keyed by the sorted normalised ranks, and the
   * SOFT and HARD tables keyed by the hand's total.
   */
  datatype Strategy = Strategy(pair: map<(Rank, Rank), Rule>, soft: map<int, Rule>, hard: map<int, Rule>)

  /** dict.get: the entry under `k`, or None when there is no such key. */
  function Get(rule: Rule, k: Key): (c: Option<Code>)
    ensures c.Some? ==> k in rule && rule[k] == c
    ensures k !in rule ==> c == None
  {
    if k in rule then rule[k] else None
  }

  /**
   * dealer_upcard_value: 10 for a ten-valued rank, 11 for an Ace, the face
   * value otherwise. It is the same number the hand evaluation counts for
   * that rank before any Ace is demoted.
   */
  function UpcardValue(card: Card): (v: int)
    ensures 2 <= v <= 11
    ensures v == BaseValue(card.rank)
  {
    match card.rank
    case Ten | Jack | Queen | King => 10
    case Ace => 11
    case Two => 2
    case Three => 3
    case Four => 4
    case Five => 5
    case Six => 6
    case Seven => 7
    case Eight => 8
    case Nine => 9
  }

  /**
   * normalize_rank: every ten-valued rank becomes the ten ('T'), every other
   * rank stays. Only ranks of equal value are merged, and the result is
   * already normal.
   */
  function NormalizeRank(r: Rank): (n: Rank)
    ensures n != Jack && n != Queen && n != King
    ensures n == r || (BaseValue(r) == 10 && n == Ten)
    ensures BaseValue(n) == BaseValue(r)
  {
    if r in {Ten, Jack, Queen, King} then Ten else r
  }

  /**
   * The position of a normalised rank's label in string order:
   * "2" < ... < "9" < "A" < "T". Ten-valued ranks all sort as "T".
   */
  function SortKey(r: Rank): nat
  {
    match r
    case Two => 2
    case Three => 3
    case Four => 4
    case Five => 5
    case Six => 6
    case Seven => 7
    case Eight => 8
    case Nine => 9
    case Ace => 10
    case Ten | Jack | Queen | King => 11
  }

  /** tuple(sorted((r1, r2))): the two ranks in sort order, ties kept in place. */
  function PairKey(r1: Rank, r2: Rank): (k: (Rank, Rank))
    ensures k == (r1, r2) || k == (r2, r1)
    ensures SortKey(k.0) <= SortKey(k.1)
  {
    if SortKey(r2) < SortKey(r1) then (r2, r1) else (r1, r2)
  }

  /** Normalised ranks are told apart by their sort key, so the key of a pair does not depend on the order of its cards. */
  lemma PairKeySymmetric(r1: Rank, r2: Rank)
    ensures PairKey(NormalizeRank(r1), NormalizeRank(r2)) == PairKey(NormalizeRank(r2), NormalizeRank(r1))
  {
  }

  /**
   * _is_pair: exactly two cards whose ranks agree once ten-valued ranks are
   * merged; the two cards are then worth the same.
   */
  function IsPair(cards: seq<Card>): (b: bool)
    ensures b <==> |cards| == 2 && NormalizeRank(cards[0].rank) == NormalizeRank(cards[1].rank)
    ensures b ==> BaseValue(cards[0].rank) == BaseValue(cards[1].rank)
  {
    if |cards| != 2 then false
    else if cards[0].rank in {Ten, Jack, Queen, King} && cards[1].rank in {Ten, Jack, Queen, King} then true
    else cards[0].rank == cards[1].rank
  }

  /**
   * _pair_action for the cards c1, c2 against the upcard value `up`. A missing
   * or empty row gives None. An 'ANY' entry settles it: P splits, S stands,
   * anything else gives None. Otherwise the upcard's entry, else DEFAULT's:
   * P, S and H map to their actions and D to HIT, since a pair is not doubled.
   */
  function PairAction(table: map<(Rank, Rank), Rule>, c1: Card, c2: Card, up: int): (a: Option<Action>)
    ensures a != Some(Double) && a != Some(Bust) && a != Some(Blackjack)
    ensures a.Some? ==> PairKey(NormalizeRank(c1.rank), NormalizeRank(c2.rank)) in table
    ensures var key := PairKey(NormalizeRank(c1.rank), NormalizeRank(c2.rank));
            key in table && Any in table[key] ==>
              (a == Some(Split) <==> table[key][Any] == Some(P)) &&
              (a == Some(Stand) <==> table[key][Any] == Some(S)) &&
              (a.Some? <==> table[key][Any] in {Some(P), Some(S)})
    ensures var key := PairKey(NormalizeRank(c1.rank), NormalizeRank(c2.rank));
            key !in table || table[key] == map[] ==> a == None
    ensures var key := PairKey(NormalizeRank(c1.rank), NormalizeRank(c2.rank));
            key in table && table[key] != map[] && Any !in table[key] ==>
              var code := if Get(table[key], Up(up)).Some? then Get(table[key], Up(up)) else Get(table[key], Default);
              (a == None <==> code == None) &&
              (a == Some(Split) <==> code == Some(P)) &&
              (a == Some(Stand) <==> code == Some(S)) &&
              (a == Some(Hit) <==> code == Some(H) || code == Some(D))
  {
    var key := PairKey(NormalizeRank(c1.rank), NormalizeRank(c2.rank));
    if key !in table || table[key] == map[] then None
    else
      var rule := table[key];
      if Any in rule then
        match rule[Any]
        case Some(P) => Some(Split)
        case Some(S) => Some(Stand)
        case _ => None
      else
        var code := if Get(rule, Up(up)).Some? then Get(rule, Up(up)) else Get(rule, Default);
        match code
        case None => None
        case Some(P) => Some(Split)
        case Some(S) => Some(Stand)
        case Some(H) => Some(Hit)
        case Some(D) => Some(Hit)
  }

  /** The pair lookup gives the same answer whichever of the two cards comes first. */
  lemma PairActionSymmetric(table: map<(Rank, Rank), Rule>, c1: Card, c2: Card, up: int)
    ensures PairAction(table, c1, c2, up) == PairAction(table, c2, c1, up)
  {
    PairKeySymmetric(c1.rank, c2.rank);
  }

  /** An 'ANY' entry makes the pair lookup ignore the dealer's upcard. */
  lemma PairAnyIgnoresUpcard(table: map<(Rank, Rank), Rule>, c1: Card, c2: Card, up1: int, up2: int)
    requires PairKey(NormalizeRank(c1.rank), NormalizeRank(c2.rank)) in table
    requires Any in table[PairKey(NormalizeRank(c1.rank), NormalizeRank(c2.rank))]
    ensures PairAction(table, c1, c2, up1) == PairAction(table, c1, c2, up2)
  {
  }

  /**
   * Without an 'ANY' entry, every upcard the row has no entry for falls back
   * to the same DEFAULT entry, so all such upcards get the same answer.
   */
  lemma PairDefaultShared(table: map<(Rank, Rank), Rule>, c1: Card, c2: Card, up1: int, up2: int)
    requires PairKey(NormalizeRank(c1.rank), NormalizeRank(c2.rank)) in table
    requires Any !in table[PairKey(NormalizeRank(c1.rank), NormalizeRank(c2.rank))]
    requires Get(table[PairKey(NormalizeRank(c1.rank), NormalizeRank(c2.rank))], Up(up1)) == None
    requires Get(table[PairKey(NormalizeRank(c1.rank), NormalizeRank(c2.rank))], Up(up2)) == None
    ensures PairAction(table, c1, c2, up1) == PairAction(table, c1, c2, up2)
  {
  }

  /**
   * _interpret_action_code: H hits, S stands, P splits, D doubles when a
   * double is allowed and hits otherwise; a missing code hits.
   */
  function InterpretActionCode(code: Option<Code>, canDouble: bool): (a: Action)
    ensures a in {Hit, Stand, Double, Split}
    ensures a == Double <==> code == Some(D) && canDouble
    ensures a == Stand <==> code == Some(S)
    ensures a == Split <==> code == Some(P)
  {
    match code
    case Some(H) => Hit
    case Some(S) => Stand
    case Some(D) => if canDouble then Double else Hit
    case Some(P) => Split
    case None => Hit
  }

  /**
   * The code a present, non-empty soft or hard row gives against `up`:
   * 'ALL' wins over the upcard, the upcard over 'DEFAULT', and a row with
   * neither falls back to H.
   */
  function RowCode(rule: Rule, up: int): (c: Option<Code>)
    ensures All in rule ==> c == rule[All]
    ensures All !in rule && Get(rule, Up(up)).Some? ==> c == rule[Up(up)]
    ensures All !in rule && Get(rule, Up(up)) == None ==>
              c == (if Default in rule then rule[Default] else Some(H))
  {
    if All in rule then rule[All]
    else if Get(rule, Up(up)).Some? then Get(rule, Up(up))
    else if Default in rule then rule[Default]
    else Some(H)
  }

  /**
   * _soft_action: a total of 21 or more stands; a total without a row hits;
   * otherwise the row's code, a double allowed only when `canDouble`.
   */
  function SoftAction(table: map<int, Rule>, total: int, up: int, canDouble: bool): (a: Action)
    ensures a in {Hit, Stand, Double, Split}
    ensures total >= 21 ==> a == Stand
    ensures total < 21 && (total !in table || table[total] == map[]) ==> a == Hit
    ensures total < 21 && total in table && table[total] != map[] ==>
              a == InterpretActionCode(RowCode(table[total], up), canDouble)
    ensures a == Double ==> canDouble
  {
    if total >= 21 then Stand
    else if total !in table || table[total] == map[] then Hit
    else InterpretActionCode(RowCode(table[total], up), canDouble)
  }

  /**
   * _hard_action: below 5 hits, above 17 stands; a total without a row
   * stands from 17 and hits below; otherwise the row's code, a double
   * allowed only when `canDouble`.
   */
  function HardAction(table: map<int, Rule>, total: int, up: int, canDouble: bool): (a: Action)
    ensures a in {Hit, Stand, Double, Split}
    ensures total < 5 ==> a == Hit
    ensures total > 17 ==> a == Stand
    ensures 5 <= total <= 17 && (total !in table || table[total] == map[]) ==>
              a == (if total >= 17 then Stand else Hit)
    ensures 5 <= total <= 17 && total in table && table[total] != map[] ==>
              a == InterpretActionCode(RowCode(table[total], up), canDouble)
    ensures a == Double ==> canDouble
  {
    if total < 5 then Hit
    else if total > 17 then Stand
    else if total !in table || table[total] == map[] then (if total >= 17 then Stand else Hit)
    else InterpretActionCode(RowCode(table[total], up), canDouble)
  }

  /** An 'ALL' entry makes the soft and hard lookups ignore the dealer's upcard. */
  lemma AllIgnoresUpcard(table: map<int, Rule>, total: int, up1: int, up2: int, canDouble: bool)
    requires total in table && All in table[total]
    ensures SoftAction(table, total, up1, canDouble) == SoftAction(table, total, up2, canDouble)
    ensures HardAction(table, total, up1, canDouble) == HardAction(table, total, up2, canDouble)
  {
  }

  /**
   * get_action on a hand with these cards, value and softness against the
   * dealer's `upcard`. BUST exactly when the value is over 21; BLACKJACK
   * exactly for two cards worth 21; DOUBLE only for two cards. A pair the
   * pair table settles gets that table's answer; every other hand is looked
   * up in the soft table when soft and in the hard table when not.
   */
  function Decide(strategy: Strategy, cards: seq<Card>, value: int, soft: bool, upcard: Card): (a: Action)
    ensures a == Bust <==> value > 21
    ensures a == Blackjack <==> value <= 21 && |cards| == 2 && value == 21
    ensures a == Double ==> |cards| == 2
    ensures value <= 21 && !(|cards| == 2 && value == 21) && IsPair(cards) &&
            PairAction(strategy.pair, cards[0], cards[1], UpcardValue(upcard)).Some? ==>
              a == PairAction(strategy.pair, cards[0], cards[1], UpcardValue(upcard)).value
    ensures value <= 21 && !(|cards| == 2 && value == 21) &&
            (!IsPair(cards) || PairAction(strategy.pair, cards[0], cards[1], UpcardValue(upcard)).None?) ==>
              a == if soft then SoftAction(strategy.soft, value, UpcardValue(upcard), |cards| == 2)
                   else HardAction(strategy.hard, value, UpcardValue(upcard), |cards| == 2)
  {
    if value > 21 then Bust
    else if |cards| == 2 && value == 21 then Blackjack
    else
      var up := UpcardValue(upcard);
      var pair := if |cards| == 2 && IsPair(cards) then PairAction(strategy.pair, cards[0], cards[1], up) else None;
      if pair.Some? then pair.value
      else if soft then SoftAction(strategy.soft, value, up, |cards| == 2)
      else HardAction(strategy.hard, value, up, |cards| == 2)
  }

  /** Player: a name, a strategy and the hands currently played. */
  class Player {
    const name: string
    const strategy: Strategy
    var hands: seq<Hand>

    constructor(name: string, strategy: Strategy, hands: seq<Hand>)
      ensures this.name == name && this.strategy == strategy && this.hands == hands
    {
      this.name := name;
      this.strategy := strategy;
      this.hands := hands;
    }

    /**
     * get_action: BUST exactly for a busted hand and BLACKJACK exactly for an
     * unbusted blackjack. For a hand whose fields agree with its cards these
     * are a hard total over 21 and a natural.
     */
    function GetAction(hand: Hand, dealerCard: Card): (a: Action)
      reads hand
      ensures a == Bust <==> hand.IsBusted()
      ensures a == Blackjack <==> !hand.IsBusted() && hand.IsBlackjack()
      ensures a == Double ==> |hand.cards| == 2
      ensures hand.Valid() ==> (a == Bust <==> HardTotal(hand.cards) > 21)
      ensures hand.Valid() ==> (a == Blackjack <==> IsNatural(hand.cards))
    {
      if |hand.cards| == 2 then
        TwoCardTwentyOne(hand.cards);
        Decide(strategy, hand.cards, hand.value, hand.soft, dealerCard)
      else
        Decide(strategy, hand.cards, hand.value, hand.soft, dealerCard)
    }

    /** new_hand: a single, new, empty hand. */
    method NewHand()
      modifies this
      ensures |hands| == 1 && fresh(hands[0])
      ensures hands[0].cards == [] && hands[0].Valid()
    {
      var h := new Hand([]);
      hands := [h];
    }
  }
}
