/**
 * The standard basic-strategy tables (strategies/standard_basic.py) and what
 * they make the decision function do: pairs of Aces and eights always split,
 * ten-valued pairs always stand, fives and fours are played by the totals
 * tables, every row of the totals tables answers for every upcard, and only
 * a pair is ever split.
 */
module StandardBasic {
  import opened Wrappers
  import opened Deck
  import opened Hands
  import opened Players

  /** The row codes that recur in the tables. */
  const SplitAny: Rule := map[Any := Some(P)]
  const StandAny: Rule := map[Any := Some(S)]
  const NoneAny: Rule := map[Any := None]
  const HitAll: Rule := map[All := Some(H)]
  const StandAll: Rule := map[All := Some(S)]

  /** The pair rows that split against 2 to 7 and otherwise hit (2,2, 3,3 and 7,7). */
  const SplitToSeven: Rule :=
    map[Up(2) := Some(P), Up(3) := Some(P), Up(4) := Some(P), Up(5) := Some(P), Up(6) := Some(P),
        Up(7) := Some(P), Default := Some(H)]
  const NinesRow: Rule :=
    map[Up(2) := Some(P), Up(3) := Some(P), Up(4) := Some(P), Up(5) := Some(P), Up(6) := Some(P),
        Up(8) := Some(P), Up(9) := Some(P), Default := Some(S)]
  const SixesRow: Rule :=
    map[Up(2) := Some(P), Up(3) := Some(P), Up(4) := Some(P), Up(5) := Some(P), Up(6) := Some(P),
        Default := Some(H)]

  /** PAIR_ACTIONS, keyed by the sorted normalised ranks, the ten written Ten. */
  const PairActions: map<(Rank, Rank), Rule> := map[
    (Ace, Ace) := SplitAny,
    (Eight, Eight) := SplitAny,
    (Nine, Nine) := NinesRow,
    (Seven, Seven) := SplitToSeven,
    (Six, Six) := SixesRow,
    (Five, Five) := NoneAny,
    (Four, Four) := NoneAny,
    (Three, Three) := SplitToSeven,
    (Two, Two) := SplitToSeven,
    (Ten, Ten) := StandAny
  ]

  const Soft16: Rule := map[Up(4) := Some(D), Up(5) := Some(D), Up(6) := Some(D), Default := Some(H)]
  const Soft17: Rule := map[Up(3) := Some(D), Up(4) := Some(D), Up(5) := Some(D), Up(6) := Some(D), Default := Some(H)]
  const Soft18: Rule :=
    map[Up(2) := Some(S), Up(3) := Some(D), Up(4) := Some(D), Up(5) := Some(D), Up(6) := Some(D),
        Up(7) := Some(S), Up(8) := Some(S), Default := Some(H)]
  const Soft19: Rule := map[Up(6) := Some(D), Default := Some(S)]

  /** The SOFT_ACTIONS row of soft total `t`, for t from 13 to 21. */
  function SoftRow(t: int): Rule
  {
    if t <= 15 then HitAll
    else if t == 16 then Soft16
    else if t == 17 then Soft17
    else if t == 18 then Soft18
    else if t == 19 then Soft19
    else StandAll
  }

  /** SOFT_ACTIONS: a row for each soft total from 13 to 21. */
  const SoftActions: map<int, Rule> := map t | 13 <= t <= 21 :: SoftRow(t)

  const Hard9: Rule := map[Up(3) := Some(D), Up(4) := Some(D), Up(5) := Some(D), Up(6) := Some(D), Default := Some(H)]
  const Hard10: Rule :=
    map[Up(2) := Some(D), Up(3) := Some(D), Up(4) := Some(D), Up(5) := Some(D), Up(6) := Some(D),
        Up(7) := Some(D), Up(8) := Some(D), Up(9) := Some(D), Default := Some(H)]
  const Hard11: Rule := map[Up(11) := Some(H), Default := Some(D)]
  const Hard12: Rule := map[Up(4) := Some(S), Up(5) := Some(S), Up(6) := Some(S), Default := Some(H)]
  /** Hard 13 to 16: stand against 2 to 6, otherwise hit. */
  const StandToSix: Rule :=
    map[Up(2) := Some(S), Up(3) := Some(S), Up(4) := Some(S), Up(5) := Some(S), Up(6) := Some(S), Default := Some(H)]

  /** The HARD_ACTIONS row of hard total `t`, for t from 5 to 17. */
  function HardRow(t: int): Rule
  {
    if t <= 8 then HitAll
    else if t == 9 then Hard9
    else if t == 10 then Hard10
    else if t == 11 then Hard11
    else if t == 12 then Hard12
    else if t <= 16 then StandToSix
    else StandAll
  }

  /** HARD_ACTIONS: a row for each hard total from 5 to 17. */
  const HardActions: map<int, Rule> := map t | 5 <= t <= 17 :: HardRow(t)

  /** STRATEGY_DICT. */
  const Standard: Strategy := Strategy(PairActions, SoftActions, HardActions)

  /** The standard strategy's decision for a hand whose value and softness are those of its cards. */
  function Play(cards: seq<Card>, upcard: Card): Action
  {
    Decide(Standard, cards, HandValue(cards), IsSoft(cards), upcard)
  }

  /** A row holds no split code. */
  predicate NoSplitCode(rule: Rule)
  {
    forall k :: k in rule ==> rule[k] != Some(P)
  }

  /** A row answers for every upcard: it has an 'ALL' or a 'DEFAULT' entry. */
  predicate Covers(rule: Rule)
  {
    All in rule || Default in rule
  }

  /** Each soft row answers for every upcard and holds no split code. */
  lemma SoftRowSound(t: int)
    ensures Covers(SoftRow(t)) && NoSplitCode(SoftRow(t))
  {
    if t <= 15 {
    } else if t == 16 {
      assert NoSplitCode(Soft16);
    } else if t == 17 {
      assert NoSplitCode(Soft17);
    } else if t == 18 {
      assert NoSplitCode(Soft18);
    } else if t == 19 {
      assert NoSplitCode(Soft19);
    }
  }

  /** Each hard row answers for every upcard and holds no split code. */
  lemma HardRowSound(t: int)
    ensures Covers(HardRow(t)) && NoSplitCode(HardRow(t))
  {
    if t <= 8 {
    } else if t == 9 {
      assert NoSplitCode(Hard9);
    } else if t == 10 {
      assert NoSplitCode(Hard10);
    } else if t == 11 {
      assert NoSplitCode(Hard11);
    } else if t == 12 {
      assert NoSplitCode(Hard12);
    } else if t <= 16 {
      assert NoSplitCode(StandToSix);
    }
  }

  /**
   * Every soft row (13 to 21) and every hard row (5 to 17) is present and
   * has an 'ALL' or a 'DEFAULT' entry, so no lookup of those totals reaches
   * the implicit H fallback; and no soft or hard row holds a split code.
   */
  lemma TotalsTablesComplete(t: int)
    ensures 13 <= t <= 21 <==> t in SoftActions
    ensures 5 <= t <= 17 <==> t in HardActions
    ensures t in SoftActions ==> Covers(SoftActions[t]) && NoSplitCode(SoftActions[t])
    ensures t in HardActions ==> Covers(HardActions[t]) && NoSplitCode(HardActions[t])
  {
    SoftRowSound(t);
    HardRowSound(t);
  }

  /**
   * PAIR_ACTIONS has a row for every pair of cards of the same rank after
   * the picture cards are written Ten, and for no other two cards.
   */
  lemma PairTableComplete(c1: Card, c2: Card)
    ensures PairKey(NormalizeRank(c1.rank), NormalizeRank(c2.rank)) in PairActions
            <==> NormalizeRank(c1.rank) == NormalizeRank(c2.rank)
  {
    var n1, n2 := NormalizeRank(c1.rank), NormalizeRank(c2.rank);
    if n1 == n2 {
      assert PairKey(n1, n2) == (n1, n1);
      match n1
      case Ace =>
      case Two =>
      case Three =>
      case Four =>
      case Five =>
      case Six =>
      case Seven =>
      case Eight =>
      case Nine =>
      case Ten =>
    } else {
      assert PairKey(n1, n2).0 != PairKey(n1, n2).1;
    }
  }

  /** With no split code in the soft and hard tables, the standard strategy splits nothing but a pair. */
  lemma SplitsOnlyPairs(cards: seq<Card>, upcard: Card)
    ensures Play(cards, upcard) == Split ==> IsPair(cards)
  {
    TotalsNeverSplit(HandValue(cards), UpcardValue(upcard), |cards| == 2);
  }

  /** The soft and hard lookups of the standard tables never answer SPLIT, for any total. */
  lemma TotalsNeverSplit(total: int, up: int, canDouble: bool)
    ensures SoftAction(SoftActions, total, up, canDouble) != Split
    ensures HardAction(HardActions, total, up, canDouble) != Split
  {
    TotalsTablesComplete(total);
    if total in SoftActions {
      var rule := SoftActions[total];
      assert RowCode(rule, up) != Some(P) by {
        assert All in rule ==> rule[All] != Some(P);
        assert Up(up) in rule ==> rule[Up(up)] != Some(P);
        assert Default in rule ==> rule[Default] != Some(P);
      }
    }
    if total in HardActions {
      var rule := HardActions[total];
      assert RowCode(rule, up) != Some(P) by {
        assert All in rule ==> rule[All] != Some(P);
        assert Up(up) in rule ==> rule[Up(up)] != Some(P);
        assert Default in rule ==> rule[Default] != Some(P);
      }
    }
  }

  /** A pair that the pair table settles is played as the pair table says. */
  lemma PlayPair(cards: seq<Card>, upcard: Card)
    requires IsPair(cards) && PairAction(PairActions, cards[0], cards[1], UpcardValue(upcard)).Some?
    ensures Play(cards, upcard) == PairAction(PairActions, cards[0], cards[1], UpcardValue(upcard)).value
  {
    TwoCardValue(cards);
  }

  /** A pair of equal ranks without an Ace that the pair table leaves open is played by the hard table. */
  lemma PlayPairAsHard(cards: seq<Card>, upcard: Card)
    requires IsPair(cards) && cards[0].rank != Ace && cards[1].rank != Ace
    requires PairAction(PairActions, cards[0], cards[1], UpcardValue(upcard)).None?
    ensures Play(cards, upcard) ==
              HardAction(HardActions, BaseValue(cards[0].rank) + BaseValue(cards[1].rank), UpcardValue(upcard), true)
  {
    TwoCardValue(cards);
  }

  /** Two cards of a rank that has its own pair row are looked up in that row. */
  lemma PairRow(c1: Card, c2: Card, r: Rank, row: Rule)
    requires c1.rank == r && c2.rank == r && r in {Ace, Two, Three, Four, Five, Six, Seven, Eight, Nine, Ten}
    requires (r, r) in PairActions && PairActions[(r, r)] == row
    ensures PairKey(NormalizeRank(c1.rank), NormalizeRank(c2.rank)) == (r, r)
    ensures PairActions[PairKey(NormalizeRank(c1.rank), NormalizeRank(c2.rank))] == row
  {
  }

  /** A pair of Aces or of eights is split against every upcard. */
  lemma AcesAndEightsSplit(c1: Card, c2: Card, upcard: Card)
    requires c1.rank == c2.rank && (c1.rank == Ace || c1.rank == Eight)
    ensures Play([c1, c2], upcard) == Split
  {
    AnyRowLookup(c1, c2, UpcardValue(upcard));
    PlayPair([c1, c2], upcard);
  }

  /**
   * The 'ANY' rows: Aces and eights split against any upcard; fours and
   * fives get no answer from the pair table.
   */
  lemma AnyRowLookup(c1: Card, c2: Card, up: int)
    requires c1.rank == c2.rank && c1.rank in {Ace, Eight, Four, Five}
    ensures PairAction(PairActions, c1, c2, up) == if c1.rank in {Ace, Eight} then Some(Split) else None
  {
    if c1.rank in {Ace, Eight} {
      PairRow(c1, c2, c1.rank, SplitAny);
    } else {
      PairRow(c1, c2, c1.rank, NoneAny);
    }
  }

  /** A pair of ten-valued cards stands against every upcard. */
  lemma TensStand(c1: Card, c2: Card, upcard: Card)
    requires BaseValue(c1.rank) == 10 && BaseValue(c2.rank) == 10
    ensures Play([c1, c2], upcard) == Stand
  {
    assert PairKey(NormalizeRank(c1.rank), NormalizeRank(c2.rank)) == (Ten, Ten);
    assert PairActions[(Ten, Ten)] == StandAny;
    PlayPair([c1, c2], upcard);
  }

  /**
   * A pair of fives is not split: it is played as hard 10, doubling against
   * 2 to 9 and hitting against a ten or an Ace.
   */
  lemma FivesPlayAsHardTen(c1: Card, c2: Card, upcard: Card)
    requires c1.rank == Five && c2.rank == Five
    ensures Play([c1, c2], upcard) == HardAction(HardActions, 10, UpcardValue(upcard), true)
    ensures Play([c1, c2], upcard) == if UpcardValue(upcard) <= 9 then Double else Hit
  {
    AnyRowLookup(c1, c2, UpcardValue(upcard));
    PlayPairAsHard([c1, c2], upcard);
    HardTen(UpcardValue(upcard));
  }

  /** Hard 10 with two cards doubles against 2 to 9 and otherwise hits. */
  lemma HardTen(up: int)
    requires 2 <= up <= 11
    ensures HardAction(HardActions, 10, up, true) == if up <= 9 then Double else Hit
  {
    assert HardActions[10] == Hard10 && All !in Hard10;
    assert Up(up) in Hard10 <==> up <= 9;
  }

  /** A pair of fours is not split: it is played as hard 8, which always hits. */
  lemma FoursPlayAsHardEight(c1: Card, c2: Card, upcard: Card)
    requires c1.rank == Four && c2.rank == Four
    ensures Play([c1, c2], upcard) == HardAction(HardActions, 8, UpcardValue(upcard), true)
    ensures Play([c1, c2], upcard) == Hit
  {
    AnyRowLookup(c1, c2, UpcardValue(upcard));
    PlayPairAsHard([c1, c2], upcard);
    assert HardActions[8] == HitAll;
  }

  /** Nines split against 2 to 6, 8 and 9; against 7, 10 and an Ace DEFAULT stands. */
  lemma NinesPair(c1: Card, c2: Card, upcard: Card)
    requires c1.rank == Nine && c2.rank == Nine
    ensures Play([c1, c2], upcard) == if UpcardValue(upcard) in {7, 10, 11} then Stand else Split
  {
    NinesLookup(c1, c2, UpcardValue(upcard));
    PlayPair([c1, c2], upcard);
  }

  lemma NinesLookup(c1: Card, c2: Card, up: int)
    requires c1.rank == Nine && c2.rank == Nine && 2 <= up <= 11
    ensures PairAction(PairActions, c1, c2, up) == if up in {7, 10, 11} then Some(Stand) else Some(Split)
  {
    PairRow(c1, c2, Nine, NinesRow);
    assert Any !in NinesRow && Default in NinesRow;
    assert Up(up) in NinesRow <==> up in {2, 3, 4, 5, 6, 8, 9};
  }

  /** Twos, threes and sevens split against 2 to 7; against 8 and above DEFAULT hits. */
  lemma LowPairs(c1: Card, c2: Card, upcard: Card)
    requires c1.rank == c2.rank && c1.rank in {Two, Three, Seven}
    ensures Play([c1, c2], upcard) == if UpcardValue(upcard) <= 7 then Split else Hit
  {
    LowPairsLookup(c1, c2, UpcardValue(upcard));
    PlayPair([c1, c2], upcard);
  }

  lemma LowPairsLookup(c1: Card, c2: Card, up: int)
    requires c1.rank == c2.rank && c1.rank in {Two, Three, Seven} && 2 <= up <= 11
    ensures PairAction(PairActions, c1, c2, up) == if up <= 7 then Some(Split) else Some(Hit)
  {
    PairRow(c1, c2, c1.rank, SplitToSeven);
    assert Any !in SplitToSeven && Default in SplitToSeven;
    assert Up(up) in SplitToSeven <==> up <= 7;
  }

  /** Sixes split against 2 to 6; against 7 and above DEFAULT hits. */
  lemma SixesPair(c1: Card, c2: Card, upcard: Card)
    requires c1.rank == Six && c2.rank == Six
    ensures Play([c1, c2], upcard) == if UpcardValue(upcard) <= 6 then Split else Hit
  {
    SixesLookup(c1, c2, UpcardValue(upcard));
    PlayPair([c1, c2], upcard);
  }

  lemma SixesLookup(c1: Card, c2: Card, up: int)
    requires c1.rank == Six && c2.rank == Six && 2 <= up <= 11
    ensures PairAction(PairActions, c1, c2, up) == if up <= 6 then Some(Split) else Some(Hit)
  {
    PairRow(c1, c2, Six, SixesRow);
    assert Any !in SixesRow && Default in SixesRow;
    assert Up(up) in SixesRow <==> up <= 6;
  }

  /** Hard 11 hits against an Ace and otherwise doubles when a double is allowed. */
  lemma HardElevenDoubles(up: int, canDouble: bool)
    ensures HardAction(HardActions, 11, up, canDouble) == if up == 11 || !canDouble then Hit else Double
  {
    assert 11 in HardActions && HardActions[11] == Hard11;
    assert All !in Hard11 && Default in Hard11;
    assert Up(up) in Hard11 <==> up == 11;
    assert RowCode(Hard11, up) == if up == 11 then Some(H) else Some(D);
  }

  /** Hard 17 and above, and soft 20 and above, stand against every upcard. */
  lemma HighTotalsStand(total: int, up: int, canDouble: bool)
    ensures total >= 17 ==> HardAction(HardActions, total, up, canDouble) == Stand
    ensures total >= 20 ==> SoftAction(SoftActions, total, up, canDouble) == Stand
  {
    assert All in StandAll && RowCode(StandAll, up) == Some(S);
    if total == 17 {
      assert 17 in HardActions && HardActions[17] == StandAll;
      assert HardAction(HardActions, 17, up, canDouble) == InterpretActionCode(RowCode(StandAll, up), canDouble);
    }
    if total == 20 {
      assert 20 in SoftActions && SoftActions[20] == StandAll;
      assert SoftAction(SoftActions, 20, up, canDouble) == InterpretActionCode(RowCode(StandAll, up), canDouble);
    }
  }
}
