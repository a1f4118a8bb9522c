# Blackjack round engine

A Dafny model of the round engine of a blackjack simulator: card values and
hand totals, the multi-deck shoe with its cut card, the Hi-Lo and Ace/Five
running counts, the player's basic-strategy decision function with the
standard tables, the dealer's hit/stand loop, and one round (initial deal,
the naive player loop, the dealer's turn and the settlement of every hand).

Modules follow the source files:

- `Deck` (`deck.py`): ranks, suits and cards; the single deck and the
  shoe of n decks; the cut card, placed at `floor(|shoe| * num / den)` for a
  penetration `num/den`; the shuffle, written as Fisher-Yates over an
  array; and class `BlackjackShoe`, which deals from a cursor and rebuilds
  itself as soon as the cursor passes the cut card or the end.
- `Hands` (`hand.py`): the pure value of a hand (every Ace counted 11, then
  demoted to 1 one at a time while over 21), its softness and its hard total,
  and class `Hand`, whose `value` and `soft` fields always agree with its
  cards (`Hand.Valid`).
- `Counting` (`counter.py`): the two tags, the counts of a sequence of cards,
  and class `Counter` with its two integer tallies.
- `Players` (`player.py`): the decision function `Decide` over a strategy
  of three tables (pair, soft, hard) and class `Player`.
- `StandardBasic` (`strategies/standard_basic.py`): the three standard
  tables and what the decision function does with them.
- `Dealers` (`dealer.py`): the stand rule and class `Dealer`.
- `Rounds` (`round.py`): the settlement comparison and class
  `BlackjackRound`.

The shoe keeps a ghost log `dealt` of every card it has dealt, across
rebuilds. The dealer's and the round's contracts use it to say which card
went into which hand.

The model follows the code, not casino practice, where the two differ:
- The cut index is the exact floor of length times penetration, the
  exact-rational counterpart of deck.py:47. A casino places the cut card at a random position.
- `deal_card` rebuilds the shoe at once when the cursor passes the cut
  card (deck.py:80-83). A casino finishes the round and reshuffles only
  between rounds.
- Hands have no status, no bet and no splitting, because hand.py has none.
- The dealer's turn takes no counter.

## Model

| member | source | states |
|---|---|---|
| Deck.SameCard | deck.py:20-24 | two cards are equal exactly when their rank and suit are |
| Deck.CreateSingleDeck | deck.py:26-32 | 52 cards in suit-major order; every card is present exactly once |
| Deck.SingleDeckLayout | deck.py:26-32 | the four suit rows laid end to end put rank i mod 13 of suit i div 13 at position i, hold every card, and repeat none |
| Deck.ShoeCards | deck.py:33-38 | n single decks concatenated hold 52·n cards |
| Deck.ShoeCardsAt | deck.py:33-38 | card i of an n-deck shoe is card i mod 52 of a single deck |
| Deck.ShoeMultiplicity | deck.py:33-38 | every card occurs exactly n times in an n-deck shoe |
| Deck.CreateShoe | deck.py:33-38 | the loop of `extend` calls builds exactly n single decks in order |
| Deck.PlaceCutCard | deck.py:39-48 | the shoe comes back unchanged; the cut index is the floor of length × penetration |
| Deck.CutInsideShoe | deck.py:47 | with a penetration below one, the cut index lies strictly inside a non-empty shoe |
| Deck.DefaultCut | deck.py:57 | with the default penetration of 0.75 the cut index is three quarters of the shoe, rounded down: 312 for the default 8 decks, and inside any non-empty shoe |
| Deck.ShuffleShoe | deck.py:50-53 | the shuffle permutes the cards in place and keeps their multiset |
| Deck.BlackjackShoe.constructor | deck.py:57-65 | a new shoe is full, shuffled, cut, and has its cursor at 0 |
| Deck.BlackjackShoe.DealCard | deck.py:67-85 | returns the card at the cursor and advances the cursor; passing the cut card rebuilds the shoe with the cursor at 0; an exhausted shoe is rebuilt before the read, so the card is the top of the new shoe and the cursor ends at 1; the cut index stays where it was |
| Deck.BlackjackShoe.Reshuffle | deck.py:87-94 | a fresh shuffled shoe of 52·num_decks cards, the cut placed again, the cursor at 0 |
| Hands.BaseValue | hand.py:29-33 | Ace 11; 10, J, Q, K 10; otherwise the face value |
| Hands.Demotions | hand.py:46-48 | the demotion loop demotes at most as many Aces as there are; it stops early only once the total is at most 21; each demotion is taken while the total is over 21 |
| Hands.RawIsHardPlusAces | hand.py:38-42 | the first pass counts every Ace 10 more than the hard total does |
| Hands.HandValue | hand.py:39-48 | the value is never below the hard total, which counts every Ace as 1 |
| Hands.IsSoft | hand.py:50-52 | a soft hand holds an Ace and is never over 21 |
| Hands.BestTotal | hand.py:44-48 | the value is the best total: no way of counting Aces as 11 or 1 that stays at or below 21 beats it |
| Hands.BustIffHardBust | hand.py:64-68 | a hand is over 21 exactly when its hard total is |
| Hands.HardTotalAppend | hand.py:57-62 | each added card raises the hard total by at least one |
| Hands.TwoCardSums | hand.py:38-42 | the first pass over two cards sums their two base values and counts their Aces |
| Hands.TwoCardValue | hand.py:35-54 | two cards are worth the sum of their base values, except two Aces, which make 12; they are soft exactly when one is an Ace |
| Hands.TwoCardTwentyOne | hand.py:35-54 | two cards are worth 21 exactly when they are an Ace and a ten-valued card |
| Hands.Hand.constructor | hand.py:3-17 | the hand holds the given cards and its fields agree with them (value 0 and not soft when there are none) |
| Hands.Hand.Evaluate | hand.py:19-55 | the cards are untouched; value and soft become the value and softness of the cards, so a second call changes nothing |
| Hands.Hand.AddCard | hand.py:57-62 | exactly one card is appended at the end and the fields agree with the new cards |
| Hands.Hand.IsBusted | hand.py:64-68 | over 21, which for a consistent hand is a hard total over 21 |
| Hands.Hand.IsBlackjack | player.py:31-32 | the assumed blackjack test holds for a consistent hand exactly when it is an Ace and a ten-valued card |
| Hands.Hand.Clear | hand.py:70-76 | no cards, value 0, not soft: the state of a hand built with no cards |
| Counting.HiLoTag | counter.py:7-10 | the Hi-Lo tag is -1, 0 or +1 |
| Counting.AceFiveTag | counter.py:12-15 | the Ace/Five tag is -1, 0 or +1 |
| Counting.HiLoStep | counter.py:6-15 | one more card moves the Hi-Lo count by its tag |
| Counting.AceFiveStep | counter.py:6-15 | one more card moves the Ace/Five count by its tag |
| Counting.RanksBalanced | counter.py:7-15 | the Hi-Lo tags of the thirteen ranks sum to 0, and so do their Ace/Five tags |
| Counting.SuitRowPrefix | test_blackjack.py:165-172 | the counts of the first k cards of a suit are the tag sums of the first k ranks |
| Counting.CountsAppend | counter.py:6-15 | the counts of two runs of cards add up |
| Counting.CountsMiddle | counter.py:6-15 | a card seen anywhere in a run moves both counts by its tag |
| Counting.CountsIgnoreOrder | counter.py:6-15 | the counts depend only on the multiset of cards seen, not their order |
| Counting.SuitRowBalanced | test_blackjack.py:165-172 | both counts of one suit are 0 |
| Counting.ShoeBalanced | test_blackjack.py:165-172 | both counts of a full n-deck shoe in build order are 0 |
| Counting.FullShoeCountsZero | test_blackjack.py:165-172 | both counts of any ordering of a full shoe are 0 |
| Counting.CountCards | test_blackjack.py:168-170 | feeding a sequence of cards to the counter moves each tally by the count of that sequence |
| Counting.CountShuffledShoe | test_blackjack.py:165-172 | a fresh counter fed all of a freshly shuffled shoe reads 0 on both tallies, whatever the shuffle did |
| Counting.Counter.constructor | counter.py:2-4 | both tallies start at 0 |
| Counting.Counter.UpdateCount | counter.py:6-15 | each tally moves by the card's tag |
| Counting.Counter.GetHighLowCount | counter.py:17-18 | returns the Hi-Lo tally and changes nothing |
| Counting.Counter.GetFiveAcesCount | counter.py:20-21 | returns the Ace/Five tally and changes nothing |
| Counting.Counter.Reset | counter.py:23-26 | both tallies back to 0 |
| Players.UpcardValue | player.py:194-202 | the upcard value is in 2..11 and is the rank's base value |
| Players.NormalizeRank | player.py:69-75 | ten-valued ranks become the ten; other ranks stay; the value is unchanged |
| Players.PairKey | player.py:78-79 | the two ranks in sorted order |
| Players.PairKeySymmetric | player.py:77-79 | the pair key does not depend on the order of the two cards |
| Players.IsPair | player.py:50-60 | exactly two cards whose ranks agree once ten-valued ranks are merged |
| Players.PairAction | player.py:62-115 | a missing or empty row gives no answer; an 'ANY' entry decides alone: P splits, S stands, anything else gives no answer; otherwise the upcard's entry, or 'DEFAULT' when that is missing or None, decides: P splits, S stands, H and D hit, nothing gives no answer; never DOUBLE |
| Players.PairActionSymmetric | player.py:77-81 | the pair lookup ignores the order of the two cards |
| Players.PairAnyIgnoresUpcard | player.py:85-93 | an 'ANY' entry makes the pair lookup ignore the upcard |
| Players.PairDefaultShared | player.py:97-100 | without an 'ANY' entry, all upcards the row has no entry for get the same answer, the one of 'DEFAULT' |
| Players.InterpretActionCode | player.py:164-178 | DOUBLE exactly for D when a double is allowed; STAND exactly for S; SPLIT exactly for P |
| Players.RowCode | player.py:128-138 | 'ALL' wins over the upcard, the upcard over 'DEFAULT', and H is the last fallback |
| Players.SoftAction | player.py:117-138 | 21 or more stands; a total without a row, or with an empty one, hits; otherwise the row's code by the 'ALL' > upcard > 'DEFAULT' > H order, with D a double only when allowed |
| Players.HardAction | player.py:140-162 | below 5 hits; above 17 stands; a total without a row stands from 17 and hits below; otherwise the row's code by the 'ALL' > upcard > 'DEFAULT' > H order, with D a double only when allowed |
| Players.AllIgnoresUpcard | player.py:155-156 | an 'ALL' entry makes the soft and hard lookups ignore the upcard |
| Players.Decide | player.py:20-48 | BUST exactly when over 21; BLACKJACK exactly for two cards worth 21; DOUBLE only on two cards; a pair the pair table settles gets that answer; every other hand goes to the soft table when soft and to the hard table otherwise |
| Players.Player.constructor | player.py:7-17 | the player keeps its name, strategy and hands |
| Players.Player.GetAction | player.py:20-48 | BUST exactly for a busted hand; BLACKJACK exactly for an unbusted blackjack; DOUBLE only on two cards; for a consistent hand these are a hard total over 21 and a natural |
| Players.Player.NewHand | player.py:191-192 | the player holds exactly one new, empty hand |
| StandardBasic.SoftRowSound | strategies/standard_basic.py:23-33 | every soft row has 'ALL' or 'DEFAULT' and no split code |
| StandardBasic.HardRowSound | strategies/standard_basic.py:37-51 | every hard row has 'ALL' or 'DEFAULT' and no split code |
| StandardBasic.TotalsTablesComplete | strategies/standard_basic.py:23-51 | the soft rows are exactly totals 13 to 21 and the hard rows 5 to 17; each answers for every upcard |
| StandardBasic.PairTableComplete | strategies/standard_basic.py:6-18 | the pair table has a row for two cards exactly when their ranks agree once picture cards are written Ten |
| StandardBasic.SplitsOnlyPairs | strategies/standard_basic.py:6-51 | the standard strategy splits only a pair |
| StandardBasic.TotalsNeverSplit | strategies/standard_basic.py:23-51 | the soft and hard tables never answer SPLIT, whatever the total and upcard |
| StandardBasic.PlayPair | player.py:38-41 | a pair that the pair table settles is played as that table says |
| StandardBasic.PlayPairAsHard | player.py:38-48 | a pair without Aces that the pair table leaves open is played by the hard table at the sum of the two cards |
| StandardBasic.AcesAndEightsSplit | strategies/standard_basic.py:8-9 | Aces and eights split against every upcard |
| StandardBasic.AnyRowLookup | strategies/standard_basic.py:8-14 | the 'ANY' rows of Aces and eights split and those of fours and fives give no answer, against every upcard |
| StandardBasic.PairRow | strategies/standard_basic.py:6-17 | two cards of a rank with its own pair row are looked up under that rank twice, in that row |
| StandardBasic.TensStand | strategies/standard_basic.py:17 | a pair of ten-valued cards stands against every upcard |
| StandardBasic.FivesPlayAsHardTen | strategies/standard_basic.py:13-14 | a pair of fives is played as hard 10: double against 2 to 9, otherwise hit |
| StandardBasic.HardTen | strategies/standard_basic.py:43 | two-card hard 10 doubles against 2 to 9 and otherwise hits |
| StandardBasic.FoursPlayAsHardEight | strategies/standard_basic.py:14 | a pair of fours is played as hard 8 and hits |
| StandardBasic.NinesPair | strategies/standard_basic.py:10 | nines stand against 7, 10 and an Ace and split otherwise |
| StandardBasic.NinesLookup | strategies/standard_basic.py:10 | the pair row of the nines gives STAND for 7, 10 and 11 and SPLIT for every other upcard in 2..11 |
| StandardBasic.LowPairs | strategies/standard_basic.py:11-16 | twos, threes and sevens split against 2 to 7 and otherwise hit |
| StandardBasic.LowPairsLookup | strategies/standard_basic.py:11-16 | the pair rows of twos, threes and sevens give SPLIT up to 7 and HIT above |
| StandardBasic.SixesPair | strategies/standard_basic.py:12 | sixes split against 2 to 6 and otherwise hit |
| StandardBasic.SixesLookup | strategies/standard_basic.py:12 | the pair row of the sixes gives SPLIT up to 6 and HIT above |
| StandardBasic.HardElevenDoubles | strategies/standard_basic.py:44 | hard 11 hits against an Ace and doubles otherwise when a double is allowed |
| StandardBasic.HighTotalsStand | strategies/standard_basic.py:31-50 | hard 17 or more and soft 20 or more stand against every upcard |
| Dealers.DealerStands | dealer.py:20-22 | the dealer stands above 17, and on 17 unless the hand is soft and hit-on-soft-17 is set; never below 17 |
| Dealers.SoftSeventeen | test_blackjack.py:52-67 | an Ace and a six make a soft 17: a dealer who hits soft 17 draws, and one who does not stands |
| Dealers.DealTo | dealer.py:25-26 | the shoe deals one card, which is appended to the hand; both stay consistent |
| Dealers.DrawnWhileHittingAppend | dealer.py:25-26 | a card drawn onto a hand that does not stand extends the run of such draws |
| Dealers.DealtOntoAppend | dealer.py:25-26 | dealing one more card onto the hand keeps the hand equal to its first cards followed by exactly the cards the shoe dealt since |
| Dealers.Dealer.constructor | dealer.py:4-6 | the dealer keeps the rule flag and the hand |
| Dealers.Dealer.DealerTurn | dealer.py:8-33 | the cards drawn are the cards the shoe dealt, appended in order after the original cards, each drawn onto a hand that did not stand; the dealer draws at least once exactly when the starting hand does not stand; once it has drawn, the result is BUST exactly when the total is over 21; with no draw, the result is STAND, even for a starting total over 21; the result is STAND or BUST, never BLACKJACK; the total is at least 17 |
| Dealers.Dealer.DrawCard | dealer.py:25-31 | one card dealt by the shoe is appended to a hand that did not stand; the hard total rises; the re-evaluated total is over 21 exactly when the hard total is |
| Dealers.Dealer.NewHand | dealer.py:35-36 | the dealer holds a new, empty hand |
| Rounds.Settle | round.py:79-92 | a player over 21 loses first, even when the dealer is over 21 too; then a dealer over 21 loses; then the higher total wins and equal totals push |
| Rounds.SettleWinner | round.py:81-92 | a player wins exactly when not over 21 and the dealer is over 21 or lower; swapping two unbusted totals swaps the winner |
| Rounds.NewHands | round.py:15 | n new, distinct, empty hands |
| Rounds.NewTable | round.py:15-17 | n fresh, distinct, empty player hands and a fresh dealer who hits soft 17, whose empty hand is none of the players' |
| Rounds.DealEach | round.py:25-26 | one card to each hand in order: hand k gets the k-th card the shoe deals and nothing else |
| Rounds.Hit | round.py:66 | one card dealt onto a hand worth less than 17; the hard total rises |
| Rounds.HitBelowSeventeen | round.py:65-66 | the hand takes exactly the run of cards the shoe deals meanwhile, each onto a hand worth less than 17, and ends worth 17 or more |
| Rounds.HitEach | round.py:50-51 | hand k takes the k-th run of cards, each onto a hand worth less than 17, and ends on 17 or more; the shoe deals exactly those runs, one after another, in hand order |
| Rounds.DrawnBelowSeventeenAppend | round.py:65-66 | a card drawn onto a hand worth less than 17 extends the run of such draws |
| Rounds.BlackjackRound.constructor | round.py:6-20 | one empty hand per player and a dealer who hits soft 17; after the initial deal, player i holds the i-th and (n+1+i)-th cards dealt and the dealer the n-th and (2n+1)-th |
| Rounds.BlackjackRound.DealInitialCards | round.py:22-27 | two passes deal 2(n+1) cards: each player in order, then the dealer, twice over |
| Rounds.BlackjackRound.DealPass | round.py:25-27 | one card to each player in order, then one to the dealer |
| Rounds.BlackjackRound.PlayerTurn | round.py:60-66 | the player takes exactly the run of cards the shoe deals during the turn, each onto a hand worth less than 17, and ends worth 17 or more; no other hand changes |
| Rounds.BlackjackRound.PlayerTurns | round.py:49-51 | player i takes the i-th run of cards, each onto a hand worth less than 17, and ends on 17 or more; the shoe deals exactly those runs, player 1 first |
| Rounds.BlackjackRound.DealerPlays | round.py:53-54 | the dealer takes exactly the run of cards the shoe deals, each onto a hand that did not stand, and ends on 17 or more, standing or over 21; no player hand changes |
| Rounds.BlackjackRound.EvaluateRound | round.py:68-94 | one outcome per player, in player order, each the settlement of that player's value against the dealer's |
| Rounds.BlackjackRound.PlayRound | round.py:41-58 | the shoe deals player 1's run, then player 2's, and so on, then the dealer's run, and each hand takes its own run; every player card is drawn onto a hand worth less than 17 and every player ends on 17 or more; every dealer card is drawn onto a hand that did not stand and the dealer ends on 17 or more, standing or over 21; the outcomes settle those final hands |

## Left out

- Default arguments: `BlackjackShoe(num_decks=8, cut_penetration=0.75)` and `BlackjackRound(num_players=1)` are constructed here with explicit arguments. The two shoe defaults are the constants `DefaultDecks` and `DefaultPenetration`, which `Deck.DefaultCut` ties to the cut index.
- Console output (`print_hand`, `print_round`, `Card.__repr__`) and the outcome message strings. Outcomes are the enum `Outcome`.
- Bets, payouts, the bankroll, insurance (`Player.insurance_bet`, `put_bet_on_initial_hand`) and splitting. The core has no code that carries them out.
- main.py and game.py, which set up a session. They are not part of this model.
- The reshuffle branch at round.py:31-34 is not modelled. It reads a `reshuffle_needed` attribute that the shoe class never defines, so as written the read raises AttributeError and the round's constructor never returns; the branch would also call a `BlackjackShoe.create_shoe` that does not exist. The model continues as if the flag were false.
- Hands.Hand.IsBlackjack: `is_blackjack` is called at player.py:31 and dealer.py:16 but defined nowhere in the core. It is an assumption: exactly two cards and a value of 21.
- The copy of class `Hand` at deck.py:96-170 repeats hand.py and is modelled once.
- Deck.BlackjackShoe.constructor: the float penetration is a fraction `num/den` of natural numbers. Negative, NaN and infinite penetrations are not modelled. The source truncates a floating-point product with `int()`, which can fall one below the exact floor when the product is not representable; the model takes the exact floor.
- Deck.ShuffleShoe: `random.shuffle` is a Fisher-Yates shuffle whose draws come from a parameter. The shoe takes its draws from its `rng` field, indexed by the shuffle number. Only the permutation is proved, not the distribution.
- Deck.BlackjackShoe.DealCard: a shoe of zero decks would make the read at deck.py:76 fail. The model requires at least one deck instead.
- Players.Player.constructor: the strategy is a record of three maps, not a dict keyed by "PAIR", "SOFT" and "HARD". The missing-key error cannot occur. The bankroll is not kept.
- Players.Decide: table codes are the four letters H, S, D and P. Other strings in a table are not modelled.
- Rounds.BlackjackRound.DealInitialCards: the loop `for _ in range(2)` is written as two calls of `DealPass`.
- Rounds.BlackjackRound.EvaluateRound: the values are read from the hands' `value` fields, which agree with `evaluate` on consistent hands. The hands are not re-evaluated.
- Python list aliasing: a `Hand` built from a caller's list shares it. Here the cards are a value.
- The API the test suite assumes but the core does not implement (`dealer_turn(shoe, counter)`, a round taking players, dealer and counter, `StrategyTable`) is not modelled.
