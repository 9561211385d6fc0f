# Baccarat service — a verified model of its game and money core

This project models the core of a baccarat service written in Go: a small HTTP backend that plays punto-banco rounds for users and settles their wagers; an automatic "lobby" that opens, closes and draws rounds on a timer and pays out the bets placed on them; an audit service that re-checks the payouts the backend recorded; and an API gateway that routes requests and reads the W3C Trace Context `traceparent` header.

The repository holds four independent copies of the round engine, and each is modelled in its own module with its own `Game` class:

- `ProductionGame` is `baccarat/internal/game/game.go`, the copy the play handler runs.
  - It deals P,P,B,B.
  - It has no natural check.
  - It passes the raw rank of the player's third card to the tableau.
  - It sets Lucky Six whenever the banker ends on 6.
- `ClassicGame` is `baccarat/game/game.go`.
  - It deals P,P,B,B and checks for a natural.
  - It sets Lucky Six only on a banker win.
  - It carries the payout-odds logic.
- `VariantGame` is `baccarat/game/baccarat.go`.
  - It deals P,B,P,B.
  - It enters the third-card phase only when `NeedThirdCard` holds.
  - It sets Lucky Six for a two-card banker 6.
- `AuditGame` is `verify/internal/validator/game.go`, the auditor's copy.

Engine methods change the fields of their `Game` object. Each method is specified by a pure step function over a `State` snapshot: `DealStep`, `ThirdCardStep` and `DetermineStep`. A whole round, `Round(deck)`, composes those steps, and the lemmas about the round are stated over `Round`. Only the pure helpers are shared, in `Rules`: pip value, score, banker tableau, comparison and the Lucky-Six type. The deck helpers are shared in `Shoe`: the standard 52-card deck and the swap shuffle.

Money is modelled as follows:

- Amounts and odds are `real`. Odds are parameters, and `Payouts.DefaultOdds` holds the configured defaults.
- The database is an abstract ledger, `Ledger.Tables`: a balance map, game records and bet rows. `Ledger.Database` holds it.
- Statements run inside a `Ledger.Tx`, which stages writes. A commit applies them and a rollback drops them.
- The failure of each statement the handler, the ledger and the lobby execute is an input (`Option<string>`), so those error paths are part of the contracts. The lobby's row cursor may also fail after any row, which is an input too. The read queries of `Ledger.GetGameDetails` have no error input; its only error is a missing game.

The three payout rules of the repository differ, and the model keeps them apart:

- The play handler credits stake×(1+odds), except on a tie bet, which pays stake×tie odds.
- The lobby credits stake×(1+odds) for every kind, tie included.
- The auditor expects stake×odds.

## Model

| member | source | states |
|---|---|---|
| Rules.PipValue | baccarat/game/card.go:61-66 | a card's pip is at most 9, and it equals the rank exactly when the rank is at most 9 |
| Rules.PipSumPair | baccarat/game/game.go:48-61 | the pip sum of two cards is the sum of their pips |
| Rules.Score | baccarat/game/game.go:48-61 | a hand's score (pip sum mod 10) lies in 0..9 |
| Rules.ModTenAdd | baccarat/game/baccarat.go:43-56 | reducing the running sum mod 10 at every step gives the same score as reducing once |
| Rules.ScoreAppend | baccarat/game/baccarat.go:43-56 | adding a card moves the score by its pip, mod 10 |
| Rules.ScorePrefixStep | baccarat/game/baccarat.go:43-56 | one loop step of the running score: the prefix score grows by the next pip, mod 10 |
| Rules.RunningScore | baccarat/game/baccarat.go:43-56 | the accumulator loop of calculateScores returns the hand's score |
| Rules.SumScore | baccarat/internal/game/game.go:113-123 | the calculateScore loop (ranks above 9 count 0, sum mod 10) returns the hand's score |
| Rules.TableauIsStandard | baccarat/game/game.go:133-148 | the banker draws exactly when the player's third pip is in the punto-banco drawing set for the banker's score (0-2 always, 3 unless 8, 4 on 2-7, 5 on 4-7, 6 on 6-7, otherwise never) |
| Rules.RawRankSameDecision | baccarat/internal/game/game.go:125-140 | passing the raw rank 10-13 instead of pip 0 never changes the banker's decision |
| Rules.Compare | baccarat/game/game.go:151-179 | the winner is never undecided; it is Player exactly when P > B, Banker exactly when B > P, and Tie exactly on equality |
| Rules.SixTypeOf | baccarat/game/game.go:160-166 | a Lucky Six is typed "2cards" exactly when the banker holds two cards, otherwise "3cards" |
| Shoe.StandardDeck | baccarat/internal/game/game.go:37-45 | the standard deck has 52 cards |
| Shoe.StandardDeckDistinct | baccarat/game/card.go:30-40 | the 52 cards of the standard deck are pairwise distinct |
| Shoe.StandardDeckComplete | baccarat/game/card.go:30-40 | in suit-major order, index 13·suit+value−1 holds (suit, value) for every suit 0..3 and value 1..13 |
| Shoe.ShuffledInRange | baccarat/internal/game/game.go:37-53 | every card of a permutation of the standard deck has a suit 0..3 and a value 1..13 |
| Shoe.FillStandard | baccarat/internal/game/game.go:37-45 | the nested fill loop writes exactly the standard deck into the 52 slots |
| Shoe.SwapKeepsCards | baccarat/internal/game/game.go:47-53 | swapping two positions keeps the multiset of cards |
| Shoe.SwapShuffle | baccarat/internal/game/game.go:47-53 | the swap loop (i from the top, j in [0, i]) returns a permutation of its input |
| CardDeck.Deck.NewDeck | baccarat/game/card.go:30-40 | a new deck holds the standard deck in suit-major order |
| CardDeck.Deck.Shuffle | baccarat/game/card.go:43-48 | shuffling keeps the length and the multiset of cards |
| CardDeck.Deck.DrawCard | baccarat/game/card.go:51-58 | drawing from a non-empty deck returns the front card and leaves the old deck without it |
| CardFormat.FormatCard | baccarat/api/handlers/game.go:281-285 | a card's text is 2 or 3 characters with no comma, starting with its suit letter S/H/D/C |
| CardFormat.IndexOf | baccarat/api/handlers/game.go:281-285 | a found index names the looked-up text, and none is found only when the text is absent |
| CardFormat.IndexOfDistinct | baccarat/api/handlers/game.go:281-285 | in a table without repeats, looking up entry k finds k |
| CardFormat.ParseCard | baccarat/api/handlers/game.go:281-285 | any card parsed back from a text is in range |
| CardFormat.ParseFormat | baccarat/api/handlers/game.go:281-285 | the suit-and-rank text of every in-range card parses back to that card, so the encoding is injective |
| CardFormat.FormatAll | baccarat/api/handlers/game.go:272-278 | formatting a hand gives one text per card |
| CardFormat.FormatCards | baccarat/api/handlers/game.go:272-278 | the formatCards loop returns, position by position, each card's text |
| CardFormat.FormatAllAt | baccarat/api/handlers/game.go:272-278 | entry k of a formatted hand is the text of card k |
| CardFormat.FormatCardsToString | baccarat/api/handlers/game.go:288-290 | joining no texts gives the empty string |
| CardFormat.HandTextRoundTrip | baccarat/api/handlers/game.go:288-290 | splitting a joined hand text on "," gives back one field per card, and each field parses to its card |
| ClassicGame.Game.NewGame | baccarat/game/game.go:28-37 | a new game starts from empty hands over a shuffled standard deck |
| ClassicGame.Game.CalculateScores | baccarat/game/game.go:48-61 | both scores become the scores of the current hands and nothing else changes |
| ClassicGame.Game.Deal | baccarat/game/game.go:40-45 | the deal is the DealStep: player gets draws 1-2, banker draws 3-4, deck loses four cards |
| ClassicGame.Game.NeedThirdCard | baccarat/game/game.go:64-76 | the flag holds exactly when the third-card step gives the player a card |
| ClassicGame.Game.DrawBankerThird | baccarat/game/game.go:94-110 | the banker takes the front card, its pip is remembered and the scores are recomputed |
| ClassicGame.Game.DealThirdCard | baccarat/game/game.go:79-111 | the third-card phase is the ThirdCardStep (natural check, player rule, banker tableau) |
| ClassicGame.Game.CalculatePayouts | baccarat/game/game.go:182-221 | the payout-odds table is rebuilt from scratch from winner and Lucky Six |
| ClassicGame.Game.DetermineWinner | baccarat/game/game.go:151-179 | the verdict is the DetermineStep (comparison, banker-win Lucky Six, odds table) |
| ClassicGame.Game.Play | baccarat/game/game.go:224-233 | Play is deal, third card, verdict and a second odds rebuild, which changes nothing |
| ClassicGame.Game.GetPayouts | baccarat/game/game.go:271-336 | the payout map for a wager is WagerPayouts of the game's outcome |
| ClassicGame.Game.GetTotalPayout | baccarat/game/game.go:339-368 | the total is the win entries plus the player, banker and Lucky-Six principals |
| ClassicGame.Game.GetPlayerInitialScore | baccarat/game/game.go:371-378 | the score of the player's first two cards (fewer when the hand is shorter) |
| ClassicGame.Game.GetBankerInitialScore | baccarat/game/game.go:381-388 | the score of the banker's first two cards (fewer when the hand is shorter) |
| ClassicGame.FirstTwoScore | baccarat/game/game.go:371-388 | the initial-score loop returns the score of the first two cards |
| ClassicGame.RoundDealOrder | baccarat/game/game.go:40-45 | in every round the player's first two cards are deck[0..2] and the banker's are deck[2..4] |
| ClassicGame.RoundNatural | baccarat/game/game.go:81-83 | on a natural (either first score ≥ 8) both hands keep two cards |
| ClassicGame.RoundPlayerDraw | baccarat/game/game.go:86-91 | without a natural the player draws exactly when the first score is ≤ 5, and the third card is deck[4] |
| ClassicGame.RoundBankerAfterStand | baccarat/game/game.go:94-101 | when the player stood, the banker draws exactly when the first banker score is ≤ 5 |
| ClassicGame.RoundBankerTableau | baccarat/game/game.go:102-110 | after a player draw, the banker draws exactly as the tableau says for the player's third pip |
| ClassicGame.RoundVerdict | baccarat/game/game.go:151-179 | the winner is the comparison of the final scores, with Lucky Six exactly on a banker win with 6, typed by the banker's card count |
| ClassicGame.SixCardsSuffice | baccarat/game/game.go:40-111 | a deck of six or more cards always holds every card a round draws |
| ClassicGame.RoundHandSizes | baccarat/game/game.go:40-111 | each hand ends a round with two or three cards |
| ClassicGame.RoundConsumesFront | baccarat/game/game.go:79-111 | a round consumes exactly the front of the deck, the third cards being the cards after the deal |
| ClassicGame.DealtCardsPartition | baccarat/game/card.go:55-57 | the hands and the leftover deck together hold exactly the cards of the deck they came from |
| ClassicGame.RoundKeepsCards | baccarat/game/game.go:79-111 | the hands plus the remaining deck are a permutation of the starting deck |
| ClassicGame.RoundTieOdds | baccarat/game/game.go:214-219 | the odds table matches the verdict, and on a tie it is 1.0 for player, banker and Lucky Six and the tie odds for tie |
| ClassicGame.ThirdCardSameTable | baccarat/game/game.go:79-111 | the third-card step depends only on the hands, scores and deck |
| ClassicGame.DetermineSameTable | baccarat/game/game.go:151-179 | the verdict depends only on the hands and scores |
| ClassicGame.PlayDependsOnDeckOnly | baccarat/game/game.go:224-233 | Play from any empty-handed state is the round of its deck |
| VariantGame.Game.NewGame | baccarat/game/baccarat.go:20-26 | a new game starts from empty hands over a shuffled standard deck |
| VariantGame.Game.CalculateScores | baccarat/game/baccarat.go:43-56 | both scores become the scores of the current hands |
| VariantGame.Game.Deal | baccarat/game/baccarat.go:29-40 | the deal is the DealStep over the four front cards |
| VariantGame.Game.NeedThirdCard | baccarat/game/baccarat.go:59-71 | the flag is "no natural and player ≤ 5" |
| VariantGame.Game.DealThirdCard | baccarat/game/baccarat.go:74-91 | the third-card phase is the ThirdCardStep |
| VariantGame.Game.DetermineWinner | baccarat/game/baccarat.go:112-123 | the verdict is the DetermineStep |
| VariantGame.Game.Play | baccarat/game/baccarat.go:126-132 | Play deals, enters the third-card phase only when NeedThirdCard holds, then decides |
| VariantGame.DealFromStart | baccarat/game/baccarat.go:29-40 | the deal gives the player deck[0] and deck[2] and the banker deck[1] and deck[3] |
| VariantGame.RoundDealAlternates | baccarat/game/baccarat.go:30-37 | in every round the first four cards alternate player, banker, player, banker |
| VariantGame.RoundPlayerDraw | baccarat/game/baccarat.go:59-71 | the player holds three cards exactly when neither first score is ≥ 8 and the player's is ≤ 5 |
| VariantGame.RoundBankerTableau | baccarat/game/baccarat.go:82-86 | after a player draw the banker follows the standard tableau for the player's third pip |
| VariantGame.SixCardsSuffice | baccarat/game/baccarat.go:29-90 | a deck of six or more cards always holds every card a round draws |
| VariantGame.RoundHandSizes | baccarat/game/baccarat.go:29-90 | each hand ends a round with two or three cards |
| VariantGame.RoundBankerOnlyAfterPlayer | baccarat/game/baccarat.go:76-90 | under Play the banker holds three cards only if the player does |
| VariantGame.RoundVerdict | baccarat/game/baccarat.go:112-123 | Lucky Six exactly for a two-card banker 6 whoever wins; the winner is the strict comparison |
| VariantGame.StandOffBankerStands | baccarat/game/baccarat.go:126-132 | as written: a banker on 3 facing a standing player on 6 keeps two cards |
| VariantGame.StandardPlayBankerAfterStand | baccarat/game/baccarat.go:87-90 | corrected Play: after a player stand the banker draws exactly on ≤ 5 |
| VariantGame.StandardPlayAgrees | baccarat/game/baccarat.go:126-132 | corrected Play agrees with Play whenever the player draws or a natural ends the round |
| ProductionGame.Game.NewGame | baccarat/internal/game/game.go:28-35 | a new game holds a permutation of the standard deck and empty hands |
| ProductionGame.Game.InitializeDeck | baccarat/internal/game/game.go:37-45 | the deck becomes the standard deck, nothing else changes |
| ProductionGame.Game.ShuffleDeck | baccarat/internal/game/game.go:47-53 | the deck becomes a permutation of itself, nothing else changes |
| ProductionGame.Game.Deal | baccarat/internal/game/game.go:55-64 | the deal is the DealStep |
| ProductionGame.Game.DealThirdCard | baccarat/internal/game/game.go:66-90 | the third-card phase is the ThirdCardStep |
| ProductionGame.Game.DetermineWinner | baccarat/internal/game/game.go:92-111 | the verdict is the DetermineStep |
| ProductionGame.DealFromStart | baccarat/internal/game/game.go:55-64 | the deal gives deck[0..2] to the player and deck[2..4] to the banker, and leaves deck[4..] |
| ProductionGame.SixCardsSuffice | baccarat/internal/game/game.go:66-90 | six cards are always enough for a round |
| ProductionGame.RoundDeal | baccarat/internal/game/game.go:55-64 | every round starts with the P,P,B,B deal |
| ProductionGame.RoundPlayerDraw | baccarat/internal/game/game.go:66-76 | the player draws exactly when the first score is ≤ 5, whatever the banker holds, and the third card is deck[4] |
| ProductionGame.RoundBankerAfterStand | baccarat/internal/game/game.go:84-89 | when the player stood (≥ 6), the banker draws exactly on a first score ≤ 5 |
| ProductionGame.RoundBankerTableau | baccarat/internal/game/game.go:78-83 | after a player draw the banker follows the tableau on the raw rank, which is the tableau on the pip |
| ProductionGame.RoundVerdict | baccarat/internal/game/game.go:92-111 | the winner is the comparison; Lucky Six exactly when the banker's final score is 6, typed by card count |
| ProductionGame.RoundConsumesFront | baccarat/internal/game/game.go:66-90 | the deck shrinks by exactly the number of cards dealt, from its front |
| ProductionGame.RoundHandsFromDeck | baccarat/internal/game/game.go:55-90 | every card in either hand comes from the deck |
| ProductionGame.NaturalIgnored | baccarat/internal/game/game.go:66-90 | as written: a banker natural 8 against a player 5 lets the player draw to a tie |
| ProductionGame.LuckySixOnBankerLoss | baccarat/internal/game/game.go:92-111 | as written: a banker 6 losing to a player 7 is flagged a two-card Lucky Six |
| ProductionGame.StandardRoundNatural | baccarat/internal/game/game.go:66-90 | corrected round: on a natural both hands keep two cards |
| ProductionGame.StandardRoundVerdict | baccarat/internal/game/game.go:92-111 | corrected round: Lucky Six only on a banker win with 6 |
| ProductionGame.StandardRoundAgrees | baccarat/internal/game/game.go:66-111 | without a natural and without a final banker 6 the corrected round equals the written one |
| AuditGame.NeedThird | verify/internal/validator/game.go:71-83 | the flag is false whenever a score is ≥ 8 and otherwise equals player ≤ 5 |
| AuditGame.Game.NewGame | verify/internal/validator/game.go:33-40 | a new game holds a permutation of the standard deck and empty hands |
| AuditGame.Game.InitializeDeck | verify/internal/validator/game.go:42-50 | the deck becomes the standard deck |
| AuditGame.Game.ShuffleDeck | verify/internal/validator/game.go:52-58 | the deck becomes a permutation of itself |
| AuditGame.Game.Deal | verify/internal/validator/game.go:60-69 | the deal is the DealStep |
| AuditGame.Game.NeedThirdCard | verify/internal/validator/game.go:71-83 | the method computes NeedThird of the current state |
| AuditGame.Game.DealThirdCard | verify/internal/validator/game.go:85-107 | the third-card phase is the ThirdCardStep, which never consults NeedThirdCard |
| AuditGame.Game.DetermineWinner | verify/internal/validator/game.go:109-131 | the verdict is the DetermineStep |
| AuditGame.DealFromStart | verify/internal/validator/game.go:60-69 | the deal takes deck[0..2] for the player and deck[2..4] for the banker, leaving deck[4..] |
| AuditGame.RoundVerdict | verify/internal/validator/game.go:109-131 | the winner is the strict comparison; Lucky Six exactly on a banker win with 6 |
| AuditGame.ThirdCardAgrees | verify/internal/validator/game.go:85-107 | from the same dealt table the auditor's and the production third-card phases draw the same cards |
| AuditGame.VerdictAgrees | verify/internal/validator/game.go:109-131 | from the same table both verdicts name the same winner, and the auditor's Lucky Six is the production one restricted to banker wins |
| AuditGame.AgreesWithProduction | verify/internal/validator/game.go:60-131 | on every deck the auditor's round deals and scores as the production round, differing only in Lucky Six on a banker loss |
| Text.Split | openresty/gateway/main.go:109-112 | splitting gives at least one field |
| Text.SplitCount | openresty/gateway/main.go:109-112 | the number of fields is one more than the number of separators |
| Text.SplitFieldsLackSeparator | openresty/gateway/main.go:109-112 | no field contains the separator |
| Text.JoinSplit | baccarat/api/handlers/game.go:288-290 | joining the fields of a split gives the string back |
| Text.SplitSingle | openresty/gateway/main.go:109-112 | a string without the separator splits into itself |
| Text.SplitAfterField | openresty/gateway/main.go:109-112 | a separator-free field before a separator splits off as the first field |
| Text.SplitJoin | baccarat/api/handlers/game.go:288-290 | splitting a join of separator-free fields gives the fields back |
| Text.RuneLen | baccarat/pkg/validation/validator.go:40-44 | a character takes 1 to 4 UTF-8 bytes, exactly 1 when it is ASCII |
| Text.Utf8LenBounds | baccarat/pkg/validation/validator.go:40-44 | Go's byte length is at least the character count, equal exactly for ASCII text |
| Text.NatToString | baccarat/api/handlers/game.go:107-116 | decimal text is non-empty and all digits |
| Text.DigitsOfNat | baccarat/api/handlers/game.go:107-116 | the digits of a number read back to the number |
| Text.Atoi | baccarat/api/handlers/game.go:107-116 | a parsed integer lies in the 64-bit range and comes from non-empty text |
| Text.AtoiOfNat | baccarat/api/handlers/game.go:107-116 | every 64-bit number's decimal text, bare or signed, parses to it |
| Payouts.BuildPayouts | baccarat/api/handlers/game.go:293-365 | the payout map written key by key is WagerPayouts: stake entries for positive stakes, principals on a tie, winnings for the outcome |
| Payouts.TotalPayout | baccarat/api/handlers/game.go:368-397 | the total is the win entries plus the player, banker and Lucky-Six principals (never the tie principal) |
| Payouts.TotalIsWagerCredit | baccarat/api/handlers/game.go:368-397 | the total equals the wager's credit: winnings including principal plus the stakes returned on a tie |
| Payouts.StakeEntriesArePositiveStakes | baccarat/db/db.go:116-128 | the stake entries sum to the positive stakes of the wager |
| Payouts.WinEntriesExcludePrincipal | baccarat/db/db.go:99-114 | the win entries are the credit less the principals pushed back on a tie |
| Payouts.OnlyWinnerPaid | baccarat/api/handlers/game.go:322-351 | without Lucky Six, a player win pays stake×(1+odds), a banker win stake×(1+odds), a tie stake×tie odds, and nothing else is paid |
| Settlement.ParseRunTimes | baccarat/api/handlers/game.go:107-116 | RUN_TIMES defaults to 1 when unset, and otherwise must parse to a positive integer |
| Settlement.CheckWager | baccarat/api/handlers/game.go:62-130 | both sides are rejected; an accepted plan has a positive total, a parsed run count and a balance covering total × runs |
| Settlement.WagerAccepted | baccarat/api/handlers/game.go:62-130 | a wager is accepted exactly when it is not on both sides, its total is positive, RUN_TIMES parses and the balance covers total × runs |
| Settlement.NegativeStakeAccepted | baccarat/api/handlers/game.go:69-104 | as written: a wager of player 10 and tie −5 is accepted with a debit of 5 while the recorded stake is 10 |
| Settlement.CheckWagerStrict | baccarat/api/handlers/game.go:69-104 | corrected check: an accepted wager has no negative stake |
| Settlement.StrictDebitIsRecordedStake | baccarat/api/handlers/game.go:69-104 | under the corrected check the debit equals the recorded stake total, and the check agrees with CheckWager |
| Settlement.BetRows | baccarat/api/handlers/game.go:450-479 | at most four rows, one per positive stake, all for this user and game |
| Settlement.SaveIf | baccarat/api/handlers/game.go:450-479 | one save step: a failure stops with that error and nothing staged, a success stages the row if present |
| Settlement.SaveBets | baccarat/api/handlers/game.go:450-479 | the rows that succeed before the first failure are staged, in order player, banker, tie, Lucky Six, and the first failure is returned |
| Settlement.ThirdCard | baccarat/api/handlers/game.go:400-447 | a third-card column is present exactly when the hand holds more than two cards |
| Settlement.GameRecordArgs | baccarat/api/handlers/game.go:400-447 | the third-card and Lucky-Six-type columns are present exactly when there is a third card or a Lucky Six |
| Settlement.RecordReadsBack | baccarat/api/handlers/game.go:400-447 | the recorded card texts parse back to the cards of the round |
| Settlement.SaveGameRecord | baccarat/api/handlers/game.go:400-447 | the handler's saveGameRecord prepares exactly GameRecordArgs and returns the statement's error |
| Settlement.ShuffledRoundPrintable | baccarat/api/handlers/game.go:153-157 | a round over any permutation of the standard deck can be played and its cards printed |
| Settlement.ReportOf | baccarat/api/handlers/game.go:190-222 | the round's report is the production round of the deck with the given id and stake |
| Settlement.SettledBalance | baccarat/api/handlers/game.go:146-181 | a settled round moves the player's balance by −total bet + total payout (credit only when positive) and leaves other users alone |
| Settlement.SettledSteps | baccarat/api/handlers/game.go:146-181 | the settled tables are the debit, then the credit if positive, then the bet rows |
| Settlement.SettledRows | baccarat/api/handlers/game.go:146-181 | a settled round adds exactly the wager's bet rows and no game row |
| Settlement.PlayEngine | baccarat/api/handlers/game.go:153-157 | the engine plays the production round of a shuffled standard deck |
| Settlement.PlayAndPrice | baccarat/api/handlers/game.go:153-161 | after the round the handler's payouts are WagerPayouts of its outcome and the total is the wager's credit |
| Settlement.MakeReport | baccarat/api/handlers/game.go:190-222 | the report carries the round, id, stake and payout the handler returns |
| Settlement.SaveRound | baccarat/api/handlers/game.go:170-178 | with no failing save the record holds the round's columns and exactly the wager's bet rows are staged |
| Settlement.RoundBody | baccarat/api/handlers/game.go:146-181 | the transaction body succeeds when no statement fails, and on success stages exactly the settled tables |
| Settlement.PlayRound | baccarat/api/handlers/game.go:146-187 | a round in its own transaction either leaves the database unchanged or commits exactly the settled tables |
| Settlement.ApplyRoundsBalance | baccarat/api/handlers/game.go:136-187 | after any sequence of rounds the player's balance has moved by the sum of their net changes, other balances are untouched |
| Settlement.ApplyRoundsRows | baccarat/api/handlers/game.go:136-187 | after any sequence of rounds exactly their bet rows have been added |
| Settlement.PlayedSnoc | baccarat/api/handlers/game.go:136-187 | a played sequence extended by a reported round is still played |
| Settlement.ApplyRoundsSnoc | baccarat/api/handlers/game.go:136-187 | applying one more round settles it after the earlier ones |
| Settlement.RunRounds | baccarat/api/handlers/game.go:136-187 | the loop plays all runs, or stops at the first failed round with the earlier rounds committed; it always completes when no round faults |
| Settlement.PlayGame | baccarat/api/handlers/game.go:31-231 | a rejected wager changes nothing; an accepted one plays as RunRounds says |
| Settlement.DetailsMatchRecord | baccarat/db/db.go:319-329 | for a settled wager the game-details totals equal the recorded total_bets and total_payouts |
| Settlement.DetailsMatchSheet | baccarat/db/db.go:319-329 | the same for any payout map whose stake entries are the positive stakes |
| Settlement.RecordColumns | baccarat/db/db.go:284-289 | a bet's payout column is the map's entry for its kind |
| Settlement.SplitSums | baccarat/db/db.go:319-329 | the details totals of four row groups add up |
| Settlement.PieceSums | baccarat/db/db.go:319-329 | one optional row contributes its stake and its column's payout |
| Ledger.Adjusted | baccarat/db/db.go:152-155 | a balance update changes only the named user's balance, by exactly the amount |
| Ledger.AddToBalance | baccarat/db/db.go:152-155 | UpdateUserBalance changes only that user's balance, by exactly the amount (negative is a debit) |
| Ledger.AddToBalanceTwice | baccarat/db/db.go:152-155 | two updates of one user add up |
| Ledger.Succeeding | baccarat/api/handlers/game.go:450-479 | the number of statements before the first failure |
| Ledger.SucceedingUnique | baccarat/api/handlers/game.go:450-479 | that number is the only one with its defining properties |
| Ledger.Database.constructor | baccarat/db/db.go:52-71 | the database holds the given tables |
| Ledger.Database.Begin | baccarat/db/db.go:53-56 | a failed begin returns its error; otherwise a transaction staged on the current tables |
| Ledger.Tx.constructor | baccarat/db/db.go:53-56 | a transaction starts from the database's tables |
| Ledger.Tx.UpdateUserBalance | baccarat/db/db.go:152-155 | a successful update stages the balance delta, a failed one stages nothing |
| Ledger.Tx.SaveBet | baccarat/db/db.go:189-195 | a successful insert stages one bet row |
| Ledger.Tx.InsertGame | baccarat/db/db.go:130-141 | a successful insert stages one game row |
| Ledger.Tx.Commit | baccarat/db/db.go:70 | a successful commit makes the staged tables the database's |
| Ledger.Tx.Rollback | baccarat/db/db.go:60-66 | a rollback leaves the database unchanged |
| Ledger.Conclude | baccarat/db/db.go:52-71 | a panic is re-raised after rollback; an error from the body is returned after rollback; otherwise the commit's result, and the staged tables apply exactly when body and commit succeed |
| Ledger.RecordTotals | baccarat/db/db.go:95-128 | each payout column is the map's entry (NULL when absent); total_payouts sums the win entries, total_bets the stake entries |
| Ledger.SaveGameRecord | baccarat/db/db.go:74-142 | the record is added in its own transaction exactly when begin, insert and commit succeed, and the first error is returned |
| Ledger.RecordedPayoutsExcludePrincipal | baccarat/db/db.go:99-128 | the persisted total_payouts is the credit less the pushed principals, and total_bets the positive stakes |
| Ledger.GameBets | baccarat/db/db.go:279-316 | the joined bets are no more than the bet rows |
| Ledger.GameBetsAppend | baccarat/db/db.go:279-316 | the join distributes over concatenated rows |
| Ledger.FindGame | baccarat/db/db.go:249-276 | a found record has the queried id; none is found exactly when no record has it |
| Ledger.SumsAppend | baccarat/db/db.go:319-325 | both totals distribute over concatenation |
| Ledger.Totals | baccarat/db/db.go:319-329 | the loop sums all bet amounts and only the present payouts |
| Ledger.GetGameDetails | baccarat/db/db.go:229-332 | a missing game is an error; otherwise the record, its joined bets and their totals |
| Lobby.PayIncludesStake | baccarat/game/auto_game.go:177-199 | a non-negative stake at non-negative odds is paid at least the stake |
| Lobby.PaidExactlyOnWin | baccarat/game/auto_game.go:177-199 | a bet that did not win is paid 0, and a winning bet at non-negative odds is paid at least its stake |
| Lobby.TiePaysOneStakeMore | baccarat/game/auto_game.go:187-190 | on a won tie the lobby pays exactly one stake more than the play handler |
| Lobby.BankerIgnoresLuckySix | baccarat/game/auto_game.go:183-186 | a won banker bet pays stake×(1+banker odds) whether or not Lucky Six came up |
| Lobby.Pending | baccarat/game/auto_game.go:155-159 | exactly this round's bets in status pending, no more than there are bets |
| Lobby.SettleAllBalances | baccarat/game/auto_game.go:202-210 | settling a list of bets moves each user's balance by the positive payouts of their bets, and nothing else |
| Lobby.SettleAllMarks | baccarat/game/auto_game.go:213-219 | settling marks exactly the processed bets completed |
| Lobby.NoPendingLeft | baccarat/game/auto_game.go:155-219 | after settlement no bet of the round is pending |
| Lobby.RowsRead | baccarat/game/auto_game.go:165 | the cursor yields every row unless it fails earlier, and then exactly the rows before the failure |
| Lobby.ProcessPayouts | baccarat/game/auto_game.go:146-223 | the row loop succeeds exactly when the query and the statements of every row the cursor yields succeed, and then produces the tables with exactly those rows settled; a cursor failure ends the loop with success |
| Lobby.StatusOf | baccarat/game/auto_game.go:59-111 | a round's status is known exactly when a round has that id |
| Lobby.DrawRollsBack | baccarat/game/auto_game.go:126-137 | a draw that does not commit moves no money and settles no bet |
| Lobby.DrawSettles | baccarat/game/auto_game.go:99-143 | a committed draw whose cursor yields every row credits every user their payouts, completes the round and leaves no bet pending |
| Lobby.CommittedDrawCompletes | baccarat/game/auto_game.go:99-143 | a committed draw marks the round completed, however many rows the cursor yielded |
| Lobby.InterruptedDrawStrandsBet | baccarat/game/auto_game.go:133-143 | as written, a cursor failure before the round's only pending bet still commits: the round reads completed while the bet stays pending and unpaid |
| Lobby.CheckedDrawNeverStrands | baccarat/game/auto_game.go:165-222 | with the cursor's error checked, a round that becomes completed has no pending bet left and every user was credited their payouts |
| Lobby.RecordedStatus | baccarat/game/auto_game.go:99-124 | recording the result makes the status completed |
| Lobby.StatusSet | baccarat/game/auto_game.go:77-85 | setting a status makes it the round's status |
| Lobby.OpenedStatus | baccarat/game/auto_game.go:56-60 | a newly created round is in status betting |
| Lobby.Store.constructor | baccarat/game/auto_game.go:19-26 | the store holds the given tables |
| Lobby.AutoGameService.constructor | baccarat/game/auto_game.go:19-26 | the service keeps its database, switch, interval and closing time |
| Lobby.AutoGameService.BettingWindow | baccarat/game/auto_game.go:51-53 | betting ends at start + interval − betCloseTime, strictly after the start when the closing time is shorter than the interval |
| Lobby.AutoGameService.CreateNewGame | baccarat/game/auto_game.go:49-70 | a successful insert opens a round in status betting with that window; a failed one changes nothing |
| Lobby.AutoGameService.DrawGame | baccarat/game/auto_game.go:83-144 | the draw marks the round drawing, then commits result and payouts together or neither |
| Lobby.AutoGameService.ScheduleGameEvents | baccarat/game/auto_game.go:72-81 | the round is closed (when that statement succeeds) and then drawn |
| Lobby.Lifecycle | baccarat/game/auto_game.go:59-111 | a round goes betting, closed, drawing and, when the draw commits, completed |
| PayoutAudit.Mismatches | verify/internal/validator/validator.go:71-78 | one error detail per mismatching bet, in order; none exactly when every payout is the expected one |
| PayoutAudit.Repeat | verify/internal/validator/validator.go:74-77 | n copies of the game id |
| PayoutAudit.ValidateGame | verify/internal/validator/validator.go:23-82 | the loop's result is the verdict on the game |
| PayoutAudit.VerdictCounts | verify/internal/validator/validator.go:24-78 | one game, valid or invalid, valid exactly when every payout matches, and one id and one detail per mismatch |
| PayoutAudit.NoBetsValid | verify/internal/validator/validator.go:24-33 | a game without bets is valid |
| PayoutAudit.MismatchesAppend | verify/internal/validator/validator.go:33-78 | the details of concatenated bets are the concatenated details |
| PayoutAudit.HandlerPlayerWinFlagged | verify/internal/validator/validator.go:40-44 | a player win settled by the play handler is flagged, off by exactly the stake |
| PayoutAudit.HandlerTieAgrees | verify/internal/validator/validator.go:55-58 | a tie win settled by the play handler passes the audit |
| PayoutAudit.LostBetExpectsNothing | verify/internal/validator/validator.go:35-69 | a lost or unknown bet is expected to pay 0, so it passes exactly when its payout is NULL or 0 |
| Validation.TrimLeft | baccarat/pkg/validation/validator.go:35 | trimming the left drops exactly a leading run of white space |
| Validation.TrimRight | baccarat/pkg/validation/validator.go:35 | trimming the right drops exactly a trailing run of white space |
| Validation.TrimSpace | baccarat/pkg/validation/validator.go:35 | the trimmed name neither starts nor ends with white space |
| Validation.TrimLeftOfUntrimmed | baccarat/pkg/validation/validator.go:35 | trimming the left of text that starts with no space is the identity |
| Validation.TrimRightOfUntrimmed | baccarat/pkg/validation/validator.go:35 | trimming the right of text that ends with no space is the identity |
| Validation.TrimSpaceIdempotent | baccarat/pkg/validation/validator.go:35 | trimming twice is trimming once |
| Validation.TrimSpaceIsSlice | baccarat/pkg/validation/validator.go:35 | the trimmed text is a slice of the input |
| Validation.ValidateUsername | baccarat/pkg/validation/validator.go:34-53 | after trimming: empty exactly for blank input, too short exactly for 1-2 bytes, too long exactly above 20 bytes, invalid exactly for 3-20 bytes that are not all word characters, accepted only for 3-20 word characters |
| Validation.UsernameAccepted | baccarat/pkg/validation/validator.go:34-53 | the verdict ignores surrounding space, and a name passes exactly when trimmed it is 3-20 word characters |
| Validation.ValidatePassword | baccarat/pkg/validation/validator.go:56-76 | a password passes exactly when it is 6-50 bytes with an upper, a lower and a digit; empty is its own error |
| Validation.PasswordRuleOrder | baccarat/pkg/validation/validator.go:56-76 | too short exactly for 1-5 bytes, too long exactly above 50 bytes, and invalid exactly for 6-50 bytes missing an upper-case letter, a lower-case letter or a digit |
| Validation.ValidateAmount | baccarat/pkg/validation/validator.go:79-84 | an amount is rejected exactly when it is ≤ 0 |
| Validation.LowerRune | baccarat/pkg/validation/validator.go:95 | lower-casing leaves no capital ASCII letter and is ASCII exactly for ASCII input, U+0130 and the Kelvin sign |
| Validation.ToLower | baccarat/pkg/validation/validator.go:95 | lower-casing keeps the length |
| Validation.ToLowerAt | baccarat/pkg/validation/validator.go:95 | character k of the lowered text is character k lowered |
| Validation.ValidateBetType | baccarat/pkg/validation/validator.go:87-99 | a kind is accepted exactly when its lower-cased form is a table key |
| Validation.LuckySixNeverLower | baccarat/pkg/validation/validator.go:88-95 | no lower-cased text equals the key "luckySix" |
| Validation.BetTypeAcceptedExactly | baccarat/pkg/validation/validator.go:87-99 | only player, banker and tie, in any case, are accepted |
| Validation.LuckySixRejected | baccarat/pkg/validation/validator_test.go:89 | as written: "luckySix" is rejected, although the source's test table expects it to pass |
| Validation.ValidateBetTypeFolded | baccarat/pkg/validation/validator.go:87-99 | corrected check: accepted exactly when the lower-cased kind is a lower-cased key |
| Validation.FoldedLuckySix | baccarat/pkg/validation/validator_test.go:89 | corrected check: "luckySix" passes |
| Validation.FoldedLuckySixCapitals | baccarat/pkg/validation/validator_test.go:90 | corrected check: a capitalised "LUCKYSIX" passes, as "PLAYER" does |
| Validation.FoldedBetTypes | baccarat/pkg/validation/validator.go:87-99 | the corrected check differs from the written one only on Lucky Six |
| Validation.ValidateGameID | baccarat/pkg/validation/validator.go:102-107 | an id is accepted exactly when it is 36 bytes long |
| Validation.ValidateRegistration | baccarat/pkg/validation/validator.go:110-115 | the username's error if any, else the password's verdict |
| Validation.ValidateBet | baccarat/pkg/validation/validator.go:118-123 | accepted exactly for player, banker or tie with a positive amount; a bad kind is reported first |
| Validation.UsernameTestCases | baccarat/pkg/validation/validator_test.go:13-18 | every row of the username test table: "" empty, "ab" too short, "abcdefghijklmnopqrstuvwxyz" too long, "user@name" invalid, "user123" and "user_123" accepted |
| Validation.ShortNameCase | baccarat/pkg/validation/validator_test.go:14 | "ab" is too short |
| Validation.BadCharacterCase | baccarat/pkg/validation/validator_test.go:16 | "user@name" has an invalid character |
| Validation.LongNameCase | baccarat/pkg/validation/validator_test.go:15 | the 26-letter name is too long |
| Validation.PlainNameCase | baccarat/pkg/validation/validator_test.go:17 | "user123" is accepted |
| Validation.UnderscoreNameCase | baccarat/pkg/validation/validator_test.go:18 | "user_123" is accepted |
| Validation.PasswordTestCases | baccarat/pkg/validation/validator_test.go:37-43 | every row of the password test table: "" empty, "Aa1" too short, "Aa1" with 50 zero bytes too long, "password123", "PASSWORD123" and "PasswordABC" invalid, "Password123" accepted |
| Validation.NoCapitalCase | baccarat/pkg/validation/validator_test.go:40 | "password123" lacks a capital |
| Validation.ShortPasswordCase | baccarat/pkg/validation/validator_test.go:38 | "Aa1" is too short |
| Validation.LongPasswordCase | baccarat/pkg/validation/validator_test.go:39 | "Aa1" followed by 50 zero bytes is too long |
| Validation.NoLowerCase | baccarat/pkg/validation/validator_test.go:41 | "PASSWORD123" lacks a lower-case letter |
| Validation.NoDigitCase | baccarat/pkg/validation/validator_test.go:42 | "PasswordABC" lacks a digit |
| Validation.ValidPasswordCase | baccarat/pkg/validation/validator_test.go:43 | "Password123" is accepted |
| Bearer.Utf8LenAppend | baccarat/internal/auth/jwt.go:94 | Go's byte length of a concatenation is the sum of the byte lengths |
| Bearer.ExtractBearerToken | baccarat/internal/auth/jwt.go:93-98 | a token is returned exactly when the header is longer than "Bearer " and starts with it, and the header is then the scheme followed by the token |
| Bearer.RoundTrip | baccarat/internal/auth/jwt.go:93-98 | every non-empty token put behind "Bearer " is extracted again |
| Bearer.NoTokenWithoutScheme | baccarat/internal/auth/jwt.go:94-97 | the bare scheme and a lower-case "bearer " prefix give no token |
| Gateway.FirstMatch | openresty/gateway/main.go:163-187 | the found index is the first route matching in the given way; none is found exactly when no route matches |
| Gateway.FindRoute | openresty/gateway/main.go:163-187 | the three search loops return the route RouteFor chooses |
| Gateway.RouteFound | openresty/gateway/main.go:163-187 | a route is found exactly when some route matches the path exactly, by a non-root prefix or as the root |
| Gateway.ExactWins | openresty/gateway/main.go:163-168 | the first route equal to the path wins over every prefix |
| Gateway.ConfiguredRouting | openresty/gateway/main.go:40-49 | with the configured table every path is routed to the webhook host; paths starting "/webhook" (also "/webhookx") take the first route, the rest the root |
| Gateway.HexValue | openresty/gateway/main.go:114-124 | a hex digit's value lies in 0..15 |
| Gateway.HexDecode | openresty/gateway/main.go:114-124 | decoding succeeds exactly for even-length all-hex text, giving half as many bytes |
| Gateway.HexDecodeBytes | openresty/gateway/main.go:114-124 | each decoded byte is 16 × its high digit plus its low digit |
| Gateway.HexDigit | openresty/gateway/main.go:114-124 | the digit for a value is a hex digit with that value |
| Gateway.HexEncode | openresty/gateway/main.go:114-124 | encoding gives two hex digits per byte |
| Gateway.HexRoundTrip | openresty/gateway/main.go:114-124 | decoding an encoding gives the bytes back |
| Gateway.Zeros | openresty/gateway/main.go:118-126 | n zero bytes have length n |
| Gateway.ZerosAreZero | openresty/gateway/main.go:118-126 | every byte of the zero buffer is 0 |
| Gateway.Padded | openresty/gateway/main.go:118-126 | copying into a fixed buffer keeps the first bytes of the source and zero-fills the rest |
| Gateway.ParseW3CTraceContext | openresty/gateway/main.go:109-131 | an input that does not split into 4 fields is a format error; otherwise the trace-id error comes exactly when the second field is not hex, and the parent-id error exactly when the second is hex and the third is not; a parsed context holds the decoded trace id copied into 16 bytes and the decoded parent id copied into 8, and is sampled exactly when the flags field is "01" |
| Gateway.ParseFields | openresty/gateway/main.go:109-131 | a header of four dash-free fields parses by its fields, with the version ignored |
| Gateway.ShortIdsZeroFilled | openresty/gateway/main.go:115-126 | ids shorter than 16 and 8 bytes parse back followed by zeros up to those widths |
| Gateway.PaddedShort | openresty/gateway/main.go:118-126 | copying a shorter source into a fixed buffer appends zeros |
| Gateway.TraceparentRoundTrip | openresty/gateway/main.go:109-131 | a header built from any version, the hex of a 16-byte trace id and an 8-byte span id and "01" parses back to those ids, sampled |

## Left out

- Randomness: Go's `rand` is not modelled. The swap shuffles pick `j` nondeterministically in [0, i], so every proof holds for any permutation. `uuid.New` ids and the game ids of the lobby are inputs.
- Floating point: all amounts and odds are real numbers. IEEE rounding, and the exact `!=` of the audit comparison it affects, are not modelled.
- Integer widths: game ids, user ids and times are unbounded integers or strings. `time.Duration` overflow in the betting-window arithmetic is not modelled. Only `strconv.Atoi` of RUN_TIMES carries the 64-bit range.
- SQL and connection code is not modelled: `InitDB`, the queries, `GetUserBalance`, `CreateUser`, `GetUserByUsername`, `SaveTransaction`, and verify/internal/db/db.go. The database is the abstract `Ledger.Tables`, and each statement's failure is an input.
- Ledger.GetGameDetails: the errors of the record query, the bets query and the row scans (baccarat/db/db.go:275, 298, 313) have no input. The only error modelled is the missing game of line 273.
- Ledger.GetGameDetails: the join keeps the rows in insertion order. The `ORDER BY username, bet_type` of the query is not modelled, which does not affect the totals.
- Ledger.Tx.UpdateUserBalance: an update of an unknown user changes nothing, which matches an UPDATE that hits no row. It is not an error.
- Concurrency and timers are not modelled: `Start`, `run`, the ticker, the goroutine that `createNewGame` starts, and the `time.Sleep` in `scheduleGameEvents`. `ScheduleGameEvents` takes `endTime` and does not use it.
- The lobby's `NewBaccaratGame` and `GameResult` are not part of this model. The drawn result is an input to `DrawGame`.
- Lobby.ProcessPayouts: a row's scan, credit and status statements are collapsed into one failure per row. A failure of the row cursor itself is the separate `stop` input.
- Lobby.ProcessPayouts: the odds are read from the environment with `ParseFloat` and the parse error is ignored. They are an input, so an unparsable value reads as 0.
- HTTP plumbing is not modelled: request decoding, JSON responses, router, middleware, response helpers and the auditor's API client. verify/internal/api/types.go holds only data types.
- Settlement.PlayGame: the response is the list of round reports. Its JSON shape and the logger calls are not modelled.
- bcrypt hashing and JWT `GenerateToken`/`ValidateToken` call foreign libraries and are not modelled. Only `ExtractBearerToken` is.
- Tracing setup, the reverse proxy and openresty/webhook/webhook.go are not modelled.
- Configuration and environment loading are not modelled. The configured defaults are the constant `Payouts.DefaultOdds`, and RUN_TIMES is an input string.
- Program entry points, scripts and the logger are not modelled: baccarat/main.go, verify/cmd/main.go, baccarat/test_timezone.go, baccarat/test_db_connection.go and baccarat/pkg/logger/logger.go.
- baccarat/auto_game.go is entirely commented out and has no model.
- The auditor's `CalculateExpectedPayouts` returns 0 unconditionally and is not modelled. Neither is `ValidationResult.String`.
- PayoutAudit.ValidateGame: an error detail is the `PayoutError` record, not the `%.2f` text the source formats.
- Settlement.SaveGameRecord: at baccarat/api/handlers/game.go:430-441 the handler calls `db.SaveGameRecord` with 11 arguments, but the function takes 13. The handler's step is modelled as preparing the record's arguments, with its failure as an input. `Ledger.SaveGameRecord` models db.go's own function, which also opens its own transaction. The two are not connected, so a round's record is not rolled back with its balance transaction.
- The duplicate declarations of `Hand`, `Game` and `NewGame` in baccarat/game/game.go and baccarat/game/baccarat.go are resolved by two modules.
- CardFormat.FormatCard: it requires a card in range (suit 0..3, value 1..13). Out-of-range cards would make the Go slice index panic, and every deck the source builds is in range.
- Gateway.ParseW3CTraceContext: the three hex error kinds are modelled, but the wording of Go's error messages is not.
- Bearer.ExtractBearerToken: Go compares the header's leading bytes. The model compares characters, which coincide because the scheme is ASCII.

## Findings

| source | as written | input that shows it | evidently intended | confidence | as-written member | corrected member |
|---|---|---|---|---|---|---|
| baccarat/internal/game/game.go:66-90 | the player draws on ≤ 5 without checking for a natural | deck S2 S3 H4 H4 D3 CK: banker natural 8, player 5 draws D3 to 8, so the round is a tie | a natural (either first score ≥ 8) ends the round with two cards each, so the banker wins | not executed | ProductionGame.NaturalIgnored | ProductionGame.StandardRoundNatural |
| baccarat/internal/game/game.go:92-111 | Lucky Six is set whenever the banker ends on 6, whoever wins | deck S3 S4 H3 H3: player 7 beats banker 6, and the round is flagged a two-card Lucky Six | Lucky Six only on a banker win with 6, as the other copies do | not executed | ProductionGame.LuckySixOnBankerLoss | ProductionGame.StandardRoundVerdict |
| baccarat/pkg/validation/validator.go:87-99 | the table key "luckySix" is compared with lower-cased input, so it never matches | "luckySix" is rejected, while validator_test.go:89 expects it to pass | lower-case keys, so every Lucky-Six spelling is accepted | not executed | Validation.LuckySixRejected | Validation.FoldedLuckySix |
| baccarat/game/baccarat.go:126-132 | Play enters DealThirdCard only when NeedThirdCard holds, so the banker's stand-off rule at lines 87-90 is unreachable | deck S3 H1 S3 H2 D9: player 6 stands, banker 3 keeps two cards | when the player stands on 6-7 the banker draws on ≤ 5 | not executed | VariantGame.StandOffBankerStands | VariantGame.StandardPlayBankerAfterStand |
| baccarat/api/handlers/game.go:69-104 | only positive stakes are checked; a negative stake lowers the total that is debited | player 10, tie −5: 5 is debited, but a stake of 10 is recorded | every stake is non-negative, so the debit equals the recorded stakes | not executed | Settlement.NegativeStakeAccepted | Settlement.StrictDebitIsRecordedStake |
| baccarat/game/auto_game.go:165-222 | `for rows.Next()` ends silently when the cursor fails, `rows.Err()` is never read, and processPayouts returns nil, so drawGame commits at line 140 | a round with one pending bet whose cursor fails before the first row: the round is written completed, the bet stays pending and nobody is paid | check `rows.Err()` after the loop and roll back, so a completed round never has a pending bet | not executed | Lobby.InterruptedDrawStrandsBet | Lobby.CheckedDrawNeverStrands |
