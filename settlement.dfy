/**
 * The play handler (PlayGame in baccarat/api/handlers/game.go): the wager checks before any
 * money moves, then one database transaction per run that debits the total stake, plays a
 * round of the production engine, credits the payout when positive, and records the bets. The
 * first failing run ends the request; runs already committed stay committed.
 */
module Settlement {
  import opened Common
  import opened Rules
  import opened Payouts
  import Ledger
  import Shoe
  import Text
  import CardFormat
  import ProductionGame
  import Validation

  /** Why a play request is refused before any round is played. */
  datatype Rejection =
    | BothSides
    | InvalidStake(kind: string)
    | NoBets
    | InvalidRunTimes
    | BalanceUnavailable(message: string)
    | InsufficientBalance

  /** An accepted request: the stake taken per run and the number of runs. */
  datatype Plan = Plan(totalBet: real, runs: nat)

  function TotalBet(w: Wager): real {
    w.player + w.banker + w.tie + w.luckySix
  }

  /** RUN_TIMES: 1 when absent, else an integer that strconv.Atoi accepts and that is positive. */
  function ParseRunTimes(text: string): (r: Option<nat>)
    ensures text == [] ==> r == Some(1)
    ensures r.Some? ==> r.value >= 1
    ensures text != [] ==> (r.Some? <==> Text.Atoi(text).Some? && Text.Atoi(text).value > 0)
  {
    if text == [] then Some(1)
    else
      match Text.Atoi(text)
      case None => None
      case Some(n) => if n <= 0 then None else Some(n)
  }

  /**
   * The checks before the run loop, in order: not both Player and Banker, each positive stake
   * a valid amount, a positive total, a valid RUN_TIMES, a readable balance and enough of it
   * for every run. The balance read is an input.
   */
  function CheckWager(w: Wager, runTimes: string, balance: Result<real, string>): (r: Result<Plan, Rejection>)
    ensures w.player > 0.0 && w.banker > 0.0 ==> r == Err(BothSides)
    ensures r.Ok? ==> r.value.totalBet == TotalBet(w) > 0.0 && r.value.runs >= 1
    ensures r.Ok? ==> Some(r.value.runs) == ParseRunTimes(runTimes)
    ensures r.Ok? ==> balance.Ok? && balance.value >= r.value.totalBet * (r.value.runs as real)
  {
    if w.player > 0.0 && w.banker > 0.0 then Err(BothSides)
    else if w.player > 0.0 && Validation.ValidateAmount(w.player).Some? then Err(InvalidStake("player"))
    else if w.banker > 0.0 && Validation.ValidateAmount(w.banker).Some? then Err(InvalidStake("banker"))
    else if w.tie > 0.0 && Validation.ValidateAmount(w.tie).Some? then Err(InvalidStake("tie"))
    else if w.luckySix > 0.0 && Validation.ValidateAmount(w.luckySix).Some? then Err(InvalidStake("luckySix"))
    else if TotalBet(w) <= 0.0 then Err(NoBets)
    else
      match ParseRunTimes(runTimes)
      case None => Err(InvalidRunTimes)
      case Some(runs) =>
        if balance.Err? then Err(BalanceUnavailable(balance.error))
        else if balance.value < TotalBet(w) * (runs as real) then Err(InsufficientBalance)
        else Ok(Plan(TotalBet(w), runs))
  }

  /** A request passes exactly when no rule refuses it. */
  lemma WagerAccepted(w: Wager, runTimes: string, balance: Result<real, string>)
    ensures CheckWager(w, runTimes, balance).Ok? <==>
      !(w.player > 0.0 && w.banker > 0.0) && TotalBet(w) > 0.0 && ParseRunTimes(runTimes).Some? &&
      balance.Ok? && balance.value >= TotalBet(w) * (ParseRunTimes(runTimes).value as real)
  {
  }

  /**
   * As written, a negative stake passes the checks (only positive stakes are validated) and
   * lowers the total debited, while the payout map records the positive stakes only.
   */
  lemma NegativeStakeAccepted(out: Outcome, odds: Odds)
    ensures var w := Wager(10.0, 0.0, -5.0, 0.0);
      CheckWager(w, "", Ok(100.0)) == Ok(Plan(5.0, 1)) &&
      StakeTotal(WagerPayouts(w, out, odds)) == 10.0
  {
  }

  /** Corrected checks: every stake other than 0 must be a valid amount, so negative stakes are refused. */
  function CheckWagerStrict(w: Wager, runTimes: string, balance: Result<real, string>): (r: Result<Plan, Rejection>)
    ensures r.Ok? ==> w.player >= 0.0 && w.banker >= 0.0 && w.tie >= 0.0 && w.luckySix >= 0.0
  {
    if w.player < 0.0 then Err(InvalidStake("player"))
    else if w.banker < 0.0 then Err(InvalidStake("banker"))
    else if w.tie < 0.0 then Err(InvalidStake("tie"))
    else if w.luckySix < 0.0 then Err(InvalidStake("luckySix"))
    else CheckWager(w, runTimes, balance)
  }

  /** Corrected: the total debited per run is exactly the sum of the stakes the payout map records. */
  lemma StrictDebitIsRecordedStake(w: Wager, runTimes: string, balance: Result<real, string>, out: Outcome, odds: Odds)
    requires CheckWagerStrict(w, runTimes, balance).Ok?
    ensures CheckWagerStrict(w, runTimes, balance).value.totalBet == StakeTotal(WagerPayouts(w, out, odds))
    ensures CheckWagerStrict(w, runTimes, balance) == CheckWager(w, runTimes, balance)
  {
    StakeEntriesArePositiveStakes(w, out, odds);
  }

  /** The outcome a finished game reports to the payout rules. */
  function OutcomeOf(g: ProductionGame.State): Outcome {
    Outcome(g.winner, g.luckySix, g.sixType)
  }

  /** The bet rows saveBets writes: one per positive stake, in the order player, banker, tie, luckySix. */
  function BetRows(userID: int, gameID: string, w: Wager): (rows: seq<Ledger.BetRow>)
    ensures |rows| <= 4
    ensures forall k :: 0 <= k < |rows| ==> rows[k].userID == userID && rows[k].gameID == gameID && rows[k].amount > 0.0
  {
    RowIf(w.player > 0.0, Ledger.BetRow(userID, gameID, w.player, "player")) +
    RowIf(w.banker > 0.0, Ledger.BetRow(userID, gameID, w.banker, "banker")) +
    RowIf(w.tie > 0.0, Ledger.BetRow(userID, gameID, w.tie, "tie")) +
    RowIf(w.luckySix > 0.0, Ledger.BetRow(userID, gameID, w.luckySix, "luckySix"))
  }

  function RowIf(present: bool, row: Ledger.BetRow): seq<Ledger.BetRow> {
    if present then [row] else []
  }

  /**
   * One `if stake > 0 { SaveBet }` of saveBets: `done` are the rows written so far, all of whose
   * statements succeeded; the row is written when present and its statement succeeds.
   */
  method SaveIf(tx: Ledger.Tx, present: bool, row: Ledger.BetRow, errs: seq<Option<string>>, k: nat,
                ghost start: Ledger.Tables, ghost done: seq<Ledger.BetRow>)
    returns (err: Option<string>, next: nat)
    requires k == |done| && tx.staged == start.(bets := start.bets + done)
    requires forall j :: 0 <= j < k ==> Ledger.ErrAt(errs, j).None?
    modifies tx
    ensures err.Some? ==> present && err == Ledger.ErrAt(errs, k) && next == k && tx.staged == old(tx.staged)
    ensures err.None? ==> (next == |done + RowIf(present, row)| &&
      tx.staged == start.(bets := start.bets + (done + RowIf(present, row))) &&
      forall j :: 0 <= j < next ==> Ledger.ErrAt(errs, j).None?)
  {
    next := k;
    err := None;
    if present {
      err := tx.SaveBet(row.userID, row.gameID, row.amount, row.betType, Ledger.ErrAt(errs, k));
      if err.None? {
        assert start.bets + done + [row] == start.bets + (done + [row]);
        next := k + 1;
      }
    } else {
      assert done + [] == done;
    }
  }

  /**
   * saveBets: a SaveBet per positive stake, in order, stopping at the first error. The k-th
   * statement meets errs[k]. The staged bets grow by the rows written before the error.
   */
  method SaveBets(tx: Ledger.Tx, userID: int, gameID: string, w: Wager, errs: seq<Option<string>>)
    returns (err: Option<string>)
    modifies tx
    ensures var rows := BetRows(userID, gameID, w);
      var n := Ledger.Succeeding(errs, |rows|);
      tx.staged == old(tx.staged).(bets := old(tx.staged).bets + rows[..n]) &&
      (err.None? <==> n == |rows|) && (err.Some? ==> err == Ledger.ErrAt(errs, n))
  {
    var b1 := Ledger.BetRow(userID, gameID, w.player, "player");
    var b2 := Ledger.BetRow(userID, gameID, w.banker, "banker");
    var b3 := Ledger.BetRow(userID, gameID, w.tie, "tie");
    var b4 := Ledger.BetRow(userID, gameID, w.luckySix, "luckySix");
    ghost var r1, r2, r3, r4 := RowIf(w.player > 0.0, b1), RowIf(w.banker > 0.0, b2), RowIf(w.tie > 0.0, b3), RowIf(w.luckySix > 0.0, b4);
    ghost var rows := BetRows(userID, gameID, w);
    assert rows == r1 + r2 + r3 + r4;
    ghost var start := tx.staged;
    assert start == start.(bets := start.bets + []);
    var k := 0;
    err, k := SaveIf(tx, w.player > 0.0, b1, errs, k, start, []);
    if err.Some? {
      Ledger.SucceedingUnique(errs, |rows|, k);
      assert rows[..k] == [];
      return;
    }
    assert [] + r1 == r1;
    err, k := SaveIf(tx, w.banker > 0.0, b2, errs, k, start, r1);
    if err.Some? {
      Ledger.SucceedingUnique(errs, |rows|, k);
      assert rows[..k] == r1;
      return;
    }
    err, k := SaveIf(tx, w.tie > 0.0, b3, errs, k, start, r1 + r2);
    if err.Some? {
      Ledger.SucceedingUnique(errs, |rows|, k);
      assert rows[..k] == r1 + r2;
      return;
    }
    err, k := SaveIf(tx, w.luckySix > 0.0, b4, errs, k, start, r1 + r2 + r3);
    if err.Some? {
      Ledger.SucceedingUnique(errs, |rows|, k);
      assert rows[..k] == r1 + r2 + r3;
      return;
    }
    assert rows[..k] == rows;
    Ledger.SucceedingUnique(errs, |rows|, k);
  }

  /** The arguments saveGameRecord hands to the database: the game's columns and the payout map. */
  datatype RecordArgs = RecordArgs(
    gameID: string,
    playerInitialCards: string,
    bankerInitialCards: string,
    playerThirdCard: Option<string>,
    bankerThirdCard: Option<string>,
    playerScore: int,
    bankerScore: int,
    winner: string,
    isLuckySix: bool,
    luckySixType: Option<string>,
    payouts: Sheet)

  /** A finished game whose cards can be written out: two cards a side at least, all in range. */
  predicate Printable(g: ProductionGame.State) {
    |g.player| >= 2 && |g.banker| >= 2 && CardFormat.AllInRange(g.player) && CardFormat.AllInRange(g.banker)
  }

  /** The third-card column: the card's text when the hand has a third card, else NULL. */
  function ThirdCard(hand: seq<Card>): (t: Option<string>)
    requires CardFormat.AllInRange(hand)
    ensures t.Some? <==> |hand| > 2
  {
    if |hand| > 2 then Some(CardFormat.FormatCard(hand[2])) else None
  }

  /** The columns saveGameRecord computes from a game: the Lucky-Six type is NULL unless the round is a Lucky Six. */
  function GameRecordArgs(g: ProductionGame.State, gameID: string, payouts: Sheet): (a: RecordArgs)
    requires Printable(g)
    ensures a.playerThirdCard.Some? <==> |g.player| > 2
    ensures a.bankerThirdCard.Some? <==> |g.banker| > 2
    ensures a.luckySixType.Some? <==> g.luckySix
  {
    RecordArgs(gameID,
      CardFormat.FormatCardsToString(CardFormat.FormatAll(g.player[..2])),
      CardFormat.FormatCardsToString(CardFormat.FormatAll(g.banker[..2])),
      ThirdCard(g.player), ThirdCard(g.banker), g.playerScore, g.bankerScore, WinnerName(g.winner),
      g.luckySix, if g.luckySix then Some(SixTypeName(g.sixType)) else None, payouts)
  }

  /** The record's card columns read back as the dealt cards: the initial pairs and each third card. */
  lemma RecordReadsBack(g: ProductionGame.State, gameID: string, payouts: Sheet)
    requires Printable(g)
    ensures var a := GameRecordArgs(g, gameID, payouts);
      var ps := Text.Split(a.playerInitialCards, ',');
      var bs := Text.Split(a.bankerInitialCards, ',');
      |ps| == 2 && CardFormat.ParseCard(ps[0]) == Some(g.player[0]) && CardFormat.ParseCard(ps[1]) == Some(g.player[1]) &&
      |bs| == 2 && CardFormat.ParseCard(bs[0]) == Some(g.banker[0]) && CardFormat.ParseCard(bs[1]) == Some(g.banker[1]) &&
      (a.playerThirdCard.Some? ==> CardFormat.ParseCard(a.playerThirdCard.value) == Some(g.player[2])) &&
      (a.bankerThirdCard.Some? ==> CardFormat.ParseCard(a.bankerThirdCard.value) == Some(g.banker[2]))
  {
    CardFormat.HandTextRoundTrip(g.player[..2]);
    CardFormat.HandTextRoundTrip(g.banker[..2]);
    if |g.player| > 2 { CardFormat.ParseFormat(g.player[2]); }
    if |g.banker| > 2 { CardFormat.ParseFormat(g.banker[2]); }
  }

  /**
   * saveGameRecord as far as the handler decides it: the columns built with formatCards and
   * formatCardsToString, and the database's answer, an input.
   */
  method SaveGameRecord(g: ProductionGame.Game, gameID: string, payouts: Sheet, saveErr: Option<string>)
    returns (args: RecordArgs, err: Option<string>)
    requires Printable(g.Snapshot())
    ensures args == GameRecordArgs(g.Snapshot(), gameID, payouts) && err == saveErr
  {
    var playerInitial := CardFormat.FormatCards(g.playerHand[..2]);
    var bankerInitial := CardFormat.FormatCards(g.bankerHand[..2]);
    var playerThird: Option<string> := None;
    var bankerThird: Option<string> := None;
    if |g.playerHand| > 2 {
      playerThird := Some(CardFormat.FormatCard(g.playerHand[2]));
    }
    if |g.bankerHand| > 2 {
      bankerThird := Some(CardFormat.FormatCard(g.bankerHand[2]));
    }
    var luckySixType: Option<string> := None;
    if g.isLuckySix {
      luckySixType := Some(SixTypeName(g.luckySixType));
    }
    args := RecordArgs(gameID, CardFormat.FormatCardsToString(playerInitial), CardFormat.FormatCardsToString(bankerInitial),
                       playerThird, bankerThird, g.playerScore, g.bankerScore, WinnerName(g.winner),
                       g.isLuckySix, luckySixType, payouts);
    err := saveErr;
  }

  /** The errors the statements of one run meet; each is an input. */
  datatype RoundFaults = RoundFaults(
    begin: Option<string>,
    debit: Option<string>,
    credit: Option<string>,
    saveRecord: Option<string>,
    saveBets: seq<Option<string>>,
    commit: Option<string>)

  const NoFaults: RoundFaults := RoundFaults(None, None, None, None, [], None)

  predicate FaultFree(f: RoundFaults) {
    f.begin.None? && f.debit.None? && f.credit.None? && f.saveRecord.None? && f.commit.None? &&
    forall k :: 0 <= k < |f.saveBets| ==> f.saveBets[k].None?
  }

  /** What one successful run reports: the game, its cards as text, the payout map and the credited total. */
  datatype RoundReport = RoundReport(
    gameID: string,
    deck: seq<Card>,
    game: ProductionGame.State,
    playerCards: seq<string>,
    bankerCards: seq<string>,
    payouts: Sheet,
    totalBet: real,
    totalPayout: real,
    record: RecordArgs)

  /** A deck as NewGame leaves it: some order of the 52 cards. */
  predicate Shuffled(deck: seq<Card>) {
    |deck| == 52 && multiset(deck) == multiset(Shoe.StandardDeck())
  }

  /** A shuffled deck always completes a round, and its hands can be written out. */
  lemma ShuffledRoundPrintable(deck: seq<Card>)
    requires Shuffled(deck)
    ensures ProductionGame.PlayReady(deck) && Printable(ProductionGame.Round(deck))
  {
    ProductionGame.SixCardsSuffice(deck);
    Shoe.ShuffledInRange(deck);
    ProductionGame.RoundDeal(deck);
    ProductionGame.RoundHandsFromDeck(deck);
    var r := ProductionGame.Round(deck);
    forall k | 0 <= k < |r.player| ensures Shoe.InRange(r.player[k]) {
      var j :| 0 <= j < |deck| && deck[j] == r.player[k];
    }
    forall k | 0 <= k < |r.banker| ensures Shoe.InRange(r.banker[k]) {
      var j :| 0 <= j < |deck| && deck[j] == r.banker[k];
    }
  }

  /**
   * The report of a run on a shuffled deck: the production engine's round, its cards as text,
   * the payout map and credit the payout rules give, and the record saveGameRecord writes.
   */
  function ReportOf(gameID: string, deck: seq<Card>, w: Wager, totalBet: real, odds: Odds): (rep: RoundReport)
    requires Shuffled(deck)
    ensures ProductionGame.PlayReady(deck) && rep.game == ProductionGame.Round(deck) && Printable(rep.game)
    ensures rep.gameID == gameID && rep.deck == deck && rep.totalBet == totalBet
  {
    ShuffledRoundPrintable(deck);
    var game := ProductionGame.Round(deck);
    var payouts := WagerPayouts(w, OutcomeOf(game), odds);
    RoundReport(gameID, deck, game, CardFormat.FormatAll(game.player), CardFormat.FormatAll(game.banker),
                payouts, totalBet, WagerCredit(w, OutcomeOf(game), odds), GameRecordArgs(game, gameID, payouts))
  }

  /** A report of a run played on a shuffled deck and settled by the rules. */
  predicate Reported(rep: RoundReport, w: Wager, totalBet: real, odds: Odds) {
    Shuffled(rep.deck) && rep == ReportOf(rep.gameID, rep.deck, w, totalBet, odds)
  }

  /** The tables after a committed run: the stake debited, the payout credited when positive, the bets added. */
  function Settled(t: Ledger.Tables, userID: int, rep: RoundReport, w: Wager): Ledger.Tables {
    var debited := Ledger.AddToBalance(t, userID, -rep.totalBet);
    var credited := if rep.totalPayout > 0.0 then Ledger.AddToBalance(debited, userID, rep.totalPayout) else debited;
    credited.(bets := credited.bets + BetRows(userID, rep.gameID, w))
  }

  /** A committed run moves the player's balance by minus the stake plus the positive part of the payout. */
  lemma SettledBalance(t: Ledger.Tables, userID: int, rep: RoundReport, w: Wager)
    requires userID in t.balances
    ensures var s := Settled(t, userID, rep, w);
      s.balances.Keys == t.balances.Keys && s.games == t.games &&
      s.balances[userID] == t.balances[userID] - rep.totalBet + Positive(rep.totalPayout) &&
      forall u :: u in t.balances && u != userID ==> s.balances[u] == t.balances[u]
  {
  }

  /** Settled is the debit, then the credit of a positive payout, then the appended bet rows. */
  lemma SettledSteps(t: Ledger.Tables, userID: int, rep: RoundReport, w: Wager, debited: Ledger.Tables, credited: Ledger.Tables)
    requires debited == Ledger.AddToBalance(t, userID, -rep.totalBet)
    requires credited == if rep.totalPayout > 0.0 then Ledger.AddToBalance(debited, userID, rep.totalPayout) else debited
    ensures Settled(t, userID, rep, w) == credited.(bets := credited.bets + BetRows(userID, rep.gameID, w))
  {
  }

  /** A committed run keeps the game records and appends the run's bet rows. */
  lemma SettledRows(t: Ledger.Tables, userID: int, rep: RoundReport, w: Wager)
    ensures Settled(t, userID, rep, w).games == t.games
    ensures Settled(t, userID, rep, w).bets == t.bets + BetRows(userID, rep.gameID, w)
  {
  }

  /** NewGame, Deal, DealThirdCard, DetermineWinner: a fresh game played on its own shuffled deck. */
  method PlayEngine() returns (g: ProductionGame.Game, deck: seq<Card>)
    ensures fresh(g) && Shuffled(deck) && g.Snapshot() == ProductionGame.Round(deck)
    ensures ProductionGame.PlayReady(deck) && Printable(g.Snapshot())
  {
    g := new ProductionGame.Game.NewGame();
    deck := g.deck;
    ShuffledRoundPrintable(deck);
    ProductionGame.DealFromStart(deck);
    g.Deal();
    g.DealThirdCard();
    g.DetermineWinner();
  }

  /** The statements inside one run's transaction never fail. */
  predicate BodyFaultFree(f: RoundFaults) {
    f.debit.None? && f.credit.None? && f.saveRecord.None? &&
    forall k :: 0 <= k < |f.saveBets| ==> f.saveBets[k].None?
  }

  /** Play a fresh game and price it: calculatePayouts and calculateTotalPayout on its outcome. */
  method PlayAndPrice(w: Wager, odds: Odds) returns (g: ProductionGame.Game, deck: seq<Card>, payouts: Sheet, totalPayout: real)
    ensures fresh(g) && Shuffled(deck) && g.Snapshot() == ProductionGame.Round(deck) && Printable(g.Snapshot())
    ensures payouts == WagerPayouts(w, OutcomeOf(g.Snapshot()), odds)
    ensures totalPayout == WagerCredit(w, OutcomeOf(g.Snapshot()), odds)
  {
    g, deck := PlayEngine();
    var out := Outcome(g.winner, g.isLuckySix, g.luckySixType);
    payouts := BuildPayouts(w, out, odds);
    totalPayout := TotalPayout(payouts);
    TotalIsWagerCredit(w, out, odds);
  }

  /** The result of one run as the response lists it, with the cards written by formatCards. */
  method MakeReport(g: ProductionGame.Game, deck: seq<Card>, gameID: string, w: Wager, totalBet: real, odds: Odds,
                    payouts: Sheet, totalPayout: real, record: RecordArgs)
    returns (rep: RoundReport)
    requires Shuffled(deck) && g.Snapshot() == ProductionGame.Round(deck) && Printable(g.Snapshot())
    requires payouts == WagerPayouts(w, OutcomeOf(g.Snapshot()), odds)
    requires totalPayout == WagerCredit(w, OutcomeOf(g.Snapshot()), odds)
    requires record == GameRecordArgs(g.Snapshot(), gameID, payouts)
    ensures rep == ReportOf(gameID, deck, w, totalBet, odds)
    ensures rep.gameID == gameID && rep.totalBet == totalBet && rep.totalPayout == totalPayout
  {
    var playerCards := CardFormat.FormatCards(g.playerHand);
    var bankerCards := CardFormat.FormatCards(g.bankerHand);
    rep := RoundReport(gameID, deck, g.Snapshot(), playerCards, bankerCards, payouts, totalBet, totalPayout, record);
  }

  /** The two saves at the end of a run's transaction: the game record, then the bets; the first error is returned. */
  method SaveRound(tx: Ledger.Tx, userID: int, gameID: string, w: Wager, g: ProductionGame.Game, payouts: Sheet, f: RoundFaults)
    returns (record: RecordArgs, err: Option<string>)
    modifies tx
    requires Printable(g.Snapshot())
    ensures BodyFaultFree(f) ==> err.None?
    ensures err.None? ==> (record == GameRecordArgs(g.Snapshot(), gameID, payouts) &&
                           tx.staged == old(tx.staged).(bets := old(tx.staged).bets + BetRows(userID, gameID, w)))
  {
    var recordErr;
    record, recordErr := SaveGameRecord(g, gameID, payouts, f.saveRecord);
    if recordErr.Some? {
      return record, recordErr;
    }
    err := SaveBets(tx, userID, gameID, w, f.saveBets);
    if err.None? {
      assert BetRows(userID, gameID, w)[..|BetRows(userID, gameID, w)|] == BetRows(userID, gameID, w);
    }
  }

  /**
   * The function one run hands to db.Transaction: debit, play, compute the payouts, credit a
   * positive total, save the record and the bets; the first failing statement's error is returned.
   */
  method RoundBody(tx: Ledger.Tx, userID: int, w: Wager, totalBet: real, gameID: string, odds: Odds, f: RoundFaults)
    returns (r: Result<RoundReport, string>)
    modifies tx
    ensures BodyFaultFree(f) ==> r.Ok?
    ensures r.Ok? ==> (r.value.gameID == gameID && Reported(r.value, w, totalBet, odds) &&
      tx.staged == Settled(old(tx.staged), userID, r.value, w))
  {
    ghost var start := tx.staged;
    var e := tx.UpdateUserBalance(userID, -totalBet, f.debit);
    if e.Some? {
      return Err(e.value);
    }
    ghost var debited := tx.staged;
    assert debited == Ledger.AddToBalance(start, userID, -totalBet);
    var g, deck, payouts, totalPayout := PlayAndPrice(w, odds);
    if totalPayout > 0.0 {
      e := tx.UpdateUserBalance(userID, totalPayout, f.credit);
      if e.Some? {
        return Err(e.value);
      }
    }
    ghost var credited := tx.staged;
    assert credited == if totalPayout > 0.0 then Ledger.AddToBalance(debited, userID, totalPayout) else debited;
    var record;
    record, e := SaveRound(tx, userID, gameID, w, g, payouts, f);
    if e.Some? {
      return Err(e.value);
    }
    var rep := MakeReport(g, deck, gameID, w, totalBet, odds, payouts, totalPayout, record);
    SettledSteps(start, userID, rep, w, debited, credited);
    return Ok(rep);
  }

  /**
   * One run of the loop: db.Transaction around the body. A failure anywhere rolls the run back
   * and is returned; otherwise the run is committed.
   */
  method PlayRound(db: Ledger.Database, userID: int, w: Wager, totalBet: real, gameID: string, odds: Odds, f: RoundFaults)
    returns (r: Result<RoundReport, string>)
    modifies db
    ensures r.Err? ==> db.tables == old(db.tables)
    ensures FaultFree(f) ==> r.Ok?
    ensures r.Ok? ==> (r.value.gameID == gameID && Reported(r.value, w, totalBet, odds) &&
      db.tables == Settled(old(db.tables), userID, r.value, w))
  {
    var begun := db.Begin(f.begin);
    if begun.Err? {
      return Err(begun.error);
    }
    var tx := begun.value;
    var body := RoundBody(tx, userID, w, totalBet, gameID, odds, f);
    if body.Err? {
      var _ := Ledger.Conclude(tx, Ledger.Returned(Some(body.error)), f.commit);
      return Err(body.error);
    }
    var done := Ledger.Conclude(tx, Ledger.Returned(None), f.commit);
    if done.err.Some? {
      return Err(done.err.value);
    }
    return body;
  }

  /** The tables after the given runs were committed one after another. */
  function ApplyRounds(t: Ledger.Tables, userID: int, w: Wager, reps: seq<RoundReport>): Ledger.Tables
    decreases |reps|
  {
    if reps == [] then t
    else Settled(ApplyRounds(t, userID, w, reps[..|reps| - 1]), userID, reps[|reps| - 1], w)
  }

  /** What the given runs took from and gave back to the player: the positive payouts less the stakes. */
  function NetChange(reps: seq<RoundReport>): real
    decreases |reps|
  {
    if reps == [] then 0.0
    else NetChange(reps[..|reps| - 1]) + Positive(reps[|reps| - 1].totalPayout) - reps[|reps| - 1].totalBet
  }

  /** The bet rows the given runs add, run after run. */
  function RoundsBetRows(userID: int, w: Wager, reps: seq<RoundReport>): seq<Ledger.BetRow>
    decreases |reps|
  {
    if reps == [] then []
    else RoundsBetRows(userID, w, reps[..|reps| - 1]) + BetRows(userID, reps[|reps| - 1].gameID, w)
  }

  /** Committed runs move only the player's balance, by their net change, and keep every other balance. */
  lemma {:induction false} ApplyRoundsBalance(t: Ledger.Tables, userID: int, w: Wager, reps: seq<RoundReport>)
    requires userID in t.balances
    ensures ApplyRounds(t, userID, w, reps).balances.Keys == t.balances.Keys
    ensures ApplyRounds(t, userID, w, reps).balances[userID] == t.balances[userID] + NetChange(reps)
    ensures forall u :: u in t.balances && u != userID ==> ApplyRounds(t, userID, w, reps).balances[u] == t.balances[u]
  {
    if reps != [] {
      var prefix := reps[..|reps| - 1];
      var before := ApplyRounds(t, userID, w, prefix);
      ApplyRoundsBalance(t, userID, w, prefix);
      SettledBalance(before, userID, reps[|reps| - 1], w);
      assert ApplyRounds(t, userID, w, reps) == Settled(before, userID, reps[|reps| - 1], w);
    }
  }

  /** Committed runs keep the game records and append their bet rows in order. */
  lemma {:induction false} ApplyRoundsRows(t: Ledger.Tables, userID: int, w: Wager, reps: seq<RoundReport>)
    ensures ApplyRounds(t, userID, w, reps).games == t.games
    ensures ApplyRounds(t, userID, w, reps).bets == t.bets + RoundsBetRows(userID, w, reps)
  {
    if reps != [] {
      var prefix := reps[..|reps| - 1];
      ApplyRoundsRows(t, userID, w, prefix);
      var before := ApplyRounds(t, userID, w, prefix);
      var last := BetRows(userID, reps[|reps| - 1].gameID, w);
      SettledRows(before, userID, reps[|reps| - 1], w);
      assert ApplyRounds(t, userID, w, reps) == Settled(before, userID, reps[|reps| - 1], w);
      assert RoundsBetRows(userID, w, reps) == RoundsBetRows(userID, w, prefix) + last;
      assert t.bets + RoundsBetRows(userID, w, prefix) + last == t.bets + RoundsBetRows(userID, w, reps);
    }
  }

  /** uuid.New for the k-th run, an input. */
  function GameIDAt(ids: seq<string>, k: nat): string {
    if k < |ids| then ids[k] else ""
  }

  /** The statement errors of the k-th run, an input. */
  function FaultsAt(faults: seq<RoundFaults>, k: nat): RoundFaults {
    if k < |faults| then faults[k] else NoFaults
  }

  /** Every report is a run played and settled as the rules say, under its own id. */
  predicate Played(reps: seq<RoundReport>, w: Wager, totalBet: real, odds: Odds, gameIDs: seq<string>) {
    forall k :: 0 <= k < |reps| ==> Reported(reps[k], w, totalBet, odds) && reps[k].gameID == GameIDAt(gameIDs, k)
  }

  /** How a play request fails: refused before any run, or a run that failed after `committed` runs went through. */
  datatype PlayError = Rejected(reason: Rejection) | RoundFailed(committed: seq<RoundReport>, message: string)

  /** One more reported run, under the next id, keeps the runs played. */
  lemma PlayedSnoc(reps: seq<RoundReport>, rep: RoundReport, w: Wager, totalBet: real, odds: Odds, gameIDs: seq<string>)
    requires Played(reps, w, totalBet, odds, gameIDs)
    requires Reported(rep, w, totalBet, odds) && rep.gameID == GameIDAt(gameIDs, |reps|)
    ensures Played(reps + [rep], w, totalBet, odds, gameIDs)
  {
    var all := reps + [rep];
    forall k | 0 <= k < |all| ensures Reported(all[k], w, totalBet, odds) && all[k].gameID == GameIDAt(gameIDs, k) {
      if k < |reps| { assert all[k] == reps[k]; }
    }
  }

  /** Committing one more run settles it on top of the earlier runs. */
  lemma ApplyRoundsSnoc(t: Ledger.Tables, userID: int, w: Wager, reps: seq<RoundReport>, rep: RoundReport)
    ensures ApplyRounds(t, userID, w, reps + [rep]) == Settled(ApplyRounds(t, userID, w, reps), userID, rep, w)
  {
    assert (reps + [rep])[..|reps|] == reps;
  }

  /**
   * The run loop of PlayGame for an accepted plan: plan.runs runs, each in its own transaction;
   * the first failing run ends the loop and leaves the earlier runs committed.
   */
  method RunRounds(db: Ledger.Database, userID: int, w: Wager, plan: Plan, odds: Odds,
                   gameIDs: seq<string>, faults: seq<RoundFaults>)
    returns (r: Result<seq<RoundReport>, PlayError>)
    modifies db
    ensures r.Ok? ==> (|r.value| == plan.runs && Played(r.value, w, plan.totalBet, odds, gameIDs) &&
      db.tables == ApplyRounds(old(db.tables), userID, w, r.value))
    ensures r.Err? ==> (r.error.RoundFailed? && |r.error.committed| < plan.runs &&
      Played(r.error.committed, w, plan.totalBet, odds, gameIDs) &&
      db.tables == ApplyRounds(old(db.tables), userID, w, r.error.committed))
    ensures (forall k :: 0 <= k < plan.runs ==> FaultFree(FaultsAt(faults, k))) ==> r.Ok?
  {
    var results: seq<RoundReport> := [];
    var i := 0;
    while i < plan.runs
      invariant 0 <= i <= plan.runs && |results| == i
      invariant Played(results, w, plan.totalBet, odds, gameIDs)
      invariant db.tables == ApplyRounds(old(db.tables), userID, w, results)
    {
      var round := PlayRound(db, userID, w, plan.totalBet, GameIDAt(gameIDs, i), odds, FaultsAt(faults, i));
      if round.Err? {
        return Err(RoundFailed(results, round.error));
      }
      PlayedSnoc(results, round.value, w, plan.totalBet, odds, gameIDs);
      ApplyRoundsSnoc(old(db.tables), userID, w, results, round.value);
      results := results + [round.value];
      i := i + 1;
    }
    return Ok(results);
  }

  /**
   * PlayGame: the checks, then the run loop. A refused request changes nothing; otherwise the
   * loop's outcome is the request's.
   */
  method PlayGame(db: Ledger.Database, userID: int, w: Wager, runTimes: string, balance: Result<real, string>,
                  odds: Odds, gameIDs: seq<string>, faults: seq<RoundFaults>)
    returns (r: Result<seq<RoundReport>, PlayError>)
    modifies db
    ensures CheckWager(w, runTimes, balance).Err? ==>
      r == Err(Rejected(CheckWager(w, runTimes, balance).error)) && db.tables == old(db.tables)
    ensures CheckWager(w, runTimes, balance).Ok? ==> var plan := CheckWager(w, runTimes, balance).value;
      (r.Ok? ==> (|r.value| == plan.runs && Played(r.value, w, plan.totalBet, odds, gameIDs) &&
        db.tables == ApplyRounds(old(db.tables), userID, w, r.value))) &&
      (r.Err? ==> (r.error.RoundFailed? && |r.error.committed| < plan.runs &&
        Played(r.error.committed, w, plan.totalBet, odds, gameIDs) &&
        db.tables == ApplyRounds(old(db.tables), userID, w, r.error.committed))) &&
      ((forall k :: 0 <= k < plan.runs ==> FaultFree(FaultsAt(faults, k))) ==> r.Ok?)
  {
    var checked := CheckWager(w, runTimes, balance);
    if checked.Err? {
      return Err(Rejected(checked.error));
    }
    r := RunRounds(db, userID, w, checked.value, odds, gameIDs, faults);
  }

  /**
   * GetGameDetails on a committed run reads back what the run recorded: the user's bets of the
   * game add up to the record's total bets and their payouts to its total payouts.
   */
  lemma DetailsMatchRecord(userID: int, gameID: string, w: Wager, out: Outcome, odds: Odds,
                           balances: map<int, real>, f: Ledger.RecordFields)
    requires userID in balances && f.gameID == gameID
    ensures var p := WagerPayouts(w, out, odds);
      var d := Ledger.GameBets(BetRows(userID, gameID, w), balances, Ledger.RecordRow(f, p));
      Ledger.SumAmounts(d) == StakeTotal(p) && Ledger.SumPayouts(d) == WinTotal(p)
  {
    DetailsMatchSheet(userID, gameID, w, WagerPayouts(w, out, odds), balances, f);
  }

  /** A payout map that records each positive stake and pays only positive stakes. */
  predicate StakesRecorded(w: Wager, p: Sheet) {
    p.playerBet == EntryIf(w.player > 0.0, w.player) && (w.player <= 0.0 ==> p.player.None?) &&
    p.bankerBet == EntryIf(w.banker > 0.0, w.banker) && (w.banker <= 0.0 ==> p.banker.None?) &&
    p.tieBet == EntryIf(w.tie > 0.0, w.tie) && (w.tie <= 0.0 ==> p.tie.None?) &&
    p.luckySixBet == EntryIf(w.luckySix > 0.0, w.luckySix) && (w.luckySix <= 0.0 ==> p.luckySix.None?)
  }

  /** The detail totals match the record for any payout map that records the stakes as saveBets does. */
  lemma DetailsMatchSheet(userID: int, gameID: string, w: Wager, p: Sheet, balances: map<int, real>, f: Ledger.RecordFields)
    requires userID in balances && f.gameID == gameID && StakesRecorded(w, p)
    ensures var d := Ledger.GameBets(BetRows(userID, gameID, w), balances, Ledger.RecordRow(f, p));
      Ledger.SumAmounts(d) == StakeTotal(p) && Ledger.SumPayouts(d) == WinTotal(p)
  {
    var g := Ledger.RecordRow(f, p);
    var b1 := Ledger.BetRow(userID, gameID, w.player, "player");
    var b2 := Ledger.BetRow(userID, gameID, w.banker, "banker");
    var b3 := Ledger.BetRow(userID, gameID, w.tie, "tie");
    var b4 := Ledger.BetRow(userID, gameID, w.luckySix, "luckySix");
    var r1, r2, r3, r4 := RowIf(w.player > 0.0, b1), RowIf(w.banker > 0.0, b2), RowIf(w.tie > 0.0, b3), RowIf(w.luckySix > 0.0, b4);
    assert BetRows(userID, gameID, w) == r1 + r2 + r3 + r4;
    SplitSums(r1, r2, r3, r4, balances, g);
    RecordColumns(f, p);
    PieceSums(w.player > 0.0, b1, balances, g);
    PieceSums(w.banker > 0.0, b2, balances, g);
    PieceSums(w.tie > 0.0, b3, balances, g);
    PieceSums(w.luckySix > 0.0, b4, balances, g);
  }

  /** The record's payout columns, looked up by bet type, are the payout map's win entries. */
  lemma RecordColumns(f: Ledger.RecordFields, p: Sheet)
    ensures Ledger.PayoutFor(Ledger.RecordRow(f, p), "player") == p.player
    ensures Ledger.PayoutFor(Ledger.RecordRow(f, p), "banker") == p.banker
    ensures Ledger.PayoutFor(Ledger.RecordRow(f, p), "tie") == p.tie
    ensures Ledger.PayoutFor(Ledger.RecordRow(f, p), "luckySix") == p.luckySix
  {
    assert "banker" != "player";
    assert "tie" != "player" && "tie" != "banker";
    assert "luckySix" != "player" && "luckySix" != "banker" && "luckySix" != "tie";
  }

  /** The detail totals of four consecutive groups of bet rows add up group by group. */
  lemma SplitSums(r1: seq<Ledger.BetRow>, r2: seq<Ledger.BetRow>, r3: seq<Ledger.BetRow>, r4: seq<Ledger.BetRow>,
                  balances: map<int, real>, g: Ledger.GameRow)
    ensures var d := Ledger.GameBets(r1 + r2 + r3 + r4, balances, g);
      var d1, d2, d3, d4 := Ledger.GameBets(r1, balances, g), Ledger.GameBets(r2, balances, g),
                            Ledger.GameBets(r3, balances, g), Ledger.GameBets(r4, balances, g);
      Ledger.SumAmounts(d) == Ledger.SumAmounts(d1) + Ledger.SumAmounts(d2) + Ledger.SumAmounts(d3) + Ledger.SumAmounts(d4) &&
      Ledger.SumPayouts(d) == Ledger.SumPayouts(d1) + Ledger.SumPayouts(d2) + Ledger.SumPayouts(d3) + Ledger.SumPayouts(d4)
  {
    Ledger.GameBetsAppend(r1 + r2 + r3, r4, balances, g);
    Ledger.GameBetsAppend(r1 + r2, r3, balances, g);
    Ledger.GameBetsAppend(r1, r2, balances, g);
    var d1, d2, d3, d4 := Ledger.GameBets(r1, balances, g), Ledger.GameBets(r2, balances, g),
                          Ledger.GameBets(r3, balances, g), Ledger.GameBets(r4, balances, g);
    Ledger.SumsAppend(d1 + d2 + d3, d4);
    Ledger.SumsAppend(d1 + d2, d3);
    Ledger.SumsAppend(d1, d2);
  }

  /** One optional bet row of the game, read back through the join. */
  lemma PieceSums(present: bool, row: Ledger.BetRow, balances: map<int, real>, g: Ledger.GameRow)
    requires row.userID in balances && row.gameID == g.gameID
    ensures Ledger.SumAmounts(Ledger.GameBets(RowIf(present, row), balances, g)) == if present then row.amount else 0.0
    ensures Ledger.SumPayouts(Ledger.GameBets(RowIf(present, row), balances, g)) ==
      if present then Amount(Ledger.PayoutFor(g, row.betType)) else 0.0
  {
    if present {
      var d := Ledger.GameBets([row], balances, g);
      assert d == [Ledger.BetDetail(row.userID, row.betType, row.amount, Ledger.PayoutFor(g, row.betType))];
      assert d[..0] == [];
    }
  }
}
