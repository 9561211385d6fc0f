/**
 * The automatic lobby (AutoGameService in baccarat/game/auto_game.go): on each tick a round is
 * opened for betting, its betting window closes, the round is drawn, and inside one transaction
 * the result is written and every pending bet of the round is paid and marked completed.
 *
 * Clock values and durations are integers (nanoseconds); the round's result comes from a game
 * engine that is not part of this model and is an input, as are the statement errors.
 */
module Lobby {
  import opened Common
  import Ledger
  import Payouts
  import Rules

  /** game_status of an auto_game_records row. */
  datatype Status = Betting | Closed | Drawing | Completed

  /** The result of the engine the lobby plays, with the columns the lobby writes. */
  datatype GameResult = GameResult(
    playerInitialCards: string,
    bankerInitialCards: string,
    playerThirdCard: string,
    bankerThirdCard: string,
    playerFinalScore: int,
    bankerFinalScore: int,
    winner: string,
    isLuckySix: bool,
    luckySixType: string)

  /** A row of auto_game_records. */
  datatype LobbyRound = LobbyRound(gameID: string, bettingStart: int, bettingEnd: int, status: Status, result: Option<GameResult>)

  /** A row of auto_game_bets. */
  datatype LobbyBet = LobbyBet(id: int, userID: int, gameID: string, betType: string, amount: real, status: string)

  /** The tables the lobby reads and writes: users' balances, rounds and bets. */
  datatype LobbyTables = LobbyTables(balances: map<int, real>, rounds: seq<LobbyRound>, bets: seq<LobbyBet>)

  /** The odds processPayouts reads from the environment. */
  datatype LobbyOdds = LobbyOdds(player: real, banker: real, tie: real, luckySixTwoCards: real, luckySixThreeCards: real)

  /**
   * The lobby's payout of one bet: the stake times one plus the odds of the bet's kind when the
   * bet's outcome came up, for every kind (the tie included); 0 otherwise and for unknown kinds.
   */
  function BetPayout(bet: LobbyBet, result: GameResult, odds: LobbyOdds): real {
    if bet.betType == "Player" then
      (if result.winner == "Player" then Payouts.Pay(bet.amount, 1.0 + odds.player) else 0.0)
    else if bet.betType == "Banker" then
      (if result.winner == "Banker" then Payouts.Pay(bet.amount, 1.0 + odds.banker) else 0.0)
    else if bet.betType == "Tie" then
      (if result.winner == "Tie" then Payouts.Pay(bet.amount, 1.0 + odds.tie) else 0.0)
    else if bet.betType == "Lucky6" then
      (if !result.isLuckySix then 0.0
       else if result.luckySixType == "2cards" then Payouts.Pay(bet.amount, 1.0 + odds.luckySixTwoCards)
       else Payouts.Pay(bet.amount, 1.0 + odds.luckySixThreeCards))
    else 0.0
  }

  /** Whether the outcome a bet kind backs came up. */
  predicate Wins(betType: string, result: GameResult) {
    (betType == "Player" && result.winner == "Player") ||
    (betType == "Banker" && result.winner == "Banker") ||
    (betType == "Tie" && result.winner == "Tie") ||
    (betType == "Lucky6" && result.isLuckySix)
  }

  /** A stake paid at one plus non-negative odds gets at least the stake back. */
  lemma PayIncludesStake(stake: real, odds: real)
    requires stake >= 0.0 && odds >= 0.0
    ensures Payouts.Pay(stake, 1.0 + odds) >= stake
  {
    assert stake * (1.0 + odds) == stake + stake * odds;
    assert stake * odds >= 0.0;
  }

  /**
   * Only a winning bet is paid, and with non-negative odds a winning bet gets at least its
   * stake back: the payout always includes the principal.
   */
  lemma PaidExactlyOnWin(bet: LobbyBet, result: GameResult, odds: LobbyOdds)
    ensures !Wins(bet.betType, result) ==> BetPayout(bet, result, odds) == 0.0
    ensures (Wins(bet.betType, result) && bet.amount >= 0.0 &&
             odds.player >= 0.0 && odds.banker >= 0.0 && odds.tie >= 0.0 &&
             odds.luckySixTwoCards >= 0.0 && odds.luckySixThreeCards >= 0.0) ==>
      BetPayout(bet, result, odds) >= bet.amount
  {
    if Wins(bet.betType, result) && bet.amount >= 0.0 {
      if bet.betType == "Player" && odds.player >= 0.0 { PayIncludesStake(bet.amount, odds.player); }
      if bet.betType == "Banker" && odds.banker >= 0.0 { PayIncludesStake(bet.amount, odds.banker); }
      if bet.betType == "Tie" && odds.tie >= 0.0 { PayIncludesStake(bet.amount, odds.tie); }
      if bet.betType == "Lucky6" {
        if odds.luckySixTwoCards >= 0.0 { PayIncludesStake(bet.amount, odds.luckySixTwoCards); }
        if odds.luckySixThreeCards >= 0.0 { PayIncludesStake(bet.amount, odds.luckySixThreeCards); }
      }
    }
  }

  /**
   * The lobby and the play handler disagree on a won tie: at the same tie odds the lobby pays
   * one stake more than the handler's tie entry, which holds no principal.
   */
  lemma TiePaysOneStakeMore(bet: LobbyBet, result: GameResult, odds: LobbyOdds, handlerOdds: Payouts.Odds)
    requires bet.betType == "Tie" && result.winner == "Tie" && bet.amount > 0.0 && handlerOdds.tie == odds.tie
    ensures var w := Payouts.Wager(0.0, 0.0, bet.amount, 0.0);
      var sheet := Payouts.WagerPayouts(w, Payouts.Outcome(Rules.Tie, false, Rules.NoSix), handlerOdds);
      sheet.tie.Some? && BetPayout(bet, result, odds) == sheet.tie.value + bet.amount
  {
    assert bet.amount * (1.0 + odds.tie) == bet.amount * odds.tie + bet.amount;
  }

  /** Unlike the play handler, the lobby pays a won banker bet at the full banker odds on a Lucky Six too. */
  lemma BankerIgnoresLuckySix(bet: LobbyBet, result: GameResult, odds: LobbyOdds)
    requires bet.betType == "Banker" && result.winner == "Banker"
    ensures BetPayout(bet, result, odds) == BetPayout(bet, result.(isLuckySix := false), odds)
    ensures BetPayout(bet, result, odds) == Payouts.Pay(bet.amount, 1.0 + odds.banker)
  {
  }

  /** The rows of the query: the round's bets still pending, in table order. */
  function Pending(bets: seq<LobbyBet>, gameID: string): (r: seq<LobbyBet>)
    ensures |r| <= |bets|
    ensures forall b :: b in r <==> b in bets && b.gameID == gameID && b.status == "pending"
  {
    if bets == [] then []
    else
      var rest := Pending(bets[..|bets| - 1], gameID);
      var b := bets[|bets| - 1];
      assert forall x :: x in bets <==> x in bets[..|bets| - 1] || x == b;
      if b.gameID == gameID && b.status == "pending" then rest + [b] else rest
  }

  /** UPDATE auto_game_bets SET status = 'completed' WHERE id = ? */
  function MarkCompleted(bets: seq<LobbyBet>, id: int): seq<LobbyBet> {
    seq(|bets|, k requires 0 <= k < |bets| => if bets[k].id == id then bets[k].(status := "completed") else bets[k])
  }

  /** One bet processed: its user credited when the payout is positive, then the bet marked completed. */
  function SettleOne(t: LobbyTables, bet: LobbyBet, result: GameResult, odds: LobbyOdds): LobbyTables {
    var payout := BetPayout(bet, result, odds);
    var credited := if payout > 0.0 then t.(balances := Ledger.Adjusted(t.balances, bet.userID, payout)) else t;
    credited.(bets := MarkCompleted(credited.bets, bet.id))
  }

  /** The given bets processed in order. */
  function SettleAll(t: LobbyTables, bets: seq<LobbyBet>, result: GameResult, odds: LobbyOdds): LobbyTables
    decreases |bets|
  {
    if bets == [] then t
    else SettleOne(SettleAll(t, bets[..|bets| - 1], result, odds), bets[|bets| - 1], result, odds)
  }

  /** What the given bets credit to one user: the positive payouts of that user's bets. */
  function Credits(bets: seq<LobbyBet>, userID: int, result: GameResult, odds: LobbyOdds): real
    decreases |bets|
  {
    if bets == [] then 0.0
    else
      var b := bets[|bets| - 1];
      Credits(bets[..|bets| - 1], userID, result, odds) +
      (if b.userID == userID then Payouts.Positive(BetPayout(b, result, odds)) else 0.0)
  }

  /** The ids of the given bets. */
  function Ids(bets: seq<LobbyBet>): set<int> {
    set b | b in bets :: b.id
  }

  /**
   * Processing bets moves each known user's balance by the positive payouts of that user's
   * bets, keeps the set of users and leaves the rounds alone.
   */
  lemma {:induction false} SettleAllBalances(t: LobbyTables, bets: seq<LobbyBet>, result: GameResult, odds: LobbyOdds)
    ensures SettleAll(t, bets, result, odds).balances.Keys == t.balances.Keys
    ensures SettleAll(t, bets, result, odds).rounds == t.rounds
    ensures forall u :: u in t.balances ==>
      SettleAll(t, bets, result, odds).balances[u] == t.balances[u] + Credits(bets, u, result, odds)
  {
    if bets != [] {
      var prefix := bets[..|bets| - 1];
      SettleAllBalances(t, prefix, result, odds);
    }
  }

  /** Processing bets marks completed exactly the bets whose ids were processed; nothing else changes. */
  lemma {:induction false} SettleAllMarks(t: LobbyTables, bets: seq<LobbyBet>, result: GameResult, odds: LobbyOdds)
    ensures |SettleAll(t, bets, result, odds).bets| == |t.bets|
    ensures forall k :: 0 <= k < |t.bets| ==>
      SettleAll(t, bets, result, odds).bets[k] ==
        if t.bets[k].id in Ids(bets) then t.bets[k].(status := "completed") else t.bets[k]
  {
    if bets != [] {
      var prefix := bets[..|bets| - 1];
      var last := bets[|bets| - 1];
      SettleAllMarks(t, prefix, result, odds);
      assert Ids(bets) == Ids(prefix) + {last.id} by {
        assert forall b :: b in bets <==> b in prefix || b == last;
      }
    }
  }

  /** After the round's pending bets are processed, none of the round's bets is still pending. */
  lemma NoPendingLeft(t: LobbyTables, gameID: string, result: GameResult, odds: LobbyOdds)
    ensures var s := SettleAll(t, Pending(t.bets, gameID), result, odds);
      |s.bets| == |t.bets| &&
      forall k :: 0 <= k < |s.bets| && s.bets[k].gameID == gameID ==> s.bets[k].status != "pending"
  {
    var rows := Pending(t.bets, gameID);
    SettleAllMarks(t, rows, result, odds);
    var s := SettleAll(t, rows, result, odds);
    forall k | 0 <= k < |s.bets| && s.bets[k].gameID == gameID ensures s.bets[k].status != "pending" {
      if t.bets[k].status == "pending" {
        assert t.bets[k] in rows;
      }
    }
  }

  /**
   * How many rows `for rows.Next()` yields: all of them, or, when the cursor fails after `stop`
   * rows, only those. Next then returns false as at the end, and rows.Err() is never read.
   */
  function RowsRead(rows: seq<LobbyBet>, stop: Option<nat>): (n: nat)
    ensures n <= |rows|
    ensures n < |rows| <==> stop.Some? && stop.value < |rows|
    ensures stop.Some? && stop.value < |rows| ==> n == stop.value
  {
    if stop.Some? && stop.value < |rows| then stop.value else |rows|
  }

  /** The cursor yields every pending row of the round. */
  predicate FullScan(bets: seq<LobbyBet>, gameID: string, stop: Option<nat>) {
    RowsRead(Pending(bets, gameID), stop) == |Pending(bets, gameID)|
  }

  /**
   * processPayouts: query the round's pending bets, then for each row the cursor yields pay it
   * and mark it completed. The query's error, one error per processed row (its scan, credit or
   * mark statement) and the row after which the cursor fails are inputs; the first error ends
   * the loop with that error, while a cursor failure ends it with success.
   */
  method ProcessPayouts(t: LobbyTables, gameID: string, result: GameResult, odds: LobbyOdds,
                        queryErr: Option<string>, rowErrs: seq<Option<string>>, stop: Option<nat>)
    returns (settled: LobbyTables, err: Option<string>)
    ensures err.None? <==> (queryErr.None? &&
      forall k :: 0 <= k < RowsRead(Pending(t.bets, gameID), stop) ==> Ledger.ErrAt(rowErrs, k).None?)
    ensures err.None? ==>
      settled == SettleAll(t, Pending(t.bets, gameID)[..RowsRead(Pending(t.bets, gameID), stop)], result, odds)
  {
    if queryErr.Some? {
      return t, queryErr;
    }
    var rows := Pending(t.bets, gameID);
    settled, err := SettleRows(t, rows[..RowsRead(rows, stop)], result, odds, rowErrs);
  }

  /** The row loop over the rows the cursor yields: each row settled in turn, until a row's statement fails. */
  method SettleRows(t: LobbyTables, rows: seq<LobbyBet>, result: GameResult, odds: LobbyOdds, rowErrs: seq<Option<string>>)
    returns (settled: LobbyTables, err: Option<string>)
    ensures err.None? <==> forall k :: 0 <= k < |rows| ==> Ledger.ErrAt(rowErrs, k).None?
    ensures err.None? ==> settled == SettleAll(t, rows, result, odds)
  {
    settled := t;
    var i := 0;
    while i < |rows|
      invariant 0 <= i <= |rows|
      invariant settled == SettleAll(t, rows[..i], result, odds)
      invariant forall k :: 0 <= k < i ==> Ledger.ErrAt(rowErrs, k).None?
    {
      if Ledger.ErrAt(rowErrs, i).Some? {
        return settled, Ledger.ErrAt(rowErrs, i);
      }
      ghost var prefix := rows[..i];
      settled := ProcessRow(settled, rows[i], result, odds);
      SettleAllSnoc(t, prefix, rows[i], result, odds);
      assert rows[..i + 1] == prefix + [rows[i]];
      i := i + 1;
    }
    assert rows[..i] == rows;
    err := None;
  }

  /** The body of the row loop: the user credited when the payout is positive, then the bet marked completed. */
  method ProcessRow(t: LobbyTables, bet: LobbyBet, result: GameResult, odds: LobbyOdds) returns (settled: LobbyTables)
    ensures settled == SettleOne(t, bet, result, odds)
  {
    settled := t;
    var payout := BetPayout(bet, result, odds);
    if payout > 0.0 {
      settled := settled.(balances := Ledger.Adjusted(settled.balances, bet.userID, payout));
    }
    settled := settled.(bets := MarkCompleted(settled.bets, bet.id));
  }

  /** Settling one more row settles the prefix and then that row. */
  lemma SettleAllSnoc(t: LobbyTables, prefix: seq<LobbyBet>, bet: LobbyBet, result: GameResult, odds: LobbyOdds)
    ensures SettleAll(t, prefix + [bet], result, odds) == SettleOne(SettleAll(t, prefix, result, odds), bet, result, odds)
  {
    assert (prefix + [bet])[..|prefix|] == prefix;
  }

  /** INSERT INTO auto_game_records: a new round in status betting. */
  function OpenRound(t: LobbyTables, gameID: string, start: int, end: int): LobbyTables {
    t.(rounds := t.rounds + [LobbyRound(gameID, start, end, Betting, None)])
  }

  /** UPDATE auto_game_records SET game_status = ? WHERE game_id = ? */
  function SetStatus(t: LobbyTables, gameID: string, status: Status): LobbyTables {
    t.(rounds := WithStatus(t.rounds, gameID, status))
  }

  function WithStatus(rounds: seq<LobbyRound>, gameID: string, status: Status): seq<LobbyRound> {
    seq(|rounds|, k requires 0 <= k < |rounds| =>
      if rounds[k].gameID == gameID then rounds[k].(status := status) else rounds[k])
  }

  /** The result UPDATE of drawGame: the result columns written and the status set to completed. */
  function RecordResult(t: LobbyTables, gameID: string, result: GameResult): LobbyTables {
    t.(rounds := WithResult(t.rounds, gameID, result))
  }

  function WithResult(rounds: seq<LobbyRound>, gameID: string, result: GameResult): seq<LobbyRound> {
    seq(|rounds|, k requires 0 <= k < |rounds| =>
      if rounds[k].gameID == gameID then rounds[k].(status := Completed, result := Some(result)) else rounds[k])
  }

  /** The status of the first round with the id, if any. */
  function StatusOf(rounds: seq<LobbyRound>, gameID: string): (r: Option<Status>)
    ensures r.Some? <==> exists k :: 0 <= k < |rounds| && rounds[k].gameID == gameID
  {
    if rounds == [] then None
    else if rounds[0].gameID == gameID then Some(rounds[0].status)
    else
      var r := StatusOf(rounds[1..], gameID);
      assert forall k :: 1 <= k < |rounds| ==> rounds[k] == rounds[1..][k - 1];
      r
  }

  /** The statement errors of one draw; each is an input. */
  datatype DrawFaults = DrawFaults(
    drawing: Option<string>,
    begin: Option<string>,
    update: Option<string>,
    query: Option<string>,
    rows: seq<Option<string>>,
    stop: Option<nat>,
    commit: Option<string>)

  /** The draw's transaction commits: every statement inside it, on every row read, and the commit succeed. */
  predicate DrawCommits(t: LobbyTables, gameID: string, f: DrawFaults) {
    f.begin.None? && f.update.None? && f.query.None? && f.commit.None? &&
    forall k :: 0 <= k < RowsRead(Pending(t.bets, gameID), f.stop) ==> Ledger.ErrAt(f.rows, k).None?
  }

  /**
   * drawGame's effect: the status set to drawing outside any transaction, then, when the
   * transaction commits, the result recorded and the pending bets the cursor yielded settled;
   * otherwise only the drawing status remains.
   */
  function DrawEffect(t: LobbyTables, gameID: string, result: GameResult, odds: LobbyOdds, f: DrawFaults): LobbyTables {
    var marked := if f.drawing.None? then SetStatus(t, gameID, Drawing) else t;
    var rows := Pending(marked.bets, gameID);
    if DrawCommits(marked, gameID, f) then
      SettleAll(RecordResult(marked, gameID, result), rows[..RowsRead(rows, f.stop)], result, odds)
    else marked
  }

  /** A draw that does not commit moves no money and settles no bet. */
  lemma DrawRollsBack(t: LobbyTables, gameID: string, result: GameResult, odds: LobbyOdds, f: DrawFaults)
    requires !DrawCommits(t, gameID, f)
    ensures DrawEffect(t, gameID, result, odds, f).balances == t.balances
    ensures DrawEffect(t, gameID, result, odds, f).bets == t.bets
  {
  }

  /**
   * A committed draw whose cursor yields every row credits each user the positive payouts of
   * that user's pending bets of the round, marks the round completed, and leaves none of the
   * round's bets pending.
   */
  lemma DrawSettles(t: LobbyTables, gameID: string, result: GameResult, odds: LobbyOdds, f: DrawFaults)
    requires DrawCommits(t, gameID, f) && FullScan(t.bets, gameID, f.stop)
    requires exists k :: 0 <= k < |t.rounds| && t.rounds[k].gameID == gameID
    ensures var s := DrawEffect(t, gameID, result, odds, f);
      s.balances.Keys == t.balances.Keys &&
      (forall u :: u in t.balances ==> s.balances[u] == t.balances[u] + Credits(Pending(t.bets, gameID), u, result, odds)) &&
      StatusOf(s.rounds, gameID) == Some(Completed) &&
      forall k :: 0 <= k < |s.bets| && s.bets[k].gameID == gameID ==> s.bets[k].status != "pending"
  {
    var marked := if f.drawing.None? then SetStatus(t, gameID, Drawing) else t;
    assert marked.bets == t.bets && marked.balances == t.balances;
    var recorded := RecordResult(marked, gameID, result);
    assert Pending(t.bets, gameID)[..RowsRead(Pending(t.bets, gameID), f.stop)] == Pending(t.bets, gameID);
    SettleAllBalances(recorded, Pending(t.bets, gameID), result, odds);
    NoPendingLeft(recorded, gameID, result, odds);
    assert marked.rounds[..] == marked.rounds && |marked.rounds| == |t.rounds|;
    assert exists k :: 0 <= k < |marked.rounds| && marked.rounds[k].gameID == gameID by {
      var k :| 0 <= k < |t.rounds| && t.rounds[k].gameID == gameID;
      assert marked.rounds[k].gameID == gameID;
    }
    RecordedStatus(marked.rounds, gameID, result);
  }

  /** After the result UPDATE the round reads as completed. */
  lemma {:induction false} RecordedStatus(rounds: seq<LobbyRound>, gameID: string, result: GameResult)
    requires exists k :: 0 <= k < |rounds| && rounds[k].gameID == gameID
    ensures StatusOf(WithResult(rounds, gameID, result), gameID) == Some(Completed)
  {
    var after := WithResult(rounds, gameID, result);
    if rounds[0].gameID != gameID {
      var k :| 0 <= k < |rounds| && rounds[k].gameID == gameID;
      assert rounds[1..][k - 1].gameID == gameID;
      RecordedStatus(rounds[1..], gameID, result);
      assert after[1..] == WithResult(rounds[1..], gameID, result);
    }
  }

  /** After a status UPDATE the round reads with the new status. */
  lemma {:induction false} StatusSet(rounds: seq<LobbyRound>, gameID: string, status: Status)
    requires exists k :: 0 <= k < |rounds| && rounds[k].gameID == gameID
    ensures StatusOf(WithStatus(rounds, gameID, status), gameID) == Some(status)
  {
    var after := WithStatus(rounds, gameID, status);
    if rounds[0].gameID != gameID {
      var k :| 0 <= k < |rounds| && rounds[k].gameID == gameID;
      assert rounds[1..][k - 1].gameID == gameID;
      StatusSet(rounds[1..], gameID, status);
      assert after[1..] == WithStatus(rounds[1..], gameID, status);
    }
  }

  /** A newly opened round with a fresh id reads as betting. */
  lemma {:induction false} OpenedStatus(t: LobbyTables, gameID: string, start: int, end: int)
    requires forall k :: 0 <= k < |t.rounds| ==> t.rounds[k].gameID != gameID
    ensures StatusOf(OpenRound(t, gameID, start, end).rounds, gameID) == Some(Betting)
    decreases |t.rounds|
  {
    if t.rounds != [] {
      OpenedStatus(t.(rounds := t.rounds[1..]), gameID, start, end);
      assert OpenRound(t, gameID, start, end).rounds[1..] == OpenRound(t.(rounds := t.rounds[1..]), gameID, start, end).rounds;
    }
  }

  /** The database the service writes to. */
  class Store {
    var tables: LobbyTables

    constructor (tables: LobbyTables)
      ensures this.tables == tables
    {
      this.tables := tables;
    }
  }

  class AutoGameService {
    const db: Store
    const enabled: bool
    const interval: int
    const betCloseTime: int

    /** NewAutoGameService */
    constructor (db: Store, enabled: bool, interval: int, betCloseTime: int)
      ensures this.db == db && this.enabled == enabled && this.interval == interval && this.betCloseTime == betCloseTime
    {
      this.db := db;
      this.enabled := enabled;
      this.interval := interval;
      this.betCloseTime := betCloseTime;
    }

    /** The end of a round's betting window opened at `now`. */
    function BettingEnd(now: int): int {
      now + interval - betCloseTime
    }

    /**
     * Betting closes betCloseTime before the next tick opens the next round, and the window is
     * non-empty and within the tick when 0 <= betCloseTime < interval.
     */
    lemma BettingWindow(now: int)
      ensures BettingEnd(now) + betCloseTime == now + interval
      ensures 0 <= betCloseTime < interval ==> now < BettingEnd(now) <= now + interval
    {
    }

    /** createNewGame: a round in status betting with the betting window from `now`; the insert's error is returned. */
    method CreateNewGame(gameID: string, now: int, insertErr: Option<string>) returns (err: Option<string>)
      modifies db
      ensures err == insertErr
      ensures db.tables == if insertErr.None? then OpenRound(old(db.tables), gameID, now, BettingEnd(now)) else old(db.tables)
    {
      if insertErr.Some? {
        return insertErr;
      }
      db.tables := OpenRound(db.tables, gameID, now, BettingEnd(now));
      return None;
    }

    /** drawGame: the drawing status, then the result and the payouts in one transaction. */
    method DrawGame(gameID: string, result: GameResult, odds: LobbyOdds, f: DrawFaults)
      modifies db
      ensures db.tables == DrawEffect(old(db.tables), gameID, result, odds, f)
    {
      if f.drawing.None? {
        db.tables := SetStatus(db.tables, gameID, Drawing);
      }
      if f.begin.Some? {
        return;
      }
      var staged := db.tables;
      if f.update.Some? {
        return;
      }
      staged := RecordResult(staged, gameID, result);
      var settled, err := ProcessPayouts(staged, gameID, result, odds, f.query, f.rows, f.stop);
      if err.Some? {
        return;
      }
      if f.commit.Some? {
        return;
      }
      db.tables := settled;
    }

    /** scheduleGameEvents after the wait: the closed status (its error ignored), then the draw. */
    method ScheduleGameEvents(gameID: string, endTime: int, closeErr: Option<string>,
                              result: GameResult, odds: LobbyOdds, f: DrawFaults)
      modifies db
      ensures db.tables == DrawEffect(if closeErr.None? then SetStatus(old(db.tables), gameID, Closed) else old(db.tables),
                                      gameID, result, odds, f)
    {
      if closeErr.None? {
        db.tables := SetStatus(db.tables, gameID, Closed);
      }
      DrawGame(gameID, result, odds, f);
    }
  }

  /**
   * A round's life when no statement fails: betting once created, closed once its window ends,
   * drawing while it is drawn, completed once the draw commits.
   */
  lemma Lifecycle(t: LobbyTables, gameID: string, start: int, end: int, result: GameResult, odds: LobbyOdds, f: DrawFaults)
    requires forall k :: 0 <= k < |t.rounds| ==> t.rounds[k].gameID != gameID
    requires f.drawing.None?
    ensures var created := OpenRound(t, gameID, start, end);
      var closed := SetStatus(created, gameID, Closed);
      var drawing := SetStatus(closed, gameID, Drawing);
      StatusOf(created.rounds, gameID) == Some(Betting) &&
      StatusOf(closed.rounds, gameID) == Some(Closed) &&
      StatusOf(drawing.rounds, gameID) == Some(Drawing) &&
      (DrawCommits(drawing, gameID, f) ==> StatusOf(DrawEffect(closed, gameID, result, odds, f).rounds, gameID) == Some(Completed))
  {
    var created := OpenRound(t, gameID, start, end);
    OpenedStatus(t, gameID, start, end);
    assert created.rounds[|t.rounds|].gameID == gameID;
    StatusSet(created.rounds, gameID, Closed);
    var closed := SetStatus(created, gameID, Closed);
    assert closed.rounds[|t.rounds|].gameID == gameID;
    StatusSet(closed.rounds, gameID, Drawing);
    var drawing := SetStatus(closed, gameID, Drawing);
    if DrawCommits(drawing, gameID, f) {
      assert drawing.rounds[|t.rounds|].gameID == gameID;
      CommittedDrawCompletes(closed, gameID, result, odds, f);
    }
  }

  /** A committed draw marks the round completed, however many rows the cursor yielded. */
  lemma CommittedDrawCompletes(t: LobbyTables, gameID: string, result: GameResult, odds: LobbyOdds, f: DrawFaults)
    requires exists k :: 0 <= k < |t.rounds| && t.rounds[k].gameID == gameID
    requires DrawCommits(if f.drawing.None? then SetStatus(t, gameID, Drawing) else t, gameID, f)
    ensures StatusOf(DrawEffect(t, gameID, result, odds, f).rounds, gameID) == Some(Completed)
  {
    var marked := if f.drawing.None? then SetStatus(t, gameID, Drawing) else t;
    var rows := Pending(marked.bets, gameID);
    var recorded := RecordResult(marked, gameID, result);
    SettleAllBalances(recorded, rows[..RowsRead(rows, f.stop)], result, odds);
    assert exists k :: 0 <= k < |marked.rounds| && marked.rounds[k].gameID == gameID by {
      var k :| 0 <= k < |t.rounds| && t.rounds[k].gameID == gameID;
      assert marked.rounds[k].gameID == gameID;
    }
    RecordedStatus(marked.rounds, gameID, result);
  }

  /**
   * As written: when the cursor fails before the round's only pending bet, the loop ends as if
   * done, the draw commits, and the round reads completed with the bet still pending and unpaid.
   */
  lemma InterruptedDrawStrandsBet(result: GameResult, odds: LobbyOdds)
    ensures var t := LobbyTables(map[1 := 100.0], [LobbyRound("g", 0, 1, Closed, None)],
                                 [LobbyBet(7, 1, "g", "Player", 10.0, "pending")]);
      var f := DrawFaults(None, None, None, None, [], Some(0), None);
      var s := DrawEffect(t, "g", result, odds, f);
      StatusOf(s.rounds, "g") == Some(Completed) && s.bets == t.bets && s.balances == t.balances
  {
    var t := LobbyTables(map[1 := 100.0], [LobbyRound("g", 0, 1, Closed, None)],
                         [LobbyBet(7, 1, "g", "Player", 10.0, "pending")]);
    var f := DrawFaults(None, None, None, None, [], Some(0), None);
    var marked := SetStatus(t, "g", Drawing);
    assert marked.bets == t.bets && marked.balances == t.balances;
    assert Pending(marked.bets, "g") == marked.bets;
    assert RowsRead(Pending(marked.bets, "g"), f.stop) == 0;
    assert t.rounds[0].gameID == "g";
    CommittedDrawCompletes(t, "g", result, odds, f);
  }

  /**
   * Corrected drawGame: rows.Err() is checked after the loop, so a cursor failure is an error
   * and the transaction rolls back like any other failed statement.
   */
  function DrawEffectChecked(t: LobbyTables, gameID: string, result: GameResult, odds: LobbyOdds, f: DrawFaults): LobbyTables {
    var marked := if f.drawing.None? then SetStatus(t, gameID, Drawing) else t;
    if DrawCommits(marked, gameID, f) && FullScan(marked.bets, gameID, f.stop) then
      SettleAll(RecordResult(marked, gameID, result), Pending(marked.bets, gameID), result, odds)
    else marked
  }

  /**
   * Corrected: a round that reads completed after the checked draw, and did not before, has no
   * pending bet left, and its users were credited their payouts.
   */
  lemma CheckedDrawNeverStrands(t: LobbyTables, gameID: string, result: GameResult, odds: LobbyOdds, f: DrawFaults)
    requires exists k :: 0 <= k < |t.rounds| && t.rounds[k].gameID == gameID
    requires StatusOf(t.rounds, gameID) != Some(Completed)
    ensures DrawEffectChecked(t, gameID, result, odds, f).balances.Keys == t.balances.Keys
    ensures var s := DrawEffectChecked(t, gameID, result, odds, f);
      StatusOf(s.rounds, gameID) == Some(Completed) ==>
        (forall k :: 0 <= k < |s.bets| && s.bets[k].gameID == gameID ==> s.bets[k].status != "pending") &&
        forall u :: u in t.balances ==> s.balances[u] == t.balances[u] + Credits(Pending(t.bets, gameID), u, result, odds)
  {
    var marked := if f.drawing.None? then SetStatus(t, gameID, Drawing) else t;
    assert marked.bets == t.bets && marked.balances == t.balances;
    if f.drawing.None? {
      StatusSet(t.rounds, gameID, Drawing);
    }
    if DrawCommits(marked, gameID, f) && FullScan(marked.bets, gameID, f.stop) {
      DrawSettles(t, gameID, result, odds, f);
      assert Pending(t.bets, gameID)[..RowsRead(Pending(t.bets, gameID), f.stop)] == Pending(t.bets, gameID);
      assert DrawEffectChecked(t, gameID, result, odds, f) == DrawEffect(t, gameID, result, odds, f);
    }
  }
}
