/**
 * The database layer of the game server (baccarat/db/db.go), over an abstract store: the users'
 * balances, the game records and the bets. A transaction stages its writes on a copy of the
 * tables; a commit installs the copy and a rollback drops it. SQL, its driver and its failure
 * causes are outside the model: every statement's error is an input.
 */
module Ledger {
  import opened Common
  import opened Payouts

  /** A row of game_records. */
  datatype GameRow = GameRow(
    gameID: string,
    playerInitialCards: string,
    bankerInitialCards: string,
    playerInitialScore: int,
    bankerInitialScore: int,
    playerThirdCard: Option<string>,
    bankerThirdCard: Option<string>,
    playerFinalScore: int,
    bankerFinalScore: int,
    winner: string,
    isLuckySix: bool,
    luckySixType: Option<string>,
    playerPayout: Option<real>,
    bankerPayout: Option<real>,
    tiePayout: Option<real>,
    luckySixPayout: Option<real>,
    totalBets: real,
    totalPayouts: real)

  /** A row of bets. */
  datatype BetRow = BetRow(userID: int, gameID: string, amount: real, betType: string)

  /** The stored tables: users' balances by id, game records and bets in insertion order. */
  datatype Tables = Tables(balances: map<int, real>, games: seq<GameRow>, bets: seq<BetRow>)

  /**
   * UPDATE users SET balance = balance + amount WHERE id = userID: the user's balance moves by
   * exactly `amount` (a negative amount is a debit); an unknown user matches no row.
   */
  /** A balance map with `amount` added to the user's balance; an unknown user changes nothing. */
  function Adjusted(balances: map<int, real>, userID: int, amount: real): (r: map<int, real>)
    ensures r.Keys == balances.Keys
    ensures forall u :: u in balances && u != userID ==> r[u] == balances[u]
    ensures userID in balances ==> r[userID] - balances[userID] == amount
  {
    if userID in balances then balances[userID := balances[userID] + amount] else balances
  }

  function AddToBalance(t: Tables, userID: int, amount: real): (r: Tables)
    ensures r.games == t.games && r.bets == t.bets && r.balances.Keys == t.balances.Keys
    ensures forall u :: u in t.balances && u != userID ==> r.balances[u] == t.balances[u]
    ensures userID in t.balances ==> r.balances[userID] - t.balances[userID] == amount
  {
    t.(balances := Adjusted(t.balances, userID, amount))
  }

  /** Two balance updates of one user make one update by their sum. */
  lemma AddToBalanceTwice(t: Tables, userID: int, a: real, b: real)
    ensures AddToBalance(AddToBalance(t, userID, a), userID, b) == AddToBalance(t, userID, a + b)
  {
    if userID in t.balances {
      var once := AddToBalance(t, userID, a);
      assert once.balances[userID] == t.balances[userID] + a;
      assert AddToBalance(once, userID, b).balances == t.balances[userID := t.balances[userID] + (a + b)];
    }
  }

  /** The error the k-th statement of a run of statements meets (none past the end of the list). */
  function ErrAt(errs: seq<Option<string>>, k: nat): Option<string> {
    if k < |errs| then errs[k] else None
  }

  /** How many of the first `count` statements succeed before the first error. */
  function Succeeding(errs: seq<Option<string>>, count: nat): (n: nat)
    ensures n <= count
    ensures forall k :: 0 <= k < n ==> ErrAt(errs, k).None?
    ensures n < count ==> ErrAt(errs, n).Some?
  {
    if count == 0 then 0
    else if ErrAt(errs, 0).Some? then 0
    else
      var n := 1 + Succeeding(if |errs| == 0 then [] else errs[1..], count - 1);
      assert forall k :: 1 <= k < n ==> ErrAt(errs, k) == ErrAt(if |errs| == 0 then [] else errs[1..], k - 1);
      n
  }

  /** The count of leading successes is determined by where the first error falls. */
  lemma SucceedingUnique(errs: seq<Option<string>>, count: nat, n: nat)
    requires n <= count
    requires forall k :: 0 <= k < n ==> ErrAt(errs, k).None?
    requires n < count ==> ErrAt(errs, n).Some?
    ensures Succeeding(errs, count) == n
  {
  }

  class Database {
    var tables: Tables

    constructor (initial: Tables)
      ensures tables == initial
    {
      tables := initial;
    }

    /** DB.Begin: a transaction over the current tables, or the error that prevented it. */
    method Begin(beginErr: Option<string>) returns (r: Result<Tx, string>)
      ensures r.Err? <==> beginErr.Some?
      ensures r.Err? ==> r.error == beginErr.value
      ensures r.Ok? ==> fresh(r.value) && r.value.db == this && r.value.staged == tables
    {
      if beginErr.Some? {
        return Err(beginErr.value);
      }
      var tx := new Tx(this);
      return Ok(tx);
    }
  }

  class Tx {
    const db: Database
    var staged: Tables

    constructor (db: Database)
      ensures this.db == db && staged == db.tables
    {
      this.db := db;
      staged := db.tables;
    }

    /** UpdateUserBalance: the balance delta staged, unless the statement fails. */
    method UpdateUserBalance(userID: int, amount: real, execErr: Option<string>) returns (err: Option<string>)
      modifies this
      ensures err == execErr
      ensures staged == if execErr.None? then AddToBalance(old(staged), userID, amount) else old(staged)
    {
      if execErr.None? {
        staged := AddToBalance(staged, userID, amount);
      }
      return execErr;
    }

    /** SaveBet: one bet row staged, unless the statement fails. */
    method SaveBet(userID: int, gameID: string, amount: real, betType: string, execErr: Option<string>)
      returns (err: Option<string>)
      modifies this
      ensures err == execErr
      ensures staged == if execErr.None? then old(staged).(bets := old(staged).bets + [BetRow(userID, gameID, amount, betType)])
                        else old(staged)
    {
      if execErr.None? {
        staged := staged.(bets := staged.bets + [BetRow(userID, gameID, amount, betType)]);
      }
      return execErr;
    }

    /** The INSERT INTO game_records of SaveGameRecord. */
    method InsertGame(row: GameRow, execErr: Option<string>) returns (err: Option<string>)
      modifies this
      ensures err == execErr
      ensures staged == if execErr.None? then old(staged).(games := old(staged).games + [row]) else old(staged)
    {
      if execErr.None? {
        staged := staged.(games := staged.games + [row]);
      }
      return execErr;
    }

    /** tx.Commit: the staged tables become the database's, unless the commit fails. */
    method Commit(commitErr: Option<string>) returns (err: Option<string>)
      modifies db
      ensures err == commitErr
      ensures db.tables == if commitErr.None? then old(staged) else old(db.tables)
    {
      if commitErr.None? {
        db.tables := staged;
      }
      return commitErr;
    }

    /** tx.Rollback: the staged writes are dropped; the database is untouched. */
    method Rollback()
      ensures unchanged(db)
    {
    }
  }

  /** How the function handed to Transaction ended: it returned (maybe an error) or panicked. */
  datatype FnOutcome = Returned(err: Option<string>) | Panicked(panicValue: string)

  /** What Transaction does in the end: return an error or nil, or re-raise a panic. */
  datatype TxResult = Completed(err: Option<string>) | Repanic(panicValue: string)

  /**
   * The end of Transaction once fn has run on `tx`: a panic rolls back and is raised again, an
   * error rolls back and is returned, and otherwise the result of Commit is returned. Only a
   * successful commit changes the database, and then to exactly what fn staged.
   */
  method Conclude(tx: Tx, fn: FnOutcome, commitErr: Option<string>) returns (r: TxResult)
    modifies tx.db
    ensures fn.Panicked? ==> r == Repanic(fn.panicValue)
    ensures fn.Returned? && fn.err.Some? ==> r == Completed(fn.err)
    ensures fn.Returned? && fn.err.None? ==> r == Completed(commitErr)
    ensures tx.db.tables == if fn == Returned(None) && commitErr.None? then tx.staged else old(tx.db.tables)
  {
    match fn
    case Panicked(p) =>
      tx.Rollback();
      return Repanic(p);
    case Returned(err) =>
      if err.Some? {
        tx.Rollback();
        return Completed(err);
      }
      var commitResult := tx.Commit(commitErr);
      return Completed(commitResult);
  }

  /**
   * The payout columns and totals of SaveGameRecord: each payout entry's column, the present win
   * entries summed into total_payouts and the present stake entries into total_bets.
   */
  method RecordTotals(payouts: Sheet) returns (player: Option<real>, banker: Option<real>, tie: Option<real>,
                                               luckySix: Option<real>, totalBets: real, totalPayouts: real)
    ensures player == payouts.player && banker == payouts.banker && tie == payouts.tie && luckySix == payouts.luckySix
    ensures totalPayouts == WinTotal(payouts)
    ensures totalBets == StakeTotal(payouts)
  {
    player, banker, tie, luckySix := None, None, None, None;
    totalBets, totalPayouts := 0.0, 0.0;
    if payouts.player.Some? { player := Some(payouts.player.value); totalPayouts := totalPayouts + payouts.player.value; }
    if payouts.banker.Some? { banker := Some(payouts.banker.value); totalPayouts := totalPayouts + payouts.banker.value; }
    if payouts.tie.Some? { tie := Some(payouts.tie.value); totalPayouts := totalPayouts + payouts.tie.value; }
    if payouts.luckySix.Some? { luckySix := Some(payouts.luckySix.value); totalPayouts := totalPayouts + payouts.luckySix.value; }
    if payouts.playerBet.Some? { totalBets := totalBets + payouts.playerBet.value; }
    if payouts.bankerBet.Some? { totalBets := totalBets + payouts.bankerBet.value; }
    if payouts.tieBet.Some? { totalBets := totalBets + payouts.tieBet.value; }
    if payouts.luckySixBet.Some? { totalBets := totalBets + payouts.luckySixBet.value; }
  }

  /** The scalar columns SaveGameRecord receives from its caller. */
  datatype RecordFields = RecordFields(
    gameID: string,
    playerInitialCards: string,
    bankerInitialCards: string,
    playerInitialScore: int,
    bankerInitialScore: int,
    playerThirdCard: Option<string>,
    bankerThirdCard: Option<string>,
    playerFinalScore: int,
    bankerFinalScore: int,
    winner: string,
    isLuckySix: bool,
    luckySixType: Option<string>)

  /** The game_records row for the given columns and payout map. */
  function RecordRow(f: RecordFields, payouts: Sheet): GameRow {
    GameRow(f.gameID, f.playerInitialCards, f.bankerInitialCards, f.playerInitialScore, f.bankerInitialScore,
            f.playerThirdCard, f.bankerThirdCard, f.playerFinalScore, f.bankerFinalScore, f.winner,
            f.isLuckySix, f.luckySixType, payouts.player, payouts.banker, payouts.tie, payouts.luckySix,
            StakeTotal(payouts), WinTotal(payouts))
  }

  /**
   * SaveGameRecord in its own transaction: the row is added exactly when begin, insert and
   * commit all succeed, and the first error is returned otherwise.
   */
  method SaveGameRecord(db: Database, f: RecordFields, payouts: Sheet,
                        beginErr: Option<string>, execErr: Option<string>, commitErr: Option<string>)
    returns (err: Option<string>)
    modifies db
    ensures err == if beginErr.Some? then beginErr else if execErr.Some? then execErr else commitErr
    ensures db.tables == if err.None? then old(db.tables).(games := old(db.tables).games + [RecordRow(f, payouts)])
                         else old(db.tables)
  {
    var begun := db.Begin(beginErr);
    if begun.Err? {
      return Some(begun.error);
    }
    var tx := begun.value;
    var player, banker, tie, luckySix, totalBets, totalPayouts := RecordTotals(payouts);
    var row := GameRow(f.gameID, f.playerInitialCards, f.bankerInitialCards, f.playerInitialScore, f.bankerInitialScore,
                       f.playerThirdCard, f.bankerThirdCard, f.playerFinalScore, f.bankerFinalScore, f.winner,
                       f.isLuckySix, f.luckySixType, player, banker, tie, luckySix, totalBets, totalPayouts);
    var execResult := tx.InsertGame(row, execErr);
    var r := Conclude(tx, Returned(execResult), commitErr);
    err := r.err;
  }

  /** The persisted total_payouts leaves out the principal a tie returns: it is the credit less the pushed stakes. */
  lemma RecordedPayoutsExcludePrincipal(f: RecordFields, w: Wager, out: Outcome, odds: Odds)
    ensures RecordRow(f, WagerPayouts(w, out, odds)).totalPayouts == WagerCredit(w, out, odds) - Pushed(w, out)
    ensures RecordRow(f, WagerPayouts(w, out, odds)).totalBets ==
      Positive(w.player) + Positive(w.banker) + Positive(w.tie) + Positive(w.luckySix)
  {
    WinEntriesExcludePrincipal(w, out, odds);
    StakeEntriesArePositiveStakes(w, out, odds);
  }

  /** A bet as GetGameDetails reports it: the payout is the record's column for the bet's type. */
  datatype BetDetail = BetDetail(userID: int, betType: string, amount: real, payout: Option<real>)

  /** CASE b.bet_type: the record's payout column named by the bet type; NULL for any other type. */
  function PayoutFor(g: GameRow, betType: string): Option<real> {
    if betType == "player" then g.playerPayout
    else if betType == "banker" then g.bankerPayout
    else if betType == "tie" then g.tiePayout
    else if betType == "luckySix" then g.luckySixPayout
    else None
  }

  /** One bet row through the join: its detail when it belongs to the game and its user exists, else nothing. */
  function JoinRow(b: BetRow, balances: map<int, real>, g: GameRow): seq<BetDetail> {
    if b.gameID == g.gameID && b.userID in balances then [BetDetail(b.userID, b.betType, b.amount, PayoutFor(g, b.betType))]
    else []
  }

  /** The bets of the game, joined to their users (a bet of an unknown user drops out) and the record. */
  function GameBets(bets: seq<BetRow>, balances: map<int, real>, g: GameRow): (r: seq<BetDetail>)
    ensures |r| <= |bets|
  {
    if bets == [] then []
    else JoinRow(bets[0], balances, g) + GameBets(bets[1..], balances, g)
  }

  /** The join works row by row, so it distributes over concatenation. */
  lemma {:induction false} GameBetsAppend(a: seq<BetRow>, b: seq<BetRow>, balances: map<int, real>, g: GameRow)
    ensures GameBets(a + b, balances, g) == GameBets(a, balances, g) + GameBets(b, balances, g)
  {
    if a == [] {
      assert a + b == b;
    } else {
      GameBetsAppend(a[1..], b, balances, g);
      GameBetsCons(a, b, balances, g);
      ConcatAssoc(JoinRow(a[0], balances, g), GameBets(a[1..], balances, g), GameBets(b, balances, g));
    }
  }

  lemma GameBetsCons(a: seq<BetRow>, b: seq<BetRow>, balances: map<int, real>, g: GameRow)
    requires a != []
    ensures GameBets(a + b, balances, g) == JoinRow(a[0], balances, g) + GameBets(a[1..] + b, balances, g)
  {
    assert (a + b)[1..] == a[1..] + b;
    assert (a + b)[0] == a[0];
  }

  lemma ConcatAssoc(x: seq<BetDetail>, y: seq<BetDetail>, z: seq<BetDetail>)
    ensures x + (y + z) == (x + y) + z
  {
  }

  /** The first record of the game, if any. */
  function FindGame(games: seq<GameRow>, gameID: string): (r: Option<GameRow>)
    ensures r.Some? ==> r.value in games && r.value.gameID == gameID
    ensures r.None? <==> forall k :: 0 <= k < |games| ==> games[k].gameID != gameID
  {
    if games == [] then None
    else if games[0].gameID == gameID then Some(games[0])
    else FindGame(games[1..], gameID)
  }

  function SumAmounts(bets: seq<BetDetail>): real {
    if bets == [] then 0.0 else SumAmounts(bets[..|bets| - 1]) + bets[|bets| - 1].amount
  }

  function SumPayouts(bets: seq<BetDetail>): real {
    if bets == [] then 0.0 else SumPayouts(bets[..|bets| - 1]) + Amount(bets[|bets| - 1].payout)
  }

  /** Both totals distribute over concatenation. */
  lemma {:induction false} SumsAppend(a: seq<BetDetail>, b: seq<BetDetail>)
    ensures SumAmounts(a + b) == SumAmounts(a) + SumAmounts(b)
    ensures SumPayouts(a + b) == SumPayouts(a) + SumPayouts(b)
  {
    if b != [] {
      SumsAppend(a, b[..|b| - 1]);
      assert (a + b)[..|a + b| - 1] == a + b[..|b| - 1];
    } else {
      assert a + b == a;
    }
  }

  /** The report of GetGameDetails. */
  datatype Details = Details(game: GameRow, bets: seq<BetDetail>, totalBets: real, totalPayouts: real)

  /** The totals loop of GetGameDetails: every bet amount, and the payouts that are not NULL. */
  method Totals(bets: seq<BetDetail>) returns (totalBets: real, totalPayouts: real)
    ensures totalBets == SumAmounts(bets) && totalPayouts == SumPayouts(bets)
  {
    totalBets, totalPayouts := 0.0, 0.0;
    var i := 0;
    while i < |bets|
      invariant 0 <= i <= |bets|
      invariant totalBets == SumAmounts(bets[..i]) && totalPayouts == SumPayouts(bets[..i])
    {
      assert bets[..i + 1][..i] == bets[..i];
      totalBets := totalBets + bets[i].amount;
      if bets[i].payout.Some? {
        totalPayouts := totalPayouts + bets[i].payout.value;
      }
      i := i + 1;
    }
    assert bets[..i] == bets;
  }

  /**
   * GetGameDetails: a missing game is an error; otherwise its record, its bets and their totals.
   * The store is read, never changed.
   */
  method GetGameDetails(db: Database, gameID: string) returns (r: Result<Details, string>)
    ensures r.Err? <==> FindGame(db.tables.games, gameID).None?
    ensures r.Ok? ==>
      var g := FindGame(db.tables.games, gameID).value;
      r.value.game == g && r.value.bets == GameBets(db.tables.bets, db.tables.balances, g) &&
      r.value.totalBets == SumAmounts(r.value.bets) && r.value.totalPayouts == SumPayouts(r.value.bets)
  {
    var found := FindGame(db.tables.games, gameID);
    if found.None? {
      return Err("game not found");
    }
    var bets := GameBets(db.tables.bets, db.tables.balances, found.value);
    var totalBets, totalPayouts := Totals(bets);
    return Ok(Details(found.value, bets, totalBets, totalPayouts));
  }
}
