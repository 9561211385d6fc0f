/**
 * The payout audit of the verification service (Validator.ValidateGame in
 * verify/internal/validator/validator.go): each bet of a reported game is compared with the
 * payout the auditor expects, the stake times the odds of the bet's kind, without principal.
 */
module PayoutAudit {
  import opened Common
  import Payouts

  /** The odds the auditor is configured with. */
  datatype AuditOdds = AuditOdds(
    player: real,
    banker: real,
    tie: real,
    lucky6TwoCards: real,
    lucky6ThreeCards: real,
    bankerLucky6TwoCards: real,
    bankerLucky6ThreeCards: real)

  /** One bet of a game-details response; a NULL payout is None. */
  datatype AuditBet = AuditBet(username: string, betType: string, betAmount: real, payout: Option<real>)

  /** The fields of a game-details response the audit reads; a NULL lucky_six_type is None. */
  datatype GameDetails = GameDetails(
    gameID: string,
    winner: string,
    isLuckySix: bool,
    luckySixType: Option<string>,
    bets: seq<AuditBet>)

  /** One error detail: the bet kind, the expected and the actual payout. */
  datatype PayoutError = PayoutError(betType: string, expected: real, actual: real)

  datatype ValidationResult = ValidationResult(
    totalGames: int,
    validGames: int,
    invalidGames: int,
    invalidGameIDs: seq<string>,
    errorDetails: seq<PayoutError>)

  /** The paid amount the audit compares: the payout when present, 0 when NULL. */
  function ActualPayout(bet: AuditBet): real {
    if bet.payout.Some? then bet.payout.value else 0.0
  }

  /** A three-card Lucky Six: the type is present and reads exactly "3cards". */
  predicate ThreeCardSix(d: GameDetails) {
    d.luckySixType == Some("3cards")
  }

  /**
   * The payout the audit expects: stake times odds when the bet's outcome came up, the banker
   * and Lucky-Six kinds at their three-card odds for a three-card six and at their two-card odds
   * for any other six; 0 for unknown kinds and lost bets.
   */
  function ExpectedPayout(bet: AuditBet, d: GameDetails, odds: AuditOdds): real {
    if bet.betType == "player" then
      (if d.winner == "Player" then Payouts.Pay(bet.betAmount, odds.player) else 0.0)
    else if bet.betType == "banker" then
      (if d.winner != "Banker" then 0.0
       else if !d.isLuckySix then Payouts.Pay(bet.betAmount, odds.banker)
       else if ThreeCardSix(d) then Payouts.Pay(bet.betAmount, odds.bankerLucky6ThreeCards)
       else Payouts.Pay(bet.betAmount, odds.bankerLucky6TwoCards))
    else if bet.betType == "tie" then
      (if d.winner == "Tie" then Payouts.Pay(bet.betAmount, odds.tie) else 0.0)
    else if bet.betType == "luckySix" then
      (if !d.isLuckySix then 0.0
       else if ThreeCardSix(d) then Payouts.Pay(bet.betAmount, odds.lucky6ThreeCards)
       else Payouts.Pay(bet.betAmount, odds.lucky6TwoCards))
    else 0.0
  }

  predicate Mismatch(bet: AuditBet, d: GameDetails, odds: AuditOdds) {
    ActualPayout(bet) != ExpectedPayout(bet, d, odds)
  }

  /** The error details of the given bets, one per mismatching bet, in order. */
  function Mismatches(bets: seq<AuditBet>, d: GameDetails, odds: AuditOdds): (errs: seq<PayoutError>)
    ensures |errs| <= |bets|
    ensures |errs| == 0 <==> forall k :: 0 <= k < |bets| ==> !Mismatch(bets[k], d, odds)
    ensures forall e :: e in errs ==>
      exists k :: (0 <= k < |bets| && Mismatch(bets[k], d, odds) &&
                   e == PayoutError(bets[k].betType, ExpectedPayout(bets[k], d, odds), ActualPayout(bets[k])))
    decreases |bets|
  {
    if bets == [] then []
    else
      var prefix := bets[..|bets| - 1];
      var bet := bets[|bets| - 1];
      var rest := Mismatches(prefix, d, odds);
      assert forall k :: 0 <= k < |prefix| ==> prefix[k] == bets[k];
      if Mismatch(bet, d, odds) then
        rest + [PayoutError(bet.betType, ExpectedPayout(bet, d, odds), ActualPayout(bet))]
      else rest
  }

  /** One game id per error detail. */
  function Repeat(id: string, n: nat): (ids: seq<string>)
    ensures |ids| == n && forall k :: 0 <= k < n ==> ids[k] == id
  {
    seq(n, _ => id)
  }

  /** The verdict on one game. */
  function Validation(d: GameDetails, odds: AuditOdds): ValidationResult {
    var errs := Mismatches(d.bets, d, odds);
    if errs == [] then ValidationResult(1, 1, 0, [], [])
    else ValidationResult(1, 0, 1, Repeat(d.gameID, |errs|), errs)
  }

  /** ValidateGame: the counters start at one valid game of one, and each mismatching bet invalidates the game. */
  method ValidateGame(d: GameDetails, odds: AuditOdds) returns (result: ValidationResult)
    ensures result == Validation(d, odds)
  {
    result := ValidationResult(1, 1, 0, [], []);
    var i := 0;
    while i < |d.bets|
      invariant 0 <= i <= |d.bets|
      invariant result.totalGames == 1
      invariant result.errorDetails == Mismatches(d.bets[..i], d, odds)
      invariant result.invalidGameIDs == Repeat(d.gameID, |result.errorDetails|)
      invariant result.errorDetails == [] ==> result.validGames == 1 && result.invalidGames == 0
      invariant result.errorDetails != [] ==> result.validGames == 0 && result.invalidGames == 1
    {
      var bet := d.bets[i];
      var expected := ExpectedPayout(bet, d, odds);
      var actual := 0.0;
      if bet.payout.Some? {
        actual := bet.payout.value;
      }
      if actual != expected {
        result := result.(validGames := 0, invalidGames := 1,
                          invalidGameIDs := result.invalidGameIDs + [d.gameID],
                          errorDetails := result.errorDetails + [PayoutError(bet.betType, expected, actual)]);
      }
      assert d.bets[..i + 1][..i] == d.bets[..i];
      i := i + 1;
    }
    assert d.bets[..i] == d.bets;
  }

  /**
   * The audit's bookkeeping: one game counted, exactly one of valid and invalid, valid exactly
   * when every bet's payout is the expected one, and one game id and one detail per mismatching bet.
   */
  lemma VerdictCounts(d: GameDetails, odds: AuditOdds)
    ensures var r := Validation(d, odds);
      r.totalGames == 1 && r.validGames + r.invalidGames == 1 &&
      (r.validGames == 1 <==> forall k :: 0 <= k < |d.bets| ==> !Mismatch(d.bets[k], d, odds)) &&
      |r.invalidGameIDs| == |r.errorDetails| <= |d.bets| &&
      forall k :: 0 <= k < |r.invalidGameIDs| ==> r.invalidGameIDs[k] == d.gameID
  {
  }

  /** A game without bets is valid. */
  lemma NoBetsValid(d: GameDetails, odds: AuditOdds)
    requires d.bets == []
    ensures Validation(d, odds) == ValidationResult(1, 1, 0, [], [])
  {
  }

  /** Adding a bet adds its error detail, if any, to the end of the others. */
  lemma {:induction false} MismatchesAppend(a: seq<AuditBet>, b: seq<AuditBet>, d: GameDetails, odds: AuditOdds)
    ensures Mismatches(a + b, d, odds) == Mismatches(a, d, odds) + Mismatches(b, d, odds)
    decreases |b|
  {
    if b == [] {
      assert a + b == a;
    } else {
      var bPrefix := b[..|b| - 1];
      MismatchesAppend(a, bPrefix, d, odds);
      assert (a + b)[..|a + b| - 1] == a + bPrefix;
      assert (a + b)[|a + b| - 1] == b[|b| - 1];
    }
  }

  /**
   * The audit and the play handler disagree on a won player bet: the handler records the stake
   * times one plus the odds, the audit expects the stake times the odds, so at the same odds
   * every positive winning player bet the handler settled is reported as a mismatch.
   */
  lemma HandlerPlayerWinFlagged(bet: AuditBet, d: GameDetails, odds: AuditOdds, handlerOdds: Payouts.Odds)
    requires bet.betType == "player" && d.winner == "Player" && bet.betAmount > 0.0
    requires handlerOdds.player == odds.player
    requires bet.payout == Some(Payouts.Pay(bet.betAmount, 1.0 + handlerOdds.player))
    ensures Mismatch(bet, d, odds)
    ensures ActualPayout(bet) - ExpectedPayout(bet, d, odds) == bet.betAmount
  {
    assert bet.betAmount * (1.0 + odds.player) == bet.betAmount * odds.player + bet.betAmount;
  }

  /** On a won tie bet the two rules agree: both pay the stake times the tie odds. */
  lemma HandlerTieAgrees(bet: AuditBet, d: GameDetails, odds: AuditOdds, handlerOdds: Payouts.Odds)
    requires bet.betType == "tie" && d.winner == "Tie"
    requires handlerOdds.tie == odds.tie
    requires bet.payout == Some(Payouts.Pay(bet.betAmount, handlerOdds.tie))
    ensures !Mismatch(bet, d, odds)
  {
  }

  /** A lost or unknown bet is expected to pay nothing, so it passes exactly when its payout is NULL or 0. */
  lemma LostBetExpectsNothing(bet: AuditBet, d: GameDetails, odds: AuditOdds)
    requires !(bet.betType == "player" && d.winner == "Player")
    requires !(bet.betType == "banker" && d.winner == "Banker")
    requires !(bet.betType == "tie" && d.winner == "Tie")
    requires !(bet.betType == "luckySix" && d.isLuckySix)
    ensures ExpectedPayout(bet, d, odds) == 0.0
    ensures !Mismatch(bet, d, odds) <==> bet.payout.None? || bet.payout == Some(0.0)
  {
  }
}
