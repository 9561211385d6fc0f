/**
 * The per-wager payout map and its total, as the play handler computes them
 * (calculatePayouts and calculateTotalPayout) and as the classic engine's GetPayouts and
 * GetTotalPayout repeat them. Amounts and odds are exact reals.
 *
 * The map has twelve possible keys, so it is modelled as a record with one entry per key; an
 * entry the code may leave out of the map is an Option.
 */
module Payouts {
  import opened Common
  import opened Rules

  /** The configured odds (config.AppConfig). */
  datatype Odds = Odds(
    player: real,
    banker: real,
    tie: real,
    luckySixTwoCards: real,
    luckySixThreeCards: real,
    bankerLuckySixTwoCards: real,
    bankerLuckySixThreeCards: real)

  /** The odds used when no environment variable overrides them. */
  const DefaultOdds: Odds := Odds(1.0, 1.0, 8.0, 12.0, 20.0, 0.5, 0.95)

  /** The stakes of one play request on the four wager kinds. */
  datatype Wager = Wager(player: real, banker: real, tie: real, luckySix: real)

  /** What a finished round reports to the payout rules. */
  datatype Outcome = Outcome(winner: Winner, luckySix: bool, sixType: SixType)

  /**
   * The payout map: the `*_bet` stake entries, the `*_principal` returns (always written) and
   * the win entries `player`, `banker`, `tie`, `luckySix`.
   */
  datatype Sheet = Sheet(
    playerBet: Option<real>, bankerBet: Option<real>, tieBet: Option<real>, luckySixBet: Option<real>,
    playerPrincipal: real, bankerPrincipal: real, tiePrincipal: real, luckySixPrincipal: real,
    player: Option<real>, banker: Option<real>, tie: Option<real>, luckySix: Option<real>)

  /** A fresh map with the four principal entries set to 0. */
  const ZeroSheet: Sheet := Sheet(None, None, None, None, 0.0, 0.0, 0.0, 0.0, None, None, None, None)

  /** The value of an entry, a missing one counting 0. */
  function Amount(entry: Option<real>): real {
    match entry
    case None => 0.0
    case Some(v) => v
  }

  /** The banker wager's odds: reduced when the banker wins with a Lucky Six. */
  function BankerOdds(out: Outcome, odds: Odds): real {
    if !out.luckySix then odds.banker
    else if out.sixType == TwoCards then odds.bankerLuckySixTwoCards
    else odds.bankerLuckySixThreeCards
  }

  /** The Lucky-Six wager's odds: the two-card odds for a "2cards" six, else the three-card odds. */
  function LuckySixOdds(out: Outcome, odds: Odds): real {
    if out.sixType == TwoCards then odds.luckySixTwoCards else odds.luckySixThreeCards
  }

  /** A stake multiplied by a payout factor. */
  function Pay(stake: real, factor: real): real {
    stake * factor
  }

  /** The entry for `amount` when `present`, else no entry. */
  function EntryIf(present: bool, amount: real): Option<real> {
    if present then Some(amount) else None
  }

  /**
   * The payout map of one round, entry by entry: each stake is recorded when positive; a won
   * player or banker wager returns stake times one plus its odds and a won tie wager stake times
   * the tie odds; a positive Lucky-Six wager wins whenever the round is a Lucky Six; on a tie the
   * player, banker and Lucky-Six stakes are returned as principals; the tie principal stays 0.
   */
  function WagerPayouts(w: Wager, out: Outcome, odds: Odds): Sheet {
    var tie := out.winner == Tie;
    Sheet(
      playerBet := EntryIf(w.player > 0.0, w.player),
      bankerBet := EntryIf(w.banker > 0.0, w.banker),
      tieBet := EntryIf(w.tie > 0.0, w.tie),
      luckySixBet := EntryIf(w.luckySix > 0.0, w.luckySix),
      playerPrincipal := if tie then w.player else 0.0,
      bankerPrincipal := if tie then w.banker else 0.0,
      tiePrincipal := 0.0,
      luckySixPrincipal := if tie then w.luckySix else 0.0,
      player := EntryIf(out.winner == Player && w.player > 0.0, Pay(w.player, 1.0 + odds.player)),
      banker := EntryIf(out.winner == Banker && w.banker > 0.0, Pay(w.banker, 1.0 + BankerOdds(out, odds))),
      tie := EntryIf(tie && w.tie > 0.0, Pay(w.tie, odds.tie)),
      luckySix := EntryIf(out.luckySix && w.luckySix > 0.0, Pay(w.luckySix, LuckySixOdds(out, odds))))
  }

  /** calculatePayouts / GetPayouts: the payout map written key by key. */
  method BuildPayouts(w: Wager, out: Outcome, odds: Odds) returns (payouts: Sheet)
    ensures payouts == WagerPayouts(w, out, odds)
  {
    payouts := ZeroSheet;
    if w.player > 0.0 { payouts := payouts.(playerBet := Some(w.player)); }
    if w.banker > 0.0 { payouts := payouts.(bankerBet := Some(w.banker)); }
    if w.tie > 0.0 { payouts := payouts.(tieBet := Some(w.tie)); }
    if w.luckySix > 0.0 { payouts := payouts.(luckySixBet := Some(w.luckySix)); }
    if out.winner == Player {
      if w.player > 0.0 { payouts := payouts.(player := Some(Pay(w.player, 1.0 + odds.player))); }
    } else if out.winner == Banker {
      if w.banker > 0.0 {
        if out.luckySix {
          if out.sixType == TwoCards {
            payouts := payouts.(banker := Some(Pay(w.banker, 1.0 + odds.bankerLuckySixTwoCards)));
          } else {
            payouts := payouts.(banker := Some(Pay(w.banker, 1.0 + odds.bankerLuckySixThreeCards)));
          }
        } else {
          payouts := payouts.(banker := Some(Pay(w.banker, 1.0 + odds.banker)));
        }
      }
    } else if out.winner == Tie {
      if w.tie > 0.0 { payouts := payouts.(tie := Some(Pay(w.tie, odds.tie))); }
      payouts := payouts.(playerPrincipal := w.player);
      payouts := payouts.(bankerPrincipal := w.banker);
      payouts := payouts.(luckySixPrincipal := w.luckySix);
    }
    if out.luckySix && w.luckySix > 0.0 {
      if out.sixType == TwoCards {
        payouts := payouts.(luckySix := Some(Pay(w.luckySix, odds.luckySixTwoCards)));
      } else {
        payouts := payouts.(luckySix := Some(Pay(w.luckySix, odds.luckySixThreeCards)));
      }
    }
  }

  /** The four win entries together (what the game record stores as its total payouts). */
  function WinTotal(s: Sheet): real {
    Amount(s.player) + Amount(s.banker) + Amount(s.tie) + Amount(s.luckySix)
  }

  /** The four stake entries together (what the game record stores as its total bets). */
  function StakeTotal(s: Sheet): real {
    Amount(s.playerBet) + Amount(s.bankerBet) + Amount(s.tieBet) + Amount(s.luckySixBet)
  }

  /** calculateTotalPayout / GetTotalPayout: the present win entries and three principals added in order. */
  method TotalPayout(payouts: Sheet) returns (total: real)
    ensures total == WinTotal(payouts) + payouts.playerPrincipal + payouts.bankerPrincipal + payouts.luckySixPrincipal
  {
    total := 0.0;
    if payouts.player.Some? { total := total + payouts.player.value; }
    if payouts.banker.Some? { total := total + payouts.banker.value; }
    if payouts.tie.Some? { total := total + payouts.tie.value; }
    if payouts.luckySix.Some? { total := total + payouts.luckySix.value; }
    total := total + payouts.playerPrincipal;
    total := total + payouts.bankerPrincipal;
    total := total + payouts.luckySixPrincipal;
  }

  /** A stake counts only when it is positive. */
  function Positive(x: real): real {
    if x > 0.0 then x else 0.0
  }

  /**
   * What one round returns to the player, wager by wager: a won player wager returns
   * stake * (1 + player odds), a won banker wager stake * (1 + banker odds), a won tie wager
   * stake * tie odds, a Lucky-Six wager stake * its odds whenever the round is a Lucky Six, and a
   * tie hands back the player, banker and Lucky-Six stakes.
   */
  function WagerCredit(w: Wager, out: Outcome, odds: Odds): real {
    var playerWin := if out.winner == Player && w.player > 0.0 then Pay(w.player, 1.0 + odds.player) else 0.0;
    var bankerWin := if out.winner == Banker && w.banker > 0.0 then Pay(w.banker, 1.0 + BankerOdds(out, odds)) else 0.0;
    var tieWin := if out.winner == Tie && w.tie > 0.0 then Pay(w.tie, odds.tie) else 0.0;
    var sixWin := if out.luckySix && w.luckySix > 0.0 then Pay(w.luckySix, LuckySixOdds(out, odds)) else 0.0;
    playerWin + bankerWin + tieWin + sixWin + Pushed(w, out)
  }

  /** The principal returned on a tie: the player, banker and Lucky-Six stakes, otherwise nothing. */
  function Pushed(w: Wager, out: Outcome): real {
    if out.winner == Tie then w.player + w.banker + w.luckySix else 0.0
  }

  /** The total calculateTotalPayout credits is the wager-by-wager credit. */
  lemma TotalIsWagerCredit(w: Wager, out: Outcome, odds: Odds)
    ensures var s := WagerPayouts(w, out, odds);
      WinTotal(s) + s.playerPrincipal + s.bankerPrincipal + s.luckySixPrincipal == WagerCredit(w, out, odds)
  {
  }

  /** The stake entries add up to the positive stakes. */
  lemma StakeEntriesArePositiveStakes(w: Wager, out: Outcome, odds: Odds)
    ensures StakeTotal(WagerPayouts(w, out, odds)) ==
      Positive(w.player) + Positive(w.banker) + Positive(w.tie) + Positive(w.luckySix)
  {
  }

  /** The win entries alone fall short of the credited total by exactly the returned principals. */
  lemma WinEntriesExcludePrincipal(w: Wager, out: Outcome, odds: Odds)
    ensures WinTotal(WagerPayouts(w, out, odds)) + Pushed(w, out) == WagerCredit(w, out, odds)
  {
  }

  /** Outside a Lucky Six only the winning side's wager can win anything. */
  lemma OnlyWinnerPaid(w: Wager, out: Outcome, odds: Odds)
    requires !out.luckySix
    ensures out.winner == Player ==> WinTotal(WagerPayouts(w, out, odds)) == Pay(Positive(w.player), 1.0 + odds.player)
    ensures out.winner == Banker ==> WinTotal(WagerPayouts(w, out, odds)) == Pay(Positive(w.banker), 1.0 + odds.banker)
    ensures out.winner == Tie ==> WinTotal(WagerPayouts(w, out, odds)) == Pay(Positive(w.tie), odds.tie)
  {
  }
}
