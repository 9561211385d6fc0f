/**
 * The round engine of baccarat/game/game.go: a game object that draws from its deck, deals
 * two hands, applies the natural check and the third-card rules, decides the winner and the
 * Lucky Six, and keeps a table of payout odds.
 */
module ClassicGame {
  import opened Common
  import opened Rules
  import opened Payouts
  import CardDeck
  import Shoe

  /** The Payouts field: odds per wager kind, excluding principal. */
  datatype OddsTable = OddsTable(player: real, banker: real, tie: real, luckySix: real)

  /** Everything a game object holds, its deck's cards included. */
  datatype State = State(
    deck: seq<Card>,
    player: seq<Card>,
    banker: seq<Card>,
    playerScore: int,
    bankerScore: int,
    winner: Winner,
    luckySix: bool,
    sixType: SixType,
    playerThird: int,
    bankerThird: int,
    payouts: Option<OddsTable>)

  /** A new game over `deck`: empty hands, no winner, no third card (-1) and an empty odds map. */
  function Start(deck: seq<Card>): State {
    State(deck, [], [], 0, 0, Undecided, false, NoSix, -1, -1, None)
  }

  /** calculateScores: both scores recomputed from the hands. */
  function Rescored(s: State): State {
    s.(playerScore := Score(s.player), bankerScore := Score(s.banker))
  }

  /** Deal: the player gets the first two cards drawn, the banker the next two, replacing both hands. */
  function DealStep(s: State): State
    requires |s.deck| >= 4
  {
    Rescored(s.(player := s.deck[..2], banker := s.deck[2..4], deck := s.deck[4..]))
  }

  /** Either side holds eight or nine, so neither draws. */
  predicate IsNatural(s: State) {
    s.playerScore >= 8 || s.bankerScore >= 8
  }

  /** The player's draw: on 0..5 the player takes the next card and remembers its pip value. */
  function PlayerDrawStep(s: State): State
    requires s.playerScore <= 5 ==> |s.deck| >= 1
  {
    if s.playerScore <= 5 then
      Rescored(s.(player := s.player + [s.deck[0]], playerThird := PipValue(s.deck[0]), deck := s.deck[1..]))
    else s
  }

  /**
   * Whether the banker draws: on 0..5 when the player has no third card, otherwise by the
   * tableau on the player's third pip value.
   */
  predicate BankerDrawsNow(s: State) {
    if s.playerThird == -1 then s.bankerScore <= 5 else BankerDraws(s.bankerScore, s.playerThird)
  }

  function BankerDrawStep(s: State): State
    requires BankerDrawsNow(s) ==> |s.deck| >= 1
  {
    if BankerDrawsNow(s) then
      Rescored(s.(banker := s.banker + [s.deck[0]], bankerThird := PipValue(s.deck[0]), deck := s.deck[1..]))
    else s
  }

  /** The deck holds every card DealThirdCard will draw (drawing from an empty deck panics). */
  predicate CanDealThird(s: State) {
    IsNatural(s) ||
    ((s.playerScore <= 5 ==> |s.deck| >= 1) &&
     (BankerDrawsNow(PlayerDrawStep(s)) ==> |PlayerDrawStep(s).deck| >= 1))
  }

  /** DealThirdCard: nothing on a natural, else the player's draw followed by the banker's. */
  function ThirdCardStep(s: State): State
    requires CanDealThird(s)
  {
    if IsNatural(s) then s else BankerDrawStep(PlayerDrawStep(s))
  }

  /** CalculatePayouts: a fresh table of the odds each wager kind earns, principal excluded. */
  function OddsFor(winner: Winner, luckySix: bool, sixType: SixType, odds: Odds): OddsTable {
    match winner
    case Player => OddsTable(odds.player, 0.0, 0.0, 0.0)
    case Banker =>
      if !luckySix then OddsTable(0.0, odds.banker, 0.0, 0.0)
      else if sixType == TwoCards then OddsTable(0.0, odds.bankerLuckySixTwoCards, 0.0, odds.luckySixTwoCards)
      else OddsTable(0.0, odds.bankerLuckySixThreeCards, 0.0, odds.luckySixThreeCards)
    case Tie => OddsTable(1.0, 1.0, odds.tie, 1.0)
    case Undecided => OddsTable(0.0, 0.0, 0.0, 0.0)
  }

  function PayoutsStep(s: State, odds: Odds): State {
    s.(payouts := Some(OddsFor(s.winner, s.luckySix, s.sixType, odds)))
  }

  /** DetermineWinner: the comparison, the Lucky Six on a banker win with 6, then the odds table. */
  function DetermineStep(s: State, odds: Odds): State {
    var w := Compare(s.playerScore, s.bankerScore);
    var six := w == Banker && s.bankerScore == 6;
    PayoutsStep(s.(winner := w, luckySix := six, sixType := if six then SixTypeOf(s.banker) else NoSix), odds)
  }

  /** The deck holds every card a round will draw. */
  predicate PlayReady(s: State) {
    |s.deck| >= 4 && CanDealThird(DealStep(s.(playerThird := -1, bankerThird := -1)))
  }

  /** Play: third cards reset, then Deal, DealThirdCard, DetermineWinner and CalculatePayouts again. */
  function PlayStep(s: State, odds: Odds): State
    requires PlayReady(s)
  {
    var dealt := DealStep(s.(playerThird := -1, bankerThird := -1));
    PayoutsStep(DetermineStep(ThirdCardStep(dealt), odds), odds)
  }

  /** A whole round played by a new game over `deck`. */
  function Round(deck: seq<Card>, odds: Odds): State
    requires PlayReady(Start(deck))
  {
    PlayStep(Start(deck), odds)
  }

  class Game {
    const deck: CardDeck.Deck
    var playerHand: seq<Card>
    var bankerHand: seq<Card>
    var playerScore: int
    var bankerScore: int
    var winner: Winner
    var isLuckySix: bool
    var luckySixType: SixType
    var playerThirdValue: int
    var bankerThirdValue: int
    var payouts: Option<OddsTable>

    function Snapshot(): State
      reads this, deck
    {
      State(deck.cards, playerHand, bankerHand, playerScore, bankerScore, winner, isLuckySix,
            luckySixType, playerThirdValue, bankerThirdValue, payouts)
    }

    /** NewGame: a shuffled fresh deck and the initial fields. */
    constructor NewGame()
      ensures fresh(deck)
      ensures Snapshot() == Start(deck.cards)
      ensures multiset(deck.cards) == multiset(Shoe.StandardDeck())
    {
      deck := new CardDeck.Deck.NewDeck();
      playerHand, bankerHand := [], [];
      playerScore, bankerScore := 0, 0;
      winner, isLuckySix, luckySixType := Undecided, false, NoSix;
      playerThirdValue, bankerThirdValue := -1, -1;
      payouts := None;
      new;
      deck.Shuffle();
    }

    /** calculateScores */
    method CalculateScores()
      modifies this
      ensures Snapshot() == Rescored(old(Snapshot()))
    {
      playerScore := RunningScore(playerHand);
      bankerScore := RunningScore(bankerHand);
    }

    method Deal()
      requires |deck.cards| >= 4
      modifies this, deck
      ensures Snapshot() == DealStep(old(Snapshot()))
    {
      ghost var cards := deck.cards;
      var p1 := deck.DrawCard();
      var p2 := deck.DrawCard();
      playerHand := [p1, p2];
      var b1 := deck.DrawCard();
      var b2 := deck.DrawCard();
      bankerHand := [b1, b2];
      assert playerHand == cards[..2] && bankerHand == cards[2..4] && deck.cards == cards[4..];
      CalculateScores();
    }

    /** NeedThirdCard: no natural and the player on 0..5, that is, exactly when DealThirdCard gives the player a card. */
    function NeedThirdCard(): (need: bool)
      reads this, deck
      ensures CanDealThird(Snapshot()) ==>
        (need <==> |ThirdCardStep(Snapshot()).player| == |playerHand| + 1)
    {
      if playerScore >= 8 || bankerScore >= 8 then false
      else playerScore <= 5
    }

    method DrawBankerThird()
      requires |deck.cards| >= 1
      modifies this, deck
      ensures Snapshot() == Rescored(old(Snapshot()).(banker := old(bankerHand) + [old(deck.cards[0])],
        bankerThird := PipValue(old(deck.cards[0])), deck := old(deck.cards[1..])))
    {
      var card := deck.DrawCard();
      bankerHand := bankerHand + [card];
      bankerThirdValue := PipValue(card);
      CalculateScores();
    }

    method DealThirdCard()
      requires CanDealThird(Snapshot())
      modifies this, deck
      ensures Snapshot() == ThirdCardStep(old(Snapshot()))
    {
      if playerScore >= 8 || bankerScore >= 8 {
        return;
      }
      if playerScore <= 5 {
        var card := deck.DrawCard();
        playerHand := playerHand + [card];
        playerThirdValue := PipValue(card);
        CalculateScores();
      }
      if playerThirdValue == -1 {
        if bankerScore <= 5 {
          DrawBankerThird();
        }
      } else {
        if BankerDraws(bankerScore, playerThirdValue) {
          DrawBankerThird();
        }
      }
    }

    method CalculatePayouts(odds: Odds)
      modifies this
      ensures Snapshot() == PayoutsStep(old(Snapshot()), odds)
    {
      var table := OddsTable(0.0, 0.0, 0.0, 0.0);
      match winner {
        case Player =>
          table := table.(player := odds.player);
        case Banker =>
          if isLuckySix {
            if luckySixType == TwoCards {
              table := table.(banker := odds.bankerLuckySixTwoCards, luckySix := odds.luckySixTwoCards);
            } else {
              table := table.(banker := odds.bankerLuckySixThreeCards, luckySix := odds.luckySixThreeCards);
            }
          } else {
            table := table.(banker := odds.banker);
          }
        case Tie =>
          table := table.(tie := odds.tie, player := 1.0, banker := 1.0, luckySix := 1.0);
        case Undecided =>
      }
      payouts := Some(table);
    }

    method DetermineWinner(odds: Odds)
      modifies this
      ensures Snapshot() == DetermineStep(old(Snapshot()), odds)
    {
      if playerScore > bankerScore {
        winner, isLuckySix, luckySixType := Player, false, NoSix;
      } else if bankerScore > playerScore {
        winner := Banker;
        if bankerScore == 6 {
          isLuckySix := true;
          if |bankerHand| == 2 {
            luckySixType := TwoCards;
          } else {
            luckySixType := ThreeCards;
          }
        } else {
          isLuckySix, luckySixType := false, NoSix;
        }
      } else {
        winner, isLuckySix, luckySixType := Tie, false, NoSix;
      }
      CalculatePayouts(odds);
    }

    method Play(odds: Odds)
      requires PlayReady(Snapshot())
      modifies this, deck
      ensures Snapshot() == PlayStep(old(Snapshot()), odds)
    {
      playerThirdValue := -1;
      bankerThirdValue := -1;
      Deal();
      DealThirdCard();
      DetermineWinner(odds);
      CalculatePayouts(odds);
    }

    /** GetPayouts: the per-wager payout map for this game's result. */
    method GetPayouts(bets: Wager, odds: Odds) returns (m: Sheet)
      ensures m == WagerPayouts(bets, Outcome(winner, isLuckySix, luckySixType), odds)
    {
      m := BuildPayouts(bets, Outcome(winner, isLuckySix, luckySixType), odds);
    }

    /** GetTotalPayout: the present win entries plus the player, banker and Lucky-Six principals. */
    method GetTotalPayout(m: Sheet) returns (total: real)
      ensures total == WinTotal(m) + m.playerPrincipal + m.bankerPrincipal + m.luckySixPrincipal
    {
      total := TotalPayout(m);
    }

    /** GetPlayerInitialScore: the score of the player's first two cards (or fewer). */
    method GetPlayerInitialScore() returns (score: int)
      ensures score == Score(playerHand[..if |playerHand| < 2 then |playerHand| else 2])
    {
      score := FirstTwoScore(playerHand);
    }

    /** GetBankerInitialScore: the score of the banker's first two cards (or fewer). */
    method GetBankerInitialScore() returns (score: int)
      ensures score == Score(bankerHand[..if |bankerHand| < 2 then |bankerHand| else 2])
    {
      score := FirstTwoScore(bankerHand);
    }
  }

  /** The running score over at most the first two cards of a hand. */
  method FirstTwoScore(hand: seq<Card>) returns (score: int)
    ensures score == Score(hand[..if |hand| < 2 then |hand| else 2])
  {
    score := 0;
    var i := 0;
    while i < 2 && i < |hand|
      invariant 0 <= i <= 2 && i <= |hand|
      invariant score == Score(hand[..i])
    {
      ScorePrefixStep(hand, i);
      score := (score + PipValue(hand[i])) % 10;
      i := i + 1;
    }
  }

  /** The scores of the two initial hands of a round over `deck`. */
  function InitialPlayer(deck: seq<Card>): nat
    requires |deck| >= 4
  {
    Score(deck[..2])
  }

  function InitialBanker(deck: seq<Card>): nat
    requires |deck| >= 4
  {
    Score(deck[2..4])
  }

  /** Deal gives the player the first and second cards drawn and the banker the third and fourth. */
  lemma RoundDealOrder(deck: seq<Card>, odds: Odds)
    requires PlayReady(Start(deck))
    ensures var r := Round(deck, odds);
      |r.player| >= 2 && |r.banker| >= 2 && r.player[..2] == deck[..2] && r.banker[..2] == deck[2..4]
  {
  }

  /** A natural on either side ends the drawing: both hands keep two cards. */
  lemma RoundNatural(deck: seq<Card>, odds: Odds)
    requires PlayReady(Start(deck))
    requires InitialPlayer(deck) >= 8 || InitialBanker(deck) >= 8
    ensures |Round(deck, odds).player| == 2 && |Round(deck, odds).banker| == 2
  {
  }

  /** Without a natural the player draws exactly on 0..5, and the card drawn is the fifth. */
  lemma RoundPlayerDraw(deck: seq<Card>, odds: Odds)
    requires PlayReady(Start(deck))
    requires InitialPlayer(deck) < 8 && InitialBanker(deck) < 8
    ensures |Round(deck, odds).player| == 3 <==> InitialPlayer(deck) <= 5
    ensures |Round(deck, odds).player| == 3 ==> Round(deck, odds).player[2] == deck[4]
  {
  }

  /** When the player stands without a natural, the banker draws exactly on 0..5. */
  lemma RoundBankerAfterStand(deck: seq<Card>, odds: Odds)
    requires PlayReady(Start(deck))
    requires InitialPlayer(deck) < 8 && InitialBanker(deck) < 8 && InitialPlayer(deck) > 5
    ensures |Round(deck, odds).banker| == 3 <==> InitialBanker(deck) <= 5
  {
  }

  /** After the player draws, the banker draws by the tableau on the pip value of the player's card. */
  lemma RoundBankerTableau(deck: seq<Card>, odds: Odds)
    requires PlayReady(Start(deck))
    requires InitialPlayer(deck) < 8 && InitialBanker(deck) < 8 && InitialPlayer(deck) <= 5
    ensures |Round(deck, odds).banker| == 3 <==> BankerDraws(InitialBanker(deck), PipValue(deck[4]))
  {
  }

  /**
   * The winner is the higher final score, a tie on equal scores; the Lucky Six is a banker win
   * on 6, named after the banker's card count, and otherwise no Lucky Six at all.
   */
  lemma RoundVerdict(deck: seq<Card>, odds: Odds)
    requires PlayReady(Start(deck))
    ensures var r := Round(deck, odds);
      r.playerScore == Score(r.player) && r.bankerScore == Score(r.banker) &&
      r.winner == Compare(Score(r.player), Score(r.banker)) &&
      (r.luckySix <==> r.winner == Banker && Score(r.banker) == 6) &&
      r.sixType == (if r.luckySix then SixTypeOf(r.banker) else NoSix)
  {
  }

  /**
   * Every card dealt comes off the front of the deck: the third cards, player's first, follow
   * the four dealt ones, and the deck keeps the rest.
   */
  lemma RoundConsumesFront(deck: seq<Card>, odds: Odds)
    requires PlayReady(Start(deck))
    ensures var r := Round(deck, odds);
      4 <= |r.player| + |r.banker| <= |deck| && r.deck == deck[|r.player| + |r.banker|..] &&
      r.player[2..] + r.banker[2..] == deck[4..|r.player| + |r.banker|]
  {
  }

  /** Cutting a deck into two dealt hands and a remainder keeps its cards. */
  lemma DealtCardsPartition(deck: seq<Card>, player: seq<Card>, banker: seq<Card>, rest: seq<Card>)
    requires |player| >= 2 && |banker| >= 2 && 4 <= |player| + |banker| <= |deck|
    requires player[..2] == deck[..2] && banker[..2] == deck[2..4]
    requires player[2..] + banker[2..] == deck[4..|player| + |banker|]
    requires rest == deck[|player| + |banker|..]
    ensures multiset(player) + multiset(banker) + multiset(rest) == multiset(deck)
  {
    var n := |player| + |banker|;
    assert deck == deck[..2] + deck[2..4] + deck[4..n] + rest;
    assert player == player[..2] + player[2..];
    assert banker == banker[..2] + banker[2..];
  }

  /** The hands and the remaining deck together hold exactly the cards of the original deck. */
  lemma RoundKeepsCards(deck: seq<Card>, odds: Odds)
    requires PlayReady(Start(deck))
    ensures var r := Round(deck, odds);
      multiset(r.player) + multiset(r.banker) + multiset(r.deck) == multiset(deck)
  {
    var r := Round(deck, odds);
    RoundConsumesFront(deck, odds);
    RoundDealOrder(deck, odds);
    DealtCardsPartition(deck, r.player, r.banker, r.deck);
  }

  /**
   * A tie earns back the player, banker and Lucky-Six wagers at 1.0 and pays the tie odds; the
   * table is the same whether CalculatePayouts ran once or twice.
   */
  lemma RoundTieOdds(deck: seq<Card>, odds: Odds)
    requires PlayReady(Start(deck))
    ensures var r := Round(deck, odds);
      r.payouts == Some(OddsFor(r.winner, r.luckySix, r.sixType, odds)) &&
      (r.winner == Tie ==> r.payouts == Some(OddsTable(1.0, 1.0, odds.tie, 1.0)))
  {
  }

  /** Two states with the same deck, hands, scores and third-card values. */
  predicate SameTable(a: State, b: State) {
    a.deck == b.deck && a.player == b.player && a.banker == b.banker &&
    a.playerScore == b.playerScore && a.bankerScore == b.bankerScore &&
    a.playerThird == b.playerThird && a.bankerThird == b.bankerThird
  }

  /** The draw looks only at the table, so equal tables draw alike. */
  lemma ThirdCardSameTable(a: State, b: State)
    requires SameTable(a, b) && CanDealThird(a)
    ensures CanDealThird(b) && SameTable(ThirdCardStep(a), ThirdCardStep(b))
  {
  }

  /** DetermineWinner overwrites every field that is not part of the table. */
  lemma DetermineSameTable(a: State, b: State, odds: Odds)
    requires SameTable(a, b)
    ensures DetermineStep(a, odds) == DetermineStep(b, odds)
  {
  }

  /** Play forgets everything but the deck: its result is a new game's round over the same deck. */
  lemma PlayDependsOnDeckOnly(s: State, odds: Odds)
    requires PlayReady(s)
    ensures PlayReady(Start(s.deck)) && PlayStep(s, odds) == Round(s.deck, odds)
  {
    var d1 := DealStep(s.(playerThird := -1, bankerThird := -1));
    var d2 := DealStep(Start(s.deck).(playerThird := -1, bankerThird := -1));
    assert SameTable(d1, d2);
    ThirdCardSameTable(d1, d2);
    DetermineSameTable(ThirdCardStep(d1), ThirdCardStep(d2), odds);
  }

  /** A deck of six cards or more always suffices for a round, so a fresh 52-card deck never runs out. */
  lemma SixCardsSuffice(deck: seq<Card>)
    requires |deck| >= 6
    ensures PlayReady(Start(deck))
  {
  }

  /** Each hand ends a round with two or three cards. */
  lemma RoundHandSizes(deck: seq<Card>, odds: Odds)
    requires PlayReady(Start(deck))
    ensures 2 <= |Round(deck, odds).player| <= 3 && 2 <= |Round(deck, odds).banker| <= 3
  {
  }
}
