/**
 * The round engine of baccarat/internal/game/game.go, the one the play handler runs: a game
 * object owning its deck slice, with the deck built and swap-shuffled in place, cards taken
 * from the front, no natural check, the tableau fed the raw rank of the player's third card,
 * and the Lucky Six set whenever the banker finishes on 6.
 */
module ProductionGame {
  import opened Rules
  import Shoe

  datatype State = State(
    deck: seq<Card>,
    player: seq<Card>,
    banker: seq<Card>,
    playerScore: int,
    bankerScore: int,
    winner: Winner,
    luckySix: bool,
    sixType: SixType)

  /** A new game's fields around a deck. */
  function Start(deck: seq<Card>): State {
    State(deck, [], [], 0, 0, Undecided, false, NoSix)
  }

  /** Deal: Deck[0] and Deck[1] appended to the player, Deck[2] and Deck[3] to the banker, Deck = Deck[4:]. */
  function DealStep(s: State): State
    requires |s.deck| >= 4
  {
    var player := s.player + s.deck[..2];
    var banker := s.banker + s.deck[2..4];
    s.(player := player, banker := banker, deck := s.deck[4..],
       playerScore := Score(player), bankerScore := Score(banker))
  }

  /** The player's draw: Deck[0] appended and the player rescored. */
  function PlayerDrawStep(s: State): State
    requires |s.deck| >= 1
  {
    var player := s.player + [s.deck[0]];
    s.(player := player, deck := s.deck[1..], playerScore := Score(player))
  }

  function BankerDrawStep(s: State): State
    requires |s.deck| >= 1
  {
    var banker := s.banker + [s.deck[0]];
    s.(banker := banker, deck := s.deck[1..], bankerScore := Score(banker))
  }

  /**
   * Whether the banker draws after the player drew: the tableau on the banker's score before
   * the player's draw and the raw rank (PlayerHand.Cards[2].Value) of the player's third card.
   */
  predicate BankerFollows(s: State, drawn: State)
    requires |drawn.player| > 2
  {
    BankerDraws(s.bankerScore, drawn.player[2].value)
  }

  /** DealThirdCard finds every card it draws and the player's third card at index 2. */
  predicate CanDealThird(s: State) {
    if s.playerScore <= 5 then
      |s.deck| >= 1 && |s.player| >= 2 &&
      (BankerFollows(s, PlayerDrawStep(s)) ==> |s.deck| >= 2)
    else s.bankerScore <= 5 ==> |s.deck| >= 1
  }

  /**
   * DealThirdCard: the player on 0..5 draws and the banker then follows the tableau; a player
   * on 6..9 leaves the banker to draw on 0..5. No score ends the drawing early.
   */
  function ThirdCardStep(s: State): State
    requires CanDealThird(s)
  {
    if s.playerScore <= 5 then
      var drawn := PlayerDrawStep(s);
      if BankerFollows(s, drawn) then BankerDrawStep(drawn) else drawn
    else if s.bankerScore <= 5 then BankerDrawStep(s)
    else s
  }

  /**
   * DetermineWinner: a banker score of 6 sets the Lucky Six (named after the banker's card
   * count) and leaves it untouched otherwise; the winner is Tie on equal scores, else the higher.
   */
  function DetermineStep(s: State): State {
    var s1 := if s.bankerScore == 6 then s.(luckySix := true, sixType := SixTypeOf(s.banker)) else s;
    s1.(winner := if s.playerScore == s.bankerScore then Tie
                  else if s.playerScore > s.bankerScore then Player
                  else Banker)
  }

  predicate PlayReady(deck: seq<Card>) {
    |deck| >= 4 && CanDealThird(DealStep(Start(deck)))
  }

  /** The handler's round on a new game: Deal, DealThirdCard, DetermineWinner. */
  function Round(deck: seq<Card>): State
    requires PlayReady(deck)
  {
    DetermineStep(ThirdCardStep(DealStep(Start(deck))))
  }

  class Game {
    var playerHand: seq<Card>
    var bankerHand: seq<Card>
    var playerScore: int
    var bankerScore: int
    var winner: Winner
    var isLuckySix: bool
    var luckySixType: SixType
    var deck: seq<Card>

    function Snapshot(): State
      reads this
    {
      State(deck, playerHand, bankerHand, playerScore, bankerScore, winner, isLuckySix, luckySixType)
    }

    /** NewGame: a 52-slot deck, filled in suit-major order and then swap-shuffled. */
    constructor NewGame()
      ensures Snapshot() == Start(deck)
      ensures |deck| == 52 && multiset(deck) == multiset(Shoe.StandardDeck())
    {
      playerHand, bankerHand := [], [];
      playerScore, bankerScore := 0, 0;
      winner, isLuckySix, luckySixType := Undecided, false, NoSix;
      deck := seq(52, _ => Card(0, 0));
      new;
      InitializeDeck();
      ShuffleDeck();
    }

    /** initializeDeck */
    method InitializeDeck()
      requires |deck| == 52
      modifies this
      ensures Snapshot() == old(Snapshot()).(deck := Shoe.StandardDeck())
    {
      deck := Shoe.FillStandard(deck);
    }

    /** shuffleDeck */
    method ShuffleDeck()
      modifies this
      ensures |deck| == old(|deck|) && multiset(deck) == old(multiset(deck))
      ensures Snapshot() == old(Snapshot()).(deck := deck)
    {
      deck := Shoe.SwapShuffle(deck);
    }

    method Deal()
      requires |deck| >= 4
      modifies this
      ensures Snapshot() == DealStep(old(Snapshot()))
    {
      playerHand := playerHand + [deck[0], deck[1]];
      bankerHand := bankerHand + [deck[2], deck[3]];
      assert [deck[0], deck[1]] == deck[..2] && [deck[2], deck[3]] == deck[2..4];
      deck := deck[4..];
      playerScore := SumScore(playerHand);
      bankerScore := SumScore(bankerHand);
    }

    method DealThirdCard()
      requires CanDealThird(Snapshot())
      modifies this
      ensures Snapshot() == ThirdCardStep(old(Snapshot()))
    {
      var playerScore0 := playerScore;
      var bankerScore0 := bankerScore;
      if playerScore0 <= 5 {
        playerHand := playerHand + [deck[0]];
        deck := deck[1..];
        playerScore := SumScore(playerHand);
        var playerThirdCard := playerHand[2].value;
        if BankerDraws(bankerScore0, playerThirdCard) {
          bankerHand := bankerHand + [deck[0]];
          deck := deck[1..];
          bankerScore := SumScore(bankerHand);
        }
      } else if bankerScore0 <= 5 {
        bankerHand := bankerHand + [deck[0]];
        deck := deck[1..];
        bankerScore := SumScore(bankerHand);
      }
    }

    method DetermineWinner()
      modifies this
      ensures Snapshot() == DetermineStep(old(Snapshot()))
    {
      if bankerScore == 6 {
        isLuckySix := true;
        if |bankerHand| == 2 {
          luckySixType := TwoCards;
        } else {
          luckySixType := ThreeCards;
        }
      }
      if playerScore == bankerScore {
        winner := Tie;
      } else if playerScore > bankerScore {
        winner := Player;
      } else {
        winner := Banker;
      }
    }
  }

  function InitialPlayer(deck: seq<Card>): nat
    requires |deck| >= 4
  {
    Score(deck[..2])
  }

  function InitialBanker(deck: seq<Card>): nat
    requires |deck| >= 4
  {
    Score(deck[2..4])
  }

  /** The deal of a new game over `deck`, written out. */
  lemma DealFromStart(deck: seq<Card>)
    requires |deck| >= 4
    ensures DealStep(Start(deck)) ==
      State(deck[4..], deck[..2], deck[2..4], InitialPlayer(deck), InitialBanker(deck), Undecided, false, NoSix)
  {
    assert [] + deck[..2] == deck[..2];
    assert [] + deck[2..4] == deck[2..4];
  }

  /** A deck of six cards or more always suffices for a round, so a fresh 52-card deck never runs out. */
  lemma SixCardsSuffice(deck: seq<Card>)
    requires |deck| >= 6
    ensures PlayReady(deck)
  {
    DealFromStart(deck);
  }

  /** Deal: Deck[0], Deck[1] to the player and Deck[2], Deck[3] to the banker. */
  lemma RoundDeal(deck: seq<Card>)
    requires PlayReady(deck)
    ensures |Round(deck).player| >= 2 && |Round(deck).banker| >= 2
    ensures Round(deck).player[..2] == deck[..2] && Round(deck).banker[..2] == deck[2..4]
  {
    DealFromStart(deck);
  }

  /** The player draws exactly on an initial 0..5, whatever the banker holds. */
  lemma RoundPlayerDraw(deck: seq<Card>)
    requires PlayReady(deck)
    ensures |Round(deck).player| == 3 <==> InitialPlayer(deck) <= 5
    ensures |Round(deck).player| == 3 ==> |deck| >= 5 && Round(deck).player[2] == deck[4]
  {
    DealFromStart(deck);
  }

  /** A standing player (6..9) leaves the banker to draw exactly on an initial 0..5. */
  lemma RoundBankerAfterStand(deck: seq<Card>)
    requires PlayReady(deck)
    requires InitialPlayer(deck) > 5
    ensures |Round(deck).banker| == 3 <==> InitialBanker(deck) <= 5
  {
    DealFromStart(deck);
  }

  /**
   * After the player draws, the banker draws by the tableau on the initial banker score and the
   * raw rank of the player's third card, which decides exactly as its pip value would.
   */
  lemma RoundBankerTableau(deck: seq<Card>)
    requires PlayReady(deck)
    requires InitialPlayer(deck) <= 5
    ensures |deck| >= 5
    ensures |Round(deck).banker| == 3 <==> BankerDraws(InitialBanker(deck), deck[4].value)
    ensures |Round(deck).banker| == 3 <==> BankerDraws(InitialBanker(deck), PipValue(deck[4]))
  {
    DealFromStart(deck);
    RawRankSameDecision(InitialBanker(deck), deck[4]);
  }

  /** The Lucky Six is a final banker score of 6, whoever wins; the winner is the comparison. */
  lemma RoundVerdict(deck: seq<Card>)
    requires PlayReady(deck)
    ensures var r := Round(deck);
      r.playerScore == Score(r.player) && r.bankerScore == Score(r.banker) &&
      r.winner == Compare(Score(r.player), Score(r.banker)) &&
      (r.luckySix <==> Score(r.banker) == 6) &&
      r.sixType == (if r.luckySix then SixTypeOf(r.banker) else NoSix)
  {
    DealFromStart(deck);
  }

  /** The deck shrinks by exactly the cards dealt, all taken from its front. */
  lemma RoundConsumesFront(deck: seq<Card>)
    requires PlayReady(deck)
    ensures var r := Round(deck);
      4 <= |r.player| + |r.banker| <= |deck| && r.deck == deck[|r.player| + |r.banker|..] &&
      |r.deck| == |deck| - (|r.player| + |r.banker|)
  {
    DealFromStart(deck);
  }

  /** Every card of either hand comes from the deck. */
  lemma RoundHandsFromDeck(deck: seq<Card>)
    requires PlayReady(deck)
    ensures forall k :: 0 <= k < |Round(deck).player| ==> Round(deck).player[k] in deck
    ensures forall k :: 0 <= k < |Round(deck).banker| ==> Round(deck).banker[k] in deck
  {
    DealFromStart(deck);
    var r := Round(deck);
    var n := |r.player| + |r.banker|;
    assert r.deck == deck[n..];
    forall k | 0 <= k < |r.player| ensures r.player[k] in deck {
      if k == 2 { assert r.player[2] == deck[4]; } else { assert r.player[k] == deck[k]; }
    }
    forall k | 0 <= k < |r.banker| ensures r.banker[k] in deck {
      if k < 2 { assert r.banker[k] == deck[2 + k]; } else { assert r.banker[2] == deck[n - 1]; }
    }
  }

  /** As written: the player draws on 5 against a banker natural 8 and turns the banker's win into a tie. */
  const NaturalDeck: seq<Card> := [Card(0, 2), Card(0, 3), Card(1, 4), Card(1, 4), Card(2, 3), Card(3, 13)]

  lemma NaturalIgnored()
    ensures PlayReady(NaturalDeck)
    ensures InitialBanker(NaturalDeck) == 8
    ensures |Round(NaturalDeck).player| == 3 && Round(NaturalDeck).winner == Tie
  {
    var d := NaturalDeck;
    DealFromStart(d);
    assert d[..2] == [d[0], d[1]] && d[2..4] == [d[2], d[3]];
    PipSumPair(d[0], d[1]);
    PipSumPair(d[2], d[3]);
    var drawn := d[..2] + [d[4]];
    assert drawn[..2] == d[..2];
  }

  /** As written: a player 7 beats a banker 6 and the round still counts as a two-card Lucky Six. */
  const LosingSixDeck: seq<Card> := [Card(0, 3), Card(0, 4), Card(1, 3), Card(1, 3)]

  lemma LuckySixOnBankerLoss()
    ensures PlayReady(LosingSixDeck)
    ensures Round(LosingSixDeck).winner == Player
    ensures Round(LosingSixDeck).luckySix && Round(LosingSixDeck).sixType == TwoCards
  {
    var d := LosingSixDeck;
    DealFromStart(d);
    assert d[..2] == [d[0], d[1]] && d[2..4] == [d[2], d[3]];
    PipSumPair(d[0], d[1]);
    PipSumPair(d[2], d[3]);
  }

  /** A natural: either side holds 8 or 9 after the deal. */
  predicate IsNatural(s: State) {
    s.playerScore >= 8 || s.bankerScore >= 8
  }

  /** Corrected DealThirdCard: a natural ends the drawing, otherwise as written. */
  function StandardThirdCardStep(s: State): State
    requires !IsNatural(s) ==> CanDealThird(s)
  {
    if IsNatural(s) then s else ThirdCardStep(s)
  }

  /** Corrected DetermineWinner: the Lucky Six only on a banker win with 6, cleared otherwise. */
  function StandardDetermineStep(s: State): State {
    var w := if s.playerScore == s.bankerScore then Tie
             else if s.playerScore > s.bankerScore then Player
             else Banker;
    var six := w == Banker && s.bankerScore == 6;
    s.(winner := w, luckySix := six, sixType := if six then SixTypeOf(s.banker) else NoSix)
  }

  predicate StandardReady(deck: seq<Card>) {
    |deck| >= 4 && (!IsNatural(DealStep(Start(deck))) ==> CanDealThird(DealStep(Start(deck))))
  }

  /** The corrected round. */
  function StandardRound(deck: seq<Card>): State
    requires StandardReady(deck)
  {
    StandardDetermineStep(StandardThirdCardStep(DealStep(Start(deck))))
  }

  /** Corrected: a natural on either side leaves both hands at two cards. */
  lemma StandardRoundNatural(deck: seq<Card>)
    requires StandardReady(deck)
    requires InitialPlayer(deck) >= 8 || InitialBanker(deck) >= 8
    ensures |StandardRound(deck).player| == 2 && |StandardRound(deck).banker| == 2
  {
    DealFromStart(deck);
  }

  /** Corrected: the Lucky Six is exactly a banker win on 6. */
  lemma StandardRoundVerdict(deck: seq<Card>)
    requires StandardReady(deck)
    ensures var r := StandardRound(deck);
      r.winner == Compare(Score(r.player), Score(r.banker)) &&
      (r.luckySix <==> r.winner == Banker && Score(r.banker) == 6) &&
      r.sixType == (if r.luckySix then SixTypeOf(r.banker) else NoSix)
  {
    DealFromStart(deck);
  }

  /** Without a natural and without a banker 6, the corrected round is the round as written. */
  lemma StandardRoundAgrees(deck: seq<Card>)
    requires PlayReady(deck)
    requires InitialPlayer(deck) < 8 && InitialBanker(deck) < 8
    requires Score(Round(deck).banker) != 6
    ensures StandardReady(deck) && StandardRound(deck) == Round(deck)
  {
    DealFromStart(deck);
  }
}
