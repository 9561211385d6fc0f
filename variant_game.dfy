/**
 * The round engine of baccarat/game/baccarat.go: cards dealt alternately, the third-card phase
 * entered only through NeedThirdCard, and the Lucky Six read as "banker on 6 with two cards".
 */
module VariantGame {
  import opened Rules
  import CardDeck
  import Shoe

  datatype State = State(
    deck: seq<Card>,
    player: seq<Card>,
    banker: seq<Card>,
    playerScore: int,
    bankerScore: int,
    winner: Winner,
    luckySix: bool)

  function Start(deck: seq<Card>): State {
    State(deck, [], [], 0, 0, Undecided, false)
  }

  function Rescored(s: State): State {
    s.(playerScore := Score(s.player), bankerScore := Score(s.banker))
  }

  /** Deal: four draws appended alternately to the player, the banker, the player and the banker. */
  function DealStep(s: State): State
    requires |s.deck| >= 4
  {
    Rescored(s.(player := s.player + [s.deck[0], s.deck[2]], banker := s.banker + [s.deck[1], s.deck[3]],
                deck := s.deck[4..]))
  }

  /** NeedThirdCard: no natural on either side and the player on 0..5. */
  predicate NeedThird(s: State) {
    !(s.playerScore >= 8 || s.bankerScore >= 8) && s.playerScore <= 5
  }

  /** The player's draw of DealThirdCard (only on 0..5). */
  function PlayerDrawStep(s: State): State
    requires |s.deck| >= 1
  {
    Rescored(s.(player := s.player + [s.deck[0]], deck := s.deck[1..]))
  }

  function BankerDrawStep(s: State): State
    requires |s.deck| >= 1
  {
    Rescored(s.(banker := s.banker + [s.deck[0]], deck := s.deck[1..]))
  }

  /** The deck holds every card DealThirdCard will draw. */
  predicate CanDealThird(s: State) {
    if s.playerScore <= 5 then
      |s.deck| >= 1 &&
      (BankerDraws(PlayerDrawStep(s).bankerScore, PipValue(s.deck[0])) ==> |s.deck| >= 2)
    else s.bankerScore <= 5 ==> |s.deck| >= 1
  }

  /**
   * DealThirdCard: the player on 0..5 draws and the banker then follows the tableau on that
   * card's pip value; a standing player leaves the banker to draw on 0..5. There is no natural
   * check here: Play only calls it when NeedThirdCard holds.
   */
  function ThirdCardStep(s: State): State
    requires CanDealThird(s)
  {
    if s.playerScore <= 5 then
      var drawn := PlayerDrawStep(s);
      if BankerDraws(drawn.bankerScore, PipValue(s.deck[0])) then BankerDrawStep(drawn) else drawn
    else if s.bankerScore <= 5 then BankerDrawStep(s)
    else s
  }

  /** DetermineWinner: the Lucky Six is a banker 6 on two cards, whoever wins; then the comparison. */
  function DetermineStep(s: State): State {
    s.(luckySix := s.bankerScore == 6 && |s.banker| == 2, winner := Compare(s.playerScore, s.bankerScore))
  }

  predicate PlayReady(s: State) {
    |s.deck| >= 4 && (NeedThird(DealStep(s)) ==> CanDealThird(DealStep(s)))
  }

  /** Play: Deal, DealThirdCard only if NeedThirdCard, then DetermineWinner. */
  function PlayStep(s: State): State
    requires PlayReady(s)
  {
    var dealt := DealStep(s);
    DetermineStep(if NeedThird(dealt) then ThirdCardStep(dealt) else dealt)
  }

  function Round(deck: seq<Card>): State
    requires PlayReady(Start(deck))
  {
    PlayStep(Start(deck))
  }

  class Game {
    const deck: CardDeck.Deck
    var playerHand: seq<Card>
    var bankerHand: seq<Card>
    var playerScore: int
    var bankerScore: int
    var winner: Winner
    var isLuckySix: bool

    function Snapshot(): State
      reads this, deck
    {
      State(deck.cards, playerHand, bankerHand, playerScore, bankerScore, winner, isLuckySix)
    }

    constructor NewGame()
      ensures fresh(deck)
      ensures Snapshot() == Start(deck.cards)
      ensures multiset(deck.cards) == multiset(Shoe.StandardDeck())
    {
      deck := new CardDeck.Deck.NewDeck();
      playerHand, bankerHand := [], [];
      playerScore, bankerScore := 0, 0;
      winner, isLuckySix := Undecided, false;
      new;
      deck.Shuffle();
    }

    method CalculateScores()
      modifies this
      ensures Snapshot() == Rescored(old(Snapshot()))
    {
      playerScore := RunningScore(playerHand);
      bankerScore := RunningScore(bankerHand);
    }

    method Deal()
      requires |deck.cards| >= 4
      modifies this, deck
      ensures Snapshot() == DealStep(old(Snapshot()))
    {
      ghost var cards := deck.cards;
      var card := deck.DrawCard();
      playerHand := playerHand + [card];
      card := deck.DrawCard();
      bankerHand := bankerHand + [card];
      card := deck.DrawCard();
      playerHand := playerHand + [card];
      card := deck.DrawCard();
      bankerHand := bankerHand + [card];
      assert deck.cards == cards[4..];
      CalculateScores();
    }

    /** NeedThirdCard: exactly when Play lets the player draw. */
    function NeedThirdCard(): (need: bool)
      reads this
      ensures need <==> NeedThird(State([], playerHand, bankerHand, playerScore, bankerScore, winner, isLuckySix))
    {
      if playerScore >= 8 || bankerScore >= 8 then false
      else playerScore <= 5
    }

    method DealThirdCard()
      requires CanDealThird(Snapshot())
      modifies this, deck
      ensures Snapshot() == ThirdCardStep(old(Snapshot()))
    {
      if playerScore <= 5 {
        var playerThirdCard := deck.DrawCard();
        playerHand := playerHand + [playerThirdCard];
        CalculateScores();
        var playerThirdValue := PipValue(playerThirdCard);
        if BankerDraws(bankerScore, playerThirdValue) {
          var card := deck.DrawCard();
          bankerHand := bankerHand + [card];
          CalculateScores();
        }
      } else if bankerScore <= 5 {
        var card := deck.DrawCard();
        bankerHand := bankerHand + [card];
        CalculateScores();
      }
    }

    method DetermineWinner()
      modifies this
      ensures Snapshot() == DetermineStep(old(Snapshot()))
    {
      isLuckySix := bankerScore == 6 && |bankerHand| == 2;
      if playerScore > bankerScore {
        winner := Player;
      } else if bankerScore > playerScore {
        winner := Banker;
      } else {
        winner := Tie;
      }
    }

    method Play()
      requires PlayReady(Snapshot())
      modifies this, deck
      ensures Snapshot() == PlayStep(old(Snapshot()))
    {
      Deal();
      if NeedThirdCard() {
        DealThirdCard();
      }
      DetermineWinner();
    }
  }

  function InitialPlayer(deck: seq<Card>): nat
    requires |deck| >= 4
  {
    Score([deck[0], deck[2]])
  }

  function InitialBanker(deck: seq<Card>): nat
    requires |deck| >= 4
  {
    Score([deck[1], deck[3]])
  }

  /** The deal of a new game over `deck`, written out. */
  lemma DealFromStart(deck: seq<Card>)
    requires |deck| >= 4
    ensures DealStep(Start(deck)) ==
      State(deck[4..], [deck[0], deck[2]], [deck[1], deck[3]], InitialPlayer(deck), InitialBanker(deck), Undecided, false)
  {
    assert [] + [deck[0], deck[2]] == [deck[0], deck[2]];
    assert [] + [deck[1], deck[3]] == [deck[1], deck[3]];
  }

  /** Deal alternates: the player holds the first and third cards drawn, the banker the second and fourth. */
  lemma RoundDealAlternates(deck: seq<Card>)
    requires PlayReady(Start(deck))
    ensures var r := Round(deck);
      |r.player| >= 2 && |r.banker| >= 2 &&
      r.player[..2] == [deck[0], deck[2]] && r.banker[..2] == [deck[1], deck[3]]
  {
    DealFromStart(deck);
  }

  /** The player draws exactly when NeedThirdCard holds after the deal. */
  lemma RoundPlayerDraw(deck: seq<Card>)
    requires PlayReady(Start(deck))
    ensures |Round(deck).player| == 3 <==>
      InitialPlayer(deck) < 8 && InitialBanker(deck) < 8 && InitialPlayer(deck) <= 5
  {
    DealFromStart(deck);
  }

  /** After the player draws, the banker follows the tableau on the pip value of the player's card. */
  lemma RoundBankerTableau(deck: seq<Card>)
    requires PlayReady(Start(deck))
    requires |Round(deck).player| == 3
    ensures |Round(deck).banker| == 3 <==> BankerDraws(InitialBanker(deck), PipValue(deck[4]))
  {
    DealFromStart(deck);
  }

  /**
   * The banker draws only if the player drew: DealThirdCard's branch for a standing player is
   * never reached from Play.
   */
  lemma RoundBankerOnlyAfterPlayer(deck: seq<Card>)
    requires PlayReady(Start(deck))
    ensures |Round(deck).banker| == 3 ==> |Round(deck).player| == 3
  {
    DealFromStart(deck);
  }

  /** The Lucky Six is a final banker score of 6 on two cards, whoever wins; the winner is the comparison. */
  lemma RoundVerdict(deck: seq<Card>)
    requires PlayReady(Start(deck))
    ensures var r := Round(deck);
      (r.luckySix <==> Score(r.banker) == 6 && |r.banker| == 2) &&
      r.winner == Compare(Score(r.player), Score(r.banker))
  {
    DealFromStart(deck);
  }

  /** A deck on which the player stands on 6 and the banker, on 3, is never given a card. */
  const StandOffDeck: seq<Card> := [Card(0, 3), Card(1, 1), Card(0, 3), Card(1, 2), Card(2, 9)]

  /** As written: the banker on 3 facing a standing player on 6 keeps two cards and loses. */
  lemma StandOffBankerStands()
    ensures PlayReady(Start(StandOffDeck))
    ensures InitialPlayer(StandOffDeck) == 6 && InitialBanker(StandOffDeck) == 3
    ensures |Round(StandOffDeck).banker| == 2 && Round(StandOffDeck).winner == Player
  {
    var d := StandOffDeck;
    PipSumPair(d[0], d[2]);
    PipSumPair(d[1], d[3]);
    DealFromStart(d);
  }

  /** Play with the third-card phase gated on "no natural" only, as the punto-banco rules require. */
  function StandardPlayStep(s: State): State
    requires |s.deck| >= 4
    requires var dealt := DealStep(s); !(dealt.playerScore >= 8 || dealt.bankerScore >= 8) ==> CanDealThird(dealt)
  {
    var dealt := DealStep(s);
    DetermineStep(if !(dealt.playerScore >= 8 || dealt.bankerScore >= 8) then ThirdCardStep(dealt) else dealt)
  }

  /** With the corrected gate a standing player (6 or 7) leaves the banker to draw on 0..5. */
  lemma StandardPlayBankerAfterStand(deck: seq<Card>)
    requires |deck| >= 4
    requires var dealt := DealStep(Start(deck)); !(dealt.playerScore >= 8 || dealt.bankerScore >= 8) ==> CanDealThird(dealt)
    requires InitialPlayer(deck) < 8 && InitialBanker(deck) < 8 && InitialPlayer(deck) > 5
    ensures |StandardPlayStep(Start(deck)).banker| == 3 <==> InitialBanker(deck) <= 5
  {
    DealFromStart(deck);
  }

  /** The corrected round agrees with the as-written one whenever the player draws or a natural is dealt. */
  lemma StandardPlayAgrees(deck: seq<Card>)
    requires PlayReady(Start(deck))
    requires var dealt := DealStep(Start(deck)); !(dealt.playerScore >= 8 || dealt.bankerScore >= 8) ==> CanDealThird(dealt)
    requires InitialPlayer(deck) <= 5 || InitialPlayer(deck) >= 8 || InitialBanker(deck) >= 8
    ensures StandardPlayStep(Start(deck)) == Round(deck)
  {
    DealFromStart(deck);
  }

  /** A deck of six cards or more always suffices for a round, so a fresh 52-card deck never runs out. */
  lemma SixCardsSuffice(deck: seq<Card>)
    requires |deck| >= 6
    ensures PlayReady(Start(deck))
  {
  }

  /** Each hand ends a round with two or three cards. */
  lemma RoundHandSizes(deck: seq<Card>)
    requires PlayReady(Start(deck))
    ensures 2 <= |Round(deck).player| <= 3 && 2 <= |Round(deck).banker| <= 3
  {
  }
}
