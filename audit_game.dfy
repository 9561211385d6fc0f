/**
 * The auditor's own copy of the round engine (verify/internal/validator/game.go): the same
 * deck, deal and drawing as the play handler's engine, but the Lucky Six is decided after the
 * winner and only for a banker win on 6, and it is cleared in every other round.
 */
module AuditGame {
  import opened Rules
  import Shoe
  import ProductionGame

  datatype State = State(
    deck: seq<Card>,
    player: seq<Card>,
    banker: seq<Card>,
    playerScore: int,
    bankerScore: int,
    winner: Winner,
    luckySix: bool,
    sixType: SixType)

  function Start(deck: seq<Card>): State {
    State(deck, [], [], 0, 0, Undecided, false, NoSix)
  }

  /** Deal: Deck[0], Deck[1] appended to the player, Deck[2], Deck[3] to the banker, Deck = Deck[4:]. */
  function DealStep(s: State): State
    requires |s.deck| >= 4
  {
    var player := s.player + s.deck[..2];
    var banker := s.banker + s.deck[2..4];
    s.(player := player, banker := banker, deck := s.deck[4..],
       playerScore := Score(player), bankerScore := Score(banker))
  }

  /** NeedThirdCard: no draw after a natural, otherwise the player draws on 0..5 (no caller uses it). */
  function NeedThird(s: State): (need: bool)
    ensures need <==> s.playerScore <= 5 && s.bankerScore < 8
  {
    if s.playerScore >= 8 || s.bankerScore >= 8 then false
    else s.playerScore <= 5
  }

  /** Whether the banker follows a player draw of `third`: the tableau on its current score and the raw rank. */
  predicate BankerFollows(s: State, third: Card) {
    BankerDraws(s.bankerScore, third.value)
  }

  predicate CanDealThird(s: State) {
    if s.playerScore <= 5 then |s.deck| >= 1 && (BankerFollows(s, s.deck[0]) ==> |s.deck| >= 2)
    else s.bankerScore <= 5 ==> |s.deck| >= 1
  }

  function BankerDrawStep(s: State): State
    requires |s.deck| >= 1
  {
    var banker := s.banker + [s.deck[0]];
    s.(banker := banker, deck := s.deck[1..], bankerScore := Score(banker))
  }

  /** DealThirdCard, with no natural check: as in the play handler's engine. */
  function ThirdCardStep(s: State): State
    requires CanDealThird(s)
  {
    if s.playerScore <= 5 then
      var third := s.deck[0];
      var player := s.player + [third];
      var drawn := s.(player := player, deck := s.deck[1..], playerScore := Score(player));
      if BankerFollows(s, third) then BankerDrawStep(drawn) else drawn
    else if s.bankerScore <= 5 then BankerDrawStep(s)
    else s
  }

  /** DetermineWinner: the winner first, then the Lucky Six for a banker win on 6 only. */
  function DetermineStep(s: State): State {
    var w := if s.playerScore > s.bankerScore then Player
             else if s.bankerScore > s.playerScore then Banker
             else Tie;
    if w == Banker && s.bankerScore == 6 then s.(winner := w, luckySix := true, sixType := SixTypeOf(s.banker))
    else s.(winner := w, luckySix := false, sixType := NoSix)
  }

  predicate PlayReady(deck: seq<Card>) {
    |deck| >= 4 && CanDealThird(DealStep(Start(deck)))
  }

  /** A round of the auditor's engine: Deal, DealThirdCard, DetermineWinner on a new game. */
  function Round(deck: seq<Card>): State
    requires PlayReady(deck)
  {
    DetermineStep(ThirdCardStep(DealStep(Start(deck))))
  }

  class Game {
    var playerHand: seq<Card>
    var bankerHand: seq<Card>
    var playerScore: int
    var bankerScore: int
    var winner: Winner
    var isLuckySix: bool
    var luckySixType: SixType
    var deck: seq<Card>

    function Snapshot(): State
      reads this
    {
      State(deck, playerHand, bankerHand, playerScore, bankerScore, winner, isLuckySix, luckySixType)
    }

    constructor NewGame()
      ensures Snapshot() == Start(deck)
      ensures |deck| == 52 && multiset(deck) == multiset(Shoe.StandardDeck())
    {
      playerHand, bankerHand := [], [];
      playerScore, bankerScore := 0, 0;
      winner, isLuckySix, luckySixType := Undecided, false, NoSix;
      deck := seq(52, _ => Card(0, 0));
      new;
      InitializeDeck();
      ShuffleDeck();
    }

    method InitializeDeck()
      requires |deck| == 52
      modifies this
      ensures Snapshot() == old(Snapshot()).(deck := Shoe.StandardDeck())
    {
      deck := Shoe.FillStandard(deck);
    }

    method ShuffleDeck()
      modifies this
      ensures |deck| == old(|deck|) && multiset(deck) == old(multiset(deck))
      ensures Snapshot() == old(Snapshot()).(deck := deck)
    {
      deck := Shoe.SwapShuffle(deck);
    }

    method Deal()
      requires |deck| >= 4
      modifies this
      ensures Snapshot() == DealStep(old(Snapshot()))
    {
      playerHand := playerHand + [deck[0], deck[1]];
      bankerHand := bankerHand + [deck[2], deck[3]];
      assert [deck[0], deck[1]] == deck[..2] && [deck[2], deck[3]] == deck[2..4];
      deck := deck[4..];
      playerScore := SumScore(playerHand);
      bankerScore := SumScore(bankerHand);
    }

    function NeedThirdCard(): (need: bool)
      reads this
      ensures need == NeedThird(Snapshot())
    {
      if playerScore >= 8 || bankerScore >= 8 then false
      else playerScore <= 5
    }

    method DealThirdCard()
      requires CanDealThird(Snapshot())
      modifies this
      ensures Snapshot() == ThirdCardStep(old(Snapshot()))
    {
      if playerScore <= 5 {
        var playerThirdCard := deck[0];
        playerHand := playerHand + [playerThirdCard];
        deck := deck[1..];
        playerScore := SumScore(playerHand);
        var playerThirdValue := playerThirdCard.value;
        if BankerDraws(bankerScore, playerThirdValue) {
          var bankerThirdCard := deck[0];
          bankerHand := bankerHand + [bankerThirdCard];
          deck := deck[1..];
          bankerScore := SumScore(bankerHand);
        }
      } else if bankerScore <= 5 {
        var bankerThirdCard := deck[0];
        bankerHand := bankerHand + [bankerThirdCard];
        deck := deck[1..];
        bankerScore := SumScore(bankerHand);
      }
    }

    method DetermineWinner()
      modifies this
      ensures Snapshot() == DetermineStep(old(Snapshot()))
    {
      if playerScore > bankerScore {
        winner := Player;
      } else if bankerScore > playerScore {
        winner := Banker;
      } else {
        winner := Tie;
      }
      if winner == Banker && bankerScore == 6 {
        isLuckySix := true;
        if |bankerHand| == 2 {
          luckySixType := TwoCards;
        } else {
          luckySixType := ThreeCards;
        }
      } else {
        isLuckySix := false;
        luckySixType := NoSix;
      }
    }
  }

  lemma DealFromStart(deck: seq<Card>)
    requires |deck| >= 4
    ensures DealStep(Start(deck)) ==
      State(deck[4..], deck[..2], deck[2..4], Score(deck[..2]), Score(deck[2..4]), Undecided, false, NoSix)
  {
    assert [] + deck[..2] == deck[..2];
    assert [] + deck[2..4] == deck[2..4];
  }

  /** The auditor's verdict: the comparison of the final scores, and a Lucky Six exactly on a banker win with 6. */
  lemma RoundVerdict(deck: seq<Card>)
    requires PlayReady(deck)
    ensures var r := Round(deck);
      r.winner == Compare(Score(r.player), Score(r.banker)) &&
      (r.luckySix <==> r.winner == Banker && Score(r.banker) == 6) &&
      r.sixType == (if r.luckySix then SixTypeOf(r.banker) else NoSix)
  {
    DealFromStart(deck);
  }

  /** An auditor state and a production state holding the same deck, hands and scores. */
  predicate SameTable(a: State, p: ProductionGame.State) {
    a.deck == p.deck && a.player == p.player && a.banker == p.banker &&
    a.playerScore == p.playerScore && a.bankerScore == p.bankerScore
  }

  /** On the same table both engines can complete the draw, and draw the same cards. */
  lemma ThirdCardAgrees(a: State, p: ProductionGame.State)
    requires SameTable(a, p) && |a.player| == 2
    ensures CanDealThird(a) <==> ProductionGame.CanDealThird(p)
    ensures CanDealThird(a) ==> SameTable(ThirdCardStep(a), ProductionGame.ThirdCardStep(p))
  {
    if |a.deck| >= 1 {
      assert (a.player + [a.deck[0]])[2] == a.deck[0];
    }
  }

  /**
   * On the same table both engines name the same winner; the auditor's Lucky Six needs a banker
   * win (the production flag starts cleared, as in a new game).
   */
  lemma VerdictAgrees(a: State, p: ProductionGame.State)
    requires SameTable(a, p) && !p.luckySix
    ensures SameTable(DetermineStep(a), ProductionGame.DetermineStep(p))
    ensures DetermineStep(a).winner == ProductionGame.DetermineStep(p).winner
    ensures DetermineStep(a).luckySix <==> ProductionGame.DetermineStep(p).luckySix && ProductionGame.DetermineStep(p).winner == Banker
    ensures DetermineStep(a).luckySix ==> DetermineStep(a).sixType == ProductionGame.DetermineStep(p).sixType
  {
  }

  /**
   * The auditor deals and draws exactly as the play handler's engine and names the same winner;
   * the two disagree only on Lucky Sixes the banker does not win.
   */
  lemma AgreesWithProduction(deck: seq<Card>)
    ensures PlayReady(deck) <==> ProductionGame.PlayReady(deck)
    ensures PlayReady(deck) ==>
      var a := Round(deck);
      var p := ProductionGame.Round(deck);
      a.deck == p.deck && a.player == p.player && a.banker == p.banker &&
      a.playerScore == p.playerScore && a.bankerScore == p.bankerScore && a.winner == p.winner &&
      (a.luckySix <==> p.luckySix && p.winner == Banker) &&
      (a.luckySix ==> a.sixType == p.sixType)
  {
    if |deck| >= 4 {
      DealFromStart(deck);
      ProductionGame.DealFromStart(deck);
      var a1, p1 := DealStep(Start(deck)), ProductionGame.DealStep(ProductionGame.Start(deck));
      ThirdCardAgrees(a1, p1);
      if CanDealThird(a1) {
        VerdictAgrees(ThirdCardStep(a1), ProductionGame.ThirdCardStep(p1));
      }
    }
  }
}
