/**
 * The punto-banco rules every copy of the round engine shares: a card's pip value, a hand's
 * score, the banker's third-card tableau, and the result names.
 */
module Rules {

  /** A playing card: suit 0..3 (spades, hearts, diamonds, clubs) and rank 1..13 (ace..king). */
  datatype Card = Card(suit: nat, value: nat)

  /** The winner of a round; `Undecided` is the empty string a fresh game holds. */
  datatype Winner = Undecided | Player | Banker | Tie

  /** The Lucky-Six kind: none (""), with two banker cards ("2cards") or with three ("3cards"). */
  datatype SixType = NoSix | TwoCards | ThreeCards

  function WinnerName(w: Winner): string {
    match w
    case Undecided => ""
    case Player => "Player"
    case Banker => "Banker"
    case Tie => "Tie"
  }

  function SixTypeName(t: SixType): string {
    match t
    case NoSix => ""
    case TwoCards => "2cards"
    case ThreeCards => "3cards"
  }

  /** Card.GetCardValue: tens and court cards count 0, every other rank counts its face value. */
  function PipValue(c: Card): (pip: nat)
    ensures pip <= 9
    ensures pip == c.value <==> c.value <= 9
  {
    if c.value >= 10 then 0 else c.value
  }

  /** The plain sum of the pip values of a hand. */
  function PipSum(hand: seq<Card>): nat {
    if hand == [] then 0 else PipSum(hand[..|hand| - 1]) + PipValue(hand[|hand| - 1])
  }

  /** The pip sum of a two-card hand. */
  lemma PipSumPair(a: Card, b: Card)
    ensures PipSum([a, b]) == PipValue(a) + PipValue(b)
  {
    assert [a, b][..1] == [a];
    assert [a][..0] == [];
    assert PipSum([a]) == PipValue(a);
  }

  /** The baccarat score of a hand: its pip sum modulo 10. */
  function Score(hand: seq<Card>): (score: nat)
    ensures score <= 9
  {
    PipSum(hand) % 10
  }

  /** Reducing modulo 10 before adding does not change the result modulo 10. */
  lemma ModTenAdd(a: nat, b: nat)
    ensures (a % 10 + b) % 10 == (a + b) % 10
  {
    var q := a / 10;
    assert a == 10 * q + a % 10;
    assert a + b == 10 * q + (a % 10 + b);
  }

  /** A running total kept modulo 10 card by card equals the score of the whole hand. */
  lemma {:induction false} ScoreAppend(hand: seq<Card>, c: Card)
    ensures Score(hand + [c]) == (Score(hand) + PipValue(c)) % 10
  {
    assert (hand + [c])[..|hand|] == hand;
    ModTenAdd(PipSum(hand), PipValue(c));
  }

  /** The score of the first i cards with card i added. */
  lemma ScorePrefixStep(hand: seq<Card>, i: nat)
    requires i < |hand|
    ensures Score(hand[..i + 1]) == (Score(hand[..i]) + PipValue(hand[i])) % 10
  {
    assert hand[..i + 1] == hand[..i] + [hand[i]];
    ScoreAppend(hand[..i], hand[i]);
  }

  /**
   * The running total of calculateScores: each card's pip value added and the total reduced
   * modulo 10 after every card.
   */
  method RunningScore(hand: seq<Card>) returns (score: int)
    ensures score == Score(hand)
  {
    score := 0;
    for i := 0 to |hand|
      invariant score == Score(hand[..i])
    {
      ScorePrefixStep(hand, i);
      score := (score + PipValue(hand[i])) % 10;
    }
    assert hand[..|hand|] == hand;
  }

  /**
   * calculateScore of the production and audit engines: ranks above 9 counted as 0, all
   * values summed, and the sum reduced modulo 10 once at the end.
   */
  method SumScore(cards: seq<Card>) returns (score: int)
    ensures score == Score(cards)
  {
    var total := 0;
    for i := 0 to |cards|
      invariant total == PipSum(cards[..i])
    {
      var value := cards[i].value;
      if value > 9 {
        value := 0;
      }
      assert cards[..i + 1][..i] == cards[..i];
      total := total + value;
    }
    assert cards[..|cards|] == cards;
    score := total % 10;
  }

  /**
   * The banker's third-card tableau (shouldBankerDrawThird / needBankerThirdCard), given the
   * banker's score and the value reported for the player's third card.
   */
  function BankerDraws(bankerScore: int, playerThird: int): bool {
    if 0 <= bankerScore <= 2 then true
    else if bankerScore == 3 then playerThird != 8
    else if bankerScore == 4 then 2 <= playerThird <= 7
    else if bankerScore == 5 then 4 <= playerThird <= 7
    else if bankerScore == 6 then playerThird == 6 || playerThird == 7
    else false
  }

  /** The pip values of the player's third card on which a banker holding `score` draws. */
  function DrawingThirds(score: nat): set<nat> {
    if score <= 2 then {0, 1, 2, 3, 4, 5, 6, 7, 8, 9}
    else if score == 3 then {0, 1, 2, 3, 4, 5, 6, 7, 9}
    else if score == 4 then {2, 3, 4, 5, 6, 7}
    else if score == 5 then {4, 5, 6, 7}
    else if score == 6 then {6, 7}
    else {}
  }

  /** The tableau agrees with the published punto-banco drawing table on every pip value. */
  lemma TableauIsStandard(score: nat, pip: nat)
    requires score <= 9 && pip <= 9
    ensures BankerDraws(score, pip) <==> pip in DrawingThirds(score)
  {
  }

  /**
   * Handing the tableau the raw rank of the player's third card instead of its pip value never
   * changes the banker's decision: ranks 10..13 fall in the same branch as pip 0 everywhere.
   */
  lemma RawRankSameDecision(bankerScore: int, c: Card)
    ensures BankerDraws(bankerScore, c.value) == BankerDraws(bankerScore, PipValue(c))
  {
  }

  /** The result of comparing the two final scores. */
  function Compare(playerScore: int, bankerScore: int): (w: Winner)
    ensures w != Undecided
    ensures w == Player <==> playerScore > bankerScore
    ensures w == Banker <==> bankerScore > playerScore
    ensures w == Tie <==> playerScore == bankerScore
  {
    if playerScore > bankerScore then Player
    else if bankerScore > playerScore then Banker
    else Tie
  }

  /** The Lucky-Six kind named after the number of banker cards. */
  function SixTypeOf(banker: seq<Card>): (t: SixType)
    ensures t != NoSix
    ensures t == TwoCards <==> |banker| == 2
  {
    if |banker| == 2 then TwoCards else ThreeCards
  }
}
