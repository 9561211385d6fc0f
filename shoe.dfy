/**
 * The 52-card deck every engine builds (NewDeck / initializeDeck) and the swap shuffle they
 * apply to it (rand.Shuffle / shuffleDeck).
 */
module Shoe {
  import opened Rules

  /** The fresh deck in suit-major order: index i holds suit i / 13 and rank i % 13 + 1. */
  function StandardDeck(): (deck: seq<Card>)
    ensures |deck| == 52
  {
    seq(52, i requires 0 <= i < 52 => Card(i / 13, i % 13 + 1))
  }

  /** No card appears twice in the fresh deck. */
  lemma StandardDeckDistinct()
    ensures forall i, j :: 0 <= i < j < 52 ==> StandardDeck()[i] != StandardDeck()[j]
  {
    forall i, j | 0 <= i < j < 52 ensures StandardDeck()[i] != StandardDeck()[j] {
      assert i == 13 * (i / 13) + i % 13;
      assert j == 13 * (j / 13) + j % 13;
    }
  }

  /** Every card of suit 0..3 and rank 1..13 appears in the fresh deck, at index 13 * suit + rank - 1. */
  lemma StandardDeckComplete(suit: nat, value: nat)
    requires suit < 4 && 1 <= value <= 13
    ensures StandardDeck()[13 * suit + value - 1] == Card(suit, value)
  {
    var k := 13 * suit + value - 1;
    assert k / 13 == suit && k % 13 == value - 1;
  }

  /** A card the engines build: suit 0..3, rank 1..13. */
  predicate InRange(c: Card) {
    c.suit < 4 && 1 <= c.value <= 13
  }

  /** Every card of a shuffle of the fresh deck is in range. */
  lemma ShuffledInRange(deck: seq<Card>)
    requires multiset(deck) == multiset(StandardDeck())
    ensures forall k :: 0 <= k < |deck| ==> InRange(deck[k])
  {
    forall k | 0 <= k < |deck| ensures InRange(deck[k]) {
      assert deck[k] in multiset(deck);
      assert deck[k] in StandardDeck();
    }
  }

  /**
   * The nested fill loop of NewDeck and initializeDeck: over a 52-slot slice, suit by suit and
   * rank by rank, writing each card at the next index.
   */
  method FillStandard(slots: seq<Card>) returns (cards: seq<Card>)
    requires |slots| == 52
    ensures cards == StandardDeck()
  {
    cards := slots;
    var index := 0;
    var suit := 0;
    while suit < 4
      invariant 0 <= suit <= 4 && index == 13 * suit && |cards| == 52
      invariant forall k :: 0 <= k < index ==> cards[k] == StandardDeck()[k]
    {
      var value := 1;
      while value <= 13
        invariant 1 <= value <= 14 && index == 13 * suit + value - 1 && |cards| == 52
        invariant forall k :: 0 <= k < index ==> cards[k] == StandardDeck()[k]
      {
        StandardDeckComplete(suit, value);
        cards := cards[index := Card(suit, value)];
        index := index + 1;
        value := value + 1;
      }
      suit := suit + 1;
    }
  }

  /** Exchanging two positions keeps the same cards. */
  lemma SwapKeepsCards(cards: seq<Card>, i: nat, j: nat)
    requires i < |cards| && j < |cards|
    ensures multiset(cards[i := cards[j]][j := cards[i]]) == multiset(cards)
  {
    var once := cards[i := cards[j]];
    assert multiset(once) == multiset(cards) - multiset{cards[i]} + multiset{cards[j]};
    assert multiset(once[j := cards[i]]) == multiset(once) - multiset{once[j]} + multiset{cards[i]};
  }

  /**
   * The swap shuffle (rand.Shuffle's callback, shuffleDeck's loop): for i from the top down to 1,
   * exchange position i with some position j in 0..i; which j is left open. The result holds
   * exactly the cards it started with.
   */
  method SwapShuffle(cards: seq<Card>) returns (shuffled: seq<Card>)
    ensures |shuffled| == |cards|
    ensures multiset(shuffled) == multiset(cards)
  {
    shuffled := cards;
    var i := |cards| - 1;
    while i > 0
      invariant |shuffled| == |cards|
      invariant multiset(shuffled) == multiset(cards)
      invariant i < |cards|
    {
      var j :| 0 <= j <= i;
      SwapKeepsCards(shuffled, i, j);
      shuffled := shuffled[i := shuffled[j]][j := shuffled[i]];
      i := i - 1;
    }
  }
}
