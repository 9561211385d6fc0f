/** The deck object of baccarat/game/card.go: a slice of cards drawn from the front. */
module CardDeck {
  import opened Rules
  import Shoe

  class Deck {
    var cards: seq<Card>

    /** NewDeck: the 52 cards in suit-major order. */
    constructor NewDeck()
      ensures cards == Shoe.StandardDeck()
    {
      var filled := Shoe.FillStandard(seq(52, _ => Card(0, 0)));
      cards := filled;
    }

    /** Shuffle: the same cards in an order left open. */
    method Shuffle()
      modifies this
      ensures |cards| == old(|cards|)
      ensures multiset(cards) == old(multiset(cards))
    {
      cards := Shoe.SwapShuffle(cards);
    }

    /**
     * DrawCard: the front card, removed from the deck. Drawing from an empty deck panics, so
     * callers must leave a card to draw.
     */
    method DrawCard() returns (card: Card)
      requires |cards| > 0
      modifies this
      ensures card == old(cards[0])
      ensures cards == old(cards[1..])
    {
      card := cards[0];
      cards := cards[1..];
    }
  }
}
