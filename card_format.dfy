/**
 * The play handler's card text (baccarat/api/handlers/game.go): a card is its suit letter
 * (S, H, D, C for suits 0..3) followed by its rank (A, 2..10, J, Q, K for ranks 1..13), and a
 * hand is its cards joined with commas.
 */
module CardFormat {
  import opened Common
  import opened Rules
  import Shoe
  import Text

  const SuitLetters: seq<string> := ["S", "H", "D", "C"]
  const RankNames: seq<string> := ["A", "2", "3", "4", "5", "6", "7", "8", "9", "10", "J", "Q", "K"]

  /** formatCard: indexing outside the two tables is a panic in the source, hence the requires. */
  function FormatCard(c: Card): (s: string)
    requires Shoe.InRange(c)
    ensures 2 <= |s| <= 3 && ',' !in s
    ensures s[0] == SuitLetters[c.suit][0]
  {
    SuitLetters[c.suit] + RankNames[c.value - 1]
  }

  /** The index of `x` in `names`, if it occurs. */
  function IndexOf(names: seq<string>, x: string): (r: Option<nat>)
    ensures r.Some? ==> r.value < |names| && names[r.value] == x
    ensures r.None? ==> x !in names
  {
    if names == [] then None
    else if names[0] == x then Some(0)
    else
      match IndexOf(names[1..], x)
      case None => None
      case Some(k) => Some(k + 1)
  }

  /** Reading a card back from its text: a suit letter, then a rank name. */
  function ParseCard(s: string): (r: Option<Card>)
    ensures r.Some? ==> Shoe.InRange(r.value)
  {
    if |s| < 2 then None
    else
      match (IndexOf(SuitLetters, s[..1]), IndexOf(RankNames, s[1..]))
      case (Some(suit), Some(rank)) => Some(Card(suit, rank + 1))
      case _ => None
  }

  /** Table entries are distinct, so the index found for an entry is its own index. */
  lemma IndexOfDistinct(names: seq<string>, k: nat)
    requires k < |names|
    requires forall i, j :: 0 <= i < j < |names| ==> names[i] != names[j]
    ensures IndexOf(names, names[k]) == Some(k)
  {
    var r := IndexOf(names, names[k]);
    assert names[k] in names;
  }

  /** A card's text reads back as the card. */
  lemma ParseFormat(c: Card)
    requires Shoe.InRange(c)
    ensures ParseCard(FormatCard(c)) == Some(c)
  {
    var s := FormatCard(c);
    assert s[..1] == SuitLetters[c.suit] && s[1..] == RankNames[c.value - 1];
    IndexOfDistinct(SuitLetters, c.suit);
    IndexOfDistinct(RankNames, c.value - 1);
  }

  predicate AllInRange(cards: seq<Card>) {
    forall k :: 0 <= k < |cards| ==> Shoe.InRange(cards[k])
  }

  /** The texts of the cards, one per card. */
  function FormatAll(cards: seq<Card>): (r: seq<string>)
    requires AllInRange(cards)
    ensures |r| == |cards|
  {
    if cards == [] then [] else [FormatCard(cards[0])] + FormatAll(cards[1..])
  }

  /** formatCards: a slice of the same length, filled card by card. */
  method FormatCards(cards: seq<Card>) returns (result: seq<string>)
    requires AllInRange(cards)
    ensures |result| == |cards|
    ensures forall k :: 0 <= k < |cards| ==> result[k] == FormatCard(cards[k])
    ensures result == FormatAll(cards)
  {
    result := seq(|cards|, _ => "");
    for i := 0 to |cards|
      invariant |result| == |cards|
      invariant forall k :: 0 <= k < i ==> result[k] == FormatCard(cards[k])
    {
      result := result[i := FormatCard(cards[i])];
    }
    forall k | 0 <= k < |cards| ensures result[k] == FormatAll(cards)[k] {
      FormatAllAt(cards, k);
    }
  }

  /** The loop and the recursive definition agree. */
  lemma {:induction false} FormatAllAt(cards: seq<Card>, k: nat)
    requires AllInRange(cards) && k < |cards|
    ensures FormatAll(cards)[k] == FormatCard(cards[k])
  {
    if k > 0 {
      FormatAllAt(cards[1..], k - 1);
    }
  }

  /** formatCardsToString: the texts joined with commas. */
  function FormatCardsToString(texts: seq<string>): (s: string)
    ensures texts == [] ==> s == []
  {
    Text.Join(texts, ',')
  }

  /** Splitting the joined text at commas and reading each field gives the hand back. */
  lemma {:induction false} HandTextRoundTrip(cards: seq<Card>)
    requires AllInRange(cards) && |cards| >= 1
    ensures var fields := Text.Split(FormatCardsToString(FormatAll(cards)), ',');
      |fields| == |cards| && forall k :: 0 <= k < |cards| ==> ParseCard(fields[k]) == Some(cards[k])
  {
    var texts := FormatAll(cards);
    forall k | 0 <= k < |texts| ensures ',' !in texts[k] {
      FormatAllAt(cards, k);
    }
    Text.SplitJoin(texts, ',');
    forall k | 0 <= k < |cards| ensures ParseCard(texts[k]) == Some(cards[k]) {
      FormatAllAt(cards, k);
      ParseFormat(cards[k]);
    }
  }
}
