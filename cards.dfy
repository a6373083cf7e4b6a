/** Card values of the Whist engine: trumps (suits plus NOTHING), cards, the
    52-card deck the engine builds, how the master trump advances from hand to
    hand, and how a shuffled deck is split into the four hands. */
module Cards {

  datatype Option<T> = None | Some(value: T)

  /** Ordinal of a suit in the trump enumeration: the first four constants are the suits. */
  type SuitIndex = i: int | 0 <= i < 4

  /** Ordinal of a card value in its enumeration; a larger ordinal is a higher rank. */
  type RankIndex = j: int | 0 <= j < 13

  /** A trump is one of the four suits or NOTHING (no trump). */
  datatype Trump = Suit(index: SuitIndex) | Nothing

  /** HEART, the master trump of the first hand, taken as the first suit. */
  const Heart: Trump := Suit(0)

  /** Ordinal of the last suit; the constant after it is not part of this model. */
  const LastSuit: SuitIndex := 3

  const HandSize: nat := 13
  const DeckSize: nat := 52

  /** A card: its suit and its value. The display resource is not modelled. */
  datatype Card = Card(suit: SuitIndex, rank: RankIndex)

  function TrumpOf(c: Card): Trump
  {
    Suit(c.suit)
  }

  /** The master trump of the next hand: NOTHING becomes HEART, a suit becomes the
      constant with the next ordinal. After the last suit the next constant is
      not determined by the engine's code, and the result is None. */
  function NextMasterTrump(t: Trump): (r: Option<Trump>)
    ensures r.Some? <==> t != Suit(LastSuit)
    ensures r.Some? ==> r.value.Suit? && r.value != t
    ensures t == Nothing ==> r == Some(Heart)
  {
    match t
    case Nothing => Some(Heart)
    case Suit(k) => if k < LastSuit then Some(Suit(k + 1)) else None
  }

  /** The master trump after `n` advances from NOTHING (the value set by a game reset). */
  function MasterTrumpAfter(n: nat): Option<Trump>
  {
    if n == 0 then Some(Nothing)
    else
      match MasterTrumpAfter(n - 1)
      case None => None
      case Some(t) => NextMasterTrump(t)
  }

  /** The first four hands are played under the four suits in enumeration order,
      starting from HEART: never NOTHING, never the same suit twice. */
  lemma {:induction false} MasterTrumpRotation(n: nat)
    requires 1 <= n <= 4
    ensures MasterTrumpAfter(n) == Some(Suit(n - 1))
    ensures MasterTrumpAfter(n) != Some(Nothing)
  {
    if n > 1 {
      MasterTrumpRotation(n - 1);
    }
  }

  /** The fifth advance would read past the last suit. */
  lemma MasterTrumpExhausted()
    ensures MasterTrumpAfter(4) == Some(Suit(LastSuit))
    ensures MasterTrumpAfter(5) == None
  {
    MasterTrumpRotation(4);
  }

  /** The deck as the game reset builds it: suit by suit, and within a suit by
      value, so the card at position 13 * suit + rank is Card(suit, rank). */
  function FullDeck(): (d: seq<Card>)
    ensures |d| == DeckSize
  {
    seq(DeckSize, k requires 0 <= k < DeckSize => Card(k / 13, k % 13))
  }

  ghost predicate Distinct(s: seq<Card>)
  {
    forall a, b :: 0 <= a < b < |s| ==> s[a] != s[b]
  }

  /** Every (suit, value) pair has its card in the built deck. */
  lemma FullDeckComplete(s: SuitIndex, r: RankIndex)
    ensures 0 <= 13 * s + r < DeckSize
    ensures FullDeck()[13 * s + r] == Card(s, r)
  {
    var k := 13 * s + r;
    assert k / 13 == s && k % 13 == r;
  }

  /** The built deck holds no card twice. */
  lemma FullDeckDistinct()
    ensures Distinct(FullDeck())
  {
    var d := FullDeck();
    forall a, b | 0 <= a < b < |d|
      ensures d[a] != d[b]
    {
      assert a == 13 * (a / 13) + a % 13;
      assert b == 13 * (b / 13) + b % 13;
    }
  }

  /** A sequence without repeated cards holds each card at most once. */
  lemma {:induction false} DistinctCountsAtMostOne(s: seq<Card>, x: Card)
    requires Distinct(s)
    ensures multiset(s)[x] <= 1
  {
    if s != [] {
      assert s == [s[0]] + s[1..];
      DistinctCountsAtMostOne(s[1..], x);
      if x == s[0] {
        assert x !in s[1..];
      }
    }
  }

  /** A sequence that holds each card at most once has no repeated card. */
  lemma CountsAtMostOneDistinct(s: seq<Card>)
    requires forall x :: multiset(s)[x] <= 1
    ensures Distinct(s)
  {
    forall a, b | 0 <= a < b < |s|
      ensures s[a] != s[b]
    {
      assert s == s[..b] + s[b..];
      assert s[a] in multiset(s[..b]);
      assert multiset(s)[s[b]] == multiset(s[..b])[s[b]] + multiset(s[b..])[s[b]];
    }
  }

  /** Any reordering of the built deck (a shuffle) still holds 52 distinct cards. */
  lemma ShuffledDeckDistinct(d: seq<Card>)
    requires multiset(d) == multiset(FullDeck())
    ensures |d| == DeckSize && Distinct(d)
  {
    assert |d| == |multiset(d)| == |multiset(FullDeck())|;
    FullDeckDistinct();
    forall x
      ensures multiset(d)[x] <= 1
    {
      DistinctCountsAtMostOne(FullDeck(), x);
    }
    CountsAtMostOneDistinct(d);
  }

  /** The block of the deck dealt to a seat: positions 13 * seat .. 13 * seat + 12. */
  function DealtBlock(d: seq<Card>, seat: int): (b: seq<Card>)
    requires |d| == DeckSize && 0 <= seat < 4
    ensures |b| == HandSize
    ensures forall k :: 0 <= k < HandSize ==> b[k] == d[HandSize * seat + k]
  {
    d[HandSize * seat .. HandSize * seat + HandSize]
  }

  /** The four blocks, in seat order, make up the whole deck. */
  lemma DealCoversDeck(d: seq<Card>)
    requires |d| == DeckSize
    ensures DealtBlock(d, 0) + DealtBlock(d, 1) + DealtBlock(d, 2) + DealtBlock(d, 3) == d
    ensures multiset(DealtBlock(d, 0)) + multiset(DealtBlock(d, 1)) + multiset(DealtBlock(d, 2))
            + multiset(DealtBlock(d, 3)) == multiset(d)
  {
    var all := DealtBlock(d, 0) + DealtBlock(d, 1) + DealtBlock(d, 2) + DealtBlock(d, 3);
    assert |all| == DeckSize;
    forall k | 0 <= k < DeckSize
      ensures all[k] == d[k]
    {
      if k < 13 {
      } else if k < 26 {
      } else if k < 39 {
      } else {
      }
    }
    assert all == d;
  }

  /** Dealing a deck without repeated cards gives no card to two seats. */
  lemma DealDisjoint(d: seq<Card>, s: int, t: int, x: Card)
    requires |d| == DeckSize && Distinct(d)
    requires 0 <= s < t < 4
    requires x in DealtBlock(d, s)
    ensures x !in DealtBlock(d, t)
  {
    var i :| 0 <= i < HandSize && DealtBlock(d, s)[i] == x;
    forall j | 0 <= j < HandSize
      ensures DealtBlock(d, t)[j] != x
    {
      assert HandSize * s + i < HandSize * t + j;
    }
  }
}
