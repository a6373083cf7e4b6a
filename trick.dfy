/** One trick of the Whist engine as a value: the card-strength rule, the
    seat rotation, and the left fold of the rule over the cards played that
    keeps the round trump, the strongest card and the winning turn in step. */
module Trick {
  import opened Cards

  /** A seat at the table, 0..3; seat s plays for team s % 2. */
  type SeatIndex = i: int | 0 <= i < 4

  /** The seat that plays the `turn`-th card of a trick led by `lead`: the
      turns go round the table and wrap from seat 3 to seat 0. */
  function SeatOfTurn(lead: SeatIndex, turn: nat): SeatIndex
    requires turn <= 4
  {
    if lead + turn < 4 then lead + turn else lead + turn - 4
  }

  /** The turn at which seat `seat` plays in a trick led by `lead`. */
  function TurnOfSeat(lead: SeatIndex, seat: SeatIndex): (t: nat)
    ensures t < 4
  {
    if lead <= seat then seat - lead else seat - lead + 4
  }

  /** Going round the table is adding modulo four. */
  lemma SeatOfTurnIsModular(lead: SeatIndex, turn: nat)
    requires turn <= 4
    ensures SeatOfTurn(lead, turn) == (lead + turn) % 4
  {
  }

  /** A trick gives each seat exactly one turn: the four turns go to four
      different seats, and every seat has its turn. */
  lemma RotationCoversSeats(lead: SeatIndex)
    ensures forall t, u :: 0 <= t < u < 4 ==> SeatOfTurn(lead, t) != SeatOfTurn(lead, u)
    ensures forall s: SeatIndex :: SeatOfTurn(lead, TurnOfSeat(lead, s)) == s
  {
  }

  /** Whether `card` displaces `strongest`: it follows the round trump with a
      higher value, or it is of the master trump while the round trump is not. */
  predicate CardIsStronger(roundTrump: Trump, masterTrump: Trump, strongest: Card, card: Card)
  {
    (TrumpOf(card) == roundTrump && card.rank > strongest.rank)
    || (roundTrump != masterTrump && TrumpOf(card) == masterTrump)
  }

  /** Reference order of the cards of a trick led in suit `lead`: master-trump
      cards above all others, then cards of the led suit, each ordered by value;
      any other card is below every card that can win (-1). */
  function Key(masterTrump: Trump, lead: Trump, c: Card): (k: int)
    ensures -1 <= k < 26
    ensures k >= 13 <==> TrumpOf(c) == masterTrump
  {
    if TrumpOf(c) == masterTrump then 13 + c.rank
    else if TrumpOf(c) == lead then c.rank
    else -1
  }

  /** While the round trump is the suit of the strongest card, and that card is
      of the master trump or of the led suit, the strength rule is exactly
      "higher in the reference order". */
  lemma StrongerIffHigherKey(masterTrump: Trump, lead: Trump, roundTrump: Trump, strongest: Card, card: Card)
    requires roundTrump == TrumpOf(strongest)
    requires Key(masterTrump, lead, strongest) >= 0
    ensures CardIsStronger(roundTrump, masterTrump, strongest, card)
            <==> Key(masterTrump, lead, card) > Key(masterTrump, lead, strongest)
  {
  }

  /** Two different cards never share a non-negative place of the reference order. */
  lemma KeyInjective(masterTrump: Trump, lead: Trump, c: Card, d: Card)
    requires c != d && Key(masterTrump, lead, c) >= 0
    ensures Key(masterTrump, lead, c) != Key(masterTrump, lead, d)
  {
  }

  /** A master-trump card that is strongest, with the round trump set to its
      suit, is displaced only by a higher card of the master trump. */
  lemma MasterTrumpHolds(masterTrump: Trump, strongest: Card, card: Card)
    requires TrumpOf(strongest) == masterTrump
    ensures CardIsStronger(TrumpOf(strongest), masterTrump, strongest, card)
            <==> TrumpOf(card) == masterTrump && card.rank > strongest.rank
  {
  }

  /** The three trick fields that are only ever assigned together: the round
      trump, the strongest card, and the turn at which that card was played. */
  datatype TrickState = TrickState(roundTrump: Trump, strongest: Card, winner: nat)

  /** The trick state after the cards `cards` have been played in turn order:
      the first card sets all three fields, each later card sets them when it
      is stronger than the strongest so far. */
  function Resolve(masterTrump: Trump, cards: seq<Card>): (st: TrickState)
    requires |cards| > 0
    ensures st.winner < |cards| && cards[st.winner] == st.strongest
    ensures st.roundTrump == TrumpOf(st.strongest)
    decreases |cards|
  {
    var n := |cards| - 1;
    if n == 0 then TrickState(TrumpOf(cards[0]), cards[0], 0)
    else
      var st := Resolve(masterTrump, cards[..n]);
      if CardIsStronger(st.roundTrump, masterTrump, st.strongest, cards[n])
      then TrickState(TrumpOf(cards[n]), cards[n], n)
      else st
  }

  /** The fold finds the top card of the reference order for the led suit: no
      card played ranks above it, every earlier card ranks strictly below it,
      and so it is a master-trump card whenever one was played. */
  lemma {:induction false} ResolveFindsTop(masterTrump: Trump, cards: seq<Card>)
    requires |cards| > 0
    ensures var st := Resolve(masterTrump, cards);
            var lead := TrumpOf(cards[0]);
            && Key(masterTrump, lead, st.strongest) >= 0
            && (forall i :: 0 <= i < |cards| ==> Key(masterTrump, lead, cards[i]) <= Key(masterTrump, lead, st.strongest))
            && (forall i :: 0 <= i < st.winner ==> Key(masterTrump, lead, cards[i]) < Key(masterTrump, lead, st.strongest))
  {
    var n := |cards| - 1;
    var lead := TrumpOf(cards[0]);
    if n > 0 {
      var prefix := cards[..n];
      ResolveFindsTop(masterTrump, prefix);
      var st := Resolve(masterTrump, prefix);
      assert prefix[0] == cards[0];
      StrongerIffHigherKey(masterTrump, lead, st.roundTrump, st.strongest, cards[n]);
      assert forall i :: 0 <= i < n ==> cards[i] == prefix[i];
    }
  }

  /** When no card is played twice, the winner of the trick is the unique top
      card of the reference order: every other card ranks strictly below it. */
  lemma ResolveWinnerUnique(masterTrump: Trump, cards: seq<Card>)
    requires |cards| > 0 && Distinct(cards)
    ensures var st := Resolve(masterTrump, cards);
            forall i :: 0 <= i < |cards| && i != st.winner ==>
              Key(masterTrump, TrumpOf(cards[0]), cards[i]) < Key(masterTrump, TrumpOf(cards[0]), st.strongest)
  {
    var st := Resolve(masterTrump, cards);
    var lead := TrumpOf(cards[0]);
    ResolveFindsTop(masterTrump, cards);
    forall i | 0 <= i < |cards| && i != st.winner
      ensures Key(masterTrump, lead, cards[i]) < Key(masterTrump, lead, st.strongest)
    {
      assert cards[i] != cards[st.winner];
      KeyInjective(masterTrump, lead, st.strongest, cards[i]);
    }
  }

  /** Once the strongest card of a trick is a master-trump card, it stays so
      for the rest of the trick, and its value can only rise. */
  lemma {:induction false} MasterTrumpStaysOnTop(masterTrump: Trump, cards: seq<Card>, k: nat)
    requires 0 < k <= |cards|
    requires TrumpOf(Resolve(masterTrump, cards[..k]).strongest) == masterTrump
    ensures TrumpOf(Resolve(masterTrump, cards).strongest) == masterTrump
    ensures Resolve(masterTrump, cards).strongest.rank >= Resolve(masterTrump, cards[..k]).strongest.rank
  {
    var n := |cards| - 1;
    if k <= n {
      var prefix := cards[..n];
      assert prefix[..k] == cards[..k];
      MasterTrumpStaysOnTop(masterTrump, prefix, k);
      MasterTrumpHolds(masterTrump, Resolve(masterTrump, prefix).strongest, cards[n]);
    } else {
      assert cards[..k] == cards;
    }
  }

  /** A worked trick with master trump the last suit, led with a value-3 card of
      suit 0: a higher card of the led suit takes it, a lowest master-trump card
      takes it from that card, and the highest card of the led suit played
      afterwards does not displace the master-trump card. */
  lemma MasterTrumpTakesTrick()
    ensures var cards := [Card(0, 3), Card(0, 11), Card(3, 0), Card(0, 12)];
            Resolve(Suit(3), cards) == TrickState(Suit(3), Card(3, 0), 2)
  {
    var cards := [Card(0, 3), Card(0, 11), Card(3, 0), Card(0, 12)];
    assert cards[..1] == [Card(0, 3)];
    assert cards[..2] == [Card(0, 3), Card(0, 11)];
    assert cards[..3] == [Card(0, 3), Card(0, 11), Card(3, 0)];
  }
}
