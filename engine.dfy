/** The match engine: one object that owns the deck, the master and round
    trumps, the trick fields, the match scores and, for each seat, the hand
    and the trick counter of the player sitting there. Its methods are the
    engine's own: build the deck, deal a hand, play a trick, play a hand,
    and run the match until a team reaches seven. */
module Engine {
  import opened Cards
  import opened Trick
  import opened Scoring

  /** How the match loop ends: a team reached the winning score, or the deal
      after a hand played under the last suit needs the trump constant that
      follows it, which this model does not determine. */
  datatype MatchOutcome = Finished | TrumpPastLastSuit

  /** All cards held by the four seats. */
  function HandsMultiset(hs: seq<multiset<Card>>): multiset<Card>
    requires |hs| == 4
  {
    hs[0] + hs[1] + hs[2] + hs[3]
  }

  /** No card is lost or made up: the cards in the hands `hs` and the cards
      already played `pile` are exactly the cards of `deck`. */
  ghost predicate HandsConserve(hs: seq<multiset<Card>>, pile: seq<Card>, deck: seq<Card>)
    requires |hs| == 4
  {
    HandsMultiset(hs) + multiset(pile) == multiset(deck)
  }

  /** `after` is the hand `before` with the card `c` played from it. */
  ghost predicate Took(before: multiset<Card>, after: multiset<Card>, c: Card)
  {
    c in before && after == before - multiset{c}
  }

  /** Playing `c` from a hand leaves one card fewer, and putting `c` back
      gives the hand as it was. */
  lemma TookOne(before: multiset<Card>, after: multiset<Card>, c: Card)
    requires Took(before, after, c)
    ensures after + multiset{c} == before && |after| == |before| - 1
  {
  }

  /** The cards of a trick, taken seat by seat instead of turn by turn, are
      still the cards of the trick. */
  lemma SeatOrderPermutesTrick(lead: SeatIndex, trick: seq<Card>)
    requires |trick| == 4
    ensures multiset{trick[TurnOfSeat(lead, 0)]} + multiset{trick[TurnOfSeat(lead, 1)]}
            + multiset{trick[TurnOfSeat(lead, 2)]} + multiset{trick[TurnOfSeat(lead, 3)]} == multiset(trick)
  {
    assert trick == [trick[0]] + [trick[1]] + [trick[2]] + [trick[3]];
    var a, b, c, d := multiset{trick[0]}, multiset{trick[1]}, multiset{trick[2]}, multiset{trick[3]};
    assert multiset(trick) == a + b + c + d;
    if lead == 1 {
      assert TurnOfSeat(lead, 0) == 3 && TurnOfSeat(lead, 1) == 0 && TurnOfSeat(lead, 2) == 1 && TurnOfSeat(lead, 3) == 2;
      assert d + a + b + c == a + b + c + d;
    } else if lead == 2 {
      assert TurnOfSeat(lead, 0) == 2 && TurnOfSeat(lead, 1) == 3 && TurnOfSeat(lead, 2) == 0 && TurnOfSeat(lead, 3) == 1;
      assert c + d + a + b == a + b + c + d;
    } else if lead == 3 {
      assert TurnOfSeat(lead, 0) == 1 && TurnOfSeat(lead, 1) == 2 && TurnOfSeat(lead, 2) == 3 && TurnOfSeat(lead, 3) == 0;
      assert b + c + d + a == a + b + c + d;
    }
  }

  /** The hands after the cards of `trick` were played in turn order, the
      first by seat `lead` and each next one by the next seat round the table. */
  function AfterTurns(before: seq<multiset<Card>>, lead: SeatIndex, trick: seq<Card>): (h: seq<multiset<Card>>)
    requires |before| == 4 && |trick| <= 4
    ensures |h| == 4
    decreases |trick|
  {
    if trick == [] then before
    else
      var n := |trick| - 1;
      var h := AfterTurns(before, lead, trick[..n]);
      var seat := SeatOfTurn(lead, n);
      h[seat := h[seat] - multiset{trick[n]}]
  }

  /** Every card of `trick` was in its player's hand when it was played. */
  ghost predicate PlayedFromHands(before: seq<multiset<Card>>, lead: SeatIndex, trick: seq<Card>)
    requires |before| == 4 && |trick| <= 4
    decreases |trick|
  {
    trick == []
    || (var n := |trick| - 1;
        && PlayedFromHands(before, lead, trick[..n])
        && trick[n] in AfterTurns(before, lead, trick[..n])[SeatOfTurn(lead, n)])
  }

  /** Part way through a trick, each seat whose turn has come has given up
      exactly the card it played, from its own hand, and every other seat
      still holds its hand untouched. */
  lemma {:induction false} AfterTurnsTakesOnePerSeat(before: seq<multiset<Card>>, lead: SeatIndex, trick: seq<Card>)
    requires |before| == 4 && |trick| <= 4 && PlayedFromHands(before, lead, trick)
    ensures var h := AfterTurns(before, lead, trick);
            forall s :: 0 <= s < 4 ==>
              if TurnOfSeat(lead, s) < |trick| then Took(before[s], h[s], trick[TurnOfSeat(lead, s)])
              else h[s] == before[s]
  {
    if trick != [] {
      var n := |trick| - 1;
      var prefix := trick[..n];
      AfterTurnsTakesOnePerSeat(before, lead, prefix);
      var seat := SeatOfTurn(lead, n);
      assert TurnOfSeat(lead, seat) == n;
      forall s | 0 <= s < 4 && TurnOfSeat(lead, s) < n
        ensures trick[TurnOfSeat(lead, s)] == prefix[TurnOfSeat(lead, s)]
      {
      }
    }
  }

  /** A seat whose turn has not come yet still holds its hand as it was
      before the trick. */
  lemma {:induction false} LaterSeatUntouched(before: seq<multiset<Card>>, lead: SeatIndex, trick: seq<Card>, k: nat)
    requires |before| == 4 && |trick| <= k < 4
    ensures AfterTurns(before, lead, trick)[SeatOfTurn(lead, k)] == before[SeatOfTurn(lead, k)]
  {
    if trick != [] {
      var n := |trick| - 1;
      LaterSeatUntouched(before, lead, trick[..n], k);
      assert SeatOfTurn(lead, n) != SeatOfTurn(lead, k);
    }
  }

  /** Four hands each with one card put back hold the four hands plus the four cards. */
  lemma Regroup(a: multiset<Card>, b: multiset<Card>, c: multiset<Card>, d: multiset<Card>,
                ma: multiset<Card>, mb: multiset<Card>, mc: multiset<Card>, md: multiset<Card>)
    ensures (a + ma) + (b + mb) + (c + mc) + (d + md) == (a + b + c + d) + (ma + mb + mc + md)
  {
  }

  /** After a trick in which every seat played one card from its hand, each
      hand holds one card fewer, and the cards held plus the trick are the
      cards held before. */
  lemma TrickTakesOneCardPerSeat(before: seq<multiset<Card>>, after: seq<multiset<Card>>, lead: SeatIndex, trick: seq<Card>)
    requires |before| == 4 && |after| == 4 && |trick| == 4
    requires forall s :: 0 <= s < 4 ==> Took(before[s], after[s], trick[TurnOfSeat(lead, s)])
    ensures forall s :: 0 <= s < 4 ==> |after[s]| == |before[s]| - 1
    ensures HandsMultiset(after) + multiset(trick) == HandsMultiset(before)
  {
    var c0, c1, c2, c3 := trick[TurnOfSeat(lead, 0)], trick[TurnOfSeat(lead, 1)], trick[TurnOfSeat(lead, 2)], trick[TurnOfSeat(lead, 3)];
    TookOne(before[0], after[0], c0);
    TookOne(before[1], after[1], c1);
    TookOne(before[2], after[2], c2);
    TookOne(before[3], after[3], c3);
    SeatOrderPermutesTrick(lead, trick);
    Regroup(after[0], after[1], after[2], after[3], multiset{c0}, multiset{c1}, multiset{c2}, multiset{c3});
  }

  /** A whole trick played from the hands takes one card from every hand,
      and moves exactly the cards of the trick from the hands to the pile. */
  lemma TrickConserves(before: seq<multiset<Card>>, lead: SeatIndex, trick: seq<Card>, pile: seq<Card>, deck: seq<Card>)
    requires |before| == 4 && |trick| == 4 && PlayedFromHands(before, lead, trick)
    ensures forall s :: 0 <= s < 4 ==> |AfterTurns(before, lead, trick)[s]| == |before[s]| - 1
    ensures HandsConserve(before, pile, deck) ==> HandsConserve(AfterTurns(before, lead, trick), pile + trick, deck)
  {
    var after := AfterTurns(before, lead, trick);
    AfterTurnsTakesOnePerSeat(before, lead, trick);
    TrickTakesOneCardPerSeat(before, after, lead, trick);
    assert multiset(pile + trick) == multiset(pile) + multiset(trick);
  }

  /** Dealing the four blocks of a deck to four empty hands gives every seat
      thirteen cards and puts every card of the deck in exactly one hand. */
  lemma DealFromEmpty(before: seq<multiset<Card>>, after: seq<multiset<Card>>, d: seq<Card>)
    requires |before| == 4 && |after| == 4 && |d| == DeckSize
    requires forall s :: 0 <= s < 4 ==> after[s] == before[s] + multiset(DealtBlock(d, s))
    ensures (forall s :: 0 <= s < 4 ==> before[s] == multiset{}) ==>
              (forall s :: 0 <= s < 4 ==> |after[s]| == HandSize) && HandsConserve(after, [], d)
  {
    if forall s :: 0 <= s < 4 ==> before[s] == multiset{} {
      DealCoversDeck(d);
      assert forall s :: 0 <= s < 4 ==> after[s] == multiset(DealtBlock(d, s));
    }
  }

  /** Sum of the four seats' trick counters. */
  function TotalPoints(p: seq<nat>): nat
    requires |p| == 4
  {
    p[0] + p[1] + p[2] + p[3]
  }

  class GameEngine {
    var masterTrump: Trump
    var roundTrump: Trump
    /** The 52 cards, in the order of the last shuffle. */
    var deck: seq<Card>
    /** Only read after the first card of a trick has set it. */
    var strongestCard: Card
    var topPlayer: SeatIndex
    /** Match score by team number, 0 and 1. */
    var teamScore: map<int, nat>
    /** The cards each seat's player holds, by seat. */
    var hands: seq<multiset<Card>>
    /** The tricks each seat's player has taken in the current hand, by seat. */
    var points: seq<nat>
    /** The cards played in the current hand so far, in order of play. */
    ghost var pile: seq<Card>

    /** Between tricks: four seats, a full deck, two team scores, no round trump. */
    ghost predicate Valid()
      reads this
    {
      && |hands| == 4
      && |points| == 4
      && |deck| == DeckSize
      && teamScore.Keys == {0, 1}
      && roundTrump == Nothing
    }

    /** The deck is some order of the 52 cards the game reset builds. */
    ghost predicate DeckIntact()
      reads this
    {
      multiset(deck) == multiset(FullDeck())
    }

    /** No card is lost or made up: the cards in the hands and the cards
        already played this hand are exactly the deck. */
    ghost predicate Conserved()
      reads this
      requires |hands| == 4
    {
      HandsConserve(hands, pile, deck)
    }

    /** All hands hold the same number of cards. */
    ghost predicate Lockstep()
      reads this
      requires |hands| == 4
    {
      forall s :: 0 <= s < 4 ==> |hands[s]| == |hands[0]|
    }

    /** Right after a deal: thirteen cards in every hand, no trick counted,
        nothing played. */
    ghost predicate Dealt()
      reads this
      requires |hands| == 4
    {
      Lockstep() && |hands[0]| == HandSize && points == [0, 0, 0, 0] && pile == []
    }

    /** The engine once its four players are seated (each with an empty hand
        and no tricks): it resets the game, which deals the first hand. */
    constructor ()
      ensures Valid() && DeckIntact() && Dealt() && Conserved()
      ensures masterTrump == Heart && teamScore == map[0 := 0, 1 := 0]
    {
      masterTrump := Nothing;
      roundTrump := Nothing;
      deck := [];
      strongestCard := Card(0, 0);
      topPlayer := 0;
      teamScore := map[];
      hands := [multiset{}, multiset{}, multiset{}, multiset{}];
      points := [0, 0, 0, 0];
      pile := [];
      new;
      ResetGame();
    }

    /** Resets the master trump and both match scores, rebuilds the deck one
        card per (suit, value) pair, and deals the first hand. */
    method ResetGame()
      requires |hands| == 4 && |points| == 4 && roundTrump == Nothing
      modifies this
      ensures Valid() && DeckIntact() && masterTrump == Heart && teamScore == map[0 := 0, 1 := 0]
      ensures points == [0, 0, 0, 0] && pile == []
      ensures forall s :: 0 <= s < 4 ==> hands[s] == old(hands[s]) + multiset(DealtBlock(deck, s))
      ensures (forall s :: 0 <= s < 4 ==> old(hands[s]) == multiset{}) ==> Dealt() && Conserved()
    {
      masterTrump := Nothing;
      teamScore := map[0 := 0, 1 := 0];
      deck := [];
      for i := 0 to 4
        invariant deck == FullDeck()[..HandSize * i]
        invariant hands == old(hands) && points == old(points) && roundTrump == Nothing
        invariant masterTrump == Nothing && teamScore == map[0 := 0, 1 := 0]
      {
        for j := 0 to 13
          invariant deck == FullDeck()[..HandSize * i + j]
          invariant hands == old(hands) && points == old(points) && roundTrump == Nothing
          invariant masterTrump == Nothing && teamScore == map[0 := 0, 1 := 0]
        {
          FullDeckComplete(i, j);
          assert FullDeck()[..HandSize * i + j + 1] == FullDeck()[..HandSize * i + j] + [Card(i, j)];
          deck := deck + [Card(i, j)];
        }
      }
      assert deck == FullDeck();
      var ok := ResetHand();
    }

    /** Starts a hand: advances the master trump, zeroes every seat's tricks,
        picks any seat to lead, shuffles the deck and deals it. When the master
        trump is the last suit the next trump is not determined here: nothing
        changes and ok is false. */
    method ResetHand() returns (ok: bool)
      requires Valid()
      modifies this`masterTrump, this`points, this`topPlayer, this`deck, this`hands, this`pile
      ensures ok <==> old(masterTrump) != Suit(LastSuit)
      ensures !ok ==> unchanged(this)
      ensures Valid()
      ensures ok ==> NextMasterTrump(old(masterTrump)) == Some(masterTrump)
      ensures ok ==> points == [0, 0, 0, 0] && pile == [] && multiset(deck) == old(multiset(deck))
      ensures ok ==> forall s :: 0 <= s < 4 ==> hands[s] == old(hands[s]) + multiset(DealtBlock(deck, s))
      ensures ok && (forall s :: 0 <= s < 4 ==> old(hands[s]) == multiset{}) ==> Dealt() && Conserved()
    {
      var next := NextMasterTrump(masterTrump);
      if next.None? {
        return false;
      }
      masterTrump := next.value;
      points := [0, 0, 0, 0];
      // Any seat may lead: the random draw is not modelled.
      var whosHand: SeatIndex :| 0 <= whosHand < 4;
      topPlayer := whosHand;
      Shuffle();
      ghost var before := hands;
      Deal();
      pile := [];
      DealFromEmpty(before, hands, deck);
      ok := true;
    }

    /** Puts the deck in any order: which order the random shuffle picks is
        not modelled. */
    method Shuffle()
      modifies this`deck
      ensures multiset(deck) == old(multiset(deck)) && |deck| == old(|deck|)
    {
      // the current deck is itself a witness for the choice below
      assert multiset(deck[..]) == multiset(deck);
      var shuffled :| multiset(shuffled) == multiset(deck);
      assert |shuffled| == |multiset(deck)|;
      deck := shuffled;
    }

    /** Gives seat i the cards at positions 13 * i .. 13 * i + 12 of the deck,
        added to what it holds. */
    method Deal()
      requires |hands| == 4 && |deck| == DeckSize
      modifies this`hands
      ensures |hands| == 4
      ensures forall s :: 0 <= s < 4 ==> hands[s] == old(hands[s]) + multiset(DealtBlock(deck, s))
    {
      for i := 0 to 4
        invariant |hands| == 4
        invariant forall s :: 0 <= s < i ==> hands[s] == old(hands[s]) + multiset(DealtBlock(deck, s))
        invariant forall s :: i <= s < 4 ==> hands[s] == old(hands[s])
      {
        hands := hands[i := hands[i] + multiset(DealtBlock(deck, i))];
      }
    }

    /** The seat's player plays: it gives up any one card of its hand. It is
        told the round trump; following suit is the player's own concern. */
    method PlayerPlay(seat: SeatIndex, trump: Trump) returns (card: Card)
      requires |hands| == 4 && |hands[seat]| > 0
      modifies this`hands
      ensures card in old(hands[seat])
      ensures hands == old(hands)[seat := old(hands[seat]) - multiset{card}]
    {
      card :| card in hands[seat];
      hands := hands[seat := hands[seat] - multiset{card}];
    }

    /** One turn of a trick led by `lead`: seat `i`, whose turn it is, plays a
        card from its hand, and the card becomes the strongest, setting the
        round trump and the top player with it, when it is the first card or
        the strength rule says it is stronger. */
    method PlayTurn(ghost before: seq<multiset<Card>>, lead: SeatIndex, turn: nat, i: SeatIndex, ghost trick: seq<Card>)
      returns (card: Card)
      requires |before| == 4 && |hands| == 4 && turn == |trick| < 4 && i == SeatOfTurn(lead, turn)
      requires forall s :: 0 <= s < 4 ==> |before[s]| > 0
      requires hands == AfterTurns(before, lead, trick) && PlayedFromHands(before, lead, trick)
      requires turn > 0 ==>
                 var st := Resolve(masterTrump, trick);
                 roundTrump == st.roundTrump && strongestCard == st.strongest && topPlayer == SeatOfTurn(lead, st.winner)
      modifies this`hands, this`roundTrump, this`strongestCard, this`topPlayer
      ensures hands == AfterTurns(before, lead, trick + [card]) && PlayedFromHands(before, lead, trick + [card])
      ensures var st := Resolve(masterTrump, trick + [card]);
              roundTrump == st.roundTrump && strongestCard == st.strongest && topPlayer == SeatOfTurn(lead, st.winner)
    {
      LaterSeatUntouched(before, lead, trick, turn);
      card := PlayerPlay(i, roundTrump);
      assert (trick + [card])[..turn] == trick;
      if turn == 0 || CardIsStronger(roundTrump, masterTrump, strongestCard, card) {
        roundTrump := TrumpOf(card);
        strongestCard := card;
        topPlayer := i;
      }
    }

    /** The four turns of a trick: the seats from the lead round the table
        each play a card from their hand, and the round trump, the strongest
        card and the top player follow the strength rule over the cards played. */
    method PlayTurns() returns (trick: seq<Card>)
      requires |hands| == 4 && forall s :: 0 <= s < 4 ==> |hands[s]| > 0
      modifies this`hands, this`roundTrump, this`strongestCard, this`topPlayer
      ensures |trick| == 4 && |hands| == 4
      ensures hands == AfterTurns(old(hands), old(topPlayer), trick)
      ensures PlayedFromHands(old(hands), old(topPlayer), trick)
      ensures var st := Resolve(masterTrump, trick);
              && roundTrump == st.roundTrump && strongestCard == st.strongest
              && topPlayer == SeatOfTurn(old(topPlayer), st.winner)
    {
      var lead := topPlayer;
      var i := topPlayer;
      ghost var before := hands;
      trick := [];
      for turn := 0 to 4
        invariant |hands| == 4 && |trick| == turn
        invariant i == SeatOfTurn(lead, turn)
        invariant hands == AfterTurns(before, lead, trick) && PlayedFromHands(before, lead, trick)
        invariant turn > 0 ==>
                    var st := Resolve(masterTrump, trick);
                    roundTrump == st.roundTrump && strongestCard == st.strongest && topPlayer == SeatOfTurn(lead, st.winner)
      {
        var cardPlayed := PlayTurn(before, lead, turn, i, trick);
        trick := trick + [cardPlayed];
        i := SeatOfTurn(i, 1);
      }
    }

    /** The seat's player is credited with one more trick. */
    method AddTrick(seat: SeatIndex)
      requires |points| == 4
      modifies this`points
      ensures points == old(points)[seat := old(points[seat]) + 1]
      ensures TotalPoints(points) == old(TotalPoints(points)) + 1
    {
      points := points[seat := points[seat] + 1];
    }

    /** Plays one trick: after the four turns the round trump is cleared, and
        the top player takes one trick and leads the next. */
    method PlayRound() returns (trick: seq<Card>)
      requires Valid() && Lockstep() && |hands[0]| > 0
      modifies this`hands, this`roundTrump, this`strongestCard, this`topPlayer, this`pile, this`points
      ensures Valid() && |trick| == 4
      ensures hands == AfterTurns(old(hands), old(topPlayer), trick)
      ensures PlayedFromHands(old(hands), old(topPlayer), trick)
      ensures var st := Resolve(masterTrump, trick);
              topPlayer == SeatOfTurn(old(topPlayer), st.winner) && strongestCard == st.strongest
      ensures points == old(points)[topPlayer := old(points)[topPlayer] + 1]
      ensures TotalPoints(points) == old(TotalPoints(points)) + 1
      ensures pile == old(pile) + trick
    {
      trick := PlayTurns();
      pile := pile + trick;
      roundTrump := Nothing;
      AddTrick(topPlayer);
    }

    /** Plays tricks while the lead's hand holds cards, then adds to each
        team's match score the tricks its two seats took beyond the book. */
    method PlayHand()
      requires Valid() && Lockstep()
      modifies this
      ensures Valid() && forall s :: 0 <= s < 4 ==> hands[s] == multiset{}
      ensures TotalPoints(points) == old(TotalPoints(points)) + old(|hands[0]|)
      ensures teamScore == map[0 := old(teamScore[0]) + BookGain(points[0] + points[2]),
                               1 := old(teamScore[1]) + BookGain(points[1] + points[3])]
      ensures old(Conserved()) ==> Conserved()
      ensures masterTrump == old(masterTrump) && deck == old(deck)
    {
      while |hands[topPlayer]| > 0
        invariant Valid() && Lockstep()
        invariant TotalPoints(points) + |hands[0]| == old(TotalPoints(points)) + old(|hands[0]|)
        invariant old(Conserved()) ==> Conserved()
        invariant masterTrump == old(masterTrump) && deck == old(deck) && teamScore == old(teamScore)
        decreases |hands[0]|
      {
        ghost var before, lead, played := hands, topPlayer, pile;
        var trick := PlayRound();
        TrickConserves(before, lead, trick, played, deck);
      }
      var actualScore0 := points[0] + points[2];
      var actualScore1 := points[1] + points[3];
      var oldScore0 := teamScore[0];
      var oldScore1 := teamScore[1];
      teamScore := teamScore[0 := oldScore0 + BookGain(actualScore0)];
      teamScore := teamScore[1 := oldScore1 + BookGain(actualScore1)];
    }

    /** The match loop: while both teams are below seven, play a hand and deal
        the next one. Scores never decrease. A match decided by the last hand
        is Finished; only a match still undecided when the next deal needs the
        trump constant after the last suit stops with TrumpPastLastSuit. */
    method Run() returns (outcome: MatchOutcome)
      requires Valid() && DeckIntact() && Dealt() && Conserved()
      modifies this
      ensures Valid() && DeckIntact()
      ensures teamScore[0] >= old(teamScore[0]) && teamScore[1] >= old(teamScore[1])
      ensures outcome == Finished <==> !MatchGoesOn(teamScore[0], teamScore[1])
      ensures outcome == TrumpPastLastSuit ==> masterTrump == Suit(LastSuit)
      ensures !old(MatchGoesOn(teamScore[0], teamScore[1])) ==> outcome == Finished && teamScore == old(teamScore)
      ensures old(MatchGoesOn(teamScore[0], teamScore[1])) ==>
                teamScore[0] + teamScore[1] > old(teamScore[0] + teamScore[1])
    {
      while MatchGoesOn(teamScore[0], teamScore[1])
        invariant Valid() && DeckIntact() && Dealt() && Conserved()
        invariant teamScore[0] >= old(teamScore[0]) && teamScore[1] >= old(teamScore[1])
        invariant teamScore == old(teamScore) || teamScore[0] + teamScore[1] > old(teamScore[0] + teamScore[1])
        invariant !old(MatchGoesOn(teamScore[0], teamScore[1])) ==> teamScore == old(teamScore)
        decreases 2 * WinningScore - teamScore[0] - teamScore[1]
      {
        PlayHand();
        FullHandScores(points[0] + points[2], points[1] + points[3]);
        var ok := ResetHand();
        if !ok {
          if !MatchGoesOn(teamScore[0], teamScore[1]) {
            return Finished;
          }
          return TrumpPastLastSuit;
        }
      }
      return Finished;
    }
  }
}
