# Whist match engine in Dafny

This project models the rules engine of a four-seat Whist server: the
`GameEngine` class in `src/main/java/whist/GameEngine.java`. One engine
object owns the 52-card deck, the master trump of the current hand, the
round trump, the strongest card and top player of the current trick, and
the two match scores. For each seat 0..3 it also owns the cards and the
trick count of the player sitting there. The engine does the following:

- builds the deck;
- at each hand, advances the master trump, zeroes the trick counts, picks a
  lead seat, shuffles, and deals four blocks of thirteen;
- plays tricks round the table under a card-strength rule;
- turns each team's tricks beyond six into match points;
- plays hands until a team reaches seven.

The project has four modules:

- `Cards` (`cards.dfy`): the values. Trumps are the four suits plus NOTHING.
  It also holds cards, the built deck, the master-trump advance, and the
  split of a deck into four blocks.
- `Trick` (`trick.dfy`): one trick as a value. It holds the strength rule,
  the seat rotation, and `Resolve`, the left fold of the rule over the cards
  of a trick. `Resolve` keeps the round trump, the strongest card and the
  winning turn together.
- `Scoring` (`scoring.dfy`): the book of six, the winning score of seven,
  and match length.
- `Engine` (`engine.dfy`): the `GameEngine` class. Its fields are updated in
  place by methods with `modifies` frames, and each loop is proved against
  the functions above.

Seat `s` plays for team `s % 2`. Team 0 is seats 0 and 2, and team 1 is
seats 1 and 3. A hand is held as a multiset of cards, and the deck as a
sequence. A ghost field `pile` records the cards played in the current
hand. The invariant `Conserved` states that the hands plus the pile are
exactly the deck.

Where the code departs from the usual Whist rules or leaves something undetermined, the model follows the code:

- In the usual Whist rule the round trump is the suit that was led. The
  code, at line 96, sets it to the suit of each new strongest card, and the
  model follows the code. `Trick.ResolveFindsTop` shows that the code still
  picks the card that the usual rule picks: the highest master-trump card
  if one was played, and otherwise the highest card of the led suit.
- One consequence of line 96: once a master-trump card has taken the lead,
  the round trump passed to the next players is the master suit, not the
  led suit.
- `Trump.values()[ordinal + 1]` at line 153 names whatever constant follows
  the current one. The `Trump` type is not part of this model. Its first
  four constants are taken to be the suits, because lines 132-135 index
  them that way. HEART is taken to be the first suit.
- After the last suit, the next constant is not determined. `NextMasterTrump`
  returns `None` there. If no team has reached seven yet, `GameEngine.Run`
  stops with `TrumpPastLastSuit`; a match already decided ends as `Finished`.
  `run()` calls `resetHand` after every hand, so the deal after a fourth
  hand already needs that constant. `Scoring.MatchCanOutlastFourHands` shows
  that a match can still be going on at that point.

## Model

| member | source | states |
|---|---|---|
| Cards.NextMasterTrump | src/main/java/whist/GameEngine.java:147-154 | NOTHING advances to HEART. Every suit but the last advances to a suit other than itself. The result is undetermined exactly when the current trump is the last suit. |
| Cards.MasterTrumpRotation | src/main/java/whist/GameEngine.java:123-154 | From the NOTHING set by a game reset, the first four hands get the four suits in order, starting with HEART. None of them is NOTHING. |
| Cards.MasterTrumpExhausted | src/main/java/whist/GameEngine.java:153 | The fourth hand is played under the last suit, and the fifth advance reads past it. |
| Cards.FullDeck | src/main/java/whist/GameEngine.java:131-137 | The deck built suit by suit and value by value has 52 cards. FullDeckComplete and FullDeckDistinct state that it holds each card exactly once. |
| Cards.FullDeckComplete | src/main/java/whist/GameEngine.java:131-137 | The deck built suit by suit and value by value holds Card(s, r) at position 13*s + r, so every (suit, value) pair is in it. |
| Cards.FullDeckDistinct | src/main/java/whist/GameEngine.java:131-137 | The built deck has no repeated card. |
| Cards.ShuffledDeckDistinct | src/main/java/whist/GameEngine.java:168 | Any reordering of the built deck still has 52 cards with no card twice. |
| Cards.DealCoversDeck | src/main/java/whist/GameEngine.java:169-171 | The four blocks, in seat order, are the whole deck, both as a sequence and as a multiset. |
| Cards.DealDisjoint | src/main/java/whist/GameEngine.java:169-171 | When the deck has no repeated card, no card is dealt to two seats. |
| Trick.SeatOfTurn | src/main/java/whist/GameEngine.java:102 | The seat after the current one round the table, wrapping from seat 3 to seat 0. SeatOfTurnIsModular and RotationCoversSeats state its properties. |
| Trick.SeatOfTurnIsModular | src/main/java/whist/GameEngine.java:102 | The seat playing turn t of a trick led by `lead` is (lead + t) % 4. |
| Trick.RotationCoversSeats | src/main/java/whist/GameEngine.java:89-102 | The four turns of a trick go to four different seats, and every seat has its turn. |
| Trick.CardIsStronger | src/main/java/whist/GameEngine.java:191-195 | A card displaces the strongest one when it follows the round trump with a higher value, or is of the master trump while the round trump is not. StrongerIffHigherKey and MasterTrumpHolds state what it decides. |
| Trick.StrongerIffHigherKey | src/main/java/whist/GameEngine.java:191-195 | While the round trump is the suit of the strongest card, the strength rule holds exactly when the card is higher in the reference order. In that order, master-trump cards come first, then cards of the led suit, each ranked by value. |
| Trick.MasterTrumpHolds | src/main/java/whist/GameEngine.java:191-195 | Once a master-trump card is strongest, only a higher master-trump card displaces it. |
| Trick.Resolve | src/main/java/whist/GameEngine.java:89-99 | The fold over the cards of a trick names a winning turn that holds the strongest card. The round trump is always that card's suit, so the three fields move together. |
| Trick.ResolveFindsTop | src/main/java/whist/GameEngine.java:89-99 | The strongest card ranks at or above every card played, and strictly above every card played before it. |
| Trick.ResolveWinnerUnique | src/main/java/whist/GameEngine.java:89-99 | When no card repeats, every card other than the winner ranks strictly below it. |
| Trick.MasterTrumpStaysOnTop | src/main/java/whist/GameEngine.java:94-99 | Once the strongest card is a master-trump card, it stays one for the rest of the trick, and its value can only rise. |
| Trick.MasterTrumpTakesTrick | src/main/java/whist/GameEngine.java:191-195 | A worked trick: the lowest master-trump card beats the led suit, and a later higher card of the led suit does not displace it. |
| Scoring.BookGain | src/main/java/whist/GameEngine.java:70-71 | A team earns points exactly when it took more than six tricks. It never earns more than the tricks it took. |
| Scoring.MatchGoesOn | src/main/java/whist/GameEngine.java:33 | Another hand is played while both scores are below seven. MatchEndsWithinThirteenHands and MatchCanOutlastFourHands state how long that lasts. |
| Scoring.FullHandScores | src/main/java/whist/GameEngine.java:62-71 | When the two teams share thirteen tricks, exactly one team scores, and it scores between one and seven. |
| Scoring.MatchEndsWithinThirteenHands | src/main/java/whist/GameEngine.java:33 | If every hand adds at least one point, a match that starts at 0-0 and continues only while both scores are below seven lasts at most thirteen hands. |
| Scoring.MatchCanOutlastFourHands | src/main/java/whist/GameEngine.java:33-40 | After four one-point hands the scores are 2-2, so the match goes on into a fifth hand. |
| Engine.AfterTurnsTakesOnePerSeat | src/main/java/whist/GameEngine.java:89-102 | Part way through a trick, each seat whose turn has come has given up exactly the card it played, from its own hand. Every other seat still holds its hand unchanged. |
| Engine.TrickTakesOneCardPerSeat | src/main/java/whist/GameEngine.java:89-91 | After a trick, every hand holds one card fewer, and the hands plus the trick are the hands before it. |
| Engine.TrickConserves | src/main/java/whist/GameEngine.java:89-91 | A trick played from the hands moves exactly its four cards from the hands to the pile, so no card is lost or made up. |
| Engine.DealFromEmpty | src/main/java/whist/GameEngine.java:169-171 | Dealing into four empty hands gives every seat thirteen cards. The hands then hold exactly the cards of the deck. |
| Engine.GameEngine.constructor | src/main/java/whist/GameEngine.java:26-30 | A new engine has been reset. Its master trump is HEART, both scores are 0, and a full deck has been dealt thirteen cards to each seat. |
| Engine.GameEngine.ResetGame | src/main/java/whist/GameEngine.java:122-144 | Sets both scores to 0. Builds exactly the 52-card deck and then deals it. |
| Engine.GameEngine.ResetHand | src/main/java/whist/GameEngine.java:146-172 | Advances the master trump and zeroes every trick count. Picks a lead seat in 0..3, reorders the deck, and adds block i to seat i. When the advance is undetermined, nothing changes. |
| Engine.GameEngine.Shuffle | src/main/java/whist/GameEngine.java:168 | The deck afterwards is a reordering of the deck before. |
| Engine.GameEngine.Deal | src/main/java/whist/GameEngine.java:169-171 | Each seat's hand gains exactly the cards of its block. |
| Engine.GameEngine.PlayerPlay | src/main/java/whist/GameEngine.java:91 | The card played comes from the seat's hand, and only that hand loses it. |
| Engine.GameEngine.PlayTurn | src/main/java/whist/GameEngine.java:90-98 | One turn: the seat whose turn it is plays a card from its hand. The trick fields are then those of the fold over the trick extended by that card. |
| Engine.GameEngine.PlayTurns | src/main/java/whist/GameEngine.java:89-105 | The seats from the lead round the table play one card each. Afterwards the round trump, the strongest card and the top player are those of the fold of the strength rule over the trick. |
| Engine.GameEngine.AddTrick | src/main/java/whist/GameEngine.java:109 | The seat's trick count rises by one. No other count changes. |
| Engine.GameEngine.PlayRound | src/main/java/whist/GameEngine.java:77-110 | Plays a whole trick. The round trump is back to NOTHING. The winner of the fold becomes the top player and gains one trick. The total of tricks counted rises by one. |
| Engine.GameEngine.PlayHand | src/main/java/whist/GameEngine.java:56-74 | Tricks are played until the hands are empty. The trick total rises by the number of cards each hand held. Each team's score rises by its tricks beyond six, and no card is lost. |
| Engine.GameEngine.Run | src/main/java/whist/GameEngine.java:32-44 | Scores never decrease. The outcome is Finished exactly when a team has reached seven, also when the deal after the deciding hand would need the constant after the last suit. A match that has not ended gains points. With outcome TrumpPastLastSuit, the last hand was played under the last suit and both teams are still below seven. |

## Left out

- Networking is not modelled: connecting players (lines 112-120), the name handshake (lines 173-177), the played-card broadcast and its points snapshot (lines 80-87, 100-101, 181-189), and `quit`.
- Logging, the one-second pause at line 107, and the display resource of each card (line 134) are not modelled.
- Exceptions caught and printed in `run()` and `resetGame()` are not modelled. Every method here either completes or, in `ResetHand`, reports the undetermined trump advance.
- The random lead seat and the shuffle are free choices. Every seat and every reordering is allowed, but no distribution is modelled.
- `Player`, `Trump`, `Value` and `Card` are not part of this model. Each seat's hand and trick count are engine fields.
- Engine.GameEngine.PlayerPlay: the card a player chooses is any card of its hand. Following suit and the player's own choice are not modelled, so the round trump passed to it is unused.
- Engine.GameEngine.ResetHand: the trick counts are set in one assignment rather than by the per-player loop at lines 159-161. Hands are multisets, so the order of cards within a hand is not modelled.
- Engine.GameEngine.Run: hands after one played under the last suit are not modelled. An undecided match stops there with outcome TrumpPastLastSuit.
- Engine.GameEngine.PlayRound: the seat-indexed list of played cards is not kept. The trick is returned in turn order instead.
- Integers are unbounded. Scores stay below 14 and trick counts below 14, so Java's 32-bit `int` never wraps here.
