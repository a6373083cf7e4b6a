/** Scoring of a hand and the end of the match: a team turns the tricks it
    wins beyond the book of six into match points, and the match goes on while
    both teams are below seven. */
module Scoring {

  /** Tricks a team must take before the rest score. */
  const Book: nat := 6

  /** Match score at which the match ends. */
  const WinningScore: nat := 7

  /** Match points a team earns in a hand where it took `teamPoints` tricks:
      the tricks beyond the book, or nothing (Math.max(teamPoints - 6, 0)). */
  function BookGain(teamPoints: int): (g: nat)
    ensures g > 0 <==> teamPoints > Book
    ensures g <= if teamPoints > 0 then teamPoints else 0
  {
    if teamPoints - Book > 0 then teamPoints - Book else 0
  }

  /** Another hand is played exactly while both match scores are below seven. */
  predicate MatchGoesOn(score0: int, score1: int)
  {
    score0 < WinningScore && score1 < WinningScore
  }

  /** When the two teams share the thirteen tricks of a hand, exactly one of
      them earns match points, and it earns between one and seven. */
  lemma FullHandScores(team0: nat, team1: nat)
    requires team0 + team1 == 13
    ensures (BookGain(team0) > 0) != (BookGain(team1) > 0)
    ensures 1 <= BookGain(team0) + BookGain(team1) <= 7
  {
  }

  /** Each hand raises the sum of the match scores by at least one, so a match
      whose scores start at zero ends after at most thirteen hands. */
  lemma {:induction false} MatchEndsWithinThirteenHands(gains: seq<(nat, nat)>)
    requires forall h :: 0 <= h < |gains| ==> gains[h].0 + gains[h].1 >= 1
    requires forall h :: 0 <= h < |gains| ==> MatchGoesOn(SumFirst(gains, h), SumSecond(gains, h))
    ensures |gains| <= 13
  {
    if |gains| > 0 {
      var last := |gains| - 1;
      SumsGrow(gains, last);
      assert MatchGoesOn(SumFirst(gains, last), SumSecond(gains, last));
    }
  }

  /** Thirteen tricks split seven to six give one match point, so a match can
      alternate one-point hands and still be going on before its fifth hand:
      four master trumps, one per suit, are not enough for every match. */
  lemma {:induction false} MatchCanOutlastFourHands()
    ensures BookGain(7) == 1 && BookGain(6) == 0
    ensures var gains := [(1, 0), (0, 1), (1, 0), (0, 1)];
            && (forall h :: 0 <= h < |gains| ==> gains[h].0 + gains[h].1 >= 1)
            && MatchGoesOn(SumFirst(gains, 4), SumSecond(gains, 4))
  {
    var gains := [(1, 0), (0, 1), (1, 0), (0, 1)];
    assert SumFirst(gains, 4) == 2 && SumSecond(gains, 4) == 2;
  }

  /** Score of team 0 after the first `h` hands of `gains`. */
  function SumFirst(gains: seq<(nat, nat)>, h: nat): nat
    requires h <= |gains|
  {
    if h == 0 then 0 else SumFirst(gains, h - 1) + gains[h - 1].0
  }

  /** Score of team 1 after the first `h` hands of `gains`. */
  function SumSecond(gains: seq<(nat, nat)>, h: nat): nat
    requires h <= |gains|
  {
    if h == 0 then 0 else SumSecond(gains, h - 1) + gains[h - 1].1
  }

  lemma {:induction false} SumsGrow(gains: seq<(nat, nat)>, h: nat)
    requires h <= |gains|
    requires forall i :: 0 <= i < |gains| ==> gains[i].0 + gains[i].1 >= 1
    ensures SumFirst(gains, h) + SumSecond(gains, h) >= h
  {
    if h > 0 {
      SumsGrow(gains, h - 1);
    }
  }
}
