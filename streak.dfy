/**
 * Streak and high-score bookkeeping done by `showResult` once a round is decided.
 * `currentRound` is the streak shown as "Runde"; `highScore` is the record that
 * is also written to the persistent store whenever it is raised.
 */
module Streak {

  import opened Rules

  datatype Session = Session(currentRound: int, highScore: int)

  function Max(a: int, b: int): int {
    if a < b then b else a
  }

  /**
   * The session after one decided round. A win extends the streak and raises the
   * record when the new streak beats it; a loss restarts the streak at 1; a draw
   * changes nothing.
   */
  function Settle(s: Session, r: GameResult): (t: Session)
    ensures s.currentRound >= 1 ==> t.currentRound >= 1
    ensures t.highScore >= s.highScore
    ensures t.highScore != s.highScore ==> r == Win && t.highScore == t.currentRound
    ensures r == Win ==> t.highScore >= t.currentRound > s.currentRound
  {
    match r
    case Win =>
      var round := s.currentRound + 1;
      Session(round, if round > s.highScore then round else s.highScore)
    case Lose =>
      Session(1, s.highScore)
    case Draw =>
      s
  }

  /** Whether settling `r` raises the record, which is exactly when the scene saves it. */
  predicate RaisesHighScore(s: Session, r: GameResult) {
    r == Win && s.currentRound + 1 > s.highScore
  }

  lemma RaisedExactlyWhenSaved(s: Session, r: GameResult)
    ensures Settle(s, r).highScore != s.highScore <==> RaisesHighScore(s, r)
  {
  }

  /** The session after a sequence of decided rounds, oldest first. */
  function Play(s: Session, results: seq<GameResult>): Session
    decreases |results|
  {
    if results == [] then s
    else Settle(Play(s, results[..|results| - 1]), results[|results| - 1])
  }

  lemma PlayOneMore(s: Session, results: seq<GameResult>, i: nat)
    requires i < |results|
    ensures Play(s, results[..i + 1]) == Settle(Play(s, results[..i]), results[i])
  {
    assert results[..i + 1][..i] == results[..i];
  }

  /** The streak never drops below 1 however the rounds go. */
  lemma {:induction false} StreakStaysPositive(s: Session, results: seq<GameResult>)
    requires s.currentRound >= 1
    ensures Play(s, results).currentRound >= 1
    decreases |results|
  {
    if results != [] {
      StreakStaysPositive(s, results[..|results| - 1]);
    }
  }

  /** `n` wins in a row add exactly `n` to the streak (from 1 this is n + 1). */
  lemma {:induction false} WinningRun(s: Session, n: nat)
    ensures Play(s, seq(n, _ => Win)).currentRound == s.currentRound + n
  {
    if n > 0 {
      var wins := seq(n, _ => Win);
      assert wins[..n - 1] == seq(n - 1, _ => Win);
      WinningRun(s, n - 1);
    }
  }

  /** Any single loss puts the streak back to 1, whatever it was. */
  lemma LossResetsStreak(s: Session, results: seq<GameResult>)
    ensures Play(s, results + [Lose]).currentRound == 1
  {
    assert (results + [Lose])[..|results|] == results;
  }

  /** A draw leaves the whole session as it was. */
  lemma DrawKeepsSession(s: Session, results: seq<GameResult>)
    ensures Play(s, results + [Draw]) == Play(s, results)
  {
    assert (results + [Draw])[..|results|] == results;
  }

  /** The record never goes down: it is at least what it was after any earlier round. */
  lemma {:induction false} HighScoreNeverDecreases(s: Session, results: seq<GameResult>, i: nat)
    requires i <= |results|
    ensures Play(s, results[..i]).highScore <= Play(s, results).highScore
    decreases |results| - i
  {
    if i < |results| {
      PlayOneMore(s, results, i);
      HighScoreNeverDecreases(s, results, i + 1);
    } else {
      assert results[..i] == results;
    }
  }

  /**
   * Every streak value the game ever shows is covered by the final record or is
   * the streak it started with: values above the starting streak are only reached
   * by a win, and a win records them.
   */
  lemma {:induction false} HighScoreCoversStreaks(s: Session, results: seq<GameResult>, i: nat)
    requires s.currentRound >= 1
    requires i <= |results|
    ensures Play(s, results[..i]).currentRound <= Max(Play(s, results).highScore, s.currentRound)
  {
    CoveredSoFar(s, results[..i]);
    HighScoreNeverDecreases(s, results, i);
  }

  lemma {:induction false} CoveredSoFar(s: Session, results: seq<GameResult>)
    requires s.currentRound >= 1
    ensures Play(s, results).currentRound <= Max(Play(s, results).highScore, s.currentRound)
    decreases |results|
  {
    if results != [] {
      CoveredSoFar(s, results[..|results| - 1]);
    }
  }

  /**
   * Conversely, the final record is either the one loaded at the start or the
   * streak reached right after some win.
   */
  lemma {:induction false} HighScoreIsAReachedStreak(s: Session, results: seq<GameResult>)
    ensures Play(s, results).highScore == s.highScore
         || exists i :: 0 < i <= |results| && results[i - 1] == Win
                        && Play(s, results).highScore == Play(s, results[..i]).currentRound
    decreases |results|
  {
    if results != [] {
      var n := |results|;
      var before := results[..n - 1];
      HighScoreIsAReachedStreak(s, before);
      if Play(s, results).highScore != Play(s, before).highScore {
        assert results[..n] == results;
      } else if Play(s, before).highScore != s.highScore {
        var i :| 0 < i <= |before| && before[i - 1] == Win
                 && Play(s, before).highScore == Play(s, before[..i]).currentRound;
        assert before[..i] == results[..i];
      }
    }
  }

  /** After a win the record is at least the streak reached by it. */
  lemma HighScoreAfterWin(s: Session, results: seq<GameResult>, i: nat)
    requires 0 < i <= |results| && results[i - 1] == Win
    ensures Play(s, results[..i]).currentRound <= Play(s, results).highScore
  {
    PlayOneMore(s, results, i - 1);
    HighScoreNeverDecreases(s, results, i);
  }
}
