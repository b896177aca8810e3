/**
 * Whole rounds played through the scene's callbacks, relying only on their
 * contracts. The fists start 1000 points apart, so letting go of the player's
 * fist always separates them again.
 */
module Scenarios {

  import opened Wrappers
  import opened Rules
  import opened Streak
  import opened Knocks
  import opened Selection
  import opened Scene

  const PlayerStart := Point(0.0, -500.0)
  const ComputerStart := Point(0.0, 500.0)

  lemma Distances()
    ensures Separated(PlayerStart, ComputerStart)
    ensures !Separated(ComputerStart, ComputerStart)
    ensures !Separated(Point(0.0, 300.0), ComputerStart)
  {
  }

  /** Drags the held fist onto the computer's fist, reports the contact, lets go and runs a frame. */
  method Knock(scene: GameScene, computerChoice: Symbol) returns (outcome: ContactOutcome)
    requires scene.Valid() && scene.bodiesAttached && scene.hasSelected && scene.isTouchingFist
    requires scene.playerOriginalPosition == PlayerStart && scene.computerOriginalPosition == ComputerStart
    requires !scene.isColliding
    modifies scene
    ensures scene.Valid() && !scene.trapped
    ensures scene.collisionCount == old(scene.collisionCount) + 1
    ensures outcome.Knocked? <==> scene.collisionCount < KnocksToReveal
    ensures outcome.Knocked? ==> outcome.count == scene.collisionCount
    ensures scene.selectedSymbol == old(scene.selectedSymbol)
    ensures scene.playerOriginalPosition == PlayerStart && scene.computerOriginalPosition == ComputerStart
    ensures outcome.Knocked? ==> scene.bodiesAttached && scene.currentRound == old(scene.currentRound)
                                 && scene.highScore == old(scene.highScore)
                                 && scene.isTouchingFist && !scene.isColliding
    ensures outcome.Revealed? ==> outcome.result == DetermineWinner(scene.selectedSymbol.value, computerChoice)
                                  && scene.CurrentSession() == Settle(old(scene.CurrentSession()), outcome.result)
    ensures outcome.Revealed? || outcome.Knocked?
  {
    Distances();
    scene.TouchMoved(ComputerStart);
    outcome := scene.DidBegin(PlayerFistCategory, ComputerFistCategory, computerChoice);
    if outcome.Knocked? {
      scene.TouchMoved(PlayerStart);
    }
    scene.Update();
  }

  /** Stein against Schere after three knocks is a win that extends the streak and the record. */
  method SteinBeatsSchere() returns (outcome: ContactOutcome, streak: int, record: int)
    ensures outcome == Revealed(Win) && streak == 2 && record == 2
  {
    var scene := new GameScene(PlayerStart, ComputerStart, 0);
    StartGesture(scene, SteinButton);
    // a second selection attempt during the gesture changes nothing
    var back := scene.TouchBegan([SchereButton], false);
    assert scene.selectedSymbol == Some(Stein);
    outcome := Knock(scene, Schere);
    outcome := Knock(scene, Schere);
    outcome := Knock(scene, Schere);
    streak, record := scene.currentRound, scene.highScore;
  }

  /** Picks the button's symbol and takes hold of the player's fist. */
  method StartGesture(scene: GameScene, button: NodeName)
    requires scene.Valid() && scene.KnockState() == Fresh && !scene.hasSelected
    requires ButtonSymbol(button).Some?
    modifies scene
    ensures scene.Valid() && scene.KnockState() == Fresh
    ensures scene.selectedSymbol == ButtonSymbol(button) && scene.isTouchingFist
    ensures scene.CurrentSession() == old(scene.CurrentSession())
    ensures scene.savedHighScores == old(scene.savedHighScores)
    ensures scene.trapped == old(scene.trapped)
  {
    var back := scene.TouchBegan([button], false);
    back := scene.TouchBegan([], true);
  }

  /** A full round: picks the button's symbol, grabs the fist and knocks three times. */
  method PlayRound(scene: GameScene, button: NodeName, computerChoice: Symbol) returns (result: GameResult)
    requires scene.Valid() && !scene.trapped && scene.KnockState() == Fresh && !scene.hasSelected
    requires scene.playerOriginalPosition == PlayerStart && scene.computerOriginalPosition == ComputerStart
    requires ButtonSymbol(button).Some?
    modifies scene
    ensures scene.Valid() && !scene.trapped
    ensures scene.playerOriginalPosition == PlayerStart && scene.computerOriginalPosition == ComputerStart
    ensures result == DetermineWinner(ButtonSymbol(button).value, computerChoice)
    ensures scene.CurrentSession() == Settle(old(scene.CurrentSession()), result)
  {
    StartGesture(scene, button);
    var outcome := Knock(scene, computerChoice);
    assert outcome == Knocked(1);
    outcome := Knock(scene, computerChoice);
    assert outcome == Knocked(2);
    outcome := Knock(scene, computerChoice);
    result := outcome.result;
  }

  /**
   * A won round followed by a lost one: the next round keeps streak and record,
   * and the loss puts the streak back to 1 while the record stays.
   */
  method WinThenLose() returns (streak: int, record: int)
    ensures streak == 1 && record == 2
  {
    var scene := new GameScene(PlayerStart, ComputerStart, 0);
    var result := PlayRound(scene, SteinButton, Schere);
    assert result == Win && scene.currentRound == 2 && scene.highScore == 2;
    scene.StartNewRound();
    result := PlayRound(scene, PapierButton, Schere);
    assert result == Lose;
    assert scene.StoredHighScore() == 2;
    streak, record := scene.currentRound, scene.highScore;
  }

  /** Two contacts with no frame in between count one knock; a separating frame re-arms. */
  method ContactsNeedSeparation() returns (first: ContactOutcome, second: ContactOutcome, third: ContactOutcome)
    ensures first == Knocked(1) && second == Ignored && third == Knocked(2)
  {
    Distances();
    var scene := new GameScene(PlayerStart, ComputerStart, 5);
    StartGesture(scene, SchereButton);
    scene.TouchMoved(ComputerStart);
    first := scene.DidBegin(PlayerFistCategory, ComputerFistCategory, Stein);
    assert first == Knocked(1) && scene.isColliding && scene.bodiesAttached;
    second := scene.DidBegin(ComputerFistCategory, PlayerFistCategory, Stein);
    assert second == Ignored && scene.collisionCount == 1;
    // a frame with the fists 200 points apart does not re-arm the latch
    scene.TouchMoved(Point(0.0, 300.0));
    scene.Update();
    assert scene.isColliding && scene.collisionCount == 1;
    scene.TouchMoved(PlayerStart);
    scene.Update();
    third := scene.DidBegin(ComputerFistCategory, PlayerFistCategory, Stein);
  }
}
