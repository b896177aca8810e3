# Rock-paper-scissors round controller, in Dafny

This project models the gameplay scene of a two-scene rock-paper-scissors game
(`GameScene.swift`). The player picks Stein, Papier or Schere. Then they drag their
fist against the computer's fist three times. The third knock reveals the
computer's random pick and settles the round.

The model covers:

- the winner rule `determineWinner`;
- the streak (`currentRound`) and record (`highScore`) bookkeeping of `showResult`;
- the knock counter with its debounce latch `isColliding`, which only the per-frame
  distance test re-arms;
- the phase-dependent touch handling, i.e. selection before the gesture and
  dragging after it;
- the per-round reset `startNewRound`.

Modules:

- `Rules`: symbols, results, `DetermineWinner`, and a cyclic reference rule `Beats`
  that it is proved against.
- `Streak`: the session (`currentRound`, `highScore`), the settlement of one round
  (`Settle`) and of a sequence of rounds (`Play`), with the streak and record lemmas.
- `Knocks`: points, the `MinDistance` test, the physics category check, and the
  knock counter as a value (`Tracker`) with event runs and the debounce,
  re-arm and reveal-once lemmas.
- `Selection`: the walk over the nodes under a touch (`Scan`), proved against
  "last symbol button before the first back button".
- `Scene`: `class GameScene` with the scene's fields and one method per callback.
  Each method's `ensures` gives the new state in terms of the functions above
  (`KnockState() == OnContact(old(KnockState()))`,
  `CurrentSession() == Settle(old(CurrentSession()), result)`). `Valid()` is the
  invariant every callback keeps:
  - the streak is at least 1;
  - `hasSelected` is true exactly when a symbol is stored;
  - the knock count stays within 0..3 and the latch implies a counted knock;
  - the fists have physics bodies exactly while fewer than three knocks were counted;
  - touches are enabled exactly while the bodies exist;
  - the persistent store holds `highScore`.
- `Scenarios`: whole rounds driven through the callbacks, relying only on their
  contracts. They cover a Stein-beats-Schere win, a win followed by a loss, and
  two contacts with no separating frame counting once.

Modelling choices:

- `selectedSymbol: String?` becomes `Option<Symbol>`. The scene only ever stores
  the three names "Stein", "Papier" and "Schere".
- Positions are pairs of reals. The test `sqrt(dx*dx+dy*dy) > minDistance` is
  written as `dx*dx+dy*dy > 350*350`. `Knocks.SeparatedMeansBeyondMinDistance` proves the
  two agree for the non-negative root.
- The computer's `randomElement` pick is a parameter of `DidBegin`/`ShowResult`.
- The 3.5 s delayed `startNewRound` is an explicit call to `StartNewRound`.
- A contact is a `DidBegin` call with the two bodies' category masks. The
  callback requires the bodies to exist, because the engine reports contacts
  only between bodies that exist.
- Touch callbacks require `isUserInteractionEnabled`, because SpriteKit does not
  deliver touches to a scene with interaction disabled.
- The `UserDefaults` store is the ghost log `savedHighScores` plus the loaded
  value. `didMove` is the constructor: it loads the record, records the fists'
  start positions and starts the first round.
- `showResult` force-unwraps `selectedSymbol`. Contacts are counted in every
  phase, because `didBegin` has no `hasSelected` guard. So a third knock
  before any selection is a reachable failure here: `ShowResult` returns `None`,
  `DidBegin` returns `UnwrapFailed`, and the field `trapped` records that the
  process ended. The bodies are already removed and touches already disabled at
  that point.
- In `touchesBegan`, every symbol button under the touch overwrites the selection,
  so the last one wins. The back button returns at once and keeps any selection
  made before it.
- `startNewRound` does not clear `isTouchingFist`. Only a touch end or cancel does,
  and those are not delivered while the result is shown. The model keeps this.

Where the game's design description and the code differ, the model follows the
code. The description calls the record "the maximum of every streak observed".
The code records a streak only when a win reaches it (`GameScene.swift:274-279`).
The streak of 1 at the start of a scene is therefore not recorded when the
stored record is 0. `Streak.HighScoreCoversStreaks` states what holds: every streak
shown is at most the larger of the final record and the starting streak.
`Streak.HighScoreIsAReachedStreak` states the converse. The description also speaks of
a contact-begin that returns "gesture complete". In the code, the contact callback
calls `showResult` itself, as `DidBegin` does here.

## Model

| member | source | states |
|---|---|---|
| `Rules.DetermineWinner` | rockPaperScissors/rockPaperScissors/GameScene.swift:315-325 | draw exactly when the choices are equal; win exactly when the player's symbol beats the computer's on the cycle Stein < Papier < Schere < Stein; lose exactly when the computer's beats the player's |
| `Rules.SwappingChoicesMirrorsResult` | rockPaperScissors/rockPaperScissors/GameScene.swift:315-325 | exchanging the two choices turns win into lose and lose into win and keeps draw |
| `Rules.WinnerTable` | rockPaperScissors/rockPaperScissors/GameScene.swift:315-325 | the nine entries of the 3x3 result table |
| `Rules.EveryChoiceHasOneWinnerAndOneLoser` | rockPaperScissors/rockPaperScissors/GameScene.swift:315-325 | for each player symbol some computer symbol loses to it, some beats it, and different computer symbols give different results |
| `Streak.Settle` | rockPaperScissors/rockPaperScissors/GameScene.swift:267-303 | a positive streak stays positive; the record never decreases; it changes only on a win, and then to the new streak; after a win the record is at least the streak, which has grown |
| `Streak.RaisedExactlyWhenSaved` | rockPaperScissors/rockPaperScissors/GameScene.swift:274-279 | the record changes exactly when a win makes the streak exceed it, which is when it is saved |
| `Streak.StreakStaysPositive` | rockPaperScissors/rockPaperScissors/GameScene.swift:267-303 | starting from a streak of at least 1, any sequence of results leaves it at least 1 |
| `Streak.WinningRun` | rockPaperScissors/rockPaperScissors/GameScene.swift:268-269 | n consecutive wins add exactly n to the streak |
| `Streak.LossResetsStreak` | rockPaperScissors/rockPaperScissors/GameScene.swift:287-288 | a loss sets the streak to 1 whatever came before |
| `Streak.DrawKeepsSession` | rockPaperScissors/rockPaperScissors/GameScene.swift:297-303 | a draw changes neither streak nor record |
| `Streak.HighScoreNeverDecreases` | rockPaperScissors/rockPaperScissors/GameScene.swift:274-279 | the record after any prefix of the rounds is at most the final record |
| `Streak.HighScoreCoversStreaks` | rockPaperScissors/rockPaperScissors/GameScene.swift:267-279 | every streak shown along the way is at most the larger of the final record and the starting streak |
| `Streak.HighScoreIsAReachedStreak` | rockPaperScissors/rockPaperScissors/GameScene.swift:274-279 | the final record is the loaded one or the streak reached right after some win |
| `Streak.HighScoreAfterWin` | rockPaperScissors/rockPaperScissors/GameScene.swift:274-279 | the streak reached by any win is at most the final record |
| `Knocks.DistanceSquared` | rockPaperScissors/rockPaperScissors/GameScene.swift:92-94 | the squared distance between the fists is never negative |
| `Knocks.SeparatedMeansBeyondMinDistance` | rockPaperScissors/rockPaperScissors/GameScene.swift:92-96 | for the non-negative root d of the squared distance, the squared test holds exactly when d > 350 |
| `Knocks.IsFistContact` | rockPaperScissors/rockPaperScissors/GameScene.swift:413-424 | after sorting by category mask, the test accepts exactly the pair {player fist, computer fist} in either order |
| `Knocks.StepKeepsInv` | rockPaperScissors/rockPaperScissors/GameScene.swift:424-439 | a contact or a frame keeps the count in 0..3, the latch set only after a counted knock, bodies present exactly below three, and never lowers the count |
| `Knocks.RunKeepsInv` | rockPaperScissors/rockPaperScissors/GameScene.swift:424-439 | along any run of contacts and frames the count never exceeds 3 and never decreases |
| `Knocks.ContactsWithoutSeparationCountOnce` | rockPaperScissors/rockPaperScissors/GameScene.swift:424-429 | with no frame in which the fists are apart, any number of contacts adds at most one knock, and none when the latch is already set |
| `Knocks.SeparationReArms` | rockPaperScissors/rockPaperScissors/GameScene.swift:90-99 | contact, a frame with the fists apart, contact: two knocks are counted |
| `Knocks.RevealedAtMostOnce` | rockPaperScissors/rockPaperScissors/GameScene.swift:436-439 | the result is shown at most once per round, and exactly when the run takes the count from below three to three |
| `Selection.FirstBack` | rockPaperScissors/rockPaperScissors/GameScene.swift:370-373 | index of the first back button under the touch, no back button before it |
| `Selection.Scan` | rockPaperScissors/rockPaperScissors/GameScene.swift:340-375 | the touch leaves for the start scene exactly when a back button is under it; the selection is the last symbol button before the first back button, or the previous selection when there is none |
| `Selection.LastButtonWins` | rockPaperScissors/rockPaperScissors/GameScene.swift:342-369 | with no back button, the last symbol button under the touch is selected |
| `Selection.NodesAfterBackIgnored` | rockPaperScissors/rockPaperScissors/GameScene.swift:370-373 | nodes after a back button do not affect the outcome |
| `Scene.GameScene.constructor` | rockPaperScissors/rockPaperScissors/GameScene.swift:78-88 | the scene starts valid, with the loaded record, streak 1, no selection, zero knocks, open latch, fists at their start positions |
| `Scene.GameScene.Update` | rockPaperScissors/rockPaperScissors/GameScene.swift:90-99 | clears the latch exactly when the fists are more than 350 apart and changes no other field |
| `Scene.GameScene.StartNewRound` | rockPaperScissors/rockPaperScissors/GameScene.swift:174-206 | zero knocks, open latch, no selection, both fists back at their start positions, bodies and touches re-enabled; streak, record and drag flag untouched |
| `Scene.GameScene.ShowResult` | rockPaperScissors/rockPaperScissors/GameScene.swift:242-303 | removes bodies and disables touches; without a selection the forced unwrap fails; otherwise the result is `DetermineWinner(selection, computer)` and the session is `Settle`d, the record saved exactly when raised |
| `Scene.GameScene.DidBegin` | rockPaperScissors/rockPaperScissors/GameScene.swift:412-442 | a fist contact counts one knock exactly when the latch was open (`OnContact`), anything else changes nothing; the third knock reveals the result or fails the unwrap; no phase check |
| `Scene.GameScene.TouchBegan` | rockPaperScissors/rockPaperScissors/GameScene.swift:329-383 | before a selection the nodes are scanned as `Scan` says and a selection puts the fist back; after it only the drag flag can be set, and only on the fist |
| `Scene.GameScene.TouchMoved` | rockPaperScissors/rockPaperScissors/GameScene.swift:384-394 | the fist follows the touch exactly when a symbol is selected and the fist is held |
| `Scene.GameScene.TouchEnded` | rockPaperScissors/rockPaperScissors/GameScene.swift:396-401 | the drag flag is cleared and the fist is back at its start position |
| `Scene.GameScene.TouchCancelled` | rockPaperScissors/rockPaperScissors/GameScene.swift:403-408 | a cancel behaves as a touch end |
| `Scenarios.SteinBeatsSchere` | rockPaperScissors/rockPaperScissors/GameScene.swift:264-279 | Stein, three knocks, computer Schere: a win, streak 2 and record 2; a second selection during the gesture changes nothing |
| `Scenarios.WinThenLose` | rockPaperScissors/rockPaperScissors/GameScene.swift:267-288 | a win then a loss: the streak is back to 1, the record stays 2 and is the stored value |
| `Scenarios.ContactsNeedSeparation` | rockPaperScissors/rockPaperScissors/GameScene.swift:90-99 | a repeated contact and a frame 200 apart count nothing more; after a frame 1000 apart the next contact is the second knock |

## Left out

- `StartScene.swift`: greeting and button animations, the falling symbols, scene transitions and the high-score reset. It has no round logic.
- Rendering: label texts and visibility, textures, sizes, z-positions, button highlights, the tutorial animations, particles, sounds, and the scene change behind the back button. `TouchBegan` only reports the scene change.
- `adjustFontSizeToFit`: its loop depends on SpriteKit measuring label frames in floating point.
- The physics engine: body shapes, friction, damping, zeroing the velocity, and the engine pushing the dynamic player fist. Fist positions change only through the callbacks modelled here. The tutorial animation that moves the player fist before a selection is left out too.
- Haptic feedback and `feedbackGenerator.prepare()`: device output with no effect on state.
- The `UserDefaults` store: only the values written are modelled, as a ghost log.
- Randomness and SKAction timing: the computer's pick is a parameter and the delayed next round is an explicit call.
- `touches.first` being absent: a touch callback always carries a touch here.
- `goToStartScene`'s `if let view`: the scene change itself is outside the model.
- Floating point: positions and the distance test use exact reals, not CGFloat.
