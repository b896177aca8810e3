/**
 * The gameplay scene's round controller: one method per SpriteKit callback,
 * acting on the scene's round, score, knock and drag fields. Rendering, sound,
 * haptics and the physics simulation itself are not modelled; the computer's
 * random pick is a parameter and the delayed start of the next round is an
 * explicit call to `StartNewRound`.
 */
module Scene {

  import opened Wrappers
  import opened Rules
  import opened Streak
  import opened Knocks
  import opened Selection

  /** What a contact callback did. */
  datatype ContactOutcome =
    | Ignored                      // not the two fists, or the latch was set
    | Knocked(count: int)          // a knock was counted, fewer than three so far
    | Revealed(result: GameResult) // the third knock: the result was shown
    | UnwrapFailed                 // the third knock came before any selection

  class GameScene {
    // round and score
    var selectedSymbol: Option<Symbol>
    var currentRound: int
    var hasSelected: bool
    var highScore: int

    // knock counting
    var collisionCount: int
    var isColliding: bool

    // dragging
    var isTouchingFist: bool
    var playerPosition: Point
    var computerPosition: Point
    const playerOriginalPosition: Point
    const computerOriginalPosition: Point

    // whether both fists carry physics bodies, and whether touches are delivered
    var bodiesAttached: bool
    var isUserInteractionEnabled: bool

    // set when the forced unwrap of the selection fails; the process ends there
    var trapped: bool

    // the high score read from the store at start, and every value written to it since
    ghost const loadedHighScore: int
    ghost var savedHighScores: seq<int>

    ghost function KnockState(): Tracker
      reads this
    {
      Tracker(collisionCount, isColliding, bodiesAttached)
    }

    ghost function CurrentSession(): Session
      reads this
    {
      Session(currentRound, highScore)
    }

    /** The stored high score: the last value written, or the one loaded at start. */
    ghost function StoredHighScore(): int
      reads this
    {
      if savedHighScores == [] then loadedHighScore else savedHighScores[|savedHighScores| - 1]
    }

    /** What survives from round to round: the streak is positive and the store holds the record. */
    ghost predicate SessionValid()
      reads this
    {
      currentRound >= 1 && highScore == StoredHighScore()
    }

    /** Everything but the link between bodies and count, which the third knock breaks for a moment. */
    ghost predicate Consistent()
      reads this
    {
      && SessionValid()
      && (hasSelected <==> selectedSymbol.Some?)
      && 0 <= collisionCount <= KnocksToReveal
      && (isColliding ==> collisionCount >= 1)
      && isUserInteractionEnabled == bodiesAttached
      && (trapped ==> !bodiesAttached)
      && computerPosition == computerOriginalPosition
    }

    ghost predicate Valid()
      reads this
    {
      Consistent() && Inv(KnockState())
    }

    /** Loading the stored record, remembering where the fists stand, and starting the first round. */
    constructor (playerOrigin: Point, computerOrigin: Point, storedHighScore: int)
      ensures Valid() && !trapped
      ensures KnockState() == Fresh
      ensures selectedSymbol == None && !hasSelected && !isTouchingFist
      ensures currentRound == 1 && highScore == storedHighScore && savedHighScores == []
      ensures playerOriginalPosition == playerPosition == playerOrigin
      ensures computerOriginalPosition == computerPosition == computerOrigin
    {
      selectedSymbol := None;
      currentRound := 1;
      hasSelected := false;
      highScore := storedHighScore;
      collisionCount := 0;
      isColliding := false;
      isTouchingFist := false;
      playerPosition := playerOrigin;
      computerPosition := computerOrigin;
      playerOriginalPosition := playerOrigin;
      computerOriginalPosition := computerOrigin;
      bodiesAttached := false;
      isUserInteractionEnabled := true;
      trapped := false;
      loadedHighScore := storedHighScore;
      savedHighScores := [];
      new;
      StartNewRound();
    }

    /**
     * Per-frame callback: re-arms the latch when the fists are further apart than
     * `MinDistance`, and changes nothing else.
     */
    method Update()
      requires Valid() && !trapped
      modifies this`isColliding
      ensures Valid()
      ensures KnockState() == OnFrame(old(KnockState()), Separated(playerPosition, computerPosition))
      ensures isColliding <==> old(isColliding) && !Separated(playerPosition, computerPosition)
    {
      var dx := playerPosition.x - computerPosition.x;
      var dy := playerPosition.y - computerPosition.y;
      assert DistanceSquared(playerPosition, computerPosition) == dx * dx + dy * dy;
      if dx * dx + dy * dy > MinDistance * MinDistance {
        isColliding := false;
      }
    }

    /**
     * Resets the knock count, the latch and the selection, puts both fists back
     * and gives them physics bodies again. Streak, record and the drag flag are
     * left as they are.
     */
    method StartNewRound()
      requires SessionValid() && !trapped
      modifies this`collisionCount, this`isColliding, this`selectedSymbol, this`hasSelected,
               this`playerPosition, this`computerPosition, this`isUserInteractionEnabled,
               this`bodiesAttached
      ensures Valid()
      ensures KnockState() == Fresh && isUserInteractionEnabled
      ensures selectedSymbol == None && !hasSelected
      ensures playerPosition == playerOriginalPosition
      ensures computerPosition == computerOriginalPosition
    {
      collisionCount := 0;
      isColliding := false;
      selectedSymbol := None;
      hasSelected := false;
      playerPosition := playerOriginalPosition;
      computerPosition := computerOriginalPosition;
      isUserInteractionEnabled := true;
      bodiesAttached := true;
    }

    /**
     * Reveal after the third knock: removes both physics bodies, blocks touches,
     * decides the round against the computer's pick and settles streak and
     * record, saving the record when it is raised. Without a selection the
     * forced unwrap fails and nothing after it happens.
     */
    method ShowResult(computerChoice: Symbol) returns (result: Option<GameResult>)
      requires Consistent() && bodiesAttached && collisionCount == KnocksToReveal
      modifies this`bodiesAttached, this`isUserInteractionEnabled, this`trapped,
               this`currentRound, this`highScore, this`savedHighScores
      ensures Valid()
      ensures !bodiesAttached && !isUserInteractionEnabled
      ensures trapped <==> old(selectedSymbol).None?
      ensures result == match old(selectedSymbol)
                        case None => None
                        case Some(player) => Some(DetermineWinner(player, computerChoice))
      ensures CurrentSession() == if result.Some? then Settle(old(CurrentSession()), result.value)
                                  else old(CurrentSession())
      ensures savedHighScores == if highScore != old(highScore) then old(savedHighScores) + [highScore]
                                 else old(savedHighScores)
    {
      bodiesAttached := false;
      isUserInteractionEnabled := false;
      if selectedSymbol.None? {
        trapped := true;
        return None;
      }
      var selected := selectedSymbol.value;
      var r := DetermineWinner(selected, computerChoice);
      match r {
        case Win =>
          currentRound := currentRound + 1;
          if currentRound > highScore {
            highScore := currentRound;
            savedHighScores := savedHighScores + [highScore];
          }
        case Lose =>
          currentRound := 1;
        case Draw =>
      }
      result := Some(r);
    }

    /**
     * Contact callback between two bodies with the given category masks. A
     * player-computer contact counts one knock unless the latch is set; there
     * is no check of the round phase. The third knock shows the result.
     */
    method DidBegin(categoryA: bv32, categoryB: bv32, computerChoice: Symbol) returns (outcome: ContactOutcome)
      requires Valid() && bodiesAttached
      modifies this`collisionCount, this`isColliding,
               this`bodiesAttached, this`isUserInteractionEnabled, this`trapped,
               this`currentRound, this`highScore, this`savedHighScores
      ensures Valid()
      ensures KnockState() == if IsFistContact(categoryA, categoryB) then OnContact(old(KnockState()))
                              else old(KnockState())
      ensures outcome == Ignored <==> !IsFistContact(categoryA, categoryB) || old(isColliding)
      ensures outcome.Knocked? ==> outcome.count == collisionCount < KnocksToReveal
      ensures (outcome.Revealed? || outcome.UnwrapFailed?)
              <==> old(collisionCount) < KnocksToReveal == collisionCount
      ensures trapped <==> outcome.UnwrapFailed?
      ensures outcome.UnwrapFailed? ==> old(selectedSymbol).None?
      ensures outcome.Revealed? ==> selectedSymbol.Some?
                                    && outcome.result == DetermineWinner(selectedSymbol.value, computerChoice)
      ensures CurrentSession() == if outcome.Revealed? then Settle(old(CurrentSession()), outcome.result)
                                  else old(CurrentSession())
      ensures savedHighScores == if highScore != old(highScore) then old(savedHighScores) + [highScore]
                                 else old(savedHighScores)
    {
      outcome := Ignored;
      if IsFistContact(categoryA, categoryB) {
        if !isColliding {
          isColliding := true;
          collisionCount := collisionCount + 1;
          outcome := Knocked(collisionCount);
          if collisionCount >= KnocksToReveal {
            var result := ShowResult(computerChoice);
            outcome := if result.Some? then Revealed(result.value) else UnwrapFailed;
          }
        }
      }
    }

    /**
     * Touch down. Before a selection, the nodes under the touch are walked in
     * order: each symbol button selects its symbol and puts the player's fist
     * back, and the back button leaves for the start scene at once. After a
     * selection, the touch can only start dragging, and only on the fist.
     */
    method TouchBegan(nodes: seq<NodeName>, inPlayerFist: bool) returns (toStartScene: bool)
      requires Valid() && isUserInteractionEnabled
      modifies this`selectedSymbol, this`hasSelected, this`playerPosition, this`isTouchingFist
      ensures Valid()
      ensures !old(hasSelected) ==>
                var scan := Scan(nodes, None);
                && toStartScene == scan.toStartScene
                && selectedSymbol == scan.selection
                && playerPosition == (if scan.selection.Some? then playerOriginalPosition else old(playerPosition))
                && isTouchingFist == old(isTouchingFist)
      ensures old(hasSelected) ==>
                && !toStartScene
                && selectedSymbol == old(selectedSymbol) && hasSelected
                && playerPosition == old(playerPosition)
                && isTouchingFist == (old(isTouchingFist) || inPlayerFist)
    {
      toStartScene := false;
      if !hasSelected {
        for i := 0 to |nodes|
          invariant Scan(nodes[i..], selectedSymbol) == Scan(nodes, None)
          invariant hasSelected <==> selectedSymbol.Some?
          invariant playerPosition == if selectedSymbol.Some? then playerOriginalPosition else old(playerPosition)
          invariant isTouchingFist == old(isTouchingFist)
        {
          assert nodes[i..] == [nodes[i]] + nodes[i + 1..];
          assert nodes[i] != BackButton ==>
            Scan(nodes[i..], selectedSymbol) == Scan(nodes[i + 1..], ButtonSymbol(nodes[i]).OrElse(selectedSymbol));
          match nodes[i]
          case SteinButton =>
            selectedSymbol := Some(Stein);
            hasSelected := true;
            playerPosition := playerOriginalPosition;
          case PapierButton =>
            selectedSymbol := Some(Papier);
            hasSelected := true;
            playerPosition := playerOriginalPosition;
          case SchereButton =>
            selectedSymbol := Some(Schere);
            hasSelected := true;
            playerPosition := playerOriginalPosition;
          case BackButton =>
            toStartScene := true;
            return;
          case OtherNode =>
        }
      } else {
        if inPlayerFist {
          isTouchingFist := true;
        }
      }
    }

    /** Touch move: drags the player's fist to the touch, only while a symbol is selected and the fist is held. */
    method TouchMoved(location: Point)
      requires Valid() && isUserInteractionEnabled
      modifies this`playerPosition
      ensures Valid()
      ensures playerPosition == if hasSelected && isTouchingFist then location else old(playerPosition)
    {
      if !(hasSelected && isTouchingFist) {
        return;
      }
      playerPosition := location;
    }

    /** Touch up: lets go of the fist, which snaps back to where it started. */
    method TouchEnded()
      requires Valid() && isUserInteractionEnabled
      modifies this`isTouchingFist, this`playerPosition
      ensures Valid()
      ensures !isTouchingFist && playerPosition == playerOriginalPosition
    {
      isTouchingFist := false;
      playerPosition := playerOriginalPosition;
    }

    /** A cancelled touch is handled exactly as a touch that ends. */
    method TouchCancelled()
      requires Valid() && isUserInteractionEnabled
      modifies this`isTouchingFist, this`playerPosition
      ensures Valid()
      ensures !isTouchingFist && playerPosition == playerOriginalPosition
    {
      TouchEnded();
    }
  }
}
