/**
 * The knock counter of the gameplay scene: contacts reported by the physics
 * engine between the two fists are counted once per knock, using the latch
 * `isColliding` that only the per-frame distance test re-arms, and the third
 * knock reveals the result, which removes both physics bodies.
 */
module Knocks {

  /** A point in scene coordinates. */
  datatype Point = Point(x: real, y: real)

  /** Distance beyond which the fists count as apart again. */
  const MinDistance: real := 350.0

  /** Number of knocks after which the result is shown. */
  const KnocksToReveal: int := 3

  function DistanceSquared(p: Point, q: Point): (d: real)
    ensures d >= 0.0
  {
    var dx := p.x - q.x;
    var dy := p.y - q.y;
    dx * dx + dy * dy
  }

  /** The frame-time test "distance > minDistance", free of the square root. */
  predicate Separated(player: Point, computer: Point) {
    DistanceSquared(player, computer) > MinDistance * MinDistance
  }

  /** For the non-negative root `d` of the squared distance, the test is `d > MinDistance`. */
  lemma SeparatedMeansBeyondMinDistance(player: Point, computer: Point, d: real)
    requires d >= 0.0 && d * d == DistanceSquared(player, computer)
    ensures Separated(player, computer) <==> d > MinDistance
  {
    var m := MinDistance;
    if d > m {
      assert d * d > m * d;
      assert m * d > m * m;
    } else {
      assert d * d <= m * d;
      assert m * d <= m * m;
    }
  }

  /** Physics categories of the two fists (UInt32 bit masks). */
  const PlayerFistCategory: bv32 := 1 << 0
  const ComputerFistCategory: bv32 := 1 << 1

  /**
   * The category test of the contact callback: the two bodies are sorted by
   * category mask and the lower must be the player's fist, the higher the computer's.
   */
  function IsFistContact(categoryA: bv32, categoryB: bv32): (r: bool)
    ensures r <==> ((categoryA == PlayerFistCategory && categoryB == ComputerFistCategory)
                    || (categoryA == ComputerFistCategory && categoryB == PlayerFistCategory))
  {
    var first := if categoryA < categoryB then categoryA else categoryB;
    var second := if categoryA < categoryB then categoryB else categoryA;
    first == PlayerFistCategory && second == ComputerFistCategory
  }

  /** The gesture fields of the scene: knock count, latch, and whether both fists have bodies. */
  datatype Tracker = Tracker(collisionCount: int, isColliding: bool, bodiesAttached: bool)

  /** The state a new round starts from. */
  const Fresh := Tracker(0, false, true)

  /**
   * The knock count stays within 0..3, the latch is only ever set by a counted
   * knock, and the bodies are present exactly while fewer than three knocks
   * have been counted.
   */
  predicate Inv(t: Tracker) {
    && 0 <= t.collisionCount <= KnocksToReveal
    && (t.isColliding ==> t.collisionCount >= 1)
    && (t.bodiesAttached <==> t.collisionCount < KnocksToReveal)
  }

  /** Whether a contact, arriving in state `t`, is the third knock (the one that shows the result). */
  predicate IsRevealingContact(t: Tracker) {
    !t.isColliding && t.collisionCount + 1 >= KnocksToReveal
  }

  /** A player-computer contact: counted only when the latch is open, then latched. */
  function OnContact(t: Tracker): Tracker {
    if t.isColliding then t
    else
      var count := t.collisionCount + 1;
      Tracker(count, true, if count >= KnocksToReveal then false else t.bodiesAttached)
  }

  /** The per-frame distance test: it re-arms the latch when the fists are apart, and only then. */
  function OnFrame(t: Tracker, separated: bool): Tracker {
    if separated then t.(isColliding := false) else t
  }

  /** The events the engine delivers: a player-computer contact, or a frame with its distance test. */
  datatype Event = Contact | Frame(separated: bool)

  /** One event; the engine reports no contacts once the bodies have been removed. */
  function Step(t: Tracker, e: Event): Tracker {
    match e
    case Contact => if t.bodiesAttached then OnContact(t) else t
    case Frame(separated) => OnFrame(t, separated)
  }

  function Run(t: Tracker, events: seq<Event>): Tracker
    decreases |events|
  {
    if events == [] then t else Run(Step(t, events[0]), events[1..])
  }

  /** How many events of the sequence show the result. */
  function Reveals(t: Tracker, events: seq<Event>): nat
    decreases |events|
  {
    if events == [] then 0
    else
      var now := if events[0] == Contact && t.bodiesAttached && IsRevealingContact(t) then 1 else 0;
      now + Reveals(Step(t, events[0]), events[1..])
  }

  lemma StepKeepsInv(t: Tracker, e: Event)
    requires Inv(t)
    ensures Inv(Step(t, e))
    ensures Step(t, e).collisionCount >= t.collisionCount
  {
  }

  /** The invariant holds along any run, and the count only grows. */
  lemma {:induction false} RunKeepsInv(t: Tracker, events: seq<Event>)
    requires Inv(t)
    ensures Inv(Run(t, events))
    ensures Run(t, events).collisionCount >= t.collisionCount
    decreases |events|
  {
    if events != [] {
      StepKeepsInv(t, events[0]);
      RunKeepsInv(Step(t, events[0]), events[1..]);
    }
  }

  /**
   * Debounce: with no frame in which the fists are apart, a sequence of contacts
   * adds at most one knock, and none at all when the latch is already set.
   */
  lemma {:induction false} ContactsWithoutSeparationCountOnce(t: Tracker, events: seq<Event>)
    requires forall i :: 0 <= i < |events| ==> events[i] != Frame(true)
    ensures Run(t, events).collisionCount <= t.collisionCount + 1
    ensures t.isColliding ==> Run(t, events) == t
    decreases |events|
  {
    if events != [] {
      var u := Step(t, events[0]);
      assert u.isColliding || u == t;
      ContactsWithoutSeparationCountOnce(u, events[1..]);
    }
  }

  /** Re-arm: a contact, a frame with the fists apart, and another contact make two knocks. */
  lemma SeparationReArms(t: Tracker)
    requires Inv(t) && !t.isColliding && t.collisionCount + 2 < KnocksToReveal
    ensures Run(t, [Contact, Frame(true), Contact]).collisionCount == t.collisionCount + 2
  {
  }

  /**
   * The result is shown at most once per round, and it is shown exactly when
   * the run takes the count from below three to three.
   */
  lemma {:induction false} RevealedAtMostOnce(t: Tracker, events: seq<Event>)
    requires Inv(t)
    ensures Reveals(t, events) <= 1
    ensures Reveals(t, events) == 1 <==> t.collisionCount < KnocksToReveal && Run(t, events).collisionCount == KnocksToReveal
    decreases |events|
  {
    if events != [] {
      var u := Step(t, events[0]);
      StepKeepsInv(t, events[0]);
      RevealedAtMostOnce(u, events[1..]);
      RunKeepsInv(u, events[1..]);
    }
  }
}
