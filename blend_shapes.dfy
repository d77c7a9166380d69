/**
 * Automatic blinking (`controlBlendShapes`): a steady smile is set once, then every
 * frame `updateExpression(deltaTime)` advances a timer that closes the eyes every
 * 3 seconds for 0.2 seconds.
 */
module BlendShapes {
  import opened Expressions

  const BlinkInterval: real := 3.0
  const BlinkDuration: real := 0.2

  /** The three closure variables of `controlBlendShapes`. */
  datatype BlinkState = BlinkState(blinkTimer: real, isBlinking: bool, blinkStartTime: real)

  /** What one `updateExpression` call leaves: the new variables and the `blink` weights it wrote, in order. */
  datatype BlinkUpdate = BlinkUpdate(next: BlinkState, writes: seq<real>)

  function InitialBlink(): BlinkState
  {
    BlinkState(0.0, false, 0.0)
  }

  /** A blink starts in this update: not blinking and the advanced timer has reached the interval. */
  predicate StartsBlink(s: BlinkState, deltaTime: real)
  {
    !s.isBlinking && s.blinkTimer + deltaTime >= BlinkInterval
  }

  /** `updateExpression(deltaTime)`: advance the timer, then the start rule, then the end rule. */
  function UpdateBlink(s: BlinkState, deltaTime: real): BlinkUpdate
  {
    var timer := s.blinkTimer + deltaTime;
    var started := !s.isBlinking && timer >= BlinkInterval;
    var blinking := s.isBlinking || started;
    var start := if started then timer else s.blinkStartTime;
    var raised := if started then [1.0] else [];
    if blinking && timer >= start + BlinkDuration then
      BlinkUpdate(BlinkState(0.0, false, start), raised + [0.0])
    else
      BlinkUpdate(BlinkState(timer, blinking, start), raised)
  }

  /** The start rule: a blink begins exactly when not blinking and the timer reaches 3; it records the timer as its start. */
  lemma StartRule(s: BlinkState, deltaTime: real)
    ensures var u := UpdateBlink(s, deltaTime);
      StartsBlink(s, deltaTime) <==> (!s.isBlinking && u.next.isBlinking)
    ensures var u := UpdateBlink(s, deltaTime);
      StartsBlink(s, deltaTime) ==>
        u.writes == [1.0] && u.next.blinkStartTime == s.blinkTimer + deltaTime && u.next.blinkTimer == s.blinkTimer + deltaTime
  {
  }

  /** The end rule: an ongoing blink ends exactly when the timer reaches its start plus 0.2, writing 0 and resetting the timer. */
  lemma EndRule(s: BlinkState, deltaTime: real)
    requires s.isBlinking
    ensures var u := UpdateBlink(s, deltaTime);
      (s.blinkTimer + deltaTime >= s.blinkStartTime + BlinkDuration) <==> !u.next.isBlinking
    ensures var u := UpdateBlink(s, deltaTime);
      !u.next.isBlinking ==> u.writes == [0.0] && u.next.blinkTimer == 0.0
    ensures var u := UpdateBlink(s, deltaTime);
      u.next.isBlinking ==> u.writes == [] && u.next.blinkStartTime == s.blinkStartTime
  {
  }

  /** `blink` is only ever written as 1 or 0, and 1 is written exactly when the update enters the blinking state. */
  lemma BlinkWrites(s: BlinkState, deltaTime: real)
    ensures var u := UpdateBlink(s, deltaTime);
      forall j :: 0 <= j < |u.writes| ==> u.writes[j] == 1.0 || u.writes[j] == 0.0
    ensures var u := UpdateBlink(s, deltaTime);
      1.0 in u.writes <==> (!s.isBlinking && u.next.isBlinking)
  {
  }

  /** The timing invariant that holds from the initial state on, when frame deltas are not negative. */
  ghost predicate BlinkInvariant(s: BlinkState)
  {
    && (!s.isBlinking ==> 0.0 <= s.blinkTimer < BlinkInterval)
    && (s.isBlinking ==> s.blinkTimer >= s.blinkStartTime >= BlinkInterval)
  }

  lemma InitialSatisfiesInvariant()
    ensures BlinkInvariant(InitialBlink())
  {
  }

  /** Every update with a non-negative delta preserves the invariant. */
  lemma UpdatePreservesInvariant(s: BlinkState, deltaTime: real)
    requires BlinkInvariant(s) && deltaTime >= 0.0
    ensures BlinkInvariant(UpdateBlink(s, deltaTime).next)
  {
  }

  /** The blink variables after one `updateExpression` per frame, for the given frame deltas. */
  function RunBlink(s: BlinkState, deltas: seq<real>): BlinkState
    decreases |deltas|
  {
    if |deltas| == 0 then s else RunBlink(UpdateBlink(s, deltas[0]).next, deltas[1..])
  }

  /** Across any run of frames whose deltas are not negative, the invariant holds at the end, so the eyes never stay open past the interval. */
  lemma {:induction false} RunPreservesInvariant(s: BlinkState, deltas: seq<real>)
    requires BlinkInvariant(s)
    requires forall j :: 0 <= j < |deltas| ==> deltas[j] >= 0.0
    ensures BlinkInvariant(RunBlink(s, deltas))
    ensures !RunBlink(s, deltas).isBlinking ==> RunBlink(s, deltas).blinkTimer < BlinkInterval
    decreases |deltas|
  {
    if |deltas| > 0 {
      UpdatePreservesInvariant(s, deltas[0]);
      assert forall j :: 0 <= j < |deltas[1..]| ==> deltas[1..][j] == deltas[j + 1];
      RunPreservesInvariant(UpdateBlink(s, deltas[0]).next, deltas[1..]);
    }
  }

  /** The frame loop's view of `controlBlendShapes`: the blink variables and the avatar's expression manager. */
  class BlinkController {
    const expressionManager: ExpressionManager
    var blinkTimer: real
    var isBlinking: bool
    var blinkStartTime: real

    function Blink(): BlinkState
      reads this
    {
      BlinkState(blinkTimer, isBlinking, blinkStartTime)
    }

    constructor (manager: ExpressionManager)
      ensures expressionManager == manager && Blink() == InitialBlink()
    {
      expressionManager := manager;
      blinkTimer := 0.0;
      isBlinking := false;
      blinkStartTime := 0.0;
    }

    /** `updateExpression(deltaTime)`; its `blink` writes land in the expression manager. */
    method UpdateExpression(deltaTime: real)
      modifies this, expressionManager
      ensures Blink() == UpdateBlink(old(Blink()), deltaTime).next
      ensures var writes := UpdateBlink(old(Blink()), deltaTime).writes;
        expressionManager.weights ==
          if writes == [] then old(expressionManager.weights)
          else WithValue(old(expressionManager.weights), "blink", writes[|writes| - 1])
    {
      blinkTimer := blinkTimer + deltaTime;

      if !isBlinking && blinkTimer >= BlinkInterval {
        isBlinking := true;
        blinkStartTime := blinkTimer;
        expressionManager.SetValue("blink", 1.0);
      }

      if isBlinking && blinkTimer >= blinkStartTime + BlinkDuration {
        expressionManager.SetValue("blink", 0.0);
        isBlinking := false;
        blinkTimer := 0.0;
      }
    }
  }

  /**
   * `controlBlendShapes(vrm)`: without an expression manager, nothing is set and no loop
   * starts (`null`); otherwise `smile` is set to 1 once and the blink state starts at zero.
   */
  method ControlBlendShapes(vrm: Vrm) returns (c: BlinkController?)
    modifies vrm.expressionManager
    ensures vrm.expressionManager == null ==> c == null && unchanged(vrm)
    ensures vrm.expressionManager != null ==>
      && c != null && fresh(c)
      && c.expressionManager == vrm.expressionManager
      && c.Blink() == InitialBlink()
      && vrm.expressionManager.weights == WithValue(old(vrm.expressionManager.weights), "smile", 1.0)
  {
    var expressionManager := vrm.expressionManager;
    if expressionManager == null {
      return null;
    }
    c := new BlinkController(expressionManager);
    expressionManager.SetValue("smile", 1.0);
  }
}
