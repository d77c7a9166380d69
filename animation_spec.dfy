/**
 * The animation sequencer and its idle-variation ("special animation") scheduler,
 * as a discrete-event state machine over values.
 *
 * One `State` holds the three fields the sequencer keeps (`currentAnimation`,
 * `specialAnimationTimer`, `isSpecialAnimationPaused`) together with what the event
 * loop holds on its behalf: the special-idle timeouts still armed, the `playAnimation`
 * calls suspended in a step's wait, the timer callbacks suspended in a special clip's
 * wait, and the log of loader calls. Each function below is one event: a command, a
 * timer firing, or a wait finishing.
 *
 * The world is an `Env`: `random(h)` is the `Math.random()` drawn for the delay of the
 * timeout with handle `h`, and `throws(i)` says whether the `i`-th loader call (counted
 * from 0 over the whole run) throws.
 */
module AnimationSpec {
  import opened Wrappers

  datatype Kind = Fbx | Vrma
  datatype Duration = Finite(ms: nat) | Infinite
  datatype Step = Step(action: string, kind: Kind, duration: Duration)

  /** One call of a loader: `loadAnimation` for `Fbx`, `loadVRMAnimation` for `Vrma`. */
  datatype Load = Load(kind: Kind, path: string)

  const IdleClip: string := "/animations/idle.fbx"
  const TalkingClip: string := "/animations/Talking.fbx"
  const StartClip: string := "animations/vrma/VRMA_02.vrma"

  /** The static catalogue of named sequences. */
  function Animations(): map<string, seq<Step>>
  {
    map["idle" := [Step(IdleClip, Fbx, Infinite)],
        "talking" := [Step(TalkingClip, Fbx, Infinite)],
        "start" := [Step(StartClip, Vrma, Finite(7000)), Step(IdleClip, Fbx, Infinite)]]
  }

  /** The five special idle clips the timer callback picks from. */
  function SpecialAnimations(): seq<Step>
  {
    [Step("animations/vrma/VRMA_01.vrma", Vrma, Finite(5500)),
     Step("animations/vrma/VRMA_03.vrma", Vrma, Finite(8000)),
     Step("animations/vrma/VRMA_04.vrma", Vrma, Finite(7000)),
     Step("animations/vrma/VRMA_06.vrma", Vrma, Finite(5000)),
     Step("animations/vrma/VRMA_06.vrma", Vrma, Finite(7200))]
  }

  datatype Env = Env(random: nat -> real, throws: nat -> bool)

  /** `Math.random()` lies in [0, 1). */
  ghost predicate ValidEnv(env: Env)
  {
    forall h: nat :: 0.0 <= env.random(h) < 1.0
  }

  /** A `playAnimation` call suspended in the wait of a finite step; `rest` are the steps after it. */
  datatype Walk = Walk(name: string, rest: seq<Step>)

  datatype State = State(
    currentAnimation: Option<string>,
    specialAnimationTimer: Option<nat>,
    isSpecialAnimationPaused: bool,
    timers: map<nat, real>,   // armed special-idle timeouts: handle to delay (ms)
    nextHandle: nat,          // the handle the next `setTimeout` returns; browsers start at 1, so a set handle is truthy
    walks: seq<Walk>,
    specials: seq<Step>,      // timer callbacks waiting out the duration of the clip they played
    loads: seq<Load>)

  function Initial(): State
  {
    State(None, None, false, map[], 1, [], [], [])
  }

  /** `Math.random() * (20000 - 10000) + 10000`. */
  function Delay(random: real): real
  {
    random * (20000.0 - 10000.0) + 10000.0
  }

  lemma DelayInRange(random: real)
    requires 0.0 <= random < 1.0
    ensures 10000.0 <= Delay(random) < 20000.0
  {
  }

  /** `Math.floor(Math.random() * specialAnimations.length)`. */
  function SpecialIndex(pick: real): (i: int)
    requires 0.0 <= pick < 1.0
    ensures 0 <= i < |SpecialAnimations()|
  {
    (pick * 5.0).Floor
  }

  /** One loader call: it is logged, and `env.throws` of its number says whether it throws. */
  function LoadCall(s: State, kind: Kind, path: string): State
  {
    s.(loads := s.loads + [Load(kind, path)])
  }

  function Throws(s: State, env: Env): bool
  {
    env.throws(|s.loads|)
  }

  /** `clearTimeout(this.specialAnimationTimer)` when the handle is set. */
  function ClearTimer(s: State): State
  {
    match s.specialAnimationTimer
    case None => s
    case Some(h) => s.(timers := s.timers - {h})
  }

  /** `stopSpecialAnimations`: set the pause flag; cancel and forget the stored timeout. */
  function StopSpecial(s: State): State
  {
    ClearTimer(s).(isSpecialAnimationPaused := true, specialAnimationTimer := None)
  }

  /** `pauseSpecialAnimations`: set the pause flag, then `stopSpecialAnimations`. */
  function PauseSpecial(s: State): State
  {
    StopSpecial(s.(isSpecialAnimationPaused := true))
  }

  /** `scheduleNextSpecialAnimation`: unless paused, arm a timeout and store its handle. */
  function Schedule(s: State, env: Env): State
  {
    if s.isSpecialAnimationPaused then s
    else
      var h := s.nextHandle;
      s.(timers := s.timers[h := Delay(env.random(h))], specialAnimationTimer := Some(h), nextHandle := h + 1)
  }

  /** `playIdleWithSpecialAnimations`: stop, clear the pause flag, schedule. */
  function PlayIdleWithSpecial(s: State, env: Env): State
  {
    Schedule(StopSpecial(s).(isSpecialAnimationPaused := false), env)
  }

  /** `resumeSpecialAnimations`: clear the pause flag, then `playIdleWithSpecialAnimations`. */
  function ResumeSpecial(s: State, env: Env): State
  {
    PlayIdleWithSpecial(s.(isSpecialAnimationPaused := false), env)
  }

  /** `stopCurrentAnimation`: forget the current sequence name. */
  function StopCurrent(s: State): State
  {
    s.(currentAnimation := None)
  }

  /** The per-step timer rule: resume on the idle sequence or on a step that plays the idle clip, pause otherwise. */
  function StepGate(s: State, name: string, step: Step, env: Env): State
  {
    if name == "idle" || step.action == IdleClip then ResumeSpecial(s, env) else PauseSpecial(s)
  }

  /** The idle sequence ranks below every other name: only a non-idle sequence falls back to idle. */
  function Rank(name: string): nat
  {
    if name == "idle" then 0 else 1
  }

  /**
   * The `for…of` loop of `playAnimation` from `steps` on, up to its next suspension:
   * a loader that throws skips the step's wait; an infinite step returns after its
   * load; a finite step suspends in its wait; a finished loop falls back to idle.
   */
  function RunSteps(s: State, name: string, steps: seq<Step>, env: Env): State
    decreases Rank(name), 0, |steps|
  {
    if steps == [] then
      if name != "idle" then Play(s, "idle", env) else s
    else
      var s1 := StepGate(s, name, steps[0], env);
      var threw := Throws(s1, env);
      var s2 := LoadCall(s1, steps[0].kind, steps[0].action);
      if threw then RunSteps(s2, name, steps[1..], env)
      else if steps[0].duration == Infinite then s2
      else s2.(walks := s2.walks + [Walk(name, steps[1..])])
  }

  /** `playAnimation(name)` up to its first suspension. */
  function Play(s: State, name: string, env: Env): State
    decreases Rank(name), 1, 0
  {
    if name !in Animations() then s
    else
      var s1 := s.(currentAnimation := Some(name));
      var s2 := if name == "idle" then ResumeSpecial(s1, env) else PauseSpecial(s1);
      RunSteps(StopCurrent(s2), name, Animations()[name], env)
  }

  function RemoveAt<T>(xs: seq<T>, k: nat): (r: seq<T>)
    requires k < |xs|
    ensures |r| == |xs| - 1
  {
    xs[..k] + xs[k + 1..]
  }

  /** The wait of suspended walk `k` finishes: its loop goes on with the remaining steps. */
  function StepWaitDone(s: State, k: nat, env: Env): State
    requires k < |s.walks|
  {
    var w := s.walks[k];
    RunSteps(s.(walks := RemoveAt(s.walks, k)), w.name, w.rest, env)
  }

  /**
   * Armed timeout `h` fires. While paused it does nothing. Otherwise it loads the special
   * clip `pick` selects and waits out its duration; a throwing loader ends the callback.
   */
  function FireTimer(s: State, h: nat, pick: real, env: Env): State
    requires h in s.timers && 0.0 <= pick < 1.0
  {
    var s1 := s.(timers := s.timers - {h});
    if s1.isSpecialAnimationPaused then s1
    else
      var clip := SpecialAnimations()[SpecialIndex(pick)];
      var threw := Throws(s1, env);
      var s2 := LoadCall(s1, Vrma, clip.action);
      if threw then s2 else s2.(specials := s2.specials + [clip])
  }

  /**
   * The special clip of suspended callback `k` has played out, as the source writes it:
   * unless paused, load the idle clip and schedule the next timeout, without clearing the
   * one `specialAnimationTimer` may hold.
   */
  function SpecialWaitDoneAsWritten(s: State, k: nat, env: Env): State
    requires k < |s.specials|
  {
    var s1 := s.(specials := RemoveAt(s.specials, k));
    if s1.isSpecialAnimationPaused then s1
    else
      var threw := Throws(s1, env);
      var s2 := LoadCall(s1, Fbx, IdleClip);
      if threw then s2 else Schedule(s2, env)
  }

  /** The same event with the timeout the handle holds cleared before the next one is armed. */
  function SpecialWaitDone(s: State, k: nat, env: Env): State
    requires k < |s.specials|
  {
    var s1 := s.(specials := RemoveAt(s.specials, k));
    if s1.isSpecialAnimationPaused then s1
    else
      var threw := Throws(s1, env);
      var s2 := LoadCall(s1, Fbx, IdleClip);
      if threw then s2 else Schedule(ClearTimer(s2), env)
  }

  // ---------------------------------------------------------------------------
  // The timer invariant: every armed special timeout is the one the handle names
  // ---------------------------------------------------------------------------

  ghost predicate OneTimer(s: State)
  {
    forall h :: h in s.timers ==> s.specialAnimationTimer == Some(h)
  }

  lemma OneTimerAtMostOne(s: State)
    requires OneTimer(s)
    ensures |s.timers.Keys| <= 1
  {
    if s.specialAnimationTimer.Some? && s.specialAnimationTimer.value in s.timers {
      assert s.timers.Keys == {s.specialAnimationTimer.value};
    } else {
      assert s.timers.Keys == {};
    }
  }

  lemma InitialOneTimer()
    ensures OneTimer(Initial())
  {
  }

  /** Pausing or stopping leaves the flag set, the handle cleared and no timeout armed; both are idempotent. */
  lemma PauseEffect(s: State)
    requires OneTimer(s)
    ensures PauseSpecial(s) == StopSpecial(s)
    ensures PauseSpecial(s).isSpecialAnimationPaused && PauseSpecial(s).specialAnimationTimer == None
    ensures PauseSpecial(s).timers == map[]
    ensures PauseSpecial(PauseSpecial(s)) == PauseSpecial(s)
    ensures StopSpecial(StopSpecial(s)) == StopSpecial(s)
  {
  }

  /**
   * Resuming clears the pause flag and leaves exactly one armed timeout, the new one,
   * with a delay in [10000, 20000).
   */
  lemma ResumeEffect(s: State, env: Env)
    requires OneTimer(s) && ValidEnv(env)
    ensures var r := ResumeSpecial(s, env);
      && !r.isSpecialAnimationPaused
      && r.specialAnimationTimer == Some(s.nextHandle)
      && r.timers.Keys == {s.nextHandle}
      && r.nextHandle == s.nextHandle + 1
      && 10000.0 <= r.timers[s.nextHandle] < 20000.0
      && OneTimer(r)
      && r.loads == s.loads && r.walks == s.walks && r.specials == s.specials
  {
    DelayInRange(env.random(s.nextHandle));
    var r := ResumeSpecial(s, env);
    assert StopSpecial(s.(isSpecialAnimationPaused := false)).timers == map[];
  }

  /** Resuming twice in a row still leaves a single armed timeout. */
  lemma ResumeTwiceOneTimer(s: State, env: Env)
    requires OneTimer(s) && ValidEnv(env)
    ensures ResumeSpecial(ResumeSpecial(s, env), env).timers.Keys == {s.nextHandle + 1}
  {
    ResumeEffect(s, env);
    ResumeEffect(ResumeSpecial(s, env), env);
  }

  lemma StepGatePreserves(s: State, name: string, step: Step, env: Env)
    requires OneTimer(s) && ValidEnv(env)
    ensures OneTimer(StepGate(s, name, step, env))
    ensures StepGate(s, name, step, env).isSpecialAnimationPaused <==> !(name == "idle" || step.action == IdleClip)
    ensures StepGate(s, name, step, env).loads == s.loads && StepGate(s, name, step, env).walks == s.walks
  {
    ResumeEffect(s, env);
    PauseEffect(s);
  }

  /** Every part of a sequence's run keeps the timer invariant. */
  lemma {:induction false} RunStepsPreserves(s: State, name: string, steps: seq<Step>, env: Env)
    requires OneTimer(s) && ValidEnv(env)
    ensures OneTimer(RunSteps(s, name, steps, env))
    decreases Rank(name), 0, |steps|
  {
    if steps == [] {
      if name != "idle" {
        PlayPreserves(s, "idle", env);
      }
    } else {
      StepGatePreserves(s, name, steps[0], env);
      var s2 := LoadCall(StepGate(s, name, steps[0], env), steps[0].kind, steps[0].action);
      RunStepsPreserves(s2, name, steps[1..], env);
    }
  }

  lemma {:induction false} PlayPreserves(s: State, name: string, env: Env)
    requires OneTimer(s) && ValidEnv(env)
    ensures OneTimer(Play(s, name, env))
    decreases Rank(name), 1, 0
  {
    if name in Animations() {
      var s1 := s.(currentAnimation := Some(name));
      ResumeEffect(s1, env);
      PauseEffect(s1);
      var s2 := if name == "idle" then ResumeSpecial(s1, env) else PauseSpecial(s1);
      RunStepsPreserves(StopCurrent(s2), name, Animations()[name], env);
    }
  }

  lemma StepWaitDonePreserves(s: State, k: nat, env: Env)
    requires OneTimer(s) && ValidEnv(env) && k < |s.walks|
    ensures OneTimer(StepWaitDone(s, k, env))
  {
    RunStepsPreserves(s.(walks := RemoveAt(s.walks, k)), s.walks[k].name, s.walks[k].rest, env);
  }

  lemma FireTimerPreserves(s: State, h: nat, pick: real, env: Env)
    requires OneTimer(s) && h in s.timers && 0.0 <= pick < 1.0
    ensures OneTimer(FireTimer(s, h, pick, env))
  {
  }

  /** With the handle cleared first, finishing a special clip keeps at most one armed timeout. */
  lemma SpecialWaitDonePreserves(s: State, k: nat, env: Env)
    requires OneTimer(s) && k < |s.specials|
    ensures OneTimer(SpecialWaitDone(s, k, env))
  {
    var s1 := s.(specials := RemoveAt(s.specials, k));
    var s2 := LoadCall(s1, Fbx, IdleClip);
    assert OneTimer(s2);
    assert ClearTimer(s2).timers == map[];
  }

  /**
   * As written, finishing a special clip can leave two armed timeouts: `playAnimation('idle')`
   * during the clip's wait arms one, and the callback then arms another without clearing it.
   */
  lemma AsWrittenLeaksTimer()
    ensures var env := Env(h => 0.0, i => false);
      var s1 := Play(Initial(), "idle", env);
      && 2 in s1.timers
      && var s2 := FireTimer(s1, 2, 0.0, env);
      && |s2.specials| == 1
      && var s3 := Play(s2, "idle", env);
      && OneTimer(s3)
      && |s3.specials| == 1
      && var s4 := SpecialWaitDoneAsWritten(s3, 0, env);
      && s4.timers.Keys == {4, 5}
      && !OneTimer(s4)
  {
    var env := Env(h => 0.0, i => false);
    var s1 := Play(Initial(), "idle", env);
    assert s1.timers == map[2 := 10000.0] && s1.specialAnimationTimer == Some(2) && s1.nextHandle == 3;
    var s2 := FireTimer(s1, 2, 0.0, env);
    assert s2.timers == map[] && s2.specials == [SpecialAnimations()[0]] && !s2.isSpecialAnimationPaused;
    var s3 := Play(s2, "idle", env);
    assert s3.timers == map[4 := 10000.0] && s3.specialAnimationTimer == Some(4) && s3.nextHandle == 5;
    assert s3.specials == s2.specials;
    var s4 := SpecialWaitDoneAsWritten(s3, 0, env);
    assert s4.timers == map[4 := 10000.0, 5 := 10000.0];
    assert s4.specialAnimationTimer == Some(5);
  }

  // ---------------------------------------------------------------------------
  // Commands
  // ---------------------------------------------------------------------------

  /** An unknown sequence name changes nothing. */
  lemma UnknownSequenceNoChange(s: State, name: string, env: Env)
    requires name !in Animations()
    ensures Play(s, name, env) == s
  {
  }

  /** A run of steps never sets `currentAnimation`: it keeps it when it is already cleared. */
  lemma {:induction false} RunStepsKeepsCleared(s: State, name: string, steps: seq<Step>, env: Env)
    requires s.currentAnimation == None
    ensures RunSteps(s, name, steps, env).currentAnimation == None
    decreases Rank(name), 0, |steps|
  {
    if steps == [] {
      if name != "idle" {
        PlayClearsCurrentAnimation(s, "idle", env);
      }
    } else {
      var s2 := LoadCall(StepGate(s, name, steps[0], env), steps[0].kind, steps[0].action);
      RunStepsKeepsCleared(s2, name, steps[1..], env);
    }
  }

  /** `currentAnimation` is set to the name and cleared again before any step runs, so a known name always leaves it `null`. */
  lemma {:induction false} PlayClearsCurrentAnimation(s: State, name: string, env: Env)
    requires name in Animations()
    ensures Play(s, name, env).currentAnimation == None
    decreases Rank(name), 1, 0
  {
    var s1 := s.(currentAnimation := Some(name));
    var s2 := if name == "idle" then ResumeSpecial(s1, env) else PauseSpecial(s1);
    RunStepsKeepsCleared(StopCurrent(s2), name, Animations()[name], env);
  }

  /** Every catalogue sequence ends in an infinite step, and only its last step is infinite. */
  lemma CatalogueEndsInfinite(name: string)
    requires name in Animations()
    ensures var steps := Animations()[name];
      && |steps| > 0 && steps[|steps| - 1].duration == Infinite
      && forall j :: 0 <= j < |steps| - 1 ==> steps[j].duration.Finite?
  {
  }

  /** An infinite step whose load succeeds returns at once: no later step and no idle fallback runs. */
  lemma InfiniteStepReturns(s: State, name: string, steps: seq<Step>, env: Env)
    requires |steps| > 0 && steps[0].duration == Infinite
    requires !Throws(StepGate(s, name, steps[0], env), env)
    ensures RunSteps(s, name, steps, env) == LoadCall(StepGate(s, name, steps[0], env), steps[0].kind, steps[0].action)
  {
  }

  /** A finite step whose load succeeds suspends in its wait, keeping the later steps for when the wait ends. */
  lemma FiniteStepWaits(s: State, name: string, steps: seq<Step>, env: Env)
    requires |steps| > 0 && steps[0].duration.Finite?
    requires !Throws(StepGate(s, name, steps[0], env), env)
    ensures var s2 := LoadCall(StepGate(s, name, steps[0], env), steps[0].kind, steps[0].action);
      RunSteps(s, name, steps, env) == s2.(walks := s2.walks + [Walk(name, steps[1..])])
  {
  }

  /** A step whose loader throws is caught: its wait is skipped and the loop goes on with the next step. */
  lemma ThrowingStepSkipsWait(s: State, name: string, steps: seq<Step>, env: Env)
    requires |steps| > 0
    requires Throws(StepGate(s, name, steps[0], env), env)
    ensures RunSteps(s, name, steps, env)
         == RunSteps(LoadCall(StepGate(s, name, steps[0], env), steps[0].kind, steps[0].action), name, steps[1..], env)
  {
  }

  /** Whether any of the loader calls numbered `from` to `from + n - 1` throws. */
  ghost predicate NoThrows(env: Env, from: nat, n: nat)
  {
    forall i :: from <= i < from + n ==> !env.throws(i)
  }

  /** Playing `idle` without a loader failure: one load, and one armed timeout, the second of the two it allocates. */
  lemma IdleRun(s: State, env: Env)
    requires OneTimer(s) && ValidEnv(env) && NoThrows(env, |s.loads|, 1)
    ensures var r := Play(s, "idle", env);
      && r.loads == s.loads + [Load(Fbx, IdleClip)]
      && r.walks == s.walks && r.specials == s.specials && !r.isSpecialAnimationPaused
      && r.timers.Keys == {s.nextHandle + 1} && r.specialAnimationTimer == Some(s.nextHandle + 1)
      && r.nextHandle == s.nextHandle + 2
  {
    var s1 := s.(currentAnimation := Some("idle"));
    ResumeEffect(s1, env);
    var s3 := StopCurrent(ResumeSpecial(s1, env));
    ResumeEffect(s3, env);
    InfiniteStepReturns(s3, "idle", Animations()["idle"], env);
    assert Play(s, "idle", env) == LoadCall(ResumeSpecial(s3, env), Fbx, IdleClip);
  }

  /** Playing `talking` without a loader failure: one load, the scheduler paused, nothing armed. */
  lemma TalkingRun(s: State, env: Env)
    requires OneTimer(s) && NoThrows(env, |s.loads|, 1)
    ensures var r := Play(s, "talking", env);
      && r.loads == s.loads + [Load(Fbx, TalkingClip)]
      && r.walks == s.walks && r.isSpecialAnimationPaused && r.timers == map[]
  {
  }

  /**
   * `start` pauses the scheduler on its VRMA step and suspends for 7000 ms; when that wait
   * ends, its idle step resumes the scheduler and the walk returns on the infinite step.
   * Neither part reaches the idle fallback.
   */
  lemma StartRun(s: State, env: Env)
    requires OneTimer(s) && ValidEnv(env) && NoThrows(env, |s.loads|, 2)
    ensures var r := Play(s, "start", env);
      && r.loads == s.loads + [Load(Vrma, StartClip)]
      && r.isSpecialAnimationPaused && r.timers == map[]
      && r.walks == s.walks + [Walk("start", [Step(IdleClip, Fbx, Infinite)])]
      && var r' := StepWaitDone(r, |s.walks|, env);
      && r'.loads == s.loads + [Load(Vrma, StartClip), Load(Fbx, IdleClip)]
      && r'.walks == s.walks
      && !r'.isSpecialAnimationPaused && |r'.timers.Keys| == 1
  {
    var r := Play(s, "start", env);
    assert r.walks == s.walks + [Walk("start", [Step(IdleClip, Fbx, Infinite)])];
    assert RemoveAt(r.walks, |s.walks|) == s.walks;
    var t := r.(walks := s.walks);
    assert OneTimer(t);
    ResumeEffect(t, env);
  }

  /** The state a failed `talking` load leaves for the idle fallback: paused, nothing armed, one load logged. */
  function TalkingFailed(s: State): State
  {
    LoadCall(PauseSpecial(StopCurrent(PauseSpecial(s.(currentAnimation := Some("talking"))))), Fbx, TalkingClip)
  }

  lemma TalkingFailureReachesIdle(s: State, env: Env)
    requires OneTimer(s) && env.throws(|s.loads|)
    ensures Play(s, "talking", env) == Play(TalkingFailed(s), "idle", env)
    ensures OneTimer(TalkingFailed(s)) && TalkingFailed(s).loads == s.loads + [Load(Fbx, TalkingClip)]
  {
    var steps := Animations()["talking"];
    assert steps == [Step(TalkingClip, Fbx, Infinite)];
    var s1 := s.(currentAnimation := Some("talking"));
    PauseEffect(s1);
    var t := StopCurrent(PauseSpecial(s1));
    assert Play(s, "talking", env) == RunSteps(t, "talking", steps, env);
    assert StepGate(t, "talking", steps[0], env) == PauseSpecial(t);
    PauseEffect(t);
    assert RunSteps(t, "talking", steps, env) == RunSteps(TalkingFailed(s), "talking", [], env);
  }

  /** A sequence whose infinite step fails to load runs off its end and falls back to idle. */
  lemma TalkingLoadFailureFallsBack(s: State, env: Env)
    requires OneTimer(s) && ValidEnv(env)
    requires env.throws(|s.loads|) && !env.throws(|s.loads| + 1)
    ensures var r := Play(s, "talking", env);
      && r.loads == s.loads + [Load(Fbx, TalkingClip), Load(Fbx, IdleClip)]
      && !r.isSpecialAnimationPaused && |r.timers.Keys| == 1
  {
    var s2 := TalkingFailed(s);
    TalkingFailureReachesIdle(s, env);
    assert NoThrows(env, |s2.loads|, 1);
    IdleRun(s2, env);
  }

  /** Later commands never cancel a suspended walk: every pending walk is still pending, in order. */
  lemma {:induction false} RunStepsKeepsWalks(s: State, name: string, steps: seq<Step>, env: Env)
    ensures s.walks <= RunSteps(s, name, steps, env).walks
    decreases Rank(name), 0, |steps|
  {
    if steps == [] {
      if name != "idle" {
        PlayKeepsWalks(s, "idle", env);
      }
    } else {
      var s2 := LoadCall(StepGate(s, name, steps[0], env), steps[0].kind, steps[0].action);
      RunStepsKeepsWalks(s2, name, steps[1..], env);
    }
  }

  lemma {:induction false} PlayKeepsWalks(s: State, name: string, env: Env)
    ensures s.walks <= Play(s, name, env).walks
    decreases Rank(name), 1, 0
  {
    if name in Animations() {
      var s1 := s.(currentAnimation := Some(name));
      var s2 := if name == "idle" then ResumeSpecial(s1, env) else PauseSpecial(s1);
      RunStepsKeepsWalks(StopCurrent(s2), name, Animations()[name], env);
    }
  }

  // ---------------------------------------------------------------------------
  // The special-idle timer callback
  // ---------------------------------------------------------------------------

  /** A timeout that fires while paused only leaves the armed set. */
  lemma FireWhilePaused(s: State, h: nat, pick: real, env: Env)
    requires h in s.timers && 0.0 <= pick < 1.0 && s.isSpecialAnimationPaused
    ensures FireTimer(s, h, pick, env) == s.(timers := s.timers - {h})
  {
  }

  /** Otherwise it loads one of the five special clips and waits out that clip's duration. */
  lemma FireLoadsSpecial(s: State, h: nat, pick: real, env: Env)
    requires h in s.timers && 0.0 <= pick < 1.0 && !s.isSpecialAnimationPaused && !Throws(s, env)
    ensures var r := FireTimer(s, h, pick, env);
      exists i :: 0 <= i < 5
        && r.loads == s.loads + [Load(Vrma, SpecialAnimations()[i].action)]
        && r.specials == s.specials + [SpecialAnimations()[i]]
        && r.timers == s.timers - {h}
  {
    var i := SpecialIndex(pick);
    assert FireTimer(s, h, pick, env).specials == s.specials + [SpecialAnimations()[i]];
  }

  /** When the clip has played out while paused, nothing is loaded and nothing is armed. */
  lemma SpecialDoneWhilePaused(s: State, k: nat, env: Env)
    requires k < |s.specials| && s.isSpecialAnimationPaused
    ensures SpecialWaitDoneAsWritten(s, k, env) == s.(specials := RemoveAt(s.specials, k))
    ensures SpecialWaitDone(s, k, env) == s.(specials := RemoveAt(s.specials, k))
  {
  }

  /**
   * Otherwise the idle clip is loaded and a new timeout is armed under the next handle,
   * beside every timeout already armed: the one the handle held is not cleared.
   */
  lemma SpecialDoneReArms(s: State, k: nat, env: Env)
    requires ValidEnv(env) && k < |s.specials| && !s.isSpecialAnimationPaused && !Throws(s, env)
    ensures var r := SpecialWaitDoneAsWritten(s, k, env);
      && r.loads == s.loads + [Load(Fbx, IdleClip)]
      && r.timers.Keys == s.timers.Keys + {s.nextHandle}
      && (forall h :: h in s.timers && h != s.nextHandle ==> r.timers[h] == s.timers[h])
      && r.specialAnimationTimer == Some(s.nextHandle) && r.nextHandle == s.nextHandle + 1
      && 10000.0 <= r.timers[s.nextHandle] < 20000.0
  {
    DelayInRange(env.random(s.nextHandle));
  }

  /** With the held timeout cleared first, the idle clip is loaded and exactly one new timeout is armed. */
  lemma CorrectedSpecialDoneReArms(s: State, k: nat, env: Env)
    requires OneTimer(s) && ValidEnv(env) && k < |s.specials| && !s.isSpecialAnimationPaused && !Throws(s, env)
    ensures var r := SpecialWaitDone(s, k, env);
      && r.loads == s.loads + [Load(Fbx, IdleClip)]
      && r.timers.Keys == {s.nextHandle}
      && r.specialAnimationTimer == Some(s.nextHandle)
      && 10000.0 <= r.timers[s.nextHandle] < 20000.0
  {
    DelayInRange(env.random(s.nextHandle));
    var s2 := LoadCall(s.(specials := RemoveAt(s.specials, k)), Fbx, IdleClip);
    assert ClearTimer(s2).timers == map[];
  }

  /**
   * Play `idle`, let its timeout fire, let the special clip play out through the callback
   * as written: the loads are the idle clip, one special clip, the idle clip again, and one
   * new timeout is armed, since the one the handle held has already fired.
   */
  lemma IdleCycle(s: State, pick: real, env: Env)
    requires OneTimer(s) && ValidEnv(env) && 0.0 <= pick < 1.0 && NoThrows(env, |s.loads|, 3)
    ensures var r1 := Play(s, "idle", env);
      && r1.timers.Keys == {s.nextHandle + 1}
      && var r2 := FireTimer(r1, s.nextHandle + 1, pick, env);
      && |r2.specials| == |s.specials| + 1
      && var r3 := SpecialWaitDoneAsWritten(r2, |s.specials|, env);
      && r3.loads == s.loads + [Load(Fbx, IdleClip), Load(Vrma, SpecialAnimations()[SpecialIndex(pick)].action), Load(Fbx, IdleClip)]
      && r3.timers.Keys == {s.nextHandle + 2}
      && r3.specials == s.specials
  {
    IdleRun(s, env);
    var r1 := Play(s, "idle", env);
    var r2 := FireTimer(r1, s.nextHandle + 1, pick, env);
    assert r2.specials == s.specials + [SpecialAnimations()[SpecialIndex(pick)]];
    assert RemoveAt(r2.specials, |s.specials|) == s.specials;
    assert r2.timers.Keys == {};
    SpecialDoneReArms(r2, |s.specials|, env);
  }
}
