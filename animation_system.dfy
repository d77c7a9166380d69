/**
 * The animation sequencer as the object the application holds: its fields change in
 * place, and every method is proved to take the object's `Model()` where the event of
 * the same name takes the state in `AnimationSpec`.
 *
 * The loaders given to the constructor are kept as opaque `Loader` values; what a call
 * does is given by the `Env` each method takes: the call is logged in `loads`, and
 * `env.throws` says whether it throws. Suspensions are split into events: a method runs
 * up to the next `await` of a wait, records what is suspended (`walks`, `specials`), and
 * `StepWaitFinished` / `SpecialClipFinished` take it up.
 */
module AnimationControl {
  import opened Wrappers
  import opened AnimationSpec

  /** A loader function handed to the constructor, known only by its identity. */
  datatype Loader = Loader(id: nat)

  class AnimationSystem {
    const loadAnimation: Loader
    const loadVRMAnimation: Loader
    const animations: map<string, seq<Step>>
    var currentAnimation: Option<string>
    var specialAnimationTimer: Option<nat>
    var isSpecialAnimationPaused: bool
    var timers: map<nat, real>
    var nextHandle: nat
    var walks: seq<Walk>
    var specials: seq<Step>
    var loads: seq<Load>

    function Model(): State
      reads this
    {
      State(currentAnimation, specialAnimationTimer, isSpecialAnimationPaused, timers, nextHandle, walks, specials, loads)
    }

    /** The catalogue is the fixed one, and at most one special timeout is armed: the one the handle names. */
    ghost predicate Valid()
      reads this
    {
      animations == Animations() && OneTimer(Model())
    }

    constructor (loadAnimation: Loader, loadVRMAnimation: Loader)
      ensures Valid() && Model() == Initial()
      ensures this.loadAnimation == loadAnimation && this.loadVRMAnimation == loadVRMAnimation
    {
      this.loadAnimation := loadAnimation;
      this.loadVRMAnimation := loadVRMAnimation;
      animations := Animations();
      currentAnimation := None;
      specialAnimationTimer := None;
      isSpecialAnimationPaused := false;
      timers := map[];
      nextHandle := 1;
      walks := [];
      specials := [];
      loads := [];
    }

    /** `await this.loadAnimation(path)`. */
    method LoadAnimation(path: string, env: Env) returns (threw: bool)
      modifies this
      ensures Model() == LoadCall(old(Model()), Fbx, path)
      ensures threw == Throws(old(Model()), env)
    {
      threw := env.throws(|loads|);
      loads := loads + [Load(Fbx, path)];
    }

    /** `await this.loadVRMAnimation(path)`. */
    method LoadVRMAnimation(path: string, env: Env) returns (threw: bool)
      modifies this
      ensures Model() == LoadCall(old(Model()), Vrma, path)
      ensures threw == Throws(old(Model()), env)
    {
      threw := env.throws(|loads|);
      loads := loads + [Load(Vrma, path)];
    }

    method StopCurrentAnimation()
      requires Valid()
      modifies this
      ensures Valid()
      ensures Model() == StopCurrent(old(Model()))
    {
      currentAnimation := None;
    }

    method StopSpecialAnimations()
      requires Valid()
      modifies this
      ensures Valid() && timers == map[]
      ensures Model() == StopSpecial(old(Model()))
    {
      PauseEffect(Model());
      isSpecialAnimationPaused := true;
      if specialAnimationTimer.Some? {
        timers := timers - {specialAnimationTimer.value};
        specialAnimationTimer := None;
      }
    }

    method PauseSpecialAnimations()
      requires Valid()
      modifies this
      ensures Valid() && timers == map[]
      ensures Model() == PauseSpecial(old(Model()))
    {
      isSpecialAnimationPaused := true;
      StopSpecialAnimations();
    }

    /** The `scheduleNextSpecialAnimation` closure: `setTimeout` hands out the next handle. */
    method ScheduleNextSpecialAnimation(env: Env)
      modifies this
      ensures Model() == Schedule(old(Model()), env)
    {
      if isSpecialAnimationPaused {
        return;
      }
      var randomDelay := Delay(env.random(nextHandle));
      var h := nextHandle;
      nextHandle := nextHandle + 1;
      timers := timers[h := randomDelay];
      specialAnimationTimer := Some(h);
    }

    method PlayIdleWithSpecialAnimations(env: Env)
      requires Valid()
      modifies this
      ensures Valid()
      ensures Model() == PlayIdleWithSpecial(old(Model()), env)
    {
      StopSpecialAnimations();
      isSpecialAnimationPaused := false;
      ScheduleNextSpecialAnimation(env);
    }

    method ResumeSpecialAnimations(env: Env)
      requires Valid()
      modifies this
      ensures Valid()
      ensures Model() == ResumeSpecial(old(Model()), env)
    {
      isSpecialAnimationPaused := false;
      PlayIdleWithSpecialAnimations(env);
    }

    method PlayAnimation(name: string, env: Env)
      requires Valid() && ValidEnv(env)
      modifies this
      ensures Valid()
      ensures Model() == Play(old(Model()), name, env)
      decreases Rank(name), 1
    {
      if name !in animations {
        return;
      }
      currentAnimation := Some(name);
      ghost var s1 := Model();
      ResumeEffect(s1, env);
      PauseEffect(s1);
      if name == "idle" {
        ResumeSpecialAnimations(env);
      } else {
        PauseSpecialAnimations();
      }
      StopCurrentAnimation();
      ContinueSteps(name, animations[name], env);
    }

    /**
     * The `for…of` loop of `playAnimation` over `steps`, up to its next suspension, and the
     * idle fallback after it.
     */
    method ContinueSteps(name: string, steps: seq<Step>, env: Env)
      requires Valid() && ValidEnv(env)
      modifies this
      ensures Valid()
      ensures Model() == RunSteps(old(Model()), name, steps, env)
      decreases Rank(name), 0
    {
      var i := 0;
      while i < |steps|
        invariant 0 <= i <= |steps|
        invariant Valid()
        invariant RunSteps(old(Model()), name, steps, env) == RunSteps(Model(), name, steps[i..], env)
      {
        var step := steps[i];
        assert steps[i..][0] == step && steps[i..][1..] == steps[i + 1..];
        var threw := GateAndLoad(name, step, env);
        if !threw {
          if step.duration == Infinite {
            return;
          }
          // `await` the step's duration: the rest of the loop waits for `StepWaitFinished`.
          walks := walks + [Walk(name, steps[i + 1..])];
          return;
        }
        i := i + 1;
      }
      if name != "idle" {
        PlayAnimation("idle", env);
      }
    }

    /** One pass of the loop body up to its load: the timer rule for the step, then the loader its kind names. */
    method GateAndLoad(name: string, step: Step, env: Env) returns (threw: bool)
      requires Valid() && ValidEnv(env)
      modifies this
      ensures Valid()
      ensures Model() == LoadCall(StepGate(old(Model()), name, step, env), step.kind, step.action)
      ensures threw == Throws(StepGate(old(Model()), name, step, env), env)
    {
      StepGatePreserves(Model(), name, step, env);
      if name == "idle" || step.action == IdleClip {
        ResumeSpecialAnimations(env);
      } else {
        PauseSpecialAnimations();
      }
      if step.kind == Fbx {
        threw := LoadAnimation(step.action, env);
      } else {
        threw := LoadVRMAnimation(step.action, env);
      }
    }

    method PlayStartWithIdleAndSpecialAnimations(env: Env)
      requires Valid() && ValidEnv(env)
      modifies this
      ensures Valid()
      ensures Model() == Play(old(Model()), "start", env)
    {
      PlayAnimation("start", env);
    }

    /** The wait of suspended walk `k` ends and its loop goes on. */
    method StepWaitFinished(k: nat, env: Env)
      requires Valid() && ValidEnv(env) && k < |walks|
      modifies this
      ensures Valid()
      ensures Model() == StepWaitDone(old(Model()), k, env)
    {
      var w := walks[k];
      walks := RemoveAt(walks, k);
      ContinueSteps(w.name, w.rest, env);
    }

    /** The armed special timeout `h` fires; `pick` is the `Math.random()` its callback draws. */
    method SpecialTimerFired(h: nat, pick: real, env: Env)
      requires Valid() && h in timers && 0.0 <= pick < 1.0
      modifies this
      ensures Valid()
      ensures Model() == FireTimer(old(Model()), h, pick, env)
    {
      timers := timers - {h};
      if isSpecialAnimationPaused {
        return;
      }
      var randomAnimation := SpecialAnimations()[SpecialIndex(pick)];
      var threw := LoadVRMAnimation(randomAnimation.action, env);
      if threw {
        return;
      }
      // `await` the clip's duration: the callback waits for `SpecialClipFinished`.
      specials := specials + [randomAnimation];
    }

    /**
     * The clip of suspended callback `k` has played out. The timeout the handle still names
     * is cleared before the next one is armed, so an idle sequence started during the wait
     * does not leave a second timeout running.
     */
    method SpecialClipFinished(k: nat, env: Env)
      requires Valid() && k < |specials|
      modifies this
      ensures Valid()
      ensures Model() == SpecialWaitDone(old(Model()), k, env)
    {
      ghost var s := Model();
      SpecialWaitDonePreserves(s, k, env);
      specials := RemoveAt(specials, k);
      if isSpecialAnimationPaused {
        return;
      }
      var threw := LoadAnimation(IdleClip, env);
      if threw {
        return;
      }
      if specialAnimationTimer.Some? {
        timers := timers - {specialAnimationTimer.value};
      }
      ScheduleNextSpecialAnimation(env);
    }
  }

  /** The module-level `instance`: constructing again returns the first sequencer, loaders and state untouched. */
  class Registry {
    var instance: AnimationSystem?

    constructor ()
      ensures instance == null
    {
      instance := null;
    }

    /** `new AnimationSystem(loadAnimation, loadVRMAnimation)`. */
    method Construct(loadAnimation: Loader, loadVRMAnimation: Loader) returns (a: AnimationSystem)
      modifies this
      ensures old(instance) != null ==> a == old(instance) && instance == old(instance) && unchanged(a)
      ensures old(instance) == null ==>
        && fresh(a) && instance == a && a.Valid() && a.Model() == Initial()
        && a.loadAnimation == loadAnimation && a.loadVRMAnimation == loadVRMAnimation
    {
      if instance != null {
        return instance;
      }
      a := new AnimationSystem(loadAnimation, loadVRMAnimation);
      instance := a;
    }
  }
}
