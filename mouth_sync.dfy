/**
 * Lip sync (`syncMouthAnimation`): while a voice clip plays, every animation frame turns
 * the audio spectrum into five mouth-shape (viseme) weights; a random "smile"
 * micro-expression runs beside it; when the clip ends, a smile fades in and out.
 *
 * The spectrum is an input (128 byte bins per frame); timers and animation frames are
 * events of the `LipSync` and `SmileFade` classes; arithmetic is exact over `real`.
 */
module MouthSync {
  import opened Wrappers
  import opened Expressions

  type byte = x: int | 0 <= x < 256

  /** `analyser.fftSize = 256` gives `frequencyBinCount` = 128 bins. */
  const BinCount: nat := 128
  const SmoothingFactor: real := 0.8
  const TalkingClip: string := "/animations/Talking.fbx"
  const IdleClip: string := "/animations/idle.fbx"
  const EndedVrmaClip: string := "animations/vrma/VRMA_02.vrma"

  // ---------------------------------------------------------------------------
  // Per-frame signal pipeline (pure)
  // ---------------------------------------------------------------------------

  /** `reduce((sum, value) => sum + value, 0)` over a slice of the spectrum. */
  function Sum(s: seq<byte>): (r: int)
    ensures 0 <= r <= 255 * |s|
  {
    if s == [] then 0 else s[0] + Sum(s[1..])
  }

  /** Instantaneous band energies: low, mid and high. */
  datatype Bands = Bands(low: real, mid: real, high: real)

  /** Band means over bins [0,32), [32,64) and [64,128). */
  function RawBands(data: seq<byte>): Bands
    requires |data| == BinCount
  {
    Bands(Sum(data[0..32]) as real / 32.0,
          Sum(data[32..64]) as real / 32.0,
          Sum(data[64..128]) as real / 64.0)
  }

  ghost predicate InByteRange(x: real)
  {
    0.0 <= x <= 255.0
  }

  ghost predicate BandsInRange(b: Bands)
  {
    InByteRange(b.low) && InByteRange(b.mid) && InByteRange(b.high)
  }

  /** Each band mean lies in [0, 255]. */
  lemma RawBandsInRange(data: seq<byte>)
    requires |data| == BinCount
    ensures BandsInRange(RawBands(data))
  {
    var lo, mi, hi := Sum(data[0..32]), Sum(data[32..64]), Sum(data[64..128]);
    assert 0 <= lo <= 255 * 32 && 0 <= mi <= 255 * 32 && 0 <= hi <= 255 * 64;
  }

  /** `s * 0.8 + raw * (1 - 0.8)`. */
  function Smooth(prev: real, raw: real): real
  {
    prev * SmoothingFactor + raw * (1.0 - SmoothingFactor)
  }

  function SmoothBands(prev: Bands, raw: Bands): Bands
  {
    Bands(Smooth(prev.low, raw.low), Smooth(prev.mid, raw.mid), Smooth(prev.high, raw.high))
  }

  /** Smoothing a value in [0,255] toward a raw value in [0,255] stays in [0,255], between the two. */
  lemma SmoothBetween(prev: real, raw: real)
    requires InByteRange(prev) && InByteRange(raw)
    ensures InByteRange(Smooth(prev, raw))
    ensures prev <= raw ==> prev <= Smooth(prev, raw) <= raw
    ensures raw <= prev ==> raw <= Smooth(prev, raw) <= prev
  {
  }

  lemma SmoothBandsInRange(prev: Bands, raw: Bands)
    requires BandsInRange(prev) && BandsInRange(raw)
    ensures BandsInRange(SmoothBands(prev, raw))
  {
    SmoothBetween(prev.low, raw.low);
    SmoothBetween(prev.mid, raw.mid);
    SmoothBetween(prev.high, raw.high);
  }

  /** The smoothed value after `k` frames of the same raw value `r`, starting from 0. */
  function SmoothConstant(r: real, k: nat): real
  {
    if k == 0 then 0.0 else Smooth(SmoothConstant(r, k - 1), r)
  }

  /** For a constant raw input the smoothed value rises monotonically toward it and never exceeds it. */
  lemma {:induction false} SmoothConstantRises(r: real, k: nat)
    requires 0.0 <= r
    ensures 0.0 <= SmoothConstant(r, k) <= SmoothConstant(r, k + 1) <= r
  {
    if k > 0 {
      SmoothConstantRises(r, k - 1);
    }
  }

  function Min(a: real, b: real): real
  {
    if a <= b then a else b
  }

  /** `Math.min(smoothed / 128, 1)`. */
  function Normalize(smoothed: real): real
  {
    Min(smoothed / 128.0, 1.0)
  }

  datatype Visemes = Visemes(aa: real, ih: real, ou: real, ee: real, oh: real)

  /** Per-viseme amplification and caps applied to the normalised smoothed bands. */
  function VisemesOf(smoothed: Bands): Visemes
  {
    var low, mid, high := Normalize(smoothed.low), Normalize(smoothed.mid), Normalize(smoothed.high);
    Visemes(Min(low, 0.5), Min(mid * 2.0, 1.0), Min(mid * 1.5, 0.5), Min(high * 1.5, 0.6), Min(high * 1.5, 0.6))
  }

  /** Every emitted weight lies between 0 and its cap; `ee` equals `oh`; `ih` is at least `ou`. */
  lemma VisemeBounds(smoothed: Bands)
    requires 0.0 <= smoothed.low && 0.0 <= smoothed.mid && 0.0 <= smoothed.high
    ensures var v := VisemesOf(smoothed);
      && 0.0 <= v.aa <= 0.5 && 0.0 <= v.ih <= 1.0 && 0.0 <= v.ou <= 0.5
      && 0.0 <= v.ee <= 0.6 && 0.0 <= v.oh <= 0.6
      && v.ee == v.oh && v.ih >= v.ou
  {
  }

  /** The five `setValue` calls of one frame, in source order. */
  function ApplyVisemes(w: Weights, v: Visemes): Weights
  {
    WithValue(WithValue(WithValue(WithValue(WithValue(w, "aa", v.aa), "ih", v.ih), "ou", v.ou), "ee", v.ee), "oh", v.oh)
  }

  /** A frame whose low bins are all 255 and whose other bins are 0. */
  ghost predicate LowToneFrame(data: seq<byte>)
  {
    |data| == BinCount && (forall j :: 0 <= j < 32 ==> data[j] == 255) && (forall j :: 32 <= j < 128 ==> data[j] == 0)
  }

  lemma {:induction false} SumConstant(s: seq<byte>, c: byte)
    requires forall j :: 0 <= j < |s| ==> s[j] == c
    ensures Sum(s) == c * |s|
    decreases |s|
  {
    if s != [] {
      SumConstant(s[1..], c);
    }
  }

  /**
   * Low-tone frames from a fresh start: from frame to frame `aa` never decreases,
   * stays at most 0.5 and is at its cap from the second frame on; the other visemes stay 0.
   */
  lemma LowToneConverges(data: seq<byte>, k: nat)
    requires LowToneFrame(data)
    ensures RawBands(data) == Bands(255.0, 0.0, 0.0)
    ensures var v := VisemesOf(Bands(SmoothConstant(255.0, k), SmoothConstant(0.0, k), SmoothConstant(0.0, k)));
      var v' := VisemesOf(Bands(SmoothConstant(255.0, k + 1), SmoothConstant(0.0, k + 1), SmoothConstant(0.0, k + 1)));
      && v.aa <= v'.aa <= 0.5
      && (k >= 2 ==> v.aa == 0.5)
      && v.ih == 0.0 && v.ou == 0.0 && v.ee == 0.0 && v.oh == 0.0
  {
    SumConstant(data[0..32], 255);
    SumConstant(data[32..64], 0);
    SumConstant(data[64..128], 0);
    SmoothConstantRises(255.0, k);
    SmoothConstantRises(0.0, k);
    if k >= 2 {
      LowToneReachesCap(k);
    }
  }

  /** From the second frame on, the smoothed low band is at least 64 (half of 128). */
  lemma {:induction false} LowToneReachesCap(k: nat)
    requires k >= 2
    ensures SmoothConstant(255.0, k) >= 64.0
  {
    if k == 2 {
      assert SmoothConstant(255.0, 1) == 51.0;
    } else {
      LowToneReachesCap(k - 1);
      SmoothConstantRises(255.0, k - 1);
    }
  }

  // ---------------------------------------------------------------------------
  // The fade run when the clip ends (pure values)
  // ---------------------------------------------------------------------------

  /** `Math.round`: the nearest integer, halves rounding up. */
  function Round(x: real): int
  {
    (x + 0.5).Floor
  }

  /** `Math.round(duration / (1000 / fps))` with a 200 ms fade at 60 frames per second. */
  function TotalFrames(): int
  {
    Round(200.0 / (1000.0 / 60.0))
  }

  lemma TotalFramesIsTwelve()
    ensures TotalFrames() == 12
  {
    assert 200.0 / (1000.0 / 60.0) == 12.0;
  }

  /** The `happy` weight the ramp up writes on frame `k`: `0.8 * k / totalFrames`. */
  function RampUpValue(k: nat): real
  {
    TotalFramesIsTwelve();
    0.8 * (k as real / TotalFrames() as real)
  }

  /** The `happy` weight the ramp down writes on frame `k`: `0.8 * (1 - k / totalFrames)`. */
  function RampDownValue(k: nat): real
  {
    TotalFramesIsTwelve();
    0.8 * (1.0 - k as real / TotalFrames() as real)
  }

  /** The ramp up starts at 0, rises strictly and stays below 0.8 on its twelve frames. */
  lemma RampUpShape(j: nat, k: nat)
    requires j < k < TotalFrames()
    ensures RampUpValue(0) == 0.0
    ensures 0.0 <= RampUpValue(j) < RampUpValue(k) < 0.8
  {
    TotalFramesIsTwelve();
  }

  /** The ramp down falls strictly, ends at 0.8/12 on its last frame, and never writes 0. */
  lemma RampDownShape(j: nat, k: nat)
    requires j < k < TotalFrames()
    ensures RampDownValue(0) == 0.8
    ensures RampDownValue(j) > RampDownValue(k) > 0.0
    ensures RampDownValue(TotalFrames() - 1) == 0.8 / 12.0
  {
    TotalFramesIsTwelve();
  }

  // ---------------------------------------------------------------------------
  // The ended-handler closure: a smile fade
  // ---------------------------------------------------------------------------

  /** Which callback of the fade is pending: a ramp-up frame, the 1500 ms hold, a ramp-down frame, or none. */
  datatype FadePhase = RampingUp | Holding | RampingDown | Finished

  class SmileFade {
    const expressionManager: ExpressionManager
    var currentFrame: nat
    var phase: FadePhase

    constructor (manager: ExpressionManager)
      ensures expressionManager == manager && currentFrame == 0 && phase == RampingUp
    {
      expressionManager := manager;
      currentFrame := 0;
      phase := RampingUp;
    }

    /** `incrementSmile`: one ramp-up frame, or the switch to the 1500 ms hold after the last one. */
    method IncrementSmile()
      requires phase == RampingUp
      modifies this, expressionManager
      ensures old(currentFrame) < TotalFrames() ==>
        && expressionManager.weights == WithValue(old(expressionManager.weights), "happy", RampUpValue(old(currentFrame)))
        && currentFrame == old(currentFrame) + 1 && phase == RampingUp
      ensures old(currentFrame) >= TotalFrames() ==>
        unchanged(expressionManager) && currentFrame == old(currentFrame) && phase == Holding
    {
      if currentFrame < TotalFrames() {
        var progress := currentFrame as real / TotalFrames() as real;
        var smileValue := 0.8 * progress;
        expressionManager.SetValue("happy", smileValue);
        currentFrame := currentFrame + 1;
      } else {
        phase := Holding;
      }
    }

    /** The 1500 ms hold elapses: the frame counter restarts and the first ramp-down frame runs at once. */
    method HoldElapsed()
      requires phase == Holding
      modifies this, expressionManager
      ensures expressionManager.weights == WithValue(old(expressionManager.weights), "happy", RampDownValue(0))
      ensures currentFrame == 1 && phase == RampingDown
    {
      currentFrame := 0;
      phase := RampingDown;
      TotalFramesIsTwelve();
      DecrementSmile();
    }

    /** `decrementSmile`: one ramp-down frame; after the last one nothing more is scheduled. */
    method DecrementSmile()
      requires phase == RampingDown
      modifies this, expressionManager
      ensures old(currentFrame) < TotalFrames() ==>
        && expressionManager.weights == WithValue(old(expressionManager.weights), "happy", RampDownValue(old(currentFrame)))
        && currentFrame == old(currentFrame) + 1 && phase == RampingDown
      ensures old(currentFrame) >= TotalFrames() ==>
        unchanged(expressionManager) && currentFrame == old(currentFrame) && phase == Finished
    {
      if currentFrame < TotalFrames() {
        var progress := currentFrame as real / TotalFrames() as real;
        var smileValue := 0.8 * (1.0 - progress);
        expressionManager.SetValue("happy", smileValue);
        currentFrame := currentFrame + 1;
      } else {
        phase := Finished;
      }
    }
  }

  // ---------------------------------------------------------------------------
  // The syncMouthAnimation closure
  // ---------------------------------------------------------------------------

  /** One `loadAnimation(path, speed)` call; `speed` is `None` when the argument is omitted. */
  datatype ClipRequest = ClipRequest(path: string, speed: Option<real>)

  /**
   * The state one `syncMouthAnimation` call keeps alive: the smoothed bands, the smile
   * timer variable, and the callbacks it has left pending in the event loop.
   */
  class LipSync {
    const expressionManager: ExpressionManager
    var smoothed: Bands                 // smoothedLow, smoothedMid, smoothedHigh
    var smileTimer: Option<nat>         // the handle last stored in `smileTimer`
    var smileTimers: map<nat, real>     // pending `playSmileAnimation` timeouts, handle to delay (ms)
    var nextHandle: nat
    var pendingResets: nat              // pending 1000 ms timeouts that put `happy` back to 0
    var visemeLoops: nat                // live `requestAnimationFrame` chains of `updateMouthAnimation`
    var loads: seq<ClipRequest>         // calls of `loadAnimation`, in order
    var vrmaLoads: seq<string>          // clips `loadVRMAnimation` went on to load, in order

    ghost predicate Valid()
      reads this
    {
      && BandsInRange(smoothed)
      && (forall h :: h in smileTimers ==> 1000.0 <= smileTimers[h] < 3000.0)
      && (forall h :: h in smileTimers ==> h < nextHandle)
    }

    constructor (manager: ExpressionManager)
      ensures Valid() && expressionManager == manager
      ensures smoothed == Bands(0.0, 0.0, 0.0) && smileTimer == None && smileTimers == map[]
      ensures pendingResets == 0 && visemeLoops == 0
      ensures loads == [ClipRequest(TalkingClip, Some(1.0))] && vrmaLoads == []
    {
      expressionManager := manager;
      smoothed := Bands(0.0, 0.0, 0.0);
      smileTimer := None;
      smileTimers := map[];
      nextHandle := 0;
      pendingResets := 0;
      visemeLoops := 0;
      loads := [ClipRequest(TalkingClip, Some(1.0))];
      vrmaLoads := [];
    }

    /** Arms a `playSmileAnimation` timeout of `Math.random() * 2000 + 1000` ms and stores its handle. */
    method ArmSmileTimer(random: real)
      requires Valid() && 0.0 <= random < 1.0
      modifies this
      ensures Valid()
      ensures smileTimer == Some(old(nextHandle)) && nextHandle == old(nextHandle) + 1
      ensures smileTimers == old(smileTimers)[old(nextHandle) := random * 2000.0 + 1000.0]
      ensures smoothed == old(smoothed) && pendingResets == old(pendingResets)
      ensures visemeLoops == old(visemeLoops) && loads == old(loads) && vrmaLoads == old(vrmaLoads)
    {
      smileTimers := smileTimers[nextHandle := random * 2000.0 + 1000.0];
      smileTimer := Some(nextHandle);
      nextHandle := nextHandle + 1;
    }

    /** `updateMouthAnimation` on one frame's spectrum: smooth the bands, write the five visemes. */
    method UpdateMouthAnimation(data: seq<byte>)
      requires Valid() && |data| == BinCount
      modifies this`smoothed, expressionManager
      ensures Valid()
      ensures smoothed == SmoothBands(old(smoothed), RawBands(data))
      ensures expressionManager.weights == ApplyVisemes(old(expressionManager.weights), VisemesOf(smoothed))
    {
      var raw := RawBands(data);
      RawBandsInRange(data);
      SmoothBandsInRange(smoothed, raw);
      smoothed := SmoothBands(smoothed, raw);
      var v := VisemesOf(smoothed);
      expressionManager.SetValue("aa", v.aa);
      expressionManager.SetValue("ih", v.ih);
      expressionManager.SetValue("ou", v.ou);
      expressionManager.SetValue("ee", v.ee);
      expressionManager.SetValue("oh", v.oh);
    }

    /** A frame of one live viseme chain: it runs `updateMouthAnimation` and re-schedules itself. */
    method AnimationFrame(data: seq<byte>)
      requires Valid() && |data| == BinCount && visemeLoops > 0
      modifies this`smoothed, expressionManager
      ensures Valid()
      ensures smoothed == SmoothBands(old(smoothed), RawBands(data))
      ensures expressionManager.weights == ApplyVisemes(old(expressionManager.weights), VisemesOf(smoothed))
    {
      UpdateMouthAnimation(data);
    }

    /** The `play` event: one frame at once, a new viseme chain, and a first smile timeout. */
    method OnPlay(data: seq<byte>, random: real)
      requires Valid() && |data| == BinCount && 0.0 <= random < 1.0
      modifies this, expressionManager
      ensures Valid()
      ensures smoothed == SmoothBands(old(smoothed), RawBands(data))
      ensures expressionManager.weights == ApplyVisemes(old(expressionManager.weights), VisemesOf(smoothed))
      ensures visemeLoops == old(visemeLoops) + 1
      ensures smileTimer == Some(old(nextHandle))
      ensures smileTimers == old(smileTimers)[old(nextHandle) := random * 2000.0 + 1000.0]
      ensures pendingResets == old(pendingResets) && loads == old(loads) && vrmaLoads == old(vrmaLoads)
    {
      UpdateMouthAnimation(data);
      visemeLoops := visemeLoops + 1;
      ArmSmileTimer(random);
    }

    /** `playSmileAnimation`: with probability one half `happy` goes to 0.1 and a 1000 ms reset is armed; the next attempt is always armed. */
    method PlaySmileAnimation(trigger: real, random: real)
      requires Valid() && 0.0 <= trigger < 1.0 && 0.0 <= random < 1.0
      modifies this, expressionManager
      ensures Valid()
      ensures trigger > 0.5 ==> expressionManager.weights == WithValue(old(expressionManager.weights), "happy", 0.1)
      ensures trigger > 0.5 ==> pendingResets == old(pendingResets) + 1
      ensures trigger <= 0.5 ==> expressionManager.weights == old(expressionManager.weights)
      ensures trigger <= 0.5 ==> pendingResets == old(pendingResets)
      ensures smileTimer == Some(old(nextHandle))
      ensures smileTimers == old(smileTimers)[old(nextHandle) := random * 2000.0 + 1000.0]
      ensures smoothed == old(smoothed) && visemeLoops == old(visemeLoops) && loads == old(loads) && vrmaLoads == old(vrmaLoads)
    {
      if trigger > 0.5 {
        expressionManager.SetValue("happy", 0.1);
        pendingResets := pendingResets + 1;
      }
      ArmSmileTimer(random);
    }

    /** A pending smile timeout fires and runs `playSmileAnimation`. */
    method SmileTimerFires(h: nat, trigger: real, random: real)
      requires Valid() && h in smileTimers && 0.0 <= trigger < 1.0 && 0.0 <= random < 1.0
      modifies this, expressionManager
      ensures Valid()
      ensures trigger > 0.5 ==> expressionManager.weights == WithValue(old(expressionManager.weights), "happy", 0.1)
      ensures trigger > 0.5 ==> pendingResets == old(pendingResets) + 1
      ensures trigger <= 0.5 ==> expressionManager.weights == old(expressionManager.weights)
      ensures trigger <= 0.5 ==> pendingResets == old(pendingResets)
      ensures smileTimer == Some(old(nextHandle))
      ensures smileTimers == (old(smileTimers) - {h})[old(nextHandle) := random * 2000.0 + 1000.0]
      ensures smoothed == old(smoothed) && visemeLoops == old(visemeLoops) && loads == old(loads) && vrmaLoads == old(vrmaLoads)
    {
      smileTimers := smileTimers - {h};
      PlaySmileAnimation(trigger, random);
    }

    /** A pending 1000 ms reset fires: `happy` goes back to 0. */
    method SmileResetFires()
      requires Valid() && pendingResets > 0
      modifies this, expressionManager
      ensures Valid()
      ensures expressionManager.weights == WithValue(old(expressionManager.weights), "happy", 0.0)
      ensures pendingResets == old(pendingResets) - 1
      ensures smileTimer == old(smileTimer) && smileTimers == old(smileTimers) && nextHandle == old(nextHandle)
      ensures smoothed == old(smoothed) && visemeLoops == old(visemeLoops) && loads == old(loads) && vrmaLoads == old(vrmaLoads)
    {
      expressionManager.SetValue("happy", 0.0);
      pendingResets := pendingResets - 1;
    }

    /** `clearTimeout(smileTimer)`: cancels the timeout whose handle the variable holds, if it is still pending. */
    method ClearSmileTimer()
      requires Valid()
      modifies this
      ensures Valid()
      ensures smileTimers == if old(smileTimer).Some? then old(smileTimers) - {old(smileTimer).value} else old(smileTimers)
      ensures smileTimer == old(smileTimer) && nextHandle == old(nextHandle) && pendingResets == old(pendingResets)
      ensures smoothed == old(smoothed) && visemeLoops == old(visemeLoops) && loads == old(loads) && vrmaLoads == old(vrmaLoads)
    {
      if smileTimer.Some? {
        smileTimers := smileTimers - {smileTimer.value};
      }
    }

    /**
     * The `pause` event clears only the smile timeout: a pending 1000 ms reset still
     * fires, and the viseme chains keep running.
     */
    method OnPause()
      requires Valid()
      modifies this
      ensures Valid()
      ensures smileTimers == if old(smileTimer).Some? then old(smileTimers) - {old(smileTimer).value} else old(smileTimers)
      ensures smileTimer == old(smileTimer) && nextHandle == old(nextHandle)
      ensures pendingResets == old(pendingResets) && visemeLoops == old(visemeLoops)
      ensures smoothed == old(smoothed) && loads == old(loads) && vrmaLoads == old(vrmaLoads)
    {
      ClearSmileTimer();
    }

    /**
     * `loadVRMAnimation(url)` from the animation utilities: without a VRM it returns before
     * the loader is reached, so nothing is loaded.
     */
    method RequestVrma(vrmPresent: bool, path: string)
      modifies this`vrmaLoads
      ensures vrmaLoads == if vrmPresent then old(vrmaLoads) + [path] else old(vrmaLoads)
    {
      if !vrmPresent {
        return;
      }
      vrmaLoads := vrmaLoads + [path];
    }

    /**
     * The `ended` event: clear the smile timeout, run the first frame of a new smile
     * fade, and ask for the idle clip. The VRMA request passes no VRM and loads nothing.
     * The viseme chains keep running.
     */
    method OnEnded() returns (fade: SmileFade)
      requires Valid()
      modifies this, expressionManager
      ensures Valid() && fresh(fade)
      ensures fade.expressionManager == expressionManager
      ensures fade.currentFrame == 1 && fade.phase == RampingUp
      ensures expressionManager.weights == WithValue(old(expressionManager.weights), "happy", RampUpValue(0))
      ensures old(smileTimer).Some? ==> old(smileTimer).value !in smileTimers
      ensures smileTimers == if old(smileTimer).Some? then old(smileTimers) - {old(smileTimer).value} else old(smileTimers)
      ensures smileTimer == old(smileTimer) && nextHandle == old(nextHandle) && smoothed == old(smoothed)
      ensures pendingResets == old(pendingResets) && visemeLoops == old(visemeLoops)
      ensures loads == old(loads) + [ClipRequest(IdleClip, None)]
      ensures vrmaLoads == old(vrmaLoads)
    {
      ClearSmileTimer();
      fade := new SmileFade(expressionManager);
      TotalFramesIsTwelve();
      fade.IncrementSmile();
      loads := loads + [ClipRequest(IdleClip, None)];
      // `loadVRMAnimation('animations/vrma/VRMA_02.vrma')` is called without a VRM.
      RequestVrma(false, EndedVrmaClip);
    }
  }

  /**
   * `syncMouthAnimation(audioUrl, vrm, loadAnimation)`: without a VRM or its expression
   * manager it returns at once, before loading any clip or creating any audio object
   * (`null` here); otherwise it asks for the talking clip and starts with zeroed smoothing.
   */
  method SyncMouthAnimation(vrm: Vrm?) returns (session: LipSync?)
    ensures (vrm == null || vrm.expressionManager == null) <==> session == null
    ensures session != null ==>
      && fresh(session) && session.Valid()
      && session.expressionManager == vrm.expressionManager
      && session.smoothed == Bands(0.0, 0.0, 0.0)
      && session.loads == [ClipRequest(TalkingClip, Some(1.0))] && session.vrmaLoads == []
      && session.visemeLoops == 0 && session.smileTimers == map[]
      && session.smileTimer == None && session.pendingResets == 0
  {
    if vrm == null || vrm.expressionManager == null {
      return null;
    }
    session := new LipSync(vrm.expressionManager);
  }
}
