/**
 * The global animation store: the tree mode, the target progress the mode drives,
 * the smoothed progress that every element blends by, and the camera offset set from
 * the hand position. `AppStore` holds the four fields and updates them in place; each
 * of its methods is specified by a transition function on `AppState` values, and the
 * lemmas below are proved about those functions.
 */
module Store {

  import opened Numeric

  datatype TreeState = FORMED | CHAOS

  datatype Vec2 = Vec2(x: real, y: real)

  datatype AppState = AppState(treeState: TreeState, progress: real, targetProgress: real, cameraOffset: Vec2)

  /** Smoothing rate of `tick`, per second. */
  const LerpSpeed: real := 2.5

  /** `tick` writes progress only when it would move by more than this. */
  const WriteThreshold: real := 0.0001

  const Initial: AppState := AppState(FORMED, 0.0, 0.0, Vec2(0.0, 0.0))

  /** The target progress a mode drives. */
  function ModeTarget(s: TreeState): (t: real)
    ensures t == 1.0 <==> s == CHAOS
    ensures t == 0.0 <==> s == FORMED
  {
    match s
    case CHAOS => 1.0
    case FORMED => 0.0
  }

  /** The correspondence between mode and target that every store write but `setTargetProgress` keeps. */
  predicate TargetMatchesMode(st: AppState)
  {
    st.targetProgress == ModeTarget(st.treeState)
  }

  predicate ProgressInUnitRange(st: AppState)
  {
    0.0 <= st.progress <= 1.0 && 0.0 <= st.targetProgress <= 1.0
  }

  /** Distance still to travel. */
  function Gap(st: AppState): real
  {
    Abs(st.targetProgress - st.progress)
  }

  // ---------------------------------------------------------------------------
  // Transitions, one per store action

  /** `setTreeState(s)`: merges the mode and the target it drives into the state. */
  function WithTreeState(st: AppState, s: TreeState): AppState
  {
    st.(treeState := s, targetProgress := ModeTarget(s))
  }

  /** `setTargetProgress(t)`: an arbitrary real, not tied to the mode. */
  function WithTargetProgress(st: AppState, t: real): AppState
  {
    st.(targetProgress := t)
  }

  /** `setCameraOffset(o)`: overwritten as given, without clamping. */
  function WithCameraOffset(st: AppState, o: Vec2): AppState
  {
    st.(cameraOffset := o)
  }

  /** `Math.min(1, delta * lerpSpeed)`: the fraction of the gap one tick closes. */
  function StepFraction(delta: real): (f: real)
    ensures f <= 1.0
    ensures f == 1.0 <==> delta >= 0.4
    ensures delta >= 0.0 ==> 0.0 <= f
    ensures delta > 0.0 ==> 0.0 < f
    ensures delta == 0.0 ==> f == 0.0
  {
    if 1.0 <= delta * LerpSpeed then 1.0 else delta * LerpSpeed
  }

  function SmoothedProgress(progress: real, target: real, delta: real): real
  {
    Lerp(progress, target, StepFraction(delta))
  }

  /** `tick(delta)`: one exponential-smoothing step, written only when it moves progress by more than 1e-4. */
  function Ticked(st: AppState, delta: real): (r: AppState)
    ensures r.treeState == st.treeState
    ensures r.targetProgress == st.targetProgress
    ensures r.cameraOffset == st.cameraOffset
  {
    var newProgress := SmoothedProgress(st.progress, st.targetProgress, delta);
    if Abs(newProgress - st.progress) > WriteThreshold then st.(progress := newProgress) else st
  }

  /** `tick` called `n` times with the same delta. */
  function TickedTimes(st: AppState, delta: real, n: nat): (r: AppState)
    decreases n
    ensures r.treeState == st.treeState
    ensures r.targetProgress == st.targetProgress
    ensures r.cameraOffset == st.cameraOffset
  {
    if n == 0 then st else TickedTimes(Ticked(st, delta), delta, n - 1)
  }

  // ---------------------------------------------------------------------------
  // The store itself

  class AppStore {
    var treeState: TreeState
    var progress: real
    var targetProgress: real
    var cameraOffset: Vec2

    function State(): AppState
      reads this
    {
      AppState(treeState, progress, targetProgress, cameraOffset)
    }

    constructor ()
      ensures State() == Initial
    {
      treeState := FORMED;
      progress := 0.0;
      targetProgress := 0.0;
      cameraOffset := Vec2(0.0, 0.0);
    }

    method SetTreeState(s: TreeState)
      modifies this
      ensures State() == WithTreeState(old(State()), s)
    {
      treeState, targetProgress := s, if s == CHAOS then 1.0 else 0.0;
    }

    method SetTargetProgress(t: real)
      modifies this
      ensures State() == WithTargetProgress(old(State()), t)
    {
      targetProgress := t;
    }

    method SetCameraOffset(o: Vec2)
      modifies this
      ensures State() == WithCameraOffset(old(State()), o)
    {
      cameraOffset := o;
    }

    method Tick(delta: real)
      modifies this
      ensures State() == Ticked(old(State()), delta)
    {
      var p, t := progress, targetProgress;
      var fraction := if 1.0 <= delta * LerpSpeed then 1.0 else delta * LerpSpeed;
      var newProgress := p + (t - p) * fraction;
      assert fraction == StepFraction(delta);
      assert newProgress == SmoothedProgress(p, t, delta);
      if Abs(newProgress - p) > WriteThreshold {
        progress := newProgress;
      }
    }
  }

  // ---------------------------------------------------------------------------
  // Properties of the store actions

  lemma InitialState()
    ensures Initial.treeState == FORMED && Initial.progress == 0.0 && Initial.targetProgress == 0.0
    ensures Initial.cameraOffset == Vec2(0.0, 0.0)
    ensures TargetMatchesMode(Initial) && ProgressInUnitRange(Initial)
  {
  }

  /** `setTreeState` sets the mode and its target, leaves progress and offset alone, and is idempotent. */
  lemma WithTreeStateSpec(st: AppState, s: TreeState)
    ensures WithTreeState(st, s).treeState == s
    ensures WithTreeState(st, s).targetProgress == (if s == CHAOS then 1.0 else 0.0)
    ensures WithTreeState(st, s).progress == st.progress
    ensures WithTreeState(st, s).cameraOffset == st.cameraOffset
    ensures TargetMatchesMode(WithTreeState(st, s))
    ensures WithTreeState(WithTreeState(st, s), s) == WithTreeState(st, s)
  {
  }

  /** Setting the mode the store already has changes nothing, provided the target still matches the mode. */
  lemma WithTreeStateSameMode(st: AppState)
    requires TargetMatchesMode(st)
    ensures WithTreeState(st, st.treeState) == st
  {
  }

  /** `setCameraOffset` writes the offset exactly as given and nothing else. */
  lemma WithCameraOffsetSpec(st: AppState, o: Vec2)
    ensures WithCameraOffset(st, o).cameraOffset == o
    ensures WithCameraOffset(st, o).(cameraOffset := st.cameraOffset) == st
    ensures TargetMatchesMode(st) ==> TargetMatchesMode(WithCameraOffset(st, o))
  {
  }

  /** `setTargetProgress` is the one action that can break the mode/target correspondence. */
  lemma WithTargetProgressSpec(st: AppState, t: real)
    ensures WithTargetProgress(st, t).targetProgress == t
    ensures WithTargetProgress(st, t).(targetProgress := st.targetProgress) == st
    ensures TargetMatchesMode(WithTargetProgress(st, t)) <==> t == ModeTarget(st.treeState)
  {
  }

  /** `tick` writes progress exactly when the step would move it by more than the threshold. */
  lemma TickWritesIff(st: AppState, delta: real)
    ensures Ticked(st, delta).progress != st.progress
            <==> Abs((st.targetProgress - st.progress) * StepFraction(delta)) > WriteThreshold
    ensures Ticked(st, delta).progress != st.progress
            ==> Ticked(st, delta).progress == SmoothedProgress(st.progress, st.targetProgress, delta)
    ensures Ticked(st, 0.0) == st
    ensures TargetMatchesMode(st) ==> TargetMatchesMode(Ticked(st, delta))
  {
    var d := (st.targetProgress - st.progress) * StepFraction(delta);
    var p := SmoothedProgress(st.progress, st.targetProgress, delta);
    assert p == Lerp(st.progress, st.targetProgress, StepFraction(delta)) == st.progress + d;
    if Abs(d) > WriteThreshold {
      assert d != 0.0 && Ticked(st, delta) == st.(progress := p);
      assert Ticked(st, delta).progress != st.progress;
    } else {
      assert Ticked(st, delta) == st;
    }
  }

  /** For a non-negative delta the new progress lies between the old progress and the target. */
  lemma TickNoOvershoot(st: AppState, delta: real)
    requires delta >= 0.0
    ensures Between(st.progress, st.targetProgress, Ticked(st, delta).progress)
  {
    LerpBetween(st.progress, st.targetProgress, StepFraction(delta));
  }

  lemma TickKeepsUnitRange(st: AppState, delta: real)
    requires delta >= 0.0 && ProgressInUnitRange(st)
    ensures ProgressInUnitRange(Ticked(st, delta))
  {
    TickNoOvershoot(st, delta);
  }

  /**
   * A written tick multiplies the gap by (1 - f); so the gap never grows, and it
   * strictly shrinks whenever progress moves.
   */
  lemma TickGap(st: AppState, delta: real)
    requires delta >= 0.0
    ensures Ticked(st, delta).progress != st.progress
            ==> Gap(Ticked(st, delta)) == (1.0 - StepFraction(delta)) * Gap(st)
    ensures Gap(Ticked(st, delta)) <= Gap(st)
    ensures Ticked(st, delta).progress != st.progress ==> Gap(Ticked(st, delta)) < Gap(st)
  {
    var r := Ticked(st, delta);
    var f := StepFraction(delta);
    if r.progress != st.progress {
      var g := Gap(st);
      LerpGap(st.progress, st.targetProgress, f);
      assert r.progress == Lerp(st.progress, st.targetProgress, f);
      assert Gap(r) == (1.0 - f) * g;
      TickWritesIff(st, delta);
      assert g > 0.0 && f > 0.0;
      MulPos(g, f);
      assert (1.0 - f) * g == g - g * f;
    }
  }

  /** A delta of 0.4 s or more closes the whole gap, unless the gap is already too small to write. */
  lemma TickLargeDeltaLands(st: AppState, delta: real)
    requires delta >= 0.4
    ensures Ticked(st, delta).progress == st.targetProgress
            || (Ticked(st, delta) == st && Gap(st) <= WriteThreshold)
  {
  }

  /** One tick of 0.1 s (f = 0.25) takes a gap below max(0.75^k, 4e-4) below max(0.75^(k+1), 4e-4). */
  lemma TenthSecondTick(st: AppState, k: nat)
    requires Gap(st) <= Max(Pow(0.75, k), 0.0004)
    ensures Gap(Ticked(st, 0.1)) <= Max(Pow(0.75, k + 1), 0.0004)
  {
    var next := Ticked(st, 0.1);
    var power := Pow(0.75, k);
    assert Pow(0.75, k + 1) == 0.75 * power;
    assert StepFraction(0.1) == 0.25;
    PowUnitInterval(0.75, k);
    TickGap(st, 0.1);
    if next.progress != st.progress {
      assert Gap(next) == 0.75 * Gap(st);
      if Gap(st) <= power {
        MulMono(0.75, Gap(st), power);
      }
    } else {
      TickWritesIff(st, 0.1);
      var g := st.targetProgress - st.progress;
      assert Abs(g * 0.25) == Abs(g) * 0.25;
      assert Gap(st) <= 0.0004;
    }
  }

  /**
   * Ticks of 0.1 s shrink the gap by 0.75 each until the write guard stops them, which it
   * does only once the gap is at most 1e-4 / 0.25 = 4e-4.
   */
  lemma {:induction false} TenthSecondTicksGap(st: AppState, k: nat, n: nat)
    requires Gap(st) <= Max(Pow(0.75, k), 0.0004)
    decreases n
    ensures Gap(TickedTimes(st, 0.1, n)) <= Max(Pow(0.75, k + n), 0.0004)
  {
    if n > 0 {
      TenthSecondTick(st, k);
      TenthSecondTicksGap(Ticked(st, 0.1), k + 1, n - 1);
      assert k + 1 + (n - 1) == k + n;
    }
  }

  /**
   * From progress 0 towards target 1, two hundred ticks of 0.1 s bring progress above
   * 0.999, although the write guard stops it 4e-4 short of the target at the latest.
   */
  lemma TwoHundredTicksConverge(st: AppState)
    requires st.progress == 0.0 && st.targetProgress == 1.0
    ensures TickedTimes(st, 0.1, 200).progress > 0.999
  {
    TenthSecondTicksGap(st, 0, 200);
    assert Pow(0.75, 4) == 0.31640625;
    PowAdd(0.75, 4, 4);
    PowAdd(0.75, 8, 8);
    PowAdd(0.75, 16, 16);
    PowNonIncreasing(0.75, 32, 200);
    assert Pow(0.75, 32) < 0.001;
  }
}
