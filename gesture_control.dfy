/**
 * The decision rule of `processResults`: from one recognizer result, the hand centre
 * of the first hand, the camera offset it maps to, and the mode change the first
 * gesture of that hand asks for; then the store calls that carry them out.
 */
module GestureControl {

  import opened Wrappers
  import opened Numeric
  import opened Store

  /** A normalized landmark; `z` is recognized but never read. */
  datatype Landmark = Landmark(x: real, y: real, z: real)

  datatype Category = Category(categoryName: string, score: real)

  /** Per detected hand: its landmarks, and its gesture candidates best first. */
  datatype RecognizerResult = RecognizerResult(landmarks: seq<seq<Landmark>>, gestures: seq<seq<Category>>)

  const OpenPalm: string := "Open_Palm"
  const ClosedFist: string := "Closed_Fist"

  /** `landmarks.reduce((sum, lm) => sum + lm.x, 0)`, a left fold. */
  function SumX(lms: seq<Landmark>): real
  {
    if |lms| == 0 then 0.0 else SumX(lms[..|lms| - 1]) + lms[|lms| - 1].x
  }

  function SumY(lms: seq<Landmark>): real
  {
    if |lms| == 0 then 0.0 else SumY(lms[..|lms| - 1]) + lms[|lms| - 1].y
  }

  /** The unweighted centroid of one hand's landmarks. */
  function HandCenter(lms: seq<Landmark>): Vec2
    requires |lms| > 0
  {
    Vec2(SumX(lms) / |lms| as real, SumY(lms) / |lms| as real)
  }

  /** Maps the hand centre to a camera offset, mirrored in x. */
  function CameraOffsetOf(center: Vec2): Vec2
  {
    Vec2(-(center.x - 0.5) * 2.0, (center.y - 0.5) * 2.0)
  }

  /** The guarded mode change for the top gesture name, given the mode the component sees. */
  function ModeCommand(name: string, current: TreeState): Option<TreeState>
  {
    if name == OpenPalm && current != CHAOS then Some(CHAOS)
    else if name == ClosedFist && current != FORMED then Some(FORMED)
    else None
  }

  /** The same rule without the guards, for comparison. */
  function UnguardedModeCommand(name: string): Option<TreeState>
  {
    if name == OpenPalm then Some(CHAOS)
    else if name == ClosedFist then Some(FORMED)
    else None
  }

  /**
   * What one call of `processResults` does to the store: the offset to set (if any),
   * the mode to set (if any), and whether reading `gestures[0][0]` throws because the
   * first hand has an empty candidate list (after the offset is already set).
   */
  datatype Decision = Decision(offset: Option<Vec2>, mode: Option<TreeState>, threw: bool)

  predicate FirstHandHasLandmarks(res: RecognizerResult)
  {
    |res.landmarks| > 0 ==> |res.landmarks[0]| > 0
  }

  function Decide(res: RecognizerResult, current: TreeState): Decision
    requires FirstHandHasLandmarks(res)
  {
    if |res.landmarks| == 0 then Decision(None, None, false)
    else
      var offset := CameraOffsetOf(HandCenter(res.landmarks[0]));
      if |res.gestures| == 0 then Decision(Some(offset), None, false)
      else if |res.gestures[0]| == 0 then Decision(Some(offset), None, true)
      else Decision(Some(offset), ModeCommand(res.gestures[0][0].categoryName, current), false)
  }

  function ApplyMode(st: AppState, mode: Option<TreeState>): AppState
  {
    match mode
    case None => st
    case Some(s) => WithTreeState(st, s)
  }

  /** The store state after the calls a decision makes, in the order the source makes them. */
  function ApplyDecision(st: AppState, d: Decision): AppState
  {
    var afterOffset := match d.offset case None => st case Some(o) => WithCameraOffset(st, o);
    ApplyMode(afterOffset, d.mode)
  }

  /**
   * `processResults`: nothing happens without a canvas and its 2D context; otherwise the
   * store receives the decision's calls. The result is true when the call throws.
   */
  method ProcessResults(store: AppStore, canvasReady: bool, res: RecognizerResult) returns (threw: bool)
    requires FirstHandHasLandmarks(res)
    modifies store
    ensures !canvasReady ==> store.State() == old(store.State()) && !threw
    ensures canvasReady ==>
      var d := Decide(res, old(store.treeState));
      store.State() == ApplyDecision(old(store.State()), d) && threw == d.threw
  {
    threw := false;
    if !canvasReady {
      return;
    }
    var treeState := store.treeState;
    if |res.landmarks| > 0 {
      var landmarks := res.landmarks[0];
      var center := HandCenter(landmarks);
      store.SetCameraOffset(CameraOffsetOf(center));
      if |res.gestures| > 0 {
        if |res.gestures[0]| == 0 {
          threw := true;
          return;
        }
        var gesture := res.gestures[0][0];
        if gesture.categoryName == OpenPalm && treeState != CHAOS {
          store.SetTreeState(CHAOS);
        } else if gesture.categoryName == ClosedFist && treeState != FORMED {
          store.SetTreeState(FORMED);
        }
      }
    }
  }

  // ---------------------------------------------------------------------------
  // Properties

  /** Without a hand neither setter is called: mode and camera offset persist. */
  lemma NoHandNoChange(st: AppState, res: RecognizerResult)
    requires |res.landmarks| == 0
    ensures Decide(res, st.treeState) == Decision(None, None, false)
    ensures ApplyDecision(st, Decide(res, st.treeState)) == st
  {
  }

  /** With a hand the offset is set from its centre, whatever gesture (if any) is recognized. */
  lemma OffsetSetWheneverHand(st: AppState, res: RecognizerResult, current: TreeState)
    requires |res.landmarks| > 0 && |res.landmarks[0]| > 0
    ensures Decide(res, current).offset == Some(CameraOffsetOf(HandCenter(res.landmarks[0])))
    ensures ApplyDecision(st, Decide(res, current)).cameraOffset
            == CameraOffsetOf(HandCenter(res.landmarks[0]))
  {
  }

  /** The mode rules on the first candidate of the first hand. */
  lemma ModeRules(name: string, current: TreeState)
    ensures name == OpenPalm ==> ModeCommand(name, current) == if current == CHAOS then None else Some(CHAOS)
    ensures name == ClosedFist ==> ModeCommand(name, current) == if current == FORMED then None else Some(FORMED)
    ensures name != OpenPalm && name != ClosedFist ==> ModeCommand(name, current) == None
  {
  }

  /** Only `gestures[0][0]` is consulted: later candidates and later hands never matter. */
  lemma OnlyTopCandidateCounts(res: RecognizerResult, other: RecognizerResult, current: TreeState)
    requires FirstHandHasLandmarks(res) && |res.landmarks| > 0
    requires |res.gestures| > 0 && |res.gestures[0]| > 0
    requires |other.landmarks| > 0 && other.landmarks[0] == res.landmarks[0]
    requires |other.gestures| > 0 && |other.gestures[0]| > 0
    requires other.gestures[0][0].categoryName == res.gestures[0][0].categoryName
    ensures Decide(other, current) == Decide(res, current)
  {
  }

  /** An empty gesture list leaves the mode alone; an empty candidate list throws. */
  lemma MissingGestures(res: RecognizerResult, current: TreeState)
    requires FirstHandHasLandmarks(res) && |res.landmarks| > 0
    ensures |res.gestures| == 0 ==> Decide(res, current).mode == None && !Decide(res, current).threw
    ensures |res.gestures| > 0 ==> (Decide(res, current).threw <==> |res.gestures[0]| == 0)
  {
  }

  /**
   * Because `setTreeState` is idempotent, the guards change nothing: the guarded call
   * leaves the store where the unguarded one would, as long as target matches mode.
   */
  lemma GuardedEqualsUnguarded(st: AppState, name: string)
    requires TargetMatchesMode(st)
    ensures ApplyMode(st, ModeCommand(name, st.treeState)) == ApplyMode(st, UnguardedModeCommand(name))
  {
  }

  /** Processing never touches progress and keeps the mode/target correspondence. */
  lemma DecisionKeepsProgress(st: AppState, d: Decision)
    ensures ApplyDecision(st, d).progress == st.progress
    ensures TargetMatchesMode(st) ==> TargetMatchesMode(ApplyDecision(st, d))
  {
  }

  /** Coordinates in [0, 1] add up to at most the number of landmarks. */
  lemma {:induction false} SumXInRange(lms: seq<Landmark>)
    requires forall i :: 0 <= i < |lms| ==> 0.0 <= lms[i].x <= 1.0
    ensures 0.0 <= SumX(lms) <= |lms| as real
  {
    if |lms| > 0 {
      var init := lms[..|lms| - 1];
      assert forall i :: 0 <= i < |init| ==> init[i] == lms[i];
      SumXInRange(init);
    }
  }

  lemma {:induction false} SumYInRange(lms: seq<Landmark>)
    requires forall i :: 0 <= i < |lms| ==> 0.0 <= lms[i].y <= 1.0
    ensures 0.0 <= SumY(lms) <= |lms| as real
  {
    if |lms| > 0 {
      var init := lms[..|lms| - 1];
      assert forall i :: 0 <= i < |init| ==> init[i] == lms[i];
      SumYInRange(init);
    }
  }

  lemma MeanInUnitRange(sum: real, n: real)
    requires n > 0.0 && 0.0 <= sum <= n
    ensures 0.0 <= sum / n <= 1.0
  {
  }

  lemma {:induction false} SumOfEqual(lms: seq<Landmark>, c: Vec2)
    requires forall i :: 0 <= i < |lms| ==> lms[i].x == c.x && lms[i].y == c.y
    ensures SumX(lms) == |lms| as real * c.x && SumY(lms) == |lms| as real * c.y
  {
    if |lms| > 0 {
      var init := lms[..|lms| - 1];
      assert forall i :: 0 <= i < |init| ==> init[i] == lms[i];
      SumOfEqual(init, c);
      var n := |init| as real;
      assert n * c.x + c.x == (n + 1.0) * c.x;
      assert n * c.y + c.y == (n + 1.0) * c.y;
    }
  }

  /** The centre is a mean: a hand whose landmarks all sit at one point has that point as its centre. */
  lemma HandCenterOfOnePoint(lms: seq<Landmark>, c: Vec2)
    requires |lms| > 0
    requires forall i :: 0 <= i < |lms| ==> lms[i].x == c.x && lms[i].y == c.y
    ensures HandCenter(lms) == c
  {
    SumOfEqual(lms, c);
  }

  /** The centre of landmarks in the unit square lies in the unit square. */
  lemma HandCenterInUnitSquare(lms: seq<Landmark>)
    requires |lms| > 0
    requires forall i :: 0 <= i < |lms| ==> 0.0 <= lms[i].x <= 1.0 && 0.0 <= lms[i].y <= 1.0
    ensures 0.0 <= HandCenter(lms).x <= 1.0 && 0.0 <= HandCenter(lms).y <= 1.0
  {
    SumXInRange(lms);
    SumYInRange(lms);
    MeanInUnitRange(SumX(lms), |lms| as real);
    MeanInUnitRange(SumY(lms), |lms| as real);
  }

  /** A centre in the unit square maps to an offset in [-1, 1] on each axis; (0.5, 0.5) maps to (0, 0). */
  lemma OffsetInRange(center: Vec2)
    requires 0.0 <= center.x <= 1.0 && 0.0 <= center.y <= 1.0
    ensures -1.0 <= CameraOffsetOf(center).x <= 1.0 && -1.0 <= CameraOffsetOf(center).y <= 1.0
    ensures CameraOffsetOf(Vec2(0.5, 0.5)) == Vec2(0.0, 0.0)
  {
  }

  /** The x axis is mirrored and the y axis is not: moving the hand right moves the offset left. */
  lemma OffsetMirrorsX(a: Vec2, b: Vec2)
    ensures a.x < b.x ==> CameraOffsetOf(a).x > CameraOffsetOf(b).x
    ensures a.y < b.y ==> CameraOffsetOf(a).y < CameraOffsetOf(b).y
  {
  }

  /** A hand whose landmarks lie in the unit square yields an offset in [-1, 1] on each axis. */
  lemma HandOffsetInRange(lms: seq<Landmark>)
    requires |lms| > 0
    requires forall i :: 0 <= i < |lms| ==> 0.0 <= lms[i].x <= 1.0 && 0.0 <= lms[i].y <= 1.0
    ensures var o := CameraOffsetOf(HandCenter(lms)); -1.0 <= o.x <= 1.0 && -1.0 <= o.y <= 1.0
  {
    HandCenterInUnitSquare(lms);
    OffsetInRange(HandCenter(lms));
  }
}
