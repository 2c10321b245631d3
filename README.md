# Christmas tree animation core, in Dafny

This project models the animation and state core of an interactive 3D Christmas tree.
The tree is a cloud of foliage particles, ornaments, photo cards and a star. It morphs
between a FORMED shape (everything on a cone) and a CHAOS shape (everything scattered in
a sphere). A hand-gesture recognizer switches between the two, and the hand position
steers the camera.

The model has one module per source file:

- `Store` (`store.dfy`). The global store is a class `AppStore` with the fields:
  - `treeState`, the mode;
  - `targetProgress`, the progress the mode drives;
  - `progress`, the smoothed progress;
  - `cameraOffset`.

  Each action is a method that modifies the store. Its `ensures` ties the new state to a
  transition function on `AppState` values, and the properties are proved about those
  functions. `tick` is one step of exponential smoothing. The step fraction is
  min(1, 2.5·delta). The write happens only when it moves progress by more than 1e-4.
- `GestureControl` (`gesture_control.dfy`). From one recognizer result it computes:
  - the hand centre, the mean of the first hand's landmarks;
  - the mirrored affine map from that centre to a camera offset;
  - the guarded mode change asked for by the first gesture candidate.

  `ProcessResults` makes the store calls in the order the code makes them.
- `Scene` (`scene.dfy`). The camera rig closes 2% of the gap to a target derived from
  the offset, once per frame. The animation driver ticks the store once per frame.
- `Ornaments`, `Polaroids`, `TreeStar` and `Foliage`. These contain:
  - the generators, as loops over the element index;
  - the pose each frame writes: a weighted interpolation between a tree point and a chaos
    point, tilt amplification, the star's height and scale interpolations;
  - the stride-3 packing of the particle buffers;
  - the hue arithmetic of the photo placeholders.
- `Numeric` and `Geometry`. These hold the shared reals and vectors:
  - `Lerp` is a + (b − a)·t, the form of `Vector3.lerpVectors` and of the two smoothing
    steps;
  - `Mix` is x·(1 − a) + y·a, the form of GLSL `mix` and `MathUtils.lerp`;
  - the sphere sampler is shared by three generators.

Each `Math.random()` call becomes an input in [0, 1). The draws of one generated element
are grouped in a datatype, in the order the code draws them. `Math.sin`, `cos`, `acos`,
`cbrt` and `atan2` are fields of a `MathLib` value passed in as a parameter. Their values
are unknown. The predicates `SinCosBounded`, `Pythagorean` and `CbrtOfUnit` state the
facts that some properties require.

Where the code and its documentation disagree, the model follows the code.

- `setTargetProgress` writes any real. So the correspondence between target and mode
  holds after every action except that one; it does not hold "at all times".
- `tick` skips the write when the *change* is at most 1e-4, not when progress is within
  1e-4 of the target. At delta d, progress therefore stops moving as much as 1e-4/(2.5·d)
  short of the target: about 0.0024 at 60 frames per second.
  `TwoHundredTicksConverge` proves how close progress still gets at 10 frames per second.
- Photo-card data carry a generated base yaw (src/components/Polaroids.tsx:41-45), but the
  frame pose never reads it: the yaw is recomputed from the card's current position.

## Model

| member | source | states |
|---|---|---|
| `Store.AppStore.constructor` | src/store/useAppStore.ts:19-22 | the store starts as `Initial`: FORMED, progress 0, target 0, offset (0, 0) |
| `Store.AppStore.SetTreeState` | src/store/useAppStore.ts:24 | the new state is the old one with the mode and its target set |
| `Store.AppStore.SetTargetProgress` | src/store/useAppStore.ts:25 | the new state is the old one with only the target replaced |
| `Store.AppStore.SetCameraOffset` | src/store/useAppStore.ts:26 | the new state is the old one with only the offset replaced, unclamped |
| `Store.AppStore.Tick` | src/store/useAppStore.ts:28-35 | the new state is `Ticked` of the old state: one guarded smoothing step |
| `Store.ModeTarget` | src/store/useAppStore.ts:24 | the target is 1 exactly for CHAOS and 0 exactly for FORMED |
| `Store.StepFraction` | src/store/useAppStore.ts:30-31 | the fraction is at most 1; it is 1 exactly when delta ≥ 0.4; it is positive for positive delta and 0 for delta 0 |
| `Store.Ticked` | src/store/useAppStore.ts:28-35 | a tick never changes the mode, the target or the offset |
| `Store.InitialState` | src/store/useAppStore.ts:19-22 | the initial state has its target matching its mode, and progress and target in [0, 1] |
| `Store.WithTreeStateSpec` | src/store/useAppStore.ts:24 | setting the mode sets the matching target, leaves progress and offset unchanged, and is idempotent |
| `Store.WithTreeStateSameMode` | src/store/useAppStore.ts:24 | re-setting the current mode changes nothing while the target matches the mode |
| `Store.WithCameraOffsetSpec` | src/store/useAppStore.ts:26 | the offset is stored as given, nothing else changes, and the target/mode correspondence is kept |
| `Store.WithTargetProgressSpec` | src/store/useAppStore.ts:24-25 | writing the target changes nothing else, and keeps the target/mode correspondence iff the value is the mode's target |
| `Store.TickWritesIff` | src/store/useAppStore.ts:28-35 | progress changes iff the step moves it by more than 1e-4, and then to the smoothed value; delta 0 changes nothing; the target/mode correspondence is kept |
| `Store.TickNoOvershoot` | src/store/useAppStore.ts:29-33 | for delta ≥ 0 the new progress lies between the old progress and the target |
| `Store.TickKeepsUnitRange` | src/store/useAppStore.ts:29-33 | for delta ≥ 0, progress and target in [0, 1] stay in [0, 1] |
| `Store.TickGap` | src/store/useAppStore.ts:30-33 | a written tick leaves (1 − f) of the gap; the gap never grows, and it shrinks strictly whenever progress moves |
| `Store.TickLargeDeltaLands` | src/store/useAppStore.ts:30-33 | for delta ≥ 0.4 progress lands on the target, unless the gap is at most 1e-4 and nothing is written |
| `Store.TenthSecondTick` | src/store/useAppStore.ts:28-35 | one tick of 0.1 s takes a gap of at most max(0.75^k, 4e-4) to at most max(0.75^(k+1), 4e-4): either it shrinks by 0.75 or the guard refuses the write, which needs a gap of at most 4e-4 |
| `Store.TenthSecondTicksGap` | src/store/useAppStore.ts:28-35 | after n ticks of 0.1 s the gap is at most max(0.75^(k+n), 4e-4) when it started at most max(0.75^k, 4e-4) |
| `Store.TwoHundredTicksConverge` | src/store/useAppStore.ts:28-35 | starting from progress 0 and target 1, 200 ticks of 0.1 s bring progress above 0.999 |
| `GestureControl.ProcessResults` | src/components/GestureControl.tsx:18-60 | with no canvas or context the store is untouched; otherwise it gets exactly the offset and mode writes `Decide` prescribes, and the call throws exactly when the first hand's candidate list is empty |
| `GestureControl.NoHandNoChange` | src/components/GestureControl.tsx:27 | with no landmarks no setter is called and the state is unchanged |
| `GestureControl.OffsetSetWheneverHand` | src/components/GestureControl.tsx:43-49 | with a hand, the decision carries the offset from its centre whatever gesture, if any, is recognized, and applying it to any store state stores that offset |
| `GestureControl.ModeRules` | src/components/GestureControl.tsx:49-56 | Open_Palm asks for CHAOS unless already CHAOS; Closed_Fist asks for FORMED unless already FORMED; any other label asks for nothing |
| `GestureControl.OnlyTopCandidateCounts` | src/components/GestureControl.tsx:50 | two results that agree on the first hand's landmarks and on the name of its first candidate lead to the same decision |
| `GestureControl.MissingGestures` | src/components/GestureControl.tsx:49-50 | no gesture list: no mode change and no exception; otherwise the call throws iff the first hand's candidate list is empty |
| `GestureControl.GuardedEqualsUnguarded` | src/components/GestureControl.tsx:51-54 | while the target matches the mode, the guarded mode change leaves the same state as an unguarded `setTreeState` |
| `GestureControl.DecisionKeepsProgress` | src/components/GestureControl.tsx:43-56 | processing never touches progress and keeps the target/mode correspondence |
| `GestureControl.SumXInRange` | src/components/GestureControl.tsx:39 | x coordinates in [0, 1] add up to between 0 and the number of landmarks |
| `GestureControl.SumYInRange` | src/components/GestureControl.tsx:40 | y coordinates in [0, 1] add up to between 0 and the number of landmarks |
| `GestureControl.HandCenterOfOnePoint` | src/components/GestureControl.tsx:39-40 | the centre is a mean: landmarks all at one point have that point as centre |
| `GestureControl.HandCenterInUnitSquare` | src/components/GestureControl.tsx:39-40 | landmarks in the unit square have their centre in the unit square |
| `GestureControl.OffsetInRange` | src/components/GestureControl.tsx:43-46 | a centre in the unit square maps to an offset in [−1, 1]², and (0.5, 0.5) maps to (0, 0) |
| `GestureControl.OffsetMirrorsX` | src/components/GestureControl.tsx:44-45 | moving the hand right moves the x offset left; moving it down moves the y offset up |
| `GestureControl.HandOffsetInRange` | src/components/GestureControl.tsx:39-46 | a hand inside the unit square yields an offset in [−1, 1]² |
| `Scene.Camera.constructor` | src/components/Scene.tsx:34 | the camera starts at (0, 4, 20) |
| `Scene.CameraRigFrame` | src/components/Scene.tsx:19-24 | x and y each take one rig step toward 5·offset.x and 4 + 3·offset.y; z is unchanged |
| `Scene.AnimationDriverFrame` | src/components/Scene.tsx:9-13 | each frame the store takes exactly one tick with that frame's delta |
| `Scene.RigStepSpec` | src/components/Scene.tsx:21-22 | a step leaves 0.98 of the gap, lands between the old coordinate and the target, and keeps a camera at its target there |
| `Scene.RigStepsGap` | src/components/Scene.tsx:21-22 | after n frames toward a fixed target the gap is 0.98^n of the initial gap |
| `Scene.RigTargetBounds` | src/components/Scene.tsx:21-22 | offsets in [−1, 1] give targets with x in [−5, 5] and y in [1, 7]; a zero offset aims at (0, 4) |
| `Ornaments.FloorIndex` | src/components/Ornaments.tsx:31-33 | floor(u·n) for u in [0, 1) is a valid index below n |
| `Ornaments.ScaleFactor` | src/components/Ornaments.tsx:58 | the random size factor lies in [0.8, 1.2) |
| `Ornaments.GenerateOrnaments` | src/components/Ornaments.tsx:27-65 | exactly 120 records come back, record i built from index i and the i-th draws |
| `Ornaments.OfKind` | src/components/Ornaments.tsx:70 | a filtered list is no longer than the input and holds only ornaments of its kind |
| `Ornaments.RenderKind` | src/components/Ornaments.tsx:67-164 | mesh slot i of a kind gets the pose of the i-th ornament of that kind |
| `Ornaments.HeightSpec` | src/components/Ornaments.tsx:36-37 | heights are 1.5 + 7i/120, lie in [1.5, 8.5) and increase strictly with i |
| `Ornaments.RadiusSpec` | src/components/Ornaments.tsx:38-39 | radii are positive, at most 2.55 and decrease strictly with i; the angle is 0.5·i |
| `Ornaments.TypeDraw` | src/components/Ornaments.tsx:31-32 | draws below 1/3 pick balls, from 1/3 to 2/3 gifts, above 2/3 lights |
| `Ornaments.OrnamentAtSpec` | src/components/Ornaments.tsx:31-60 | a record has its type's kind, weight (ball 0.5, gift 1.5, light 0.2) and one of its colours; its scale is within [0.8, 1.2) of the kind's base size (light 0.08, gift 0.25, ball 0.15) |
| `Ornaments.OrnamentChaosInSphere` | src/components/Ornaments.tsx:44-56 | every chaos point lies in the ball of radius 10 around (0, 4, 0) |
| `Ornaments.OfKindAppend` | src/components/Ornaments.tsx:70 | filtering a concatenation concatenates the filtered parts |
| `Ornaments.KindsPartition` | src/components/Ornaments.tsx:70-135 | the ball, gift and light lists together hold each ornament exactly as often as the input (multiset equality) |
| `Ornaments.KindsPartitionSizes` | src/components/Ornaments.tsx:70-135 | the sizes of the ball, gift and light lists add up to the number of ornaments |
| `Ornaments.SlotOf` | src/components/Ornaments.tsx:70-85 | every ornament j sits in its kind's list at the slot counting the same-kind ornaments before it (slot 0 for the first of its kind) |
| `Ornaments.SlotOrder` | src/components/Ornaments.tsx:70-85 | a kind's list keeps input order: of two same-kind ornaments, the earlier one sits at the earlier slot |
| `Ornaments.PoseAtRest` | src/components/Ornaments.tsx:76-80 | at progress 0 every ornament is on its tree point |
| `Ornaments.PoseBetween` | src/components/Ornaments.tsx:76-80 | for weight and progress in [0, 1] the pose lies between the tree point and the chaos point on every axis |
| `Ornaments.GiftOvershoots` | src/components/Ornaments.tsx:108-112 | with weight 1.5 and progress above 2/3, a gift passes its chaos point on every axis where the two points differ |
| `Ornaments.GiftYaw` | src/components/Ornaments.tsx:114 | a gift's yaw is 0.5·elapsed + i, and its pose apart from position does not depend on progress |
| `Ornaments.LightPulseBounds` | src/components/Ornaments.tsx:148-149 | given sine's range, a light's scale stays in [0.7·scale, 1.3·scale] |
| `Polaroids.GeneratePolaroids` | src/components/Polaroids.tsx:18-51 | exactly 12 records come back, record i built from index i and showing picture i |
| `Polaroids.PolaroidGroup.constructor` | src/components/Polaroids.tsx:56 | the interpolated position starts as the tree point |
| `Polaroids.PolaroidGroup.Frame` | src/components/Polaroids.tsx:58-67 | the interpolated position and the group position become the frame pose; the rotation becomes the amplified tilts and the spun yaw |
| `Polaroids.Hue` | src/components/Polaroids.tsx:77 | the hue lies in [0, 360) |
| `Polaroids.SecondHue` | src/components/Polaroids.tsx:80 | the second stop's hue lies in [0, 360) |
| `Polaroids.LayoutSpec` | src/components/Polaroids.tsx:22-24 | t lies in (0, 1); heights lie in (2, 7) and rise with i; radii lie in (0.99, 3.3) and shrink with i |
| `Polaroids.AngleSpec` | src/components/Polaroids.tsx:25-43 | neighbouring cards are π/6 apart from π/6 on, and the base yaw is the angle plus π |
| `Polaroids.BaseTiltBounds` | src/components/Polaroids.tsx:41-45 | the base pitch lies in [−0.15, 0.15) and the base roll in [−0.1, 0.1) |
| `Polaroids.PolaroidAtSpec` | src/components/Polaroids.tsx:34-47 | record i shows picture i, sits at the i-th height and carries the generated tilt |
| `Polaroids.PositionSpec` | src/components/Polaroids.tsx:59 | for progress in [0, 1] the factor is at most 0.7; the card is on its tree point at 0; it stays between its two points and keeps at least 30% of the way to the chaos point |
| `Polaroids.PitchSpec` | src/components/Polaroids.tsx:65 | the pitch equals the generated one at progress 0, keeps its sign, and stays within 0.3 for progress in [0, 1] |
| `Polaroids.RollSpec` | src/components/Polaroids.tsx:66 | the roll equals the generated one at progress 0, keeps its sign, and stays within 0.3 for progress in [0, 1] |
| `Polaroids.YawSpec` | src/components/Polaroids.tsx:63-64 | the yaw is the outward facing angle plus exactly 2π·progress, and the generated yaw does not affect the pose |
| `Polaroids.HueSpec` | src/components/Polaroids.tsx:77-80 | each of the twelve cards i has hue 30·i and second stop (30·i + 60) mod 360 |
| `Polaroids.HuesDistinct` | src/components/Polaroids.tsx:77 | two different cards of the twelve never share a hue |
| `Polaroids.HuePeriod` | src/components/Polaroids.tsx:77 | hues repeat every 12 pictures |
| `TreeStar.StarGroup.constructor` | src/components/TreeStar.tsx:26 | the star starts at (0, 9.2, 0) |
| `TreeStar.StarGroup.Frame` | src/components/TreeStar.tsx:15-23 | only the height, the yaw and a uniform scale are written; x and z keep their values |
| `TreeStar.Endpoints` | src/components/TreeStar.tsx:12-13 | the star moves between 9.2 and 12, and at progress 0 it sits at 9.2 with scale 1 |
| `TreeStar.StarYSpec` | src/components/TreeStar.tsx:16 | the height is 9.2 + 1.4·p, within [9.2, 10.6] for p in [0, 1], so it never reaches 12 |
| `TreeStar.StarScaleSpec` | src/components/TreeStar.tsx:21-22 | the scale is 1 − 0.5·p, within [0.5, 1] for p in [0, 1], and never grows with progress |
| `Foliage.Jitter` | src/components/Foliage.tsx:17-18 | a jitter factor lies in [0.7, 1.3) |
| `Foliage.ParticleSize` | src/components/Foliage.tsx:82 | a particle size lies in [0.02, 0.05) |
| `Foliage.SlotsCover` | src/components/Foliage.tsx:73-80 | in a packed stride-3 buffer, slot n holds coordinate n mod 3 of element n div 3 |
| `Foliage.Flatten` | src/components/Foliage.tsx:73-80 | the stride-3 layout of N points has length 3N |
| `Foliage.FlattenSlots` | src/components/Foliage.tsx:73-80 | triple i of the stride-3 layout holds point i |
| `Foliage.FlattenComponents` | src/components/Foliage.tsx:73-80 | slot n of the stride-3 layout holds coordinate n mod 3 of point n div 3 |
| `Foliage.WriteTriple` | src/components/Foliage.tsx:73-75 | one element's three coordinates are appended to the written prefix at slots 3i..3i+2, and the later slots are untouched |
| `Foliage.PackParticles` | src/components/Foliage.tsx:71-83 | the two position buffers are exactly the stride-3 layouts of the cone and chaos points, and the size buffer is exactly the sizes |
| `Foliage.FillBuffers` | src/components/Foliage.tsx:66-86 | the 15000 particles' cone points, chaos points and sizes sit at stride 3, 3 and 1, each particle from its own draws |
| `Foliage.ShaderUniforms.constructor` | src/components/Foliage.tsx:115 | `uProgress` starts at 0 |
| `Foliage.FoliageFrame` | src/components/Foliage.tsx:88-92 | the uniform takes the store's progress whenever the material exists |
| `Foliage.FractionSpec` | src/components/Foliage.tsx:13 | i/N lies in [0, 1) and increases strictly with i |
| `Foliage.ConeHeightSpec` | src/components/Foliage.tsx:13-14 | heights lie in [1, 9) and increase strictly with i |
| `Foliage.ConeRadiusSpec` | src/components/Foliage.tsx:15-16 | radii lie in (0.15, 3] and decrease strictly with i; the angle is 2.399963·i |
| `Foliage.JitterIndependent` | src/components/Foliage.tsx:17-18 | x and z each depend only on their own jitter draw; y on neither |
| `Foliage.FoliageChaosSpec` | src/components/Foliage.tsx:23-32 | the chaos radial distance is at most 12, y is offset by +4, and every point lies in the ball of radius 12 around (0, 4, 0) |
| `Geometry.ChaosRadialDistance` | src/components/Foliage.tsx:26 | the radial distance radius·cbrt(u) lies in [0, radius] |
| `Geometry.ChaosInSphere` | src/components/Foliage.tsx:23-32 | given sin² + cos² = 1, the sampled point lies in the ball of that radius around (0, 4, 0) |
| `Foliage.VertexPositionSpec` | src/components/Foliage.tsx:41 | the blend uses raw progress: the formed point at 0, the chaos point at 1, and a linear interpolation in between |
| `Foliage.BrightnessBounds` | src/components/Foliage.tsx:45 | given sine's range, brightness lies in [0, 1] |

## Left out

- User interface, scene composition and rendering are not part of this model. That covers the application shell, the tree group, the post-processing effects, meshes, materials, lights, `camera.lookAt` and the fog.
- `OrbitControls` (src/components/Scene.tsx:35-41) is a library component and is not modelled: its polar-angle clamp to [π/4, π/2], its orbit target (0, 3, 0) and its pan and zoom locks also constrain the camera the rig moves, and the model's camera does not include that clamping.
- MediaPipe setup, camera access, video playback, the polling loop and cleanup are not modelled. They are input/output and asynchronous foreign calls.
- Landmark drawing and the random circles in the card placeholders are not modelled. They use the browser canvas; only the hue arithmetic is modelled.
- The fragment shader, the point-size projection and the three.js matrix writes are not modelled. The last are `updateMatrix`, `setMatrixAt` and `needsUpdate`. The model keeps only the position, rotation, scale and colour values written into each slot.
- Floating point is not modelled. All numbers are unbounded reals: no IEEE rounding, no Float32Array narrowing, no NaN or infinities.
- The values of sin, cos, acos, cbrt and atan2 are unknown to the model. They enter only through `MathLib`, with the bounds stated where a property needs them.
- Randomness is not modelled. Every `Math.random()` result is a given input in [0, 1), and no distribution is claimed.
- Zustand re-rendering and subscriptions are not modelled, and neither is the interleaving of the gesture loop with the render loop. Store actions are sequential method calls.
- Components receive `progress` and `cameraOffset` as parameters, standing for the value captured at their last render.
- `GestureControl.ProcessResults` reads the mode from the store when it is called. In the code, the callback reads the `treeState` captured when it was last created.
- `GestureControl.ProcessResults` requires the first hand's landmark list to be non-empty. The code's centre is then 0/0 = NaN, which the reals cannot express.
- A missing `landmarks` or `gestures` field of the result is treated as an empty list, as the code's guards treat both the same way.
- `Foliage.ConePosition` requires a positive total. The code calls it only with 15000 and would divide by zero otherwise.
- `Foliage.FillBuffers` computes the three per-particle sequences first, then packs them in one loop (`PackParticles`). The code computes and writes inside the same loop. The buffer contents are the same, because the draws are inputs.
- `Store.TenthSecondTicksGap`: the convergence of repeated ticks is proved only for the fixed delta of 0.1 s, not for arbitrary deltas.
- `Scene.RigStepsGap`: only the geometric gap is proved, per axis, for a fixed offset.
- Constants are exact reals: `Math.PI` is the double 3.141592653589793 taken as a rational, and the shader's 3.14159 is kept as written.
- The card placeholder's canvas texture and its caching by picture index are not modelled. Only the hue values are.
