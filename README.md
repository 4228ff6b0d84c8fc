# Panda mascot, vision tracking and telemetry panels — a Dafny model

This project models the logic behind an interactive 3D panda mascot and the
panels around it:

- **The panda's frame step** (`motion.dfy`, `panda.dfy`). A gait phase comes from the walk position alone. A walking frame drives the legs, arms, spine and hip bob from that phase, blends a wave into the left arm inside a zone, and sets a fur-lag vector. An idle frame eases every driven joint, the hip height and the fur vector toward rest. Every frame eases the head toward a pointer-driven target.
  - `Motion.FrameSpec` is the frame as a pure function, and the properties are proved about it.
  - `PandaRig.Panda` is the rig as mutable state, written in the order the callback writes it. Its `Frame` is proved to produce exactly `FrameSpec`.
- **The entrance** (`entrance.dfy`):
  - the shared walk parameters, and the timeline restart that resets them and tweens them to the centre;
  - the `isMoving` flag;
  - the scene's frame, which mirrors the walk parameters while loading and pins the scene to the centre afterwards.
- **Shell fur** (`shell_fur.dfy`):
  - the shells of a furry mesh;
  - each shell's layer fraction, outward offset, quadratic lag, discard rule and darkening;
  - the material's uniforms and the effect that copies the motion vector into them.
- **Vision tracking** (`tracking.dfy`, `tracker.dfy`).
  - `tracking.dfy`: the head pose and the hand records extracted from landmark lists.
  - `tracker.dfy`: the hook's lifecycle — models loading, camera start, first video data, inference ticks, stop, and unmount.
- **Telemetry panels** (`log_tail.dfy`, `operations.dfy`, `hud.dfy`):
  - the bounded logs, which keep the newest entries and append one;
  - the operations canvas, whose nodes move, bounce and are linked when close;
  - the overlay's rounded scroll percentage and its layout breakpoints.

Supporting modules: `option.dfy` (`Option`), and `three_math.dfy`, which holds:
- linear interpolation;
- the `Vec3` value and a mutable `Vector3`;
- sine and cosine as abstract functions bounded by 1;
- π as a positive constant.

All numbers are mathematical reals. Nothing here models floating point.

In two places the code departs from what it evidently intends. The model follows the code:
- **Wave arm in idle.** The idle step scales the left shoulder's and left elbow's z axes twice, by 0.92² = 0.8464. It does not scale them once like every other axis.
- **Second `startCamera`.** A second start evidently should be rejected with the state unchanged. The code instead opens a second stream (see Findings).

A remark, not a departure: the wave blend is `min(1, (x + 6) / 2)`, with no clamp at 0. It is only used inside the wave zone (x > -6), where it equals the clamped form.

## Model

| member | source | states |
|---|---|---|
| Motion.DrivenAreIdleJoints | src/components/Artifact3D.jsx:253-254 | the joints the idle branch resets are exactly all joints but the hips, neck and head |
| Motion.IdleZFactor | src/components/Artifact3D.jsx:247-258 | an idle frame scales a z axis by a factor in (0, 0.92]; for the left shoulder and left elbow it is 0.8464 |
| Motion.IdlePoseGet | src/components/Artifact3D.jsx:245-258 | each joint of the idle pose is the per-joint idle update of the old joint |
| Motion.WalkFlexesOnly | src/components/Artifact3D.jsx:173-227 | in a walking frame both knees, the right elbow and the non-waving left elbow have x ≤ 0, and the hip height lies in [0, 0.12] |
| Motion.LegsAntiphase | src/components/Artifact3D.jsx:165-180 | when sin(v + π) = -sin v, the right thigh and right ankle are exactly the negation of the left ones |
| Motion.WaveBlendRange | src/components/Artifact3D.jsx:190-200 | the wave zone is x > -6; in it the blend lies in (0, 1]; the blend is 1 for x ≥ -4 and (x + 6)/2 below that |
| Motion.WaveBlendMonotoneLipschitz | src/components/Artifact3D.jsx:200 | the blend never decreases with x and grows at most half as fast as x |
| Motion.WaveShoulderPose | src/components/Artifact3D.jsx:197-221 | for x ≥ -4 the left shoulder is exactly (x = -π/2.5, z = -π/6); in the zone its z is blend·(-π/6); outside the zone both left-arm z rotations are 0 |
| Motion.WalkIndependentOfClock | src/components/Artifact3D.jsx:161-240 | two walking frames at the same position differ at most in the left elbow, and not at all outside the wave zone |
| Motion.StrideRepeats | src/components/Artifact3D.jsx:158-161 | the stride is locked to the position: outside the wave zone, and with sin and cos of period 2π, the walking frame repeats exactly every 2π/2.5 of travel, whatever the clock reads |
| Motion.IdleScales | src/components/Artifact3D.jsx:244-261 | an idle frame scales every x/y axis of the 11 listed joints, and the hip height, by 0.92; the wave arm's z by 0.8464 and other z axes by 0.92; the fur by 0.9; hips and neck are unchanged |
| Motion.IdleContracts | src/components/Artifact3D.jsx:244-260 | an idle frame never increases a rotation magnitude or the hip height, and strictly shrinks every non-zero one it drives |
| Motion.IdleIterJoint | src/components/Artifact3D.jsx:244-260 | over n idle frames each joint evolves on its own |
| Motion.JointIterXY | src/components/Artifact3D.jsx:247-249 | after n idle frames a driven joint's x and y are 0.92ⁿ times their start |
| Motion.JointIterZ | src/components/Artifact3D.jsx:247-258 | after n idle frames a driven joint's z is its own z factor to the n times its start |
| Motion.JointIterFixed | src/components/Artifact3D.jsx:253-254 | idle frames never change the hips, neck or head |
| Motion.IdleIterHip | src/components/Artifact3D.jsx:260 | after n idle frames the hip height is 0.92ⁿ times its start |
| Motion.IdleSettles | src/components/Artifact3D.jsx:244-260 | after n idle frames every axis of a driven joint, and the hip height, is at most 1/(1 + 0.08n) of its start |
| Motion.IdleWithinEpsilon | src/components/Artifact3D.jsx:244-260 | enough idle frames bring each axis (x, y and z) of a driven joint, and the hip height, within any ε of rest: n frames suffice for every value whose start is at most 0.08·n·ε |
| Motion.HeadEases | src/components/Artifact3D.jsx:264-269 | every frame, moving or idle, the head's x and y each cover 10% of the gap to the target, which is (0, 0) while loading and (-0.2·mouse.y, 0.25·mouse.x) after; z is untouched |
| Motion.HipsAndNeckUntouched | src/components/Artifact3D.jsx:163-262 | no frame writes the rotation of the hips or the neck |
| PandaRig.Slot | src/components/Artifact3D.jsx:253-254 | a joint is reset by the idle list exactly when it is driven, at its own slot |
| PandaRig.SlotOfIdleJoint | src/components/Artifact3D.jsx:253-254 | the idle list names every joint at most once |
| PandaRig.Reset | src/components/Artifact3D.jsx:245-251 | `reset` scales each axis by 0.92 |
| PandaRig.IdleAfterReset | src/components/Artifact3D.jsx:253-258 | the forEach of `reset` followed by the second easing of the wave arm's z axes gives the idle pose |
| PandaRig.Panda.constructor | src/components/Artifact3D.jsx:302-394 | a mounted rig has every joint at rest, the hips at 0 and a zero fur vector |
| PandaRig.Panda.ResetJoint | src/components/Artifact3D.jsx:245-251 | `reset` of one joint changes that joint alone |
| PandaRig.Panda.Walk | src/components/Artifact3D.jsx:163-240 | the walking branch leaves the walk pose, the hip bob and the fur lag vector of the gait |
| PandaRig.Panda.ResetIdleJoints | src/components/Artifact3D.jsx:253-254 | the forEach resets exactly the driven joints, once each |
| PandaRig.Panda.Idle | src/components/Artifact3D.jsx:242-262 | the idle branch leaves exactly the idle body of the previous state |
| PandaRig.Panda.Frame | src/components/Artifact3D.jsx:157-270 | one frame callback leaves exactly FrameSpec of the previous state |
| ThreeMath.Vector3.Copy | src/components/Artifact3D.jsx:240 | copy sets the vector to the value given |
| ThreeMath.Vector3.Lerp | src/components/Artifact3D.jsx:261 | lerp moves the vector the given fraction toward the target |
| Entrance.CompletedProp | src/components/Artifact3D.jsx:507-518 | completed tweens leave each property at the target of the last tween on it, and untouched if none names it |
| Entrance.EntranceSettles | src/components/Artifact3D.jsx:503-518 | whatever the start, the completed entrance leaves the walk parameters at (0, 0) |
| Entrance.EntranceSchedule | src/components/Artifact3D.jsx:507-518 | the walk ends at 3.5 s, the turn starts 1.2 s earlier at 2.3 s, and the timeline lasts 3.8 s |
| Entrance.WalkParams.constructor | src/components/Artifact3D.jsx:482 | the walk parameters start at (-50, π/2) |
| Entrance.WalkParams.Restart | src/components/Artifact3D.jsx:493-519 | while loading, the restart resets to (-50, π/2) and schedules the two tweens; otherwise it does nothing |
| Entrance.WalkParams.Finish | src/components/Artifact3D.jsx:507-518 | running the tweens to completion leaves the completed value |
| Entrance.MovingRunsClock | src/components/Artifact3D.jsx:442-471 | at the x a render samples, a walking panda has the clock running; the flag is off while the clock runs exactly for a sample with 0.01 < \|x\| ≤ 0.05 while loading, which only a re-render during loading (such as a resize across the mobile breakpoint) can take; once loading ends neither runs, wherever x is |
| Entrance.EntranceStartsAndStops | src/components/Artifact3D.jsx:471-518 | the render that starts the entrance samples x = -50, so the panda walks through the whole entrance; after the timeline completes and loading ends, the next render stops it wherever x is |
| Entrance.Scene.constructor | src/components/Artifact3D.jsx:483 | the scene starts at the origin with the clock at 0 |
| Entrance.Scene.Frame | src/components/Artifact3D.jsx:441-456 | the clock advances only while loading with \|x\| > 0.01; the transform mirrors the walk parameters while loading and is exactly (0, 0) otherwise |
| Entrance.NoJumpAtHandOff | src/components/Artifact3D.jsx:446-455 | after a completed entrance, a Scene frame while loading and the next one after it both show the centre, so ending the loading phase does not move the scene |
| ShellFur.Shells | src/components/Artifact3D.jsx:120-131 | exactly `count` shells, with layers 0..count-1, all with the same count and thickness |
| ShellFur.ShellsLayerNorms | src/components/Artifact3D.jsx:80 | the shells' layer fractions start at 0, increase strictly and stay below 1 |
| ShellFur.LayerNormRange | src/components/Artifact3D.jsx:80 | a valid layer's fraction lies in [0, 1) |
| ShellFur.OffsetWithinFur | src/components/Artifact3D.jsx:81-84 | a shell's outward offset is between 0 and the thickness, and 0 on the base layer |
| ShellFur.LagShape | src/components/Artifact3D.jsx:88 | the lag coefficient is 0 on the base layer, lies in [0, 0.6] and grows outward |
| ShellFur.BaseShellIsSurface | src/components/Artifact3D.jsx:80-88 | the base shell is the mesh surface, whatever the motion |
| ShellFur.NoLagWithoutMotion | src/components/Artifact3D.jsx:84-88 | with a zero motion vector a shell sits exactly at its normal offset |
| ShellFur.DarkenRange | src/components/Artifact3D.jsx:112 | the darkening lies in [0.4, 1) and grows outward |
| ShellFur.DiscardTapers | src/components/Artifact3D.jsx:105-109 | the base layer never discards, and a fragment discarded at one layer is discarded at every higher layer |
| ShellFur.KeptLayers | src/components/Artifact3D.jsx:109 | a strand survives at layer l of n exactly when l ≤ noise·n |
| ShellFur.ShellFurMaterial.constructor | src/components/Artifact3D.jsx:44-54 | the uniforms take the first props, and the motion uniform is its own vector holding a copy of motionOffset |
| ShellFur.ShellFurMaterial.Rerender | src/components/Artifact3D.jsx:52-54 | a re-render copies the motion vector only when the motionOffset reference differs from the last one |
| ShellFur.ShellFurMaterial.SyncMotion | src/components/Artifact3D.jsx:52-54 | the corrected synchronisation: the uniform takes the current motion vector |
| ShellFur.LagUniformFrozen | src/components/Artifact3D.jsx:52-54 | as written, after a walking frame the shells' motion uniform is still zero while the fur vector is not |
| ShellFur.LagUniformFollows | src/components/Artifact3D.jsx:52-54 | with the corrected synchronisation the uniform equals the non-zero fur vector |
| ShellFur.LagSplits | src/components/Artifact3D.jsx:84-88 | a shell vertex is its motionless position minus the motion vector scaled by the lag coefficient |
| ShellFur.MotionBendsShell | src/components/Artifact3D.jsx:84-88 | on every layer but the base one, a non-zero motion vector moves the vertex off its motionless position |
| ShellFur.LagPositive | src/components/Artifact3D.jsx:88 | every layer outside the base one has a positive lag coefficient |
| FaceTracking.HeadPoseOf | src/hooks/useFaceTracking.js:134-148 | a head pose exists exactly when the face has a landmark 454; otherwise the tick throws |
| FaceTracking.At | src/hooks/useFaceTracking.js:157-158 | reading a landmark gives it when the index is in range and nothing otherwise |
| FaceTracking.ExtractHands | src/hooks/useFaceTracking.js:152-167 | the forEach over hands builds exactly the hand records of HandsOf, or throws on a missing handedness |
| FaceTracking.BuildTrackingFrame | src/hooks/useFaceTracking.js:122-167 | the step-by-step newState is exactly TrackingFrameOf of the detections |
| FaceTracking.HeadPoseTranslationInvariant | src/hooks/useFaceTracking.js:134-142 | moving the whole face across the image leaves the head pose unchanged |
| FaceTracking.HeadPoseCentred | src/hooks/useFaceTracking.js:138-142 | yaw is 0 exactly when the nose is midway between the ears, positive when it is to the right; pitch is 0 exactly when the nose is midway between the top of the head and the chin; roll is 0 exactly when the ears are level |
| FaceTracking.OnlyFirstFace | src/hooks/useFaceTracking.js:125-126 | faces after the first change nothing |
| FaceTracking.HandsInOrder | src/hooks/useFaceTracking.js:152-167 | one record per detected hand, in order: type from handedness[i][0], wrist = landmark 0, indexTip = landmark 8 |
| FaceTracking.HandsFail | src/hooks/useFaceTracking.js:159 | the hand extraction fails exactly when some hand has no handedness category |
| FaceTracking.FrameKeys | src/hooks/useFaceTracking.js:122-167 | a published frame has `head` exactly when a face was found and `hands` exactly when a hand was; with nothing detected it is empty; the tick fails exactly on a short face or an unlabelled hand |
| Tracker.FaceTracker.constructor | src/hooks/useFaceTracking.js:5-13 | the hook starts inactive, with no error, no tracking data, no video and no models |
| Tracker.FaceTracker.InitVision | src/hooks/useFaceTracking.js:17-47 | the hand model loads only after the face model; any load failure sets "Failed to load AI Vision models." |
| Tracker.FaceTracker.StartCamera | src/hooks/useFaceTracking.js:61-91 | with a model missing, only the error "AI Models still loading..." is set. When permission is granted, a new stream and video become videoRef. When denied, only "Camera access denied." is set. The camera never becomes active here |
| Tracker.FaceTracker.StartCameraExclusive | src/hooks/useFaceTracking.js:61-91 | the corrected start rejects a second start and changes nothing, and so keeps every live stream owned. Without a held video it behaves as `startCamera`: "AI Models still loading..." with a model missing, a new stream and element when granted, "Camera access denied." when denied |
| Tracker.FaceTracker.ReleaseVideo | src/hooks/useFaceTracking.js:94-102 | the held stream is stopped and its element removed, and videoRef is cleared |
| Tracker.FaceTracker.PredictWebcam | src/hooks/useFaceTracking.js:110-172 | a tick runs only with a video and both models. It gives both detectors the same timestamp. Only when the frame builds does it replace the tracking data and schedule the next tick |
| Tracker.FaceTracker.OnLoadedData | src/hooks/useFaceTracking.js:83-86 | the first video data makes the camera active and runs the first tick. When the video and both models were present before the event and the frame builds, the tracking data becomes that frame and a tick is scheduled; the video, models and streams are unchanged |
| Tracker.FaceTracker.AnimationFrame | src/hooks/useFaceTracking.js:170 | a scheduled frame is consumed and runs a tick. When the video and both models were present and the frame builds, it publishes the frame and schedules the next one; otherwise the loop ends. Nothing else changes |
| Tracker.LoadedDataStartsLoop | src/hooks/useFaceTracking.js:83-172 | after loading both models and a granted start, loadeddata publishes the first frame and the camera is active; the scheduled frame publishes the next; a tick whose frame fails to build leaves nothing scheduled |
| Tracker.FaceTracker.StopCamera | src/hooks/useFaceTracking.js:93-108 | stop works with or without a video. It always ends inactive, with no tracking data, no video and no pending tick. With one stream it releases everything |
| Tracker.FaceTracker.Unmount | src/hooks/useFaceTracking.js:52-58 | the cleanup stops the held stream's tracks, but leaves its element attached, videoRef, the models and the tracking data in place and the next tick scheduled |
| Tracker.SecondStartLeaksStream | src/hooks/useFaceTracking.js:68-81 | as written: start, start, stop leaves the first stream running and its element attached with videoRef empty |
| Tracker.SecondStartReleasesStream | src/hooks/useFaceTracking.js:68-81 | with the corrected start the same events leave no stream running and no element attached |
| LogTail.Append | src/components/OperationsSection.jsx:42 | a tick keeps the newest `keep` entries in order and appends the message last, so the log has at most keep + 1 entries |
| LogTail.WindowStep | src/components/OperationsSection.jsx:42 | a tick on a full window is the window of the extended sequence |
| LogTail.AppendAllWindow | src/components/OperationsSection.jsx:42 | after any ticks the log is exactly the last keep + 1 entries of the initial log followed by all messages |
| LogTail.LogLength | src/components/OperationsSection.jsx:42 | after n ticks the log holds min(initial + n, keep + 1) entries, the newest message last |
| Operations.LogTick | src/components/OperationsSection.jsx:33-43 | a tick yields at most 6 entries, the last one of the six messages, after all the old entries when there were at most 5 and after the newest 5 of them otherwise |
| Operations.Picked | src/components/OperationsSection.jsx:34-42 | every picked message is one of the six |
| Operations.LogWindow | src/components/OperationsSection.jsx:12-42 | the log starts with 3 entries and after n ticks is the last 6 of the initial log and the picks, so it holds min(3 + n, 6) |
| Operations.Spread | src/components/OperationsSection.jsx:60-61 | a random point on a side lies in [0, size) |
| Operations.Spawn | src/components/OperationsSection.jsx:59-65 | a new node lies on the canvas (800 by 400 without a size), with velocity components in [-0.25, 0.25) and radius in [1, 3) |
| Operations.CreateNodes | src/components/OperationsSection.jsx:59-65 | exactly 15 nodes, one per draw |
| Operations.Bounce | src/components/OperationsSection.jsx:74-78 | a node moves by its velocity; the bounce keeps speed magnitudes, and a non-zero component is reversed exactly when the moved coordinate is off the canvas |
| Operations.Animate | src/components/OperationsSection.jsx:73-95 | one frame moves and bounces every node in place; the node count never changes; a link i–j (i < j) is drawn exactly when the moved node i and the unmoved node j are closer than 200, in index order |
| Operations.LinksFrom | src/components/OperationsSection.jsx:85-94 | the inner loop finds exactly the later nodes closer than 200 to the moved node, in increasing order |
| Operations.TrappedOutside | src/components/OperationsSection.jsx:77-78 | as written, a node beyond the right edge by more than one step is back at the same x with the same vx every other frame, forever |
| Operations.BounceInward | src/components/OperationsSection.jsx:77-78 | with the corrected bounce a node off the canvas always heads back, keeps its speed, and right of the canvas gets nearer; the rule as written fails this for a node at 700 on a 500-wide canvas |
| Hud.Message | src/components/HUDOverlay.jsx:21-29 | the first message is the slice prefix and the random suffix; the others are the five fixed messages |
| Hud.LogTick | src/components/HUDOverlay.jsx:29 | a tick keeps the newest 4 entries in order and appends the message last |
| Hud.LogWindow | src/components/HUDOverlay.jsx:9-29 | the log starts with 3 entries and after n ticks is the last 5 of the initial log and the messages, so it holds min(3 + n, 5) |
| Hud.Round | src/components/HUDOverlay.jsx:17 | Math.round gives the nearest integer, with halves rounded up |
| Hud.ScrollPercent | src/components/HUDOverlay.jsx:14-17 | the value is finite exactly when the height is non-zero, and then is the rounded percentage; with zero height it is NaN at the top and an infinity otherwise |
| Hud.ScrollRange | src/components/HUDOverlay.jsx:14-17 | on a page that scrolls, any position within it shows 0..100, 0 at the top and 100 at the bottom |
| Hud.ScrollMonotone | src/components/HUDOverlay.jsx:14-17 | scrolling further never shows a smaller percentage |
| Hud.NavDisplay | src/components/HUDOverlay.jsx:63 | the navigation links show exactly at width ≥ 1024 |
| Hud.Breakpoints | src/components/HUDOverlay.jsx:63-125 | where the links show, the border shows; between 769 and 1023 only the border shows |

## Left out

- Rendering. The Three.js and React Three Fiber scene graph, materials, lights, camera, presentation controls and float are not modelled. Neither are the particles, the eyes, the GLSL string patching and the colour uniform of the shell material. Only the layer math and which links the canvas draws are modelled.
- The strand noise of the fur shader is an input, not the hash of the texture coordinate.
- Trigonometry. `Math.sin` and `Math.cos` are any pair of functions bounded by 1, and π is a positive constant. `Motion.LegsAntiphase` also assumes sin(v + π) = -sin v, and `Motion.StrideRepeats` assumes that both have period 2π.
- Floating point. Every quantity is a real, so there is no rounding, overflow, NaN or infinity. The one exception is the scroll percentage, whose division by zero is modelled.
- `Math.hypot(dx, dy) < 200` is modelled as dx² + dy² < 40000, which is the same comparison over the reals.
- GSAP. Easing curves, intermediate tween values, the `onComplete` callback and the context's `revert` on cleanup are not modelled. A tween is modelled by its property, target, duration and position, and a timeline by its completed value and end time.
- Timers, clocks and randomness are parameters:
  - the elapsed time of the wave;
  - `performance.now()`;
  - the 3- and 4-second log intervals;
  - the random message pick and its random suffix;
  - the random starting values of the nodes.
- The HUD's clock display, which sets the time every second, is not modelled.
- MediaPipe and the browser.
  - Model loading, `getUserMedia`, the video element and `requestAnimationFrame`/`cancelAnimationFrame` become events whose outcome is a parameter.
  - A stream and its video element are named by a number.
  - The detectors are functions of the video and the timestamp.
  - Each asynchronous step is one atomic event. Interleavings inside an `await`, such as two starts both waiting for permission, are not modelled.
- A JavaScript TypeError inside a tick is a failed result: no tracking update and no next tick. This happens when a face has no landmark 454, or when a hand has no handedness category.
- Every `ref.current` guard is taken to hold: the rig, canvas and scene are mounted. The canvas guard `if (!canvas || !c) return` is not modelled.
- `PandaRig.Panda` holds the fourteen joint rotations as one pose value rather than fourteen objects. This is sound because the refs point at distinct bones. Aliasing between joints is therefore not modelled.
- `isWavingRef` (a render-time value that nothing reads) and the window-resize handlers are not modelled. The canvas size is a parameter of each frame.
- `Entrance.MovingRunsClock`, `Entrance.EntranceStartsAndStops`: `isMoving` is evaluated only when the Scene renders, and the Panda keeps it between renders. The model states the flag at a render's sample of x and does not model which renders happen during loading. Nothing in the program re-renders the Scene during the entrance, except a change of the mobile flag on resize.
- `Tracker.FaceTracker`: one `framePending` flag stands for the pending `requestAnimationFrame`. After two starts, each video element's `onloadeddata` starts its own tick loop, and both loops tick `videoRef`. `requestRef` keeps only the latest request, so `stopCamera` cancels one of them. The model has one pending tick, so it does not model the doubled tick rate or the surviving loop's last tick, which finds `videoRef` empty and stops.
- The HUD's `document.body.scrollTop || document.documentElement.scrollTop` fallback is not modelled; the scroll offset is a parameter of `Hud.ScrollPercent`.
- `Operations.LogTick`, `Hud.LogTick`: the message pick is floor(random · 6). It is taken as an index below 6, as `Math.random()` in [0, 1) guarantees.
- `Operations.CreateNodes`: the five random draws of a node are taken in [0, 1), as `Math.random()` guarantees.

## Findings

| source | as written | input that shows it | evidently intended | confidence | as-written member | corrected member |
|---|---|---|---|---|---|---|
| src/components/Artifact3D.jsx:52-54 | The shell material copies `motionOffset` into its own uniform vector only when the prop's reference changes. The panda passes the same fur vector object on every render and mutates it in place, so the uniform keeps its mount-time value (zero). | A walking frame at stride phase π/2 (left cycle 1, bob -1) sets the fur vector to (0.05, -0.03, 0), and the panda re-renders with the same object. The shells' uniform stays (0, 0, 0). | The shells trail the motion: each frame the uniform takes the current fur vector, so outer shells lag by 0.6·layerNorm² of it. | high; not executed | ShellFur.LagUniformFrozen | ShellFur.LagUniformFollows |
| src/hooks/useFaceTracking.js:61-91 | `startCamera` does not check for a running camera. A second call opens a second stream and video element and overwrites `videoRef`, so `stopCamera` and the unmount cleanup only reach the second one. | Models loaded: `startCamera()` granted, `startCamera()` granted, then `stopCamera()`. Stream 0 is still running and its element is still attached, while `videoRef` is empty. | A second start is rejected and changes nothing, so stopping releases the only stream. | medium; not executed | Tracker.SecondStartLeaksStream | Tracker.FaceTracker.StartCameraExclusive |
| src/components/OperationsSection.jsx:77-78 | A velocity component is reversed whenever the moved coordinate is off the canvas, even when the node is already heading back. | Canvas 500 wide, node at x = 700 with vx = -0.25. After a frame it is at 699.75 with vx = +0.25, and two frames later it is back at 700 with vx = -0.25. This repeats for ever; a shrinking resize produces such a node. | Reverse only a component that points away from the canvas, so a node outside comes back. | medium; not executed | Operations.TrappedOutside | Operations.BounceInward |
