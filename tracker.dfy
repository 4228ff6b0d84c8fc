/**
 * The lifecycle of the useFaceTracking hook (src/hooks/useFaceTracking.js): the
 * two vision models loading, the camera being started (a stream and a hidden video
 * element per start), the first frame of video arriving, the inference ticks
 * scheduled frame after frame, the camera being stopped and the hook unmounting.
 * Each event is one method; an asynchronous step is split at its `await`, and the
 * outcome of the awaited call (model loaded, permission granted) is a parameter.
 * Camera streams and video elements are named by the number of the start that
 * created them.
 */
module Tracker {
  import opened Optional
  import opened FaceTracking

  const ModelsFailed: string := "Failed to load AI Vision models."
  const ModelsLoading: string := "AI Models still loading..."
  const CameraDenied: string := "Camera access denied."

  /** What handLandmarker.detectForVideo returns: per hand its landmarks and its handedness categories. */
  datatype HandResult = HandResult(landmarks: seq<seq<Landmark>>, handedness: seq<seq<Category>>)

  /** The two detectors, as functions of the video and the timestamp they are given. */
  datatype Detectors = Detectors(face: (nat, real) -> seq<seq<Landmark>>, hand: (nat, real) -> HandResult)

  /** The frame one tick publishes for video v at time now: both detectors see the same timestamp. */
  function TickFrame(det: Detectors, v: nat, now: real): Option<TrackingFrame> {
    var h := det.hand(v, now);
    TrackingFrameOf(det.face(v, now), h.landmarks, h.handedness)
  }

  class FaceTracker {
    /** React state. */
    var isCameraActive: bool
    var error: Option<string>
    var trackingData: Option<TrackingFrame>
    /** videoRef.current: the hidden video element in use, if any. */
    var video: Option<nat>
    /** faceLandmarkerRef.current and handLandmarkerRef.current are set. */
    var faceModel: bool
    var handModel: bool
    /** A requestAnimationFrame callback for the next tick is scheduled. */
    var framePending: bool
    /** Camera streams whose tracks are still running. */
    var liveStreams: set<nat>
    /** Hidden video elements still attached to the document. */
    var mountedVideos: set<nat>
    /** The number the next stream and element will get. */
    var nextId: nat

    /** The elements and streams the hook still holds a reference to. */
    function Held(): set<nat>
      reads this
    {
      if video.Some? then {video.value} else {}
    }

    /** Nothing leaks: every running stream and every attached element is the one videoRef holds. */
    predicate Owned()
      reads this
    {
      liveStreams <= Held() && mountedVideos <= Held()
    }

    /** The hook's first render: camera inactive, no error, no tracking data, nothing loaded or held. */
    constructor ()
      ensures !isCameraActive && error == None && trackingData == None
      ensures video == None && !faceModel && !handModel && !framePending
      ensures liveStreams == {} && mountedVideos == {} && nextId == 0
      ensures Owned()
    {
      isCameraActive, error, trackingData := false, None, None;
      video, faceModel, handModel, framePending := None, false, false, false;
      liveStreams, mountedVideos, nextId := {}, {}, 0;
    }

    /**
     * The mount effect's initVision, once its awaits are over: the face model is loaded
     * first and the hand model only after it; any failure sets the load error.
     */
    method InitVision(faceLoads: bool, handLoads: bool)
      modifies this
      ensures faceModel == (old(faceModel) || faceLoads)
      ensures handModel == (if faceLoads then old(handModel) || handLoads else old(handModel))
      ensures error == (if faceLoads && handLoads then old(error) else Some(ModelsFailed))
      ensures isCameraActive == old(isCameraActive) && trackingData == old(trackingData) && video == old(video)
      ensures framePending == old(framePending) && nextId == old(nextId)
      ensures liveStreams == old(liveStreams) && mountedVideos == old(mountedVideos)
    {
      if !faceLoads {
        error := Some(ModelsFailed);
        return;
      }
      faceModel := true;
      if !handLoads {
        error := Some(ModelsFailed);
        return;
      }
      handModel := true;
    }

    /**
     * startCamera, as written: without both models it only reports that they are still
     * loading; otherwise a granted camera yields a new stream played by a new hidden video
     * element, which replaces videoRef, and a denied one sets the error. Neither makes
     * the camera active: that waits for the video's first data.
     */
    method StartCamera(granted: bool)
      modifies this
      ensures !(old(faceModel) && old(handModel)) ==>
        && error == Some(ModelsLoading)
        && video == old(video) && liveStreams == old(liveStreams) && mountedVideos == old(mountedVideos)
        && nextId == old(nextId)
      ensures old(faceModel) && old(handModel) && granted ==>
        && video == Some(old(nextId)) && nextId == old(nextId) + 1 && error == old(error)
        && liveStreams == old(liveStreams) + {old(nextId)} && mountedVideos == old(mountedVideos) + {old(nextId)}
      ensures old(faceModel) && old(handModel) && !granted ==>
        && error == Some(CameraDenied)
        && video == old(video) && liveStreams == old(liveStreams) && mountedVideos == old(mountedVideos)
        && nextId == old(nextId)
      ensures isCameraActive == old(isCameraActive) && trackingData == old(trackingData)
      ensures faceModel == old(faceModel) && handModel == old(handModel) && framePending == old(framePending)
    {
      if !faceModel || !handModel {
        error := Some(ModelsLoading);
        return;
      }
      if granted {
        var stream := nextId;
        nextId := nextId + 1;
        liveStreams := liveStreams + {stream};
        mountedVideos := mountedVideos + {stream};
        video := Some(stream);
      } else {
        error := Some(CameraDenied);
      }
    }

    /**
     * The evidently intended start: while a camera is held a second start is rejected
     * and changes nothing, so there is never more than one stream to stop.
     */
    method StartCameraExclusive(granted: bool)
      requires Owned()
      modifies this
      ensures Owned()
      ensures old(video).Some? ==>
        && video == old(video) && liveStreams == old(liveStreams) && mountedVideos == old(mountedVideos)
        && error == old(error) && nextId == old(nextId)
      ensures old(video).None? && !(old(faceModel) && old(handModel)) ==>
        && error == Some(ModelsLoading)
        && video == None && liveStreams == old(liveStreams) && mountedVideos == old(mountedVideos)
        && nextId == old(nextId)
      ensures old(video).None? && old(faceModel) && old(handModel) && granted ==>
        && video == Some(old(nextId)) && liveStreams == {old(nextId)} && mountedVideos == {old(nextId)}
        && nextId == old(nextId) + 1 && error == old(error)
      ensures old(video).None? && old(faceModel) && old(handModel) && !granted ==>
        && error == Some(CameraDenied)
        && video == None && liveStreams == old(liveStreams) && mountedVideos == old(mountedVideos)
        && nextId == old(nextId)
      ensures isCameraActive == old(isCameraActive) && trackingData == old(trackingData)
      ensures faceModel == old(faceModel) && handModel == old(handModel) && framePending == old(framePending)
    {
      if video.Some? {
        return;
      }
      StartCamera(granted);
    }

    /** Stop the held stream's tracks and remove its element, forgetting videoRef. */
    method ReleaseVideo()
      modifies this
      ensures video == None
      ensures old(video).Some? ==>
        liveStreams == old(liveStreams) - {old(video).value} && mountedVideos == old(mountedVideos) - {old(video).value}
      ensures old(video).None? ==> liveStreams == old(liveStreams) && mountedVideos == old(mountedVideos)
      ensures isCameraActive == old(isCameraActive) && trackingData == old(trackingData) && error == old(error)
      ensures faceModel == old(faceModel) && handModel == old(handModel) && framePending == old(framePending)
      ensures nextId == old(nextId)
    {
      if video.Some? {
        var v := video.value;
        liveStreams := liveStreams - {v};
        mountedVideos := mountedVideos - {v};
        video := None;
      }
    }

    /**
     * One inference tick (predictWebcam): with a video and both models it runs both
     * detectors on the same timestamp and, unless building the state throws, replaces
     * the tracking data and schedules the next tick; otherwise it does nothing.
     */
    method PredictWebcam(now: real, det: Detectors)
      modifies this
      ensures old(video).Some? && old(faceModel) && old(handModel) && TickFrame(det, old(video).value, now).Some? ==>
        trackingData == TickFrame(det, old(video).value, now) && framePending
      ensures !(old(video).Some? && old(faceModel) && old(handModel) && TickFrame(det, old(video).value, now).Some?) ==>
        trackingData == old(trackingData) && framePending == old(framePending)
      ensures video == old(video) && isCameraActive == old(isCameraActive) && error == old(error)
      ensures faceModel == old(faceModel) && handModel == old(handModel) && nextId == old(nextId)
      ensures liveStreams == old(liveStreams) && mountedVideos == old(mountedVideos)
    {
      if video.Some? && faceModel && handModel {
        var v := video.value;
        var startTimeMs := now;
        var faceResults := det.face(v, startTimeMs);
        var handResults := det.hand(v, startTimeMs);
        var newState := BuildTrackingFrame(faceResults, handResults.landmarks, handResults.handedness);
        if newState.Some? {
          trackingData := newState;
          framePending := true;
        }
      }
    }

    /** The video's first data: the camera becomes active and the first tick runs at once. */
    method OnLoadedData(now: real, det: Detectors)
      modifies this
      ensures isCameraActive
      ensures old(video).Some? && old(faceModel) && old(handModel) && TickFrame(det, old(video).value, now).Some? ==>
        trackingData == TickFrame(det, old(video).value, now) && framePending
      ensures !(old(video).Some? && old(faceModel) && old(handModel) && TickFrame(det, old(video).value, now).Some?) ==>
        trackingData == old(trackingData) && framePending == old(framePending)
      ensures video == old(video) && error == old(error) && nextId == old(nextId)
      ensures faceModel == old(faceModel) && handModel == old(handModel)
      ensures liveStreams == old(liveStreams) && mountedVideos == old(mountedVideos)
    {
      isCameraActive := true;
      PredictWebcam(now, det);
    }

    /** A scheduled animation frame fires: the callback is consumed and the tick runs. */
    method AnimationFrame(now: real, det: Detectors)
      requires framePending
      modifies this
      ensures old(video).Some? && old(faceModel) && old(handModel) && TickFrame(det, old(video).value, now).Some? ==>
        trackingData == TickFrame(det, old(video).value, now) && framePending
      ensures !(old(video).Some? && old(faceModel) && old(handModel) && TickFrame(det, old(video).value, now).Some?) ==>
        trackingData == old(trackingData) && !framePending
      ensures video == old(video) && isCameraActive == old(isCameraActive) && error == old(error)
      ensures faceModel == old(faceModel) && handModel == old(handModel) && nextId == old(nextId)
      ensures liveStreams == old(liveStreams) && mountedVideos == old(mountedVideos)
    {
      framePending := false;
      PredictWebcam(now, det);
    }

    /**
     * stopCamera: safe with no video; stops the held stream and removes its element,
     * cancels the next tick, and always ends inactive with no tracking data.
     */
    method StopCamera()
      modifies this
      ensures video == None && !isCameraActive && trackingData == None && !framePending
      ensures old(video).Some? ==>
        liveStreams == old(liveStreams) - {old(video).value} && mountedVideos == old(mountedVideos) - {old(video).value}
      ensures old(video).None? ==> liveStreams == old(liveStreams) && mountedVideos == old(mountedVideos)
      ensures error == old(error) && faceModel == old(faceModel) && handModel == old(handModel)
      ensures nextId == old(nextId)
      ensures old(Owned()) ==> liveStreams == {} && mountedVideos == {}
    {
      ReleaseVideo();
      framePending := false;
      isCameraActive := false;
      trackingData := None;
    }

    /**
     * The mount effect's cleanup: it stops the held stream's tracks, but leaves the
     * element attached, videoRef and both models in place and the next tick scheduled,
     * so that tick still runs inference on the stopped stream's element.
     */
    method Unmount()
      modifies this
      ensures old(video).Some? ==> liveStreams == old(liveStreams) - {old(video).value}
      ensures old(video).None? ==> liveStreams == old(liveStreams)
      ensures mountedVideos == old(mountedVideos) && framePending == old(framePending) && video == old(video)
      ensures isCameraActive == old(isCameraActive) && error == old(error) && trackingData == old(trackingData)
      ensures faceModel == old(faceModel) && handModel == old(handModel) && nextId == old(nextId)
    {
      if video.Some? {
        liveStreams := liveStreams - {video.value};
      }
    }
  }

  /**
   * As written: models loaded, the camera started twice and then stopped. videoRef is
   * empty, yet the first stream is still running and its element still attached.
   */
  method SecondStartLeaksStream() returns (live: set<nat>, attached: set<nat>, held: Option<nat>, owned: bool)
    ensures held == None && live == {0} && attached == {0} && !owned
  {
    var t := new FaceTracker();
    t.InitVision(true, true);
    t.StartCamera(true);
    t.StartCamera(true);
    assert t.liveStreams == {0, 1} && t.mountedVideos == {0, 1} && t.video == Some(1);
    t.StopCamera();
    assert {0, 1} - {1} == {0};
    live, attached, held := t.liveStreams, t.mountedVideos, t.video;
    owned := t.liveStreams <= t.Held();
  }

  /** The same events with the exclusive start: the second start is rejected, so once stopped no stream runs and no element is attached. */
  method SecondStartReleasesStream() returns (live: set<nat>, attached: set<nat>, held: Option<nat>)
    ensures held == None && live == {} && attached == {}
  {
    var t := new FaceTracker();
    t.InitVision(true, true);
    t.StartCameraExclusive(true);
    t.StartCameraExclusive(true);
    t.StopCamera();
    live, attached, held := t.liveStreams, t.mountedVideos, t.video;
  }
  /**
   * From the caller's side: once both models are loaded and the camera granted, the
   * first loadeddata tick publishes the frame for the new element, and the frame it
   * schedules publishes the next one; a tick whose state building throws stops the loop.
   */
  method LoadedDataStartsLoop(det: Detectors, t0: real, t1: real, t2: real)
      returns (first: Option<TrackingFrame>, second: Option<TrackingFrame>, active: bool, pending: bool)
    requires TickFrame(det, 0, t0).Some? && TickFrame(det, 0, t1).Some? && TickFrame(det, 0, t2).None?
    ensures first == TickFrame(det, 0, t0) && second == TickFrame(det, 0, t1)
    ensures active && !pending
  {
    var t := new FaceTracker();
    t.InitVision(true, true);
    t.StartCamera(true);
    t.OnLoadedData(t0, det);
    first := t.trackingData;
    t.AnimationFrame(t1, det);
    second := t.trackingData;
    t.AnimationFrame(t2, det);
    active, pending := t.isCameraActive, t.framePending;
  }
}
