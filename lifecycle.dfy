/**
 The effect of EmotionDetector.jsx (lines 73-156) as an event-driven state
 machine: each method is what the closure does when one awaited operation
 settles, when an animation frame fires, or when React runs the cleanup.
 The awaited operations themselves (model loading, the camera request,
 `play()`, face detection) are the environment; their outcomes are the
 events.
 */
module Lifecycle {
  import opened Wrappers
  import opened Expressions
  import opened Feedback

  /** Where `start()` (lines 78-101) is suspended, or `Settled` once it has
      returned or caught an error. */
  datatype Phase = AwaitingModels | AwaitingCamera | AwaitingPlay | Settled

  class Effect {
    /** Whether the caller passed `onModelsLoaded`. */
    const hasCallback: bool
    /** The feedback state kept by the component. */
    const selector: FeedbackSelector

    /** `isMounted`. */
    var mounted: bool
    var modelsLoaded: bool
    /** How many times `onModelsLoaded` has been called. */
    var notifications: nat
    /** `getUserMedia` has been called. */
    var cameraRequested: bool
    /** `stream` holds the camera stream. */
    var streamAcquired: bool
    /** `videoRef.current.play()` has been called. */
    var playRequested: bool
    /** `detectLoop()` has been called from `start()`. */
    var loopStarted: bool
    /** A `detectLoop` call is suspended on face detection (line 118). */
    var detectPending: bool
    /** An animation frame requested at line 145 has not fired yet. */
    var rafPending: bool
    /** Every track of `stream` has been stopped. */
    var tracksStopped: bool
    var videoPaused: bool
    /** `videoRef.current` and `canvasRef.current` are set. */
    var videoAttached: bool
    var canvasAttached: bool
    var status: string
    var phase: Phase
    /** `play()` has resolved. */
    ghost var playResolved: bool
    /** `start()` has caught an error. */
    ghost var failed: bool

    ghost predicate Valid()
      reads this, selector
    {
      && selector.Valid()
      && notifications <= 1
      && (notifications == 1 ==> hasCallback && modelsLoaded)
      && (cameraRequested ==> modelsLoaded && notifications == (if hasCallback then 1 else 0))
      && (phase == AwaitingModels ==> !modelsLoaded && notifications == 0 && !cameraRequested)
      && (phase == AwaitingCamera ==> cameraRequested && !streamAcquired)
      && (phase == AwaitingPlay ==> playRequested && !playResolved)
      && (phase != Settled ==> !loopStarted && !failed)
      && (streamAcquired ==> cameraRequested)
      && (playRequested ==> streamAcquired)
      && (playResolved ==> playRequested)
      && (loopStarted ==> playResolved)
      && !(failed && loopStarted)
      && (detectPending || rafPending ==> loopStarted)
      && !(detectPending && rafPending)
      && (tracksStopped ==> streamAcquired)
    }

    /** First render at `mountedAt`, then the effect runs: `start()` sets the
        status and begins loading the models. */
    constructor (hasCallback: bool, mountedAt: int)
      ensures Valid() && fresh(selector)
      ensures this.hasCallback == hasCallback
      ensures selector.State() == Initial(mountedAt) && selector.inputs == []
      ensures mounted && videoAttached && canvasAttached
      ensures !modelsLoaded && notifications == 0 && !cameraRequested && !streamAcquired
      ensures !playRequested && !loopStarted && !detectPending && !rafPending
      ensures !tracksStopped && !videoPaused
      ensures status == "Loading models." && phase == AwaitingModels
    {
      this.hasCallback := hasCallback;
      selector := new FeedbackSelector(mountedAt);
      mounted := true;
      modelsLoaded, notifications, cameraRequested, streamAcquired := false, 0, false, false;
      playRequested, loopStarted, detectPending, rafPending := false, false, false, false;
      tracksStopped, videoPaused := false, false;
      videoAttached, canvasAttached := true, true;
      status := "Loading models.";
      phase := AwaitingModels;
      playResolved, failed := false, false;
    }

    /** The models have loaded (line 81): `onModelsLoaded` is called before
        the camera is requested; if it throws, the error is caught. */
    method ModelsLoaded(callbackError: Option<string>)
      requires Valid() && phase == AwaitingModels
      modifies this
      ensures Valid() && modelsLoaded
      ensures notifications == if hasCallback then 1 else 0
      ensures if hasCallback && callbackError.Some? then
          && status == "Error: " + callbackError.value && phase == Settled
          && failed && !cameraRequested
        else
          status == "Requesting camera." && phase == AwaitingCamera && cameraRequested
      ensures unchanged(this`mounted, this`streamAcquired, this`playRequested, this`loopStarted)
      ensures unchanged(this`detectPending, this`rafPending, this`tracksStopped, this`videoPaused)
      ensures unchanged(this`videoAttached, this`canvasAttached)
      ensures unchanged(this`playResolved)
    {
      modelsLoaded := true;
      if hasCallback {
        notifications := notifications + 1;
        if callbackError.Some? {
          status := "Error: " + callbackError.value;
          failed := true;
          phase := Settled;
          return;
        }
      }
      status := "Requesting camera.";
      cameraRequested := true;
      phase := AwaitingCamera;
    }

    /** `loadAllModels` rejected. */
    method ModelsFailed(message: string)
      requires Valid() && phase == AwaitingModels
      modifies this
      ensures Valid() && failed && phase == Settled && status == "Error: " + message
      ensures !modelsLoaded && notifications == 0 && !cameraRequested && !loopStarted
      ensures unchanged(this`mounted, this`streamAcquired, this`detectPending, this`rafPending)
      ensures unchanged(this`tracksStopped, this`videoPaused, this`videoAttached, this`canvasAttached)
      ensures unchanged(this`playRequested, this`loopStarted, this`playResolved)
    {
      Fail(message);
    }

    /** The camera stream arrived (line 86). An unmounted component returns
        with the stream still open; `play()` is called only when the
        component is mounted and the video element is there. */
    method CameraResolved()
      requires Valid() && phase == AwaitingCamera
      modifies this
      ensures Valid() && streamAcquired
      ensures playRequested == (old(mounted) && old(videoAttached))
      ensures phase == if playRequested then AwaitingPlay else Settled
      ensures !loopStarted && !failed
      ensures unchanged(this`mounted, this`status, this`detectPending, this`rafPending)
      ensures unchanged(this`tracksStopped, this`videoPaused, this`videoAttached, this`canvasAttached)
      ensures unchanged(this`modelsLoaded, this`notifications, this`cameraRequested, this`loopStarted)
      ensures unchanged(this`playResolved, this`failed)
    {
      streamAcquired := true;
      if !mounted {
        phase := Settled;
        return;
      }
      if videoAttached {
        playRequested := true;
        phase := AwaitingPlay;
      } else {
        phase := Settled;
      }
    }

    /** `getUserMedia` rejected: no stream was ever acquired. */
    method CameraFailed(message: string)
      requires Valid() && phase == AwaitingCamera
      modifies this
      ensures Valid() && failed && phase == Settled && status == "Error: " + message
      ensures !streamAcquired && !loopStarted
      ensures unchanged(this`mounted, this`detectPending, this`rafPending, this`tracksStopped)
      ensures unchanged(this`videoPaused, this`videoAttached, this`canvasAttached)
      ensures unchanged(this`modelsLoaded, this`notifications, this`cameraRequested, this`streamAcquired)
      ensures unchanged(this`playRequested, this`loopStarted, this`playResolved)
    {
      Fail(message);
    }

    /** `play()` resolved (line 93): the status turns to detecting and the
        loop starts. Nothing re-checks `isMounted` here. */
    method PlayResolved()
      requires Valid() && phase == AwaitingPlay
      modifies this
      ensures Valid() && phase == Settled && playResolved && loopStarted
      ensures status == "Detecting."
      ensures detectPending == (videoAttached && canvasAttached) && !rafPending
      ensures unchanged(this`mounted, this`streamAcquired, this`tracksStopped, this`videoPaused)
      ensures unchanged(this`videoAttached, this`canvasAttached)
      ensures unchanged(this`modelsLoaded, this`notifications, this`cameraRequested, this`playRequested, this`failed)
    {
      playResolved := true;
      status := "Detecting.";
      loopStarted := true;
      phase := Settled;
      EnterDetectLoop();
    }

    /** `play()` rejected (for one, because the cleanup paused the video). */
    method PlayFailed(message: string)
      requires Valid() && phase == AwaitingPlay
      modifies this
      ensures Valid() && failed && phase == Settled && status == "Error: " + message
      ensures !loopStarted
      ensures unchanged(this`mounted, this`streamAcquired, this`detectPending, this`rafPending)
      ensures unchanged(this`tracksStopped, this`videoPaused, this`videoAttached, this`canvasAttached)
      ensures unchanged(this`modelsLoaded, this`notifications, this`cameraRequested, this`playRequested)
      ensures unchanged(this`loopStarted, this`playResolved)
    {
      Fail(message);
    }

    /** The `catch` of lines 97-100. */
    method Fail(message: string)
      requires Valid() && phase != Settled
      modifies this
      ensures Valid() && failed && phase == Settled && status == "Error: " + message
      ensures unchanged(this`mounted, this`modelsLoaded, this`notifications, this`cameraRequested)
      ensures unchanged(this`streamAcquired, this`playRequested, this`loopStarted)
      ensures unchanged(this`detectPending, this`rafPending, this`tracksStopped, this`videoPaused)
      ensures unchanged(this`videoAttached, this`canvasAttached)
      ensures unchanged(this`playResolved)
    {
      status := "Error: " + message;
      failed := true;
      phase := Settled;
    }

    /** The start of `detectLoop` up to the detection call (lines 104-118):
        it returns at once when the video or canvas element is missing. */
    method EnterDetectLoop()
      requires Valid() && loopStarted && !detectPending && !rafPending
      modifies this
      ensures Valid() && detectPending == (videoAttached && canvasAttached)
      ensures unchanged(this`mounted, this`modelsLoaded, this`notifications, this`cameraRequested)
      ensures unchanged(this`streamAcquired, this`playRequested, this`loopStarted, this`rafPending)
      ensures unchanged(this`tracksStopped, this`videoPaused, this`videoAttached, this`canvasAttached)
      ensures unchanged(this`status, this`phase)
      ensures unchanged(this`playResolved, this`failed)
    {
      if videoAttached && canvasAttached {
        detectPending := true;
      }
    }

    /** Face detection resolved (lines 123-145): the feedback block runs and
        the next frame is requested, whether or not the component is still
        mounted. When `reduce` throws, the rejection is not caught anywhere
        and the loop ends without a new frame and without a status change. */
    method DetectionResolved(detections: seq<Detection>, t: Reading) returns (ok: bool)
      requires Valid() && detectPending && ValidDraw(t)
      modifies this, selector
      ensures Valid() && !detectPending && rafPending == ok
      ensures ok <==> FrameUpdate(old(selector.State()), detections, t).Updated?
      ensures ok ==> FrameUpdate(old(selector.State()), detections, t) == Updated(selector.State())
      ensures !ok ==> selector.State() == old(selector.State()) && selector.inputs == old(selector.inputs)
      ensures ok && |detections| == 0 ==> selector.inputs == old(selector.inputs)
      ensures ok && |detections| > 0 ==>
        selector.inputs == old(selector.inputs) + [Input(Dominant(detections[0].expressions).name, t)]
      ensures unchanged(this`mounted, this`streamAcquired, this`tracksStopped, this`videoPaused)
      ensures unchanged(this`videoAttached, this`canvasAttached, this`status, this`phase)
      ensures unchanged(this`modelsLoaded, this`notifications, this`cameraRequested, this`playRequested, this`loopStarted)
      ensures unchanged(this`playResolved, this`failed)
    {
      detectPending := false;
      ok := selector.OnDetections(detections, t);
      if ok {
        rafPending := true;
      }
    }

    /** Face detection rejected: the loop ends, nothing reports it. */
    method DetectionFailed()
      requires Valid() && detectPending
      modifies this
      ensures Valid() && !detectPending && !rafPending
      ensures unchanged(this`mounted, this`streamAcquired, this`tracksStopped, this`videoPaused)
      ensures unchanged(this`videoAttached, this`canvasAttached, this`status, this`phase)
      ensures unchanged(this`modelsLoaded, this`notifications, this`cameraRequested, this`playRequested, this`loopStarted)
      ensures unchanged(this`playResolved, this`failed)
    {
      detectPending := false;
    }

    /** The requested animation frame fires and `detectLoop` runs again. */
    method FrameFired()
      requires Valid() && rafPending
      modifies this
      ensures Valid() && !rafPending
      ensures detectPending == (videoAttached && canvasAttached)
      ensures unchanged(this`mounted, this`streamAcquired, this`tracksStopped, this`videoPaused)
      ensures unchanged(this`videoAttached, this`canvasAttached, this`status, this`phase)
      ensures unchanged(this`modelsLoaded, this`notifications, this`cameraRequested, this`playRequested, this`loopStarted)
      ensures unchanged(this`playResolved, this`failed)
      ensures selector.State() == old(selector.State())
    {
      rafPending := false;
      EnterDetectLoop();
    }

    /** React detaches the element refs. */
    method RefsDetached()
      requires Valid()
      modifies this
      ensures Valid() && !videoAttached && !canvasAttached
      ensures unchanged(this`mounted, this`streamAcquired, this`detectPending, this`rafPending)
      ensures unchanged(this`tracksStopped, this`videoPaused, this`status, this`phase)
      ensures unchanged(this`modelsLoaded, this`notifications, this`cameraRequested, this`playRequested, this`loopStarted)
      ensures unchanged(this`playResolved, this`failed)
    {
      videoAttached, canvasAttached := false, false;
    }

    /** The cleanup closure (lines 150-155): clears `isMounted`, cancels a
        pending frame, pauses the video if it is there and stops the tracks
        of a stream acquired so far. A detection already in flight is not
        cancelled, and a stream that arrives later is not stopped. */
    method Cleanup()
      requires Valid()
      modifies this
      ensures Valid() && !mounted && !rafPending
      ensures videoPaused == (old(videoPaused) || videoAttached)
      ensures tracksStopped == (old(tracksStopped) || streamAcquired)
      ensures unchanged(this`streamAcquired, this`detectPending, this`videoAttached, this`canvasAttached)
      ensures unchanged(this`status, this`phase, this`loopStarted)
      ensures unchanged(this`modelsLoaded, this`notifications, this`cameraRequested, this`playRequested)
      ensures unchanged(this`playResolved, this`failed)
    {
      mounted := false;
      if rafPending {
        rafPending := false;
      }
      if videoAttached {
        videoPaused := true;
      }
      if streamAcquired {
        tracksStopped := true;
      }
    }
  }

  /** Unmounting while the camera request is pending leaves the stream that
      arrives afterwards running: `start()` returns at line 90 without
      stopping it, and the cleanup has already run. */
  method StreamAfterUnmountStaysOpen(e: Effect)
    requires e.Valid() && e.phase == AwaitingCamera
    modifies e
    ensures e.Valid() && e.streamAcquired && !e.tracksStopped && !e.mounted
    ensures e.phase == Settled && !e.loopStarted
  {
    e.Cleanup();
    e.CameraResolved();
  }

  /** Unmounting while a detection is in flight does not stop the loop from
      requesting another frame once that detection resolves, unless the
      feedback block throws. */
  method FrameAfterUnmountIsRequested(e: Effect, detections: seq<Detection>, t: Reading)
    requires e.Valid() && e.detectPending && ValidDraw(t)
    requires FrameUpdate(e.selector.State(), detections, t).Updated?
    modifies e, e.selector
    ensures e.Valid() && e.rafPending && !e.mounted
  {
    e.Cleanup();
    var ok := e.DetectionResolved(detections, t);
  }

  /** A denied camera request, from mount on: the loop never starts, the
      status shows the error and no stream is held. */
  method CameraDenied(hasCallback: bool, mountedAt: int, message: string)
    returns (started: bool, acquired: bool, status: string)
    ensures !started && !acquired && status == "Error: " + message
  {
    var e := new Effect(hasCallback, mountedAt);
    e.ModelsLoaded(None);
    e.CameraFailed(message);
    started, acquired, status := e.loopStarted, e.streamAcquired, e.status;
  }
}
