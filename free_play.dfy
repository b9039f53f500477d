/** The free-play session: the global voice-detection state of app.js
    (`bouncingBalls`, `isListening`, `audioContext`/`microphone`,
    `analyser`/`dataArray`, `animationId`) and the functions that change it. */
module FreePlay {
  import opened Wrappers
  import opened Constants
  import opened Volume
  import opened Balls

  /** What the play-feedback area shows. `PageDefault` is whatever the page
      shows before the first start (the page itself is not modelled). */
  datatype PlayMessage = PageDefault | ListeningNow | MicrophoneDenied | PlayAgain | VoiceLevel(level: Feedback)

  /** A frame handle; `requestAnimationFrame` never returns 0, which the
      source's truthiness test `if (animationId)` relies on. */
  type FrameId = n: nat | n > 0 witness 1

  /** A ball as created and as kept by every frame and by stopping. */
  predicate WellFormed(b: Ball)
  {
    15.0 <= b.radius <= 30.0 && OnOrAboveGround(b)
  }

  class Session {
    var balls: seq<Ball>
    var isListening: bool
    /** `audioContext` (with its `microphone` stream) is present. */
    var hasAudioContext: bool
    /** `analyser` and `dataArray` are present; once set they are never cleared. */
    var hasAnalyser: bool
    /** Handle of the pending animation frame, if any. */
    var animationId: Option<FrameId>
    var message: PlayMessage
    /** Width of the volume bar, in percent. */
    var volumeBar: real
    /** The stop button is shown (and the start button hidden). */
    var stopShown: bool

    ghost predicate Valid()
      reads this
    {
      && (isListening <==> hasAudioContext)
      && (isListening ==> hasAnalyser)
      && (animationId.Some? ==> isListening)
      && (forall i :: 0 <= i < |balls| ==> WellFormed(balls[i]))
    }

    /** The frame guard of app.js:431 lets the frame run. */
    predicate Running()
      reads this
    {
      isListening && hasAnalyser
    }

    /** The page's initial state (app.js:7-16). */
    constructor ()
      ensures Valid()
      ensures balls == [] && !isListening && !hasAudioContext && !hasAnalyser && animationId == None
    {
      balls := [];
      isListening := false;
      hasAudioContext := false;
      hasAnalyser := false;
      animationId := None;
      message := PageDefault;
      volumeBar := 0.0;
      stopShown := false;
    }

    /** `createBouncingBalls`: replaces the field by NUMBER_OF_BALLS new balls. */
    method CreateBouncingBalls(width: real, draws: seq<SpawnDraws>)
      requires Valid()
      requires |draws| == NUMBER_OF_BALLS
      requires forall i :: 0 <= i < |draws| ==> ValidSpawnDraws(draws[i])
      modifies this
      ensures Valid()
      ensures balls == SpawnAll(width, draws) && |balls| == NUMBER_OF_BALLS
      ensures isListening == old(isListening) && hasAudioContext == old(hasAudioContext)
      ensures hasAnalyser == old(hasAnalyser) && animationId == old(animationId)
      ensures message == old(message) && volumeBar == old(volumeBar) && stopShown == old(stopShown)
    {
      var created := [];
      for i := 0 to NUMBER_OF_BALLS
        invariant |created| == i
        invariant forall k :: 0 <= k < i ==> created[k] == Spawn(width, draws[k])
      {
        created := created + [Spawn(width, draws[i])];
      }
      balls := created;
    }

    /** `playFreeMode`: entering free play creates the field. */
    method PlayFreeMode(width: real, draws: seq<SpawnDraws>)
      requires Valid()
      requires |draws| == NUMBER_OF_BALLS
      requires forall i :: 0 <= i < |draws| ==> ValidSpawnDraws(draws[i])
      modifies this
      ensures Valid()
      ensures balls == SpawnAll(width, draws)
      ensures isListening == old(isListening) && hasAudioContext == old(hasAudioContext)
      ensures hasAnalyser == old(hasAnalyser) && animationId == old(animationId)
      ensures message == old(message) && volumeBar == old(volumeBar) && stopShown == old(stopShown)
    {
      CreateBouncingBalls(width, draws);
    }

    /** `detectVoice`: one animation frame. `samples` is what
        `getByteFrequencyData` writes into `dataArray`, `width` is the
        container's current width, `draws` the random numbers of each ball and
        `nextId` the handle `requestAnimationFrame` returns. */
    method DetectVoice(samples: seq<byte>, width: real, draws: seq<StepDraws>, nextId: FrameId)
      requires Valid()
      requires |samples| == FREQUENCY_BIN_COUNT
      requires |draws| == |balls|
      requires forall i :: 0 <= i < |draws| ==> ValidStepDraws(draws[i])
      modifies this
      ensures Valid()
      ensures isListening == old(isListening) && hasAudioContext == old(hasAudioContext)
      ensures hasAnalyser == old(hasAnalyser) && stopShown == old(stopShown)
      ensures !old(Running()) ==>
                && animationId == None
                && balls == old(balls) && message == old(message) && volumeBar == old(volumeBar)
      ensures old(Running()) ==>
                var n := NormalizedVolume(Mean(samples));
                && balls == StepAll(old(balls), n, VoiceImpulse(n), width, draws)
                && volumeBar == VolumeBarPercent(Mean(samples))
                && 0.0 <= volumeBar <= 100.0
                && message == VoiceLevel(FeedbackFor(n))
                && animationId == Some(nextId)
    {
      if !isListening || !hasAnalyser {
        animationId := None;
        return;
      }
      var average := AverageVolume(samples);
      var n := NormalizedVolume(average);
      var impulse := VoiceImpulse(n);
      volumeBar := VolumeBarPercent(average);
      message := VoiceLevel(FeedbackFor(n));
      var field := balls;
      var i := 0;
      while i < |field|
        invariant 0 <= i <= |field| == |balls|
        invariant forall k :: 0 <= k < i ==> field[k] == Step(balls[k], n, impulse, width, draws[k])
        invariant forall k :: i <= k < |field| ==> field[k] == balls[k]
      {
        field := field[i := Step(field[i], n, impulse, width, draws[i])];
        i := i + 1;
      }
      assert field == StepAll(balls, n, impulse, width, draws);
      balls := field;
      animationId := Some(nextId);
    }

    /** `startVoiceDetection`: `deviceOk` says whether the microphone could be
        opened; on success the first frame runs at once. */
    method StartVoiceDetection(deviceOk: bool, samples: seq<byte>, width: real, draws: seq<StepDraws>, nextId: FrameId)
      requires Valid()
      requires |samples| == FREQUENCY_BIN_COUNT
      requires |draws| == |balls|
      requires forall i :: 0 <= i < |draws| ==> ValidStepDraws(draws[i])
      modifies this
      ensures Valid()
      ensures !deviceOk ==>
                && message == MicrophoneDenied
                && balls == old(balls) && isListening == old(isListening)
                && hasAudioContext == old(hasAudioContext) && hasAnalyser == old(hasAnalyser)
                && animationId == old(animationId) && stopShown == old(stopShown)
                && volumeBar == old(volumeBar)
      ensures deviceOk ==>
                var n := NormalizedVolume(Mean(samples));
                && isListening && hasAudioContext && hasAnalyser && stopShown
                && balls == StepAll(old(balls), n, VoiceImpulse(n), width, draws)
                && volumeBar == VolumeBarPercent(Mean(samples))
                && message == VoiceLevel(FeedbackFor(n))
                && animationId == Some(nextId)
    {
      if !deviceOk {
        message := MicrophoneDenied;
        return;
      }
      hasAudioContext := true;
      hasAnalyser := true;
      isListening := true;
      stopShown := true;
      message := ListeningNow;
      DetectVoice(samples, width, draws, nextId);
    }

    /** `stopVoiceDetection`. `released` says whether the microphone tracks
        were stopped and the audio context closed; `cancelled` is the frame
        handle passed to `cancelAnimationFrame`, if one was pending. */
    method StopVoiceDetection() returns (released: bool, cancelled: Option<FrameId>)
      requires Valid()
      modifies this
      ensures Valid()
      ensures released == old(hasAudioContext) && cancelled == old(animationId)
      ensures !isListening && !hasAudioContext && animationId == None
      ensures hasAnalyser == old(hasAnalyser)
      ensures balls == RestAll(old(balls))
      ensures !stopShown && message == PlayAgain && volumeBar == 0.0
    {
      isListening := false;
      released := false;
      if hasAudioContext {
        hasAudioContext := false;
        released := true;
      }
      cancelled := None;
      if animationId.Some? {
        cancelled := animationId;
        animationId := None;
      }
      stopShown := false;
      message := PlayAgain;
      volumeBar := 0.0;
      var field := balls;
      var i := 0;
      while i < |field|
        invariant 0 <= i <= |field| == |balls|
        invariant forall k :: 0 <= k < i ==> field[k] == Rest(balls[k])
        invariant forall k :: i <= k < |field| ==> field[k] == balls[k]
      {
        field := field[i := Rest(field[i])];
        i := i + 1;
      }
      assert field == RestAll(balls);
      balls := field;
    }

    /** `backToDashboardFromFreePlay`: stops if listening, then drops the field. */
    method BackToDashboardFromFreePlay()
      requires Valid()
      modifies this
      ensures Valid()
      ensures balls == [] && !isListening && !hasAudioContext && animationId == None
      ensures hasAnalyser == old(hasAnalyser)
      ensures old(isListening) ==> message == PlayAgain && volumeBar == 0.0 && !stopShown
      ensures !old(isListening) ==>
                message == old(message) && volumeBar == old(volumeBar) && stopShown == old(stopShown)
    {
      if isListening {
        var _, _ := StopVoiceDetection();
      }
      balls := [];
    }
  }

  /** Stopping twice: the second stop releases nothing, cancels nothing and
      moves no ball. */
  method StopTwice(s: Session) returns (released: bool, cancelled: Option<FrameId>)
    requires s.Valid()
    modifies s
    ensures s.Valid() && !s.isListening
    ensures !released && cancelled == None
    ensures s.balls == RestAll(old(s.balls))
  {
    var r1, c1 := s.StopVoiceDetection();
    ghost var once := s.balls;
    released, cancelled := s.StopVoiceDetection();
    assert s.balls == once by {
      forall i | 0 <= i < |once| ensures s.balls[i] == once[i] {
        RestIdempotent(old(s.balls)[i]);
      }
    }
  }

  /** After stopping, a frame that still fires does nothing but clear the handle. */
  method FrameAfterStop(s: Session, samples: seq<byte>, width: real, draws: seq<StepDraws>, nextId: FrameId)
    requires s.Valid()
    requires |samples| == FREQUENCY_BIN_COUNT
    requires |draws| == |s.balls|
    requires forall i :: 0 <= i < |draws| ==> ValidStepDraws(draws[i])
    modifies s
    ensures s.Valid() && s.animationId == None && !s.isListening
    ensures s.balls == RestAll(old(s.balls))
  {
    var _, _ := s.StopVoiceDetection();
    s.DetectVoice(samples, width, draws, nextId);
  }
}
