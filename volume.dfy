/** The volume side of a free-play frame (app.js:436-466): the mean of the
    analyser's byte buffer, its normalization to [0, 1], the kick impulse it
    gives, the volume-bar width and the feedback category it selects. */
module Volume {
  import opened Constants

  /** One entry of the analyser's `Uint8Array`. */
  newtype byte = x: int | 0 <= x < 256

  /** Sum of a buffer, accumulated left to right as the source's loop does. */
  function Sum(s: seq<byte>): int
  {
    if s == [] then 0 else Sum(s[..|s| - 1]) + s[|s| - 1] as int
  }

  lemma {:induction false} SumBounds(s: seq<byte>)
    ensures 0 <= Sum(s) <= 255 * |s|
  {
    if s != [] {
      SumBounds(s[..|s| - 1]);
    }
  }

  /** Mean value of a non-empty buffer. */
  function Mean(s: seq<byte>): real
    requires |s| > 0
  {
    Sum(s) as real / |s| as real
  }

  /** The mean lies within the byte range. */
  lemma MeanBounds(s: seq<byte>)
    requires |s| > 0
    ensures 0.0 <= Mean(s) <= 255.0
  {
    SumBounds(s);
    var n := |s| as real;
    assert Sum(s) as real <= 255.0 * n;
    assert Mean(s) * n == Sum(s) as real;
  }

  /** The accumulator loop of app.js:439-443. */
  method AverageVolume(data: seq<byte>) returns (average: real)
    requires |data| > 0
    ensures average == Mean(data)
    ensures 0.0 <= average <= 255.0
  {
    var sum := 0;
    for i := 0 to |data|
      invariant sum == Sum(data[..i])
    {
      assert data[..i + 1][..i] == data[..i];
      sum := sum + data[i] as int;
    }
    assert data[..|data|] == data;
    average := sum as real / |data| as real;
    MeanBounds(data);
  }

  function Min(a: real, b: real): real { if a <= b then a else b }
  function Max(a: real, b: real): real { if a >= b then a else b }

  /** `Math.min(1, Math.max(0, (avg - MIN) / (MAX - MIN)))`. */
  function NormalizedVolume(average: real): (n: real)
    ensures 0.0 <= n <= 1.0
    ensures average <= VOLUME_THRESHOLD_MIN ==> n == 0.0
    ensures average >= VOLUME_THRESHOLD_MAX ==> n == 1.0
    ensures VOLUME_THRESHOLD_MIN < average < VOLUME_THRESHOLD_MAX ==> 0.0 < n < 1.0
  {
    Min(1.0, Max(0.0, (average - VOLUME_THRESHOLD_MIN) / (VOLUME_THRESHOLD_MAX - VOLUME_THRESHOLD_MIN)))
  }

  /** Louder input never gives a smaller normalized volume. */
  lemma NormalizedVolumeMonotone(a: real, b: real)
    requires a <= b
    ensures NormalizedVolume(a) <= NormalizedVolume(b)
  {
  }

  /** Linear map of the normalized volume onto [VOICE_IMPULSE_MIN, VOICE_IMPULSE_MAX]. */
  function VoiceImpulse(n: real): (impulse: real)
    ensures 0.0 <= n <= 1.0 ==> VOICE_IMPULSE_MIN <= impulse <= VOICE_IMPULSE_MAX
    ensures n == 0.0 ==> impulse == VOICE_IMPULSE_MIN
    ensures n == 1.0 ==> impulse == VOICE_IMPULSE_MAX
  {
    n * (VOICE_IMPULSE_MAX - VOICE_IMPULSE_MIN) + VOICE_IMPULSE_MIN
  }

  lemma VoiceImpulseMonotone(a: real, b: real)
    requires a <= b
    ensures VoiceImpulse(a) <= VoiceImpulse(b)
  {
  }

  /** Width of the volume bar, in percent of the container. */
  function VolumeBarPercent(average: real): (p: real)
    ensures 0.0 <= average <= 255.0 ==> 0.0 <= p <= 100.0
    ensures average == 255.0 ==> p == 100.0
  {
    (average / 255.0) * 100.0
  }

  /** The three kinds of message the frame writes into the feedback area.
      Which of the encouraging messages is picked is random and not modelled. */
  datatype Feedback = Encouragement | MakingSound | SpeakLouder

  /** How strong a feedback is: louder categories rank higher. */
  function Rank(f: Feedback): nat
  {
    match f
    case SpeakLouder => 0
    case MakingSound => 1
    case Encouragement => 2
  }

  function FeedbackFor(n: real): (f: Feedback)
    ensures f == Encouragement <==> n > 0.5
    ensures f == SpeakLouder <==> n <= 0.0
  {
    if n > 0.5 then Encouragement
    else if n > 0.0 then MakingSound
    else SpeakLouder
  }

  /** A louder voice never gets a weaker feedback category. */
  lemma FeedbackMonotone(a: real, b: real)
    requires a <= b
    ensures Rank(FeedbackFor(a)) <= Rank(FeedbackFor(b))
  {
  }

  /** With no sound (mean at most the lower threshold) the frame says
      "speak louder"; from the upper threshold on it encourages. */
  lemma FeedbackAtThresholds(average: real)
    ensures average <= VOLUME_THRESHOLD_MIN ==> FeedbackFor(NormalizedVolume(average)) == SpeakLouder
    ensures average >= VOLUME_THRESHOLD_MAX ==> FeedbackFor(NormalizedVolume(average)) == Encouragement
  {
  }
}
