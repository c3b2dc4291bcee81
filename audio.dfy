/**
 * The audio analysis utility of the birthday site: a player object that keeps the
 * latest snapshot of byte-valued frequency bins, derives five named band levels and
 * an overall level from it, and runs a hysteresis beat detector over the bass band.
 *
 * Browser handles (audio context, media element, source, analyser and gain nodes)
 * are modelled by whether they are present; the frequency transform inside the
 * analyser is not modelled: each capture takes the analyser's output as a parameter.
 */
module Audio {
  import opened Wrappers

  /** One unsigned 8-bit frequency magnitude, as stored in a Uint8Array. */
  type Byte = x: int | 0 <= x < 256

  /** The analyser is configured with a 512-point transform, giving 256 bins. */
  const FftSize: nat := 512
  const BinCount: nat := FftSize / 2

  /** A contiguous bin range [start, end). */
  datatype BandRange = BandRange(start: nat, end: nat)

  const FrequencyBands: map<string, BandRange> := map[
    "bass" := BandRange(0, 10),
    "lowMid" := BandRange(10, 40),
    "mid" := BandRange(40, 120),
    "highMid" := BandRange(120, 200),
    "treble" := BandRange(200, 255)
  ]

  const BeatThreshold: real := 1.3
  const BeatDecayRate: real := 0.98
  /** Minimum time between two new beats, in milliseconds. */
  const BeatMinInterval: int := 200
  /** Number of further calls that keep reporting a beat after a new one. */
  const BeatHoldLength: int := 3
  /** Gain the graph is given when loading succeeds. */
  const InitialVolume: real := 0.7

  // ---------------------------------------------------------------------------
  // Band and level arithmetic on a snapshot

  /** Sum of the bins, accumulated from the first to the last. */
  function Sum(s: seq<Byte>): (n: nat)
    ensures n <= 255 * |s|
  {
    if s == [] then 0 else Sum(s[..|s| - 1]) + s[|s| - 1]
  }

  /** Arithmetic mean of the bins; 0 for no bins. */
  function Mean(s: seq<Byte>): (r: real)
    ensures 0.0 <= r <= 255.0
    ensures s == [] ==> r == 0.0
  {
    if s == [] then 0.0
    else
      var n := |s| as real;
      var total := Sum(s) as real;
      assert total <= 255.0 * n;
      assert total / n <= 255.0 by {
        assert total / n * n == total;
      }
      total / n
  }

  /**
   * The bins that the band loop visits: indices i with start <= i, i < end and
   * i < |data|. A range reaching past the snapshot is cut at its end.
   */
  function BandBins(data: seq<Byte>, range: BandRange): (r: seq<Byte>)
    ensures |r| == (if range.start < Min(range.end, |data|) then Min(range.end, |data|) - range.start else 0)
    ensures forall k | 0 <= k < |r| :: range.start + k < |data| && r[k] == data[range.start + k]
  {
    var hi := Min(range.end, |data|);
    if range.start < hi then data[range.start..hi] else []
  }

  /** The level getFrequencyBand reports for a band name and the current data array. */
  function BandLevel(data: Option<seq<Byte>>, name: string): (r: real)
    ensures 0.0 <= r <= 255.0
    ensures name !in FrequencyBands || data.None? ==> r == 0.0
  {
    if name !in FrequencyBands || data.None? then 0.0
    else Mean(BandBins(data.value, FrequencyBands[name]))
  }

  /** The overall level getLevel reports: the mean bin divided by 255. */
  function Level(data: Option<seq<Byte>>): (r: real)
    requires data.Some? ==> |data.value| > 0
    ensures 0.0 <= r <= 1.0
    ensures data.Some? ==> r * 255.0 == Mean(data.value)
  {
    if data.None? then 0.0 else Mean(data.value) / 255.0
  }

  /** The bands of the snapshot that fall in the named band. */
  lemma BandLevelIsBandMean(data: seq<Byte>, name: string)
    requires name in FrequencyBands
    requires |data| == BinCount
    ensures BandLevel(Some(data), name) ==
            Mean(data[FrequencyBands[name].start..FrequencyBands[name].end])
  {
  }

  /** No band reads the last bin: the treble range stops at 255 of 256. */
  lemma LastBinInNoBand(name: string)
    requires name in FrequencyBands
    ensures FrequencyBands[name].end <= BinCount - 1
  {
  }

  // ---------------------------------------------------------------------------
  // Beat detection as a step function

  /** The part of the object's state that detectBeat reads and writes. */
  datatype BeatState = BeatState(average: real, lastBeatTime: int, holdFrames: int)

  /** Exponential smoothing of the running bass average. */
  function SmoothedAverage(average: real, bass: real): real {
    average * BeatDecayRate + bass * (1.0 - BeatDecayRate)
  }

  /**
   * A new beat: the bass level exceeds the threshold times the freshly smoothed
   * average, and more than the minimum interval has passed since the last new beat.
   */
  predicate NewBeat(s: BeatState, bass: real, now: int) {
    bass > SmoothedAverage(s.average, bass) * BeatThreshold
    && now - s.lastBeatTime > BeatMinInterval
  }

  /** One detectBeat call with data present: the new beat state and the answer. */
  function BeatStep(s: BeatState, bass: real, now: int): (r: (BeatState, bool))
    ensures r.0.average == SmoothedAverage(s.average, bass)
    ensures r.1 <==> NewBeat(s, bass, now) || s.holdFrames > 0
    ensures r.0.lastBeatTime == if NewBeat(s, bass, now) then now else s.lastBeatTime
    ensures NewBeat(s, bass, now) ==> r.0.holdFrames == BeatHoldLength
    ensures !NewBeat(s, bass, now) && s.holdFrames > 0 ==> r.0.holdFrames == s.holdFrames - 1
    ensures !NewBeat(s, bass, now) && s.holdFrames <= 0 ==> r.0.holdFrames == s.holdFrames
  {
    var average := SmoothedAverage(s.average, bass);
    if NewBeat(s, bass, now) then (BeatState(average, now, BeatHoldLength), true)
    else if s.holdFrames > 0 then (BeatState(average, s.lastBeatTime, s.holdFrames - 1), true)
    else (BeatState(average, s.lastBeatTime, s.holdFrames), false)
  }

  /** The hold counter stays within [0, 3] from any state where it already was. */
  lemma HoldStaysInRange(s: BeatState, bass: real, now: int)
    requires 0 <= s.holdFrames <= BeatHoldLength
    ensures 0 <= BeatStep(s, bass, now).0.holdFrames <= BeatHoldLength
  {
  }

  /** One sampling tick as seen by the detector: the bass level and the clock. */
  datatype Tick = Tick(bass: real, now: int)

  /** The answers of successive detectBeat calls. */
  function Answers(s: BeatState, ticks: seq<Tick>): (r: seq<bool>)
    ensures |r| == |ticks|
    decreases |ticks|
  {
    if ticks == [] then []
    else
      var next := BeatStep(s, ticks[0].bass, ticks[0].now);
      [next.1] + Answers(next.0, ticks[1..])
  }

  /** None of the ticks, applied in order from `s`, triggers a new beat. */
  predicate Quiet(s: BeatState, ticks: seq<Tick>)
    decreases |ticks|
  {
    ticks == []
    || (!NewBeat(s, ticks[0].bass, ticks[0].now)
        && Quiet(BeatStep(s, ticks[0].bass, ticks[0].now).0, ticks[1..]))
  }

  /**
   * Without a new beat, the detector keeps answering true for exactly as many
   * calls as frames were being held, and false afterwards.
   */
  lemma {:induction false} QuietAnswers(s: BeatState, ticks: seq<Tick>)
    requires s.holdFrames >= 0
    requires Quiet(s, ticks)
    ensures forall k | 0 <= k < |ticks| :: Answers(s, ticks)[k] == (k < s.holdFrames)
    decreases |ticks|
  {
    if ticks != [] {
      var next := BeatStep(s, ticks[0].bass, ticks[0].now);
      QuietAnswers(next.0, ticks[1..]);
      assert Answers(s, ticks) == [next.1] + Answers(next.0, ticks[1..]);
    }
  }

  /** After a new beat and four quiet calls, the answers are true, true, true, false. */
  lemma HeldBeatLastsThreeCalls(s: BeatState, beat: Tick, later: seq<Tick>)
    requires NewBeat(s, beat.bass, beat.now)
    requires |later| == 4
    requires Quiet(BeatStep(s, beat.bass, beat.now).0, later)
    ensures Answers(s, [beat] + later) == [true, true, true, true, false]
  {
    var after := BeatStep(s, beat.bass, beat.now).0;
    QuietAnswers(after, later);
    assert ([beat] + later)[1..] == later;
  }

  /**
   * A one-tick spike from a steady baseline b to 3b, followed by four ticks back at
   * the baseline, is reported on the spike tick and held for three more ticks.
   */
  lemma SpikeIsHeldThreeTicks(b: real, lastBeat: int, times: seq<int>)
    requires b > 0.0
    requires |times| == 5
    requires times[0] - lastBeat > BeatMinInterval
    ensures Answers(BeatState(b, lastBeat, 0), [Tick(3.0 * b, times[0])] + Baseline(b, times[1..]))
            == [true, true, true, true, false]
  {
    var s := BeatState(b, lastBeat, 0);
    var spike := Tick(3.0 * b, times[0]);
    assert NewBeat(s, spike.bass, spike.now);
    var after := BeatStep(s, spike.bass, spike.now).0;
    BaselineIsQuiet(after, b, times[1..]);
    HeldBeatLastsThreeCalls(s, spike, Baseline(b, times[1..]));
  }

  /** Ticks that all carry the bass level b. */
  function Baseline(b: real, times: seq<int>): (r: seq<Tick>)
    ensures |r| == |times|
    ensures forall k | 0 <= k < |r| :: r[k] == Tick(b, times[k])
  {
    seq(|times|, k requires 0 <= k < |times| => Tick(b, times[k]))
  }

  /** Once the average is at least the baseline, a baseline tick never triggers a beat. */
  lemma {:induction false} BaselineIsQuiet(s: BeatState, b: real, times: seq<int>)
    requires b > 0.0 && s.average >= b
    ensures Quiet(s, Baseline(b, times))
    decreases |times|
  {
    var ticks := Baseline(b, times);
    if times != [] {
      assert !NewBeat(s, b, times[0]);
      var next := BeatStep(s, b, times[0]).0;
      assert ticks[1..] == Baseline(b, times[1..]);
      BaselineIsQuiet(next, b, times[1..]);
    }
  }

  /** A second qualifying spike within the minimum interval is not a new beat. */
  lemma SpikeWithinIntervalIsNotNew(s: BeatState, first: Tick, second: Tick)
    requires NewBeat(s, first.bass, first.now)
    requires second.now - first.now <= BeatMinInterval
    ensures !NewBeat(BeatStep(s, first.bass, first.now).0, second.bass, second.now)
  {
  }

  // ---------------------------------------------------------------------------
  // The player object

  /** The media element's own state: position, length and whether it is paused. */
  datatype MediaElement = MediaElement(currentTime: real, duration: real, paused: bool)

  datatype AudioError =
    | LoadFailed        // the media element reported an error while loading
    | NotLoaded         // play() before a successful init()
    | NullAudioContext  // play() after destroy(): the context handle is null
    | PlaybackRejected  // resuming the context or starting playback was refused
    | NullDataArray     // Array.from(null) in getNormalizedFrequencyData

  /** The five band levels computed from one snapshot. */
  datatype Bands = Bands(bass: real, lowMid: real, mid: real, highMid: real, treble: real)

  function Clamp(v: real, lo: real, hi: real): (r: real)
    requires lo <= hi
    ensures lo <= r <= hi
    ensures lo <= v <= hi ==> r == v
    ensures v < lo ==> r == lo
    ensures v > hi ==> r == hi
  {
    if v < lo then lo else if v > hi then hi else v
  }

  class AudioManager {
    var hasContext: bool                // audioContext != null
    var element: Option<MediaElement>   // audioElement
    var hasSource: bool                 // source != null
    var hasAnalyser: bool               // analyser != null
    var gain: Option<real>              // gainNode and its gain value
    var bins: Option<seq<Byte>>         // dataArray
    var beatAverage: real
    var lastBeatTime: int
    var beatHoldFrames: int
    var isLoaded: bool
    var isPlaying: bool
    var analysing: bool                 // animationFrameId != null

    /**
     * The handles are created and released together: the context with the media
     * element, and source, analyser, gain node and data array with each other.
     */
    ghost predicate Valid()
      reads this
    {
      && (hasContext <==> element.Some?)
      && (hasAnalyser ==> hasContext)
      && hasSource == hasAnalyser
      && gain.Some? == hasAnalyser
      && bins.Some? == hasAnalyser
      && (bins.Some? ==> |bins.value| == BinCount)
      && (gain.Some? ==> 0.0 <= gain.value <= 1.0)
      && (element.Some? ==> element.value.duration >= 0.0)
      && (isPlaying ==> element.Some?)
      && 0 <= beatHoldFrames <= BeatHoldLength
    }

    function Beat(): BeatState
      reads this
    {
      BeatState(beatAverage, lastBeatTime, beatHoldFrames)
    }

    constructor ()
      ensures Valid()
      ensures !hasContext && element.None? && !hasSource && !hasAnalyser && gain.None? && bins.None?
      ensures !isLoaded && !isPlaying && !analysing
      ensures Beat() == BeatState(0.0, 0, 0)
    {
      hasContext, element, hasSource, hasAnalyser := false, None, false, false;
      gain, bins := None, None;
      beatAverage, lastBeatTime, beatHoldFrames := 0.0, 0, 0;
      isLoaded, isPlaying, analysing := false, false, false;
    }

    /**
     * What init leaves behind. A fresh context and a fresh paused element are made
     * first; `load` is Some(duration) when the element became playable and None
     * when it reported an error, in which case the error is rethrown and nothing
     * else changes. On success the graph is built with 256 zero bins and gain 0.7.
     */
    method Init(load: Option<real>) returns (r: Outcome<AudioError>)
      requires Valid()
      requires load.Some? ==> load.value >= 0.0
      modifies this`hasContext, this`element, this`hasSource, this`hasAnalyser, this`gain, this`bins, this`isLoaded
      ensures Valid()
      ensures hasContext
      ensures r == (if load.Some? then Pass else Fail(LoadFailed))
      ensures load.Some? ==> element == Some(MediaElement(0.0, load.value, true))
      ensures load.Some? ==> hasSource && hasAnalyser && gain == Some(InitialVolume) && isLoaded
      ensures load.Some? ==> bins == Some(seq(BinCount, _ => 0))
      ensures load.None? ==> element == Some(MediaElement(0.0, 0.0, true))
      ensures load.None? ==> hasSource == old(hasSource) && hasAnalyser == old(hasAnalyser)
      ensures load.None? ==> gain == old(gain) && bins == old(bins) && isLoaded == old(isLoaded)
    {
      hasContext := true;
      element := Some(MediaElement(0.0, 0.0, true));
      if load.None? {
        return Fail(LoadFailed);
      }
      element := Some(MediaElement(0.0, load.value, true));
      hasSource, hasAnalyser := true, true;
      bins := Some(seq(BinCount, _ => 0));
      gain := Some(InitialVolume);
      isLoaded := true;
      r := Pass;
    }

    /**
     * play(): refused unless loaded; reading the context's state fails once the
     * context has been released; `playbackAllowed` is whether resuming the context
     * and starting the element succeeded. On success the analysis loop starts and
     * its first pass captures `analyserOutput` at once.
     */
    method Play(playbackAllowed: bool, analyserOutput: seq<Byte>) returns (r: Outcome<AudioError>)
      requires Valid()
      requires |analyserOutput| == BinCount
      modifies this`element, this`isPlaying, this`analysing, this`bins
      ensures Valid()
      ensures !isLoaded ==> r == Fail(NotLoaded)
      ensures isLoaded && !hasContext ==> r == Fail(NullAudioContext)
      ensures isLoaded && hasContext && !playbackAllowed ==> r == Fail(PlaybackRejected)
      ensures r.Fail? ==> unchanged(this)
      ensures r == Pass <==> isLoaded && hasContext && playbackAllowed
      ensures r == Pass ==> isPlaying && analysing
      ensures r == Pass ==> element == Some(old(element).value.(paused := false))
      ensures r == Pass ==> bins == if hasAnalyser then Some(analyserOutput) else old(bins)
    {
      if !isLoaded {
        return Fail(NotLoaded);
      }
      if !hasContext {
        return Fail(NullAudioContext);
      }
      if !playbackAllowed {
        return Fail(PlaybackRejected);
      }
      element := Some(element.value.(paused := false));
      isPlaying := true;
      var _ := GetFrequencyData(analyserOutput);
      analysing := true;
      r := Pass;
    }

    /** pause(): only when there is an element; stops the analysis loop too. */
    method Pause()
      requires Valid()
      modifies this`element, this`isPlaying, this`analysing
      ensures Valid()
      ensures old(element).None? ==> unchanged(this)
      ensures old(element).Some? ==> element == Some(old(element).value.(paused := true))
      ensures old(element).Some? ==> !isPlaying && !analysing
    {
      if element.Some? {
        element := Some(element.value.(paused := true));
        isPlaying := false;
        analysing := false;
      }
    }

    /** stop(): like pause(), and the position goes back to the start. */
    method Stop()
      requires Valid()
      modifies this`element, this`isPlaying, this`analysing
      ensures Valid()
      ensures old(element).None? ==> unchanged(this)
      ensures old(element).Some? ==> element == Some(old(element).value.(paused := true, currentTime := 0.0))
      ensures old(element).Some? ==> !isPlaying && !analysing
    {
      if element.Some? {
        element := Some(element.value.(paused := true, currentTime := 0.0));
        isPlaying := false;
        analysing := false;
      }
    }

    /** setVolume(v): stores v clamped to [0, 1] when there is a gain node. */
    method SetVolume(v: real)
      requires Valid()
      modifies this`gain
      ensures Valid()
      ensures gain == if old(gain).Some? then Some(Clamp(v, 0.0, 1.0)) else None
    {
      if gain.Some? {
        gain := Some(Clamp(v, 0.0, 1.0));
      }
    }

    /** seek(t): moves to t clamped to [0, duration] when there is an element. */
    method Seek(t: real)
      requires Valid()
      modifies this`element
      ensures Valid()
      ensures old(element).None? ==> element.None?
      ensures old(element).Some? ==>
        element == Some(old(element).value.(currentTime := Clamp(t, 0.0, old(element).value.duration)))
    ensures old(element).Some? ==> 0.0 <= CurrentTime() <= Duration()
    {
      if element.Some? {
        element := Some(element.value.(currentTime := Clamp(t, 0.0, element.value.duration)));
      }
    }

    /** getCurrentTime(): the element's position, 0 without an element. */
    function CurrentTime(): (r: real)
      reads this
      ensures element.None? ==> r == 0.0
      ensures element.Some? ==> r == element.value.currentTime
    {
      if element.Some? then element.value.currentTime else 0.0
    }

    /** getDuration(): the element's duration, 0 without an element; never negative. */
    function Duration(): (r: real)
      reads this
      requires Valid()
      ensures r >= 0.0
      ensures element.None? ==> r == 0.0
      ensures element.Some? ==> r == element.value.duration
    {
      if element.Some? then element.value.duration else 0.0
    }

    /**
     * getFrequencyData(): with an analyser, the data array is overwritten with the
     * analyser's current output and returned; without one an empty array is
     * returned and nothing changes.
     */
    method GetFrequencyData(analyserOutput: seq<Byte>) returns (data: seq<Byte>)
      requires Valid()
      requires |analyserOutput| == BinCount
      modifies this`bins
      ensures Valid()
      ensures hasAnalyser ==> bins == Some(analyserOutput) && data == analyserOutput
      ensures !hasAnalyser ==> bins == old(bins) && data == []
    {
      if hasAnalyser {
        bins := Some(analyserOutput);
        data := analyserOutput;
      } else {
        data := [];
      }
    }

    /**
     * getFrequencyBand(name): the mean of the named band's bins in the current
     * snapshot, 0 for an unknown name, a missing data array or an empty range.
     */
    method GetFrequencyBand(name: string) returns (r: real)
      ensures r == BandLevel(bins, name)
    {
      if name !in FrequencyBands || bins.None? {
        return 0.0;
      }
      var range := FrequencyBands[name];
      var data := bins.value;
      var sum: int, count: int := 0, 0;
      var i := range.start;
      while i < range.end && i < |data|
        invariant range.start <= i
        invariant count == i - range.start
        invariant count > 0 ==> i <= |data| && i <= range.end
        invariant sum == if count == 0 then 0 else Sum(data[range.start..i])
      {
        if count > 0 {
          assert data[range.start..i + 1][..count] == data[range.start..i];
        }
        sum := sum + data[i];
        count := count + 1;
        i := i + 1;
      }
      assert count > 0 ==> data[range.start..i] == BandBins(data, range);
      r := if count > 0 then sum as real / count as real else 0.0;
    }

    /** getAllBands(): one capture, then the five band levels of that snapshot. */
    method GetAllBands(analyserOutput: seq<Byte>) returns (bands: Bands)
      requires Valid()
      requires |analyserOutput| == BinCount
      modifies this`bins
      ensures Valid()
      ensures bins == if hasAnalyser then Some(analyserOutput) else old(bins)
      ensures bands == Bands(BandLevel(bins, "bass"), BandLevel(bins, "lowMid"), BandLevel(bins, "mid"),
                             BandLevel(bins, "highMid"), BandLevel(bins, "treble"))
    {
      var _ := GetFrequencyData(analyserOutput);
      var bass := GetFrequencyBand("bass");
      var lowMid := GetFrequencyBand("lowMid");
      var mid := GetFrequencyBand("mid");
      var highMid := GetFrequencyBand("highMid");
      var treble := GetFrequencyBand("treble");
      bands := Bands(bass, lowMid, mid, highMid, treble);
    }

    /**
     * detectBeat(now): false and no change without a data array; otherwise one
     * step of the beat detector on the bass level of the current snapshot.
     */
    method DetectBeat(now: int) returns (beat: bool)
      requires Valid()
      modifies this`beatAverage, this`lastBeatTime, this`beatHoldFrames
      ensures Valid()
      ensures bins.None? ==> !beat && Beat() == old(Beat())
      ensures bins.Some? ==> (Beat(), beat) == BeatStep(old(Beat()), BandLevel(bins, "bass"), now)
    {
      if bins.None? {
        return false;
      }
      var bassValue := GetFrequencyBand("bass");
      ghost var before := Beat();
      beatAverage := beatAverage * BeatDecayRate + bassValue * (1.0 - BeatDecayRate);
      var isBeat := bassValue > beatAverage * BeatThreshold;
      var timeSinceLastBeat := now - lastBeatTime;
      if isBeat && timeSinceLastBeat > BeatMinInterval {
        lastBeatTime := now;
        beatHoldFrames := BeatHoldLength;
        return true;
      }
      if beatHoldFrames > 0 {
        beatHoldFrames := beatHoldFrames - 1;
        return true;
      }
      beat := false;
    }

    /** getLevel(): 0 without a data array, else the mean bin divided by 255. */
    method GetLevel() returns (r: real)
      requires Valid()
      ensures r == Level(bins)
    {
      if bins.None? {
        return 0.0;
      }
      var data := bins.value;
      var sum: int := 0;
      for i := 0 to |data|
        invariant sum == Sum(data[..i])
      {
        assert data[..i + 1][..i] == data[..i];
        sum := sum + data[i];
      }
      assert data[..|data|] == data;
      r := (sum as real / |data| as real) / 255.0;
    }

    /**
     * getNormalizedFrequencyData(): a capture, then every bin divided by 255;
     * Array.from throws on a missing data array.
     */
    method GetNormalizedFrequencyData(analyserOutput: seq<Byte>) returns (r: Result<seq<real>, AudioError>)
      requires Valid()
      requires |analyserOutput| == BinCount
      modifies this`bins
      ensures Valid()
      ensures bins == if hasAnalyser then Some(analyserOutput) else old(bins)
      ensures bins.None? ==> r == Err(NullDataArray)
      ensures bins.Some? ==> r.Ok? && |r.value| == |bins.value|
      ensures bins.Some? ==> forall k | 0 <= k < |r.value| ::
                0.0 <= r.value[k] <= 1.0 && r.value[k] * 255.0 == bins.value[k] as real
    {
      var _ := GetFrequencyData(analyserOutput);
      if bins.None? {
        return Err(NullDataArray);
      }
      var data := bins.value;
      r := Ok(seq(|data|, k requires 0 <= k < |data| => data[k] as real / 255.0));
    }

    /**
     * destroy(): stops playback, cancels the analysis loop and drops every handle
     * and the data array. The loaded flag and the beat state are left as they were.
     */
    method Destroy()
      requires Valid()
      modifies this
      ensures Valid()
      ensures !hasContext && element.None? && !hasSource && !hasAnalyser && gain.None? && bins.None?
      ensures !isPlaying && !analysing
      ensures isLoaded == old(isLoaded)
      ensures Beat() == old(Beat())
    {
      Stop();
      analysing := false;
      hasContext, element, hasSource, hasAnalyser := false, None, false, false;
      gain, bins := None, None;
    }
  }

  /** After destroy(), play() passes the loaded check and then fails on the null context. */
  method PlayAfterDestroy(m: AudioManager, playbackAllowed: bool, analyserOutput: seq<Byte>)
    returns (r: Outcome<AudioError>)
    requires m.Valid()
    requires |analyserOutput| == BinCount
    modifies m
    ensures r == if old(m.isLoaded) then Fail(NullAudioContext) else Fail(NotLoaded)
    ensures !m.isPlaying
  {
    m.Destroy();
    r := m.Play(playbackAllowed, analyserOutput);
  }

  /** After destroy(), band, level and beat queries answer 0 or false. */
  method QueriesAfterDestroy(m: AudioManager, name: string, now: int)
    returns (band: real, level: real, beat: bool)
    requires m.Valid()
    modifies m
    ensures band == 0.0 && level == 0.0 && !beat
  {
    m.Destroy();
    band := m.GetFrequencyBand(name);
    level := m.GetLevel();
    beat := m.DetectBeat(now);
  }
}
