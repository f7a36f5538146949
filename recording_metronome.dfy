/**
 * The recording metronome and pre-roll counter
 * (src/features/recording/hooks/useRecordingMetronome.js). The hook's refs
 * are the fields of a class; the browser's timers are modelled explicitly as
 * the set of live timer handles, so that "at most one click chain is
 * pending" is an invariant rather than a consequence of the encoding.
 * `Tick(id)` stands for the timer `id` firing and running `scheduleNextBeat`.
 */
module RecordingMetronome {
  import opened Wrappers
  import JsNumbers

  /** `DEFAULT_CONFIG` */
  const DefaultTempo := 100
  const DefaultTimeSignature := 4
  const PreRollBars := 1
  /** Delay of the pre-roll completion callback, in milliseconds. */
  const CompletionDelayMs := 50.0

  /** A `setTimeout` handle; browsers hand out positive integers. */
  type TimerId = nat

  /** One hi-hat sound: accented or not, with the pre-roll voicing or the normal one. */
  datatype HiHat = HiHat(accent: bool, preRoll: bool)

  function SecondsPerBeat(tempo: int): (spb: real)
    requires tempo > 0
    ensures spb > 0.0
  {
    60.0 / tempo as real
  }

  /** The delay `scheduleNextBeat` arms: one beat at the tempo read on this tick. */
  function BeatDelayMs(tempo: int): (ms: real)
    requires tempo > 0
    ensures ms > 0.0
  {
    SecondsPerBeat(tempo) * 1000.0
  }

  /** `preRollTotal`: the number of pre-roll clicks. */
  function PreRollTotal(timeSignature: int): (n: int)
    requires timeSignature > 0
    ensures n >= 1
  {
    timeSignature * PreRollBars
  }

  /** The beat number shown for a beat count: 1-based position in the bar. */
  function BeatInBar(beatCount: int, timeSignature: int): (b: int)
    requires timeSignature > 0
    ensures beatCount >= 0 ==> 1 <= b <= timeSignature
    ensures beatCount >= 0 ==> b == beatCount % timeSignature + 1
  {
    JsNumbers.IntRem(beatCount, timeSignature) + 1
  }

  /** `startForPlayback`: the number of whole beats before `startTime` (seconds). */
  function PlaybackBeatCount(startTime: real, tempo: int): (n: int)
    requires tempo > 0
    ensures startTime >= 0.0 ==> n >= 0
    ensures n as real * SecondsPerBeat(tempo) <= startTime < (n + 1) as real * SecondsPerBeat(tempo)
  {
    var spb := SecondsPerBeat(tempo);
    var n := JsNumbers.Floor(startTime / spb);
    FloorTimesPositive(startTime, spb, n);
    n
  }

  lemma FloorTimesPositive(x: real, y: real, n: int)
    requires y > 0.0
    requires n as real <= x / y < n as real + 1.0
    ensures n as real * y <= x < (n + 1) as real * y
  {
    var d := x / y;
    var e := n as real + 1.0;
    assert d * y == x;
    JsNumbers.MulLess(n as real, d, y);
    JsNumbers.MulLess(d, e, y);
    assert x < e * y;
    assert e == (n + 1) as real;
  }

  /**
   * `startForPlayback`: the delay to the next beat boundary. For a
   * non-negative start time it lies in (0, one beat] and lands exactly on the
   * boundary after the starting beat.
   */
  function PlaybackDelayMs(startTime: real, tempo: int): (ms: real)
    requires tempo > 0
    ensures startTime >= 0.0 ==> 0.0 < ms <= BeatDelayMs(tempo)
    ensures startTime >= 0.0 ==>
              startTime + ms / 1000.0 == (PlaybackBeatCount(startTime, tempo) + 1) as real * SecondsPerBeat(tempo)
  {
    var spb := SecondsPerBeat(tempo);
    var offset := JsNumbers.Fmod(startTime, spb);
    assert startTime >= 0.0 ==>
      offset == startTime - PlaybackBeatCount(startTime, tempo) as real * spb;
    (spb - offset) * 1000.0
  }

  class Metronome {
    /** `tempoRef`, `timeSignatureRef`: read fresh on every tick. */
    var tempo: int
    var timeSignature: int
    /** `isPlayingRef`, `isPreRollRef`, `beatCountRef`, `preRollCountRef` */
    var isPlaying: bool
    var isPreRoll: bool
    var beatCount: int
    var preRollCount: int
    /** The published `currentBeat` and `preRollBeat` state. */
    var currentBeat: int
    var preRollBeat: int
    /** `timerIdRef` */
    var timerRef: Option<TimerId>
    /** The beat timers the browser still holds, with their delays in milliseconds. */
    var beatTimers: map<TimerId, real>
    var nextTimerId: TimerId
    /** Every hi-hat played so far, in order. */
    var clicks: seq<HiHat>
    /** Pre-roll completion callbacks armed and not yet run, and how many have run. */
    var completionTimers: nat
    var completionCalls: nat
    /** Completion callbacks armed since the last `Start`/`StartForPlayback`. */
    ghost var completionsThisRun: nat

    ghost predicate Valid()
      reads this
    {
      && tempo > 0 && timeSignature > 0 && nextTimerId >= 1
      // at most one beat timer is live, and it is the one the ref holds
      && (forall id :: id in beatTimers ==> timerRef == Some(id) && 1 <= id < nextTimerId)
      && (timerRef.Some? ==> 1 <= timerRef.value < nextTimerId)
      // no click chain while stopped
      && (!isPlaying ==> beatTimers == map[])
      // pre-roll completes at most once per start, and not before the pre-roll ends
      && (isPreRoll ==> isPlaying && completionsThisRun == 0)
      && completionsThisRun <= 1
    }

    constructor (initialTempo: int)
      requires initialTempo > 0
      ensures Valid()
      ensures tempo == initialTempo && timeSignature == DefaultTimeSignature
      ensures !isPlaying && !isPreRoll && beatCount == 0 && preRollCount == 0
      ensures currentBeat == 0 && preRollBeat == 0
      ensures timerRef == None && beatTimers == map[] && clicks == []
      ensures completionTimers == 0 && completionCalls == 0
    {
      tempo := initialTempo;
      timeSignature := DefaultTimeSignature;
      isPlaying, isPreRoll := false, false;
      beatCount, preRollCount := 0, 0;
      currentBeat, preRollBeat := 0, 0;
      timerRef := None;
      beatTimers := map[];
      nextTimerId := 1;
      clicks := [];
      completionTimers, completionCalls := 0, 0;
      completionsThisRun := 0;
    }

    /** The `preRollTotal` the hook returns. */
    function PreRollClicks(): (n: int)
      reads this
      requires Valid()
      ensures n >= 1
    {
      PreRollTotal(timeSignature)
    }

    method SetTempo(t: int)
      requires Valid() && t > 0
      modifies this`tempo
      ensures Valid() && tempo == t
    {
      tempo := t;
    }

    method SetTimeSignature(n: int)
      requires Valid() && n > 0
      modifies this`timeSignature
      ensures Valid() && timeSignature == n
    {
      timeSignature := n;
    }

    /** `if (timerIdRef.current) { clearTimeout(...); timerIdRef.current = null; }` */
    method ClearBeatTimer()
      requires Valid()
      modifies this`beatTimers, this`timerRef
      ensures Valid()
      ensures timerRef == None && beatTimers == map[]
    {
      if timerRef.Some? {
        beatTimers := beatTimers - {timerRef.value};
        timerRef := None;
      }
      assert beatTimers.Keys == {};
    }

    /** `setTimeout(() => scheduleNextBeat(ctx), delay)` stored in `timerIdRef`. */
    method ArmBeatTimer(delay: real)
      requires Valid() && beatTimers == map[] && isPlaying
      modifies this`beatTimers, this`timerRef, this`nextTimerId
      ensures Valid()
      ensures timerRef == Some(old(nextTimerId)) && nextTimerId == old(nextTimerId) + 1
      ensures beatTimers == map[old(nextTimerId) := delay]
    {
      timerRef := Some(nextTimerId);
      beatTimers := map[nextTimerId := delay];
      nextTimerId := nextTimerId + 1;
    }

    /**
     * `scheduleNextBeat`: when not playing, nothing at all happens. Otherwise
     * one click is played (a pre-roll click accented on the first beat of
     * each bar, or a normal click accented on beat 1), the matching counter
     * advances, and the next tick is armed one beat later at the tempo read
     * now. The pre-roll ends when its counter reaches `preRollTotal`.
     */
    method ScheduleNextBeat()
      requires Valid() && beatTimers == map[]
      modifies this`clicks, this`preRollCount, this`preRollBeat, this`isPreRoll, this`beatCount
      modifies this`completionTimers, this`completionsThisRun, this`currentBeat
      modifies this`timerRef, this`beatTimers, this`nextTimerId
      ensures Valid()
      ensures !old(isPlaying) ==>
                && isPreRoll == old(isPreRoll) && beatCount == old(beatCount) && preRollCount == old(preRollCount)
                && currentBeat == old(currentBeat) && preRollBeat == old(preRollBeat)
                && timerRef == old(timerRef) && beatTimers == map[] && nextTimerId == old(nextTimerId)
                && clicks == old(clicks) && completionTimers == old(completionTimers)
      ensures old(isPlaying) ==>
                && timerRef == Some(old(nextTimerId)) && nextTimerId == old(nextTimerId) + 1
                && beatTimers == map[old(nextTimerId) := BeatDelayMs(tempo)]
      ensures old(isPlaying) && old(isPreRoll) ==>
                && clicks == old(clicks) + [HiHat(JsNumbers.IntRem(old(preRollCount), timeSignature) == 0, true)]
                && preRollCount == old(preRollCount) + 1
                && preRollBeat == PreRollTotal(timeSignature) - preRollCount
                && currentBeat == old(currentBeat)
                && (if preRollCount >= PreRollTotal(timeSignature)
                    then !isPreRoll && beatCount == 0 && completionTimers == old(completionTimers) + 1
                    else isPreRoll && beatCount == old(beatCount) && completionTimers == old(completionTimers))
      ensures old(isPlaying) && !old(isPreRoll) ==>
                && clicks == old(clicks) + [HiHat(JsNumbers.IntRem(old(beatCount), timeSignature) == 0, false)]
                && currentBeat == BeatInBar(old(beatCount), timeSignature)
                && beatCount == old(beatCount) + 1
                && !isPreRoll && preRollCount == old(preRollCount) && preRollBeat == old(preRollBeat)
                && completionTimers == old(completionTimers)
    {
      if !isPlaying {
        return;
      }
      if isPreRoll {
        PlayPreRollClick();
      } else {
        PlayBeatClick();
      }
      ArmBeatTimer(BeatDelayMs(tempo));
    }

    /** The pre-roll branch of `scheduleNextBeat`: one pre-roll click, and the pre-roll ends at `preRollTotal`. */
    method PlayPreRollClick()
      requires Valid() && isPlaying && isPreRoll
      modifies this`clicks, this`preRollCount, this`preRollBeat, this`isPreRoll, this`beatCount
      modifies this`completionTimers, this`completionsThisRun
      ensures Valid()
      ensures clicks == old(clicks) + [HiHat(JsNumbers.IntRem(old(preRollCount), timeSignature) == 0, true)]
      ensures preRollCount == old(preRollCount) + 1
      ensures preRollBeat == PreRollTotal(timeSignature) - preRollCount
      ensures if preRollCount >= PreRollTotal(timeSignature)
              then !isPreRoll && beatCount == 0 && completionTimers == old(completionTimers) + 1
              else isPreRoll && beatCount == old(beatCount) && completionTimers == old(completionTimers)
    {
      var preRollTotal := PreRollTotal(timeSignature);
      var isAccent := JsNumbers.IntRem(preRollCount, timeSignature) == 0;
      clicks := clicks + [HiHat(isAccent, true)];
      preRollCount := preRollCount + 1;
      preRollBeat := preRollTotal - preRollCount;
      if preRollCount >= preRollTotal {
        isPreRoll := false;
        beatCount := 0;
        completionTimers := completionTimers + 1;
        completionsThisRun := completionsThisRun + 1;
      }
    }

    /** The normal branch of `scheduleNextBeat`: one click, accented on beat 1 of the bar. */
    method PlayBeatClick()
      requires Valid() && isPlaying && !isPreRoll
      modifies this`clicks, this`currentBeat, this`beatCount
      ensures Valid()
      ensures clicks == old(clicks) + [HiHat(JsNumbers.IntRem(old(beatCount), timeSignature) == 0, false)]
      ensures currentBeat == BeatInBar(old(beatCount), timeSignature)
      ensures beatCount == old(beatCount) + 1
    {
      var beatInBar := JsNumbers.IntRem(beatCount, timeSignature);
      clicks := clicks + [HiHat(beatInBar == 0, false)];
      currentBeat := beatInBar + 1;
      beatCount := beatCount + 1;
    }

    /** The beat timer `id` fires: the browser drops it and runs `scheduleNextBeat`. */
    method Tick(id: TimerId)
      requires Valid() && id in beatTimers
      modifies this
      ensures Valid()
      ensures isPlaying && timerRef == Some(old(nextTimerId))
      ensures beatTimers == map[old(nextTimerId) := BeatDelayMs(tempo)]
      ensures tempo == old(tempo) && timeSignature == old(timeSignature)
      ensures nextTimerId == old(nextTimerId) + 1 && completionCalls == old(completionCalls)
      ensures old(isPreRoll) ==>
                && clicks == old(clicks) + [HiHat(JsNumbers.IntRem(old(preRollCount), timeSignature) == 0, true)]
                && preRollCount == old(preRollCount) + 1
                && preRollBeat == PreRollTotal(timeSignature) - preRollCount
                && currentBeat == old(currentBeat)
                && (isPreRoll <==> preRollCount < PreRollTotal(timeSignature))
                && beatCount == (if isPreRoll then old(beatCount) else 0)
                && completionTimers == old(completionTimers) + (if isPreRoll then 0 else 1)
      ensures !old(isPreRoll) ==>
                && clicks == old(clicks) + [HiHat(JsNumbers.IntRem(old(beatCount), timeSignature) == 0, false)]
                && beatCount == old(beatCount) + 1
                && currentBeat == BeatInBar(old(beatCount), timeSignature)
                && !isPreRoll && preRollCount == old(preRollCount) && preRollBeat == old(preRollBeat)
                && completionTimers == old(completionTimers)
    {
      beatTimers := beatTimers - {id};
      assert beatTimers.Keys == {};
      ScheduleNextBeat();
    }

    /**
     * `start(withPreRoll)`: cancel any pending tick, reset both counters and
     * play the first click at once. That click is accented; with pre-roll it
     * is the first pre-roll click.
     */
    method Start(withPreRoll: bool)
      requires Valid()
      modifies this
      ensures Valid()
      ensures isPlaying && tempo == old(tempo) && timeSignature == old(timeSignature)
      ensures clicks == old(clicks) + [HiHat(true, withPreRoll)]
      ensures completionCalls == old(completionCalls)
      ensures timerRef == Some(old(nextTimerId)) && beatTimers == map[old(nextTimerId) := BeatDelayMs(tempo)]
      ensures withPreRoll ==>
                && preRollCount == 1 && preRollBeat == PreRollTotal(timeSignature) - 1 && currentBeat == 0
                && isPreRoll == (1 < PreRollTotal(timeSignature))
                && beatCount == 0
                && completionTimers == old(completionTimers) + (if isPreRoll then 0 else 1)
      ensures !withPreRoll ==>
                && !isPreRoll && preRollCount == 0 && beatCount == 1 && currentBeat == 1
                && preRollBeat == old(preRollBeat) && completionTimers == old(completionTimers)
    {
      ClearBeatTimer();
      ResetForStart(withPreRoll);
      ScheduleNextBeat();
    }

    /** The resets `start` performs before its first click. */
    method ResetForStart(withPreRoll: bool)
      requires Valid() && beatTimers == map[]
      modifies this`beatCount, this`preRollCount, this`completionsThisRun, this`isPreRoll
      modifies this`preRollBeat, this`isPlaying, this`currentBeat
      ensures Valid() && isPlaying && beatCount == 0 && preRollCount == 0 && currentBeat == 0
      ensures isPreRoll == withPreRoll
      ensures preRollBeat == if withPreRoll then timeSignature else old(preRollBeat)
    {
      beatCount := 0;
      preRollCount := 0;
      completionsThisRun := 0;
      if withPreRoll {
        isPreRoll := true;
        preRollBeat := timeSignature;
      } else {
        isPreRoll := false;
      }
      isPlaying := true;
      currentBeat := 0;
    }

    /** `stop`: cancel the pending tick and reset both flags, both counters and the published beats. */
    method Stop()
      requires Valid()
      modifies this
      ensures Valid()
      ensures !isPlaying && !isPreRoll && beatCount == 0 && preRollCount == 0
      ensures currentBeat == 0 && preRollBeat == 0
      ensures timerRef == None && beatTimers == map[]
      ensures tempo == old(tempo) && timeSignature == old(timeSignature) && clicks == old(clicks)
      ensures completionTimers == old(completionTimers) && completionCalls == old(completionCalls)
    {
      ClearBeatTimer();
      isPlaying := false;
      isPreRoll := false;
      currentBeat := 0;
      preRollBeat := 0;
      beatCount := 0;
      preRollCount := 0;
    }

    /**
     * `startForPlayback(startTime)`: cancel any pending tick, position the
     * beat counter on the beat containing `startTime` and arm the first tick
     * for the next beat boundary. No click is played now.
     */
    method StartForPlayback(startTime: real)
      requires Valid()
      modifies this
      ensures Valid()
      ensures isPlaying && !isPreRoll
      ensures beatCount == PlaybackBeatCount(startTime, tempo)
      ensures currentBeat == BeatInBar(beatCount, timeSignature)
      ensures timerRef == Some(old(nextTimerId))
      ensures beatTimers == map[old(nextTimerId) := PlaybackDelayMs(startTime, tempo)]
      ensures tempo == old(tempo) && timeSignature == old(timeSignature) && clicks == old(clicks)
      ensures preRollCount == old(preRollCount) && preRollBeat == old(preRollBeat)
      ensures completionTimers == old(completionTimers) && completionCalls == old(completionCalls)
    {
      ClearBeatTimer();
      beatCount := PlaybackBeatCount(startTime, tempo);
      isPlaying := true;
      isPreRoll := false;
      completionsThisRun := 0;
      currentBeat := JsNumbers.IntRem(beatCount, timeSignature) + 1;
      ArmBeatTimer(PlaybackDelayMs(startTime, tempo));
    }

    /** The 50 ms pre-roll completion timer fires and the callback runs (`stop` does not cancel it). */
    method FirePreRollCompletion()
      requires Valid() && completionTimers > 0
      modifies this`completionTimers, this`completionCalls
      ensures Valid()
      ensures completionTimers == old(completionTimers) - 1 && completionCalls == old(completionCalls) + 1
    {
      completionTimers := completionTimers - 1;
      completionCalls := completionCalls + 1;
    }
  }

  /**
   * The unmount cleanup: the pending tick is cancelled, the ref keeps its
   * stale handle, and nothing else changes.
   */
  method Unmount(m: Metronome)
    requires m.Valid()
    modifies m`beatTimers
    ensures m.Valid() && m.beatTimers == map[]
  {
    if m.timerRef.Some? {
      m.beatTimers := m.beatTimers - {m.timerRef.value};
    }
    assert m.beatTimers.Keys == {};
  }

  /** The pre-roll click track: every click is a pre-roll click, accented on each bar's first beat. */
  ghost predicate PreRollPattern(clicks: seq<HiHat>, ts: int)
    requires ts > 0
  {
    forall k :: 0 <= k < |clicks| ==> clicks[k] == HiHat(k % ts == 0, true)
  }

  /** Appending the click for count `|clicks|` keeps the pattern. */
  lemma PreRollPatternExtends(clicks: seq<HiHat>, ts: int)
    requires ts > 0 && PreRollPattern(clicks, ts)
    ensures PreRollPattern(clicks + [HiHat(JsNumbers.IntRem(|clicks|, ts) == 0, true)], ts)
  {
  }

  /** A full pre-roll: from a pre-roll start, `preRollTotal - 1` further ticks end it. */
  method PreRollScenario(ts: int) returns (m: Metronome)
    requires ts > 0
    ensures m.Valid() && fresh(m)
    ensures |m.clicks| == PreRollTotal(ts)
    ensures forall k :: 0 <= k < |m.clicks| ==> m.clicks[k] == HiHat(k % ts == 0, true)
    ensures !m.isPreRoll && m.isPlaying && m.beatCount == 0 && m.completionTimers == 1
  {
    m := new Metronome(DefaultTempo);
    m.SetTimeSignature(ts);
    m.Start(true);
    PreRollPatternExtends([], ts);
    assert m.clicks == [] + [HiHat(JsNumbers.IntRem(0, ts) == 0, true)];
    while m.isPreRoll
      invariant m.Valid() && m.timeSignature == ts
      invariant 1 <= m.preRollCount <= PreRollTotal(ts) && |m.clicks| == m.preRollCount
      invariant m.isPreRoll <==> m.preRollCount < PreRollTotal(ts)
      invariant m.isPlaying && m.timerRef.Some? && m.timerRef.value in m.beatTimers
      invariant PreRollPattern(m.clicks, ts)
      invariant m.beatCount == 0
      invariant m.completionTimers == if m.isPreRoll then 0 else 1
      decreases PreRollTotal(ts) - m.preRollCount
    {
      PreRollPatternExtends(m.clicks, ts);
      m.Tick(m.timerRef.value);
    }
  }
}
