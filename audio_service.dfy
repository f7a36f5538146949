/**
 * The bookkeeping of the sound renderer (src/services/AudioService.js): the
 * audio-context lifecycle, the silent guards of the three `play*` methods
 * and the choice of click kind. The Web Audio graph itself is not modelled;
 * each sound that would be started is recorded as a `Sound` value.
 */
module AudioService {
  import opened Wrappers

  /** An audio context: which one it is (creation order) and whether the browser suspended it. */
  datatype Context = Context(serial: nat, suspended: bool)

  /** The three metronome click voices. */
  datatype ClickKind = Downbeat | Beat | Triplet

  /** A sound handed to the audio graph, with the parameters the model keeps. */
  datatype Sound =
    | BassNote(stringName: string, fret: int, time: real)
    | Click(kind: ClickKind, frequency: int, volume: real, time: real)
    | Beep(frequency: int, time: real)

  /** `TEMPO_CONFIG` (src/config/audioConfig.js): the player's tempo range and step. */
  const TempoDefault := 100
  const TempoMin := 40
  const TempoMax := 160
  const TempoStep := 5

  /** `SOUND_CONFIG.metronome` and `SOUND_CONFIG.countdown` (src/config/audioConfig.js). */
  const DownbeatFrequency := 1000
  const BeatFrequency := 800
  const TripletFrequency := 600
  const DownbeatVolume := 0.4
  const BeatVolume := 0.25
  const TripletVolume := 0.15
  const CountdownFrequency := 440
  const CountdownStartFrequency := 880

  /** A downbeat only when it is also the first subdivision of its beat. */
  function ClickKindOf(isDownbeat: bool, isFirstOfBeat: bool): (k: ClickKind)
    ensures k == Downbeat <==> isDownbeat && isFirstOfBeat
    ensures k == Beat <==> !isDownbeat && isFirstOfBeat
    ensures k == Triplet <==> !isFirstOfBeat
  {
    if isDownbeat && isFirstOfBeat then Downbeat
    else if isFirstOfBeat then Beat
    else Triplet
  }

  /** How prominent a click is: downbeat above beat above triplet. */
  function Prominence(k: ClickKind): nat
  {
    match k
    case Downbeat => 2
    case Beat => 1
    case Triplet => 0
  }

  function ClickFrequency(k: ClickKind): (hz: int)
    ensures hz > 0
  {
    match k
    case Downbeat => DownbeatFrequency
    case Beat => BeatFrequency
    case Triplet => TripletFrequency
  }

  function ClickVolume(k: ClickKind): (v: real)
    ensures 0.0 < v <= 1.0
  {
    match k
    case Downbeat => DownbeatVolume
    case Beat => BeatVolume
    case Triplet => TripletVolume
  }

  /** A more prominent click is both higher and louder. */
  lemma ProminentClicksAreHigherAndLouder(k1: ClickKind, k2: ClickKind)
    requires Prominence(k1) > Prominence(k2)
    ensures ClickFrequency(k1) > ClickFrequency(k2)
    ensures ClickVolume(k1) > ClickVolume(k2)
  {
  }

  /** The click a call would start: pitch and volume always of one and the same kind. */
  function ClickSound(time: real, isDownbeat: bool, isFirstOfBeat: bool): (s: Sound)
    ensures s.Click? && s.time == time && s.kind == ClickKindOf(isDownbeat, isFirstOfBeat)
    ensures s.frequency == ClickFrequency(s.kind) && s.volume == ClickVolume(s.kind)
  {
    var kind := ClickKindOf(isDownbeat, isFirstOfBeat);
    Click(kind, ClickFrequency(kind), ClickVolume(kind), time)
  }

  /** The countdown beep: the "GO!" beep is an octave above the others. */
  function BeepFrequency(isStart: bool): (hz: int)
    ensures isStart ==> hz == 2 * CountdownFrequency
    ensures !isStart ==> hz == CountdownFrequency
  {
    if isStart then CountdownStartFrequency else CountdownFrequency
  }

  class Renderer {
    /** `this.context`: None stands for `null`. */
    var context: Option<Context>
    var isReady: bool
    /** How many contexts have been created, which names the next one. */
    var contextsCreated: nat
    /** Every sound started, in order. */
    var sounds: seq<Sound>

    constructor ()
      ensures context == None && !isReady && contextsCreated == 0 && sounds == []
    {
      context := None;
      isReady := false;
      contextsCreated := 0;
      sounds := [];
    }

    /**
     * `init`: create a context only when none is held; in every case return
     * the held one. Whether the browser starts it suspended is a parameter.
     */
    method Init(startsSuspended: bool) returns (ctx: Context)
      modifies this`context, this`contextsCreated
      ensures context == Some(ctx)
      ensures old(context).Some? ==> context == old(context) && contextsCreated == old(contextsCreated)
      ensures old(context).None? ==>
                ctx == Context(old(contextsCreated), startsSuspended) && contextsCreated == old(contextsCreated) + 1
    {
      if context.None? {
        context := Some(Context(contextsCreated, startsSuspended));
        contextsCreated := contextsCreated + 1;
      }
      ctx := context.value;
    }

    /** `resume`: wake a suspended context, then report ready, whether or not a context exists. */
    method Resume() returns (ready: bool)
      modifies this`context, this`isReady
      ensures ready && isReady
      ensures old(context).None? ==> context == None
      ensures old(context).Some? ==>
                context == Some(Context(old(context).value.serial, false))
    {
      if context.Some? && context.value.suspended {
        context := Some(context.value.(suspended := false));
      }
      isReady := true;
      ready := isReady;
    }

    /** `close`: with a context, drop it and clear readiness; without one, nothing happens. */
    method Close()
      modifies this`context, this`isReady
      ensures context == None
      ensures old(context).Some? ==> !isReady
      ensures old(context).None? ==> isReady == old(isReady)
    {
      if context.Some? {
        context := None;
        isReady := false;
      }
    }

    /** The `currentTime` getter; the context's own clock is a parameter. */
    function CurrentTime(contextClock: real): (t: real)
      reads this
      ensures context.None? ==> t == 0.0
      ensures context.Some? ==> t == contextClock
    {
      if context.Some? then contextClock else 0.0
    }

    /** `playSound`: silent without a context or when muted. */
    method PlaySound(stringName: string, fret: int, time: real, muted: bool)
      modifies this`sounds
      ensures context.None? || muted ==> sounds == old(sounds)
      ensures context.Some? && !muted ==> sounds == old(sounds) + [BassNote(stringName, fret, time)]
    {
      if context.None? || muted {
        return;
      }
      sounds := sounds + [BassNote(stringName, fret, time)];
    }

    /** `playMetronomeClick`: silent without a context or when disabled. */
    method PlayMetronomeClick(time: real, isDownbeat: bool, isFirstOfBeat: bool, enabled: bool)
      modifies this`sounds
      ensures context.None? || !enabled ==> sounds == old(sounds)
      ensures context.Some? && enabled ==>
                && |sounds| == |old(sounds)| + 1 && sounds[..|old(sounds)|] == old(sounds)
                && sounds[|old(sounds)|].Click?
                && sounds[|old(sounds)|].kind == ClickKindOf(isDownbeat, isFirstOfBeat)
                && sounds[|old(sounds)|].frequency == ClickFrequency(ClickKindOf(isDownbeat, isFirstOfBeat))
                && sounds[|old(sounds)|].volume == ClickVolume(ClickKindOf(isDownbeat, isFirstOfBeat))
                && sounds[|old(sounds)|].time == time
    {
      if context.None? || !enabled {
        return;
      }
      sounds := sounds + [ClickSound(time, isDownbeat, isFirstOfBeat)];
    }

    /** `playCountdownBeep`: silent without a context; otherwise a beep at the context's current time. */
    method PlayCountdownBeep(isStart: bool, contextClock: real)
      modifies this`sounds
      ensures context.None? ==> sounds == old(sounds)
      ensures context.Some? ==> sounds == old(sounds) + [Beep(BeepFrequency(isStart), contextClock)]
    {
      if context.None? {
        return;
      }
      sounds := sounds + [Beep(BeepFrequency(isStart), CurrentTime(contextClock))];
    }
  }
}
