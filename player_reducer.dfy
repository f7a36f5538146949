/**
 * The player store (src/reducers/playerReducer.js): a pure
 * `(state, action) -> state` function whose TRANSITION action goes through
 * the state machine and layers the countdown and note-position side effects
 * on top of it.
 */
module PlayerReducer {
  import opened Wrappers
  import opened PlayerStateMachine
  import JsNumbers

  /**
   * `RHYTHM_CONFIG` and `COUNTDOWN_CONFIG.duration` live in a configuration
   * file that is not part of this model; they are parameters here.
   */
  datatype RhythmConfig = RhythmConfig(
    tripletsPerBeat: int,
    beatsPerMeasure: int,
    notesPerMeasure: int,
    countdownDuration: int)

  /** The divisors must be positive (the source divides and takes remainders by them). */
  predicate ValidConfig(cfg: RhythmConfig) {
    cfg.tripletsPerBeat > 0 && cfg.beatsPerMeasure > 0 && cfg.notesPerMeasure > 0
  }

  datatype PlayerStore = PlayerStore(
    playerStatus: State,
    countdown: int,
    currentNoteIndex: int,
    currentBeat: int,
    currentTriplet: int,
    currentMeasure: int,
    tempo: int,
    isLooping: bool,
    isMetronomeEnabled: bool,
    isNotesMuted: bool,
    isCountdownEnabled: bool,
    bassVolume: real,
    metronomeVolume: real,
    isAudioReady: bool)

  /** `initialPlayerState` */
  const InitialPlayerState := PlayerStore(
    Idle, 0, -1, -1, -1, 0, 100, true, false, false, true, 0.7, 0.5, false)

  /** The `PLAYER_ACTIONS` with their payloads; `Other` stands for any other action type. */
  datatype Action =
    | Transition(event: string)
    | SetCountdown(countdown: int)
    | UpdateNote(index: int)
    | ResetNote
    | SetTempo(tempo: int)
    | ToggleLoop
    | ToggleMetronome
    | ToggleNotesMuted
    | ToggleCountdown
    | SetAudioReady(ready: bool)
    | SetBassVolume(volume: real)
    | SetMetronomeVolume(volume: real)
    | Other(actionType: string)

  /** The user settings: the fields only their own actions may change. */
  predicate SameSettings(a: PlayerStore, b: PlayerStore)
  {
    && a.tempo == b.tempo && a.isLooping == b.isLooping
    && a.bassVolume == b.bassVolume && a.metronomeVolume == b.metronomeVolume
  }

  /** The note-position fields as they are when nothing is playing. */
  function ClearNotePosition(s: PlayerStore): (r: PlayerStore)
    ensures r.playerStatus == s.playerStatus && SameSettings(r, s)
  {
    s.(currentNoteIndex := -1, currentBeat := -1, currentTriplet := -1, currentMeasure := 0)
  }

  /** The store after an accepted transition from `s` to `next`. */
  function EnterState(cfg: RhythmConfig, s: PlayerStore, next: State): (r: PlayerStore)
    ensures r.playerStatus == next && SameSettings(r, s)
  {
    var moved := s.(playerStatus := next);
    if next == Countdown then moved.(countdown := cfg.countdownDuration)
    else if next == Playing && s.playerStatus == Countdown then moved.(countdown := 0)
    else if next == Idle then ClearNotePosition(moved).(countdown := 0)
    else moved
  }

  /** Triplet, beat and measure derived from a note index, as UPDATE_NOTE computes them. */
  function NotePosition(cfg: RhythmConfig, s: PlayerStore, index: int): (r: PlayerStore)
    requires ValidConfig(cfg)
    ensures r.playerStatus == s.playerStatus && SameSettings(r, s)
  {
    var tripletInBeat := JsNumbers.IntRem(index, cfg.tripletsPerBeat);
    var beat := JsNumbers.IntRem(JsNumbers.FloorDiv(index, cfg.tripletsPerBeat), cfg.beatsPerMeasure);
    var measure := JsNumbers.FloorDiv(index, cfg.notesPerMeasure) + 1;
    s.(currentNoteIndex := index,
       currentTriplet := tripletInBeat,
       currentMeasure := measure,
       currentBeat := if tripletInBeat == 0 then beat else s.currentBeat)
  }

  /**
   * `playerReducer`. The status changes only through an accepted
   * state-machine transition, and settings change only through their own
   * action.
   */
  function Reduce(cfg: RhythmConfig, s: PlayerStore, action: Action): (r: PlayerStore)
    requires ValidConfig(cfg)
    ensures r.playerStatus != s.playerStatus ==>
              action.Transition? && Lookup(s.playerStatus, action.event) == Some(r.playerStatus)
    ensures r.tempo != s.tempo ==> action.SetTempo?
    ensures r.isLooping != s.isLooping ==> action == ToggleLoop
    ensures r.bassVolume != s.bassVolume ==> action.SetBassVolume?
    ensures r.metronomeVolume != s.metronomeVolume ==> action.SetMetronomeVolume?
  {
    match action
    case Transition(event) =>
      (match Lookup(s.playerStatus, event)
       case None => s
       case Some(next) => EnterState(cfg, s, next))
    case SetCountdown(n) => s.(countdown := n)
    case UpdateNote(index) => NotePosition(cfg, s, index)
    case ResetNote => ClearNotePosition(s)
    case SetTempo(t) => s.(tempo := t)
    case ToggleLoop => s.(isLooping := !s.isLooping)
    case ToggleMetronome => s.(isMetronomeEnabled := !s.isMetronomeEnabled)
    case ToggleNotesMuted => s.(isNotesMuted := !s.isNotesMuted)
    case ToggleCountdown => s.(isCountdownEnabled := !s.isCountdownEnabled)
    case SetAudioReady(b) => s.(isAudioReady := b)
    case SetBassVolume(v) => s.(bassVolume := v)
    case SetMetronomeVolume(v) => s.(metronomeVolume := v)
    case Other(_) => s
  }

  /** A transition the machine rejects (unknown event included) returns the identical state. */
  lemma RejectedTransitionIsIdentity(cfg: RhythmConfig, s: PlayerStore, event: string)
    requires ValidConfig(cfg)
    requires Lookup(s.playerStatus, event).None?
    ensures Reduce(cfg, s, Transition(event)) == s
  {
  }

  /** Landing in Countdown (the COUNTDOWN_TICK self-loop included) seeds the configured duration. */
  lemma EnterCountdownSeedsDuration(cfg: RhythmConfig, s: PlayerStore, event: string)
    requires ValidConfig(cfg)
    requires Lookup(s.playerStatus, event) == Some(Countdown)
    ensures Reduce(cfg, s, Transition(event)) == s.(playerStatus := Countdown, countdown := cfg.countdownDuration)
  {
  }

  /** Countdown -> Playing zeroes the countdown; Paused -> Playing leaves it as it was. */
  lemma EnterPlayingCountdown(cfg: RhythmConfig, s: PlayerStore, event: string)
    requires ValidConfig(cfg)
    requires Lookup(s.playerStatus, event) == Some(Playing)
    ensures var r := Reduce(cfg, s, Transition(event));
            r.playerStatus == Playing &&
            r.countdown == (if s.playerStatus == Countdown then 0 else s.countdown) &&
            r.(countdown := s.countdown, playerStatus := s.playerStatus) == s
  {
  }

  /** Entering Idle restores the countdown and the note-position sentinels and changes nothing else. */
  lemma EnterIdleResets(cfg: RhythmConfig, s: PlayerStore, event: string)
    requires ValidConfig(cfg)
    requires Lookup(s.playerStatus, event) == Some(Idle)
    ensures var r := Reduce(cfg, s, Transition(event));
            r == s.(playerStatus := Idle, countdown := 0, currentNoteIndex := -1,
                    currentBeat := -1, currentTriplet := -1, currentMeasure := 0)
  {
  }

  /** Paused is entered only from Playing by PAUSE, and entering it touches nothing but the status. */
  lemma EnterPausedOnlyStatus(cfg: RhythmConfig, s: PlayerStore, event: string)
    requires ValidConfig(cfg)
    requires Lookup(s.playerStatus, event) == Some(Paused)
    ensures s.playerStatus == Playing && event == "PAUSE"
    ensures Reduce(cfg, s, Transition(event)) == s.(playerStatus := Paused)
  {
  }

  /**
   * UPDATE_NOTE with a non-negative index: the triplet is the index modulo
   * tripletsPerBeat, the measure is 1-based, and the beat is recomputed only
   * on the first triplet of a beat.
   */
  lemma {:induction false} UpdateNotePosition(cfg: RhythmConfig, s: PlayerStore, i: int)
    requires ValidConfig(cfg) && i >= 0
    ensures var r := Reduce(cfg, s, UpdateNote(i));
            && r.currentNoteIndex == i
            && r.currentTriplet == i % cfg.tripletsPerBeat
            && 0 <= r.currentTriplet < cfg.tripletsPerBeat
            && r.currentMeasure == i / cfg.notesPerMeasure + 1 >= 1
            && (i % cfg.tripletsPerBeat == 0 ==>
                  r.currentBeat == (i / cfg.tripletsPerBeat) % cfg.beatsPerMeasure &&
                  0 <= r.currentBeat < cfg.beatsPerMeasure)
            && (i % cfg.tripletsPerBeat != 0 ==> r.currentBeat == s.currentBeat)
            && r.(currentNoteIndex := s.currentNoteIndex, currentTriplet := s.currentTriplet,
                  currentMeasure := s.currentMeasure, currentBeat := s.currentBeat) == s
  {
    var t, b, n := cfg.tripletsPerBeat, cfg.beatsPerMeasure, cfg.notesPerMeasure;
    var r := Reduce(cfg, s, UpdateNote(i));
    assert r == NotePosition(cfg, s, i);
    DivNonNegative(i, t);
    DivNonNegative(i, n);
    assert JsNumbers.IntRem(i, t) == i % t;
    assert JsNumbers.IntRem(i / t, b) == (i / t) % b;
    assert r.currentMeasure == i / n + 1;
  }

  lemma DivNonNegative(i: int, d: int)
    requires i >= 0 && d > 0
    ensures i / d >= 0
  {
  }

  /** RESET_NOTE gives the same note-position sentinels as entering Idle and keeps the status. */
  lemma ResetNoteMatchesIdle(cfg: RhythmConfig, s: PlayerStore, event: string)
    requires ValidConfig(cfg)
    requires Lookup(s.playerStatus, event) == Some(Idle)
    ensures var reset := Reduce(cfg, s, ResetNote);
            var stopped := Reduce(cfg, s, Transition(event));
            reset.playerStatus == s.playerStatus && reset.countdown == s.countdown &&
            reset.(playerStatus := Idle, countdown := 0) == stopped
  {
  }

  /** Each TOGGLE_* action is an involution and flips only its own flag. */
  lemma TogglesAreInvolutions(cfg: RhythmConfig, s: PlayerStore, a: Action)
    requires ValidConfig(cfg)
    requires a == ToggleLoop || a == ToggleMetronome || a == ToggleNotesMuted || a == ToggleCountdown
    ensures Reduce(cfg, Reduce(cfg, s, a), a) == s
    ensures var r := Reduce(cfg, s, a);
            r != s &&
            r.(isLooping := s.isLooping, isMetronomeEnabled := s.isMetronomeEnabled,
               isNotesMuted := s.isNotesMuted, isCountdownEnabled := s.isCountdownEnabled) == s
  {
  }

  /** Setters store their payload unclamped; an unknown action type returns the state unchanged. */
  lemma SettersStorePayload(cfg: RhythmConfig, s: PlayerStore, t: int, v: real, b: bool, n: int, other: string)
    requires ValidConfig(cfg)
    ensures Reduce(cfg, s, SetTempo(t)) == s.(tempo := t)
    ensures Reduce(cfg, s, SetBassVolume(v)) == s.(bassVolume := v)
    ensures Reduce(cfg, s, SetMetronomeVolume(v)) == s.(metronomeVolume := v)
    ensures Reduce(cfg, s, SetAudioReady(b)) == s.(isAudioReady := b)
    ensures Reduce(cfg, s, SetCountdown(n)) == s.(countdown := n)
    ensures Reduce(cfg, s, Other(other)) == s
  {
  }

  /*
   * `isPlaying`, `isCountingDown`, `isPaused`, `isIdle`. Each status is the
   * one in which the machine accepts a particular event.
   */

  /** Playing is the only status that can be paused. */
  function IsPlaying(s: PlayerStore): (b: bool)
    ensures b <==> CanTransition(StateName(s.playerStatus), "PAUSE")
  {
    assert ParseState(StateName(s.playerStatus)) == Some(s.playerStatus);
    s.playerStatus == Playing
  }

  /** Counting down is the only status that takes countdown ticks. */
  function IsCountingDown(s: PlayerStore): (b: bool)
    ensures b <==> CanTransition(StateName(s.playerStatus), "COUNTDOWN_TICK")
  {
    assert ParseState(StateName(s.playerStatus)) == Some(s.playerStatus);
    s.playerStatus == Countdown
  }

  /** Paused is the only status that can be resumed. */
  function IsPaused(s: PlayerStore): (b: bool)
    ensures b <==> CanTransition(StateName(s.playerStatus), "RESUME")
  {
    assert ParseState(StateName(s.playerStatus)) == Some(s.playerStatus);
    s.playerStatus == Paused
  }

  /** Idle is the only status that cannot be stopped, and the only one that can be played. */
  function IsIdle(s: PlayerStore): (b: bool)
    ensures b <==> !CanTransition(StateName(s.playerStatus), "STOP")
    ensures b <==> CanTransition(StateName(s.playerStatus), "PLAY")
  {
    assert ParseState(StateName(s.playerStatus)) == Some(s.playerStatus);
    s.playerStatus == Idle
  }

  /** Exactly one of the derived status tests holds of any store. */
  lemma ExactlyOneStatus(s: PlayerStore)
    ensures (if IsPlaying(s) then 1 else 0) + (if IsCountingDown(s) then 1 else 0) +
            (if IsPaused(s) then 1 else 0) + (if IsIdle(s) then 1 else 0) == 1
  {
  }

  /**
   * `initialPlayerState` is idle with the note position cleared: stopping
   * playback from it gives it back unchanged.
   */
  lemma InitialStoreIsStopped(cfg: RhythmConfig)
    requires ValidConfig(cfg)
    ensures IsIdle(InitialPlayerState) && InitialPlayerState.countdown == 0
    ensures ClearNotePosition(InitialPlayerState) == InitialPlayerState
    ensures Reduce(cfg, InitialPlayerState.(playerStatus := Playing), Transition("STOP")) == InitialPlayerState
  {
  }

  /** From the initial store, PLAY then COUNTDOWN_COMPLETE reaches Playing with the countdown zeroed. */
  lemma PlayThenCompleteFromInitial(cfg: RhythmConfig)
    requires ValidConfig(cfg)
    ensures var counting := Reduce(cfg, InitialPlayerState, Transition("PLAY"));
            var playing := Reduce(cfg, counting, Transition("COUNTDOWN_COMPLETE"));
            counting.playerStatus == Countdown && counting.countdown == cfg.countdownDuration &&
            playing.playerStatus == Playing && playing.countdown == 0
  {
  }
}
