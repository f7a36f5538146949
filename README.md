# Bass Academy core, modelled in Dafny

This project models the logic at the heart of the Bass Academy interactive bass trainer and proves properties of it:

- **Player state machine** (`player_state_machine.dfy`):
  - the four player states, the seven events and the closed transition table;
  - the total lookup functions (`getNextState`, `canTransition`, `getAvailableEvents`);
  - a machine instance, as a class whose `Send` walks the listener list.
- **Player reducer** (`player_reducer.dfy`): a pure `(state, action) -> state` function. It layers the countdown seeding, the note-position sentinels and the triplet/beat/measure arithmetic on top of the machine.
- **Recording metronome** (`recording_metronome.dfy`): the pre-roll counter and click scheduler as a class over the hook's refs.
  - The browser's beat timers are explicit, as a map of live handles.
  - `Tick(id)` stands for timer `id` firing.
  - "At most one click chain is pending" is a class invariant.
- **Sound renderer** (`audio_service.dfy`):
  - the bookkeeping of the audio service: the context lifecycle and the silent guards of the `play*` methods;
  - the downbeat/beat/triplet click choice and its configured pitches and volumes.
- **Custom exercises:**
  - `exercises.dfy`: the shared record.
  - `exercise_library.dfy`: tab-data conversion, validation (an imperative error accumulation, proved equal to a declarative error list), duration estimate and statistics.
  - `exercise_manager.dfy`: templates, `create`, `duplicate`, and the stored list with upsert-by-id `save`, `delete` and `getById`.
  - `fretboard_editor.dfy`: the note-sequence operations of the fretboard editor.
  - `builder_hub.dfy`: the search/difficulty filter and the exercise card derivations.
- **Loop mode:**
  - `loop_analysis.dfy`: the timing-deviation statistics, as a loop over an in-place histogram array, proved equal to a recursive specification.
  - `loop_note.dfy`: the attack/sustain/fade animation effect of one note, with React's commit cycle made explicit.

Shared helpers: `wrappers.dfy` (`Option`), `js_numbers.dfy` (JavaScript's truncating `%`, `Math.floor`, `Math.round` and floating `%`, written out on `int` and `real`) and `seqs.dfy` (filter, subsequence, first-occurrence dedup).

The player's rhythm and countdown configuration lives in `src/config/uiConfig.js`, which is not part of this model. `tripletsPerBeat`, `beatsPerMeasure`, `notesPerMeasure` and the countdown duration are therefore parameters (`PlayerReducer.RhythmConfig`). The three divisors are required to be positive.

The validator accepts tempos up to 200 (`src/data/customExerciseLibrary.js:70`). The player's `TEMPO_CONFIG.max` and the editor's tempo slider both stop at 160. Each is modelled as written, and `FretboardEditor.TempoBoundsDisagree` states the disagreement.

## Model

| member | source | states |
|---|---|---|
| PlayerStateMachine.ParseState | src/machines/playerStateMachine.js:7-12 | a parsed state name prints back to itself; no state has a name that fails to parse |
| PlayerStateMachine.ParseEvent | src/machines/playerStateMachine.js:15-23 | a parsed event name prints back to itself; no event has a name that fails to parse |
| PlayerStateMachine.ParseEventName | src/machines/playerStateMachine.js:15-23 | parsing the name of any event gives that event back |
| PlayerStateMachine.Lookup | src/machines/playerStateMachine.js:26-44 | an event string that names no event finds nothing; one that names an event finds exactly the table entry for that event from that state |
| PlayerStateMachine.NextState | src/machines/playerStateMachine.js:26-44 | each target is reached exactly from the table's sources: Idle by STOP from any other state, Countdown by PLAY from Idle or COUNTDOWN_TICK from Countdown, Playing by PLAY_IMMEDIATE, COUNTDOWN_COMPLETE or RESUME, Paused by PAUSE from Playing |
| PlayerStateMachine.EventsFrom | src/machines/playerStateMachine.js:83-87 | lists an event iff the table defines it from that state, with no event twice |
| PlayerStateMachine.NineTransitions | src/machines/playerStateMachine.js:26-44 | the table has exactly nine entries (2 + 3 + 2 + 2), and an event is listed in a row iff the table defines it there |
| PlayerStateMachine.StopReturnsToIdle | src/machines/playerStateMachine.js:31-43 | STOP leads to Idle from every state except Idle, where it is rejected |
| PlayerStateMachine.IdleExits | src/machines/playerStateMachine.js:27-30 | Idle is left only by PLAY or PLAY_IMMEDIATE |
| PlayerStateMachine.GetNextState | src/machines/playerStateMachine.js:52-66 | a state or event name the table does not define yields no state, as the source's null does for ordinary strings; for known names the result is the table's entry (prototype property names: see Left out) |
| PlayerStateMachine.CanTransition | src/machines/playerStateMachine.js:74-76 | holds iff `getNextState` is non-null, and iff the event is among the state's available events (prototype property names: see Left out) |
| PlayerStateMachine.AvailableEvents | src/machines/playerStateMachine.js:83-87 | an unknown state has no available events |
| PlayerStateMachine.AvailableEventsExact | src/machines/playerStateMachine.js:83-87 | an event is listed iff it has a transition from that state, and no event is listed twice |
| PlayerStateMachine.NotifyAll | src/machines/playerStateMachine.js:105 | one call per listener, in listener order, each with the same change record |
| PlayerStateMachine.Machine.constructor | src/machines/playerStateMachine.js:92-94 | a new machine is in its initial state with no listeners and no notifications |
| PlayerStateMachine.Machine.GetState | src/machines/playerStateMachine.js:97 | the returned name is the name of the current state |
| PlayerStateMachine.Machine.CanSend | src/machines/playerStateMachine.js:111 | holds iff `canTransition(currentState, event)` |
| PlayerStateMachine.Machine.Send | src/machines/playerStateMachine.js:99-109 | accepts iff the table defines the event from the current state. On acceptance it moves to the table's target and notifies every listener once, in order, with `{prevState, event, nextState}`. Otherwise it returns false and changes nothing |
| PlayerStateMachine.Machine.Subscribe | src/machines/playerStateMachine.js:113-114 | set semantics: appends a new listener, and adding a present one changes nothing |
| PlayerStateMachine.Machine.Unsubscribe | src/machines/playerStateMachine.js:115 | the listener list becomes the old list without that listener: every other listener remains, in its old order, and listeners stay distinct |
| PlayerStateMachine.Machine.Reset | src/machines/playerStateMachine.js:118-120 | back to the initial state whatever happened before; listeners and notifications untouched |
| PlayerReducer.ClearNotePosition | src/reducers/playerReducer.js:123-130 | the note-position reset keeps the status and every user setting |
| PlayerReducer.EnterState | src/reducers/playerReducer.js:81-99 | an accepted transition sets the status to its target and keeps every user setting |
| PlayerReducer.NotePosition | src/reducers/playerReducer.js:107-121 | the note-position update keeps the status and every user setting |
| PlayerReducer.Reduce | src/reducers/playerReducer.js:68-162 | the status changes only through a TRANSITION the machine accepts, to the table's target. Tempo, looping and the two volumes change only through their own actions |
| PlayerReducer.RejectedTransitionIsIdentity | src/reducers/playerReducer.js:73-79 | a rejected (or unknown) event returns the identical state |
| PlayerReducer.EnterCountdownSeedsDuration | src/reducers/playerReducer.js:84-85 | landing in Countdown, the COUNTDOWN_TICK self-loop included, sets the countdown to the configured duration and changes nothing else |
| PlayerReducer.EnterPlayingCountdown | src/reducers/playerReducer.js:86-87 | Countdown to Playing zeroes the countdown; Paused to Playing leaves it; nothing else changes |
| PlayerReducer.EnterIdleResets | src/reducers/playerReducer.js:88-97 | entering Idle sets countdown 0 and the sentinels -1, -1, -1, 0, and changes nothing else |
| PlayerReducer.EnterPausedOnlyStatus | src/reducers/playerReducer.js:81-99 | Paused is reached only from Playing by PAUSE, and only the status changes |
| PlayerReducer.UpdateNotePosition | src/reducers/playerReducer.js:107-121 | for index i ≥ 0: the triplet is i mod tripletsPerBeat and the measure is i div notesPerMeasure + 1 ≥ 1. The beat is recomputed, to (i div tripletsPerBeat) mod beatsPerMeasure, only on a beat's first triplet. No other field changes |
| PlayerReducer.ResetNoteMatchesIdle | src/reducers/playerReducer.js:123-130 | RESET_NOTE gives the same sentinels as entering Idle while keeping the status and countdown |
| PlayerReducer.TogglesAreInvolutions | src/reducers/playerReducer.js:136-146 | each TOGGLE_* action applied twice is the identity, and applied once changes only its own flag |
| PlayerReducer.SettersStorePayload | src/reducers/playerReducer.js:103-160 | the setters store their payload unclamped; an unknown action returns the state unchanged |
| PlayerReducer.ExactlyOneStatus | src/reducers/playerReducer.js:165-179 | exactly one of `isPlaying`, `isCountingDown`, `isPaused`, `isIdle` holds |
| PlayerReducer.IsPlaying | src/reducers/playerReducer.js:165-167 | holds iff PAUSE is allowed from the store's status |
| PlayerReducer.IsCountingDown | src/reducers/playerReducer.js:169-171 | holds iff COUNTDOWN_TICK is allowed from the store's status |
| PlayerReducer.IsPaused | src/reducers/playerReducer.js:173-175 | holds iff RESUME is allowed from the store's status |
| PlayerReducer.IsIdle | src/reducers/playerReducer.js:177-179 | holds iff STOP is rejected, and iff PLAY is allowed |
| PlayerReducer.InitialStoreIsStopped | src/reducers/playerReducer.js:10-36 | the initial store is idle with no countdown, is its own note-reset, and is what STOP restores from a playing copy of it |
| PlayerReducer.PlayThenCompleteFromInitial | src/reducers/playerReducer.js:10-36 | from `initialPlayerState`, PLAY then COUNTDOWN_COMPLETE passes through Countdown with the configured duration and reaches Playing with the countdown zeroed |
| RecordingMetronome.SecondsPerBeat | src/features/recording/hooks/useRecordingMetronome.js:132 | one beat lasts a positive time |
| RecordingMetronome.BeatDelayMs | src/features/recording/hooks/useRecordingMetronome.js:169-173 | the re-arm delay is positive |
| RecordingMetronome.PreRollTotal | src/features/recording/hooks/useRecordingMetronome.js:133 | the pre-roll has at least one click |
| RecordingMetronome.BeatInBar | src/features/recording/hooks/useRecordingMetronome.js:161-164 | for a count ≥ 0 the published beat is count mod timeSignature + 1, in 1..timeSignature |
| RecordingMetronome.PlaybackBeatCount | src/features/recording/hooks/useRecordingMetronome.js:236-237 | the beat count n brackets the start time: n·spb ≤ t < (n+1)·spb, and n ≥ 0 for t ≥ 0 |
| RecordingMetronome.PlaybackDelayMs | src/features/recording/hooks/useRecordingMetronome.js:245-247 | for t ≥ 0 the delay lies in (0, one beat] and lands exactly on the boundary after the starting beat |
| RecordingMetronome.Metronome.constructor | src/features/recording/hooks/useRecordingMetronome.js:32-48 | initial tempo and time signature 4, stopped, counters 0, no timer, no clicks |
| RecordingMetronome.Metronome.PreRollClicks | src/features/recording/hooks/useRecordingMetronome.js:286 | the returned `preRollTotal` is at least 1 |
| RecordingMetronome.Metronome.SetTempo | src/features/recording/hooks/useRecordingMetronome.js:46-51 | the next tick reads the new tempo |
| RecordingMetronome.Metronome.SetTimeSignature | src/features/recording/hooks/useRecordingMetronome.js:47-52 | the next tick reads the new time signature |
| RecordingMetronome.Metronome.ClearBeatTimer | src/features/recording/hooks/useRecordingMetronome.js:182-185 | afterwards no beat timer is live and the ref is null |
| RecordingMetronome.Metronome.ArmBeatTimer | src/features/recording/hooks/useRecordingMetronome.js:169-173 | exactly one timer is live, with the given delay, and the ref holds its fresh handle |
| RecordingMetronome.Metronome.ScheduleNextBeat | src/features/recording/hooks/useRecordingMetronome.js:127-174 | when stopped, nothing happens. Otherwise one click is played (pre-roll or normal, accented as the source computes), the matching counter advances, and exactly one timer is re-armed one beat later at the tempo read now |
| RecordingMetronome.Metronome.PlayPreRollClick | src/features/recording/hooks/useRecordingMetronome.js:139-158 | the click is accented iff preRollCount mod timeSignature = 0; the counter advances by one and `preRollBeat` = total − count. At the total the pre-roll ends, `beatCount` resets and one completion callback is armed |
| RecordingMetronome.Metronome.PlayBeatClick | src/features/recording/hooks/useRecordingMetronome.js:159-166 | accented iff beatCount mod timeSignature = 0; the published beat is in 1..timeSignature; `beatCount` advances by one |
| RecordingMetronome.Metronome.Tick | src/features/recording/hooks/useRecordingMetronome.js:170-172 | the fired timer leaves the browser, then `scheduleNextBeat` runs. A pre-roll tick adds one click, increments the count, publishes `preRollBeat` = total − count, and ends the pre-roll at the total. A normal tick adds one click, publishes the beat in the bar and keeps the pre-roll fields. Either way one fresh timer is armed, and completion calls, tempo and time signature are unchanged |
| RecordingMetronome.Metronome.Start | src/features/recording/hooks/useRecordingMetronome.js:180-208 | cancels any pending tick, resets both counters and plays an accented first click at once (a pre-roll click with pre-roll); exactly one timer is live afterwards, and no completion callback runs |
| RecordingMetronome.Metronome.ResetForStart | src/features/recording/hooks/useRecordingMetronome.js:189-204 | counters zero, playing, the pre-roll flag as requested, `preRollBeat` set to the time signature with pre-roll |
| RecordingMetronome.Metronome.Stop | src/features/recording/hooks/useRecordingMetronome.js:210-226 | no timer, both flags false, both counters 0, both published beats 0 |
| RecordingMetronome.Metronome.StartForPlayback | src/features/recording/hooks/useRecordingMetronome.js:228-252 | cancels any pending tick. It sets `beatCount` = floor(t / spb) and `currentBeat` = beatCount mod timeSignature + 1, plays nothing, and arms one timer for the next beat boundary |
| RecordingMetronome.Metronome.FirePreRollCompletion | src/features/recording/hooks/useRecordingMetronome.js:155-157 | an armed completion callback runs once |
| RecordingMetronome.Unmount | src/features/recording/hooks/useRecordingMetronome.js:258-262 | the pending tick is cancelled; the invariant is kept |
| RecordingMetronome.PreRollScenario | src/features/recording/hooks/useRecordingMetronome.js:139-158 | a full pre-roll plays exactly `preRollTotal` pre-roll clicks, accented on each bar's first beat. It then leaves pre-roll with `beatCount` 0 and exactly one completion callback armed |
| AudioService.ClickKindOf | src/services/AudioService.js:113-125 | downbeat iff isDownbeat and isFirstOfBeat; beat iff isFirstOfBeat alone; triplet iff not first of beat |
| AudioService.ClickFrequency | src/config/audioConfig.js:41-45 | every click pitch is positive |
| AudioService.ClickVolume | src/config/audioConfig.js:46-50 | every click volume lies in (0, 1] |
| AudioService.ProminentClicksAreHigherAndLouder | src/config/audioConfig.js:41-50 | downbeat > beat > triplet for both pitch and volume |
| AudioService.ClickSound | src/services/AudioService.js:113-125 | pitch and volume always come from one and the same click kind |
| AudioService.BeepFrequency | src/services/AudioService.js:153-155 | the "GO!" beep is an octave (twice the frequency) above the others |
| AudioService.Renderer.constructor | src/services/AudioService.js:10-13 | no context, not ready |
| AudioService.Renderer.Init | src/services/AudioService.js:18-24 | idempotent: a context is created only when none is held, and the held one is always returned |
| AudioService.Renderer.Resume | src/services/AudioService.js:29-35 | always ready and returns true, even without a context; a suspended context is woken |
| AudioService.Renderer.Close | src/services/AudioService.js:40-46 | with a context: dropped and not ready; without one: nothing changes |
| AudioService.Renderer.CurrentTime | src/services/AudioService.js:51-53 | 0 without a context, the context's clock otherwise |
| AudioService.Renderer.PlaySound | src/services/AudioService.js:62-63 | silent without a context or when muted; otherwise exactly one bass note is started |
| AudioService.Renderer.PlayMetronomeClick | src/services/AudioService.js:103-137 | silent without a context or when disabled; otherwise exactly one click of the selected kind, with that kind's pitch and volume |
| AudioService.Renderer.PlayCountdownBeep | src/services/AudioService.js:143-156 | silent without a context; otherwise one beep at the context's current time |
| Exercises.TechniqueOrNormal | src/data/customExerciseLibrary.js:26 | a missing technique becomes "normal"; a present one is kept |
| Exercises.DurationOrOne | src/data/customExerciseLibrary.js:27 | a missing duration becomes 1; a present one is kept |
| Exercises.NotesOf | src/data/customExerciseLibrary.js:14 | notes are present iff both the pattern and its note list are |
| Exercises.Renumber | src/services/CustomExerciseManager.js:211 | same length, ids positional, every other field kept |
| Exercises.WithNotes | src/components/builder/VisualFretboardEditor.jsx:44-50 | only the pattern's note list is replaced |
| ExerciseLibrary.GenerateCustomTabData | src/data/customExerciseLibrary.js:13-29 | empty without an exercise, pattern or notes. Otherwise one tab note per note, ids 0..n-1, string and fret kept, technique defaulted to "normal" and duration to 1 |
| ExerciseLibrary.TabDataHasDefaults | src/data/customExerciseLibrary.js:26-27 | every tab note has a technique and a non-zero duration |
| ExerciseLibrary.NoteErrors | src/data/customExerciseLibrary.js:60-66 | a note is reported with a bad string iff its string is not E/A/D/G, and with a bad fret iff its fret is not a number in 0..24, at its own position |
| ExerciseLibrary.ValidString | src/data/customExerciseLibrary.js:60 | a valid string name is one of E, A, D, G, a single character |
| ExerciseLibrary.TrimsToEmpty | src/data/customExerciseLibrary.js:40 | a name counts as blank iff trimming its leading whitespace leaves nothing; the empty name is blank |
| ExerciseLibrary.NotesErrors | src/data/customExerciseLibrary.js:59-67 | only string and fret errors, each at a 1-based position within the list |
| ExerciseLibrary.ValidationErrors | src/data/customExerciseLibrary.js:36-83 | "name required" iff the name is blank. A missing pattern, or notes that are not an array, ends the list at once with "pattern missing" or "notes invalid", without tempo checks |
| ExerciseLibrary.EarlyReturnErrors | src/data/customExerciseLibrary.js:44-52 | on an early return the only errors are "name required" and exactly one of "pattern missing" (no pattern) or "notes invalid" |
| ExerciseLibrary.NoteListErrors | src/data/customExerciseLibrary.js:54-77 | with a note list, neither early error appears; "at least one note" iff the list is empty; the tempo error iff the tempo is set and outside 40..200; the difficulty error iff it is set and outside 1..5 |
| ExerciseLibrary.CollectNoteErrors | src/data/customExerciseLibrary.js:59-67 | the `forEach` that pushes errors yields exactly the declarative note-error list |
| ExerciseLibrary.ValidateCustomExercise | src/data/customExerciseLibrary.js:36-83 | the accumulated errors are exactly `ValidationErrors`, and the result is valid iff there are none |
| ExerciseLibrary.NotesErrorsSound | src/data/customExerciseLibrary.js:59-67 | every reported note error names a real position whose note has exactly that fault |
| ExerciseLibrary.NotesErrorsComplete | src/data/customExerciseLibrary.js:59-67 | every faulty note is reported at its 1-based position |
| ExerciseLibrary.InvalidNoteReported | src/data/customExerciseLibrary.js:59-67 | in the full validation, note k is reported with a bad string (resp. fret) iff its string (resp. fret) is invalid |
| ExerciseLibrary.ValidIffWellFormed | src/data/customExerciseLibrary.js:36-83 | no errors iff all hold: non-blank name, a non-empty note list of valid strings and frets, a missing or in-range tempo, and a missing or in-range difficulty |
| ExerciseLibrary.DurationSeconds | src/data/customExerciseLibrary.js:95-104 | the result is the exact duration rounded half up, with the 3 and 100 defaults |
| ExerciseLibrary.CalculateExerciseDuration | src/data/customExerciseLibrary.js:90-105 | 0 without notes, otherwise the rounded duration of the note count |
| ExerciseLibrary.DurationMonotone | src/data/customExerciseLibrary.js:96-104 | with non-negative settings the estimate is non-negative and non-decreasing in the note count |
| ExerciseLibrary.Frets | src/data/customExerciseLibrary.js:126 | the frets of the notes, position by position |
| ExerciseLibrary.Strings | src/data/customExerciseLibrary.js:129 | the strings of the notes, position by position |
| ExerciseLibrary.Techniques | src/data/customExerciseLibrary.js:132 | the defaulted techniques of the notes, position by position |
| ExerciseLibrary.GetExerciseStats | src/data/customExerciseLibrary.js:112-141 | all zeros without notes. Otherwise: totalNotes = length; uniqueFrets and stringsUsed are the numbers of distinct frets and strings; the techniques are exactly the used ones, without duplicates, in order of first use; estimatedDuration = `calculateExerciseDuration` |
| ExerciseManager.TemplateFor | src/services/CustomExerciseManager.js:73 | the two named templates by key; any other key falls back to EMPTY_4_4 |
| ExerciseManager.FromTemplate | src/services/CustomExerciseManager.js:91-96 | keeps the template note's string and fret, numbers it by position, sets duration 1 and a non-empty technique; the validator accepts it iff the string is valid and the fret lies in 0..24 |
| ExerciseManager.Create | src/services/CustomExerciseManager.js:72-104 | given id and time, the template's notes numbered 0..n-1 with technique defaulted and duration 1. Also difficulty 3, tempo 100, category "custom", root note E and zeroed stats |
| ExerciseManager.CreateDefault | src/services/CustomExerciseManager.js:72-73 | `create()` with no arguments is named "New Exercise", has an empty note list, and the validator's only error is "at least one note" |
| ExerciseManager.FilledTemplatesValidate | src/services/CustomExerciseManager.js:35-60 | with a non-blank name, the two non-empty templates give exercises the validator accepts |
| ExerciseManager.BlankTemplateNeedsNotes | src/services/CustomExerciseManager.js:29-34 | the blank template (and any unknown key) gives an exercise rejected for having no notes |
| ExerciseManager.Duplicate | src/services/CustomExerciseManager.js:202-219 | new id and times, name + " (Copy)", notes renumbered 0..n-1 with other fields kept, stats reset with averageTempo = tempo, every other field carried over |
| ExerciseManager.FindIndex | src/services/CustomExerciseManager.js:140 | the first index with that id, or -1 exactly when there is none |
| ExerciseManager.GetById | src/services/CustomExerciseManager.js:224-227 | null iff no entry has the id; otherwise the first entry with it |
| ExerciseManager.Upsert | src/services/CustomExerciseManager.js:138-151 | replaces the first entry with the id in place, or appends. The length grows by at most one, every other entry is unchanged, and looking the id up finds the saved exercise |
| ExerciseManager.UpsertKeepsOtherLookups | src/services/CustomExerciseManager.js:138-151 | saving leaves the lookup of every other id as it was |
| ExerciseManager.RemoveId | src/services/CustomExerciseManager.js:156-160 | exactly the entries with other ids survive, each as often as before, and the id is no longer found |
| ExerciseManager.RemoveIdKeepsOrder | src/services/CustomExerciseManager.js:158 | the survivors keep their order |
| ExerciseManager.RemoveIdKeepsOtherLookups | src/services/CustomExerciseManager.js:156-160 | deleting leaves the lookup of every other id as it was |
| ExerciseManager.ExerciseStore.Loaded | src/services/CustomExerciseManager.js:109-120 | the stored list, or empty when the slot does not parse |
| ExerciseManager.ExerciseStore.SaveAll | src/services/CustomExerciseManager.js:125-133 | reports whether the write succeeded; the slot holds the list only then |
| ExerciseManager.ExerciseStore.Save | src/services/CustomExerciseManager.js:138-151 | stamps `modified`. A successful write stores the upsert of the loaded list, and `getById` then finds the stamped exercise. A failed write changes nothing |
| ExerciseManager.ExerciseStore.Delete | src/services/CustomExerciseManager.js:156-160 | after a successful write the slot holds the loaded list without that id, and `getById` of it is null |
| ExerciseManager.ExerciseStore.FetchById | src/services/CustomExerciseManager.js:224-227 | the first loaded entry with that id, or null |
| FretboardEditor.HandleAddNote | src/components/builder/VisualFretboardEditor.jsx:35-51 | appends one note with id = previous length, technique "normal" and duration 1; earlier notes and every other field unchanged |
| FretboardEditor.AddKeepsIdsPositional | src/components/builder/VisualFretboardEditor.jsx:35-51 | positional ids stay positional after an add |
| FretboardEditor.HandleRemoveNote | src/components/builder/VisualFretboardEditor.jsx:53-63 | ids positional afterwards; each survivor is an original note without that id, renumbered; only the note list changes |
| FretboardEditor.RemoveKeepsSurvivorOrder | src/components/builder/VisualFretboardEditor.jsx:58-60 | the survivors keep their original relative order |
| FretboardEditor.RemovePositional | src/components/builder/VisualFretboardEditor.jsx:53-63 | with positional ids, removing position k keeps the notes before k and shifts the later ones down by one, renumbered |
| FretboardEditor.Merge | src/components/builder/VisualFretboardEditor.jsx:71 | an update without an id keeps the note's id; an empty update changes nothing |
| FretboardEditor.HandleUpdateNote | src/components/builder/VisualFretboardEditor.jsx:65-75 | length and order unchanged; notes with the id get the update merged in, every other note is untouched |
| FretboardEditor.UpdateKeepsIdsPositional | src/components/builder/VisualFretboardEditor.jsx:65-75 | an update that does not set an id keeps ids positional |
| FretboardEditor.ClearAll | src/components/builder/VisualFretboardEditor.jsx:84-91 | once confirmed the notes are emptied and nothing else changes; unconfirmed, nothing changes |
| FretboardEditor.GetNotesAtPosition | src/components/builder/VisualFretboardEditor.jsx:93-95 | exactly the notes with that string and fret, each as often as in the exercise |
| FretboardEditor.NotesAtPositionInOrder | src/components/builder/VisualFretboardEditor.jsx:93-95 | in the editor's order |
| FretboardEditor.HasNotesAtPosition | src/components/builder/VisualFretboardEditor.jsx:97-99 | holds iff some note sits at that string and fret |
| FretboardEditor.TempoBoundsDisagree | src/components/builder/VisualFretboardEditor.jsx:416-419 | every slider tempo passes the validator and lies in `TEMPO_CONFIG`; 161..200 pass the validator but no slider allows them |
| BuilderHub.LowerChar | src/components/builder/CustomBuilderHub.jsx:55-56 | upper-case ASCII letters map to lower case; other characters are kept |
| BuilderHub.Lower | src/components/builder/CustomBuilderHub.jsx:55-56 | lowers every character, length kept |
| BuilderHub.Includes | src/components/builder/CustomBuilderHub.jsx:55-56 | holds iff the needle occurs at some index of the haystack |
| BuilderHub.MatchesSearch | src/components/builder/CustomBuilderHub.jsx:55-56 | an empty query matches everything; a match needs the name or the description to be at least as long as the query |
| BuilderHub.SearchIgnoresCase | src/components/builder/CustomBuilderHub.jsx:55-56 | a query matches exactly what its lower-cased form matches |
| BuilderHub.FilterExercises | src/components/builder/CustomBuilderHub.jsx:54-59 | an exercise is shown iff it matches both the search (name or description) and the difficulty, and then as often as it is listed; the result is a subsequence of the list |
| BuilderHub.FilterExercisesIdempotent | src/components/builder/CustomBuilderHub.jsx:54-59 | filtering twice equals filtering once |
| BuilderHub.EmptySearchShowsAll | src/components/builder/CustomBuilderHub.jsx:54-59 | an empty search with "all" shows every exercise |
| BuilderHub.CardNoteCount | src/components/builder/CustomBuilderHub.jsx:197 | the note count, 0 without notes |
| BuilderHub.CardNotesPerBeat | src/components/builder/CustomBuilderHub.jsx:198 | never zero: the pattern's notes per beat when set, 3 otherwise |
| BuilderHub.CardDuration | src/components/builder/CustomBuilderHub.jsx:197-199 | the card's formula agrees with `calculateExerciseDuration` for every exercise |
| BuilderHub.Stars | src/components/builder/CustomBuilderHub.jsx:217 | `difficulty || 1` stars; a validated difficulty gives 1..5 |
| BuilderHub.ShownTags | src/components/builder/CustomBuilderHub.jsx:233 | a prefix of the tags of length at most 3: all when there are at most 3, exactly 3 otherwise |
| BuilderHub.CardTempo | src/components/builder/CustomBuilderHub.jsx:227 | `tempo || 100` |
| LoopAnalysis.Classify | src/components/loop/LoopAnalysisPanel.jsx:56-62 | early iff < -15 ms, late iff > 15 ms, on time iff within ±15 ms |
| LoopAnalysis.Clamp | src/components/loop/LoopAnalysisPanel.jsx:65 | within bounds, and the identity inside them |
| LoopAnalysis.Bucket | src/components/loop/LoopAnalysisPanel.jsx:64-67 | an index in 0..10. Outliers go to the end buckets; otherwise bucket b covers [10b−50, 10b−40) |
| LoopAnalysis.Count | src/components/loop/LoopAnalysisPanel.jsx:47-62 | a class count never exceeds the number of deviations |
| LoopAnalysis.Total | src/components/loop/LoopAnalysisPanel.jsx:54 | all-early deviations sum to at most 0, all-late ones to at least 0 |
| LoopAnalysis.TotalBounds | src/components/loop/LoopAnalysisPanel.jsx:54 | deviations in lo..hi sum to between n·lo and n·hi |
| LoopAnalysis.AverageBetweenExtremes | src/components/loop/LoopAnalysisPanel.jsx:54-75 | the rounded mean deviation lies between the smallest and largest deviation |
| LoopAnalysis.Zeroes | src/components/loop/LoopAnalysisPanel.jsx:51 | eleven zeros |
| LoopAnalysis.HistogramOf | src/components/loop/LoopAnalysisPanel.jsx:64-67 | eleven non-negative buckets |
| LoopAnalysis.Percent | src/components/loop/LoopAnalysisPanel.jsx:72-74 | the share rounded half up, in 0..100 for a count within n |
| LoopAnalysis.StatsOf | src/components/loop/LoopAnalysisPanel.jsx:36-78 | all zeros with an 11-zero histogram for no input; always 11 buckets and three percentages in 0..100 |
| LoopAnalysis.ComputeStats | src/components/loop/LoopAnalysisPanel.jsx:36-78 | the `forEach` over counters and the in-place histogram array yields exactly `StatsOf` |
| LoopAnalysis.CountsPartition | src/components/loop/LoopAnalysisPanel.jsx:56-62 | early + on-time + late = n |
| LoopAnalysis.HistogramSums | src/components/loop/LoopAnalysisPanel.jsx:64-67 | the histogram sums to n |
| LoopAnalysis.PercentagesNearlyWhole | src/components/loop/LoopAnalysisPanel.jsx:72-74 | the three rounded percentages sum to 99, 100 or 101 |
| LoopAnalysis.GetBarColor | src/components/loop/LoopAnalysisPanel.jsx:81-87 | perfect iff bucket 4..6; good iff 2..3 or 7..8; acceptable iff 0..1 or 9..10; missed iff outside 0..10 |
| LoopAnalysis.BarColorSymmetric | src/components/loop/LoopAnalysisPanel.jsx:81-87 | buckets 5−k and 5+k get the same colour |
| LoopAnalysis.MaxHistogramValue | src/components/loop/LoopAnalysisPanel.jsx:90 | at least 1 and at least every entry; 1 or one of the entries |
| LoopNote.Cleanup | src/components/loop/LoopNote.jsx:83-87 | clears the timer the ref holds and nothing else; with at most one pending, none is left |
| LoopNote.EffectBody | src/components/loop/LoopNote.jsx:51-81 | the pending timer is cleared first. A rising edge gives ATTACK with one fresh timer; a falling edge gives FADE; inactive and past gives FADE; inactive and not past gives IDLE; active again keeps the phase. `wasActive` becomes `isActive` |
| LoopNote.Settle | src/components/loop/LoopNote.jsx:88 | with unchanged dependencies nothing happens; otherwise, given fuel, the settled note remembers the current `isActive` and its dependencies record the current props |
| LoopNote.SettleConverges | src/components/loop/LoopNote.jsx:88 | three renders always suffice for the effect to stop re-running |
| LoopNote.SettleKeepsCoherent | src/components/loop/LoopNote.jsx:51-88 | settling keeps at most one attack timer pending |
| LoopNote.AttackTimerCancelled | src/components/loop/LoopNote.jsx:58-88 | as written, a rising edge settles in ATTACK with no timer pending: the re-run caused by the phase change cancels it |
| LoopNote.SettlePreservesQuiet | src/components/loop/LoopNote.jsx:51-88 | as written, settling never leaves a timer pending and never shows SUSTAIN |
| LoopNote.NeverSustainsAsWritten | src/components/loop/LoopNote.jsx:51-88 | as written, from mounting on and for any sequence of props, SUSTAIN is never shown |
| LoopNote.SettleIntended | src/components/loop/LoopNote.jsx:88 | with dependencies `[isActive, isPast]` the effect runs once per prop change and keeps the note coherent |
| LoopNote.FireTimer | src/components/loop/LoopNote.jsx:63-65 | the fired timer leaves the browser and the phase becomes SUSTAIN |
| LoopNote.IntendedReachesSustain | src/components/loop/LoopNote.jsx:58-65 | with the intended dependencies, a rising edge leaves the attack timer pending, and when it fires the note shows SUSTAIN and keeps it |
| LoopNote.NoteAnimator.constructor | src/components/loop/LoopNote.jsx:43-45 | mounted: IDLE, not previously active, no timer |
| LoopNote.NoteAnimator.RunCleanup | src/components/loop/LoopNote.jsx:83-87 | the mounted note after the cleanup is `Cleanup` of it; no timer left |
| LoopNote.NoteAnimator.RunEffect | src/components/loop/LoopNote.jsx:51-81 | the mounted note after one effect run is `EffectBody` of it, and stays coherent |
| LoopNote.NoteAnimator.Render | src/components/loop/LoopNote.jsx:51-88 | the re-run loop leaves the note exactly as `Settle` says, and coherent |
| LoopNote.NoteAnimator.Fire | src/components/loop/LoopNote.jsx:63-65 | the timer fires (`setPhase(SUSTAIN)`), then the resulting render settles with the props unchanged |
| LoopNote.NoteAnimator.Unmount | src/components/loop/LoopNote.jsx:83-87 | the last cleanup leaves no timer pending |

## Findings

| source | as written | input that shows it | evidently intended | confidence | as-written member | corrected member |
|---|---|---|---|---|---|---|
| src/components/loop/LoopNote.jsx:58-88 | `phase` is in the effect's dependency list, so the `setPhase(ATTACK)` of a rising edge re-runs the effect, and the re-run's cleanup clears the 150 ms attack timer; SUSTAIN is never reached | mount a note, then render it with `isActive = true` (any `isPast`) | the effect depends on `[isActive, isPast]` only; the timer survives and the note shows SUSTAIN after 150 ms | high; not executed | LoopNote.NeverSustainsAsWritten | LoopNote.IntendedReachesSustain |

`LoopNote.NoteAnimator` models the component as written. `LoopNote.SettleIntended` is the corrected effect cycle, and `LoopNote.IntendedReachesSustain` is proved about it. Nothing else in the model depends on the note animation.

## Left out

- **Web Audio graph:** oscillators, filters, gain envelopes, start and stop times, the hi-hat noise buffer (filled by `Math.random`) and the `2^(fret/12)` pitch law. These are foreign calls, floating point and randomness. A started sound is recorded as a `Sound` or `HiHat` value instead.
- **Audio context in the metronome:** `getAudioContext`, the closing of the audio context on unmount, and the `!ctx` guard in `scheduleNextBeat`. `start` and `startForPlayback` always obtain a context before scheduling.
- **Timers and async:** real time and the `await` inside `start`/`startForPlayback` are not modelled.
  - Each call is atomic. Two overlapping `start` calls interleaving across the `await` are not modelled.
  - Timers fire only through `Tick`, `FirePreRollCompletion` and `NoteAnimator.Fire`.
  - The pre-roll completion callback is counted, not run; `stop` does not cancel it, as in the source.
- RecordingMetronome.Metronome.SetTempo: the hook copies state into `tempoRef` in an effect after the render. The model updates the ref at once, so a tick between `setTempo` and that effect is not modelled. The same holds for `SetTimeSignature`, and for the `initialTempo` sync effect, which is not modelled either.
- RecordingMetronome.Metronome.constructor: requires a positive initial tempo. The hook takes any number. Tempo 0 makes `60 / tempo` Infinity, and a negative tempo makes the delay negative; `setTimeout` then fires the next beat at once. These paths are not modelled.
- RecordingMetronome.Metronome.SetTempo: requires a positive tempo, for the same reason as the constructor; tempo 0 or below is not modelled.
- RecordingMetronome.Metronome.SetTimeSignature: requires a positive time signature. With 0, `count % 0` is NaN, so no click is accented and no beat number is shown, and `preRollTotal` is 0, so the pre-roll ends after its first click. A negative one gives non-positive beat numbers. These paths are not modelled.
- PlayerStateMachine.GetNextState: names that `Object.prototype` defines are found by the source's plain property lookups, and the model treats them as unknown.
  - As event names (`"toString"`, `"constructor"`, …), `transitions[state][event]` finds a function. `getNextState` then returns that function instead of null.
  - As state names, `transitions[currentState]` (line 53) finds a function, and the second lookup then finds that function's own properties. For example, `getNextState("constructor", "name")` is `"Object"`, `getNextState("constructor", "prototype")` is `Object.prototype`, and `getNextState("toString", "call")` is a function. `getAvailableEvents` of such a state is still `[]`, since `Object.keys` of a function is empty.
  - In each case `canTransition` holds in the source while the model says false, `send` stores the value as the new state, and the reducer stores it as the status. The same therefore applies to PlayerStateMachine.CanTransition, PlayerStateMachine.Machine.Send and PlayerReducer.Reduce.
- **Listeners:** a listener is an id. The call is recorded as a `Notification`. Listeners that throw or unsubscribe during `forEach` are not modelled.
- **Unknown initial state:** `createPlayerStateMachine` with an initial state that is not one of the four is not modelled; `Machine` holds a `State`.
- **Console:** the `console.warn` / `console.error` calls.
- PlayerReducer.UpdateNotePosition: negative indices are computed with JavaScript's truncating `%` and `Math.floor` in `NotePosition`, but properties are proved only for indices ≥ 0, as the source's callers pass.
- **Numbers:** JavaScript numbers are doubles. The model uses `int` for counts, ids, frets, tempos and timing deviations (whole milliseconds), and exact `real`s for seconds and delays, so floating-point rounding is not modelled.
- **Exercise fields:**
  - "Absent" is folded into the field types: `""`, `0`, `None`.
  - A fret that is not an integer number (a float or NaN) is not modelled.
  - Exercises.NotesOf: a `notes` value that is truthy but not an array is folded into "missing". `generateCustomTabData`, `calculateExerciseDuration` and `getExerciseStats` would throw or misbehave on it in the source; the model returns the empty result.
- ExerciseManager.Duplicate: requires a pattern with a note list, because the source reads `exercise.pattern.notes` unguarded and throws otherwise.
- ExerciseManager.Create: the two `Date.now()` readings are taken as one parameter `now`, and `crypto.randomUUID()` as the parameter `id`. JavaScript prototype keys such as `"toString"` as a template name are not modelled; they fall back to the blank template here.
- ExerciseManager.ExerciseStore.Save: the source sets `modified` on the caller's object. The model returns the stamped copy instead of mutating it.
- **Stored text:**
  - The text and its JSON parsing are not modelled; `readable` says whether it parses.
  - A write failure is the parameter `writeSucceeds`.
  - Export, import, the draft autosave and the 30 s interval are not modelled.
- FretboardEditor.HandleAddNote: the source takes the new id from the exercise of the current render and appends to the latest one. The model uses one exercise for both, so two adds batched into one render (which would give duplicate ids) are not modelled.
- BuilderHub.Lower: only ASCII letters are lowered, not the rest of Unicode `toLowerCase`.
- BuilderHub.Stars: `'★'.repeat` throws for a negative difficulty; the model returns the count.
- LoopNote.Settle: the re-render cascade is bounded by `RenderFuel` (3). `LoopNote.SettleConverges` proves that this bound is always enough, so no behaviour is lost. The note's visual classes and the unused `SUSTAIN_MIN_DURATION` are not modelled.
- **Other repository code:** the lookahead playback scheduler, the rendering components, the thin React wrappers (`usePlayerStateMachine`, `useBassAudio`, the audio engine context) and the icon tooling are not part of this model. `src/config/uiConfig.js` is not part of this model either.
