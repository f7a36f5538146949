/**
 * Helpers that turn a custom exercise into playable data and check it
 * (src/data/customExerciseLibrary.js): the tab-data converter, the
 * validator, the duration estimate and the statistics.
 */
module ExerciseLibrary {
  import opened Wrappers
  import opened Exercises
  import Seqs
  import JsNumbers

  // ---------------------------------------------------------------------
  // Tab data
  // ---------------------------------------------------------------------

  /** A note as the trainer plays it: `{ string, fret, id, technique, duration }`. */
  datatype TabNote = TabNote(stringName: string, fret: Option<int>, id: int, technique: string, duration: int)

  /**
   * `generateCustomTabData`: nothing without an exercise, a pattern or
   * notes; otherwise one tab note per note, numbered by position, with the
   * string and fret kept and technique and duration defaulted.
   */
  function GenerateCustomTabData(ex: Option<Exercise>): (tab: seq<TabNote>)
    ensures ex.None? || NotesOf(ex.value).None? ==> tab == []
    ensures ex.Some? && NotesOf(ex.value).Some? ==>
              var notes := NotesOf(ex.value).value;
              && |tab| == |notes|
              && forall i :: 0 <= i < |tab| ==>
                   && tab[i].id == i
                   && tab[i].stringName == notes[i].stringName
                   && tab[i].fret == notes[i].fret
                   && tab[i].technique == TechniqueOrNormal(notes[i].technique)
                   && tab[i].duration == DurationOrOne(notes[i].duration)
  {
    if ex.None? || NotesOf(ex.value).None? then []
    else
      var notes := NotesOf(ex.value).value;
      seq(|notes|, i requires 0 <= i < |notes| =>
        TabNote(notes[i].stringName, notes[i].fret, i,
                TechniqueOrNormal(notes[i].technique), DurationOrOne(notes[i].duration)))
  }

  /** Every tab note carries a technique and a non-zero duration. */
  lemma TabDataHasDefaults(ex: Option<Exercise>, i: int)
    requires 0 <= i < |GenerateCustomTabData(ex)|
    ensures GenerateCustomTabData(ex)[i].technique != ""
    ensures GenerateCustomTabData(ex)[i].duration != 0
  {
  }

  // ---------------------------------------------------------------------
  // Validation
  // ---------------------------------------------------------------------

  /** One entry of the `errors` array; positions are 1-based. */
  datatype ValidationError =
    | NameRequired
    | PatternMissing
    | NotesInvalid
    | NoNotes
    | InvalidString(position: int, value: string)
    | InvalidFret(position: int, fret: Option<int>)
    | TempoOutOfRange
    | DifficultyOutOfRange

  const ValidStrings: seq<string> := ["E", "A", "D", "G"]
  const MinFret := 0
  const MaxFret := 24
  const MinTempo := 40
  const MaxTempo := 200
  const MinDifficulty := 1
  const MaxDifficulty := 5

  /** The characters `String.prototype.trim` removes: white space and line terminators. */
  predicate IsJsWhitespace(c: char)
  {
    var n := c as int;
    n == 0x09 || n == 0x0A || n == 0x0B || n == 0x0C || n == 0x0D || n == 0x20
    || n == 0xA0 || n == 0x1680 || (0x2000 <= n <= 0x200A) || n == 0x2028 || n == 0x2029
    || n == 0x202F || n == 0x205F || n == 0x3000 || n == 0xFEFF
  }

  /** What is left of `s` once its leading white space is removed. */
  function TrimStart(s: string): (r: string)
    ensures |r| <= |s| && r == s[|s| - |r|..]
    ensures r != "" ==> !IsJsWhitespace(r[0])
  {
    if s != "" && IsJsWhitespace(s[0]) then TrimStart(s[1..]) else s
  }

  /**
   * `!name || name.trim() === ''`: the name is empty or trims to nothing,
   * that is, it consists of white space only.
   */
  predicate IsBlank(name: string)
  {
    forall i :: 0 <= i < |name| ==> IsJsWhitespace(name[i])
  }

  /** A name is blank exactly when it is empty or trimming leaves nothing of it. */
  lemma {:induction false} TrimsToEmpty(s: string)
    ensures s == "" ==> IsBlank(s)
    ensures IsBlank(s) <==> TrimStart(s) == ""
  {
    if s != "" && IsJsWhitespace(s[0]) {
      TrimsToEmpty(s[1..]);
      assert forall i :: 1 <= i < |s| ==> s[i] == s[1..][i - 1];
    }
  }

  /**
   * `note.string && ['E', 'A', 'D', 'G'].includes(note.string)`: one of the
   * four open-string letters (the empty string is not among them).
   */
  function ValidString(s: string): (valid: bool)
    ensures valid ==> |s| == 1
    ensures valid <==> s in ValidStrings
  {
    s != "" && s in ValidStrings
  }

  /** `typeof note.fret === 'number' && 0 <= note.fret <= 24` */
  predicate ValidFret(fret: Option<int>)
  {
    fret.Some? && MinFret <= fret.value <= MaxFret
  }

  /** A missing (falsy) tempo passes; a present one must lie in 40..200. */
  predicate TempoOk(tempo: int)
  {
    tempo == 0 || MinTempo <= tempo <= MaxTempo
  }

  /** A missing (falsy) difficulty passes; a present one must lie in 1..5. */
  predicate DifficultyOk(difficulty: int)
  {
    difficulty == 0 || MinDifficulty <= difficulty <= MaxDifficulty
  }

  /** The errors one note at 1-based `position` contributes: string first, then fret. */
  function NoteErrors(note: Note, position: int): (errs: seq<ValidationError>)
    ensures InvalidString(position, note.stringName) in errs <==> !ValidString(note.stringName)
    ensures InvalidFret(position, note.fret) in errs <==> !ValidFret(note.fret)
    ensures forall e :: e in errs ==> (e.InvalidString? || e.InvalidFret?) && e.position == position
  {
    (if ValidString(note.stringName) then [] else [InvalidString(position, note.stringName)])
    + (if ValidFret(note.fret) then [] else [InvalidFret(position, note.fret)])
  }

  /** The errors of the `forEach` over the notes, in order. */
  function NotesErrors(notes: seq<Note>): (errs: seq<ValidationError>)
    ensures forall e :: e in errs ==> (e.InvalidString? || e.InvalidFret?) && 1 <= e.position <= |notes|
  {
    if notes == [] then []
    else NotesErrors(notes[..|notes| - 1]) + NoteErrors(notes[|notes| - 1], |notes|)
  }

  /**
   * What `validateCustomExercise` reports, in order. A missing pattern or a
   * notes field that is not an array ends the check at once, so tempo and
   * difficulty are then not examined.
   */
  function ValidationErrors(ex: Exercise): (errs: seq<ValidationError>)
    ensures NameRequired in errs <==> IsBlank(ex.name)
    ensures ex.pattern.None? ==> |errs| > 0 && errs[|errs| - 1] == PatternMissing && TempoOutOfRange !in errs
    ensures ex.pattern.Some? && NotesOf(ex).None? ==>
              |errs| > 0 && errs[|errs| - 1] == NotesInvalid && TempoOutOfRange !in errs
  {
    var nameErrors := if IsBlank(ex.name) then [NameRequired] else [];
    match ex.pattern
    case None => nameErrors + [PatternMissing]
    case Some(p) =>
      match p.notes
      case None => nameErrors + [NotesInvalid]
      case Some(notes) =>
        var head := nameErrors + (if |notes| == 0 then [NoNotes] else []);
        var tail := (if TempoOk(ex.tempo) then [] else [TempoOutOfRange])
                    + (if DifficultyOk(ex.difficulty) then [] else [DifficultyOutOfRange]);
        head + NotesErrors(notes) + tail
  }

  /**
   * Without a pattern, or with notes that are not an array, the validator
   * returns at once: only the name may also be reported.
   */
  lemma EarlyReturnErrors(ex: Exercise)
    requires NotesOf(ex).None?
    ensures forall e :: e in ValidationErrors(ex) ==> e == NameRequired || e == PatternMissing || e == NotesInvalid
    ensures PatternMissing in ValidationErrors(ex) <==> ex.pattern.None?
    ensures NotesInvalid in ValidationErrors(ex) <==> ex.pattern.Some?
  {
    var nameErrors := if IsBlank(ex.name) then [NameRequired] else [];
    var last := if ex.pattern.None? then PatternMissing else NotesInvalid;
    assert ValidationErrors(ex) == nameErrors + [last];
  }

  /**
   * With a note list, the whole-exercise errors each appear exactly when
   * their condition holds; the other entries are the notes' own errors.
   */
  lemma NoteListErrors(ex: Exercise)
    requires NotesOf(ex).Some?
    ensures var errs := ValidationErrors(ex);
            && PatternMissing !in errs && NotesInvalid !in errs
            && (NoNotes in errs <==> |NotesOf(ex).value| == 0)
            && (TempoOutOfRange in errs <==> !TempoOk(ex.tempo))
            && (DifficultyOutOfRange in errs <==> !DifficultyOk(ex.difficulty))
  {
    var notes := NotesOf(ex).value;
    var head := (if IsBlank(ex.name) then [NameRequired] else []) + (if |notes| == 0 then [NoNotes] else []);
    var tail := (if TempoOk(ex.tempo) then [] else [TempoOutOfRange])
                + (if DifficultyOk(ex.difficulty) then [] else [DifficultyOutOfRange]);
    var noteErrors := NotesErrors(notes);
    assert ValidationErrors(ex) == head + noteErrors + tail;
    assert NoNotes !in noteErrors && TempoOutOfRange !in noteErrors && DifficultyOutOfRange !in noteErrors;
    assert PatternMissing !in noteErrors && NotesInvalid !in noteErrors;
    assert NoNotes in head <==> |notes| == 0;
    assert TempoOutOfRange !in head && DifficultyOutOfRange !in head;
    assert PatternMissing !in head && NotesInvalid !in head;
    assert NoNotes !in tail && PatternMissing !in tail && NotesInvalid !in tail;
    assert TempoOutOfRange in tail <==> !TempoOk(ex.tempo);
    assert DifficultyOutOfRange in tail <==> !DifficultyOk(ex.difficulty);
  }

  /** The `forEach` over the notes: pushes each note's errors in turn. */
  method CollectNoteErrors(notes: seq<Note>) returns (errors: seq<ValidationError>)
    ensures errors == NotesErrors(notes)
  {
    errors := [];
    for index := 0 to |notes|
      invariant errors == NotesErrors(notes[..index])
    {
      var note := notes[index];
      ghost var before := errors;
      if !ValidString(note.stringName) {
        errors := errors + [InvalidString(index + 1, note.stringName)];
      }
      if !ValidFret(note.fret) {
        errors := errors + [InvalidFret(index + 1, note.fret)];
      }
      assert errors == before + NoteErrors(note, index + 1);
      assert notes[..index + 1][..index] == notes[..index];
      assert NotesErrors(notes[..index + 1]) == NotesErrors(notes[..index]) + NoteErrors(note, index + 1);
    }
    assert notes[..|notes|] == notes;
  }

  /** `validateCustomExercise`: accumulates the errors step by step; valid iff none. */
  method ValidateCustomExercise(ex: Exercise) returns (isValid: bool, errors: seq<ValidationError>)
    ensures errors == ValidationErrors(ex)
    ensures isValid <==> errors == []
  {
    errors := if IsBlank(ex.name) then [NameRequired] else [];
    if ex.pattern.None? {
      errors := errors + [PatternMissing];
      return false, errors;
    }
    if ex.pattern.value.notes.None? {
      errors := errors + [NotesInvalid];
      return false, errors;
    }
    var notes := ex.pattern.value.notes.value;
    ghost var nameErrors := errors;
    var emptyErrors := if |notes| == 0 then [NoNotes] else [];
    errors := errors + emptyErrors;
    var noteErrors := CollectNoteErrors(notes);
    errors := errors + noteErrors;
    var tempoErrors := if ex.tempo != 0 && (ex.tempo < MinTempo || ex.tempo > MaxTempo) then [TempoOutOfRange] else [];
    errors := errors + tempoErrors;
    var difficultyErrors :=
      if ex.difficulty != 0 && (ex.difficulty < MinDifficulty || ex.difficulty > MaxDifficulty)
      then [DifficultyOutOfRange] else [];
    errors := errors + difficultyErrors;
    assert errors == nameErrors + emptyErrors + noteErrors + tempoErrors + difficultyErrors;
    isValid := |errors| == 0;
  }

  /** Every note error names a real position whose note has exactly that fault. */
  lemma {:induction false} NotesErrorsSound(notes: seq<Note>, e: ValidationError)
    requires e in NotesErrors(notes)
    ensures e.InvalidString? || e.InvalidFret?
    ensures 1 <= e.position <= |notes|
    ensures e.InvalidString? ==>
              e.value == notes[e.position - 1].stringName && !ValidString(e.value)
    ensures e.InvalidFret? ==>
              e.fret == notes[e.position - 1].fret && !ValidFret(e.fret)
  {
    var last := |notes| - 1;
    if e in NotesErrors(notes[..last]) {
      NotesErrorsSound(notes[..last], e);
      assert notes[..last][e.position - 1] == notes[e.position - 1];
    } else {
      assert e in NoteErrors(notes[last], |notes|);
    }
  }

  /** Every faulty note is reported at its position. */
  lemma {:induction false} NotesErrorsComplete(notes: seq<Note>, k: int)
    requires 0 <= k < |notes|
    ensures !ValidString(notes[k].stringName) ==> InvalidString(k + 1, notes[k].stringName) in NotesErrors(notes)
    ensures !ValidFret(notes[k].fret) ==> InvalidFret(k + 1, notes[k].fret) in NotesErrors(notes)
  {
    var last := |notes| - 1;
    if k < last {
      NotesErrorsComplete(notes[..last], k);
      assert notes[..last][k] == notes[k];
    }
  }

  /**
   * For an exercise with a note list, the note at index `k` is reported
   * with a bad string (resp. fret) exactly when its string (resp. fret) is
   * invalid.
   */
  lemma InvalidNoteReported(ex: Exercise, k: int)
    requires NotesOf(ex).Some? && 0 <= k < |NotesOf(ex).value|
    ensures var note := NotesOf(ex).value[k];
            InvalidString(k + 1, note.stringName) in ValidationErrors(ex) <==> !ValidString(note.stringName)
    ensures var note := NotesOf(ex).value[k];
            InvalidFret(k + 1, note.fret) in ValidationErrors(ex) <==> !ValidFret(note.fret)
  {
    var notes := NotesOf(ex).value;
    var note := notes[k];
    var head := (if IsBlank(ex.name) then [NameRequired] else []) + (if |notes| == 0 then [NoNotes] else []);
    var tail := (if TempoOk(ex.tempo) then [] else [TempoOutOfRange])
                + (if DifficultyOk(ex.difficulty) then [] else [DifficultyOutOfRange]);
    assert ValidationErrors(ex) == head + NotesErrors(notes) + tail;
    var s := InvalidString(k + 1, note.stringName);
    var f := InvalidFret(k + 1, note.fret);
    assert s !in head && s !in tail && f !in head && f !in tail;
    NotesErrorsComplete(notes, k);
    if s in NotesErrors(notes) {
      NotesErrorsSound(notes, s);
    }
    if f in NotesErrors(notes) {
      NotesErrorsSound(notes, f);
    }
  }

  /** The exercises the validator is meant to accept, stated directly. */
  ghost predicate WellFormed(ex: Exercise)
  {
    && !IsBlank(ex.name)
    && NotesOf(ex).Some?
    && |NotesOf(ex).value| > 0
    && (forall i :: 0 <= i < |NotesOf(ex).value| ==>
          ValidString(NotesOf(ex).value[i].stringName) && ValidFret(NotesOf(ex).value[i].fret))
    && TempoOk(ex.tempo)
    && DifficultyOk(ex.difficulty)
  }

  /** The validator reports no error exactly for well-formed exercises. */
  lemma ValidIffWellFormed(ex: Exercise)
    ensures ValidationErrors(ex) == [] <==> WellFormed(ex)
  {
    if NotesOf(ex).Some? {
      var notes := NotesOf(ex).value;
      if NotesErrors(notes) == [] {
        forall i | 0 <= i < |notes|
          ensures ValidString(notes[i].stringName) && ValidFret(notes[i].fret)
        {
          NotesErrorsComplete(notes, i);
        }
      } else {
        NotesErrorsSound(notes, NotesErrors(notes)[0]);
      }
    }
  }

  // ---------------------------------------------------------------------
  // Duration and statistics
  // ---------------------------------------------------------------------

  /** `Math.round(len / (notesPerBeat || 3) / (tempo || 100) * 60)` */
  function DurationSeconds(noteCount: int, notesPerBeat: int, tempo: int): (secs: int)
    ensures var beats := noteCount as real / (if notesPerBeat != 0 then notesPerBeat else 3) as real;
            var exact := beats / (if tempo != 0 then tempo else 100) as real * 60.0;
            secs as real - 0.5 <= exact < secs as real + 0.5
  {
    var beats := noteCount as real / (if notesPerBeat != 0 then notesPerBeat else 3) as real;
    JsNumbers.Round(beats / (if tempo != 0 then tempo else 100) as real * 60.0)
  }

  /** `calculateExerciseDuration`: 0 without notes, otherwise the rounded playing time in seconds. */
  function CalculateExerciseDuration(ex: Option<Exercise>): (secs: int)
    ensures ex.None? || NotesOf(ex.value).None? ==> secs == 0
    ensures ex.Some? && NotesOf(ex.value).Some? ==>
              secs == DurationSeconds(|NotesOf(ex.value).value|, ex.value.pattern.value.notesPerBeat, ex.value.tempo)
  {
    if ex.None? || NotesOf(ex.value).None? then 0
    else DurationSeconds(|NotesOf(ex.value).value|, ex.value.pattern.value.notesPerBeat, ex.value.tempo)
  }

  /** With non-negative settings the estimate is never negative and grows with the note count. */
  lemma DurationMonotone(n1: int, n2: int, notesPerBeat: int, tempo: int)
    requires 0 <= n1 <= n2 && notesPerBeat >= 0 && tempo >= 0
    ensures 0 <= DurationSeconds(n1, notesPerBeat, tempo) <= DurationSeconds(n2, notesPerBeat, tempo)
  {
    var p := (if notesPerBeat != 0 then notesPerBeat else 3) as real;
    var t := (if tempo != 0 then tempo else 100) as real;
    var x1 := n1 as real / p / t * 60.0;
    var x2 := n2 as real / p / t * 60.0;
    assert 0.0 <= x1 <= x2 by {
      DivMonotone(n1 as real, n2 as real, p);
      DivMonotone(n1 as real / p, n2 as real / p, t);
    }
    JsNumbers.RoundMonotone(0.0, x1);
    JsNumbers.RoundMonotone(x1, x2);
  }

  lemma DivMonotone(a: real, b: real, c: real)
    requires 0.0 <= a <= b && c > 0.0
    ensures 0.0 <= a / c <= b / c
  {
    JsNumbers.MulLess(a / c, b / c, c);
  }

  datatype ExerciseStats = ExerciseStats(
    totalNotes: int,
    uniqueFrets: int,
    stringsUsed: int,
    techniques: seq<string>,
    estimatedDuration: int)

  function Frets(notes: seq<Note>): (fs: seq<Option<int>>)
    ensures |fs| == |notes| && forall i :: 0 <= i < |notes| ==> fs[i] == notes[i].fret
  {
    seq(|notes|, i requires 0 <= i < |notes| => notes[i].fret)
  }

  function Strings(notes: seq<Note>): (ss: seq<string>)
    ensures |ss| == |notes| && forall i :: 0 <= i < |notes| ==> ss[i] == notes[i].stringName
  {
    seq(|notes|, i requires 0 <= i < |notes| => notes[i].stringName)
  }

  function Techniques(notes: seq<Note>): (ts: seq<string>)
    ensures |ts| == |notes| && forall i :: 0 <= i < |notes| ==> ts[i] == TechniqueOrNormal(notes[i].technique)
  {
    seq(|notes|, i requires 0 <= i < |notes| => TechniqueOrNormal(notes[i].technique))
  }

  /**
   * `getExerciseStats`: note count, distinct frets and strings, the distinct
   * techniques in first-use order, and the duration estimate.
   */
  function GetExerciseStats(ex: Option<Exercise>): (s: ExerciseStats)
    ensures ex.None? || NotesOf(ex.value).None? ==> s == ExerciseStats(0, 0, 0, [], 0)
    ensures ex.Some? && NotesOf(ex.value).Some? ==> s.totalNotes == |NotesOf(ex.value).value|
    ensures 0 <= s.uniqueFrets <= s.totalNotes && 0 <= s.stringsUsed <= s.totalNotes
    ensures s.totalNotes > 0 ==> s.uniqueFrets >= 1 && s.stringsUsed >= 1
    ensures ex.Some? && NotesOf(ex.value).Some? ==>
              && s.uniqueFrets == |Seqs.Elements(Frets(NotesOf(ex.value).value))|
              && s.stringsUsed == |Seqs.Elements(Strings(NotesOf(ex.value).value))|
    ensures Seqs.NoDuplicates(s.techniques)
    ensures ex.Some? && NotesOf(ex.value).Some? ==>
              forall t :: t in s.techniques <==> t in Techniques(NotesOf(ex.value).value)
    ensures ex.Some? && NotesOf(ex.value).Some? ==>
              var ts := Techniques(NotesOf(ex.value).value);
              forall i, j :: 0 <= i < j < |s.techniques| ==>
                Seqs.FirstIndex(ts, s.techniques[i]) < Seqs.FirstIndex(ts, s.techniques[j])
    ensures s.estimatedDuration == CalculateExerciseDuration(ex)
  {
    if ex.None? || NotesOf(ex.value).None? then ExerciseStats(0, 0, 0, [], 0)
    else
      var notes := NotesOf(ex.value).value;
      Seqs.DedupSpec(Frets(notes));
      Seqs.DedupSpec(Strings(notes));
      Seqs.DedupSpec(Techniques(notes));
      Seqs.DedupCount(Frets(notes));
      Seqs.DedupCount(Strings(notes));
      Seqs.DedupFirstOccurrence(Techniques(notes));
      assert |notes| > 0 ==> Frets(notes)[0] in Seqs.Dedup(Frets(notes));
      assert |notes| > 0 ==> Strings(notes)[0] in Seqs.Dedup(Strings(notes));
      ExerciseStats(
        |notes|,
        |Seqs.Dedup(Frets(notes))|,
        |Seqs.Dedup(Strings(notes))|,
        Seqs.Dedup(Techniques(notes)),
        CalculateExerciseDuration(ex))
  }
}
