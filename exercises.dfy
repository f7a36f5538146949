/**
 * The custom-exercise record shared by the exercise library, the exercise
 * manager, the fretboard editor and the builder hub. JavaScript's "absent"
 * values are folded into the field types: an empty string for a missing
 * string, `0` for a missing number, `None` for a missing fret (or one that is
 * not a number), a missing pattern or a notes field that is not an array.
 */
module Exercises {
  import opened Wrappers

  /** One note of a pattern: `{ id, string, fret, technique, duration }`. */
  datatype Note = Note(id: int, stringName: string, fret: Option<int>, technique: string, duration: int)

  datatype Pattern = Pattern(beatsPerMeasure: int, notesPerBeat: int, rootNote: string, notes: Option<seq<Note>>)

  datatype PlayStats = PlayStats(timesPlayed: int, lastPlayed: Option<int>, averageTempo: int)

  datatype Exercise = Exercise(
    id: string,
    name: string,
    description: string,
    author: string,
    created: int,
    modified: int,
    category: string,
    difficulty: int,
    tempo: int,
    tags: seq<string>,
    isPublic: bool,
    pattern: Option<Pattern>,
    stats: PlayStats)

  const NormalTechnique: string := "normal"

  /** `technique || 'normal'` */
  function TechniqueOrNormal(technique: string): (t: string)
    ensures t != ""
    ensures technique != "" ==> t == technique
    ensures technique == "" ==> t == NormalTechnique
  {
    if technique != "" then technique else NormalTechnique
  }

  /** `duration || 1` */
  function DurationOrOne(duration: int): (d: int)
    ensures d != 0
    ensures duration != 0 ==> d == duration
    ensures duration == 0 ==> d == 1
  {
    if duration != 0 then duration else 1
  }

  /** `exercise.pattern?.notes`, `None` when the pattern or its notes are missing. */
  function NotesOf(ex: Exercise): (notes: Option<seq<Note>>)
    ensures notes.Some? <==> ex.pattern.Some? && ex.pattern.value.notes.Some?
  {
    match ex.pattern
    case None => None
    case Some(p) => p.notes
  }

  /** Note ids are positional: the note at index `i` has id `i`. */
  ghost predicate PositionalIds(notes: seq<Note>)
  {
    forall i :: 0 <= i < |notes| ==> notes[i].id == i
  }

  /** `notes.map((n, i) => ({ ...n, id: i }))` */
  function Renumber(notes: seq<Note>): (r: seq<Note>)
    ensures |r| == |notes| && PositionalIds(r)
    ensures forall i :: 0 <= i < |r| ==> r[i] == notes[i].(id := i)
  {
    seq(|notes|, i requires 0 <= i < |notes| => notes[i].(id := i))
  }

  /** Replace the note list of a pattern that is present. */
  function WithNotes(ex: Exercise, notes: seq<Note>): (r: Exercise)
    requires ex.pattern.Some?
    ensures NotesOf(r) == Some(notes)
    ensures r.pattern.Some? && r.pattern.value == ex.pattern.value.(notes := Some(notes))
    ensures r == ex.(pattern := r.pattern)
  {
    ex.(pattern := Some(ex.pattern.value.(notes := Some(notes))))
  }
}
