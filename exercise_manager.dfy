/**
 * The custom-exercise manager (src/services/CustomExerciseManager.js):
 * creation from a quick-start template, duplication, and the stored list
 * with upsert-by-id `save`, `delete` and `getById`. Ids (`crypto.randomUUID`)
 * and clock readings (`Date.now`) are parameters; the local storage slot is
 * a field of `ExerciseStore`.
 */
module ExerciseManager {
  import opened Wrappers
  import opened Exercises
  import Seqs
  import ExerciseLibrary

  // ---------------------------------------------------------------------
  // Templates and creation
  // ---------------------------------------------------------------------

  /** A template note: string, fret and an optional technique ("" when absent). */
  datatype TemplateNote = TemplateNote(stringName: string, fret: int, technique: string)

  datatype Template = Template(name: string, beatsPerMeasure: int, notesPerBeat: int, notes: seq<TemplateNote>)

  const Empty44Key: string := "EMPTY_4_4"
  const MajorScaleKey: string := "MAJOR_SCALE"
  const GroovePatternKey: string := "GROOVE_PATTERN"
  const DefaultName: string := "New Exercise"

  const Empty44 := Template("Blank 4/4", 4, 3, [])
  const MajorScale := Template("Major Scale Pattern", 4, 4, [
    TemplateNote("E", 0, ""), TemplateNote("E", 2, ""), TemplateNote("E", 4, ""),
    TemplateNote("A", 0, ""), TemplateNote("A", 2, ""), TemplateNote("A", 4, ""),
    TemplateNote("D", 1, ""), TemplateNote("D", 2, "")])
  const GroovePattern := Template("8-Bar Groove", 4, 4, [
    TemplateNote("E", 0, "slap"), TemplateNote("E", 0, "mute"),
    TemplateNote("D", 10, "pop"), TemplateNote("E", 0, "normal")])

  /** `EXERCISE_TEMPLATES[key] || EXERCISE_TEMPLATES.EMPTY_4_4` */
  function TemplateFor(key: string): (t: Template)
    ensures key == MajorScaleKey ==> t == MajorScale
    ensures key == GroovePatternKey ==> t == GroovePattern
    ensures key != MajorScaleKey && key != GroovePatternKey ==> t == Empty44
  {
    if key == MajorScaleKey then MajorScale
    else if key == GroovePatternKey then GroovePattern
    else Empty44
  }

  /**
   * `{ id: i, ...note, technique: note.technique || 'normal', duration: 1 }`:
   * the template note at position `i`, with a technique that is never empty;
   * the validator accepts it exactly when the template's string and fret are
   * valid.
   */
  function FromTemplate(note: TemplateNote, i: int): (r: Note)
    ensures r.id == i && r.stringName == note.stringName && r.fret == Some(note.fret)
    ensures r.technique != "" && (note.technique != "" ==> r.technique == note.technique)
    ensures r.duration == 1
    ensures forall k :: ExerciseLibrary.NoteErrors(r, k) == [] <==>
              ExerciseLibrary.ValidString(note.stringName) && ExerciseLibrary.MinFret <= note.fret <= ExerciseLibrary.MaxFret
  {
    Note(i, note.stringName, Some(note.fret), TechniqueOrNormal(note.technique), 1)
  }

  /**
   * `create(name, template)`: a fresh exercise whose notes are the
   * template's, numbered by position, with technique defaulted and duration
   * 1; difficulty 3, tempo 100 and zeroed play statistics.
   */
  function Create(name: string, templateKey: string, id: string, now: int): (ex: Exercise)
    ensures ex.id == id && ex.name == name && ex.created == now && ex.modified == now
    ensures ex.description == "" && ex.author == "" && ex.category == "custom"
    ensures ex.difficulty == 3 && ex.tempo == 100 && ex.tags == [] && !ex.isPublic
    ensures ex.stats == PlayStats(0, None, 100)
    ensures ex.pattern.Some? && ex.pattern.value.rootNote == "E"
    ensures ex.pattern.value.beatsPerMeasure == TemplateFor(templateKey).beatsPerMeasure
    ensures ex.pattern.value.notesPerBeat == TemplateFor(templateKey).notesPerBeat
    ensures NotesOf(ex).Some?
    ensures var notes := NotesOf(ex).value;
            var source := TemplateFor(templateKey).notes;
            && |notes| == |source| && PositionalIds(notes)
            && forall i :: 0 <= i < |notes| ==>
                 && notes[i].stringName == source[i].stringName
                 && notes[i].fret == Some(source[i].fret)
                 && notes[i].technique == TechniqueOrNormal(source[i].technique)
                 && notes[i].duration == 1
  {
    var template := TemplateFor(templateKey);
    var notes := seq(|template.notes|, i requires 0 <= i < |template.notes| => FromTemplate(template.notes[i], i));
    Exercise(id, name, "", "", now, now, "custom", 3, 100, [], false,
             Some(Pattern(template.beatsPerMeasure, template.notesPerBeat, "E", Some(notes))),
             PlayStats(0, None, 100))
  }

  /**
   * `create()` with no arguments: the default name and the blank 4/4
   * template. The validator's only complaint is that it has no notes yet.
   */
  function CreateDefault(id: string, now: int): (ex: Exercise)
    ensures ex.name == DefaultName && ex.id == id && ex.created == now
    ensures NotesOf(ex) == Some([])
    ensures ExerciseLibrary.ValidationErrors(ex) == [ExerciseLibrary.NoNotes]
  {
    var ex := Create(DefaultName, Empty44Key, id, now);
    assert !ExerciseLibrary.IsJsWhitespace(DefaultName[0]);
    assert !ExerciseLibrary.IsBlank(ex.name);
    assert NotesOf(ex).value == [];
    ExerciseLibrary.NoteListErrors(ex);
    ex
  }

  /** The two non-empty templates produce exercises the validator accepts, given a name. */
  lemma FilledTemplatesValidate(name: string, templateKey: string, id: string, now: int)
    requires !ExerciseLibrary.IsBlank(name)
    requires templateKey == MajorScaleKey || templateKey == GroovePatternKey
    ensures ExerciseLibrary.ValidationErrors(Create(name, templateKey, id, now)) == []
  {
    var ex := Create(name, templateKey, id, now);
    var notes := NotesOf(ex).value;
    forall i | 0 <= i < |notes|
      ensures ExerciseLibrary.ValidString(notes[i].stringName) && ExerciseLibrary.ValidFret(notes[i].fret)
    {
      assert notes[i].stringName in ExerciseLibrary.ValidStrings;
    }
    ExerciseLibrary.ValidIffWellFormed(ex);
  }

  /** The blank template, and any unknown key, yields an exercise the validator rejects for having no notes. */
  lemma BlankTemplateNeedsNotes(name: string, templateKey: string, id: string, now: int)
    requires templateKey != MajorScaleKey && templateKey != GroovePatternKey
    ensures ExerciseLibrary.NoNotes in ExerciseLibrary.ValidationErrors(Create(name, templateKey, id, now))
  {
    var ex := Create(name, templateKey, id, now);
    assert NotesOf(ex).value == [];
  }

  /**
   * `duplicate`: a copy under a new id and timestamps, named "... (Copy)",
   * with its notes renumbered by position and its play statistics reset.
   * Every other field is carried over; the original is a value and is not
   * changed. The source reads `exercise.pattern.notes` unguarded, so a
   * pattern and a note list are required.
   */
  function Duplicate(ex: Exercise, newId: string, now: int): (d: Exercise)
    requires NotesOf(ex).Some?
    ensures d.id == newId && d.created == now && d.modified == now
    ensures d.name == ex.name + " (Copy)"
    ensures d.stats == PlayStats(0, None, ex.tempo)
    ensures NotesOf(d).Some? && PositionalIds(NotesOf(d).value)
    ensures |NotesOf(d).value| == |NotesOf(ex).value|
    ensures forall i :: 0 <= i < |NotesOf(d).value| ==> NotesOf(d).value[i] == NotesOf(ex).value[i].(id := i)
    ensures d.pattern.value.(notes := ex.pattern.value.notes) == ex.pattern.value
    ensures d.(id := ex.id, name := ex.name, created := ex.created, modified := ex.modified,
               pattern := ex.pattern, stats := ex.stats) == ex
  {
    var p := ex.pattern.value;
    ex.(id := newId, name := ex.name + " (Copy)", created := now, modified := now,
        pattern := Some(p.(notes := Some(Renumber(p.notes.value)))),
        stats := PlayStats(0, None, ex.tempo))
  }

  // ---------------------------------------------------------------------
  // The stored list
  // ---------------------------------------------------------------------

  /** `exercises.findIndex(e => e.id === id)`: the first index with that id, or -1. */
  function FindIndex(xs: seq<Exercise>, id: string): (k: int)
    ensures -1 <= k < |xs|
    ensures k >= 0 ==> xs[k].id == id && forall j :: 0 <= j < k ==> xs[j].id != id
    ensures k == -1 <==> forall j :: 0 <= j < |xs| ==> xs[j].id != id
  {
    if xs == [] then -1
    else if xs[0].id == id then 0
    else
      var k := FindIndex(xs[1..], id);
      if k < 0 then -1 else k + 1
  }

  /** `exercises.find(e => e.id === id) || null`: the first entry with that id. */
  function GetById(xs: seq<Exercise>, id: string): (r: Option<Exercise>)
    ensures r.None? <==> forall j :: 0 <= j < |xs| ==> xs[j].id != id
    ensures r.Some? ==> r.value in xs && r.value.id == id
    ensures r.Some? ==> exists k :: 0 <= k < |xs| && xs[k] == r.value && forall j :: 0 <= j < k ==> xs[j].id != id
  {
    var k := FindIndex(xs, id);
    if k < 0 then None else Some(xs[k])
  }

  /** Two lists whose ids agree position by position give the same first index for any id. */
  lemma SameIdsSameIndex(xs: seq<Exercise>, ys: seq<Exercise>, id: string)
    requires |xs| == |ys|
    requires forall j :: 0 <= j < |xs| ==> xs[j].id == ys[j].id
    ensures FindIndex(xs, id) == FindIndex(ys, id)
  {
    var a, b := FindIndex(xs, id), FindIndex(ys, id);
    if a >= 0 && b >= 0 {
      assert !(a < b) && !(b < a);
    }
  }

  /**
   * The list after `save(e)`: the first entry with `e`'s id is replaced in
   * place; with no such entry `e` is appended. Nothing else moves or changes,
   * and looking `e.id` up afterwards finds `e`.
   */
  function Upsert(xs: seq<Exercise>, e: Exercise): (r: seq<Exercise>)
    ensures |xs| <= |r| <= |xs| + 1
    ensures FindIndex(xs, e.id) >= 0 ==> |r| == |xs| && r[FindIndex(xs, e.id)] == e
    ensures FindIndex(xs, e.id) < 0 ==> |r| == |xs| + 1 && r[|xs|] == e
    ensures forall j :: 0 <= j < |xs| && j != FindIndex(xs, e.id) ==> r[j] == xs[j]
    ensures GetById(r, e.id) == Some(e)
  {
    var k := FindIndex(xs, e.id);
    if k >= 0 then
      var r := xs[k := e];
      SameIdsSameIndex(xs, r, e.id);
      r
    else
      xs + [e]
  }

  /** Appending an entry with another id leaves the first index of `id` as it was. */
  lemma AppendKeepsIndex(xs: seq<Exercise>, e: Exercise, id: string)
    requires id != e.id
    ensures FindIndex(xs + [e], id) == FindIndex(xs, id)
  {
    var r := xs + [e];
    var a := FindIndex(xs, id);
    if a < 0 {
      assert r[|xs|].id != id;
    } else {
      assert r[a] == xs[a];
    }
  }

  /** Saving `e` leaves every other id's lookup as it was. */
  lemma UpsertKeepsOtherLookups(xs: seq<Exercise>, e: Exercise, id: string)
    requires id != e.id
    ensures GetById(Upsert(xs, e), id) == GetById(xs, id)
  {
    var r := Upsert(xs, e);
    var a := FindIndex(xs, id);
    if FindIndex(xs, e.id) >= 0 {
      SameIdsSameIndex(xs, r, id);
      if a >= 0 {
        assert r[a] == xs[a];
      }
    } else {
      AppendKeepsIndex(xs, e, id);
      if a >= 0 {
        assert r[a] == xs[a];
      }
    }
  }

  /** The list after `delete(id)`: every entry with that id removed, the rest in order. */
  function RemoveId(xs: seq<Exercise>, id: string): (r: seq<Exercise>)
    ensures |r| <= |xs|
    ensures GetById(r, id) == None
    ensures forall x :: x in r <==> x in xs && x.id != id
    ensures forall x :: multiset(r)[x] == if x.id != id then multiset(xs)[x] else 0
  {
    var keep := (x: Exercise) => x.id != id;
    var r := Seqs.Filter(keep, xs);
    assert forall x :: x in r <==> x in xs && x.id != id by {
      forall x ensures x in r <==> x in xs && x.id != id {
        Seqs.FilterMembership(keep, xs, x);
      }
    }
    Seqs.FilterMultiset(keep, xs);
    r
  }

  /** Deleting `id` keeps the order of the survivors. */
  lemma RemoveIdKeepsOrder(xs: seq<Exercise>, id: string)
    ensures Seqs.IsSubsequence(RemoveId(xs, id), xs)
  {
    Seqs.FilterIsSubsequence((x: Exercise) => x.id != id, xs);
  }

  /** Deleting `id` leaves every other id's lookup as it was. */
  lemma {:induction false} RemoveIdKeepsOtherLookups(xs: seq<Exercise>, id: string, other: string)
    requires other != id
    ensures GetById(RemoveId(xs, id), other) == GetById(xs, other)
  {
    if xs != [] {
      RemoveIdKeepsOtherLookups(xs[1..], id, other);
      var keep := (x: Exercise) => x.id != id;
      assert RemoveId(xs, id) == Seqs.Filter(keep, xs);
      assert RemoveId(xs[1..], id) == Seqs.Filter(keep, xs[1..]);
      if keep(xs[0]) {
        var r := Seqs.Filter(keep, xs);
        assert r == [xs[0]] + Seqs.Filter(keep, xs[1..]);
        assert r[1..] == Seqs.Filter(keep, xs[1..]);
      }
    }
  }

  /** The local storage slot holding the list. */
  class ExerciseStore {
    /** The stored list, when its text parses. */
    var exercises: seq<Exercise>
    /** Whether the stored text parses; `loadAll` yields `[]` otherwise. */
    var readable: bool

    constructor (initial: seq<Exercise>, parses: bool)
      ensures exercises == initial && readable == parses
    {
      exercises := initial;
      readable := parses;
    }

    /** `loadAll` */
    function Loaded(): (xs: seq<Exercise>)
      reads this
      ensures !readable ==> xs == []
      ensures readable ==> xs == exercises
    {
      if readable then exercises else []
    }

    /** `saveAll`: when the write succeeds the slot holds `xs`; otherwise it is unchanged. */
    method SaveAll(xs: seq<Exercise>, writeSucceeds: bool) returns (ok: bool)
      modifies this
      ensures ok == writeSucceeds
      ensures writeSucceeds ==> exercises == xs && readable
      ensures !writeSucceeds ==> exercises == old(exercises) && readable == old(readable)
    {
      if writeSucceeds {
        exercises := xs;
        readable := true;
      }
      ok := writeSucceeds;
    }

    /**
     * `save(e)`: stamp `modified`, replace the entry with that id in the
     * loaded list or append it, and write the list back. The stamped copy is
     * returned, standing for the caller's object that `save` mutates.
     */
    method Save(e: Exercise, now: int, writeSucceeds: bool) returns (ok: bool, stamped: Exercise)
      modifies this
      ensures stamped == e.(modified := now) && ok == writeSucceeds
      ensures writeSucceeds ==> Loaded() == Upsert(old(Loaded()), stamped)
      ensures writeSucceeds ==> GetById(Loaded(), e.id) == Some(stamped)
      ensures !writeSucceeds ==> exercises == old(exercises) && readable == old(readable)
    {
      var xs := Loaded();
      var index := FindIndex(xs, e.id);
      stamped := e.(modified := now);
      if index >= 0 {
        xs := xs[index := stamped];
      } else {
        xs := xs + [stamped];
      }
      ok := SaveAll(xs, writeSucceeds);
    }

    /** `delete(id)`: write back the loaded list without the entries with that id. */
    method Delete(id: string, writeSucceeds: bool) returns (ok: bool)
      modifies this
      ensures ok == writeSucceeds
      ensures writeSucceeds ==> Loaded() == RemoveId(old(Loaded()), id)
      ensures writeSucceeds ==> GetById(Loaded(), id) == None
      ensures !writeSucceeds ==> exercises == old(exercises) && readable == old(readable)
    {
      var xs := Loaded();
      var filtered := RemoveId(xs, id);
      ok := SaveAll(filtered, writeSucceeds);
    }

    /** `getById(id)` on the loaded list. */
    method FetchById(id: string) returns (r: Option<Exercise>)
      ensures r == GetById(Loaded(), id)
      ensures r.Some? ==> r.value.id == id && r.value in Loaded()
    {
      var xs := Loaded();
      r := GetById(xs, id);
    }
  }
}
