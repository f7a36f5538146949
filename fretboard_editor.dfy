/**
 * The note-sequence operations of the visual fretboard editor
 * (src/components/builder/VisualFretboardEditor.jsx), as functions from the
 * edited exercise to the next one. The editor always works on an exercise
 * with a pattern and a note list (it starts from `create` or from a stored
 * exercise, and reads `pattern.notes` unguarded), so each operation
 * requires one.
 */
module FretboardEditor {
  import opened Wrappers
  import opened Exercises
  import Seqs
  import ExerciseLibrary
  import AudioService

  /** `b` is `a` with at most its note list replaced. */
  ghost predicate SameExceptNotes(a: Exercise, b: Exercise)
  {
    && a.pattern.Some? && b.pattern.Some?
    && b.(pattern := a.pattern) == a
    && b.pattern.value.(notes := a.pattern.value.notes) == a.pattern.value
  }

  /**
   * `handleAddNote(string, fret)`: append one note whose id is the current
   * note count, with technique "normal" and duration 1.
   */
  function HandleAddNote(ex: Exercise, stringName: string, fret: int): (r: Exercise)
    requires NotesOf(ex).Some?
    ensures SameExceptNotes(ex, r) && NotesOf(r).Some?
    ensures var before, after := NotesOf(ex).value, NotesOf(r).value;
            && |after| == |before| + 1
            && after[..|before|] == before
            && after[|before|] == Note(|before|, stringName, Some(fret), NormalTechnique, 1)
  {
    var notes := NotesOf(ex).value;
    WithNotes(ex, notes + [Note(|notes|, stringName, Some(fret), NormalTechnique, 1)])
  }

  /** Adding keeps ids positional. */
  lemma AddKeepsIdsPositional(ex: Exercise, stringName: string, fret: int)
    requires NotesOf(ex).Some? && PositionalIds(NotesOf(ex).value)
    ensures PositionalIds(NotesOf(HandleAddNote(ex, stringName, fret)).value)
  {
    var before, after := NotesOf(ex).value, NotesOf(HandleAddNote(ex, stringName, fret)).value;
    forall i | 0 <= i < |after| ensures after[i].id == i {
      if i < |before| {
        assert after[i] == after[..|before|][i];
      }
    }
  }

  /**
   * `handleRemoveNote(noteId)`: drop every note with that id and renumber
   * the survivors by position. Ids are positional afterwards whatever they
   * were before.
   */
  function HandleRemoveNote(ex: Exercise, noteId: int): (r: Exercise)
    requires NotesOf(ex).Some?
    ensures SameExceptNotes(ex, r) && NotesOf(r).Some?
    ensures PositionalIds(NotesOf(r).value)
    ensures |NotesOf(r).value| <= |NotesOf(ex).value|
    ensures forall i :: 0 <= i < |NotesOf(r).value| ==>
              exists j :: 0 <= j < |NotesOf(ex).value| && NotesOf(ex).value[j].id != noteId
                          && NotesOf(r).value[i] == NotesOf(ex).value[j].(id := i)
  {
    var notes := NotesOf(ex).value;
    var kept := Seqs.Filter((n: Note) => n.id != noteId, notes);
    var after := Renumber(kept);
    forall i | 0 <= i < |after|
      ensures exists j :: 0 <= j < |notes| && notes[j].id != noteId && after[i] == notes[j].(id := i)
    {
      Seqs.FilterMembership((n: Note) => n.id != noteId, notes, kept[i]);
      var j :| 0 <= j < |notes| && notes[j] == kept[i];
      assert after[i] == notes[j].(id := i);
    }
    WithNotes(ex, after)
  }

  /** The survivors of a removal keep their original relative order. */
  lemma RemoveKeepsSurvivorOrder(ex: Exercise, noteId: int)
    requires NotesOf(ex).Some?
    ensures var survivors := Seqs.Filter((n: Note) => n.id != noteId, NotesOf(ex).value);
            && Seqs.IsSubsequence(survivors, NotesOf(ex).value)
            && NotesOf(HandleRemoveNote(ex, noteId)).value == Renumber(survivors)
  {
    Seqs.FilterIsSubsequence((n: Note) => n.id != noteId, NotesOf(ex).value);
  }

  /**
   * With positional ids, removing the note at position `k` shifts the later
   * notes down by one and renumbers them; the earlier notes stay as they were.
   */
  lemma RemovePositional(ex: Exercise, k: int)
    requires NotesOf(ex).Some? && PositionalIds(NotesOf(ex).value)
    requires 0 <= k < |NotesOf(ex).value|
    ensures var before, after := NotesOf(ex).value, NotesOf(HandleRemoveNote(ex, k)).value;
            && |after| == |before| - 1
            && (forall i :: 0 <= i < k ==> after[i] == before[i])
            && (forall i :: k <= i < |after| ==> after[i] == before[i + 1].(id := i))
  {
    var notes := NotesOf(ex).value;
    Seqs.FilterDropsOne((n: Note) => n.id != k, notes, k);
  }

  /** What `handleUpdateNote` may merge in: each present field overrides the note's own. */
  datatype NoteUpdate = NoteUpdate(
    id: Option<int>,
    stringName: Option<string>,
    fret: Option<Option<int>>,
    technique: Option<string>,
    duration: Option<int>)

  /** `{ ...n, ...updates }` */
  function Merge(n: Note, u: NoteUpdate): (m: Note)
    ensures u.id.None? ==> m.id == n.id
    ensures u == NoteUpdate(None, None, None, None, None) ==> m == n
  {
    Note(u.id.GetOr(n.id), u.stringName.GetOr(n.stringName), u.fret.GetOr(n.fret),
         u.technique.GetOr(n.technique), u.duration.GetOr(n.duration))
  }

  /**
   * `handleUpdateNote(noteId, updates)`: merge the updates into the notes
   * with a matching id; length, order and every other note are unchanged.
   */
  function HandleUpdateNote(ex: Exercise, noteId: int, u: NoteUpdate): (r: Exercise)
    requires NotesOf(ex).Some?
    ensures SameExceptNotes(ex, r) && NotesOf(r).Some?
    ensures |NotesOf(r).value| == |NotesOf(ex).value|
    ensures forall i :: 0 <= i < |NotesOf(ex).value| && NotesOf(ex).value[i].id != noteId ==>
              NotesOf(r).value[i] == NotesOf(ex).value[i]
    ensures forall i :: 0 <= i < |NotesOf(ex).value| && NotesOf(ex).value[i].id == noteId ==>
              NotesOf(r).value[i] == Merge(NotesOf(ex).value[i], u)
  {
    var notes := NotesOf(ex).value;
    WithNotes(ex, seq(|notes|, i requires 0 <= i < |notes| =>
                        if notes[i].id == noteId then Merge(notes[i], u) else notes[i]))
  }

  /** An update that does not touch ids keeps them positional. */
  lemma UpdateKeepsIdsPositional(ex: Exercise, noteId: int, u: NoteUpdate)
    requires NotesOf(ex).Some? && PositionalIds(NotesOf(ex).value) && u.id.None?
    ensures PositionalIds(NotesOf(HandleUpdateNote(ex, noteId, u)).value)
  {
  }

  /** `clearAll`: once confirmed, the note list is emptied and nothing else changes. */
  function ClearAll(ex: Exercise, confirmed: bool): (r: Exercise)
    requires NotesOf(ex).Some?
    ensures confirmed ==> SameExceptNotes(ex, r) && NotesOf(r) == Some([])
    ensures !confirmed ==> r == ex
  {
    if confirmed then WithNotes(ex, []) else ex
  }

  /** A note sits at a fretboard position when both its string and its fret match. */
  predicate AtPosition(n: Note, stringName: string, fret: int)
  {
    n.stringName == stringName && n.fret == Some(fret)
  }

  /** `getNotesAtPosition`: the notes at that position, in their order. */
  function GetNotesAtPosition(ex: Exercise, stringName: string, fret: int): (ns: seq<Note>)
    requires NotesOf(ex).Some?
    ensures forall n :: n in ns <==> n in NotesOf(ex).value && AtPosition(n, stringName, fret)
    ensures forall n :: multiset(ns)[n] == if AtPosition(n, stringName, fret) then multiset(NotesOf(ex).value)[n] else 0
  {
    var notes := NotesOf(ex).value;
    var keep := (n: Note) => AtPosition(n, stringName, fret);
    Seqs.FilterMultiset(keep, notes);
    assert forall n :: n in Seqs.Filter(keep, notes) <==> n in notes && keep(n) by {
      forall n ensures n in Seqs.Filter(keep, notes) <==> n in notes && keep(n) {
        Seqs.FilterMembership(keep, notes, n);
      }
    }
    Seqs.Filter(keep, notes)
  }

  /** The position query keeps the editor's note order. */
  lemma NotesAtPositionInOrder(ex: Exercise, stringName: string, fret: int)
    requires NotesOf(ex).Some?
    ensures Seqs.IsSubsequence(GetNotesAtPosition(ex, stringName, fret), NotesOf(ex).value)
  {
    Seqs.FilterIsSubsequence((n: Note) => AtPosition(n, stringName, fret), NotesOf(ex).value);
  }

  /** `hasNotesAtPosition` */
  function HasNotesAtPosition(ex: Exercise, stringName: string, fret: int): (b: bool)
    requires NotesOf(ex).Some?
    ensures b <==> exists i :: 0 <= i < |NotesOf(ex).value| && AtPosition(NotesOf(ex).value[i], stringName, fret)
  {
    var ns := GetNotesAtPosition(ex, stringName, fret);
    if |ns| > 0 then
      assert ns[0] in ns;
      true
    else
      assert forall i :: 0 <= i < |NotesOf(ex).value| ==> NotesOf(ex).value[i] !in ns;
      false
  }

  /** The tempo slider of the metadata panel: 40 to 160 in steps of 5. */
  const SliderMinTempo := 40
  const SliderMaxTempo := 160
  const SliderTempoStep := 5

  predicate SliderTempo(t: int)
  {
    SliderMinTempo <= t <= SliderMaxTempo && (t - SliderMinTempo) % SliderTempoStep == 0
  }

  /**
   * The slider, the validator and the player's tempo configuration disagree
   * on the upper bound: every slider tempo passes the validator and lies in
   * the player's range, but the validator also accepts 161..200, which
   * neither the slider nor the player's range allows.
   */
  lemma TempoBoundsDisagree(t: int)
    ensures SliderTempo(t) ==> ExerciseLibrary.TempoOk(t) && AudioService.TempoMin <= t <= AudioService.TempoMax
    ensures AudioService.TempoMax < t <= ExerciseLibrary.MaxTempo ==> ExerciseLibrary.TempoOk(t) && !SliderTempo(t)
  {
  }
}
