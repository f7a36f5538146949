/**
 * The exercise list of the builder hub (src/components/builder/CustomBuilderHub.jsx):
 * the search and difficulty filter, and what an exercise card derives from
 * its exercise (duration, stars, tags).
 */
module BuilderHub {
  import opened Wrappers
  import opened Exercises
  import Seqs
  import ExerciseLibrary

  /** `toLowerCase` on ASCII letters; other characters are kept. */
  function LowerChar(c: char): (d: char)
    ensures 'A' <= c <= 'Z' ==> 'a' <= d <= 'z' && d as int == c as int + 32
    ensures !('A' <= c <= 'Z') ==> d == c
  {
    if 'A' <= c <= 'Z' then (c as int + 32) as char else c
  }

  function Lower(s: string): (r: string)
    ensures |r| == |s| && forall i :: 0 <= i < |s| ==> r[i] == LowerChar(s[i])
  {
    seq(|s|, i requires 0 <= i < |s| => LowerChar(s[i]))
  }

  /** `needle` occurs in `hay` starting at index `i`. */
  predicate OccursAt(hay: string, needle: string, i: int)
  {
    0 <= i && i + |needle| <= |hay| && hay[i..i + |needle|] == needle
  }

  /** `hay.includes(needle)`: `needle` occurs somewhere in `hay`. */
  function Includes(hay: string, needle: string): (b: bool)
    ensures b <==> exists i :: OccursAt(hay, needle, i)
    decreases |hay|
  {
    if |needle| > |hay| then false
    else if hay[..|needle|] == needle then
      assert OccursAt(hay, needle, 0);
      true
    else
      var tail := hay[1..];
      var rest := Includes(tail, needle);
      if rest then
        var i :| OccursAt(tail, needle, i);
        assert tail[i..i + |needle|] == hay[i + 1..i + 1 + |needle|];
        assert OccursAt(hay, needle, i + 1);
        true
      else
        assert forall i :: OccursAt(hay, needle, i) ==> i > 0 && OccursAt(tail, needle, i - 1) by {
          forall i | OccursAt(hay, needle, i) ensures i > 0 && OccursAt(tail, needle, i - 1) {
            assert tail[i - 1..i - 1 + |needle|] == hay[i..i + |needle|];
          }
        }
        false
  }

  /** The difficulty select: `'all'` or one level. */
  datatype DifficultyFilter = All | Level(level: int)

  /**
   * The search matches the lower-cased name or the lower-cased description
   * ('' when missing): an empty query matches every exercise, and a match
   * needs a field at least as long as the query.
   */
  function MatchesSearch(ex: Exercise, query: string): (b: bool)
    ensures query == "" ==> b
    ensures b ==> |query| <= |ex.name| || |query| <= |ex.description|
  {
    assert query == "" ==> OccursAt(Lower(ex.name), Lower(query), 0);
    Includes(Lower(ex.name), Lower(query)) || Includes(Lower(ex.description), Lower(query))
  }

  /** Lower-casing twice is lower-casing once. */
  lemma LowerIdempotent(s: string)
    ensures Lower(Lower(s)) == Lower(s)
  {
    assert forall i :: 0 <= i < |s| ==> Lower(Lower(s))[i] == Lower(s)[i];
  }

  /** The search ignores case: a query matches exactly what its lower-cased form matches. */
  lemma SearchIgnoresCase(ex: Exercise, query: string)
    ensures MatchesSearch(ex, query) == MatchesSearch(ex, Lower(query))
  {
    LowerIdempotent(query);
  }

  predicate MatchesDifficulty(ex: Exercise, filter: DifficultyFilter)
  {
    filter.All? || ex.difficulty == filter.level
  }

  /** The predicate of `filteredExercises`. */
  predicate Matches(ex: Exercise, query: string, filter: DifficultyFilter)
  {
    MatchesSearch(ex, query) && MatchesDifficulty(ex, filter)
  }

  /** `filteredExercises`: an exercise is shown iff it matches both the search and the difficulty. */
  function FilterExercises(xs: seq<Exercise>, query: string, filter: DifficultyFilter): (r: seq<Exercise>)
    ensures forall ex :: ex in r <==> ex in xs && Matches(ex, query, filter)
    ensures forall ex :: multiset(r)[ex] == if Matches(ex, query, filter) then multiset(xs)[ex] else 0
    ensures Seqs.IsSubsequence(r, xs)
  {
    var keep := (ex: Exercise) => Matches(ex, query, filter);
    Seqs.FilterMultiset(keep, xs);
    assert forall ex :: ex in Seqs.Filter(keep, xs) <==> ex in xs && keep(ex) by {
      forall ex ensures ex in Seqs.Filter(keep, xs) <==> ex in xs && keep(ex) {
        Seqs.FilterMembership(keep, xs, ex);
      }
    }
    Seqs.FilterIsSubsequence(keep, xs);
    Seqs.Filter(keep, xs)
  }

  /** Filtering an already filtered list changes nothing. */
  lemma FilterExercisesIdempotent(xs: seq<Exercise>, query: string, filter: DifficultyFilter)
    ensures FilterExercises(FilterExercises(xs, query, filter), query, filter) == FilterExercises(xs, query, filter)
  {
    Seqs.FilterIdempotent((ex: Exercise) => Matches(ex, query, filter), xs);
  }

  /** An empty search with the `'all'` filter shows every exercise. */
  lemma EmptySearchShowsAll(xs: seq<Exercise>)
    ensures FilterExercises(xs, "", All) == xs
  {
    var keep := (ex: Exercise) => Matches(ex, "", All);
    forall i | 0 <= i < |xs| ensures keep(xs[i]) {
      assert OccursAt(Lower(xs[i].name), Lower(""), 0);
    }
    Seqs.FilterKeepsAll(keep, xs);
  }

  /** `exercise.pattern?.notes?.length || 0` */
  function CardNoteCount(ex: Exercise): (n: nat)
    ensures NotesOf(ex).None? ==> n == 0
    ensures NotesOf(ex).Some? ==> n == |NotesOf(ex).value|
  {
    match NotesOf(ex)
    case None => 0
    case Some(notes) => |notes|
  }

  /** `exercise.pattern?.notesPerBeat || 3`: never zero, so the duration formula never divides by it. */
  function CardNotesPerBeat(ex: Exercise): (n: int)
    ensures n != 0
    ensures ex.pattern.Some? && ex.pattern.value.notesPerBeat != 0 ==> n == ex.pattern.value.notesPerBeat
    ensures ex.pattern.None? || ex.pattern.value.notesPerBeat == 0 ==> n == 3
  {
    match ex.pattern
    case Some(p) => if p.notesPerBeat != 0 then p.notesPerBeat else 3
    case None => 3
  }

  /** The card's `~Ns` duration: the library's estimate, whatever the exercise. */
  function CardDuration(ex: Exercise): (secs: int)
    ensures secs == ExerciseLibrary.CalculateExerciseDuration(Some(ex))
  {
    var secs := ExerciseLibrary.DurationSeconds(CardNoteCount(ex), CardNotesPerBeat(ex), ex.tempo);
    assert NotesOf(ex).None? ==> secs == 0 by {
      if NotesOf(ex).None? {
        var p := (if CardNotesPerBeat(ex) != 0 then CardNotesPerBeat(ex) else 3) as real;
        var t := (if ex.tempo != 0 then ex.tempo else 100) as real;
        assert 0 as real / p / t * 60.0 == 0.0;
      }
    }
    secs
  }

  /** `'★'.repeat(exercise.difficulty || 1)`: a validated exercise shows one to five stars. */
  function Stars(ex: Exercise): (n: int)
    ensures ex.difficulty == 0 ==> n == 1
    ensures ex.difficulty != 0 ==> n == ex.difficulty
    ensures ExerciseLibrary.DifficultyOk(ex.difficulty) ==> 1 <= n <= ExerciseLibrary.MaxDifficulty
  {
    if ex.difficulty != 0 then ex.difficulty else 1
  }

  /** `exercise.tags.slice(0, 3)`: at most the first three tags. */
  function ShownTags(ex: Exercise): (ts: seq<string>)
    ensures |ts| <= 3 && |ts| <= |ex.tags| && ts == ex.tags[..|ts|]
    ensures |ex.tags| <= 3 ==> ts == ex.tags
    ensures |ex.tags| > 3 ==> |ts| == 3
  {
    if |ex.tags| <= 3 then ex.tags else ex.tags[..3]
  }

  /** The card's `BPM` label: `exercise.tempo || 100`. */
  function CardTempo(ex: Exercise): (bpm: int)
    ensures ex.tempo != 0 ==> bpm == ex.tempo
    ensures ex.tempo == 0 ==> bpm == 100
  {
    if ex.tempo != 0 then ex.tempo else 100
  }
}
