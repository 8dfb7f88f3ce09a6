/**
 * The opening service: a fixed table of lessons per opening system, looked up by the system's
 * name ignoring (ASCII) case, and a first-match search for a lesson by id.
 */
module Openings {
  import opened Wrappers

  datatype Lesson = Lesson(
    id: int,
    title: string,
    description: string,
    startingFen: string,
    keyMoves: seq<string>,
    objectives: seq<string>
  )

  const StonewallLessons: seq<Lesson> := [
    Lesson(1, "Basic Stonewall Formation", "Learn the fundamental pawn structure",
           "rnbqkbnr/pppppppp/8/8/3P4/8/PPP1PPPP/RNBQKBNR b KQkq d3 0 1",
           ["d4", "e3", "f4", "c3"],
           ["Establish the pawn chain d4-e3-f4-c3",
            "Develop pieces to support the structure",
            "Understand typical attacking plans"]),
    Lesson(2, "Piece Development in Stonewall", "Optimal piece placement",
           "rnbqkbnr/pppppppp/8/8/3PP3/5P2/PPP3PP/RNBQKBNR b KQkq - 0 2",
           ["Bd3", "Nf3", "Nd2"],
           ["Place bishop on d3 for kingside attack",
            "Develop knight to f3 for central control",
            "Use Nd2 to support the center"])
  ]

  const TorreLessons: seq<Lesson> := [
    Lesson(1, "Torre Attack Setup", "Basic Torre system formation",
           "rnbqkbnr/pppppppp/8/8/3P4/8/PPP1PPPP/RNBQKBNR b KQkq d3 0 1",
           ["d4", "Nf3", "Bg5", "e3"],
           ["Control the center with d4",
            "Develop knight to f3",
            "Pin opponent's knight with Bg5"])
  ]

  const ColleLessons: seq<Lesson> := [
    Lesson(1, "Colle System Foundation", "Solid central setup",
           "rnbqkbnr/pppppppp/8/8/3P4/8/PPP1PPPP/RNBQKBNR b KQkq d3 0 1",
           ["d4", "Nf3", "e3", "Bd3", "Nbd2"],
           ["Establish solid central control",
            "Develop pieces harmoniously",
            "Prepare for central breakthrough"])
  ]

  /** The lesson table, keyed by lower-case system name. */
  const LessonTable: map<string, seq<Lesson>> :=
    map["stonewall" := StonewallLessons, "torre" := TorreLessons, "colle" := ColleLessons]

  /** ASCII lower-casing of one character. */
  function LowerChar(c: char): (d: char)
    ensures 'A' <= c <= 'Z' ==> d as int == c as int + 32
    ensures !('A' <= c <= 'Z') ==> d == c
    ensures !('A' <= d <= 'Z')
  {
    if 'A' <= c <= 'Z' then (c as int + 32) as char else c
  }

  /** ASCII lower-casing of a string (str.lower restricted to ASCII letters). */
  function Lower(s: string): (r: string)
    ensures |r| == |s|
    ensures forall i :: 0 <= i < |s| ==> r[i] == LowerChar(s[i])
  {
    if s == [] then [] else [LowerChar(s[0])] + Lower(s[1..])
  }

  /** Two names that differ only in the case of ASCII letters. */
  predicate SameIgnoringCase(s: string, t: string)
  {
    |s| == |t| && forall i :: 0 <= i < |s| ==> LowerChar(s[i]) == LowerChar(t[i])
  }

  /** get_lessons_for_system: the table entry for the lower-cased name, or [] for an unknown system. */
  function LessonsForSystem(system: string): (r: seq<Lesson>)
    ensures Lower(system) in LessonTable ==> r == LessonTable[Lower(system)]
    ensures Lower(system) !in LessonTable ==> r == []
  {
    if Lower(system) in LessonTable then LessonTable[Lower(system)] else []
  }

  /** Lower-casing twice is lower-casing once. */
  lemma LowerIdempotent(s: string)
    ensures Lower(Lower(s)) == Lower(s)
  {
    assert forall i :: 0 <= i < |s| ==> Lower(Lower(s))[i] == Lower(s)[i];
  }

  /** Two names that agree ignoring case have the same lower-case form. */
  lemma LowerAgreesIgnoringCase(s: string, t: string)
    requires SameIgnoringCase(s, t)
    ensures Lower(s) == Lower(t)
  {
    assert forall i :: 0 <= i < |s| ==> Lower(s)[i] == Lower(t)[i];
  }

  /** The lookup ignores case: names that agree ignoring case get the same lessons. */
  lemma LessonsIgnoreCase(s: string, t: string)
    requires SameIgnoringCase(s, t)
    ensures LessonsForSystem(s) == LessonsForSystem(t)
    ensures LessonsForSystem(s) == LessonsForSystem(Lower(s))
  {
    LowerAgreesIgnoringCase(s, t);
    LowerIdempotent(s);
  }

  /** The "never an error" corollary of the lookup: an unknown system yields an empty list. */
  lemma UnknownSystemHasNoLessons(system: string)
    requires Lower(system) !in LessonTable
    ensures LessonsForSystem(system) == []
  {
  }

  /** A name without upper-case ASCII letters is its own lower-case form. */
  lemma LowerOfLowerCase(s: string)
    requires forall i :: 0 <= i < |s| ==> !('A' <= s[i] <= 'Z')
    ensures Lower(s) == s
  {
  }

  /** The table holds two Stonewall lessons and one each for Torre and Colle, with these ids. */
  lemma KnownSystems()
    ensures |LessonsForSystem("stonewall")| == 2
    ensures |LessonsForSystem("torre")| == 1 && |LessonsForSystem("colle")| == 1
    ensures LessonsForSystem("stonewall")[0].id == 1 && LessonsForSystem("stonewall")[1].id == 2
    ensures LessonsForSystem("torre")[0].id == 1 && LessonsForSystem("colle")[0].id == 1
  {
    LowerOfLowerCase("stonewall");
    LowerOfLowerCase("torre");
    LowerOfLowerCase("colle");
  }

  /** Lesson k is the first one in `lessons` with this id. */
  ghost predicate FirstWithId(lessons: seq<Lesson>, id: int, k: int)
  {
    0 <= k < |lessons| && lessons[k].id == id && forall j :: 0 <= j < k ==> lessons[j].id != id
  }

  /** The search loop of get_lesson_details: the first lesson with the id, or None. */
  function FindLesson(lessons: seq<Lesson>, id: int): (r: Option<Lesson>)
    ensures r.None? <==> forall k :: 0 <= k < |lessons| ==> lessons[k].id != id
    ensures r.Some? ==> exists k :: FirstWithId(lessons, id, k) && lessons[k] == r.value
  {
    if lessons == [] then None
    else if lessons[0].id == id then
      assert FirstWithId(lessons, id, 0);
      Some(lessons[0])
    else
      var rest := FindLesson(lessons[1..], id);
      assert forall k :: FirstWithId(lessons[1..], id, k) ==> FirstWithId(lessons, id, k + 1);
      rest
  }

  /** get_lesson_details: look the system up, then return its first lesson with the id. */
  function LessonDetails(system: string, id: int): (r: Option<Lesson>)
    ensures r.Some? ==> r.value.id == id && r.value in LessonsForSystem(system)
    ensures r.None? <==> forall l :: l in LessonsForSystem(system) ==> l.id != id
    ensures Lower(system) !in LessonTable ==> r.None?
  {
    FindLesson(LessonsForSystem(system), id)
  }
}
