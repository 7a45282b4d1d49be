/**
 * The grades screen (src/components/PointsClient.tsx): `fetchData` routes
 * exam 7 to the final-exam endpoint and every other exam to the notes
 * endpoint, filters notes by semester, and the screen decides whether the
 * final average is shown.
 */
module Points {
  import opened Strings
  import opened Js
  import opened Seqs
  import opened Transport
  import opened Actions

  /** The exam number that stands for the general average. */
  const FinalExamNumber := 7
  /** The semester choice "Tout", which shows every note. */
  const AllSemesters := 3

  /**
   * Loose equality `v == n` against a whole number. Strings and arrays are
   * compared through their text, which this model only counts as equal when
   * it is the number's canonical numeral.
   */
  predicate LooseEqualsInt(v: Json, n: int)
  {
    match v
    case Num(k) => k == n
    case Bool(b) => (if b then 1 else 0) == n
    case Str(_) => JsString(v) == IntToString(n)
    case Arr(_) => JsString(v) == IntToString(n)
    case _ => false
  }

  /** The note filter: keep a note whose `semester` loosely equals the selection. */
  function KeepSemester(semester: int): Json -> bool
  {
    n => LooseEqualsInt(Field(n, "semester"), semester)
  }

  /** The list can be filtered: an array whose every entry has readable fields. */
  predicate Filterable(v: Json)
  {
    v.Arr? && forall i :: 0 <= i < |v.items| ==> !Nullish(v.items[i])
  }

  /** The notes shown after a notes fetch; anything that makes the filter throw leaves the reset value. */
  function ShownNotes(result: Envelope, semester: int): (shown: Json)
    ensures !result.success ==> shown == Arr([])
    ensures result.success && semester == AllSemesters ==> shown == result.data
    ensures semester != AllSemesters ==>
      shown.Arr? && forall i :: 0 <= i < |shown.items| ==> KeepSemester(semester)(shown.items[i])
    ensures semester != AllSemesters && result.success && !Filterable(result.data) ==> shown == Arr([])
  {
    if !result.success then Arr([])
    else if semester == AllSemesters then result.data
    else if Filterable(result.data) then Arr(Filter(KeepSemester(semester), result.data.items))
    else Arr([])
  }

  /**
   * For a single semester the notes shown are exactly the fetched notes of
   * that semester, in their original order, each as often as fetched.
   */
  lemma {:induction false} SemesterFilterExact(result: Envelope, semester: int, x: Json)
    requires result.success && semester != AllSemesters && Filterable(result.data)
    ensures IsSubsequence(ShownNotes(result, semester).items, result.data.items)
    ensures multiset(ShownNotes(result, semester).items)[x] ==
      if LooseEqualsInt(Field(x, "semester"), semester) then multiset(result.data.items)[x] else 0
  {
    FilterIsSubsequence(KeepSemester(semester), result.data.items);
    FilterCount(KeepSemester(semester), result.data.items, x);
  }

  /** The final note shown: the record's `semster_note` on success, null when the call fails or the record is null. */
  function FinalNoteOf(result: Envelope): (note: Json)
    ensures !result.success || Nullish(result.data) ==> note == Null
    ensures result.success && !Nullish(result.data) ==> note == Field(result.data, "semster_note")
  {
    if result.success then
      match Prop(result.data, "semster_note")
      case Threw => Null
      case Got(v) => v
    else Null
  }

  /**
   * The final average is shown unless the note is strictly null or strictly
   * the number 0: the comparisons convert nothing, so undefined, false and
   * every text, "0" included, show it.
   */
  predicate ShowsFinalAverage(note: Json): (shown: bool)
    ensures note.Null? ==> !shown
    ensures note.Num? ==> (shown <==> note.n != 0)
    ensures note.Undefined? || note.Str? || note.Bool? || note.Arr? || note.Obj? ==> shown
  {
    note != Null && note != Num(0)
  }

  /**
   * A failed final-exam call hides the average; a record without
   * `semster_note` shows it, with an undefined value, as does the text "0".
   */
  lemma FinalAverageCases(studentId: int, semester: int, reply: Reply, status: int)
    requires 200 <= status < 300
    ensures !Accepted(reply) ==> !ShowsFinalAverage(FinalNoteOf(Fetch(FinalExam(studentId, semester), reply)))
    ensures ShowsFinalAverage(FinalNoteOf(Fetch(FinalExam(studentId, semester), Response(status, Obj(map[])))))
    ensures ShowsFinalAverage(Str("0")) && !ShowsFinalAverage(Num(0))
  {
  }

  /** `getSemesterName`: loosely 1, loosely 2, or anything else. */
  function SemesterName(id: Json): (name: string)
    ensures name in {"First Semester", "Second Semester", "Unknown"}
    ensures name == "First Semester" <==> LooseEqualsInt(id, 1)
    ensures name == "Second Semester" <==> LooseEqualsInt(id, 2) && !LooseEqualsInt(id, 1)
  {
    if LooseEqualsInt(id, 1) then "First Semester"
    else if LooseEqualsInt(id, 2) then "Second Semester"
    else "Unknown"
  }

  lemma SemesterNameExamples(n: int)
    requires n != 1 && n != 2
    ensures SemesterName(Num(1)) == "First Semester" && SemesterName(Str("1")) == "First Semester"
    ensures SemesterName(Num(2)) == "Second Semester" && SemesterName(Bool(true)) == "First Semester"
    ensures SemesterName(Num(n)) == "Unknown" && SemesterName(Null) == "Unknown"
  {
    assert IntToString(1) == "1";
  }

  class PointsView {
    var notes: Json
    var finalNote: Json
    var loading: bool

    constructor ()
      ensures notes == Arr([]) && finalNote == Null && !loading
    {
      notes := Arr([]);
      finalNote := Null;
      loading := false;
    }

    /**
     * `fetchData`: reset both results, call the endpoint for the chosen exam
     * and show what comes back; loading ends on every path.
     */
    method FetchData(studentId: int, semester: int, exam: int, reply: Reply) returns (target: Resource)
      modifies this
      ensures target == if exam == FinalExamNumber then FinalExam(studentId, semester) else Notes(studentId, exam)
      ensures exam == FinalExamNumber ==> notes == Arr([]) && finalNote == FinalNoteOf(Fetch(target, reply))
      ensures exam != FinalExamNumber ==> finalNote == Null && notes == ShownNotes(Fetch(target, reply), semester)
      ensures !loading
    {
      loading := true;
      notes := Arr([]);
      finalNote := Null;
      if exam == FinalExamNumber {
        target := FinalExam(studentId, semester);
        var result := Fetch(target, reply);
        if result.success {
          var note := Prop(result.data, "semster_note");
          if note.Got? {
            finalNote := note.value;
          }
        }
      } else {
        target := Notes(studentId, exam);
        var result := Fetch(target, reply);
        if result.success {
          var fetched := result.data;
          if semester != AllSemesters {
            if Filterable(fetched) {
              notes := Arr(Filter(KeepSemester(semester), fetched.items));
            }
          } else {
            notes := fetched;
          }
        }
      }
      loading := false;
    }
  }
}
