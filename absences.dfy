/**
 * The absences screen (src/components/AbsencesClient.tsx): the student
 * change handler, the three counts and the labels of each record.
 */
module Absences {
  import opened Js
  import opened Seqs
  import opened Transport
  import opened Actions

  /** A record with a justification (loosely not null). */
  predicate Justified(a: Json)
  {
    !Nullish(Field(a, "justification"))
  }

  function IsJustified(): Json -> bool
  {
    a => Justified(a)
  }

  function IsUnjustified(): Json -> bool
  {
    a => !Justified(a)
  }

  function IsAbsence(): Json -> bool
  {
    a => Field(a, "type") == Str("absence")
  }

  function JustifiedCount(records: seq<Json>): (n: nat)
    ensures n <= |records|
    ensures records == [] ==> n == 0
  {
    |Filter(IsJustified(), records)|
  }

  function UnjustifiedCount(records: seq<Json>): (n: nat)
    ensures n <= |records|
    ensures records == [] ==> n == 0
  {
    |Filter(IsUnjustified(), records)|
  }

  /** Only records of type `absence` count towards the total; delays do not. */
  function TotalCount(records: seq<Json>): (n: nat)
    ensures n <= |records|
    ensures records == [] ==> n == 0
  {
    |Filter(IsAbsence(), records)|
  }

  /**
   * One more record adds one to each count whose condition it meets and
   * leaves the others, so each count is the number of records meeting its
   * condition.
   */
  lemma CountsAppend(records: seq<Json>, a: Json)
    ensures JustifiedCount(records + [a]) == JustifiedCount(records) + (if Justified(a) then 1 else 0)
    ensures UnjustifiedCount(records + [a]) == UnjustifiedCount(records) + (if Justified(a) then 0 else 1)
    ensures TotalCount(records + [a]) == TotalCount(records) + (if Field(a, "type") == Str("absence") then 1 else 0)
  {
    FilterAppend(IsJustified(), records, [a]);
    FilterAppend(IsUnjustified(), records, [a]);
    FilterAppend(IsAbsence(), records, [a]);
  }

  /** Every record is either justified or not, so the two counts add up to the list. */
  lemma CountsPartition(records: seq<Json>)
    ensures JustifiedCount(records) + UnjustifiedCount(records) == |records|
  {
    FilterComplement(IsJustified(), IsUnjustified(), records);
  }

  /** A delay is never counted in the total, so a list with a delay has a total below its length. */
  lemma DelaysNotCounted(records: seq<Json>, i: int)
    requires 0 <= i < |records| && Field(records[i], "type") == Str("delay")
    ensures TotalCount(records) < |records|
  {
    FilterDropsFailing(IsAbsence(), records, i);
  }

  /** The lesson label: strictly session 1 is the morning. */
  function SessionLabel(a: Json): (shown: string)
    ensures shown == "Matin" <==> Field(a, "session") == Num(1)
    ensures shown == "Matin" || shown == "Soir"
  {
    if Field(a, "session") == Num(1) then "Matin" else "Soir"
  }

  /** The type badge: strictly `delay` is a delay, everything else an absence. */
  function TypeLabel(a: Json): (shown: string)
    ensures shown == "Delay" <==> Field(a, "type") == Str("delay")
    ensures shown == "Delay" || shown == "Absence"
  {
    if Field(a, "type") == Str("delay") then "Delay" else "Absence"
  }

  const NoJustificationText := "Sans justification"

  /** The justification shown: the record's own when truthy, otherwise the fixed text. */
  function JustificationLabel(a: Json): (shown: Json)
    ensures Truthy(shown)
    ensures Truthy(Field(a, "justification")) ==> shown == Field(a, "justification")
    ensures !Truthy(Field(a, "justification")) ==> shown == Str(NoJustificationText)
  {
    Or(Field(a, "justification"), Str(NoJustificationText))
  }

  /**
   * An empty justification text counts as justified yet shows the fixed
   * "no justification" text.
   */
  lemma EmptyJustificationQuirk(a: Json)
    requires a.Obj? && Field(a, "justification") == Str("")
    ensures Justified(a) && JustificationLabel(a) == Str(NoJustificationText)
  {
  }

  class AbsencesView {
    var selectedStudentId: int
    var absences: Json
    var loading: bool

    constructor ()
      ensures absences == Arr([]) && !loading
    {
      selectedStudentId := 0;
      absences := Arr([]);
      loading := false;
    }

    /** `handleStudentChange`: success replaces the list wholesale, failure keeps the previous one. */
    method HandleStudentChange(studentId: int, reply: Reply)
      modifies this
      ensures selectedStudentId == studentId
      ensures absences == if Fetch(Absences(studentId), reply).success then Fetch(Absences(studentId), reply).data else old(absences)
      ensures !loading
    {
      selectedStudentId := studentId;
      loading := true;
      var result := Fetch(Absences(studentId), reply);
      if result.success {
        absences := result.data;
      }
      loading := false;
    }
  }
}
