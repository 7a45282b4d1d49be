/**
 * The timetable screen (src/components/TimeSlotsClient.tsx): the day tabs,
 * the student change handler, and the sessions shown for the active day,
 * filtered by day and sorted by start time.
 */
module TimeSlots {
  import opened Wrappers
  import opened Js
  import opened Seqs
  import opened Transport
  import opened Actions

  const Days: seq<string> := ["Lundi", "Mardi", "Mercredi", "Jeudi", "Vendredi"]

  // ----- The order on start times -----

  /** A fixed total order on strings: code-point lexicographic order. */
  predicate LexLe(a: string, b: string)
    decreases |a|
  {
    a == [] || (b != [] && (a[0] < b[0] || (a[0] == b[0] && LexLe(a[1..], b[1..]))))
  }

  lemma {:induction false} LexLeReflexive(a: string)
    ensures LexLe(a, a)
    decreases |a|
  {
    if a != [] {
      LexLeReflexive(a[1..]);
    }
  }

  lemma {:induction false} LexLeTotal(a: string, b: string)
    ensures LexLe(a, b) || LexLe(b, a)
    decreases |a|
  {
    if a != [] && b != [] && a[0] == b[0] {
      LexLeTotal(a[1..], b[1..]);
    }
  }

  lemma {:induction false} LexLeTransitive(a: string, b: string, c: string)
    requires LexLe(a, b) && LexLe(b, c)
    ensures LexLe(a, c)
    decreases |a|
  {
    if a != [] && a[0] == b[0] && b[0] == c[0] {
      LexLeTransitive(a[1..], b[1..], c[1..]);
    }
  }

  /** Two strings ordered both ways are equal. */
  lemma {:induction false} LexLeAntisymmetric(a: string, b: string)
    requires LexLe(a, b) && LexLe(b, a)
    ensures a == b
    decreases |a|
  {
    if a != [] {
      LexLeAntisymmetric(a[1..], b[1..]);
      assert a == [a[0]] + a[1..] && b == [b[0]] + b[1..];
    }
  }

  /** A session's start time; a session without a text start time is taken as the empty string. */
  function StartAt(g: Json): string
  {
    match Field(g, "session_start_at")
    case Str(s) => s
    case _ => ""
  }

  predicate Before(x: Json, y: Json)
  {
    LexLe(StartAt(x), StartAt(y))
  }

  predicate SortedByStart(s: seq<Json>)
  {
    forall i, j :: 0 <= i < j < |s| ==> Before(s[i], s[j])
  }

  // ----- Filter and sort -----

  /** Keeps the sessions held on `day` (strict equality). */
  function OnDay(day: string): Json -> bool
  {
    g => Field(g, "day") == Str(day)
  }

  /** Sorts by start time in place, by swapping each new entry down past the later ones before it. */
  method SortByStart(a: array<Json>)
    modifies a
    ensures SortedByStart(a[..])
    ensures multiset(a[..]) == multiset(old(a[..]))
  {
    if a.Length == 0 {
      return;
    }
    var i := 1;
    while i < a.Length
      invariant 1 <= i <= a.Length
      invariant forall k, l :: 0 <= k < l < i ==> Before(a[k], a[l])
      invariant multiset(a[..]) == multiset(old(a[..]))
    {
      var j := i;
      while j > 0 && !Before(a[j - 1], a[j])
        invariant 0 <= j <= i
        invariant forall k, l :: 0 <= k < l <= i && k != j && l != j ==> Before(a[k], a[l])
        invariant forall l :: j < l <= i ==> Before(a[j], a[l])
        invariant multiset(a[..]) == multiset(old(a[..]))
      {
        LexLeTotal(StartAt(a[j - 1]), StartAt(a[j]));
        a[j - 1], a[j] := a[j], a[j - 1];
        j := j - 1;
      }
      forall k | 0 <= k < j - 1
        ensures Before(a[k], a[j])
      {
        LexLeTransitive(StartAt(a[k]), StartAt(a[j - 1]), StartAt(a[j]));
      }
      i := i + 1;
    }
  }

  /**
   * `filteredSessions`: the active day's sessions, in start-time order. Reading
   * `g.day` off a null or undefined entry throws, and the render shows nothing.
   */
  method FilteredSessions(groups: seq<Json>, day: string) returns (shown: Option<seq<Json>>)
    ensures shown.None? <==> exists i :: 0 <= i < |groups| && Nullish(groups[i])
    ensures shown.Some? ==> forall i :: 0 <= i < |shown.value| ==> Field(shown.value[i], "day") == Str(day)
    ensures shown.Some? ==> multiset(shown.value) == multiset(Filter(OnDay(day), groups))
    ensures shown.Some? ==> SortedByStart(shown.value)
  {
    if exists i :: 0 <= i < |groups| && Nullish(groups[i]) {
      return None;
    }
    var chosen := Filter(OnDay(day), groups);
    var a := new Json[|chosen|](i requires 0 <= i < |chosen| => chosen[i]);
    assert a[..] == chosen;
    SortByStart(a);
    var sorted := a[..];
    forall i | 0 <= i < |sorted|
      ensures Field(sorted[i], "day") == Str(day)
    {
      assert sorted[i] in multiset(chosen);
    }
    shown := Some(sorted);
  }

  /**
   * A session of the day appears as often as it was in the list; nothing of
   * another day appears. `FilteredSessions` shows this same multiset.
   */
  lemma ShownSessionCount(groups: seq<Json>, day: string, g: Json)
    ensures multiset(Filter(OnDay(day), groups))[g] == if Field(g, "day") == Str(day) then multiset(groups)[g] else 0
  {
    FilterCount(OnDay(day), groups, g);
  }

  // ----- The screen -----

  class TimeSlotsView {
    var selectedStudentId: int
    var groups: Json
    var loading: bool
    var activeTab: string

    predicate Valid()
      reads this
    {
      activeTab in Days
    }

    constructor ()
      ensures Valid() && activeTab == Days[0] && groups == Arr([]) && !loading
    {
      selectedStudentId := 0;
      groups := Arr([]);
      loading := false;
      activeTab := Days[0];
    }

    /** Only the five day buttons change the tab. */
    method SelectTab(day: string)
      requires day in Days
      modifies this
      ensures Valid() && activeTab == day && groups == old(groups) && loading == old(loading)
    {
      activeTab := day;
    }

    /** `handleStudentChange`: success replaces the groups, failure keeps them; loading ends either way. */
    method HandleStudentChange(studentId: int, reply: Reply)
      requires Valid()
      modifies this
      ensures Valid() && activeTab == old(activeTab) && selectedStudentId == studentId
      ensures groups == if Fetch(Groups(studentId), reply).success then Fetch(Groups(studentId), reply).data else old(groups)
      ensures !loading
    {
      selectedStudentId := studentId;
      loading := true;
      var result := Fetch(Groups(studentId), reply);
      if result.success {
        groups := result.data;
      }
      loading := false;
    }
  }
}
