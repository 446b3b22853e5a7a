/** The computations behind the patient dashboard's cards: tasks, streak, mood statistics, summaries, the doctor's photo and the complaint list. */
module PatientDashboard {
  import opened Values
  import opened Strings
  import opened Seqs
  import opened Records
  import Todos
  import Uploads

  // ---------- today's tasks ----------

  predicate Pending(t: Todos.Task) { !t.completed }
  predicate Done(t: Todos.Task) { t.completed }

  /** `todo.tasks?.filter(t => !t.completed).length || 0`. */
  function PendingTasks(tasks: Option<seq<Todos.Task>>): (r: nat)
    ensures tasks.None? ==> r == 0
    ensures tasks.Some? ==> r + |Filter(tasks.value, Done)| == |tasks.value|
    ensures tasks.Some? ==> (r == 0 <==> forall t :: t in tasks.value ==> t.completed)
  {
    match tasks
    case None => 0
    case Some(ts) =>
      FilterSplit(ts, Pending, Done);
      FilterMembers(ts, Pending);
      var kept := Filter(ts, Pending);
      assert |kept| > 0 ==> kept[0] in kept;
      |kept|
  }

  /** Ticking off a pending task through the to-do endpoint lowers the count by exactly one. */
  lemma TickLowersPending(tasks: seq<Todos.Task>, i: nat, reason: Option<string>)
    requires i < |tasks| && !tasks[i].completed
    ensures var after := Todos.UpdatedTasks(tasks, Some(i), true, reason).value;
      PendingTasks(Some(after)) + 1 == PendingTasks(Some(tasks))
  {
    var after := Todos.UpdatedTasks(tasks, Some(i), true, reason).value;
    assert tasks == tasks[..i] + [tasks[i]] + tasks[i + 1..];
    assert after == tasks[..i] + [after[i]] + tasks[i + 1..];
    FilterAppend(tasks[..i] + [tasks[i]], tasks[i + 1..], Pending);
    FilterAppend(tasks[..i], [tasks[i]], Pending);
    FilterAppend(tasks[..i] + [after[i]], tasks[i + 1..], Pending);
    FilterAppend(tasks[..i], [after[i]], Pending);
  }

  // ---------- wellness streak ----------

  predicate HasEntry(history: seq<Wellness>, day: int)
  {
    exists h :: h in history && h.day == day
  }

  /**
   * `loadWellnessStreak`: counts back from today, one day at a time for at most
   * 30 days, and stops at the first day without an entry.
   */
  method WellnessStreak(history: seq<Wellness>, today: int) returns (streak: nat)
    ensures streak <= 30
    ensures forall d :: today - streak < d <= today ==> HasEntry(history, d)
    ensures streak < 30 ==> !HasEntry(history, today - streak)
  {
    streak := 0;
    var i := 0;
    while i < 30
      invariant 0 <= i <= 30 && streak == i
      invariant forall d :: today - i < d <= today ==> HasEntry(history, d)
    {
      var hasEntry := AnyEntryOn(history, today - i);
      if hasEntry {
        streak := streak + 1;
      } else {
        break;
      }
      i := i + 1;
    }
  }

  /** `history.some(h => sameDay(h.date, checkDate))`. */
  method AnyEntryOn(history: seq<Wellness>, day: int) returns (found: bool)
    ensures found <==> HasEntry(history, day)
  {
    found := false;
    var k := 0;
    while k < |history|
      invariant 0 <= k <= |history|
      invariant !found <==> forall j :: 0 <= j < k ==> history[j].day != day
    {
      if history[k].day == day {
        found := true;
      }
      k := k + 1;
    }
    if !found {
      forall h | h in history ensures h.day != day {
        var j :| 0 <= j < |history| && history[j] == h;
      }
    }
  }

  // ---------- mood statistics ----------

  predicate HasMood(m: string) { m != "" }

  /** How many entries carry mood `m`. */
  function Occurrences(moods: seq<string>, m: string): (r: nat)
    ensures r <= |moods|
  {
    if moods == [] then 0
    else Occurrences(moods[..|moods| - 1], m) + (if moods[|moods| - 1] == m then 1 else 0)
  }

  /** The distinct truthy moods in order of first appearance: the order `Object.keys(moodCounts)` lists them. */
  function FirstOccurrences(moods: seq<string>): seq<string>
  {
    if moods == [] then []
    else
      var front := FirstOccurrences(moods[..|moods| - 1]);
      var m := moods[|moods| - 1];
      if m == "" || m in front then front else front + [m]
  }

  /** `moodCounts` after the `forEach`: every truthy mood's counter bumped once per entry. */
  function MoodCounts(moods: seq<string>): map<string, nat>
  {
    if moods == [] then map[]
    else
      var counts := MoodCounts(moods[..|moods| - 1]);
      var m := moods[|moods| - 1];
      if m == "" then counts else counts[m := (if m in counts then counts[m] else 0) + 1]
  }

  /** The keys are exactly the truthy moods, each listed once. */
  lemma {:induction false} FirstOccurrencesFacts(moods: seq<string>)
    ensures forall k :: k in FirstOccurrences(moods) <==> k in moods && k != ""
    ensures forall i, j :: 0 <= i < j < |FirstOccurrences(moods)| ==> FirstOccurrences(moods)[i] != FirstOccurrences(moods)[j]
    decreases |moods|
  {
    if moods != [] {
      var front := moods[..|moods| - 1];
      assert moods == front + [moods[|moods| - 1]];
      FirstOccurrencesFacts(front);
    }
  }

  /** The counter of a mood is the number of entries with that mood; only logged moods have a counter. */
  lemma {:induction false} MoodCountsFacts(moods: seq<string>)
    ensures forall k :: k in MoodCounts(moods) <==> k in moods && k != ""
    ensures forall k :: k in MoodCounts(moods) ==> MoodCounts(moods)[k] == Occurrences(moods, k) >= 1
    decreases |moods|
  {
    if moods != [] {
      var front := moods[..|moods| - 1];
      var m := moods[|moods| - 1];
      assert moods == front + [m];
      MoodCountsFacts(front);
      if m != "" && m !in front {
        OccurrencesAbsent(front, m);
      }
    }
  }

  lemma {:induction false} OccurrencesAbsent(moods: seq<string>, m: string)
    requires m !in moods
    ensures Occurrences(moods, m) == 0
    decreases |moods|
  {
    if moods != [] {
      assert moods == moods[..|moods| - 1] + [moods[|moods| - 1]];
      OccurrencesAbsent(moods[..|moods| - 1], m);
    }
  }

  /** The sum of the counts of `keys`. */
  function SumOver(keys: seq<string>, counts: map<string, nat>): nat
    requires forall k :: k in keys ==> k in counts
  {
    if keys == [] then 0 else SumOver(keys[..|keys| - 1], counts) + counts[keys[|keys| - 1]]
  }

  lemma {:induction false} SumOverSameCounts(keys: seq<string>, c1: map<string, nat>, c2: map<string, nat>)
    requires forall k :: k in keys ==> k in c1 && k in c2 && c1[k] == c2[k]
    ensures SumOver(keys, c1) == SumOver(keys, c2)
  {
    if keys != [] {
      SumOverSameCounts(keys[..|keys| - 1], c1, c2);
    }
  }

  lemma {:induction false} SumOverBump(keys: seq<string>, counts: map<string, nat>, m: string)
    requires forall k :: k in keys ==> k in counts
    requires forall i, j :: 0 <= i < j < |keys| ==> keys[i] != keys[j]
    requires m in keys
    ensures SumOver(keys, counts[m := counts[m] + 1]) == SumOver(keys, counts) + 1
  {
    var front := keys[..|keys| - 1];
    var last := keys[|keys| - 1];
    if last == m {
      assert m !in front;
      SumOverSameCounts(front, counts, counts[m := counts[m] + 1]);
    } else {
      assert keys == front + [last];
      SumOverBump(front, counts, m);
    }
  }

  /** The counts add up to the number of entries that have a mood. */
  lemma {:induction false} CountsSumToLogged(moods: seq<string>)
    ensures forall k :: k in FirstOccurrences(moods) ==> k in MoodCounts(moods)
    ensures SumOver(FirstOccurrences(moods), MoodCounts(moods)) == |Filter(moods, HasMood)|
    decreases |moods|
  {
    FirstOccurrencesFacts(moods);
    MoodCountsFacts(moods);
    if moods != [] {
      var front := moods[..|moods| - 1];
      var m := moods[|moods| - 1];
      assert moods == front + [m];
      CountsSumToLogged(front);
      FilterAppend(front, [m], HasMood);
      var keys := FirstOccurrences(front);
      var counts := MoodCounts(front);
      FirstOccurrencesFacts(front);
      MoodCountsFacts(front);
      if m != "" {
        if m in counts {
          SumOverBump(keys, counts, m);
        } else {
          SumOverSameCounts(keys, counts, counts[m := 1]);
        }
      }
    }
  }

  /** One more entry: the keys and counters of `moods[..i + 1]` from those of `moods[..i]`. */
  lemma CountStep(moods: seq<string>, i: nat)
    requires i < |moods|
    ensures moods[i] in MoodCounts(moods[..i]) <==> moods[i] in FirstOccurrences(moods[..i])
    ensures FirstOccurrences(moods[..i + 1]) ==
      var front := FirstOccurrences(moods[..i]);
      if moods[i] == "" || moods[i] in front then front else front + [moods[i]]
    ensures moods[i] == "" ==> MoodCounts(moods[..i + 1]) == MoodCounts(moods[..i])
    ensures moods[i] != "" && moods[i] in MoodCounts(moods[..i]) ==>
      MoodCounts(moods[..i + 1]) == MoodCounts(moods[..i])[moods[i] := MoodCounts(moods[..i])[moods[i]] + 1]
    ensures moods[i] != "" && moods[i] !in MoodCounts(moods[..i]) ==>
      MoodCounts(moods[..i + 1]) == MoodCounts(moods[..i])[moods[i] := 1]
  {
    assert moods[..i + 1][..i] == moods[..i];
    FirstOccurrencesFacts(moods[..i]);
    MoodCountsFacts(moods[..i]);
  }

  /**
   * The `forEach` that fills `moodCounts`: the keys come out in insertion order and
   * each count is the number of entries with that mood.
   */
  method CountMoods(wellness: seq<Wellness>) returns (keys: seq<string>, counts: map<string, nat>)
    ensures keys == FirstOccurrences(Moods(wellness)) && counts == MoodCounts(Moods(wellness))
  {
    keys := [];
    counts := map[];
    ghost var moods := Moods(wellness);
    for i := 0 to |wellness|
      invariant keys == FirstOccurrences(moods[..i]) && counts == MoodCounts(moods[..i])
    {
      var m := wellness[i].mood;
      assert m == moods[i];
      CountStep(moods, i);
      if m != "" {
        if m in counts {
          counts := counts[m := counts[m] + 1];
        } else {
          keys := keys + [m];
          counts := counts[m := 1];
        }
      }
    }
    assert moods[..|wellness|] == moods;
  }

  function Moods(wellness: seq<Wellness>): (r: seq<string>)
    ensures |r| == |wellness| && forall i :: 0 <= i < |r| ==> r[i] == wellness[i].mood
  {
    if wellness == [] then [] else Moods(wellness[..|wellness| - 1]) + [wellness[|wellness| - 1].mood]
  }

  /**
   * `keys.reduce((a, b) => counts[a] > counts[b] ? a : b)` over the first `n` keys:
   * a key of maximal count, and on a tie the later key wins.
   */
  function Winner(keys: seq<string>, counts: map<string, nat>, n: nat): (w: nat)
    requires 1 <= n <= |keys| && forall k :: k in keys ==> k in counts
    ensures w < n
    ensures forall j :: 0 <= j < n ==> counts[keys[j]] <= counts[keys[w]]
    ensures forall j :: w < j < n ==> counts[keys[j]] < counts[keys[w]]
  {
    if n == 1 then 0
    else
      var w := Winner(keys, counts, n - 1);
      if counts[keys[w]] > counts[keys[n - 1]] then w else n - 1
  }

  /** The most common mood, or `N/A` when no entry has a mood. */
  function MostCommonMood(keys: seq<string>, counts: map<string, nat>): (r: string)
    requires forall k :: k in keys ==> k in counts
    ensures keys == [] ==> r == "N/A"
    ensures keys != [] ==> r in keys && forall k :: k in keys ==> counts[k] <= counts[r]
  {
    if keys == [] then "N/A" else keys[Winner(keys, counts, |keys|)]
  }

  /** The most common of the logged moods, over the counts the `forEach` builds. */
  function MostCommonOf(moods: seq<string>): (r: string)
    ensures (forall i :: 0 <= i < |moods| ==> moods[i] == "") ==> r == "N/A"
    ensures (exists i :: 0 <= i < |moods| && moods[i] != "") ==>
      r in moods && r != "" &&
      forall m :: m in moods && m != "" ==> Occurrences(moods, m) <= Occurrences(moods, r)
  {
    FirstOccurrencesFacts(moods);
    MoodCountsFacts(moods);
    SomeMoodIsKey(moods);
    MostCommonMood(FirstOccurrences(moods), MoodCounts(moods))
  }

  lemma SomeMoodIsKey(moods: seq<string>)
    ensures (exists i :: 0 <= i < |moods| && moods[i] != "") ==> FirstOccurrences(moods) != []
  {
    if exists i :: 0 <= i < |moods| && moods[i] != "" {
      var i :| 0 <= i < |moods| && moods[i] != "";
      FirstOccurrencesFacts(moods);
      assert moods[i] in FirstOccurrences(moods);
    }
  }

  /** Unless some mood is literally the text `N/A`, the card shows `N/A` exactly when no entry has a mood. */
  lemma NoMoodIsNA(wellness: seq<Wellness>)
    requires forall i :: 0 <= i < |wellness| ==> wellness[i].mood != "N/A"
    ensures var moods := Moods(wellness);
      MostCommonOf(moods) == "N/A" <==>
      forall i :: 0 <= i < |wellness| ==> wellness[i].mood == ""
  {
    var moods := Moods(wellness);
    var keys := FirstOccurrences(moods);
    FirstOccurrencesFacts(moods);
    MoodCountsFacts(moods);
    if !forall i :: 0 <= i < |wellness| ==> wellness[i].mood == "" {
      var i :| 0 <= i < |wellness| && wellness[i].mood != "";
      assert moods[i] in keys;
    }
  }

  // ---------- summaries ----------

  datatype Summary = Summary(total: nat, todosCompleted: nat, mostCommonMood: string, weekly: seq<Wellness>)

  predicate TodoCompleted(w: Wellness) { w.todoCompleted }

  /** `wellness.slice(-7)`: the last seven entries, or all of them when there are fewer. */
  function LastSeven(wellness: seq<Wellness>): (r: seq<Wellness>)
    ensures |r| == if |wellness| < 7 then |wellness| else 7
    ensures r == wellness[|wellness| - |r|..]
  {
    if |wellness| < 7 then wellness else wellness[|wellness| - 7..]
  }

  /** `updateSummaries`, without the floating-point averages; None is the empty-state message. */
  function Summaries(wellness: seq<Wellness>): (r: Option<Summary>)
    ensures r.None? <==> wellness == []
    ensures r.Some? ==> r.value.total == |wellness| && r.value.todosCompleted <= |wellness|
    ensures r.Some? ==> r.value.weekly == LastSeven(wellness)
    ensures r.Some? ==> r.value.todosCompleted == |Filter(wellness, TodoCompleted)|
    ensures r.Some? ==> r.value.mostCommonMood == MostCommonOf(Moods(wellness))
  {
    if wellness == [] then None
    else
      var moods := Moods(wellness);
      Some(Summary(|wellness|, |Filter(wellness, TodoCompleted)|,
                   MostCommonOf(moods), LastSeven(wellness)))
  }

  // ---------- the chosen doctor's photo ----------

  /** The chat header's doctor photo: the last path segment after the prefix strips, placed under `/backend/uploads/profiles/`. */
  function DoctorPhotoPath(profilePhoto: string): (r: string)
    ensures profilePhoto == "" ==> r == "https://via.placeholder.com/60?text=Dr"
    ensures profilePhoto != "" ==>
      StartsWith(r, "/backend/uploads/profiles/") && '/' !in r[|"/backend/uploads/profiles/"|..]
  {
    if profilePhoto == "" then "https://via.placeholder.com/60?text=Dr"
    else
      var clean := StripPrefix(StripPrefix(StripPrefix(Slashes(profilePhoto), "backend/"), "uploads/"), "profiles/");
      var r := "/backend/uploads/profiles/" + LastSegment(clean);
      assert r[..26] == "/backend/uploads/profiles/";
      assert r[26..] == LastSegment(clean);
      r
  }

  /** The three prefix strips never change the result: only the last segment of the path is used. */
  lemma DoctorPhotoUsesLastSegment(profilePhoto: string)
    requires profilePhoto != ""
    ensures DoctorPhotoPath(profilePhoto) == "/backend/uploads/profiles/" + LastSegment(Slashes(profilePhoto))
  {
    var s0 := Slashes(profilePhoto);
    var s1 := StripPrefix(s0, "backend/");
    var s2 := StripPrefix(s1, "uploads/");
    var s3 := StripPrefix(s2, "profiles/");
    if StartsWith(s2, "profiles/") { LastSegmentAfterPrefix("profiles/", s3); }
    if StartsWith(s1, "uploads/") { LastSegmentAfterPrefix("uploads/", s2); }
    if StartsWith(s0, "backend/") { LastSegmentAfterPrefix("backend/", s1); }
  }

  /** A photo stored by the upload form is shown from the file the server wrote. */
  lemma StoredPhotoShown(f: Uploads.FilePart, now: nat, random: nat)
    requires f.fieldname == "profilePhoto"
    ensures DoctorPhotoPath(Uploads.StoredPath(f, now, random)) ==
      "/backend/uploads/profiles/" + Uploads.StoredName(now, random, f.originalname)
  {
    var p := Uploads.StoredPath(f, now, random);
    var name := Uploads.StoredName(now, random, f.originalname);
    var dest := Uploads.Destination(f);
    assert p == dest + name;
    assert dest[|dest| - 1] == '/';
    assert '\\' !in dest;
    SlashesNoOp(p);
    DoctorPhotoUsesLastSegment(p);
    LastSegmentAfterPrefix(dest, name);
    LastSegmentOfPlain(name);
  }

  // ---------- complaints ----------

  /** `allComplaints.filter(c => c.complainerId === user.id)`, shown in the order the server sent them. */
  function MyComplaints(all: seq<Complaint>, userId: string): (r: seq<Complaint>)
    ensures forall c :: c in r <==> c in all && c.complainerId == userId
    ensures Subsequence(r, all)
  {
    Select(all, ComplainerId, userId)
  }
}
