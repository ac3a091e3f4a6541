/** `DashboardScreenModel` (DashboardScreen.kt): the older dashboard. Its
    `Content` holds the two newest entries, a summary that generated text
    is appended to, and a streak computed on the spot: the diaries sorted
    by date, cut into adjacent pairs, the pairs whose dates are one day
    apart kept and flattened into one list. */
module LegacyDashboard {
  import opened KotlinStd
  import opened Calendar
  import opened DiaryModel
  import Dashboard

  const PlaceholderText: string := "Generating weekly summary..."
  const IntroText: string :=
    "In this panel, your weekly diary entries will be summarized." + "\nAdd your first entry to see how it works"
  /** How many of the newest diaries this dashboard lists. */
  const LatestEntriesCount: nat := 2
  /** The streak dates shown before a streak has been computed. */
  const NoStreakDates: string := "-"
  const StreakDatesSeparator: string := " - "

  datatype DashboardScreenState =
    | Loading
    | Content(latestEntries: seq<Diary>, totalEntries: int, weeklySummary: Option<string>,
              streak: int, streakDates: string)

  /** The state published for one list of diaries. */
  function ContentFor(diaries: seq<Diary>): (r: DashboardScreenState)
    ensures r.Content?
    ensures r.latestEntries == Newest(diaries, LatestEntriesCount)
    ensures |r.latestEntries| == if |diaries| < 2 then |diaries| else 2
    ensures r.totalEntries == |diaries|
    ensures r.weeklySummary == Some(if diaries == [] then IntroText else PlaceholderText)
    ensures r.streak == 0 && r.streakDates == NoStreakDates
  {
    Content(
      Newest(diaries, LatestEntriesCount),
      |diaries|,
      Some(if diaries == [] then IntroText else PlaceholderText),
      0,
      NoStreakDates)
  }

  // ---------------------------------------------------------------------
  // The streak

  /** The sort key of `sortedBy { it.date }`. */
  function AscendingDate(d: Diary): int {
    d.date
  }

  /** `sortedBy { it.date }`: oldest first, ties in stored order. */
  function OldestFirst(diaries: seq<Diary>): (r: seq<Diary>)
    ensures multiset(r) == multiset(diaries)
    ensures forall i, j :: 0 <= i < j < |r| ==> r[i].date <= r[j].date
  {
    var r := SortBy(diaries, AscendingDate);
    assert forall i, j :: 0 <= i < j < |r| ==> AscendingDate(r[i]) <= AscendingDate(r[j]);
    r
  }

  /** One element of `windowed(size = 2, step = 1)`. */
  datatype Window = Window(first: Diary, second: Diary)

  /** `windowed(size = 2, step = 1)`: every pair of neighbours, in order. */
  function Windowed(s: seq<Diary>): (r: seq<Window>)
    ensures |r| == if |s| < 2 then 0 else |s| - 1
    ensures forall i :: 0 <= i < |r| ==> r[i] == Window(s[i], s[i + 1])
  {
    if |s| < 2 then [] else seq(|s| - 1, i requires 0 <= i < |s| - 1 => Window(s[i], s[i + 1]))
  }

  /** The filter of the streak: the second date minus the first has a
      `days` component of 1. Only that component is read, so whole months
      between the dates do not matter. A diary followed by one on the next
      calendar day, at the end of a month or a year too, forms a pair; two
      diaries on the same day never do. */
  function IsStreakPair(w: Window): (pair: bool)
    ensures ValidDate(ToDate(w.first.date)) && ToDate(w.second.date) == NextDay(ToDate(w.first.date)) ==> pair
    ensures ValidDate(ToDate(w.first.date)) && ToDate(w.second.date) == ToDate(w.first.date) ==> !pair
  {
    var a := ToDate(w.first.date);
    if ValidDate(a) then
      NextDayPeriod(a);
      SamePeriodIsZero(a);
      PeriodUntil(a, ToDate(w.second.date)).days == 1
    else
      PeriodUntil(a, ToDate(w.second.date)).days == 1
  }

  /** `flatten` on pairs: both diaries of every window, in order. */
  function Flatten(ws: seq<Window>): (r: seq<Diary>)
    ensures |r| == 2 * |ws|
    ensures forall i :: 0 <= i < |r| ==> r[i] == if i % 2 == 0 then ws[i / 2].first else ws[i / 2].second
  {
    if ws == [] then [] else [ws[0].first, ws[0].second] + Flatten(ws[1..])
  }

  /** Flattening windows that all pass a filter puts each of them back
      together from positions 2i and 2i + 1. */
  lemma FlattenKeepsPairs(ws: seq<Window>, p: Window -> bool)
    requires forall k :: 0 <= k < |ws| ==> p(ws[k])
    ensures forall i :: 0 <= i && 2 * i + 1 < |Flatten(ws)| ==>
      p(Window(Flatten(ws)[2 * i], Flatten(ws)[2 * i + 1]))
  {
    var r := Flatten(ws);
    forall i | 0 <= i && 2 * i + 1 < |r|
      ensures p(Window(r[2 * i], r[2 * i + 1]))
    {
      assert (2 * i) % 2 == 0 && (2 * i) / 2 == i;
      assert (2 * i + 1) % 2 == 1 && (2 * i + 1) / 2 == i;
      assert Window(r[2 * i], r[2 * i + 1]) == ws[i];
    }
  }

  /** Flattening windows of a list lists only diaries of that list. */
  lemma FlattenWindowsMembers(s: seq<Diary>, ws: seq<Window>)
    requires forall w :: w in ws ==> w in Windowed(s)
    ensures forall d :: d in Flatten(ws) ==> d in s
  {
    var r := Flatten(ws);
    forall d | d in r
      ensures d in s
    {
      var k :| 0 <= k < |r| && r[k] == d;
      assert ws[k / 2] in ws;
      var j :| 0 <= j < |Windowed(s)| && Windowed(s)[j] == ws[k / 2];
      assert d == s[j] || d == s[j + 1];
    }
  }

  /** A list of pairs flattens to an even number of elements. */
  lemma FlattenIsEven(ws: seq<Window>)
    ensures |Flatten(ws)| % 2 == 0
  {
    assert |Flatten(ws)| == 2 * |ws|;
  }

  /** Sorting keeps the members of a list. */
  lemma OldestFirstMembers(diaries: seq<Diary>)
    ensures forall d :: d in OldestFirst(diaries) ==> d in diaries
  {
    assert forall d :: d in OldestFirst(diaries) ==> d in multiset(diaries);
  }

  /** The diaries that make up the streak: an even number of them, each
      pair at positions 2i and 2i + 1 a streak pair of the given diaries. */
  function StreakDiaries(diaries: seq<Diary>): (r: seq<Diary>)
    ensures |r| % 2 == 0
    ensures forall i :: 0 <= i && 2 * i + 1 < |r| ==> IsStreakPair(Window(r[2 * i], r[2 * i + 1]))
    ensures forall d :: d in r ==> d in diaries
  {
    var sorted := OldestFirst(diaries);
    var kept := Filter(Windowed(sorted), IsStreakPair);
    assert forall k :: 0 <= k < |kept| ==> kept[k] in kept;
    FlattenKeepsPairs(kept, IsStreakPair);
    FlattenWindowsMembers(sorted, kept);
    FlattenIsEven(kept);
    OldestFirstMembers(diaries);
    Flatten(kept)
  }

  /** The streak counts two diaries for every adjacent pair one day apart,
      so each inner date of a run is counted twice. */
  lemma StreakIsTwicePairs(diaries: seq<Diary>)
    ensures |StreakDiaries(diaries)| == 2 * |Filter(Windowed(OldestFirst(diaries)), IsStreakPair)|
    ensures |StreakDiaries(diaries)| <= 2 * (|diaries| - 1) || |diaries| < 2
  {
  }

  /** No diary, or a single one, has no streak. */
  lemma NoStreakBelowTwoDiaries(diaries: seq<Diary>)
    requires |diaries| < 2
    ensures StreakDiaries(diaries) == []
  {
    assert |OldestFirst(diaries)| == |diaries|;
  }

  /** n diaries dated on n consecutive calendar days (month and year ends
      included) make a streak of 2(n - 1). */
  lemma ConsecutiveDaysStreak(diaries: seq<Diary>)
    requires |diaries| >= 1
    requires forall i :: 0 <= i < |diaries| - 1 ==>
      ValidDate(ToDate(OldestFirst(diaries)[i].date))
      && ToDate(OldestFirst(diaries)[i + 1].date) == NextDay(ToDate(OldestFirst(diaries)[i].date))
    ensures |StreakDiaries(diaries)| == 2 * (|diaries| - 1)
  {
    var sorted := OldestFirst(diaries);
    assert |sorted| == |diaries|;
    var ws := Windowed(sorted);
    forall w | w in ws
      ensures IsStreakPair(w)
    {
      var i :| 0 <= i < |ws| && ws[i] == w;
      assert w == Window(sorted[i], sorted[i + 1]);
    }
    FilterAll(ws, IsStreakPair);
  }

  /** The diaries of a window are in date order, and each window ends no
      later than any later window starts. */
  predicate WindowBefore(a: Window, b: Window) {
    a.first.date <= a.second.date && a.second.date <= b.first.date && b.first.date <= b.second.date
  }

  /** The windows of a date-sorted list are chained in date order. */
  lemma WindowsOfSortedAreChained(sorted: seq<Diary>)
    requires forall i, j :: 0 <= i < j < |sorted| ==> sorted[i].date <= sorted[j].date
    ensures forall i, j :: 0 <= i < j < |Windowed(sorted)| ==> WindowBefore(Windowed(sorted)[i], Windowed(sorted)[j])
    ensures forall i :: 0 <= i < |Windowed(sorted)| ==> Windowed(sorted)[i].first.date <= Windowed(sorted)[i].second.date
  {
  }

  /** Flattening chained windows lists their diaries in date order. */
  lemma FlattenInDateOrder(ws: seq<Window>)
    requires forall i :: 0 <= i < |ws| ==> ws[i].first.date <= ws[i].second.date
    requires forall i, j :: 0 <= i < j < |ws| ==> WindowBefore(ws[i], ws[j])
    ensures forall i, j :: 0 <= i < j < |Flatten(ws)| ==> Flatten(ws)[i].date <= Flatten(ws)[j].date
  {
    var r := Flatten(ws);
    forall i, j | 0 <= i < j < |r|
      ensures r[i].date <= r[j].date
    {
      var a, b := i / 2, j / 2;
      if a < b {
        assert WindowBefore(ws[a], ws[b]);
      }
    }
  }

  /** The streak lists its diaries in nondecreasing date order. */
  lemma StreakInDateOrder(diaries: seq<Diary>)
    ensures forall i, j :: 0 <= i < j < |StreakDiaries(diaries)| ==>
      StreakDiaries(diaries)[i].date <= StreakDiaries(diaries)[j].date
  {
    var ws := Windowed(OldestFirst(diaries));
    var kept := Filter(ws, IsStreakPair);
    WindowsOfSortedAreChained(OldestFirst(diaries));
    FilterKeepsOrder(ws, IsStreakPair, WindowBefore);
    forall i | 0 <= i < |kept|
      ensures kept[i].first.date <= kept[i].second.date
    {
      assert kept[i] in ws;
    }
    FlattenInDateOrder(kept);
  }

  /** Diaries dated 31 January and 1 March 2023 (UTC midnight) form a
      streak pair: the period between them is one month and one day. */
  lemma MonthAndDayApartIsStreakPair(first: Diary, second: Diary)
    requires first.date == 19388 * MillisPerDay && second.date == 19417 * MillisPerDay
    ensures IsStreakPair(Window(first, second))
  {
    assert EpochDay(first.date) == 19388;
    assert EpochDay(second.date) == 19417;
    CivilDayJan31();
    CivilDayMar1();
    MonthAndDayPeriod();
  }

  /** `joinToString(" - ") { it.date.toDate().format("MMM dd") }` with the
      date formatter given as `format`. */
  function StreakDatesText(streak: seq<Diary>, format: LocalDate -> string): (r: string)
    ensures streak == [] ==> r == ""
    ensures |streak| == 1 ==> r == format(ToDate(streak[0].date))
  {
    Join(seq(|streak|, i requires 0 <= i < |streak| => format(ToDate(streak[i].date))), StreakDatesSeparator)
  }

  // ---------------------------------------------------------------------
  // The summary

  /** The chunks of generated text appended, in order, to the summary
      (`weeklySummary + it`, where an absent summary reads as "null"). */
  function AppendChunks(summary: Option<string>, chunks: seq<string>): (r: Option<string>)
    ensures chunks == [] ==> r == summary
    ensures chunks != [] ==> r.Some? && |r.value| >= |chunks[|chunks| - 1]|
  {
    if chunks == [] then summary
    else Some(NullableConcat(AppendChunks(summary, chunks[..|chunks| - 1]), chunks[|chunks| - 1]))
  }

  /** Appending never replaces the text already there, the placeholder
      included; an absent summary is continued from "null". */
  lemma {:induction false} AppendChunksKeepsText(summary: Option<string>, chunks: seq<string>)
    requires chunks != []
    ensures AppendChunks(summary, chunks)
         == Some((if summary.Some? then summary.value else "null") + Concat(chunks))
  {
    var n := |chunks|;
    var front := chunks[..n - 1];
    var start := if summary.Some? then summary.value else "null";
    if front == [] {
      assert AppendChunks(summary, front) == summary;
      assert Concat(chunks) == Concat(front) + chunks[n - 1];
      assert Concat(front) == "";
      assert Concat(chunks) == chunks[0];
    } else {
      AppendChunksKeepsText(summary, front);
      assert chunks[..n - 1] == front;
      assert start + Concat(front) + chunks[n - 1] == start + (Concat(front) + chunks[n - 1]);
    }
  }

  /** The state after the chunks were collected into it. */
  function WithChunks(state: DashboardScreenState, chunks: seq<string>): (r: DashboardScreenState)
    ensures !state.Content? ==> r == state
    ensures state.Content? ==> r == state.(weeklySummary := AppendChunks(state.weeklySummary, chunks))
  {
    if state.Content? then state.(weeklySummary := AppendChunks(state.weeklySummary, chunks)) else state
  }

  class DashboardScreenModel {
    /** The current value of `mutableState`. */
    var state: DashboardScreenState

    constructor()
      ensures state == Loading
    {
      state := Loading;
    }

    /** The `collect` step of `loadDashboardContent`: whether the two jobs
        are launched (only for a non-empty list), then the content. */
    method OnDiaries(diaries: seq<Diary>) returns (launch: bool)
      modifies this`state
      ensures launch <==> diaries != []
      ensures state == ContentFor(diaries)
    {
      launch := diaries != [];
      state := ContentFor(diaries);
    }

    /** `loadDashboardContent`: each list of all diaries is published in
        turn; there is no catch. The lists for which the two jobs are
        launched are returned in order. */
    method LoadDashboardContent(lists: seq<seq<Diary>>) returns (launched: seq<seq<Diary>>)
      modifies this`state
      ensures state == if lists == [] then old(state) else ContentFor(lists[|lists| - 1])
      ensures launched == Dashboard.LaunchedFor(lists)
    {
      launched := [];
      var i := 0;
      while i < |lists|
        invariant 0 <= i <= |lists|
        invariant state == if i == 0 then old(state) else ContentFor(lists[i - 1])
        invariant launched == Dashboard.LaunchedFor(lists[..i])
      {
        var launch := OnDiaries(lists[i]);
        Dashboard.LaunchedForStep(lists, i);
        if launch {
          launched := launched + [lists[i]];
        }
        i := i + 1;
      }
      assert lists[..|lists|] == lists;
    }

    /** `generateWeeklySummary`: every chunk is appended to the shown
        summary; if the generator fails, the summary becomes absent. */
    method GenerateWeeklySummary(chunks: seq<string>, failed: bool)
      modifies this
      ensures !failed ==> state == WithChunks(old(state), chunks)
      ensures failed && old(state).Content? ==> state == old(state).(weeklySummary := None)
      ensures !old(state).Content? ==> state == old(state)
    {
      var i := 0;
      while i < |chunks|
        invariant 0 <= i <= |chunks|
        invariant state == WithChunks(old(state), chunks[..i])
      {
        assert chunks[..i + 1][..i] == chunks[..i];
        if state.Content? {
          state := state.(weeklySummary := Some(NullableConcat(state.weeklySummary, chunks[i])));
        }
        i := i + 1;
      }
      assert chunks[..|chunks|] == chunks;
      if failed && state.Content? {
        state := state.(weeklySummary := None);
      }
    }

    /** `calculateStreak`: the number of streak diaries and their dates,
        shown if the state is `Content`. */
    method CalculateStreak(diaries: seq<Diary>, format: LocalDate -> string)
      modifies this
      ensures old(state).Content? ==>
        state == old(state).(streak := |StreakDiaries(diaries)|,
                             streakDates := StreakDatesText(StreakDiaries(diaries), format))
      ensures !old(state).Content? ==> state == old(state)
    {
      var streak := StreakDiaries(diaries);
      if state.Content? {
        state := state.(streak := |streak|, streakDates := StreakDatesText(streak, format));
      }
    }
  }
}
