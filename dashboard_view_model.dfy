/** `DashboardViewModel`: the dashboard's state machine. Each list of
    diaries becomes a fresh `Content` holding the newest entries and a
    placeholder summary; a non-empty list then launches summary generation
    and streak calculation. Generation reuses a stored summary at most 7
    whole days old, and otherwise streams the text from the generator chunk
    by chunk and persists it when the stream completes. */
module Dashboard {
  import opened KotlinStd
  import opened Calendar
  import opened DiaryModel

  const DefaultSummaryText: string := "Generating weekly Summary..."
  const IntroText: string :=
    "In this panel, your weekly diary entries will be summarized.\nAdd your first entry to see how it works"
  const SummaryErrorText: string := "Error generating weekly summary"
  /** How many of the newest diaries the dashboard lists. */
  const LatestEntriesCount: nat := 4
  /** A stored summary this many whole days old or younger is reused. */
  const FreshSummaryDays: int := 7

  /** The writing streak, as the streak calculation reports it. */
  datatype Streak = Streak(count: int, dates: seq<LocalDate>)

  datatype DashboardScreenState =
    | Loading
    | Content(latestEntries: seq<Diary>, totalEntries: int, weeklySummary: Option<string>, streak: Streak)

  /** The state published for one list of diaries: the four newest,
      newest first, the total, the intro text when there are no diaries and
      the placeholder otherwise, and an empty streak. */
  function ContentFor(diaries: seq<Diary>): (r: DashboardScreenState)
    ensures r.Content?
    ensures r.latestEntries == Newest(diaries, LatestEntriesCount)
    ensures |r.latestEntries| == if |diaries| < 4 then |diaries| else 4
    ensures r.totalEntries == |diaries|
    ensures r.weeklySummary == Some(if diaries == [] then IntroText else DefaultSummaryText)
    ensures r.streak == Streak(0, [])
  {
    Content(
      Newest(diaries, LatestEntriesCount),
      |diaries|,
      Some(if diaries == [] then IntroText else DefaultSummaryText),
      Streak(0, []))
  }

  /** `updateContentState { it.copy(weeklySummary = summary) }`: only a
      `Content` state changes. */
  function WithSummary(state: DashboardScreenState, summary: Option<string>): (r: DashboardScreenState)
    ensures state.Content? ==>
      && r.Content? && r.weeklySummary == summary
      && r.latestEntries == state.latestEntries && r.totalEntries == state.totalEntries && r.streak == state.streak
    ensures !state.Content? ==> r == state
  {
    if state.Content? then state.(weeklySummary := summary) else state
  }

  /** The streak update: only a `Content` state changes. */
  function WithStreak(state: DashboardScreenState, streak: Streak): (r: DashboardScreenState)
    ensures state.Content? ==>
      && r.Content? && r.streak == streak
      && r.latestEntries == state.latestEntries && r.totalEntries == state.totalEntries
      && r.weeklySummary == state.weeklySummary
    ensures !state.Content? ==> r == state
  {
    if state.Content? then state.(streak := streak) else state
  }

  /** An age of at most 7 whole days, truncated as `Duration.inWholeDays`
      does, is an age below eight full days (a negative age included). */
  lemma WholeDaysAtMostSeven(age: int)
    ensures TruncDiv(age, MillisPerDay) <= FreshSummaryDays <==> age < 8 * MillisPerDay
  {
    if age >= 0 {
      assert TruncDiv(age, MillisPerDay) == age / MillisPerDay;
      if age < 8 * MillisPerDay {
        assert age / MillisPerDay < 8;
      } else {
        assert age / MillisPerDay >= 8;
      }
    }
  }

  /** A stored summary is reused when its age, truncated to whole days as
      `Duration.inWholeDays` does, is at most 7: when it is younger than
      eight full days (a summary dated in the future is fresh too). */
  function IsFresh(now: int, summaryDate: int): (reused: bool)
    ensures reused <==> now - summaryDate < 8 * MillisPerDay
  {
    WholeDaysAtMostSeven(now - summaryDate);
    TruncDiv(now - summaryDate, MillisPerDay) <= FreshSummaryDays
  }

  /** One chunk of generated text: it replaces the placeholder, and is
      appended to anything else. */
  function ApplyChunk(summary: Option<string>, chunk: string): (r: Option<string>)
    ensures r.Some?
    ensures summary == Some(DefaultSummaryText) ==> r == Some(chunk)
    ensures summary.Some? && summary != Some(DefaultSummaryText) ==> r == Some(summary.value + chunk)
  {
    if summary == Some(DefaultSummaryText) then Some(chunk)
    else Some(NullableConcat(summary, chunk))
  }

  /** The state after the given chunks were collected, in order. */
  function StreamChunks(state: DashboardScreenState, chunks: seq<string>): (r: DashboardScreenState)
    ensures r.Content? == state.Content?
    ensures !state.Content? ==> r == state
    ensures state.Content? ==>
      r.latestEntries == state.latestEntries && r.totalEntries == state.totalEntries && r.streak == state.streak
    ensures state.Content? && chunks != [] ==> r.weeklySummary.Some?
  {
    if chunks == [] then state
    else
      var before := StreamChunks(state, chunks[..|chunks| - 1]);
      if before.Content? then WithSummary(before, ApplyChunk(before.weeklySummary, chunks[|chunks| - 1]))
      else before
  }

  /** Streaming chunks into the placeholder yields their concatenation, as
      long as no proper prefix of the stream spells the placeholder itself. */
  lemma {:induction false} StreamedSummaryIsConcatenation(state: DashboardScreenState, chunks: seq<string>)
    requires state.Content? && state.weeklySummary == Some(DefaultSummaryText)
    requires forall k :: 1 <= k < |chunks| ==> Concat(chunks[..k]) != DefaultSummaryText
    ensures chunks == [] ==> StreamChunks(state, chunks) == state
    ensures chunks != [] ==> StreamChunks(state, chunks) == state.(weeklySummary := Some(Concat(chunks)))
  {
    if chunks != [] {
      var n := |chunks|;
      var front := chunks[..n - 1];
      if front == [] {
        assert chunks[..0] == [];
        assert Concat(chunks) == Concat(front) + chunks[0];
        assert "" + chunks[0] == chunks[0];
      } else {
        forall k | 1 <= k < |front|
          ensures Concat(front[..k]) != DefaultSummaryText
        {
          assert front[..k] == chunks[..k];
        }
        StreamedSummaryIsConcatenation(state, front);
        assert chunks[..n - 1] == front;
        assert Concat(front) != DefaultSummaryText;
      }
    }
  }

  /** The summary shown once the stream completes: the placeholder, still
      untouched, becomes the error text; anything else stays. */
  function CompletedState(state: DashboardScreenState): (r: DashboardScreenState)
    ensures state.Content? && state.weeklySummary == Some(DefaultSummaryText)
      ==> r == state.(weeklySummary := Some(SummaryErrorText))
    ensures !(state.Content? && state.weeklySummary == Some(DefaultSummaryText)) ==> r == state
    ensures r.Content? == state.Content?
  {
    if state.Content? && state.weeklySummary == Some(DefaultSummaryText)
    then WithSummary(state, Some(SummaryErrorText))
    else state
  }

  /** The summary text persisted once the stream completes: the text shown,
      unless it is still the placeholder or absent. */
  function PersistedOnCompletion(state: DashboardScreenState): (r: Option<string>)
    ensures r.Some? <==> state.Content? && state.weeklySummary.Some? && state.weeklySummary != Some(DefaultSummaryText)
    ensures r.Some? ==> state.weeklySummary == r
  {
    if state.Content? && state.weeklySummary.Some? && state.weeklySummary != Some(DefaultSummaryText)
    then state.weeklySummary
    else None
  }

  /** A whole generation from the placeholder: no chunk at all shows the
      error text and persists nothing; otherwise the concatenated chunks are
      shown and persisted. A generator that fails after some chunks is only
      logged, so it ends the same way with the chunks it produced. */
  lemma GenerationOutcome(state: DashboardScreenState, chunks: seq<string>)
    requires state.Content? && state.weeklySummary == Some(DefaultSummaryText)
    requires forall k :: 1 <= k < |chunks| ==> Concat(chunks[..k]) != DefaultSummaryText
    ensures chunks == [] ==>
      CompletedState(StreamChunks(state, chunks)).Content?
      && CompletedState(StreamChunks(state, chunks)).weeklySummary == Some(SummaryErrorText)
      && PersistedOnCompletion(StreamChunks(state, chunks)).None?
    ensures chunks != [] && Concat(chunks) != DefaultSummaryText ==>
      CompletedState(StreamChunks(state, chunks)).Content?
      && CompletedState(StreamChunks(state, chunks)).weeklySummary == Some(Concat(chunks))
      && PersistedOnCompletion(StreamChunks(state, chunks)) == Some(Concat(chunks))
  {
    StreamedSummaryIsConcatenation(state, chunks);
  }

  /** The lists, in order, for which the summary and streak jobs are
      launched: the non-empty ones. */
  function LaunchedFor(lists: seq<seq<Diary>>): (r: seq<seq<Diary>>)
  {
    if lists == [] then []
    else
      var last := lists[|lists| - 1];
      LaunchedFor(lists[..|lists| - 1]) + (if last != [] then [last] else [])
  }

  /** One more list launches the jobs exactly when it is non-empty. */
  lemma LaunchedForStep(lists: seq<seq<Diary>>, i: nat)
    requires i < |lists|
    ensures LaunchedFor(lists[..i + 1]) == LaunchedFor(lists[..i]) + (if lists[i] != [] then [lists[i]] else [])
  {
    assert lists[..i + 1][..i] == lists[..i];
  }

  function IsNonEmpty(diaries: seq<Diary>): bool {
    diaries != []
  }

  /** The lists that launch the jobs are the non-empty ones, each time it
      is published and in the order they were published. */
  lemma {:induction false} LaunchedForIsFilter(lists: seq<seq<Diary>>)
    ensures LaunchedFor(lists) == Filter(lists, IsNonEmpty)
  {
    if lists != [] {
      var front := lists[..|lists| - 1];
      var last := lists[|lists| - 1];
      LaunchedForIsFilter(front);
      assert lists == front + [last];
      FilterConcat(front, [last], IsNonEmpty);
      assert Filter([last], IsNonEmpty) == if last != [] then [last] else [];
    }
  }

  /** Exactly the non-empty lists launch the jobs, never more of them than
      there were lists. */
  lemma {:induction false} LaunchedForNonEmpty(lists: seq<seq<Diary>>)
    ensures forall l :: l in LaunchedFor(lists) <==> l in lists && l != []
    ensures |LaunchedFor(lists)| <= |lists|
  {
    if lists != [] {
      var front := lists[..|lists| - 1];
      LaunchedForNonEmpty(front);
      assert lists == front + [lists[|lists| - 1]];
    }
  }

  function OptionToSeq<T>(o: Option<T>): (r: seq<T>)
    ensures o.None? ==> r == []
    ensures o.Some? ==> r == [o.value]
  {
    if o.Some? then [o.value] else []
  }

  class DashboardViewModel {
    /** The current value of `mutableState`. */
    var state: DashboardScreenState
    /** The summaries handed to `addWeeklySummaryUseCase`, oldest first. */
    ghost var persisted: seq<string>

    constructor()
      ensures state == Loading && persisted == []
    {
      state := Loading;
      persisted := [];
    }

    /** The `collect` step of `loadDashboardContent`: publishes the content
        for the list and reports whether generation and streak calculation
        are launched for it (only for a non-empty list). */
    method OnDiaries(diaries: seq<Diary>) returns (launch: bool)
      modifies this`state
      ensures state == ContentFor(diaries)
      ensures launch <==> diaries != []
    {
      state := ContentFor(diaries);
      launch := diaries != [];
    }

    /** `loadDashboardContent`: each list of all diaries is published in
        turn; a failure of the stream puts the state back to `Loading`. The
        lists for which the two jobs are launched are returned in order. */
    method LoadDashboardContent(lists: seq<seq<Diary>>, failed: bool) returns (launched: seq<seq<Diary>>)
      modifies this`state
      ensures state == if failed then Loading
                       else if lists == [] then old(state)
                       else ContentFor(lists[|lists| - 1])
      ensures launched == LaunchedFor(lists)
    {
      launched := [];
      var i := 0;
      while i < |lists|
        invariant 0 <= i <= |lists|
        invariant state == if i == 0 then old(state) else ContentFor(lists[i - 1])
        invariant launched == LaunchedFor(lists[..i])
      {
        var launch := OnDiaries(lists[i]);
        LaunchedForStep(lists, i);
        if launch {
          launched := launched + [lists[i]];
        }
        i := i + 1;
      }
      assert lists[..|lists|] == lists;
      if failed {
        state := Loading;
      }
    }

    /** `generateWeeklySummary`: a fresh stored summary is shown and the
        generator is not called; otherwise the chunks are collected into the
        shown summary and the completion step runs. */
    method GenerateWeeklySummary(stored: Option<WeeklySummary>, now: int, chunks: seq<string>)
      returns (generatorCalled: bool)
      modifies this
      ensures generatorCalled <==> !(stored.Some? && IsFresh(now, stored.value.date))
      ensures !generatorCalled ==>
        state == WithSummary(old(state), Some(stored.value.summary)) && persisted == old(persisted)
      ensures generatorCalled ==>
        state == CompletedState(StreamChunks(old(state), chunks))
        && persisted == old(persisted) + OptionToSeq(PersistedOnCompletion(StreamChunks(old(state), chunks)))
    {
      if stored.Some? && IsFresh(now, stored.value.date) {
        state := WithSummary(state, Some(stored.value.summary));
        generatorCalled := false;
        return;
      }
      generatorCalled := true;
      var i := 0;
      while i < |chunks|
        invariant 0 <= i <= |chunks|
        invariant state == StreamChunks(old(state), chunks[..i])
        invariant persisted == old(persisted)
      {
        assert chunks[..i + 1][..i] == chunks[..i];
        if state.Content? {
          state := WithSummary(state, ApplyChunk(state.weeklySummary, chunks[i]));
        }
        i := i + 1;
      }
      assert chunks[..|chunks|] == chunks;
      var toPersist := PersistedOnCompletion(state);
      state := CompletedState(state);
      persisted := persisted + OptionToSeq(toPersist);
    }

    /** `calculateStreak`: the streak computed for the diaries is shown if
        the state is `Content`. */
    method CalculateStreak(streak: Streak)
      modifies this`state
      ensures state == WithStreak(old(state), streak)
    {
      state := WithStreak(state, streak);
    }
  }
}
