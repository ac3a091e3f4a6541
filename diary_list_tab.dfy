/** `DiaryListTab`: which search runs for the filters the user has set, and
    the oldest generation of the diary-list screen model, whose `Content`
    has no `filtered` flag. */
module ListTab {
  import opened KotlinStd
  import opened Calendar
  import opened DiaryModel
  import opened DiaryListState

  /** The screen-model call the filter effect makes. */
  datatype SearchAction =
    | FilterByEntry(entry: string)
    | FilterByDate(date: LocalDate)
    | FilterByDateAndEntry(date: LocalDate, entry: string)
    | ObserveDiaries

  /** The effect keyed on the filters: the first of the three filtered
      cases that applies, and unfiltered observation when none does. The
      four cases are disjoint and cover every filter value. */
  function Dispatch(filters: DiaryFilters): (action: SearchAction)
    ensures action == FilterByEntry(filters.entry) <==> filters.entry != [] && filters.date.None?
    ensures (exists day :: action == FilterByDate(day)) <==> filters.date.Some? && filters.entry == []
    ensures (exists day, entry :: action == FilterByDateAndEntry(day, entry)) <==> filters.date.Some? && filters.entry != []
    ensures action == ObserveDiaries <==> filters.entry == [] && filters.date.None?
    ensures action.FilterByDate? || action.FilterByDateAndEntry? ==> filters.date == Some(action.date)
    ensures action.FilterByDateAndEntry? ==> action.entry == filters.entry
  {
    if filters.entry != [] && filters.date.None? then FilterByEntry(filters.entry)
    else if filters.date.Some? && filters.entry == [] then FilterByDate(filters.date.value)
    else if filters.date.Some? && filters.entry != [] then FilterByDateAndEntry(filters.date.value, filters.entry)
    else ObserveDiaries
  }

  /** The filters the tab starts with run unfiltered observation. */
  lemma DefaultFiltersObserveAll()
    ensures Dispatch(DefaultFilters) == ObserveDiaries
  {
  }

  /** The tab's `diaryFilters` and the effect keyed on it. */
  class DiaryListTab {
    var diaryFilters: DiaryFilters
    /** Every search the effect has launched, oldest first. */
    ghost var launched: seq<SearchAction>

    /** The filters start as `DiaryFilters()`, and the first composition
        launches the effect for them. */
    constructor()
      ensures diaryFilters == DefaultFilters
      ensures launched == [Dispatch(DefaultFilters)]
    {
      diaryFilters := DefaultFilters;
      launched := [Dispatch(DefaultFilters)];
    }

    /** `onApplyFilters`: the new filters replace the old ones whole; the
        effect runs again only when the key changed. */
    method ApplyFilters(filters: DiaryFilters) returns (action: Option<SearchAction>)
      modifies this
      ensures diaryFilters == filters
      ensures action == if filters != old(diaryFilters) then Some(Dispatch(filters)) else None
      ensures launched == old(launched) + (if action.Some? then [action.value] else [])
    {
      if filters != diaryFilters {
        action := Some(Dispatch(filters));
        launched := launched + [action.value];
      } else {
        action := None;
      }
      diaryFilters := filters;
    }
  }

  /** The oldest screen model's state: loading, or the list to show. */
  datatype LegacyListState = LegacyLoading | LegacyContent(diaries: seq<Diary>)

  /** The states published while collecting a flow of lists. */
  function LegacyContentStates(lists: seq<seq<Diary>>): (r: seq<LegacyListState>)
    ensures |r| == |lists|
    ensures forall k :: 0 <= k < |lists| ==> r[k] == LegacyContent(lists[k])
  {
    seq(|lists|, k requires 0 <= k < |lists| => LegacyContent(lists[k]))
  }

  /** `DiaryListScreenModel` as declared beside the tab. */
  class LegacyDiaryListScreenModel {
    var state: LegacyListState
    ghost var updates: seq<LegacyListState>

    /** Starts in `Loading`, and `init` at once collects all diaries. */
    constructor(initial: seq<seq<Diary>>)
      ensures updates == LegacyContentStates(initial)
      ensures state == if initial == [] then LegacyLoading else LegacyContent(initial[|initial| - 1])
    {
      state := LegacyLoading;
      updates := [];
      new;
      ObserveDiaries(initial);
    }

    /** `collect`: every emitted list becomes `Content`. */
    method CollectContent(lists: seq<seq<Diary>>)
      modifies this
      ensures updates == old(updates) + LegacyContentStates(lists)
      ensures state == if lists == [] then old(state) else LegacyContent(lists[|lists| - 1])
    {
      var i := 0;
      while i < |lists|
        invariant 0 <= i <= |lists|
        invariant updates == old(updates) + LegacyContentStates(lists[..i])
        invariant state == if i == 0 then old(state) else LegacyContent(lists[i - 1])
      {
        state := LegacyContent(lists[i]);
        updates := updates + [state];
        assert LegacyContentStates(lists[..i + 1]) == LegacyContentStates(lists[..i]) + [LegacyContent(lists[i])];
        i := i + 1;
      }
      assert lists[..|lists|] == lists;
    }

    /** `observeDiaries`: each list of all diaries as `Content`. */
    method ObserveDiaries(lists: seq<seq<Diary>>)
      modifies this
      ensures updates == old(updates) + LegacyContentStates(lists)
      ensures state == if lists == [] then old(state) else LegacyContent(lists[|lists| - 1])
    {
      CollectContent(lists);
    }

    /** `filterByEntry`: the entry search's lists, unchanged. */
    method FilterByEntry(results: seq<seq<Diary>>)
      modifies this
      ensures updates == old(updates) + LegacyContentStates(results)
      ensures state == if results == [] then old(state) else LegacyContent(results[|results| - 1])
    {
      CollectContent(results);
    }

    /** `filterByDate`: the date search's lists, unchanged. */
    method FilterByDate(results: seq<seq<Diary>>)
      modifies this
      ensures updates == old(updates) + LegacyContentStates(results)
      ensures state == if results == [] then old(state) else LegacyContent(results[|results| - 1])
    {
      CollectContent(results);
    }

    /** `filterByDateAndEntry`: the date search's lists narrowed to the
        diaries whose entry contains the text (comparing case). */
    method FilterByDateAndEntry(results: seq<seq<Diary>>, entry: string)
      modifies this
      ensures updates == old(updates) + LegacyContentStates(CombinedFilterEach(results, entry))
      ensures state == if results == [] then old(state) else LegacyContent(CombinedFilter(results[|results| - 1], entry))
    {
      CollectContent(CombinedFilterEach(results, entry));
    }
  }
}
