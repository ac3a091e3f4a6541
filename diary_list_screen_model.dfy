/** `DiaryListScreenModel` (model package): the middle generation of the
    diary-list screen model. It starts observing all diaries as soon as it
    is built and never publishes `Error`. */
module ListScreenModel {
  import opened DiaryModel
  import opened DiaryListState

  class DiaryListScreenModel {
    /** The current value of `mutableState`. */
    var state: DiaryListScreenState
    /** Every value `mutableState` has been set to, oldest first. */
    ghost var updates: seq<DiaryListScreenState>

    /** Starts in `Loading`, and `init` at once collects the lists of all
        diaries emitted so far. */
    constructor(initial: seq<seq<Diary>>)
      ensures updates == ContentStates(initial, false)
      ensures state == if initial == [] then Loading else Content(initial[|initial| - 1], false)
    {
      state := Loading;
      updates := [];
      new;
      ObserveDiaries(initial);
    }

    /** `mutableState.update { next }`. */
    method SetState(next: DiaryListScreenState)
      modifies this
      ensures state == next && updates == old(updates) + [next]
    {
      state := next;
      updates := updates + [next];
    }

    /** `collect`: every emitted list becomes `Content` with the given flag. */
    method CollectContent(lists: seq<seq<Diary>>, filtered: bool)
      modifies this
      ensures updates == old(updates) + ContentStates(lists, filtered)
      ensures state == if lists == [] then old(state) else Content(lists[|lists| - 1], filtered)
    {
      var i := 0;
      while i < |lists|
        invariant 0 <= i <= |lists|
        invariant updates == old(updates) + ContentStates(lists[..i], filtered)
        invariant state == if i == 0 then old(state) else Content(lists[i - 1], filtered)
      {
        SetState(Content(lists[i], filtered));
        assert ContentStates(lists[..i + 1], filtered) == ContentStates(lists[..i], filtered) + [Content(lists[i], filtered)];
        i := i + 1;
      }
      assert lists[..|lists|] == lists;
    }

    /** `observeDiaries`: one unfiltered `Content` per list of all diaries,
        with no `Loading` first and no catch. */
    method ObserveDiaries(lists: seq<seq<Diary>>)
      modifies this
      ensures updates == old(updates) + ContentStates(lists, false)
      ensures state == if lists == [] then old(state) else Content(lists[|lists| - 1], false)
    {
      CollectContent(lists, false);
    }

    /** `filterByEntry`: the entry search's lists, unchanged, as filtered `Content`. */
    method FilterByEntry(results: seq<seq<Diary>>)
      modifies this
      ensures updates == old(updates) + ContentStates(results, true)
      ensures state == if results == [] then old(state) else Content(results[|results| - 1], true)
    {
      CollectContent(results, true);
    }

    /** `filterByDate`: the date search's lists, unchanged, as filtered `Content`. */
    method FilterByDate(results: seq<seq<Diary>>)
      modifies this
      ensures updates == old(updates) + ContentStates(results, true)
      ensures state == if results == [] then old(state) else Content(results[|results| - 1], true)
    {
      CollectContent(results, true);
    }

    /** `filterByDateAndEntry`: the date search's lists narrowed to the
        diaries whose entry contains the text (comparing case). */
    method FilterByDateAndEntry(results: seq<seq<Diary>>, entry: string)
      modifies this
      ensures updates == old(updates) + ContentStates(CombinedFilterEach(results, entry), true)
      ensures state == if results == [] then old(state) else Content(CombinedFilter(results[|results| - 1], entry), true)
    {
      CollectContent(CombinedFilterEach(results, entry), true);
    }
  }
}
