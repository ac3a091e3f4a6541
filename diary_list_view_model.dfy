/** `DiaryListViewModel`: the newest generation of the diary-list screen
    model. Each launched collection is one call that walks the lists the
    flow emits, in order, and overwrites the state once per list. */
module ListViewModel {
  import opened KotlinStd
  import opened DiaryModel
  import opened DiaryListState

  class DiaryListViewModel {
    /** The current value of `mutableState`. */
    var state: DiaryListScreenState
    /** Every value `mutableState` has been set to, oldest first. */
    ghost var updates: seq<DiaryListScreenState>

    /** The state starts as `Loading`; nothing is observed until asked. */
    constructor()
      ensures state == Loading && updates == []
    {
      state := Loading;
      updates := [];
    }

    /** `mutableState.update { next }`. */
    method SetState(next: DiaryListScreenState)
      modifies this
      ensures state == next && updates == old(updates) + [next]
    {
      state := next;
      updates := updates + [next];
    }

    /** `collect`: every emitted list becomes `Content` with the given flag. */
    method CollectContent(lists: seq<seq<Diary>>, filtered: bool)
      modifies this
      ensures updates == old(updates) + ContentStates(lists, filtered)
      ensures state == if lists == [] then old(state) else Content(lists[|lists| - 1], filtered)
    {
      var i := 0;
      while i < |lists|
        invariant 0 <= i <= |lists|
        invariant updates == old(updates) + ContentStates(lists[..i], filtered)
        invariant state == if i == 0 then old(state) else Content(lists[i - 1], filtered)
      {
        SetState(Content(lists[i], filtered));
        assert ContentStates(lists[..i + 1], filtered) == ContentStates(lists[..i], filtered) + [Content(lists[i], filtered)];
        i := i + 1;
      }
      assert lists[..|lists|] == lists;
    }

    /** `observeDiaries`: `Loading` first, then one unfiltered `Content` per
        list of all diaries; a failure of the stream ends it with `Error`. */
    method ObserveDiaries(lists: seq<seq<Diary>>, failure: Option<Exception>)
      modifies this
      ensures updates == old(updates) + [Loading] + ContentStates(lists, false)
                         + (if failure.Some? then [Error(failure.value)] else [])
      ensures state == if failure.Some? then Error(failure.value)
                       else if lists == [] then Loading
                       else Content(lists[|lists| - 1], false)
    {
      SetState(Loading);
      CollectContent(lists, false);
      if failure.Some? {
        SetState(Error(failure.value));
      }
    }

    /** `filterByEntry`: each list the entry search emits, unchanged, as
        filtered `Content`. */
    method FilterByEntry(results: seq<seq<Diary>>)
      modifies this
      ensures updates == old(updates) + ContentStates(results, true)
      ensures state == if results == [] then old(state) else Content(results[|results| - 1], true)
    {
      CollectContent(results, true);
    }

    /** `filterByDate`: each list the date search emits, unchanged, as
        filtered `Content`. */
    method FilterByDate(results: seq<seq<Diary>>)
      modifies this
      ensures updates == old(updates) + ContentStates(results, true)
      ensures state == if results == [] then old(state) else Content(results[|results| - 1], true)
    {
      CollectContent(results, true);
    }

    /** `filterByDateAndEntry`: each list the date search emits, narrowed to
        the diaries whose entry contains the text (comparing case). */
    method FilterByDateAndEntry(results: seq<seq<Diary>>, entry: string)
      modifies this
      ensures updates == old(updates) + ContentStates(CombinedFilterEach(results, entry), true)
      ensures state == if results == [] then old(state) else Content(CombinedFilter(results[|results| - 1], entry), true)
    {
      CollectContent(CombinedFilterEach(results, entry), true);
    }
  }
}
