/** What the diary-list screen shows and the pure decisions its screen
    models share: the combined date-and-entry filter, the strict
    delete-count check and the favorite toggle. */
module DiaryListState {
  import opened KotlinStd
  import opened Calendar
  import opened DiaryModel
  import opened TestDataSourceModel

  /** `DiaryListScreenState`, which `DiaryListViewModel` knows as
      `DiaryListViewState`: loading, a list (marked when it is the result
      of a search), or the error that ended the stream. */
  datatype DiaryListScreenState =
    | Loading
    | Content(diaries: seq<Diary>, filtered: bool)
    | Error(error: Exception)

  /** The search the user has set up on the list: a text and an optional day. */
  datatype DiaryFilters = DiaryFilters(entry: string, date: Option<LocalDate>)

  /** `DiaryFilters()`: no text and no day. */
  const DefaultFilters: DiaryFilters := DiaryFilters("", None)

  /** The states published while collecting a flow of lists: one `Content`
      per list, in order. */
  function ContentStates(lists: seq<seq<Diary>>, filtered: bool): (r: seq<DiaryListScreenState>)
    ensures |r| == |lists|
    ensures forall k :: 0 <= k < |lists| ==> r[k].Content? && r[k].diaries == lists[k] && r[k].filtered == filtered
  {
    seq(|lists|, k requires 0 <= k < |lists| => Content(lists[k], filtered))
  }

  /** The entry part of `filterByDateAndEntry`: the date-matched diaries
      whose entry contains the text, comparing case (`contains(entry, false)`). */
  function CombinedFilter(diaries: seq<Diary>, entry: string): (r: seq<Diary>)
    ensures forall d :: d in r <==> d in diaries && Contains(d.entry, entry)
    ensures forall d :: multiset(r)[d] == if Contains(d.entry, entry) then multiset(diaries)[d] else 0
  {
    var matches := (d: Diary) => Contains(d.entry, entry);
    FilterMultiset(diaries, matches);
    Filter(diaries, matches)
  }

  /** The combined filter keeps the order of the date search's result. */
  lemma CombinedFilterKeepsOrder(a: seq<Diary>, b: seq<Diary>, entry: string)
    ensures CombinedFilter(a + b, entry) == CombinedFilter(a, entry) + CombinedFilter(b, entry)
  {
    FilterConcat(a, b, (d: Diary) => Contains(d.entry, entry));
  }

  /** The combined filter applied to every list a date search emits. */
  function CombinedFilterEach(lists: seq<seq<Diary>>, entry: string): (r: seq<seq<Diary>>)
    ensures |r| == |lists|
    ensures forall k :: 0 <= k < |lists| ==> r[k] == CombinedFilter(lists[k], entry)
  {
    seq(|lists|, k requires 0 <= k < |lists| => CombinedFilter(lists[k], entry))
  }

  /** An empty text keeps every diary of the date search. */
  lemma {:induction false} CombinedFilterEmptyEntry(diaries: seq<Diary>)
    ensures CombinedFilter(diaries, "") == diaries
  {
    var matches := (d: Diary) => Contains(d.entry, "");
    forall d | d in diaries
      ensures matches(d)
    {
      assert StartsWith(d.entry, "");
    }
    FilterAll(diaries, matches);
  }

  /** The combined filter compares case, unlike the store's own entry
      search: "A" does not match the text "a" here, but it does there. */
  lemma CombinedFilterIsCaseSensitive()
    ensures CombinedFilter([Diary(None, "A", 0, false)], "a") == []
    ensures MatchingEntry([Diary(None, "A", 0, false)], "a") == [Diary(None, "A", 0, false)]
  {
    var d := Diary(None, "A", 0, false);
    assert !Contains("", "a");
    assert !Contains("A", "a") by {
      assert "A"[1..] == "";
      assert !StartsWith("A", "a") by {
        assert "A"[..1] == "A" && "A"[0] != "a"[0];
      }
    }
    assert Lower("A") == "a" && Lower("a") == "a";
    assert Contains("a", "a") by {
      assert StartsWith("a", "a");
    }
    assert ContainsIgnoreCase(d.entry, "a");
  }

  /** `deleteDiaries`: the deletion counts as done only when the store
      reports exactly as many affected rows as diaries were passed. */
  function DeleteSucceeded(diaries: seq<Diary>, affectedRows: int): (ok: bool)
    ensures ok <==> affectedRows == |diaries|
  {
    affectedRows == |diaries|
  }

  /** Against the in-memory store the strict check is satisfied whenever
      anything of the batch was stored, because the store reports the size
      of the batch and not the number of records it removed. */
  lemma StrictDeleteAgainstStore(stored: seq<Diary>, batch: seq<Diary>)
    ensures DeleteSucceeded(batch, DeleteManyCount(stored, batch))
        <==> batch == [] || exists d :: d in stored && d in batch
  {
  }

  /** A batch of one stored and one stale diary removes one record and is
      still reported as fully deleted. */
  lemma PartlyStaleBatchReportsSuccess(kept: Diary, stale: Diary)
    requires kept != stale
    ensures RemoveAll([kept], [kept, stale]) == []
    ensures DeleteSucceeded([kept, stale], DeleteManyCount([kept], [kept, stale]))
  {
    assert kept in [kept] && kept in [kept, stale];
    var r := RemoveAll([kept], [kept, stale]);
    assert |r| <= 1 && kept !in r;
  }

  /** `toggleFavorite`: the copy sent to the store, with the favorite flag
      negated and every other field as it was. */
  function ToggledCopy(diary: Diary): (r: Diary)
    ensures r.isFavorite == !diary.isFavorite
    ensures r.id == diary.id && r.entry == diary.entry && r.date == diary.date
  {
    diary.(isFavorite := !diary.isFavorite)
  }

  /** Toggling twice restores the diary. */
  lemma ToggleTwice(diary: Diary)
    ensures ToggledCopy(ToggledCopy(diary)) == diary
  {
  }

  /** Sending the toggled copy of the first stored diary with its id to the
      store flips that record's flag and nothing else, and reports one
      updated record. */
  lemma ToggleUpdatesStoredRecord(stored: seq<Diary>, i: nat)
    requires i < |stored|
    requires forall k :: 0 <= k < i ==> stored[k].id != stored[i].id
    ensures UpdateCount(stored, ToggledCopy(stored[i])) == 1
    ensures UpdateById(stored, ToggledCopy(stored[i])) == stored[i := ToggledCopy(stored[i])]
  {
    var t := IndexOfId(stored, stored[i].id);
    assert t == i;
    var r := UpdateById(stored, ToggledCopy(stored[i]));
    assert |r| == |stored[i := ToggledCopy(stored[i])]|;
    forall k | 0 <= k < |r|
      ensures r[k] == stored[i := ToggledCopy(stored[i])][k]
    {
    }
  }
}
