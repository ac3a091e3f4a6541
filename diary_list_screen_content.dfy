/** The selection rules of the diary list (`DiaryListContent` in
    DiaryListScreenContent.kt): which diaries are selected, group
    selection, the delete confirmation, and whether the list or the empty
    placeholder is shown. Diary ids are the selection's elements; a diary
    without an id can never be selected. */
module ListScreenContent {
  import opened KotlinStd
  import opened DiaryModel
  import opened DiaryListState

  /** `Set<Long>.addOrRemove`: no id leaves the set alone; otherwise the id
      is removed when present and added when absent. */
  function AddOrRemove(ids: set<int>, id: Option<int>): (r: set<int>)
    ensures id.None? ==> r == ids
    ensures id.Some? ==> (id.value in r <==> id.value !in ids)
    ensures id.Some? ==> r - {id.value} == ids - {id.value}
  {
    if id.None? then ids
    else if id.value in ids then ids - {id.value}
    else ids + {id.value}
  }

  /** Toggling the same id twice restores the selection. */
  lemma AddOrRemoveTwice(ids: set<int>, id: Option<int>)
    ensures AddOrRemove(AddOrRemove(ids, id), id) == ids
  {
    if id.Some? {
      var once := AddOrRemove(ids, id);
      var twice := AddOrRemove(once, id);
      assert id.value in twice <==> id.value in ids;
      assert twice - {id.value} == ids - {id.value};
      forall x ensures x in twice <==> x in ids {
        if x != id.value {
          assert x in twice <==> x in twice - {id.value};
          assert x in ids <==> x in ids - {id.value};
        }
      }
    }
  }

  /** The ids a group of diaries contributes to a selection. */
  function IdsOf(group: seq<Diary>): (r: set<int>)
    ensures forall x :: x in r <==> Some(x) in IdsList(group)
  {
    set d | d in group && d.id.Some? :: d.id.value
  }

  /** `diaries.map { it.id }`. */
  function IdsList(group: seq<Diary>): (r: seq<Option<int>>)
    ensures |r| == |group|
    ensures forall k :: 0 <= k < |group| ==> r[k] == group[k].id
  {
    seq(|group|, k requires 0 <= k < |group| => group[k].id)
  }

  /** `selectedIds.containsAll(diaries.map { it.id })`: a group counts as
      selected when every one of its ids is selected, so a diary without an
      id keeps its group unselected. */
  function IsGroupSelected(selected: set<int>, group: seq<Diary>): (r: bool)
    ensures group == [] ==> r
    ensures forall k :: 0 <= k < |group| && group[k].id.None? ==> !r
    ensures forall k :: 0 <= k < |group| && group[k].id.Some? && group[k].id.value !in selected ==> !r
  {
    forall k :: 0 <= k < |group| ==> group[k].id.Some? && group[k].id.value in selected
  }

  /** A group is selected exactly when all its diaries have ids and those
      ids are all in the selection. */
  lemma GroupSelectedIff(selected: set<int>, group: seq<Diary>)
    ensures IsGroupSelected(selected, group)
        <==> (forall d :: d in group ==> d.id.Some?) && IdsOf(group) <= selected
  {
    if (forall d :: d in group ==> d.id.Some?) && IdsOf(group) <= selected {
      forall k | 0 <= k < |group|
        ensures IdsList(group)[k].Some? && IdsList(group)[k].value in selected
      {
        assert group[k] in group;
        assert Some(group[k].id.value) in IdsList(group);
      }
    }
    if IsGroupSelected(selected, group) {
      forall d | d in group
        ensures d.id.Some?
      {
        var k :| 0 <= k < |group| && group[k] == d;
        assert IdsList(group)[k].Some?;
      }
      forall x | x in IdsOf(group)
        ensures x in selected
      {
        var k :| 0 <= k < |group| && IdsList(group)[k] == Some(x);
      }
    }
  }

  /** After selecting a group whose diaries all have ids, the group shows
      as selected. */
  lemma SelectedGroupIsSelected(selected: set<int>, group: seq<Diary>)
    requires forall d :: d in group ==> d.id.Some?
    ensures IsGroupSelected(selected + IdsOf(group), group)
  {
    GroupSelectedIff(selected + IdsOf(group), group);
  }

  /** After deselecting a non-empty group, the group shows as unselected. */
  lemma DeselectedGroupIsUnselected(selected: set<int>, group: seq<Diary>)
    requires group != []
    ensures !IsGroupSelected(selected - IdsOf(group), group)
  {
    if group[0].id.Some? {
      assert Some(group[0].id.value) in IdsList(group);
      assert group[0].id.value !in selected - IdsOf(group);
    }
  }

  /** `diaries.filter { selectedIds.contains(it.id) }`: the shown diaries
      whose id is selected, in the order shown. */
  function SelectedOf(diaries: seq<Diary>, ids: set<int>): (r: seq<Diary>)
    ensures forall d :: d in r <==> d in diaries && d.id.Some? && d.id.value in ids
    ensures forall d :: multiset(r)[d] == if d.id.Some? && d.id.value in ids then multiset(diaries)[d] else 0
  {
    var selected := (d: Diary) => d.id.Some? && d.id.value in ids;
    FilterMultiset(diaries, selected);
    Filter(diaries, selected)
  }

  /** The list with its search bar is shown when there are diaries, or when
      a search found none (so the search can be changed); otherwise the
      empty placeholder is shown. */
  function ShowsDiaryList(diaries: seq<Diary>, isFiltered: bool): (shown: bool)
    ensures diaries != [] ==> shown
    ensures isFiltered ==> shown
  {
    diaries != [] || (diaries == [] && isFiltered)
  }

  /** Only an unfiltered empty list shows the placeholder. */
  lemma PlaceholderOnlyWhenUnfilteredAndEmpty(diaries: seq<Diary>, isFiltered: bool)
    ensures !ShowsDiaryList(diaries, isFiltered) <==> diaries == [] && !isFiltered
  {
  }

  /** `onQueryChanged`: the typed text replaces the entry of the current
      filters and keeps their day. */
  function WithEntryQuery(filters: DiaryFilters, query: string): (r: DiaryFilters)
    ensures r.entry == query && r.date == filters.date
  {
    filters.(entry := query)
  }

  /** The delete confirmation's snackbar text. */
  function DeleteMessage(succeeded: bool, selectedCount: nat): (message: string)
    ensures succeeded ==> message == NatToString(selectedCount) + " item(s) deleted!"
    ensures !succeeded ==> message == "Error deleting diaries"
  {
    if succeeded then NatToString(selectedCount) + " item(s) deleted!" else "Error deleting diaries"
  }

  /** The selection state of the list. */
  class DiaryListContent {
    var selectedIds: set<int>
    var showConfirmDeleteDialog: bool

    /** The selection starts from the ids handed in (the screen passes an
        empty set), with no dialog shown. */
    constructor(initial: set<int>)
      ensures selectedIds == initial && !showConfirmDeleteDialog
    {
      selectedIds := initial;
      showConfirmDeleteDialog := false;
    }

    /** The list is in selection mode while anything is selected. */
    function InSelectionMode(): (r: bool)
      reads this
      ensures r <==> |selectedIds| > 0
    {
      selectedIds != {}
    }

    /** `onAddSelection`: adds the id; a diary without one is ignored. */
    method AddSelection(id: Option<int>)
      modifies this`selectedIds
      ensures selectedIds == if id.Some? then old(selectedIds) + {id.value} else old(selectedIds)
    {
      if id.Some? {
        selectedIds := selectedIds + {id.value};
      }
    }

    /** `onRemoveSelection`: removes the id; a diary without one is ignored. */
    method RemoveSelection(id: Option<int>)
      modifies this`selectedIds
      ensures selectedIds == if id.Some? then old(selectedIds) - {id.value} else old(selectedIds)
    {
      if id.Some? {
        selectedIds := selectedIds - {id.value};
      }
    }

    /** `onToggleSelection`. */
    method ToggleSelection(id: Option<int>)
      modifies this`selectedIds
      ensures selectedIds == AddOrRemove(old(selectedIds), id)
    {
      selectedIds := AddOrRemove(selectedIds, id);
    }

    /** `onCancelSelection`: clears the selection. */
    method CancelSelection()
      modifies this`selectedIds
      ensures selectedIds == {}
    {
      selectedIds := {};
    }

    /** `selectGroup`: adds the id of every diary of the group. */
    method SelectGroup(group: seq<Diary>)
      modifies this`selectedIds
      ensures selectedIds == old(selectedIds) + IdsOf(group)
    {
      for i := 0 to |group|
        invariant selectedIds == old(selectedIds) + IdsOf(group[..i])
      {
        AddSelection(group[i].id);
        assert group[..i + 1] == group[..i] + [group[i]];
      }
      assert group[..|group|] == group;
    }

    /** `deSelectGroup`: removes the id of every diary of the group. */
    method DeselectGroup(group: seq<Diary>)
      modifies this`selectedIds
      ensures selectedIds == old(selectedIds) - IdsOf(group)
    {
      for i := 0 to |group|
        invariant selectedIds == old(selectedIds) - IdsOf(group[..i])
      {
        RemoveSelection(group[i].id);
        assert group[..i + 1] == group[..i] + [group[i]];
      }
      assert group[..|group|] == group;
    }

    /** A click toggles the diary's selection in selection mode and opens
        the diary otherwise. */
    method OnClick(diary: Diary) returns (openedDiary: Option<Diary>)
      modifies this`selectedIds
      ensures old(selectedIds) != {} ==> openedDiary.None? && selectedIds == AddOrRemove(old(selectedIds), diary.id)
      ensures old(selectedIds) == {} ==> openedDiary == Some(diary) && selectedIds == old(selectedIds)
    {
      if InSelectionMode() {
        ToggleSelection(diary.id);
        openedDiary := None;
      } else {
        openedDiary := Some(diary);
      }
    }

    /** A long click always toggles the diary's selection. */
    method OnLongClick(diary: Diary)
      modifies this`selectedIds
      ensures selectedIds == AddOrRemove(old(selectedIds), diary.id)
    {
      ToggleSelection(diary.id);
    }

    /** `onDeleteDiaries` from the selection bar: the ids it hands over
        become the selection and the confirmation dialog opens. */
    method RequestDelete(ids: set<int>)
      modifies this
      ensures selectedIds == ids && showConfirmDeleteDialog
    {
      selectedIds := ids;
      showConfirmDeleteDialog := true;
    }

    /** Dismissing the dialog keeps the selection. */
    method DismissDelete()
      modifies this`showConfirmDeleteDialog
      ensures !showConfirmDeleteDialog
    {
      showConfirmDeleteDialog := false;
    }

    /** Confirming: the dialog closes, the shown diaries whose id is
        selected are handed to the delete action, the message counts the
        selected ids, and the selection is cleared whatever the outcome. */
    method ConfirmDelete(diaries: seq<Diary>, deleteDiaries: seq<Diary> -> bool)
      returns (passed: seq<Diary>, message: string)
      modifies this
      ensures passed == SelectedOf(diaries, old(selectedIds))
      ensures message == DeleteMessage(deleteDiaries(passed), |old(selectedIds)|)
      ensures selectedIds == {} && !showConfirmDeleteDialog
    {
      showConfirmDeleteDialog := false;
      passed := SelectedOf(diaries, selectedIds);
      var isSuccess := deleteDiaries(passed);
      message := DeleteMessage(isSuccess, |selectedIds|);
      selectedIds := {};
    }
  }
}
