/** The in-memory diary store used by the UI tests
    (shared-ui/.../TestDataSource.kt). It keeps a mutable list of diaries and
    a shared flow on which it publishes the whole list after every mutation.
    The functions at the top say what each operation does to a list of
    diaries; the class applies them to its own list. The finders are pure
    filters and sorts that the flow applies to every list it publishes. */
module TestDataSourceModel {
  import opened KotlinStd
  import opened Calendar
  import opened DiaryModel

  // ---------------------------------------------------------------------
  // Mutations, as functions of the stored list

  /** `List.indexOf`: the position of the first record equal to `x`, or -1. */
  function IndexOf(s: seq<Diary>, x: Diary): (i: int)
    ensures -1 <= i < |s|
    ensures i == -1 <==> x !in s
    ensures 0 <= i ==> s[i] == x && x !in s[..i]
    ensures 0 <= i ==> forall k :: 0 <= k < i ==> s[k] != x
  {
    if s == [] then -1
    else if s[0] == x then 0
    else
      var j := IndexOf(s[1..], x);
      assert s == [s[0]] + s[1..];
      if j == -1 then -1
      else
        assert s[..j + 1] == [s[0]] + s[1..][..j];
        j + 1
  }

  /** `MutableList.remove(element)`: drops the first record equal to `x`. */
  function RemoveFirst(s: seq<Diary>, x: Diary): (r: seq<Diary>)
    ensures x !in s ==> r == s
    ensures x in s ==> |r| == |s| - 1
    ensures multiset(r) == multiset(s) - multiset{x}
    ensures x in s ==> exists i :: 0 <= i < |s| && s[i] == x && x !in s[..i] && r == s[..i] + s[i + 1..]
  {
    var i := IndexOf(s, x);
    if i < 0 then s
    else
      assert s == s[..i] + [s[i]] + s[i + 1..];
      s[..i] + s[i + 1..]
  }

  /** `MutableList.removeAll(elements)`: drops every stored record equal to
      some element of the batch and keeps the others in order. */
  function RemoveAll(s: seq<Diary>, batch: seq<Diary>): (r: seq<Diary>)
    ensures forall d :: d in r <==> d in s && d !in batch
    ensures forall d :: multiset(r)[d] == if d in batch then 0 else multiset(s)[d]
  {
    var keep := (d: Diary) => d !in batch;
    FilterMultiset(s, keep);
    Filter(s, keep)
  }

  /** `removeAll` changes the list exactly when some stored record is in the batch. */
  lemma RemoveAllChangesIff(s: seq<Diary>, batch: seq<Diary>)
    ensures RemoveAll(s, batch) != s <==> exists d :: d in s && d in batch
  {
    if exists d :: d in s && d in batch {
      var d :| d in s && d in batch;
      assert d !in RemoveAll(s, batch);
    } else {
      FilterAll(s, (d: Diary) => d !in batch);
    }
  }

  /** What `delete(list)` returns: the size of the batch if `removeAll`
      removed anything, 0 otherwise. A batch of which only some records are
      still stored reports its full size. */
  function DeleteManyCount(s: seq<Diary>, batch: seq<Diary>): (n: int)
    ensures n == (if exists d :: d in s && d in batch then |batch| else 0)
  {
    RemoveAllChangesIff(s, batch);
    if RemoveAll(s, batch) != s then |batch| else 0
  }

  /** `firstOrNull { it.id == id }`, as a position: the first record whose
      id equals `id` (an absent id matches an absent id), or -1. */
  function IndexOfId(s: seq<Diary>, id: Option<int>): (i: int)
    ensures -1 <= i < |s|
    ensures i == -1 <==> forall k :: 0 <= k < |s| ==> s[k].id != id
    ensures 0 <= i ==> s[i].id == id && forall k :: 0 <= k < i ==> s[k].id != id
  {
    if s == [] then -1
    else if s[0].id == id then 0
    else
      var j := IndexOfId(s[1..], id);
      if j == -1 then -1 else j + 1
  }

  /** `update(diary)` on a list: the first record with the diary's id gets
      the diary's entry, date and favorite flag, and keeps its own id and
      position. The record is found again with `indexOf`, which lands on the
      same position because no earlier record has that id. */
  function UpdateById(s: seq<Diary>, diary: Diary): (r: seq<Diary>)
    ensures |r| == |s|
    ensures IndexOfId(s, diary.id) == -1 ==> r == s
    ensures 0 <= IndexOfId(s, diary.id) ==>
      var i := IndexOfId(s, diary.id);
      && r[i] == Diary(s[i].id, diary.entry, diary.date, diary.isFavorite)
      && forall k :: 0 <= k < |s| && k != i ==> r[k] == s[k]
  {
    var t := IndexOfId(s, diary.id);
    if t < 0 then s
    else
      var target := s[t];
      var j := IndexOf(s, target);
      assert j == t by {
        assert s[j].id == diary.id;
      }
      s[j := target.(entry := diary.entry, date := diary.date, isFavorite := diary.isFavorite)]
  }

  /** What `update(diary)` returns: 1 when a record with that id was found. */
  function UpdateCount(s: seq<Diary>, diary: Diary): (n: int)
    ensures n == 1 <==> exists k :: 0 <= k < |s| && s[k].id == diary.id
    ensures n == 0 <==> UpdateById(s, diary) == s && forall k :: 0 <= k < |s| ==> s[k].id != diary.id
  {
    if IndexOfId(s, diary.id) == -1 then 0 else 1
  }

  // ---------------------------------------------------------------------
  // Finders, applied by the flow to every published list

  /** `fetchFavorites`: the favorite records, in stored order. */
  function Favorites(s: seq<Diary>): (r: seq<Diary>)
    ensures forall d :: d in r <==> d in s && d.isFavorite
    ensures forall d :: multiset(r)[d] == if d.isFavorite then multiset(s)[d] else 0
  {
    var favorite := (d: Diary) => d.isFavorite;
    FilterMultiset(s, favorite);
    Filter(s, favorite)
  }

  /** `find(entry)`: the records whose entry contains the query, ignoring case. */
  function MatchingEntry(s: seq<Diary>, query: string): (r: seq<Diary>)
    ensures forall d :: d in r <==> d in s && ContainsIgnoreCase(d.entry, query)
    ensures forall d :: multiset(r)[d] == if ContainsIgnoreCase(d.entry, query) then multiset(s)[d] else 0
  {
    var matches := (d: Diary) => ContainsIgnoreCase(d.entry, query);
    FilterMultiset(s, matches);
    Filter(s, matches)
  }

  /** `find(from, to)`: the records whose calendar date lies between the
      dates of `from` and `to`, both included. */
  function InDateRange(s: seq<Diary>, from: int, to: int): (r: seq<Diary>)
    ensures forall d :: d in r <==>
      d in s && DateLe(ToDate(from), ToDate(d.date)) && DateLe(ToDate(d.date), ToDate(to))
    ensures forall d :: (multiset(r)[d] ==
      if DateLe(ToDate(from), ToDate(d.date)) && DateLe(ToDate(d.date), ToDate(to)) then multiset(s)[d] else 0)
  {
    var inRange := (d: Diary) => DateLe(ToDate(from), ToDate(d.date)) && DateLe(ToDate(d.date), ToDate(to));
    FilterMultiset(s, inRange);
    Filter(s, inRange)
  }

  /** `findByDate(date)`: the records on the same calendar day as `date`. */
  function OnDate(s: seq<Diary>, date: int): (r: seq<Diary>)
    ensures forall d :: d in r <==> d in s && ToDate(d.date) == ToDate(date)
    ensures forall d :: multiset(r)[d] == if ToDate(d.date) == ToDate(date) then multiset(s)[d] else 0
  {
    var sameDay := (d: Diary) => ToDate(d.date) == ToDate(date);
    FilterMultiset(s, sameDay);
    Filter(s, sameDay)
  }

  // The finders keep the stored order: what they find in the records
  // stored first comes first.

  lemma FavoritesKeepsOrder(a: seq<Diary>, b: seq<Diary>)
    ensures Favorites(a + b) == Favorites(a) + Favorites(b)
  {
    FilterConcat(a, b, (d: Diary) => d.isFavorite);
  }

  lemma MatchingEntryKeepsOrder(a: seq<Diary>, b: seq<Diary>, query: string)
    ensures MatchingEntry(a + b, query) == MatchingEntry(a, query) + MatchingEntry(b, query)
  {
    FilterConcat(a, b, (d: Diary) => ContainsIgnoreCase(d.entry, query));
  }

  lemma InDateRangeKeepsOrder(a: seq<Diary>, b: seq<Diary>, from: int, to: int)
    ensures InDateRange(a + b, from, to) == InDateRange(a, from, to) + InDateRange(b, from, to)
  {
    FilterConcat(a, b, (d: Diary) => DateLe(ToDate(from), ToDate(d.date)) && DateLe(ToDate(d.date), ToDate(to)));
  }

  lemma OnDateKeepsOrder(a: seq<Diary>, b: seq<Diary>, date: int)
    ensures OnDate(a + b, date) == OnDate(a, date) + OnDate(b, date)
  {
    FilterConcat(a, b, (d: Diary) => ToDate(d.date) == ToDate(date));
  }

  /** `getLatestEntries(count)`: each published list sorted newest first;
      `count` bounds how many lists are emitted, not how long they are.
      `Flow.take` rejects a count that is not positive. */
  function LatestEntries(emissions: seq<seq<Diary>>, count: int): (r: Result<seq<seq<Diary>>>)
    ensures count <= 0 <==> r.Err?
    ensures r.Ok? ==> |r.value| == (if count < |emissions| then count else |emissions|)
    ensures r.Ok? ==> forall i :: 0 <= i < |r.value| ==>
      |r.value[i]| == |emissions[i]| && multiset(r.value[i]) == multiset(emissions[i])
      && forall j, k :: 0 <= j < k < |r.value[i]| ==> r.value[i][j].date >= r.value[i][k].date
  {
    if count <= 0 then Err(Exception(IllegalArgument, "Requested element count " + IntToString(count) + " should be positive"))
    else
      var sorted := seq(|emissions|, i requires 0 <= i < |emissions| => NewestFirst(emissions[i]));
      Ok(Take(sorted, count))
  }

  // ---------------------------------------------------------------------
  // The store

  class TestDataSource {
    /** The stored records, in insertion order. */
    var diaries: seq<Diary>
    /** Every list emitted on the shared flow, oldest first. */
    var published: seq<seq<Diary>>

    /** The store starts with one record, dated at construction time. */
    constructor(now: int)
      ensures diaries == [Diary(Some(1000), "Hello World", now, false)]
      ensures published == []
    {
      diaries := [Diary(Some(1000), "Hello World", now, false)];
      published := [];
    }

    /** `withPublishDiaries`: after a mutation, emit the list as it now is. */
    method PublishDiaries()
      modifies this`published
      ensures published == old(published) + [diaries]
    {
      published := published + [diaries];
    }

    /** `add`: appends the diary unchanged (no id is assigned, duplicates are
        kept) and reports one record written. */
    method Add(diary: Diary) returns (written: int)
      modifies this
      ensures diaries == old(diaries) + [diary]
      ensures written == 1
      ensures published == old(published) + [diaries]
    {
      diaries := diaries + [diary];
      written := 1;
      PublishDiaries();
    }

    /** `delete(diary)`: removes the first record equal to the diary in
        every field. */
    method Delete(diary: Diary) returns (deleted: int)
      modifies this
      ensures diaries == RemoveFirst(old(diaries), diary)
      ensures deleted == if diary in old(diaries) then 1 else 0
      ensures published == old(published) + [diaries]
    {
      var found := diary in diaries;
      diaries := RemoveFirst(diaries, diary);
      deleted := if found then 1 else 0;
      PublishDiaries();
    }

    /** `delete(list)`: removes every record equal to one in the batch. */
    method DeleteMany(batch: seq<Diary>) returns (deleted: int)
      modifies this
      ensures diaries == RemoveAll(old(diaries), batch)
      ensures deleted == DeleteManyCount(old(diaries), batch)
      ensures published == old(published) + [diaries]
    {
      var before := diaries;
      diaries := RemoveAll(diaries, batch);
      deleted := if diaries != before then |batch| else 0;
      PublishDiaries();
    }

    /** `update(diary)`: overwrites the first record with the same id. The
        list is published even when nothing matched. */
    method Update(diary: Diary) returns (updated: int)
      modifies this
      ensures diaries == UpdateById(old(diaries), diary)
      ensures updated == UpdateCount(old(diaries), diary)
      ensures published == old(published) + [diaries]
    {
      updated := UpdateCount(diaries, diary);
      diaries := UpdateById(diaries, diary);
      PublishDiaries();
    }

    /** `deleteAll`: empties the store. */
    method DeleteAll()
      modifies this
      ensures diaries == []
      ensures published == old(published) + [[]]
    {
      diaries := [];
      PublishDiaries();
    }

    /** `fetchAll`: emits the current list (which a new subscriber receives
        first, the flow replaying one value) and hands out the flow. */
    method FetchAll() returns (current: seq<Diary>)
      modifies this`published
      ensures current == diaries
      ensures published == old(published) + [diaries]
    {
      PublishDiaries();
      current := diaries;
    }

    /** `countEntries`: the number of stored records. */
    function CountEntries(): (n: int)
      reads this
      ensures n == |diaries| && n >= 0
    {
      |diaries|
    }
  }
}
