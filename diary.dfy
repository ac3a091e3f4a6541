/** The records the diary core passes around. */
module DiaryModel {
  import opened KotlinStd

  /** A diary record. `id` is absent until a store assigns one; `date` is
      the instant the entry refers to, in milliseconds since the epoch. */
  datatype Diary = Diary(id: Option<int>, entry: string, date: int, isFavorite: bool)

  /** The most recent AI-generated weekly summary and when it was made. */
  datatype WeeklySummary = WeeklySummary(summary: string, date: int)

  /** The sort key of `sortedByDescending { it.date }`: ascending order of
      the negated date is descending order of the date. */
  function DescendingDate(d: Diary): int {
    -d.date
  }

  /** `sortedByDescending { it.date }`: newest first, ties in stored order. */
  function NewestFirst(s: seq<Diary>): (r: seq<Diary>)
    ensures multiset(r) == multiset(s)
    ensures forall i, j :: 0 <= i < j < |r| ==> r[i].date >= r[j].date
  {
    var r := SortBy(s, DescendingDate);
    assert forall i, j :: 0 <= i < j < |r| ==> DescendingDate(r[i]) <= DescendingDate(r[j]);
    r
  }

  /** The sort is stable: the diaries dated `date` come out of `NewestFirst`
      in the order in which they were stored. */
  lemma NewestFirstKeepsTies(s: seq<Diary>, date: int)
    ensures Filter(NewestFirst(s), KeyIs(DescendingDate, -date)) == Filter(s, KeyIs(DescendingDate, -date))
    ensures forall d :: d in Filter(s, KeyIs(DescendingDate, -date)) <==> d in s && d.date == date
  {
    SortByIsStable(s, DescendingDate, -date);
    forall d: Diary
      ensures KeyIs(DescendingDate, -date)(d) <==> d.date == date
    {
      assert KeyIs(DescendingDate, -date)(d) == (DescendingDate(d) == -date);
    }
  }

  /** `sortedByDescending { it.date }.take(n)`: the `n` newest diaries,
      newest first. */
  function Newest(diaries: seq<Diary>, n: nat): (r: seq<Diary>)
    ensures |r| == if n < |diaries| then n else |diaries|
    ensures multiset(r) <= multiset(diaries)
    ensures forall i, j :: 0 <= i < j < |r| ==> r[i].date >= r[j].date
  {
    var sorted := NewestFirst(diaries);
    var m := if n < |sorted| then n else |sorted|;
    assert sorted == sorted[..m] + sorted[m..];
    assert multiset(sorted) == multiset(sorted[..m]) + multiset(sorted[m..]);
    Take(sorted, n)
  }

  /** An element a prefix holds fewer copies of than the whole sequence
      occurs after the prefix. */
  lemma LeftOutOccursAfter(s: seq<Diary>, m: nat, x: Diary)
    requires m <= |s|
    requires multiset(s[..m])[x] < multiset(s)[x]
    ensures x in s[m..]
  {
    assert s == s[..m] + s[m..];
    assert multiset(s) == multiset(s[..m]) + multiset(s[m..]);
  }

  /** No diary left out of `Newest` is newer than one kept. */
  lemma NewestKeepsTheNewest(diaries: seq<Diary>, n: nat, left: Diary, kept: Diary)
    requires multiset(Newest(diaries, n))[left] < multiset(diaries)[left]
    requires kept in Newest(diaries, n)
    ensures left.date <= kept.date
  {
    var sorted := NewestFirst(diaries);
    var r := Newest(diaries, n);
    var m := |r|;
    assert r == sorted[..m];
    LeftOutOccursAfter(sorted, m, left);
    var j :| m <= j < |sorted| && sorted[j] == left;
    var i :| 0 <= i < m && r[i] == kept;
    assert sorted[i] == kept;
  }
}
