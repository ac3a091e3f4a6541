/** `insertRandomDiaries`, the test fixture that fills a data source with
    one diary per day, run here against the in-memory store. The system
    time zone is taken to be UTC, so one calendar day is 86 400 000 ms. */
module RandomDiaries {
  import opened KotlinStd
  import opened Calendar
  import opened DiaryModel
  import opened TestDataSourceModel
  import opened UseCases

  /** How many diaries the fixture inserts unless told otherwise. */
  const DefaultCount: int := 30
  /** 2023-03-03T02:35:53.049Z in milliseconds since the epoch. */
  const StartInstant: int := 1_677_810_953_049

  /** The fixture's validator accepts every diary. */
  function AcceptAll(diary: Diary): Option<Exception> {
    None
  }

  /** The `i`-th diary the fixture inserts. */
  function FixtureDiary(i: nat): (d: Diary)
    ensures d.id.None? && !d.isFavorite
    ensures d.entry == "Diary Entry #" + NatToString(i)
    ensures d.date == StartInstant + i * MillisPerDay
  {
    Diary(None, "Diary Entry #" + NatToString(i), StartInstant + i * MillisPerDay, false)
  }

  /** The diaries the fixture inserts, in order. */
  function FixtureDiaries(count: int): (r: seq<Diary>)
    ensures |r| == if count > 0 then count else 0
    ensures forall i :: 0 <= i < |r| ==> r[i] == FixtureDiary(i)
  {
    if count <= 0 then [] else seq(count, i requires 0 <= i < count => FixtureDiary(i))
  }

  /** The first diary is dated 3 March 2023 (UTC). */
  lemma StartsOnMarchThird()
    ensures EpochDay(StartInstant) == 19419
    ensures ToDate(StartInstant) == LocalDate(2023, 3, 3)
  {
    assert StartInstant / MillisPerDay == 19419;
    assert 738887 / 146097 == 5;
    assert (8402 - 8402 / 1460 + 8402 / 36524 - 8402 / 146096) / 365 == 23;
    assert 8402 - (365 * 23 + 23 / 4 - 23 / 100) == 2;
    assert (5 * 2 + 2) / 153 == 0;
  }

  /** Each diary is exactly one calendar day after the one before. */
  lemma NextDiaryIsNextDay(i: nat)
    ensures FixtureDiary(i + 1).date == FixtureDiary(i).date + MillisPerDay
    ensures EpochDay(FixtureDiary(i + 1).date) == EpochDay(FixtureDiary(i).date) + 1
  {
    var t := FixtureDiary(i).date;
    assert (t + MillisPerDay) / MillisPerDay == t / MillisPerDay + 1;
  }

  /** The lists the store publishes while the first `n` fixture diaries
      are added to `start`: after each add, the list so far. */
  function InsertPublications(start: seq<Diary>, n: nat): (r: seq<seq<Diary>>)
    ensures |r| == n
    ensures forall k :: 0 <= k < n ==> r[k] == start + FixtureDiaries(k + 1)
  {
    seq(n, k requires 0 <= k < n => start + FixtureDiaries(k + 1))
  }

  /** One more insert publishes one more list: the records so far. */
  lemma InsertPublicationsStep(start: seq<Diary>, i: nat)
    ensures InsertPublications(start, i + 1) == InsertPublications(start, i) + [start + FixtureDiaries(i + 1)]
  {
  }

  /** `insertRandomDiaries(dataSource, count)`: `count` times, add the next
      diary through the add use case and move the date on by a day; every
      add publishes the list so far. A count of zero or less inserts and
      publishes nothing. */
  method InsertRandomDiaries(store: TestDataSource, count: int)
    modifies store
    ensures store.diaries == old(store.diaries) + FixtureDiaries(count)
    ensures |store.diaries| == |old(store.diaries)| + (if count > 0 then count else 0)
    ensures store.published
         == old(store.published) + InsertPublications(old(store.diaries), if count > 0 then count else 0)
  {
    var currentDate := StartInstant;
    var i := 0;
    while i < count
      invariant 0 <= i <= (if count > 0 then count else 0)
      invariant currentDate == StartInstant + i * MillisPerDay
      invariant store.diaries == old(store.diaries) + FixtureDiaries(i)
      invariant store.published == old(store.published) + InsertPublications(old(store.diaries), i)
    {
      var diary := Diary(None, "Diary Entry #" + NatToString(i), currentDate, false);
      assert diary == FixtureDiary(i);
      var result := AddDiaryToStore(store, diary, AcceptAll);
      assert FixtureDiaries(i + 1) == FixtureDiaries(i) + [diary];
      InsertPublicationsStep(old(store.diaries), i);
      currentDate := currentDate + MillisPerDay;
      i := i + 1;
    }
  }

  /** With the default count, an empty store ends up with 30 diaries. */
  method InsertDefault(store: TestDataSource)
    modifies store
    requires store.diaries == []
    ensures |store.diaries| == 30
  {
    InsertRandomDiaries(store, DefaultCount);
  }
}
