# superdiary core, modelled in Dafny

This project models the core of superdiary, a Kotlin Multiplatform diary
app, and proves properties of the model. It covers:

- **Diary list.** `DiaryListViewModel` and `DiaryListScreenModel`, the
  older screen model in `DiaryListTab.kt`, the tab's dispatch of the search
  filters, and the selection and delete-confirmation logic of
  `DiaryListScreenContent`.
- **Dashboard.** The dashboard view model, and the older `DashboardScreen`
  model with its streak pipeline.
- **Data layer.** The in-memory `TestDataSource` used by the UI tests, the
  add and update use cases, the `insertRandomDiaries` fixture, and the
  app's `DiaryMapper`.
- **Helpers.** `rotateRight` of the calendar's week header, the
  benchmark's `retry` helper, and the test helper `awaitUntil`.

The modules are:

- `KotlinStd`: the Kotlin standard-library behaviour the core relies on.
  This covers stable `sortedBy`, `take`/`takeLast`/`dropLast`, `contains`
  with and without case, decimal rendering and parsing, and `joinToString`.
- `Calendar`: instants as milliseconds since the epoch, UTC calendar
  dates, and the `LocalDate` period arithmetic of `minus`.
- `DiaryModel`: the diary record and the newest-first sort.
- `TestDataSourceModel`: the in-memory store. It is a class whose list of
  diaries is changed in place and whose every mutation publishes the list.
- `DiaryListState`, `ListViewModel`, `ListScreenModel`, `ListTab` and
  `ListScreenContent`: the diary-list screen. Each screen model is a class
  whose published states are recorded in order.
- `Dashboard` and `LegacyDashboard`: the two dashboards.
- `UseCases`, `RandomDiaries`, `DiaryMapperModel`, `WeekHeader`,
  `AppScenarios` and `TestUtils`: the remaining files.

Flows are modelled as the finite sequence of lists they emit. A launched
coroutine is modelled as a method that processes its whole flow. Exceptions
are values of an `Exception` datatype with a kind: `IllegalArgument`, `IO`
or `Other`. A call that may throw returns a `Result`, or is described by
what it did.

Where the code's behaviour is surprising, the model follows the code:

- `delete(list)` in the in-memory store reports the size of the whole batch
  as soon as any record of it was stored. The strict delete check of the
  list screens therefore reports success for a partly stale batch
  (`DiaryListState.PartlyStaleBatchReportsSuccess`).
- A stored weekly summary is reused when its age, truncated to whole days,
  is at most 7. So it is reused up to an age of just under eight days
  (`Dashboard.IsFresh`).
- The view-model dashboard persists whatever summary text is shown when the
  stream completes, including text cut short by a generator error.
- The older dashboard's streak counts two diaries for every adjacent pair
  one day apart, so n diaries on n consecutive calendar days count
  2(n - 1) (`LegacyDashboard.ConsecutiveDaysStreak`). It compares only the
  day component of the period, so dates a month and a day apart count too
  (`LegacyDashboard.MonthAndDayApartIsStreakPair`).
- The in-memory store never assigns ids.
- The combined date-and-entry filter compares case, while the store's own
  entry search does not (`DiaryListState.CombinedFilterIsCaseSensitive`).

## Model

| member | source | states |
|---|---|---|
| KotlinStd.SortByIsStable | shared-ui/src/commonMain/kotlin/com/foreverrafs/superdiary/ui/feature/dashboard/DashboardViewModel.kt:55 | the date sort is stable: elements with equal keys keep their relative order |
| KotlinStd.TakeLast | calendar/src/main/java/io/github/boguszpawlowski/composecalendar/week/DefaultWeekHeader.kt:60 | `takeLast(n)` throws IllegalArgument for a negative n and otherwise yields the last min(n, size) elements |
| KotlinStd.DropLast | calendar/src/main/java/io/github/boguszpawlowski/composecalendar/week/DefaultWeekHeader.kt:60 | `dropLast(n)` throws IllegalArgument for a negative n and otherwise yields all but the last min(n, size) elements |
| KotlinStd.NullableConcat | shared-ui/src/commonMain/kotlin/com/foreverrafs/superdiary/ui/feature/dashboard/DashboardScreen.kt:114 | `String?.plus`: an absent summary reads as "null" before the appended text; a present one is extended |
| KotlinStd.ParseRendered | app/src/main/java/com/foreverrafs/superdiary/data/local/mapper/DiaryMapper.kt:12-21 | parsing the rendering of a value gives the value back |
| Calendar.SamePeriodIsZero | shared-ui/src/commonMain/kotlin/com/foreverrafs/superdiary/ui/feature/dashboard/DashboardScreen.kt:125 | a valid date minus itself is zero months and zero days |
| Calendar.PeriodUntil | shared-ui/src/commonMain/kotlin/com/foreverrafs/superdiary/ui/feature/dashboard/DashboardScreen.kt:125 | `second - first` on dates: whole months first, then days; the months are not negative when the first date is not later, and not positive when it is |
| Calendar.NextDay | shared-ui/src/commonMain/kotlin/com/foreverrafs/superdiary/ui/feature/dashboard/DashboardScreen.kt:125 | the next calendar day of a valid date is a later valid date |
| Calendar.NextDayPeriod | shared-ui/src/commonMain/kotlin/com/foreverrafs/superdiary/ui/feature/dashboard/DashboardScreen.kt:125 | a valid date and the next calendar day differ by zero months and exactly one day, at month and year ends (leap years included) too |
| Calendar.MonthAndDayPeriod | shared-ui/src/commonMain/kotlin/com/foreverrafs/superdiary/ui/feature/dashboard/DashboardScreen.kt:125 | 31 Jan and 1 Mar 2023 differ by one month and one day although 29 days apart |
| Calendar.CivilDayJan31 | shared-ui/src/commonTest/kotlin/com/foreverrafs/superdiary/TestDataSource.kt:60 | epoch day 19388 is 2023-01-31 (the date conversion used by `toDate`) |
| Calendar.CivilDayMar1 | shared-ui/src/commonTest/kotlin/com/foreverrafs/superdiary/TestDataSource.kt:60 | epoch day 19417 is 2023-03-01 |
| DiaryModel.NewestFirst | shared-ui/src/commonTest/kotlin/com/foreverrafs/superdiary/TestDataSource.kt:103 | `sortedByDescending { it.date }`: a permutation of the input in non-increasing date order |
| DiaryModel.NewestFirstKeepsTies | shared-ui/src/commonTest/kotlin/com/foreverrafs/superdiary/TestDataSource.kt:103 | diaries with the same date come out in stored order (stability), and exactly the diaries of that date |
| DiaryModel.Newest | shared-ui/src/commonMain/kotlin/com/foreverrafs/superdiary/ui/feature/dashboard/DashboardViewModel.kt:55 | `sortedByDescending { it.date }.take(n)`: min(n, size) diaries, drawn from the input, newest first |
| DiaryModel.NewestKeepsTheNewest | shared-ui/src/commonMain/kotlin/com/foreverrafs/superdiary/ui/feature/dashboard/DashboardViewModel.kt:55 | no diary left out of the newest n is newer than one kept |
| TestDataSourceModel.IndexOf | shared-ui/src/commonTest/kotlin/com/foreverrafs/superdiary/TestDataSource.kt:92 | `indexOf`: the first position holding the record, or -1 exactly when it is absent |
| TestDataSourceModel.RemoveFirst | shared-ui/src/commonTest/kotlin/com/foreverrafs/superdiary/TestDataSource.kt:31 | `remove(diary)`: absent leaves the list alone; present drops exactly its first occurrence |
| TestDataSourceModel.RemoveAll | shared-ui/src/commonTest/kotlin/com/foreverrafs/superdiary/TestDataSource.kt:35 | `removeAll(batch)`: keeps exactly the records not in the batch, with their multiplicities |
| TestDataSourceModel.RemoveAllChangesIff | shared-ui/src/commonTest/kotlin/com/foreverrafs/superdiary/TestDataSource.kt:35 | `removeAll` reports a change exactly when some stored record is in the batch |
| TestDataSourceModel.DeleteManyCount | shared-ui/src/commonTest/kotlin/com/foreverrafs/superdiary/TestDataSource.kt:34-36 | `delete(list)` returns the batch size when any stored record matched, 0 otherwise |
| TestDataSourceModel.IndexOfId | shared-ui/src/commonTest/kotlin/com/foreverrafs/superdiary/TestDataSource.kt:90 | `firstOrNull { it.id == diary.id }`: the first record with the id, -1 exactly when none has it |
| TestDataSourceModel.UpdateById | shared-ui/src/commonTest/kotlin/com/foreverrafs/superdiary/TestDataSource.kt:89-99 | `update`: the first record with the id takes the entry, date and flag and keeps id and position; all others are unchanged; no match changes nothing |
| TestDataSourceModel.UpdateCount | shared-ui/src/commonTest/kotlin/com/foreverrafs/superdiary/TestDataSource.kt:90-98 | `update` returns 1 exactly when a record with the id exists, else 0 with the list unchanged |
| TestDataSourceModel.Favorites | shared-ui/src/commonTest/kotlin/com/foreverrafs/superdiary/TestDataSource.kt:43-47 | `fetchFavorites`: exactly the favourite records, each as often as it is stored |
| TestDataSourceModel.MatchingEntry | shared-ui/src/commonTest/kotlin/com/foreverrafs/superdiary/TestDataSource.kt:49-55 | `find(entry)`: exactly the records whose entry contains the query ignoring case, each as often as it is stored |
| TestDataSourceModel.InDateRange | shared-ui/src/commonTest/kotlin/com/foreverrafs/superdiary/TestDataSource.kt:57-65 | `find(from, to)`: exactly the records whose UTC date lies in the closed range of dates, each as often as it is stored |
| TestDataSourceModel.OnDate | shared-ui/src/commonTest/kotlin/com/foreverrafs/superdiary/TestDataSource.kt:67-73 | `findByDate`: exactly the records on the same UTC date, each as often as it is stored |
| TestDataSourceModel.FavoritesKeepsOrder | shared-ui/src/commonTest/kotlin/com/foreverrafs/superdiary/TestDataSource.kt:43-47 | the favourites come in stored order: those of earlier records first |
| TestDataSourceModel.MatchingEntryKeepsOrder | shared-ui/src/commonTest/kotlin/com/foreverrafs/superdiary/TestDataSource.kt:49-55 | the matches come in stored order |
| TestDataSourceModel.InDateRangeKeepsOrder | shared-ui/src/commonTest/kotlin/com/foreverrafs/superdiary/TestDataSource.kt:57-65 | the records in the range come in stored order |
| TestDataSourceModel.OnDateKeepsOrder | shared-ui/src/commonTest/kotlin/com/foreverrafs/superdiary/TestDataSource.kt:67-73 | the records on the date come in stored order |
| TestDataSourceModel.LatestEntries | shared-ui/src/commonTest/kotlin/com/foreverrafs/superdiary/TestDataSource.kt:101-106 | `getLatestEntries(count)`: an error for count <= 0; otherwise the first min(count, emissions) lists, each a newest-first permutation of its emission |
| TestDataSourceModel.TestDataSource.constructor | shared-ui/src/commonTest/kotlin/com/foreverrafs/superdiary/TestDataSource.kt:19-21 | the store starts with the single "Hello World" record with id 1000 |
| TestDataSourceModel.TestDataSource.PublishDiaries | shared-ui/src/commonTest/kotlin/com/foreverrafs/superdiary/TestDataSource.kt:79-87 | after a mutation the current list is emitted |
| TestDataSourceModel.TestDataSource.Add | shared-ui/src/commonTest/kotlin/com/foreverrafs/superdiary/TestDataSource.kt:25-28 | `add` appends the diary unchanged, returns 1 and publishes |
| TestDataSourceModel.TestDataSource.Delete | shared-ui/src/commonTest/kotlin/com/foreverrafs/superdiary/TestDataSource.kt:30-32 | `delete(diary)` removes its first occurrence, returns 1 iff it was stored, publishes |
| TestDataSourceModel.TestDataSource.DeleteMany | shared-ui/src/commonTest/kotlin/com/foreverrafs/superdiary/TestDataSource.kt:34-36 | `delete(list)` removes every matching record, returns `DeleteManyCount`, publishes |
| TestDataSourceModel.TestDataSource.Update | shared-ui/src/commonTest/kotlin/com/foreverrafs/superdiary/TestDataSource.kt:89-99 | `update` rewrites the first record with the id, returns `UpdateCount`, publishes even when nothing matched |
| TestDataSourceModel.TestDataSource.DeleteAll | shared-ui/src/commonTest/kotlin/com/foreverrafs/superdiary/TestDataSource.kt:75-77 | `deleteAll` empties the store and publishes the empty list |
| TestDataSourceModel.TestDataSource.FetchAll | shared-ui/src/commonTest/kotlin/com/foreverrafs/superdiary/TestDataSource.kt:38-41 | `fetchAll` emits the current list and hands it out |
| TestDataSourceModel.TestDataSource.CountEntries | shared-ui/src/commonTest/kotlin/com/foreverrafs/superdiary/TestDataSource.kt:108 | `countEntries` is the number of stored records |
| DiaryListState.ContentStates | shared-ui/src/commonMain/kotlin/com/foreverrafs/superdiary/ui/feature/diarylist/model/DiaryListViewModel.kt:37-44 | one `Content` per emitted list, in order, carrying the list and the filtered flag |
| DiaryListState.CombinedFilter | shared-ui/src/commonMain/kotlin/com/foreverrafs/superdiary/ui/feature/diarylist/model/DiaryListViewModel.kt:73 | `filter { it.entry.contains(entry, false) }`: exactly the diaries whose entry contains the text, case compared, multiplicities kept |
| DiaryListState.CombinedFilterKeepsOrder | shared-ui/src/commonMain/kotlin/com/foreverrafs/superdiary/ui/feature/diarylist/model/DiaryListViewModel.kt:73 | the filter distributes over concatenation, so it keeps the order of the date search |
| DiaryListState.CombinedFilterEach | shared-ui/src/commonMain/kotlin/com/foreverrafs/superdiary/ui/feature/diarylist/model/DiaryListViewModel.kt:69-78 | the combined filter applied to every list the date search emits |
| DiaryListState.CombinedFilterEmptyEntry | shared-ui/src/commonMain/kotlin/com/foreverrafs/superdiary/ui/feature/diarylist/model/DiaryListViewModel.kt:73 | an empty text keeps the whole date-search result |
| DiaryListState.CombinedFilterIsCaseSensitive | shared-ui/src/commonTest/kotlin/com/foreverrafs/superdiary/TestDataSource.kt:52 | the screen filter does not match "A" against "a" while the store's entry search does |
| DiaryListState.DeleteSucceeded | shared-ui/src/commonMain/kotlin/com/foreverrafs/superdiary/ui/feature/diarylist/model/DiaryListViewModel.kt:80-83 | deletion succeeds exactly when the affected rows equal the number of diaries passed |
| DiaryListState.StrictDeleteAgainstStore | shared-ui/src/commonTest/kotlin/com/foreverrafs/superdiary/TestDataSource.kt:34-36 | against the in-memory store the strict check passes iff the batch is empty or shares a record with the store |
| DiaryListState.PartlyStaleBatchReportsSuccess | shared-ui/src/commonTest/kotlin/com/foreverrafs/superdiary/TestDataSource.kt:35 | a batch of one stored and one stale diary removes one record yet is reported as fully deleted |
| DiaryListState.ToggledCopy | shared-ui/src/commonMain/kotlin/com/foreverrafs/superdiary/ui/feature/diarylist/model/DiaryListViewModel.kt:85-91 | the copy sent by `toggleFavorite` has the flag negated and every other field kept |
| DiaryListState.ToggleTwice | shared-ui/src/commonMain/kotlin/com/foreverrafs/superdiary/ui/feature/diarylist/model/DiaryListViewModel.kt:87-89 | toggling twice gives the diary back |
| DiaryListState.ToggleUpdatesStoredRecord | shared-ui/src/commonTest/kotlin/com/foreverrafs/superdiary/TestDataSource.kt:89-99 | updating the store with the toggled copy of a stored diary flips exactly that record and reports 1 |
| ListViewModel.DiaryListViewModel.constructor | shared-ui/src/commonMain/kotlin/com/foreverrafs/superdiary/ui/feature/diarylist/model/DiaryListViewModel.kt:24 | the state starts as `Loading` |
| ListViewModel.DiaryListViewModel.SetState | shared-ui/src/commonMain/kotlin/com/foreverrafs/superdiary/ui/feature/diarylist/model/DiaryListViewModel.kt:27-29 | `mutableState.update`: the new state is the one published |
| ListViewModel.DiaryListViewModel.CollectContent | shared-ui/src/commonMain/kotlin/com/foreverrafs/superdiary/ui/feature/diarylist/model/DiaryListViewModel.kt:37-44 | collecting a flow publishes one `Content` per list in order; the last one stays |
| ListViewModel.DiaryListViewModel.ObserveDiaries | shared-ui/src/commonMain/kotlin/com/foreverrafs/superdiary/ui/feature/diarylist/model/DiaryListViewModel.kt:26-45 | `observeDiaries`: `Loading`, then one unfiltered `Content` per list, then `Error` if the flow failed |
| ListViewModel.DiaryListViewModel.FilterByEntry | shared-ui/src/commonMain/kotlin/com/foreverrafs/superdiary/ui/feature/diarylist/model/DiaryListViewModel.kt:47-56 | one filtered `Content` per result list of the entry search |
| ListViewModel.DiaryListViewModel.FilterByDate | shared-ui/src/commonMain/kotlin/com/foreverrafs/superdiary/ui/feature/diarylist/model/DiaryListViewModel.kt:58-67 | one filtered `Content` per result list of the date search |
| ListViewModel.DiaryListViewModel.FilterByDateAndEntry | shared-ui/src/commonMain/kotlin/com/foreverrafs/superdiary/ui/feature/diarylist/model/DiaryListViewModel.kt:69-78 | one filtered `Content` per date-search list, narrowed by the case-sensitive entry filter |
| ListScreenModel.DiaryListScreenModel.constructor | shared-ui/src/commonMain/kotlin/com/foreverrafs/superdiary/ui/feature/diarylist/model/DiaryListScreenModel.kt:23-27 | starts `Loading` and observes all diaries at once, publishing one unfiltered `Content` per list |
| ListScreenModel.DiaryListScreenModel.SetState | shared-ui/src/commonMain/kotlin/com/foreverrafs/superdiary/ui/feature/diarylist/model/DiaryListScreenModel.kt:29-38 | the new state is the one published |
| ListScreenModel.DiaryListScreenModel.CollectContent | shared-ui/src/commonMain/kotlin/com/foreverrafs/superdiary/ui/feature/diarylist/model/DiaryListScreenModel.kt:29-38 | one `Content` per collected list, in order |
| ListScreenModel.DiaryListScreenModel.ObserveDiaries | shared-ui/src/commonMain/kotlin/com/foreverrafs/superdiary/ui/feature/diarylist/model/DiaryListScreenModel.kt:29-38 | one unfiltered `Content` per list; no `Loading` and no error state |
| ListScreenModel.DiaryListScreenModel.FilterByEntry | shared-ui/src/commonMain/kotlin/com/foreverrafs/superdiary/ui/feature/diarylist/model/DiaryListScreenModel.kt:40-49 | one filtered `Content` per result list |
| ListScreenModel.DiaryListScreenModel.FilterByDate | shared-ui/src/commonMain/kotlin/com/foreverrafs/superdiary/ui/feature/diarylist/model/DiaryListScreenModel.kt:51-60 | one filtered `Content` per result list |
| ListScreenModel.DiaryListScreenModel.FilterByDateAndEntry | shared-ui/src/commonMain/kotlin/com/foreverrafs/superdiary/ui/feature/diarylist/model/DiaryListScreenModel.kt:62-71 | one filtered `Content` per date-search list, narrowed by the case-sensitive entry filter |
| ListTab.Dispatch | shared-ui/src/commonMain/kotlin/com/foreverrafs/superdiary/ui/feature/diarylist/DiaryListTab.kt:37-58 | each of the four search actions is chosen exactly under its own condition on text and day, carrying that text and day |
| ListTab.DefaultFiltersObserveAll | shared-ui/src/commonMain/kotlin/com/foreverrafs/superdiary/ui/feature/diarylist/DiaryListTab.kt:33-35 | the default filters observe all diaries |
| ListTab.DiaryListTab.constructor | shared-ui/src/commonMain/kotlin/com/foreverrafs/superdiary/ui/feature/diarylist/DiaryListTab.kt:33-37 | starts with the default filters and launches their search |
| ListTab.DiaryListTab.ApplyFilters | shared-ui/src/commonMain/kotlin/com/foreverrafs/superdiary/ui/feature/diarylist/DiaryListTab.kt:71-73 | new filters are stored, and a search is launched only when they differ from the current ones |
| ListTab.LegacyContentStates | shared-ui/src/commonMain/kotlin/com/foreverrafs/superdiary/ui/feature/diarylist/DiaryListTab.kt:89-95 | one `Content` per emitted list, in order |
| ListTab.LegacyDiaryListScreenModel.constructor | shared-ui/src/commonMain/kotlin/com/foreverrafs/superdiary/ui/feature/diarylist/DiaryListTab.kt:83-87 | starts `Loading` and observes all diaries at once |
| ListTab.LegacyDiaryListScreenModel.CollectContent | shared-ui/src/commonMain/kotlin/com/foreverrafs/superdiary/ui/feature/diarylist/DiaryListTab.kt:89-95 | one `Content` per collected list, the last one stays |
| ListTab.LegacyDiaryListScreenModel.ObserveDiaries | shared-ui/src/commonMain/kotlin/com/foreverrafs/superdiary/ui/feature/diarylist/DiaryListTab.kt:89-95 | one `Content` per list of all diaries |
| ListTab.LegacyDiaryListScreenModel.FilterByEntry | shared-ui/src/commonMain/kotlin/com/foreverrafs/superdiary/ui/feature/diarylist/DiaryListTab.kt:97-103 | one `Content` per result list |
| ListTab.LegacyDiaryListScreenModel.FilterByDate | shared-ui/src/commonMain/kotlin/com/foreverrafs/superdiary/ui/feature/diarylist/DiaryListTab.kt:105-111 | one `Content` per result list |
| ListTab.LegacyDiaryListScreenModel.FilterByDateAndEntry | shared-ui/src/commonMain/kotlin/com/foreverrafs/superdiary/ui/feature/diarylist/DiaryListTab.kt:113-121 | one `Content` per date-search list, narrowed by the case-sensitive entry filter |
| ListScreenContent.AddOrRemove | shared-ui/src/commonMain/kotlin/com/foreverrafs/superdiary/ui/feature/diarylist/screen/DiaryListScreenContent.kt:711-714 | no id leaves the set alone; otherwise the id flips membership and nothing else changes |
| ListScreenContent.AddOrRemoveTwice | shared-ui/src/commonMain/kotlin/com/foreverrafs/superdiary/ui/feature/diarylist/screen/DiaryListScreenContent.kt:711-714 | toggling an id twice restores the selection |
| ListScreenContent.IdsOf | shared-ui/src/commonMain/kotlin/com/foreverrafs/superdiary/ui/feature/diarylist/screen/DiaryListScreenContent.kt:264-273 | the ids a group contributes are exactly the present ids of its diaries |
| ListScreenContent.IdsList | shared-ui/src/commonMain/kotlin/com/foreverrafs/superdiary/ui/feature/diarylist/screen/DiaryListScreenContent.kt:256 | `diaries.map { it.id }`, position by position |
| ListScreenContent.IsGroupSelected | shared-ui/src/commonMain/kotlin/com/foreverrafs/superdiary/ui/feature/diarylist/screen/DiaryListScreenContent.kt:255-257 | an empty group counts as selected; a diary without an id, or with an unselected id, makes its group unselected |
| ListScreenContent.GroupSelectedIff | shared-ui/src/commonMain/kotlin/com/foreverrafs/superdiary/ui/feature/diarylist/screen/DiaryListScreenContent.kt:255-257 | a group is selected exactly when every diary has an id and all are selected |
| ListScreenContent.SelectedGroupIsSelected | shared-ui/src/commonMain/kotlin/com/foreverrafs/superdiary/ui/feature/diarylist/screen/DiaryListScreenContent.kt:264-267 | after selecting a group whose diaries have ids it shows as selected |
| ListScreenContent.DeselectedGroupIsUnselected | shared-ui/src/commonMain/kotlin/com/foreverrafs/superdiary/ui/feature/diarylist/screen/DiaryListScreenContent.kt:269-272 | after deselecting a non-empty group it shows as unselected |
| ListScreenContent.SelectedOf | shared-ui/src/commonMain/kotlin/com/foreverrafs/superdiary/ui/feature/diarylist/screen/DiaryListScreenContent.kt:384 | exactly the shown diaries whose id is selected, multiplicities kept |
| ListScreenContent.ShowsDiaryList | shared-ui/src/commonMain/kotlin/com/foreverrafs/superdiary/ui/feature/diarylist/screen/DiaryListScreenContent.kt:405-413 | the list is shown whenever there are diaries, and whenever a filter is active |
| ListScreenContent.PlaceholderOnlyWhenUnfilteredAndEmpty | shared-ui/src/commonMain/kotlin/com/foreverrafs/superdiary/ui/feature/diarylist/screen/DiaryListScreenContent.kt:405-413 | the empty placeholder shows exactly for an empty, unfiltered list |
| ListScreenContent.WithEntryQuery | shared-ui/src/commonMain/kotlin/com/foreverrafs/superdiary/ui/feature/diarylist/screen/DiaryListScreenContent.kt:215-217 | a typed query replaces the entry and keeps the day of the filters |
| ListScreenContent.DeleteMessage | shared-ui/src/commonMain/kotlin/com/foreverrafs/superdiary/ui/feature/diarylist/screen/DiaryListScreenContent.kt:387-391 | the snackbar text: the selection size with " item(s) deleted!" on success, the error text otherwise |
| ListScreenContent.DiaryListContent.constructor | shared-ui/src/commonMain/kotlin/com/foreverrafs/superdiary/ui/feature/diarylist/screen/DiaryListScreenContent.kt:343-345 | the selection starts from the given ids with no dialog shown |
| ListScreenContent.DiaryListContent.InSelectionMode | shared-ui/src/commonMain/kotlin/com/foreverrafs/superdiary/ui/feature/diarylist/screen/DiaryListScreenContent.kt:417 | selection mode is on exactly while the selection is non-empty |
| ListScreenContent.DiaryListContent.AddSelection | shared-ui/src/commonMain/kotlin/com/foreverrafs/superdiary/ui/feature/diarylist/screen/DiaryListScreenContent.kt:350-354 | adds the id |
| ListScreenContent.DiaryListContent.RemoveSelection | shared-ui/src/commonMain/kotlin/com/foreverrafs/superdiary/ui/feature/diarylist/screen/DiaryListScreenContent.kt:355-359 | removes the id |
| ListScreenContent.DiaryListContent.ToggleSelection | shared-ui/src/commonMain/kotlin/com/foreverrafs/superdiary/ui/feature/diarylist/screen/DiaryListScreenContent.kt:360-362 | applies `addOrRemove` |
| ListScreenContent.DiaryListContent.CancelSelection | shared-ui/src/commonMain/kotlin/com/foreverrafs/superdiary/ui/feature/diarylist/screen/DiaryListScreenContent.kt:363-365 | clears the selection |
| ListScreenContent.DiaryListContent.SelectGroup | shared-ui/src/commonMain/kotlin/com/foreverrafs/superdiary/ui/feature/diarylist/screen/DiaryListScreenContent.kt:264-268 | adds the present ids of the group |
| ListScreenContent.DiaryListContent.DeselectGroup | shared-ui/src/commonMain/kotlin/com/foreverrafs/superdiary/ui/feature/diarylist/screen/DiaryListScreenContent.kt:269-273 | removes the present ids of the group |
| ListScreenContent.DiaryListContent.OnClick | shared-ui/src/commonMain/kotlin/com/foreverrafs/superdiary/ui/feature/diarylist/screen/DiaryListScreenContent.kt:286-292 | in selection mode toggles the id and opens nothing; otherwise opens the diary and keeps the selection |
| ListScreenContent.DiaryListContent.OnLongClick | shared-ui/src/commonMain/kotlin/com/foreverrafs/superdiary/ui/feature/diarylist/screen/DiaryListScreenContent.kt:293-295 | always toggles the id |
| ListScreenContent.DiaryListContent.RequestDelete | shared-ui/src/commonMain/kotlin/com/foreverrafs/superdiary/ui/feature/diarylist/screen/DiaryListScreenContent.kt:421-424 | the handed ids become the selection and the dialog opens |
| ListScreenContent.DiaryListContent.DismissDelete | shared-ui/src/commonMain/kotlin/com/foreverrafs/superdiary/ui/feature/diarylist/screen/DiaryListScreenContent.kt:376-379 | closes the dialog and keeps the selection |
| ListScreenContent.DiaryListContent.ConfirmDelete | shared-ui/src/commonMain/kotlin/com/foreverrafs/superdiary/ui/feature/diarylist/screen/DiaryListScreenContent.kt:380-398 | closes the dialog, passes the selected shown diaries, reports `DeleteMessage` of the outcome and clears the selection |
| Dashboard.ContentFor | shared-ui/src/commonMain/kotlin/com/foreverrafs/superdiary/ui/feature/dashboard/DashboardViewModel.kt:53-67 | the content for a list: its 4 newest diaries, the total, the intro text for no diaries or the placeholder, an empty streak |
| Dashboard.WithSummary | shared-ui/src/commonMain/kotlin/com/foreverrafs/superdiary/ui/feature/dashboard/DashboardViewModel.kt:76-93 | only a `Content` state takes the new summary; every other field and every other state stay |
| Dashboard.WithStreak | shared-ui/src/commonMain/kotlin/com/foreverrafs/superdiary/ui/feature/dashboard/DashboardViewModel.kt:154-158 | only a `Content` state takes the new streak; every other field and every other state stay |
| Dashboard.WholeDaysAtMostSeven | shared-ui/src/commonMain/kotlin/com/foreverrafs/superdiary/ui/feature/dashboard/DashboardViewModel.kt:102-104 | an age of at most 7 whole days, truncated toward zero, is an age below eight full days |
| Dashboard.IsFresh | shared-ui/src/commonMain/kotlin/com/foreverrafs/superdiary/ui/feature/dashboard/DashboardViewModel.kt:102-104 | a stored summary is reused exactly when it is younger than eight full days (one dated in the future too) |
| Dashboard.ApplyChunk | shared-ui/src/commonMain/kotlin/com/foreverrafs/superdiary/ui/feature/dashboard/DashboardViewModel.kt:135-145 | a chunk replaces the placeholder and is appended to any other text |
| Dashboard.StreamChunks | shared-ui/src/commonMain/kotlin/com/foreverrafs/superdiary/ui/feature/dashboard/DashboardViewModel.kt:135-145 | collecting chunks changes only the summary of a `Content` state, which is present after any chunk; other states stay |
| Dashboard.StreamedSummaryIsConcatenation | shared-ui/src/commonMain/kotlin/com/foreverrafs/superdiary/ui/feature/dashboard/DashboardViewModel.kt:135-145 | streaming chunks into the placeholder shows their concatenation |
| Dashboard.CompletedState | shared-ui/src/commonMain/kotlin/com/foreverrafs/superdiary/ui/feature/dashboard/DashboardViewModel.kt:117-124 | on completion a summary still equal to the placeholder becomes the error text; anything else stays |
| Dashboard.PersistedOnCompletion | shared-ui/src/commonMain/kotlin/com/foreverrafs/superdiary/ui/feature/dashboard/DashboardViewModel.kt:126-133 | on completion the shown summary is persisted unless it is absent or the placeholder |
| Dashboard.GenerationOutcome | shared-ui/src/commonMain/kotlin/com/foreverrafs/superdiary/ui/feature/dashboard/DashboardViewModel.kt:112-146 | no chunk ends in the error text with nothing persisted; chunks end with their concatenation shown and persisted |
| Dashboard.LaunchedForStep | shared-ui/src/commonMain/kotlin/com/foreverrafs/superdiary/ui/feature/dashboard/DashboardViewModel.kt:69-72 | a further list launches the jobs exactly when it is non-empty |
| Dashboard.LaunchedForIsFilter | shared-ui/src/commonMain/kotlin/com/foreverrafs/superdiary/ui/feature/dashboard/DashboardViewModel.kt:69-72 | the lists that launch the jobs are the non-empty ones, each time it is published, in order |
| Dashboard.LaunchedForNonEmpty | shared-ui/src/commonMain/kotlin/com/foreverrafs/superdiary/ui/feature/dashboard/DashboardViewModel.kt:69-72 | exactly the non-empty lists launch the summary and streak jobs |
| Dashboard.DashboardViewModel.constructor | shared-ui/src/commonMain/kotlin/com/foreverrafs/superdiary/ui/feature/dashboard/DashboardViewModel.kt:27 | the state starts as `Loading` |
| Dashboard.DashboardViewModel.OnDiaries | shared-ui/src/commonMain/kotlin/com/foreverrafs/superdiary/ui/feature/dashboard/DashboardViewModel.kt:49-72 | one list publishes its content and launches the jobs iff it is non-empty |
| Dashboard.DashboardViewModel.LoadDashboardContent | shared-ui/src/commonMain/kotlin/com/foreverrafs/superdiary/ui/feature/dashboard/DashboardViewModel.kt:38-74 | the last list's content is shown (or `Loading` after a failure); the jobs are launched for exactly the non-empty lists |
| Dashboard.DashboardViewModel.GenerateWeeklySummary | shared-ui/src/commonMain/kotlin/com/foreverrafs/superdiary/ui/feature/dashboard/DashboardViewModel.kt:95-146 | a fresh stored summary is shown without calling the generator; otherwise the streamed, completed summary is shown and persisted |
| Dashboard.DashboardViewModel.CalculateStreak | shared-ui/src/commonMain/kotlin/com/foreverrafs/superdiary/ui/feature/dashboard/DashboardViewModel.kt:148-159 | the computed streak is shown if the state is `Content` |
| LegacyDashboard.ContentFor | shared-ui/src/commonMain/kotlin/com/foreverrafs/superdiary/ui/feature/dashboard/DashboardScreen.kt:85-98 | the content for a list: its 2 newest diaries, the total, the intro or placeholder text, streak 0 and dates "-" |
| LegacyDashboard.OldestFirst | shared-ui/src/commonMain/kotlin/com/foreverrafs/superdiary/ui/feature/dashboard/DashboardScreen.kt:122 | `sortedBy { it.date }`: a permutation in non-decreasing date order |
| LegacyDashboard.Windowed | shared-ui/src/commonMain/kotlin/com/foreverrafs/superdiary/ui/feature/dashboard/DashboardScreen.kt:123 | every pair of neighbours, in order: size - 1 windows |
| LegacyDashboard.IsStreakPair | shared-ui/src/commonMain/kotlin/com/foreverrafs/superdiary/ui/feature/dashboard/DashboardScreen.kt:124-126 | a diary followed by one on the next calendar day (month and year ends included) is a pair; two on the same day are not |
| LegacyDashboard.Flatten | shared-ui/src/commonMain/kotlin/com/foreverrafs/superdiary/ui/feature/dashboard/DashboardScreen.kt:127 | both diaries of every window, in order: twice as many diaries as windows |
| LegacyDashboard.StreakDiaries | shared-ui/src/commonMain/kotlin/com/foreverrafs/superdiary/ui/feature/dashboard/DashboardScreen.kt:121-127 | an even number of the given diaries, positions 2i and 2i + 1 always forming a streak pair |
| LegacyDashboard.StreakIsTwicePairs | shared-ui/src/commonMain/kotlin/com/foreverrafs/superdiary/ui/feature/dashboard/DashboardScreen.kt:121-127 | the streak counts two diaries per adjacent pair one day apart |
| LegacyDashboard.NoStreakBelowTwoDiaries | shared-ui/src/commonMain/kotlin/com/foreverrafs/superdiary/ui/feature/dashboard/DashboardScreen.kt:121-127 | fewer than two diaries have no streak |
| LegacyDashboard.ConsecutiveDaysStreak | shared-ui/src/commonMain/kotlin/com/foreverrafs/superdiary/ui/feature/dashboard/DashboardScreen.kt:121-131 | n diaries on n consecutive calendar days, across month and year ends, count 2(n - 1), not n |
| LegacyDashboard.WindowsOfSortedAreChained | shared-ui/src/commonMain/kotlin/com/foreverrafs/superdiary/ui/feature/dashboard/DashboardScreen.kt:122-123 | the windows of a date-sorted list are in date order and chained |
| LegacyDashboard.FlattenInDateOrder | shared-ui/src/commonMain/kotlin/com/foreverrafs/superdiary/ui/feature/dashboard/DashboardScreen.kt:127 | flattening chained windows gives non-decreasing dates |
| LegacyDashboard.StreakInDateOrder | shared-ui/src/commonMain/kotlin/com/foreverrafs/superdiary/ui/feature/dashboard/DashboardScreen.kt:121-127 | the streak diaries come in non-decreasing date order |
| LegacyDashboard.MonthAndDayApartIsStreakPair | shared-ui/src/commonMain/kotlin/com/foreverrafs/superdiary/ui/feature/dashboard/DashboardScreen.kt:125 | diaries on 31 Jan and 1 Mar 2023 are a streak pair (only the days part of the period is compared) |
| LegacyDashboard.StreakDatesText | shared-ui/src/commonMain/kotlin/com/foreverrafs/superdiary/ui/feature/dashboard/DashboardScreen.kt:132 | the formatted dates joined with " - ": empty for no diary, a single date for one |
| LegacyDashboard.AppendChunks | shared-ui/src/commonMain/kotlin/com/foreverrafs/superdiary/ui/feature/dashboard/DashboardScreen.kt:111-117 | no chunk leaves the summary as it was; any chunk makes it present, ending with the last chunk |
| LegacyDashboard.AppendChunksKeepsText | shared-ui/src/commonMain/kotlin/com/foreverrafs/superdiary/ui/feature/dashboard/DashboardScreen.kt:111-117 | chunks are appended to the shown text (the placeholder is kept; absent reads as "null") |
| LegacyDashboard.WithChunks | shared-ui/src/commonMain/kotlin/com/foreverrafs/superdiary/ui/feature/dashboard/DashboardScreen.kt:111-117 | only a `Content` state takes the appended summary |
| LegacyDashboard.DashboardScreenModel.constructor | shared-ui/src/commonMain/kotlin/com/foreverrafs/superdiary/ui/feature/dashboard/DashboardScreen.kt:66 | the state starts as `Loading` |
| LegacyDashboard.DashboardScreenModel.OnDiaries | shared-ui/src/commonMain/kotlin/com/foreverrafs/superdiary/ui/feature/dashboard/DashboardScreen.kt:79-98 | jobs are launched iff the list is non-empty, then its content is shown |
| LegacyDashboard.DashboardScreenModel.LoadDashboardContent | shared-ui/src/commonMain/kotlin/com/foreverrafs/superdiary/ui/feature/dashboard/DashboardScreen.kt:78-100 | the last list's content is shown; the jobs are launched for exactly the non-empty lists |
| LegacyDashboard.DashboardScreenModel.GenerateWeeklySummary | shared-ui/src/commonMain/kotlin/com/foreverrafs/superdiary/ui/feature/dashboard/DashboardScreen.kt:102-118 | the chunks are appended; a generator failure makes a `Content` summary absent |
| LegacyDashboard.DashboardScreenModel.CalculateStreak | shared-ui/src/commonMain/kotlin/com/foreverrafs/superdiary/ui/feature/dashboard/DashboardScreen.kt:120-135 | a `Content` state shows the streak count and its joined dates |
| UseCases.AddDiary | shared-data/src/commonMain/kotlin/com/foreverrafs/superdiary/data/usecase/AddDiaryUseCase.kt:13-28 | validation first; IllegalArgument from validation or add gives `Failure` (add not reached after a failed validation); other exceptions propagate; success holds the diary |
| UseCases.AddSuccessHoldsTheDiary | shared-data/src/commonMain/kotlin/com/foreverrafs/superdiary/data/usecase/AddDiaryUseCase.kt:21 | a success holds exactly the diary and implies validation and add both passed |
| UseCases.AddDiaryToStore | shared-data/src/commonMain/kotlin/com/foreverrafs/superdiary/data/usecase/AddDiaryUseCase.kt:13-28 | against the in-memory store the diary is appended, and the new list published, exactly when validation passes; a rejected diary changes nothing |
| UseCases.UpdateDiary | shared-data/src/commonMain/kotlin/com/foreverrafs/superdiary/data/usecase/UpdateDiaryUseCase.kt:14-20 | a count other than 0 is true, 0 is false; IOException gives `Failure`, other exceptions propagate |
| UseCases.UpdateAgainstStore | shared-data/src/commonMain/kotlin/com/foreverrafs/superdiary/data/usecase/UpdateDiaryUseCase.kt:16 | against the in-memory store the use case reports true exactly when a record has the id |
| UseCases.ToggleFavoriteAgainstStore | shared-ui/src/commonMain/kotlin/com/foreverrafs/superdiary/ui/feature/diarylist/model/DiaryListViewModel.kt:85-91 | toggling the favorite reports true exactly when the store holds the diary's id |
| RandomDiaries.FixtureDiary | shared-data/src/commonTest/kotlin/com/foreverrafs/superdiary/diary/usecase/InsertRandomDiaries.kt:18-24 | the i-th diary: no id, entry "Diary Entry #i", not favorite, dated i days after the start |
| RandomDiaries.FixtureDiaries | shared-data/src/commonTest/kotlin/com/foreverrafs/superdiary/diary/usecase/InsertRandomDiaries.kt:17-27 | count diaries (none for count <= 0), the i-th being the i-th fixture diary |
| RandomDiaries.StartsOnMarchThird | shared-data/src/commonTest/kotlin/com/foreverrafs/superdiary/diary/usecase/InsertRandomDiaries.kt:15-16 | the start instant falls on 3 March 2023 |
| RandomDiaries.NextDiaryIsNextDay | shared-data/src/commonTest/kotlin/com/foreverrafs/superdiary/diary/usecase/InsertRandomDiaries.kt:26 | each diary is dated exactly one day after the previous one |
| RandomDiaries.InsertPublications | shared-data/src/commonTest/kotlin/com/foreverrafs/superdiary/diary/usecase/InsertRandomDiaries.kt:17-27 | the k-th list published during the inserts is the old records followed by the first k + 1 fixture diaries |
| RandomDiaries.InsertRandomDiaries | shared-data/src/commonTest/kotlin/com/foreverrafs/superdiary/diary/usecase/InsertRandomDiaries.kt:11-29 | the store ends with its old records followed by the count fixture diaries, in order, having published the list after every insert |
| RandomDiaries.InsertDefault | shared-data/src/commonTest/kotlin/com/foreverrafs/superdiary/diary/usecase/InsertRandomDiaries.kt:11 | with the default count an empty store ends with 30 records |
| DiaryMapperModel.MapToDomain | app/src/main/java/com/foreverrafs/superdiary/data/local/mapper/DiaryMapper.kt:9-16 | fields copied, the date parsed; a date that does not parse fails the mapping |
| DiaryMapperModel.MapToEntity | app/src/main/java/com/foreverrafs/superdiary/data/local/mapper/DiaryMapper.kt:18-25 | fields copied, the date rendered so that it parses back, an absent id stored as 0 |
| DiaryMapperModel.DomainRoundTrip | app/src/main/java/com/foreverrafs/superdiary/data/local/mapper/DiaryMapper.kt:9-25 | to the row and back is the identity for a diary with an id and gives id 0 otherwise |
| DiaryMapperModel.EntityRoundTrip | app/src/main/java/com/foreverrafs/superdiary/data/local/mapper/DiaryMapper.kt:9-25 | a row whose date text is a rendering survives the trip to the domain and back |
| DiaryMapperModel.MapToEntities | app/src/main/java/com/foreverrafs/superdiary/data/local/mapper/DiaryMapper.kt:27-31 | every diary mapped, in order |
| DiaryMapperModel.MapToDomains | app/src/main/java/com/foreverrafs/superdiary/data/local/mapper/DiaryMapper.kt:33-37 | succeeds exactly when every row maps, position by position; otherwise fails with the first failing row's error |
| DiaryMapperModel.DomainListRoundTrip | app/src/main/java/com/foreverrafs/superdiary/data/local/mapper/DiaryMapper.kt:27-37 | a list of diaries with ids survives the list trip to the database and back |
| WeekHeader.RotateRight | calendar/src/main/java/io/github/boguszpawlowski/composecalendar/week/DefaultWeekHeader.kt:60 | negative n throws IllegalArgument; 0 <= n <= size moves the last n elements to the front; larger n keeps the order |
| WeekHeader.RotateRightIsPermutation | calendar/src/main/java/io/github/boguszpawlowski/composecalendar/week/DefaultWeekHeader.kt:60 | rotation keeps length and elements, moving each element n places right with wrap-around |
| WeekHeader.RotateRightByOne | calendar/src/main/java/io/github/boguszpawlowski/composecalendar/week/DefaultWeekHeader.kt:60 | rotating by one moves the last day to the front |
| AppScenarios.Retry | androidApp/benchmark/src/main/java/com/foreverrafs/benchmark/AppScenarios.kt:108-120 | at most maxRetries runs, stopping at the first success; after maxRetries failures the last exception is rethrown; a pause after every failed run except the last |
| AppScenarios.RunAction | androidApp/benchmark/src/main/java/com/foreverrafs/benchmark/AppScenarios.kt:84-106 | a missing object fails before any run; otherwise 1 to 6 runs, rethrowing only after six failures |
| TestUtils.AwaitUntil | shared-ui/src/commonTest/kotlin/com/foreverrafs/superdiary/ui/Utils.kt:5-15 | returns the first delivered item satisfying the predicate after consuming exactly the items up to it; with no such item it fails after consuming all |

## Left out

- Concurrency: launched coroutines, their interleaving and cancellation, and the `replay = 1` buffering of the shared flow. Each launch is modelled as processing its whole input flow at once, in call order.
- Aliasing: the store publishes its own mutable list, so collectors can later see it change. The model publishes a copy of the list as it was.
- Time zones: `toDate`, `currentSystemDefault` and `format` are taken in UTC. A day is always 86 400 000 ms, so daylight-saving days are not modelled.
- Case folding is ASCII only, and strings are sequences of characters with no Unicode normalisation.
- The date format `"MMM dd"` of the older dashboard is a parameter. The dates in the view-model dashboard's `Streak` are taken to be `LocalDate`s.
- `DiaryMapperModel.MapToDomain`: `LocalDateTime` is a whole number rendered in decimal, not the ISO-8601 text form. Only the parse/render round trip is modelled.
- `GetAllDiariesUseCase`, the search use cases, `CalculateStreakUseCase`, `GetWeeklySummaryUseCase`, `AddWeeklySummaryUseCase` and `DiaryAI` are not part of this model. Their results are inputs to the methods: lists, chunks, a stored summary or a streak.
- The clock (`Clock.System.now()`) is a parameter.
- Logging, snackbar display and the rest of the Compose UI (layout, bottom sheets, navigation) are left out.
- `TestDataSource.insertWeeklySummary` does nothing, and `getWeeklySummary` returns a constant summary stamped with the current time. Neither is modelled.
- `AppScenarios.Retry`: the sleep is counted in milliseconds, not slept.
- `AppScenarios.RunAction`: the UI object lookup is reduced to whether the object appears within the timeout, and the action's outcome on each run is a parameter.
- `TestUtils.AwaitUntil`: Turbine's timeout and its distinction between completion and error are one absent result.
- `Dashboard.DashboardViewModel.LoadDashboardContent`: which jobs run is stated, not what they later write into the state. That is modelled by the `GenerateWeeklySummary` and `CalculateStreak` methods.
- `LegacyDashboard.IsStreakPair`: there is no general proof that `Calendar.CivilFromDays` yields a valid date, so both of its guarantees assume that the first diary's date converts to a valid date.
- `LegacyDashboard.ConsecutiveDaysStreak`: it assumes what is stated about the converted dates (each valid, each the calendar successor of the one before). That consecutive epoch days convert to successive dates is not proved.
- `LegacyDashboard.StreakDatesText` states only the cases of no diary and one diary, not the general join.
