/** `AddDiaryUseCase` and `UpdateDiaryUseCase`: one or two calls into the
    data source inside a try/catch that turns one kind of exception into
    `Result.Failure` and lets every other kind through. A call into the
    data source or the validator is described by what it did: returned a
    value or threw an exception. */
module UseCases {
  import opened KotlinStd
  import opened DiaryModel
  import opened TestDataSourceModel
  import DiaryListState

  /** What a call did. */
  datatype Call<T> = Returned(value: T) | Threw(exception: Exception)

  /** What a use case ends with: one of its `Result` values, or an exception
      it does not catch and that reaches its caller. */
  datatype Outcome<T> = Success(data: T) | Failure(error: Exception) | Propagated(exception: Exception)

  /** `AddDiaryUseCase.invoke`, with whether `add` was reached. */
  datatype AddOutcome = AddOutcome(result: Outcome<seq<Diary>>, addCalled: bool)

  /** Validates the diary, then adds it. An `IllegalArgumentException` from
      either step becomes `Failure`; any other exception propagates. The
      number `add` returns is ignored. */
  function AddDiary(diary: Diary, validate: Diary -> Option<Exception>, add: Diary -> Call<int>): (r: AddOutcome)
    ensures r.addCalled <==> validate(diary).None?
    ensures validate(diary).Some? && validate(diary).value.kind == IllegalArgument
      ==> r.result == Failure(validate(diary).value)
    ensures validate(diary).Some? && validate(diary).value.kind != IllegalArgument
      ==> r.result == Propagated(validate(diary).value)
    ensures validate(diary).None? && add(diary).Returned? ==> r.result == Success([diary])
    ensures validate(diary).None? && add(diary).Threw? && add(diary).exception.kind == IllegalArgument
      ==> r.result == Failure(add(diary).exception)
    ensures validate(diary).None? && add(diary).Threw? && add(diary).exception.kind != IllegalArgument
      ==> r.result == Propagated(add(diary).exception)
  {
    match validate(diary)
    case Some(e) =>
      AddOutcome(if e.kind == IllegalArgument then Failure(e) else Propagated(e), false)
    case None =>
      match add(diary)
      case Returned(_) => AddOutcome(Success([diary]), true)
      case Threw(e) => AddOutcome(if e.kind == IllegalArgument then Failure(e) else Propagated(e), true)
  }

  /** A successful add holds exactly the diary passed in, which the
      validator accepted. */
  lemma AddSuccessHoldsTheDiary(diary: Diary, validate: Diary -> Option<Exception>, add: Diary -> Call<int>)
    requires AddDiary(diary, validate, add).result.Success?
    ensures AddDiary(diary, validate, add).result.data == [diary]
    ensures validate(diary).None? && add(diary).Returned?
  {
  }

  /** `add` of the in-memory store, as a call: it always returns 1. */
  function StoreAdd(diary: Diary): Call<int> {
    Returned(1)
  }

  /** The add use case run against the in-memory store: the store grows by
      the diary, and publishes its new list, exactly when the validator
      accepts it. */
  method AddDiaryToStore(store: TestDataSource, diary: Diary, validate: Diary -> Option<Exception>)
    returns (result: Outcome<seq<Diary>>)
    modifies store
    ensures result == AddDiary(diary, validate, StoreAdd).result
    ensures validate(diary).None? ==> store.diaries == old(store.diaries) + [diary]
    ensures validate(diary).None? ==> store.published == old(store.published) + [store.diaries]
    ensures validate(diary).Some? ==> store.diaries == old(store.diaries) && store.published == old(store.published)
  {
    var verdict := validate(diary);
    if verdict.Some? {
      result := if verdict.value.kind == IllegalArgument then Failure(verdict.value) else Propagated(verdict.value);
    } else {
      var written := store.Add(diary);
      result := Success([diary]);
    }
  }

  /** `UpdateDiaryUseCase.invoke`: `update` is called once with the diary
      unchanged; a count other than 0 means true, 0 means false (not a
      failure); an `IOException` becomes `Failure` and anything else
      propagates. */
  function UpdateDiary(diary: Diary, update: Diary -> Call<int>): (r: Outcome<bool>)
    ensures update(diary).Returned? ==> r == Success(update(diary).value != 0)
    ensures update(diary).Threw? && update(diary).exception.kind == IO ==> r == Failure(update(diary).exception)
    ensures update(diary).Threw? && update(diary).exception.kind != IO ==> r == Propagated(update(diary).exception)
  {
    match update(diary)
    case Returned(n) => Success(n != 0)
    case Threw(e) => if e.kind == IO then Failure(e) else Propagated(e)
  }

  /** Against the in-memory store, the update use case reports true
      exactly when some stored record has the diary's id. */
  lemma UpdateAgainstStore(stored: seq<Diary>, diary: Diary)
    ensures UpdateDiary(diary, (d: Diary) => Returned(UpdateCount(stored, d)))
         == Success(exists k :: 0 <= k < |stored| && stored[k].id == diary.id)
  {
    var n := UpdateCount(stored, diary);
    assert n == 0 || n == 1 by {
      assert n == (if IndexOfId(stored, diary.id) == -1 then 0 else 1);
    }
  }

  /** `toggleFavorite` through the update use case against the in-memory
      store: it reports true exactly when a stored record has the diary's
      id, whatever its flag was. */
  lemma ToggleFavoriteAgainstStore(stored: seq<Diary>, diary: Diary)
    ensures UpdateDiary(DiaryListState.ToggledCopy(diary), (d: Diary) => Returned(UpdateCount(stored, d)))
         == Success(exists k :: 0 <= k < |stored| && stored[k].id == diary.id)
  {
    UpdateAgainstStore(stored, DiaryListState.ToggledCopy(diary));
  }
}
