/** `DiaryMapper` of the Android app: it converts between the domain diary
    and the row stored in the database. The row keeps the date as text and
    the id as a plain number. A date-time is represented by a whole number
    whose text is its decimal rendering, so `toString` is `IntToString` and
    `LocalDateTime.parse` is `ParseInt`, which fails on text it cannot read. */
module DiaryMapperModel {
  import opened KotlinStd

  /** The app module's domain diary. The id is absent until the database
      assigns one. */
  datatype AppDiary = AppDiary(message: string, date: int, title: string, id: Option<int>)

  /** The database row. */
  datatype DiaryDto = DiaryDto(message: string, date: string, title: string, id: int)

  /** `mapToDomain(entity)`: copies the fields and parses the date; a date
      that does not parse throws, and so does the mapping. */
  function MapToDomain(entity: DiaryDto): (r: Result<AppDiary>)
    ensures r.Ok? <==> ParseInt(entity.date).Ok?
    ensures r.Ok? ==> r.value == AppDiary(entity.message, ParseInt(entity.date).value, entity.title, Some(entity.id))
    ensures r.Err? ==> r.error == ParseInt(entity.date).error
  {
    match ParseInt(entity.date)
    case Ok(date) => Ok(AppDiary(entity.message, date, entity.title, Some(entity.id)))
    case Err(e) => Err(e)
  }

  /** `mapToEntity(domainModel)`: copies the fields, renders the date, and
      stores an absent id as 0. */
  function MapToEntity(diary: AppDiary): (r: DiaryDto)
    ensures r.message == diary.message && r.title == diary.title
    ensures ParseInt(r.date) == Ok(diary.date)
    ensures r.id == if diary.id.Some? then diary.id.value else 0
  {
    ParseRendered(diary.date);
    DiaryDto(diary.message, IntToString(diary.date), diary.title, if diary.id.Some? then diary.id.value else 0)
  }

  /** A diary with an id survives the trip to the database and back; one
      without an id comes back with id 0. */
  lemma DomainRoundTrip(diary: AppDiary)
    ensures MapToDomain(MapToEntity(diary)) == Ok(if diary.id.Some? then diary else diary.(id := Some(0)))
  {
  }

  /** A row whose date text is the rendering of a date-time survives the
      trip to the domain and back. */
  lemma EntityRoundTrip(entity: DiaryDto, date: int)
    requires entity.date == IntToString(date)
    ensures MapToDomain(entity).Ok?
    ensures MapToEntity(MapToDomain(entity).value) == entity
  {
    ParseRendered(date);
  }

  /** `mapToEntity(list)`: every diary mapped, in order. */
  function MapToEntities(diaries: seq<AppDiary>): (r: seq<DiaryDto>)
    ensures |r| == |diaries|
    ensures forall i :: 0 <= i < |r| ==> r[i] == MapToEntity(diaries[i])
  {
    seq(|diaries|, i requires 0 <= i < |diaries| => MapToEntity(diaries[i]))
  }

  /** Row `i` is the first whose date does not parse. */
  predicate FirstFailure(entities: seq<DiaryDto>, i: int) {
    0 <= i < |entities| && MapToDomain(entities[i]).Err?
    && forall k :: 0 <= k < i ==> MapToDomain(entities[k]).Ok?
  }

  /** `mapToDomain(list)`: every row mapped, in order; the first row whose
      date does not parse stops the mapping with its exception. */
  function MapToDomains(entities: seq<DiaryDto>): (r: Result<seq<AppDiary>>)
    ensures r.Ok? <==> forall i :: 0 <= i < |entities| ==> MapToDomain(entities[i]).Ok?
    ensures r.Ok? ==> |r.value| == |entities|
    ensures r.Ok? ==> forall i :: 0 <= i < |entities| ==> Ok(r.value[i]) == MapToDomain(entities[i])
    ensures r.Err? ==> exists i :: FirstFailure(entities, i) && MapToDomain(entities[i]) == Err(r.error)
  {
    if entities == [] then Ok([])
    else
      match MapToDomain(entities[0])
      case Err(e) =>
        assert FirstFailure(entities, 0);
        Err(e)
      case Ok(first) =>
        var rest := MapToDomains(entities[1..]);
        if rest.Err? then
          var j :| FirstFailure(entities[1..], j) && MapToDomain(entities[1..][j]) == Err(rest.error);
          assert FirstFailure(entities, j + 1);
          Err(rest.error)
        else
          Ok([first] + rest.value)
  }

  /** Diaries that all have ids survive the list trip to the database and
      back. */
  lemma {:induction false} DomainListRoundTrip(diaries: seq<AppDiary>)
    requires forall i :: 0 <= i < |diaries| ==> diaries[i].id.Some?
    ensures MapToDomains(MapToEntities(diaries)) == Ok(diaries)
  {
    var entities := MapToEntities(diaries);
    forall i | 0 <= i < |diaries|
      ensures MapToDomain(entities[i]) == Ok(diaries[i])
    {
      DomainRoundTrip(diaries[i]);
    }
    var r := MapToDomains(entities);
    assert r.Ok?;
    assert r.value == diaries;
  }
}
