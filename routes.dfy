/**
 * The request handlers of app.js that validate a body and then change the
 * collection: POST /movies and PATCH /movies/:id. The fresh id of a new
 * movie (`crypto.randomUUID()`) is a parameter that must not already be in
 * use.
 *
 * `PostMovie` and `PatchMovie` are the corrected handlers: they reject a
 * body that fails validation and store what the validator returned. The
 * members after them model the code as it stands. The guard of both
 * handlers (app.js:44, app.js:60) tests the wrapper object the parse
 * returns, which is always truthy. POST builds its record from that wrapper
 * instead of from its data (app.js:48); that record is modelled as an
 * object, not as an entry of the store. PATCH as written is modelled in
 * full by `PatchMovieAsWritten`.
 */
module Routes {
  import opened Wrappers
  import opened Json
  import opened Movies
  import opened Collection

  datatype PatchOutcome = Rejected(issues: seq<Issue>) | NotFound | Updated(movie: Movie)

  /**
   * POST /movies: validate the body against the full schema; on failure
   * report the issues and leave the collection alone, otherwise append the
   * validated record under the fresh id.
   */
  method PostMovie(store: MovieStore, id: string, body: Value, isUrl: string -> bool)
      returns (r: Result<Movie, seq<Issue>>)
    requires forall k :: 0 <= k < |store.movies| ==> store.movies[k].id != id
    modifies store
    ensures var v := ValidateFull(body, isUrl);
            if v.Err? then r == Err(v.error) && store.movies == old(store.movies)
            else r == Ok(Movie(id, v.value)) && store.movies == old(store.movies) + [r.value]
    ensures AllConform(old(store.movies), isUrl) ==> AllConform(store.movies, isUrl)
    ensures UniqueIds(old(store.movies)) ==> UniqueIds(store.movies)
  {
    var result := ValidateFull(body, isUrl);
    if result.Err? {
      return Err(result.error);
    }
    var m := store.Insert(id, result.value);
    r := Ok(m);
  }

  /**
   * PATCH /movies/:id: validate the body against the partial schema; on
   * failure report the issues, otherwise merge it into the first movie with
   * the id. Both a rejected body and an unknown id leave the collection alone.
   */
  method PatchMovie(store: MovieStore, id: string, body: Value, isUrl: string -> bool)
      returns (r: PatchOutcome)
    modifies store
    ensures var v := ValidatePartial(body, isUrl);
            var i := FirstIndex(old(store.movies), id);
            if v.Err? then r == Rejected(v.error) && store.movies == old(store.movies)
            else if i == -1 then r == NotFound && store.movies == old(store.movies)
            else r == Updated(Merge(old(store.movies)[i], v.value))
                 && store.movies == old(store.movies)[i := r.movie]
    ensures AllConform(old(store.movies), isUrl) ==> AllConform(store.movies, isUrl)
    ensures UniqueIds(old(store.movies)) ==> UniqueIds(store.movies)
  {
    var result := ValidatePartial(body, isUrl);
    if result.Err? {
      return Rejected(result.error);
    }
    ghost var before := store.movies;
    var u := store.Update(id, result.value);
    if u.None? {
      r := NotFound;
    } else {
      r := Updated(u.value);
      UpdateConforms(before, FirstIndex(before, id), result.value, isUrl);
    }
  }

  /** Replacing one movie by its merge with a conforming patch keeps the whole collection conforming. */
  lemma UpdateConforms(ms: seq<Movie>, i: int, p: PartialMovie, isUrl: string -> bool)
    requires 0 <= i < |ms| && PartialConforms(p, isUrl)
    ensures AllConform(ms, isUrl) ==> AllConform(ms[i := Merge(ms[i], p)], isUrl)
  {
    if AllConform(ms, isUrl) {
      MergeConforms(ms[i], p, isUrl);
    }
  }

  // ---------------------------------------------------------------------------
  // The handlers as written
  // ---------------------------------------------------------------------------

  /** A validation issue as its path: `[]` for the body itself, `[key]` for a field. */
  function IssuePath(i: Issue): Value
  {
    match i
    case NotAnObject => Array([])
    case Missing(f) => Array([String(Key(f))])
    case Malformed(f) => Array([String(Key(f))])
  }

  /** The error object of a failed parse, kept as the list of its issues' paths. */
  function ErrorValue(issues: seq<Issue>): Value
  {
    Object(map["issues" := Array(seq(|issues|, k requires 0 <= k < |issues| => IssuePath(issues[k])))])
  }

  /** The object `safeParse` returns: `{ success: true, data }` or `{ success: false, error }`. */
  function SafeParseObject(r: Result<map<string, Value>, seq<Issue>>): (o: map<string, Value>)
    ensures o.Keys == {"success", if r.Ok? then "data" else "error"}
    ensures o["success"] == Bool(r.Ok?)
  {
    match r
    case Ok(data) => map["success" := Bool(true), "data" := Object(data)]
    case Err(issues) => map["success" := Bool(false), "error" := ErrorValue(issues)]
  }

  /** `validateMovie(body)`: the wrapper object, whose `data` is the stripped body with `rate` defaulted. */
  function FullParse(body: Value, isUrl: string -> bool): (o: map<string, Value>)
    ensures o.Keys == {"success", if ValidFull(body, isUrl) then "data" else "error"}
    ensures o["success"] == Bool(ValidFull(body, isUrl))
    ensures ValidFull(body, isUrl) ==> o["data"] == Object(WithDefaults(Strip(body.fields)))
  {
    var v := ValidateFull(body, isUrl);
    SafeParseObject(if v.Ok? then Ok(DataJson(v.value)) else Err(v.error))
  }

  /** `validatePartialMovie(body)`: the wrapper object, whose `data` is the stripped body. */
  function PartialParse(body: Value, isUrl: string -> bool): (o: map<string, Value>)
    ensures o.Keys == {"success", if ValidPartial(body, isUrl) then "data" else "error"}
    ensures o["success"] == Bool(ValidPartial(body, isUrl))
    ensures ValidPartial(body, isUrl) ==> o["data"] == Object(Strip(body.fields))
  {
    var v := ValidatePartial(body, isUrl);
    SafeParseObject(if v.Ok? then Ok(PartialJson(v.value)) else Err(v.error))
  }

  /** `!result` at app.js:44 and app.js:60: whether the 400 branch is taken. */
  predicate GuardFires(result: map<string, Value>)
  {
    !Truthy(Object(result))
  }

  /** The guard never fires, whatever the body: an invalid body is never answered with 400. */
  lemma GuardNeverFires(body: Value, isUrl: string -> bool)
    ensures !GuardFires(FullParse(body, isUrl))
    ensures !GuardFires(PartialParse(body, isUrl))
  {
  }

  /** The object POST appends as written: the id next to every key of the parse wrapper (app.js:46-49). */
  function CreatedRecordAsWritten(id: string, body: Value, isUrl: string -> bool): (o: map<string, Value>)
    ensures o.Keys == {"id", "success", if ValidateFull(body, isUrl).Ok? then "data" else "error"}
    ensures o["id"] == String(id)
  {
    map["id" := String(id)] + FullParse(body, isUrl)
  }

  /**
   * The record POST would push as written has none of the schema's fields,
   * and for a body that fails validation it would be pushed all the same,
   * with `success: false`.
   */
  lemma CreatedRecordLacksFields(id: string, body: Value, isUrl: string -> bool)
    ensures forall f :: Key(f) !in CreatedRecordAsWritten(id, body, isUrl)
    ensures ValidateFull(body, isUrl).Err? ==> CreatedRecordAsWritten(id, body, isUrl)["success"] == Bool(false)
  {
    SchemaComplete();
    var o := CreatedRecordAsWritten(id, body, isUrl);
    forall f
      ensures Key(f) !in o
    {
      assert Key(f) in SCHEMA_KEYS;
    }
  }

  /** The keys the PATCH merge takes from the parse (app.js:68): the validated fields, or none when the parse failed. */
  function SpreadData(r: Result<PartialMovie, seq<Issue>>): (p: PartialMovie)
    ensures r.Err? ==> PartialJson(p) == map[]
  {
    if r.Ok? then r.value else NO_FIELDS
  }

  /**
   * PATCH /movies/:id as written: the guard never fires, so an invalid body
   * is merged as the empty patch and the unchanged movie is reported as
   * updated.
   */
  method PatchMovieAsWritten(store: MovieStore, id: string, body: Value, isUrl: string -> bool)
      returns (r: Option<Movie>)
    modifies store
    ensures var v := ValidatePartial(body, isUrl);
            var i := FirstIndex(old(store.movies), id);
            if i == -1 then r.None? && store.movies == old(store.movies)
            else if v.Err? then r == Some(old(store.movies)[i]) && store.movies == old(store.movies)
            else r == Some(Merge(old(store.movies)[i], v.value)) && store.movies == old(store.movies)[i := r.value]
  {
    var result := ValidatePartial(body, isUrl);
    if GuardFires(PartialParse(body, isUrl)) {
      return None;
    }
    r := store.Update(id, SpreadData(result));
    if result.Err? && r.Some? {
      MergeNoFields(r.value);
      ghost var i := FirstIndex(old(store.movies), id);
      MergeNoFields(old(store.movies)[i]);
      assert old(store.movies)[i := old(store.movies)[i]] == old(store.movies);
    }
  }

  /** Witness: a body with an out-of-range year fails validation, yet as written it changes nothing and succeeds. */
  lemma InvalidPatchIgnoredAsWritten(m: Movie, isUrl: string -> bool)
    ensures var body := Object(map["year" := Number(2025.0)]);
            && ValidatePartial(body, isUrl).Err?
            && Malformed(Year) in ValidatePartial(body, isUrl).error
            && Merge(m, SpreadData(ValidatePartial(body, isUrl))) == m
  {
    var body := Object(map["year" := Number(2025.0)]);
    assert !Accepted(Year, body.fields, isUrl, false);
    MergeNoFields(m);
  }

  // ---------------------------------------------------------------------------
  // Scenarios
  // ---------------------------------------------------------------------------

  /** A year outside [1900, 2024] is reported against `year`. */
  lemma ScenarioYearOutOfRange(o: map<string, Value>, isUrl: string -> bool)
    ensures ValidateFull(Object(o["year" := Number(2025.0)]), isUrl).Err?
    ensures Malformed(Year) in ValidateFull(Object(o["year" := Number(2025.0)]), isUrl).error
  {
    assert !Accepted(Year, o["year" := Number(2025.0)], isUrl, true);
  }
}
