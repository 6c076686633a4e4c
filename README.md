# Movie collection: schema validation and in-memory store

A Dafny model of a small REST service that keeps a collection of movie
records. The model has two parts.

- **The validator (movies.js).** It is one schema with two entry points.
  `validateMovie` checks every field and gives `rate` the default 1.
  `validatePartialMovie` checks only the fields that are present. Both take
  an arbitrary parsed JSON body, drop every key the schema does not declare,
  and return either the validated record or a list of issues keyed by field.
- **The collection store (app.js).** The module-level `movies` array and
  what the route handlers do with it:
  - a case-insensitive genre filter;
  - lookups of the first movie with a given id (`find` and `findIndex`);
  - an append on create;
  - a field-by-field merge, put back at the same index, on update;
  - a splice on delete.

Files and modules:

- `wrappers.dfy` (module `Wrappers`): the `Option` and `Result` types.
- `json.dfy` (module `Json`): JSON values and JavaScript truthiness.
- `movies.dfy` (module `Movies`): the schema, the two validators and their
  properties. It covers the round trip from record to JSON object and back,
  that unknown keys are stripped, that each field's rule decides on its own,
  and that anything full validation accepts, partial validation accepts too.
- `collection.dfy` (module `Collection`): stored movies, the merge,
  the genre filter, the id lookups, and the class `MovieStore`. Its
  `Insert`, `Update` and `Remove` methods change the stored sequence in
  place.
- `routes.dfy` (module `Routes`): the POST and PATCH handlers, which run
  validation and then the store, in their corrected forms. PATCH is also
  modelled in full as the code has it. For POST as written, the model
  covers the guard and the record the handler pushes, but not the effect
  of that record on the store (see Findings).

Three things in the code become parameters:

- The URL check on `poster` is a parameter `isUrl: string -> bool`, and every
  property holds for any such predicate.
- The id of a new movie (`crypto.randomUUID()`) is a parameter. It must not
  already be in use.
- The seed file `movies.json` is the store constructor's argument.

Three consequences of the schema's rules are easy to miss:

- `title` and `director` may be empty strings, and `genre` may be an empty
  list: the schema checks the length of neither `title` nor `genre`
  (movies.js:5, movies.js:13; `EmptyTitleAndGenreAccepted`).
- `rate` must satisfy 0 < rate ≤ 10: `.positive()` rejects 0 although
  `.min(0)` is also given (movies.js:11; `RateZeroRejected`).
- Full validation fails on a missing `genre` but not on an empty one.

## Model

| member | source | states |
|---|---|---|
| `Movies.TagOf` | movies.js:14 | A string names a genre exactly when it equals one of the eleven tags, case-sensitively, and the genre found has that name. |
| `Movies.SchemaKeysAreKeys` | movies.js:4-20 | The set of keys the schema declares is exactly the keys of its seven fields. |
| `Movies.IsInteger` | movies.js:8-10 | Definition of `.int()` on a finite number: the number equals its floor. |
| `Movies.FieldOk` | movies.js:5-19 | Definition of each field's rule on a present value: `title` and `director` strings; `year` an integer in [1900, 2024]; `duration` a positive integer; `rate` a number that is positive, at most 10 and at least 0, so 0 < rate ≤ 10; `poster` a string passing the URL check; `genre` an array whose every element is one of the eleven tags. |
| `Movies.Accepted` | movies.js:4-20 | Definition: a field is acceptable when present and obeying its rule, or when absent where absence is allowed. Absence is allowed for every field under `.partial()` (movies.js:31) and only for `rate`, which has a default (movies.js:11), in the full schema. Under `.partial()` the default is not applied, so an absent `rate` stays absent: this is zod v3's behaviour, where `.partial()` wraps each field, default included, in an optional. |
| `Movies.ValidFull` | movies.js:23-25 | Definition: the body is an object and every field is acceptable under the full schema. |
| `Movies.ValidPartial` | movies.js:30-32 | Definition: the body is an object and every field is acceptable under the partial schema. |
| `Movies.IssuesOf` | movies.js:4-20 | The issue list names each missing required field and each malformed present field, and nothing else. It is empty exactly when every field is acceptable. |
| `Movies.Strip` | movies.js:4 | Definition of what `z.object` keeps of a body: exactly the keys the schema declares, with their values. Dropping undeclared keys is zod v3's default for `z.object`. |
| `Movies.WithDefaults` | movies.js:11 | Definition of `.default(1)`: a body without `rate` gets `rate` 1, and a body with one is unchanged. |
| `Movies.ParseTags` | movies.js:13-19 | An array of valid tag strings becomes a genre list that encodes back to the same array. |
| `Movies.DataFrom` | movies.js:24 | The record built from an acceptable object is that object's schema fields, with `rate` 1 when absent. It meets the year, duration, rate and poster constraints. |
| `Movies.PartialFrom` | movies.js:31 | Definition of the `data` of a successful partial parse: each present schema field converted to its typed value, each absent one `None`. Its properties are stated by `Movies.PartialFromJson`. |
| `Movies.PartialFromJson` | movies.js:31 | The partial record built from an acceptable object holds exactly the object's present schema fields and meets the constraints on them. |
| `Movies.ValidateFull` | movies.js:4-25 | Succeeds exactly when the body is an object whose required fields are all present and every present field obeys its rule. On success the record is the body's schema fields, other keys dropped and `rate` defaulted to 1. It has 1900 ≤ year ≤ 2024, duration > 0, 0 < rate ≤ 10 and a URL poster. On failure the issues are non-empty and list exactly the missing and the malformed fields, or the non-object body. |
| `Movies.ValidatePartial` | movies.js:30-32 | Succeeds exactly when the body is an object whose present fields all obey their rules. On success the partial record holds exactly the body's present schema fields. On failure no field is reported missing, and exactly the malformed fields are listed. |
| `Movies.ValidateFullOfJson` | movies.js:4-25 | Round trip: a record meeting the constraints, written as a JSON object, validates back to the same record. |
| `Movies.ValidatePartialOfJson` | movies.js:30-32 | Round trip: a partial record meeting the constraints, written as a JSON object, validates back to itself. |
| `Movies.FullImpliesPartial` | movies.js:23-32 | Every body that passes full validation also passes partial validation. |
| `Movies.EmptyObjectIsEmptyPatch` | movies.js:31 | `{}` passes partial validation and yields a partial record with no fields. |
| `Movies.FieldDecides` | movies.js:4-20 | When all other fields are acceptable, full validation succeeds exactly when the given field's value obeys that field's rule. |
| `Movies.OnlySchemaKeysMatter` | movies.js:4-20 | Two bodies that agree on the schema's keys get the same result from both validators, so undeclared keys have no influence. |
| `Movies.IdIsStripped` | movies.js:31 | Adding an `id` key to a body changes neither validator's result, so a patch can never carry an id. |
| `Movies.RateDefaultsToOne` | movies.js:11 | A body that passes full validation without `rate` gets rate 1. |
| `Movies.EmptyTitleAndGenreAccepted` | movies.js:5-19 | An empty title, an empty director and an empty genre list are accepted. A lower-case tag such as "comedy" is rejected. |
| `Movies.RateZeroRejected` | movies.js:11 | Rate 0 and rate 10.5 are rejected; rate 10 is accepted. |
| `Collection.MovieJson` | app.js:46-49 | A stored movie as an object has exactly the schema keys plus `id`, and its `id` is the movie's id. |
| `Collection.Apply` | app.js:66-69 | Definition of the merge on typed records: each field comes from the patch when the patch has it, otherwise from the stored record. |
| `Collection.ApplyValue` | app.js:66-69 | Each field's value after the merge is the patch's value when present, otherwise the stored one. |
| `Collection.Merge` | app.js:66-69 | The merged movie keeps the stored id. As an object it equals the stored object overlaid with the patch object, the patch's keys winning. This is the semantics of `{ ...movies[i], ...result.data }`. |
| `Collection.MergeNoFields` | app.js:66-69 | Merging an empty patch leaves the movie unchanged. |
| `Collection.MergeConforms` | app.js:66-69 | Merging a patch that meets the constraints into a movie that does yields a movie that does. |
| `Collection.Lower` | app.js:34 | `toLowerCase` on ASCII letters: the result has the same length, each upper-case ASCII letter becomes its own lower-case letter (code point plus 32), every other character is kept where it was, and no upper-case ASCII letter remains. |
| `Collection.SameIgnoringCase` | app.js:34 | Definition: two characters are equal, or are the same ASCII letter in the two cases. |
| `Collection.LowerCharAgree` | app.js:34 | Two characters lower-case alike exactly when they are the same ignoring case. |
| `Collection.LowerAgree` | app.js:34 | Two strings lower-case alike exactly when they have the same length and agree at every position ignoring case. |
| `Collection.HasTag` | app.js:34 | Definition of the `some` test: some tag of the movie equals the query once both are lower-cased. |
| `Collection.FilterByTag` | app.js:34 | The filtered list contains a movie exactly when the collection contains it and one of its tags equals the query after lower-casing. It is no longer than the collection. |
| `Collection.FilterCounts` | app.js:34 | Each matching movie occurs in the result as often as in the collection, and each non-matching movie not at all. |
| `Collection.FilterAppend` | app.js:34 | Filtering distributes over concatenation, so the result keeps the collection's relative order. |
| `Collection.FilterCaseInsensitive` | app.js:34 | Two queries that lower-case to the same string select the same list. |
| `Collection.FilterAllMatch` | app.js:34 | When every movie matches, the filter returns the collection unchanged. |
| `Collection.FilterIgnoresCase` | app.js:34 | Any two queries of the same length that agree at every position ignoring case select the same list. |
| `Collection.ComedyAnyCase` | app.js:34 | For every collection, the filter returns the same list for "comedy", "COMEDY" and "Comedy". |
| `Collection.FirstIndex` | app.js:63 | `findIndex` gives -1 exactly when no movie has the id. Otherwise it gives an index whose movie has the id, with no earlier movie having it. |
| `Collection.Find` | app.js:90 | `find` gives nothing exactly when no movie has the id. Otherwise it gives a movie of the collection with that id. |
| `Collection.FindAtFirstIndex` | app.js:90 | `find` returns the movie at the index `findIndex` reports, so it is the first match. |
| `Collection.AppendThenFind` | app.js:51 | After appending a movie under a fresh id, the lookup finds it, at the last position. |
| `Collection.SpliceRemovesId` | app.js:82 | With unique ids, splicing out the first match leaves no movie with that id. |
| `Collection.MovieStore.constructor` | app.js:3 | The store starts with the seed collection. |
| `Collection.MovieStore.ListByGenre` | app.js:31-37 | An absent or empty `genre` query returns the whole collection unchanged. Any other query returns the genre filter of the collection, so `FilterCounts` and `FilterAppend` give its multiplicities and order, and it holds exactly the movies with a tag equal to the query ignoring case. |
| `Collection.MovieStore.Insert` | app.js:46-51 | The collection becomes the old one plus the new movie at the end, carrying the fresh id and the validated fields. Unique ids stay unique. |
| `Collection.MovieStore.Update` | app.js:63-70 | For an unknown id: not found, collection unchanged. Otherwise the merged movie replaces the first match at the same index, nothing else changes, it is returned, and unique ids stay unique. |
| `Collection.MovieStore.Remove` | app.js:78-82 | Reports whether some movie has the id. If so, exactly the first match is removed, the length drops by one and the rest keep their order. Otherwise nothing changes. |
| `Routes.PostMovie` | app.js:41-51 | A body failing full validation returns its issues and leaves the collection unchanged. A valid body appends the validated record under the fresh id. Conformance and id uniqueness are preserved. |
| `Routes.PatchMovie` | app.js:58-71 | A body failing partial validation is rejected with its issues. An unknown id is not found. Both leave the collection unchanged. Otherwise the first match is replaced by its merge with the patch. Conformance and id uniqueness are preserved. |
| `Routes.UpdateConforms` | app.js:70 | Replacing one movie by its merge with a conforming patch keeps a conforming collection conforming. |
| `Routes.SafeParseObject` | movies.js:24 | The object `safeParse` returns has exactly the keys `success` plus `data` or `error`, and `success` tells which. |
| `Routes.FullParse` | movies.js:23-25 | The object `validateMovie` returns has the keys `success` plus `data` exactly when the body is valid under the full schema, otherwise `error`. Its `success` says whether the body is valid, and its `data` is the body's schema fields with `rate` defaulted to 1. |
| `Routes.PartialParse` | movies.js:30-32 | The object `validatePartialMovie` returns has the keys `success` plus `data` exactly when the body is valid under the partial schema, otherwise `error`. Its `success` says whether the body is valid, and its `data` is the body's schema fields. |
| `Routes.GuardFires` | app.js:44 | Definition of the test `!result` on the object the parse returns, as JavaScript truthiness of an object. |
| `Routes.GuardNeverFires` | app.js:44 | The guard `!result` is false for every body, on POST and on PATCH. |
| `Routes.CreatedRecordAsWritten` | app.js:46-49 | The record POST pushes as written has exactly the keys `id`, `success` and `data` (or `error`). |
| `Routes.CreatedRecordLacksFields` | app.js:48 | That record has none of the schema's keys, and for a body failing validation it has `success: false`. |
| `Routes.SpreadData` | app.js:68 | After a failed parse, spreading `result.data` contributes no keys. |
| `Routes.PatchMovieAsWritten` | app.js:58-71 | As written, an unknown id is not found. An invalid body on a known id reports the unchanged movie as updated. A valid body merges as in the corrected handler. |
| `Routes.InvalidPatchIgnoredAsWritten` | app.js:60-70 | The body `{"year": 2025}` fails partial validation against `year`, yet as written its merge leaves every movie unchanged. |
| `Routes.ScenarioYearOutOfRange` | movies.js:8 | Any body with year 2025 fails full validation with an issue against `year`. |

## Findings

| source | as written | input that shows it | evidently intended | confidence | as-written member | corrected member |
|---|---|---|---|---|---|---|
| app.js:44 | `if (!result)` tests the object `safeParse` returns, which is always truthy. So POST never answers an invalid body with 400 and goes on to store it. | any body, for example `{}` | test `!result.success`, reject with the issues, leave the collection unchanged | not executed; high | `Routes.GuardNeverFires` | `Routes.PostMovie` |
| app.js:48 | `...result` spreads the parse wrapper. The pushed movie is `{ id, success, data }` or `{ id, success: false, error }`, with no title or genre. A later genre filter would then call `.some` on `undefined`. | any body | spread `result.data`, storing the id plus the validated fields | not executed; high | `Routes.CreatedRecordLacksFields` | `Collection.MovieStore.Insert` |
| app.js:60 | The same guard on PATCH never fires. For an invalid body `result.data` is undefined, the spread adds nothing, and the unchanged movie goes back as a success. | `{"year": 2025}` sent to an existing id | reject with the issues, leave the collection unchanged | not executed; high | `Routes.InvalidPatchIgnoredAsWritten` | `Routes.PatchMovie` |

## Left out

- Express setup, JSON body parsing, routing, CORS, the `x-powered-by` header, and `app.listen`/`PORT` are transport and process start-up.
- HTTP status codes, response bodies, and the `JSON.parse(result.error.message)` error formatting are presentation. The GET-by-id and DELETE handlers are modelled only as the store operations they call (`Collection.Find`, `Collection.MovieStore.Remove`).
- `crypto.randomUUID()` is not modelled. The fresh id is a parameter, and its required absence from the collection stands in for random uniqueness, which the code never checks.
- Loading `movies.json` is not modelled. The seed is any sequence of typed movies, so seed records of another shape are not represented.
- URL parsing is replaced by the `isUrl` parameter.
- The schema is modelled under zod v3, whose API movies.js uses (`required_error` at movies.js:6 and movies.js:16). Zod 4 would apply the `rate` default even inside `.partial()`, so every PATCH without `rate` would reset it to 1. That variant is not modelled.
- `toLowerCase` is modelled on ASCII letters only. Unicode case mapping is not modelled.
- JSON numbers are reals: IEEE-754 rounding, NaN and infinities are not modelled.
- A repeated `genre` query parameter (an array, on which `toLowerCase` throws) is not modelled. The query is an optional string.
- Movies.ValidateFull: reports at most one issue per field and no messages. The library can report several issues for one field (for example a year both fractional and too small) and one per bad genre element. The order of the issues is not stated.
- Movies.ValidatePartial: as for `ValidateFull`, at most one issue per field and no messages.
- Routes.SafeParseObject: the error object is reduced to the paths of its issues.
- Routes.CreatedRecordAsWritten: the wrapper record is modelled as a JSON object only. It is not placed in the typed store, so the failures it would cause in later requests (the genre filter throwing, a PATCH merging into it) are not modelled.
- Concurrency is not modelled: each request runs to completion on one thread.
