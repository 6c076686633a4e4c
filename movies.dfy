/**
 * The movie record schema and its two validators (movies.js).
 *
 * The schema is one declaration shared by both entry points: `ValidateFull`
 * checks every field and supplies the default for `rate`; `ValidatePartial`
 * checks only the fields that are present. Both drop every key that is not in
 * the schema. Whether a poster string is a URL is left to the caller-supplied
 * predicate `isUrl`.
 */
module Movies {
  import opened Wrappers
  import opened Json

  /** The eleven genre tags the schema accepts, compared case-sensitively. */
  datatype Genre =
    | Comedy | Drama | Action | Thriller | Horror | Romance
    | SciFi | Documentary | Animation | Musical | Crime

  function TagName(g: Genre): string
  {
    match g
    case Comedy => "Comedy"
    case Drama => "Drama"
    case Action => "Action"
    case Thriller => "Thriller"
    case Horror => "Horror"
    case Romance => "Romance"
    case SciFi => "Sci-fi"
    case Documentary => "Documentary"
    case Animation => "Animation"
    case Musical => "Musical"
    case Crime => "Crime"
  }

  /** The genre a string names, if it is exactly one of the tags. */
  function TagOf(s: string): (r: Option<Genre>)
    ensures r.Some? ==> TagName(r.value) == s
    ensures forall g :: TagName(g) == s ==> r == Some(g)
  {
    if s == "Comedy" then Some(Comedy)
    else if s == "Drama" then Some(Drama)
    else if s == "Action" then Some(Action)
    else if s == "Thriller" then Some(Thriller)
    else if s == "Horror" then Some(Horror)
    else if s == "Romance" then Some(Romance)
    else if s == "Sci-fi" then Some(SciFi)
    else if s == "Documentary" then Some(Documentary)
    else if s == "Animation" then Some(Animation)
    else if s == "Musical" then Some(Musical)
    else if s == "Crime" then Some(Crime)
    else None
  }

  /** The seven fields of the schema, in declaration order. */
  datatype Field = Title | Year | Director | Duration | Rate | Poster | GenreList

  function Key(f: Field): string
  {
    match f
    case Title => "title"
    case Year => "year"
    case Director => "director"
    case Duration => "duration"
    case Rate => "rate"
    case Poster => "poster"
    case GenreList => "genre"
  }

  const SCHEMA: seq<Field> := [Title, Year, Director, Duration, Rate, Poster, GenreList]

  /** The keys the schema declares; every other key of a body is dropped. */
  const SCHEMA_KEYS: set<string> := {"title", "year", "director", "duration", "rate", "poster", "genre"}

  /** The value the schema gives `rate` when the input has none. */
  const DEFAULT_RATE: real := 1.0

  /** A successfully validated full record (`result.data` of the full schema). */
  datatype MovieData = MovieData(
    title: string,
    year: int,
    director: string,
    duration: int,
    rate: real,
    poster: string,
    genre: seq<Genre>)

  /** A successfully validated partial record: `None` for every absent field. */
  datatype PartialMovie = PartialMovie(
    title: Option<string>,
    year: Option<int>,
    director: Option<string>,
    duration: Option<int>,
    rate: Option<real>,
    poster: Option<string>,
    genre: Option<seq<Genre>>)

  const NO_FIELDS: PartialMovie := PartialMovie(None, None, None, None, None, None, None)

  /** One validation issue, keyed by the field it concerns. */
  datatype Issue =
    | NotAnObject
    | Missing(field: Field)
    | Malformed(field: Field)

  // ---------------------------------------------------------------------------
  // Per-field rules
  // ---------------------------------------------------------------------------

  /** `Number.isInteger` on a finite number. */
  predicate IsInteger(x: real)
  {
    x.Floor as real == x
  }

  predicate TagValue(v: Value)
  {
    v.String? && TagOf(v.s).Some?
  }

  /** Whether a present value satisfies the rule of field `f`. */
  predicate FieldOk(f: Field, v: Value, isUrl: string -> bool)
  {
    match f
    case Title => v.String?
    case Year => v.Number? && IsInteger(v.n) && 1900.0 <= v.n && v.n <= 2024.0
    case Director => v.String?
    case Duration => v.Number? && IsInteger(v.n) && v.n > 0.0
    case Rate => v.Number? && v.n > 0.0 && v.n <= 10.0 && v.n >= 0.0
    case Poster => v.String? && isUrl(v.s)
    case GenreList => v.Array? && forall i :: 0 <= i < |v.items| ==> TagValue(v.items[i])
  }

  /**
   * Field `f` is acceptable in object `o`: present and well-formed, or absent
   * where absence is allowed (always in partial mode; only for `rate`, which
   * has a default, in full mode).
   */
  predicate Accepted(f: Field, o: map<string, Value>, isUrl: string -> bool, full: bool)
  {
    if Key(f) in o then FieldOk(f, o[Key(f)], isUrl) else !full || f == Rate
  }

  predicate ValidFull(v: Value, isUrl: string -> bool)
  {
    v.Object? && forall f :: Accepted(f, v.fields, isUrl, true)
  }

  predicate ValidPartial(v: Value, isUrl: string -> bool)
  {
    v.Object? && forall f :: Accepted(f, v.fields, isUrl, false)
  }

  /** The constraints a validated record satisfies, stated on typed values. */
  predicate DataConforms(d: MovieData, isUrl: string -> bool)
  {
    1900 <= d.year <= 2024 && d.duration > 0 && 0.0 < d.rate <= 10.0 && isUrl(d.poster)
  }

  predicate PartialConforms(p: PartialMovie, isUrl: string -> bool)
  {
    && (p.year.Some? ==> 1900 <= p.year.value <= 2024)
    && (p.duration.Some? ==> p.duration.value > 0)
    && (p.rate.Some? ==> 0.0 < p.rate.value <= 10.0)
    && (p.poster.Some? ==> isUrl(p.poster.value))
  }

  // ---------------------------------------------------------------------------
  // Records as JSON objects
  // ---------------------------------------------------------------------------

  function TagsValue(gs: seq<Genre>): Value
  {
    Array(seq(|gs|, i requires 0 <= i < |gs| => String(TagName(gs[i]))))
  }

  /** The schema field a key names, if any: the inverse of `Key`. */
  function FieldOf(k: string): (r: Option<Field>)
    ensures r.Some? <==> k in SCHEMA_KEYS
    ensures r.Some? ==> Key(r.value) == k
  {
    if k == "title" then Some(Title)
    else if k == "year" then Some(Year)
    else if k == "director" then Some(Director)
    else if k == "duration" then Some(Duration)
    else if k == "rate" then Some(Rate)
    else if k == "poster" then Some(Poster)
    else if k == "genre" then Some(GenreList)
    else None
  }

  /** The JSON value field `f` has in a validated record. */
  function DataValue(d: MovieData, f: Field): Value
  {
    match f
    case Title => String(d.title)
    case Year => Number(d.year as real)
    case Director => String(d.director)
    case Duration => Number(d.duration as real)
    case Rate => Number(d.rate)
    case Poster => String(d.poster)
    case GenreList => TagsValue(d.genre)
  }

  /** The JSON value field `f` has in a validated partial record, if present. */
  function PartialValue(p: PartialMovie, f: Field): Option<Value>
  {
    match f
    case Title => if p.title.Some? then Some(String(p.title.value)) else None
    case Year => if p.year.Some? then Some(Number(p.year.value as real)) else None
    case Director => if p.director.Some? then Some(String(p.director.value)) else None
    case Duration => if p.duration.Some? then Some(Number(p.duration.value as real)) else None
    case Rate => if p.rate.Some? then Some(Number(p.rate.value)) else None
    case Poster => if p.poster.Some? then Some(String(p.poster.value)) else None
    case GenreList => if p.genre.Some? then Some(TagsValue(p.genre.value)) else None
  }

  /** The validated record as the plain object the validator returns. */
  function DataJson(d: MovieData): map<string, Value>
  {
    map k | k in SCHEMA_KEYS :: DataValue(d, FieldOf(k).value)
  }

  /** The validated partial record as a plain object holding only its present fields. */
  function PartialJson(p: PartialMovie): map<string, Value>
  {
    map k | k in SCHEMA_KEYS && PartialValue(p, FieldOf(k).value).Some? :: PartialValue(p, FieldOf(k).value).value
  }

  /** The keys of `o` that the schema declares; every other key is dropped. */
  function Strip(o: map<string, Value>): map<string, Value>
  {
    map k | k in o && k in SCHEMA_KEYS :: o[k]
  }

  function WithDefaults(o: map<string, Value>): map<string, Value>
  {
    if "rate" in o then o else o["rate" := Number(DEFAULT_RATE)]
  }

  // ---------------------------------------------------------------------------
  // Validation
  // ---------------------------------------------------------------------------

  /** The issue a field that is not acceptable raises: malformed when present, missing when absent. */
  function FieldIssues(f: Field, o: map<string, Value>, isUrl: string -> bool, full: bool): seq<Issue>
  {
    if Accepted(f, o, isUrl, full) then []
    else if Key(f) in o then [Malformed(f)]
    else [Missing(f)]
  }

  /** The issues of the fields `fs` of object `o`, field by field in order. */
  function IssuesOf(fs: seq<Field>, o: map<string, Value>, isUrl: string -> bool, full: bool): (r: seq<Issue>)
    ensures forall f :: Missing(f) in r <==> f in fs && full && f != Rate && Key(f) !in o
    ensures forall f :: Malformed(f) in r <==> f in fs && Key(f) in o && !FieldOk(f, o[Key(f)], isUrl)
    ensures NotAnObject !in r
    ensures r == [] <==> forall f :: f in fs ==> Accepted(f, o, isUrl, full)
  {
    if fs == [] then []
    else
      var rest := IssuesOf(fs[1..], o, isUrl, full);
      assert forall f :: f in fs <==> f == fs[0] || f in fs[1..];
      FieldIssues(fs[0], o, isUrl, full) + rest
  }

  /** Converts a validated genre array into tags. */
  function ParseTags(items: seq<Value>): (gs: seq<Genre>)
    requires forall i :: 0 <= i < |items| ==> TagValue(items[i])
    ensures TagsValue(gs) == Array(items)
  {
    var gs := seq(|items|, i requires 0 <= i < |items| && TagValue(items[i]) => TagOf(items[i].s).value);
    assert TagsValue(gs).items == items;
    gs
  }

  /** The record built from an object whose every field is acceptable in full mode. */
  function DataFrom(o: map<string, Value>, isUrl: string -> bool): (d: MovieData)
    requires forall f :: Accepted(f, o, isUrl, true)
    ensures DataJson(d) == WithDefaults(Strip(o))
    ensures DataConforms(d, isUrl)
  {
    assert Accepted(Title, o, isUrl, true) && Accepted(Year, o, isUrl, true);
    assert Accepted(Director, o, isUrl, true) && Accepted(Duration, o, isUrl, true);
    assert Accepted(Rate, o, isUrl, true) && Accepted(Poster, o, isUrl, true);
    assert Accepted(GenreList, o, isUrl, true);
    var d := MovieData(
      o["title"].s,
      o["year"].n.Floor,
      o["director"].s,
      o["duration"].n.Floor,
      if "rate" in o then o["rate"].n else DEFAULT_RATE,
      o["poster"].s,
      ParseTags(o["genre"].items));
    var w := WithDefaults(Strip(o));
    assert w.Keys <= SCHEMA_KEYS;
    forall f
      ensures Key(f) in w && DataValue(d, f) == w[Key(f)]
    {
      InSchema(f);
    }
    DataJsonOf(d, w);
    d
  }

  /** The partial record built from an object whose present fields are all acceptable. */
  function PartialFrom(o: map<string, Value>, isUrl: string -> bool): (p: PartialMovie)
    requires forall f :: Accepted(f, o, isUrl, false)
  {
    assert Accepted(Title, o, isUrl, false) && Accepted(Year, o, isUrl, false);
    assert Accepted(Director, o, isUrl, false) && Accepted(Duration, o, isUrl, false);
    assert Accepted(Rate, o, isUrl, false);
    assert Accepted(Poster, o, isUrl, false) && Accepted(GenreList, o, isUrl, false);
    PartialMovie(
      if "title" in o then Some(o["title"].s) else None,
      if "year" in o then Some(o["year"].n.Floor) else None,
      if "director" in o then Some(o["director"].s) else None,
      if "duration" in o then Some(o["duration"].n.Floor) else None,
      if "rate" in o then Some(o["rate"].n) else None,
      if "poster" in o then Some(o["poster"].s) else None,
      if "genre" in o then Some(ParseTags(o["genre"].items)) else None)
  }

  /** The partial record carries exactly the present schema fields of its object. */
  lemma PartialFromJson(o: map<string, Value>, isUrl: string -> bool)
    requires forall f :: Accepted(f, o, isUrl, false)
    ensures PartialJson(PartialFrom(o, isUrl)) == Strip(o)
    ensures PartialConforms(PartialFrom(o, isUrl), isUrl)
  {
    var p := PartialFrom(o, isUrl);
    forall f
      ensures PartialValue(p, f) == (if Key(f) in o then Some(o[Key(f)]) else None)
    {
      assert Accepted(f, o, isUrl, false);
    }
    PartialJsonOf(p, o);
    assert Accepted(Year, o, isUrl, false) && Accepted(Duration, o, isUrl, false);
    assert Accepted(Rate, o, isUrl, false) && Accepted(Poster, o, isUrl, false);
  }

  /**
   * `validateMovie`: the full schema. Succeeds exactly on objects whose every
   * field is acceptable; the record it returns is the input's schema fields,
   * with `rate` defaulted to 1 when absent. Otherwise it lists every missing
   * and every malformed field.
   */
  function ValidateFull(v: Value, isUrl: string -> bool): (r: Result<MovieData, seq<Issue>>)
    ensures r.Ok? <==> ValidFull(v, isUrl)
    ensures r.Ok? ==> DataJson(r.value) == WithDefaults(Strip(v.fields))
    ensures r.Ok? ==> DataConforms(r.value, isUrl)
    ensures r.Err? ==> r.error != [] && (NotAnObject in r.error <==> !v.Object?)
    ensures r.Err? ==> forall f ::
              && (Missing(f) in r.error <==> v.Object? && f != Rate && Key(f) !in v.fields)
              && (Malformed(f) in r.error <==> v.Object? && Key(f) in v.fields && !FieldOk(f, v.fields[Key(f)], isUrl))
  {
    if !v.Object? then Err([NotAnObject])
    else
      var issues := IssuesOf(SCHEMA, v.fields, isUrl, true);
      SchemaComplete();
      if issues != [] then Err(issues) else Ok(DataFrom(v.fields, isUrl))
  }

  /**
   * `validatePartialMovie`: the same per-field rules, applied only to the
   * fields present. Absence is never an error; the partial record returned
   * holds exactly the input's present schema fields.
   */
  function ValidatePartial(v: Value, isUrl: string -> bool): (r: Result<PartialMovie, seq<Issue>>)
    ensures r.Ok? <==> ValidPartial(v, isUrl)
    ensures r.Ok? ==> PartialJson(r.value) == Strip(v.fields)
    ensures r.Ok? ==> PartialConforms(r.value, isUrl)
    ensures r.Err? ==> r.error != [] && (NotAnObject in r.error <==> !v.Object?)
    ensures r.Err? ==> forall f ::
              && Missing(f) !in r.error
              && (Malformed(f) in r.error <==> v.Object? && Key(f) in v.fields && !FieldOk(f, v.fields[Key(f)], isUrl))
  {
    if !v.Object? then Err([NotAnObject])
    else
      var issues := IssuesOf(SCHEMA, v.fields, isUrl, false);
      SchemaComplete();
      if issues != [] then Err(issues)
      else
        PartialFromJson(v.fields, isUrl);
        Ok(PartialFrom(v.fields, isUrl))
  }

  // ---------------------------------------------------------------------------
  // Properties
  // ---------------------------------------------------------------------------

  lemma InSchema(f: Field)
    ensures f in SCHEMA && Key(f) in SCHEMA_KEYS && FieldOf(Key(f)) == Some(f)
  {
    match f
    case Title =>
    case Year =>
    case Director =>
    case Duration =>
    case Rate =>
    case Poster =>
    case GenreList =>
  }

  /** `SCHEMA_KEYS` is exactly the set of the schema fields' keys. */
  lemma SchemaKeysAreKeys()
    ensures SCHEMA_KEYS == set f | f in SCHEMA :: Key(f)
  {
    var keys := set f | f in SCHEMA :: Key(f);
    forall k | k in SCHEMA_KEYS
      ensures k in keys
    {
      var f := FieldOf(k).value;
      InSchema(f);
    }
    forall f | f in SCHEMA
      ensures Key(f) in SCHEMA_KEYS
    {
      InSchema(f);
    }
  }

  lemma SchemaComplete()
    ensures forall f :: f in SCHEMA && Key(f) in SCHEMA_KEYS && FieldOf(Key(f)) == Some(f)
  {
    forall f
      ensures f in SCHEMA && Key(f) in SCHEMA_KEYS && FieldOf(Key(f)) == Some(f)
    {
      InSchema(f);
    }
  }

  lemma KeyInjective(f: Field, g: Field)
    ensures Key(f) == Key(g) ==> f == g
  {
    InSchema(f);
    InSchema(g);
  }

  /** Distinct genre lists are encoded as distinct JSON arrays. */
  lemma TagsValueInjective(a: seq<Genre>, b: seq<Genre>)
    requires TagsValue(a) == TagsValue(b)
    ensures a == b
  {
    assert |a| == |TagsValue(a).items| == |TagsValue(b).items| == |b|;
    forall i | 0 <= i < |a|
      ensures a[i] == b[i]
    {
      assert TagsValue(a).items[i] == String(TagName(a[i]));
      assert TagsValue(b).items[i] == String(TagName(b[i]));
      assert TagOf(TagName(a[i])) == Some(a[i]);
    }
  }

  lemma DataJsonInjective(a: MovieData, b: MovieData)
    requires DataJson(a) == DataJson(b)
    ensures a == b
  {
    assert DataJson(a)["title"] == DataJson(b)["title"];
    assert DataJson(a)["year"] == DataJson(b)["year"];
    assert DataJson(a)["director"] == DataJson(b)["director"];
    assert DataJson(a)["duration"] == DataJson(b)["duration"];
    assert DataJson(a)["rate"] == DataJson(b)["rate"];
    assert DataJson(a)["poster"] == DataJson(b)["poster"];
    assert DataJson(a)["genre"] == DataJson(b)["genre"];
    TagsValueInjective(a.genre, b.genre);
  }

  lemma PartialJsonInjective(a: PartialMovie, b: PartialMovie)
    requires PartialJson(a) == PartialJson(b)
    ensures a == b
  {
    forall f
      ensures PartialValue(a, f) == PartialValue(b, f)
    {
      InSchema(f);
      var k := Key(f);
      assert k in PartialJson(a) <==> PartialValue(a, f).Some?;
      assert k in PartialJson(b) <==> PartialValue(b, f).Some?;
      if k in PartialJson(a) {
        assert PartialJson(a)[k] == PartialValue(a, f).value;
        assert PartialJson(b)[k] == PartialValue(b, f).value;
      }
    }
    assert PartialValue(a, Title) == PartialValue(b, Title);
    assert PartialValue(a, Year) == PartialValue(b, Year);
    assert PartialValue(a, Director) == PartialValue(b, Director);
    assert PartialValue(a, Duration) == PartialValue(b, Duration);
    assert PartialValue(a, Rate) == PartialValue(b, Rate);
    assert PartialValue(a, Poster) == PartialValue(b, Poster);
    assert PartialValue(a, GenreList) == PartialValue(b, GenreList);
    assert a.title == b.title && a.year == b.year && a.director == b.director;
    assert a.duration == b.duration && a.rate == b.rate && a.poster == b.poster;
    if a.genre.Some? {
      assert b.genre.Some? && TagsValue(a.genre.value) == TagsValue(b.genre.value);
      TagsValueInjective(a.genre.value, b.genre.value);
    }
  }

  /** A record whose every field has its value in `w`, where `w` holds only schema keys, is `w`. */
  lemma DataJsonOf(d: MovieData, w: map<string, Value>)
    requires w.Keys <= SCHEMA_KEYS
    requires forall f :: Key(f) in w && DataValue(d, f) == w[Key(f)]
    ensures DataJson(d) == w
  {
    var j := DataJson(d);
    forall k
      ensures (k in j <==> k in w) && (k in j ==> j[k] == w[k])
    {
      if k in SCHEMA_KEYS {
        var f := FieldOf(k).value;
        assert Key(f) == k;
      }
    }
    assert j.Keys == w.Keys;
  }

  /** A partial record whose present fields are exactly those of `o` is `o` stripped. */
  lemma PartialJsonOf(p: PartialMovie, o: map<string, Value>)
    requires forall f :: PartialValue(p, f) == (if Key(f) in o then Some(o[Key(f)]) else None)
    ensures PartialJson(p) == Strip(o)
  {
    var j, w := PartialJson(p), Strip(o);
    forall k
      ensures (k in j <==> k in w) && (k in j ==> j[k] == w[k])
    {
      if k in SCHEMA_KEYS {
        var f := FieldOf(k).value;
        assert PartialValue(p, f) == (if k in o then Some(o[k]) else None);
      }
    }
    assert j.Keys == w.Keys;
  }

  /**
   * Round trip: a record that meets the schema's constraints, written out as
   * a plain object, validates back to itself.
   */
  lemma ValidateFullOfJson(d: MovieData, isUrl: string -> bool)
    requires DataConforms(d, isUrl)
    ensures ValidateFull(Object(DataJson(d)), isUrl) == Ok(d)
  {
    var o := DataJson(d);
    forall i | 0 <= i < |d.genre|
      ensures TagValue(TagsValue(d.genre).items[i])
    {
      assert TagOf(TagName(d.genre[i])) == Some(d.genre[i]);
    }
    assert (d.year as real).Floor == d.year;
    assert (d.duration as real).Floor == d.duration;
    forall f
      ensures Accepted(f, o, isUrl, true)
    {
      InSchema(f);
    }
    var r := ValidateFull(Object(o), isUrl);
    assert Strip(o) == o;
    DataJsonInjective(r.value, d);
  }

  /** A partial record meeting the constraints validates back to itself. */
  lemma ValidatePartialOfJson(p: PartialMovie, isUrl: string -> bool)
    requires PartialConforms(p, isUrl)
    ensures ValidatePartial(Object(PartialJson(p)), isUrl) == Ok(p)
  {
    var o := PartialJson(p);
    if p.genre.Some? {
      forall i | 0 <= i < |p.genre.value|
        ensures TagValue(TagsValue(p.genre.value).items[i])
      {
        assert TagOf(TagName(p.genre.value[i])) == Some(p.genre.value[i]);
      }
    }
    if p.year.Some? {
      assert (p.year.value as real).Floor == p.year.value;
    }
    if p.duration.Some? {
      assert (p.duration.value as real).Floor == p.duration.value;
    }
    forall f
      ensures Accepted(f, o, isUrl, false)
    {
      InSchema(f);
    }
    var r := ValidatePartial(Object(o), isUrl);
    assert Strip(o) == o;
    PartialJsonInjective(r.value, p);
  }

  /** Every input the full schema accepts is accepted by the partial schema too. */
  lemma FullImpliesPartial(v: Value, isUrl: string -> bool)
    ensures ValidateFull(v, isUrl).Ok? ==> ValidatePartial(v, isUrl).Ok?
  {
    if ValidFull(v, isUrl) {
      assert forall f :: Accepted(f, v.fields, isUrl, true) ==> Accepted(f, v.fields, isUrl, false);
    }
  }

  /** An empty object passes partial validation and yields no fields. */
  lemma EmptyObjectIsEmptyPatch(isUrl: string -> bool)
    ensures ValidatePartial(Object(map[]), isUrl) == Ok(NO_FIELDS)
  {
    var r := ValidatePartial(Object(map[]), isUrl);
    assert PartialJson(NO_FIELDS) == map[];
    assert Strip(map[]) == map[];
    PartialJsonInjective(r.value, NO_FIELDS);
  }

  /**
   * With every other field acceptable, full validation accepts the object
   * exactly when field `f` carries a value its rule admits: each field's rule
   * decides on its own.
   */
  lemma FieldDecides(o: map<string, Value>, f: Field, v: Value, isUrl: string -> bool)
    requires forall g :: g != f ==> Accepted(g, o, isUrl, true)
    ensures ValidateFull(Object(o[Key(f) := v]), isUrl).Ok? <==> FieldOk(f, v, isUrl)
  {
    var o' := o[Key(f) := v];
    forall g | g != f
      ensures Accepted(g, o', isUrl, true)
    {
      KeyInjective(f, g);
      assert Accepted(g, o, isUrl, true);
    }
    assert Accepted(f, o', isUrl, true) <==> FieldOk(f, v, isUrl);
  }

  /** Issue lists depend only on the schema keys of the input. */
  lemma {:induction false} IssuesAgree(fs: seq<Field>, o1: map<string, Value>, o2: map<string, Value>, isUrl: string -> bool, full: bool)
    requires Strip(o1) == Strip(o2)
    ensures IssuesOf(fs, o1, isUrl, full) == IssuesOf(fs, o2, isUrl, full)
    decreases |fs|
  {
    if fs != [] {
      var k := Key(fs[0]);
      InSchema(fs[0]);
      assert k in o1 <==> k in Strip(o1);
      assert k in o2 <==> k in Strip(o2);
      if k in o1 {
        assert o1[k] == Strip(o1)[k] == Strip(o2)[k] == o2[k];
      }
      IssuesAgree(fs[1..], o1, o2, isUrl, full);
    }
  }

  /**
   * Keys outside the schema never influence either validator: two objects
   * that agree on the schema's keys validate to the same outcome.
   */
  lemma OnlySchemaKeysMatter(o1: map<string, Value>, o2: map<string, Value>, isUrl: string -> bool)
    requires Strip(o1) == Strip(o2)
    ensures ValidateFull(Object(o1), isUrl) == ValidateFull(Object(o2), isUrl)
    ensures ValidatePartial(Object(o1), isUrl) == ValidatePartial(Object(o2), isUrl)
  {
    IssuesAgree(SCHEMA, o1, o2, isUrl, true);
    IssuesAgree(SCHEMA, o1, o2, isUrl, false);
    var f1, f2 := ValidateFull(Object(o1), isUrl), ValidateFull(Object(o2), isUrl);
    if f1.Ok? && f2.Ok? {
      assert "rate" in o1 <==> "rate" in Strip(o1);
      assert "rate" in o2 <==> "rate" in Strip(o2);
      DataJsonInjective(f1.value, f2.value);
    }
    var p1, p2 := ValidatePartial(Object(o1), isUrl), ValidatePartial(Object(o2), isUrl);
    if p1.Ok? && p2.Ok? {
      PartialJsonInjective(p1.value, p2.value);
    }
  }

  /** An `id` key in a request body is dropped: it cannot reach the validated record. */
  lemma IdIsStripped(o: map<string, Value>, id: Value, isUrl: string -> bool)
    ensures ValidatePartial(Object(o["id" := id]), isUrl) == ValidatePartial(Object(o), isUrl)
    ensures ValidateFull(Object(o["id" := id]), isUrl) == ValidateFull(Object(o), isUrl)
  {
    assert Strip(o["id" := id]) == Strip(o);
    OnlySchemaKeysMatter(o["id" := id], o, isUrl);
  }

  /** A body that passes full validation without a `rate` gets the default rate 1. */
  lemma RateDefaultsToOne(o: map<string, Value>, isUrl: string -> bool)
    requires ValidFull(Object(o), isUrl) && "rate" !in o
    ensures ValidateFull(Object(o), isUrl).value.rate == DEFAULT_RATE
  {
    var d := ValidateFull(Object(o), isUrl).value;
    assert DataJson(d)["rate"] == Number(d.rate);
    assert WithDefaults(Strip(o))["rate"] == Number(DEFAULT_RATE);
  }

  /** The schema admits an empty title and an empty genre list: neither is checked for length. */
  lemma EmptyTitleAndGenreAccepted(isUrl: string -> bool)
    ensures FieldOk(Title, String(""), isUrl) && FieldOk(Director, String(""), isUrl)
    ensures FieldOk(GenreList, Array([]), isUrl)
    ensures !FieldOk(GenreList, Array([String("comedy")]), isUrl)
  {
    var lowerCase := Array([String("comedy")]);
    assert TagOf("comedy") == None;
    assert !TagValue(lowerCase.items[0]);
  }

  /** `rate` must be positive: 0 is rejected although the lower bound 0 is also declared. */
  lemma RateZeroRejected(isUrl: string -> bool)
    ensures !FieldOk(Rate, Number(0.0), isUrl)
    ensures FieldOk(Rate, Number(10.0), isUrl) && !FieldOk(Rate, Number(10.5), isUrl)
  {
  }
}
