/**
 * The in-memory movie collection of app.js: an ordered sequence of stored
 * movies, the genre filter and id lookups the GET handlers run over it, and
 * the append, replace-in-place and splice the POST, PATCH and DELETE handlers
 * perform on it.
 */
module Collection {
  import opened Wrappers
  import opened Json
  import opened Movies

  /** A stored movie: its server-assigned id and its validated fields. */
  datatype Movie = Movie(id: string, data: MovieData)

  /** The stored movie as a plain object: its id next to its validated fields (app.js:46-49). */
  function MovieJson(m: Movie): (o: map<string, Value>)
    ensures o.Keys == SCHEMA_KEYS + {"id"} && o["id"] == String(m.id)
  {
    map["id" := String(m.id)] + DataJson(m.data)
  }

  // ---------------------------------------------------------------------------
  // Merging a partial record into a stored one
  // ---------------------------------------------------------------------------

  function Apply(d: MovieData, p: PartialMovie): MovieData
  {
    MovieData(
      if p.title.Some? then p.title.value else d.title,
      if p.year.Some? then p.year.value else d.year,
      if p.director.Some? then p.director.value else d.director,
      if p.duration.Some? then p.duration.value else d.duration,
      if p.rate.Some? then p.rate.value else d.rate,
      if p.poster.Some? then p.poster.value else d.poster,
      if p.genre.Some? then p.genre.value else d.genre)
  }

  lemma ApplyValue(d: MovieData, p: PartialMovie, f: Field)
    ensures DataValue(Apply(d, p), f) == if PartialValue(p, f).Some? then PartialValue(p, f).value else DataValue(d, f)
  {
  }

  /**
   * The object spread of app.js:66-69: the merged record is the stored object
   * overlaid with the patch object, key by key, the patch winning. The id is
   * kept because a partial record never carries one.
   */
  function Merge(m: Movie, p: PartialMovie): (r: Movie)
    ensures r.id == m.id
    ensures MovieJson(r) == MovieJson(m) + PartialJson(p)
  {
    var r := Movie(m.id, Apply(m.data, p));
    var lhs, rhs := MovieJson(r), MovieJson(m) + PartialJson(p);
    forall k | k in SCHEMA_KEYS
      ensures lhs[k] == rhs[k]
    {
      var f := FieldOf(k).value;
      ApplyValue(m.data, p, f);
    }
    assert lhs.Keys == rhs.Keys;
    r
  }

  /** An empty patch leaves the record as it was. */
  lemma MergeNoFields(m: Movie)
    ensures Merge(m, NO_FIELDS) == m
  {
  }

  /** Merging a conforming patch into a conforming record yields a conforming record. */
  lemma MergeConforms(m: Movie, p: PartialMovie, isUrl: string -> bool)
    requires DataConforms(m.data, isUrl) && PartialConforms(p, isUrl)
    ensures DataConforms(Merge(m, p).data, isUrl)
  {
  }

  // ---------------------------------------------------------------------------
  // Genre filter
  // ---------------------------------------------------------------------------

  /** ASCII lower-casing of one character. */
  function LowerChar(c: char): char
  {
    if 'A' <= c <= 'Z' then (c as int + 32) as char else c
  }

  /** `toLowerCase`, restricted to ASCII letters. */
  function Lower(s: string): (r: string)
    ensures |r| == |s|
    ensures forall i :: 0 <= i < |r| ==> !('A' <= r[i] <= 'Z')
    ensures forall i :: 0 <= i < |s| && !('A' <= s[i] <= 'Z') ==> r[i] == s[i]
    ensures forall i :: 0 <= i < |s| && 'A' <= s[i] <= 'Z' ==> r[i] as int == s[i] as int + 32
  {
    seq(|s|, i requires 0 <= i < |s| => LowerChar(s[i]))
  }

  /** Two characters are equal, or are the same ASCII letter in the two cases. */
  predicate SameIgnoringCase(c: char, d: char)
  {
    || c == d
    || ('A' <= c <= 'Z' && d as int == c as int + 32)
    || ('A' <= d <= 'Z' && c as int == d as int + 32)
  }

  lemma LowerCharAgree(c: char, d: char)
    ensures LowerChar(c) == LowerChar(d) <==> SameIgnoringCase(c, d)
  {
  }

  /** Two strings lower-case alike exactly when they differ at most in the case of their letters. */
  lemma LowerAgree(s: string, t: string)
    ensures Lower(s) == Lower(t) <==>
              |s| == |t| && forall i :: 0 <= i < |s| ==> SameIgnoringCase(s[i], t[i])
  {
    if |s| == |t| {
      forall i | 0 <= i < |s|
        ensures Lower(s)[i] == Lower(t)[i] <==> SameIgnoringCase(s[i], t[i])
      {
        LowerCharAgree(s[i], t[i]);
      }
      if forall i :: 0 <= i < |s| ==> SameIgnoringCase(s[i], t[i]) {
        assert Lower(s) == Lower(t);
      }
    }
  }

  /** Some tag of the movie equals the query once both are lower-cased (app.js:34). */
  predicate HasTag(m: Movie, q: string)
  {
    exists k :: 0 <= k < |m.data.genre| && Lower(TagName(m.data.genre[k])) == Lower(q)
  }

  /**
   * The genre filter of app.js:34: keeps every movie with a
   * matching tag, as many times as it occurs, and nothing else.
   */
  function FilterByTag(ms: seq<Movie>, q: string): (r: seq<Movie>)
    ensures |r| <= |ms|
    ensures forall m :: m in r <==> m in ms && HasTag(m, q)
  {
    if ms == [] then []
    else
      var rest := FilterByTag(ms[1..], q);
      assert ms == [ms[0]] + ms[1..];
      (if HasTag(ms[0], q) then [ms[0]] else []) + rest
  }

  /** The filter keeps each matching movie as many times as it occurs, and drops the others. */
  lemma {:induction false} FilterCounts(ms: seq<Movie>, q: string, m: Movie)
    ensures multiset(FilterByTag(ms, q))[m] == if HasTag(m, q) then multiset(ms)[m] else 0
  {
    if ms != [] {
      assert ms == [ms[0]] + ms[1..];
      var head := if HasTag(ms[0], q) then [ms[0]] else [];
      assert FilterByTag(ms, q) == head + FilterByTag(ms[1..], q);
      FilterCounts(ms[1..], q, m);
    }
  }

  /** The filter keeps the original relative order: it distributes over concatenation. */
  lemma {:induction false} FilterAppend(a: seq<Movie>, b: seq<Movie>, q: string)
    ensures FilterByTag(a + b, q) == FilterByTag(a, q) + FilterByTag(b, q)
  {
    if a != [] {
      var head := if HasTag(a[0], q) then [a[0]] else [];
      assert (a + b)[0] == a[0] && (a + b)[1..] == a[1..] + b;
      assert FilterByTag(a + b, q) == head + FilterByTag(a[1..] + b, q);
      FilterAppend(a[1..], b, q);
      assert FilterByTag(a, q) == head + FilterByTag(a[1..], q);
    } else {
      assert a + b == b;
    }
  }

  /** Queries that lower-case alike select the same movies. */
  lemma {:induction false} FilterCaseInsensitive(ms: seq<Movie>, q1: string, q2: string)
    requires Lower(q1) == Lower(q2)
    ensures FilterByTag(ms, q1) == FilterByTag(ms, q2)
  {
    if ms != [] {
      assert HasTag(ms[0], q1) == HasTag(ms[0], q2);
      FilterCaseInsensitive(ms[1..], q1, q2);
    }
  }

  /** Queries that differ only in the case of their letters select the same movies. */
  lemma FilterIgnoresCase(ms: seq<Movie>, q1: string, q2: string)
    requires |q1| == |q2| && forall i :: 0 <= i < |q1| ==> SameIgnoringCase(q1[i], q2[i])
    ensures FilterByTag(ms, q1) == FilterByTag(ms, q2)
  {
    LowerAgree(q1, q2);
    FilterCaseInsensitive(ms, q1, q2);
  }

  /** A filter whose every movie matches returns the collection itself. */
  lemma {:induction false} FilterAllMatch(ms: seq<Movie>, q: string)
    requires forall k :: 0 <= k < |ms| ==> HasTag(ms[k], q)
    ensures FilterByTag(ms, q) == ms
  {
    if ms != [] {
      FilterAllMatch(ms[1..], q);
    }
  }

  /** A query for "comedy" selects the same movies however it is capitalised. */
  lemma ComedyAnyCase(ms: seq<Movie>)
    ensures FilterByTag(ms, "comedy") == FilterByTag(ms, "COMEDY") == FilterByTag(ms, "Comedy")
  {
    assert Lower("COMEDY") == "comedy";
    assert Lower("Comedy") == "comedy";
    assert Lower("comedy") == "comedy";
    FilterCaseInsensitive(ms, "comedy", "COMEDY");
    FilterCaseInsensitive(ms, "comedy", "Comedy");
  }

  // ---------------------------------------------------------------------------
  // Lookup by id
  // ---------------------------------------------------------------------------

  /** The index of the first movie with the id, or -1 when there is none (app.js:63, app.js:78). */
  function FirstIndex(ms: seq<Movie>, id: string): (i: int)
    ensures -1 <= i < |ms|
    ensures i == -1 <==> forall k :: 0 <= k < |ms| ==> ms[k].id != id
    ensures 0 <= i ==> ms[i].id == id && forall k :: 0 <= k < i ==> ms[k].id != id
  {
    if ms == [] then -1
    else if ms[0].id == id then 0
    else
      var j := FirstIndex(ms[1..], id);
      if j == -1 then -1 else j + 1
  }

  /** The first movie with the id, if any (app.js:90). */
  function Find(ms: seq<Movie>, id: string): (r: Option<Movie>)
    ensures r.None? <==> forall k :: 0 <= k < |ms| ==> ms[k].id != id
    ensures r.Some? ==> r.value in ms && r.value.id == id
  {
    if ms == [] then None
    else if ms[0].id == id then Some(ms[0])
    else Find(ms[1..], id)
  }

  /** `find` returns the element at the index `findIndex` reports. */
  lemma {:induction false} FindAtFirstIndex(ms: seq<Movie>, id: string)
    ensures var i := FirstIndex(ms, id);
            Find(ms, id) == if i == -1 then None else Some(ms[i])
  {
    if ms != [] && ms[0].id != id {
      FindAtFirstIndex(ms[1..], id);
    }
  }

  /** No two stored movies share an id. */
  predicate UniqueIds(ms: seq<Movie>)
  {
    forall i, j :: 0 <= i < j < |ms| ==> ms[i].id != ms[j].id
  }

  /** Every stored movie satisfies the schema's constraints. */
  predicate AllConform(ms: seq<Movie>, isUrl: string -> bool)
  {
    forall k :: 0 <= k < |ms| ==> DataConforms(ms[k].data, isUrl)
  }

  /** A movie appended under a fresh id is found, at the last position. */
  lemma AppendThenFind(ms: seq<Movie>, m: Movie)
    requires forall k :: 0 <= k < |ms| ==> ms[k].id != m.id
    ensures FirstIndex(ms + [m], m.id) == |ms|
    ensures Find(ms + [m], m.id) == Some(m)
  {
    var i := FirstIndex(ms + [m], m.id);
    assert (ms + [m])[|ms|].id == m.id;
    FindAtFirstIndex(ms + [m], m.id);
  }

  /** With unique ids, splicing out the first match leaves no movie with that id. */
  lemma SpliceRemovesId(ms: seq<Movie>, id: string)
    requires UniqueIds(ms)
    requires FirstIndex(ms, id) != -1
    ensures var i := FirstIndex(ms, id);
            FirstIndex(ms[..i] + ms[i + 1..], id) == -1
  {
    var i := FirstIndex(ms, id);
    var rest := ms[..i] + ms[i + 1..];
    forall k | 0 <= k < |rest|
      ensures rest[k].id != id
    {
      if k < i {
        assert rest[k] == ms[k];
      } else {
        assert rest[k] == ms[k + 1];
      }
    }
  }

  // ---------------------------------------------------------------------------
  // The store
  // ---------------------------------------------------------------------------

  /** The module-level `movies` array, seeded from movies.json and mutated by the handlers. */
  class MovieStore {
    var movies: seq<Movie>

    constructor (seed: seq<Movie>)
      ensures movies == seed
    {
      movies := seed;
    }

    /**
     * GET /movies: the whole collection when the `genre` query is absent or
     * empty, otherwise the movies with a tag equal to it ignoring case.
     */
    function ListByGenre(genre: Option<string>): (r: seq<Movie>)
      reads this
      ensures genre.None? || genre.value == "" ==> r == movies
      ensures genre.Some? && genre.value != "" ==>
                forall m :: m in r <==> m in movies && HasTag(m, genre.value)
      ensures genre.Some? && genre.value != "" ==> r == FilterByTag(movies, genre.value)
    {
      if genre.Some? && genre.value != "" then FilterByTag(movies, genre.value) else movies
    }

    /** POST /movies, after validation: appends the new movie at the end (app.js:46-51). */
    method Insert(id: string, d: MovieData) returns (m: Movie)
      requires forall k :: 0 <= k < |movies| ==> movies[k].id != id
      modifies this
      ensures m == Movie(id, d)
      ensures movies == old(movies) + [m]
      ensures UniqueIds(old(movies)) ==> UniqueIds(movies)
    {
      m := Movie(id, d);
      movies := movies + [m];
    }

    /**
     * PATCH /movies/:id, after validation: merge the patch into the first
     * movie with the id and store the result at the same index. Not found
     * changes nothing.
     */
    method Update(id: string, p: PartialMovie) returns (r: Option<Movie>)
      modifies this
      ensures var i := FirstIndex(old(movies), id);
              if i == -1 then r.None? && movies == old(movies)
              else r == Some(Merge(old(movies)[i], p)) && movies == old(movies)[i := r.value]
      ensures |movies| == |old(movies)|
      ensures UniqueIds(old(movies)) ==> UniqueIds(movies)
    {
      var i := FirstIndex(movies, id);
      if i == -1 {
        r := None;
      } else {
        var updated := Merge(movies[i], p);
        movies := movies[i := updated];
        r := Some(updated);
      }
    }

    /**
     * DELETE /movies/:id: removes the first movie with the id, closing the
     * gap (app.js:82). Not found changes nothing.
     */
    method Remove(id: string) returns (found: bool)
      modifies this
      ensures var i := FirstIndex(old(movies), id);
              && found == (i != -1)
              && movies == if found then old(movies)[..i] + old(movies)[i + 1..] else old(movies)
      ensures found ==> |movies| == |old(movies)| - 1
      ensures UniqueIds(old(movies)) ==> UniqueIds(movies)
    {
      var i := FirstIndex(movies, id);
      found := i != -1;
      if found {
        ghost var before := movies;
        movies := movies[..i] + movies[i + 1..];
        assert forall k :: 0 <= k < |movies| ==> movies[k] == if k < i then before[k] else before[k + 1];
      }
    }
  }
}
