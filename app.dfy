/**
 * The HTTP handlers of the movie service over one shared, in-memory list
 * of movie records, and the CORS origin check in front of them.
 *
 * A record is a JSON object. The handlers compare `movie.id` with the
 * path's `id` by strict equality, search with `find`/`findIndex`, append
 * with `push`, replace one entry with a shallow merge, and delete with
 * `splice`. A JavaScript exception thrown in a handler (a `TypeError`)
 * makes the framework answer 500.
 */
module App {
  import opened Wrappers
  import opened Json
  import opened MovieSchema

  // ---------------------------------------------------------------------
  // CORS
  // ---------------------------------------------------------------------

  const AcceptedOrigins: seq<string> :=
    ["http://localhost:8080", "http://localhost:3000", "http://192.168.0.104:8080", "https://movies.com"]

  datatype CorsVerdict = Allow | Deny(message: string)

  /** The `origin` callback; `origin` is `None` when the request carries no Origin header. */
  function CheckOrigin(origin: Option<string>): (v: CorsVerdict)
    ensures v == Allow <==>
      || origin.None?
      || origin.value == ""
      || origin.value in {"http://localhost:8080", "http://localhost:3000",
                          "http://192.168.0.104:8080", "https://movies.com"}
    ensures v.Deny? ==> v.message == "not allowed by CORS"
  {
    if origin.Some? && origin.value in AcceptedOrigins then Allow
    else if origin.None? || origin.value == "" then Allow
    else Deny("not allowed by CORS")
  }

  // ---------------------------------------------------------------------
  // Case folding (ASCII letters only)
  // ---------------------------------------------------------------------

  function LowerChar(c: char): char {
    if 'A' <= c <= 'Z' then (c as int + 32) as char else c
  }

  /** `toLowerCase` / `toLocaleLowerCase`, folding the ASCII letters A-Z only. */
  function ToLower(s: string): (r: string)
    ensures |r| == |s|
    ensures forall i :: 0 <= i < |s| ==> r[i] == LowerChar(s[i])
  {
    if s == [] then [] else [LowerChar(s[0])] + ToLower(s[1..])
  }

  // ---------------------------------------------------------------------
  // Listing, optionally by genre
  // ---------------------------------------------------------------------

  /** A JavaScript exception raised inside a handler. */
  datatype Thrown = TypeError

  /** A genre element equal to the query once both are lower-cased. */
  predicate LabelMatches(g: Value, query: string) {
    g.JStr? && ToLower(g.s) == ToLower(query)
  }

  /**
   * `genres.some(g => g.toLowerCase() === query.toLocaleLowerCase())`:
   * elements are tried in order and the search stops at the first match;
   * an element that is not a string, reached before a match, throws.
   */
  function SomeGenreMatches(genres: seq<Value>, query: string): (r: Result<bool, Thrown>)
    ensures (forall i :: 0 <= i < |genres| ==> genres[i].JStr?) ==>
              r == Success(exists i :: 0 <= i < |genres| && LabelMatches(genres[i], query))
    ensures r == Success(true) ==> exists i :: 0 <= i < |genres| && LabelMatches(genres[i], query)
    ensures r == Success(false) ==>
              forall i :: 0 <= i < |genres| ==> genres[i].JStr? && !LabelMatches(genres[i], query)
    ensures r.Failure? ==> exists i :: 0 <= i < |genres| && !genres[i].JStr?
  {
    if genres == [] then Success(false)
    else match genres[0]
      case JStr(s) =>
        if ToLower(s) == ToLower(query) then Success(true)
        else SomeGenreMatches(genres[1..], query)
      case _ => Failure(TypeError)
  }

  /** The filter's callback on one movie: `movie.genre.some(...)`, which throws unless `genre` is an array. */
  function MovieMatches(movie: Object, query: string): (r: Result<bool, Thrown>)
    ensures !("genre" in movie && movie["genre"].JArr?) ==> r.Failure?
  {
    if "genre" in movie && movie["genre"].JArr? then SomeGenreMatches(movie["genre"].elems, query)
    else Failure(TypeError)
  }

  /** `a` is `b` with some entries left out, the rest in their order. */
  predicate IsSubsequence(a: seq<Object>, b: seq<Object>)
    decreases |b|
  {
    if a == [] then true
    else if b == [] then false
    else (a[0] == b[0] && IsSubsequence(a[1..], b[1..])) || IsSubsequence(a, b[1..])
  }

  /**
   * `movies.filter(...)` with the genre callback: the movies that match, in
   * stored order and with their multiplicity; any throwing callback makes
   * the whole filter throw.
   */
  function FilterByGenre(ms: seq<Object>, query: string): (r: Result<seq<Object>, Thrown>)
    ensures r.Failure? <==> exists i :: 0 <= i < |ms| && MovieMatches(ms[i], query).Failure?
    ensures r.Success? ==> IsSubsequence(r.value, ms)
    ensures r.Success? ==> forall x ::
              multiset(r.value)[x] == if MovieMatches(x, query) == Success(true) then multiset(ms)[x] else 0
  {
    if ms == [] then Success([])
    else
      var head := MovieMatches(ms[0], query);
      var tail := FilterByGenre(ms[1..], query);
      assert ms == [ms[0]] + ms[1..];
      if head.Failure? || tail.Failure? then Failure(TypeError)
      else if head.value then Success([ms[0]] + tail.value)
      else Success(tail.value)
  }

  // ---------------------------------------------------------------------
  // Searching by id
  // ---------------------------------------------------------------------

  /** `movie.id === id`: the record has an `id` key holding exactly that string. */
  predicate HasId(movie: Object, id: string) {
    "id" in movie && movie["id"] == JStr(id)
  }

  /** No two records share an id. */
  ghost predicate UniqueIds(ms: seq<Object>) {
    forall i, j, id :: 0 <= i < |ms| && 0 <= j < |ms| && HasId(ms[i], id) && HasId(ms[j], id) ==> i == j
  }

  /** `findIndex` by id: the first index whose record has the id, or -1. */
  function IndexOf(ms: seq<Object>, id: string): (i: int)
    ensures -1 <= i < |ms|
    ensures i == -1 <==> forall j :: 0 <= j < |ms| ==> !HasId(ms[j], id)
    ensures 0 <= i ==> HasId(ms[i], id) && forall j :: 0 <= j < i ==> !HasId(ms[j], id)
  {
    if ms == [] then -1
    else if HasId(ms[0], id) then 0
    else
      var k := IndexOf(ms[1..], id);
      if k == -1 then -1 else k + 1
  }

  /** `find` by id: the first record with the id. */
  function Find(ms: seq<Object>, id: string): (r: Option<Object>)
    ensures r == if IndexOf(ms, id) == -1 then None else Some(ms[IndexOf(ms, id)])
  {
    if ms == [] then None
    else if HasId(ms[0], id) then Some(ms[0])
    else Find(ms[1..], id)
  }

  // ---------------------------------------------------------------------
  // Building and merging records
  // ---------------------------------------------------------------------

  /** Object spread `{ ...base, ...over }`: the keys of both, `over` winning. */
  function Spread(base: Object, over: Object): (r: Object)
    ensures r.Keys == base.Keys + over.Keys
    ensures forall k :: k in r ==> r[k] == if k in over then over[k] else base[k]
  {
    base + over
  }

  /** `result.data`, as spread: the validated data, or nothing when validation failed. */
  function DataOf(r: Result<Fields, seq<Issue>>): (o: Object)
    ensures "id" !in o
    ensures o.Keys <= SchemaKeys
  {
    if r.Success? then ToObject(r.value) else map[]
  }

  /** `{ id, ...data }`. */
  function NewMovie(id: string, data: Object): (movie: Object)
    requires "id" !in data
    ensures HasId(movie, id)
    ensures movie.Keys == {"id"} + data.Keys
    ensures forall k :: k in data ==> movie[k] == data[k]
  {
    Spread(map["id" := JStr(id)], data)
  }

  // ---------------------------------------------------------------------
  // Responses
  // ---------------------------------------------------------------------

  datatype Body =
    | Records(movies: seq<Object>)
    | Record(movie: Object)
    | Message(text: string)
    | ValidationErrors(issues: seq<Issue>)
    | InternalError

  datatype Response = Response(status: nat, body: Body)

  // ---------------------------------------------------------------------
  // The store and its routes
  // ---------------------------------------------------------------------

  class MovieStore {
    /** The URL test of the `poster` constraint. */
    const isUrl: string -> bool
    /** The shared collection, seeded once and changed by the routes. */
    var movies: seq<Object>

    constructor (seed: seq<Object>, isUrl: string -> bool)
      ensures movies == seed && this.isUrl == isUrl
    {
      this.isUrl := isUrl;
      movies := seed;
    }

    /** findIndex by id, as a linear search. */
    method FindIndex(id: string) returns (i: int)
      ensures i == IndexOf(movies, id)
    {
      var k := 0;
      while k < |movies|
        invariant 0 <= k <= |movies|
        invariant forall j :: 0 <= j < k ==> !HasId(movies[j], id)
      {
        if HasId(movies[k], id) {
          return k;
        }
        k := k + 1;
      }
      return -1;
    }

    /** GET /movies, with an optional `genre` query parameter. */
    method ListMovies(genre: Option<string>) returns (resp: Response)
      ensures genre.None? || genre.value == "" ==> resp == Response(200, Records(movies))
      ensures genre.Some? && genre.value != "" ==>
        resp == match FilterByGenre(movies, genre.value)
                case Success(found) => Response(200, Records(found))
                case Failure(_) => Response(500, InternalError)
    {
      if genre.Some? && genre.value != "" {
        var filtered := FilterByGenre(movies, genre.value);
        if filtered.Success? {
          return Response(200, Records(filtered.value));
        }
        return Response(500, InternalError);
      }
      return Response(200, Records(movies));
    }

    /** GET /movies/:id. */
    method GetMovie(id: string) returns (resp: Response)
      ensures resp.status == 200 || resp.status == 404
      ensures resp.status == 404 <==> forall j :: 0 <= j < |movies| ==> !HasId(movies[j], id)
      ensures resp.status == 404 ==> resp.body == Message("movie not found")
      ensures resp.status == 200 ==> resp.body == Record(movies[IndexOf(movies, id)])
    {
      var movie := Find(movies, id);
      if movie.Some? {
        return Response(200, Record(movie.value));
      }
      return Response(404, Message("movie not found"));
    }

    /**
     * POST /movies, as written: after a failed validation the handler has
     * answered 422 but goes on, appending `{ id }` alone.
     */
    method CreateMovie(body: Value, newId: string) returns (resp: Response)
      requires forall j :: 0 <= j < |movies| ==> !HasId(movies[j], newId)
      modifies this
      ensures var r := ValidateMovie(isUrl, body);
        && movies == old(movies) + [NewMovie(newId, DataOf(r))]
        && resp == if r.Failure? then Response(422, ValidationErrors(r.error))
                   else Response(201, Record(NewMovie(newId, DataOf(r))))
      ensures UniqueIds(old(movies)) ==> UniqueIds(movies)
    {
      var result := ValidateMovie(isUrl, body);
      var answered: Option<Response> := None;
      if result.Failure? {
        answered := Some(Response(422, ValidationErrors(result.error)));
      }
      var newMovie := NewMovie(newId, DataOf(result));
      AppendKeepsUnique(movies, newMovie, newId);
      movies := movies + [newMovie];
      resp := if answered.Some? then answered.value else Response(201, Record(newMovie));
    }

    /** POST /movies, returning right after a failed validation. */
    method CreateMovieChecked(body: Value, newId: string) returns (resp: Response)
      requires forall j :: 0 <= j < |movies| ==> !HasId(movies[j], newId)
      modifies this
      ensures var r := ValidateMovie(isUrl, body);
        if r.Failure? then
          resp == Response(422, ValidationErrors(r.error)) && movies == old(movies)
        else
          && movies == old(movies) + [NewMovie(newId, ToObject(r.value))]
          && resp == Response(201, Record(NewMovie(newId, ToObject(r.value))))
      ensures UniqueIds(old(movies)) ==> UniqueIds(movies)
    {
      var result := ValidateMovie(isUrl, body);
      if result.Failure? {
        return Response(422, ValidationErrors(result.error));
      }
      var newMovie := NewMovie(newId, ToObject(result.value));
      AppendKeepsUnique(movies, newMovie, newId);
      movies := movies + [newMovie];
      return Response(201, Record(newMovie));
    }

    /** PATCH /movies/:id: validate partially, find the record, merge the data over it. */
    method PatchMovie(id: string, body: Value) returns (resp: Response)
      modifies this
      ensures var r := ValidatePartialMovie(isUrl, body);
        var i := IndexOf(old(movies), id);
        if r.Failure? then
          resp == Response(400, ValidationErrors(r.error)) && movies == old(movies)
        else if i == -1 then
          resp == Response(404, Message("Movie not found")) && movies == old(movies)
        else
          && movies == old(movies)[i := Spread(old(movies)[i], ToObject(r.value))]
          && resp == Response(200, Record(movies[i]))
      ensures |movies| == |old(movies)|
      ensures UniqueIds(old(movies)) ==> UniqueIds(movies)
    {
      var result := ValidatePartialMovie(isUrl, body);
      if result.Failure? {
        return Response(400, ValidationErrors(result.error));
      }
      var movieIndex := FindIndex(id);
      if movieIndex == -1 {
        return Response(404, Message("Movie not found"));
      }
      var updateMovie := Spread(movies[movieIndex], ToObject(result.value));
      UpdateKeepsUnique(movies, movieIndex, ToObject(result.value));
      movies := movies[movieIndex := updateMovie];
      return Response(200, Record(updateMovie));
    }

    /** DELETE /movies/:id: find the record and splice it out. */
    method DeleteMovie(id: string) returns (resp: Response)
      modifies this
      ensures var i := IndexOf(old(movies), id);
        if i == -1 then
          resp == Response(404, Message("movie not found - 404")) && movies == old(movies)
        else
          && resp == Response(202, Message("movie deleted"))
          && movies == old(movies)[..i] + old(movies)[i + 1..]
          && |movies| == |old(movies)| - 1
      ensures UniqueIds(old(movies)) ==> UniqueIds(movies)
    {
      var movieIndex := FindIndex(id);
      if movieIndex == -1 {
        return Response(404, Message("movie not found - 404"));
      }
      RemoveKeepsUnique(movies, movieIndex);
      movies := movies[..movieIndex] + movies[movieIndex + 1..];
      return Response(202, Message("movie deleted"));
    }
  }

  // ---------------------------------------------------------------------
  // Lemmas about the collection
  // ---------------------------------------------------------------------

  /** Appending a record under a fresh id keeps ids unique. */
  lemma AppendKeepsUnique(ms: seq<Object>, movie: Object, id: string)
    requires forall j :: 0 <= j < |ms| ==> !HasId(ms[j], id)
    requires HasId(movie, id)
    ensures UniqueIds(ms) ==> UniqueIds(ms + [movie])
  {
    if UniqueIds(ms) {
      var ns := ms + [movie];
      forall i, j, x | 0 <= i < |ns| && 0 <= j < |ns| && HasId(ns[i], x) && HasId(ns[j], x)
        ensures i == j
      {
        if i < |ms| && j < |ms| {
          assert ns[i] == ms[i] && ns[j] == ms[j];
        }
      }
    }
  }

  /** Merging data without an `id` key over one record keeps ids unique. */
  lemma UpdateKeepsUnique(ms: seq<Object>, i: nat, data: Object)
    requires i < |ms| && "id" !in data
    ensures UniqueIds(ms) ==> UniqueIds(ms[i := Spread(ms[i], data)])
  {
    var ns := ms[i := Spread(ms[i], data)];
    forall j, x | 0 <= j < |ms|
      ensures HasId(ns[j], x) <==> HasId(ms[j], x)
    {
    }
  }

  /** Splicing a record out keeps ids unique. */
  lemma RemoveKeepsUnique(ms: seq<Object>, i: nat)
    requires i < |ms|
    ensures UniqueIds(ms) ==> UniqueIds(ms[..i] + ms[i + 1..])
  {
    var ns := ms[..i] + ms[i + 1..];
    if UniqueIds(ms) {
      forall a, b, x | 0 <= a < |ns| && 0 <= b < |ns| && HasId(ns[a], x) && HasId(ns[b], x)
        ensures a == b
      {
        var a' := if a < i then a else a + 1;
        var b' := if b < i then b else b + 1;
        assert ns[a] == ms[a'] && ns[b] == ms[b'];
      }
    }
  }

  /** With unique ids, the record just deleted can no longer be found. */
  lemma DeletedIdIsGone(ms: seq<Object>, id: string)
    requires UniqueIds(ms)
    requires IndexOf(ms, id) != -1
    ensures IndexOf(ms[..IndexOf(ms, id)] + ms[IndexOf(ms, id) + 1..], id) == -1
  {
    var i := IndexOf(ms, id);
    var ns := ms[..i] + ms[i + 1..];
    forall j | 0 <= j < |ns|
      ensures !HasId(ns[j], id)
    {
      var j' := if j < i then j else j + 1;
      assert ns[j] == ms[j'];
    }
  }

  /** A record appended under a fresh id is the one found by that id. */
  lemma AppendedIsFound(ms: seq<Object>, movie: Object, id: string)
    requires forall j :: 0 <= j < |ms| ==> !HasId(ms[j], id)
    requires HasId(movie, id)
    ensures IndexOf(ms + [movie], id) == |ms|
    ensures Find(ms + [movie], id) == Some(movie)
  {
    var ns := ms + [movie];
    forall j | 0 <= j < |ms|
      ensures !HasId(ns[j], id)
    {
      assert ns[j] == ms[j];
    }
    assert HasId(ns[|ms|], id);
    var k := IndexOf(ns, id);
    assert k != -1;
    assert k == |ms|;
  }

  /** Merging validated data over a record never changes which id it has. */
  lemma SpreadKeepsId(movie: Object, f: Fields, id: string)
    ensures HasId(Spread(movie, ToObject(f)), id) <==> HasId(movie, id)
  {
  }

  /** Merging the data of an empty patch leaves the record as it was. */
  lemma EmptyPatchIsIdentity(movie: Object, isUrl: string -> bool)
    ensures Spread(movie, ToObject(ValidatePartialMovie(isUrl, JObj(map[])).value)) == movie
  {
    EmptyPartial(isUrl);
  }

  // ---------------------------------------------------------------------
  // Lemmas about the genre filter
  // ---------------------------------------------------------------------

  lemma {:induction false} SomeGenreMatchesFolds(genres: seq<Value>, q1: string, q2: string)
    requires ToLower(q1) == ToLower(q2)
    ensures SomeGenreMatches(genres, q1) == SomeGenreMatches(genres, q2)
    decreases |genres|
  {
    if genres != [] {
      SomeGenreMatchesFolds(genres[1..], q1, q2);
    }
  }

  /** The genre query is compared without regard to the case of its ASCII letters. */
  lemma {:induction false} FilterIgnoresQueryCase(ms: seq<Object>, q1: string, q2: string)
    requires ToLower(q1) == ToLower(q2)
    ensures FilterByGenre(ms, q1) == FilterByGenre(ms, q2)
    decreases |ms|
  {
    if ms != [] {
      if "genre" in ms[0] && ms[0]["genre"].JArr? {
        SomeGenreMatchesFolds(ms[0]["genre"].elems, q1, q2);
      }
      FilterIgnoresQueryCase(ms[1..], q1, q2);
    }
  }

  /** A record without a genre array, such as `{ id }` alone, makes every genre listing throw. */
  lemma RecordWithoutGenreBreaksFilter(ms: seq<Object>, i: nat, query: string)
    requires i < |ms| && "genre" !in ms[i]
    ensures FilterByGenre(ms, query).Failure?
  {
  }

  // ---------------------------------------------------------------------
  // Scenarios over the routes
  // ---------------------------------------------------------------------

  /** Deleting the same id twice: the second call answers 404 and changes nothing. */
  method DeleteTwice(store: MovieStore, id: string) returns (first: Response, second: Response)
    requires UniqueIds(store.movies)
    modifies store
    ensures first.status == 202 <==> IndexOf(old(store.movies), id) != -1
    ensures second.status == 404
    ensures |store.movies| == |old(store.movies)| - (if first.status == 202 then 1 else 0)
  {
    first := store.DeleteMovie(id);
    ghost var afterFirst := store.movies;
    if first.status == 202 {
      DeletedIdIsGone(old(store.movies), id);
    }
    second := store.DeleteMovie(id);
  }

  /** A movie created with a fresh id is then returned by GET with that id. */
  method CreateThenGet(store: MovieStore, body: Value, newId: string) returns (created: Response, got: Response)
    requires forall j :: 0 <= j < |store.movies| ==> !HasId(store.movies[j], newId)
    modifies store
    ensures created.status == 201 ==> got == Response(200, created.body)
  {
    created := store.CreateMovieChecked(body, newId);
    if created.status == 201 {
      AppendedIsFound(old(store.movies), created.body.movie, newId);
    }
    got := store.GetMovie(newId);
  }

  /** PATCH with `{}` on a stored id answers with the record unchanged and changes nothing. */
  method PatchWithEmptyBody(store: MovieStore, id: string) returns (resp: Response)
    modifies store
    ensures store.movies == old(store.movies)
    ensures IndexOf(old(store.movies), id) != -1 ==>
              resp == Response(200, Record(old(store.movies)[IndexOf(old(store.movies), id)]))
  {
    EmptyPartial(store.isUrl);
    if IndexOf(store.movies, id) != -1 {
      EmptyPatchIsIdentity(store.movies[IndexOf(store.movies, id)], store.isUrl);
    }
    resp := store.PatchMovie(id, JObj(map[]));
  }

  /**
   * POST with a body that fails validation, then GET /movies?genre=...: the
   * first answers 422 yet adds `{ id }`, and that record makes the listing throw.
   */
  method FailedCreateBreaksListing(store: MovieStore, newId: string, genre: string)
    returns (created: Response, listed: Response)
    requires forall j :: 0 <= j < |store.movies| ==> !HasId(store.movies[j], newId)
    requires genre != ""
    modifies store
    ensures created.status == 422
    ensures |store.movies| == |old(store.movies)| + 1
    ensures listed == Response(500, InternalError)
  {
    created := store.CreateMovie(JObj(map[]), newId);
    RecordWithoutGenreBreaksFilter(store.movies, |store.movies| - 1, genre);
    listed := store.ListMovies(Some(genre));
  }
}
