# Movie REST service: model and proofs

This project models a small Express service that keeps a list of movie
records in memory, and the Zod schema that validates request bodies.

- `MovieSchema` (`movie_schema.dfy`) models `schemas/movies.js`. It holds
  the constraint table over the seven keys `title`, `year`, `director`,
  `duration`, `rate`, `poster` and `genre`. It runs the table in two modes:
  `validateMovie` (full) and `validatePartialMovie` (partial). Full mode
  requires every key but `rate`, and `rate` defaults to 0. Partial mode
  makes every key optional and applies no default. Keys outside the table
  are stripped. A result is `Success(Fields)` or `Failure(issues)`. Each
  issue has a path and a code.
- `App` (`app.dfy`) models `app.js`:
  - the CORS `origin` callback;
  - the genre filter of `GET /movies`;
  - `find` and `findIndex` by id;
  - object spread;
  - the class `MovieStore`, whose `movies` field is the shared collection.
    It has one method per route, and each returns a `Response` (status
    code and body).
- `Json` (`json.dfy`) holds JSON values. Request bodies are `Value`s.
  Stored records are JSON objects (`map<string, Value>`). `Wrappers`
  (`wrappers.dfy`) holds `Option` and `Result`.

Behaviours of the code that the model keeps as they are:

- The schema sets no minimum length for `title` and accepts an empty
  `genre` array; the model follows the schema.
- When `POST /movies` fails validation, it answers 422 but still appends
  a record (see Findings).
- A genre-filtered listing throws, and the framework answers 500, when a
  stored record has no `genre` array, or when a genre element that is not
  a string is reached before a match.

Inside `MovieSchema`, `ParseSlots` is the per-key pass of the object schema:
each present key goes through its own check, an absent key is an issue in
full mode and nothing in partial mode, and an absent `rate` gets 0 in full
mode. `SafeParse` is `safeParse`: it collects the issues of all keys, and a
body that is not an object fails at the root.

## Model

| member | source | states |
|---|---|---|
| MovieSchema.ParseGenre | schemas/movies.js:16 | a label is accepted iff it is one of the nine labels, `Comdey` spelled as written; the accepted genre's label is the input |
| MovieSchema.ParseString | schemas/movies.js:4-9 | `title`/`director` is accepted iff it is a string, and the value is kept; otherwise the issues are all under that key |
| MovieSchema.ParseYear | schemas/movies.js:8 | `year` is accepted iff it is an integer number in [1900, 2024]; the validated value is the input number |
| MovieSchema.ParseDuration | schemas/movies.js:10 | `duration` is accepted iff it is an integer number > 0; the value is kept |
| MovieSchema.ParseRate | schemas/movies.js:11 | a present `rate` is accepted iff it is a number in [0, 10]; the value is kept |
| MovieSchema.ParsePoster | schemas/movies.js:12-14 | `poster` is accepted iff it is a string that passes the URL test |
| MovieSchema.ParseGenreElems | schemas/movies.js:15-21 | the elements pass iff every one is a genre label; the validated genres serialise back to exactly the input elements; failures are reported under `genre` |
| MovieSchema.ParseGenres | schemas/movies.js:15-21 | `genre` is accepted iff it is an array (possibly empty) of genre labels; the validated list serialises back to the input array |
| MovieSchema.ToObject | schemas/movies.js:3-22 | validated data holds exactly the keys present in it, all schema keys, so never `id` |
| MovieSchema.SlotsConform | schemas/movies.js:3-22 | every key's check succeeds iff the object conforms to the constraint table in that mode |
| MovieSchema.SafeParse | schemas/movies.js:26 | a body that is not a JSON object fails with a single type issue at the root |
| MovieSchema.SlotIssuesReported | schemas/movies.js:3-22 | when some key fails, the collected issue list is non-empty; in partial mode no issue reports a missing key |
| MovieSchema.SlotFailedIff | schemas/movies.js:3-22 | the check of a key fails exactly when the key is present and breaks its constraint, or is required, missing and the mode is full |
| MovieSchema.SlotIssuesReportKey | schemas/movies.js:3-22 | the collected issues contain one under a key exactly when that key's own check failed |
| MovieSchema.KeyReported | schemas/movies.js:24-31 | both validators fail with an issue under a key exactly when the key is present and breaks its constraint (e.g. `year: 1899`, `duration: -5`, `genre: ["NotAGenre"]`) or, in full mode, is required and missing |
| MovieSchema.SlotsPresentKeys | schemas/movies.js:11 | after success, full mode carries a value for all seven keys (with `rate` defaulted), partial mode exactly for the schema keys given |
| MovieSchema.SafeParseContract | schemas/movies.js:24-31 | in both modes: success iff the object conforms; failures are non-empty; partial failures never report a missing key; the keys present after success |
| MovieSchema.ValidateMovie | schemas/movies.js:24-27 | full validation succeeds iff every required key is present and every present key meets its constraint; success carries all seven fields |
| MovieSchema.ValidatePartialMovie | schemas/movies.js:29-31 | partial validation succeeds iff every present key meets its constraint; success carries exactly the schema keys given; no issue reports a missing key |
| MovieSchema.ValidatedDataMirrorsInput | schemas/movies.js:3-31 | validated data equals the input restricted to the schema keys, plus `rate: 0` exactly in full mode when `rate` was absent |
| MovieSchema.FullImpliesPartial | schemas/movies.js:24-31 | every body full validation accepts is accepted by partial validation too, with the same data except an undefaulted `rate` |
| MovieSchema.EmptyPartial | schemas/movies.js:29-31 | partial validation of `{}` succeeds with no data at all |
| MovieSchema.RateDefault | schemas/movies.js:11 | an absent `rate` becomes 0 in full mode and stays absent in partial mode |
| MovieSchema.MissingKeyReported | schemas/movies.js:3-27 | a required key missing from the body fails full validation with a "required" issue at that key |
| App.CheckOrigin | app.js:24-39 | an origin is allowed iff it is absent, empty or one of the four listed strings; any other origin is denied with "not allowed by CORS" |
| App.ToLower | app.js:61 | lower-casing keeps the length and folds each character on its own |
| App.SomeGenreMatches | app.js:61 | over an all-string genre list, the result is whether some element equals the query after lower-casing both; a match, a non-match and a throw each carry their witness |
| App.MovieMatches | app.js:60-62 | a record without a `genre` array makes the callback throw |
| App.FilterByGenre | app.js:58-63 | the filter throws iff some record's callback throws; otherwise it returns the matching records in stored order (a subsequence), each with its multiplicity |
| App.IndexOf | app.js:109 | the first index whose record has the id, or -1 iff no record has it |
| App.Find | app.js:71 | `find` by id returns the record at the first index with that id, or nothing iff there is none |
| App.Spread | app.js:118-121 | the keys of both objects, the second object's values winning |
| App.DataOf | app.js:88-91 | the data spread into a new record never has an `id` key and has only schema keys |
| App.NewMovie | app.js:88-91 | `{ id, ...data }` has the new id and every key of the data with its value |
| App.MovieStore.constructor | app.js:5 | the collection starts as the seed |
| App.MovieStore.FindIndex | app.js:109 | the linear search returns `IndexOf` of the collection |
| App.MovieStore.ListMovies | app.js:50-67 | no or empty genre: 200 with the whole collection in stored order; otherwise 200 with the filter's result, or 500 when it throws |
| App.MovieStore.GetMovie | app.js:69-77 | 404 "movie not found" iff no record has the id; otherwise 200 with the first record having it; nothing changes |
| App.MovieStore.CreateMovie | app.js:80-98 | as written: appends `{ id, ...data }` whatever the validation result; 201 with it on success, 422 with the issues on failure; ids stay unique |
| App.MovieStore.CreateMovieChecked | app.js:80-98 | corrected: failure gives 422 and leaves the collection unchanged; success appends `{ id, ...data }` and answers 201 with it |
| App.MovieStore.PatchMovie | app.js:101-126 | failed validation gives 400 and an unknown id gives 404, both without change; otherwise only the found index changes, to the stored record with the validated data spread over it; 200 with it; length and unique ids kept |
| App.MovieStore.DeleteMovie | app.js:129-146 | absent id gives 404 without change; otherwise 202 and the collection becomes `old[..i] + old[i+1..]`, one shorter |
| App.AppendKeepsUnique | app.js:88-95 | appending a record under a fresh id keeps ids unique |
| App.UpdateKeepsUnique | app.js:118-123 | merging data without `id` over one record keeps ids unique |
| App.RemoveKeepsUnique | app.js:143 | splicing out one record keeps ids unique |
| App.DeletedIdIsGone | app.js:137-143 | with unique ids, after the splice no record has the deleted id |
| App.AppendedIsFound | app.js:71-95 | a record pushed under a fresh id is the first, and only, one found by that id |
| App.SpreadKeepsId | app.js:118-121 | merging validated data over a record never changes which id it has |
| App.EmptyPatchIsIdentity | app.js:118-121 | spreading the data of an empty patch leaves the record unchanged |
| App.SomeGenreMatchesFolds | app.js:61 | two queries equal after lower-casing give the same `some` result |
| App.FilterIgnoresQueryCase | app.js:58-63 | two queries equal after lower-casing give the same filtered listing |
| App.RecordWithoutGenreBreaksFilter | app.js:60-62 | a stored record without `genre` makes every genre listing throw |
| App.DeleteTwice | app.js:129-146 | with unique ids, a second delete of the same id answers 404 and the length drops by at most one overall |
| App.CreateThenGet | app.js:69-98 | after a 201 create, GET with the new id answers 200 with the created record |
| App.PatchWithEmptyBody | app.js:101-126 | PATCH with `{}` changes nothing and, for a stored id, answers 200 with the stored record |
| App.FailedCreateBreaksListing | app.js:80-98 | as written, POST `{}` answers 422 yet grows the collection by one, and the next genre listing answers 500 |

## Left out

- Express wiring is not modelled: `app.listen`, the port from the environment, `x-powered-by`, `console.log`, and the hello and fallback routes. None of it has logic beyond I/O.
- JSON body parsing by `express.json()` is not modelled. A handler receives the parsed body as a `Json.Value`.
- `crypto.randomUUID()` is a random foreign call. Create takes the new id as a parameter and requires that no stored record has it.
- Zod's URL check for `poster` is library code outside this repository. It is the parameter `isUrl`, given to the validator and fixed for the store.
- The seed file `movies.json` is not part of this model. The store's constructor takes the initial collection.
- Numbers are exact reals, not the IEEE-754 doubles `JSON.parse` produces. The model therefore decides some bodies differently from the service. `{"duration": 1e400}` parses to `Infinity`, which the service rejects (not an integer) and the model accepts. `{"year": 2024.0000000000001}` and `{"rate": 10.000000000000001}` round to exactly 2024 and 10, which the service accepts and the model rejects. Rounding of decimal literals and the infinities are not modelled.
- `toLowerCase`/`toLocaleLowerCase` fold only the ASCII letters A-Z. Full Unicode and locale case mapping is not modelled.
- Zod's error messages, and the `JSON.parse` of them, are reduced to issue codes with paths. `Required`, `InvalidType` and `NotInteger` all stand for Zod's "invalid_type".
- The second response that `POST /movies` tries to send after a 422 is not modelled. The framework rejects it because headers were already sent. The model returns the 422, which is what the client receives.
- A `genre` query string given more than once arrives as an array. That case is not modelled: the query is `Option<string>`.
- Key order inside JSON objects is not modelled, since objects are maps.
- App.SomeGenreMatches: on a throw, the contract says only that some element is not a string. It does not say that this element comes before every match.
- App.DeleteTwice: the 404 of the second call is proved only under unique ids. The source keeps ids unique only because `randomUUID` is fresh and the seed has unique ids.

## Findings

| source | as written | input that shows it | evidently intended | confidence | as-written member | corrected member |
|---|---|---|---|---|---|---|
| app.js:83-85 | after a failed validation the handler answers 422 but does not return, so it still pushes `{ id }` with no other fields | POST /movies with body `{}`; then GET /movies?genre=drama answers 500, because the new record has no `genre` | return right after the 422 and leave the collection unchanged | not executed | App.MovieStore.CreateMovie | App.MovieStore.CreateMovieChecked |
