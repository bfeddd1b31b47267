/**
 * The movie record validator: a fixed constraint table over seven keys,
 * run either in full mode (every key but `rate` required, `rate` defaults
 * to 0) or in partial mode (every key optional, no defaults). Keys outside
 * the table are stripped from the validated data.
 */
module MovieSchema {
  import opened Wrappers
  import opened Json

  // ---------------------------------------------------------------------
  // The genre enum
  // ---------------------------------------------------------------------

  /** The closed genre set; `Comdey` is spelled as the schema spells it. */
  datatype Genre = Action | Adventure | Comdey | Drama | Fantasy | Horror | Thriller | SciFi | Crime

  /** The enum's labels, in the schema's order. */
  const GenreLabels: seq<string> :=
    ["Action", "Adventure", "Comdey", "Drama", "Fantasy", "Horror", "Thriller", "Sci-Fi", "Crime"]

  function Label(g: Genre): (s: string)
    ensures s in GenreLabels
  {
    match g
    case Action => "Action"
    case Adventure => "Adventure"
    case Comdey => "Comdey"
    case Drama => "Drama"
    case Fantasy => "Fantasy"
    case Horror => "Horror"
    case Thriller => "Thriller"
    case SciFi => "Sci-Fi"
    case Crime => "Crime"
  }

  /** The enum check: a label is accepted exactly when it is one of the nine. */
  function ParseGenre(s: string): (r: Option<Genre>)
    ensures r.Some? <==> s in GenreLabels
    ensures r.Some? ==> Label(r.value) == s
  {
    if s == "Action" then Some(Action)
    else if s == "Adventure" then Some(Adventure)
    else if s == "Comdey" then Some(Comdey)
    else if s == "Drama" then Some(Drama)
    else if s == "Fantasy" then Some(Fantasy)
    else if s == "Horror" then Some(Horror)
    else if s == "Thriller" then Some(Thriller)
    else if s == "Sci-Fi" then Some(SciFi)
    else if s == "Crime" then Some(Crime)
    else None
  }

  /** The JSON form of a validated genre list. */
  function LabelValues(gs: seq<Genre>): (vs: seq<Value>)
    ensures |vs| == |gs|
    ensures forall i :: 0 <= i < |gs| ==> vs[i] == JStr(Label(gs[i]))
  {
    seq(|gs|, i requires 0 <= i < |gs| => JStr(Label(gs[i])))
  }

  lemma LabelValuesCons(g: Genre, gs: seq<Genre>)
    ensures LabelValues([g] + gs) == [JStr(Label(g))] + LabelValues(gs)
  {
    assert forall i :: 0 <= i < |gs| + 1 ==> LabelValues([g] + gs)[i] == ([JStr(Label(g))] + LabelValues(gs))[i];
  }

  // ---------------------------------------------------------------------
  // Issues
  // ---------------------------------------------------------------------

  datatype PathSegment = Key(name: string) | Index(i: nat)

  /**
   * The failing constraint. `Required`, `InvalidType` and `NotInteger`
   * are all reported by the schema library as "invalid_type" issues.
   */
  datatype IssueCode = Required | InvalidType | NotInteger | TooSmall | TooBig | InvalidEnumValue | InvalidUrl

  datatype Issue = Issue(path: seq<PathSegment>, code: IssueCode)

  function At(key: string, code: IssueCode): Issue {
    Issue([Key(key)], code)
  }

  /** A non-empty list of issues whose paths all start at `key`. */
  predicate Under(issues: seq<Issue>, key: string) {
    && issues != []
    && (forall i :: 0 <= i < |issues| ==> |issues[i].path| > 0 && issues[i].path[0] == Key(key))
  }

  /** A non-empty list of issues, all under `key`, none of them "missing". */
  predicate IssuesAt(issues: seq<Issue>, key: string) {
    Under(issues, key) && NoneMissing(issues)
  }

  /** Some issue has a path that starts at `key`. */
  predicate ReportsKey(issues: seq<Issue>, key: string) {
    exists j :: 0 <= j < |issues| && |issues[j].path| > 0 && issues[j].path[0] == Key(key)
  }

  /** No issue reports a key as missing. */
  predicate NoneMissing(issues: seq<Issue>) {
    forall i :: 0 <= i < |issues| ==> issues[i].code != Required
  }

  // ---------------------------------------------------------------------
  // The constraint table, stated directly
  // ---------------------------------------------------------------------

  const SchemaKeys: set<string> := {"title", "year", "director", "duration", "rate", "poster", "genre"}

  /** Every key but `rate`, which has a default. */
  const RequiredKeys: set<string> := {"title", "year", "director", "duration", "poster", "genre"}

  /** `Number.isInteger` on a finite number. */
  predicate IsInteger(n: real) {
    n.Floor as real == n
  }

  predicate YearOk(v: Value) {
    v.JNum? && IsInteger(v.n) && 1900.0 <= v.n <= 2024.0
  }

  predicate DurationOk(v: Value) {
    v.JNum? && IsInteger(v.n) && v.n > 0.0
  }

  predicate RateOk(v: Value) {
    v.JNum? && 0.0 <= v.n <= 10.0
  }

  predicate PosterOk(isUrl: string -> bool, v: Value) {
    v.JStr? && isUrl(v.s)
  }

  predicate IsGenreLabel(v: Value) {
    v.JStr? && v.s in GenreLabels
  }

  predicate GenreOk(v: Value) {
    v.JArr? && forall i :: 0 <= i < |v.elems| ==> IsGenreLabel(v.elems[i])
  }

  /** The constraint on the value of schema key `key`; a key outside the schema has none. */
  predicate KeyOk(isUrl: string -> bool, key: string, v: Value) {
    if key == "title" || key == "director" then v.JStr?
    else if key == "year" then YearOk(v)
    else if key == "duration" then DurationOk(v)
    else if key == "rate" then RateOk(v)
    else if key == "poster" then PosterOk(isUrl, v)
    else if key == "genre" then GenreOk(v)
    else true
  }

  datatype Mode = Full | Partial

  /**
   * An object conforms when, in full mode, every required key is present,
   * and, in either mode, every schema key present meets its constraint.
   */
  predicate Conforms(mode: Mode, isUrl: string -> bool, m: Object) {
    && (mode == Full ==> RequiredKeys <= m.Keys)
    && (forall k :: k in m && k in SchemaKeys ==> KeyOk(isUrl, k, m[k]))
  }

  /**
   * Key `key` is at fault in `m`: it is present and breaks its constraint,
   * or, in full mode, it is required and missing.
   */
  predicate KeyBroken(mode: Mode, isUrl: string -> bool, m: Object, key: string) {
    key in SchemaKeys &&
    if key in m then !KeyOk(isUrl, key, m[key]) else mode == Full && key in RequiredKeys
  }

  // ---------------------------------------------------------------------
  // Per-key parsers (one present value each)
  // ---------------------------------------------------------------------

  function Check(ok: bool, key: string, code: IssueCode): (issues: seq<Issue>)
    ensures ok <==> issues == []
  {
    if ok then [] else [At(key, code)]
  }

  /** `zod.string()`, used for `title` and `director`. */
  function ParseString(key: string, v: Value): (r: Result<string, seq<Issue>>)
    ensures r.Success? <==> v.JStr?
    ensures r.Success? ==> JStr(r.value) == v
    ensures r.Failure? ==> IssuesAt(r.error, key)
  {
    match v
    case JStr(s) => Success(s)
    case _ => Failure([At(key, InvalidType)])
  }

  /** `zod.number().int().min(1900).max(2024)`: every failing check is reported. */
  function ParseYear(v: Value): (r: Result<int, seq<Issue>>)
    ensures r.Success? <==> YearOk(v)
    ensures r.Success? ==> JNum(r.value as real) == v
    ensures r.Failure? ==> IssuesAt(r.error, "year")
  {
    match v
    case JNum(n) =>
      var issues := Check(IsInteger(n), "year", NotInteger)
                  + Check(n >= 1900.0, "year", TooSmall)
                  + Check(n <= 2024.0, "year", TooBig);
      if issues == [] then Success(n.Floor) else Failure(issues)
    case _ => Failure([At("year", InvalidType)])
  }

  /** `zod.number().int().positive()`. */
  function ParseDuration(v: Value): (r: Result<int, seq<Issue>>)
    ensures r.Success? <==> DurationOk(v)
    ensures r.Success? ==> JNum(r.value as real) == v
    ensures r.Failure? ==> IssuesAt(r.error, "duration")
  {
    match v
    case JNum(n) =>
      var issues := Check(IsInteger(n), "duration", NotInteger)
                  + Check(n > 0.0, "duration", TooSmall);
      if issues == [] then Success(n.Floor) else Failure(issues)
    case _ => Failure([At("duration", InvalidType)])
  }

  /** `zod.number().min(0).max(10)`, for a `rate` that is present. */
  function ParseRate(v: Value): (r: Result<real, seq<Issue>>)
    ensures r.Success? <==> RateOk(v)
    ensures r.Success? ==> JNum(r.value) == v
    ensures r.Failure? ==> IssuesAt(r.error, "rate")
  {
    match v
    case JNum(n) =>
      var issues := Check(n >= 0.0, "rate", TooSmall) + Check(n <= 10.0, "rate", TooBig);
      if issues == [] then Success(n) else Failure(issues)
    case _ => Failure([At("rate", InvalidType)])
  }

  /** `zod.string().url()`; the URL test itself is the parameter `isUrl`. */
  function ParsePoster(isUrl: string -> bool, v: Value): (r: Result<string, seq<Issue>>)
    ensures r.Success? <==> PosterOk(isUrl, v)
    ensures r.Success? ==> JStr(r.value) == v
    ensures r.Failure? ==> IssuesAt(r.error, "poster")
  {
    match v
    case JStr(s) => if isUrl(s) then Success(s) else Failure([At("poster", InvalidUrl)])
    case _ => Failure([At("poster", InvalidType)])
  }

  /** The enum check on one element of `genre`, at index `i`. */
  function ParseGenreElem(v: Value, i: nat): (r: Result<Genre, seq<Issue>>)
    ensures r.Success? <==> IsGenreLabel(v)
    ensures r.Success? ==> JStr(Label(r.value)) == v
    ensures r.Failure? ==>
      r.error == [Issue([Key("genre"), Index(i)], if v.JStr? then InvalidEnumValue else InvalidType)]
  {
    match v
    case JStr(s) =>
      (match ParseGenre(s)
       case Some(g) => Success(g)
       case None => Failure([Issue([Key("genre"), Index(i)], InvalidEnumValue)]))
    case _ => Failure([Issue([Key("genre"), Index(i)], InvalidType)])
  }

  /** The elements `elems` of `genre`, the first of them at index `from`; all are checked. */
  function ParseGenreElems(elems: seq<Value>, from: nat): (r: Result<seq<Genre>, seq<Issue>>)
    ensures r.Success? <==> forall i :: 0 <= i < |elems| ==> IsGenreLabel(elems[i])
    ensures r.Success? ==> LabelValues(r.value) == elems
    ensures r.Failure? ==> IssuesAt(r.error, "genre")
    decreases |elems|
  {
    if elems == [] then Success([])
    else
      var head := ParseGenreElem(elems[0], from);
      var tail := ParseGenreElems(elems[1..], from + 1);
      assert elems == [elems[0]] + elems[1..];
      assert (forall i :: 0 <= i < |elems| ==> IsGenreLabel(elems[i]))
         <==> IsGenreLabel(elems[0]) && forall i :: 0 <= i < |elems[1..]| ==> IsGenreLabel(elems[1..][i]);
      if head.Success? && tail.Success? then
        LabelValuesCons(head.value, tail.value);
        Success([head.value] + tail.value)
      else
        IssuesAtConcat(IssuesOf(head), IssuesOf(tail), "genre");
        Failure(IssuesOf(head) + IssuesOf(tail))
  }

  /** `zod.array(zod.enum([...]))`: an array, possibly empty, of genre labels. */
  function ParseGenres(v: Value): (r: Result<seq<Genre>, seq<Issue>>)
    ensures r.Success? <==> GenreOk(v)
    ensures r.Success? ==> JArr(LabelValues(r.value)) == v
    ensures r.Failure? ==> IssuesAt(r.error, "genre")
  {
    match v
    case JArr(elems) => ParseGenreElems(elems, 0)
    case _ => Failure([At("genre", InvalidType)])
  }

  // ---------------------------------------------------------------------
  // The object schema
  // ---------------------------------------------------------------------

  /** Validated data: a field is `None` when the key was absent and had no default. */
  datatype Fields = Fields(
    title: Option<string>,
    year: Option<int>,
    director: Option<string>,
    duration: Option<int>,
    rate: Option<real>,
    poster: Option<string>,
    genre: Option<seq<Genre>>)

  /** Whether the validated data carries a value for `key`. */
  predicate Has(f: Fields, key: string) {
    if key == "title" then f.title.Some?
    else if key == "year" then f.year.Some?
    else if key == "director" then f.director.Some?
    else if key == "duration" then f.duration.Some?
    else if key == "rate" then f.rate.Some?
    else if key == "poster" then f.poster.Some?
    else if key == "genre" then f.genre.Some?
    else false
  }

  /** The keys for which the validated data carries a value. */
  function PresentKeys(f: Fields): (keys: set<string>)
    ensures keys <= SchemaKeys
    ensures forall k :: k in keys <==> Has(f, k)
  {
    set k | k in SchemaKeys && Has(f, k)
  }

  /** The JSON value of a field that is present. */
  function FieldValue(f: Fields, key: string): Value
    requires Has(f, key)
  {
    if key == "title" then JStr(f.title.value)
    else if key == "year" then JNum(f.year.value as real)
    else if key == "director" then JStr(f.director.value)
    else if key == "duration" then JNum(f.duration.value as real)
    else if key == "rate" then JNum(f.rate.value)
    else if key == "poster" then JStr(f.poster.value)
    else JArr(LabelValues(f.genre.value))
  }

  /** The validated data as the JSON object the handlers spread into a record. */
  function ToObject(f: Fields): (o: Object)
    ensures o.Keys == PresentKeys(f)
    ensures "id" !in o
  {
    map k | k in PresentKeys(f) :: FieldValue(f, k)
  }

  function IssuesOf<T>(r: Result<T, seq<Issue>>): seq<Issue> {
    if r.Failure? then r.error else []
  }

  function Lift<T>(r: Result<T, seq<Issue>>): (o: Result<Option<T>, seq<Issue>>)
    ensures o.Success? <==> r.Success?
    ensures o.Success? ==> o.value == Some(r.value)
    ensures o.Failure? ==> o.error == r.error
  {
    match r
    case Success(t) => Success(Some(t))
    case Failure(e) => Failure(e)
  }

  /** A schema key missing from the input: an issue in full mode, nothing in partial mode. */
  function Absent<T>(mode: Mode, key: string): (o: Result<Option<T>, seq<Issue>>)
    ensures o.Success? <==> mode == Partial
    ensures o.Success? ==> o.value == None
    ensures o.Failure? ==> o.error == [At(key, Required)]
  {
    if mode == Partial then Success(None) else Failure([At(key, Required)])
  }

  /** The outcome of each key of the shape, in the schema's order. */
  datatype Slots = Slots(
    title: Result<Option<string>, seq<Issue>>,
    year: Result<Option<int>, seq<Issue>>,
    director: Result<Option<string>, seq<Issue>>,
    duration: Result<Option<int>, seq<Issue>>,
    rate: Result<Option<real>, seq<Issue>>,
    poster: Result<Option<string>, seq<Issue>>,
    genre: Result<Option<seq<Genre>>, seq<Issue>>)

  /** Every key of the object `m` checked on its own; `rate` has the default 0 in full mode. */
  function ParseSlots(mode: Mode, isUrl: string -> bool, m: Object): Slots {
    Slots(
      title := if "title" in m then Lift(ParseString("title", m["title"])) else Absent(mode, "title"),
      year := if "year" in m then Lift(ParseYear(m["year"])) else Absent(mode, "year"),
      director := if "director" in m then Lift(ParseString("director", m["director"])) else Absent(mode, "director"),
      duration := if "duration" in m then Lift(ParseDuration(m["duration"])) else Absent(mode, "duration"),
      rate :=
        if "rate" in m then Lift(ParseRate(m["rate"]))
        else if mode == Full then Success(Some(0.0))
        else Success(None),
      poster := if "poster" in m then Lift(ParsePoster(isUrl, m["poster"])) else Absent(mode, "poster"),
      genre := if "genre" in m then Lift(ParseGenres(m["genre"])) else Absent(mode, "genre"))
  }

  predicate AllOk(s: Slots) {
    && s.title.Success? && s.year.Success? && s.director.Success? && s.duration.Success?
    && s.rate.Success? && s.poster.Success? && s.genre.Success?
  }

  /** The issues of all keys, concatenated in the schema's order. */
  function SlotIssues(s: Slots): seq<Issue> {
    IssuesOf(s.title) + IssuesOf(s.year) + IssuesOf(s.director) + IssuesOf(s.duration)
    + IssuesOf(s.rate) + IssuesOf(s.poster) + IssuesOf(s.genre)
  }

  function FieldsOf(s: Slots): Fields
    requires AllOk(s)
  {
    Fields(s.title.value, s.year.value, s.director.value, s.duration.value,
           s.rate.value, s.poster.value, s.genre.value)
  }

  /**
   * `safeParse` of the object schema (full mode) or of its `partial()`
   * version. Every key is checked and the issues of all keys are collected;
   * a body that is not an object fails at the root.
   */
  function SafeParse(mode: Mode, isUrl: string -> bool, body: Value): (r: Result<Fields, seq<Issue>>)
    ensures !body.JObj? ==> r == Failure([Issue([], InvalidType)])
  {
    match body
    case JObj(m) =>
      var s := ParseSlots(mode, isUrl, m);
      if AllOk(s) then Success(FieldsOf(s)) else Failure(SlotIssues(s))
    case _ => Failure([Issue([], InvalidType)])
  }

  /** The slots all succeed exactly when the object conforms. */
  lemma SlotsConform(mode: Mode, isUrl: string -> bool, m: Object)
    ensures AllOk(ParseSlots(mode, isUrl, m)) <==> Conforms(mode, isUrl, m)
  {
  }

  /** A failing slot contributes issues; in partial mode none says "missing". */
  lemma SlotIssuesReported(mode: Mode, isUrl: string -> bool, m: Object)
    ensures var s := ParseSlots(mode, isUrl, m);
      !AllOk(s) ==> SlotIssues(s) != [] && (mode == Partial ==> NoneMissing(SlotIssues(s)))
  {
    var s := ParseSlots(mode, isUrl, m);
    NoneMissingOfParts(IssuesOf(s.title), IssuesOf(s.year), IssuesOf(s.director), IssuesOf(s.duration),
                       IssuesOf(s.rate), IssuesOf(s.poster), IssuesOf(s.genre));
  }

  /** A slot reports `key` exactly when it failed and belongs to `key`. */
  lemma SlotReports<T>(r: Result<Option<T>, seq<Issue>>, owner: string, key: string)
    requires r.Failure? ==> Under(r.error, owner)
    ensures ReportsKey(IssuesOf(r), key) <==> r.Failure? && owner == key
  {
    if r.Failure? {
      assert r.error[0].path[0] == Key(owner);
      if ReportsKey(r.error, key) {
        var j :| 0 <= j < |r.error| && |r.error[j].path| > 0 && r.error[j].path[0] == Key(key);
        assert r.error[j].path[0] == Key(owner);
      }
    }
  }

  lemma ReportsAppend(a: seq<Issue>, b: seq<Issue>, key: string)
    ensures ReportsKey(a + b, key) <==> ReportsKey(a, key) || ReportsKey(b, key)
  {
    if ReportsKey(a, key) {
      var j :| 0 <= j < |a| && |a[j].path| > 0 && a[j].path[0] == Key(key);
      assert (a + b)[j] == a[j];
    }
    if ReportsKey(b, key) {
      var j :| 0 <= j < |b| && |b[j].path| > 0 && b[j].path[0] == Key(key);
      assert (a + b)[|a| + j] == b[j];
    }
    if ReportsKey(a + b, key) {
      var j :| 0 <= j < |a + b| && |(a + b)[j].path| > 0 && (a + b)[j].path[0] == Key(key);
      if j < |a| { assert (a + b)[j] == a[j]; } else { assert (a + b)[j] == b[j - |a|]; }
    }
  }

  /** The slot that belongs to `key` failed. */
  predicate SlotFailed(s: Slots, key: string) {
    || (key == "title" && s.title.Failure?)
    || (key == "year" && s.year.Failure?)
    || (key == "director" && s.director.Failure?)
    || (key == "duration" && s.duration.Failure?)
    || (key == "rate" && s.rate.Failure?)
    || (key == "poster" && s.poster.Failure?)
    || (key == "genre" && s.genre.Failure?)
  }

  /** Every failing slot's issues sit under its own key. */
  predicate SlotsUnder(s: Slots) {
    && (s.title.Failure? ==> Under(s.title.error, "title"))
    && (s.year.Failure? ==> Under(s.year.error, "year"))
    && (s.director.Failure? ==> Under(s.director.error, "director"))
    && (s.duration.Failure? ==> Under(s.duration.error, "duration"))
    && (s.rate.Failure? ==> Under(s.rate.error, "rate"))
    && (s.poster.Failure? ==> Under(s.poster.error, "poster"))
    && (s.genre.Failure? ==> Under(s.genre.error, "genre"))
  }

  /** The concatenated issues report `key` exactly when its slot failed. */
  lemma SlotIssuesReportKey(s: Slots, key: string)
    requires SlotsUnder(s)
    ensures ReportsKey(SlotIssues(s), key) <==> SlotFailed(s, key)
  {
    SlotReports(s.title, "title", key);
    SlotReports(s.year, "year", key);
    SlotReports(s.director, "director", key);
    SlotReports(s.duration, "duration", key);
    SlotReports(s.rate, "rate", key);
    SlotReports(s.poster, "poster", key);
    SlotReports(s.genre, "genre", key);
    var i0, i1, i2, i3 := IssuesOf(s.title), IssuesOf(s.year), IssuesOf(s.director), IssuesOf(s.duration);
    var i4, i5, i6 := IssuesOf(s.rate), IssuesOf(s.poster), IssuesOf(s.genre);
    ReportsAppend(i0, i1, key);
    ReportsAppend(i0 + i1, i2, key);
    ReportsAppend(i0 + i1 + i2, i3, key);
    ReportsAppend(i0 + i1 + i2 + i3, i4, key);
    ReportsAppend(i0 + i1 + i2 + i3 + i4, i5, key);
    ReportsAppend(i0 + i1 + i2 + i3 + i4 + i5, i6, key);
  }

  lemma ParsedSlotsUnder(mode: Mode, isUrl: string -> bool, m: Object)
    ensures SlotsUnder(ParseSlots(mode, isUrl, m))
  {
  }

  /** The slot of `key` fails exactly when that key is at fault. */
  lemma SlotFailedIff(mode: Mode, isUrl: string -> bool, m: Object, key: string)
    ensures SlotFailed(ParseSlots(mode, isUrl, m), key) <==> KeyBroken(mode, isUrl, m, key)
  {
    var s := ParseSlots(mode, isUrl, m);
    if key == "title" { assert SlotFailed(s, key) <==> s.title.Failure?; }
    else if key == "year" { assert SlotFailed(s, key) <==> s.year.Failure?; }
    else if key == "director" { assert SlotFailed(s, key) <==> s.director.Failure?; }
    else if key == "duration" { assert SlotFailed(s, key) <==> s.duration.Failure?; }
    else if key == "rate" { assert SlotFailed(s, key) <==> s.rate.Failure?; }
    else if key == "poster" { assert SlotFailed(s, key) <==> s.poster.Failure?; }
    else if key == "genre" { assert SlotFailed(s, key) <==> s.genre.Failure?; }
    else { assert !SlotFailed(s, key); }
  }

  /**
   * Both validators report an issue under `key` exactly when that key is at
   * fault: a present key breaking its constraint, or, in full mode, a
   * required key that is missing.
   */
  lemma KeyReported(mode: Mode, isUrl: string -> bool, m: Object, key: string)
    ensures var r := if mode == Full then ValidateMovie(isUrl, JObj(m)) else ValidatePartialMovie(isUrl, JObj(m));
      r.Failure? && ReportsKey(r.error, key) <==> KeyBroken(mode, isUrl, m, key)
  {
    var s := ParseSlots(mode, isUrl, m);
    ParsedSlotsUnder(mode, isUrl, m);
    SlotFailedIff(mode, isUrl, m, key);
    SlotIssuesReportKey(s, key);
    assert SafeParse(mode, isUrl, JObj(m)) == if AllOk(s) then Success(FieldsOf(s)) else Failure(SlotIssues(s));
    assert AllOk(s) ==> !SlotFailed(s, key);
  }

  /** The keys that carry a value after validation: all of them in full mode, the given ones otherwise. */
  lemma SlotsPresentKeys(mode: Mode, isUrl: string -> bool, m: Object)
    requires AllOk(ParseSlots(mode, isUrl, m))
    ensures PresentKeys(FieldsOf(ParseSlots(mode, isUrl, m)))
         == if mode == Full then SchemaKeys else m.Keys * SchemaKeys
  {
    var f := FieldsOf(ParseSlots(mode, isUrl, m));
    assert forall k :: k in SchemaKeys ==> (Has(f, k) <==> mode == Full || k in m);
  }

  /** What callers of either mode may rely on. */
  lemma SafeParseContract(mode: Mode, isUrl: string -> bool, body: Value)
    ensures var r := SafeParse(mode, isUrl, body);
      && (body.JObj? ==> (r.Success? <==> Conforms(mode, isUrl, body.fields)))
      && (r.Failure? ==> r.error != [])
      && (mode == Partial && r.Failure? ==> NoneMissing(r.error))
      && (r.Success? ==> body.JObj? && PresentKeys(r.value)
                           == if mode == Full then SchemaKeys else body.fields.Keys * SchemaKeys)
  {
    if body.JObj? {
      SlotsConform(mode, isUrl, body.fields);
      SlotIssuesReported(mode, isUrl, body.fields);
      if AllOk(ParseSlots(mode, isUrl, body.fields)) {
        SlotsPresentKeys(mode, isUrl, body.fields);
      }
    }
  }

  /** `validateMovie`: the full schema. */
  function ValidateMovie(isUrl: string -> bool, body: Value): (r: Result<Fields, seq<Issue>>)
    ensures body.JObj? ==> (r.Success? <==> Conforms(Full, isUrl, body.fields))
    ensures r.Failure? ==> r.error != []
    ensures r.Success? ==> body.JObj? && PresentKeys(r.value) == SchemaKeys
  {
    SafeParseContract(Full, isUrl, body);
    SafeParse(Full, isUrl, body)
  }

  /** `validatePartialMovie`: the schema with every key optional and no default. */
  function ValidatePartialMovie(isUrl: string -> bool, body: Value): (r: Result<Fields, seq<Issue>>)
    ensures body.JObj? ==> (r.Success? <==> Conforms(Partial, isUrl, body.fields))
    ensures r.Failure? ==> r.error != [] && NoneMissing(r.error)
    ensures r.Success? ==> body.JObj? && PresentKeys(r.value) == body.fields.Keys * SchemaKeys
  {
    SafeParseContract(Partial, isUrl, body);
    SafeParse(Partial, isUrl, body)
  }

  // ---------------------------------------------------------------------
  // Properties of the two modes
  // ---------------------------------------------------------------------

  /** The input restricted to the schema's keys: what survives stripping. */
  function Restrict(m: Object): (o: Object)
    ensures o.Keys == m.Keys * SchemaKeys
    ensures forall k :: k in o ==> o[k] == m[k]
  {
    map k | k in m && k in SchemaKeys :: m[k]
  }

  /**
   * The validated data is the input with unknown keys stripped and, in full
   * mode only, `rate` defaulted to 0.
   */
  lemma ValidatedDataMirrorsInput(mode: Mode, isUrl: string -> bool, m: Object)
    requires SafeParse(mode, isUrl, JObj(m)).Success?
    ensures ToObject(SafeParse(mode, isUrl, JObj(m)).value)
         == Restrict(m) + (if mode == Full && "rate" !in m then map["rate" := JNum(0.0)] else map[])
  {
    var s := ParseSlots(mode, isUrl, m);
    var f := FieldsOf(s);
    var want := Restrict(m) + (if mode == Full && "rate" !in m then map["rate" := JNum(0.0)] else map[]);
    forall k | k in SchemaKeys
      ensures Has(f, k) <==> k in want
      ensures Has(f, k) ==> FieldValue(f, k) == want[k]
    {
    }
    ToObjectEquals(f, want);
  }

  /** Two objects with the same keys and the same values are equal. */
  lemma ToObjectEquals(f: Fields, want: Object)
    requires want.Keys <= SchemaKeys
    requires forall k :: k in SchemaKeys ==> (Has(f, k) <==> k in want)
    requires forall k :: k in SchemaKeys && Has(f, k) ==> FieldValue(f, k) == want[k]
    ensures ToObject(f) == want
  {
    assert ToObject(f).Keys == want.Keys;
  }

  /** Every input full validation accepts, partial validation accepts too, with `rate` left undefaulted. */
  lemma FullImpliesPartial(isUrl: string -> bool, body: Value)
    requires ValidateMovie(isUrl, body).Success?
    ensures ValidatePartialMovie(isUrl, body).Success?
    ensures var f := ValidateMovie(isUrl, body).value;
      ValidatePartialMovie(isUrl, body).value
        == f.(rate := if "rate" in body.fields then f.rate else None)
  {
  }

  /** Partial validation of `{}` succeeds and yields no data at all. */
  lemma EmptyPartial(isUrl: string -> bool)
    ensures ValidatePartialMovie(isUrl, JObj(map[])) == Success(Fields(None, None, None, None, None, None, None))
    ensures ToObject(ValidatePartialMovie(isUrl, JObj(map[])).value) == map[]
  {
  }

  /** A `rate` that is absent becomes 0 in full mode and stays absent in partial mode. */
  lemma RateDefault(mode: Mode, isUrl: string -> bool, m: Object)
    requires "rate" !in m
    requires SafeParse(mode, isUrl, JObj(m)).Success?
    ensures SafeParse(mode, isUrl, JObj(m)).value.rate == if mode == Full then Some(0.0) else None
  {
  }

  /** A required key missing from the input makes full validation report it as missing. */
  lemma MissingKeyReported(isUrl: string -> bool, m: Object, key: string)
    requires key in RequiredKeys && key !in m
    ensures ValidateMovie(isUrl, JObj(m)).Failure?
    ensures At(key, Required) in ValidateMovie(isUrl, JObj(m)).error
  {
    var s := ParseSlots(Full, isUrl, m);
    var missing := [At(key, Required)];
    if key == "title" { assert IssuesOf(s.title) == missing; }
    else if key == "year" { assert IssuesOf(s.year) == missing; }
    else if key == "director" { assert IssuesOf(s.director) == missing; }
    else if key == "duration" { assert IssuesOf(s.duration) == missing; }
    else if key == "poster" { assert IssuesOf(s.poster) == missing; }
    else { assert IssuesOf(s.genre) == missing; }
    assert !AllOk(s);
    assert ValidateMovie(isUrl, JObj(m)) == Failure(SlotIssues(s));
  }

  lemma NoneMissingOfParts(p0: seq<Issue>, p1: seq<Issue>, p2: seq<Issue>, p3: seq<Issue>,
                           p4: seq<Issue>, p5: seq<Issue>, p6: seq<Issue>)
    ensures && NoneMissing(p0) && NoneMissing(p1) && NoneMissing(p2) && NoneMissing(p3)
            && NoneMissing(p4) && NoneMissing(p5) && NoneMissing(p6)
            ==> NoneMissing(p0 + p1 + p2 + p3 + p4 + p5 + p6)
  {
    NoneMissingConcat(p0, p1);
    NoneMissingConcat(p0 + p1, p2);
    NoneMissingConcat(p0 + p1 + p2, p3);
    NoneMissingConcat(p0 + p1 + p2 + p3, p4);
    NoneMissingConcat(p0 + p1 + p2 + p3 + p4, p5);
    NoneMissingConcat(p0 + p1 + p2 + p3 + p4 + p5, p6);
  }

  lemma IssuesAtConcat(a: seq<Issue>, b: seq<Issue>, key: string)
    ensures (a == [] || IssuesAt(a, key)) && (b == [] || IssuesAt(b, key)) && a + b != []
            ==> IssuesAt(a + b, key)
  {
    if (a == [] || IssuesAt(a, key)) && (b == [] || IssuesAt(b, key)) && a + b != [] {
      forall i | 0 <= i < |a + b|
        ensures |(a + b)[i].path| > 0 && (a + b)[i].path[0] == Key(key) && (a + b)[i].code != Required
      {
        if i < |a| { assert (a + b)[i] == a[i]; } else { assert (a + b)[i] == b[i - |a|]; }
      }
    }
  }

  lemma NoneMissingConcat(a: seq<Issue>, b: seq<Issue>)
    ensures NoneMissing(a) && NoneMissing(b) ==> NoneMissing(a + b)
  {
    if NoneMissing(a) && NoneMissing(b) {
      forall i | 0 <= i < |a + b|
        ensures (a + b)[i].code != Required
      {
        if i >= |a| { assert (a + b)[i] == b[i - |a|]; }
      }
    }
  }
}
