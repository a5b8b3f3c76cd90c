/**
 * The player routes of `routes/playerRoutes.js`: the upload filter, the query and sort that
 * `GET /` hands to MongoDB, the comma-separated tag parser, the document data `POST /` builds
 * and the field merge of `PUT /:id`, applied in place to the loaded document.
 */
module PlayerRoutes {
  import opened Wrappers
  import opened Seqs
  import opened Text
  import opened Players

  // ---------------------------------------------------------------------------------------------
  // The upload filter

  /** `/jpeg|jpg|png|gif/.test(s)`: one of the four alternatives occurs in `s`, case-sensitively. */
  predicate AllowedType(s: string) {
    Contains(s, "jpeg") || Contains(s, "jpg") || Contains(s, "png") || Contains(s, "gif")
  }

  /** The position of the last `.` in `s`. */
  function LastDot(s: string): (r: Option<nat>)
    ensures r.Some? ==> r.value < |s| && s[r.value] == '.' && forall j :: r.value < j < |s| ==> s[j] != '.'
    ensures r.None? ==> forall j :: 0 <= j < |s| ==> s[j] != '.'
    decreases |s|
  {
    if s == [] then None
    else if s[|s| - 1] == '.' then Some(|s| - 1)
    else LastDot(s[..|s| - 1])
  }

  /**
   * `path.extname(name)` for a name without `/`: from the last `.` to the end, or nothing when
   * there is no `.`, when the only candidate starts the name, or for `..`.
   */
  function ExtName(name: string): (r: string)
    ensures |r| <= |name| && r == name[|name| - |r|..]
    ensures r == [] || (r[0] == '.' && forall j :: 1 <= j < |r| ==> r[j] != '.')
    ensures r != [] <==> (exists k :: 0 < k < |name| && name[k] == '.') && name != ".."
  {
    match LastDot(name)
    case None => []
    case Some(k) => if k == 0 || name == ".." then [] else name[k..]
  }

  /** The `fileFilter` of the upload: both the lower-cased extension and the MIME type must name an image type. */
  predicate FileFilter(originalname: string, mimetype: string) {
    AllowedType(Lower(ExtName(originalname))) && AllowedType(mimetype)
  }

  const MaxUploadBytes: nat := 5 * 1024 * 1024
  const NotImageMessage := "Only image files are allowed!"
  const TooLargeMessage := "File size too large. Maximum size is 5MB."

  /** An uploaded file as multer sees it. */
  datatype Upload = Upload(originalname: string, mimetype: string, size: nat)

  /** What multer does with an upload: the filter runs first, then the size limit (`limits.fileSize`). */
  datatype UploadOutcome = Saved | FilterRefused | TooLarge

  function OutcomeOf(u: Upload): (r: UploadOutcome)
    ensures r.Saved? <==> FileFilter(u.originalname, u.mimetype) && u.size <= MaxUploadBytes
    ensures r.FilterRefused? <==> !FileFilter(u.originalname, u.mimetype)
    ensures r.TooLarge? <==> FileFilter(u.originalname, u.mimetype) && u.size > MaxUploadBytes
  {
    if !FileFilter(u.originalname, u.mimetype) then FilterRefused
    else if u.size > MaxUploadBytes then TooLarge
    else Saved
  }

  /** A status and, when the route itself answers, the `message` of its JSON body. */
  datatype Reply = Reply(status: nat, message: Option<string>)

  /** The status of Express's final handler for an error without a status of its own. */
  const DefaultErrorStatus: nat := 500

  /**
   * The answer to a refused upload as the server is wired: `upload.single('image')` runs as
   * middleware and hands its error to `next`, the route's handler (and its `catch`) is skipped,
   * and with no error-handling middleware in `server.js` Express's final handler answers 500
   * with its own page. `None` when the file is saved and the handler runs.
   */
  function RefusalReply(u: Upload): (r: Option<Reply>)
    ensures r.None? <==> OutcomeOf(u).Saved?
    ensures r.Some? ==> r.value == Reply(DefaultErrorStatus, None)
  {
    if OutcomeOf(u).Saved? then None else Some(Reply(DefaultErrorStatus, None))
  }

  /** The route's size message is never what a client gets for an upload. */
  lemma SizeMessageNeverSent(u: Upload)
    ensures RefusalReply(u).Some? ==> RefusalReply(u).value.status == 500 && RefusalReply(u).value.message != Some(TooLargeMessage)
    ensures u.size > MaxUploadBytes ==> RefusalReply(u).Some? && RefusalReply(u).value.status != 400
  {
  }

  /**
   * The reply the `catch` blocks of `POST /` and `PUT /:id` are written to give, had multer's
   * error reached them: a `LIMIT_FILE_SIZE` error gets 400 and the size message, any other
   * error 400 and its own message.
   */
  function IntendedRefusalReply(u: Upload): (r: Option<Reply>)
    ensures r.None? <==> OutcomeOf(u).Saved?
    ensures r.Some? ==> r.value.status == 400
    ensures r.Some? ==> (r.value.message == Some(TooLargeMessage) <==> FileFilter(u.originalname, u.mimetype))
    ensures r.Some? && !FileFilter(u.originalname, u.mimetype) ==> r.value.message == Some(NotImageMessage)
  {
    match OutcomeOf(u)
    case Saved => None
    case TooLarge => Some(Reply(400, Some(TooLargeMessage)))
    case FilterRefused => Some(Reply(400, Some(NotImageMessage)))
  }

  /** The two replies agree on which uploads are refused and differ on every refused one. */
  lemma RefusalsDiffer(u: Upload)
    ensures RefusalReply(u).None? <==> IntendedRefusalReply(u).None?
    ensures RefusalReply(u).Some? ==> RefusalReply(u) != IntendedRefusalReply(u)
  {
  }

  /** A file the filter passes has an extension. */
  lemma FilterNeedsExtension(originalname: string, mimetype: string)
    requires FileFilter(originalname, mimetype)
    ensures ExtName(originalname) != []
  {
  }

  /** A dot with no dot after it is the last one. */
  lemma {:induction false} LastDotAt(s: string, k: nat)
    requires k < |s| && s[k] == '.'
    requires forall j :: k < j < |s| ==> s[j] != '.'
    ensures LastDot(s) == Some(k)
    decreases |s|
  {
    if k < |s| - 1 {
      LastDotAt(s[..|s| - 1], k);
    }
  }

  /** Lower-casing keeps every dot where it is and adds none. */
  lemma {:induction false} LastDotLower(s: string)
    ensures LastDot(Lower(s)) == LastDot(s)
    decreases |s|
  {
    if s != [] {
      assert Lower(s)[..|s| - 1] == Lower(s[..|s| - 1]);
      LastDotLower(s[..|s| - 1]);
    }
  }

  lemma LowerTwice(s: string)
    ensures Lower(Lower(s)) == Lower(s)
  {
  }

  lemma LowerSuffix(s: string, k: nat)
    requires k <= |s|
    ensures Lower(s)[k..] == Lower(s[k..])
  {
  }

  /** The extension of the lower-cased name is the lower-cased extension. */
  lemma ExtNameLower(name: string)
    ensures ExtName(Lower(name)) == Lower(ExtName(name))
  {
    LastDotLower(name);
    match LastDot(name)
    case None =>
    case Some(k) =>
      if name == ".." {
        assert Lower(name) == "..";
      } else if k != 0 {
        LowerSuffix(name, k);
      }
  }

  /** The extension is lower-cased before the test: the case of the file name never matters. */
  lemma FilterIgnoresNameCase(originalname: string, mimetype: string)
    ensures FileFilter(Lower(originalname), mimetype) == FileFilter(originalname, mimetype)
  {
    ExtNameLower(originalname);
    LowerTwice(ExtName(originalname));
  }

  /** The MIME type is not lower-cased: one without lower-case letters is refused, whatever the name. */
  lemma FilterMimeIsCaseSensitive(originalname: string, mimetype: string)
    requires forall i :: 0 <= i < |mimetype| ==> !('a' <= mimetype[i] <= 'z')
    ensures !FileFilter(originalname, mimetype)
  {
    NoFirstChar(mimetype, "jpeg");
    NoFirstChar(mimetype, "jpg");
    NoFirstChar(mimetype, "png");
    NoFirstChar(mimetype, "gif");
  }

  /** The text after the last dot of `base + "." + ext` is `ext`, when `base` is not empty. */
  lemma ExtNameOfSplit(base: string, ext: string)
    requires base != [] && '.' !in ext
    ensures ExtName(base + "." + ext) == (if base + "." + ext == ".." then [] else "." + ext)
  {
    var name := base + "." + ext;
    assert name[|base|] == '.';
    forall j | |base| < j < |name| ensures name[j] != '.' {
      assert name[j] == ext[j - |base| - 1];
    }
    LastDotAt(name, |base|);
    assert name[|base|..] == "." + ext;
  }

  /** A string no longer than one character contains none of the image type names. */
  lemma ShortNotAllowed(s: string)
    requires |s| <= 1
    ensures !AllowedType(s)
  {
    NotContains(s, "jpeg");
    NotContains(s, "jpg");
    NotContains(s, "png");
    NotContains(s, "gif");
  }

  /**
   * Only the last extension counts: for a name `base.ext` with a non-empty `base` and no dot in
   * `ext`, the filter looks at `.ext` alone (so `photo.png.exe` is judged by `.exe`).
   */
  lemma FilterUsesLastExtension(base: string, ext: string, mimetype: string)
    requires base != [] && '.' !in ext
    ensures FileFilter(base + "." + ext, mimetype) == (AllowedType(Lower("." + ext)) && AllowedType(mimetype))
  {
    ExtNameOfSplit(base, ext);
    if base + "." + ext == ".." {
      assert ext == [];
      ShortNotAllowed(Lower("." + ext));
      ShortNotAllowed(Lower([]));
    }
  }

  /** A substring of the lower-cased text after the last dot is enough: `photo.pngx` passes. */
  lemma FilterMatchesSubstrings(base: string, ext: string, mimetype: string)
    requires base != [] && '.' !in ext && AllowedType(mimetype)
    requires Contains(Lower(ext), "jpeg") || Contains(Lower(ext), "jpg") || Contains(Lower(ext), "png") || Contains(Lower(ext), "gif")
    ensures FileFilter(base + "." + ext, mimetype)
  {
    FilterUsesLastExtension(base, ext, mimetype);
    var l := Lower("." + ext);
    assert l[1..] == Lower(ext);
    assert l != [];
  }

  // ---------------------------------------------------------------------------------------------
  // Tags

  /** A request field: absent, a string, or an array (a repeated field). */
  datatype Param = Missing | Text(text: string) | List(items: seq<string>)

  /** JavaScript truthiness of a field: an array always, a string when not empty. */
  predicate Truthy(p: Param) {
    p.List? || (p.Text? && p.text != [])
  }

  /** `.map(t => t.trim()).filter(Boolean)`. */
  function CleanTags(pieces: seq<string>): (r: seq<string>)
    ensures |r| <= |pieces|
    ensures forall i :: 0 <= i < |r| ==> r[i] != [] && IsTrimmed(r[i])
    ensures (forall i :: 0 <= i < |pieces| ==> ',' !in pieces[i]) ==> forall i :: 0 <= i < |r| ==> ',' !in r[i]
    decreases |pieces|
  {
    if pieces == [] then []
    else
      var t := Trim(pieces[0]);
      TrimChars(pieces[0]);
      (if t != [] then [t] else []) + CleanTags(pieces[1..])
  }

  /**
   * The tag parser of lines 81, 149 and 194: an array passes through unchanged; a non-empty string
   * is split on commas, each piece trimmed and the empty ones dropped; anything falsy gives no tags.
   */
  function ParseTags(t: Param): (r: seq<string>)
    ensures t.List? ==> r == t.items
    ensures !Truthy(t) ==> r == []
    ensures t.Text? ==> forall i :: 0 <= i < |r| ==> r[i] != [] && IsTrimmed(r[i]) && ',' !in r[i]
  {
    match t
    case List(ts) => ts
    case Text(s) => if s == [] then [] else CleanTags(Split(s, ','))
    case Missing => []
  }

  /** A tag the form can send back unchanged: not empty, trimmed, without a comma. */
  predicate CleanTag(t: string) {
    t != [] && IsTrimmed(t) && ',' !in t
  }

  lemma {:induction false} CleanBlanked(us: seq<string>)
    requires forall i :: 0 <= i < |us| ==> CleanTag(us[i])
    ensures CleanTags(Blanked(us)) == us
    decreases |us|
  {
    if us != [] {
      BlankedCons(us);
      TrimLeadingBlank(us[0]);
      CleanBlanked(us[1..]);
    }
  }

  /**
   * The form shows a player's tags joined with `", "` and sends the string back; the route's
   * parser then gives back exactly the original tags, when each is a clean tag.
   */
  lemma TagsRoundTrip(ts: seq<string>)
    requires forall i :: 0 <= i < |ts| ==> CleanTag(ts[i])
    ensures ParseTags(Text(Join(ts, ", "))) == ts
  {
    if ts != [] {
      JoinNotEmpty(ts);
      SplitJoin(ts);
      CleanPieces(ts);
    }
  }

  lemma JoinNotEmpty(ts: seq<string>)
    requires ts != [] && ts[0] != []
    ensures Join(ts, ", ") != []
  {
    if |ts| >= 2 {
      JoinCons(ts);
    }
  }

  lemma CleanPieces(ts: seq<string>)
    requires ts != []
    requires forall i :: 0 <= i < |ts| ==> CleanTag(ts[i])
    ensures CleanTags([ts[0]] + Blanked(ts[1..])) == ts
  {
    var pieces := [ts[0]] + Blanked(ts[1..]);
    assert pieces[0] == ts[0] && pieces[1..] == Blanked(ts[1..]);
    assert Trim(pieces[0]) == ts[0] && ts[0] != [];
    assert CleanTags(pieces) == [ts[0]] + CleanTags(Blanked(ts[1..]));
    CleanBlanked(ts[1..]);
  }

  // ---------------------------------------------------------------------------------------------
  // GET /: the query and the sort

  /** A `{ $gte, $lte }` range; a bound is present only when its parameter was given. */
  datatype Range = Range(gte: Option<Number>, lte: Option<Number>)

  /**
   * The filter document, one optional clause per key: `search` stands for the `$or` of three
   * case-insensitive regex matches on name, country and role; `country`, `role` and `gender` for
   * a case-insensitive regex on that field; `tags` for `$in`.
   */
  datatype Query = Query(
    search: Option<string>,
    country: Option<string>,
    role: Option<string>,
    gender: Option<string>,
    tags: Option<seq<string>>,
    runs: Option<Range>,
    wickets: Option<Range>,
    matches: Option<Range>,
    average: Option<Range>)

  const EmptyQuery := Query(None, None, None, None, None, None, None, None, None)

  /** The query string of `GET /`; an absent parameter is the empty string (both are falsy). */
  datatype ListRequest = ListRequest(
    search: string,
    country: string,
    role: string,
    gender: string,
    tags: Param,
    runsMin: string, runsMax: string,
    wicketsMin: string, wicketsMax: string,
    matchesMin: string, matchesMax: string,
    averageMin: string, averageMax: string,
    sortBy: string,
    sortOrder: string)

  /** A range clause exists iff a bound was given; each bound is set iff its parameter was given, to its parse. */
  predicate RangeFor(r: Option<Range>, min: string, max: string, parse: string -> Number) {
    && (r.Some? <==> min != [] || max != [])
    && (r.Some? ==> r.value.gte == (if min != [] then Some(parse(min)) else None))
    && (r.Some? ==> r.value.lte == (if max != [] then Some(parse(max)) else None))
  }

  /** One numeric range filter of lines 88-107, built as the code builds it. */
  method RangeFilter(min: string, max: string, parse: string -> Number) returns (r: Option<Range>)
    ensures RangeFor(r, min, max, parse)
  {
    r := None;
    if min != [] || max != [] {
      var range := Range(None, None);
      if min != [] {
        range := range.(gte := Some(parse(min)));
      }
      if max != [] {
        range := range.(lte := Some(parse(max)));
      }
      r := Some(range);
    }
  }

  /** A text clause exists iff its parameter is not empty, and then carries it. */
  predicate TextFor(c: Option<string>, param: string) {
    (c.Some? <==> param != []) && (c.Some? ==> c.value == param)
  }

  /** Lines 53-107: the filter document, one clause at a time. */
  method BuildQuery(req: ListRequest, parseInt: string -> Number, parseFloat: string -> Number) returns (q: Query)
    ensures TextFor(q.search, req.search) && TextFor(q.country, req.country)
    ensures TextFor(q.role, req.role) && TextFor(q.gender, req.gender)
    ensures q.tags.Some? <==> Truthy(req.tags) && ParseTags(req.tags) != []
    ensures q.tags.Some? ==> q.tags.value == ParseTags(req.tags)
    ensures RangeFor(q.runs, req.runsMin, req.runsMax, parseInt)
    ensures RangeFor(q.wickets, req.wicketsMin, req.wicketsMax, parseInt)
    ensures RangeFor(q.matches, req.matchesMin, req.matchesMax, parseInt)
    ensures RangeFor(q.average, req.averageMin, req.averageMax, parseFloat)
  {
    q := EmptyQuery;
    if req.search != [] {
      q := q.(search := Some(req.search));
    }
    if req.country != [] {
      q := q.(country := Some(req.country));
    }
    if req.role != [] {
      q := q.(role := Some(req.role));
    }
    if req.gender != [] {
      q := q.(gender := Some(req.gender));
    }
    if Truthy(req.tags) {
      var tagArray := ParseTags(req.tags);
      if |tagArray| > 0 {
        q := q.(tags := Some(tagArray));
      }
    }
    var runs := RangeFilter(req.runsMin, req.runsMax, parseInt);
    var wickets := RangeFilter(req.wicketsMin, req.wicketsMax, parseInt);
    var matches := RangeFilter(req.matchesMin, req.matchesMax, parseInt);
    var average := RangeFilter(req.averageMin, req.averageMax, parseFloat);
    q := q.(runs := runs, wickets := wickets, matches := matches, average := average);
  }

  const ValidSortFields: seq<string> := ["stats.runs", "stats.wickets", "stats.matches", "stats.average", "createdAt", "name"]

  /** `{ field: order }` with order 1 (ascending) or -1 (descending). */
  datatype SortSpec = SortSpec(field: string, order: int)

  /**
   * Lines 110-116: a whitelisted `sortBy` is used, ascending exactly when `sortOrder` is `asc`;
   * anything else sorts by `createdAt`, newest first.
   */
  function SortOf(sortBy: string, sortOrder: string): (r: SortSpec)
    ensures r.field in ValidSortFields
    ensures r.order == 1 || r.order == -1
    ensures r.field == sortBy <==> sortBy in ValidSortFields
    ensures r.order == 1 <==> sortBy in ValidSortFields && sortOrder == "asc"
    ensures sortBy !in ValidSortFields ==> r == SortSpec("createdAt", -1)
  {
    if sortBy != [] && sortBy in ValidSortFields then SortSpec(sortBy, if sortOrder == "asc" then 1 else -1)
    else SortSpec("createdAt", -1)
  }

  // ---------------------------------------------------------------------------------------------
  // POST /: the new document's data

  /** The multipart body of `POST /` and `PUT /:id`; an absent field is `None`. */
  datatype Body = Body(
    name: Option<string>,
    country: Option<string>,
    role: Option<string>,
    gender: Option<string>,
    bio: Option<string>,
    tags: Param,
    matches: Option<string>,
    runs: Option<string>,
    wickets: Option<string>,
    average: Option<string>)

  predicate Given(x: Option<string>) {
    x.Some? && x.value != []
  }

  /** `parse(x)`; an absent field parses to `NaN`. */
  function ParseField(parse: string -> Number, x: Option<string>): Number {
    if x.None? then NaN else parse(x.value)
  }

  /** The numbers `stats` receives on creation. */
  datatype StatValues = StatValues(matches: real, runs: real, wickets: real, average: real)

  /** `playerData` of lines 143-161; `name`, `country` and `gender` pass through as given. */
  datatype PlayerData = PlayerData(
    name: Option<string>,
    country: Option<string>,
    role: string,
    gender: Option<string>,
    bio: string,
    tags: seq<string>,
    stats: StatValues,
    image: Option<string>)

  /** The stored path of an uploaded file. */
  function ImagePath(filename: string): string {
    "/uploads/" + filename
  }

  /**
   * Lines 141-161: a falsy role becomes `All-rounder` and a falsy bio the empty string; tags are
   * parsed; each statistic is its parse, or 0 when that is `NaN`; an upload sets the image path.
   */
  function CreateData(b: Body, filename: Option<string>, parseInt: string -> Number, parseFloat: string -> Number): (d: PlayerData)
    ensures d.role != []
    ensures Given(b.role) ==> d.role == b.role.value
    ensures !Given(b.role) ==> d.role == "All-rounder"
    ensures Given(b.bio) ==> d.bio == b.bio.value
    ensures !Given(b.bio) ==> d.bio == []
    ensures d.name == b.name && d.country == b.country && d.gender == b.gender
    ensures d.tags == ParseTags(b.tags)
    ensures ParseField(parseInt, b.matches).NaN? ==> d.stats.matches == 0.0
    ensures ParseField(parseInt, b.runs).NaN? ==> d.stats.runs == 0.0
    ensures ParseField(parseInt, b.wickets).NaN? ==> d.stats.wickets == 0.0
    ensures ParseField(parseFloat, b.average).NaN? ==> d.stats.average == 0.0
    ensures ParseField(parseInt, b.matches).Num? ==> d.stats.matches == ParseField(parseInt, b.matches).value
    ensures ParseField(parseInt, b.runs).Num? ==> d.stats.runs == ParseField(parseInt, b.runs).value
    ensures ParseField(parseInt, b.wickets).Num? ==> d.stats.wickets == ParseField(parseInt, b.wickets).value
    ensures ParseField(parseFloat, b.average).Num? ==> d.stats.average == ParseField(parseFloat, b.average).value
    ensures filename.None? ==> d.image == None
    ensures filename.Some? ==> d.image == Some("/uploads/" + filename.value)
  {
    PlayerData(
      b.name,
      b.country,
      if Given(b.role) then b.role.value else "All-rounder",
      b.gender,
      if Given(b.bio) then b.bio.value else [],
      ParseTags(b.tags),
      StatValues(
        ParseField(parseInt, b.matches).Or(0.0),
        ParseField(parseInt, b.runs).Or(0.0),
        ParseField(parseInt, b.wickets).Or(0.0),
        ParseField(parseFloat, b.average).Or(0.0)),
      if filename.Some? then Some(ImagePath(filename.value)) else None)
  }

  // ---------------------------------------------------------------------------------------------
  // PUT /:id: the field merge

  /** A statistic as stored; `NaN` is kept as a non-number. */
  function Stored(n: Number): Option<real> {
    match n
    case Num(v) => Some(v)
    case NaN => None
  }

  /**
   * Lines 188-212 as a function of the document: name and country are replaced only by a
   * non-empty value; role, gender, bio, tags and each statistic whenever the field is present;
   * the image only by an upload; the id never.
   */
  function Updated(p: Player, b: Body, filename: Option<string>, parseInt: string -> Number, parseFloat: string -> Number): (r: Player)
    ensures r.id == p.id
    ensures Given(b.name) ==> r.name == b.name.value
    ensures !Given(b.name) ==> r.name == p.name
    ensures Given(b.country) ==> r.country == b.country.value
    ensures !Given(b.country) ==> r.country == p.country
    ensures b.role.None? ==> r.role == p.role
    ensures b.role.Some? ==> r.role == b.role.value
    ensures b.gender.None? ==> r.gender == p.gender
    ensures b.gender.Some? ==> r.gender == b.gender.value
    ensures b.bio.None? ==> r.bio == p.bio
    ensures b.bio.Some? ==> r.bio == b.bio.value
    ensures b.tags.Missing? ==> r.tags == p.tags
    ensures !b.tags.Missing? ==> r.tags == ParseTags(b.tags)
    ensures b.matches.None? ==> r.stats.matches == p.stats.matches
    ensures b.runs.None? ==> r.stats.runs == p.stats.runs
    ensures b.wickets.None? ==> r.stats.wickets == p.stats.wickets
    ensures b.average.None? ==> r.stats.average == p.stats.average
    ensures filename.None? ==> r.image == p.image
    ensures filename.Some? ==> r.image == ImagePath(filename.value)
  {
    Player(
      p.id,
      if Given(b.name) then b.name.value else p.name,
      if Given(b.country) then b.country.value else p.country,
      b.role.GetOr(p.role),
      b.gender.GetOr(p.gender),
      b.bio.GetOr(p.bio),
      if b.tags.Missing? then p.tags else ParseTags(b.tags),
      Stats(
        if b.matches.None? then p.stats.matches else Stored(parseInt(b.matches.value)),
        if b.runs.None? then p.stats.runs else Stored(parseInt(b.runs.value)),
        if b.wickets.None? then p.stats.wickets else Stored(parseInt(b.wickets.value)),
        if b.average.None? then p.stats.average else Stored(parseFloat(b.average.value))),
      if filename.Some? then ImagePath(filename.value) else p.image)
  }

  /** Sending the same update twice has the effect of sending it once. */
  lemma UpdateIdempotent(p: Player, b: Body, filename: Option<string>, parseInt: string -> Number, parseFloat: string -> Number)
    ensures Updated(Updated(p, b, filename, parseInt, parseFloat), b, filename, parseInt, parseFloat)
         == Updated(p, b, filename, parseInt, parseFloat)
  {
  }

  /** An update with no fields and no upload leaves the document as it was. */
  lemma EmptyUpdate(p: Player, parseInt: string -> Number, parseFloat: string -> Number)
    ensures Updated(p, Body(None, None, None, None, None, Missing, None, None, None, None), None, parseInt, parseFloat) == p
  {
  }

  /** The document loaded by `findById`, whose fields the handler assigns in place. */
  class PlayerDoc {
    const id: string
    var name: string
    var country: string
    var role: string
    var gender: string
    var bio: string
    var tags: seq<string>
    var stats: Stats
    var image: string

    function Value(): Player
      reads this
    {
      Player(id, name, country, role, gender, bio, tags, stats, image)
    }

    constructor(p: Player)
      ensures Value() == p
    {
      id, name, country, role, gender, bio, tags, stats, image :=
        p.id, p.name, p.country, p.role, p.gender, p.bio, p.tags, p.stats, p.image;
    }

    /** Lines 188-212, one assignment at a time; the old image file is deleted on disk (not modelled). */
    method ApplyUpdate(b: Body, filename: Option<string>, parseInt: string -> Number, parseFloat: string -> Number)
      modifies this
      ensures Value() == Updated(old(Value()), b, filename, parseInt, parseFloat)
    {
      MergeFields(b);
      MergeStats(b, parseInt, parseFloat);
      if filename.Some? {
        image := ImagePath(filename.value);
      }
    }

    /** Lines 188-195. */
    method MergeFields(b: Body)
      modifies this
      ensures name == (if Given(b.name) then b.name.value else old(name))
      ensures country == (if Given(b.country) then b.country.value else old(country))
      ensures role == b.role.GetOr(old(role)) && gender == b.gender.GetOr(old(gender)) && bio == b.bio.GetOr(old(bio))
      ensures tags == (if b.tags.Missing? then old(tags) else ParseTags(b.tags))
      ensures stats == old(stats) && image == old(image)
    {
      if Given(b.name) {
        name := b.name.value;
      }
      if Given(b.country) {
        country := b.country.value;
      }
      if b.role.Some? {
        role := b.role.value;
      }
      if b.gender.Some? {
        gender := b.gender.value;
      }
      if b.bio.Some? {
        bio := b.bio.value;
      }
      if !b.tags.Missing? {
        tags := ParseTags(b.tags);
      }
    }

    /** Lines 197-200. */
    method MergeStats(b: Body, parseInt: string -> Number, parseFloat: string -> Number)
      modifies this
      ensures stats == Stats(
        if b.matches.None? then old(stats).matches else Stored(parseInt(b.matches.value)),
        if b.runs.None? then old(stats).runs else Stored(parseInt(b.runs.value)),
        if b.wickets.None? then old(stats).wickets else Stored(parseInt(b.wickets.value)),
        if b.average.None? then old(stats).average else Stored(parseFloat(b.average.value)))
      ensures name == old(name) && country == old(country) && role == old(role) && gender == old(gender)
      ensures bio == old(bio) && tags == old(tags) && image == old(image)
    {
      if b.matches.Some? {
        stats := stats.(matches := Stored(parseInt(b.matches.value)));
      }
      if b.runs.Some? {
        stats := stats.(runs := Stored(parseInt(b.runs.value)));
      }
      if b.wickets.Some? {
        stats := stats.(wickets := Stored(parseInt(b.wickets.value)));
      }
      if b.average.Some? {
        stats := stats.(average := Stored(parseFloat(b.average.value)));
      }
    }
  }
}
