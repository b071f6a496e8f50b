/**
 * The deciding parts of server/routes/video.routes.js: the owner-or-admin
 * check, the byte-range arithmetic of `GET /stream/:id` (headers only), the
 * upload `fileFilter` and field checks of `POST /upload`, and the guard of
 * `POST /:id/retry`. Lookups are inputs: a route receives the record the
 * tenant-scoped query found, or `None`.
 */
module VideoRoutes {
  import opened Wrappers
  import opened JsText
  import opened NodePath
  import opened CheckRole
  import opened VideoModel
  import JobQueue

  /** `video.owner.toString() !== req.user.id && req.user.role !== 'admin'`
    * is the 403 test: the owner and admins pass. */
  predicate OwnerOrAdmin(owner: string, caller: Caller) {
    owner == caller.id || caller.role == "admin"
  }

  /** The 404 and 403 guards shared by the stream, retry and delete routes. */
  function AccessCheck(found: Option<string>, caller: Caller): (r: Option<Refusal>)
    ensures r == None <==> found.Some? && OwnerOrAdmin(found.value, caller)
    ensures found.None? ==> r == Some(Refusal(404, "Video not found"))
    ensures found.Some? && !OwnerOrAdmin(found.value, caller) ==> r == Some(Refusal(403, "Forbidden"))
  {
    if found.None? then Some(Refusal(404, "Video not found"))
    else if !OwnerOrAdmin(found.value, caller) then Some(Refusal(403, "Forbidden"))
    else None
  }

  /** `GET /`: the list query is the caller's tenant, narrowed to the
    * caller's own videos unless the caller is an admin. */
  function ListQuery(caller: Caller): (string, Option<string>) {
    (caller.tenantId, if caller.role != "admin" then Some(caller.id) else None)
  }

  /** A video of `tenant` and `owner` matches the list query. */
  predicate Listed(query: (string, Option<string>), tenant: string, owner: string) {
    query.0 == tenant && (query.1.None? || query.1.value == owner)
  }

  /** The list shows exactly the videos the per-video routes let the caller
    * touch: those of the caller's tenant that it owns, or all of them for an
    * admin. */
  lemma ListedExactlyWhenAccessible(caller: Caller, tenant: string, owner: string)
    ensures Listed(ListQuery(caller), tenant, owner) <==>
      tenant == caller.tenantId && AccessCheck(Some(owner), caller).None?
  {
  }

  /** `DELETE /:id` up to the file removal: the role guard, then the 404
    * and 403 guards; what passes is deleted and answered with 200. */
  function Delete(user: Option<Caller>, found: Option<string>): Refusal {
    var guard := RoleGuard(Some(["admin", "editor"]), user);
    if guard != Next then GuardRefusal(guard).value
    else match AccessCheck(found, user.value)
      case Some(f) => f
      case None => Refusal(200, "Video deleted")
  }

  /** A delete succeeds exactly for an admin, or for an editor deleting
    * its own video; a viewer is refused 403 even for its own video. */
  lemma DeleteAllowedFor(user: Option<Caller>, found: Option<string>)
    ensures Delete(user, found).status == 200 <==>
      && user.Some? && found.Some?
      && (user.value.role == "admin" || (user.value.role == "editor" && found.value == user.value.id))
    ensures user.Some? && user.value.role == "viewer" ==> Delete(user, found) == Refusal(403, "Forbidden")
    ensures user.None? ==> Delete(user, found) == Refusal(401, "Unauthorized")
  {
  }

  // ---------------------------------------------------------------------
  // GET /stream/:id
  // ---------------------------------------------------------------------

  /** `maxChunk`: 1 MiB. */
  const MAX_CHUNK: int := 1 * 1024 * 1024

  /** The headers written by the stream route. */
  datatype StreamResponse =
    | StreamRefused(refusal: Refusal)
    | Full(contentType: string, contentLength: int)
    | Partial(start: int, end: int, contentRange: string, acceptRanges: string,
              contentLength: int, contentType: string)
    | InvalidRange

  function StreamStatus(r: StreamResponse): int {
    match r
    case StreamRefused(f) => f.status
    case Full(_, _) => 200
    case Partial(_, _, _, _, _, _) => 206
    case InvalidRange => 416
  }

  /** `const [startStr, endStr] = range.replace(/bytes=/, '').split('-')`:
    * the first part, and the second one if there is one. */
  function RangeParts(range: string): (string, Option<string>) {
    var parts := Split(RemoveFirst(range, "bytes="), '-');
    (parts[0], if |parts| > 1 then Some(parts[1]) else None)
  }

  /** `endStr ? parseInt(endStr, 10) : Math.min(start + maxChunk - 1, size - 1)`,
    * with `NaN` as `None`. */
  function RequestedEnd(endStr: Option<string>, start: int, size: int): Option<int> {
    if endStr.Some? && endStr.value != "" then ParseInt(endStr.value)
    else Some(if start + MAX_CHUNK - 1 <= size - 1 then start + MAX_CHUNK - 1 else size - 1)
  }

  /** The window the route serves, or `None` for the 416 answer: the start
    * must parse; an end that does not parse or lies past the file becomes
    * the last byte. */
  function RangeWindow(range: string, size: int): Option<(int, int)> {
    var (startStr, endStr) := RangeParts(range);
    match ParseInt(startStr)
    case None => None
    case Some(start) =>
      var end := match RequestedEnd(endStr, start, size)
                 case None => size - 1
                 case Some(e) => if e >= size then size - 1 else e;
      Some((start, end))
  }

  /** `bytes <start>-<end>/<size>`. */
  function ContentRange(start: int, end: int, size: int): string {
    "bytes " + IntToString(start) + "-" + IntToString(end) + "/" + IntToString(size)
  }

  /** The router's error handler answer to anything thrown in a route
    * that is not a multer error. */
  const UPLOAD_FAILED: Refusal := Refusal(500, "Upload failed")

  /** `fs.createReadStream(path, { start, end })` throws `ERR_OUT_OF_RANGE`
    * for a negative end or a start past the end. */
  predicate ReadStreamRefuses(start: int, end: int) {
    end < 0 || start > end
  }

  /** The stream route after authentication: `found` is the owner of the
    * video the query found, `size` the file's size. A window the read
    * stream refuses throws before any header is written, and the router's
    * error handler answers 500. */
  function Stream(caller: Caller, found: Option<string>, mimeType: string, size: nat,
                  range: Option<string>): StreamResponse
  {
    match AccessCheck(found, caller)
    case Some(f) => StreamRefused(f)
    case None =>
      if range.None? || range.value == "" then Full(mimeType, size)
      else match RangeWindow(range.value, size)
        case None => InvalidRange
        case Some((start, end)) =>
          if ReadStreamRefuses(start, end) then StreamRefused(UPLOAD_FAILED)
          else Partial(start, end, ContentRange(start, end, size), "bytes", end - start + 1, mimeType)
  }

  /** The route as evidently intended: a window that cannot be served gets
    * the route's own 416 answer, like a start that does not parse. */
  function StreamAsIntended(caller: Caller, found: Option<string>, mimeType: string, size: nat,
                            range: Option<string>): StreamResponse
  {
    match Stream(caller, found, mimeType, size, range)
    case StreamRefused(f) => if f == UPLOAD_FAILED then InvalidRange else StreamRefused(f)
    case r => r
  }

  /** Neither part of the header contains `'-'`, so both parse to
    * non-negative numbers; the end never passes the last byte. */
  lemma RangeWindowBounds(range: string, size: int)
    ensures RangeWindow(range, size).Some? ==>
      var (start, end) := RangeWindow(range, size).value;
      && 0 <= start
      && end <= size - 1
      && (size >= 1 ==> 0 <= end)
  {
    var parts := Split(RemoveFirst(range, "bytes="), '-');
    ParseIntWithoutMinus(parts[0]);
    if |parts| > 1 {
      ParseIntWithoutMinus(parts[1]);
    }
  }

  /** An absent or empty end part asks for at most 1 MiB from the start:
    * the end is the smaller of `start + 1048575` and the last byte. */
  lemma OpenEndedWindow(range: string, size: int)
    requires RangeParts(range).1.None? || RangeParts(range).1 == Some("")
    requires RangeWindow(range, size).Some?
    ensures var (start, end) := RangeWindow(range, size).value;
      && end == (if start + MAX_CHUNK - 1 <= size - 1 then start + MAX_CHUNK - 1 else size - 1)
      && end - start + 1 <= MAX_CHUNK
  {
  }

  /** An explicit end is kept when it lies inside the file; one past the
    * file, or one that does not parse, becomes the last byte. */
  lemma ExplicitEnd(range: string, size: int)
    requires RangeParts(range).1.Some? && RangeParts(range).1.value != ""
    requires RangeWindow(range, size).Some?
    ensures var end := RangeWindow(range, size).value.1;
      var requested := ParseInt(RangeParts(range).1.value);
      && (requested.Some? && requested.value < size ==> end == requested.value)
      && (requested.None? || requested.value >= size ==> end == size - 1)
  {
  }

  /** Every 206 serves a non-empty window inside the file: it reports
    * `end - start + 1` bytes, at least one. */
  lemma PartialLength(caller: Caller, owner: string, mimeType: string, size: nat, range: string)
    ensures var r := Stream(caller, Some(owner), mimeType, size, Some(range));
      r.Partial? ==>
        && 0 <= r.start <= r.end <= size - 1
        && r.contentLength == r.end - r.start + 1 >= 1
        && r.contentRange == ContentRange(r.start, r.end, size)
  {
    RangeWindowBounds(range, size);
  }

  /** As written, a start at or past the end of the file (`bytes=20-` on a
    * 10-byte file) or any range of an empty file answers 500, and so does
    * an explicit end before the start; every other parsed range gets 206. */
  lemma RangePastEndIs500(caller: Caller, owner: string, mimeType: string, size: nat, range: string)
    requires OwnerOrAdmin(owner, caller) && range != ""
    ensures RangeWindow(range, size).Some? ==>
      var (start, end) := RangeWindow(range, size).value;
      (Stream(caller, Some(owner), mimeType, size, Some(range)) == StreamRefused(UPLOAD_FAILED) <==> start > end)
    ensures RangeWindow(range, size).Some? && RangeWindow(range, size).value.0 >= size ==>
      Stream(caller, Some(owner), mimeType, size, Some(range)) == StreamRefused(UPLOAD_FAILED)
  {
    RangeWindowBounds(range, size);
  }

  /** The intended route never answers 500: a window that cannot be served,
    * in particular a start at or past the end of the file, gets 416, and
    * every other answer is the route's as written. */
  lemma IntendedRangePastEndIs416(caller: Caller, found: Option<string>, mimeType: string, size: nat, range: string)
    ensures StreamStatus(StreamAsIntended(caller, found, mimeType, size, Some(range))) != 500
    ensures Stream(caller, found, mimeType, size, Some(range)) != StreamRefused(UPLOAD_FAILED) ==>
      StreamAsIntended(caller, found, mimeType, size, Some(range)) == Stream(caller, found, mimeType, size, Some(range))
    ensures (&& found.Some? && OwnerOrAdmin(found.value, caller) && range != ""
             && RangeWindow(range, size).Some? && RangeWindow(range, size).value.0 >= size) ==>
      StreamAsIntended(caller, found, mimeType, size, Some(range)) == InvalidRange
  {
    RangeWindowBounds(range, size);
  }

  /** A request without a Range header (or with an empty one) gets the whole file. */
  lemma NoRangeServesWholeFile(caller: Caller, owner: string, mimeType: string, size: nat)
    requires OwnerOrAdmin(owner, caller)
    ensures Stream(caller, Some(owner), mimeType, size, None) == Full(mimeType, size)
    ensures Stream(caller, Some(owner), mimeType, size, Some("")) == Full(mimeType, size)
  {
  }

  /** `indexOf` finds a pattern at 0 when it is a prefix. */
  lemma PrefixFoundAtZero(s: string, pat: string)
    requires pat <= s
    ensures IndexOf(s, pat) == Some(0)
  {
    assert s[0..|pat|] == pat;
    assert OccursAt(s, pat, 0);
  }

  /** A start part that is not a number gets 416, whatever follows it. */
  lemma NonNumericStartIs416(rest: string, size: int)
    requires '-' !in rest
    ensures RangeWindow("bytes=abc-" + rest, size).None?
  {
    var r := "bytes=abc-" + rest;
    PrefixFoundAtZero(r, "bytes=");
    var u := RemoveFirst(r, "bytes=");
    assert u == "abc-" + rest;
    assert OccursAt(u, "-", 3);
    forall j | 0 <= j < 3 ensures !OccursAt(u, "-", j) {
      assert u[j..j + 1] == [u[j]];
    }
    assert IndexOf(u, "-") == Some(3);
    assert RangeParts(r).0 == "abc";
    assert TrimStart("abc") == "abc";
  }

  /** A suffix range (`bytes=-500`, "the last 500 bytes") is not understood:
    * its empty start part gets 416. */
  lemma SuffixRangeIs416(n: string, size: int)
    ensures RangeWindow("bytes=-" + n, size).None?
  {
    var r := "bytes=-" + n;
    PrefixFoundAtZero(r, "bytes=");
    var u := RemoveFirst(r, "bytes=");
    assert u == "-" + n;
    PrefixFoundAtZero(u, "-");
    assert RangeParts(r).0 == "";
  }

  lemma SevenDigitString()
    ensures NatToString(1048575) == "1048575"
  {
    assert NatToString(1) == "1";
    assert NatToString(10) == "10";
    assert NatToString(104) == "104";
    assert NatToString(1048) == "1048";
    assert NatToString(10485) == "10485";
    assert NatToString(104857) == "104857";
  }

  lemma EightDigitString()
    ensures NatToString(10485760) == "10485760"
  {
    assert NatToString(1) == "1";
    assert NatToString(10) == "10";
    assert NatToString(104) == "104";
    assert NatToString(1048) == "1048";
    assert NatToString(10485) == "10485";
    assert NatToString(104857) == "104857";
    assert NatToString(1048576) == "1048576";
  }

  lemma OpenRangeFromZeroParts()
    ensures RangeParts("bytes=0-") == ("0", Some(""))
  {
    var r := "bytes=0-";
    PrefixFoundAtZero(r, "bytes=");
    var u := RemoveFirst(r, "bytes=");
    assert u == "0-";
    assert u[0..1] == "0";
    assert OccursAt(u, "-", 1);
    assert IndexOf(u, "-") == Some(1);
    assert u[2..] == "";
    assert IndexOf("", "-") == None;
    assert Split(u, '-') == ["0", ""];
  }

  lemma OpenRangeFromZeroWindow()
    ensures RangeWindow("bytes=0-", 10485760) == Some((0, 1048575))
  {
    OpenRangeFromZeroParts();
    assert TrimStart("0") == "0";
    assert DigitPrefix("0") == "0";
    assert ParseInt("0") == Some(0);
  }

  lemma OpenRangeFromZeroHeader()
    ensures ContentRange(0, 1048575, 10485760) == "bytes 0-1048575/10485760"
  {
    assert IntToString(0) == "0";
    SevenDigitString();
    EightDigitString();
    assert IntToString(1048575) == "1048575";
    assert IntToString(10485760) == "10485760";
  }

  /** `Range: bytes=0-` on a 10 MiB file: 206 with the first MiB. */
  lemma FirstMegabyteOfTenMegabyteFile(caller: Caller, mimeType: string)
    ensures Stream(caller, Some(caller.id), mimeType, 10485760, Some("bytes=0-"))
         == Partial(0, 1048575, "bytes 0-1048575/10485760", "bytes", 1048576, mimeType)
  {
    OpenRangeFromZeroWindow();
    OpenRangeFromZeroHeader();
  }

  // ---------------------------------------------------------------------
  // POST /upload
  // ---------------------------------------------------------------------

  const ALLOWED_MIME_TYPES: seq<string> := ["video/mp4", "video/x-matroska"]
  const ALLOWED_EXTENSIONS: seq<string> := [".mp4", ".mkv"]
  const UNSUPPORTED: string := "Unsupported file type"

  /** The upload's `fileFilter`: both the declared type and the lower-cased
    * extension of the original name must be allowed. */
  function FileFilter(mimetype: string, originalname: Option<string>): Outcome<string> {
    var ext := ToLower(Extname(originalname.GetOr("")));
    if mimetype !in ALLOWED_MIME_TYPES || ext !in ALLOWED_EXTENSIONS then Fail(UNSUPPORTED) else Pass
  }

  /** A file passes exactly when its type is allowed and its name's last
    * component is longer than four characters and ends, in any case, with
    * ".mp4" or ".mkv". */
  lemma FileFilterAccepts(mimetype: string, originalname: Option<string>)
    ensures var b := Basename(originalname.GetOr(""));
      FileFilter(mimetype, originalname).Pass? <==>
        mimetype in ALLOWED_MIME_TYPES && |b| > 4 && ToLower(b[|b| - 4..]) in ALLOWED_EXTENSIONS
  {
    var p := originalname.GetOr("");
    ExtensionOfLength4(p, ".mp4");
    ExtensionOfLength4(p, ".mkv");
  }

  /** A name without `'/'` is its own last component. */
  lemma BasenameWithoutSlash(p: string)
    requires '/' !in p
    ensures Basename(p) == p
  {
    if |p| > 0 {
      assert p[|p| - 1] in p;
    }
  }

  /** "clip.MP4" passes: the extension is compared in lower case. */
  lemma UpperCaseExtensionPasses()
    ensures FileFilter("video/mp4", Some("clip.MP4")).Pass?
  {
    var b := "clip.MP4";
    BasenameWithoutSlash(b);
    var r := LastIndexOfChar(b, '.');
    assert b[4] == '.' && b[4] in b;
    assert r.value == 4;
    assert Extname(b) == b[4..] == ".MP4";
    assert ToLower(".MP4") == ".mp4";
  }

  /** The Kelvin sign lower-cases to `k`, so "clip.m\u212Av" is a `.mkv`. */
  lemma KelvinSignExtensionPasses()
    ensures FileFilter("video/x-matroska", Some("clip.m\U{212A}v")).Pass?
  {
    var b := "clip.m\U{212A}v";
    BasenameWithoutSlash(b);
    var r := LastIndexOfChar(b, '.');
    assert b[4] == '.' && b[4] in b;
    assert r.value == 4;
    assert Extname(b) == b[4..] == ".m\U{212A}v";
    assert ToLower(".m\U{212A}v") == ".mkv";
  }

  /** A name that is only the extension has none: ".mp4" is refused. */
  lemma DotFileIsRefused()
    ensures FileFilter("video/mp4", Some(".mp4")).Fail?
  {
    BasenameWithoutSlash(".mp4");
    FileFilterAccepts("video/mp4", Some(".mp4"));
  }

  /** Only the last extension counts: "clip.mp4.exe" is refused. */
  lemma LastExtensionCounts()
    ensures FileFilter("video/mp4", Some("clip.mp4.exe")).Fail?
  {
    var b := "clip.mp4.exe";
    BasenameWithoutSlash(b);
    var r := LastIndexOfChar(b, '.');
    assert b[8] == '.' && b[8] in b;
    assert r.value == 8;
    assert Extname(b) == b[8..] == ".exe";
    assert ToLower(".exe") == ".exe";
  }

  /** What multer hands the route: the original name, declared type, byte
    * size and the path it stored the file at. */
  datatype UploadedFile = UploadedFile(originalname: string, mimetype: string, size: int, storagePath: string)

  /** The fields of the new record. */
  datatype NewVideo = NewVideo(tenantId: string, owner: string, title: string, description: Option<string>,
                               originalFilename: string, storagePath: string, mimeType: string, size: int)

  /** `x && x.length > limit` on an optional text field. */
  predicate TooLong(x: Option<string>, limit: nat) {
    x.Some? && x.value != "" && |x.value| > limit
  }

  /** The schema's validators, run by `video.save()` on the record as its
    * setters left it: the required strings are non-empty (the title once
    * trimmed) and the size is at least 1. */
  predicate Storable(v: NewVideo) {
    && Trim(v.title) != "" && v.tenantId != "" && v.originalFilename != ""
    && v.storagePath != "" && v.mimeType != "" && v.size >= 1
  }

  /** The upload route after authentication: the role guard, multer's
    * filter (its error becomes a 400 with its message), the missing file,
    * then the title and description limits; else the record to create,
    * whose failed validation at `save()` the router's error handler
    * answers with 500. */
  function Upload(user: Option<Caller>, file: Option<UploadedFile>,
                  title: Option<string>, description: Option<string>): Result<NewVideo, Refusal>
  {
    var guard := RoleGuard(Some(["admin", "editor"]), user);
    if guard != Next then Failure(GuardRefusal(guard).value)
    else if file.Some? && FileFilter(file.value.mimetype, Some(file.value.originalname)).Fail? then
      Failure(Refusal(400, UNSUPPORTED))
    else if file.None? then Failure(Refusal(400, "No file uploaded"))
    else if TooLong(title, 200) then Failure(Refusal(400, "Title too long (max 200)"))
    else if TooLong(description, 1000) then Failure(Refusal(400, "Description too long (max 1000)"))
    else
      var f := file.value;
      var v := NewVideo(user.value.tenantId, user.value.id,
                        if title.Some? && title.value != "" then title.value else f.originalname,
                        description, f.originalname, f.storagePath, f.mimetype, f.size);
      if !Storable(v) then Failure(UPLOAD_FAILED) else Success(v)
  }

  /** An accepted upload: the caller is an admin or editor, the file passed
    * the filter, the texts are within their limits, the record belongs to
    * the caller's tenant and the caller, and an empty or missing title
    * falls back to the file's name (which no limit applies to). */
  lemma UploadAccepted(user: Option<Caller>, file: Option<UploadedFile>,
                       title: Option<string>, description: Option<string>)
    requires Upload(user, file, title, description).Success?
    ensures var v := Upload(user, file, title, description).value;
      && user.Some? && (user.value.role == "admin" || user.value.role == "editor")
      && file.Some? && FileFilter(file.value.mimetype, Some(file.value.originalname)).Pass?
      && v.tenantId == user.value.tenantId && v.owner == user.value.id
      && v.originalFilename == file.value.originalname && v.size == file.value.size
      && v.storagePath == file.value.storagePath && v.mimeType == file.value.mimetype
      && v.description == description
      && (title.Some? && title.value != "" ==> v.title == title.value && |v.title| <= 200)
      && (title.None? || title.value == "" ==> v.title == file.value.originalname)
      && (description.Some? && description.value != "" ==> |description.value| <= 1000)
      && Trim(v.title) != "" && v.size >= 1
  {
    assert RoleGuard(Some(["admin", "editor"]), user) == Next;
    assert file.Some? && !TooLong(title, 200) && !TooLong(description, 1000);
  }

  /** The checks run in order and the first failure answers: an anonymous
    * caller 401, a viewer 403, a rejected file 400 before the missing-file
    * and length checks, a long title before a long description. */
  lemma UploadCheckOrder(user: Option<Caller>, file: Option<UploadedFile>,
                         title: Option<string>, description: Option<string>)
    ensures user.None? ==> Upload(user, file, title, description) == Failure(Refusal(401, "Unauthorized"))
    ensures user.Some? && user.value.role == "viewer" ==>
      Upload(user, file, title, description) == Failure(Refusal(403, "Forbidden"))
    ensures RoleGuard(Some(["admin", "editor"]), user) == Next && file.None? ==>
      Upload(user, file, title, description) == Failure(Refusal(400, "No file uploaded"))
    ensures (&& RoleGuard(Some(["admin", "editor"]), user) == Next && file.Some?
             && FileFilter(file.value.mimetype, Some(file.value.originalname)).Pass?
             && TooLong(title, 200)) ==>
      Upload(user, file, title, description) == Failure(Refusal(400, "Title too long (max 200)"))
    ensures (&& RoleGuard(Some(["admin", "editor"]), user) == Next && file.Some?
             && FileFilter(file.value.mimetype, Some(file.value.originalname)).Pass?
             && !TooLong(title, 200) && !TooLong(description, 1000)
             && (file.value.size < 1 || (title.Some? && title.value != "" && Trim(title.value) == ""))) ==>
      Upload(user, file, title, description) == Failure(UPLOAD_FAILED)
  {
  }

  /** A title of blanks passes the length check but is stored empty, so
    * the required title fails at `save()` and the upload answers 500. */
  lemma BlankTitleIs500(caller: Caller, file: UploadedFile)
    requires caller.role == "editor"
    requires FileFilter(file.mimetype, Some(file.originalname)).Pass?
    ensures Upload(Some(caller), Some(file), Some("   "), None) == Failure(UPLOAD_FAILED)
  {
    assert TrimStart("   ") == "";
    UploadCheckOrder(Some(caller), Some(file), Some("   "), None);
  }

  /** The upload route with its effects: the new record holds the decided
    * fields, the title and description trimmed, starts PENDING with an
    * empty history, and its id is queued for processing. */
  method UploadRoute(user: Option<Caller>, file: Option<UploadedFile>, title: Option<string>,
                     description: Option<string>, id: string, queue: JobQueue.JobQueueService<string>)
    returns (r: Result<Video, Refusal>)
    requires queue.Valid()
    modifies queue
    ensures queue.Valid()
    ensures Upload(user, file, title, description).Failure? ==>
      r == Failure(Upload(user, file, title, description).error) && queue.enqueued == old(queue.enqueued)
    ensures Upload(user, file, title, description).Success? ==>
      && r.Success? && fresh(r.value)
      && var v := Upload(user, file, title, description).value;
      && r.value.id == id && r.value.tenantId == v.tenantId && r.value.owner == v.owner
      && r.value.title == Trim(v.title)
      && r.value.description == (if v.description.Some? then Some(Trim(v.description.value)) else None)
      && r.value.originalFilename == v.originalFilename && r.value.storagePath == v.storagePath
      && r.value.mimeType == v.mimeType && r.value.size == v.size
      && r.value.Life() == Initial
      && queue.enqueued == old(queue.enqueued) + [id]
  {
    var decision := Upload(user, file, title, description);
    if decision.Failure? {
      return Failure(decision.error);
    }
    var v := decision.value;
    var video := new Video(id, v.tenantId, v.owner, v.title, v.description,
                           v.originalFilename, v.storagePath, v.mimeType, v.size);
    queue.Enqueue(video.id);
    r := Success(video);
  }

  // ---------------------------------------------------------------------
  // POST /:id/retry
  // ---------------------------------------------------------------------

  /** What the retry route looks at in the record it found. */
  datatype RetryTarget = RetryTarget(id: string, owner: string, life: Lifecycle)

  datatype RetryResponse = RetryRefused(refusal: Refusal) | Retried(id: string, processingStatus: Status)

  /** The guards before the reset: role, 404, 403, and not FAILED (400). */
  function RetryGuard(user: Option<Caller>, found: Option<RetryTarget>): Option<Refusal> {
    var guard := RoleGuard(Some(["admin", "editor"]), user);
    if guard != Next then GuardRefusal(guard)
    else match AccessCheck(if found.Some? then Some(found.value.owner) else None, user.value)
      case Some(f) => Some(f)
      case None =>
        if found.value.life.status != Failed then Some(Refusal(400, "Only FAILED videos can be retried"))
        else None
  }

  /** The route as written: after the guards it calls
    * `transitionTo(PENDING, 'Manual retry')`; a throw reaches the router's
    * error handler, which answers 500 "Upload failed". */
  function RetryAsWritten(user: Option<Caller>, found: Option<RetryTarget>): RetryResponse {
    match RetryGuard(user, found)
    case Some(f) => RetryRefused(f)
    case None =>
      match Transition(found.value.life, Pending, Some("Manual retry"))
      case Failure(_) => RetryRefused(Refusal(500, "Upload failed"))
      case Success(l) => Retried(found.value.id, l.status)
  }

  /** The table has no FAILED to PENDING edge, and only FAILED videos get
    * past the guards: so no retry ever succeeds, and every retry of a
    * FAILED video the caller may touch answers 500. */
  lemma RetryAsWrittenNeverSucceeds(user: Option<Caller>, found: Option<RetryTarget>)
    ensures RetryAsWritten(user, found).RetryRefused?
    ensures RetryGuard(user, found).None? ==> RetryAsWritten(user, found) == RetryRefused(Refusal(500, "Upload failed"))
  {
    if RetryGuard(user, found).None? {
      assert found.value.life.status == Failed;
      assert !Allowed(Failed, Pending);
    }
  }

  /** The intended retry: after the same guards the record stays FAILED and
    * is queued again; the task's own FAILED to PROCESSING edge restarts it. */
  function Retry(user: Option<Caller>, found: Option<RetryTarget>): RetryResponse {
    match RetryGuard(user, found)
    case Some(f) => RetryRefused(f)
    case None => Retried(found.value.id, found.value.life.status)
  }

  /** Every FAILED video that the caller may touch is accepted for retry,
    * and nothing else is. */
  lemma RetryAcceptsExactlyFailedVideos(user: Option<Caller>, found: Option<RetryTarget>)
    ensures Retry(user, found).Retried? <==>
      && user.Some? && (user.value.role == "admin" || user.value.role == "editor")
      && found.Some? && OwnerOrAdmin(found.value.owner, user.value)
      && found.value.life.status == Failed
    ensures Retry(user, found).Retried? ==> Retry(user, found) == Retried(found.value.id, Failed)
  {
  }

  /** The intended retry route with its effect: an accepted retry queues
    * the video's id again and leaves the record as it is. */
  method RetryRoute(user: Option<Caller>, video: Video?, queue: JobQueue.JobQueueService<string>)
    returns (r: RetryResponse)
    requires queue.Valid()
    modifies queue
    ensures queue.Valid()
    ensures r == Retry(user, if video == null then None else Some(RetryTarget(video.id, video.owner, video.Life())))
    ensures queue.enqueued == old(queue.enqueued) + (if r.Retried? then [video.id] else [])
  {
    var found := if video == null then None
                 else Some(RetryTarget(video.id, video.owner, Lifecycle(video.processingStatus, video.processingHistory)));
    r := Retry(user, found);
    if r.Retried? {
      queue.Enqueue(video.id);
    }
  }
}
