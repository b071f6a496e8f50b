/**
 * The request checks of server/routes/comment.routes.js: the body checks of
 * `POST /` (in order, the first failure answers 400) and the `videoId`
 * requirement of both `GET` routes. What passes is the call the route makes
 * to the comment service, which answers 201 with the stored comment.
 */
module CommentRoutes {
  import opened Wrappers
  import opened JsText
  import opened JsValue
  import opened CheckRole

  const REQUIRED: string := "videoId and text are required"
  const BAD_TIMESTAMP: string := "timestamp must be a non-negative number (seconds)"
  const TOO_LONG: string := "Comment too long (max 2000 chars)"
  const MAX_TEXT: nat := 2000

  /** The decoded `req.body` fields the route reads. */
  datatype CommentBody = CommentBody(videoId: Value, text: Value, timestamp: Value)

  /** The arguments of `createComment`. */
  datatype NewComment = NewComment(tenantId: string, videoId: Value, userId: string, text: string, timestamp: real)

  /** `POST /` after authentication. */
  function PostComment(caller: Caller, body: CommentBody): Result<NewComment, Refusal> {
    if !Truthy(body.videoId) || !Truthy(body.text) || !body.text.Str? then Failure(Refusal(400, REQUIRED))
    else
      var ts := ToNumber(body.timestamp);
      if ts.None? || ts.value < 0.0 then Failure(Refusal(400, BAD_TIMESTAMP))
      else if |body.text.s| > MAX_TEXT then Failure(Refusal(400, TOO_LONG))
      else Success(NewComment(caller.tenantId, body.videoId, caller.id, body.text.s, ts.value))
  }

  /** An accepted comment has a truthy video id, a non-empty text of at
    * most 2000 characters and the coerced, non-negative timestamp; its
    * tenant and author are the caller's, never the body's. */
  lemma PostCommentAccepted(caller: Caller, body: CommentBody)
    ensures PostComment(caller, body).Success? <==>
      && Truthy(body.videoId) && body.text.Str? && body.text.s != "" && |body.text.s| <= MAX_TEXT
      && ToNumber(body.timestamp).Some? && ToNumber(body.timestamp).value >= 0.0
    ensures PostComment(caller, body).Success? ==>
      PostComment(caller, body).value ==
        NewComment(caller.tenantId, body.videoId, caller.id, body.text.s, ToNumber(body.timestamp).value)
  {
  }

  /** The checks run in order and the first one that fails answers: the
    * required fields, then the timestamp, then the length. */
  lemma PostCommentCheckOrder(caller: Caller, body: CommentBody)
    ensures !Truthy(body.videoId) || !body.text.Str? || body.text.s == "" ==>
      PostComment(caller, body) == Failure(Refusal(400, REQUIRED))
    ensures (&& Truthy(body.videoId) && body.text.Str? && body.text.s != ""
             && (ToNumber(body.timestamp).None? || ToNumber(body.timestamp).value < 0.0)) ==>
      PostComment(caller, body) == Failure(Refusal(400, BAD_TIMESTAMP))
    ensures (&& Truthy(body.videoId) && body.text.Str? && |body.text.s| > MAX_TEXT
             && ToNumber(body.timestamp).Some? && ToNumber(body.timestamp).value >= 0.0) ==>
      PostComment(caller, body) == Failure(Refusal(400, TOO_LONG))
  {
  }

  /** A missing timestamp is `NaN` and answers 400, but `null` and `""`
    * coerce to 0 and are accepted. */
  lemma TimestampCoercion(caller: Caller, videoId: string, text: string)
    requires videoId != "" && text != "" && |text| <= MAX_TEXT
    ensures PostComment(caller, CommentBody(Str(videoId), Str(text), Undefined)) == Failure(Refusal(400, BAD_TIMESTAMP))
    ensures PostComment(caller, CommentBody(Str(videoId), Str(text), Null)).Success?
    ensures PostComment(caller, CommentBody(Str(videoId), Str(text), Null)).value.timestamp == 0.0
    ensures PostComment(caller, CommentBody(Str(videoId), Str(text), Str(""))).Success?
  {
    ToNumberExamples();
    PostCommentAccepted(caller, CommentBody(Str(videoId), Str(text), Null));
    PostCommentAccepted(caller, CommentBody(Str(videoId), Str(text), Str("")));
    PostCommentCheckOrder(caller, CommentBody(Str(videoId), Str(text), Undefined));
  }

  /** A timestamp sent as the digits of a whole number is that number. */
  lemma TimestampFromDigits(caller: Caller, videoId: string, text: string, n: nat)
    requires videoId != "" && text != "" && |text| <= MAX_TEXT
    ensures PostComment(caller, CommentBody(Str(videoId), Str(text), Str(NatToString(n)))).Success?
    ensures PostComment(caller, CommentBody(Str(videoId), Str(text), Str(NatToString(n)))).value.timestamp == n as real
  {
    NumberOfNatString(n);
    PostCommentAccepted(caller, CommentBody(Str(videoId), Str(text), Str(NatToString(n))));
  }

  /** `Number` skips every space separator: a timestamp sent as an
    * ideographic space and "5" is 5. */
  lemma IdeographicSpaceTimestamp(caller: Caller, videoId: string, text: string)
    requires videoId != "" && text != "" && |text| <= MAX_TEXT
    ensures PostComment(caller, CommentBody(Str(videoId), Str(text), Str("\U{3000}5"))).Success?
    ensures PostComment(caller, CommentBody(Str(videoId), Str(text), Str("\U{3000}5"))).value.timestamp == 5.0
  {
    var s := "\U{3000}5";
    assert TrimStart(s) == "5";
    assert TrimEnd("5") == "5";
    assert ToLower("5") == "5";
    SplitWithoutSeparator("5", 'e');
    SplitWithoutSeparator("5", '.');
    assert UnsignedDecimal("5") == Some(5.0);
    assert ToNumber(Str(s)) == Some(5.0);
    PostCommentAccepted(caller, CommentBody(Str(videoId), Str(text), Str(s)));
  }

  /** `GET /:videoId`: `req.params.videoId || req.query.videoId` must be
    * truthy; the list is for the caller's tenant. */
  function ListByPath(caller: Caller, paramVideoId: Option<string>, queryVideoId: Option<string>)
    : Result<(string, string), Refusal>
  {
    var videoId := if paramVideoId.Some? && paramVideoId.value != "" then paramVideoId else queryVideoId;
    if videoId.None? || videoId.value == "" then Failure(Refusal(400, "videoId is required"))
    else Success((caller.tenantId, videoId.value))
  }

  /** `GET /`: the query's `videoId` must be truthy. */
  function ListByQuery(caller: Caller, queryVideoId: Option<string>): Result<(string, string), Refusal> {
    if queryVideoId.None? || queryVideoId.value == "" then Failure(Refusal(400, "videoId query parameter is required"))
    else Success((caller.tenantId, queryVideoId.value))
  }

  /** Both listings answer 400 exactly when no video id is given, and
    * otherwise list the caller's tenant's comments on the path's id, or on
    * the query's when the path has none. */
  lemma ListingsNeedVideoId(caller: Caller, param: Option<string>, query: Option<string>)
    ensures ListByQuery(caller, query).Failure? <==> query.None? || query.value == ""
    ensures ListByPath(caller, param, query).Failure? <==>
      (param.None? || param.value == "") && (query.None? || query.value == "")
    ensures ListByPath(caller, param, query).Success? ==>
      ListByPath(caller, param, query).value.0 == caller.tenantId &&
      ListByPath(caller, param, query).value.1 ==
        (if param.Some? && param.value != "" then param.value else query.value)
    ensures ListByQuery(caller, query).Success? ==> ListByQuery(caller, query).value == (caller.tenantId, query.value)
  {
  }
}
