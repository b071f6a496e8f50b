# StreamValet server core in Dafny

StreamValet is a multi-tenant video platform. An uploaded video gets a record in
status PENDING. A single-worker job queue then runs the processing task on it. The
task probes the media, runs a content-sensitivity heuristic, and moves the record
through a strict state machine (PENDING → PROCESSING → ANALYZED → READY or FLAGGED,
and FAILED on any error). It emits progress events on a socket as it goes.

Around that pipeline sit small request deciders:
- the byte-range computation of the streaming endpoint;
- the upload file filter and field limits;
- the retry, delete and owner-or-admin guards;
- the `checkRole` middleware;
- the dashboard formatting of watch time, storage and percentages;
- the comment and user request checks.

The model has one module per source file:

| module | file | form |
|---|---|---|
| `VideoModel` | `server/models/video.model.js` | transition table; class `Video` with in-place `TransitionTo` |
| `JobQueue` | `server/services/jobQueue.service.js` | step functions with an invariant; class `JobQueueService` |
| `Sensitivity` | `server/services/sensitivity.service.js` | pure `Analyze` |
| `VideoProcessing` | `server/services/videoProcessing.service.js` | task on values (`Task`); methods on a `Video` and a socket `Channel` |
| `VideoRoutes` | `server/routes/video.routes.js` | range, filter, upload, list, delete and retry deciders; `UploadRoute` and `RetryRoute` methods |
| `CheckRole` | `server/middlewares/checkRole.js` | pure `RoleGuard` |
| `Stats` | `server/services/stats.service.js` | `FormatWatchTime`, `FormatStorage`, `SmartStatsOf` |
| `CommentRoutes` | `server/routes/comment.routes.js` | `PostComment`, `ListByPath`, `ListByQuery` |
| `UserRoutes` | `server/routes/user.routes.js` | `CreateUser`; `PatchRole` on a `UserRecord` |

Four helper modules support them:
- `Wrappers` holds `Option`, `Result` and `Outcome`.
- `JsText` models the JavaScript string built-ins the code uses (`toLowerCase`, `trim`, `includes`, `indexOf`, `replace`, `split`, `parseInt`, `String(n)`, `padStart`).
- `JsValue` models JSON body values, truthiness and `Number(v)`.
- `NodePath` models `path.basename` and `path.extname`.

A thrown error becomes a `Failure`/`Fail` value. An HTTP answer that ends a request is a `Refusal(status, message)`. Database lookups are inputs: a route receives the record the tenant-scoped query found, or `None`/`null`.

The system's design documentation disagrees with the code in two places, and the model follows the code in both:
- **Keyword segment.** The documentation computes it from `min(5, duration)` and `duration×0.1`. The code uses the falsy fallbacks `durationSeconds || 5` and `durationSeconds ? durationSeconds * 0.1 : 3`.
- **Retry.** The documentation says retry moves a FAILED video to PENDING and re-queues it. The code's table forbids that edge (see Findings).

## Model

| member | source | states |
|---|---|---|
| VideoModel.Video.constructor | server/models/video.model.js:42-84 | a new record stores the given fields with the title and description trimmed (the schema's `trim` setters), is PENDING with an empty history, nothing probed or analysed |
| VideoModel.Video.TransitionTo | server/models/video.model.js:127-137 | succeeds exactly when the target is listed for the current status; a rejection returns "Invalid transition from X to Y" and changes neither field; a success appends exactly one `{from, to, reason}` entry after the old ones and sets the status; agrees with `Transition` on values |
| VideoModel.TableShape | server/models/video.model.js:19-26 | READY has no successor; FAILED's only successor is PROCESSING (so FAILED→PENDING is rejected); PENDING cannot jump to READY, ANALYZED or FLAGGED; ANALYZED is entered only from PROCESSING, FLAGGED only from ANALYZED, READY only from ANALYZED or FLAGGED |
| VideoModel.TransitionKeepsHistoryValid | server/models/video.model.js:131-136 | an accepted transition keeps the history valid: entries chain, the first starts at PENDING, the last ends at the status, every entry is an allowed edge |
| VideoModel.RunKeepsHistoryValid | server/models/video.model.js:127-137 | any run of attempts (rejections caught) from a valid lifecycle, in particular the default PENDING/empty one, keeps the history valid, only appends, and adds one entry per accepted call |
| VideoModel.ReadyIsTerminal | server/models/video.model.js:24 | every run of attempts from READY leaves status and history unchanged and accepts none |
| VideoModel.ReadyOnlyThroughProcessingAndAnalyzed | server/models/video.model.js:20-23 | a valid history that has reached READY contains an entry to PROCESSING followed later by an entry to ANALYZED |
| JobQueue.EmptyInv | server/services/jobQueue.service.js:2-5 | the fresh queue (empty, not running) satisfies the invariant: enqueued = started ++ waiting, at most one started job unfinished, an idle queue with waiting jobs has a callback scheduled |
| JobQueue.EnqueuePreservesInv | server/services/jobQueue.service.js:7-10 | `enqueue` keeps the invariant with the job appended to the enqueued jobs, leaves a job running, and while a job runs only appends at the tail |
| JobQueue.RunNextPreservesInv | server/services/jobQueue.service.js:12-16 | `runNext` does nothing while a job runs or on an empty queue (running stays false), otherwise starts exactly the head and removes it; the invariant is kept |
| JobQueue.FinishPreservesInv | server/services/jobQueue.service.js:17-27 | a throwing job is handled exactly like a returning one: running is cleared, the queue is untouched, the invariant is kept (a callback is scheduled when jobs wait) |
| JobQueue.WakePreservesInv | server/services/jobQueue.service.js:24-26 | the scheduled `runNext` callback keeps the invariant |
| JobQueue.DrainRunsEveryJobInOrder | server/services/jobQueue.service.js:7-28 | letting the queue run to the end, whatever the outcomes, starts every enqueued job exactly once in enqueue order, finishes them all and leaves the queue idle and empty |
| JobQueue.JobQueueService.constructor | server/services/jobQueue.service.js:2-5 | the service starts empty, idle and valid |
| JobQueue.JobQueueService.RunNext | server/services/jobQueue.service.js:12-16 | the new state is `RunNextStep` of the old; returns the job it started (the old head) or none when running or empty; when it was idle, afterwards it runs or the queue is empty |
| JobQueue.JobQueueService.Enqueue | server/services/jobQueue.service.js:7-10 | keeps the invariant, records the job as enqueued, new state is `EnqueueStep` |
| JobQueue.JobQueueService.Finish | server/services/jobQueue.service.js:22-27 | keeps the invariant, new state is `FinishStep` for either outcome |
| JobQueue.JobQueueService.Wake | server/services/jobQueue.service.js:25 | keeps the invariant, new state is `WakeStep`, returns the job started |
| Sensitivity.OddSizeIsPositiveOdd | server/services/sensitivity.service.js:7 | the JavaScript remainder test `size % 2 === 1` holds exactly for positive odd sizes (a negative odd size gives -1) |
| Sensitivity.SegmentsInFixedOrder | server/services/sensitivity.service.js:10-22 | every segment comes from one of the three rules, in the rules' order, each at most once, so at most three |
| Sensitivity.SegmentPresence | server/services/sensitivity.service.js:5-22 | the [10,15] simulated segment is present iff the duration is truthy and over 30; a keyword segment iff the lower-cased name contains a keyword; an odd-size segment iff the size test holds |
| Sensitivity.SegmentsWithinVideo | server/services/sensitivity.service.js:10-22 | for a non-negative or missing duration every segment has 0 ≤ start ≤ end; for a positive duration it ends within the video, otherwise by 6 s |
| Sensitivity.VerdictFollowsSegments | server/services/sensitivity.service.js:24-31 | FLAGGED iff there is a segment; confidence 90 then, else 20; the reason is the first segment's, else "No sensitive patterns detected" |
| Sensitivity.LongKeywordFileReportsSimulatedReason | server/services/sensitivity.service.js:10-29 | a file over 30 s whose name has a keyword is flagged with at least two segments and reports "Simulated sensitive segment" |
| Sensitivity.BannedFortySecondScenario | server/services/sensitivity.service.js:4-32 | "Banned_Clip.mp4", 40 s, even size: FLAGGED, 90, segments [10,15] and the keyword segment [3,6] |
| Sensitivity.CleanTenSecondScenario | server/services/sensitivity.service.js:4-32 | "clip.mp4", 10 s, even size: SAFE, 20, the safe reason, no segments |
| VideoProcessing.Channel.constructor | server/services/videoProcessing.service.js:8 | a socket with nothing emitted yet |
| VideoProcessing.Channel.Emit | server/services/videoProcessing.service.js:8 | appends the event to the emitted log |
| VideoProcessing.EmitProgress | server/services/videoProcessing.service.js:7-9 | emits the payload when a socket exists, nothing otherwise |
| VideoProcessing.WithAnalysis | server/services/videoProcessing.service.js:35-38 | the stored record always carries a sensitivity status after analysis |
| VideoProcessing.StoreAnalysis | server/services/videoProcessing.service.js:30-38 | analyses the stored name, size and duration and stores status, confidence, reason and segments, touching no other field |
| VideoProcessing.AnalyzeAndSettle | server/services/videoProcessing.service.js:27-60 | the ANALYZED step, analysis, verdict transition and the 70/100/VIDEO_PROCESSED events on the record agree with `AnalysisStage` |
| VideoProcessing.Probe | server/services/videoProcessing.service.js:21-25 | a probe failure throws its message; a success copies duration, resolution and thumbnail and emits 50, then continues as `ProbeStage` says |
| VideoProcessing.Settle | server/services/videoProcessing.service.js:40-60 | a flagged analysis moves the record to FLAGGED, any other to READY; a refused move throws its message and emits nothing; otherwise 100 and VIDEO_PROCESSED carry the final status and segments, as `SettleStage` says |
| VideoProcessing.TryProcess | server/services/videoProcessing.service.js:16-60 | the whole `try` block on the record (state, error and emitted events) agrees with `TryBody` |
| VideoProcessing.ProcessTask | server/services/videoProcessing.service.js:12-74 | the task on the record agrees with `Task`; with no record it changes nothing and emits nothing; no error escapes |
| VideoProcessing.RecoverRecord | server/services/videoProcessing.service.js:61-70 | the `catch` block on the record: FAILED with the message as reason where the table allows it, the record untouched where it does not, then 0/FAILED and VIDEO_FAILED with the message, as `Recover` says |
| VideoProcessing.TaskEndsSettled | server/services/videoProcessing.service.js:16-70 | the task always ends READY, FLAGGED or FAILED, and a READY record is left exactly as it was |
| VideoProcessing.HappyPath | server/services/videoProcessing.service.js:17-60 | from PENDING (or FAILED) with a successful probe: entries PROCESSING, ANALYZED, then FLAGGED or READY as the analyzer says; probe fields and analyzer output stored; events 20, 50, 70, 100 and one VIDEO_PROCESSED with final status and segments |
| VideoProcessing.AnalysisStageSucceeds | server/services/videoProcessing.service.js:27-60 | from PROCESSING the analysis part never throws: it appends ANALYZED and the verdict's status, stores the analyzer output and emits 70, 100 and VIDEO_PROCESSED |
| VideoProcessing.MediaFailurePath | server/services/videoProcessing.service.js:21-70 | a probe failure moves PROCESSING→FAILED with the message as reason, leaves other fields alone, emits 20, then 0/FAILED and VIDEO_FAILED with the message |
| VideoProcessing.NotStartablePath | server/services/videoProcessing.service.js:17-70 | a record that cannot enter PROCESSING fails at once with the invalid-transition message; it moves to FAILED where the table allows it; a READY record is untouched but the failure events are still emitted |
| VideoProcessing.TaskKeepsHistoryValid | server/services/videoProcessing.service.js:16-68 | for every record and probe outcome the task keeps the history valid and only appends to it |
| VideoProcessing.TryBodyOk | server/services/videoProcessing.service.js:16-60 | the `try` block keeps a valid history valid, only appends to it, and emits events all for this video: progress events, ended by one VIDEO_PROCESSED exactly when it did not throw |
| VideoProcessing.TryBodyKeepsHistoryValid | server/services/videoProcessing.service.js:16-60 | the `try` block alone keeps the history valid and only appends |
| VideoProcessing.EventsEndWithOneTerminal | server/services/videoProcessing.service.js:19-70 | at least two events, all for this video; all but the last are progress events; the last is VIDEO_PROCESSED exactly when the `try` block did not throw, else VIDEO_FAILED |
| VideoProcessing.FailedRecordCanBeProcessedAgain | server/services/videoProcessing.service.js:17-68 | processing a FAILED record again ends READY/FLAGGED after a good probe and FAILED after a bad one, with the history valid |
| VideoProcessing.BannedFortySecondUpload | server/services/videoProcessing.service.js:12-74 | a fresh 40 s "Banned_Clip.mp4" of even size ends FLAGGED, confidence 90, two segments |
| VideoProcessing.CleanTenSecondUpload | server/services/videoProcessing.service.js:12-74 | a fresh clean 10 s video of even size ends READY, confidence 20, no segments |
| VideoRoutes.AccessCheck | server/routes/video.routes.js:126-130 | passes iff the video exists and the caller owns it or is an admin; 404 "Video not found" when missing, else 403 "Forbidden" |
| VideoRoutes.ListedExactlyWhenAccessible | server/routes/video.routes.js:46-50 | the list query admits a video iff it is in the caller's tenant and the per-video access check passes |
| VideoRoutes.DeleteAllowedFor | server/routes/video.routes.js:168-187 | a delete answers 200 iff the video exists and the caller is an admin, or an editor owning it; viewers get 403, anonymous callers 401 |
| VideoRoutes.RangeWindowBounds | server/routes/video.routes.js:143-150 | a served window has a non-negative start and an end no later than the last byte (and non-negative for a non-empty file) |
| VideoRoutes.OpenEndedWindow | server/routes/video.routes.js:148-149 | without an end part the end is min(start + 1048575, size − 1), so at most 1 MiB is served |
| VideoRoutes.ExplicitEnd | server/routes/video.routes.js:149-150 | an explicit end inside the file is kept; one past the file or unparsable becomes size − 1 |
| VideoRoutes.PartialLength | server/routes/video.routes.js:148-159 | every 206 serves a non-empty window inside the file (0 ≤ start ≤ end ≤ size − 1), with `Content-Length` end − start + 1 ≥ 1 and `Content-Range` "bytes start-end/size" |
| VideoRoutes.RangePastEndIs500 | server/routes/video.routes.js:148-154 | as written, a parsed window is answered 500 "Upload failed" (the read stream throws before any header) exactly when its start lies past its end, in particular whenever the start is at or past the file size |
| VideoRoutes.IntendedRangePastEndIs416 | server/routes/video.routes.js:145-154 | the corrected route never answers 500: a window that cannot be served, in particular a start at or past the file size, gets 416, and every other answer is the route's as written |
| VideoRoutes.NoRangeServesWholeFile | server/routes/video.routes.js:134-141 | no (or an empty) Range header gives 200 with the full size and the stored type |
| VideoRoutes.NonNumericStartIs416 | server/routes/video.routes.js:143-147 | `bytes=abc-…` is answered 416 |
| VideoRoutes.SuffixRangeIs416 | server/routes/video.routes.js:143-147 | a suffix range `bytes=-n` has an empty start part and is answered 416 |
| VideoRoutes.FirstMegabyteOfTenMegabyteFile | server/routes/video.routes.js:134-159 | `bytes=0-` on a 10485760-byte file: 206, window 0-1048575, "bytes 0-1048575/10485760", length 1048576 |
| VideoRoutes.FileFilterAccepts | server/routes/video.routes.js:23-31 | a file passes iff its type is video/mp4 or video/x-matroska and its last path component is longer than four characters and ends, once lower-cased (the Kelvin sign lower-casing to k), with .mp4 or .mkv |
| VideoRoutes.UpperCaseExtensionPasses | server/routes/video.routes.js:26-27 | "clip.MP4" passes |
| VideoRoutes.KelvinSignExtensionPasses | server/routes/video.routes.js:26-27 | "clip.m\u212Av" with video/x-matroska passes, because the Kelvin sign lower-cases to k |
| VideoRoutes.DotFileIsRefused | server/routes/video.routes.js:26-28 | ".mp4" has no extension and is refused |
| VideoRoutes.LastExtensionCounts | server/routes/video.routes.js:26-28 | "clip.mp4.exe" is refused |
| VideoRoutes.UploadAccepted | server/routes/video.routes.js:55-85 | an accepted upload comes from an admin or editor with a file that passed the filter and texts within 200/1000; the record is the caller's, in the caller's tenant, with the file's name, path, type and size and the given description; an empty or missing title falls back to the file name; the title is not blank and the size is at least 1 |
| VideoRoutes.UploadCheckOrder | server/routes/video.routes.js:55-85 | 401 first, then 403 for a viewer, then the missing file, then a long title (after a passed filter); a checked upload with an empty file or a blank title fails validation at save and answers 500 "Upload failed" |
| VideoRoutes.BlankTitleIs500 | server/routes/video.routes.js:65-85 | a title of blanks passes the length check, is trimmed to the empty string, fails the required title at save and answers 500 |
| VideoRoutes.UploadRoute | server/routes/video.routes.js:74-88 | a refused upload creates nothing and queues nothing; an accepted one creates a fresh PENDING record with the decided tenant, owner, file name, path, type and size, the title and description trimmed, and queues exactly its id |
| VideoRoutes.RetryAsWrittenNeverSucceeds | server/routes/video.routes.js:104-117 | as written, no retry succeeds: every request past the guards (necessarily a FAILED video) ends in 500 "Upload failed" |
| VideoRoutes.RetryAcceptsExactlyFailedVideos | server/routes/video.routes.js:104-112 | the corrected retry accepts exactly FAILED videos an admin, or an editor who owns them, asks for, and reports them as FAILED |
| VideoRoutes.RetryRoute | server/routes/video.routes.js:100-120 | the corrected route answers as `Retry` and queues the video's id again exactly when accepted |
| CheckRole.RoleGuard | server/middlewares/checkRole.js:5-16 | 401 iff there is no caller; passes iff the caller's role is listed; 403 iff a caller's role is not listed |
| CheckRole.ResponseWrittenUnlessNext | server/middlewares/checkRole.js:7-15 | a response (401 "Unauthorized" or 403 "Forbidden") is written exactly when the request does not go on |
| CheckRole.DefaultListForbidsEveryone | server/middlewares/checkRole.js:5-13 | with the default (or an empty) list every authenticated caller gets 403 |
| CheckRole.WiderListAdmitsMore | server/middlewares/checkRole.js:11-13 | a caller admitted by a list is admitted by every list containing it; anonymous callers are refused whatever the list |
| CheckRole.EditorsAndAdminsPass | server/routes/video.routes.js:58 | `checkRole(['admin', 'editor'])` admits exactly admins and editors |
| Stats.TotalSeconds | server/services/stats.service.js:4 | the floored, non-negative whole seconds; 0 for nothing or under a second |
| Stats.FormatWatchTimeOfNothing | server/services/stats.service.js:3-8 | a missing, negative or sub-minute time shows "00:00" |
| Stats.WatchTimeReadsBack | server/services/stats.service.js:3-8 | the text splits at ':' into digit strings, the hours at least two long and never truncated, the minutes exactly two; they are the whole hours and the remaining whole minutes (under 60), and less than a minute is dropped |
| Stats.FormatWatchTimeExamples | server/services/stats.service.js:3-8 | 3725.9 s shows "01:02"; 360000 s shows "100:00" |
| Stats.StorageUnitSelection | server/services/stats.service.js:10-22 | GB from 2^30 bytes, MB from 2^20, KB from 2^10, plain bytes below; a scaled value is the size in that unit, at least 1 and (but for GB) under 1024; a missing size is "0 B" |
| Stats.SumCounts | server/services/stats.service.js:25-45 | the group counts one per video, and the SAFE and FLAGGED counts are non-negative and never exceed it |
| Stats.PercentBounds | server/services/stats.service.js:62-63 | a rounded percentage of a count within its total is between 0 and 100, 0 for none, 100 for all |
| Stats.NoVideosNoFigures | server/services/stats.service.js:47-69 | a tenant without videos gets 0 for every total and percentage, "00:00" and "0 B" |
| Stats.SmartStatsBounds | server/services/stats.service.js:24-70 | for any tenant the video count matches, SAFE plus FLAGGED do not exceed it, and both percentages lie in 0..100 |
| CommentRoutes.PostCommentAccepted | server/routes/comment.routes.js:62-83 | a comment is accepted iff the video id is truthy, the text a non-empty string of at most 2000 characters and `Number(timestamp)` a non-negative number; it takes tenant and author from the caller and the coerced timestamp |
| CommentRoutes.PostCommentCheckOrder | server/routes/comment.routes.js:63-72 | the required-fields check answers first, then the timestamp, then the length, each with its own message |
| CommentRoutes.TimestampCoercion | server/routes/comment.routes.js:66-69 | a missing timestamp (`NaN`) is refused, while `null` and `""` coerce to 0 and are accepted |
| CommentRoutes.TimestampFromDigits | server/routes/comment.routes.js:66-69 | a timestamp sent as the decimal digits of a whole number is accepted as that number |
| CommentRoutes.IdeographicSpaceTimestamp | server/routes/comment.routes.js:66-69 | a timestamp of an ideographic space (U+3000) and "5" is accepted as 5: `Number` skips every space separator |
| CommentRoutes.ListingsNeedVideoId | server/routes/comment.routes.js:12-56 | both listings answer 400 exactly when no video id is given; otherwise they list the caller's tenant on the path id, or the query id when the path has none |
| UserRoutes.CreatedUserIsValid | server/routes/user.routes.js:14-34 | a created user was created by an admin, has email, name and a password of at least 8 characters, a listed role (viewer when none was given), the body's tenant or else the admin's; it is stored with the e-mail trimmed and lower-cased, matching the schema's pattern, and the name trimmed and non-empty, and its (stored e-mail, tenant) pair is new |
| UserRoutes.CreateUserCheckOrder | server/routes/user.routes.js:17-34 | missing fields (raw values), then a short password, then an unknown role, then an existing (stored e-mail, tenant) pair (409), then a failed schema validator (500), each with its own message |
| UserRoutes.SecondCreateConflicts | server/routes/user.routes.js:28-31 | once a user is registered, every request that passes the field checks for the same tenant and the same e-mail up to letter case and surrounding blanks answers 409 |
| UserRoutes.CreateUserSucceedsWhenChecksPass | server/routes/user.routes.js:14-34 | an admin request that passes every check creates the user with the lower-cased trimmed e-mail, the given password, the trimmed name, the resolved tenant and the given or default role |
| UserRoutes.PlainUserCreated | server/routes/user.routes.js:14-34 | "a@x.io" with a long enough password and no role creates a viewer of the admin's tenant |
| UserRoutes.CaseVariantConflicts | server/routes/user.routes.js:28-31 | "A@X.io" is refused 409 once "a@x.io" exists in the tenant |
| UserRoutes.UserRecord.constructor | server/routes/user.routes.js:58-59 | the looked-up user document with its fields |
| UserRoutes.PatchRoleCheckCases | server/routes/user.routes.js:52-59 | a role change passes iff an admin asks for a listed role of an existing user; an unlisted role is 400 whether or not the user exists; a missing user with a listed role is 404 |
| UserRoutes.PatchRole | server/routes/user.routes.js:47-66 | a refused change leaves the record alone; an accepted one sets only the role and answers with the record's fields |
| JsText.IndexOf | server/routes/video.routes.js:143 | the first occurrence of the pattern, or none exactly when it does not occur |
| JsText.Split | server/routes/video.routes.js:143 | at least one part, no part contains the separator, and joining the parts gives the string back |
| JsText.NatToString | server/routes/video.routes.js:155 | decimal digits without a leading zero whose value is the number |
| JsText.ParseIntWithoutMinus | server/routes/video.routes.js:144 | a string without '-' never parses to a negative number |
| JsText.ParseIntOfNatToString | server/routes/video.routes.js:144 | `parseInt(String(n), 10) == n` |
| JsValue.NumberOfNatString | server/routes/comment.routes.js:66 | `Number(String(n)) == n` for every non-negative integer |
| JsValue.ToNumberExamples | server/routes/comment.routes.js:66 | `Number` of undefined is NaN; of null, "" and blanks it is 0 |
| JsValue.ToNumberOfLetters | server/routes/comment.routes.js:66 | `Number("abc")` is NaN |
| NodePath.TrimTrailingSlashes | server/routes/video.routes.js:26 | the path without its trailing separators: a prefix not ending in '/', and only '/' characters were dropped |
| NodePath.Basename | server/routes/video.routes.js:26 | the last component holds no '/' |
| NodePath.BasenameIsLastComponent | server/routes/video.routes.js:26 | once the trailing separators are dropped, the base name is the text after the last '/', or all of it when there is none |
| NodePath.ExtnameShape | server/routes/video.routes.js:26 | an extension is empty or a '.' with no further '.', and a proper suffix of the last component |
| NodePath.ExtensionOfLength4 | server/routes/video.routes.js:26 | the lower-cased extension is a given ".xyz" iff the last component is longer than four and its last four characters lower-case to it |

## Left out

- Persistence: `save`, `find`, `findOne`, `aggregate` and `findByIdAndDelete` are not modelled. Lookups are inputs. The schema's setters and the validators `save` runs are modelled where the core routes reach them: the upload's required fields and `min: 1` size, and the new user's required fields and e-mail pattern. The unique (tenant, email) index, the `owner` ObjectId cast and a race between the lookup and the save are not.
- Media probing (`processVideoMedia`, ffmpeg) is an input outcome: a success with duration, resolution and thumbnail path, or a rejection message.
- The socket transport is not modelled. A socket is a `Channel` that logs the emitted events in order; a missing socket server is `null`.
- Concurrency: the job queue is a sequential state machine. The `setImmediate` callback is an explicit `Wake` step, and interleavings between requests and jobs are not modelled. A job's `await` is split into starting it (`RunNext`) and its settling (`Finish`).
- JobQueue.RunNext: `if (!job) return` is modelled as the empty-queue test, because jobs are always functions and never falsy.
- Authentication (JWT), password hashing (bcrypt), helmet, CORS, rate limiting and the environment configuration are not modelled. The caller is an input `Option<Caller>`.
- File I/O is not modelled: the stream body bytes (`createReadStream`, `pipe`, the 64 KiB buffer), `statSync` (the file size is an input), `cleanupFile`, and the file unlink of the delete route.
- Multer's disk storage and its 2 GiB size limit are not modelled. The stored path is an input (the `Date.now()` file name is derived outside the model).
- Stats.FormatStorage: `toFixed` is not modelled; the label keeps the exact scaled value and its number of decimals.
- Stats.Percent: `Math.round` is applied to the exact ratio, not to a double. `getSmartStats` is modelled from the aggregate row on; the `$match`/`$group` pipeline is modelled as a sum over the tenant's videos.
- Sensitivity.Analyze: durations and segment bounds are exact reals, so `d * 0.1` has no binary rounding. A `NaN` duration is not modelled.
- Text lengths are counted in Unicode scalar values, while JavaScript's `.length` counts UTF-16 code units. Characters outside the Basic Multilingual Plane therefore count once, not twice (title and description limits, comment text, password).
- `toLowerCase` maps the ASCII letters and U+212A KELVIN SIGN, the characters whose lower case is one ASCII letter, and keeps every other character. The extension and keyword tests compare with ASCII text, so they give the same answers as JavaScript's full mapping. U+0130 lower-cases to "i" and a combining dot, which no keyword or extension can match.
- UserRoutes.CreateUser: the stored e-mail is lower-cased with that mapping only, while Mongoose's `lowercase` also maps other letters ("É" to "é"), so e-mails differing only in such letters are not found to conflict. The 500 answer carries only the "User validation failed" start of Mongoose's message, not the failing paths it lists.
- UserRoutes.CreateUser: the body fields are strings or absent. A JSON number, boolean or object is not modelled: for a numeric password `password.length` is undefined and the length check is skipped.
- JsValue.ToNumber: hexadecimal, octal and binary literals, `Infinity`, and arrays coerced through their string form give `None` (NaN) instead of a number.
- The `at` timestamp of history entries and the `createdAt` fields are not modelled.
- `GET /health`, the `Video.find(...).sort` ordering, the comment service's storage and broadcast, and the admin and auth routes are not modelled.
- The router's error handler is modelled only where the core reaches it: the filter's "Unsupported file type" answers 400; the retry's thrown transition, the read stream refusing a window and a failed upload validation answer 500 "Upload failed".

## Findings

| source | as written | input that shows it | evidently intended | confidence | as-written member | corrected member |
|---|---|---|---|---|---|---|
| server/routes/video.routes.js:115 | the retry route resets a FAILED video with `transitionTo(PENDING, 'Manual retry')`, but the table (server/models/video.model.js:25) lists only PROCESSING after FAILED, so the call throws and the error handler answers 500 "Upload failed" before anything is queued | `POST /:id/retry` by the owner (an editor) of a FAILED video | a FAILED video is queued for processing again; the task itself takes the allowed FAILED→PROCESSING edge | not executed | VideoRoutes.RetryAsWrittenNeverSucceeds | VideoRoutes.RetryAcceptsExactlyFailedVideos |
| server/routes/video.routes.js:152 | the stream route hands any parsed window to `fs.createReadStream`, which throws `ERR_OUT_OF_RANGE` when the start lies past the end; the router's error handler (server/routes/video.routes.js:192-198) then answers 500 "Upload failed" | `Range: bytes=20-` on a 10-byte file: start 20, end min(20 + 1048575, 9) = 9 | a range the file cannot serve gets the route's own 416 "Invalid range" | not executed | VideoRoutes.RangePastEndIs500 | VideoRoutes.IntendedRangePastEndIs416 |
