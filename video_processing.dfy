/**
 * The task that server/services/videoProcessing.service.js enqueues for one
 * video, and `emitProgress`. The media probe (`processVideoMedia`) is an input
 * outcome, `save` changes nothing that is modelled, and the socket is a
 * `Channel` that records what is emitted on it, or `null` when no socket
 * server is configured.
 */
module VideoProcessing {
  import opened Wrappers
  import S = Sensitivity
  import opened VideoModel

  /** What `processVideoMedia` resolves to, or the message it rejects with. */
  datatype Media =
    | MediaOk(durationSeconds: Option<real>, resolution: Option<Resolution>, thumbnailPath: string)
    | MediaErr(message: string)

  /** The socket events. A `None` field of `Progress` is a key the payload
    * does not carry. */
  datatype Event =
    | Progress(videoId: string, progress: int, status: Status,
               sensitivity: Option<S.Verdict>, sensitivitySegments: Option<seq<S.Segment>>)
    | Processed(videoId: string, status: Status, sensitivity: Option<S.Verdict>,
                segments: seq<S.Segment>)
    | VideoFailed(videoId: string, error: string)

  function EventName(e: Event): string {
    match e
    case Progress(_, _, _, _, _) => "VIDEO_PROGRESS"
    case Processed(_, _, _, _) => "VIDEO_PROCESSED"
    case VideoFailed(_, _) => "VIDEO_FAILED"
  }

  /** A payload without the sensitivity keys. */
  function Milestone(id: string, progress: int, status: Status): Event {
    Progress(id, progress, status, None, None)
  }

  /** The socket server: it keeps, in order, every event emitted on it. */
  class Channel {
    var events: seq<Event>

    constructor ()
      ensures events == []
    {
      events := [];
    }

    /** `io.emit(name, payload)`. */
    method Emit(e: Event)
      modifies this
      ensures events == old(events) + [e]
    {
      events := events + [e];
    }
  }

  /** `emitProgress(io, payload)`: emits only when there is a socket server. */
  method EmitProgress(io: Channel?, payload: Event)
    requires payload.Progress?
    modifies io
    ensures io != null ==> io.events == old(io.events) + [payload]
  {
    if io != null {
      io.Emit(payload);
    }
  }

  // ---------------------------------------------------------------------
  // The task on values
  // ---------------------------------------------------------------------

  /** Where the `try` block stopped: the record, the events emitted so far
    * and, when it threw, the error message. */
  datatype Attempt = Attempt(state: Snapshot, events: seq<Event>, error: Option<string>)

  /** The analyzer's argument: the stored file name, size and duration. */
  function AnalyzerInput(filename: string, size: int, s: Snapshot): S.Input {
    S.Input(Some(filename), Some(size), s.durationSeconds)
  }

  /** The status the analyzer's verdict selects. */
  function VerdictStatus(v: S.Verdict): Status {
    if v == S.Flagged then Flagged else Ready
  }

  /** The `try` block, step by step; a throw ends it with the message. */
  function TryBody(s: Snapshot, id: string, filename: string, size: int, media: Media): Attempt {
    match Transition(s.life, Processing, None)
    case Failure(m) => Attempt(s, [], Some(m))
    case Success(l1) =>
      var p := ProbeStage(s.(life := l1), id, filename, size, media);
      p.(events := [Milestone(id, 20, l1.status)] + p.events)
  }

  /** The `try` block from the probe on: store its result and report 50. */
  function ProbeStage(s1: Snapshot, id: string, filename: string, size: int, media: Media): Attempt {
    match media
    case MediaErr(m) => Attempt(s1, [], Some(m))
    case MediaOk(d, res, thumb) =>
      var s2 := s1.(durationSeconds := d, resolution := res, thumbnailPath := Some(thumb));
      var a := AnalysisStage(s2, id, filename, size);
      a.(events := [Milestone(id, 50, s2.life.status)] + a.events)
  }

  /** The `try` block from ANALYZED on: report 70, store the analyzer's
    * output, move to its verdict's status and report 100 and VIDEO_PROCESSED. */
  function AnalysisStage(s2: Snapshot, id: string, filename: string, size: int): Attempt {
    match Transition(s2.life, Analyzed, None)
    case Failure(m) => Attempt(s2, [], Some(m))
    case Success(l3) =>
      var s4 := WithAnalysis(s2.(life := l3), filename, size);
      var z := SettleStage(s4, id);
      z.(events := [Milestone(id, 70, l3.status)] + z.events)
  }

  /** The end of the `try` block: move to the verdict's status and report
    * 100 and VIDEO_PROCESSED. */
  function SettleStage(s4: Snapshot, id: string): Attempt
    requires s4.sensitivityStatus.Some?
  {
    match Transition(s4.life, VerdictStatus(s4.sensitivityStatus.value), None)
    case Failure(m) => Attempt(s4, [], Some(m))
    case Success(l5) =>
      var s5 := s4.(life := l5);
      Attempt(s5, [Progress(id, 100, l5.status, s5.sensitivityStatus, Some(s5.sensitivitySegments)),
                   Processed(id, l5.status, s5.sensitivityStatus, s5.sensitivitySegments)], None)
  }

  /** The record with the analyzer's output on its stored fields. */
  function WithAnalysis(s3: Snapshot, filename: string, size: int): (r: Snapshot)
    ensures r.sensitivityStatus.Some?
  {
    var a := S.Analyze(AnalyzerInput(filename, size, s3));
    s3.(sensitivityStatus := Some(a.status), sensitivityConfidence := Some(a.confidence),
        sensitivityReason := Some(a.reason), sensitivitySegments := a.segments)
  }

  /** The events of the `catch` block. */
  function FailureEvents(id: string, message: string): seq<Event> {
    [Milestone(id, 0, Failed), VideoFailed(id, message)]
  }

  /** The whole task on a loaded record: the `try` block, then, if it threw,
    * a best-effort move to FAILED (a rejection is swallowed) and the two
    * failure events. The events are those an attached socket receives. */
  function Task(s: Snapshot, id: string, filename: string, size: int, media: Media): (Snapshot, seq<Event>) {
    var t := TryBody(s, id, filename, size, media);
    match t.error
    case None => (t.state, t.events)
    case Some(m) =>
      var (st, evs) := Recover(t.state, id, m);
      (st, t.events + evs)
  }

  /** The `catch` block: a best-effort move to FAILED with the message as
    * reason (a rejection is swallowed), then the two failure events. */
  function Recover(s: Snapshot, id: string, message: string): (Snapshot, seq<Event>) {
    var st := match Transition(s.life, Failed, Some(message))
              case Success(l) => s.(life := l)
              case Failure(_) => s;
    (st, FailureEvents(id, message))
  }

  // ---------------------------------------------------------------------
  // The task on the record
  // ---------------------------------------------------------------------

  /** The `try` block on the record. */
  method TryProcess(video: Video, media: Media, io: Channel?) returns (error: Option<string>)
    modifies video, io
    ensures var t := TryBody(old(video.State()), video.id, video.originalFilename, video.size, media);
      && video.State() == t.state
      && error == t.error
      && (io != null ==> io.events == old(io.events) + t.events)
  {
    var r := video.TransitionTo(Processing, None);
    if r.Fail? {
      return Some(r.error);
    }
    EmitProgress(io, Milestone(video.id, 20, video.processingStatus));
    error := Probe(video, media, io);
  }

  /** The probe's part of the `try` block on the record. */
  method Probe(video: Video, media: Media, io: Channel?) returns (error: Option<string>)
    modifies video, io
    ensures var t := ProbeStage(old(video.State()), video.id, video.originalFilename, video.size, media);
      && video.State() == t.state
      && error == t.error
      && (io != null ==> io.events == old(io.events) + t.events)
  {
    if media.MediaErr? {
      return Some(media.message);
    }
    video.durationSeconds := media.durationSeconds;
    video.resolution := media.resolution;
    video.thumbnailPath := Some(media.thumbnailPath);
    EmitProgress(io, Milestone(video.id, 50, video.processingStatus));
    error := AnalyzeAndSettle(video, io);
  }

  /** The analysis part of the `try` block on the record. */
  method AnalyzeAndSettle(video: Video, io: Channel?) returns (error: Option<string>)
    modifies video, io
    ensures var t := AnalysisStage(old(video.State()), video.id, video.originalFilename, video.size);
      && video.State() == t.state
      && error == t.error
      && (io != null ==> io.events == old(io.events) + t.events)
  {
    var r := video.TransitionTo(Analyzed, None);
    if r.Fail? {
      return Some(r.error);
    }
    EmitProgress(io, Milestone(video.id, 70, video.processingStatus));
    StoreAnalysis(video);
    error := Settle(video, io);
  }

  /** The verdict's transition and the last two events on the record. */
  method Settle(video: Video, io: Channel?) returns (error: Option<string>)
    requires video.sensitivityStatus.Some?
    modifies video`processingStatus, video`processingHistory, io
    ensures var t := SettleStage(old(video.State()), video.id);
      && video.State() == t.state
      && error == t.error
      && (io != null ==> io.events == old(io.events) + t.events)
  {
    var r;
    if video.sensitivityStatus == Some(S.Flagged) {
      r := video.TransitionTo(Flagged, None);
    } else {
      r := video.TransitionTo(Ready, None);
    }
    if r.Fail? {
      return Some(r.error);
    }
    EmitProgress(io, Progress(video.id, 100, video.processingStatus, video.sensitivityStatus,
                              Some(video.sensitivitySegments)));
    if io != null {
      io.Emit(Processed(video.id, video.processingStatus, video.sensitivityStatus, video.sensitivitySegments));
    }
    error := None;
  }

  /** `analyze` on the stored name, size and duration, and its output stored. */
  method StoreAnalysis(video: Video)
    modifies video`sensitivityStatus, video`sensitivityConfidence, video`sensitivityReason,
             video`sensitivitySegments
    ensures video.State() == WithAnalysis(old(video.State()), video.originalFilename, video.size)
  {
    var a := S.Analyze(S.Input(Some(video.originalFilename), Some(video.size), video.durationSeconds));
    video.sensitivityStatus := Some(a.status);
    video.sensitivityConfidence := Some(a.confidence);
    video.sensitivityReason := Some(a.reason);
    // `sensitivity.sensitivitySegments || []`: the analyzer always returns an array
    video.sensitivitySegments := a.segments;
  }

  /** The enqueued task: nothing when the record is gone; otherwise the
    * `try` block and, when it threw, the `catch` block. Nothing escapes. */
  method ProcessTask(video: Video?, media: Media, io: Channel?)
    modifies video, io
    ensures video != null ==>
      var (st, evs) := Task(old(video.State()), video.id, video.originalFilename, video.size, media);
      video.State() == st && (io != null ==> io.events == old(io.events) + evs)
    ensures video == null && io != null ==> io.events == old(io.events)
  {
    if video == null {
      return;
    }
    var error := TryProcess(video, media, io);
    if error.Some? {
      RecoverRecord(video, io, error.value);
    }
  }

  /** The `catch` block on the record. */
  method RecoverRecord(video: Video, io: Channel?, message: string)
    modifies video`processingStatus, video`processingHistory, io
    ensures video.State() == Recover(old(video.State()), video.id, message).0
    ensures io != null ==> io.events == old(io.events) + Recover(old(video.State()), video.id, message).1
  {
    var _ := video.TransitionTo(Failed, Some(message));
    EmitProgress(io, Milestone(video.id, 0, Failed));
    if io != null {
      io.Emit(VideoFailed(video.id, message));
    }
  }

  // ---------------------------------------------------------------------
  // Properties of the task
  // ---------------------------------------------------------------------

  /** The status the task ends in: READY or FLAGGED as the analyzer says
    * when the record could start and the probe succeeded; FAILED when
    * anything threw; a READY record stays READY. */
  lemma TaskEndsSettled(s: Snapshot, id: string, filename: string, size: int, media: Media)
    ensures var st := Task(s, id, filename, size, media).0.life.status;
      st == Ready || st == Flagged || st == Failed
    ensures s.life.status == Ready ==> Task(s, id, filename, size, media).0 == s
  {
  }

  /** The happy path, from a PENDING record (or a FAILED one being processed
    * again): three history entries PROCESSING, ANALYZED and the verdict's
    * status; the probed fields and the analyzer's output are stored; the
    * socket sees 20, 50, 70, 100 and one VIDEO_PROCESSED. */
  lemma HappyPath(s: Snapshot, id: string, filename: string, size: int,
                  d: Option<real>, res: Option<Resolution>, thumb: string)
    requires s.life.status == Pending || s.life.status == Failed
    ensures var (st, evs) := Task(s, id, filename, size, MediaOk(d, res, thumb));
      var a := S.Analyze(S.Input(Some(filename), Some(size), d));
      var final := if a.status == S.Flagged then Flagged else Ready;
      && st.life == Lifecycle(final, s.life.history + [Entry(s.life.status, Processing, None),
                                                       Entry(Processing, Analyzed, None),
                                                       Entry(Analyzed, final, None)])
      && st.durationSeconds == d && st.resolution == res && st.thumbnailPath == Some(thumb)
      && st.sensitivityStatus == Some(a.status) && st.sensitivityConfidence == Some(a.confidence)
      && st.sensitivityReason == Some(a.reason) && st.sensitivitySegments == a.segments
      && evs == [Milestone(id, 20, Processing), Milestone(id, 50, Processing), Milestone(id, 70, Analyzed),
                 Progress(id, 100, final, Some(a.status), Some(a.segments)),
                 Processed(id, final, Some(a.status), a.segments)]
  {
    var l1 := Lifecycle(Processing, s.life.history + [Entry(s.life.status, Processing, None)]);
    assert Transition(s.life, Processing, None) == Success(l1);
    var s2 := s.(life := l1, durationSeconds := d, resolution := res, thumbnailPath := Some(thumb));
    AnalysisStageSucceeds(s2, id, filename, size);
    var t := TryBody(s, id, filename, size, MediaOk(d, res, thumb));
    assert t.error.None?;
  }

  /** From PROCESSING the analysis part never throws: it appends ANALYZED
    * and the verdict's status, stores the analysis and emits 70, 100 and
    * VIDEO_PROCESSED. */
  lemma AnalysisStageSucceeds(s2: Snapshot, id: string, filename: string, size: int)
    requires s2.life.status == Processing
    ensures var t := AnalysisStage(s2, id, filename, size);
      var a := S.Analyze(S.Input(Some(filename), Some(size), s2.durationSeconds));
      var final := if a.status == S.Flagged then Flagged else Ready;
      && t.error.None?
      && t.state == s2.(life := Lifecycle(final, s2.life.history + [Entry(Processing, Analyzed, None),
                                                                    Entry(Analyzed, final, None)]),
                        sensitivityStatus := Some(a.status), sensitivityConfidence := Some(a.confidence),
                        sensitivityReason := Some(a.reason), sensitivitySegments := a.segments)
      && t.events == [Milestone(id, 70, Analyzed),
                      Progress(id, 100, final, Some(a.status), Some(a.segments)),
                      Processed(id, final, Some(a.status), a.segments)]
  {
    var l3 := Lifecycle(Analyzed, s2.life.history + [Entry(Processing, Analyzed, None)]);
    assert Transition(s2.life, Analyzed, None) == Success(l3);
    var s4 := WithAnalysis(s2.(life := l3), filename, size);
    var a := S.Analyze(S.Input(Some(filename), Some(size), s2.durationSeconds));
    assert s4.sensitivityStatus == Some(a.status);
    var final := VerdictStatus(a.status);
    assert Transition(l3, final, None) == Success(Lifecycle(final, l3.history + [Entry(Analyzed, final, None)]));
  }

  /** A probe failure after PROCESSING: the record moves on to FAILED with
    * the message as reason, keeps its earlier probe and sensitivity fields,
    * and the socket sees 20, then 0/FAILED and VIDEO_FAILED with the message. */
  lemma MediaFailurePath(s: Snapshot, id: string, filename: string, size: int, message: string)
    requires s.life.status == Pending || s.life.status == Failed
    ensures var (st, evs) := Task(s, id, filename, size, MediaErr(message));
      && st == s.(life := Lifecycle(Failed, s.life.history + [Entry(s.life.status, Processing, None),
                                                            Entry(Processing, Failed, Some(message))]))
      && evs == [Milestone(id, 20, Processing)] + FailureEvents(id, message)
  {
  }

  /** A record that cannot enter PROCESSING (it is already PROCESSING,
    * ANALYZED, FLAGGED or READY) fails at the first step, whatever the
    * probe would say: it moves to FAILED when the table allows it (a READY
    * record is left as it is), and the failure events are emitted either way. */
  lemma NotStartablePath(s: Snapshot, id: string, filename: string, size: int, media: Media)
    requires s.life.status != Pending && s.life.status != Failed
    ensures var (st, evs) := Task(s, id, filename, size, media);
      var m := InvalidTransitionMessage(s.life.status, Processing);
      && evs == FailureEvents(id, m)
      && (s.life.status != Ready ==>
            st == s.(life := Lifecycle(Failed, s.life.history + [Entry(s.life.status, Failed, Some(m))])))
      && (s.life.status == Ready ==> st == s)
  {
  }

  /** Whatever the record and the probe, the task keeps the audit trail
    * valid and only appends to it. */
  lemma TaskKeepsHistoryValid(s: Snapshot, id: string, filename: string, size: int, media: Media)
    requires ValidHistory(s.life)
    ensures ValidHistory(Task(s, id, filename, size, media).0.life)
    ensures s.life.history <= Task(s, id, filename, size, media).0.life.history
  {
    var t := TryBody(s, id, filename, size, media);
    TryBodyKeepsHistoryValid(s, id, filename, size, media);
    if t.error.Some? {
      TransitionKeepsHistoryValid(t.state.life, Failed, t.error);
    }
  }

  /** The events of a part of the `try` block: all for this video; when the
    * part completes, progress events followed by one VIDEO_PROCESSED; when it
    * throws, progress events only. */
  predicate TrailShape(evs: seq<Event>, id: string, completed: bool) {
    && (forall i :: 0 <= i < |evs| ==> evs[i].videoId == id)
    && (completed ==> |evs| >= 1 && evs[|evs| - 1].Processed? && forall i :: 0 <= i < |evs| - 1 ==> evs[i].Progress?)
    && (!completed ==> forall i :: 0 <= i < |evs| ==> evs[i].Progress?)
  }

  /** A part of the `try` block that keeps the history valid, only appends
    * to it, and emits a well-shaped trail. */
  predicate StageOk(s: Snapshot, t: Attempt, id: string) {
    && (ValidHistory(s.life) ==> ValidHistory(t.state.life))
    && s.life.history <= t.state.life.history
    && TrailShape(t.events, id, t.error.None?)
  }

  lemma PrependMilestone(e: Event, evs: seq<Event>, id: string, completed: bool)
    requires e.Progress? && e.videoId == id && TrailShape(evs, id, completed)
    ensures TrailShape([e] + evs, id, completed)
  {
    var r := [e] + evs;
    forall i | 1 <= i < |r| ensures r[i] == evs[i - 1] { }
  }

  lemma SettleStageOk(s4: Snapshot, id: string)
    requires s4.sensitivityStatus.Some?
    ensures StageOk(s4, SettleStage(s4, id), id)
  {
    if ValidHistory(s4.life) {
      TransitionKeepsHistoryValid(s4.life, VerdictStatus(s4.sensitivityStatus.value), None);
    }
  }

  lemma AnalysisStageOk(s2: Snapshot, id: string, filename: string, size: int)
    ensures StageOk(s2, AnalysisStage(s2, id, filename, size), id)
  {
    if ValidHistory(s2.life) {
      TransitionKeepsHistoryValid(s2.life, Analyzed, None);
    }
    match Transition(s2.life, Analyzed, None)
    case Failure(_) =>
    case Success(l3) =>
      var s4 := WithAnalysis(s2.(life := l3), filename, size);
      var z := SettleStage(s4, id);
      SettleStageOk(s4, id);
      PrependMilestone(Milestone(id, 70, l3.status), z.events, id, z.error.None?);
  }

  lemma ProbeStageOk(s1: Snapshot, id: string, filename: string, size: int, media: Media)
    ensures StageOk(s1, ProbeStage(s1, id, filename, size, media), id)
  {
    match media
    case MediaErr(_) =>
    case MediaOk(d, res, thumb) =>
      var s2 := s1.(durationSeconds := d, resolution := res, thumbnailPath := Some(thumb));
      var a := AnalysisStage(s2, id, filename, size);
      AnalysisStageOk(s2, id, filename, size);
      PrependMilestone(Milestone(id, 50, s2.life.status), a.events, id, a.error.None?);
  }

  /** The whole `try` block keeps the history valid, only appends to it and
    * emits a well-shaped trail. */
  lemma TryBodyOk(s: Snapshot, id: string, filename: string, size: int, media: Media)
    ensures StageOk(s, TryBody(s, id, filename, size, media), id)
  {
    if ValidHistory(s.life) {
      TransitionKeepsHistoryValid(s.life, Processing, None);
    }
    match Transition(s.life, Processing, None)
    case Failure(_) =>
    case Success(l1) =>
      var p := ProbeStage(s.(life := l1), id, filename, size, media);
      ProbeStageOk(s.(life := l1), id, filename, size, media);
      PrependMilestone(Milestone(id, 20, l1.status), p.events, id, p.error.None?);
  }

  lemma TryBodyKeepsHistoryValid(s: Snapshot, id: string, filename: string, size: int, media: Media)
    requires ValidHistory(s.life)
    ensures ValidHistory(TryBody(s, id, filename, size, media).state.life)
    ensures s.life.history <= TryBody(s, id, filename, size, media).state.life.history
  {
    TryBodyOk(s, id, filename, size, media);
  }

  /** The socket's events: at least two, all for this video, progress events
    * and then exactly one terminal event, last, which is VIDEO_PROCESSED
    * exactly when the `try` block did not throw. */
  lemma EventsEndWithOneTerminal(s: Snapshot, id: string, filename: string, size: int, media: Media)
    ensures var evs := Task(s, id, filename, size, media).1;
      && |evs| >= 2
      && (forall i :: 0 <= i < |evs| - 1 ==> evs[i].Progress?)
      && !evs[|evs| - 1].Progress?
      && (evs[|evs| - 1].Processed? <==> TryBody(s, id, filename, size, media).error.None?)
      && (forall i :: 0 <= i < |evs| ==> evs[i].videoId == id)
  {
    var t := TryBody(s, id, filename, size, media);
    TryBodyOk(s, id, filename, size, media);
    var evs := Task(s, id, filename, size, media).1;
    if t.error.Some? {
      var f := FailureEvents(id, t.error.value);
      assert evs == t.events + f;
      assert forall i :: |t.events| <= i < |evs| ==> evs[i] == f[i - |t.events|];
      assert forall i :: 0 <= i < |t.events| ==> evs[i] == t.events[i];
    }
  }

  /** Retrying works again and again: running the task on a FAILED record
    * ends READY or FLAGGED when the probe succeeds and FAILED again when it
    * fails, with the history valid in both cases. */
  lemma FailedRecordCanBeProcessedAgain(s: Snapshot, id: string, filename: string, size: int, media: Media)
    requires s.life.status == Failed && ValidHistory(s.life)
    ensures var st := Task(s, id, filename, size, media).0;
      && ValidHistory(st.life)
      && (media.MediaOk? ==> st.life.status == Ready || st.life.status == Flagged)
      && (media.MediaErr? ==> st.life.status == Failed)
  {
    TaskKeepsHistoryValid(s, id, filename, size, media);
  }

  /** An upload of 40 seconds named "Banned_Clip.mp4", of even size, ends
    * FLAGGED with confidence 90 and two segments. */
  lemma BannedFortySecondUpload(s: Snapshot, id: string, size: int, res: Option<Resolution>, thumb: string)
    requires s.life == Initial && size % 2 == 0
    ensures var st := Task(s, id, "Banned_Clip.mp4", size, MediaOk(Some(40.0), res, thumb)).0;
      && st.life.status == Flagged && st.sensitivityConfidence == Some(90)
      && |st.sensitivitySegments| == 2
  {
    S.BannedFortySecondScenario(size);
    HappyPath(s, id, "Banned_Clip.mp4", size, Some(40.0), res, thumb);
  }

  /** A clean 10-second upload of even size ends READY, confidence 20, no segments. */
  lemma CleanTenSecondUpload(s: Snapshot, id: string, size: int, res: Option<Resolution>, thumb: string)
    requires s.life == Initial && size % 2 == 0
    ensures var st := Task(s, id, "clip.mp4", size, MediaOk(Some(10.0), res, thumb)).0;
      && st.life.status == Ready && st.sensitivityConfidence == Some(20)
      && st.sensitivitySegments == []
  {
    S.CleanTenSecondScenario(size);
    HappyPath(s, id, "clip.mp4", size, Some(10.0), res, thumb);
  }
}
