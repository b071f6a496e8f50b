/**
 * The video record of server/models/video.model.js: the processing status, its
 * strict transition table, and `transitionTo`, which either throws and leaves
 * the record alone or appends one history entry and moves the status.
 * The entry's `at` timestamp is not modelled.
 */
module VideoModel {
  import opened Wrappers
  import JsText
  import S = Sensitivity

  /** `PROCESSING_STATUS`. */
  datatype Status = Pending | Processing | Analyzed | Ready | Flagged | Failed

  function StatusName(s: Status): string {
    match s
    case Pending => "PENDING"
    case Processing => "PROCESSING"
    case Analyzed => "ANALYZED"
    case Ready => "READY"
    case Flagged => "FLAGGED"
    case Failed => "FAILED"
  }

  /** `allowedTransitions`, in the table's own order. */
  function Successors(s: Status): seq<Status> {
    match s
    case Pending => [Processing, Failed]
    case Processing => [Analyzed, Failed]
    case Analyzed => [Ready, Flagged, Failed]
    case Flagged => [Ready, Failed]
    case Ready => []
    case Failed => [Processing]
  }

  /** `allowedTransitions[from].includes(to)`. */
  predicate Allowed(from: Status, to: Status) {
    to in Successors(from)
  }

  function InvalidTransitionMessage(from: Status, to: Status): string {
    "Invalid transition from " + StatusName(from) + " to " + StatusName(to)
  }

  /** One `processingHistory` item. */
  datatype Entry = Entry(from: Status, to: Status, reason: Option<string>)

  /** The two fields `transitionTo` changes. */
  datatype Lifecycle = Lifecycle(status: Status, history: seq<Entry>)

  /** A new record: the schema default PENDING and an empty history. */
  const Initial: Lifecycle := Lifecycle(Pending, [])

  /** `transitionTo` on values: the error is the thrown message. */
  function Transition(l: Lifecycle, next: Status, reason: Option<string>): Result<Lifecycle, string> {
    if Allowed(l.status, next) then
      Success(Lifecycle(next, l.history + [Entry(l.status, next, reason)]))
    else
      Failure(InvalidTransitionMessage(l.status, next))
  }

  /** The audit trail of a record that started at the default PENDING:
    * consecutive entries chain, the first starts at PENDING, the last ends
    * at the current status, and every entry is an allowed edge. */
  predicate ValidHistory(l: Lifecycle) {
    var h := l.history;
    && (|h| == 0 ==> l.status == Pending)
    && (|h| > 0 ==> h[0].from == Pending && h[|h| - 1].to == l.status)
    && (forall i :: 0 <= i < |h| - 1 ==> h[i].to == h[i + 1].from)
    && (forall i :: 0 <= i < |h| ==> Allowed(h[i].from, h[i].to))
  }

  /** A run of `transitionTo` calls whose throws are caught: a rejected
    * call leaves the lifecycle as it was. */
  function Run(l: Lifecycle, attempts: seq<(Status, Option<string>)>): Lifecycle
    decreases |attempts|
  {
    if attempts == [] then l
    else
      var next := match Transition(l, attempts[0].0, attempts[0].1)
                  case Success(l') => l'
                  case Failure(_) => l;
      Run(next, attempts[1..])
  }

  /** The number of calls in a run that succeed. */
  function Accepted(l: Lifecycle, attempts: seq<(Status, Option<string>)>): nat
    decreases |attempts|
  {
    if attempts == [] then 0
    else match Transition(l, attempts[0].0, attempts[0].1)
      case Success(l') => 1 + Accepted(l', attempts[1..])
      case Failure(_) => Accepted(l, attempts[1..])
  }

  // ---------------------------------------------------------------------
  // Properties of the table and of runs
  // ---------------------------------------------------------------------

  /** No shortcut is in the table: READY is terminal, FAILED leads only to
    * PROCESSING (so FAILED to PENDING is rejected), and PENDING cannot jump
    * to READY, ANALYZED or FLAGGED. */
  lemma TableShape()
    ensures forall t :: !Allowed(Ready, t)
    ensures forall t :: Allowed(Failed, t) <==> t == Processing
    ensures !Allowed(Pending, Ready) && !Allowed(Pending, Analyzed) && !Allowed(Pending, Flagged)
    ensures forall f :: Allowed(f, Analyzed) <==> f == Processing
    ensures forall f :: Allowed(f, Flagged) <==> f == Analyzed
    ensures forall f :: Allowed(f, Ready) <==> f == Analyzed || f == Flagged
  {
  }

  /** One accepted transition keeps the audit trail valid. */
  lemma TransitionKeepsHistoryValid(l: Lifecycle, next: Status, reason: Option<string>)
    requires ValidHistory(l)
    ensures Transition(l, next, reason).Success? ==> ValidHistory(Transition(l, next, reason).value)
  {
    if Allowed(l.status, next) {
      var h := l.history + [Entry(l.status, next, reason)];
      assert forall i :: 0 <= i < |l.history| ==> h[i] == l.history[i];
    }
  }

  /** Any run of transition attempts from a valid lifecycle (in particular
    * from the default PENDING with an empty history) keeps the history valid,
    * only appends to it, and appends one entry per accepted call. */
  lemma {:induction false} RunKeepsHistoryValid(l: Lifecycle, attempts: seq<(Status, Option<string>)>)
    requires ValidHistory(l)
    ensures ValidHistory(Run(l, attempts))
    ensures l.history <= Run(l, attempts).history
    ensures |Run(l, attempts).history| == |l.history| + Accepted(l, attempts)
    decreases |attempts|
  {
    if attempts != [] {
      var (next, reason) := attempts[0];
      TransitionKeepsHistoryValid(l, next, reason);
      match Transition(l, next, reason)
      case Success(l') =>
        RunKeepsHistoryValid(l', attempts[1..]);
      case Failure(_) =>
        RunKeepsHistoryValid(l, attempts[1..]);
    }
  }

  /** READY is terminal: every run of attempts from READY leaves the
    * status and the history exactly as they were. */
  lemma {:induction false} ReadyIsTerminal(h: seq<Entry>, attempts: seq<(Status, Option<string>)>)
    ensures Run(Lifecycle(Ready, h), attempts) == Lifecycle(Ready, h)
    ensures Accepted(Lifecycle(Ready, h), attempts) == 0
    decreases |attempts|
  {
    if attempts != [] {
      ReadyIsTerminal(h, attempts[1..]);
    }
  }

  /** A valid history that has reached READY went through PROCESSING and
    * then ANALYZED (with FLAGGED possibly between ANALYZED and READY). */
  lemma ReadyOnlyThroughProcessingAndAnalyzed(l: Lifecycle)
    requires ValidHistory(l) && l.status == Ready
    ensures exists i, j :: 0 <= i < j < |l.history| && l.history[i].to == Processing && l.history[j].to == Analyzed
  {
    var h := l.history;
    var n := |h| - 1;
    assert h[n].to == Ready;
    assert Allowed(h[n].from, h[n].to);
    // the entry that reached ANALYZED
    var j: int;
    if h[n].from == Analyzed {
      j := n - 1;
    } else {
      assert h[n].from == Flagged;
      assert h[n - 1].to == Flagged;
      assert Allowed(h[n - 1].from, h[n - 1].to);
      j := n - 2;
    }
    assert h[j].to == Analyzed;
    assert Allowed(h[j].from, h[j].to);
    assert h[j].from == Processing;
    assert h[j - 1].to == Processing;
  }

  // ---------------------------------------------------------------------
  // The record itself
  // ---------------------------------------------------------------------

  /** `resolution {width, height}` as probed from the file. */
  datatype Resolution = Resolution(width: int, height: int)

  /** The fields of a record that processing changes. */
  datatype Snapshot = Snapshot(
    life: Lifecycle,
    durationSeconds: Option<real>,
    resolution: Option<Resolution>,
    thumbnailPath: Option<string>,
    sensitivityStatus: Option<S.Verdict>,
    sensitivityConfidence: Option<int>,
    sensitivityReason: Option<string>,
    sensitivitySegments: seq<S.Segment>)

  /** A `Video` document. Identity and provenance are immutable; the
    * processing and sensitivity fields are updated in place. */
  class Video {
    const id: string
    const tenantId: string
    const owner: string
    const title: string
    const description: Option<string>
    const originalFilename: string
    const storagePath: string
    const mimeType: string
    const size: int

    var processingStatus: Status
    var processingHistory: seq<Entry>
    var durationSeconds: Option<real>
    var resolution: Option<Resolution>
    var thumbnailPath: Option<string>
    var sensitivityStatus: Option<S.Verdict>
    var sensitivityConfidence: Option<int>
    var sensitivityReason: Option<string>
    var sensitivitySegments: seq<S.Segment>

    ghost function Life(): Lifecycle
      reads this
    {
      Lifecycle(processingStatus, processingHistory)
    }

    ghost function State(): Snapshot
      reads this
    {
      Snapshot(Life(), durationSeconds, resolution, thumbnailPath,
               sensitivityStatus, sensitivityConfidence, sensitivityReason, sensitivitySegments)
    }

    /** `new Video({...})`: the schema's setters trim the title and the
      * description; status defaults to PENDING with an empty history, and
      * nothing has been probed or analysed yet. */
    constructor (id: string, tenantId: string, owner: string, title: string, description: Option<string>,
                 originalFilename: string, storagePath: string, mimeType: string, size: int)
      ensures this.id == id && this.tenantId == tenantId && this.owner == owner
      ensures this.title == JsText.Trim(title)
      ensures this.description == if description.Some? then Some(JsText.Trim(description.value)) else None
      ensures this.originalFilename == originalFilename && this.storagePath == storagePath
      ensures this.mimeType == mimeType && this.size == size
      ensures Life() == Initial && ValidHistory(Life())
      ensures State() == Snapshot(Initial, None, None, None, None, None, None, [])
    {
      this.id, this.tenantId, this.owner := id, tenantId, owner;
      this.title := JsText.Trim(title);
      this.description := if description.Some? then Some(JsText.Trim(description.value)) else None;
      this.originalFilename, this.storagePath := originalFilename, storagePath;
      this.mimeType, this.size := mimeType, size;
      processingStatus, processingHistory := Pending, [];
      durationSeconds, resolution, thumbnailPath := None, None, None;
      sensitivityStatus, sensitivityConfidence, sensitivityReason := None, None, None;
      sensitivitySegments := [];
    }

    /** `transitionTo(next, reason)`: succeeds exactly when `next` is listed
      * for the current status; a rejection (the thrown error) changes
      * nothing, a success appends one entry and moves the status. */
    method TransitionTo(next: Status, reason: Option<string>) returns (r: Outcome<string>)
      modifies this`processingStatus, this`processingHistory
      ensures r.Pass? <==> Allowed(old(processingStatus), next)
      ensures r.Pass? ==> processingStatus == next
      ensures r.Pass? ==> processingHistory == old(processingHistory) + [Entry(old(processingStatus), next, reason)]
      ensures r.Fail? ==> r.error == InvalidTransitionMessage(old(processingStatus), next)
      ensures r.Fail? ==> processingStatus == old(processingStatus) && processingHistory == old(processingHistory)
      ensures Transition(old(Life()), next, reason) == if r.Pass? then Success(Life()) else Failure(r.error)
    {
      var current := processingStatus;
      if next !in Successors(current) {
        return Fail(InvalidTransitionMessage(current, next));
      }
      processingHistory := processingHistory + [Entry(current, next, reason)];
      processingStatus := next;
      r := Pass;
    }
  }
}
