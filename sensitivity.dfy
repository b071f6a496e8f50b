/**
 * The content-sensitivity heuristic of server/services/sensitivity.service.js.
 * `Analyze` is deterministic: it depends only on the file name, the byte size
 * and the duration. Durations and segment bounds are exact `real`s.
 */
module Sensitivity {
  import opened Wrappers
  import opened JsText

  const KEYWORDS: seq<string> := ["banned", "prohibited", "restricted"]

  const SIMULATED_REASON: string := "Simulated sensitive segment"
  const KEYWORD_REASON: string := "Filename contains sensitive keyword"
  const ODD_SIZE_REASON: string := "Heuristic odd-size flag"
  const SAFE_REASON: string := "No sensitive patterns detected"

  /** The argument of `analyze`; a `None` field is an undefined property. */
  datatype Input = Input(filename: Option<string>, size: Option<int>, durationSeconds: Option<real>)

  /** The values of the schema's `SENSITIVITY_STATUS`. */
  datatype Verdict = Safe | Flagged

  /** A flagged time window, in seconds. */
  datatype Segment = Segment(start: real, end: real, reason: string)

  datatype Analysis = Analysis(status: Verdict, confidence: int, reason: string, segments: seq<Segment>)

  /** JavaScript truthiness of a number that may be undefined (`NaN` is not modelled). */
  predicate Truthy(d: Option<real>) {
    d.Some? && d.value != 0.0
  }

  /** `d || fallback`. */
  function Or(d: Option<real>, fallback: real): real {
    if Truthy(d) then d.value else fallback
  }

  function Min(a: real, b: real): real {
    if a <= b then a else b
  }

  function Max(a: real, b: real): real {
    if a >= b then a else b
  }

  /** JavaScript's `a % b` on integers: the remainder takes the sign of `a`. */
  function JsRem(a: int, b: int): int
    requires b != 0
  {
    var m := (if a < 0 then -a else a) % (if b < 0 then -b else b);
    if a < 0 then -m else m
  }

  /** `KEYWORDS.some((k) => lower.includes(k))` on the lower-cased name. */
  predicate KeywordHit(filename: Option<string>) {
    var lower := ToLower(filename.GetOr(""));
    exists i :: 0 <= i < |KEYWORDS| && Includes(lower, KEYWORDS[i])
  }

  /** `typeof size === 'number' && size % 2 === 1`. */
  predicate OddSize(size: Option<int>) {
    size.Some? && JsRem(size.value, 2) == 1
  }

  /** `durationSeconds && durationSeconds > 30`. */
  predicate LongVideo(d: Option<real>) {
    Truthy(d) && d.value > 30.0
  }

  const SimulatedSegment: Segment := Segment(10.0, 15.0, SIMULATED_REASON)

  function KeywordSegment(d: Option<real>): Segment {
    var start := Max(0.0, Min(5.0, Or(d, 5.0)) - 2.0);
    Segment(start, start + Min(3.0, if Truthy(d) then d.value * 0.1 else 3.0), KEYWORD_REASON)
  }

  function OddSizeSegment(d: Option<real>): Segment {
    Segment(0.0, Min(3.0, Or(d, 3.0)), ODD_SIZE_REASON)
  }

  /** `analyze`: up to three conditional pushes, then the verdict. */
  function Analyze(x: Input): Analysis {
    var s0: seq<Segment> := [];
    var s1 := if LongVideo(x.durationSeconds) then s0 + [SimulatedSegment] else s0;
    var s2 := if KeywordHit(x.filename) then s1 + [KeywordSegment(x.durationSeconds)] else s1;
    var s3 := if OddSize(x.size) then s2 + [OddSizeSegment(x.durationSeconds)] else s2;
    var flagged := |s3| > 0;
    Analysis(if flagged then Flagged else Safe,
             if flagged then 90 else 20,
             if flagged then s3[0].reason else SAFE_REASON,
             s3)
  }

  // ---------------------------------------------------------------------
  // Properties
  // ---------------------------------------------------------------------

  /** The JavaScript remainder test accepts exactly the positive odd sizes. */
  lemma OddSizeIsPositiveOdd(n: int)
    ensures OddSize(Some(n)) <==> n > 0 && n % 2 == 1
  {
    if n < 0 {
      assert JsRem(n, 2) == -((-n) % 2);
    }
  }

  /** Where each reason stands in the fixed order of the three rules. */
  function Rank(reason: string): nat {
    if reason == SIMULATED_REASON then 0
    else if reason == KEYWORD_REASON then 1
    else if reason == ODD_SIZE_REASON then 2
    else 3
  }

  /** Every segment comes from one of the three rules, each rule adds at most
    * one segment, and they appear in the rules' order: so at most three. */
  lemma SegmentsInFixedOrder(x: Input)
    ensures var segs := Analyze(x).segments;
      && |segs| <= 3
      && (forall i :: 0 <= i < |segs| ==> Rank(segs[i].reason) < 3)
      && (forall i, j :: 0 <= i < j < |segs| ==> Rank(segs[i].reason) < Rank(segs[j].reason))
  {
    var segs := Analyze(x).segments;
    assert Rank(SIMULATED_REASON) == 0;
    assert Rank(KEYWORD_REASON) == 1;
    assert Rank(ODD_SIZE_REASON) == 2;
  }

  /** A rule's segment is in the result exactly when the rule fires. */
  lemma SegmentPresence(x: Input)
    ensures var segs := Analyze(x).segments;
      && ((exists i :: 0 <= i < |segs| && segs[i] == SimulatedSegment) <==> LongVideo(x.durationSeconds))
      && ((exists i :: 0 <= i < |segs| && segs[i].reason == KEYWORD_REASON) <==> KeywordHit(x.filename))
      && ((exists i :: 0 <= i < |segs| && segs[i].reason == ODD_SIZE_REASON) <==> OddSize(x.size))
  {
    var segs := Analyze(x).segments;
    SegmentsInFixedOrder(x);
    if LongVideo(x.durationSeconds) {
      assert segs[0] == SimulatedSegment;
    }
    if KeywordHit(x.filename) {
      var k := if LongVideo(x.durationSeconds) then 1 else 0;
      assert segs[k].reason == KEYWORD_REASON;
    }
    if OddSize(x.size) {
      assert segs[|segs| - 1].reason == ODD_SIZE_REASON;
    }
    forall i | 0 <= i < |segs|
      ensures segs[i] == SimulatedSegment ==> LongVideo(x.durationSeconds)
      ensures segs[i].reason == KEYWORD_REASON ==> KeywordHit(x.filename)
      ensures segs[i].reason == ODD_SIZE_REASON ==> OddSize(x.size)
    {
      assert Rank(segs[i].reason) < 3;
    }
  }

  /** For a non-negative (or missing) duration every window is well formed,
    * and for a positive duration it lies inside the video. */
  lemma SegmentsWithinVideo(x: Input)
    requires x.durationSeconds.None? || x.durationSeconds.value >= 0.0
    ensures forall s :: s in Analyze(x).segments ==> 0.0 <= s.start <= s.end
    ensures Truthy(x.durationSeconds) ==>
      forall s :: s in Analyze(x).segments ==> s.end <= x.durationSeconds.value
    ensures !Truthy(x.durationSeconds) ==>
      forall s :: s in Analyze(x).segments ==> s.end <= 6.0
  {
    var d := x.durationSeconds;
    var k := KeywordSegment(d);
    if Truthy(d) {
      var v := d.value;
      if v <= 5.0 {
        assert k.start == Max(0.0, v - 2.0);
        assert k.end == k.start + Min(3.0, v * 0.1);
      }
      assert k.end <= v;
    }
  }

  /** The verdict follows the segment list: FLAGGED/90 with the first
    * segment's reason when it is non-empty, SAFE/20 otherwise. */
  lemma VerdictFollowsSegments(x: Input)
    ensures var a := Analyze(x);
      && (a.status == Flagged <==> |a.segments| > 0)
      && (a.confidence == if |a.segments| > 0 then 90 else 20)
      && (a.reason == if |a.segments| > 0 then a.segments[0].reason else SAFE_REASON)
      && 0 <= a.confidence <= 100
  {
  }

  /** A long video whose name has a keyword reports the simulated segment. */
  lemma LongKeywordFileReportsSimulatedReason(x: Input)
    requires LongVideo(x.durationSeconds) && KeywordHit(x.filename)
    ensures Analyze(x).status == Flagged
    ensures Analyze(x).reason == SIMULATED_REASON
    ensures |Analyze(x).segments| >= 2
  {
  }

  /** A 40-second upload named "Banned_Clip.mp4" of even size is flagged
    * twice, with confidence 90. */
  lemma BannedFortySecondScenario(size: int)
    requires size % 2 == 0
    ensures var a := Analyze(Input(Some("Banned_Clip.mp4"), Some(size), Some(40.0)));
      && a.status == Flagged && a.confidence == 90
      && a.segments == [SimulatedSegment, Segment(3.0, 6.0, KEYWORD_REASON)]
  {
    var lower := ToLower("Banned_Clip.mp4");
    assert lower[..6] == "banned";
    assert OccursAt(lower, KEYWORDS[0], 0);
    assert KeywordHit(Some("Banned_Clip.mp4"));
    OddSizeIsPositiveOdd(size);
  }

  /** A clean 10-second upload of even size is SAFE with confidence 20. */
  lemma CleanTenSecondScenario(size: int)
    requires size % 2 == 0
    ensures Analyze(Input(Some("clip.mp4"), Some(size), Some(10.0))) == Analysis(Safe, 20, SAFE_REASON, [])
  {
    var lower := ToLower("clip.mp4");
    assert lower == "clip.mp4";
    forall i | 0 <= i < |KEYWORDS|
      ensures !Includes(lower, KEYWORDS[i])
    {
      forall j | 0 <= j <= |lower|
        ensures !OccursAt(lower, KEYWORDS[i], j)
      {
        if j + |KEYWORDS[i]| <= |lower| {
          assert lower[j..j + |KEYWORDS[i]|][0] == lower[j];
        }
      }
    }
    OddSizeIsPositiveOdd(size);
  }
}
