/**
 * The dashboard figures of server/services/stats.service.js: `formatWatchTime`
 * (HH:MM, floored), the unit selection of `formatStorage`, and how
 * `getSmartStats` turns the tenant's aggregate row (absent when the tenant
 * has no videos) into totals and percentages.
 */
module Stats {
  import opened Wrappers
  import opened JsText
  import S = Sensitivity

  // ---------------------------------------------------------------------
  // formatWatchTime
  // ---------------------------------------------------------------------

  /** `Math.max(0, Math.floor(seconds || 0))`. */
  function TotalSeconds(seconds: Option<real>): (r: nat)
    ensures seconds.Some? && seconds.value >= 0.0 ==> r as real <= seconds.value < r as real + 1.0
    ensures seconds.None? || seconds.value < 1.0 ==> r == 0
  {
    var f := if seconds.Some? then seconds.value.Floor else 0;
    if f < 0 then 0 else f
  }

  /** Two or more digits: `String(n).padStart(2, '0')`. */
  function TwoDigits(n: nat): string {
    PadStart(NatToString(n), 2, '0')
  }

  /** `formatWatchTime(seconds)`. */
  function FormatWatchTime(seconds: Option<real>): string {
    var total := TotalSeconds(seconds);
    TwoDigits(total / 3600) + ":" + TwoDigits(total % 3600 / 60)
  }

  /** Nothing, zero, a negative or a sub-minute time shows as "00:00". */
  lemma FormatWatchTimeOfNothing(seconds: Option<real>)
    requires seconds.None? || seconds.value < 60.0
    ensures FormatWatchTime(seconds) == "00:00"
  {
    var total := TotalSeconds(seconds);
    assert total < 60;
    assert NatToString(0) == "0";
    assert PadStart("0", 2, '0') == "00";
  }

  /** A one-character separator splits `a + [c] + b` back into `a` and `b`
    * when neither contains it. */
  lemma SplitAroundSeparator(a: string, c: char, b: string)
    requires c !in a && c !in b
    ensures Split(a + [c] + b, c) == [a, b]
  {
    var s := a + [c] + b;
    assert OccursAt(s, [c], |a|) by {
      assert s[|a|..|a| + 1] == [c];
    }
    forall j | 0 <= j < |a|
      ensures !OccursAt(s, [c], j)
    {
      assert s[j..j + 1] == [a[j]];
    }
    assert IndexOf(s, [c]) == Some(|a|);
    assert s[..|a|] == a;
    assert s[|a| + 1..] == b;
    forall j | 0 <= j <= |b|
      ensures !OccursAt(b, [c], j)
    {
      if j + 1 <= |b| {
        assert b[j..j + 1] == [b[j]];
      }
    }
    assert IndexOf(b, [c]) == None;
  }

  /** Reading the text back: it splits at ':' into two digit strings, the
    * minutes exactly two long, the hours at least two and never cut; they
    * are the whole hours and the remaining whole minutes of the floored
    * time, and the seconds left over are less than a minute. */
  lemma {:induction false} WatchTimeReadsBack(seconds: Option<real>)
    ensures var parts := Split(FormatWatchTime(seconds), ':');
      var total := TotalSeconds(seconds);
      && |parts| == 2
      && AllDigits(parts[0]) && AllDigits(parts[1])
      && |parts[0]| >= 2 && |parts[1]| == 2
      && DigitsValue(parts[0]) == total / 3600
      && DigitsValue(parts[1]) == total % 3600 / 60 < 60
      && 0 <= total - (DigitsValue(parts[0]) * 3600 + DigitsValue(parts[1]) * 60) < 60
  {
    var total := TotalSeconds(seconds);
    var h := total / 3600;
    var m := total % 3600 / 60;
    ZeroPadKeepsValue(NatToString(h), 2);
    ZeroPadKeepsValue(NatToString(m), 2);
    var hh := TwoDigits(h);
    var mm := TwoDigits(m);
    assert m < 60;
    if m >= 10 {
      assert |NatToString(m)| == 2 by {
        var r := NatToString(m);
        assert r == NatToString(m / 10) + [DigitChar(m % 10)];
        assert m / 10 < 10;
      }
    }
    forall i | 0 <= i < |hh| ensures hh[i] != ':' {
      assert IsDigit(hh[i]);
    }
    forall i | 0 <= i < |mm| ensures mm[i] != ':' {
      assert IsDigit(mm[i]);
    }
    SplitAroundSeparator(hh, ':', mm);
  }

  /** 3725 seconds (1 h 2 min 5 s) show as "01:02"; 360000 (100 h) as "100:00". */
  lemma FormatWatchTimeExamples()
    ensures FormatWatchTime(Some(3725.9)) == "01:02"
    ensures FormatWatchTime(Some(360000.0)) == "100:00"
  {
    HourAndTwoMinutes();
    HundredHours();
  }

  /** 3725.9 seconds are one hour and two minutes (the fraction and the
    * remaining seconds are dropped). */
  lemma HourAndTwoMinutes()
    ensures FormatWatchTime(Some(3725.9)) == "01:02"
  {
    assert TotalSeconds(Some(3725.9)) == 3725;
    assert NatToString(1) == "1" && NatToString(2) == "2";
    assert PadStart("1", 2, '0') == "01" && PadStart("2", 2, '0') == "02";
  }

  /** A hundred hours outgrow the two-digit padding. */
  lemma HundredHours()
    ensures FormatWatchTime(Some(360000.0)) == "100:00"
  {
    assert TotalSeconds(Some(360000.0)) == 360000;
    assert 360000 / 3600 == 100 && 360000 % 3600 / 60 == 0;
    assert NatToString(10) == "10";
    assert NatToString(100) == "100";
    assert NatToString(0) == "0" && PadStart("0", 2, '0') == "00";
  }

  // ---------------------------------------------------------------------
  // formatStorage
  // ---------------------------------------------------------------------

  const KIB: int := 1024
  const MIB: int := 1024 * 1024
  const GIB: int := 1024 * 1024 * 1024

  /** The label `formatStorage` builds: a scaled value to be printed with
    * `toFixed(decimals)` and a unit, or the plain byte count. */
  datatype StorageLabel = Scaled(value: real, decimals: nat, unit: string) | Plain(text: string)

  /** `formatStorage(bytes)`: the largest unit the size reaches. */
  function FormatStorage(bytes: Option<int>): StorageLabel {
    var size := bytes.GetOr(0);
    if size >= GIB then Scaled(size as real / GIB as real, 2, "GB")
    else if size >= MIB then Scaled(size as real / MIB as real, 1, "MB")
    else if size >= KIB then Scaled(size as real / KIB as real, 0, "KB")
    else Plain(IntToString(size) + " B")
  }

  /** The unit is GB from 2^30 bytes, MB from 2^20, KB from 2^10, and bytes
    * below; a scaled value is the size in that unit, at least 1 and (but
    * for GB) under 1024. A missing size shows as "0 B". */
  lemma StorageUnitSelection(bytes: Option<int>)
    ensures var size := bytes.GetOr(0); var l := FormatStorage(bytes);
      && (l.Scaled? && l.unit == "GB" <==> size >= GIB)
      && (l.Scaled? && l.unit == "MB" <==> MIB <= size < GIB)
      && (l.Scaled? && l.unit == "KB" <==> KIB <= size < MIB)
      && (l.Plain? <==> size < KIB)
      && (l.Scaled? ==> 1.0 <= l.value)
      && (l.Scaled? && l.unit != "GB" ==> l.value < 1024.0)
      && (l.Scaled? ==> l.value * (if l.unit == "GB" then GIB else if l.unit == "MB" then MIB else KIB) as real == size as real)
    ensures FormatStorage(None) == Plain("0 B")
  {
    var size := bytes.GetOr(0);
    var l := FormatStorage(bytes);
    if MIB <= size < GIB {
      assert size as real < 1024.0 * MIB as real;
    } else if KIB <= size < MIB {
      assert size as real < 1024.0 * KIB as real;
    }
    assert NatToString(0) == "0";
  }

  // ---------------------------------------------------------------------
  // getSmartStats
  // ---------------------------------------------------------------------

  /** What the `$group` stage reads of one video. */
  datatype VideoRow = VideoRow(durationSeconds: Option<real>, size: int, sensitivityStatus: Option<S.Verdict>)

  /** The `$group` result. */
  datatype AggRow = AggRow(totalDurationSeconds: real, totalStorageBytes: int, totalVideos: int,
                           safeCount: int, flaggedCount: int)

  /** The tenant's `$group` over its videos; no row when it has none. */
  function Aggregate(rows: seq<VideoRow>): Option<AggRow> {
    if rows == [] then None else Some(Sum(rows))
  }

  function Sum(rows: seq<VideoRow>): AggRow {
    if rows == [] then AggRow(0.0, 0, 0, 0, 0)
    else
      var r := Sum(rows[..|rows| - 1]);
      var v := rows[|rows| - 1];
      AggRow(r.totalDurationSeconds + v.durationSeconds.GetOr(0.0),
             r.totalStorageBytes + v.size,
             r.totalVideos + 1,
             r.safeCount + (if v.sensitivityStatus == Some(S.Safe) then 1 else 0),
             r.flaggedCount + (if v.sensitivityStatus == Some(S.Flagged) then 1 else 0))
  }

  /** The counts of the group: one per video, and the SAFE and FLAGGED
    * videos never outnumber them. */
  lemma {:induction false} SumCounts(rows: seq<VideoRow>)
    ensures var a := Sum(rows);
      && a.totalVideos == |rows|
      && 0 <= a.safeCount && 0 <= a.flaggedCount
      && a.safeCount + a.flaggedCount <= a.totalVideos
  {
    if rows != [] {
      SumCounts(rows[..|rows| - 1]);
    }
  }

  datatype SmartStats = SmartStats(
    watchSeconds: real, watchFormatted: string,
    safeCount: int, flaggedCount: int, totalVideos: int, safePercent: int, flaggedPercent: int,
    storageBytes: int, storageFormatted: StorageLabel)

  /** `totalVideos ? Math.round((count / totalVideos) * 100) : 0`, on exact
    * reals (`Math.round` rounds halves up). */
  function Percent(count: int, total: int): int {
    if total == 0 then 0 else ((count as real / total as real) * 100.0 + 0.5).Floor
  }

  /** `getSmartStats` after the aggregation: every total defaults to 0. */
  function SmartStatsOf(agg: Option<AggRow>): SmartStats {
    var totalVideos := if agg.Some? then agg.value.totalVideos else 0;
    var safeCount := if agg.Some? then agg.value.safeCount else 0;
    var flaggedCount := if agg.Some? then agg.value.flaggedCount else 0;
    var seconds := if agg.Some? then agg.value.totalDurationSeconds else 0.0;
    var bytes := if agg.Some? then agg.value.totalStorageBytes else 0;
    SmartStats(seconds, FormatWatchTime(Some(seconds)),
               safeCount, flaggedCount, totalVideos,
               Percent(safeCount, totalVideos), Percent(flaggedCount, totalVideos),
               bytes, FormatStorage(Some(bytes)))
  }

  /** A count out of a total rounds to a percentage between 0 and 100:
    * 0 for none, 100 for all. */
  lemma PercentBounds(count: int, total: int)
    requires 0 <= count <= total
    ensures 0 <= Percent(count, total) <= 100
    ensures count == 0 ==> Percent(count, total) == 0
    ensures 0 < count == total ==> Percent(count, total) == 100
  {
    if total > 0 {
      var x := (count as real / total as real) * 100.0;
      assert 0.0 <= count as real / total as real <= 1.0;
      assert 0.0 <= x <= 100.0;
      if count == total {
        assert count as real / total as real == 1.0;
        assert x + 0.5 == 100.5;
      }
    }
  }

  /** A tenant without videos sees zeros everywhere. */
  lemma NoVideosNoFigures()
    ensures SmartStatsOf(Aggregate([])) ==
      SmartStats(0.0, "00:00", 0, 0, 0, 0, 0, 0, Plain("0 B"))
  {
    FormatWatchTimeOfNothing(Some(0.0));
    StorageUnitSelection(Some(0));
  }

  /** For any tenant the counts match its videos and both percentages lie
    * between 0 and 100. */
  lemma SmartStatsBounds(rows: seq<VideoRow>)
    ensures var st := SmartStatsOf(Aggregate(rows));
      && st.totalVideos == |rows|
      && st.safeCount + st.flaggedCount <= st.totalVideos
      && 0 <= st.safePercent <= 100 && 0 <= st.flaggedPercent <= 100
  {
    if rows != [] {
      SumCounts(rows);
      var a := Sum(rows);
      PercentBounds(a.safeCount, a.totalVideos);
      PercentBounds(a.flaggedCount, a.totalVideos);
    }
  }
}
