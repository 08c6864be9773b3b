/**
 * _process_user: the per-user path of the nightly batch. The daily
 * documents come in as a list and the two documents the batch writes,
 * the model status and the prediction, come out as the outcome.
 */
module Pipeline {
  import opened Wrappers
  import opened PyNum
  import opened Series
  import opened Records
  import opened Config
  import opened Labels
  import opened Features
  import opened Confidence
  import Advice
  import Models

  /** The "sleep" field of a daily document: absent, null, or a map with an optional durationHours. */
  datatype SleepField = NoSleep | SleepNull | SleepMap(durationHours: Option<real>)

  /** A daily document: its id (the date key) and the fields the batch reads. */
  datatype Doc = Doc(id: string, mood: Option<int>, sleep: SleepField, steps: Option<int>, stress: Option<int>)

  // ---- reading the documents ----

  /** The documents that carry a mood, in stream order. */
  function MoodDocs(docs: seq<Doc>): (r: seq<Doc>)
    ensures |r| <= |docs|
    ensures forall k :: 0 <= k < |r| ==> r[k].mood.Some? && r[k] in docs
    ensures forall d :: d in docs && d.mood.Some? ==> d in r
  {
    if docs == [] then []
    else
      var init := MoodDocs(docs[..|docs| - 1]);
      var last := docs[|docs| - 1];
      assert forall d :: d in docs ==> d in docs[..|docs| - 1] || d == last;
      init + (if last.mood.Some? then [last] else [])
  }

  /** Each document with a mood is kept as many times as it occurs, and no other document. */
  lemma {:induction false} MoodDocsMultiset(docs: seq<Doc>)
    ensures forall d :: multiset(MoodDocs(docs))[d] == if d.mood.Some? then multiset(docs)[d] else 0
  {
    if docs != [] {
      MoodDocsMultiset(docs[..|docs| - 1]);
      assert docs == docs[..|docs| - 1] + [docs[|docs| - 1]];
    }
  }

  /** A document with a mood whose sleep field is null: sleep_data.get raises. */
  predicate CrashesOnSleep(docs: seq<Doc>)
  {
    exists k :: 0 <= k < |docs| && docs[k].mood.Some? && docs[k].sleep.SleepNull?
  }

  function ToRow(d: Doc): LogRow
    requires d.mood.Some? && !d.sleep.SleepNull?
  {
    LogRow(d.id, d.mood.value, if d.sleep.SleepMap? then d.sleep.durationHours else None, d.steps, d.stress)
  }

  /** The rows the loop builds, one per document with a mood. */
  function KeptRows(docs: seq<Doc>): (r: seq<LogRow>)
    requires !CrashesOnSleep(docs)
    ensures |r| == |MoodDocs(docs)|
    ensures forall k :: 0 <= k < |r| ==> !MoodDocs(docs)[k].sleep.SleepNull? && r[k] == ToRow(MoodDocs(docs)[k])
  {
    if docs == [] then []
    else
      var init := docs[..|docs| - 1];
      var last := docs[|docs| - 1];
      assert forall k :: 0 <= k < |init| ==> init[k] == docs[k];
      KeptRows(init) + (if last.mood.Some? then [ToRow(last)] else [])
  }

  /** One more document: the prefix still does not crash and gains at most the one row. */
  lemma KeptRowsStep(docs: seq<Doc>, i: nat)
    requires i < |docs| && !CrashesOnSleep(docs[..i])
    requires !(docs[i].mood.Some? && docs[i].sleep.SleepNull?)
    ensures !CrashesOnSleep(docs[..i + 1])
    ensures KeptRows(docs[..i + 1]) == KeptRows(docs[..i]) + (if docs[i].mood.Some? then [ToRow(docs[i])] else [])
  {
    var p := docs[..i + 1];
    assert p[..i] == docs[..i];
    assert forall k :: 0 <= k < i ==> p[k] == docs[..i][k];
  }

  /** The document loop of _process_user: skip documents without mood, build one row from each other. */
  method CollectRows(docs: seq<Doc>) returns (r: Option<seq<LogRow>>)
    ensures r.None? <==> CrashesOnSleep(docs)
    ensures r.Some? ==> r.value == KeptRows(docs)
  {
    var rows: seq<LogRow> := [];
    var i := 0;
    while i < |docs|
      invariant 0 <= i <= |docs|
      invariant !CrashesOnSleep(docs[..i])
      invariant rows == KeptRows(docs[..i])
    {
      var d := docs[i];
      if d.mood.Some? && d.sleep.SleepNull? {
        assert docs[i].mood.Some? && docs[i].sleep.SleepNull?;
        return None;
      }
      KeptRowsStep(docs, i);
      if d.mood.Some? {
        rows := rows + [ToRow(d)];
      }
      i := i + 1;
    }
    assert docs[..i] == docs;
    r := Some(rows);
  }

  /** Every kept row comes from a document with a mood, keeps its id, and no document with a mood is lost. */
  lemma KeptRowsSpec(docs: seq<Doc>)
    requires !CrashesOnSleep(docs)
    ensures forall k :: 0 <= k < |KeptRows(docs)| ==>
      exists d :: d in docs && d.mood == Some(KeptRows(docs)[k].mood) && d.id == KeptRows(docs)[k].dateKey
    ensures forall d :: d in docs && d.mood.Some? ==> exists k :: 0 <= k < |KeptRows(docs)| && KeptRows(docs)[k] == ToRow(d)
  {
    var kept := MoodDocs(docs);
    var r := KeptRows(docs);
    forall d | d in docs && d.mood.Some?
      ensures exists k :: 0 <= k < |r| && r[k] == ToRow(d)
    {
      var k :| 0 <= k < |kept| && kept[k] == d;
      assert r[k] == ToRow(kept[k]);
    }
    forall k | 0 <= k < |r|
      ensures exists d :: d in docs && d.mood == Some(r[k].mood) && d.id == r[k].dateKey
    {
      var d := kept[k];
      assert r[k] == ToRow(d);
      assert d in docs && d.mood == Some(r[k].mood) && d.id == r[k].dateKey;
    }
  }

  // ---- status and prediction documents ----

  function CountNone(xs: seq<Option<int>>): (n: nat)
    ensures n <= |xs|
  {
    if xs == [] then 0 else CountNone(xs[..|xs| - 1]) + (if xs[|xs| - 1].None? then 1 else 0)
  }

  /** recent_7["moodScore"].isna().sum() / len(recent_7) over the last min(7, n) rows. */
  function RecentMissingRate(moods: seq<Option<int>>): (r: real)
    requires |moods| > 0
    ensures 0.0 <= r <= 1.0
  {
    var recent := moods[|moods| - Min(7, |moods|)..];
    assert CountNone(recent) as real <= |recent| as real;
    RatioBounds(CountNone(recent) as real, |recent| as real);
    CountNone(recent) as real / |recent| as real
  }

  lemma {:induction false} CountNoneOfPresent(xs: seq<Option<int>>)
    requires forall k :: 0 <= k < |xs| ==> xs[k].Some?
    ensures CountNone(xs) == 0
  {
    if xs != [] {
      CountNoneOfPresent(xs[..|xs| - 1]);
    }
  }

  /** Every kept row has a mood, so the recent missing rate is always 0. */
  lemma RecentMissingRateZero(rows: seq<LogRow>)
    requires |rows| > 0
    ensures RecentMissingRate(seq(|rows|, k requires 0 <= k < |rows| => Some(rows[k].mood))) == 0.0
  {
    var moods := seq(|rows|, k requires 0 <= k < |rows| => Some(rows[k].mood));
    CountNoneOfPresent(moods[|moods| - Min(7, |moods|)..]);
  }

  /** The model_status/current document. */
  datatype Status = Status(
    daysCollected: int, daysRequired: int, ready: bool, unhealthyCount: int,
    recentMissingRate: real, modelType: string, confidenceLevel: Level)

  /** The predictions/{date} document; None marks a field that is not written. */
  datatype Prediction = Prediction(
    dateKey: string, confidence: Level, modelVersion: string,
    pToday: Option<real>, p3d: Option<real>,
    contributions: Option<seq<Models.Contribution>>, advices: Option<seq<Advice.Advice>>)

  /** _update_model_status: daysRequired is always MIN_DAYS_TODAY and the rate is kept to 3 places. */
  function StatusDoc(cfg: Config, days: int, unhealthy: int, rate: real, modelType: string,
                     level: Level, ready: bool): (s: Status)
    ensures s.daysRequired == cfg.minDaysToday
    ensures s.daysCollected == days && s.unhealthyCount == unhealthy && s.ready == ready
    ensures s.modelType == modelType && s.confidenceLevel == level
    ensures -0.5 <= s.recentMissingRate * 1000.0 - rate * 1000.0 <= 0.5
  {
    RoundScaledClose(rate, 1000.0);
    Status(days, cfg.minDaysToday, ready, unhealthy, RoundScaled(rate, 1000.0), modelType, level)
  }

  /** round(p, 4) of a probability that is known. */
  function Rounded4(p: Option<real>): Option<real>
  {
    if p.Some? then Some(RoundScaled(p.value, 10000.0)) else None
  }

  /**
   * _save_prediction: confidence and modelVersion always; pToday and p3d
   * only when known, rounded to 4 places; contributions and advices only
   * when non-empty.
   */
  method SavePrediction(dateKey: string, pToday: Option<real>, p3d: Option<real>, confidence: Level,
                        modelVersion: string, contributions: seq<Models.Contribution>,
                        advices: seq<Advice.Advice>) returns (doc: Prediction)
    ensures doc.dateKey == dateKey && doc.confidence == confidence && doc.modelVersion == modelVersion
    ensures doc.pToday == Rounded4(pToday) && doc.p3d == Rounded4(p3d)
    ensures doc.pToday.Some? <==> pToday.Some?
    ensures doc.pToday.Some? ==> -0.5 <= doc.pToday.value * 10000.0 - pToday.value * 10000.0 <= 0.5
    ensures doc.p3d.Some? <==> p3d.Some?
    ensures doc.p3d.Some? ==> -0.5 <= doc.p3d.value * 10000.0 - p3d.value * 10000.0 <= 0.5
    ensures doc.contributions == (if contributions != [] then Some(contributions) else None)
    ensures doc.advices == (if advices != [] then Some(advices) else None)
  {
    doc := Prediction(dateKey, confidence, modelVersion, None, None, None, None);
    if pToday.Some? {
      RoundScaledClose(pToday.value, 10000.0);
      doc := doc.(pToday := Some(RoundScaled(pToday.value, 10000.0)));
    }
    if p3d.Some? {
      RoundScaledClose(p3d.value, 10000.0);
      doc := doc.(p3d := Some(RoundScaled(p3d.value, 10000.0)));
    }
    if contributions != [] {
      doc := doc.(contributions := Some(contributions));
    }
    if advices != [] {
      doc := doc.(advices := Some(advices));
    }
  }

  // ---- the per-user path ----

  /** What one user's run leaves behind: nothing, an exception before any write, or the written documents. */
  datatype Outcome =
    | NothingWritten
    | Aborted
    | Written(status: Status, prediction: Option<Prediction>)

  /** The rows training sees for one target: the feature columns and that target's label. */
  function Examples(features: seq<FeatureRow>, targets: seq<Option<int>>): (es: seq<Models.Example>)
    requires |features| == |targets|
    ensures |es| == |features|
  {
    seq(|features|, k requires 0 <= k < |features| => Models.Example(FeatureVector(features[k]), targets[k]))
  }

  /** The unhealthy count the status reports, from the kept rows in date order. */
  function UnhealthyOf(docs: seq<Doc>): nat
    requires !CrashesOnSleep(docs)
  {
    UnhealthyCount(Moods(SortByKey(KeptRows(docs))))
  }

  /** Feature rows whose day-of-week parsed, paired with the labels of the same sorted rows. */
  function LabelColumn(labeled: seq<LabeledRow>, threeDay: bool): (r: seq<Option<int>>)
    ensures |r| == |labeled|
  {
    seq(|labeled|, k requires 0 <= k < |labeled| => if threeDay then labeled[k].y3d else labeled[k].yToday)
  }

  /** The y_today training of _process_user, on the rows in date order. */
  function TodayTrain(learners: Models.Learners, cfg: Config, sorted: seq<LogRow>): Option<Models.TrainResult>
    requires AllKeysParse(sorted)
  {
    var yt := YTodayColumn(Moods(sorted));
    Models.Train(learners, cfg, FeatureColumns(), Examples(BuildFeatures(sorted).value, yt), |sorted|, CountOnes(yt))
  }

  /** The y_3d training of _process_user, on the rows in date order. */
  function ThreeDayTrain(learners: Models.Learners, cfg: Config, sorted: seq<LogRow>): Option<Models.TrainResult>
    requires AllKeysParse(sorted)
  {
    var yt := YTodayColumn(Moods(sorted));
    Models.Train(learners, cfg, FeatureColumns(), Examples(BuildFeatures(sorted).value, Y3dColumn(yt)), |sorted|, CountOnes(yt))
  }

  /** days_collected >= MIN_DAYS_3D and unhealthy_count >= MIN_UNHEALTHY_3D. */
  predicate ThreeDayGate(cfg: Config, sorted: seq<LogRow>)
  {
    |sorted| >= cfg.minDays3d && UnhealthyCount(Moods(sorted)) >= cfg.minUnhealthy3d
  }

  /**
   * The two documents _process_user writes for a ready user, from the
   * y_today result r and the y_3d probability p3d: the status of a ready
   * user with a missing rate of 0, and a prediction carrying r, p3d and the
   * advice for r's probability.
   */
  predicate WrittenFor(o: Outcome, sorted: seq<LogRow>, today: string, cfg: Config,
                       r: Models.TrainResult, p3d: Option<real>)
  {
    var unhealthy := UnhealthyCount(Moods(sorted));
    && o.Written?
    && o.status == StatusDoc(cfg, |sorted|, unhealthy, 0.0, Models.ModelName(r.modelType),
                             CalculateConfidence(cfg, |sorted|, unhealthy, 0.0), true)
    && o.prediction.Some?
    && var p := o.prediction.value;
    && p.dateKey == today
    && p.confidence == o.status.confidenceLevel
    && p.modelVersion == o.status.modelType + "_v1"
    && p.pToday == Rounded4(r.probability)
    && p.p3d == Rounded4(p3d)
    && p.contributions == (if r.contributions != [] then Some(r.contributions) else None)
    && p.advices == (var a := Advice.AdviceFor(sorted, r.probability); if a != [] then Some(a) else None)
  }

  /**
   * What _process_user leaves behind for a user past the readiness cutoff,
   * on the rows in date order. Documents are written exactly when every
   * key parses and each training that runs returns; they are then those of
   * WrittenFor, with the y_3d probability only past the 3-day gate.
   */
  predicate ReadyOutcome(o: Outcome, sorted: seq<LogRow>, today: string, cfg: Config, learners: Models.Learners)
  {
    var gate := ThreeDayGate(cfg, sorted);
    && (o.Aborted? || o.Written?)
    && (o.Written? <==> AllKeysParse(sorted) && TodayTrain(learners, cfg, sorted).Some?
                        && (gate ==> ThreeDayTrain(learners, cfg, sorted).Some?))
    && (o.Written? ==>
          && AllKeysParse(sorted) && TodayTrain(learners, cfg, sorted).Some?
          && WrittenFor(o, sorted, today, cfg, TodayTrain(learners, cfg, sorted).value,
                        if gate then ThreeDayTrain(learners, cfg, sorted).value.probability else None))
  }

  /** The fields of a ready outcome that ProcessUser reports, read off ReadyOutcome. */
  lemma ReadyOutcomeFacts(o: Outcome, sorted: seq<LogRow>, today: string, cfg: Config, learners: Models.Learners)
    requires ReadyOutcome(o, sorted, today, cfg, learners)
    ensures o.Aborted? || o.Written?
    ensures !AllKeysParse(sorted) ==> o == Aborted
    ensures o.Written? ==>
      && o.status.daysCollected == |sorted| && o.status.daysRequired == cfg.minDaysToday
      && o.status.ready && o.prediction.Some?
      && o.status.unhealthyCount == UnhealthyCount(Moods(sorted))
      && o.status.recentMissingRate == 0.0
      && o.status.confidenceLevel == CalculateConfidence(cfg, |sorted|, o.status.unhealthyCount, 0.0)
      && o.prediction.value.dateKey == today
      && o.prediction.value.confidence == o.status.confidenceLevel
      && o.prediction.value.modelVersion == o.status.modelType + "_v1"
      && (o.status.modelType == "logistic" || o.status.modelType == "lightgbm")
    ensures o.Written? && o.prediction.value.p3d.Some? ==> ThreeDayGate(cfg, sorted)
  {
    if o.Written? {
      var r := TodayTrain(learners, cfg, sorted).value;
      var gate := ThreeDayGate(cfg, sorted);
      assert WrittenFor(o, sorted, today, cfg, r, if gate then ThreeDayTrain(learners, cfg, sorted).value.probability else None);
      assert o.status.modelType == Models.ModelName(r.modelType);
    }
  }

  /** Confidence, advice and the two documents, once both trainings have returned. */
  method WriteDocuments(sorted: seq<LogRow>, today: string, cfg: Config, r: Models.TrainResult, p3d: Option<real>)
    returns (o: Outcome)
    requires |sorted| > 0
    ensures WrittenFor(o, sorted, today, cfg, r, p3d)
  {
    var days := |sorted|;
    var unhealthy := CountOnes(YTodayColumn(Moods(sorted)));
    var moodColumn := seq(|sorted|, k requires 0 <= k < |sorted| => Some(sorted[k].mood));
    var rate := RecentMissingRate(moodColumn);
    RecentMissingRateZero(sorted);
    var level := CalculateConfidence(cfg, days, unhealthy, rate);
    var modelType := Models.ModelName(r.modelType);
    var advices := Advice.GenerateAdvice(sorted, r.probability);
    var prediction := SavePrediction(today, r.probability, p3d, level, modelType + "_v1", r.contributions, advices);
    var status := StatusDoc(cfg, days, unhealthy, rate, modelType, level, true);
    o := Written(status, Some(prediction));
  }

  /**
   * The two train_and_predict calls: y_today always, y_3d only once the
   * history passes the 3-day gate; None when either call raises.
   */
  method TrainTargets(learners: Models.Learners, cfg: Config, features: seq<FeatureRow>, labeled: seq<LabeledRow>,
                      days: int, unhealthy: int) returns (r: Option<(Models.TrainResult, Option<real>)>)
    requires |features| == |labeled|
    ensures var cols := FeatureColumns();
      var today := Models.Train(learners, cfg, cols, Examples(features, LabelColumn(labeled, false)), days, unhealthy);
      var gate := days >= cfg.minDays3d && unhealthy >= cfg.minUnhealthy3d;
      var three := Models.Train(learners, cfg, cols, Examples(features, LabelColumn(labeled, true)), days, unhealthy);
      && (r.None? <==> today.None? || (gate && three.None?))
      && (r.Some? ==> r.value.0 == today.value)
      && (r.Some? ==> r.value.1 == if gate then three.value.probability else None)
  {
    var cols := FeatureColumns();
    var todayResult := Models.TrainAndPredict(learners, cfg, cols, Examples(features, LabelColumn(labeled, false)), days, unhealthy);
    if todayResult.None? {
      return None;
    }
    var p3d: Option<real> := None;
    if days >= cfg.minDays3d && unhealthy >= cfg.minUnhealthy3d {
      var result3d := Models.TrainAndPredict(learners, cfg, cols, Examples(features, LabelColumn(labeled, true)), days, unhealthy);
      if result3d.None? {
        return None;
      }
      p3d := result3d.value.probability;
    }
    r := Some((todayResult.value, p3d));
  }

  /**
   * _process_user past the readiness cutoff, on the rows in date order:
   * labels, features, the two trainings, confidence, advice and the two
   * documents.
   */
  method RunModels(sorted: seq<LogRow>, today: string, cfg: Config, learners: Models.Learners) returns (o: Outcome)
    requires SortedByKey(sorted) && |sorted| >= cfg.minDaysToday && |sorted| > 0
    ensures ReadyOutcome(o, sorted, today, cfg, learners)
  {
    var days := |sorted|;
    var labeled := GenerateLabels(sorted);
    SortByKeyOfSorted(sorted);
    var todayLabels := LabelColumn(labeled, false);
    assert todayLabels == YTodayColumn(Moods(sorted));
    assert LabelColumn(labeled, true) == Y3dColumn(YTodayColumn(Moods(sorted)));
    var unhealthy := CountOnes(todayLabels);

    var logs := seq(|labeled|, k requires 0 <= k < |labeled| => labeled[k].log);
    assert logs == sorted;
    var features := BuildFeatures(logs);
    if features.None? {
      return Aborted;
    }

    assert features.value == BuildFeatures(sorted).value;
    assert unhealthy == UnhealthyCount(Moods(sorted));
    ghost var gate := ThreeDayGate(cfg, sorted);
    assert gate <==> days >= cfg.minDays3d && unhealthy >= cfg.minUnhealthy3d;
    ghost var todayTrain := TodayTrain(learners, cfg, sorted);
    ghost var threeTrain := ThreeDayTrain(learners, cfg, sorted);
    assert todayTrain == Models.Train(learners, cfg, FeatureColumns(), Examples(features.value, LabelColumn(labeled, false)), days, unhealthy);
    assert threeTrain == Models.Train(learners, cfg, FeatureColumns(), Examples(features.value, LabelColumn(labeled, true)), days, unhealthy);

    var trained := TrainTargets(learners, cfg, features.value, labeled, days, unhealthy);
    if trained.None? {
      assert todayTrain.None? || (gate && threeTrain.None?);
      return Aborted;
    }
    var (todayResult, p3d) := trained.value;
    assert todayResult == todayTrain.value;
    assert p3d == if gate then threeTrain.value.probability else None;
    o := WriteDocuments(logs, today, cfg, todayResult, p3d);
  }

  method ProcessUser(docs: seq<Doc>, today: string, cfg: Config, learners: Models.Learners) returns (o: Outcome)
    ensures CrashesOnSleep(docs) ==> o == Aborted
    ensures !CrashesOnSleep(docs) && MoodDocs(docs) == [] ==> o == NothingWritten
    ensures !CrashesOnSleep(docs) && 0 < |MoodDocs(docs)| < cfg.minDaysToday ==>
      o == Written(Status(|MoodDocs(docs)|, cfg.minDaysToday, false, 0, 0.0, "logistic", Low), None)
    ensures !CrashesOnSleep(docs) && |MoodDocs(docs)| >= Max(cfg.minDaysToday, 1) && !AllKeysParse(KeptRows(docs)) ==>
      o == Aborted
    ensures !CrashesOnSleep(docs) && |MoodDocs(docs)| >= Max(cfg.minDaysToday, 1) ==>
      ReadyOutcome(o, SortByKey(KeptRows(docs)), today, cfg, learners)
    ensures o == Aborted && !CrashesOnSleep(docs) ==> |MoodDocs(docs)| >= Max(cfg.minDaysToday, 1)
    ensures o.Written? ==> !CrashesOnSleep(docs) && o.status.daysCollected == |MoodDocs(docs)| > 0
    ensures o.Written? ==> o.status.daysRequired == cfg.minDaysToday
    ensures o.Written? ==> (o.status.ready <==> o.status.daysCollected >= cfg.minDaysToday)
    ensures o.Written? ==> (o.prediction.Some? <==> o.status.ready)
    ensures o.Written? && o.status.ready ==>
      && o.status.unhealthyCount == UnhealthyOf(docs)
      && o.status.recentMissingRate == 0.0
      && o.status.confidenceLevel == CalculateConfidence(cfg, o.status.daysCollected, o.status.unhealthyCount, 0.0)
    ensures o.Written? && o.prediction.Some? ==>
      && o.prediction.value.dateKey == today
      && o.prediction.value.confidence == o.status.confidenceLevel
      && o.prediction.value.modelVersion == o.status.modelType + "_v1"
      && (o.status.modelType == "logistic" || o.status.modelType == "lightgbm")
    ensures o.Written? && o.prediction.Some? && o.prediction.value.p3d.Some? ==>
      o.status.daysCollected >= cfg.minDays3d && o.status.unhealthyCount >= cfg.minUnhealthy3d
  {
    var collected := CollectRows(docs);
    if collected.None? {
      return Aborted;
    }
    var rows := collected.value;
    if rows == [] {
      return NothingWritten;
    }
    var sorted := SortByKey(rows);
    var days := |sorted|;
    if days < cfg.minDaysToday {
      return Written(StatusDoc(cfg, days, 0, 0.0, "logistic", Low, false), None);
    }
    o := ProcessReady(docs, rows, today, cfg, learners);
  }

  /** _process_user past the readiness cutoff, stated on the user's documents. */
  method ProcessReady(docs: seq<Doc>, rows: seq<LogRow>, today: string, cfg: Config, learners: Models.Learners)
    returns (o: Outcome)
    requires !CrashesOnSleep(docs) && rows == KeptRows(docs) && |rows| >= Max(cfg.minDaysToday, 1)
    ensures ReadyOutcome(o, SortByKey(KeptRows(docs)), today, cfg, learners)
    ensures o.Aborted? || o.Written?
    ensures !AllKeysParse(KeptRows(docs)) ==> o == Aborted
    ensures o.Written? ==>
      && o.status.daysCollected == |MoodDocs(docs)| && o.status.daysRequired == cfg.minDaysToday
      && o.status.ready && o.prediction.Some?
      && o.status.unhealthyCount == UnhealthyOf(docs)
      && o.status.recentMissingRate == 0.0
      && o.status.confidenceLevel == CalculateConfidence(cfg, o.status.daysCollected, o.status.unhealthyCount, 0.0)
      && o.prediction.value.dateKey == today
      && o.prediction.value.confidence == o.status.confidenceLevel
      && o.prediction.value.modelVersion == o.status.modelType + "_v1"
      && (o.status.modelType == "logistic" || o.status.modelType == "lightgbm")
    ensures o.Written? && o.prediction.value.p3d.Some? ==>
      o.status.daysCollected >= cfg.minDays3d && o.status.unhealthyCount >= cfg.minUnhealthy3d
  {
    var sorted := SortByKey(rows);
    SortByKeySorted(rows);
    SortedKeysParse(rows, sorted);
    o := RunModels(sorted, today, cfg, learners);
    ReadyOutcomeFacts(o, sorted, today, cfg, learners);
  }
}
