/**
 * train_and_predict: the decisions around the learners. The learners
 * themselves (scaling, logistic regression, LightGBM, SHAP, ROC-AUC,
 * average precision) are uninterpreted functions passed in; a fit that
 * returns None is one whose library call raised.
 */
module Models {
  import opened Wrappers
  import opened PyNum
  import opened Series
  import opened Config

  type Row = seq<real>

  /** One row of the frame handed to training: the feature columns and the target. */
  datatype Example = Example(x: seq<Option<real>>, y: Option<int>)

  /** A model fitted by a learner: predict_proba for one row, and per-feature contributions (None when that raises). */
  datatype Fitted = Fitted(prob: Row -> real, contributions: Row -> Option<seq<real>>)

  datatype Learners = Learners(
    fitLogistic: (real, seq<Row>, seq<int>) -> Option<Fitted>,
    fitBoosted: (int, int, seq<Row>, seq<int>) -> Option<Fitted>,
    rocAuc: (seq<int>, seq<real>) -> Option<real>,
    avgPrecision: (seq<int>, seq<real>) -> Option<real>)

  datatype ModelType = Logistic | LightGbm

  function ModelName(m: ModelType): string
  {
    if m == Logistic then "logistic" else "lightgbm"
  }

  datatype Contribution = Contribution(feature: string, value: real)

  datatype TrainResult = TrainResult(
    probability: Option<real>, modelType: ModelType,
    auc: Option<real>, prAuc: Option<real>, contributions: seq<Contribution>)

  // ---- the rows training can use ----

  predicate Complete(e: Example)
  {
    e.y.Some? && forall k :: 0 <= k < |e.x| ==> e.x[k].Some?
  }

  /** dropna(subset=[target] + feature_cols). */
  function CompleteRows(es: seq<Example>): (r: seq<Example>)
    ensures |r| <= |es|
    ensures forall k :: 0 <= k < |r| ==> Complete(r[k]) && r[k] in es
    ensures forall e :: e in es && Complete(e) ==> e in r
  {
    if es == [] then []
    else
      var init := CompleteRows(es[..|es| - 1]);
      var last := es[|es| - 1];
      assert forall e :: e in es ==> e in es[..|es| - 1] || e == last;
      init + (if Complete(last) then [last] else [])
  }

  /** dropna keeps each complete example as many times as it occurs, and no other. */
  lemma {:induction false} CompleteRowsMultiset(es: seq<Example>)
    ensures forall e :: multiset(CompleteRows(es))[e] == if Complete(e) then multiset(es)[e] else 0
  {
    if es != [] {
      CompleteRowsMultiset(es[..|es| - 1]);
      assert es == es[..|es| - 1] + [es[|es| - 1]];
    }
  }

  function Values(x: seq<Option<real>>): (r: Row)
    requires forall k :: 0 <= k < |x| ==> x[k].Some?
    ensures |r| == |x| && forall k :: 0 <= k < |x| ==> x[k] == Some(r[k])
  {
    seq(|x|, k requires 0 <= k < |x| && x[k].Some? => x[k].value)
  }

  /** valid[feature_cols].values. */
  function Matrix(es: seq<Example>): (r: seq<Row>)
    requires forall k :: 0 <= k < |es| ==> Complete(es[k])
    ensures |r| == |es|
  {
    seq(|es|, k requires 0 <= k < |es| && Complete(es[k]) => Values(es[k].x))
  }

  /** valid[target_col].values.astype(int). */
  function Labels(es: seq<Example>): (r: seq<int>)
    requires forall k :: 0 <= k < |es| ==> Complete(es[k])
    ensures |r| == |es|
  {
    seq(|es|, k requires 0 <= k < |es| && Complete(es[k]) => es[k].y.value)
  }

  // ---- split and hyperparameters ----

  /** n_test = max(min(VALIDATION_DAYS, len(valid) // 3), 1). */
  function TestSize(validationDays: int, n: nat): (t: int)
    ensures t >= 1
    ensures n >= 1 ==> t <= n
    ensures t == 1 || (t <= validationDays && t <= n / 3)
    ensures 1 <= validationDays && 3 <= n ==> t == Min(validationDays, n / 3)
  {
    Max(Min(validationDays, n / 3), 1)
  }

  datatype Split = Split(trainX: seq<Row>, trainY: seq<int>, testX: Option<seq<Row>>, testY: Option<seq<int>>)

  /**
   * The time-ordered split: the last t rows are the test set, unless the
   * training part would hold no positive label, in which case all rows
   * train and there is no test set.
   */
  function SplitData(xs: seq<Row>, ys: seq<int>, t: int): (s: Split)
    requires |xs| == |ys| && 1 <= t <= |xs|
    ensures s.testX.Some? <==> s.testY.Some?
    ensures s.testX.Some? <==> IntSum(ys[..|ys| - t]) != 0
    ensures s.testX.Some? ==>
      && s.trainX + s.testX.value == xs && |s.testX.value| == t
      && s.trainY + s.testY.value == ys && |s.testY.value| == t
    ensures s.testX.None? ==> s.trainX == xs && s.trainY == ys
  {
    var n := |xs|;
    if IntSum(ys[..n - t]) == 0 then Split(xs, ys, None, None)
    else Split(xs[..n - t], ys[..n - t], Some(xs[n - t..]), Some(ys[n - t..]))
  }

  /** lr_C: strong regularisation below 60 days, moderate below 150, standard from 150. */
  function RegularisationC(days: int): real
  {
    if days < 60 then 0.1 else if days < 150 then 0.5 else 1.0
  }

  /** More data never strengthens the regularisation (C never decreases). */
  lemma RegularisationWeakens(d1: int, d2: int)
    requires d1 <= d2
    ensures RegularisationC(d1) <= RegularisationC(d2)
    ensures RegularisationC(d1) in {0.1, 0.5, 1.0}
  {
  }

  /** LightGBM's (max_depth, num_leaves): (3, 8) below 150 days, else (5, 31). */
  function BoostedDepth(days: int): int { if days < 150 then 3 else 5 }
  function BoostedLeaves(days: int): int { if days < 150 then 8 else 31 }

  // ---- guarded metrics ----

  predicate TwoClasses(y: seq<int>)
  {
    exists k :: 0 <= k < |y| && y[k] != y[0]
  }

  /** _safe_auc / _safe_pr_auc: None without a test set, with fewer than 2 labels, or with one class only. */
  function SafeScore(metric: (seq<int>, seq<real>) -> Option<real>, yTrue: Option<seq<int>>, yScore: Option<seq<real>>): (r: Option<real>)
    ensures r.Some? ==> yTrue.Some? && yScore.Some? && |yTrue.value| >= 2 && TwoClasses(yTrue.value)
    ensures yTrue.Some? && yScore.Some? && |yTrue.value| >= 2 && TwoClasses(yTrue.value) ==>
              r == metric(yTrue.value, yScore.value)
  {
    if yTrue.None? || yScore.None? || |yTrue.value| < 2 then None
    else if !TwoClasses(yTrue.value) then None
    else metric(yTrue.value, yScore.value)
  }

  /** Two distinct labels are exactly what np.unique counts as at least two classes. */
  lemma TwoClassesIff(y: seq<int>)
    requires |y| > 0
    ensures TwoClasses(y) <==> exists i, j :: 0 <= i < j < |y| && y[i] != y[j]
  {
    if exists i, j :: 0 <= i < j < |y| && y[i] != y[j] {
      var i, j :| 0 <= i < j < |y| && y[i] != y[j];
      if y[i] == y[0] {
        assert y[j] != y[0];
      } else {
        assert y[i] != y[0];
      }
    }
    if TwoClasses(y) {
      var k :| 0 <= k < |y| && y[k] != y[0];
      assert 0 < k;
    }
  }

  // ---- contribution ranking ----

  function Mag(c: Contribution): real
  {
    if c.value >= 0.0 then c.value else -c.value
  }

  /** Inserts x after the last element whose magnitude is at least x's, so equal magnitudes keep their order. */
  function InsertByMag(p: seq<Contribution>, x: Contribution): seq<Contribution>
  {
    if p == [] || Mag(p[|p| - 1]) >= Mag(x) then p + [x]
    else InsertByMag(p[..|p| - 1], x) + [p[|p| - 1]]
  }

  lemma {:induction false} InsertByMagMultiset(p: seq<Contribution>, x: Contribution)
    ensures multiset(InsertByMag(p, x)) == multiset(p) + multiset{x}
  {
    if p != [] && Mag(p[|p| - 1]) < Mag(x) {
      InsertByMagMultiset(p[..|p| - 1], x);
      assert p == p[..|p| - 1] + [p[|p| - 1]];
    }
  }

  /** items.sort(key=abs(value), reverse=True): a stable sort by descending magnitude. */
  function SortByMagnitude(s: seq<Contribution>): seq<Contribution>
  {
    if s == [] then [] else InsertByMag(SortByMagnitude(s[..|s| - 1]), s[|s| - 1])
  }

  predicate Descending(s: seq<Contribution>)
  {
    forall i, j :: 0 <= i < j < |s| ==> Mag(s[i]) >= Mag(s[j])
  }

  lemma {:induction false} InsertByMagDescending(p: seq<Contribution>, x: Contribution)
    requires Descending(p)
    ensures Descending(InsertByMag(p, x))
  {
    if p != [] && Mag(p[|p| - 1]) < Mag(x) {
      var q := p[..|p| - 1];
      InsertByMagDescending(q, x);
      InsertByMagMultiset(q, x);
      var r := InsertByMag(q, x);
      forall i | 0 <= i < |r| ensures Mag(r[i]) >= Mag(p[|p| - 1]) {
        assert r[i] in multiset(r);
        if r[i] != x {
          assert r[i] in multiset(q);
          var k :| 0 <= k < |q| && q[k] == r[i];
        }
      }
    }
  }

  /** The ranking is in descending order of magnitude and a permutation of the items. */
  lemma {:induction false} SortByMagnitudeSpec(s: seq<Contribution>)
    ensures Descending(SortByMagnitude(s)) && multiset(SortByMagnitude(s)) == multiset(s)
  {
    if s != [] {
      SortByMagnitudeSpec(s[..|s| - 1]);
      InsertByMagDescending(SortByMagnitude(s[..|s| - 1]), s[|s| - 1]);
      InsertByMagMultiset(SortByMagnitude(s[..|s| - 1]), s[|s| - 1]);
      assert s == s[..|s| - 1] + [s[|s| - 1]];
    }
  }

  /** Inserting x at position j of p, when x outranks exactly p[j..], is InsertByMag. */
  lemma {:induction false} InsertAt(p: seq<Contribution>, x: Contribution, j: int)
    requires 0 <= j <= |p|
    requires j == 0 || Mag(p[j - 1]) >= Mag(x)
    requires forall k :: j <= k < |p| ==> Mag(p[k]) < Mag(x)
    ensures InsertByMag(p, x) == p[..j] + [x] + p[j..]
    decreases |p|
  {
    if j < |p| {
      var q := p[..|p| - 1];
      assert Mag(p[|p| - 1]) < Mag(x);
      InsertAt(q, x, j);
      assert p[..j] == q[..j];
      assert p[j..] == q[j..] + [p[|p| - 1]];
    }
  }

  /** The array after the shifting loop holds InsertByMag(p, x) in its first i + 1 cells. */
  lemma ShiftedInsert(s: seq<Contribution>, p: seq<Contribution>, x: Contribution, i: int, j: int)
    requires 0 <= j <= i == |p| < |s|
    requires j == 0 || Mag(p[j - 1]) >= Mag(x)
    requires forall k :: j <= k < i ==> Mag(p[k]) < Mag(x)
    requires forall k :: 0 <= k < j ==> s[k] == p[k]
    requires s[j] == x
    requires forall k :: j < k <= i ==> s[k] == p[k - 1]
    ensures s[..i + 1] == InsertByMag(p, x)
  {
    InsertAt(p, x, j);
    var q := p[..j] + [x] + p[j..];
    assert forall k :: 0 <= k <= i ==> s[k] == q[k];
  }

  /** One pass of the insertion sort: a[i] moves left past the elements it outranks. */
  method InsertStep(a: array<Contribution>, i: int)
    requires 0 <= i < a.Length
    modifies a
    ensures a[..i + 1] == InsertByMag(old(a[..i]), old(a[i]))
    ensures a[i + 1..] == old(a[i + 1..])
  {
    ghost var p := a[..i];
    var x := a[i];
    var j := i;
    while j > 0 && Mag(a[j - 1]) < Mag(x)
      invariant 0 <= j <= i
      invariant forall k :: 0 <= k < j ==> a[k] == p[k]
      invariant forall k :: j < k <= i ==> a[k] == p[k - 1]
      invariant forall k :: j <= k < i ==> Mag(p[k]) < Mag(x)
      invariant forall k :: i < k < a.Length ==> a[k] == old(a[k])
    {
      a[j] := a[j - 1];
      j := j - 1;
    }
    a[j] := x;
    ShiftedInsert(a[..], p, x, i, j);
    assert a[i + 1..] == old(a[i + 1..]);
  }

  /** The sort done in place on an array, as list.sort does. */
  method SortInPlace(a: array<Contribution>)
    modifies a
    ensures a[..] == SortByMagnitude(old(a[..]))
  {
    ghost var orig := a[..];
    var i := 0;
    while i < a.Length
      invariant 0 <= i <= a.Length
      invariant a[..i] == SortByMagnitude(orig[..i])
      invariant a[i..] == orig[i..]
    {
      ghost var before := a[..];
      assert before[..i] == SortByMagnitude(orig[..i]);
      assert before[i] == orig[i] && before[i + 1..] == orig[i + 1..];
      InsertStep(a, i);
      assert orig[..i + 1][..i] == orig[..i];
      assert a[..i + 1] == SortByMagnitude(orig[..i + 1]);
      i := i + 1;
    }
    assert a[..] == a[..a.Length];
    assert orig == orig[..a.Length];
  }

  /** items[:3] of the ranking. */
  function Top3(items: seq<Contribution>): seq<Contribution>
  {
    var s := SortByMagnitude(items);
    s[..Min(3, |s|)]
  }

  /** The ranking copied into an array, sorted in place and cut to three. */
  method RankContributions(items: seq<Contribution>) returns (top: seq<Contribution>)
    ensures top == Top3(items)
  {
    var a := new Contribution[|items|](k requires 0 <= k < |items| => items[k]);
    assert a[..] == items;
    SortInPlace(a);
    top := a[..Min(3, a.Length)];
  }

  /** In a descending sequence every element after position n is outranked by every element before it. */
  lemma DescendingCut(s: seq<Contribution>, n: int)
    requires Descending(s) && 0 <= n <= |s|
    ensures Descending(s[..n])
    ensures forall e, t :: e in s[n..] && t in s[..n] ==> Mag(e) <= Mag(t)
  {
    forall e, t | e in s[n..] && t in s[..n] ensures Mag(e) <= Mag(t) {
      var i :| 0 <= i < |s[n..]| && s[n..][i] == e;
      var k :| 0 <= k < n && s[..n][k] == t;
      assert s[n + i] == e && s[k] == t;
    }
  }

  lemma MultisetCut(s: seq<Contribution>, n: int)
    requires 0 <= n <= |s|
    ensures multiset(s[..n]) <= multiset(s)
    ensures multiset(s) - multiset(s[..n]) == multiset(s[n..])
  {
    assert s == s[..n] + s[n..];
  }

  /**
   * The three contributions kept are from the items, in descending
   * magnitude, and none of the items left out outranks any kept one.
   */
  lemma Top3Spec(items: seq<Contribution>)
    ensures var top := Top3(items);
      && |top| == Min(3, |items|)
      && multiset(top) <= multiset(items)
      && Descending(top)
      && forall e, t :: e in multiset(items) - multiset(top) && t in top ==> Mag(e) <= Mag(t)
  {
    var s := SortByMagnitude(items);
    SortByMagnitudeSpec(items);
    var n := Min(3, |s|);
    assert |s| == |items| by {
      assert |multiset(s)| == |multiset(items)|;
    }
    DescendingCut(s, n);
    MultisetCut(s, n);
    forall e, t | e in multiset(items) - multiset(s[..n]) && t in s[..n] ensures Mag(e) <= Mag(t) {
      assert e in multiset(s[n..]);
      assert e in s[n..];
    }
  }

  /** [{"feature": feature_cols[i], "value": vals[i]} for i in range(len(feature_cols))]. */
  function Pairs(cols: seq<string>, vals: seq<real>): (items: seq<Contribution>)
    requires |vals| >= |cols|
    ensures |items| == |cols|
  {
    seq(|cols|, k requires 0 <= k < |cols| => Contribution(cols[k], vals[k]))
  }

  /**
   * The top three of the pairs by |value|, or [] when the values are
   * missing or too few (an IndexError caught by the except).
   */
  function ContributionsOf(cols: seq<string>, values: Option<seq<real>>): (r: seq<Contribution>)
    ensures |r| <= 3 && |r| <= |cols|
    ensures forall k :: 0 <= k < |r| ==> r[k].feature in cols
    ensures !(values.Some? && |values.value| >= |cols|) ==> r == []
    ensures values.Some? && |values.value| >= |cols| ==>
      var items := Pairs(cols, values.value);
      && |r| == Min(3, |cols|)
      && multiset(r) <= multiset(items)
      && Descending(r)
      && forall e, t :: e in multiset(items) - multiset(r) && t in r ==> Mag(e) <= Mag(t)
  {
    if values.Some? && |values.value| >= |cols| then
      var items := Pairs(cols, values.value);
      Top3Spec(items);
      var top := Top3(items);
      forall k | 0 <= k < |top| ensures top[k].feature in cols {
        assert top[k] in multiset(items);
        var i :| 0 <= i < |items| && items[i] == top[k];
      }
      top
    else []
  }

  // ---- training ----

  /** What one fitted model contributes: its probability for the last row, its scores and its contributions. */
  datatype Candidate = Candidate(prob: real, auc: Option<real>, prAuc: Option<real>, contributions: seq<Contribution>)

  function ScoreAll(m: Fitted, xs: seq<Row>): (r: seq<real>)
    ensures |r| == |xs|
  {
    seq(|xs|, k requires 0 <= k < |xs| => m.prob(xs[k]))
  }

  function Evaluate(learners: Learners, m: Fitted, s: Split, last: Row, cols: seq<string>): Candidate
  {
    var scores := if s.testX.Some? then Some(ScoreAll(m, s.testX.value)) else None;
    Candidate(m.prob(last), SafeScore(learners.rocAuc, s.testY, scores),
              SafeScore(learners.avgPrecision, s.testY, scores), ContributionsOf(cols, m.contributions(last)))
  }

  /** LightGBM replaces logistic regression when its AUC exists and the logistic one is absent or strictly lower. */
  predicate BoostedWins(lrAuc: Option<real>, lgbAuc: Option<real>)
  {
    lgbAuc.Some? && (lrAuc.None? || lgbAuc.value > lrAuc.value)
  }

  predicate BoostedGate(cfg: Config, days: int, unhealthy: int)
  {
    days >= cfg.lgbmMinDays && unhealthy >= cfg.lgbmMinUnhealthy
  }

  /** The LightGBM run when its gate is met and fitting it did not raise. */
  function BoostedRun(learners: Learners, cfg: Config, cols: seq<string>, s: Split, last: Row,
                      days: int, unhealthy: int): Option<Candidate>
  {
    if !BoostedGate(cfg, days, unhealthy) then None
    else match learners.fitBoosted(BoostedDepth(days), BoostedLeaves(days), s.trainX, s.trainY)
      case None => None
      case Some(m) => Some(Evaluate(learners, m, s, last, cols))
  }

  /** The reported result: LightGBM's run when it wins, the logistic run otherwise. */
  function Choose(lr: Candidate, lgb: Option<Candidate>): (r: TrainResult)
    ensures r.modelType == LightGbm <==> lgb.Some? && BoostedWins(lr.auc, lgb.value.auc)
    ensures var c := if r.modelType == LightGbm then lgb.value else lr;
      r == TrainResult(Some(c.prob), r.modelType, c.auc, c.prAuc, c.contributions)
  {
    if lgb.Some? && BoostedWins(lr.auc, lgb.value.auc) then
      TrainResult(Some(lgb.value.prob), LightGbm, lgb.value.auc, lgb.value.prAuc, lgb.value.contributions)
    else TrainResult(Some(lr.prob), Logistic, lr.auc, lr.prAuc, lr.contributions)
  }

  /** Training past both exits; None when fitting the logistic model raised. */
  function Fit(learners: Learners, cfg: Config, cols: seq<string>, xs: seq<Row>, ys: seq<int>,
               days: int, unhealthy: int): Option<TrainResult>
    requires |xs| == |ys| > 0
  {
    var s := SplitData(xs, ys, TestSize(cfg.validationDays, |xs|));
    var last := xs[|xs| - 1];
    match learners.fitLogistic(RegularisationC(days), s.trainX, s.trainY)
    case None => None
    case Some(lr) =>
      Some(Choose(Evaluate(learners, lr, s, last, cols), BoostedRun(learners, cfg, cols, s, last, days, unhealthy)))
  }

  /** The outcome of train_and_predict; None when an exception leaves the function. */
  function Train(learners: Learners, cfg: Config, cols: seq<string>, examples: seq<Example>,
                 days: int, unhealthy: int): Option<TrainResult>
  {
    var valid := CompleteRows(examples);
    if |valid| < cfg.minDaysToday then Some(TrainResult(None, Logistic, None, None, []))
    else if IntSum(Labels(valid)) == 0 then Some(TrainResult(Some(0.0), Logistic, None, None, []))
    else
      assert |valid| > 0;
      Fit(learners, cfg, cols, Matrix(valid), Labels(valid), days, unhealthy)
  }

  /** train_and_predict, with the best model chosen by reassignment as the source does. */
  method TrainAndPredict(learners: Learners, cfg: Config, cols: seq<string>, examples: seq<Example>,
                         days: int, unhealthy: int) returns (r: Option<TrainResult>)
    ensures r == Train(learners, cfg, cols, examples, days, unhealthy)
  {
    var valid := CompleteRows(examples);
    if |valid| < cfg.minDaysToday {
      return Some(TrainResult(None, Logistic, None, None, []));
    }
    var xs, ys := Matrix(valid), Labels(valid);
    if IntSum(ys) == 0 {
      return Some(TrainResult(Some(0.0), Logistic, None, None, []));
    }
    var nTest := Min(cfg.validationDays, |xs| / 3);
    nTest := Max(nTest, 1);
    var s := SplitData(xs, ys, nTest);
    var last := xs[|xs| - 1];
    var fitted := learners.fitLogistic(RegularisationC(days), s.trainX, s.trainY);
    if fitted.None? {
      return None;
    }
    var lrRun := Evaluate(learners, fitted.value, s, last, cols);
    var bestType, bestProb, bestAuc, bestPrAuc := Logistic, lrRun.prob, lrRun.auc, lrRun.prAuc;
    var contributions := lrRun.contributions;
    var lgbRun: Option<Candidate> := None;
    if BoostedGate(cfg, days, unhealthy) {
      var boosted := learners.fitBoosted(BoostedDepth(days), BoostedLeaves(days), s.trainX, s.trainY);
      if boosted.Some? {
        var b := Evaluate(learners, boosted.value, s, last, cols);
        lgbRun := Some(b);
        if b.auc.Some? && lrRun.auc.Some? {
          if b.auc.value > lrRun.auc.value {
            bestType, bestProb, bestAuc, bestPrAuc := LightGbm, b.prob, b.auc, b.prAuc;
          }
        } else if b.auc.Some? {
          bestType, bestProb, bestAuc, bestPrAuc := LightGbm, b.prob, b.auc, b.prAuc;
        }
        if bestType == LightGbm {
          contributions := b.contributions;
        }
      }
    }
    assert lgbRun == BoostedRun(learners, cfg, cols, s, last, days, unhealthy);
    r := Some(TrainResult(Some(bestProb), bestType, bestAuc, bestPrAuc, contributions));
    assert r.value == Choose(lrRun, lgbRun);
  }

  // ---- properties ----

  /** Too few complete rows: no probability; no positive label: probability 0. Both report the logistic model. */
  lemma TrainEarlyExits(learners: Learners, cfg: Config, cols: seq<string>, examples: seq<Example>, days: int, unhealthy: int)
    ensures var valid := CompleteRows(examples);
      var r := Train(learners, cfg, cols, examples, days, unhealthy);
      && (|valid| < cfg.minDaysToday ==> r == Some(TrainResult(None, Logistic, None, None, [])))
      && (|valid| >= cfg.minDaysToday && IntSum(Labels(valid)) == 0 ==>
            r == Some(TrainResult(Some(0.0), Logistic, None, None, [])))
  {
  }

  /**
   * LightGBM is reported only when its gate is met, a test set exists,
   * its AUC exists and the logistic AUC is absent or strictly lower;
   * so an AUC tie keeps logistic regression.
   */
  lemma BoostedOnlyWhenBetter(learners: Learners, cfg: Config, cols: seq<string>, examples: seq<Example>, days: int, unhealthy: int)
    requires Train(learners, cfg, cols, examples, days, unhealthy).Some?
    requires Train(learners, cfg, cols, examples, days, unhealthy).value.modelType == LightGbm
    ensures BoostedGate(cfg, days, unhealthy)
    ensures var valid := CompleteRows(examples);
      var xs, ys := Matrix(valid), Labels(valid);
      && |valid| >= cfg.minDaysToday && IntSum(ys) != 0
      && var s := SplitData(xs, ys, TestSize(cfg.validationDays, |xs|));
      && s.testX.Some?
      && var r := Train(learners, cfg, cols, examples, days, unhealthy).value;
      && r.auc.Some?
      && var lr := Evaluate(learners, learners.fitLogistic(RegularisationC(days), s.trainX, s.trainY).value, s, xs[|xs| - 1], cols);
      && (lr.auc.None? || r.auc.value > lr.auc.value)
  {
    var valid := CompleteRows(examples);
    var xs, ys := Matrix(valid), Labels(valid);
    assert |valid| >= cfg.minDaysToday && IntSum(ys) != 0;
    var s := SplitData(xs, ys, TestSize(cfg.validationDays, |xs|));
    var last := xs[|xs| - 1];
    var fitted := learners.fitLogistic(RegularisationC(days), s.trainX, s.trainY);
    assert fitted.Some?;
    var lr := Evaluate(learners, fitted.value, s, last, cols);
    var lgb := BoostedRun(learners, cfg, cols, s, last, days, unhealthy);
    assert Train(learners, cfg, cols, examples, days, unhealthy) == Some(Choose(lr, lgb));
    assert lgb.Some? && BoostedWins(lr.auc, lgb.value.auc);
  }

  /** Outside the exits the result reports a probability, and at most three contributions named by feature columns. */
  lemma TrainResultShape(learners: Learners, cfg: Config, cols: seq<string>, examples: seq<Example>, days: int, unhealthy: int)
    requires Train(learners, cfg, cols, examples, days, unhealthy).Some?
    ensures var r := Train(learners, cfg, cols, examples, days, unhealthy).value;
      && (r.probability.None? ==> r.modelType == Logistic && r.auc.None?)
      && |r.contributions| <= 3
      && forall k :: 0 <= k < |r.contributions| ==> r.contributions[k].feature in cols
  {
  }
}
