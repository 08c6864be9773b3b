# Health-risk predictor backend, modelled in Dafny

This project models the core of the health-risk predictor's nightly batch. Users log a daily mood score (1 to 5), sleep hours, a step count and an optional stress level. Each night the batch runs one pass per user:

- It builds one row per daily document that has a mood.
- It sorts the rows by date key.
- It labels each day: `y_today` marks an unhealthy day, and `y_3d` marks a day followed by an unhealthy day within three days.
- It derives leakage-free features from the history.
- It trains logistic regression, and LightGBM once enough data exists, and predicts today's risk.
- It rates the confidence of the prediction.
- It derives up to two pieces of personal advice.
- It writes a prediction document and a model-status document.

Each Python module of the core is one Dafny module:

| module | models |
|---|---|
| `Labels` | `backend/labels.py`. `y_today` is a function; the `y_3d` loop is an imperative method over an array. |
| `Features` | `backend/features.py`. The feature table, the feature column list and `_fill_missing`. |
| `Confidence` | `backend/confidence.py`. The three-level decision table and the one-step downgrade. |
| `Advice` | `backend/advice.py`. Good and bad days, the sleep, steps and stress rules, and the cap of two. |
| `Models` | `backend/models.py`. The control flow of `train_and_predict`, `_safe_auc` / `_safe_pr_auc`, and the top-3 contribution ranking, sorted in place on an array. |
| `Pipeline` | `backend/pipeline.py`. The read loop of `_process_user`, the readiness cutoff, the two trainings and the field selection of `_save_prediction` / `_update_model_status`. |
| `Demo` | `generate_test_data` of `backend/demo_local.py`. |

Support modules cover what the Python code takes from its libraries:

- `PyNum`: `int()`, `round()` with ties to even, `% 1`, sum and mean.
- `Series`: pandas `shift`, `rolling(...).mean()` with `min_periods`, and `fillna`.
- `Records`: the daily row, boolean-mask filtering, and `sort_values("date_key")` as a stable sort on the key string.
- `Dates`: the proleptic Gregorian calendar, `weekday()`, `timedelta` subtraction, `strftime("%Y-%m-%d")` and the parsing of canonical keys.
- `Config`: the configuration constants, passed as a parameter. Their documented values are in `Config.Documented`.
- `Wrappers`: `Option`.

Python's `None` and pandas' `NaN` are both `Option.None`. Floats are exact reals.

The learners are uninterpreted functions in `Models.Learners`:

- the logistic fit;
- the LightGBM fit;
- ROC-AUC;
- average precision;
- the contribution vectors.

A learner returns `None` where the library call can raise. `Models.Train` states the result of `train_and_predict` in terms of these functions, and the imperative `Models.TrainAndPredict` is proved equal to it.

Where the code and its design notes disagree, or the notes are silent, the model follows the code:

- `calculate_confidence` uses the unhealthy count as well as the number of days (backend/confidence.py:27-38).
- `train_and_predict` predicts for the last row that is complete for the target (backend/models.py:41, 71). For `y_3d`, that row is at least three rows before the newest day, because `y_3d` is undefined on the last three rows.
- The recent missing rate in `_process_user` is always 0. Every row kept by the read loop has a mood (backend/pipeline.py:90-92, 134-136). `Pipeline.RecentMissingRateZero` proves it, so the downgrade in `calculate_confidence` never fires in the batch.
- A daily document whose `sleep` field is present but null makes `sleep_data.get` raise before anything is written. This is the `Aborted` outcome.
- A date key that `pd.to_datetime` cannot parse also gives `Aborted`: `Features.BuildFeatures` returns `None`.
- The sleep advice carries the bedtime exactly as `generate_advice` formats it (backend/advice.py:51-52), although the minute part does not give a 7:00 wake-up. The intended bedtime is modelled beside it (see Findings).

## Model

| member | source | states |
|---|---|---|
| `PyNum.Trunc` | backend/advice.py:51-52 | `int()` of a float truncates toward zero: the result is within one below a non-negative input, and within one above a negative one. |
| `PyNum.RoundHalfEven` | backend/advice.py:79 | `round()` returns an integer within 0.5 of the input, and an exact tie goes to the even neighbour. |
| `PyNum.RoundHalfEvenWithin` | backend/advice.py:66 | Rounding never leaves any integer bounds of its input. |
| `PyNum.RoundScaledBounds` | backend/demo_local.py:55 | Scaled back up, `round(x, p)` is the rounded integer of the scaled input and keeps the input's integer bounds. |
| `PyNum.RoundScaledClose` | backend/pipeline.py:241-243 | `round(x, p)` is within half a unit of its last place from `x`. |
| `PyNum.MeanBounds` | backend/advice.py:46-47 | A mean lies between any common bounds of its values. |
| `PyNum.MeanOfConstant` | backend/advice.py:33 | The mean of a constant list is that constant. |
| `PyNum.SumOfInts` | backend/labels.py:24 | The sum of an integer list taken as reals is its integer sum. |
| `Series.Shift` | backend/features.py:27 | `shift(1)` keeps the length, puts NaN first and moves row k-1 to row k. |
| `Series.Window` | backend/features.py:29 | A rolling window of size k at row j holds rows max(0, j-k+1) .. j, in order. |
| `Series.RollingMeanCausal` | backend/features.py:28-37 | A rolling mean at row j reads no row after j. |
| `Series.RollingMeanOfSomes` | backend/labels.py:23-25 | With no missing value, the rolling mean is the mean of the last min(k, j+1) values, or NaN below `min_periods`. |
| `Series.FillAtSpec` | backend/features.py:84-87 | `_fill_missing` keeps a present value. It fills a missing one with the mean of the present values among the window's earlier rows, else 0. |
| `Series.FillAtCausal` | backend/features.py:84-87 | A filled value at row j reads no row after j. |
| `Series.Sub` | backend/features.py:34 | Column subtraction is NaN exactly when either side is NaN; otherwise it is the difference. |
| `Records.Where` | backend/advice.py:34-35 | A boolean-mask selection keeps exactly the matching rows, and only rows of the input. |
| `Records.WhereMultiset` | backend/advice.py:34-35 | A selection keeps every matching row as often as the input has it, and no other row. |
| `Records.KeyLeTotal` | backend/pipeline.py:109 | String order on keys is total. |
| `Records.KeyLeTransitive` | backend/pipeline.py:109 | String order on keys is transitive. |
| `Records.SortByKeySorted` | backend/pipeline.py:109 | `sort_values("date_key")` returns the same rows (a permutation) in key order. |
| `Records.SortByKeyOfSorted` | backend/labels.py:20 | Sorting rows already in key order changes nothing, so the re-sorts in `generate_labels` and `build_features` are the identity inside the batch. |
| `Dates.DaysInMonth` | backend/features.py:22 | Months have 28 to 31 days, and 29 exactly for February of a leap year. |
| `Dates.Weekday` | backend/features.py:23 | `dt.dayofweek` is in 0..6, Monday being 0. |
| `Dates.YearLength` | backend/demo_local.py:36 | A year has 366 days when it is a leap year and 365 otherwise. |
| `Dates.PrevDay` | backend/demo_local.py:36 | One day back is a valid date with an ordinal one lower. |
| `Dates.DaysBefore` | backend/demo_local.py:36 | `today - timedelta(days=k)` is a valid date whose ordinal is k lower. |
| `Dates.ParseDateKeyOfDateKey` | backend/demo_local.py:37 | Parsing a key made by `strftime("%Y-%m-%d")` returns the date. |
| `Dates.DateKeyOfParseDateKey` | backend/features.py:22 | A key that parses is the formatted key of the date it names. |
| `Labels.MoodMa14CurrentSpec` | backend/labels.py:23-25 | The 14-row mean, current row included, exists exactly from row 13 on and is the mean of rows i-13..i. |
| `Labels.YTodayDefined` | backend/labels.py:28-33 | `y_today` is NaN exactly on the first 13 rows, and 0 or 1 after them. |
| `Labels.YTodayRule` | backend/labels.py:28-33 | `y_today` = 1 iff mood <= (14-row mean) - 1, iff 14 * mood <= (sum of the 14 moods) - 14. |
| `Labels.YTodayLocal` | backend/labels.py:23-33 | `y_today` at a row depends on the 14 moods ending there and on nothing else. |
| `Labels.YTodayPrefixStable` | backend/labels.py:23-33 | Appending rows never changes an existing `y_today`. |
| `Labels.YTodayConstant` | backend/labels.py:28-33 | A constant mood history has no unhealthy day. |
| `Labels.CountOnesPrefix` | backend/pipeline.py:129 | Counting `y_today == 1` over a longer column never gives less. |
| `Labels.UnhealthyCountMonotone` | backend/pipeline.py:129 | As the history grows, the unhealthy count never decreases. |
| `Labels.Y3dOfLabels` | backend/labels.py:35-43 | `y_3d` is defined iff 13 <= i < n-3, and is 1 iff one of the next three days is unhealthy. |
| `Labels.FillY3d` | backend/labels.py:36-43 | The loop over `range(len(df) - 3)` fills the NaN column in place so that each entry is the `y_3d` rule at its row. |
| `Labels.GenerateLabels` | backend/labels.py:13-48 | The result has the input rows in key order, each with its `y_today` and `y_3d`, and nothing else. |
| `Features.BuildFeatures` | backend/features.py:19-24 | There is a feature row per input row exactly when every key is a calendar date; otherwise `pd.to_datetime` raises (None). |
| `Features.SortedKeysParse` | backend/features.py:19-22 | Reordering rows does not change whether all their keys parse. |
| `Features.BuildFeaturesAt` | backend/features.py:19-58 | Feature row i is computed from row i of the key-sorted input. |
| `Features.FeatureColumnsSpec` | backend/features.py:63-81 | `get_feature_columns` lists 15 distinct names, and each is a column of every feature row. |
| `Features.MoodPrefix` | backend/features.py:27 | The shifted mood column up to row i depends only on the moods before row i. |
| `Features.MoodNoLeakage` | backend/features.py:26-38 | All six mood features at row i are a function of the moods of the rows before i. |
| `Features.MoodLagDelta` | backend/features.py:27-38 | `mood_lag1` is the previous mood; `mood_delta1` is the difference of the two previous moods. Both are NaN where those rows do not exist. `mood_dev14` = lag1 - ma14. |
| `Features.MoodRollingMeans` | backend/features.py:28-37 | `mood_ma3` / `mood_ma7` are the means of the 3 / 7 previous moods (fewer at the start) and NaN on row 0. `mood_ma14` needs 7 previous rows. |
| `Features.WindowOfLagged` | backend/features.py:28-37 | The present values of a rolling window over the shifted moods are the moods max(0, i-k) .. i-1. |
| `Features.PresentAfterNone` | backend/features.py:27 | The NaN that `shift(1)` puts first is dropped by the rolling mean. |
| `Features.MoodFeaturesRowZero` | backend/features.py:26-38 | All six mood features are NaN on the first row. |
| `Features.LaggedPrefix` | backend/features.py:49-56 | The shifted column up to row i depends only on the rows before i. |
| `Features.StepsNoLeakage` | backend/features.py:48-53 | The steps features at row i are a function of the step counts of the rows before i. |
| `Features.StressNoLeakage` | backend/features.py:55-58 | The stress features at row i are a function of the stress levels of the rows before i. |
| `Features.SleepCausal` | backend/features.py:40-45 | The sleep features at row i read the sleep of rows 0..i only (the same day is allowed). |
| `Features.MissingFlags` | backend/features.py:43-58 | `sleep_missing` follows the same day's sleep; `steps_missing` / `stress_missing` follow the previous day's value, so row 0 is always flagged. The fills are 0 on row 0. |
| `Features.StepsFill` | backend/features.py:50 | `steps_filled` is the previous day's steps when present, else the mean of the present steps of rows i-7..i-2, else 0. |
| `Features.StressFill` | backend/features.py:57 | `stress_filled` follows the same rule on stress levels. |
| `Features.CalendarSpec` | backend/features.py:22-24 | `day_of_week` of a formatted key is the date's weekday, and `is_weekend` is 1 exactly on days 5 and 6. |
| `Features.SaturdayIsWeekend` | backend/tests/test_features.py:54 | 2026-01-03 is a Saturday, so its `is_weekend` is 1. |
| `Confidence.Downgrade` | backend/confidence.py:41-45 | A downgrade turns High into Medium and Medium or Low into Low. |
| `Confidence.Rank` | backend/confidence.py:26-38 | Levels rank 0 to 2. |
| `Confidence.ConfidenceTable` | backend/confidence.py:17-47 | The full decision table, each level as an iff over the two thresholds and the missing rate. |
| `Confidence.DowngradeOneStep` | backend/confidence.py:40-45 | At or above the missing-rate threshold the level drops exactly one step, except at Low. |
| `Confidence.ConfidenceMonotone` | backend/confidence.py:26-45 | For any settings, more days, more unhealthy days or a lower missing rate never lower the level. |
| `Confidence.DocumentedExamples` | backend/tests/test_confidence.py:11-39 | The seven outcomes the tests fix, for the documented thresholds. |
| `Advice.BedHourAsWritten` | backend/advice.py:51 | The bedtime hour as written is in 0..23. |
| `Advice.BedMinuteAsWritten` | backend/advice.py:52 | The bedtime minute as written is in 0..59. |
| `Advice.BedClock` | backend/advice.py:50-52 | The corrected bedtime is a minute of the day. |
| `Advice.BedtimeWakesAtSeven` | backend/advice.py:50-53 | Going to bed at the corrected bedtime and sleeping the recommended length ends at 7:00. |
| `Advice.BedtimeAsWrittenMisses` | backend/advice.py:51-52 | As written, 7.2 hours gives 23:12, which does not end at 7:00; the corrected bedtime is 23:48. |
| `Advice.SleepRule` | backend/advice.py:42-57 | Sleep advice is given iff both clusters have at least 3 sleep values and the good-day mean is more than 0.3 h higher. It recommends that mean rounded to one decimal, with the bedtime as written, `int(31 - rec) % 24` : `int((rec % 1) * 60)`. |
| `Advice.StepsRule` | backend/advice.py:59-70 | Steps advice is given iff both clusters have at least 3 step counts and the good-day mean is more than 500 higher. The threshold is a multiple of 1000 within 500 of that mean. |
| `Advice.BadRate` | backend/advice.py:85-86 | A group's bad-day rate lies in [0, 1]. |
| `Advice.StressRule` | backend/advice.py:72-92 | Stress advice is given iff both clusters have at least 3 stress values, the bad-day mean is more than 0.5 higher, both stress groups split at the rounded good-day mean are non-empty, and their mood difference is above 5 points. It carries that level and that difference. |
| `Advice.GenerateAdvice` | backend/advice.py:13-94 | The method's list is the capped candidate list when the exits pass, else []. |
| `Advice.NoAdviceWhenIneligible` | backend/advice.py:22-38 | No advice without a prediction, with fewer than 14 rows, or with fewer than 3 good or bad days. |
| `Advice.ConstantMoodNoAdvice` | backend/advice.py:33-38 | A constant mood history has no good day and no bad day, hence no advice. |
| `Advice.CapOrdered` | backend/advice.py:40-94 | Cutting the ordered candidates to two keeps their order. A kind appears iff its rule fired, except that stress is dropped when sleep and steps both fired. |
| `Advice.CandidatesInKindOrder` | backend/advice.py:40-92 | The candidates are the sleep, steps and stress rules' advice, in that order. |
| `Advice.DistinctParams` | backend/advice.py:54-91 | Advice of different kinds has different `param` values. |
| `Advice.AdviceShape` | backend/advice.py:40-94 | At most two pieces of advice, ordered sleep, steps, stress, with distinct `param` values. |
| `Advice.AdviceSelection` | backend/advice.py:40-94 | For eligible input: sleep advice appears iff its rule fires, and steps advice iff its rule fires. Stress advice appears iff its rule fires and sleep and steps did not both fire. |
| `Advice.MissingStressInNeitherGroup` | backend/advice.py:82-83 | A day without stress joins neither stress group while 0 <= level < 99. |
| `Advice.SleepRuleExamples` | backend/advice.py:45-53 | With a good-day mean of 7.46 h, a bad-day mean of 7.36 h gives no sleep advice (the gap must exceed 0.3 h), and one of 5.46 h recommends 7.5 h with a bedtime of 23:30. |
| `Models.CompleteRows` | backend/models.py:41 | `dropna` keeps exactly the examples with a label and every feature, and only those. |
| `Models.CompleteRowsMultiset` | backend/models.py:41 | `dropna` keeps every complete example as often as the input has it, and no other example. |
| `Models.TestSize` | backend/models.py:55-56 | `n_test` is at least 1 and at most n, and equals min(VALIDATION_DAYS, n // 3) when that is at least 1. |
| `Models.SplitData` | backend/models.py:58-65 | The last `n_test` rows form the test set. When the training part has no positive label, every row trains and there is no test set. |
| `Models.RegularisationWeakens` | backend/models.py:75-80 | `lr_C` is 0.1, 0.5 or 1.0 and never decreases with more days. |
| `Models.SafeScore` | backend/models.py:172-193 | A score exists only with a test set of at least 2 labels of two classes. Then it is the metric's value; the metric's `ValueError` is None. |
| `Models.TwoClassesIff` | backend/models.py:176 | The two-class test agrees with `len(np.unique(y)) >= 2`. |
| `Models.InsertByMagMultiset` | backend/models.py:211 | Inserting into the ranking adds exactly that item. |
| `Models.InsertByMagDescending` | backend/models.py:211 | Inserting keeps the ranking in descending magnitude. |
| `Models.SortByMagnitudeSpec` | backend/models.py:211 | The ranking is by descending magnitude and is a permutation of the items. |
| `Models.InsertAt` | backend/models.py:211 | Placing an item right after the last item of at least its magnitude is the ranking's insertion. |
| `Models.InsertStep` | backend/models.py:211 | One pass of the in-place sort brings cell i to its place among cells 0..i and leaves the rest alone. |
| `Models.SortInPlace` | backend/models.py:211 | The in-place sort leaves the array holding the ranking of its old contents. |
| `Models.RankContributions` | backend/models.py:207-212 | The sorted copy cut to three is `Top3`. |
| `Models.DescendingCut` | backend/models.py:211-212 | In a descending list, every item cut off is outranked by every item kept. |
| `Models.MultisetCut` | backend/models.py:212 | The items kept and the items cut off together are the list. |
| `Models.Top3Spec` | backend/models.py:207-212 | The top three are min(3, n) of the items, in descending magnitude; no item left out outranks a kept one. |
| `Models.ContributionsOf` | backend/models.py:196-239 | [] when the contribution vector is missing or shorter than the columns. Otherwise min(3, n) of the (column, value) pairs, in descending magnitude, with no pair left out outranking a kept one. |
| `Models.Choose` | backend/models.py:92-158 | LightGBM is reported iff it ran and its AUC exists and beats an absent or lower logistic AUC; the reported fields are the chosen model's. |
| `Models.TrainAndPredict` | backend/models.py:23-169 | The imperative selection by reassignment returns exactly `Train`'s result. |
| `Models.TrainEarlyExits` | backend/models.py:43-51 | Too few complete rows gives no probability; no positive label gives probability 0. Both report the logistic model. |
| `Models.BoostedOnlyWhenBetter` | backend/models.py:98-155 | LightGBM is reported only past its gate, with a test set, and with an AUC that beats an absent or strictly lower logistic AUC, so a tie keeps logistic. |
| `Models.TrainResultShape` | backend/models.py:163-169 | A missing probability means the logistic model and no AUC. There are at most three contributions, each a feature column. |
| `Pipeline.MoodDocs` | backend/pipeline.py:88-92 | The documents with a mood, and each of them. |
| `Pipeline.MoodDocsMultiset` | backend/pipeline.py:88-92 | The read loop keeps every document with a mood as often as it occurs, and no other document. |
| `Pipeline.KeptRows` | backend/pipeline.py:94-103 | The k-th row is built from the k-th document with a mood. |
| `Pipeline.KeptRowsStep` | backend/pipeline.py:88-103 | One more document adds at most its own row. |
| `Pipeline.CollectRows` | backend/pipeline.py:87-103 | The read loop raises iff a document with a mood has a null `sleep` field; otherwise it returns one row per document with a mood. |
| `Pipeline.KeptRowsSpec` | backend/pipeline.py:87-103 | Every kept row comes from a document with that mood and id, and no document with a mood is lost. |
| `Pipeline.CountNone` | backend/pipeline.py:136 | `isna().sum()` counts at most the column's length. |
| `Pipeline.RecentMissingRate` | backend/pipeline.py:135-136 | The recent missing rate lies in [0, 1]. |
| `Pipeline.RecentMissingRateZero` | backend/pipeline.py:134-136 | On the rows the batch keeps, the recent missing rate is 0. |
| `Pipeline.StatusDoc` | backend/pipeline.py:252-282 | The status document carries the given fields and `daysRequired` = MIN_DAYS_TODAY, with the rate rounded to three places. |
| `Pipeline.SavePrediction` | backend/pipeline.py:216-249 | `pToday` / `p3d` are written iff known, as `round(p, 4)`. Contributions and advices are written iff non-empty. |
| `Pipeline.Examples` | backend/pipeline.py:139-146 | One training example per feature row. |
| `Pipeline.LabelColumn` | backend/pipeline.py:139-160 | The chosen label column has one entry per row. |
| `Pipeline.TrainTargets` | backend/pipeline.py:138-161 | The `y_today` training always runs; the `y_3d` one runs only past its gate. The pair of results is exactly the two `Train` results, None when either raises. |
| `Pipeline.WriteDocuments` | backend/pipeline.py:163-202 | From the two training results, the ready status (unhealthy count of the labels, rate 0, its confidence, the reported model) and a prediction carrying `today`, that confidence, `<model>_v1`, both probabilities rounded, the contributions and the advice for the `y_today` probability (`Pipeline.WrittenFor`). |
| `Pipeline.RunModels` | backend/pipeline.py:127-202 | Past the readiness cutoff, documents are written iff every key parses, the `y_today` training returns and, past the 3-day gate, the `y_3d` one returns. Then they are those of `Pipeline.WrittenFor` for the `y_today` result of `Models.Train` on the labelled features, and the `y_3d` probability only past the gate (`Pipeline.ReadyOutcome`). |
| `Pipeline.ReadyOutcomeFacts` | backend/pipeline.py:163-202 | A written ready outcome reports the day count, the labels' unhealthy count, rate 0, its confidence, `today`, `<model>_v1` with model `logistic` or `lightgbm`, and a `p3d` only past the 3-day gate. An unparsable key aborts. |
| `Pipeline.ProcessReady` | backend/pipeline.py:127-202 | Past the cutoff, `Pipeline.ReadyOutcome` on the kept rows in date order, with those fields stated on the user's documents. |
| `Pipeline.ProcessUser` | backend/pipeline.py:79-213 | A null sleep aborts. No mood data writes nothing. Fewer than MIN_DAYS_TODAY days writes a not-ready status. Past the cutoff, the outcome is `Pipeline.ReadyOutcome` on the kept rows in date order: written iff every key parses and the trainings that run return, with the probabilities, contributions, advice and model of `Models.Train`. |
| `Demo.RandInt` | backend/demo_local.py:30 | `randint(lo, hi)` lies in [lo, hi]. |
| `Demo.Choice` | backend/demo_local.py:45-47 | `choice(xs)` is an element of xs. |
| `Demo.Duration` | backend/demo_local.py:30 | A sick run lasts 2 or 3 days. |
| `Demo.RunMembers` | backend/demo_local.py:31-32 | A run holds exactly the days start .. start + len - 1. |
| `Demo.BuildSickDays` | backend/demo_local.py:28-32 | The nested loops build exactly the five runs. |
| `Demo.SickUpToMembers` | backend/demo_local.py:28-32 | A day is sick after j runs iff it lies in one of them. |
| `Demo.SickRuns` | backend/demo_local.py:28-32 | A day is sick iff it lies in one of the five runs starting at 8, 25, 48, 67, 85, each 2 or 3 days long. |
| `Demo.RowsOnSnoc` | backend/demo_local.py:34-71 | Appending a valid row for the next day keeps every row valid. |
| `Demo.GenerateRow` | backend/demo_local.py:36-71 | Each row follows the rules: the key of its day, mood 1-2 when sick, 3-5 at weekends, 2-5 otherwise, and steps and stress ranges by mood. Sleep is a base in [6.5, 8.5), less 1 to 2 h when the mood is 2 or less, plus 0.5 at weekends, rounded to one decimal. Each row uses 4 to 6 draws. |
| `Demo.GenerateTestData` | backend/demo_local.py:22-73 | n_days rows; row i is valid for the day n_days-1-i days before today, and is sick iff that days_ago is a sick day. |
| `Demo.TenthsWithin` | backend/demo_local.py:55 | `round(x, 1)` is a whole number of tenths within any whole-tenth bounds of x. |
| `Demo.SleepRange` | backend/demo_local.py:50-55 | Generated sleep is a whole number of tenths in [4.5, 7.5] on bad days and [6.5, 8.5] otherwise, plus 0.5 at weekends. |

## Left out

- Firestore, logging, `run_batch`, `_get_active_users`, `main.py` and the clock: the model starts from one user's list of daily documents and returns the documents the batch would write. `today` is a parameter of `Pipeline.ProcessUser` and `Demo.GenerateTestData`.
- `backend/config.py` is not part of this model: every setting is a `Config` parameter, with the documented values in `Config.Documented`.
- scikit-learn, LightGBM, SHAP and the scaler are not modelled: fitting, prediction, AUC, average precision and the contribution vectors are uninterpreted functions that may fail. No property of the trained models themselves is stated.
- Floating point: every float is an exact real, so the model does not capture IEEE rounding in means, in `round()` of binary fractions or in comparisons such as `> 0.3`.
- Models.SortByMagnitude: Python's `list.sort` is stable. The model's insertion sort is stable by construction, but stability is not proved as a separate property.
- Records.SortByKey: pandas' default sort is not guaranteed stable. The model uses a stable sort, which differs only for duplicate date keys; document ids make those impossible in the batch.
- Dates.ParseDateKey: only canonical `YYYY-MM-DD` keys with years 1..9999 parse. pandas accepts other spellings and raises outside its nanosecond timestamp range (1677 to 2262).
- Dates.DateKey: it always pads the year to four digits, while `strftime("%Y")` does not pad years below 1000.
- The random generator: `random.Random(seed)` is a stream of draws in [0, 1), one per call, consumed in call order. The Mersenne Twister itself, and `randint`'s rejection sampling, are not modelled.
- `generate_advice`'s `risk_threshold` parameter is never read by the source, so the model has no counterpart.
- In the batch every row has a mood, so the `dropna(subset=["moodScore"])` in `generate_advice` and its second length check are the identity and the first check. The model applies the rules to all rows.
- A `sleep` field that is present but not a map raises `AttributeError` in the read loop. Only the null case is modelled; every other value is treated as a map.
- Advice text: each message is modelled by the numbers it carries, not by its Japanese wording or its number formatting.
- `main()` and the printing part of `demo_local.py` are not modelled.
- Demo.GenerateTestData: requires n_days to be at most the ordinal of today. For more days the source's `timedelta` subtraction raises `OverflowError` before year 1; that error is not modelled.

## Findings

| source | as written | input that shows it | evidently intended | confidence | as-written member | corrected member |
|---|---|---|---|---|---|---|
| backend/advice.py:51-52 | The bedtime minute is `int((rec_hours % 1) * 60)`, the minutes of the sleep length, while the hour is that of 31 - rec_hours. | `rec_hours = 7.2`: the message says 23:12, and 7.2 h from 23:12 ends at 6:24. | The bedtime 7:00 minus `rec_hours`, i.e. 23:48 for 7.2 h. | not executed | `Advice.BedtimeAsWrittenMisses` | `Advice.BedtimeWakesAtSeven` |

`Advice.SleepRule`, and so the advice the batch writes, keeps the bedtime as written (`Advice.BedHourAsWritten`, `Advice.BedMinuteAsWritten`). The corrected bedtime (`Advice.BedHour`, `Advice.BedMinute`) is proved to end at 7:00 in `Advice.BedtimeWakesAtSeven`.
