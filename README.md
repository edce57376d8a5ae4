# Learner dashboard analytics — a Dafny model

This project models the analytics of a language-learning web application. The
student dashboard shows:

- per-area scores for speaking, writing, quiz and handwritten work;
- the current daily streak;
- the weekly goal;
- the ten most recent submissions;
- a four-series score chart over a shared date axis;
- the strongest and weakest area;
- a recommended next step.

The other analytics are:

- the speaking page's average, last practice day and recording count;
- the status counts of the assignments page;
- the instructor dashboard's class summary and its 7-day sparkline;
- quiz scoring, which checks answers case-insensitively and computes the final percentage.

In the application each block sits inside a web route. The model lifts each
one into a Dafny function or method over records that are already loaded:

- Dashboard timestamps become integer day ordinals. Day 1 is Monday 1 January of year 1, so `weekday(d) = (d + 6) % 7`. The assignments page is the exception: it compares full timestamps, so its due times and `now` stay timestamps.
- The wall clock becomes an explicit `today` or `now` parameter.
- The question bank becomes a map from question id to correct answer.

Scores are exact reals. `round(x, 1)` is modelled by `Scores.RoundTenth`.

The blocks that update state step by step are Dafny methods with loops,
proved against specification functions:

- the streak's backward scan (`Streak.CurrentStreak`);
- the per-date dictionaries (`Chart.BucketByDay`);
- the sorted union of dates (`Chart.AddDays`);
- the chart append loop (`Chart.BuildChart`);
- the instructor's per-day counters (`Instructor.BuildSparkline`);
- the quiz scoring loop (`QuizScoring.CalculateFinalScore`).

Everything else is a pure function.

Modules and files:

| file | module | models |
|---|---|---|
| scores.dfy | Scores | sum, mean, rounding to tenths, "average or 0.0" |
| records.dfy | Records | submissions, grades, quiz attempts, graded filters |
| area_averages.dfy | AreaAverages | the four area averages, the overall average, the speaking page |
| streak.dfy | Streak | the current streak |
| weekly_goal.dfy | WeeklyGoal | the Monday-anchored weekly goal |
| recent.dfy | Recent | the last-ten window |
| chart.dfy | Chart | per-day buckets, the sorted date axis, the four aligned series |
| insights.dfy | Insights | strongest and weakest area, recommended next step |
| instructor.dfy | Instructor | class summary and 7-day sparkline |
| assignments.dfy | Assignments | pending / completed split against `now` |
| quiz_scoring.dfy | QuizScoring | `check_answer` and `calculate_final_score` |

`services/quiz_service.py` contains unresolved merge-conflict markers. The
model follows the second side, lines 65-143, where submitted answers are keyed
by `str(question_id)`.

Points where the code's behaviour is easy to misread:

- Insights compare only areas whose score passes `v > 0`, as the code tests. For non-negative scores this is the same as leaving out the areas that score 0.
- A speaking recording counts toward the speaking average only when both sub-scores are truthy. So not only a missing sub-score but also a sub-score of 0 excludes the recording. The chart, by contrast, uses `is not None`, so the model keeps two filters: `AreaAverages.CountsForSpeakingAverage` and `Chart.ChartedSpeaking`.
- Quiz scores may be missing. Those quizzes are skipped by the quiz average and by the chart.
- Rounding is Python's `round`, which works on binary floats and rounds exact ties to even. See "Left out".
- Ties between areas are broken by dict order: Speaking, Writing, Quiz, Handwritten. This is what Python's `max` / `min` do over the dict.
- "Start Your First Activity" is the recommendation that is left when every earlier rule fails. So it is shown only to learners who already have graded speaking and graded writing, both at 70 or above, and at least one quiz. `Insights.StudentInsights` ties the dashboard's recommendation to the chain `Insights.NextStepFor`, which states this.

## Model

| member | source | states |
|---|---|---|
| Scores.RoundTenth | app.py:139 | `round(x, 1)` lies within 0.05 of `x` and is a whole number of tenths |
| Scores.RoundTenthInRange | app.py:139 | rounding a score in [0, 100] stays in [0, 100] |
| Scores.RoundTenthOfTenths | app.py:139 | a value that already is a whole number of tenths is unchanged by rounding |
| Scores.MeanBetween | app.py:139 | the mean of scores lies between any lower and upper bound of the scores |
| Scores.AverageOrZero | app.py:135 | the `round(sum/len, 1) if xs else 0.0` pattern: 0.0 exactly on empty input, otherwise within 0.05 of the mean, and in [0, 100] for valid scores |
| Records.GradedOfType | app.py:138 | the graded submissions of one type: each result has that type and a grade and comes from the input, and every such input submission is in the result |
| Records.GradeScores | app.py:352 | one score per graded submission, never more than the submissions, in [0, 100] for valid input |
| Records.UngradedCount | app.py:612 | ungraded count plus graded count equals the total |
| AreaAverages.SpeakingValue | app.py:134 | the per-recording speaking score lies between its two sub-scores and in [0, 100] |
| AreaAverages.SpeakingHead | app.py:133-134 | a submission adds one value to the speaking average exactly when it is a graded speaking recording with both sub-scores truthy, and none otherwise |
| AreaAverages.SpeakingAverageValues | app.py:128-134 | the values of the speaking average are at most one per submission, all in [0, 100] |
| AreaAverages.SpeakingAverage | app.py:129-135 | speaking score is 0.0 with no qualifying recording, otherwise within 0.05 of the mean of the qualifying values, in [0, 100] |
| AreaAverages.SpeakingValuesAppend | app.py:131-134 | the qualifying speaking values of two joined lists are the two lists' values joined |
| AreaAverages.ZeroSubScoreIgnored | app.py:133 | a graded speaking recording with a zero sub-score changes neither the values nor the speaking average, wherever it sits |
| AreaAverages.TypeAverage | app.py:138-139 | writing (and handwritten) score is 0.0 with no graded submission of that type, else within 0.05 of the mean of their scores, in [0, 100] |
| AreaAverages.GradedScoresAll | app.py:139 | every submission of a graded list contributes exactly its own score, in order |
| AreaAverages.QuizScores | app.py:290 | scores of quizzes whose score is set, at most one per quiz, in [0, 100] |
| AreaAverages.QuizScoresAll | app.py:290 | when every quiz is scored, the score list is exactly the quizzes' scores, in order |
| AreaAverages.QuizAverage | app.py:288-291 | quiz score is 0.0 with no quiz or no scored quiz, else within 0.05 of the plain mean of the scored quizzes, in [0, 100] |
| AreaAverages.GradedAverage | app.py:352-353 | overall average is 0.0 with nothing graded, else within 0.05 of the mean over all graded scores, in [0, 100] |
| AreaAverages.LastDay | app.py:419 | the latest day is absent exactly for an empty list, is some element's day, and no element is later |
| AreaAverages.SpeakingPage | app.py:405-422 | recordings = graded speaking submissions; the average is the dashboard's speaking score; last practice is the latest day among the graded recordings (`LastDay`), absent exactly when there is no recording |
| Streak.SubmissionDays | app.py:149-151 | the set of submission days: every submission's day is in it, each of its days is some submission's, and it is empty exactly when there are no submissions |
| Streak.CurrentStreak | app.py:147-159 | the backward scan returns the k with today .. today-k+1 all active and today-k inactive; 0 exactly when today has no submission |
| Streak.StreakAtMostActiveDays | app.py:150-159 | a streak never exceeds the number of distinct active days |
| Streak.StreakUnique | app.py:157-159 | at most one k satisfies the streak characterisation |
| WeeklyGoal.Weekday | app.py:163 | `weekday()` lies in 0..6 |
| WeeklyGoal.WeekStart | app.py:163 | week start is a Monday, at most six days before today, and today minus it is today's weekday |
| WeeklyGoal.CountFrom | app.py:164-165 | the weekly count never exceeds the submissions |
| WeeklyGoal.EarlierSubmissionsIgnored | app.py:164 | submissions before the week start add nothing to the weekly count |
| WeeklyGoal.ThisWeekAllCount | app.py:164 | when every submission is in the current week, all of them count |
| WeeklyGoal.Percent | app.py:167 | percentage is in [0, 100], is 100 exactly when current reaches the target, and otherwise is the floor of current·100/target |
| WeeklyGoal.Progress | app.py:166-168 | clamped percentage (0 for a non-positive target) and remaining = max(0, target - current): 0 exactly when the goal is met, else what is missing |
| WeeklyGoal.WeeklyProgress | app.py:161-168 | with target 5: current counts submissions since Monday; percentage is 20·current capped at 100; remaining is 5 - current floored at 0 |
| Recent.RecentSubmissions | app.py:171 | the result is a suffix of the submissions of length min(10, n) |
| Recent.RecentIdempotent | app.py:171 | taking the recent window twice equals taking it once |
| Recent.RecentSnoc | app.py:171 | a new submission enters the window at the end; the oldest leaves only when the window was full |
| Chart.EventDaysAppend | app.py:190-214 | the days of joined event streams are the union of their days |
| Chart.ValuesOn | app.py:220-252 | a day's bucket is empty exactly when no event falls on that day; its values are in [0, 100] for valid events |
| Chart.DaySlot | app.py:259-262 | a chart slot is 0 on a day without events, otherwise within 0.05 of the day's mean, in [0, 100] |
| Chart.SpeakingEvents | app.py:225-231 | charted speaking events: at most one per submission, values in [0, 100] |
| Chart.ScoreEvents | app.py:233-245 | writing / handwritten events: at most one per submission, values in [0, 100] |
| Chart.QuizEvents | app.py:247-252 | quiz events (date and score set): at most one per quiz, values in [0, 100] |
| Chart.ChartedSpeakingDay | app.py:193-196 | every recording with both sub-scores present puts its day on the chart axis |
| Chart.ZeroSubScoreCharted | app.py:194 | a recording with a zero pronunciation or a zero fluency score (the other present) is left out of the speaking average yet still plotted on its day |
| Chart.BucketByDay | app.py:225-231 | the per-date dict has exactly the event days as keys and maps each day to its values in arrival order |
| Chart.BucketsSnoc | app.py:229-231 | appending one event extends its day's list, creating it when missing |
| Chart.InsertDay | app.py:196 | adding a day to a sorted, duplicate-free axis keeps it sorted and duplicate-free and adds exactly that day |
| Chart.AddDays | app.py:190-217 | the axis stays strictly ascending and holds exactly the old days plus the stream's days |
| Chart.AscendingUnique | app.py:217 | a strictly ascending sequence is determined by its elements, so `sorted(all_dates)` is pinned down |
| Chart.BucketSlotIsDaySlot | app.py:259-262 | the slot read from a bucket dict equals the slot defined from the events |
| Chart.BucketSeriesSnoc | app.py:259-262 | appending the slot read from a stream's bucket dict keeps that series aligned with the dates |
| Chart.SeriesInRange | app.py:255-280 | every slot of a series over valid scores is in [0, 100] |
| Chart.FillSeries | app.py:255-280 | the loop over the sorted dates: the four lists it appends are index-aligned to the dates, slot i the rounded mean of that stream's day or 0 |
| Chart.BuildChart | app.py:189-280 | dates strictly ascending, exactly the days with an event in any of the four streams; each series has one slot per date, slot i = the rounded mean of that area on dates[i], or 0 |
| Chart.StudentChart | app.py:176-280 | the dashboard chart over the student's submissions and quizzes, aligned as above, every slot in [0, 100] for valid input |
| Insights.AreaScoresOf | app.py:294-299 | the four area scores are in [0, 100] for valid input |
| Insights.PositiveAreas | app.py:302 | the filtered dict's keys: an area is in it exactly when its score is above 0 |
| Insights.FirstMaxIndex | app.py:305 | `max(d, key=d.get)`: a greatest score, strictly greater than every earlier one |
| Insights.FirstMinIndex | app.py:306 | `min(d, key=d.get)`: a least score, strictly smaller than every earlier one |
| Insights.PositiveAreasFacts | app.py:302 | the filtered areas are exactly those scoring above 0, in dict order |
| Insights.AreaInsight | app.py:301-314 | the filtered list is empty exactly when no area is positive, and then the fixed fallback Speaking/Handwritten with 0.0 is returned; otherwise both picks are positive areas reported with their own scores |
| Insights.AreaInsightOrder | app.py:302-308 | with some positive area: weakest ≤ every positive area ≤ strongest, and an earlier-ranked area is strictly worse than the strongest and strictly better than the weakest, so ties go to the earliest area |
| Insights.PositiveIndexOrder | app.py:302 | an area ranked earlier sits at an earlier position of the filtered dict |
| Insights.NextStepFor | app.py:316-333 | each recommendation holds exactly when the first-match-wins chain reaches it (four if-and-only-if clauses) |
| Insights.StudentInsights | app.py:293-333 | the scores are the four area averages, the insight is `AreaInsight` of them, and the recommendation is the first-match chain fed with "has graded speaking", "has graded writing", the two scores and the quiz count; "Start Your First Activity" requires graded speaking, graded writing and a quiz; "Improve Your Speaking" exactly when speaking is ungraded or writing is graded and speaking < 70 |
| Insights.ExampleSpeakingScore | app.py:128-135 | speaking 80/60 gives a speaking score of 70.0 |
| Insights.ExampleWritingScore | app.py:138-139 | writing graded 90 gives a writing score of 90.0, and no handwritten work gives 0.0 |
| Insights.TwoSubmissionExample | app.py:128-333 | speaking 80/60 plus writing 90 without quizzes gives scores 70.0 and 90.0, Writing strongest, Speaking weakest, and "Take a Quiz" |
| Instructor.Students | app.py:611 | the distinct students are at most the submissions and at least one when there is any |
| Instructor.ClassSummary | app.py:608-612 | class average as the graded average (in [0, 100]), active count = distinct students (positive exactly when there is a submission), pending = total - graded |
| Instructor.CountOn | app.py:627 | a day's submission count never exceeds the submissions |
| Instructor.PendingOn | app.py:628-629 | a day's pending count never exceeds that day's submissions |
| Instructor.ScoresOn | app.py:630-631 | a day's graded scores plus its pending count make up that day's submissions; scores in [0, 100] |
| Instructor.StudentsOn | app.py:632 | a day's distinct students never exceed that day's submissions |
| Instructor.DayFiguresSnoc | app.py:624-632 | one more submission changes the four figures of its own day only |
| Instructor.CountTallySnoc | app.py:626-627 | the submission counter stays equal to the per-day count over the window |
| Instructor.PendingTallySnoc | app.py:628-629 | the pending counter stays equal to the per-day pending count |
| Instructor.ScoreTallySnoc | app.py:630-631 | the score lists stay equal to the per-day graded scores |
| Instructor.StudentTallySnoc | app.py:632 | the student sets stay equal to the per-day distinct students |
| Instructor.TallyWindow | app.py:619-632 | after the loop, each of the four dicts agrees on every window day with the per-day count, pending count, graded scores and distinct students |
| Instructor.BuildSparkline | app.py:614-640 | four arrays of length 7 for today-6 .. today: per-day counts, pending, rounded average (0.0 when nothing is graded that day, in [0, 100]) and distinct students; pending and students never exceed submissions |
| Assignments.Pending | app.py:390 | pending = the activities with a due date on or after now |
| Assignments.Completed | app.py:391 | completed = the activities with a due date before now |
| Assignments.Undated | app.py:390-391 | the activities without due date, which are in neither count |
| Assignments.StatusPartition | app.py:389-391 | pending + completed + undated = all, and no undated activity exactly when every activity has a due date |
| Assignments.AssignmentStatus | app.py:388-391 | all = every activity, pending = the size of `Pending`, completed = the size of `Completed`; pending + completed + undated = all, and pending + completed = all exactly when every activity has a due date |
| Assignments.PendingShrinks | app.py:390-391 | as now advances, pending never grows, completed never shrinks, their sum is unchanged |
| QuizScoring.Upper | services/quiz_service.py:90 | upper-casing keeps the length and maps each letter |
| QuizScoring.UpperIdempotent | services/quiz_service.py:90 | upper-casing twice equals once |
| QuizScoring.UpperOfLower | services/quiz_service.py:90 | lower-casing first does not change the upper-cased form |
| QuizScoring.NatString | services/quiz_service.py:102 | `str` of a natural number is a non-empty string of digits |
| QuizScoring.DecimalString | services/quiz_service.py:102 | `str(q_id)`: a non-empty numeral, digits only for a non-negative id, a minus sign and digits otherwise |
| QuizScoring.DecimalRoundTrip | services/quiz_service.py:102 | reading `str(n)` back gives n |
| QuizScoring.DecimalStringInjective | services/quiz_service.py:102 | distinct question ids give distinct answer keys |
| QuizScoring.CheckAnswer | services/quiz_service.py:81-90 | an unknown question is never answered correctly |
| QuizScoring.CorrectAnswerAccepted | services/quiz_service.py:90 | the correct answer as stored, upper-cased or lower-cased is accepted |
| QuizScoring.WrongAnswerRejected | services/quiz_service.py:85-90 | a known question answered with something that differs from the correct answer after upper-casing is rejected |
| QuizScoring.CheckIgnoresCase | services/quiz_service.py:90 | answers equal after upper-casing get the same verdict |
| QuizScoring.Scored | services/quiz_service.py:102-105 | a question scores only when its `str` key is answered, the question is known, and the answer matches after upper-casing |
| QuizScoring.AnsweredCount | services/quiz_service.py:102-103 | answered questions never exceed the questions |
| QuizScoring.KnownCount | services/quiz_service.py:104 | known questions never exceed the questions |
| QuizScoring.CountCorrect | services/quiz_service.py:98-106 | correct answers never exceed the answered questions, nor the known ones, nor the total |
| QuizScoring.CountCorrectAppend | services/quiz_service.py:101-106 | the correct count of joined question lists is the sum of the two counts |
| QuizScoring.IgnoredQuestion | services/quiz_service.py:102-105 | an unanswered, unknown or wrongly answered question adds nothing, wherever it sits |
| QuizScoring.AllCorrect | services/quiz_service.py:101-106 | when every question is answered and matches, correct = total |
| QuizScoring.FinalPercentage | services/quiz_service.py:108 | 0 with no questions; otherwise within 0.05 of correct/total·100; in [0, 100]; 0 with nothing correct and 100 with everything correct |
| QuizScoring.CalculateFinalScore | services/quiz_service.py:93-109 | total = number of ids, correct = the count of answered, known, matching ids, correct ≤ total, score = the final percentage in [0, 100] |

## Left out

- Scores.RoundTenth: rounds exact reals with ties going up, while Python's `round` works on binary floats and rounds ties to even. Its result is a whole number of tenths in (x - 0.05, x + 0.05] and stays in [0, 100]. The strict lower bound holds for this rounding but not always for Python's: on a tie that is exact in binary, Python can return exactly x - 0.05. For example 1 correct answer out of 16 gives `round(6.25, 1) == 6.2`, where the model gives 6.3. The same difference carries over to every average and percentage built on it.
- Floating point: scores, sums and means are exact reals, so float error in `sum` and `/` is not modelled. The weekly percentage `int((c / 5) * 100)` is exact in floats for c ≤ 5, and larger counts are clamped to 100.
- QuizScoring.Upper: ASCII only. Python's `str.upper` also maps non-ASCII letters, some to several characters (e.g. 'ß').
- QuizScoring.FinalPercentage: returns 0.0 where the code returns the integer 0 for an empty quiz.
- Chart.DaySlot: a day without events gets the slot 0.0, where the code appends the integer 0. `Chart.BucketSlot` does the same. Both are the number zero; only the Python type differs.
- Date labels: the `strftime` formatting of chart and speaking-page dates is left out. The model keeps the day ordinals the labels are made from.
- Timestamps: each dashboard timestamp is reduced to its UTC day. The assignments page keeps full timestamps for `due_date` and `now`, since it compares them as datetimes. `datetime.utcnow()` becomes a parameter. A quiz's `date_taken` is taken already reduced to a day, whether it was a date or a datetime.
- Grade scores: a grade's overall score is taken as always set. The averages sum it unguarded, so a missing score would raise.
- Database access: queries, ordering and commits are left out. Each input sequence is taken in the order its query returns.
- The dashboard's `pending_activities` query: this database filter applies the same rule as `Assignments.Pending`.
- The web layer: routes, templates, authentication, uploads and text extraction are not part of this model.
- AI grading: the service and the configuration are not part of this model.
- Quiz helpers: `get_questions`, `save_result` and the first side of the merge conflict in `services/quiz_service.py` are not part of this model.
