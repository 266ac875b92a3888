# Student performance analysis: scoring, prediction and study planning

A Dafny model of the core of a student-performance web application. Its
backend is an Express/Mongoose service and its frontend is a React board.

- **Scoring** (`scoring.dfy`) is the weighted-score and grade calculation.
  The score weighs attendance 15%, assignments 20%, internal marks 25%,
  projects 15% and the final exam 25%. The grade bands are 85 / 70 / 55 / 40.
  `addPerformance` and the fallback of `predictPerformance` both compute it.
  The model proves that the two agree.
- **Performance** (`performance.dfy`) holds the performance collection as a
  class whose sequence of records grows on `create`.
  - `addPerformance` stores the grade it computed itself. It answers 500 when
    the schema rejects the record.
  - `getStudentPerformance` lists a student's records newest first.
- **Prediction** (`prediction.dfy`) is `predictPerformance`.
  - A missing metric answers 400.
  - Otherwise the service's text has its code fences stripped and is parsed.
  - When the call or the parse fails, the fallback applies. It gives the
    scoring engine's grade and score, confidence 85, and the remediation
    suggestions. The suggestions fire in a fixed rule order, with an
    encouragement when none fires, and are cut to three.
  - A record is stored only when a student is named.
- **Study plan** (`study_plan.dfy`) is `generateStudyPlan`.
  1. The student's records are aggregated per subject, in a loop that updates
     a tally map in place.
  2. The three subjects with the lowest final-exam average are picked. With
     no record the answer is 400.
  3. The service's goals are saved when it answers.
  4. On a rate-limit error (status 429 or 503, or a message containing
     "429"), the templated fallback goals are saved instead. These are one
     review goal per weak subject, due in a week, plus a practice goal for the
     weakest subject, due in three days.
  5. Any other failure, including an unparsable answer, is a 500.
- **Goals** (`goals.dfy`) is the goal collection. `getGoals` sorts it by
  deadline, ascending.
- **Planner** (`planner.dfy`) is the study planner board. It has three status
  columns, each with a count badge and a "No items" placeholder, and the
  status buttons on each card.
- `text.dfy` has the code-fence stripping and trimming. `seqs.dfy` has the
  generic sequence functions (filter, take, stable insertion sort).
  `wrappers.dfy` has `Option`, `Result` and the HTTP and service error
  values.

The text-generation service and `JSON.parse` are parameters. The service is a
`Result<string, AiError>` and the parser is a partial function
`string -> Option<...>`. "Now" is an integer parameter, in milliseconds.

The prompt asks the service for three suggestions
(`backend/controllers/predictionController.js:41`). Only the fallback cuts its
list to three (`:103`). The service's list is passed on as it comes, or as an
empty list when it is missing (`:71`).

## Model

| member | source | states |
|---|---|---|
| Scoring.WeightedScore | backend/controllers/performanceController.js:20-25 | for metrics in [0, 100], the weighted score is in [0, 100] |
| Scoring.CalculateGrade | backend/controllers/performanceController.js:27-31 | the grade is the one whose band (≥85 A, ≥70 B, ≥55 C, ≥40 D, else F) holds the weighted score, and no other grade's band does |
| Scoring.GradeMonotone | backend/controllers/performanceController.js:18-32 | raising any metric never lowers the grade |
| Scoring.GradeBoundaries | backend/controllers/performanceController.js:27-31 | scores exactly on 85, 70, 55 and 40 take the higher grade; just below, the lower one |
| Prediction.FallbackPrediction | backend/controllers/predictionController.js:78-104 | the fallback's if/else grade chain yields the same letter as calculateGrade. The fallback gives the same score as the weighted score, confidence 85, and the suggestion list |
| Prediction.FallbackSuggestions | backend/controllers/predictionController.js:92-97 | the list built by the pushes and the slice equals the rule-order suggestion list cut to three |
| Prediction.PushFired | backend/controllers/predictionController.js:93-96 | the four conditional pushes yield exactly the texts of the fired rules, in rule order |
| Prediction.SuggestionsExact | backend/controllers/predictionController.js:93-97 | each remediation message is suggested iff its metric is under its threshold (75/70/60). The project message appears iff it fires and fewer than three earlier rules fired. The encouragement appears iff no rule fires |
| Prediction.SuggestionsInRuleOrder | backend/controllers/predictionController.js:92-103 | suggestions keep the rule order and never repeat |
| Prediction.SuggestionTexts | backend/controllers/predictionController.js:93-97 | a message text is in the answer iff its advice was suggested (the texts are pairwise distinct) |
| Prediction.AdviceTextInjective | backend/controllers/predictionController.js:93-97 | distinct advice has distinct texts |
| Prediction.SuggestionExamples | backend/controllers/predictionController.js:93-97 | low attendance alone gives only the attendance message; all metrics high give only the encouragement |
| Prediction.PredictionOf | backend/controllers/predictionController.js:59-105 | a failed call or unparsable text yields the fallback's grade, score, confidence and suggestions. A parsed answer yields its grade, confidence and value, with missing suggestions read as an empty list |
| Prediction.FallbackGuarantees | backend/controllers/predictionController.js:99-104 | without a usable answer: a letter grade, a score in [0, 100] for valid metrics, confidence 85, and one to three suggestions |
| Prediction.MetricsOf | backend/controllers/predictionController.js:23 | the metrics are available iff none of the five is missing, and then they are the five submitted values |
| Prediction.PredictPerformance | backend/controllers/predictionController.js:11-145 | a missing metric gives 400 and stores nothing. Otherwise the answer is the prediction with its success message. A record (subject "General Performance", the answered grade) is appended iff a non-empty student is named. A record the store rejects gives 500 |
| Text.StripCodeFences | backend/controllers/predictionController.js:64 | the stripped text is no longer than the input and contains no fence |
| Text.StripIdempotent | backend/controllers/predictionController.js:64 | stripping twice is stripping once |
| Text.StripUnfenced | backend/controllers/studyGoalController.js:118 | text without a fence is only trimmed |
| Text.RemoveFenceLeavesNone | backend/controllers/predictionController.js:64 | removing every fence leaves no fence, even where removal joins backticks |
| Text.TrimIdempotent | backend/controllers/predictionController.js:64 | trimming is idempotent |
| Performance.PerformanceStore.Create | backend/models/Performance.js:3-50 | a record passing the schema (non-empty student and subject, every metric in [0, 100]) is appended; any other leaves the store unchanged |
| Performance.PerformanceStore.RecordsOf | backend/controllers/performanceController.js:71 | exactly the stored records of the student: each of them as many times as it is stored, and no other record |
| Performance.PerformanceStore.NewestFirst | backend/controllers/performanceController.js:71-73 | the student's records, as a permutation, with `createdAt` non-increasing |
| Performance.RecordToAdd | backend/controllers/performanceController.js:34-52 | a record exists iff all five metrics are sent. It has the sent metrics, student, subject and time, and the grade computed from its metrics |
| Performance.StoredGradeIgnoresRequestGrade | backend/controllers/performanceController.js:7-15 | a grade in the request body does not change what is stored |
| Performance.AddPerformance | backend/controllers/performanceController.js:5-65 | a valid record is appended and returned. Otherwise the answer is 500 and the store is unchanged |
| Goals.GoalStore.SaveAll | backend/controllers/studyGoalController.js:130-140 | the goals are saved, and returned, in their given order |
| Goals.GoalStore.Save | backend/controllers/studyGoalController.js:139 | saving a goal appends it to the collection and changes nothing else |
| Goals.GoalStore.GoalsOf | backend/controllers/studyGoalController.js:13 | exactly the stored goals of the student: each of them as many times as it is stored, and no other goal |
| Goals.GoalStore.GoalsByDeadline | backend/controllers/studyGoalController.js:13 | the student's goals, as a permutation, with deadlines ascending |
| StudyPlan.SubjectsInOrder | backend/controllers/studyGoalController.js:75-82 | the subjects without repeats. Every record's subject is among them, each has at least one record, and there are none iff there are no records |
| StudyPlan.SubjectsFirstSeen | backend/controllers/studyGoalController.js:76-79 | each subject has a record, and the subjects come in the order of their first records, as the keys of the accumulator object are created |
| StudyPlan.AggregateBySubject | backend/controllers/studyGoalController.js:75-82 | the in-place tally loop ends with the first-seen subject order, and for each subject the sum of its final-exam marks and its record count |
| StudyPlan.CountsCoverRecords | backend/controllers/studyGoalController.js:76-82 | the per-subject counts add up to the number of records |
| StudyPlan.Averages | backend/controllers/studyGoalController.js:84-88 | one average per subject, in key order |
| StudyPlan.RankWeakestKeepsLowest | backend/controllers/studyGoalController.js:89-91 | the ranking takes min(n, 3) distinct subjects, each the subject of one of the averaged entries, in ascending order of average. Every entry left out has an average at least as high |
| StudyPlan.WeakSubjectsCount | backend/controllers/studyGoalController.js:84-95 | at most three distinct aggregated subjects, and none iff the student has no records |
| StudyPlan.WeakestChosen | backend/controllers/studyGoalController.js:84-91 | the weak subjects ascend by average, and no subject left out has a lower average than a chosen one |
| StudyPlan.FindWeakSubjects | backend/controllers/studyGoalController.js:71-91 | the loop's aggregation followed by the ranking gives the weak subjects |
| StudyPlan.FallbackGoals | backend/controllers/studyGoalController.js:151-170 | one review goal per weak subject in order, then a practice goal for the weakest |
| StudyPlan.FallbackPlanShape | backend/controllers/studyGoalController.js:151-170 | the fallback plan has one goal more than the weak subjects. All its goals are pending and the student's, due between 3 and 7 days from now. Only the last is high priority, and it is for the weakest subject; the others are medium priority for each weak subject |
| StudyPlan.FallbackPlanExample | backend/controllers/studyGoalController.js:160-169 | for three weak subjects: four goals, the last practising the weakest, due in 259200000 ms |
| StudyPlan.FromAiGoal | backend/controllers/studyGoalController.js:131-138 | a goal from the service keeps its subject, topic, deadline and priority, and becomes the student's, pending |
| StudyPlan.AiPlan | backend/controllers/studyGoalController.js:130-140 | every goal from the service is turned into a stored goal, in order |
| StudyPlan.AiOutcome | backend/controllers/studyGoalController.js:116-127 | a service error passes through; unparsable text becomes the parse-failure error, which carries no status |
| StudyPlan.RateLimitTrigger | backend/controllers/studyGoalController.js:148 | the fallback applies to status 429 or 503 whatever the message, and to any message containing "429". It does not apply to another status whose message has no digit 4 |
| StudyPlan.ParseFailureIsNotRateLimited | backend/controllers/studyGoalController.js:126 | the parse-failure error never triggers the fallback, so it ends in a 500 |
| StudyPlan.PlanFor | backend/controllers/studyGoalController.js:116-188 | goals from the service are saved and answered. A rate-limit error saves and answers the fallback plan. Any other error is 500 and saves nothing. The store grows by exactly what is answered |
| StudyPlan.GenerateStudyPlan | backend/controllers/studyGoalController.js:65-189 | no weak subject gives 400 and leaves the goals unchanged. Otherwise the plan is answered for the student's weak subjects, as `PlanFor` states |
| Planner.ColumnTitle | frontend/src/components/StudyPlanner.jsx:188 | a heading is its status value with the dash replaced by a space |
| Planner.ColumnOfStatus | frontend/src/components/StudyPlanner.jsx:195 | a goal is in a column iff it has the column's status |
| Planner.ColumnsPartition | frontend/src/components/StudyPlanner.jsx:185-195 | the three columns together show every goal exactly once |
| Planner.BadgeCountsStatus | frontend/src/components/StudyPlanner.jsx:190 | a badge counts the goals with its column's status |
| Planner.BadgesAddUp | frontend/src/components/StudyPlanner.jsx:185-190 | the three badges add up to the number of goals |
| Planner.PlaceholderWhenEmpty | frontend/src/components/StudyPlanner.jsx:243-245 | "No items" shows iff no goal has the column's status |
| Planner.OfferedActions | frontend/src/components/StudyPlanner.jsx:216-239 | "←" shows on every column but pending, "Start" only on pending, "Complete" only on in-progress, each at most once |
| Planner.MovesExactly | frontend/src/components/StudyPlanner.jsx:216-239 | the moves are exactly pending→in-progress, in-progress→pending, in-progress→completed and completed→pending |
| Planner.ConnectedBoard | frontend/src/components/StudyPlanner.jsx:216-239 | every status reaches every other in at most two moves |

## Left out

- Scores and marks are exact reals. IEEE-754 rounding of the decimal weights
  is not modelled, so a JavaScript score just below a band boundary (for
  example 84.999…) may grade lower than the model says.
- `Number()` coercion, `null`, strings and `NaN` in request bodies are not
  modelled. A field is either missing (`undefined`) or a number.
- The text-generation service is an input value, and `JSON.parse` is an
  abstract parser parameter. The prompts and the model names are left out.
- Console logging is left out, and so is the `error` detail field of 500
  answers.
- Mongoose behaviour is reduced to a sequence that records are appended to.
  - Casting `studentId` to an ObjectId is reduced to "non-empty".
  - `populate` is left out.
  - A failing `find` is not modelled.
- `backend/models/StudyGoal.js` is not part of this model. Goal saves
  therefore always succeed. The 500 for a failed fallback save
  (`studyGoalController.js:178-181`) is not modelled.
- The saves inside `Promise.all` run one after another, in order. Only their
  result order is modelled, not their concurrency.
- `Object.keys` lists the subjects in first-seen order. Its special order for
  integer-like keys and prototype-named subjects is not modelled.
- StudyPlan.RankWeakestKeepsLowest: does not state the order of subjects with
  equal averages. The insertion sort used is stable, but that stability is
  not proved.
- StudyPlan.FallbackGoals: both fallback deadlines use one `now`. The code
  reads the clock twice, a moment apart.
- StudyPlan.AiPlan: the service's deadline is taken as an already-converted
  integer. The conversion by `new Date(...)` is not modelled.
- Goals carry one of the three statuses the board shows. The goal schema is
  not part of this model, and `updateGoal` (`studyGoalController.js:43-47`)
  writes whatever the request body holds. A goal with any other status would
  appear in no column, and the badges would then add up to fewer than the
  number of goals.
- `createGoal`, `updateGoal` and `deleteGoal` are not modelled. They are thin
  CRUD wrappers over the store.
- The board's rendering, its React state and the requests its buttons send
  are not modelled.
- Registration, login, routing and the server setup are not modelled.
