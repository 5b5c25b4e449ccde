# Course recommendation engine — a verified model

This project models the core of a course recommender for students:

- **The scoring engine.** `CourseRecommendationEngine` in `backend/recommendation_algorithm.py` gives each catalog course a confidence score from the student's GPA, major, career interests, learning style and weekly study hours. It explains each score in a short text. It returns the best courses, ranked.
- **The PHP invoker.** `getRecommendations` in `backend/api.php` reads a stored profile and fills in its defaults. It runs the engine under the interpreters `python3`, `python` and `py` in turn until one succeeds. It removes its temporary file and classifies the outcome.
- **The dashboard helpers.** These are the pure parts of `assets/js/dashboard.js`: the confidence badge colour, the required/electives filter, the catalog search, the course-details lookup and the parsing of the profile form.

Each file is one module:

- `common.dfy`: shared types, string order, join, lower-casing and whitespace.
- `scoring.dfy`: input normalisation and the five sub-scores.
- `catalog.dfy`: course records, the built-in catalog and the major table.
- `ranking.dfy`: the output order, specified by an insertion sort, and the truncation.
- `engine.dfy`: confidence, reasoning and the `generate_recommendations` pipeline.
- `invoker.dfy`: `getRecommendations`.
- `layout.dfy`: how Python's tokenizer reads the indentation of `backend/recommendation_algorithm.py` (see "## Findings").
- `dashboard.dfy`: badge colour, filters, search, details and the page's cached list.
- `profile_form.dfy`: comma lists and `study_hours`.

Points of the code's behaviour a reader might not expect:

- Equal confidences are ordered only by ascending course code. No major-requirement-first rule exists.
- Confidence scores are reals rounded to two decimals, not integers.
- The "General education requirement" fallback of the reasoning can never be reached from scoring: every course whose difficulty score would leave all other reasons silent has difficulty <= 2 and so gets the foundational reason (`Engine.ScoredCourseIsNeverGeneral`).
- The PHP defaults use `??`. An empty major or learning style therefore reaches the engine unchanged, and the engine's own `or` then replaces it (`Invoker.EngineSeesProfileDefaults`).

## Model

| member | source | states |
|---|---|---|
| Scoring.Normalize | backend/recommendation_algorithm.py:171-183 | Missing or unparsable gpa becomes 3.0, and missing or unparsable study hours become 10. A missing or empty major becomes "Undecided", missing or empty interests become [], and a missing or empty learning style becomes "Visual". Present values are kept. Normalisation never fails. |
| Scoring.FloatOr | backend/recommendation_algorithm.py:172-175 | `float(x)` with the fallback: the parsed value, or the default when the field is missing or rejected. Its cases are stated through `Scoring.Normalize`. |
| Scoring.TextOr | backend/recommendation_algorithm.py:177-179 | `x or default` on a string: the value unless it is missing or empty. Its cases are stated through `Scoring.Normalize`. |
| Scoring.GpaScore | backend/recommendation_algorithm.py:121-123 | The score lies in [0,1]. It equals gpa/4 on [0,4], 1 above and 0 below. |
| Scoring.GpaScoreMonotone | backend/recommendation_algorithm.py:121-123 | The GPA score is non-decreasing in the GPA. |
| Scoring.CountMatches | backend/recommendation_algorithm.py:129 | The match count is at most the number of interests. It equals that number iff every interest is listed, and is 0 iff none is. |
| Scoring.CareerScore | backend/recommendation_algorithm.py:125-130 | The score lies in [0,1]. It is 0.5 with no interests or a course relevant to "All". Otherwise it is matches/len: 1 iff every interest matches, 0 iff none does. |
| Scoring.LearningScore | backend/recommendation_algorithm.py:132-136 | An empty style scores 0.5. Otherwise the score is 1.0 iff the course lists the style, and 0.3 iff it does not. |
| Scoring.WorkloadScore | backend/recommendation_algorithm.py:138-144 | The score is 1.0 iff hours >= course hours, 0.7 iff hours fall in [0.7·course, course), and 0.4 otherwise. It lies in [0.4,1]. |
| Scoring.WorkloadScoreMonotone | backend/recommendation_algorithm.py:138-144 | The workload score is non-decreasing in the student's hours. |
| Scoring.DifficultyScore | backend/recommendation_algorithm.py:149-159 | The score lies in [0.5,1] and is the value of the first band that matches, each stated as an iff on the GPA score g: 1.0 iff g >= 0.9 and difficulty <= 4; 0.9 iff that band fails and g >= 0.75 and difficulty <= 3; 0.8 iff 0.65 <= g < 0.75 and difficulty <= 2; 0.7 iff g < 0.65 and difficulty <= 2; 0.5 iff no band matches. Difficulty <= 2 gives at least 0.7. |
| Scoring.DifficultyScoreMonotoneInGpa | backend/recommendation_algorithm.py:149-159 | A higher GPA never lowers the difficulty score. |
| Scoring.DifficultyScoreAntitoneInDifficulty | backend/recommendation_algorithm.py:149-159 | A harder course never gets a higher difficulty score. |
| Scoring.IsMajorRequirement | backend/recommendation_algorithm.py:146-147 | True iff the major is in the table and its entry lists the code. An unknown major requires nothing. |
| Catalog.BuiltinCatalogSize | backend/recommendation_algorithm.py:63-102 | The built-in catalog has 37 courses. |
| Catalog.WorkloadHoursOf | backend/recommendation_algorithm.py:190 | `float(course.get("workload_hours", 8))`: 8.0 when the key is missing, otherwise the course's number. |
| Catalog.DifficultyOf | backend/recommendation_algorithm.py:191 | `int(course.get("difficulty", 3))`: 3 when the key is missing, otherwise the number truncated toward zero (the integer nearest zero within 1 of it). |
| Engine.NewEngine | backend/recommendation_algorithm.py:38-49 | Without weights, the defaults 0.25/0.20/0.15/0.20/0.20 are used. Without a loaded `courses.json`, the built-in catalog is used. The major table is the fixed one. |
| Engine.SubScoresOf | backend/recommendation_algorithm.py:188-191 | All four sub-scores of a course lie in [0,1]. |
| Engine.BaseScore | backend/recommendation_algorithm.py:196-202 | The weighted sum of the four signals and the major signal (1.0 or 0.5). With non-negative weights and signals in [0,1], it lies between 0 and the sum of the weights. |
| Engine.WeightedSumBounded | backend/recommendation_algorithm.py:196-202 | Each product of a signal in [0,1] and a non-negative weight is at most the weight, so the sum is at most the sum of the weights. |
| Engine.Clamp | backend/recommendation_algorithm.py:206 | The result lies in [0,100] and is the identity inside that range. |
| Engine.Round2 | backend/recommendation_algorithm.py:217 | The result is within half a hundredth of x. It stays non-negative and at most 100 when x is. |
| Engine.Round2Monotone | backend/recommendation_algorithm.py:217 | Rounding to two decimals preserves order. |
| Engine.Confidence | backend/recommendation_algorithm.py:194-206 | Every confidence lies in [0,100], for any weights and sub-scores. |
| Engine.MajorRequirementNeverLowers | backend/recommendation_algorithm.py:193-204 | With non-negative weights and sub-scores in [0,1], the major signal and the 1.3 bonus never lower the confidence. |
| Engine.ThirdLetter | backend/recommendation_algorithm.py:232-248 | Each reason phrase differs from "General education requirement" in its third letter. Its third letter is 'q' iff it is the major reason. |
| Engine.Phrases | backend/recommendation_algorithm.py:230-249 | There is one phrase per reason. |
| Engine.Reasons | backend/recommendation_algorithm.py:230-248 | The reasons that fire, in the order they are appended. Its properties are stated in `Engine.ReasonsShape`. |
| Engine.ReasonsShape | backend/recommendation_algorithm.py:230-248 | At most six reasons fire. The major reason fires exactly for a major requirement, first and nowhere else. None fires exactly when career <= 0.4, learning <= 0.8, workload is in [0.5,0.8], the difficulty score is in [0.6,0.8], difficulty > 2, and the course is not a major requirement. |
| Engine.Reasoning | backend/recommendation_algorithm.py:229-249 | The text is "General education requirement" iff no reason fires. Otherwise it begins with the phrase of the first reason. |
| Engine.TextLeadsWithFirstPhrase | backend/recommendation_algorithm.py:249 | The joined text is the general-education text iff there are no reasons, and otherwise begins with the first phrase. |
| Engine.GenerateReasoning | backend/recommendation_algorithm.py:229-249 | Appending reason by reason gives the text of the reasons that fire, in source order. |
| Engine.GeneralExactlyWhenNoReason | backend/recommendation_algorithm.py:233-249 | The reasoning is "General education requirement" exactly when no reason fires: no major requirement, career <= 0.4, learning <= 0.8, workload in [0.5,0.8], difficulty score in [0.6,0.8] and difficulty > 2. |
| Engine.LeadingLetters | backend/recommendation_algorithm.py:249 | The joined text starts with its first phrase, so its third letter is that phrase's third letter. |
| Engine.MajorReasonLeadsExactlyForRequirements | backend/recommendation_algorithm.py:231-232 | "Required for {major} major" is a prefix of the reasoning iff the course is a major requirement. |
| Engine.ScoredCourseIsNeverGeneral | backend/recommendation_algorithm.py:246-249 | No scored course gets "General education requirement": a difficulty score in [0.6,0.8] only arises for difficulty <= 2, which always fires the foundational reason, so the fallback is unreachable from `generate_recommendations`. |
| Engine.ScoreCourse | backend/recommendation_algorithm.py:187-221 | The record copies the course's id, code, name, department and credits unchanged. Its confidence lies in [0,100]. Its major flag holds iff the table lists the code under the major. |
| Engine.ScoreAll | backend/recommendation_algorithm.py:187-221 | There is one record per catalog course. |
| Engine.Recommend | backend/recommendation_algorithm.py:224-225 | The result length is min(|catalog|, max(1, top_n)). |
| Engine.BuildRecord | backend/recommendation_algorithm.py:188-221 | The loop body builds the record of one course. |
| Engine.ScoreCatalog | backend/recommendation_algorithm.py:185-221 | The loop produces one record per catalog course, in catalog order. |
| Engine.GenerateRecommendations | backend/recommendation_algorithm.py:161-227 | Normalise, score, sort and slice, equal to the reference `Recommend`. |
| Engine.RecommendRankedAndBounded | backend/recommendation_algorithm.py:206-225 | The output is ordered by confidence descending, then by course code ascending. Each item is the scored record of a catalog course. Every confidence lies in [0,100]. |
| Engine.RecommendKeepsTheBest | backend/recommendation_algorithm.py:224-225 | The output is the best of the scored records: its multiset is contained in theirs, and every output record ranks before every scored record that was left out. |
| Engine.MissingFieldsGiveThreeBoundedRecords | backend/test_recommendation.py:24-31 | An empty student document with top_n 3 gives three records, each with a confidence in [0,100]. |
| Ranking.RanksBeforeTotal | backend/recommendation_algorithm.py:224 | Any two records are comparable by the sort key. |
| Ranking.RanksBeforeTransitive | backend/recommendation_algorithm.py:224 | The sort-key order is transitive. |
| Ranking.Insert | backend/recommendation_algorithm.py:224 | Insertion adds exactly the one element: the multiset grows by it. |
| Ranking.InsertKeepsRanked | backend/recommendation_algorithm.py:224 | Inserting into a ranked list keeps it ranked. |
| Ranking.SortByRank | backend/recommendation_algorithm.py:224 | Sorting permutes the list: same length and same multiset. |
| Ranking.SortByRankRanked | backend/recommendation_algorithm.py:224 | The sorted list is ordered by (-confidence, code). |
| Ranking.Top | backend/recommendation_algorithm.py:225 | `s[:max(1, top_n)]`: a prefix of length min(|s|, max(1, top_n)). |
| Ranking.RankedPrefix | backend/recommendation_algorithm.py:225 | Truncating a ranked list keeps it ranked. |
| Ranking.RankedPrefixIsBest | backend/recommendation_algorithm.py:224-225 | A prefix of a ranked list is drawn from the list, and each of its elements ranks before every element left over. |
| Common.LexLeTotal | backend/recommendation_algorithm.py:224 | String order is total. |
| Common.LexLeTransitive | backend/recommendation_algorithm.py:224 | String order is transitive. |
| Common.LexLeAntisymmetric | backend/recommendation_algorithm.py:224 | String order is antisymmetric. |
| Common.JoinStartsWithFirst | backend/recommendation_algorithm.py:249 | A join begins with its first part. |
| Common.Lower | assets/js/dashboard.js:344-348 | Lower-casing keeps the length and maps each character. |
| Invoker.NormalizeProfile | backend/api.php:7-14 | A null gpa, major, learning style or study hours becomes 3.0, "Undecided", "Visual" or 10. A non-array interests value becomes []. Other values pass through. |
| Invoker.EngineSeesProfileDefaults | backend/api.php:7-14 | After the engine's own normalisation, the student scored has the profile's values or the defaults. An empty major or style becomes the engine default. |
| Invoker.Succeeded | backend/api.php:70-76 | An attempt succeeds when the process ran, exited with code 0, printed output that is not `empty()`, and the output decodes to a non-null value. |
| Invoker.StderrNeverDecides | backend/api.php:70-76 | Standard error has no effect on whether an attempt succeeds. |
| Invoker.FirstSuccess | backend/api.php:40-83 | The result is the index of a succeeding candidate with no earlier success, or none if every candidate fails. |
| Invoker.LastStderr | backend/api.php:79-81 | The recorded stderr is non-empty. It is absent iff no attempt left a non-empty stderr. |
| Invoker.LastStderrIsLast | backend/api.php:79-81 | The recorded stderr is that of some attempt, and every later attempt left stderr empty. |
| Invoker.FirstSuccessAt | backend/api.php:70-75 | A success at i after i failures is the first success. |
| Invoker.TriedCount | backend/api.php:40-83 | Between 1 and 3 candidates run. |
| Invoker.TryCandidates | backend/api.php:40-83 | The candidates run in order up to the first success, and no further. The output is that success's stdout. With no success, the error output is the last non-empty stderr. |
| Invoker.GetRecommendations | backend/api.php:2-112 | The result is the reference `Classify`. A missing profile runs nothing and creates no temp file. Once created, the temp file never exists on return. Candidates run only when the script exists. A log entry is appended exactly on engine failure. |
| Invoker.Classify | backend/api.php:2-112 | The reference result. A success carries an array. A failure carries one of the five failure messages. The engine failure carries the "Unable to generate recommendations" message, and, when present, its debug text is never `empty()`. |
| Invoker.FailureMessageExactlyWhen | backend/api.php:19-109 | "Cannot write to temp directory" iff the profile exists and the temp directory is not writable; "Failed to create temp file" iff the directory is writable but the file was not created; "Recommendation script not found" iff both succeeded but the script is missing; "Invalid recommendation format" iff setup succeeded, some candidate succeeded and the first success's output does not decode to a PHP array. |
| Invoker.FailureMessagesDistinct | backend/api.php:4-108 | The six failure messages are pairwise distinct. |
| Invoker.NotFoundExactlyWithoutProfile | backend/api.php:3-4 | "Student not found" iff the profile lookup fails. |
| Invoker.SuccessExactlyWhenSomeCandidateSucceeds | backend/api.php:104-112 | Success iff the setup succeeds, some candidate succeeds and its output decodes to an array. The decoded value is passed through unchanged. |
| Invoker.EngineFailureExactlyWhenAllFail | backend/api.php:88-102 | After a successful setup, the engine failure happens iff every candidate fails. |
| Invoker.EngineThatNeverCompilesNeverAnswers | backend/api.php:40-102 | When every interpreter fails to start or exits with an error, no profile ever gets a success, and after a successful setup the result is the engine failure with the last standard error. |
| Layout.Dedent | backend/recommendation_algorithm.py:104 | A dedent leaves open a prefix of the levels that ends at the target column, and succeeds only when that column is open. |
| Layout.DedentFindsOpenColumns | backend/recommendation_algorithm.py:104 | On well-formed levels, a dedent succeeds iff its column is open. |
| Layout.Step | backend/recommendation_algorithm.py:51 | After an accepted line, the innermost open level is that line's column. |
| Layout.StepRejectsExactly | backend/recommendation_algorithm.py:104 | On well-formed levels, a line is rejected iff it is shallower than the innermost level and matches no open level; the levels stay well formed. |
| Layout.FirstIndentationError | backend/recommendation_algorithm.py:37-104 | The error position lies within the lines, and is the first line exactly when that line is rejected. |
| Layout.AcceptedExactlyWithLevels | backend/recommendation_algorithm.py:37-104 | Some levels remain open after the lines iff no line is rejected. |
| Layout.AsWrittenIsRejected | backend/recommendation_algorithm.py:51 | As written, the tokenizer rejects the module at line 104: `_load_courses` at column 0 closes the class, so column 4 is not open when `_load_major_requirements` dedents to it. |
| Layout.IntendedIsAccepted | backend/recommendation_algorithm.py:51 | With `_load_courses` indented as a method, every deciding line is accepted. |
| Dashboard.ConfidenceColor | assets/js/dashboard.js:146-150 | Green iff score >= 80, amber iff 60 <= score < 80, red iff score < 60. |
| Dashboard.ConfidenceColorMonotone | assets/js/dashboard.js:146-150 | A higher score never gets a worse colour. |
| Dashboard.Required | assets/js/dashboard.js:115 | Keeps exactly the items with `is_major_requirement`. |
| Dashboard.Electives | assets/js/dashboard.js:116 | Keeps exactly the items without it. |
| Dashboard.ApplyFilter | assets/js/dashboard.js:114-116 | The result is a subsequence of the list. "required" keeps exactly the flagged items, "electives" exactly the unflagged ones, and any other filter the whole list. |
| Dashboard.FiltersKeepOrder | assets/js/dashboard.js:114-116 | Both filters keep their items in the original order (a subsequence). |
| Dashboard.FiltersPartition | assets/js/dashboard.js:114-116 | "required" and "electives" partition the list: their lengths sum to its length, and their multisets add up to it. |
| Dashboard.Display | assets/js/dashboard.js:101-116 | A missing or empty list gives the placeholder and is never filtered. Otherwise "required" or "electives" lists exactly the matching items, and any other filter lists the whole list. |
| Dashboard.Search | assets/js/dashboard.js:343-349 | Keeps a course iff the lower-cased term occurs in the lower-cased name, code or department. |
| Dashboard.SearchKeepsOrder | assets/js/dashboard.js:345-349 | The search keeps the courses in catalog order (a subsequence). |
| Dashboard.SearchAppend | assets/js/dashboard.js:345-349 | The search works course by course: searching a concatenation gives the concatenation of the searches. |
| Dashboard.EmptyTermKeepsAll | assets/js/dashboard.js:343-349 | An empty term keeps every course, in order. |
| Dashboard.LowerIdempotent | assets/js/dashboard.js:344 | Lower-casing twice is lower-casing once. |
| Dashboard.SearchIgnoresTermCase | assets/js/dashboard.js:344-349 | The search result does not depend on the case of the term. |
| Dashboard.FindRecommendation | assets/js/dashboard.js:392 | Returns the first cached recommendation with the id, or none iff no cached recommendation has it. |
| Dashboard.FindCourse | assets/js/dashboard.js:403-409 | Returns the first catalog course with the id, or none iff no catalog course has it. |
| Dashboard.CourseDetails | assets/js/dashboard.js:390-417 | A cached recommendation is shown iff one has the id, and it is the first one. Otherwise a catalog course is shown iff the reply is a list holding the id, and it is the first such course. "Failed to load" iff the request fails and no recommendation matches. In every other case the result is "not found". |
| Dashboard.CacheAnswersFirst | assets/js/dashboard.js:392-397 | When a cached recommendation has the id, the result does not depend on the catalog reply. |
| Dashboard.Session.ReceiveRecommendations | assets/js/dashboard.js:78-98 | A loaded reply replaces the cached list. A failed one leaves it unchanged. |
| Dashboard.Session.ViewCourseDetails | assets/js/dashboard.js:390-397 | The cached list answers iff it holds the course id. |
| ProfileForm.Split | assets/js/dashboard.js:587-588 | `split(',')` yields at least one piece, and no piece contains a comma. |
| ProfileForm.SplitJoin | assets/js/dashboard.js:587-588 | Joining the pieces with "," gives back the input. |
| ProfileForm.TrimStart | assets/js/dashboard.js:588 | A suffix of the input that does not start with whitespace. |
| ProfileForm.TrimStartRemovesSpace | assets/js/dashboard.js:588 | Only whitespace is removed at the start. |
| ProfileForm.TrimEnd | assets/js/dashboard.js:588 | A prefix of the input that does not end with whitespace. |
| ProfileForm.TrimEndRemovesSpace | assets/js/dashboard.js:588 | Only whitespace is removed at the end. |
| ProfileForm.Trim | assets/js/dashboard.js:588 | The result is no longer than the input, has no whitespace at either end, and uses only the input's characters. |
| ProfileForm.TrimCutsOnlySpace | assets/js/dashboard.js:588 | The trimmed text is the slice of the input between a run of leading whitespace and a run of trailing whitespace. |
| ProfileForm.TrimClean | assets/js/dashboard.js:588 | Trimming a string with no space at either end leaves it unchanged. |
| ProfileForm.KeepEntries | assets/js/dashboard.js:588 | `map(trim).filter(Boolean)` keeps only non-empty entries, at most one per piece. |
| ProfileForm.KeepEntriesOfOne | assets/js/dashboard.js:588 | One piece gives its trimmed text, or nothing when that is empty. |
| ProfileForm.KeepEntriesAppend | assets/js/dashboard.js:588 | Entries are kept piece by piece, in order: the entries of a concatenation are the entries of each part, concatenated. |
| ProfileForm.ParseList | assets/js/dashboard.js:587-588 | Every parsed entry is non-empty, trimmed and comma-free. |
| ProfileForm.ListRoundTrip | assets/js/dashboard.js:553-556 | Parsing a list of clean entries joined by ", " (as the form is filled) gives back the entries in order. The empty list, shown as an empty field, reads back as no entries. |
| ProfileForm.DigitPrefix | assets/js/dashboard.js:590 | The result is the longest prefix of digits. |
| ProfileForm.ParseInt | assets/js/dashboard.js:590 | `parseInt(s, 10)` is NaN iff no digit follows the leading whitespace and sign. |
| ProfileForm.StudyHours | assets/js/dashboard.js:590 | `parseInt(..) \|\| 10`: 10 on NaN or 0, otherwise the parsed value. Never 0. |
| ProfileForm.DigitsValueOfDecimalText | assets/js/dashboard.js:590 | Reading a number's decimal text gives back the number. |
| ProfileForm.StudyHoursRoundTrip | assets/js/dashboard.js:590 | A number's decimal text parses back to the number. Positive hours are kept. |

## Left out

- Engine.ScoreCourse: every catalog entry is assumed to have an id, code, name, department and credits. For a missing field, Python emits `None` (backend/recommendation_algorithm.py:212-216). A missing code makes the sort key `None`, and comparing it with a string code on a confidence tie raises `TypeError` (backend/recommendation_algorithm.py:224). Neither is modelled.
- Engine.NewEngine: the weights are either absent or a complete set. `weights or {...}` also falls back to the defaults on an empty dict (backend/recommendation_algorithm.py:40). A dict lacking a key raises `KeyError` when scoring (backend/recommendation_algorithm.py:197-201). Neither case is modelled.
- Engine.Recommend takes `top_n` as a parameter. The default of 8 (backend/recommendation_algorithm.py:161), which `cli_main` always uses (backend/recommendation_algorithm.py:266), is not modelled. The invoker's decoded list is therefore at most 8 long, but the model does not state it.
- Ranking.SortByRank: Python's sort is stable, but only the ranking and the permutation are proved. Stability among records with equal confidence and equal code is not stated.
- The built-in catalog and the major table are constants. Loading `courses.json` (backend/recommendation_algorithm.py:51-62) is file I/O and is an input of `Engine.NewEngine`. The engine is modelled as its evidently intended methods. As written, the file does not compile, which "## Findings" records.
- Logging, `cli_main` and its argv/file handling are I/O and are not modelled (backend/recommendation_algorithm.py:26-34, 226, 252-271).
- Engine.Round2: uses exact reals with halves rounded up. The model does not capture Python's binary floating point or its round-half-even on exact ties. Only the [0,100] bounds and monotonicity are relied on.
- Scoring.Normalize: `float()` parsing of text is abstracted as a field that is either a parsed number or unparsable. Values of the wrong JSON type in the other fields (a number as the major, say) are not modelled.
- Catalog.DifficultyOf and Catalog.WorkloadHoursOf: a present field is assumed to be a JSON number. `int()` truncation of a fractional difficulty is modelled, but a text value (which `int()`/`float()` may parse or reject with an exception) is not.
- Invoker.NormalizeProfile: `Profile.highSchoolGpa` and `Profile.studyHoursPreference` hold the result of PHP's `floatval` (backend/api.php:9, 13). `floatval` of a stored non-numeric text gives 0.0, not the default 3.0 or 10, and that conversion is not modelled.
- `proc_open`, pipes, `tempnam`, `file_put_contents`, `unlink` and the error-log append are OS interaction. They are abstracted as a `Host` value: each interpreter's outcome and the JSON decoder are functions, and the temporary file is a ghost flag.
- `json_encode` of the input and the exact JSON grammar of the decoder are not modelled; the decoder is an abstract partial function.
- The second, verbatim copy of `getRecommendations` in backend/api.php is the same code and is modelled once.
- ProfileForm.ParseInt: models JavaScript `parseInt` with radix 10 on unbounded integers. Precision loss above 2^53 and `Infinity` are not modelled.
- Common.Lower: lower-cases ASCII letters only. JavaScript `toLowerCase` also maps other letters.
- DOM rendering, `fetch`, async flows, localStorage, toasts, timers and modals in assets/js/dashboard.js are UI glue. Only the list they keep (`Dashboard.Session`) and the pure helpers are modelled.
- The `refresh=1` parameter and any caching are not modelled: `getRecommendations` recomputes every time.
- Enrollment, feedback, authentication, database configuration (backend/config.php, backend/test_db_conn.php) and assets/js/auth.js, app.js, util.js are not part of this model.
- The reason phrases are a datatype shown through their exact texts. Lemmas about the joined text tell phrases apart by their third letter rather than by full string comparison.

## Findings

| source | as written | input that shows it | evidently intended | confidence | as-written member | corrected member |
|---|---|---|---|---|---|---|
| backend/recommendation_algorithm.py:51 | `def _load_courses` starts at column 0 and its body at column 8, so the class ends there. Line 104 then dedents `_load_major_requirements` to column 4, which is not an open level. Python rejects the module with an `IndentationError`, so every interpreter tried at backend/api.php:43-83 exits with an error, and, for every student found, once the temporary file and the script are in place, `getRecommendations` returns "Unable to generate recommendations" (backend/api.php:89-102). | the file itself, run with any student data | `_load_courses` and `_load_major_requirements` are methods of `CourseRecommendationEngine`, and `generate_recommendations` returns the ranked list | not executed; follows from Python's indentation rules | Layout.AsWrittenIsRejected, Invoker.EngineThatNeverCompilesNeverAnswers | Layout.IntendedIsAccepted, Engine.GenerateRecommendations |
