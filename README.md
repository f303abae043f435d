# CoObejrzec recommendation core in Dafny

CoObejrzec ("what to watch") is a movie-recommendation web application. A visitor answers a five-question quiz. Each question covers genres, era, rating, popularity or origin. The application then offers ten movies one at a time, which the visitor rejects or keeps for later. This project models the core of the application and proves what it promises.

- **Engine** (`engine.dfy`): the two-phase recommendation engine.
  - It turns quiz answers into search criteria.
  - It scores every candidate additively and sorts by score.
  - Single mode picks at random from the top ten. Batch mode returns the top N.
  - The two scoring rules differ and are kept apart.
- **Catalog** (`db.dfy`): the catalog query.
  - `searchMovies` is modelled twice: by its meaning over an in-memory catalog, and by the SQL text and parameter list it builds.
  - The meaning is AND across the active filters, truthiness-gated bounds, exclusion, DISTINCT, order by rating then popularity, and a default limit of 100.
  - Point lookup and the random pick are modelled too.
- **Client state machines**:
  - the session store, a class (`session_store.dfy`);
  - the quiz step navigation and answer completion (`quiz.dfy`);
  - the multi-select toggle with its exclusive `any` option (`quiz_question.dfy`);
  - the personality quiz's vote tally and winner (`personality_quiz.dfy`);
  - the home page's cursor over ten recommendations (`home_page.dfy`).
- **List shaping**: the premieres page, the rankings page and the A–Z index (`premieres.dfy`, `rankings.dfy`, `movie_index.dfy`).
- **Ingestion scripts** (`fetch_movies.dfy`, `fetch_movies_fixed.dfy`, `fetch_movie_by_id.dfy`, `ingest.dfy`):
  - batch-file naming, merging and de-duplication;
  - last-wins id maps;
  - the page and endpoint cursors, including the 500-page cap;
  - retry-attempt accounting;
  - the auto-save cadence.

Shared pieces:
- `Sorting.StableSort` stands for both JavaScript's `Array.prototype.sort` and SQL's `ORDER BY`. It is a stable insertion sort. Any stable sort with a consistent comparator gives the same result, and SQL's unspecified order among ties is refined to catalog order.
- `JsMaps.JsMap` is a JavaScript `Map`, or a plain object used as a dictionary. It is a finite map that remembers the order in which keys were first set. A `Map` lists its keys in that order. A plain object's `Object.keys` does not: it lists the array-index keys (canonical decimal integers below 2^32 - 1) first, in ascending numeric order, and then the other keys in insertion order. `JsMaps.ObjectKeys` models that order.
- `JsNumbers` holds `String(n)`, `padStart` and `parseInt` on decimals.
- `Collections` holds filter, map, occurrence counting and first occurrences.

Outside effects are passed in:
- Ratings, popularity and scores are exact `real`s. The fetch scripts round what they store: `Math.round` of the popularity (`Ingest.MathRound`) and `Math.round(x * 10) / 10` of the rating (`Ingest.RoundTenth`). Otherwise the source only adds and compares them.
- `Math.random()` is a parameter `rand` with `0 <= rand < 1`.
- `localeCompare('pl')` is a ranking function `rank: string -> real`, in which smaller means earlier. `toLowerCase` and `toUpperCase` are function parameters.
- Every network call is an input:
  - a page outcome per request;
  - a detail outcome per movie id;
  - one attempt outcome per retry.
- The data directory is a `DataDir` object holding the batch files, the consolidated file and the log of writes.

The code, and so the model:
- has no runtime-fit bonus in the single-mode score;
- sets no keyword or runtime criterion from any quiz answer;
- has no mood or pace dimension in the engine.

## Model

| member | source | states |
|---|---|---|
| Engine.CriteriaFor | src/lib/recommendation-engine.ts:17-40 | excludeIds and the limit pass through unchanged; a genre filter is set iff the genres are non-empty with no `any`, and then equals them; `old` gives years 1950..2000 and `modern` gives 2010 and up; `polish`/`foreign` give isPolish true/false; any other answer leaves the field unset; keywords and runtime are never set |
| Engine.CriteriaBounds | src/lib/recommendation-engine.ts:43-55 | high sets minRating 7.5 and medium 6.0; popular sets minPopularity 50; niche sets maxPopularity 30 and overwrites minRating with 7.0 even when rating was high; other answers leave the bounds unset |
| Engine.BuildCriteria | src/lib/recommendation-engine.ts:17-55 | building the criteria field by field gives exactly the mapping `CriteriaFor` describes |
| Engine.MatchedGenres | src/lib/recommendation-engine.ts:84-86 | a genre is matched iff it is the movie's and among the quiz genres |
| Engine.SingleScore | src/lib/recommendation-engine.ts:74-114 | the single-mode score is the rating plus 5 per matched genre plus between 0 and 5 of popularity and high-rating bonus |
| Engine.ScoreSingle | src/lib/recommendation-engine.ts:74-114 | accumulating score and reasons step by step gives the single-mode scored record (score and reasons in rule order) |
| Engine.ScoreAllSingle | src/lib/recommendation-engine.ts:74-114 | candidates are scored one for one, in order |
| Engine.RankSpec | src/lib/recommendation-engine.ts:117 | sorting by score is a permutation, non-increasing in score, and keeps equal scores in candidate order |
| Engine.PickTop | src/lib/recommendation-engine.ts:120-123 | for any random value the pick lies among the first min(10, n) ranked entries |
| Engine.SingleRecommendation | src/lib/recommendation-engine.ts:11-124 | there is no recommendation iff the search with limit 200 is empty; otherwise it is one of the ten best-scored candidates |
| Engine.GetRecommendation | src/lib/recommendation-engine.ts:11-124 | the imperative pipeline returns the recommendation `SingleRecommendation` specifies |
| Engine.SinglePickSpec | src/lib/recommendation-engine.ts:117-123 | the pick is a candidate carrying its own single-mode score, at rank below 10 |
| Engine.TopSingle | src/lib/recommendation-engine.ts:117-123 | for any non-empty candidate list and any random value the pick is a scored candidate among the first ten ranks |
| Engine.GetRandomRecommendation | src/lib/recommendation-engine.ts:129-140 | null iff the search with rating at least 6.5 is empty; otherwise a movie from that search, rated at least 6.5 |
| Engine.BatchScore | src/lib/recommendation-engine.ts:189-232 | the batch score has no rating base: 5 per matched genre plus at most 13 of era, rating, popularity and high-rating bonuses |
| Engine.ScoreBatch | src/lib/recommendation-engine.ts:189-232 | accumulating the batch bonuses step by step gives the batch scored record |
| Engine.BatchSeq | src/lib/recommendation-engine.ts:189-232 | batch scoring maps candidates one for one |
| Engine.ScoreAllBatch | src/lib/recommendation-engine.ts:189-232 | the scoring loop produces exactly the batch-scored candidates in order |
| Engine.GetMultipleRecommendations | src/lib/recommendation-engine.ts:145-237 | the imperative pipeline returns what `BatchRecommendations` specifies |
| Engine.BatchSpec | src/lib/recommendation-engine.ts:150-236 | with limit count×10 the result has min(count, candidates) entries, each a candidate with its batch score, non-increasing, and a prefix of the ranking |
| Engine.TopBatch | src/lib/recommendation-engine.ts:185-236 | the same facts for any candidate list: length, membership, order, prefix of the stable ranking |
| Engine.NoCandidates | src/lib/recommendation-engine.ts:60-186 | zero candidates give null in single mode and an empty list in batch mode |
| Engine.CandidatesMatchGenre | src/lib/recommendation-engine.ts:23-91 | when the genre filter is on, every candidate matches at least one genre, so it earns at least 5 in either score |
| Engine.CandidatesMeetAnswers | src/lib/recommendation-engine.ts:17-58 | every candidate the quiz criteria return is outside excludeIds and honours each answer: `old` means a year in 1950..2000, `modern` a year from 2010, `polish`/`foreign` the matching origin, `niche` popularity at most 30 and rating at least 7.0, `popular` popularity at least 50, otherwise `high`/`medium` a rating of at least 7.5/6.0 |
| Engine.UnconstrainedScores | src/lib/recommendation-engine.ts:74-232 | with every answer `any`, the single score is the rating plus 3 when it is at least 8 with only the high-rating reason, and the batch score is just the 2-point high-rating bonus with no reasons |
| Engine.PopularThresholdsDiffer | src/lib/recommendation-engine.ts:94-224 | a `popular` answer and a popularity in (50, 100] earn the batch popularity bonus and reason but not the single-mode one, whose threshold is 100 |
| Engine.RankPair | src/lib/recommendation-engine.ts:234 | two entries with different scores come out higher score first, whatever their input order |
| Engine.DramaOverComedyScores | src/lib/recommendation-engine.ts:74-232 | a drama rated 8.2 with popularity 20 scores 16.2 (single) and 7 (batch) against a drama-only quiz; a comedy rated 6.0 with popularity 200 scores 6 and 0 |
| Engine.DramaOverComedy | src/lib/recommendation-engine.ts:189-236 | in batch mode that drama is ranked above that comedy whichever comes first among the candidates |
| Engine.BatchDistinct | src/lib/recommendation-engine.ts:150-236 | over a catalogue with distinct ids, a batch never lists the same movie twice |
| Catalog.NamesOf | src/lib/db.ts:31-43 | a name is attached iff the catalog links it to the movie |
| Catalog.Hydrate | src/lib/db.ts:164-185 | hydration keeps the row's fields, sets isPolish iff the stored flag is 1, and attaches exactly the linked genres and countries |
| Catalog.FindRow | src/lib/db.ts:22-29 | no row is found iff no row has the id; a found row has the id |
| Catalog.GetMovieByIdSpec | src/lib/db.ts:22-51 | null iff the id is absent; otherwise the hydrated row with that id |
| Catalog.HydratedPolishFlag | src/lib/db.ts:45-50 | for a catalog whose flags follow its countries, a hydrated movie is Polish iff `PL` is among its countries |
| Catalog.ActiveConditionsMeaning | src/lib/db.ts:83-155 | a row passes every condition the builder emits iff it meets the criteria |
| Catalog.ListConditionsMeaning | src/lib/db.ts:83-150 | genre and keyword lists need at least one linked name; the exclusion list rejects its ids; empty lists impose nothing |
| Catalog.BoundConditionsMeaning | src/lib/db.ts:105-144 | each numeric bound is inclusive and applies only when truthy (0 imposes nothing); isPolish applies whenever defined, false included |
| Catalog.ActiveConditionsSplit | src/lib/db.ts:83-150 | the conditions are AND-combined, filter category by filter category |
| Catalog.TakeLimit | src/lib/db.ts:159 | a limit keeps the first min(limit, n) rows; no limit keeps all |
| Catalog.HydrateAll | src/lib/db.ts:164-185 | result rows are hydrated one for one |
| Catalog.SearchSound | src/lib/db.ts:71-186 | every result is a hydrated catalog row meeting the criteria, and no result id is excluded |
| Catalog.SearchOrdered | src/lib/db.ts:158 | results are ordered by rating descending, then popularity descending |
| Catalog.SearchLength | src/lib/db.ts:159 | the length is min(limit, matching rows); the limit is 100 when unset or 0 |
| Catalog.SearchComplete | src/lib/db.ts:153-159 | a matching row is returned when the limit does not bite; a matching row left out ranks no higher than any returned row |
| Catalog.LimitedRanking | src/lib/db.ts:158-159 | sorting then cutting keeps every row when it fits, and only drops rows ranked no higher than the kept ones |
| Catalog.SearchDistinct | src/lib/db.ts:74-77 | despite the genre and keyword joins, no id appears twice |
| Catalog.GetRandomMovie | src/lib/db.ts:191-197 | null iff the search with limit 50 is empty; otherwise an element of that search |
| Catalog.RowBeforeIsStrictWeakOrder | src/lib/db.ts:158 | the two-key order is a strict weak order, so the sort is well defined |
| Catalog.PlaceholdersCount | src/lib/db.ts:88 | a list of n placeholders holds exactly n `?` |
| Catalog.ConditionPlaceholders | src/lib/db.ts:83-150 | each condition's SQL holds as many `?` as it pushes parameters |
| Catalog.JoinedPlaceholders | src/lib/db.ts:153-155 | joining the conditions with AND keeps the `?` count equal to the parameter count |
| Catalog.QueryPlaceholders | src/lib/db.ts:74-159 | the whole query text holds exactly as many `?` as there are parameters |
| Catalog.Push | src/lib/db.ts:86-150 | pushing one condition appends its SQL and its parameters, in order |
| Catalog.AddJoins | src/lib/db.ts:74-100 | the head joins genres and keywords when those lists are set and records their conditions |
| Catalog.AddYearConditions | src/lib/db.ts:105-112 | appends the year bounds that are set |
| Catalog.AddRatingAndOrigin | src/lib/db.ts:115-124 | appends the rating bound and the origin flag that are set |
| Catalog.AddRuntimeConditions | src/lib/db.ts:127-134 | appends the runtime bounds that are set |
| Catalog.AddPopularityConditions | src/lib/db.ts:137-144 | appends the popularity bounds that are set |
| Catalog.AddExclusion | src/lib/db.ts:147-150 | appends the exclusion list when it is non-empty |
| Catalog.BuildQuery | src/lib/db.ts:71-161 | the parameters are those of the active conditions, in order; the SQL is head, WHERE-clause, ORDER and LIMIT; `?` count equals parameter count |
| Session.WithMovie | src/store/session-store.ts:29-39 | adding a movie whose id is present changes nothing; otherwise it is appended; the id is present afterwards |
| Session.WithMovieIdempotent | src/store/session-store.ts:29-39 | adding the same movie twice equals adding it once |
| Session.WithMovieUnique | src/store/session-store.ts:29-39 | adding preserves id-uniqueness of the watch-later list |
| Session.WithoutId | src/store/session-store.ts:41-45 | removing never lengthens the list |
| Session.WithoutIdMembers | src/store/session-store.ts:41-45 | removing drops every entry with the id and keeps exactly the others |
| Session.WithoutIdAppend | src/store/session-store.ts:41-45 | removal works entry by entry, so the others keep their order |
| Session.WithoutAbsentId | src/store/session-store.ts:41-45 | removing an absent id changes nothing |
| Session.WithoutIdUnique | src/store/session-store.ts:41-45 | removing preserves id-uniqueness |
| Session.SessionStore.constructor | src/store/session-store.ts:11-16 | no answers, empty rejected and watch-later lists, no current movie, count 0 |
| Session.SessionStore.Restore | src/store/session-store.ts:69-71 | rehydration restores only the watch-later list; everything else starts fresh |
| Session.SessionStore.Partialize | src/store/session-store.ts:69-71 | only the watch-later list is persisted |
| Session.SessionStore.SetQuizAnswers | src/store/session-store.ts:18-20 | sets the answers and nothing else |
| Session.SessionStore.RejectMovie | src/store/session-store.ts:22-27 | appends the id (duplicates allowed), adds exactly 1 to the count, and changes nothing else |
| Session.SessionStore.AddToWatchLater | src/store/session-store.ts:29-39 | the watch-later list becomes `WithMovie` of the old one and stays id-unique; nothing else changes |
| Session.SessionStore.RemoveFromWatchLater | src/store/session-store.ts:41-45 | the watch-later list loses every entry with the id; nothing else changes |
| Session.SessionStore.SetCurrentRecommendation | src/store/session-store.ts:47-49 | sets the current movie and nothing else |
| Session.SessionStore.IncrementRecommendationCount | src/store/session-store.ts:51-55 | adds 1 to the count and nothing else |
| Session.SessionStore.ResetSession | src/store/session-store.ts:57-64 | clears answers, rejected list, current movie and count, and keeps the watch-later list |
| QuizQuestion.Without | src/components/Quiz/QuizQuestion.tsx:28-31 | filtering out a value never lengthens the selection |
| QuizQuestion.WithoutMembers | src/components/Quiz/QuizQuestion.tsx:28-31 | filtering out a value removes all its copies and keeps exactly the others |
| QuizQuestion.WithoutAppend | src/components/Quiz/QuizQuestion.tsx:28-31 | filtering keeps the others in order |
| QuizQuestion.SelectedValues | src/components/Quiz/QuizQuestion.tsx:14 | an array maps to itself; a non-empty string s to [s]; anything else to [] |
| QuizQuestion.IsSelectedMeaning | src/components/Quiz/QuizQuestion.tsx:42-44 | an option is shown as selected iff it is in the array value or equals the non-empty string value |
| QuizQuestion.OptionClick | src/components/Quiz/QuizQuestion.tsx:16-40 | single choice emits the option; in multiple choice `any` emits exactly [`any`], and any other option never leaves `any` in the result |
| QuizQuestion.OptionClickToggles | src/components/Quiz/QuizQuestion.tsx:19-35 | clicking a selected value removes all its copies with the rest in order; clicking an unselected one appends it; a non-array value counts as empty |
| QuizQuestion.OptionClickTwice | src/components/Quiz/QuizQuestion.tsx:28-35 | toggling the same value twice on an `any`-free selection that lacks it restores the selection |
| Quiz.WithField | src/components/Quiz/Quiz.tsx:119-123 | recording an answer replaces only that question's field |
| Quiz.OrAny | src/components/Quiz/Quiz.tsx:128-137 | a falsy answer becomes `any`; a non-empty string is kept |
| Quiz.Complete | src/components/Quiz/Quiz.tsx:128-137 | a non-array or empty genres value becomes [`any`], otherwise genres are kept; every other field is non-empty |
| Quiz.CompleteKeepsAnswers | src/components/Quiz/Quiz.tsx:128-137 | a fully answered draft completes to exactly its own answers |
| Quiz.ClickAnswers | src/components/Quiz/Quiz.tsx:168-173 | a click that selects something makes the question answered, so the user can proceed |
| Quiz.QuizFlow.constructor | src/components/Quiz/Quiz.tsx:109-112 | the quiz starts at step 0 with no answers |
| Quiz.QuizFlow.HandleAnswer | src/components/Quiz/Quiz.tsx:118-144 | the current field is replaced and the step stays; a single or button answer schedules a callback that captures the answers (last question) or the step plus one (other questions); a multiple answer schedules nothing |
| Quiz.QuizFlow.FireTimer | src/components/Quiz/Quiz.tsx:126-142 | the oldest callback fires: it sets the step it captured, whatever the current step is, or hands over the answers it captured |
| Quiz.QuickDoubleClick | src/components/Quiz/Quiz.tsx:126-142 | two clicks on a button question before the timers fire move the quiz on by one question, not two |
| Quiz.BackOverridden | src/components/Quiz/Quiz.tsx:126-166 | "Back" between a button answer and its callback is undone: the quiz ends one past the answered question |
| Quiz.DoubleCompletion | src/components/Quiz/Quiz.tsx:126-142 | two clicks on the last question before the timers fire complete the quiz twice, each with its own click's answer |
| Quiz.PassGenres | src/components/Quiz/Quiz.tsx:169-174 | choosing a genre enables "next" on the genre question, which leads to the first button question with nothing scheduled |
| Quiz.QuizFlow.HandleNext | src/components/Quiz/Quiz.tsx:146-160 | advances by 1, except on the last question, where it completes with the normalised answers |
| Quiz.QuizFlow.HandleBack | src/components/Quiz/Quiz.tsx:162-166 | goes back by 1 only when the step is positive |
| Quiz.LastStepIsFour | src/components/Quiz/Quiz.tsx:9-69 | five questions, so the last step is 4 and it asks for the origin |
| PersonalityQuiz.Counts | src/app/quiz-osobowosciowy/page.tsx:90-93 | a type is counted iff it was answered |
| PersonalityQuiz.CountsSnoc | src/app/quiz-osobowosciowy/page.tsx:90-93 | an extra answer adds 1 to its own count: counts[t] is the number of occurrences of t |
| PersonalityQuiz.TallyStep | src/app/quiz-osobowosciowy/page.tsx:90-93 | one loop step keeps the dictionary keyed by first occurrence and holding the counts |
| PersonalityQuiz.CountAnswer | src/app/quiz-osobowosciowy/page.tsx:91-92 | counting one more answer extends the tally to that answer |
| PersonalityQuiz.Tally | src/app/quiz-osobowosciowy/page.tsx:90-93 | the dictionary's keys are the answers in first-seen order and its values their occurrence counts |
| PersonalityQuiz.Winner | src/app/quiz-osobowosciowy/page.tsx:95 | the winner is one of the keys |
| PersonalityQuiz.TallyKeysInOrder | src/app/quiz-osobowosciowy/page.tsx:90-95 | the answers are option types, none of which is an array-index key, so `Object.keys(counts)` lists them in first-answered order, the order the winner is reduced over |
| PersonalityQuiz.WinnerSpec | src/app/quiz-osobowosciowy/page.tsx:95 | the winner has maximal count, and no later-seen key has an equal count, so among ties the one first seen latest wins |
| PersonalityQuiz.FindPersonality | src/app/quiz-osobowosciowy/page.tsx:96 | the entry whose type equals the winner, falling back to the first entry |
| PersonalityQuiz.KeysCounted | src/app/quiz-osobowosciowy/page.tsx:90-95 | after any answer the reduce has keys, and each has a count |
| PersonalityQuiz.ThreeDistinctAnswers | src/app/quiz-osobowosciowy/page.tsx:90-97 | three distinct answers give the personality of the third |
| PersonalityQuiz.PersonalityQuizPage.constructor | src/app/quiz-osobowosciowy/page.tsx:45-47 | starts at step 0, with no answers and no result |
| PersonalityQuiz.PersonalityQuizPage.HandleAnswer | src/app/quiz-osobowosciowy/page.tsx:82-99 | appends the answer; advances while before the last question; on the last answer sets the result from the tally and leaves the step |
| PersonalityQuiz.PersonalityQuizPage.ResetQuiz | src/app/quiz-osobowosciowy/page.tsx:101-105 | restores step 0, empty answers and no result |
| PersonalityQuiz.ThreeAnswers | src/app/quiz-osobowosciowy/page.tsx:90-97 | the counting loop and the reduce compute the personality of three answers |
| HomePage.ErrorMessage | src/app/page.tsx:107-121 | the API's error text when present and non-empty, else the default; a thrown error's message, else the generic message |
| HomePage.Home.constructor | src/app/page.tsx:15-21 | the welcome screen, with no movies, index 0, no reasons, not loading and no error |
| HomePage.Home.CurrentMovie | src/app/page.tsx:33 | there is a current movie iff the index is in range, and it is the movie at the index |
| HomePage.Home.Fetch10Movies | src/app/page.tsx:70-125 | always asks for 10 movies excluding the rejected ids; success stores movies (or []), reasons and index 0 and shows them; failure sets the error and keeps the rest; loading ends false either way |
| HomePage.Home.HandleQuizComplete | src/app/page.tsx:129-134 | stores the answers, moves to the recommendation screen and requests with those answers; on success the response's movies and reasons (or []) from index 0 with no error; on failure the error message, with the movies, reasons and index kept; the store's count and current recommendation unchanged |
| HomePage.Home.HandleReject | src/app/page.tsx:136-148 | no current movie: nothing changes; more left: records the rejection and advances by 1; the last movie: welcome screen, session reset, so that rejection is wiped too; the store's current recommendation is kept, except that the reset clears it |
| HomePage.Home.HandleAccept | src/app/page.tsx:150-162 | no current movie: nothing changes; otherwise adds it to watch later, then advances by 1 or returns to welcome with a session reset; the store's current recommendation is kept, except that the reset clears it |
| HomePage.Home.HandleStartOver | src/app/page.tsx:164-169 | welcome screen, empty list, index 0 and a session reset that keeps watch later |
| Premieres.PremieresContents | src/app/premiery/page.tsx:15-18 | the first min(50, eligible) of the year-sorted eligible movies, each with a year of at least 2020; a missing field gives [] |
| Premieres.PremieresOrder | src/app/premiery/page.tsx:17 | years are non-increasing, and equal years keep fetched order |
| Rankings.RankingContents | src/app/rankingi/page.tsx:15-17 | the first min(100, n) of the rating-sorted fetched movies, drawn from the fetched list; a missing field gives [] |
| Rankings.RankingOrder | src/app/rankingi/page.tsx:16 | ratings are non-increasing, and equal ratings keep fetched order |
| Rankings.RankingCutOff | src/app/rankingi/page.tsx:15-17 | a fetched movie left off the list is rated no higher than any listed movie |
| MovieIndex.SortedMoviesSpec | src/app/filmy/page.tsx:17-19 | a permutation of the fetched movies, ordered by display title under the collation, with ties in fetched order |
| MovieIndex.FilteredSpec | src/app/filmy/page.tsx:26-36 | an empty search shows everything; otherwise exactly the movies whose display or original title contains the lower-cased search |
| MovieIndex.FilteredAppend | src/app/filmy/page.tsx:27-32 | the filter keeps the order of the list |
| MovieIndex.BucketMembers | src/app/filmy/page.tsx:39-46 | a movie is in a letter's bucket iff it is filtered and its display title starts with that upper-cased letter |
| MovieIndex.BucketsPartition | src/app/filmy/page.tsx:39-46 | bucket sizes over the distinct keys sum to the filtered count, so each movie lands in exactly one bucket |
| MovieIndex.BucketSnoc | src/app/filmy/page.tsx:42-45 | a bucket grows only by movies of its letter, at the end, so buckets keep filtered order |
| MovieIndex.GroupStep | src/app/filmy/page.tsx:40-45 | one step of the loop keeps the dictionary equal to the buckets of the movies seen so far |
| MovieIndex.GroupByLetter | src/app/filmy/page.tsx:39-46 | a movie with an empty display title makes the loop fail; otherwise the letters are set in first-seen order (the insertion order, before `Object.keys` reorders it) and each entry is that letter's bucket |
| MovieIndex.LettersSpec | src/app/filmy/page.tsx:48 | every bucket key is listed once, sorted by the collation, and keys the collation ties keep their `Object.keys` order (digits first, ascending) |
| FetchMovies.BatchFileNameMeaning | scripts/fetch-movies.js:161-163 | batch n is `movies_<start>-<end>.json`, with start (n−1)·1000+1 and end n·1000, each zero-padded to 6 digits |
| FetchMovies.BatchFileNameIsBatch | scripts/fetch-movies.js:161-163 | every batch file name is one the loader picks up |
| FetchMovies.SaveBatch | scripts/fetch-movies.js:156-181 | the named file becomes its old entries followed by the incoming movies whose ids are new; the write is logged |
| FetchMovies.FetchWithRetry | scripts/fetch-movies.js:199-222 | the retry loop returns the outcome `Retry` specifies |
| FetchMovies.RetrySpec | scripts/fetch-movies.js:199-222 | a body iff some attempt succeeds before any other success; an error iff no success and the last attempt failed; undefined iff no success and the last attempt got 429 |
| FetchMovies.AllRateLimited | scripts/fetch-movies.js:204-209 | all three attempts rate-limited give undefined |
| FetchMovies.NextCursor | scripts/fetch-movies.js:401-407 | after a good page the page advances; page 9 moves to the next endpoint at page 1, so each endpoint is queried on pages 1..9 only |
| FetchMovies.CursorAfterPages | scripts/fetch-movies.js:401-407 | the page stays within 1..9 after any sequence of outcomes |
| FetchMovies.CrawledStep | scripts/fetch-movies.js:310-413 | a good page advances the cursor and resets the error count; a failed page keeps the cursor and counts one error |
| FetchMovies.Processed | scripts/fetch-movies.js:341-358 | no record without genre details; otherwise the record keeps the id, at most 10 keywords, images iff paths, the Polish title or the original, the genre names and the year, and stores the rating rounded to a tenth and the popularity rounded to an integer |
| FetchMovies.FullBatchesMeaning | scripts/fetch-movies.js:384-388 | flushed batches are numbered consecutively and each holds exactly 1000 movies |
| FetchMovies.LastShortMeaning | scripts/fetch-movies.js:384-419 | with the remainder flushed, all batches but the last are full and the last is non-empty and holds at most 1000 |
| FetchMovies.BatchFetcher.constructor | scripts/fetch-movies.js:270-291 | starts from the existing movies' ids, with batch number floor(have/1000)+1 and nothing fetched |
| FetchMovies.BatchFetcher.Push | scripts/fetch-movies.js:360-388 | a new movie is appended, and a full batch is written and numbered next |
| FetchMovies.BatchFetcher.Flush | scripts/fetch-movies.js:384-388 | a batch of 1000 is written, cleared, and the number increments |
| FetchMovies.BatchFetcher.FlushRemainder | scripts/fetch-movies.js:416-419 | the written batches hold exactly the fetched movies, all full but the last |
| FetchMovies.BatchFetcher.Consider | scripts/fetch-movies.js:318-361 | a seen id is skipped and counted; an ineligible movie is skipped; otherwise the id is marked seen before the detail fetch and the record kept only when details succeed |
| FetchMovies.BatchFetcher.ProcessPage | scripts/fetch-movies.js:317-399 | earlier movies are kept, new ones come from this page's results, and the target is never passed |
| FetchMovies.RequestPage | scripts/fetch-movies.js:310-413 | a page counts as good exactly when the fetch returned results; earlier movies are kept, and every movie it adds stems from that page (a listed movie and its processed details) |
| FetchMovies.CrawlStep | scripts/fetch-movies.js:310-413 | one loop turn records the request, keeps every earlier movie's origin, and moves the cursor on or counts one more error |
| FetchMovies.Crawl | scripts/fetch-movies.js:310-413 | pages 1..9 of each endpoint are requested in turn with a failed page retried, the loop stops only at the target or after 5 errors in a row, and every movie collected stems from a successful requested page |
| FetchMovies.FetchMovies | scripts/fetch-movies.js:249-442 | nothing is fetched when the target is met; new movies have fresh distinct ids, and each is the processed details of a movie listed on a successful requested page; batches numbered from floor(have/1000)+1 hold exactly them; the result is the consolidated file |
| FetchMoviesFixed.FixedRetrySpec | scripts/fetch-movies-fixed.js:176-215 | never undefined; a body iff some attempt succeeds; the last error is rethrown, or "Max retries exceeded" when no attempt answered |
| FetchMoviesFixed.NoAnswer | scripts/fetch-movies-fixed.js:185-214 | every attempt rate-limited or timed out gives "Max retries exceeded" |
| FetchMoviesFixed.FixedAgainstOriginal | scripts/fetch-movies-fixed.js:176-215 | the fixed retry agrees with the original on success and replaces its undefined with the max-retries error |
| FetchMoviesFixed.RateLimitedFromSpec | scripts/fetch-movies-fixed.js:185-196 | a save on rate limit happens iff some attempt hit 429 before any success |
| FetchMoviesFixed.Normalized | scripts/fetch-movies-fixed.js:269-279 | past page 500 the cursor moves to the next endpoint at page 1 |
| FetchMoviesFixed.StateAfterPages | scripts/fetch-movies-fixed.js:266-362 | no page beyond 500 is ever requested |
| FetchMoviesFixed.RequestedStep | scripts/fetch-movies-fixed.js:282-362 | one request advances the crawl state by that page's outcome |
| FetchMoviesFixed.RequestedSkip | scripts/fetch-movies-fixed.js:269-279 | the page cap switches endpoints without a request |
| FetchMoviesFixed.FailedPagesCount | scripts/fetch-movies-fixed.js:359-362 | n failed pages in a row add n to the error counter |
| FetchMoviesFixed.EmptyEndpointsWrap | scripts/fetch-movies-fixed.js:285-290 | four empty pages wrap the endpoint choice back to `popular` without the stop check |
| FetchMoviesFixed.Built | scripts/fetch-movies-fixed.js:309-326 | the record keeps id and title, at most 10 keywords, the poster, a backdrop iff a path, no genres without details, the Polish title or the original, the rating rounded to a tenth and the popularity rounded to an integer |
| FetchMoviesFixed.BuiltAgainstOriginal | scripts/fetch-movies-fixed.js:309-326 | for an eligible movie with genres the fixed record equals the original script's |
| FetchMoviesFixed.KeyedValues | scripts/fetch-movies-fixed.js:65-77 | the saved values have the map's keys as ids and are id-distinct |
| FetchMoviesFixed.ExtendsValues | scripts/fetch-movies-fixed.js:329-330 | adding new ids never reorders the values already there |
| FetchMoviesFixed.LoadRawMovies | scripts/fetch-movies-fixed.js:96-116 | the map indexes the file's records by id, last wins; a missing or corrupt file gives an empty map |
| FetchMoviesFixed.Session.constructor | scripts/fetch-movies-fixed.js:24-25 | an empty map and lastSaveCount 0 |
| FetchMoviesFixed.Session.SaveAllMovies | scripts/fetch-movies-fixed.js:64-91 | an empty map returns 0 and writes nothing; otherwise it writes every movie, returns the size and records it as saved |
| FetchMoviesFixed.Session.SaveIfGrown | scripts/fetch-movies-fixed.js:190-192 | saves only when the map has grown past the last save |
| FetchMoviesFixed.Session.FetchWithRetry | scripts/fetch-movies-fixed.js:176-215 | returns what `FixedRetry` specifies and saves on a rate limit only when the map has grown |
| FetchMoviesFixed.Session.AddMovie | scripts/fetch-movies-fixed.js:329-343 | stores the movie by id, counts it, and saves whenever the count is a positive multiple of 50 |
| FetchMoviesFixed.Session.ConsiderMovie | scripts/fetch-movies-fixed.js:294-343 | a duplicate is skipped iff its id is mapped; a movie missing overview or poster is skipped and counted separately |
| FetchMoviesFixed.Session.ProcessPage | scripts/fetch-movies-fixed.js:292-354 | every new value comes from this page and skip counters never exceed the results |
| FetchMoviesFixed.Session.RequestPage | scripts/fetch-movies-fixed.js:282-369 | the page is fetched with the fixed retry, and a failure saves when the map has grown |
| FetchMoviesFixed.Session.Crawl | scripts/fetch-movies-fixed.js:266-369 | requests follow the crawl state, never past page 500, and stop only at the target, 5 errors or the last endpoint |
| FetchMoviesFixed.Session.FetchMovies | scripts/fetch-movies-fixed.js:222-398 | loaded movies first in file order, then new ones; nothing is requested when the target is met; a final save covers all movies |
| FetchMoviesFixed.GrownValues | scripts/fetch-movies-fixed.js:240-354 | the values are the loaded records (last wins) followed by movies from fetched pages |
| FetchMoviesFixed.LoadedPart | scripts/fetch-movies-fixed.js:240-247 | the loaded records keep their first-seen order and last-wins values at the front |
| FetchMoviesFixed.NewPart | scripts/fetch-movies-fixed.js:329-330 | every value after the loaded part came from a fetched page |
| FetchMovieById.ParseIds | scripts/fetch-movie-by-id.js:147 | parsing never yields more ids than arguments |
| FetchMovieById.ParseIdsMembers | scripts/fetch-movie-by-id.js:147 | an id is parsed iff some argument parses to it |
| FetchMovieById.ParseIdsAppend | scripts/fetch-movie-by-id.js:147 | parsing keeps argument order |
| FetchMovieById.NotANumber | scripts/fetch-movie-by-id.js:147 | a non-numeric argument is dropped |
| FetchMovieById.ParseIdsArgs | scripts/fetch-movie-by-id.js:147 | ids written out in decimal parse back to the same ids |
| FetchMovieById.SplitIds | scripts/fetch-movie-by-id.js:161-163 | toFetch and alreadyHave are disjoint, each keeps request order, and together they are the requested ids |
| FetchMovieById.LoadedIds | scripts/fetch-movie-by-id.js:161-163 | the partition is by the ids in the loaded batch files |
| FetchMovieById.FromDetails | scripts/fetch-movie-by-id.js:57-74 | no record without genres; otherwise id and title kept, the Polish title is the title, genre names and ids of the details, images iff paths, the year, at most 10 keywords, the rating rounded to a tenth and the popularity rounded to an integer |
| FetchMovieById.MovieById | scripts/fetch-movie-by-id.js:51-83 | a movie iff the retry returns a body with genres, and then the record built from it |
| FetchMovieById.FetchMovieById | scripts/fetch-movie-by-id.js:51-83 | errors become null; the result is what `MovieById` specifies |
| FetchMovieById.NoSuccessNoMovie | scripts/fetch-movie-by-id.js:79-82 | with no successful attempt there is no movie |
| FetchMovieById.FetchedFrom | scripts/fetch-movie-by-id.js:176-183 | every collected movie is the non-null result for some requested id |
| FetchMovieById.FetchAll | scripts/fetch-movie-by-id.js:176-183 | the loop collects exactly the non-null results, in request order |
| FetchMovieById.SaveToBatch | scripts/fetch-movie-by-id.js:105-128 | the manual file becomes its entries followed by incoming movies whose ids were not there; the write is logged |
| FetchMovieById.RepeatedMovieAppendedTwice | scripts/fetch-movie-by-id.js:119-124 | because the id set is not updated in the loop, two incoming copies of a new movie are both appended |
| FetchMovieById.ManualFileReadLast | scripts/fetch-movie-by-id.js:111 | the manual file is a batch file that sorts after every numbered batch, so its entries win |
| FetchMovieById.Run | scripts/fetch-movie-by-id.js:141-194 | no API key or no ids stop early; all present fetches nothing; nothing is written unless a movie was fetched; otherwise the manual file gets the merge, the write is logged, and the consolidated file holds each id once with its last record across the batch files |
| Ingest.ImageUrl | scripts/fetch-movies.js:347-348 | no URL for an empty path; otherwise the image base followed by the path |
| Ingest.BeforeDash | scripts/fetch-movies.js:351 | the prefix before the first dash |
| Ingest.YearOfDate | scripts/fetch-movies.js:351 | a date starting with a year and a dash gives that year |
| Ingest.Keywords | scripts/fetch-movies.js:357 | at most the first 10 keywords, none when absent |
| Ingest.OrElse | scripts/fetch-movies.js:344 | the first value when non-empty, else the second |
| Ingest.MathRound | scripts/fetch-movies.js:354 | `Math.round` gives the integer within half of the value, a half rounded up |
| Ingest.RoundTenth | scripts/fetch-movies.js:352 | the stored rating is a multiple of a tenth within 0.05 of the reported one, a half rounded up |
| Ingest.PopularityRounded | scripts/fetch-movies.js:354 | a reported popularity of 100.4 is stored as 100 and 100.5 as 101; a rating of 7.25 becomes 7.3 and 7.24 becomes 7.2 |
| Ingest.LastWithSpec | scripts/fetch-movies.js:138-144 | the lookup is absent iff the id never occurs, and otherwise gives its last occurrence |
| Ingest.IndexStep | scripts/fetch-movies.js:140-142 | setting a record keeps the map indexed by the records so far |
| Ingest.SetAll | scripts/fetch-movies.js:138-144 | the loop indexes every record of a file, last wins |
| Ingest.IndexedValues | scripts/fetch-movies.js:186-197 | the values are id-distinct, in first-seen order, each the last record with its id |
| Ingest.WithNewIdsMembers | scripts/fetch-movies.js:166-175 | the incoming movies kept are exactly those whose ids are new |
| Ingest.MergeSpec | scripts/fetch-movies.js:166-175 | existing entries first, then the new-id incoming movies; every incoming id ends up present; id-distinctness is kept |
| Ingest.BatchOrderSpec | scripts/fetch-movies.js:127-129 | exactly the `movies_*.json` files, in sorted name order |
| Ingest.LoadExistingMovies | scripts/fetch-movies.js:119-151 | the map indexes the batch files' records, read in sorted order, a later file overwriting an earlier one |
| Ingest.DataDir.Listing | scripts/fetch-movies.js:127 | the directory listing has one entry per file, with its content |
| Ingest.DataDir.MergeInto | scripts/fetch-movies.js:166-177 | the file becomes its merge with the incoming movies; the write is logged |
| Ingest.DataDir.GenerateConsolidatedFile | scripts/fetch-movies.js:186-197 | the consolidated file holds every loaded movie once, in first-seen order, the last copy winning |
| JsMaps.JsMap.Set | scripts/fetch-movies.js:140-142 | setting a key replaces its value and keeps its place; a new key is appended |
| JsMaps.JsMap.Values | scripts/fetch-movies.js:190 | values are listed in key order |
| JsMaps.ObjectKeysSpec | src/app/filmy/page.tsx:48 | `Object.keys` lists every key once, the array-index keys first in ascending numeric order, the other keys in insertion order |
| JsMaps.ObjectKeysNoIndex | src/app/quiz-osobowosciowy/page.tsx:95 | without array-index keys, `Object.keys` is the insertion order |
| JsMaps.DigitKeyFirst | src/app/filmy/page.tsx:39-48 | a letter key "B" set before a digit key "1" is listed after it |
| JsNumbers.NatStringValue | scripts/fetch-movies.js:161-163 | the decimal string of n denotes n |
| JsNumbers.PadStartSpec | scripts/fetch-movies.js:161-163 | padding puts fill characters before the unchanged string |
| JsNumbers.ParseInt | scripts/fetch-movie-by-id.js:147 | a parse succeeds only on input containing a digit |
| JsNumbers.ParseDecimalString | scripts/fetch-movie-by-id.js:147 | parsing a decimal string gives back the number |
| Sorting.StableSortSorted | src/app/rankingi/page.tsx:16 | under a strict weak order the sort's result is sorted |
| Sorting.StableSortKeepsTies | src/app/premiery/page.tsx:17 | elements that compare equal keep their relative order |
| Sorting.SortedCutOff | src/app/rankingi/page.tsx:17 | an element behind a sorted prefix ranks no higher than any element in it |
| Collections.FirstOccurrencesSnoc | src/app/filmy/page.tsx:42-44 | a new key is appended on first sight only |

## Left out

- SQL text: only the placeholder bookkeeping and the clause shape are modelled. Exact whitespace and the database engine itself are not. The catalog is an in-memory sequence of rows with genre, country and keyword links.
- Catalog.SearchOrdered: ties in rating and popularity are ordered by catalog position. SQL leaves that order unspecified.
- Catalog.NamesOf: a movie's genres and countries come in the order of the link rows. The link queries of `getMovieById` and `searchMovies` have no `ORDER BY`, so SQL leaves that order unspecified.
- Quiz.QuizFlow.HandleNext: modelled without its rendering guard. The page shows "next" only on the multiple-choice genre question and disables it until `canProceed` holds. The scenarios reach later questions through `Quiz.PassGenres` and button answers, as a user does.
- The store failure paths of `searchMovies` and `getMovieById` are not modelled. Database errors are not part of this model.
- `getAllGenres` and `getDatabaseStats` are not modelled. The engine does not use them.
- Ingest.RoundTenth: rounds the exact real `x * 10`. Floating-point multiplication can land a value just below a half, and then `Math.round` rounds down where the model rounds up. `toFixed`, averages and the statistics logs are not modelled.
- `localeCompare('pl')`, `toLowerCase` and `toUpperCase` are parameters. No collation or case mapping is defined, and strings are sequences of characters with no UTF-16 details.
- `parseInt` is modelled with leading white space, an optional sign and a `0x` prefix. The loss of precision on huge numbers is not modelled.
- Randomness: `Math.random()` is a parameter, and the shuffled loading messages and delays of the home page are left out.
- Network and timers are inputs:
  - TMDb page, detail and attempt outcomes are inputs;
  - the 1-second spacing, back-off sleeps, heartbeat timers, the request-timeout race, signal handlers and `process.exit` are left out;
  - a timed-out attempt is an attempt outcome.
- FetchMovies.Processed: the detail fetch inside `getMovieDetails` (five tries around a timeout race) is the input `detailsOf`, which gives its end result.
- The fetch loops of both crawlers also stop when the input sequence of page outcomes runs out. This is an artefact of modelling the network as a finite input.
- FetchMovies.Crawl: the 5-error stop and the target stop are proved. The progress file, the error log and the console statistics are not modelled.
- `testAPI` and the API-key checks of the crawlers are left out. `FetchMovieById.Run` models its own API-key check.
- File system: batch files, the consolidated file and the manual file are entries of a `DataDir` object. A batch file that fails to parse (which crashes the original script) is not modelled. The fixed script's corrupt consolidated file is modelled as an empty load.
- In-place sorts (`movies.sort`, `scored.sort`) are modelled on values. The arrays are local, so no other code observes the update in place.
- Rendering, animations, AdSense, the layout, the navigation bar, movie cards, the watch-later list display, the progress bar and the view counter are display code. They are not part of this model.
- HTTP route handlers are thin wrappers over the engine and the catalog and are not modelled. The same goes for the page-view API, the database setup and migration scripts, the persistent crawler's restarter, and the Next.js configuration.
- The zustand `persist` machinery and localStorage are left out; only `partialize` and the rehydrated state are modelled.
- PersonalityQuiz.PersonalityQuizPage.HandleAnswer: the winner is reduced over the tally's insertion order. That is the `Object.keys` order for every answer the options produce (`TallyKeysInOrder`). An integer-like answer, which no option produces, would be listed first by JavaScript; the model does not reorder it.
- Quiz.QuizFlow.FireTimer: the 300 ms delay itself is not measured. A pending callback fires when the caller calls `FireTimer`, and pending callbacks fire in the order they were scheduled. Any other event may come in between.
- Quiz.QuizFlow.HandleAnswer: the answer's shape is required to match the question kind (an array for multiple choice, a string otherwise), as the question component always emits it.
