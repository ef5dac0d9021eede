# Job tracker core, modelled in Dafny

This project models the deterministic core of a job-tracking web application: a Fastify
server with an in-memory store, plus a React client.

**Scoring.** The server scores job postings against a user's uploaded resume with a keyword
scorer (`simpleMatch`). When an OpenAI key is configured, a language-model score is used
instead.

**The job list.** The server narrows the job list with the query's filters (search, skills,
date posted, job type, work mode, location). It then scores every job, keeps one score bucket
and sorts the result by score. It also returns the eight best matches.

**The chat assistant.** It classifies a chat message into one of four intents (rule-based
when no model answer is usable) and dispatches to one handler. The handler produces
dashboard filters and a reply, and the server keeps each user's last ten chat entries.

**State.** Users, applications (with a status timeline) and login sessions live in one
store that the route handlers update in place.

**Client.** The model covers the pure client helpers: the dashboard's filter merge, the
filter panel's comma-separated skill toggle, the job card's badge and date labels, and the
resume file check.

## Modules

One module per source file of the core, plus four shared ones:

- **Wrappers** (`Option`), **Strings** (ASCII lower-casing, `includes`/`indexOf`, `split`/`join`,
  `trim`, decimal printing) and **Seqs** (`filter`, `slice`, `find`, sub-sequences) give the
  JavaScript built-ins the core uses a meaning, with the lemmas the rest of the model needs.
- **FilterValues**: filter objects as sparse maps from a key to a JSON scalar, with truthiness.
- **LlmConfig**: the "usable API key" test shared by every language-model path.
- **Replies**: the HTTP error codes the handlers send.

The source's own form is kept where it changes state:

- `Store.Store` holds the users, applications and sessions that `addUser`, `updateUserResume`,
  `addApplication`, `updateApplication` and the route handlers reassign.
- `AssistantRoutes.Conversations` holds the per-user history map that `/chat` pushes to and trims.
- `AiAssistant.AssistantState` is the assistant's graph state; its nodes are methods updating its fields.
- `ResumeUpload.Picker` holds the upload component's `file` and `error` state.
- The score sort of the job list is an in-place insertion sort on an `array`, proved equal to a
  stable descending sort function.

Every state-changing method states its whole new state in its `ensures`. The methods of
`Store.Store`, `AuthRoutes` and `ApplicationRoutes` give the new lists and maps directly in
terms of the old ones. The history trim, the score sort and the assistant's filter copy are
proved against specification functions (`AssistantRoutes.LastN`, `JobsRoute.SortDesc`,
`AiAssistant.UsableEntries`). The properties the source promises are lemmas about those
functions:

- the filter pipeline equals one filter by the conjunction of the steps;
- the sort orders by score, is a permutation and is stable;
- the history after a chat is the last ten entries and keeps whole exchanges.

The keyword scorer at server/services/jobMatcher.js:25 divides by `job.skills.length` with
no guard. So `JobMatcher.SimpleMatch` requires non-empty skills whenever the resume is
non-empty, and every caller carries that obligation (as `JobsRoute.Scorable`).

## Model

| member | source | states |
|---|---|---|
| JobMatcher.MatchingSkills | server/services/jobMatcher.js:16-18 | the matching skills are an order-preserving sublist of the job's skills, holding exactly the skills whose lower-cased form occurs in the lower-cased resume (both directions) |
| JobMatcher.MatchingSkillsCounts | server/services/jobMatcher.js:16-18 | each matching skill appears as many times as the job lists it, and no other skill appears |
| JobMatcher.TitleWords | server/services/jobMatcher.js:27 | the title words are an order-preserving sublist of the space-split title holding exactly its tokens longer than 3 characters; none holds a space |
| JobMatcher.TitleWordsCounts | server/services/jobMatcher.js:27 | each title token longer than 3 characters appears among the title words as many times as in the title, and no shorter token appears |
| JobMatcher.DescriptionWords | server/services/jobMatcher.js:31 | the first min(10, L) of the L space-split tokens longer than 4 characters, in order: a prefix of the filtered tokens of exactly that length; each holds no space, and with fewer than 10 every longer token is there |
| JobMatcher.DescriptionWordsCounts | server/services/jobMatcher.js:31 | no description word appears more often than the description holds it; with fewer than 10 words, each token longer than 4 characters appears exactly as often |
| JobMatcher.Hits | server/services/jobMatcher.js:28 | the number of positions whose word occurs in the resume, so at most the number of words and each fraction is at most 1 |
| JobMatcher.CountsOf | server/services/jobMatcher.js:25-33 | the six counts behind the score are consistent: the skill count is positive and each hit count is at most its total |
| JobMatcher.RoundIsIntegerScore | server/services/jobMatcher.js:25-35 | the exact weighted sum 60·m/s + 20·t/max(T,1) + 20·d/max(D,1), rounded half up, equals the cross-multiplied integer formula; an empty word list divides by 1, never by 0 |
| JobMatcher.IntegerScoreBounds | server/services/jobMatcher.js:35 | the integer formula lies in [0, 100] for any consistent counts |
| JobMatcher.KeywordScore | server/services/jobMatcher.js:35 | `min(round(sum), 100)` equals the integer formula and lies in [0, 100] |
| JobMatcher.FullMatchScoresHundred | server/services/jobMatcher.js:25-35 | all skills, title words and description words found (non-empty lists) gives 100 |
| JobMatcher.NoMatchScoresZero | server/services/jobMatcher.js:25-35 | nothing found gives 0 |
| JobMatcher.SkillsOnlyScore | server/services/jobMatcher.js:27-35 | with no long title or description words only the skill term counts: round(60·m/s) |
| JobMatcher.ExplanationBand | server/services/jobMatcher.js:37-44 | the explanation starts with "Strong match!" iff score > 70, "Moderate match." iff 40 ≤ score ≤ 70, "Low match." iff score < 40 |
| JobMatcher.ExplanationListsSkills | server/services/jobMatcher.js:39-43 | the explanation ends with the first three matching skills (strong), all matching skills or "some relevant experience" when there are none (moderate), the first three job skills (low) |
| JobMatcher.SimpleMatch | server/services/jobMatcher.js:6-47 | an empty resume gives exactly score 0, "No resume uploaded" and no skills; otherwise the matching skills, the integer-formula score and that score band's explanation; the score is always in [0, 100] |
| JobMatcher.ClampScore | server/services/jobMatcher.js:96 | the model's score clamped into [0, 100]: 0 when missing or negative, 100 above 100, unchanged inside |
| JobMatcher.FromLlm | server/services/jobMatcher.js:95-99 | clamped score; a given non-empty explanation is kept and the result is never empty ("AI analysis completed" otherwise); given skills are kept, missing ones become [] |
| JobMatcher.AiMatch | server/services/jobMatcher.js:50-115 | without a usable key, or when the model failed or gave no JSON, the result is `simpleMatch`'s; otherwise it is built from the parsed answer; the score is always in [0, 100] |
| AiAssistant.RuleIntent | server/services/aiAssistant.js:55-67 | always one of the four intents; "clear"/"reset" gives clear_filters whatever else the message says; filter_update iff no clear/reset word and some filter keyword; help iff neither of those and "help"/"how" |
| AiAssistant.DetectedIntent | server/services/aiAssistant.js:17-69 | always one of the four intents; without a usable key or a model answer the rules decide; a model label is used only when, trimmed and lower-cased, it is one of the four |
| AiAssistant.RouteIntent | server/services/aiAssistant.js:183-195 | total: each of filter_update, clear_filters, help maps to its own node (iff), every other value to job search |
| AiAssistant.UsableEntries | server/services/aiAssistant.js:105-107 | keeps exactly the model's entries whose value is truthy and not "null", with their values |
| AiAssistant.LlmFilters | server/services/aiAssistant.js:78-112 | nothing without a usable key or a parsed answer; with both, exactly the parsed answer's usable entries, values unchanged |
| AiAssistant.CopyUsable | server/services/aiAssistant.js:105-107 | the copying loop produces exactly the usable entries |
| AiAssistant.LastCityIsLast | server/services/aiAssistant.js:125-128 | the location is the capitalised mentioned city latest in the list |
| AiAssistant.LastCityNone | server/services/aiAssistant.js:125-128 | no location is set iff no city of the list is mentioned |
| AiAssistant.AssignCity | server/services/aiAssistant.js:125-128 | the city loop, each match overwriting the last, sets the location to the last mentioned city |
| AiAssistant.KeywordAssignments | server/services/aiAssistant.js:116-128 | the assignments in source order equal the filters stated by priority: on-site over hybrid over remote, contract over part-time over full-time, "high match", last city |
| AiAssistant.CityFromList | server/services/aiAssistant.js:125-128 | a found location is one of the five cities, capitalised |
| AiAssistant.KeywordVocabulary | server/services/aiAssistant.js:116-128 | the fallback sets only workMode, jobType, matchScore and location, each to a value from its fixed list |
| AiAssistant.ExtractFilters | server/services/aiAssistant.js:76-131 | the filters are the model's usable entries, or the keyword fallback when none survive |
| AiAssistant.FallbackOnlyWhenEmpty | server/services/aiAssistant.js:114-115 | when some model entry is usable the fallback does not run and the filters are exactly the usable entries |
| AiAssistant.Describe | server/services/aiAssistant.js:135-139 | one reply line iff the key's value is truthy, the caption followed by the printed value |
| AiAssistant.DescriptionsEmpty | server/services/aiAssistant.js:134-145 | the reply lists no filter iff none of workMode, jobType, location, search, matchScore is set |
| AiAssistant.PushDescription | server/services/aiAssistant.js:135-139 | one conditional push appends that key's line, if any |
| AiAssistant.ComposeFilterReply | server/services/aiAssistant.js:133-145 | the reply lists the set fields in the order workMode, jobType, location, search, matchScore, or is the fixed clarifying sentence |
| AiAssistant.AssistantState.constructor | server/services/aiAssistant.js:244-249 | the initial state: the messages, no intent, no filters, empty response |
| AiAssistant.AssistantState.DetectIntent | server/services/aiAssistant.js:17-70 | the intent becomes the detected intent of the newest message; nothing else changes |
| AiAssistant.AssistantState.UpdateFilters | server/services/aiAssistant.js:73-148 | the filters become those extracted from the newest message and the response describes them; messages and intent are unchanged |
| AiAssistant.AssistantState.ClearFilters | server/services/aiAssistant.js:151-155 | filters become `{clear: true}` with the cleared sentence |
| AiAssistant.AssistantState.SearchJobs | server/services/aiAssistant.js:158-166 | only the response changes, to the search hints |
| AiAssistant.AssistantState.ProvideHelp | server/services/aiAssistant.js:169-180 | only the response changes, to the help text |
| AiAssistant.ProcessAssistantMessage | server/services/aiAssistant.js:240-267 | history followed by the message is the initial state; detection, one routed node, then the reply; a failure gives the error reply |
| AiAssistant.ReplyIntent | server/services/aiAssistant.js:240-267 | the reply's intent is "error" iff processing failed, and otherwise one of the four intents |
| AiAssistant.ReplyFilters | server/services/aiAssistant.js:240-265 | clear_filters carries `{clear: true}`; help, job_search and error carry `{}`; filter_update carries the extracted filters and their description |
| JobsRoute.WantedSkills | server/routes/jobs.js:43 | one wanted entry per comma piece, each trimmed and lower-cased |
| JobsRoute.Cutoff | server/routes/jobs.js:51-56 | a cutoff exists iff the key is 24h, week or month |
| JobsRoute.BySearch | server/routes/jobs.js:34-40 | keeps exactly the jobs whose lower-cased title or description contains the lower-cased term; an empty term keeps all |
| JobsRoute.BySkills | server/routes/jobs.js:42-47 | keeps exactly the jobs with a skill, lower-cased, equal to some wanted entry; no parameter keeps all |
| JobsRoute.ByDate | server/routes/jobs.js:49-60 | "any", no value or an unknown key keeps all; otherwise keeps the jobs posted at most the cutoff before now |
| JobsRoute.ByJobType | server/routes/jobs.js:62-64 | keeps the jobs of exactly that type; no parameter keeps all |
| JobsRoute.ByWorkMode | server/routes/jobs.js:66-68 | keeps the jobs of exactly that work mode; no parameter keeps all |
| JobsRoute.ByLocation | server/routes/jobs.js:70-73 | keeps the jobs whose location contains the term, case-insensitively; no parameter keeps all |
| JobsRoute.ContentFilters | server/routes/jobs.js:31-60 | the search, skills and date steps in sequence equal one filter by their conjunction |
| JobsRoute.ApplyFilters | server/routes/jobs.js:31-73 | the six steps in sequence equal one filter of the provider's list by all six conditions |
| JobsRoute.ListedIff | server/routes/jobs.js:31-73 | a job is listed iff it is in the provider's list and passes every given filter |
| JobsRoute.NoFiltersKeepAll | server/routes/jobs.js:31-73 | a query with no filter parameter keeps the whole list |
| JobsRoute.ResumeTextOf | server/routes/jobs.js:76-77 | the user's resume text, or "" without a user or a resume |
| JobsRoute.ScoreAll | server/routes/jobs.js:80-90 | one scored entry per job, in order, carrying that job and its match result; every score in [0, 100] |
| JobsRoute.NoResumeScoresZero | server/routes/jobs.js:76-90 | without a resume and a usable key every job scores 0 with "No resume uploaded" |
| JobsRoute.BucketIff | server/routes/jobs.js:92-98 | a scored job is kept iff it is in its bucket ("high" > 70, "medium" 40–70, anything else all); the kept list keeps the order |
| JobsRoute.Insert | server/routes/jobs.js:101 | one insertion adds exactly one element |
| JobsRoute.SortDesc | server/routes/jobs.js:101 | the sort keeps the length (order, permutation and stability in the lemmas below) |
| JobsRoute.InsertMultiset | server/routes/jobs.js:101 | insertion adds exactly the inserted element to the multiset |
| JobsRoute.InsertDescending | server/routes/jobs.js:101 | insertion into a descending list keeps it descending |
| JobsRoute.SortDescDescending | server/routes/jobs.js:101 | the sorted list has non-increasing scores |
| JobsRoute.SortDescPermutes | server/routes/jobs.js:101 | the sorted list is a permutation of its input |
| JobsRoute.InsertStable | server/routes/jobs.js:101 | insertion puts the element after every element of its score |
| JobsRoute.SortDescStable | server/routes/jobs.js:101 | jobs with equal scores keep their relative order |
| JobsRoute.InsertLands | server/routes/jobs.js:101 | insertion puts the element right after the last element scoring at least as much |
| JobsRoute.ShiftLower | server/routes/jobs.js:101 | the shifting loop moves the lower-scoring elements before `i` one place right and stops at the first at least as high |
| JobsRoute.InsertStep | server/routes/jobs.js:101 | one step of the in-place sort leaves the prefix equal to the insertion of the next element; the rest of the array is unchanged |
| JobsRoute.SortByScore | server/routes/jobs.js:101 | the array afterwards holds the stable descending sort of its old contents |
| JobsRoute.ListJobs | server/routes/jobs.js:19-107 | the jobs are the filtered list, scored, bucketed and sorted by score; `total` is their number |
| JobsRoute.BestAreBest | server/routes/jobs.js:133-136 | the top list has min(n, 8) entries, all from the scored list, in non-increasing order, and no job left out scores higher than one kept |
| JobsRoute.BestMatches | server/routes/jobs.js:110-142 | no resume gives no jobs; otherwise the first eight of all jobs scored and sorted, with their number |
| AssistantRoutes.LastN | server/routes/assistant.js:42-44 | the trim keeps min(len, n) entries, and they are the last ones of the list, in order |
| AssistantRoutes.Flatten | server/routes/assistant.js:38-39 | a history of exchanges has two entries per exchange |
| AssistantRoutes.FlattenAppend | server/routes/assistant.js:38-39 | one more exchange appends its message and then its reply |
| AssistantRoutes.FlattenIndices | server/routes/assistant.js:38-39 | user messages sit at even indices, replies at odd ones |
| AssistantRoutes.KeptTurns | server/routes/assistant.js:42-44 | at most five exchanges are kept, the newest last |
| AssistantRoutes.TrimKeepsTurns | server/routes/assistant.js:38-44 | trimming to the last 10 entries after an exchange keeps whole exchanges: the last five |
| AssistantRoutes.Conversations.constructor | server/routes/assistant.js:17 | no histories at start |
| AssistantRoutes.Conversations.Open | server/routes/assistant.js:29-32 | a user without a history gets an empty one; other histories are unchanged |
| AssistantRoutes.Conversations.Record | server/routes/assistant.js:38-44 | the history becomes the last 10 of old history + [message, reply]; other users' histories are unchanged |
| AssistantRoutes.Conversations.Chat | server/routes/assistant.js:21-51 | an empty message is rejected with no history created or changed; otherwise the reply is computed from the message and the model answers alone, without depending on the history, and the history becomes the last 10 of old history + [message, reply] |
| AssistantRoutes.Conversations.Clear | server/routes/assistant.js:54-57 | only this user's history is removed, so the next chat starts empty |
| AssistantRoutes.ChatHistoryShape | server/routes/assistant.js:38-44 | after a chat the history has at most 10 entries and ends with the message followed by its reply |
| AssistantRoutes.ChatHistoryParity | server/routes/assistant.js:38-44 | starting from whole exchanges, the history has even length with each message at an even index, followed by its reply |
| Store.Patched | server/store.js:54 | `Object.assign` with a patch that carries no id, user, job or applied time: those are kept, and status and timeline are the patch's when given, the old ones otherwise |
| Store.CanonicalIdsUnique | server/store.js:21 | ids "1", "2", … given by position are pairwise distinct |
| Store.SeedCanonical | server/store.js:3-10 | the seed user has id "1", the id of position 0 |
| Store.CanonicalAppend | server/store.js:19-28 | appending the next id keeps ids canonical |
| Store.Store.constructor | server/store.js:2-13 | the seeded store: the test user, no applications, no sessions |
| Store.Store.GetUser | server/store.js:15-17 | the first user with the email, or none iff no user has it |
| Store.Store.GetUserById | server/store.js:30-32 | the first user with the id, or none iff no user has it |
| Store.Store.GetApplications | server/store.js:42-44 | exactly that user's applications, in insertion order, each as many times as it is stored |
| Store.Store.GetApplicationByJobId | server/store.js:59-61 | the first stored application of that user for that job, or none iff there is none |
| Store.Store.AddUser | server/store.js:19-28 | appends one user with id = string(count + 1) and no resume; everything else unchanged; ids stay canonical and sessions valid |
| Store.Store.UpdateUserResume | server/store.js:34-40 | replaces only the resume of the first user with the id; no change for an unknown id |
| Store.Store.AddApplication | server/store.js:46-49 | appends the application at the end; nothing else changes |
| Store.Store.UpdateApplication | server/store.js:51-57 | patches only the first application with the id; no change for an unknown id |
| AuthRoutes.BearerToken | server/routes/auth.js:68-70 | the token is the header with its first "Bearer " removed when that is non-empty; no header, or an empty remainder, gives no token |
| AuthRoutes.BearerPrefix | server/routes/auth.js:68 | a "Bearer t" header yields t |
| AuthRoutes.SessionUser | server/routes/applications.js:4-13 | the session check yields a user id iff the token is in the session map, and then the mapped id |
| AuthRoutes.Register | server/routes/auth.js:5-31 | missing email or password, or an existing email, is rejected with no change; otherwise one user is added, one session maps the token to its id, and `hasResume` is false |
| AuthRoutes.Login | server/routes/auth.js:34-55 | an unknown email or wrong password is rejected with sessions unchanged; otherwise a session for that user is added and `hasResume` reflects the stored resume |
| AuthRoutes.Logout | server/routes/auth.js:58-64 | removes only the presented token; succeeds without one |
| AuthRoutes.Verify | server/routes/auth.js:67-88 | a missing or unknown token and a vanished user are rejected; otherwise that session's user is returned |
| AuthRoutes.VerifyFindsUser | server/routes/auth.js:74-79 | in a consistent store a live session always finds its user |
| ApplicationRoutes.NewApplication | server/routes/applications.js:32-48 | status "applied", one timeline entry {applied, "Application submitted"}, `appliedVia` defaulting to "direct" |
| ApplicationRoutes.WithStatus | server/routes/applications.js:67-74 | one timeline entry appended with the given status and note (or "Status updated to …"); the status equals the last entry's |
| ApplicationRoutes.Create | server/routes/applications.js:23-53 | a second application to the same job is rejected with no change; otherwise the new record is appended; at most one application per (user, job) is preserved |
| ApplicationRoutes.Patch | server/routes/applications.js:56-77 | an id that is missing or not the caller's gives "not found" with no change; otherwise only that application changes, by one timeline entry and its status |
| ApplicationRoutes.ApplicationForJob | server/routes/applications.js:80-89 | the caller's first stored application for the job, or "not found" iff there is none |
| ApplicationRoutes.PatchKeepsHistory | server/routes/applications.js:67-71 | two PATCHes add two entries and keep the earlier ones; any status may follow any other |
| Dashboard.MergeAssistantFilters | client/src/pages/Dashboard.jsx:20-26 | a truthy `clear` resets to `{}`; otherwise the keys are the union, new values win and absent keys keep the previous value |
| Dashboard.MergeEmpty | client/src/pages/Dashboard.jsx:24 | merging `{}` changes nothing |
| Dashboard.ClearReplyResets | client/src/pages/Dashboard.jsx:21-22 | the assistant's clear reply empties the filters, whatever they were |
| Dashboard.MergeIdempotent | client/src/pages/Dashboard.jsx:20-26 | applying the same update twice gives what it gave once |
| Dashboard.OnClearFilters | client/src/pages/Dashboard.jsx:40 | the job feed's clear callback leaves no key |
| FiltersPanel.HandleChange | client/src/components/Filters.jsx:10-12 | sets the one key to the value; every other key and value is unchanged |
| FiltersPanel.ToggledSkills | client/src/components/Filters.jsx:16-18 | a selected skill is removed everywhere and every other entry kept, in order and with its multiplicity; an unselected one is appended |
| FiltersPanel.HandleSkillToggle | client/src/components/Filters.jsx:14-21 | `skills` becomes the toggled selection joined with commas, and stays a string; every other key and value is unchanged |
| FiltersPanel.RemoveAppended | client/src/components/Filters.jsx:16-18 | removing a just-appended skill gives back the list |
| FiltersPanel.ToggleTwice | client/src/components/Filters.jsx:15-20 | toggling an unselected comma-free skill twice restores the parsed selection, and the very string when one was set |
| JobCard.BadgeClass | client/src/components/JobCard.jsx:21-25 | success iff score > 70, warning iff 40–70, muted iff < 40 |
| JobCard.CeilDiv | client/src/components/JobCard.jsx:31 | `Math.ceil(a / b)`: the least r with b·r ≥ a |
| JobCard.DateLabel | client/src/components/JobCard.jsx:33-37 | 1 "Today", 2 "Yesterday", 0 and 3–7 "N days ago", 8–30 ceil(d/7) weeks (2–5), above 30 ceil(d/30) months |
| JobCard.FormatDateSymmetric | client/src/components/JobCard.jsx:30-31 | dates equally far in the past and in the future get the same label |
| JobCard.WithinADayIsToday | client/src/components/JobCard.jsx:30-33 | any positive distance up to one day reads "Today" |
| JobCard.ShownSkills | client/src/components/JobCard.jsx:64 | the first min(n, 5) skills |
| JobCard.MoreBadge | client/src/components/JobCard.jsx:67-69 | "+(n−5) more" appears iff n > 5 |
| JobCard.BadgesAccountForAll | client/src/components/JobCard.jsx:64-69 | shown badges plus the "+N more" count equal the number of skills |
| ResumeUpload.FileError | client/src/components/ResumeUpload.jsx:14-23 | the type error iff the type is not PDF or plain text; the size error iff the type is accepted and the size exceeds 5 MiB; no error otherwise |
| ResumeUpload.ExactlyFiveMiB | client/src/components/ResumeUpload.jsx:20 | exactly 5 MiB is accepted |
| ResumeUpload.Picker.constructor | client/src/components/ResumeUpload.jsx:6-8 | no file, no error |
| ResumeUpload.Picker.HandleFileChange | client/src/components/ResumeUpload.jsx:10-27 | no selection changes nothing; a refused file sets its error and leaves `file`; an accepted file is stored and the error cleared |
| Strings.IndexOfFirst | server/services/jobMatcher.js:17 | `indexOf` finds the first occurrence, and finds none only when there is none |
| Strings.ContainsOccurs | server/services/jobMatcher.js:17 | `includes` holds iff the substring occurs somewhere |
| Strings.ReplaceFirst | server/routes/auth.js:68 | `replace` with a string pattern replaces only the first occurrence, if any |
| Strings.SplitSepFree | server/services/jobMatcher.js:27 | no piece of a split holds the separator |
| Strings.JoinSplit | client/src/components/Filters.jsx:15-20 | joining the pieces of a split gives the string back |
| Strings.SplitJoin | client/src/components/Filters.jsx:15-20 | splitting the join of non-empty, separator-free pieces gives the pieces back |
| Strings.NatToStringInjective | server/store.js:21 | different numbers print differently |
| Seqs.Filter | server/store.js:43 | `filter` keeps exactly the elements satisfying the predicate, in order |
| Seqs.FilterMultiset | server/store.js:43 | `filter` keeps every copy of each element it keeps and no copy of the others |
| Seqs.FilterCount | server/services/jobMatcher.js:28 | the length of a filtered list is the number of positions whose element passes |
| Seqs.FirstIndex | server/store.js:16 | `find` stops at the first element satisfying the predicate, or finds none iff there is none |
| Seqs.Take | server/routes/jobs.js:136 | `slice(0, n)` is the prefix of length min(len, n) |

## Left out

- The language-model calls (ChatOpenAI, prompt templates, the LangGraph state graph) are foreign network calls. The parsed answers and a failure flag are parameters, and the graph is a direct dispatch from the detected intent to one node.
- Extracting and parsing the JSON object from the model's text is library regex and JSON work. The parsed map (or its absence) is an input.
- The job provider is static mock data behind a delay; the job list is a parameter.
- Resume upload on the server (file writes, PDF text extraction), the Fastify/CORS wiring and the client's HTTP wrapper are I/O and are not part of this model.
- React rendering and network effects of the other pages and components are not part of this model.
- `Date.now`, `new Date().toISOString()`, `Math.random` and base64 tokens are parameters. The model assumes nothing about their uniqueness.
- ApplicationRoutes.NewApplication and ApplicationRoutes.Patch take one time `now` per request. The source calls `new Date()` separately for each field (server/routes/applications.js:40, 44, 69, 74), so its timestamps can differ by a millisecond.
- The concurrent `Promise.all` scoring is a plain map over the list; each job's score is independent of the others.
- JobsRoute.ScoreAll and JobsRoute.ListJobs take the language-model answers as a function of the job record, so two identical job records get the same answer. The source makes one request per job and promises no such agreement.
- The repeated `verifyAuth` middleware is one session lookup (`AuthRoutes.SessionUser`). The handlers take the user id it yields.
- JavaScript floating-point arithmetic in the scorer is modelled exactly, as rationals and as an equal integer formula. Results that differ only by binary rounding at a .5 boundary are not captured.
- `toLowerCase`, `toUpperCase` and `trim` are ASCII-only, with no Unicode case mapping or Unicode white space.
- JobMatcher.TitleWords and JobMatcher.DescriptionWords measure a word's length in code points. JavaScript's `length` counts UTF-16 code units, so a word with characters outside the Basic Multilingual Plane can pass `|w| > 3` there and not here.
- JobMatcher.SimpleMatch: an empty `job.skills` with a non-empty resume makes the source divide 0 by 0 and score NaN. The model excludes that input by a precondition instead of modelling NaN.
- JobsRoute.Cutoff: a `datePosted` naming an inherited property of a plain object (for example "constructor") would be truthy in the source's lookup table. Such keys are treated as unknown.
- Store.Patched: `Object.assign` copies any key of the update, including id, userId, jobId and appliedAt, and can add new keys. The patch type has only jobTitle, company, status, appliedVia, timeline and updatedAt, so the model does not capture how updateApplication overwrites the four identity keys or adds others. updateApplication is imported by server/routes/applications.js but has no caller in the source.
- JobMatcher.ClampScore and JobMatcher.FromLlm: the model's score is an optional integer. In the source it is any JSON value. A fractional 72.5 is kept unrounded, a string such as "85" is coerced to 85, and a non-numeric string gives NaN. None of these cases is modelled.
- AssistantRoutes.Conversations.Chat: the handler reads the history, awaits the assistant, then pushes (server/routes/assistant.js:32, 35, 38-39). Requests that interleave are not modelled. A `/clear` during the await leaves the pushes on an array no longer in the map, and two concurrent chats each miss the other's exchange.
- ApplicationRoutes.Patch: the status is a string here. A PATCH body without `status` stores `status: undefined` in the application and its new timeline entry, with the note "Status updated to undefined" (server/routes/applications.js:58, 70, 73). That case is not modelled.
- AuthRoutes.Register and AssistantRoutes.Conversations.Chat: body fields (the email and password, and the chat message) are strings, with "" for a missing one. Non-string values and JavaScript truthiness of other types are not modelled, for example a numeric chat message that passes the `!message` guard at server/routes/assistant.js:24.
- Filter values in `FilterValues` are each a string, a boolean, an integer or null. The model's parsed answer (server/services/aiAssistant.js:105-107) can also carry arrays, objects and fractional numbers. The source keeps these when truthy and prints them in its reply (aiAssistant.js:135-139, for example as "[object Object]"). The model drops them.
- JobsRoute.SortDescStable: stability is stated per score value, as the subsequence of elements with that score (`ScoreRun`). It is not restated as a filter.
- JobsRoute.BestMatches: without a resume the source's reply has no `total` field. The model returns 0 for it.
- JobsRoute.ShiftLower and JobsRoute.SortByScore sort with insertion sort. The source calls the engine's stable `Array.prototype.sort`; only the resulting order is modelled, which is the same for any stable sort.
- Strings.Lower: its only contract is that the length is kept; its meaning is its per-character definition.
- The client validation of the resume picker models only `handleFileChange`. The upload request and its progress state are not part of this model.
