# BuildUpAI core in Dafny

This project models the decision logic of BuildUpAI (CareerLift AI). That logic covers:

- the backend's `/api/analyze` handler, which checks a resume and a career goal, asks Gemini for a structured analysis and merges metadata into the reply;
- the two response schemas the backend hands to Gemini;
- the upload-cleanup helper;
- the rules inside three front-end pages: the upload/analyse page, the course-management page and the dashboard.

Modules:

| module | file | models |
|---|---|---|
| `Wrappers` | wrappers.dfy | `Option` |
| `Seqs` | seqs.dfy | order-preserving `filter`, with its subsequence and count lemmas |
| `JsString` | js_string.dfy | `String.prototype.trim` and its white-space set; decimal numerals and array-index keys; `Number(string)` for integers |
| `Json` | json.dfy | the value a JavaScript program sees: truthiness, optional-chaining property access, `String(v)`, object spread |
| `Schema` | schema.dfy | Gemini's `responseSchema` format (STRING, INTEGER, ARRAY, OBJECT, `required`) and what it means for a value to conform |
| `AnalysisSchema` | analysis_schema.dfy | `backend/constants/analysisSchema.js` |
| `LearningSchema` | learning_schema.dfy | `backend/constants/learningSchema.js` |
| `AnalyzeHandler` | analyze_handler.dfy | the `/api/analyze` handler of `backend/server.js`, as the pure function `Analyze` |
| `FileUtils` | file_utils.dfy | `cleanupFile`, as a method on a class whose field is the set of existing paths |
| `UploadPage` | upload_page.dfy | `UploadPage.jsx`: the pure checks plus a `Page` class whose methods are the handlers |
| `AddCoursePage` | add_course_page.dfy | `AddCoursePage.jsx`: a `Page` class for the list and the drawer form |
| `DashboardPage` | dashboard_page.dfy | `DashboardPage.jsx`: view selection and score colour |

`Analyze` gets everything from outside as parameters:

- the request body;
- the API key, or none;
- the upstream call `call: GeminiRequest -> Upstream`, which returns a reply envelope or an exception's response data and message;
- `JSON.parse` as `parse: string -> Option<Json>`;
- the current time as an ISO string.

It returns the HTTP response together with the request it sent, if it sent one. That pairing lets the lemmas state when Gemini is called and with what.

The front-end handlers work the same way:

- The settled result of each network promise is a method parameter. So is the confirmation answer.
- A request the handler would send is a method result.

The repository's description says replies are checked for the required keys, but the handler never checks them: it returns whatever `JSON.parse` yields, merged with three fields. The model follows the code. `AnalysisSchema.IsAnalysisReply` is therefore the contract Gemini is asked to honour, and `MergeKeepsConformance` shows the merge keeps it.

One behaviour of the code is worth noting. After a successful save, `handleSave` sets a success notice and then calls `handleCloseDrawer`, which clears it again. So `AddCoursePage.Page.Save` ends with `success == None`.

## Model

| member | source | states |
|---|---|---|
| AnalyzeHandler.Analyze | backend/server.js:51-129 | the handler as one function of the body, the key, the upstream call, the parser and the clock; it returns the response and the request sent, if any. Its properties are the lemmas below |
| AnalyzeHandler.ComposeRequest | backend/server.js:63-84 | the URL with the key, the payload built from the query, and the 60000 ms timeout. `SentRequestShape` and `QueryEmbedsInputs` state what they hold |
| AnalyzeHandler.Respond | backend/server.js:86-128 | the response computed from the upstream outcome once Gemini has been called; `RespondStatus`, `SuccessExactly` and the rejection lemmas state its cases |
| AnalyzeHandler.ExtractSources | backend/server.js:102-112 | the `sources` list, or the TypeError that `.map`, or the read of `web` on a null attribution, throws; `SourcesFiltered` states it |
| AnalyzeHandler.Merge | backend/server.js:114-119 | the merged reply `{...analysisResult, timestamp, careerGoal, sources}`; `SuccessMerge` and `MergeKeepsConformance` state it |
| AnalyzeHandler.InputGuard | backend/server.js:53-57 | the status is 400 exactly when `resumeText` or `careerGoal` of `req.body \|\| {}` is falsy; the response is then "resumeText and careerGoal are required." and nothing is sent upstream |
| AnalyzeHandler.KeyGuard | backend/server.js:59-61 | with both inputs truthy and no key, the outcome is 500 "GEMINI_API_KEY is not configured on the server." and no request is sent |
| AnalyzeHandler.CallOnlyPastGuards | backend/server.js:53-84 | Gemini is called exactly when both inputs are truthy, a key is set, `resumeText` is a string and `String(careerGoal)` does not throw; the request is the one composed from them, and the response is the one computed from the upstream outcome |
| AnalyzeHandler.NoCallNoInfluence | backend/server.js:55-61 | when no request is sent, the upstream, the parser and the clock do not affect the outcome |
| AnalyzeHandler.NonStringResumeFails | backend/server.js:67 | a truthy non-string `resumeText` makes `substring` throw, so the answer is the generic 500 with the TypeError's message as details, and nothing is sent |
| AnalyzeHandler.UnconvertibleGoalFails | backend/server.js:69 | a goal whose conversion to a string throws (an object with its own `toString` key, or an array holding one) gives the generic 500 with "Cannot convert object to primitive value" as details, and nothing is sent |
| AnalyzeHandler.Truncate | backend/server.js:67 | the truncated resume has length min(\|s\|, 5000) and is a prefix of `s` |
| AnalyzeHandler.QueryEmbedsInputs | backend/server.js:69 | the user query contains `String(careerGoal)` and the truncated resume, and its length is the two plus the fixed template text, so it is bounded by the template plus the goal plus 5000 |
| AnalyzeHandler.SentRequestShape | backend/server.js:63-84 | the request carries the query as its one content part, the system prompt, the `google_search` tool, MIME type "application/json" and the analysis schema; its URL contains the key, and its timeout is 60000 ms |
| AnalyzeHandler.InlineSchemaIsAnalysisSchema | backend/server.js:22-49 | the inline `ANALYSIS_SCHEMA` is the same schema as `backend/constants/analysisSchema.js` |
| AnalyzeHandler.EmptyReplyRejected | backend/server.js:86-92 | a falsy `candidates[0].content.parts[0].text` gives 500 "Gemini response was empty or malformed." |
| AnalyzeHandler.UnparsableReplyRejected | backend/server.js:94-100 | text that does not parse, or whose conversion to a string throws inside `JSON.parse`, gives 500 "Failed to parse Gemini JSON response." |
| AnalyzeHandler.UpstreamFailureReported | backend/server.js:122-128 | an upstream exception gives 500 "Failed to analyze resume with Gemini." with its response data as details when that is truthy, and otherwise its message |
| AnalyzeHandler.RespondStatus | backend/server.js:86-128 | once Gemini has been called, the status is 200 or 500 |
| AnalyzeHandler.SourcesFiltered | backend/server.js:102-112 | sources are empty when the metadata or the attributions are falsy, and a non-array attribution list throws. An array attribution list yields sources exactly when none of its items is null; a null item throws "Cannot read properties of null (reading 'web')". Otherwise the sources keep the mapped `{uri, title}` pairs whose uri and title are both truthy, in their original order, each as often as in the mapped list |
| AnalyzeHandler.SuccessMerge | backend/server.js:114-121 | on success the body holds `timestamp` (the clock's value), the request's `careerGoal` and the filtered `sources`, overriding the model's fields of those names; any other key is present exactly when the parsed value has it, with the same value |
| AnalyzeHandler.SuccessExactly | backend/server.js:86-121 | the status is 200 exactly when the upstream replied with non-empty text that converts to a string, parses, and whose sources extraction does not throw; every other case is 500 |
| AnalyzeHandler.MergeKeepsConformance | backend/server.js:114-119 | merging keeps conformance to the analysis schema, since scores and arrays are passed through unchecked |
| Json.Truthy | backend/server.js:55 | JavaScript truthiness: `undefined`, null, false, 0 and "" are falsy, everything else is truthy |
| Json.Get | backend/server.js:87 | optional-chaining property access: a missing property or a non-object yields `undefined`; arrays by index key, strings by index |
| Json.JsToString | backend/server.js:69 | `String(v)` for values where it does not throw; `ToStringThrows` names the rest |
| Json.Spread | backend/server.js:114-115 | the own enumerable properties `{...v}` copies: an object's fields, an array's or a string's index keys, nothing for other values |
| Json.SpreadAgreesWithGet | backend/server.js:114-115 | `{...v}` has a key exactly when reading that property of `v` yields a value, and it holds the same value (objects, arrays and strings alike) |
| AnalysisSchema.AnalysisConformance | backend/constants/analysisSchema.js:1-28 | a value conforms to the analysis schema exactly when it is an object with an integer `resumeScore`, a string array `missingSkills`, a `recommendations` object and a string `summary` |
| AnalysisSchema.RequiredKeys | backend/constants/analysisSchema.js:27 | the required keys are exactly `resumeScore`, `missingSkills`, `recommendations` and `summary`, in the order the properties are declared |
| AnalysisSchema.ScoreIsUnbounded | backend/constants/analysisSchema.js:4 | every integer, including ones outside 0..100, is an acceptable `resumeScore` |
| AnalysisSchema.StringArrayConformance | backend/constants/analysisSchema.js:5-9 | an ARRAY-of-STRING schema accepts exactly arrays whose items are all strings |
| AnalysisSchema.RecommendationsConformance | backend/constants/analysisSchema.js:10-24 | `recommendations` conforms exactly when it is an object whose `certifications` and `opportunities` are, where present, string arrays; both are optional |
| LearningSchema.CourseConformance | backend/constants/learningSchema.js:5-17 | a course conforms exactly when it is an object with string `title`, `provider` and `link`, and `cost`, `duration` and `level` are strings where present |
| LearningSchema.OpportunityConformance | backend/constants/learningSchema.js:19-30 | an opportunity conforms exactly when it is an object with string `name` and `link`, and `description` and `difficulty` are strings where present |
| LearningSchema.LearningConformance | backend/constants/learningSchema.js:1-34 | a learning reply conforms exactly when it is an object whose `courses` is an array of conforming courses and whose `opportunities` is an array of conforming opportunities |
| LearningSchema.ListsRequired | backend/constants/learningSchema.js:33 | a conforming reply has both `courses` and `opportunities` |
| FileUtils.AfterCleanup | backend/utils/fileUtils.js:4-5 | cleanup only removes paths, removes a truthy target, and keeps every other path |
| FileUtils.CleanupNoOp | backend/utils/fileUtils.js:4 | a falsy path or a missing file leaves the set of files unchanged |
| FileUtils.CleanupRemovesExactlyTarget | backend/utils/fileUtils.js:4-5 | for a non-empty path the files afterwards are the files before minus that path |
| FileUtils.CleanupIdempotent | backend/utils/fileUtils.js:4-5 | a second cleanup with the same path changes nothing |
| FileUtils.FileStore.Exists | backend/utils/fileUtils.js:4 | `existsSync` is true exactly for a path in the store |
| FileUtils.FileStore.Unlink | backend/utils/fileUtils.js:5 | `unlinkSync` of an existing path removes exactly that path |
| FileUtils.FileStore.CleanupFile | backend/utils/fileUtils.js:3-7 | the new set of files is `AfterCleanup` of the old one |
| JsString.Trim | frontend/src/pages/UploadPage.jsx:76-82 | `String.prototype.trim`: drops white space and line terminators at both ends; `TrimIsInfix` and `TrimIdempotent` state it |
| JsString.TrimIsInfix | frontend/src/pages/UploadPage.jsx:76-82 | `trim()` yields the infix left after removing white space at both ends, and the result neither starts nor ends with white space |
| JsString.TrimIdempotent | frontend/src/pages/UploadPage.jsx:76-82 | trimming twice is trimming once |
| UploadPage.CheckAnalyze | frontend/src/pages/UploadPage.jsx:69-82 | the two checks of `handleAnalyze` and the final goal; `FinalGoalResolution` states it |
| UploadPage.AnalyzeDisabled | frontend/src/pages/UploadPage.jsx:272 | the analyse button is disabled while analysing or uploading, or while the resume has under 50 characters; `EnabledButtonPassesLengthCheck` uses it |
| UploadPage.UploadDisabled | frontend/src/pages/UploadPage.jsx:157 | the upload button is disabled with no file selected, or while uploading or analysing; `EnabledUploadHasFile` uses it |
| UploadPage.ShortResumeRejectedFirst | frontend/src/pages/UploadPage.jsx:69-74 | a resume under 50 characters is rejected with the "at least 50 characters" error, whatever the goal, before the custom-goal check |
| UploadPage.ShortCustomGoalRejected | frontend/src/pages/UploadPage.jsx:76-79 | with "Other (custom)" selected, a trimmed custom goal under 3 characters is rejected with the custom-goal error |
| UploadPage.FinalGoalResolution | frontend/src/pages/UploadPage.jsx:69-82 | the check passes exactly when both length rules hold; the final goal is then the trimmed custom goal (at least 3 characters, no white space at either end) for "Other (custom)", and the selected goal otherwise |
| UploadPage.EnabledButtonPassesLengthCheck | frontend/src/pages/UploadPage.jsx:272 | when the analyse button is enabled, the resume-length check cannot fail |
| UploadPage.EnabledUploadHasFile | frontend/src/pages/UploadPage.jsx:157 | when the upload button is enabled a file is selected and no request is in progress, so the no-file branch of `handleUploadFile` is not reached by a click |
| UploadPage.AcceptedRequestPassesServerGuard | frontend/src/pages/UploadPage.jsx:81-95 | for a page in a valid state (the selected goal is one of the listed, non-empty goals), a request the check lets through has a truthy resume and goal, so it passes the handler's 400 guard |
| UploadPage.Page.constructor | frontend/src/pages/UploadPage.jsx:17-43 | the initial state takes the stored resume and custom goal, defaulting to "", and the stored goal, defaulting to "Software Engineer (Full-Stack)"; nothing is in progress |
| UploadPage.Page.RunAnalysis | frontend/src/pages/UploadPage.jsx:84-105 | the backend is called with the resume and the given goal; success stores the data, navigates to the dashboard and leaves no error; failure keeps the data and route and sets "Analysis failed. Please try again. Error: " plus the message; either way it ends not analysing with status "" |
| UploadPage.Page.HandleAnalyze | frontend/src/pages/UploadPage.jsx:68-106 | a failed check sets its error and calls nothing; otherwise the backend is called with the resume and the final goal, success stores the data and navigates to the dashboard, failure sets "Analysis failed. Please try again. Error: " plus the message, and either way it ends not analysing with status "" |
| UploadPage.Page.HandleUploadFile | frontend/src/pages/UploadPage.jsx:108-124 | with no file it sets "Please choose a file first." and uploads nothing; otherwise it uploads the file with the selected goal, replaces the resume with the extracted text on success or sets the upload error on failure, and ends not uploading |
| UploadPage.Page.EditResume | frontend/src/pages/UploadPage.jsx:186-189 | the textarea sets the resume and clears the error once the text is longer than 50 |
| UploadPage.Page.EditCustomGoal | frontend/src/pages/UploadPage.jsx:235-238 | the custom box sets the custom goal and clears the error once the trimmed text is longer than 2 |
| UploadPage.Page.SelectGoal | frontend/src/pages/UploadPage.jsx:207-218 | the selector sets one of the listed goals |
| UploadPage.Page.ChooseFile | frontend/src/pages/UploadPage.jsx:147-150 | the file input replaces the selection and clears the upload error |
| AddCoursePage.Page.constructor | frontend/src/pages/AddCoursePage.jsx:4-20 | the list is empty and loading, the drawer is closed, the form is empty, and there are no messages |
| AddCoursePage.Page.FetchCourses | frontend/src/pages/AddCoursePage.jsx:25-37 | the list becomes the response, or [] when it is falsy; a failure keeps the list and sets "Failed to load courses: " plus the message; loading ends false either way |
| AddCoursePage.Page.OpenAdd | frontend/src/pages/AddCoursePage.jsx:44-54 | clears the five fields, both messages and the course being edited, and opens the drawer |
| AddCoursePage.Page.OpenEdit | frontend/src/pages/AddCoursePage.jsx:57-67 | copies the course's five fields into the form, with "" for missing ones, clears both messages, and opens the drawer on that course |
| AddCoursePage.Page.CloseDrawer | frontend/src/pages/AddCoursePage.jsx:69-74 | closes the drawer and clears the course being edited, the save error and the success notice |
| AddCoursePage.Page.Save | frontend/src/pages/AddCoursePage.jsx:77-131 | an empty title, category or level sets "Please fill in all required fields." and sends nothing. Otherwise it sends the five fields plus `createdBy` (the user id, or null), by PUT to `/api/courses/{id}` when editing and by POST to `/api/courses` when not, and `saving` ends false. Success refreshes the list and closes the drawer. Failure shows the body's `error`, or "Failed to save course" |
| AddCoursePage.Page.Submit | frontend/src/pages/AddCoursePage.jsx:83-130 | sends the five fields and `createdBy` to the target `SaveTarget` picks, ends with `saving` false, and either closes the drawer with the list refreshed or shows the reply's error with the drawer, list and loading state unchanged |
| AddCoursePage.Page.Saved | frontend/src/pages/AddCoursePage.jsx:119-125 | after a successful save the list is refreshed (or kept, when the refresh fails), loading is over, the drawer is closed with no course being edited, no save error and no success notice. The list error is cleared when the refresh succeeds and set to "Failed to load courses: " plus the message when it fails |
| AddCoursePage.Page.Delete | frontend/src/pages/AddCoursePage.jsx:134-153 | a declined confirmation does nothing; a successful DELETE of `/api/courses/{id}` replaces the list by the list without that id; a failure alerts "Error deleting course: " plus the message and keeps the list |
| AddCoursePage.SaveTarget | frontend/src/pages/AddCoursePage.jsx:98-112 | PUT to `/api/courses/{id}` while editing, POST to `/api/courses` otherwise; `Submit` states that the request uses it |
| AddCoursePage.ReplyError | frontend/src/pages/AddCoursePage.jsx:114-116 | the message of a failed request: the body's truthy `error`, else the fallback, or the thrown error's message |
| AddCoursePage.RemoveCourse | frontend/src/pages/AddCoursePage.jsx:149 | `prev.filter((c) => c.id !== id)`; `RemoveCourseSpec` and `DeleteRemovesOnlyThatId` state it |
| AddCoursePage.RemoveCourseSpec | frontend/src/pages/AddCoursePage.jsx:149 | the list after a delete has no entry with that id, keeps the others in their order (a subsequence), each as often as before, and is unchanged when no entry had that id |
| AddCoursePage.DeleteRemovesOnlyThatId | frontend/src/pages/AddCoursePage.jsx:149 | a course with the deleted id is gone, and any other course is in the new list exactly when it was in the old one |
| DashboardPage.ToNumber | frontend/src/pages/DashboardPage.jsx:37-42 | the number `resumeScore >= 80` compares: null is 0, booleans 0 or 1, strings and arrays read as integer numerals, `undefined` and objects NaN |
| DashboardPage.ScoreColorOf | frontend/src/pages/DashboardPage.jsx:37-42 | `scoreColor`: the band of the score's number, and red for NaN; the lemmas below state it |
| DashboardPage.SelectView | frontend/src/pages/DashboardPage.jsx:8-91 | the view the page renders; `LoadingTakesPrecedence` and `LoadedViews` state it |
| DashboardPage.BandsPartitionScores | frontend/src/pages/DashboardPage.jsx:37-42 | emerald exactly for scores of 80 and up, yellow exactly for 60 to 79, red exactly below 60, so the bands are exclusive and cover every score |
| DashboardPage.NumericScoreColor | frontend/src/pages/DashboardPage.jsx:37-42 | a numeric score gets the colour of its band, and a missing score (NaN) is red |
| DashboardPage.NumeralScoreColor | frontend/src/pages/DashboardPage.jsx:37-42 | a score that arrives as a decimal string is compared as the number it denotes |
| DashboardPage.LoadingTakesPrecedence | frontend/src/pages/DashboardPage.jsx:8-15 | the loading view is shown exactly when auth is not ready or data is loading, whatever the analysis data |
| DashboardPage.LoadedViews | frontend/src/pages/DashboardPage.jsx:17-42 | once loaded, falsy data shows "No Analysis Found". Truthy data shows the report, coloured by the score's band and listing its `missingSkills`, exactly when it renders: the score converts, `missingSkills` is an array, and no rendered value is a plain object. Other truthy data makes the render throw |
| DashboardPage.ConformingAnalysisRenders | frontend/src/pages/DashboardPage.jsx:36-91 | an analysis that conforms to the analysis schema, with a renderable goal, shows the report |

## Left out

- HTTP plumbing is not modelled: Express, cors, dotenv, `app.listen`, the `/` route, headers and console logging. The axios call is the `call` parameter. Its 60 s timeout appears only as a field of the request, and a timeout is one of the exceptions `call` may return.
- `JSON.parse` is the `parse` parameter. No JSON parser is modelled.
- `new Date().toISOString()` is the `now` parameter.
- Numbers are integers (`JNum(int)`). Floating point, NaN as a value, and `Number()` of fractional, exponent, "Infinity"/"-Infinity" and "0x"/"0b"/"0o" strings are not modelled. So a score of "Infinity" is emerald in JavaScript and red in the model. `JsString.StringToInteger` reads only optionally signed decimal integers, and for any other string it yields NaN where JavaScript might yield a fraction.
- Strings are sequences of Unicode scalar values. JavaScript's `length` and `substring` count UTF-16 code units, so text outside the Basic Multilingual Plane is counted differently.
- Objects are maps, so property order is not modelled. The merged reply's key order, which `res.json` would serialise, does not appear. Prototype properties reached by `?.` (such as `length` of a string or array) are not modelled.
- Filesystem errors other than absence (permissions, directories, races between `existsSync` and `unlinkSync`) are not modelled.
- The retry with backoff, the upload route and its cleanup, `/api/courses` with a static fallback, and `/api/recommendations/details` have no code in the handler. They are not modelled.
- `frontend/src/services/api` (`analyzeResumeWithGemini`, `uploadResumeFile`) is not part of this model. The page's calls are returned as their arguments, and their settled results are inputs.
- `backend/data/recommendations.js` is static data with no consumer. Its records use `name`/`length` rather than the learning schema's `title`/`duration`, and it is not modelled.
- Rendering-only code is not modelled: `App.jsx`, `JobMatchPage.jsx`, `RecommendationsPage.jsx`, `LandingPage.jsx` and `IconCard.jsx`. Neither are the markup of the three modelled pages and the persistence of the upload form to `localStorage`.
- React's asynchronous state updates are not modelled. Neither are the intermediate states a handler passes through while awaiting (such as "Sending resume to backend..." and the success notice that is cleared at once). Each handler is one atomic step from its start to its settled end.
- `window.confirm` and `alert` are a parameter and a result of `AddCoursePage.Page.Delete`.
- AddCoursePage.Page.Save: each field's `onChange` setter is not modelled separately, because each is a plain assignment.
- AddCoursePage.Page.FetchCourses: the response body is taken to be a list of courses or falsy. A truthy non-array body would be stored as is and would break the list's rendering, which is not modelled.
- AddCoursePage.Course: course ids are strings, and `c.id !== id` is string inequality.
- UploadPage.Page.HandleUploadFile: it passes the selected goal, not the resolved final goal, to the upload, as the code does.
- Gemini's promise to honour the schema is not enforced by the handler and is not assumed. Score range, array lengths and the "3 items" wording are descriptions only.
