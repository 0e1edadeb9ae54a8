# ShadowSync in Dafny

ShadowSync compares a user's sports video with a professional's. The user
picks one of four sports (basketball, soccer, boxing, golf). They upload or
record a video. The back end sends it, with the sport's reference video and
prompt, to a remote inference service ("Gemini"). The home page shows the
analysis and the similarity score it reads out of the text.

This project models the core of that system and proves properties of the
model:

- **Current back end** (`backend/main.py`):
  - the sport catalog and `GET /api/sports` (module `Catalog`);
  - `POST /api/analyze-video/{sport}` (modules `Analysis` and `AnalysisFacts`), which does four things:
    - checks the client, the sport and the reference video;
    - uploads both videos;
    - polls them for at most 60 rounds;
    - sends one inference request, then cleans up the temporary file;
  - `signup` and `login` over the user table (module `Accounts`).
- **Earlier draft handler** (`backend/gemini_comparision.py`; modules `Draft` and `DraftFacts`). It has the same workflow, with these differences:
  - there is no check that the client is configured;
  - there is no `try`/`except`, so every exception escapes to the framework;
  - the 400 detail is "Unsupported sport.", and the missing-reference detail is worded differently;
  - the polling loop has no ceiling;
  - the temporary path has no user id;
  - a FAILED file raises a `RuntimeError` rather than an HTTP error;
  - the inference request carries the upload handles themselves rather than `Part.from_uri` parts, and names a different model;
  - the boxing prompt lacks the closing request to reject a video that shows no boxing;
  - the answer key is `"response"`.
- **Home page** (`frontend/src/pages/Home.tsx`):
  - `extractSimilarityScore` (module `Score`);
  - the state the page keeps and its handlers (module `Home`);
  - the video-file check;
  - the recorder's format choice;
  - the score chart's two slices.

Shared modules:

- `Remote` holds the collaborators of the handlers.
  - `Gateway` stands for the remote file and inference service.
  - `Host` stands for the temporary directory and the clock.
  - Both are classes, and scripts fixed in advance decide their answers.
  - `Gateway` logs every call it receives. `Host` keeps the set of files on disk and a tick count for the clock.
  - The remote service's script answers by call position: the n-th upload and the t-th `files.get` call each get a fixed answer, either a result or the text of the exception the call raises. A handler fixes which file each call asks about, so this covers every sequence of results and exceptions a real service could give by file and by time.
  - The host's script says, per path, whether saving fails and how: at the `open`, which creates nothing, or in the write after it, which leaves the created file behind.
- `Polling` specifies the two polling loops as functions of the script and implements each as a method over the `Gateway` and the `Host`:
  - `Bounded` and `PollBounded` are the current loop, with its 60-round ceiling;
  - `Unbounded` and `PollUnbounded` are the draft's `while True`.
  - Both loops end at the first round in which a `files.get` raises, both files are ACTIVE, or one FAILED.
- `Web`, `Text` and `Wrappers` hold the reply type, string helpers, and `Option`/`Result`.

Both handlers follow the same pattern. A specification function (`Analysis.AnalyzeRun`, `Draft.HandleRun`) computes what one call replies and what it does to the service and the host. Its stages follow the source's sequence of steps. The handler itself is an imperative method (`Analysis.AnalyzeVideo`, `Draft.AnalyzeVideo`). It calls the `Gateway` and `Host` methods step by step, and its postcondition proves it equal to the specification. The lemmas in `AnalysisFacts` and `DraftFacts` state what the source promises in terms of that specification.

Some behaviour of the source is modelled as it is, even where it looks unintended:

- In both handlers the temporary file is removed only after a successful inference call. There is no `finally`. The timeout and failure lemmas prove that the file stays behind.
- A save that fails after `open` has created the file leaves the file behind in both handlers. No code removes it.
- In the draft, a `files.get` that raises during polling escapes unhandled. In the current handler the `except` clause turns it into a 500 "Analysis error: ...".
- In the draft, reading the `error` attribute of a polled file that has none raises `AttributeError`. That happens instead of the `RuntimeError` that would name both errors.
- The comment on the fallback score pattern says "in the first 500 characters", but the expression scans the whole text. The model follows the expression.
- After a failed second analysis, the page clears the analysis text but keeps the previous score. The score is not displayed without an analysis. `HomeState.HandleAnalyze` states this, and `HomeState.Valid` is worded to allow it.

## Model

| member | source | states |
|---|---|---|
| Catalog.Lookup | backend/main.py:165-168 | `d.get(key)` finds a value exactly when the key is among the dict's keys, and the pair is in the dict |
| Catalog.CatalogsAgree | backend/main.py:67-101 | the prompt dict and the video dict have the same keys in the same order: basketball, soccer, boxing, golf |
| Catalog.ReferenceVideo | backend/main.py:165-168 | looking up a sport's video after the membership test on the prompt dict never misses |
| Catalog.GetSports | backend/main.py:266-268 | every sport listed has a non-empty prompt and a reference video |
| Catalog.GetSportsOrder | backend/main.py:266-268 | `/api/sports` lists basketball, soccer, boxing, golf in that order |
| Remote.RoundsShape | backend/main.py:196-198 | in the read log of n polling rounds, round i reads the user file at position 2i and the reference file right after it |
| Remote.Gateway.Upload | backend/main.py:180 | `files.upload` logs the path, and gives a handle numbered by its position in the log with the scripted uri and MIME type, or raises the scripted error |
| Remote.Gateway.Get | backend/main.py:197-198 | `files.get` logs the name and answers the scripted state for its position in the call log, or raises the scripted exception |
| Remote.Gateway.Generate | backend/main.py:241-244 | `generate_content` logs the request and answers the scripted response or error |
| Remote.Host.Exists | backend/main.py:170 | `Path.exists` is true exactly for files on the host |
| Remote.Host.Write | backend/main.py:186-187 | saving the upload raises the scripted fault, if any; the file exists afterwards unless the fault came at the `open`, so a failed write still leaves it |
| Remote.Host.Remove | backend/main.py:249-253 | `os.remove` of a missing file fails with Python's `[Errno 2]` message, which the handlers only print; otherwise the scripted error leaves the file, and success removes it |
| Remote.Host.Sleep | backend/main.py:223 | `time.sleep(1)` advances the clock by one tick |
| Polling.Bounded | backend/main.py:194-227 | a Ready or Failed verdict of the bounded loop names a round below the ceiling of 60 |
| Polling.BoundedStep | backend/main.py:196-224 | one round: a raising read of the user file, or else of the reference file, ends the loop with that exception; both ACTIVE ends it Ready; otherwise a FAILED file ends it with that round's answers; otherwise the next round decides |
| Polling.PollRound | backend/main.py:196-224 | one round reads the user file, then the reference file, stopping at a read that raises; it ends the loop exactly when the round is terminal, with that round's verdict, logs the reads it made, and sleeps once exactly when it does not end the loop |
| Polling.PollBounded | backend/main.py:194-227 | the loop's verdict is the bounded specification's; it logs both reads of every round up to the one that ended it, stopping at a read that raised, or of all 60 rounds, and sleeps once per round that did not end it |
| Polling.PollUnbounded | backend/gemini_comparision.py:95-106 | the `while True` loop, watched for some rounds, follows `Unbounded`: still going exactly when no round was terminal, with the reads and sleeps of the rounds it made |
| Polling.BoundedEndsAtFirstTerminal | backend/main.py:196-222 | the bounded loop's verdict is round k's exactly when round k is the first round in which a read raises, both files are ACTIVE or one FAILED |
| Polling.BoundedVerdictIsTerminal | backend/main.py:196-222 | a verdict other than a timeout comes from a round that is terminal |
| Polling.BoundedTimesOut | backend/main.py:196-227 | the loop times out exactly when none of the 60 rounds is terminal; never earlier |
| Polling.ReadyAfter | backend/main.py:194-224 | both files ACTIVE at round k < 60 after k non-terminal rounds: the loop reads each file k + 1 times and sleeps k times |
| Polling.Unbounded | backend/gemini_comparision.py:96-106 | a verdict of the unbounded loop, watched for some rounds, is that of a terminal round within them, never a timeout |
| Polling.UnboundedStep | backend/gemini_comparision.py:96-106 | one round of the `while True` loop: a raising read ends it with that exception, an ACTIVE pair exits, a FAILED file raises, otherwise the loop goes on |
| Polling.UnboundedDiverges | backend/gemini_comparision.py:96-106 | if no round is ever terminal, the loop never exits, however long it is watched |
| Polling.UnboundedExitsAtFirstTerminal | backend/gemini_comparision.py:96-106 | watched long enough, the unbounded loop exits at the first terminal round with that round's verdict |
| Polling.LoopsAgreeBelowCeiling | backend/main.py:196-227 | when the first terminal round is below 60, the bounded and unbounded loops give the same verdict |
| Polling.LoopsDifferBeyondCeiling | backend/main.py:226-227 | when the first terminal round is 60 or later, the bounded loop times out while the unbounded one exits with that round's verdict |
| Analysis.TempPathsOfDistinctUsersDiffer | backend/main.py:184 | `temp_{user.id}_{filename}` never collides between two users, whatever the file names |
| Analysis.FailureDetail | backend/main.py:205-222 | the user's part comes before the reference's, joined by " \| "; with neither the text is "File processing failed"; the conversion hint is appended exactly when the user's file FAILED |
| Analysis.Shield | backend/main.py:257-263 | an HTTPException passes unchanged, any other exception becomes 500 "Analysis error: ..." with its text, and nothing else escapes |
| Analysis.Process | backend/main.py:192-255 | from the loop on, the handler raises what the loop's verdict raises (the timeout, a FAILED file's 500, a raising `files.get`), and otherwise replies, logs its requests and leaves the files as `ProcessRun` says |
| Analysis.Save | backend/main.py:183-255 | from the save on, the handler follows `SaveRun` |
| Analysis.Transfer | backend/main.py:178-255 | from the reference upload on, the handler follows `TransferRun` |
| Analysis.Attempt | backend/main.py:161-255 | the `try` block follows `AttemptRun` |
| Analysis.AnalyzeVideo | backend/main.py:155-263 | the whole handler follows `AnalyzeRun`: its reply, uploads, reads, sleeps, requests and files |
| AnalysisFacts.ChecksComeFirst | backend/main.py:162-174 | a missing client gives 500 before the sport is examined, an unknown sport 400 before the reference check, and neither uploads, polls, sleeps nor writes |
| AnalysisFacts.PastTheChecks | backend/main.py:168-190 | once the checks pass, the call continues with the reference upload, using the sport's prompt and `temp_{id}_{filename}` |
| AnalysisFacts.OnlyHttpExceptionsEscape | backend/main.py:257-263 | the caller sees JSON or an HTTPException; inner HTTPExceptions pass unchanged, anything else becomes "Analysis error: ..." |
| AnalysisFacts.ProcessAnswers | backend/main.py:196-255 | from the loop on, the call answers exactly when polling ends Ready and generation succeeds; then it sent one request and answered `{sport, analysis}` |
| AnalysisFacts.AnsweredRun | backend/main.py:161-255 | an answered call uploaded the reference, then the saved user video, both became ACTIVE, and it sent exactly [prompt, user video, reference video] once |
| AnalysisFacts.AnswersWhenAllSucceed | backend/main.py:161-255 | conversely, when every check, upload, save, the polling and the generation succeed, the call answers |
| AnalysisFacts.TempFileLifecycle | backend/main.py:184-253 | the temporary file is removed only on the answered path and only if removal succeeds; every other call leaves it exactly when it reached the save and the save created the file, a failure after the `open` included |
| AnalysisFacts.TransferFiles | backend/main.py:184-253 | the same from the reference upload on |
| AnalysisFacts.TransferFollowsVerdict | backend/main.py:192-227 | with both videos uploaded, the reads and sleeps follow the loop's verdict, and an aborting verdict raises before any request, leaving the temporary file |
| AnalysisFacts.TimeoutLeavesTempFile | backend/main.py:194-227 | when no round settles, the call reads each file 60 times, sleeps 60 times, raises 500 "File processing timeout", sends nothing and leaves the temporary file |
| AnalysisFacts.FailureReported | backend/main.py:203-222 | both reads of round k answered and a file FAILED: the call raises the 500 whose detail is built from that round's answers, after k sleeps and k + 1 rounds of reads, and leaves the temporary file |
| AnalysisFacts.GetErrorReported | backend/main.py:196-263 | a `files.get` raising in round k gives 500 "Analysis error: " with its text, after k sleeps; when the user file's read raised the reference file is not read in that round; no request, and the temporary file stays |
| AnalysisFacts.SaveErrorReported | backend/main.py:183-263 | a failing save gives 500 "Analysis error: " with its text, after uploading only the reference video and without polling; the file stays exactly when the failure came after the `open` |
| AnalysisFacts.RemovalErrorSwallowed | backend/main.py:249-255 | a failing removal does not change the reply, the uploads, the reads, the sleeps or the requests |
| AnalysisFacts.TransferIgnoresRemoval | backend/main.py:249-255 | the same from the reference upload on |
| Draft.CatalogsAgree | backend/gemini_comparision.py:29-66 | the draft's prompt and video dicts have the same four keys in the same order |
| Draft.CatalogsAsInCurrentHandler | backend/gemini_comparision.py:45-50 | the draft's videos are the current ones; its prompts are the current ones except boxing, whose prompt lacks the request to reject non-boxing videos |
| Draft.ReferenceVideo | backend/gemini_comparision.py:71-74 | the video lookup after the membership test never misses |
| Draft.TempPathsCollideExactlyOnSameName | backend/gemini_comparision.py:88 | `temp_{filename}` has no user id: two uploads share a path exactly when their file names agree |
| Draft.FailureError | backend/gemini_comparision.py:102-105 | a FAILED round raises a RuntimeError naming the user's error before the reference's, and an AttributeError exactly when a file has no `error` attribute |
| Draft.Process | backend/gemini_comparision.py:95-120 | from the loop on, the draft follows `ProcessRun` |
| Draft.Save | backend/gemini_comparision.py:87-120 | from the save on, the draft follows `SaveRun` |
| Draft.Transfer | backend/gemini_comparision.py:83-120 | from the reference upload on, the draft follows `TransferRun` |
| Draft.AnalyzeVideo | backend/gemini_comparision.py:69-120 | the whole draft handler follows `HandleRun`: its outcome, uploads, reads, sleeps, requests and files |
| DraftFacts.ChecksComeFirst | backend/gemini_comparision.py:71-81 | an unknown sport gives 400 "Unsupported sport." and a missing reference a 500 naming the file, before any upload or write |
| DraftFacts.PastTheChecks | backend/gemini_comparision.py:74-88 | once the checks pass, the call continues with the reference upload and `temp_{filename}` |
| DraftFacts.ReferenceUploadedFirst | backend/gemini_comparision.py:83-92 | the reference video is uploaded first; the user's video is uploaded second, and only after it was saved |
| DraftFacts.ProcessFollowsLoop | backend/gemini_comparision.py:95-112 | the loop decides: still polling exactly while no round was terminal; ACTIVE sends the one request; FAILED raises and sends nothing; a `files.get` exception escapes and nothing is sent |
| DraftFacts.TransferFollowsLoop | backend/gemini_comparision.py:83-112 | the same from the reference upload on, once both videos are uploaded; a call still polling got that far, and a `files.get` exception escapes before any request |
| DraftFacts.NeverSettlingDiverges | backend/gemini_comparision.py:96-106 | with a service that never settles, the draft keeps polling, however long it is watched: it sends nothing, never replies, and keeps the temporary file |
| DraftFacts.AnsweredRun | backend/gemini_comparision.py:71-120 | an answered call uploaded the reference, then the saved video, and sent [prompt, user file, reference file] once; the answer is under "response" |
| DraftFacts.TempFileLifecycle | backend/gemini_comparision.py:88-118 | the temporary file is removed only on the answered path and only if removal succeeds; every other call leaves it exactly when the save created it, a failure after the `open` included |
| DraftFacts.RemovalErrorSwallowed | backend/gemini_comparision.py:114-120 | a failing removal changes neither the outcome nor the calls made |
| DraftFacts.CurrentProcessFollowsLoop | backend/main.py:192-244 | the current handler from the loop on reads and sleeps as the bounded verdict says and sends its request exactly when that verdict is Ready |
| DraftFacts.HandlersAgreeBelowCeiling | backend/gemini_comparision.py:96-106 | when the first terminal round k is below 60, both handlers make the same `files.get` calls and sleeps, and each sends a request exactly when round k found both files ACTIVE |
| DraftFacts.CeilingSeparatesTheHandlers | backend/main.py:194-227 | when the files settle after round 60, the current handler times out without a request while the draft sends it |
| Accounts.FindByEmail | backend/main.py:107 | the query finds a user exactly when one has that email, and finds the first such row |
| Accounts.FindByUsername | backend/main.py:109 | the query finds a user exactly when one has that username |
| Accounts.Login | backend/main.py:131-146 | login answers a token exactly when a user with that email verifies the password (emails being distinct), and one and the same 401 otherwise |
| Accounts.UserTable.constructor | backend/main.py:104-128 | the table starts empty and satisfies its uniqueness invariant |
| Accounts.UserTable.Signup | backend/main.py:104-128 | a taken email gives 400 before the username is checked; a taken username gives 400; otherwise exactly one user with the next id and the hashed password is appended; uniqueness is kept |
| Accounts.LoginFailuresAlike | backend/main.py:133-139 | an unknown email and a wrong password get the very same 401 |
| Accounts.FoundAfterSignup | backend/main.py:107-120 | a new user is found by email after the signup |
| Accounts.LoginAfterSignup | backend/main.py:104-146 | logging in with the email and password just signed up gives the token |
| Accounts.OtherLoginsUnchanged | backend/main.py:112-120 | a signup leaves every other email's login unchanged |
| Accounts.OtherEmailsUnchanged | backend/main.py:107-120 | a signup leaves every other email's lookup unchanged |
| Score.Span | frontend/src/pages/Home.tsx:62-74 | a starred class takes the longest run of its characters: all inside the class, the next one outside |
| Score.Step | frontend/src/pages/Home.tsx:62-74 | a token advances the match within the text; `%` consumes exactly one `%` |
| Score.MatchAt | frontend/src/pages/Home.tsx:62-80 | a match captures a non-empty run of digits |
| Score.Leftmost | frontend/src/pages/Home.tsx:78 | `text.match` finds the leftmost position where the pattern matches: no earlier position matches; none means no position matches |
| Score.ExtractFrom | frontend/src/pages/Home.tsx:77-89 | the result, when there is one, is at most 100; there is one exactly when some pattern's reading is accepted; it is the reading of the first accepted pattern |
| Score.ExtractSimilarityScore | frontend/src/pages/Home.tsx:57-90 | the score is null or an integer in 0..100 |
| Score.FirstAcceptedDecides | frontend/src/pages/Home.tsx:77-86 | the first pattern in the listed order whose first match reads at most 100 decides the score |
| Score.OverHundredFallsThrough | frontend/src/pages/Home.tsx:78-85 | a reading above 100 does not end the search; the remaining patterns decide |
| Score.SkipUnaccepted | frontend/src/pages/Home.tsx:77-86 | patterns whose readings are refused are passed over |
| Score.PercentNeeded | frontend/src/pages/Home.tsx:62-74 | a token sequence holding `%` cannot match a text without `%` |
| Score.NoPercentUnaccepted | frontend/src/pages/Home.tsx:77-89 | when every pattern needs `%`, a text without `%` gives null |
| Score.NoPercentNoScore | frontend/src/pages/Home.tsx:60-89 | a text containing no `%` yields null |
| Score.WordNeeded | frontend/src/pages/Home.tsx:62-72 | a token sequence holding a word cannot match a text without letters |
| Score.LetterFreeUsesFallback | frontend/src/pages/Home.tsx:60-86 | in a text without letters only the fallback `(\d+)\s*%` can give the score |
| Score.OnlyFirstMatchRead | frontend/src/pages/Home.tsx:78-85 | only the first match of a pattern is examined: "150% 80%" gives null although 80 would pass |
| Score.SpanEnds | frontend/src/pages/Home.tsx:62-74 | the longest run ends at the first character outside the class |
| Score.PatternsNeedNoBacktracking | frontend/src/pages/Home.tsx:60-75 | in all seven patterns each starred class and the group are followed by something that cannot start with their own characters, so the longest-run matcher finds the engine's match |
| Home.ExtensionOf | frontend/src/pages/Home.tsx:103 | the extension is what follows the last dot: that dot is there and no dot follows it; none exactly when the name has no dot |
| Home.EndsInExtension | frontend/src/pages/Home.tsx:103 | a name ends in ".x" ignoring case, for a dot-free x, exactly when its last-dot extension reads as x |
| Home.ExtensionCheckReadsLastDot | frontend/src/pages/Home.tsx:103 | the file-name check passes exactly when the extension after the last dot is, ignoring case, mp4, mov, avi, mkv or webm |
| Home.PreferredFormat | frontend/src/pages/Home.tsx:196-207 | the chosen format is the first supported candidate, or plain webm when none is |
| Home.ChooseRecorderFormat | frontend/src/pages/Home.tsx:196-207 | the recorder asks for the first supported of mp4, webm/h264, webm/vp9, else webm; the extension is "mp4" exactly for mp4 |
| Home.RecorderFormatsAreVideo | frontend/src/pages/Home.tsx:196-207 | every recorder format is a `video/` type, the types are distinct, and mp4 is chosen exactly when supported |
| Home.RecordingIsVideo | frontend/src/pages/Home.tsx:221-228 | a recorded file passes the video check both by its type and by its name |
| Home.PieSplitsHundred | frontend/src/pages/Home.tsx:402-405 | for every score the page reads, Match = score and Gap = 100 - score are both non-negative and sum to 100 |
| Home.HomeState.constructor | frontend/src/pages/Home.tsx:43-52 | the page starts with nothing selected, in upload mode |
| Home.HomeState.SelectSport | frontend/src/pages/Home.tsx:289 | a sport card sets the selected sport |
| Home.HomeState.HandleVideoChange | frontend/src/pages/Home.tsx:92-118 | a chosen file clears error, analysis and score; a rejected file clears file and preview and sets the error; an accepted one is held with its preview; no file changes nothing |
| Home.HomeState.FinishRecording | frontend/src/pages/Home.tsx:221-228 | the recording `recording_<time>.<ext>` of the chosen type becomes the held file with its preview |
| Home.HomeState.HandleAnalyze | frontend/src/pages/Home.tsx:120-143 | without a sport or a file it sets the error and makes no call; otherwise it calls with both, and shows the analysis and its score, or the error detail or "Analysis failed" |
| Home.HomeState.HandleReset | frontend/src/pages/Home.tsx:145-152 | reset clears file, preview, analysis, score and error |
| Home.HomeState.HandleModeChange | frontend/src/pages/Home.tsx:246-252 | a mode change sets the mode and clears file, preview, analysis, score and error |

## Left out

- Input/output is not modelled: reading the uploaded bytes, printing and tracebacks, directory creation, routing, CORS and request validation.
- Password hashing, password verification and token creation are uninterpreted functions of an `Auth` value. The token's expiry is not modelled.
- The `WWW-Authenticate` header of the 401 is left out.
- The database's own unique constraints, and failures of `commit`, are left out. The user table is a sequence with an id counter.
- Files on the host are modelled by their existence only. What a failed write leaves inside the file, empty or partial, is not modelled.
- The remote service is a script fixed in advance. The answer of `generate_content` depends only on the request. File processing is abstracted to the three states ACTIVE, FAILED and any other state.
- Prompt texts are short summaries in the model's own words. Their full wording is opaque to the handlers.
- Polling.PollUnbounded: the `while True` loop is watched for at most `fuel` rounds. An outcome `StillPolling` stands for a handler that has not returned yet. Divergence is stated as "still polling for every fuel".
- The draft's `files.upload(file=...)` keyword and the current handler's `path=` keyword are not distinguished.
- Home.HomeState: the camera, `MediaRecorder` streams and recorded chunks, `URL.createObjectURL`, the preview's `onError`, rendering, and the asynchronous interleaving of state updates are left out. The preview URL, the clock reading and the API's answer are parameters.
- Home.HomeState.HandleReset: restarting the camera in record mode is not modelled. The same holds for starting and stopping it in `handleModeChange`.
- Home.HomeState.HandleAnalyze: an error body whose `detail` is not a string is not modelled, and neither is a missing `analysis` field.
- Score: the regular-expression engine is replaced by a matcher that takes the longest run at each starred class. `Score.PatternsNeedNoBacktracking` proves the condition under which this agrees with backtracking. The agreement itself is argued, not proved.
- JavaScript `parseInt` loses precision on a run with more than 20 significant digits. Every such run is above 100 either way, so the model reads digit strings exactly.
- Remote.Gateway.Generate: the scripted answer is always a text. A response with no text part (a blocked prompt, say) makes `response.text` None, so the current handler can reply `{"analysis": null}` and the draft `{"response": null}`; those replies are not modelled.
- `frontend/src/pages/Landing.tsx`, `frontend/src/App.tsx` and `frontend/src/api.ts` are not part of this model.
