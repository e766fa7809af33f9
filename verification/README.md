# Verification of AutoApply's state-carrying logic

This Dafny project models the parts of AutoApply whose correctness depends on what happens over time, or on two
pieces of code that must undo each other, and proves properties of them. `dafny verify dfyconfig.toml` checks it all.

- **The apply pipeline** (`Pipeline`, `PipelineSafety`, `PipelineTheorems`, `PipelineReruns`, `PipelineRequests`,
  `PipelineService`). Requests create, batch-create, dispatch, approve and relabel applications; Arq queues one job
  per application; workers load, gate, submit and record, and can be interrupted before and after each commit. Each
  committed transaction and each queue operation is one step of a state machine, steps of requests and workers
  interleave freely, and a history records enqueues, invocations, loads, submissions and approvals. The theorems hold
  after every run. `PipelineService` has the same transactions as methods of one mutable object, each proved to be its
  step, and the routes and the apply task that call them.
- **Rotating refresh tokens** (`Sessions`, `SessionSafety`, `SessionAccounts`, `Browser`, `SessionService`), the
  scheme of section 4.14.2 of RFC 9700. Looking a token up and claiming it are separate steps of concurrent requests,
  and so are checking a password and issuing the session. `Browser` composes that server with one tab's single-flight
  refresh.
- **The domain-skill registry** (`SkillRegistry`): read-max-and-insert under a unique constraint with three attempts,
  running scores, sticky retirement, and the ordered selection for prompts.
- **Template expressions** (`Alphabet`, `Expressions`, `ExpressionPrinting`, `ExpressionRoundTrip`,
  `ExpressionScanners`, `AttributeNames`): the string interpreter of `support.js`, its four scanning loops, a printer
  for trees that carry their own blanks, and the theorem that resolving printed text is evaluating the tree. `Resolve`
  is accepted as a function, so it ends on every string: each recursive call gets a strictly shorter one. JavaScript's
  property access, truthiness, equalities and number reading are parameters (`Host`).
- **Resumes** (`Text`, `Resume`, `ResumeRoundTrip`, `ResumeDocument`): the DOCX writer as a list of paragraphs, the
  parser of sections and skills, and what survives the round trip. `str.lower` is a parameter that must lower the five
  headings written.
- **Smaller components**: the fixed-window limiter held against a log of all checks (`RateLimiter`), the activity
  timeline whose series are cut before their union (`Timeline`), the in-memory index of the job search (`JobSearch`),
  the encrypted credential store refining a plain map across key rotation (`CredentialStore`), and the account purge
  (`Purge`).

## What the proofs found

Where the code and its comments differ, the model follows the code.

- A repeated create request returns the existing application and the route dispatches it again, although the comment
  at `backend/app/services/application.py:101-102` says a retry cannot cause a duplicate auto-apply. An applied
  autonomous application is queued and submitted again; an applied review or batch one silently goes back to
  `pending_review` and can be approved and submitted again (`CreatingAgainQueuesIff`, `CreatingAgainSubmitsAgain`;
  `NextKeepsSettledIff` says through which events an applied application stays applied).
- The guard against a second submission reads the status alone. A worker shut down after the commit of `applied`, in the
  publish at `backend/app/workers/tasks.py:221`, has its job run again; if the owner changed the status meanwhile, or
  repeated the create request, the rerun submits a second time (`RerunSubmitsAgain`, `RerunIsIdleIff`). Confirmed
  submissions are bounded by the accepted enqueues only together with such reopenings (`SubmissionBounds`).
- An application can be left in `applying` without a live job in exactly two ways: a status request writes `applying`
  (`CallStrandsIff`), or an invocation of it is dropped where no handler writes its end, such as a timeout of a retry
  at the score gate (`TaskStrandsIff`, `TimedOutRetryStrands`). The handler at `backend/app/workers/tasks.py:207-212`
  covers only the submission itself.
- A batch that lists a new job twice fails whole (`BatchSucceedsIff`).
- A login that passed its password check before a reset gets its session after it (`PendingLoginOutlivesReset`).
- Overlapping `record_skill` calls can store the same content twice (`OverlappingCallsMakeTwins`;
  `TwinsReachableIff` and `BeginningAllowsTwinsIff` say exactly when). The duplicate check then raises until feedback
  retires one of the two (`RetiringATwinEndsIt`).
- A refresh that detects reuse sets the cleared cookie at `backend/app/api/v1/auth.py:208` on a response that the error
  handler at `backend/app/main.py:157-185` replaces, so the browser keeps its cookie; the client model does the same.
- Quotes in a template expression do not protect an equality operator (`QuotedTextResolvesIff`).
- One stored listing with neither id nor URL makes every later search that meets it again fail whole
  (`DegenerateSpoilsTheNextSearch`).
- The purge's explicit deletes leave password-reset tokens to the database's cascade, although the module comment
  says they do not depend on it (`NothingDanglesAtTheEndIff`).

## Model

| member | source | states |
|---|---|---|
| PipelineTheorems.SubmissionBounds | backend/app/workers/tasks.py:150-224 | In every run, at most one worker is inside the submit of an application; submit calls never exceed invocations, invocations never exceed `MAX_TRIES` times the accepted enqueues, and confirmed submits never exceed the accepted enqueues plus the reopenings, the loads of an already confirmed job that do not find its application applied |
| PipelineTheorems.NoSubmissionWithoutApproval | backend/app/services/dispatch.py:57-96 | In every run, each submit of a review or batch application is preceded in the history by its approval |
| PipelineTheorems.ApprovalIsAStep | backend/app/services/application.py:249-272 | The number of approvals of an application in the history grows exactly by an approve or bulk-approve step that takes it in, by one, and such a step found it staged |
| PipelineTheorems.ApprovalsPayForSubmissions | backend/app/services/dispatch.py:71-96 | In every run the accepted and owed enqueues of a review or batch application never exceed its approvals, so its invocations and submits never exceed `MAX_TRIES` times those |
| PipelineTheorems.OneActivePerJob | backend/app/models/application.py:21-28 | In every reachable state two applications of one user for one job, neither rejected, withdrawn nor failed, are the same row |
| PipelineTheorems.AppliedIsDated | backend/app/workers/tasks.py:217-219 | In every reachable state an applied application has its date |
| PipelineTheorems.CreateIsIdempotent | backend/app/services/application.py:69-118 | Create succeeds exactly when job and resume are the user's; it returns the one open application of the job, owes it a dispatch, and adds a row exactly when there was none; the new row has the request's user, job, resume and mode, is queued, and has no date or note; a failure changes nothing |
| PipelineTheorems.BatchSucceedsIff | backend/app/services/application.py:121-176 | A batch commits exactly when everything is owned and no job without an active application is listed twice; otherwise nothing changes |
| PipelineTheorems.BatchLeavesOneActiveEach | backend/app/services/application.py:157-176 | After a batch every requested job has an active application and the index holds; old rows are untouched; the new rows are returned in request order, as the request says, queued, without date or note, and each is owed a dispatch |
| PipelineRequests.DispatchStages | backend/app/services/dispatch.py:57-68 | A dispatch queues an autonomous row and owes its enqueue, lets any other row wait for review, and writes and owes nothing where another open application of the job stands in the way |
| PipelineRequests.EnqueueAccepts | backend/app/services/dispatch.py:31-54 | An enqueue is accepted, as a first try, exactly when the queue can be reached and no job of the application is live |
| PipelineRequests.ApproveIff | backend/app/services/application.py:249-272 | An approval goes through exactly for a row of the user that waits for review or is queued; it writes the status, owes an enqueue and is recorded |
| PipelineRequests.BulkApproveIff | backend/app/services/dispatch.py:71-96 | A bulk approval takes in exactly the rows asked for that an approval would, each once |
| PipelineRequests.StatusIff | backend/app/services/application.py:275-302 | A status request goes through exactly for a row of the user unless it would open it beside another open one; it writes the status, a note that is given, and the date exactly with `applied`, and keeps everything else |
| PipelineRequests.ThirdTryIsTheLast | backend/app/workers/tasks.py:190-206 | A transient failure or a rerun gives the job back for its next try on the first two tries and never on the third, which marks a transient failure as final |
| PipelineTheorems.CallStrandsIff | backend/app/services/application.py:275-302 | Among all requests exactly a status request that writes `applying` to an application without a live job leaves one stuck |
| PipelineTheorems.TaskStrandsIff | backend/app/workers/tasks.py:158-221 | Among the worker's steps exactly those leave an application stuck that drop the job of one in `applying`: a final interruption outside the submission, a final cancellation inside it whose best-effort mark fails, or the end of an invocation whose outcome a request has overwritten |
| PipelineTheorems.NothingGetsStuckIff | backend/app/workers/tasks.py:185-221 | A run is never stuck at any of its states exactly when none of its events is such a step or such a status request |
| PipelineTheorems.NothingGetsStuck | backend/app/workers/tasks.py:185-221 | So when no status request writes `applying` and every invocation ends in a handler, an application in `applying` has a job that waits or runs |
| PipelineReruns.TimedOutRetryStrands | backend/app/workers/tasks.py:192-206 | A run from the start that ends so: a transient failure, the retry loads, and a timeout hits it before the submission |
| PipelineTheorems.WorkersProgress | backend/app/workers/tasks.py:150-224 | Each worker step uses up one of at most twenty-one steps of its own job |
| PipelineTheorems.WorkersLeaveOthers | backend/app/workers/tasks.py:150-224 | A worker step takes nothing from the steps another application's job has left |
| PipelineTheorems.LiveJobsCanStep | backend/app/workers/tasks.py:150-224 | A live job always has an enabled worker step |
| PipelineTheorems.AtMostMaxTriesEach | backend/app/workers/tasks.py:190-206 | At every point of a run an application has been invoked at most `MAX_TRIES` times since its last accepted enqueue, and while its job lives exactly as often as the try says |
| PipelineReruns.NextKeepsSettledIff | backend/app/workers/tasks.py:168-171 | An applied application that no worker is already past the check for stays so through exactly the events other than a dispatch of it and a status request of its owner that takes it out of `applied` |
| PipelineReruns.AppliedStaysAppliedIff | backend/app/workers/tasks.py:168-171 | It stays so all along a run exactly when the run has no such event, and then it is not submitted again |
| PipelineReruns.CreatingAgainQueuesIff | backend/app/api/v1/applications.py:39-48 | Repeating the create request of an applied application takes it back to `queued` or `pending_review` by its own mode; it is queued for a worker again exactly when it is autonomous, the queue can be reached and no job of it is live |
| PipelineReruns.CreatingAgainSubmitsAgain | backend/app/api/v1/applications.py:39-48 | From there a worker submits it a second time, a review or batch application after a second approval |
| PipelineReruns.ReopeningIsAReload | backend/app/workers/tasks.py:168-171 | The reopenings of an application grow exactly by a load of its already confirmed job that does not find it applied |
| PipelineReruns.RecordSettlesIff | backend/app/workers/tasks.py:217-219 | The commit of a success leaves the application applied and settled exactly when the index lets it through |
| PipelineReruns.RerunIsIdleIff | backend/app/workers/tasks.py:168-171 | The rerun of a recorded job: nothing is submitted up to its reload, and the reload ends it exactly when no dispatch of the application and no status other than `applied` came in between, or the owner last wrote `applied` back |
| PipelineReruns.RerunSubmitsAgain | backend/app/workers/tasks.py:217-221 | A run from the start with one accepted enqueue and two confirmed submits: the worker is shut down after the commit of the first try, and the owner relabels the application before the rerun |
| PipelineSafety.CallKeepsIndex | backend/app/services/application.py:94-114 | Every request transaction keeps the partial unique index |
| PipelineSafety.TaskKeepsIndex | backend/app/workers/tasks.py:176-219 | Every worker commit keeps the partial unique index |
| PipelineSafety.EffectKeepsLock | backend/app/services/dispatch.py:46-48 | A job id is live for at most one worker, and tries stay within `MAX_TRIES`, over every step |
| PipelineSafety.EffectKeepsBudget | backend/app/workers/tasks.py:190-206 | Every step keeps invocations and submits within what the accepted enqueues pay for |
| PipelineSafety.EffectKeepsBacked | backend/app/workers/tasks.py:168-221 | Every step keeps the confirmations within the accepted enqueues and reopenings, with one to spare for each worker on its way to a confirmation |
| PipelineSafety.RunsAreSafe | backend/app/workers/tasks.py:150-224 | Index, lock, budget, the cover of the confirmations, approval order and dates hold after every run |
| PipelineService.Backend.CreateApplication | backend/app/services/application.py:69-118 | The insert-first create, proved equal to its step of the state machine; a new row holds what the request says |
| PipelineService.Backend.CreateApplications | backend/app/services/application.py:121-176 | The batch loop and its single commit, proved equal to its step; the new rows hold what the request says, in request order |
| PipelineService.Backend.BulkApproveRows | backend/app/services/dispatch.py:71-96 | Exactly the staged rows among the ids asked for are approved, in one commit |
| PipelineService.Backend.ApplyToJob | backend/app/workers/tasks.py:150-224 | One invocation with no other event in between: it leaves the row its outcome says, gives the job back exactly on a retry, and confirms exactly when the application was not applied, passed the gate and the marker, and the submission succeeded; a refused gate marks the row as failed, and otherwise an invocation that does not submit changes no row |
| PipelineService.Backend.BulkApproveRoute | backend/app/services/dispatch.py:71-96 | Exactly the staged applications among the ids are approved and counted, and each of them has a job afterwards when the queue can be reached; no other row or job changes |
| PipelineService.Backend.CreateRoute | backend/app/api/v1/applications.py:39-48 | A fresh review or batch application ends staged with the queue unchanged; a fresh autonomous one ends queued with a waiting job |
| SessionSafety.OneUnusedTokenPerFamily | backend/app/api/v1/auth.py:66-86 | Over every interleaving a non-empty family has one owner and exactly one more token than used tokens; at most one token is live; no token is claimed twice |
| SessionSafety.RevocationKillsTheFamily | backend/app/api/v1/auth.py:201-210 | The commit of a replay, logout, reset or deletion leaves every token of the families concerned revoked |
| SessionSafety.DeadStaysDead | backend/app/api/v1/auth.py:192-217 | No later run mints a live token in a revoked family or claims one of its tokens |
| SessionSafety.RevokedNeverRefreshes | backend/app/api/v1/auth.py:192-258 | From the revoking commit on, a token never refreshes and its family has no live token |
| SessionAccounts.DeletionIsForGood | backend/app/api/v1/auth.py:242-258 | From the deletion of a known account on, along every run, it stays deleted, its logins are refused, and none of its tokens, old, pending or late, is claimed |
| SessionSafety.NextKeepsSignedOut | backend/app/services/password_reset.py:84-87 | A signed-out user stays so exactly through the steps that do not finish a login of that user |
| SessionSafety.ResetSignsOut | backend/app/services/password_reset.py:53-88 | After a reset no token of the user is live, through every run without a login finished afterwards |
| SessionSafety.PendingLoginOutlivesReset | backend/app/api/v1/auth.py:123-130 | A login whose password check came before the reset still gets a live session after it |
| SessionAccounts.LoginPassesIff | backend/app/api/v1/auth.py:123-128 | A login passes its check exactly for a known, active, undeleted account and its password |
| SessionAccounts.LoginGetsItsToken | backend/app/api/v1/auth.py:66-86 | The session of a login is one new token of that user in a family of its own, unused and unrevoked, for thirty days |
| SessionAccounts.TokenIsFoundIff | backend/app/api/v1/auth.py:175-187 | A presented token is found exactly when it is known and its lifetime is not over |
| SessionAccounts.ClaimRotatesIff | backend/app/api/v1/auth.py:192-217 | A claim succeeds exactly for an unused, unrevoked token of an open account; it uses the token up for a successor of the same user and family for thirty days, and no other token changes |
| SessionAccounts.ReplayHitsTheFamily | backend/app/api/v1/auth.py:201-207 | A replay revokes exactly the family of the token presented |
| SessionAccounts.LogoutHitsTheFamily | backend/app/api/v1/auth.py:221-239 | A logout revokes exactly the family of the token presented |
| SessionAccounts.DeletionMarksTheAccount | backend/app/api/v1/auth.py:250-257 | A deletion marks the account, revokes exactly its user's tokens, once, and leaves everybody else alone |
| SessionAccounts.RequestedResetIsRedeemableIff | backend/app/services/password_reset.py:24-50 | A requested reset can be redeemed exactly when the account is open, for thirty minutes |
| SessionAccounts.ResetIff | backend/app/services/password_reset.py:53-88 | A reset succeeds exactly when it is known, unused, not over and its account not deleted; it writes that user's password alone, uses up all open resets of the user, and revokes exactly the user's tokens |
| SessionAccounts.ResetTakesEffect | backend/app/services/password_reset.py:75-88 | After a reset the new password alone logs in, and no earlier reset of the user can be redeemed |
| Browser.CookieIsTheUnusedToken | frontend/src/services/api.ts:36-52 | Server and tab composed: whenever no refresh is in flight the cookie is live and is its family's one unused token |
| Browser.NeverReused | frontend/src/services/api.ts:36-52 | The tab's refresh never meets the reuse branch and never gets its own family revoked |
| Browser.SentAtMostTwice | frontend/src/services/api.ts:60-98 | No request outside the auth entry points is sent more than twice, and none waits without a refresh in flight |
| Browser.SentOncePerRefresh | frontend/src/services/api.ts:36-98 | In every run a request has been sent once, and once more for each successful refresh it waited for |
| Browser.RetriedIffRefused | frontend/src/services/api.ts:60-98 | In every run exactly the requests that met a 401 are marked as retried, none meets a third one, and one that met none was sent once |
| Browser.CookieIsTheLastArrived | frontend/src/services/api.ts:36-52 | In every run the cookie is the token of the last login or successful refresh that arrived |
| Browser.UnauthorizedWaitsOnce | frontend/src/services/api.ts:60-98 | A first 401 makes the request wait for the refresh in flight, or for a new one with the cookie of now; a second one gives it up |
| Browser.SettlingAnswersEveryWaiter | frontend/src/services/api.ts:36-52 | When the shared refresh settles every waiting request is sent again or given up, no other request changes, and the cookie is the new token or the old one |
| SessionService.AuthServer.ClaimToken | backend/app/api/v1/auth.py:192-217 | The conditional update and what commits or rolls back with it, proved equal to its step |
| SessionService.AuthServer.RefreshRoute | backend/app/api/v1/auth.py:163-217 | The refresh alone succeeds exactly for a live, unexpired token of a usable user, which it uses up for one successor of the same user and family; reuse revokes the family, any other refusal changes no token |
| SessionService.ApiClient.OnRefreshSettled | frontend/src/services/api.ts:38-52 | Every waiting request is resumed once, or given up, when the shared refresh settles |
| SkillRegistry.VersionsAreExactly | backend/app/core/harness/skills.py:89-116 | Under any interleaving the versions of a domain are exactly 1 to n, each held by one row |
| SkillRegistry.GivesUpOnlyAfterThree | backend/app/core/harness/skills.py:91-116 | A call gives up on the race only if at least three inserts of other calls committed in its domain since it began |
| SkillRegistry.CollisionEndsTheThirdAttempt | backend/app/core/harness/skills.py:91-116 | A version that is taken ends the call exactly on its third attempt; one that is free is stored with the call's domain and content, score 0 and active |
| SkillRegistry.InsertMakesTwinsIff | backend/app/core/harness/skills.py:77-114 | In every run an insert leaves two active rows of one content exactly when an active one was stored since the call checked |
| SkillRegistry.TwinsReachableIff | backend/app/core/harness/skills.py:77-116 | From a reachable state, without another call for the content, twins of it can come about exactly when its active rows, its calls that can still retry, and one for any last tries on a free version make at least two |
| SkillRegistry.BeginningAllowsTwinsIff | backend/app/core/harness/skills.py:77-88 | A call that passes the check makes twins possible exactly when another call for the content can still insert |
| SkillRegistry.NoOverlapNoTwins | backend/app/core/harness/skills.py:77-116 | In a run in which every call for a content passes the check only when no other can still insert, the content never has two active rows |
| SkillRegistry.RetiringATwinEndsIt | backend/app/core/harness/skills.py:77-88 | With twins the check fails; once feedback retires one of two, it answers the other as the duplicate |
| SkillRegistry.OverlappingCallsMakeTwins | backend/app/core/harness/skills.py:77-88 | Two overlapping calls with the same content store it twice, and the next duplicate check fails with several rows |
| SkillRegistry.StoredFeedbackAddsUp | backend/app/core/harness/skills.py:119-138 | After any run a stored row's score is the sum of the feedback since it was stored, and it is retired exactly when some running score reached the threshold |
| SkillRegistry.FeedbackAddsUp | backend/app/core/harness/skills.py:119-138 | For any starting row and feedback the score moves by the sum, and the row is retired exactly when it was before or some running score reached the threshold |
| SkillRegistry.RetiredStaysRetired | backend/app/core/harness/skills.py:132-134 | No feedback makes a retired skill active again |
| SkillRegistry.VerdictMovesScores | backend/app/workers/tasks.py:286-297 | A verdict moves a used skill's score by one for every time it was used, and the skill is retired exactly when it was before or the score got down to -3; the rest of the row stays |
| SkillRegistry.TopIsUnique | backend/app/core/harness/skills.py:141-155 | At most one list is the active skills by score then version, cut at the limit |
| SkillRegistry.LoadIsDetermined | backend/app/core/harness/skills.py:141-155 | In every reachable state that list exists and is unique |
| SkillRegistry.AnswerIsTheBest | backend/app/core/harness/skills.py:141-155 | The answer holds active skills of the domain, highest score first and of equal scores the latest version; one is left out only when the limit is reached by better ones |
| SkillRegistry.Registry.SelectMaxVersion | backend/app/core/harness/skills.py:92-96 | The largest version of the domain, or zero |
| SkillRegistry.Registry.InsertWithRetries | backend/app/core/harness/skills.py:91-116 | The retry loop, whatever other calls do to the table between read and insert: each attempt tries one more than the largest version it read, all but the last meet a row with theirs, and the call inserts or gives up after three |
| SkillRegistry.Registry.RecordSkill | backend/app/core/harness/skills.py:62-116 | Rejected exactly when unclean; a duplicate or several exactly when active rows of the domain have the content, and which of the two; otherwise the retry loop |
| SkillRegistry.Registry.ScoreFromVerdict | backend/app/workers/tasks.py:286-297 | The loop over the used skills: every skill's score and status afterwards, exactly |
| ExpressionRoundTrip.ResolveIsEval | autoapply-ai-job-search-interface/project/support.js:203-292 | For every host and every tree, written with spelled-out letters, digits and blanks: each blank position of its text with blanks of its own, numbers of sign, digits and fraction, quoted literals of any text that closes its brackets and has no top-level operator, and any blanks around the text: resolving the text is evaluating the tree |
| ExpressionRoundTrip.IdentifierIsLookedUp | autoapply-ai-job-search-interface/project/support.js:201-262 | An identifier that is none of the four words is looked up in the values |
| ExpressionRoundTrip.CharacterClasses | autoapply-ai-job-search-interface/project/support.js:201-204 | Identifier letters, digits and trimmed blanks are exactly the characters written out |
| ExpressionScanners.NumbersAre | autoapply-ai-job-search-interface/project/support.js:202 | The number literals are exactly the texts of a sign, digits and a fraction |
| ExpressionScanners.TrimCutsBlanks | autoapply-ai-job-search-interface/project/support.js:204 | Trimming cuts off blanks at both ends, and what it leaves neither begins nor ends with one |
| ExpressionScanners.FindsTheTopOperatorIff | autoapply-ai-job-search-interface/project/support.js:246-260 | The scan finds the first operator with as many brackets closed as opened before it, and none exactly when there is none, also in unbalanced text |
| ExpressionScanners.WrapsWholeIff | autoapply-ai-job-search-interface/project/support.js:235-245 | The outer parentheses wrap the whole exactly when no earlier one closes everything open |
| ExpressionScanners.ClosesTheBracketIff | autoapply-ai-job-search-interface/project/support.js:270-279 | The bracket found is the first that closes more than was opened since; there is none exactly when everything is closed again |
| ExpressionScanners.BrokenPathIsUndefined | autoapply-ai-job-search-interface/project/support.js:261-292 | A path followed by anything but a dot with a name or a closed bracket is undefined |
| ExpressionScanners.NoHeadIsUndefined | autoapply-ai-job-search-interface/project/support.js:261-263 | A path that does not begin with a letter is undefined |
| ExpressionScanners.OtherwiseAPath | autoapply-ai-job-search-interface/project/support.js:203-233 | A trimmed text that begins with a letter, shows no top-level operator and is none of the four words is read as a path |
| ExpressionRoundTrip.QuotedTextResolvesIff | autoapply-ai-job-search-interface/project/support.js:230-232 | A quoted literal means its contents exactly when its text has no top-level equality operator |
| ExpressionRoundTrip.QuotedOperatorSplits | autoapply-ai-job-search-interface/project/support.js:209-223 | Such a literal: quotes around an operator do not protect it |
| ExpressionRoundTrip.PrintIsClosed | autoapply-ai-job-search-interface/project/support.js:235-245 | Every printed tree has its parentheses and brackets closed |
| ExpressionRoundTrip.PrintIsQuiet | autoapply-ai-job-search-interface/project/support.js:246-260 | A printed tree other than an equality shows no operator at top level |
| ExpressionRoundTrip.EqualityIsFound | autoapply-ai-job-search-interface/project/support.js:246-260 | The scan finds exactly the printed operator |
| ExpressionRoundTrip.WalkIsEval | autoapply-ai-job-search-interface/project/support.js:261-292 | Following printed dots and brackets is evaluating the segments |
| Expressions.ParensWrapWhole | autoapply-ai-job-search-interface/project/support.js:235-245 | The depth-counting loop, proved equal to its specification |
| Expressions.FindTopLevelEquality | autoapply-ai-job-search-interface/project/support.js:246-260 | The scanning loop with its skips, proved equal to its specification |
| Expressions.MatchBracket | autoapply-ai-job-search-interface/project/support.js:273-283 | The inner loop finds the closing bracket, or none |
| Expressions.ResolvePathLoop | autoapply-ai-job-search-interface/project/support.js:261-292 | The loop over `cur` and `i`, proved equal to the recursive walk |
| AttributeNames.DecodeUndoesEncodeIff | autoapply-ai-job-search-interface/project/support.js:345-359 | Decoding an encoded attribute name gives it back exactly when it has no dash before a lower-case letter |
| AttributeNames.CamelNamesSurvive | autoapply-ai-job-search-interface/project/support.js:337-359 | Every camel-case name the encoder touches is changed by it and recovered by the decoder |
| AttributeNames.EncodedHasNoCapital | autoapply-ai-job-search-interface/project/support.js:345-348 | An encoded name has no capital letter |
| AttributeNames.EncodesEachLetter | autoapply-ai-job-search-interface/project/support.js:345-348 | Wherever it stands a capital becomes a dash and its small letter, and nothing else changes |
| AttributeNames.DecodesEachDash | autoapply-ai-job-search-interface/project/support.js:357-359 | Wherever it stands a dash before a small letter goes and the letter becomes its capital |
| AttributeNames.DecodesNothingElse | autoapply-ai-job-search-interface/project/support.js:357-359 | A name without a dash before a small letter is not changed |
| ResumeRoundTrip.SectionsAreRecovered | backend/app/core/documents/parser.py:173-202 | When no body line reads like a header, the sections parsed from a rendered resume are exactly the ones written, each with its lines stripped; parsing fails exactly when there is no text |
| ResumeRoundTrip.SummaryIsRecoveredIff | backend/app/core/documents/docx_renderer.py:100-104 | The summary comes back unchanged exactly when neither it nor any of its lines has space around it |
| ResumeRoundTrip.CertificationsAreRecoveredIff | backend/app/core/documents/docx_renderer.py:118-123 | The certifications come back, one a line, exactly when each is a trimmed non-empty line, or the list is just one empty string |
| ResumeRoundTrip.SkillsAreRecoveredIff | backend/app/core/documents/parser.py:233-284 | Two or more skills come back in order exactly when they differ ignoring case and each is trimmed, longer than one character and free of commas and line breaks |
| ResumeRoundTrip.LoneSkillIsRecoveredIff | backend/app/core/documents/parser.py:269-273 | A single skill comes back exactly when it is a trimmed line without one of the six delimiters that does not start with a dash or a star, is longer than one character and shorter than sixty |
| Resume.Render | backend/app/core/documents/docx_renderer.py:83-123 | The document is built in order: header lines, then each section that has content (`DocumentIsItsLines` says which lines these are) |
| Resume.AddHeader | backend/app/core/documents/docx_renderer.py:186-203 | The name and the contact line of the values present |
| Resume.AddExperience | backend/app/core/documents/docx_renderer.py:206-230 | A title line and the non-blank description lines of each job |
| Resume.AddEducation | backend/app/core/documents/docx_renderer.py:233-250 | One line for each degree |
| ResumeDocument.DocumentIsItsLines | backend/app/core/documents/docx_renderer.py:83-123 | The document holds exactly the name, the contact values present, and for each section with content its lines: of a job the title, company and dates and every line of the description that is not blank, stripped and in order |
| ResumeDocument.FilledHolds | backend/app/core/documents/docx_renderer.py:225-230 | No line of a description that holds more than blanks is left out |
| ResumeDocument.LineIsCutAt | backend/app/core/documents/parser.py:258-268 | A line of skills is cut at the first of the six delimiters, in order of preference, that it holds |
| ResumeDocument.LineIsOneSkill | backend/app/core/documents/parser.py:269-273 | A line without one is a skill without the bullets before it, of 1 to 59 characters |
| ResumeDocument.FirstOfAKindIsKept | backend/app/core/documents/parser.py:275-284 | Of skills that differ only in case exactly the first is kept, in its place |
| ResumeDocument.SkillsAreReadFrom | backend/app/core/documents/parser.py:248-273 | The skills are read line by line from what stands under the first of four headings, in order of preference, or from the whole text if nothing does |
| ResumeDocument.HeadingIsKnown | backend/app/core/documents/parser.py:173-193 | A heading is known whatever its case, the blanks around it and the colons behind it |
| Resume.ExtractSections | backend/app/core/documents/parser.py:173-202 | The loop over lines, proved equal to its specification |
| Resume.SkillsOnLine | backend/app/core/documents/parser.py:258-273 | The first delimiter present splits the line; without one it is a bullet line |
| Resume.WithoutRepeats | backend/app/core/documents/parser.py:275-284 | The loop with its `seen` set, proved equal to first-occurrence removal |
| Resume.ExtractSkills | backend/app/core/documents/parser.py:233-284 | The skills section if there is one with text, else the whole text |
| Text.SplitJoin | backend/app/core/documents/parser.py:171-182 | Splitting a join splits each part |
| Text.SplitUndoesJoin | backend/app/core/documents/parser.py:171-182 | Parts without the separator are recovered from their join |
| Text.JoinSplit | backend/app/core/documents/parser.py:182-193 | Joining the parts of a split gives the string back |
| Text.SpacesAre | backend/app/core/documents/parser.py:182-187 | The characters stripped are exactly the space characters written out |
| RateLimiter.CounterIsTheLogsCount | backend/app/core/ratelimit.py:24-27 | After any run, whenever it is read, the expiring counter of a key's running window equals the log's count for it |
| RateLimiter.CounterExpiresAfterFirst | backend/app/core/ratelimit.py:25-27 | In every run a counter expires one window after the first check it counts, and later checks do not put that off |
| RateLimiter.WindowAdmitsItsLimit | backend/app/core/ratelimit.py:25-29 | Each window lets through exactly its first `limit` checks |
| RateLimiter.AnySpanAdmitsAtMostTwice | backend/app/core/ratelimit.py:24-29 | Any span as long as a window lets through at most twice the limit |
| RateLimiter.TwiceIsReached | backend/app/core/ratelimit.py:24-29 | For every limit and window a burst across a boundary reaches that bound |
| RateLimiter.AtMostTwoAlive | backend/app/core/ratelimit.py:24-27 | Of a key at most two counters are alive: the running window's and the one before it |
| RateLimiter.Limiter.Check | backend/app/core/ratelimit.py:18-29 | The counter steps of a check; without Redis production refuses and development admits |
| Timeline.CuttingChangesNothing | backend/app/services/analytics.py:185-214 | The timeline built from the cut series is the latest thirty days of the full union with the uncut counts |
| Timeline.EntryCounts | backend/app/services/analytics.py:185-214 | Each entry counts the applications made on its day, those applied on it, and the jobs found on it |
| Timeline.DaysAre | backend/app/services/analytics.py:201-204 | Something happened on a day exactly when an application was made or applied on it or a job found |
| Timeline.CutBelowUnion | backend/app/services/analytics.py:201-204 | Dropping days that are not among the latest k before the union does not change the latest k |
| Timeline.TakenIff | backend/app/services/analytics.py:193-195 | A day survives the cut exactly when fewer than k days of the series come after it |
| Timeline.TimelineShowsIff | backend/app/services/analytics.py:201-214 | A day is shown exactly when something happened on it and on fewer than thirty later days |
| Timeline.TimelineFalls | backend/app/services/analytics.py:201-214 | The days come strictly latest first |
| Timeline.TimelineShowsSomething | backend/app/services/analytics.py:201-214 | Every day on the timeline shows something |
| JobSearch.OnePassIsFirsts | backend/app/services/job_search.py:94-121 | The one-pass index equals removing repeats by first occurrence and looking each key up among the known rows |
| JobSearch.IdentityIs | backend/app/services/job_search.py:33-48 | A listing is known by its id, only without one by the digest of its URL, and by nothing exactly without both |
| JobSearch.TwoListingsFold | backend/app/services/job_search.py:102-121 | Two listings with the same id, whatever their URLs, or without ids and with the same URL, are one answer exactly on the same platform |
| JobSearch.NewRowKeeps | backend/app/services/job_search.py:110-121 | A new row keeps the listing's platform, URL and title under its identity |
| JobSearch.CollectedCat | backend/app/services/job_search.py:123-165 | The listings of the platforms are taken over in the order of the platforms |
| JobSearch.CollectedOne | backend/app/services/job_search.py:123-165 | A platform that is not registered or fails adds nothing, any other one its listings |
| JobSearch.AnswerHasEachKeyOnce | backend/app/services/job_search.py:102-121 | When every listing has an id or a URL, the answered keys are distinct and exactly the listings' keys, and a known key is answered with its row |
| JobSearch.CommitSucceedsIff | backend/app/services/job_search.py:189-197 | The commit keeps the unique constraint exactly when the listings without id and URL have keys of their own |
| JobSearch.SearchAgainAddsNothing | backend/app/services/job_search.py:91-121 | Searching again with the same listings adds no row and answers the same |
| JobSearch.DegenerateSpoilsTheNextSearch | backend/app/services/job_search.py:105-108 | Once a listing without id and URL is stored, the same search stores and answers nothing |
| JobSearch.AddedKeys | backend/app/services/job_search.py:102-121 | The keys a search adds are the new identities and the raw keys of listings without id and URL |
| JobSearch.JobSearcher.RegisterJob | backend/app/services/job_search.py:102-121 | The inner function on its captured sets and lists, proved equal to its specification |
| JobSearch.JobSearcher.SearchJobs | backend/app/services/job_search.py:77-209 | The whole search over the platforms' answers, its commit or rollback, and the page cut at the limit |
| JobSearch.PageIs | backend/app/services/job_search.py:199-209 | The page holds the first jobs up to the limit, their number, and whether some are left out |
| CredentialStore.StoreRefinesPlainMap | backend/app/core/secrets/credential_store.py:31-137 | Through any puts, deletions, rotations and key-ring changes the rows are the plain map's values, each under one key that the row names |
| CredentialStore.ReadIsPlainIff | backend/app/core/secrets/local.py:45-48 | A read is the plain map's value exactly when the row's key is on the ring, and fails exactly otherwise |
| CredentialStore.KeptKeysReadPlain | backend/app/core/secrets/credential_store.py:60-75 | While ring changes keep needed keys, every read is the plain map's |
| CredentialStore.PutUsesTheCurrentKey | backend/app/core/secrets/credential_store.py:31-58 | A value is stored under the current key and its own data key, and no other row changes |
| CredentialStore.DeletingCookies | backend/app/core/secrets/credential_store.py:103-115 | Deleting cookies says whether there were any and removes that row alone |
| CredentialStore.RotationIsAllOrNothing | backend/app/core/secrets/credential_store.py:117-137 | Rotation succeeds exactly when the ring opens every row, counts the rows under other keys, and otherwise changes none |
| CredentialStore.RotationIsComplete | backend/app/core/secrets/credential_store.py:117-137 | After a rotation the current key alone opens every row, and a second rotation touches none |
| CredentialStore.RotationRewraps | backend/app/core/secrets/credential_store.py:117-137 | A rotation wraps every row of another key afresh under the current one with a data key of its own and the same plaintext, and leaves the others alone |
| CredentialStore.Store.RotateRows | backend/app/core/secrets/credential_store.py:117-137 | The loop with its single commit, proved equal to the all-or-nothing specification in whatever order rows come |
| Purge.PurgeRemovesExactly | backend/app/services/account.py:64-74 | A row is gone exactly when it is the user's and not a password-reset token; all others are unchanged |
| Purge.NothingDanglesOnTheWay | backend/app/services/account.py:33-47 | After each of the twelve deletes no foreign key dangles |
| Purge.NothingDanglesAtTheEndIff | backend/app/services/account.py:64-74 | Without the database's cascade, nothing dangles at the end exactly when the user has no password-reset token |
| Purge.ChildFirst | backend/app/services/account.py:34-47 | In the delete order no table comes after a table it points to |
| Purge.TreesMeetIff | backend/app/core/storage/service.py:14-21 | Two users' checks let a common key through exactly when the ids are equal or one continues the other after a slash |
| Purge.TreesAreDisjoint | backend/app/core/storage/service.py:14-21 | For ids without slashes no checked key belongs to two users |
| Purge.BuiltKeysAreTheUsers | backend/app/core/storage/keys.py:6-27 | Every built key passes its user's check and lies under the prefix the purge deletes |
| Purge.KindsKeepApart | backend/app/core/storage/keys.py:10-27 | Keys of different kinds of files of a user never coincide |
| Purge.OthersKeepTheirFiles | backend/app/services/account.py:52-59 | The purge of one user removes no file of another |
| Purge.Account.DeletePrefix | backend/app/core/storage/service.py:32-34 | A prefix outside the tenant is refused; a storage failure removes at most part of what matches |
| Purge.Account.DeleteRows | backend/app/services/account.py:65-72 | The loop over the tables and its sum of row counts |
| Purge.Account.DeleteUserData | backend/app/services/account.py:50-77 | A storage failure changes no row; otherwise rows, user and files go, with the counts reported |

## Left out

Premises of the pipeline and the sessions:

- Each commit is one atomic step; isolation weaker than that and lost HTTP responses are excluded.
- Rows are not deleted while the pipeline runs, and the purge is modelled on its own.
- Arq is assumed to refuse a live job id, to run a retried job with the next try number and never past `MAX_TRIES`;
  a job id held back by a kept result, or an unreachable queue, is the `available` argument of an enqueue.
- Every end of an invocation outside the submission's handlers is a step (`InterruptTask`), before and after each commit,
  as is a cancellation inside the submission whose mark fails; a failure whose mark is not committed ends like that. A
  worker that dies is such an end with a rerun; past the last try the job counts as over at once.
- The submission itself, its browser automation, LLM calls and the ATS score are outcomes chosen freely. Writes that
  the ORM would leave out because a value did not change are modelled as writes.
- UUIDs and tokens are fresh, and hashes are injective on the values used.
- Several browser tabs, and cookies shared with other programs, are excluded; other clients are the `Stranger` moves.
- Access-token contents, registration, rate limits on the auth routes, mail and WebSocket tickets.

Other limits of the models:

- SkillRegistry: the PII gate is an input; feedback rows are not kept, only their effect on score and status.
- Expressions: `String(src)` is the identity, strings are sequences of characters, and the host's value operations
  are parameters. The HTML rewriting around attribute names, React and the DOM are not modelled.
- AttributeNames: only ASCII letters are changed by the case conversions.
- Resume: a document is its list of paragraph texts, so fonts, alignment, saving and the exceptions around them are
  not modelled, nor that python-docx stores a carriage return as a line break and refuses control characters.
  Contact extraction, PDF parsing, cover letters and word counts are left out.
- RateLimiter: a check is one step on one clock shared with Redis; the premise that each key has one window is part
  of `After`. HTTP status codes and the choice of the client key are left out.
- Timeline: days are numbers in calendar order instead of ten-character texts; the truncation to the day in SQL is
  not modelled. The other analytics are sums and averages.
- JobSearch: `listings` are already converted rows, a failing platform contributes nothing, and columns other than
  platform, id, URL and title are not kept. Column length limits are not modelled.
- CredentialStore: Fernet tokens are constructors that only the key that made them opens; JSON and text encodings of
  the secrets, the KMS provider and the session state after a failed rotation are left out.
- Purge: storage is a set of flat keys; resolving paths in the local file store is not modelled. Tables outside the
  purge, such as the shared domain skills, are left out.

Not modelled because it would only add easy members, or is foreign code: scrapers, ATS scoring and diagnosis rules,
document templates, React pages and stores, metrics, logging, settings, migrations and progress messages.
