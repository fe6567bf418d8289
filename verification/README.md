# Verified model of the gateway and its monitor bot

The gateway (Kotlin) decides which requests reach the services behind it: it limits the rate of
authentication calls, lets a request through two layers of endpoint policy, caches what a token
stands for, and masks what it logs. The monitor bot (Go) watches the gateway and the services: it
polls assignments, log queries and alerts, keeps its findings in one state file, and notifies an
operator channel. This project models the parts of both whose behaviour over whole runs is hard to
see from any one function, and proves what they promise.

| area | modules | main results |
|---|---|---|
| rate limit | `RateLimiter`, `AuthRateLimit` | the conservative Count-Min limiter never under-counts, never exceeds a plain sketch, and refines an exact counter for isolated keys; exactly which calls are admitted, from their digests alone; bounds per minute and over any 60 seconds; the budgets of logins and of refresh and logout |
| assignment issues | `AssignmentModel`, `IssueLifecycle`, `AssignmentDiagnosis`, `AssignmentOps`, `AssignmentRuns` | one notification per unchanged issue over any run, another exactly on a change, silence from the command until its time or for good, changes reported once a cooldown, resolution exactly on evidence, conservation of issue counts; runs of whole polls and commands refine the lifecycle of each issue |
| stored state | `StateStore`, `LogFeeds`, `LogFeedRuns`, `LogFeedMonitor` | pruning keeps the newest, normalisation is idempotent, snapshots are isolated from the store; over any number of rounds no message of a log feed repeats a row and none is lost, and exactly which windows and polling intervals break that; feeds are visited an interval apart and none is missed |
| alerts | `Alerts`, `OpsLog` | over any run of polls, an alert is sent exactly when its history lets it, a cooldown after its last send; a key of a known service is cleared only after that service was observed, and exactly the others without; decision, severity and route agree |
| grouping | `Grouping`, `AlertGroups`, `AssignmentEventGroups` | the one-pass group-by gives the same groups for any order of events, counts every event once, and the limit keeps the latest; which events are one group |
| endpoint policy | `PathPatterns`, `EndpointAllowlist`, `AccessPolicy`, `AccessCatalog`, `AdminAreas`, `AccessReach`, `CatalogChecks`, `SecurityChain`, `RequestPolicy` | the filter and the chain built from this catalog together: below the admin areas only admins pass; exactly what each role may read and change; every catalog that ends in its fallback is total and monotone in the role; two rules that could be deleted |
| token cache | `TokenCache` | eviction by subject is complete and touches nobody else; exactly when storing keeps it so; over any safe run a stored payload is served until it expires, and nothing of an evicted subject until it is resolved again |
| small cores | `Masking`, `Buttons` | masking is idempotent and hides what is under masked keys; which button ids survive a round trip |

`Clock`, `Text`, `Validation`, `Sorting` and `Wrappers` hold what the others share.

## How the model reads the programs

- Times are instants in nanoseconds, 0 for the zero time; every reading of a clock is a parameter,
  and readings never go back.
- Digests, time parsing, number printing, queries, deliveries and the answers of other services are
  parameters or arbitrary function values. A digest is only assumed to have a fixed length.
- What a method changes in place is a class with its fields: the counters of the limiter, the maps
  of fingerprints (heap objects that a snapshot could share with the store), the stored issues, the
  alert states, the exchange builder, the Redis store.
- Spring's path patterns are assumed to match by segments: a literal by equality, `*` or a variable
  one segment that is not empty, a trailing `**` any number of segments; the first registered
  matcher that fits a request decides, and a request without one is denied.
- Redis is assumed to drop a cell when its time comes, to create a set without a time when a member
  is added to none, and to ignore a new time for a cell that is gone.

## What the proofs found

- A row of a feed registered for 24 hours can be sent twice exactly if the interval at which query
  results are polled is shorter than a second, as its default of 500 ms is: the query starts at a
  whole second, so it can return a row whose fingerprint, kept for 24 hours from an answer that came
  that soon, has just been pruned. Every other window is safe
  (`LogFeeds.OnlyTheDayWindowRedelivers`).
- A poll made before the baseline is set emits no issue events, so it resolves every stored issue of
  a fetched assignment, although it is still diagnosed (`AssignmentOps.ResolvedExactlyOnEvidence`).
- Course slugs with a colon, which the command's pattern admits, make keys ambiguous: exactly those
  share their keys with another, colon-free slug (`AssignmentModel.ColonsCollide`,
  `AssignmentModel.ColonIssuesCollide`).
- Clearing an acknowledgement hides the notification that the next observation would have caused,
  unless that one escalates, exactly when no acknowledgement is in force and the issue is resolved
  or its acknowledgement has expired (`IssueLifecycle.UnacknowledgeHidesANotification`); for an issue
  that is not stored it never does (`AssignmentRuns.AbsentIssuesLoseNothing`).
- The access rules alone let anyone read the documents of a service called "admin"; no allow rule
  does (`AdminAreas.AnonymousInAdminAreas`, `AdminAreas.AllowedAdminRequestsNeedAdmin`).
- The rules `admin-v1-courses-get` and `admin-v2-courses-any` change no decision
  (`AdminAreas.DeletionChangesNothing`).
- If the index of a subject expires between the two commands that renew it, the payload just stored
  is in no index and no eviction finds it (`TokenCache.IndexMayExpireUnderfoot`); the same holds
  when the first of these commands fails, because the request goes on regardless.
- A text can stand in for the one before it that is missing: an alert of a service alone and an alert of
  that severity alone are one incident (`AlertGroups.TextsMove`).
- Tokens without a subject share their cache entries' subject with a subject "unknown"
  (`TokenCache.NamelessTokens`).
- A trace button is printed for ids with a colon, which its parser refuses
  (`Buttons.TraceRoundTrip`).
- A limit of `Int.MAX_VALUE` is no limit, because the counters saturate there
  (`RateLimiter.UnlimitedAtMax`).
- Two error codes can be read alike: the short form of an auth code and the code that spells it out
  (`OpsLog.CodesReadAlike`). A row that does not alert can carry the reason of a server error
  (`OpsLog.DecisionFollowsSeverity`).
- An alert can be cleared by a poll that observed nothing exactly if its service is not a known one
  (`Alerts.ClearedWithoutObservation`).

## Model

| member | source | states |
|---|---|---|
| `RateLimiter.BigEndianFits` | src/main/kotlin/com/aandi/gateway/security/FixedWindowRateLimiter.kt:57-61 | the four digest bytes of a row make an unsigned value below 2^32, so its remainder is a slot |
| `RateLimiter.NeverUnderCounts` | src/main/kotlin/com/aandi/gateway/security/FixedWindowRateLimiter.kt:38-47 | after any history of counted calls every row of a key, and so its estimate, is at least its own count up to `Int.MAX_VALUE` |
| `RateLimiter.AtMostPlainSketch` | src/main/kotlin/com/aandi/gateway/security/FixedWindowRateLimiter.kt:38-46 | every counter is at most the number of counted calls that hash to it, so never above a plain Count-Min sketch |
| `RateLimiter.IsolatedIsExact` | src/main/kotlin/com/aandi/gateway/security/FixedWindowRateLimiter.kt:39-46 | if some row gives a key a slot of its own, its estimate is exactly its count, up to saturation |
| `RateLimiter.AllowedIsWithinLimit` | src/main/kotlin/com/aandi/gateway/security/FixedWindowRateLimiter.kt:40-47 | with a limit below `Int.MAX_VALUE` an allowed call is at most the limit-th counted call for its key in the window |
| `RateLimiter.MinuteBound` | src/main/kotlin/com/aandi/gateway/security/FixedWindowRateLimiter.kt:32-47 | over any run with a clock that never goes back, at most `limit` calls of a key are allowed in one minute, whatever other keys are called |
| `RateLimiter.SlidingBound` | src/main/kotlin/com/aandi/gateway/security/FixedWindowRateLimiter.kt:15-47 | any span of 60 seconds allows at most twice the limit for one key |
| `RateLimiter.NeverAdmitsMore` | src/main/kotlin/com/aandi/gateway/security/FixedWindowRateLimiter.kt:28-48 | the limiter never allows a call that an exact saturating counter per key would refuse |
| `RateLimiter.IsolatedRefinesExact` | src/main/kotlin/com/aandi/gateway/security/FixedWindowRateLimiter.kt:28-48 | for a key isolated in some row from the other keys of its window, the answer is that of the exact counter |
| `RateLimiter.DifferentDigestsIsolate` | src/main/kotlin/com/aandi/gateway/security/FixedWindowRateLimiter.kt:53-63 | if in some row the four digest bytes of every other key counted in the window leave another remainder than those of a key, that key is isolated |
| `RateLimiter.AdmittedExactly` | src/main/kotlin/com/aandi/gateway/security/FixedWindowRateLimiter.kt:28-63 | with such digests and a clock that never goes back, a call is admitted exactly if fewer calls of its key than its limit were counted in its minute, or the limit is `Int.MAX_VALUE` |
| `RateLimiter.UnlimitedAtMax` | src/main/kotlin/com/aandi/gateway/security/FixedWindowRateLimiter.kt:40-47 | a limit bounds the calls of a key if and only if it is not `Int.MAX_VALUE` |
| `RateLimiter.FixedWindowRateLimiter.constructor` | src/main/kotlin/com/aandi/gateway/security/FixedWindowRateLimiter.kt:17-26 | four rows of zeroed counters and no window |
| `RateLimiter.FixedWindowRateLimiter.Allow` | src/main/kotlin/com/aandi/gateway/security/FixedWindowRateLimiter.kt:28-48 | answer and new window are those of the history functions; a call with a limit of at most 0 changes nothing; the counters in place hold exactly the cells of the history |
| `RateLimiter.FixedWindowRateLimiter.CurrentEstimate` | src/main/kotlin/com/aandi/gateway/security/FixedWindowRateLimiter.kt:39-39 | the least counter of the key over the four rows |
| `RateLimiter.FixedWindowRateLimiter.RaiseTo` | src/main/kotlin/com/aandi/gateway/security/FixedWindowRateLimiter.kt:41-46 | exactly the counters of the key below the new estimate are raised to it, no other counter changes |
| `RateLimiter.FixedWindowRateLimiter.ClearCounters` | src/main/kotlin/com/aandi/gateway/security/FixedWindowRateLimiter.kt:34-34 | every counter is 0 |
| `RateLimiter.FixedWindowRateLimiter.BucketIndexes` | src/main/kotlin/com/aandi/gateway/security/FixedWindowRateLimiter.kt:53-63 | the slot of row `r` is `d[4r] * 2^24 + d[4r+1] * 2^16 + d[4r+2] * 2^8 + d[4r+3]` modulo the number of slots, for the unsigned bytes `d` of the digest |
| `RateLimiter.FixedWindowRateLimiter.CounterSlotCount` | src/main/kotlin/com/aandi/gateway/security/FixedWindowRateLimiter.kt:50-51 | four times the number of slots |
| `RateLimiter.Replay` | src/main/kotlin/com/aandi/gateway/security/FixedWindowRateLimiter.kt:28-48 | driving one limiter over any run gives, call by call, the answers the history lemmas speak of |
| `AuthRateLimit.KeysAgree` | src/main/kotlin/com/aandi/gateway/security/AuthRateLimitFilter.kt:83-96 | two requests share a counter exactly when both or neither are logins, from one address text, a missing address included, with the same hashed secret; colons in the address forge nothing |
| `AuthRateLimit.RefreshKeysCarryTheirLimits` | src/main/kotlin/com/aandi/gateway/security/AuthRateLimitFilter.kt:62-67 | every call charged to a refresh key carries at most the larger of the refresh and logout limits |
| `AuthRateLimit.RefreshAndLogoutShareABudget` | src/main/kotlin/com/aandi/gateway/security/AuthRateLimitFilter.kt:62-95 | refresh and logout of one token from one address pass together at most max(refreshPerMinute, logoutPerMinute) times a minute |
| `AuthRateLimit.LoginKeysCarryTheirLimit` | src/main/kotlin/com/aandi/gateway/security/AuthRateLimitFilter.kt:62-95 | every call charged to a login key carries the login limit |
| `AuthRateLimit.LoginBudget` | src/main/kotlin/com/aandi/gateway/security/AuthRateLimitFilter.kt:62-95 | at most `loginPerMinute` logins from one address pass in one minute |
| `AuthRateLimit.LoginsPassExactly` | src/main/kotlin/com/aandi/gateway/security/AuthRateLimitFilter.kt:62-95 | with digests that set the address apart, a login passes exactly if fewer than `loginPerMinute` were charged to its address in the minute |
| `AuthRateLimit.ChargedExactly` | src/main/kotlin/com/aandi/gateway/security/AuthRateLimitFilter.kt:62-81 | which requests are charged, to which key, and with which of the three limits |
| `IssueLifecycle.NotifyCountIsConserved` | monitor-bot/internal/monitor/assignment_issue_lifecycle.go:111-115 | over any run of polls and commands the notification count grows by exactly the notifying observations |
| `IssueLifecycle.ObservationSpendsArming` | monitor-bot/internal/monitor/assignment_issue_lifecycle.go:61-121 | an observation notifies only an armed issue, and observing the same severity and evidence never arms it again |
| `IssueLifecycle.OneNotificationPerUnchangedIssue` | monitor-bot/internal/monitor/assignment_issue_lifecycle.go:61-121 | from any stored issue, a run of unchanged observations notifies at most once more than the steps that re-arm it |
| `IssueLifecycle.AtMostOneNotification` | monitor-bot/internal/monitor/assignment_issue_lifecycle.go:61-121 | without a command or resolution between, any number of unchanged observations notifies at most once |
| `IssueLifecycle.NotifiedExactlyWhenArmed` | monitor-bot/internal/monitor/assignment_issue_lifecycle.go:95-121 | such a run notifies exactly once if the issue was armed and some observation fell outside its acknowledgement, else never |
| `IssueLifecycle.NothingWhileSuppressed` | monitor-bot/internal/monitor/assignment_issue_lifecycle.go:98-132 | while an acknowledgement or a silence is active no observation notifies, whatever it reports |
| `IssueLifecycle.SilenceIsForGood` | monitor-bot/internal/monitor/assignment_issue_lifecycle.go:97-132 | from the command that silences an issue on nothing that is observed, however much later, notifies or ends the silence |
| `IssueLifecycle.AcknowledgedUntil` | monitor-bot/internal/monitor/assignment_issue_lifecycle.go:97-132 | from an acknowledgement on nothing that is observed before its time notifies or ends it |
| `IssueLifecycle.AcknowledgementEnds` | monitor-bot/internal/monitor/assignment_issue_lifecycle.go:97-132 | the first observation at its time or later notifies if its event asks for it, opens the issue and clears the acknowledgement |
| `IssueLifecycle.NotifiedAgainExactly` | monitor-bot/internal/monitor/assignment_issue_lifecycle.go:61-121 | an open issue seen before is notified again exactly for a worse severity or other evidence, a resolved one whenever it returns |
| `IssueLifecycle.KeptExactly` | monitor-bot/internal/monitor/assignment_issue_lifecycle.go:111-120 | the first event of an issue is always kept in the list, even one that is not to be sent; a later one exactly if it is sent |
| `IssueLifecycle.DetectedFromTo` | monitor-bot/internal/monitor/assignment_issue_lifecycle.go:61-95 | over a run of observations the issue tells the times of the first since it was absent or resolved, and of the last |
| `IssueLifecycle.UnacknowledgeHidesANotification` | monitor-bot/internal/monitor/assignment_issue_ops.go:211-233 | for every issue: clearing its acknowledgement loses the next notification exactly when none is in force, the observation does not escalate, and the issue is resolved, acknowledged in the past, or without a key; and gains one exactly when one is in force and the observation escalates |
| `AssignmentDiagnosis.DiagnosesAreFewAndDistinct` | monitor-bot/internal/monitor/assignment_diagnosis.go:172-242 | at most two diagnoses, never two of one type, each of an issue type and counted; all but the stale draft notify |
| `AssignmentDiagnosis.DiagnosisMeaning` | monitor-bot/internal/monitor/assignment_diagnosis.go:163-242 | each of the five issue types is diagnosed exactly under its own condition on the texts of status, times and problem, whatever the order of the branches |
| `AssignmentDiagnosis.DiagnosesOfOneKind` | monitor-bot/internal/monitor/assignment_diagnosis.go:172-242 | the type of a diagnosis decides its severity, reason and flags: only a stale draft is INFO, all others WARN |
| `AssignmentDiagnosis.EvidenceIsOfTheFields` | monitor-bot/internal/monitor/assignment_diagnosis.go:297-313 | for a digest without collisions two diagnoses carry the same evidence exactly if they have one type and all shown fields of the assignment are equal |
| `AssignmentDiagnosis.DiffMeaning` | monitor-bot/internal/monitor/assignment_diagnosis.go:107-128 | each kind of change event is made exactly under its own condition on the two snapshots |
| `AssignmentDiagnosis.DiffEvents` | monitor-bot/internal/monitor/assignment_diagnosis.go:107-150 | of one kind there is one change event, about the assignment as it is now |
| `AssignmentDiagnosis.FetchedFromListedCourses` | monitor-bot/internal/monitor/assignment_ops.go:162-228 | every snapshot of a poll belongs to a listed active course whose assignment list was fetched |
| `AssignmentDiagnosis.ActiveMeaning` | monitor-bot/internal/monitor/assignment_diagnosis.go:29-42 | which courses are polled: not those that are over by state or end, nor those that say nothing of themselves |
| `AssignmentDiagnosis.EveryListedAssignmentIsFetched` | monitor-bot/internal/monitor/assignment_ops.go:162-228 | every assignment of an active course whose list was fetched has a snapshot, whatever the budgets |
| `AssignmentDiagnosis.HydratedFields` | monitor-bot/internal/monitor/assignment_diagnosis.go:44-105 | a snapshot shows the listed texts, and each text of the detail in its place; the detail is used exactly if the list left the publication time out, the budget lasts and it says anything |
| `AssignmentDiagnosis.BudgetsAreKept` | monitor-bot/internal/monitor/assignment_ops.go:162-228 | over all courses a poll asks for the first thirty details it wants and no more, and for submissions until thirty were answered |
| `AssignmentModel.SnapshotKeysAgree` | monitor-bot/internal/monitor/assignment_issue_ops.go:35-37 | without colons in slugs, snapshot keys are equal exactly for the same assignment |
| `AssignmentModel.IssueKeysAgree` | monitor-bot/internal/monitor/assignment_diagnosis.go:345-347 | without colons in slugs, issue keys are equal exactly for the same type and assignment |
| `AssignmentModel.ColonsCollide` | monitor-bot/internal/security/validate.go:44-44 | a snapshot key is shared with another slug exactly if slug or id has a colon, and with another colon-free slug exactly if the slug has one |
| `AssignmentModel.ColonIssuesCollide` | monitor-bot/internal/monitor/assignment_diagnosis.go:345-347 | the same for the issue keys of every type |
| `AssignmentOps.IssueCountsAreConserved` | monitor-bot/internal/monitor/assignment_issue_lifecycle.go:24-43 | the counted diagnoses of a poll with the baseline set are the issue events kept plus the issues suppressed |
| `AssignmentOps.GroupKeysAgree` | monitor-bot/internal/monitor/assignment_dashboard_format.go:263-265 | two issues share a digest group exactly if they agree in course, type and severity |
| `AssignmentOps.ResolvedExactlyOnEvidence` | monitor-bot/internal/monitor/assignment_issue_lifecycle.go:44-57 | an unresolved issue becomes resolved exactly when its assignment was fetched and, with the baseline set, its type is no longer diagnosed; an issue not fetched is unchanged |
| `AssignmentOps.ReopenedExactlyOnDiagnosis` | monitor-bot/internal/monitor/assignment_issue_lifecycle.go:24-57 | a resolved issue leaves that state in a poll exactly when its type is diagnosed again |
| `AssignmentOps.PollKeepsWellKeyed` | monitor-bot/internal/monitor/assignment_ops.go:251-258 | polls keep every stored issue under its own key |
| `AssignmentOps.CommandsKeepWellKeyed` | monitor-bot/internal/monitor/assignment_issue_ops.go:175-233 | operator commands keep every stored issue under its own key |
| `AssignmentOps.ObservedOnce` | monitor-bot/internal/monitor/assignment_ops.go:209-218 | in a poll of distinct assignments an issue is observed by one event only |
| `AssignmentOps.PollsNotifyOnce` | monitor-bot/internal/monitor/assignment_issue_lifecycle.go:61-121 | over any number of whole polls that observe an issue unchanged, its stored notification count grows by at most one, and only if it was armed |
| `AssignmentOps.ReportedOnceACooldown` | monitor-bot/internal/monitor/assignment_issue_lifecycle.go:10-43 | over any run of polls a change is reported exactly if none with its fingerprint was reported less than the cooldown ago, nor sent so shortly before the run |
| `AssignmentOps.SlugsRoundTrip` | monitor-bot/internal/monitor/assignment_issue_ops.go:268-285 | a command names exactly the event whose suggested command it is, and no other text names one |
| `AssignmentRuns.SeenOnce` | monitor-bot/internal/monitor/assignment_ops.go:209-218 | a poll of distinct assignments has at most one event for each issue key |
| `AssignmentRuns.RunsRefineTheLifecycle` | monitor-bot/internal/monitor/assignment_issue_lifecycle.go:10-132 | over any run of whole polls and commands the stored issue is the run of its own lifecycle steps, and the events kept for it to be sent are as many as that run notifies |
| `AssignmentRuns.AbsentIssuesLoseNothing` | monitor-bot/internal/monitor/assignment_issue_lifecycle.go:61-121 | clearing the acknowledgement of an issue that is not stored loses no notification, because every diagnosis escalates it |
| `AssignmentRuns.RunsNotifyOnce` | monitor-bot/internal/monitor/assignment_ops.go:102-135 | while an issue is observed unchanged, the events kept for it to be sent are at most the one it was armed for and one more for each resolution or acknowledgement between; they are what its notification count grows by |
| `AssignmentRuns.NothingSentWhileSuppressed` | monitor-bot/internal/monitor/assignment_issue_lifecycle.go:98-132 | while an acknowledgement or a silence is active over all observations of a run, no event is kept for the issue to be sent |
| `AssignmentRuns.SilencedOverRuns` | monitor-bot/internal/monitor/assignment_issue_ops.go:175-209 | over a run of whole polls that starts with the command to silence an issue and only observes it, none of its events is kept to be sent and it stays silenced |
| `AssignmentRuns.AcknowledgedOverRuns` | monitor-bot/internal/monitor/assignment_issue_ops.go:175-209 | over a run that starts with an acknowledgement none is kept before its time, and the first one then or later is if it asks for it |
| `AssignmentRuns.NotifiedAgainOnChange` | monitor-bot/internal/monitor/assignment_issue_lifecycle.go:61-121 | an open issue diagnosed before is notified again by its next diagnosis exactly if a shown field of the assignment changed, and never for a stale draft |
| `AssignmentOps.AssignmentMonitor.CollectAssignmentOps` | monitor-bot/internal/monitor/assignment_ops.go:137-240 | issues after a poll, events kept and suppressed, snapshots, count and API status are functions of what was fetched; with the baseline set the count equals the kept issue events plus the suppressed; a failed course list changes no issue |
| `AssignmentOps.AssignmentMonitor.Collect` | monitor-bot/internal/monitor/assignment_ops.go:146-228 | the poll up to the lifecycle: active courses, snapshots, issue count and events of what was fetched within the two budgets of 30 requests |
| `AssignmentOps.AssignmentMonitor.CollectCourse` | monitor-bot/internal/monitor/assignment_ops.go:186-227 | the inner loop hydrates and files each assignment of a course, in order, with the budgets left |
| `AssignmentOps.AssignmentMonitor.Visit` | monitor-bot/internal/monitor/assignment_ops.go:206-226 | one assignment is filed, its counted diagnoses added, and its issue and change events appended if the baseline is set |
| `AssignmentOps.AssignmentMonitor.ApplyLifecycle` | monitor-bot/internal/monitor/assignment_issue_lifecycle.go:10-59 | the event loop and the resolution loop give exactly the states, kept events and suppressed groups of the specification |
| `AssignmentOps.AssignmentMonitor.Persist` | monitor-bot/internal/monitor/assignment_ops.go:242-270 | snapshots and baseline change only after a complete poll, issue states are merged, other events stamped, at most 20 recent events kept, newest first |
| `AssignmentOps.AssignmentMonitor.RefreshAssignmentOps` | monitor-bot/internal/monitor/assignment_ops.go:88-100 | one poll leaves the stored issues, snapshots, send times and baseline of the specification; a change is reported exactly if its fingerprint was not sent less than the cooldown ago |
| `AssignmentOps.AssignmentMonitor.AcknowledgeAssignmentIssue` | monitor-bot/internal/monitor/assignment_issue_ops.go:175-209 | refused exactly for an unknown event slug, an unusable end or a blank reason, changing nothing; otherwise one acknowledgement or silence of the commanded issue, and of no other: silenced for ever, no event notifies; until 1, 6, 24 or 168 hours from now, an event notifies exactly at that time or later, if it asks for it |
| `AssignmentOps.AssignmentMonitor.UnacknowledgeAssignmentIssue` | monitor-bot/internal/monitor/assignment_issue_ops.go:211-233 | refused exactly for an unknown event slug; otherwise the commanded issue is open without an acknowledgement, and no other changes |
| `StateStore.PruningIsIdempotent` | monitor-bot/internal/state/store.go:390-418 | pruning a map that respects its time to live and cap leaves it as it is, and only such |
| `StateStore.TimedMap.Prune` | monitor-bot/internal/state/store.go:390-418 | expired entries go; if more than the cap are left exactly the cap stay, none older than a dropped one |
| `StateStore.TimedMap.DropOldest` | monitor-bot/internal/state/store.go:403-417 | sorting by time and deleting from the old end keeps the newest entries |
| `StateStore.PruneAudits` | monitor-bot/internal/state/store.go:420-448 | audit fingerprints are pruned alike, by 14 days and 2000 entries |
| `StateStore.DefaultsAreIdempotent` | monitor-bot/internal/state/store.go:278-347 | normalising fills in every default and changes nothing that has them all |
| `StateStore.DefaultsMeaning` | monitor-bot/internal/state/store.go:278-368 | normalising brings the first version's dashboard in as the watch of all services exactly if it has one and is of that version or without watches, gives scopes, names and feed settings their defaults, keeps the first twenty of each recent list, and changes nothing else |
| `StateStore.UnwatchSurvivesRestart` | monitor-bot/internal/monitor/dashboard.go:159-188 | a restart brings back no removed watch and loses none, exactly unless the last service watch is removed while the legacy fields are filled: then an all-services watch appears |
| `StateStore.Normalize` | monitor-bot/internal/state/store.go:278-347 | defaults filled in, nil maps made, and every map the data refers to pruned in place, once |
| `StateStore.NormalizeTwice` | monitor-bot/internal/state/store.go:278-347 | at a fixed clock a second normalisation changes nothing, in the data and in every map |
| `StateStore.CloneData` | monitor-bot/internal/state/store.go:450-494 | the copy agrees with the data and every map of it is a fresh object of its own |
| `StateStore.Store.constructor` | monitor-bot/internal/state/store.go:205-228 | loading leaves normalised data, and of every loaded map what pruning leaves |
| `StateStore.RemainsTwice` | monitor-bot/internal/state/store.go:236-243 | two prunings of a map leave what the later one would leave on its own: no live entry that is gone is later than one that is left, and a map that lost a timed one is full |
| `StateStore.Store.Snapshot` | monitor-bot/internal/state/store.go:230-234 | a deep copy of fresh maps; the stored maps lose only what expired, or what the cap took from one that was over it, oldest first and down to the cap |
| `StateStore.Store.Update` | monitor-bot/internal/state/store.go:236-243 | after any change of the data: recent lists of at most 20, maps within time and cap, positive feed settings; nothing is lost but what expired, or what the cap took from a map over it, and no entry it took is later than one it kept |
| `StateStore.Store.MarkSent` | monitor-bot/internal/monitor/alerts.go:183-198 | a change that writes into a stored map: the time of a sent alert enters the map of sent alerts in place, between the two prunings, both of which keep the latest entries; the alert heads the recent list, which keeps the twenty newest |
| `StateStore.LatestEntryRemains` | monitor-bot/internal/monitor/alerts.go:183-198 | an entry written between two prunings that is no earlier than the others leaves the map as one pruning of all of them would |
| `LogFeeds.ExpiredIsOutOfWindow` | monitor-bot/internal/state/store.go:390-399 | a fingerprint recorded with the answer to a query expires only after its row has left every window no longer than the time to live and the polling interval, less a second |
| `LogFeeds.RedeliveryIsPossibleExactly` | monitor-bot/internal/cloudwatch/queries.go:285-288 | with answers no sooner than the polling interval after their query, a recorded row can expire and be returned again exactly for the windows longer than that |
| `LogFeeds.OnlyTheDayWindowRedelivers` | monitor-bot/internal/cloudwatch/logs_client.go:61-77 | of the windows a feed may have, exactly "24h" with a polling interval under a second can return a recorded row after its fingerprint was pruned |
| `LogFeeds.Baseline` | monitor-bot/internal/monitor/log_feeds.go:49-53 | exactly the fingerprints of the first query are known, all from one time |
| `LogFeeds.SelectFresh` | monitor-bot/internal/monitor/log_feeds.go:173-188 | the pass returns the fresh rows of the query and leaves the known map with exactly their fingerprints added |
| `LogFeeds.FreshIsNew` | monitor-bot/internal/monitor/log_feeds.go:178-188 | fresh rows are unknown rows of the query with different fingerprints, at most the limit; below the limit no row of the query is left unknown |
| `LogFeeds.UnsentStaysEligible` | monitor-bot/internal/monitor/log_feeds.go:189-194 | a row that was fresh and whose fingerprint was not stored is fresh again when it is returned again, or waits behind a full message |
| `LogFeeds.FreshIsNotRecorded` | monitor-bot/internal/monitor/log_feeds.go:178-188 | with a window that cannot redeliver, no fresh row was recorded before |
| `LogFeedMonitor.FeedKeysAgree` | monitor-bot/internal/state/store.go:537-539 | two registrations share a key exactly if they are of one service, under any alias, and one mode |
| `LogFeedMonitor.LogFeedService.WatchLogFeed` | monitor-bot/internal/monitor/log_feeds.go:19-71 | accepted exactly for a service name or alias that is connected, a mode in any spelling, a window and channel with a successful query, else nothing changes; the stored feed is the registered one under its canonical key, its fingerprints what pruning leaves of exactly the baseline, no row is sent, and the cap takes effect only for more than 1000 rows |
| `LogFeedMonitor.LogFeedService.RefreshLogFeed` | monitor-bot/internal/monitor/log_feeds.go:161-202 | the message holds exactly the fresh rows of the answer; a failed query changes only the status, a failed send leaves the store and every stored map as they were, a delivered message stores the fingerprints of exactly its rows beside the old ones and records exactly its rows; the cap takes effect only with more than 1000 known; without it, and with a window that cannot redeliver, no recorded row is sent |
| `LogFeedMonitor.LogFeedService.TakeSnapshot` | monitor-bot/internal/state/store.go:230-234 | taking a snapshot keeps every recorded row covered, hands out fresh maps only and never lets the cap take effect |
| `LogFeedMonitor.LogFeedService.RefreshDueLogFeeds` | monitor-bot/internal/monitor/log_feeds.go:137-159 | one round visits only enabled feeds of connected services that were never checked or at least their interval ago, each once and within the query budget, and all of them unless the budget is used up; each visit is exactly what its answer demands; stored fingerprints are those of the copies and of exactly the delivered rows, less what expired; the recorded rows grow by exactly those delivered, other feeds stay as they were, the cap takes effect only through a visit that knows more than 1000, and without it no message repeats a row |
| `LogFeedMonitor.LogFeedService.LogFeedLoop` | monitor-bot/internal/monitor/log_feeds.go:124-135 | every round of the run is such a round, from the state its predecessor left; over all their visits together the recorded rows grow by exactly those delivered, nothing else becomes known, no registration changes, and as long as no visit knows more than 1000 fingerprints no message repeats a row recorded before the run or delivered in it, for windows that cannot redeliver |
| `LogFeedMonitor.LogFeedService.UnwatchLogFeed` | monitor-bot/internal/monitor/log_feeds.go:73-91 | an unknown service is refused without an effect; otherwise the feed of that service and mode and its recorded rows go, every other feed stays covered, and the cap does not take effect |
| `LogFeedRuns.RunsNeverRepeat` | monitor-bot/internal/monitor/log_feeds.go:124-159 | any sequence of rounds, each from the state before, has the properties of runs above |
| `LogFeedRuns.RoundKnowsDelivered` | monitor-bot/internal/monitor/log_feeds.go:178-201 | a round makes no fingerprint known but those of rows it delivered |
| `LogFeedRuns.NothingIsLost` | monitor-bot/internal/monitor/log_feeds.go:178-201 | after any run a row whose fingerprint was neither known before it nor delivered in it is fresh for the next query that returns it, or waits behind a full message |
| `LogFeedRuns.RunGoesOn` | monitor-bot/internal/monitor/log_feeds.go:124-159 | a round after any run keeps the run's growth of recorded rows, its registrations, what became known and that no message repeats a row |
| `LogFeedRuns.NeverSentTwice` | monitor-bot/internal/monitor/log_feeds.go:178-188 | in a run without repeats no row is in two messages of one feed of which the first was delivered |
| `LogFeedRuns.VisitKnowsFew` | monitor-bot/internal/monitor/log_feeds.go:173-188 | a visit knows at most the limit more fingerprints than before, so with that much room the cap stays without effect |
| `LogFeedRuns.RoundVisitsWhatIsDue` | monitor-bot/internal/monitor/log_feeds.go:137-159 | a round visits a stored feed only if it is enabled, its service connected, and it was never checked or at least its interval ago; with fewer visits than the budget it visits every such feed |
| `LogFeedRuns.RoundStoresChecks` | monitor-bot/internal/monitor/log_feeds.go:161-202 | a round leaves service, interval and state of every feed, and of its last check the time of the answer if the query failed or the message was delivered, else what it was |
| `LogFeedRuns.VisitsAreSpaced` | monitor-bot/internal/monitor/log_feeds.go:124-159 | over any run two visits of a feed, the first of which stored its check, are at least its interval apart |
| `LogFeedRuns.VisitedWhenDue` | monitor-bot/internal/monitor/log_feeds.go:124-159 | a feed that was checked is visited again by the first round that begins its interval later, unless that round used all its queries |
| `LogFeedRuns.FirstVisitWhenDue` | monitor-bot/internal/monitor/log_feeds.go:124-159 | a feed not yet checked in a run is visited exactly when its stored check is an interval ago or missing, it is enabled and connected, and queries are left |
| `Alerts.KeyNamesItsService` | monitor-bot/internal/monitor/alerts.go:245-255 | the cooldown key of an alert tells what its service text tells, known service or not, whatever its other parts are |
| `Alerts.CooldownKeysAgree` | monitor-bot/internal/monitor/alerts.go:572-600 | two alerts share a cooldown exactly if they agree, up to case and outer space, in service, log type, severity, code, reason and category |
| `Alerts.LegacyMeaning` | monitor-bot/internal/monitor/alerts.go:629-632 | a key counts as a legacy fingerprint exactly if it starts with the word for production and `:v2:` stands somewhere in it |
| `Alerts.LegacyFingerprintsTell` | monitor-bot/internal/monitor/alerts.go:245-255 | the fingerprints of alerts, under which they were once stored, are recognised as such and tell their service |
| `Alerts.AlertKeepsSpacing` | monitor-bot/internal/monitor/alerts.go:173-212 | sending or suppressing one alert keeps the history spaced, in order, and the stored states in step with it |
| `Alerts.ClearKeepsSpacing` | monitor-bot/internal/monitor/alerts.go:183-198 | resolving keys keeps the history spaced and in step |
| `Alerts.RunKeepsSpacing` | monitor-bot/internal/monitor/alerts.go:69-92 | so does every run of polls whose clock never goes back, from any stored states |
| `Alerts.SendsAreSpaced` | monitor-bot/internal/monitor/alerts.go:69-92 | over any such run, two delivered sends of a key with no resolution of it between are at least the cooldown in force at the second one apart |
| `Alerts.HistoryDecides` | monitor-bot/internal/monitor/alerts.go:69-92 | from any stored states, over any run, what is sent and what is resolved is what the history alone decides: the stored states do nothing but remember it |
| `Alerts.SentExactly` | monitor-bot/internal/monitor/alerts.go:173-181 | in any run an alert that can be delivered is sent exactly when the last entry of its key is none, a resolution, or a send stored a cooldown before; without an entry only a state the run began with that is active and was sent less than a cooldown before holds it back |
| `Alerts.FirstAlertSent` | monitor-bot/internal/monitor/alerts.go:173-181 | a poll sends the first alert of every key that can be delivered, unless the state stored for it is active and was sent less than a cooldown before |
| `Alerts.ResolutionNeedsObservation` | monitor-bot/internal/monitor/alerts.go:214-243 | a key of a known service is cleared only in a poll without an alert for it whose query for that service succeeded |
| `Alerts.ClearedWithoutObservation` | monitor-bot/internal/monitor/alerts.go:214-255 | an alert can be cleared with nothing observed exactly if its service is not a known one, with an input |
| `Alerts.AlertMonitor.PollAlerts` | monitor-bot/internal/monitor/alerts.go:69-92 | one poll leaves exactly the stored states, and makes exactly the sends and resolutions, that the theorems on runs speak of; they are those the history decides from the states before it, under the cooldown stored, configured, or 15 minutes |
| `Alerts.AlertMonitor.SendAll` | monitor-bot/internal/monitor/alerts.go:76-88 | the loop sends exactly the alerts that are due and delivered, in order, and keeps the keys of all |
| `Alerts.AlertMonitor.SendOrSuppress` | monitor-bot/internal/monitor/alerts.go:80-88 | an alert is sent, marked and counted as sent if its key is new, inactive or past the cooldown and delivery succeeds, kept active otherwise; a failed send changes nothing |
| `Alerts.AlertMonitor.SendResolved` | monitor-bot/internal/monitor/alerts.go:214-243 | the loop clears and reports exactly the active keys without an alert whose service was observed and whose message was delivered, legacy keys without a message |
| `Alerts.CollectAlerts` | monitor-bot/internal/monitor/alerts.go:99-134 | the alerts and observed services are those of the connected services queried within the budget |
| `Alerts.QueriesAllItCan` | monitor-bot/internal/monitor/alerts.go:99-134 | every service of the registry that is connected and has a log group is queried, in order, until the budget is used up |
| `OpsLog.DecisionFollowsSeverity` | monitor-bot/internal/opslog/v2.go:258-329 | a row alerts exactly when its severity is HIGH or CRITICAL and mentions exactly when CRITICAL; every alert has a reason |
| `OpsLog.SeverityMeaning` | monitor-bot/internal/opslog/v2.go:123-329 | each severity, and alert and mention, by its own condition on level, code, type and status of the row, whatever order they are tried in |
| `OpsLog.RouteFollowsDecision` | monitor-bot/internal/monitor/alerts.go:334-347 | the alert made of a row goes to the critical channel with a mention exactly when the decision mentions, else to the general one |
| `OpsLog.RouteMeaning` | monitor-bot/internal/monitor/alerts.go:783-794 | any alert goes to the critical channel exactly if its severity, the level of its row or, without a row, the decision says critical |
| `OpsLog.CodesReadAlike` | monitor-bot/internal/opslog/v2.go:189-222 | a valid code is read like another exactly when they are equal or one is the short form of the other |
| `OpsLog.ShortFormsCollide` | monitor-bot/internal/opslog/v2.go:117-121 | every short form reads like the different code that spells out its parts |
| `OpsLog.ValidExactly` | monitor-bot/internal/opslog/v2.go:189-222 | a code is read exactly if it has five digits, the first a known service and the second at most 8 |
| `Grouping.FirstAndLatestAreBounds` | monitor-bot/internal/monitor/dashboard.go:546-553 | first and latest of a group are the least and greatest of its non-zero times |
| `Grouping.SummaryIgnoresOrder` | monitor-bot/internal/monitor/dashboard.go:518-555 | key, count, first and latest of a group are the same for every order of the events |
| `Grouping.BeforeIsStrict` | monitor-bot/internal/monitor/dashboard.go:560-571 | the comparison is a strict order that tells groups of different keys apart |
| `Grouping.GroupingIgnoresOrder` | monitor-bot/internal/monitor/dashboard.go:512-578 | any permutation of the events gives the same groups in the same order, under every limit |
| `Grouping.LimitKeepsTheTop` | monitor-bot/internal/monitor/dashboard.go:572-577 | every group the limit keeps comes before every group it drops |
| `Grouping.LatestFirst` | monitor-bot/internal/monitor/dashboard.go:560-577 | what is shown comes latest first, without a time last, equal times by key; an event whose group is not shown is no later than anything shown, and the list is then full |
| `Grouping.TextLessMeaning` | monitor-bot/internal/monitor/dashboard.go:560-571 | keys are compared as in a dictionary |
| `Text.TrimmedJoinsAgree` | monitor-bot/internal/monitor/dashboard.go:599-599 | keys joined and trimmed by NUL are equal exactly if their parts are, apart from empty ones at either end |
| `Grouping.GroupingConservesEvents` | monitor-bot/internal/monitor/dashboard.go:518-535 | before the limit the counts sum to the events with a non-empty key |
| `AlertGroups.AddTraceIds` | monitor-bot/internal/monitor/dashboard.go:607-626 | the shown ids are the first three distinct valid ones; the total is never below the number of distinct ids and equals it up to three |
| `AlertGroups.IncidentKeysAgree` | monitor-bot/internal/monitor/dashboard.go:580-584 | alerts with incident keys are grouped by those alone |
| `AlertGroups.KeysAgree` | monitor-bot/internal/monitor/dashboard.go:580-599 | alerts with a service and without an incident key are one group exactly if they agree, up to case and outer space, in service, severity, type and summary |
| `AlertGroups.SilentKeysAgree` | monitor-bot/internal/monitor/dashboard.go:580-599 | alerts without any of these texts are grouped by their fingerprints |
| `AlertGroups.TextsMove` | monitor-bot/internal/monitor/dashboard.go:599-599 | an alert known by its service alone and one known by its severity alone are one group if the texts agree |
| `AlertGroups.AddEvent` | monitor-bot/internal/monitor/dashboard.go:518-555 | one event joins or opens its group: keys stay in order of first appearance and every group describes the events so far |
| `AlertGroups.GroupRecentServiceAlerts` | monitor-bot/internal/monitor/dashboard.go:512-578 | the result is the limited sorted list of group summaries, latest first, and no event of a group left out is later than one shown; each group has the texts of its first event, else the first that are not empty, and the trace ids of its events |
| `AssignmentEventGroups.AddAssignmentId` | monitor-bot/internal/monitor/assignment_dashboard_format.go:165-176 | the ids of a group are its distinct valid ones in order |
| `AssignmentEventGroups.KeysAgree` | monitor-bot/internal/monitor/assignment_dashboard_format.go:150-164 | events with a type are one group exactly if they agree, up to case and outer space, in type, course, summary and reason |
| `AssignmentEventGroups.RanksAgree` | monitor-bot/internal/monitor/assignment_diagnosis.go:14-27 | the texts of the severities rank as the severities of issues do |
| `AssignmentEventGroups.AddEvent` | monitor-bot/internal/monitor/assignment_dashboard_format.go:78-124 | the same for one assignment event, whose severity replaces that of its group only if it outranks it |
| `AssignmentEventGroups.GroupRecentAssignmentEvents` | monitor-bot/internal/monitor/assignment_dashboard_format.go:72-148 | the same for assignment events; the severity shown is that of an event none of the group outranks, the ids exactly the valid ones of its events |
| `AccessPolicy.AnyRoleMeaning` | src/main/kotlin/com/aandi/gateway/security/UserRole.kt:11-24 | a requirement of roles admits exactly the bearers of at least its lowest role; a bearer without a known role counts as a user |
| `AccessPolicy.ClosedCatalogsAreTotalAndMonotone` | src/main/kotlin/com/aandi/gateway/security/GlobalAccessPolicyCatalog.kt:274-284 | a catalog that ends in its any-exchange rule decides every request; what a role may do every higher role may |
| `AccessPolicy.UnnamedNeedsAuthentication` | src/main/kotlin/com/aandi/gateway/security/GlobalAccessPolicyCatalog.kt:279-284 | in an accepted catalog what no rule names is open to exactly the bearers of a token |
| `AccessPolicy.UniqueMeaning` | src/main/kotlin/com/aandi/gateway/security/GlobalAccessPolicyCatalog.kt:277-277 | the ids of a catalog are unique exactly if there are as many different ones as rules |
| `AccessPolicy.GuardedDecision` | src/main/kotlin/com/aandi/gateway/security/GlobalAccessPolicyCatalog.kt:47-142 | with rules in front and between that stay out of a pattern, one early rule decides where it applies and a guard everywhere else |
| `AccessPolicy.CoveredRuleCanGo` | src/main/kotlin/com/aandi/gateway/security/GlobalAccessPolicyCatalog.kt:117-141 | deleting a rule changes no decision if the rules around it demand the same wherever it applies |
| `EndpointAllowlist.NoAllowRuleReadsAdminDocuments` | src/main/kotlin/com/aandi/gateway/security/GatewayRequestPolicyFilter.kt:55-208 | no allow rule admits a GET below "/v2/admin/v3/api-docs" |
| `EndpointAllowlist.CopyIsPostOnly` | src/main/kotlin/com/aandi/gateway/security/GatewayRequestPolicyFilter.kt:210-226 | copying assignments is allowed as a POST only: the denials win over the allow rule that also matches its path |
| `AccessCatalog.AdminServiceAny` | src/main/kotlin/com/aandi/gateway/security/GlobalAccessPolicyCatalog.kt:119-127 | asks for an admin on everything below "/v1/admin", "/v2/admin" and "/v2/auth/admin" |
| `AccessCatalog.AdminPostCoursesAny` | src/main/kotlin/com/aandi/gateway/security/GlobalAccessPolicyCatalog.kt:128-134 | asks for an admin on everything below "/v2/post/admin/courses" |
| `AccessCatalog.AdminOnlineJudgeAny` | src/main/kotlin/com/aandi/gateway/security/GlobalAccessPolicyCatalog.kt:142-142 | asks for an admin on everything below "/v2/online-judge/admin" |
| `AdminAreas.DocumentRuleReach` | src/main/kotlin/com/aandi/gateway/security/GlobalAccessPolicyCatalog.kt:81-87 | the open rule for service documents reaches into an admin area exactly for GET below "/v2/admin/v3/api-docs" |
| `AdminAreas.AdminAreaDecision` | src/main/kotlin/com/aandi/gateway/security/GlobalAccessPolicyCatalog.kt:47-142 | below the five admin areas the access rules ask for an admin, but for that exception |
| `AdminAreas.AnonymousInAdminAreas` | src/main/kotlin/com/aandi/gateway/security/GlobalAccessPolicyCatalog.kt:81-87 | an anonymous caller reaches an admin area exactly through that exception |
| `AdminAreas.AllowedAdminRequestsNeedAdmin` | src/main/kotlin/com/aandi/gateway/security/GatewayRequestPolicyFilter.kt:55-226 | whatever the lists let through below an admin area needs an admin, and is permitted to admins only |
| `AdminAreas.GlobalRulesAreClosed` | src/main/kotlin/com/aandi/gateway/security/GlobalAccessPolicyCatalog.kt:271-271 | the catalog ends in its any-exchange rule |
| `CatalogChecks.GlobalRulesAreAccepted` | src/main/kotlin/com/aandi/gateway/security/GlobalAccessPolicyCatalog.kt:274-284 | this catalog of 38 rules passes the checks on unique ids and on its one fallback, which is last and asks for authentication |
| `AccessReach.WhoMayChange` | src/main/kotlin/com/aandi/gateway/security/GlobalAccessPolicyCatalog.kt:47-272 | exactly who may make a request that is neither GET nor OPTIONS: without a token only session, activation and cache invalidation posts; any token what is neither below the admin areas nor writes content; an organizer what is not below the admin areas; an admin everything |
| `AccessReach.WhoMayRead` | src/main/kotlin/com/aandi/gateway/security/GlobalAccessPolicyCatalog.kt:47-272 | exactly who may read what: without a token the open documents, liveness and published posts; any token what is neither below the admin areas nor draft, own or scheduled content or the lookup of users; organizers that as well; below the admin areas only admins, but for the open documents |
| `AdminAreas.GlobalDecisionsAreTotalAndMonotone` | src/main/kotlin/com/aandi/gateway/security/GlobalAccessPolicyCatalog.kt:47-272 | this catalog decides every method and path, and what a role may do every higher role may |
| `AdminAreas.DeletionChangesNothing` | src/main/kotlin/com/aandi/gateway/security/GlobalAccessPolicyCatalog.kt:117-141 | deleting `admin-v1-courses-get` or `admin-v2-courses-any` changes no decision for any method and path |
| `SecurityChain.EntriesDecideAsRules` | src/main/kotlin/com/aandi/gateway/security/SecurityConfig.kt:77-97 | the registered entries permit exactly what the rules permit |
| `SecurityChain.AuthorizeExchangeSpec.Register` | src/main/kotlin/com/aandi/gateway/security/SecurityConfig.kt:75-98 | the loop over an accepted catalog never registers a matcher after the one for any exchange, and builds a chain that permits exactly what the catalog permits |
| `RequestPolicy.ConfigureExchanges` | src/main/kotlin/com/aandi/gateway/security/SecurityConfig.kt:75-98 | the chain built from this catalog has an entry for each rule, none is refused, and it permits exactly what the catalog permits |
| `RequestPolicy.ForwardedExactly` | src/main/kotlin/com/aandi/gateway/security/GatewayRequestPolicyFilter.kt:230-304 | a request is forwarded exactly if it is a preflight or a health check, or passes every check that is enforced; else the first check it fails names the rejection; only uploads to the profile, to content lists and items and to their images need no JSON |
| `RequestPolicy.AdminAreasAreForAdmins` | src/main/kotlin/com/aandi/gateway/security/GatewayRequestPolicyFilter.kt:230-304 | filter, chain and catalog together: with the allow list enforced, a forwarded request below an admin area is permitted by the chain exactly to admins, or is a preflight request |
| `RequestPolicy.AdminAreasWithoutTheAllowlist` | src/main/kotlin/com/aandi/gateway/security/GatewayRequestPolicyFilter.kt:272-297 | without the allow list the same holds but for the documents of a service "admin" |
| `TokenCache.KeysNameTheirSubject` | src/main/kotlin/com/aandi/gateway/cache/TokenContextCacheRepository.kt:42-48 | equal keys have the same subject, colons or not, unless two principal names have the same digest |
| `TokenCache.NamelessTokens` | src/main/kotlin/com/aandi/gateway/cache/TokenContextCacheService.kt:74-80 | a token without a subject is cached as one of the subject "unknown", and of no other |
| `TokenCache.IndexKeysAreApart` | src/main/kotlin/com/aandi/gateway/cache/TokenContextCacheRepository.kt:24-57 | no payload key is an index key |
| `TokenCache.StoringKeepsConsistency` | src/main/kotlin/com/aandi/gateway/cache/TokenContextCacheService.kt:39-47 | storing after a miss keeps every live payload in the live index of its subject, which lasts as long, exactly when it was safe: no command failed, or harmlessly, and the index did not expire between its two commands |
| `TokenCache.AtOnceIsSafe` | src/main/kotlin/com/aandi/gateway/cache/TokenContextCacheRepository.kt:50-53 | with no time between the commands and no failure storing is always safe |
| `TokenCache.AtOnceRunsAreSafe` | src/main/kotlin/com/aandi/gateway/cache/TokenContextCacheService.kt:30-55 | every run without failing or delayed commands is safe, so keeps the index and the payloads in agreement, if principals of different subjects have different digests, whatever is evicted between |
| `TokenCache.IndexMayExpireUnderfoot` | src/main/kotlin/com/aandi/gateway/cache/TokenContextCacheRepository.kt:50-53 | an input on which the index expires before it is renewed and the new payload survives an eviction |
| `TokenCache.EvictionKeepsConsistency` | src/main/kotlin/com/aandi/gateway/cache/TokenContextCacheRepository.kt:59-74 | evicting a subject keeps payloads and indexes in agreement |
| `TokenCache.EvictionIsComplete` | src/main/kotlin/com/aandi/gateway/cache/TokenContextCacheRepository.kt:59-74 | after an eviction no payload of the subject is alive and every live payload of another is untouched |
| `TokenCache.MissAfterEviction` | src/main/kotlin/com/aandi/gateway/cache/TokenContextCacheService.kt:25-37 | after its subject was evicted an authentication misses; a principal may only hit a payload of another name with the same digest |
| `TokenCache.RunsKeepConsistency` | src/main/kotlin/com/aandi/gateway/cache/TokenContextCacheService.kt:25-57 | over any run of resolves and evictions in order of time whose storing is safe, every live payload stays in the live index of its subject |
| `TokenCache.EvictedUntilResolved` | src/main/kotlin/com/aandi/gateway/cache/TokenContextCacheRepository.kt:59-74 | in any such run nothing of an evicted subject is cached until that subject is resolved again, whatever else happens |
| `TokenCache.ServedUntilExpiry` | src/main/kotlin/com/aandi/gateway/cache/TokenContextCacheService.kt:34-47 | over any safe run a payload stored after a miss is the answer to every resolve under its key, as a hit, until it expires or its subject is evicted |
| `TokenCache.EvictedIsNotServed` | src/main/kotlin/com/aandi/gateway/cache/TokenContextCacheService.kt:25-37 | from the eviction of a subject until it is resolved again none of its authentications hits, but a principal whose name has the digest of another |
| `TokenCache.TokenContextCache.Resolve` | src/main/kotlin/com/aandi/gateway/cache/TokenContextCacheService.kt:25-57 | from any store: a hit returns the cached payload and changes nothing, a miss returns the built one and stores it, and whichever command fails a resolution is returned; keys stay filed under their subjects, and agreement of payloads and indexes survives exactly when storing was safe |
| `TokenCache.TokenContextCache.AddSubjectIndex` | src/main/kotlin/com/aandi/gateway/cache/TokenContextCacheRepository.kt:50-53 | the key is added at one time and the index renewed at a later one, if it is still there |
| `TokenCache.EvictionFilesWell` | src/main/kotlin/com/aandi/gateway/cache/TokenContextCacheRepository.kt:59-74 | even after an earlier harmful failure an eviction leaves every payload of other subjects |
| `TokenCache.TokenContextCache.EvictBySubjectIndex` | src/main/kotlin/com/aandi/gateway/cache/TokenContextCacheRepository.kt:59-74 | from any store: deletes the index and its members and counts those that were there, leaves other subjects' payloads, and is complete if payloads and indexes agreed; a failed read deletes nothing |
| `Masking.MaskedIsClean` | src/main/kotlin/com/aandi/gateway/logging/MaskingUtil.kt:32-60 | at any depth of any masked tree, values under full-mask keys are the mask and values under partial-mask keys show at most three characters |
| `Masking.CleanIsFixed` | src/main/kotlin/com/aandi/gateway/logging/MaskingUtil.kt:32-60 | masking changes nothing of a tree that is clean |
| `Masking.MaskingIsIdempotent` | src/main/kotlin/com/aandi/gateway/logging/MaskingUtil.kt:32-60 | masking any tree twice is masking it once |
| `Masking.AlikeMasksTheSame` | src/main/kotlin/com/aandi/gateway/logging/MaskingUtil.kt:44-51 | trees that differ only in values under full-mask keys, outside partial-mask keys, mask to the same result |
| `Masking.PartialMaskVeils` | src/main/kotlin/com/aandi/gateway/logging/MaskingUtil.kt:53-60 | a partial mask is nothing or a text with stars after its first three characters |
| `Masking.EntryShows` | src/main/kotlin/com/aandi/gateway/logging/MaskingUtil.kt:7-60 | what an entry shows, by its key in any case and spacing: the mask for the nine secrets, three characters of a login or user name, any other text as it is |
| `Buttons.AcceptedTraces` | monitor-bot/internal/discord/components.go:67-77 | a trace button is printed exactly for valid ids of at most 87 characters |
| `Buttons.TraceRoundTrip` | monitor-bot/internal/discord/components.go:67-104 | a printed trace button parses back to its id exactly when the id has no colon, and is refused otherwise |
| `Buttons.ParsedTraceReprints` | monitor-bot/internal/discord/components.go:100-104 | whatever parses as a trace button names an id that prints, and prints to the same action |
| `Buttons.ServiceErrorsRoundTrip` | monitor-bot/internal/discord/components.go:79-131 | an errors button is printed exactly for known services but the online judge, and parses to the canonical service, errors, 30m and 10 |
| `Buttons.SignedNumbers` | monitor-bot/internal/discord/components.go:121-124 | a number that fits is read with the sign before it |
| `Buttons.ParsedLogsAreSafe` | monitor-bot/internal/discord/components.go:105-134 | whatever parses as a logs button asks for the errors of a connected service, in a known window, and for five, ten or twenty of them |

## Left out

- Transport and foreign calls: Discord, CloudWatch, the report service, HTTP, Redis, signatures and JWT decoding are arbitrary answers, times or function values here.
- Message texts, dashboards, help, query strings, CORS and Swagger code, Python metrics and k6 scripts: output without a deep property.
- Interleavings: a refresh, a poll, an operator command, a resolve and an eviction each run to completion; within a resolve only the times between its commands are modelled.
- One reading of the clock for each normalisation, poll and command step where the code reads it several times in a row.
- File writing, atomic rename and JSON of the state file; of reading it back only that an empty watch map is omitted.
- Reading the role claim of a token: the caller's role, or none that is known, is an input.
- Switching alert polling off, and polling without any channel: both only return early.
- Parsing of times, regular expressions for JSON fields and host literals: parsed values are inputs. Case folding is ASCII only and white space the usual characters.
- Int overflow of Go counters such as notification counts, and UTF-16 lengths in the partial mask: characters are counted.
- StateStore.PruneAudits: the audit fingerprints are pruned as their own map object, not as a field of the stored data, because they share no code with the other fields.
- StateStore.Store.Update: the change is a function of the data; of the changes that write into a stored map in place only that of a sent alert is modelled (`StateStore.Store.MarkSent`). Assignment and alert maps of the stored data are not fields of this data model; `AssignmentOps` and `Alerts` keep them as their own fields.
- The recent alert list that alert polls extend, including the suppressed evidence, and the recent alert texts.
- The counters of planned, published and delayed assignments, average scores, and summary and reason texts of issue events.
- Registering and refreshing dashboard watches: only what removing one leaves for the next restart is modelled.
- AlertGroups.AddTraceIds: the total may count an id of a later event again once three are shown, as the code forgets it; only the bounds are claimed.
- CatalogChecks.GlobalRulesAreAccepted: of the start-up checks of a catalog the kebab-case of ids and the uniqueness of method and path pairs are not modelled, as no decision depends on them.
- The query's time range is in whole seconds at both ends; rows of the end second are admitted, and the exact conditions hold as well if they are not.
- TokenCache.TokenContextCache.Resolve: for principals whose names have the same digest only the effect on the store is stated; that keys stay filed under their subjects needs a key written for one subject.
- LogFeedMonitor.LogFeedService.RefreshDueLogFeeds: the snapshot and the check of what is due share one reading of the clock.
- Alerts.KeyNamesItsService: service texts with a NUL character, the separator of the key, are not covered.
- SplitN of a legacy alert key is modelled by splitting at every colon, which agrees on the two parts used.
