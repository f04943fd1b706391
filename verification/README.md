# Verified model of the gateway's shared state

The gateway is one process that forwards requests to Claude, Codex and Grok accounts. Most of it is
plumbing; what can go wrong is the state it shares between handlers and keeps in its database. This
project models that state and proves what the code promises about it. `dafny verify dfyconfig.toml`
checks everything.

How the parts are modelled:

* **Protocols under interference** (token refresh, concurrency slots, the two login flows) are state
  machines: `Step(state, event)` is `None` when an event is not enabled, a run is a sequence of enabled
  events (`Runs.Exec`), and the theorems speak about every state any run reaches. Each protocol also has a
  class whose methods are the handlers' code, one method per atomic section. Between the sections an
  arbitrary list of other threads' events gets in (`Runs.Interleave`), and every method is proved to be a
  run of the machine, so the theorems hold of the code as written.
* **Sequential code** (rate windows, stream capture, request-log queries, placeholders, migration) is a
  class or a method proved against a specification function, and lemmas about that function.

| files | what they hold |
|---|---|
| Prelude, Runs | option and result types; runs of a state machine and interference |
| Credentials, Refresh, RefreshDue, RefreshGateway | what a token response does to stored credentials; the refresh protocol; when it refreshes; its code |
| Limiter, LimiterTable | channel generations and their slots; the lock-free code over the limiter map |
| RateWindow | the fixed-window counter |
| FlowTable, DeviceFlow, DeviceClaims, DeviceLogins, PkceFlow, PkceClaims, PkceLogins | the map of pending logins and its HTTP clients; the Grok device flow; the PKCE flow; whose marks and claims stand; their handlers |
| TokenUsage, SseParser, Capture | merging usage records; the line parser; the capture buffers and the report |
| LogTime, Aggregation, UsageLogs, UsageQueries, RequestLogs | started_at as text; GROUP BY; day tables; the breakdowns; the repository |
| Migration, MigrationRestart, MigrationEffects, MigrationColumns, MigrationRun | the statements of `Migrate`; stopping and rerunning; API keys and timeouts; the values of all other columns; its code |
| Rebind | placeholders and the WHERE clause of the request-log list |

What the proofs found out about the code:

* A refresh whose row update fails leaves the replaced refresh token in the row, and the next refresh sends
  it again (`FailedStoreResendsRetiredToken`). Nothing keeps two accounts from being created with the same
  tokens; the second then sends what the first has had replaced, and one access token is refreshed twice
  (`TwoAccountsShareTokens`). With fresh answers a retired token is sent exactly when the account's last
  accepted replacement was not stored or another account had the same token replaced (`SendsRetiredTokenIff`).
* A Codex refresh rebuilds the credentials and drops the API key, the team id and, when the answer brings no
  new one, the ID token (`RefreshLosesNothingIff`, `CodexRefreshLosesKey`).
* A rejected rate-limit call does not mean exactly `limit` admissions in the last window: admissions late in
  the previous window count too (`RejectionAfterThreeInTen`, exact condition in `RejectionCountsExactlyIff`).
* For a response longer than the tail buffer the reported total can be one the tail derives by itself instead
  of the streamed one (`TailDerivesAnotherTotal`, exact condition in `LongStreamReport`).
* `started_at` is compared as text without trailing zeros, so a request in the first second after midnight
  can be left out of its own day and counted for the day before (`FirstSecondCountsForTheDayBefore`, exact
  condition in `InRangeIff`); text and time order agree exactly where `TextLessIff` says. Adjacent ranges still
  count every request once.
* A rebuild of `api_keys` drops `user_id`; a key keeps its user exactly when no rebuild runs (`KeysSurvive`,
  `RebuildLosesUser`). That takes a database which has `account_id` and `user_id` side by side before versions
  5 and 10 are both recorded, and `Migrate` itself never makes one (`NeverMixed`).
* Accounts copied beside existing subscriptions keep their seconds; their milliseconds are never converted
  (`CopiedTimeoutsAreNotConverted`). `Migrate` fails exactly when `api_keys` has neither identity column
  before version 10 (`Database.Migrate`), given the columns its copies name.
* Between clearing a failed PKCE claim and removing its flow another exchange can claim the flow and lose it
  while it runs (`ClaimedFlowRemoved`); its account is still created at most once.

## Model

| member | source | states |
|---|---|---|
| Credentials.RefreshLosesNothingIff | internal/server/codex_oauth.go:86-101 | a refresh keeps every stored field it does not renew, except that a Codex refresh does so only for credentials without API key and team id and with the ID token renewed or absent: if and only if |
| Credentials.CodexRefreshLosesKey | internal/server/codex_oauth.go:86-101 | an account with API key, team id and ID token loses all three when the answer brings an access token only |
| Credentials.RefreshedTokens | internal/server/claude_oauth.go:114-123 | for each provider the new access token is the answer's, and the refresh token is the answer's or, if it has none, the stored one |
| Credentials.CodexIdentity | internal/server/codex_oauth.go:86-152 | account, user, organization and email of a refreshed Codex account: the id token's claims come first, then the access token's if the id token names no account, then what was stored |
| Credentials.OthersKeepIdentity | internal/server/grok_oauth.go:344-357 | a refreshed Claude or Grok account keeps who it is, and keeps type, scope and ID token where the answer leaves them out |
| Credentials.ApplyCodexClaims | internal/server/codex_oauth.go:134-152 | claims fill in only fields that are still empty; fields already set are never changed |
| Credentials.OverwriteInPlace | internal/server/grok_oauth.go:344-357 | overwriting the stored fields one by one gives the refreshed credentials of Claude and Grok |
| Credentials.RebuildFromCodexToken | internal/server/codex_oauth.go:121-132 | building new credentials and filling them up from the old ones gives the refreshed credentials of Codex |
| Refresh.EveryRunKeepsInv | internal/server/claude_oauth.go:69-128 | in every reachable state of every interleaving with deletions mutual exclusion holds whatever the provider answers, and as long as answers are fresh the invariants of tokens and of their owners |
| Refresh.OneRequestInFlight | internal/server/claude_oauth.go:77-108 | at most one refresh request per account is in flight, whatever the provider answers, even when a held mutex is dropped and another made for the same id |
| Refresh.RetiredTokensStayUnsent | internal/server/claude_oauth.go:99-127 | section 6 of RFC 6749: with fresh answers a replaced refresh token goes out again only for an account with a failed row update, or because rows were created with the same token and another account had it replaced; without both never |
| Refresh.SendsRetiredTokenIff | internal/server/codex_oauth.go:51-106 | with fresh answers a thread about to send holds a retired token if and only if the account's last accepted replacement could not be stored or another account had the same token replaced; for a token only one row was created with, if and only if the former |
| Refresh.EachTokenRefreshedOnce | internal/server/claude_oauth.go:82-127 | with fresh answers no access token is replaced twice by stored refreshes of the same account |
| Refresh.ForcedCallersRefreshOnce | internal/server/grok_oauth.go:305-365 | with fresh answers all forced callers that started from the same access token cause at most one stored refresh of each account, and at most one in total unless two rows were created with that token |
| Refresh.ForcedCallersGetAnotherToken | internal/server/claude_oauth.go:90-92 | with fresh answers a forced caller that returns without error holds another access token than the one it started from |
| Refresh.FailedStoreResendsRetiredToken | internal/server/claude_oauth.go:124-127 | for any tokens a run exists in which a failed row update makes the next refresh send a retired token, with fresh answers and no token shared |
| Refresh.TwoAccountsShareTokens | internal/repository/repository.go:247-271 | for any tokens a run without a failure exists in which two accounts created with the same ones send a retired token and refresh one access token twice |
| RefreshDue.OnlyDueTokensAreRefreshed | internal/server/claude_oauth.go:74-95 | over every run a request is out or about to leave only for a forced call whose row still has the caller's token, or for a token with an expiry of which no more than ten minutes (one for Grok) were left at both looks |
| RefreshDue.NewMutexIsFree | internal/server/claude_oauth.go:77-80 | the mutex an account without one would get is held by nobody |
| RefreshDue.ReturnedHoldsNothing | internal/server/claude_oauth.go:79-80 | a call that is over, however it ended, holds no mutex |
| RefreshGateway.Gateway.CredentialsForRequest | internal/server/claude_oauth.go:69-128 | the whole call, with any interference at each point and any answer, is a run of the protocol with at most one request; an unforced call with no expiry, or with more than ten minutes (one for Grok) left, returns the caller's credentials, sends nothing and changes no row or mutex; any other call with nobody interfering gets through if and only if the mutex is free, and then its result, its number of requests and the rows afterwards are those of `LockedOutcome`: a due row with a refresh token is refreshed by exactly one request and comes to hold the answer's tokens and expiry; with fresh answers a forced success differs from the starting token |
| RefreshGateway.Gateway.Refresh | internal/server/claude_oauth.go:96-128 | from a row that is due on, with nobody interfering: nothing is sent without a client, one request otherwise, and only an accepted answer that is stored changes the row |
| RefreshGateway.Gateway.LoadOrStoreMutex | internal/server/claude_oauth.go:77-80 | takes the account's installed mutex or installs a new one |
| RefreshGateway.Gateway.ReadAgain | internal/server/claude_oauth.go:82-97 | the second look at the row under the mutex: missing, no longer the caller's token, enough time left (more than ten minutes, one for Grok, or no expiry), without a refresh token, or to be refreshed; each exactly in its case |
| RefreshGateway.Gateway.FailToRead | internal/server/claude_oauth.go:82-89 | a database error on that look ends the call with the mutex given back |
| RefreshGateway.Gateway.FailToBuildClient | internal/server/claude_oauth.go:99-102 | without an HTTP client nothing is sent |
| RefreshGateway.Gateway.SendRequest | internal/server/claude_oauth.go:103-108 | the token request leaves with the row as read under the mutex |
| RefreshGateway.Gateway.ReceiveAnswer | internal/server/claude_oauth.go:109-123 | any answer with an access token becomes the next row's credentials, and retires the sent token if it is replaced |
| RefreshGateway.Gateway.StoreRow | internal/server/claude_oauth.go:124-127 | stores the next row, or reports the failure; a row deleted meanwhile is not brought back |
| RefreshGateway.Gateway.DeleteSubscription | internal/server/admin.go:215-226 | deletion removes the row before the mutex with anything in between; it is a run of the protocol and the row stays gone |
| RefreshGateway.Gateway.ForgetRuntime | internal/server/server.go:256-261 | drops the mutex from the map whether or not it is held |
| Limiter.EveryRunKeepsInv | internal/server/server.go:210-254 | the invariant of channel generations, entries and holders holds in every interleaving of acquire, timeout, cancel, release, limit change and reset |
| Limiter.ChannelsCountHolders | internal/server/server.go:215-229 | a generation's length equals its outstanding holders and is at most its capacity |
| Limiter.ReleaseReturnsOwnSlot | internal/server/server.go:218-227 | a release never blocks, takes one slot from the holder's own generation and changes nothing else |
| Limiter.FirstSendTakesFreeSlot | internal/server/server.go:215-222 | in every reachable state the non-blocking send ends in holding a slot if and only if fewer are held than the chosen channel has; else the thread waits if it may and is refused if not |
| Limiter.QueuedThreadTakesFreeSlot | internal/server/server.go:225-232 | a queued thread can take a slot if and only if one is free |
| Limiter.SwapSucceedsIffUnchanged | internal/server/server.go:245-248 | CompareAndSwap succeeds if and only if no other call or reset wrote the entry since it was loaded |
| Limiter.ChosenChannelIsInstalled | internal/server/server.go:235-250 | the returned channel has the requested limit and is the account's installed entry at that step |
| Limiter.InFlightWithinUndrainedLimits | internal/server/server.go:210-254 | requests in flight never exceed the summed limits of the generations that still have holders |
| Limiter.InFlightWithinLimit | internal/server/server.go:210-233 | without reset and with a single limit asked for, requests in flight never exceed that limit |
| LimiterTable.Table.LimiterChannel | internal/server/server.go:235-250 | the retry loop ends with a channel of the requested limit, after no more retries than the entry was changed by others |
| LimiterTable.Table.LoadOrStore | internal/server/server.go:237-240 | loads the entry or installs a new generation |
| LimiterTable.Table.CompareAndSwap | internal/server/server.go:245-248 | replaces the loaded entry by a new generation unless it was changed |
| LimiterTable.Table.Acquire | internal/server/server.go:210-233 | the whole acquire, non-blocking try and timed wait included, is a run of the machine, with others acting at every point in between; its first send gets a slot if and only if fewer are held than the chosen channel has, which decides a call without waiting time; with nobody interfering such a call is refused if and only if the account has a channel of the requested limit whose slots are all held; a slot is of the account's channel of the requested limit (zero or less asks for 1) |
| LimiterTable.Table.ReleaseSlot | internal/server/server.go:218 | the release closure returns the slot to the channel it was taken from |
| LimiterTable.Table.ResetAccount | internal/server/server.go:252-254 | a reset removes the entry and leaves all channels and holders as they are |
| RateWindow.RateLimiter.AllowRate | internal/server/server.go:263-281 | decides by the key's window and changes that key's entry only; a limit of zero or less always allows |
| RateWindow.AtMostOneWindowMore | internal/server/server.go:263-281 | with non-decreasing times any half-open interval of k windows contains at most (k+1) times the limit minus one admissions |
| RateWindow.RejectedMeansWindowFull | internal/server/server.go:271-277 | at a rejection the current window, begun less than one window ago, holds exactly the limit of admissions |
| RateWindow.RejectionCountsExactlyIff | internal/server/server.go:271-277 | after a rejection the last `limit` admissions are the current window's; the last window holds exactly the limit of admissions if and only if the admission before those, if there is one, is at least one window old |
| RateWindow.RejectionAfterThreeInTen | internal/server/server.go:271-277 | limit 2, window 10, calls at 0, 9, 10, 11, 12: the rejection at 12 follows three admissions within the last ten |
| RateWindow.KeysAreIndependent | internal/server/server.go:270-279 | a key's counter depends on that key's calls alone, however keys, limits and windows are interleaved |
| RateWindow.ConstantKeyPlays | internal/server/server.go:263-281 | a key whose calls all bring one limit and one window is decided as if it were alone, so the window bounds hold of it among any other calls |
| RateWindow.Serve | internal/server/server.go:263-281 | any sequence of calls, each with its own limit and window: each decision depends only on the earlier calls with the same key |
| FlowTable.ClientAccountedFor | internal/server/grok_oauth.go:417-434 | a login's HTTP client was closed at most once, and is unclosed exactly while one thread holds it or one flow owns it |
| FlowTable.DropKeepsInv | internal/server/server.go:323-334 | deleting flows and closing their clients keeps capacity and the account of every client |
| FlowTable.CleanupLocked | internal/server/grok_oauth.go:417-424 | removes exactly the expired flows, in whatever order the map is walked, and closes each one's client once |
| FlowTable.DropOneMore | internal/server/pkce_oauth.go:273-280 | dropping one more flow is one deletion and one close, whatever was dropped before |
| DeviceFlow.InvStep | internal/server/grok_oauth.go:160-299 | every enabled event keeps the device flow's invariant |
| DeviceFlow.OneAccountPerFlow | internal/server/grok_oauth.go:254-299 | over any interleaving each device login has at most one successful CreateSubscription, with a token stored for that flow |
| DeviceFlow.StoredWhilePending | internal/server/grok_oauth.go:206-214 | a token is stored only in a flow that is in the map at that moment |
| DeviceFlow.OneRequestInFlight | internal/server/grok_oauth.go:185-211 | section 3.5 of RFC 8628: at most one token request per flow is outstanding |
| DeviceFlow.RequestsSpaced | internal/server/grok_oauth.go:185-196 | section 3.5 of RFC 8628: two requests for a flow are stamped at least the earlier one's interval apart, which is between 1 and 30 seconds |
| DeviceFlow.IntervalStep | internal/server/grok_oauth.go:232-241 | the interval stays within 1 to 30 seconds, never gets shorter, changes only on slow_down and then by five seconds up to thirty |
| DeviceFlow.StartInterval | internal/server/grok_oauth.go:119-125 | whatever number the provider sends, wrapped around at 64 bits, a flow starts with an interval between 1 and 30 seconds |
| DeviceFlow.IntervalUsed | internal/server/grok_oauth.go:119-125 | an interval of 1 to 30 seconds is used as it is, less becomes 5 and more becomes 30 seconds |
| DeviceFlow.GoneForGood | internal/server/grok_oauth.go:417-434 | a flow removed, expired or shut down never comes back, and no further token request is sent for it |
| DeviceFlow.FailedCreateIsRetried | internal/server/grok_oauth.go:283-291 | after a failed CreateSubscription the next poll of the flow goes to create the account again with the stored token |
| DeviceFlow.ClientsAccountedFor | internal/server/grok_oauth.go:134-143 | in every reachable state at most 20 logins are pending and every client is held once, owned once or closed once |
| DeviceClaims.MarkedIsWorkedOn | internal/server/grok_oauth.go:195-291 | in every reachable state a login marked as polled has its request out, and one marked as finalized has the thread that marked it at its account |
| DeviceLogins.Logins.StartDevice | internal/server/grok_oauth.go:78-143 | the start handler from the client on, with any interference and any answer of the device endpoint, is a run of the machine and leaves no client with its thread; a login starts if and only if the answer is valid and fewer than twenty unexpired logins are pending, expires after the provider's lifetime and is first polled after its interval |
| DeviceLogins.Logins.BindClient | internal/server/grok_oauth.go:78-81 | the starter comes to hold the new login's client |
| DeviceLogins.Logins.AbandonStart | internal/server/grok_oauth.go:90-118 | every failed start closes the client it holds |
| DeviceLogins.Logins.CloseAll | internal/server/server.go:323-328 | closing the server empties the map and closes every pending login's client once |
| DeviceLogins.Logins.PollDevice | internal/server/grok_oauth.go:160-252 | the whole poll handler, with any interference at each unlock, is a run of the machine; it is answered at once if and only if the login is missing, expired, another owner's, being polled or not due, and changes nothing then; an answer without a token decides the reply; with nobody interfering reply, login and created account are those of the poll in one piece; "complete" only for a created account with a stored token |
| DeviceLogins.Logins.PollSection | internal/server/grok_oauth.go:171-196 | the first locked section: expiry, owner, stored token, outstanding poll, interval; what it answers, asks and leaves of every login |
| DeviceLogins.Logins.AnswerSection | internal/server/grok_oauth.go:206-214 | the second locked section clears Polling and stores the token if the flow is still there |
| DeviceLogins.Logins.SlowDownSection | internal/server/grok_oauth.go:232-240 | the slow_down section lengthens the interval and restarts the wait |
| DeviceLogins.Logins.FinishFlow | internal/server/grok_oauth.go:254-299 | the finish handler is a run of the machine; its reply follows from the stored token, Finalizing and the creation alone, and a failed creation leaves the login as it was |
| DeviceLogins.Logins.UndoSection | internal/server/grok_oauth.go:283-291 | a failed creation gives Finalizing up |
| DeviceLogins.Logins.RemoveFlow | internal/server/grok_oauth.go:426-434 | takes the flow out under the mutex and closes its client afterwards |
| PkceFlow.InvStep | internal/server/pkce_oauth.go:111-184 | every enabled event keeps the PKCE flow's invariant |
| PkceFlow.OneAccountPerFlow | internal/server/pkce_oauth.go:128-183 | over any interleaving each PKCE login has at most one successful CreateSubscription |
| PkceFlow.OneClaimantPerFlow | internal/server/pkce_oauth.go:143-149 | at most one thread exchanges the code or creates the account of a flow at a time |
| PkceFlow.ClearsOwnClaimOnly | internal/server/pkce_oauth.go:292-298 | Finalizing goes from true to false only by the thread that set it last |
| PkceFlow.GoneForGood | internal/server/pkce_oauth.go:273-290 | a removed flow never comes back and is never claimed again |
| PkceFlow.ClaimedFlowRemoved | internal/server/pkce_oauth.go:151-155 | from the server's start on a run exists in which, after an invalid_grant, another thread claims the flow between its clearing and its removal, and finds it gone |
| PkceFlow.ClientsAccountedFor | internal/server/pkce_oauth.go:94-103 | in every reachable state at most 20 logins are pending and every client is held once, owned once or closed once |
| PkceClaims.ClaimsAreEarned | internal/server/pkce_oauth.go:125-149 | over every run whoever exchanges a login's code or creates its account came as the owner and for the provider it was started with, before it expired, with its state or none |
| PkceClaims.AccountsAreEarned | internal/server/pkce_oauth.go:111-184 | every account created came of a login claimed in that way |
| PkceClaims.ExchangeClaimsIff | internal/server/pkce_oauth.go:125-149 | an exchange claims a login if and only if it is pending, unexpired, of that owner and provider, unclaimed, and the returned state is its own or empty; otherwise nothing is claimed, marked or created |
| PkceClaims.ClaimedIsWorkedOn | internal/server/pkce_oauth.go:148-181 | in every reachable state the thread that claimed a claimed login last is exchanging its code, creating its account, giving it up or removing it |
| PkceLogins.Logins.StartOAuth | internal/server/pkce_oauth.go:58-103 | the start handler from the client on, with any interference, is a run of the machine and leaves no client with its thread; a login starts if and only if it could be prepared and fewer than twenty unexpired ones are pending, is open to its owner and provider with its own state, and expires after ten minutes |
| PkceLogins.Logins.BindClient | internal/server/pkce_oauth.go:58-61 | the starter comes to hold the new login's client |
| PkceLogins.Logins.AbandonStart | internal/server/pkce_oauth.go:64-86 | every failed start closes the client it holds |
| PkceLogins.Logins.CloseAll | internal/server/server.go:329-334 | closing the server empties the map and closes every pending login's client once |
| PkceLogins.Logins.ExchangeOAuth | internal/server/pkce_oauth.go:111-184 | the whole exchange handler, with any interference at each unlock, is a run of the machine; not found if and only if the login is missing, expired, of another owner or provider; state mismatch if and only if the returned state is neither empty nor the login's; then and for a claimed login nothing is claimed or created; otherwise the reply is the answer's; with nobody interfering the login is used up or can be tried again as it was |
| PkceLogins.Logins.ExchangeSection | internal/server/pkce_oauth.go:125-149 | the locked section: which of not found, state mismatch and finalizing it answers, and that it claims the login exactly where it answers none of them |
| PkceLogins.Logins.ClearFinalizing | internal/server/pkce_oauth.go:292-298 | gives the claim up if the flow is still there |
| PkceLogins.Logins.RemoveFlow | internal/server/pkce_oauth.go:282-290 | takes the flow out under the mutex and closes its client afterwards |
| TokenUsage.MergeTokenUsage | internal/server/usage_parse.go:18-45 | the loop over the parts computes the merge |
| TokenUsage.FoldKeepsLastReported | internal/server/usage_parse.go:18-35 | folding merges keeps of each count, and of the model, the last value any part reported |
| TokenUsage.FoldCarriedTotal | internal/server/usage_parse.go:36-43 | if any part carries a total, the folded total is the last carried one |
| TokenUsage.FoldDerivedTotal | internal/server/usage_parse.go:40-43 | if none does, the folded total is input plus output at the first step where both are known, and stays so |
| TokenUsage.FoldNoTotal | internal/server/usage_parse.go:40-43 | without carried totals and without both counts there is no total |
| TokenUsage.FoldTotal | internal/server/usage_parse.go:36-43 | in any stream the total is the last one carried, else the sum at the first step where both counts are known, else there is none |
| TokenUsage.MergeReportsLast | internal/server/usage_parse.go:18-45 | a merge reports of model and of each count the last value any part has, and the last carried total, else input plus output |
| TokenUsage.AddInt64Wraps | internal/server/usage_parse.go:40-43 | the derived total is exact within int64 and otherwise off by a multiple of 2 to the 64 |
| TokenUsage.CountNames | internal/server/usage_parse.go:121-125 | which field names give which count, and which of two wins |
| TokenUsage.CachedNames | internal/server/usage_parse.go:123-135 | where cached counts are looked for, and which of them wins |
| TokenUsage.ObjectReportsLast | internal/server/usage_parse.go:106-137 | the usage of a nested JSON object is the last value reported by its sources in the order the code looks at them |
| SseParser.LinesAppend | internal/server/usage_parse.go:71-85 | the complete lines of a body and its unfinished rest do not depend on where the body is cut |
| SseParser.NewlineAtEnd | internal/server/usage_parse.go:87-93 | flushing is the same as ending the body with a newline |
| SseParser.DataLineReads | internal/server/usage_parse.go:81-104 | a data line, with any carriage returns at its end, says what its trimmed payload decodes to, unless that is empty or the end marker |
| SseParser.OtherLineSaysNothing | internal/server/usage_parse.go:96-98 | a line that does not begin with "data:" says nothing |
| SseParser.SseUsageParser.Write | internal/server/usage_parse.go:71-85 | after a chunk the parser holds the fold of the lines so far and the unfinished rest |
| SseParser.SseUsageParser.Flush | internal/server/usage_parse.go:87-93 | after flushing the usage is that of the whole body |
| SseParser.ParseChunks | internal/server/usage_parse.go:71-104 | for every way of cutting a body into chunks the result is the fold over its lines |
| SseParser.ParseSSEUsage | internal/server/usage_parse.go:59-69 | the one-shot parser agrees with the chunked one |
| Capture.LimitedBuffer.Write | internal/server/httplog.go:83-104 | after any writes the buffer holds the first min(max, n) bytes |
| Capture.CutIffLonger | internal/server/httplog.go:83-104 | for a positive limit and non-empty chunks `truncated` is set if and only if the body is longer than the limit |
| Capture.TailBuffer.Write | internal/server/httplog.go:106-119 | after any writes the buffer holds the last min(max, n) bytes |
| Capture.CapturingWriter.TokenUsage | internal/server/httplog.go:72-81 | for any body, however it was cut and also when asked again, the report's model and counts are the last ones reported among the streamed usage, the JSON of the kept beginning, the JSON of the kept end and the parse of the kept end, in that order; its total the last one these carry, else input plus output |
| Capture.Report | internal/server/httplog.go:37-81 | a whole response in any chunks: the report as above over the limit's first bytes and the last 256 KiB, the kept prefix and the truncation flag; for a response without data lines that fits both buffers the report is its JSON document's usage with the derived total |
| Capture.JsonReport | internal/server/httplog.go:72-81 | what the four sources report together of a body without data lines that fits both buffers is its JSON usage, with the total derived if missing |
| Capture.ShortBodyTailParse | internal/server/httplog.go:72-81 | for bodies within the tail limit the tail's parse is the streamed parse |
| Capture.StreamReport | internal/server/httplog.go:72-81 | for an event stream within the tail limit the report is the streamed usage: the other sources add nothing |
| Capture.LongStreamReport | internal/server/httplog.go:72-81 | for a stream at least as long as the tail, where the kept end of a cut line adds no usage, model and counts of the report are the streamed ones; the total is the streamed one if and only if the whole lines of the tail carry a total, lack a count, or derive just that total |
| Capture.TailAtLine | internal/server/httplog.go:72-81 | a tail that begins with a line has the last parts of the body |
| Capture.TailInLine | internal/server/httplog.go:72-81 | if the tail begins inside a line, what follows that line has the last parts of the body |
| Capture.TailUsage | internal/server/httplog.go:72-81 | the tail's own parse is that of the lines it holds whole, if the kept end of a cut line adds no usage |
| Capture.TailDerivesAnotherTotal | internal/server/httplog.go:72-81 | two events with totals 11 and 60 of their own, the second alone in the tail: the stream's total is 11 and the reported one 60 |
| LogTime.DigitsOrder | internal/repository/request_logs.go:294-300 | among trimmed fractions text order is numeric order except that a fraction sorts after those it is a prefix of |
| LogTime.TextLessIff | internal/repository/request_logs.go:294-300 | text order of started_at is time order if and only if the earlier instant's digits are no proper prefix of the later one's in the same second; section 5.1 of RFC 3339 asks for equal widths |
| LogTime.TextLessUpTo | internal/repository/request_logs.go:294-300 | text order is transitive through bounds |
| LogTime.TextOrderIsNotTimeOrder | internal/repository/request_logs.go:294-300 | half a second after midnight sorts before midnight |
| Aggregation.TwoLevelIsFlat | internal/repository/request_logs.go:356-382 | grouping each day table and grouping the union again gives each group the flat sum over all rows, and the same groups |
| UsageLogs.SkippingChangesNothing | internal/repository/request_logs.go:258-272 | skipping tables of days outside the range changes no total and no group |
| UsageLogs.PruningChangesNothing | internal/repository/request_logs.go:209-241 | pruning changes no total of a range whose first local day is on or after the oldest retained day |
| UsageLogs.UserTotalsAreSubscriptionTotals | internal/repository/request_logs.go:457-482 | grand totals by user equal grand totals by subscription |
| UsageLogs.FilteredUserTotalsAreTheRow | internal/repository/request_logs.go:459-481 | filtered by a subscription the totals by user equal that subscription's row |
| UsageLogs.AdjacentRangesAdd | internal/repository/request_logs.go:297-300 | the totals of two adjacent ranges add up to those of their union |
| UsageLogs.FirstSecondCountsForTheDayBefore | internal/repository/request_logs.go:567-579 | a request half a second after midnight is not in its own day's range but in the range of the day before |
| UsageLogs.InRangeIff | internal/repository/request_logs.go:294-300 | a range of whole seconds decides a request by its time if and only if it did not start within the second after one of the range's ends |
| UsageLogs.RowAddsToSubscription | internal/repository/request_logs.go:358-368 | a row in range adds one request and each of its counts to its own subscription's totals, and its total or else input plus output; to no other subscription |
| UsageLogs.RowAddsToUser | internal/repository/request_logs.go:461-474 | it adds the same to the totals of its own user, else of its key's user, else of the unassigned group, and with a filter only if it is of that subscription |
| UsageQueries.RecordAdds | internal/repository/request_logs.go:64-108 | recording a request adds its numbers to its own group and to no other, in every query |
| UsageQueries.RecordedStaysPlaced | internal/repository/request_logs.go:624-626 | rows stay in the table of their local start day |
| UsageQueries.QueryAnswers | internal/repository/request_logs.go:356-382 | the query over the range's tables returns the flat totals of all rows, group by group |
| UsageQueries.BreakdownSums | internal/repository/request_logs.go:395-424 | the returned rows sum to the grand totals in every column |
| RequestLogs.Repository.RecordRequest | internal/repository/request_logs.go:64-108 | adds the row to its day's table, made if missing, and stamps the subscription's last use |
| RequestLogs.Repository.TablesInRange | internal/repository/request_logs.go:258-272 | keeps exactly the tables of the range's days, newest first |
| RequestLogs.Repository.UsageOf | internal/repository/request_logs.go:274-317 | the totals of one subscription are the flat totals over all tables |
| RequestLogs.Repository.UsageBySubscription | internal/repository/request_logs.go:319-425 | a row for every listed subscription in order, then the orphans by id, each with its flat totals, none missing; the grand totals are the flat ones; an empty range is an error |
| RequestLogs.Repository.UsageByUser | internal/repository/request_logs.go:427-549 | a row for every user, orphan and the unassigned group with requests and for nobody else, in that order, users as listed and orphans by id, each with its flat totals; the grand totals are the flat ones |
| RequestLogs.Repository.CleanupRequestLogTables | internal/repository/request_logs.go:209-241 | drops exactly the tables of days before the oldest retained one and names them in ascending order |
| Migration.RestartList | internal/database/database.go:58-157 | a list of statements whose finished part would change nothing can be run again from the start |
| MigrationRestart.FirstPhaseAgain | internal/database/database.go:190-219 | stopping after any statement of schema creation and the early rename, even right after the drop, and repeating them comes back to the same state |
| MigrationRestart.PrefixSettled | internal/database/database.go:69-131 | at every stop in a version's statements all finished ones have nothing left to do |
| MigrationRestart.StopTwice | internal/database/database.go:58-157 | a run that stops after i statements followed by one that stops after j of them equals one run that stops after j |
| MigrationRestart.SafeToStop | internal/database/database.go:58-157 | stopping after any committed statement and running again, with the request-log tables listed in any order, reaches the tables, columns, rows and versions of one uninterrupted run |
| MigrationRestart.RunTwice | internal/database/database.go:58-157 | a further run changes nothing and fails if and only if the first did |
| MigrationRestart.ManyStops | internal/database/database.go:58-157 | any number of interrupted runs before the one that completes, each with its own listing order, makes no difference |
| MigrationRestart.LogColumnsInAnyOrder | internal/database/database.go:364-390 | renaming the columns of the request-log tables in any two orders of one listing comes to the same |
| MigrationRestart.MigratedInAnyOrder | internal/database/schema.go:156-177 | the listing of the request-log tables has no promised order, and a run comes to the same database in any |
| MigrationRestart.StopKeepsVerdict | internal/database/database.go:292-310 | an interrupted run neither causes nor cures the missing-column error |
| MigrationEffects.KeysSurvive | internal/database/database.go:292-362 | whether Migrate succeeds or not, every API key keeps its id, hash and copied columns; its subscription is its account where a rebuild ran and unchanged elsewhere; its user is lost where a rebuild ran and kept elsewhere |
| MigrationEffects.RebuildLosesUser | internal/database/database.go:292-362 | a legacy key of account 3 and user 7, in a table with all columns a rebuild copies, ends as a key of subscription 3 and of nobody |
| MigrationEffects.NeverMixed | internal/database/database.go:58-157 | wherever Migrate is stopped, it has not itself brought account_id and user_id together in a table a rebuild would still take |
| MigrationEffects.KeysAreKeysAfter | internal/database/database.go:438-546 | the api_keys table after the whole program, from the table and versions before |
| MigrationEffects.TimeoutsConverted | internal/database/database.go:86-104 | whether Migrate succeeds or not, every row of the subscriptions table keeps its id; legacy milliseconds become ceiling seconds exactly where seconds were 0 and version 3 was not recorded |
| MigrationEffects.CopiedTimeoutsAreNotConverted | internal/database/database.go:259-271 | accounts copied beside existing subscriptions keep their seconds whatever their milliseconds |
| MigrationColumns.SecretsInPlainColumns | internal/database/database.go:105-131 | every subscription's credentials and proxy end in the plain column: as they were where it was there, else, where version 4 is not recorded, the old encrypted column's value, or '{}' and NULL without one |
| MigrationColumns.SubscriptionColumnKept | internal/database/database.go:58-157 | every column of every subscription that is neither renamed, dropped nor converted keeps its value, whether Migrate succeeds or not |
| MigrationColumns.CopiedColumnKept | internal/database/database.go:259-271 | a subscription copied from accounts keeps the value of every column of the new schema but the timeout, which has its own row |
| MigrationColumns.AdminColumnKept | internal/database/database.go:58-157 | every column of the admin but the encrypted second factor keeps its value |
| MigrationColumns.TotpSecretInPlainColumn | internal/database/database.go:122-124 | the admin's second-factor secret moves to the plain column where that is missing and version 4 is not recorded |
| MigrationColumns.AdminBecomesUser | internal/database/database.go:419-436 | without users and with version 6 not recorded the admin becomes the only user, with the same name and password hash, enabled and in the admin role |
| MigrationColumns.UserKept | internal/database/database.go:419-436 | users that are there keep the value of every column |
| MigrationColumns.LogColumnKept | internal/database/database.go:364-390 | every column of every request-log row but account_id keeps its value |
| MigrationColumns.LogAccountIsSubscription | internal/database/database.go:364-390 | in a listed request log with account_id only every row's subscription_id becomes its account_id, where version 10 is not recorded and Migrate succeeds |
| MigrationColumns.LogAccountKept | internal/database/database.go:292-390 | in every other case account_id stays as it is |
| MigrationColumns.ColumnsDropped | internal/database/database.go:119-121 | credential_key_id is gone afterwards where version 4 was not recorded, created_by_user_id where version 10 was not |
| MigrationColumns.TablesDropped | internal/database/database.go:236-290 | accounts is gone afterwards where version 10 was not recorded, usage_logs where version 7 was not |
| MigrationRun.Database.Migrate | internal/database/database.go:58-157 | the code as written does what the program of statements does, and fails if and only if api_keys has neither account_id nor subscription_id before version 10; either way every subscription's credentials and proxy are in the plain columns, with the values they had |
| MigrationRun.Database.CreateSchema | internal/database/database.go:59-71 | schema creation and the early rename |
| MigrationRun.Database.MigrateTimeoutToSeconds | internal/database/database.go:82-104 | the guarded conversion of version 3 |
| MigrationRun.Database.MigrateToPlaintext | internal/database/database.go:105-131 | the guarded column changes of version 4: nothing if it is recorded, else every secret of subscriptions and admin is in its plain column with the value that column or the encrypted one had |
| MigrationRun.Database.RebuildAPIKeysWithoutAccountUnique | internal/database/database.go:438-546 | the transactional rebuild of version 5 and its three ways of only recording it |
| MigrationRun.Database.MigrateUsersFromAdmin | internal/database/database.go:419-436 | the admin becomes a user if there is no user yet |
| MigrationRun.Database.MergeAccounts | internal/database/database.go:244-273 | accounts are renamed, or copied beside existing rows and dropped |
| MigrationRun.Database.RebuildAPIKeysSubscriptionID | internal/database/database.go:292-362 | the transactional rebuild of version 10, nothing to do, or the error |
| MigrationRun.Database.MigrateRequestLogAccountColumns | internal/database/database.go:364-390 | the loop renames account_id in every listed request-log table that still has it |
| Rebind.RebindQuery | internal/database/dialect.go:30-47 | the loop numbers the placeholders for PostgreSQL and leaves other dialects' queries alone |
| Rebind.RoundTripIff | internal/database/dialect.go:30-47 | an inverse that expects $1, $2, ... in order restores the query if and only if it has no '$' of its own |
| Rebind.SegmentsKept | internal/database/dialect.go:30-47 | all text between placeholders is kept and the i-th placeholder becomes $i |
| Rebind.DecimalSpells | internal/database/dialect.go:41 | the digits written for a number spell that number and do not start with a zero |
| Rebind.RequestLogWhere | internal/repository/request_logs.go:589-621 | for every filter the WHERE text has exactly as many placeholders as arguments, which come in the order of the conditions |
| Rebind.ComparedColumns | internal/repository/request_logs.go:592-611 | which five columns are compared, each with the filter's own value and only if that is set |
| Rebind.SearchedColumns | internal/repository/request_logs.go:612-619 | the six columns free text is looked for in, NULL counting as empty, with the dialect's operator |
| Rebind.SearchPattern | internal/repository/request_logs.go:612-619 | the six arguments are the trimmed text between percent signs, and there are none without text |
| Rebind.JoinedIsBalanced | internal/repository/request_logs.go:620 | joining conditions that each have as many placeholders as arguments keeps them in step |
| Rebind.TextIgnoresValues | internal/repository/request_logs.go:589-621 | the text depends on which conditions are set, never on the values compared with |

## Left out

- HTTP transport, gin handlers, proxies, header rewriting, configuration and the admin page: I/O or constants without a deep property.
- Cryptography and parsers (PKCE challenges, JWT claims, `json.Unmarshal`, `url.Parse`, `strings.TrimSpace`): uninterpreted functions or inputs.
- Refresh.RetiredTokensStayUnsent: this, SendsRetiredTokenIff, EachTokenRefreshedOnce and the results on forced callers assume a provider whose answers are fresh (`past.repeated` stays false), and all of them that only the refreshers write credentials; the unlocked Grok quota write (internal/server/grok_usage.go:84) and admin edits of credentials (internal/server/admin.go:197) are not part of the model.
- Refresh.OneRequestInFlight: assumes that account ids are never reused, as AUTOINCREMENT and BIGSERIAL promise.
- RefreshGateway.Gateway.CredentialsForRequest: gives up where `Lock` would still be waiting instead of modelling the wait; fairness is not modelled.
- Refresh.ForcedCallersRefreshOnce: an empty access token is no token; two accounts may both have none.
- Capture.LongStreamReport: where the kept end of a cut line reads as a data line with a usage of its own, which the stream does not have, the report is not compared with the stream; what it then is says Capture.Report.
- RateWindow.AtMostOneWindowMore: assumes non-decreasing times, because the clock is read before the mutex is taken.
- LimiterTable.Table.LimiterChannel: the list of other threads' changes is finite, so the retry loop ends; an endless storm of changes is not modelled.
- DeviceLogins.Logins.PollDevice: flow records are values in the map rather than pointers shared with handlers; the handler's own copy of the interval, used only for the `retry_after` it answers, and that answer's rounding are not modelled. The quota refresh after creation (internal/server/grok_oauth.go:292-296) is left out.
- PkceLogins.Logins.ExchangeOAuth: the parsing of the pasted code and the answer's JSON are inputs.
- FlowTable.ClientAccountedFor: `closeHTTPClient` counts as one close; idle connections are not modelled, and flow ids drawn at random are taken to be new.
- TokenUsage.ObjectReportsLast: numbers are those `int64Value` accepts; how it reads floats and strings is left to the codec.
- LogTime.TextLessIff: years of four digits, so that texts up to the seconds have one width.
- UsageLogs.SkippingChangesNothing: fixed offsets from UTC; with daylight saving a local date can step backwards.
- RequestLogs.Repository.UsageBySubscription: names, providers, roles and the missing-column repair of old log tables are left out; sums are unbounded integers.
- RequestLogs.Repository.UsageByUser: with no table in the range the code returns no rows before it queries; the model's empty query gives the same.
- RequestLogs.Repository.RecordRequest: other columns, indexes and the transaction's rollback are left out; the insert and the update happen together.
- MigrationRestart.SafeToStop: `applied_at`, indexes, PRAGMAs, constraints and foreign-key actions are not modelled (dropping `accounts` with foreign keys on can cascade into rows that still refer to it); the columns the account copy selects are assumed to exist.
- MigrationEffects.KeysSurvive: the columns both rebuilds of `api_keys` copy are assumed to exist and to hold what their NOT NULL and UNIQUE constraints ask for, as MigrationRun.Database.Migrate also assumes; without them the copy fails, the transaction is rolled back and Migrate returns an error.
- MigrationRun.Database.MigrateUsersFromAdmin: `admin` holds at most the row 1, as its CHECK demands.
- The PostgreSQL migration (internal/database/postgres.go): schema creation without legacy shapes.
- ListRequestLogs, GetRequestLog and ResolveUsageRange beyond the WHERE clause: single queries and date arithmetic.
- Quota percentages, window naming and Grok billing: single-branch arithmetic.
