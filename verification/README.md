# Verified models of daedalus-agent

Daedalus-agent is a chat agent: a WebSocket sidecar pushes live events to browsers, and a Python
service runs tools, remote calls, memory and data migrations for a model. This project models the
parts of it whose correctness depends on interleavings, crashes or exact formats, and proves
what they promise.

`dafny verify dfyconfig.toml` checks the whole project.

## How the system is modelled

- **Concurrent code** (`RedisSubscriber`, `ClientConnections`, `PendingMessages`, `GoogleOAuth`,
  `ApprovalDispatch`, `McpConnections`, `RunAdmission`). The code between two awaits is one step. A `State`, a set of
  `Event`s and a total function `Step` say what each step does; an event that is not enabled changes
  nothing. `Exec` runs any sequence of events, so a lemma about `Exec` holds in every interleaving.
  Classes with the fields of the source's objects carry the same steps in place.
- **Crashes** (`CollectionMigration`). The executor is a class whose methods follow the source's
  control flow. Every call to the store or to the log may succeed, raise an exception or kill the
  process, and its effect may have happened, or in part happened, in each case. `Run` drives any
  sequence of commands for any number of users.
- **Formats and algorithms** (`CanonicalJson`, `MigrationAudit`, `ToolContracts`, `PngMetadata`,
  `TurnDocument`, `DifferentialRequests`, `ApprovalPolicy`). Loops are methods proved against
  specification functions, and the lemmas say what those functions mean.

## What was found

- A Redis subscribe that was executed although its reply was lost, followed by a release, leaves
  Redis subscribed to a channel that nobody wants (`RedisSubscriber.LostReplyLeaks`). Convergence
  holds for every channel whose latest command was not rejected, and nothing a caller can see decides
  the other case (`RedisSubscriber.RejectionsHideTheTruth`).
- A retain that is rejected late removes a newer subscription of the same topic
  (`ClientConnections.StaleRejectionDropsTheNewerSubscription`); a subscription lasts exactly as
  long as no such rejection, unsubscribe or close comes (`ClientConnections.SubscriptionsLastExactly`).
- `append` writes a record that later validation accepts if and only if the event has no
  `event_hash` of its own (`MigrationAudit.AppendedIsAccepted`).
- A server whose name ends in an underscore passes the execute route's check for `__`, yet its call
  is sent to another server (`ApprovalPolicy.TrailingUnderscoreRedirects`); the consumed context
  still refuses it (`ApprovalDispatch.RedirectedCallsAreRefused`).
- An operator's exclusion that is spelled as the tool is called, with its server's prefix, does not
  exclude that tool, because the prefix is cut from the call and not from the configured name; every
  other spelling of the name does (`ApprovalPolicy.OwnNamesExclude`).
- A release that finds a live context of its run removes it and leaves no tombstone, so a second
  prepare of that run that is still waiting installs it again
  (`RunAdmission.ReleaseOfALiveRunLeavesTheDoorOpen`). A repeated release renews a tombstone but not
  its place in the table, so it can be evicted early: it survives every run of n later releases if and
  only if n is at most its grace (`RunAdmission.TombstonesLastExactly`).
- If the lease of the refresh lock lapses while its holder is still at work, a grant that a person
  replaced can come back (`GoogleOAuth.LapsedLeaseRestoresAnOldGrant`).

## Model

| member | source | states |
|---|---|---|
| RedisSubscriber.StepKeeps | frontend/ws-server.ts:146-235 | Every step keeps the invariant: map and entries agree, Redis holds exactly the marked channels outside the command in flight, and every unfinished difference has a reconcile queued. |
| RedisSubscriber.DrainedMeansConverged | frontend/ws-server.ts:207-235 | In every run, once the operation queue has drained, Redis is subscribed to a channel whose latest command was not rejected if and only if its reference count is positive. |
| RedisSubscriber.DrainedWithoutRejection | frontend/ws-server.ts:115-122 | If no command failed and the queue has drained, the Redis subscriptions are exactly the wanted channels. |
| RedisSubscriber.DifferenceIsInFlight | frontend/ws-server.ts:213-235 | At every moment of every run Redis differs from the `subscribed` marks at most in the channels of the one command in flight and those whose latest command was rejected (none of the latter when nothing was rejected), and a reconcile sends at most one command more than the wanted state flipped while it ran. |
| RedisSubscriber.TheChainDrains | frontend/ws-server.ts:207-235 | From every reachable state the operation queue drains within ten replies for each operation, without a rejection, and Redis then agrees with the wanted state wherever the latest command was not rejected. |
| RedisSubscriber.ShutdownTakesEverything | frontend/ws-server.ts:175-195 | A shutdown leaves no channel a reference, and afterwards none can be taken. |
| RedisSubscriber.CountsChangeOnlyByHolders | frontend/ws-server.ts:146-173 | Before shutdown only retain and release change a count, by one and of their own channel. |
| RedisSubscriber.LostReplyLeaks | frontend/ws-server.ts:225-231 | A concrete run: the reply of an executed subscribe is lost, the channel is released, and Redis keeps it. |
| RedisSubscriber.RejectionsHideTheTruth | frontend/ws-server.ts:225-231 | From every reachable state with a command awaiting its reply, the rejection leads to two runs that agree in everything but Redis; until another command for the channel is sent, Redis agrees with the wanted state in exactly one of them. |
| RedisSubscriber.SharedRedisSubscriber.Retain | frontend/ws-server.ts:146-165 | Changes the whole state as the retain step does: refused after shutdown, otherwise one more reference and a queued reconcile. |
| RedisSubscriber.SharedRedisSubscriber.Release | frontend/ws-server.ts:167-173 | Changes the whole state as the release step does, with the count clamped at zero. |
| RedisSubscriber.SharedRedisSubscriber.Shutdown | frontend/ws-server.ts:175-195 | Sets all counts to zero, once, and queues the teardown. |
| RedisSubscriber.SharedRedisSubscriber.ContinueReconcile | frontend/ws-server.ts:213-233 | One turn of the reconcile loop: finish, drop an unwanted entry, or send the next command. |
| ClientConnections.ChannelsAreDistinct | frontend/server/session/redisShared.ts:81-88 | Among valid topics of one user no two share a channel name, and none is the user's own channel. |
| ClientConnections.StepConserves | frontend/ws-server.ts:491-542 | Every step of any connection or of Redis keeps the number of references of each channel equal to the number of connections that hold it. |
| ClientConnections.ReferencesAreConserved | frontend/ws-server.ts:686-714 | In every interleaving before shutdown a channel's reference count equals the number of connections that hold it. |
| ClientConnections.EveryReleaseFindsAReference | frontend/ws-server.ts:508-536 | Whenever a connection holds a channel its count is positive, so the clamp at zero is never reached. |
| ClientConnections.RedisFollowsTheHolders | frontend/ws-server.ts:115-122 | End to end: when the queue has drained, before shutdown, and the channel's latest command was not rejected, Redis is subscribed to the channel if and only if some connection holds it. |
| ClientConnections.UnsubscribeIsFinal | frontend/ws-server.ts:1033-1051 | If the last message for a topic is an unsubscribe, the connection does not hold it whatever checks and commands settle later. |
| ClientConnections.RemovalIsFinal | frontend/ws-server.ts:491-542 | A removed connection never holds a channel again. |
| ClientConnections.ClosedConnectionsAreGone | frontend/ws-server.ts:496-523 | In every reachable state a closed connection holds nothing and has no request pending. |
| ClientConnections.OnlyTheNewestRequestAdds | frontend/ws-server.ts:463-477 | The check of a request that a newer one superseded settles without any effect on what is held. |
| ClientConnections.HoldsChangeExactly | frontend/ws-server.ts:654-714 | The whole fate of a hold, at every step: a topic comes exactly with an allowed check of its newest request on an open connection with room, and goes exactly with an unsubscribe, the end of the connection or a rejected retain; and exactly when a connection closes or is initialized. |
| ClientConnections.RefusedChecksAddNothing | frontend/ws-server.ts:663-672 | In every state, a refused ownership check changes no hold of any connection and nothing of the subscriber. |
| ClientConnections.RequestsBeginExactly | frontend/ws-server.ts:634-655 | A subscribe message begins a check exactly if the connection is initialized and open, a slot is free, the topic is well formed and not held, and there is room. |
| ClientConnections.HoldsWereGranted | frontend/ws-server.ts:654-692 | In every run a held topic is well formed, was asked for by the connection itself, the ownership check of that very request came back allowed, and no unsubscribe followed the request. |
| ClientConnections.LimitsHold | frontend/ws-server.ts:1008-1029 | A connection never exceeds its topic limits, and each check slot it counts belongs to exactly one check in flight. |
| ClientConnections.UndisturbedSubscriptionsLast | frontend/ws-server.ts:686-715 | A subscription lasts through every run without an unsubscribe, a close, or a rejected retain of its topic (one half of the next row). |
| ClientConnections.SubscriptionsLastExactly | frontend/ws-server.ts:686-715 | From every reachable state in which a connection holds a topic, it holds it after every event of a run if and only if no event of the run is an unsubscribe, its close, or the rejection of a retain of that topic, old or new. |
| ClientConnections.StaleRejectionDropsTheNewerSubscription | frontend/ws-server.ts:707-714 | From every state with a retain in flight: unsubscribe, subscribe again, and the late rejection removes the newer subscription. |
| ClientConnections.ClientConnection.Remove | frontend/ws-server.ts:491-542 | Releases every held channel once, in a loop, and is idempotent. |
| ClientConnections.ClientConnection.FinishCheck | frontend/ws-server.ts:654-692 | Adds and retains a topic exactly when the request is the newest, was allowed, and the connection is open, does not hold it and has room; otherwise nothing held changes and the subscriber is left alone. |
| PendingMessages.LiveConnectionsHandleEverything | frontend/ws-server.ts:1061-1072 | A ready connection has handled every message of the socket exactly once, in order of arrival. |
| PendingMessages.BacklogHoldsEverything | frontend/ws-server.ts:441-461 | Before that nothing was handled, and the backlog is all messages in order unless an overflow closed the socket. |
| PendingMessages.EndedConnectionsHandleAllOrNothing | frontend/ws-server.ts:1083-1103 | An ended connection that was ever ready has handled every message that arrived before its end, in order; one that never was has handled none; after an overflow it never was. |
| PendingMessages.BacklogIsBounded | frontend/ws-server.ts:445-461 | Count and bytes stay within their limits, and the byte count is the sum of the queued lengths. |
| PendingMessages.ReadyMeansAccepted | frontend/ws-server.ts:1083-1096 | In every run a connection is ready only after its session was found, its channel retained and its states loaded. |
| PendingMessages.RefusalsEnd | frontend/ws-server.ts:1171-1187 | A connection ends exactly if an awaited reply refuses it, its socket is no longer open when one arrives, or it is removed; and then it holds no backlog. |
| PendingMessages.AcceptedConnectionsGetReady | frontend/ws-server.ts:1061-1110 | Whatever messages come between three good replies, if they fit the limits together the connection gets ready and has handled all of them in order. |
| PendingMessages.PendingClientMessages.Queue | frontend/ws-server.ts:445-461 | Appends the message, or on overflow empties the backlog and asks for the socket to be closed. |
| PendingMessages.PendingClientMessages.TakeOver | frontend/ws-server.ts:907-912 | The initializer copies the early messages and counts their bytes anew. |
| CollectionMigration.Run | builder/milvus_collection_migration.py:801-1182 | Any sequence of commands for any number of users, each dying anywhere: every history stays lawful, targets hold only source rows while writes are faithful, and every verified record is written at an instant at which the target equals the source. |
| CollectionMigration.RunOne | builder/milvus_collection_migration.py:821-827 | One command among many users: it grows the log only by its own records, changes only its own target, and changes neither the log nor a collection if it is not authorized. |
| CollectionMigration.UserCollectionMigrationExecutor.Migrate | builder/milvus_collection_migration.py:801-1059 | One command. Without authorization, or with a batch size or timeout out of range, it raises and changes neither the log nor a collection; nor does it change anything without a source, with a foreign inventory, with a target that holds rows or has another shape, or after verified or rolled back. Otherwise it writes only its own target and its own records, records the target's original policy and the strategy at the first start, records a failure whenever it raises after that, and succeeds from every resumable state once nothing fails; success reports the verified record and a target equal to the source. |
| CollectionMigration.UserCollectionMigrationExecutor.Rollback | builder/milvus_collection_migration.py:1083-1182 | Without authorization or a reason of ten characters it raises and appends nothing. It changes no collection, appends a rolled-back record only after a verified one whose source is unchanged and whose target has at most grown, and nothing when repeated; once nothing fails it succeeds exactly then. |
| CollectionMigration.UserCollectionMigrationExecutor.CopyBatches | builder/milvus_collection_migration.py:663-740 | Where identifiers are kept, faithful writes leave the target within the source; with a complete iteration a finished copy contains the whole source even if writes are corrupt. |
| CollectionMigration.UserCollectionMigrationExecutor.CopyBatch | builder/milvus_collection_migration.py:684-733 | A batch that passes is in the target row by row, and shared rows already there stay; rows with automatic identifiers are inserted only where the identifier is missing. |
| CollectionMigration.UserCollectionMigrationExecutor.CopyPreserving | builder/milvus_collection_migration.py:634-660 | Rows with automatic identifiers are inserted only while the policy allows it, and the policy afterwards is the one to restore, also when the copy raises and nothing else fails. |
| CollectionMigration.UserCollectionMigrationExecutor.WaitForPostCopyVerification | builder/milvus_collection_migration.py:295-350 | Returns only snapshots with the expected source, equal counts, equal schema and indexes, and the restored policy; the loop ends. |
| CollectionMigration.UserCollectionMigrationExecutor.WaitForReadySnapshot | builder/milvus_collection_migration.py:266-292 | Returns only a snapshot whose indexes are ready; the loop ends. |
| CollectionMigration.UserCollectionMigrationExecutor.CopyAndVerify | builder/milvus_collection_migration.py:986-1007 | On success source and target hold the same rows, whether because the writes were faithful or because the iteration was complete. |
| CollectionMigration.UserCollectionMigrationExecutor.RestartIfUntrusted | builder/milvus_collection_migration.py:965-985 | An old start that used upserts for automatic identifiers resumes only with an empty target and under a new start; afterwards every row comes from the source. |
| CollectionMigration.UserCollectionMigrationExecutor.Start | builder/milvus_collection_migration.py:902-943 | The first record holds the source's evidence and the target's policy before any change. |
| CollectionMigration.UserCollectionMigrationExecutor.Recheck | builder/milvus_collection_migration.py:841-871 | A verified migration stands only if the source still matches its marker and the target has at most grown. |
| CollectionMigration.HistoryMeansShape | builder/milvus_collection_migration.py:829-943 | Lawful histories are exactly: a start, then starts and failures, then at most one verified and at most one rolled-back record, all with one identifier, one policy and one source. |
| CollectionMigration.OtherHistoriesStay | builder/milvus_collection_migration.py:511-520 | Records of one user are invisible in the history of every other. |
| CollectionMigration.CommandKeepsAllIntact | builder/milvus_collection_migration.py:801-1059 | A command of one user leaves every other user's migration intact. |
| MigrationAudit.Validate | builder/milvus_collection_migration.py:397-411 | The loop accepts a log if and only if its records are chained by position, previous hash and own hash, with the position converted as the source converts it. |
| MigrationAudit.ChainedMeansCertified | builder/milvus_collection_migration.py:397-411 | A log is accepted exactly if every record claims its own position, the hash of the record before it (zeros at the start) and the digest of its own other fields. |
| MigrationAudit.AppendedIsAccepted | builder/milvus_collection_migration.py:466-508 | A valid log with an appended record is valid if and only if the event carried no hash of its own. |
| MigrationAudit.LastHashBindsTheLog | builder/milvus_collection_migration.py:397-411 | With a collision-free digest two valid logs with the same last hash are the same, whatever their lengths. |
| MigrationAudit.PrefixIsChained | builder/milvus_collection_migration.py:397-411 | Every prefix of a valid log is valid. |
| MigrationAudit.AppendOnlyMigrationAudit.Append | builder/milvus_collection_migration.py:466-508 | Refuses an invalid log and leaves it unchanged; otherwise keeps it as an exact prefix and adds one record with every field of the event, and the result is valid if and only if the event carried no hash of its own. |
| CanonicalJson.CanonicalTextIsANormalForm | builder/daedalus_runtime/approval.py:412-417 | Two values give the same canonical text if and only if they are equal up to the order of keys, at every depth. |
| CanonicalJson.TextIsInjective | builder/milvus_collection_migration.py:99-104 | Different JSON values, with keys in order, never give the same text. |
| CanonicalJson.SortedIsNormal | builder/daedalus_runtime/approval.py:412-417 | Sorting the keys at every depth keeps the value and gives strictly ascending keys. |
| CanonicalJson.LessMeansFirstDifference | builder/daedalus_runtime/approval.py:412-417 | Keys are ordered by the first code point in which they differ, and a prefix comes first. |
| ToolContracts.CompiledMeansObeys | builder/daedalus_runtime/tool_contracts.py:110-177 | For every table and every enabled set, the emitted schema accepts an argument object if and only if it obeys the contract of its enabled operation. |
| ToolContracts.ParametersMeanTheContracts | builder/daedalus_runtime/tool_contracts.py:98-177 | For every configured tool, the emitted schema accepts an argument object if and only if it calls an operation of the tool that the configuration names (or names none) and, for scripts, allows, with the arguments of its contract. |
| ToolContracts.ScriptsNeedPermission | builder/daedalus_runtime/tool_contracts.py:103-104 | Unless scripts are allowed, no argument object with the operation `run_skill_script` is valid under the emitted schema. |
| ToolContracts.AcceptedOperationsArePermitted | builder/daedalus_runtime/tool_contracts.py:101-104 | An accepted operation is one of the tool's, is configured unless none are, and for scripts is allowed. |
| ToolContracts.PermittedOperationsAreOffered | builder/daedalus_runtime/tool_contracts.py:144-150 | Where some operation is permitted, the schema's enumeration holds exactly the permitted operations. |
| ToolContracts.FaultsAreExact | builder/daedalus_runtime/tool_contracts.py:105-116 | A configuration is refused exactly if it names an operation that the tool does not have, or a permitted operation takes an argument that the tool's schema lacks. |
| ToolContracts.AcceptedCallsCarry | builder/daedalus_runtime/tool_contracts.py:151-177 | An accepted call carries every required argument, not blank unless it is a file's content, exactly one of the alternatives, and nothing outside its contract; an analyzed image is no list. |
| ToolContracts.NothingIsAccepted | builder/daedalus_runtime/tool_contracts.py:108-109 | The schema for an empty enabled set accepts no value at all. |
| ToolContracts.FeedMeans | builder/daedalus_runtime/tool_contracts.py:78-97 | The feed schema accepts exactly one query, or several queries in discovery mode without a scope, and no unknown argument. |
| ToolContracts.FeedParametersMean | builder/daedalus_runtime/tool_contracts.py:78-97 | The feed tool's schema is emitted exactly if both fields exist, and then means one of the two forms. |
| ToolContracts.PresentMeansNonBlank | builder/daedalus_runtime/tool_contracts.py:66-74 | The presence schema accepts exactly the values that are neither null nor empty nor blank. |
| ToolContracts.AlternativesMeanExactlyOne | builder/daedalus_runtime/tool_contracts.py:166-170 | The `oneOf` of a branch holds if and only if exactly one of the alternatives is supplied. |
| ToolContracts.BranchMeansFits | builder/daedalus_runtime/tool_contracts.py:154-175 | The `then` schema of an operation holds if and only if only its arguments appear, the required ones are supplied and one alternative is chosen. |
| ToolContracts.ContractsAreTidy | builder/daedalus_runtime/tool_contracts.py:17-63 | The configured contracts have distinct names, distinct alternatives and no argument called `operation`. |
| ToolContracts.BuildParameters | builder/daedalus_runtime/tool_contracts.py:77-177 | Builds the schema in loops, and reports unknown operations and arguments as the source does. |
| ToolContracts.CollectUsed | builder/daedalus_runtime/tool_contracts.py:111-114 | Collects exactly the arguments of the enabled operations, and the operation. |
| GoogleOAuth.StepKeeps | builder/daedalus_runtime/oauth.py:107-155 | While no lease lapses, every step keeps: only the lock holder is between its read and its write, and it knows the stored grant. |
| GoogleOAuth.RefreshesPostTheStoredGrant | builder/daedalus_runtime/oauth.py:113-143 | While a refresh is in flight the stored grant is the one it posted, and no other call is in its critical section. |
| GoogleOAuth.NewestConsentPrevails | builder/daedalus_runtime/oauth.py:211-218 | The stored grant always descends from the newest authorization, so no write restores an older one. |
| GoogleOAuth.OnlyConsentCreates | builder/daedalus_runtime/oauth.py:237-262 | After a reset or a refusal only a new authorization stores a grant. |
| GoogleOAuth.DeletionsWereRefused | builder/daedalus_runtime/oauth.py:144-149 | A refresh deletes the grant only after the answer `invalid_grant`. |
| GoogleOAuth.GrantsSurviveOutages | builder/daedalus_runtime/oauth.py:144-155 | While no lease lapses, a stored refresh token remains through every run of failures, timeouts and crashes without a refusal, a reset, or an authorization that brings no refresh token. |
| GoogleOAuth.ChangesHaveCauses | builder/daedalus_runtime/oauth.py:129-155 | While no lease lapses, the stored grant changes only by the lock holder, and only to a new authorization, the answer of a successful refresh, the same grant expired, or nothing after a reset or `invalid_grant`; every other failure leaves it unchanged. |
| GoogleOAuth.OneRefreshServesAll | builder/daedalus_runtime/oauth.py:113-123 | From every reachable state in which a refresh stores its grant, in every interleaving in which no reset, authorization or invalidation of that access token takes the lock, and while the grant is fresh for over 60 seconds: it stays stored, nobody posts, every caller that returns a token returns that one, and so does every caller that reads next. |
| GoogleOAuth.FreshGrantsAreReturned | builder/daedalus_runtime/oauth.py:116-123 | A stored access token with more than 60 seconds left is returned at once; nothing is posted, stored or asked. |
| GoogleOAuth.StaleGrantsArePosted | builder/daedalus_runtime/oauth.py:124-134 | A stale grant with a refresh token is posted, whether or not the caller can ask a person. |
| GoogleOAuth.RefreshesRenew | builder/daedalus_runtime/oauth.py:135-143 | A successful refresh stores exactly the new access token and expiry, keeps the refresh token and scope where the answer omits them, and returns the token with both locks free. |
| GoogleOAuth.OutagesKeepTheGrant | builder/daedalus_runtime/oauth.py:150-155 | An outage or an answer without a token ends the call, leaves the grant as it was and both locks free. |
| GoogleOAuth.RefusedGrantsAreDeleted | builder/daedalus_runtime/oauth.py:144-157 | After `invalid_grant` the grant is deleted, and a person is asked outside the shared lock, or the call ends where nobody can be asked. |
| GoogleOAuth.MissingGrantsAreAskedFor | builder/daedalus_runtime/oauth.py:156-178 | Without a usable or renewable grant a person is asked outside the shared lock, or the call returns nothing. |
| GoogleOAuth.ConsentsAreStored | builder/daedalus_runtime/oauth.py:190-218 | An authorization answered within 600 seconds is stored with its own tokens alone, whatever was stored before, and returned. |
| GoogleOAuth.ConsentsMayFail | builder/daedalus_runtime/oauth.py:222-235 | A late answer changes nothing; a declined or failed authorization ends the call and stores nothing. |
| GoogleOAuth.InvalidationsExpireExactly | builder/daedalus_runtime/oauth.py:237-247 | An invalidation expires the stored grant if its access token is the rejected one, and otherwise changes nothing. |
| GoogleOAuth.ResetsDelete | builder/daedalus_runtime/oauth.py:249-262 | A reset deletes the grant, and is refused while an operation of its process is in progress. |
| GoogleOAuth.OnePersonAtATime | builder/daedalus_runtime/oauth.py:110-112 | A process asks a person for at most one authorization of a grant at a time. |
| GoogleOAuth.LapsedLeaseRestoresAnOldGrant | builder/daedalus_runtime/oauth.py:211-218 | A run in which the lease lapses and an invalidation overwrites a newer authorization. |
| GoogleOAuth.GoogleOAuth.SaveToken | builder/daedalus_runtime/oauth.py:89-105 | Stores the token with what it omits taken from the previous grant, or stores nothing if it has no access token. |
| GoogleOAuth.GoogleOAuth.Callback | builder/daedalus_runtime/oauth.py:222-235 | Answers a pending authorization once and within 600 seconds, and changes no other. |
| GoogleOAuth.GoogleOAuth.InvalidateAccess | builder/daedalus_runtime/oauth.py:237-247 | Expires the stored access token only if it is the rejected one, and changes nothing else. |
| ApprovalPolicy.OnlyExposedToolsAreExempt | builder/daedalus_runtime/approval.py:108-116 | Whatever needs no approval is exposed by its group; for exposed tools overrides precede the default. |
| ApprovalPolicy.ParsedGroupsAreSound | builder/daedalus_runtime/approval.py:206-232 | In a parsed group every override is exposed and in force, and no read-only tool has a mutating name. |
| ApprovalPolicy.ReadOnlyToolsAreNamed | builder/daedalus_runtime/approval.py:196-202 | Only tools that an override names are ever read-only. |
| ApprovalPolicy.NormalNamesMutateAlike | builder/daedalus_runtime/approval.py:355-378 | The detection of mutating names ignores case and surrounding space. |
| ApprovalPolicy.MutationsAreMentioned | builder/daedalus_runtime/approval.py:355-378 | A call mutates exactly if the tool is marked destructive, or its name or one of the given texts holds a listed fragment, or a listed word standing alone, in any case; joining the texts hides and makes up nothing. |
| ApprovalPolicy.ParseGroup | builder/daedalus_runtime/approval.py:180-232 | Validates exposure, default and overrides, and refuses the group on the first fault. |
| ApprovalPolicy.GroupsParseExactly | builder/daedalus_runtime/approval.py:185-232 | A group is accepted exactly if no name is blank, the default is one of the two policies, and each override names one of the three policies for an exposed tool, read-only only for names without a mutating word. |
| ApprovalPolicy.LastOverridesStand | builder/daedalus_runtime/approval.py:206-231 | Of several overrides of one tool, in any spelling, the last one that gives a policy is in force. |
| ApprovalPolicy.TargetsAreNormal | builder/daedalus_runtime/approval.py:381-391 | A target is the lower-case group name and the lower-case stripped tool name without at most one prefix of that group. |
| ApprovalPolicy.TargetsIgnoreCaseAndSpace | builder/daedalus_runtime/approval.py:385 | Neither the case of a tool's name nor the space around it changes its target. |
| ApprovalPolicy.GroupsExposeWhatIsNamed | builder/daedalus_runtime/approval.py:108-116 | On the lists as written: a tool needs no approval only if some included name stands for it or, without includes, no excluded one does; and then it gets the default unless an override names it. |
| ApprovalPolicy.OwnNamesExclude | builder/daedalus_runtime/approval.py:381-391 | An exclusion spelled as the tool is called holds if and only if the name does not begin with its server's prefix. |
| ApprovalPolicy.EndpointRegistry.Bind | builder/daedalus_runtime/approval.py:128-143 | Keeps the registry in step with the bindings so far: agreed endpoints bound, disputed ones ambiguous. |
| ApprovalPolicy.EndpointRegistry.BindAll | builder/daedalus_runtime/approval.py:305-314 | An endpoint is bound to a name if and only if its bindings agree on that name, and ambiguous if and only if two of them differ. |
| ApprovalPolicy.FullNamesSplit | builder/daedalus_runtime/mcp.py:284-289 | Splitting a full name recovers server and tool if and only if the server followed by an underscore contains no separator. |
| ApprovalPolicy.TrailingUnderscoreRedirects | builder/mcp_approval_api.py:56-65 | A server name with a trailing underscore passes the guard, but its calls reach another server. |
| ApprovalDispatch.StepKeeps | builder/daedalus_runtime/approval.py:522-671 | Every step keeps the ledger: a spent credential is held by at most one call or one dispatch, and contexts match their credentials. |
| ApprovalDispatch.EachCredentialDispatchesOnce | builder/mcp_approval_api.py:83-95 | No two dispatches share a credential and none uses a live one, also for tools approved in advance. |
| ApprovalDispatch.ApprovedDispatchesWerePaidFor | builder/daedalus_runtime/approval.py:594-671 | A dispatch that is neither approved in advance nor a verified read was paid for by a credential of the same user, target and arguments. |
| ApprovalDispatch.ExemptDispatchesAreExposed | builder/daedalus_runtime/approval.py:546-571 | A dispatch without a credential of its own goes to a tool that its group exposes and that is approved in advance, or read-only without any sign of mutation (in terms of the target, whose meaning the next rows give). |
| ApprovalDispatch.ExemptDispatchesAreNamed | builder/daedalus_runtime/approval.py:546-571 | In every run, on the called tool and the lists as written: an exempt dispatch goes only to a tool for which no excluded name stands, or for which some included name does. |
| ApprovalDispatch.ExcludedToolsNeedApproval | builder/daedalus_runtime/approval.py:546-571 | A tool with the name of an exclusion, up to case and surrounding space, is never dispatched as exempt under a group without includes, unless it is called with its server's prefix. |
| ApprovalDispatch.VerifiedReadsAreInnocent | builder/daedalus_runtime/approval.py:355-378 | A call sent as a verified read is not marked destructive and mentions no mutation in its tool name or under the five argument keys. |
| ApprovalDispatch.ValidCallsAreSentExactly | builder/daedalus_runtime/approval.py:538-671 | A validated call is sent if and only if its tool is approved in advance, or is read-only and mentions no mutation, or its user holds a live credential of this user, server, tool and arguments or a context of exactly this call; otherwise it ends. |
| ApprovalDispatch.ApprovedChatCallsAreSent | builder/daedalus_runtime/approval.py:628-671 | A live credential pays for the chat call it was issued for: it is spent, and the call is sent once under the server and tool of its full name. |
| ApprovalDispatch.ApprovedRequestsAreSent | builder/mcp_approval_api.py:29-101 | A live credential pays for its direct execution, which is sent to the server and tool of the request. |
| ApprovalDispatch.DirectDispatchesWereRequested | builder/mcp_approval_api.py:36-66 | In every run a direct execution was requested by the same user with the same credential, through a text of its arguments with the stated hash, for a known server's operation that is neither `connect` nor read-only. |
| ApprovalDispatch.DirectDispatchesKeepTheirNames | builder/mcp_approval_api.py:56-65 | Even for tools approved in advance, a direct execution is sent to the server and tool of its credential unless the server's name ends in an underscore. |
| ApprovalDispatch.CredentialsAreConserved | builder/user_interaction/src/user_interaction/approval_tokens.py:235-253 | Paid dispatches and live credentials together never exceed the credentials issued. |
| ApprovalDispatch.ConsumptionIsFinal | builder/user_interaction/src/user_interaction/approval_tokens.py:236-253 | A consumed credential is never found again in any later run, on any replica. |
| ApprovalDispatch.PresentedCredentialsBurn | builder/daedalus_runtime/approval.py:594-671 | A chat call spends the credential it presents if and only if the policy requires an approval of it, whatever its target, arguments and evidence; otherwise it spends none. |
| ApprovalDispatch.ChecksConsumeNothing | builder/mcp_approval_api.py:68-82 | The execute route's first check leaves every credential live, and only a request that matches its credential goes on to consume it. |
| ApprovalDispatch.ConsumptionsBurn | builder/mcp_approval_api.py:83-95 | The execute route's consumption leaves the credential unusable in any case, and starts a call exactly if it still matched and there was room. |
| ApprovalDispatch.DroppedConsumptionsBurn | builder/mcp_approval_api.py:83-87 | A request that is dropped while its consumption is under way spends its credential exactly if that took effect. |
| ApprovalDispatch.EqualHashesMeanEqualArguments | builder/daedalus_runtime/approval.py:403-419 | With a collision-free digest two calls have the same hash if and only if their arguments are equal up to key order and the token field. |
| ApprovalDispatch.TextHoldsTheArguments | builder/mcp_approval_api.py:44-48 | A text with an approved hash parses to the approved arguments. |
| ApprovalDispatch.DirectCallsKeepTheirNames | builder/daedalus_runtime/executions.py:69-76 | A request whose server cannot blur the separator is sent under its own server and tool. |
| ApprovalDispatch.RedirectedCallsAreRefused | builder/daedalus_runtime/approval.py:594-605 | A redirected call is refused wherever an approval is required. |
| ApprovalDispatch.Executions.Start | builder/daedalus_runtime/executions.py:45-57 | Evicts exactly the finished records that are an hour old, refuses at 1024 records, and otherwise adds one running record. |
| ApprovalDispatch.Executions.Conclude | builder/daedalus_runtime/executions.py:77-97 | A record ends once: completed exactly on a confirmed outcome, cancelled exactly on an interruption. |
| McpConnections.StepKeeps | builder/daedalus_runtime/mcp.py:140-173 | Every step of calls, resets and the reaper keeps: locks match their holders, cached connections belong to their key and are not given up, and a call past its authorization uses the cached connection of its own headers. |
| McpConnections.OneCallAtATime | builder/daedalus_runtime/mcp.py:290-293 | No two calls of one server and user, nor a call and a reset or the reaper, are past the lock together, so a connection has at most one call in flight and is not dropped under it. |
| McpConnections.CallsUseTheirOwnConnection | builder/daedalus_runtime/mcp.py:284-335 | Every remote call goes over a connection of its own server and user, opened with the headers of its own authorization, and no call is sent twice. |
| McpConnections.StepSendsExactly | builder/daedalus_runtime/mcp.py:308-335 | A step sends a remote call exactly if it is the allowed answer to a call that waits for it on an open connection, and then sends that one call. |
| McpConnections.SendsWereReleased | builder/daedalus_runtime/mcp.py:308-335 | In every run, each remote call was released by the answer that its own checks passed, in the order of these answers. |
| McpConnections.RefusedCallsEnd | builder/daedalus_runtime/mcp.py:316-327 | A call that is not allowed sends nothing, ends and releases its lock, and leaves every connection as it was. |
| McpConnections.AllowedCallsAreSent | builder/daedalus_runtime/mcp.py:328-335 | A call that is allowed while its connection is open is sent once, over that connection. |
| McpConnections.UncontendedCallsComplete | builder/daedalus_runtime/mcp.py:140-173 | With a free lock an allowed call goes through and leaves the lock free; it reuses the cached connection exactly if the headers are the same and the transport is open, and otherwise opens and caches its own. |
| McpConnections.CallsEndAtCapacity | builder/daedalus_runtime/mcp.py:150-152 | At 256 cached connections a call that would open another ends without one and leaves its lock free. |
| McpConnections.UnauthorizedCallsEnd | builder/daedalus_runtime/mcp.py:290-292 | A call without headers opens and sends nothing and releases its lock. |
| McpConnections.CachedConnectionsAreSound | builder/daedalus_runtime/mcp.py:145-160 | In every run at most 256 connections are cached, each under its own key and none given up. |
| McpConnections.GivenUpConnectionsAreNotReused | builder/daedalus_runtime/mcp.py:336-352 | A connection that was given up carries no call in any later run. |
| McpConnections.FailedCallsGiveUpTheirConnection | builder/daedalus_runtime/mcp.py:336-352 | A remote call that fails or is interrupted gives its connection up. |
| McpConnections.FailedSessionsGiveUpTheirConnection | builder/daedalus_runtime/mcp.py:163-172 | A call whose session fails gives its connection up and sends nothing. |
| McpConnections.InterruptedCallsLetGo | builder/daedalus_runtime/mcp.py:165-168 | An interrupted call leaves no lock behind, sends nothing more, and gives its connection up exactly if it was waiting for the session or the result. |
| McpConnections.ResetsAreExclusive | builder/daedalus_runtime/mcp.py:370-397 | While a reset deletes the grant and drops connections no call of its servers is past its lock, and it leaves none of their connections cached. |
| McpConnections.ResetsTakeEveryLockFirst | builder/daedalus_runtime/mcp.py:379-390 | A reset takes one lock after the other, none that is held, and goes on to the deletion only under all of them. |
| McpConnections.FailedResetsDropNothing | builder/daedalus_runtime/mcp.py:379-392 | A reset is refused exactly where a lock is held, and ends where its grant is not deleted; either way it releases its locks and drops no connection. |
| McpConnections.ResetsDropTheirConnections | builder/daedalus_runtime/mcp.py:392-397 | After the deletion a reset drops the connection of each of its servers, and no other, and ends. |
| McpConnections.ReapKeeps | builder/daedalus_runtime/mcp.py:431-442 | The reaper takes the lock of an idle connection and drops it only if it is still the cached one, which keeps everything above. |
| McpConnections.ReaperDropsWhatItSaw | builder/daedalus_runtime/mcp.py:434-438 | The reaper drops the idle connection that it saw exactly if that is still the cached one, and no other. |
| McpConnections.MCPManager.Find | builder/daedalus_runtime/mcp.py:140-149 | Returns the cached connection exactly when its digest is current and its transport open, and drops it otherwise. |
| McpConnections.MCPManager.Open | builder/daedalus_runtime/mcp.py:150-160 | Opens and caches one connection, or refuses exactly at capacity. |
| RunAdmission.LimitsHold | builder/daedalus_runtime/service.py:262-279 | In every run there are at most 128 contexts and at most 256 tombstones, one for each run and user. |
| RunAdmission.RunsChangeExactly | builder/daedalus_runtime/service.py:262-279 | At every step a run comes exactly with a prepare that capacity, identity and tombstones allow, and goes exactly with a release by its own user or, at two hours of age, when a prepare finishes. |
| RunAdmission.RunsLast | builder/daedalus_runtime/service.py:263-265 | Until it is 7200 seconds old, a run survives every sequence of events without a release by its own user. |
| RunAdmission.PreparesBeginExactly | builder/daedalus_runtime/service.py:134-144 | A prepare of a named run goes on exactly if no unexpired tombstone names its run and user, and drops exactly the expired ones. |
| RunAdmission.ReleasesBury | builder/daedalus_runtime/service.py:578-584 | A release that finds no context leaves one tombstone of its run and user, for 180 seconds. |
| RunAdmission.ReleasedRunsStayGone | builder/daedalus_runtime/service.py:574-583 | A release that finds no context keeps every waiting or later prepare of that run and user from installing one, for 180 seconds and as many later releases as its tombstone has grace: 255, or for a renewed tombstone what its old place allows. |
| RunAdmission.RepeatedReleasesStayGone | builder/daedalus_runtime/service.py:580-583 | The same for a renewed tombstone: as many later releases as its slack in the table before, and 255 where it stood at the front of a full table. |
| RunAdmission.ReleaseLeavesGrace | builder/daedalus_runtime/service.py:578-584 | A release that finds no context leaves a tombstone of 180 seconds whose slack is exactly its grace. |
| RunAdmission.TombstonesLastExactly | builder/daedalus_runtime/service.py:578-584 | The tombstone survives every run of at most n releases within 180 seconds if and only if n is at most its grace. |
| RunAdmission.ReleasesProtectExactly | builder/daedalus_runtime/service.py:262-279 | With room for a run, a release keeps its run from being installed through every run of at most n releases within 180 seconds if and only if n is at most the grace. |
| RunAdmission.TombstonesFall | builder/daedalus_runtime/service.py:582-583 | One release more than its slack evicts a tombstone, however recently it was renewed. |
| RunAdmission.ReleaseOfALiveRunLeavesTheDoorOpen | builder/daedalus_runtime/service.py:570-586 | After a release of a live context, a second prepare of that run that waits on, however long and whatever else happens short of another release of the run, installs it if and only if capacity allows it, the run is not live and no older tombstone stands; and no tombstone arises meanwhile. |
| RunAdmission.ToolService.Check | builder/daedalus_runtime/service.py:134-144 | Drops expired tombstones and admits a prepare exactly when its run and user have none. |
| RunAdmission.ToolService.Install | builder/daedalus_runtime/service.py:262-279 | Installs a context exactly when capacity, identity and tombstones allow it, after dropping old contexts. |
| RunAdmission.ToolService.Release | builder/daedalus_runtime/service.py:570-586 | Hides other users' runs, removes a live context, or leaves a tombstone. |
| PngMetadata.ReadMetadata | builder/image_api.py:73-131 | The walk by offset stays in range, ends, and computes the recursive walk. |
| PngMetadata.AcceptedMeansWellFormed | builder/image_api.py:73-131 | A file gives some metadata if and only if it is the signature and chunks with one valid leading header and an empty end, which describe exactly that metadata. |
| PngMetadata.WellFormedFilesAreRead | builder/image_api.py:93-131 | Encoding well-formed chunks, followed by anything, and reading them recovers what they describe. |
| PngMetadata.PlainFilesAreRead | builder/image_api.py:93-131 | A header with given width, height and color type and an end chunk are read as just these, with alpha exactly for the color types 4 and 6. |
| PngMetadata.CheckMask | builder/image_api.py:134-160 | Accepts exactly a source and a mask of the same size with an alpha channel, and names the first fault otherwise. |
| TurnDocument.CompletedTurnDocument | builder/memory_api.py:147-177 | Ends within two rounds, refuses an empty user text, and returns the document of the final texts within 12000 characters. |
| TurnDocument.FinalTextsFit | builder/memory_api.py:167-177 | The final texts fit; the user's is a nonempty prefix that is shortened only when the assistant's is gone; nothing is cut from a document that fits. |
| TurnDocument.DocumentsHoldTheTexts | builder/memory_api.py:153-165 | The document holds the person's text under the role `user`, followed by a nonempty answer under the role `assistant`. |
| TurnDocument.CutsAreSmall | builder/memory_api.py:168-176 | Each text loses at most one character more than its document is too long, and none if that fits. |
| TurnDocument.ShorteningSuffices | builder/memory_api.py:168-176 | Each shortening makes the document fit, or leaves no assistant text and the user text untouched. |
| DifferentialRequests.NormalMeansReachable | builder/migration/differential.py:28-41 | Two inputs compare equal if and only if exchanges of adjacent tool outputs lead from one to the other. |
| DifferentialRequests.NormalIsSorted | builder/migration/differential.py:38-39 | The normal form sorts each run of adjacent outputs by their texts. |
| DifferentialRequests.GroupedMeansAlike | builder/migration/differential.py:24-43 | Two logs compare equal if and only if each conversation's requests agree in order up to such exchanges; interleaving does not matter. |
| DifferentialRequests.ConversationsJoin | builder/migration/differential.py:42 | The requests of a conversation are those of its user, in the order of the log. |
| DifferentialRequests.NormalizeInput | builder/migration/differential.py:31-41 | The loop over runs sorts each run of outputs and leaves every other item in place. |
| DifferentialRequests.RequestsByConversation | builder/migration/differential.py:24-43 | The loop groups the normalized requests by conversation in their order. |

## Left out

- Sockets, HTTP routing, Redis, Milvus, file locks and model providers: they appear as operations on maps and sets that may fail.
- Streaming states, steering, heartbeats, timeouts and session revalidation of a connection: they only close the socket, which is an event of the model.
- The fan-out of Redis messages to the connections of a user: it reads the subscriptions and changes none of them.
- A `close` call on a socket that throws and leaves it open: closing always ends the open state.
- Automatic resubscription of the Redis client after a lost connection: it belongs to the client library.
- Unicode: `strip`, `lower` and `casefold` work on ASCII letters and spaces; strings are sequences of characters.
- JSON numbers with fractions: the values are null, booleans, integers, strings, arrays and objects with unique keys.
- SHA-256, PKCE and random identifiers: the digest is a function that is collision-free where a lemma says so, and identifiers are fresh numbers.
- MigrationAudit.Validate: takes a record's own hash only from a string, because `append` always writes one; positions are converted as Python converts integers, truth values and ASCII texts.
- CollectionMigration.UserCollectionMigrationExecutor.Migrate: takes the outcome of the operator's authentication and the names of the two collections as parameters; schemas and indexes are their fingerprints.
- CollectionMigration.Run: assumes that nothing but the commands writes to the collections of an active migration, and that each command's target is no other user's collection.
- A log write that is cut exactly before its final newline: the record counts as written, and the next append is not modelled as joining its line.
- The regular expressions that sanitize the texts of a turn: the texts are taken as sanitized.
- The catalogue of remote tools and the check of arguments against a tool's own schema: a call that they refuse ends like any other refused call.
- The shutdown of the remote-tool manager, which closes all connections without their locks; the reaper's reconnection of static servers is a call of the model.
- `WeakValueDictionary`: a lock exists as long as somebody holds or awaits it.
- The capacity of 128 pending browser authorizations: the model follows one grant, for which a process has at most one.
- The creation of a pending approval and the decision of the person: a credential is issued by an event.
- Configuration files, inheritance between them and environment variables: a parsed group is the starting point.
- RunAdmission.ReleasedRunsStayGone: speaks of a release that finds no live context, because the source leaves no tombstone otherwise.
- Schema keywords that the contracts do not use, and annotations, which never affect validity.
