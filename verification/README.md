# A model of the sandbox MCP server, with proofs

The server gives every (user, session, group) one long-lived sandbox. Any number of
replicas create, reuse, end and reap sandboxes over one Redis and one sandbox platform,
and the code argues that its locks are only for efficiency: the order of its writes, the rule
that a routing key is never rebound to somebody else's sandbox, and the reaper keep it
right. This project states that argument over all runs and proves it, together with
the smaller cores of the server that have hard properties of their own.

## How it is laid out

- `Protocol.dfy` is the lifecycle protocol as a transition system: one process per call of
  `get_or_create`, `end_session` or `reap_orphans`, one step per `await`, and an environment
  that lets time pass, loses Redis data, makes Redis requests fail before or after they
  were applied, loses or finishes sandboxes late, cancels calls and kills replicas.
  `Assumption` lists the conditions on the environment or on timing that a property may
  rest on; a run (`IsRun`) names the ones it respects, and all timeouts are symbolic.
- `Moves.dfy` sums the program text up. `Isolation`, `WriteOrder`, `ReaperSafety`,
  `SessionWindow`, `Exclusion`, `Completion`, `Bootstrap`, `Breadcrumb`, `SingleFlight` and
  `Reaping` prove the properties of runs; `Mishaps.dfy` is three runs in which one of them fails for want of its condition.
- `Solo.dfy` is what one process may do next. With it `Manager.dfy` is one replica as an
  object that updates its stores in place: `Valid()` says that the stores are those of a
  state the protocol reaches by the events of the object's log, so every theorem about runs
  holds of the object; the methods are also tied to a function of the old stores (`Call`,
  `EndOne`, `Pass`).
- `LeaderElection.dfy` is the reaper loop with its lease, `TokenLease.dfy` the lease itself,
  `LockOrder.dfy` the lock table and who waits for whom.
- `Naming.dfy` and `Keyspace.dfy` are the names in Redis and the store they share;
  `Caches.dfy`, `Sessions.dfy` and `Resolver.dfy` the typed views and the session resolver;
  `GroupGate.dfy` the cached group check.
- `Utf8.dfy` and `OutputCaps.dfy` are the two output caps, `Shell.dfy` and `ShellWrap.dfy` the
  wrapping of a command, `Redaction.dfy` the masking of secrets.

Terms: a key is *bound* to a sandbox when a Redis `GET` of its routing key would answer that
sandbox now; a call is *inside* the critical section from the lookup to the release of the
Redis lock; a sandbox is *findable* when it is live and indexed; a *stray* is a sandbox the
platform finished after its creator had given up.

Sandbox ids are fresh, as the platform makes them. Where Redis names have to be distinct, oids are
free of colons; `ColonsWouldCollide` shows what happens otherwise. The names of the two sandbox groups
may be any text: `CollidesIff` and `DeadlocksIffTangled` say exactly which of them do harm.

## Model

| member | source | states |
|---|---|---|
| Isolation.NeverRebind | src/mcp-server/sandbox_manager.py:278-339 | in every run, with no assumption at all, a bound key leads to a sandbox created for that key, a call returns only such a sandbox, every command ran in one, and no later step changes that |
| Isolation.RunKeepsInv | src/mcp-server/sandbox_manager.py:225-228 | the invariant behind it holds after every run: routing keys, index entries, processes and past commands only name sandboxes created for the key they go with |
| WriteOrder.RunKeepsOrdered | src/mcp-server/sandbox_manager.py:311-323 | in every run, bound and indexed sandboxes are past their routing-key write, a sandbox before that write is held by its creator alone, and a binding expires one session window after its last write |
| ReaperSafety.UnboundStays | src/mcp-server/cache.py:133-145 | while the sliding reads of its key refresh only what is still bound (`AtomicSlide`), a sandbox past its first binding that is unbound stays unbound, whatever step comes next |
| ReaperSafety.RevivedIff | src/mcp-server/cache.py:133-138 | without that condition, the steps that bind an unbound sandbox again are exactly the write-backs of a sliding read that found it earlier |
| ReaperSafety.ReapedIsNeverHanded | src/mcp-server/sandbox_manager.py:626-640 | in runs in which the sliding reads of the key refresh only what is still bound (`AtomicSlide`), a sandbox the reaper has peeked at and is about to delete is never held by a call that starts from then on |
| ReaperSafety.OnlyPeekDooms | src/mcp-server/sandbox_manager.py:627-635 | the only step that leads to a delete by the reaper is a peek that finds the routing key not leading to that sandbox |
| SessionWindow.NoEarlyReap | src/mcp-server/sandbox_manager.py:290-305 | while calls on the key exclude each other, no failed read lets a call create beside a live bound sandbox, a sliding read refreshes only what is still bound, and Redis does not lose the routing key: a live sandbox about to be reaped that was ever bound belongs to the key and was last written to it a whole session window ago, or its key was deleted; any write may fail, applied or not |
| SessionWindow.NoEarlyReapOfAny | src/mcp-server/sandbox_manager.py:315-323 | if first bindings land as well, that holds of every live sandbox about to be reaped |
| SessionWindow.SettledIffAnswered | src/mcp-server/sandbox_manager.py:290-292 | why reads have to answer there: while calls exclude each other, a step breaks what calls know of the key exactly when a failed read lets a call go on to create beside a live bound sandbox; nothing is asked of writes |
| SessionWindow.AccountedIffKept | src/mcp-server/sandbox_manager.py:627-635 | why Redis has to keep the routing key there: a loss of data leaves a sandbox unaccounted for exactly when the routing key is lost while it leads to a live sandbox nobody unbound before |
| SessionWindow.SetupIsNeverReaped | src/mcp-server/sandbox_manager.py:311-330 | while calls on the key exclude each other, the first binding of its sandboxes lands and Redis does not lose it, nobody ends its session and setups fit into the session window, no reaper is ever about to delete a sandbox whose creating call has not bound, indexed and bootstrapped it yet; a sliding read need not be one step and other writes may be lost |
| Exclusion.LockedRunsExclude | src/mcp-server/sandbox_manager.py:220-256 | a run in which the locks of a key do their work (its calls on one replica, or its Redis lock acquired and outliving the section) is a run in which calls on the key exclude each other, whatever the locks of other keys do |
| Completion.RedisFailsNoCall | src/mcp-server/sandbox_manager.py:220-256 | from any reachable state in which a call starts, whatever Redis loses, refuses or answers late: if the platform answers the calls on the key and nobody is cancelled or killed, the call returns a client and its command runs, in a sandbox created for its key |
| Completion.CallsAreShort | src/mcp-server/sandbox_manager.py:278-339 | no call takes more than fifteen steps, whatever goes wrong |
| Completion.FinishesAlone | src/mcp-server/sandbox_manager.py:278-339 | a call that can have its local lock, or has passed it, and has not failed can get itself served by its own steps alone, whoever has the Redis lock |
| Completion.LocksComeBack | src/mcp-server/sandbox_manager.py:248-256 | in every run a local lock that is taken is that of an unfinished call that has it; and if no Redis lock of the key is granted unheard, releases of it are applied and no caller dies, a running Redis lock is that of a call inside the section, so both are free when no call on the key is unfinished |
| SingleFlight.OneSandboxPerWindow | src/mcp-server/sandbox_manager.py:289-330 | from any reachable state in which nobody calls on the key, however its locks did before: while the locks of the key do their work, any calls on it on any replicas inside one window, without failures of those calls, create at most one sandbox, none if one was bound, and all return the same one |
| Bootstrap.BootstrappedOnReturn | src/mcp-server/sandbox_manager.py:324-339 | while calls on the key exclude each other and nobody abandons a setup of the key, every client a call returns is bootstrapped, by hit or miss, after any failures, cancellations and crashes; and whenever nobody is inside the section the bound sandbox is bootstrapped |
| Bootstrap.SoundIffNotAbandoned | src/mcp-server/sandbox_manager.py:331-339 | the exact condition: a step breaks the invariant behind it if and only if it abandons a setup (a setter cancelled unless its rollback goes through, a creator cancelled as its binding lands, a lost rollback, the death of a setter) |
| Mishaps.UnbootstrappedClient | src/mcp-server/sandbox_manager.py:324-339 | a run of one replica from the empty system, with the Redis lock on or off: one cancellation during a bootstrap, and the next call returns a client that is not bootstrapped |
| Breadcrumb.NoLostBreadcrumb | src/mcp-server/sandbox_manager.py:315-339 | while index entries of the key land and Redis does not lose them, and an end of its session cleans up only after sandboxes that are gone, every live sandbox of the key past its index write is indexed under the key, and nobody is about to drop the entry; other writes may be lost |
| Breadcrumb.CleansUpLiveIff | src/mcp-server/sandbox_manager.py:555-564 | the exact condition: a process comes to clean up after a live sandbox if and only if it is an `end_session` whose delete raised or was cancelled without taking effect |
| Mishaps.LostTrail | src/mcp-server/sandbox_manager.py:555-564 | a run of one replica from the empty system in which one cancelled delete leaves a live sandbox without its index entry |
| Breadcrumb.StrayIsNeverReclaimed | src/mcp-server/sandbox_manager.py:307-310 | the comment there does not hold: a stray is never indexed, bound, held or deleted by any process, in any run |
| Mishaps.StrayOutlivesPass | src/mcp-server/sandbox_manager.py:307-310 | a run of one replica from the empty system: a call gives up on a creation, the platform carries it through, and an error-free pass over the group, with nobody calling, is shown the sandbox and leaves it live |
| Reaping.PassLeavesAtMostOne | src/mcp-server/sandbox_manager.py:613-642 | from any reachable state, an error-free pass during which nobody calls on the key leaves at most one findable sandbox of it, the one bound when the pass began |
| Reaping.IdleIsReclaimed | src/mcp-server/sandbox_manager.py:613-642 | if nobody calls on a key for a session window, an error-free pass leaves no findable sandbox of it |
| LeaderElection.ResignSparesOthers | src/mcp-server/sandbox_manager.py:605-611 | the compare-and-delete of a resigning replica, however late, removes only a lease which that replica took in the pass it resigns from; leases of replicas that died or never heard they won stay |
| LeaderElection.ResignGivesBack | src/mcp-server/sandbox_manager.py:605-611 | a resign that reaches Redis gives the lease back: no lease of that pass ever runs again, and if it ran until then any sleeping replica can win at once |
| LeaderElection.LeasesEndWithPasses | src/mcp-server/sandbox_manager.py:566-585 | if every resign reaches Redis, no replica dies and no election is applied unheard, a running lease is always that of a replica in its pass or about to resign, so while there is none no election is lost |
| LeaderElection.SitsOutIff | src/mcp-server/sandbox_manager.py:586-603 | a replica sits its turn out exactly when elections are on, Redis answers and a lease is running; otherwise, an unreachable Redis included, it begins a pass |
| TokenLease.LeaseLife | src/mcp-server/sandbox_manager.py:43-48 | a lease runs for its length exactly, its holder can end it before, and nobody else can |
| LeaderElection.OneReaperAtATime | src/mcp-server/sandbox_manager.py:572-603 | with elections on, Redis reachable and passes shorter than the lease, at most one replica is inside a pass |
| LeaderElection.SuccessionIsPrompt | src/mcp-server/sandbox_manager.py:586-603 | an election is lost only to a win within the last lease length, so a leader that died is succeeded by the next replica to ask after that |
| LockOrder.NoDeadlock | src/mcp-server/sandbox_manager.py:282-289 | unless the names of the groups are tangled, in no reachable state is there a circle of waiting calls; if no lock of a group can be a routing key, no chain of waits is longer than three, and otherwise none is longer than five |
| LockOrder.DeadlocksIffTangled | src/mcp-server/sandbox_manager.py:282-289 | calls can come to wait in a circle if and only if the name of a group ends in a colon and its own kind (`:diagnose`, `:action`), or each of the two names in the other's |
| LockOrder.PlainNamesApart | src/mcp-server/sandbox_manager.py:405-415 | with colon-free group names no lock of a group can be a routing key, so none of this happens |
| LockOrder.SomebodyMoves | src/mcp-server/sandbox_manager.py:405-415 | from every unfinished call the waits lead to an unfinished call that no unfinished call keeps waiting |
| LockOrder.UnblockedMoves | src/mcp-server/sandbox_manager.py:229-235 | such a call has a next step: at once, or, if the Redis lock it wants was left behind by a finished call, as soon as that has expired |
| LockOrder.NobodyIsStuck | src/mcp-server/sandbox_manager.py:229-235 | unless the names are tangled, every reachable state leads on to one in which every call is finished and no local lock is taken |
| LockOrder.FinishesAlone | src/mcp-server/sandbox_manager.py:213-256 | a call that waits for no local lock can run to its end by its own steps alone, and then holds none |
| LockOrder.OneHolder | src/mcp-server/sandbox_manager.py:213-218 | two calls of one replica never hold the same local lock |
| LockOrder.WaitsClimb | src/mcp-server/sandbox_manager.py:442-447 | unless the names are tangled, every wait leads from a lock to one that is taken later: local key lock, Redis lock, group lock, and the locks of a group whose routing keys can be locks of the other after those of the other |
| LockOrder.ColonInAGroupName | src/mcp-server/sandbox_manager.py:405-415 | for every group name that ends in a colon and its own kind, with the Redis lock on or off, a run in which a call waits for itself |
| LockOrder.ColonsInBothNames | src/mcp-server/sandbox_manager.py:405-415 | where each name ends in the other's kind, a run in which two calls wait for one another |
| Naming.LockNamesNeverCollide | src/mcp-server/sandbox_manager.py:282-289 | for any oid and session a routing key is never the name of a volume or disk-image lock of a group with a colon-free name |
| Naming.CollidesIff | src/mcp-server/sandbox_manager.py:282-289 | the exact condition: some routing key of a kind is the name of the volume lock, and some that of the disk-image lock, of a sandbox group just if the group's name ends in a colon and that kind |
| Naming.RouteTextSame | src/mcp-server/sandbox_manager.py:282-282 | two routing keys read the same exactly when their groups and their joined oid and session do |
| Naming.RouteTextInjective | src/mcp-server/cache.py:129-131 | with colon-free oids a routing key determines oid, session and group, colons in the session or not |
| Naming.ColonsWouldCollide | src/mcp-server/cache.py:129-131 | a colon in an oid lets two users share a routing key |
| Naming.RenderInjective | src/mcp-server/cache.py:59-60 | the names of all views, the index, the locks and the lease are pairwise distinct texts |
| Keyspace.ViewsAreIndependent | src/mcp-server/cache.py:59-74 | any view gets, for any interleaving of commands of all views at any times, the answers it would get from a map of its own |
| Keyspace.ReadUndisturbed | src/mcp-server/cache.py:59-74 | no command on another name changes what a read answers |
| Keyspace.WritesAreRead | src/mcp-server/cache.py:62-74 | a stored value is read until its lifetime is over, a deleted one is not |
| Keyspace.LockCommands | src/mcp-server/sandbox_manager.py:43-48 | `SET NX EX` succeeds exactly when nothing is read under the key and is then read for the lease; the compare-and-delete succeeds exactly when its own value is read, and nothing is read after it; neither does anything else |
| Caches.RedisBackend.Get | src/mcp-server/cache.py:62-64 | answers the value under the prefixed key while it has not expired |
| Caches.RedisBackend.Set | src/mcp-server/cache.py:66-71 | one Redis `SET` with the backend's lifetime, restarting it |
| Caches.RedisBackend.Delete | src/mcp-server/cache.py:73-74 | one Redis `DEL`, nothing else |
| Caches.SessionSandboxCache.Get | src/mcp-server/cache.py:133-138 | answers what is bound, and if something is, restarts its lifetime and changes nothing else |
| Caches.SessionSandboxCache.Peek | src/mcp-server/cache.py:140-142 | answers the same and changes nothing |
| Caches.SessionSandboxCache.Set | src/mcp-server/cache.py:144-145 | binds the key for one lifetime and changes nothing else |
| Caches.SessionSandboxCache.Delete | src/mcp-server/cache.py:147-148 | unbinds the key and changes nothing else |
| Caches.SessionSandboxCache.IsBootstrapped | src/mcp-server/cache.py:150-151 | true exactly when the flag of the sandbox is stored and has not expired |
| Caches.SessionSandboxCache.MarkBootstrapped | src/mcp-server/cache.py:153-154 | stores the flag of the sandbox for one lifetime and changes nothing else |
| Caches.UserSessionCache.Get | src/mcp-server/cache.py:186-190 | answers the user's session and, on a hit, restarts its lifetime |
| Caches.UserSessionCache.Set | src/mcp-server/cache.py:192-193 | stores the user's session for one lifetime and changes nothing else |
| Manager.NextCallReuses | src/mcp-server/sandbox_manager.py:290-305 | a call that returned a client and bound it is followed, within the window, by calls that return the same client, create nothing and restart the window |
| Manager.CallSucceedsIff | src/mcp-server/sandbox_manager.py:289-339 | the client of a call, exactly: a live bound sandbox that is read and refreshed without error and wakes, or, where none comes out of the read or the one that does is gone, the new sandbox, if it is created and boots or was flagged; it is live |
| Manager.CreationLeaves | src/mcp-server/sandbox_manager.py:311-339 | what a call that creates leaves: the sandbox live, its index entry and flag if those were applied, and its binding for one window if that was applied, unless the bootstrap failed and the rollback was applied |
| Manager.NoCreationLeaves | src/mcp-server/sandbox_manager.py:290-305 | what any other call leaves: only the binding of its key can change, restarted if it was read and that was applied, gone if its sandbox was gone and the reset was applied |
| Manager.FailureLeavesBreadcrumb | src/mcp-server/sandbox_manager.py:331-339 | a failed bootstrap that is rolled back keeps the sandbox and its index entry, and the next call misses and creates |
| Manager.CallLeavesOthersAlone | src/mcp-server/sandbox_manager.py:278-339 | a call changes no other key's binding and no other sandbox's index entry, flag or life |
| Manager.EndLosesTrailIff | src/mcp-server/sandbox_manager.py:549-564 | ending a session leaves a live sandbox without an index entry exactly when the delete raises or is cancelled without taking effect, and the clean-up reaches the index |
| Manager.EndMeans | src/mcp-server/sandbox_manager.py:549-564 | ending a group: the sandbox found bound goes unless the delete had no effect, the key unless the unbind was not applied, the index entry exactly if the unbind answered and the drop was applied, nothing else; it raises exactly if one of the four requests did |
| Manager.SessionEnds | src/mcp-server/sandbox_manager.py:549-564 | an end of both groups that does not raise leaves neither key bound, and neither sandbox that was bound live or indexed |
| Manager.CalmPassRemovesOrphans | src/mcp-server/sandbox_manager.py:613-642 | a pass without errors removes exactly the orphans of the list, in any order and with repetitions |
| Manager.PassSparesBound | src/mcp-server/sandbox_manager.py:626-635 | whatever fails, a pass removes no sandbox its routing key leads to, nor its index entry |
| Manager.PassRemovesIff | src/mcp-server/sandbox_manager.py:621-642 | whatever goes wrong, a live sandbox goes exactly if the pass gets to it, finds it an orphan and its delete takes effect, its index entry exactly if that delete also answered and the drop took effect; and the pass is clean exactly if no visit raises |
| Manager.GroupsDoNotInterfere | src/mcp-server/sandbox_manager.py:621-642 | a failed listing and errors in one group leave what happens to the sandboxes of the other as it would be without it |
| Manager.CalmPassIsClean | src/mcp-server/sandbox_manager.py:621-642 | an error-free pass over both groups removes exactly the orphans and leaves at most one findable sandbox per key |
| Manager.SandboxManager.SlidingGet | src/mcp-server/sandbox_manager.py:290-292 | the guarded sliding read: what it answers and the new stores, an error in either half reading as a miss |
| Manager.SandboxManager.Reuse | src/mcp-server/sandbox_manager.py:293-305 | the client if the sandbox is running, an error if waking it fails, and a reset binding if it is gone |
| Manager.SandboxManager.CreateSandbox | src/mcp-server/sandbox_manager.py:311-339 | creation, binding, indexing, bootstrap, and rollback: the client and the new stores |
| Manager.SandboxManager.GetOrCreate | src/mcp-server/sandbox_manager.py:278-339 | the client and the new stores are those of `Call`, and a run of the protocol that extends the earlier one leads to them |
| Manager.SandboxManager.Exec | src/mcp-server/sandbox_manager.py:533-546 | a command runs, and may have run when it raises, only in a sandbox that belongs to its key and, if rollbacks are applied, is bootstrapped |
| Manager.SandboxManager.EndSession | src/mcp-server/sandbox_manager.py:549-564 | both groups in turn, the second only if the first did not raise; if none raises, neither key is bound any more and neither sandbox is live or indexed; the keys go even when the delete raises or is cancelled |
| Manager.SandboxManager.ReapOrphans | src/mcp-server/sandbox_manager.py:613-642 | one pass over both groups, an error in one not stopping the other; without errors it removes exactly the orphans and leaves one sandbox per key |
| Sessions.MintsDiffer | src/mcp-server/session.py:56-57 | ids minted a second or more apart differ, whatever the transport ids |
| Sessions.MintTells | src/mcp-server/session.py:55-57 | ids minted with transport ids are equal exactly when those and the seconds are, and begin with the transport id |
| Sessions.BaseSkipsDashes | src/mcp-server/session.py:55-57 | without a transport id dashes in the oid do not matter, and its first twelve other characters do |
| Sessions.IdsFollowGaps | src/mcp-server/session.py:48-59 | every call gets the id minted by the last call that came a whole window after its predecessor |
| Sessions.SameSessionIffNoGap | src/mcp-server/session.py:48-59 | two calls of a user get the same session id exactly when no gap between them is a window or longer |
| Resolver.SessionResolver.Resolve | src/mcp-server/session.py:38-59 | the session, the conversation and the new store, as one step of the sliding window of `Sessions` |
| Resolver.WrittenIsHeld | src/mcp-server/session.py:50-58 | what one call of a user stores is what the next one finds |
| GroupGate.AllowedWasMember | src/mcp-server/main.py:111-149 | a check that allows rests on Graph having answered "member", truly at that instant, less than one lifetime plus one round trip before |
| GroupGate.DecidesByAnAnswer | src/mcp-server/main.py:111-149 | the exact form, where no token exchange fails: a check allows if and only if the group is in an answer for the user, true at its instant, less than one lifetime plus one round trip old |
| GroupGate.AskingCheckDecides | src/mcp-server/main.py:123-147 | a check that asked Graph decides, whatever happens meanwhile, by what the directory said of its user when Graph looked, decides nothing else, and leaves that answer to the checks after it |
| GroupGate.AnswersWereTrue | src/mcp-server/main.py:129-136 | each answer in the history is what the directory said at the instant it is dated |
| GroupGate.LifetimeAloneBoundsIffInstant | src/mcp-server/main.py:105-105 | the comment there, that the lifetime alone bounds how long a revoked user stays allowed, holds of all runs exactly when answers take no time |
| GroupGate.SlowAnswerRuns | src/mcp-server/main.py:105-105 | the run that breaks it, for every lifetime and every round trip above zero |
| Utf8.DecodeAfterEncode | src/worker/worker.py:48-51 | decoding undoes encoding for text without lone surrogates, and leaves what follows to be decoded by itself |
| Utf8.DamageIsMarked | src/worker/worker.py:48-51 | a torn character and a byte that begins none read as one U+FFFD each, and what follows is decoded as if it stood alone |
| OutputCaps.CapsAgreeIff | src/mcp-server/sandbox_manager.py:60-64 | the two caps agree on a text and its encoding exactly when the text is cut or has no lone surrogate |
| OutputCaps.TruncationIsAPrefix | src/worker/worker.py:48-51 | a cut output is the most whole characters that fit plus one U+FFFD exactly when a character was torn, at most two bytes over the limit |
| OutputCaps.FittingIsGreatest | src/mcp-server/sandbox_manager.py:60-64 | the number of whole characters kept is the greatest that fits, for any text |
| OutputCaps.BackendsReportTheSame | src/mcp-server/sandbox_manager.py:533-546 | both executors report the same texts, hint and flag for a command whose output can be encoded, and rightly |
| OutputCaps.ExecutorsAgree | src/worker/worker.py:81-90 | and so do any two executors that keep to the contracts of `SandboxExec` and `WorkerExec` |
| OutputCaps.SandboxExec | src/mcp-server/sandbox_manager.py:536-546 | the report says truly whether a stream was cut; each stream is left as it is or as the most whole characters that fit plus one U+FFFD for a torn one, at most two bytes over the limit; the hint follows the standard output exactly when something was cut |
| OutputCaps.WorkerExec | src/worker/worker.py:81-90 | on bytes that encode two texts, the same report as for the texts; on any bytes, the truth about what was cut and at most three times the limit |
| OutputCaps.OneReport | src/mcp-server/sandbox_manager.py:536-546 | only one report fits that description |
| Shell.QuoteReads | src/mcp-server/sandbox_manager.py:516-517 | a shell reads a quoted text back as exactly that text, for every text |
| Shell.PrefixedQuoteReads | src/mcp-server/sandbox_manager.py:530-531 | the same after unquoted safe characters in one word |
| Shell.QuotesIff | src/mcp-server/sandbox_manager.py:516-517 | exactly the non-empty texts of safe characters are left without quotes |
| ShellWrap.ScopeReads | src/mcp-server/sandbox_manager.py:504-517 | read by a shell, `mkdir -p` and `cd` get exactly the workspace path, joined by `&&`, and the user's command follows the brace untouched |
| ShellWrap.WrapReads | src/mcp-server/sandbox_manager.py:519-531 | read by a shell, `export` gives the variable exactly the user agent and the scoped command follows on the next line |
| ShellWrap.CommandIsKept | src/mcp-server/sandbox_manager.py:504-531 | the user's command is in the wrapped one unchanged, and nothing is put around it exactly when there is neither a workspace nor a correlation id |
| ShellWrap.UserAgentTells | src/mcp-server/audit.py:36-46 | the user agent begins with the correlation id, and two are equal exactly when the correlation ids are and, if oids are stamped, the oids |
| ShellWrap.WorkspaceIsMounted | src/mcp-server/sandbox_manager.py:126-126 | the workspace lies under the mount point without its trailing slashes, or under the default if nothing else is left |
| ShellWrap.SameWorkspaceIff | src/mcp-server/blob.py:28-37 | with slash-free ids two calls share a workspace exactly when their three ids, absent ones read as the defaults, are the same |
| Redaction.HitsAreLeftmost | src/mcp-server/redact.py:82-82 | the hits of a pass follow one another, match where they stand, and cover every place where the rule matches |
| Redaction.LeftmostIsUnique | src/mcp-server/redact.py:82-82 | no other list of places does |
| Redaction.Pieces | src/mcp-server/redact.py:75-83 | gaps and matches joined give the text back, and there are as many secrets among them as hits |
| Redaction.PiecesFollowHits | src/mcp-server/redact.py:78-82 | the pieces are the text cut at exactly those hits, each split into the part kept and the part masked |
| Redaction.Substitute | src/mcp-server/redact.py:78-82 | the loop returns the same pieces with masks for the secrets, and their number |
| Redaction.MaskLast | src/mcp-server/redact.py:78-82 | what masking does to a hit: everything up to its kept label stays as the hits before it left it, the mask takes the place of the secret, and what follows is untouched |
| Redaction.RedactText | src/mcp-server/redact.py:75-83 | there are texts from the input to the result such that from each to the next exactly the leftmost non-overlapping matches of the rule are masked, and the hits are their number in all; with the storage-key rule last no storage key is left |
| Redaction.CleanTextIsKept | src/mcp-server/redact.py:100-104 | without hits the text is unchanged |
| Redaction.RedactResult | src/mcp-server/redact.py:86-104 | both streams are what the rules make of them in that sense, everything else is kept |
| Redaction.StorageKeyPass | src/mcp-server/redact.py:58-58 | after the storage-key pass no storage key is left, so a second pass finds and changes nothing, and a text without any is left as it is |

## Left out

- The platform's own delays and failures inside `_create_sandbox` (idle auto-delete policy, disk choice, labels): a creation is one step that succeeds, fails, or succeeds after its caller has given up.
- A cancelled bootstrap counts as not done even if the platform finishes it, and a creation that outlives its caller is a stray; every other request may be applied although its caller was cancelled or told of an error.
- A delete the platform has accepted counts as done; sandboxes that disappear by themselves are an event of the environment.
- Starvation: steps may be taken in any order, and nothing says that a waiting call is ever scheduled.
- Whether `_ensure_volume` and `_ensure_disk_image` do their work once per group; only their locks are modelled.
- A manager without a reverse index or without Redis; the model always has both, and Redis may fail at any step.
- `InMemoryBackend` as a class: it behaves like the Redis backend while fewer than its maximum of keys are live. In `GroupGate` its evictions are events.
- Redis and lock library internals; a Redis lock is a token set if absent with an expiry and released by comparing tokens.
- `GroupCache` and `UserProfileCache` as classes; `Keyspace` covers their names, `GroupGate` the group cache's lifetime.
- Exec in the remote worker, audit records, the HTTP and identity layers, `mcpproxy.py`, deployment scripts and the demo pages.
- An absent oid or session reads "None" in a routing key, so it shares the key of a user or session of that literal name; keys are modelled as rendered.
- Manager.SandboxManager.GetOrCreate: one call at a time, not cancelled, and no time passing within a call, on a replica with the distributed lock off; what interleaves is the subject of the modules about runs, and time passes between calls.
- Manager.SandboxManager.ReapOrphans: both listings are those of the moment the pass begins, since nothing else runs during it.
- Breadcrumb.NoLostBreadcrumb: assumes that an end of the session cleans up only after sandboxes that are gone, because the code cleans up in a `finally`, also when the delete raised or was cancelled; `Breadcrumb.CleansUpLiveIff` and `Manager.EndLosesTrailIff` say exactly when that loses the trail.
- Reaping.PassLeavesAtMostOne: counts indexed sandboxes only, because the reaper skips the others; `Breadcrumb.StrayIsNeverReclaimed` shows they stay, and `Mishaps.StrayOutlivesPass` is a run in which one does.
- SessionWindow.NoEarlyReap: takes the sliding read as one step, because the code does not make it one; `ReaperSafety.RevivedIff` says exactly what the two steps allow. It takes reads of the key to answer while a live sandbox is bound, because the code takes a failed read for a miss; `SessionWindow.SettledIffAnswered` says exactly what that does. And it takes Redis to keep the routing key, because a key that is lost reads like one that lapsed; `SessionWindow.AccountedIffKept` says exactly when that matters.
- SessionWindow.NoEarlyReapOfAny: takes the first binding to land, because the code goes on to the index write when it is lost, and the reaper then finds a sandbox no routing key ever led to.
- ReaperSafety.ReapedIsNeverHanded: takes the sliding read as one step, for the same reason.
- Bootstrap.BootstrappedOnReturn: assumes that nobody abandons a setup, because cancellation bypasses the rollback of the code and a rollback may be lost; `Bootstrap.SoundIffNotAbandoned` says exactly which steps do harm and `Mishaps.UnbootstrappedClient` shows what follows.
- Completion.RedisFailsNoCall: takes the platform to answer the calls on the key, because an error of the platform, a cancellation or the death of the replica is meant to fail a call.
- LeaderElection.LeasesEndWithPasses: takes resigns to reach Redis and replicas not to die, because otherwise the lease stays until it expires; `LeaderElection.SuccessionIsPrompt` says that this is all the harm done.
- GroupGate.DecidesByAnAnswer: takes token exchanges to succeed, because the code reads a failed one as membership in no group, without asking.
- Exclusion.LockedRunsExclude: takes it as given that a critical section ends before its Redis lock expires; the default creation timeout equals the default lock wait, so the settings alone do not give an order between them.
- LockOrder.NoDeadlock: speaks of circles of waits as they arise; that the creation timeout ends a wait for a group lock at last is among the steps (`DropGroup`), not used.
- Shell.QuoteReads: an expansion outside quotes has no reading, and neither characters a shell cannot be handed (NUL) nor what the user's own command does are modelled.
- Redaction.Substitute: what each of the other thirteen rules matches is a parameter, because it turns on Unicode character classes and case folding; they are only taken to match no empty text and to keep a prefix of the match.
- Idempotence of the whole redaction: a later rule can uncover a match of an earlier one, so it is not claimed.
