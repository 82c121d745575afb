# Verified models of NOOA's stateful pieces

These Dafny modules model the parts of the repository that carry protocols,
transactions, folds and round trips, and prove what those parts are for. Run
`dafny verify dfyconfig.toml` in this directory to check everything.

| module | models |
|---|---|
| `ScopeStacks`, `ScopeRuns` | the NeMo Relay scope stacks under concurrent tasks: the middleware and its steps, and whole runs over all interleavings |
| `LayeredConfig`, `LayeredLoad` | layered YAML: the laws of the deep merge, the deduplicated path chain, and the in-place algorithms on mutable dictionaries |
| `Secrets`, `SecretRuns`, `SecretsStore`, `SecretLock` | saving an API key: file contents, the runs of one write and of the key-and-model transaction while other programs, failures and interrupts act between their steps, the store they change in place, and cooperating writers under the lock |
| `PlainJson` | the bounded walk over possibly shared and cyclic values |
| `TurnProtocol`, `Harness` | the two-process turn protocol, and the harness loop with its step accounts |
| `Rhae`, `EventTail` | live score bounds, and the incremental tailer against the whole-file fold |
| `Turns` | frozen JSON, the public projection of assistant turns, edits, and recovery of turns from a public list |
| `Exporters`, `TurnTimes` | the two span exporters: numbering in lockstep, message files, and code time attributed to rounds |

A concurrent piece is a state type, an `Enabled` predicate and a `Step`
function; a theorem about it speaks of every legal sequence of events. An
imperative piece is a class or method whose contract ties its fields to a
specification function, and the laws are lemmas about that function. Where a
promise of the code does not hold on all inputs, the model keeps the code as it
is, and a lemma gives the exact condition, a counterexample, or both.

What the proofs say that the code's own documentation does not:

- No run has a rejected pop if and only if no exit crosses another task's call,
  that is, leaves while another task still has open a call that it pushed later
  on the same stack (`NoRejectionIff`). Agent calls under one relay scope, or
  under none, never do (`CallsAreDisciplined`). `nemo_relay_scope` pushes on the
  inherited stack without isolating it, so scopes that tasks open on one stack
  can: whether a pop is rejected then depends on the order of the exits
  (`ParentFirstIsRejected`, `ChildFirstIsAccepted`).
- `_write_secret_env` reads the secrets file twice before it compares. A file
  that a program without the lock replaces and puts back between the two reads
  passes the comparison (`ChangedAndRestoredIsMissed`, `WriteKeepsOthersIff`).
  Likewise `new_secret_env` restores what it read before the write read the file
  again, which is what the write replaced exactly when no foreign write that
  differs fell in between.
- An interrupt that leaves `new_secret_env` does not always mean that the key was
  rolled back. One that arrives while the handler takes its guard or asks its
  question leaves the key in place (`TransactionSettles`); when nothing else interferes,
  an interrupted call leaves the file as it was exactly when the block itself was
  interrupted, the guard was taken and the answer was no (`CalmTransaction`).
- The token totals of the viewer are not always those of its models: a model call
  with a field that is not a number raises after its totals were counted. The
  difference is exactly what such calls had added (`FoldGap`, `FoldBalancedIff`).
- The unread backlog of the turn protocol is not only bounded by nudges and
  forced advances: it never exceeds three, and three is reached.
- The upper live score bound holds for later levels at par or below; a level
  above par beats it exactly when the optimistic sum stays below the full weight
  (`AboveParBeatsUpperIff`).
- `_reconcile_messages` compares with Python equality, so a cache boundary whose
  flag comes back as 1 is taken for the original boundary
  (`FlagOneIsALookalike`). Assistant turns are recovered only from the identical
  message.
- As long as no export raises or fails to write, the exporters agree exactly when
  no numbered span is delivered twice (`LockstepIff`): only one of them drops
  repeats, and a repeat shifts the later numbers of its own step alone
  (`PairAgreesIff`). The event exporter's pruning is invisible for turns handled in order;
  in any order it is invisible to a turn exactly when no turn handled earlier
  ended after the start of one of its rounds, or of a cell they collect, that was
  taken in before (`PruningHarmlessIff`).

## Model

| member | source | states |
|---|---|---|
| `ScopeRuns.NoRejectionIff` | src/nooa/nemo_relay_middleware.py:363-405 | for every run of spawns, calls, scope openings and exits, in any interleaving: no pop is rejected if and only if no exit happens while another task still has open a call that it pushed later on the same stack, with open calls and stack bindings read off the events alone |
| `ScopeRuns.PopsAlwaysAccepted` | src/nooa/nemo_relay_middleware.py:363-405 | in every run in which each push that is not isolated finds no other task's open call on its stack, no pop is rejected, every task's newest open call is on top, and each stack is what was there before plus one task's open handles in call order |
| `ScopeRuns.CallsAreDisciplined` | src/nooa/nemo_relay_middleware.py:346-352 | every interleaving of spawns, agent calls and exits under at most one relay scope, opened first, is such a run |
| `ScopeRuns.ParentFirstIsRejected` | src/nooa/nemo_relay_middleware.py:463-474 | the guard is needed: a reachable run in which a child task opens a scope on its parent's stack and the parent's exit, coming first, is rejected |
| `ScopeRuns.ChildFirstIsAccepted` | src/nooa/nemo_relay_middleware.py:463-474 | the same two scopes with the exits in the other order: no pop is rejected |
| `ScopeStacks.AcceptedIff` | src/nooa/nemo_relay_middleware.py:337-344 | in a state without a rejected pop behind it, a pop is accepted if and only if no other task has a newer open call on the same stack |
| `ScopeStacks.StepPiled` | src/nooa/nemo_relay_middleware.py:373-405 | every step with an accepted pop keeps each stack equal to what was there before plus all handles open on it, in push order |
| `ScopeStacks.StepWellFormed` | src/nooa/nemo_relay_middleware.py:363-405 | every step, also one whose pop is rejected, keeps frames chained, handles apart and parents pushed strictly earlier |
| `ScopeStacks.StepUnshared` | src/nooa/nemo_relay_middleware.py:373-380 | isolated pushes, and pushes that find their stack free, never make two tasks share a stack |
| `ScopeStacks.UnsharedHoldsOwn` | src/nooa/nemo_relay_middleware.py:346-352 | where no stack is shared, a task's stack holds exactly its own open handles in call order above what was there before |
| `ScopeStacks.OpenSafeIff` | src/nooa/nemo_relay_middleware.py:463-474 | opening a relay scope on the inherited stack leaves every task's newest call on top if and only if no other task has an open call there; otherwise some other task's pop would be rejected if it came next |
| `ScopeStacks.UnisolatedCallSafeIff` | src/nooa/nemo_relay_middleware.py:373-380 | where the scope-stack variable is unknown no call is isolated, and the same condition decides whether every newest call is still on top |
| `ScopeStacks.SharingPushRejects` | src/nooa/nemo_relay_middleware.py:337-344 | after a push on a stack that another task is using, that task's pop would be rejected if it came next |
| `ScopeRuns.LeaveRestores` | src/nooa/nemo_relay_middleware.py:384-405 | an exit gives its task back the stack binding, current scope and open calls it had just before the matching entry, whatever other tasks did in between |
| `ScopeRuns.OuterFramesKept` | src/nooa/nemo_relay_middleware.py:382-405 | while a call is open nothing, by any task, changes the frames below it or the stack its task is bound to |
| `ScopeRuns.RunMatches` | src/nooa/nemo_relay_middleware.py:363-405 | the context variables always agree with the history read off the events alone: the open calls of a task, the call it inherited when it was spawned, and the stack it is bound to |
| `ScopeRuns.ParentIsEnclosing` | src/nooa/nemo_relay_middleware.py:363-380 | the parent of every agent call's scope is the innermost call that encloses it through the spawn tree, or the top of the stack when nothing does, and was pushed strictly earlier |
| `ScopeRuns.ScopeParentIsNewest` | src/nooa/nemo_relay_middleware.py:465-468 | the parent of a relay scope is the newest call that any task has open on its stack, as long as no pop was rejected before, and was pushed strictly earlier |
| `ScopeRuns.CallsReachTheRoot` | src/nooa/nemo_relay_middleware.py:463-483 | under one relay scope every call's parent chain reaches that scope, also for tasks that outlive it |
| `ScopeRuns.OneTaskPerStack` | src/nooa/nemo_relay_middleware.py:346-352 | over a whole run under at most one relay scope, a stack belongs to one task: two pushes or pops on the same stack are by the same task, the one that created the stack |
| `ScopeStacks.RelayRuntime.EnterCall` | src/nooa/nemo_relay_middleware.py:363-381 | the entry half of the middleware, on the mutable context variables and stacks, does one Call step |
| `ScopeStacks.RelayRuntime.LeaveCall` | src/nooa/nemo_relay_middleware.py:384-405 | the exit half, in the middleware's order (scope, pop, stack binding), does one Leave step |
| `ScopeStacks.RelayRuntime.OpenScope` | src/nooa/nemo_relay_middleware.py:465-474 | entering `nemo_relay_scope` does one Open step |
| `ScopeStacks.RelayRuntime.SpawnTask` | src/nooa/nemo_relay_middleware.py:337-338 | a new task starts with a copy of its creator's context that refers to the same stack |
| `ScopeStacks.RelayRuntime.PushScope` | src/nooa/nemo_relay_middleware.py:378-380 | a push adds a fresh handle on top with the parent it is given |
| `ScopeStacks.RelayRuntime.PopScope` | src/nooa/nemo_relay_middleware.py:341-342 | a pop is accepted exactly for the handle on top, and changes nothing otherwise |
| `LayeredConfig.DedupInvisible` | src/nooa/layered_config.py:112-148 | keeping only the highest-priority occurrence of each file never changes the merged configuration, for all files and all lists of paths |
| `LayeredConfig.EarlierDuplicateInvisible` | src/nooa/layered_config.py:151-169 | merging a layer, then any layers, then the same layer again is merging without the first application, with null deletes and leaf-against-mapping clashes included |
| `LayeredConfig.KeyAbsorbs` | src/nooa/layered_config.py:160-168 | the same law at a single key, through any sequence of overlays of that key |
| `LayeredConfig.SkipEarlier` | src/nooa/layered_config.py:190-210 | a layer that comes again anywhere later in the list may be left out |
| `LayeredConfig.PriorityDecides` | src/nooa/layered_config.py:151-169 | a leaf sits at a path of the result if and only if some layer has it there and no higher layer has a leaf or null at the path or a prefix of it, or a mapping at the path |
| `LayeredConfig.MergeLookup` | src/nooa/layered_config.py:151-169 | the same for one merge: the leaf is the overlay's, or the base's where the overlay does not settle the path |
| `LayeredConfig.MergeMappings` | src/nooa/layered_config.py:160-168 | a mapping stands at a path of a merge if and only if the overlay has one there, or the base has one and the overlay has no leaf or null at the path or at a prefix of it: a mapping left empty stays |
| `LayeredConfig.MappingsByPriority` | src/nooa/layered_config.py:151-169 | the same over any layers: a mapping stands at a path if and only if some layer has one there and no higher layer has a leaf or null at the path or at a prefix of it |
| `LayeredConfig.MergeIsTheOnlyOne` | src/nooa/layered_config.py:151-169 | the merge is the one value that holds at every path the leaf, the mapping or the null that priority gives it: what a deep merge is, said through lookups alone |
| `LayeredConfig.MergeAllNullFree` | src/nooa/layered_config.py:154-163 | no null remains at any mapping position of the result, at any depth |
| `LayeredConfig.MergeEntry` | src/nooa/layered_config.py:160-168 | what a merge leaves at each key depends only on what both sides hold at that key |
| `LayeredLoad.KeepLastPush` | src/nooa/layered_config.py:117-125 | one more push removes the earlier occurrence of the path and appends it: the specification that `_push` refines |
| `LayeredLoad.KeepLastOnce` | src/nooa/layered_config.py:112-125 | the chain has exactly the paths that were pushed, each once |
| `LayeredLoad.KeepLastOrder` | src/nooa/layered_config.py:112-125 | the chain has its paths in the order of their last pushes |
| `LayeredLoad.ExistingAppend` | src/nooa/layered_config.py:127-146 | the groups of paths are pushed one after the other |
| `LayeredLoad.ExistingOne` | src/nooa/layered_config.py:127-146 | a missing path is dropped and an existing one is pushed |
| `LayeredLoad.PathChain.Push` | src/nooa/layered_config.py:117-125 | after any pushes the index map gives each path its position, the chain has no duplicates, and it is the pushed sequence with all but the last occurrence of each path removed |
| `LayeredLoad.PathChain.CloseGap` | src/nooa/layered_config.py:120-122 | the loop over the index map moves exactly the indices above the removed one down by one |
| `LayeredLoad.PathChain.Forget` | src/nooa/layered_config.py:118-123 | removing a known path leaves chain and index map in agreement without it |
| `LayeredLoad.LayeredPaths` | src/nooa/layered_config.py:112-148 | the chain of a file name: bundled, user, project and environment paths in that order, missing ones dropped, each file once at its highest position |
| `LayeredLoad.MergeInto` | src/nooa/layered_config.py:151-169 | the in-place merge on heap dictionaries computes `Merge`, which `MergeIsTheOnlyOne` characterises, leaves the overlay unmodified, and never makes the result share a dictionary with the overlay |
| `LayeredLoad.MergeKey` | src/nooa/layered_config.py:160-168 | one pass of the merge loop: null deletes, a mapping merges into the mapping there or into a new one, anything else replaces; other keys are untouched |
| `LayeredLoad.MergeFile` | src/nooa/layered_config.py:197-209 | an unreadable, empty or non-mapping file is skipped, any other is merged on top |
| `LayeredLoad.LoadLayered` | src/nooa/layered_config.py:190-210 | loading through the deduplicated chain gives the merge of all existing files in priority order, as if nothing had been deduplicated |
| `SecretRuns.TransactionSettles` | src/nooa/secrets.py:235-296 | whatever other programs, failures, interrupts and crashes do at every step: the file is changed at most twice, first by the new key, exactly when the reads agree and nothing hits them, over the content the write read first, and then, exactly when the handler removes the key, by what was found at the start, over exactly the bytes the call wrote; a failure is rolled back, or an interrupt raised again, if and only if the key was removed and nothing sudden followed, and the file then is exactly what was found at the start; a refused call has added nothing; success and a partial state keep the key; an interrupt has added the key, or removed it, exactly when it came after the replacement that does so; no temporary file survives unless the process crashes |
| `SecretRuns.TransactionFollows` | src/nooa/secrets.py:235-296 | every content the file has over a transaction comes from other programs or from one of these recorded changes, and each change replaced what was really there |
| `SecretRuns.FileAtTheEnd` | src/nooa/secrets.py:235-296 | a call that made no change leaves the file to the other programs; a partial state holds the new key under their later writes, and a rollback the original under theirs |
| `SecretRuns.RemovedOnlyIfToldNo` | src/nooa/secrets.py:243-262 | the key is only removed if the question, asked once the block had ended and without a fault, was answered no about the model entry as the block, other writers and the guard had left it then: an undecidable or failing predicate keeps the key |
| `SecretRuns.SavedEntryKeepsItsKey` | src/nooa/secrets.py:244-262 | under the guard the model entry stays as it was when asked about, so an answer that covers every saved entry never lets the key of a saved entry go |
| `SecretRuns.SucceedsIff` | src/nooa/secrets.py:238-242 | the transaction succeeds if and only if its reads agree, nothing hits it, the block ends well and the file still holds what was written; the key and the model entry are then as stated |
| `SecretRuns.SuccessLeavesBoth` | src/nooa/secrets.py:239-242 | on success the key is in the file, and the entry that the block saved is saved unless another writer deletes it |
| `SecretRuns.RestoresWhatWasReplacedIff` | src/nooa/secrets.py:236-238 | what a rollback restores is what the write replaced if and only if no other content was put there between the transaction's read and the write's own |
| `SecretRuns.CalmTransaction` | src/nooa/secrets.py:235-296 | when nothing interferes, the outcome, the file and the model entry are determined: rolled back whenever the block fails and the answer is no, kept on every other answer and on an interrupt that hits the guard or the question |
| `SecretRuns.UndoRun` | src/nooa/secrets.py:243-288 | the handler makes its change if and only if it has the guard, is told no, nothing hits it, and the file holds exactly what the call wrote at each comparison; in every other case it makes none |
| `SecretRuns.BlockRun` | src/nooa/secrets.py:239-242 | the block succeeds if and only if nothing hits it, it ends well by itself, and the key is then as it was written |
| `SecretRuns.WriteRun` | src/nooa/secrets.py:112-152 | a write succeeds if and only if its reads agree and nothing hits it; it changes the file once or not at all, with exactly what it prepared and only over the content it first read, not at all when refused, and on an interrupt exactly if that came after the rename |
| `SecretRuns.SwapRun` | src/nooa/secrets.py:135-152 | the file is replaced exactly when nothing hits the step before and it still is what was expected, and the temporary file is gone unless the process crashes |
| `SecretRuns.WriteRunKeepsOthersIff` | src/nooa/secrets.py:117-148 | in every run, a successful write keeps every other variable of the content it replaced if and only if its two reads saw the same other variables |
| `SecretRuns.ChangedAndRestoredIsMissed` | src/nooa/secrets.py:117-148 | for any two files whose other variables differ: in the run in which another program puts the second in place between the two reads and restores the first, the write succeeds and what it leaves is not the original with the new variable |
| `SecretRuns.RestoredVariableIsLost` | src/nooa/secrets.py:117-148 | a concrete such run, in which a variable of the original file is lost |
| `Secrets.PrepareUpdates` | src/nooa/secrets.py:112-133 | a prepared write sets one variable and keeps every other variable and section; it is refused exactly for a bad name or value, an unusable file, or a name taken where creation was asked for |
| `Secrets.PreparedDocument` | src/nooa/secrets.py:112-133 | the whole document a write puts in place, section by section: one variable set, the other variables and every section beside `env` kept; a missing or empty file gives just the variable; refused exactly for a bad name, an empty value, invalid YAML, no mapping or no `env` mapping, and a taken name, in this order |
| `Secrets.ReadersSee` | src/nooa/secrets.py:118-128 | a reader sees the variables and the other sections as they stand in the document, and neither where there is none |
| `Secrets.NamesAreWords` | src/nooa/secrets.py:112-113 | a valid name is a word of ASCII letters, underscores and, after the first character, digits, by their codes |
| `Secrets.WriteKeepsOthersIff` | src/nooa/secrets.py:117-148 | the same condition, from the three contents a write reads |
| `SecretsStore.SecretsStore.NewSecretEnv` | src/nooa/secrets.py:235-296 | the transaction on the mutable store is the run that the world dictates; a failure that was rolled back leaves the bytes found at its start, a refused call leaves the file to other programs, a partial state keeps the key, success leaves it, and temporary files survive only a crash |
| `SecretsStore.SecretsStore.GuardBlock` | src/nooa/secrets.py:239-296 | the block and its handler, on the mutable store, do the run of the block |
| `SecretsStore.SecretsStore.UndoKey` | src/nooa/secrets.py:243-296 | the handler takes the guard if there is one, asks, removes the key and releases the guard, as its run says |
| `SecretsStore.SecretsStore.RemoveKey` | src/nooa/secrets.py:263-288 | the removal puts the original back, or nothing where there was no file, as its run says |
| `SecretsStore.SecretsStore.RunBlock` | src/nooa/secrets.py:239-242 | the block's steps and the comparison after it do the run of the block |
| `SecretsStore.SecretsStore.WriteSecretEnv` | src/nooa/secrets.py:112-152 | the two reads, the preparation, the comparison and the rename do the run of a write |
| `SecretLock.WritersLinearize` | src/nooa/secrets.py:158-186 | for every interleaving of cooperating writers, also with deaths midway: the variables in the file are those at the start with the successful writes applied one by one in lock order, everything else in the file is as it was, and a writer is among them exactly when it was told its key is kept |
| `SecretLock.LastWriteDecides` | src/nooa/secrets.py:79-91 | the last successful write of a variable decides it and a variable that none names is as it was: no lost update |
| `SecretLock.NoFalseConflict` | src/nooa/secrets.py:146-148 | a cooperating writer is never told that the file changed under it, and a failed model save takes its own key back out exactly |
| `SecretLock.StepInv` | src/nooa/secrets.py:171-186 | every step of every writer keeps the lock exclusive, the commits in lock order and the holder's view of the file true |
| `PlainJson.IsPlainJson` | src/nooa/events.py:197-231 | the budgeted walk answers true if and only if the unfolded value is plain, at most 32 deep and at most 10,000 nodes large; the queue never outgrows the budget, so the negative-budget exit is dead, and the walk always ends |
| `PlainJson.PlainContainers` | src/nooa/events.py:220-231 | a list, tuple or dictionary is plain if and only if each of its elements is, one level down, and every key of a dictionary encodes |
| `PlainJson.PlainScalars` | src/nooa/events.py:212-221 | None and numbers are plain, a string exactly if it is an exact one without surrogates, and no other object is |
| `PlainJson.SizeOfContainers` | src/nooa/events.py:209-230 | a list, tuple or dictionary counts itself and what each of its elements counts |
| `PlainJson.AcceptedIffSmallPlainTree` | src/nooa/events.py:197-231 | the recursive predicate is the statement about the unfolded tree: its set of nodes, as paths, is finite, within both bounds, and every node is plain |
| `PlainJson.ExpandFits` | src/nooa/events.py:208-230 | taking one item off the stack and queueing its children never changes whether the remaining work fits the budget |
| `PlainJson.TooMany` | src/nooa/events.py:222-224 | the early refusal only refuses what would be refused anyway |
| `PlainJson.PlainAlongPath` | src/nooa/events.py:211-212 | every node of an accepted value is plain and within the depth that is left |
| `PlainJson.PathsFromCount` | src/nooa/events.py:209-212 | the size that is counted is the number of nodes of the unfolded tree, shared parts counted each time |
| `PlainJson.CyclicRefused` | src/nooa/events.py:202-204 | a value that reaches a cycle is refused |
| `PlainJson.EncodeSucceedsIff` | src/nooa/events.py:190-193 | strict UTF-8 encoding succeeds exactly on strings without lone surrogates (section 3 of RFC 3629) |
| `PlainJson.IsUtf8Str` | src/nooa/events.py:184-194 | exact strings that encode are accepted and nothing else; the ASCII shortcut agrees with the encoder |
| `TurnProtocol.ProtocolSafe` | examples/arc_agi_3/harness.py:455-517 | over all interleavings of harness and agent: published turns never decrease, submitted turns strictly increase, batches are consumed once and in order, and the unread backlog is at most three, at most two while a batch executes, and at most nudges plus forced advances plus one |
| `TurnProtocol.LadderSafe` | examples/arc_agi_3/harness.py:463-517 | over all interleavings: each wait has at most one gentle and one urgent nudge, in this order, an advance is forced only after all of them, every turn up to the current one was published, by one state for each nudge and each round, and the agent only answers published turns |
| `TurnProtocol.StepInv` | examples/arc_agi_3/harness.py:475-516 | every step of either side keeps the turn accounts and the bound on batches unread or still to come |
| `TurnProtocol.ThreeUnreadReachable` | examples/arc_agi_3/harness.py:476-517 | the bound is attained: a run with a slow agent reaches the head of the loop with three unread batches |
| `TurnProtocol.CountTurns` | examples/arc_agi_3/solver_agent.py:929-931 | one batch per turn at most: batches for distinct turns up to t number at most t + 1 |
| `Harness.ActionReader.NextBatch` | examples/arc_agi_3/harness.py:234-251 | lines are consumed in order and once; the batch returned is the first well-formed one past the old position, and malformed lines are skipped |
| `Harness.ApplyCap` | examples/arc_agi_3/harness.py:106-108 | a batch is cut to a prefix within a positive cap and left alone otherwise |
| `Harness.GameHarness.AutoReset` | examples/arc_agi_3/harness.py:399-453 | a lost game is reset exactly when the budget allows it: one call, counted against the budget, and if it steps one environment step that takes over the state it reports; the game stays lost only beyond recovery |
| `Harness.OverAfterRecoveryIff` | examples/arc_agi_3/harness.py:399-453 | a game is over after the recovery if and only if it was over before and as many games were lost as a budget of zero or more allows, or the reset raised, or the reset left it over |
| `Harness.GameHarness.Execute` | examples/arc_agi_3/harness.py:538-591 | one executed action is charged once, to the level in progress or to the level it completes; a raising one changes no account |
| `Harness.GameHarness.CloseLevel` | examples/arc_agi_3/harness.py:580-591 | a completed level takes exactly the actions in progress |
| `Harness.GameHarness.RunActions` | examples/arc_agi_3/harness.py:537-627 | exactly as many actions as the game's answers allow are executed, in order: the batch ends early at an error, a win, a lost game, or a completed level with actions left, and nowhere else |
| `Harness.PlayedIff` | examples/arc_agi_3/harness.py:613-627 | where a batch stops, read off the game's answers alone, in both directions: every action but the last executed left the game running on a level not just completed, and what ends it is an error of the next action, a win, a lost game, a completed level with actions left, or its end |
| `Harness.GameHarness.PlayAction` | examples/arc_agi_3/harness.py:538-627 | one action of a batch is executed and judged (error, win, lost game, completed level, or go on), and a lost game is recovered from before the batch ends |
| `Harness.StaysOnTrack` | examples/arc_agi_3/harness.py:613-627 | playing the rest of a batch from the game's next answer continues the run of the whole batch, in what is executed and in where it leads |
| `Harness.StopTellsState` | examples/arc_agi_3/harness.py:613-627 | a batch leads to a lost or a won game exactly when it stops for that reason |
| `Harness.RoundSteps` | examples/arc_agi_3/harness.py:538-562 | a round takes at most one environment step for each action of the capped batch and one for a reset |
| `Harness.GameHarness.PlayTurn` | examples/arc_agi_3/harness.py:518-651 | one pass of the loop executes exactly the part of the capped batch that the game lets happen, ends where that and the recovery lead, and ends the run exactly on a win or a lost game beyond recovery |
| `Harness.GameHarness.Play` | examples/arc_agi_3/harness.py:455-651 | for any number of rounds: every round played began in a running game, below the turn limit and below the step limit, and led exactly where its capped batch, as far as the game lets it, and the recovery lead; the loop ends at the first limit or ending it meets; the actions charged to completed levels plus those in progress are the actions executed, which with the successful resets are all environment steps; steps exceed the limit by at most one capped batch; a loss ends the run only beyond recovery |
| `Harness.GameHarness.TraceDetermined` | examples/arc_agi_3/harness.py:455-651 | the game, the batches and the limits determine the run: of two such traces from one moment, one begins the other |
| `Rhae.BoundsHoldForEveryFuture` | examples/arc_agi_3/viewer.py:153-179 | for every way the run can end in which the current level takes at least one more action and later levels are at par or below, 0 <= L <= final score <= U <= 1 |
| `Rhae.BoundsAttained` | examples/arc_agi_3/viewer.py:161-178 | both bounds are reached by such an ending, so neither can be tightened |
| `Rhae.AboveParBeatsUpperIff` | examples/arc_agi_3/viewer.py:172-179 | raising any later level above par beats U if and only if the optimistic sum stays below the full weight |
| `Rhae.AboveParBeatsUpper` | examples/arc_agi_3/viewer.py:114-115 | the par assumption is needed: a concrete game in which a later level above par beats U |
| `Rhae.LowerBelowUpper` | examples/arc_agi_3/viewer.py:179-179 | the final `max(lower, upper)` is never needed |
| `Rhae.ScoreMonotone` | examples/arc_agi_3/viewer.py:136-150 | the score is within [0, 1] and grows with the level scores and with the number of completed levels |
| `Rhae.LevelScoreAntitone` | examples/arc_agi_3/viewer.py:118-122 | more actions never raise a level's score |
| `Rhae.LevelScore` | examples/arc_agi_3/viewer.py:118-122 | a level score lies between 0 and the cap for all inputs |
| `Rhae.LevelScoreIsSquared` | examples/arc_agi_3/viewer.py:118-122 | a level's score times its actions squared is its baseline squared, capped at 1.15; par scores 1 and an invalid level 0 |
| `Rhae.WeightClosedForm` | examples/arc_agi_3/viewer.py:129-143 | the closed form used for weights is the sum of the level weights 1 to c |
| `Rhae.LevelWeighs` | examples/arc_agi_3/viewer.py:136-150 | changing the score of level j, counted from 0, changes the weighted sum by j + 1 times the change of its bounded score |
| `Rhae.UniformScore` | examples/arc_agi_3/viewer.py:136-150 | levels that all score v give v times the weight share of the completed ones, and never more than that share |
| `Rhae.WeightedFraction` | examples/arc_agi_3/viewer.py:125-129 | the share of weight that the completed levels carry, clamped |
| `Rhae.ScoreFromLevelScores` | examples/arc_agi_3/viewer.py:136-150 | the accumulating loop computes the capped weighted mean, missing scores counting 0 |
| `Rhae.RhaeBounds` | examples/arc_agi_3/viewer.py:153-179 | the two filled-in lists give the lower and the optimistic score that the bounds theorem speaks of |
| `EventTail.ChunkedSplit` | examples/arc_agi_3/viewer.py:397-399 | splitting chunk by chunk with the partial line carried over gives the complete lines and the partial line of the whole |
| `EventTail.SplitCutsAtNewlines` | examples/arc_agi_3/viewer.py:397-399 | the lines are the bytes cut at every newline and nowhere else |
| `EventTail.TailEqualsWholeFold` | examples/arc_agi_3/viewer.py:376-406 | after any number of polls between which the log grew, or was cut so that a poll saw it shorter, the statistics are those of reading the whole file at once |
| `EventTail.PollSeesWholeFileIff` | examples/arc_agi_3/viewer.py:384-389 | a poll agrees with the whole file if and only if the bytes read before are still its prefix or the file is now shorter |
| `EventTail.FoldGap` | examples/arc_agi_3/viewer.py:267-286 | whatever the log holds: the totals of input, output and cache tokens exceed the sums over the models by exactly what the calls that raised midway had already added |
| `EventTail.FoldBalancedIff` | examples/arc_agi_3/viewer.py:267-286 | for a log without negative amounts, the per-model tokens add up to the totals if and only if no model call raises between its totals and its model's own tokens with something already added |
| `EventTail.MidwayCallUnbalances` | examples/arc_agi_3/viewer.py:267-286 | the concrete call with 5 input tokens and a reasoning count that is not a number: totals of 5, and no model has them |
| `EventTail.ApplyGap` | examples/arc_agi_3/viewer.py:267-286 | one event changes the difference between totals and per-model sums by exactly what it loses |
| `EventTail.FoldOrderly` | examples/arc_agi_3/viewer.py:287-312 | whatever the log holds, successes never exceed executions and both lists of levels have one length |
| `EventTail.FoldCounts` | examples/arc_agi_3/viewer.py:267-299 | every counter, in all and for one model, is what it was plus what the log's events amount to one by one, each field counted if the fields read before it are numbers |
| `EventTail.ActionsAddUp` | examples/arc_agi_3/viewer.py:320-327 | while no line raises the level, the actions of the level grow by one for each action |
| `EventTail.ActionsSinceNewLevel` | examples/arc_agi_3/viewer.py:320-327 | the actions of a level are those since the line that reached it |
| `EventTail.LastReported` | examples/arc_agi_3/viewer.py:313-327 | step and level are the last reported that are numbers and not zero |
| `EventTail.ScoreStored` | examples/arc_agi_3/viewer.py:300-312 | a level score goes to its level or the next one, levels in between are filled with zeros, and every other level keeps its own |
| `EventTail.SumUpdate` | examples/arc_agi_3/viewer.py:280-286 | changing one model's tokens changes the sum over models by exactly the difference |
| `EventTail.FoldAppend` | examples/arc_agi_3/viewer.py:400-406 | folding a log in two pieces is folding it in one |
| `EventTail.GameStats.Update` | examples/arc_agi_3/viewer.py:260-327 | one event changes the mutable statistics as the step function of the fold says, field by field up to the first one that raises a ValueError, with a missing or zero `step` and `levels_completed` read as absent |
| `EventTail.GameStats.RecordLevel` | examples/arc_agi_3/viewer.py:306-312 | the padding loops grow both lists to reach the level and change no other entry |
| `EventTail.GameTracker.Poll` | examples/arc_agi_3/viewer.py:376-399 | after a poll the statistics are the fold of the complete lines of the bytes up to the offset, and the buffer is the trailing partial line |
| `EventTail.GameTracker.TakeIn` | examples/arc_agi_3/viewer.py:396-406 | taking in a chunk keeps that relation |
| `Turns.FreezeSucceedsIff` | src/nooa/_immutable_json.py:44-58 | freezing succeeds exactly on values with string keys and finite numbers (section 6 of RFC 8259) and no foreign objects |
| `Turns.FreezeByKind` | src/nooa/_immutable_json.py:44-58 | freezing kind by kind: scalars and frozen mappings as they are, lists and tuples as tuples, dictionaries with string keys as frozen mappings, element by element; nothing else freezes |
| `Turns.ParsedSurvives` | src/nooa/_immutable_json.py:44-67 | JSON as a parser gives it survives freezing and thawing exactly as it was |
| `Turns.FreezeFreezes` | src/nooa/_immutable_json.py:20-51 | what freezing makes is immutable all the way down |
| `Turns.ThawFreeze` | src/nooa/_immutable_json.py:61-67 | thawing a frozen value gives the input back with tuples read as lists |
| `Turns.FreezeThaw` | src/nooa/_immutable_json.py:44-67 | freezing a thawed frozen value gives it back, and freezing twice is freezing once |
| `Turns.FreezeObject` | src/nooa/_immutable_json.py:20-29 | the loop that fills the frozen mapping agrees with freezing and gives up at the first bad key or value |
| `Turns.BuildAssistantMessage` | src/nooa/llm_types.py:68-98 | the dictionary built key by key and call by call: role, content and, where there is any, reasoning and one entry per call in order, each with the id, the name and the argument text under their own names; absent text shows as empty text |
| `Turns.MessageShowsTurn` | src/nooa/llm_types.py:80-98 | the public message shows exactly what it is built from, field by field |
| `Turns.OnePart` | src/nooa/llm_types.py:339-367 | a text part shows its text, a reasoning part its text unless empty, a call part its id, name and exact arguments |
| `Turns.PartsInOrder` | src/nooa/llm_types.py:339-367 | a turn shows what its parts show, in order |
| `Turns.LinesInOrder` | src/nooa/llm_types.py:355-364 | reasoning texts are joined by newlines |
| `Turns.ReasoningIff` | src/nooa/llm_types.py:355-364 | a turn has reasoning exactly if a reasoning part has text |
| `Turns.FrozenPublicParts` | src/nooa/llm_types.py:409-414 | the projection of every response can be frozen and thaws to the same message |
| `Turns.PublicMessage` | src/nooa/llm_types.py:498-500 | the public message is that of the parts, whether or not the projection was cached before |
| `Turns.CopyNeverLies` | src/nooa/llm_types.py:466-490 | every copy shows its own parts and never a stale cached projection; naming parts or the replay scope drops all private state, and naming neither shares the whole turn |
| `Turns.ReplaceTextPublic` | src/nooa/llm_types.py:492-496 | replacing the text changes that one public field: reasoning and tool calls stay, in order, and no native state is left in any part |
| `Turns.BareKeepsPublic` | src/nooa/llm_types.py:478-481 | dropping native state changes no text, reasoning or tool call |
| `Turns.RenderShowsItsArguments` | src/nooa/llm_types.py:398-407 | rendering always has the public view of its arguments, and keeps the turn itself exactly when that view is its own and the arguments are given as the turn gives them |
| `Turns.SameMessage` | src/nooa/llm_types.py:80-98 | equal public messages come from equal text, reasoning and exact calls |
| `Turns.RecoveryIsInvisible` | src/nooa/nemo_relay_middleware.py:52-65 | whatever list comes back, the reconciled list shows an equal one, and the identical one exactly where no lookalike of a cache boundary stands; a recovered turn is the original of its own position, and a position left alone recovers its own entry |
| `Turns.FlagOneIsALookalike` | src/nooa/nemo_relay_middleware.py:60-62 | such a lookalike exists: a boundary whose flag is spelt 1 is taken for the boundary |
| `Turns.UneditedRecovers` | src/nooa/nemo_relay_middleware.py:190-212 | an unedited list comes back as the very same messages |
| `Turns.WordsEqualExactly` | src/nooa/nemo_relay_middleware.py:62-62 | a message that equals a turn's projection in Python is that projection, since it holds only words |
| `Turns.EqualByKind` | src/nooa/nemo_relay_middleware.py:62-62 | the equality used: numbers by value across booleans, integers and floats, strings, lists, tuples and dictionaries by content, never one kind with another |
| `Exporters.FindStep` | examples/arc_agi_3/viewer_event_exporter.py:207-223 | the reader's loop, with its early exits on a later step and on a broken line |
| `Exporters.LatestStepWins` | examples/arc_agi_3/viewer_event_exporter.py:207-223 | in an orderly log the reader finds the latest environment step begun by the given time |
| `Exporters.LaterLinesDoNotMatter` | examples/arc_agi_3/viewer_trace_exporter.py:63-78 | lines appended after the fact, by the harness or by the exporter itself, never move a call to another step |
| `Exporters.RoundsAreDense` | examples/arc_agi_3/viewer_trace_exporter.py:93-94 | the rounds given out in a step are exactly 0 to k - 1 for its k calls |
| `Exporters.StampsAreDistinct` | examples/arc_agi_3/viewer_trace_exporter.py:93-94 | no two calls share a (step, round) pair |
| `Exporters.CounterNumbersNext` | examples/arc_agi_3/viewer_event_exporter.py:288-289 | the counter's next number is the reference numbering's (the count of earlier calls in the step) and was not given before |
| `Exporters.FreshSteps` | examples/arc_agi_3/viewer_event_exporter.py:246-251 | dropping repeated spans loses a numbered call exactly when a numbered call is a repeat |
| `Exporters.LockstepIff` | examples/arc_agi_3/viewer_event_exporter.py:283-289 | given the same spans in batches of any shape, read against the log at any time at which their steps are in it, and with no export raising or failing to write, both exporters give the same pairs if and only if no numbered span is delivered again |
| `Exporters.PairAgreesIff` | examples/arc_agi_3/viewer_event_exporter.py:246-289 | the two exporters give a call the same pair if and only if no call of its step had been delivered again before it: a repeat shifts its own step only |
| `Exporters.DroppedCount` | examples/arc_agi_3/viewer_event_exporter.py:246-251 | dropping repeats lowers the number of calls of a step exactly when a repeat was in that step |
| `Exporters.FilesGrow` | examples/arc_agi_3/viewer_trace_exporter.py:93-114 | a call's message file is written beside the others and over none of them |
| `Exporters.CallWritten` | examples/arc_agi_3/viewer_trace_exporter.py:93-114 | a model call takes the number of calls of its step before it, and its file is new |
| `Exporters.MessageExporter.ClearOnce` | examples/arc_agi_3/viewer_trace_exporter.py:82-85 | placeholders are cleared before the first file is written and never again |
| `Exporters.MessageExporter.Take` | examples/arc_agi_3/viewer_trace_exporter.py:87-114 | one span is numbered and written if it is a model call with input messages, and ignored otherwise |
| `Exporters.MessageExporter.Export` | examples/arc_agi_3/viewer_trace_exporter.py:80-115 | after any batches there is exactly one file per call, named by its number and holding its text, and nothing else |
| `TurnTimes.OneRoundEachIff` | examples/arc_agi_3/viewer_event_exporter.py:404-413 | every code cell goes to at most one round of a turn if and only if no call ends early enough to reach back into an earlier round's window |
| `TurnTimes.ForwardRoundsAreTidy` | examples/arc_agi_3/viewer_event_exporter.py:405-406 | calls that do not end before they begin meet that condition |
| `TurnTimes.RoundsShareTheTime` | examples/arc_agi_3/viewer_event_exporter.py:409-413 | the code time of all rounds together is the time of the cells they collect, each counted once |
| `TurnTimes.TurnTimeIsCovered` | examples/arc_agi_3/viewer_event_exporter.py:396-413 | a turn whose rounds are tidy reports the time of the cells its rounds collect, each once: at most the code time of its own window, and at most what it takes out of the buffer |
| `TurnTimes.BackwardCallCountsTwice` | examples/arc_agi_3/viewer_event_exporter.py:405-413 | a call that ends before it begins can have a cell counted twice |
| `TurnTimes.ReportedAtMostTaken` | examples/arc_agi_3/viewer_event_exporter.py:393-445 | over a whole run of tidy turns, reported in any order and overlapping in any way, the code time reported never exceeds the code time delivered |
| `TurnTimes.ForwardCallsAreTidy` | examples/arc_agi_3/viewer_event_exporter.py:396-406 | every turn of a run is tidy if no delivered call ends before it begins |
| `TurnTimes.TurnSeesEverything` | examples/arc_agi_3/viewer_event_exporter.py:442-445 | a turn that begins once every reported turn had ended is reported as if no span had ever been dropped |
| `TurnTimes.HarmlessKeeps` | examples/arc_agi_3/viewer_event_exporter.py:442-445 | pruning takes weight from the buffer exactly when some turn ended after the start of a span of that weight taken in before |
| `TurnTimes.PruningHarmlessIff` | examples/arc_agi_3/viewer_event_exporter.py:442-445 | for any history, a turn is reported as if no span had ever been dropped if and only if no turn reported earlier ended after the start of one of its rounds, or of a cell that one of them collects, taken in before |
| `TurnTimes.ExportersAgreeIff` | examples/arc_agi_3/viewer_event_exporter.py:240-289 | the lockstep theorem for the events themselves: the calls that the event exporter's two-phase batches report carry the message exporter's numbers, exactly when no call is delivered again |
| `TurnTimes.HistoryNumbers` | examples/arc_agi_3/viewer_event_exporter.py:283-445 | over any history, the model calls reported carry the numbers of their steps in order, and so do the code cells, and the code time reported is the turns' own |
| `TurnTimes.CallReported` | examples/arc_agi_3/viewer_event_exporter.py:283-349 | a model call with input messages is reported with its times and number, after the prompt exactly if it is the first with a system message |
| `TurnTimes.CellReported` | examples/arc_agi_3/viewer_event_exporter.py:351-391 | a code cell is reported with its times and its number in the step |
| `TurnTimes.OthersNotReported` | examples/arc_agi_3/viewer_event_exporter.py:253-262 | no other span is reported |
| `TurnTimes.SpanBuffered` | examples/arc_agi_3/viewer_event_exporter.py:290-298 | a model call is buffered as a round exactly if it has tools and a system message, a code cell with its times |
| `TurnTimes.TurnReported` | examples/arc_agi_3/viewer_event_exporter.py:404-440 | the events of a turn: one per round in order of start with its position, the time of its call and of the code between its end and the next round, then the turn |
| `TurnTimes.CodeTimeAdds` | examples/arc_agi_3/viewer_event_exporter.py:409-413 | code time adds up over cells, each counting its own time if it begins in the window |
| `TurnTimes.RoundsOfTurn` | examples/arc_agi_3/viewer_event_exporter.py:396-403 | the rounds of a turn are the agent calls that begin in its window, in order of start |
| `TurnTimes.RoundsCounted` | examples/arc_agi_3/viewer_event_exporter.py:396-399 | each agent call of the window is a round as often as it was buffered, and nothing else is one |
| `TurnTimes.SortedInOrder` | examples/arc_agi_3/viewer_event_exporter.py:396-403 | the sort used for rounds, cells and event lines orders its input and loses nothing |
| `TurnTimes.ReportTurn` | examples/arc_agi_3/viewer_event_exporter.py:404-440 | the loop over the rounds reports each with its position, its own duration and the code time up to the next round, then the turn |
| `TurnTimes.EventExporter.HandleLlm` | examples/arc_agi_3/viewer_event_exporter.py:283-349 | a model call is numbered, buffered and reported; the prompt is shown once, with the first call that has a system message |
| `TurnTimes.EventExporter.HandleCode` | examples/arc_agi_3/viewer_event_exporter.py:351-391 | a code cell is numbered within its step, buffered and reported |
| `TurnTimes.EventExporter.HandleTurn` | examples/arc_agi_3/viewer_event_exporter.py:393-445 | a turn is reported from the buffers and what began before its end is dropped from them |
| `TurnTimes.EventExporter.Collect` | examples/arc_agi_3/viewer_event_exporter.py:245-262 | the first phase takes in every unseen call and cell, in order, reports each of them, and puts the unseen turns aside |
| `TurnTimes.EventExporter.Export` | examples/arc_agi_3/viewer_event_exporter.py:240-281 | a batch does both phases over unseen spans; its lines are, in order of time, exactly the events by which the history's own grow |

## Left out

- The NeMo Relay runtime itself: only "push with a parent" and "pop accepts the top alone" are modelled; the LLM and tool pipelines, guardrails and event delivery are foreign code.
- ScopeStacks.RelayRuntime.LeaveCall: a context-variable reset from another context (the `ValueError` fallbacks) is not modelled; a task leaves its own calls in its own context.
- ScopeRuns.OneTaskPerStack: speaks of runs under at most one relay scope, opened first, with the scope-stack variable present; with scopes opened by several tasks a stack is pushed on by several tasks, and `NoRejectionIff` says when that is harmless.
- ScopeRuns.CallsReachTheRoot: task 0 makes no call after it has left the scope, as leaving the scope uninstalls the middleware.
- YAML, JSON and path text: parsing is a function from files to values, environment-variable path lists and path resolution are inputs, and a YAML document that contains itself is not modelled.
- File modes, directories, fsync and failures of the `unlink` that removes a temporary file; a crash may leave such a file and the lock file stays by design.
- SecretsStore.SecretsStore.WriteSecretEnv: contents are compared as wholes, while the code compares decoded text, so a change of line endings alone is not modelled.
- SecretsStore.SecretsStore.UndoKey: taking the guard is one indivisible step with its outcome given, during which no other program writes.
- A comparison and the rename or unlink right after it are one step, because nothing in the code can exclude a foreign write between the two.
- SecretLock.WritersLinearize: speaks of writers that take the lock; programs that do not are covered by the world steps of `SecretRuns`.
- Termination of the harness loop: empty batches make no progress, so `Play` runs any finite number of rounds and claims nothing about a last one.
- Harness.ActionReader.NextBatch: the log does not grow during one call, and a well-formed line that is not an object, which the loop does not survive, is not modelled.
- Notes on states, default-action choice, recorder output, the agent's validation of action names and coordinates, and non-string entries of a batch.
- Malformed lines in the agent's own reads of the two logs, which the code does not survive; the harness side skips them and so does the model.
- Poll races: the file is taken to be unchanged between a poll's size check and its read, as the offset is set from the size.
- EventTail.GameTracker.Poll: an open that fails after the size check, a log that moves to another path, exceptions other than ValueError inside one event's update (a list or an infinite number where a number belongs, an event that is not an object) and negative level indices are not modelled.
- EventTail.GameStats.Update: time stamps, wall-time sums and game metadata are not modelled; they are plain sums and copies. A level score with a field that is not a number raises before it changes anything and counts as an event without effect.
- Floating-point rounding: scores are real numbers and times are whole nanoseconds; the three-decimal rounding of exported seconds is left out.
- Turns.RecoveryIsInvisible: Python equality is modelled for booleans, integers and reals inside lists, tuples and dictionaries with string keys; not-a-number values and numeric keys are not.
- Turns.CopyNeverLies: fields that no operation looks into stand for one number; validation by the model layer and the `deep` flag are not modelled.
- The JSON dump of dictionary arguments is text that the caller supplies, and the migration of old flat archives is not modelled.
- Exporters.MessageExporter.Export: a failing write of a message file, which ends the batch early after its number is used up, is not modelled; file names are identified with their numbers.
- TurnTimes.EventExporter.Export: exceptions inside an export, the text of prompts, answers and code, and token counts are not modelled; writing the lines to the log is the caller's step.
- Exporters.LockstepIff: an exporter that raises or fails to write in the middle of a batch has numbered calls that the other numbers differently afterwards; such batches are not modelled.
- TurnTimes.ExportersAgreeIff: the same.
- TurnTimes.TurnTimeIsCovered: speaks of tidy turns, as `BackwardCallCountsTwice` shows it must; `OneRoundEachIff` says that tidiness is exactly what single attribution needs.
- TurnTimes.ReportedAtMostTaken: the same, for every turn of the run.
- Sandboxes, redaction, rendering, argument parsing, model clients and decision cascades: short branch tables or foreign code without an invariant to prove.
