# Verification

Dafny models of the repository's hardest code, and proofs of what it promises. `dafny verify dfyconfig.toml`
checks the whole project.

Code that changes things step by step is modelled as classes and methods with loops, each proved against a
specification function; what the code promises is then proved about that function, for every input or every run.

- **Budget ledger** (`userland/src/budget.ts`). `JsonText` is JSON text, its canonical form and key order.
  `BudgetNouns` parses debits and tranches. `BudgetSpec` is the sequential ledger: a list of grants and the answer
  to each request. `BudgetStore` folds Journal events into tables, `BudgetChain` is the hash chain and catching up,
  `BudgetLedger` the code with its tables, port and retry loop, and `BudgetSystem` a state machine of any number of
  ledgers over one append-only Journal, with failed reads, lost acknowledgements, conflicts and tampered files.
- **Numbers and wire text** (`userland/src/nouns.ts`). `NumberText` decides a bound from a literal's text,
  `BoundPattern` generates a pattern, `ScanText` is the iterative walk over JSON text.
- **Session index** (`mission-control/server/index-store.ts`, `index-cache.ts`, `state.ts`, `scripts/lib/usage.js`).
  `SessionLines` reads transcripts, `SessionIndex` is the index, `SessionExact` says exactly when a look is right,
  `SessionCache` the persisted index and the live state, and `SessionRuns` whole runs of starts, refreshes, saves
  and changes to files.
- **Scanners** (`scripts/lib/check-suite.js`). `ShellScanner` and `ShellGrammar` find operators in command lines,
  `WorkflowLines` and `WorkflowGrammar` read the steps of CI workflows.
- **Claims** (`scripts/lib/claims.js`, `claim-append.js`). `ClaimText`, `ClaimYaml`, `ClaimFile` and `ClaimSchema`
  are the strict reader; `ClaimPrint`, `ClaimBlock`, `ClaimRecord`, `ClaimFields` and `ClaimAppend` what is printed,
  read back.
- **Mission lock** (`mission-control/scripts/run-missions.ts`, `mission-control/server/missions.ts`). `MissionBoard`
  is the board's fold, `MissionLock` the protocol as a state machine, and a class that takes its steps.
- **Decisions** (`mission-control/scripts/decisions.ts`, `mission-control/server/decisions.ts`). `DecisionText`,
  `DecisionLog` and `DecisionRounds`.
- **Globs and tiers** (`scripts/lib/classifier.js`). `GlobPattern` and `TierFloor`.
- **ISO weeks** (`mission-control/scripts/scorecard.ts`). `WeekDates`.

`Options`, `CodeUnits` and `Decimals` are shared: an option type, text as UTF-16 code units, and decimal numerals.

## Findings

Where the code falls short of what it is for, the input that shows it and the exact condition are both proved.

- **A two-digit bound is not a bound.** `decimalAtMost(42n)` accepts "99". The pattern is exact if and only if the
  maximum is below 10 or at least 99: `BoundPattern.ExactWhen`, `BoundPattern.DecimalAtMost`. The one caller passes
  2^64-1.
- **A confidence with an exponent is not read back.** A record of confidence 1e-7 is printed as a text the parser
  does not take for a number, so the file gets an issue instead of a claim. The record is added if and only if
  its confidence is printed without an exponent: `ClaimSchema.RecordValid`, `ClaimAppend.AppendAddsRecord`.
- **Years 0 to 99 are misnamed.** `Date.UTC` takes them for 1900 to 1999. The window of an instant's own week
  holds the instant if and only if its ISO year is 1000 to 9999: `WeekDates.RoundTrip`.
- **A transcript replaced and grown past its old size between two looks keeps the old turns.** The append path
  checks no boundary within a process. From `a` on one line to `b` and `c` on two: `SessionExact.ReplacedAndGrown`. A look
  is right for every way of reading lines if and only if it reads the file in full or the lines kept and the lines
  past the old size are the file's: `SessionExact.LookExact`.
- **A look that ends inside a line loses it**: `SessionLines.MidLineLoses`.
- **An older model is kept where a rebuild has none**, if and only if the appended part's last usage line names no
  model and the older part's does: `SessionLines.LaterExact`.
- **Reaping an old marker, a failed append, and clearing the markers on release each break the lock's exclusion.** A run with two
  winners, or a second launch that runs twice, for each: `MissionLock.ReapBreaks`, `MissionLock.FailedAppendBreaks`,
  `MissionLock.RequeueBreaks`. Without the first two, and within one launch, `MissionLock.Exclusion` holds.
- **A takeover may remove a live claimer's lock** once the winner has died and another claimer, finding the mission
  taken, has let its own lock go: `MissionLock.DropMisleads`. Nobody wins twice by it, by `MissionLock.Exclusion`. A
  removal is exact until then: `MissionLock.TakeoverExact`, `MissionLock.TakeoverAfterDeath`.
- **Some globs change their meaning.** `?**` takes `a/`, and `**` refuses a line break: `GlobPattern.PairCrosses`,
  `GlobPattern.BreakRefused`. Call a component sound when it is `**` or does not end in two, four, six or more stars
  in pairs, and a glob well formed when its components are sound and no last `**` follows another. A glob that does
  not end in `**`, or whose components are all sound, keeps its meaning on all paths if and only if it is well
  formed: `GlobPattern.GlobKeeps`.

## Model

| member | source | states |
|---|---|---|
| `JsonText.CanonUnambiguous` | userland/src/budget.ts:245-256 | Two JSON trees print one canonical text exactly when they are equal up to the order of object keys: `canon` is neither coarser nor finer. |
| `BudgetNouns.ReadHolds` | userland/src/budget.ts:214-233 | The one-pass loop with its set, its totals and its currency refuses exactly the hold lists that are malformed, hold one thing twice, mix currencies or total above 2^63-1 in a resource; otherwise it returns them all. |
| `BudgetNouns.ReadTranche` | userland/src/budget.ts:208-237 | parseTranche as it runs, field checks, loop and sort, against its specification. |
| `BudgetNouns.ParsedTrancheIsCanonical` | userland/src/budget.ts:205-237 | Whatever parseTranche accepts satisfies every check, and written out and parsed again it is itself. |
| `BudgetNouns.TrancheRoundTrip` | userland/src/budget.ts:208-237 | Every canonical tranche survives being written and parsed. |
| `BudgetNouns.DebitRoundTrip` | userland/src/budget.ts:186-203 | Every valid debit, with or without a reservation, survives being written and parsed. |
| `BudgetChain.DigestNamesEntry` | userland/src/budget.ts:258-260 | Equal content digests are of one and the same entry, field for field and of one kind. |
| `BudgetChain.DigestNamesHistory` | userland/src/budget.ts:262-263 | In two prev-chained Journals the digests of event n agree exactly when the whole histories up to n agree. |
| `BudgetChain.TipMatchesPrefix` | userland/src/budget.ts:509-517 | catchUp's comparison of the stored tip holds exactly when everything the store was folded from is a prefix of this Journal, and then the store is that prefix's fold. |
| `BudgetChain.CatchUpRebuilds` | userland/src/budget.ts:506-523 | Whatever Journal the store was folded from, catching up on a chained Journal leaves that Journal's fold, or fails exactly when the Journal does not fold, leaving the fold of a prefix. |
| `BudgetChain.SameEventApplies` | userland/src/budget.ts:384-411 | An event that comes back with its object keys in another order lands the same. |
| `BudgetChain.DecideAgrees` | userland/src/budget.ts:555-584 | A decision read off tables that mean a list of grants is the sequential answer over that list; a proposal is made exactly for a fresh grant. |
| `BudgetStore.OpeningLands` | userland/src/budget.ts:390-394 | Opening a tranche in the tables succeeds exactly when its id is new, and then the tables mean one entry more. |
| `BudgetStore.DebitLands` | userland/src/budget.ts:395-405 | A debit lands exactly when the sequential answer is a fresh grant, and then the tables mean one entry more. |
| `BudgetStore.EventLands` | userland/src/budget.ts:384-411 | An event the fold accepts records a request that the list so far grants, and the tables then mean the list with it. |
| `BudgetStore.EventForLands` | userland/src/budget.ts:532-540 | The event made for an admissible entry is accepted by every ledger at that head and is read back as that entry. |
| `BudgetStore.FoldMeaning` | userland/src/budget.ts:384-421 | What a Journal folds to is a legal list of grants, one an event, and tables that mean it. |
| `BudgetSpec.NeverOverspent` | userland/src/budget.ts:401-403 | In every legal list a hold's debits sum to at most what its tranche set aside. |
| `BudgetSpec.KeysOccurOnce` | userland/src/budget.ts:562-579 | In every legal list an idempotency key is one debit and a tranche id one tranche. |
| `BudgetLedger.Store.Land` | userland/src/budget.ts:384-411 | applyEvent on the tables in place: all rows of an event land or none do, exactly as the specification's fold. |
| `BudgetLedger.Store.Apply` | userland/src/budget.ts:417-421 | The loop over events is the fold, stopping at the first event that does not validate. |
| `BudgetLedger.Ledger.Mirror` | userland/src/budget.ts:489-503 | After mirror the store and the file are folds of prefixes of the Journal; with a port that answers and no other ledger it always returns. |
| `BudgetLedger.Ledger.CatchUp` | userland/src/budget.ts:505-523 | After catchUp the store has folded at least the Journal as it stood at the call, whatever others append meanwhile; with a port that answers and no other ledger it cannot fail. |
| `BudgetLedger.Ledger.Admit` | userland/src/budget.ts:525-552 | The bounded retry loop: the answer is the sequential answer on a prefix between call and return, or `unavailable`, and never `unavailable` when the port answers and no other ledger appends. |
| `BudgetLedger.Ledger.OpenTranche` | userland/src/budget.ts:555-567 | openTranche answers as the specification does on one Journal prefix between call and return; a closed ledger answers `unavailable`. |
| `BudgetLedger.Ledger.MakeDebit` | userland/src/budget.ts:569-584 | The same for debit, with the pool check, the key, the tranche and the hold in the code's order. |
| `BudgetLedger.Ledger.ReadBalance` | userland/src/budget.ts:586-602 | The same for balance. |
| `BudgetLedger.Ledger.Close` | userland/src/budget.ts:604-610 | After close every later call answers `unavailable`. |
| `BudgetSystem.RunInvariant` | userland/src/budget.ts:508-584 | In every run of any number of ledgers, with failed reads, lost acknowledgements, conflicts and tampered files: the Journal folds, every store is the fold of a prefix, and every recorded answer is linear. |
| `BudgetSystem.Linearizable` | userland/src/budget.ts:508-584 | Every recorded answer other than `unavailable` is the sequential answer on one Journal prefix that existed between the call and its return, and a fresh grant's point is its own event. |
| `BudgetSystem.NobodyIsWedged` | userland/src/budget.ts:381-411 | In every reachable state every ledger that can read catches up to the whole Journal: nothing a ledger appended stops another. |
| `BudgetSystem.MoneyIsConserved` | userland/src/budget.ts:384-411 | In every reachable state each row's consumed is the sum of its debits and at most held, held is what the tranche set aside, and the tranche sets aside at most 2^63-1 of the resource over all its holds. |
| `BudgetSystem.ChargedOnce` | userland/src/budget.ts:562-578 | Two grants under one idempotency key, or for one tranche id, by any ledgers, are one Journal event and one and the same request. |
| `BudgetSystem.RetryReplays` | userland/src/budget.ts:562-578 | A request once granted, asked again on any later Journal of the run, is a replay of that very grant. |
| `BudgetSystem.JournalOnlyGrows` | userland/src/budget.ts:532-547 | Along a run the Journal is only appended to, and every ledger can fold what is appended. |
| `BudgetSystem.MirrorHeals` | userland/src/budget.ts:489-503 | Whatever rows the file held, when mirror returns it is the fold of a Journal prefix no shorter than the head decided at; with a read that succeeds it always returns. |
| `BudgetSystem.FilesNeverDecide` | userland/src/budget.ts:458-461 | Two runs that differ only in what the files hold give the same verdicts and the same Journal while every mirror read succeeds. |
| `BudgetSystem.FilesOnlyDelay` | userland/src/budget.ts:491-503 | Two runs that differ only in what the files hold agree throughout, or up to a first mirror whose own read fails, where one of them answers `unavailable`. |
| `NumberText.MatchIsGrammar` | userland/src/nouns.ts:105 | The pattern matches exactly the number literals of RFC 8259 section 6, and gives back their parts. |
| `NumberText.UnsafeIsExact` | userland/src/nouns.ts:107-139 | For every source below 10^14 characters: a literal is called unsafe exactly when its exact value is an integer of magnitude above 2^53-1, and text that is no literal always is. |
| `BoundPattern.DecimalAtMost` | userland/src/nouns.ts:57-73 | The alternatives built take exactly the canonical numerals up to `max`, but for a two-digit `max`, which takes them up to 99; so they are exact if and only if `max` is below 10 or at least 99. |
| `BoundPattern.ExactWhen` | userland/src/nouns.ts:61 | The two-digit arm: exactness if and only if `max` is below 10 or at least 99, with "99" accepted for 42. |
| `ScanText.ScanText` | userland/src/nouns.ts:196-268 | The walk with a frame stack and a path stays inside the text, ends at its end, and returns what the recursive reading of the tree returns, for any printed tree with any white space. |
| `ScanText.RefusesUnclean` | userland/src/nouns.ts:202-222 | The walk refuses exactly when some object at some depth repeats an unescaped key or some string or key holds a lone surrogate. |
| `ScanText.ListsExactly` | userland/src/nouns.ts:249-252 | In an accepted value a path and a literal are listed exactly when the path leads to that literal and it is not spelled as its value is written. |
| `ScanText.ScanMeaning` | userland/src/nouns.ts:188-268 | The two together for a whole text: refused exactly when unclean, and otherwise exactly the misspelled literals by their paths. |
| `SessionLines.ReadTurns` | scripts/lib/usage.js:65-86 | The accumulating loop gives the turns line by line. |
| `SessionLines.TurnsJoin` | scripts/lib/usage.js:65-86 | Whole lines appended add their turns and change none. |
| `SessionLines.LatestJoin` | mission-control/server/index-store.ts:224-237 | The latest model of a text grown by whole lines is the appended part's when that has a usage line, and otherwise the older part's. |
| `SessionLines.LaterExact` | mission-control/server/index-store.ts:602-605 | Keeping the older model where the appended part gives none is what a rebuild gives, unless the appended part's last usage line names no model while the older part's does: an if and only if. |
| `SessionLines.MidLineLoses` | mission-control/server/index-store.ts:566-601 | A look that ends inside a line loses it: an input with one turn, read in two parts, gives none. |
| `SessionLines.LinesAreLawful` | scripts/lib/usage.js:65-86 | Reading line by line, with any meaning of a line, obeys the laws the index relies on: whole lines add their turns, and where every usage line names a model the latest is the later part's, or else the older part's. |
| `SessionIndex.LookIsCurrent` | mission-control/server/index-store.ts:363-464 | A look at an entry that describes an older text, which the new one follows, leaves an entry that says what a full read of the new text would say, whether it skips, verifies, appends or reads in full. |
| `SessionIndex.IndexStore.BuildCold` | mission-control/server/index-store.ts:324-355 | A rebuild from nothing, with its counters. |
| `SessionIndex.IndexStore.Refresh` | mission-control/server/index-store.ts:357-464 | The pass over listed files leaves exactly the specified index, drops the others, and counts each file in exactly one bucket. |
| `SessionIndex.IndexStore.ReadAppended` | mission-control/server/index-store.ts:550-613 | What lies past the recorded size is added, the window at the new size is hashed, and the entry needs no check. |
| `SessionIndex.IndexStore.BoundaryStillMatches` | mission-control/server/index-store.ts:476-500 | True exactly when the file still holds, up to the recorded size, the window that was hashed. |
| `SessionIndex.Summarize` | mission-control/server/index-store.ts:239-260 | The loop's totals, counts and times are the summary of the entry's turns. |
| `SessionIndex.TimesSpan` | mission-control/server/index-store.ts:244-250 | First and last time are those of some turn, and every turn lies between them. |
| `SessionExact.LookExact` | mission-control/server/index-store.ts:363-464 | A look gives a full read's turns, however lines are read, if and only if the file is read in full or the lines kept and the lines past the recorded size are the file's lines. |
| `SessionExact.ReplacedAndGrown` | mission-control/server/index-store.ts:363-464 | The input the look gets wrong: a file of one line is replaced by another and grown past its old size between two looks of one process, and the line that is gone stays in the index. |
| `SessionCache.SaveLoads` | mission-control/server/index-cache.ts:184-348 | What is saved loads back, as it was saved, exactly when the fingerprint and the root are the same and the full build is not too old. |
| `SessionCache.DamageDeclined` | mission-control/server/index-cache.ts:221-225 | A payload other than the one saved is declined under the saved meta line. |
| `SessionCache.StoreAll` | mission-control/server/index-cache.ts:308-348 | The stored list restores to the same entries, each marked as not yet verified. |
| `SessionCache.LiveState.Persist` | mission-control/server/state.ts:292-314 | Saved exactly when something changed, the interval is over and the write goes through; otherwise the cache file is as it was. |
| `SessionCache.LiveState.FirstBuild` | mission-control/server/state.ts:238-272 | From the cache when it loads, checked by a refresh; by a full build otherwise. |
| `SessionCache.LiveState.Refresh` | mission-control/server/state.ts:225-236 | One refresh of the live state is one look of the run below. |
| `SessionRuns.StepKeeps` | mission-control/server/state.ts:225-314 | Every start, refresh, save, append, touch, replacement, creation and deletion keeps the invariant that entries in memory and in the cache describe texts the files still start with or have been replaced since. |
| `SessionRuns.IncrementalIsRebuilt` | mission-control/server/index-store.ts:318-613 | After every refresh of every run the index has the turns, the summaries, and the models where every usage line names one, that a rebuild on the files as they stand has. |
| `SessionRuns.RefreshIsStep` | mission-control/server/state.ts:225-236 | What LiveState.Refresh ensures is a step of such a run. |
| `ShellScanner.ShellOperators` | scripts/lib/check-suite.js:698-993 | The loop with index, frame stack, word flag, escaped indices and the two sets computes the scan of the text. |
| `ShellGrammar.OperatorsExact` | scripts/lib/check-suite.js:698-993 | For every command line printed from a tree of words, escapes, quotes, parameters, nested substitutions, process substitutions, subshells, redirections and operators, the scan reports exactly the operators in command position at any depth, in canonical order, and nothing unmodelled. |
| `ShellGrammar.ReportedOnce` | scripts/lib/check-suite.js:483 | An operator is reported if and only if it is an operator item somewhere in the tree. |
| `WorkflowLines.ParseCiSteps` | scripts/lib/check-suite.js:1392-1777 | The loop over lines, with block scalar, enclosing keys and current step in place, computes the reading line by line. |
| `WorkflowGrammar.WorkflowReads` | scripts/lib/check-suite.js:1392-1777 | For every printed workflow the reader gives exactly the steps of every job in order, each with its name, run, uses and if, the line of its dash, and no refusal; other keys with their deeper lines, other keys of the job, blank lines and comments change nothing. |
| `ClaimText.StripComment` | scripts/lib/claims.js:76-90 | The loop over characters with quote flags is its recursive meaning. |
| `ClaimText.UnescapeDouble` | scripts/lib/claims.js:101-122 | The loop over escapes is its recursive meaning, refusing what the code refuses. |
| `ClaimText.SplitFlow` | scripts/lib/claims.js:149-171 | The split of a flow sequence at commas outside quotes and brackets. |
| `ClaimText.SplitTopLevelColon` | scripts/lib/claims.js:216-232 | The first colon outside quotes and brackets that ends a key. |
| `ClaimText.QuotedReads` | scripts/lib/claim-append.js:209-211 | What dq writes is read as the text it was given, for every text. |
| `ClaimYaml.ScanLines` | scripts/lib/claims.js:125-146 | The scan keeps the lines that hold something, with indentation and number, and refuses a tab in the indentation. |
| `ClaimYaml.ReadNode` | scripts/lib/claims.js:390-394 | The recursive descent with explicit next index is its specification. |
| `ClaimYaml.ReadSeq` | scripts/lib/claims.js:396-435 | The loop over items is its specification. |
| `ClaimYaml.ReadMap` | scripts/lib/claims.js:437-505 | The loop over keys is its specification, a repeated key refused. |
| `ClaimYaml.ParseYamlSubset` | scripts/lib/claims.js:508-528 | The whole parser is its specification. |
| `ClaimBlock.ListParses` | scripts/lib/claims.js:396-528 | The text of any printed list of one mapping parses to what the mapping means. |
| `ClaimFields.RecordParses` | scripts/lib/claim-append.js:213-233 | The block printed for a record parses to a list of that record alone. |
| `ClaimSchema.RecordValid` | scripts/lib/claims.js:764-842 | What is read back of an accepted record meets the schema if and only if its confidence is printed as a number without an exponent. |
| `ClaimFile.ScanFences` | scripts/lib/claims.js:550-569 | The loop over lines finds the claims blocks of the fences, and throws exactly where an opened claims fence is never closed. |
| `ClaimFile.ExtractClaimBlocks` | scripts/lib/claims.js:537-588 | Fenced blocks, then the frontmatter's. |
| `ClaimFile.ParseClaimsFromText` | scripts/lib/claims.js:850-895 | The claims of a text and whether any issue was found. |
| `ClaimAppend.EmitClaimBlock` | scripts/lib/claim-append.js:213-233 | The pushed lines, joined, are the block of the record. |
| `ClaimAppend.AppendAddsRecord` | scripts/lib/claim-append.js:697-716 | For every accepted record and every text that parses cleanly with closed fences and no frontmatter claims, the text with the section appended yields the earlier claims unchanged and then the record, at its line, if and only if the confidence is printed without an exponent; otherwise an issue is added and no claim. |
| `MissionBoard.FoldBoard` | mission-control/server/missions.ts:121-155 | The fold with records updated in place lists each mission once, in the order opened, with the record the lines give it. |
| `MissionBoard.StatusIsLatest` | mission-control/server/missions.ts:122-155 | A mission's status is the one the last line that moves it names. |
| `MissionBoard.StopMeaning` | mission-control/server/missions.ts:122-155 | A record says stop was requested if and only if a request landed on the live mission and no later line ended it. |
| `MissionLock.Exclusion` | mission-control/scripts/run-missions.ts:810-895 | In every race over a free or dead-owned lock, with any interleaving and crashes at any step: at most one claim returns true, the board gains one working line for it and none otherwise, and a winner that lives holds the lock until it lets go. |
| `MissionLock.TakeoverExact` | mission-control/scripts/run-missions.ts:865-881 | Until a winner has died or let go, a takeover's removal deletes the very lock its marker names, whose owner is dead, and no other removal is pending. |
| `MissionLock.TakeoverAfterDeath` | mission-control/scripts/run-missions.ts:865-881 | The same whoever has won and died, as long as no claimer has let its own lock go and no marker was reaped. |
| `MissionLock.DropMisleads` | mission-control/scripts/run-missions.ts:880-887 | Beyond that it fails: a run in which a claimer is about to remove the lock of a live one. |
| `MissionLock.ReapBreaks` | mission-control/scripts/run-missions.ts:873-881 | With one old marker reaped inside the race two claims win and two working lines are written. |
| `MissionLock.FailedAppendBreaks` | mission-control/scripts/run-missions.ts:888-893 | With one failed append two claims win. |
| `MissionLock.RequeueBreaks` | mission-control/scripts/run-missions.ts:897-907 | Release clears the markers; after the mission is queued again a claimer left from before removes the new lock, and the second launch runs twice. |
| `MissionLock.Directory.Claim` | mission-control/scripts/run-missions.ts:856-895 | claimMission undisturbed is a run of the protocol, won if and only if the lock is free, or dead and not yet marked, and the mission is queued and can be written. |
| `MissionLock.FindStatus` | mission-control/scripts/run-missions.ts:883-884 | The re-read under the lock says queued exactly when the folded board does. |
| `DecisionText.AskedIsValid` | mission-control/scripts/decisions.ts:54-66 | Every question parseDecision accepts is a line that the log's readers accept. |
| `DecisionText.PrintedReads` | mission-control/scripts/decisions.ts:46-66 | A question printed as the Builder is told to print it, after any reply and before any blank lines, is read back as it is. |
| `DecisionLog.ReadDecisionLines` | mission-control/server/decisions.ts:111-130 | The valid lines in file order, torn and malformed ones skipped. |
| `DecisionLog.FoldDecisions` | mission-control/server/decisions.ts:132-169 | The fold with rows updated in place lists each question once, in the order asked, with the row the lines give it. |
| `DecisionLog.FirstTerminalWins` | mission-control/server/decisions.ts:157-166 | The first answer among the options, or expiry, after the asking settles a question, and nothing else does. |
| `DecisionLog.SettledStays` | mission-control/server/decisions.ts:157-166 | A settled question never changes under any later lines. |
| `DecisionRounds.WaitForAnswer` | mission-control/scripts/decisions.ts:212-226 | Against any appends by others: what is returned as settled stands settled in the log, and a stop is reported only when told. |
| `DecisionRounds.Ask` | mission-control/scripts/decisions.ts:168-199 | However others append: the runner resumes with a choice only if the log says answered with it, gives up only if it says expired, and the question stands settled either way. |
| `DecisionRounds.WithDecisions` | mission-control/scripts/decisions.ts:144-210 | The Builder runs at most four times; every answer it is given stands in the log as the founder's choice for that very question; the final round carries the files and cost of all; the card goes back only once the last question stands expired. |
| `DecisionRounds.TotalKeepsFiles` | mission-control/scripts/decisions.ts:204-207 | Files written in any of the runs are among the final round's. |
| `DecisionRounds.ExpireOrphans` | mission-control/scripts/decisions.ts:228-265 | Exactly the questions pending when the log was read, with nobody listening on the board, are expired, and each stands settled afterwards. |
| `GlobPattern.GlobToRegex` | scripts/lib/classifier.js:54-78 | The loop that grows a string writes the text of the glob's pieces, the slash before a last double star taken back. |
| `GlobPattern.TextMeans` | scripts/lib/classifier.js:54-78 | The text written, read as a regular expression, accepts what the pieces accept. |
| `GlobPattern.GlobExact` | scripts/lib/classifier.js:54-78 | For every well-formed glob and every path the expression accepts exactly what the components match segment by segment, line breaks under a last double star refused. |
| `GlobPattern.GlobMeans` | scripts/lib/classifier.js:54-78 | On paths without line breaks, or for globs without a last double star, it accepts exactly what the components match. |
| `GlobPattern.GlobKeeps` | scripts/lib/classifier.js:54-78 | A glob keeps its meaning on all paths if and only if it is well formed, for every glob that does not end in a double star or whose components are all sound. |
| `GlobPattern.BreakRefused` | scripts/lib/classifier.js:63-66 | A last double star refuses a path of one line break, which its meaning takes. |
| `GlobPattern.PairCrosses` | scripts/lib/classifier.js:60-69 | A component that ends in a pair of stars takes a path across a slash. |
| `TierFloor.TierIsStrictest` | scripts/lib/classifier.js:132-167 | A path's tier is that of the strictest rule that applies, and Lite when none does. |
| `TierFloor.OrderIsNothing` | scripts/lib/classifier.js:132-167 | The same rules in any order, or repeated, give a path the same tier, enforcement, resolvers and claim kinds. |
| `TierFloor.ClassifyFiles` | scripts/lib/classifier.js:170-177 | The loop's floor is at least as strict as every path's tier, and is named by the paths. |
| `TierFloor.AppliesMeans` | scripts/lib/classifier.js:127-140 | A rule with a well-formed glob applies exactly to the paths its components match. |
| `WeekDates.AcceptedExactly` | mission-control/scripts/scorecard.ts:87-97 | isoWeekWindow accepts exactly the names of weeks that exist, with four-digit years, week 53 in long years only. |
| `WeekDates.RoundTrip` | mission-control/scripts/scorecard.ts:87-105 | The window of an instant's own week name holds the instant if and only if its ISO year is 1000 to 9999. |
| `WeekDates.NamedByWeek` | mission-control/scripts/scorecard.ts:99-105 | An instant of such a year is named by that year and a week that exists. |
| `WeekDates.WindowHoldsExactly` | mission-control/scripts/scorecard.ts:87-105 | An instant whose ISO year has four digits lies in a week's window exactly when that week names it. |
| `WeekDates.WindowsMeet` | mission-control/scripts/scorecard.ts:87-97 | Consecutive windows are seven days each and meet, with neither gap nor overlap. |

## Left out

Budget ledger:

- SQLite, its file format and its errors: tables are maps, a store's transaction is one step.
- SHA-256: any function that is injective and never empty.
- Strings are sequences of Unicode scalars, and key order compares scalars where the code compares UTF-16 units.
  The two differ beyond U+FFFF, and the canonical text needs only some fixed total order.
- JSON numbers are their literals in canonical spelling; the printing of doubles is not modelled.
- A ledger's own queue: each ledger has one operation at a time, which is what the queue ensures.
- A port read returns the whole suffix or fails; a port that returns something other than a list counts as failed.
- Opening the ledger and closing its files, and receipts.

Numbers and wire text:

- `JSON.parse` itself and the rule on doubles past 2^53-1: the walk starts from text that is JSON.
- BoundPattern.DecimalAtMost: the alternatives are pieces with a meaning of their own, not the text of a regular
  expression.
- ScanText.ScanText: whether a literal is spelled as `JSON.stringify` spells its value is a parameter, because it takes the
  printing of doubles; every result holds for any such judgement. Error messages are left out.
- Zod schemas, the wire encoding and JSON Schema.

Session index:

- The JSON and the date of a transcript line are a parameter: what a line records is any function for which a
  blank line records nothing and a line with a turn holds the usage marker. A turn's `stop` field is left out.
- SessionIndex.IndexStore.Refresh: sizes count code units where the code counts bytes, and reads of a listed file
  succeed or the file is gone; other I/O failures, and the counters of bytes, are left out.
- SessionRuns.IncrementalIsRebuilt: appended and replaced texts are whole lines, each file belongs to one project, and
  a replaced file is shorter than its entry, or has another window when its entry comes from the cache. The
  findings above are the inputs this shuts out.
- The payload hash is injective and never empty, and stored entries parse back as they were printed.
- Session lists, their order, the slices for the pages and the project discovery.

Scanners:

- ShellGrammar.OperatorsExact: printed command lines have no backticks, comments, `$'...'`, `${...}` or arithmetic. The
  scanner itself models them, and whether a `$((` opens arithmetic is a parameter there, any judgement: no printed
  command line starts one.
- WorkflowGrammar.WorkflowReads: values are plain scalars on one line or literal blocks; quoted and folded scalars, and
  what is refused, are in the reader and not in what is printed.
- The chain findings built on both.

Claims:

- ClaimYaml.ParseYamlSubset: block scalars are read by any function; the printed record has none.
- ClaimSchema.RecordValid: claims verified by a command or a judge, and dispositions, are judged by any predicate.
  Error messages are left out, as are keys such as `__proto__` and the order of integer keys.
- ClaimAppend.AppendAddsRecord: numbers are reals, printed and read by host functions that read their own plain printing
  back. The lines that say who appended and when hold no line break. The comparison of records after the round
  trip is replaced by equality.
- Addresses, fetching, resolvers, the rebuild of the claims index and the rollback of a failed commit.

Lock and decisions:

- The file system and process identities: linking, creating exclusively and removing are atomic steps, a lock's
  identity is never used again, and a process that has died stays dead.
- MissionLock.Directory.Claim: asking after the owner's pid, and a marker's age, are given as arguments; in the state
  machine they are steps of their own.
- Process groups, signals, time limits and launched agents.
- DecisionRounds.WithDecisions: the Builder is any function of the answers so far, and the clock and the polls are
  counts. Prompt text and notes are left out.

Globs and weeks:

- GlobPattern.GlobKeeps: a glob that ends in `**` and has a component that is not sound is not decided. Whether such a
  glob keeps its meaning depends on what its other components match, and not only on where its stars are: the
  unsound component of `**/?****/**` matches every filled segment, so the segments its stars let through are ones
  the first `**` may take as well.
- TierFloor.ClassifyFiles: the loading and checking of the tier map.
- Receipts, metrics and rendering of the scorecard.

Figures, memory entries, trust files, the dispatch consumer, routes and pages are not modelled.
