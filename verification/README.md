# thump, verified

A Dafny model of thump's incident loop and proofs about whole runs of it. thump
runs five beats: rattle detects, clank reasons, hiss governs, thump acts, click
learns. The project models the state machines that carry the loop's promises and
proves those promises for every input, every run or every reachable state. Where
a promise turns out false of the code, it proves exactly when it holds.

`dafny verify dfyconfig.toml` checks everything.

## How it is laid out

| files | what they model |
|---|---|
| `Boundary.dfy`, `Seqs.dfy`, `Decimal.dfy` | the boundary objects; facts about sequences and decimal numerals |
| `Ledger.dfy`, `Replay.dfy`, `Dedupe.dfy`, `CaseBase.dfy`, `Click.dfy` | the proposal ledger, its rebuild after a restart, dedup, the case base and the learn edge |
| `Framing.dfy`, `Segments.dfy`, `Wal.dfy`, `WalSafety.dfy`, `WalOrder.dfy`, `Journal.dfy` | the write-ahead log and shipper: bytes, names, a step machine over a small file system, durability, order, and the WAL object itself |
| `Catalog.dfy`, `Actuate.dfy`, `Thump.dfy`, `Undo.dfy`, `Transport.dfy` | contracts, the runner, rendering and settling, the machine of interleaved orders, and the transport object |
| `Governance.dfy`, `Holds.dfy` | hiss's governor; held decisions and their rebuild |
| `Gate.dfy`, `Confidence.dfy`, `Ranking.dfy`, `Audit.dfy`, `Engine.dfy`, `CrossPlane.dfy` | the reason loop against an adversarial model, its audit trail, and the authority a forward call carries |
| `Corpus.dfy`, `Mining.dfy`, `Subjects.dfy`, `Delivery.dfy`, `Redelivery.dfy`, `Rattle.dfy` | corpus mining, subject resolution, message delivery and what delivering twice does, detection and debouncing |

Code that updates state is modelled by classes and methods with loops, each
proved against a specification function or a step of a machine; the theorems are
then about those functions and machines. Results of I/O, clocks, the language
model, the cluster and the broker are inputs. Floats are reals; instants are
nanosecond counts.

## What the code does not do as documented

- *Replay can never diverge* (`internal/clank/rebuild.go:72-74`). Replay skips the
  checks the live path makes, so an answered outcome those would refuse makes the
  two part. `Replay.ReplayNeverDivergesIff` gives the exact condition for a stream
  that holds everything, `Replay.RetainedReplayIff` for one that has aged out a
  front: in addition nothing may have been open at the cut. Holds likewise
  (`Holds.RetainedIsLiveIff`).
- *A crash can never corrupt a sealed segment* (`internal/publish/wal.go:47-50`).
  It can tear the copy of a recovery that has not finished, running or given up,
  and no other (`WalSafety.CanTearIff`); no line is lost by it, since the active
  file is still there.
- *Sealed segments are safe to ship.* The shipper takes no lock and can upload the
  file recovery is still writing. Lines are lost iff that file is removed on an
  upload shorter than what recovery had to copy and the active file goes too, in
  either order (`WalSafety.LinesLostIff`).
- *Lexical order is seal order* (`internal/publish/shipper.go:22-26`). Offsets are
  counts, so they are reused after shipping and a restart; the order holds iff
  no segment present carries an offset above the count.
- *Drain covers whatever is active.* An orphan that no Append of this process has
  picked up is not sealed: the sink ends up with everything iff there was a handle
  or the orphan has no complete line (`Journal.WAL.Drain`).
- *A missed window never undoes a held action* (`internal/contract/contract.go:163-167`).
  It does iff the contract also restores on success.
- *A proposed release has moved nothing* (`internal/thump/transport.go:241-248`). A
  forward list that ends in a release but mutates before it has.
- *An unparseable band fails the ceiling* (`internal/hiss/authority.go:29-34`). It
  passes for a tier whose ceiling is missing or itself unrecognised.
- *The operator's cap is the highest band granted* (`api/v1/approval/approval.go:16-19`).
  Nothing reads it.
- *An approval is inert only if already resolved.* A hold is taken before its
  re-issue is audited and published, so a failure there loses the approval until
  a restart (`Holds.ApprovalLostIff`).
- A new case's confidence comes from the last candidate with the recommended ID;
  hiss, thump and the gate all use the first. They agree iff those two candidates
  carry one confidence (`Click.CaseConfidenceIsWeighedIff`).
- *Mining mirrors the live match* (`internal/clank/corpus.go:60-63`). Published sets
  carry no observation time, so the join answers with the first set of a
  fingerprint where the ledger answers with the newest open one
  (`Mining.MinedIsLearnedIff`).
- A detection let through by the debouncer in a pass that then fails, on any SLO, is
  lost for a whole hold (`Rattle.AbortSwallows`).
- *A live mutation is not run a second time* (`internal/actuate/runner.go:161-169`).
  Nothing remembers that an approval has been acted on. It acts on every delivery
  that meets the guard, so once iff exactly one of its at most six deliveries does
  (`Redelivery.ActsOnceIff`); with the guard met throughout, iff the first publishes
  both order and outcome and its ack is heard.
- A forward list refused half way leaves its mutations in place: the outcome is a
  failure, which nothing watches and nothing undoes (`Undo.HalfDoneIff`,
  `Undo.FailureIsNeverUndone`).
- *A redelivered detection is already answered* (`internal/clank/engine.go:133-143`).
  Not if its set was recorded and then not published: the redelivery is skipped and
  nobody hears of the incident for a dedup window (`Redelivery.SwallowedIff`).
- *Ranking is weighted by velocity* (`internal/clank/engine.go:112-116`). Acceleration
  never reorders anything (`Engine.AccelerationChangesNothing`).

## Assumptions

- The ledger replay theorems take live processing in stream order and a publish
  that succeeded for every gated set; equal stamps are needed only for the dedup
  query.
- The WAL's clock strictly increases from segment to segment, rename is atomic and
  durable, and a write is torn only by a crash.
- An acceptance watcher is configured only together with a reversal watcher.
- The stream drops messages oldest first, by its 48-hour age limit alone.
- The action catalog has unique names where a statement says so.

## Model

| member | source | states |
|---|---|---|
| `Ledger.MemProposalLog.Record` | internal/clank/ledger.go:40-67 | in-place pruning then append: what is dropped is exactly the closed entries older than the retention (a day if unset), the new entry comes last; a cancelled context changes nothing |
| `Ledger.MemProposalLog.Open` | internal/clank/ledger.go:75-88 | answers the dedup query as `OpenSets` defines it, including the nil-status dereference |
| `Ledger.MemProposalLog.Move` | internal/clank/ledger.go:94-134 | moves the newest open set of a fingerprint and no other entry, or answers nothing |
| `Ledger.MemProposalLog.Observe` | internal/clank/ledger.go:94-110 | moves the newest open set as its result says: closed by success, failure or a miss, acknowledged by a rendering, acted otherwise; result and instant recorded, nothing else touched |
| `Ledger.MemProposalLog.Decline` | internal/clank/ledger.go:117-134 | moves the newest open set to declined at the given instant, keeping its result |
| `Ledger.MemProposalLog.SeedAt` | internal/clank/ledger.go:139-143 | appends a replayed set under its own stamp, without pruning |
| `Ledger.PruneKeepsLive` | internal/clank/ledger.go:48-60 | pruning never touches the live view: what is not closed survives, in order |
| `Ledger.SettleOnLive` | internal/clank/ledger.go:94-134 | the answer to an outcome or decline, and what it leaves live, depend on the live view alone |
| `Ledger.OpenSetsOnLive` | internal/clank/ledger.go:75-88 | so does the answer to the dedup query |
| `Ledger.OpenSetsMeaning` | internal/clank/ledger.go:75-88 | the query panics iff a matching entry has no status, and otherwise returns exactly the matching open sets younger than the window |
| `Ledger.SettleFrame` | internal/clank/ledger.go:94-158 | no ruling touches a closed entry, and only the newest open set of its own fingerprint ever moves |
| `Ledger.OutcomeMoves` | internal/clank/ledger.go:145-159 | where an outcome leads, on its result alone, and that no other entry moves |
| `Ledger.DeclineMoves` | internal/clank/ledger.go:117-134 | the same for a decline |
| `Ledger.LiveCount` | internal/clank/ledger.go:94-159 | a ruling takes exactly one entry out of the live view iff it is answered and is a decline or a terminal outcome |
| `Ledger.NewestOpen` | internal/clank/ledger.go:94-134 | the backward scan finds the last open entry of a fingerprint, or none exists |
| `Replay.RebuildLedger` | internal/clank/rebuild.go:33-60 | a failed drain yields no ledger and touches no case; otherwise the ledger is that of replaying the sorted events, the case base gains exactly their cases, and without a case base none is needed; it fails iff a drain failed, the context ended before an outcome or decline, or a case that must be kept cannot be traced |
| `Replay.ReplayInto` | internal/clank/rebuild.go:79-102 | one event replayed through the ledger's own methods, with or without a case base |
| `Replay.SortByStamp` | internal/clank/rebuild.go:50 | a sorted permutation of the gathered events |
| `Replay.SortedOrderIsUnique` | internal/clank/rebuild.go:50 | with distinct stamps there is only one sorted order, so an unstable sort does no harm |
| `Replay.ReplayNeverDivergesIff` | internal/clank/rebuild.go:72-74 | for every history, replay from all its published events stays in step with the live ledger and the learned cases at every point iff no answered outcome is one the live path would have refused |
| `Replay.RetainedReplayIff` | internal/clank/rebuild.go:25-33 | with the front of the stream aged out: for every history and every cut, the rebuilt ledger stays in step from the cut on iff nothing was open at the cut and nothing slips after it |
| `Replay.ReplayFromIff` | internal/clank/rebuild.go:72-74 | the same from any state of the live ledger |
| `Replay.OpenSetsConserved` | internal/clank/ledger.go:40-159 | over every history the sets still open are those that passed their gate, less one for each answered decline and each answered, admitted, terminal outcome |
| `Replay.RetainedIsSuffix` | internal/broker/broker.go:65-76 | what the 48-hour stream still holds of a history is the stream of a suffix of it |
| `Replay.CutExists` | internal/broker/broker.go:65-76 | in stamp order there is such a suffix at every instant |
| `Replay.LiveSinceMeaning` | internal/clank/rebuild.go:25-33 | the live side of that comparison: the live sets, and the cases learned since the cut |
| `Replay.ForgottenSet` | internal/clank/rebuild.go:25-33 | a set open for longer than the stream remembers is forgotten: the live ledger answers its fingerprint, the rebuilt one is empty, although nothing slipped |
| `Replay.RefusedOutcomeDiverges` | internal/clank/rebuild.go:84-94 | the failing family: any answered outcome that fails the audit, coherence or provenance checks makes the two part |
| `Replay.ReplayDiverges` | internal/clank/rebuild.go:72-74 | a concrete divergence: a dry run that claims success |
| `Replay.RebuiltIsLive` | internal/clank/rebuild.go:33-60 | end to end: draining at any instant, sorting and replaying what is retained gives the live open sets and the cases learned since the cut, if nothing was open at the cut and nothing slipped after it |
| `Replay.MatchingAnswers` | internal/clank/rebuild.go:33-60 | ledgers that match answer every outcome, decline and (with equal stamps) dedup query alike |
| `Replay.LaterAgrees` | internal/clank/ledger.go:40-134 | matching ledgers stay matching through every later event, whatever each retains: pruning is unobservable |
| `Click.Click.Absorb` | internal/clank/click.go:35-52 | the answer exactly, on the outcome's own fields and in the order the checks run; refused outcomes change nothing; an admissible one settles the newest open set and appends its case iff it can be traced |
| `Click.LearnedIff` | internal/clank/click.go:35-52 | a case is learned iff that answer is Learned |
| `Click.NewCase` | internal/clank/click.go:61-80 | the case of a set and outcome; its confidence is that of the last candidate carrying the recommended ID |
| `Click.LastIsFirstConfidenceIff` | internal/clank/click.go:61-80 | the last candidate carrying an ID has the confidence the first-match lookup finds iff the two candidates' confidences are equal |
| `Click.CaseConfidenceIsWeighedIff` | internal/clank/click.go:61-80 | so a case remembers the confidence of the candidate hiss weighed iff the last candidate with the recommended ID has the first one's |
| `Click.UniqueIdsRememberWeighed` | internal/clank/click.go:61-80 | it always does when IDs are distinct |
| `Click.RepeatedIdSplitsConfidence` | internal/clank/click.go:61-80 | two candidates without an ID, at 0.9 and 0.2: hiss weighs the first, the case remembers 0.2 |
| `Dedupe.OpenSetsAreSpaced` | internal/clank/engine.go:133-143 | over every run of whole calls and rulings, two sets open at once for one fingerprint were recorded at least the dedup window apart |
| `Dedupe.LateRecordSpacedIff` | internal/clank/engine.go:430-455 | with interleaved calls the spacing survives a record iff no open set landed inside the window by then |
| `Dedupe.SpacedMeaning` | internal/clank/engine.go:133-143 | the spacing predicate stated on pairs of positions |
| `Dedupe.Propose` | internal/clank/engine.go:133-455 | the ledger calls one whole Propose makes, in order: precheck, gate query, record |
| `Dedupe.AttemptLeaves` | internal/clank/engine.go:133-455 | a call leaves nothing if the precheck finds an open set inside the window, otherwise exactly one entry, open iff formed with evidence and unduplicated at the gate |
| `CaseBase.CaseBase.Append` | internal/clank/casebase.go:61-80 | refuses untraceable cases, otherwise appends and drops the oldest when full |
| `CaseBase.SlidingWindow` | internal/clank/casebase.go:61-80 | after any history the base holds exactly the last MaxCases (10000 if unset) accepted cases, in order |
| `CaseBase.CaseBase.Tally` | internal/clank/casebase.go:108-127 | counts the live settled votes and the successes among them |
| `CaseBase.CaseBase.AlignmentFor` | internal/clank/casebase.go:108-127 | the success fraction over the votes, absent below two |
| `CaseBase.Alignment` | internal/clank/casebase.go:108-127 | present iff at least two votes, and always within [0,1] |
| `CaseBase.VotesMeaning` | internal/clank/casebase.go:108-127 | the electorate is exactly the live settled cases of the fingerprint; all or none successful reads as such |
| `Framing.LinesOfEncode` | internal/publish/wal.go:249-254 | reading back any concatenation of encoded lines, whatever torn tail follows, returns those lines in order, and cutting at the last newline drops only the tail |
| `Framing.EncodeLines` | internal/publish/wal.go:388-394 | every file is the encoding of its lines followed by its torn tail |
| `Framing.LinesOfPrefix` | internal/publish/wal.go:249-254 | cutting a file anywhere keeps a prefix of its lines |
| `Framing.SplitSegment` | internal/objectstore/objectstore.go:141-147 | the splitting loop returns the non-empty lines |
| `Framing.SplitReturnsTheLines` | internal/objectstore/objectstore.go:141-147 | splitting what the journal wrote returns exactly what was written |
| `Segments.NameRoundTrip` | internal/publish/wal.go:342-367 | parseSegmentName inverts segmentName on every nonnegative int64 offset and int64 instant |
| `Segments.ActiveNameIsNotSealed` | internal/publish/wal.go:349-367 | the active segment's name never parses as a sealed one |
| `Segments.NameInjective` | internal/publish/wal.go:342-344 | two segments share a name only if they share offset and instant |
| `Segments.NamesSortByOffset` | internal/publish/wal.go:342-344 | zero-padded names sort by offset, numerically |
| `Segments.NamesSortByTime` | internal/publish/wal.go:342-344 | with equal offsets and instants of equal width, by time |
| `WalSafety.StepKeeps` | internal/publish/wal.go:89-310 | every system call of append, seal, recovery, shipping and close, the shipping race included, and a crash at any point, keeps the journal invariant |
| `WalSafety.EveryLineAccountedFor` | internal/publish/wal.go:89-310 | over every run whatsoever each line kept is on disk, in the sink or lost, counted once, and the synced ones are among them |
| `WalSafety.LinesLostIff` | internal/publish/shipper.go:71-86 | over every run lines are lost iff at some step recovery's copy and the active file are both gone on an upload shorter than what recovery had to copy |
| `WalSafety.LosesIff` | internal/publish/shipper.go:71-86 | the same per step, in either order of the two removals; the segment is then one recovery wrote and its upload strictly shorter |
| `WalSafety.SyncedLinesSurvive` | internal/publish/wal.go:89-310 | over every run in which no upload reads recovery's target before its last byte, crashes inside recovery included, nothing is lost: disk and sink hold exactly the lines kept, each once, with every line an fsync covered |
| `WalSafety.FsyncedLinesSurvive` | internal/publish/wal.go:312-334 | once an fsync returns, every line then in the active file is on disk or in the sink after every later run without the race |
| `WalSafety.SyncAcks` | internal/publish/wal.go:210-216 | an fsync puts every line of the active file on record as covered |
| `WalSafety.FreshIsSafe` | internal/publish/wal.go:275-310 | an empty directory satisfies the invariant |
| `WalSafety.CanTearIff` | internal/publish/wal.go:47-50 | in every reachable state some crash shortens a sealed segment iff it is not fully synced, and then it is the copy of a recovery that has not finished |
| `WalSafety.TearsAnywhere` | internal/publish/wal.go:47-50 | and then at every byte past the sync mark, losing no line |
| `WalSafety.SealedSegmentsStayWhole` | internal/publish/wal.go:47-50 | after every run, no crash can shorten a segment that is no unfinished copy |
| `WalSafety.RaceLosesIff` | internal/publish/shipper.go:71-86 | the shipper can upload the segment recovery is still writing and remove it afterwards, and that run loses lines iff it read the file before the last byte |
| `WalSafety.LossReachesSyncedLines` | internal/publish/shipper.go:71-86 | when every line kept had been synced, any run that loses lines loses synced ones |
| `WalOrder.NextNameSortsLastIff` | internal/publish/wal.go:373-385 | the next name sorts after every segment present iff none carries an offset above their count |
| `WalOrder.ReusedOffsetJumpsQueue` | internal/publish/wal.go:373-385 | after shipping and a restart a reused offset sorts before older segments |
| `WalOrder.StepInOrder` | internal/publish/wal.go:210-310 | each step appends at most the line written to the ordered content, a crash takes the torn lines off its end, and nothing else moves |
| `WalOrder.ShippingPreservesOrder` | internal/publish/shipper.go:27-86 | over any number of process lives, with failing uploads and removes, recoveries given up and crashes anywhere, the sink, leftover copies aside, always holds a prefix of what was there and was appended and survived, and all of it once nothing is sealed or active |
| `WalOrder.StoredIsSinkIff` | internal/publish/shipper.go:27-86 | what the sink stores is that, without repeats, iff no leftover copy that was shipped holds a line |
| `Journal.WAL.Append` | internal/publish/wal.go:89-126 | the record goes in iff the context is live, a usable handle is there or can be had, the segment is young or its seal good, the record marshals and the write succeeds; nil iff it went in and the segment stays under the size bound or the seal it then owes is good; a legal run that loses nothing, the ordered content growing by exactly that record |
| `Journal.WAL.PrepareActive` | internal/publish/wal.go:95-104 | a handle on a segment young enough, iff recovery, open and seal, as needed, go well |
| `Journal.WAL.RotateIfOld` | internal/publish/wal.go:100-104 | a young segment is left alone; an old one is sealed with exactly its bytes, and that fails iff the seal does |
| `Journal.WAL.WriteLine` | internal/publish/wal.go:106-125 | one line written; nil iff the segment stays under the size bound or its seal goes well |
| `Journal.WAL.Seal` | internal/publish/wal.go:210-228 | sync, close, rename, open: succeeds iff every call does on an open handle, and then the sealed segment holds exactly the active bytes, fully synced; what each failure leaves |
| `Journal.WAL.SyncAndClose` | internal/publish/wal.go:210-216 | the half before the rename; a handle an earlier failed seal closed does nothing more |
| `Journal.WAL.RecoverOrphan` | internal/publish/wal.go:249-273 | copies the complete lines under a sealed name and removes the orphan iff create, full write, sync and remove succeed; otherwise leaves the orphan as it was |
| `Journal.WAL.CopyComplete` | internal/publish/wal.go:249-272 | the copy: synced in full, or given up |
| `Journal.WAL.EnsureActive` | internal/publish/wal.go:275-310 | nothing with a handle; otherwise a fresh segment iff the orphan, if any, is recovered and the open succeeds |
| `Journal.WAL.SealIfStale` | internal/publish/wal.go:163-176 | leaves every segment alone but a non-empty old one, which it seals; nil iff there was none or its seal goes well; the ordered content is unchanged |
| `Journal.WAL.Close` | internal/publish/wal.go:131-155 | once; afterwards no handle; nil iff there was none or both its sync and its close succeed, and a good sync leaves every byte synced |
| `Journal.WAL.ShipOne` | internal/publish/shipper.go:71-86 | the file goes only after its upload came back good |
| `Journal.WAL.Ship` | internal/publish/shipper.go:58-69 | ships in listing order up to the first failure: the sink gains exactly that prefix of the listing, the disk keeps the rest, and the ordered content is unchanged |
| `Journal.WAL.Drain` | internal/publish/wal.go:191-207 | nil iff the seal it may owe, every shipment and the close go well; after nil the sink holds every line held before the call iff there was a handle or the orphan has no complete line, and then in the order they were appended |
| `Journal.WAL.SealLast` | internal/publish/wal.go:194-201 | a non-empty active segment is sealed whatever its age |
| `Journal.DrainedIff` | internal/publish/wal.go:187-207 | with nothing sealed, the sink holds every line iff no complete line is left in the active file |
| `Journal.DrainedInOrder` | internal/publish/wal.go:187-207 | and for an orderly run holds them in order |
| `Journal.OrderGrows` | internal/publish/wal.go:89-207 | an orderly method run adds exactly the lines it appended at the end of the ordered content |
| `Journal.WAL.OpenActive` | internal/publish/wal.go:234-247 | a fresh, empty active segment, or no handle |
| `Journal.WAL.WriteCopy` | internal/publish/wal.go:249-272 | the copy written and synced in full, or given up with the orphan untouched |
| `Journal.HeldGrows` | internal/publish/wal.go:89-207 | every method keeps the invariant and adds exactly the lines it appended to what is held |
| `Journal.NextBaseOffset` | internal/publish/wal.go:373-385 | counts the names that parse |
| `Journal.CountIsSealed` | internal/publish/wal.go:373-385 | which is the number of sealed segments: the active file is never counted |
| `Journal.RunKeepsListed` | internal/publish/shipper.go:22-48 | over every run the segments stay in name order, so the sorted listing is seal order as far as names go |
| `Thump.Render` | internal/thump/actuator.go:53-96 | refuses unauditable, ungoverned, mismatched or uncatalogued grants, in that order, and otherwise renders from decision, candidate and contract only |
| `Thump.RefusedIff` | internal/thump/actuator.go:53-68 | which grants are refused and why, on the grant's own fields, for each of the four refusals |
| `Thump.RenderParameters` | internal/thump/actuator.go:83-88 | every scope parameter at its authored default |
| `Thump.CandidateOf` | internal/thump/actuator.go:98-105 | the first candidate with the ID |
| `Thump.HeldMissUndoesIff` | internal/thump/reversal.go:48-61 | a missed order that holds on a miss fires its undo iff it also restores on success, and only then does not read as held |
| `Thump.ReversalIs` | internal/thump/reversal.go:72-83 | an undo is the same contract under the same grant and signal, marked so that no switch stops it |
| `Thump.MissSays` | internal/thump/transport.go:303-343 | a miss names its target; a held one says so and ends in the authored fallback |
| `Thump.ExecutedIs` | internal/thump/gatedexecutor.go:34-55 | mode, result, text and refs of every outcome of executing an order: dry run, blocked, failed or what the runner reports |
| `Thump.SharedIdIff` | internal/thump/live.go:38-56 | two outcomes of one signal share an ID iff they are of one kind within one second |
| `Thump.ExecutedAdmissibleIff` | internal/thump/live.go:38-56 | whatever the executor, switch and runner do, the outcome passes the audit and coherence checks iff the grant had an ID |
| `Thump.ConvergenceAdmissibleIff` | internal/thump/transport.go:197-207 | so does the convergence outcome, on a win, a miss and a held miss |
| `Thump.FileSwitch.Reload` | internal/thump/killswitch.go:48-61 | armed afterwards iff the file was read, parsed and said so |
| `Transport.Transport.Execute` | internal/thump/gatedexecutor.go:34-55 | dry run, blocked, or one runner call whose result becomes the outcome; an undo is never blocked |
| `Transport.Transport.StartWatch` | internal/thump/transport.go:109-118 | a convergence watch for an applied live order, an acceptance poll for a proposed one, none otherwise |
| `Transport.Transport.CarryOut` | internal/thump/transport.go:89-131 | execute, watch, publish order and outcome, record: succeeds iff both publishes do; the call and the watch stand either way |
| `Transport.Transport.Handle` | internal/thump/transport.go:86-148 | one delivery is one step of the machine; the error is exactly a refused rendering or a failed publish; the cluster sees exactly what the one forward call did |
| `Transport.Transport.AfterPoll` | internal/thump/transport.go:249-277 | one acceptance answer is one step: refused or failed ends the order, accepted starts its convergence watch |
| `Transport.Transport.RecordAccept` | internal/thump/transport.go:282-298 | publishes the terminal outcome of an acceptance poll |
| `Transport.Transport.Settle` | internal/thump/transport.go:181-216 | one probe reading, one convergence outcome, as the machine step says |
| `Transport.Transport.FireUndo` | internal/thump/transport.go:216-239 | one undo through the same executor |
| `Transport.Transport.Shutdown` | internal/thump/transport.go:192-194 | every watch still waiting ends without effect |
| `Undo.UndoNeverOutruns` | internal/thump/transport.go:86-277 | under any interleaving of orders, redeliveries, reloads and shutdown, at every moment reverse calls for a ref do not outnumber its earlier successful forward calls |
| `Undo.OneVerdictOneUndo` | internal/thump/transport.go:181-277 | in every quiet run each applied order not cut off has exactly one convergence outcome, for its own refs, success iff its probe found the target met and partial_non_converging with a text otherwise, and exactly one undo iff (missed and not held on miss) or restored on success, whatever the switch did; every other order has neither |
| `Undo.SuccessIsAMetTarget` | internal/thump/transport.go:197-207 | over every run an outcome recorded says success iff it settles an order whose probe found the target met |
| `Undo.VotesAreProbes` | internal/clank/casebase.go:108-127 | and so in the case base: the case learned from a convergence outcome is a vote on its signal, successful iff the probe found the target met; no other outcome of a run is ever a success |
| `Undo.RecordsOnce` | internal/thump/transport.go:86-298 | each step records at most one outcome, for its own order's grant, signal and contract, at its own instant |
| `Undo.HeldMissIsUndoneIff` | internal/contract/contract.go:162-167 | in every quiet run a missed order that holds on a miss was undone iff it also restores on success |
| `Undo.EveryActionIsWatched` | internal/thump/transport.go:109-118 | with a watcher for what a ref reports, every successful forward call has exactly one order standing behind it |
| `Undo.DeliverCalls` | internal/thump/gatedexecutor.go:34-55 | one delivery makes exactly one forward call, for the order it renders, iff it is an approval that renders, the executor is live and the switch armed |
| `Undo.ForwardCallsAreDeliveries` | internal/thump/transport.go:86-148 | over every run the forward calls for a ref are exactly the deliveries of that ref that met this guard |
| `Undo.RedeliveryActsAgain` | internal/actuate/runner.go:161-169 | nothing remembers an approval acted on: delivered twice it acts twice iff it meets the guard at all |
| `Undo.HalfDoneIff` | internal/actuate/runner.go:268-275 | a failed forward call has moved the cluster iff a step was refused with a mutating one before it |
| `Undo.FailureIsNeverUndone` | internal/thump/transport.go:109-118 | a forward call that fails is a failure, starts no watch and is never undone: in every continuation the orders watched and the undos made are those of a run without it |
| `Undo.ForwardNeedsArming` | internal/thump/gatedexecutor.go:34-39 | after any run a delivery makes a forward call iff it is an approval that renders, the executor is live, and the last reading of the switch file was clean and said armed; then exactly one |
| `Undo.BornAuditableIff` | api/v1/outcome/outcome.go:33-51 | every outcome recorded in a run passes the ledger's checks iff every one was recorded for a grant that carried an ID |
| `Undo.IdentifiedApprovalsSuffice` | internal/thump/transport.go:86-298 | which is so when every approval rendered carries one, whatever publishes fail |
| `Actuate.Perform` | internal/actuate/runner.go:268-275 | calls in order, stopping at the first failure: exactly the prefix before it reached the cluster, however sequences nest |
| `Actuate.RunAction` | internal/actuate/runner.go:206-223 | an unbound ref is an error; otherwise the direction's operation runs and reports its result |
| `Actuate.ResultIsLastLeaf` | internal/actuate/runner.go:230-242 | the result reported is the last call's |
| `Actuate.ProposedMovesNothingIff` | internal/thump/transport.go:241-248 | a result of "proposed" means nothing in the cluster moved iff the forward list authors nothing but releases |
| `Actuate.OpFor` | internal/actuate/binding.go:45-61 | None iff no steps or one without a mechanism; otherwise all mechanisms in order |
| `Actuate.MechanismIs` | internal/actuate/binding.go:66-102 | a step has a mechanism iff its verb is one of the five with every target filled in, and is then carried out as itself |
| `Actuate.BindsIff` | internal/actuate/binding.go:18-61 | a catalog binds iff every contract authors both directions and completes every step |
| `Actuate.BindingFor` | internal/actuate/binding.go:32-42 | both directions or neither |
| `Actuate.Bind` | internal/actuate/binding.go:18-28 | all contracts or none |
| `Actuate.BoundNames` | internal/actuate/binding.go:18-28 | exactly the catalogued names are bound |
| `Actuate.BoundToOwnContract` | internal/actuate/binding.go:18-28 | with unique names every contract is bound to its own steps |
| `Actuate.BoundIsFaithful` | internal/actuate/binding.go:45-102 | a bound direction makes one call per authored step, in order, and at least one |
| `Actuate.ReleaseKeysDistinct` | internal/actuate/runner.go:317-322 | release keys determine ref and direction, unless a ref itself ends in the suffix |
| `Catalog.Applicable` | internal/contract/contract.go:30-45 | the contracts admitting class, tier and situation, in order |
| `Catalog.ApplicableToTier` | internal/contract/contract.go:53-65 | the menu for a tier, in order |
| `Catalog.ByName` | internal/contract/contract.go:70-77 | the first contract of that name |
| `Catalog.PreconditionsHold` | internal/contract/contract.go:95-102 | true iff every precondition holds |
| `Catalog.ApplicableMeaning` | internal/contract/contract.go:30-45 | a contract is listed iff it is catalogued and admits class, tier and situation |
| `Catalog.MenuThenClass` | internal/contract/contract.go:47-65 | filtering the tier's menu by class is asking for class and tier at once |
| `Catalog.FirstNamedUnique` | internal/contract/contract.go:70-77 | with unique names every contract is found under its own |
| `Governance.Evaluate` | internal/hiss/authority.go:49-113 | one decision per set: verdict by the two-stage rule, every applicable veto named in order, band granted only on approval |
| `Governance.VerdictIff` | internal/hiss/authority.go:49-113 | each verdict on the policy's and candidate's own fields: authored floor of tier then class, order of the bands, reversal, windows, and what bounds the risk |
| `Governance.ApprovedIff` | internal/hiss/authority.go:49-113 | the approval alone, for the candidate on the table |
| `Governance.ReasonsIff` | internal/hiss/authority.go:68-107 | a decision carries a reason iff the veto it names applies |
| `Governance.UnauthoredFloorNeverVetoes` | internal/hiss/authority.go:68-81 | where no floor is authored for tier and class none is a reason, negative confidences aside |
| `Governance.DecisionDescribesSet` | internal/hiss/authority.go:50-67 | whose decision it is, the floor it was held to, the bands asked, granted and risked |
| `Governance.StageOne` | internal/hiss/authority.go:67-93 | exactly the vetoes that apply, in order |
| `Governance.CheckFloors` | internal/hiss/authority.go:70-81 | the floor vetoes of the split and the collapsed gate |
| `Governance.CheckWindows` | internal/hiss/authority.go:89-93 | one reason per window containing the instant |
| `Governance.VetoesIff` | internal/hiss/authority.go:95-98 | no reason iff eligible |
| `Governance.RecommendedOf` | internal/hiss/authority.go:160-167 | the first candidate with the recommended ID |
| `Governance.EvaluatedAuditableIff` | api/v1/decision/decision.go:47-57 | every decision is auditable iff the policy is versioned and the clock set |
| `Governance.TighteningNeverLoosens` | internal/hiss/authority.go:49-145 | under a tighter policy every set earns a verdict at least as severe at every instant |
| `Governance.CollapsedApprovalIsSplitIff` | internal/hiss/authority.go:70-81 | a collapsed-gate approval is a split-gate approval iff the grounded score clears the floor |
| `Governance.SplitExtendsCollapsed` | internal/hiss/authority.go:70-81 | it always is when the emitted confidence does not exceed the computed one |
| `Governance.ExtraSplitApprovals` | internal/hiss/authority.go:115-125 | every extra split approval is automatically reversible with bounded blast, grounded, and only doubted by the model |
| `Governance.UnknownBandFailsIff` | internal/hiss/authority.go:29-34 | an unrecognised band fails the ceiling iff the tier's ceiling is itself recognised |
| `Governance.NeverHeldIff` | internal/hiss/policy.go:29 | a tier never holds anything iff its automatic ceiling ranks at least disruptive |
| `Holds.PendingHolds.Record` | internal/hiss/pending.go:29-33 | the hold is kept under its fingerprint, replacing any older one |
| `Holds.PendingHolds.Take` | internal/hiss/pending.go:38-46 | pops the hold, or nothing |
| `Holds.Hiss.Handle` | internal/hiss/transport.go:60-83 | judge, record what waits, publish: one step of the machine; nil iff published, and requested where it waits |
| `Holds.Hiss.ApproveHandler` | internal/hiss/transport.go:85-112 | take, re-stamp, audit, publish: one step of the machine; nil iff there was no hold or the re-issue went out |
| `Holds.RebuildHolds` | internal/hiss/rebuild.go:16-32 | the waiting ones among the latest decisions per fingerprint |
| `Holds.RebuiltIff` | internal/hiss/rebuild.go:16-32 | a fingerprint is held after a rebuild iff the last decision on it in the log is an escalation or hold, and then by that decision |
| `Holds.ReissueIs` | internal/hiss/transport.go:90-105 | which fields of a held decision an approval changes, and to what |
| `Holds.RebuiltWithinLiveIff` | internal/hiss/rebuild.go:16-32 | at every moment of a run, with forced decisions by others anywhere, a rebuild yields only live holds with equal values iff every waiting verdict is published and every taken hold re-issued (or the log shows none) |
| `Holds.RebuiltIsLiveIff` | internal/hiss/rebuild.go:16-32 | rebuilt from the whole log, the map equals the live one at every moment iff in addition no decision that does not wait lands on a held fingerprint but its own approval |
| `Holds.RetainedStaysWithin` | internal/hiss/rebuild.go:12-15 | losing any front of the log never invents a hold |
| `Holds.RetainedIsLiveIff` | internal/hiss/rebuild.go:12-15 | where the whole log rebuilds the live map, the retained part does iff no live hold's last decision lies before the cut |
| `Holds.RebuiltOfSuffix` | internal/hiss/rebuild.go:12-32 | a rebuild from a suffix keeps exactly the holds the suffix mentions |
| `Holds.ForgottenHold` | internal/hiss/rebuild.go:12-15 | a hold nobody approves for longer than the stream remembers is forgotten |
| `Holds.ReleasedAtMostOnce` | internal/hiss/transport.go:85-112 | under duplicate, unknown and redelivered approvals each recorded hold is released at most once, carrying exactly its held set |
| `Holds.ApprovalLostIff` | internal/hiss/transport.go:85-106 | an approval that finds its hold goes out iff policy version, clock and publish are good; if not, every redelivery is inert |
| `Holds.ApprovalRespectsCapIff` | api/v1/approval/approval.go:16-19 | the operator's band cap is respected iff it is absent or not below the requested band |
| `Audit.TrailCounts` | internal/clank/engine.go:97-124 | an unbroken trail asked the model once per step, consecutively, recorded and journaled at most one set, and published only that one with its gate passed |
| `Audit.ToolsFollowTheirCheckpoint` | internal/clank/engine.go:258-275 | a tool runs, and fails, only in a turn already checkpointed |
| `Audit.PublishComesLast` | internal/clank/engine.go:453-463 | a publish directly follows the record and the journal entry of the same set |
| `Engine.RunPropose` | internal/clank/engine.go:125-466 | for every model behaviour: at most MaxSteps completions, an unbroken trail, nothing on a skip, exactly one set recorded and journaled on any other nil-error exit, every published set gated and vetted, about its own signal; exit and trail exactly the functions of the inputs that ExitOf and TrailOf define |
| `Engine.ReasonLoop` | internal/clank/engine.go:243-348 | at most MaxSteps turns; never both proposed and declined; neither only when all turns are spent; exactly the completions, checkpoints and tool runs of the turns taken, in order |
| `Engine.TakeTurn` | internal/clank/engine.go:243-266 | ask, checkpoint, then run the calls, and exactly that |
| `Engine.Dispatch` | internal/clank/engine.go:268-347 | exactly the tools up to the first ending call ran, in order, a failing one included; the loop is left with their labelled evidence and what the ending call says |
| `Engine.DispatchIs` | internal/clank/engine.go:268-347 | an unknown tool is passed over, a failing one or an undecodable call fails the run, the first proposal or decline settles it with what it says |
| `Engine.Candidates` | internal/clank/tools.go:60-75 | the model's candidates, an unstated confidence read as 1 |
| `Engine.BelievedOf` | internal/clank/tools.go:60-75 | the four things a candidate takes from the model: ID, contract, citations, self-report |
| `Engine.Close` | internal/clank/engine.go:349-466 | the part after the loop: the set concluded, filed, and published only if vetted |
| `Engine.Conclude` | internal/clank/engine.go:349-451 | the set of each exit with its phase and reason; open iff its gate passed; a passed gate means the set is vetted and no duplicate was open |
| `Engine.FormSet` | internal/clank/engine.go:411-451 | shaped, gated and marked: a passed gate means vetted |
| `Engine.Shape` | internal/clank/engine.go:411-428 | enriched, scored and ranked: every candidate stays allowed and grounded, carries its contract's facts and exactly the confidence its evidence supports, and is numbered from one |
| `Engine.ShapedFrom` | internal/clank/engine.go:411-428 | each comes from a proposed candidate with ID, contract and citations kept and its confidence the smaller of self-report and computed |
| `Engine.File` | internal/clank/engine.go:453-463 | record, journal, publish, stopping at the first failure: exactly those effects |
| `Engine.EnforceCatalog` | internal/clank/engine.go:511-527 | passes iff every ref is catalogued for class, tier and situation; otherwise says whether the first refused one is catalogued at all |
| `Engine.EnforceCitations` | internal/clank/engine.go:529-549 | passes iff every candidate cites something, and only gathered keys |
| `Engine.EnrichFromCatalog` | internal/clank/engine.go:618-647 | each candidate stamped from the contract of its name |
| `Engine.AutomaticReversal` | internal/clank/engine.go:652-659 | true iff no reverse step is a release |
| `Engine.ScoreAll` | internal/clank/causal.go:55-61 | one score per change event, in order |
| `Engine.KeysNeverCollide` | internal/clank/engine.go:661-667 | an assigned evidence key determines tool and position |
| `Engine.AssignedKeysDistinct` | internal/clank/engine.go:661-667 | so no two keys assigned in one run are equal |
| `Engine.EvidenceIs` | internal/clank/engine.go:318-334 | evidence is what the tools answered, in order, a key supplied only where there was none |
| `Engine.AccelerationChangesNothing` | internal/clank/engine.go:112-116 | whether the signal accelerates never changes what a run concludes or publishes: no candidate ever carries a time to effect to rank by |
| `Gate.Evaluate` | internal/clank/gate.go:22-47 | a conjunction, with the reason of the first minimum missed |
| `Gate.AnyCoherentLive` | internal/clank/gate.go:56-63 | true iff some reference is live and about the incident |
| `Gate.SubjectInTopology` | internal/clank/gate.go:94-106 | true iff some node bears the name |
| `Gate.RecommendedEvidence` | internal/clank/gate.go:108-136 | the recommended candidate's cited evidence, or all of it for a set without candidates |
| `Gate.PassedMeans` | internal/clank/gate.go:22-136 | with candidates, the gate passes iff no duplicate is open and the recommended one resolves and cites gathered live evidence about the incident |
| `CrossPlane.CrossPlaneAuthority` | internal/clank/engine.go:375-463 | for every model behaviour, unique catalog and policy, a forward call that clank, hiss and thump lead to is for the candidate ranked first, catalogued for class and tier, resting on cited live in-topology evidence, inside every floor and band, with the switch armed |
| `CrossPlane.ActsOnIff` | internal/thump/gatedexecutor.go:34-55 | a published set leads to a forward call without a human iff the switch is armed, the executor live, the policy versioned, the clock set, and the policy's own fields grant the candidate ranked first |
| `CrossPlane.OneBackendNeverApproved` | internal/clank/confidence.go:91-103 | with no change in topology a candidate resting on one backend is never approved under a floor above the weight of one, whichever gate is configured |
| `CrossPlane.ApprovalRendersIff` | internal/thump/actuator.go:53-96 | an approval hiss gives itself renders iff policy version, clock and catalog are good, into an order for the candidate it weighed |
| `CrossPlane.HissIdentifies` | internal/hiss/authority.go:50-58 | every decision hiss makes or re-issues carries an ID |
| `CrossPlane.AuthorityIsReachable` | internal/clank/engine.go:375-463 | such calls do happen: for any fitting reversible contract, a model that asks one tool for a live coherent reference and cites it has a set published that, under a permissive policy, leads to one |
| `CrossPlane.ForwardCallIsAuthored` | internal/actuate/binding.go:18-61 | the cluster calls of a forward call are the authored forward steps of the catalogued contract of that name, in order, up to the first refused |
| `CrossPlane.Incident` | internal/thump/actuator.go:53-96 | the three beats run one after another: thump is left as one delivery of hiss's decision on the published set leaves it; a call is made iff that set is acted on; and the cluster sees a prefix of the admitted contract's authored steps |
| `CrossPlane.ForwardCallIsVouched` | internal/thump/gatedexecutor.go:34-39 | whoever granted it, a forward call for a published set is one clank vouches for, made with the switch armed |
| `CrossPlane.HumanApprovalIsVouched` | internal/hiss/transport.go:85-112 | a human approval sets the policy's vetoes aside and nothing else |
| `CrossPlane.OrderIsForTheFirst` | internal/clank/engine.go:423-428 | whatever the candidate IDs, empty or duplicate, the rendered order is for the candidate ranked first |
| `CrossPlane.SplitOnlyAdds` | internal/clank/confidence.go:77-80 | for published sets every collapsed approval is a split approval |
| `Confidence.ScoreEvent` | internal/clank/causal.go:63-118 | the capped, penalised and clamped likelihood |
| `Confidence.LikelihoodIs` | internal/clank/causal.go:63-147 | its closed form: recency, traffic share and observed rate each by its own weight, capped without a degraded node, one penalty per unseen signal, within [0,1] |
| `Confidence.NodeOfAt` | internal/clank/causal.go:120-129 | the node a change is about is the first of that name, upstream before downstream |
| `Confidence.StateObserved` | internal/clank/causal.go:149-158 | true iff some node is in that state |
| `Confidence.UncorroboratedIsCapped` | internal/clank/causal.go:63-118 | an event no degraded node backs never scores above its cap; every score is in [0,1] |
| `Confidence.CoherentLiveCitations` | internal/clank/confidence.go:23-36 | the number of distinct tools behind live, coherent citations |
| `Confidence.ScoreConfidences` | internal/clank/confidence.go:49-89 | every candidate rescored in place |
| `Confidence.ScoredIs` | internal/clank/confidence.go:49-122 | the closed form on the weights: signal times the weight of none, one or several backends, drawn towards a half by the observed rate, raised by the likeliest in-topology change and capped at 1; emitted as the smaller of that and the self-report |
| `Confidence.BackendsMeaning` | internal/clank/confidence.go:23-36 | a backend counts iff some reference of its is live, about the incident and cited |
| `Confidence.StrongestMeaning` | internal/clank/confidence.go:50-57 | the likeliest change: none iff none is in topology, otherwise the maximum |
| `Confidence.NoCauseIff` | internal/clank/confidence.go:38-57 | no change moves a confidence iff no change has its target in the topology |
| `Confidence.ComputedInUnit` | internal/clank/confidence.go:113-122 | computed confidence stays in [0,1] |
| `Confidence.EmittedIsCapped` | internal/clank/confidence.go:77-80 | emitted confidence is the smaller of self-report and computed |
| `Confidence.ScoringIsMonotone` | internal/clank/confidence.go:23-122 | more evidence or more changes never lower any candidate |
| `Confidence.RepeatingMovesNothing` | internal/clank/confidence.go:23-75 | repeating a backend or adding changes outside the topology moves nothing |
| `Ranking.Rank` | internal/clank/rank.go:28-44 | reordered by speed when accelerating, numbered from one |
| `Ranking.StableSortFacts` | internal/clank/rank.go:35-37 | a permutation by time to effect that keeps the order of equals |
| `Ranking.RankedMember` | internal/clank/rank.go:28-44 | ranking only reorders and numbers |
| `Ranking.ReadTimeToEffect` | internal/clank/rank.go:46-58 | the value of the leading digits |
| `Ranking.RecommendedIsFirst` | internal/clank/engine.go:425-428 | looking up the recommended ID yields the candidate ranked first |
| `Corpus.CollapseCases` | internal/clank/corpus.go:99-124 | one case per incident in order of first appearance |
| `Corpus.CollapsedKeepsBest` | internal/clank/corpus.go:99-124 | each key at most once, always settled, and every key keeps its latest settled case |
| `Corpus.CollapsedIdempotent` | internal/clank/corpus.go:99-124 | collapsing again changes nothing |
| `Corpus.BestIsLatest` | internal/clank/corpus.go:112-114 | no settled case of a key is later than the one kept |
| `Corpus.MergeCorpus` | internal/corpus/mine.go:225-252 | union on OutcomeRef, collapsed, by time |
| `Corpus.IncrementalIsBatch` | internal/corpus/mine.go:225-252 | when an OutcomeRef determines its case, merging any split of the cases in instalments yields the same cases as collapsing all at once |
| `Corpus.SharedRefKeepsTheFirst` | internal/corpus/mine.go:229-235 | without that, two settled cases under one OutcomeRef come out differently |
| `Mining.MineCorpus` | internal/clank/corpus.go:66-84 | joined, collapsed, by time |
| `Mining.LatestSetBefore` | internal/clank/corpus.go:126-139 | the latest set observed by then |
| `Mining.JoinMeaning` | internal/clank/corpus.go:60-84 | an outcome joins the latest set of its own fingerprint observed by then, whenever there is one |
| `Mining.EqualInstantsJoinFirst` | internal/clank/corpus.go:126-139 | among sets observed at one instant, as published ones are, it joins the first of its fingerprint |
| `Mining.MinedIsLearnedIff` | internal/clank/corpus.go:60-66 | over every stream the mined case of an outcome is the one the ledger's match would learn iff the set that answers is the first its fingerprint published |
| `Mining.RepublishedIsMinedAsFirst` | internal/clank/corpus.go:60-66 | so the two differ on every stream that publishes a fingerprint again |
| `Mining.ReplayRecords` | internal/clank/corpus.go:60-66 | a replayed ledger is the published sets up to their statuses |
| `Mining.InFlightCount` | internal/corpus/mine.go:163-181 | the incidents with only applied outcomes |
| `Mining.PopulationsAddUpIff` | internal/corpus/mine.go:160-181 | incidents = mined cases + in-flight iff every settled incident has a settled outcome that joins a set |
| `Mining.AllJoinAddsUp` | internal/corpus/mine.go:160-181 | the count equation when every outcome joins |
| `Mining.FloorSupportFor` | internal/clank/corpus.go:27-47 | admitted and refused counts and wins for a floor |
| `Mining.RaisingTheFloor` | internal/clank/corpus.go:27-47 | raising a floor only moves cases from admitted to refused; totals and wins are conserved |
| `Subjects.For` | internal/subjects/subjects.go:53-70 | returns s iff some rule matches and all matching rules of maximal constraint count name s, otherwise "" |
| `Subjects.CoversLabels` | internal/subjects/subjects.go:132-139 | true iff the query carries every wanted label |
| `Subjects.ClaimsIgnoreOrder` | internal/subjects/subjects.go:53-70 | what is claimed, and so the answer, is unchanged by permuting or repeating rules |
| `Subjects.MatchesIff` | internal/subjects/subjects.go:104-115 | a rule constrains only the coordinates and labels it declares |
| `Subjects.NarrowerWins` | internal/subjects/subjects.go:119-127 | a rule that declares more than another counts for more, strictly unless they declare the same |
| `Subjects.NarrowerMatchesLess` | internal/subjects/subjects.go:104-115 | and matches only what the wider one matches |
| `Delivery.BackoffFor` | internal/broker/subscriber.go:63-75 | the n-th failure waits the n-th scheduled delay, the last for ever after; an unreadable count the first |
| `Delivery.BackoffGrows` | internal/broker/subscriber.go:63-75 | on a non-decreasing schedule delays never shrink |
| `Delivery.Message.Deliver` | internal/broker/subscriber.go:95-152 | one delivery through the two failure doors |
| `Delivery.Live` | internal/broker/subscriber.go:87-155 | for every pattern of results a message is delivered until the server hears an ack or term, at most six times, and ends in one fate: acked iff its last handler call succeeded and was heard; otherwise by that last delivery unheard, abandoned, dead-lettered or lost; one that never decodes is dead-lettered iff some dead letter went out |
| `Delivery.DeliveriesMeaning` | internal/broker/subscriber.go:87-155 | the number of deliveries: up to the first that is handled and heard, or the sixth |
| `Redelivery.ActsOnceIff` | internal/actuate/runner.go:161-169 | over the whole life of an approval, at most six deliveries with any steps between them, the action is taken exactly once iff exactly one delivery meets the guard |
| `Redelivery.GuardedActsOnceIff` | internal/actuate/runner.go:161-169 | with the guard met throughout every delivery acts, so it is taken once iff the first delivery publishes order and outcome and its ack is heard |
| `Redelivery.ActionsAreGuarded` | internal/thump/transport.go:86-148 | the deliveries of a message act as often as they meet the guard |
| `Redelivery.UnrenderableNeverActs` | internal/thump/transport.go:86-100 | an approval that does not render comes six times and never acts |
| `Redelivery.Consume` | internal/broker/subscriber.go:95-152 | the subscriber around thump's handle: the message is delivered exactly that often and leaves the transport in the state those deliveries lead to |
| `Redelivery.SwallowedIff` | internal/clank/engine.go:133-143 | a run that fails and whose redelivery is skipped as already answered, so that nothing is ever published, is exactly one whose set passed its gate and was recorded, then could not be journaled or published, is still open, and comes again inside the dedup window |
| `Redelivery.SwallowedPublishesNothing` | internal/clank/engine.go:133-143 | neither run publishes anything |
| `Rattle.Diffs` | internal/rattle/detector.go:91-100 | consecutive differences |
| `Rattle.Mean` | internal/rattle/detector.go:102-111 | the mean, zero for none |
| `Rattle.MeanSecondDifference` | internal/rattle/detector.go:73-111 | both means telescope to the end samples |
| `Rattle.DetectAcceleration` | internal/rattle/detector.go:73-81 | fires iff the window rises end to end and the closed-form acceleration exceeds the threshold |
| `Rattle.DetectSustained` | internal/rattle/detector.go:125-136 | fires iff every trailing sample is at the level; panics iff the sample count is negative |
| `Rattle.Debouncer.Allow` | internal/rattle/debounce.go:26-33 | allows and restamps, or refuses and does not |
| `Rattle.FingerprintsDistinct` | internal/rattle/reconcile.go:108-112 | different objects never share a fingerprint |
| `Rattle.Reconcile` | internal/rattle/reconcile.go:40-106 | one pass; an error returns no detections but keeps the stamps |
| `Rattle.EmissionsAreSpaced` | internal/rattle/reconcile.go:40-106 | over every history of passes, aborted ones included and whatever the clock does, two emitted detections of one fingerprint are at least the hold apart |
| `Rattle.AbortedIff` | internal/rattle/reconcile.go:40-106 | a pass aborts iff some watch has a failing burn, correlation or baseline query, or a failing traffic query after the debouncer let its detection through |
| `Rattle.DeliveredIff` | internal/rattle/reconcile.go:40-106 | in every pass, whatever was let through and so stamped is delivered iff no query the pass comes to fails, a later SLO's included |
| `Rattle.AbortSwallows` | internal/rattle/reconcile.go:40-106 | after any pass with a failing query nothing it let through is delivered, and no later pass delivers one of those fingerprints before the hold since its stamp is over |
| `Rattle.NextPassesIff` | internal/rattle/reconcile.go:85-87 | however many passes later, the next firing of a stamped fingerprint gets through iff the hold since the stamp is over |

## Left out

- The NATS, S3, Kubernetes, Prometheus, Loki, Tempo and model clients: their results are inputs.
- AES-GCM sealing and TLS setup: library cryptography.
- Tracing, metrics, logs, health endpoints and notifications: they decide nothing.
- YAML and environment loading, profile validation, the calipers commands, rendering, reports and harvest: field checks, user interface or orchestration.
- Prompt text, JSON schema reflection and release notes: strings for readers.
- Thump.MissSays: the texts put their target in Go quotes; the model leaves the quotes out.
- Thump.Render: the order's notes, a text for operators, are left out; no modelled operation reads them.
- Transport.Transport.Settle: whether a watch's own publish goes through, which the code only logs; the outcome is recorded either way.
- Float rounding, and the overflow of the digit loop behind time to effect on very long numerals.
- The WAL's background sync timer as a thread: an fsync step may come at any point instead.
- The correlation and envelope detectors, and the enrichment of a detection: a reading either fires or does not.
- Fields of boundary objects that no modelled operation reads, such as hypotheses and rationale texts.
- Wall-clock waiting in the watchers: a window that has elapsed is a step that may be taken.
- File-inbox transports: the broker and file feeders call the same handlers.
- A hold whose approval request cannot be created is modelled; the approval request object itself is not.
- Journal.WAL.Append: marshalling is an input; a record that does not marshal is the `None` line.
- WalOrder.ShippingPreservesOrder: for a shipper that stays off the segment recovery is writing, and for instants of equal digit width (the years 2001 to 2286); the ordered clauses of Append, SealIfStale, Ship and Drain take the same.
- Delivery.Live: two deliveries of one message running at once, after an ack wait that ends under a handler still at work, are taken one after the other.
- WalSafety.SyncedLinesSurvive: for runs in which no upload reads recovery's target before its last byte; LinesLostIff covers every run.
- Holds.RebuiltWithinLiveIff: decisions that wait are only ever made by hiss itself; those of others do not wait.
- Corpus.IncrementalIsBatch: takes an OutcomeRef to determine its case; SharedRefKeepsTheFirst shows the assumption is needed.
- Undo.OneVerdictOneUndo: a process killed without shutdown drops its watches, as the code does; such runs end without going quiet.
