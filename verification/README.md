# A verified model of the PBFT replica

This project models the Go replica of `pbft/` (Castro and Liskov, "Practical Byzantine Fault Tolerance",
OSDI 1999: the normal case of section 4.2, garbage collection of 4.3, view changes of 4.4) and the reply
quorum of `client/`, and proves what their code keeps over whole runs. `dafny verify dfyconfig.toml` checks
everything.

The objects of the source are classes whose methods update the same fields in place, and each
method is proved equal to a function on values. The theorems about runs are then about those functions.

| file | models |
|---|---|
| `Messages`, `Decimal`, `Arithmetic`, `Quorums` | the messages, Go's 64-bit integers with `Itoa` and `Atoi`, division, quorum sizes |
| `VoteCollector`, `TransactionStates` | `pbft/transaction_state.go`: the per-request collector, its runs, and the object |
| `Store`, `Stores`, `StoreRuns`, `StoreBookkeeping`, `StateTransfer` | `pbft/store.go`: execution in order, checkpoints, state transfer, and the objects |
| `Replica`, `Nodes`, `ReplicaRuns` | `pbft/node.go`: the handlers, the object, and runs of one replica |
| `System`, `PreparedQuorum`, `OneView`, `ForeignView` | N replicas and a network that only collects messages; what holds in every run of it, and what depends on the new-view messages |
| `FirstView`, `Agreement`, `StableAgreement`, `HonestCheckpoints` | runs under one correct primary, and the replicated log, across stable checkpoints too |
| `ViewChangeRules`, `ViewChanger`, `Certificates` | `pbft/view_changer/view_changer.go`: votes, certificates, the new leader's choice |
| `Freeze`, `KeptCollectors`, `CrashFaults`, `CrashRuns`, `Survival`, `LateVotes` | what survives the change from the first view, and exactly when |
| `HonestViews`, `ViewAgreement`, `ViewSurvival` | runs through any number of honest new views, and what survives the change from a later one |
| `StuckNumbers` | committed numbers that are never executed |
| `Scripts`, `Scenes`, `JointScenes`, `NewViewScenes`, `FirstNumberCommitted`, `FirstNumberExecuted`, `ThreeVotes` | pieces of concrete runs |
| `LostRequests`, `StatusResponses`, `Renumbering`, `NewLeader`, `Reannouncements`, `SecondAnnouncement`, `StalledExecution`, `FalseCheckpoint` | the runs in which the code fails |
| `Client`, `LeaderElection` | `client/client.go` and `pbft/leader_election/round_robin.go` |

A handler, an `Add*` body and a `checkCallbacks` body are each one atomic step. Whatever the source starts
with `go` becomes a task that may run at any later time, in any order. Messages in the network may be
lost, reordered and delivered any number of times. A broadcast goes to the others only; the concrete runs keep to
that (`NoEcho`), while the results about all runs do not need it.

## What the proofs found

- A committed request survives a view change only under conditions the code does not ensure. The new leader
  re-issues it exactly when no voter was blind and some voter held its certificate, in a collector it had not given
  up, when it voted (`Survival.ReissuedExactlyIf`). These conditions can fail after a commit, in runs in which nobody
  lies, in three ways:
  - A voter that has 2F prepares for a number and not its pre-prepare (a blind voter) sends a certificate
    without a pre-prepare, on which the new leader dereferences nil (`Certificates.VoteCrashesLeaderIff`,
    `LostRequests.BlindVoterStopsTheLeader`).
  - A prepare that was accepted but whose `AddPrepare` has not run when the replica votes is missing from the
    vote, and the replica still broadcasts its commit afterwards (`LateVotes.VoteSpeaksIff`,
    `LostRequests.LateVotersLoseTheRequest`).
  - A status response with a proof and a stable number not below the replica's own makes it give up all its
    collectors, those above that number with their certificates included, and leave a view change it is in
    (`StatusResponses.InstalledStatusEmptiesTheVote`, `StatusResponses.StatusResponsesLoseTheRequest`).
- The same holds for a request that was committed in a later view, if that view has one digest per number
  (`ViewSurvival.CommittedInViewSurvives`).
- The code does not ensure that a view has one digest per number. A new leader that re-issues two numbers or more
  gives the second of them out again, to the next request (`Renumbering.NewLeaderNumbersAgainIff`), even if it was
  committed (`NewLeader.CommittedNumberIsGivenAgain`). A primary that installs a status response gives the numbers
  from two above the reported one out, for the second time if it has come so far
  (`Renumbering.PrimaryNumbersAgainIff`, `Renumbering.PrimaryNumbersTwice`).
- The leader announces its new view again with each vote after the 2F+1-th, and every announcement makes its
  receivers give up the certificates of the last (`Reannouncements.AnnouncementEmptiesTheVote`), so that a request
  committed in between is lost (`SecondAnnouncement.AnnouncedAgainLosesTheRequest`).
- Behind every execution there are F+1 correct replicas that held a certificate, but its prepares need not be
  of one view: `HandleNewViewRequest` accepts pre-prepares of another view than the message's
  (`OneView.ExecutionIsOfOneViewIff`, `OneView.CertificateIsOfOneViewIff`,
  `ForeignView.ForeignNewViewsBreakTheView`).
- A quorum that was announced for one pre-prepare is not announced again for a later one whose digest the same
  votes carry, for example after an empty digest (`VoteCollector.NoLostWakeUp`,
  `VoteCollector.EmptyDigestOvertakes`).
- With F = 0 the prepared callback can never fire: the threshold is tested by equality after an insert
  (`VoteCollector.NeverPreparedWithoutFaults`). A repeated vote that lands on the threshold fires its callback again,
  and past the threshold none does (`VoteCollector.RepeatedPrepareFiresAgainIff`,
  `VoteCollector.RepeatedCommitFiresAgainIff`).
- `Commit` of a number whose batch is not there yet writes a nil entry, and execution stops at it until the
  number is committed again. Only a commit after its batch counts (`StoreRuns.CommitOrderDoesNotMatter`). A primary
  starts the filing of its batches and goes on, so this can happen to it. At exactly 2F+1 commits a repeated one heals
  it; with one more commit the number is never executed in that view (`StuckNumbers.StuckForGood`,
  `StalledExecution.PrimaryStalls`).
- Stabilising a checkpoint leaves the right state in some cases and not in others.
  `StateTransfer.StateTransferIsExactIff` says in which, and `StateTransfer.StabilisingGoesBack` is a run that ends in
  a wrong one. Over whole runs, the replicas' states stay right exactly if each jump to a checkpoint is one of the
  good cases (`StableAgreement.RightIffExact`, `HonestCheckpoints.EveryoneRightIffExact`).
- Checkpoint votes are counted per message: one faulty backup makes any checkpoint stable, by repeating its vote
  (`FalseCheckpoint.OneVoterIsEnough`).
- The primary assigns numbers without looking at the watermark window, and can leave it
  (`ReplicaRuns.PrimaryKeepsWindowIff`, `ReplicaRuns.PrimaryLeavesWindow`).
- The client delivers one answer for each test that finds exactly F+1 agreeing replicas
  (`ClientReplies.AnsweredIffTestedAtQuorum`). Two responses that are added before either is tested can both
  miss that test, and then no answer is delivered (`ClientReplies.InterruptedCallsLoseTheAnswer`); a test that
  finds the number again delivers again (`ClientReplies.SplitAnswersDeliverTwice`).

## Model

| member | source | states |
|---|---|---|
| Survival.ReissuedExactlyIf | pbft/view_changer/view_changer.go:196-269 | in a crash run -- the first view, nobody lies, status responses come as sent and the first primary installs none that changes its counter -- whatever `createPreprepareMessages` makes of 2F+1 votes with stable numbers below n: it re-issues n with exactly the digest the first primary gave it if and only if no voter held 2F prepares for a number without its pre-prepare, and some voter's current collector held n's certificate, when it voted |
| Survival.CommittersVote | pbft/view_changer/view_changer.go:196-269 | with N = 3F+1, once n is committed at any replica of a crash run, of any 2F+1 voters F+1 held n's certificate when they voted, or had it only due (in a collector given up, or accepted and not yet added), or were taken out of the view change by a status response |
| Survival.CommittedRequestSurvives | pbft/view_changer/view_changer.go:196-269 | so, unless a voter had the certificate only due or was taken out of the view change, a committed n is re-issued by the new leader, with exactly its digest, if and only if no voter was blind |
| Survival.ProvesIff | pbft/node.go:400-416 | a vote proves exactly the numbers whose certificate its sender's current collectors hold |
| Survival.SettledIsNotDue | pbft/node.go:264-273 | a voter that has run the `Add*` calls it started, and given up no collector above its stable number, has no certificate above it only due |
| Survival.UnresetVoter | pbft/node.go:479-500 | a voter that installs no status response has given up no collector above its stable number, and is in the view change from its vote on |
| LateVotes.VoteSpeaksIff | pbft/node.go:303-309 | a vote cast in the view change carries, in every continuation short of a new view or a status response at its sender, every certificate its sender then holds above its stable number, exactly when, as it was cast, every such certificate held or about to be completed was in a current collector |
| ViewSurvival.ReissuedInViewIff | pbft/view_changer/view_changer.go:196-269 | if a voter held n's certificate of the view when it voted, and no voter has entered a later view, n is re-issued with the view's digest exactly if no voter was blind, whatever certificates of earlier views the votes carry |
| ViewSurvival.CommittersVoteInView | pbft/view_changer/view_changer.go:196-269 | of any 2F+1 voters, F+1 held n's certificate of the view n is committed in when they voted, had it only due, or left the view change |
| ViewSurvival.CommittedInViewSurvives | pbft/view_changer/view_changer.go:196-269 | for any view with one digest per number, in any honest run through any views: with N = 3F+1, once n is committed in that view anywhere and the 2F+1 voters have entered no later one, unless a voter had the view's certificate only due (in a collector given up, or accepted and not yet added) or left the view change, the new leader re-issues n with the view's digest if and only if no voter was blind |
| ViewSurvival.SettledIsNotDueInView | pbft/node.go:264-273 | a voter in the view that has run the `Add*` calls it started, and given up no collector of the view above its stable number, has nothing only due there |
| ViewSurvival.HeldStays | pbft/node.go:231-466 | through all views of an honest run, a certificate of a view with one digest per number, once held, is held ever after by some collector of its holder |
| ViewSurvival.FirstViewAgrees | pbft/node.go:179-229 | in a crash run the first view has one digest per number, that of the log, and nobody votes from a later one |
| ViewAgreement.RunsAgree | pbft/node.go:179-466 | in such a run, every pre-prepare, prepare, commit and started task for the view, at every replica and in the network, carries the view's digest of its number |
| LostRequests.BlindVoterStopsTheLeader | pbft/view_changer/view_changer.go:287-290 | a crash run of four replicas: number 1 is committed, three voters have nothing due and never leave the view change, and every leader dereferences nil on their votes |
| LostRequests.LateVotersLoseTheRequest | pbft/node.go:303-309 | a crash run of four replicas: three backups vote before the `Add*` calls they started, their commits follow, the first primary executes number 1, and every new leader re-issues nothing |
| StatusResponses.InstalledStatusEmptiesTheVote | pbft/node.go:487-498 | whatever certificates a replica holds, after it has installed a status response the vote it casts has none |
| StatusResponses.StatusResponsesLoseTheRequest | pbft/node.go:479-500 | a crash run of four replicas: number 1 is executed at the first primary and its checkpoint stable at a backup, number 2 is committed with its certificate at all three backups, each of them installs a status response before it votes, and every new leader re-issues nothing |
| Renumbering.PrimaryNumbersAgainIff | pbft/node.go:487-498 | in any crash run, if the first primary installs a reported stable number k, its next request gets number k + 2, which was given out before exactly if the log is that long; and k is at most the log's length |
| Renumbering.PrimaryNumbersTwice | pbft/node.go:479-500 | a run of four honest replicas in which number 3 of the first view is given to any two requests |
| Renumbering.NewLeaderNumbersAgainIff | pbft/node.go:422-450 | the number a leader gives to its first request in the view it has announced is one that it has re-issued there, exactly if it has re-issued more than one |
| NewLeader.CommittedNumberIsGivenAgain | pbft/node.go:422-450 | an honest run of four replicas: number 2 is committed for one request and re-issued for it in view 1, and the leader of view 1 gives number 2 of that view to the next request |
| Reannouncements.AnnouncementEmptiesTheVote | pbft/node.go:422-466 | whatever certificates a replica holds, after an announcement of its current or a later view the vote it casts has none |
| SecondAnnouncement.AnnouncedAgainLosesTheRequest | pbft/view_changer/view_changer.go:128-149 | an honest run of four replicas: number 1 is committed in view 1, a fourth vote makes the leader announce view 1 again, the backups enter it again, and every leader of view 2 re-issues nothing |
| Freeze.StepStaysFrozen | pbft/node.go:238-321 | in a view change no collector gains a vote that was not on its way, whatever arrives short of a new view or an installed status response |
| CrashRuns.CrashRunsSurvive | pbft/node.go:179-416 | in every crash run, status responses included, each broadcast commit is backed by a certificate that some collector of its sender still holds, and everything sent or held agrees with the primary's log |
| CrashRuns.SentVoteWasCast | pbft/view_changer/view_changer.go:159-172 | in any run, every vote that was sent was cast by its sender, from the state the other results speak of |
| CrashRuns.KeptUnlessReset | pbft/node.go:231-398 | until it installs a status response, a replica of a crash run gives up a collector only when its number is stable |
| CrashFaults.CommittedMoves | pbft/node.go:339-373 | executing never loses a certificate and takes checkpoints only for numbers of the primary's log |
| CrashFaults.CheckpointMoves | pbft/node.go:375-398 | garbage collection drops only collectors whose number is stable |
| Certificates.HonestCertificateAcceptedIff | pbft/view_changer/view_changer.go:259-269 | over any run of the whole system, the certificate a correct replica lists for an entry passes the receiver's test exactly when 2F held prepares carry the digest of the held pre-prepare, and always for a non-empty digest |
| Certificates.HonestVoteIsAccepted | pbft/node.go:400-416 | in whatever order its map is ranged, every certificate with a non-empty digest in a correct replica's vote passes that test |
| Certificates.VoteCrashesLeaderIff | pbft/view_changer/view_changer.go:287-290 | a correct replica's vote makes the new leader dereference nil exactly when the replica holds a prepared entry without a pre-prepare |
| Agreement.ExecutedIsLogPrefix | pbft/node.go:179-373 | under any reordering, loss and repetition and any votes of faulty backups, what a correct replica executed is a prefix of the primary's log, answered as a replay of it, with the checkpoints of that prefix |
| Agreement.ReplicasAgree | pbft/node.go:339-373 | of any two correct replicas one has executed, and answered, a prefix of the other |
| StableAgreement.RightIffExact | pbft/store.go:72-195 | with faulty backups, stable checkpoints and status responses, if all operations use the empty key and what a replica jumps to are checkpoints of the log: its values are at all times those of the numbers it counts as applied, exactly if at each jump it stands where `StateTransferIsExactIff` asks for |
| StableAgreement.ExecutesTheLog | pbft/node.go:339-373 | while these jumps are exact, each execution is of the log's requests for the next numbers, answered as in a replay of the log, with the checkpoints due among them |
| StableAgreement.SameNumberSameAnswer | pbft/node.go:339-373 | so two replicas that execute the same number execute the log's request for it and answer it alike |
| StableAgreement.NoNumberTwice | pbft/store.go:115-195 | no replica executes a number twice, whatever it jumps to |
| HonestCheckpoints.EveryoneRightIffExact | pbft/store.go:81-105 | in every crash run on the empty key, with no assumption on the checkpoints: all replicas' values are always right exactly if every replica stands where it has to at each jump |
| HonestCheckpoints.EveryoneExecutesTheLog | pbft/node.go:339-373 | and then every execution of such a run is of the log's requests for the next numbers, answered as in a replay of the log |
| FalseCheckpoint.OneVoterIsEnough | pbft/store.go:81-105 | a faulty backup's vote for any number and digest, heard 2F+1 times, is stable and counts as executed at a correct replica before any request was made |
| FirstView.RunsFit | pbft/node.go:179-276 | every pre-prepare, batch and commit a correct replica holds is the one the primary's log has for that number |
| PreparedQuorum.ExecutionNeedsPreparedQuorum | pbft/transaction_state.go:94-151 | with at most F faulty replicas, in every run, view changes, faulty primaries and arbitrary new-view messages included: when a correct replica's committed callback fires for n, F+1 correct replicas have each held, in one collector for n, a pre-prepare of the view that collector was created in and 2F prepares, with the executed digest unless it is empty |
| OneView.ExecutionNeedsQuorumOfOneView | pbft/node.go:452-466 | if moreover every new-view message numbers its pre-prepares with its own view, these certificates are for the executed number, digest and view in all their prepares |
| OneView.ExecutionIsOfOneViewIff | pbft/node.go:452-466 | in every run, of the F+1 replicas behind an execution exactly those have held a certificate of the executing collector's view in all its prepares that held one in a collector created in that view, with the own prepare of it |
| OneView.CertificateIsOfOneViewIff | pbft/node.go:452-464 | in any run, a held certificate is of its pre-prepare's view exactly when the pre-prepare and the own prepare are of the view the collector was created in |
| ForeignView.ForeignNewViewsBreakTheView | pbft/node.go:452-464 | a run of four replicas, one faulty: a request is executed and no replica ever held a certificate of one view |
| PreparedQuorum.RunsAreOk | pbft/node.go:278-337 | every vote in a collector is filed under its sender, for the collector's number, and really sent by it if correct; commits are of the collector's view; every broadcast commit comes from a replica that held the certificate |
| PreparedQuorum.AddToStoreHasPrePrepare | pbft/transaction_state.go:68-73 | in every run, the collector of a started `AddToStore` has its pre-prepare, so nil is never dereferenced there |
| VoteCollector.FiredCallbacksAreCertified | pbft/transaction_state.go:38-151 | after any messages, duplicates and replaced pre-prepares, a firing callback names the held pre-prepare, and 2F prepares (2F+1 commits) of distinct replicas with its non-empty digest are held |
| VoteCollector.NoLostWakeUp | pbft/transaction_state.go:38-151 | under any traffic, once no check is outstanding, a held quorum of either phase has been announced for the current pre-prepare exactly unless that came when the quorum's flag was spent on another, and no vote has raised it since |
| VoteCollector.SteadyTrafficIsAnnounced | pbft/transaction_state.go:38-151 | it has been if all pre-prepares are for one number and view and none with an empty digest comes before one with another |
| VoteCollector.EmptyDigestOvertakes | pbft/transaction_state.go:42-63 | a run in which it has not: two prepares fire under an empty digest, then the pre-prepare they are for arrives |
| VoteCollector.ExactlyOnce | pbft/transaction_state.go:84-151 | with one vote per replica and phase, in any interleaving, each callback fires exactly once if its quorum for the pre-prepare's digest arrived and never otherwise |
| VoteCollector.NothingFiresWithoutPrePrepare | pbft/transaction_state.go:134-151 | without a pre-prepare neither callback fires, however many votes arrive |
| VoteCollector.NeverPreparedWithoutFaults | pbft/transaction_state.go:84-88 | with F = 0 the prepared flag is never set |
| VoteCollector.RepeatedPrepareFiresAgainIff | pbft/transaction_state.go:84-91 | a repeated prepare fires the callback again exactly when it is accepted on the threshold |
| VoteCollector.RepeatedCommitFiresAgainIff | pbft/transaction_state.go:94-111 | a repeated commit fires the callback again exactly when it is accepted at 2F+1 held commits |
| TransactionStates.TransactionState.AddPrePrepare | pbft/transaction_state.go:38-66 | the purge of votes with another digest, the two flags it may clear, and one more check |
| TransactionStates.TransactionState.AddPrepare | pbft/transaction_state.go:75-92 | a prepare with a foreign digest changes nothing; any other is filed and tested against 2F |
| TransactionStates.TransactionState.AddCommit | pbft/transaction_state.go:94-111 | the same for commits and 2F+1 |
| TransactionStates.TransactionState.CheckCallbacks | pbft/transaction_state.go:134-151 | fires what is flagged if the pre-prepare is there, and clears what it fires |
| TransactionStates.TransactionState.IsPrepared | pbft/transaction_state.go:113-118 | 2F prepares are held, with or without a pre-prepare |
| TransactionStates.TransactionState.GetPrepares | pbft/transaction_state.go:127-132 | lists every held prepare once, in some order |
| TransactionStates.DeleteOthers | pbft/transaction_state.go:45-54 | in whatever order the map is ranged, exactly the votes with the digest stay |
| StoreRuns.CommitOrderDoesNotMatter | pbft/store.go:107-146 | with one batch per number, any order and repetition of the calls gives the state, results and checkpoints of executing the longest gap-free committed prefix one by one |
| StoreRuns.SameCommitsSameResults | pbft/store.go:107-146 | two runs that committed the same numbers returned the same |
| StoreRuns.AddedFirstAllEffective | pbft/store.go:119 | when every batch comes before its number's first commit, every commit counts |
| StoreRuns.DrainStopsAtTheGap | pbft/store.go:125-143 | the apply loop executes exactly up to the first number without a committed batch |
| StuckNumbers.StuckForGood | pbft/transaction_state.go:94-111 | in whatever way a crash run goes on, a replica that installs no status response never executes a number whose collectors hold more than 2F+1 commits with nothing flagged, and which is neither executable in the store nor about to be committed to it |
| StalledExecution.PrimaryStalls | pbft/node.go:224-225 | a crash run of four replicas: number 1 is committed at the primary, its batch is filed after its `Commit`, nothing is executed and nothing started is left to run, and the primary executes number 1 in no continuation in which it installs no status response |
| StoreRuns.RunsEmitExactCheckpoints | pbft/store.go:135-150 | a run emits exactly the checkpoints of the multiples of the interval it executed, in order, each with the digest of exactly that prefix |
| StoreRuns.MultiplesAreExact | pbft/store.go:135 | these numbers are all the multiples of the interval up to the applied one, increasing, each once |
| StoreBookkeeping.EveryRunIsTidy | pbft/store.go:72-195 | across every mix of calls the applied number is at least the stable one, pending votes are uniform, and none above the stable number holds a quorum |
| StoreBookkeeping.CountersNeverGoBack | pbft/store.go:72-195 | neither counter is ever behind where an earlier part of the run left it |
| StateTransfer.StateTransferIsExactIff | pbft/store.go:152-195 | stabilising leaves the values of the numbers then counted as applied exactly when they were reset and nothing past the checkpoint had been executed, or kept and nothing short of it, or the digests agree anyway |
| StateTransfer.StabilisingGoesBack | pbft/store.go:152-195 | a store that has executed 1 and 2, one increment each, stabilises checkpoint 1 with the right digest: 2 still counts as applied, and the value is 1 |
| StateTransfer.StateTransferEqualsReplay | pbft/store.go:148-195 | after such a jump every later run of calls returns what a store that had replayed everything returns |
| Decimal.AtoiOfItoa | pbft/store.go:148-150 | parsing the printed form of any 64-bit value gives it back, negatives included |
| Stores.State.Apply | pbft/store.go:197-225 | an operand that does not parse changes nothing; additions wrap at 64 bits; the answer is the printed new value |
| Stores.Store.Commit | pbft/store.go:115-146 | the loop computes the recursive apply function: same end state, same requests, results and checkpoints |
| Stores.Store.AddCheckpointRequest | pbft/store.go:81-105 | votes are counted per message; the (2F+1)-th stabilises and reports the number |
| Stores.Store.StabilizeCheckpoint | pbft/store.go:152-195 | exactly the stale entries go, and the state restarts from the digest exactly if a committed entry went |
| Stores.Store.UpdateLastStableCheckpoint | pbft/store.go:72-79 | both counters are raised to the proof's number, never lowered |
| Stores.Store.AddRequests | pbft/store.go:107-113 | the batch replaces any earlier one of its number |
| Stores.DropStale | pbft/store.go:168-182 | in any order of ranging, exactly the entries above the checkpoint stay, and it is noticed whether any went |
| Nodes.Node.HandleClientRequest | pbft/node.go:179-229 | in place, the outcome of the handler function: forward, drop, queue, or the next number with its collector and pre-prepare |
| Nodes.Node.HandlePrePrepareRequest | pbft/node.go:231-276 | in place, the outcome of the handler function, including all four refusals |
| Nodes.Node.HandlePrepareRequest | pbft/node.go:278-304 | in place, the outcome of the handler function |
| Nodes.Node.HandlePreparedTxn | pbft/node.go:306-309 | the own commit is broadcast and handled later |
| Nodes.Node.HandleCommitRequest | pbft/node.go:311-337 | in place, the outcome of the handler function |
| Nodes.Node.HandleCommittedTxn | pbft/node.go:339-373 | in place, with its three loops, the outcome of the handler function |
| Nodes.Node.HandleCheckpointRequest | pbft/node.go:375-398 | the two delete loops leave exactly the entries above the new stable number |
| Nodes.Node.GetCurrentPreparedRequests | pbft/node.go:400-416 | one certificate for every prepared entry and no other, in whatever order the map is ranged |
| Nodes.Node.VoteViewChange | pbft/view_changer/view_changer.go:159-168 | the vote carries the stable number with its proof, these certificates and the own id |
| Nodes.Node.GoToViewChange | pbft/node.go:418-420 | only marks the view change |
| Nodes.Node.HandleNewViewRequest | pbft/node.go:422-466 | the smallest number chosen by the two loops, the fatal case exactly when there is none, and the re-installed collectors with the own prepares |
| Nodes.Node.HandleStatusRequest | pbft/node.go:468-477 | answers with the stable number and its proof |
| Nodes.Node.HandleStatusResponse | pbft/node.go:479-500 | refuses a stale or empty proof, else enters the largest view of the proof behind the reported number |
| Nodes.Node.RunAdd | pbft/node.go:264-273 | a started `Add*` changes exactly the one collector it was started for |
| Nodes.Node.RunAddToStore | pbft/transaction_state.go:68-73 | the batch is filed under the number of the collector's current pre-prepare |
| Nodes.Node.RunCheckCallbacks | pbft/transaction_state.go:134-151 | a check starts exactly the callbacks it fires |
| Nodes.Node.InWaterMark | pbft/node.go:559-571 | the window is (stable, stable + interval] |
| ReplicaRuns.BackupStaysInWindow | pbft/node.go:231-398 | through every stable checkpoint, a backup's two maps stay inside the window and so never exceed its size |
| ReplicaRuns.PrimaryKeepsWindowIff | pbft/node.go:206-222 | over every run of a primary that stays in its view, refused status responses included, all entries are below the high mark exactly when the last assigned number is, and inside the window exactly then if no checkpoint overtakes the primary |
| ReplicaRuns.PrimaryLeavesWindow | pbft/node.go:199-222 | one request more than the window holds takes a primary out of it, if as many may be outstanding |
| ReplicaRuns.PrimaryConservesRequests | pbft/node.go:191-373 | each received request is numbered once, consecutively, or still waiting, with the right multiplicity; in-progress numbers never exceed the limit |
| ViewChangeRules.SelectionIsCanonical | pbft/view_changer/view_changer.go:239-257 | any two orders of ranging choose the same numbers and views, and the same digests if same-view certificates agree |
| ViewChangeRules.ReissueIsCanonical | pbft/view_changer/view_changer.go:196-220 | two leaders with the same votes re-issue the same pre-prepares if same-view certificates agree |
| ViewChangeRules.RangeIsUnique | pbft/view_changer/view_changer.go:272-294 | the range does not depend on the order of the votes |
| ViewChanger.AnnouncementIsComplete | pbft/view_changer/view_changer.go:174-220 | an announced new view carries 2F+1 votes of distinct replicas for it and pre-prepares for exactly minSeq+1..maxSeq, in order, once each, with both bounds attained |
| ViewChanger.PbftViewChange.HandleViewChange | pbft/view_changer/view_changer.go:128-149 | an old vote changes nothing; any other replaces its sender's earlier one and may trigger the announcement |
| ViewChanger.PbftViewChange.LeaderElected | pbft/view_changer/view_changer.go:222-237 | an election that is overtaken changes nothing; the elected replica announces if it has the votes |
| ViewChanger.PbftViewChange.TryAnnounceAsLeader | pbft/view_changer/view_changer.go:174-194 | announces exactly for the current view with 2F+1 votes and no nil pre-prepare among them |
| ViewChanger.PbftViewChange.HandleNewView | pbft/view_changer/view_changer.go:151-157 | takes over the view and leaves the view change; the elected leader stays remembered |
| ViewChanger.PbftViewChange.Timeout | pbft/view_changer/view_changer.go:112-126 | the next view, no leader yet |
| ViewChanger.CreatePreprepareMessages | pbft/view_changer/view_changer.go:196-220 | dereferences nil exactly on a certificate without pre-prepare, else computes a re-issue of the certified numbers |
| ViewChanger.ExtractPreprepareRequests | pbft/view_changer/view_changer.go:239-257 | chooses exactly the numbers above minSeq with a valid certificate, each with a certified pre-prepare of the highest view |
| ViewChanger.ValidatePrepareProof | pbft/view_changer/view_changer.go:259-269 | distinct replicas with matching number and digest are counted against 2F |
| ViewChanger.GetSequenceRange | pbft/view_changer/view_changer.go:272-294 | both bounds are attained by a vote, or 0, and no vote is outside them |
| ClientReplies.DeliveredValuesAreRight | client/client.go:185-205 | with at most F faulty replicas, any arrival order, duplication, many-valued answers and interleaving of calls, every delivered value is the correct replicas' |
| ClientReplies.AnsweredIffTestedAtQuorum | client/client.go:197-202 | over every interleaving, with no read outstanding, a timestamp has been delivered as many times as one of its calls was tested at a largest bucket of exactly F+1 |
| ClientReplies.AnsweredIffQuorum | client/client.go:197-202 | if each response is tested before the next is added, a timestamp is answered exactly when F+1 replicas agree on a value for it |
| ClientReplies.SplitAnswersDeliverTwice | client/client.go:197-202 | two replicas agree and a third answers otherwise: all calls end, and the same answer has been delivered twice |
| ClientReplies.InterruptedCallsLoseTheAnswer | client/client.go:197-202 | two responses added before either is tested: three replicas agree, all calls have ended, nothing was delivered |
| ClientReplies.ResponseCollection.AddResponse | client/client.go:47-55 | files the response under its value and replica |
| ClientReplies.ResponseCollection.GetSize | client/client.go:57-69 | the size of the largest bucket |
| ClientReplies.ResponseCollection.GetResponse | client/client.go:71-88 | some response of a largest bucket, none exactly if there is no response |
| ClientReplies.Client.Response | client/client.go:185-205 | files the response under its timestamp only, and delivers a largest bucket's value exactly when that bucket has F+1 responses |
| LeaderElection.SamePeersSameLeader | pbft/leader_election/round_robin.go:15-29 | replicas with the same peers agree on every view's leader, in whatever order their maps are ranged |
| LeaderElection.SameConfiguredLeader | pbft/node.go:83 | so replicas with the same peers enter every view under the same leader |
| LeaderElection.EachLeadsOnce | pbft/leader_election/round_robin.go:27-29 | among any N consecutive views every replica leads exactly one |
| LeaderElection.NoLeaderIff | pbft/leader_election/round_robin.go:27-29 | the lookup fails exactly without peers or for a negative view that is no multiple of their number |
| LeaderElection.RoundRobin.constructor | pbft/leader_election/round_robin.go:15-25 | the sorted peers, each once |
| LeaderElection.RoundRobin.GetLeader | pbft/leader_election/round_robin.go:27-33 | the peer at the view modulo their count, with Go's sign of the remainder |
| Quorums.MaxFaulty | pbft/configs/config.go:35-37 | 3F+1 replicas at least and 3F+3 at most |
| Quorums.QuorumsIntersect | pbft/configs/config.go:35-37 | two quorums of 2F+1 among 3F+1 share F+1 replicas |

## Left out

- Survival.CommittedRequestSurvives: the first view, and one hop from it, as `HandleNewViewRequest` discards the certificates of the view it leaves (for later views, `ViewSurvival.CommittedInViewSurvives`); crash faults only; the first primary installs no status response that changes its counter, as it would number its requests anew (`Renumbering.PrimaryNumbersAgainIff`); a vote's stable number and its certificates are read in one step.
- Survival.CommittersVote: the same runs.
- Survival.ReissuedExactlyIf: the same runs; assumes that the request's digest is not the word "nil", with which the source fills gaps.
- LateVotes.VoteSpeaksIff: for a vote whose sender a status response has taken out of the view change before it is cast, only one direction.
- CrashRuns.CrashRunsSurvive: the first view, in which the first primary installs no status response that changes its counter.
- ViewSurvival.CommittedInViewSurvives: views with one digest per number, which the code does not ensure (`NewLeader.CommittedNumberIsGivenAgain`), and votes whose senders have entered no later view; crash faults only.
- ViewSurvival.ReissuedInViewIff: the same runs and votes.
- StuckNumbers.StuckForGood: while the replica installs no status response and no new view; a new view gives the number a new collector.
- Agreement.ExecutedIsLogPrefix: runs of the first view in which no checkpoint becomes stable, on any keys; with stable checkpoints it is `StableAgreement.ExecutesTheLog`, on the empty key, which is all the digest covers.
- Agreement.ReplicasAgree: the same runs; with stable checkpoints it is `StableAgreement.SameNumberSameAnswer`.
- StableAgreement.RightIffExact: that the checkpoints are of the log is assumed, since one faulty backup can make a false one stable (`FalseCheckpoint.OneVoterIsEnough`); where nobody lies it is proved (`HonestCheckpoints.EveryoneRightIffExact`).
- OneView.ExecutionNeedsQuorumOfOneView: only this direction, as a new-view message that numbers other views need not do harm; the exact condition is that of `OneView.ExecutionIsOfOneViewIff`.
- Nodes.Node.HandleCommittedTxn: without the call of `RequestExecuted`, which resets the view changer's timer.
- Nodes.Node.VoteViewChange: builds the vote; filing it locally is `ViewChanger.PbftViewChange.HandleViewChange`, and the broadcast is a message of the system.
- Nodes.Node.RunAddToStore: does nothing without a pre-prepare, where the source would dereference nil; by `PreparedQuorum.AddToStoreHasPrePrepare` this does not occur.
- ViewChanger.PbftViewChange.HandleNewView: without the call of the node, which is `Nodes.Node.HandleNewViewRequest`.
- ViewChanger.PbftViewChange.Timeout: without the calls of the node and of the election and the vote, which are `Nodes.Node.GoToViewChange`, `ViewChanger.PbftViewChange.LeaderElected` and `Nodes.Node.VoteViewChange`.
- StateTransfer.StateTransferIsExactIff: operations on the empty key only, as the digest covers no other.
- Digests: the primary leaves the digest empty; the model lets it be any function of the request.
- Sequence numbers, views and timestamps are unbounded integers; only the stored values and their printed forms are 64-bit.
- Sender ids of prepares, commits and replies are taken as authentic; the source leaves signatures to be done.
- Timers and liveness: a timeout is a step that may happen at any time; `RequestExecuted`, which resets the timer, is not part of the model.
- Nil messages inside messages, other than the pre-prepare of a certificate, and replies without a result.
- The dropping of client requests in `Node.Run` above the outstanding limit; `handleClientRequest` is the entry point.
- Enabling and disabling replicas, gRPC services and senders, HTTP, configuration loading, logging, metrics and the load tester.
- Data races on fields read outside the mutex.
- What survives more than one view change in a row, and that only the elected replica announces: `leaderForView` survives `handleNewView`, so a later view can be announced by its predecessor's leader.
- The client's `callbackChannels`: an answer counts as delivered when it is sent.
