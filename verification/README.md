# IBFT 2.0 node: a verified model

This project models a node of the IBFT 2.0 consensus of go-ibft and proves properties of the
model. The centre is safety of any number of interleaved honest nodes: with less than a third of the
voting power faulty, no proposer at quorum with the faulty ones, and nodes that move to higher rounds
only, no two honest nodes insert different blocks at a height. Each of the three hypotheses is asked
for only where it is used: locking and agreement need all three; certificate uniqueness and what the
builder makes of a certificate do without the bound on proposers; what one node does in a run
(lock persistence, usable round changes, its PREPAREs, its lock) needs no bound at all and upward moves
of that node alone; and the rest holds of every run.

How the parts fit together:

- `Types`, `Quorum`, `Certificates`, `Proposals`: the messages, voting power, the checks on prepared
  certificates and proposals, and the proposal builder. Loops of the program are methods, proved
  against declarative predicates.
- `NodeState`, `Store`, `EventManager`, `Ibft`: the mutable objects. Every method states the new
  abstract state, and the handlers of `Ibft.Node` are shown to take steps of the protocol model.
- `Protocol`, `Invariant`, `Soundness`, `Agreement`: the protocol as a step system over all honest nodes;
  what every step keeps whatever rounds the nodes move to and however much power is faulty; and the
  invariant of upward runs, with certificate uniqueness, locking and agreement derived from it.
- `RoundLoop`, `LoopInvariant`, `Refinement`, `Simulation`, `Theorems`: the goroutines of each node as
  interleaved single reads, writes and sends; the proof that this finer system refines the protocol;
  and the theorems over its runs.
- `Realization`: the converse. Protocol runs are runs of the interleaved system, so the protocol says no
  more than the routines can do, and examples can be given as protocol runs.
- `Validity`: invalid data is neither held nor committed past an honest node that judges it.
- `Attendance`: no routine leaves a round before its time.
- `Barrier`, `Fairness`: the barrier of RunSequence never blocks for good, and opens in every fair run.
- `Prepares`: how many PREPAREs a node sends for one view.
- `Runs`, `FourValidators`, `LowerRounds`, `ProposerQuorum`, `RankMismatch`: runs of the system put together
  step by step, which show where an expected property fails or an assumption is needed.
- `Events`, `Wakeup`, `Timeouts`: the notification pipeline, lost wakeups, and the round timeout.

## Assumptions

- The hash is injective in (raw proposal, round) and never empty. There is one proposer per view. A missing
  proposal has no valid hash. Voting powers are non-negative and the same at every node.
- Signatures are unforgeable: an honest validator's valid signature that anybody presents was made
  before. Faulty validators may send any message, of any content, at any moment (`Protocol.Known`).
- Built messages carry the fields they are given, the sender's address and a valid signature.
- Where a statement says so (`Params.FewFaulty`), the faulty validators hold less than a third of the power.
- For locking and agreement (`Params.WellFormed`), together with the proposer of any round above 0 they
  also stay below quorum. That is needed because a proposer does not run validateProposal on what it
  builds: in `ProposerQuorum.AgreementNeedsProposerBound` less than a third is faulty, every move goes up,
  and two honest nodes insert different data. For equal weights and two or more validators it follows
  from the bound on the faulty ones (`Theorems.UnitWeightsSuffice`).
- Where a statement says so, the moves of all nodes (`RoundLoop.SystemUpward`) or of one node
  (`RoundLoop.SystemUpwardAt`) to another round go up. For timeouts and
  future proposals it always does unless the round number wraps around (`Theorems.MovesUpUnlessWrapped`).
  For round-change certificates it need not: the comment at core/ibft.go:270 says only higher rounds are
  meant, but GetExtendedRCC looks at every positive round. `LowerRounds.CertificateOfLowerRound` is a case
  in which a node of round 3, notified by a quorum of messages for round 4 of which one is invalid,
  finds a certificate of round 1; `Ibft.Node.HandleRoundChangeMessage` states exactly when the certificate
  is for a higher round: when some higher round has one. That one move is enough for two honest nodes to
  insert different data (`LowerRounds.AgreementNeedsUpwardMoves`), so agreement cannot do without the guard.

Where the code differs from what one might expect, the model follows the code. On a future proposal the
PREPARE is sent with the view of the round that is left, so a node may send two PREPAREs for one
view (`Prepares.TwoPreparesInOneView`); `Prepares.PreparesOfAViewTheorem` says exactly when two agree. A
nil hash in front of a prepared certificate is accepted beside a given one
(`Certificates.NilHashIsReplaced`). The builder ranks certificates by the round embedded in their
proposal and keeps the first highest, the validator ranks them by view round and keeps the last.
`Proposals.BuiltProposalAcceptedIff` says for which certificates the others accept what is built;
`RankMismatch.BuiltProposalRefused` is a run in which an honest proposer sends what everybody else
refuses. The two watchers subscribe with a minimum round, and subscribe tests the bucket of that round
only: a quorum stored before for a later round is not noticed (`Wakeup.QuorumBeforeSubscription`), and
the notification of one proposal can displace that of another (`Wakeup.ProposalDisplaced`);
`Wakeup.MinimumRoundWakeup` says exactly when the wakeup comes.

## Model

| member | source | states |
|---|---|---|
| Theorems.AgreementTheorem | core/ibft.go:323-394 | under the bounds on the faulty and on the proposers of rounds above 0, in every run of the interleaved system whose moves go to higher rounds, any two blocks inserted by honest nodes at the height, at whatever moments and rounds, have the same raw proposal |
| Theorems.FinalityTheorem | core/ibft.go:931-992 | in every run, whatever the rounds moved to and the faulty power, an inserted block comes with seals of distinct signers with quorum power, each valid for the hash of exactly that data and round, and a quorum has sent COMMIT for it; seals of a round that was torn down never appear |
| Theorems.LockingTheorem | core/ibft.go:683-788 | once a quorum has sent COMMIT for some data in a round, every proposal an honest node other than its proposer holds in a higher round carries that data |
| Theorems.LockedProposalsTheorem | core/ibft.go:683-788 | and so does every proposal of a higher round that validateProposal or validateProposal0 would let through at any node, held or not |
| Theorems.LockPersistenceTheorem | core/ibft.go:349-375 | whoever is faulty and wherever the others move, after a node that moves up has sent COMMIT in a round, every ROUND_CHANGE it goes on to send carries a certificate from that round or later and below its own round, even if the timer fires between COMMIT and lock |
| Theorems.LaterIsHigher | core/ibft.go:368-375 | a ROUND_CHANGE a node that moves up sends after another message is for a higher round, whatever the others do |
| Theorems.OnePreparePerRoundTheorem | core/ibft.go:355-362 | of the PREPAREs a node that moves up sends in a round, all whose hash is one for that round have the same hash |
| Prepares.PreparesOfAViewTheorem | core/ibft.go:355-362 | whatever the others do, two PREPAREs of a node that moves up for one view have equal hashes exactly if both or neither are hashes for the round, so a view has at most two |
| Prepares.TwoPreparesInOneView | core/ibft.go:324-362 | an upward run in which a node sends two PREPAREs with different hashes for one view, the second on a future proposal under the old view |
| Prepares.StraysKept | core/ibft.go:355-362 | a PREPARE with no hash for its round is for a round the node has left, and there is one such hash for each round |
| Theorems.CertificatesAcceptedTheorem | core/ibft.go:864-888 | at every moment of every run, whatever the rounds moved to and the faulty power, the certificate and proposal an honest node has recorded match each other, and the certificate passes validPC for every round limit above its round |
| Theorems.RoundChangesUsableTheorem | core/ibft.go:1239-1250 | every ROUND_CHANGE an honest node that moves up sends passes the validity test of every other node, and its three rounds coincide |
| Theorems.UniqueCertificateTheorem | core/ibft.go:1162-1231 | with less than a third faulty, in every state of an upward run two valid certificates of one round whose hashes are hashes for that round have the same hash, despite the PREPAREs sent under an old view |
| Theorems.BuiltProposalTheorem | core/ibft.go:1028-1091 | with less than a third faulty, in every state of an upward run, what the builder chooses from a usable certificate of its own round with well-formed contents is accepted by every other validator |
| Theorems.FirstProposalTheorem | core/ibft.go:1011-1026 | what the proposer of round 0 announces is the data its application built, and every other node may take it exactly if that data is valid |
| Validity.HeldProposalsValidTheorem | core/ibft.go:629-680 | in every run, whoever is faulty and wherever nodes move, a proposal that a node holds and has not made itself carries valid data, round 0 included |
| Validity.CommittedIsValidTheorem | core/ibft.go:931-967 | in every run, data for which a quorum has sent COMMIT was found valid by an honest node, if the proposer of that round does not reach quorum with the faulty |
| Validity.InsertedIsValidTheorem | core/ibft.go:978-987 | in every run, what a node inserts is valid, unless it proposed it itself; then too under that bound |
| Validity.AllValidKept | core/ibft.go:303-395 | every protocol step keeps held proposals, COMMITs and inserted blocks valid where another node made the proposal |
| Theorems.PhaseTheorem | core/ibft.go:349-375 | in every run, whatever the rounds moved to and the faulty power, whenever RunSequence is between rounds or past the barrier: from prepare on the proposal of the current view is held, from commit on the certificate is of exactly this round with its hash, in fin its seals are there |
| Theorems.LockBelowTheorem | core/ibft.go:994-1003 | as long as a node's moves go up, the certificate it has recorded also passes validPC for the round after the current one |
| Theorems.NoEventCrossesRounds | core/ibft.go:335-383 | in every run, without any assumption, every event RunSequence receives was produced by the right routine of the same iteration for the current view; the state is written only by that iteration's state machine or by RunSequence when no routine is left |
| Theorems.MovesUpUnlessWrapped | core/ibft.go:355-375 | moves on a timeout and on a future proposal strictly increase the round, short of wrap-around |
| Theorems.OwnRoundNeedsNoProposal | core/ibft.go:470-497 | a certificate of the own round is not taken by a watcher that saw a proposal when it began to look |
| Types.RoundsWrapAt64Bits | core/ibft.go:372 | a timeout goes to the next round, and from the last round of 64 bits to round 0 |
| LowerRounds.CertificateOfLowerRound | messages/messages.go:221-242 | not only for higher rounds: with a quorum of messages for round 4, one invalid, a node of round 3 is notified and the highest certificate it finds is for round 1 |
| LowerRounds.MovesToLowerRound | core/ibft.go:363-367 | in the state in which those messages are available the node moves from round 3 to round 1 |
| LowerRounds.AgreementNeedsUpwardMoves | core/ibft.go:266-298 | with one faulty validator of four, a reachable state in which a notified node finds a lower certificate, and a run with that one move that is not upward in which two honest nodes insert different data |
| ProposerQuorum.AgreementNeedsProposerBound | core/ibft.go:410-423 | with less than a third of the power faulty and upward moves only, a run in which two honest nodes insert different data, because the proposer, which does not judge its own proposal, reaches quorum with the faulty validator |
| ProposerQuorum.FindsLowerCertificate | core/ibft.go:432-467 | the proposer of that run waits for a certificate of round 2, is notified, and the highest it finds is for round 1 |
| Theorems.UnitWeightsSuffice | core/validator_manager.go:129-135 | equal weights satisfy the assumption on proposers |
| Simulation.SystemRefinesProtocol | core/ibft.go:323-394 | every run of the interleaved system is a run of the protocol with the same messages and inserted blocks, and upward if it is |
| Realization.ProtocolIsRealized | core/ibft.go:323-394 | every protocol run in which the certificate watcher is not made to ignore a proposal in hand and no proposer leaves round 0 before proposing is what some run of the interleaved system amounts to, an upward one if it is upward |
| Realization.StepRealized | core/ibft.go:398-429 | one protocol step, as the steps of the four routines, the barrier and the next round's start |
| Realization.Joins | core/ibft.go:349-383 | with one routine offering an event and the others blocked, the barrier can open |
| Barrier.BarrierOpensTheorem | core/ibft.go:349-352 | the barrier never blocks for good: from every reachable state in which RunSequence has received an event, the run can go on so that all routines leave and RunSequence moves on with that event |
| Barrier.CancelledSequenceEnds | core/ibft.go:383-393 | from every reachable state in which RunSequence waits for an event, the caller can cancel, and RunSequence can come to its end without inserting |
| Attendance.NobodyLeavesEarly | core/ibft.go:335-347 | in every run, while RunSequence waits for an event and nothing is cancelled, the timer, both watchers and the state machine are there, and the barrier counts exactly them |
| Attendance.CancelReachesAll | core/ibft.go:333 | the context of a round ends with the caller's: a blocked routine can leave before RunSequence has noticed |
| Fairness.BarrierOpensFairly | core/ibft.go:349-352 | in every endless run with a fair scheduler and a fair select, once RunSequence has received an event the barrier opens and it can move on with that event |
| Fairness.Exits | core/ibft.go:211-301 | as long as the barrier were closed in such a run, every routine would exit, even a watcher that keeps being notified |
| Barrier.SomebodyLeaves | core/ibft.go:349-352 | while the barrier counts somebody, some routine has a step that brings it closer to leaving |
| Realization.RoundStarts | core/ibft.go:335-347 | from the head of the loop all four routines can get to where they wait |
| Simulation.StepSimulated | core/ibft.go:323-394 | one step of the system is one protocol step or none |
| Simulation.SystemInvKept | core/ibft.go:303-395 | the loop invariant of every node and the finality of stopped nodes survive every step of the system |
| Simulation.InsertedStays | core/ibft.go:376-382 | a node inserts at most one block in a sequence and it never changes |
| Theorems.OneHashInCertificate | core/ibft.go:1035-1063 | the well-formed certificates carried in a round-change certificate have one hash per round |
| Refinement.StepRefines | core/ibft.go:323-394 | each read, write, send, exit or join of a node is a protocol step with the same message and state, or invisible |
| Refinement.ContinueRefines | core/ibft.go:554-625 | the state machine's steps: a proposal becomes visible with its PREPREPARE or PREPARE, the lock with its COMMIT, fin with the seals |
| Refinement.AfterJoinRefines | core/ibft.go:354-394 | what RunSequence does after the barrier is a jump, a timeout, an insertion or nothing |
| Refinement.OthersRefine | core/ibft.go:211-301 | timers, watchers, cancellation and exits do not change the protocol state |
| LoopInvariant.LoopKept | core/ibft.go:323-394 | every step of every routine keeps the barrier count, the iteration and view of each live routine, and the state the state machine's position tells |
| LoopInvariant.RoutineStepped | core/ibft.go:398-429 | a step of one routine leaves what is known about the others intact |
| LoopInvariant.BarrierOpen | core/ibft.go:349-352 | when the barrier opens, all routines of all iterations have returned |
| LoopInvariant.ReceiveKept | core/ibft.go:354-383 | an event received belongs to the current iteration and view |
| LoopInvariant.ExitKept | core/ibft.go:228-232 | calling Done once per routine keeps the barrier counting the live ones |
| LoopInvariant.SpawnKept | core/ibft.go:335-347 | the four new routines are exactly what the barrier counts |
| LoopInvariant.AfterJoinKept | core/ibft.go:355-375 | moving on leaves the state ready for the next round |
| LoopInvariant.ContinueKept | core/ibft.go:554-625 | only the current state machine writes the state, and leaves it consistent |
| Agreement.InvKept | core/ibft.go:303-395 | every protocol step to a higher round keeps the invariant of all honest nodes, whoever is faulty |
| Agreement.InvOfKept | core/ibft.go:303-395 | every protocol step keeps what one node's own messages and state owe to its moves going up, wherever the other nodes move |
| Agreement.RunInvOf | core/ibft.go:303-395 | so it holds in every state of a run in which that node moves up |
| Agreement.RunInv | core/ibft.go:303-395 | the invariant holds in every state of every upward protocol run |
| Soundness.MadeCertificateIsValid | core/ibft.go:864-888 | the certificate handlePrepare records passes validPC for every higher limit and matches the proposal recorded with it |
| Soundness.SoundKept | core/ibft.go:303-395 | every protocol step, to whatever round, keeps the phases, recorded certificates and inserted blocks of all honest nodes sound |
| Soundness.RunSound | core/ibft.go:303-395 | so they are in every state of every protocol run |
| Soundness.CommitsMakeCommitted | core/ibft.go:946-950 | the COMMITs a node counts show that a quorum has sent COMMIT for its data |
| Agreement.AcceptedIsJustified | core/ibft.go:683-788 | what validateProposal lets through has a round-change quorum behind it, and data prepared no earlier than any certificate an honest member of that quorum reports |
| Agreement.LocksExtended | core/ibft.go:875-886 | a new COMMIT or ROUND_CHANGE keeps every lock reported |
| Agreement.NewMessageOk | core/ibft.go:1233-1270 | each message sent has the hash of what the node accepted in that round, except the PREPARE of a jump, whose hash is for a later round |
| Agreement.RoundChangeOk | core/ibft.go:1239-1250 | a ROUND_CHANGE with the recorded lock is usable at every node |
| Soundness.SealsAreValid | core/ibft.go:952-964 | the seals of a commit quorum form a finality certificate |
| Agreement.JumpMessageOk | core/ibft.go:355-362 | the PREPARE of a jump carries the old view and a hash of a later round |
| Invariant.CertificateUniqueness | core/ibft.go:1162-1231 | two certificates of one round with hashes for that round were made for the same data |
| Invariant.CertificateMember | core/ibft.go:1162-1231 | an honest member of such a certificate accepted its data in that round |
| Invariant.LockReported | core/ibft.go:707-710 | a round-change quorum contains an honest report of a certificate from the committed round or later |
| Invariant.PreparedSince | core/ibft.go:740-788 | data justified above a committed round was prepared, by a known valid certificate, in the committed round or later |
| Invariant.LockedJustified | core/ibft.go:740-788 | induction on rounds: data that a round-change quorum allows above a committed round is the committed data |
| Invariant.LockedData | core/ibft.go:740-788 | so data accepted above a committed round is the committed data |
| Invariant.CommittedOnce | core/ibft.go:946-950 | commit quorums of any two rounds are for the same data |
| Invariant.AgreementNow | core/ibft.go:978-987 | at any moment all inserted blocks have the same data |
| Invariant.SharedHonest | core/validator_manager.go:77-96 | two quorums share an honest validator |
| Invariant.HonestFollower | core/validator_manager.go:77-96 | a quorum has an honest member besides the proposer |
| Ibft.Node.HandlePrepare | core/ibft.go:855-889 | counts the stored PREPAREs that name the hash of the held proposal: exactly if one is held, its sender is not among theirs and makes a quorum with them, one COMMIT goes out and the lock with exactly those messages is recorded; in any case exactly the other PREPAREs of the view are dropped and nothing else changes |
| Ibft.Node.HandleCommit | core/ibft.go:931-967 | counts the stored COMMITs that name the hash of the held proposal and seal it: exactly if their senders are a quorum, the seals of exactly those messages are kept and the phase is fin; in any case exactly the other COMMITs of the view are dropped and nothing else changes |
| Ibft.Node.HandlePrePrepare | core/ibft.go:792-813 | returns one of the stored proposals of the view that is valid, none only if none is stored, and removes exactly the invalid ones |
| Ibft.Node.BuildProposal | core/ibft.go:1005-1091 | the message carries the data the application built, in round 0 or if the certificate has nothing to carry over, and otherwise what the certificate chooses; it is the message the protocol step announces |
| Ibft.Node.HandleRoundChangeMessage | core/ibft.go:470-512 | returns exactly the usable stored messages of the highest round, other than the own one with a proposal in hand, for which a quorum has sent usable messages, and none only if there is no such round; the round is above the own one exactly if some round above has a certificate |
| Ibft.Node.IsValidRoundChange | core/ibft.go:476-487 | the two checks decide the declarative validity of a ROUND_CHANGE |
| Ibft.Node.IsValidRCC | core/ibft.go:489-497 | decides that the senders are a quorum and the round is not the own one with a proposal in hand |
| Ibft.ValidIsUsable | core/ibft.go:476-487 | on messages of the queues these checks let through exactly what other nodes can use |
| Ibft.CertifiedIff | messages/messages.go:202-245 | a certificate can be made of a round, in some order of its messages, exactly if a quorum has sent usable ROUND_CHANGEs for it |
| Ibft.Node.AddMessage | core/ibft.go:1101-1123 | with the voting powers set or not, a message is stored under its key exactly if its sender is valid and it is of a higher height, or of the own height and no lower round; it signals exactly for those of the own height whose bucket has its quorum |
| Ibft.Node.HasQuorumByMsgType | core/ibft.go:1273-1284 | the quorum test of each message type, in terms of the senders |
| Ibft.Node.BucketReached | core/ibft.go:1286-1298 | the test before signalling depends on the senders stored and changes nothing |
| Ibft.Node.OnNewProposal | core/ibft.go:355-362 | state and message after a future proposal, with the PREPARE under the old view |
| Ibft.Node.OnRoundExpired | core/ibft.go:368-375 | state after a timeout, and a ROUND_CHANGE with the lock for the next round |
| Ibft.Node.OnRoundCertificate | core/ibft.go:363-367 | state after a certificate for another round |
| Ibft.Node.MoveToNewRound | core/ibft.go:994-1003 | the lock survives, the proposal does not |
| Ibft.Node.InsertBlock | core/ibft.go:978-991 | inserts the held data with its round and seals and prunes older heights |
| Ibft.Node.BeginSequence | core/ibft.go:304-319 | a sequence begins with a fresh state; without voting powers, or with a total of zero or less, it ends there, otherwise older heights are pruned |
| Ibft.ListedIsFetched | messages/messages.go:169-199 | what the queues hand out is what the protocol steps may use: valid senders, own view and type, one per sender |
| Ibft.StoredOkKept | core/ibft.go:1126-1149 | the queues hold only messages of valid senders, under their own keys |
| Store.EntriesAreWhatWasAdded | messages/messages.go:54-199 | after any sequence of additions, fetches and prunings an entry is there exactly if it was added under its own key and not displaced since |
| Store.EntriesHaveOwnKeys | messages/messages.go:300-323 | every entry sits under its own type, view and sender |
| Store.Messages.AddMessage | messages/messages.go:54-65 | the nested maps change as one flat map does |
| Store.Messages.SetBucket | messages/messages.go:300-323 | one bucket is replaced, created if missing, and no other touched |
| Store.Messages.GetValidMessages | messages/messages.go:169-199 | lists the valid messages of the bucket once each and removes exactly the invalid ones, for every map order |
| Store.Messages.PruneByHeight | messages/messages.go:123-148 | exactly the heights at or above the bound remain |
| Store.Messages.GetExtendedRCC | messages/messages.go:202-245 | for every map order and every verdict that does not depend on it, the valid messages of the highest positive round whose valid messages make a certificate, and nothing exactly if there is none |
| Store.ListedCount | messages/messages.go:178-198 | all listings of a bucket have one length, so a verdict on the number of messages does not depend on the order |
| Store.ListValid | messages/messages.go:178-198 | the loop that splits a bucket into valid messages and rejected keys |
| Store.ListedSenders | messages/messages.go:228-234 | a listing has the senders of the bucket's valid messages, whatever the order |
| Proposals.ValidateProposal | core/ibft.go:683-788 | accepts exactly by the declarative condition: the checks, and data matching the last of the highest valid certificates |
| Proposals.ValidateProposalCommon | core/ibft.go:629-653 | accepts exactly with the right round, proposer and hash, and valid data |
| Proposals.ValidateProposal0 | core/ibft.go:655-680 | for round 0 the same, at any node but the proposer |
| Proposals.IsValidPrePrepare | core/ibft.go:793-801 | decides what handlePrePrepare lets through, in every round |
| Proposals.FirstProposalAcceptedIff | core/ibft.go:655-680 | in round 0 the others accept what the proposer makes of any data exactly if the data is valid |
| Proposals.MatchesHighest | core/ibft.go:740-788 | the certificate loop decides whether the data matches the last highest certificate |
| Proposals.CollectCertificates | core/ibft.go:747-761 | collects round and hash of exactly the valid certificates, in order |
| Proposals.HighestTuple | core/ibft.go:767-778 | the last tuple with the maximal round |
| Proposals.ChosenIsFirstHighest | core/ibft.go:1035-1063 | with no nil data, the builder takes the first candidate with the highest embedded round, and nil only without candidates |
| Proposals.ChooseProposal | core/ibft.go:1035-1063 | the loop computes the choice |
| Proposals.BuiltProposalAcceptedIff | core/ibft.go:1005-1091 | for a usable certificate of any round with data given in it, the others accept what the builder makes of it exactly if the certificate is of the own round, the data is valid and the first certificate of the highest embedded round and the last of the highest view round were prepared for the same data, the latter in its own round |
| Proposals.ProposalAcceptedIff | core/ibft.go:683-788 | for any data on such a certificate, the others accept exactly if the certificate is of the own round and the data is valid and is what was prepared, in its round, with the last highest certificate |
| Proposals.BuilderAgreesWithValidator | core/ibft.go:1035-1063 | if the carried rounds coincide and each round has one hash, the builder's first maximum satisfies the validator's last maximum |
| RankMismatch.BuiltProposalRefused | core/ibft.go:1028-1091 | with one faulty validator of four, an upward run in which an honest proposer, on a certificate that can be presented to it, sends a proposal of valid data that no other validator accepts |
| Proposals.RanksCanDiffer | core/ibft.go:1048-1049 | if embedded and view rounds order two certificates differently, the builder chooses data the validators refuse |
| Certificates.AreValidPCMessages | messages/helpers.go:169-213 | accepts exactly the non-empty lists of one height and round below the limit, of the two types, with distinct senders and hashes agreeing after the first one given |
| Certificates.FirstHashGiven | messages/helpers.go:190-201 | if the first hash is given, all hashes are equal |
| Certificates.NilHashIsReplaced | messages/helpers.go:192-197 | a list with a nil first hash and another second hash is accepted |
| Certificates.CheckPC | core/ibft.go:1162-1231 | decides the declarative validity of a certificate |
| Certificates.ValidPCAnyLimit | core/ibft.go:1162-1231 | the round limit of a valid certificate matters only through its own round |
| Certificates.ValidPCMember | core/ibft.go:1162-1231 | what a valid certificate says of each of its messages; exactly the proposer's is a PREPREPARE |
| Certificates.ProposalMatchesCertificate | core/ibft.go:516-551 | decides that both are missing or every hash of the certificate is the proposal's |
| Certificates.HasUniqueSenders | messages/helpers.go:149-166 | decides that the list is non-empty with distinct senders |
| Certificates.ExtractCommittedSeals | messages/helpers.go:22-35 | the seals in order, or an error exactly if some message is no COMMIT |
| Protocol.BuiltMessagesReadBack | messages/helpers.go:37-145 | what is put into a message is read back from it by the accessors |
| Types.OtherTypesAnswerNothing | messages/helpers.go:37-145 | a message of another type or payload answers nothing; only a seal is read without looking at the type |
| Quorum.QuorumIsTotalMinusFaults | core/validator_manager.go:129-135 | floor(2T/3)+1 = T - floor((T-1)/3) |
| Quorum.QuorumsOverlap | core/validator_manager.go:77-96 | two accepted address sets share more than a third of the power |
| Quorum.HonestReachQuorum | core/validator_manager.go:77-96 | the honest validators alone reach quorum exactly if the faulty hold at most floor((T-1)/3) |
| Quorum.UnitWeights | core/validator_manager.go:77-96 | with equal weights a proposer and the faulty validators are below quorum |
| Quorum.HeavierHasMember | core/validator_manager.go:77-96 | a heavier set has a member with power outside a lighter one |
| Quorum.ValidatorManager.SetCurrentVotingPower | core/validator_manager.go:61-74 | a total of zero or less is refused and changes nothing; otherwise powers and quorum are those given |
| Quorum.ValidatorManager.HasQuorum | core/validator_manager.go:77-96 | decides that the summed power of known senders reaches the quorum, in any order; false before initialisation |
| Quorum.ValidatorManager.HasPrepareQuorum | core/validator_manager.go:99-127 | the proposer counts once and must not be among the PREPARE senders |
| Quorum.CalculateTotalVotingPower | core/validator_manager.go:137-144 | sums the map in any order |
| Quorum.CalculateQuorum | core/validator_manager.go:130-135 | the quorum of a total |
| NodeState.StateCell.Reset | core/state.go:69-84 | a new sequence starts without lock, proposal and seals |
| NodeState.StateCell.KickOffRound | core/state.go:198-207 | does nothing to a round started by a future proposal |
| NodeState.StateCell.FinalizePrepare | core/state.go:209-221 | certificate, proposal and phase change together |
| Events.PushIsFollowedByDelivery | messages/event_subscription.go:27-84 | in every fair schedule each push of the subscribed type and height, and of the subscribed round or, with a minimum, any later one, even if dropped on a full channel, is followed by a delivery |
| Events.OnlySupportedIsBuffered | messages/event_subscription.go:45-69 | every round in the pipeline is the subscribed one or, with a minimum, a later one, and was pushed before with the subscribed type and height |
| Events.ClosingEnds | messages/event_subscription.go:22-43 | a closed subscription ends when its worker notices, and then hands out nothing more |
| EventManagement.EventManager.SignalEvent | messages/event_manager.go:110-129 | every subscription gets the event, the early return included |
| EventManagement.EventManager.Subscribe | messages/event_manager.go:61-83 | registers one and keeps the counter equal to the number registered |
| EventManagement.EventManager.CancelSubscription | messages/event_manager.go:86-95 | removes one, ignores unknown identifiers, keeps the counter |
| Wakeup.NoLostWakeup | core/ibft.go:1101-1123 | for all four message types, in every interleaving of subscribe to an exact view with any number of AddMessage calls, a bucket with a quorum has been handled since the last insertion or a notification is pending |
| Wakeup.AlertKept | core/ibft.go:1286-1298 | the invariant behind it, including the unlocked read of the counter |
| Wakeup.MinimumRoundWakeup | core/ibft.go:211-301 | for a subscription with a minimum round, a quorum of a round is noticed if subscribe tests its bucket, or an AddMessage for it was underway at registration or came later, unless other rounds displace a proposal's notification; without notifications of other rounds, only then |
| Wakeup.QuorumBeforeSubscription | core/ibft.go:1286-1298 | a quorum of ROUND_CHANGEs for the round after the minimum, stored before the subscription, is never notified |
| Wakeup.ProposalDisplaced | messages/event_subscription.go:71-84 | a proposal stored while a notification of another round is in the channel is never looked at |
| Wakeup.ReachedStays | core/ibft.go:1273-1284 | more messages undo a quorum exactly if they are PREPAREs and include the proposer's |
| Wakeup.AdderGoesOn | core/ibft.go:1101-1123 | a call of AddMessage is held up by nothing but the lock that subscribe holds |
| Wakeup.SubscriberGoesOn | core/ibft.go:1286-1298 | nor is the subscriber by anything but having nothing to be notified of |
| Timeouts.TimeoutIsExact | core/ibft.go:1307-1315 | while the power of two fits in an int64, the wrapped computation yields base * 2^round + additional exactly if that fits, for any sign of both |
| Timeouts.WrapIsInt64 | core/ibft.go:1307-1315 | results of 64 bits are off by a multiple of 2^64, and exact exactly in the range of an int64 |
| Timeouts.TimeoutIncreases | core/ibft.go:1307-1315 | it strictly increases with the round exactly for a positive base |
| Timeouts.TotalWaitIsGeometric | core/ibft.go:1307-1315 | the total wait through a round is base * (2^(round+1) - 1) + (round+1) * additional |

## Left out

- Signatures, hashing, block building and execution: predicates and functions of the Backend with the assumptions above.
- Wire encoding and generated protobuf code: plain datatypes; the message type is one of the four declared values.
- A message or nested message without a View, a nil message inside a list, and a proposal message without a proposal: AddMessage drops the first, the program does not survive the others; in the model such a proposal is not accepted.
- Transport, logging, metrics, clocks and contexts: expiry, cancellation and delivery are steps that may happen at any time.
- Real-time liveness, restarts, and running one height twice: one sequence per height is assumed; activity at other heights is an arbitrary step.
- The fields of one state change of RunSequence after the barrier: one step, since no routine that could write is left and AddMessage only reads.
- When a watcher or a phase looks: it may do so at any moment its condition holds, not only after a notification, which allows more runs than the program has.
- ProtocolIsRealized: leaves out runs that jump on a certificate of the own round with a proposal in hand, which the routines do only if the watcher looked before the proposal came.
- HandlePrePrepare: takes its validity test as an argument equal to the predicate that the method IsValidPrePrepare decides, because a method cannot be passed; the same holds for HandleRoundChangeMessage.
- NoLostWakeup: as in MinimumRoundWakeup, the proposal, whose sender the test for PREPAREs looks at, is held before the node subscribes to PREPAREs and until it unsubscribes, as runPrepare does.
- Closing the event manager as a whole and identifier generation: identifiers are assumed not to repeat.
- The order in which eventSubscription and the node's goroutines share memory: modelled on values, one step at a time.
- GetMostRoundChangeMessages, numMessages, String and plain getters: unused by the protocol or easy members.
