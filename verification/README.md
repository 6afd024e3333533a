# Safety of a 2-chain HotStuff node

This project models the consensus core of a 2-chain HotStuff node and proves that the protocol it
runs is safe, together with properties of the components the core relies on.

The main theorem is agreement over whole runs. A run interleaves, in any order, the handlers of all
honest nodes: proposals, votes, timeouts, timeout certificates, looped-back blocks, timers. The
network delivers anything that does not contain a forged honest vote or timeout signature; block
signatures are not restricted at all. Up to a third of the stake (3 * faulty < total) is
arbitrary. As long as blocks of one certified digest name the same parent, two honest nodes never
commit conflicting blocks, and the set of blocks one node has sent on its commit channel is exactly
the chain below its last committed block. The channel can carry a block twice, and it is proved
exactly when. Concrete runs show what goes wrong without the premise.

How the files fit together:

- `Committee.dfy`, `Messages.dfy`, `Leader.dfy`, `Encoding.dfy`: stake in 32-bit arithmetic, quorums,
  certificates and their verification, leaders, the bytes that are hashed. Loops of the source are
  methods with loops, proved against set-based definitions.
- `Aggregation.dfy` (values) and `AggregatorObject.dfy` (objects updated in place): vote and timeout
  aggregation.
- `Safety.dfy`: the quorum arguments, over one ordered log of everything honest nodes signed.
- `Chain.dfy`, `Replica.dfy` (values) and `Core.dfy` (the object): parent lookup, the commit loop and
  every handler of the core. Each method of class `Core` is proved to do to the object what the
  function of the same name does to its value view.
- `Protocol.dfy`, `Agreement.dfy`, `Runs.dfy`, `Emission.dfy`: runs of the whole system, the
  invariants every event keeps, and the theorems about reachable states.
- `Duty.dfy`, `Tally.dfy`: what a node must do, stated without the handlers: the exact effect of
  blocks and TCs, and whose votes and timeouts a node has counted.
- `Counterexamples.dfy`, `CommitCycle.dfy`, `Resend.dfy`: concrete runs showing where a condition is
  needed or a stronger claim fails.
- `Store.dfy`, `Synchronizer.dfy`, `ReliableSender.dfy`, `Batch.dfy`: the store with notify-read, the
  suspend-and-resume loop, one reliable connection, the batch codec and batch maker.

Modelling decisions:

- A digest is represented by what was hashed (the hash is collision free); `Encoding.dfy` shows
  that the byte layouts of blocks, votes and timeouts are injective and can never coincide.
- A signature value lists who signed what; a certificate verifies if and only if the list is the
  expected one. The all-zero signature and other undecodable bytes are separate values.
- The digest of a block does not cover its certificates. Chain-level results are stated for runs in
  which blocks of one certified digest that honest nodes have stored name the same parent
  (`OneCertifiedParent`, weaker than equality of the blocks; a twin that nobody certifies, or that
  no honest node stores, does no harm).
  `Counterexamples.AgreementNeedsPremise` gives a run in which the premise, and with it agreement,
  fails; `Counterexamples.PremiseNotNecessary` a state in which only the premise fails. Results on
  rounds, votes, proposals and on how a node can stop do not use the premise.
- No line of the node compares `Qc.Round` with `Round`, or a proposed block's round with the node's
  round; both orders are derived as invariants.
- A node that takes the fatal branch of getAncestors, panics in commit or loops there forever gets
  the health `Fatal`, `Panicked` or `Endless` and takes no further step. The first two never happen,
  and the third happens exactly when a commit follows a cycle of parents in the store
  (`Runs.StopsExactlyOnCycle`, without any premise). Under the premise there is no such cycle
  (`Agreement.NeverStuck`); without it a run can produce one (`CommitCycles.CommitCanHang`).
- The application does not get each block exactly once. A commit whose chain has no block of the
  round after the last committed one sends the previous head again, so a block is sent at most twice
  (`Emissions.SentHowOften`); `Resends.HeadCanBeSentAgain` is a run in which it happens.
- Rounds are unbounded naturals. Stakes are 32-bit numbers with wrap-around; results about runs
  assume a total stake below 2^31, and `Committees.ThresholdExact` shows that this is exactly when
  the threshold is the intended one.
- A public key is the number its 48 bytes denote. The two-level map of vote makers is one map on
  pairs. Channels are the sequences of what was sent on them. Timer firing, the arrival of payload
  and the order of events are nondeterministic.
- A received TC may make a node propose a block nobody can vote for; `Replicas.RelayedProposalVotable`
  says exactly when, and the claim that proposals are votable is made for all other proposals.

## Model

| member | source | states |
|---|---|---|
| Committees.QuorumThreshold | consensus/config.go:66-72 | the loop computes the wrapped threshold of the total stake, whatever order the map is visited in |
| Committees.ThresholdExact | consensus/config.go:66-72 | the threshold equals two thirds of the stake plus one if and only if the total stake is below 2^31 |
| Committees.ThresholdReachable | consensus/config.go:66-72 | on a non-empty sound committee the threshold is at most the total, so all authorities together are a quorum |
| Committees.QuorumIntersection | consensus/config.go:59-72 | any two signer sets reaching the threshold share more than a third of the stake |
| Committees.QuorumsShareOutside | consensus/config.go:59-72 | any two quorums share a name outside every set holding less than a third of the stake |
| LeaderElection.GetLeader | consensus/leader.go:25-39 | the result does not depend on map order: it is the authority at position round modulo size in key order |
| LeaderElection.LeaderRank | consensus/leader.go:25-39 | the leader of a round has as many authorities with a smaller key as the round leaves modulo their number |
| LeaderElection.RoundRobin | consensus/leader.go:25-39 | in any window of as many rounds as authorities, every authority leads exactly once |
| Messages.CountVotes | consensus/messages.go:191-209 | accepts exactly lists of distinct authorities with stake whose 32-bit weight reaches the threshold |
| Messages.VerifyQC | consensus/messages.go:190-216 | accepts exactly the certificates of a quorum over the certificate's own digest; a bad signature is reported only after a quorum |
| Messages.VerifyTC | consensus/messages.go:294-331 | accepts exactly the certificates in which a quorum signed this round, each with its listed round |
| Messages.VerifyBlock | consensus/messages.go:53-77 | author with stake, author's signature, genesis or valid QC, valid TC if any; nothing about rounds |
| Messages.VerifyTimeout | consensus/messages.go:251-268 | author with stake, signature over both rounds, genesis or valid QC |
| Messages.MaxHighQCRound | consensus/messages.go:333-340 | the maximum of the rounds a TC lists |
| Messages.QuorumNamesAreQuorum | consensus/messages.go:191-209 | below 2^31 the 32-bit counter loses nothing: an accepted list is a quorum and is not empty |
| Encoding.BlockBytesInjective | consensus/messages.go:79-89 | equal block bytes mean equal author, round and payload |
| Encoding.VoteBytesInjective | consensus/messages.go:153-160 | equal vote bytes mean equal hash and round |
| Encoding.TimeoutBytesInjective | consensus/messages.go:270-277 | equal timeout bytes mean equal round and certificate round |
| Encoding.KindsDisjoint | consensus/messages.go:79-89 | bytes signed for a block, a vote and a timeout never coincide, so no signature serves as another kind |
| Encoding.ByteAt | consensus/messages.go:79-89 | a number is written most significant byte first |
| Encoding.Layouts | consensus/messages.go:79-89 | at which bytes the fields of a block, a vote and a timeout stand |
| Aggregation.CounterStep | consensus/aggregator.go:82-108 | a counter reset to zero after firing stays a whole threshold behind the stake it counts, so it fires exactly at the first quorum |
| Aggregation.AppendVoteCorrect | consensus/aggregator.go:82-108 | one verified vote: duplicates are refused, a QC appears exactly when the distinct voters become a quorum, names exactly them, and verifies |
| Aggregation.AppendTimeoutCorrect | consensus/aggregator.go:125-149 | the same for timeouts and TCs |
| Aggregation.QcMakerRefinesStake | consensus/aggregator.go:82-108 | over any sequence of verified votes, the answer to the i-th is a function of the sets of authors before and after it |
| Aggregation.QcMakerFiresOnce | consensus/aggregator.go:96-105 | no second QC although the weight restarts at zero |
| Aggregation.TcMakerRefinesStake | consensus/aggregator.go:125-149 | the same as for votes, over any sequence of verified timeouts of one round |
| Aggregation.TcMakerFiresOnce | consensus/aggregator.go:139-147 | no second TC |
| Aggregation.AddVoteCorrect | consensus/aggregator.go:26-41 | on the whole aggregator: vote makers keep their invariant, and a returned QC is for the vote's block, verifies, and rests on signatures that exist |
| Aggregation.AddTimeoutCorrect | consensus/aggregator.go:43-51 | timeout makers keep their invariant; a returned TC verifies and lists no round above the bound on received certificates |
| Aggregation.AddVoteExact | consensus/aggregator.go:26-41 | adding a vote changes the maker of its round and digest and no other |
| Aggregation.AddTimeoutExact | consensus/aggregator.go:43-51 | adding a timeout changes the maker of its round and no other |
| Aggregation.CleanupExact | consensus/aggregator.go:53-65 | exactly the makers of rounds below the given one are forgotten, and all others are kept as they are |
| AggregatorObjects.QcMakerObject.Append | consensus/aggregator.go:82-108 | the object changes as the value does, including the fields already changed when a signature does not decode |
| AggregatorObjects.TcMakerObject.Append | consensus/aggregator.go:125-149 | the same for timeouts |
| AggregatorObjects.AggregatorObject.AddVote | consensus/aggregator.go:26-41 | finds or creates the maker and appends in place; no other maker changes |
| AggregatorObjects.AggregatorObject.AddTimeout | consensus/aggregator.go:43-51 | the same for timeouts |
| AggregatorObjects.AggregatorObject.DropBefore | consensus/aggregator.go:53-65 | deleting while ranging leaves exactly the makers of the round and later, each unchanged, as Aggregation.Cleanup does to the view |
| Safety.FirstVoteDescends | consensus/core.go:91-108 | without any premise: the first honest vote on a digest that becomes certified is for a block with Qc.Round below its round |
| Safety.CertifiedUnique | consensus/core.go:87-108 | two quorums of one round stand behind the same digest |
| Safety.Locking | consensus/core.go:91-108 | if all honest votes behind a quorum of round k+1 extended round k, every honest vote of a later round extends round k or above |
| Safety.TimeoutBound | consensus/core.go:141-164 | every TC of round k+1 or later lists a round of at least k once a block of round k+1 on round k is certified |
| Safety.CertifiedExtendsFinal | consensus/core.go:288-295 | whatever is certified at or above the round of a committed 2-chain head extends that head |
| Safety.FinalsAgree | consensus/core.go:288-295 | of two heads of certified 2-chains the higher extends the lower |
| Safety.SameRoundSameBlock | consensus/core.go:110-139 | ancestors of 2-chain heads at the same round are the same block |
| Chains.CommitWalk | consensus/core.go:115-126 | the blocks the loop visits if it ends, and none if it does not |
| Chains.CommitFate | consensus/core.go:115-126 | exactly one of three: the loop ends, it panics on a missing parent, or following parents leads into a cycle above the committed round plus one |
| Chains.LongTrailRepeats | consensus/core.go:117-125 | a loop that has taken more steps than the store has blocks is on a cycle |
| Chains.ClosedNeverPanics | consensus/core.go:117-125 | on an ancestor-closed store the panic is unreachable, and the loop ends if and only if there is no such cycle |
| Chains.WalkUnique | consensus/core.go:115-126 | the walk is determined by the store, the committed round and the block |
| Chains.CommitEmission | consensus/core.go:110-139 | on a grounded block the loop ends; each ancestor-or-self above the old round is sent once, nearest ancestor first, the block last, and at most one block at or below the old round |
| Replicas.AdvanceRoundKeeps | consensus/core.go:231-243 | the invariant and all histories survive; the round ends above the given one |
| Replicas.ProcessQCKeeps | consensus/core.go:262-265 | the round exceeds the certificate's and highQC is the higher of the two |
| Replicas.HandleVoteKeeps | consensus/core.go:166-193 | for any incoming vote the invariant holds and at most one, votable proposal at a higher round is requested |
| Replicas.VoteQuorumAdvances | consensus/core.go:166-193 | the node moves to the next round, with exactly that certificate, if and only if the vote first completes a quorum, and it proposes then if it leads; stale and invalid votes change nothing |
| Replicas.HandleTimeoutKeeps | consensus/core.go:195-229 | the same for any incoming timeout, including one whose certificate overtakes its own round |
| Replicas.TimeoutQuorumAdvances | consensus/core.go:195-229 | for any timeout, also one whose certificate overtakes its round: the node first takes over the certificate, then moves to the round after the timeout, unless already further, and proposes with the TC of exactly these signers if it leads there, if and only if the timeout first completes a quorum; stale and invalid timeouts change nothing |
| Replicas.HandleTCKeeps | consensus/core.go:351-367 | for any received TC the invariant holds and at most one proposal at a higher round is requested |
| Replicas.TCAdvances | consensus/core.go:351-367 | a verified TC of the current or a later round moves the node to the round after it and makes it propose with this TC exactly if it leads there; any other TC changes nothing |
| Replicas.RelayedProposalVotable | consensus/core.go:351-367 | the proposal made for a received TC is votable if and only if highQC reaches every round the TC lists |
| Replicas.LocalTimeoutKeeps | consensus/core.go:147-164 | a timer signs one timeout with the current highQC and rules out later votes up to this round |
| Replicas.VoteIfSafeSigns | consensus/core.go:91-108 | a vote is signed exactly when both safety rules hold |
| Replicas.VoteIfSafeKeeps | consensus/core.go:297-318 | a vote is only for a reached round and absorbed certificate, including a vote handled by the node itself |
| Replicas.StoreKeeps | consensus/core.go:281-284 | storing a block whose parent is known keeps the store ancestor-closed, even when it overwrites |
| Replicas.AncestorsFound | consensus/synchronizer.go:130-142 | once the parent is found the grandparent is, so the fatal branch is dead |
| Replicas.ProcessBlockKeeps | consensus/core.go:267-322 | the invariant, growth, at most one vote and one proposal, for any admitted block |
| Replicas.ProcessBlockHealth | consensus/core.go:267-295 | on an ancestor-closed store a delivered block never meets the fatal branch or the panic, and hangs the node exactly if it makes it commit a block whose parents lead into a cycle above the committed round |
| Replicas.HandleHealth | consensus/core.go:376-405 | the same for every event, in terms of the state before it: messages and timers never stop a node |
| Replicas.HandleKeeps | consensus/core.go:376-405 | every event a node can meet keeps the ladder, grows every history, signs at most once and by the rules |
| Duties.VoteIfSafeExact | consensus/core.go:91-108 | a vote is signed exactly if the round is above the last voted one and the block extends the previous round, or the TC of the previous round with a certificate at least as high as all it lists; the node counts its vote itself exactly if it leads the next round |
| Duties.CommitExact | consensus/core.go:281-295 | the block is stored, and its grandparent is committed exactly if it and the parent are of consecutive rounds and it is above the committed round; then its walk is sent, unless it leads into a cycle |
| Duties.CertificatesExact | consensus/core.go:324-337 | the node's round becomes the highest of its own and those after the two certificates, highQC the higher one, and no maker of a round not left is touched |
| Duties.BlocksHandledExactly | consensus/core.go:267-349 | in every reachable state, the exact effect of every proposal and looped-back block: ignored, suspended for a missing payload or parent, or stored with the commit and the vote that the rules demand |
| Duties.TCsHandledExactly | consensus/core.go:351-367 | the exact effect of every received TC |
| Duties.NoBlockForgotten | consensus/core.go:271-284 | over whole runs every block a node has admitted is stored or waiting to be looped back |
| Duties.StartProposes | consensus/core.go:369-374 | at start-up the leader of round 1, and nobody else, asks for a proposal on genesis |
| Duties.ProposesOnlyAsLeader | consensus/core.go:245-251 | over whole runs a node asks for proposals only in rounds it leads |
| Duties.PeersAdmitProposals | consensus/core.go:324-349 | every block made from a request of an honest node with stake passes the checks of every honest node in any state |
| Tallies.EventCounts | consensus/core.go:376-405 | what each event adds to the signers counted for a round the node has not left |
| Tallies.RunHasTrace | consensus/core.go:376-405 | every run of the system has a record of which node handled which event |
| Tallies.TalliesExact | consensus/aggregator.go:26-65 | over whole runs, for every round a node has not left, its makers hold exactly the authors of the verified votes and timeouts delivered to it, with its own |
| Tallies.QuorumNeverMissed | consensus/core.go:166-229 | over whole runs, a node that has heard a quorum of votes for one block, or of timeouts, of some round has left that round |
| Replicas.VerifiedQCIsGenuine | consensus/messages.go:190-216 | a certificate that verifies and has no forged part rests on votes that were really signed |
| CoreObject.Core.constructor | consensus/core.go:51-70 | the object starts in the initial state, having proposed if it leads round 1 |
| CoreObject.Core.AdvanceRound | consensus/core.go:231-243 | a round below the current one changes nothing; otherwise the object's round becomes the next one and older makers are dropped, as Replicas.AdvanceRound does to the view |
| CoreObject.Core.ProcessQC | consensus/core.go:262-265 | the object's round moves past the certificate and its highQC becomes the higher one, as Replicas.ProcessQC does to the view |
| CoreObject.Core.HandleVote | consensus/core.go:166-193 | stale and invalid votes change nothing; others are aggregated, and a completed QC is absorbed and proposed upon, as Replicas.HandleVote does to the view |
| CoreObject.Core.HandleTimeout | consensus/core.go:195-229 | stale and invalid timeouts change nothing; for others the certificate is absorbed, the timeout aggregated and a completed TC acted on, as Replicas.HandleTimeout does to the view |
| CoreObject.Core.HandleTC | consensus/core.go:351-367 | an invalid or stale TC changes nothing; another moves the round past it and makes a leader propose, as Replicas.HandleTC does to the view |
| CoreObject.Core.LocalTimeoutRound | consensus/core.go:147-164 | votes up to this round are ruled out, one timeout with the current highQC is signed and handled, as Replicas.LocalTimeoutRound does to the view |
| CoreObject.Core.MakeVote | consensus/core.go:91-108 | a vote if and only if both rules hold, and then the vote for this block; otherwise nothing changes |
| CoreObject.Core.GetParentBlock | consensus/synchronizer.go:106-128 | genesis, the stored parent, or not found |
| CoreObject.Core.WalkDown | consensus/core.go:115-126 | the loop alone, for every store: it ends with the emission of the walk, panics on a missing parent, or is on a cycle |
| CoreObject.Core.Commit | consensus/core.go:110-139 | for every store: the emission of the walk is sent if the loop ends; otherwise nothing is sent and the node has panicked or hangs, according to which it is |
| CoreObject.Core.ProcessBlock | consensus/core.go:267-322 | the block is suspended, or stored, its grandparent committed under the 2-chain rule, and voted for if safe; a missing grandparent or a failing commit stops the node; as Replicas.ProcessBlock does to the view, for every block and store |
| CoreObject.Core.HandleProposal | consensus/core.go:324-349 | blocks of a wrong leader or that do not verify change nothing; others have their certificates absorbed and are processed or suspended, as Replicas.HandleProposal does to the view |
| CoreObject.Core.HandleLoopback | consensus/core.go:396-397 | a looped-back block is admitted and processed, as the Loopback case of Replicas.Handle does to the view |
| Protocol.LogSnoc | consensus/core.go:87-108 | a signature made under the rules keeps the facts about the global log |
| Protocol.ApplyKeeps | consensus/core.go:376-405 | any event at any honest node keeps the global invariant |
| Protocol.RunInv | consensus/core.go:369-406 | the global invariant holds in every state of every run |
| Agreement.PathInStore | consensus/synchronizer.go:106-128 | ancestors of a certified stored block known anywhere in the system are in this node's store |
| Agreement.LineExists | consensus/core.go:115-125 | a certified block's ancestry is complete in the store and its rounds fall down to genesis |
| Agreement.CommitRuleIsFinal | consensus/core.go:288-295 | the commit condition proves that both blocks of the 2-chain are certified at consecutive rounds |
| Agreement.CommitSends | consensus/core.go:110-139 | one commit sends only ancestors, and every ancestor above the old round |
| Agreement.RunChain | consensus/core.go:267-322 | commit facts hold in every state of every run under the premise |
| Agreement.NeverStuck | consensus/core.go:117-125 | in runs in which stored blocks of one certified digest name the same parent, no honest node reaches the panic, the fatal branch or an endless commit loop |
| Agreement.CommitsAgree | consensus/core.go:110-139 | under the premise, of any two blocks committed by honest nodes one extends the other |
| Agreement.ChannelIsChain | consensus/core.go:110-139 | under the premise, the set of non-genesis blocks sent on the commit channel is exactly the chain ending at the last committed block |
| Emissions.CommitTimes | consensus/core.go:115-136 | under the premise, one commit sends each block of its chain above the last committed round once, and of the others only the previous head, once, exactly if the chain has no block of the round after it |
| Emissions.SentHowOften | consensus/core.go:110-139 | under the premise, over a whole run a block is sent never if it is not on the chain of the last committed block, twice if it was the committed head when the next commit's chain skipped the round after it, and once otherwise |
| Agreement.SameRoundSameEmission | consensus/core.go:130-136 | under the premise, no two honest nodes send different blocks of one round |
| Agreement.EmissionsAgree | consensus/core.go:130-136 | under the premise, a block one honest node sent is sent by every honest node that has committed that far |
| Runs.OneCertifiedHashPerRound | consensus/messages.go:190-216 | any two QCs that verify in a run and share a round share the hash, and their round is positive |
| Runs.CertifiedBlockDescends | consensus/core.go:91-108 | an admitted block of a certified digest, stored or not, has Qc.Round below its round, under the premise for it and the stored blocks |
| Runs.VotesStayLocked | consensus/core.go:91-108 | the locking lemma in every reachable state |
| Runs.Ladder | consensus/core.go:87-108 | highQC below round, lastVoted at most round, highQC at least the Qc.Round of every block voted for, vote makers only for rounds from the current one |
| Runs.NothingDecreases | consensus/core.go:231-265 | along a run round, lastVotedRound, lastCommittedRound and highQC.Round never decrease and no history shrinks |
| Runs.ProposalRoundsIncrease | consensus/core.go:245-251 | a node requests proposals at strictly increasing rounds over its whole run |
| Runs.OwnProposalsVotable | consensus/core.go:182-228 | every proposal made at start-up or for any event but a received TC satisfies safety rule 2 |
| Runs.StoreAncestorClosed | consensus/synchronizer.go:106-142 | in every reachable state each stored block's parent is genesis or stored |
| Runs.ParentsNeverMissing | consensus/core.go:117-125 | in every reachable state, without any premise, following parents never meets a missing one, and the commit loop ends if and only if it meets no cycle |
| Runs.StopsExactlyOnCycle | consensus/core.go:267-295 | in every reachable state, without any premise, an event stops a node if and only if it makes it commit a block whose parents lead into a cycle, a condition on the state before the event |
| Runs.OnlyCyclesStop | consensus/core.go:110-139 | over whole runs, without any premise, no honest node meets the fatal branch or the panic, and one that has stopped is on a cycle in its store |
| Runs.CommitCallExact | consensus/core.go:110-139 | under the premise, the exact emission of a commit call on a certified block in every reachable state |
| Counterexamples.AgreementNeedsPremise | consensus/messages.go:79-89 | a concrete run with two blocks of one digest after which one node has committed round 2 without ever sending the round 1 block another node committed |
| Counterexamples.PremiseNotNecessary | consensus/messages.go:79-89 | a reachable state in which the premise fails and yet every honest node has sent what the others that committed as far have sent |
| CommitCycles.CommitCanHang | consensus/core.go:117-125 | a concrete run with two blocks of one certified digest after which a commit loops forever, and in which a stored block of a certified digest has Qc.Round above its round |
| Resends.HeadCanBeSentAgain | consensus/core.go:115-136 | a concrete run with one block per digest after which the commit channel has carried one block twice |
| CommitCycles.RelayedProposalCanBeUnvotable | consensus/core.go:351-364 | a reachable state and a deliverable TC for which the honest leader receiving it asks for a proposal nobody may vote for |
| Stores.EveryoneAnswered | store/store.go:51-107 | over any interleaving each caller has received exactly what the commands owe it; keys with waiters are not in the database |
| Stores.AnsweredIffWritten | store/store.go:81-100 | a notify-read has exactly one answer, a value, if some command has written its key by now, and none otherwise |
| Stores.ClosedForGood | store/store.go:102-105 | after Close no command has any effect |
| Stores.StoreLoop.Run | store/store.go:52-106 | the loop body, including notifying all waiters in turn |
| Synchronizers.SuspendedOnceResumedOnce | consensus/synchronizer.go:39-104 | over any interleaving with the store, each accepted suspension is waiting or was looped back once, after its parent was written; a waiting block's parent is in the retried requests unless it is written; every request has a waiting child |
| Synchronizers.ResumableIffStored | consensus/synchronizer.go:98-104 | a waiter that has called notify-read can hand over its block if and only if the parent has been written to the store, before or after the call |
| Synchronizers.SuspensionAccepted | consensus/synchronizer.go:41-68 | a suspended block is accepted unless one of its digest is waiting, also when its parent is already being requested; the time of the first request is kept |
| Synchronizers.SyncLoop.Suspend | consensus/synchronizer.go:41-68 | a digest already pending changes nothing; otherwise it becomes pending with a new waiter, and its parent is recorded and asked for exactly if it was not being requested |
| Synchronizers.SyncLoop.Wake | consensus/synchronizer.go:69-72 | the block is no longer pending, its parent no longer requested, and the block joins the end of the loopback channel; nothing else changes |
| Synchronizers.SyncLoop.Tick | consensus/synchronizer.go:73-86 | exactly the overdue requests are repeated |
| ReliableConnections.NothingLostOrReordered | network/reliablesender.go:101-196 | answered, outstanding and buffered messages, in this order, are the submitted messages without the dropped ones, for any sequence of sends, acks, failures and reconnects |
| ReliableConnections.AnsweredOnceInOrder | network/reliablesender.go:181-187 | every answered message was submitted and not dropped, and each is answered at most once, in submission order |
| ReliableConnections.AckAnswersOldest | network/reliablesender.go:175-187 | an ack answers the oldest message neither answered nor dropped |
| ReliableConnections.OnlyCancelledDropped | network/reliablesender.go:157-160 | only messages whose sender gave up are dropped |
| ReliableConnections.SubmitOnlyBuffers | network/reliablesender.go:172-174 | a message handed over is buffered and not written before the next flush |
| ReliableConnections.FlushWritesAll | network/reliablesender.go:156-170 | a stream that does not break writes exactly the messages whose sender has not given up, in order, and drops the others |
| ReliableConnections.FlushBreaks | network/reliablesender.go:156-170 | a stream that breaks fails on the first message it has no write left for; what was written, outstanding or still to come is buffered again in order |
| ReliableConnections.FlushEmpties | network/reliablesender.go:156-170 | a stream that does not break empties the buffer |
| ReliableConnections.RepliesMatchWrites | network/reliablesender.go:175-187 | over any sequence of events, the n-th response read from a stream answers the n-th message written on it, and what was written after those is outstanding |
| ReliableConnections.BreakRequeuesAll | network/reliablesender.go:175-193 | after a closed reader, an unexpected ack or a failed write nothing is outstanding, and the buffer holds everything neither answered nor dropped, in submission order |
| ReliableConnections.ConnectionObject.Receive | network/reliablesender.go:120-121 | a submitted message joins the end of the buffer |
| ReliableConnections.ConnectionObject.WriteOut | network/reliablesender.go:156-170 | the write loop with cancellation and a stream that may break at any message |
| ReliableConnections.ConnectionObject.Acknowledge | network/reliablesender.go:175-188 | the oldest outstanding message is answered; an unexpected ack breaks the connection |
| ReliableConnections.ConnectionObject.PutBack | network/reliablesender.go:191-193 | popping from the back and pushing to the front empties the outstanding messages into the front of the buffer in order |
| Batches.DecodeEncode | mempool/batchmaker.go:80-118 | decoding undoes encoding on every batch |
| Batches.EncodeDecode | mempool/batchmaker.go:80-118 | bytes that are accepted re-encode to themselves |
| Batches.SerializeBatch | mempool/batchmaker.go:80-91 | the loop produces the encoding |
| Batches.DeserializeBatch | mempool/batchmaker.go:93-118 | the reader loop decodes, and rejects short headers and overlong lengths |
| Batches.NothingLostOrDuplicated | mempool/batchmaker.go:57-78 | over any run the decoded sealed batches followed by the current batch are the received transactions in order, and no sealed batch is empty |
| Batches.SizeIsTotal | mempool/batchmaker.go:64-68 | the size is never reset: it is all bytes ever received, as a uint64 |
| Batches.SealedWhen | mempool/batchmaker.go:60-77 | the timer seals whatever is there, and a transaction seals exactly if all bytes ever received, as a uint64, reach the batch size |
| Batches.BatchMaker.Handle | mempool/batchmaker.go:60-77 | one turn of the loop |
| Batches.BatchMaker.SealBatch | mempool/batchmaker.go:120-148 | the current batch is encoded, handed over and emptied; the size is not reset |

## Left out

- BLS and SHA-256 themselves, and aggregate-signature attacks below the ideal-signature abstraction.
- Wrap-around of 64-bit rounds, and the negative index of the leader computation from round 2^63 on.
- The store as shared with the mempool: block keys and batch keys are taken to be disjoint, and stored blocks decode to what was written.
- Payload tracking: whether a payload is at hand is an arbitrary answer, and the payload waiter is only a source of blocks that were suspended before.
- Proposer cleanup messages, mempool cleanup, the proposer's buffer and its wait for acknowledgements.
- Liveness: nothing is claimed about eventual delivery or progress of rounds under timing assumptions.
- Node restart: voting state is not persisted, so runs start from the initial state.
- Store.Close beyond the fact that later commands are ignored (the node never calls it), database errors other than not-found, and keys other than digests.
- Network hosts, streams, simple sender, receivers, protobuf conversion, configuration files, command line, logging.
- Mempool synchronizer, quorum waiter, processor and helpers: forwarding and timing only.
- NewCommittee, Address and BroadcastAddresses: plain lookups and a map fill.
- CoreObject.Core.Commit: the source's loop does not count its steps; here a loop that is proved never to end is cut off, because a Dafny loop must end.
- Agreement.CommitsAgree: assumes that blocks of one certified digest that honest nodes have stored name the same parent, because the digest does not cover certificates. The premise is sufficient and not necessary (Counterexamples.PremiseNotNecessary).
