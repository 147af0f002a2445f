# A verified model of rbft

A Dafny model of the QBFT consensus in `crates/rbft` and of the smaller algorithms around
it: the codec of round-change payloads, block catch-up, validator selection, the encoder of
the contract's `initialize` call and the transaction allocator. `dafny verify dfyconfig.toml`
checks all of it.

## How the model is built

`Types` holds blocks, payloads and messages. Cryptography is symbolic: a hash is the term
that was hashed and a signature records its author and payload, so hashing is injective and
a signature verifies for one payload only.

`Protocol` gives every transition of a node as a function from the state to the new state
and the messages sent. `Node` is the same node as an object whose fields are updated in
place, with its key index, its loops and its early returns; each method is proved equal to
the transition function of its name, so what is proved about the functions holds of the
object. `Justification` does the same for the rule that justifies proposals: a predicate,
and the method with the grouping loop that computes it.

`Swarm` puts nodes around a network that delays, reorders, repeats and loses messages. At
most `f(n)` validators are faulty; an adversary injects any message that forges no honest
signature, nested ones included. A run is any finite sequence of steps: a node receives, a
node ticks (with or without its own output put straight back into its store), a driver sets
a proposed block, the adversary injects. `Effects` reduces a tick to one of nine events, and
`Preservation` shows that the invariant in `Invariant` holds in every state of every run.

`Agreement`, `Rounds`, `PreparedState`, `Leader` and `Certificates` draw the run-wide
results from that invariant. `HappyPath` is progress in lock step, `Deferral` the bound on
waiting in round 0, `Rotation` the leader schedule. `Rules` says which transition fires for
what a store holds, and `Staging` uses it to build runs step by step, with clocks that never
go back; `Divergence` (with the acts of its many validators in `Ensemble`) and `Faults` are
runs built that way, for any validators and blocks.

## Where code and documentation disagree

The book promises that no conflicting blocks are finalised while at most `f` validators are
faulty (`book/src/architecture/qbft.md`, lines 75-76). The code does not keep that promise
across rounds. A proposal above round 0 falls through to the rule for new blocks whenever no
prepared round has `f + 1` senders for this very block, even if a quorum has committed
another block. `Divergence.SafetyFails` builds, for any number of validators from three on,
all honest, a run after which two of them have different blocks at the head of one height.
`Agreement.SameRoundAgreement` shows what does hold without condition,
`Agreement.CrossRoundAgreement` and `Agreement.HeadsAgree` that agreement across rounds holds
at every height whose fall-through acceptances kept to the documented rule (no round change
announces a prepared value), and `Agreement.CrossRoundAgreementIff` that the fall-through
acceptances are the only ones that can break it. `Justification.FallsThroughIff` says exactly
when a proposal falls through.

The round number and the proposer on a block that was prepared before are not checked.
`Justification.LabelIff` says exactly which labels a justified block may carry: any, when the
prepared branch is taken, and otherwise only the proposal's round and its leader;
`Agreement.AcceptedLabels` says what that means for every acceptance of every run, and
`Faults.LabelsCanDiffer` builds a run in which an honest node accepts a block with any round
number. Whether the content of finalised blocks agrees does not depend on it
(`Agreement.HeadsAgree`).

A leader does not check the seals in the commits it counts. `Certificates.SealedBlockValidIff`
says when the block it seals is valid, and `Faults.BadSealStrands` builds a run in which one
faulty commit makes it invalid for every other honest node.

Catch-up asks for blocks only when it is more than one behind the highest block it has heard
of. `CatchUp.CatchUpConverges` therefore has one exception, stated as an if-and-only-if;
`CatchUp.StaysOneShort` is that exception. It is one of catch-up on its own: a node that has
heard of the missing block has the message that carries it, and the consensus normally takes
the block from there. A response is matched by the height in the signed payload and not by
the one in the block's header; `CatchUp.SyncIff` says exactly when the consensus head stays at
the height of the chain, and `CatchUp.HeadLeavesChain` gives responses after which it does not.

## Model

| member | source | states |
|---|---|---|
| `Agreement.SameRoundAgreement` | crates/rbft/src/node.rs:99-221 | in every run, at no height and round are there quorums of prepares, or of commits, for two digests; signatures are typed, so a proposal's signature is no prepare's |
| `Agreement.SingleVote` | crates/rbft/src/node.rs:29-221 | in every run, an honest validator prepares at most one digest, and commits at most one, per height and round |
| `Agreement.StepsGoForward` | crates/rbft/src/node.rs:627-661 | a tick never lowers (height, round, proposal accepted); a tick that sends a prepare raises it strictly |
| `Agreement.PreparedBranchSound` | crates/rbft/src/node_auxilliary_functions.rs:617-757 | acceptance through the prepared branch means an earlier round for which a quorum announced, and a quorum prepared, the relabelled block |
| `Agreement.SamePreparedRoundSameBlock` | crates/rbft/src/node_auxilliary_functions.rs:617-757 | two acceptances resting on one prepared round carry one block, up to round number and proposer |
| `Agreement.CommitLocks` | crates/rbft/src/node.rs:138-221 | after a commit quorum in round r the prepared branch can only rest on r, for the committed block, or on a later round |
| `Agreement.LaterProposalsNamePrepared` | crates/rbft/src/node_auxilliary_functions.rs:587-615 | every proposal accepted above a committed round carries a round change that announces a prepared block of that round or later |
| `Agreement.CrossRoundAgreementIff` | crates/rbft/src/node_auxilliary_functions.rs:617-771 | all blocks accepted after a commit quorum are the committed one iff those accepted by falling through are |
| `Agreement.CrossRoundAgreement` | crates/rbft/src/node_auxilliary_functions.rs:758-771 | commit quorums of one height are for one block in every run in which the acceptances that fell through at that height, above the earlier of the two rounds, had no prepared round change |
| `Agreement.PreparedWasCommitted` | crates/rbft/src/node_auxilliary_functions.rs:617-757 | acceptance through the prepared branch rests on a commit quorum in the prepared round |
| `Agreement.SealedHasCommitQuorum` | crates/rbft/src/node.rs:274-313 | a quorum of seals on a block means a commit quorum for its content, in the round its header names or in the one it was prepared in |
| `Agreement.HeadsAgree` | book/src/architecture/qbft.md:75-76 | the heads two honest nodes have at one height, at any two moments of a run, are one block but for seals and label, if the height's fall-through acceptances had no prepared round change; of one round number they are one block but for seals, if the blocks accepted at the height carry their rounds |
| `Agreement.AcceptedLabels` | crates/rbft/src/node_auxilliary_functions.rs:617-771 | in every run an accepted block has the round of its proposal or came through the prepared branch, and exactly there another label would have done as well |
| `Divergence.SafetyFails` | book/src/architecture/qbft.md:75-76 | any three or more validators, all honest, whatever their first two leaders have to propose, have a run with clocks that go forward and different blocks at two heads of one height in the end |
| `Divergence.BlocksExist` | crates/rbft/src/tests.rs:68-128 | every committee has blocks for that |
| `Faults.LabelsCanDiffer` | crates/rbft/src/node_auxilliary_functions.rs:648-757 | four validators, one of them faulty, have a run, clocks going forward, in which an honest node accepts in round 1 a block with any other round number |
| `Faults.OddProposalPasses` | crates/rbft/src/node_auxilliary_functions.rs:810-875 | in that run the faulty leader's proposal passes all checks |
| `Justification.LabelIff` | crates/rbft/src/node_auxilliary_functions.rs:556-773 | for every committee, a justified block is justified under another label iff the proposal is above round 0 and some prepared round is backed, or the label is the proposal's round and its leader |
| `Faults.BadSealStrands` | crates/rbft/src/node.rs:228-317 | four validators, one of them faulty, have a run, clocks going forward, in which an honest leader finalises and announces a block that is invalid for every other honest node |
| `Faults.ExampleIsGood` | crates/rbft/src/tests.rs:68-128 | there are four such validators |
| `Ensemble.BlockAIsNotJustified` | crates/rbft/src/node_auxilliary_functions.rs:677-696 | a block that a quorum has committed is not justified for the next round by the announcements of all of it but one |
| `Ensemble.BlockBIsJustified` | crates/rbft/src/node_auxilliary_functions.rs:758-771 | with the same round changes a new block of the leader is justified |
| `Ensemble.OwnBlockJustified` | crates/rbft/src/node_auxilliary_functions.rs:916-1050 | so the leader, looking at prepared blocks first, settles for its own |
| `Staging.GiveUpAct` | crates/rbft/src/node.rs:362-471 | a node that has committed in round 0 and hears nothing more goes to round 1, through the deferral, announcing what it prepared |
| `Rounds.RoundsAreDrivenByHonestTimeouts` | crates/rbft/src/node.rs:362-619 | an honest node in round r means that for each earlier round an honest timer fired at that height |
| `PreparedState.NodeStatesValid` | crates/rbft/src/node_auxilliary_functions.rs:1490-1537 | in every run every honest node passes its consistency check: prepared pair set together, prepare quorum in store; and its prepared round is not after its round |
| `PreparedState.RoundChangesAreCertified` | crates/rbft/src/node_auxilliary_functions.rs:1165-1217 | every round change an honest node sends is valid for its round and carries the block and the prepare quorum it claims |
| `PreparedState.PushKeepsView` | crates/rbft/src/types/node_state.rs:523-525 | storing the node's own message, which does not move the view, never pushes the prepares it relies on out of view |
| `Leader.LeaderProposalsAreTaken` | crates/rbft/src/node.rs:480-527 | a proposal an honest leader sends is admitted by every node on the same head, and valid there iff that node's round allows it |
| `Leader.ChecksOfHead` | crates/rbft/src/node_auxilliary_functions.rs:810-875 | the checks of a proposal depend on the head of the chain only |
| `Justification.LeaderVerifierAgree` | crates/rbft/src/node_auxilliary_functions.rs:1102-1149 | what passes the leader's own check, extra prepares included, passes the verifier's after relabelling |
| `Justification.HighestBackedForgetsLabel` | crates/rbft/src/node_auxilliary_functions.rs:619-646 | the highest backed round does not depend on the block's round number and proposer |
| `Justification.HighestBackedIsMaximum` | crates/rbft/src/node_auxilliary_functions.rs:637-646 | the prepared round picked is the highest with more than f senders |
| `Justification.FallsThroughIff` | crates/rbft/src/node_auxilliary_functions.rs:758-771 | the rule for new blocks applies iff no prepared round has f + 1 senders for this block |
| `Justification.CheckJustification` | crates/rbft/src/node_auxilliary_functions.rs:556-773 | the code's checks in order, with the grouping loop, decide exactly the justification rule |
| `Justification.GroupByPreparedRound` | crates/rbft/src/node_auxilliary_functions.rs:617-635 | the map holds, for each prepared round, exactly the round changes that announce this block for it |
| `Justification.HighestGroup` | crates/rbft/src/node_auxilliary_functions.rs:637-646 | the pass over the map finds the highest backed round |
| `Justification.PreparedBranch` | crates/rbft/src/node_auxilliary_functions.rs:648-757 | what the prepared branch requires: an earlier round, a quorum of supporters and of prepares, all for the relabelled digest |
| `Certificates.CommitsCertify` | crates/rbft/src/node.rs:274-313 | a block finalised from honest commits passes the new-block check at every node not past it |
| `Certificates.SealedBlockValidIff` | crates/rbft/src/node_auxilliary_functions.rs:1351-1457 | a sealed block passes iff height, body digest and seal count are right and every collected seal is a validator's seal of it |
| `Certificates.CheckNewBlock` | crates/rbft/src/node_auxilliary_functions.rs:1351-1457 | the checks in order decide validity of a new block |
| `Certificates.CheckSeals` | crates/rbft/src/node_auxilliary_functions.rs:1435-1455 | the loop over the seals decides that all of them verify |
| `HappyPath.FiveTicksFinalise` | crates/rbft/src/tests.rs:1157-1177 | for two or more validators, five lock-step ticks before any timer expires take every node to the next height with one certified head |
| `HappyPath.StartExists` | crates/rbft/src/tests.rs:68-128 | for any two or more validators a fresh swarm meets the starting conditions of the previous row |
| `HappyPath.Tick1` | crates/rbft/src/node.rs:29-91 | the leader proposes and prepares, the others wait |
| `HappyPath.Tick2` | crates/rbft/src/node.rs:99-130 | the others accept and prepare, the leader waits |
| `HappyPath.Tick3` | crates/rbft/src/node.rs:138-221 | with every prepare in store each node commits once |
| `HappyPath.Tick4` | crates/rbft/src/node.rs:228-317 | the leader finalises and announces, the others wait |
| `HappyPath.OtherAdopts` | crates/rbft/src/node.rs:320-354 | the others take the announced block |
| `HappyPath.LeaderMovesOn` | crates/rbft/src/node_auxilliary_functions.rs:322-339 | the leader of a height does not lead round 0 of the next |
| `Deferral.DeferralIsBounded` | crates/rbft/src/node.rs:432-471 | of all ticks a node takes in round 0 on one head, whatever arrives and whenever it is woken, at most (2n + 1) times the grace period put the round change off |
| `Deferral.WaitingEnds` | crates/rbft/src/node.rs:362-415 | a node whose timer rule has found the timer expired more often than that on one head is in round 1 |
| `Deferral.HeadsComeFresh` | crates/rbft/src/types/node_state.rs:546-562 | in every history a node comes to a head with round 0, no proposal and a cleared marker |
| `Deferral.ReceivingKeeps` | crates/rbft/src/types/node_state.rs:131-209 | receiving drops nothing the marker counts and brings all that is stored for the height into view |
| `Deferral.StepMoves` | crates/rbft/src/node.rs:635-661 | a tick that stays in round 0 and does not defer leaves the wait as it is, or takes the first proposal |
| `Deferral.DeferringPutsOff` | crates/rbft/src/types/node_state.rs:571-580 | a deferral records new senders, or comes within the grace period of the last that did; it restarts the timer |
| `Deferral.ProgressGrows` | crates/rbft/src/node_auxilliary_functions.rs:270-303 | sender counts do not fall while nothing of the height is dropped |
| `Deferral.ProgressIsCapped` | crates/rbft/src/node_auxilliary_functions.rs:270-303 | sender counts are at most the number of validators |
| `Rotation.EveryoneLeadsOnce` | crates/rbft/src/node_auxilliary_functions.rs:322-339 | any n consecutive rounds give each validator the lead exactly once |
| `Rotation.SomeLeaderIsHonest` | crates/rbft/src/node_auxilliary_functions.rs:237-339 | any f(n) + 1 consecutive rounds include a leader outside any f(n) validators |
| `Rotation.FaultyCanLead` | crates/rbft/src/node_auxilliary_functions.rs:237-339 | f(n) rounds are not enough: some f(n) validators lead all of them |
| `Validators.QuorumBounds` | crates/rbft/src/node_auxilliary_functions.rs:237-248 | a quorum is the least size for which two share more than f members, and honest validators can make one |
| `Preservation.InvHolds` | crates/rbft/src/tests.rs:202-268 | the invariant holds in every state of every run |
| `Preservation.NextKeepsInv` | crates/rbft/src/node.rs:627-661 | every step of the swarm keeps the invariant |
| `Preservation.PreparesHaveDistinctSenders` | crates/rbft/src/node.rs:138-166 | counting stored prepares counts validators |
| `Effects.SubStepEffect` | crates/rbft/src/node.rs:635-661 | every tick is one of nine events, with that event's guard, state change and output |
| `Store.InsertKeepsSorted` | crates/rbft/src/types/node_state.rs:171-182 | insertion keeps the store in strict key order |
| `Store.SortedHasUniqueKeys` | crates/rbft/src/types/node_state.rs:171-182 | the store holds one message per height, round, kind and author |
| `Store.PrunedPrefix` | crates/rbft/src/types/node_state.rs:196-209 | after pruning the view holds exactly the messages of the current height |
| `PreparedState.AtRoundIsRound` | crates/rbft/src/types/node_state.rs:258-266 | the slice at a round holds every visible message of that round |
| `Protocol.Receive` | crates/rbft/src/types/node_state.rs:131-169 | the store keeps what it had and gains admissible messages only, one for every new key |
| `Protocol.FirstValidProposal` | crates/rbft/src/node.rs:99-130 | a valid proposal in view is found iff there is one |
| `Protocol.LastValidNewBlock` | crates/rbft/src/node.rs:320-336 | a valid new block in store is found iff there is one, future heights included |
| `Protocol.FirstJustifiedRound` | crates/rbft/src/node_auxilliary_functions.rs:916-1050 | a justified round among the candidates is found iff there is one |
| `Protocol.MinRound` | crates/rbft/src/node_auxilliary_functions.rs:1472-1478 | the least round named |
| `Node.Node.constructor` | crates/rbft/src/types/node_state.rs:91-122 | a new node is in the initial state |
| `Node.Node.InsertMessageSorted` | crates/rbft/src/types/node_state.rs:171-182 | inserts in order unless the key index has the key; keeps store and index consistent |
| `Node.Node.Drain` | crates/rbft/src/types/node_state.rs:201-204 | drops leading messages and exactly their keys |
| `Node.Node.PruneMessages` | crates/rbft/src/types/node_state.rs:196-209 | refines the pruning function |
| `Node.Node.ReceiveAll` | crates/rbft/src/types/node_state.rs:139-164 | the validation loop refines the receiving function |
| `Node.Node.AddMessages` | crates/rbft/src/types/node_state.rs:131-169 | receives, prunes messages and blocks |
| `Node.Node.NewRound` | crates/rbft/src/types/node_state.rs:546-562 | sets the round; round 0 clears the prepared pair and the progress marker |
| `Node.Node.UpdateRoundZeroProgress` | crates/rbft/src/types/node_state.rs:571-580 | moves the marker and reports progress iff a count grew |
| `Node.Node.UponBlockTimeout` | crates/rbft/src/node.rs:29-91 | refines the transition of the same name |
| `Node.Node.IsValidProposal` | crates/rbft/src/node_auxilliary_functions.rs:810-903 | decides validity of a proposal |
| `Node.Node.UponProposal` | crates/rbft/src/node.rs:99-130 | the scan takes the first valid proposal in view, as the transition function does |
| `Node.Node.UponPrepare` | crates/rbft/src/node.rs:138-221 | refines the transition of the same name |
| `Node.Node.UponCommit` | crates/rbft/src/node.rs:228-317 | refines the transition of the same name |
| `Node.Node.UponNewBlock` | crates/rbft/src/node.rs:320-354 | the reverse scan takes the last valid new block, as the transition function does |
| `Node.Node.DeferRoundZeroTimeout` | crates/rbft/src/node.rs:432-471 | refines the deferral function, marker included |
| `Node.Node.UponRoundTimeout` | crates/rbft/src/node.rs:362-430 | refines the transition of the same name |
| `Node.WithExtraPrepares` | crates/rbft/src/node_auxilliary_functions.rs:1114-1122 | the nested loops append exactly the prepares of the new round found in round changes |
| `Node.Node.IsReceivedJustification` | crates/rbft/src/node_auxilliary_functions.rs:1102-1149 | decides the leader's justification check |
| `Node.Node.HasReceivedJustification` | crates/rbft/src/node_auxilliary_functions.rs:916-1050 | the loop over rounds and blocks returns the first justified one |
| `Node.Node.UponRoundChange` | crates/rbft/src/node.rs:478-619 | refines the transition of the same name |
| `Node.Node.NextSubStep` | crates/rbft/src/node.rs:635-661 | runs the first enabled transition in priority order |
| `Node.Node.NodeNext` | crates/rbft/src/node.rs:627-631 | sets the clock and steps |
| `Rlp.RoundTrip` | crates/rbft/src/types.rs:115-229 | decoding an encoding followed by any suffix returns the payload and leaves that suffix |
| `Rlp.LengthIsRight` | crates/rbft/src/types.rs:156-184 | the announced length is the number of bytes written, long list headers included |
| `Rlp.EncodingIsPrefixFree` | crates/rbft/src/types.rs:115-184 | no encoding is a prefix of another |
| `Rlp.Writer.PutU64` | crates/rbft/src/types.rs:116-154 | appends an integer's encoding |
| `Rlp.Writer.PutListHeader` | crates/rbft/src/types.rs:116-154 | appends a short or long list header |
| `Rlp.Writer.PutPrepared` | crates/rbft/src/types.rs:138-154 | appends the optional fields |
| `Rlp.Writer.PutRoundChange` | crates/rbft/src/types.rs:115-154 | appends the payload's encoding |
| `Rlp.Cursor.TakeRoundChange` | crates/rbft/src/types.rs:186-229 | reads a payload and moves past it, or leaves the error |
| `Abi.RoundTrip` | crates/rbft-utils/src/genesis.rs:314-391 | decoding the arguments by the standard's head and tail rules recovers all of them |
| `Abi.EncodeInitialize` | crates/rbft-utils/src/genesis.rs:314-391 | the encoder writes the selector and the argument encoding |
| `Abi.AppendOffsets` | crates/rbft-utils/src/genesis.rs:369-376 | the running offset writes, for each string, where its tail starts |
| `Abi.AppendStrings` | crates/rbft-utils/src/genesis.rs:379-388 | writes lengths, bytes and padding |
| `Abi.AppendAddresses` | crates/rbft-utils/src/genesis.rs:303-362 | writes one right-aligned word per address |
| `Abi.StringsAreRepresented` | crates/rbft-utils/src/genesis.rs:369-388 | every offset lands on the string it stands for |
| `Abi.PaddedLengthRoundsUp` | crates/rbft-utils/src/genesis.rs:369-388 | the padded length is the least whole number of words |
| `CatchUp.HandleBlockRequest` | crates/rbft-node/src/rbft_consensus.rs:2069-2159 | answers with the blocks from the first asked for, up to a hundred, the best block or the first unreadable one; no answer iff there is no first block |
| `CatchUp.Follower.HandleBlockResponse` | crates/rbft-node/src/rbft_consensus.rs:2163-2262 | the loop refines the function that applies a response, stopping at the first rejected block |
| `CatchUp.GrowsContiguously` | crates/rbft-node/src/rbft_consensus.rs:2192-2259 | for any response the chain only gains consecutive heights, each with a body named for it |
| `CatchUp.SyncIff` | crates/rbft-node/src/rbft_consensus.rs:2248-2252 | the consensus head is at the chain's height iff the last adopted block carries one height; adoption starts round 0 afresh |
| `CatchUp.OneExchange` | crates/rbft-node/src/rbft_consensus.rs:1473-1491 | one exchange gains up to a hundred blocks, unless the node is one behind |
| `CatchUp.CatchUpConverges` | crates/rbft-node/src/rbft_consensus.rs:1473-1491 | a hundredth of the gap, rounded up, of exchanges reach the responder's chain iff one block is not left over |
| `CatchUp.StaysOneShort` | crates/rbft-node/src/rbft_consensus.rs:1473-1491 | a node one block short of the highest it has heard of stays there through any number of exchanges |
| `CatchUp.HeadLeavesChain` | crates/rbft-node/src/rbft_consensus.rs:2192-2259 | any block the engine takes, sent under the next height with another height in its header, takes the consensus head off the chain's height |
| `CatchUp.OneShortExists` | crates/rbft-node/src/rbft_consensus.rs:1473-1491 | there are such a node and responder |
| `Selection.Select` | crates/rbft-node/src/rbft_consensus/on_chain_config.rs:359-413 | keeps all validators, or an order-preserving subsequence of the limit's length at the sorted drawn indices; distinct validators stay distinct |
| `Selection.DrawIndices` | crates/rbft-node/src/rbft_consensus/on_chain_config.rs:375-400 | the remove-and-rehash loop computes the draw, for any hash sequence |
| `Selection.DrawIsPartition` | crates/rbft-node/src/rbft_consensus/on_chain_config.rs:375-387 | chosen and available indices split the original ones |
| `Selection.SortedDraw` | crates/rbft-node/src/rbft_consensus/on_chain_config.rs:399-406 | the sorted draw is strictly increasing and in range |
| `Allocator.Assign` | crates/rbft-megatx/src/main.rs:456-476 | transaction i goes to account i mod k with nonce base + i div k; fails iff there are more transactions than k times the limit |
| `Allocator.LeastLoaded` | crates/rbft-megatx/src/main.rs:464-470 | the first least-loaded account below the limit |
| `Allocator.AccountsSuffice` | crates/rbft-megatx/src/main.rs:701 | the computed number of accounts is enough, and no fewer are |
| `Allocator.LoadsAreEven` | crates/rbft-megatx/src/main.rs:456-476 | loads differ by at most one and keep the limit |
| `Allocator.NoncesHaveNoGaps` | crates/rbft-megatx/src/main.rs:471-475 | each account uses consecutive nonces from its base, each once |

## Left out

- Validator set changes: the set is fixed during a run, as a head's header carries it.
- Restarts, reloads and catch-up inside a run: catch-up is modelled on its own.
- Machine width of rounds, heights and times in the consensus core: unbounded naturals, except where the codec, the quorum of no validators and block requests depend on the width.
- Encodings under signatures: payloads are typed, so the model does not see that some payload types have encodings of one shape.
- keccak, ECDSA and the derived RLP codecs: symbolic, as said above.
- `timeout_for_round`: the length of the round timer is an arbitrary function of the round.
- The order on blocks that sorts received blocks: an arbitrary comparator.
- `state_blockchain_invariant`, which is not part of the node's consistency check.
- The IBFT variant that a constant switches off in `upon_round_change`.
- Diagnostic summaries, logging and metrics, which have no effect on state.
- The execution engine, payload building, express delivery and peer connections: the engine is an accept-or-reject function on bodies, and an accepted body becomes the next block of the chain.
- Reading validators, enodes and settings from contract storage, and pairing enodes with validators.
- Follower nodes outside the validator set in runs: the swarm's honest nodes are validators; a node outside the set only takes new blocks, as `Protocol.NextSubStep` has it.
- Signing, sending and funding in the load generator; only the assignment is modelled.
- logjam, the validator inspector, testnet scripts and deployment.
- CrossRoundAgreement: holds under a condition on fall-through acceptances, because without it the code does not agree across rounds (`Divergence.SafetyFails`).
- HeadsAgree: under the same condition; its part on one round number also assumes that accepted blocks carry the round of their proposal, which the code does not check (`Faults.LabelsCanDiffer`).
- CommitsCertify: assumes that the counted commits come from honest validators, because the leader does not check the seals it collects (`Faults.BadSealStrands`).
