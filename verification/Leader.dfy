/** Leader and verifiers agree: what an honest leader proposes after a round change passes
    every check of every node on the same chain. */
module Leader {
  import opened Prelude
  import opened Types
  import opened Validators
  import opened Justification
  import opened Protocol
  import opened Swarm
  import opened Effects
  import opened Invariant
  import opened Preservation

  // ---- The checks look at the head of the chain only ------------------------------

  lemma ProposerOfHead(round: nat, x: Chain, y: Chain)
    requires x.head == y.head
    ensures Proposer(round, x) == Proposer(round, y)
  {
  }

  lemma SupportersOfHead(rcs: seq<SignedRoundChange>, block: Block, x: Chain, y: Chain, pr: nat)
    requires x.head == y.head
    ensures Supporters(rcs, block, x, pr) == Supporters(rcs, block, y, pr)
  {
    ProposerOfHead(pr, x, y);
  }

  lemma {:induction false} HighestBackedOfHead(
    candidates: seq<SignedRoundChange>, rcs: seq<SignedRoundChange>, block: Block, x: Chain, y: Chain)
    requires x.head == y.head
    ensures HighestBacked(candidates, rcs, block, x) == HighestBacked(candidates, rcs, block, y)
  {
    if candidates != [] {
      HighestBackedOfHead(candidates[1..], rcs, block, x, y);
      if candidates[0].unsigned.preparedRound.Some? {
        SupportersOfHead(rcs, block, x, y, candidates[0].unsigned.preparedRound.value);
      }
    }
  }

  lemma JustificationOfHead(
    rcs: seq<SignedRoundChange>, prepares: seq<SignedPrepare>, available: seq<Block>, round: nat, block: Block,
    x: Chain, y: Chain)
    requires x.head == y.head
    requires IsProposalJustification(rcs, prepares, available, round, block, x)
    ensures IsProposalJustification(rcs, prepares, available, round, block, y)
  {
    ProposerOfHead(round, x, y);
    HighestBackedOfHead(rcs, rcs, block, x, y);
    if round > 0 && HighestBacked(rcs, rcs, block, x).Some? {
      var pr := HighestBacked(rcs, rcs, block, x).value;
      SupportersOfHead(rcs, block, x, y, pr);
      ProposerOfHead(pr, x, y);
      var rc :| rc in rcs && Claims(rc, block, x, pr)
        && forall p :: p in prepares
             ==> ValidSignedPrepare(p, x.Height(), pr, rc.unsigned.preparedValue.value, x.Validators());
      assert rc in rcs && Claims(rc, block, y, pr);
    }
  }

  lemma ChecksOfHead(p: Proposal, x: Chain, y: Chain)
    requires x.head == y.head && ProposalChecks(p, x)
    ensures ProposalChecks(p, y)
  {
    var round := p.payload.unsigned.round;
    ProposerOfHead(round, x, y);
    JustificationOfHead(p.roundChanges, p.prepares, [p.block], round, p.block, x, y);
  }

  // ---- The theorem ----------------------------------------------------------------

  lemma LeaderProposalPassesChecks(s: NodeState, j: ProposalJustification)
    requires Justified(s, j)
    ensures ProposalChecks(LeaderProposal(s, j), s.chain)
  {
    LeaderVerifierAgree(
      Payloads(j.roundChanges), j.prepares, ExtraPrepares(j.roundChanges, s.Height(), j.round),
      ReceivedBlocks(j.roundChanges, s.config.blockLess), j.round, j.block, s.chain);
  }

  lemma GenuineProposalIsAdmissible(c: Committee, signed: set<Signature>, p: Proposal, chain: Chain)
    requires Genuine(c, signed, ProposalMessage(p))
    requires chain.Validators() == c.validators && p.payload.unsigned.height == chain.Height()
    ensures Admissible(ProposalMessage(p), chain)
  {
  }

  /** In every run, a proposal that an honest node sends because of a round change is
      admitted by every node with the same chain head, and taken exactly when that node's
      round allows it. */
  lemma LeaderProposalsAreTaken(
    c: Committee, trace: seq<Swarm>, i: nat, a: Address, time: nat, p: Proposal, t: NodeState)
    requires Run(c, trace) && i < |trace| && a in trace[i].nodes
    requires NodeNext(trace[i].nodes[a], time).sent == Some([ProposalMessage(p)])
    requires t.chain.head == trace[i].nodes[a].chain.head
    ensures Admissible(ProposalMessage(p), t.chain)
    ensures IsValidProposal(p, t) <==> RoundAcceptable(t, p.payload.unsigned.round)
  {
    InvHolds(c, trace, i);
    var w := trace[i];
    var s := w.nodes[a].(time := time);
    ActorOk(c, w, a, s);
    var e := SubStepEffect(s);
    SoleProposalIsLeaders(s, e, p);
    LeaderProposalPassesChecks(s, e.justification);
    ChecksOfHead(p, s.chain, t.chain);
    LeaderProposalIsGenuine(c, w.signed, w.acceptances, s, e.justification);
    GenuineProposalIsAdmissible(c, w.signed + MadeFor(ProposalMessage(p)), p, t.chain);
  }

  lemma SoleProposalIsLeaders(s: NodeState, e: Event, p: Proposal)
    requires Enabled(s, e) && Output(s, e) == [ProposalMessage(p)]
    ensures e.Leads? && p == LeaderProposal(s, e.justification) && Justified(s, e.justification)
  {
    assert Output(s, e)[0] == ProposalMessage(p);
    assert |Output(s, e)| == 1;
  }
}
