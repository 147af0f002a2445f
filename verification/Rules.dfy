/** Which transition fires, from what the store holds. */
module Rules {
  import opened Prelude
  import opened Types
  import opened Validators
  import opened Justification
  import opened Store
  import opened Protocol

  /** A store of one height is all in view. */
  lemma PruneOneHeight(s: NodeState)
    requires forall m :: m in s.messages ==> m.Height() == s.Height()
    ensures s.PruneMessages() == s.(firstFuture := |s.messages|)
    ensures Tidied(s) == s.(firstFuture := |s.messages|, chain := s.chain.Prune())
  {
    var ms := s.messages;
    assert forall i :: 0 <= i < |ms| ==> ms[i] in ms;
    assert BelowHeight(ms, s.Height()) == 0;
    assert ms[0..] == ms;
    assert BelowHeight(ms, s.Height() + 1) == |ms|;
  }

  /** The store is all in view and holds no new block. */
  predicate Plain(s: NodeState) {
    && s.id in s.Validators() && s.Visible() == s.messages
    && forall m :: m in s.messages ==> !m.NewBlockMessage?
  }

  lemma NoNewBlock(s: NodeState)
    requires forall m :: m in s.messages ==> !m.NewBlockMessage?
    ensures UponNewBlock(s) == Outcome(s, None)
  {
  }

  /** No transition fires. */
  lemma Waiting(s: NodeState)
    requires UponNewBlock(s) == Outcome(s, None) && UponBlockTimeout(s) == Outcome(s, None)
    requires UponProposal(s) == Outcome(s, None) && UponPrepare(s) == Outcome(s, None)
    requires UponCommit(s) == Outcome(s, None) && UponRoundChange(s) == Outcome(s, None)
    requires UponRoundTimeout(s) == Outcome(s, None)
    ensures NextSubStep(s) == Outcome(s, None)
  {
  }

  lemma NoProposal(s: NodeState)
    requires Plain(s) && s.accepted.Some?
    requires forall m :: m in s.messages ==> m.Round() <= s.round || !m.ProposalMessage?
    ensures UponProposal(s) == Outcome(s, None)
  {
    assert forall q :: ProposalMessage(q) in s.messages ==> ProposalMessage(q).Round() == q.payload.unsigned.round;
  }

  lemma Accepting(s: NodeState, p: Proposal)
    requires Plain(s) && s.accepted.None? && (s.round > 0 || Proposer(0, s.chain) != s.id)
    requires ProposalMessage(p) in s.messages && ProposalChecks(p, s.chain) && p.payload.unsigned.round == s.round
    requires forall m :: m in s.messages && m.ProposalMessage? && m.Round() == s.round ==> m == ProposalMessage(p)
    ensures NextSubStep(s) == AcceptProposal(s, p)
  {
    NoNewBlock(s);
    assert IsValidProposal(p, s);
    var r := FirstValidProposal(s.Visible(), s);
    assert ProposalMessage(r.value).Round() == s.round;
  }

  /** The outcome of voting for the accepted block. */
  function Committing(s: NodeState, block: Block): (o: Outcome) {
    var commit := CommitMessage(CommitVote(s, block));
    Outcome(s.(preparedBlock := Some(block), preparedRound := Some(s.round)).Push(commit), Some([commit]))
  }

  lemma Prepared(s: NodeState)
    requires Plain(s) && s.accepted.Some?
    requires |PreparesFor(s.Height(), s.round, Digest(s.accepted.value.block), s.messages)| >= s.QuorumSize()
    requires forall m :: m in s.messages && m.CommitMessage? && m.Round() == s.round ==> m.Author() != s.id
    ensures UponPrepare(s) == Committing(s, s.accepted.value.block)
  {
  }

  lemma Voting(s: NodeState)
    requires Plain(s) && s.accepted.Some?
    requires forall m :: m in s.messages ==> m.Round() <= s.round || !m.ProposalMessage?
    requires |PreparesFor(s.Height(), s.round, Digest(s.accepted.value.block), s.messages)| >= s.QuorumSize()
    requires forall m :: m in s.messages && m.CommitMessage? && m.Round() == s.round ==> m.Author() != s.id
    ensures NextSubStep(s) == Committing(s, s.accepted.value.block)
  {
    NoNewBlock(s);
    NoProposal(s);
    Prepared(s);
  }

  lemma AlreadyVoted(s: NodeState, m: Message)
    requires Plain(s) && m in s.messages && m.CommitMessage?
    requires m.Height() == s.Height() && m.Round() == s.round && m.Author() == s.id
    ensures UponPrepare(s) == Outcome(s, None)
  {
    assert m in s.Visible();
    assert HasSentCommit(s);
  }

  lemma Finalising(s: NodeState, m: Message)
    requires Plain(s) && s.accepted.Some? && s.IsProposer()
    requires forall m :: m in s.messages ==> m.Round() <= s.round || !m.ProposalMessage?
    requires m in s.messages && m.CommitMessage?
    requires m.Height() == s.Height() && m.Round() == s.round && m.Author() == s.id
    requires |CommitSenders(CommitsFor(s.Height(), s.round, Digest(s.accepted.value.block), s.messages))|
             >= s.QuorumSize()
    ensures NextSubStep(s) == Finalised(s, s.accepted.value.block)
  {
    NoNewBlock(s);
    NoProposal(s);
    AlreadyVoted(s, m);
  }

  /** The outcome of sealing the accepted block with the commits in the store. */
  function Finalised(s: NodeState, block: Block): (o: Outcome) {
    var sealed := SealedBlock(block, CommitsFor(s.Height(), s.round, Digest(block), s.messages));
    var message := NewBlockMessage(SignNewBlock(sealed, s.id));
    Outcome(AdvanceTo(s, sealed).Push(message), Some([message]))
  }

  /** The accepted proposal cannot be finalised yet. */
  predicate Unfinished(s: NodeState) {
    s.accepted.Some? && s.IsProposer() ==>
      |CommitSenders(CommitsFor(s.Height(), s.round, Digest(s.accepted.value.block), s.messages))| < s.QuorumSize()
  }

  /** Later messages are round changes to one round. */
  predicate OnlyChangesTo(s: NodeState, round: nat) {
    forall m :: m in s.messages && m.Round() > s.round ==> m.RoundChangeMessage? && m.Round() == round
  }

  lemma Joining(s: NodeState, own: Message, round: nat)
    requires Plain(s) && s.accepted.Some? && Unfinished(s) && OnlyChangesTo(s, round)
    requires own in s.messages && own.CommitMessage?
    requires own.Height() == s.Height() && own.Round() == s.round && own.Author() == s.id
    requires JustifyRound(s, round).None?
    requires |RoundChangeSenders(FutureRoundChanges(s.messages, s.Height(), s.round))| > MaxFaulty(|s.Validators()|)
    ensures NextSubStep(s) == JoinRound(s, round)
  {
    NoNewBlock(s);
    NoProposal(s);
    AlreadyVoted(s, own);
    Following(s, round);
    assert UponBlockTimeout(s) == Outcome(s, None) && UponCommit(s) == Outcome(s, None);
    ChangingRound(s, JoinRound(s, round));
  }

  /** The round-change rule fires when those before it do not. */
  lemma ChangingRound(s: NodeState, o: Outcome)
    requires s.id in s.Validators() && UponNewBlock(s) == Outcome(s, None) && UponBlockTimeout(s) == Outcome(s, None)
    requires UponProposal(s) == Outcome(s, None) && UponPrepare(s) == Outcome(s, None)
    requires UponCommit(s) == Outcome(s, None) && UponRoundChange(s) == o && o.sent.Some?
    ensures NextSubStep(s) == o
  {
  }

  lemma Following(s: NodeState, round: nat)
    requires Plain(s) && s.accepted.Some? && OnlyChangesTo(s, round) && JustifyRound(s, round).None?
    requires |RoundChangeSenders(FutureRoundChanges(s.messages, s.Height(), s.round))| > MaxFaulty(|s.Validators()|)
    ensures UponRoundChange(s) == JoinRound(s, round)
  {
    NothingJustified(s, round);
    FutureIsRound(s, round);
    LeastRound(FutureRoundChanges(s.messages, s.Height(), s.round), round);
  }

  lemma FutureIsRound(s: NodeState, round: nat)
    requires OnlyChangesTo(s, round)
    ensures forall rc :: rc in FutureRoundChanges(s.messages, s.Height(), s.round) ==> rc.unsigned.round == round
  {
    forall rc | rc in FutureRoundChanges(s.messages, s.Height(), s.round) ensures rc.unsigned.round == round {
      var m :| m in s.messages && m.RoundChangeMessage? && m.roundChange.payload == rc;
      assert m.Round() > s.round;
    }
  }

  lemma LeastRound(rcs: seq<SignedRoundChange>, round: nat)
    requires RoundChangeSenders(rcs) != {} && forall rc :: rc in rcs ==> rc.unsigned.round == round
    ensures MinRound(rcs) == round
  {
    var a :| a in RoundChangeSenders(rcs);
    assert exists rc :: rc in rcs && rc.signature.author == a;
  }

  lemma NothingJustified(s: NodeState, round: nat)
    requires Plain(s) && s.accepted.Some? && JustifyRound(s, round).None?
    requires OnlyChangesTo(s, round)
    ensures ReceivedJustification(s).None?
  {
  }

  lemma Leading(s: NodeState, j: ProposalJustification, m: Message)
    requires Plain(s) && s.accepted.None? && s.round > 0
    requires forall m :: m in s.messages && m.ProposalMessage? ==> m.Round() != s.round
    requires m in s.messages && m.Round() == s.round && JustifyRound(s, s.round) == Some(j)
    ensures NextSubStep(s) == LeadRound(s, j)
  {
    NoNewBlock(s);
    NoProposalNow(s);
    LeadsOwnRound(s, j, m);
    assert UponBlockTimeout(s) == Outcome(s, None);
    assert UponPrepare(s) == Outcome(s, None) && UponCommit(s) == Outcome(s, None);
    ChangingRound(s, LeadRound(s, j));
  }

  lemma LeadsOwnRound(s: NodeState, j: ProposalJustification, m: Message)
    requires Plain(s) && s.accepted.None? && m in s.messages && m.Round() == s.round
    requires JustifyRound(s, s.round) == Some(j)
    ensures UponRoundChange(s) == LeadRound(s, j)
  {
    OnlyOwnRound(s, m);
  }

  /** With no received block justified, a leader justifies its own. */
  lemma PicksOwnBlock(s: NodeState, round: nat, rcs: seq<RoundChange>, prepares: seq<SignedPrepare>, block: Block)
    requires Proposer(round, s.chain) == s.id && s.GetNewBlock(round) == Some(block)
    requires rcs == ValidRoundChangesIn(s.AtRound(round), round, s.chain) && prepares == LeaderPrepares(s, rcs)
    requires FirstJustifiedBlock(ReceivedBlocks(rcs, s.config.blockLess), rcs, prepares, round, s).None?
    requires IsReceivedJustification(rcs, prepares, round, block, s)
    ensures JustifyRound(s, round) == Some(ProposalJustification(round, rcs, prepares, block))
  {
  }

  lemma NoProposalNow(s: NodeState)
    requires Plain(s) && s.accepted.None?
    requires forall m :: m in s.messages && m.ProposalMessage? ==> m.Round() != s.round
    ensures UponProposal(s) == Outcome(s, None)
  {
    assert forall q :: ProposalMessage(q) in s.messages ==> ProposalMessage(q).Round() == q.payload.unsigned.round;
  }

  lemma OnlyOwnRound(s: NodeState, m: Message)
    requires Plain(s) && s.accepted.None? && m in s.messages && m.Round() == s.round
    ensures ReceivedJustification(s) == JustifyRound(s, s.round)
  {
    var rounds := Dedup(CandidateRounds(s.Visible(), s));
    assert s.round in rounds;
    var r := FirstJustifiedRound(s, rounds);
  }

  lemma TimingOut(s: NodeState)
    requires Plain(s) && s.messages == [] && s.accepted.None? && s.round == 0 && Proposer(0, s.chain) != s.id
    requires (s.config.roundChangeOnFirstBlock || s.Height() != 1) && s.time >= s.NextRoundTimeout()
    ensures NextSubStep(s) == FireTimeout(s)
  {
    assert CandidateRounds([], s) == [];
    assert RoundChangeSenders([]) == {};
  }

  /** A node that has voted, does not lead its round and knows of no later one is left to
      its timer. */
  lemma OnlyTimer(s: NodeState, own: Message)
    requires Plain(s) && s.accepted.Some? && !s.IsProposer() && forall m :: m in s.messages ==> m.Round() <= s.round
    requires own in s.messages && own.CommitMessage?
    requires own.Height() == s.Height() && own.Round() == s.round && own.Author() == s.id
    ensures NextSubStep(s) == UponRoundTimeout(s)
  {
    NoNewBlock(s);
    NoProposal(s);
    AlreadyVoted(s, own);
    NothingLater(s);
    assert UponBlockTimeout(s) == Outcome(s, None) && UponCommit(s) == Outcome(s, None);
    Expiring(s);
  }

  lemma NothingLater(s: NodeState)
    requires Plain(s) && s.accepted.Some? && forall m :: m in s.messages ==> m.Round() <= s.round
    ensures UponRoundChange(s) == Outcome(s, None)
  {
    NoCandidates(s);
    var rcs := FutureRoundChanges(s.messages, s.Height(), s.round);
    NonEmptyHasElement(rcs);
    assert RoundChangeSenders(rcs) == {};
  }

  lemma NoCandidates(s: NodeState)
    requires Plain(s) && s.accepted.Some? && forall m :: m in s.messages ==> m.Round() <= s.round
    ensures ReceivedJustification(s).None?
  {
    NonEmptyHasElement(CandidateRounds(s.Visible(), s));
    assert CandidateRounds(s.Visible(), s) == [];
  }

  /** The timer's rule comes last. */
  lemma Expiring(s: NodeState)
    requires s.id in s.Validators() && UponNewBlock(s) == Outcome(s, None) && UponBlockTimeout(s) == Outcome(s, None)
    requires UponProposal(s) == Outcome(s, None) && UponPrepare(s) == Outcome(s, None)
    requires UponCommit(s) == Outcome(s, None) && UponRoundChange(s) == Outcome(s, None)
    ensures NextSubStep(s) == UponRoundTimeout(s)
  {
  }

  /** Senders that the marker has do not put a round change off for longer than the grace
      period. */
  lemma GivingUp(s: NodeState, prepares: nat, commits: nat)
    requires RoundZeroProgress(s) == Some((prepares, commits))
    requires prepares <= s.progressPrepares && commits <= s.progressCommits
    requires s.time >= s.progressTime + Max(s.config.blockTime, 1)
    ensures DeferRoundZero(s) == (s, false)
  {
  }

  /** After a deferral the marker has all senders counted so far. */
  lemma MarkerCatchesUp(s: NodeState, prepares: nat, commits: nat)
    requires RoundZeroProgress(s) == Some((prepares, commits)) && DeferRoundZero(s).1
    ensures var t := DeferRoundZero(s).0; prepares <= t.progressPrepares && commits <= t.progressCommits
  {
  }
}
