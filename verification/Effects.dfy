/** What one step of a node does to the part of its state the safety argument needs.
    The other modules reason about steps through `Effect` only. */
module Effects {
  import opened Prelude
  import opened Types
  import opened Validators
  import opened Justification
  import opened Store
  import opened Protocol
  import opened Swarm

  datatype Event =
    | Quiet
    | Adopts(newBlock: SignedNewBlock)
    | Proposes(proposal: Proposal)
    | Accepts(proposal: Proposal)
    | Votes(block: Block)
    | Finalises(block: Block, commits: seq<SignedCommit>)
    | Leads(justification: ProposalJustification)
    | Joins(roundChanges: seq<SignedRoundChange>)
    | TimesOut

  /** The state `s'` keeps the identity of `s` and has the given protocol variables. */
  ghost predicate Becomes(
    s: NodeState, s': NodeState, head: Block, proposed: Option<Block>,
    round: nat, accepted: Option<Proposal>, preparedBlock: Option<Block>, preparedRound: Option<nat>)
  {
    && s'.id == s.id
    && s'.config == s.config
    && s'.chain.head == head
    && s'.chain.proposed == proposed
    && s'.round == round
    && s'.accepted == accepted
    && s'.preparedBlock == preparedBlock
    && s'.preparedRound == preparedRound
  }

  /** As `Becomes`, for steps that stay on the same chain and keep what was prepared. */
  ghost predicate Moves(s: NodeState, s': NodeState, round: nat, accepted: Option<Proposal>) {
    Becomes(s, s', s.chain.head, s.chain.proposed, round, accepted, s.preparedBlock, s.preparedRound)
  }

  /** Nothing enters the store but what the node itself just made. */
  ghost predicate StoreFrom(s: NodeState, s': NodeState, ms: seq<Message>) {
    && (Sorted(s.messages) ==> Sorted(s'.messages))
    && forall m :: m in s'.messages ==> m in s.messages || m in ms
  }

  /** A justification for leading `j.round` from the messages the node holds. */
  ghost predicate Justified(s: NodeState, j: ProposalJustification) {
    && Proposer(j.round, s.chain) == s.id
    && RoundAcceptable(s, j.round)
    && (forall rc :: rc in j.roundChanges ==> RoundChangeMessage(rc) in s.messages)
    && (forall p :: p in j.prepares ==> PrepareMessage(p) in s.messages)
    && IsReceivedJustification(j.roundChanges, j.prepares, j.round, j.block, s)
    && ((exists rc :: rc in j.roundChanges && rc.block == Some(j.block)) || s.GetNewBlock(j.round) == Some(j.block))
  }

  /** The messages an event sends. */
  function Output(s: NodeState, e: Event): (ms: seq<Message>) {
    match e
    case Quiet => []
    case Adopts(_) => []
    case Proposes(p) =>
      [ProposalMessage(p), PrepareMessage(SignPrepare(UnsignedPrepare(s.Height(), 0, Digest(p.block)), s.id))]
    case Accepts(p) =>
      [PrepareMessage(SignPrepare(UnsignedPrepare(s.Height(), p.payload.unsigned.round, Digest(p.block)), s.id))]
    case Votes(block) => [CommitMessage(CommitVote(s, block))]
    case Finalises(block, commits) => [NewBlockMessage(SignNewBlock(SealedBlock(block, commits), s.id))]
    case Leads(j) => [ProposalMessage(LeaderProposal(s, j))]
    case Joins(rcs) => [RoundChangeMessage(CreateRoundChange(s, MinRound(rcs)))]
    case TimesOut => [RoundChangeMessage(CreateRoundChange(s, s.round + 1))]
  }

  /** When an event can happen. */
  ghost predicate Enabled(s: NodeState, e: Event) {
    && (!e.Quiet? && !e.Adopts? ==> s.id in s.Validators())
    && match e
       case Quiet => true
       case Adopts(nb) => NewBlockMessage(nb) in s.messages && ValidNewBlock(s.chain, nb)
       case Proposes(p) =>
         && s.round == 0 && s.accepted.None? && s.chain.proposed.Some?
         && Proposer(0, s.chain) == s.id
         && p == RoundZeroProposal(s, ReplaceRound(s.chain.proposed.value, 0))
       case Accepts(p) => ProposalMessage(p) in s.messages && IsValidProposal(p, s)
       case Votes(block) =>
         && s.accepted.Some? && block == s.accepted.value.block
         && |PreparesFor(s.Height(), s.round, Digest(block), s.Visible())| >= s.QuorumSize()
       case Finalises(block, commits) =>
         && s.accepted.Some? && block == s.accepted.value.block && s.IsProposer()
         && commits == CommitsFor(s.Height(), s.round, Digest(block), s.Visible())
         && |CommitSenders(commits)| >= s.QuorumSize()
       case Leads(j) => Justified(s, j)
       case Joins(rcs) =>
         && rcs == FutureRoundChanges(s.Visible(), s.Height(), s.round)
         && |RoundChangeSenders(rcs)| > MaxFaulty(|s.Validators()|)
       case TimesOut => true
  }

  /** The protocol variables after an event. */
  ghost predicate Lands(s: NodeState, s': NodeState, e: Event) {
    match e
    case Quiet => Moves(s, s', s.round, s.accepted)
    case Adopts(nb) => Becomes(s, s', nb.block, None, 0, None, None, None)
    case Proposes(p) => Moves(s, s', 0, Some(p))
    case Accepts(p) => Moves(s, s', p.payload.unsigned.round, Some(p))
    case Votes(block) =>
      Becomes(s, s', s.chain.head, s.chain.proposed, s.round, s.accepted, Some(block), Some(s.round))
    case Finalises(block, commits) => Becomes(s, s', SealedBlock(block, commits), None, 0, None, None, None)
    case Leads(j) => Moves(s, s', j.round, None)
    case Joins(rcs) => Moves(s, s', MinRound(rcs), None)
    case TimesOut => Moves(s, s', s.round + 1, None)
  }

  ghost predicate Effect(s: NodeState, s': NodeState, ms: seq<Message>, e: Event) {
    && Enabled(s, e)
    && Lands(s, s', e)
    && ms == Output(s, e)
    && StoreFrom(s, s', ms)
  }

  /** What becomes of the store, exactly, before the driver puts anything into it. */
  ghost predicate StoreAfter(s: NodeState, s': NodeState, ms: seq<Message>, e: Event) {
    match e
    case Quiet => s'.messages == s.messages && s'.firstFuture == s.firstFuture
    case Proposes(_) => s'.messages == s.messages && s'.firstFuture == s.firstFuture
    case Adopts(_) =>
      var kept := s.messages[BelowHeight(s.messages, s'.Height())..];
      s'.messages == kept && s'.firstFuture == BelowHeight(kept, s'.Height() + 1)
    case _ => |ms| == 1 && s'.messages == Insert(s.messages, ms[0]) && s'.firstFuture == s.firstFuture
  }

  // ---- Each rule has its effect ---------------------------------------------------

  lemma PushStoreFrom(s: NodeState, m: Message)
    ensures StoreFrom(s, s.Push(m), [m])
  {
    if Sorted(s.messages) {
      InsertKeepsSorted(s.messages, m);
    }
  }

  lemma PruneStoreFrom(s: NodeState)
    ensures StoreFrom(s, s.PruneMessages(), [])
  {
    if Sorted(s.messages) {
      SortedSlice(s.messages, BelowHeight(s.messages, s.Height()), |s.messages|);
    }
  }

  lemma NewBlockEffect(s: NodeState) returns (e: Event)
    ensures var o := UponNewBlock(s); Effect(s, o.state, Sent(o), e) && StoreAfter(s, o.state, Sent(o), e)
    ensures UponNewBlock(s).sent.Some? ==> e.Adopts?
  {
    match LastValidNewBlock(s.messages, s.chain)
    case None => e := Quiet;
    case Some(nb) =>
      PruneStoreFrom(AdvanceTo(s, nb.block));
      e := Adopts(nb);
  }

  lemma BlockTimeoutEffect(s: NodeState) returns (e: Event)
    requires s.id in s.Validators() && UponBlockTimeout(s).sent.Some?
    ensures var o := UponBlockTimeout(s); Effect(s, o.state, Sent(o), e) && StoreAfter(s, o.state, Sent(o), e)
    ensures e.Proposes?
  {
    e := Proposes(RoundZeroProposal(s, ReplaceRound(s.chain.proposed.value, 0)));
  }

  lemma ProposalEffect(s: NodeState) returns (e: Event)
    requires s.id in s.Validators() && UponProposal(s).sent.Some?
    ensures var o := UponProposal(s); Effect(s, o.state, Sent(o), e) && StoreAfter(s, o.state, Sent(o), e)
    ensures e.Accepts?
  {
    var p := FirstValidProposal(s.Visible(), s).value;
    var round := p.payload.unsigned.round;
    var prepare := PrepareMessage(SignPrepare(UnsignedPrepare(s.Height(), round, Digest(p.block)), s.id));
    var start := if round > s.round then s.time else s.roundStart;
    PushStoreFrom(s.(accepted := Some(p), roundStart := start, round := round), prepare);
    e := Accepts(p);
  }

  lemma PrepareEffect(s: NodeState) returns (e: Event)
    requires s.id in s.Validators() && UponPrepare(s).sent.Some?
    ensures var o := UponPrepare(s); Effect(s, o.state, Sent(o), e) && StoreAfter(s, o.state, Sent(o), e)
    ensures e.Votes?
  {
    var block := s.accepted.value.block;
    PushStoreFrom(s.(preparedBlock := Some(block), preparedRound := Some(s.round)),
                  CommitMessage(CommitVote(s, block)));
    e := Votes(block);
  }

  lemma CommitEffect(s: NodeState) returns (e: Event)
    requires s.id in s.Validators() && UponCommit(s).sent.Some?
    ensures var o := UponCommit(s); Effect(s, o.state, Sent(o), e) && StoreAfter(s, o.state, Sent(o), e)
    ensures e.Finalises?
  {
    var block := s.accepted.value.block;
    var commits := CommitsFor(s.Height(), s.round, Digest(block), s.Visible());
    var sealed := SealedBlock(block, commits);
    PushStoreFrom(AdvanceTo(s, sealed), NewBlockMessage(SignNewBlock(sealed, s.id)));
    e := Finalises(block, commits);
  }

  lemma JustifyRoundIsJustified(s: NodeState, round: nat)
    requires RoundAcceptable(s, round) && JustifyRound(s, round).Some?
    ensures JustifyRound(s, round).value.round == round
    ensures Justified(s, JustifyRound(s, round).value)
  {
    JustificationIsStored(s, round);
  }

  lemma JustificationIsStored(s: NodeState, round: nat)
    ensures var rcs := ValidRoundChangesIn(s.AtRound(round), round, s.chain);
            && (forall rc :: rc in rcs ==> RoundChangeMessage(rc) in s.messages)
            && (forall p :: p in LeaderPrepares(s, rcs) ==> PrepareMessage(p) in s.messages)
  {
    var rcs := ValidRoundChangesIn(s.AtRound(round), round, s.chain);
    forall p | p in LeaderPrepares(s, rcs) ensures PrepareMessage(p) in s.messages {
      var pr := HighestClaim(rcs).value;
      assert PrepareMessage(p) in s.AtRound(pr);
    }
    forall rc | rc in rcs ensures RoundChangeMessage(rc) in s.messages {
      assert RoundChangeMessage(rc) in s.AtRound(round);
    }
  }

  lemma RoundChangeEffect(s: NodeState) returns (e: Event)
    requires s.id in s.Validators() && UponRoundChange(s).sent.Some?
    ensures var o := UponRoundChange(s); Effect(s, o.state, Sent(o), e) && StoreAfter(s, o.state, Sent(o), e)
    ensures e.Leads? || e.Joins?
  {
    match ReceivedJustification(s)
    case Some(j) =>
      JustifyRoundIsJustified(s, j.round);
      LeadEffect(s, j);
      e := Leads(j);
    case None =>
      var rcs := FutureRoundChanges(s.Visible(), s.Height(), s.round);
      JoinEffect(s, rcs);
      e := Joins(rcs);
  }

  lemma LeadEffect(s: NodeState, j: ProposalJustification)
    requires s.id in s.Validators() && Justified(s, j)
    ensures var o := LeadRound(s, j); Effect(s, o.state, Sent(o), Leads(j)) && StoreAfter(s, o.state, Sent(o), Leads(j))
  {
    LeadLands(s, j);
  }

  lemma LeadLands(s: NodeState, j: ProposalJustification)
    ensures var o := LeadRound(s, j);
            && Lands(s, o.state, Leads(j)) && Sent(o) == Output(s, Leads(j))
            && StoreFrom(s, o.state, Sent(o)) && StoreAfter(s, o.state, Sent(o), Leads(j))
  {
    var start := if j.round > s.round then s.time else s.roundStart;
    PushStoreFrom(s.(roundStart := start, round := j.round, accepted := None), ProposalMessage(LeaderProposal(s, j)));
  }

  lemma JoinEffect(s: NodeState, rcs: seq<SignedRoundChange>)
    requires s.id in s.Validators() && rcs == FutureRoundChanges(s.Visible(), s.Height(), s.round)
    requires |RoundChangeSenders(rcs)| > MaxFaulty(|s.Validators()|)
    ensures var o := JoinRound(s, MinRound(rcs));
            Effect(s, o.state, Sent(o), Joins(rcs)) && StoreAfter(s, o.state, Sent(o), Joins(rcs))
  {
    var round := MinRound(rcs);
    PushStoreFrom(s.(round := round, accepted := None), RoundChangeMessage(CreateRoundChange(s, round)));
  }

  /** Equal but for the timers and progress marker. */
  ghost predicate SameButTimers(s: NodeState, s1: NodeState) {
    s1 == s.(progressPrepares := s1.progressPrepares, progressCommits := s1.progressCommits,
             progressTime := s1.progressTime, roundStart := s1.roundStart)
  }

  lemma DeferTouchesTimersOnly(s: NodeState)
    ensures SameButTimers(s, DeferRoundZero(s).0)
  {
    match RoundZeroProgress(s)
    case None =>
    case Some((prepares, commits)) => WaitTouchesTimersOnly(s, prepares, commits);
  }

  lemma WaitTouchesTimersOnly(s: NodeState, prepares: nat, commits: nat)
    ensures SameButTimers(s, WaitOn(s, prepares, commits).0)
  {
  }

  lemma FireTimeoutEffect(s: NodeState, s1: NodeState)
    requires s.id in s.Validators() && SameButTimers(s, s1)
    ensures var o := FireTimeout(s1); Effect(s, o.state, Sent(o), TimesOut) && StoreAfter(s, o.state, Sent(o), TimesOut)
  {
    TimeoutLands(s, s1, RoundChangeMessage(CreateRoundChange(s1, s1.round + 1)));
    TimeoutOutput(s, s1);
  }

  lemma TimeoutOutput(s: NodeState, s1: NodeState)
    requires SameButTimers(s, s1)
    ensures [RoundChangeMessage(CreateRoundChange(s1, s1.round + 1))] == Output(s, TimesOut)
  {
    TimersDoNotMatter(s, s1, s.round + 1);
  }

  lemma TimersDoNotMatter(s: NodeState, s1: NodeState, round: nat)
    requires SameButTimers(s, s1)
    ensures CreateRoundChange(s1, round) == CreateRoundChange(s, round)
  {
  }

  lemma TimeoutLands(s: NodeState, s1: NodeState, m: Message)
    requires SameButTimers(s, s1)
    ensures var o := Announce(s1, m);
            && Sent(o) == [m] && Lands(s, o.state, TimesOut)
            && StoreFrom(s, o.state, [m]) && StoreAfter(s, o.state, [m], TimesOut)
  {
    PushStoreFrom(s1.(roundStart := s1.time, round := s1.round + 1, accepted := None), m);
  }

  lemma RoundTimeoutEffect(s: NodeState) returns (e: Event)
    requires s.id in s.Validators()
    ensures var o := UponRoundTimeout(s); Effect(s, o.state, Sent(o), e) && StoreAfter(s, o.state, Sent(o), e)
    ensures e == if UponRoundTimeout(s).sent.Some? then TimesOut else Quiet
  {
    e := if UponRoundTimeout(s).sent.Some? then TimesOut else Quiet;
    DeferTouchesTimersOnly(s);
    if e.TimesOut? {
      FireTimeoutEffect(s, if s.round == 0 then DeferRoundZero(s).0 else s);
    }
  }

  /** Every step of a node has an effect, and it is a timeout exactly when the timer fired. */
  lemma SubStepEffect(s: NodeState) returns (e: Event)
    ensures var o := NextSubStep(s); Effect(s, o.state, Sent(o), e) && StoreAfter(s, o.state, Sent(o), e)
    ensures e.TimesOut? <==> TimerFires(s)
  {
    e := NewBlockEffect(s);
    if s.id in s.Validators() && UponNewBlock(s).sent.None? {
      if UponBlockTimeout(s).sent.Some? {
        e := BlockTimeoutEffect(s);
      } else if UponProposal(s).sent.Some? {
        e := ProposalEffect(s);
      } else if UponPrepare(s).sent.Some? {
        e := PrepareEffect(s);
      } else if UponCommit(s).sent.Some? {
        e := CommitEffect(s);
      } else if UponRoundChange(s).sent.Some? {
        e := RoundChangeEffect(s);
      } else {
        e := RoundTimeoutEffect(s);
      }
    }
  }

  /** Pushing a node's own output into its store changes nothing else. */
  lemma {:induction false} PushAllFrame(s: NodeState, ms: seq<Message>)
    ensures PushAll(s, ms) == s.(messages := PushAll(s, ms).messages)
    ensures StoreFrom(s, PushAll(s, ms), ms)
    decreases |ms|
  {
    if ms != [] {
      PushStoreFrom(s, ms[0]);
      PushAllFrame(s.Push(ms[0]), ms[1..]);
      assert forall m :: m in ms <==> m == ms[0] || m in ms[1..];
    }
  }

  lemma BypassEffect(s: NodeState, s': NodeState, ms: seq<Message>, e: Event)
    requires Effect(s, s', ms, e)
    ensures Effect(s, PushAll(s', ms), ms, e)
  {
    PushAllFrame(s', ms);
  }

  // ---- The clock ------------------------------------------------------------------

  lemma RulesKeepTime(s: NodeState)
    ensures UponNewBlock(s).state.time == s.time && UponBlockTimeout(s).state.time == s.time
    ensures UponProposal(s).state.time == s.time && UponPrepare(s).state.time == s.time
    ensures UponCommit(s).state.time == s.time
  {
  }

  lemma RoundRulesKeepTime(s: NodeState)
    ensures UponRoundChange(s).state.time == s.time && UponRoundTimeout(s).state.time == s.time
  {
    DeferTouchesTimersOnly(s);
  }

  /** A step leaves the clock as it was set. */
  lemma StepKeepsTime(s: NodeState)
    ensures NextSubStep(s).state.time == s.time
  {
    RulesKeepTime(s);
    RoundRulesKeepTime(s);
  }
}
