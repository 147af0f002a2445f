/** Every step of the swarm keeps the invariant. */
module Preservation {
  import opened Prelude
  import opened Types
  import opened Validators
  import opened Justification
  import opened Store
  import opened Protocol
  import opened Swarm
  import opened Effects
  import opened Invariant

  // ---- From stored messages to votes ----------------------------------------------

  /** In a sorted store each prepare of one height and round has its own author, so
      counting messages counts validators. */
  lemma {:induction false} PreparesHaveDistinctSenders(h: nat, r: nat, d: Hash, ms: seq<Message>)
    requires Sorted(ms)
    ensures |PrepareSenders(PreparesFor(h, r, d, ms))| == |PreparesFor(h, r, d, ms)|
  {
    if ms != [] {
      SortedSlice(ms, 1, |ms|);
      PreparesHaveDistinctSenders(h, r, d, ms[1..]);
      var rest := PreparesFor(h, r, d, ms[1..]);
      var all := PreparesFor(h, r, d, ms);
      if all != rest {
        var p := ms[0].prepare;
        assert all == [p] + rest;
        assert PrepareSenders(all) == {p.signature.author} + PrepareSenders(rest);
        forall q | q in rest ensures q.signature.author != p.signature.author {
          var j :| 0 <= j < |ms[1..]| && ms[1..][j] == PrepareMessage(q);
          assert ms[0].SortKey().Less(ms[j + 1].SortKey());
        }
      }
    }
  }

  lemma PreparesAreVotes(c: Committee, signed: set<Signature>, ps: seq<SignedPrepare>, h: nat, r: nat, d: Hash)
    requires forall p :: p in ps ==> p.unsigned == UnsignedPrepare(h, r, d) && p.signature.author in c.validators
    requires VerifiedPrepares(ps) && PreparesUnforged(c, signed, ps)
    ensures PrepareSenders(ps) <= PrepareVoters(c, signed, h, r, d)
    ensures |PrepareSenders(ps)| >= c.QuorumSize() ==> PrepareQuorum(c, signed, h, r, d)
  {
    forall a | a in PrepareSenders(ps) ensures a in PrepareVoters(c, signed, h, r, d) {
      var p :| p in ps && p.signature.author == a;
      assert p.signature == PrepareSig(a, h, r, d);
    }
    SubsetCardinality(PrepareSenders(ps), PrepareVoters(c, signed, h, r, d));
  }

  /** A node that counts a quorum of prepares has a prepare quorum. */
  lemma CountedPreparesAreQuorum(
    c: Committee, signed: set<Signature>, accs: set<Acceptance>, s: NodeState, h: nat, r: nat, d: Hash)
    requires NodeOk(c, signed, accs, s)
    requires |PreparesFor(h, r, d, s.Visible())| >= c.QuorumSize()
    ensures PrepareQuorum(c, signed, h, r, d)
  {
    var ps := PreparesFor(h, r, d, s.Visible());
    SortedSlice(s.messages, 0, |s.Visible()|);
    PreparesHaveDistinctSenders(h, r, d, s.Visible());
    forall p | p in ps ensures Genuine(c, signed, PrepareMessage(p)) {
      assert PrepareMessage(p) in s.messages;
    }
    PreparesAreVotes(c, signed, ps, h, r, d);
  }

  /** Commits counted in a store are votes. */
  lemma CountedCommitsAreVotes(c: Committee, w: Swarm, s: NodeState, h: nat, r: nat, d: Hash)
    requires Inv(c, w) && NodeOk(c, w.signed, w.acceptances, s)
    ensures CommitSenders(CommitsFor(h, r, d, s.Visible())) <= CommitVoters(c, w.signed, h, r, d)
  {
    var cs := CommitsFor(h, r, d, s.Visible());
    forall a | a in CommitSenders(cs) ensures a in CommitVoters(c, w.signed, h, r, d) {
      var v :| v in cs && v.signature.author == a;
      CountedCommitIsVote(c, w, s, v);
    }
  }

  lemma CountedCommitIsVote(c: Committee, w: Swarm, s: NodeState, v: SignedCommit)
    requires Inv(c, w) && NodeOk(c, w.signed, w.acceptances, s) && CommitMessage(v) in s.messages
    ensures v.signature.author in CommitVoters(c, w.signed, v.unsigned.height, v.unsigned.round, v.unsigned.digest)
  {
    assert Genuine(c, w.signed, CommitMessage(v));
    if v.signature.author in c.honest {
      assert v.signature in w.signed;
      assert SigOk(c, w.signed, w.acceptances, w.nodes[v.signature.author], v.signature);
    }
  }

  /** A block committed by a quorum is sealed by a quorum. */
  lemma CommitQuorumIsSealed(c: Committee, w: Swarm, h: nat, r: nat, block: Block, sealed: Block)
    requires Inv(c, w)
    requires CommitQuorum(c, w.signed, h, r, Digest(block))
    requires SealHash(sealed) == SealHash(block)
    ensures Sealed(c, w.signed, sealed)
  {
    var d := Digest(block);
    forall a | a in CommitVoters(c, w.signed, h, r, d) ensures a in Sealers(c, w.signed, sealed) {
      if a in c.honest {
        assert SigOk(c, w.signed, w.acceptances, w.nodes[a], CommitSig(a, h, r, d));
        assert SealSig(a, d) == Signature(a, OfHash(SealHash(sealed)));
      }
    }
    SubsetCardinality(CommitVoters(c, w.signed, h, r, d), Sealers(c, w.signed, sealed));
  }

  /** A new block that passes the check is sealed by a quorum. */
  lemma ValidNewBlockIsSealed(c: Committee, signed: set<Signature>, chain: Chain, nb: SignedNewBlock)
    requires c.Valid() && chain.Validators() == c.validators
    requires Genuine(c, signed, NewBlockMessage(nb)) && ValidNewBlock(chain, nb)
    ensures Sealed(c, signed, nb.block)
  {
    forall a | a in SealAuthors(nb.block) ensures a in Sealers(c, signed, nb.block) {
      var seal :| seal in nb.block.header.commitSeals && seal.author == a;
      assert seal == Signature(a, OfHash(SealHash(nb.block)));
      assert SealUnforged(c, signed, seal);
    }
    SubsetCardinality(SealAuthors(nb.block), Sealers(c, signed, nb.block));
  }

  // ---- What a step signs and sends ------------------------------------------------

  lemma MadeForShort(ms: seq<Message>)
    requires |ms| <= 2
    ensures MadeForAll(ms) ==
            if ms == [] then {} else if |ms| == 1 then MadeFor(ms[0]) else MadeFor(ms[0]) + MadeFor(ms[1])
  {
    if |ms| == 1 {
      assert MadeForAll(ms[1..]) == {};
    } else if |ms| == 2 {
      assert MadeForAll(ms[1..][1..]) == {};
      assert MadeForAll(ms[1..]) == MadeFor(ms[1]);
    }
  }

  /** The signatures an event makes. */
  function MadeBy(s: NodeState, e: Event): (r: set<Signature>) {
    var id, h := s.id, s.Height();
    match e
    case Quiet => {}
    case Adopts(_) => {}
    case Proposes(p) => {p.payload.signature, PrepareSig(id, h, 0, Digest(p.block))}
    case Accepts(p) => {PrepareSig(id, h, p.payload.unsigned.round, Digest(p.block))}
    case Votes(block) => {CommitSig(id, h, s.round, Digest(block)), SealSig(id, Digest(block))}
    case Finalises(block, commits) => {SignNewBlock(SealedBlock(block, commits), id).signature}
    case Leads(j) => {LeaderProposal(s, j).payload.signature}
    case Joins(rcs) => {CreateRoundChange(s, MinRound(rcs)).payload.signature}
    case TimesOut => {CreateRoundChange(s, s.round + 1).payload.signature}
  }

  lemma MadeForOutput(s: NodeState, e: Event)
    ensures MadeForAll(Output(s, e)) == MadeBy(s, e)
  {
    MadeForShort(Output(s, e));
  }

  lemma MadeBySelf(s: NodeState, e: Event, sig: Signature)
    requires Enabled(s, e) && sig in MadeBy(s, e)
    ensures sig.author == s.id
  {
  }

  lemma RoundChangeIsGenuine(c: Committee, signed: set<Signature>, accs: set<Acceptance>, s: NodeState, round: nat)
    requires NodeOk(c, signed, accs, s) && s.id in c.validators
    ensures var m := RoundChangeMessage(CreateRoundChange(s, round)); Genuine(c, signed + MadeFor(m), m)
  {
    var m := RoundChangeMessage(CreateRoundChange(s, round));
    var signed' := signed + MadeFor(m);
    forall p | p in m.roundChange.prepares
      ensures p.signature.Verifies(OfPrepare(p.unsigned)) && Unforged(c, signed', p.signature, OfPrepare(p.unsigned))
    {
      assert PrepareMessage(p) in s.messages;
      assert Genuine(c, signed, PrepareMessage(p));
    }
  }

  lemma JustifiedBlockHasDigest(
    c: Committee, signed: set<Signature>, accs: set<Acceptance>, s: NodeState, j: ProposalJustification)
    requires NodeOk(c, signed, accs, s) && Justified(s, j)
    ensures j.block.ValidDigest()
  {
    if rc :| rc in j.roundChanges && rc.block == Some(j.block) {
      assert Genuine(c, signed, RoundChangeMessage(rc));
    }
  }

  lemma LeaderProposalIsGenuine(
    c: Committee, signed: set<Signature>, accs: set<Acceptance>, s: NodeState, j: ProposalJustification)
    requires NodeOk(c, signed, accs, s) && s.id in c.validators
    requires Justified(s, j)
    ensures var m := ProposalMessage(LeaderProposal(s, j)); Genuine(c, signed + MadeFor(m), m)
  {
    var m := ProposalMessage(LeaderProposal(s, j));
    var signed' := signed + MadeFor(m);
    JustifiedBlockHasDigest(c, signed, accs, s, j);
    StoredPreparesAreGenuine(c, signed, signed', s.messages, j.prepares);
    StoredChangesAreGenuine(c, signed, signed', s.messages, j.roundChanges);
  }

  lemma StoredPreparesAreGenuine(
    c: Committee, signed: set<Signature>, signed': set<Signature>, ms: seq<Message>, ps: seq<SignedPrepare>)
    requires StoreOk(c, signed, ms) && signed <= signed' && forall p :: p in ps ==> PrepareMessage(p) in ms
    ensures VerifiedPrepares(ps) && PreparesUnforged(c, signed', ps)
  {
    forall p | p in ps
      ensures p.signature.Verifies(OfPrepare(p.unsigned)) && Unforged(c, signed', p.signature, OfPrepare(p.unsigned))
    {
      assert Genuine(c, signed, PrepareMessage(p));
    }
  }

  lemma StoredChangesAreGenuine(
    c: Committee, signed: set<Signature>, signed': set<Signature>, ms: seq<Message>, rcs: seq<RoundChange>)
    requires StoreOk(c, signed, ms) && signed <= signed' && forall rc :: rc in rcs ==> RoundChangeMessage(rc) in ms
    ensures VerifiedRoundChanges(Payloads(rcs)) && RoundChangesUnforged(c, signed', Payloads(rcs))
  {
    forall rc | rc in Payloads(rcs)
      ensures rc.signature.Verifies(OfRoundChange(rc.unsigned))
      ensures Unforged(c, signed', rc.signature, OfRoundChange(rc.unsigned))
    {
      var full :| full in rcs && full.payload == rc;
      assert Genuine(c, signed, RoundChangeMessage(full));
    }
  }

  lemma NewBlockIsGenuine(
    c: Committee, signed: set<Signature>, accs: set<Acceptance>, s: NodeState, block: Block, commits: seq<SignedCommit>)
    requires NodeOk(c, signed, accs, s) && s.id in c.validators && block.ValidDigest()
    requires forall v :: v in commits ==> CommitMessage(v) in s.messages
    ensures var m := NewBlockMessage(SignNewBlock(SealedBlock(block, commits), s.id));
            Genuine(c, signed + MadeFor(m), m)
  {
    var m := NewBlockMessage(SignNewBlock(SealedBlock(block, commits), s.id));
    forall seal | seal in m.newBlock.block.header.commitSeals ensures SealUnforged(c, signed + MadeFor(m), seal) {
      var v :| v in commits && v.unsigned.commitSeal == seal;
      assert Genuine(c, signed, CommitMessage(v));
    }
  }

  /** Whatever an honest node sends is genuine. */
  lemma RoundZeroProposalIsGenuine(
    c: Committee, signed: set<Signature>, accs: set<Acceptance>, s: NodeState, e: Event)
    requires NodeOk(c, signed, accs, s) && Enabled(s, e) && e.Proposes?
    ensures forall m :: m in Output(s, e) ==> Genuine(c, signed + MadeForAll(Output(s, e)), m)
  {
    MadeForShort(Output(s, e));
  }

  lemma VoteIsGenuine(c: Committee, signed: set<Signature>, accs: set<Acceptance>, s: NodeState, e: Event)
    requires NodeOk(c, signed, accs, s) && Enabled(s, e) && (e.Accepts? || e.Votes?)
    ensures forall m :: m in Output(s, e) ==> Genuine(c, signed + MadeForAll(Output(s, e)), m)
  {
    MadeForShort(Output(s, e));
  }

  lemma SentIsGenuine(c: Committee, signed: set<Signature>, accs: set<Acceptance>, s: NodeState, e: Event)
    requires NodeOk(c, signed, accs, s)
    requires Enabled(s, e)
    ensures forall m :: m in Output(s, e) ==> Genuine(c, signed + MadeForAll(Output(s, e)), m)
  {
    MadeForShort(Output(s, e));
    match e
    case Quiet =>
    case Adopts(_) =>
    case Proposes(p) => RoundZeroProposalIsGenuine(c, signed, accs, s, e);
    case Accepts(p) => VoteIsGenuine(c, signed, accs, s, e);
    case Votes(ps) => VoteIsGenuine(c, signed, accs, s, e);
    case Finalises(block, commits) => NewBlockIsGenuine(c, signed, accs, s, block, commits);
    case Leads(j) => LeaderProposalIsGenuine(c, signed, accs, s, j);
    case Joins(rcs) => RoundChangeIsGenuine(c, signed, accs, s, MinRound(rcs));
    case TimesOut => RoundChangeIsGenuine(c, signed, accs, s, s.round + 1);
  }

  // ---- The acting node ------------------------------------------------------------

  /** A proposal that passes the checks is for a block of the chain's height. */
  lemma CheckedProposalHasHeight(p: Proposal, chain: Chain)
    requires ProposalChecks(p, chain)
    ensures p.block.header.height == chain.Height()
  {
  }

  lemma AcceptanceIsOk(
    c: Committee, signed: set<Signature>, accs: set<Acceptance>, s: NodeState, s': NodeState, e: Event)
    requires NodeOk(c, signed, accs, s) && s.id in c.honest
    requires Enabled(s, e) && Lands(s, s', e)
    ensures forall x :: x in NewAcceptances(s.id, s, s') ==> AcceptanceOk(c, signed, x)
  {
    if e.Accepts? {
      CheckedProposalHasHeight(e.proposal, s.chain);
      assert ProposalMessage(e.proposal) in s.messages;
    }
  }

  lemma NewAcceptanceLogged(
    c: Committee, signed: set<Signature>, accs: set<Acceptance>, s: NodeState, s': NodeState, e: Event)
    requires NodeOk(c, signed, accs, s)
    requires Enabled(s, e) && Lands(s, s', e)
    requires e.Proposes? || e.Accepts?
    ensures s'.round == e.proposal.payload.unsigned.round
    ensures Logged(accs + NewAcceptances(s.id, s, s'), s.id, s.Height(), s'.round, Digest(e.proposal.block))
  {
    assert s'.accepted != s.accepted;
    assert Acceptance(s.id, s.chain, e.proposal) in accs + NewAcceptances(s.id, s, s');
  }

  lemma JoinedRoundIsLater(s: NodeState, rcs: seq<SignedRoundChange>)
    requires rcs == FutureRoundChanges(s.Visible(), s.Height(), s.round)
    requires |RoundChangeSenders(rcs)| > MaxFaulty(|s.Validators()|)
    ensures MinRound(rcs) > s.round
  {
    assert rcs != [] by {
      assert RoundChangeSenders([]) == {};
    }
    var rc :| rc in rcs && rc.unsigned.round == MinRound(rcs);
  }

  lemma StoreOkStep(
    c: Committee, signed: set<Signature>, accs: set<Acceptance>, s: NodeState, s': NodeState,
    ms: seq<Message>, e: Event)
    requires NodeOk(c, signed, accs, s)
    requires Effect(s, s', ms, e)
    ensures StoreOk(c, signed + MadeForAll(ms), s'.messages)
  {
    SentIsGenuine(c, signed, accs, s, e);
    forall m | m in s'.messages ensures Genuine(c, signed + MadeForAll(ms), m) {
      if m in s.messages {
        GenuineMonotone(c, signed, signed + MadeForAll(ms), m);
      }
    }
  }

  lemma NodeOkStep(
    c: Committee, signed: set<Signature>, accs: set<Acceptance>, s: NodeState, s': NodeState,
    ms: seq<Message>, e: Event)
    requires c.Valid()
    requires NodeOk(c, signed, accs, s)
    requires Effect(s, s', ms, e)
    requires s'.Validators() == c.validators
    ensures NodeOk(c, signed + MadeForAll(ms), accs + NewAcceptances(s.id, s, s'), s')
  {
    var signed', accs' := signed + MadeForAll(ms), accs + NewAcceptances(s.id, s, s');
    NodeOkMonotone(c, signed, signed', accs, accs, s);
    StoreOkStep(c, signed, accs, s, s', ms, e);
    MadeForOutput(s, e);
    VariablesOkStep(c, signed', accs, s, s', e);
  }

  lemma VariablesOkStep(
    c: Committee, signed: set<Signature>, accs: set<Acceptance>, s: NodeState, s': NodeState, e: Event)
    requires c.Valid()
    requires NodeOk(c, signed, accs, s) && MadeBy(s, e) <= signed
    requires Enabled(s, e) && Lands(s, s', e)
    ensures VariablesOk(c, signed, accs + NewAcceptances(s.id, s, s'), s')
  {
    var accs' := accs + NewAcceptances(s.id, s, s');
    match e
    case Proposes(p) =>
      NewAcceptanceLogged(c, signed, accs, s, s', e);
      AcceptingKeepsVariables(c, signed, accs, accs', s, s', p);
    case Accepts(p) =>
      NewAcceptanceLogged(c, signed, accs, s, s', e);
      CheckedProposalHasHeight(p, s.chain);
      assert Genuine(c, signed, ProposalMessage(p));
      AcceptingKeepsVariables(c, signed, accs, accs', s, s', p);
    case Votes(block) =>
      CountedPreparesAreQuorum(c, signed, accs, s, s.Height(), s.round, Digest(block));
    case Leads(j) => LeavingKeepsVariables(c, signed, accs, accs', s, s', j.round);
    case Joins(rcs) =>
      JoinedRoundIsLater(s, rcs);
      LeavingKeepsVariables(c, signed, accs, accs', s, s', MinRound(rcs));
    case TimesOut => LeavingKeepsVariables(c, signed, accs, accs', s, s', s.round + 1);
    case _ =>
  }

  lemma AcceptingKeepsVariables(
    c: Committee, signed: set<Signature>, accs: set<Acceptance>, accs': set<Acceptance>,
    s: NodeState, s': NodeState, p: Proposal)
    requires VariablesOk(c, signed, accs, s)
    requires Moves(s, s', p.payload.unsigned.round, Some(p)) && RoundAcceptable(s, p.payload.unsigned.round)
    requires p.block.header.height == s.Height() && p.block.ValidDigest()
    requires Logged(accs', s.id, s.Height(), s'.round, Digest(p.block))
    ensures VariablesOk(c, signed, accs', s')
  {
  }

  lemma LeavingKeepsVariables(
    c: Committee, signed: set<Signature>, accs: set<Acceptance>, accs': set<Acceptance>,
    s: NodeState, s': NodeState, round: nat)
    requires VariablesOk(c, signed, accs, s)
    requires Moves(s, s', round, None)
    requires round > s.round || (round == s.round && s.accepted.None?)
    ensures VariablesOk(c, signed, accs', s')
  {
  }

  /** Heights and rounds only go forward, and the accepted proposal stays for as long as
      the round does. */
  lemma StepGoesForward(
    c: Committee, signed: set<Signature>, accs: set<Acceptance>, s: NodeState, s': NodeState, e: Event)
    requires NodeOk(c, signed, accs, s)
    requires Enabled(s, e) && Lands(s, s', e)
    ensures Reached(s', s.Height(), s.round)
    ensures Current(s', s.Height(), s.round) && s.accepted.Some? ==> s'.accepted == s.accepted
    ensures s'.Height() == s.Height() ==>
              || (s'.preparedRound == s.preparedRound && s'.preparedBlock == s.preparedBlock)
              || (e.Votes? && s'.preparedRound == Some(s.round) && s'.preparedBlock == Some(s.accepted.value.block))
  {
    if e.Joins? {
      JoinedRoundIsLater(s, e.roundChanges);
    }
  }

  lemma OldSigOk(
    c: Committee, signed: set<Signature>, accs: set<Acceptance>, s: NodeState, s': NodeState, e: Event, sig: Signature)
    requires NodeOk(c, signed, accs, s)
    requires Enabled(s, e) && Lands(s, s', e)
    requires SigOk(c, signed, accs, s, sig)
    ensures SigOk(c, signed, accs, s', sig)
  {
    StepGoesForward(c, signed, accs, s, s', e);
  }

  lemma NewSigOk(
    c: Committee, signed: set<Signature>, accs: set<Acceptance>,
    s: NodeState, s': NodeState, ms: seq<Message>, e: Event, sig: Signature)
    requires c.Valid()
    requires NodeOk(c, signed, accs, s)
    requires Effect(s, s', ms, e)
    requires sig in MadeForAll(ms)
    ensures SigOk(c, signed + MadeForAll(ms), accs + NewAcceptances(s.id, s, s'), s', sig)
  {
    MadeForOutput(s, e);
    if e.Proposes? || e.Accepts? {
      NewAcceptanceLogged(c, signed, accs, s, s', e);
    } else if e.Votes? {
      NewCommitOk(c, signed, accs, s, s', e, sig);
    } else if e.Joins? {
      JoinedRoundIsLater(s, e.roundChanges);
      NewRoundChangeOk(c, signed, accs, s, s', e, MinRound(e.roundChanges));
    } else if e.TimesOut? {
      NewRoundChangeOk(c, signed, accs, s, s', e, s.round + 1);
    }
  }

  lemma NewCommitOk(
    c: Committee, signed: set<Signature>, accs: set<Acceptance>, s: NodeState, s': NodeState, e: Event, sig: Signature)
    requires NodeOk(c, signed, accs, s)
    requires e.Votes? && Enabled(s, e) && Lands(s, s', e)
    requires sig in MadeBy(s, e)
    ensures SigOk(c, signed + MadeBy(s, e), accs + NewAcceptances(s.id, s, s'), s', sig)
  {
    var signed', accs' := signed + MadeBy(s, e), accs + NewAcceptances(s.id, s, s');
    var d := Digest(e.block);
    NodeOkMonotone(c, signed, signed', accs, accs', s);
    CountedPreparesAreQuorum(c, signed', accs', s, s.Height(), s.round, d);
    assert CommitSig(s.id, s.Height(), s.round, d) in signed' && SealSig(s.id, d) in signed';
    if sig == SealSig(s.id, d) {
      var u := UnsignedCommit(s.Height(), s.round, sig, d);
      assert Signature(sig.author, OfCommit(u)) in signed' && u.commitSeal == sig;
    }
  }

  lemma NewRoundChangeOk(
    c: Committee, signed: set<Signature>, accs: set<Acceptance>, s: NodeState, s': NodeState, e: Event, round: nat)
    requires NodeOk(c, signed, accs, s)
    requires round > s.round
    requires s'.Height() == s.Height() && s'.round == round
    ensures SigOk(c, signed + MadeBy(s, e), accs + NewAcceptances(s.id, s, s'), s',
                  CreateRoundChange(s, round).payload.signature)
  {
    if s.preparedRound.Some? {
      QuorumsMonotone(c, signed, signed + MadeBy(s, e), s.Height(), s.preparedRound.value,
                      Digest(s.preparedBlock.value));
    }
  }

  // ---- Properties of pairs of signatures ------------------------------------------

  /** A new prepare is the first of its height and round. */
  lemma NewPrepareIsFirst(
    c: Committee, signed: set<Signature>, accs: set<Acceptance>, s: NodeState, e: Event, x: Signature, y: Signature)
    requires Enabled(s, e)
    requires SigOk(c, signed, accs, s, x) && x.payload.OfPrepare?
    requires y in MadeBy(s, e) && y.payload.OfPrepare?
    ensures x.payload.prepare.height != y.payload.prepare.height || x.payload.prepare.round != y.payload.prepare.round
  {
  }

  lemma SinglePrepareStep(c: Committee, signed: set<Signature>, accs: set<Acceptance>, s: NodeState, e: Event)
    requires Enabled(s, e)
    requires SinglePrepare(signed)
    requires forall sig :: sig in signed && sig.author == s.id ==> SigOk(c, signed, accs, s, sig)
    ensures SinglePrepare(signed + MadeBy(s, e))
  {
    var made := MadeBy(s, e);
    forall x, y | x in signed + made && y in signed + made && x.payload.OfPrepare? && y.payload.OfPrepare?
                  && x.author == y.author && x.payload.prepare.height == y.payload.prepare.height
                  && x.payload.prepare.round == y.payload.prepare.round
      ensures x.payload.prepare.digest == y.payload.prepare.digest
    {
      if x in signed && y !in signed {
        MadeBySelf(s, e, y);
        NewPrepareIsFirst(c, signed, accs, s, e, x, y);
      } else if x !in signed && y in signed {
        MadeBySelf(s, e, x);
        NewPrepareIsFirst(c, signed, accs, s, e, y, x);
      }
    }
  }

  /** A new commit is for a round no earlier than any round change already sent. */
  lemma NewCommitRemembered(
    c: Committee, signed: set<Signature>, accs: set<Acceptance>, s: NodeState, e: Event, x: Signature, y: Signature)
    requires Enabled(s, e)
    requires x in MadeBy(s, e) && x.payload.OfCommit?
    requires SigOk(c, signed, accs, s, y) && y.payload.OfRoundChange?
    ensures Remembers(x.payload.commit, y.payload.roundChange)
  {
  }

  /** A new round change announces what was prepared last. */
  lemma NewRoundChangeRemembers(
    c: Committee, signed: set<Signature>, accs: set<Acceptance>, s: NodeState, e: Event, x: Signature, y: Signature)
    requires Enabled(s, e)
    requires SigOk(c, signed, accs, s, x) && x.payload.OfCommit?
    requires y in MadeBy(s, e) && y.payload.OfRoundChange?
    ensures Remembers(x.payload.commit, y.payload.roundChange)
  {
  }

  lemma CommitsRememberedStep(c: Committee, signed: set<Signature>, accs: set<Acceptance>, s: NodeState, e: Event)
    requires Enabled(s, e)
    requires CommitsRemembered(signed)
    requires forall sig :: sig in signed && sig.author == s.id ==> SigOk(c, signed, accs, s, sig)
    ensures CommitsRemembered(signed + MadeBy(s, e))
  {
    var made := MadeBy(s, e);
    forall x, y | x in signed + made && y in signed + made && x.payload.OfCommit? && y.payload.OfRoundChange?
                  && x.author == y.author
      ensures Remembers(x.payload.commit, y.payload.roundChange)
    {
      if x in signed && y !in signed {
        MadeBySelf(s, e, y);
        NewRoundChangeRemembers(c, signed, accs, s, e, x, y);
      } else if x !in signed && y in signed {
        MadeBySelf(s, e, x);
        NewCommitRemembered(c, signed, accs, s, e, x, y);
      }
    }
  }

  // ---- Whole steps ----------------------------------------------------------------

  /** The head stays the genesis block or becomes a block sealed by a quorum. */
  lemma HeadStep(c: Committee, w: Swarm, s: NodeState, s': NodeState, e: Event)
    requires Inv(c, w) && NodeOk(c, w.signed, w.acceptances, s)
    requires HeadOk(c, w.signed, s.chain.head)
    requires Enabled(s, e) && Lands(s, s', e)
    ensures HeadOk(c, w.signed, s'.chain.head)
  {
    if e.Adopts? {
      assert Genuine(c, w.signed, NewBlockMessage(e.newBlock));
      ValidNewBlockIsSealed(c, w.signed, s.chain, e.newBlock);
    } else if e.Finalises? {
      var d := Digest(e.block);
      CountedCommitsAreVotes(c, w, s, s.Height(), s.round, d);
      SubsetCardinality(CommitSenders(e.commits), CommitVoters(c, w.signed, s.Height(), s.round, d));
      CommitQuorumIsSealed(c, w, s.Height(), s.round, e.block, s'.chain.head);
    }
  }

  lemma HeadOkMonotone(c: Committee, signed: set<Signature>, signed': set<Signature>, head: Block)
    requires signed <= signed' && HeadOk(c, signed, head)
    ensures HeadOk(c, signed', head)
  {
    if head != c.genesis {
      SealedMonotone(c, signed, signed', head);
    }
  }

  /** What `EffectKeepsInv` assumes about a step of node `a`. */
  ghost predicate Steps(
    c: Committee, w: Swarm, w': Swarm, a: Address, s: NodeState, s': NodeState, ms: seq<Message>, e: Event)
  {
    && a in w.nodes
    && s == w.nodes[a].(time := s.time)
    && Effect(s, s', ms, e)
    && s'.Validators() == c.validators
    && w'.nodes == w.nodes[a := s']
    && w'.network == w.network + Elements(ms)
    && w'.signed == w.signed + MadeForAll(ms)
    && w'.acceptances == w.acceptances + NewAcceptances(a, s, s')
  }

  lemma ActorOk(c: Committee, w: Swarm, a: Address, s: NodeState)
    requires Inv(c, w) && a in w.nodes && s == w.nodes[a].(time := s.time)
    ensures s.id == a && a in c.honest && NodeOk(c, w.signed, w.acceptances, s)
    ensures HeadOk(c, w.signed, s.chain.head)
    ensures forall sig :: sig in w.signed && sig.author == a ==> SigOk(c, w.signed, w.acceptances, s, sig)
  {
    var t := w.nodes[a];
    assert NodeOk(c, w.signed, w.acceptances, t);
    forall sig | sig in w.signed && sig.author == a ensures SigOk(c, w.signed, w.acceptances, s, sig) {
      assert SigOk(c, w.signed, w.acceptances, t, sig);
    }
  }

  lemma NetworkStep(
    c: Committee, w: Swarm, w': Swarm, a: Address, s: NodeState, s': NodeState, ms: seq<Message>, e: Event)
    requires Inv(c, w) && Steps(c, w, w', a, s, s', ms, e)
    ensures NetworkOk(c, w')
  {
    ActorOk(c, w, a, s);
    SentIsGenuine(c, w.signed, w.acceptances, s, e);
    forall m | m in w'.network ensures NoForgery(c, w'.signed, m) {
      GenuineMonotone(c, w.signed, w'.signed, m);
    }
  }

  lemma NodesStep(
    c: Committee, w: Swarm, w': Swarm, a: Address, s: NodeState, s': NodeState, ms: seq<Message>, e: Event)
    requires Inv(c, w) && Steps(c, w, w', a, s, s', ms, e)
    ensures NodesOk(c, w') && HeadsOk(c, w')
  {
    ActorOk(c, w, a, s);
    NodeOkStep(c, w.signed, w.acceptances, s, s', ms, e);
    HeadStep(c, w, s, s', e);
    HeadOkMonotone(c, w.signed, w'.signed, s'.chain.head);
    OtherNodesOk(c, w, w', a, s');
  }

  lemma OtherNodesOk(c: Committee, w: Swarm, w': Swarm, a: Address, s': NodeState)
    requires NodesOk(c, w) && HeadsOk(c, w) && w'.nodes == w.nodes[a := s']
    requires w.signed <= w'.signed && w.acceptances <= w'.acceptances
    requires s'.id == a && NodeOk(c, w'.signed, w'.acceptances, s') && HeadOk(c, w'.signed, s'.chain.head)
    ensures NodesOk(c, w') && HeadsOk(c, w')
  {
    forall b | b in w'.nodes
      ensures w'.nodes[b].id == b && NodeOk(c, w'.signed, w'.acceptances, w'.nodes[b])
      ensures HeadOk(c, w'.signed, w'.nodes[b].chain.head)
    {
      if b != a {
        HeadOkMonotone(c, w.signed, w'.signed, w.nodes[b].chain.head);
        NodeOkMonotone(c, w.signed, w'.signed, w.acceptances, w'.acceptances, w.nodes[b]);
      }
    }
  }

  lemma SigsStep(
    c: Committee, w: Swarm, w': Swarm, a: Address, s: NodeState, s': NodeState, ms: seq<Message>, e: Event)
    requires Inv(c, w) && Steps(c, w, w', a, s, s', ms, e)
    ensures SigsOk(c, w')
  {
    ActorOk(c, w, a, s);
    forall sig | sig in w'.signed
      ensures sig.author in w'.nodes && SigOk(c, w'.signed, w'.acceptances, w'.nodes[sig.author], sig)
    {
      if sig in MadeForAll(ms) {
        MadeForOutput(s, e);
        MadeBySelf(s, e, sig);
        NewSigOk(c, w.signed, w.acceptances, s, s', ms, e, sig);
      } else {
        OldSigStep(c, w, w', a, s, s', e, sig);
      }
    }
  }

  lemma OldSigStep(
    c: Committee, w: Swarm, w': Swarm, a: Address, s: NodeState, s': NodeState, e: Event, sig: Signature)
    requires SigsOk(c, w) && sig in w.signed && w'.nodes == w.nodes[a := s']
    requires w.signed <= w'.signed && w.acceptances <= w'.acceptances
    requires s.id == a && NodeOk(c, w.signed, w.acceptances, s)
    requires sig.author == a ==> SigOk(c, w.signed, w.acceptances, s, sig)
    requires Enabled(s, e) && Lands(s, s', e) && s'.Validators() == c.validators
    ensures sig.author in w'.nodes && SigOk(c, w'.signed, w'.acceptances, w'.nodes[sig.author], sig)
  {
    if sig.author == a {
      ActorSigOk(c, w, w', s, s', e, sig);
    } else {
      OtherSigOk(c, w, w', sig);
    }
  }

  lemma ActorSigOk(c: Committee, w: Swarm, w': Swarm, s: NodeState, s': NodeState, e: Event, sig: Signature)
    requires NodeOk(c, w.signed, w.acceptances, s) && SigOk(c, w.signed, w.acceptances, s, sig)
    requires sig.author == s.id && Enabled(s, e) && Lands(s, s', e) && s'.Validators() == c.validators
    requires sig in w.signed && w.signed <= w'.signed && w.acceptances <= w'.acceptances
    ensures SigOk(c, w'.signed, w'.acceptances, s', sig)
  {
    OldSigOk(c, w.signed, w.acceptances, s, s', e, sig);
    SigOkMonotone(c, w.signed, w'.signed, w.acceptances, w'.acceptances, s', sig);
  }

  lemma OtherSigOk(c: Committee, w: Swarm, w': Swarm, sig: Signature)
    requires SigsOk(c, w) && sig in w.signed && w.signed <= w'.signed && w.acceptances <= w'.acceptances
    requires sig.author in w.nodes ==> sig.author in w'.nodes && w'.nodes[sig.author] == w.nodes[sig.author]
    ensures sig.author in w'.nodes && SigOk(c, w'.signed, w'.acceptances, w'.nodes[sig.author], sig)
  {
    SigOkMonotone(c, w.signed, w'.signed, w.acceptances, w'.acceptances, w.nodes[sig.author], sig);
  }

  lemma AcceptancesStep(
    c: Committee, w: Swarm, w': Swarm, a: Address, s: NodeState, s': NodeState, ms: seq<Message>, e: Event)
    requires Inv(c, w) && Steps(c, w, w', a, s, s', ms, e)
    ensures AcceptancesOk(c, w')
  {
    ActorOk(c, w, a, s);
    AcceptanceIsOk(c, w.signed, w.acceptances, s, s', e);
    forall x | x in w'.acceptances ensures AcceptanceOk(c, w'.signed, x) {
      assert AcceptanceOk(c, w.signed, x);
      GenuineMonotone(c, w.signed, w'.signed, ProposalMessage(x.proposal));
    }
  }

  /** A step of one honest node, seen through its effect, keeps the invariant. */
  lemma EffectKeepsInv(
    c: Committee, w: Swarm, w': Swarm, a: Address, s: NodeState, s': NodeState, ms: seq<Message>, e: Event)
    requires Inv(c, w) && Steps(c, w, w', a, s, s', ms, e)
    ensures Inv(c, w')
  {
    NetworkStep(c, w, w', a, s, s', ms, e);
    NodesStep(c, w, w', a, s, s', ms, e);
    SigsStep(c, w, w', a, s, s', ms, e);
    AcceptancesStep(c, w, w', a, s, s', ms, e);
    SignedStep(c, w, w', a, s, s', ms, e);
  }

  lemma SignedStep(
    c: Committee, w: Swarm, w': Swarm, a: Address, s: NodeState, s': NodeState, ms: seq<Message>, e: Event)
    requires Inv(c, w) && Steps(c, w, w', a, s, s', ms, e)
    ensures SinglePrepare(w'.signed) && CommitsRemembered(w'.signed)
  {
    ActorOk(c, w, a, s);
    MadeForOutput(s, e);
    SinglePrepareStep(c, w.signed, w.acceptances, s, e);
    CommitsRememberedStep(c, w.signed, w.acceptances, s, e);
  }

  lemma OutcomeSteps(
    c: Committee, w: Swarm, w': Swarm, a: Address, s: NodeState, o: Outcome, bypass: bool, fired: bool, e: Event)
    requires a in w.nodes && s == w.nodes[a].(time := s.time)
    requires Effect(s, o.state, Sent(o), e)
    requires w' == AfterOutcome(w, a, s, o, bypass, fired)
    requires FixedValidators(c, w')
    ensures a in w'.nodes && Steps(c, w, w', a, s, w'.nodes[a], Sent(o), e)
  {
    BypassEffect(s, o.state, Sent(o), e);
    PushAllFrame(o.state, Sent(o));
  }

  lemma TickKeepsInv(c: Committee, w: Swarm, a: Address, time: nat, bypass: bool)
    requires Inv(c, w) && a in w.nodes
    requires FixedValidators(c, AfterTick(w, a, time, bypass))
    ensures Inv(c, AfterTick(w, a, time, bypass))
  {
    var s := w.nodes[a].(time := time);
    var w' := AfterTick(w, a, time, bypass);
    var e := SubStepEffect(s);
    OutcomeSteps(c, w, w', a, s, NextSubStep(s), bypass, TimerFires(s), e);
    EffectKeepsInv(c, w, w', a, s, w'.nodes[a], Sent(NextSubStep(s)), e);
  }

  lemma {:induction false} ReceiveKeepsSorted(ms: seq<Message>, incoming: seq<Message>, chain: Chain)
    requires Sorted(ms)
    ensures Sorted(Receive(ms, incoming, chain))
    decreases |incoming|
  {
    if incoming != [] {
      InsertKeepsSorted(ms, incoming[0]);
      var ms' := if Admissible(incoming[0], chain) then Insert(ms, incoming[0]) else ms;
      ReceiveKeepsSorted(ms', incoming[1..], chain);
    }
  }

  lemma AdmissibleIsGenuine(c: Committee, signed: set<Signature>, m: Message, chain: Chain)
    requires Admissible(m, chain) && NoForgery(c, signed, m) && chain.Validators() == c.validators
    ensures Genuine(c, signed, m)
  {
  }

  /** The same protocol variables, with another store or proposed block. */
  ghost predicate SameCore(s: NodeState, s': NodeState) {
    Becomes(s, s', s.chain.head, s'.chain.proposed, s.round, s.accepted, s.preparedBlock, s.preparedRound)
  }

  lemma SameCoreSigOk(
    c: Committee, signed: set<Signature>, accs: set<Acceptance>, s: NodeState, s': NodeState, sig: Signature)
    requires SameCore(s, s') && SigOk(c, signed, accs, s, sig)
    ensures SigOk(c, signed, accs, s', sig)
  {
  }

  lemma SameCoreKeepsInv(c: Committee, w: Swarm, w': Swarm, a: Address, s': NodeState)
    requires Inv(c, w) && a in w.nodes
    requires w' == w.(nodes := w.nodes[a := s'])
    requires SameCore(w.nodes[a], s')
    requires NodeOk(c, w.signed, w.acceptances, s')
    ensures Inv(c, w')
  {
    SameCoreKeepsSigs(c, w, w', a, s');
    assert w.nodes[a].id == a && HeadOk(c, w.signed, w.nodes[a].chain.head);
    OtherNodesOk(c, w, w', a, s');
    assert w'.nodes.Keys == w.nodes.Keys;
    assert NetworkOk(c, w') && AcceptancesOk(c, w');
  }

  lemma SameCoreKeepsSigs(c: Committee, w: Swarm, w': Swarm, a: Address, s': NodeState)
    requires SigsOk(c, w) && a in w.nodes && w' == w.(nodes := w.nodes[a := s']) && SameCore(w.nodes[a], s')
    ensures SigsOk(c, w')
  {
    forall sig | sig in w'.signed
      ensures sig.author in w'.nodes && SigOk(c, w'.signed, w'.acceptances, w'.nodes[sig.author], sig)
    {
      if sig.author == a {
        SameCoreSigOk(c, w.signed, w.acceptances, w.nodes[a], s', sig);
      }
    }
  }

  lemma DeliverKeepsInv(c: Committee, w: Swarm, w': Swarm, a: Address, incoming: seq<Message>, time: nat)
    requires Inv(c, w) && a in w.nodes
    requires Elements(incoming) <= w.network
    requires w' == w.(nodes := w.nodes[a := AddMessages(w.nodes[a], incoming, time)])
    ensures Inv(c, w')
  {
    DeliveryIsOk(c, w, w.nodes[a], incoming, time);
    SameCoreKeepsInv(c, w, w', a, AddMessages(w.nodes[a], incoming, time));
  }

  lemma DeliveryIsOk(c: Committee, w: Swarm, s: NodeState, incoming: seq<Message>, time: nat)
    requires NetworkOk(c, w) && Elements(incoming) <= w.network && NodeOk(c, w.signed, w.acceptances, s)
    ensures var s' := AddMessages(s, incoming, time);
            SameCore(s, s') && NodeOk(c, w.signed, w.acceptances, s')
  {
    var received := Receive(s.messages, incoming, s.chain);
    ReceiveKeepsSorted(s.messages, incoming, s.chain);
    ReceivedIsGenuine(c, w, s, incoming);
    SortedSlice(received, BelowHeight(received, s.Height()), |received|);
  }

  lemma ReceivedIsGenuine(c: Committee, w: Swarm, s: NodeState, incoming: seq<Message>)
    requires NetworkOk(c, w) && Elements(incoming) <= w.network && NodeOk(c, w.signed, w.acceptances, s)
    ensures forall m :: m in Receive(s.messages, incoming, s.chain) ==> Genuine(c, w.signed, m)
  {
    forall m | m in Receive(s.messages, incoming, s.chain) ensures Genuine(c, w.signed, m) {
      if m !in s.messages {
        assert m in Elements(incoming);
        AdmissibleIsGenuine(c, w.signed, m, s.chain);
      }
    }
  }

  lemma SetProposedKeepsInv(c: Committee, w: Swarm, w': Swarm, a: Address, block: Block)
    requires Inv(c, w) && a in w.nodes
    requires block.header.height == w.nodes[a].Height() && block.ValidDigest()
    requires w' == w.(nodes := w.nodes[a := w.nodes[a].(chain := w.nodes[a].chain.SetProposed(Some(block)))])
    ensures Inv(c, w')
  {
    var s' := w.nodes[a].(chain := w.nodes[a].chain.SetProposed(Some(block)));
    assert NodeOk(c, w.signed, w.acceptances, w.nodes[a]);
    SameCoreKeepsInv(c, w, w', a, s');
  }

  lemma NextKeepsInv(c: Committee, w: Swarm, w': Swarm)
    requires Inv(c, w) && Next(c, w, w')
    ensures Inv(c, w')
  {
    var step :| NextStep(c, w, w', step);
    if step.Tick? {
      TickStepKeepsInv(c, w, w', step);
    } else {
      OtherStepKeepsInv(c, w, w', step);
    }
  }

  lemma TickStepKeepsInv(c: Committee, w: Swarm, w': Swarm, step: Step)
    requires Inv(c, w) && FixedValidators(c, w')
    requires step.Tick? && NextStep(c, w, w', step)
    ensures Inv(c, w')
  {
    TickKeepsInv(c, w, step.node, step.time, step.bypass);
  }

  lemma OtherStepKeepsInv(c: Committee, w: Swarm, w': Swarm, step: Step)
    requires Inv(c, w)
    requires !step.Tick? && NextStep(c, w, w', step)
    ensures Inv(c, w')
  {
    match step
    case Deliver(a, incoming, time) => DeliverKeepsInv(c, w, w', a, incoming, time);
    case SetProposed(a, block) => SetProposedKeepsInv(c, w, w', a, block);
    case Inject(m) => InjectKeepsInv(c, w, w', m);
  }

  lemma InjectKeepsInv(c: Committee, w: Swarm, w': Swarm, m: Message)
    requires Inv(c, w)
    requires NoForgery(c, w.signed, m) && w' == w.(network := w.network + {m})
    ensures Inv(c, w')
  {
    assert NetworkOk(c, w');
  }

  lemma InitHasInv(c: Committee, w: Swarm)
    requires c.Valid() && Init(c, w)
    ensures Inv(c, w)
  {
    InitHasNodesOk(c, w);
  }

  lemma InitHasNodesOk(c: Committee, w: Swarm)
    requires c.Valid() && Init(c, w)
    ensures NodesOk(c, w) && HeadsOk(c, w)
  {
  }

  /** The invariant holds in every state of every run. */
  lemma {:induction false} InvHolds(c: Committee, trace: seq<Swarm>, i: nat)
    requires Run(c, trace) && i < |trace|
    ensures Inv(c, trace[i])
  {
    if i == 0 {
      InitHasInv(c, trace[0]);
    } else {
      InvHolds(c, trace, i - 1);
      assert Next(c, trace[i - 1], trace[i - 1 + 1]);
      NextKeepsInv(c, trace[i - 1], trace[i]);
    }
  }
}
