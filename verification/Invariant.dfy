/** The run-wide invariant behind agreement: what honest signatures, honest states and
    stored messages guarantee, in every reachable state. */
module Invariant {
  import opened Prelude
  import opened Types
  import opened Validators
  import opened Store
  import opened Protocol
  import opened Swarm

  // ---- Votes ----------------------------------------------------------------------

  function PrepareSig(a: Address, h: nat, r: nat, d: Hash): (s: Signature) {
    Signature(a, OfPrepare(UnsignedPrepare(h, r, d)))
  }

  /** What an honest commit seal signs, given the digest that is committed. */
  function SealedHash(d: Hash): (x: Hash) {
    if d.HeaderHash? then HeaderHash(d.header.(commitSeals := [])) else d
  }

  function SealSig(a: Address, d: Hash): (s: Signature) {
    Signature(a, OfHash(SealedHash(d)))
  }

  function CommitSig(a: Address, h: nat, r: nat, d: Hash): (s: Signature) {
    Signature(a, OfCommit(UnsignedCommit(h, r, SealSig(a, d), d)))
  }

  /** The validators that may count as preparing `d`: the faulty ones and the honest
      ones that did. */
  function PrepareVoters(c: Committee, signed: set<Signature>, h: nat, r: nat, d: Hash): (s: set<Address>) {
    set a | a in c.validators && (a !in c.honest || PrepareSig(a, h, r, d) in signed)
  }

  predicate PrepareQuorum(c: Committee, signed: set<Signature>, h: nat, r: nat, d: Hash) {
    |PrepareVoters(c, signed, h, r, d)| >= c.QuorumSize()
  }

  function CommitVoters(c: Committee, signed: set<Signature>, h: nat, r: nat, d: Hash): (s: set<Address>) {
    set a | a in c.validators && (a !in c.honest || CommitSig(a, h, r, d) in signed)
  }

  predicate CommitQuorum(c: Committee, signed: set<Signature>, h: nat, r: nat, d: Hash) {
    |CommitVoters(c, signed, h, r, d)| >= c.QuorumSize()
  }

  /** Two quorums share an honest validator. */
  lemma HonestInCommon(c: Committee, q1: set<Address>, q2: set<Address>) returns (a: Address)
    requires c.Valid()
    requires q1 <= Elements(c.validators) && q2 <= Elements(c.validators)
    requires |q1| >= c.QuorumSize() && |q2| >= c.QuorumSize()
    ensures a in q1 && a in q2 && a in c.honest
  {
    var all := Elements(c.validators);
    ElementsCardinality(c.validators);
    IntersectionCardinality(q1, q2, all);
    QuorumBounds(|c.validators|);
    if q1 * q2 <= all - c.honest {
      SubsetCardinality(q1 * q2, all - c.honest);
      assert false;
    }
    a :| a in q1 * q2 && a !in all - c.honest;
  }

  /** More senders than there can be faulty validators include an honest one. */
  lemma HonestAmong(c: Committee, q: set<Address>) returns (a: Address)
    requires c.Valid()
    requires q <= Elements(c.validators)
    requires |q| > MaxFaulty(|c.validators|)
    ensures a in q && a in c.honest
  {
    if q <= Elements(c.validators) - c.honest {
      SubsetCardinality(q, Elements(c.validators) - c.honest);
      assert false;
    }
    a :| a in q && a !in Elements(c.validators) - c.honest;
  }

  // ---- The invariant --------------------------------------------------------------

  /** A stored message: verified, from a validator, with the right body digests, and nothing
      in it is forged. */
  predicate Genuine(c: Committee, signed: set<Signature>, m: Message) {
    && NoForgery(c, signed, m)
    && m.Author() in c.validators
    && CheckDigest(m)
    && match m
       case ProposalMessage(p) =>
         && p.payload.signature.Verifies(OfProposal(p.payload.unsigned))
         && VerifiedRoundChanges(p.roundChanges) && VerifiedPrepares(p.prepares)
       case PrepareMessage(p) => p.signature.Verifies(OfPrepare(p.unsigned))
       case CommitMessage(v) => v.signature.Verifies(OfCommit(v.unsigned))
       case RoundChangeMessage(rc) =>
         && rc.payload.signature.Verifies(OfRoundChange(rc.payload.unsigned))
         && VerifiedPrepares(rc.prepares)
       case NewBlockMessage(nb) => nb.signature.Verifies(OfNewBlock(nb.unsigned))
  }

  /** Node `a` took a proposal with this digest in that round. */
  ghost predicate Logged(accs: set<Acceptance>, a: Address, h: nat, r: nat, d: Hash) {
    exists x :: x in accs && x.node == a && x.chain.Height() == h
                && x.proposal.payload.unsigned.round == r && Digest(x.proposal.block) == d
  }

  /** An accepted proposal is for a block of its height, labelled 0 in round 0, and above
      round 0 was justified by genuine round changes and prepares. */
  ghost predicate AcceptanceOk(c: Committee, signed: set<Signature>, x: Acceptance) {
    && x.node in c.honest
    && x.chain.Validators() == c.validators
    && x.proposal.block.header.height == x.chain.Height()
    && (x.proposal.payload.unsigned.round == 0 ==> x.proposal.block.header.roundNumber == 0)
    && (x.proposal.payload.unsigned.round > 0 ==>
          && ProposalChecks(x.proposal, x.chain)
          && Genuine(c, signed, ProposalMessage(x.proposal)))
  }

  ghost predicate StoreOk(c: Committee, signed: set<Signature>, ms: seq<Message>) {
    && Sorted(ms)
    && forall m :: m in ms ==> Genuine(c, signed, m)
  }

  ghost predicate VariablesOk(c: Committee, signed: set<Signature>, accs: set<Acceptance>, s: NodeState) {
    && (s.chain.proposed.Some? ==>
          && s.chain.proposed.value.header.height == s.Height()
          && s.chain.proposed.value.ValidDigest())
    && (s.accepted.Some? ==>
          && s.accepted.value.block.header.height == s.Height()
          && s.accepted.value.block.ValidDigest()
          && s.accepted.value.payload.unsigned.round == s.round
          && Logged(accs, s.id, s.Height(), s.round, Digest(s.accepted.value.block)))
    && (s.preparedRound.Some? <==> s.preparedBlock.Some?)
    && (s.preparedRound.Some? ==>
          && s.preparedRound.value <= s.round
          && s.preparedBlock.value.ValidDigest()
          && PrepareQuorum(c, signed, s.Height(), s.preparedRound.value, Digest(s.preparedBlock.value))
          && CommitSig(s.id, s.Height(), s.preparedRound.value, Digest(s.preparedBlock.value)) in signed
          && (s.preparedRound.value == s.round ==> s.accepted.Some? && s.accepted.value.block == s.preparedBlock.value))
  }

  ghost predicate NodeOk(c: Committee, signed: set<Signature>, accs: set<Acceptance>, s: NodeState) {
    && s.Validators() == c.validators
    && StoreOk(c, signed, s.messages)
    && VariablesOk(c, signed, accs, s)
  }

  predicate Reached(s: NodeState, h: nat, r: nat) {
    h < s.Height() || (h == s.Height() && r <= s.round)
  }

  predicate Current(s: NodeState, h: nat, r: nat) {
    h == s.Height() && r == s.round
  }

  /** What a signature says about the state of the honest node that made it. */
  ghost predicate SigOk(c: Committee, signed: set<Signature>, accs: set<Acceptance>, s: NodeState, sig: Signature) {
    match sig.payload
    case OfPrepare(u) =>
      && Reached(s, u.height, u.round)
      && (Current(s, u.height, u.round) ==> s.accepted.Some? && Digest(s.accepted.value.block) == u.digest)
      && Logged(accs, sig.author, u.height, u.round, u.digest)
    case OfCommit(u) =>
      && Reached(s, u.height, u.round)
      && sig == CommitSig(sig.author, u.height, u.round, u.digest)
      && u.digest.HeaderHash? && u.digest.header.height == u.height
      && SealSig(sig.author, u.digest) in signed
      && PrepareQuorum(c, signed, u.height, u.round, u.digest)
      && Logged(accs, sig.author, u.height, u.round, u.digest)
      && (u.height == s.Height() ==>
            && s.preparedRound.Some? && s.preparedBlock.Some?
            && u.round <= s.preparedRound.value
            && (u.round == s.preparedRound.value ==> Digest(s.preparedBlock.value) == u.digest))
    case OfRoundChange(u) =>
      && Reached(s, u.height, u.round)
      && (u.preparedRound.Some? <==> u.preparedValue.Some?)
      && (u.preparedRound.Some? ==>
            && u.preparedRound.value < u.round
            && PrepareQuorum(c, signed, u.height, u.preparedRound.value, u.preparedValue.value)
            && CommitSig(sig.author, u.height, u.preparedRound.value, u.preparedValue.value) in signed)
    case OfHash(x) =>
      exists u :: Signature(sig.author, OfCommit(u)) in signed && u.commitSeal == sig
    case _ => true
  }

  /** Honest nodes prepare at most one digest per height and round. */
  ghost predicate SinglePrepare(signed: set<Signature>) {
    forall x, y :: x in signed && y in signed && x.payload.OfPrepare? && y.payload.OfPrepare?
                   && x.author == y.author && x.payload.prepare.height == y.payload.prepare.height
                   && x.payload.prepare.round == y.payload.prepare.round
                   ==> x.payload.prepare.digest == y.payload.prepare.digest
  }

  /** A round change announces at least what its sender committed in any earlier round. */
  ghost predicate Remembers(commit: UnsignedCommit, rc: UnsignedRoundChange) {
    commit.height == rc.height && commit.round < rc.round ==>
      && rc.preparedRound.Some? && rc.preparedValue.Some?
      && commit.round <= rc.preparedRound.value
      && (commit.round == rc.preparedRound.value ==> commit.digest == rc.preparedValue.value)
  }

  ghost predicate CommitsRemembered(signed: set<Signature>) {
    forall x, y :: x in signed && y in signed && x.payload.OfCommit? && y.payload.OfRoundChange?
                   && x.author == y.author
                   ==> Remembers(x.payload.commit, y.payload.roundChange)
  }

  /** At least a quorum of validators, the faulty ones included, sealed this block. */
  function Sealers(c: Committee, signed: set<Signature>, block: Block): (s: set<Address>) {
    set a | a in c.validators && (a !in c.honest || Signature(a, OfHash(SealHash(block))) in signed)
  }

  predicate Sealed(c: Committee, signed: set<Signature>, block: Block) {
    |Sealers(c, signed, block)| >= c.QuorumSize()
  }

  ghost predicate NetworkOk(c: Committee, w: Swarm) {
    forall m :: m in w.network ==> NoForgery(c, w.signed, m)
  }

  ghost predicate NodesOk(c: Committee, w: Swarm) {
    forall a :: a in w.nodes ==> w.nodes[a].id == a && NodeOk(c, w.signed, w.acceptances, w.nodes[a])
  }

  /** Every head but the genesis block was sealed by a quorum. */
  ghost predicate HeadOk(c: Committee, signed: set<Signature>, head: Block) {
    head == c.genesis || Sealed(c, signed, head)
  }

  ghost predicate HeadsOk(c: Committee, w: Swarm) {
    forall a :: a in w.nodes ==> HeadOk(c, w.signed, w.nodes[a].chain.head)
  }

  ghost predicate SigsOk(c: Committee, w: Swarm) {
    forall sig :: sig in w.signed ==>
      sig.author in w.nodes && SigOk(c, w.signed, w.acceptances, w.nodes[sig.author], sig)
  }

  ghost predicate AcceptancesOk(c: Committee, w: Swarm) {
    forall x :: x in w.acceptances ==> AcceptanceOk(c, w.signed, x)
  }

  ghost predicate Inv(c: Committee, w: Swarm) {
    && c.Valid()
    && w.nodes.Keys == c.honest
    && NetworkOk(c, w)
    && NodesOk(c, w)
    && HeadsOk(c, w)
    && SigsOk(c, w)
    && AcceptancesOk(c, w)
    && SinglePrepare(w.signed)
    && CommitsRemembered(w.signed)
  }

  // ---- Everything is monotone in the signatures made ------------------------------

  lemma GenuineMonotone(c: Committee, signed: set<Signature>, signed': set<Signature>, m: Message)
    requires signed <= signed'
    ensures NoForgery(c, signed, m) ==> NoForgery(c, signed', m)
    ensures Genuine(c, signed, m) ==> Genuine(c, signed', m)
  {
  }

  lemma QuorumsMonotone(c: Committee, signed: set<Signature>, signed': set<Signature>, h: nat, r: nat, d: Hash)
    requires signed <= signed'
    ensures PrepareQuorum(c, signed, h, r, d) ==> PrepareQuorum(c, signed', h, r, d)
    ensures CommitQuorum(c, signed, h, r, d) ==> CommitQuorum(c, signed', h, r, d)
  {
    SubsetCardinality(PrepareVoters(c, signed, h, r, d), PrepareVoters(c, signed', h, r, d));
    SubsetCardinality(CommitVoters(c, signed, h, r, d), CommitVoters(c, signed', h, r, d));
  }

  lemma SealedMonotone(c: Committee, signed: set<Signature>, signed': set<Signature>, b: Block)
    requires signed <= signed' && Sealed(c, signed, b)
    ensures Sealed(c, signed', b)
  {
    SubsetCardinality(Sealers(c, signed, b), Sealers(c, signed', b));
  }

  lemma LoggedMonotone(accs: set<Acceptance>, accs': set<Acceptance>, a: Address, h: nat, r: nat, d: Hash)
    requires accs <= accs' && Logged(accs, a, h, r, d)
    ensures Logged(accs', a, h, r, d)
  {
  }

  lemma NodeOkMonotone(
    c: Committee, signed: set<Signature>, signed': set<Signature>,
    accs: set<Acceptance>, accs': set<Acceptance>, s: NodeState)
    requires signed <= signed' && accs <= accs'
    requires NodeOk(c, signed, accs, s)
    ensures NodeOk(c, signed', accs', s)
  {
    forall m | m in s.messages ensures Genuine(c, signed', m) {
      GenuineMonotone(c, signed, signed', m);
    }
    if s.accepted.Some? {
      LoggedMonotone(accs, accs', s.id, s.Height(), s.round, Digest(s.accepted.value.block));
    }
    if s.preparedRound.Some? {
      QuorumsMonotone(c, signed, signed', s.Height(), s.preparedRound.value, Digest(s.preparedBlock.value));
    }
  }

  lemma SigOkMonotone(
    c: Committee, signed: set<Signature>, signed': set<Signature>,
    accs: set<Acceptance>, accs': set<Acceptance>, s: NodeState, sig: Signature)
    requires signed <= signed' && accs <= accs'
    requires SigOk(c, signed, accs, s, sig)
    ensures SigOk(c, signed', accs', s, sig)
  {
    match sig.payload
    case OfPrepare(u) => LoggedMonotone(accs, accs', sig.author, u.height, u.round, u.digest);
    case OfCommit(u) =>
      LoggedMonotone(accs, accs', sig.author, u.height, u.round, u.digest);
      QuorumsMonotone(c, signed, signed', u.height, u.round, u.digest);
    case OfRoundChange(u) =>
      if u.preparedRound.Some? {
        QuorumsMonotone(c, signed, signed', u.height, u.preparedRound.value, u.preparedValue.value);
      }
    case OfHash(x) =>
      var u :| Signature(sig.author, OfCommit(u)) in signed && u.commitSeal == sig;
      assert Signature(sig.author, OfCommit(u)) in signed';
    case _ =>
  }
}
