/** Agreement: what no run can do, whatever the network and the faulty validators do. */
module Agreement {
  import opened Prelude
  import opened Types
  import opened Validators
  import opened Justification
  import opened Protocol
  import opened Swarm
  import opened Effects
  import opened Invariant
  import opened Preservation

  // ---- One round ------------------------------------------------------------------

  lemma PrepareQuorumIsUnique(c: Committee, w: Swarm, h: nat, r: nat, d1: Hash, d2: Hash)
    requires Inv(c, w)
    requires PrepareQuorum(c, w.signed, h, r, d1) && PrepareQuorum(c, w.signed, h, r, d2)
    ensures d1 == d2
  {
    var a := HonestInCommon(c, PrepareVoters(c, w.signed, h, r, d1), PrepareVoters(c, w.signed, h, r, d2));
    assert PrepareSig(a, h, r, d1) in w.signed && PrepareSig(a, h, r, d2) in w.signed;
  }

  /** A commit by an honest validator stands on a prepare quorum. */
  lemma CommitHasPrepareQuorum(c: Committee, w: Swarm, a: Address, h: nat, r: nat, d: Hash)
    requires Inv(c, w) && CommitSig(a, h, r, d) in w.signed
    ensures PrepareQuorum(c, w.signed, h, r, d)
    ensures d.HeaderHash? && d.header.height == h
    ensures Logged(w.acceptances, a, h, r, d)
  {
    assert SigOk(c, w.signed, w.acceptances, w.nodes[a], CommitSig(a, h, r, d));
  }

  lemma CommitQuorumHasPrepareQuorum(c: Committee, w: Swarm, h: nat, r: nat, d: Hash)
    requires Inv(c, w) && CommitQuorum(c, w.signed, h, r, d)
    ensures PrepareQuorum(c, w.signed, h, r, d)
    ensures d.HeaderHash? && d.header.height == h
    ensures exists a :: a in c.honest && Logged(w.acceptances, a, h, r, d)
  {
    QuorumBounds(|c.validators|);
    var a := HonestAmong(c, CommitVoters(c, w.signed, h, r, d));
    CommitHasPrepareQuorum(c, w, a, h, r, d);
  }

  /** In no run, at no height and round, are there quorums of prepares, or of commits, for
      two different digests. */
  lemma SameRoundAgreement(c: Committee, trace: seq<Swarm>, i: nat, h: nat, r: nat, d1: Hash, d2: Hash)
    requires Run(c, trace) && i < |trace|
    ensures PrepareQuorum(c, trace[i].signed, h, r, d1) && PrepareQuorum(c, trace[i].signed, h, r, d2) ==> d1 == d2
    ensures CommitQuorum(c, trace[i].signed, h, r, d1) && CommitQuorum(c, trace[i].signed, h, r, d2) ==> d1 == d2
  {
    InvHolds(c, trace, i);
    var w := trace[i];
    if CommitQuorum(c, w.signed, h, r, d1) && CommitQuorum(c, w.signed, h, r, d2) {
      CommitQuorumHasPrepareQuorum(c, w, h, r, d1);
      CommitQuorumHasPrepareQuorum(c, w, h, r, d2);
    }
    if PrepareQuorum(c, w.signed, h, r, d1) && PrepareQuorum(c, w.signed, h, r, d2) {
      PrepareQuorumIsUnique(c, w, h, r, d1, d2);
    }
  }

  /** In no run does an honest validator prepare, or commit, two digests at one height
      and round. */
  lemma SingleVote(c: Committee, trace: seq<Swarm>, i: nat, a: Address, h: nat, r: nat, d1: Hash, d2: Hash)
    requires Run(c, trace) && i < |trace| && a in c.honest
    ensures PrepareSig(a, h, r, d1) in trace[i].signed && PrepareSig(a, h, r, d2) in trace[i].signed ==> d1 == d2
    ensures CommitSig(a, h, r, d1) in trace[i].signed && CommitSig(a, h, r, d2) in trace[i].signed ==> d1 == d2
  {
    InvHolds(c, trace, i);
    VotesAreSingle(c, trace[i], a, h, r, d1, d2);
  }

  lemma VotesAreSingle(c: Committee, w: Swarm, a: Address, h: nat, r: nat, d1: Hash, d2: Hash)
    requires Inv(c, w) && a in c.honest
    ensures PrepareSig(a, h, r, d1) in w.signed && PrepareSig(a, h, r, d2) in w.signed ==> d1 == d2
    ensures CommitSig(a, h, r, d1) in w.signed && CommitSig(a, h, r, d2) in w.signed ==> d1 == d2
  {
    if CommitSig(a, h, r, d1) in w.signed && CommitSig(a, h, r, d2) in w.signed {
      CommitIsSingle(c, w, a, h, r, d1, d2);
    }
  }

  lemma CommitIsSingle(c: Committee, w: Swarm, a: Address, h: nat, r: nat, d1: Hash, d2: Hash)
    requires Inv(c, w) && a in c.honest
    requires CommitSig(a, h, r, d1) in w.signed && CommitSig(a, h, r, d2) in w.signed
    ensures d1 == d2
  {
    CommitHasPrepareQuorum(c, w, a, h, r, d1);
    CommitHasPrepareQuorum(c, w, a, h, r, d2);
    PrepareQuorumIsUnique(c, w, h, r, d1, d2);
  }

  // ---- Proposals above round 0 ----------------------------------------------------

  function RoundOf(x: Acceptance): (r: nat) {
    x.proposal.payload.unsigned.round
  }

  /** The prepared round the acceptance rested on, or none if it fell through to the rule
      for new blocks. */
  function PreparedRoundOf(x: Acceptance): (r: Option<nat>) {
    HighestBacked(x.proposal.roundChanges, x.proposal.roundChanges, x.proposal.block, x.chain)
  }

  predicate FellThrough(x: Acceptance) {
    RoundOf(x) > 0 && PreparedRoundOf(x).None?
  }

  function RoundChangeSig(a: Address, h: nat, r: nat, d: Hash, pr: nat): (s: Signature) {
    Signature(a, OfRoundChange(UnsignedRoundChange(h, r, Some(d), Some(pr))))
  }

  /** Validators that may count as having announced `d`, prepared in round `pr`, when
      moving to round `r`. */
  function RoundChangeVoters(c: Committee, signed: set<Signature>, h: nat, r: nat, d: Hash, pr: nat)
    : (s: set<Address>)
  {
    set a | a in c.validators && (a !in c.honest || RoundChangeSig(a, h, r, d, pr) in signed)
  }

  /** The digest that was prepared in round `pr` if the accepted block was. */
  function PreparedDigest(x: Acceptance, pr: nat): (d: Hash) {
    Digest(Relabel(x.proposal.block, pr, x.chain))
  }

  lemma SupportersAreVotes(c: Committee, signed: set<Signature>, x: Acceptance, pr: nat)
    requires AcceptanceOk(c, signed, x) && RoundOf(x) > 0
    ensures Supporters(x.proposal.roundChanges, x.proposal.block, x.chain, pr)
         <= RoundChangeVoters(c, signed, x.chain.Height(), RoundOf(x), PreparedDigest(x, pr), pr)
  {
    var h, r, d := x.chain.Height(), RoundOf(x), PreparedDigest(x, pr);
    var rcs := x.proposal.roundChanges;
    forall a | a in Supporters(rcs, x.proposal.block, x.chain, pr)
      ensures a in RoundChangeVoters(c, signed, h, r, d, pr)
    {
      var rc :| rc in rcs && Claims(rc, x.proposal.block, x.chain, pr) && rc.signature.author == a;
      assert ValidRoundChange(rc, h, r, c.validators);
      assert rc.unsigned == UnsignedRoundChange(h, r, Some(d), Some(pr));
      assert Unforged(c, signed, rc.signature, OfRoundChange(rc.unsigned));
    }
  }

  /** Soundness of the prepared branch: accepting through it means that a quorum of
      validators announced the block for one earlier round, and that a quorum prepared
      it in that round. */
  lemma PreparedBranchSound(c: Committee, w: Swarm, x: Acceptance)
    requires Inv(c, w) && x in w.acceptances
    requires RoundOf(x) > 0 && PreparedRoundOf(x).Some?
    ensures var pr := PreparedRoundOf(x).value;
            && pr < RoundOf(x)
            && |RoundChangeVoters(c, w.signed, x.chain.Height(), RoundOf(x), PreparedDigest(x, pr), pr)|
               >= c.QuorumSize()
            && PrepareQuorum(c, w.signed, x.chain.Height(), pr, PreparedDigest(x, pr))
  {
    var pr := PreparedRoundOf(x).value;
    var p := x.proposal;
    assert AcceptanceOk(c, w.signed, x);
    PreparedBranch(p.roundChanges, p.prepares, [p.block], RoundOf(x), p.block, x.chain, pr);
    SupportersAreVotes(c, w.signed, x, pr);
    SubsetCardinality(Supporters(p.roundChanges, p.block, x.chain, pr),
                      RoundChangeVoters(c, w.signed, x.chain.Height(), RoundOf(x), PreparedDigest(x, pr), pr));
    PreparesAreVotes(c, w.signed, p.prepares, x.chain.Height(), pr, PreparedDigest(x, pr));
  }

  /** Two acceptances that rest on the same prepared round carry the same block, but for
      its label. */
  lemma SamePreparedRoundSameBlock(c: Committee, w: Swarm, x: Acceptance, y: Acceptance)
    requires Inv(c, w) && x in w.acceptances && y in w.acceptances
    requires x.chain.Height() == y.chain.Height() && RoundOf(x) > 0 && RoundOf(y) > 0
    requires PreparedRoundOf(x).Some? && PreparedRoundOf(x) == PreparedRoundOf(y)
    ensures Core(x.proposal.block) == Core(y.proposal.block)
  {
    var pr := PreparedRoundOf(x).value;
    PreparedBranchSound(c, w, x);
    PreparedBranchSound(c, w, y);
    PrepareQuorumIsUnique(c, w, x.chain.Height(), pr, PreparedDigest(x, pr), PreparedDigest(y, pr));
    CoreOfRelabel(x.proposal.block, pr, x.chain);
    CoreOfRelabel(y.proposal.block, pr, y.chain);
  }

  lemma CoreOfRelabel(block: Block, round: nat, chain: Chain)
    ensures Core(Relabel(block, round, chain)) == Core(block)
  {
  }

  /** The block behind a digest, with its label erased. */
  function CoreOf(d: Hash): (h: BlockHeader)
    requires d.HeaderHash?
  {
    d.header.(roundNumber := 0, proposer := ZERO_ADDRESS)
  }

  // ---- Across rounds --------------------------------------------------------------

  /** A quorum of commits in round `r` locks the prepared branch: later proposals can only
      rest on round `r` itself, for the committed block, or on a later round. */
  lemma CommitLocks(c: Committee, w: Swarm, h: nat, r: nat, d: Hash, x: Acceptance)
    requires Inv(c, w) && CommitQuorum(c, w.signed, h, r, d)
    requires x in w.acceptances && x.chain.Height() == h && RoundOf(x) > r
    requires PreparedRoundOf(x).Some?
    ensures var pr := PreparedRoundOf(x).value; pr >= r && (pr == r ==> PreparedDigest(x, pr) == d)
  {
    var pr := PreparedRoundOf(x).value;
    PreparedBranchSound(c, w, x);
    CommitIsAnnounced(c, w.signed, h, r, d, RoundOf(x), PreparedDigest(x, pr), pr);
  }

  /** A quorum that announces a prepared block after a quorum committed another meets it. */
  lemma CommitIsAnnounced(
    c: Committee, signed: set<Signature>, h: nat, r: nat, d: Hash, r2: nat, e: Hash, pr: nat)
    requires c.Valid() && CommitsRemembered(signed) && CommitQuorum(c, signed, h, r, d) && r < r2
    requires |RoundChangeVoters(c, signed, h, r2, e, pr)| >= c.QuorumSize()
    ensures pr >= r && (pr == r ==> e == d)
  {
    var a := HonestInCommon(c, CommitVoters(c, signed, h, r, d), RoundChangeVoters(c, signed, h, r2, e, pr));
    var commit, rc := CommitSig(a, h, r, d), RoundChangeSig(a, h, r2, e, pr);
    assert commit in signed && rc in signed;
    assert Remembers(commit.payload.commit, rc.payload.roundChange);
  }

  /** Every proposal above round 0 accepted after a commit quorum carries a round change
      that announces a prepared block. */
  lemma LaterProposalsNamePrepared(c: Committee, w: Swarm, h: nat, r: nat, d: Hash, x: Acceptance)
    returns (rc: SignedRoundChange)
    requires Inv(c, w) && CommitQuorum(c, w.signed, h, r, d)
    requires x in w.acceptances && x.chain.Height() == h && RoundOf(x) > r
    ensures rc in x.proposal.roundChanges
    ensures rc.unsigned.preparedRound.Some? && rc.unsigned.preparedRound.value >= r
  {
    var rcs := x.proposal.roundChanges;
    assert AcceptanceOk(c, w.signed, x);
    forall a | a in RoundChangeSenders(rcs) ensures a in Elements(c.validators) {
      var rc :| rc in rcs && rc.signature.author == a;
      assert ValidRoundChange(rc, h, RoundOf(x), c.validators);
    }
    var a := HonestInCommon(c, CommitVoters(c, w.signed, h, r, d), RoundChangeSenders(rcs));
    rc :| rc in rcs && rc.signature.author == a;
    assert ValidRoundChange(rc, h, RoundOf(x), c.validators);
    assert Unforged(c, w.signed, rc.signature, OfRoundChange(rc.unsigned));
    assert rc.signature == Signature(a, OfRoundChange(rc.unsigned)) && rc.signature in w.signed;
    assert CommitSig(a, h, r, d) in w.signed;
    assert Remembers(CommitSig(a, h, r, d).payload.commit, rc.unsigned);
  }

  /** All blocks accepted at height `h` after round `r` are the committed one, but for the
      label. */
  ghost predicate LaterAgree(w: Swarm, h: nat, r: nat, d: Hash)
    requires d.HeaderHash?
  {
    forall x :: x in w.acceptances && x.chain.Height() == h && RoundOf(x) > r
                ==> Core(x.proposal.block) == CoreOf(d)
  }

  /** As `LaterAgree`, for the acceptances that fell through only. */
  ghost predicate LaterFallThroughsAgree(w: Swarm, h: nat, r: nat, d: Hash)
    requires d.HeaderHash?
  {
    forall x :: x in w.acceptances && x.chain.Height() == h && RoundOf(x) > r && FellThrough(x)
                ==> Core(x.proposal.block) == CoreOf(d)
  }

  /** Induction on rounds: a later acceptance through the prepared branch rests on an
      earlier acceptance of the same block. */
  lemma {:induction false} LaterAcceptanceAgrees(c: Committee, w: Swarm, h: nat, r: nat, d: Hash, x: Acceptance)
    requires Inv(c, w) && CommitQuorum(c, w.signed, h, r, d) && d.HeaderHash?
    requires LaterFallThroughsAgree(w, h, r, d)
    requires x in w.acceptances && x.chain.Height() == h && RoundOf(x) > r
    ensures Core(x.proposal.block) == CoreOf(d)
    decreases RoundOf(x)
  {
    if PreparedRoundOf(x).Some? {
      var pr := PreparedRoundOf(x).value;
      PreparedBranchSound(c, w, x);
      CommitLocks(c, w, h, r, d, x);
      CoreOfRelabel(x.proposal.block, pr, x.chain);
      if pr > r {
        var y := PreparedWasAccepted(c, w, h, pr, PreparedDigest(x, pr));
        LaterAcceptanceAgrees(c, w, h, r, d, y);
      }
    }
  }

  /** A prepared digest was accepted by an honest validator. */
  lemma PreparedWasAccepted(c: Committee, w: Swarm, h: nat, r: nat, d: Hash) returns (x: Acceptance)
    requires Inv(c, w) && PrepareQuorum(c, w.signed, h, r, d)
    ensures x in w.acceptances && x.chain.Height() == h && RoundOf(x) == r && Digest(x.proposal.block) == d
  {
    QuorumBounds(|c.validators|);
    var a := HonestAmong(c, PrepareVoters(c, w.signed, h, r, d));
    PrepareWasLogged(c, w, a, h, r, d);
    x :| x in w.acceptances && x.node == a && x.chain.Height() == h
      && x.proposal.payload.unsigned.round == r && Digest(x.proposal.block) == d;
  }

  lemma PrepareWasLogged(c: Committee, w: Swarm, a: Address, h: nat, r: nat, d: Hash)
    requires Inv(c, w) && a in c.honest && PrepareSig(a, h, r, d) in w.signed
    ensures Logged(w.acceptances, a, h, r, d)
  {
    assert SigOk(c, w.signed, w.acceptances, w.nodes[a], PrepareSig(a, h, r, d));
  }

  /** Exactly when later rounds agree with a committed block: when the acceptances that
      fell through do. The prepared branch never breaks agreement. */
  lemma CrossRoundAgreementIff(c: Committee, trace: seq<Swarm>, i: nat, h: nat, r: nat, d: Hash)
    requires Run(c, trace) && i < |trace|
    requires CommitQuorum(c, trace[i].signed, h, r, d)
    ensures d.HeaderHash?
    ensures LaterAgree(trace[i], h, r, d) <==> LaterFallThroughsAgree(trace[i], h, r, d)
  {
    InvHolds(c, trace, i);
    var w := trace[i];
    CommitQuorumHasPrepareQuorum(c, w, h, r, d);
    if LaterFallThroughsAgree(w, h, r, d) {
      forall x | x in w.acceptances && x.chain.Height() == h && RoundOf(x) > r
        ensures Core(x.proposal.block) == CoreOf(d)
      {
        LaterAcceptanceAgrees(c, w, h, r, d, x);
      }
    }
  }

  /** The rule the fall-through branch documents: no round change names a prepared block. */
  predicate NothingPrepared(x: Acceptance) {
    forall rc :: rc in x.proposal.roundChanges ==> rc.unsigned.preparedRound.None?
  }

  /** The acceptances at height `h` above round `r` that fell through kept to that rule. */
  ghost predicate FallThroughsUnprepared(w: Swarm, h: nat, r: nat) {
    forall x :: x in w.acceptances && x.chain.Height() == h && RoundOf(x) > r && FellThrough(x) ==> NothingPrepared(x)
  }

  /** Agreement across rounds, for every run whose fall-through acceptances above the earlier
      round of the height kept to the documented rule: commit quorums of one height are for
      one block, but for its label. */
  lemma CrossRoundAgreement(c: Committee, trace: seq<Swarm>, i: nat, h: nat, r1: nat, d1: Hash, r2: nat, d2: Hash)
    requires Run(c, trace) && i < |trace|
    requires FallThroughsUnprepared(trace[i], h, Min(r1, r2))
    requires CommitQuorum(c, trace[i].signed, h, r1, d1) && CommitQuorum(c, trace[i].signed, h, r2, d2)
    ensures d1.HeaderHash? && d2.HeaderHash? && CoreOf(d1) == CoreOf(d2)
  {
    InvHolds(c, trace, i);
    CommitQuorumsAgree(c, trace[i], h, r1, d1, r2, d2);
  }

  lemma CommitQuorumsAgree(c: Committee, w: Swarm, h: nat, r1: nat, d1: Hash, r2: nat, d2: Hash)
    requires Inv(c, w) && FallThroughsUnprepared(w, h, Min(r1, r2))
    requires CommitQuorum(c, w.signed, h, r1, d1) && CommitQuorum(c, w.signed, h, r2, d2)
    ensures d1.HeaderHash? && d2.HeaderHash? && CoreOf(d1) == CoreOf(d2)
    decreases r1 > r2
  {
    CommitQuorumHasPrepareQuorum(c, w, h, r1, d1);
    CommitQuorumHasPrepareQuorum(c, w, h, r2, d2);
    if r1 == r2 {
      PrepareQuorumIsUnique(c, w, h, r1, d1, d2);
    } else if r1 > r2 {
      CommitQuorumsAgree(c, w, h, r2, d2, r1, d1);
    } else {
      var x := PreparedWasAccepted(c, w, h, r2, d2);
      NoFallThroughAfterCommit(c, w, h, r1, d1);
      LaterAcceptanceAgrees(c, w, h, r1, d1, x);
    }
  }

  lemma NoFallThroughAfterCommit(c: Committee, w: Swarm, h: nat, r: nat, d: Hash)
    requires Inv(c, w) && FallThroughsUnprepared(w, h, r)
    requires CommitQuorum(c, w.signed, h, r, d) && d.HeaderHash?
    ensures LaterFallThroughsAgree(w, h, r, d)
  {
    forall x | x in w.acceptances && x.chain.Height() == h && RoundOf(x) > r ensures !FellThrough(x) {
      var rc := LaterProposalsNamePrepared(c, w, h, r, d, x);
    }
  }

  // ---- Chain heads ----------------------------------------------------------------

  /** Every block accepted at height `h` carries the round of its proposal. */
  ghost predicate BlocksLabelled(w: Swarm, h: nat) {
    forall x :: x in w.acceptances && x.chain.Height() == h ==> x.proposal.block.header.roundNumber == RoundOf(x)
  }

  /** A seal by an honest validator comes with its commit to that block. */
  lemma SealWasCommit(c: Committee, w: Swarm, block: Block, a: Address) returns (r: nat, d: Hash)
    requires Inv(c, w)
    requires a in c.honest && Signature(a, OfHash(SealHash(block))) in w.signed
    ensures CommitSig(a, block.header.height, r, d) in w.signed
    ensures d.HeaderHash? && SealedHash(d) == SealHash(block)
  {
    var u := SealHasCommit(c, w, block, a);
    assert SigOk(c, w.signed, w.acceptances, w.nodes[a], Signature(a, OfCommit(u)));
    r, d := u.round, u.digest;
    assert SealSig(a, d) == Signature(a, OfHash(SealHash(block)));
    assert d.header.(commitSeals := []) == block.header.(commitSeals := []);
  }

  lemma SealHasCommit(c: Committee, w: Swarm, block: Block, a: Address) returns (u: UnsignedCommit)
    requires Inv(c, w)
    requires a in c.honest && Signature(a, OfHash(SealHash(block))) in w.signed
    ensures Signature(a, OfCommit(u)) in w.signed && u.commitSeal == Signature(a, OfHash(SealHash(block)))
  {
    var sig := Signature(a, OfHash(SealHash(block)));
    assert SigOk(c, w.signed, w.acceptances, w.nodes[a], sig);
    u :| Signature(a, OfCommit(u)) in w.signed && u.commitSeal == sig;
  }

  /** The acceptance behind an honest seal, and the digest and round it was given in. */
  lemma SealWasAccepted(c: Committee, w: Swarm, block: Block, a: Address) returns (r: nat, d: Hash, x: Acceptance)
    requires Inv(c, w)
    requires a in c.honest && Signature(a, OfHash(SealHash(block))) in w.signed
    ensures CommitSig(a, block.header.height, r, d) in w.signed
    ensures d.HeaderHash? && SealedHash(d) == SealHash(block) && d.header.roundNumber == block.header.roundNumber
    ensures x in w.acceptances && x.chain.Height() == block.header.height && RoundOf(x) == r
    ensures Digest(x.proposal.block) == d
  {
    r, d := SealWasCommit(c, w, block, a);
    CommitHasPrepareQuorum(c, w, a, block.header.height, r, d);
    x :| x in w.acceptances && x.node == a && x.chain.Height() == block.header.height
      && RoundOf(x) == r && Digest(x.proposal.block) == d;
    assert d.header.(commitSeals := []) == block.header.(commitSeals := []);
  }

  /** All honest seals of the block were given in the round its header names. */
  ghost predicate SealedInItsRound(c: Committee, w: Swarm, block: Block) {
    forall a :: a in c.honest && Signature(a, OfHash(SealHash(block))) in w.signed ==> SealedInRound(w, block, a)
  }

  ghost predicate SealedInRound(w: Swarm, block: Block, a: Address) {
    exists d :: CommitSig(a, block.header.height, block.header.roundNumber, d) in w.signed
                && d.HeaderHash? && SealedHash(d) == SealHash(block)
  }

  /** Then they make a commit quorum in that round. */
  lemma SealedWasCommitted(c: Committee, w: Swarm, block: Block) returns (d: Hash)
    requires Inv(c, w) && Sealed(c, w.signed, block) && SealedInItsRound(c, w, block)
    ensures CommitQuorum(c, w.signed, block.header.height, block.header.roundNumber, d)
    ensures d.HeaderHash? && SealedHash(d) == SealHash(block)
  {
    var h, r := block.header.height, block.header.roundNumber;
    QuorumBounds(|c.validators|);
    var a := HonestAmong(c, Sealers(c, w.signed, block));
    assert SealedInRound(w, block, a);
    d :| CommitSig(a, h, r, d) in w.signed && d.HeaderHash? && SealedHash(d) == SealHash(block);
    CommitHasPrepareQuorum(c, w, a, h, r, d);
    forall b | b in Sealers(c, w.signed, block) ensures b in CommitVoters(c, w.signed, h, r, d) {
      if b in c.honest {
        SealerCommitted(c, w, block, b, d);
      }
    }
    SubsetCardinality(Sealers(c, w.signed, block), CommitVoters(c, w.signed, h, r, d));
  }

  lemma SealerCommitted(c: Committee, w: Swarm, block: Block, b: Address, d: Hash)
    requires Inv(c, w) && b in c.honest && SealedInRound(w, block, b)
    requires PrepareQuorum(c, w.signed, block.header.height, block.header.roundNumber, d)
    ensures CommitSig(b, block.header.height, block.header.roundNumber, d) in w.signed
  {
    var h, r := block.header.height, block.header.roundNumber;
    var e :| CommitSig(b, h, r, e) in w.signed && e.HeaderHash? && SealedHash(e) == SealHash(block);
    CommitHasPrepareQuorum(c, w, b, h, r, e);
    PrepareQuorumIsUnique(c, w, h, r, d, e);
  }

  /** A label other than the round of the proposal can only come from the prepared branch. */
  lemma MislabelledIsPrepared(c: Committee, w: Swarm, x: Acceptance)
    requires Inv(c, w) && x in w.acceptances && x.proposal.block.header.roundNumber != RoundOf(x)
    ensures RoundOf(x) > 0 && PreparedRoundOf(x).Some?
  {
    assert AcceptanceOk(c, w.signed, x);
  }

  /** In every run an accepted block carries the round of its proposal, or was accepted
      through the prepared branch; and above round 0 the proposal would have been justified
      just as well under another label exactly when that branch was taken. */
  lemma AcceptedLabels(c: Committee, trace: seq<Swarm>, i: nat, x: Acceptance, b: Block)
    requires Run(c, trace) && i < |trace| && x in trace[i].acceptances && Core(b) == Core(x.proposal.block)
    ensures x.proposal.block.header.roundNumber != RoundOf(x) ==> RoundOf(x) > 0 && PreparedRoundOf(x).Some?
    ensures RoundOf(x) > 0 ==>
              (JustifiedAs(x, b) <==>
               || PreparedRoundOf(x).Some?
               || (b.header.roundNumber == RoundOf(x) && b.header.proposer == Proposer(RoundOf(x), x.chain)))
  {
    InvHolds(c, trace, i);
    if x.proposal.block.header.roundNumber != RoundOf(x) {
      MislabelledIsPrepared(c, trace[i], x);
    }
    if RoundOf(x) > 0 {
      AcceptedIsJustified(c, trace[i], x);
      LabelIff(x.proposal.roundChanges, x.proposal.prepares, RoundOf(x), x.proposal.block, b, x.chain);
    }
  }

  /** What was accepted would be justified with `b` for its block. */
  predicate JustifiedAs(x: Acceptance, b: Block) {
    IsProposalJustification(x.proposal.roundChanges, x.proposal.prepares, [b], RoundOf(x), b, x.chain)
  }

  lemma AcceptedIsJustified(c: Committee, w: Swarm, x: Acceptance)
    requires Inv(c, w) && x in w.acceptances && RoundOf(x) > 0
    ensures JustifiedAs(x, x.proposal.block)
  {
    assert AcceptanceOk(c, w.signed, x);
  }

  /** Acceptance through the prepared branch rests on a commit quorum in the prepared round:
      an honest validator announces only what it committed. */
  lemma PreparedWasCommitted(c: Committee, w: Swarm, x: Acceptance)
    requires Inv(c, w) && x in w.acceptances && RoundOf(x) > 0 && PreparedRoundOf(x).Some?
    ensures var pr := PreparedRoundOf(x).value;
            pr < RoundOf(x) && CommitQuorum(c, w.signed, x.chain.Height(), pr, PreparedDigest(x, pr))
  {
    var pr := PreparedRoundOf(x).value;
    PreparedBranchSound(c, w, x);
    AnnouncersCommitted(c, w, x.chain.Height(), RoundOf(x), PreparedDigest(x, pr), pr);
  }

  lemma AnnouncersCommitted(c: Committee, w: Swarm, h: nat, r: nat, d: Hash, pr: nat)
    requires Inv(c, w) && |RoundChangeVoters(c, w.signed, h, r, d, pr)| >= c.QuorumSize()
    ensures CommitQuorum(c, w.signed, h, pr, d)
  {
    forall a | a in RoundChangeVoters(c, w.signed, h, r, d, pr) ensures a in CommitVoters(c, w.signed, h, pr, d) {
      if a in c.honest {
        AnnouncerCommitted(c, w, a, h, r, d, pr);
      }
    }
    SubsetCardinality(RoundChangeVoters(c, w.signed, h, r, d, pr), CommitVoters(c, w.signed, h, pr, d));
  }

  lemma AnnouncerCommitted(c: Committee, w: Swarm, a: Address, h: nat, r: nat, d: Hash, pr: nat)
    requires Inv(c, w) && a in c.honest && RoundChangeSig(a, h, r, d, pr) in w.signed
    ensures CommitSig(a, h, pr, d) in w.signed
  {
    assert SigOk(c, w.signed, w.acceptances, w.nodes[a], RoundChangeSig(a, h, r, d, pr));
  }

  /** A header without its label and seals. */
  function Content(block: Block): (h: BlockHeader) {
    block.header.(roundNumber := 0, proposer := ZERO_ADDRESS, commitSeals := [])
  }

  /** Every sealed block has, in some round, a commit quorum for its content: in the round
      its header names or, when an honest sealer took it under another label, in the round
      it had been prepared in. */
  lemma SealedHasCommitQuorum(c: Committee, w: Swarm, block: Block) returns (r: nat, d: Hash)
    requires Inv(c, w) && Sealed(c, w.signed, block)
    ensures CommitQuorum(c, w.signed, block.header.height, r, d)
    ensures d.HeaderHash? && CoreOf(d).(commitSeals := []) == Content(block)
  {
    if SealedInItsRound(c, w, block) {
      r := block.header.roundNumber;
      d := SealedWasCommitted(c, w, block);
      SealedContent(block, d);
    } else {
      var a :| a in c.honest && Signature(a, OfHash(SealHash(block))) in w.signed && !SealedInRound(w, block, a);
      r, d := OddSealHasCommitQuorum(c, w, block, a);
    }
  }

  lemma OddSealHasCommitQuorum(c: Committee, w: Swarm, block: Block, a: Address) returns (r: nat, d: Hash)
    requires Inv(c, w) && a in c.honest && Signature(a, OfHash(SealHash(block))) in w.signed
    requires !SealedInRound(w, block, a)
    ensures CommitQuorum(c, w.signed, block.header.height, r, d)
    ensures d.HeaderHash? && CoreOf(d).(commitSeals := []) == Content(block)
  {
    var ra, da, x := SealWasAccepted(c, w, block, a);
    MislabelledIsPrepared(c, w, x);
    PreparedWasCommitted(c, w, x);
    r := PreparedRoundOf(x).value;
    d := PreparedDigest(x, r);
    CoreOfRelabel(x.proposal.block, r, x.chain);
    SealedContent(block, da);
  }

  lemma LabelledIsSealedInItsRound(c: Committee, w: Swarm, block: Block)
    requires Inv(c, w) && BlocksLabelled(w, block.header.height)
    ensures SealedInItsRound(c, w, block)
  {
    forall a | a in c.honest && Signature(a, OfHash(SealHash(block))) in w.signed
      ensures SealedInRound(w, block, a)
    {
      var r, d, x := SealWasAccepted(c, w, block, a);
    }
  }

  /** Honest heads of one height agree, whenever the two nodes had them: but for seals and
      label if the height's fall-through acceptances kept to the documented rule, and but
      for seals if the two are of one round and accepted blocks were labelled with their
      round. */
  lemma HeadsAgree(c: Committee, trace: seq<Swarm>, i: nat, a: Address, j: nat, b: Address)
    requires Run(c, trace) && i < |trace| && j < |trace|
    requires a in trace[i].nodes && b in trace[j].nodes
    requires trace[i].nodes[a].chain.head != c.genesis && trace[j].nodes[b].chain.head != c.genesis
    requires trace[i].nodes[a].Height() == trace[j].nodes[b].Height()
    ensures var x, y, w := trace[i].nodes[a].chain.head, trace[j].nodes[b].chain.head, trace[Max(i, j)];
            && (FallThroughsUnprepared(w, x.header.height, 0) ==> Content(x) == Content(y))
            && (BlocksLabelled(w, x.header.height) && x.header.roundNumber == y.header.roundNumber
                ==> SealHash(x) == SealHash(y))
  {
    var x, y := trace[i].nodes[a].chain.head, trace[j].nodes[b].chain.head;
    var k := Max(i, j);
    HeadStaysSealed(c, trace, i, a, k);
    HeadStaysSealed(c, trace, j, b, k);
    assert x.header.height == y.header.height;
    SealedInRunAgree(c, trace, k, x, y);
  }

  lemma SealedInRunAgree(c: Committee, trace: seq<Swarm>, k: nat, x: Block, y: Block)
    requires Run(c, trace) && k < |trace|
    requires Sealed(c, trace[k].signed, x) && Sealed(c, trace[k].signed, y) && x.header.height == y.header.height
    ensures FallThroughsUnprepared(trace[k], x.header.height, 0) ==> Content(x) == Content(y)
    ensures BlocksLabelled(trace[k], x.header.height) && x.header.roundNumber == y.header.roundNumber
            ==> SealHash(x) == SealHash(y)
  {
    InvHolds(c, trace, k);
    SealedBlocksAgree(c, trace[k], x, y);
  }

  lemma HeadStaysSealed(c: Committee, trace: seq<Swarm>, i: nat, a: Address, k: nat)
    requires Run(c, trace) && i <= k < |trace| && a in trace[i].nodes && trace[i].nodes[a].chain.head != c.genesis
    ensures Sealed(c, trace[k].signed, trace[i].nodes[a].chain.head)
  {
    HeadsAreSealed(c, trace, i, a);
    RunsOnlyAddSignatures(c, trace);
    SignedGrows(trace, i, k);
    SealedMonotone(c, trace[i].signed, trace[k].signed, trace[i].nodes[a].chain.head);
  }

  lemma HeadsAreSealed(c: Committee, trace: seq<Swarm>, i: nat, a: Address)
    requires Run(c, trace) && i < |trace| && a in trace[i].nodes && trace[i].nodes[a].chain.head != c.genesis
    ensures Sealed(c, trace[i].signed, trace[i].nodes[a].chain.head)
  {
    InvHolds(c, trace, i);
    assert HeadOk(c, trace[i].signed, trace[i].nodes[a].chain.head);
  }

  /** Signatures are only ever added. */
  ghost predicate SignedOnlyGrows(trace: seq<Swarm>) {
    forall i :: 0 <= i < |trace| - 1 ==> trace[i].signed <= trace[i + 1].signed
  }

  lemma RunsOnlyAddSignatures(c: Committee, trace: seq<Swarm>)
    requires Run(c, trace)
    ensures SignedOnlyGrows(trace)
  {
    forall i | 0 <= i < |trace| - 1 ensures trace[i].signed <= trace[i + 1].signed {
      StepAddsSignatures(c, trace[i], trace[i + 1]);
    }
  }

  lemma StepAddsSignatures(c: Committee, w: Swarm, w': Swarm)
    requires Next(c, w, w')
    ensures w.signed <= w'.signed
  {
  }

  lemma {:induction false} SignedGrows(trace: seq<Swarm>, i: nat, k: nat)
    requires SignedOnlyGrows(trace) && i <= k < |trace|
    ensures trace[i].signed <= trace[k].signed
    decreases k
  {
    if i < k {
      SignedGrows(trace, i, k - 1);
      assert trace[k - 1].signed <= trace[k - 1 + 1].signed;
    }
  }

  lemma SealedBlocksAgree(c: Committee, w: Swarm, x: Block, y: Block)
    requires Inv(c, w) && Sealed(c, w.signed, x) && Sealed(c, w.signed, y) && x.header.height == y.header.height
    ensures FallThroughsUnprepared(w, x.header.height, 0) ==> Content(x) == Content(y)
    ensures BlocksLabelled(w, x.header.height) && x.header.roundNumber == y.header.roundNumber
            ==> SealHash(x) == SealHash(y)
  {
    if FallThroughsUnprepared(w, x.header.height, 0) {
      var rx, dx := SealedHasCommitQuorum(c, w, x);
      var ry, dy := SealedHasCommitQuorum(c, w, y);
      CommitQuorumsAgree(c, w, x.header.height, rx, dx, ry, dy);
    }
    if BlocksLabelled(w, x.header.height) && x.header.roundNumber == y.header.roundNumber {
      SameLabelSameBlock(c, w, x, y);
    }
  }

  lemma SameLabelSameBlock(c: Committee, w: Swarm, x: Block, y: Block)
    requires Inv(c, w) && Sealed(c, w.signed, x) && Sealed(c, w.signed, y) && BlocksLabelled(w, x.header.height)
    requires x.header.height == y.header.height && x.header.roundNumber == y.header.roundNumber
    ensures SealHash(x) == SealHash(y)
  {
    LabelledIsSealedInItsRound(c, w, x);
    LabelledIsSealedInItsRound(c, w, y);
    var dx := SealedWasCommitted(c, w, x);
    var dy := SealedWasCommitted(c, w, y);
    var h, r := x.header.height, x.header.roundNumber;
    CommitQuorumHasPrepareQuorum(c, w, h, r, dx);
    CommitQuorumHasPrepareQuorum(c, w, h, r, dy);
    PrepareQuorumIsUnique(c, w, h, r, dx, dy);
  }

  lemma SealedContent(block: Block, d: Hash)
    requires d.HeaderHash? && SealedHash(d) == SealHash(block)
    ensures Content(block) == CoreOf(d).(commitSeals := [])
  {
    assert d.header.(commitSeals := []) == block.header.(commitSeals := []);
    assert Content(block) == block.header.(commitSeals := []).(roundNumber := 0, proposer := ZERO_ADDRESS);
  }

  // ---- Progress of one node -------------------------------------------------------

  /** Height, then round, then whether a proposal was accepted. */
  ghost predicate NoLater(s: NodeState, s': NodeState) {
    || s.Height() < s'.Height()
    || (s.Height() == s'.Height()
        && (s.round < s'.round || (s.round == s'.round && (s.accepted.Some? ==> s'.accepted.Some?))))
  }

  ghost predicate Later(s: NodeState, s': NodeState) {
    || s.Height() < s'.Height()
    || (s.Height() == s'.Height()
        && (s.round < s'.round || (s.round == s'.round && s.accepted.None? && s'.accepted.Some?)))
  }

  /** In every run a step never moves an honest node back, and a step in which it sends a
      prepare moves it strictly forward. */
  lemma StepsGoForward(c: Committee, trace: seq<Swarm>, i: nat, a: Address, time: nat, bypass: bool)
    requires Run(c, trace) && i + 1 < |trace| && a in c.honest && a in trace[i].nodes
    requires trace[i + 1] == AfterTick(trace[i], a, time, bypass)
    ensures a in trace[i + 1].nodes
    ensures NoLater(trace[i].nodes[a], trace[i + 1].nodes[a])
    ensures (exists m :: m in Sent(NodeNext(trace[i].nodes[a], time)) && m.PrepareMessage?)
            ==> Later(trace[i].nodes[a], trace[i + 1].nodes[a])
  {
    InvHolds(c, trace, i);
    var w := trace[i];
    var s := w.nodes[a].(time := time);
    ActorOk(c, w, a, s);
    var o := NextSubStep(s);
    var e := SubStepEffect(s);
    PushAllFrame(o.state, Sent(o));
    EventGoesForward(c, w.signed, w.acceptances, s, o.state, e);
  }

  lemma EventGoesForward(
    c: Committee, signed: set<Signature>, accs: set<Acceptance>, s: NodeState, s': NodeState, e: Event)
    requires NodeOk(c, signed, accs, s)
    requires Enabled(s, e) && Lands(s, s', e)
    ensures NoLater(s, s')
    ensures (exists m :: m in Output(s, e) && m.PrepareMessage?) ==> Later(s, s')
  {
    if e.Joins? {
      JoinedRoundIsLater(s, e.roundChanges);
    }
  }
}
