/** Finalised blocks and the seals that certify them. */
module Certificates {
  import opened Prelude
  import opened Types
  import opened Validators
  import opened Protocol
  import opened Swarm
  import opened Effects
  import opened Invariant
  import opened Preservation

  /** The authors of the seals inside the commits. */
  function SealersIn(commits: seq<SignedCommit>): (s: set<Address>) {
    set v | v in commits :: v.unsigned.commitSeal.author
  }

  /** The commit carries a validator's seal of this very block. */
  predicate SealsBlock(v: SignedCommit, block: Block, validators: seq<Address>) {
    && v.unsigned.commitSeal.author in validators
    && v.unsigned.commitSeal.Verifies(OfHash(SealHash(block)))
  }

  /** The loop over the seals. */
  method CheckSeals(block: Block, validators: seq<Address>) returns (ok: bool)
    ensures ok == SealsValid(block, validators)
  {
    ok := true;
    var seals := block.header.commitSeals;
    for i := 0 to |seals|
      invariant ok == forall seal :: seal in seals[..i] ==>
                        seal.author in validators && seal.Verifies(OfHash(SealHash(block)))
    {
      assert seals[..i + 1] == seals[..i] + [seals[i]];
      var isValidator := seals[i].author in validators;
      var sigOk := seals[i].Verifies(OfHash(SealHash(block)));
      if !isValidator || !sigOk {
        ok := false;
      }
    }
    assert seals[..|seals|] == seals;
  }

  /** The whole check of a new block, as the code runs it. */
  method CheckNewBlock(chain: Chain, nb: SignedNewBlock) returns (ok: bool)
    ensures ok == ValidNewBlock(chain, nb)
  {
    var block := nb.block;
    if nb.unsigned.height != block.header.height { return false; }
    if nb.unsigned.round != block.header.roundNumber { return false; }
    if nb.unsigned.digest != Digest(block) { return false; }
    var heightOk := block.header.height >= chain.Height();
    var bodyDigestOk := block.ValidDigest();
    var uniqueSeals := |SealAuthors(block)|;
    var sealsOk := CheckSeals(block, chain.Validators());
    ok := heightOk && bodyDigestOk && uniqueSeals >= Quorum(|chain.Validators()|) && sealsOk;
  }

  lemma SealedBlockKeepsHash(block: Block, commits: seq<SignedCommit>)
    ensures SealHash(SealedBlock(block, commits)) == SealHash(block)
    ensures SealAuthors(SealedBlock(block, commits)) == SealersIn(commits)
  {
    var sealed := SealedBlock(block, commits);
    assert sealed.header.(commitSeals := []) == block.header.(commitSeals := []);
    forall a ensures a in SealAuthors(sealed) <==> a in SealersIn(commits) {
      if a in SealAuthors(sealed) {
        var seal :| seal in CommitSeals(commits) && seal.author == a;
      }
      if a in SealersIn(commits) {
        var v :| v in commits && v.unsigned.commitSeal.author == a;
        assert v.unsigned.commitSeal in CommitSeals(commits);
      }
    }
  }

  /** Exactly when the block a leader seals is valid for a node: the leader does not check
      the seals it collects, so one bad seal among the commits spoils the block. */
  lemma SealedBlockValidIff(block: Block, commits: seq<SignedCommit>, id: Address, chain: Chain)
    ensures ValidNewBlock(chain, SignNewBlock(SealedBlock(block, commits), id)) <==>
            && block.header.height >= chain.Height()
            && block.ValidDigest()
            && |SealersIn(commits)| >= Quorum(|chain.Validators()|)
            && forall v :: v in commits ==> SealsBlock(v, block, chain.Validators())
  {
    var sealed := SealedBlock(block, commits);
    SealedBlockKeepsHash(block, commits);
    if SealsValid(sealed, chain.Validators()) {
      forall v | v in commits ensures SealsBlock(v, block, chain.Validators()) {
        assert v.unsigned.commitSeal in sealed.header.commitSeals;
      }
    }
  }

  lemma HonestCommitSealsBlock(c: Committee, w: Swarm, s: NodeState, block: Block, v: SignedCommit)
    requires Inv(c, w) && NodeOk(c, w.signed, w.acceptances, s)
    requires CommitMessage(v) in s.messages && v.signature.author in c.honest
    requires v.unsigned.digest == Digest(block)
    ensures SealsBlock(v, block, c.validators)
    ensures v.unsigned.commitSeal.author == v.signature.author
  {
    assert Genuine(c, w.signed, CommitMessage(v));
    assert SigOk(c, w.signed, w.acceptances, w.nodes[v.signature.author], v.signature);
  }

  /** In every run, a block that an honest leader finalises from commits of honest
      validators is valid for every node with this validator set that is not past it. */
  lemma CommitsCertify(c: Committee, trace: seq<Swarm>, i: nat, a: Address, time: nat, nb: SignedNewBlock, chain: Chain)
    requires Run(c, trace) && i < |trace| && a in trace[i].nodes
    requires NodeNext(trace[i].nodes[a], time).sent == Some([NewBlockMessage(nb)])
    requires trace[i].nodes[a].accepted.Some? ==>
               forall v :: v in CountedCommits(trace[i].nodes[a]) ==> v.signature.author in c.honest
    requires chain.Validators() == c.validators && nb.block.header.height >= chain.Height()
    ensures ValidNewBlock(chain, nb)
  {
    InvHolds(c, trace, i);
    var w := trace[i];
    var s := w.nodes[a].(time := time);
    ActorOk(c, w, a, s);
    var e := SubStepEffect(s);
    SoleNewBlockIsFinal(s, e, nb);
    var commits := e.commits;
    assert commits == CountedCommits(w.nodes[a]);
    forall v | v in commits
      ensures SealsBlock(v, e.block, c.validators) && v.unsigned.commitSeal.author == v.signature.author
    {
      HonestCommitSealsBlock(c, w, s, e.block, v);
    }
    SendersAreSealers(commits);
    SealedBlockValidIff(e.block, commits, a, chain);
  }

  /** The commits a node counts for the proposal it accepted. */
  function CountedCommits(s: NodeState): (r: seq<SignedCommit>)
    requires s.accepted.Some?
  {
    CommitsFor(s.Height(), s.round, Digest(s.accepted.value.block), s.Visible())
  }

  lemma SendersAreSealers(commits: seq<SignedCommit>)
    requires forall v :: v in commits ==> v.unsigned.commitSeal.author == v.signature.author
    ensures CommitSenders(commits) == SealersIn(commits)
  {
    forall a ensures a in CommitSenders(commits) <==> a in SealersIn(commits) {
      if a in CommitSenders(commits) {
        var v :| v in commits && v.signature.author == a;
        assert v.unsigned.commitSeal.author in SealersIn(commits);
      }
      if a in SealersIn(commits) {
        var v :| v in commits && v.unsigned.commitSeal.author == a;
        assert v.signature.author in CommitSenders(commits);
      }
    }
  }

  lemma SoleNewBlockIsFinal(s: NodeState, e: Event, nb: SignedNewBlock)
    requires Enabled(s, e) && Output(s, e) == [NewBlockMessage(nb)]
    ensures e.Finalises? && nb == SignNewBlock(SealedBlock(e.block, e.commits), s.id)
  {
    assert Output(s, e)[0] == NewBlockMessage(nb);
  }
}
