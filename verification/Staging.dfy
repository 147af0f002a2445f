/** Runs built step by step, from sketches of what each node knows. */
module Staging {
  import opened Prelude
  import opened Types
  import opened Validators
  import opened Justification
  import opened Store
  import opened Protocol
  import opened Swarm
  import opened Preservation
  import opened Leader
  import opened Rules
  import Deferral

  /** The committee of a run, at its first height, and the configuration of its nodes. */
  datatype Setting = Setting(committee: Committee, config: Config) {
    function Start(): Chain {
      Chain([], committee.genesis, None)
    }

    function Height(): nat {
      Start().Height()
    }

    function Validators(): seq<Address> {
      Start().Validators()
    }

    /** An expired timer may lead to a new round. */
    predicate TimesOut() {
      config.roundChangeOnFirstBlock || Height() != 1
    }
  }

  // ---- Messages -------------------------------------------------------------------

  function PrepareOf(g: Setting, r: nat, block: Block, a: Address): (m: Message) {
    PrepareMessage(SignPrepare(UnsignedPrepare(g.Height(), r, Digest(block)), a))
  }

  function CommitOf(g: Setting, r: nat, block: Block, a: Address): (m: Message) {
    CommitMessage(SignCommit(UnsignedCommit(g.Height(), r, Sign(a, OfHash(SealHash(block))), Digest(block)), a))
  }

  /** The leader's proposal for round 0. */
  function ProposalOf(g: Setting, block: Block, a: Address): (p: Proposal) {
    Proposal(SignProposal(UnsignedProposal(g.Height(), 0, Digest(block)), a), block, [], [])
  }

  /** A change to round 1 with nothing prepared. */
  function BareChange(g: Setting, a: Address): (rc: RoundChange) {
    RoundChange(SignRoundChange(UnsignedRoundChange(g.Height(), 1, None, None), a), [], None)
  }

  predicate Admits(g: Setting, m: Message) {
    m.Height() == g.Height() && !m.NewBlockMessage? && Admissible(m, g.Start())
  }

  lemma AdmitsOnHead(g: Setting, m: Message, chain: Chain)
    requires Admits(g, m) && chain.head == g.committee.genesis
    ensures Admissible(m, chain)
  {
  }

  /** No other message of `ms` has its key. */
  ghost predicate Alone(ms: set<Message>, m: Message) {
    forall m' :: m' in ms && m'.SortKey() == m.SortKey() ==> m' == m
  }

  /** Messages that can all be stored together. */
  ghost predicate Clean(g: Setting, ms: set<Message>) {
    forall m :: m in ms ==> Admits(g, m) && Alone(ms, m)
  }

  lemma CleanSubset(g: Setting, ms: set<Message>, all: set<Message>)
    requires ms <= all && Clean(g, all)
    ensures Clean(g, ms)
  {
    forall m | m in ms ensures Admits(g, m) && Alone(ms, m) {
      assert m in all;
    }
  }

  lemma CleanAdd(g: Setting, ms: set<Message>, m: Message)
    requires Clean(g, ms) && Admits(g, m) && Alone(ms, m)
    ensures Clean(g, ms + {m})
  {
  }

  // ---- What a node knows ----------------------------------------------------------

  /** The parts of a node's state that matter, at the first height. */
  datatype Sketch = Sketch(
    id: Address,
    proposed: Option<Block>,
    round: nat,
    accepted: Option<Proposal>,
    preparedBlock: Option<Block>,
    preparedRound: Option<nat>,
    known: set<Message>)
  {
    function Hears(incoming: seq<Message>): Sketch {
      this.(known := known + Elements(incoming))
    }

    function Adds(m: Message): Sketch {
      this.(known := known + {m})
    }
  }

  function Blank(id: Address, proposed: Option<Block>): (k: Sketch) {
    Sketch(id, proposed, 0, None, None, None, {})
  }

  ghost predicate Fits(g: Setting, s: NodeState, k: Sketch) {
    && s.id == k.id && s.id in g.Validators() && s.config == g.config
    && s.chain.head == g.committee.genesis && s.chain.proposed == k.proposed
    && s.round == k.round && s.accepted == k.accepted
    && s.preparedBlock == k.preparedBlock && s.preparedRound == k.preparedRound
    && Sorted(s.messages) && Elements(s.messages) == k.known
  }

  lemma Stored(g: Setting, s: NodeState, k: Sketch)
    requires Fits(g, s, k)
    ensures forall m :: m in s.messages <==> m in k.known
    ensures s.Height() == g.Height() && s.Validators() == g.Validators()
    ensures forall r :: Proposer(r, s.chain) == Proposer(r, g.Start())
  {
    assert forall m :: m in s.messages <==> m in Elements(s.messages);
  }

  lemma ReceiveClean(g: Setting, ms: seq<Message>, incoming: seq<Message>, chain: Chain)
    requires Clean(g, Elements(ms) + Elements(incoming)) && Sorted(ms) && chain.head == g.committee.genesis
    ensures Sorted(Receive(ms, incoming, chain))
    ensures Elements(Receive(ms, incoming, chain)) == Elements(ms) + Elements(incoming)
  {
    var r, all := Receive(ms, incoming, chain), Elements(ms) + Elements(incoming);
    ReceiveKeepsSorted(ms, incoming, chain);
    forall m | m in incoming ensures m in r {
      assert m in all;
      AdmitsOnHead(g, m, chain);
      var m' :| m' in r && m'.SortKey() == m.SortKey();
      assert m' in all && Alone(all, m);
    }
  }

  /** The round timer and the progress marker are the same. */
  predicate SameTimers(s: NodeState, s': NodeState) {
    && s'.roundStart == s.roundStart && s'.progressTime == s.progressTime
    && s'.progressPrepares == s.progressPrepares && s'.progressCommits == s.progressCommits
  }

  /** Receiving adds to what a node knows and brings it all into view. */
  lemma Learn(g: Setting, s: NodeState, k: Sketch, incoming: seq<Message>, t: nat, s': NodeState)
    requires Fits(g, s, k) && Clean(g, k.known + Elements(incoming)) && s' == AddMessages(s, incoming, t)
    ensures Fits(g, s', k.Hears(incoming)) && Plain(s') && s'.time == t && SameTimers(s, s')
  {
    ReceiveClean(g, s.messages, incoming, s.chain);
    var s1 := s.(time := t, messages := Receive(s.messages, incoming, s.chain));
    forall m | m in s1.messages ensures m.Height() == s1.Height() && !m.NewBlockMessage? {
      assert m in Elements(s1.messages);
    }
    TidyKeepsAll(s1);
  }

  lemma TidyKeepsAll(s: NodeState)
    requires s.id in s.Validators() && forall m :: m in s.messages ==> m.Height() == s.Height() && !m.NewBlockMessage?
    ensures var s' := Tidied(s);
            && Plain(s') && s' == s.(chain := s'.chain, firstFuture := s'.firstFuture)
            && s'.chain.head == s.chain.head && s'.chain.proposed == s.chain.proposed
  {
    PruneOneHeight(s);
    AllInView(s, Tidied(s));
  }

  lemma AllInView(s: NodeState, s': NodeState)
    requires s.id in s.Validators() && forall m :: m in s.messages ==> !m.NewBlockMessage?
    requires s' == s.(firstFuture := |s.messages|, chain := s.chain.Prune())
    ensures Plain(s') && s' == s.(chain := s'.chain, firstFuture := s'.firstFuture)
    ensures s'.chain.head == s.chain.head && s'.chain.proposed == s.chain.proposed
  {
    assert s'.Visible() == s.messages;
  }

  /** A new message of its own adds to what a node knows. */
  lemma Remember(g: Setting, s: NodeState, k: Sketch, m: Message)
    requires Fits(g, s, k) && Clean(g, k.known + {m})
    ensures Fits(g, s.Push(m), k.Adds(m))
  {
    InsertKeepsSorted(s.messages, m);
    if HasKey(s.messages, m.SortKey()) {
      var m' :| m' in s.messages && m'.SortKey() == m.SortKey();
      assert m' in k.known + {m} && m in k.known + {m} && Alone(k.known + {m}, m);
    }
  }

  // ---- Steps of one node ----------------------------------------------------------

  /** The leader of round 0 proposes. */
  lemma Proposes(g: Setting, s: NodeState, k: Sketch, block: Block)
    requires Fits(g, s, k) && Plain(s) && k == Blank(k.id, Some(block)) && Proposer(0, g.Start()) == k.id
    requires s.time >= s.NextBlockTimeout() && block.header.roundNumber == 0
    ensures var o, p := NextSubStep(s), ProposalOf(g, block, k.id);
            && Sent(o) == [ProposalMessage(p), PrepareOf(g, 0, block, k.id)]
            && Fits(g, o.state, k.(accepted := Some(p)))
  {
    NoNewBlock(s);
    assert ReplaceRound(block, 0) == block;
  }

  /** All proposals of the sketch's round are `p`. */
  ghost predicate OnlyProposal(k: Sketch, p: Proposal) {
    && ProposalMessage(p) in k.known && p.payload.unsigned.round == k.round
    && forall m :: m in k.known && m.ProposalMessage? && m.Round() == k.round ==> m == ProposalMessage(p)
  }

  /** A node without a proposal takes the one of its round. */
  lemma Accepts(g: Setting, s: NodeState, k: Sketch, p: Proposal)
    requires Fits(g, s, k) && Plain(s) && k.accepted.None? && (k.round > 0 || Proposer(0, g.Start()) != k.id)
    requires OnlyProposal(k, p) && ProposalChecks(p, g.Start())
    requires Clean(g, k.known + {PrepareOf(g, k.round, p.block, k.id)})
    ensures var o, m := NextSubStep(s), PrepareOf(g, k.round, p.block, k.id);
            Sent(o) == [m] && Fits(g, o.state, k.(accepted := Some(p)).Adds(m))
  {
    Stored(g, s, k);
    ChecksOfHead(p, g.Start(), s.chain);
    Accepting(s, p);
    Remember(g, s.(accepted := Some(p)), k.(accepted := Some(p)), PrepareOf(g, k.round, p.block, k.id));
  }

  lemma {:induction false} SendersAtMost(ps: seq<SignedPrepare>)
    ensures |PrepareSenders(ps)| <= |ps|
  {
    if ps == [] {
      assert PrepareSenders(ps) == {};
    } else {
      var front, last := ps[..|ps| - 1], ps[|ps| - 1];
      SendersAtMost(front);
      assert ps == front + [last];
      assert PrepareSenders(ps) == PrepareSenders(front) + {last.signature.author};
    }
  }

  /** The sketch has prepares for the block by all of `voters`. */
  ghost predicate PreparedBy(g: Setting, k: Sketch, block: Block, voters: set<Address>) {
    forall a :: a in voters ==> PrepareOf(g, k.round, block, a) in k.known
  }

  lemma EnoughPrepares(g: Setting, s: NodeState, k: Sketch, block: Block, voters: set<Address>)
    requires Fits(g, s, k) && PreparedBy(g, k, block, voters)
    ensures |PreparesFor(s.Height(), s.round, Digest(block), s.messages)| >= |voters|
  {
    Stored(g, s, k);
    var ps := PreparesFor(s.Height(), s.round, Digest(block), s.messages);
    forall a | a in voters ensures a in PrepareSenders(ps) {
      assert PrepareOf(g, k.round, block, a).prepare in ps;
    }
    SubsetCardinality(voters, PrepareSenders(ps));
    SendersAtMost(ps);
  }

  ghost predicate NoLaterProposal(k: Sketch) {
    forall m :: m in k.known && m.ProposalMessage? ==> m.Round() <= k.round
  }

  ghost predicate NotVoted(k: Sketch) {
    forall m :: m in k.known && m.CommitMessage? && m.Round() == k.round ==> m.Author() != k.id
  }

  /** The sketch after voting for `block`. */
  function Voted(g: Setting, k: Sketch, block: Block): (k': Sketch) {
    k.(preparedBlock := Some(block), preparedRound := Some(k.round)).Adds(CommitOf(g, k.round, block, k.id))
  }

  /** A node with a prepare quorum commits. */
  lemma Votes(g: Setting, s: NodeState, k: Sketch, p: Proposal, voters: set<Address>)
    requires Fits(g, s, k) && Plain(s) && k.accepted == Some(p) && NoLaterProposal(k) && NotVoted(k)
    requires PreparedBy(g, k, p.block, voters) && |voters| >= Quorum(|g.Validators()|)
    requires Clean(g, k.known + {CommitOf(g, k.round, p.block, k.id)})
    ensures var o := NextSubStep(s);
            Sent(o) == [CommitOf(g, k.round, p.block, k.id)] && Fits(g, o.state, Voted(g, k, p.block))
  {
    Stored(g, s, k);
    EnoughPrepares(g, s, k, p.block, voters);
    Voting(s);
    Remember(g, s.(preparedBlock := Some(p.block), preparedRound := Some(k.round)),
             k.(preparedBlock := Some(p.block), preparedRound := Some(k.round)), CommitOf(g, k.round, p.block, k.id));
  }

  /** The message is a commit for the block by `a`. */
  predicate Commits(g: Setting, m: Message, r: nat, block: Block, a: Address) {
    && m.CommitMessage? && m.Author() == a
    && m.Height() == g.Height() && m.Round() == r && m.commit.unsigned.digest == Digest(block)
  }

  /** The sketch has commits for the block by all of `voters`. */
  ghost predicate CommittedBy(g: Setting, k: Sketch, block: Block, voters: set<Address>) {
    forall a :: a in voters ==> exists m :: m in k.known && Commits(g, m, k.round, block, a)
  }

  lemma EnoughCommits(g: Setting, s: NodeState, k: Sketch, block: Block, voters: set<Address>)
    requires Fits(g, s, k) && CommittedBy(g, k, block, voters)
    ensures |CommitSenders(CommitsFor(s.Height(), s.round, Digest(block), s.messages))| >= |voters|
  {
    Stored(g, s, k);
    var cs := CommitsFor(s.Height(), s.round, Digest(block), s.messages);
    forall a | a in voters ensures a in CommitSenders(cs) {
      var m :| m in k.known && Commits(g, m, k.round, block, a);
      assert m.commit in cs;
    }
    SubsetCardinality(voters, CommitSenders(cs));
  }

  /** The leader of the round, with a commit quorum, seals its block. */
  lemma Finalises(g: Setting, s: NodeState, k: Sketch, p: Proposal, voters: set<Address>)
    requires Fits(g, s, k) && Plain(s) && k.accepted == Some(p) && NoLaterProposal(k)
    requires Proposer(k.round, g.Start()) == k.id && CommitOf(g, k.round, p.block, k.id) in k.known
    requires CommittedBy(g, k, p.block, voters) && |voters| >= Quorum(|g.Validators()|)
    ensures NextSubStep(s) == Finalised(s, p.block)
  {
    Stored(g, s, k);
    EnoughCommits(g, s, k, p.block, voters);
    Finalising(s, CommitOf(g, k.round, p.block, k.id));
  }

  /** A node that has heard nothing times out. */
  lemma TimesOut(g: Setting, s: NodeState, k: Sketch)
    requires Fits(g, s, k) && Plain(s) && k == Blank(k.id, None) && Proposer(0, g.Start()) != k.id
    requires g.TimesOut() && s.time >= s.NextRoundTimeout()
    requires Clean(g, {RoundChangeMessage(BareChange(g, k.id))})
    ensures var o, m := NextSubStep(s), RoundChangeMessage(BareChange(g, k.id));
            Sent(o) == [m] && Fits(g, o.state, k.(round := 1).Adds(m))
  {
    Stored(g, s, k);
    NonEmptyHasElement(s.messages);
    TimingOut(s);
    TimedOut(g, s, k);
  }

  lemma TimedOut(g: Setting, s: NodeState, k: Sketch)
    requires Fits(g, s, k) && k == Blank(k.id, None) && Clean(g, {RoundChangeMessage(BareChange(g, k.id))})
    ensures var o, m := FireTimeout(s), RoundChangeMessage(BareChange(g, k.id));
            Sent(o) == [m] && Fits(g, o.state, k.(round := 1).Adds(m))
  {
    var m := RoundChangeMessage(BareChange(g, k.id));
    assert CreateRoundChange(s, 1) == BareChange(g, k.id);
    assert k.known + {m} == {m};
    Remember(g, s.(roundStart := s.time, round := 1), k.(round := 1), m);
  }

  /** The node claims to have prepared `block`, with verified prepares. */
  predicate Announces(g: Setting, rc: RoundChange, round: nat, block: Block, pr: nat, a: Address) {
    && rc.payload == SignRoundChange(UnsignedRoundChange(g.Height(), round, Some(Digest(block)), Some(pr)), a)
    && rc.block == Some(block) && VerifiedPrepares(rc.prepares)
  }

  lemma AnnouncedIsAdmitted(g: Setting, rc: RoundChange, round: nat, block: Block, pr: nat, a: Address)
    requires Announces(g, rc, round, block, pr, a) && a in g.Validators() && block.ValidDigest()
    ensures Admits(g, RoundChangeMessage(rc))
  {
  }

  lemma CreatedAnnounces(g: Setting, s: NodeState, k: Sketch, round: nat, block: Block, pr: nat)
    requires Fits(g, s, k) && Plain(s) && Clean(g, k.known) && k.preparedBlock == Some(block)
    requires k.preparedRound == Some(pr)
    ensures Announces(g, CreateRoundChange(s, round), round, block, pr, k.id)
  {
    Stored(g, s, k);
    forall p | p in CreateRoundChange(s, round).prepares ensures p.signature.Verifies(OfPrepare(p.unsigned)) {
      assert PrepareMessage(p) in k.known && Admits(g, PrepareMessage(p));
    }
  }

  /** The sketch has round changes to `round` by all of `others`, and nothing else of a
      later round. */
  ghost predicate Called(k: Sketch, round: nat, others: set<Address>) {
    && (forall m :: m in k.known && m.Round() > k.round ==> m.RoundChangeMessage? && m.Round() == round)
    && forall a :: a in others ==>
                     exists m :: m in k.known && m.RoundChangeMessage? && m.Round() == round && m.Author() == a
  }

  lemma EnoughChanges(g: Setting, s: NodeState, k: Sketch, round: nat, others: set<Address>)
    requires Fits(g, s, k) && Clean(g, k.known) && Called(k, round, others) && round > k.round
    ensures OnlyChangesTo(s, round)
    ensures |RoundChangeSenders(FutureRoundChanges(s.messages, s.Height(), s.round))| >= |others|
  {
    Stored(g, s, k);
    var rcs := FutureRoundChanges(s.messages, s.Height(), s.round);
    forall a | a in others ensures a in RoundChangeSenders(rcs) {
      var m :| m in k.known && m.RoundChangeMessage? && m.Round() == round && m.Author() == a;
      assert Admits(g, m) && m.roundChange.payload in rcs;
    }
    SubsetCardinality(others, RoundChangeSenders(rcs));
  }

  /** A node that has voted follows others to a later round. */
  lemma Joins(g: Setting, s: NodeState, k: Sketch, round: nat, block: Block, others: set<Address>)
    requires Fits(g, s, k) && Plain(s) && Clean(g, k.known) && k.accepted.Some? && Unfinished(s)
    requires CommitOf(g, k.round, block, k.id) in k.known
    requires round > k.round && Called(k, round, others) && |others| > MaxFaulty(|g.Validators()|)
    requires JustifyRound(s, round).None?
    ensures NextSubStep(s) == JoinRound(s, round)
  {
    Stored(g, s, k);
    EnoughChanges(g, s, k, round, others);
    Joining(s, CommitOf(g, k.round, block, k.id), round);
  }

  lemma Joined(g: Setting, s: NodeState, k: Sketch, round: nat, m: Message)
    requires Fits(g, s, k) && m == RoundChangeMessage(CreateRoundChange(s, round)) && Clean(g, k.known + {m})
    ensures var o := JoinRound(s, round);
            Sent(o) == [m] && Fits(g, o.state, k.(round := round, accepted := None).Adds(m))
  {
    Remember(g, s.(round := round, accepted := None), k.(round := round, accepted := None), m);
  }

  // ---- Steps of the swarm ---------------------------------------------------------

  /** A set of states that no step of the committee leaves, if no clock goes back in it. */
  ghost predicate Closed(c: Committee, within: Swarm -> bool) {
    forall w, w', step {:trigger NextStep(c, w, w', step)} ::
      within(w) && NextStep(c, w, w', step) && FixedValidators(c, w') && Forward(w, w') ==> within(w')
  }

  /** What the honest authors of these messages signed for them is on record. */
  ghost predicate Vouched(c: Committee, signed: set<Signature>, ms: set<Message>) {
    forall m :: m in ms && m.Author() in c.honest ==> MadeFor(m) <= signed
  }

  /** The honest nodes as sketched, with these messages on the network. */
  ghost predicate Stage(g: Setting, w: Swarm, ks: map<Address, Sketch>, net: set<Message>) {
    && w.nodes.Keys == g.committee.honest && ks.Keys == g.committee.honest
    && (forall a :: a in ks ==> Fits(g, w.nodes[a], ks[a]) && ks[a].known <= net)
    && Clean(g, net) && net <= w.network && Vouched(g.committee, w.signed, net)
    && g.committee.genesis.header.validators == g.committee.validators
  }

  lemma StageIsFixed(g: Setting, w: Swarm, ks: map<Address, Sketch>, net: set<Message>)
    requires Stage(g, w, ks, net)
    ensures FixedValidators(g.committee, w)
  {
    forall a | a in w.nodes ensures w.nodes[a].Validators() == g.committee.validators {
      assert Fits(g, w.nodes[a], ks[a]);
    }
  }

  lemma OneNodeFixed(c: Committee, w: Swarm, w': Swarm, id: Address, s: NodeState)
    requires FixedValidators(c, w) && s.Validators() == c.validators && w'.nodes == w.nodes[id := s]
    requires id in w.nodes && w.nodes[id].time <= s.time
    ensures FixedValidators(c, w') && Forward(w, w')
  {
  }

  lemma Restage(g: Setting, w: Swarm, w': Swarm, ks: map<Address, Sketch>, net: set<Message>, net': set<Message>,
                id: Address, s: NodeState, k: Sketch)
    requires Stage(g, w, ks, net) && id in ks && Fits(g, s, k) && k.known <= net'
    requires w'.nodes == w.nodes[id := s] && net <= net' && net' <= w'.network
    requires Clean(g, net') && Vouched(g.committee, w'.signed, net')
    ensures Stage(g, w', ks[id := k], net')
  {
    forall a | a in ks[id := k] ensures Fits(g, w'.nodes[a], ks[id := k][a]) && ks[id := k][a].known <= net' {
      if a != id {
        assert Fits(g, w.nodes[a], ks[a]) && ks[a].known <= net;
      }
    }
  }

  /** A node receives messages, not before `t`. */
  lemma Hear(
    g: Setting, within: Swarm -> bool, w: Swarm, ks: map<Address, Sketch>, net: set<Message>,
    id: Address, incoming: seq<Message>, t: nat)
    returns (w': Swarm, s: NodeState)
    requires Closed(g.committee, within) && within(w) && Stage(g, w, ks, net) && id in ks && Elements(incoming) <= net
    ensures within(w') && Stage(g, w', ks[id := ks[id].Hears(incoming)], net)
    ensures s == w'.nodes[id] && Fits(g, s, ks[id].Hears(incoming)) && Plain(s)
    ensures s.time >= t && SameTimers(w.nodes[id], s)
    ensures w' == w.(nodes := w.nodes[id := s])
  {
    var s0, k := w.nodes[id], ks[id];
    assert Fits(g, s0, k) && k.known <= net;
    var now := Max(s0.time, t);
    s := AddMessages(s0, incoming, now);
    CleanSubset(g, k.known + Elements(incoming), net);
    Learn(g, s0, k, incoming, now, s);
    w' := w.(nodes := w.nodes[id := s]);
    StageIsFixed(g, w, ks, net);
    OneNodeFixed(g.committee, w, w', id, s);
    assert NextStep(g.committee, w, w', Deliver(id, incoming, now));
    Restage(g, w, w', ks, net, net, id, s, k.Hears(incoming));
  }

  lemma {:induction false} MadeForEach(ms: seq<Message>, m: Message)
    requires m in ms
    ensures MadeFor(m) <= MadeForAll(ms)
  {
    if m != ms[0] {
      MadeForEach(ms[1..], m);
    }
  }

  lemma StillVouched(c: Committee, signed: set<Signature>, net: set<Message>, ms: seq<Message>)
    requires Vouched(c, signed, net)
    ensures Vouched(c, signed + MadeForAll(ms), net + Elements(ms))
  {
    forall m | m in net + Elements(ms) && m.Author() in c.honest ensures MadeFor(m) <= signed + MadeForAll(ms) {
      if m in ms {
        MadeForEach(ms, m);
      }
    }
  }

  /** A step of one node without the driver's bypass, whatever it leads to. */
  lemma OneTick(g: Setting, within: Swarm -> bool, w: Swarm, id: Address, s: NodeState, o: Outcome) returns (w': Swarm)
    requires Closed(g.committee, within) && within(w) && id in g.committee.honest && id in w.nodes && w.nodes[id] == s
    requires FixedValidators(g.committee, w) && o == NextSubStep(s) && o.state.Validators() == g.committee.validators
    ensures within(w') && w'.nodes == w.nodes[id := o.state] && w'.network == w.network + Elements(Sent(o))
    ensures w'.signed == w.signed + MadeForAll(Sent(o))
    ensures w'.acceptances == w.acceptances + NewAcceptances(id, s, o.state)
    ensures FixedValidators(g.committee, w')
  {
    assert s.(time := s.time) == s;
    w' := AfterOutcome(w, id, s, o, false, TimerFires(s));
    Effects.StepKeepsTime(s);
    OneNodeFixed(g.committee, w, w', id, o.state);
    TickIsStep(g.committee, w, w', id, s, o);
  }

  lemma TickIsStep(c: Committee, w: Swarm, w': Swarm, id: Address, s: NodeState, o: Outcome)
    requires id in c.honest && id in w.nodes && w.nodes[id] == s && o == NextSubStep(s)
    requires w' == AfterOutcome(w, id, s, o, false, TimerFires(s))
    ensures NextStep(c, w, w', Step.Tick(id, s.time, false))
  {
    assert s.(time := s.time) == s;
  }

  /** A node steps and sends `ms`. */
  lemma Speak(
    g: Setting, within: Swarm -> bool, w: Swarm, ks: map<Address, Sketch>, net: set<Message>,
    id: Address, k: Sketch, ms: seq<Message>)
    returns (w': Swarm)
    requires Closed(g.committee, within) && within(w) && Stage(g, w, ks, net) && id in ks
    requires var o := NextSubStep(w.nodes[id]); Sent(o) == ms && Fits(g, o.state, k)
    requires Clean(g, net + Elements(ms)) && k.known <= net + Elements(ms)
    ensures within(w') && Stage(g, w', ks[id := k], net + Elements(ms))
    ensures w'.acceptances == w.acceptances + NewAcceptances(id, w.nodes[id], w'.nodes[id])
  {
    var s := w.nodes[id];
    var o := NextSubStep(s);
    StageIsFixed(g, w, ks, net);
    w' := OneTick(g, within, w, id, s, o);
    StillVouched(g.committee, w.signed, net, ms);
    Restage(g, w, w', ks, net, net + Elements(ms), id, o.state, k);
  }

  /** The adversary puts a message on the network. */
  lemma Plant(g: Setting, within: Swarm -> bool, w: Swarm, ks: map<Address, Sketch>, net: set<Message>, m: Message)
    returns (w': Swarm)
    requires Closed(g.committee, within) && within(w) && Stage(g, w, ks, net)
    requires m.Author() !in g.committee.honest && NoForgery(g.committee, w.signed, m) && Clean(g, net + {m})
    ensures within(w') && Stage(g, w', ks, net + {m}) && w' == w.(network := w.network + {m})
  {
    w' := w.(network := w.network + {m});
    StageIsFixed(g, w, ks, net);
    assert FixedValidators(g.committee, w') && Forward(w, w');
    assert NextStep(g.committee, w, w', Inject(m));
  }

  /** The driver gives a node a block to propose. */
  lemma Offer(
    g: Setting, within: Swarm -> bool, w: Swarm, ks: map<Address, Sketch>, net: set<Message>, id: Address, block: Block)
    returns (w': Swarm)
    requires Closed(g.committee, within) && within(w) && Stage(g, w, ks, net) && id in ks
    requires block.header.height == g.Height() && block.ValidDigest()
    ensures within(w') && Stage(g, w', ks[id := ks[id].(proposed := Some(block))], net)
  {
    var s := w.nodes[id];
    assert Fits(g, s, ks[id]) && ks[id].known <= net;
    var s' := s.(chain := s.chain.SetProposed(Some(block)));
    w' := w.(nodes := w.nodes[id := s']);
    StageIsFixed(g, w, ks, net);
    OneNodeFixed(g.committee, w, w', id, s');
    assert NextStep(g.committee, w, w', SetProposed(id, block));
    Restage(g, w, w', ks, net, net, id, s', ks[id].(proposed := Some(block)));
  }

  // ---- Acts: a node receives, then steps ------------------------------------------

  /** A state among those of interest is staged like this. */
  ghost predicate Can(g: Setting, within: Swarm -> bool, ks: map<Address, Sketch>, net: set<Message>) {
    exists w :: within(w) && Stage(g, w, ks, net)
  }

  /** A setting, a closed set of states, what can be staged among them, and which proposals
      pass the checks. */
  datatype Show = Show(
    g: Setting,
    within: Swarm -> bool,
    can: (map<Address, Sketch>, set<Message>) -> bool,
    passes: Proposal -> bool)
  {
    ghost predicate Runs() {
      && Closed(g.committee, within)
      && (forall ks, net {:trigger Can(g, within, ks, net)} :: can(ks, net) <==> Can(g, within, ks, net))
      && forall p {:trigger ProposalChecks(p, g.Start())} :: passes(p) <==> ProposalChecks(p, g.Start())
    }
  }

  lemma Staged(v: Show, ks: map<Address, Sketch>, net: set<Message>) returns (w: Swarm)
    requires v.Runs() && v.can(ks, net)
    ensures v.within(w) && Stage(v.g, w, ks, net)
  {
    assert Can(v.g, v.within, ks, net);
    w :| v.within(w) && Stage(v.g, w, ks, net);
  }

  lemma Shown(v: Show, w: Swarm, ks: map<Address, Sketch>, net: set<Message>)
    requires v.Runs() && v.within(w) && Stage(v.g, w, ks, net)
    ensures v.can(ks, net)
  {
    assert Can(v.g, v.within, ks, net);
  }

  lemma KnownInNet(v: Show, ks: map<Address, Sketch>, net: set<Message>, id: Address, incoming: seq<Message>)
    requires v.Runs() && v.can(ks, net) && id in ks && Elements(incoming) <= net
    ensures ks[id].Hears(incoming).known <= net && ks[id].id in v.g.Validators()
  {
    var w := Staged(v, ks, net);
    assert Fits(v.g, w.nodes[id], ks[id]) && ks[id].known <= net;
  }

  lemma Overwritten(ks: map<Address, Sketch>, id: Address, k: Sketch, k': Sketch)
    ensures ks[id := k][id := k'] == ks[id := k']
  {
  }

  /** A node that has received sends one message. */
  lemma Say(
    g: Setting, within: Swarm -> bool, w: Swarm, ks: map<Address, Sketch>, net: set<Message>,
    id: Address, k: Sketch, k': Sketch, m: Message)
    returns (w': Swarm)
    requires Closed(g.committee, within) && within(w) && id in ks && Stage(g, w, ks[id := k], net)
    requires var o := NextSubStep(w.nodes[id]); Sent(o) == [m] && Fits(g, o.state, k')
    requires Clean(g, net + {m}) && k'.known <= net + {m}
    ensures within(w') && Stage(g, w', ks[id := k'], net + {m})
    ensures w'.acceptances == w.acceptances + NewAcceptances(id, w.nodes[id], w'.nodes[id])
  {
    assert Elements([m]) == {m};
    w' := Speak(g, within, w, ks[id := k], net, id, k', [m]);
    Overwritten(ks, id, k, k');
  }

  lemma HearsNothing(k: Sketch)
    ensures k.Hears([]) == k && Elements<Message>([]) == {}
  {
    assert k.known + {} == k.known;
  }

  lemma OfferAct(v: Show, ks: map<Address, Sketch>, net: set<Message>, id: Address, block: Block)
    requires v.Runs() && v.can(ks, net) && id in ks && block.header.height == v.g.Height() && block.ValidDigest()
    ensures v.can(ks[id := ks[id].(proposed := Some(block))], net)
  {
    var w := Staged(v, ks, net);
    w := Offer(v.g, v.within, w, ks, net, id, block);
    Shown(v, w, ks[id := ks[id].(proposed := Some(block))], net);
  }

  lemma ProposeAct(
    v: Show, ks: map<Address, Sketch>, net: set<Message>, id: Address, block: Block, p: Message, q: Message)
    requires v.Runs() && v.can(ks, net) && id in ks && ks[id] == Blank(id, Some(block))
    requires Proposer(0, v.g.Start()) == id && block.header.roundNumber == 0
    requires p == ProposalMessage(ProposalOf(v.g, block, id)) && q == PrepareOf(v.g, 0, block, id)
    requires Clean(v.g, net + {p, q})
    ensures v.can(ks[id := ks[id].(accepted := Some(ProposalOf(v.g, block, id)))], net + {p, q})
  {
    var w := Staged(v, ks, net);
    var k := ks[id];
    var k' := k.(accepted := Some(ProposalOf(v.g, block, id)));
    HearsNothing(k);
    assert ks[id := k] == ks;
    var s;
    w, s := Hear(v.g, v.within, w, ks, net, id, [], v.g.committee.genesis.header.timestamp + v.g.config.blockTime);
    Proposes(v.g, s, k, block);
    assert Elements([p, q]) == {p, q};
    w := Speak(v.g, v.within, w, ks, net, id, k', [p, q]);
    Shown(v, w, ks[id := k'], net + {p, q});
  }

  /** The sketch after taking the proposal of its round. */
  function Took(g: Setting, k: Sketch, p: Proposal): (k': Sketch) {
    k.(accepted := Some(p)).Adds(PrepareOf(g, k.round, p.block, k.id))
  }

  lemma AcceptTick(
    g: Setting, within: Swarm -> bool, w: Swarm, ks: map<Address, Sketch>, net: set<Message>,
    id: Address, incoming: seq<Message>, k: Sketch, p: Proposal)
    returns (w': Swarm, s: NodeState)
    requires Closed(g.committee, within) && within(w) && Stage(g, w, ks, net) && id in ks && Elements(incoming) <= net
    requires k == ks[id].Hears(incoming) && k.accepted.None? && (k.round > 0 || Proposer(0, g.Start()) != k.id)
    requires OnlyProposal(k, p) && ProposalChecks(p, g.Start())
    requires Clean(g, net + {PrepareOf(g, k.round, p.block, k.id)})
    ensures within(w') && Stage(g, w', ks[id := Took(g, k, p)], net + {PrepareOf(g, k.round, p.block, k.id)})
    ensures s.chain.head == g.committee.genesis && Acceptance(id, s.chain, p) in w'.acceptances
  {
    var m := PrepareOf(g, k.round, p.block, k.id);
    var w1;
    w1, s := Hear(g, within, w, ks, net, id, incoming, 0);
    assert k.known <= net;
    CleanSubset(g, k.known + {m}, net + {m});
    Accepts(g, s, k, p);
    w' := TakeAct(g, within, w1, ks, net, id, s, k, p, m);
  }

  lemma TakeAct(
    g: Setting, within: Swarm -> bool, w: Swarm, ks: map<Address, Sketch>, net: set<Message>,
    id: Address, s: NodeState, k: Sketch, p: Proposal, m: Message)
    returns (w': Swarm)
    requires Closed(g.committee, within) && within(w) && id in ks && Stage(g, w, ks[id := k], net)
    requires s == w.nodes[id] && k.accepted.None? && m == PrepareOf(g, k.round, p.block, k.id)
    requires var o := NextSubStep(s); Sent(o) == [m] && Fits(g, o.state, Took(g, k, p))
    requires Clean(g, net + {m}) && k.known <= net
    ensures within(w') && Stage(g, w', ks[id := Took(g, k, p)], net + {m})
    ensures Acceptance(id, s.chain, p) in w'.acceptances
  {
    w' := Say(g, within, w, ks, net, id, k, Took(g, k, p), m);
    AcceptanceLogged(g, id, s, w'.nodes[id], ks[id := k][id], ks[id := Took(g, k, p)][id], p);
  }

  lemma AcceptanceLogged(g: Setting, id: Address, s: NodeState, s': NodeState, k: Sketch, k': Sketch, p: Proposal)
    requires Fits(g, s, k) && Fits(g, s', k') && k.accepted.None? && k'.accepted == Some(p)
    ensures Acceptance(id, s.chain, p) in NewAcceptances(id, s, s')
  {
  }

  lemma AcceptAct(
    v: Show, ks: map<Address, Sketch>, net: set<Message>, id: Address, incoming: seq<Message>,
    k: Sketch, p: Proposal, m: Message)
    requires v.Runs() && v.can(ks, net) && id in ks && Elements(incoming) <= net
    requires k == ks[id].Hears(incoming) && k.accepted.None? && (k.round > 0 || Proposer(0, v.g.Start()) != k.id)
    requires OnlyProposal(k, p) && v.passes(p)
    requires m == PrepareOf(v.g, k.round, p.block, k.id) && Clean(v.g, net + {m})
    ensures v.can(ks[id := Took(v.g, k, p)], net + {m})
  {
    var w := Staged(v, ks, net);
    assert ProposalChecks(p, v.g.Start());
    var s;
    w, s := AcceptTick(v.g, v.within, w, ks, net, id, incoming, k, p);
    Shown(v, w, ks[id := Took(v.g, k, p)], net + {m});
  }

  /** As an end: the acceptance is on record. */
  lemma LastAcceptance(
    v: Show, ks: map<Address, Sketch>, net: set<Message>, id: Address, incoming: seq<Message>, k: Sketch, p: Proposal)
    returns (w: Swarm, chain: Chain)
    requires v.Runs() && v.can(ks, net) && id in ks && Elements(incoming) <= net
    requires k == ks[id].Hears(incoming) && k.accepted.None? && (k.round > 0 || Proposer(0, v.g.Start()) != k.id)
    requires OnlyProposal(k, p) && v.passes(p) && Clean(v.g, net + {PrepareOf(v.g, k.round, p.block, k.id)})
    ensures v.within(w) && Acceptance(id, chain, p) in w.acceptances && chain.head == v.g.committee.genesis
  {
    assert ProposalChecks(p, v.g.Start());
    w := Staged(v, ks, net);
    var s;
    w, s := AcceptTick(v.g, v.within, w, ks, net, id, incoming, k, p);
    chain := s.chain;
  }

  lemma VoteAct(
    v: Show, ks: map<Address, Sketch>, net: set<Message>, id: Address, incoming: seq<Message>,
    k: Sketch, p: Proposal, voters: set<Address>, m: Message)
    requires v.Runs() && v.can(ks, net) && id in ks && Elements(incoming) <= net
    requires k == ks[id].Hears(incoming) && k.accepted == Some(p) && NoLaterProposal(k) && NotVoted(k)
    requires PreparedBy(v.g, k, p.block, voters) && |voters| >= Quorum(|v.g.Validators()|)
    requires m == CommitOf(v.g, k.round, p.block, k.id) && Clean(v.g, net + {m})
    ensures v.can(ks[id := Voted(v.g, k, p.block)], net + {m})
  {
    KnownInNet(v, ks, net, id, incoming);
    var w := Staged(v, ks, net);
    var s;
    w, s := Hear(v.g, v.within, w, ks, net, id, incoming, 0);
    CleanSubset(v.g, k.known + {m}, net + {m});
    Votes(v.g, s, k, p, voters);
    w := Say(v.g, v.within, w, ks, net, id, k, Voted(v.g, k, p.block), m);
    Shown(v, w, ks[id := Voted(v.g, k, p.block)], net + {m});
  }

  lemma TimeoutAct(v: Show, ks: map<Address, Sketch>, net: set<Message>, id: Address, m: Message)
    requires v.Runs() && v.can(ks, net) && id in ks && ks[id] == Blank(id, None)
    requires m == RoundChangeMessage(BareChange(v.g, id)) && Proposer(0, v.g.Start()) != id
    requires v.g.TimesOut() && Clean(v.g, net + {m})
    ensures v.can(ks[id := ks[id].(round := 1).Adds(m)], net + {m})
  {
    var w := Staged(v, ks, net);
    var k := ks[id];
    HearsNothing(k);
    assert ks[id := k] == ks;
    var s;
    w, s := Hear(v.g, v.within, w, ks, net, id, [], w.nodes[id].roundStart + v.g.config.timeout(0));
    CleanSubset(v.g, {m}, net + {m});
    TimesOut(v.g, s, k);
    w := Say(v.g, v.within, w, ks, net, id, k, k.(round := 1).Adds(m), m);
    Shown(v, w, ks[id := k.(round := 1).Adds(m)], net + {m});
  }

  /** The node does not lead its round, or has no commits but its own. */
  ghost predicate CannotSeal(g: Setting, k: Sketch) {
    || Proposer(k.round, g.Start()) != k.id
    || (Quorum(|g.Validators()|) >= 2 && forall m :: m in k.known && m.CommitMessage? ==> m.Author() == k.id)
  }

  lemma NotSealed(g: Setting, s: NodeState, k: Sketch)
    requires Fits(g, s, k) && CannotSeal(g, k)
    ensures Unfinished(s)
  {
    Stored(g, s, k);
    if s.accepted.Some? && s.IsProposer() {
      OwnCommitsOnly(s, CommitsFor(s.Height(), s.round, Digest(s.accepted.value.block), s.messages));
    }
  }

  lemma OwnCommitsOnly(s: NodeState, cs: seq<SignedCommit>)
    requires forall c :: c in cs ==> CommitMessage(c) in s.messages
    requires forall m :: m in s.messages && m.CommitMessage? ==> m.Author() == s.id
    ensures |CommitSenders(cs)| < 2
  {
    forall a | a in CommitSenders(cs) ensures a == s.id {
      var c :| c in cs && c.signature.author == a;
      assert CommitMessage(c).Author() == a;
    }
    SubsetCardinality(CommitSenders(cs), {s.id});
  }

  /** The sketch after following others to a later round. */
  function Followed(k: Sketch, round: nat, rc: RoundChange): (k': Sketch) {
    k.(round := round, accepted := None).Adds(RoundChangeMessage(rc))
  }

  /** No round change of the node itself is known. */
  ghost predicate NotChanged(ms: set<Message>, round: nat, id: Address) {
    forall m :: m in ms && m.RoundChangeMessage? && m.Round() == round ==> m.Author() != id
  }

  lemma ChangeIsAlone(g: Setting, net: set<Message>, rc: RoundChange, round: nat, block: Block, pr: nat, id: Address)
    requires Clean(g, net) && NotChanged(net, round, id) && Announces(g, rc, round, block, pr, id)
    requires id in g.Validators() && block.ValidDigest()
    ensures Clean(g, net + {RoundChangeMessage(rc)})
  {
    AnnouncedIsAdmitted(g, rc, round, block, pr, id);
    CleanAdd(g, net, RoundChangeMessage(rc));
  }

  lemma JoinAct(
    v: Show, ks: map<Address, Sketch>, net: set<Message>, id: Address, incoming: seq<Message>,
    k: Sketch, block: Block, round: nat, others: set<Address>)
    returns (rc: RoundChange)
    requires v.Runs() && v.can(ks, net) && id in ks && Elements(incoming) <= net && Clean(v.g, net)
    requires k == ks[id].Hears(incoming) && k.id == id && k.accepted.Some? && round > k.round
    requires k.preparedBlock == Some(block) && k.preparedRound == Some(k.round) && block.ValidDigest()
    requires CommitOf(v.g, k.round, block, id) in k.known && CannotSeal(v.g, k)
    requires Proposer(round, v.g.Start()) != id
    requires Called(k, round, others) && |others| > MaxFaulty(|v.g.Validators()|) && NotChanged(net, round, id)
    ensures Announces(v.g, rc, round, block, k.round, id)
    ensures v.can(ks[id := Followed(k, round, rc)], net + {RoundChangeMessage(rc)})
  {
    KnownInNet(v, ks, net, id, incoming);
    var w := Staged(v, ks, net);
    var s;
    w, s := Hear(v.g, v.within, w, ks, net, id, incoming, 0);
    rc := JoinTick(v.g, s, net, k, block, round, others);
    w := Say(v.g, v.within, w, ks, net, id, k, Followed(k, round, rc), RoundChangeMessage(rc));
    Shown(v, w, ks[id := Followed(k, round, rc)], net + {RoundChangeMessage(rc)});
  }

  lemma JoinTick(
    g: Setting, s: NodeState, net: set<Message>, k: Sketch, block: Block, round: nat, others: set<Address>)
    returns (rc: RoundChange)
    requires Fits(g, s, k) && Plain(s) && Clean(g, net) && k.known <= net && k.accepted.Some? && round > k.round
    requires k.preparedBlock == Some(block) && k.preparedRound == Some(k.round) && block.ValidDigest()
    requires CommitOf(g, k.round, block, k.id) in k.known && CannotSeal(g, k)
    requires Proposer(round, g.Start()) != k.id
    requires Called(k, round, others) && |others| > MaxFaulty(|g.Validators()|) && NotChanged(net, round, k.id)
    ensures Announces(g, rc, round, block, k.round, k.id) && Clean(g, net + {RoundChangeMessage(rc)})
    ensures var o := NextSubStep(s); Sent(o) == [RoundChangeMessage(rc)] && Fits(g, o.state, Followed(k, round, rc))
  {
    CleanSubset(g, k.known, net);
    Stored(g, s, k);
    NotSealed(g, s, k);
    Joins(g, s, k, round, block, others);
    rc := CreateRoundChange(s, round);
    var m := RoundChangeMessage(rc);
    CreatedAnnounces(g, s, k, round, block, k.round);
    ChangeIsAlone(g, net, rc, round, block, k.round, k.id);
    CleanSubset(g, k.known + {m}, net + {m});
    Joined(g, s, k, round, m);
  }

  // ---- Giving up on round 0 -------------------------------------------------------

  /** A node that has voted in round 0 for a block it does not lead, and has heard of no
      later round. */
  ghost predicate Stuck(g: Setting, k: Sketch, block: Block) {
    && k.round == 0 && k.accepted.Some? && k.accepted.value.block == block && Proposer(0, g.Start()) != k.id
    && k.preparedBlock == Some(block) && k.preparedRound == Some(0) && block.ValidDigest()
    && CommitOf(g, 0, block, k.id) in k.known && g.TimesOut()
    && forall m :: m in k.known ==> m.Round() == 0
  }

  lemma StuckIsTimed(g: Setting, s: NodeState, k: Sketch, block: Block)
    requires Fits(g, s, k) && Plain(s) && Stuck(g, k, block) && s.time >= s.NextRoundTimeout()
    ensures var (t, deferred) := DeferRoundZero(s);
            NextSubStep(s) == if deferred then Outcome(t, None) else FireTimeout(t)
    ensures RoundZeroProgress(s).Some?
  {
    Stored(g, s, k);
    OnlyTimer(s, CommitOf(g, 0, block, k.id));
  }

  /** The counts depend on what the node knows only. */
  lemma SameProgress(g: Setting, s: NodeState, t: NodeState, k: Sketch)
    requires Fits(g, s, k) && Plain(s) && Fits(g, t, k) && Plain(t)
    ensures RoundZeroProgress(s) == RoundZeroProgress(t)
  {
    Stored(g, s, k);
    Stored(g, t, k);
    if s.accepted.Some? {
      Deferral.SameSenders(s.Height(), Digest(s.accepted.value.block), s.messages, t.messages);
    }
  }

  /** It announces the block it has prepared. */
  lemma Fired(g: Setting, s: NodeState, k: Sketch, net: set<Message>, block: Block) returns (rc: RoundChange)
    requires Fits(g, s, k) && Plain(s) && Stuck(g, k, block) && Clean(g, net) && k.known <= net
    requires NotChanged(net, 1, k.id)
    ensures Announces(g, rc, 1, block, 0, k.id) && Clean(g, net + {RoundChangeMessage(rc)})
    ensures var o := FireTimeout(s); Sent(o) == [RoundChangeMessage(rc)] && Fits(g, o.state, Followed(k, 1, rc))
  {
    rc := CreateRoundChange(s, 1);
    var m := RoundChangeMessage(rc);
    CleanSubset(g, k.known, net);
    CreatedAnnounces(g, s, k, 1, block, 0);
    ChangeIsAlone(g, net, rc, 1, block, 0, k.id);
    CleanSubset(g, k.known + {m}, net + {m});
    Remember(g, s.(roundStart := s.time, round := 1, accepted := None), k.(round := 1, accepted := None), m);
  }

  lemma TimersFit(g: Setting, s: NodeState, t: NodeState, k: Sketch)
    requires Fits(g, s, k) && Effects.SameButTimers(s, t)
    ensures Fits(g, t, k) && (Plain(s) ==> Plain(t))
  {
  }

  /** A deferral, if the rule wants one, and the time the node has to wait after it. */
  lemma PutOff(
    g: Setting, within: Swarm -> bool, w: Swarm, ks: map<Address, Sketch>, net: set<Message>, id: Address, block: Block)
    returns (w': Swarm, s: NodeState)
    requires Closed(g.committee, within) && within(w) && Stage(g, w, ks, net) && id in ks && Stuck(g, ks[id], block)
    ensures within(w') && Stage(g, w', ks, net) && s == w'.nodes[id] && Plain(s) && Fits(g, s, ks[id])
    ensures NextSubStep(s) == FireTimeout(s)
  {
    var k := ks[id];
    HearsNothing(k);
    assert ks[id := k] == ks;
    w', s := Hear(g, within, w, ks, net, id, [], w.nodes[id].roundStart + g.config.timeout(0));
    StuckIsTimed(g, s, k, block);
    Effects.DeferTouchesTimersOnly(s);
    if DeferRoundZero(s).1 {
      var t := DeferRoundZero(s).0;
      TimersFit(g, s, t, k);
      w' := Wait(g, within, w', ks, net, id, s, t);
      w', s := WaitAgain(g, within, w', ks, net, id, s, t, block);
    } else {
      NotPutOff(s);
    }
  }

  lemma NotPutOff(s: NodeState)
    requires !DeferRoundZero(s).1
    ensures DeferRoundZero(s).0 == s
  {
    match RoundZeroProgress(s)
    case None =>
    case Some((prepares, commits)) =>
  }

  lemma Wait(
    g: Setting, within: Swarm -> bool, w: Swarm, ks: map<Address, Sketch>, net: set<Message>, id: Address,
    s: NodeState, t: NodeState)
    returns (w': Swarm)
    requires Closed(g.committee, within) && within(w) && Stage(g, w, ks, net) && id in ks && w.nodes[id] == s
    requires NextSubStep(s) == Outcome(t, None) && Fits(g, t, ks[id])
    ensures within(w') && Stage(g, w', ks, net) && w'.nodes[id] == t
  {
    assert Elements<Message>([]) == {} && net + {} == net && ks[id := ks[id]] == ks && ks[id].known <= net;
    StageIsFixed(g, w, ks, net);
    w' := OneTick(g, within, w, id, s, Outcome(t, None));
    Restage(g, w, w', ks, net, net, id, t, ks[id]);
  }

  lemma WaitAgain(
    g: Setting, within: Swarm -> bool, w: Swarm, ks: map<Address, Sketch>, net: set<Message>, id: Address,
    s: NodeState, t: NodeState, block: Block)
    returns (w': Swarm, s': NodeState)
    requires Closed(g.committee, within) && within(w) && Stage(g, w, ks, net) && id in ks && Stuck(g, ks[id], block)
    requires w.nodes[id] == t && Fits(g, s, ks[id]) && Plain(s) && RoundZeroProgress(s).Some?
    requires DeferRoundZero(s) == (t, true)
    ensures within(w') && Stage(g, w', ks, net) && s' == w'.nodes[id] && Plain(s') && Fits(g, s', ks[id])
    ensures NextSubStep(s') == FireTimeout(s')
  {
    var k := ks[id];
    HearsNothing(k);
    assert ks[id := k] == ks;
    var grace := Max(g.config.blockTime, 1);
    w', s' := Hear(g, within, w, ks, net, id, [], t.roundStart + g.config.timeout(0) + t.progressTime + grace);
    var counts := RoundZeroProgress(s).value;
    MarkerCatchesUp(s, counts.0, counts.1);
    SameProgress(g, s, s', k);
    GivingUp(s', counts.0, counts.1);
    StuckIsTimed(g, s', k, block);
  }

  /** It waits as long as the rule makes it and moves on to round 1. */
  lemma GiveUpAct(v: Show, ks: map<Address, Sketch>, net: set<Message>, id: Address, block: Block)
    returns (rc: RoundChange)
    requires v.Runs() && v.can(ks, net) && id in ks && ks[id].id == id && Stuck(v.g, ks[id], block)
    requires Clean(v.g, net) && NotChanged(net, 1, id)
    ensures Announces(v.g, rc, 1, block, 0, id)
    ensures v.can(ks[id := Followed(ks[id], 1, rc)], net + {RoundChangeMessage(rc)})
  {
    var k := ks[id];
    HearsNothing(k);
    KnownInNet(v, ks, net, id, []);
    assert ks[id := k] == ks;
    var w := Staged(v, ks, net);
    var s;
    w, s := PutOff(v.g, v.within, w, ks, net, id, block);
    rc := Fired(v.g, s, k, net, block);
    w := Say(v.g, v.within, w, ks, net, id, k, Followed(k, 1, rc), RoundChangeMessage(rc));
    Shown(v, w, ks[id := Followed(k, 1, rc)], net + {RoundChangeMessage(rc)});
  }

  /** The adversary's message names no signature that was not made. */
  lemma PlantAct(v: Show, ks: map<Address, Sketch>, net: set<Message>, m: Message)
    requires v.Runs() && v.can(ks, net) && Clean(v.g, net + {m}) && m.Author() !in v.g.committee.honest
    requires forall signed :: Vouched(v.g.committee, signed, net) ==> NoForgery(v.g.committee, signed, m)
    ensures v.can(ks, net + {m})
  {
    var w := Staged(v, ks, net);
    w := Plant(v.g, v.within, w, ks, net, m);
    Shown(v, w, ks, net + {m});
  }

  /** Two nodes receive. */
  lemma BothHear(
    v: Show, ks: map<Address, Sketch>, net: set<Message>, a: Address, in1: seq<Message>, b: Address, in2: seq<Message>)
    returns (w: Swarm, s1: NodeState, s2: NodeState)
    requires v.Runs() && v.can(ks, net) && a in ks && b in ks && a != b && Elements(in1) <= net && Elements(in2) <= net
    ensures v.within(w) && FixedValidators(v.g.committee, w) && a in w.nodes && b in w.nodes
    ensures w.nodes[a] == s1 && Fits(v.g, s1, ks[a].Hears(in1)) && Plain(s1)
    ensures w.nodes[b] == s2 && Fits(v.g, s2, ks[b].Hears(in2)) && Plain(s2) && ks[b].Hears(in2).known <= net
  {
    KnownInNet(v, ks, net, b, in2);
    w := Staged(v, ks, net);
    w, s1 := Hear(v.g, v.within, w, ks, net, a, in1, 0);
    var ks1 := ks[a := ks[a].Hears(in1)];
    w, s2 := Hear(v.g, v.within, w, ks1, net, b, in2, 0);
    StageIsFixed(v.g, w, ks1[b := ks1[b].Hears(in2)], net);
  }

  // ---- Beginnings and ends --------------------------------------------------------

  /** The initial state of the swarm, all clocks at zero. */
  function Birth(g: Setting): (w: Swarm) {
    Swarm(map a | a in g.committee.honest :: InitialState(a, g.config, g.Start(), 0), {}, {}, {}, {})
  }

  function Blanks(g: Setting): (ks: map<Address, Sketch>) {
    map a | a in g.committee.honest :: Blank(a, None)
  }

  lemma BirthIsStage(g: Setting)
    requires g.committee.Valid()
    ensures Stage(g, Birth(g), Blanks(g), {}) && Init(g.committee, Birth(g))
  {
    assert Elements<Message>([]) == {};
    forall a | a in g.committee.honest ensures a in g.Validators() {
      assert a in Elements(g.committee.validators);
    }
  }

  lemma BirthIsShown(v: Show)
    requires v.g.committee.Valid() && v.Runs() && v.within(Birth(v.g))
    ensures v.can(Blanks(v.g), {})
  {
    BirthIsStage(v.g);
    Shown(v, Birth(v.g), Blanks(v.g), {});
  }

  /** A run that ends in `w`, with clocks that do not go back. */
  ghost predicate EndsAt(c: Committee, trace: seq<Swarm>, w: Swarm) {
    Run(c, trace) && ClocksGoForward(trace) && trace[|trace| - 1] == w
  }

  ghost predicate Reachable(c: Committee, w: Swarm) {
    exists trace :: EndsAt(c, trace, w)
  }

  lemma RunTo(c: Committee, w: Swarm) returns (trace: seq<Swarm>)
    requires Reachable(c, w)
    ensures Run(c, trace) && ClocksGoForward(trace) && trace[|trace| - 1] == w
  {
    trace :| EndsAt(c, trace, w);
  }

  lemma RunExtends(c: Committee, trace: seq<Swarm>, w: Swarm, w': Swarm)
    requires EndsAt(c, trace, w) && Next(c, w, w') && Forward(w, w')
    ensures EndsAt(c, trace + [w'], w')
  {
    var longer := trace + [w'];
    forall i | 0 <= i < |longer| - 1 ensures Next(c, longer[i], longer[i + 1]) && Forward(longer[i], longer[i + 1]) {
      if i < |trace| - 1 {
        assert Next(c, trace[i], trace[i + 1]) && Forward(trace[i], trace[i + 1]);
      }
    }
    assert Run(c, longer);
  }

  lemma ReachableNext(c: Committee, w: Swarm, w': Swarm, step: Step)
    requires Reachable(c, w) && NextStep(c, w, w', step) && FixedValidators(c, w') && Forward(w, w')
    ensures Reachable(c, w')
  {
    assert Next(c, w, w');
    NextIsReachable(c, w, w');
  }

  lemma NextIsReachable(c: Committee, w: Swarm, w': Swarm)
    requires Reachable(c, w) && Next(c, w, w') && Forward(w, w')
    ensures Reachable(c, w')
  {
    var trace :| EndsAt(c, trace, w);
    EndIsReachable(c, trace, w, w');
  }

  lemma EndIsReachable(c: Committee, trace: seq<Swarm>, w: Swarm, w': Swarm)
    requires EndsAt(c, trace, w) && Next(c, w, w') && Forward(w, w')
    ensures Reachable(c, w')
  {
    RunExtends(c, trace, w, w');
  }

  lemma ReachableIsClosed(g: Setting, within: Swarm -> bool)
    requires g.committee.Valid() && forall w :: within(w) <==> Reachable(g.committee, w)
    ensures Closed(g.committee, within) && within(Birth(g))
  {
    var c := g.committee;
    forall w, w', step | within(w) && NextStep(c, w, w', step) && FixedValidators(c, w') && Forward(w, w')
      ensures within(w')
    {
      ReachableNext(c, w, w', step);
    }
    BirthIsStage(g);
    assert EndsAt(c, [Birth(g)], Birth(g));
  }

  /** All reachable states, and all that can be staged. */
  lemma Everything(g: Setting) returns (v: Show)
    requires g.committee.Valid()
    ensures v.g == g && v.Runs() && v.within(Birth(g))
    ensures forall w :: v.within(w) <==> Reachable(g.committee, w)
  {
    var within := w => Reachable(g.committee, w);
    ReachableIsClosed(g, within);
    v := Show(g, within, (ks, net) => Can(g, within, ks, net), p => ProposalChecks(p, g.Start()));
  }
}
