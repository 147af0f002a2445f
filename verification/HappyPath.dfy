/** Progress when nothing goes wrong: validators in lock step, each receiving in one tick
    what all of them sent in the tick before, finalise a block in five ticks. */
module HappyPath {
  import opened Prelude
  import opened Types
  import opened Validators
  import opened Justification
  import opened Store
  import opened Protocol
  import opened Preservation
  import opened Certificates
  import Rules

  // ---- Lock step ------------------------------------------------------------------

  /** All nodes, and the messages of the last tick, on their way to every node. */
  datatype Lock = Lock(nodes: seq<NodeState>, net: seq<Message>)

  function StepAll(nodes: seq<NodeState>, step: NodeState -> Outcome): (r: seq<NodeState>)
    ensures |r| == |nodes|
    ensures forall i :: 0 <= i < |nodes| ==> r[i] == step(nodes[i]).state
  {
    seq(|nodes|, i requires 0 <= i < |nodes| => step(nodes[i]).state)
  }

  function Outputs(nodes: seq<NodeState>, step: NodeState -> Outcome): (r: seq<Message>) {
    if nodes == [] then [] else Outputs(nodes[..|nodes| - 1], step) + Sent(step(nodes[|nodes| - 1]))
  }

  /** Every node ticks, and what they send is on its way to all of them. */
  function Tick(w: Lock, t: nat): (w': Lock) {
    var step := s => NodeTick(s, w.net, t);
    Lock(StepAll(w.nodes, step), Outputs(w.nodes, step))
  }

  lemma {:induction false} OutputsHas(nodes: seq<NodeState>, step: NodeState -> Outcome, i: nat, m: Message)
    requires i < |nodes| && m in Sent(step(nodes[i]))
    ensures m in Outputs(nodes, step)
    decreases |nodes|
  {
    if i < |nodes| - 1 {
      OutputsHas(nodes[..|nodes| - 1], step, i, m);
    }
  }

  lemma {:induction false} OutputsFrom(nodes: seq<NodeState>, step: NodeState -> Outcome, m: Message) returns (i: nat)
    requires m in Outputs(nodes, step)
    ensures i < |nodes| && m in Sent(step(nodes[i]))
    decreases |nodes|
  {
    if m in Sent(step(nodes[|nodes| - 1])) {
      i := |nodes| - 1;
    } else {
      i := OutputsFrom(nodes[..|nodes| - 1], step, m);
    }
  }

  // ---- The play -------------------------------------------------------------------

  /** The common head, the leader of round 0 and the block it will propose. No round timer
      runs out before `deadline`, and none of round 0 is shorter than `patience`. */
  datatype Play = Play(head: Block, leader: Address, block: Block, deadline: nat, patience: nat) {
    function Height(): nat {
      head.header.height + 1
    }

    function Validators(): seq<Address> {
      head.header.validators
    }

    ghost predicate Valid() {
      && |Validators()| >= 2 && Distinct(Validators())
      && leader == Proposer(0, Chain([], head, None))
      && block.header.roundNumber == 0 && block.header.height == Height()
      && block.header.proposer == leader && block.header.validators == Validators()
      && block.ValidDigest()
    }

    function Prop(): Proposal {
      Proposal(SignProposal(UnsignedProposal(Height(), 0, Digest(block)), leader), block, [], [])
    }

    function Prepare(a: Address): Message {
      PrepareMessage(SignPrepare(UnsignedPrepare(Height(), 0, Digest(block)), a))
    }

    function Commit(a: Address): Message {
      CommitMessage(SignCommit(
        UnsignedCommit(Height(), 0, Sign(a, OfHash(SealHash(block))), Digest(block)), a))
    }

    /** The messages of the play up to the commits. */
    predicate Expected(m: Message) {
      && m.Author() in Validators()
      && (m == ProposalMessage(Prop()) || m == Prepare(m.Author()) || m == Commit(m.Author()))
    }
  }

  ghost predicate AllExpected(p: Play, ms: seq<Message>) {
    forall m {:trigger p.Expected(m)} :: m in ms ==> p.Expected(m)
  }

  /** What the leader sends first. */
  predicate Opening(p: Play, m: Message) {
    m == ProposalMessage(p.Prop()) || m == p.Prepare(p.leader)
  }

  ghost predicate OnlyOpening(p: Play, ms: seq<Message>) {
    forall m {:trigger Opening(p, m)} :: m in ms ==> Opening(p, m)
  }

  lemma OpeningIsExpected(p: Play, ms: seq<Message>)
    requires p.Valid() && OnlyOpening(p, ms)
    ensures AllExpected(p, ms) && forall m :: m in ms ==> !m.CommitMessage?
  {
    LeaderIsValidator(p);
    forall m | m in ms
      ensures p.Expected(m) && !m.CommitMessage?
    {
      assert Opening(p, m);
    }
  }

  predicate PreparedBy(p: Play, ms: seq<Message>, a: Address) {
    p.Prepare(a) in ms
  }

  predicate CommittedBy(p: Play, ms: seq<Message>, a: Address) {
    p.Commit(a) in ms
  }

  /** Every validator's prepare is there. */
  ghost predicate AllPrepares(p: Play, ms: seq<Message>) {
    forall a {:trigger PreparedBy(p, ms, a)} :: a in p.Validators() ==> PreparedBy(p, ms, a)
  }

  /** Every validator's commit is there. */
  ghost predicate AllCommits(p: Play, ms: seq<Message>) {
    forall a {:trigger CommittedBy(p, ms, a)} :: a in p.Validators() ==> CommittedBy(p, ms, a)
  }

  /** What a store of expected messages does not hold. */
  lemma ExpectedKinds(p: Play, ms: seq<Message>)
    requires AllExpected(p, ms)
    ensures forall m :: m in ms ==> m.Height() == p.Height() && m.Round() == 0
    ensures forall m :: m in ms ==> !m.NewBlockMessage? && !m.RoundChangeMessage?
  {
    forall m | m in ms
      ensures m.Height() == p.Height() && m.Round() == 0 && !m.NewBlockMessage? && !m.RoundChangeMessage?
    {
      assert p.Expected(m);
    }
  }

  /** What holds of every node while the play lasts. */
  ghost predicate InPlay(p: Play, s: NodeState) {
    && s.id in p.Validators() && s.chain.head == p.head && s.round == 0
    && Sorted(s.messages) && AllExpected(p, s.messages)
    && p.deadline <= s.NextRoundTimeout() && p.patience <= s.config.timeout(0)
  }

  /** Before the proposal. The leader has its block and may propose it at `t`. */
  ghost predicate Waiting(p: Play, s: NodeState, t: nat) {
    && InPlay(p, s) && s.messages == [] && s.accepted.None?
    && (s.id == p.leader ==>
          && s.GetNewBlock(0) == Some(p.block) && s.NextBlockTimeout() <= t
          && p.deadline <= t + p.patience)
  }

  /** The leader has proposed; the others still wait. */
  ghost predicate Proposed(p: Play, s: NodeState) {
    InPlay(p, s) && s.messages == [] && (if s.id == p.leader then s.accepted == Some(p.Prop()) else s.accepted.None?)
  }

  /** Everyone has accepted, with the leader's prepare in store and no commit yet. */
  ghost predicate Accepted(p: Play, s: NodeState) {
    && InPlay(p, s) && s.accepted == Some(p.Prop()) && p.Prepare(p.leader) in s.messages
    && forall m :: m in s.messages ==> !m.CommitMessage?
  }

  /** Everyone has committed. */
  ghost predicate Committed(p: Play, s: NodeState) {
    InPlay(p, s) && s.accepted == Some(p.Prop())
  }

  /** What a step keeps in any case. */
  ghost predicate SameNode(s: NodeState, s': NodeState) {
    s'.id == s.id && s'.config == s.config
  }

  ghost predicate AfterTick1(p: Play, s: NodeState, o: Outcome) {
    && Proposed(p, o.state) && SameNode(s, o.state)
    && Sent(o) == if s.id == p.leader then [ProposalMessage(p.Prop()), p.Prepare(p.leader)] else []
  }

  ghost predicate AfterTick2(p: Play, s: NodeState, o: Outcome) {
    && Accepted(p, o.state) && SameNode(s, o.state)
    && Sent(o) == if s.id == p.leader then [] else [p.Prepare(s.id)]
  }

  ghost predicate AfterTick3(p: Play, s: NodeState, o: Outcome) {
    && Committed(p, o.state) && SameNode(s, o.state)
    && Sent(o) == [p.Commit(s.id)]
  }

  ghost predicate AfterTick4(p: Play, s: NodeState, o: Outcome, commits: seq<SignedCommit>, t: nat) {
    && SameNode(s, o.state)
    && (s.id == p.leader ==> Finalised(p, o.state, commits, t) && Sent(o) == [Announcement(p, commits)])
    && (s.id != p.leader ==> Committed(p, o.state) && Sent(o) == [])
  }

  // ---- Receiving ------------------------------------------------------------------

  lemma ExpectedIsAdmissible(p: Play, m: Message, chain: Chain)
    requires p.Valid() && p.Expected(m) && chain.head == p.head
    ensures Admissible(m, chain)
  {
  }

  lemma SameKeySameMessage(p: Play, m: Message, m': Message)
    requires p.Expected(m) && p.Expected(m') && m.SortKey() == m'.SortKey()
    ensures m == m'
  {
  }

  /** Expected messages are all stored, and nothing else is. */
  lemma ReceiveExpected(p: Play, ms: seq<Message>, net: seq<Message>, chain: Chain)
    requires p.Valid() && chain.head == p.head && Sorted(ms)
    requires AllExpected(p, ms) && AllExpected(p, net)
    ensures Sorted(Receive(ms, net, chain))
    ensures forall m :: m in Receive(ms, net, chain) <==> m in ms || m in net
  {
    var r := Receive(ms, net, chain);
    ReceiveKeepsSorted(ms, net, chain);
    forall m | m in net
      ensures m in r
    {
      assert p.Expected(m);
      ExpectedIsAdmissible(p, m, chain);
      var m' :| m' in r && m'.SortKey() == m.SortKey();
      assert p.Expected(m');
      SameKeySameMessage(p, m, m');
    }
  }

  /** Everything but the store and the clock stays as it was. */
  ghost predicate SameButStore(s: NodeState, s': NodeState) {
    && s'.id == s.id && s'.config == s.config && s'.round == s.round && s'.accepted == s.accepted
    && s'.roundStart == s.roundStart
    && s'.chain.head == s.chain.head && s'.chain.proposed == s.chain.proposed
  }

  lemma Delivered(p: Play, s: NodeState, net: seq<Message>, t: nat, s': NodeState)
    requires p.Valid() && InPlay(p, s) && AllExpected(p, net)
    requires s' == AddMessages(s, net, t)
    ensures InPlay(p, s') && SameButStore(s, s') && s'.time == t && s'.Visible() == s'.messages
    ensures forall m :: m in s'.messages <==> m in s.messages || m in net
  {
    ReceiveExpected(p, s.messages, net, s.chain);
    var s1 := s.(time := t, messages := Receive(s.messages, net, s.chain));
    assert AllExpected(p, s1.messages);
    ExpectedKinds(p, s1.messages);
    Rules.PruneOneHeight(s1);
    assert s'.messages[..|s'.messages|] == s'.messages;
  }

  // ---- Rules that do not fire -----------------------------------------------------

  lemma NoneExpected(p: Play, s: NodeState)
    requires InPlay(p, s)
    ensures UponNewBlock(s) == Outcome(s, None)
  {
    ExpectedKinds(p, s.messages);
    Rules.NoNewBlock(s);
  }

  lemma NoRoundChange(p: Play, s: NodeState)
    requires InPlay(p, s) && s.Visible() == s.messages && (s.accepted.Some? || s.messages == [])
    ensures UponRoundChange(s) == Outcome(s, None)
  {
    ExpectedKinds(p, s.messages);
    NonEmptyHasElement(CandidateRounds(s.Visible(), s));
    var rcs := FutureRoundChanges(s.Visible(), s.Height(), s.round);
    NonEmptyHasElement(rcs);
    assert RoundChangeSenders(rcs) == {};
  }

  /** Neither of the rules that look for a later block or round fires, nor the timer. */
  lemma NothingElse(p: Play, s: NodeState)
    requires InPlay(p, s) && s.Visible() == s.messages && (s.accepted.Some? || s.messages == [])
    requires s.time < p.deadline
    ensures UponNewBlock(s) == Outcome(s, None)
    ensures UponRoundChange(s) == Outcome(s, None)
    ensures UponRoundTimeout(s) == Outcome(s, None)
  {
    NoneExpected(p, s);
    NoRoundChange(p, s);
  }

  /** Once accepted, the proposal is not accepted again. */
  lemma NoSecondProposal(p: Play, s: NodeState)
    requires InPlay(p, s) && s.Visible() == s.messages && (s.accepted.Some? || s.messages == [])
    ensures UponProposal(s) == Outcome(s, None)
  {
    ExpectedKinds(p, s.messages);
    assert forall q :: ProposalMessage(q) in s.messages ==> ProposalMessage(q).Round() == q.payload.unsigned.round;
  }

  lemma LeaderIsValidator(p: Play)
    requires p.Valid()
    ensures p.leader in p.Validators()
  {
  }

  lemma SameLeader(p: Play, chain: Chain)
    requires p.Valid() && chain.head == p.head
    ensures Proposer(0, chain) == p.leader
  {
  }

  // ---- Tick 1: the leader proposes ------------------------------------------------

  lemma Tick1(p: Play, s: NodeState, t: nat)
    requires p.Valid() && Waiting(p, s, t) && t < p.deadline
    ensures AfterTick1(p, s, NodeTick(s, [], t))
  {
    var s1 := AddMessages(s, [], t);
    Delivered(p, s, [], t, s1);
    NonEmptyHasElement(s1.messages);
    assert s1.messages == [];
    assert s1.(time := t) == s1;
    NoneExpected(p, s1);
    SameLeader(p, s1.chain);
    if s.id != p.leader {
      NothingElse(p, s1);
      NoSecondProposal(p, s1);
    }
  }

  // ---- Tick 2: the others accept --------------------------------------------------

  lemma AcceptsProposal(p: Play, s: NodeState)
    requires p.Valid() && InPlay(p, s) && s.accepted.None? && s.Visible() == s.messages
    requires ProposalMessage(p.Prop()) in s.messages
    ensures UponProposal(s) == AcceptProposal(s, p.Prop())
  {
    SameLeader(p, s.chain);
    assert IsValidProposal(p.Prop(), s);
    var r := FirstValidProposal(s.Visible(), s);
    assert p.Expected(ProposalMessage(r.value));
  }

  /** One prepare is not a quorum of two or more validators. */
  lemma OnePrepareIsTooFew(p: Play, s: NodeState)
    requires p.Valid() && InPlay(p, s) && s.Visible() == s.messages && s.accepted == Some(p.Prop())
    requires OnlyOpening(p, s.messages)
    ensures UponPrepare(s) == Outcome(s, None)
  {
    var ps := PreparesFor(s.Height(), 0, Digest(p.block), s.Visible());
    PreparesHaveDistinctSenders(s.Height(), 0, Digest(p.block), s.Visible());
    forall a | a in PrepareSenders(ps)
      ensures a == p.leader
    {
      var q :| q in ps && q.signature.author == a;
      assert PrepareMessage(q) in s.messages && Opening(p, PrepareMessage(q));
    }
    SubsetCardinality(PrepareSenders(ps), {p.leader});
  }

  lemma NoCommits(p: Play, s: NodeState)
    requires p.Valid() && InPlay(p, s) && s.Visible() == s.messages && s.accepted == Some(p.Prop())
    requires forall m :: m in s.messages ==> !m.CommitMessage?
    ensures UponCommit(s) == Outcome(s, None)
  {
    var cs := CommitsFor(s.Height(), 0, Digest(p.block), s.Visible());
    NonEmptyHasElement(cs);
    assert CommitSenders(cs) == {};
    QuorumBounds(|p.Validators()|);
  }

  /** A node that has just received, about to step. */
  ghost predicate Ready(p: Play, s: NodeState) {
    p.Valid() && InPlay(p, s) && s.Visible() == s.messages && s.time < p.deadline
  }

  lemma LeaderWaitsForPrepares(p: Play, s: NodeState)
    requires Ready(p, s) && s.accepted == Some(p.Prop())
    requires OnlyOpening(p, s.messages)
    ensures NextSubStep(s) == Outcome(s, None)
  {
    NothingElse(p, s);
    NoSecondProposal(p, s);
    OnePrepareIsTooFew(p, s);
    OpeningIsExpected(p, s.messages);
    NoCommits(p, s);
  }

  lemma OtherAccepts(p: Play, s: NodeState)
    requires Ready(p, s) && s.accepted.None? && s.id != p.leader && ProposalMessage(p.Prop()) in s.messages
    ensures NextSubStep(s) == AcceptProposal(s, p.Prop())
  {
    SameLeader(p, s.chain);
    NoneExpected(p, s);
    AcceptsProposal(p, s);
  }

  lemma AcceptingKeepsPlay(p: Play, s: NodeState)
    requires Ready(p, s) && p.Prepare(p.leader) in s.messages
    requires forall m :: m in s.messages ==> !m.CommitMessage?
    ensures var o := AcceptProposal(s, p.Prop());
            Accepted(p, o.state) && Sent(o) == [p.Prepare(s.id)] && o.state.id == s.id && o.state.config == s.config
  {
    PushKeepsPlay(p, s.(accepted := Some(p.Prop())), p.Prepare(s.id));
  }

  lemma Tick2(p: Play, s: NodeState, net: seq<Message>, t: nat)
    requires p.Valid() && Proposed(p, s) && t < p.deadline
    requires ProposalMessage(p.Prop()) in net && p.Prepare(p.leader) in net
    requires OnlyOpening(p, net)
    ensures AfterTick2(p, s, NodeTick(s, net, t))
  {
    var s1 := AddMessages(s, net, t);
    OpeningIsExpected(p, net);
    Delivered(p, s, net, t, s1);
    assert s1.(time := t) == s1;
    assert OnlyOpening(p, s1.messages);
    OpeningIsExpected(p, s1.messages);
    if s.id == p.leader {
      LeaderWaitsForPrepares(p, s1);
    } else {
      OtherAccepts(p, s1);
      AcceptingKeepsPlay(p, s1);
    }
  }

  lemma PushKeepsPlay(p: Play, s: NodeState, m: Message)
    requires InPlay(p, s) && p.Expected(m)
    ensures InPlay(p, s.Push(m))
    ensures forall x :: x in s.Push(m).messages <==> x in s.messages || x == m
  {
    InsertKeepsSorted(s.messages, m);
    if HasKey(s.messages, m.SortKey()) {
      var m' :| m' in s.messages && m'.SortKey() == m.SortKey();
      assert p.Expected(m');
      SameKeySameMessage(p, m, m');
    }
  }

  // ---- Tick 3: everyone prepares --------------------------------------------------

  lemma AllPreparesAreAQuorum(p: Play, ms: seq<Message>)
    requires p.Valid() && Sorted(ms) && AllPrepares(p, ms)
    ensures |PreparesFor(p.Height(), 0, Digest(p.block), ms)| >= Quorum(|p.Validators()|)
  {
    var ps := PreparesFor(p.Height(), 0, Digest(p.block), ms);
    PreparesHaveDistinctSenders(p.Height(), 0, Digest(p.block), ms);
    forall a | a in Elements(p.Validators())
      ensures a in PrepareSenders(ps)
    {
      assert PreparedBy(p, ms, a);
      var m := p.Prepare(a);
      assert m.prepare in ps && m.prepare.signature.author == a;
    }
    ElementsCardinality(p.Validators());
    SubsetCardinality(Elements(p.Validators()), PrepareSenders(ps));
    QuorumBounds(|p.Validators()|);
  }

  /** The state after committing. */
  function AfterCommit(p: Play, s: NodeState): (s': NodeState) {
    s.(preparedBlock := Some(p.block), preparedRound := Some(0)).Push(p.Commit(s.id))
  }

  lemma AllPrepared(p: Play, s: NodeState)
    requires p.Valid() && InPlay(p, s) && s.Visible() == s.messages && s.accepted == Some(p.Prop())
    requires AllPrepares(p, s.messages)
    requires forall m :: m in s.messages ==> !m.CommitMessage?
    ensures UponPrepare(s) == Outcome(AfterCommit(p, s), Some([p.Commit(s.id)]))
  {
    AllPreparesAreAQuorum(p, s.messages);
  }

  lemma EveryoneCommits(p: Play, s: NodeState)
    requires Ready(p, s) && s.accepted == Some(p.Prop())
    requires AllPrepares(p, s.messages)
    requires forall m :: m in s.messages ==> !m.CommitMessage?
    ensures NextSubStep(s) == Outcome(AfterCommit(p, s), Some([p.Commit(s.id)]))
  {
    NoneExpected(p, s);
    NoSecondProposal(p, s);
    AllPrepared(p, s);
  }

  lemma Tick3(p: Play, s: NodeState, net: seq<Message>, t: nat)
    requires p.Valid() && Accepted(p, s) && t < p.deadline
    requires AllExpected(p, net) && forall m :: m in net ==> m.PrepareMessage?
    requires forall a {:trigger PreparedBy(p, net, a)} ::
               a in p.Validators() && a != p.leader ==> PreparedBy(p, net, a)
    ensures AfterTick3(p, s, NodeTick(s, net, t))
  {
    var s1 := AddMessages(s, net, t);
    Delivered(p, s, net, t, s1);
    assert s1.(time := t) == s1;
    forall a | a in p.Validators()
      ensures PreparedBy(p, s1.messages, a)
    {
      assert a != p.leader ==> PreparedBy(p, net, a);
    }
    EveryoneCommits(p, s1);
    PushKeepsPlay(p, s1.(preparedBlock := Some(p.block), preparedRound := Some(0)), p.Commit(s.id));
  }

  // ---- Tick 4: the leader finalises -----------------------------------------------

  /** A node whose own commit is in view does not commit again. */
  lemma NoSecondCommit(p: Play, s: NodeState)
    requires InPlay(p, s) && s.Visible() == s.messages && p.Commit(s.id) in s.messages
    ensures UponPrepare(s) == Outcome(s, None)
  {
    assert p.Commit(s.id) in s.Visible();
    assert HasSentCommit(s);
  }

  /** The commits for the block in a store. */
  function CommitsIn(p: Play, ms: seq<Message>): (cs: seq<SignedCommit>) {
    CommitsFor(p.Height(), 0, Digest(p.block), ms)
  }

  /** One commit of each validator, all for this block. */
  lemma AllCommitted(p: Play, ms: seq<Message>)
    requires p.Valid() && AllExpected(p, ms) && AllCommits(p, ms)
    ensures |CommitSenders(CommitsIn(p, ms))| >= Quorum(|p.Validators()|)
    ensures |SealersIn(CommitsIn(p, ms))| >= Quorum(|p.Validators()|)
    ensures forall v :: v in CommitsIn(p, ms) ==> SealsBlock(v, p.block, p.Validators())
  {
    var cs := CommitsIn(p, ms);
    forall a | a in Elements(p.Validators())
      ensures a in CommitSenders(cs)
    {
      assert CommittedBy(p, ms, a);
      var m := p.Commit(a);
      assert m.commit in cs && m.commit.signature.author == a;
    }
    ElementsCardinality(p.Validators());
    SubsetCardinality(Elements(p.Validators()), CommitSenders(cs));
    QuorumBounds(|p.Validators()|);
    forall v | v in cs
      ensures SealsBlock(v, p.block, p.Validators()) && v.unsigned.commitSeal.author == v.signature.author
    {
      assert p.Expected(CommitMessage(v));
    }
    SendersAreSealers(cs);
  }

  /** A leader that finalised: the new head, and its new-block message. */
  ghost predicate Finalised(p: Play, s: NodeState, commits: seq<SignedCommit>, t: nat) {
    && Advanced(s, SealedBlock(p.block, commits))
    && s.id == p.leader && Sorted(s.messages) && (forall m :: m in s.messages ==> m.Height() == p.Height())
    && s.roundStart >= t && p.patience <= s.config.timeout(0)
    && Certified(p, commits)
  }

  /** The commits seal the block, and their sealers are a quorum. */
  ghost predicate Certified(p: Play, commits: seq<SignedCommit>) {
    && |SealersIn(commits)| >= Quorum(|p.Validators()|)
    && forall v :: v in commits ==> SealsBlock(v, p.block, p.Validators())
  }

  /** The leader's new-block message. */
  function Announcement(p: Play, commits: seq<SignedCommit>): (m: Message) {
    NewBlockMessage(SignNewBlock(SealedBlock(p.block, commits), p.leader))
  }

  lemma LeaderFinalises(p: Play, s: NodeState)
    requires Ready(p, s) && s.accepted == Some(p.Prop()) && s.id == p.leader
    requires AllCommits(p, s.messages)
    ensures var commits := CommitsIn(p, s.messages);
            UponCommit(s) == Outcome(AdvanceTo(s, SealedBlock(p.block, commits)).Push(Announcement(p, commits)),
                                     Some([Announcement(p, commits)]))
  {
    SameLeader(p, s.chain);
    AllCommitted(p, s.messages);
  }

  lemma LeaderSteps(p: Play, s: NodeState)
    requires Ready(p, s) && s.accepted == Some(p.Prop()) && s.id == p.leader
    requires AllCommits(p, s.messages)
    ensures NextSubStep(s) == UponCommit(s)
  {
    assert CommittedBy(p, s.messages, s.id);
    NoneExpected(p, s);
    NoSecondProposal(p, s);
    NoSecondCommit(p, s);
    LeaderCanFinalise(p, s);
  }

  lemma LeaderCanFinalise(p: Play, s: NodeState)
    requires Ready(p, s) && s.accepted == Some(p.Prop()) && s.id == p.leader
    requires AllCommits(p, s.messages)
    ensures UponCommit(s).sent.Some?
  {
    LeaderFinalises(p, s);
  }

  lemma OtherWaits(p: Play, s: NodeState)
    requires Ready(p, s) && s.accepted == Some(p.Prop()) && s.id != p.leader && p.Commit(s.id) in s.messages
    ensures NextSubStep(s) == Outcome(s, None)
  {
    NothingElse(p, s);
    NoSecondProposal(p, s);
    NoSecondCommit(p, s);
    OtherLeadsNothing(p, s);
    Rules.Waiting(s);
  }

  lemma OtherLeadsNothing(p: Play, s: NodeState)
    requires Ready(p, s) && s.accepted == Some(p.Prop()) && s.id != p.leader
    ensures UponBlockTimeout(s) == Outcome(s, None) && UponCommit(s) == Outcome(s, None)
  {
    SameLeader(p, s.chain);
  }

  lemma FinalisedHolds(p: Play, s: NodeState)
    requires Ready(p, s) && s.id == p.leader && AllCommits(p, s.messages)
    ensures var commits := CommitsIn(p, s.messages);
            var s' := AdvanceTo(s, SealedBlock(p.block, commits)).Push(Announcement(p, commits));
            Finalised(p, s', commits, s.time) && s'.config == s.config
  {
    AllCommitted(p, s.messages);
    var commits := CommitsIn(p, s.messages);
    StoreWithAnnouncement(p, s.messages, commits);
    var s1 := AdvanceTo(s, SealedBlock(p.block, commits));
    assert s1.messages == s.messages && s1.roundStart >= s.time;
  }

  lemma StoreWithAnnouncement(p: Play, ms: seq<Message>, commits: seq<SignedCommit>)
    requires p.Valid() && Sorted(ms) && AllExpected(p, ms)
    ensures Sorted(Insert(ms, Announcement(p, commits)))
    ensures forall m :: m in Insert(ms, Announcement(p, commits)) ==> m.Height() == p.Height()
  {
    InsertKeepsSorted(ms, Announcement(p, commits));
    ExpectedKinds(p, ms);
  }

  lemma Tick4(p: Play, s: NodeState, net: seq<Message>, t: nat) returns (commits: seq<SignedCommit>)
    requires p.Valid() && Committed(p, s) && t < p.deadline
    requires AllExpected(p, net) && AllCommits(p, net)
    ensures AfterTick4(p, s, NodeTick(s, net, t), commits, t)
  {
    var s1 := AddMessages(s, net, t);
    ReceivesCommits(p, s, net, t);
    commits := CommitsIn(p, s1.messages);
    if s.id == p.leader {
      LeaderEnds(p, s1);
    } else {
      OtherWaits(p, s1);
    }
  }

  lemma LeaderEnds(p: Play, s: NodeState)
    requires Ready(p, s) && s.accepted == Some(p.Prop()) && s.id == p.leader && AllCommits(p, s.messages)
    ensures var commits, o := CommitsIn(p, s.messages), NextSubStep(s);
            Finalised(p, o.state, commits, s.time) && Sent(o) == [Announcement(p, commits)] && SameNode(s, o.state)
  {
    LeaderSteps(p, s);
    LeaderFinalises(p, s);
    FinalisedHolds(p, s);
  }

  lemma ReceivesCommits(p: Play, s: NodeState, net: seq<Message>, t: nat)
    requires p.Valid() && Committed(p, s) && t < p.deadline && AllExpected(p, net) && AllCommits(p, net)
    ensures var s1 := AddMessages(s, net, t);
            && Ready(p, s1) && s1.accepted == Some(p.Prop()) && SameNode(s, s1) && s1.(time := t) == s1
            && s1.time == t && AllCommits(p, s1.messages) && p.Commit(s.id) in s1.messages
  {
    var s1 := AddMessages(s, net, t);
    Delivered(p, s, net, t, s1);
    forall a | a in p.Validators()
      ensures CommittedBy(p, s1.messages, a)
    {
      assert CommittedBy(p, net, a);
    }
    assert CommittedBy(p, s1.messages, s.id);
  }

  // ---- Tick 5: everyone adopts the block ------------------------------------------

  /** The node is in round 0 of the next height, on top of `sealed`. */
  predicate Advanced(s: NodeState, sealed: Block) {
    s.chain.head == sealed && s.round == 0 && s.accepted.None? && s.preparedBlock.None? && s.preparedRound.None?
  }

  /** The message for the others: valid, and the only one of its kind. */
  ghost predicate OnlyAnnouncement(p: Play, net: seq<Message>, commits: seq<SignedCommit>) {
    Announcement(p, commits) in net && forall m :: m in net ==> m == Announcement(p, commits)
  }

  lemma AnnouncementIsValid(p: Play, commits: seq<SignedCommit>, chain: Chain)
    requires p.Valid() && Certified(p, commits) && chain.head == p.head
    ensures Admissible(Announcement(p, commits), chain)
    ensures ValidNewBlock(chain, Announcement(p, commits).newBlock)
  {
    LeaderIsValidator(p);
    SameLeader(p, chain);
    SealedBlockValidIff(p.block, commits, p.leader, chain);
  }

  lemma ReceiveAnnouncement(p: Play, ms: seq<Message>, net: seq<Message>, commits: seq<SignedCommit>, chain: Chain)
    requires p.Valid() && AllExpected(p, ms) && OnlyAnnouncement(p, net, commits)
    requires Certified(p, commits) && chain.head == p.head
    ensures var r := Receive(ms, net, chain);
            && Announcement(p, commits) in r
            && (forall m :: m in r ==> m.Height() == p.Height())
            && (forall m :: m in r && m.NewBlockMessage? ==> m == Announcement(p, commits))
  {
    ExpectedKinds(p, ms);
    AnnouncementIsValid(p, commits, chain);
    var r, k := Receive(ms, net, chain), Announcement(p, commits).SortKey();
    assert HasKey(r, k);
    var m :| m in r && m.SortKey() == k;
    assert m.Kind() == 4;
  }

  lemma OtherAdopts(p: Play, s: NodeState, net: seq<Message>, commits: seq<SignedCommit>, t: nat)
    requires p.Valid() && InPlay(p, s) && OnlyAnnouncement(p, net, commits) && Certified(p, commits)
    ensures var o := NodeTick(s, net, t); Advanced(o.state, SealedBlock(p.block, commits))
  {
    ReceiveAnnouncement(p, s.messages, net, commits, s.chain);
    var s1 := s.(time := t, messages := Receive(s.messages, net, s.chain));
    Rules.PruneOneHeight(s1);
    var s2 := AddMessages(s, net, t);
    assert s2.(time := t) == s2 && s2.chain.head == p.head && s2.messages == s1.messages;
    AdoptsAnnouncement(p, s2, commits);
  }

  lemma AdoptsAnnouncement(p: Play, s: NodeState, commits: seq<SignedCommit>)
    requires p.Valid() && Certified(p, commits) && s.chain.head == p.head
    requires Announcement(p, commits) in s.messages
    requires forall m :: m in s.messages && m.NewBlockMessage? ==> m == Announcement(p, commits)
    ensures Advanced(NextSubStep(s).state, SealedBlock(p.block, commits))
  {
    AnnouncementIsValid(p, commits, s.chain);
    var nb := Announcement(p, commits).newBlock;
    var r := LastValidNewBlock(s.messages, s.chain);
    assert NewBlockMessage(nb) in s.messages && r.Some?;
    assert NewBlockMessage(r.value) == NewBlockMessage(nb);
  }

  /** The rotation moves on: the leader of this height does not lead the next. */
  lemma LeaderMovesOn(p: Play, commits: seq<SignedCommit>, chain: Chain)
    requires p.Valid() && chain.head == SealedBlock(p.block, commits)
    ensures Proposer(0, chain) != p.leader
  {
    LeaderIsValidator(p);
    var vs := p.Validators();
    var l := Position(vs, p.leader).value;
    assert RoundZeroIndex(chain) == l + 1;
    NextIndex(l, |vs|);
    assert vs[(l + 1 + 0) % |vs|] != vs[l];
  }

  lemma NextIndex(l: nat, n: nat)
    requires l < n && 2 <= n
    ensures (l + 1 + 0) % n < n && (l + 1 + 0) % n != l
  {
    if l + 1 < n {
      assert (l + 1 + 0) % n == l + 1;
    }
  }

  lemma PruneLowerHeight(s: NodeState)
    requires forall m :: m in s.messages ==> m.Height() < s.Height()
    ensures s.PruneMessages().messages == []
    ensures s.PruneMessages() == s.(messages := [], firstFuture := 0)
  {
    var ms := s.messages;
    assert forall i :: 0 <= i < |ms| ==> ms[i] in ms;
    assert BelowHeight(ms, s.Height()) == |ms|;
    assert ms[|ms|..] == [];
  }

  lemma EmptyStoreIsIdle(s: NodeState)
    requires s.messages == [] && s.accepted.None? && Proposer(0, s.chain) != s.id
    requires s.time < s.NextRoundTimeout()
    ensures NextSubStep(s) == Outcome(s, None)
  {
    assert s.Visible() == [];
    assert CandidateRounds([], s) == [];
    assert RoundChangeSenders([]) == {};
  }

  lemma LeaderStays(p: Play, s: NodeState, net: seq<Message>, commits: seq<SignedCommit>, t: nat, t': nat)
    requires p.Valid() && Finalised(p, s, commits, t) && OnlyAnnouncement(p, net, commits)
    requires t' < t + p.patience
    ensures var o := NodeTick(s, net, t'); Advanced(o.state, SealedBlock(p.block, commits))
  {
    var s1 := s.(time := t', messages := Receive(s.messages, net, s.chain));
    assert forall m :: m in s1.messages ==> m.Height() == p.Height();
    PruneLowerHeight(s1);
    var s2 := AddMessages(s, net, t');
    assert s2.(time := t') == s2;
    LeaderMovesOn(p, commits, s2.chain);
    EmptyStoreIsIdle(s2);
  }

  // ---- The swarm ------------------------------------------------------------------

  /** One node per validator. */
  ghost predicate Lineup(p: Play, nodes: seq<NodeState>) {
    |nodes| == |p.Validators()| && forall i :: 0 <= i < |nodes| ==> nodes[i].id == p.Validators()[i]
  }

  lemma LineupHas(p: Play, nodes: seq<NodeState>, a: Address) returns (i: nat)
    requires Lineup(p, nodes) && a in p.Validators()
    ensures i < |nodes| && nodes[i].id == a
  {
    i :| 0 <= i < |p.Validators()| && p.Validators()[i] == a;
  }

  ghost predicate Phase1(p: Play, w: Lock) {
    && Lineup(p, w.nodes) && (forall i :: 0 <= i < |w.nodes| ==> Proposed(p, w.nodes[i]))
    && ProposalMessage(p.Prop()) in w.net && p.Prepare(p.leader) in w.net && OnlyOpening(p, w.net)
  }

  lemma ReachesPhase1(p: Play, nodes: seq<NodeState>, step: NodeState -> Outcome)
    requires p.Valid() && Lineup(p, nodes)
    requires forall i :: 0 <= i < |nodes| ==> AfterTick1(p, nodes[i], step(nodes[i]))
    ensures Phase1(p, Lock(StepAll(nodes, step), Outputs(nodes, step)))
  {
    OutputsOpen(p, nodes, step);
    forall i | 0 <= i < |nodes|
      ensures InPhase(s => Proposed(p, s), nodes[i], step(nodes[i]).state)
    {
      assert AfterTick1(p, nodes[i], step(nodes[i]));
    }
    NodesAfter(p, nodes, step, s => Proposed(p, s));
  }

  /** The node is still itself, and in the given phase. */
  ghost predicate InPhase(phase: NodeState -> bool, s: NodeState, s': NodeState) {
    s'.id == s.id && phase(s')
  }

  lemma NodesAfter(p: Play, nodes: seq<NodeState>, step: NodeState -> Outcome, phase: NodeState -> bool)
    requires Lineup(p, nodes)
    requires forall i :: 0 <= i < |nodes| ==> InPhase(phase, nodes[i], step(nodes[i]).state)
    ensures Lineup(p, StepAll(nodes, step))
    ensures forall i :: 0 <= i < |nodes| ==> phase(StepAll(nodes, step)[i])
  {
  }

  lemma OutputsOpen(p: Play, nodes: seq<NodeState>, step: NodeState -> Outcome)
    requires p.Valid() && Lineup(p, nodes)
    requires forall i :: 0 <= i < |nodes| ==> AfterTick1(p, nodes[i], step(nodes[i]))
    ensures ProposalMessage(p.Prop()) in Outputs(nodes, step) && p.Prepare(p.leader) in Outputs(nodes, step)
    ensures OnlyOpening(p, Outputs(nodes, step))
  {
    LeaderIsValidator(p);
    var l := LineupHas(p, nodes, p.leader);
    assert AfterTick1(p, nodes[l], step(nodes[l]));
    OutputsHas(nodes, step, l, ProposalMessage(p.Prop()));
    OutputsHas(nodes, step, l, p.Prepare(p.leader));
    forall m | m in Outputs(nodes, step)
      ensures Opening(p, m)
    {
      var i := OutputsFrom(nodes, step, m);
      assert AfterTick1(p, nodes[i], step(nodes[i]));
    }
  }

  ghost predicate Phase2(p: Play, w: Lock) {
    && Lineup(p, w.nodes) && (forall i :: 0 <= i < |w.nodes| ==> Accepted(p, w.nodes[i]))
    && AllExpected(p, w.net) && (forall m :: m in w.net ==> m.PrepareMessage?)
    && forall a {:trigger PreparedBy(p, w.net, a)} ::
         a in p.Validators() && a != p.leader ==> PreparedBy(p, w.net, a)
  }

  lemma ReachesPhase2(p: Play, nodes: seq<NodeState>, step: NodeState -> Outcome)
    requires p.Valid() && Lineup(p, nodes)
    requires forall i :: 0 <= i < |nodes| ==> AfterTick2(p, nodes[i], step(nodes[i]))
    ensures Phase2(p, Lock(StepAll(nodes, step), Outputs(nodes, step)))
  {
    OutputsPrepared(p, nodes, step);
    OutputsExpected2(p, nodes, step);
    AllAccepted(p, nodes, step);
  }

  lemma AllAccepted(p: Play, nodes: seq<NodeState>, step: NodeState -> Outcome)
    requires Lineup(p, nodes)
    requires forall i :: 0 <= i < |nodes| ==> AfterTick2(p, nodes[i], step(nodes[i]))
    ensures Lineup(p, StepAll(nodes, step))
    ensures forall i :: 0 <= i < |nodes| ==> Accepted(p, StepAll(nodes, step)[i])
  {
    var phase := s => Accepted(p, s);
    forall i | 0 <= i < |nodes|
      ensures InPhase(phase, nodes[i], step(nodes[i]).state)
    {
      assert AfterTick2(p, nodes[i], step(nodes[i]));
    }
    NodesAfter(p, nodes, step, phase);
    forall i | 0 <= i < |nodes|
      ensures Accepted(p, StepAll(nodes, step)[i])
    {
      assert phase(StepAll(nodes, step)[i]);
    }
  }

  lemma OutputsPrepared(p: Play, nodes: seq<NodeState>, step: NodeState -> Outcome)
    requires Lineup(p, nodes)
    requires forall i :: 0 <= i < |nodes| ==> AfterTick2(p, nodes[i], step(nodes[i]))
    ensures forall a {:trigger PreparedBy(p, Outputs(nodes, step), a)} ::
              a in p.Validators() && a != p.leader ==> PreparedBy(p, Outputs(nodes, step), a)
  {
    forall a | a in p.Validators() && a != p.leader
      ensures PreparedBy(p, Outputs(nodes, step), a)
    {
      var i := LineupHas(p, nodes, a);
      assert AfterTick2(p, nodes[i], step(nodes[i]));
      OutputsHas(nodes, step, i, p.Prepare(a));
    }
  }

  lemma OutputsExpected2(p: Play, nodes: seq<NodeState>, step: NodeState -> Outcome)
    requires Lineup(p, nodes)
    requires forall i :: 0 <= i < |nodes| ==> AfterTick2(p, nodes[i], step(nodes[i]))
    ensures AllExpected(p, Outputs(nodes, step)) && forall m :: m in Outputs(nodes, step) ==> m.PrepareMessage?
  {
    forall m | m in Outputs(nodes, step)
      ensures p.Expected(m) && m.PrepareMessage?
    {
      var i := OutputsFrom(nodes, step, m);
      assert AfterTick2(p, nodes[i], step(nodes[i]));
    }
  }

  ghost predicate Phase3(p: Play, w: Lock) {
    && Lineup(p, w.nodes) && (forall i :: 0 <= i < |w.nodes| ==> Committed(p, w.nodes[i]))
    && AllExpected(p, w.net) && AllCommits(p, w.net)
  }

  lemma ReachesPhase3(p: Play, nodes: seq<NodeState>, step: NodeState -> Outcome)
    requires p.Valid() && Lineup(p, nodes)
    requires forall i :: 0 <= i < |nodes| ==> AfterTick3(p, nodes[i], step(nodes[i]))
    ensures Phase3(p, Lock(StepAll(nodes, step), Outputs(nodes, step)))
  {
    OutputsCommitted(p, nodes, step);
    OutputsExpected3(p, nodes, step);
    forall i | 0 <= i < |nodes|
      ensures InPhase(s => Committed(p, s), nodes[i], step(nodes[i]).state)
    {
      assert AfterTick3(p, nodes[i], step(nodes[i]));
    }
    NodesAfter(p, nodes, step, s => Committed(p, s));
  }

  lemma OutputsCommitted(p: Play, nodes: seq<NodeState>, step: NodeState -> Outcome)
    requires Lineup(p, nodes)
    requires forall i :: 0 <= i < |nodes| ==> AfterTick3(p, nodes[i], step(nodes[i]))
    ensures AllCommits(p, Outputs(nodes, step))
  {
    forall a | a in p.Validators()
      ensures CommittedBy(p, Outputs(nodes, step), a)
    {
      var i := LineupHas(p, nodes, a);
      assert AfterTick3(p, nodes[i], step(nodes[i]));
      OutputsHas(nodes, step, i, p.Commit(a));
    }
  }

  lemma OutputsExpected3(p: Play, nodes: seq<NodeState>, step: NodeState -> Outcome)
    requires Lineup(p, nodes)
    requires forall i :: 0 <= i < |nodes| ==> AfterTick3(p, nodes[i], step(nodes[i]))
    ensures AllExpected(p, Outputs(nodes, step))
  {
    forall m | m in Outputs(nodes, step)
      ensures p.Expected(m)
    {
      var i := OutputsFrom(nodes, step, m);
      assert AfterTick3(p, nodes[i], step(nodes[i]));
    }
  }

  /** The leader finalised at `t`; the others are about to hear of it. */
  ghost predicate Phase4(p: Play, w: Lock, commits: seq<SignedCommit>, t: nat) {
    && Lineup(p, w.nodes) && OnlyAnnouncement(p, w.net, commits) && Certified(p, commits)
    && forall i :: 0 <= i < |w.nodes| ==> Phase4Node(p, w.nodes[i], commits, t)
  }

  ghost predicate Phase4Node(p: Play, s: NodeState, commits: seq<SignedCommit>, t: nat) {
    if s.id == p.leader then Finalised(p, s, commits, t) else Committed(p, s)
  }

  lemma ReachesPhase4(p: Play, nodes: seq<NodeState>, step: NodeState -> Outcome, commits: seq<SignedCommit>, t: nat)
    requires p.Valid() && Lineup(p, nodes)
    requires forall i :: 0 <= i < |nodes| ==> AfterTick4(p, nodes[i], step(nodes[i]), commits, t)
    ensures Phase4(p, Lock(StepAll(nodes, step), Outputs(nodes, step)), commits, t)
  {
    OutputsAnnounce(p, nodes, step, commits, t);
    forall i | 0 <= i < |nodes|
      ensures InPhase(s => Phase4Node(p, s, commits, t), nodes[i], step(nodes[i]).state)
    {
      assert AfterTick4(p, nodes[i], step(nodes[i]), commits, t);
    }
    NodesAfter(p, nodes, step, s => Phase4Node(p, s, commits, t));
  }

  lemma OutputsAnnounce(
    p: Play, nodes: seq<NodeState>, step: NodeState -> Outcome, commits: seq<SignedCommit>, t: nat)
    requires p.Valid() && Lineup(p, nodes)
    requires forall i :: 0 <= i < |nodes| ==> AfterTick4(p, nodes[i], step(nodes[i]), commits, t)
    ensures OnlyAnnouncement(p, Outputs(nodes, step), commits) && Certified(p, commits)
  {
    LeaderIsValidator(p);
    var l := LineupHas(p, nodes, p.leader);
    assert AfterTick4(p, nodes[l], step(nodes[l]), commits, t);
    OutputsHas(nodes, step, l, Announcement(p, commits));
    forall m | m in Outputs(nodes, step)
      ensures m == Announcement(p, commits)
    {
      var i := OutputsFrom(nodes, step, m);
      assert AfterTick4(p, nodes[i], step(nodes[i]), commits, t);
    }
  }

  /** A swarm at the start of a height, just before its leader proposes. */
  ghost predicate Start(p: Play, w: Lock, t: nat) {
    && p.Valid() && Lineup(p, w.nodes) && w.net == []
    && forall i :: 0 <= i < |w.nodes| ==> Waiting(p, w.nodes[i], t)
  }

  lemma FirstTick(p: Play, w: Lock, t: nat)
    requires Start(p, w, t) && t < p.deadline
    ensures Phase1(p, Tick(w, t))
  {
    var step := s => NodeTick(s, w.net, t);
    forall i | 0 <= i < |w.nodes|
      ensures AfterTick1(p, w.nodes[i], step(w.nodes[i]))
    {
      Tick1(p, w.nodes[i], t);
    }
    ReachesPhase1(p, w.nodes, step);
  }

  lemma SecondTick(p: Play, w: Lock, t: nat)
    requires p.Valid() && Phase1(p, w) && t < p.deadline
    ensures Phase2(p, Tick(w, t))
  {
    var step := s => NodeTick(s, w.net, t);
    forall i | 0 <= i < |w.nodes|
      ensures AfterTick2(p, w.nodes[i], step(w.nodes[i]))
    {
      Tick2(p, w.nodes[i], w.net, t);
    }
    ReachesPhase2(p, w.nodes, step);
  }

  lemma ThirdTick(p: Play, w: Lock, t: nat)
    requires p.Valid() && Phase2(p, w) && t < p.deadline
    ensures Phase3(p, Tick(w, t))
  {
    var step := s => NodeTick(s, w.net, t);
    forall i | 0 <= i < |w.nodes|
      ensures AfterTick3(p, w.nodes[i], step(w.nodes[i]))
    {
      Tick3(p, w.nodes[i], w.net, t);
    }
    ReachesPhase3(p, w.nodes, step);
  }

  lemma FourthTick(p: Play, w: Lock, t: nat) returns (commits: seq<SignedCommit>)
    requires p.Valid() && Phase3(p, w) && t < p.deadline
    ensures Phase4(p, Tick(w, t), commits, t)
  {
    var step := s => NodeTick(s, w.net, t);
    LeaderIsValidator(p);
    var l := LineupHas(p, w.nodes, p.leader);
    commits := Tick4(p, w.nodes[l], w.net, t);
    forall i | 0 <= i < |w.nodes|
      ensures AfterTick4(p, w.nodes[i], step(w.nodes[i]), commits, t)
    {
      if i != l {
        var _ := Tick4(p, w.nodes[i], w.net, t);
      }
    }
    ReachesPhase4(p, w.nodes, step, commits, t);
  }

  /** Every node is at the next height, on top of `sealed`. */
  ghost predicate AllAdvanced(p: Play, w: Lock, sealed: Block) {
    && |w.nodes| == |p.Validators()|
    && forall i :: 0 <= i < |w.nodes| ==> Advanced(w.nodes[i], sealed) && w.nodes[i].Height() == p.Height() + 1
  }

  lemma FifthTick(p: Play, w: Lock, commits: seq<SignedCommit>, t: nat, t': nat)
    requires p.Valid() && Phase4(p, w, commits, t) && t' < t + p.patience
    ensures AllAdvanced(p, Tick(w, t'), SealedBlock(p.block, commits))
  {
    var step := s => NodeTick(s, w.net, t');
    forall i | 0 <= i < |w.nodes|
      ensures Advanced(step(w.nodes[i]).state, SealedBlock(p.block, commits))
    {
      FifthNode(p, w.nodes[i], w.net, commits, t, t');
    }
    ReachesEnd(p, w.nodes, step, commits);
  }

  lemma FifthNode(p: Play, s: NodeState, net: seq<Message>, commits: seq<SignedCommit>, t: nat, t': nat)
    requires p.Valid() && OnlyAnnouncement(p, net, commits) && Certified(p, commits) && t' < t + p.patience
    requires Phase4Node(p, s, commits, t)
    ensures Advanced(NodeTick(s, net, t').state, SealedBlock(p.block, commits))
  {
    if s.id == p.leader {
      LeaderStays(p, s, net, commits, t, t');
    } else {
      OtherAdopts(p, s, net, commits, t');
    }
  }

  lemma ReachesEnd(p: Play, nodes: seq<NodeState>, step: NodeState -> Outcome, commits: seq<SignedCommit>)
    requires p.Valid() && Lineup(p, nodes)
    requires forall i :: 0 <= i < |nodes| ==> Advanced(step(nodes[i]).state, SealedBlock(p.block, commits))
    ensures AllAdvanced(p, Lock(StepAll(nodes, step), Outputs(nodes, step)), SealedBlock(p.block, commits))
  {
  }

  lemma LastTwoTicks(p: Play, w3: Lock, w4: Lock, w5: Lock, t: nat, t': nat) returns (commits: seq<SignedCommit>)
    requires p.Valid() && Phase3(p, w3) && w4 == Tick(w3, t) && w5 == Tick(w4, t')
    requires t < p.deadline && t' < t + p.patience
    ensures Certified(p, commits) && AllAdvanced(p, w5, SealedBlock(p.block, commits))
  {
    commits := FourthTick(p, w3, t);
    FifthTick(p, w4, commits, t, t');
  }

  /** Successive states of a swarm that ticks at the given times. */
  ghost predicate Ticks(ws: seq<Lock>, ts: seq<nat>) {
    |ws| == |ts| + 1 && forall k :: 0 <= k < |ts| ==> ws[k + 1] == Tick(ws[k], ts[k])
  }

  lemma ThreeTicks(p: Play, ws: seq<Lock>, ts: seq<nat>)
    requires |ts| == 5 && Ticks(ws, ts) && Start(p, ws[0], ts[0])
    requires forall k :: 0 <= k < 4 ==> ts[k] < p.deadline
    ensures Phase3(p, ws[3])
  {
    FirstTick(p, ws[0], ts[0]);
    assert ws[0 + 1] == Tick(ws[0], ts[0]);
    SecondTick(p, ws[1], ts[1]);
    assert ws[1 + 1] == Tick(ws[1], ts[1]);
    ThirdTick(p, ws[2], ts[2]);
    assert ws[2 + 1] == Tick(ws[2], ts[2]);
  }

  /** For any number of validators from two on: from a common height, round 0 and empty
      stores, with a ready leader and lock-step delivery before any timer runs out, five
      ticks bring every node to the next height with the same head, the leader's block
      with a certificate of commit seals. */
  lemma FiveTicksFinalise(p: Play, ws: seq<Lock>, ts: seq<nat>) returns (commits: seq<SignedCommit>)
    requires |ts| == 5 && Ticks(ws, ts) && Start(p, ws[0], ts[0])
    requires forall k :: 0 <= k < 4 ==> ts[k] < p.deadline
    requires ts[4] < ts[3] + p.patience
    ensures Certified(p, commits) && AllAdvanced(p, ws[5], SealedBlock(p.block, commits))
  {
    ThreeTicks(p, ws, ts);
    assert ws[3 + 1] == Tick(ws[3], ts[3]) && ws[4 + 1] == Tick(ws[4], ts[4]);
    commits := LastTwoTicks(p, ws[3], ws[4], ws[5], ts[3], ts[4]);
  }

  /** Such a start exists for every set of at least two validators: a swarm of freshly
      started nodes on a common genesis block. */
  lemma StartExists(validators: seq<Address>) returns (p: Play, w: Lock)
    requires |validators| >= 2 && Distinct(validators)
    ensures Start(p, w, 1) && p.Validators() == validators && 1 < p.deadline && 0 < p.patience
  {
    var head := Block(BlockHeader(ZERO_ADDRESS, 0, [], 0, 0, validators, BodyHash([])), [], []);
    var leader := Proposer(0, Chain([], head, None));
    var block := Block(BlockHeader(leader, 0, [], 1, 1, validators, BodyHash([])), [], []);
    var config := Config(1, true, _ => 1, (_, _) => false);
    p := Play(head, leader, block, 2, 1);
    w := Lock(seq(|validators|, i requires 0 <= i < |validators| =>
                InitialState(validators[i], config, Chain([], head, Some(block)), 0)), []);
    forall i | 0 <= i < |w.nodes|
      ensures Waiting(p, w.nodes[i], 1)
    {
      assert w.nodes[i] == InitialState(validators[i], config, Chain([], head, Some(block)), 0);
    }
  }
}
