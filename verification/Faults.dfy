/** Two runs of four validators, one of them faulty, that show what the protocol's checks
    let through.

    In both, the first validator leads round 0 and commits its block with the third and the
    faulty second. In one, the second's commit carries a bad seal, and the block the leader
    seals with it is valid for nobody. In the other, the second leads round 1 and proposes
    the prepared block again under a round number of its own choosing. */
module Faults {
  import opened Prelude
  import opened Types
  import opened Validators
  import opened Justification
  import opened Protocol
  import opened Swarm
  import opened Rules
  import opened Staging
  import Agreement
  import Certificates

  // ---- The cast -------------------------------------------------------------------

  /** Four validators, the second of them faulty, with the block the first proposes and the
      round number the second will put on it. */
  datatype Play = Play(
    g: Setting, first: Address, second: Address, third: Address, fourth: Address, a: Block, odd: nat)
  {
    predicate Good() {
      && Quorum(|g.Validators()|) == 3 && MaxFaulty(|g.Validators()|) == 1
      && first in g.Validators() && second in g.Validators() && third in g.Validators() && fourth in g.Validators()
      && first != second && first != third && first != fourth
      && second != third && second != fourth && third != fourth
      && Proposer(0, g.Start()) == first && Proposer(1, g.Start()) == second
      && second !in g.committee.honest
      && a.header.height == g.Height() && a.header.roundNumber == 0 && a.header.proposer == first
      && a.header.validators == g.Validators() && a.ValidDigest()
    }

    /** The others are honest, and there are no more; and a timeout leads to a new round. */
    ghost predicate Complete() {
      && g.committee.Valid() && |g.committee.validators| == 4 && g.committee.honest == Honest()
      && g.TimesOut()
    }

    function Honest(): set<Address> {
      {first, third, fourth}
    }

    function Prep(x: Address): Message {
      PrepareOf(g, 0, a, x)
    }

    /** The second validator seals something else than the block. */
    function Com(x: Address): Message {
      if x == second then BadCommit() else CommitOf(g, 0, a, x)
    }

    function BadCommit(): Message {
      CommitMessage(SignCommit(UnsignedCommit(g.Height(), 0, Sign(second, OfHash(RawHash(0))), Digest(a)), second))
    }

    function ProposalA(): Proposal {
      ProposalOf(g, a, first)
    }

    function PA(): Message {
      ProposalMessage(ProposalA())
    }

    function RC4(): Message {
      RoundChangeMessage(BareChange(g, fourth))
    }

    /** The claim to have prepared the block in round 0. */
    function Claim(x: Address): SignedRoundChange {
      SignRoundChange(UnsignedRoundChange(g.Height(), 1, Some(Digest(a)), Some(0)), x)
    }

    function RC2(): Message {
      RoundChangeMessage(RoundChange(Claim(second), [], Some(a)))
    }

    /** The block under another round number. */
    function Odd(): Block {
      ReplaceRound(a, odd)
    }

    function OddProposal(): Proposal {
      Proposal(
        SignProposal(UnsignedProposal(g.Height(), 1, Digest(Odd())), second),
        Odd(),
        [Claim(first), Claim(second), Claim(third)],
        [Prep(first).prepare, Prep(second).prepare, Prep(third).prepare])
    }

    function P1(): Message {
      ProposalMessage(OddProposal())
    }
  }

  // ---- The messages ---------------------------------------------------------------

  /** The round changes of the first and the third validator, once they exist. */
  datatype Script = Script(first: Option<RoundChange>, third: Option<RoundChange>)

  predicate Sound(y: Play, x: Script) {
    && (x.first.Some? ==> Announces(y.g, x.first.value, 1, y.a, 0, y.first))
    && (x.third.Some? ==> Announces(y.g, x.third.value, 1, y.a, 0, y.third))
  }

  predicate Line(y: Play, x: Script, m: Message) {
    || m == y.PA() || m == y.P1() || m == y.RC4() || m == y.RC2()
    || (m.Author() in y.g.Validators() && (m == y.Prep(m.Author()) || m == y.Com(m.Author())))
    || (x.first.Some? && m == RoundChangeMessage(x.first.value))
    || (x.third.Some? && m == RoundChangeMessage(x.third.value))
  }

  ghost predicate Scripted(y: Play, x: Script, ms: set<Message>) {
    Sound(y, x) && forall m {:trigger Line(y, x, m)} :: m in ms ==> Line(y, x, m)
  }

  const OPENING: Script := Script(None, None)

  lemma ProposalIsAdmitted(y: Play)
    requires y.Good()
    ensures Admits(y.g, y.P1()) && Admits(y.g, y.PA())
  {
  }

  lemma LineIsAdmitted(y: Play, x: Script, m: Message)
    requires y.Good() && Sound(y, x) && Line(y, x, m)
    ensures Admits(y.g, m)
  {
    ProposalIsAdmitted(y);
  }

  lemma LineIsAlone(y: Play, x: Script, m: Message, m': Message)
    requires y.Good() && Sound(y, x) && Line(y, x, m) && Line(y, x, m') && m.SortKey() == m'.SortKey()
    ensures m == m'
  {
    match m
    case ProposalMessage(_) =>
    case PrepareMessage(_) =>
    case CommitMessage(_) =>
    case RoundChangeMessage(_) =>
    case NewBlockMessage(_) =>
  }

  lemma ScriptedIsClean(y: Play, x: Script, ms: set<Message>)
    requires y.Good() && Scripted(y, x, ms)
    ensures Clean(y.g, ms)
  {
    forall m | m in ms
      ensures Admits(y.g, m) && Alone(ms, m)
    {
      assert Line(y, x, m);
      LineIsAdmitted(y, x, m);
      forall m' | m' in ms && m'.SortKey() == m.SortKey()
        ensures m' == m
      {
        assert Line(y, x, m');
        LineIsAlone(y, x, m, m');
      }
    }
  }

  lemma AddLine(y: Play, x: Script, ms: set<Message>, m: Message)
    requires y.Good() && Scripted(y, x, ms) && Line(y, x, m)
    ensures Scripted(y, x, ms + {m}) && Clean(y.g, ms + {m})
  {
    ScriptedIsClean(y, x, ms + {m});
  }

  lemma VoteLines(y: Play, x: Script, ms: set<Message>, a: Address)
    requires y.Good() && Scripted(y, x, ms) && a in y.g.Validators()
    ensures Scripted(y, x, ms + {y.Prep(a)}) && Clean(y.g, ms + {y.Prep(a)})
    ensures Scripted(y, x, ms + {y.Com(a)}) && Clean(y.g, ms + {y.Com(a)})
  {
    assert Line(y, x, y.Prep(a)) && Line(y, x, y.Com(a));
    AddLine(y, x, ms, y.Prep(a));
    AddLine(y, x, ms, y.Com(a));
  }

  // ---- Round 0 --------------------------------------------------------------------

  /** Nothing has happened but that the first node has been given a block to propose. */
  ghost predicate Opened(y: Play, v: Show, ks: map<Address, Sketch>) {
    && y.Good() && y.g == v.g && v.Runs() && v.can(ks, {}) && y.g.TimesOut()
    && ks.Keys == y.Honest() && ks[y.first] == Blank(y.first, Some(y.a))
    && ks[y.third] == Blank(y.third, None) && ks[y.fourth] == Blank(y.fourth, None)
  }

  lemma Opening(y: Play, v: Show) returns (ks: map<Address, Sketch>)
    requires y.Good() && y.Complete() && y.g == v.g && v.Runs() && v.within(Birth(y.g))
    ensures Opened(y, v, ks)
  {
    BirthIsShown(v);
    ks := Offers(y, v, Blanks(y.g));
  }

  lemma Offers(y: Play, v: Show, ks: map<Address, Sketch>) returns (ks': map<Address, Sketch>)
    requires y.Good() && y.g == v.g && v.Runs() && v.can(ks, {}) && y.g.TimesOut()
    requires ks.Keys == y.Honest() && forall a :: a in ks ==> ks[a] == Blank(a, None)
    ensures Opened(y, v, ks')
  {
    OfferAct(v, ks, {}, y.first, y.a);
    ks' := ks[y.first := ks[y.first].(proposed := Some(y.a))];
  }

  function Proposed1(y: Play): (k: Sketch) {
    Blank(y.first, Some(y.a)).(accepted := Some(y.ProposalA()))
  }

  lemma FirstProposes(y: Play, v: Show, ks: map<Address, Sketch>)
    requires Opened(y, v, ks)
    ensures v.can(ks[y.first := Proposed1(y)], {y.PA(), y.Prep(y.first)})
    ensures Scripted(y, OPENING, {y.PA(), y.Prep(y.first)})
  {
    assert Line(y, OPENING, y.PA()) && Line(y, OPENING, y.Prep(y.first));
    assert {} + {y.PA(), y.Prep(y.first)} == {y.PA(), y.Prep(y.first)};
    ScriptedIsClean(y, OPENING, {y.PA(), y.Prep(y.first)});
    ProposeAct(v, ks, {}, y.first, y.a, y.PA(), y.Prep(y.first));
  }

  lemma ProposalAPasses(y: Play)
    requires y.Good()
    ensures ProposalChecks(y.ProposalA(), y.g.Start())
  {
  }

  /** With the block accepted in round 0, and prepared by the node itself. */
  predicate Accepted0(y: Play, k: Sketch, a: Address, proposed: Option<Block>) {
    k == Sketch(a, proposed, 0, Some(y.ProposalA()), None, None, k.known)
  }

  lemma ThirdAccepts(y: Play, v: Show, ks: map<Address, Sketch>, net: set<Message>) returns (k': Sketch)
    requires y.Good() && y.g == v.g && v.Runs() && v.can(ks, net) && Scripted(y, OPENING, net) && y.PA() in net
    requires y.third in ks && ks[y.third] == Blank(y.third, None)
    ensures v.can(ks[y.third := k'], net + {y.Prep(y.third)}) && Scripted(y, OPENING, net + {y.Prep(y.third)})
    ensures Accepted0(y, k', y.third, None) && k'.known == {y.PA(), y.Prep(y.third)}
  {
    ProposalAPasses(y);
    assert Elements([y.PA()]) == {y.PA()};
    var k := ks[y.third].Hears([y.PA()]);
    assert k.known == {y.PA()};
    VoteLines(y, OPENING, net, y.third);
    AcceptAct(v, ks, net, y.third, [y.PA()], k, y.ProposalA(), y.Prep(y.third));
    k' := Took(y.g, k, y.ProposalA());
  }

  lemma SecondPrepares(y: Play, v: Show, ks: map<Address, Sketch>, net: set<Message>)
    requires y.Good() && y.g == v.g && v.Runs() && v.can(ks, net) && Scripted(y, OPENING, net)
    ensures v.can(ks, net + {y.Prep(y.second)}) && Scripted(y, OPENING, net + {y.Prep(y.second)})
  {
    VoteLines(y, OPENING, net, y.second);
    PlantAct(v, ks, net, y.Prep(y.second));
  }

  /** The three that prepare. */
  function Voters(y: Play): (s: set<Address>)
    requires y.Good()
    ensures |s| == 3
  {
    {y.first, y.second, y.third}
  }

  function Prepares(y: Play): (ms: seq<Message>) {
    [y.Prep(y.first), y.Prep(y.second), y.Prep(y.third)]
  }

  lemma AllPrepares(y: Play)
    ensures Elements(Prepares(y)) == {y.Prep(y.first), y.Prep(y.second), y.Prep(y.third)}
  {
  }

  /** Committed in round 0, with nothing of a later round known and no commit but its own. */
  ghost predicate Voted0(y: Play, k: Sketch, a: Address) {
    && k == Sketch(a, k.proposed, 0, Some(y.ProposalA()), Some(y.a), Some(0), k.known)
    && CommitOf(y.g, 0, y.a, a) in k.known
    && (forall m :: m in k.known ==> m.Round() == 0)
    && forall m :: m in k.known && m.CommitMessage? ==> m.Author() == a
  }

  lemma Votes0(
    y: Play, v: Show, ks: map<Address, Sketch>, net: set<Message>, a: Address, proposed: Option<Block>)
    returns (k': Sketch)
    requires y.Good() && y.g == v.g && v.Runs() && v.can(ks, net) && Scripted(y, OPENING, net)
    requires Elements(Prepares(y)) <= net && a in y.g.Validators() && a != y.second
    requires a in ks && Accepted0(y, ks[a], a, proposed)
    requires forall m :: m in ks[a].known ==> m == y.PA() || m == y.Prep(a)
    ensures v.can(ks[a := k'], net + {y.Com(a)}) && Scripted(y, OPENING, net + {y.Com(a)}) && Voted0(y, k', a)
  {
    var k := ks[a].Hears(Prepares(y));
    MayVote0(y, ks[a], k, a);
    VoteLines(y, OPENING, net, a);
    VoteAct(v, ks, net, a, Prepares(y), k, y.ProposalA(), Voters(y), y.Com(a));
    k' := Voted(y.g, k, y.a);
    AfterVote0(y, k, a, k');
  }

  /** The proposal and prepares of round 0. */
  ghost predicate OnlyPrepares(y: Play, ms: set<Message>) {
    forall m :: m in ms ==> m == y.PA() || (m.PrepareMessage? && m.Round() == 0)
  }

  lemma MayVote0(y: Play, k0: Sketch, k: Sketch, a: Address)
    requires y.Good() && k == k0.Hears(Prepares(y)) && k0.id == a && k0.round == 0
    requires forall m :: m in k0.known ==> m == y.PA() || m == y.Prep(a)
    ensures OnlyPrepares(y, k.known) && NoLaterProposal(k) && NotVoted(k) && PreparedBy(y.g, k, y.a, Voters(y))
  {
    AllPrepares(y);
  }

  lemma AfterVote0(y: Play, k: Sketch, a: Address, k': Sketch)
    requires OnlyPrepares(y, k.known) && k' == Voted(y.g, k, y.a)
    requires k == Sketch(a, k.proposed, 0, Some(y.ProposalA()), None, None, k.known)
    ensures Voted0(y, k', a)
  {
  }

  /** The first and the third validator have committed the block, with the second's help. */
  lemma Committed(y: Play, v: Show, start: map<Address, Sketch>) returns (ks: map<Address, Sketch>, net: set<Message>)
    requires Opened(y, v, start)
    ensures v.can(ks, net) && Scripted(y, OPENING, net) && Elements(Prepares(y)) <= net && y.Com(y.third) in net
    ensures ks.Keys == y.Honest() && Voted0(y, ks[y.first], y.first) && Voted0(y, ks[y.third], y.third)
    ensures ks[y.fourth] == Blank(y.fourth, None) && forall m :: m in net ==> m.Round() == 0
  {
    ks, net := Prepared0(y, v, start);
    var k := Votes0(y, v, ks, net, y.third, None);
    ks, net := ks[y.third := k], net + {y.Com(y.third)};
    k := Votes0(y, v, ks, net, y.first, Some(y.a));
    ks, net := ks[y.first := k], net + {y.Com(y.first)};
  }

  lemma Prepared0(y: Play, v: Show, start: map<Address, Sketch>) returns (ks: map<Address, Sketch>, net: set<Message>)
    requires Opened(y, v, start)
    ensures v.can(ks, net) && Scripted(y, OPENING, net) && Elements(Prepares(y)) <= net
    ensures ks.Keys == y.Honest() && ks[y.first] == Proposed1(y) && ks[y.fourth] == Blank(y.fourth, None)
    ensures Accepted0(y, ks[y.third], y.third, None) && ks[y.third].known == {y.PA(), y.Prep(y.third)}
    ensures forall m :: m in net ==> m.Round() == 0
  {
    FirstProposes(y, v, start);
    ks, net := start[y.first := Proposed1(y)], {y.PA(), y.Prep(y.first)};
    var k := ThirdAccepts(y, v, ks, net);
    ks, net := ks[y.third := k], net + {y.Prep(y.third)};
    SecondPrepares(y, v, ks, net);
    net := net + {y.Prep(y.second)};
    AllPrepares(y);
  }

  // ---- A bad seal -----------------------------------------------------------------

  lemma SecondCommits(y: Play, v: Show, ks: map<Address, Sketch>, net: set<Message>)
    requires y.Good() && y.g == v.g && v.Runs() && v.can(ks, net) && Scripted(y, OPENING, net)
    ensures v.can(ks, net + {y.BadCommit()}) && Scripted(y, OPENING, net + {y.BadCommit()})
  {
    VoteLines(y, OPENING, net, y.second);
    PlantAct(v, ks, net, y.BadCommit());
  }

  /** The leader counts the bad commit and seals the block. */
  lemma LeaderSeals(y: Play, s: NodeState, k: Sketch)
    requires y.Good() && Fits(y.g, s, k) && Plain(s) && k.id == y.first && k.round == 0
    requires k.accepted == Some(y.ProposalA()) && NoLaterProposal(k)
    requires y.Com(y.first) in k.known && y.Com(y.second) in k.known && y.Com(y.third) in k.known
    ensures NextSubStep(s) == Finalised(s, y.a)
  {
    assert Commits(y.g, y.Com(y.first), 0, y.a, y.first);
    assert Commits(y.g, y.Com(y.second), 0, y.a, y.second);
    assert Commits(y.g, y.Com(y.third), 0, y.a, y.third);
    Finalises(y.g, s, k, y.ProposalA(), Voters(y));
  }

  /** The block a node seals in its state. */
  function Announcement(y: Play, s: NodeState): (nb: SignedNewBlock) {
    SignNewBlock(SealedBlock(y.a, CommitsFor(s.Height(), s.round, Digest(y.a), s.messages)), s.id)
  }

  lemma BadSealSpoils(y: Play, s: NodeState, chain: Chain)
    requires y.Good() && y.BadCommit() in s.messages && s.Height() == y.g.Height() && s.round == 0
    ensures !ValidNewBlock(chain, Announcement(y, s))
  {
    var commits := CommitsFor(s.Height(), s.round, Digest(y.a), s.messages);
    Certificates.SealedBlockValidIff(y.a, commits, s.id, chain);
    assert y.BadCommit().commit in commits;
  }

  lemma FirstHears(y: Play, v: Show, ks: map<Address, Sketch>, net: set<Message>) returns (w: Swarm, s: NodeState)
    requires y.Good() && y.g == v.g && v.Runs() && v.can(ks, net) && y.first in ks && Voted0(y, ks[y.first], y.first)
    requires y.BadCommit() in net && y.Com(y.third) in net
    ensures v.within(w) && FixedValidators(y.g.committee, w) && w.nodes.Keys == ks.Keys && w.nodes[y.first] == s
    ensures NextSubStep(s) == Finalised(s, y.a) && y.BadCommit() in s.messages
    ensures s.Height() == y.g.Height() && s.round == 0 && s.id == y.first
    ensures forall b :: b in w.nodes ==> w.nodes[b].Height() == y.g.Height()
  {
    var incoming := [y.BadCommit(), y.Com(y.third)];
    assert Elements(incoming) == {y.BadCommit(), y.Com(y.third)};
    var k := ks[y.first].Hears(incoming);
    w := Staged(v, ks, net);
    w, s := Hear(y.g, v.within, w, ks, net, y.first, incoming, 0);
    StageIsFixed(y.g, w, ks[y.first := k], net);
    StageHeights(y.g, w, ks[y.first := k], net);
    FirstKnows(y, ks[y.first], k, s);
  }

  lemma FirstKnows(y: Play, k0: Sketch, k: Sketch, s: NodeState)
    requires y.Good() && Voted0(y, k0, y.first) && k == k0.(known := k0.known + {y.BadCommit(), y.Com(y.third)})
    requires Fits(y.g, s, k) && Plain(s)
    ensures NextSubStep(s) == Finalised(s, y.a) && y.BadCommit() in s.messages
    ensures s.Height() == y.g.Height() && s.round == 0 && s.id == y.first
  {
    Stored(y.g, s, k);
    LeaderSeals(y, s, k);
  }

  lemma StageHeights(g: Setting, w: Swarm, ks: map<Address, Sketch>, net: set<Message>)
    requires Stage(g, w, ks, net)
    ensures forall b :: b in w.nodes ==> w.nodes[b].Height() == g.Height()
  {
    forall b | b in w.nodes
      ensures w.nodes[b].Height() == g.Height()
    {
      assert Fits(g, w.nodes[b], ks[b]);
    }
  }

  /** An honest leader has finalised a block and announced it, and the announcement is valid
      for none of the honest nodes, which are still waiting for it. */
  ghost predicate Stranded(y: Play, w: Swarm, nb: SignedNewBlock) {
    && NewBlockMessage(nb) in w.network && nb.signature.author == y.first
    && y.first in w.nodes && w.nodes[y.first].chain.head == nb.block
    && forall b :: b in w.nodes && b != y.first ==> Waiting(y, w.nodes[b], nb)
  }

  predicate Waiting(y: Play, s: NodeState, nb: SignedNewBlock) {
    s.Height() == nb.block.header.height && !ValidNewBlock(s.chain, nb)
  }

  lemma LastTick(y: Play, v: Show, w: Swarm, s: NodeState) returns (w': Swarm)
    requires y.Good() && y.g == v.g && v.Runs() && v.within(w) && FixedValidators(y.g.committee, w)
    requires y.first in w.nodes && w.nodes[y.first] == s && y.first in y.g.committee.honest
    requires y.g.committee.validators == y.g.Validators()
    requires NextSubStep(s) == Finalised(s, y.a) && y.BadCommit() in s.messages
    requires s.Height() == y.g.Height() && s.round == 0 && s.id == y.first
    requires forall b :: b in w.nodes ==> w.nodes[b].Height() == y.g.Height()
    ensures v.within(w') && Stranded(y, w', Announcement(y, s))
  {
    var nb := Announcement(y, s);
    w' := OneTick(y.g, v.within, w, y.first, s, Finalised(s, y.a));
    forall b | b in w'.nodes && b != y.first
      ensures Waiting(y, w'.nodes[b], nb)
    {
      BadSealSpoils(y, s, w'.nodes[b].chain);
    }
    assert NewBlockMessage(nb) in Elements([NewBlockMessage(nb)]);
  }

  /** A leader does not check the seals it collects: with one faulty validator among four,
      there is a run in which an honest leader finalises a block and every other honest node
      rejects it. */
  lemma BadSealStrands(y: Play) returns (trace: seq<Swarm>, nb: SignedNewBlock)
    requires y.Good() && y.Complete()
    ensures Run(y.g.committee, trace) && ClocksGoForward(trace) && Stranded(y, trace[|trace| - 1], nb)
  {
    var v := Everything(y.g);
    var start := Opening(y, v);
    var w;
    w, nb := BadSealEnd(y, v, start);
    trace := RunTo(y.g.committee, w);
  }

  lemma BadSealEnd(y: Play, v: Show, start: map<Address, Sketch>) returns (w: Swarm, nb: SignedNewBlock)
    requires Opened(y, v, start) && y.first in y.g.committee.honest && y.g.committee.validators == y.g.Validators()
    ensures v.within(w) && Stranded(y, w, nb)
  {
    var s;
    w, s := BadSealRun(y, v, start);
    nb := Announcement(y, s);
    w := LastTick(y, v, w, s);
  }

  lemma BadSealRun(y: Play, v: Show, start: map<Address, Sketch>) returns (w: Swarm, s: NodeState)
    requires Opened(y, v, start)
    ensures v.within(w) && FixedValidators(y.g.committee, w) && y.first in w.nodes && w.nodes[y.first] == s
    ensures NextSubStep(s) == Finalised(s, y.a) && y.BadCommit() in s.messages
    ensures s.Height() == y.g.Height() && s.round == 0 && s.id == y.first
    ensures forall b :: b in w.nodes ==> w.nodes[b].Height() == y.g.Height()
  {
    var ks, net := Committed(y, v, start);
    SecondCommits(y, v, ks, net);
    w, s := FirstHears(y, v, ks, net + {y.BadCommit()});
  }

  // ---- An odd label ---------------------------------------------------------------

  lemma FourthTimesOut(y: Play, v: Show, ks: map<Address, Sketch>, net: set<Message>)
    requires y.Good() && y.g == v.g && v.Runs() && v.can(ks, net) && Scripted(y, OPENING, net)
    requires y.g.TimesOut() && y.fourth in ks && ks[y.fourth] == Blank(y.fourth, None)
    ensures v.can(ks[y.fourth := Blank(y.fourth, None).(round := 1).Adds(y.RC4())], net + {y.RC4()})
    ensures Scripted(y, OPENING, net + {y.RC4()})
  {
    assert Line(y, OPENING, y.RC4());
    AddLine(y, OPENING, net, y.RC4());
    TimeoutAct(v, ks, net, y.fourth, y.RC4());
  }

  lemma SecondCalls(y: Play, v: Show, ks: map<Address, Sketch>, net: set<Message>)
    requires y.Good() && y.g == v.g && v.Runs() && v.can(ks, net) && Scripted(y, OPENING, net)
    ensures v.can(ks, net + {y.RC2()}) && Scripted(y, OPENING, net + {y.RC2()})
  {
    assert Line(y, OPENING, y.RC2());
    AddLine(y, OPENING, net, y.RC2());
    PlantAct(v, ks, net, y.RC2());
  }

  lemma MayJoin(y: Play, k0: Sketch, k: Sketch, a: Address)
    requires y.Good() && Voted0(y, k0, a) && k == k0.(known := k0.known + {y.RC4(), y.RC2()}) && a != y.second
    ensures CannotSeal(y.g, k) && Called(k, 1, {y.second, y.fourth})
    ensures CommitOf(y.g, 0, y.a, a) in k.known
  {
    assert y.RC4().Author() == y.fourth && y.RC2().Author() == y.second;
    assert y.RC4() in k.known && y.RC2() in k.known;
  }

  lemma NoChangeBy(y: Play, x: Script, net: set<Message>, a: Address)
    requires y.Good() && Scripted(y, x, net) && a != y.second && a != y.fourth
    requires (x.first.Some? ==> a != y.first) && (x.third.Some? ==> a != y.third)
    ensures NotChanged(net, 1, a)
  {
    forall m | m in net && m.RoundChangeMessage? && m.Round() == 1
      ensures m.Author() != a
    {
      assert Line(y, x, m);
    }
  }

  /** A validator that has committed follows the second and the fourth to round 1. */
  lemma Follows(y: Play, v: Show, ks: map<Address, Sketch>, net: set<Message>, x: Script, a: Address)
    returns (k': Sketch, rc: RoundChange)
    requires y.Good() && y.g == v.g && v.Runs() && v.can(ks, net) && Scripted(y, x, net)
    requires y.RC4() in net && y.RC2() in net && a in ks && Voted0(y, ks[a], a) && NotChanged(net, 1, a)
    requires a != y.second
    ensures v.can(ks[a := k'], net + {RoundChangeMessage(rc)}) && Announces(y.g, rc, 1, y.a, 0, a)
  {
    var incoming := [y.RC4(), y.RC2()];
    assert Elements(incoming) == {y.RC4(), y.RC2()};
    var k := ks[a].Hears(incoming);
    ScriptedIsClean(y, x, net);
    MayJoin(y, ks[a], k, a);
    rc := JoinAct(v, ks, net, a, incoming, k, y.a, 1, {y.second, y.fourth});
    k' := Followed(k, 1, rc);
  }

  lemma ThirdLine(y: Play, net: set<Message>, rc: RoundChange)
    requires y.Good() && Scripted(y, OPENING, net) && Announces(y.g, rc, 1, y.a, 0, y.third)
    ensures Scripted(y, Script(None, Some(rc)), net + {RoundChangeMessage(rc)})
  {
    var x := Script(None, Some(rc));
    forall m | m in net + {RoundChangeMessage(rc)}
      ensures Line(y, x, m)
    {
      assert m in net ==> Line(y, OPENING, m);
    }
  }

  lemma FirstLine(y: Play, net: set<Message>, rc3: RoundChange, rc: RoundChange)
    requires y.Good() && Scripted(y, Script(None, Some(rc3)), net) && Announces(y.g, rc, 1, y.a, 0, y.first)
    ensures Scripted(y, Script(Some(rc), Some(rc3)), net + {RoundChangeMessage(rc)})
  {
    var x := Script(Some(rc), Some(rc3));
    forall m | m in net + {RoundChangeMessage(rc)}
      ensures Line(y, x, m)
    {
      assert m in net ==> Line(y, Script(None, Some(rc3)), m);
    }
  }

  /** The first and the third validator announce the block in round 1. */
  lemma BothFollow(y: Play, v: Show, ks: map<Address, Sketch>, net: set<Message>)
    returns (ks': map<Address, Sketch>, net': set<Message>, x: Script)
    requires y.Good() && y.g == v.g && v.Runs() && v.can(ks, net) && Scripted(y, OPENING, net)
    requires y.RC4() in net && y.RC2() in net && ks.Keys == y.Honest()
    requires Voted0(y, ks[y.first], y.first) && Voted0(y, ks[y.third], y.third)
    ensures v.can(ks', net') && Scripted(y, x, net') && x.first.Some? && x.third.Some?
    ensures net' == net + {RoundChangeMessage(x.third.value)} + {RoundChangeMessage(x.first.value)}
    ensures ks'.Keys == y.Honest() && ks'[y.fourth] == ks[y.fourth]
  {
    NoChangeBy(y, OPENING, net, y.third);
    var k, rc3 := Follows(y, v, ks, net, OPENING, y.third);
    ThirdLine(y, net, rc3);
    ks', net' := ks[y.third := k], net + {RoundChangeMessage(rc3)};
    NoChangeBy(y, Script(None, Some(rc3)), net', y.first);
    var k1, rc := Follows(y, v, ks', net', Script(None, Some(rc3)), y.first);
    FirstLine(y, net', rc3, rc);
    ks', net' := ks'[y.first := k1], net' + {RoundChangeMessage(rc)};
    x := Script(Some(rc), Some(rc3));
  }

  // ---- The odd proposal passes ----------------------------------------------------

  lemma ClaimsBlock(y: Play, x: Address)
    requires y.Good()
    ensures Claims(y.Claim(x), y.a, y.g.Start(), 0)
  {
    assert Relabel(y.a, 0, y.g.Start()) == y.a;
  }

  lemma ThreeClaims(y: Play)
    requires y.Good()
    ensures Voters(y) <= Supporters(y.OddProposal().roundChanges, y.a, y.g.Start(), 0)
    ensures Voters(y) <= RoundChangeSenders(y.OddProposal().roundChanges)
    ensures Voters(y) <= PrepareSenders(y.OddProposal().prepares)
  {
    var rcs, ps := y.OddProposal().roundChanges, y.OddProposal().prepares;
    ClaimsBlock(y, y.first);
    ClaimsBlock(y, y.second);
    ClaimsBlock(y, y.third);
    assert rcs[0] in rcs && rcs[1] in rcs && rcs[2] in rcs;
    assert ps[0] in ps && ps[1] in ps && ps[2] in ps;
  }

  lemma Large(y: Play, s: set<Address>)
    requires y.Good() && Voters(y) <= s
    ensures |s| >= 3
  {
    SubsetCardinality(Voters(y), s);
  }

  lemma ClaimsAreQuorum(y: Play)
    requires y.Good()
    ensures RoundChangeQuorum(y.OddProposal().roundChanges, 1, y.g.Start())
    ensures |PrepareSenders(y.OddProposal().prepares)| >= 3
    ensures |Supporters(y.OddProposal().roundChanges, y.a, y.g.Start(), 0)| >= 3
  {
    ThreeClaims(y);
    Large(y, Supporters(y.OddProposal().roundChanges, y.a, y.g.Start(), 0));
    Large(y, RoundChangeSenders(y.OddProposal().roundChanges));
    Large(y, PrepareSenders(y.OddProposal().prepares));
  }

  lemma PreparesCertify(y: Play, rc: SignedRoundChange, p: SignedPrepare)
    requires y.Good() && rc == y.Claim(y.first) && p in y.OddProposal().prepares
    ensures ValidSignedPrepare(p, y.g.Start().Height(), 0, rc.unsigned.preparedValue.value, y.g.Start().Validators())
  {
  }

  lemma BlockIsPrepared(y: Play)
    requires y.Good()
    ensures PreparedBlock(y.OddProposal().roundChanges, y.OddProposal().prepares, [y.a], y.a, y.g.Start(), 0)
  {
    var rcs, ps := y.OddProposal().roundChanges, y.OddProposal().prepares;
    ClaimsAreQuorum(y);
    ClaimsBlock(y, y.first);
    forall p | p in ps
      ensures ValidSignedPrepare(
                p, y.g.Start().Height(), 0, rcs[0].unsigned.preparedValue.value, y.g.Start().Validators())
    {
      PreparesCertify(y, rcs[0], p);
    }
    assert rcs[0] in rcs && y.a in [y.a];
  }

  /** Nobody claims to have prepared it later. */
  lemma RoundZeroIsHighest(y: Play)
    requires y.Good()
    ensures HighestBacked(y.OddProposal().roundChanges, y.OddProposal().roundChanges, y.a, y.g.Start()) == Some(0)
  {
    var rcs := y.OddProposal().roundChanges;
    ClaimsAreQuorum(y);
    HighestBackedIsMaximum(rcs, y.a, y.g.Start(), 0);
    var highest := HighestBacked(rcs, rcs, y.a, y.g.Start());
    var rc := BackedHasClaim(rcs, y.a, y.g.Start(), highest.value);
  }

  /** The prepared branch does not look at the round number on the block. */
  lemma OddProposalPasses(y: Play)
    requires y.Good()
    ensures ProposalChecks(y.OddProposal(), y.g.Start())
  {
    var p := y.OddProposal();
    ClaimsAreQuorum(y);
    BlockIsPrepared(y);
    RoundZeroIsHighest(y);
    LabelIff(p.roundChanges, p.prepares, 1, y.a, y.Odd(), y.g.Start());
  }

  lemma OddIsUnforged(y: Play, x: Script, net: set<Message>, signed: set<Signature>)
    requires y.Good() && Sound(y, x) && x.first.Some? && x.third.Some? && Elements(Prepares(y)) <= net
    requires RoundChangeMessage(x.first.value) in net && RoundChangeMessage(x.third.value) in net
    requires Vouched(y.g.committee, signed, net)
    ensures NoForgery(y.g.committee, signed, y.P1())
  {
    AllPrepares(y);
    assert y.Prep(y.first) in net && y.Prep(y.third) in net;
    var c, p := y.g.committee, y.OddProposal();
    forall rc | rc in p.roundChanges
      ensures Unforged(c, signed, rc.signature, OfRoundChange(rc.unsigned))
    {
      assert rc == y.Claim(y.first) || rc == y.Claim(y.second) || rc == y.Claim(y.third);
    }
    forall q | q in p.prepares
      ensures Unforged(c, signed, q.signature, OfPrepare(q.unsigned))
    {
      assert q == y.Prep(y.first).prepare || q == y.Prep(y.second).prepare || q == y.Prep(y.third).prepare;
    }
  }

  lemma SecondProposes(y: Play, v: Show, ks: map<Address, Sketch>, net: set<Message>, x: Script)
    requires y.Good() && y.g == v.g && v.Runs() && v.can(ks, net) && Scripted(y, x, net)
    requires x.first.Some? && x.third.Some? && Elements(Prepares(y)) <= net
    requires RoundChangeMessage(x.first.value) in net && RoundChangeMessage(x.third.value) in net
    ensures v.can(ks, net + {y.P1()}) && Scripted(y, x, net + {y.P1()})
  {
    assert Line(y, x, y.P1());
    AddLine(y, x, net, y.P1());
    forall signed | Vouched(y.g.committee, signed, net)
      ensures NoForgery(y.g.committee, signed, y.P1())
    {
      OddIsUnforged(y, x, net, signed);
    }
    PlantAct(v, ks, net, y.P1());
  }

  /** The odd proposal is on the network, and the fourth validator is waiting for one. */
  lemma OddRun(y: Play, v: Show, start: map<Address, Sketch>)
    returns (ks: map<Address, Sketch>, net: set<Message>, x: Script)
    requires Opened(y, v, start)
    ensures v.can(ks, net) && Scripted(y, x, net) && y.P1() in net && y.fourth in ks
    ensures ks[y.fourth] == Blank(y.fourth, None).(round := 1).Adds(y.RC4())
  {
    ks, net := Committed(y, v, start);
    FourthTimesOut(y, v, ks, net);
    ks, net := ks[y.fourth := Blank(y.fourth, None).(round := 1).Adds(y.RC4())], net + {y.RC4()};
    SecondCalls(y, v, ks, net);
    net := net + {y.RC2()};
    ks, net, x := BothFollow(y, v, ks, net);
    SecondProposes(y, v, ks, net, x);
    net := net + {y.P1()};
  }

  lemma FourthAccepts(y: Play, v: Show, ks: map<Address, Sketch>, net: set<Message>, x: Script)
    returns (w: Swarm, chain: Chain)
    requires y.Good() && y.g == v.g && v.Runs() && v.can(ks, net) && Scripted(y, x, net) && y.P1() in net
    requires y.fourth in ks && ks[y.fourth] == Blank(y.fourth, None).(round := 1).Adds(y.RC4())
    ensures v.within(w) && Acceptance(y.fourth, chain, y.OddProposal()) in w.acceptances
    ensures chain.head == y.g.committee.genesis
  {
    var k := ks[y.fourth].Hears([y.P1()]);
    assert Elements([y.P1()]) == {y.P1()};
    OddPasses(y, v);
    OddPrepareIsNew(y, x, net);
    w, chain := LastAcceptance(v, ks, net, y.fourth, [y.P1()], k, y.OddProposal());
  }

  lemma OddPasses(y: Play, v: Show)
    requires y.Good() && y.g == v.g && v.Runs()
    ensures v.passes(y.OddProposal())
  {
    OddProposalPasses(y);
  }

  lemma OddPrepareIsNew(y: Play, x: Script, net: set<Message>)
    requires y.Good() && Scripted(y, x, net)
    ensures Clean(y.g, net + {PrepareOf(y.g, 1, y.Odd(), y.fourth)})
  {
    var m := PrepareOf(y.g, 1, y.Odd(), y.fourth);
    ScriptedIsClean(y, x, net);
    forall m' | m' in net
      ensures m'.SortKey() != m.SortKey()
    {
      assert Line(y, x, m');
    }
    CleanAdd(y.g, net, m);
  }

  /** An accepted block need not carry the round of its proposal: with one faulty validator
      among four, there is a run in which an honest node accepts, in round 1, a block with
      any other round number. */
  lemma LabelsCanDiffer(y: Play) returns (trace: seq<Swarm>)
    requires y.Good() && y.Complete() && y.odd != 1
    ensures Run(y.g.committee, trace) && ClocksGoForward(trace)
    ensures !Agreement.BlocksLabelled(trace[|trace| - 1], y.g.Height())
  {
    var v := Everything(y.g);
    var start := Opening(y, v);
    var w := OddEnd(y, v, start);
    trace := RunTo(y.g.committee, w);
  }

  lemma OddEnd(y: Play, v: Show, start: map<Address, Sketch>) returns (w: Swarm)
    requires Opened(y, v, start) && y.odd != 1
    ensures v.within(w) && !Agreement.BlocksLabelled(w, y.g.Height())
  {
    var ks, net, x := OddRun(y, v, start);
    var chain;
    w, chain := FourthAccepts(y, v, ks, net, x);
    OddIsMislabelled(y, w, chain);
  }

  lemma OddIsMislabelled(y: Play, w: Swarm, chain: Chain)
    requires y.odd != 1 && Acceptance(y.fourth, chain, y.OddProposal()) in w.acceptances
    requires chain.head == y.g.committee.genesis
    ensures !Agreement.BlocksLabelled(w, y.g.Height())
  {
    var acceptance := Acceptance(y.fourth, chain, y.OddProposal());
    assert acceptance.chain.Height() == y.g.Height() && Agreement.RoundOf(acceptance) == 1;
  }

  // ---- There is such a play -------------------------------------------------------

  function BlockWith(proposer: Address, height: nat, body: Bytes): (b: Block) {
    Block(BlockHeader(proposer, 0, [], height, height, [1, 2, 3, 4], BodyHash(body)), body, [])
  }

  /** Validators 1 to 4, with timers that run for one second. */
  const EXAMPLE: Play := Play(
    Setting(Committee([1, 2, 3, 4], {1, 3, 4}, BlockWith(ZERO_ADDRESS, 0, [])),
            Config(1, true, _ => 1, (_, _) => false)),
    1, 2, 3, 4, BlockWith(1, 1, [1]), 7)

  lemma ExampleIsGood()
    ensures EXAMPLE.Good() && EXAMPLE.Complete()
  {
    ExampleLeaders();
    ExampleIsComplete();
  }

  lemma ExampleLeaders()
    ensures Proposer(0, EXAMPLE.g.Start()) == 1 && Proposer(1, EXAMPLE.g.Start()) == 2
    ensures EXAMPLE.g.Height() == 1 && EXAMPLE.g.Validators() == [1, 2, 3, 4]
  {
  }

  lemma ExampleIsComplete()
    ensures EXAMPLE.Complete()
  {
    assert Elements([1, 2, 3, 4]) == {1, 2, 3, 4};
    assert Elements(EXAMPLE.g.committee.validators) - EXAMPLE.g.committee.honest == {2};
  }
}
