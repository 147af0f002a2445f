/** What the validators of a committee do in the run that takes them to different blocks: who
    they are, what they may say, and their acts, one by one and many at a time. */
module Ensemble {
  import opened Prelude
  import opened Types
  import opened Validators
  import opened Justification
  import opened Protocol
  import opened Leader
  import opened Rules
  import opened PreparedState
  import opened Staging

  // ---- The cast -------------------------------------------------------------------

  /** The leaders of the first two rounds, a quorum that both belong to, the block the first
      proposes and the one the second has ready. */
  datatype Play = Play(g: Setting, first: Address, second: Address, voters: set<Address>, a: Block, own: Block) {
    predicate Good() {
      && first in g.Validators() && second in g.Validators() && first != second
      && Proposer(0, g.Start()) == first && Proposer(1, g.Start()) == second
      && Sizes()
      && Fresh(a, first) && Fresh(own, second) && a.header.digest != own.header.digest
    }

    predicate Sizes() {
      && first in voters && second in voters && voters <= Elements(g.Validators())
      && |voters| == Quorum(|g.Validators()|) && |Others()| >= Quorum(|g.Validators()|)
    }

    /** All validators are honest, and a timeout leads to a new round. */
    ghost predicate Complete() {
      && g.committee.Valid() && g.committee.honest == Elements(g.committee.validators)
      && g.TimesOut()
    }

    /** A block of the first height for round 0. */
    predicate Fresh(block: Block, proposer: Address) {
      && block.header.height == g.Height() && block.header.roundNumber == 0 && block.header.proposer == proposer
      && block.header.validators == g.Validators() && block.ValidDigest()
    }

    /** Everyone but the first. */
    function Others(): set<Address> {
      Elements(g.Validators()) - {first}
    }

    /** Who votes in a round. */
    function Voters(r: nat): set<Address> {
      if r == 0 then voters else Others()
    }

    /** The second validator's block, as it proposes it in round 1. */
    function B(): Block {
      ReplaceRound(own, 1)
    }

    function BlockOf(round: nat): Block {
      if round == 0 then a else B()
    }

    function Prep(r: nat, x: Address): Message {
      PrepareOf(g, r, BlockOf(r), x)
    }

    function Com(r: nat, x: Address): Message {
      CommitOf(g, r, BlockOf(r), x)
    }

    function ProposalA(): Proposal {
      ProposalOf(g, a, first)
    }

    function PA(): Message {
      ProposalMessage(ProposalA())
    }

    /** What the driver has given a node to propose. */
    function Offered(x: Address): Option<Block> {
      if x == first then Some(a) else if x == second then Some(own) else None
    }
  }

  // ---- The messages ---------------------------------------------------------------

  /** The messages whose attachments depend on what their sender has received: the round
      changes of those that committed, and the second validator's proposal. */
  datatype Script = Script(changes: map<Address, RoundChange>, proposal: Option<Proposal>)

  /** The second validator's proposal for round 1, whatever it carries. */
  predicate SoundProposal(y: Play, p: Proposal) {
    && p.payload == SignProposal(UnsignedProposal(y.g.Height(), 1, Digest(y.B())), y.second) && p.block == y.B()
    && VerifiedRoundChanges(p.roundChanges) && VerifiedPrepares(p.prepares)
  }

  predicate SoundChange(y: Play, rc: RoundChange, x: Address) {
    Announces(y.g, rc, 1, y.a, 0, x)
  }

  ghost predicate Sound(y: Play, x: Script) {
    && x.changes.Keys <= y.voters - {y.first}
    && (forall b :: b in x.changes ==> SoundChange(y, x.changes[b], b))
    && (x.proposal.Some? ==> SoundProposal(y, x.proposal.value))
  }

  /** A validator's round change to round 1: the script's, or a bare one. */
  function Change(y: Play, x: Script, b: Address): (rc: RoundChange) {
    if b in x.changes then x.changes[b] else BareChange(y.g, b)
  }

  predicate Vote(y: Play, m: Message) {
    && m.Author() in y.g.Validators() && m.Round() <= 1
    && (m == y.Prep(m.Round(), m.Author()) || m == y.Com(m.Round(), m.Author()))
  }

  predicate Call(y: Play, x: Script, m: Message) {
    && m.RoundChangeMessage? && m.roundChange == Change(y, x, m.Author())
    && (m.Author() in x.changes || (m.Author() in y.g.Validators() && m.Author() !in y.voters))
  }

  predicate Line(y: Play, x: Script, m: Message) {
    || m == y.PA() || Vote(y, m) || Call(y, x, m)
    || (x.proposal.Some? && m == ProposalMessage(x.proposal.value))
  }

  ghost predicate Scripted(y: Play, x: Script, ms: set<Message>) {
    Sound(y, x) && forall m {:trigger Line(y, x, m)} :: m in ms ==> Line(y, x, m)
  }

  const OPENING: Script := Script(map[], None)

  lemma CallIsAdmitted(y: Play, x: Script, m: Message)
    requires y.Good() && Sound(y, x) && Call(y, x, m)
    ensures Admits(y.g, m) && m.Round() == 1
  {
    if m.Author() in x.changes {
      assert SoundChange(y, x.changes[m.Author()], m.Author());
      assert m.Author() in Elements(y.g.Validators());
    }
  }

  lemma LineIsAdmitted(y: Play, x: Script, m: Message)
    requires y.Good() && Sound(y, x) && Line(y, x, m)
    ensures Admits(y.g, m)
  {
    if Call(y, x, m) {
      CallIsAdmitted(y, x, m);
    }
  }

  lemma CallIsAlone(y: Play, x: Script, m: Message, m': Message)
    requires Call(y, x, m) && Call(y, x, m') && m.Author() == m'.Author()
    ensures m == m'
  {
  }

  lemma LineIsAlone(y: Play, x: Script, m: Message, m': Message)
    requires y.Good() && Sound(y, x) && Line(y, x, m) && Line(y, x, m') && m.SortKey() == m'.SortKey()
    ensures m == m'
  {
    if m.RoundChangeMessage? {
      CallIsAlone(y, x, m, m');
    }
  }

  lemma ScriptedIsClean(y: Play, x: Script, ms: set<Message>)
    requires y.Good() && Scripted(y, x, ms)
    ensures Clean(y.g, ms)
  {
    forall m | m in ms
      ensures Admits(y.g, m) && Alone(ms, m)
    {
      assert Line(y, x, m);
      LineIsAdmitted(y, x, m);
      forall m' | m' in ms && m'.SortKey() == m.SortKey()
        ensures m' == m
      {
        assert Line(y, x, m');
        LineIsAlone(y, x, m, m');
      }
    }
  }

  lemma AddLine(y: Play, x: Script, ms: set<Message>, m: Message)
    requires y.Good() && Scripted(y, x, ms) && Line(y, x, m)
    ensures Scripted(y, x, ms + {m}) && Clean(y.g, ms + {m})
  {
    ScriptedIsClean(y, x, ms + {m});
  }

  lemma AddVotes(y: Play, x: Script, net: set<Message>, r: nat, b: Address)
    requires y.Good() && Scripted(y, x, net) && r <= 1 && b in y.g.Validators()
    ensures Scripted(y, x, net + {y.Prep(r, b)}) && Clean(y.g, net + {y.Prep(r, b)})
    ensures Scripted(y, x, net + {y.Com(r, b)}) && Clean(y.g, net + {y.Com(r, b)})
  {
    assert Vote(y, y.Prep(r, b)) && Vote(y, y.Com(r, b));
    assert Line(y, x, y.Prep(r, b)) && Line(y, x, y.Com(r, b));
    AddLine(y, x, net, y.Prep(r, b));
    AddLine(y, x, net, y.Com(r, b));
  }

  // ---- What the script rules out --------------------------------------------------

  /** The proposal of a round. */
  predicate IsProposalOf(y: Play, x: Script, r: nat, p: Proposal) {
    (r == 0 && p == y.ProposalA() && x.proposal.None?) || (r == 1 && x.proposal == Some(p))
  }

  lemma BlockOfProposal(y: Play, x: Script, r: nat, p: Proposal)
    requires y.Good() && Sound(y, x) && IsProposalOf(y, x, r, p)
    ensures p.block == y.BlockOf(r) && p.payload.unsigned.round == r <= 1
  {
  }

  lemma SoleProposal(y: Play, x: Script, k: Sketch, net: set<Message>, p: Proposal)
    requires y.Good() && Scripted(y, x, net) && k.known <= net && IsProposalOf(y, x, k.round, p)
    ensures ProposalMessage(p) in k.known ==> OnlyProposal(k, p)
    ensures NoLaterProposal(k)
  {
    forall m | m in k.known && m.ProposalMessage?
      ensures m.Round() <= k.round && (m.Round() == k.round ==> m == ProposalMessage(p))
    {
      assert Line(y, x, m);
    }
  }

  lemma NoVoteYet(y: Play, x: Script, k: Sketch, net: set<Message>)
    requires y.Good() && Scripted(y, x, net) && k.known <= net && k.round <= 1 && y.Com(k.round, k.id) !in net
    ensures NotVoted(k)
  {
    forall m | m in k.known && m.CommitMessage? && m.Round() == k.round
      ensures m.Author() != k.id
    {
      assert Line(y, x, m);
    }
  }

  // ---- Acts of one node -----------------------------------------------------------

  /** In round `r` without a proposal. */
  predicate Waits(k: Sketch, b: Address, r: nat) {
    k.id == b && k.round == r && k.accepted.None?
  }

  /** As `k`, with the proposal accepted. */
  ghost predicate Took1(y: Play, k: Sketch, k': Sketch, b: Address, r: nat, p: Proposal) {
    k' == k.(accepted := Some(p), known := k'.known) && y.Prep(r, b) in k'.known
  }

  lemma Takes(
    y: Play, v: Show, ks: map<Address, Sketch>, net: set<Message>, x: Script, r: nat, p: Proposal, b: Address)
    returns (k': Sketch)
    requires y.Good() && y.g == v.g && v.Runs() && v.can(ks, net) && Scripted(y, x, net)
    requires IsProposalOf(y, x, r, p) && v.passes(p) && ProposalMessage(p) in net
    requires b in ks && Waits(ks[b], b, r) && b != y.first && b in y.g.Validators()
    ensures v.can(ks[b := k'], net + {y.Prep(r, b)}) && Scripted(y, x, net + {y.Prep(r, b)})
    ensures Took1(y, ks[b], k', b, r, p)
  {
    var incoming := [ProposalMessage(p)];
    assert Elements(incoming) == {ProposalMessage(p)};
    var k := ks[b].Hears(incoming);
    KnownInNet(v, ks, net, b, incoming);
    BlockOfProposal(y, x, r, p);
    SoleProposal(y, x, k, net, p);
    AddVotes(y, x, net, r, b);
    AcceptAct(v, ks, net, b, incoming, k, p, y.Prep(r, b));
    k' := Took(y.g, k, p);
  }

  /** As `k`, with the block prepared and committed. */
  ghost predicate Voted1(y: Play, k: Sketch, k': Sketch, b: Address, r: nat) {
    && k' == k.(preparedBlock := Some(y.BlockOf(r)), preparedRound := Some(r), known := k'.known)
    && y.Com(r, b) in k'.known
  }

  /** All prepares of a round. */
  function Prepares(y: Play, r: nat): (ms: set<Message>) {
    set b | b in y.Voters(r) :: y.Prep(r, b)
  }

  function Commits1(y: Play, r: nat): (ms: set<Message>) {
    set b | b in y.Voters(r) :: y.Com(r, b)
  }

  lemma EnoughVoters(y: Play, r: nat)
    requires y.Good()
    ensures |y.Voters(r)| >= Quorum(|y.g.Validators()|)
  {
  }

  lemma {:induction false} Listed(ms: set<Message>) returns (s: seq<Message>)
    ensures Elements(s) == ms
  {
    if ms == {} {
      s := [];
    } else {
      var m :| m in ms;
      var rest := Listed(ms - {m});
      s := [m] + rest;
      assert Elements(s) == {m} + Elements(rest);
    }
  }

  lemma MayVote(y: Play, x: Script, k: Sketch, net: set<Message>, p: Proposal)
    requires y.Good() && Scripted(y, x, net) && k.known <= net && IsProposalOf(y, x, k.round, p)
    requires Prepares(y, k.round) <= k.known && y.Com(k.round, k.id) !in net
    ensures NoLaterProposal(k) && NotVoted(k) && PreparedBy(y.g, k, p.block, y.Voters(k.round))
  {
    BlockOfProposal(y, x, k.round, p);
    SoleProposal(y, x, k, net, p);
    NoVoteYet(y, x, k, net);
    forall b | b in y.Voters(k.round)
      ensures PrepareOf(y.g, k.round, p.block, b) in k.known
    {
      assert y.Prep(k.round, b) in Prepares(y, k.round);
    }
  }

  lemma Votes1(
    y: Play, v: Show, ks: map<Address, Sketch>, net: set<Message>, x: Script, r: nat, p: Proposal, b: Address)
    returns (k': Sketch)
    requires y.Good() && y.g == v.g && v.Runs() && v.can(ks, net) && Scripted(y, x, net)
    requires IsProposalOf(y, x, r, p) && Prepares(y, r) <= net && y.Com(r, b) !in net
    requires b in ks && ks[b].id == b && ks[b].round == r && ks[b].accepted == Some(p) && b in y.g.Validators()
    ensures v.can(ks[b := k'], net + {y.Com(r, b)}) && Scripted(y, x, net + {y.Com(r, b)})
    ensures Voted1(y, ks[b], k', b, r)
  {
    var incoming := Listed(Prepares(y, r));
    var k := ks[b].Hears(incoming);
    KnownInNet(v, ks, net, b, incoming);
    BlockOfProposal(y, x, r, p);
    MayVote(y, x, k, net, p);
    EnoughVoters(y, r);
    AddVotes(y, x, net, r, b);
    VoteAct(v, ks, net, b, incoming, k, p, y.Voters(r), y.Com(r, b));
    k' := Voted(y.g, k, p.block);
  }

  // ---- Acts of many nodes ---------------------------------------------------------

  /** Only the nodes of `todo` changed. */
  ghost predicate Apart(ks: map<Address, Sketch>, ks': map<Address, Sketch>, todo: set<Address>) {
    ks'.Keys == ks.Keys && forall b :: b in ks && b !in todo ==> ks'[b] == ks[b]
  }

  ghost predicate AllWait(ks: map<Address, Sketch>, todo: set<Address>, r: nat) {
    forall b :: b in todo ==> b in ks && Waits(ks[b], b, r)
  }

  ghost predicate AllTook(
    y: Play, ks: map<Address, Sketch>, ks': map<Address, Sketch>, todo: set<Address>, r: nat, p: Proposal)
  {
    forall b :: b in todo ==> b in ks && b in ks' && Took1(y, ks[b], ks'[b], b, r, p)
  }

  /** What was added are prepares of the round, those of `todo` among them. */
  ghost predicate AddsPrepares(y: Play, net: set<Message>, net': set<Message>, r: nat, todo: set<Address>) {
    && net <= net' && (forall m :: m in net' ==> m in net || (m.PrepareMessage? && m.Round() == r))
    && forall b :: b in todo ==> y.Prep(r, b) in net'
  }

  lemma {:induction false} AllTake(
    y: Play, v: Show, ks: map<Address, Sketch>, net: set<Message>, x: Script, r: nat, p: Proposal, todo: set<Address>)
    returns (ks': map<Address, Sketch>, net': set<Message>)
    requires y.Good() && y.g == v.g && v.Runs() && v.can(ks, net) && Scripted(y, x, net)
    requires IsProposalOf(y, x, r, p) && v.passes(p) && ProposalMessage(p) in net
    requires AllWait(ks, todo, r) && todo <= y.Others()
    ensures v.can(ks', net') && Scripted(y, x, net') && Apart(ks, ks', todo) && AllTook(y, ks, ks', todo, r, p)
    ensures AddsPrepares(y, net, net', r, todo)
    decreases |todo|
  {
    if todo == {} {
      ks', net' := ks, net;
    } else {
      var b :| b in todo;
      assert b in y.Others();
      var k := Takes(y, v, ks, net, x, r, p, b);
      var rest := todo - {b};
      AfterOne(ks, rest, b, k, r);
      ks', net' := AllTake(y, v, ks[b := k], net + {y.Prep(r, b)}, x, r, p, rest);
      TookAll(y, ks, ks[b := k], ks', todo, b, r, p);
      PreparedAll(y, net, net', r, todo, b);
    }
  }

  lemma AfterOne(ks: map<Address, Sketch>, rest: set<Address>, b: Address, k: Sketch, r: nat)
    requires AllWait(ks, rest, r) && b !in rest
    ensures AllWait(ks[b := k], rest, r)
  {
    forall c | c in rest
      ensures c in ks[b := k] && Waits(ks[b := k][c], c, r)
    {
      assert Waits(ks[c], c, r);
    }
  }

  lemma TookAll(
    y: Play, ks: map<Address, Sketch>, ks1: map<Address, Sketch>, ks': map<Address, Sketch>, todo: set<Address>,
    b: Address, r: nat, p: Proposal)
    requires b in todo && b in ks && b in ks1 && ks1 == ks[b := ks1[b]] && Took1(y, ks[b], ks1[b], b, r, p)
    requires Apart(ks1, ks', todo - {b}) && AllTook(y, ks1, ks', todo - {b}, r, p)
    ensures Apart(ks, ks', todo) && AllTook(y, ks, ks', todo, r, p)
  {
    forall c | c in todo
      ensures c in ks && c in ks' && Took1(y, ks[c], ks'[c], c, r, p)
    {
      if c != b {
        assert c in todo - {b} && Took1(y, ks1[c], ks'[c], c, r, p);
      }
    }
  }

  lemma PreparedAll(y: Play, net: set<Message>, net': set<Message>, r: nat, todo: set<Address>, b: Address)
    requires b in todo && AddsPrepares(y, net + {y.Prep(r, b)}, net', r, todo - {b})
    ensures AddsPrepares(y, net, net', r, todo)
  {
    forall c | c in todo
      ensures y.Prep(r, c) in net'
    {
      assert c != b ==> c in todo - {b};
    }
  }

  /** All of `todo` are in the round with its proposal. */
  ghost predicate AllHold(ks: map<Address, Sketch>, todo: set<Address>, r: nat, p: Proposal) {
    forall b :: b in todo ==> b in ks && Holds(ks[b], b, r, p)
  }

  predicate Holds(k: Sketch, b: Address, r: nat, p: Proposal) {
    k.id == b && k.round == r && k.accepted == Some(p)
  }

  ghost predicate AllVoted(y: Play, ks: map<Address, Sketch>, ks': map<Address, Sketch>, todo: set<Address>, r: nat) {
    forall b :: b in todo ==> b in ks && b in ks' && Voted1(y, ks[b], ks'[b], b, r)
  }

  /** What was added are commits of the round, those of `todo` among them. */
  ghost predicate AddsCommits(y: Play, net: set<Message>, net': set<Message>, r: nat, todo: set<Address>) {
    && net <= net' && (forall m :: m in net' ==> m in net || (m.CommitMessage? && m.Round() == r))
    && forall b :: b in todo ==> y.Com(r, b) in net'
  }

  lemma CommittedAll(y: Play, net: set<Message>, net': set<Message>, r: nat, todo: set<Address>, b: Address)
    requires b in todo && AddsCommits(y, net + {y.Com(r, b)}, net', r, todo - {b})
    ensures AddsCommits(y, net, net', r, todo)
  {
    forall c | c in todo
      ensures y.Com(r, c) in net'
    {
      assert c != b ==> c in todo - {b};
    }
  }

  ghost predicate NoneVoted(y: Play, net: set<Message>, r: nat, todo: set<Address>) {
    forall b :: b in todo ==> y.Com(r, b) !in net
  }

  lemma {:induction false} AllVote(
    y: Play, v: Show, ks: map<Address, Sketch>, net: set<Message>, x: Script, r: nat, p: Proposal, todo: set<Address>)
    returns (ks': map<Address, Sketch>, net': set<Message>)
    requires y.Good() && y.g == v.g && v.Runs() && v.can(ks, net) && Scripted(y, x, net)
    requires IsProposalOf(y, x, r, p) && Prepares(y, r) <= net && NoneVoted(y, net, r, todo)
    requires AllHold(ks, todo, r, p) && todo <= Elements(y.g.Validators())
    ensures v.can(ks', net') && Scripted(y, x, net') && Apart(ks, ks', todo) && AllVoted(y, ks, ks', todo, r)
    ensures AddsCommits(y, net, net', r, todo)
    decreases |todo|
  {
    if todo == {} {
      ks', net' := ks, net;
    } else {
      var b :| b in todo;
      var k := OneVotes(y, v, ks, net, x, r, p, todo, b);
      ks', net' := AllVote(y, v, ks[b := k], net + {y.Com(r, b)}, x, r, p, todo - {b});
      VotedAll(y, ks, ks[b := k], ks', todo, b, r);
      CommittedAll(y, net, net', r, todo, b);
    }
  }

  lemma OneVotes(
    y: Play, v: Show, ks: map<Address, Sketch>, net: set<Message>, x: Script, r: nat, p: Proposal, todo: set<Address>,
    b: Address)
    returns (k: Sketch)
    requires y.Good() && y.g == v.g && v.Runs() && v.can(ks, net) && Scripted(y, x, net)
    requires IsProposalOf(y, x, r, p) && Prepares(y, r) <= net && NoneVoted(y, net, r, todo)
    requires AllHold(ks, todo, r, p) && todo <= Elements(y.g.Validators()) && b in todo
    ensures v.can(ks[b := k], net + {y.Com(r, b)}) && Scripted(y, x, net + {y.Com(r, b)})
    ensures Voted1(y, ks[b], k, b, r) && NoneVoted(y, net + {y.Com(r, b)}, r, todo - {b})
    ensures AllHold(ks[b := k], todo - {b}, r, p) && Prepares(y, r) <= net + {y.Com(r, b)}
  {
    assert b in Elements(y.g.Validators()) && Holds(ks[b], b, r, p);
    k := Votes1(y, v, ks, net, x, r, p, b);
    AfterOneVote(y, ks, net, todo - {b}, b, k, r, p);
  }

  lemma AfterOneVote(
    y: Play, ks: map<Address, Sketch>, net: set<Message>, rest: set<Address>, b: Address, k: Sketch,
    r: nat, p: Proposal)
    requires AllHold(ks, rest, r, p) && NoneVoted(y, net, r, rest) && b !in rest
    ensures AllHold(ks[b := k], rest, r, p) && NoneVoted(y, net + {y.Com(r, b)}, r, rest)
  {
    forall c | c in rest
      ensures c in ks[b := k] && Holds(ks[b := k][c], c, r, p) && y.Com(r, c) !in net + {y.Com(r, b)}
    {
      assert Holds(ks[c], c, r, p);
      assert y.Com(r, c).Author() == c && y.Com(r, b).Author() == b;
    }
  }

  lemma VotedAll(
    y: Play, ks: map<Address, Sketch>, ks1: map<Address, Sketch>, ks': map<Address, Sketch>, todo: set<Address>,
    b: Address, r: nat)
    requires b in todo && b in ks && b in ks1 && ks1 == ks[b := ks1[b]] && Voted1(y, ks[b], ks1[b], b, r)
    requires Apart(ks1, ks', todo - {b}) && AllVoted(y, ks1, ks', todo - {b}, r)
    ensures Apart(ks, ks', todo) && AllVoted(y, ks, ks', todo, r)
  {
    forall c | c in todo
      ensures c in ks && c in ks' && Voted1(y, ks[c], ks'[c], c, r)
    {
      if c != b {
        assert c in todo - {b} && Voted1(y, ks1[c], ks'[c], c, r);
      }
    }
  }

  // ---- Giving up on round 0 -------------------------------------------------------

  ghost predicate AllStuck(y: Play, ks: map<Address, Sketch>, todo: set<Address>) {
    forall b :: b in todo ==> b in ks && ks[b].id == b && Stuck(y.g, ks[b], y.a)
  }

  /** As `k`, in round 1 with its round change sent. */
  ghost predicate Moved1(k: Sketch, k': Sketch) {
    k' == k.(round := 1, accepted := None, known := k'.known)
  }

  ghost predicate AllMoved(ks: map<Address, Sketch>, ks': map<Address, Sketch>, todo: set<Address>) {
    forall b :: b in todo ==> b in ks && b in ks' && Moved1(ks[b], ks'[b])
  }

  /** The round changes of `todo` are on the network. */
  ghost predicate Called1(y: Play, x: Script, net: set<Message>, todo: set<Address>) {
    forall b :: b in todo ==> RoundChangeMessage(Change(y, x, b)) in net
  }

  /** What was added are round changes. */
  ghost predicate AddsChanges(net: set<Message>, net': set<Message>) {
    net <= net' && forall m :: m in net' ==> m in net || (m.RoundChangeMessage? && m.Round() == 1)
  }

  lemma NotCalled(y: Play, x: Script, net: set<Message>, b: Address)
    requires y.Good() && Scripted(y, x, net) && b !in x.changes && b in y.voters
    ensures NotChanged(net, 1, b)
  {
    forall m | m in net && m.RoundChangeMessage?
      ensures m.Author() != b
    {
      assert Line(y, x, m);
    }
  }

  /** The script with one more round change. */
  function With(x: Script, b: Address, rc: RoundChange): (x': Script) {
    x.(changes := x.changes[b := rc])
  }

  lemma NextScript(y: Play, x: Script, net: set<Message>, b: Address, rc: RoundChange)
    requires y.Good() && Scripted(y, x, net) && SoundChange(y, rc, b)
    requires b in y.voters && b != y.first && b !in x.changes
    ensures Scripted(y, With(x, b, rc), net + {RoundChangeMessage(rc)})
  {
    var x' := With(x, b, rc);
    assert forall c :: c in x'.changes ==> SoundChange(y, x'.changes[c], c);
    forall m | m in net
      ensures Line(y, x', m)
    {
      assert Line(y, x, m);
      CallStays(y, x, m, b, rc);
    }
    assert Line(y, x', RoundChangeMessage(rc));
  }

  lemma CallStays(y: Play, x: Script, m: Message, b: Address, rc: RoundChange)
    requires b in y.voters && b !in x.changes
    ensures Call(y, x, m) ==> Call(y, With(x, b, rc), m)
  {
  }

  lemma GivesUp(y: Play, v: Show, ks: map<Address, Sketch>, net: set<Message>, x: Script, b: Address)
    returns (k': Sketch, rc: RoundChange)
    requires y.Good() && y.g == v.g && v.Runs() && v.can(ks, net) && Scripted(y, x, net)
    requires b in ks && ks[b].id == b && Stuck(y.g, ks[b], y.a) && b in y.voters && b != y.first && b !in x.changes
    ensures v.can(ks[b := k'], net + {RoundChangeMessage(rc)}) && Moved1(ks[b], k') && SoundChange(y, rc, b)
    ensures Scripted(y, With(x, b, rc), net + {RoundChangeMessage(rc)})
  {
    NotCalled(y, x, net, b);
    ScriptedIsClean(y, x, net);
    rc := GiveUpAct(v, ks, net, b, y.a);
    NextScript(y, x, net, b, rc);
    k' := Followed(ks[b], 1, rc);
  }

  lemma {:induction false} AllGiveUp(
    y: Play, v: Show, ks: map<Address, Sketch>, net: set<Message>, x: Script, todo: set<Address>)
    returns (ks': map<Address, Sketch>, net': set<Message>, x': Script)
    requires y.Good() && y.g == v.g && v.Runs() && v.can(ks, net) && Scripted(y, x, net)
    requires AllStuck(y, ks, todo) && todo <= y.voters - {y.first} - x.changes.Keys
    requires Called1(y, x, net, x.changes.Keys)
    ensures v.can(ks', net') && Scripted(y, x', net') && Apart(ks, ks', todo) && AllMoved(ks, ks', todo)
    ensures AddsChanges(net, net') && x'.changes.Keys == x.changes.Keys + todo && x'.proposal == x.proposal
    ensures Called1(y, x', net', x'.changes.Keys)
    decreases |todo|
  {
    if todo == {} {
      ks', net', x' := ks, net, x;
    } else {
      var b :| b in todo;
      var k, net1, x1 := OneGivesUp(y, v, ks, net, x, todo, b);
      ks', net', x' := AllGiveUp(y, v, ks[b := k], net1, x1, todo - {b});
      MovedAll(ks, ks[b := k], ks', todo, b);
      ChangesAdd(net, net1, net');
    }
  }

  lemma ChangesAdd(net: set<Message>, net1: set<Message>, net2: set<Message>)
    requires AddsChanges(net, net1) && AddsChanges(net1, net2)
    ensures AddsChanges(net, net2)
  {
  }

  lemma OneGivesUp(
    y: Play, v: Show, ks: map<Address, Sketch>, net: set<Message>, x: Script, todo: set<Address>, b: Address)
    returns (k: Sketch, net1: set<Message>, x1: Script)
    requires y.Good() && y.g == v.g && v.Runs() && v.can(ks, net) && Scripted(y, x, net)
    requires AllStuck(y, ks, todo) && todo <= y.voters - {y.first} - x.changes.Keys
    requires Called1(y, x, net, x.changes.Keys)
    requires b in todo
    ensures b in ks && v.can(ks[b := k], net1) && Moved1(ks[b], k) && AllStuck(y, ks[b := k], todo - {b})
    ensures Scripted(y, x1, net1) && Called1(y, x1, net1, x1.changes.Keys) && AddsChanges(net, net1)
    ensures todo - {b} <= y.voters - {y.first} - x1.changes.Keys && x1.proposal == x.proposal
    ensures x.changes.Keys + todo == x1.changes.Keys + (todo - {b})
  {
    assert b in y.voters - {y.first} - x.changes.Keys && Stuck(y.g, ks[b], y.a);
    var rc;
    k, rc := GivesUp(y, v, ks, net, x, b);
    net1, x1 := net + {RoundChangeMessage(rc)}, With(x, b, rc);
    AfterOneLeft(y, ks, net, x, todo - {b}, b, k, rc);
    LessToDo(y.voters - {y.first}, todo, x.changes.Keys, b);
    assert x1.changes.Keys == x.changes.Keys + {b};
  }

  lemma LessToDo(all: set<Address>, todo: set<Address>, done: set<Address>, b: Address)
    requires b in todo && todo <= all - done
    ensures todo - {b} <= all - (done + {b}) && done + todo == done + {b} + (todo - {b})
  {
  }

  lemma AfterOneLeft(
    y: Play, ks: map<Address, Sketch>, net: set<Message>, x: Script, rest: set<Address>, b: Address, k: Sketch,
    rc: RoundChange)
    requires AllStuck(y, ks, rest) && Called1(y, x, net, x.changes.Keys) && b !in rest && b !in x.changes
    ensures AllStuck(y, ks[b := k], rest)
    ensures Called1(y, With(x, b, rc), net + {RoundChangeMessage(rc)}, With(x, b, rc).changes.Keys)
  {
    forall c | c in rest
      ensures c in ks[b := k] && ks[b := k][c].id == c && Stuck(y.g, ks[b := k][c], y.a)
    {
      assert Stuck(y.g, ks[c], y.a);
    }
  }

  lemma MovedAll(
    ks: map<Address, Sketch>, ks1: map<Address, Sketch>, ks': map<Address, Sketch>, todo: set<Address>, b: Address)
    requires b in todo && b in ks && b in ks1 && ks1 == ks[b := ks1[b]] && Moved1(ks[b], ks1[b])
    requires Apart(ks1, ks', todo - {b}) && AllMoved(ks1, ks', todo - {b})
    ensures Apart(ks, ks', todo) && AllMoved(ks, ks', todo)
  {
    forall c | c in todo
      ensures c in ks && c in ks' && Moved1(ks[c], ks'[c])
    {
      if c != b {
        assert c in todo - {b} && Moved1(ks1[c], ks'[c]);
      }
    }
  }

  // ---- Those that heard nothing ---------------------------------------------------

  ghost predicate AllBlank(ks: map<Address, Sketch>, todo: set<Address>) {
    forall b :: b in todo ==> b in ks && ks[b] == Blank(b, None)
  }

  lemma {:induction false} AllTimeOut(
    y: Play, v: Show, ks: map<Address, Sketch>, net: set<Message>, x: Script, todo: set<Address>)
    returns (ks': map<Address, Sketch>, net': set<Message>)
    requires y.Good() && y.g == v.g && v.Runs() && v.can(ks, net) && Scripted(y, x, net)
    requires AllBlank(ks, todo) && todo <= Elements(y.g.Validators()) - y.voters && y.g.TimesOut()
    ensures v.can(ks', net') && Scripted(y, x, net') && Apart(ks, ks', todo) && AllWait(ks', todo, 1)
    ensures AddsChanges(net, net') && Called1(y, x, net', todo)
    decreases |todo|
  {
    if todo == {} {
      ks', net' := ks, net;
    } else {
      var b :| b in todo;
      var k, m := OneTimesOut(y, v, ks, net, x, todo, b);
      ks', net' := AllTimeOut(y, v, ks[b := k], net + {m}, x, todo - {b});
      OneMoreOut(y, x, net', ks, ks[b := k], ks', todo, b);
      ChangesAdd(net, net + {m}, net');
    }
  }

  lemma OneTimesOut(
    y: Play, v: Show, ks: map<Address, Sketch>, net: set<Message>, x: Script, todo: set<Address>, b: Address)
    returns (k: Sketch, m: Message)
    requires y.Good() && y.g == v.g && v.Runs() && v.can(ks, net) && Scripted(y, x, net) && b in todo
    requires AllBlank(ks, todo) && todo <= Elements(y.g.Validators()) - y.voters && y.g.TimesOut()
    ensures b in ks && v.can(ks[b := k], net + {m}) && Scripted(y, x, net + {m}) && Waits(k, b, 1)
    ensures m == RoundChangeMessage(Change(y, x, b)) && AddsChanges(net, net + {m}) && AllBlank(ks[b := k], todo - {b})
  {
    assert b in Elements(y.g.Validators()) - y.voters;
    m := RoundChangeMessage(BareChange(y.g, b));
    BareCall(y, x, net, b);
    TimeoutAct(v, ks, net, b, m);
    k := ks[b].(round := 1).Adds(m);
  }

  lemma BareCall(y: Play, x: Script, net: set<Message>, b: Address)
    requires y.Good() && Scripted(y, x, net) && b in Elements(y.g.Validators()) - y.voters
    ensures b !in x.changes && Change(y, x, b) == BareChange(y.g, b)
    ensures Scripted(y, x, net + {RoundChangeMessage(BareChange(y.g, b))})
    ensures Clean(y.g, net + {RoundChangeMessage(BareChange(y.g, b))})
  {
    assert Line(y, x, RoundChangeMessage(BareChange(y.g, b)));
    AddLine(y, x, net, RoundChangeMessage(BareChange(y.g, b)));
  }

  lemma OneMoreOut(
    y: Play, x: Script, net: set<Message>, ks: map<Address, Sketch>, ks1: map<Address, Sketch>,
    ks': map<Address, Sketch>, todo: set<Address>, b: Address)
    requires b in todo && b in ks && b in ks1 && ks1 == ks[b := ks1[b]] && Waits(ks1[b], b, 1)
    requires Apart(ks1, ks', todo - {b}) && AllWait(ks', todo - {b}, 1) && Called1(y, x, net, todo - {b})
    requires RoundChangeMessage(Change(y, x, b)) in net
    ensures Apart(ks, ks', todo) && AllWait(ks', todo, 1) && Called1(y, x, net, todo)
  {
    forall c | c in todo
      ensures c in ks' && Waits(ks'[c], c, 1) && RoundChangeMessage(Change(y, x, c)) in net
    {
      if c != b {
        assert c in todo - {b} && Waits(ks'[c], c, 1);
      }
    }
  }

  // ---- The second validator leads round 1 -----------------------------------------

  /** Everyone but the first has changed to round 1, and nobody has proposed there. */
  ghost predicate Ready2(y: Play, x: Script, k: Sketch) {
    && k.id == y.second && k.proposed == Some(y.own) && k.round == 1 && k.accepted.None?
    && x.changes.Keys == y.voters - {y.first} && x.proposal.None?
    && Scripted(y, x, k.known) && Called1(y, x, k.known, y.Others())
  }

  /** Exactly the round changes of everyone but the first. */
  ghost predicate AllChanges(y: Play, x: Script, rcs: seq<RoundChange>) {
    && (forall b :: b in y.Others() ==> Change(y, x, b) in rcs)
    && forall rc :: rc in rcs ==> ChangeOfOther(y, x, rc)
  }

  predicate ChangeOfOther(y: Play, x: Script, rc: RoundChange) {
    rc.payload.signature.author in y.Others() && rc == Change(y, x, rc.payload.signature.author)
  }

  lemma ChangeIsValid(y: Play, x: Script, b: Address, chain: Chain)
    requires y.Good() && Sound(y, x) && b in y.Others() && chain.head == y.g.committee.genesis
    ensures ValidRoundChange(Change(y, x, b).payload, chain.Height(), 1, chain.Validators())
    ensures Change(y, x, b).payload.signature.author == b
  {
    assert b in Elements(y.g.Validators());
    if b in x.changes {
      assert SoundChange(y, x.changes[b], b);
    }
  }

  lemma CallIsOfOther(y: Play, x: Script, m: Message)
    requires y.Good() && Sound(y, x) && Line(y, x, m) && m.RoundChangeMessage?
    ensures ChangeOfOther(y, x, m.roundChange)
  {
    assert Call(y, x, m);
    if m.Author() in x.changes {
      assert m.Author() in y.voters - {y.first} && m.Author() in Elements(y.g.Validators());
    } else {
      assert m.Author() in Elements(y.g.Validators());
    }
  }

  lemma ChangesInView(y: Play, x: Script, s: NodeState, k: Sketch)
    requires y.Good() && Fits(y.g, s, k) && Plain(s) && Ready2(y, x, k)
    ensures AllChanges(y, x, ValidRoundChangesIn(s.AtRound(1), 1, s.chain))
  {
    var rcs := ValidRoundChangesIn(s.AtRound(1), 1, s.chain);
    Stored(y.g, s, k);
    forall rc | rc in rcs
      ensures ChangeOfOther(y, x, rc)
    {
      assert RoundChangeMessage(rc) in s.messages && Line(y, x, RoundChangeMessage(rc));
      CallIsOfOther(y, x, RoundChangeMessage(rc));
    }
    forall b | b in y.Others()
      ensures Change(y, x, b) in rcs
    {
      ChangeIsInView(y, x, s, k, b);
    }
  }

  lemma ChangeIsInView(y: Play, x: Script, s: NodeState, k: Sketch, b: Address)
    requires y.Good() && Fits(y.g, s, k) && Plain(s) && Ready2(y, x, k) && b in y.Others()
    ensures Change(y, x, b) in ValidRoundChangesIn(s.AtRound(1), 1, s.chain)
  {
    var m := RoundChangeMessage(Change(y, x, b));
    Stored(y.g, s, k);
    ScriptedIsClean(y, x, k.known);
    forall m' | m' in s.Visible()
      ensures m'.Height() == s.Height()
    {
      assert m' in k.known && Admits(y.g, m');
    }
    ChangeIsValid(y, x, b, s.chain);
    AtRoundIsRound(s, 1, m);
  }

  lemma ClaimsAreFew(y: Play, x: Script, rcs: seq<RoundChange>, block: Block, chain: Chain, pr: nat)
    requires y.Good() && Sound(y, x) && AllChanges(y, x, rcs)
    ensures Supporters(Payloads(rcs), block, chain, pr) <= y.voters - {y.first}
  {
    forall b | b in Supporters(Payloads(rcs), block, chain, pr)
      ensures b in y.voters - {y.first}
    {
      var rc :| rc in Payloads(rcs) && Claims(rc, block, chain, pr) && rc.signature.author == b;
      var full :| full in rcs && full.payload == rc;
      assert ChangeOfOther(y, x, full);
    }
  }

  /** Those that claim to have prepared anything are one short of a quorum. */
  lemma TooFewClaims(y: Play, x: Script, rcs: seq<RoundChange>, block: Block, chain: Chain, pr: nat)
    requires y.Good() && Sound(y, x) && AllChanges(y, x, rcs)
    ensures |Supporters(Payloads(rcs), block, chain, pr)| < Quorum(|y.g.Validators()|)
  {
    ClaimsAreFew(y, x, rcs, block, chain, pr);
    SubsetCardinality(Supporters(Payloads(rcs), block, chain, pr), y.voters - {y.first});
  }

  /** The first's block is not justified, though a quorum has committed it. */
  lemma BlockAIsNotJustified(
    y: Play, x: Script, rcs: seq<RoundChange>, prepares: seq<SignedPrepare>, available: seq<Block>, chain: Chain)
    requires y.Good() && Sound(y, x) && AllChanges(y, x, rcs) && chain.head == y.g.committee.genesis
    ensures !IsProposalJustification(Payloads(rcs), prepares, available, 1, y.a, chain)
  {
    var highest := HighestBacked(Payloads(rcs), Payloads(rcs), y.a, chain);
    if highest.Some? {
      TooFewClaims(y, x, rcs, y.a, chain, highest.value);
    }
  }

  /** The announced block is another one, whatever its label. */
  lemma NobodyClaimsB(y: Play, x: Script, rcs: seq<RoundChange>, chain: Chain, pr: nat)
    requires y.Good() && Sound(y, x) && AllChanges(y, x, rcs)
    ensures !Backed(Payloads(rcs), y.B(), chain, pr)
  {
    assert Relabel(y.B(), pr, chain).header.digest != y.a.header.digest;
    forall rc | rc in Payloads(rcs)
      ensures !Claims(rc, y.B(), chain, pr)
    {
      var full :| full in rcs && full.payload == rc;
      assert ChangeOfOther(y, x, full);
      ClaimsOnlyA(y, x, full);
    }
    assert Supporters(Payloads(rcs), y.B(), chain, pr) == {};
  }

  lemma ClaimsOnlyA(y: Play, x: Script, rc: RoundChange)
    requires Sound(y, x) && ChangeOfOther(y, x, rc)
    ensures rc.payload.unsigned.preparedValue.Some? ==> rc.payload.unsigned.preparedValue == Some(Digest(y.a))
    ensures rc.block.Some? ==> rc.block == Some(y.a)
  {
    var b := rc.payload.signature.author;
    assert b in x.changes ==> SoundChange(y, x.changes[b], b);
  }

  lemma ChangesAreQuorum(y: Play, x: Script, rcs: seq<RoundChange>, chain: Chain)
    requires y.Good() && Sound(y, x) && AllChanges(y, x, rcs) && chain.head == y.g.committee.genesis
    ensures RoundChangeQuorum(Payloads(rcs), 1, chain)
  {
    var senders := RoundChangeSenders(Payloads(rcs));
    forall b | b in y.Others()
      ensures b in senders
    {
      ChangeIsValid(y, x, b, chain);
      assert Change(y, x, b).payload in Payloads(rcs);
    }
    SubsetCardinality(y.Others(), senders);
    forall p | p in Payloads(rcs)
      ensures ValidRoundChange(p, chain.Height(), 1, chain.Validators())
    {
      var rc :| rc in rcs && rc.payload == p;
      assert ChangeOfOther(y, x, rc);
      ChangeIsValid(y, x, rc.payload.signature.author, chain);
    }
  }

  lemma BlockBIsJustified(
    y: Play, x: Script, rcs: seq<RoundChange>, prepares: seq<SignedPrepare>, available: seq<Block>, chain: Chain)
    requires y.Good() && Sound(y, x) && AllChanges(y, x, rcs) && chain.head == y.g.committee.genesis
    ensures IsProposalJustification(Payloads(rcs), prepares, available, 1, y.B(), chain)
  {
    var ps := Payloads(rcs);
    ChangesAreQuorum(y, x, rcs, chain);
    forall pr: nat
      ensures !Backed(ps, y.B(), chain, pr)
    {
      NobodyClaimsB(y, x, rcs, chain, pr);
    }
    FallsThroughIff(ps, y.B(), chain);
    assert FreshBlock(y.B(), 1, chain);
  }

  lemma Verdicts(y: Play, x: Script, s: NodeState, rcs: seq<RoundChange>, prepares: seq<SignedPrepare>)
    requires y.Good() && Sound(y, x) && AllChanges(y, x, rcs)
    requires s.chain.head == y.g.committee.genesis && s.round == 1 && s.accepted.None?
    ensures !IsReceivedJustification(rcs, prepares, 1, y.a, s)
    ensures IsReceivedJustification(rcs, prepares, 1, y.B(), s)
  {
    var blocks := ReceivedBlocks(rcs, s.config.blockLess);
    var all := prepares + ExtraPrepares(rcs, s.Height(), 1);
    BlockAIsNotJustified(y, x, rcs, all, blocks, s.chain);
    BlockBIsJustified(y, x, rcs, all, blocks, s.chain);
  }

  lemma NoReceivedBlock(y: Play, x: Script, s: NodeState, rcs: seq<RoundChange>, prepares: seq<SignedPrepare>)
    requires y.Good() && Sound(y, x) && AllChanges(y, x, rcs) && !IsReceivedJustification(rcs, prepares, 1, y.a, s)
    ensures FirstJustifiedBlock(ReceivedBlocks(rcs, s.config.blockLess), rcs, prepares, 1, s).None?
  {
    forall b | b in ReceivedBlocks(rcs, s.config.blockLess)
      ensures b == y.a
    {
      var rc :| rc in rcs && rc.block == Some(b);
      assert ChangeOfOther(y, x, rc);
      ClaimsOnlyA(y, x, rc);
    }
  }

  /** The second validator justifies its own block. */
  lemma OwnBlockJustified(y: Play, x: Script, s: NodeState, k: Sketch) returns (j: ProposalJustification)
    requires y.Good() && Fits(y.g, s, k) && Plain(s) && Ready2(y, x, k)
    ensures JustifyRound(s, 1) == Some(j) && j.block == y.B() && j.round == 1
  {
    ChangesInView(y, x, s, k);
    var rcs := ValidRoundChangesIn(s.AtRound(1), 1, s.chain);
    var prepares := LeaderPrepares(s, rcs);
    Verdicts(y, x, s, rcs, prepares);
    NoReceivedBlock(y, x, s, rcs, prepares);
    j := ProposalJustification(1, rcs, prepares, y.B());
    OwnBlock(y, s);
    PicksOwnBlock(s, 1, rcs, prepares, y.B());
  }

  lemma OwnBlock(y: Play, s: NodeState)
    requires y.Good() && s.id == y.second && s.chain.head == y.g.committee.genesis && s.chain.proposed == Some(y.own)
    ensures s.GetNewBlock(1) == Some(y.B()) && Proposer(1, s.chain) == s.id
  {
  }

  /** The second validator's step, and that its proposal is well formed and passes. */
  lemma Leads(y: Play, x: Script, s: NodeState, k: Sketch) returns (p: Proposal)
    requires y.Good() && Fits(y.g, s, k) && Plain(s) && Ready2(y, x, k)
    ensures SoundProposal(y, p) && ProposalChecks(p, y.g.Start())
    ensures var o := NextSubStep(s); Sent(o) == [ProposalMessage(p)] && o.state == s.Push(ProposalMessage(p))
  {
    var j := OwnBlockJustified(y, x, s, k);
    var m := HasChange(y, x, s, k);
    Leading(s, j, m);
    p := LeaderProposal(s, j);
    ProposalPasses(s, j);
    ProposalIsSound(y, x, s, k, j);
    ChecksOfHead(p, s.chain, y.g.Start());
    LedState(s, j);
  }

  lemma LedState(s: NodeState, j: ProposalJustification)
    requires s.round == j.round && s.accepted.None?
    ensures LeadRound(s, j).state == s.Push(ProposalMessage(LeaderProposal(s, j)))
  {
    assert s.(roundStart := s.roundStart, round := j.round, accepted := None) == s;
  }

  lemma HasChange(y: Play, x: Script, s: NodeState, k: Sketch) returns (m: Message)
    requires y.Good() && Fits(y.g, s, k) && Ready2(y, x, k)
    ensures m in s.messages && m.Round() == s.round == 1 && s.accepted.None?
    ensures forall n :: n in s.messages && n.ProposalMessage? ==> n.Round() != s.round
  {
    Stored(y.g, s, k);
    assert y.second in Elements(y.g.Validators()) && y.second in y.Others();
    m := RoundChangeMessage(Change(y, x, y.second));
    assert m in k.known;
    ChangeIsValid(y, x, y.second, s.chain);
    forall n | n in s.messages && n.ProposalMessage?
      ensures n.Round() == 0
    {
      assert Line(y, x, n);
    }
  }

  lemma ProposalPasses(s: NodeState, j: ProposalJustification)
    requires JustifyRound(s, 1) == Some(j) && j.round == 1 && RoundAcceptable(s, 1)
    ensures ProposalChecks(LeaderProposal(s, j), s.chain)
    ensures forall rc :: rc in j.roundChanges ==> RoundChangeMessage(rc) in s.messages
    ensures forall p :: p in j.prepares ==> PrepareMessage(p) in s.messages
  {
    Effects.JustifyRoundIsJustified(s, 1);
    LeaderProposalPassesChecks(s, j);
  }

  lemma ProposalIsSound(y: Play, x: Script, s: NodeState, k: Sketch, j: ProposalJustification)
    requires y.Good() && Fits(y.g, s, k) && Ready2(y, x, k) && j.block == y.B() && j.round == 1
    requires forall rc :: rc in j.roundChanges ==> RoundChangeMessage(rc) in s.messages
    requires forall p :: p in j.prepares ==> PrepareMessage(p) in s.messages
    ensures SoundProposal(y, LeaderProposal(s, j))
  {
    ScriptedIsClean(y, x, k.known);
    Stored(y.g, s, k);
    var p := LeaderProposal(s, j);
    assert p.block == y.B();
    AttachedVerify(y.g, k.known, j);
  }

  lemma AttachedVerify(g: Setting, known: set<Message>, j: ProposalJustification)
    requires Clean(g, known) && forall rc :: rc in j.roundChanges ==> RoundChangeMessage(rc) in known
    requires forall p :: p in j.prepares ==> PrepareMessage(p) in known
    ensures VerifiedRoundChanges(Payloads(j.roundChanges)) && VerifiedPrepares(j.prepares)
  {
    forall rc | rc in Payloads(j.roundChanges)
      ensures rc.signature.Verifies(OfRoundChange(rc.unsigned))
    {
      var r :| r in j.roundChanges && r.payload == rc;
      assert Admits(g, RoundChangeMessage(r));
    }
    forall q | q in j.prepares
      ensures q.signature.Verifies(OfPrepare(q.unsigned))
    {
      assert Admits(g, PrepareMessage(q));
    }
  }

  lemma Led(g: Setting, s: NodeState, k: Sketch, net: set<Message>, m: Message)
    requires Fits(g, s, k) && k.known <= net && Clean(g, net + {m})
    ensures Fits(g, s.Push(m), k.Adds(m))
  {
    CleanSubset(g, k.known + {m}, net + {m});
    Remember(g, s, k, m);
  }

  lemma LedScript(y: Play, x: Script, p: Proposal, net: set<Message>)
    requires y.Good() && Scripted(y, x, net) && x.proposal.None? && SoundProposal(y, p)
    ensures Scripted(y, x.(proposal := Some(p)), net + {ProposalMessage(p)})
    ensures Clean(y.g, net + {ProposalMessage(p)})
  {
    var x' := x.(proposal := Some(p));
    forall m | m in net
      ensures Line(y, x', m)
    {
      assert Line(y, x, m);
    }
    assert Scripted(y, x', net);
    AddLine(y, x', net, ProposalMessage(p));
  }

  lemma LeadAct(y: Play, v: Show, ks: map<Address, Sketch>, net: set<Message>, x: Script, calls: set<Message>)
    returns (k': Sketch, p: Proposal)
    requires y.Good() && y.g == v.g && v.Runs() && v.can(ks, net) && Scripted(y, x, net) && x.proposal.None?
    requires y.second in ks && calls <= net && Ready2(y, x, ks[y.second].(known := ks[y.second].known + calls))
    ensures v.can(ks[y.second := k'], net + {ProposalMessage(p)}) && v.passes(p)
    ensures Scripted(y, x.(proposal := Some(p)), net + {ProposalMessage(p)}) && Waits(k', y.second, 1)
  {
    var incoming := Listed(calls);
    var k := ks[y.second].Hears(incoming);
    var m;
    KnownInNet(v, ks, net, y.second, incoming);
    var w := Staged(v, ks, net);
    var s;
    w, s := Hear(y.g, v.within, w, ks, net, y.second, incoming, 0);
    p := Leads(y, x, s, k);
    m := ProposalMessage(p);
    LedScript(y, x, p, net);
    Led(y.g, s, k, net, m);
    k' := k.Adds(m);
    w := Say(y.g, v.within, w, ks, net, y.second, k, k', m);
    Shown(v, w, ks[y.second := k'], net + {m});
  }
}
