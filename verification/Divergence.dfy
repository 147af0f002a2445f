/** A run in which two honest nodes finalise different blocks at one height, for any number
    of validators from three on, none of them faulty.

    The first validator leads round 0 and commits its block with a bare quorum. Everyone but
    the first then gives up on the round, those that committed announcing the block they
    prepared. Without the first these are one short of a quorum, so that block is not
    justified for round 1, and the second validator, now the leader, falls through to
    proposing a block of its own, which everyone but the first accepts and commits. */
module Divergence {
  import opened Prelude
  import opened Types
  import opened Validators
  import opened Protocol
  import opened Swarm
  import opened Rules
  import opened Staging
  import opened Ensemble
  import Agreement
  import Rotation

  // ---- Round 0 --------------------------------------------------------------------

  /** A show of this play, with this much staged. */
  ghost predicate On(y: Play, v: Show, ks: map<Address, Sketch>, net: set<Message>, x: Script) {
    && y.Good() && y.g == v.g && v.Runs() && v.can(ks, net) && Scripted(y, x, net)
    && ks.Keys == Elements(y.g.Validators()) && y.g.TimesOut()
  }

  ghost predicate AllOffered(y: Play, ks: map<Address, Sketch>, todo: set<Address>) {
    forall b :: b in todo ==> b in ks && ks[b] == Blank(b, y.Offered(b))
  }

  lemma Members(y: Play)
    requires y.Good()
    ensures y.first in Elements(y.g.Validators()) && y.second in Elements(y.g.Validators()) && y.second in y.Others()
  {
  }

  lemma Opening(y: Play, v: Show) returns (ks: map<Address, Sketch>)
    requires y.Good() && y.Complete() && y.g == v.g && v.Runs() && v.within(Birth(y.g))
    ensures On(y, v, ks, {}, OPENING) && AllOffered(y, ks, ks.Keys)
  {
    BirthIsShown(v);
    ks := Offers(y, v, Blanks(y.g));
  }

  lemma Offers(y: Play, v: Show, ks: map<Address, Sketch>) returns (ks': map<Address, Sketch>)
    requires On(y, v, ks, {}, OPENING) && forall b :: b in ks ==> ks[b] == Blank(b, None)
    ensures On(y, v, ks', {}, OPENING) && AllOffered(y, ks', ks'.Keys)
  {
    Members(y);
    OfferAct(v, ks, {}, y.first, y.a);
    var ks1 := ks[y.first := ks[y.first].(proposed := Some(y.a))];
    OfferAct(v, ks1, {}, y.second, y.own);
    ks' := ks1[y.second := ks1[y.second].(proposed := Some(y.own))];
  }

  function Proposed1(y: Play): (k: Sketch) {
    Blank(y.first, Some(y.a)).(accepted := Some(y.ProposalA()))
  }

  lemma FirstProposes(y: Play, v: Show, ks: map<Address, Sketch>)
    requires On(y, v, ks, {}, OPENING) && y.first in ks && ks[y.first] == Blank(y.first, Some(y.a))
    ensures On(y, v, ks[y.first := Proposed1(y)], {y.PA(), y.Prep(0, y.first)}, OPENING) && v.passes(y.ProposalA())
  {
    var p, q := y.PA(), y.Prep(0, y.first);
    assert Vote(y, q) && Line(y, OPENING, p) && Line(y, OPENING, q);
    assert {} + {p, q} == {p, q};
    ScriptedIsClean(y, OPENING, {p, q});
    ProposeAct(v, ks, {}, y.first, y.a, p, q);
    assert ProposalChecks(y.ProposalA(), y.g.Start());
  }

  /** The quorum holds the block, and has prepared it. */
  lemma Scene1(y: Play, v: Show, start: map<Address, Sketch>) returns (ks: map<Address, Sketch>, net: set<Message>)
    requires On(y, v, start, {}, OPENING) && AllOffered(y, start, start.Keys)
    ensures On(y, v, ks, net, OPENING) && AllHold(ks, y.voters, 0, y.ProposalA()) && Prepares(y, 0) <= net
    ensures AllBlank(ks, ks.Keys - y.voters) && OnlyPrepares(net) && ks[y.second].proposed == Some(y.own)
  {
    Members(y);
    FirstProposes(y, v, start);
    var ks0, net0, todo := start[y.first := Proposed1(y)], {y.PA(), y.Prep(0, y.first)}, y.voters - {y.first};
    OfferedWait(y, start, todo);
    ks, net := AllTake(y, v, ks0, net0, OPENING, 0, y.ProposalA(), todo);
    AfterTaking(y, start, ks0, ks, net0, net);
  }

  lemma OfferedWait(y: Play, start: map<Address, Sketch>, todo: set<Address>)
    requires y.Good() && AllOffered(y, start, start.Keys) && todo <= start.Keys - {y.first}
    ensures AllWait(start[y.first := Proposed1(y)], todo, 0)
  {
    forall b | b in todo
      ensures b in start[y.first := Proposed1(y)] && Waits(start[y.first := Proposed1(y)][b], b, 0)
    {
      assert start[b] == Blank(b, y.Offered(b));
    }
  }

  /** Proposals and prepares of round 0. */
  ghost predicate OnlyPrepares(net: set<Message>) {
    forall m :: m in net ==> m.Round() == 0 && !m.CommitMessage?
  }

  lemma AfterTaking(
    y: Play, start: map<Address, Sketch>, ks0: map<Address, Sketch>, ks: map<Address, Sketch>,
    net0: set<Message>, net: set<Message>)
    requires y.Good() && AllOffered(y, start, start.Keys) && start.Keys == Elements(y.g.Validators())
    requires ks0 == start[y.first := Proposed1(y)] && net0 == {y.PA(), y.Prep(0, y.first)}
    requires Apart(ks0, ks, y.voters - {y.first}) && AllTook(y, ks0, ks, y.voters - {y.first}, 0, y.ProposalA())
    requires AddsPrepares(y, net0, net, 0, y.voters - {y.first})
    ensures AllHold(ks, y.voters, 0, y.ProposalA()) && Prepares(y, 0) <= net && OnlyPrepares(net)
    ensures AllBlank(ks, ks.Keys - y.voters) && y.second in ks && ks[y.second].proposed == Some(y.own)
  {
    forall b | b in y.voters
      ensures b in ks && Holds(ks[b], b, 0, y.ProposalA()) && y.Prep(0, b) in net
    {
      if b != y.first {
        assert b in y.voters - {y.first} && Took1(y, ks0[b], ks[b], b, 0, y.ProposalA());
      }
    }
    assert Took1(y, ks0[y.second], ks[y.second], y.second, 0, y.ProposalA());
  }

  /** A validator that has committed in round 0 and has heard of no other. */
  ghost predicate Done0(y: Play, k: Sketch, b: Address) {
    && k.id == b && k.round == 0 && k.accepted == Some(y.ProposalA()) && y.Com(0, b) in k.known
    && k.preparedBlock == Some(y.a) && k.preparedRound == Some(0) && forall m :: m in k.known ==> m.Round() == 0
  }

  ghost predicate AllDone0(y: Play, ks: map<Address, Sketch>, todo: set<Address>) {
    forall b :: b in todo ==> b in ks && Done0(y, ks[b], b)
  }

  /** All that was said so far is of round 0. */
  ghost predicate Early(net: set<Message>) {
    forall m :: m in net ==> m.Round() == 0
  }

  /** The quorum commits the block. */
  lemma Scene2(y: Play, v: Show, start: map<Address, Sketch>) returns (ks: map<Address, Sketch>, net: set<Message>)
    requires On(y, v, start, {}, OPENING) && AllOffered(y, start, start.Keys)
    ensures On(y, v, ks, net, OPENING) && AllDone0(y, ks, y.voters) && Early(net) && Commits1(y, 0) <= net
    ensures AllBlank(ks, ks.Keys - y.voters) && y.second in ks && ks[y.second].proposed == Some(y.own)
  {
    var ks1, net1 := Scene1(y, v, start);
    NothingCommitted(y, net1, 0, y.voters);
    ks, net := AllVote(y, v, ks1, net1, OPENING, 0, y.ProposalA(), y.voters);
    AllKnown(v, ks, net);
    AfterVoting(y, ks1, ks, net1, net);
  }

  lemma NothingCommitted(y: Play, net: set<Message>, r: nat, todo: set<Address>)
    requires forall m :: m in net ==> !m.CommitMessage? || m.Round() != r
    ensures NoneVoted(y, net, r, todo)
  {
    forall b | b in todo
      ensures y.Com(r, b) !in net
    {
      assert y.Com(r, b).CommitMessage? && y.Com(r, b).Round() == r;
    }
  }

  ghost predicate KnownWithin(ks: map<Address, Sketch>, net: set<Message>) {
    forall b :: b in ks ==> ks[b].known <= net
  }

  lemma AllKnown(v: Show, ks: map<Address, Sketch>, net: set<Message>)
    requires v.Runs() && v.can(ks, net)
    ensures KnownWithin(ks, net)
  {
    forall b | b in ks
      ensures ks[b].known <= net
    {
      HearsNothing(ks[b]);
      KnownInNet(v, ks, net, b, []);
    }
  }

  lemma AfterVoting(y: Play, ks1: map<Address, Sketch>, ks: map<Address, Sketch>, net1: set<Message>, net: set<Message>)
    requires y.Good() && AllHold(ks1, y.voters, 0, y.ProposalA()) && OnlyPrepares(net1) && KnownWithin(ks, net)
    requires Apart(ks1, ks, y.voters) && AllVoted(y, ks1, ks, y.voters, 0) && AddsCommits(y, net1, net, 0, y.voters)
    requires AllBlank(ks1, ks1.Keys - y.voters) && y.second in ks1 && ks1[y.second].proposed == Some(y.own)
    ensures AllDone0(y, ks, y.voters) && Early(net) && Commits1(y, 0) <= net
    ensures AllBlank(ks, ks.Keys - y.voters) && y.second in ks && ks[y.second].proposed == Some(y.own)
  {
    forall b | b in y.voters
      ensures b in ks && Done0(y, ks[b], b)
    {
      assert Holds(ks1[b], b, 0, y.ProposalA()) && Voted1(y, ks1[b], ks[b], b, 0) && ks[b].known <= net;
    }
    assert Voted1(y, ks1[y.second], ks[y.second], y.second, 0);
  }

  // ---- Round 1 --------------------------------------------------------------------

  lemma DoneIsStuck(y: Play, ks: map<Address, Sketch>)
    requires y.Good() && y.g.TimesOut() && AllDone0(y, ks, y.voters)
    ensures AllStuck(y, ks, y.voters - {y.first})
  {
    forall b | b in y.voters - {y.first}
      ensures b in ks && ks[b].id == b && Stuck(y.g, ks[b], y.a)
    {
      assert Done0(y, ks[b], b);
    }
  }

  /** Commits are of round 0 only, and nothing was proposed after it. */
  ghost predicate Calm(net: set<Message>) {
    forall m :: m in net && m.Round() > 0 ==> m.RoundChangeMessage?
  }

  /** The quorum, but for the first, gives up on round 0. */
  lemma Scene3(y: Play, v: Show, start: map<Address, Sketch>)
    returns (ks: map<Address, Sketch>, net: set<Message>, x: Script)
    requires On(y, v, start, {}, OPENING) && AllOffered(y, start, start.Keys)
    ensures On(y, v, ks, net, x) && x.changes.Keys == y.voters - {y.first} && x.proposal.None?
    ensures Called1(y, x, net, y.voters - {y.first}) && AllWait(ks, y.voters - {y.first}, 1) && Calm(net)
    ensures y.first in ks && Done0(y, ks[y.first], y.first) && Commits1(y, 0) <= net
    ensures AllBlank(ks, ks.Keys - y.voters) && y.second in ks && ks[y.second].proposed == Some(y.own)
  {
    var ks2, net2 := Scene2(y, v, start);
    DoneIsStuck(y, ks2);
    ks, net, x := QuorumGivesUp(y, v, ks2, net2);
    AfterGivingUp(y, ks2, ks, net2, net);
  }

  lemma QuorumGivesUp(y: Play, v: Show, ks: map<Address, Sketch>, net: set<Message>)
    returns (ks': map<Address, Sketch>, net': set<Message>, x: Script)
    requires On(y, v, ks, net, OPENING) && AllStuck(y, ks, y.voters - {y.first})
    ensures On(y, v, ks', net', x) && x.changes.Keys == y.voters - {y.first} && x.proposal.None?
    ensures Apart(ks, ks', y.voters - {y.first}) && AllMoved(ks, ks', y.voters - {y.first})
    ensures AddsChanges(net, net') && Called1(y, x, net', y.voters - {y.first})
  {
    var todo := y.voters - {y.first};
    assert todo - OPENING.changes.Keys == todo && OPENING.changes.Keys + todo == todo;
    ks', net', x := AllGiveUp(y, v, ks, net, OPENING, todo);
  }

  lemma AfterGivingUp(
    y: Play, ks2: map<Address, Sketch>, ks: map<Address, Sketch>, net2: set<Message>, net: set<Message>)
    requires y.Good() && AllDone0(y, ks2, y.voters) && Early(net2) && Commits1(y, 0) <= net2 && AddsChanges(net2, net)
    requires Apart(ks2, ks, y.voters - {y.first}) && AllMoved(ks2, ks, y.voters - {y.first})
    requires AllBlank(ks2, ks2.Keys - y.voters) && y.second in ks2 && ks2[y.second].proposed == Some(y.own)
    ensures AllWait(ks, y.voters - {y.first}, 1) && Calm(net) && Commits1(y, 0) <= net
    ensures y.first in ks && Done0(y, ks[y.first], y.first)
    ensures AllBlank(ks, ks.Keys - y.voters) && y.second in ks && ks[y.second].proposed == Some(y.own)
  {
    forall b | b in y.voters - {y.first}
      ensures b in ks && Waits(ks[b], b, 1)
    {
      assert Done0(y, ks2[b], b) && Moved1(ks2[b], ks[b]);
    }
    assert Done0(y, ks2[y.first], y.first) && Moved1(ks2[y.second], ks[y.second]);
  }

  /** The rest time out. */
  lemma Scene4(y: Play, v: Show, start: map<Address, Sketch>)
    returns (ks: map<Address, Sketch>, net: set<Message>, x: Script)
    requires On(y, v, start, {}, OPENING) && AllOffered(y, start, start.Keys)
    ensures On(y, v, ks, net, x) && x.changes.Keys == y.voters - {y.first} && x.proposal.None?
    ensures Called1(y, x, net, y.Others()) && AllWait(ks, y.Others(), 1) && Calm(net)
    ensures y.first in ks && Done0(y, ks[y.first], y.first) && Commits1(y, 0) <= net
    ensures y.second in ks && ks[y.second].proposed == Some(y.own)
  {
    var ks3, net3;
    ks3, net3, x := Scene3(y, v, start);
    ks, net := AllTimeOut(y, v, ks3, net3, x, ks3.Keys - y.voters);
    AfterTimingOut(y, x, ks3, ks, net3, net);
  }

  lemma AfterTimingOut(
    y: Play, x: Script, ks3: map<Address, Sketch>, ks: map<Address, Sketch>, net3: set<Message>, net: set<Message>)
    requires y.Good() && ks3.Keys == Elements(y.g.Validators()) && AddsChanges(net3, net) && Calm(net3)
    requires Apart(ks3, ks, ks3.Keys - y.voters) && AllWait(ks, ks3.Keys - y.voters, 1)
    requires Called1(y, x, net3, y.voters - {y.first}) && Called1(y, x, net, ks3.Keys - y.voters)
    requires AllWait(ks3, y.voters - {y.first}, 1)
    ensures Called1(y, x, net, y.Others()) && AllWait(ks, y.Others(), 1) && Calm(net)
    ensures y.first in ks && ks[y.first] == ks3[y.first] && y.second in ks && ks[y.second] == ks3[y.second]
  {
    forall b | b in y.Others()
      ensures b in ks && Waits(ks[b], b, 1) && RoundChangeMessage(Change(y, x, b)) in net
    {
      if b in y.voters {
        assert b in y.voters - {y.first} && Waits(ks3[b], b, 1) && ks[b] == ks3[b];
      } else {
        assert b in ks3.Keys - y.voters && Waits(ks[b], b, 1);
      }
    }
    Members(y);
  }

  /** The round changes of everyone but the first. */
  function Calls(y: Play, x: Script): (ms: set<Message>) {
    set b | b in y.Others() :: RoundChangeMessage(Change(y, x, b))
  }

  lemma SecondIsReady(y: Play, x: Script, k: Sketch, net: set<Message>, k': Sketch)
    requires y.Good() && Scripted(y, x, net) && k.known <= net && Called1(y, x, net, y.Others())
    requires Waits(k, y.second, 1) && k.proposed == Some(y.own)
    requires x.changes.Keys == y.voters - {y.first} && x.proposal.None? && k' == k.(known := k.known + Calls(y, x))
    ensures Calls(y, x) <= net && Ready2(y, x, k')
  {
    forall b | b in y.Others()
      ensures RoundChangeMessage(Change(y, x, b)) in k'.known
    {
      assert RoundChangeMessage(Change(y, x, b)) in Calls(y, x);
    }
    assert k'.known <= net;
    assert forall m {:trigger Line(y, x, m)} :: m in k'.known ==> Line(y, x, m);
  }

  /** The second validator proposes a block of its own. */
  lemma Scene5(y: Play, v: Show, start: map<Address, Sketch>)
    returns (ks: map<Address, Sketch>, net: set<Message>, x: Script, p: Proposal)
    requires On(y, v, start, {}, OPENING) && AllOffered(y, start, start.Keys)
    ensures On(y, v, ks, net, x) && x.proposal == Some(p) && v.passes(p) && ProposalMessage(p) in net
    ensures AllWait(ks, y.Others(), 1) && NoCommits1(net)
    ensures y.first in ks && Done0(y, ks[y.first], y.first) && Commits1(y, 0) <= net
  {
    var ks4, net4, x4 := Scene4(y, v, start);
    var k;
    k, p := SecondLeads(y, v, ks4, net4, x4);
    ks, net, x := ks4[y.second := k], net4 + {ProposalMessage(p)}, x4.(proposal := Some(p));
    AfterLeading(y, ks4, k, net4, ProposalMessage(p));
  }

  lemma SecondLeads(y: Play, v: Show, ks: map<Address, Sketch>, net: set<Message>, x: Script)
    returns (k': Sketch, p: Proposal)
    requires On(y, v, ks, net, x) && x.changes.Keys == y.voters - {y.first} && x.proposal.None?
    requires Called1(y, x, net, y.Others()) && AllWait(ks, y.Others(), 1)
    requires y.second in ks && ks[y.second].proposed == Some(y.own)
    ensures v.can(ks[y.second := k'], net + {ProposalMessage(p)}) && v.passes(p)
    ensures Scripted(y, x.(proposal := Some(p)), net + {ProposalMessage(p)}) && Waits(k', y.second, 1)
  {
    Members(y);
    AllKnown(v, ks, net);
    var k := ks[y.second];
    assert Waits(k, y.second, 1) && k.known <= net;
    SecondIsReady(y, x, k, net, k.(known := k.known + Calls(y, x)));
    k', p := LeadAct(y, v, ks, net, x, Calls(y, x));
  }

  /** Nobody has committed in round 1. */
  ghost predicate NoCommits1(net: set<Message>) {
    forall m :: m in net ==> !m.CommitMessage? || m.Round() != 1
  }

  lemma AfterLeading(y: Play, ks: map<Address, Sketch>, k: Sketch, net: set<Message>, m: Message)
    requires y.Good() && AllWait(ks, y.Others(), 1) && Waits(k, y.second, 1) && Calm(net) && !m.CommitMessage?
    ensures AllWait(ks[y.second := k], y.Others(), 1) && NoCommits1(net + {m})
  {
    forall b | b in y.Others()
      ensures b in ks[y.second := k] && Waits(ks[y.second := k][b], b, 1)
    {
      assert Waits(ks[b], b, 1);
    }
  }

  /** Everyone but the first accepts and commits it. */
  lemma Scene6(y: Play, v: Show, start: map<Address, Sketch>)
    returns (ks: map<Address, Sketch>, net: set<Message>, x: Script, p: Proposal)
    requires On(y, v, start, {}, OPENING) && AllOffered(y, start, start.Keys)
    ensures On(y, v, ks, net, x) && x.proposal == Some(p)
    ensures Commits1(y, 0) <= net && Commits1(y, 1) <= net && y.first in ks && Done0(y, ks[y.first], y.first)
    ensures y.second in ks && Done1(y, ks[y.second], p)
  {
    var ks5, net5;
    ks5, net5, x, p := Scene5(y, v, start);
    var ks6, net6 := AllTake(y, v, ks5, net5, x, 1, p, y.Others());
    BeforeVoting(y, ks5, ks6, net5, net6, p);
    ks, net := AllVote(y, v, ks6, net6, x, 1, p, y.Others());
    AfterVoting1(y, ks6, ks, net6, net, p);
  }

  /** The second validator with its own commit. */
  ghost predicate Done1(y: Play, k: Sketch, p: Proposal) {
    Holds(k, y.second, 1, p) && y.Com(1, y.second) in k.known
  }

  lemma BeforeVoting(
    y: Play, ks5: map<Address, Sketch>, ks6: map<Address, Sketch>, net5: set<Message>, net6: set<Message>, p: Proposal)
    requires y.Good() && AllWait(ks5, y.Others(), 1) && NoCommits1(net5) && Commits1(y, 0) <= net5 && y.first in ks5
    requires Apart(ks5, ks6, y.Others()) && AllTook(y, ks5, ks6, y.Others(), 1, p)
    requires AddsPrepares(y, net5, net6, 1, y.Others())
    ensures AllHold(ks6, y.Others(), 1, p) && Prepares(y, 1) <= net6 && NoneVoted(y, net6, 1, y.Others())
    ensures Commits1(y, 0) <= net6 && y.first in ks6 && ks6[y.first] == ks5[y.first]
  {
    forall b | b in y.Others()
      ensures b in ks6 && Holds(ks6[b], b, 1, p) && y.Prep(1, b) in net6
    {
      assert Waits(ks5[b], b, 1) && Took1(y, ks5[b], ks6[b], b, 1, p);
    }
    NothingCommitted(y, net6, 1, y.Others());
  }

  lemma AfterVoting1(
    y: Play, ks6: map<Address, Sketch>, ks: map<Address, Sketch>, net6: set<Message>, net: set<Message>, p: Proposal)
    requires y.Good() && AllHold(ks6, y.Others(), 1, p) && Commits1(y, 0) <= net6 && y.first in ks6
    requires Apart(ks6, ks, y.Others()) && AllVoted(y, ks6, ks, y.Others(), 1)
    requires AddsCommits(y, net6, net, 1, y.Others())
    ensures Commits1(y, 0) <= net && Commits1(y, 1) <= net && y.first in ks && ks[y.first] == ks6[y.first]
    ensures y.second in ks && Done1(y, ks[y.second], p)
  {
    Members(y);
    assert Holds(ks6[y.second], y.second, 1, p) && Voted1(y, ks6[y.second], ks[y.second], y.second, 1);
  }

  // ---- The end --------------------------------------------------------------------

  /** A leader with all commits of its round finalises. */
  lemma LeaderFinalises(y: Play, s: NodeState, k: Sketch, p: Proposal, r: nat)
    requires y.Good() && Fits(y.g, s, k) && Plain(s) && NoLaterProposal(k) && r <= 1
    requires Holds(k, Proposer(r, y.g.Start()), r, p) && p.block == y.BlockOf(r)
    requires Commits1(y, r) <= k.known && y.Com(r, k.id) in k.known
    ensures NextSubStep(s) == Finalised(s, p.block)
  {
    forall b | b in y.Voters(r)
      ensures exists m :: m in k.known && Commits(y.g, m, r, p.block, b)
    {
      assert y.Com(r, b) in Commits1(y, r) && Commits(y.g, y.Com(r, b), r, p.block, b);
    }
    EnoughVoters(y, r);
    Finalises(y.g, s, k, p, y.Voters(r));
  }

  /** Two honest nodes at one height with different blocks at their heads. */
  ghost predicate Diverged(w: Swarm) {
    exists b, c :: b in w.nodes && c in w.nodes && Conflict(w.nodes[b], w.nodes[c])
  }

  predicate Conflict(s1: NodeState, s2: NodeState) {
    s1.Height() == s2.Height() && Agreement.Content(s1.chain.head) != Agreement.Content(s2.chain.head)
  }

  lemma DifferentBlocks(y: Play, s1: NodeState, s2: NodeState)
    requires y.Good()
    ensures Conflict(Finalised(s1, y.a).state, Finalised(s2, y.B()).state)
    ensures Finalised(s1, y.a).state.Validators() == y.g.Validators()
    ensures Finalised(s2, y.B()).state.Validators() == y.g.Validators()
  {
    var c, d := Finalised(s1, y.a).state.chain.head, Finalised(s2, y.B()).state.chain.head;
    assert Agreement.Content(c).digest != Agreement.Content(d).digest;
  }

  lemma FirstKnows(y: Play, k0: Sketch, k: Sketch, s: NodeState)
    requires y.Good() && Done0(y, k0, y.first) && k == k0.(known := k0.known + Commits1(y, 0)) && Fits(y.g, s, k)
    requires Plain(s)
    ensures NextSubStep(s) == Finalised(s, y.a)
  {
    assert forall m :: m in Commits1(y, 0) ==> m.Round() == 0;
    LeaderFinalises(y, s, k, y.ProposalA(), 0);
  }

  lemma SecondKnows(y: Play, x: Script, p: Proposal, k0: Sketch, k: Sketch, net: set<Message>, s: NodeState)
    requires y.Good() && Scripted(y, x, net) && x.proposal == Some(p) && k.known <= net && Done1(y, k0, p)
    requires k == k0.(known := k0.known + Commits1(y, 1)) && Fits(y.g, s, k) && Plain(s)
    ensures NextSubStep(s) == Finalised(s, y.B())
  {
    BlockOfProposal(y, x, 1, p);
    SoleProposal(y, x, k, net, p);
    LeaderFinalises(y, s, k, p, 1);
  }

  lemma BothFinalise(y: Play, v: Show, ks: map<Address, Sketch>, net: set<Message>, x: Script, p: Proposal)
    returns (w: Swarm, s1: NodeState, s2: NodeState)
    requires On(y, v, ks, net, x) && x.proposal == Some(p)
    requires Commits1(y, 0) <= net && Commits1(y, 1) <= net && y.first in ks && Done0(y, ks[y.first], y.first)
    requires y.second in ks && Done1(y, ks[y.second], p)
    ensures v.within(w) && FixedValidators(y.g.committee, w) && y.first in w.nodes && y.second in w.nodes
    ensures w.nodes[y.first] == s1 && w.nodes[y.second] == s2
    ensures NextSubStep(s1) == Finalised(s1, y.a) && NextSubStep(s2) == Finalised(s2, y.B())
  {
    var in1 := Listed(Commits1(y, 0));
    var in2 := Listed(Commits1(y, 1));
    w, s1, s2 := BothHear(v, ks, net, y.first, in1, y.second, in2);
    FirstKnows(y, ks[y.first], ks[y.first].Hears(in1), s1);
    SecondKnows(y, x, p, ks[y.second], ks[y.second].Hears(in2), net, s2);
  }

  lemma LastTicks(y: Play, within: Swarm -> bool, w: Swarm, s1: NodeState, s2: NodeState) returns (w': Swarm)
    requires y.Good() && Closed(y.g.committee, within) && within(w) && FixedValidators(y.g.committee, w)
    requires y.first in y.g.committee.honest && y.second in y.g.committee.honest
    requires y.g.Validators() == y.g.committee.validators
    requires y.first in w.nodes && y.second in w.nodes && w.nodes[y.first] == s1 && w.nodes[y.second] == s2
    requires NextSubStep(s1) == Finalised(s1, y.a) && NextSubStep(s2) == Finalised(s2, y.B())
    ensures within(w') && Diverged(w')
  {
    DifferentBlocks(y, s1, s2);
    var w1 := OneTick(y.g, within, w, y.first, s1, Finalised(s1, y.a));
    w' := OneTick(y.g, within, w1, y.second, s2, Finalised(s2, y.B()));
    assert Conflict(w'.nodes[y.first], w'.nodes[y.second]);
  }

  /** The first two leaders hear the commits they need and finalise. */
  lemma Diverges(y: Play, v: Show, start: map<Address, Sketch>) returns (w: Swarm)
    requires On(y, v, start, {}, OPENING) && AllOffered(y, start, start.Keys)
    requires y.first in y.g.committee.honest && y.second in y.g.committee.honest
    requires y.g.Validators() == y.g.committee.validators
    ensures v.within(w) && Diverged(w)
  {
    var ks, net, x, p := Scene6(y, v, start);
    var s1, s2;
    w, s1, s2 := BothFinalise(y, v, ks, net, x, p);
    w := LastTicks(y, v.within, w, s1, s2);
  }

  // ---- For every committee --------------------------------------------------------

  /** A block of the first height that the leader of round `r` could have ready. */
  predicate ReadyFor(g: Setting, block: Block, r: nat) {
    && block.header.height == g.Height() && block.header.roundNumber == 0
    && block.header.proposer == Proposer(r, g.Start())
    && block.header.validators == g.Validators() && block.ValidDigest()
  }

  /** Some set of `q` with two given members. */
  lemma {:induction false} SomeOf(all: set<Address>, part: set<Address>, q: nat) returns (s: set<Address>)
    requires part <= all && |part| <= q <= |all|
    ensures part <= s <= all && |s| == q
    decreases q - |part|
  {
    if |part| == q {
      s := part;
    } else {
      assert all == part + (all - part);
      var b :| b in all - part;
      s := SomeOf(all, part + {b}, q);
    }
  }

  lemma LeadersDiffer(g: Setting)
    requires g.committee.Valid() && |g.committee.validators| >= 3
    ensures Proposer(0, g.Start()) != Proposer(1, g.Start())
  {
    Rotation.NobodyLeadsTwice(g.Start(), 0, 2);
    var ls := Rotation.Leaders(g.Start(), 0, 2);
    assert ls[0] != ls[1];
  }

  lemma Casting(g: Setting, a: Block, own: Block) returns (y: Play)
    requires g.committee.Valid() && |g.committee.validators| >= 3
    requires ReadyFor(g, a, 0) && ReadyFor(g, own, 1) && a.header.digest != own.header.digest
    ensures y.Good() && y.g == g
  {
    var first, second, all := Proposer(0, g.Start()), Proposer(1, g.Start()), Elements(g.Validators());
    LeadersDiffer(g);
    ElementsCardinality(g.Validators());
    QuorumBounds(|g.Validators()|);
    var voters := SomeOf(all, {first, second}, Quorum(|g.Validators()|));
    y := Play(g, first, second, voters, a, own);
    Sized(y);
  }

  lemma Sized(y: Play)
    requires |y.g.Validators()| >= 3 && |Elements(y.g.Validators())| == |y.g.Validators()|
    requires y.first in y.voters && y.second in y.voters && y.voters <= Elements(y.g.Validators())
    requires |y.voters| == Quorum(|y.g.Validators()|)
    ensures y.Sizes()
  {
    assert y.first in Elements(y.g.Validators());
    assert |y.Others()| == |y.g.Validators()| - 1;
  }

  /** The promise that no conflicting blocks are finalised does not hold, for any number of
      validators from three on: even if all are honest, and whatever the leaders of the
      first two rounds have to propose, there is a run after which two of them have
      finalised different blocks at the same height. */
  lemma SafetyFails(g: Setting, a: Block, own: Block) returns (trace: seq<Swarm>)
    requires g.committee.Valid() && |g.committee.validators| >= 3
    requires g.committee.honest == Elements(g.committee.validators) && g.TimesOut()
    requires ReadyFor(g, a, 0) && ReadyFor(g, own, 1) && a.header.digest != own.header.digest
    ensures Run(g.committee, trace) && ClocksGoForward(trace) && Diverged(trace[|trace| - 1])
  {
    var y := Casting(g, a, own);
    var w := DivergesIn(y);
    trace := RunTo(g.committee, w);
  }

  lemma DivergesIn(y: Play) returns (w: Swarm)
    requires y.Good() && y.Complete()
    ensures Reachable(y.g.committee, w) && Diverged(w)
  {
    var v := Everything(y.g);
    var start := Opening(y, v);
    Members(y);
    w := Diverges(y, v, start);
  }

  /** Every committee has such blocks. */
  lemma BlocksExist(g: Setting) returns (a: Block, own: Block)
    ensures ReadyFor(g, a, 0) && ReadyFor(g, own, 1) && a.header.digest != own.header.digest
  {
    a := BlockFor(g, 0, [0]);
    own := BlockFor(g, 1, [1]);
    assert a.body[0] != own.body[0];
  }

  function BlockFor(g: Setting, r: nat, body: Bytes): (b: Block) {
    Block(BlockHeader(Proposer(r, g.Start()), 0, [], g.Height(), 0, g.Validators(), BodyHash(body)), body, [])
  }
}
