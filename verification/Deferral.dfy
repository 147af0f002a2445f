/** A node may keep waiting in round 0 while prepares and commits still arrive, but only a
    bounded number of times on one head. */
module Deferral {
  import opened Prelude
  import opened Types
  import opened Validators
  import opened Justification
  import opened Store
  import opened Protocol
  import opened Swarm
  import opened Effects
  import opened Preservation

  // ---- The driver's ticks ---------------------------------------------------------

  /** What the driver gives a node for one tick: a block to propose, if it has one, the
      messages that arrived, the clock, and whether the node's output goes straight into its
      own store. */
  datatype Input = Input(proposed: Option<Block>, incoming: seq<Message>, time: nat, bypass: bool)

  function Offered(s: NodeState, i: Input): (s': NodeState) {
    if i.proposed.Some? then s.(chain := s.chain.SetProposed(i.proposed)) else s
  }

  /** The state in which the tick's step is taken. */
  function Woken(s: NodeState, i: Input): (u: NodeState) {
    AddMessages(Offered(s, i), i.incoming, i.time)
  }

  function DriverTick(s: NodeState, i: Input): (s': NodeState) {
    Delivered(NodeTick(Offered(s, i), i.incoming, i.time), i.bypass)
  }

  function Delivered(o: Outcome, bypass: bool): (s': NodeState) {
    if bypass then PushAll(o.state, Sent(o)) else o.state
  }

  /** The driver's clock does not go back and it offers blocks of the node's height only. */
  predicate Proper(s: NodeState, i: Input) {
    && s.time <= i.time
    && (i.proposed.Some? ==> i.proposed.value.header.height == s.Height())
  }

  ghost predicate TickAt(ss: seq<NodeState>, ins: seq<Input>, k: nat)
    requires k < |ins| && k + 1 < |ss|
  {
    Proper(ss[k], ins[k]) && ss[k + 1] == DriverTick(ss[k], ins[k])
  }

  /** Any number of ticks of a node, from its start. */
  ghost predicate History(ss: seq<NodeState>, ins: seq<Input>) {
    && |ss| == |ins| + 1
    && (exists id, config, genesis, time :: ss[0] == InitialState(id, config, Chain([], genesis, None), time))
    && forall k :: 0 <= k < |ins| ==> TickAt(ss, ins, k)
  }

  /** The step comes to the round timer's rule, in round 0, and finds the timer expired. */
  predicate Expires(u: NodeState) {
    && u.id in u.Validators()
    && UponNewBlock(u).sent.None?
    && UponBlockTimeout(u).sent.None?
    && UponProposal(u).sent.None?
    && UponPrepare(u).sent.None?
    && UponCommit(u).sent.None?
    && UponRoundChange(u).sent.None?
    && (u.config.roundChangeOnFirstBlock || u.Height() != 1)
    && u.round == 0
    && u.time >= u.NextRoundTimeout()
  }

  /** It does, and the node puts the round change off. */
  predicate Defers(u: NodeState) {
    Expires(u) && DeferRoundZero(u).1
  }

  /** The node is in round 0 on one head in all states from `from` up to `to`, and it came
      to that head at `from`. */
  ghost predicate OnOneHead(ss: seq<NodeState>, from: nat, to: nat) {
    && from < to < |ss|
    && (from == 0 || ss[from - 1].chain.head != ss[from].chain.head)
    && forall i :: from <= i < to ==> ss[i].chain.head == ss[from].chain.head && ss[i].round == 0
  }

  /** Which ticks satisfy `p` in the state they step from. */
  function Marks(p: NodeState -> bool, ss: seq<NodeState>, ins: seq<Input>): (r: seq<bool>)
    requires |ins| <= |ss|
    ensures |r| == |ins|
  {
    seq(|ins|, k requires 0 <= k < |ins| => p(Woken(ss[k], ins[k])))
  }

  /** The number of marks from `from` up to `to`. */
  function Count(marks: seq<bool>, from: nat, to: nat): (n: nat)
    requires to <= |marks|
  {
    if to <= from then 0 else Count(marks, from, to - 1) + if marks[to - 1] then 1 else 0
  }

  function Grace(config: Config): (g: nat)
    ensures g > 0
  {
    Max(config.blockTime, 1)
  }

  // ---- What the node has stored ---------------------------------------------------

  function StoredPrepares(s: NodeState, d: Hash): (n: nat) {
    |PrepareSenders(PreparesFor(s.Height(), 0, d, s.messages)) * Elements(s.Validators())|
  }

  function StoredCommits(s: NodeState, d: Hash): (n: nat) {
    |CommitSenders(CommitsFor(s.Height(), 0, d, s.messages)) * Elements(s.Validators())|
  }

  /** `t` is on the head of `s` and has all it has stored for the height. */
  ghost predicate HasStored(s: NodeState, t: NodeState) {
    && t.chain.head == s.chain.head
    && forall m :: m in s.messages && m.Height() == s.Height() ==> m in t.messages
  }

  /** The marker is not ahead of what the node has stored. */
  predicate MarkerBehind(s: NodeState) {
    if s.accepted.None? then s.progressPrepares == 0 && s.progressCommits == 0
    else
      var d := Digest(s.accepted.value.block);
      s.progressPrepares <= StoredPrepares(s, d) && s.progressCommits <= StoredCommits(s, d)
  }

  /** Sender counts are capped by the number of validators. */
  lemma ProgressIsCapped(s: NodeState, d: Hash)
    ensures StoredPrepares(s, d) <= |s.Validators()| && StoredCommits(s, d) <= |s.Validators()|
  {
    var all := Elements(s.Validators());
    ElementsCardinality(s.Validators());
    SubsetCardinality(PrepareSenders(PreparesFor(s.Height(), 0, d, s.messages)) * all, all);
    SubsetCardinality(CommitSenders(CommitsFor(s.Height(), 0, d, s.messages)) * all, all);
  }

  /** Sender counts never fall while nothing of the height is dropped. */
  lemma ProgressGrows(s: NodeState, t: NodeState, d: Hash)
    requires HasStored(s, t)
    ensures StoredPrepares(s, d) <= StoredPrepares(t, d)
    ensures StoredCommits(s, d) <= StoredCommits(t, d)
  {
    PrepareSendersGrow(s.Height(), d, s.messages, t.messages);
    CommitSendersGrow(s.Height(), d, s.messages, t.messages);
    AmongGrows(PrepareSenders(PreparesFor(s.Height(), 0, d, s.messages)),
               PrepareSenders(PreparesFor(s.Height(), 0, d, t.messages)), s.Validators());
    AmongGrows(CommitSenders(CommitsFor(s.Height(), 0, d, s.messages)),
               CommitSenders(CommitsFor(s.Height(), 0, d, t.messages)), s.Validators());
  }

  lemma AmongGrows(a: set<Address>, b: set<Address>, validators: seq<Address>)
    requires a <= b
    ensures |a * Elements(validators)| <= |b * Elements(validators)|
  {
    SubsetCardinality(a * Elements(validators), b * Elements(validators));
  }

  lemma PrepareSendersGrow(h: nat, d: Hash, ms: seq<Message>, ms': seq<Message>)
    requires forall m :: m in ms && m.Height() == h ==> m in ms'
    ensures PrepareSenders(PreparesFor(h, 0, d, ms)) <= PrepareSenders(PreparesFor(h, 0, d, ms'))
  {
    forall p | p in PreparesFor(h, 0, d, ms) ensures p in PreparesFor(h, 0, d, ms') {
      assert PrepareMessage(p).Height() == h;
    }
  }

  lemma CommitSendersGrow(h: nat, d: Hash, ms: seq<Message>, ms': seq<Message>)
    requires forall m :: m in ms && m.Height() == h ==> m in ms'
    ensures CommitSenders(CommitsFor(h, 0, d, ms)) <= CommitSenders(CommitsFor(h, 0, d, ms'))
  {
    forall c | c in CommitsFor(h, 0, d, ms) ensures c in CommitsFor(h, 0, d, ms') {
      assert CommitMessage(c).Height() == h;
    }
  }

  /** The counts the rule looks at are those over all that is stored, once the view has
      been set by receiving. */
  predicate CountsStored(u: NodeState) {
    u.accepted.Some? && u.round == 0 ==>
      var d := Digest(u.accepted.value.block);
      RoundZeroProgress(u) == Some((StoredPrepares(u, d), StoredCommits(u, d)))
  }

  // ---- What holds while a node waits in round 0 -----------------------------------

  ghost predicate BlocksOfHeight(s: NodeState) {
    && (s.chain.proposed.Some? ==> s.chain.proposed.value.header.height == s.Height())
    && (s.accepted.Some? ==> s.accepted.value.block.header.height == s.Height())
  }

  predicate TimersOk(s: NodeState) {
    s.progressTime <= s.roundStart && s.progressTime <= Max(s.time, s.NextBlockTimeout())
  }

  ghost predicate Patient(s: NodeState) {
    && s.round == 0
    && Sorted(s.messages)
    && BlocksOfHeight(s)
    && TimersOk(s)
    && MarkerBehind(s)
  }

  /** At the start of a height. */
  ghost predicate Fresh(s: NodeState) {
    Patient(s) && s.accepted.None?
  }

  lemma StartIsFresh(id: Address, config: Config, genesis: Block, time: nat)
    ensures Fresh(InitialState(id, config, Chain([], genesis, None), time))
  {
  }

  // ---- Receiving ------------------------------------------------------------------

  /** Equal but for the store, the clock and the chain below and above the head. */
  ghost predicate SameWait(s: NodeState, u: NodeState) {
    && u.id == s.id && u.config == s.config && u.chain.head == s.chain.head
    && u.round == s.round && u.accepted == s.accepted && u.roundStart == s.roundStart
    && u.progressPrepares == s.progressPrepares && u.progressCommits == s.progressCommits
    && u.progressTime == s.progressTime
  }

  /** All that is stored for the height is in view. */
  ghost predicate WholeView(u: NodeState) {
    forall m :: m in u.messages && m.Height() == u.Height() ==> m in u.Visible()
  }

  /** What receiving makes of the store of a node at height `h`. */
  lemma ReceivedStore(ms: seq<Message>, incoming: seq<Message>, chain: Chain)
    requires Sorted(ms)
    ensures var all := Receive(ms, incoming, chain);
            var kept := all[BelowHeight(all, chain.Height())..];
            && Sorted(kept)
            && (forall m :: m in ms && m.Height() == chain.Height() ==> m in kept)
            && (forall m :: m in kept && m.Height() == chain.Height()
                            ==> m in kept[..BelowHeight(kept, chain.Height() + 1)])
  {
    var all := Receive(ms, incoming, chain);
    var h := chain.Height();
    ReceiveKeepsSorted(ms, incoming, chain);
    SortedSlice(all, BelowHeight(all, h), |all|);
    PrunedPrefix(all, h);
  }

  lemma WokenStore(s: NodeState, i: Input)
    requires Sorted(s.messages)
    ensures var u := Woken(s, i); Sorted(u.messages) && HasStored(s, u) && WholeView(u)
  {
    var s1 := Offered(s, i);
    ReceivedStore(s.messages, i.incoming, s1.chain);
    TidiedStore(s, s1.(time := i.time, messages := Receive(s.messages, i.incoming, s1.chain)));
  }

  lemma TidiedStore(s: NodeState, s1: NodeState)
    requires s1.chain.head == s.chain.head
    requires var kept := s1.messages[BelowHeight(s1.messages, s1.Height())..];
             && Sorted(kept)
             && (forall m :: m in s.messages && m.Height() == s1.Height() ==> m in kept)
             && (forall m :: m in kept && m.Height() == s1.Height() ==> m in kept[..BelowHeight(kept, s1.Height() + 1)])
    ensures var u := Tidied(s1); Sorted(u.messages) && HasStored(s, u) && WholeView(u)
  {
  }

  lemma WokenIsSame(s: NodeState, i: Input)
    ensures var u := Woken(s, i); SameWait(s, u) && u.time == i.time
    ensures var u := Woken(s, i); u.chain.proposed == if i.proposed.Some? then i.proposed else s.chain.proposed
  {
  }

  lemma WholeViewCounts(u: NodeState)
    requires WholeView(u)
    ensures CountsStored(u)
  {
    if u.accepted.Some? {
      var h, d := u.Height(), Digest(u.accepted.value.block);
      SameSenders(h, d, u.messages, u.Visible());
    }
  }

  lemma SameSenders(h: nat, d: Hash, ms: seq<Message>, ms': seq<Message>)
    requires forall m :: m in ms && m.Height() == h ==> m in ms'
    requires forall m :: m in ms' ==> m in ms
    ensures PrepareSenders(PreparesFor(h, 0, d, ms)) == PrepareSenders(PreparesFor(h, 0, d, ms'))
    ensures CommitSenders(CommitsFor(h, 0, d, ms)) == CommitSenders(CommitsFor(h, 0, d, ms'))
  {
    PrepareSendersGrow(h, d, ms, ms');
    PrepareSendersGrow(h, d, ms', ms);
    CommitSendersGrow(h, d, ms, ms');
    CommitSendersGrow(h, d, ms', ms);
  }

  /** Receiving keeps what holds of a waiting node, and puts all it has stored into view. */
  lemma ReceivingKeeps(s: NodeState, i: Input)
    requires Patient(s) && Proper(s, i)
    ensures var u := Woken(s, i); Patient(u) && CountsStored(u) && SameWait(s, u) && s.time <= u.time
  {
    var u := Woken(s, i);
    WokenStore(s, i);
    WokenIsSame(s, i);
    WholeViewCounts(u);
    LaterIsPatient(s, u);
  }

  lemma LaterIsPatient(s: NodeState, u: NodeState)
    requires Patient(s) && SameWait(s, u) && HasStored(s, u) && Sorted(u.messages) && s.time <= u.time
    requires u.chain.proposed.Some? ==> u.chain.proposed.value.header.height == s.Height()
    ensures Patient(u)
  {
    SameMarker(s, u);
  }

  lemma SameMarker(s: NodeState, u: NodeState)
    requires MarkerBehind(s) && HasStored(s, u) && SameWait(s, u)
    ensures MarkerBehind(u)
  {
    if s.accepted.Some? {
      ProgressGrows(s, u, Digest(s.accepted.value.block));
    }
  }

  // ---- Stepping, without a deferral -----------------------------------------------

  predicate Stays(u: NodeState, s': NodeState) {
    s'.chain.head == u.chain.head && s'.round == 0
  }

  /** Nothing happened to the wait. */
  ghost predicate Still(u: NodeState, s': NodeState) {
    SameWait(u, s')
  }

  /** A proposal was accepted; the timer runs on or, at the leader, starts. */
  ghost predicate Takes(u: NodeState, s': NodeState) {
    && u.accepted.None? && s'.accepted.Some?
    && SameWait(u, s'.(accepted := None, roundStart := u.roundStart))
    && s'.accepted.value.block.header.height == u.Height()
    && (s'.roundStart == u.roundStart || (s'.roundStart == u.time && u.time >= u.NextBlockTimeout()))
  }

  ghost predicate Moved(u: NodeState, s': NodeState) {
    && (Still(u, s') || Takes(u, s'))
    && s'.time == u.time && s'.chain.proposed == u.chain.proposed
    && Sorted(s'.messages) && forall m :: m in u.messages ==> m in s'.messages
  }

  lemma PushMoved(u: NodeState, s': NodeState, m: Message)
    requires Moved(u, s')
    ensures Moved(u, s'.Push(m))
  {
    InsertKeepsSorted(s'.messages, m);
  }

  lemma {:induction false} PushAllMoved(u: NodeState, s': NodeState, ms: seq<Message>)
    requires Moved(u, s')
    ensures Moved(u, PushAll(s', ms))
    decreases |ms|
  {
    if ms != [] {
      PushMoved(u, s', ms[0]);
      PushAllMoved(u, s'.Push(ms[0]), ms[1..]);
    }
  }

  lemma NewBlockLeaves(u: NodeState)
    ensures UponNewBlock(u).sent.Some? ==> UponNewBlock(u).state.Height() > u.Height()
  {
  }

  lemma ProposingMoves(u: NodeState)
    requires Patient(u) && UponBlockTimeout(u).sent.Some?
    ensures Moved(u, UponBlockTimeout(u).state)
  {
  }

  lemma AcceptingMoves(u: NodeState, p: Proposal)
    requires Patient(u) && IsValidProposal(p, u) && p.payload.unsigned.round == 0
    ensures Moved(u, AcceptProposal(u, p).state)
  {
    var prepare := PrepareMessage(SignPrepare(UnsignedPrepare(u.Height(), 0, Digest(p.block)), u.id));
    PushMoved(u, u.(accepted := Some(p)), prepare);
  }

  lemma VotingMoves(u: NodeState)
    requires Patient(u) && UponPrepare(u).sent.Some?
    ensures Moved(u, UponPrepare(u).state)
  {
    var block := u.accepted.value.block;
    PushMoved(u, u.(preparedBlock := Some(block), preparedRound := Some(u.round)), CommitMessage(CommitVote(u, block)));
  }

  lemma FinalisingLeaves(u: NodeState)
    requires Patient(u)
    ensures UponCommit(u).sent.Some? ==> UponCommit(u).state.Height() > u.Height()
  {
  }

  lemma LeadingMoves(u: NodeState, j: ProposalJustification)
    requires Patient(u) && u.accepted.None? && j.round == 0
    ensures Moved(u, LeadRound(u, j).state)
  {
    PushMoved(u, u, ProposalMessage(LeaderProposal(u, j)));
    assert u.(roundStart := u.roundStart, round := 0, accepted := None) == u;
  }

  lemma RoundChangeMoves(u: NodeState)
    requires Patient(u) && UponRoundChange(u).sent.Some? && Stays(u, UponRoundChange(u).state)
    ensures Moved(u, UponRoundChange(u).state)
  {
    match ReceivedJustification(u)
    case Some(j) =>
      JustifyRoundIsJustified(u, j.round);
      LeadingMoves(u, j);
    case None =>
      var rcs := FutureRoundChanges(u.Visible(), u.Height(), u.round);
      JoiningLeaves(u, rcs);
  }

  lemma JoiningLeaves(u: NodeState, rcs: seq<SignedRoundChange>)
    requires rcs == FutureRoundChanges(u.Visible(), u.Height(), u.round)
    requires |RoundChangeSenders(rcs)| > MaxFaulty(|u.Validators()|)
    ensures JoinRound(u, MinRound(rcs)).state.round > 0
  {
    SomeSender(rcs);
  }

  lemma SomeSender(rcs: seq<SignedRoundChange>)
    ensures RoundChangeSenders(rcs) != {} ==> rcs != []
  {
  }

  lemma ProposalMoves(u: NodeState)
    requires Patient(u) && UponProposal(u).sent.Some? && Stays(u, UponProposal(u).state)
    ensures Moved(u, UponProposal(u).state)
  {
    AcceptingMoves(u, FirstValidProposal(u.Visible(), u).value);
  }

  lemma TimeoutMoves(u: NodeState)
    requires Patient(u) && Stays(u, UponRoundTimeout(u).state)
    requires !DeferRoundZero(u).1 || u.time < u.NextRoundTimeout()
             || (!u.config.roundChangeOnFirstBlock && u.Height() == 1)
    ensures Moved(u, UponRoundTimeout(u).state)
  {
  }

  /** A step that stays and does not defer. */
  lemma StepMoves(u: NodeState)
    requires Patient(u) && !Defers(u) && Stays(u, NextSubStep(u).state)
    ensures Moved(u, NextSubStep(u).state)
  {
    NewBlockLeaves(u);
    if u.id in u.Validators() && UponNewBlock(u).sent.None? {
      if UponBlockTimeout(u).sent.Some? {
        ProposingMoves(u);
      } else if UponProposal(u).sent.Some? {
        ProposalMoves(u);
      } else if UponPrepare(u).sent.Some? {
        VotingMoves(u);
      } else {
        LateStepMoves(u);
      }
    }
  }

  lemma LateStepMoves(u: NodeState)
    requires Patient(u) && !Defers(u) && Stays(u, NextSubStep(u).state)
    requires u.id in u.Validators() && UponNewBlock(u).sent.None? && UponBlockTimeout(u).sent.None?
    requires UponProposal(u).sent.None? && UponPrepare(u).sent.None?
    ensures Moved(u, NextSubStep(u).state)
  {
    FinalisingLeaves(u);
    if UponCommit(u).sent.None? {
      if UponRoundChange(u).sent.Some? {
        RoundChangeMoves(u);
      } else {
        TimeoutMoves(u);
      }
    }
  }

  lemma MovedIsPatient(u: NodeState, s': NodeState)
    requires Patient(u) && Moved(u, s')
    ensures Patient(s')
  {
    if Still(u, s') {
      SameMarker(u, s');
    }
  }

  // ---- A deferral -----------------------------------------------------------------

  /** How far the waiting has got: senders recorded, each worth a grace period, and the time
      waited since the last of them. */
  function Waited(senders: nat, idle: nat, grace: nat): (n: nat) {
    senders * grace + idle
  }

  function Senders(s: NodeState): (n: nat) {
    s.progressPrepares + s.progressCommits
  }

  function Idle(s: NodeState): (n: nat) {
    Monus(s.roundStart, s.progressTime)
  }

  /** A deferral records new senders, or is still within the grace period of the last time
      it did; and it restarts the timer. */
  ghost predicate PutOff(u: NodeState, t: NodeState) {
    && t == u.(progressPrepares := t.progressPrepares, progressCommits := t.progressCommits,
               progressTime := t.progressTime, roundStart := u.time)
    && (|| (Senders(t) > Senders(u) && t.progressTime == u.time)
        || (Senders(t) == Senders(u) && t.progressTime == u.progressTime
            && Monus(u.time, u.progressTime) < Grace(u.config)))
  }

  lemma DeferringPutsOff(u: NodeState)
    requires Patient(u) && CountsStored(u) && Defers(u)
    ensures PutOff(u, DeferRoundZero(u).0) && MarkerBehind(DeferRoundZero(u).0) && u.accepted.Some?
  {
    var d := Digest(u.accepted.value.block);
    var prepares, commits := StoredPrepares(u, d), StoredCommits(u, d);
    assert DeferRoundZero(u) == WaitOn(u, prepares, commits);
    WaitingPutsOff(u, prepares, commits);
  }

  lemma WaitingPutsOff(u: NodeState, prepares: nat, commits: nat)
    requires u.accepted.Some? && WaitOn(u, prepares, commits).1
    requires u.progressPrepares <= prepares && u.progressCommits <= commits
    requires var d := Digest(u.accepted.value.block); prepares == StoredPrepares(u, d) && commits == StoredCommits(u, d)
    ensures PutOff(u, WaitOn(u, prepares, commits).0) && MarkerBehind(WaitOn(u, prepares, commits).0)
  {
    var t := WaitOn(u, prepares, commits).0;
    assert t.messages == u.messages && t.chain == u.chain && t.accepted == u.accepted;
  }

  lemma PutOffIsPatient(u: NodeState, t: NodeState)
    requires Patient(u) && PutOff(u, t) && MarkerBehind(t) && u.time >= u.roundStart
    ensures Patient(t) && Idle(t) < Grace(t.config)
  {
  }

  /** A deferral takes the waiting further, if the last one was within its grace period. */
  lemma PutOffAdvances(u: NodeState, t: NodeState)
    requires PutOff(u, t) && u.progressTime <= u.roundStart < u.time && Idle(u) < Grace(u.config)
    ensures Waited(Senders(t), Idle(t), Grace(u.config)) > Waited(Senders(u), Idle(u), Grace(u.config))
  {
    WaitedGrows(Senders(u), Idle(u), Senders(t), Idle(t), Grace(u.config));
  }

  lemma WaitedGrows(senders: nat, idle: nat, senders': nat, idle': nat, grace: nat)
    requires idle < grace && (senders < senders' || (senders == senders' && idle < idle'))
    ensures Waited(senders', idle', grace) > Waited(senders, idle, grace)
  {
    if senders < senders' {
      OneMore(senders, senders', grace);
    }
  }

  lemma {:induction false} OneMore(a: nat, b: nat, g: nat)
    requires a < b
    ensures a * g + g <= b * g
    decreases b
  {
    assert b * g == (b - 1) * g + g;
    if a < b - 1 {
      OneMore(a, b - 1, g);
    }
  }

  lemma WaitedIsBounded(senders: nat, idle: nat, grace: nat, most: nat)
    requires idle < grace && senders <= most
    ensures Waited(senders, idle, grace) < (most + 1) * grace
  {
    OneMore(senders, most + 1, grace);
  }

  lemma SendersAreBounded(s: NodeState)
    requires MarkerBehind(s)
    ensures Senders(s) <= 2 * |s.Validators()|
  {
    if s.accepted.Some? {
      ProgressIsCapped(s, Digest(s.accepted.value.block));
    }
  }

  // ---- One tick -------------------------------------------------------------------

  /** After `n` deferrals the waiting has got at least that far, and is not over. */
  predicate Spent(s: NodeState, n: nat) {
    n > 0 ==>
      && s.accepted.Some?
      && Idle(s) < Grace(s.config)
      && n <= Waited(Senders(s), Idle(s), Grace(s.config)) + 1
  }

  /** A waiting node that has put its round change off `n` times. */
  ghost predicate Waiting(s: NodeState, n: nat) {
    Patient(s) && Spent(s, n)
  }

  lemma SameWaitSpent(s: NodeState, u: NodeState, n: nat)
    requires SameWait(s, u) && Spent(s, n)
    ensures Spent(u, n)
  {
  }

  lemma WokenWaits(s: NodeState, i: Input, n: nat)
    requires Waiting(s, n) && Proper(s, i)
    ensures var u := Woken(s, i); Waiting(u, n) && CountsStored(u) && SameWait(s, u)
  {
    ReceivingKeeps(s, i);
    SameWaitSpent(s, Woken(s, i), n);
  }

  lemma MovedWaits(u: NodeState, s': NodeState, n: nat)
    requires Waiting(u, n) && Moved(u, s')
    ensures Waiting(s', n)
  {
    MovedIsPatient(u, s');
    if Still(u, s') {
      SameWaitSpent(u, s', n);
    }
  }

  lemma PutOffSpent(u: NodeState, t: NodeState, n: nat)
    requires Spent(u, n) && PutOff(u, t) && u.accepted.Some? && Idle(t) < Grace(t.config)
    requires u.progressTime <= u.roundStart < u.time
    ensures Spent(t, n + 1)
  {
    if n > 0 {
      PutOffAdvances(u, t);
    }
  }

  lemma PutOffWaits(u: NodeState, n: nat)
    requires Waiting(u, n) && CountsStored(u) && Defers(u) && u.config.timeout(0) > 0
    ensures Waiting(DeferRoundZero(u).0, n + 1)
  {
    var t := DeferRoundZero(u).0;
    DeferringPutsOff(u);
    assert u.time >= u.roundStart + u.config.timeout(0);
    PutOffIsPatient(u, t);
    PutOffSpent(u, t, n);
  }

  lemma DeferringStep(u: NodeState)
    requires Defers(u)
    ensures NextSubStep(u) == Outcome(DeferRoundZero(u).0, None)
  {
  }

  lemma DeliveringMoves(u: NodeState, o: Outcome, bypass: bool)
    requires Moved(u, o.state)
    ensures Moved(u, Delivered(o, bypass))
  {
    PushAllMoved(u, o.state, Sent(o));
  }

  lemma DeliveryStays(u: NodeState, o: Outcome, bypass: bool)
    ensures Stays(u, Delivered(o, bypass)) ==> Stays(u, o.state)
  {
    PushAllFrame(o.state, Sent(o));
  }

  /** The tick's step, from the state it is taken in. */
  lemma TickSteps(s: NodeState, i: Input)
    ensures DriverTick(s, i) == Delivered(NextSubStep(Woken(s, i)), i.bypass)
  {
    assert Woken(s, i).(time := i.time) == Woken(s, i);
  }

  /** A tick that puts the round change off counts, and one that stays keeps the count. */
  lemma TickWaits(s: NodeState, i: Input, n: nat)
    requires Waiting(s, n) && Proper(s, i) && s.config.timeout(0) > 0
    ensures Defers(Woken(s, i)) ==> Waiting(DriverTick(s, i), n + 1)
    ensures !Defers(Woken(s, i)) && Stays(s, DriverTick(s, i)) ==> Waiting(DriverTick(s, i), n)
    ensures DriverTick(s, i).config == s.config || !Stays(s, DriverTick(s, i))
  {
    var u := Woken(s, i);
    WokenWaits(s, i, n);
    TickSteps(s, i);
    StepWaits(u, n, i.bypass);
  }

  lemma StepWaits(u: NodeState, n: nat, bypass: bool)
    requires Waiting(u, n) && CountsStored(u) && u.config.timeout(0) > 0
    ensures var s' := Delivered(NextSubStep(u), bypass);
            && (Defers(u) ==> Waiting(s', n + 1) && s'.config == u.config)
            && (!Defers(u) && Stays(u, s') ==> Waiting(s', n) && s'.config == u.config)
  {
    if Defers(u) {
      PutOffWaits(u, n);
      DeferringStep(u);
      DeferringPutsOff(u);
    } else {
      DeliveryStays(u, NextSubStep(u), bypass);
      if Stays(u, NextSubStep(u).state) {
        StepMoves(u);
        DeliveringMoves(u, NextSubStep(u), bypass);
        MovedWaits(u, Delivered(NextSubStep(u), bypass), n);
      }
    }
  }

  // ---- The start of a height ------------------------------------------------------

  lemma AdvancingIsFresh(u: NodeState, block: Block)
    requires Sorted(u.messages)
    ensures Fresh(AdvanceTo(u, block))
  {
  }

  lemma PushIsFresh(s: NodeState, m: Message)
    requires Fresh(s)
    ensures Fresh(s.Push(m))
  {
    InsertKeepsSorted(s.messages, m);
  }

  lemma PruningIsFresh(s: NodeState)
    requires Fresh(s)
    ensures Fresh(s.PruneMessages())
  {
    SortedSlice(s.messages, BelowHeight(s.messages, s.Height()), |s.messages|);
  }

  lemma {:induction false} PushAllIsFresh(s: NodeState, ms: seq<Message>)
    requires Fresh(s)
    ensures Fresh(PushAll(s, ms))
    decreases |ms|
  {
    if ms != [] {
      PushIsFresh(s, ms[0]);
      PushAllIsFresh(s.Push(ms[0]), ms[1..]);
    }
  }

  lemma AdoptingIsFresh(u: NodeState)
    requires Sorted(u.messages)
    ensures UponNewBlock(u).sent.Some? ==> Fresh(UponNewBlock(u).state)
  {
    match LastValidNewBlock(u.messages, u.chain)
    case None =>
    case Some(nb) =>
      AdvancingIsFresh(u, nb.block);
      PruningIsFresh(AdvanceTo(u, nb.block));
  }

  lemma FinalisingIsFresh(u: NodeState)
    requires Sorted(u.messages) && UponCommit(u).sent.Some?
    ensures Fresh(UponCommit(u).state)
  {
    var block := u.accepted.value.block;
    var sealed := SealedBlock(block, CommitsFor(u.Height(), u.round, Digest(block), u.Visible()));
    AdvancingIsFresh(u, sealed);
    PushIsFresh(AdvanceTo(u, sealed), NewBlockMessage(SignNewBlock(sealed, u.id)));
  }

  lemma OthersKeepHead(u: NodeState)
    ensures UponBlockTimeout(u).state.chain.head == u.chain.head
    ensures UponProposal(u).state.chain.head == u.chain.head
    ensures UponPrepare(u).state.chain.head == u.chain.head
    ensures UponRoundChange(u).state.chain.head == u.chain.head
  {
  }

  lemma TimerKeepsHead(u: NodeState)
    ensures UponRoundTimeout(u).state.chain.head == u.chain.head
  {
    DeferTouchesTimersOnly(u);
  }

  lemma NewHeadIsFresh(u: NodeState)
    requires Sorted(u.messages)
    ensures var s' := NextSubStep(u).state; s'.chain.head != u.chain.head ==> Fresh(s')
  {
    AdoptingIsFresh(u);
    OthersKeepHead(u);
    TimerKeepsHead(u);
    if UponCommit(u).sent.Some? {
      FinalisingIsFresh(u);
    }
  }

  lemma TickToNewHead(s: NodeState, i: Input)
    requires Sorted(s.messages) && DriverTick(s, i).chain.head != s.chain.head
    ensures Fresh(DriverTick(s, i))
  {
    var u := Woken(s, i);
    WokenStore(s, i);
    WokenIsSame(s, i);
    TickSteps(s, i);
    PushAllFrame(NextSubStep(u).state, Sent(NextSubStep(u)));
    NewHeadIsFresh(u);
    PushAllIsFresh(NextSubStep(u).state, Sent(NextSubStep(u)));
  }

  lemma TickKeepsSorted(s: NodeState, i: Input)
    requires Sorted(s.messages)
    ensures Sorted(DriverTick(s, i).messages)
  {
    var u := Woken(s, i);
    WokenStore(s, i);
    TickSteps(s, i);
    var e := SubStepEffect(u);
    PushAllFrame(NextSubStep(u).state, Sent(NextSubStep(u)));
  }

  // ---- Over a history -------------------------------------------------------------

  lemma {:induction false} StoresSorted(ss: seq<NodeState>, ins: seq<Input>, k: nat)
    requires History(ss, ins) && k < |ss|
    ensures Sorted(ss[k].messages)
  {
    if k > 0 {
      StoresSorted(ss, ins, k - 1);
      NextSorted(ss, ins, k - 1);
    }
  }

  lemma NextSorted(ss: seq<NodeState>, ins: seq<Input>, k: nat)
    requires History(ss, ins) && k < |ins| && Sorted(ss[k].messages)
    ensures Sorted(ss[k + 1].messages)
  {
    HistoryTick(ss, ins, k);
    TickKeepsSorted(ss[k], ins[k]);
  }

  lemma FreshWaits(s: NodeState)
    requires Fresh(s)
    ensures Waiting(s, 0)
  {
  }

  lemma StartWaits(ss: seq<NodeState>, ins: seq<Input>)
    requires History(ss, ins)
    ensures Waiting(ss[0], 0)
  {
    var id, config, genesis, time :| ss[0] == InitialState(id, config, Chain([], genesis, None), time);
    StartIsFresh(id, config, genesis, time);
    FreshWaits(ss[0]);
  }

  lemma NewHeadWaits(ss: seq<NodeState>, ins: seq<Input>, k: nat)
    requires History(ss, ins) && k < |ins| && Sorted(ss[k].messages)
    requires ss[k].chain.head != ss[k + 1].chain.head
    ensures Waiting(ss[k + 1], 0)
  {
    HistoryTick(ss, ins, k);
    NewHeadTickWaits(ss[k], ins[k], ss[k + 1]);
  }

  lemma NewHeadTickWaits(s: NodeState, i: Input, s': NodeState)
    requires Sorted(s.messages) && s' == DriverTick(s, i) && s'.chain.head != s.chain.head
    ensures Waiting(s', 0)
  {
    TickToNewHead(s, i);
    FreshWaits(s');
  }

  lemma HeadsComeFresh(ss: seq<NodeState>, ins: seq<Input>, from: nat)
    requires History(ss, ins) && from < |ss|
    requires from == 0 || ss[from - 1].chain.head != ss[from].chain.head
    ensures Waiting(ss[from], 0)
  {
    if from == 0 {
      StartWaits(ss, ins);
    } else {
      StoresSorted(ss, ins, from - 1);
      NewHeadWaits(ss, ins, from - 1);
    }
  }

  /** What each tick adds to, adds up. */
  lemma {:induction false} CountAdds(marks: seq<bool>, waits: (nat, nat) -> bool, from: nat, k: nat)
    requires from <= k <= |marks| && waits(from, 0)
    requires forall j: nat, n: nat :: from <= j < k && waits(j, n) ==> waits(j + 1, if marks[j] then n + 1 else n)
    ensures waits(k, Count(marks, from, k))
    decreases k
  {
    if k > from {
      CountAdds(marks, waits, from, k - 1);
      assert waits(k - 1, Count(marks, from, k - 1));
      assert waits(k - 1 + 1, if marks[k - 1] then Count(marks, from, k - 1) + 1 else Count(marks, from, k - 1));
    }
  }

  /** Waiting, with a configuration. */
  ghost predicate WaitingWith(s: NodeState, n: nat, config: Config) {
    Waiting(s, n) && s.config == config
  }

  lemma TickAdds(ss: seq<NodeState>, ins: seq<Input>, k: nat, n: nat, config: Config, mark: bool)
    requires k < |ins| && k + 1 < |ss| && TickAt(ss, ins, k) && config.timeout(0) > 0
    requires WaitingWith(ss[k], n, config) && mark == Defers(Woken(ss[k], ins[k]))
    requires mark || Stays(ss[k], ss[k + 1])
    ensures WaitingWith(ss[k + 1], if mark then n + 1 else n, config)
  {
    TickWaits(ss[k], ins[k], n);
    if mark {
      DeferringTickStays(ss[k], ins[k], n);
    }
  }

  lemma HistoryTick(ss: seq<NodeState>, ins: seq<Input>, k: nat)
    requires History(ss, ins) && k < |ins|
    ensures TickAt(ss, ins, k)
  {
  }

  ghost predicate MarkAt(marks: seq<bool>, p: NodeState -> bool, ss: seq<NodeState>, ins: seq<Input>, k: nat)
    requires k < |ins| == |marks| && |ins| < |ss|
  {
    marks[k] == p(Woken(ss[k], ins[k]))
  }

  /** The marks, one by one. */
  ghost predicate Marked(marks: seq<bool>, p: NodeState -> bool, ss: seq<NodeState>, ins: seq<Input>) {
    && |marks| == |ins| < |ss|
    && forall k :: 0 <= k < |ins| ==> MarkAt(marks, p, ss, ins, k)
  }

  lemma MarksAreMarked(p: NodeState -> bool, ss: seq<NodeState>, ins: seq<Input>)
    requires |ins| < |ss|
    ensures Marked(Marks(p, ss, ins), p, ss, ins)
  {
  }

  lemma MarkedTickAdds(
    ss: seq<NodeState>, ins: seq<Input>, from: nat, to: nat, k: nat, n: nat, config: Config, marks: seq<bool>)
    requires History(ss, ins) && OnOneHead(ss, from, to) && from <= k < to - 1 && config.timeout(0) > 0
    requires WaitingWith(ss[k], n, config) && Marked(marks, Defers, ss, ins)
    ensures WaitingWith(ss[k + 1], if marks[k] then n + 1 else n, config)
  {
    HistoryTick(ss, ins, k);
    assert MarkAt(marks, Defers, ss, ins, k);
    assert Stays(ss[k], ss[k + 1]);
    TickAdds(ss, ins, k, n, config, marks[k]);
  }

  lemma StartsWaiting(ss: seq<NodeState>, ins: seq<Input>, from: nat, config: Config)
    requires History(ss, ins) && from < |ss| && config == ss[from].config
    requires from == 0 || ss[from - 1].chain.head != ss[from].chain.head
    ensures WaitingWith(ss[from], 0, config)
  {
    HeadsComeFresh(ss, ins, from);
  }

  lemma WaitsThrough(
    ss: seq<NodeState>, ins: seq<Input>, from: nat, to: nat, marks: seq<bool>, config: Config,
    waits: (nat, nat) -> bool)
    requires History(ss, ins) && OnOneHead(ss, from, to) && config == ss[from].config && config.timeout(0) > 0
    requires Marked(marks, Defers, ss, ins)
    requires forall k: nat, n: nat :: waits(k, n) <==> k < |ss| && WaitingWith(ss[k], n, config)
    ensures waits(to - 1, Count(marks, from, to - 1))
  {
    StartsWaiting(ss, ins, from, config);
    assert waits(from, 0);
    forall j: nat, n: nat | from <= j < to - 1 && waits(j, n) ensures waits(j + 1, if marks[j] then n + 1 else n) {
      MarkedTickAdds(ss, ins, from, to, j, n, config, marks);
    }
    CountAdds(marks, waits, from, to - 1);
  }

  lemma MarkedIsBounded(ss: seq<NodeState>, ins: seq<Input>, from: nat, to: nat, marks: seq<bool>, config: Config)
    requires History(ss, ins) && OnOneHead(ss, from, to) && config == ss[from].config && config.timeout(0) > 0
    requires Marked(marks, Defers, ss, ins)
    ensures Count(marks, from, to) <= Limit(ss[from], config)
  {
    StillWaiting(ss, ins, from, to, marks, config);
    LastTickBounded(ss, ins, to - 1, Count(marks, from, to - 1), config, marks);
    SameHeadSameLimit(ss[to - 1], ss[from], config);
  }

  lemma StillWaiting(ss: seq<NodeState>, ins: seq<Input>, from: nat, to: nat, marks: seq<bool>, config: Config)
    requires History(ss, ins) && OnOneHead(ss, from, to) && config == ss[from].config && config.timeout(0) > 0
    requires Marked(marks, Defers, ss, ins)
    ensures WaitingWith(ss[to - 1], Count(marks, from, to - 1), config)
  {
    WaitsThrough(ss, ins, from, to, marks, config, (k: nat, n: nat) => k < |ss| && WaitingWith(ss[k], n, config));
  }

  lemma SameHeadSameLimit(s: NodeState, t: NodeState, config: Config)
    requires s.chain.head == t.chain.head
    ensures Limit(s, config) == Limit(t, config)
  {
  }

  /** The most deferrals on one head. */
  function Limit(s: NodeState, config: Config): (n: nat) {
    (2 * |s.Validators()| + 1) * Grace(config)
  }

  lemma WaitingIsBounded(s: NodeState, n: nat, config: Config)
    requires WaitingWith(s, n, config)
    ensures n <= Limit(s, config)
  {
    SendersAreBounded(s);
    SpentIsLimited(s, n);
  }

  lemma SpentIsLimited(s: NodeState, n: nat)
    requires Spent(s, n) && Senders(s) <= 2 * |s.Validators()|
    ensures n <= Limit(s, s.config)
  {
    SpentIsBounded(s, n, 2 * |s.Validators()|);
  }

  lemma SpentIsBounded(s: NodeState, n: nat, most: nat)
    requires Spent(s, n) && Senders(s) <= most
    ensures n <= (most + 1) * Grace(s.config)
  {
    if n > 0 {
      WaitedIsBounded(Senders(s), Idle(s), Grace(s.config), most);
    } else {
      assert (most + 1) * Grace(s.config) >= 0;
    }
  }

  /** With a positive round timeout, a node puts the change to round 1 off at most
      `(2n + 1) * grace` times on one head, `n` being the number of validators: whatever
      arrives and whenever it is woken. */
  lemma DeferralIsBounded(ss: seq<NodeState>, ins: seq<Input>, from: nat, to: nat)
    requires History(ss, ins) && OnOneHead(ss, from, to) && ss[from].config.timeout(0) > 0
    ensures Count(Marks(Defers, ss, ins), from, to) <= Limit(ss[from], ss[from].config)
  {
    MarksAreMarked(Defers, ss, ins);
    MarkedIsBounded(ss, ins, from, to, Marks(Defers, ss, ins), ss[from].config);
  }

  lemma LastTickBounded(ss: seq<NodeState>, ins: seq<Input>, k: nat, n: nat, config: Config, marks: seq<bool>)
    requires History(ss, ins) && k < |ins| && config.timeout(0) > 0
    requires WaitingWith(ss[k], n, config) && Marked(marks, Defers, ss, ins)
    ensures (if marks[k] then n + 1 else n) <= Limit(ss[k], config)
  {
    if marks[k] {
      LastDeferral(ss, ins, k, n, config, marks);
      WaitingIsBounded(ss[k + 1], n + 1, config);
      SameHeadSameLimit(ss[k], ss[k + 1], config);
    } else {
      WaitingIsBounded(ss[k], n, config);
    }
  }

  lemma LastDeferral(ss: seq<NodeState>, ins: seq<Input>, k: nat, n: nat, config: Config, marks: seq<bool>)
    requires History(ss, ins) && k < |ins| && config.timeout(0) > 0
    requires WaitingWith(ss[k], n, config) && Marked(marks, Defers, ss, ins) && marks[k]
    ensures WaitingWith(ss[k + 1], n + 1, config) && ss[k + 1].chain.head == ss[k].chain.head
  {
    HistoryTick(ss, ins, k);
    assert MarkAt(marks, Defers, ss, ins, k);
    TickAdds(ss, ins, k, n, config, true);
    DeferringTickStays(ss[k], ins[k], n);
  }

  lemma DeferringTickStays(s: NodeState, i: Input, n: nat)
    requires Waiting(s, n) && Proper(s, i) && Defers(Woken(s, i))
    ensures Stays(s, DriverTick(s, i)) && DriverTick(s, i).config == s.config
  {
    var u := Woken(s, i);
    WokenWaits(s, i, n);
    TickSteps(s, i);
    DeferringStep(u);
    DeferringPutsOff(u);
  }

  // ---- The wait ends --------------------------------------------------------------

  lemma TimerMovesOn(u: NodeState)
    requires Expires(u) && !Defers(u)
    ensures NextSubStep(u) == FireTimeout(DeferRoundZero(u).0)
  {
  }

  lemma ExpiryMovesOn(s: NodeState, i: Input)
    requires Expires(Woken(s, i)) && !Defers(Woken(s, i))
    ensures DriverTick(s, i).round == 1 && DriverTick(s, i).chain.head == s.chain.head
  {
    var u := Woken(s, i);
    WokenIsSame(s, i);
    TickSteps(s, i);
    TimerMovesOn(u);
    DeferTouchesTimersOnly(u);
    PushAllFrame(NextSubStep(u).state, Sent(NextSubStep(u)));
  }

  lemma ExpiryPutOffUnlessMoved(s: NodeState, i: Input)
    ensures DriverTick(s, i).round == 0 ==> (Expires(Woken(s, i)) <==> Defers(Woken(s, i)))
  {
    if Expires(Woken(s, i)) && !Defers(Woken(s, i)) {
      ExpiryMovesOn(s, i);
    }
  }

  /** Expiries before the last tick were all put off, or the node would not be in round 0. */
  lemma EarlierExpiriesPutOff(
    ss: seq<NodeState>, ins: seq<Input>, from: nat, to: nat, k: nat, expires: seq<bool>, defers: seq<bool>)
    requires History(ss, ins) && OnOneHead(ss, from, to) && from <= k < to - 1
    requires Marked(expires, Expires, ss, ins) && Marked(defers, Defers, ss, ins)
    ensures expires[k] == defers[k]
  {
    HistoryTick(ss, ins, k);
    assert MarkAt(expires, Expires, ss, ins, k) && MarkAt(defers, Defers, ss, ins, k);
    assert ss[k + 1].round == 0;
    ExpiryPutOffUnlessMoved(ss[k], ins[k]);
  }

  lemma {:induction false} SameCount(a: seq<bool>, b: seq<bool>, from: nat, k: nat)
    requires |a| == |b| && k <= |a| && forall j :: from <= j < k ==> a[j] == b[j]
    ensures Count(a, from, k) == Count(b, from, k)
  {
    if k > from {
      SameCount(a, b, from, k - 1);
    }
  }

  lemma LastExpiry(expires: seq<bool>, defers: seq<bool>, from: nat, to: nat)
    requires |expires| == |defers| && from < to <= |expires|
    requires forall j :: from <= j < to - 1 ==> expires[j] == defers[j]
    requires Count(expires, from, to) > Count(defers, from, to)
    ensures expires[to - 1] && !defers[to - 1]
  {
    SameCount(expires, defers, from, to - 1);
  }

  /** After more expiries of the timer than that bound, the node is in round 1. */
  lemma WaitingEnds(ss: seq<NodeState>, ins: seq<Input>, from: nat, to: nat)
    requires History(ss, ins) && OnOneHead(ss, from, to) && ss[from].config.timeout(0) > 0
    requires Count(Marks(Expires, ss, ins), from, to) > Limit(ss[from], ss[from].config)
    ensures ss[to].round == 1 && ss[to].chain.head == ss[from].chain.head
  {
    MarksAreMarked(Expires, ss, ins);
    MarksAreMarked(Defers, ss, ins);
    DeferralIsBounded(ss, ins, from, to);
    LastNotPutOff(ss, ins, from, to, Marks(Expires, ss, ins), Marks(Defers, ss, ins));
    LastMovesOn(ss, ins, from, to, Marks(Expires, ss, ins), Marks(Defers, ss, ins));
  }

  lemma LastMovesOn(
    ss: seq<NodeState>, ins: seq<Input>, from: nat, to: nat, expires: seq<bool>, defers: seq<bool>)
    requires History(ss, ins) && OnOneHead(ss, from, to)
    requires Marked(expires, Expires, ss, ins) && Marked(defers, Defers, ss, ins)
    requires expires[to - 1] && !defers[to - 1]
    ensures ss[to].round == 1 && ss[to].chain.head == ss[from].chain.head
  {
    LastOnHead(ss, from, to);
    MarkedMovesOn(ss, ins, to - 1, expires, defers);
  }

  lemma LastOnHead(ss: seq<NodeState>, from: nat, to: nat)
    requires OnOneHead(ss, from, to)
    ensures ss[to - 1].chain.head == ss[from].chain.head && ss[to - 1].round == 0
  {
  }

  lemma LastNotPutOff(
    ss: seq<NodeState>, ins: seq<Input>, from: nat, to: nat, expires: seq<bool>, defers: seq<bool>)
    requires History(ss, ins) && OnOneHead(ss, from, to)
    requires Marked(expires, Expires, ss, ins) && Marked(defers, Defers, ss, ins)
    requires Count(expires, from, to) > Count(defers, from, to)
    ensures expires[to - 1] && !defers[to - 1]
  {
    forall k | from <= k < to - 1 ensures expires[k] == defers[k] {
      EarlierExpiriesPutOff(ss, ins, from, to, k, expires, defers);
    }
    LastExpiry(expires, defers, from, to);
  }

  lemma MarkedMovesOn(ss: seq<NodeState>, ins: seq<Input>, k: nat, expires: seq<bool>, defers: seq<bool>)
    requires History(ss, ins) && k < |ins|
    requires Marked(expires, Expires, ss, ins) && Marked(defers, Defers, ss, ins) && expires[k] && !defers[k]
    ensures ss[k + 1].round == 1 && ss[k + 1].chain.head == ss[k].chain.head
  {
    assert MarkAt(expires, Expires, ss, ins, k) && MarkAt(defers, Defers, ss, ins, k);
    HistoryTick(ss, ins, k);
    ExpiryMovesOn(ss[k], ins[k]);
  }
}
