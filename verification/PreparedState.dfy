/** What a node remembers as prepared stays provable from the messages it looks at, so
    every round change it sends is well formed and carries its certificate. */
module PreparedState {
  import opened Prelude
  import opened Types
  import opened Validators
  import opened Justification
  import opened Store
  import opened Protocol
  import opened Swarm
  import opened Effects
  import opened Invariant
  import opened Preservation

  /** The prepares of `ms` that are valid for a height, round, digest and validator set. */
  function ValidPreparesIn(ms: seq<Message>, h: nat, r: nat, d: Hash, validators: seq<Address>): (n: nat) {
    if ms == [] then 0
    else
      ValidPreparesIn(ms[1..], h, r, d, validators) +
      (if ms[0].PrepareMessage? && ValidSignedPrepare(ms[0].prepare, h, r, d, validators) then 1 else 0)
  }

  /** The consistency check on a node's state, without the conjunct about the proposer of
      the previous block. */
  predicate ValidNodeState(s: NodeState) {
    && (s.preparedRound.None? <==> s.preparedBlock.None?)
    && (s.preparedRound.Some? && s.preparedBlock.Some? ==>
          ValidPreparesIn(s.AtRound(s.preparedRound.value), s.Height(), s.preparedRound.value,
                          Digest(s.preparedBlock.value), s.Validators()) >= s.QuorumSize())
    && |s.Validators()| > 0
  }

  // ---- The part of the store in view ----------------------------------------------

  /** The messages in view are all of the current height, or all of earlier ones. */
  ghost predicate OneHeight(s: NodeState) {
    || (forall m :: m in s.Visible() ==> m.Height() == s.Height())
    || (forall m :: m in s.Visible() ==> m.Height() < s.Height())
  }

  ghost predicate PrepareQuorumInView(s: NodeState, r: nat, d: Hash) {
    |PreparesFor(s.Height(), r, d, s.Visible())| >= s.QuorumSize()
  }

  ghost predicate ViewOk(s: NodeState) {
    && s.firstFuture <= |s.messages|
    && OneHeight(s)
    && (s.preparedRound.Some? && s.preparedBlock.Some? ==>
          PrepareQuorumInView(s, s.preparedRound.value, Digest(s.preparedBlock.value)))
  }

  /** All keys are below that of `m`. */
  ghost predicate AllBelow(ms: seq<Message>, m: Message) {
    forall y :: y in ms ==> y.SortKey().Less(m.SortKey())
  }

  /** Pushing a message can only push messages with a larger key out of view. */
  lemma PushView(ms: seq<Message>, n: nat, m: Message)
    requires Sorted(ms) && n <= |ms|
    ensures n <= |Insert(ms, m)|
    ensures forall x :: x in Insert(ms, m)[..n] ==> x in ms[..n] || (x == m && !AllBelow(ms[..n], m))
    ensures forall x :: x in ms[..n] && x.SortKey().Less(m.SortKey()) ==> x in Insert(ms, m)[..n]
  {
    if !HasKey(ms, m.SortKey()) {
      var i := LowerBound(ms, m.SortKey());
      var r := Insert(ms, m);
      assert r == ms[..i] + [m] + ms[i..];
      forall x | x in ms[..n] && x.SortKey().Less(m.SortKey()) ensures x in r[..n] {
        var j :| 0 <= j < n && ms[j] == x;
        assert j < i;
        assert r[j] == x;
        assert r[..n][j] == x;
      }
      forall x | x in r[..n] ensures x in ms[..n] || (x == m && !AllBelow(ms[..n], m)) {
        var j :| 0 <= j < n && r[j] == x;
        if j < i {
          assert ms[..n][j] == x;
        } else if j == i {
          assert ms[i] in ms[..n];
        } else {
          assert ms[..n][j - 1] == x;
        }
      }
    }
  }

  /** More prepares in a sorted list, larger count. */
  lemma PreparesCount(h: nat, r: nat, d: Hash, ms: seq<Message>, ms': seq<Message>)
    requires Sorted(ms) && Sorted(ms')
    requires forall p :: p in PreparesFor(h, r, d, ms) ==> p in PreparesFor(h, r, d, ms')
    ensures |PreparesFor(h, r, d, ms)| <= |PreparesFor(h, r, d, ms')|
  {
    PreparesHaveDistinctSenders(h, r, d, ms);
    PreparesHaveDistinctSenders(h, r, d, ms');
    SubsetCardinality(PrepareSenders(PreparesFor(h, r, d, ms)), PrepareSenders(PreparesFor(h, r, d, ms')));
  }

  lemma QuorumStaysInView(s: NodeState, s': NodeState, r: nat, d: Hash)
    requires Sorted(s.messages) && Sorted(s'.messages)
    requires s'.Height() == s.Height() && s'.Validators() == s.Validators()
    requires PrepareQuorumInView(s, r, d)
    requires forall p :: PrepareMessage(p) in s.Visible() && p.unsigned == UnsignedPrepare(s.Height(), r, d)
                         ==> PrepareMessage(p) in s'.Visible()
    ensures PrepareQuorumInView(s', r, d)
  {
    SortedSlice(s.messages, 0, |s.Visible()|);
    SortedSlice(s'.messages, 0, |s'.Visible()|);
    PreparesCount(s.Height(), r, d, s.Visible(), s'.Visible());
  }

  /** A push keeps the view when its key is above every prepare of the prepared round. */
  lemma PushKeepsView(s: NodeState, m: Message)
    requires ViewOk(s) && Sorted(s.messages)
    requires || m.Height() == s.Height()
             || (m.Height() < s.Height() && forall x :: x in s.Visible() ==> x.Height() < s.Height())
    requires s.preparedRound.Some? && s.preparedBlock.Some? ==>
               m.Height() == s.Height()
               && (m.Round() > s.preparedRound.value || (m.Round() == s.preparedRound.value && m.Kind() > 1))
    ensures ViewOk(s.Push(m))
  {
    var s' := s.Push(m);
    PushKeepsOneHeight(s, m);
    InsertKeepsSorted(s.messages, m);
    if s.preparedRound.Some? && s.preparedBlock.Some? {
      var d := Digest(s.preparedBlock.value);
      PreparesStayInView(s, m, d);
      QuorumStaysInView(s, s', s.preparedRound.value, d);
    }
  }

  lemma PushKeepsOneHeight(s: NodeState, m: Message)
    requires s.firstFuture <= |s.messages| && OneHeight(s) && Sorted(s.messages)
    requires || m.Height() == s.Height()
             || (m.Height() < s.Height() && forall x :: x in s.Visible() ==> x.Height() < s.Height())
    ensures s.firstFuture <= |s.Push(m).messages| && OneHeight(s.Push(m))
  {
    PushView(s.messages, s.firstFuture, m);
  }

  lemma PreparesStayInView(s: NodeState, m: Message, d: Hash)
    requires Sorted(s.messages) && s.firstFuture <= |s.messages| && s.preparedRound.Some?
    requires m.Height() == s.Height()
    requires m.Round() > s.preparedRound.value || (m.Round() == s.preparedRound.value && m.Kind() > 1)
    ensures forall p :: PrepareMessage(p) in s.Visible()
                        && p.unsigned == UnsignedPrepare(s.Height(), s.preparedRound.value, d)
                        ==> PrepareMessage(p) in s.Push(m).Visible()
  {
    PushView(s.messages, s.firstFuture, m);
    forall p | PrepareMessage(p) in s.Visible() && p.unsigned == UnsignedPrepare(s.Height(), s.preparedRound.value, d)
      ensures PrepareMessage(p) in s.Push(m).Visible()
    {
      assert PrepareMessage(p).SortKey().Less(m.SortKey());
    }
  }

  lemma PushAgainIsNothing(s: NodeState, m: Message)
    requires HasKey(s.messages, m.SortKey())
    ensures s.Push(m) == s
  {
  }

  /** After pruning, exactly the messages of the current height are in view. */
  lemma PruneView(s: NodeState)
    requires Sorted(s.messages)
    ensures var s' := s.PruneMessages();
            && s'.firstFuture <= |s'.messages|
            && (forall m :: m in s'.Visible() ==> m.Height() == s.Height())
            && (forall m :: m in s.messages && m.Height() == s.Height() ==> m in s'.Visible())
  {
    PrunedPrefix(s.messages, s.Height());
  }

  // ---- Steps keep the view --------------------------------------------------------

  /** Anything the node sends after preparing sorts after the prepares it relies on. */
  lemma OutputSortsAfterPrepared(
    c: Committee, signed: set<Signature>, accs: set<Acceptance>, s: NodeState, s': NodeState, e: Event, m: Message)
    requires NodeOk(c, signed, accs, s)
    requires Enabled(s, e) && Lands(s, s', e) && m in Output(s, e)
    requires !e.Finalises?
    ensures m.Height() == s.Height() == s'.Height()
    ensures s'.preparedRound.Some? ==>
              m.Round() > s'.preparedRound.value || (m.Round() == s'.preparedRound.value && m.Kind() > 1)
  {
    if e.Joins? {
      JoinedRoundIsLater(s, e.roundChanges);
    }
  }

  /** The state between the change of variables and the push. */
  function Between(s: NodeState, s': NodeState): (t: NodeState) {
    s'.(messages := s.messages, firstFuture := s.firstFuture)
  }

  lemma VariablesKeepView(
    c: Committee, signed: set<Signature>, accs: set<Acceptance>, s: NodeState, s': NodeState, e: Event)
    requires NodeOk(c, signed, accs, s) && ViewOk(s)
    requires Enabled(s, e) && Lands(s, s', e) && !e.Adopts?
    requires s'.Validators() == s.Validators()
    ensures ViewOk(Between(s, s'))
    ensures e.Finalises? ==> forall m :: m in s.Visible() ==> m.Height() < s'.Height()
  {
    if e.Finalises? {
      FinalisingKeepsView(c, signed, accs, s, s', e);
    } else {
      WaitingKeepsView(c, signed, accs, s, s', e);
    }
  }

  lemma FinalisingKeepsView(
    c: Committee, signed: set<Signature>, accs: set<Acceptance>, s: NodeState, s': NodeState, e: Event)
    requires NodeOk(c, signed, accs, s) && ViewOk(s)
    requires e.Finalises? && Enabled(s, e) && Lands(s, s', e)
    ensures ViewOk(Between(s, s'))
    ensures forall m :: m in s.Visible() ==> m.Height() < s'.Height()
  {
    assert Between(s, s').Visible() == s.Visible();
  }

  /** Equal store, view and head. */
  ghost predicate SameView(s: NodeState, t: NodeState) {
    t.messages == s.messages && t.firstFuture == s.firstFuture && t.chain.head == s.chain.head
  }

  lemma SamePreparedKeepsView(s: NodeState, t: NodeState)
    requires ViewOk(s) && SameView(s, t) && t.preparedRound == s.preparedRound && t.preparedBlock == s.preparedBlock
    ensures ViewOk(t)
  {
    assert t.Visible() == s.Visible();
  }

  lemma VotingKeepsView(s: NodeState, t: NodeState, block: Block)
    requires ViewOk(s) && SameView(s, t) && t.preparedRound == Some(s.round) && t.preparedBlock == Some(block)
    requires PrepareQuorumInView(s, s.round, Digest(block))
    ensures ViewOk(t)
  {
    assert t.Visible() == s.Visible();
  }

  lemma WaitingKeepsView(
    c: Committee, signed: set<Signature>, accs: set<Acceptance>, s: NodeState, s': NodeState, e: Event)
    requires NodeOk(c, signed, accs, s) && ViewOk(s)
    requires !e.Finalises? && Enabled(s, e) && Lands(s, s', e) && !e.Adopts?
    ensures ViewOk(Between(s, s'))
  {
    if e.Votes? {
      VotingKeepsView(s, Between(s, s'), e.block);
    } else {
      SamePreparedKeepsView(s, Between(s, s'));
    }
  }

  lemma StepKeepsView(
    c: Committee, signed: set<Signature>, accs: set<Acceptance>,
    s: NodeState, s': NodeState, ms: seq<Message>, e: Event, bypass: bool)
    requires NodeOk(c, signed, accs, s) && ViewOk(s)
    requires Effect(s, s', ms, e) && StoreAfter(s, s', ms, e)
    requires s'.Validators() == s.Validators()
    ensures ViewOk(if bypass then PushAll(s', ms) else s')
  {
    if e.Adopts? {
      PruneView(s.(chain := s'.chain));
    } else {
      VariablesKeepView(c, signed, accs, s, s', e);
      if e.Quiet? {
        assert s' == Between(s, s');
      } else if e.Proposes? {
        ProposingKeepsView(c, signed, accs, s, s', ms, e);
      } else {
        SendingKeepsView(c, signed, accs, s, s', ms, e);
      }
    }
  }

  lemma ProposingKeepsView(
    c: Committee, signed: set<Signature>, accs: set<Acceptance>, s: NodeState, s': NodeState,
    ms: seq<Message>, e: Event)
    requires NodeOk(c, signed, accs, s) && ViewOk(Between(s, s'))
    requires e.Proposes? && Effect(s, s', ms, e) && StoreAfter(s, s', ms, e)
    ensures ViewOk(s') && ViewOk(PushAll(s', ms))
  {
    assert s' == Between(s, s');
    OutputSortsAfterPrepared(c, signed, accs, s, s', e, ms[0]);
    OutputSortsAfterPrepared(c, signed, accs, s, s', e, ms[1]);
    PushTwoKeepView(s', ms[0], ms[1]);
    assert ms == [ms[0], ms[1]];
  }

  lemma SendingKeepsView(
    c: Committee, signed: set<Signature>, accs: set<Acceptance>, s: NodeState, s': NodeState,
    ms: seq<Message>, e: Event)
    requires NodeOk(c, signed, accs, s) && ViewOk(Between(s, s'))
    requires !e.Quiet? && !e.Adopts? && !e.Proposes? && Effect(s, s', ms, e) && StoreAfter(s, s', ms, e)
    requires e.Finalises? ==> forall m :: m in s.Visible() ==> m.Height() < s'.Height()
    ensures ViewOk(s') && ViewOk(PushAll(s', ms))
  {
    var t, m := Between(s, s'), ms[0];
    assert s' == t.Push(m);
    if e.Finalises? {
      FinalOutputHeight(c, signed, accs, s, s', e, m);
      assert t.Visible() == s.Visible();
    } else {
      OutputSortsAfterPrepared(c, signed, accs, s, s', e, m);
    }
    PushKeepsView(t, m);
    PushAgainIsNothing(s', m);
    assert PushAll(s', ms) == s' by {
      assert ms[1..] == [];
    }
  }

  lemma FinalOutputHeight(
    c: Committee, signed: set<Signature>, accs: set<Acceptance>, s: NodeState, s': NodeState, e: Event, m: Message)
    requires NodeOk(c, signed, accs, s)
    requires e.Finalises? && Enabled(s, e) && Lands(s, s', e) && m in Output(s, e)
    ensures m.Height() < s'.Height()
  {
  }

  lemma PushTwo(s: NodeState, m: Message, n: Message)
    ensures PushAll(s, [m, n]) == s.Push(m).Push(n)
  {
    assert [m, n][1..] == [n];
    assert [n][1..] == [];
    assert PushAll(s.Push(m), [n]) == PushAll(s.Push(m).Push(n), []);
  }

  lemma PushTwoKeepView(s: NodeState, m: Message, n: Message)
    requires ViewOk(s) && Sorted(s.messages) && s.preparedRound.None?
    requires m.Height() == s.Height() && n.Height() == s.Height()
    ensures ViewOk(PushAll(s, [m, n]))
  {
    PushKeepsView(s, m);
    InsertKeepsSorted(s.messages, m);
    PushKeepsView(s.Push(m), n);
    PushTwo(s, m, n);
  }

  lemma AddMessagesKeepsView(s: NodeState, incoming: seq<Message>, time: nat)
    requires ViewOk(s) && Sorted(s.messages)
    ensures ViewOk(AddMessages(s, incoming, time))
  {
    var received := Receive(s.messages, incoming, s.chain);
    var s1 := s.(time := time, messages := received);
    ReceiveKeepsSorted(s.messages, incoming, s.chain);
    PruneView(s1);
    PruneStoreFrom(s1);
    var s' := AddMessages(s, incoming, time);
    assert s'.Visible() == s1.PruneMessages().Visible();
    if s.preparedRound.Some? && s.preparedBlock.Some? {
      QuorumStaysInView(s, s', s.preparedRound.value, Digest(s.preparedBlock.value));
    }
  }

  // ---- Runs -----------------------------------------------------------------------

  ghost predicate ViewsOk(w: Swarm) {
    forall a :: a in w.nodes ==> ViewOk(w.nodes[a])
  }

  lemma OutcomeKeepsView(
    c: Committee, w: Swarm, w': Swarm, a: Address, s: NodeState, o: Outcome, bypass: bool, fired: bool, e: Event)
    requires NodeOk(c, w.signed, w.acceptances, s) && ViewOk(s) && ViewsOk(w)
    requires Effect(s, o.state, Sent(o), e) && StoreAfter(s, o.state, Sent(o), e)
    requires w' == AfterOutcome(w, a, s, o, bypass, fired) && FixedValidators(c, w')
    ensures ViewsOk(w')
  {
    PushAllFrame(o.state, Sent(o));
    assert w'.nodes[a].Validators() == o.state.Validators();
    StepKeepsView(c, w.signed, w.acceptances, s, o.state, Sent(o), e, bypass);
  }

  lemma TickKeepsViews(c: Committee, w: Swarm, w': Swarm, step: Step)
    requires Inv(c, w) && ViewsOk(w) && FixedValidators(c, w')
    requires step.Tick? && NextStep(c, w, w', step)
    ensures ViewsOk(w')
  {
    var a := step.node;
    var s := w.nodes[a].(time := step.time);
    ActorOk(c, w, a, s);
    TimeKeepsView(w.nodes[a], step.time);
    var e := SubStepEffect(s);
    OutcomeKeepsView(c, w, w', a, s, NextSubStep(s), step.bypass, TimerFires(s), e);
  }

  lemma TimeKeepsView(s: NodeState, time: nat)
    requires ViewOk(s)
    ensures ViewOk(s.(time := time))
  {
    assert s.(time := time).Visible() == s.Visible();
  }

  lemma ProposedKeepsView(s: NodeState, block: Block)
    requires ViewOk(s)
    ensures ViewOk(s.(chain := s.chain.SetProposed(Some(block))))
  {
    assert s.(chain := s.chain.SetProposed(Some(block))).Visible() == s.Visible();
  }

  lemma OtherStepKeepsViews(c: Committee, w: Swarm, w': Swarm, step: Step)
    requires Inv(c, w) && ViewsOk(w)
    requires !step.Tick? && NextStep(c, w, w', step)
    ensures ViewsOk(w')
  {
    match step
    case Inject(_) =>
    case Deliver(a, incoming, time) =>
      assert NodeOk(c, w.signed, w.acceptances, w.nodes[a]);
      AddMessagesKeepsView(w.nodes[a], incoming, time);
      OneNodeKeepsViews(w, w', a);
    case SetProposed(a, block) =>
      ProposedKeepsView(w.nodes[a], block);
      OneNodeKeepsViews(w, w', a);
  }

  lemma OneNodeKeepsViews(w: Swarm, w': Swarm, a: Address)
    requires ViewsOk(w) && a in w'.nodes && w'.nodes == w.nodes[a := w'.nodes[a]] && ViewOk(w'.nodes[a])
    ensures ViewsOk(w')
  {
  }

  lemma {:induction false} ViewsHold(c: Committee, trace: seq<Swarm>, i: nat)
    requires Run(c, trace) && i < |trace|
    ensures ViewsOk(trace[i])
  {
    if i == 0 {
      InitHasViews(c, trace[0]);
    } else {
      ViewsHold(c, trace, i - 1);
      RunKeepsViews(c, trace, i - 1);
    }
  }

  lemma RunKeepsViews(c: Committee, trace: seq<Swarm>, i: nat)
    requires Run(c, trace) && i + 1 < |trace| && ViewsOk(trace[i])
    ensures ViewsOk(trace[i + 1])
  {
    InvHolds(c, trace, i);
    NextKeepsViews(c, trace[i], trace[i + 1]);
  }

  lemma InitHasViews(c: Committee, w: Swarm)
    requires Init(c, w)
    ensures ViewsOk(w)
  {
    forall a | a in w.nodes ensures ViewOk(w.nodes[a]) {
      assert w.nodes[a].Visible() == [];
    }
  }

  lemma NextKeepsViews(c: Committee, w: Swarm, w': Swarm)
    requires Inv(c, w) && ViewsOk(w) && Next(c, w, w')
    ensures ViewsOk(w')
  {
    var step :| NextStep(c, w, w', step);
    if step.Tick? {
      TickKeepsViews(c, w, w', step);
    } else {
      OtherStepKeepsViews(c, w, w', step);
    }
  }

  // ---- Consequences ---------------------------------------------------------------

  /** On messages of one height in order, the slice at a round is exactly that round. */
  lemma AtRoundIsRound(s: NodeState, r: nat, m: Message)
    requires Sorted(s.messages)
    requires forall x :: x in s.Visible() ==> x.Height() == s.Height()
    requires m in s.Visible() && m.Round() == r
    ensures m in s.AtRound(r)
  {
    SortedSlice(s.messages, 0, |s.Visible()|);
    RoundSliceHas(s.Visible(), s.Height(), r, m);
  }

  lemma RoundSliceHas(v: seq<Message>, h: nat, r: nat, m: Message)
    requires Sorted(v) && (forall x :: x in v ==> x.Height() == h) && m in v && m.Round() == r
    ensures BelowRound(v, r) <= BelowRound(v, r + 1) && m in v[BelowRound(v, r)..BelowRound(v, r + 1)]
  {
    var lower, upper := BelowRound(v, r), BelowRound(v, r + 1);
    var j :| 0 <= j < |v| && v[j] == m;
    SortedRoundCut(v, h, r + 1);
    assert lower <= j < upper;
    assert v[lower..upper][j - lower] == m;
  }

  lemma {:induction false} ValidPreparesCount(ms: seq<Message>, h: nat, r: nat, d: Hash, validators: seq<Address>)
    requires forall p :: p in PreparesFor(h, r, d, ms) ==> p.signature.author in validators
    ensures ValidPreparesIn(ms, h, r, d, validators) == |PreparesFor(h, r, d, ms)|
  {
    if ms != [] {
      ValidPreparesCount(ms[1..], h, r, d, validators);
    }
  }

  /** In every run every honest node passes its own consistency check, and what it has
      prepared was prepared in no later round than its own. */
  lemma NodeStatesValid(c: Committee, trace: seq<Swarm>, i: nat, a: Address)
    requires Run(c, trace) && i < |trace| && a in trace[i].nodes
    ensures ValidNodeState(trace[i].nodes[a])
    ensures var s := trace[i].nodes[a]; s.preparedRound.Some? ==> s.preparedRound.value <= s.round
  {
    InvHolds(c, trace, i);
    ViewsHold(c, trace, i);
    var s := trace[i].nodes[a];
    assert NodeOk(c, trace[i].signed, trace[i].acceptances, s);
    assert ViewOk(s);
    if s.preparedRound.Some? {
      PreparedPassesCheck(c, trace[i].signed, trace[i].acceptances, s);
    }
  }

  lemma PreparedPassesCheck(c: Committee, signed: set<Signature>, accs: set<Acceptance>, s: NodeState)
    requires c.Valid() && NodeOk(c, signed, accs, s) && ViewOk(s) && s.preparedRound.Some?
    ensures ValidPreparesIn(s.AtRound(s.preparedRound.value), s.Height(), s.preparedRound.value,
                            Digest(s.preparedBlock.value), s.Validators()) >= s.QuorumSize()
  {
    var h, r, d := s.Height(), s.preparedRound.value, Digest(s.preparedBlock.value);
    var ps := PreparesFor(h, r, d, s.Visible());
    QuorumBounds(|c.validators|);
    assert ps[0] in ps;
    assert PrepareMessage(ps[0]) in s.Visible() && PrepareMessage(ps[0]).Height() == s.Height();
    BelowRoundMonotone(s.Visible(), r);
    SortedSlice(s.messages, 0, |s.Visible()|);
    SortedSlice(s.Visible(), BelowRound(s.Visible(), r), BelowRound(s.Visible(), r + 1));
    forall p | p in ps ensures p in PreparesFor(h, r, d, s.AtRound(r)) {
      AtRoundIsRound(s, r, PrepareMessage(p));
    }
    PreparesCount(h, r, d, s.Visible(), s.AtRound(r));
    PreparesAreByValidators(c, signed, accs, s, r, d);
    ValidPreparesCount(s.AtRound(r), h, r, d, s.Validators());
  }

  lemma PreparesAreByValidators(
    c: Committee, signed: set<Signature>, accs: set<Acceptance>, s: NodeState, r: nat, d: Hash)
    requires c.Valid() && NodeOk(c, signed, accs, s)
    ensures forall p :: p in PreparesFor(s.Height(), r, d, s.AtRound(r)) ==> p.signature.author in s.Validators()
  {
    forall p | p in PreparesFor(s.Height(), r, d, s.AtRound(r)) ensures p.signature.author in s.Validators() {
      assert PrepareMessage(p) in s.messages;
      assert Genuine(c, signed, PrepareMessage(p));
    }
  }

  /** A round change that names a prepared block carries that block and prepares for it
      from a quorum of validators. */
  ghost predicate Certified(c: Committee, rc: RoundChange) {
    var u := rc.payload.unsigned;
    u.preparedRound.Some? ==>
      && u.preparedValue.Some? && rc.block.Some? && Digest(rc.block.value) == u.preparedValue.value
      && |PrepareSenders(rc.prepares)| >= c.QuorumSize()
      && forall p :: p in rc.prepares
           ==> ValidSignedPrepare(p, u.height, u.preparedRound.value, u.preparedValue.value, c.validators)
  }

  /** In every run, every round change an honest node sends is valid for the round it
      names and certified. */
  lemma RoundChangesAreCertified(c: Committee, trace: seq<Swarm>, i: nat, a: Address, time: nat, m: Message)
    requires Run(c, trace) && i < |trace| && a in trace[i].nodes
    requires m in Sent(NodeNext(trace[i].nodes[a], time)) && m.RoundChangeMessage?
    ensures ValidRoundChange(m.roundChange.payload, trace[i].nodes[a].Height(), m.Round(), c.validators)
    ensures m.Round() > trace[i].nodes[a].round
    ensures Certified(c, m.roundChange)
  {
    InvHolds(c, trace, i);
    ViewsHold(c, trace, i);
    var w := trace[i];
    var s := w.nodes[a].(time := time);
    ActorOk(c, w, a, s);
    TimeKeepsView(w.nodes[a], time);
    var e := SubStepEffect(s);
    SentRoundChangeIsCertified(c, w.signed, w.acceptances, s, e, m);
  }

  lemma SentRoundChangeIsCertified(
    c: Committee, signed: set<Signature>, accs: set<Acceptance>, s: NodeState, e: Event, m: Message)
    requires NodeOk(c, signed, accs, s) && ViewOk(s) && s.id in c.honest && c.Valid()
    requires Enabled(s, e) && m in Output(s, e) && m.RoundChangeMessage?
    ensures ValidRoundChange(m.roundChange.payload, s.Height(), m.Round(), c.validators)
    ensures m.Round() > s.round
    ensures Certified(c, m.roundChange)
  {
    SentRoundIsLater(s, e, m);
    CreatedRoundChangeIsCertified(c, signed, accs, s, m.Round());
    CreatedRoundChangeIsValid(c, signed, accs, s, m.Round());
  }

  lemma SentRoundIsLater(s: NodeState, e: Event, m: Message)
    requires Enabled(s, e) && m in Output(s, e) && m.RoundChangeMessage?
    ensures m.roundChange == CreateRoundChange(s, m.Round()) && m.Round() > s.round
  {
    if e.Joins? {
      JoinedRoundIsLater(s, e.roundChanges);
    }
  }

  lemma CreatedRoundChangeIsValid(
    c: Committee, signed: set<Signature>, accs: set<Acceptance>, s: NodeState, round: nat)
    requires NodeOk(c, signed, accs, s) && s.id in c.honest && c.Valid() && round > s.round
    ensures ValidRoundChange(CreateRoundChange(s, round).payload, s.Height(), round, c.validators)
  {
    assert s.id in Elements(c.validators);
  }

  lemma CreatedRoundChangeIsCertified(
    c: Committee, signed: set<Signature>, accs: set<Acceptance>, s: NodeState, round: nat)
    requires NodeOk(c, signed, accs, s) && ViewOk(s)
    ensures Certified(c, CreateRoundChange(s, round))
  {
    if s.preparedRound.Some? {
      var h, r, d := s.Height(), s.preparedRound.value, Digest(s.preparedBlock.value);
      var ps := PreparesFor(h, r, d, s.Visible());
      SortedSlice(s.messages, 0, |s.Visible()|);
      PreparesHaveDistinctSenders(h, r, d, s.Visible());
      forall p | p in ps ensures ValidSignedPrepare(p, h, r, d, c.validators) {
        assert PrepareMessage(p) in s.messages;
        assert Genuine(c, signed, PrepareMessage(p));
      }
    }
  }
}
