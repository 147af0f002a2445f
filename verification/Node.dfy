/** The node as the code runs it: an object whose fields the transitions update in place.
    Every method is proved to do what the transition function of the same name says. */
module Node {
  import opened Prelude
  import opened Types
  import opened Validators
  import opened Justification
  import opened Store
  import Protocol
  import Certificates

  type NodeState = Protocol.NodeState
  type Justified = Protocol.ProposalJustification

  function KeysOf(ms: seq<Message>): (ks: set<Key>)
    ensures forall k :: k in ks <==> HasKey(ms, k)
  {
    set m | m in ms :: m.SortKey()
  }

  lemma InsertKeys(ms: seq<Message>, m: Message)
    ensures KeysOf(Insert(ms, m)) == KeysOf(ms) + {m.SortKey()}
  {
    var r := Insert(ms, m);
    forall k ensures k in KeysOf(r) <==> k in KeysOf(ms) + {m.SortKey()} {
      if k in KeysOf(ms) {
        var x :| x in ms && x.SortKey() == k;
        assert x in r;
      }
      if k in KeysOf(r) {
        var x :| x in r && x.SortKey() == k;
        assert x in ms || x == m;
      }
    }
  }

  /** Dropping a leading message drops exactly its key. */
  lemma DropKey(ms: seq<Message>)
    requires Sorted(ms) && ms != []
    ensures Sorted(ms[1..]) && KeysOf(ms[1..]) == KeysOf(ms) - {ms[0].SortKey()}
  {
    SortedSlice(ms, 1, |ms|);
    forall k ensures k in KeysOf(ms[1..]) <==> k in KeysOf(ms) - {ms[0].SortKey()} {
      if k in KeysOf(ms[1..]) {
        var x :| x in ms[1..] && x.SortKey() == k;
        var i :| 0 <= i < |ms| - 1 && ms[1..][i] == x;
        assert ms[0].SortKey().Less(ms[i + 1].SortKey());
      }
      if k in KeysOf(ms) && k != ms[0].SortKey() {
        var x :| x in ms && x.SortKey() == k;
        assert x in ms[1..];
      }
    }
  }

  /** The inner of the two loops that collect prepares nested in round changes. */
  method WithSelected(prepares: seq<SignedPrepare>, ps: seq<SignedPrepare>, height: nat, round: nat)
    returns (r: seq<SignedPrepare>)
    ensures r == prepares + Protocol.SelectPrepares(ps, height, round)
  {
    r := prepares;
    ghost var chosen := Protocol.SelectPrepares(ps, height, round);
    for j := 0 to |ps|
      invariant r + Protocol.SelectPrepares(ps[j..], height, round) == prepares + chosen
    {
      assert ps[j..][1..] == ps[j + 1..];
      if ps[j].unsigned.height == height && ps[j].unsigned.round == round {
        r := r + [ps[j]];
      }
    }
  }

  method WithExtraPrepares(prepares: seq<SignedPrepare>, rcs: seq<RoundChange>, height: nat, round: nat)
    returns (r: seq<SignedPrepare>)
    ensures r == prepares + Protocol.ExtraPrepares(rcs, height, round)
  {
    r := prepares;
    ghost var all := Protocol.ExtraPrepares(rcs, height, round);
    for i := 0 to |rcs|
      invariant r + Protocol.ExtraPrepares(rcs[i..], height, round) == prepares + all
    {
      assert rcs[i..][1..] == rcs[i + 1..];
      ghost var before, rest := r, Protocol.ExtraPrepares(rcs[i + 1..], height, round);
      r := WithSelected(r, rcs[i].prepares, height, round);
      ghost var chosen := Protocol.SelectPrepares(rcs[i].prepares, height, round);
      assert r + rest == before + (chosen + rest);
    }
  }

  class Node {
    const id: Address
    const config: Protocol.Config
    var chain: Chain
    var round: nat
    var time: nat
    var messages: seq<Message>
    var messageKeys: set<Key>
    var firstFuture: nat
    var accepted: Option<Proposal>
    var preparedBlock: Option<Block>
    var preparedRound: Option<nat>
    var roundStart: nat
    var progressPrepares: nat
    var progressCommits: nat
    var progressTime: nat

    /** The node's state as a value. */
    function View(): NodeState
      reads this
    {
      Protocol.NodeState(
        id, config, chain, round, time, messages, firstFuture, accepted, preparedBlock, preparedRound,
        roundStart, progressPrepares, progressCommits, progressTime)
    }

    /** The store is sorted without repeated keys, and the key index is exact. */
    ghost predicate Valid()
      reads this
    {
      Sorted(messages) && messageKeys == KeysOf(messages)
    }

    constructor (id: Address, config: Protocol.Config, chain: Chain, time: nat)
      ensures Valid() && View() == Protocol.InitialState(id, config, chain, time)
    {
      this.id, this.config, this.chain, this.time := id, config, chain, time;
      round, messages, messageKeys, firstFuture := 0, [], {}, 0;
      accepted, preparedBlock, preparedRound := None, None, None;
      roundStart := time + config.blockTime;
      progressPrepares, progressCommits, progressTime := 0, 0, time;
    }

    // ---- The message store --------------------------------------------------------

    method InsertMessageSorted(message: Message)
      requires Valid()
      modifies `messages, `messageKeys
      ensures Valid() && messages == Insert(old(messages), message)
      ensures View() == old(View()).Push(message)
    {
      var key := message.SortKey();
      if key in messageKeys {
        return;
      }
      InsertKeepsSorted(messages, message);
      InsertKeys(messages, message);
      var index := LowerBound(messages, key);
      messages := messages[..index] + [message] + messages[index..];
      messageKeys := messageKeys + {key};
    }

    /** Drops the first messages and their keys, one by one. */
    method Drain(first: nat)
      requires Valid() && first <= |messages|
      modifies `messages, `messageKeys
      ensures Valid() && messages == old(messages)[first..]
    {
      var drained := 0;
      while drained < first
        invariant drained <= first <= |old(messages)| && messages == old(messages)[drained..]
        invariant Valid()
      {
        DropKey(messages);
        messageKeys := messageKeys - {messages[0].SortKey()};
        messages := messages[1..];
        drained := drained + 1;
      }
    }

    method PruneMessages()
      requires Valid()
      modifies `messages, `messageKeys, `firstFuture
      ensures Valid() && View() == old(View()).PruneMessages()
    {
      Drain(BelowHeight(messages, chain.Height()));
      firstFuture := BelowHeight(messages, chain.Height() + 1);
    }

    /** The validation loop. */
    method ReceiveAll(incoming: seq<Message>)
      requires Valid()
      modifies `messages, `messageKeys
      ensures Valid() && messages == Protocol.Receive(old(messages), incoming, chain)
    {
      ghost var all := Protocol.Receive(messages, incoming, chain);
      for i := 0 to |incoming|
        invariant Valid()
        invariant Protocol.Receive(messages, incoming[i..], chain) == all
      {
        var m := incoming[i];
        assert incoming[i..][1..] == incoming[i + 1..];
        if m.Height() < chain.Height() {
          continue;
        }
        if m.SortKey() in messageKeys {
          continue;
        }
        if Protocol.CheckAuthors(m, chain.Validators()) && Protocol.CheckSignatures(m, chain)
           && Protocol.CheckDigest(m) {
          InsertMessageSorted(m);
        }
      }
    }

    method AddMessages(incoming: seq<Message>, time: nat)
      requires Valid()
      modifies this
      ensures Valid() && View() == Protocol.AddMessages(old(View()), incoming, time)
    {
      this.time := time;
      ReceiveAll(incoming);
      assert View() == old(View()).(time := time, messages := messages);
      Tidy();
    }

    method Tidy()
      requires Valid()
      modifies this
      ensures Valid() && View() == Protocol.Tidied(old(View()))
    {
      PruneMessages();
      chain := chain.Prune();
    }

    // ---- Small updates ------------------------------------------------------------

    method NewRound(r: nat, start: nat, proposal: Option<Proposal>)
      modifies this
      ensures View() == old(View()).NewRound(r, start, proposal)
      ensures messageKeys == old(messageKeys)
    {
      round := r;
      accepted := proposal;
      roundStart := start;
      if r == 0 {
        preparedBlock, preparedRound := None, None;
        progressPrepares, progressCommits, progressTime := 0, 0, start;
      }
    }

    method Advance(block: Block)
      modifies this
      ensures View() == Protocol.AdvanceTo(old(View()), block)
      ensures messageKeys == old(messageKeys)
    {
      chain := chain.SetHead(block);
      chain := chain.SetProposed(None);
      NewRound(0, Max(time, View().NextBlockTimeout()), None);
    }

    method UpdateRoundZeroProgress(prepares: nat, commits: nat) returns (progressed: bool)
      modifies this
      ensures (View(), progressed) == Protocol.UpdateProgress(old(View()), prepares, commits)
      ensures messageKeys == old(messageKeys)
    {
      progressed := prepares > progressPrepares || commits > progressCommits;
      if progressed {
        progressPrepares := prepares;
        progressCommits := commits;
        progressTime := time;
      }
    }

    // ---- Transitions --------------------------------------------------------------

    method UponBlockTimeout() returns (sent: Option<seq<Message>>)
      requires Valid()
      modifies this
      ensures Valid() && Protocol.Outcome(View(), sent) == Protocol.UponBlockTimeout(old(View()))
      ensures sent.None? ==> View() == old(View())
    {
      if !Protocol.BlockTimeoutReady(View()) {
        return None;
      }
      var block := View().GetNewBlock(0);
      if block.None? {
        return None;
      }
      var proposal := Protocol.RoundZeroProposal(View(), block.value);
      accepted := Some(proposal);
      roundStart := time;
      var prepare := SignPrepare(UnsignedPrepare(chain.Height(), 0, Digest(block.value)), id);
      return Some([ProposalMessage(proposal), PrepareMessage(prepare)]);
    }

    method IsValidProposal(p: Proposal) returns (ok: bool)
      ensures ok == Protocol.IsValidProposal(p, View())
    {
      var u := p.payload.unsigned;
      if u.height != chain.Height() || p.payload.signature.author != Proposer(u.round, chain) {
        return false;
      }
      ok := CheckJustification(p.roundChanges, p.prepares, [p.block], u.round, p.block, chain);
      ok := ok && u.digest == Digest(p.block) && Protocol.RoundAcceptable(View(), u.round);
    }

    method Accept(p: Proposal) returns (prepare: Message)
      requires Valid()
      modifies this
      ensures Valid() && Protocol.Outcome(View(), Some([prepare])) == Protocol.AcceptProposal(old(View()), p)
    {
      var newRound := p.payload.unsigned.round;
      prepare := PrepareMessage(SignPrepare(UnsignedPrepare(chain.Height(), newRound, Digest(p.block)), id));
      accepted := Some(p);
      if newRound > round {
        roundStart := time;
      }
      round := newRound;
      InsertMessageSorted(prepare);
    }

    method UponProposal() returns (sent: Option<seq<Message>>)
      requires Valid()
      modifies this
      ensures Valid() && Protocol.Outcome(View(), sent) == Protocol.UponProposal(old(View()))
      ensures sent.None? ==> View() == old(View())
    {
      var visible := View().Visible();
      ghost var s := View();
      ghost var first := Protocol.FirstValidProposal(visible, s);
      for i := 0 to |visible|
        invariant View() == s && Valid()
        invariant Protocol.FirstValidProposal(visible[i..], s) == first
      {
        assert visible[i..][1..] == visible[i + 1..];
        if visible[i].ProposalMessage? {
          var p := visible[i].proposal;
          var ok := IsValidProposal(p);
          if ok {
            var prepare := Accept(p);
            return Some([prepare]);
          }
        }
      }
      return None;
    }

    method UponPrepare() returns (sent: Option<seq<Message>>)
      requires Valid()
      modifies this
      ensures Valid() && Protocol.Outcome(View(), sent) == Protocol.UponPrepare(old(View()))
      ensures sent.None? ==> View() == old(View())
    {
      if accepted.None? {
        return None;
      }
      var block := accepted.value.block;
      var prepares := Protocol.PreparesFor(chain.Height(), round, Digest(block), View().Visible());
      if |prepares| < Quorum(|chain.Validators()|) {
        return None;
      }
      if Protocol.HasSentCommit(View()) {
        return None;
      }
      var commit := CommitMessage(Protocol.CommitVote(View(), block));
      preparedBlock, preparedRound := Some(block), Some(round);
      InsertMessageSorted(commit);
      return Some([commit]);
    }

    method UponCommit() returns (sent: Option<seq<Message>>)
      requires Valid()
      modifies this
      ensures Valid() && Protocol.Outcome(View(), sent) == Protocol.UponCommit(old(View()))
      ensures sent.None? ==> View() == old(View())
    {
      if accepted.None? || !View().IsProposer() {
        return None;
      }
      var block := accepted.value.block;
      var commits := Protocol.CommitsFor(chain.Height(), round, Digest(block), View().Visible());
      if |Protocol.CommitSenders(commits)| < Quorum(|chain.Validators()|) {
        return None;
      }
      var newBlock := block.(header := block.header.(commitSeals := Protocol.CommitSeals(commits)));
      Advance(newBlock);
      var message := NewBlockMessage(SignNewBlock(newBlock, id));
      InsertMessageSorted(message);
      return Some([message]);
    }

    method UponNewBlock() returns (sent: Option<seq<Message>>)
      requires Valid()
      modifies this
      ensures Valid() && Protocol.Outcome(View(), sent) == Protocol.UponNewBlock(old(View()))
      ensures sent.None? ==> View() == old(View())
    {
      ghost var last := Protocol.LastValidNewBlock(messages, chain);
      var i := |messages|;
      assert messages[..i] == messages;
      while i > 0
        invariant View() == old(View()) && Valid() && i <= |messages|
        invariant Protocol.LastValidNewBlock(messages[..i], chain) == last
      {
        assert messages[..i][..i - 1] == messages[..i - 1];
        i := i - 1;
        if messages[i].NewBlockMessage? {
          var ok := Certificates.CheckNewBlock(chain, messages[i].newBlock);
          if ok {
            Advance(messages[i].newBlock.block);
            PruneMessages();
            return Some([]);
          }
        }
      }
      return None;
    }

    method DeferRoundZeroTimeout() returns (deferred: bool)
      requires Valid()
      modifies this
      ensures Valid() && (View(), deferred) == Protocol.DeferRoundZero(old(View()))
    {
      var counts := Protocol.RoundZeroProgress(View());
      if counts.None? {
        return false;
      }
      var (prepares, commits) := counts.value;
      if |chain.Validators()| == 0 {
        return false;
      }
      var threshold := MaxFaulty(|chain.Validators()|) + 1;
      var hasProgress := prepares >= threshold || commits > 0;
      if !hasProgress {
        return false;
      }
      deferred := WaitOn(prepares, commits);
    }

    method WaitOn(prepares: nat, commits: nat) returns (deferred: bool)
      requires Valid()
      modifies this
      ensures Valid() && (View(), deferred) == Protocol.WaitOn(old(View()), prepares, commits)
    {
      var progressed := UpdateRoundZeroProgress(prepares, commits);
      var grace := Max(config.blockTime, 1);
      var sinceProgress := Monus(time, progressTime);
      if progressed || sinceProgress < grace {
        roundStart := time;
        return true;
      }
      return false;
    }

    method UponRoundTimeout() returns (sent: Option<seq<Message>>)
      requires Valid()
      modifies this
      ensures Valid() && Protocol.Outcome(View(), sent) == Protocol.UponRoundTimeout(old(View()))
    {
      if !config.roundChangeOnFirstBlock && chain.Height() == 1 {
        return None;
      }
      if time < View().NextRoundTimeout() {
        return None;
      }
      if round == 0 {
        var deferred := DeferRoundZeroTimeout();
        if deferred {
          return None;
        }
      }
      var message := FireTimeout();
      return Some([message]);
    }

    method FireTimeout() returns (message: Message)
      requires Valid()
      modifies this
      ensures Valid() && Protocol.Outcome(View(), Some([message])) == Protocol.FireTimeout(old(View()))
    {
      message := RoundChangeMessage(Protocol.CreateRoundChange(View(), round + 1));
      Announce(message);
    }

    method Announce(message: Message)
      requires Valid()
      modifies this
      ensures Valid() && View() == Protocol.Announce(old(View()), message).state
    {
      var newRound := round + 1;
      roundStart := time;
      Enter(newRound, message);
    }

    method Enter(newRound: nat, message: Message)
      requires Valid()
      modifies this
      ensures Valid() && View() == old(View()).(round := newRound, accepted := None).Push(message)
    {
      round := newRound;
      accepted := None;
      InsertMessageSorted(message);
    }

    method IsReceivedJustification(
      rcs: seq<RoundChange>, prepares: seq<SignedPrepare>, newRound: nat, block: Block) returns (ok: bool)
      ensures ok == Protocol.IsReceivedJustification(rcs, prepares, newRound, block, View())
    {
      var signedPrepares := WithExtraPrepares(prepares, rcs, chain.Height(), newRound);
      ok := CheckJustification(
        Protocol.Payloads(rcs), signedPrepares, Protocol.ReceivedBlocks(rcs, config.blockLess), newRound, block, chain);
      ok := ok && Protocol.RoundAcceptable(View(), newRound);
    }

    method JustifyRound(newRound: nat) returns (r: Option<Justified>)
      ensures r == Protocol.JustifyRound(View(), newRound)
    {
      if Proposer(newRound, chain) != id {
        return None;
      }
      var rcs := Protocol.ValidRoundChangesIn(View().AtRound(newRound), newRound, chain);
      var blocks := Protocol.ReceivedBlocks(rcs, config.blockLess);
      var prepares := Protocol.LeaderPrepares(View(), rcs);
      ghost var first := Protocol.FirstJustifiedBlock(blocks, rcs, prepares, newRound, View());
      for i := 0 to |blocks|
        invariant Protocol.FirstJustifiedBlock(blocks[i..], rcs, prepares, newRound, View()) == first
      {
        assert blocks[i..][1..] == blocks[i + 1..];
        var ok := IsReceivedJustification(rcs, prepares, newRound, blocks[i]);
        if ok {
          return Some(Protocol.ProposalJustification(newRound, rcs, prepares, blocks[i]));
        }
      }
      var block := View().GetNewBlock(newRound);
      if block.None? {
        return None;
      }
      var ok := IsReceivedJustification(rcs, prepares, newRound, block.value);
      if ok {
        return Some(Protocol.ProposalJustification(newRound, rcs, prepares, block.value));
      }
      return None;
    }

    method HasReceivedJustification() returns (r: Option<Justified>)
      ensures r == Protocol.ReceivedJustification(View())
    {
      var rounds := Protocol.Dedup(Protocol.CandidateRounds(View().Visible(), View()));
      ghost var first := Protocol.FirstJustifiedRound(View(), rounds);
      for i := 0 to |rounds|
        invariant Protocol.FirstJustifiedRound(View(), rounds[i..]) == first
      {
        assert rounds[i..][1..] == rounds[i + 1..];
        r := JustifyRound(rounds[i]);
        if r.Some? {
          return;
        }
      }
      return None;
    }

    method UponRoundChange() returns (sent: Option<seq<Message>>)
      requires Valid()
      modifies this
      ensures Valid() && Protocol.Outcome(View(), sent) == Protocol.UponRoundChange(old(View()))
      ensures sent.None? ==> View() == old(View())
    {
      var justification := HasReceivedJustification();
      if justification.Some? {
        var message := Lead(justification.value);
        return Some([message]);
      }
      var rcs := Protocol.FutureRoundChanges(View().Visible(), chain.Height(), round);
      if |RoundChangeSenders(rcs)| <= MaxFaulty(|chain.Validators()|) {
        return None;
      }
      var message := Join(Protocol.MinRound(rcs));
      return Some([message]);
    }

    method Lead(j: Justified) returns (message: Message)
      requires Valid()
      modifies this
      ensures Valid() && Protocol.Outcome(View(), Some([message])) == Protocol.LeadRound(old(View()), j)
    {
      message := ProposalMessage(Protocol.LeaderProposal(View(), j));
      if j.round > round {
        roundStart := time;
      }
      Enter(j.round, message);
    }

    method Join(newRound: nat) returns (message: Message)
      requires Valid()
      modifies this
      ensures Valid() && Protocol.Outcome(View(), Some([message])) == Protocol.JoinRound(old(View()), newRound)
    {
      message := RoundChangeMessage(Protocol.CreateRoundChange(View(), newRound));
      Enter(newRound, message);
    }

    method NextSubStep() returns (sent: seq<Message>)
      requires Valid()
      modifies this
      ensures Valid() && View() == Protocol.NextSubStep(old(View())).state
      ensures sent == Protocol.Sent(Protocol.NextSubStep(old(View())))
    {
      if id in chain.Validators() {
        var out := UponNewBlock();
        if out.None? {
          out := UponBlockTimeout();
        }
        if out.None? {
          out := UponProposal();
        }
        if out.None? {
          out := UponPrepare();
        }
        if out.None? {
          out := UponCommit();
        }
        if out.None? {
          out := UponRoundChange();
        }
        if out.None? {
          out := UponRoundTimeout();
        }
        sent := if out.None? then [] else out.value;
      } else {
        var out := UponNewBlock();
        sent := if out.None? then [] else out.value;
      }
    }

    /** One step of the node: sets the clock and runs the first enabled transition. */
    method NodeNext(time: nat) returns (sent: seq<Message>)
      requires Valid()
      modifies this
      ensures Valid() && View() == Protocol.NodeNext(old(View()), time).state
      ensures sent == Protocol.Sent(Protocol.NodeNext(old(View()), time))
    {
      this.time := time;
      sent := NextSubStep();
    }
  }
}
