/** Rounds advance only as fast as honest timers fire, whatever rounds the faulty
    validators announce. */
module Rounds {
  import opened Prelude
  import opened Types
  import opened Validators
  import opened Justification
  import opened Protocol
  import opened Swarm
  import opened Effects
  import opened Invariant
  import opened Preservation

  ghost predicate FiredAt(c: Committee, timeouts: set<Timeout>, h: nat, k: nat) {
    exists b :: b in c.honest && Timeout(b, h, k) in timeouts
  }

  /** For each round below `r`, some honest timer fired at height `h`. */
  ghost predicate FiredBelow(c: Committee, timeouts: set<Timeout>, h: nat, r: nat) {
    forall k :: 0 <= k < r ==> FiredAt(c, timeouts, h, k)
  }

  ghost predicate RoundsEarned(c: Committee, w: Swarm) {
    && (forall a :: a in w.nodes ==> FiredBelow(c, w.timeouts, w.nodes[a].Height(), w.nodes[a].round))
    && (forall sig :: sig in w.signed && sig.payload.OfRoundChange? ==>
          FiredBelow(c, w.timeouts, sig.payload.roundChange.height, sig.payload.roundChange.round))
  }

  lemma FiredMonotone(c: Committee, ts: set<Timeout>, ts': set<Timeout>, h: nat, r: nat)
    requires ts <= ts' && FiredBelow(c, ts, h, r)
    ensures FiredBelow(c, ts', h, r)
  {
    forall k | 0 <= k < r ensures FiredAt(c, ts', h, k) {
      assert FiredAt(c, ts, h, k);
    }
  }

  /** A quorum of genuine round changes for a round includes an honest one, so the round
      was earned. */
  lemma QuorumEarnsRound(c: Committee, w: Swarm, rcs: seq<SignedRoundChange>, round: nat, chain: Chain)
    requires Inv(c, w) && RoundsEarned(c, w)
    requires chain.Validators() == c.validators
    requires RoundChangeQuorum(rcs, round, chain)
    requires VerifiedRoundChanges(rcs) && RoundChangesUnforged(c, w.signed, rcs)
    ensures FiredBelow(c, w.timeouts, chain.Height(), round)
  {
    forall a | a in RoundChangeSenders(rcs) ensures a in Elements(c.validators) {
      var rc :| rc in rcs && rc.signature.author == a;
      assert ValidRoundChange(rc, chain.Height(), round, c.validators);
    }
    QuorumBounds(|c.validators|);
    var a := HonestAmong(c, RoundChangeSenders(rcs));
    var rc :| rc in rcs && rc.signature.author == a;
    assert ValidRoundChange(rc, chain.Height(), round, c.validators);
    assert Unforged(c, w.signed, rc.signature, OfRoundChange(rc.unsigned));
    assert rc.signature in w.signed;
  }

  lemma AcceptedRoundEarned(c: Committee, w: Swarm, s: NodeState, p: Proposal)
    requires Inv(c, w) && RoundsEarned(c, w) && NodeOk(c, w.signed, w.acceptances, s)
    requires ProposalMessage(p) in s.messages && ProposalChecks(p, s.chain)
    ensures FiredBelow(c, w.timeouts, s.Height(), p.payload.unsigned.round)
  {
    if p.payload.unsigned.round > 0 {
      assert Genuine(c, w.signed, ProposalMessage(p));
      QuorumEarnsRound(c, w, p.roundChanges, p.payload.unsigned.round, s.chain);
    }
  }

  lemma LedRoundEarned(c: Committee, w: Swarm, s: NodeState, j: ProposalJustification)
    requires Inv(c, w) && RoundsEarned(c, w) && NodeOk(c, w.signed, w.acceptances, s)
    requires Justified(s, j)
    ensures FiredBelow(c, w.timeouts, s.Height(), j.round)
  {
    if j.round > 0 {
      var rcs := Payloads(j.roundChanges);
      forall rc | rc in rcs
        ensures rc.signature.Verifies(OfRoundChange(rc.unsigned))
        ensures Unforged(c, w.signed, rc.signature, OfRoundChange(rc.unsigned))
      {
        var full :| full in j.roundChanges && full.payload == rc;
        assert Genuine(c, w.signed, RoundChangeMessage(full));
      }
      QuorumEarnsRound(c, w, rcs, j.round, s.chain);
    }
  }

  /** Among more senders than can be faulty, an honest one announced a round no lower than
      the least announced. */
  lemma JoinedRoundEarned(c: Committee, w: Swarm, s: NodeState, rcs: seq<SignedRoundChange>)
    requires Inv(c, w) && RoundsEarned(c, w) && NodeOk(c, w.signed, w.acceptances, s)
    requires rcs == FutureRoundChanges(s.Visible(), s.Height(), s.round)
    requires |RoundChangeSenders(rcs)| > MaxFaulty(|s.Validators()|)
    ensures FiredBelow(c, w.timeouts, s.Height(), MinRound(rcs))
  {
    forall rc | rc in rcs
      ensures rc.signature.author in c.validators
      ensures rc.signature.Verifies(OfRoundChange(rc.unsigned))
      ensures Unforged(c, w.signed, rc.signature, OfRoundChange(rc.unsigned))
    {
      var m :| m in s.Visible() && m.RoundChangeMessage? && m.roundChange.payload == rc;
      assert m in s.messages;
      assert Genuine(c, w.signed, m);
    }
    forall a | a in RoundChangeSenders(rcs) ensures a in Elements(c.validators) {
      var rc :| rc in rcs && rc.signature.author == a;
    }
    var a := HonestAmong(c, RoundChangeSenders(rcs));
    var rc :| rc in rcs && rc.signature.author == a;
    assert rc.signature in w.signed;
    assert FiredBelow(c, w.timeouts, s.Height(), rc.unsigned.round);
  }

  /** The timeouts logged by a step. */
  ghost predicate TimeoutsStep(w: Swarm, w': Swarm, a: Address, s: NodeState, e: Event) {
    w'.timeouts == w.timeouts + (if e.TimesOut? then {Timeout(a, s.Height(), s.round)} else {})
  }

  /** The round an event leads to. */
  function TargetRound(s: NodeState, e: Event): (r: nat) {
    match e
    case Accepts(p) => p.payload.unsigned.round
    case Leads(j) => j.round
    case Joins(rcs) => MinRound(rcs)
    case TimesOut => s.round + 1
    case _ => s.round
  }

  lemma RoundAfter(s: NodeState, s': NodeState, e: Event)
    requires Lands(s, s', e)
    ensures s'.round == 0 || (s'.Height() == s.Height() && s'.round == TargetRound(s, e))
  {
  }

  /** A timer that fires earns the next round. */
  lemma TimeoutEarnsRound(c: Committee, ts: set<Timeout>, a: Address, h: nat, r: nat)
    requires a in c.honest && FiredBelow(c, ts, h, r)
    ensures FiredBelow(c, ts + {Timeout(a, h, r)}, h, r + 1)
  {
    var ts' := ts + {Timeout(a, h, r)};
    FiredMonotone(c, ts, ts', h, r);
    assert Timeout(a, h, r) in ts';
    assert FiredAt(c, ts', h, r);
  }

  lemma TargetRoundEarned(c: Committee, w: Swarm, s: NodeState, e: Event)
    requires Inv(c, w) && RoundsEarned(c, w)
    requires NodeOk(c, w.signed, w.acceptances, s)
    requires Enabled(s, e) && (e.Accepts? || e.Leads? || e.Joins?)
    ensures FiredBelow(c, w.timeouts, s.Height(), TargetRound(s, e))
  {
    match e
    case Accepts(p) => AcceptedRoundEarned(c, w, s, p);
    case Leads(j) => LedRoundEarned(c, w, s, j);
    case Joins(rcs) => JoinedRoundEarned(c, w, s, rcs);
  }

  lemma ActorKeepsRoundEarned(c: Committee, w: Swarm, w': Swarm, a: Address, s: NodeState, s': NodeState, e: Event)
    requires a in c.honest
    requires FiredBelow(c, w.timeouts, s.Height(), s.round)
    requires e.Accepts? || e.Leads? || e.Joins? ==> FiredBelow(c, w.timeouts, s.Height(), TargetRound(s, e))
    requires Lands(s, s', e) && TimeoutsStep(w, w', a, s, e)
    ensures FiredBelow(c, w'.timeouts, s'.Height(), s'.round)
  {
    RoundAfter(s, s', e);
    if e.TimesOut? {
      TimeoutEarnsRound(c, w.timeouts, a, s.Height(), s.round);
    } else {
      FiredMonotone(c, w.timeouts, w'.timeouts, s.Height(), TargetRound(s, e));
    }
  }

  lemma EffectKeepsRoundsEarned(
    c: Committee, w: Swarm, w': Swarm, a: Address, s: NodeState, s': NodeState, ms: seq<Message>, e: Event)
    requires Inv(c, w) && RoundsEarned(c, w)
    requires Steps(c, w, w', a, s, s', ms, e) && TimeoutsStep(w, w', a, s, e)
    ensures RoundsEarned(c, w')
  {
    ActorEarnsRound(c, w, w', a, s, s', ms, e);
    OthersKeepRoundEarned(c, w, w', a);
    NewSigsRoundsEarned(c, w, w', a, s, s', ms, e);
  }

  lemma ActorEarnsRound(
    c: Committee, w: Swarm, w': Swarm, a: Address, s: NodeState, s': NodeState, ms: seq<Message>, e: Event)
    requires Inv(c, w) && RoundsEarned(c, w)
    requires Steps(c, w, w', a, s, s', ms, e) && TimeoutsStep(w, w', a, s, e)
    ensures FiredBelow(c, w'.timeouts, s'.Height(), s'.round)
  {
    ActorOk(c, w, a, s);
    if e.Accepts? || e.Leads? || e.Joins? {
      TargetRoundEarned(c, w, s, e);
    }
    ActorKeepsRoundEarned(c, w, w', a, s, s', e);
  }

  lemma OthersKeepRoundEarned(c: Committee, w: Swarm, w': Swarm, a: Address)
    requires RoundsEarned(c, w) && w.timeouts <= w'.timeouts
    requires a in w'.nodes && w'.nodes == w.nodes[a := w'.nodes[a]]
    requires FiredBelow(c, w'.timeouts, w'.nodes[a].Height(), w'.nodes[a].round)
    ensures forall b :: b in w'.nodes ==> FiredBelow(c, w'.timeouts, w'.nodes[b].Height(), w'.nodes[b].round)
  {
    forall b | b in w'.nodes ensures FiredBelow(c, w'.timeouts, w'.nodes[b].Height(), w'.nodes[b].round) {
      if b != a {
        FiredMonotone(c, w.timeouts, w'.timeouts, w.nodes[b].Height(), w.nodes[b].round);
      }
    }
  }

  lemma NewSigsRoundsEarned(
    c: Committee, w: Swarm, w': Swarm, a: Address, s: NodeState, s': NodeState, ms: seq<Message>, e: Event)
    requires RoundsEarned(c, w)
    requires Steps(c, w, w', a, s, s', ms, e) && TimeoutsStep(w, w', a, s, e)
    requires FiredBelow(c, w'.timeouts, s'.Height(), s'.round)
    ensures forall sig :: sig in w'.signed && sig.payload.OfRoundChange? ==>
              FiredBelow(c, w'.timeouts, sig.payload.roundChange.height, sig.payload.roundChange.round)
  {
    forall sig | sig in w'.signed && sig.payload.OfRoundChange?
      ensures FiredBelow(c, w'.timeouts, sig.payload.roundChange.height, sig.payload.roundChange.round)
    {
      var u := sig.payload.roundChange;
      if sig in w.signed {
        FiredMonotone(c, w.timeouts, w'.timeouts, u.height, u.round);
      } else {
        MadeForOutput(s, e);
        NewRoundChangeIsCurrent(s, s', e, sig);
      }
    }
  }

  lemma NewRoundChangeIsCurrent(s: NodeState, s': NodeState, e: Event, sig: Signature)
    requires Enabled(s, e) && Lands(s, s', e)
    requires sig in MadeBy(s, e) && sig.payload.OfRoundChange?
    ensures sig.payload.roundChange.height == s'.Height() && sig.payload.roundChange.round == s'.round
  {
  }

  lemma TickKeepsRoundsEarned(c: Committee, w: Swarm, w': Swarm, step: Step)
    requires Inv(c, w) && RoundsEarned(c, w) && FixedValidators(c, w')
    requires step.Tick? && NextStep(c, w, w', step)
    ensures RoundsEarned(c, w')
  {
    var a := step.node;
    var s := w.nodes[a].(time := step.time);
    var e := SubStepEffect(s);
    OutcomeSteps(c, w, w', a, s, NextSubStep(s), step.bypass, TimerFires(s), e);
    EffectKeepsRoundsEarned(c, w, w', a, s, w'.nodes[a], Sent(NextSubStep(s)), e);
  }

  lemma OtherStepKeepsRoundsEarned(c: Committee, w: Swarm, w': Swarm, step: Step)
    requires RoundsEarned(c, w)
    requires !step.Tick? && NextStep(c, w, w', step)
    ensures RoundsEarned(c, w')
  {
    assert w'.signed == w.signed && w'.timeouts == w.timeouts;
    forall a | a in w'.nodes ensures FiredBelow(c, w'.timeouts, w'.nodes[a].Height(), w'.nodes[a].round) {
      assert a in w.nodes;
      assert w'.nodes[a].Height() == w.nodes[a].Height() && w'.nodes[a].round == w.nodes[a].round;
    }
  }

  lemma NextKeepsRoundsEarned(c: Committee, w: Swarm, w': Swarm)
    requires Inv(c, w) && RoundsEarned(c, w) && Next(c, w, w')
    ensures RoundsEarned(c, w')
  {
    var step :| NextStep(c, w, w', step);
    if step.Tick? {
      TickKeepsRoundsEarned(c, w, w', step);
    } else {
      OtherStepKeepsRoundsEarned(c, w, w', step);
    }
  }

  lemma {:induction false} RoundsEarnedHolds(c: Committee, trace: seq<Swarm>, i: nat)
    requires Run(c, trace) && i < |trace|
    ensures RoundsEarned(c, trace[i])
  {
    if i == 0 {
      InitHasRoundsEarned(c, trace[0]);
    } else {
      RoundsEarnedHolds(c, trace, i - 1);
      RunKeepsRoundsEarned(c, trace, i - 1);
    }
  }

  lemma InitHasRoundsEarned(c: Committee, w: Swarm)
    requires Init(c, w)
    ensures RoundsEarned(c, w)
  {
  }

  lemma RunKeepsRoundsEarned(c: Committee, trace: seq<Swarm>, i: nat)
    requires Run(c, trace) && i + 1 < |trace| && RoundsEarned(c, trace[i])
    ensures RoundsEarned(c, trace[i + 1])
  {
    InvHolds(c, trace, i);
    NextKeepsRoundsEarned(c, trace[i], trace[i + 1]);
  }

  /** In every run, an honest node in round `r` of a height means that for each earlier
      round some honest node's timer fired at that height. */
  lemma RoundsAreDrivenByHonestTimeouts(c: Committee, trace: seq<Swarm>, i: nat, a: Address, k: nat)
    requires Run(c, trace) && i < |trace| && a in trace[i].nodes
    requires k < trace[i].nodes[a].round
    ensures exists b :: b in c.honest && Timeout(b, trace[i].nodes[a].Height(), k) in trace[i].timeouts
  {
    RoundsEarnedHolds(c, trace, i);
    assert FiredAt(c, trace[i].timeouts, trace[i].nodes[a].Height(), k);
  }
}
