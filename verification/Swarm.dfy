/** A swarm of nodes around a network that may delay, reorder, repeat or lose messages,
    with up to `MaxFaulty(n)` validators under an adversary's control.

    Honest validators run the protocol. The adversary may put any message on the network
    as long as it forges no signature of an honest validator, at the top level or nested
    inside justifications and block headers. */
module Swarm {
  import opened Prelude
  import opened Types
  import opened Validators
  import opened Protocol

  /** The validator set of a run and its honest members. */
  datatype Committee = Committee(validators: seq<Address>, honest: set<Address>, genesis: Block) {
    ghost predicate Valid() {
      && |validators| > 0
      && Distinct(validators)
      && honest <= Elements(validators)
      && |Elements(validators) - honest| <= MaxFaulty(|validators|)
      && genesis.header.validators == validators
    }

    function QuorumSize(): nat {
      Quorum(|validators|)
    }
  }

  /** An honest node took a proposal, on top of a chain. */
  datatype Acceptance = Acceptance(node: Address, chain: Chain, proposal: Proposal)

  /** An honest node's round timer fired. */
  datatype Timeout = Timeout(node: Address, height: nat, round: nat)

  /** `signed` holds every signature made by an honest node; `acceptances` and `timeouts`
      are logs of what honest nodes did. */
  datatype Swarm = Swarm(
    nodes: map<Address, NodeState>,
    network: set<Message>,
    signed: set<Signature>,
    acceptances: set<Acceptance>,
    timeouts: set<Timeout>)

  // ---- Signatures -----------------------------------------------------------------

  /** The signatures a node makes when it creates the message. */
  function MadeFor(m: Message): (s: set<Signature>) {
    match m
    case ProposalMessage(p) => {p.payload.signature}
    case PrepareMessage(p) => {p.signature}
    case CommitMessage(c) => {c.signature, c.unsigned.commitSeal}
    case RoundChangeMessage(rc) => {rc.payload.signature}
    case NewBlockMessage(nb) => {nb.signature}
  }

  function MadeForAll(ms: seq<Message>): (s: set<Signature>) {
    if ms == [] then {} else MadeFor(ms[0]) + MadeForAll(ms[1..])
  }

  /** A signature that verifies and names an honest author was made by that author. */
  predicate Unforged(c: Committee, signed: set<Signature>, sig: Signature, payload: Payload) {
    sig.Verifies(payload) && sig.author in c.honest ==> sig in signed
  }

  predicate SealUnforged(c: Committee, signed: set<Signature>, sig: Signature) {
    sig.author in c.honest && sig.payload.OfHash? ==> sig in signed
  }

  predicate PreparesUnforged(c: Committee, signed: set<Signature>, ps: seq<SignedPrepare>) {
    forall p :: p in ps ==> Unforged(c, signed, p.signature, OfPrepare(p.unsigned))
  }

  predicate RoundChangesUnforged(c: Committee, signed: set<Signature>, rcs: seq<SignedRoundChange>) {
    forall rc :: rc in rcs ==> Unforged(c, signed, rc.signature, OfRoundChange(rc.unsigned))
  }

  predicate NoForgery(c: Committee, signed: set<Signature>, m: Message) {
    match m
    case ProposalMessage(p) =>
      && Unforged(c, signed, p.payload.signature, OfProposal(p.payload.unsigned))
      && RoundChangesUnforged(c, signed, p.roundChanges)
      && PreparesUnforged(c, signed, p.prepares)
    case PrepareMessage(p) => Unforged(c, signed, p.signature, OfPrepare(p.unsigned))
    case CommitMessage(v) =>
      && Unforged(c, signed, v.signature, OfCommit(v.unsigned))
      && SealUnforged(c, signed, v.unsigned.commitSeal)
    case RoundChangeMessage(rc) =>
      && Unforged(c, signed, rc.payload.signature, OfRoundChange(rc.payload.unsigned))
      && PreparesUnforged(c, signed, rc.prepares)
    case NewBlockMessage(nb) =>
      && Unforged(c, signed, nb.signature, OfNewBlock(nb.unsigned))
      && forall seal :: seal in nb.block.header.commitSeals ==> SealUnforged(c, signed, seal)
  }

  // ---- Steps ----------------------------------------------------------------------

  datatype Step =
    | Deliver(node: Address, incoming: seq<Message>, time: nat)
    | Tick(node: Address, time: nat, bypass: bool)
    | SetProposed(node: Address, block: Block)
    | Inject(message: Message)

  function PushAll(s: NodeState, ms: seq<Message>): (s': NodeState)
    decreases |ms|
  {
    if ms == [] then s else PushAll(s.Push(ms[0]), ms[1..])
  }

  /** The step reached the last rule and the round timer fired. */
  predicate TimerFires(s: NodeState) {
    && s.id in s.Validators()
    && UponNewBlock(s).sent.None?
    && UponBlockTimeout(s).sent.None?
    && UponProposal(s).sent.None?
    && UponPrepare(s).sent.None?
    && UponCommit(s).sent.None?
    && UponRoundChange(s).sent.None?
    && UponRoundTimeout(s).sent.Some?
  }

  /** The swarm after node `a`, in state `s`, ran a step with outcome `o`. With `bypass`
      the driver also puts the node's own output straight into its store. */
  ghost function AfterOutcome(w: Swarm, a: Address, s: NodeState, o: Outcome, bypass: bool, fired: bool): (w': Swarm) {
    var ms := Sent(o);
    w.(nodes := w.nodes[a := if bypass then PushAll(o.state, ms) else o.state],
       network := w.network + Elements(ms),
       signed := w.signed + MadeForAll(ms),
       acceptances := w.acceptances + NewAcceptances(a, s, o.state),
       timeouts := w.timeouts + (if fired then {Timeout(a, s.Height(), s.round)} else {}))
  }

  /** A step that changes the accepted proposal to a new one is an acceptance. */
  function NewAcceptances(a: Address, s: NodeState, s': NodeState): (x: set<Acceptance>) {
    if s'.accepted.Some? && s'.accepted != s.accepted then {Acceptance(a, s.chain, s'.accepted.value)} else {}
  }

  ghost function AfterTick(w: Swarm, a: Address, time: nat, bypass: bool): (w': Swarm)
    requires a in w.nodes
  {
    var s := w.nodes[a].(time := time);
    AfterOutcome(w, a, s, NextSubStep(s), bypass, TimerFires(s))
  }

  /** One step of the swarm. The driver only sets a proposed block for the node's height. */
  ghost predicate NextStep(c: Committee, w: Swarm, w': Swarm, step: Step) {
    match step
    case Deliver(a, incoming, time) =>
      && a in c.honest && a in w.nodes
      && Elements(incoming) <= w.network
      && w' == w.(nodes := w.nodes[a := AddMessages(w.nodes[a], incoming, time)])
    case Tick(a, time, bypass) =>
      && a in c.honest && a in w.nodes
      && w' == AfterTick(w, a, time, bypass)
    case SetProposed(a, block) =>
      && a in c.honest && a in w.nodes
      && block.header.height == w.nodes[a].Height()
      && block.ValidDigest()
      && w' == w.(nodes := w.nodes[a := w.nodes[a].(chain := w.nodes[a].chain.SetProposed(Some(block)))])
    case Inject(m) =>
      && NoForgery(c, w.signed, m)
      && w' == w.(network := w.network + {m})
  }

  /** The validator set does not change during a run. */
  ghost predicate FixedValidators(c: Committee, w: Swarm) {
    forall a :: a in w.nodes ==> w.nodes[a].Validators() == c.validators
  }

  ghost predicate Next(c: Committee, w: Swarm, w': Swarm) {
    && FixedValidators(c, w')
    && exists step :: NextStep(c, w, w', step)
  }

  ghost predicate Init(c: Committee, w: Swarm) {
    && w.nodes.Keys == c.honest
    && (forall a :: a in w.nodes ==>
          w.nodes[a] == InitialState(a, w.nodes[a].config, Chain([], c.genesis, None), w.nodes[a].time))
    && w.network == {} && w.signed == {} && w.acceptances == {} && w.timeouts == {}
  }

  /** A run: any finite sequence of steps from an initial state. */
  ghost predicate Run(c: Committee, trace: seq<Swarm>) {
    && c.Valid()
    && |trace| > 0
    && Init(c, trace[0])
    && forall i :: 0 <= i < |trace| - 1 ==> Next(c, trace[i], trace[i + 1])
  }

  /** No node's clock goes back in a step. */
  ghost predicate Forward(w: Swarm, w': Swarm) {
    forall a :: a in w.nodes && a in w'.nodes ==> w.nodes[a].time <= w'.nodes[a].time
  }

  /** No node's clock goes back along the run. Runs in general do not ask for this. */
  ghost predicate ClocksGoForward(trace: seq<Swarm>) {
    forall i :: 0 <= i < |trace| - 1 ==> Forward(trace[i], trace[i + 1])
  }
}
