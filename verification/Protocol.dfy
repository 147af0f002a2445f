/** The node's transitions as functions on its state. Each returns the new state and,
    when the transition fired, the messages to send. */
module Protocol {
  import opened Prelude
  import opened Types
  import opened Validators
  import opened Justification
  import opened Store

  /** `timeout` is the round timer's length and `blockLess` the total order on blocks;
      neither is interpreted further. */
  datatype Config = Config(
    blockTime: nat,
    roundChangeOnFirstBlock: bool,
    timeout: nat -> nat,
    blockLess: (Block, Block) -> bool)

  datatype NodeState = NodeState(
    id: Address,
    config: Config,
    chain: Chain,
    round: nat,
    time: nat,
    messages: seq<Message>,
    firstFuture: nat,
    accepted: Option<Proposal>,
    preparedBlock: Option<Block>,
    preparedRound: Option<nat>,
    roundStart: nat,
    progressPrepares: nat,
    progressCommits: nat,
    progressTime: nat)
  {
    function Height(): nat {
      chain.Height()
    }

    function Validators(): seq<Address> {
      chain.Validators()
    }

    function QuorumSize(): nat {
      Quorum(|Validators()|)
    }

    /** The messages the protocol rules look at: those below `firstFuture`. */
    function Visible(): seq<Message> {
      messages[..Min(firstFuture, |messages|)]
    }

    function AtRound(r: nat): seq<Message> {
      var lower := BelowRound(Visible(), r);
      var upper := BelowRound(Visible(), r + 1);
      BelowRoundMonotone(Visible(), r);
      Visible()[lower..upper]
    }

    function NextBlockTimeout(): nat {
      chain.head.header.timestamp + config.blockTime
    }

    function NextRoundTimeout(): nat {
      roundStart + config.timeout(round)
    }

    function GetNewBlock(r: nat): Option<Block> {
      match chain.proposed
      case None => None
      case Some(b) => Some(ReplaceRound(b, r))
    }

    predicate IsProposer() {
      Proposer(round, chain) == id
    }

    /** Inserts a message without moving `firstFuture`. */
    function Push(m: Message): NodeState {
      this.(messages := Insert(messages, m))
    }

    function PruneMessages(): NodeState {
      var kept := messages[BelowHeight(messages, Height())..];
      this.(messages := kept, firstFuture := BelowHeight(kept, Height() + 1))
    }

    function NewRound(r: nat, start: nat, proposal: Option<Proposal>): NodeState {
      var s := this.(round := r, accepted := proposal, roundStart := start);
      if r == 0 then
        s.(preparedBlock := None, preparedRound := None,
           progressPrepares := 0, progressCommits := 0, progressTime := start)
      else s
    }
  }

  datatype Outcome = Outcome(state: NodeState, sent: Option<seq<Message>>)

  function Sent(o: Outcome): (ms: seq<Message>) {
    match o.sent
    case None => []
    case Some(ms) => ms
  }

  /** A freshly started node. */
  function InitialState(id: Address, config: Config, chain: Chain, time: nat): (s: NodeState) {
    NodeState(id, config, chain, 0, time, [], 0, None, None, None, time + config.blockTime, 0, 0, time)
  }

  // ---- Receiving messages ---------------------------------------------------------

  predicate CheckDigest(m: Message) {
    match m
    case ProposalMessage(p) => p.block.ValidDigest()
    case RoundChangeMessage(rc) => rc.block.Some? ==> rc.block.value.ValidDigest()
    case NewBlockMessage(nb) => nb.block.ValidDigest()
    case _ => true
  }

  predicate CheckAuthors(m: Message, validators: seq<Address>) {
    && m.Author() in validators
    && (m.NewBlockMessage? ==> m.newBlock.block.header.proposer in validators)
  }

  predicate VerifiedPrepares(ps: seq<SignedPrepare>) {
    forall p :: p in ps ==> p.signature.Verifies(OfPrepare(p.unsigned))
  }

  predicate VerifiedRoundChanges(rcs: seq<SignedRoundChange>) {
    forall rc :: rc in rcs ==> rc.signature.Verifies(OfRoundChange(rc.unsigned))
  }

  predicate CheckSignatures(m: Message, chain: Chain) {
    match m
    case ProposalMessage(p) =>
      && p.payload.signature.Verifies(OfProposal(p.payload.unsigned))
      && VerifiedRoundChanges(p.roundChanges)
      && VerifiedPrepares(p.prepares)
    case PrepareMessage(p) => p.signature.Verifies(OfPrepare(p.unsigned))
    case CommitMessage(c) => c.signature.Verifies(OfCommit(c.unsigned))
    case RoundChangeMessage(rc) =>
      && rc.payload.signature.Verifies(OfRoundChange(rc.payload.unsigned))
      && VerifiedPrepares(rc.prepares)
    case NewBlockMessage(nb) =>
      && nb.signature.Verifies(OfNewBlock(nb.unsigned))
      && nb.signature.author == Proposer(nb.block.header.roundNumber, chain)
      && nb.block.header.proposer == Proposer(nb.block.header.roundNumber, chain)
  }

  /** What an incoming message must pass to be stored. */
  predicate Admissible(m: Message, chain: Chain) {
    && m.Height() >= chain.Height()
    && CheckAuthors(m, chain.Validators())
    && CheckSignatures(m, chain)
    && CheckDigest(m)
  }

  function Receive(ms: seq<Message>, incoming: seq<Message>, chain: Chain): (r: seq<Message>)
    ensures forall m :: m in r ==> m in ms || (m in incoming && Admissible(m, chain))
    ensures forall m :: m in ms ==> m in r
    ensures forall m :: m in incoming && Admissible(m, chain) ==> HasKey(r, m.SortKey())
    decreases |incoming|
  {
    if incoming == [] then ms
    else
      var m := incoming[0];
      var ms' := if Admissible(m, chain) then Insert(ms, m) else ms;
      var r := Receive(ms', incoming[1..], chain);
      assert forall x :: x in incoming ==> x == m || x in incoming[1..];
      r
  }

  function AddMessages(s: NodeState, incoming: seq<Message>, time: nat): (s': NodeState) {
    Tidied(s.(time := time, messages := Receive(s.messages, incoming, s.chain)))
  }

  /** Old messages and old blocks dropped. */
  function Tidied(s: NodeState): (s': NodeState) {
    var s1 := s.PruneMessages();
    s1.(chain := s1.chain.Prune())
  }

  // ---- Selecting messages ---------------------------------------------------------

  /** The prepares for a height, round and digest, in store order. */
  function PreparesFor(height: nat, round: nat, digest: Hash, ms: seq<Message>): (r: seq<SignedPrepare>)
    ensures forall p :: p in r <==> PrepareMessage(p) in ms && p.unsigned == UnsignedPrepare(height, round, digest)
  {
    if ms == [] then []
    else
      var rest := PreparesFor(height, round, digest, ms[1..]);
      assert forall m :: m in ms <==> m == ms[0] || m in ms[1..];
      if ms[0].PrepareMessage? && ms[0].prepare.unsigned == UnsignedPrepare(height, round, digest)
      then [ms[0].prepare] + rest
      else rest
  }

  /** The commits for a height, round and digest, in store order. */
  function CommitsFor(height: nat, round: nat, digest: Hash, ms: seq<Message>): (r: seq<SignedCommit>)
    ensures forall c :: c in r <==> CommitMessage(c) in ms && c.unsigned.height == height
                                    && c.unsigned.round == round && c.unsigned.digest == digest
  {
    if ms == [] then []
    else
      var rest := CommitsFor(height, round, digest, ms[1..]);
      assert forall m :: m in ms <==> m == ms[0] || m in ms[1..];
      if ms[0].CommitMessage? && ms[0].commit.unsigned.height == height
         && ms[0].commit.unsigned.round == round && ms[0].commit.unsigned.digest == digest
      then [ms[0].commit] + rest
      else rest
  }

  function CommitSenders(commits: seq<SignedCommit>): (s: set<Address>) {
    set c | c in commits :: c.signature.author
  }

  /** The round changes in `ms` that are valid for `round` on top of `chain`. */
  function ValidRoundChangesIn(ms: seq<Message>, round: nat, chain: Chain): (r: seq<RoundChange>)
    ensures forall rc :: rc in r <==> RoundChangeMessage(rc) in ms
                                      && ValidRoundChange(rc.payload, chain.Height(), round, chain.Validators())
  {
    if ms == [] then []
    else
      var rest := ValidRoundChangesIn(ms[1..], round, chain);
      assert forall m :: m in ms <==> m == ms[0] || m in ms[1..];
      if ms[0].RoundChangeMessage?
         && ValidRoundChange(ms[0].roundChange.payload, chain.Height(), round, chain.Validators())
      then [ms[0].roundChange] + rest
      else rest
  }

  /** All prepares in `ms` at a height and round, whatever their digest. */
  function PreparesIn(ms: seq<Message>, height: nat, round: nat): (r: seq<SignedPrepare>)
    ensures forall p :: p in r <==> PrepareMessage(p) in ms && p.unsigned.height == height && p.unsigned.round == round
  {
    if ms == [] then []
    else
      var rest := PreparesIn(ms[1..], height, round);
      assert forall m :: m in ms <==> m == ms[0] || m in ms[1..];
      if ms[0].PrepareMessage? && ms[0].prepare.unsigned.height == height && ms[0].prepare.unsigned.round == round
      then [ms[0].prepare] + rest
      else rest
  }

  /** The round changes in `ms` for a height and a round above `round`. */
  function FutureRoundChanges(ms: seq<Message>, height: nat, round: nat): (r: seq<SignedRoundChange>)
    ensures forall rc :: rc in r ==> rc.unsigned.height == height && rc.unsigned.round > round
                                     && exists m :: m in ms && m.RoundChangeMessage? && m.roundChange.payload == rc
    ensures forall m :: m in ms && m.RoundChangeMessage? && m.Height() == height && m.Round() > round
                        ==> m.roundChange.payload in r
  {
    if ms == [] then []
    else
      var rest := FutureRoundChanges(ms[1..], height, round);
      assert forall m :: m in ms <==> m == ms[0] || m in ms[1..];
      if ms[0].RoundChangeMessage? && ms[0].roundChange.payload.unsigned.height == height
         && ms[0].roundChange.payload.unsigned.round > round
      then [ms[0].roundChange.payload] + rest
      else rest
  }

  /** The least round named. */
  function MinRound(rcs: seq<SignedRoundChange>): (r: nat)
    ensures forall rc :: rc in rcs ==> r <= rc.unsigned.round
    ensures rcs != [] ==> exists rc :: rc in rcs && rc.unsigned.round == r
  {
    if rcs == [] then 0
    else if |rcs| == 1 then assert rcs[0] in rcs; rcs[0].unsigned.round
    else
      var m := MinRound(rcs[1..]);
      assert forall rc :: rc in rcs <==> rc == rcs[0] || rc in rcs[1..];
      assert rcs[0] in rcs;
      Min(rcs[0].unsigned.round, m)
  }

  // ---- Proposals ------------------------------------------------------------------

  /** A proposal can be taken for the current round, or for a later one once a
      proposal has been accepted. */
  predicate RoundAcceptable(s: NodeState, round: nat) {
    if s.accepted.None? then round == s.round else round > s.round
  }

  /** The checks that depend on the chain only. */
  predicate ProposalChecks(p: Proposal, chain: Chain) {
    var round := p.payload.unsigned.round;
    && p.payload.unsigned.height == chain.Height()
    && p.payload.signature.author == Proposer(round, chain)
    && IsProposalJustification(p.roundChanges, p.prepares, [p.block], round, p.block, chain)
    && p.payload.unsigned.digest == Digest(p.block)
  }

  predicate IsValidProposal(p: Proposal, s: NodeState) {
    && ProposalChecks(p, s.chain)
    && RoundAcceptable(s, p.payload.unsigned.round)
  }

  function FirstValidProposal(ms: seq<Message>, s: NodeState): (r: Option<Proposal>)
    ensures r.Some? ==> ProposalMessage(r.value) in ms && IsValidProposal(r.value, s)
    ensures r.None? ==> forall p :: ProposalMessage(p) in ms ==> !IsValidProposal(p, s)
  {
    if ms == [] then None
    else if ms[0].ProposalMessage? && IsValidProposal(ms[0].proposal, s) then Some(ms[0].proposal)
    else
      assert forall m :: m in ms <==> m == ms[0] || m in ms[1..];
      FirstValidProposal(ms[1..], s)
  }

  // ---- Blocks named in round changes ----------------------------------------------

  function BlocksOf(rcs: seq<RoundChange>): (r: seq<Block>)
    ensures forall b :: b in r <==> exists rc :: rc in rcs && rc.block == Some(b)
  {
    if rcs == [] then []
    else
      var rest := BlocksOf(rcs[1..]);
      assert forall rc :: rc in rcs <==> rc == rcs[0] || rc in rcs[1..];
      if rcs[0].block.Some? then [rcs[0].block.value] + rest else rest
  }

  function InsertBlock(b: Block, s: seq<Block>, less: (Block, Block) -> bool): (r: seq<Block>)
    ensures forall x :: x in r <==> x == b || x in s
  {
    if s == [] || !less(s[0], b) then [b] + s
    else
      assert forall x :: x in s <==> x == s[0] || x in s[1..];
      [s[0]] + InsertBlock(b, s[1..], less)
  }

  function SortBlocks(s: seq<Block>, less: (Block, Block) -> bool): (r: seq<Block>)
    ensures forall x :: x in r <==> x in s
  {
    if s == [] then []
    else
      assert forall x :: x in s <==> x == s[0] || x in s[1..];
      InsertBlock(s[0], SortBlocks(s[1..], less), less)
  }

  /** Removes adjacent repetitions. */
  function Dedup<T(==, !new)>(s: seq<T>): (r: seq<T>)
    ensures forall x :: x in r <==> x in s
  {
    if |s| < 2 then s
    else
      assert forall x :: x in s <==> x == s[0] || x in s[1..];
      if s[0] == s[1] then assert s[0] == s[1..][0]; Dedup(s[1..]) else [s[0]] + Dedup(s[1..])
  }

  function ReceivedBlocks(rcs: seq<RoundChange>, less: (Block, Block) -> bool): (r: seq<Block>)
    ensures forall b :: b in r <==> exists rc :: rc in rcs && rc.block == Some(b)
  {
    Dedup(SortBlocks(BlocksOf(rcs), less))
  }

  function Payloads(rcs: seq<RoundChange>): (r: seq<SignedRoundChange>)
    ensures forall p :: p in r <==> exists rc :: rc in rcs && rc.payload == p
  {
    if rcs == [] then []
    else
      assert forall rc :: rc in rcs <==> rc == rcs[0] || rc in rcs[1..];
      [rcs[0].payload] + Payloads(rcs[1..])
  }

  // ---- Proposing after a round change ---------------------------------------------

  datatype ProposalJustification =
    ProposalJustification(round: nat, roundChanges: seq<RoundChange>, prepares: seq<SignedPrepare>, block: Block)

  /** The prepares of `ps` at a height and round. */
  function SelectPrepares(ps: seq<SignedPrepare>, height: nat, round: nat): (r: seq<SignedPrepare>)
    ensures forall p :: p in r ==> p in ps && p.unsigned.height == height && p.unsigned.round == round
  {
    if ps == [] then []
    else
      var rest := SelectPrepares(ps[1..], height, round);
      if ps[0].unsigned.height == height && ps[0].unsigned.round == round then [ps[0]] + rest else rest
  }

  /** Prepares of the new round that arrived inside round changes. */
  function ExtraPrepares(rcs: seq<RoundChange>, height: nat, round: nat): (r: seq<SignedPrepare>)
    ensures forall p :: p in r ==> p.unsigned.height == height && p.unsigned.round == round
  {
    if rcs == [] then [] else SelectPrepares(rcs[0].prepares, height, round) + ExtraPrepares(rcs[1..], height, round)
  }

  predicate IsReceivedJustification(
    rcs: seq<RoundChange>, prepares: seq<SignedPrepare>, round: nat, block: Block, s: NodeState)
  {
    && IsProposalJustification(
         Payloads(rcs), prepares + ExtraPrepares(rcs, s.Height(), round),
         ReceivedBlocks(rcs, s.config.blockLess), round, block, s.chain)
    && RoundAcceptable(s, round)
  }

  function FirstJustifiedBlock(
    blocks: seq<Block>, rcs: seq<RoundChange>, prepares: seq<SignedPrepare>, round: nat, s: NodeState)
    : (r: Option<Block>)
    ensures r.Some? ==> r.value in blocks && IsReceivedJustification(rcs, prepares, round, r.value, s)
  {
    if blocks == [] then None
    else if IsReceivedJustification(rcs, prepares, round, blocks[0], s) then Some(blocks[0])
    else FirstJustifiedBlock(blocks[1..], rcs, prepares, round, s)
  }

  /** The highest prepared round claimed together with a prepared value. */
  function HighestClaim(rcs: seq<RoundChange>): (r: Option<nat>) {
    if rcs == [] then None
    else
      var rest := HighestClaim(rcs[1..]);
      var u := rcs[0].payload.unsigned;
      if u.preparedValue.None? || u.preparedRound.None? then rest
      else if rest.None? then u.preparedRound
      else Some(Max(u.preparedRound.value, rest.value))
  }

  /** The prepares the leader attaches: those of the highest claimed round. */
  function LeaderPrepares(s: NodeState, rcs: seq<RoundChange>): (r: seq<SignedPrepare>) {
    match HighestClaim(rcs)
    case None => []
    case Some(pr) => PreparesIn(s.AtRound(pr), s.Height(), pr)
  }

  /** A justification for leading `round`: prepared blocks first, then this node's own. */
  function JustifyRound(s: NodeState, round: nat): (r: Option<ProposalJustification>) {
    if Proposer(round, s.chain) != s.id then None
    else
      var rcs := ValidRoundChangesIn(s.AtRound(round), round, s.chain);
      var prepares := LeaderPrepares(s, rcs);
      match FirstJustifiedBlock(ReceivedBlocks(rcs, s.config.blockLess), rcs, prepares, round, s)
      case Some(b) => Some(ProposalJustification(round, rcs, prepares, b))
      case None =>
        match s.GetNewBlock(round)
        case None => None
        case Some(b) =>
          if IsReceivedJustification(rcs, prepares, round, b, s)
          then Some(ProposalJustification(round, rcs, prepares, b))
          else None
  }

  function CandidateRounds(ms: seq<Message>, s: NodeState): (r: seq<nat>)
    ensures forall x :: x in r ==> RoundAcceptable(s, x) && exists m :: m in ms && m.Round() == x
    ensures forall m :: m in ms && RoundAcceptable(s, m.Round()) ==> m.Round() in r
  {
    if ms == [] then []
    else
      var rest := CandidateRounds(ms[1..], s);
      assert ms[0] in ms;
      assert forall m :: m in ms ==> m == ms[0] || m in ms[1..];
      if RoundAcceptable(s, ms[0].Round()) then [ms[0].Round()] + rest else rest
  }

  function FirstJustifiedRound(s: NodeState, rounds: seq<nat>): (r: Option<ProposalJustification>)
    ensures r.Some? ==> r.value.round in rounds && JustifyRound(s, r.value.round) == r
    ensures r.None? ==> forall x :: x in rounds ==> JustifyRound(s, x).None?
  {
    if rounds == [] then None
    else
      match JustifyRound(s, rounds[0])
      case Some(j) => Some(j)
      case None => FirstJustifiedRound(s, rounds[1..])
  }

  function ReceivedJustification(s: NodeState): (r: Option<ProposalJustification>) {
    FirstJustifiedRound(s, Dedup(CandidateRounds(s.Visible(), s)))
  }

  function LeaderProposal(s: NodeState, j: ProposalJustification): (p: Proposal) {
    var block := Relabel(j.block, j.round, s.chain);
    Proposal(
      SignProposal(UnsignedProposal(s.Height(), j.round, Digest(block)), s.id),
      block,
      Payloads(j.roundChanges),
      j.prepares)
  }

  /** The prepare quorum behind the last prepared block, when it is in view. */
  function RoundChangePrepares(s: NodeState): (r: seq<SignedPrepare>) {
    if s.preparedBlock.None? || s.preparedRound.None? then []
    else
      var ps := PreparesFor(s.Height(), s.preparedRound.value, Digest(s.preparedBlock.value), s.Visible());
      if |ps| >= s.QuorumSize() then ps else []
  }

  function CreateRoundChange(s: NodeState, round: nat): (rc: RoundChange) {
    var value := if s.preparedBlock.Some? then Some(Digest(s.preparedBlock.value)) else None;
    RoundChange(
      SignRoundChange(UnsignedRoundChange(s.Height(), round, value, s.preparedRound), s.id),
      RoundChangePrepares(s),
      s.preparedBlock)
  }

  // ---- New blocks -----------------------------------------------------------------

  function SealAuthors(block: Block): (s: set<Address>) {
    set seal | seal in block.header.commitSeals :: seal.author
  }

  predicate SealsValid(block: Block, validators: seq<Address>) {
    forall seal :: seal in block.header.commitSeals
                   ==> seal.author in validators && seal.Verifies(OfHash(SealHash(block)))
  }

  predicate ValidNewBlock(chain: Chain, nb: SignedNewBlock) {
    var block := nb.block;
    && nb.unsigned.height == block.header.height
    && nb.unsigned.round == block.header.roundNumber
    && nb.unsigned.digest == Digest(block)
    && block.header.height >= chain.Height()
    && block.ValidDigest()
    && |SealAuthors(block)| >= Quorum(|chain.Validators()|)
    && SealsValid(block, chain.Validators())
  }

  /** The last valid new block in the whole store, future heights included. */
  function LastValidNewBlock(ms: seq<Message>, chain: Chain): (r: Option<SignedNewBlock>)
    ensures r.Some? ==> NewBlockMessage(r.value) in ms && ValidNewBlock(chain, r.value)
    ensures r.None? ==> forall nb :: NewBlockMessage(nb) in ms ==> !ValidNewBlock(chain, nb)
    decreases |ms|
  {
    if ms == [] then None
    else
      var last := ms[|ms| - 1];
      if last.NewBlockMessage? && ValidNewBlock(chain, last.newBlock) then Some(last.newBlock)
      else
        assert forall m :: m in ms <==> m == last || m in ms[..|ms| - 1];
        LastValidNewBlock(ms[..|ms| - 1], chain)
  }

  /** Makes `block` the head and starts round 0 of the next height. */
  function AdvanceTo(s: NodeState, block: Block): (s': NodeState) {
    var s1 := s.(chain := s.chain.SetHead(block).SetProposed(None));
    s1.NewRound(0, Max(s1.time, s1.NextBlockTimeout()), None)
  }

  // ---- Transitions ----------------------------------------------------------------

  function UponNewBlock(s: NodeState): (o: Outcome) {
    match LastValidNewBlock(s.messages, s.chain)
    case None => Outcome(s, None)
    case Some(nb) => Outcome(AdvanceTo(s, nb.block).PruneMessages(), Some([]))
  }

  predicate BlockTimeoutReady(s: NodeState) {
    && s.round == 0
    && Proposer(0, s.chain) == s.id
    && s.time >= s.NextBlockTimeout()
    && s.accepted.None?
  }

  function RoundZeroProposal(s: NodeState, block: Block): (p: Proposal) {
    Proposal(SignProposal(UnsignedProposal(s.Height(), 0, Digest(block)), s.id), block, [], [])
  }

  function UponBlockTimeout(s: NodeState): (o: Outcome) {
    if !BlockTimeoutReady(s) || s.GetNewBlock(0).None? then Outcome(s, None)
    else
      var p := RoundZeroProposal(s, s.GetNewBlock(0).value);
      var prepare := SignPrepare(UnsignedPrepare(s.Height(), 0, Digest(p.block)), s.id);
      Outcome(s.(accepted := Some(p), roundStart := s.time),
              Some([ProposalMessage(p), PrepareMessage(prepare)]))
  }

  /** Takes the proposal and votes for it. */
  function AcceptProposal(s: NodeState, p: Proposal): (o: Outcome) {
    var round := p.payload.unsigned.round;
    var prepare := PrepareMessage(SignPrepare(UnsignedPrepare(s.Height(), round, Digest(p.block)), s.id));
    var start := if round > s.round then s.time else s.roundStart;
    Outcome(s.(accepted := Some(p), roundStart := start, round := round).Push(prepare), Some([prepare]))
  }

  function UponProposal(s: NodeState): (o: Outcome) {
    match FirstValidProposal(s.Visible(), s)
    case None => Outcome(s, None)
    case Some(p) => AcceptProposal(s, p)
  }

  predicate HasSentCommit(s: NodeState) {
    exists m :: m in s.Visible() && m.CommitMessage? && m.Height() == s.Height()
                && m.Round() == s.round && m.Author() == s.id
  }

  function CommitVote(s: NodeState, block: Block): (c: SignedCommit) {
    SignCommit(
      UnsignedCommit(s.Height(), s.round, Sign(s.id, OfHash(SealHash(block))), Digest(block)),
      s.id)
  }

  function UponPrepare(s: NodeState): (o: Outcome) {
    if s.accepted.None? then Outcome(s, None)
    else
      var block := s.accepted.value.block;
      var prepares := PreparesFor(s.Height(), s.round, Digest(block), s.Visible());
      if |prepares| < s.QuorumSize() || HasSentCommit(s) then Outcome(s, None)
      else
        var commit := CommitMessage(CommitVote(s, block));
        Outcome(s.(preparedBlock := Some(block), preparedRound := Some(s.round)).Push(commit), Some([commit]))
  }

  function CommitSeals(commits: seq<SignedCommit>): (r: seq<Signature>)
    ensures forall x :: x in r <==> exists c :: c in commits && c.unsigned.commitSeal == x
  {
    if commits == [] then []
    else
      assert forall c :: c in commits <==> c == commits[0] || c in commits[1..];
      [commits[0].unsigned.commitSeal] + CommitSeals(commits[1..])
  }

  /** The block with the seals of the given commits. */
  function SealedBlock(block: Block, commits: seq<SignedCommit>): (b: Block) {
    block.(header := block.header.(commitSeals := CommitSeals(commits)))
  }

  function UponCommit(s: NodeState): (o: Outcome) {
    if s.accepted.None? || !s.IsProposer() then Outcome(s, None)
    else
      var block := s.accepted.value.block;
      var commits := CommitsFor(s.Height(), s.round, Digest(block), s.Visible());
      if |CommitSenders(commits)| < s.QuorumSize() then Outcome(s, None)
      else
        var sealed := SealedBlock(block, commits);
        var message := NewBlockMessage(SignNewBlock(sealed, s.id));
        Outcome(AdvanceTo(s, sealed).Push(message), Some([message]))
  }

  /** Moves to the justified round and proposes in it. */
  function LeadRound(s: NodeState, j: ProposalJustification): (o: Outcome) {
    var message := ProposalMessage(LeaderProposal(s, j));
    var start := if j.round > s.round then s.time else s.roundStart;
    Outcome(s.(roundStart := start, round := j.round, accepted := None).Push(message), Some([message]))
  }

  /** Follows others to a later round. */
  function JoinRound(s: NodeState, round: nat): (o: Outcome) {
    var message := RoundChangeMessage(CreateRoundChange(s, round));
    Outcome(s.(round := round, accepted := None).Push(message), Some([message]))
  }

  function UponRoundChange(s: NodeState): (o: Outcome) {
    match ReceivedJustification(s)
    case Some(j) => LeadRound(s, j)
    case None =>
      var rcs := FutureRoundChanges(s.Visible(), s.Height(), s.round);
      if |RoundChangeSenders(rcs)| <= MaxFaulty(|s.Validators()|) then Outcome(s, None)
      else JoinRound(s, MinRound(rcs))
  }

  /** Round-0 prepare and commit sender counts for the accepted proposal. */
  function RoundZeroProgress(s: NodeState): (r: Option<(nat, nat)>) {
    if s.round != 0 || s.accepted.None? then None
    else
      var digest := Digest(s.accepted.value.block);
      var prepares := PrepareSenders(PreparesFor(s.Height(), 0, digest, s.Visible()));
      var commits := CommitSenders(CommitsFor(s.Height(), 0, digest, s.Visible()));
      Some((|prepares * Elements(s.Validators())|, |commits * Elements(s.Validators())|))
  }

  function UpdateProgress(s: NodeState, prepares: nat, commits: nat): (r: (NodeState, bool)) {
    var progressed := prepares > s.progressPrepares || commits > s.progressCommits;
    if progressed
    then (s.(progressPrepares := prepares, progressCommits := commits, progressTime := s.time), true)
    else (s, false)
  }

  /** Whether to keep waiting in round 0, and the state with its progress marker updated. */
  function DeferRoundZero(s: NodeState): (r: (NodeState, bool)) {
    match RoundZeroProgress(s)
    case None => (s, false)
    case Some((prepares, commits)) =>
      if |s.Validators()| == 0 then (s, false)
      else if prepares < MaxFaulty(|s.Validators()|) + 1 && commits == 0 then (s, false)
      else WaitOn(s, prepares, commits)
  }

  /** Waits while senders come in, and for a grace period after the last. */
  function WaitOn(s: NodeState, prepares: nat, commits: nat): (r: (NodeState, bool)) {
    var (s1, progressed) := UpdateProgress(s, prepares, commits);
    if progressed || Monus(s1.time, s1.progressTime) < Max(s1.config.blockTime, 1)
    then (s1.(roundStart := s1.time), true)
    else (s1, false)
  }

  /** Moves to the next round and announces it. */
  function FireTimeout(s: NodeState): (o: Outcome) {
    Announce(s, RoundChangeMessage(CreateRoundChange(s, s.round + 1)))
  }

  /** Enters the next round with a fresh timer and sends `message`. */
  function Announce(s: NodeState, message: Message): (o: Outcome) {
    Outcome(s.(roundStart := s.time, round := s.round + 1, accepted := None).Push(message), Some([message]))
  }

  function UponRoundTimeout(s: NodeState): (o: Outcome) {
    if !s.config.roundChangeOnFirstBlock && s.Height() == 1 then Outcome(s, None)
    else if s.time < s.NextRoundTimeout() then Outcome(s, None)
    else if s.round == 0 then
      var (s1, deferred) := DeferRoundZero(s);
      if deferred then Outcome(s1, None) else FireTimeout(s1)
    else FireTimeout(s)
  }

  /** The first transition that fires, in priority order. */
  function NextSubStep(s: NodeState): (o: Outcome) {
    var newBlock := UponNewBlock(s);
    if s.id !in s.Validators() || newBlock.sent.Some? then newBlock
    else
      var blockTimeout := UponBlockTimeout(s);
      if blockTimeout.sent.Some? then blockTimeout
      else
        var proposal := UponProposal(s);
        if proposal.sent.Some? then proposal
        else
          var prepare := UponPrepare(s);
          if prepare.sent.Some? then prepare
          else
            var commit := UponCommit(s);
            if commit.sent.Some? then commit
            else
              var roundChange := UponRoundChange(s);
              if roundChange.sent.Some? then roundChange else UponRoundTimeout(s)
  }

  function NodeNext(s: NodeState, time: nat): (o: Outcome) {
    NextSubStep(s.(time := time))
  }

  /** A driver's tick: the node receives what has arrived, then steps. */
  function NodeTick(s: NodeState, incoming: seq<Message>, time: nat): (o: Outcome) {
    NodeNext(AddMessages(s, incoming, time), time)
  }
}
