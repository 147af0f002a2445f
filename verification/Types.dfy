/** The blocks, payloads and messages of the protocol.

    Cryptography is symbolic. A hash is the term that was hashed, so it is
    injective by construction; a signature records its author and the payload that
    was signed, so it verifies for that payload and for no other. */
module Types {
  import opened Prelude

  type Address = nat
  type Bytes = seq<nat>

  const ZERO_ADDRESS: Address := 0

  datatype Hash =
    | HeaderHash(header: BlockHeader)
    | BodyHash(body: Bytes)
    | RawHash(bits: nat)

  datatype BlockHeader = BlockHeader(
    proposer: Address,
    roundNumber: nat,
    commitSeals: seq<Signature>,
    height: nat,
    timestamp: nat,
    validators: seq<Address>,
    digest: Hash)

  datatype Block = Block(header: BlockHeader, body: Bytes, transactions: seq<Bytes>) {
    /** The header's digest field is the hash of the body. */
    predicate ValidDigest() {
      header.digest == BodyHash(body)
    }
  }

  datatype UnsignedProposal = UnsignedProposal(height: nat, round: nat, digest: Hash)
  datatype UnsignedPrepare = UnsignedPrepare(height: nat, round: nat, digest: Hash)
  datatype UnsignedCommit = UnsignedCommit(height: nat, round: nat, commitSeal: Signature, digest: Hash)
  datatype UnsignedNewBlock = UnsignedNewBlock(height: nat, round: nat, digest: Hash)
  datatype UnsignedRoundChange =
    UnsignedRoundChange(height: nat, round: nat, preparedValue: Option<Hash>, preparedRound: Option<nat>)

  /** What a signature can be over. */
  datatype Payload =
    | OfProposal(proposal: UnsignedProposal)
    | OfPrepare(prepare: UnsignedPrepare)
    | OfCommit(commit: UnsignedCommit)
    | OfRoundChange(roundChange: UnsignedRoundChange)
    | OfNewBlock(newBlock: UnsignedNewBlock)
    | OfHash(hash: Hash)

  datatype Signature = Signature(author: Address, payload: Payload) {
    predicate Verifies(p: Payload) {
      payload == p
    }
  }

  datatype SignedProposal = SignedProposal(unsigned: UnsignedProposal, signature: Signature)
  datatype SignedPrepare = SignedPrepare(unsigned: UnsignedPrepare, signature: Signature)
  datatype SignedCommit = SignedCommit(unsigned: UnsignedCommit, signature: Signature)
  datatype SignedRoundChange = SignedRoundChange(unsigned: UnsignedRoundChange, signature: Signature)
  datatype SignedNewBlock = SignedNewBlock(unsigned: UnsignedNewBlock, signature: Signature, block: Block)

  datatype Proposal = Proposal(
    payload: SignedProposal,
    block: Block,
    roundChanges: seq<SignedRoundChange>,
    prepares: seq<SignedPrepare>)

  datatype RoundChange = RoundChange(
    payload: SignedRoundChange,
    prepares: seq<SignedPrepare>,
    block: Option<Block>)

  /** Consensus messages. Block requests and responses are routed to their own
      handlers before the consensus state sees them. */
  datatype Message =
    | ProposalMessage(proposal: Proposal)
    | PrepareMessage(prepare: SignedPrepare)
    | CommitMessage(commit: SignedCommit)
    | RoundChangeMessage(roundChange: RoundChange)
    | NewBlockMessage(newBlock: SignedNewBlock)
  {
    function Height(): nat {
      match this
      case ProposalMessage(p) => p.payload.unsigned.height
      case PrepareMessage(p) => p.unsigned.height
      case CommitMessage(c) => c.unsigned.height
      case RoundChangeMessage(rc) => rc.payload.unsigned.height
      case NewBlockMessage(nb) => nb.unsigned.height
    }

    function Round(): nat {
      match this
      case ProposalMessage(p) => p.payload.unsigned.round
      case PrepareMessage(p) => p.unsigned.round
      case CommitMessage(c) => c.unsigned.round
      case RoundChangeMessage(rc) => rc.payload.unsigned.round
      case NewBlockMessage(nb) => nb.unsigned.round
    }

    function Kind(): nat {
      match this
      case ProposalMessage(_) => 0
      case PrepareMessage(_) => 1
      case CommitMessage(_) => 2
      case RoundChangeMessage(_) => 3
      case NewBlockMessage(_) => 4
    }

    function Author(): Address {
      match this
      case ProposalMessage(p) => p.payload.signature.author
      case PrepareMessage(p) => p.signature.author
      case CommitMessage(c) => c.signature.author
      case RoundChangeMessage(rc) => rc.payload.signature.author
      case NewBlockMessage(nb) => nb.signature.author
    }

    /** The sort and deduplication key. */
    function SortKey(): Key {
      Key(Height(), Round(), Kind(), Author())
    }
  }

  datatype Key = Key(height: nat, round: nat, kind: nat, author: Address) {
    /** Lexicographic order. */
    predicate Less(other: Key) {
      || height < other.height
      || (height == other.height
          && (|| round < other.round
              || (round == other.round
                  && (|| kind < other.kind
                      || (kind == other.kind && author < other.author)))))
    }
  }

  /** The hash of the block header, commit seals included. */
  function Digest(block: Block): (d: Hash) {
    HeaderHash(block.header)
  }

  /** What commit seals sign: the header without any commit seals. */
  function SealHash(block: Block): (d: Hash) {
    HeaderHash(block.header.(commitSeals := []))
  }

  function ReplaceRound(block: Block, round: nat): (b: Block) {
    block.(header := block.header.(roundNumber := round))
  }

  /** The header with its round number and proposer erased: what two relabellings
      of one block have in common. */
  function Core(block: Block): (h: BlockHeader) {
    block.header.(roundNumber := 0, proposer := ZERO_ADDRESS)
  }

  function Sign(author: Address, payload: Payload): (s: Signature) {
    Signature(author, payload)
  }

  function SignProposal(u: UnsignedProposal, id: Address): (s: SignedProposal) {
    SignedProposal(u, Sign(id, OfProposal(u)))
  }

  function SignPrepare(u: UnsignedPrepare, id: Address): (s: SignedPrepare) {
    SignedPrepare(u, Sign(id, OfPrepare(u)))
  }

  function SignCommit(u: UnsignedCommit, id: Address): (s: SignedCommit) {
    SignedCommit(u, Sign(id, OfCommit(u)))
  }

  function SignRoundChange(u: UnsignedRoundChange, id: Address): (s: SignedRoundChange) {
    SignedRoundChange(u, Sign(id, OfRoundChange(u)))
  }

  function SignNewBlock(block: Block, id: Address): (s: SignedNewBlock) {
    var u := UnsignedNewBlock(block.header.height, block.header.roundNumber, Digest(block));
    SignedNewBlock(u, Sign(id, OfNewBlock(u)), block)
  }
}
