/** Catching up by block requests and responses. The execution engine is abstract: it
    either accepts a body on top of the canonical chain, which then grows by that body,
    or rejects it. */
module CatchUp {
  import opened Prelude
  import opened Types
  import opened Validators
  import opened Protocol

  const MAX_BLOCKS_PER_RESPONSE: nat := 100

  datatype Stored = Stored(body: Bytes, beneficiary: Address, timestamp: nat, validators: seq<Address>)

  /** What a responder can read from its database. */
  datatype Provider = Provider(best: nat, block: nat -> Option<Stored>)

  datatype Engine = Engine(decodes: Bytes -> bool, accepts: (seq<Bytes>, Bytes) -> bool)

  /** The placeholder of a historical block's signature. */
  const NO_SIGNATURE: Signature := Signature(ZERO_ADDRESS, OfHash(RawHash(0)))

  function ServedBlock(height: nat, b: Stored): (nb: SignedNewBlock) {
    var digest := BodyHash(b.body);
    var header := BlockHeader(b.beneficiary, 0, [], height, b.timestamp, b.validators, digest);
    SignedNewBlock(UnsignedNewBlock(height, 0, digest), NO_SIGNATURE, Block(header, b.body, []))
  }

  predicate IsServed(nb: SignedNewBlock, p: Provider, height: nat) {
    p.block(height).Some? && nb == ServedBlock(height, p.block(height).value)
  }

  /** The last height a response may reach. */
  function LastServed(p: Provider, from: nat, to: nat): (h: nat) {
    Min(Min(to, Min(from + (MAX_BLOCKS_PER_RESPONSE - 1), U64_MAX)), p.best)
  }

  /** The blocks from `from` on, up to the limits or the first one that cannot be read. */
  predicate IsResponse(blocks: seq<SignedNewBlock>, p: Provider, from: nat, to: nat) {
    && |blocks| <= MAX_BLOCKS_PER_RESPONSE
    && (forall i :: 0 <= i < |blocks| ==> IsServed(blocks[i], p, from + i))
    && from + |blocks| <= LastServed(p, from, to) + 1
    && (from + |blocks| == LastServed(p, from, to) + 1 || p.block(from + |blocks|).None?)
  }

  /** Answers a request. There is no answer exactly when the first block asked for is out
      of range or cannot be read. */
  method HandleBlockRequest(p: Provider, from: nat, to: nat) returns (r: Option<seq<SignedNewBlock>>)
    ensures r.Some? <==> from <= LastServed(p, from, to) && p.block(from).Some?
    ensures r.Some? ==> |r.value| > 0 && IsResponse(r.value, p, from, to)
  {
    var to' := Min(to, Min(from + (MAX_BLOCKS_PER_RESPONSE - 1), U64_MAX));
    if from > p.best {
      return None;
    }
    to' := Min(to', p.best);
    var blocks: seq<SignedNewBlock> := [];
    var height := from;
    while height <= to'
      invariant height == from + |blocks| && (from <= to' ==> height <= to' + 1)
      invariant from > to' ==> blocks == []
      invariant forall i :: 0 <= i < |blocks| ==> IsServed(blocks[i], p, from + i)
    {
      var block := p.block(height);
      if block.None? {
        break;
      }
      blocks := blocks + [ServedBlock(height, block.value)];
      height := height + 1;
    }
    if blocks == [] {
      return None;
    }
    assert IsServed(blocks[0], p, from + 0);
    return Some(blocks);
  }

  // ---- Applying a response --------------------------------------------------------

  /** The canonical chain's bodies, genesis first, and the consensus state. */
  datatype Local = Local(chain: seq<Bytes>, node: NodeState) {
    function Best(): nat {
      if chain == [] then 0 else |chain| - 1
    }
  }

  function Adopt(l: Local, nb: SignedNewBlock): (l': Local) {
    var s := l.node.(chain := l.node.chain.SetHead(nb.block).SetProposed(None));
    Local(l.chain + [nb.block.body], s.NewRound(0, s.time, None).PruneMessages())
  }

  /** The block is the next one and can be decoded. */
  predicate Applicable(l: Local, nb: SignedNewBlock, start: nat, e: Engine) {
    nb.unsigned.height > start && nb.unsigned.height == l.Best() + 1 && e.decodes(nb.block.body)
  }

  datatype Applied = Applied(local: Local, count: nat, ok: bool)

  function ApplyOne(a: Applied, nb: SignedNewBlock, start: nat, e: Engine): (a': Applied) {
    if !a.ok || !Applicable(a.local, nb, start, e) then a
    else if !e.accepts(a.local.chain, nb.block.body) then a.(ok := false)
    else Applied(Adopt(a.local, nb), a.count + 1, true)
  }

  /** The effect of the first `k` blocks of a response, how many were adopted, and
      whether none was rejected. `start` is the best height before the response. */
  function ApplyFirst(l: Local, blocks: seq<SignedNewBlock>, start: nat, e: Engine, k: nat): (a: Applied)
    requires k <= |blocks|
  {
    if k == 0 then Applied(l, 0, true)
    else ApplyOne(ApplyFirst(l, blocks, start, e, k - 1), blocks[k - 1], start, e)
  }

  function Apply(l: Local, blocks: seq<SignedNewBlock>, e: Engine): (a: Applied) {
    if blocks == [] then Applied(l, 0, false) else ApplyFirst(l, blocks, l.Best(), e, |blocks|)
  }

  lemma {:induction false} RejectionIsFinal(
    l: Local, blocks: seq<SignedNewBlock>, start: nat, e: Engine, j: nat, k: nat)
    requires j <= k <= |blocks| && !ApplyFirst(l, blocks, start, e, j).ok
    ensures ApplyFirst(l, blocks, start, e, k) == ApplyFirst(l, blocks, start, e, j)
    decreases k
  {
    if j < k {
      RejectionIsFinal(l, blocks, start, e, j, k - 1);
    }
  }

  /** The node's side of an exchange. */
  class Follower {
    var chain: seq<Bytes>
    var node: NodeState

    function Value(): Local
      reads this
    {
      Local(chain, node)
    }

    constructor (chain: seq<Bytes>, node: NodeState)
      ensures Value() == Local(chain, node)
    {
      this.chain := chain;
      this.node := node;
    }

    method HandleBlockResponse(blocks: seq<SignedNewBlock>, e: Engine) returns (ok: bool)
      modifies this
      ensures Value() == Apply(old(Value()), blocks, e).local
      ensures ok == Apply(old(Value()), blocks, e).ok
    {
      if blocks == [] {
        return false;
      }
      ghost var l := Value();
      var start := Value().Best();
      for i := 0 to |blocks|
        invariant ApplyFirst(l, blocks, start, e, i).ok
        invariant Value() == ApplyFirst(l, blocks, start, e, i).local
      {
        var nb := blocks[i];
        var height := nb.unsigned.height;
        if height <= start {
          continue;
        }
        var best := Value().Best();
        if height != best + 1 {
          continue;
        }
        if !e.decodes(nb.block.body) {
          continue;
        }
        if !e.accepts(chain, nb.block.body) {
          RejectionIsFinal(l, blocks, start, e, i + 1, |blocks|);
          return false;
        }
        chain := chain + [nb.block.body];
        node := node.(chain := node.chain.SetHead(nb.block).SetProposed(None));
        node := node.NewRound(0, node.time, None).PruneMessages();
      }
      return true;
    }
  }

  // ---- What any response does -----------------------------------------------------

  /** Body `h` of the new chain came with a block that names height `h`. */
  predicate CameFrom(chain: seq<Bytes>, h: nat, blocks: seq<SignedNewBlock>) {
    h < |chain| && exists nb :: nb in blocks && nb.unsigned.height == h && nb.block.body == chain[h]
  }

  /** Whatever the response, the chain only grows, one height after the other, by bodies
      the response named for exactly those heights. */
  lemma {:induction false} GrowsContiguously(l: Local, blocks: seq<SignedNewBlock>, start: nat, e: Engine, k: nat)
    requires k <= |blocks| && l.chain != []
    ensures var a := ApplyFirst(l, blocks, start, e, k);
            && l.chain <= a.local.chain && |a.local.chain| == |l.chain| + a.count
            && forall h :: |l.chain| <= h < |a.local.chain| ==> CameFrom(a.local.chain, h, blocks)
    decreases k
  {
    if k > 0 {
      GrowsContiguously(l, blocks, start, e, k - 1);
      var b, a := ApplyFirst(l, blocks, start, e, k - 1), ApplyFirst(l, blocks, start, e, k);
      forall h | |l.chain| <= h < |a.local.chain|
        ensures CameFrom(a.local.chain, h, blocks)
      {
        if h < |b.local.chain| {
          assert CameFrom(b.local.chain, h, blocks);
          assert a.local.chain[h] == b.local.chain[h];
        } else {
          assert blocks[k - 1] in blocks;
        }
      }
    }
  }

  /** The consensus head is at the height of the canonical chain. */
  predicate InSync(l: Local) {
    l.chain != [] && l.node.chain.head.header.height == l.Best()
  }

  /** The last block a response added, if any. */
  function LastAdopted(l: Local, blocks: seq<SignedNewBlock>, start: nat, e: Engine, k: nat)
    : (r: Option<SignedNewBlock>)
    requires k <= |blocks|
  {
    if k == 0 then None
    else
      var a := ApplyFirst(l, blocks, start, e, k - 1);
      var nb := blocks[k - 1];
      if a.ok && Applicable(a.local, nb, start, e) && e.accepts(a.local.chain, nb.block.body) then Some(nb)
      else LastAdopted(l, blocks, start, e, k - 1)
  }

  /** The height inside a block's header is not compared with the height in its payload,
      so the consensus head stays at the canonical height exactly when the last adopted
      block carries the same height in both. An adopted block starts round 0 afresh. */
  lemma {:induction false} SyncIff(l: Local, blocks: seq<SignedNewBlock>, start: nat, e: Engine, k: nat)
    requires k <= |blocks| && InSync(l)
    ensures var a := ApplyFirst(l, blocks, start, e, k).local;
            match LastAdopted(l, blocks, start, e, k)
            case None => a == l
            case Some(nb) =>
              && (InSync(a) <==> nb.block.header.height == nb.unsigned.height)
              && a.Best() == nb.unsigned.height && a.node.chain.head == nb.block
              && a.node.round == 0 && a.node.accepted.None? && a.node.chain.proposed.None?
              && a.node.preparedBlock.None? && a.node.preparedRound.None?
    decreases k
  {
    if k > 0 {
      SyncIff(l, blocks, start, e, k - 1);
      GrowsContiguously(l, blocks, start, e, k - 1);
    }
  }

  /** A response can take the consensus head off the chain's height: any block the engine
      takes, sent under the next height, with any other height in its header. */
  lemma HeadLeavesChain(l: Local, nb: SignedNewBlock, e: Engine)
    requires InSync(l) && e.decodes(nb.block.body) && e.accepts(l.chain, nb.block.body)
    requires nb.unsigned.height == l.Best() + 1 && nb.block.header.height != l.Best() + 1
    ensures var a := Apply(l, [nb], e); a.ok && a.count == 1 && a.local.chain == l.chain + [nb.block.body]
    ensures var a := Apply(l, [nb], e); !InSync(a.local) && a.local.node.Height() == nb.block.header.height + 1
  {
    assert ApplyFirst(l, [nb], l.Best(), e, 0) == Applied(l, 0, true);
    assert [nb][0] == nb;
  }

  // ---- Convergence ----------------------------------------------------------------

  /** The responder holds a full chain. */
  predicate Holds(p: Provider, bodies: seq<Bytes>) {
    && bodies != [] && p.best == |bodies| - 1 <= U64_MAX
    && forall h :: 0 <= h < |bodies| ==> p.block(h).Some? && p.block(h).value.body == bodies[h]
  }

  /** The engine accepts each of its blocks on top of the ones before. */
  predicate Willing(e: Engine, bodies: seq<Bytes>) {
    forall h :: 0 < h < |bodies| ==> e.decodes(bodies[h]) && e.accepts(bodies[..h], bodies[h])
  }

  lemma AdoptsNext(a: Applied, nb: SignedNewBlock, p: Provider, bodies: seq<Bytes>, e: Engine, start: nat)
    requires Holds(p, bodies) && Willing(e, bodies) && InSync(a.local) && a.local.chain <= bodies
    requires a.ok && start <= a.local.Best() < p.best && IsServed(nb, p, a.local.Best() + 1)
    ensures var a' := ApplyOne(a, nb, start, e);
            a'.ok && InSync(a'.local) && a'.local.chain <= bodies && |a'.local.chain| == |a.local.chain| + 1
  {
    var h := a.local.Best() + 1;
    assert bodies[..h] == a.local.chain;
    assert Applicable(a.local, nb, start, e) && e.accepts(bodies[..h], bodies[h]);
  }

  /** Every block of a contiguous, acceptable response is adopted. */
  lemma {:induction false} AdoptsAll(
    l: Local, blocks: seq<SignedNewBlock>, p: Provider, bodies: seq<Bytes>, e: Engine, to: nat, k: nat)
    requires Holds(p, bodies) && Willing(e, bodies) && InSync(l) && l.chain <= bodies
    requires IsResponse(blocks, p, l.Best() + 1, to) && k <= |blocks|
    ensures var a := ApplyFirst(l, blocks, l.Best(), e, k);
            a.ok && InSync(a.local) && |a.local.chain| == |l.chain| + k && a.local.chain <= bodies
    decreases k
  {
    if k > 0 {
      AdoptsAll(l, blocks, p, bodies, e, to, k - 1);
      var a := ApplyFirst(l, blocks, l.Best(), e, k - 1);
      assert IsServed(blocks[k - 1], p, l.Best() + 1 + (k - 1));
      AdoptsNext(a, blocks[k - 1], p, bodies, e, l.Best());
    }
  }

  /** The request a node makes when it has heard of a block at `highest`. */
  function Request(l: Local, highest: nat): (r: Option<(nat, nat)>) {
    if highest > l.Best() + 1 then Some((l.Best() + 1, highest)) else None
  }

  /** A response to the request `l` makes, as any responder that meets the contract of
      `HandleBlockRequest` would give it. */
  ghost predicate Exchange(l: Local, l': Local, p: Provider, e: Engine, highest: nat) {
    match Request(l, highest)
    case None => l' == l
    case Some((from, to)) =>
      if from <= LastServed(p, from, to) && p.block(from).Some?
      then exists blocks :: |blocks| > 0 && IsResponse(blocks, p, from, to) && l' == Apply(l, blocks, e).local
      else l' == l
  }

  /** One exchange gains up to a hundred blocks, unless the node is just one block behind
      the highest it has heard of, when it asks for nothing. */
  lemma OneExchange(l: Local, l': Local, p: Provider, bodies: seq<Bytes>, e: Engine, highest: nat)
    requires Holds(p, bodies) && Willing(e, bodies) && InSync(l)
    requires p.best <= highest && l.chain <= bodies
    requires Exchange(l, l', p, e, highest)
    ensures InSync(l') && l'.chain <= bodies
    ensures l'.Best() == if highest > l.Best() + 1 then Min(l.Best() + MAX_BLOCKS_PER_RESPONSE, p.best) else l.Best()
  {
    if highest > l.Best() + 1 && l.Best() < p.best {
      var from := l.Best() + 1;
      var blocks :| |blocks| > 0 && IsResponse(blocks, p, from, highest) && l' == Apply(l, blocks, e).local;
      ResponseIsFull(blocks, p, bodies, from, highest);
      AdoptsAll(l, blocks, p, bodies, e, highest, |blocks|);
    }
  }

  lemma ResponseIsFull(blocks: seq<SignedNewBlock>, p: Provider, bodies: seq<Bytes>, from: nat, to: nat)
    requires Holds(p, bodies) && from <= p.best <= to && IsResponse(blocks, p, from, to)
    ensures from + |blocks| == LastServed(p, from, to) + 1
    ensures from + |blocks| == Min(from - 1 + MAX_BLOCKS_PER_RESPONSE, p.best) + 1
  {
    if from + |blocks| <= p.best {
      assert p.block(from + |blocks|).Some?;
    }
  }

  /** Successive states of a node that repeats the exchange. */
  ghost predicate Exchanges(ls: seq<Local>, p: Provider, e: Engine, highest: nat) {
    && |ls| > 0
    && forall i :: 0 <= i < |ls| - 1 ==> Exchange(ls[i], ls[i + 1], p, e, highest)
  }

  /** Where a node that starts at `from` stops asking: at the responder's best block, or
      one short of it when that is the highest block heard of and one would be left over. */
  function Goal(from: nat, best: nat, highest: nat): (h: nat)
    requires from <= best
  {
    if highest == best && (best - from) % MAX_BLOCKS_PER_RESPONSE == 1 then best - 1 else best
  }

  lemma TowardsGoal(from: nat, best: nat, highest: nat, k: nat, x: nat)
    requires from <= best <= highest
    requires x == Min(from + MAX_BLOCKS_PER_RESPONSE * k, Goal(from, best, highest))
    ensures (if highest > x + 1 then Min(x + MAX_BLOCKS_PER_RESPONSE, best) else x)
         == Min(from + MAX_BLOCKS_PER_RESPONSE * (k + 1), Goal(from, best, highest))
  {
  }

  /** A node on the responder's chain, and the exchanges it repeats. */
  ghost predicate Following(ls: seq<Local>, p: Provider, bodies: seq<Bytes>, e: Engine, highest: nat) {
    && Holds(p, bodies) && Willing(e, bodies) && p.best <= highest
    && Exchanges(ls, p, e, highest) && InSync(ls[0]) && ls[0].chain <= bodies
  }

  lemma {:induction false} AfterExchanges(
    ls: seq<Local>, p: Provider, bodies: seq<Bytes>, e: Engine, highest: nat, k: nat)
    requires Following(ls, p, bodies, e, highest) && k < |ls|
    ensures InSync(ls[k]) && ls[k].chain <= bodies && ls[0].Best() <= p.best
    ensures ls[k].Best() == Min(ls[0].Best() + MAX_BLOCKS_PER_RESPONSE * k, Goal(ls[0].Best(), p.best, highest))
    decreases k
  {
    if k > 0 {
      AfterExchanges(ls, p, bodies, e, highest, k - 1);
      assert Exchange(ls[k - 1], ls[k - 1 + 1], p, e, highest);
      OneExchange(ls[k - 1], ls[k], p, bodies, e, highest);
      TowardsGoal(ls[0].Best(), p.best, highest, k - 1, ls[k - 1].Best());
    }
  }

  /** Catch-up converges: repeated exchanges take the node to the responder's chain in a
      hundredth of the gap, rounded up. The one exception is a node that has heard of no
      block above the responder's best and whose gap is one more than a multiple of a
      hundred: it stops one block short. */
  lemma CatchUpConverges(ls: seq<Local>, p: Provider, bodies: seq<Bytes>, e: Engine, highest: nat, gap: nat)
    requires Following(ls, p, bodies, e, highest)
    requires gap == |bodies| - |ls[0].chain|
    requires |ls| > (gap + (MAX_BLOCKS_PER_RESPONSE - 1)) / MAX_BLOCKS_PER_RESPONSE
    ensures var last := ls[|ls| - 1];
            && (last.chain == bodies <==> highest > p.best || gap % MAX_BLOCKS_PER_RESPONSE != 1)
            && (last.chain != bodies ==> last.chain == bodies[..p.best])
  {
    AfterExchanges(ls, p, bodies, e, highest, |ls| - 1);
  }

  /** The exception happens: a node just one block behind, that has heard of no higher
      block, never asks for it, however often it tries. */
  lemma StaysOneShort(l: Local, p: Provider, bodies: seq<Bytes>, e: Engine, n: nat) returns (ls: seq<Local>)
    requires Holds(p, bodies) && Willing(e, bodies) && InSync(l) && p.best > 0 && l.chain == bodies[..p.best]
    ensures |ls| == n + 1 && ls[0] == l && Following(ls, p, bodies, e, p.best)
    ensures ls[n].chain != bodies
  {
    ls := seq(n + 1, _ => l);
    forall i | 0 <= i < |ls| - 1 ensures Exchange(ls[i], ls[i + 1], p, e, p.best) {
      assert Request(ls[i], p.best) == None;
    }
  }

  /** Two blocks, of which the node has the first. */
  lemma OneShortExists() returns (l: Local, p: Provider, bodies: seq<Bytes>, e: Engine)
    ensures Holds(p, bodies) && Willing(e, bodies) && InSync(l) && p.best > 0 && l.chain == bodies[..p.best]
  {
    bodies := [[0], [1]];
    p := Provider(1, (h: nat) => Some(Stored([h], ZERO_ADDRESS, h, [])));
    e := Engine(_ => true, (_, _) => true);
    var genesis := ServedBlock(0, p.block(0).value).block;
    l := Local([[0]], InitialState(1, Config(1, true, _ => 1, (_, _) => false), Chain([], genesis, None), 0));
  }
}
