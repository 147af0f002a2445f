/** Quorum arithmetic, the local chain and leader rotation. */
module Validators {
  import opened Prelude
  import opened Types

  /** The number of faulty validators tolerated among `n`. */
  function MaxFaulty(n: nat): (f: nat) {
    if n == 0 then 0 else (n - 1) / 3
  }

  /** The quorum size. With no validators the unsigned subtraction wraps around. */
  function Quorum(n: nat): (q: nat) {
    if n == 0 then 0xFFFF_FFFF_FFFF_FFFF / 3 + 1 else (2 * n - 1) / 3 + 1
  }

  /** A quorum is the least size that any two of which share more than `MaxFaulty(n)`
      members, and the non-faulty validators alone are enough to make one. */
  lemma QuorumBounds(n: nat)
    requires n > 0
    ensures 2 * Quorum(n) > n + MaxFaulty(n)
    ensures 2 * (Quorum(n) - 1) <= n + MaxFaulty(n)
    ensures MaxFaulty(n) < Quorum(n) <= n - MaxFaulty(n)
  {
  }

  /** The local chain: its head, the blocks kept below it (oldest first) and the
      block this node would propose next. */
  datatype Chain = Chain(older: seq<Block>, head: Block, proposed: Option<Block>) {
    function Height(): nat {
      head.header.height + 1
    }

    function Validators(): seq<Address> {
      head.header.validators
    }

    function SetHead(block: Block): Chain {
      Chain(older + [head], block, proposed)
    }

    function SetProposed(block: Option<Block>): Chain {
      this.(proposed := block)
    }

    /** Keeps the last 32 blocks. */
    function Prune(): Chain {
      if |older| + 1 > MAX_BLOCKS then this.(older := older[|older| + 1 - MAX_BLOCKS..]) else this
    }
  }

  const MAX_BLOCKS: nat := 32

  /** The first index of `a` in `s`, if any. */
  function Position(s: seq<Address>, a: Address): (r: Option<nat>)
    ensures r.Some? ==> r.value < |s| && s[r.value] == a && a !in s[..r.value]
    ensures r.None? <==> a !in s
  {
    if s == [] then None
    else if s[0] == a then Some(0)
    else
      match Position(s[1..], a)
      case None => None
      case Some(i) =>
        assert s[..i + 1] == [s[0]] + s[1..][..i];
        Some(i + 1)
  }

  /** Where the rotation starts at the chain's height. */
  function RoundZeroIndex(chain: Chain): (i: nat) {
    if chain.Height() == 1 then 0
    else
      match Position(chain.Validators(), chain.head.header.proposer)
      case None => 0
      case Some(idx) => idx + 1
  }

  /** The leader of `round` on top of `chain`. */
  function Proposer(round: nat, chain: Chain): (a: Address)
    ensures |chain.Validators()| > 0 ==> a in chain.Validators()
  {
    var validators := chain.Validators();
    if |validators| == 0 then ZERO_ADDRESS
    else validators[(RoundZeroIndex(chain) + round) % |validators|]
  }
}
