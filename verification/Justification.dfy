/** When a proposal is justified: the rule shared by the leader that builds a
    proposal after a round change and the nodes that check it. */
module Justification {
  import opened Prelude
  import opened Types
  import opened Validators

  function RoundChangeSenders(rcs: seq<SignedRoundChange>): (s: set<Address>) {
    set rc | rc in rcs :: rc.signature.author
  }

  function PrepareSenders(prepares: seq<SignedPrepare>): (s: set<Address>) {
    set p | p in prepares :: p.signature.author
  }

  predicate ValidRoundChange(rc: SignedRoundChange, height: nat, round: nat, validators: seq<Address>) {
    var u := rc.unsigned;
    && u.height == height
    && u.round == round
    && (if u.preparedRound.None? && u.preparedValue.None? then true
        else if u.preparedRound.Some? && u.preparedValue.Some? then u.preparedRound.value < round
        else false)
    && rc.signature.author in validators
  }

  predicate ValidSignedPrepare(p: SignedPrepare, height: nat, round: nat, digest: Hash, validators: seq<Address>) {
    && p.unsigned.height == height
    && p.unsigned.round == round
    && p.unsigned.digest == digest
    && p.signature.author in validators
  }

  predicate ValidateNonPreparedBlock(block: Block, chain: Chain, round: nat) {
    && block.header.proposer == Proposer(round, chain)
    && |block.header.validators| > 0
  }

  /** The block as the leader of `round` would have labelled it. */
  function Relabel(block: Block, round: nat, chain: Chain): (b: Block) {
    var b := ReplaceRound(block, round);
    b.(header := b.header.(proposer := Proposer(round, chain)))
  }

  /** The round change says its sender prepared this very block in round `pr`. */
  predicate Claims(rc: SignedRoundChange, block: Block, chain: Chain, pr: nat) {
    && rc.unsigned.preparedRound == Some(pr)
    && rc.unsigned.preparedValue == Some(Digest(Relabel(block, pr, chain)))
  }

  function Supporters(rcs: seq<SignedRoundChange>, block: Block, chain: Chain, pr: nat): (s: set<Address>) {
    set rc | rc in rcs && Claims(rc, block, chain, pr) :: rc.signature.author
  }

  /** At least one honest validator is among the supporters. */
  predicate Backed(rcs: seq<SignedRoundChange>, block: Block, chain: Chain, pr: nat) {
    |Supporters(rcs, block, chain, pr)| >= MaxFaulty(|chain.Validators()|) + 1
  }

  lemma BackedHasClaim(rcs: seq<SignedRoundChange>, block: Block, chain: Chain, pr: nat) returns (rc: SignedRoundChange)
    requires Backed(rcs, block, chain, pr)
    ensures rc in rcs && Claims(rc, block, chain, pr)
  {
    var s := Supporters(rcs, block, chain, pr);
    assert s != {};
    var a :| a in s;
    rc :| rc in rcs && Claims(rc, block, chain, pr) && rc.signature.author == a;
  }

  /** The highest backed prepared round among those named in `candidates`. */
  function HighestBacked(candidates: seq<SignedRoundChange>, rcs: seq<SignedRoundChange>, block: Block, chain: Chain)
    : (r: Option<nat>)
    ensures r.Some? ==> Backed(rcs, block, chain, r.value)
    ensures forall rc :: rc in candidates && rc.unsigned.preparedRound.Some?
                         && Backed(rcs, block, chain, rc.unsigned.preparedRound.value)
                         ==> r.Some? && rc.unsigned.preparedRound.value <= r.value
  {
    if candidates == [] then None
    else
      var rest := HighestBacked(candidates[1..], rcs, block, chain);
      var u := candidates[0].unsigned;
      assert forall rc :: rc in candidates ==> rc == candidates[0] || rc in candidates[1..];
      if u.preparedRound.None? || !Backed(rcs, block, chain, u.preparedRound.value) then rest
      else if rest.Some? && rest.value > u.preparedRound.value then rest
      else u.preparedRound
  }

  /** `HighestBacked` over all the round changes is the maximum, and is absent only
      when no round is backed. */
  lemma HighestBackedIsMaximum(rcs: seq<SignedRoundChange>, block: Block, chain: Chain, pr: nat)
    requires Backed(rcs, block, chain, pr)
    ensures var h := HighestBacked(rcs, rcs, block, chain); h.Some? && pr <= h.value
  {
    var rc := BackedHasClaim(rcs, block, chain, pr);
    assert rc.unsigned.preparedRound.value == pr;
  }

  /** A proposal falls through to the rule for new blocks exactly when no prepared round has
      `f + 1` senders for this very block, whatever they announce for other blocks. */
  lemma FallsThroughIff(rcs: seq<SignedRoundChange>, block: Block, chain: Chain)
    ensures HighestBacked(rcs, rcs, block, chain).None? <==> forall pr :: !Backed(rcs, block, chain, pr)
  {
    var highest := HighestBacked(rcs, rcs, block, chain);
    if highest.None? {
      forall pr: nat
        ensures !Backed(rcs, block, chain, pr)
      {
        if Backed(rcs, block, chain, pr) {
          HighestBackedIsMaximum(rcs, block, chain, pr);
        }
      }
    }
  }

  /** A new block by the leader of `round` itself. */
  predicate FreshBlock(block: Block, round: nat, chain: Chain) {
    && ValidateNonPreparedBlock(block, chain, round)
    && block.header.roundNumber == round
    && block.header.height == chain.Height()
    && block.header.proposer == Proposer(round, chain)
  }

  /** The block prepared in round `pr`, with the certificates for it. */
  predicate PreparedBlock(
    rcs: seq<SignedRoundChange>, prepares: seq<SignedPrepare>, available: seq<Block>,
    block: Block, chain: Chain, pr: nat)
  {
    var q := Quorum(|chain.Validators()|);
    && (exists b :: b in available
                    && b.header.roundNumber == block.header.roundNumber && Digest(b) == Digest(block))
    && block.header.height == chain.Height()
    && |Supporters(rcs, block, chain, pr)| >= q
    && |PrepareSenders(prepares)| >= q
    && (exists rc :: rc in rcs && Claims(rc, block, chain, pr)
                     && forall p :: p in prepares
                          ==> ValidSignedPrepare(
                                p, chain.Height(), pr, rc.unsigned.preparedValue.value, chain.Validators()))
  }

  /** The quorum of round changes that every proposal above round 0 must carry. */
  predicate RoundChangeQuorum(rcs: seq<SignedRoundChange>, round: nat, chain: Chain) {
    && |RoundChangeSenders(rcs)| >= Quorum(|chain.Validators()|)
    && forall rc :: rc in rcs ==> ValidRoundChange(rc, chain.Height(), round, chain.Validators())
  }

  predicate IsProposalJustification(
    rcs: seq<SignedRoundChange>, prepares: seq<SignedPrepare>, available: seq<Block>,
    round: nat, block: Block, chain: Chain)
  {
    if round == 0 then FreshBlock(block, 0, chain)
    else
      && RoundChangeQuorum(rcs, round, chain)
      && match HighestBacked(rcs, rcs, block, chain)
         case Some(pr) => PreparedBlock(rcs, prepares, available, block, chain, pr)
         case None => FreshBlock(block, round, chain)
  }

  /** The rule as the code evaluates it: one pass groups the matching round changes by
      prepared round, a second picks the highest group with enough senders. */
  method CheckJustification(
    rcs: seq<SignedRoundChange>, prepares: seq<SignedPrepare>, available: seq<Block>,
    round: nat, block: Block, chain: Chain) returns (ok: bool)
    ensures ok == IsProposalJustification(rcs, prepares, available, round, block, chain)
  {
    if round == 0 {
      return FreshBlock(block, 0, chain);
    }
    if |RoundChangeSenders(rcs)| < Quorum(|chain.Validators()|) {
      return false;
    }
    if !(forall rc :: rc in rcs ==> ValidRoundChange(rc, chain.Height(), round, chain.Validators())) {
      return false;
    }
    var support := GroupByPreparedRound(rcs, block, chain);
    var highest := HighestGroup(support, rcs, block, chain);
    if highest.Some? {
      ok := PreparedBlock(rcs, prepares, available, block, chain, highest.value);
    } else {
      ok := FreshBlock(block, round, chain);
    }
  }

  /** `support` holds exactly the matching round changes, by prepared round. */
  ghost predicate Groups(
    support: map<nat, seq<SignedRoundChange>>, rcs: seq<SignedRoundChange>, block: Block, chain: Chain)
  {
    && (forall pr :: pr in support ==> Elements(support[pr]) == Matching(rcs, block, chain, pr))
    && (forall pr :: pr !in support ==> Matching(rcs, block, chain, pr) == {})
  }

  method GroupByPreparedRound(rcs: seq<SignedRoundChange>, block: Block, chain: Chain)
    returns (support: map<nat, seq<SignedRoundChange>>)
    ensures Groups(support, rcs, block, chain)
  {
    support := map[];
    for i := 0 to |rcs|
      invariant Groups(support, rcs[..i], block, chain)
    {
      var rc := rcs[i];
      assert rcs[..i + 1] == rcs[..i] + [rc];
      ghost var before := support;
      if rc.unsigned.preparedRound.Some? && rc.unsigned.preparedValue.Some? {
        var preparedRound := rc.unsigned.preparedRound.value;
        if Digest(Relabel(block, preparedRound, chain)) == rc.unsigned.preparedValue.value {
          var group := if preparedRound in support then support[preparedRound] else [];
          assert Elements(group + [rc]) == Elements(group) + {rc};
          support := support[preparedRound := group + [rc]];
        }
      }
      forall pr ensures Matching(rcs[..i + 1], block, chain, pr)
                     == Matching(rcs[..i], block, chain, pr) + (if Claims(rc, block, chain, pr) then {rc} else {}) {
        MatchingAppend(rcs[..i], rc, block, chain, pr);
      }
    }
    assert rcs[..|rcs|] == rcs;
  }

  method HighestGroup(
    support: map<nat, seq<SignedRoundChange>>, ghost rcs: seq<SignedRoundChange>, block: Block, chain: Chain)
    returns (highest: Option<nat>)
    requires Groups(support, rcs, block, chain)
    ensures highest == HighestBacked(rcs, rcs, block, chain)
  {
    highest := None;
    var rounds := support.Keys;
    while rounds != {}
      invariant rounds <= support.Keys
      invariant highest.Some? ==> Backed(rcs, block, chain, highest.value)
      invariant forall pr :: pr in support.Keys - rounds && Backed(rcs, block, chain, pr)
                             ==> highest.Some? && pr <= highest.value
      decreases rounds
    {
      var pr :| pr in rounds;
      rounds := rounds - {pr};
      MatchingSenders(support[pr], rcs, block, chain, pr);
      if |RoundChangeSenders(support[pr])| >= MaxFaulty(|chain.Validators()|) + 1 {
        if highest.None? || highest.value < pr {
          highest := Some(pr);
        }
      }
    }
    ghost var expected := HighestBacked(rcs, rcs, block, chain);
    if expected.Some? {
      ghost var rc := BackedHasClaim(rcs, block, chain, expected.value);
      assert rc in Matching(rcs, block, chain, expected.value);
      assert expected.value in support.Keys - rounds;
    }
    if highest.Some? {
      HighestBackedIsMaximum(rcs, block, chain, highest.value);
    }
  }

  lemma MatchingAppend(rcs: seq<SignedRoundChange>, rc: SignedRoundChange, block: Block, chain: Chain, pr: nat)
    ensures Matching(rcs + [rc], block, chain, pr)
         == Matching(rcs, block, chain, pr) + (if Claims(rc, block, chain, pr) then {rc} else {})
  {
  }

  /** The round changes that claim `block` at `pr`. */
  function Matching(rcs: seq<SignedRoundChange>, block: Block, chain: Chain, pr: nat): (s: set<SignedRoundChange>) {
    set rc | rc in rcs && Claims(rc, block, chain, pr)
  }

  lemma MatchingSenders(group: seq<SignedRoundChange>, rcs: seq<SignedRoundChange>, block: Block, chain: Chain, pr: nat)
    requires Elements(group) == Matching(rcs, block, chain, pr)
    ensures RoundChangeSenders(group) == Supporters(rcs, block, chain, pr)
  {
    forall a ensures a in RoundChangeSenders(group) <==> a in Supporters(rcs, block, chain, pr) {
      if a in RoundChangeSenders(group) {
        var rc :| rc in group && rc.signature.author == a;
        assert rc in Elements(group);
      }
      if a in Supporters(rcs, block, chain, pr) {
        var rc :| rc in rcs && Claims(rc, block, chain, pr) && rc.signature.author == a;
        assert rc in Elements(group);
      }
    }
  }

  /** What acceptance through the prepared branch rests on. */
  lemma PreparedBranch(
    rcs: seq<SignedRoundChange>, prepares: seq<SignedPrepare>, available: seq<Block>,
    round: nat, block: Block, chain: Chain, pr: nat)
    requires round > 0
    requires IsProposalJustification(rcs, prepares, available, round, block, chain)
    requires HighestBacked(rcs, rcs, block, chain) == Some(pr)
    ensures pr < round
    ensures |Supporters(rcs, block, chain, pr)| >= Quorum(|chain.Validators()|)
    ensures |PrepareSenders(prepares)| >= Quorum(|chain.Validators()|)
    ensures forall p :: p in prepares
              ==> ValidSignedPrepare(p, chain.Height(), pr, Digest(Relabel(block, pr, chain)), chain.Validators())
  {
    var rc :| rc in rcs && Claims(rc, block, chain, pr)
      && forall p :: p in prepares
           ==> ValidSignedPrepare(p, chain.Height(), pr, rc.unsigned.preparedValue.value, chain.Validators());
    assert ValidRoundChange(rc, chain.Height(), round, chain.Validators());
  }

  // ---- Relabelling ----------------------------------------------------------------

  lemma RelabelForgetsLabel(a: Block, b: Block, round: nat, chain: Chain)
    requires Core(a) == Core(b)
    ensures Relabel(a, round, chain).header == Relabel(b, round, chain).header
  {
    var ha, hb := a.header, b.header;
    assert Core(a) == ha.(roundNumber := 0, proposer := ZERO_ADDRESS);
    assert Core(b) == hb.(roundNumber := 0, proposer := ZERO_ADDRESS);
  }

  /** Whether a round is backed does not depend on how the block is labelled. */
  lemma {:induction false} HighestBackedForgetsLabel(
    candidates: seq<SignedRoundChange>, rcs: seq<SignedRoundChange>, a: Block, b: Block, chain: Chain)
    requires Core(a) == Core(b)
    ensures HighestBacked(candidates, rcs, a, chain) == HighestBacked(candidates, rcs, b, chain)
  {
    if candidates != [] {
      HighestBackedForgetsLabel(candidates[1..], rcs, a, b, chain);
      var u := candidates[0].unsigned;
      if u.preparedRound.Some? {
        SupportersForgetLabel(rcs, a, b, chain, u.preparedRound.value);
      }
    }
  }

  lemma SupportersForgetLabel(rcs: seq<SignedRoundChange>, a: Block, b: Block, chain: Chain, pr: nat)
    requires Core(a) == Core(b)
    ensures Supporters(rcs, a, chain, pr) == Supporters(rcs, b, chain, pr)
  {
    RelabelForgetsLabel(a, b, pr, chain);
    assert forall rc :: Claims(rc, a, chain, pr) == Claims(rc, b, chain, pr);
  }

  lemma PreparedForgetsLabel(
    rcs: seq<SignedRoundChange>, prepares: seq<SignedPrepare>, a: Block, b: Block, chain: Chain, pr: nat)
    requires Core(a) == Core(b) && PreparedBlock(rcs, prepares, [a], a, chain, pr)
    ensures PreparedBlock(rcs, prepares, [b], b, chain, pr)
  {
    SupportersForgetLabel(rcs, a, b, chain, pr);
    RelabelForgetsLabel(a, b, pr, chain);
    assert a.header.height == Core(a).height && b.header.height == Core(b).height;
    var rc :| rc in rcs && Claims(rc, a, chain, pr)
      && forall p :: p in prepares
           ==> ValidSignedPrepare(p, chain.Height(), pr, rc.unsigned.preparedValue.value, chain.Validators());
    assert Claims(rc, b, chain, pr) && b in [b];
  }

  lemma FreshLabel(a: Block, b: Block, round: nat, chain: Chain)
    requires Core(a) == Core(b) && FreshBlock(a, round, chain)
    ensures FreshBlock(b, round, chain)
            <==> b.header.roundNumber == round && b.header.proposer == Proposer(round, chain)
  {
    assert a.header.height == Core(a).height && b.header.height == Core(b).height;
    assert a.header.validators == Core(a).validators && b.header.validators == Core(b).validators;
  }

  /** Exactly which labels a justified block may carry: any at all in the prepared branch,
      which is taken above round 0 when some round is backed, and otherwise only the round
      of the proposal and its leader. */
  lemma LabelIff(
    rcs: seq<SignedRoundChange>, prepares: seq<SignedPrepare>, round: nat, block: Block, b: Block, chain: Chain)
    requires IsProposalJustification(rcs, prepares, [block], round, block, chain) && Core(b) == Core(block)
    ensures IsProposalJustification(rcs, prepares, [b], round, b, chain) <==>
            || (round > 0 && HighestBacked(rcs, rcs, block, chain).Some?)
            || (b.header.roundNumber == round && b.header.proposer == Proposer(round, chain))
  {
    HighestBackedForgetsLabel(rcs, rcs, block, b, chain);
    if round > 0 && HighestBacked(rcs, rcs, block, chain).Some? {
      PreparedForgetsLabel(rcs, prepares, block, b, chain, HighestBacked(rcs, rcs, block, chain).value);
    } else {
      FreshLabel(block, b, round, chain);
    }
  }

  /** Leader and verifier agree. The leader checks `block` against everything it has
      received, including prepares that only arrived inside round changes (`extra`,
      all of the new round); the verifier checks the relabelled block against the
      round changes and prepares the leader attached. If the first passes, so does
      the second. */
  lemma LeaderVerifierAgree(
    rcs: seq<SignedRoundChange>, prepares: seq<SignedPrepare>, extra: seq<SignedPrepare>, available: seq<Block>,
    round: nat, block: Block, chain: Chain)
    requires forall p :: p in extra ==> p.unsigned.round == round
    requires IsProposalJustification(rcs, prepares + extra, available, round, block, chain)
    ensures var sent := Relabel(block, round, chain);
            IsProposalJustification(rcs, prepares, [sent], round, sent, chain)
  {
    var sent := Relabel(block, round, chain);
    assert Core(sent) == Core(block);
    if round == 0 {
      assert sent.header == block.header;
    } else {
      HighestBackedForgetsLabel(rcs, rcs, sent, block, chain);
      match HighestBacked(rcs, rcs, block, chain) {
        case None => assert sent.header == block.header;
        case Some(pr) =>
          SupportersForgetLabel(rcs, sent, block, chain, pr);
          RelabelForgetsLabel(sent, block, pr, chain);
          var rc :| rc in rcs && Claims(rc, block, chain, pr)
            && forall p :: p in prepares + extra
                 ==> ValidSignedPrepare(p, chain.Height(), pr, rc.unsigned.preparedValue.value, chain.Validators());
          assert pr < round by {
            assert ValidRoundChange(rc, chain.Height(), round, chain.Validators());
          }
          NonEmptyHasElement(extra);
          assert forall p :: p in extra ==> p in prepares + extra;
          assert extra == [];
          assert prepares + extra == prepares;
          assert Claims(rc, sent, chain, pr);
          assert sent in [sent];
          assert PreparedBlock(rcs, prepares, [sent], sent, chain, pr);
      }
    }
  }
}
