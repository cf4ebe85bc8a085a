/** A chain of ledgers: each is derived from its parent, indexed, then accepted. */
module Ledgers {
  import opened Arith
  import opened Identity
  import opened SkipLists
  import CloseTime

  /** Updating the index of all ancestors but the parent completes it. */
  lemma StaleUpdates(s: SkipState, genesis: nat, past: seq<Hash>, h: Header)
    requires past != [] && h.number == genesis + |past| && h.parentHash == past[|past| - 1]
    requires Indexed(s, genesis, past[..|past| - 1])
    ensures Updated(s, h.number, h.parentHash).Some? && Indexed(Updated(s, h.number, h.parentHash).value, genesis, past)
  {
    hide Updated, Indexed;
    assert past == past[..|past| - 1] + [h.parentHash];
    UpdateKeepsIndex(s, genesis, past[..|past| - 1], h.parentHash);
  }

  class Ledger {
    var header: Header
    var resolution: CloseTime.Seconds8
    var agreed: bool
    var skip: SkipState

    /** The first sequence of this chain and the true hashes from there up to the parent. */
    ghost var genesis: nat
    ghost var past: seq<Hash>

    /** Derived from its parent: the header points at the last of `past`. */
    ghost predicate Chained()
      reads this
    {
      && header.number == genesis + |past|
      && (past != [] ==> header.parentHash == past[|past| - 1])
    }

    /** The index covers every ancestor. */
    ghost predicate Fresh()
      reads this
    {
      Chained() && Indexed(skip, genesis, past)
    }

    /** The index still lacks the parent, as between derivation and update. */
    ghost predicate Stale()
      reads this
    {
      Chained() && past != [] && Indexed(skip, genesis, past[..|past| - 1])
    }

    constructor Genesis(number: Seq32, hash: Hash, parentHash: Hash, resolution: CloseTime.Seconds8, agreed: bool)
      ensures Fresh() && header == Header(number, hash, parentHash) && genesis == number && past == []
      ensures this.resolution == resolution && this.agreed == agreed
    {
      header := Header(number, hash, parentHash);
      this.resolution := resolution;
      this.agreed := agreed;
      skip := NO_LISTS;
      genesis, past := number, [];
      EmptyIndex(number);
    }

    /** The child shares its parent's state map, so it starts with the parent's index. */
    constructor FromPrevious(prev: Ledger, placeholder: Hash)
      ensures header == Header((prev.header.number + 1) % U32, placeholder, prev.header.hash) && skip == prev.skip
      ensures resolution == CloseTime.NextResolution(prev.resolution, prev.agreed, header.number)
      ensures genesis == prev.genesis && past == prev.past + [prev.header.hash]
      ensures prev.Fresh() && prev.header.number + 1 < U32 ==> Stale()
    {
      header := Header((prev.header.number + 1) % U32, placeholder, prev.header.hash);
      resolution := CloseTime.NextResolution(prev.resolution, prev.agreed, (prev.header.number + 1) % U32);
      agreed := true;
      skip := prev.skip;
      genesis, past := prev.genesis, prev.past + [prev.header.hash];
      assert (prev.past + [prev.header.hash])[..|prev.past|] == prev.past;
    }

    /** False when a length assertion would fail; a stale ledger always becomes fresh. */
    method UpdateSkipList() returns (ok: bool)
      modifies this`skip
      ensures ok <==> Updated(old(skip), header.number, header.parentHash).Some?
      ensures skip == if ok then Updated(old(skip), header.number, header.parentHash).value else old(skip)
      ensures old(Stale()) ==> ok && Fresh()
    {
      hide Updated, Indexed;
      if Stale() {
        StaleUpdates(skip, genesis, past, header);
      }
      var updated := Updated(skip, header.number, header.parentHash);
      ok := updated.Some?;
      if ok {
        skip := updated.value;
      }
    }

    method Accept(hash: Hash, resolution: CloseTime.Seconds8, agreed: bool)
      modifies this`header, this`resolution, this`agreed
      ensures header == old(header).(hash := hash) && this.resolution == resolution && this.agreed == agreed
      ensures old(Fresh()) ==> Fresh()
    {
      header := header.(hash := hash);
      this.resolution := resolution;
      this.agreed := agreed;
    }

    function HashOf(wanted: Seq32): Answer
      reads this
    {
      HashOfSeq(header, skip, wanted)
    }
  }

  /** Reference: what walking the real chain says, within the reach of the index. */
  function Walked(genesis: nat, chain: seq<Hash>, beforeGenesis: Hash, wanted: Seq32): Answer
    requires chain != []
  {
    var top := genesis + |chain| - 1;
    if genesis <= wanted <= top && (top - wanted <= 256 || wanted % 256 == 0) then Found(chain[wanted - genesis])
    else if |chain| == 1 && wanted + 1 == genesis then Found(beforeGenesis)
    else Missing
  }

  lemma TipAnswers(h: Header, s: SkipState, genesis: nat, chain: seq<Hash>, beforeGenesis: Hash, wanted: Seq32)
    requires chain != [] && h.number == genesis + |chain| - 1 && h.hash == chain[|chain| - 1]
    requires Indexed(s, genesis, chain[..|chain| - 1])
    requires h.parentHash == if |chain| == 1 then beforeGenesis else chain[|chain| - 2]
    ensures HashOfSeq(h, s, wanted) == Walked(genesis, chain, beforeGenesis, wanted)
  {
    hide Indexed, HashOfSeq;
    AnswersAreExact(h, s, genesis, chain[..|chain| - 1], wanted);
  }

  /** Derive, update, accept; `ok` is false when the update fails an assertion. */
  method Extend(prev: Ledger, hash: Hash, agreed: bool) returns (next: Ledger, ok: bool)
    ensures fresh(next) && next.header == Header((prev.header.number + 1) % U32, hash, prev.header.hash)
    ensures next.genesis == prev.genesis && next.past == prev.past + [prev.header.hash] && next.agreed == agreed
    ensures next.resolution == CloseTime.NextResolution(prev.resolution, prev.agreed, next.header.number)
    ensures prev.Fresh() && prev.header.number + 1 < U32 ==> ok && next.Fresh()
  {
    hide Indexed, Updated, CloseTime.NextResolution, Ledger.Fresh, Ledger.Stale, Ledger.Chained;
    next := new Ledger.FromPrevious(prev, 0);
    ok := next.UpdateSkipList();
    next.Accept(hash, next.resolution, agreed);
  }

  /**
   * Every chain grown from a genesis ledger by deriving, updating and
   * accepting, stopped at an update that fails an assertion: whatever the
   * hashes and verdicts, its resolution follows the ladder through the verdicts
   * of the ledgers before it, also where the sequence wraps to zero. Short of
   * that no update fails, and the last ledger answers every sequence as walking
   * the chain does.
   */
  method GrowChain(number: Seq32, parentHash: Hash, hashes: seq<Hash>, resolution: CloseTime.Seconds8, verdicts: seq<bool>)
    returns (tip: Ledger, grown: nat)
    requires hashes != [] && |verdicts| == |hashes|
    ensures 1 <= grown <= |hashes|
    ensures tip.header.number == (number + grown - 1) % U32 && tip.header.hash == hashes[grown - 1]
    ensures tip.resolution == CloseTime.Along(resolution, verdicts, number, grown - 1) && tip.agreed == verdicts[grown - 1]
    ensures number + |hashes| <= U32 ==> grown == |hashes|
    ensures number + |hashes| <= U32 ==> forall wanted: Seq32 :: tip.HashOf(wanted) == Walked(number, hashes, parentHash, wanted)
  {
    hide Indexed, Walked, CloseTime.NextResolution, HashOfSeq;
    tip := new Ledger.Genesis(number, hashes[0], parentHash, resolution, verdicts[0]);
    grown := 1;
    while grown < |hashes|
      invariant 1 <= grown <= |hashes|
      invariant tip.genesis == number && tip.past == hashes[..grown - 1] && tip.header.hash == hashes[grown - 1]
      invariant tip.header.number == (number + grown - 1) % U32
      invariant tip.header.parentHash == if grown == 1 then parentHash else hashes[grown - 2]
      invariant tip.agreed == verdicts[grown - 1] && tip.resolution == CloseTime.Along(resolution, verdicts, number, grown - 1)
      invariant number + grown <= U32 ==> tip.Fresh()
    {
      var next, ok := Extend(tip, hashes[grown], verdicts[grown]);
      if !ok {
        return;
      }
      NextNumber(number, grown);
      assert hashes[..grown] == hashes[..grown - 1] + [hashes[grown - 1]];
      tip := next;
      grown := grown + 1;
    }
    if number + |hashes| <= U32 {
      forall wanted: Seq32 ensures tip.HashOf(wanted) == Walked(number, hashes, parentHash, wanted) {
        TipAnswers(tip.header, tip.skip, number, hashes, parentHash, wanted);
      }
    }
  }

  lemma NextNumber(number: nat, grown: nat)
    requires grown >= 1
    ensures ((number + grown - 1) % U32 + 1) % U32 == (number + grown) % U32
    ensures number + grown <= U32 ==> (number + grown - 1) % U32 == number + grown - 1
  {
    ModShift(number + grown - 1, 1, U32);
  }
}
