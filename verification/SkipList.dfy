/**
 * The ledger skip list: one list of the last 256 parent hashes and, for every
 * 65536 sequences, one list of the hashes of the multiples of 256.
 */
module SkipLists {
  import opened Arith
  import opened Identity

  const WINDOW: nat := 256

  type Seq32 = s: nat | s < U32

  datatype HashList = HashList(last: nat, hashes: seq<Hash>)

  /** The skip-list entries of one ledger's state map; long lists are keyed by sequence >> 16. */
  datatype SkipState = SkipState(short: Option<HashList>, long: map<nat, HashList>)

  const NO_LISTS := SkipState(None, map[])

  datatype Header = Header(number: Seq32, hash: Hash, parentHash: Hash)

  datatype Answer = Found(hash: Hash) | Missing | AssertionFailed

  /** `hash_of_seq`. */
  function HashOfSeq(h: Header, s: SkipState, wanted: Seq32): Answer {
    if wanted > h.number then Missing
    else if wanted == h.number then Found(h.hash)
    else if wanted + 1 == h.number then Found(h.parentHash)
    else
      var diff := h.number - wanted;
      if diff <= WINDOW && s.short.Some? && s.short.value.last != h.number - 1 then AssertionFailed
      else if diff <= WINDOW && s.short.Some? && |s.short.value.hashes| >= diff
      then Found(s.short.value.hashes[|s.short.value.hashes| - diff])
      else if wanted % WINDOW != 0 then Missing
      else FromLongList(s.long, wanted)
  }

  function FromLongList(long: map<nat, HashList>, wanted: Seq32): Answer {
    var group := wanted / 0x1_0000;
    if group !in long then Missing
    else
      var list := long[group];
      if list.last < wanted || list.last % WINDOW != 0 then AssertionFailed
      else
        var back := (list.last - wanted) / WINDOW;
        if |list.hashes| > back then Found(list.hashes[|list.hashes| - back - 1]) else Missing
  }

  /** `update_skip_list`; `None` when one of its length assertions fails. */
  function Updated(s: SkipState, number: Seq32, parentHash: Hash): Option<SkipState> {
    if number == 0 then Some(s)
    else
      var prev := number - 1;
      var group := prev / 0x1_0000;
      var long: Option<map<nat, HashList>> :=
        if prev % WINDOW != 0 then Some(s.long)
        else if group !in s.long then Some(s.long[group := HashList(prev, [parentHash])])
        else if |s.long[group].hashes| <= WINDOW
        then Some(s.long[group := HashList(prev, s.long[group].hashes + [parentHash])])
        else None;
      if long.None? then None
      else if s.short.None? then Some(SkipState(Some(HashList(prev, [parentHash])), long.value))
      else
        var listed := s.short.value.hashes;
        if |listed| > WINDOW then None
        else
          var kept := if |listed| == WINDOW then listed[1..] else listed;
          Some(SkipState(Some(HashList(prev, kept + [parentHash])), long.value))
  }

  // ----- what a well-kept index holds -----------------------------------------------------
  // `past[i]` is the true hash of ledger `genesis + i`. A unit u stands for sequence 256 u.

  function FirstUnit(genesis: nat, group: nat): nat {
    if (genesis + 255) / 256 > 256 * group then (genesis + 255) / 256 else 256 * group
  }

  function LastUnit(top: nat, group: nat): int {
    if (top - 1) / 256 < 256 * group + 255 then (top - 1) / 256 else 256 * group + 255
  }

  /** The multiples of 256 of one group among the ledgers of `past`. */
  function LongHashes(genesis: nat, past: seq<Hash>, group: nat): (r: seq<Hash>)
    requires FirstUnit(genesis, group) <= LastUnit(genesis + |past|, group)
    ensures |r| == LastUnit(genesis + |past|, group) - FirstUnit(genesis, group) + 1
    ensures forall i :: 0 <= i < |r| ==> r[i] == past[256 * (FirstUnit(genesis, group) + i) - genesis]
  {
    seq(LastUnit(genesis + |past|, group) - FirstUnit(genesis, group) + 1,
        i requires 0 <= i < LastUnit(genesis + |past|, group) - FirstUnit(genesis, group) + 1 =>
          past[256 * (FirstUnit(genesis, group) + i) - genesis])
  }

  function Recent(past: seq<Hash>): seq<Hash> {
    if |past| <= WINDOW then past else past[|past| - WINDOW..]
  }

  ghost predicate ShortOk(short: Option<HashList>, genesis: nat, past: seq<Hash>) {
    short == if past == [] then None else Some(HashList(genesis + |past| - 1, Recent(past)))
  }

  ghost predicate GroupOk(long: map<nat, HashList>, genesis: nat, past: seq<Hash>, q: nat) {
    && (q in long <==> FirstUnit(genesis, q) <= LastUnit(genesis + |past|, q))
    && (q in long ==> long[q] == HashList(256 * LastUnit(genesis + |past|, q), LongHashes(genesis, past, q)))
  }

  ghost predicate LongOk(long: map<nat, HashList>, genesis: nat, past: seq<Hash>) {
    forall q: nat :: GroupOk(long, genesis, past, q)
  }

  ghost predicate Indexed(s: SkipState, genesis: nat, past: seq<Hash>) {
    ShortOk(s.short, genesis, past) && LongOk(s.long, genesis, past)
  }

  /** A new ledger moves the last unit of at most one group, its own. */
  lemma UnitsGrow(genesis: nat, top: nat, q: nat)
    requires genesis <= top
    ensures top % 256 != 0 ==> LastUnit(top + 1, q) == LastUnit(top, q)
    ensures top % 256 == 0 && q != top / 0x1_0000 ==>
              (LastUnit(top + 1, q) == LastUnit(top, q)) || (LastUnit(top, q) < LastUnit(top + 1, q) < 256 * q)
    ensures top % 256 == 0 && q == top / 0x1_0000 ==>
              FirstUnit(genesis, q) <= LastUnit(top + 1, q) == top / 256 == LastUnit(top, q) + 1
    ensures 256 * q <= FirstUnit(genesis, q) && LastUnit(top, q) <= 256 * q + 255
  {
    if top % 256 == 0 {
      assert (top - 1) / 256 == top / 256 - 1;
    } else {
      assert (top - 1) / 256 == top / 256;
    }
  }

  lemma SameLongHashes(genesis: nat, past: seq<Hash>, h: Hash, q: nat)
    requires FirstUnit(genesis, q) <= LastUnit(genesis + |past|, q) == LastUnit(genesis + |past| + 1, q)
    ensures LongHashes(genesis, past + [h], q) == LongHashes(genesis, past, q)
  {
  }

  /** Growing the chain off a multiple of 256 leaves every long list as it was. */
  lemma LongUnchanged(long: map<nat, HashList>, genesis: nat, past: seq<Hash>, h: Hash)
    requires LongOk(long, genesis, past) && (genesis + |past|) % 256 != 0
    ensures LongOk(long, genesis, past + [h])
  {
    forall q: nat ensures GroupOk(long, genesis, past + [h], q) {
      assert GroupOk(long, genesis, past, q);
      UnitsGrow(genesis, genesis + |past|, q);
      hide LastUnit, FirstUnit, LongHashes;
      if q in long {
        SameLongHashes(genesis, past, h, q);
      }
    }
  }

  lemma OwnGroupExtended(genesis: nat, past: seq<Hash>, h: Hash, q: nat)
    requires (genesis + |past|) % 256 == 0 && q == (genesis + |past|) / 0x1_0000
    ensures FirstUnit(genesis, q) <= LastUnit(genesis + |past| + 1, q)
    ensures var listed := if FirstUnit(genesis, q) <= LastUnit(genesis + |past|, q) then LongHashes(genesis, past, q) else [];
            |listed| < WINDOW && LongHashes(genesis, past + [h], q) == listed + [h]
  {
    UnitsGrow(genesis, genesis + |past|, q);
    hide LastUnit, FirstUnit;
  }

  /** Growing it on a multiple of 256 appends to that multiple's own group only. */
  lemma LongExtended(long: map<nat, HashList>, genesis: nat, past: seq<Hash>, h: Hash)
    requires LongOk(long, genesis, past) && (genesis + |past|) % 256 == 0
    ensures var top := genesis + |past|;
            var group := top / 0x1_0000;
            var listed := if group in long then long[group].hashes else [];
            |listed| < WINDOW && LongOk(long[group := HashList(top, listed + [h])], genesis, past + [h])
  {
    var top := genesis + |past|;
    var group := top / 0x1_0000;
    assert GroupOk(long, genesis, past, group);
    OwnGroupExtended(genesis, past, h, group);
    UnitsGrow(genesis, top, group);
    hide LastUnit, FirstUnit, LongHashes;
    var listed := if group in long then long[group].hashes else [];
    var after := long[group := HashList(top, listed + [h])];
    forall q: nat ensures GroupOk(after, genesis, past + [h], q) {
      assert GroupOk(long, genesis, past, q);
      UnitsGrow(genesis, top, q);
      if q != group && q in long {
        SameLongHashes(genesis, past, h, q);
      }
    }
  }

  lemma ShortExtended(short: Option<HashList>, genesis: nat, past: seq<Hash>, h: Hash)
    requires ShortOk(short, genesis, past)
    ensures var listed := if short.Some? then short.value.hashes else [];
            var kept := if |listed| == WINDOW then listed[1..] else listed;
            |listed| <= WINDOW && ShortOk(Some(HashList(genesis + |past|, kept + [h])), genesis, past + [h])
  {
    var listed := if short.Some? then short.value.hashes else [];
    var kept := if |listed| == WINDOW then listed[1..] else listed;
    assert Recent(past + [h]) == kept + [h];
  }

  /** Updating keeps the index exact, and never trips a length assertion. */
  lemma UpdateKeepsIndex(s: SkipState, genesis: nat, past: seq<Hash>, h: Hash)
    requires Indexed(s, genesis, past) && genesis + |past| + 1 < U32
    ensures var r := Updated(s, genesis + |past| + 1, h);
            r.Some? && Indexed(r.value, genesis, past + [h])
  {
    ShortExtended(s.short, genesis, past, h);
    if (genesis + |past|) % 256 == 0 {
      LongExtended(s.long, genesis, past, h);
    } else {
      LongUnchanged(s.long, genesis, past, h);
    }
    assert [] + [h] == [h];
    assert s.short.Some? <==> past != [];
    hide LongOk, ShortOk;
  }

  // ----- what the index answers -------------------------------------------------------------

  /** A long list answers for exactly the multiples of 256 on the chain. */
  lemma LongListAnswers(long: map<nat, HashList>, genesis: nat, past: seq<Hash>, wanted: Seq32)
    requires LongOk(long, genesis, past) && wanted % 256 == 0 && wanted < genesis + |past|
    ensures FromLongList(long, wanted) == if genesis <= wanted then Found(past[wanted - genesis]) else Missing
  {
    var top, group, unit := genesis + |past|, wanted / 0x1_0000, wanted / 256;
    assert unit / 256 == group && unit <= LastUnit(top, group);
    assert GroupOk(long, genesis, past, group);
    if group in long {
      var list := long[group];
      assert (list.last - wanted) / 256 == LastUnit(top, group) - unit;
      if genesis <= wanted {
        assert FirstUnit(genesis, group) <= unit;
      }
    }
  }

  /**
   * On an indexed ledger `hash_of_seq` never fails an assertion and answers
   * exactly: itself, its parent, the last 256 ancestors and every multiple of
   * 256 back to genesis, each with its true hash, and nothing else. The one
   * answer that is not an ancestor is genesis's own parent field.
   */
  lemma AnswersAreExact(h: Header, s: SkipState, genesis: nat, past: seq<Hash>, wanted: Seq32)
    requires Indexed(s, genesis, past) && h.number == genesis + |past|
    requires past != [] ==> h.parentHash == past[|past| - 1]
    ensures HashOfSeq(h, s, wanted) ==
            if wanted > h.number then Missing
            else if wanted == h.number then Found(h.hash)
            else if genesis <= wanted && (h.number - wanted <= 256 || wanted % 256 == 0) then Found(past[wanted - genesis])
            else if past == [] && wanted + 1 == genesis then Found(h.parentHash)
            else Missing
  {
    if wanted + 1 < h.number && wanted % 256 == 0 {
      LongListAnswers(s.long, genesis, past, wanted);
    }
    hide LongOk, FromLongList;
  }

  /**
   * Asked before its own update, a ledger still carries its parent's index:
   * an assertion fails exactly for the sequences two to 256 back, once there
   * is a short list at all.
   */
  lemma StaleIndexFails(h: Header, s: SkipState, genesis: nat, past: seq<Hash>, wanted: Seq32)
    requires Indexed(s, genesis, past) && h.number == genesis + |past| + 1
    ensures HashOfSeq(h, s, wanted) == AssertionFailed <==> past != [] && wanted < h.number && 2 <= h.number - wanted <= 256
  {
    if wanted + 1 < h.number && wanted % 256 == 0 {
      LongListAnswers(s.long, genesis, past, wanted);
    }
    hide LongOk, FromLongList;
  }

  lemma EmptyIndex(genesis: nat)
    ensures Indexed(NO_LISTS, genesis, [])
  {
  }
}
