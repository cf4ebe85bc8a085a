/** What each step of a plan keeps, stated on the values it changes. */
module PlanLemmas {
  import opened Identity
  import opened PlanModel

  // ----- Frontier ---------------------------------------------------------------

  lemma DistinctAppend<T>(a: seq<T>, b: seq<T>)
    requires Distinct(a) && Distinct(b)
    requires forall x :: x in b ==> x !in a
    ensures Distinct(a + b)
  {
    forall i, j | 0 <= i < j < |a + b| ensures (a + b)[i] != (a + b)[j] {
      if i < |a| <= j {
        assert (a + b)[j] in b;
      }
    }
  }

  lemma HashesAppend(a: seq<NetworkNeed>, b: seq<NetworkNeed>)
    ensures HashesOf(a + b) == HashesOf(a) + HashesOf(b)
  {
    forall n | n in a + b ensures n in a || n in b {}
    forall n | n in a || n in b ensures n in a + b {}
  }

  function Normalized(cursor: nat, len: nat): (c: nat)
    ensures CursorOk(c, len)
  {
    if len == 0 then 0 else cursor % len
  }

  /** What is left of a queue stands in the order it stood in. */
  ghost predicate InOrder(r: seq<NetworkNeed>, s: seq<NetworkNeed>) {
    forall i, j :: 0 <= i < j < |r| ==> exists a, b :: 0 <= a < b < |s| && s[a] == r[i] && s[b] == r[j]
  }

  lemma {:induction false} WithoutKeepsOrder(s: seq<NetworkNeed>, gone: seq<NetworkNeed>)
    ensures InOrder(Without(s, gone), s)
  {
    if s != [] {
      var t, r := s[..|s| - 1], Without(s, gone);
      var q := Without(t, gone);
      WithoutKeepsOrder(t, gone);
      forall i, j | 0 <= i < j < |r| ensures exists a, b :: 0 <= a < b < |s| && s[a] == r[i] && s[b] == r[j] {
        if j < |q| {
          var a, b :| 0 <= a < b < |t| && t[a] == q[i] && t[b] == q[j];
          assert s[a] == r[i] && s[b] == r[j];
        } else {
          assert r[i] == q[i] && q[i] in q;
          var a :| 0 <= a < |t| && t[a] == r[i];
          assert s[a] == r[i] && s[|s| - 1] == r[j];
        }
      }
    }
  }

  lemma WithoutAll(s: seq<NetworkNeed>, gone: seq<NetworkNeed>)
    requires forall n :: n in s ==> n in gone
    ensures Without(s, gone) == []
  {
    if s != [] {
      assert Last(s) in s;
      WithoutAll(s[..|s| - 1], gone);
    }
  }

  // ----- Ordinary reads ----------------------------------------------------------

  lemma FrontHashes(backlog: seq<ReadNeed>)
    requires DistinctHashes(backlog) && backlog != []
    ensures ReadHashes(backlog) == {backlog[0].hash} + ReadHashes(backlog[1..])
    ensures backlog[0].hash !in ReadHashes(backlog[1..]) && DistinctHashes(backlog[1..])
  {
    var rest := backlog[1..];
    assert backlog[0] in backlog;
    assert forall n :: n in backlog <==> n == backlog[0] || n in rest;
  }

  lemma HashesPush(backlog: seq<ReadNeed>, need: ReadNeed)
    requires DistinctHashes(backlog) && need.hash !in ReadHashes(backlog)
    ensures DistinctHashes(backlog + [need]) && ReadHashes(backlog + [need]) == ReadHashes(backlog) + {need.hash}
  {
    var q := backlog + [need];
    assert forall n :: n in q <==> n in backlog || n == need;
    forall i, j | 0 <= i < j < |q| ensures q[i].hash != q[j].hash {
      if j == |backlog| {
        assert backlog[i] in backlog;
      }
    }
  }

  lemma HashesSplit(needs: seq<ReadNeed>, k: nat)
    requires k <= |needs|
    ensures ReadHashes(needs) == ReadHashes(needs[..k]) + ReadHashes(needs[k..])
  {
    assert needs == needs[..k] + needs[k..];
  }

  lemma PrefixHashes(needs: seq<ReadNeed>, k: nat)
    requires k < |needs|
    ensures ReadHashes(needs[..k + 1]) == ReadHashes(needs[..k]) + {needs[k].hash}
  {
    assert needs[..k + 1] == needs[..k] + [needs[k]];
    assert forall n :: n in needs[..k + 1] <==> n in needs[..k] || n == needs[k];
  }

  lemma MultisetOfUnion(a: set<Hash>, b: set<Hash>)
    requires a !! b
    ensures multiset(a + b) == multiset(a) + multiset(b)
  {
  }

  lemma NoReads()
    ensures ReadHashes([]) == {} && DistinctHashes([])
  {
  }

  /** Moving one element between disjoint sets keeps their combined multiset. */
  lemma MoveBetween(a: set<Hash>, b: set<Hash>, h: Hash)
    requires h !in a && h !in b
    ensures multiset(a + {h}) + multiset(b) == multiset(a) + multiset({h} + b)
  {
  }

  // ----- Operations ----------------------------------------------------------------

  /** A fresh operation joins the live set wherever the plan stores it. */
  lemma MintKeeps(seen: nat, seen': nat, minted: set<OperationRef>, live: set<OperationRef>,
                  settled: set<OperationRef>, revoked: set<OperationRef>, op: OperationRef)
    requires FatesOk(seen, minted, live, settled, revoked)
    requires seen < op.operationId <= seen'
    ensures FatesOk(seen', minted + {op}, live + {op}, settled, revoked)
    ensures op !in minted
  {
  }

  lemma ValuesUpdate(m: map<Hash, OperationRef>, h: Hash, op: OperationRef)
    requires h !in m
    ensures m[h := op].Values == m.Values + {op}
  {
    var m' := m[h := op];
    assert h in m' && m'[h] == op;
    forall v | v in m.Values ensures v in m'.Values {
      var g :| g in m && m[g] == v;
      assert g in m' && m'[g] == v;
    }
  }

  lemma ValuesRemove(m: map<Hash, OperationRef>, h: Hash)
    requires h in m && Injective(m)
    ensures (m - {h}).Values == m.Values - {m[h]}
  {
    var m' := m - {h};
    forall v | v in m.Values && v != m[h] ensures v in m'.Values {
      var g :| g in m && m[g] == v;
      assert g in m' && m'[g] == v;
    }
    forall v | v in m'.Values ensures v in m.Values && v != m[h] {
      var g :| g in m' && m'[g] == v;
      assert g in m && m[g] == v && g != h;
    }
  }

  /** An operation of one kind is live in one place only. */
  lemma KindsDisjoint(pending: map<Hash, OperationRef>, recovery: map<OperationRef, NetworkNeed>,
                      p: Persistence, op: OperationRef)
    requires KindsOk(pending, recovery, p)
    ensures op.kind == Read ==> op !in recovery.Keys && op !in PersistenceOps(p)
    ensures op.kind == RecoveryRead ==> op !in pending.Values && op !in PersistenceOps(p)
    ensures op.kind == Write || op.kind == DurabilityFence ==> op !in pending.Values && op !in recovery.Keys
  {
  }

  lemma SettleReadLog(readLog: seq<OperationRef>, writeLog: seq<Settlement>, op: OperationRef, live: set<OperationRef>)
    requires op in live && live !! AllSettled(readLog, writeLog) && Distinct(readLog)
    ensures AllSettled(readLog + [op], writeLog) == AllSettled(readLog, writeLog) + {op}
    ensures Distinct(readLog + [op])
  {
    assert forall x :: x in readLog ==> x in AllSettled(readLog, writeLog);
    DistinctAppend(readLog, [op]);
    assert forall x :: x in readLog + [op] <==> x in readLog || x == op;
  }

  lemma SettleFates(seen: nat, minted: set<OperationRef>, kept: set<OperationRef>, gone: set<OperationRef>,
                    settled: set<OperationRef>, revoked: set<OperationRef>, op: OperationRef)
    requires FatesOk(seen, minted, kept + {op} + gone, settled, revoked)
    requires op !in kept && op !in gone && kept !! gone
    ensures FatesOk(seen, minted, kept, settled + {op}, revoked + gone)
  {
  }

  lemma SettleWriteLog(readLog: seq<OperationRef>, writeLog: seq<Settlement>, s: Settlement, live: set<OperationRef>)
    requires s.operation in live && live !! AllSettled(readLog, writeLog) && DistinctSettlements(writeLog)
    ensures AllSettled(readLog, writeLog + [s]) == AllSettled(readLog, writeLog) + {s.operation}
    ensures DistinctSettlements(writeLog + [s])
  {
    LogAppend(writeLog, s);
    assert forall t :: t in writeLog ==> t.operation in AllSettled(readLog, writeLog);
  }

  lemma EmptyLive(p: Persistence)
    ensures LiveOps(map[], map[], p) == PersistenceOps(p)
  {
    var none: map<Hash, OperationRef>, noRecovery: map<OperationRef, NetworkNeed> := map[], map[];
    assert none.Values == {} && noRecovery.Keys == {};
  }

  lemma RevokeFates(seen: nat, minted: set<OperationRef>, kept: set<OperationRef>, gone: set<OperationRef>,
                    settled: set<OperationRef>, revoked: set<OperationRef>)
    requires FatesOk(seen, minted, gone + kept, settled, revoked) && kept !! gone
    ensures FatesOk(seen, minted, kept, settled, revoked + gone)
  {
  }
}
