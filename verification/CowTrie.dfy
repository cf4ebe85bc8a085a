/**
 * The copy-on-write radix trie over 256-bit keys: sixteen-way inner nodes, one
 * nibble a level, leaves as high as they can sit.
 */
module CowTrie {
  import opened Arith
  import opened Identity

  const FANOUT := 16
  const MAX_DEPTH := 64

  type Key = k: seq<Byte> | |k| == 32 witness seq(32, i => 0)

  /** The payload of a leaf. */
  type Item = seq<Byte>

  datatype Entry = Entry(key: Key, item: Item)

  datatype Node =
    | Inner(children: seq<Option<Node>>)
    | Leaf(key: Key, item: Item)

  /** High nibble of a byte at even depths, low nibble at odd ones. */
  function Nibble(k: Key, depth: nat): (n: nat)
    requires depth < MAX_DEPTH
    ensures n < FANOUT
  {
    if depth % 2 == 0 then k[depth / 2] / 16 else k[depth / 2] % 16
  }

  ghost predicate Agree(a: Key, b: Key, depth: nat)
    requires depth <= MAX_DEPTH
  {
    forall i :: 0 <= i < depth ==> Nibble(a, i) == Nibble(b, i)
  }

  /** Distinct keys part company within 64 nibbles. */
  lemma AgreeEverywhere(a: Key, b: Key)
    requires Agree(a, b, MAX_DEPTH)
    ensures a == b
  {
    forall j | 0 <= j < 32 ensures a[j] == b[j] {
      assert Nibble(a, 2 * j) == Nibble(b, 2 * j) && Nibble(a, 2 * j + 1) == Nibble(b, 2 * j + 1);
    }
  }

  /** Every entry stored anywhere below a node. */
  ghost function Entries(n: Node): set<Entry> {
    match n
    case Leaf(k, v) => {Entry(k, v)}
    case Inner(children) =>
      set i, e | 0 <= i < |children| && children[i].Some? && e in Entries(children[i].value) :: e
  }

  ghost predicate InSlot(slot: Option<Node>, depth: nat, i: nat)
    requires depth < MAX_DEPTH
  {
    slot.Some? ==> forall e :: e in Entries(slot.value) ==> Nibble(e.key, depth) == i
  }

  ghost predicate Branching(n: Node) {
    exists e, f :: e in Entries(n) && f in Entries(n) && e.key != f.key
  }

  /**
   * The shape rule: an inner node has sixteen slots, the entries below slot i
   * have nibble i at this depth, and below the root it covers two keys or more.
   */
  ghost predicate Shape(n: Node, depth: nat)
    decreases n
  {
    && depth <= MAX_DEPTH
    && (n.Inner? ==>
          && depth < MAX_DEPTH && |n.children| == FANOUT
          && (forall i :: 0 <= i < FANOUT && n.children[i].Some? ==> Shape(n.children[i].value, depth + 1))
          && (forall i :: 0 <= i < FANOUT ==> InSlot(n.children[i], depth, i))
          && (depth > 0 ==> Branching(n)))
  }

  /** An entry of an inner node is in the slot of its own nibble. */
  lemma SlotOf(children: seq<Option<Node>>, depth: nat, e: Entry)
    requires |children| == FANOUT && depth < MAX_DEPTH
    requires forall i :: 0 <= i < FANOUT ==> InSlot(children[i], depth, i)
    ensures var c := children[Nibble(e.key, depth)];
            e in Entries(Inner(children)) <==> c.Some? && e in Entries(c.value)
  {
    var n := Inner(children);
    assert n.children == children;
  }

  /** All entries below a node lie on the path that leads to `k`. */
  ghost predicate OnPath(n: Node, k: Key, depth: nat)
    requires depth <= MAX_DEPTH
  {
    forall e :: e in Entries(n) ==> Agree(e.key, k, depth)
  }

  function EmptyChildren(): seq<Option<Node>> { seq(FANOUT, i => None) }

  function NewRoot(): Node { Inner(EmptyChildren()) }

  /** Insert or update below a node; only nodes on the key's own path are rebuilt. */
  function InsertAt(n: Node, k: Key, v: Item, depth: nat): (r: Node)
    requires Shape(n, depth) && OnPath(n, k, depth)
    ensures n.Inner? ==> r.Inner?
    decreases MAX_DEPTH - depth
  {
    match n
    case Inner(children) =>
      var i := Nibble(k, depth);
      var child := if children[i].Some? then ChildOnPath(n, k, depth); InsertAt(children[i].value, k, v, depth + 1) else Leaf(k, v);
      Inner(children[i := Some(child)])
    case Leaf(key, item) =>
      if key == k then Leaf(k, v)
      else
        LeafDiverges(key, item, k, depth);
        var eb, nb := Nibble(key, depth), Nibble(k, depth);
        if eb == nb then Inner(EmptyChildren()[eb := Some(InsertAt(n, k, v, depth + 1))])
        else Inner(EmptyChildren()[eb := Some(n)][nb := Some(Leaf(k, v))])
  }

  lemma ChildOnPath(n: Node, k: Key, depth: nat)
    requires n.Inner? && Shape(n, depth) && OnPath(n, k, depth) && n.children[Nibble(k, depth)].Some?
    ensures OnPath(n.children[Nibble(k, depth)].value, k, depth + 1)
  {
    var child := n.children[Nibble(k, depth)].value;
    hide Entries;
    forall e | e in Entries(child) ensures Agree(e.key, k, depth + 1) {
      assert InSlot(n.children[Nibble(k, depth)], depth, Nibble(k, depth));
      SlotOf(n.children, depth, e);
    }
  }

  /** Two different keys that agree so far have a nibble left to differ in. */
  lemma LeafDiverges(key: Key, item: Item, k: Key, depth: nat)
    requires depth <= MAX_DEPTH && OnPath(Leaf(key, item), k, depth) && key != k
    ensures depth < MAX_DEPTH
    ensures Nibble(key, depth) == Nibble(k, depth) ==> OnPath(Leaf(key, item), k, depth + 1)
  {
    assert Entry(key, item) in Entries(Leaf(key, item));
    if depth == MAX_DEPTH {
      AgreeEverywhere(key, k);
    }
  }

  // ----- insertion is map update ------------------------------------------------------

  ghost predicate UpdatedBy(before: set<Entry>, after: set<Entry>, k: Key, v: Item) {
    forall e :: e in after <==> e == Entry(k, v) || (e in before && e.key != k)
  }

  lemma InsertedIntoInner(n: Node, k: Key, v: Item, depth: nat, child: Node)
    requires n.Inner? && Shape(n, depth)
    requires Shape(child, depth + 1)
    requires var c := n.children[Nibble(k, depth)];
             UpdatedBy(if c.Some? then Entries(c.value) else {}, Entries(child), k, v)
    ensures var r := Inner(n.children[Nibble(k, depth) := Some(child)]);
            Shape(r, depth) && UpdatedBy(Entries(n), Entries(r), k, v)
  {
    hide Entries;
    var i := Nibble(k, depth);
    var r := Inner(n.children[i := Some(child)]);
    forall j | 0 <= j < FANOUT ensures InSlot(r.children[j], depth, j) {
      assert InSlot(n.children[j], depth, j);
    }
    forall e ensures e in Entries(r) <==> e == Entry(k, v) || (e in Entries(n) && e.key != k) {
      SlotOf(n.children, depth, e);
      SlotOf(r.children, depth, e);
    }
    if depth > 0 {
      StillBranching(Entries(n), k, v, n, r);
    }
  }

  lemma StillBranching(before: set<Entry>, k: Key, v: Item, n: Node, r: Node)
    requires before == Entries(n) && Branching(n) && UpdatedBy(before, Entries(r), k, v)
    ensures Branching(r)
  {
    hide Entries;
    var e, f :| e in Entries(n) && f in Entries(n) && e.key != f.key;
    var g := if e.key == k then f else e;
    assert g in Entries(r) && Entry(k, v) in Entries(r) && g.key != k;
  }

  /** The two leaves of a split are the entries of the new inner node. */
  lemma Split(leaf: Node, k: Key, v: Item, depth: nat, children: seq<Option<Node>>)
    requires leaf.Leaf? && leaf.key != k && depth < MAX_DEPTH && |children| == FANOUT
    requires forall i :: 0 <= i < FANOUT && children[i].Some? ==> Shape(children[i].value, depth + 1)
    requires forall i :: 0 <= i < FANOUT ==> InSlot(children[i], depth, i)
    requires forall e :: (e == Entry(k, v) || e == Entry(leaf.key, leaf.item)) <==>
                         (var c := children[Nibble(e.key, depth)]; c.Some? && e in Entries(c.value))
    ensures Shape(Inner(children), depth) && UpdatedBy(Entries(leaf), Entries(Inner(children)), k, v)
  {
    assert Entries(leaf) == {Entry(leaf.key, leaf.item)};
    hide Entries;
    var r := Inner(children);
    forall e ensures e in Entries(r) <==> e == Entry(k, v) || (e in Entries(leaf) && e.key != k) {
      SlotOf(children, depth, e);
    }
    assert Entry(leaf.key, leaf.item) in Entries(r) && Entry(k, v) in Entries(r);
  }

  lemma SplitDeeper(leaf: Node, k: Key, v: Item, depth: nat, sub: Node)
    requires leaf.Leaf? && leaf.key != k && depth < MAX_DEPTH && Nibble(leaf.key, depth) == Nibble(k, depth)
    requires Shape(sub, depth + 1) && UpdatedBy(Entries(leaf), Entries(sub), k, v)
    ensures var r := Inner(EmptyChildren()[Nibble(k, depth) := Some(sub)]);
            Shape(r, depth) && UpdatedBy(Entries(leaf), Entries(r), k, v)
  {
    assert Entries(leaf) == {Entry(leaf.key, leaf.item)};
    hide Entries, Shape, Nibble;
    var children := EmptyChildren()[Nibble(k, depth) := Some(sub)];
    assert forall i :: 0 <= i < FANOUT && children[i].Some? ==> i == Nibble(k, depth) && children[i].value == sub;
    forall e ensures (e == Entry(k, v) || e == Entry(leaf.key, leaf.item)) <==> e in Entries(sub) {
    }
    Split(leaf, k, v, depth, children);
  }

  lemma SplitHere(leaf: Node, k: Key, v: Item, depth: nat)
    requires leaf.Leaf? && leaf.key != k && depth < MAX_DEPTH && Nibble(leaf.key, depth) != Nibble(k, depth)
    ensures var r := Inner(EmptyChildren()[Nibble(leaf.key, depth) := Some(leaf)][Nibble(k, depth) := Some(Leaf(k, v))]);
            Shape(r, depth) && UpdatedBy(Entries(leaf), Entries(r), k, v)
  {
    assert Entries(leaf) == {Entry(leaf.key, leaf.item)} && Entries(Leaf(k, v)) == {Entry(k, v)};
    hide Entries, Nibble;
    Split(leaf, k, v, depth, EmptyChildren()[Nibble(leaf.key, depth) := Some(leaf)][Nibble(k, depth) := Some(Leaf(k, v))]);
  }

  lemma LeafEntries(k: Key, v: Item)
    ensures Entries(Leaf(k, v)) == {Entry(k, v)}
  {
  }

  /** Below any node, insertion keeps the shape rule and changes exactly the entry of `k`. */
  lemma {:induction false} InsertAtUpdates(n: Node, k: Key, v: Item, depth: nat)
    requires Shape(n, depth) && OnPath(n, k, depth)
    ensures Shape(InsertAt(n, k, v, depth), depth)
    ensures UpdatedBy(Entries(n), Entries(InsertAt(n, k, v, depth)), k, v)
    decreases MAX_DEPTH - depth
  {
    LeafEntries(k, v);
    if n.Leaf? {
      LeafEntries(n.key, n.item);
    }
    hide Entries, Branching, InSlot, OnPath, Nibble;
    match n
    case Inner(children) =>
      var i := Nibble(k, depth);
      if children[i].Some? {
        ChildOnPath(n, k, depth);
        InsertAtUpdates(children[i].value, k, v, depth + 1);
        InsertedIntoInner(n, k, v, depth, InsertAt(children[i].value, k, v, depth + 1));
      } else {
        InsertedIntoInner(n, k, v, depth, Leaf(k, v));
      }
    case Leaf(key, item) =>
      if key != k {
        LeafDiverges(key, item, k, depth);
        if Nibble(key, depth) == Nibble(k, depth) {
          InsertAtUpdates(n, k, v, depth + 1);
          SplitDeeper(n, k, v, depth, InsertAt(n, k, v, depth + 1));
        } else {
          SplitHere(n, k, v, depth);
        }
      }
  }

  // ----- whole tries --------------------------------------------------------------------

  /** A trie: a shaped inner root that stores each key once. */
  ghost predicate IsTrie(root: Node) {
    && root.Inner? && Shape(root, 0)
    && (forall e, f :: e in Entries(root) && f in Entries(root) && e.key == f.key ==> e == f)
  }

  ghost function Contents(root: Node): map<Key, Item>
    requires IsTrie(root)
  {
    map e | e in Entries(root) :: e.key := e.item
  }

  function Insert(root: Node, k: Key, v: Item): Node
    requires IsTrie(root)
  {
    InsertAt(root, k, v, 0)
  }

  lemma EmptyTrie()
    ensures IsTrie(NewRoot()) && Contents(NewRoot()) == map[]
  {
    assert Entries(NewRoot()) == {};
  }

  /** Insert is map update, and its result is a trie again. */
  lemma InsertIsUpdate(root: Node, k: Key, v: Item)
    requires IsTrie(root)
    ensures IsTrie(Insert(root, k, v))
    ensures Contents(Insert(root, k, v)) == Contents(root)[k := v]
  {
    InsertAtUpdates(root, k, v, 0);
    hide Entries, Shape, InsertAt;
    var r, m := Insert(root, k, v), Contents(root)[k := v];
    forall x ensures x in Contents(r) <==> x in m
      ensures x in m ==> Contents(r)[x] == m[x]
    {
      if x in m {
        assert Entry(x, m[x]) in Entries(r);
      }
      if x in Contents(r) {
        var e :| e in Entries(r) && e.key == x;
        assert e == Entry(k, v) || e in Entries(root);
      }
    }
  }

  // ----- the shape is decided by the contents ---------------------------------------------

  lemma NotEmpty(n: Node, depth: nat)
    requires Shape(n, depth) && depth > 0
    ensures Entries(n) != {}
  {
    match n
    case Leaf(k, v) => assert Entry(k, v) in Entries(n);
    case Inner(_) =>
      var e, f :| e in Entries(n) && f in Entries(n) && e.key != f.key;
  }

  /** What a slot holds is read off the entries of its node. */
  lemma SlotEntries(n: Node, depth: nat, i: nat)
    requires n.Inner? && Shape(n, depth) && i < FANOUT
    ensures n.children[i].Some? <==> exists e :: e in Entries(n) && Nibble(e.key, depth) == i
    ensures n.children[i].Some? ==> Entries(n.children[i].value) == set e | e in Entries(n) && Nibble(e.key, depth) == i
  {
    hide Entries;
    forall e ensures e in Entries(n) && Nibble(e.key, depth) == i <==> n.children[i].Some? && e in Entries(n.children[i].value) {
      SlotOf(n.children, depth, e);
      assert InSlot(n.children[i], depth, i);
    }
    if n.children[i].Some? {
      NotEmpty(n.children[i].value, depth + 1);
      var e :| e in Entries(n.children[i].value);
      assert e in Entries(n) && Nibble(e.key, depth) == i;
    }
  }

  /** Below the root a leaf and an inner node never hold the same entries. */
  lemma KindIsDecided(leaf: Node, inner: Node, depth: nat)
    requires leaf.Leaf? && inner.Inner? && depth > 0 && Shape(inner, depth)
    ensures Entries(leaf) != Entries(inner)
  {
    var e, f :| e in Entries(inner) && f in Entries(inner) && e.key != f.key;
    assert !(e in Entries(leaf) && f in Entries(leaf));
  }

  lemma LeafIsDecided(a: Node, b: Node)
    requires a.Leaf? && b.Leaf? && Entries(a) == Entries(b)
    ensures a == b
  {
    assert Entry(a.key, a.item) in Entries(a);
  }

  /** Two shaped nodes at one depth with equal entries are the same node. */
  lemma {:induction false} SameEntriesSameNode(a: Node, b: Node, depth: nat)
    requires Shape(a, depth) && Shape(b, depth) && Entries(a) == Entries(b)
    requires depth == 0 ==> a.Inner? && b.Inner?
    ensures a == b
    decreases a
  {
    hide Entries;
    if a.Inner? && b.Inner? {
      forall i | 0 <= i < FANOUT ensures a.children[i] == b.children[i] {
        SlotEntries(a, depth, i);
        SlotEntries(b, depth, i);
        if a.children[i].Some? {
          SameEntriesSameNode(a.children[i].value, b.children[i].value, depth + 1);
        }
      }
      assert a.children == b.children;
    } else if a.Leaf? && b.Leaf? {
      LeafIsDecided(a, b);
    } else if a.Leaf? {
      KindIsDecided(a, b, depth);
    } else {
      KindIsDecided(b, a, depth);
    }
  }

  /** Equal contents mean equal tries. */
  lemma ContentsDecideTheTrie(a: Node, b: Node)
    requires IsTrie(a) && IsTrie(b) && Contents(a) == Contents(b)
    ensures a == b
  {
    forall e ensures e in Entries(a) <==> e in Entries(b) {
      if e in Entries(a) {
        assert e.key in Contents(a) && Contents(a)[e.key] == e.item && e.key in Contents(b);
      }
      if e in Entries(b) {
        assert e.key in Contents(b) && Contents(b)[e.key] == e.item && e.key in Contents(a);
      }
    }
    SameEntriesSameNode(a, b, 0);
  }

  // ----- any history ------------------------------------------------------------------------

  function Folded(entries: seq<Entry>): map<Key, Item> {
    if entries == [] then map[]
    else Folded(entries[..|entries| - 1])[entries[|entries| - 1].key := entries[|entries| - 1].item]
  }

  /** However a trie was built, its contents are the insertions folded in order. */
  function Built(entries: seq<Entry>): (root: Node)
    ensures IsTrie(root) && Contents(root) == Folded(entries)
  {
    if entries == [] then EmptyTrie(); NewRoot()
    else
      var n := |entries| - 1;
      var before := Built(entries[..n]);
      InsertIsUpdate(before, entries[n].key, entries[n].item);
      Insert(before, entries[n].key, entries[n].item)
  }

  /** Two histories that fold to one map build one trie, whatever they overwrote on the way. */
  lemma HistoryIsForgotten(xs: seq<Entry>, ys: seq<Entry>)
    requires Folded(xs) == Folded(ys)
    ensures Built(xs) == Built(ys)
  {
    ContentsDecideTheTrie(Built(xs), Built(ys));
  }

  ghost predicate DistinctKeys(entries: seq<Entry>) {
    forall i, j :: 0 <= i < j < |entries| ==> entries[i].key != entries[j].key
  }

  lemma {:induction false} FoldOfDistinct(entries: seq<Entry>)
    requires DistinctKeys(entries)
    ensures forall e :: e in entries <==> e.key in Folded(entries) && Folded(entries)[e.key] == e.item
  {
    if entries != [] {
      var n := |entries| - 1;
      FoldOfDistinct(entries[..n]);
      assert entries == entries[..n] + [entries[n]];
    }
  }

  /** Inserting the same distinct keys in any order builds the same trie. */
  lemma OrderDoesNotMatter(xs: seq<Entry>, ys: seq<Entry>)
    requires DistinctKeys(xs) && DistinctKeys(ys) && multiset(xs) == multiset(ys)
    ensures Built(xs) == Built(ys)
  {
    FoldOfDistinct(xs);
    FoldOfDistinct(ys);
    hide Built, Folded, DistinctKeys;
    forall e ensures e in xs <==> e in ys {
      assert e in xs <==> e in multiset(xs);
      assert e in ys <==> e in multiset(ys);
    }
    forall k ensures k in Folded(xs) <==> k in Folded(ys)
      ensures k in Folded(xs) ==> Folded(xs)[k] == Folded(ys)[k]
    {
      if k in Folded(xs) { assert Entry(k, Folded(xs)[k]) in ys; }
      if k in Folded(ys) { assert Entry(k, Folded(ys)[k]) in xs; }
    }
    assert Folded(xs) == Folded(ys);
    HistoryIsForgotten(xs, ys);
  }

  // ----- copy on write --------------------------------------------------------------------

  /** The node reached by a path of nibbles, if there is one. */
  function At(n: Node, path: seq<nat>): Option<Node>
    decreases |path|
  {
    if path == [] then Some(n)
    else if n.Inner? && path[0] < |n.children| && n.children[path[0]].Some?
    then At(n.children[path[0]].value, path[1..])
    else None
  }

  ghost predicate OffPath(k: Key, depth: nat, path: seq<nat>) {
    exists i :: 0 <= i < |path| && depth + i < MAX_DEPTH && path[i] != Nibble(k, depth + i)
  }

  /** Every node off the inserted key's path is shared with the old trie unchanged. */
  lemma {:induction false} OffPathIsShared(n: Node, k: Key, v: Item, depth: nat, path: seq<nat>)
    requires Shape(n, depth) && OnPath(n, k, depth)
    requires OffPath(k, depth, path) && At(n, path).Some?
    ensures At(InsertAt(n, k, v, depth), path) == At(n, path)
    decreases |path|
  {
    hide Entries, Branching, InSlot, OnPath;
    var i := Nibble(k, depth);
    if path[0] == i {
      ChildOnPath(n, k, depth);
      var j :| 0 <= j < |path| && depth + j < MAX_DEPTH && path[j] != Nibble(k, depth + j);
      assert path[1..][j - 1] != Nibble(k, depth + 1 + (j - 1));
      OffPathIsShared(n.children[i].value, k, v, depth + 1, path[1..]);
    }
  }

  /** The map object: `insert` replaces the root, `fork` shares it. */
  class CowMap {
    var root: Node

    ghost predicate Valid()
      reads this
    {
      IsTrie(root)
    }

    constructor ()
      ensures Valid() && Contents(root) == map[]
    {
      EmptyTrie();
      root := NewRoot();
    }

    constructor Sharing(shared: Node)
      requires IsTrie(shared)
      ensures Valid() && root == shared
    {
      root := shared;
    }

    method Fork() returns (copy: CowMap)
      requires Valid()
      ensures fresh(copy) && copy.Valid() && copy.root == root
    {
      copy := new CowMap.Sharing(root);
    }

    method Put(k: Key, v: Item)
      requires Valid()
      modifies this
      ensures Valid() && Contents(root) == old(Contents(root))[k := v]
      ensures forall path :: OffPath(k, 0, path) && At(old(root), path).Some? ==> At(root, path) == At(old(root), path)
    {
      InsertIsUpdate(root, k, v);
      forall path | OffPath(k, 0, path) && At(root, path).Some?
        ensures At(Insert(root, k, v), path) == At(root, path)
      {
        OffPathIsShared(root, k, v, 0, path);
      }
      root := Insert(root, k, v);
    }
  }

  /** A fork and its origin diverge freely: writes to one never show in the other. */
  method Diverge(m: CowMap, mine: seq<Entry>, theirs: seq<Entry>) returns (fork: CowMap)
    requires m.Valid()
    modifies m
    ensures m.Valid() && fork.Valid() && fork != m
    ensures Contents(m.root) == old(Contents(m.root)) + Folded(mine)
    ensures Contents(fork.root) == old(Contents(m.root)) + Folded(theirs)
  {
    hide IsTrie, Contents, Folded;
    fork := m.Fork();
    PutAll(m, mine);
    PutAll(fork, theirs);
  }

  method PutAll(m: CowMap, entries: seq<Entry>)
    requires m.Valid()
    modifies m
    ensures m.Valid() && Contents(m.root) == old(Contents(m.root)) + Folded(entries)
  {
    hide IsTrie, Contents, At, OffPath;
    for i := 0 to |entries|
      invariant m.Valid() && Contents(m.root) == old(Contents(m.root)) + Folded(entries[..i])
    {
      m.Put(entries[i].key, entries[i].item);
      assert entries[..i + 1][..i] == entries[..i];
    }
    assert entries[..|entries|] == entries;
  }
}
