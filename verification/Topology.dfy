/** The cluster topology that the MDS stores: a tree of poolsets, physical pools, zones
    and servers in which every node knows its parent and every parent lists its children.
    Level 0 holds the single root; the root's child list is the order in which the MDS
    happens to enumerate its poolsets. */
module Topology {
  import opened ListDiff

  const ROOT: nat := 0
  const POOLSET: nat := 1
  const POOL: nat := 2
  const ZONE: nat := 3
  const SERVER: nat := 4

  /** A level below the root. */
  type Kind = k: nat | 1 <= k <= 4 witness 1

  const DEFAULT_POOLSET_ID: nat := 1
  const DEFAULT_POOLSET_NAME: string := "default"

  /** The children of a server are its chunkservers that are not retired. */
  datatype Node = Node(name: string, parent: nat, children: seq<nat>)

  type Level = map<nat, Node>

  /** The two addresses of a server. */
  datatype Host = Host(internalIp: string, internalPort: nat, externalIp: string, externalPort: nat)

  /** lastIds holds the largest id handed out on each level; ids only ever go up. */
  datatype Topology = Topology(levels: seq<Level>, hosts: map<nat, Host>, lastIds: seq<nat>) {
    predicate HasShape() {
      |levels| == 5 && |lastIds| == 5
    }
  }

  // ---------------------------------------------------------------- keys

  /** The name of a node followed by the names of its ancestors, at most w names. */
  function NamesUp(t: Topology, k: nat, id: nat, w: nat): Key
    requires t.HasShape() && k <= 4
  {
    if w == 0 || k == 0 || id !in t.levels[k] then []
    else [t.levels[k][id].name] + NamesUp(t, k - 1, t.levels[k][id].parent, w - 1)
  }

  /** How many names identify an item: poolset, pool in poolset, zone in pool, server in zone in pool. */
  function Width(k: Kind): nat {
    if k == POOLSET then 1 else if k == SERVER then 3 else 2
  }

  function KeyAt(t: Topology, k: Kind, id: nat): Key
    requires t.HasShape()
  {
    NamesUp(t, k, id, Width(k))
  }

  ghost function Keys(t: Topology, k: Kind): map<nat, Key>
    requires t.HasShape()
  {
    map id | id in t.levels[k] :: KeyAt(t, k, id)
  }

  ghost predicate Injective(m: map<nat, Key>) {
    forall x, y | x in m && y in m && m[x] == m[y] :: x == y
  }

  // ---------------------------------------------------------------- well-formed trees

  /** Child lists and parent pointers say the same, and no list repeats a child. */
  ghost predicate Linked(ps: Level, ks: Level) {
    && (forall p | p in ps :: NoDup(ps[p].children))
    && (forall p, c | p in ps && c in ps[p].children :: c in ks && ks[c].parent == p)
    && (forall c | c in ks :: ks[c].parent in ps && c in ps[ks[c].parent].children)
  }

  ghost predicate LinkedAt(t: Topology, k: Kind)
    requires t.HasShape()
  {
    Linked(t.levels[k - 1], t.levels[k])
  }

  /** The default poolset exists, owns its name, and no two poolsets share a name. */
  ghost predicate PoolsetsNamed(l: Level) {
    && DEFAULT_POOLSET_ID in l
    && (forall x | x in l :: l[x].name == DEFAULT_POOLSET_NAME <==> x == DEFAULT_POOLSET_ID)
    && (forall x, y | x in l && y in l && l[x].name == l[y].name :: x == y)
  }

  /** Every id in use has been handed out. */
  ghost predicate Numbered(t: Topology)
    requires t.HasShape()
  {
    forall k: Kind, x | x in t.levels[k].Keys :: x <= t.lastIds[k]
  }

  ghost predicate WellFormed(t: Topology) {
    && t.HasShape()
    && t.levels[ROOT].Keys == {0}
    && LinkedAt(t, POOLSET) && LinkedAt(t, POOL) && LinkedAt(t, ZONE) && LinkedAt(t, SERVER)
    && PoolsetsNamed(t.levels[POOLSET])
    && t.hosts.Keys == t.levels[SERVER].Keys
    && Numbered(t)
  }

  lemma WellFormedAt(t: Topology, k: Kind)
    requires WellFormed(t)
    ensures LinkedAt(t, k)
  {
    if k == 1 {} else if k == 2 {} else if k == 3 {} else { assert k == 4; }
  }

  /** Every node below the root has its parent on the level above. */
  ghost predicate Rooted(t: Topology) {
    t.HasShape() && forall k: Kind, id | id in t.levels[k] :: t.levels[k][id].parent in t.levels[k - 1]
  }

  lemma WellFormedIsRooted(t: Topology)
    requires WellFormed(t)
    ensures Rooted(t)
  {
    forall k: Kind, id | id in t.levels[k] ensures t.levels[k][id].parent in t.levels[k - 1] {
      WellFormedAt(t, k);
    }
  }

  /** Nodes present in both topologies have the same name and the same parent. */
  ghost predicate Agree(t: Topology, t': Topology) {
    && t.HasShape() && t'.HasShape()
    && forall k: nat, id | k <= 4 && id in t.levels[k] && id in t'.levels[k] ::
         t.levels[k][id].name == t'.levels[k][id].name && t.levels[k][id].parent == t'.levels[k][id].parent
  }

  lemma {:induction false} NamesUpAgree(t: Topology, t': Topology, k: nat, id: nat, w: nat)
    requires Rooted(t) && Rooted(t') && Agree(t, t')
    requires k <= 4 && id in t.levels[k] && id in t'.levels[k]
    ensures NamesUp(t, k, id, w) == NamesUp(t', k, id, w)
  {
    if w != 0 && k != 0 {
      NamesUpAgree(t, t', k - 1, t.levels[k][id].parent, w - 1);
    }
  }

  /** Nodes that survive a change keep their key. */
  lemma KeysAgree(t: Topology, t': Topology, k: Kind)
    requires Rooted(t) && Rooted(t') && Agree(t, t')
    ensures forall id | id in Keys(t, k) && id in Keys(t', k) :: Keys(t, k)[id] == Keys(t', k)[id]
  {
    forall id | id in t.levels[k] && id in t'.levels[k]
      ensures KeyAt(t, k, id) == KeyAt(t', k, id)
    {
      NamesUpAgree(t, t', k, id, Width(k));
    }
  }

  // ---------------------------------------------------------------- removing a leaf

  /** std::list::remove. */
  function Minus(ids: seq<nat>, x: nat): (r: seq<nat>)
    ensures forall y :: y in r <==> y in ids && y != x
    ensures NoDup(ids) ==> NoDup(r)
  {
    if ids == [] then []
    else
      var rest := Minus(ids[1..], x);
      assert ids == [ids[0]] + ids[1..];
      assert NoDup(ids) ==> ids[0] !in ids[1..];
      if ids[0] == x then rest else [ids[0]] + rest
  }

  lemma {:induction false} MinusAbsent(ids: seq<nat>, x: nat)
    requires x !in ids
    ensures Minus(ids, x) == ids
  {
    if ids != [] {
      assert ids == [ids[0]] + ids[1..];
      MinusAbsent(ids[1..], x);
    }
  }

  function Removed(t: Topology, k: Kind, id: nat): Topology
    requires t.HasShape() && id in t.levels[k] && t.levels[k][id].parent in t.levels[k - 1]
  {
    var p := t.levels[k][id].parent;
    var up := t.levels[k - 1];
    var levels := t.levels[k - 1 := up[p := up[p].(children := Minus(up[p].children, id))]];
    Topology(levels[k := t.levels[k] - {id}], if k == SERVER then t.hosts - {id} else t.hosts, t.lastIds)
  }

  lemma RemovedLinks(ps: Level, ks: Level, id: nat)
    requires Linked(ps, ks) && id in ks
    ensures ks[id].parent in ps
    ensures var p := ks[id].parent;
            Linked(ps[p := ps[p].(children := Minus(ps[p].children, id))], ks - {id})
  {
    hide Minus, NoDup, Linked;
    ParentLists(ps, ks, id);
    var p := ks[id].parent;
    var rest := Minus(ps[p].children, id);
    RemovedLists(ps, ks, id, p, rest);
  }

  lemma ParentLists(ps: Level, ks: Level, c: nat)
    requires Linked(ps, ks) && c in ks
    ensures ks[c].parent in ps && c in ps[ks[c].parent].children && NoDup(ps[ks[c].parent].children)
  {
    hide NoDup;
  }

  lemma RemovedLists(ps: Level, ks: Level, id: nat, p: nat, rest: seq<nat>)
    requires Linked(ps, ks) && id in ks && p == ks[id].parent && p in ps
    requires NoDup(rest) && forall y :: y in rest <==> y in ps[p].children && y != id
    ensures Linked(ps[p := ps[p].(children := rest)], ks - {id})
  {
    hide NoDup;
  }

  lemma RelistedLinks(ps: Level, ks: Level, id: nat, children: seq<nat>)
    requires Linked(ps, ks) && id in ks
    ensures Linked(ps, ks[id := ks[id].(children := children)])
  {
    hide NoDup;
  }

  lemma LeafGoneLinks(ps: Level, ks: Level, id: nat)
    requires Linked(ps, ks) && id in ps && ps[id].children == []
    ensures Linked(ps - {id}, ks)
  {
    hide NoDup;
  }

  lemma RemovedLinkedAt(t: Topology, k: Kind, id: nat, j: Kind)
    requires t.HasShape() && LinkedAt(t, k) && LinkedAt(t, j)
    requires id in t.levels[k] && t.levels[k][id].children == []
    ensures t.levels[k][id].parent in t.levels[k - 1]
    ensures LinkedAt(Removed(t, k, id), j)
  {
    hide Minus, Linked;
    RemovedLinks(t.levels[k - 1], t.levels[k], id);
    var t' := Removed(t, k, id);
    if j == k - 1 {
      var p := t.levels[k][id].parent;
      RelistedLinks(t.levels[j - 1], t.levels[j], p, Minus(t.levels[j][p].children, id));
    } else if j == k + 1 {
      LeafGoneLinks(t.levels[k], t.levels[j], id);
    } else if j != k {
      assert t'.levels[j] == t.levels[j] && t'.levels[j - 1] == t.levels[j - 1];
    }
  }

  lemma RemovedLevels(t: Topology, k: Kind, id: nat)
    requires t.HasShape() && id in t.levels[k] && t.levels[k][id].parent in t.levels[k - 1]
    ensures Removed(t, k, id).HasShape() && Agree(t, Removed(t, k, id))
    ensures forall j: nat | j <= 4 ::
              Removed(t, k, id).levels[j].Keys == t.levels[j].Keys - if j == k then {id} else {}
    ensures Removed(t, k, id).hosts.Keys == t.hosts.Keys - if k == SERVER then {id} else {}
  {
    hide Minus;
  }

  /** The children lists lose the node, which at most its parent has. */
  ghost predicate Pruned(t: Topology, t': Topology, k: Kind, id: nat)
    requires t.HasShape() && t'.HasShape()
  {
    forall j: nat, x | j < 4 && x in t'.levels[j] && x in t.levels[j] ::
      t'.levels[j][x].children == if j == k - 1 then Minus(t.levels[j][x].children, id) else t.levels[j][x].children
  }

  lemma RemovedIsPruned(t: Topology, k: Kind, id: nat)
    requires t.HasShape() && LinkedAt(t, k) && id in t.levels[k] && t.levels[k][id].parent in t.levels[k - 1]
    ensures Removed(t, k, id).HasShape() && Pruned(t, Removed(t, k, id), k, id)
  {
    hide Minus;
    var t' := Removed(t, k, id);
    forall j: nat, x | j < 4 && x in t'.levels[j] && x in t.levels[j]
      ensures t'.levels[j][x].children == if j == k - 1 then Minus(t.levels[j][x].children, id) else t.levels[j][x].children
    {
      if j == k - 1 && x != t.levels[k][id].parent {
        assert id !in t.levels[j][x].children;
        MinusAbsent(t.levels[j][x].children, id);
      }
    }
  }

  lemma RemovedNumbers(t: Topology, k: Kind, id: nat)
    requires t.HasShape() && id in t.levels[k] && t.levels[k][id].parent in t.levels[k - 1] && Numbered(t)
    ensures Removed(t, k, id).HasShape() && Numbered(Removed(t, k, id))
  {
    hide Minus, Agree;
    RemovedLevels(t, k, id);
  }

  lemma RemovedNames(t: Topology, k: Kind, id: nat)
    requires t.HasShape() && id in t.levels[k] && t.levels[k][id].parent in t.levels[k - 1]
    requires PoolsetsNamed(t.levels[POOLSET])
    requires k == POOLSET ==> id != DEFAULT_POOLSET_ID
    ensures PoolsetsNamed(Removed(t, k, id).levels[POOLSET])
  {
    hide Minus;
    if k != POOLSET && k != POOL {
      assert Removed(t, k, id).levels[POOLSET] == t.levels[POOLSET];
    }
  }

  /** Removing a childless node, other than the default poolset, keeps the tree well formed. */
  lemma RemovedIsWellFormed(t: Topology, k: Kind, id: nat)
    requires WellFormed(t) && id in t.levels[k] && t.levels[k][id].children == []
    requires k == POOLSET ==> id != DEFAULT_POOLSET_ID
    ensures t.levels[k][id].parent in t.levels[k - 1]
    ensures WellFormed(Removed(t, k, id)) && Agree(t, Removed(t, k, id))
    ensures forall j: nat | j <= 4 ::
              Removed(t, k, id).levels[j].Keys == t.levels[j].Keys - if j == k then {id} else {}
  {
    hide LinkedAt, Removed, PoolsetsNamed, Agree, Numbered;
    WellFormedIsRooted(t);
    RemovedLevels(t, k, id);
    RemovedNumbers(t, k, id);
    RemovedNames(t, k, id);
    var t' := Removed(t, k, id);
    forall j: Kind ensures LinkedAt(t', j) {
      WellFormedAt(t, k);
      WellFormedAt(t, j);
      RemovedLinkedAt(t, k, id, j);
    }
  }

  // ---------------------------------------------------------------- adding a leaf

  /** The child list of the parent after adding id: the same children and id, in some order. */
  predicate Enlists(old': seq<nat>, id: nat, new': seq<nat>) {
    && NoDup(new') && id in new'
    && (forall x | x in old' :: x in new')
    && (forall x | x in new' :: x in old' || x == id)
  }

  /** The next id is new to every list of children. */
  lemma NextIdEnlists(t: Topology, k: Kind, parent: nat, id: nat)
    requires t.HasShape() && LinkedAt(t, k) && Numbered(t) && parent in t.levels[k - 1] && id > t.lastIds[k]
    ensures Enlists(t.levels[k - 1][parent].children, id, t.levels[k - 1][parent].children + [id])
  {
    assert id !in t.levels[k].Keys;
    assert id !in t.levels[k - 1][parent].children;
  }

  function Inserted(t: Topology, k: Kind, id: nat, name: string, parent: nat, siblings: seq<nat>, host: Host): Topology
    requires t.HasShape() && parent in t.levels[k - 1]
  {
    var up := t.levels[k - 1];
    var levels := t.levels[k - 1 := up[parent := up[parent].(children := siblings)]];
    Topology(levels[k := t.levels[k][id := Node(name, parent, [])]],
             if k == SERVER then t.hosts[id := host] else t.hosts,
             t.lastIds[k := id])
  }

  lemma InsertedLinks(ps: Level, ks: Level, id: nat, name: string, p: nat, siblings: seq<nat>)
    requires Linked(ps, ks) && id !in ks && p in ps && Enlists(ps[p].children, id, siblings)
    ensures Linked(ps[p := ps[p].(children := siblings)], ks[id := Node(name, p, [])])
  {
    hide NoDup;
  }

  lemma NewLeafLinks(ps: Level, ks: Level, id: nat, name: string, p: nat)
    requires Linked(ps, ks) && id !in ps
    ensures Linked(ps[id := Node(name, p, [])], ks)
  {
  }

  lemma InsertedLinkedAt(t: Topology, k: Kind, id: nat, name: string, parent: nat, siblings: seq<nat>, host: Host, j: Kind)
    requires t.HasShape() && LinkedAt(t, k) && LinkedAt(t, j)
    requires id !in t.levels[k] && parent in t.levels[k - 1]
    requires Enlists(t.levels[k - 1][parent].children, id, siblings)
    ensures LinkedAt(Inserted(t, k, id, name, parent, siblings, host), j)
  {
    hide Linked, Enlists;
    var t' := Inserted(t, k, id, name, parent, siblings, host);
    if j == k {
      InsertedLinks(t.levels[k - 1], t.levels[k], id, name, parent, siblings);
    } else if j == k - 1 {
      RelistedLinks(t.levels[j - 1], t.levels[j], parent, siblings);
    } else if j == k + 1 {
      NewLeafLinks(t.levels[k], t.levels[j], id, name, parent);
    } else {
      assert t'.levels[j] == t.levels[j] && t'.levels[j - 1] == t.levels[j - 1];
    }
  }

  lemma InsertedLevels(t: Topology, k: Kind, id: nat, name: string, parent: nat, siblings: seq<nat>, host: Host)
    requires t.HasShape() && id !in t.levels[k] && parent in t.levels[k - 1]
    ensures var t' := Inserted(t, k, id, name, parent, siblings, host);
            && Agree(t, t')
            && t'.hosts.Keys == t.hosts.Keys + (if k == SERVER then {id} else {})
            && forall j: nat | j <= 4 :: t'.levels[j].Keys == t.levels[j].Keys + if j == k then {id} else {}
  {
  }

  lemma InsertedNumbers(t: Topology, k: Kind, id: nat, name: string, parent: nat, siblings: seq<nat>, host: Host)
    requires t.HasShape() && id > t.lastIds[k] && parent in t.levels[k - 1] && Numbered(t)
    ensures id !in t.levels[k] && Numbered(Inserted(t, k, id, name, parent, siblings, host))
  {
    hide Agree;
    assert id !in t.levels[k].Keys;
    InsertedLevels(t, k, id, name, parent, siblings, host);
  }

  lemma InsertedNames(t: Topology, k: Kind, id: nat, name: string, parent: nat, siblings: seq<nat>, host: Host)
    requires t.HasShape() && id !in t.levels[k] && parent in t.levels[k - 1]
    requires PoolsetsNamed(t.levels[POOLSET])
    requires k == POOLSET ==> forall x | x in t.levels[k] :: t.levels[k][x].name != name
    ensures PoolsetsNamed(Inserted(t, k, id, name, parent, siblings, host).levels[POOLSET])
  {
    if k != POOLSET && k != POOL {
      assert Inserted(t, k, id, name, parent, siblings, host).levels[POOLSET] == t.levels[POOLSET];
    }
  }

  /** Adding a node with a fresh id under an existing parent keeps the tree well formed. */
  lemma InsertedIsWellFormed(t: Topology, k: Kind, id: nat, name: string, parent: nat, siblings: seq<nat>, host: Host)
    requires WellFormed(t) && id > t.lastIds[k] && parent in t.levels[k - 1]
    requires Enlists(t.levels[k - 1][parent].children, id, siblings)
    requires k == POOLSET ==> forall x | x in t.levels[k] :: t.levels[k][x].name != name
    ensures var t' := Inserted(t, k, id, name, parent, siblings, host);
            && WellFormed(t') && Agree(t, t')
            && forall j: nat | j <= 4 :: t'.levels[j].Keys == t.levels[j].Keys + if j == k then {id} else {}
  {
    hide LinkedAt, Enlists, Inserted, PoolsetsNamed, Agree, Numbered;
    var t' := Inserted(t, k, id, name, parent, siblings, host);
    InsertedNumbers(t, k, id, name, parent, siblings, host);
    InsertedLevels(t, k, id, name, parent, siblings, host);
    InsertedNames(t, k, id, name, parent, siblings, host);
    forall j: Kind ensures LinkedAt(t', j) {
      WellFormedAt(t, k);
      WellFormedAt(t, j);
      InsertedLinkedAt(t, k, id, name, parent, siblings, host, j);
    }
  }

  lemma InsertedKey(t: Topology, k: Kind, id: nat, name: string, parent: nat, siblings: seq<nat>, host: Host)
    requires t.HasShape() && parent in t.levels[k - 1]
    requires var t' := Inserted(t, k, id, name, parent, siblings, host);
             Rooted(t) && Rooted(t') && Agree(t, t')
    ensures KeyAt(Inserted(t, k, id, name, parent, siblings, host), k, id) ==
            [name] + NamesUp(t, k - 1, parent, Width(k) - 1)
  {
    NamesUpAgree(t, Inserted(t, k, id, name, parent, siblings, host), k - 1, parent, Width(k) - 1);
  }
}
