/** What it means for a topology to be what the cluster map asks for, said node by node in terms of
    names and parents. */
module Layout {
  import opened ListDiff
  import opened Topology
  import opened ClusterMap

  // ---------------------------------------------------------------- where a node hangs

  ghost predicate PoolsetAt(t: Topology, x: nat, name: string)
    requires t.HasShape()
  {
    x in t.levels[POOLSET] && t.levels[POOLSET][x].name == name
  }

  /** Pool x hangs under the poolset of that name. */
  ghost predicate PoolAt(t: Topology, x: nat, pool: string, poolset: string)
    requires t.HasShape()
  {
    x in t.levels[POOL] && t.levels[POOL][x].name == pool && PoolsetAt(t, t.levels[POOL][x].parent, poolset)
  }

  /** Zone x hangs under a pool of that name. */
  ghost predicate ZoneAt(t: Topology, x: nat, zone: string, pool: string)
    requires t.HasShape()
  {
    && x in t.levels[ZONE] && t.levels[ZONE][x].name == zone
    && t.levels[ZONE][x].parent in t.levels[POOL] && t.levels[POOL][t.levels[ZONE][x].parent].name == pool
  }

  /** Server x hangs under a zone of that name in a pool of that name. */
  ghost predicate ServerAt(t: Topology, x: nat, server: string, zone: string, pool: string)
    requires t.HasShape()
  {
    x in t.levels[SERVER] && t.levels[SERVER][x].name == server && ZoneAt(t, t.levels[SERVER][x].parent, zone, pool)
  }

  // ---------------------------------------------------------------- laid out as configured

  /** Poolset x is the one that entry i configures; behind the last entry comes the default poolset. */
  ghost predicate PoolsetServes(t: Topology, m: ClusterMap, x: nat, i: nat)
    requires t.HasShape()
  {
    if i < |m.poolsets| then PoolsetAt(t, x, m.poolsets[i].name) else i == |m.poolsets| && PoolsetAt(t, x, "default")
  }

  /** Entry i is the first to name its pool, and pool x hangs where the entry wants it. */
  ghost predicate PoolServes(t: Topology, m: ClusterMap, x: nat, i: nat)
    requires t.HasShape()
  {
    && NamesPoolFirst(m, i)
    && PoolAt(t, x, m.servers[i].physicalPoolName, if m.servers[i].poolsetName == "" then "default" else m.servers[i].poolsetName)
  }

  ghost predicate ZoneServes(t: Topology, m: ClusterMap, x: nat, i: nat)
    requires t.HasShape()
  {
    i < |m.servers| && ZoneAt(t, x, m.servers[i].zoneName, m.servers[i].physicalPoolName)
  }

  /** Entry i is the first to name its server, and server x hangs where the entry wants it. */
  ghost predicate ServerServes(t: Topology, m: ClusterMap, x: nat, i: nat)
    requires t.HasShape()
  {
    NamesServerFirst(m, i) && ServerAt(t, x, m.servers[i].serverName, m.servers[i].zoneName, m.servers[i].physicalPoolName)
  }

  ghost predicate PoolsetServed(t: Topology, m: ClusterMap, i: nat)
    requires t.HasShape()
  {
    exists x :: PoolsetServes(t, m, x, i)
  }

  ghost predicate PoolServed(t: Topology, m: ClusterMap, i: nat)
    requires t.HasShape()
  {
    exists x :: PoolServes(t, m, x, i)
  }

  ghost predicate ZoneServed(t: Topology, m: ClusterMap, i: nat)
    requires t.HasShape()
  {
    exists x :: ZoneServes(t, m, x, i)
  }

  ghost predicate ServerServed(t: Topology, m: ClusterMap, i: nat)
    requires t.HasShape()
  {
    exists x :: ServerServes(t, m, x, i)
  }

  /** The poolsets are the configured ones and the default one, each once. */
  ghost predicate PoolsetsLaid(t: Topology, m: ClusterMap)
    requires t.HasShape()
  {
    && (forall i: nat | i <= |m.poolsets| :: PoolsetServed(t, m, i))
    && (forall x | x in t.levels[POOLSET] :: exists i :: PoolsetServes(t, m, x, i))
    && (forall x, y, name | PoolsetAt(t, x, name) && PoolsetAt(t, y, name) :: x == y)
  }

  /** The pools are those that server entries name, each once, in the poolset that the first entry with the
      pool's name gives. */
  ghost predicate PoolsLaid(t: Topology, m: ClusterMap)
    requires t.HasShape()
  {
    && (forall i: nat | NamesPoolFirst(m, i) :: PoolServed(t, m, i))
    && (forall x | x in t.levels[POOL] :: exists i :: PoolServes(t, m, x, i))
    && (forall x, y, pool, a, b | PoolAt(t, x, pool, a) && PoolAt(t, y, pool, b) :: x == y)
  }

  /** The zones are those that server entries name, each once in its pool. */
  ghost predicate ZonesLaid(t: Topology, m: ClusterMap)
    requires t.HasShape()
  {
    && (forall i: nat | i < |m.servers| :: ZoneServed(t, m, i))
    && (forall x | x in t.levels[ZONE] :: exists i :: ZoneServes(t, m, x, i))
    && (forall x, y, zone, pool | ZoneAt(t, x, zone, pool) && ZoneAt(t, y, zone, pool) :: x == y)
  }

  /** The servers are those of the entries that first name a server, each once. */
  ghost predicate ServersLaid(t: Topology, m: ClusterMap)
    requires t.HasShape()
  {
    && (forall i: nat | NamesServerFirst(m, i) :: ServerServed(t, m, i))
    && (forall x | x in t.levels[SERVER] :: exists i :: ServerServes(t, m, x, i))
    && (forall x, y, server, zone, pool | ServerAt(t, x, server, zone, pool) && ServerAt(t, y, server, zone, pool) :: x == y)
  }

  // ---------------------------------------------------------------- keys are names

  lemma PoolsetKeyIs(t: Topology, x: nat)
    requires t.HasShape() && x in t.levels[POOLSET]
    ensures KeyAt(t, POOLSET, x) == [t.levels[POOLSET][x].name]
  {
    assert NamesUp(t, 0, t.levels[POOLSET][x].parent, 0) == [];
  }

  lemma PoolKeyIs(t: Topology, x: nat, pool: string, poolset: string)
    requires Rooted(t) && x in t.levels[POOL]
    ensures KeyAt(t, POOL, x) == [pool, poolset] <==> PoolAt(t, x, pool, poolset)
  {
    var up := t.levels[POOL][x].parent;
    assert up in t.levels[POOLSET];
    PoolsetKeyIs(t, up);
    SameNames(KeyAt(t, POOL, x), t.levels[POOL][x].name, [t.levels[POOLSET][up].name], pool, [poolset]);
    assert [pool, poolset] == [pool] + [poolset];
  }

  lemma SameNames(key: Key, name: string, rest: Key, name': string, rest': Key)
    requires key == [name] + rest
    ensures key == [name'] + rest' <==> name == name' && rest == rest'
  {
    assert key[0] == name && key[1..] == rest;
    assert ([name'] + rest')[0] == name' && ([name'] + rest')[1..] == rest';
  }

  lemma ZoneKeyIs(t: Topology, x: nat, zone: string, pool: string)
    requires Rooted(t) && x in t.levels[ZONE]
    ensures KeyAt(t, ZONE, x) == [zone, pool] <==> ZoneAt(t, x, zone, pool)
  {
    var up := t.levels[ZONE][x].parent;
    assert up in t.levels[POOL];
    assert NamesUp(t, POOL, up, 1) == [t.levels[POOL][up].name] + NamesUp(t, POOLSET, t.levels[POOL][up].parent, 0);
    assert NamesUp(t, POOL, up, 1) == [t.levels[POOL][up].name];
    SameNames(KeyAt(t, ZONE, x), t.levels[ZONE][x].name, [t.levels[POOL][up].name], zone, [pool]);
    assert [zone, pool] == [zone] + [pool];
  }

  lemma ServerKeyIs(t: Topology, x: nat, server: string, zone: string, pool: string)
    requires Rooted(t) && x in t.levels[SERVER]
    ensures KeyAt(t, SERVER, x) == [server, zone, pool] <==> ServerAt(t, x, server, zone, pool)
  {
    hide NamesUp;
    var up := t.levels[SERVER][x].parent;
    assert up in t.levels[ZONE];
    ServerKeyUp(t, x);
    ZoneKeyIs(t, up, zone, pool);
    SameNames(KeyAt(t, SERVER, x), t.levels[SERVER][x].name, KeyAt(t, ZONE, up), server, [zone, pool]);
    assert [server, zone, pool] == [server] + [zone, pool];
  }

  lemma ServerKeyUp(t: Topology, x: nat)
    requires t.HasShape() && x in t.levels[SERVER]
    ensures KeyAt(t, SERVER, x) == [t.levels[SERVER][x].name] + KeyAt(t, ZONE, t.levels[SERVER][x].parent)
  {
  }

  // ---------------------------------------------------------------- what is wanted, by the fields of the entries

  /** The keys that the map asks for, by the fields of its entries. */
  lemma WantedByFields(m: ClusterMap, q: Key)
    ensures q in Wanted(m, POOLSET) <==> q == ["default"] || exists i: nat :: i < |m.poolsets| && q == [m.poolsets[i].name]
    ensures q in Wanted(m, POOL) <==>
            exists i: nat ::
              && NamesPoolFirst(m, i)
              && q == [m.servers[i].physicalPoolName, if m.servers[i].poolsetName == "" then "default" else m.servers[i].poolsetName]
    ensures q in Wanted(m, ZONE) <==> exists i: nat :: i < |m.servers| && q == [m.servers[i].zoneName, m.servers[i].physicalPoolName]
    ensures q in Wanted(m, SERVER) <==>
            exists i: nat ::
              && NamesServerFirst(m, i)
              && q == [m.servers[i].serverName, m.servers[i].zoneName, m.servers[i].physicalPoolName]
  {
  }

  /** The keys of the entries that count, by the fields of the entries. */
  ghost function PoolsetEntries(m: ClusterMap): map<nat, Key> {
    map i: nat | i <= |m.poolsets| :: if i < |m.poolsets| then [m.poolsets[i].name] else ["default"]
  }

  ghost function PoolEntries(m: ClusterMap): map<nat, Key> {
    map i: nat | i < |m.servers| && NamesPoolFirst(m, i) ::
      [m.servers[i].physicalPoolName, if m.servers[i].poolsetName == "" then "default" else m.servers[i].poolsetName]
  }

  ghost function ZoneEntries(m: ClusterMap): map<nat, Key> {
    map i: nat | i < |m.servers| :: [m.servers[i].zoneName, m.servers[i].physicalPoolName]
  }

  ghost function ServerEntries(m: ClusterMap): map<nat, Key> {
    map i: nat | i < |m.servers| && NamesServerFirst(m, i) ::
      [m.servers[i].serverName, m.servers[i].zoneName, m.servers[i].physicalPoolName]
  }

  lemma ValuesOf(entries: map<nat, Key>, q: Key)
    ensures q in entries.Values <==> exists i :: i in entries && entries[i] == q
  {
  }

  lemma PoolsetsWanted(m: ClusterMap)
    ensures PoolsetEntries(m).Values == Wanted(m, POOLSET)
  {
    hide Wanted;
    var es := PoolsetEntries(m);
    assert es[|m.poolsets|] == ["default"];
    forall q ensures q in es.Values <==> q in Wanted(m, POOLSET) {
      WantedByFields(m, q);
      ValuesOf(es, q);
      if i: nat :| i < |m.poolsets| && q == [m.poolsets[i].name] {
        assert es[i] == q;
      }
    }
  }

  lemma PoolsWanted(m: ClusterMap)
    ensures PoolEntries(m).Values == Wanted(m, POOL)
  {
    hide Wanted;
    var es := PoolEntries(m);
    forall q ensures q in es.Values <==> q in Wanted(m, POOL) {
      WantedByFields(m, q);
      ValuesOf(es, q);
      if i: nat :| NamesPoolFirst(m, i) &&
                   q == [m.servers[i].physicalPoolName, if m.servers[i].poolsetName == "" then "default" else m.servers[i].poolsetName] {
        assert i in es && es[i] == q;
      }
    }
  }

  lemma ZonesWanted(m: ClusterMap)
    ensures ZoneEntries(m).Values == Wanted(m, ZONE)
  {
    hide Wanted;
    var es := ZoneEntries(m);
    forall q ensures q in es.Values <==> q in Wanted(m, ZONE) {
      WantedByFields(m, q);
      ValuesOf(es, q);
      if i: nat :| i < |m.servers| && q == [m.servers[i].zoneName, m.servers[i].physicalPoolName] {
        assert es[i] == q;
      }
    }
  }

  lemma ServersWanted(m: ClusterMap)
    ensures ServerEntries(m).Values == Wanted(m, SERVER)
  {
    hide Wanted;
    var es := ServerEntries(m);
    forall q ensures q in es.Values <==> q in Wanted(m, SERVER) {
      WantedByFields(m, q);
      ValuesOf(es, q);
      if i: nat :| NamesServerFirst(m, i) && q == [m.servers[i].serverName, m.servers[i].zoneName, m.servers[i].physicalPoolName] {
        assert i in es && es[i] == q;
      }
    }
  }

  /** Poolsets are declared when the poolset that each pool is to sit in is left out, the default one, or configured. */
  lemma DeclaredByFields(m: ClusterMap)
    ensures PoolsetsDeclared(m) <==>
            forall i: nat | NamesPoolFirst(m, i) ::
              var poolset := m.servers[i].poolsetName;
              poolset == "" || poolset == "default" || exists j: nat :: j < |m.poolsets| && m.poolsets[j].name == poolset
  {
    hide Wanted, NamesPoolFirst;
    FirstIsEntry(m);
    forall i: nat | NamesPoolFirst(m, i)
      ensures var poolset := m.servers[i].poolsetName;
              [PoolOf(m.servers[i]).poolsetName] in Wanted(m, POOLSET) <==>
              poolset == "" || poolset == "default" || exists j: nat :: j < |m.poolsets| && m.poolsets[j].name == poolset
    {
      var name := PoolOf(m.servers[i]).poolsetName;
      WantedByFields(m, [name]);
      assert [name][0] == name && ["default"][0] == "default";
      assert forall j: nat | j < |m.poolsets| :: [m.poolsets[j].name][0] == m.poolsets[j].name;
    }
  }

  // ---------------------------------------------------------------- carrying the wanted keys is being laid out

  ghost predicate Carrier(keys: map<nat, Key>, x: nat, q: Key) {
    x in keys && keys[x] == q
  }

  ghost predicate Carried(keys: map<nat, Key>, q: Key) {
    exists x :: Carrier(keys, x, q)
  }

  /** When entries stand for the wanted keys, these are carried exactly once if and only if every entry has a
      node with its key, every node has the key of an entry, and no two nodes share a key. */
  lemma ServedIff(keys: map<nat, Key>, wanted: set<Key>, entries: map<nat, Key>)
    requires entries.Values == wanted
    ensures ExactlyOnce(keys, wanted) <==>
            && (forall i | i in entries :: Carried(keys, entries[i]))
            && (forall x | x in keys :: exists i :: i in entries && Carrier(keys, x, entries[i]))
            && Injective(keys)
  {
    if ExactlyOnce(keys, wanted) {
      forall i | i in entries ensures Carried(keys, entries[i]) {
        assert entries[i] in keys.Values;
        var x :| x in keys && keys[x] == entries[i];
        assert Carrier(keys, x, entries[i]);
      }
      forall x | x in keys ensures exists i :: i in entries && Carrier(keys, x, entries[i]) {
        assert keys[x] in entries.Values;
        var i :| i in entries && entries[i] == keys[x];
        assert Carrier(keys, x, entries[i]);
      }
    }
    if (forall i | i in entries :: Carried(keys, entries[i])) &&
       (forall x | x in keys :: exists i :: i in entries && Carrier(keys, x, entries[i])) {
      forall q ensures q in entries.Values <==> q in keys.Values {
        if q in entries.Values {
          var i :| i in entries && entries[i] == q;
          assert Carried(keys, entries[i]);
        }
      }
    }
  }

  lemma PoolsetsLaidIff(t: Topology, m: ClusterMap)
    requires Rooted(t)
    ensures ExactlyOnce(Keys(t, POOLSET), Wanted(m, POOLSET)) <==> PoolsetsLaid(t, m)
  {
    hide Keys, Wanted, ExactlyOnce, PoolsetAt, Injective, Carrier, PoolsetServes;
    var keys, es := Keys(t, POOLSET), PoolsetEntries(m);
    PoolsetsWanted(m);
    ServedIff(keys, Wanted(m, POOLSET), es);
    PoolsetsApart(t);
    KeysAreNodes(t, POOLSET);
    forall x: nat, i: nat ensures PoolsetServes(t, m, x, i) <==> i in es && Carrier(keys, x, es[i]) {
      PoolsetServesIff(t, m, x, i);
    }
    if PoolsetsLaid(t, m) {
      forall i | i in es ensures Carried(keys, es[i]) {
        assert PoolsetServed(t, m, i);
        var x :| PoolsetServes(t, m, x, i);
      }
      forall x | x in keys ensures exists i :: i in es && Carrier(keys, x, es[i]) {
        var i :| PoolsetServes(t, m, x, i);
      }
    }
    if ExactlyOnce(keys, Wanted(m, POOLSET)) {
      forall i: nat | i <= |m.poolsets| ensures PoolsetServed(t, m, i) {
        assert Carried(keys, es[i]);
        var x :| Carrier(keys, x, es[i]);
        assert PoolsetServes(t, m, x, i);
      }
      forall x | x in t.levels[POOLSET] ensures exists i :: PoolsetServes(t, m, x, i) {
        var i :| i in es && Carrier(keys, x, es[i]);
        assert PoolsetServes(t, m, x, i);
      }
    }
  }

  lemma KeysAreNodes(t: Topology, k: Kind)
    requires t.HasShape()
    ensures forall x :: x in Keys(t, k) <==> x in t.levels[k]
  {
  }

  lemma PoolsetServesIff(t: Topology, m: ClusterMap, x: nat, i: nat)
    requires Rooted(t)
    ensures PoolsetServes(t, m, x, i) <==> i in PoolsetEntries(m) && Carrier(Keys(t, POOLSET), x, PoolsetEntries(m)[i])
  {
    hide Keys;
    PoolsetKeyIff(t, x, if i < |m.poolsets| then m.poolsets[i].name else "default");
  }

  lemma PoolsetsApart(t: Topology)
    requires Rooted(t)
    ensures Injective(Keys(t, POOLSET)) <==> forall x, y, name | PoolsetAt(t, x, name) && PoolsetAt(t, y, name) :: x == y
  {
    hide KeyAt, NamesUp, PoolsetAt;
    var keys := Keys(t, POOLSET);
    forall x, name ensures PoolsetAt(t, x, name) <==> x in keys && keys[x] == [name] {
      PoolsetKeyIff(t, x, name);
    }
    forall x | x in keys ensures exists name :: PoolsetAt(t, x, name) {
      PoolsetPlaced(t, x);
    }
  }

  lemma PoolsetPlaced(t: Topology, x: nat)
    requires t.HasShape() && x in t.levels[POOLSET]
    ensures exists name :: PoolsetAt(t, x, name)
  {
    assert PoolsetAt(t, x, t.levels[POOLSET][x].name);
  }

  lemma PoolsetKeyIff(t: Topology, x: nat, name: string)
    requires Rooted(t)
    ensures PoolsetAt(t, x, name) <==> x in Keys(t, POOLSET) && Keys(t, POOLSET)[x] == [name]
  {
    hide KeyAt, NamesUp;
    if x in t.levels[POOLSET] {
      PoolsetKeyIs(t, x);
      assert [t.levels[POOLSET][x].name][0] == t.levels[POOLSET][x].name && [name][0] == name;
    }
  }

  lemma PoolsLaidIff(t: Topology, m: ClusterMap)
    requires Rooted(t)
    ensures ExactlyOnce(Keys(t, POOL), Wanted(m, POOL)) <==> PoolsLaid(t, m)
  {
    hide Keys, Wanted, ExactlyOnce, PoolAt, Injective, Carrier, PoolServes, NamesPoolFirst;
    var keys, es := Keys(t, POOL), PoolEntries(m);
    PoolsWanted(m);
    ServedIff(keys, Wanted(m, POOL), es);
    PoolsApart(t, m);
    KeysAreNodes(t, POOL);
    FirstIsEntry(m);
    forall x: nat, i: nat ensures PoolServes(t, m, x, i) <==> i in es && Carrier(keys, x, es[i]) {
      PoolServesIff(t, m, x, i);
    }
    if PoolsLaid(t, m) {
      forall i | i in es ensures Carried(keys, es[i]) {
        assert PoolServed(t, m, i);
        var x :| PoolServes(t, m, x, i);
      }
      forall x | x in keys ensures exists i :: i in es && Carrier(keys, x, es[i]) {
        var i :| PoolServes(t, m, x, i);
      }
    }
    if ExactlyOnce(keys, Wanted(m, POOL)) {
      forall i: nat | NamesPoolFirst(m, i) ensures PoolServed(t, m, i) {
        assert Carried(keys, es[i]);
        var x :| Carrier(keys, x, es[i]);
        assert PoolServes(t, m, x, i);
      }
      forall x | x in t.levels[POOL] ensures exists i :: PoolServes(t, m, x, i) {
        var i :| i in es && Carrier(keys, x, es[i]);
        assert PoolServes(t, m, x, i);
      }
    }
  }

  lemma PoolServesIff(t: Topology, m: ClusterMap, x: nat, i: nat)
    requires Rooted(t)
    ensures PoolServes(t, m, x, i) <==> i in PoolEntries(m) && Carrier(Keys(t, POOL), x, PoolEntries(m)[i])
  {
    hide Keys;
    if NamesPoolFirst(m, i) {
      PoolKeyIff(t, x, PoolEntries(m)[i][0], PoolEntries(m)[i][1]);
    }
  }

  lemma FirstIsEntry(m: ClusterMap)
    ensures forall i: nat | NamesPoolFirst(m, i) :: i < |m.servers|
    ensures forall i: nat | NamesServerFirst(m, i) :: i < |m.servers|
  {
  }

  lemma PoolKeyIff(t: Topology, x: nat, pool: string, poolset: string)
    requires Rooted(t)
    ensures PoolAt(t, x, pool, poolset) <==> x in Keys(t, POOL) && Keys(t, POOL)[x] == [pool, poolset]
  {
    hide KeyAt, NamesUp;
    if x in t.levels[POOL] {
      PoolKeyIs(t, x, pool, poolset);
    }
  }

  /** If only wanted pools are there, pools with different keys have different names. */
  lemma PoolsApart(t: Topology, m: ClusterMap)
    requires Rooted(t)
    ensures ExactlyOnce(Keys(t, POOL), Wanted(m, POOL)) ==>
              forall x, y, pool, a, b | PoolAt(t, x, pool, a) && PoolAt(t, y, pool, b) :: x == y
    ensures (forall x, y, pool, a, b | PoolAt(t, x, pool, a) && PoolAt(t, y, pool, b) :: x == y) ==> Injective(Keys(t, POOL))
  {
    hide KeyAt, Wanted, PoolAt, NamesUp;
    var keys := Keys(t, POOL);
    if ExactlyOnce(keys, Wanted(m, POOL)) {
      forall x, y, pool, a, b | PoolAt(t, x, pool, a) && PoolAt(t, y, pool, b) ensures x == y {
        PoolKeyIff(t, x, pool, a);
        PoolKeyIff(t, y, pool, b);
        assert keys[x] in keys.Values && keys[y] in keys.Values;
        WantedPoolNamesDiffer(m, keys[x], keys[y]);
      }
    }
    if forall x, y, pool, a, b | PoolAt(t, x, pool, a) && PoolAt(t, y, pool, b) :: x == y {
      forall x, y | x in keys && y in keys && keys[x] == keys[y] ensures x == y {
        var a := PoolPlace(t, x);
        PoolKeyIff(t, x, a[0], a[1]);
        PoolKeyIff(t, y, a[0], a[1]);
      }
    }
  }

  lemma PoolPlace(t: Topology, x: nat) returns (key: Key)
    requires Rooted(t) && x in t.levels[POOL]
    ensures |key| == 2 && Keys(t, POOL)[x] == [key[0], key[1]]
  {
    hide KeyAt, NamesUp;
    var up := t.levels[POOL][x].parent;
    assert up in t.levels[POOLSET];
    key := [t.levels[POOL][x].name, t.levels[POOLSET][up].name];
    PoolKeyIs(t, x, key[0], key[1]);
  }

  lemma ZonesLaidIff(t: Topology, m: ClusterMap)
    requires Rooted(t)
    ensures ExactlyOnce(Keys(t, ZONE), Wanted(m, ZONE)) <==> ZonesLaid(t, m)
  {
    hide Keys, Wanted, ExactlyOnce, ZoneAt, Injective, Carrier, ZoneServes;
    var keys, es := Keys(t, ZONE), ZoneEntries(m);
    ZonesWanted(m);
    ServedIff(keys, Wanted(m, ZONE), es);
    ZonesApart(t);
    KeysAreNodes(t, ZONE);
    forall x: nat, i: nat ensures ZoneServes(t, m, x, i) <==> i in es && Carrier(keys, x, es[i]) {
      ZoneServesIff(t, m, x, i);
    }
    if ZonesLaid(t, m) {
      forall i | i in es ensures Carried(keys, es[i]) {
        assert ZoneServed(t, m, i);
        var x :| ZoneServes(t, m, x, i);
      }
      forall x | x in keys ensures exists i :: i in es && Carrier(keys, x, es[i]) {
        var i :| ZoneServes(t, m, x, i);
      }
    }
    if ExactlyOnce(keys, Wanted(m, ZONE)) {
      forall i: nat | i < |m.servers| ensures ZoneServed(t, m, i) {
        assert Carried(keys, es[i]);
        var x :| Carrier(keys, x, es[i]);
        assert ZoneServes(t, m, x, i);
      }
      forall x | x in t.levels[ZONE] ensures exists i :: ZoneServes(t, m, x, i) {
        var i :| i in es && Carrier(keys, x, es[i]);
        assert ZoneServes(t, m, x, i);
      }
    }
  }

  lemma ZoneServesIff(t: Topology, m: ClusterMap, x: nat, i: nat)
    requires Rooted(t)
    ensures ZoneServes(t, m, x, i) <==> i in ZoneEntries(m) && Carrier(Keys(t, ZONE), x, ZoneEntries(m)[i])
  {
    hide Keys;
    if i < |m.servers| {
      ZoneKeyIff(t, x, m.servers[i].zoneName, m.servers[i].physicalPoolName);
    }
  }

  lemma ZoneKeyIff(t: Topology, x: nat, zone: string, pool: string)
    requires Rooted(t)
    ensures ZoneAt(t, x, zone, pool) <==> x in Keys(t, ZONE) && Keys(t, ZONE)[x] == [zone, pool]
  {
    hide KeyAt, NamesUp;
    if x in t.levels[ZONE] {
      ZoneKeyIs(t, x, zone, pool);
    }
  }

  lemma ZonesApart(t: Topology)
    requires Rooted(t)
    ensures Injective(Keys(t, ZONE)) <==> forall x, y, zone, pool | ZoneAt(t, x, zone, pool) && ZoneAt(t, y, zone, pool) :: x == y
  {
    hide KeyAt, NamesUp, ZoneAt;
    var keys := Keys(t, ZONE);
    forall x, zone, pool ensures ZoneAt(t, x, zone, pool) <==> x in keys && keys[x] == [zone, pool] {
      ZoneKeyIff(t, x, zone, pool);
    }
    forall x | x in keys ensures exists zone, pool :: ZoneAt(t, x, zone, pool) {
      ZonePlaced(t, x);
    }
  }

  lemma ZonePlaced(t: Topology, x: nat)
    requires Rooted(t) && x in t.levels[ZONE]
    ensures exists zone, pool :: ZoneAt(t, x, zone, pool)
  {
    var up := t.levels[ZONE][x].parent;
    assert up in t.levels[POOL];
    assert ZoneAt(t, x, t.levels[ZONE][x].name, t.levels[POOL][up].name);
  }

  lemma ServersLaidIff(t: Topology, m: ClusterMap)
    requires Rooted(t)
    ensures ExactlyOnce(Keys(t, SERVER), Wanted(m, SERVER)) <==> ServersLaid(t, m)
  {
    hide Keys, Wanted, ExactlyOnce, ServerAt, Injective, Carrier, ServerServes, NamesServerFirst;
    var keys, es := Keys(t, SERVER), ServerEntries(m);
    ServersWanted(m);
    ServedIff(keys, Wanted(m, SERVER), es);
    ServersApart(t);
    KeysAreNodes(t, SERVER);
    FirstIsEntry(m);
    forall x: nat, i: nat ensures ServerServes(t, m, x, i) <==> i in es && Carrier(keys, x, es[i]) {
      ServerServesIff(t, m, x, i);
    }
    if ServersLaid(t, m) {
      forall i | i in es ensures Carried(keys, es[i]) {
        assert ServerServed(t, m, i);
        var x :| ServerServes(t, m, x, i);
      }
      forall x | x in keys ensures exists i :: i in es && Carrier(keys, x, es[i]) {
        var i :| ServerServes(t, m, x, i);
      }
    }
    if ExactlyOnce(keys, Wanted(m, SERVER)) {
      forall i: nat | NamesServerFirst(m, i) ensures ServerServed(t, m, i) {
        assert Carried(keys, es[i]);
        var x :| Carrier(keys, x, es[i]);
        assert ServerServes(t, m, x, i);
      }
      forall x | x in t.levels[SERVER] ensures exists i :: ServerServes(t, m, x, i) {
        var i :| i in es && Carrier(keys, x, es[i]);
        assert ServerServes(t, m, x, i);
      }
    }
  }

  lemma ServerServesIff(t: Topology, m: ClusterMap, x: nat, i: nat)
    requires Rooted(t)
    ensures ServerServes(t, m, x, i) <==> i in ServerEntries(m) && Carrier(Keys(t, SERVER), x, ServerEntries(m)[i])
  {
    hide Keys;
    if NamesServerFirst(m, i) {
      ServerKeyIff(t, x, m.servers[i].serverName, m.servers[i].zoneName, m.servers[i].physicalPoolName);
    }
  }

  lemma ServerKeyIff(t: Topology, x: nat, server: string, zone: string, pool: string)
    requires Rooted(t)
    ensures ServerAt(t, x, server, zone, pool) <==> x in Keys(t, SERVER) && Keys(t, SERVER)[x] == [server, zone, pool]
  {
    hide KeyAt, NamesUp;
    if x in t.levels[SERVER] {
      ServerKeyIs(t, x, server, zone, pool);
    }
  }

  lemma ServersApart(t: Topology)
    requires Rooted(t)
    ensures Injective(Keys(t, SERVER)) <==>
            forall x, y, server, zone, pool | ServerAt(t, x, server, zone, pool) && ServerAt(t, y, server, zone, pool) :: x == y
  {
    hide KeyAt, NamesUp, ServerAt;
    var keys := Keys(t, SERVER);
    forall x, server, zone, pool ensures ServerAt(t, x, server, zone, pool) <==> x in keys && keys[x] == [server, zone, pool] {
      ServerKeyIff(t, x, server, zone, pool);
    }
    forall x | x in keys ensures exists server, zone, pool :: ServerAt(t, x, server, zone, pool) {
      ServerPlaced(t, x);
    }
  }

  lemma ServerPlaced(t: Topology, x: nat)
    requires Rooted(t) && x in t.levels[SERVER]
    ensures exists server, zone, pool :: ServerAt(t, x, server, zone, pool)
  {
    var up := t.levels[SERVER][x].parent;
    assert up in t.levels[ZONE];
    ZonePlaced(t, up);
    var zone, pool :| ZoneAt(t, up, zone, pool);
    assert ServerAt(t, x, t.levels[SERVER][x].name, zone, pool);
  }

  /** A topology is what the map asks for if and only if every entry's poolset, pool, zone and server hang where
      the fields of the entry say, and nothing else is there. */
  lemma ConvergedMeans(t: Topology, m: ClusterMap)
    requires WellFormed(t)
    ensures Converged(t, m) <==> PoolsetsLaid(t, m) && PoolsLaid(t, m) && ZonesLaid(t, m) && ServersLaid(t, m)
  {
    hide WellFormed, Keys, Wanted, ExactlyOnce, PoolsetsLaid, PoolsLaid, ZonesLaid, ServersLaid;
    WellFormedIsRooted(t);
    PoolsetsLaidIff(t, m);
    PoolsLaidIff(t, m);
    ZonesLaidIff(t, m);
    ServersLaidIff(t, m);
    if PoolsetsLaid(t, m) && PoolsLaid(t, m) && ZonesLaid(t, m) && ServersLaid(t, m) {
      forall k: Kind ensures ExactlyOnce(Keys(t, k), Wanted(m, k)) {
        assert k == POOLSET || k == POOL || k == ZONE || k == SERVER;
      }
    }
  }
}
