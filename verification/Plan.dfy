/** What one scan of the cluster decides, as a function of the topology and the cluster
    map, and why carrying the decision out leads to the wanted topology. */
module ScanPlan {
  import opened ListDiff
  import opened Topology
  import opened ClusterMap
  import opened MdsService

  /** Per level: the nodes that stay, the nodes to delete, the entries to create. */
  datatype LevelPlan<E> = LevelPlan(kept: seq<nat>, del: seq<nat>, add: seq<E>)

  datatype Plan = Plan(
    poolsets: LevelPlan<PoolsetData>, pools: LevelPlan<PoolData>,
    zones: LevelPlan<ZoneData>, servers: LevelPlan<ServerData>)

  predicate IsDefault(k: Key) { k == [DEFAULT_POOLSET_NAME] }
  predicate Never(k: Key) { false }

  /** The children of the listed parents, in listing order. */
  ghost function ListUnder(l: Level, ids: seq<nat>): seq<nat> {
    if ids == [] then []
    else
      var id := ids[|ids| - 1];
      ListUnder(l, ids[..|ids| - 1]) + if id in l then l[id].children else []
  }

  /** One level of the scan, given which parents stay and which go: children of parents that
      go are deleted, children of parents that stay are matched against the wanted entries. */
  ghost function ScanLevel<E>(t: Topology, k: Kind, upKept: seq<nat>, upDel: seq<nat>,
                              want: seq<E>, key: E -> Key, pinned: Key -> bool): LevelPlan<E>
    requires t.HasShape()
  {
    var up := t.levels[k - 1];
    var d := Match(InfosAt(t, k, ListUnder(up, upKept)), want, key, pinned);
    LevelPlan(Ids(d.kept), ListUnder(up, upDel) + Ids(d.dropped), d.missing)
  }

  ghost function WantPoolsets(m: ClusterMap): seq<PoolsetData> {
    Dedup([], m.poolsets, PoolsetKey)
  }

  ghost function WantPools(m: ClusterMap): seq<PoolData> {
    Dedup([], Pools(m.servers), PoolName)
  }

  ghost function WantZones(m: ClusterMap): seq<ZoneData> {
    Dedup([], Zones(m.servers), ZoneKey)
  }

  ghost function WantServers(m: ClusterMap): seq<ServerData> {
    Dedup([], m.servers, ServerName)
  }

  /** The entries that a scan looks for, level by level. */
  datatype Wants = Wants(
    poolsets: seq<PoolsetData>, pools: seq<PoolData>, zones: seq<ZoneData>, servers: seq<ServerData>)

  ghost function WantsOf(m: ClusterMap): Wants {
    Wants(WantPoolsets(m), WantPools(m), WantZones(m), WantServers(m))
  }

  /** The entries that the map asks for, in any order. */
  ghost predicate Asks(w: Wants, m: ClusterMap) {
    && Rearranges(w.poolsets, WantPoolsets(m), PoolsetKey)
    && Rearranges(w.pools, WantPools(m), PoolName)
    && Rearranges(w.zones, WantZones(m), ZoneKey)
    && Rearranges(w.servers, WantServers(m), ServerName)
  }

  ghost function PlanOf(t: Topology, w: Wants): Plan
    requires t.HasShape()
  {
    var a := ScanLevel(t, POOLSET, [0], [], w.poolsets, PoolsetKey, IsDefault);
    var b := ScanLevel(t, POOL, a.kept, a.del, w.pools, PoolKey, Never);
    var c := ScanLevel(t, ZONE, b.kept, b.del, w.zones, ZoneKey, Never);
    var d := ScanLevel(t, SERVER, c.kept, c.del, w.servers, ServerKey, Never);
    Plan(a, b, c, d)
  }

  ghost function PlanFor(t: Topology, m: ClusterMap): Plan
    requires t.HasShape()
  {
    PlanOf(t, WantsOf(m))
  }

  lemma MapAsks(m: ClusterMap)
    ensures Asks(WantsOf(m), m)
  {
    DedupKeepsFirsts(m.poolsets, PoolsetKey);
    DedupKeepsFirsts(Pools(m.servers), PoolName);
    DedupKeepsFirsts(Zones(m.servers), ZoneKey);
    DedupKeepsFirsts(m.servers, ServerName);
  }

  // ---------------------------------------------------------------- splitting a level

  /** The two lists split the nodes of a level. */
  ghost predicate Splits(kept: seq<nat>, del: seq<nat>, l: Level) {
    Apart(kept, del) && forall x :: x in l <==> x in kept || x in del
  }

  lemma {:induction false} ListUnderSpec(ps: Level, ks: Level, ids: seq<nat>)
    requires Linked(ps, ks) && NoDup(ids) && forall x | x in ids :: x in ps
    ensures NoDup(ListUnder(ps, ids))
    ensures forall c :: c in ListUnder(ps, ids) <==> c in ks && ks[c].parent in ids
  {
    if ids != [] {
      var n := |ids| - 1;
      var pre, id := ids[..n], ids[n];
      ListUnderSpec(ps, ks, pre);
      assert ids == pre + [id];
      assert id !in pre;
      assert forall c :: c in ps[id].children <==> c in ks && ks[c].parent == id;
      NoDupConcat(ListUnder(ps, pre), ps[id].children);
    }
  }

  /** The level below a split level is split, and whatever stays has a parent that stays. */
  lemma ScanLevelSplits<E>(t: Topology, k: Kind, upKept: seq<nat>, upDel: seq<nat>,
                           want: seq<E>, key: E -> Key, pinned: Key -> bool)
    requires t.HasShape() && LinkedAt(t, k) && Splits(upKept, upDel, t.levels[k - 1])
    ensures var p := ScanLevel(t, k, upKept, upDel, want, key, pinned);
            && Splits(p.kept, p.del, t.levels[k])
            && forall c | c in p.kept :: c in t.levels[k] && t.levels[k][c].parent in upKept
  {
    hide NoDup, Match, KeyAt;
    var ps, ks := t.levels[k - 1], t.levels[k];
    ListUnderSpec(ps, ks, upKept);
    ListUnderSpec(ps, ks, upDel);
    var under := ListUnder(ps, upKept);
    var infos := InfosAt(t, k, under);
    assert Ids(infos) == under;
    MatchApart(infos, want, key, pinned);
    MatchMembers(infos, want, key, pinned);
    var d := Match(infos, want, key, pinned);
    SplitIds(infos, d.kept, d.dropped);
    NoDupConcat(ListUnder(ps, upDel), Ids(d.dropped));
  }

  lemma SplitIds(infos: seq<Info>, kept: seq<Info>, dropped: seq<Info>)
    requires forall it :: it in infos <==> it in kept || it in dropped
    ensures forall x :: x in Ids(infos) <==> x in Ids(kept) || x in Ids(dropped)
  {
    IdsOfSubset(kept, infos);
    IdsOfSubset(dropped, infos);
    forall x | x in Ids(infos) ensures x in Ids(kept) || x in Ids(dropped) {
      var n :| 0 <= n < |infos| && infos[n].id == x;
      if infos[n] in kept {
        IdOfMember(kept, infos[n]);
      } else {
        IdOfMember(dropped, infos[n]);
      }
    }
  }

  // ---------------------------------------------------------------- keys on a level

  ghost function KeysOn(t: Topology, k: Kind, ids: seq<nat>): set<Key>
    requires t.HasShape()
  {
    set x | x in ids :: KeyAt(t, k, x)
  }

  ghost predicate InjectiveOn(t: Topology, k: Kind, ids: seq<nat>)
    requires t.HasShape()
  {
    forall x, y | x in ids && y in ids && KeyAt(t, k, x) == KeyAt(t, k, y) :: x == y
  }

  /** kept and dropped infos are infos, and an id is kept exactly when its info is. */
  lemma KeptIds(t: Topology, k: Kind, under: seq<nat>, kept: seq<Info>)
    requires t.HasShape() && forall it | it in kept :: it in InfosAt(t, k, under)
    ensures forall x :: x in Ids(kept) <==> Info(x, KeyAt(t, k, x)) in kept
  {
    forall x | x in Ids(kept) ensures Info(x, KeyAt(t, k, x)) in kept {
      var n :| 0 <= n < |kept| && kept[n].id == x;
      assert kept[n] in InfosAt(t, k, under);
    }
    forall x | Info(x, KeyAt(t, k, x)) in kept ensures x in Ids(kept) {
      IdOfMember(kept, Info(x, KeyAt(t, k, x)));
    }
  }

  /** What remains to be added is what was wanted and is not carried by a node that stays. */
  lemma ScanLevelAdds<E>(t: Topology, k: Kind, upKept: seq<nat>, upDel: seq<nat>,
                         want: seq<E>, key: E -> Key, pinned: Key -> bool)
    requires t.HasShape() && Distinct(want, key)
    ensures var p := ScanLevel(t, k, upKept, upDel, want, key, pinned);
            && Distinct(p.add, key)
            && (forall e | e in p.add :: e in want)
            && forall q :: q in KeysOf(p.add, key) <==>
                           q in KeysOf(want, key) && (pinned(q) || q !in KeysOn(t, k, p.kept))
  {
    hide KeyAt, ListUnder, Match;
    var under := ListUnder(t.levels[k - 1], upKept);
    var infos := InfosAt(t, k, under);
    var d := Match(infos, want, key, pinned);
    MatchMissing(infos, want, key, pinned);
    MatchMembers(infos, want, key, pinned);
    KeptIds(t, k, under, d.kept);
    forall q | !pinned(q) ensures q in Claimed(d.kept, pinned) <==> q in KeysOn(t, k, Ids(d.kept)) {
      if q in Claimed(d.kept, pinned) {
        var i :| 0 <= i < |d.kept| && !pinned(d.kept[i].key) && d.kept[i].key == q;
        assert d.kept[i] in d.kept;
        assert Ids(d.kept)[i] in Ids(d.kept);
      }
      if q in KeysOn(t, k, Ids(d.kept)) {
        var x :| x in Ids(d.kept) && KeyAt(t, k, x) == q;
        assert Info(x, q) in d.kept;
      }
    }
  }

  /** A node that stays is pinned or wanted, no two such nodes carry the same wanted key, and
      a node that goes under a parent that stays is unwanted or has a twin that stays. */
  lemma ScanLevelKeeps<E>(t: Topology, k: Kind, upKept: seq<nat>, upDel: seq<nat>,
                          want: seq<E>, key: E -> Key, pinned: Key -> bool)
    requires t.HasShape() && LinkedAt(t, k) && Splits(upKept, upDel, t.levels[k - 1])
    requires Distinct(want, key)
    ensures var p := ScanLevel(t, k, upKept, upDel, want, key, pinned);
            && (forall x | x in p.kept :: pinned(KeyAt(t, k, x)) || KeyAt(t, k, x) in KeysOf(want, key))
            && (forall x, y | x in p.kept && y in p.kept && KeyAt(t, k, x) == KeyAt(t, k, y) ::
                  x == y || pinned(KeyAt(t, k, x)))
            && (forall x | x in p.del && x in t.levels[k] && t.levels[k][x].parent in upKept ::
                  && !pinned(KeyAt(t, k, x))
                  && (KeyAt(t, k, x) !in KeysOf(want, key) ||
                      exists y :: y in p.kept && KeyAt(t, k, y) == KeyAt(t, k, x)))
  {
    hide KeyAt, ListUnder, Match, Linked, NoDup;
    var ps, ks := t.levels[k - 1], t.levels[k];
    var under := ListUnder(ps, upKept);
    ListUnderSpec(ps, ks, upKept);
    ListUnderSpec(ps, ks, upDel);
    var infos := InfosAt(t, k, under);
    assert Ids(infos) == under;
    var d := Match(infos, want, key, pinned);
    MatchVerdicts(infos, want, key, pinned);
    MatchMembers(infos, want, key, pinned);
    KeptIds(t, k, under, d.kept);
    KeptIds(t, k, under, d.dropped);
    forall x | x in Ids(d.dropped) && KeyAt(t, k, x) in KeysOf(want, key)
      ensures exists y :: y in Ids(d.kept) && KeyAt(t, k, y) == KeyAt(t, k, x)
    {
      var b :| b in d.kept && b.key == KeyAt(t, k, x);
      IdOfMember(d.kept, b);
      assert b in infos;
    }
  }

  // ---------------------------------------------------------------- the plan is right

  /** On this level the lists split the nodes, what stays hangs below what stays, and the nodes
      that stay together with the entries to add carry every wanted key exactly once. Only
      an entry for the default poolset is listed although its node stays. */
  ghost predicate LevelPlanned<E>(t: Topology, k: Kind, upKept: seq<nat>, p: LevelPlan<E>, key: E -> Key, wanted: set<Key>)
    requires t.HasShape()
  {
    && Splits(p.kept, p.del, t.levels[k])
    && (forall c | c in p.kept :: t.levels[k][c].parent in upKept)
    && InjectiveOn(t, k, p.kept)
    && Distinct(p.add, key)
    && KeysOn(t, k, p.kept) + KeysOf(p.add, key) == wanted
    && (forall q | q in KeysOf(p.add, key) && q in KeysOn(t, k, p.kept) :: k == POOLSET && IsDefault(q))
    && (forall x | x in p.del && t.levels[k][x].parent in upKept :: Expendable(t, k, p.kept, wanted, x))
  }

  /** Nobody asked for the node, or another node that stays carries its key. */
  ghost predicate Expendable(t: Topology, k: Kind, kept: seq<nat>, wanted: set<Key>, x: nat)
    requires t.HasShape()
  {
    KeyAt(t, k, x) !in wanted || KeyAt(t, k, x) in KeysOn(t, k, kept)
  }

  lemma ScanLevelPlanned<E>(t: Topology, k: Kind, upKept: seq<nat>, upDel: seq<nat>, want: seq<E>, key: E -> Key)
    requires t.HasShape() && LinkedAt(t, k) && Splits(upKept, upDel, t.levels[k - 1])
    requires Distinct(want, key)
    ensures LevelPlanned(t, k, upKept, ScanLevel(t, k, upKept, upDel, want, key, Never), key, KeysOf(want, key))
  {
    hide ScanLevel, KeyAt, LinkedAt;
    ScanLevelSplits(t, k, upKept, upDel, want, key, Never);
    ScanLevelAdds(t, k, upKept, upDel, want, key, Never);
    ScanLevelKeeps(t, k, upKept, upDel, want, key, Never);
  }

  lemma PoolsetsPlanned(t: Topology, want: seq<PoolsetData>)
    requires WellFormed(t) && Distinct(want, PoolsetKey)
    ensures LevelPlanned(t, POOLSET, [0], ScanLevel(t, POOLSET, [0], [], want, PoolsetKey, IsDefault), PoolsetKey,
                         {[DEFAULT_POOLSET_NAME]} + KeysOf(want, PoolsetKey))
    ensures DEFAULT_POOLSET_ID in ScanLevel(t, POOLSET, [0], [], want, PoolsetKey, IsDefault).kept
  {
    hide ScanLevel, LinkedAt, KeyAt, PoolsetsNamed;
    ScanLevelSplits(t, POOLSET, [0], [], want, PoolsetKey, IsDefault);
    ScanLevelAdds(t, POOLSET, [0], [], want, PoolsetKey, IsDefault);
    ScanLevelKeeps(t, POOLSET, [0], [], want, PoolsetKey, IsDefault);
    PoolsetKeys(t);
    var p := ScanLevel(t, POOLSET, [0], [], want, PoolsetKey, IsDefault);
    assert DEFAULT_POOLSET_ID in p.kept;
    assert KeyAt(t, POOLSET, DEFAULT_POOLSET_ID) in KeysOn(t, POOLSET, p.kept);
  }

  /** Poolsets carry different keys, all are children of the root, and one is the default. */
  lemma PoolsetKeys(t: Topology)
    requires WellFormed(t)
    ensures DEFAULT_POOLSET_ID in t.levels[POOLSET]
    ensures KeyAt(t, POOLSET, DEFAULT_POOLSET_ID) == [DEFAULT_POOLSET_NAME]
    ensures forall x | x in t.levels[POOLSET] :: t.levels[POOLSET][x].parent == 0
    ensures forall x, y | x in t.levels[POOLSET] && y in t.levels[POOLSET] &&
                          KeyAt(t, POOLSET, x) == KeyAt(t, POOLSET, y) :: x == y
  {
    hide LinkedAt, NamesUp;
    WellFormedIsRooted(t);
    forall x | x in t.levels[POOLSET]
      ensures KeyAt(t, POOLSET, x) == [t.levels[POOLSET][x].name] && t.levels[POOLSET][x].parent == 0
    {
      NamesUpOne(t, POOLSET, x);
      assert t.levels[POOLSET][x].parent in t.levels[ROOT].Keys;
    }
  }

  // ---------------------------------------------------------------- the lists of wanted entries

  lemma WantedPoolsets(m: ClusterMap)
    ensures Distinct(WantPoolsets(m), PoolsetKey)
    ensures {[DEFAULT_POOLSET_NAME]} + KeysOf(WantPoolsets(m), PoolsetKey) == Wanted(m, POOLSET)
  {
    DedupKeepsFirsts(m.poolsets, PoolsetKey);
  }

  lemma WantedZones(m: ClusterMap)
    ensures Distinct(WantZones(m), ZoneKey)
    ensures KeysOf(WantZones(m), ZoneKey) == Wanted(m, ZONE)
  {
    DedupKeepsFirsts(Zones(m.servers), ZoneKey);
  }

  lemma WantedPools(m: ClusterMap)
    ensures Distinct(WantPools(m), PoolKey)
    ensures KeysOf(WantPools(m), PoolKey) == Wanted(m, POOL)
    ensures forall e | e in WantPools(m) :: PoolKey(e) in Wanted(m, POOL)
  {
    var ps := Pools(m.servers);
    DedupKeepsFirsts(ps, PoolName);
    forall i: nat | i < |ps| ensures NamesPoolFirst(m, i) <==> IsFirst(ps, PoolName, i) {
    }
    var w := WantPools(m);
    forall q | q in KeysOf(w, PoolKey) ensures q in Wanted(m, POOL) {
      var n :| 0 <= n < |w| && PoolKey(w[n]) == q;
      assert w[n] in Firsts(ps, PoolName);
      var i: nat :| i < |ps| && IsFirst(ps, PoolName, i) && ps[i] == w[n];
      assert NamesPoolFirst(m, i);
    }
    forall q | q in Wanted(m, POOL) ensures q in KeysOf(w, PoolKey) {
      var i: nat :| i < |m.servers| && NamesPoolFirst(m, i) && PoolKey(PoolOf(m.servers[i])) == q;
      assert ps[i] in Firsts(ps, PoolName);
      assert ps[i] in w;
    }
    forall i, j | 0 <= i < j < |w| ensures PoolKey(w[i]) != PoolKey(w[j]) {
      assert PoolName(w[i]) != PoolName(w[j]);
      assert PoolKey(w[i])[0] != PoolKey(w[j])[0];
    }
  }

  lemma WantedServers(m: ClusterMap)
    ensures Distinct(WantServers(m), ServerKey)
    ensures KeysOf(WantServers(m), ServerKey) == Wanted(m, SERVER)
  {
    DedupKeepsFirsts(m.servers, ServerName);
    var ss := m.servers;
    forall i: nat | i < |ss| ensures NamesServerFirst(m, i) <==> IsFirst(ss, ServerName, i) {
    }
    var w := WantServers(m);
    forall q | q in KeysOf(w, ServerKey) ensures q in Wanted(m, SERVER) {
      var n :| 0 <= n < |w| && ServerKey(w[n]) == q;
      assert w[n] in Firsts(ss, ServerName);
      var i: nat :| i < |ss| && IsFirst(ss, ServerName, i) && ss[i] == w[n];
      assert NamesServerFirst(m, i);
    }
    forall q | q in Wanted(m, SERVER) ensures q in KeysOf(w, ServerKey) {
      var i: nat :| i < |m.servers| && NamesServerFirst(m, i) && ServerKey(m.servers[i]) == q;
      assert ss[i] in Firsts(ss, ServerName);
      assert ss[i] in w;
    }
    forall i, j | 0 <= i < j < |w| ensures ServerKey(w[i]) != ServerKey(w[j]) {
      assert ServerName(w[i]) != ServerName(w[j]);
      assert ServerKey(w[i])[0] != ServerKey(w[j])[0];
    }
  }

  /** The keys that a scan looks for are the wanted ones. */
  lemma AskedKeys(w: Wants, m: ClusterMap)
    requires Asks(w, m)
    ensures Distinct(w.poolsets, PoolsetKey)
    ensures {[DEFAULT_POOLSET_NAME]} + KeysOf(w.poolsets, PoolsetKey) == Wanted(m, POOLSET)
    ensures Distinct(w.pools, PoolKey) && KeysOf(w.pools, PoolKey) == Wanted(m, POOL)
    ensures Distinct(w.zones, ZoneKey) && KeysOf(w.zones, ZoneKey) == Wanted(m, ZONE)
    ensures Distinct(w.servers, ServerKey) && KeysOf(w.servers, ServerKey) == Wanted(m, SERVER)
  {
    hide WantPoolsets, WantPools, WantZones, WantServers, Wanted, Distinct, KeysOf;
    WantedPoolsets(m);
    RearrangedKeys(w.poolsets, WantPoolsets(m), PoolsetKey, PoolsetKey);
    WantedPools(m);
    RearrangedKeys(w.pools, WantPools(m), PoolName, PoolKey);
    WantedZones(m);
    RearrangedKeys(w.zones, WantZones(m), ZoneKey, ZoneKey);
    WantedServers(m);
    RearrangedKeys(w.servers, WantServers(m), ServerName, ServerKey);
  }

  /** Every level of the plan is right, whatever names the topology repeats, and the servers to
      create are entries of the map. */
  ghost predicate Planned(t: Topology, m: ClusterMap, p: Plan)
    requires t.HasShape()
  {
    && LevelPlanned(t, POOLSET, [0], p.poolsets, PoolsetKey, Wanted(m, POOLSET))
    && LevelPlanned(t, POOL, p.poolsets.kept, p.pools, PoolKey, Wanted(m, POOL))
    && LevelPlanned(t, ZONE, p.pools.kept, p.zones, ZoneKey, Wanted(m, ZONE))
    && LevelPlanned(t, SERVER, p.zones.kept, p.servers, ServerKey, Wanted(m, SERVER))
    && DEFAULT_POOLSET_ID in p.poolsets.kept
    && forall e | e in p.servers.add :: e in WantServers(m)
  }

  lemma PlanIsRight(t: Topology, w: Wants, m: ClusterMap)
    requires WellFormed(t) && Asks(w, m)
    ensures Planned(t, m, PlanOf(t, w))
  {
    hide LevelPlanned, ScanLevel, LinkedAt, WantPoolsets, WantPools, WantZones, WantServers, Wanted, KeysOf, Distinct;
    var p := PlanOf(t, w);
    AskedKeys(w, m);
    PoolsetsPlanned(t, w.poolsets);
    PlannedSplits(t, POOLSET, [0], p.poolsets, PoolsetKey, Wanted(m, POOLSET));
    ScanLevelPlanned(t, POOL, p.poolsets.kept, p.poolsets.del, w.pools, PoolKey);
    PlannedSplits(t, POOL, p.poolsets.kept, p.pools, PoolKey, Wanted(m, POOL));
    ScanLevelPlanned(t, ZONE, p.pools.kept, p.pools.del, w.zones, ZoneKey);
    PlannedSplits(t, ZONE, p.pools.kept, p.zones, ZoneKey, Wanted(m, ZONE));
    ScanLevelPlanned(t, SERVER, p.zones.kept, p.zones.del, w.servers, ServerKey);
    ScanLevelAdds(t, SERVER, p.zones.kept, p.zones.del, w.servers, ServerKey, Never);
  }

  // ---------------------------------------------------------------- the order of the entries

  /** Ids of nodes, level by level. */
  datatype Lists = Lists(poolsets: seq<nat>, pools: seq<nat>, zones: seq<nat>, servers: seq<nat>)

  ghost function DelsOf(p: Plan): Lists {
    Lists(p.poolsets.del, p.pools.del, p.zones.del, p.servers.del)
  }

  ghost function KeptOf(p: Plan): Lists {
    Lists(p.poolsets.kept, p.pools.kept, p.zones.kept, p.servers.kept)
  }

  ghost function AddsOf(p: Plan): Wants {
    Wants(p.poolsets.add, p.pools.add, p.zones.add, p.servers.add)
  }

  ghost function DelsAt(p: Plan, k: Kind): seq<nat> {
    if k == POOLSET then p.poolsets.del else if k == POOL then p.pools.del else if k == ZONE then p.zones.del else p.servers.del
  }

  /** How many List RPCs a scan takes. */
  ghost function ScanCost(p: Plan): nat {
    1 + (|p.poolsets.del| + |p.poolsets.kept|) + (|p.pools.del| + |p.pools.kept|) + (|p.zones.del| + |p.zones.kept|)
  }

  lemma SameLevelSplit<E>(t: Topology, k: Kind, upKept: seq<nat>, upDel: seq<nat>,
                          want: seq<E>, want': seq<E>, key: E -> Key, pinned: Key -> bool)
    requires t.HasShape() && Distinct(want, key) && Distinct(want', key) && KeysOf(want, key) == KeysOf(want', key)
    ensures var p, p' := ScanLevel(t, k, upKept, upDel, want, key, pinned), ScanLevel(t, k, upKept, upDel, want', key, pinned);
            p.kept == p'.kept && p.del == p'.del
  {
    hide Match, ListUnder, KeyAt;
    MatchByKeys(InfosAt(t, k, ListUnder(t.levels[k - 1], upKept)), want, want', key, pinned);
  }

  /** Which nodes stay and which go does not depend on the order of the entries. */
  lemma SameSplit(t: Topology, w: Wants, w': Wants, m: ClusterMap)
    requires t.HasShape() && Asks(w, m) && Asks(w', m)
    ensures KeptOf(PlanOf(t, w)) == KeptOf(PlanOf(t, w')) && DelsOf(PlanOf(t, w)) == DelsOf(PlanOf(t, w'))
  {
    hide ScanLevel, Wanted, Distinct, KeysOf;
    PoolsetKeysAgree(w, w', m);
    AskedKeys(w, m);
    AskedKeys(w', m);
    var p, p' := PlanOf(t, w), PlanOf(t, w');
    SameLevelSplit(t, POOLSET, [0], [], w.poolsets, w'.poolsets, PoolsetKey, IsDefault);
    SameLevelSplit(t, POOL, p.poolsets.kept, p.poolsets.del, w.pools, w'.pools, PoolKey, Never);
    SameLevelSplit(t, ZONE, p.pools.kept, p.pools.del, w.zones, w'.zones, ZoneKey, Never);
    SameLevelSplit(t, SERVER, p.zones.kept, p.zones.del, w.servers, w'.servers, ServerKey, Never);
  }

  lemma PoolsetKeysAgree(w: Wants, w': Wants, m: ClusterMap)
    requires Asks(w, m) && Asks(w', m)
    ensures KeysOf(w.poolsets, PoolsetKey) == KeysOf(w'.poolsets, PoolsetKey)
  {
    hide WantPoolsets, WantPools, WantZones, WantServers, Distinct, KeysOf;
    WantedPoolsets(m);
    RearrangedKeys(w.poolsets, WantPoolsets(m), PoolsetKey, PoolsetKey);
    RearrangedKeys(w'.poolsets, WantPoolsets(m), PoolsetKey, PoolsetKey);
  }

  lemma PlannedSplits<E>(t: Topology, k: Kind, upKept: seq<nat>, p: LevelPlan<E>, key: E -> Key, wanted: set<Key>)
    requires t.HasShape() && LevelPlanned(t, k, upKept, p, key, wanted)
    ensures Splits(p.kept, p.del, t.levels[k])
  {
  }

  // ---------------------------------------------------------------- nothing to do

  /** The plan deletes nothing and creates nothing; an entry for the default poolset is skipped. */
  ghost predicate NothingToDo(p: Plan) {
    && p.poolsets.del == [] && p.pools.del == [] && p.zones.del == [] && p.servers.del == []
    && (forall e | e in p.poolsets.add :: IsDefault(PoolsetKey(e)))
    && p.pools.add == [] && p.zones.add == [] && p.servers.add == []
  }

  lemma ConvergedLevel<E>(t: Topology, k: Kind, upKept: seq<nat>, p: LevelPlan<E>, key: E -> Key, wanted: set<Key>)
    requires t.HasShape() && LevelPlanned(t, k, upKept, p, key, wanted)
    requires forall x | x in t.levels[k] :: t.levels[k][x].parent in upKept
    requires ExactlyOnce(Keys(t, k), wanted)
    ensures p.del == [] && forall x :: x in t.levels[k] <==> x in p.kept
    ensures forall e | e in p.add :: k == POOLSET && IsDefault(key(e))
  {
    hide KeyAt, Apart;
    var ks := Keys(t, k);
    forall x | x in t.levels[k] ensures KeyAt(t, k, x) in wanted {
      assert ks[x] in ks.Values;
    }
    forall x | x in t.levels[k] ensures x in p.kept {
      if x in p.del {
        assert Expendable(t, k, p.kept, wanted, x);
        var y :| y in p.kept && KeyAt(t, k, y) == KeyAt(t, k, x);
        assert ks[x] == ks[y];
      }
    }
    forall q | q in wanted ensures q in KeysOn(t, k, p.kept) {
      var x :| x in ks && ks[x] == q;
      assert x in p.kept;
    }
    forall e | e in p.add ensures k == POOLSET && IsDefault(key(e)) {
      var i :| 0 <= i < |p.add| && p.add[i] == e;
      assert key(e) in KeysOf(p.add, key);
    }
    NoneDeleted(p.kept, p.del);
  }

  lemma NoneDeleted(kept: seq<nat>, del: seq<nat>)
    requires Apart(kept, del) && forall x | x in del :: x in kept
    ensures del == []
  {
    if del != [] {
      NonEmptyHasMember(del);
    }
  }

  lemma NonEmptyHasMember<E>(xs: seq<E>)
    requires xs != []
    ensures exists e :: e in xs
  {
    assert xs[0] in xs;
  }

  lemma IdleLevel<E>(t: Topology, k: Kind, upKept: seq<nat>, p: LevelPlan<E>, key: E -> Key, wanted: set<Key>)
    requires t.HasShape() && LevelPlanned(t, k, upKept, p, key, wanted) && p.del == []
    requires forall e | e in p.add :: key(e) in KeysOn(t, k, p.kept)
    ensures ExactlyOnce(Keys(t, k), wanted)
  {
    hide KeyAt, NoDup;
    var ks := Keys(t, k);
    assert forall x | x in p.kept :: x in ks && ks[x] == KeyAt(t, k, x);
    forall q | q in wanted ensures q in ks.Values {
      if q in KeysOf(p.add, key) {
        var i :| 0 <= i < |p.add| && key(p.add[i]) == q;
        assert p.add[i] in p.add;
      }
      var x :| x in p.kept && KeyAt(t, k, x) == q;
      assert ks[x] == q;
    }
  }

  /** A scan finds nothing to do exactly when the topology is what the map asks for. */
  lemma NothingToDoIffConverged(t: Topology, m: ClusterMap)
    requires WellFormed(t)
    ensures NothingToDo(PlanFor(t, m)) <==> Converged(t, m)
  {
    hide PlanOf, LevelPlanned, LinkedAt, PoolsetsNamed, Wanted, ExactlyOnce, Keys, KeysOn, KeyAt;
    var p := PlanFor(t, m);
    MapAsks(m);
    PlanIsRight(t, WantsOf(m), m);
    if Converged(t, m) {
      ConvergedHasNothingToDo(t, m, p);
    }
    if NothingToDo(p) {
      DefaultIsKept(t, p.poolsets.kept);
      IdleLevel(t, POOLSET, [0], p.poolsets, PoolsetKey, Wanted(m, POOLSET));
      IdleLevel(t, POOL, p.poolsets.kept, p.pools, PoolKey, Wanted(m, POOL));
      IdleLevel(t, ZONE, p.pools.kept, p.zones, ZoneKey, Wanted(m, ZONE));
      IdleLevel(t, SERVER, p.zones.kept, p.servers, ServerKey, Wanted(m, SERVER));
      forall k: Kind ensures ExactlyOnce(Keys(t, k), Wanted(m, k)) {
        if k == POOLSET {} else if k == POOL {} else if k == ZONE {} else { assert k == SERVER; }
      }
    }
  }

  lemma DefaultIsKept(t: Topology, kept: seq<nat>)
    requires WellFormed(t) && DEFAULT_POOLSET_ID in kept
    ensures [DEFAULT_POOLSET_NAME] in KeysOn(t, POOLSET, kept)
  {
    hide LinkedAt;
    NamesUpOne(t, POOLSET, DEFAULT_POOLSET_ID);
    assert KeyAt(t, POOLSET, DEFAULT_POOLSET_ID) == [DEFAULT_POOLSET_NAME];
  }

  lemma ConvergedHasNothingToDo(t: Topology, m: ClusterMap, p: Plan)
    requires WellFormed(t) && Planned(t, m, p) && Converged(t, m)
    ensures NothingToDo(p)
  {
    hide LevelPlanned, LinkedAt, PoolsetsNamed, Wanted, ExactlyOnce, Keys;
    WellFormedIsRooted(t);
    ConvergedLevel(t, POOLSET, [0], p.poolsets, PoolsetKey, Wanted(m, POOLSET));
    ConvergedLevel(t, POOL, p.poolsets.kept, p.pools, PoolKey, Wanted(m, POOL));
    ConvergedLevel(t, ZONE, p.pools.kept, p.zones, ZoneKey, Wanted(m, ZONE));
    ConvergedLevel(t, SERVER, p.zones.kept, p.servers, ServerKey, Wanted(m, SERVER));
    if p.pools.add != [] {
      NonEmptyHasMember(p.pools.add);
    }
    if p.zones.add != [] {
      NonEmptyHasMember(p.zones.add);
    }
    if p.servers.add != [] {
      NonEmptyHasMember(p.servers.add);
    }
  }
}
