/** A plan survives its own execution: after some of its deletions a new scan keeps the same
    nodes, and after some of its creations a new scan has nothing to delete. */
module Stability {
  import opened ListDiff
  import opened Topology
  import opened ClusterMap
  import opened MdsService
  import opened ScanPlan
  import opened Execution
  import opened Leftover

  // ---------------------------------------------------------------- some nodes fewer

  /** The children lists hold, in order, what is still there. */
  ghost predicate ListsStill(ps0: Level, ps: Level, there: set<nat>) {
    forall x | x in ps :: x in ps0 && ps[x].children == Still(ps0[x].children, there)
  }

  /** t is t0 without some of the given nodes. */
  ghost predicate Thinned(t0: Topology, t: Topology, dels: seq<set<nat>>) {
    && |dels| == 5 && t0.HasShape() && t.HasShape() && Agree(t0, t)
    && (forall k: Kind :: t.levels[k].Keys <= t0.levels[k].Keys && t0.levels[k].Keys - t.levels[k].Keys <= dels[k])
    && (forall k: Kind :: ListsStill(t0.levels[k - 1], t.levels[k - 1], t.levels[k].Keys))
    && (forall x | x in t.levels[SERVER] :: x in t0.levels[SERVER] && t.levels[SERVER][x] == t0.levels[SERVER][x])
    && (forall x | x in t.hosts :: x in t0.hosts && t.hosts[x] == t0.hosts[x])
  }

  lemma ThinnedReflexive(t: Topology, dels: seq<set<nat>>)
    requires WellFormed(t) && |dels| == 5
    ensures Thinned(t, t, dels)
  {
    hide PoolsetsNamed, Numbered, LinkedAt, Still;
    forall j: Kind ensures ListsStill(t.levels[j - 1], t.levels[j - 1], t.levels[j].Keys) {
      WellFormedAt(t, j);
      var ps := t.levels[j - 1];
      forall x | x in ps ensures ps[x].children == Still(ps[x].children, t.levels[j].Keys) {
        ChildrenThere(t, j, x);
        StillAll(ps[x].children, t.levels[j].Keys);
      }
    }
  }

  lemma ChildrenThere(t: Topology, j: Kind, x: nat)
    requires t.HasShape() && LinkedAt(t, j) && x in t.levels[j - 1]
    ensures forall c | c in t.levels[j - 1][x].children :: c in t.levels[j].Keys
  {
  }

  lemma {:induction false} MinusStill(ids: seq<nat>, there: set<nat>, id: nat)
    ensures Minus(Still(ids, there), id) == Still(ids, there - {id})
  {
    if ids != [] {
      var n := |ids| - 1;
      MinusStill(ids[..n], there, id);
      if ids[n] in there {
        MinusOfSnoc(Still(ids[..n], there), ids[n], id);
      }
    }
  }

  lemma {:induction false} MinusOfSnoc(ids: seq<nat>, y: nat, x: nat)
    ensures Minus(ids + [y], x) == Minus(ids, x) + if y == x then [] else [y]
  {
    if ids == [] {
      assert [] + [y] == [y] && [y][1..] == [];
    } else {
      assert (ids + [y])[1..] == ids[1..] + [y];
      MinusOfSnoc(ids[1..], y, x);
    }
  }

  /** One of the deletions more. */
  lemma ThinnedStep(t0: Topology, t: Topology, t': Topology, dels: seq<set<nat>>, k: Kind, id: nat)
    requires Thinned(t0, t, dels) && WellFormed(t) && WellFormed(t') && Shrunk(t, t', k, id) && id in dels[k]
    ensures Thinned(t0, t', dels)
  {
    hide LinkedAt, PoolsetsNamed, Numbered, Minus, Still, ListsStill, Pruned, Agree;
    forall j: Kind ensures t'.levels[j].Keys <= t0.levels[j].Keys && t0.levels[j].Keys - t'.levels[j].Keys <= dels[j] {
      assert t'.levels[j].Keys == t.levels[j].Keys - if j == k then {id} else {};
    }
    ThinnedAgrees(t0, t, t', dels, k, id);
    forall j: Kind ensures ListsStill(t0.levels[j - 1], t'.levels[j - 1], t'.levels[j].Keys) {
      ListsStillStep(t0, t, t', k, id, j);
    }
  }

  lemma ListsStillStep(t0: Topology, t: Topology, t': Topology, k: Kind, id: nat, j: Kind)
    requires WellFormed(t) && WellFormed(t') && Shrunk(t, t', k, id)
    requires t0.HasShape() && ListsStill(t0.levels[j - 1], t.levels[j - 1], t.levels[j].Keys)
    ensures ListsStill(t0.levels[j - 1], t'.levels[j - 1], t'.levels[j].Keys)
  {
    hide LinkedAt, PoolsetsNamed, Numbered, Minus, Still, Agree;
    var up: nat := j - 1;
    var ps0, ps, ps' := t0.levels[up], t.levels[up], t'.levels[up];
    assert t'.levels[j].Keys == t.levels[j].Keys - if j == k then {id} else {};
    forall x | x in ps' ensures x in ps0 && ps'[x].children == Still(ps0[x].children, t'.levels[j].Keys) {
      StayedThere(t, t', k, id, up, x);
      assert x in t'.levels[up] && x in t.levels[up];
      if j == k {
        MinusStill(ps0[x].children, t.levels[j].Keys, id);
        assert ps'[x].children == Minus(ps[x].children, id);
      } else {
        assert t'.levels[j].Keys == t.levels[j].Keys;
        assert ps'[x].children == ps[x].children;
      }
    }
  }

  lemma StayedThere(t: Topology, t': Topology, k: Kind, id: nat, j: nat, x: nat)
    requires WellFormed(t) && WellFormed(t') && Shrunk(t, t', k, id)
    requires j <= 4 && x in t'.levels[j]
    ensures x in t.levels[j]
  {
    hide LinkedAt, PoolsetsNamed, Numbered, Agree, Pruned;
    if j == 0 {
      assert x in t'.levels[0].Keys;
    } else {
      var kind: Kind := j;
      assert t'.levels[kind].Keys == t.levels[kind].Keys - if kind == k then {id} else {};
      assert x in t'.levels[kind].Keys;
    }
  }

  lemma ThinnedAgrees(t0: Topology, t: Topology, t': Topology, dels: seq<set<nat>>, k: Kind, id: nat)
    requires Thinned(t0, t, dels) && WellFormed(t) && WellFormed(t') && Shrunk(t, t', k, id)
    ensures Agree(t0, t')
  {
    hide LinkedAt, PoolsetsNamed, Numbered, Pruned, Still, ListsStill;
    forall j: nat, x | j <= 4 && x in t0.levels[j] && x in t'.levels[j]
      ensures t0.levels[j][x].name == t'.levels[j][x].name && t0.levels[j][x].parent == t'.levels[j][x].parent
    {
      StayedThere(t, t', k, id, j, x);
    }
  }

  // ---------------------------------------------------------------- the same nodes stay

  lemma {:induction false} ListUnderStill(t0: Topology, t: Topology, dels: seq<set<nat>>, k: Kind, ids: seq<nat>)
    requires t0.HasShape() && t.HasShape() && Thinned(t0, t, dels) && forall x | x in ids :: x in t.levels[k - 1]
    ensures ListUnder(t.levels[k - 1], ids) == Still(ListUnder(t0.levels[k - 1], ids), t.levels[k].Keys)
  {
    hide Thinned, Still;
    if ids == [] {
      StillAll([], t.levels[k].Keys);
    } else {
      var n := |ids| - 1;
      assert ids == ids[..n] + [ids[n]] && ids[n] in ids && forall x | x in ids[..n] :: x in ids;
      ThinnedChildren(t0, t, dels, k, ids[n]);
      ListUnderStill(t0, t, dels, k, ids[..n]);
      StillOfConcat(ListUnder(t0.levels[k - 1], ids[..n]), t0.levels[k - 1][ids[n]].children, t.levels[k].Keys);
    }
  }

  lemma ThinnedChildren(t0: Topology, t: Topology, dels: seq<set<nat>>, j: Kind, x: nat)
    requires Thinned(t0, t, dels) && x in t.levels[j - 1]
    ensures x in t0.levels[j - 1]
    ensures t.levels[j - 1][x].children == Still(t0.levels[j - 1][x].children, t.levels[j].Keys)
  {
    hide Still, Agree;
    assert ListsStill(t0.levels[j - 1], t.levels[j - 1], t.levels[j].Keys);
  }

  lemma {:induction false} InfosStill(t0: Topology, t: Topology, k: Kind, ids: seq<nat>)
    requires WellFormed(t0) && WellFormed(t) && Agree(t0, t) && t0.HasShape() && t.HasShape() && t.levels[k].Keys <= t0.levels[k].Keys
    ensures InfosAt(t, k, Still(ids, t.levels[k].Keys)) == ListedStill(InfosAt(t0, k, ids), t.levels[k].Keys)
  {
    hide WellFormed, Agree, KeyAt;
    if ids != [] {
      var n := |ids| - 1;
      var there := t.levels[k].Keys;
      InfosStill(t0, t, k, ids[..n]);
      assert InfosAt(t0, k, ids)[..n] == InfosAt(t0, k, ids[..n]);
      if ids[n] in there {
        SameKey(t0, t, k, ids[n]);
        assert InfosAt(t, k, Still(ids, there)) == InfosAt(t, k, Still(ids[..n], there)) + [Info(ids[n], KeyAt(t, k, ids[n]))];
      }
    }
  }

  lemma SameKey(t0: Topology, t: Topology, k: Kind, x: nat)
    requires WellFormed(t0) && WellFormed(t) && Agree(t0, t) && x in t0.levels[k] && x in t.levels[k]
    ensures KeyAt(t0, k, x) == KeyAt(t, k, x)
  {
    hide LinkedAt, PoolsetsNamed, Numbered, Agree;
    WellFormedIsRooted(t0);
    WellFormedIsRooted(t);
    NamesUpAgree(t0, t, k, x, Width(k));
  }

  /** A level from which only nodes to delete are gone: the same nodes stay, the same entries are missing. */
  lemma LevelIsStable<E>(t0: Topology, t: Topology, dels: seq<set<nat>>, k: Kind, upKept: seq<nat>, upDel: seq<nat>, upDel': seq<nat>,
                         want: seq<E>, key: E -> Key, pinned: Key -> bool)
    requires WellFormed(t0) && WellFormed(t) && Thinned(t0, t, dels)
    requires forall x | x in upKept :: x in t.levels[k - 1]
    requires forall x | x in ScanLevel(t0, k, upKept, upDel, want, key, pinned).kept :: x in t.levels[k]
    ensures ScanLevel(t, k, upKept, upDel', want, key, pinned).kept == ScanLevel(t0, k, upKept, upDel, want, key, pinned).kept
    ensures ScanLevel(t, k, upKept, upDel', want, key, pinned).add == ScanLevel(t0, k, upKept, upDel, want, key, pinned).add
  {
    hide LinkedAt, PoolsetsNamed, Numbered, ListUnder, Match, KeyAt, Still;
    ListUnderStill(t0, t, dels, k, upKept);
    var under := ListUnder(t0.levels[k - 1], upKept);
    var infos, there := InfosAt(t0, k, under), t.levels[k].Keys;
    InfosStill(t0, t, k, under);
    forall it | it in Match(infos, want, key, pinned).kept ensures it.id in there {
      IdOfMember(Match(infos, want, key, pinned).kept, it);
    }
    MatchListedLess(infos, there, want, key, pinned);
  }

  /** Every listed node of the first is listed in the second. */
  ghost predicate Fewer(a: Lists, b: Lists) {
    Within(a.poolsets, b.poolsets) && Within(a.pools, b.pools) && Within(a.zones, b.zones) && Within(a.servers, b.servers)
  }

  /** What stays is not among what was deleted, so it is there still. */
  lemma KeptIsThere<E>(t0: Topology, t: Topology, dels: seq<set<nat>>, k: Kind, upKept: seq<nat>, p: LevelPlan<E>, key: E -> Key, wanted: set<Key>)
    requires t0.HasShape() && Thinned(t0, t, dels) && LevelPlanned(t0, k, upKept, p, key, wanted) && dels[k] == ToSet(p.del)
    ensures forall x | x in p.kept :: x in t.levels[k]
  {
    hide ListsStill, InjectiveOn, KeysOn, KeysOf, Distinct, Agree, NoDup;
    forall x | x in p.kept ensures x in t.levels[k] {
      assert x in t0.levels[k].Keys && x !in dels[k];
    }
  }

  lemma FewerDeleted<E>(t0: Topology, t: Topology, k: Kind, upKept: seq<nat>, p: LevelPlan<E>, p': LevelPlan<E>, key: E -> Key, wanted: set<Key>)
    requires t0.HasShape() && t.HasShape() && t.levels[k].Keys <= t0.levels[k].Keys && p'.kept == p.kept
    requires LevelPlanned(t0, k, upKept, p, key, wanted) && LevelPlanned(t, k, upKept, p', key, wanted)
    ensures Within(p'.del, p.del)
  {
    hide InjectiveOn, KeysOn, KeysOf, Distinct, NoDup;
    forall x | x in p'.del ensures x in p.del {
      assert x in t.levels[k].Keys;
    }
  }

  /** After some of the planned deletions a new scan keeps the same nodes and adds the same entries, and
      its deletions are among the planned ones. */
  lemma PlanIsStable(t0: Topology, t: Topology, w: Wants, m: ClusterMap)
    requires WellFormed(t0) && WellFormed(t) && Asks(w, m) && Thinned(t0, t, DeletedIds(PlanOf(t0, w)))
    ensures KeptOf(PlanOf(t, w)) == KeptOf(PlanOf(t0, w)) && Fewer(DelsOf(PlanOf(t, w)), DelsOf(PlanOf(t0, w)))
  {
    hide LinkedAt, PoolsetsNamed, Numbered, ScanLevel, LevelPlanned, Wanted, Asks, Within, Still;
    var p, p' := PlanOf(t0, w), PlanOf(t, w);
    var dels := DeletedIds(p);
    PlanIsRight(t0, w, m);
    PlanIsRight(t, w, m);
    KeptIsThere(t0, t, dels, POOLSET, [0], p.poolsets, PoolsetKey, Wanted(m, POOLSET));
    KeptIsThere(t0, t, dels, POOL, p.poolsets.kept, p.pools, PoolKey, Wanted(m, POOL));
    KeptIsThere(t0, t, dels, ZONE, p.pools.kept, p.zones, ZoneKey, Wanted(m, ZONE));
    KeptIsThere(t0, t, dels, SERVER, p.zones.kept, p.servers, ServerKey, Wanted(m, SERVER));
    assert 0 in t.levels[ROOT].Keys;
    hide Thinned;
    LevelIsStable(t0, t, dels, POOLSET, [0], [], [], w.poolsets, PoolsetKey, IsDefault);
    LevelIsStable(t0, t, dels, POOL, p.poolsets.kept, p.poolsets.del, p'.poolsets.del, w.pools, PoolKey, Never);
    LevelIsStable(t0, t, dels, ZONE, p.pools.kept, p.pools.del, p'.pools.del, w.zones, ZoneKey, Never);
    LevelIsStable(t0, t, dels, SERVER, p.zones.kept, p.zones.del, p'.zones.del, w.servers, ServerKey, Never);
    FewerDeleted(t0, t, POOLSET, [0], p.poolsets, p'.poolsets, PoolsetKey, Wanted(m, POOLSET));
    FewerDeleted(t0, t, POOL, p.poolsets.kept, p.pools, p'.pools, PoolKey, Wanted(m, POOL));
    FewerDeleted(t0, t, ZONE, p.pools.kept, p.zones, p'.zones, ZoneKey, Wanted(m, ZONE));
    FewerDeleted(t0, t, SERVER, p.zones.kept, p.servers, p'.servers, ServerKey, Wanted(m, SERVER));
  }

  // ---------------------------------------------------------------- nothing to delete

  /** Every node is wanted and no two nodes of a level carry the same key. */
  ghost predicate OnlyWanted(t: Topology, m: ClusterMap) {
    t.HasShape() && forall k: Kind :: Injective(Keys(t, k)) && Keys(t, k).Values <= Wanted(m, k)
  }

  /** There is nothing to delete exactly when every node is wanted and no two nodes of a level carry
      the same key. */
  lemma NothingToDeleteIff(t: Topology, m: ClusterMap)
    requires WellFormed(t)
    ensures !Scheduled(DelsOf(PlanFor(t, m))) <==> OnlyWanted(t, m)
  {
    hide LinkedAt, PoolsetsNamed, Numbered, PlanOf, LevelPlanned, Wanted, KeyAt, Keys, Injective;
    var p := PlanFor(t, m);
    MapAsks(m);
    PlanIsRight(t, WantsOf(m), m);
    if !Scheduled(DelsOf(p)) {
      NoneDeletedAt(t, POOLSET, [0], p.poolsets, PoolsetKey, Wanted(m, POOLSET));
      NoneDeletedAt(t, POOL, p.poolsets.kept, p.pools, PoolKey, Wanted(m, POOL));
      NoneDeletedAt(t, ZONE, p.pools.kept, p.zones, ZoneKey, Wanted(m, ZONE));
      NoneDeletedAt(t, SERVER, p.zones.kept, p.servers, ServerKey, Wanted(m, SERVER));
      forall k: Kind ensures Injective(Keys(t, k)) && Keys(t, k).Values <= Wanted(m, k) {
        if k == POOLSET {} else if k == POOL {} else if k == ZONE {} else { assert k == SERVER; }
      }
    }
    if OnlyWanted(t, m) {
      WellFormedIsRooted(t);
      AllKeptAt(t, POOLSET, [0], p.poolsets, PoolsetKey, Wanted(m, POOLSET));
      AllKeptAt(t, POOL, p.poolsets.kept, p.pools, PoolKey, Wanted(m, POOL));
      AllKeptAt(t, ZONE, p.pools.kept, p.zones, ZoneKey, Wanted(m, ZONE));
      AllKeptAt(t, SERVER, p.zones.kept, p.servers, ServerKey, Wanted(m, SERVER));
    }
  }

  lemma NoneDeletedAt<E>(t: Topology, k: Kind, upKept: seq<nat>, p: LevelPlan<E>, key: E -> Key, wanted: set<Key>)
    requires t.HasShape() && LevelPlanned(t, k, upKept, p, key, wanted) && p.del == []
    ensures Injective(Keys(t, k)) && Keys(t, k).Values <= wanted
  {
    hide KeyAt, NoDup, Distinct;
    var ks := Keys(t, k);
    forall q | q in ks.Values ensures q in wanted {
      var x :| x in ks && ks[x] == q;
      assert x in p.kept;
      assert KeyAt(t, k, x) in KeysOn(t, k, p.kept);
    }
  }

  lemma AllKeptAt<E>(t: Topology, k: Kind, upKept: seq<nat>, p: LevelPlan<E>, key: E -> Key, wanted: set<Key>)
    requires t.HasShape() && LevelPlanned(t, k, upKept, p, key, wanted)
    requires forall x | x in t.levels[k] :: t.levels[k][x].parent in upKept
    requires Injective(Keys(t, k)) && Keys(t, k).Values <= wanted
    ensures p.del == [] && forall x :: x in t.levels[k] <==> x in p.kept
  {
    hide KeyAt, Apart, Distinct;
    var ks := Keys(t, k);
    forall x | x in t.levels[k] ensures x in p.kept {
      assert ks[x] in ks.Values;
      if x in p.del {
        assert Expendable(t, k, p.kept, wanted, x);
        var y :| y in p.kept && KeyAt(t, k, y) == KeyAt(t, k, x);
        assert ks[x] == ks[y];
      }
    }
    NoneDeleted(p.kept, p.del);
  }

  lemma OnlyWantedGrows(t: Topology, t': Topology, k: Kind, key: Key, host: Host, m: ClusterMap)
    requires OnlyWanted(t, m) && t'.HasShape() && Grown(t, t', k, key, host)
    requires key in Wanted(m, k) && key !in Keys(t, k).Values
    ensures OnlyWanted(t', m)
  {
    hide KeyAt, Wanted;
    var id :| GrownBy(t, t', k, id, key, host);
    forall j: Kind ensures Injective(Keys(t', j)) && Keys(t', j).Values <= Wanted(m, j) {
      if j == k {
        AddedOnce(Keys(t, k), Keys(t, k).Values, id, key);
      }
    }
  }

  lemma OnlyWantedShrinks(t: Topology, t': Topology, k: Kind, id: nat, m: ClusterMap)
    requires OnlyWanted(t, m) && WellFormed(t) && WellFormed(t') && Shrunk(t, t', k, id)
    ensures OnlyWanted(t', m)
  {
    hide LinkedAt, PoolsetsNamed, Numbered, KeyAt, Wanted, Pruned;
    WellFormedIsRooted(t);
    WellFormedIsRooted(t');
    forall j: Kind ensures Injective(Keys(t', j)) && Keys(t', j).Values <= Wanted(m, j) {
      KeysAgree(t, t', j);
      assert t'.levels[j].Keys == t.levels[j].Keys - if j == k then {id} else {};
      SubsetKeys(Keys(t, j), Keys(t', j), Wanted(m, j));
    }
  }

  lemma SubsetKeys(a: map<nat, Key>, b: map<nat, Key>, wanted: set<Key>)
    requires Injective(a) && a.Values <= wanted && b.Keys <= a.Keys && forall x | x in a && x in b :: a[x] == b[x]
    ensures Injective(b) && b.Values <= wanted
  {
    assert forall x | x in b :: x in b.Keys && x in a;
    forall q | q in b.Values ensures q in wanted {
      var x :| x in b && b[x] == q;
      assert a[x] in a.Values;
    }
  }

  lemma OnlyWantedStep(c: Call, m: ClusterMap)
    requires Proper(c, m) && OnlyWanted(c.before, m)
    ensures OnlyWanted(c.after, m)
  {
    hide WellFormed, Answers, WantServers, Wanted, Grown, Shrunk, OnlyWanted, Keys;
    AnswerHasEffect(c);
    var t, t' := c.before, c.after;
    if c.code == SUCCESS {
      match c.op
      case Delete(k, id) => OnlyWantedShrinks(t, t', k, id, m);
      case CreatePoolset(d) => OnlyWantedGrows(t, t', POOLSET, PoolsetKey(d), NO_HOST, m);
      case CreatePhysicalPool(d) => OnlyWantedGrows(t, t', POOL, PoolKey(d), NO_HOST, m);
      case CreateZone(d) => OnlyWantedGrows(t, t', ZONE, ZoneKey(d), NO_HOST, m);
      case RegistServer(d) => OnlyWantedGrows(t, t', SERVER, ServerKey(d), d.host, m);
    }
  }

  /** A run never creates what is not wanted or is there already. */
  lemma {:induction false} OnlyWantedInRuns(t: Topology, cs: seq<Call>, t': Topology, m: ClusterMap)
    requires Leads(t, cs, t', m) && OnlyWanted(t, m)
    ensures OnlyWanted(t', m)
  {
    hide Proper, OnlyWanted;
    if cs != [] {
      var c := cs[|cs| - 1];
      OnlyWantedInRuns(t, cs[..|cs| - 1], c.before, m);
      OnlyWantedStep(c, m);
    }
  }

  /** When the deletions are done only wanted nodes are left. */
  lemma ClearedIsWanted(t0: Topology, t: Topology, m: ClusterMap, p: Plan)
    requires WellFormed(t0) && Planned(t0, m, p) && Carries(t, KeptKeys(t0, p))
    ensures OnlyWanted(t, m)
  {
    hide LinkedAt, PoolsetsNamed, Numbered, LevelPlanned, Wanted, Keys, KeysOn;
    PlanDeletes(t0, POOLSET, [0], p.poolsets, PoolsetKey, Wanted(m, POOLSET));
    PlanDeletes(t0, POOL, p.poolsets.kept, p.pools, PoolKey, Wanted(m, POOL));
    PlanDeletes(t0, ZONE, p.pools.kept, p.zones, ZoneKey, Wanted(m, ZONE));
    PlanDeletes(t0, SERVER, p.zones.kept, p.servers, ServerKey, Wanted(m, SERVER));
    forall k: Kind ensures Injective(Keys(t, k)) && Keys(t, k).Values <= Wanted(m, k) {
      assert ExactlyOnce(Keys(t, k), KeptKeys(t0, p)[k]);
      if k == POOLSET {} else if k == POOL {} else if k == ZONE {} else { assert k == SERVER; }
    }
  }

  // ---------------------------------------------------------------- from run to run

  /** The next plan deletes no more than this one, and no busy server if this one does not. */
  ghost predicate Settles(t0: Topology, t: Topology, m: ClusterMap) {
    && t0.HasShape() && t.HasShape()
    && Fewer(DelsOf(PlanFor(t, m)), DelsOf(PlanFor(t0, m)))
    && (NoneBusy(t0, PlanFor(t0, m)) ==> NoneBusy(t, PlanFor(t, m)))
  }

  lemma SettlesReflexive(t: Topology, m: ClusterMap)
    requires t.HasShape()
    ensures Settles(t, t, m)
  {
    hide PlanFor;
  }

  lemma SettlesWhileClearing(t0: Topology, t: Topology, m: ClusterMap)
    requires WellFormed(t0) && WellFormed(t) && Thinned(t0, t, DeletedIds(PlanFor(t0, m)))
    ensures Settles(t0, t, m)
  {
    hide LinkedAt, PoolsetsNamed, Numbered, PlanOf, ListsStill, Agree;
    MapAsks(m);
    PlanIsStable(t0, t, WantsOf(m), m);
  }

  lemma SettlesWhileCreating(t0: Topology, t: Topology, m: ClusterMap)
    requires WellFormed(t0) && WellFormed(t) && OnlyWanted(t, m)
    ensures Settles(t0, t, m)
  {
    hide LinkedAt, PoolsetsNamed, Numbered, PlanOf, OnlyWanted;
    NothingToDeleteIff(t, m);
  }

  // ---------------------------------------------------------------- what a run leaves alone

  /** Node x of level k is there still, with its key, and as a server with its addresses and its live
      chunkservers. */
  ghost predicate Stays(t0: Topology, t: Topology, k: Kind, x: nat)
    requires t0.HasShape() && t.HasShape()
  {
    && x in t0.levels[k] && x in t.levels[k] && KeyAt(t, k, x) == KeyAt(t0, k, x)
    && (k == SERVER ==>
          && t.levels[k][x].children == t0.levels[k][x].children
          && x in t0.hosts && x in t.hosts && t.hosts[x] == t0.hosts[x])
  }

  /** Every node that the plan does not delete is there still. */
  ghost predicate Spares(t0: Topology, t: Topology, p: Plan) {
    t0.HasShape() && t.HasShape() && forall k: Kind, x | x in t0.levels[k] && x !in DelsAt(p, k) :: Stays(t0, t, k, x)
  }

  ghost predicate AllStay(t0: Topology, t: Topology) {
    t0.HasShape() && t.HasShape() && forall k: Kind, x | x in t0.levels[k] :: Stays(t0, t, k, x)
  }

  lemma AllStayReflexive(t: Topology)
    requires WellFormed(t)
    ensures AllStay(t, t)
  {
    hide LinkedAt, PoolsetsNamed, Numbered, KeyAt;
    forall x | x in t.levels[SERVER] ensures x in t.hosts {
      assert x in t.hosts.Keys;
    }
  }

  lemma SparesReflexive(t: Topology, p: Plan)
    requires WellFormed(t)
    ensures Spares(t, t, p)
  {
    hide WellFormed, Stays;
    AllStayReflexive(t);
  }

  lemma SparesOn(t0: Topology, t: Topology, t': Topology, p: Plan)
    requires Spares(t0, t, p) && AllStay(t, t')
    ensures Spares(t0, t', p)
  {
    hide KeyAt;
    forall k: Kind, x | x in t0.levels[k] && x !in DelsAt(p, k) ensures Stays(t0, t', k, x) {
      assert Stays(t0, t, k, x) && Stays(t, t', k, x);
    }
  }

  /** One run after another: the second deletes nothing but what the first was to delete. */
  lemma SparesAcross(t0: Topology, t1: Topology, t2: Topology, m: ClusterMap)
    requires Settles(t0, t1, m) && Settles(t1, t2, m) && Spares(t0, t1, PlanFor(t0, m)) && Spares(t1, t2, PlanFor(t1, m))
    ensures Spares(t0, t2, PlanFor(t0, m)) && Settles(t0, t2, m)
  {
    hide KeyAt, PlanFor, NoneBusy;
    var p0, p1 := PlanFor(t0, m), PlanFor(t1, m);
    forall k: Kind, x | x in t0.levels[k] && x !in DelsAt(p0, k) ensures Stays(t0, t2, k, x) {
      assert Stays(t0, t1, k, x);
      assert x !in DelsAt(p1, k) by {
        assert k == POOLSET || k == POOL || k == ZONE || k == SERVER;
      }
      assert Stays(t1, t2, k, x);
    }
  }

  lemma SameSpares(t0: Topology, t: Topology, p: Plan, p': Plan)
    requires Spares(t0, t, p) && DelsOf(p) == DelsOf(p')
    ensures Spares(t0, t, p')
  {
    hide Stays;
    assert forall k: Kind :: DelsAt(p, k) == DelsAt(p', k);
  }

  /** Only planned nodes have been deleted, so the others are there still. */
  lemma ThinnedSpares(t0: Topology, t: Topology, p: Plan)
    requires WellFormed(t0) && WellFormed(t) && Thinned(t0, t, DeletedIds(p))
    ensures Spares(t0, t, p)
  {
    hide LinkedAt, PoolsetsNamed, Numbered, ListsStill, Agree, KeyAt;
    forall k: Kind, x | x in t0.levels[k] && x !in DelsAt(p, k) ensures Stays(t0, t, k, x) {
      assert DeletedIds(p)[k] == ToSet(DelsAt(p, k));
      var gone := t0.levels[k].Keys - t.levels[k].Keys;
      assert x !in gone;
      SameKey(t0, t, k, x);
      assert k == SERVER ==> x in t.hosts.Keys;
    }
  }

  /** When only justly listed nodes have been deleted, only planned nodes have. */
  lemma ThinnedByPlan(t0: Topology, t: Topology, p: Plan, d: Lists)
    requires t0.HasShape() && Thinned(t0, t, ListedIds(d)) && Justly(t0, p, d)
    ensures Thinned(t0, t, DeletedIds(p))
  {
    hide ListsStill, Agree;
    forall k: Kind ensures t0.levels[k].Keys - t.levels[k].Keys <= DeletedIds(p)[k] {
      assert t0.levels[k].Keys - t.levels[k].Keys <= ListedIds(d)[k];
      assert k == POOLSET || k == POOL || k == ZONE || k == SERVER;
    }
  }

  /** The listed ids as sets, level by level. */
  ghost function ListedIds(d: Lists): (r: seq<set<nat>>)
    ensures |r| == 5
  {
    [{}, ToSet(d.poolsets), ToSet(d.pools), ToSet(d.zones), ToSet(d.servers)]
  }

  lemma ListedIsDeleted(p: Plan, p': Plan)
    requires DelsOf(p) == DelsOf(p')
    ensures ListedIds(DelsOf(p)) == DeletedIds(p) == DeletedIds(p')
  {
  }

  /** The deletions of the plan for t0 have led to t, some or all of them. */
  ghost predicate Due(t0: Topology, t: Topology, m: ClusterMap, dels: seq<set<nat>>) {
    WellFormed(t0) && dels == DeletedIds(PlanFor(t0, m)) && Thinned(t0, t, dels)
  }

  lemma ComesDue(t0: Topology, t: Topology, m: ClusterMap, dels: seq<set<nat>>, k: Kind, id: nat)
    requires WellFormed(t) && Due(t0, t, m, dels) && id in t.levels[k] && id in dels[k]
    ensures id in DelsAt(PlanFor(t, m), k)
  {
    hide WellFormed, PlanFor, Thinned;
    DueStill(t0, t, m, k, id);
  }

  /** A planned node that is there still is planned still. */
  lemma DueStill(t0: Topology, t: Topology, m: ClusterMap, k: Kind, id: nat)
    requires WellFormed(t0) && WellFormed(t) && Thinned(t0, t, DeletedIds(PlanFor(t0, m)))
    requires id in t.levels[k] && id in DelsAt(PlanFor(t0, m), k)
    ensures id in DelsAt(PlanFor(t, m), k)
  {
    hide LinkedAt, PoolsetsNamed, Numbered, PlanOf, LevelPlanned, Wanted, Thinned, Fewer;
    MapAsks(m);
    PlanIsStable(t0, t, WantsOf(m), m);
    PlanIsRight(t0, WantsOf(m), m);
    PlanIsRight(t, WantsOf(m), m);
    var p, p' := PlanFor(t0, m), PlanFor(t, m);
    if k == POOLSET {
      DueLevel(t0, t, k, [0], p.poolsets, [0], p'.poolsets, PoolsetKey, Wanted(m, POOLSET), id);
    } else if k == POOL {
      DueLevel(t0, t, k, p.poolsets.kept, p.pools, p'.poolsets.kept, p'.pools, PoolKey, Wanted(m, POOL), id);
    } else if k == ZONE {
      DueLevel(t0, t, k, p.pools.kept, p.zones, p'.pools.kept, p'.zones, ZoneKey, Wanted(m, ZONE), id);
    } else {
      DueLevel(t0, t, k, p.zones.kept, p.servers, p'.zones.kept, p'.servers, ServerKey, Wanted(m, SERVER), id);
    }
  }

  lemma DueLevel<E>(t0: Topology, t: Topology, k: Kind, upKept: seq<nat>, p: LevelPlan<E>, upKept': seq<nat>, p': LevelPlan<E>,
                    key: E -> Key, wanted: set<Key>, id: nat)
    requires t0.HasShape() && t.HasShape() && LevelPlanned(t0, k, upKept, p, key, wanted) && LevelPlanned(t, k, upKept', p', key, wanted)
    requires p'.kept == p.kept && id in t.levels[k] && id in p.del
    ensures id in p'.del
  {
    hide InjectiveOn, KeysOn, KeysOf, Distinct, NoDup;
  }

  /** What was justly listed before some planned deletions is justly listed after them. */
  lemma JustAfterThinning(t0: Topology, t: Topology, m: ClusterMap, d: Lists)
    requires WellFormed(t0) && WellFormed(t) && Thinned(t0, t, DeletedIds(PlanFor(t0, m))) && Justly(t0, PlanFor(t0, m), d)
    ensures Justly(t, PlanFor(t, m), d)
  {
    hide LinkedAt, PoolsetsNamed, Numbered, PlanFor;
    assert Agree(t0, t);
    forall k: Kind, ids: seq<nat>, del: seq<nat>, del': seq<nat> |
      Just(t0.levels[k], ids, del) && del == DelsAt(PlanFor(t0, m), k) && del' == DelsAt(PlanFor(t, m), k)
      ensures Just(t.levels[k], ids, del')
    {
      JustLevel(t0, t, m, k, ids);
    }
  }

  /** After some of the listed deletions: what the plan does not delete is there still, what is listed
      and there still would be listed again, and the next plan deletes no more. */
  lemma AfterThinning(t0: Topology, t: Topology, m: ClusterMap, p: Plan, d: Lists)
    requires WellFormed(t0) && WellFormed(t) && DelsOf(p) == DelsOf(PlanFor(t0, m))
    requires Thinned(t0, t, ListedIds(d)) && Justly(t0, p, d)
    ensures Spares(t0, t, p) && Justly(t, PlanFor(t, m), d) && Settles(t0, t, m)
  {
    hide LinkedAt, PoolsetsNamed, Numbered, PlanFor, Thinned, Spares, Just, Settles;
    ThinnedByPlan(t0, t, p, d);
    ListedIsDeleted(p, PlanFor(t0, m));
    ThinnedSpares(t0, t, p);
    JustAfterThinning(t0, t, m, d);
    SettlesWhileClearing(t0, t, m);
  }

  lemma JustLevel(t0: Topology, t: Topology, m: ClusterMap, k: Kind, ids: seq<nat>)
    requires WellFormed(t0) && WellFormed(t) && Thinned(t0, t, DeletedIds(PlanFor(t0, m)))
    requires Just(t0.levels[k], ids, DelsAt(PlanFor(t0, m), k))
    ensures Just(t.levels[k], ids, DelsAt(PlanFor(t, m), k))
  {
    hide LinkedAt, PoolsetsNamed, Numbered, PlanFor, ListsStill, Agree;
    forall x | x in ids && x in t.levels[k] ensures x in DelsAt(PlanFor(t, m), k) {
      assert x in t.levels[k].Keys && x in t0.levels[k].Keys;
      DueStill(t0, t, m, k, x);
    }
  }

  lemma JustWhenGone(t: Topology, p: Plan, p': Plan)
    requires t.HasShape() && forall k: Kind, x | x in DelsAt(p, k) :: x !in t.levels[k]
    ensures Justly(t, p', DelsOf(p))
  {
    assert DelsAt(p, POOLSET) == p.poolsets.del && DelsAt(p, POOL) == p.pools.del;
    assert DelsAt(p, ZONE) == p.zones.del && DelsAt(p, SERVER) == p.servers.del;
  }

  // ---------------------------------------------------------------- creating leaves everything alone

  lemma GrownStays(t: Topology, t': Topology, j: Kind, key: Key, host: Host)
    requires WellFormed(t) && t'.HasShape() && Grown(t, t', j, key, host)
    ensures AllStay(t, t')
  {
    hide LinkedAt, PoolsetsNamed, Numbered, KeyAt;
    var id :| GrownBy(t, t', j, id, key, host);
    forall k: Kind, x | x in t.levels[k] ensures Stays(t, t', k, x) {
      assert Keys(t', k) == if k == j then Keys(t, k)[id := key] else Keys(t, k);
      assert x in Keys(t, k) && x in Keys(t', k) && Keys(t', k)[x] == Keys(t, k)[x];
      assert k == SERVER ==> x in t.hosts.Keys;
    }
  }

  /** When only wanted nodes are there, no call can delete. */
  lemma WantedCallStays(c: Call, m: ClusterMap)
    requires Proper(c, m) && OnlyWanted(c.before, m)
    ensures AllStay(c.before, c.after)
  {
    hide WellFormed, Answers, WantServers, Wanted, Grown, Shrunk, OnlyWanted, Keys, PlanOf, AllStay, PlanFor;
    AnswerHasEffect(c);
    var t, t' := c.before, c.after;
    AllStayReflexive(t);
    NothingToDeleteIff(t, m);
    if c.code == SUCCESS {
      match c.op
      case Delete(k, id) => NoDelsAt(PlanFor(t, m), k);
      case CreatePoolset(d) => GrownStays(t, t', POOLSET, PoolsetKey(d), NO_HOST);
      case CreatePhysicalPool(d) => GrownStays(t, t', POOL, PoolKey(d), NO_HOST);
      case CreateZone(d) => GrownStays(t, t', ZONE, ZoneKey(d), NO_HOST);
      case RegistServer(d) => GrownStays(t, t', SERVER, ServerKey(d), d.host);
    }
  }

  lemma NoDelsAt(p: Plan, k: Kind)
    requires !Scheduled(DelsOf(p))
    ensures DelsAt(p, k) == []
  {
  }

  /** From a topology with only wanted nodes on, a run leaves every node alone. */
  lemma {:induction false} WantedNodesStay(t: Topology, cs: seq<Call>, t': Topology, m: ClusterMap)
    requires WellFormed(t) && Leads(t, cs, t', m) && OnlyWanted(t, m)
    ensures AllStay(t, t')
  {
    hide Proper, OnlyWanted, AllStay, WellFormed;
    if cs == [] {
      AllStayReflexive(t);
    } else {
      var c := cs[|cs| - 1];
      WantedNodesStay(t, cs[..|cs| - 1], c.before, m);
      OnlyWantedInRuns(t, cs[..|cs| - 1], c.before, m);
      WantedCallStays(c, m);
      AllStayOn(t, c.before, c.after);
    }
  }

  lemma AllStayOn(t: Topology, t': Topology, t'': Topology)
    requires AllStay(t, t') && AllStay(t', t'')
    ensures AllStay(t, t'')
  {
    hide KeyAt;
    forall k: Kind, x | x in t.levels[k] ensures Stays(t, t'', k, x) {
      assert Stays(t, t', k, x) && Stays(t', t'', k, x);
    }
  }

  /** Creating: only wanted nodes before and after, and all of the former still there. */
  lemma CreatingSpares(a: Moment, b: Moment, m: ClusterMap)
    requires WellFormed(a.t) && OnlyWanted(a.t, m) && LogGrew(a, b, m)
    ensures AllStay(a.t, b.t) && OnlyWanted(b.t, m)
  {
    hide WellFormed, OnlyWanted, Leads, AllStay;
    WantedNodesStay(a.t, b.calls[|a.calls|..], b.t, m);
    OnlyWantedInRuns(a.t, b.calls[|a.calls|..], b.t, m);
  }
}
