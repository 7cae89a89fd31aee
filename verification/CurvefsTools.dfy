/** The build-cluster tool: it scans the topology of the MDS, deletes what the cluster map
    does not ask for, children first, and creates what is missing, parents first. */
module CurvefsTool {
  import opened ListDiff
  import opened Topology
  import opened ClusterMap
  import opened MdsService
  import opened ScanPlan
  import opened Execution
  import opened Leftover
  import opened Stability
  import opened Layout

  const COMMON_ERR := -1
  const REDIRECT_MDS := -2

  /** What the tool returns when an RPC ends its run: the status, or a redirection if another MDS might
      answer. A lost zone or server creation or a lost deletion redirects only if the host is down. */
  ghost function Verdict(x: Exchange): int {
    match x.reply
    case Status(code) => code
    case NoReply(down) =>
      if x.rpc.Listing? || x.rpc.op.CreatePoolset? || x.rpc.op.CreatePhysicalPool? || down then REDIRECT_MDS else COMMON_ERR
  }

  lemma DownRedirects(x: Exchange)
    ensures x.reply == NoReply(true) ==> Verdict(x) == REDIRECT_MDS
  {
  }

  /** When a lost RPC redirects: always for a listing and for the creation of a poolset or a pool, and
      otherwise only if the host is down; an answer is passed on. */
  lemma LostRpcRedirects(x: Exchange)
    ensures x.reply.Status? ==> Verdict(x) == x.reply.code
    ensures x.reply.NoReply? ==> Verdict(x) == -2 || Verdict(x) == -1
    ensures x.reply.NoReply? && x.rpc.Listing? ==> Verdict(x) == -2
    ensures x.reply.NoReply? && x.rpc.Mutating? && (x.rpc.op.CreatePoolset? || x.rpc.op.CreatePhysicalPool?) ==> Verdict(x) == -2
    ensures x.reply.NoReply? && x.rpc.Mutating? && (x.rpc.op.Delete? || x.rpc.op.CreateZone? || x.rpc.op.RegistServer?) ==>
              (Verdict(x) == -2 <==> x.reply.down)
  {
  }

  /** The next RPC takes effect, and then the MDS goes down before it answers. */
  ghost predicate CutShort(fates: seq<Fate>) {
    FateAt(fates, 0) == ReplyLost(true)
  }

  /** The scan goes well, and the first deletion is cut short. */
  ghost predicate CutAfterScan(fates: seq<Fate>, p: Plan) {
    Quiet(fates, ScanCost(p)) && CutShort(After(fates, ScanCost(p)))
  }

  class CurvefsTools {
    const mds: Mds
    var poolsetDatas: seq<PoolsetData>
    var serverDatas: seq<ServerData>
    var poolsetToAdd: seq<PoolsetData>
    var physicalPoolToAdd: seq<PoolData>
    var zoneToAdd: seq<ZoneData>
    var serverToAdd: seq<ServerData>
    var poolsetToDel: seq<nat>
    var physicalPoolToDel: seq<nat>
    var zoneToDel: seq<nat>
    var serverToDel: seq<nat>

    constructor (mds: Mds)
      ensures this.mds == mds && Fresh()
    {
      this.mds := mds;
      poolsetDatas, serverDatas := [], [];
      poolsetToAdd, physicalPoolToAdd, zoneToAdd, serverToAdd := [], [], [], [];
      poolsetToDel, physicalPoolToDel, zoneToDel, serverToDel := [], [], [], [];
    }

    /** The configured entries that have been read in so far; reading appends. */
    ghost function Read(): ClusterMap
      reads this
    {
      ClusterMap(poolsetDatas, serverDatas)
    }

    ghost function ToAdd(): Wants
      reads this
    {
      Wants(poolsetToAdd, physicalPoolToAdd, zoneToAdd, serverToAdd)
    }

    ghost function ToDel(): Lists
      reads this
    {
      Lists(poolsetToDel, physicalPoolToDel, zoneToDel, serverToDel)
    }

    ghost predicate Fresh()
      reads this
    {
      && poolsetDatas == [] && serverDatas == []
      && poolsetToAdd == [] && physicalPoolToAdd == [] && zoneToAdd == [] && serverToAdd == []
      && poolsetToDel == [] && physicalPoolToDel == [] && zoneToDel == [] && serverToDel == []
    }

    // ------------------------------------------------------------ scanning

    /** The listing loops of the scan: one List RPC per parent, the results appended. */
    method ListEach(k: Kind, parents: seq<nat>) returns (ret: int, infos: seq<Info>)
      requires WellFormed(mds.t)
      modifies mds`fates, mds`last, mds`troubles
      ensures ret == 0 ==> infos == InfosAt(mds.t, k, ListUnder(mds.t.levels[k - 1], parents))
      ensures ret == 0 ==> Present(parents, mds.t.levels[k - 1])
      ensures ret <= 0
      ensures ret < 0 ==> ret == Verdict(mds.last)
      ensures Took(old(mds.Outlook()), mds.Outlook(), ret, mds.last.reply, |parents|, Present(parents, mds.t.levels[k - 1]))
    {
      hide Mild, Troubles, LinkedAt, PoolsetsNamed, Numbered, KeyAt, ListUnder, After, FateAt;
      ret, infos := 0, [];
      NoneListed(mds.t, k, parents, mds.fates);
      for n := 0 to |parents|
        invariant infos == InfosAt(mds.t, k, ListUnder(mds.t.levels[k - 1], parents[..n]))
        invariant forall i | 0 <= i < n :: parents[i] in mds.t.levels[k - 1]
        invariant mds.fates == After(old(mds.fates), n)
        invariant Weathered(old(mds.Outlook()), mds.Outlook(), 0, mds.last.reply)
      {
        assert parents[n] in parents;
        AfterAll(old(mds.fates), n, 0);
        AfterAll(old(mds.fates), n, 1);
        var reply, more := mds.List(k, parents[n]);
        if reply.NoReply? {
          return REDIRECT_MDS, [];
        } else if reply.code < 0 {
          return reply.code, [];
        }
        OneMoreListed(mds.t, k, parents, n);
        infos := infos + more;
      }
      assert parents[..|parents|] == parents;
    }

    method ScanPoolsets(ghost s: Scan) returns (ret: int, kept: seq<nat>)
      requires WellFormed(mds.t) && Plans(s.p, mds.t, s.w, s.m)
      requires s.w.poolsets == Dedup(poolsetToAdd, poolsetDatas, PoolsetKey)
      requires s.just ==> Just(mds.t.levels[POOLSET], poolsetToDel, s.p.poolsets.del)
      requires s.pending ==> Within(poolsetToDel, s.p.poolsets.del)
      requires s.clean ==> s.pending && poolsetToDel == []
      modifies `poolsetToAdd, `poolsetToDel, mds`fates, mds`last, mds`troubles
      ensures ret <= 0
      ensures ret < 0 ==> ret == Verdict(mds.last)
      ensures LevelStep(mds.t.levels[POOLSET], old(poolsetToDel), poolsetToDel, poolsetToAdd, s.p.poolsets, WantPoolsets(s.m), PoolsetKey, s.just, s.pending, s.clean, ret == 0)
      ensures ret == 0 ==> kept == s.p.poolsets.kept
      ensures DEFAULT_POOLSET_ID !in old(poolsetToDel) ==> DEFAULT_POOLSET_ID !in poolsetToDel
      ensures Took(old(mds.Outlook()), mds.Outlook(), ret, mds.last.reply, 1, true)
    {
      hide Took, After, Verdict, WellFormed, KeyAt, Match, Dedup, PlanOf, ScanLevel, ListUnder, Within, SameIds, Just, PartOf, Rearranges, Distinct, Present,
           WantPoolsets, WantPools, WantZones, WantServers, LevelStep;
      ScanStarts(mds.t, s.p, s.w, s.m);
      RootListed(mds.t);
      PlanLevels(mds.t, s.p, s.w, s.m);
      poolsetToAdd := RemoveRepeats(poolsetToAdd, poolsetDatas, PoolsetKey);
      var infos;
      ret, infos := ListEach(POOLSET, [0]);
      if ret < 0 {
        LevelScanned(mds.t, POOLSET, [0], [], [], s.w.poolsets, WantPoolsets(s.m), PoolsetKey, PoolsetKey, IsDefault,
                     old(poolsetToDel), poolsetToDel, poolsetToAdd, s.just, s.pending, s.clean, false);
        return ret, [];
      }
      ScanLevelIs(mds.t, POOLSET, [0], [], s.w.poolsets, PoolsetKey, IsDefault);
      var d := MatchListed(infos, poolsetToAdd, PoolsetKey, IsDefault);
      poolsetToAdd := d.missing;
      poolsetToDel := poolsetToDel + Ids(d.dropped);
      kept := Ids(d.kept);
      assert poolsetToDel == old(poolsetToDel) + ([] + Ids(d.dropped));
      LevelScanned(mds.t, POOLSET, [0], [], [], s.w.poolsets, WantPoolsets(s.m), PoolsetKey, PoolsetKey, IsDefault,
                   old(poolsetToDel), poolsetToDel, poolsetToAdd, s.just, s.pending, s.clean, true);
    }

    method ScanPools(poolsets: seq<nat>, ghost s: Scan) returns (ret: int, kept: seq<nat>)
      requires WellFormed(mds.t) && Plans(s.p, mds.t, s.w, s.m)
      requires s.w.pools == Dedup(physicalPoolToAdd, Pools(serverDatas), PoolName)
      requires poolsets == s.p.poolsets.kept
      requires s.just ==> Just(mds.t.levels[POOLSET], poolsetToDel, s.p.poolsets.del) && Just(mds.t.levels[POOL], physicalPoolToDel, s.p.pools.del)
      requires s.pending ==> SameIds(poolsetToDel, s.p.poolsets.del) && Within(physicalPoolToDel, s.p.pools.del)
      requires s.clean ==> s.pending && physicalPoolToDel == [] && poolsetToDel == s.p.poolsets.del
      modifies `physicalPoolToAdd, `physicalPoolToDel, mds`fates, mds`last, mds`troubles
      ensures ret <= 0
      ensures ret < 0 ==> ret == Verdict(mds.last)
      ensures LevelStep(mds.t.levels[POOL], old(physicalPoolToDel), physicalPoolToDel, physicalPoolToAdd, s.p.pools, WantPools(s.m), PoolName, s.just, s.pending, s.clean, ret == 0)
      ensures ret == 0 ==> kept == s.p.pools.kept
      ensures ret == 0 ==> mds.t.HasShape() && Present(poolsetToDel, mds.t.levels[POOLSET])
      ensures Took(old(mds.Outlook()), mds.Outlook(), ret, mds.last.reply, |poolsetToDel| + |poolsets|, s.clean)
      ensures ret == 0 ==> mds.fates == After(old(mds.fates), |poolsetToDel| + |poolsets|)
    {
      hide Took, After, Verdict, WellFormed, KeyAt, Match, Dedup, PlanOf, ScanLevel, ListUnder, Within, SameIds, Just, PartOf, Rearranges, Distinct, Present,
           WantPoolsets, WantPools, WantZones, WantServers, LevelStep;
      ScanStarts(mds.t, s.p, s.w, s.m);
      PlanLevels(mds.t, s.p, s.w, s.m);
      physicalPoolToAdd := RemoveRepeats(physicalPoolToAdd, Pools(serverDatas), PoolName);
      var infos;
      ret, infos := ListEach(POOL, poolsetToDel);
      ghost var mid, reply := mds.Outlook(), mds.last.reply;
      if ret < 0 {
        TookShort(old(mds.Outlook()), mid, ret, reply, |poolsetToDel|, Present(poolsetToDel, mds.t.levels[POOLSET]), |poolsetToDel| + |poolsets|, s.clean);
        LevelScanned(mds.t, POOL, poolsets, s.p.poolsets.del, poolsetToDel, s.w.pools, WantPools(s.m), PoolKey, PoolName, Never,
                     old(physicalPoolToDel), physicalPoolToDel, physicalPoolToAdd, s.just, s.pending, s.clean, false);
        return ret, [];
      }
      physicalPoolToDel := physicalPoolToDel + Ids(infos);
      IdsOfInfos(mds.t, POOL, ListUnder(mds.t.levels[POOLSET], poolsetToDel));
      ret, infos := ListEach(POOL, poolsets);
      TookOn(old(mds.Outlook()), mid, mds.Outlook(), ret, reply, mds.last.reply, |poolsetToDel|, Present(poolsetToDel, mds.t.levels[POOLSET]),
             |poolsets|, Present(poolsets, mds.t.levels[POOLSET]), |poolsetToDel| + |poolsets|, s.clean);
      if ret < 0 {
        LevelScanned(mds.t, POOL, poolsets, s.p.poolsets.del, poolsetToDel, s.w.pools, WantPools(s.m), PoolKey, PoolName, Never,
                     old(physicalPoolToDel), physicalPoolToDel, physicalPoolToAdd, s.just, s.pending, s.clean, false);
        return ret, [];
      }
      ScanLevelIs(mds.t, POOL, poolsets, poolsetToDel, s.w.pools, PoolKey, Never);
      var d := MatchListed(infos, physicalPoolToAdd, PoolKey, Never);
      physicalPoolToAdd := d.missing;
      physicalPoolToDel := physicalPoolToDel + Ids(d.dropped);
      kept := Ids(d.kept);
      assert physicalPoolToDel == old(physicalPoolToDel) + (ListUnder(mds.t.levels[POOLSET], poolsetToDel) + Ids(d.dropped));
      LevelScanned(mds.t, POOL, poolsets, s.p.poolsets.del, poolsetToDel, s.w.pools, WantPools(s.m), PoolKey, PoolName, Never,
                   old(physicalPoolToDel), physicalPoolToDel, physicalPoolToAdd, s.just, s.pending, s.clean, true);
    }

    method ScanZones(pools: seq<nat>, ghost s: Scan) returns (ret: int, kept: seq<nat>)
      requires WellFormed(mds.t) && Plans(s.p, mds.t, s.w, s.m)
      requires s.w.zones == Dedup(zoneToAdd, Zones(serverDatas), ZoneKey)
      requires pools == s.p.pools.kept
      requires s.just ==> Just(mds.t.levels[POOL], physicalPoolToDel, s.p.pools.del) && Just(mds.t.levels[ZONE], zoneToDel, s.p.zones.del)
      requires s.pending ==> SameIds(physicalPoolToDel, s.p.pools.del) && Within(zoneToDel, s.p.zones.del)
      requires s.clean ==> s.pending && zoneToDel == [] && physicalPoolToDel == s.p.pools.del
      modifies `zoneToAdd, `zoneToDel, mds`fates, mds`last, mds`troubles
      ensures ret <= 0
      ensures ret < 0 ==> ret == Verdict(mds.last)
      ensures LevelStep(mds.t.levels[ZONE], old(zoneToDel), zoneToDel, zoneToAdd, s.p.zones, WantZones(s.m), ZoneKey, s.just, s.pending, s.clean, ret == 0)
      ensures ret == 0 ==> kept == s.p.zones.kept
      ensures ret == 0 ==> mds.t.HasShape() && Present(physicalPoolToDel, mds.t.levels[POOL])
      ensures Took(old(mds.Outlook()), mds.Outlook(), ret, mds.last.reply, |physicalPoolToDel| + |pools|, s.clean)
      ensures ret == 0 ==> mds.fates == After(old(mds.fates), |physicalPoolToDel| + |pools|)
    {
      hide Took, After, Verdict, WellFormed, KeyAt, Match, Dedup, PlanOf, ScanLevel, ListUnder, Within, SameIds, Just, PartOf, Rearranges, Distinct, Present,
           WantPoolsets, WantPools, WantZones, WantServers, LevelStep;
      ScanStarts(mds.t, s.p, s.w, s.m);
      PlanLevels(mds.t, s.p, s.w, s.m);
      zoneToAdd := RemoveRepeats(zoneToAdd, Zones(serverDatas), ZoneKey);
      var infos;
      ret, infos := ListEach(ZONE, physicalPoolToDel);
      ghost var mid, reply := mds.Outlook(), mds.last.reply;
      if ret < 0 {
        TookShort(old(mds.Outlook()), mid, ret, reply, |physicalPoolToDel|, Present(physicalPoolToDel, mds.t.levels[POOL]), |physicalPoolToDel| + |pools|, s.clean);
        LevelScanned(mds.t, ZONE, pools, s.p.pools.del, physicalPoolToDel, s.w.zones, WantZones(s.m), ZoneKey, ZoneKey, Never,
                     old(zoneToDel), zoneToDel, zoneToAdd, s.just, s.pending, s.clean, false);
        return ret, [];
      }
      zoneToDel := zoneToDel + Ids(infos);
      IdsOfInfos(mds.t, ZONE, ListUnder(mds.t.levels[POOL], physicalPoolToDel));
      ret, infos := ListEach(ZONE, pools);
      TookOn(old(mds.Outlook()), mid, mds.Outlook(), ret, reply, mds.last.reply, |physicalPoolToDel|, Present(physicalPoolToDel, mds.t.levels[POOL]),
             |pools|, Present(pools, mds.t.levels[POOL]), |physicalPoolToDel| + |pools|, s.clean);
      if ret < 0 {
        LevelScanned(mds.t, ZONE, pools, s.p.pools.del, physicalPoolToDel, s.w.zones, WantZones(s.m), ZoneKey, ZoneKey, Never,
                     old(zoneToDel), zoneToDel, zoneToAdd, s.just, s.pending, s.clean, false);
        return ret, [];
      }
      ScanLevelIs(mds.t, ZONE, pools, physicalPoolToDel, s.w.zones, ZoneKey, Never);
      var d := MatchListed(infos, zoneToAdd, ZoneKey, Never);
      zoneToAdd := d.missing;
      zoneToDel := zoneToDel + Ids(d.dropped);
      kept := Ids(d.kept);
      assert zoneToDel == old(zoneToDel) + (ListUnder(mds.t.levels[POOL], physicalPoolToDel) + Ids(d.dropped));
      LevelScanned(mds.t, ZONE, pools, s.p.pools.del, physicalPoolToDel, s.w.zones, WantZones(s.m), ZoneKey, ZoneKey, Never,
                   old(zoneToDel), zoneToDel, zoneToAdd, s.just, s.pending, s.clean, true);
    }

    method ScanServers(zones: seq<nat>, ghost s: Scan) returns (ret: int, ghost kept: seq<nat>)
      requires WellFormed(mds.t) && Plans(s.p, mds.t, s.w, s.m)
      requires s.w.servers == Dedup(serverToAdd, serverDatas, ServerName)
      requires zones == s.p.zones.kept
      requires s.just ==> Just(mds.t.levels[ZONE], zoneToDel, s.p.zones.del) && Just(mds.t.levels[SERVER], serverToDel, s.p.servers.del)
      requires s.pending ==> SameIds(zoneToDel, s.p.zones.del) && Within(serverToDel, s.p.servers.del)
      requires s.clean ==> s.pending && serverToDel == [] && zoneToDel == s.p.zones.del
      modifies `serverToAdd, `serverToDel, mds`fates, mds`last, mds`troubles
      ensures ret <= 0
      ensures ret < 0 ==> ret == Verdict(mds.last)
      ensures LevelStep(mds.t.levels[SERVER], old(serverToDel), serverToDel, serverToAdd, s.p.servers, WantServers(s.m), ServerName, s.just, s.pending, s.clean, ret == 0)
      ensures ret == 0 ==> kept == s.p.servers.kept
      ensures ret == 0 ==> mds.t.HasShape() && Present(zoneToDel, mds.t.levels[ZONE])
      ensures Took(old(mds.Outlook()), mds.Outlook(), ret, mds.last.reply, |zoneToDel| + |zones|, s.clean)
      ensures ret == 0 ==> mds.fates == After(old(mds.fates), |zoneToDel| + |zones|)
    {
      hide Took, After, Verdict, WellFormed, KeyAt, Match, Dedup, PlanOf, ScanLevel, ListUnder, Within, SameIds, Just, PartOf, Rearranges, Distinct, Present,
           WantPoolsets, WantPools, WantZones, WantServers, LevelStep;
      ScanStarts(mds.t, s.p, s.w, s.m);
      PlanLevels(mds.t, s.p, s.w, s.m);
      serverToAdd := RemoveRepeats(serverToAdd, serverDatas, ServerName);
      var infos;
      ret, infos := ListEach(SERVER, zoneToDel);
      ghost var mid, reply := mds.Outlook(), mds.last.reply;
      if ret < 0 {
        TookShort(old(mds.Outlook()), mid, ret, reply, |zoneToDel|, Present(zoneToDel, mds.t.levels[ZONE]), |zoneToDel| + |zones|, s.clean);
        LevelScanned(mds.t, SERVER, zones, s.p.zones.del, zoneToDel, s.w.servers, WantServers(s.m), ServerKey, ServerName, Never,
                     old(serverToDel), serverToDel, serverToAdd, s.just, s.pending, s.clean, false);
        return ret, [];
      }
      serverToDel := serverToDel + Ids(infos);
      IdsOfInfos(mds.t, SERVER, ListUnder(mds.t.levels[ZONE], zoneToDel));
      ret, infos := ListEach(SERVER, zones);
      TookOn(old(mds.Outlook()), mid, mds.Outlook(), ret, reply, mds.last.reply, |zoneToDel|, Present(zoneToDel, mds.t.levels[ZONE]),
             |zones|, Present(zones, mds.t.levels[ZONE]), |zoneToDel| + |zones|, s.clean);
      if ret < 0 {
        LevelScanned(mds.t, SERVER, zones, s.p.zones.del, zoneToDel, s.w.servers, WantServers(s.m), ServerKey, ServerName, Never,
                     old(serverToDel), serverToDel, serverToAdd, s.just, s.pending, s.clean, false);
        return ret, [];
      }
      ScanLevelIs(mds.t, SERVER, zones, zoneToDel, s.w.servers, ServerKey, Never);
      var d := MatchListed(infos, serverToAdd, ServerKey, Never);
      serverToAdd := d.missing;
      serverToDel := serverToDel + Ids(d.dropped);
      kept := Ids(d.kept);
      assert serverToDel == old(serverToDel) + (ListUnder(mds.t.levels[ZONE], zoneToDel) + Ids(d.dropped));
      LevelScanned(mds.t, SERVER, zones, s.p.zones.del, zoneToDel, s.w.servers, WantServers(s.m), ServerKey, ServerName, Never,
                   old(serverToDel), serverToDel, serverToAdd, s.just, s.pending, s.clean, true);
    }

    /** The lists are those of the plan. */
    ghost predicate Holds(p: Plan)
      reads this
    {
      ToDel() == DelsOf(p) && ToAdd() == AddsOf(p)
    }

    method ScanCluster(ghost m: ClusterMap, ghost p: Plan) returns (ret: int)
      requires WellFormed(mds.t) && Partial(ToAdd(), m) && Plans(p, mds.t, NextWants(ToAdd(), Read()), m)
      modifies `poolsetToAdd, `physicalPoolToAdd, `zoneToAdd, `serverToAdd,
               `poolsetToDel, `physicalPoolToDel, `zoneToDel, `serverToDel, mds`fates, mds`last, mds`troubles
      ensures ret <= 0 && Scanned(mds.t, p, m, old(ToDel()), ToDel(), ToAdd(), ret == 0)
      ensures ret < 0 ==> ret == Verdict(mds.last)
      ensures ret == 0 ==> UppersPresent(mds.t, ToDel())
      ensures DEFAULT_POOLSET_ID !in old(poolsetToDel) ==> DEFAULT_POOLSET_ID !in poolsetToDel
      ensures Took(old(mds.Outlook()), mds.Outlook(), ret, mds.last.reply, ScanCost(p), !old(Scheduled(ToDel())))
    {
      hide Took, After, WellFormed, ScanLevel, Dedup, LevelPlanned, Wanted, ListUnder, Distinct, KeysOf, NoDup,
           WantPoolsets, WantPools, WantZones, WantServers, Within, SameIds, Just, PartOf, Rearranges, Planned, Present, LevelStep,
           NoRepeats, Partial, Extends, Justly, Pending, Scheduled, Verdict, Scanned;
      ghost var d0 := ToDel();
      ghost var s := Scan(p, NextWants(ToAdd(), Read()), m, Justly(mds.t, p, d0), Pending(p, d0), !Scheduled(d0));
      ghost var w0, cost := mds.Outlook(), 1;
      ScanBegins(mds.t, s, d0, ToAdd());
      var poolsets, pools, zones;
      ret, poolsets := ScanPoolsets(s);
      ghost var w, reply := mds.Outlook(), mds.last.reply;
      if ret < 0 {
        TookShort(w0, w, ret, reply, cost, true, ScanCost(p), s.clean);
        StepsTogether(mds.t, s, d0, ToDel(), ToAdd(), ROOT);
        return;
      }
      StepGives(mds.t.levels[POOLSET], d0.poolsets, poolsetToDel, poolsetToAdd, p.poolsets, WantPoolsets(m), PoolsetKey, s.just, s.pending, s.clean);
      ret, pools := ScanPools(poolsets, s);
      TookOn(w0, w, mds.Outlook(), ret, reply, mds.last.reply, cost, true, |poolsetToDel| + |poolsets|, s.clean, cost + |poolsetToDel| + |poolsets|, s.clean);
      cost, w, reply := cost + |poolsetToDel| + |poolsets|, mds.Outlook(), mds.last.reply;
      if ret < 0 {
        TookShort(w0, w, ret, reply, cost, s.clean, ScanCost(p), s.clean);
        StepsTogether(mds.t, s, d0, ToDel(), ToAdd(), POOLSET);
        return;
      }
      StepGives(mds.t.levels[POOL], d0.pools, physicalPoolToDel, physicalPoolToAdd, p.pools, WantPools(m), PoolName, s.just, s.pending, s.clean);
      ret, zones := ScanZones(pools, s);
      TookOn(w0, w, mds.Outlook(), ret, reply, mds.last.reply, cost, s.clean, |physicalPoolToDel| + |pools|, s.clean, cost + |physicalPoolToDel| + |pools|, s.clean);
      cost, w, reply := cost + |physicalPoolToDel| + |pools|, mds.Outlook(), mds.last.reply;
      if ret < 0 {
        TookShort(w0, w, ret, reply, cost, s.clean, ScanCost(p), s.clean);
        StepsTogether(mds.t, s, d0, ToDel(), ToAdd(), POOL);
        return;
      }
      StepGives(mds.t.levels[ZONE], d0.zones, zoneToDel, zoneToAdd, p.zones, WantZones(m), ZoneKey, s.just, s.pending, s.clean);
      ghost var servers;
      ret, servers := ScanServers(zones, s);
      TookOn(w0, w, mds.Outlook(), ret, reply, mds.last.reply, cost, s.clean, |zoneToDel| + |zones|, s.clean, ScanCost(p), s.clean);
      StepsTogether(mds.t, s, d0, ToDel(), ToAdd(), if ret == 0 then SERVER else ZONE);
    }

    // ------------------------------------------------------------ deleting

    /** One deletion of the Clear loops. It succeeds only on a node that is there, and then the
        node is gone; but the refusal to delete the default poolset counts as success. */
    method ClearOne(k: Kind, id: nat, ghost ids: seq<nat>, ghost t0: Topology, ghost gone: seq<set<nat>>, ghost m: ClusterMap,
                    ghost dels: seq<set<nat>>)
      returns (ret: int)
      requires WellFormed(mds.t) && |dels| == 5 && id in dels[k]
      modifies mds
      ensures WellFormed(mds.t) && ret <= 0 && Shrinks(old(mds.t), mds.t)
      ensures ret < 0 ==> ret == Verdict(mds.last)
      ensures mds.t == old(mds.t) || (id !in mds.t.levels[k] && Shrunk(old(mds.t), mds.t, k, id))
      ensures k == POOLSET && id == DEFAULT_POOLSET_ID ==> mds.t == old(mds.t) && (mds.last.reply.Status? ==> ret == 0)
      ensures CutShort(old(mds.fates)) ==> ret == REDIRECT_MDS && mds.calls != old(mds.calls)
      ensures ret == 0 ==> id in old(mds.t).levels[k] && (id !in mds.t.levels[k] <==> !(k == POOLSET && id == DEFAULT_POOLSET_ID))
      ensures Weathered(old(mds.Outlook()), mds.Outlook(), ret, mds.last.reply)
      ensures InTurn(t0, old(mds.t), gone, k, ids, id) && (k == POOLSET ==> id != DEFAULT_POOLSET_ID) && Due(t0, old(mds.t), m, dels) ==>
                LogGrew(old(mds.Now()), mds.Now(), m)
      ensures InTurn(t0, old(mds.t), gone, k, ids, id) && (k == POOLSET ==> id != DEFAULT_POOLSET_ID) && ret == 0 ==>
                Cleared(t0, mds.t, gone[k := gone[k] + {id}]) && (k == SERVER ==> t0.levels[k][id].children == [])
      ensures InTurn(t0, old(mds.t), gone, k, ids, id) && mds.troubles == old(mds.troubles) && (k == SERVER ==> AllChildless(t0, [id])) ==>
                ret == 0
    {
      hide Mild, Troubles, LinkedAt, PoolsetsNamed, Numbered, NoDup, Answers, Orderly, Agree, Shrunk, LogGrew, Cleared, ChildrenGone, Shrinks, Due, PlanFor;
      ghost var t, calls := mds.t, mds.calls;
      var reply := mds.Remove(k, id);
      forall code | Answers(Call(Delete(k, id), code, t, mds.t))
        ensures code <= 0 && Shrinks(t, mds.t) && (mds.t == t || (id !in mds.t.levels[k] && Shrunk(t, mds.t, k, id)))
        ensures code == SUCCESS ==> id in t.levels[k] && id !in mds.t.levels[k]
        ensures code == CANNOT_DELETE_DEFAULT_POOLSET <==> k == POOLSET && id == DEFAULT_POOLSET_ID && id in t.levels[k]
      {
        DeletionTakesNode(t, mds.t, k, id, code);
      }
      ShrinksReflexive(t);
      match reply {
        case NoReply(down) =>
          ret := if down then REDIRECT_MDS else COMMON_ERR;
        case Status(code) =>
          ret := if k == POOLSET && code == CANNOT_DELETE_DEFAULT_POOLSET then SUCCESS else code;
      }
      DefaultIsThere(t, mds.t);
      if InTurn(t0, t, gone, k, ids, id) && (k == POOLSET ==> id != DEFAULT_POOLSET_ID) {
        DeletionFindsLeaf(t0, t, gone, k, ids, id);
        forall code | Answers(Call(Delete(k, id), code, t, mds.t))
          ensures Orderly(Call(Delete(k, id), code, t, mds.t), m)
          ensures code == SUCCESS ==> Cleared(t0, mds.t, gone[k := gone[k] + {id}]) && t.levels[k][id].children == []
          ensures t.levels[k][id].children == [] ==> code == SUCCESS || code == STORAGE_FAIL
        {
          DeletionIsOrderly(t, mds.t, k, id, m, code);
          if code == SUCCESS {
            ClearStep(t0, t, mds.t, gone, k, id);
          }
        }
        if Due(t0, t, m, dels) {
          ComesDue(t0, t, m, dels, k, id);
          LogStep(calls, mds.calls, Delete(k, id), t, mds.t, reply, mds.troubles == old(mds.troubles), m);
        }
      }
    }

    /** ClearServer, ClearZone, ClearPhysicalPool and ClearPoolset. They succeed only if every node
        is there and listed once. When the children of the nodes are gone already, only a
        server with live chunkservers can be refused. */
    method ClearEach(k: Kind, ids: seq<nat>, ghost t0: Topology, ghost gone: seq<set<nat>>, ghost m: ClusterMap,
                     ghost dels: seq<set<nat>>)
      returns (ret: int)
      requires WellFormed(mds.t) && (k == POOLSET ==> DEFAULT_POOLSET_ID !in ids) && |dels| == 5 && ToSet(ids) <= dels[k]
      modifies mds
      ensures WellFormed(mds.t) && ret <= 0 && Shrinks(old(mds.t), mds.t)
      ensures ret < 0 ==> ret == Verdict(mds.last)
      ensures mds.t == old(mds.t) || !Present(ids, mds.t.levels[k])
      ensures ret == 0 ==> NoDup(ids) && Present(ids, old(mds.t).levels[k])
      ensures Weathered(old(mds.Outlook()), mds.Outlook(), ret, mds.last.reply)
      ensures ids == [] ==> ret == 0 && mds.t == old(mds.t) && mds.calls == old(mds.calls) && mds.fates == old(mds.fates)
      ensures ids != [] && CutShort(old(mds.fates)) ==> ret == REDIRECT_MDS && mds.calls != old(mds.calls)
      ensures Thinned(t0, old(mds.t), dels) ==> Thinned(t0, mds.t, dels)
      ensures Clearable(t0, old(mds.t), gone, k, ids) && Due(t0, old(mds.t), m, dels) ==> LogGrew(old(mds.Now()), mds.Now(), m)
      ensures Clearable(t0, old(mds.t), gone, k, ids) && ret == 0 ==>
                Cleared(t0, mds.t, gone[k := ToSet(ids)]) && (k == SERVER ==> AllChildless(t0, ids))
      ensures Clearable(t0, old(mds.t), gone, k, ids) && mds.troubles == old(mds.troubles) && (k == SERVER ==> AllChildless(t0, ids)) ==>
                ret == 0
    {
      hide Mild, Troubles, LinkedAt, PoolsetsNamed, Numbered, Cleared, LogGrew, ChildrenGone, Shrinks, Clearable, InTurn, Thinned, Shrunk, CutShort, PlanFor;
      ret := 0;
      ghost var good, due := Clearable(t0, mds.t, gone, k, ids), Due(t0, mds.t, m, dels);
      LogGrewReflexive(mds.Now(), m);
      ShrinksReflexive(mds.t);
      NoneYet(t0, mds.t, gone, k, ids);
      for n := 0 to |ids|
        invariant WellFormed(mds.t) && ret == 0 && Shrinks(old(mds.t), mds.t)
        invariant mds.t == old(mds.t) || !Present(ids, mds.t.levels[k])
        invariant NoDup(ids[..n])
        invariant forall i | 0 <= i < n :: ids[i] in old(mds.t).levels[k] && ids[i] !in mds.t.levels[k]
        invariant Weathered(old(mds.Outlook()), mds.Outlook(), 0, mds.last.reply)
        invariant n == 0 ==> mds.t == old(mds.t) && mds.calls == old(mds.calls) && mds.fates == old(mds.fates)
        invariant n > 0 ==> !CutShort(old(mds.fates))
        invariant Thinned(t0, old(mds.t), dels) ==> Thinned(t0, mds.t, dels)
        invariant good ==> Cleared(t0, mds.t, gone[k := ToSet(ids[..n])])
        invariant good && due ==> LogGrew(old(mds.Now()), mds.Now(), m)
        invariant good && k == SERVER ==> AllChildless(t0, ids[..n])
      {
        ghost var t, mid, now := mds.t, mds.Now(), gone;
        assert ids[n] in ids && ids[n] in ToSet(ids);
        if good {
          TurnComes(t0, old(mds.t), t, gone, k, ids, n);
          now := gone[k := ToSet(ids[..n])];
        }
        ret := ClearOne(k, ids[n], ids, t0, now, m, dels);
        ShrinksTransitive(old(mds.t), t, mds.t, k);
        if Thinned(t0, t, dels) && mds.t != t {
          ThinnedStep(t0, t, mds.t, dels, k, ids[n]);
        }
        if good && due {
          LogGrewTransitive(old(mds.Now()), mid, mds.Now(), m);
        }
        if ret < 0 {
          return;
        }
        assert ids[..n + 1] == ids[..n] + [ids[n]];
      }
      assert ids[..|ids|] == ids;
    }

    // ------------------------------------------------------------ creating

    method CreatePoolsets(ghost keys: seq<set<Key>>, ghost m: ClusterMap) returns (ret: int)
      requires WellFormed(mds.t) && |keys| == 5 && Carries(mds.t, keys)
      requires Distinct(poolsetToAdd, PoolsetKey) && [DEFAULT_POOLSET_NAME] in keys[POOLSET]
      requires KeysOf(poolsetToAdd, PoolsetKey) <= Wanted(m, POOLSET)
      requires forall q | q in KeysOf(poolsetToAdd, PoolsetKey) && q in keys[POOLSET] :: IsDefault(q)
      modifies mds
      ensures WellFormed(mds.t) && ret <= 0
      ensures ret < 0 ==> ret == Verdict(mds.last)
      ensures LogGrew(old(mds.Now()), mds.Now(), m)
      ensures ret == 0 ==> Carries(mds.t, With(keys, POOLSET, poolsetToAdd, PoolsetKey))
      ensures mds.t.hosts == old(mds.t.hosts)
      ensures Weathered(old(mds.Outlook()), mds.Outlook(), ret, mds.last.reply)
      ensures mds.troubles == old(mds.troubles) ==> ret == 0
      ensures (forall e | e in poolsetToAdd :: IsDefault(PoolsetKey(e))) ==>
                mds.t == old(mds.t) && mds.calls == old(mds.calls)
    {
      hide Mild, Troubles, WellFormed, Carries, LogGrew, KeysOf, Wanted;
      ret := 0;
      ghost var now := keys;
      LogGrewReflexive(mds.Now(), m);
      WithNothing(keys, POOLSET, PoolsetKey);
      for n := 0 to |poolsetToAdd|
        invariant WellFormed(mds.t) && ret == 0
        invariant now == With(keys, POOLSET, poolsetToAdd[..n], PoolsetKey) && Carries(mds.t, now)
        invariant LogGrew(old(mds.Now()), mds.Now(), m)
        invariant mds.t.hosts == old(mds.t.hosts)
        invariant Weathered(old(mds.Outlook()), mds.Outlook(), 0, mds.last.reply)
        invariant (forall e | e in poolsetToAdd :: IsDefault(PoolsetKey(e))) ==>
                    mds.t == old(mds.t) && mds.calls == old(mds.calls)
      {
        var it := poolsetToAdd[n];
        NextKey(keys, POOLSET, poolsetToAdd, PoolsetKey, n);
        if it.name == DEFAULT_POOLSET_NAME {
          assert now[POOLSET] + {PoolsetKey(it)} == now[POOLSET];
          continue;
        }
        assert it in poolsetToAdd && !IsDefault(PoolsetKey(it));
        ret := CreateOnePoolset(it, now, m, old(mds.Now()));
        if ret < 0 {
          return;
        }
        now := now[POOLSET := now[POOLSET] + {PoolsetKey(it)}];
      }
      assert poolsetToAdd[..|poolsetToAdd|] == poolsetToAdd;
    }

    method CreateOnePoolset(it: PoolsetData, ghost keys: seq<set<Key>>, ghost m: ClusterMap, ghost log: Moment)
      returns (ret: int)
      requires WellFormed(mds.t) && |keys| == 5 && Carries(mds.t, keys)
      requires PoolsetKey(it) in Wanted(m, POOLSET) && !IsDefault(PoolsetKey(it))
      requires PoolsetKey(it) !in keys[POOLSET] && LogGrew(log, mds.Now(), m)
      modifies mds
      ensures WellFormed(mds.t) && ret <= 0
      ensures ret < 0 ==> ret == Verdict(mds.last)
      ensures LogGrew(log, mds.Now(), m)
      ensures ret == 0 ==> Carries(mds.t, keys[POOLSET := keys[POOLSET] + {PoolsetKey(it)}])
      ensures mds.t.hosts == old(mds.t.hosts)
      ensures Weathered(old(mds.Outlook()), mds.Outlook(), ret, mds.last.reply)
      ensures mds.troubles == old(mds.troubles) ==> ret == 0
    {
      hide Mild, Troubles, LinkedAt, PoolsetsNamed, Numbered, LogGrew, Answers, Orderly, Keys, Injective, Wanted;
      ghost var t, calls := mds.t, mds.calls;
      var reply := mds.AddPoolset(it);
      assert ExactlyOnce(Keys(t, POOLSET), keys[POOLSET]);
      forall code | Answers(Call(CreatePoolset(it), code, t, mds.t))
        ensures Orderly(Call(CreatePoolset(it), code, t, mds.t), m)
        ensures mds.t.hosts == t.hosts
      {
        PoolsetCreation(t, mds.t, it, m, code);
        AnswersKeepHosts(Call(CreatePoolset(it), code, t, mds.t));
      }
      LogStep(calls, mds.calls, CreatePoolset(it), t, mds.t, reply, mds.troubles == old(mds.troubles), m);
      LogGrewTransitive(log, Moment(t, calls), mds.Now(), m);
      match reply
      case NoReply(_) =>
        ret := REDIRECT_MDS;
      case Status(code) =>
        PoolsetCreation(t, mds.t, it, m, code);
        ret := code;
        if ret == 0 {
          CreateStep(t, mds.t, keys, POOLSET, PoolsetKey(it), NO_HOST);
        }
    }

    method CreatePools(ghost keys: seq<set<Key>>, ghost m: ClusterMap) returns (ret: int)
      requires WellFormed(mds.t) && |keys| == 5 && Carries(mds.t, keys)
      requires keys[POOLSET] == Wanted(m, POOLSET) && Distinct(physicalPoolToAdd, PoolKey)
      requires forall q | q in KeysOf(physicalPoolToAdd, PoolKey) :: q in Wanted(m, POOL) && q !in keys[POOL]
      modifies mds
      ensures WellFormed(mds.t) && ret <= 0
      ensures ret < 0 ==> ret == Verdict(mds.last)
      ensures LogGrew(old(mds.Now()), mds.Now(), m)
      ensures ret == 0 ==> Carries(mds.t, With(keys, POOL, physicalPoolToAdd, PoolKey))
      ensures ret == 0 ==> forall e | e in physicalPoolToAdd :: [e.poolsetName] in Wanted(m, POOLSET)
      ensures mds.t.hosts == old(mds.t.hosts)
      ensures Weathered(old(mds.Outlook()), mds.Outlook(), ret, mds.last.reply)
      ensures mds.troubles == old(mds.troubles) && (forall e | e in physicalPoolToAdd :: [e.poolsetName] in Wanted(m, POOLSET)) ==> ret == 0
      ensures physicalPoolToAdd == [] ==> mds.t == old(mds.t) && mds.calls == old(mds.calls)
    {
      hide Mild, Troubles, WellFormed, Carries, LogGrew, KeysOf, Wanted;
      ret := 0;
      ghost var now := keys;
      LogGrewReflexive(mds.Now(), m);
      WithNothing(keys, POOL, PoolKey);
      for n := 0 to |physicalPoolToAdd|
        invariant WellFormed(mds.t) && ret == 0
        invariant now == With(keys, POOL, physicalPoolToAdd[..n], PoolKey) && Carries(mds.t, now)
        invariant forall i | 0 <= i < n :: [physicalPoolToAdd[i].poolsetName] in Wanted(m, POOLSET)
        invariant LogGrew(old(mds.Now()), mds.Now(), m)
        invariant mds.t.hosts == old(mds.t.hosts)
        invariant Weathered(old(mds.Outlook()), mds.Outlook(), 0, mds.last.reply)
        invariant n == 0 ==> mds.t == old(mds.t) && mds.calls == old(mds.calls)
      {
        var it := physicalPoolToAdd[n];
        assert it in physicalPoolToAdd;
        NextKey(keys, POOL, physicalPoolToAdd, PoolKey, n);
        ret := CreateOnePool(it, now, m, old(mds.Now()));
        if ret < 0 {
          return;
        }
        now := now[POOL := now[POOL] + {PoolKey(it)}];
      }
      assert physicalPoolToAdd[..|physicalPoolToAdd|] == physicalPoolToAdd;
    }

    method CreateOnePool(it: PoolData, ghost keys: seq<set<Key>>, ghost m: ClusterMap, ghost log: Moment)
      returns (ret: int)
      requires WellFormed(mds.t) && |keys| == 5 && Carries(mds.t, keys) && LogGrew(log, mds.Now(), m)
      requires keys[POOLSET] == Wanted(m, POOLSET)
      requires PoolKey(it) in Wanted(m, POOL) && PoolKey(it) !in keys[POOL]
      modifies mds
      ensures WellFormed(mds.t) && ret <= 0
      ensures ret < 0 ==> ret == Verdict(mds.last)
      ensures LogGrew(log, mds.Now(), m)
      ensures ret == 0 ==> Carries(mds.t, keys[POOL := keys[POOL] + {PoolKey(it)}])
      ensures ret == 0 ==> [it.poolsetName] in Wanted(m, POOLSET)
      ensures mds.t.hosts == old(mds.t.hosts)
      ensures Weathered(old(mds.Outlook()), mds.Outlook(), ret, mds.last.reply)
      ensures mds.troubles == old(mds.troubles) && [it.poolsetName] in Wanted(m, POOLSET) ==> ret == 0
    {
      hide Mild, Troubles, LinkedAt, PoolsetsNamed, Numbered, LogGrew, Answers, Orderly, Keys, Injective, Wanted;
      ghost var t, calls := mds.t, mds.calls;
      var reply := mds.AddPhysicalPool(it);
      assert ExactlyOnce(Keys(t, POOLSET), keys[POOLSET]) && ExactlyOnce(Keys(t, POOL), keys[POOL]);
      forall code | Answers(Call(CreatePhysicalPool(it), code, t, mds.t))
        ensures Orderly(Call(CreatePhysicalPool(it), code, t, mds.t), m)
        ensures mds.t.hosts == t.hosts
      {
        PoolCreation(t, mds.t, it, m, code);
        AnswersKeepHosts(Call(CreatePhysicalPool(it), code, t, mds.t));
      }
      LogStep(calls, mds.calls, CreatePhysicalPool(it), t, mds.t, reply, mds.troubles == old(mds.troubles), m);
      LogGrewTransitive(log, Moment(t, calls), mds.Now(), m);
      match reply
      case NoReply(_) =>
        ret := REDIRECT_MDS;
      case Status(code) =>
        PoolCreation(t, mds.t, it, m, code);
        ret := code;
        if ret == 0 {
          CreateStep(t, mds.t, keys, POOL, PoolKey(it), NO_HOST);
        }
    }

    method CreateZones(ghost keys: seq<set<Key>>, ghost m: ClusterMap) returns (ret: int)
      requires WellFormed(mds.t) && |keys| == 5 && Carries(mds.t, keys)
      requires keys[POOL] == Wanted(m, POOL) && Distinct(zoneToAdd, ZoneKey)
      requires forall q | q in KeysOf(zoneToAdd, ZoneKey) :: q in Wanted(m, ZONE) && q !in keys[ZONE]
      modifies mds
      ensures WellFormed(mds.t) && ret <= 0
      ensures ret < 0 ==> ret == Verdict(mds.last)
      ensures LogGrew(old(mds.Now()), mds.Now(), m)
      ensures ret == 0 ==> Carries(mds.t, With(keys, ZONE, zoneToAdd, ZoneKey))
      ensures mds.t.hosts == old(mds.t.hosts)
      ensures Weathered(old(mds.Outlook()), mds.Outlook(), ret, mds.last.reply)
      ensures mds.troubles == old(mds.troubles) ==> ret == 0
      ensures zoneToAdd == [] ==> mds.t == old(mds.t) && mds.calls == old(mds.calls)
    {
      hide Mild, Troubles, WellFormed, Carries, LogGrew, KeysOf, Wanted;
      ret := 0;
      ghost var now := keys;
      LogGrewReflexive(mds.Now(), m);
      WithNothing(keys, ZONE, ZoneKey);
      for n := 0 to |zoneToAdd|
        invariant WellFormed(mds.t) && ret == 0
        invariant now == With(keys, ZONE, zoneToAdd[..n], ZoneKey) && Carries(mds.t, now)
        invariant LogGrew(old(mds.Now()), mds.Now(), m)
        invariant mds.t.hosts == old(mds.t.hosts)
        invariant Weathered(old(mds.Outlook()), mds.Outlook(), 0, mds.last.reply)
        invariant n == 0 ==> mds.t == old(mds.t) && mds.calls == old(mds.calls)
      {
        var it := zoneToAdd[n];
        NextKey(keys, ZONE, zoneToAdd, ZoneKey, n);
        ret := CreateOneZone(it, now, m, old(mds.Now()));
        if ret < 0 {
          return;
        }
        now := now[ZONE := now[ZONE] + {ZoneKey(it)}];
      }
      assert zoneToAdd[..|zoneToAdd|] == zoneToAdd;
    }

    method CreateOneZone(it: ZoneData, ghost keys: seq<set<Key>>, ghost m: ClusterMap, ghost log: Moment)
      returns (ret: int)
      requires WellFormed(mds.t) && |keys| == 5 && Carries(mds.t, keys) && LogGrew(log, mds.Now(), m)
      requires keys[POOL] == Wanted(m, POOL)
      requires ZoneKey(it) in Wanted(m, ZONE) && ZoneKey(it) !in keys[ZONE]
      modifies mds
      ensures WellFormed(mds.t) && ret <= 0
      ensures ret < 0 ==> ret == Verdict(mds.last)
      ensures LogGrew(log, mds.Now(), m)
      ensures ret == 0 ==> Carries(mds.t, keys[ZONE := keys[ZONE] + {ZoneKey(it)}])
      ensures mds.t.hosts == old(mds.t.hosts)
      ensures Weathered(old(mds.Outlook()), mds.Outlook(), ret, mds.last.reply)
      ensures mds.troubles == old(mds.troubles) ==> ret == 0
    {
      hide Mild, Troubles, LinkedAt, PoolsetsNamed, Numbered, LogGrew, Answers, Orderly, Keys, Injective, Wanted;
      ghost var t, calls := mds.t, mds.calls;
      var reply := mds.AddZone(it);
      assert ExactlyOnce(Keys(t, POOL), keys[POOL]) && ExactlyOnce(Keys(t, ZONE), keys[ZONE]);
      forall code | Answers(Call(CreateZone(it), code, t, mds.t))
        ensures Orderly(Call(CreateZone(it), code, t, mds.t), m)
        ensures mds.t.hosts == t.hosts
      {
        ZoneCreation(t, mds.t, it, m, code);
        AnswersKeepHosts(Call(CreateZone(it), code, t, mds.t));
      }
      LogStep(calls, mds.calls, CreateZone(it), t, mds.t, reply, mds.troubles == old(mds.troubles), m);
      LogGrewTransitive(log, Moment(t, calls), mds.Now(), m);
      match reply
      case NoReply(down) =>
        ret := if down then REDIRECT_MDS else COMMON_ERR;
      case Status(code) =>
        ZoneCreation(t, mds.t, it, m, code);
        ret := code;
        if ret == 0 {
          CreateStep(t, mds.t, keys, ZONE, ZoneKey(it), NO_HOST);
        }
    }

    /** A server whose address is taken is skipped as if it were there already. */
    method CreateServers(ghost keys: seq<set<Key>>, ghost hs: set<Host>, ghost m: ClusterMap) returns (ret: int)
      requires WellFormed(mds.t) && |keys| == 5 && Carries(mds.t, keys) && mds.t.hosts.Values == hs
      requires keys[POOL] == Wanted(m, POOL) && keys[ZONE] == Wanted(m, ZONE) && Distinct(serverToAdd, ServerKey)
      requires forall q | q in KeysOf(serverToAdd, ServerKey) :: q in Wanted(m, SERVER) && q !in keys[SERVER]
      requires forall e | e in serverToAdd :: e in WantServers(m)
      modifies mds
      ensures WellFormed(mds.t) && ret <= 0
      ensures ret < 0 ==> ret == Verdict(mds.last)
      ensures LogGrew(old(mds.Now()), mds.Now(), m)
      ensures ret == 0 ==> Carries(mds.t, With(keys, SERVER, Accepted(hs, serverToAdd), ServerKey))
      ensures Weathered(old(mds.Outlook()), mds.Outlook(), ret, mds.last.reply)
      ensures mds.troubles == old(mds.troubles) ==> ret == 0
      ensures serverToAdd == [] ==> mds.t == old(mds.t) && mds.calls == old(mds.calls)
    {
      hide Mild, Troubles, WellFormed, Carries, LogGrew, KeysOf, Wanted, WantServers, ClashesWith, HostsOf, With, Accepted;
      ret := 0;
      ghost var now, done := keys, [];
      LogGrewReflexive(mds.Now(), m);
      WithNothing(keys, SERVER, ServerKey);
      HostsOfNothing(hs);
      for n := 0 to |serverToAdd|
        invariant WellFormed(mds.t) && ret == 0
        invariant done == Accepted(hs, serverToAdd[..n]) && now == With(keys, SERVER, done, ServerKey)
        invariant Carries(mds.t, now) && mds.t.hosts.Values == hs + HostsOf(done)
        invariant LogGrew(old(mds.Now()), mds.Now(), m)
        invariant Weathered(old(mds.Outlook()), mds.Outlook(), 0, mds.last.reply)
        invariant n == 0 ==> mds.t == old(mds.t) && mds.calls == old(mds.calls)
      {
        var it := serverToAdd[n];
        NextServerKey(keys, hs, serverToAdd, n);
        ghost var taken;
        ret, taken := CreateOneServer(it, now, m, old(mds.Now()));
        if ret < 0 {
          return;
        }
        if !taken {
          done := done + [it];
          now := now[SERVER := now[SERVER] + {ServerKey(it)}];
        }
      }
      assert serverToAdd[..|serverToAdd|] == serverToAdd;
    }

    method CreateOneServer(it: ServerData, ghost keys: seq<set<Key>>, ghost m: ClusterMap, ghost log: Moment)
      returns (ret: int, ghost taken: bool)
      requires WellFormed(mds.t) && |keys| == 5 && Carries(mds.t, keys) && LogGrew(log, mds.Now(), m)
      requires keys[POOL] == Wanted(m, POOL) && keys[ZONE] == Wanted(m, ZONE)
      requires ServerKey(it) in Wanted(m, SERVER) && ServerKey(it) !in keys[SERVER] && it in WantServers(m)
      modifies mds
      ensures WellFormed(mds.t) && ret <= 0
      ensures ret < 0 ==> ret == Verdict(mds.last)
      ensures LogGrew(log, mds.Now(), m)
      ensures taken == ClashesWith(old(mds.t.hosts.Values), it.host)
      ensures ret == 0 && !taken ==>
                && Carries(mds.t, keys[SERVER := keys[SERVER] + {ServerKey(it)}])
                && mds.t.hosts.Values == old(mds.t.hosts.Values) + {it.host}
      ensures ret == 0 && taken ==> mds.t == old(mds.t)
      ensures Weathered(old(mds.Outlook()), mds.Outlook(), ret, mds.last.reply)
      ensures mds.troubles == old(mds.troubles) ==> ret == 0
    {
      hide Mild, Troubles, LinkedAt, PoolsetsNamed, Numbered, LogGrew, Answers, Orderly, Keys, Injective, Wanted, WantServers, AnyClash, ClashesWith;
      ghost var t, calls := mds.t, mds.calls;
      taken := AnyClash(t.hosts, it.host);
      ClashByValue(t.hosts, it.host);
      var reply := mds.AddServer(it);
      assert ExactlyOnce(Keys(t, POOL), keys[POOL]) && ExactlyOnce(Keys(t, ZONE), keys[ZONE]);
      assert ExactlyOnce(Keys(t, SERVER), keys[SERVER]);
      forall code | Answers(Call(RegistServer(it), code, t, mds.t))
        ensures Orderly(Call(RegistServer(it), code, t, mds.t), m)
      {
        ServerCreation(t, mds.t, it, m, code);
      }
      LogStep(calls, mds.calls, RegistServer(it), t, mds.t, reply, mds.troubles == old(mds.troubles), m);
      LogGrewTransitive(log, Moment(t, calls), mds.Now(), m);
      match reply
      case NoReply(down) =>
        ret := if down then REDIRECT_MDS else COMMON_ERR;
      case Status(code) =>
        ServerCreation(t, mds.t, it, m, code);
        ret := if code == IP_PORT_DUPLICATED then SUCCESS else code;
        if code == SUCCESS {
          CreateStep(t, mds.t, keys, SERVER, ServerKey(it), it.host);
          NewHost(t, mds.t, ServerKey(it), it.host);
        } else if code == IP_PORT_DUPLICATED {
          RefusedChangesNothing(Call(RegistServer(it), code, t, mds.t));
        }
    }

    // ------------------------------------------------------------ the whole run

    /** The four Clear steps, children first. Only listed nodes are deleted. */
    method ClearAll(ghost t0: Topology, ghost m: ClusterMap, ghost p: Plan) returns (ret: int)
      requires WellFormed(t0) && mds.t == t0 && Planned(t0, m, p) && DelsOf(p) == DelsOf(PlanFor(t0, m))
      requires DEFAULT_POOLSET_ID !in poolsetToDel
      modifies mds
      ensures WellFormed(mds.t) && ret <= 0 && Shrinks(t0, mds.t)
      ensures ret < 0 ==> ret == Verdict(mds.last)
      ensures mds.t == t0 || Spent(mds.t, ToDel())
      ensures ret == 0 ==> !Doomed(t0, ToDel())
      ensures Weathered(old(mds.Outlook()), mds.Outlook(), ret, mds.last.reply)
      ensures Thinned(t0, mds.t, ListedIds(ToDel()))
      ensures Holds(p) ==> LogGrew(old(mds.Now()), mds.Now(), m) && Thinned(t0, mds.t, DeletedIds(p))
      ensures Scheduled(ToDel()) && CutShort(old(mds.fates)) ==> ret == REDIRECT_MDS && mds.calls != old(mds.calls)
      ensures Holds(p) && ret == 0 ==> Cleared(t0, mds.t, DeletedIds(p)) && NoneBusy(t0, p)
      ensures Holds(p) && mds.troubles == old(mds.troubles) && NoneBusy(t0, p) ==> ret == 0
      ensures Holds(p) && NothingToDo(p) ==> mds.t == old(mds.t) && mds.calls == old(mds.calls)
    {
      hide Mild, Troubles, LinkedAt, PoolsetsNamed, Numbered, LevelPlanned, Wanted, LogGrew, Cleared, NoDup, ChildrenGone, Shrinks, Present, Clearable, DeletedBelow, Thinned, CutShort, PlanFor;
      ghost var good, gone := Holds(p), DeletedBelow(p, SERVER);
      ghost var t1, mid := mds.t, mds.Now();
      ghost var dels := ListedIds(ToDel());
      ThinnedReflexive(t0, dels);
      ListedIsDeleted(p, PlanFor(t0, m));
      ShrinksReflexive(t0);
      NothingCleared(t0, p);
      NextClearable(t0, t0, m, p, SERVER);
      ret := ClearEach(SERVER, serverToDel, t0, gone, m, dels);
      if ret < 0 {
        return;
      }
      gone, t1, mid := DeletedBelow(p, ZONE), mds.t, mds.Now();
      if good {
        NextClearable(t0, mds.t, m, p, ZONE);
      }
      PresentBefore(t0, mds.t, ZONE, zoneToDel);
      ret := ClearEach(ZONE, zoneToDel, t0, gone, m, dels);
      ShrinksOn(t0, t1, mds.t, ToDel());
      if good {
        LogGrewTransitive(old(mds.Now()), mid, mds.Now(), m);
      }
      if ret < 0 {
        return;
      }
      gone, t1, mid := DeletedBelow(p, POOL), mds.t, mds.Now();
      if good {
        NextClearable(t0, mds.t, m, p, POOL);
      }
      PresentBefore(t0, mds.t, POOL, physicalPoolToDel);
      ret := ClearEach(POOL, physicalPoolToDel, t0, gone, m, dels);
      ShrinksOn(t0, t1, mds.t, ToDel());
      if good {
        LogGrewTransitive(old(mds.Now()), mid, mds.Now(), m);
      }
      if ret < 0 {
        return;
      }
      gone, t1, mid := DeletedBelow(p, POOLSET), mds.t, mds.Now();
      if good {
        NextClearable(t0, mds.t, m, p, POOLSET);
      }
      PresentBefore(t0, mds.t, POOLSET, poolsetToDel);
      ret := ClearEach(POOLSET, poolsetToDel, t0, gone, m, dels);
      ShrinksOn(t0, t1, mds.t, ToDel());
      if good {
        LogGrewTransitive(old(mds.Now()), mid, mds.Now(), m);
      }
    }

    /** The four Create steps, parents first. Everything that is there stays. */
    method CreateAll(ghost t0: Topology, ghost m: ClusterMap, ghost p: Plan) returns (ret: int)
      requires WellFormed(t0) && WellFormed(mds.t) && Planned(t0, m, p) && Holds(p)
      requires Carries(mds.t, KeptKeys(t0, p)) && mds.t.hosts.Values == KeptHosts(t0, p)
      modifies mds
      ensures WellFormed(mds.t) && ret <= 0
      ensures ret < 0 ==> ret == Verdict(mds.last)
      ensures LogGrew(old(mds.Now()), mds.Now(), m)
      ensures AllStay(old(mds.t), mds.t) && OnlyWanted(mds.t, m)
      ensures ret == 0 ==> Carries(mds.t, ResultKeys(t0, m, p)) && PoolsetsDeclared(m)
      ensures Weathered(old(mds.Outlook()), mds.Outlook(), ret, mds.last.reply)
      ensures mds.troubles == old(mds.troubles) && PoolsetsDeclared(m) ==> ret == 0
      ensures NothingToDo(p) ==> mds.t == old(mds.t) && mds.calls == old(mds.calls)
    {
      hide Mild, Troubles, LinkedAt, PoolsetsNamed, Numbered, LevelPlanned, Wanted, WantServers, LogGrew, Carries, KeptHosts, PoolsetsDeclared,
           KeysOn, KeysOf, Distinct, Accepted, AllStay, OnlyWanted;
      ClearedIsWanted(t0, mds.t, m, p);
      PlanDeletes(t0, POOLSET, [0], p.poolsets, PoolsetKey, Wanted(m, POOLSET));
      PlanDeletes(t0, POOL, p.poolsets.kept, p.pools, PoolKey, Wanted(m, POOL));
      PlanDeletes(t0, ZONE, p.pools.kept, p.zones, ZoneKey, Wanted(m, ZONE));
      PlanDeletes(t0, SERVER, p.zones.kept, p.servers, ServerKey, Wanted(m, SERVER));
      DefaultIsKept(t0, p.poolsets.kept);
      DeclaredIffAddable(t0, m, p);
      ghost var keys, mid := KeptKeys(t0, p), mds.Now();
      ret := CreatePoolsets(keys, m);
      CreatingSpares(old(mds.Now()), mds.Now(), m);
      if ret < 0 {
        return;
      }
      keys := With(keys, POOLSET, p.poolsets.add, PoolsetKey);
      mid := mds.Now();
      ret := CreatePools(keys, m);
      LogGrewTransitive(old(mds.Now()), mid, mds.Now(), m);
      CreatingSpares(old(mds.Now()), mds.Now(), m);
      if ret < 0 {
        return;
      }
      keys := With(keys, POOL, p.pools.add, PoolKey);
      mid := mds.Now();
      ret := CreateZones(keys, m);
      LogGrewTransitive(old(mds.Now()), mid, mds.Now(), m);
      CreatingSpares(old(mds.Now()), mds.Now(), m);
      if ret < 0 {
        return;
      }
      keys := With(keys, ZONE, p.zones.add, ZoneKey);
      mid := mds.Now();
      ret := CreateServers(keys, KeptHosts(t0, p), m);
      LogGrewTransitive(old(mds.Now()), mid, mds.Now(), m);
      CreatingSpares(old(mds.Now()), mds.Now(), m);
      assert With(keys, SERVER, Accepted(KeptHosts(t0, p), p.servers.add), ServerKey) == ResultKeys(t0, m, p);
    }

    /** What follows the scan: the Clear steps and the Create steps. */
    method CarryOut(ghost t0: Topology, ghost m: ClusterMap, ghost p: Plan) returns (ret: int)
      requires WellFormed(t0) && mds.t == t0 && Planned(t0, m, p) && DelsOf(p) == DelsOf(PlanFor(t0, m))
      requires DEFAULT_POOLSET_ID !in poolsetToDel && (Holds(p) || Doomed(t0, ToDel())) && Justly(t0, p, ToDel())
      modifies mds
      ensures WellFormed(mds.t) && ret <= 0
      ensures ret < 0 ==> ret == Verdict(mds.last)
      ensures Scheduled(ToDel()) ==> mds.t == t0 || Spent(mds.t, ToDel())
      ensures Scheduled(ToDel()) && CutShort(old(mds.fates)) ==> ret == REDIRECT_MDS && mds.calls != old(mds.calls)
      ensures Doomed(t0, ToDel()) ==> ret < 0
      ensures Spares(t0, mds.t, p) && Justly(mds.t, PlanFor(mds.t, m), ToDel())
      ensures Settles(t0, mds.t, m)
      ensures Holds(p) ==> LogGrew(old(mds.Now()), mds.Now(), m)
      ensures ret == 0 ==> Carries(mds.t, ResultKeys(t0, m, p)) && PoolsetsDeclared(m) && NoneBusy(t0, p)
      ensures Weathered(old(mds.Outlook()), mds.Outlook(), ret, mds.last.reply)
      ensures Holds(p) && mds.troubles == old(mds.troubles) && PoolsetsDeclared(m) && NoneBusy(t0, p) ==> ret == 0
      ensures Holds(p) && NothingToDo(p) ==> mds.t == t0 && mds.calls == old(mds.calls)
    {
      hide Mild, Troubles, LinkedAt, PoolsetsNamed, Numbered, LogGrew, Carries, Cleared, NoneBusy, PoolsetsDeclared, NothingToDo, Planned, Shrinks,
           Scheduled, Spent, AllChildless, Verdict, KeptHosts, ResultKeys, Thinned, Settles, OnlyWanted, CutShort, Doomed, PlanFor,
           Spares, AllStay, Justly;
      ret := ClearAll(t0, m, p);
      AfterThinning(t0, mds.t, m, p, ToDel());
      if ret < 0 {
        return;
      }
      AfterClearing(t0, mds.t, m, p);
      ghost var mid := mds.Now();
      ret := CreateAll(t0, m, p);
      SparesOn(t0, mid.t, mds.t, p);
      LogGrewTransitive(old(mds.Now()), mid, mds.Now(), m);
      LogLeads(mid, mds.Now(), m);
      DeletedForGood(t0, mid.t, mds.calls[|mid.calls|..], mds.t, m, p);
      JustWhenGone(mds.t, p, PlanFor(mds.t, m));
      SettlesWhileCreating(t0, mds.t, m);
    }

    // ------------------------------------------------------------ one object, many runs

    /** The object is new, or runs for the map have left it behind. */
    ghost predicate LeftBehind(m: ClusterMap)
      reads this, mds
    {
      LeftOver(mds.t, Read(), ToAdd(), ToDel(), m)
    }

    /** What the next run will find to do. */
    ghost function NextPlan(m: ClusterMap): Plan
      requires mds.t.HasShape()
      reads this, mds
    {
      PlanOf(mds.t, NextWants(ToAdd(), ReadOnce(Read(), m)))
    }

    /** One run of the tool for the given cluster map, by a new tool object or by one that earlier
        runs for the map have left behind.
        From any well-formed topology, whatever names it repeats, and whatever the network does,
        the tree stays well formed, and a node that the map's plan does not delete is left alone. A run that starts with something listed for deletion fails and
        leaves the object so that the next run fails too; a run with nothing to delete lists
        nothing, and a run that changed anything has listed all that its plan deletes.
        For a run that starts with nothing listed for deletion:
        every call is one that the map asks for, finds the tree where the last call left it, and
        is refused for none but substantive reasons; a run that returns 0 leaves what the map
        asks for, exactly and once, provided that no address was taken; without network or
        storage trouble the run returns 0 exactly when poolsets are declared and no deleted
        server has live chunkservers; and on a topology that is already right the run
        changes nothing. */
    method HandleBuildCluster(m: ClusterMap) returns (ret: int)
      requires WellFormed(mds.t) && LeftBehind(m)
      modifies this, mds
      ensures WellFormed(mds.t) && LeftBehind(m) && ret <= 0
      ensures ret < 0 ==> ret == Verdict(mds.last)
      ensures old(Scheduled(ToDel())) ==> ret < 0 && Scheduled(ToDel())
      ensures !old(Scheduled(ToDel())) && mds.calls != old(mds.calls) ==> ToDel() == DelsOf(old(NextPlan(m)))
      ensures !old(Scheduled(ToDel())) && Quiet(old(mds.fates), ScanCost(old(NextPlan(m)))) ==> ToDel() == DelsOf(old(NextPlan(m)))
      ensures !old(Scheduled(ToDel())) && !Scheduled(DelsOf(old(NextPlan(m)))) ==> !Scheduled(ToDel())
      ensures Spares(old(mds.t), mds.t, PlanFor(old(mds.t), m))
      ensures !old(Scheduled(ToDel())) && Scheduled(DelsOf(old(NextPlan(m)))) && CutAfterScan(old(mds.fates), old(NextPlan(m))) ==>
                ret == REDIRECT_MDS && mds.calls != old(mds.calls)
      ensures Settles(old(mds.t), mds.t, m)
      ensures !old(Scheduled(ToDel())) ==> LogGrew(old(mds.Now()), mds.Now(), m)
      ensures ret == 0 ==> Carries(mds.t, ResultKeys(old(mds.t), m, old(NextPlan(m))))
      ensures ret == 0 ==> PoolsetsLaid(mds.t, m) && PoolsLaid(mds.t, m) && ZonesLaid(mds.t, m)
      ensures ret == 0 ==>
                (Converged(mds.t, m) <==>
                 ClashFree(KeptHosts(old(mds.t), old(NextPlan(m))), old(NextPlan(m)).servers.add))
      ensures ret == 0 ==> PoolsetsDeclared(m) && NoneBusy(old(mds.t), old(NextPlan(m)))
      ensures old(mds.Calm()) && PoolsetsDeclared(m) && NoneBusy(old(mds.t), old(NextPlan(m))) ==>
                (ret == 0 <==> !old(Scheduled(ToDel())))
      ensures old(mds.Calm()) ==> mds.Calm()
      ensures Weathered(old(mds.Outlook()), mds.Outlook(), ret, mds.last.reply)
      ensures Mild(old(mds.fates)) && PoolsetsDeclared(m) && NoneBusy(old(mds.t), old(NextPlan(m))) && !old(Scheduled(ToDel())) &&
              ret < 0 ==>
                ret == REDIRECT_MDS && Troubles(mds.fates) < old(Troubles(mds.fates))
      ensures Converged(old(mds.t), m) && !old(Scheduled(ToDel())) ==> mds.t == old(mds.t) && mds.calls == old(mds.calls)
    {
      hide Mild, Troubles, LinkedAt, PoolsetsNamed, Numbered, PlanOf, Wanted, LogGrew, Carries, Cleared, ClashFree, NoneBusy, NextWants,
           PoolsetsDeclared, Converged, NothingToDo, Planned, Partial, Plans, Shrinks, Present, NoRepeats, Extends, LeftOver,
           Scheduled, Spent, Pending, UppersPresent, AllChildless, Leads, Verdict, KeptHosts, ResultKeys, Doomed, Settles, CutShort,
           Quiet, After, ScanCost, Spares, Justly, PlanFor, PoolsetsLaid, PoolsLaid, ZonesLaid;
      ghost var t0, d0, a0, p, f0 := mds.t, ToDel(), ToAdd(), NextPlan(m), mds.fates;
      LeftAfterReading(t0, Read(), a0, d0, m);
      LogGrewReflexive(mds.Now(), m);
      SettlesReflexive(t0, m);
      SparesReflexive(t0, PlanFor(t0, m));
      CalmHasNoTroubles(mds.fates);
      poolsetDatas := poolsetDatas + m.poolsets;
      serverDatas := serverDatas + m.servers;
      ret := ScanCluster(m, p);
      CalmHasNoTroubles(mds.fates);
      DownRedirects(mds.last);
      LeftAfterScan(t0, Read(), a0, d0, ToAdd(), ToDel(), m, p);
      StillListed(d0, ToDel(), p);
      if ret < 0 {
        return;
      }
      if Converged(t0, m) {
        ConvergedHasNothingToDo(t0, m, p);
      }
      ret := CarryOut(t0, m, p);
      CalmHasNoTroubles(mds.fates);
      DownRedirects(mds.last);
      LeftAfterRun(t0, mds.t, Read(), ToAdd(), ToDel(), m);
      SameSpares(t0, mds.t, p, PlanFor(t0, m));
      if ret == 0 {
        ResultIsLaid(t0, mds.t, m, p);
        ConvergedIffClashFree(t0, mds.t, m, p);
      }
    }
  }

  /** What a finished run leaves, in terms of names and parents: poolsets, pools and zones hang where the map
      says. */
  lemma ResultIsLaid(t0: Topology, t: Topology, m: ClusterMap, p: Plan)
    requires WellFormed(t) && t0.HasShape() && Carries(t, ResultKeys(t0, m, p))
    ensures PoolsetsLaid(t, m) && PoolsLaid(t, m) && ZonesLaid(t, m)
  {
    hide WellFormed, Keys, Wanted, ExactlyOnce, PoolsetsLaid, PoolsLaid, ZonesLaid, Accepted, KeysOn, KeptHosts;
    WellFormedIsRooted(t);
    var keys := ResultKeys(t0, m, p);
    assert ExactlyOnce(Keys(t, POOLSET), keys[POOLSET]) && ExactlyOnce(Keys(t, POOL), keys[POOL]) && ExactlyOnce(Keys(t, ZONE), keys[ZONE]);
    PoolsetsLaidIff(t, m);
    PoolsLaidIff(t, m);
    ZonesLaidIff(t, m);
  }

  lemma DefaultIsThere(t: Topology, t': Topology)
    requires WellFormed(t) && WellFormed(t')
    ensures DEFAULT_POOLSET_ID in t.levels[POOLSET] && DEFAULT_POOLSET_ID in t'.levels[POOLSET]
  {
    hide LinkedAt, Numbered;
  }

  /** A new tool object plans for the map itself. */
  lemma FreshTool(tool: CurvefsTools, m: ClusterMap)
    requires WellFormed(tool.mds.t) && tool.Fresh()
    ensures tool.LeftBehind(m) && !Scheduled(tool.ToDel()) && tool.NextPlan(m) == PlanFor(tool.mds.t, m)
  {
    hide LinkedAt, PoolsetsNamed, Numbered, PlanOf;
    assert [] + m.poolsets == m.poolsets && [] + m.servers == m.servers;
  }

  lemma NoneListed(t: Topology, k: Kind, parents: seq<nat>, fates: seq<Fate>)
    requires t.HasShape()
    ensures InfosAt(t, k, ListUnder(t.levels[k - 1], parents[..0])) == [] && After(fates, 0) == fates
  {
  }

  lemma OneMoreListed(t: Topology, k: Kind, parents: seq<nat>, n: nat)
    requires t.HasShape() && n < |parents| && parents[n] in t.levels[k - 1]
    ensures InfosAt(t, k, ListUnder(t.levels[k - 1], parents[..n + 1])) ==
            InfosAt(t, k, ListUnder(t.levels[k - 1], parents[..n])) + InfosAt(t, k, t.levels[k - 1][parents[n]].children)
  {
    hide KeyAt;
    assert parents[..n + 1][..n] == parents[..n];
  }

  lemma IdsOfInfos(t: Topology, k: Kind, ids: seq<nat>)
    requires t.HasShape()
    ensures Ids(InfosAt(t, k, ids)) == ids
  {
  }
}
