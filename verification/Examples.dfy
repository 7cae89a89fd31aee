/** Inputs on which the build-cluster tool does not do what one would expect. */
module ClusterExamples {
  import opened ListDiff
  import opened Topology
  import opened ClusterMap
  import opened MdsService
  import opened ScanPlan
  import opened Execution
  import opened Leftover
  import opened Stability
  import opened CurvefsTool
  import opened ClusterRuns
  import opened Layout

  // ---------------------------------------------------------------- a retry that cannot succeed

  /** The default poolset with one pool that nobody asked for. */
  function SparePool(): Topology {
    var root := map[0 := Node("", 0, [1])];
    var poolsets := map[1 := Node(DEFAULT_POOLSET_NAME, 0, [1])];
    var pools := map[1 := Node("spare", 1, [])];
    Topology([root, poolsets, pools, map[], map[]], map[], [0, 1, 1, 0, 0])
  }

  lemma OnlyChild(ps: Level, ks: Level, p: nat, c: nat)
    requires ps.Keys == {p} && ks.Keys == {c} && ps[p].children == [c] && ks[c].parent == p
    ensures Linked(ps, ks)
  {
    assert forall x | x in ps :: x in ps.Keys;
    assert forall x | x in ks :: x in ks.Keys;
  }

  lemma NoChildren(ps: Level, ks: Level)
    requires ks == map[] && forall x | x in ps.Keys :: ps[x].children == []
    ensures Linked(ps, ks)
  {
    assert forall x | x in ps :: x in ps.Keys;
  }

  lemma SparePoolLevels(t: Topology)
    requires t == SparePool()
    ensures t.HasShape() && t.levels[0].Keys == {0} && t.levels[1].Keys == {1} && t.levels[2].Keys == {1}
    ensures t.levels[3] == map[] && t.levels[4] == map[] && t.hosts == map[] && t.lastIds == [0, 1, 1, 0, 0]
    ensures t.levels[0][0].children == [1] && t.levels[1][1] == Node(DEFAULT_POOLSET_NAME, 0, [1])
    ensures t.levels[2][1] == Node("spare", 1, [])
  {
  }

  lemma SparePoolIsWellFormed(t: Topology)
    requires t == SparePool()
    ensures WellFormed(t)
  {
    hide Linked, PoolsetsNamed, Numbered, SparePool;
    SparePoolLevels(t);
    assert LinkedAt(t, POOLSET) by {
      OnlyChild(t.levels[0], t.levels[1], 0, 1);
    }
    assert LinkedAt(t, POOL) by {
      OnlyChild(t.levels[1], t.levels[2], 1, 1);
    }
    assert LinkedAt(t, ZONE) by {
      NoChildren(t.levels[2], t.levels[3]);
    }
    assert LinkedAt(t, SERVER) by {
      NoChildren(t.levels[3], t.levels[4]);
    }
    assert Numbered(t) by {
      FewNumbers(t);
    }
    OnlyDefault(t.levels[1]);
  }

  lemma OnlyDefault(l: Level)
    requires l.Keys == {DEFAULT_POOLSET_ID} && l[DEFAULT_POOLSET_ID].name == DEFAULT_POOLSET_NAME
    ensures PoolsetsNamed(l)
  {
    assert forall x | x in l :: x in l.Keys;
  }

  lemma FewNumbers(t: Topology)
    requires t.HasShape() && t.lastIds == [0, 1, 1, 0, 0]
    requires t.levels[1].Keys == {1} && t.levels[2].Keys == {1} && t.levels[3].Keys == {} && t.levels[4].Keys == {}
    ensures Numbered(t)
  {
    forall k: Kind, x | x in t.levels[k].Keys ensures x <= t.lastIds[k] {
      assert k == POOLSET || k == POOL || k == ZONE || k == SERVER;
    }
  }

  lemma OneId(ids: seq<nat>, x: nat)
    requires NoDup(ids) && x in ids && forall y | y in ids :: y == x
    ensures |ids| == 1
  {
    if |ids| > 1 {
      TwoIds(ids);
    }
  }

  lemma TwoIds(ids: seq<nat>)
    requires NoDup(ids) && |ids| > 1
    ensures exists x, y :: x in ids && y in ids && x != y
  {
    assert ids[0] in ids && ids[1] in ids;
  }

  lemma NoId(ids: seq<nat>)
    requires forall x :: x !in ids
    ensures ids == []
  {
    if ids != [] {
      NonEmptyHasMember(ids);
    }
  }

  lemma NoPoolWanted(m: ClusterMap)
    requires m == ClusterMap([], [])
    ensures Wanted(m, POOL) == {}
  {
  }

  /** For an empty map the pool is to be deleted, nothing speaks against it, and the scan takes three RPCs. */
  lemma SparePoolGoes(t: Topology, m: ClusterMap, p: Plan)
    requires t == SparePool() && m == ClusterMap([], []) && t.HasShape() && Planned(t, m, p)
    ensures Scheduled(DelsOf(p)) && NoneBusy(t, p) && ScanCost(p) == 3
  {
    hide KeyAt, InjectiveOn, Distinct, SparePool, Wanted;
    SparePoolLevels(t);
    assert forall x | x in p.pools.kept :: KeyAt(t, POOL, x) in KeysOn(t, POOL, p.pools.kept);
    assert KeysOn(t, POOL, p.pools.kept) <= Wanted(m, POOL);
    NoPoolWanted(m);
    NoId(p.pools.kept);
    assert 1 in t.levels[POOL].Keys && 1 in p.pools.del;
    assert forall x | x in p.pools.del :: x in t.levels[POOL].Keys;
    OneId(p.pools.del, 1);
    assert forall x | x in p.poolsets.kept || x in p.poolsets.del :: x in t.levels[POOLSET].Keys;
    OneId(p.poolsets.kept, 1);
    NoId(p.poolsets.del);
    NoId(p.zones.kept);
    NoId(p.zones.del);
  }

  lemma SparePoolIsDeleted()
    ensures var m := ClusterMap([], []);
            && WellFormed(SparePool()) && PoolsetsDeclared(m)
            && Scheduled(DelsOf(PlanFor(SparePool(), m))) && NoneBusy(SparePool(), PlanFor(SparePool(), m))
            && ScanCost(PlanFor(SparePool(), m)) == 3
  {
    hide PlanOf, WellFormed, ScanCost;
    var t, m := SparePool(), ClusterMap([], []);
    SparePoolIsWellFormed(t);
    MapAsks(m);
    PlanIsRight(t, WantsOf(m), m);
    SparePoolGoes(t, m, PlanFor(t, m));
  }

  /** The MDS goes down after it has deleted the pool and before it answers. The first attempt is
      redirected, and the second one fails although nothing goes wrong any more. */
  method RetryIsStuck(mds: Mds) returns (first: int, second: int, ghost mid: Moment)
    requires mds.t == SparePool() && mds.fates == [Delivered, Delivered, Delivered, ReplyLost(true)]
    modifies mds
    ensures LogGrew(old(mds.Now()), mid, ClusterMap([], [])) && mid.calls != old(mds.calls)
    ensures first == REDIRECT_MDS && second < 0 && second == Verdict(mds.last)
  {
    hide PlanFor, WellFormed, Scheduled, PoolsetsDeclared, NoneBusy, SparePool, LogGrew, Verdict, Spares;
    SparePoolIsDeleted();
    SparePoolLevels(SparePool());
    assert CutAfterScan(mds.fates, PlanFor(SparePool(), ClusterMap([], [])));
    first, second, mid := SecondAttempt(mds, ClusterMap([], []), []);
  }

  // ---------------------------------------------------------------- a run that succeeds and does not converge

  /** Two servers that share their addresses. */
  const SHARED := Host("10.0.0.1", 8200, "10.0.0.1", 8200)

  function Twins(): ClusterMap {
    ClusterMap([], [ServerData("s1", SHARED, "z", "p", ""), ServerData("s2", SHARED, "z", "p", "")])
  }

  lemma TwinsAreWanted()
    ensures ["s1", "z", "p"] in Wanted(Twins(), SERVER) && ["s2", "z", "p"] in Wanted(Twins(), SERVER)
    ensures PoolsetsDeclared(Twins())
  {
    var m := Twins();
    assert NamesServerFirst(m, 0) && ServerKey(m.servers[0]) == ["s1", "z", "p"];
    assert NamesServerFirst(m, 1) && ServerKey(m.servers[1]) == ["s2", "z", "p"];
  }

  lemma TwinsShare(e: ServerData)
    requires e in WantServers(Twins())
    ensures e.host == SHARED
  {
    var m := Twins();
    DedupKeepsFirsts(m.servers, ServerName);
    assert e in Firsts(m.servers, ServerName);
  }

  lemma TwinsClash(t: Topology, p: Plan)
    requires t.HasShape() && t.levels[SERVER] == map[] && Planned(t, Twins(), p)
    ensures NoneBusy(t, p) && !ClashFree(KeptHosts(t, p), p.servers.add)
  {
    hide Wanted, WantServers, InjectiveOn, Twins, KeyAt, NoDup;
    TwinsAreWanted();
    NoId(p.servers.kept);
    var add := p.servers.add;
    assert KeysOn(t, SERVER, p.servers.kept) == {};
    assert KeysOf(add, ServerKey) == Wanted(Twins(), SERVER);
    var i :| 0 <= i < |add| && ServerKey(add[i]) == ["s1", "z", "p"];
    var j :| 0 <= j < |add| && ServerKey(add[j]) == ["s2", "z", "p"];
    assert ServerKey(add[i])[0] != ServerKey(add[j])[0];
    assert add[i] in add && add[j] in add;
    TwinsShare(add[i]);
    TwinsShare(add[j]);
    assert Clashes(SHARED, SHARED);
  }

  /** The default poolset alone. */
  function Bare(): Topology {
    Removed(SparePool(), POOL, 1)
  }

  lemma BareIsWellFormed()
    ensures WellFormed(Bare()) && Bare().HasShape() && Bare().levels[SERVER] == map[]
  {
    hide WellFormed;
    SparePoolIsWellFormed(SparePool());
    SparePoolLevels(SparePool());
    RemovedIsWellFormed(SparePool(), POOL, 1);
  }

  lemma TwinsPlan(t: Topology, m: ClusterMap)
    requires WellFormed(t) && t.HasShape() && t.levels[SERVER] == map[] && m == Twins()
    ensures PoolsetsDeclared(m) && NoneBusy(t, PlanFor(t, m))
    ensures !ClashFree(KeptHosts(t, PlanFor(t, m)), PlanFor(t, m).servers.add)
  {
    hide WellFormed, PlanOf, Planned, Twins, ClashFree, NoneBusy;
    TwinsAreWanted();
    MapAsks(m);
    PlanIsRight(t, WantsOf(m), m);
    TwinsClash(t, PlanFor(t, m));
  }

  /** The run returns 0, and one of the two servers is missing. */
  method AddressIsTaken(mds: Mds) returns (ret: int)
    requires mds.t == Bare() && mds.fates == []
    modifies mds
    ensures LogGrew(old(mds.Now()), mds.Now(), Twins())
    ensures ret == 0 && PoolsetsDeclared(Twins()) && !Converged(mds.t, Twins())
  {
    hide PlanFor, WellFormed, PoolsetsDeclared, NoneBusy, Bare, Twins, ClashFree, KeptHosts, Converged, Roomy, LogGrew, Spares, Settles;
    BareIsWellFormed();
    TwinsPlan(mds.t, Twins());
    ret := FreshRun(mds, Twins());
  }

  // ---------------------------------------------------------------- runs that converge

  /** With nothing but the default poolset there, nothing is in the way of servers that do not clash. */
  lemma BareIsRoomy(m: ClusterMap)
    requires forall a, b | a in m.servers && b in m.servers && Clashes(a.host, b.host) :: a.serverName == b.serverName
    ensures Bare().HasShape() && Roomy(Bare(), m)
  {
    hide WellFormed, Clashes, WantServers, Keys;
    BareIsWellFormed();
    forall e | e in WantServers(m) ensures e in m.servers {
      WantedIsEntry(m, e);
    }
    forall a, b | a in WantServers(m) && b in WantServers(m) && Clashes(a.host, b.host) ensures ServerKey(a) == ServerKey(b) {
      WantedOnce(m, a, b);
    }
  }

  lemma WantedIsEntry(m: ClusterMap, e: ServerData)
    requires e in WantServers(m)
    ensures e in m.servers
  {
    DedupKeepsFirsts(m.servers, ServerName);
    assert e in Firsts(m.servers, ServerName);
  }

  lemma WantedOnce(m: ClusterMap, a: ServerData, b: ServerData)
    requires a in WantServers(m) && b in WantServers(m) && a.serverName == b.serverName
    ensures a == b
  {
    hide Dedup;
    DedupSpec([], m.servers, ServerName);
    var i :| 0 <= i < |WantServers(m)| && WantServers(m)[i] == a;
    var j :| 0 <= j < |WantServers(m)| && WantServers(m)[j] == b;
  }

  lemma BareIsIdle(m: ClusterMap)
    ensures WellFormed(Bare()) && NoneBusy(Bare(), PlanFor(Bare(), m))
  {
    hide WellFormed, PlanOf, Bare;
    BareIsWellFormed();
    MapAsks(m);
    PlanIsRight(Bare(), WantsOf(m), m);
    NobodyIsBusy(Bare(), m, PlanFor(Bare(), m));
  }

  lemma NobodyIsBusy(t: Topology, m: ClusterMap, p: Plan)
    requires t.HasShape() && t.levels[SERVER] == map[] && Planned(t, m, p)
    ensures NoneBusy(t, p)
  {
    hide Wanted, InjectiveOn, KeyAt, NoDup;
    assert forall x | x in p.servers.del :: x in t.levels[SERVER];
  }

  /** Three servers on one ip with a port each. */
  function OnPort(server: string, zone: string, port: nat): ServerData {
    ServerData(server, Host("127.0.0.1", port, "127.0.0.1", port), zone, "pool1", "default")
  }

  function ThreePorts(): ClusterMap {
    ClusterMap([], [OnPort("server1", "zone1", 10004), OnPort("server2", "zone2", 10005), OnPort("server3", "zone3", 10006)])
  }

  lemma OtherPort(a: ServerData, b: ServerData, server: string, zone: string, port: nat, server': string, zone': string, port': nat)
    requires a == OnPort(server, zone, port) && b == OnPort(server', zone', port') && port != port' && port != 0
    ensures !Clashes(a.host, b.host)
  {
    hide Clashes;
    ClashByAddress(a.host, b.host);
  }

  lemma PortsDiffer()
    ensures PoolsetsDeclared(ThreePorts()) && ClashFree({}, ThreePorts().servers)
    ensures forall a, b | a in ThreePorts().servers && b in ThreePorts().servers && Clashes(a.host, b.host) :: a.serverName == b.serverName
  {
    hide Clashes, OnPort, PoolsetsDeclared;
    ThreeAreDeclared();
    var a, b, c := OnPort("server1", "zone1", 10004), OnPort("server2", "zone2", 10005), OnPort("server3", "zone3", 10006);
    assert ThreePorts().servers == [a, b, c];
    OtherPort(a, b, "server1", "zone1", 10004, "server2", "zone2", 10005);
    OtherPort(a, c, "server1", "zone1", 10004, "server3", "zone3", 10006);
    OtherPort(b, a, "server2", "zone2", 10005, "server1", "zone1", 10004);
    OtherPort(b, c, "server2", "zone2", 10005, "server3", "zone3", 10006);
    OtherPort(c, a, "server3", "zone3", 10006, "server1", "zone1", 10004);
    OtherPort(c, b, "server3", "zone3", 10006, "server2", "zone2", 10005);
  }

  lemma ThreeAreDeclared()
    ensures PoolsetsDeclared(ThreePorts())
  {
    DeclaredByFields(ThreePorts());
  }

  /** In peace the three servers all get registered, each in its zone. */
  method PortsFit(mds: Mds) returns (ret: int)
    requires mds.t == Bare() && mds.fates == []
    modifies mds
    ensures LogGrew(old(mds.Now()), mds.Now(), ThreePorts()) && WellFormed(mds.t)
    ensures ret == 0 && Converged(mds.t, ThreePorts())
    ensures exists x :: ServerAt(mds.t, x, "server1", "zone1", "pool1")
    ensures exists x :: ServerAt(mds.t, x, "server2", "zone2", "pool1")
    ensures exists x :: ServerAt(mds.t, x, "server3", "zone3", "pool1")
  {
    hide PlanFor, WellFormed, PoolsetsDeclared, NoneBusy, Bare, ThreePorts, ClashFree, KeptHosts, Converged, Roomy, LogGrew, Spares, Settles,
         PoolsetsLaid, PoolsLaid, ZonesLaid;
    PortsDiffer();
    BareIsRoomy(ThreePorts());
    BareIsIdle(ThreePorts());
    ret := FreshRun(mds, ThreePorts());
    ThreeAreThere(mds.t);
  }

  lemma ThreeAreThere(t: Topology)
    requires WellFormed(t) && t.HasShape() && Converged(t, ThreePorts())
    ensures exists x :: ServerAt(t, x, "server1", "zone1", "pool1")
    ensures exists x :: ServerAt(t, x, "server2", "zone2", "pool1")
    ensures exists x :: ServerAt(t, x, "server3", "zone3", "pool1")
  {
    hide WellFormed, Converged, ServerAt, PoolsetsLaid, PoolsLaid, ZonesLaid;
    var m := ThreePorts();
    ConvergedMeans(t, m);
    assert NamesServerFirst(m, 0) && NamesServerFirst(m, 1) && NamesServerFirst(m, 2);
    assert ServerServed(t, m, 0) && ServerServed(t, m, 1) && ServerServed(t, m, 2);
  }

  /** A pool in a poolset of its own. */
  function OnSsd(): ClusterMap {
    ClusterMap([PoolsetData("SSD_1", "SSD")],
               [ServerData("server1", Host("192.168.200.41", 0, "192.168.200.41", 0), "zone1", "pool1", "SSD_1"),
                ServerData("server2", Host("192.168.200.42", 0, "192.168.200.42", 0), "zone2", "pool1", "SSD_1")])
  }

  lemma SsdIsDeclared()
    ensures PoolsetsDeclared(OnSsd())
    ensures forall a, b | a in OnSsd().servers && b in OnSsd().servers && Clashes(a.host, b.host) :: a.serverName == b.serverName
  {
    var m := OnSsd();
    DeclaredByFields(m);
    assert m.poolsets[0].name == "SSD_1";
    forall a, b | a in m.servers && b in m.servers && Clashes(a.host, b.host) ensures a.serverName == b.serverName {
      ClashByAddress(a.host, b.host);
      assert "192.168.200.41"[13] != "192.168.200.42"[13];
    }
  }

  /** In peace the pool is created in its poolset. */
  method PoolGoesToItsPoolset(mds: Mds) returns (ret: int)
    requires mds.t == Bare() && mds.fates == []
    modifies mds
    ensures LogGrew(old(mds.Now()), mds.Now(), OnSsd()) && WellFormed(mds.t)
    ensures ret == 0 && Converged(mds.t, OnSsd())
    ensures exists x :: PoolAt(mds.t, x, "pool1", "SSD_1")
    ensures !exists x :: PoolAt(mds.t, x, "pool1", "default")
  {
    hide PlanFor, WellFormed, PoolsetsDeclared, NoneBusy, Bare, OnSsd, ClashFree, KeptHosts, Converged, Roomy, LogGrew, Spares, Settles,
         PoolsetsLaid, PoolsLaid, ZonesLaid;
    SsdIsDeclared();
    BareIsRoomy(OnSsd());
    BareIsIdle(OnSsd());
    ret := FreshRun(mds, OnSsd());
    PoolIsOnSsd(mds.t);
  }

  lemma PoolIsOnSsd(t: Topology)
    requires t.HasShape() && PoolsLaid(t, OnSsd())
    ensures exists x :: PoolAt(t, x, "pool1", "SSD_1")
    ensures !exists x :: PoolAt(t, x, "pool1", "default")
  {
    var m := OnSsd();
    assert NamesPoolFirst(m, 0);
    assert PoolServed(t, m, 0);
    var x :| PoolServes(t, m, x, 0);
    assert PoolAt(t, x, "pool1", "SSD_1");
    forall y ensures !PoolAt(t, y, "pool1", "default") {
      assert "SSD_1"[0] != "default"[0];
    }
  }
}
