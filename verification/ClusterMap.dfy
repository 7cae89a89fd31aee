/** The cluster map: the poolsets and servers that an operator configures, and the
    topology that it stands for. */
module ClusterMap {
  import opened ListDiff
  import opened Topology

  datatype PoolsetData = PoolsetData(name: string, kind: string)
  datatype PoolData = PoolData(physicalPoolName: string, poolsetName: string)
  datatype ZoneData = ZoneData(zoneName: string, physicalPoolName: string)
  datatype ServerData = ServerData(
    serverName: string, host: Host, zoneName: string, physicalPoolName: string, poolsetName: string)

  datatype ClusterMap = ClusterMap(poolsets: seq<PoolsetData>, servers: seq<ServerData>)

  function PoolsetKey(d: PoolsetData): Key { [d.name] }
  function PoolKey(d: PoolData): Key { [d.physicalPoolName, d.poolsetName] }
  function ZoneKey(d: ZoneData): Key { [d.zoneName, d.physicalPoolName] }
  function ServerKey(d: ServerData): Key { [d.serverName, d.zoneName, d.physicalPoolName] }

  /** Pools are told apart by their own name alone, servers by their host name alone. */
  function PoolName(d: PoolData): Key { [d.physicalPoolName] }
  function ServerName(d: ServerData): Key { [d.serverName] }

  /** The pool and the zone that a server entry asks for. */
  function PoolOf(d: ServerData): PoolData {
    PoolData(d.physicalPoolName, if d.poolsetName == "" then DEFAULT_POOLSET_NAME else d.poolsetName)
  }

  function ZoneOf(d: ServerData): ZoneData {
    ZoneData(d.zoneName, d.physicalPoolName)
  }

  function Pools(servers: seq<ServerData>): (r: seq<PoolData>)
    ensures |r| == |servers| && forall i | 0 <= i < |r| :: r[i] == PoolOf(servers[i])
  {
    seq(|servers|, i requires 0 <= i < |servers| => PoolOf(servers[i]))
  }

  function Zones(servers: seq<ServerData>): (r: seq<ZoneData>)
    ensures |r| == |servers| && forall i | 0 <= i < |r| :: r[i] == ZoneOf(servers[i])
  {
    seq(|servers|, i requires 0 <= i < |servers| => ZoneOf(servers[i]))
  }

  // ---------------------------------------------------------------- what the map stands for

  /** The first server entry that names a pool decides its poolset. */
  ghost predicate NamesPoolFirst(m: ClusterMap, i: nat) {
    i < |m.servers| && forall j | 0 <= j < i :: m.servers[j].physicalPoolName != m.servers[i].physicalPoolName
  }

  /** A later server entry with the same host name is ignored. */
  ghost predicate NamesServerFirst(m: ClusterMap, i: nat) {
    i < |m.servers| && forall j | 0 <= j < i :: m.servers[j].serverName != m.servers[i].serverName
  }

  /** The keys that a cluster map asks for on each level. */
  ghost function Wanted(m: ClusterMap, k: Kind): set<Key> {
    if k == POOLSET then
      {[DEFAULT_POOLSET_NAME]} + set i | 0 <= i < |m.poolsets| :: [m.poolsets[i].name]
    else if k == POOL then
      set i: nat | i < |m.servers| && NamesPoolFirst(m, i) :: PoolKey(PoolOf(m.servers[i]))
    else if k == ZONE then
      set i | 0 <= i < |m.servers| :: ZoneKey(ZoneOf(m.servers[i]))
    else
      set i: nat | i < |m.servers| && NamesServerFirst(m, i) :: ServerKey(m.servers[i])
  }

  /** Every wanted key is carried by exactly one node and there are no other nodes. */
  ghost predicate ExactlyOnce(keys: map<nat, Key>, wanted: set<Key>) {
    Injective(keys) && keys.Values == wanted
  }

  /** The topology is what the cluster map asks for. */
  ghost predicate Converged(t: Topology, m: ClusterMap)
    requires t.HasShape()
  {
    forall k: Kind :: ExactlyOnce(Keys(t, k), Wanted(m, k))
  }

  /** Every wanted pool sits in a declared poolset or in the default one. */
  ghost predicate PoolsetsDeclared(m: ClusterMap) {
    forall i: nat | NamesPoolFirst(m, i) :: [PoolOf(m.servers[i]).poolsetName] in Wanted(m, POOLSET)
  }

  /** Distinct wanted pools have distinct names. */
  lemma WantedPoolNamesDiffer(m: ClusterMap, a: Key, b: Key)
    requires a in Wanted(m, POOL) && b in Wanted(m, POOL) && a[0] == b[0]
    ensures a == b
  {
    var i: nat :| i < |m.servers| && NamesPoolFirst(m, i) && PoolKey(PoolOf(m.servers[i])) == a;
    var j: nat :| j < |m.servers| && NamesPoolFirst(m, j) && PoolKey(PoolOf(m.servers[j])) == b;
    assert !(i < j) && !(j < i);
  }

  /** Every wanted zone lies in a wanted pool. */
  lemma WantedZoneHasPool(m: ClusterMap, z: Key)
    requires z in Wanted(m, ZONE)
    ensures |z| == 2 && exists p :: p in Wanted(m, POOL) && |p| == 2 && p[0] == z[1]
  {
    var i :| 0 <= i < |m.servers| && ZoneKey(ZoneOf(m.servers[i])) == z;
    var f := FirstWithPool(m, i);
    assert PoolKey(PoolOf(m.servers[f])) in Wanted(m, POOL);
  }

  lemma {:induction false} FirstWithPool(m: ClusterMap, i: nat) returns (f: nat)
    requires i < |m.servers|
    ensures NamesPoolFirst(m, f) && m.servers[f].physicalPoolName == m.servers[i].physicalPoolName
  {
    if NamesPoolFirst(m, i) {
      f := i;
    } else {
      var j :| 0 <= j < i && m.servers[j].physicalPoolName == m.servers[i].physicalPoolName;
      f := FirstWithPool(m, j);
    }
  }

  /** Every wanted server lies in a wanted zone. */
  lemma WantedServerHasZone(m: ClusterMap, s: Key)
    requires s in Wanted(m, SERVER)
    ensures |s| == 3 && [s[1], s[2]] in Wanted(m, ZONE)
  {
    var i: nat :| i < |m.servers| && NamesServerFirst(m, i) && ServerKey(m.servers[i]) == s;
    assert ZoneKey(ZoneOf(m.servers[i])) in Wanted(m, ZONE);
  }
}
