/** The topology RPCs of the MDS that the build-cluster tool uses. A call may be lost on
    the way, may lose its reply after it took effect, or may fail in storage. */
module MdsService {
  import opened Basics
  import opened ListDiff
  import opened Topology
  import opened ClusterMap

  const SUCCESS := 0
  const STORAGE_FAIL := -4
  const SERVER_NOT_FOUND := -7
  const ZONE_NOT_FOUND := -8
  const PHYSICAL_POOL_NOT_FOUND := -9
  const CANNOT_REMOVE_WHEN_NOT_EMPTY := -14
  const IP_PORT_DUPLICATED := -15
  const NAME_DUPLICATED := -16
  const POOLSET_NOT_FOUND := -20
  const CANNOT_DELETE_DEFAULT_POOLSET := -21

  /** What happens to one RPC; down tells a dead host from other transport failures. */
  datatype Fate = Delivered | RequestLost(down: bool) | ReplyLost(down: bool) | StorageFails

  /** The fate of the RPC after the next n, and what is in store after n RPCs. */
  function FateAt(fates: seq<Fate>, n: nat): Fate {
    if n < |fates| then fates[n] else Delivered
  }

  function After(fates: seq<Fate>, n: nat): seq<Fate> {
    if n <= |fates| then fates[n..] else []
  }

  /** The next n RPCs go well. */
  ghost predicate Quiet(fates: seq<Fate>, n: nat) {
    forall i | 0 <= i < n :: FateAt(fates, i).Delivered?
  }

  /** Nothing worse happens than that an MDS goes down. */
  ghost predicate Mild(fates: seq<Fate>) {
    forall f | f in fates :: f == Delivered || f == RequestLost(true) || f == ReplyLost(true)
  }

  /** How many RPCs will not go well. */
  ghost function Troubles(fates: seq<Fate>): nat {
    if fates == [] then 0 else (if fates[0].Delivered? then 0 else 1) + Troubles(fates[1..])
  }

  /** How many RPCs did not go well, and what is in store. */
  datatype Weather = Weather(troubles: nat, fates: seq<Fate>)

  /** From a to b troubles have come true one by one, and none is forgotten. If nothing worse happens than
      that an MDS goes down, then whoever got through met no trouble, and whoever met one got
      no reply from it. */
  ghost predicate Weathered(a: Weather, b: Weather, ret: int, reply: Reply) {
    && a.troubles <= b.troubles && a.troubles + Troubles(a.fates) == b.troubles + Troubles(b.fates)
    && (Mild(a.fates) ==>
          Mild(b.fates) && (a.troubles == b.troubles || (ret != 0 && reply == NoReply(true))))
  }

  lemma {:induction false} CalmHasNoTroubles(fates: seq<Fate>)
    ensures (forall f | f in fates :: f.Delivered?) <==> Troubles(fates) == 0
    ensures (forall f | f in fates :: f.Delivered?) ==> Mild(fates)
  {
    if fates != [] {
      CalmHasNoTroubles(fates[1..]);
      assert fates == [fates[0]] + fates[1..];
      assert fates[0] in fates;
    }
  }

  lemma AfterAll(fates: seq<Fate>, a: nat, b: nat)
    ensures After(After(fates, a), b) == After(fates, a + b)
    ensures FateAt(After(fates, a), b) == FateAt(fates, a + b)
    ensures Quiet(fates, a + b) ==> Quiet(fates, a) && Quiet(After(fates, a), b)
  {
    assert forall i | 0 <= i < b :: FateAt(After(fates, a), i) == FateAt(fates, a + i);
  }

  /** A step that is sure to succeed if the network lets it takes n RPCs from a to b. */
  ghost predicate Took(a: Weather, b: Weather, ret: int, reply: Reply, n: nat, sure: bool) {
    && Weathered(a, b, ret, reply)
    && (sure && ret == 0 ==> b.fates == After(a.fates, n))
    && (sure && (Quiet(a.fates, n) || a.troubles == b.troubles) ==> ret == 0)
  }

  lemma TookOn(a: Weather, b: Weather, c: Weather, ret: int, reply: Reply, reply': Reply, n: nat, sure: bool, n': nat, sure': bool,
               all: nat, both: bool)
    requires Took(a, b, 0, reply, n, sure) && Took(b, c, ret, reply', n', sure')
    requires both ==> sure && sure' && all == n + n'
    ensures Took(a, c, ret, reply', all, both)
    ensures ret == 0 && sure && sure' ==> c.fates == After(a.fates, n + n')
  {
    hide Mild, Troubles, Quiet, After, FateAt;
    AfterAll(a.fates, n, n');
  }

  lemma TookShort(a: Weather, b: Weather, ret: int, reply: Reply, n: nat, sure: bool, all: nat, both: bool)
    requires Took(a, b, ret, reply, n, sure) && ret != 0 && (both ==> sure && n <= all)
    ensures Took(a, b, ret, reply, all, both)
  {
    hide Mild, Troubles, FateAt;
  }

  datatype Reply = NoReply(down: bool) | Status(code: int)

  datatype Op =
    | Delete(kind: Kind, id: nat)
    | CreatePoolset(poolset: PoolsetData)
    | CreatePhysicalPool(pool: PoolData)
    | CreateZone(zone: ZoneData)
    | RegistServer(server: ServerData)

  datatype Rpc = Listing(kind: Kind) | Mutating(op: Op)

  /** An RPC and what the client saw of its outcome. */
  datatype Exchange = Exchange(rpc: Rpc, reply: Reply)

  /** A mutating call that reached the MDS. */
  datatype Call = Call(op: Op, code: int, before: Topology, after: Topology)

  /** The state of the MDS and the calls that led there. */
  datatype Moment = Moment(t: Topology, calls: seq<Call>)

  function NotFound(k: nat): int {
    if k == POOLSET then POOLSET_NOT_FOUND
    else if k == POOL then PHYSICAL_POOL_NOT_FOUND
    else if k == ZONE then ZONE_NOT_FOUND
    else SERVER_NOT_FOUND
  }

  /** The status codes of refusals are told apart by the client. */
  lemma RefusalsDiffer()
    ensures NotFound(POOLSET) == -20 && NotFound(POOL) == -9 && NotFound(ZONE) == -8 && NotFound(SERVER) == -7
    ensures multiset{STORAGE_FAIL, NotFound(POOLSET), NotFound(POOL), NotFound(ZONE), NotFound(SERVER), CANNOT_REMOVE_WHEN_NOT_EMPTY,
                     IP_PORT_DUPLICATED, NAME_DUPLICATED, CANNOT_DELETE_DEFAULT_POOLSET} ==
            multiset{-4, -20, -9, -8, -7, -14, -15, -16, -21}
    ensures SUCCESS == 0
  {
  }

  /** FindServerByHostIpPort, for one server: port 0 stands for every port, and the external
      address is looked at only if the internal address differs. */
  predicate Hit(h: Host, ip: string, port: nat) {
    if h.internalIp == ip then h.internalPort == 0 || h.internalPort == port
    else h.externalIp == ip && (h.externalPort == 0 || h.externalPort == port)
  }

  /** Server h keeps a server with addresses e from being registered. */
  predicate Clashes(h: Host, e: Host) {
    Hit(h, e.internalIp, e.internalPort) || Hit(h, e.externalIp, e.externalPort)
  }

  /** One of the two addresses of e is the given one. */
  predicate HasAddress(e: Host, ip: string, port: nat) {
    (e.internalIp == ip && e.internalPort == port) || (e.externalIp == ip && e.externalPort == port)
  }

  predicate HasIp(e: Host, ip: string) {
    e.internalIp == ip || e.externalIp == ip
  }

  /** When addresses clash: e shares an ip and port with the server that is there, or just the ip if that
      server has port 0 there, which stands for every port; and the external address of that
      server counts only if its ip is another than the internal one. So without port 0 servers
      that share no ip and port do not clash, whatever ips they share. */
  lemma ClashByAddress(h: Host, e: Host)
    ensures Clashes(h, e) <==>
            || HasAddress(e, h.internalIp, h.internalPort) || (h.internalPort == 0 && HasIp(e, h.internalIp))
            || (h.externalIp != h.internalIp &&
                (HasAddress(e, h.externalIp, h.externalPort) || (h.externalPort == 0 && HasIp(e, h.externalIp))))
    ensures h.internalPort != 0 && h.externalPort != 0 && !HasAddress(e, h.internalIp, h.internalPort) &&
            !HasAddress(e, h.externalIp, h.externalPort) ==>
              !Clashes(h, e)
    ensures !HasIp(e, h.internalIp) && !HasIp(e, h.externalIp) ==> !Clashes(h, e)
  {
  }

  predicate AnyClash(hosts: map<nat, Host>, e: Host) {
    exists x | x in hosts :: Clashes(hosts[x], e)
  }

  function InfosAt(t: Topology, k: Kind, ids: seq<nat>): (r: seq<Info>)
    requires t.HasShape()
    ensures |r| == |ids| && forall i | 0 <= i < |r| :: r[i] == Info(ids[i], KeyAt(t, k, ids[i]))
  {
    seq(|ids|, i requires 0 <= i < |ids| => Info(ids[i], KeyAt(t, k, ids[i])))
  }

  /** t' is t with one more node id, which carries the given key. */
  ghost predicate GrownBy(t: Topology, t': Topology, k: Kind, id: nat, key: Key, host: Host)
    requires t.HasShape() && t'.HasShape()
  {
    && id !in t.levels[k] && id > t.lastIds[k] && t'.lastIds == t.lastIds[k := id]
    && (forall j: Kind :: Keys(t', j) == if j == k then Keys(t, j)[id := key] else Keys(t, j))
    && t'.hosts == (if k == SERVER then t.hosts[id := host] else t.hosts)
    && ServersStay(t, t')
  }

  /** Servers stay where they are, with their live chunkservers. */
  ghost predicate ServersStay(t: Topology, t': Topology)
    requires t.HasShape() && t'.HasShape()
  {
    forall x | x in t.levels[SERVER] :: x in t'.levels[SERVER] && t'.levels[SERVER][x] == t.levels[SERVER][x]
  }

  ghost predicate Grown(t: Topology, t': Topology, k: Kind, key: Key, host: Host)
    requires t.HasShape() && t'.HasShape()
  {
    exists id :: GrownBy(t, t', k, id, key, host)
  }

  /** t' is t without node id. */
  ghost predicate Shrunk(t: Topology, t': Topology, k: Kind, id: nat)
    requires t.HasShape() && t'.HasShape()
  {
    && Agree(t, t')
    && id in t.levels[k]
    && (forall j: Kind :: t'.levels[j].Keys == t.levels[j].Keys - if j == k then {id} else {})
    && t'.hosts == (if k == SERVER then t.hosts - {id} else t.hosts)
    && t'.levels[SERVER] == (if k == SERVER then t.levels[SERVER] - {id} else t.levels[SERVER])
    && t'.lastIds == t.lastIds
    && Pruned(t, t', k, id)
  }

  const NO_HOST := Host("", 0, "", 0)

  ghost predicate Named(l: Level, name: string) {
    exists x :: x in l && l[x].name == name
  }

  /** Zone z of pool p has the given name. */
  ghost predicate ZoneIn(t: Topology, z: nat, p: nat, name: string)
    requires t.HasShape()
  {
    z in t.levels[ZONE] && t.levels[ZONE][z].name == name && t.levels[ZONE][z].parent == p
  }

  /** How the MDS answers a mutating call and what the call does to the topology. */
  ghost predicate Answers(c: Call) {
    && c.before.HasShape() && c.after.HasShape()
    && (c.code != SUCCESS ==> c.after == c.before)
    && match c.op
       case Delete(k, id) =>
         var l := c.before.levels[k];
         if id !in l then c.code == NotFound(k)
         else if k == POOLSET && id == DEFAULT_POOLSET_ID then c.code == CANNOT_DELETE_DEFAULT_POOLSET
         else if l[id].children != [] then c.code == CANNOT_REMOVE_WHEN_NOT_EMPTY
         else Done(c) && (c.code == SUCCESS ==> Shrunk(c.before, c.after, k, id))
       case CreatePoolset(d) =>
         if Named(c.before.levels[POOLSET], d.name) then c.code == NAME_DUPLICATED
         else Done(c) && (c.code == SUCCESS ==> Grown(c.before, c.after, POOLSET, PoolsetKey(d), NO_HOST))
       case CreatePhysicalPool(d) =>
         if !Named(c.before.levels[POOLSET], d.poolsetName) then c.code == POOLSET_NOT_FOUND
         else Done(c) && (c.code == SUCCESS ==> Grown(c.before, c.after, POOL, PoolKey(d), NO_HOST))
       case CreateZone(d) =>
         if !Named(c.before.levels[POOL], d.physicalPoolName) then c.code == PHYSICAL_POOL_NOT_FOUND
         else Done(c) && (c.code == SUCCESS ==> Grown(c.before, c.after, ZONE, ZoneKey(d), NO_HOST))
       case RegistServer(d) =>
         if !Named(c.before.levels[POOL], d.physicalPoolName) then c.code == PHYSICAL_POOL_NOT_FOUND
         else exists p :: p in c.before.levels[POOL] && c.before.levels[POOL][p].name == d.physicalPoolName &&
                          RegistersIn(c, d, p)
  }

  /** The answer to RegistServer once the pool name has been resolved to pool p. */
  ghost predicate RegistersIn(c: Call, d: ServerData, p: nat)
    requires c.before.HasShape() && c.after.HasShape()
  {
    if !exists z :: ZoneIn(c.before, z, p, d.zoneName) then c.code == ZONE_NOT_FOUND
    else if AnyClash(c.before.hosts, d.host) then c.code == IP_PORT_DUPLICATED
    else Done(c) && (c.code == SUCCESS ==> Grown(c.before, c.after, SERVER, ServerKey(d), d.host))
  }

  ghost predicate Done(c: Call) {
    c.code == SUCCESS || c.code == STORAGE_FAIL
  }

  /** The log is extended by the given call, or the request never arrived. */
  ghost predicate Logged(before: seq<Call>, after: seq<Call>, op: Op, t: Topology, t': Topology, reply: Reply, calm: bool) {
    || (!calm && after == before && t' == t && reply.NoReply?)
    || (exists code ::
          && after == before + [Call(op, code, t, t')]
          && Answers(Call(op, code, t, t'))
          && (calm ==> code != STORAGE_FAIL)
          && (reply == Status(code) || (!calm && reply.NoReply?)))
  }

  /** When a node is added and the others agree, the key maps differ in that node only. */
  lemma KeysAfterAdding(t: Topology, t': Topology, k: Kind, id: nat, j: Kind)
    requires Rooted(t) && Rooted(t') && Agree(t, t')
    requires t'.levels[j].Keys == t.levels[j].Keys + if j == k then {id} else {}
    requires id !in t.levels[k]
    ensures Keys(t', j) == if j == k then Keys(t, j)[id := KeyAt(t', k, id)] else Keys(t, j)
  {
    hide NamesUp;
    KeysAgree(t, t', j);
  }

  lemma InsertedGrows(t: Topology, k: Kind, id: nat, name: string, parent: nat, siblings: seq<nat>, host: Host)
    requires WellFormed(t) && id > t.lastIds[k] && parent in t.levels[k - 1]
    requires Enlists(t.levels[k - 1][parent].children, id, siblings)
    requires k == POOLSET ==> forall x | x in t.levels[k] :: t.levels[k][x].name != name
    ensures WellFormed(Inserted(t, k, id, name, parent, siblings, host))
    ensures GrownBy(t, Inserted(t, k, id, name, parent, siblings, host), k, id,
                    [name] + NamesUp(t, k - 1, parent, Width(k) - 1), host)
  {
    hide LinkedAt, Enlists, NamesUp, KeyAt, Keys, PoolsetsNamed, Numbered;
    var t' := Inserted(t, k, id, name, parent, siblings, host);
    InsertedNumbers(t, k, id, name, parent, siblings, host);
    InsertedIsWellFormed(t, k, id, name, parent, siblings, host);
    WellFormedIsRooted(t);
    WellFormedIsRooted(t');
    InsertedKey(t, k, id, name, parent, siblings, host);
    forall j: Kind
      ensures Keys(t', j) == if j == k then Keys(t, j)[id := KeyAt(t', k, id)] else Keys(t, j)
    {
      KeysAfterAdding(t, t', k, id, j);
    }
  }

  lemma RemovedShrinks(t: Topology, k: Kind, id: nat)
    requires WellFormed(t) && id in t.levels[k] && t.levels[k][id].children == []
    requires k == POOLSET ==> id != DEFAULT_POOLSET_ID
    ensures t.levels[k][id].parent in t.levels[k - 1]
    ensures WellFormed(Removed(t, k, id)) && Shrunk(t, Removed(t, k, id), k, id)
  {
    hide LinkedAt, Minus, PoolsetsNamed, Numbered, Pruned;
    RemovedIsWellFormed(t, k, id);
    WellFormedAt(t, k);
    RemovedIsPruned(t, k, id);
  }

  class Mds {
    var t: Topology
    /** The fates of the RPCs to come; beyond the end everything is delivered. */
    var fates: seq<Fate>
    /** The mutating calls that reached the MDS, in order. */
    ghost var calls: seq<Call>
    /** The latest RPC, as the client saw it. */
    ghost var last: Exchange
    /** How many RPCs did not go well so far. */
    ghost var troubles: nat

    constructor (t: Topology, fates: seq<Fate>)
      requires WellFormed(t)
      ensures this.t == t && this.fates == fates && calls == []
    {
      this.t := t;
      this.fates := fates;
      calls := [];
      last := Exchange(Listing(POOLSET), NoReply(false));
      troubles := 0;
    }

    /** Nothing goes wrong from here on. */
    ghost predicate Calm()
      reads this
    {
      forall f | f in fates :: f.Delivered?
    }

    ghost function Outlook(): Weather
      reads this
    {
      Weather(troubles, fates)
    }

    ghost function Now(): Moment
      reads this
    {
      Moment(t, calls)
    }

    method NextFate() returns (f: Fate)
      modifies `fates, `troubles
      ensures f == FateAt(old(fates), 0) && fates == After(old(fates), 1)
      ensures troubles == old(troubles) + if f.Delivered? then 0 else 1
      ensures troubles + Troubles(fates) == old(troubles + Troubles(fates))
      ensures Mild(old(fates)) ==> Mild(fates) && (f == Delivered || f == RequestLost(true) || f == ReplyLost(true))
    {
      f := FateAt(fates, 0);
      assert fates != [] ==> fates[0] in fates && forall g | g in fates[1..] :: g in fates;
      fates := After(fates, 1);
      troubles := troubles + if f.Delivered? then 0 else 1;
    }

    /** ListPoolset (under the root), ListPhysicalPoolsInPoolset, ListPoolZone and ListZoneServer. */
    method List(k: Kind, parent: nat) returns (reply: Reply, infos: seq<Info>)
      requires WellFormed(t)
      modifies `fates, `last, `troubles
      ensures last == Exchange(Listing(k), reply) && fates == After(old(fates), 1)
      ensures FateAt(old(fates), 0).Delivered? ==> reply.Status?
      ensures troubles == old(troubles) ==> reply.Status?
      ensures Weathered(old(Outlook()), Outlook(), if reply.Status? then 0 else -1, reply)
      ensures reply.Status? ==> reply.code == if parent in t.levels[k - 1] then SUCCESS else NotFound(k - 1)
      ensures reply == Status(SUCCESS) ==>
                parent in t.levels[k - 1] && infos == InfosAt(t, k, t.levels[k - 1][parent].children)
      ensures reply != Status(SUCCESS) ==> infos == []
    {
      var f := NextFate();
      infos := [];
      if f.RequestLost? || f.ReplyLost? {
        reply := NoReply(f.down);
      } else if parent !in t.levels[k - 1] {
        reply := Status(NotFound(k - 1));
      } else {
        reply := Status(SUCCESS);
        infos := InfosAt(t, k, t.levels[k - 1][parent].children);
      }
      last := Exchange(Listing(k), reply);
    }

    /** DeletePoolset, DeletePhysicalPool, DeleteZone and DeleteServer. */
    method Remove(k: Kind, id: nat) returns (reply: Reply)
      requires WellFormed(t)
      modifies this
      ensures WellFormed(t)
      ensures Logged(old(calls), calls, Delete(k, id), old(t), t, reply, troubles == old(troubles))
      ensures last == Exchange(Mutating(Delete(k, id)), reply) && fates == After(old(fates), 1)
      ensures FateAt(old(fates), 0).ReplyLost? ==> reply == NoReply(FateAt(old(fates), 0).down) && calls != old(calls)
      ensures Weathered(old(Outlook()), Outlook(), if reply.Status? then 0 else -1, reply)
    {
      hide Mild, Troubles, LinkedAt, Shrunk, Removed, Grown, Keys, RegistersIn, PoolsetsNamed;
      var f := NextFate();
      if f.RequestLost? {
        last := Exchange(Mutating(Delete(k, id)), NoReply(f.down));
        return NoReply(f.down);
      }
      var code := SUCCESS;
      if id !in t.levels[k] {
        code := NotFound(k);
      } else if k == POOLSET && id == DEFAULT_POOLSET_ID {
        code := CANNOT_DELETE_DEFAULT_POOLSET;
      } else if t.levels[k][id].children != [] {
        code := CANNOT_REMOVE_WHEN_NOT_EMPTY;
      } else if f.StorageFails? {
        code := STORAGE_FAIL;
      } else {
        RemovedShrinks(t, k, id);
        t := Removed(t, k, id);
      }
      calls := calls + [Call(Delete(k, id), code, old(t), t)];
      reply := if f.ReplyLost? then NoReply(f.down) else Status(code);
      last := Exchange(Mutating(Delete(k, id)), reply);
    }

    /** AddPoolset, AddPhysicalPool, AddZone and AddServer: a higher id than any before, put into
        the parent's child list. An id may be skipped when storage refused its node. A new
        poolset can reorder the whole enumeration of poolsets. */
    method Add(k: Kind, name: string, parent: nat, host: Host, ghost key: Key)
      requires WellFormed(t) && parent in t.levels[k - 1]
      requires key == [name] + NamesUp(t, k - 1, parent, Width(k) - 1)
      requires k == POOLSET ==> !Named(t.levels[k], name)
      modifies `t
      ensures WellFormed(t)
      ensures Grown(old(t), t, k, key, host)
    {
      hide PoolsetsNamed, Inserted, GrownBy, NamesUp, LinkedAt, Numbered;
      var id: nat :| id > t.lastIds[k];
      var children := t.levels[k - 1][parent].children;
      WellFormedAt(t, k);
      NextIdEnlists(t, k, parent, id);
      var siblings: seq<nat> := children + [id];
      if k == POOLSET {
        siblings :| Enlists(children, id, siblings);
      }
      InsertedGrows(t, k, id, name, parent, siblings, host);
      t := Inserted(t, k, id, name, parent, siblings, host);
    }

    method AddPoolset(d: PoolsetData) returns (reply: Reply)
      requires WellFormed(t)
      modifies this
      ensures WellFormed(t)
      ensures Logged(old(calls), calls, CreatePoolset(d), old(t), t, reply, troubles == old(troubles))
      ensures last == Exchange(Mutating(CreatePoolset(d)), reply)
      ensures Weathered(old(Outlook()), Outlook(), if reply.Status? then 0 else -1, reply)
    {
      hide Mild, Troubles, LinkedAt, PoolsetsNamed, Numbered, Grown;
      var f := NextFate();
      if f.RequestLost? {
        last := Exchange(Mutating(CreatePoolset(d)), NoReply(f.down));
        return NoReply(f.down);
      }
      var code := SUCCESS;
      var pid := FindByName(t.levels[POOLSET], d.name);
      if pid.Some? {
        code := NAME_DUPLICATED;
      } else if f.StorageFails? {
        code := STORAGE_FAIL;
      } else {
        Add(POOLSET, d.name, 0, NO_HOST, PoolsetKey(d));
      }
      calls := calls + [Call(CreatePoolset(d), code, old(t), t)];
      reply := if f.ReplyLost? then NoReply(f.down) else Status(code);
      last := Exchange(Mutating(CreatePoolset(d)), reply);
    }

    method AddPhysicalPool(d: PoolData) returns (reply: Reply)
      requires WellFormed(t)
      modifies this
      ensures WellFormed(t)
      ensures Logged(old(calls), calls, CreatePhysicalPool(d), old(t), t, reply, troubles == old(troubles))
      ensures last == Exchange(Mutating(CreatePhysicalPool(d)), reply)
      ensures Weathered(old(Outlook()), Outlook(), if reply.Status? then 0 else -1, reply)
    {
      hide Mild, Troubles, LinkedAt, PoolsetsNamed, Numbered, Grown;
      var f := NextFate();
      if f.RequestLost? {
        last := Exchange(Mutating(CreatePhysicalPool(d)), NoReply(f.down));
        return NoReply(f.down);
      }
      var code := SUCCESS;
      var poolset := FindByName(t.levels[POOLSET], d.poolsetName);
      if poolset.None? {
        code := POOLSET_NOT_FOUND;
      } else if f.StorageFails? {
        code := STORAGE_FAIL;
      } else {
        NamesUpOne(t, POOLSET, poolset.value);
        Add(POOL, d.physicalPoolName, poolset.value, NO_HOST, PoolKey(d));
      }
      calls := calls + [Call(CreatePhysicalPool(d), code, old(t), t)];
      reply := if f.ReplyLost? then NoReply(f.down) else Status(code);
      last := Exchange(Mutating(CreatePhysicalPool(d)), reply);
    }

    method AddZone(d: ZoneData) returns (reply: Reply)
      requires WellFormed(t)
      modifies this
      ensures WellFormed(t)
      ensures Logged(old(calls), calls, CreateZone(d), old(t), t, reply, troubles == old(troubles))
      ensures last == Exchange(Mutating(CreateZone(d)), reply)
      ensures Weathered(old(Outlook()), Outlook(), if reply.Status? then 0 else -1, reply)
    {
      hide Mild, Troubles, LinkedAt, PoolsetsNamed, Numbered, Grown;
      var f := NextFate();
      if f.RequestLost? {
        last := Exchange(Mutating(CreateZone(d)), NoReply(f.down));
        return NoReply(f.down);
      }
      var code := SUCCESS;
      var pool := FindByName(t.levels[POOL], d.physicalPoolName);
      if pool.None? {
        code := PHYSICAL_POOL_NOT_FOUND;
      } else if f.StorageFails? {
        code := STORAGE_FAIL;
      } else {
        NamesUpOne(t, POOL, pool.value);
        Add(ZONE, d.zoneName, pool.value, NO_HOST, ZoneKey(d));
      }
      calls := calls + [Call(CreateZone(d), code, old(t), t)];
      reply := if f.ReplyLost? then NoReply(f.down) else Status(code);
      last := Exchange(Mutating(CreateZone(d)), reply);
    }

    method AddServer(d: ServerData) returns (reply: Reply)
      requires WellFormed(t)
      modifies this
      ensures WellFormed(t)
      ensures Logged(old(calls), calls, RegistServer(d), old(t), t, reply, troubles == old(troubles))
      ensures last == Exchange(Mutating(RegistServer(d)), reply)
      ensures Weathered(old(Outlook()), Outlook(), if reply.Status? then 0 else -1, reply)
    {
      hide Mild, Troubles, LinkedAt, PoolsetsNamed, Numbered, Grown, Clashes;
      var f := NextFate();
      if f.RequestLost? {
        last := Exchange(Mutating(RegistServer(d)), NoReply(f.down));
        return NoReply(f.down);
      }
      var code := SUCCESS;
      var pool := FindByName(t.levels[POOL], d.physicalPoolName);
      if pool.None? {
        code := PHYSICAL_POOL_NOT_FOUND;
      } else {
        var zone := FindZone(t, d.zoneName, pool.value);
        if zone.None? {
          code := ZONE_NOT_FOUND;
        } else if AnyClash(t.hosts, d.host) {
          code := IP_PORT_DUPLICATED;
        } else if f.StorageFails? {
          code := STORAGE_FAIL;
        } else {
          NamesUpTwo(t, zone.value);
          Add(SERVER, d.serverName, zone.value, d.host, ServerKey(d));
        }
        assert RegistersIn(Call(RegistServer(d), code, old(t), t), d, pool.value);
      }
      calls := calls + [Call(RegistServer(d), code, old(t), t)];
      reply := if f.ReplyLost? then NoReply(f.down) else Status(code);
      last := Exchange(Mutating(RegistServer(d)), reply);
    }
  }

  /** Any node with the given name; the MDS returns the first one its hash map yields. */
  method FindByName(l: Level, name: string) returns (r: Option<nat>)
    ensures r.Some? <==> Named(l, name)
    ensures r.Some? ==> r.value in l && l[r.value].name == name
  {
    if exists x | x in l :: l[x].name == name {
      var x :| x in l && l[x].name == name;
      r := Some(x);
    } else {
      r := None;
    }
  }

  method FindZone(t: Topology, name: string, pool: nat) returns (r: Option<nat>)
    requires t.HasShape()
    ensures r.Some? <==> exists z :: ZoneIn(t, z, pool, name)
    ensures r.Some? ==> ZoneIn(t, r.value, pool, name)
  {
    var l := t.levels[ZONE];
    if exists z | z in l :: l[z].name == name && l[z].parent == pool {
      var z :| z in l && l[z].name == name && l[z].parent == pool;
      assert ZoneIn(t, z, pool, name);
      r := Some(z);
    } else {
      r := None;
    }
  }

  lemma NamesUpOne(t: Topology, k: nat, id: nat)
    requires t.HasShape() && 1 <= k <= 4 && id in t.levels[k]
    ensures NamesUp(t, k, id, 1) == [t.levels[k][id].name]
  {
  }

  lemma NamesUpTwo(t: Topology, zone: nat)
    requires t.HasShape() && zone in t.levels[ZONE]
    requires t.levels[ZONE][zone].parent in t.levels[POOL]
    ensures NamesUp(t, ZONE, zone, 2) ==
            [t.levels[ZONE][zone].name, t.levels[POOL][t.levels[ZONE][zone].parent].name]
  {
    NamesUpOne(t, POOL, t.levels[ZONE][zone].parent);
  }
}
