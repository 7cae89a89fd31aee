/** Several runs of the build-cluster tool in a row: a run after one that was cut off, a run
    after one that succeeded, and the retries of the command on one tool object. */
module ClusterRuns {
  import opened ListDiff
  import opened Topology
  import opened ClusterMap
  import opened MdsService
  import opened ScanPlan
  import opened Execution
  import opened Leftover
  import opened Stability
  import opened CurvefsTool
  import opened Layout

  // ---------------------------------------------------------------- addresses

  /** No address stands in the way of a wanted server: only the server itself may hold it. */
  ghost predicate Roomy(t: Topology, m: ClusterMap) {
    && t.HasShape()
    && (forall x, e | x in t.hosts && e in WantServers(m) && Clashes(t.hosts[x], e.host) ::
          x in Keys(t, SERVER) && Keys(t, SERVER)[x] == ServerKey(e))
    && (forall a, b | a in WantServers(m) && b in WantServers(m) && Clashes(a.host, b.host) :: ServerKey(a) == ServerKey(b))
  }

  lemma RoomyStep(c: Call, m: ClusterMap)
    requires Proper(c, m) && Roomy(c.before, m)
    ensures Roomy(c.after, m)
  {
    hide WellFormed, Answers, Roomy, WantServers, Wanted, Grown, Shrunk, PlanFor;
    var t, t' := c.before, c.after;
    AnswerHasEffect(c);
    if c.code == SUCCESS {
      match c.op
      case Delete(k, id) =>
        RoomyShrinks(t, t', k, id, m);
      case CreatePoolset(d) =>
        RoomyGrows(t, t', POOLSET, PoolsetKey(d), NO_HOST, m);
      case CreatePhysicalPool(d) =>
        RoomyGrows(t, t', POOL, PoolKey(d), NO_HOST, m);
      case CreateZone(d) =>
        RoomyGrows(t, t', ZONE, ZoneKey(d), NO_HOST, m);
      case RegistServer(d) =>
        RoomyRegisters(t, t', d, m);
    }
  }

  lemma RoomyShrinks(t: Topology, t': Topology, k: Kind, id: nat, m: ClusterMap)
    requires WellFormed(t) && WellFormed(t') && Roomy(t, m) && t.HasShape() && t'.HasShape() && Shrunk(t, t', k, id)
    ensures Roomy(t', m)
  {
    hide WellFormed, Clashes, WantServers, Keys, Agree, Shrunk;
    ShrunkHosts(t, t', k, id);
    forall x | x in t'.hosts ensures x in Keys(t', SERVER) && x in Keys(t, SERVER) && Keys(t', SERVER)[x] == Keys(t, SERVER)[x] {
      AgreeingKeys(t, t', x);
    }
  }

  lemma RoomyGrows(t: Topology, t': Topology, k: Kind, key: Key, host: Host, m: ClusterMap)
    requires t.HasShape() && t'.HasShape() && Roomy(t, m) && Grown(t, t', k, key, host) && k != SERVER
    ensures Roomy(t', m)
  {
    hide Clashes, WantServers, KeyAt;
    var id :| GrownBy(t, t', k, id, key, host);
    assert Keys(t', SERVER) == Keys(t, SERVER);
  }

  lemma RoomyRegisters(t: Topology, t': Topology, d: ServerData, m: ClusterMap)
    requires t.HasShape() && t'.HasShape() && Roomy(t, m) && Grown(t, t', SERVER, ServerKey(d), d.host) && d in WantServers(m)
    ensures Roomy(t', m)
  {
    hide Clashes, WantServers, KeyAt;
    var id :| GrownBy(t, t', SERVER, id, ServerKey(d), d.host);
    assert Keys(t', SERVER) == Keys(t, SERVER)[id := ServerKey(d)];
  }

  /** Whatever a run does, it takes no address away from a wanted server. */
  lemma {:induction false} RoomyInRuns(t: Topology, cs: seq<Call>, t': Topology, m: ClusterMap)
    requires Leads(t, cs, t', m) && Roomy(t, m)
    ensures Roomy(t', m)
  {
    hide Proper, Roomy;
    if cs != [] {
      var c := cs[|cs| - 1];
      RoomyInRuns(t, cs[..|cs| - 1], c.before, m);
      RoomyStep(c, m);
    }
  }

  lemma RoomyIsClashFree(t: Topology, m: ClusterMap, p: Plan)
    requires WellFormed(t) && Planned(t, m, p) && Roomy(t, m)
    ensures ClashFree(KeptHosts(t, p), p.servers.add)
  {
    hide LinkedAt, PoolsetsNamed, Numbered, LevelPlanned, Wanted, WantServers, Clashes, KeyAt;
    PlanDeletes(t, SERVER, p.zones.kept, p.servers, ServerKey, Wanted(m, SERVER));
    var add := p.servers.add;
    forall i, h | 0 <= i < |add| && h in KeptHosts(t, p) ensures !Clashes(h, add[i].host) {
      var x :| x in p.servers.kept && x in t.hosts && t.hosts[x] == h;
      assert add[i] in add;
      assert ServerKey(add[i]) in KeysOf(add, ServerKey);
      assert KeyAt(t, SERVER, x) in KeysOn(t, SERVER, p.servers.kept);
      assert KeyAt(t, SERVER, x) != ServerKey(add[i]);
    }
    forall i, j | 0 <= i < j < |add| ensures !Clashes(add[i].host, add[j].host) {
      assert add[i] in add && add[j] in add;
    }
  }

  // ---------------------------------------------------------------- where servers come from

  /** The server was there before, under the same key and with the same addresses. */
  ghost predicate FromBefore(t0: Topology, t: Topology, x: nat)
    requires t0.HasShape() && t.HasShape()
  {
    && x in t0.hosts && x in t.hosts && t.hosts[x] == t0.hosts[x]
    && x in Keys(t0, SERVER) && x in Keys(t, SERVER) && Keys(t, SERVER)[x] == Keys(t0, SERVER)[x]
  }

  /** The server carries the key and the addresses of an entry of the map. */
  ghost predicate FromMap(t: Topology, m: ClusterMap, x: nat)
    requires t.HasShape()
  {
    x in t.hosts && x in Keys(t, SERVER) &&
    exists e :: e in WantServers(m) && Keys(t, SERVER)[x] == ServerKey(e) && t.hosts[x] == e.host
  }

  ghost predicate Sourced(t0: Topology, t: Topology, m: ClusterMap) {
    t0.HasShape() && t.HasShape() && forall x | x in t.hosts :: FromBefore(t0, t, x) || FromMap(t, m, x)
  }

  /** The server, if it is there still, keeps key and addresses. */
  ghost predicate ServerKept(t: Topology, t': Topology, x: nat)
    requires t.HasShape() && t'.HasShape()
  {
    x in t'.hosts ==>
      && x in t.hosts && t'.hosts[x] == t.hosts[x]
      && (x in Keys(t, SERVER) ==> x in Keys(t', SERVER) && Keys(t', SERVER)[x] == Keys(t, SERVER)[x])
  }

  lemma SourcedKept(t0: Topology, t: Topology, t': Topology, m: ClusterMap, x: nat)
    requires Sourced(t0, t, m) && t'.HasShape() && x in t'.hosts && ServerKept(t, t', x)
    ensures FromBefore(t0, t', x) || FromMap(t', m, x)
  {
    hide Keys, WantServers;
    if !FromBefore(t0, t, x) {
      var e :| e in WantServers(m) && Keys(t, SERVER)[x] == ServerKey(e) && t.hosts[x] == e.host;
      assert Keys(t', SERVER)[x] == ServerKey(e) && t'.hosts[x] == e.host;
    }
  }

  lemma SourcedStep(t0: Topology, c: Call, m: ClusterMap)
    requires Proper(c, m) && Sourced(t0, c.before, m)
    ensures Sourced(t0, c.after, m)
  {
    hide WellFormed, Answers, WantServers, Wanted, Grown, Shrunk, FromBefore, FromMap, ServerKept;
    var t, t' := c.before, c.after;
    AnswerHasEffect(c);
    if c.code == SUCCESS {
      forall x | x in t'.hosts ensures FromBefore(t0, t', x) || FromMap(t', m, x) {
        match c.op {
          case Delete(k, id) => ShrinkKeepsServers(t, t', k, id, x);
          case CreatePoolset(d) => GrowthKeepsServers(t, t', POOLSET, PoolsetKey(d), NO_HOST, x);
          case CreatePhysicalPool(d) => GrowthKeepsServers(t, t', POOL, PoolKey(d), NO_HOST, x);
          case CreateZone(d) => GrowthKeepsServers(t, t', ZONE, ZoneKey(d), NO_HOST, x);
          case RegistServer(d) => NewServerIsWanted(t, t', d, m, x);
        }
        if ServerKept(t, t', x) {
          SourcedKept(t0, t, t', m, x);
        }
      }
    }
  }

  lemma ShrinkKeepsServers(t: Topology, t': Topology, k: Kind, id: nat, x: nat)
    requires WellFormed(t) && WellFormed(t') && t.HasShape() && t'.HasShape() && Shrunk(t, t', k, id)
    ensures ServerKept(t, t', x)
  {
    hide WellFormed, Keys, Agree, Rooted;
    ShrunkHosts(t, t', k, id);
    AgreeingKeys(t, t', x);
  }

  lemma ShrunkHosts(t: Topology, t': Topology, k: Kind, id: nat)
    requires t.HasShape() && t'.HasShape() && Shrunk(t, t', k, id)
    ensures Agree(t, t') && forall x | x in t'.hosts :: x in t.hosts && t'.hosts[x] == t.hosts[x]
  {
    hide Agree;
  }

  lemma AgreeingKeys(t: Topology, t': Topology, x: nat)
    requires WellFormed(t) && WellFormed(t') && Agree(t, t')
    ensures t.HasShape() && t'.HasShape() && (x in t'.hosts <==> x in Keys(t', SERVER)) && (x in t.hosts <==> x in Keys(t, SERVER))
    ensures x in t'.hosts && x in t.hosts ==> Keys(t', SERVER)[x] == Keys(t, SERVER)[x]
  {
    hide LinkedAt, PoolsetsNamed, Numbered, KeyAt, Agree;
    WellFormedIsRooted(t);
    WellFormedIsRooted(t');
    KeysAgree(t, t', SERVER);
    assert x in t.hosts <==> x in t.hosts.Keys;
    assert x in t'.hosts <==> x in t'.hosts.Keys;
  }

  lemma GrowthKeepsServers(t: Topology, t': Topology, k: Kind, key: Key, host: Host, x: nat)
    requires t.HasShape() && t'.HasShape() && Grown(t, t', k, key, host) && k != SERVER
    ensures ServerKept(t, t', x)
  {
    hide KeyAt;
    var id :| GrownBy(t, t', k, id, key, host);
    assert Keys(t', SERVER) == Keys(t, SERVER);
  }

  lemma NewServerIsWanted(t: Topology, t': Topology, d: ServerData, m: ClusterMap, x: nat)
    requires t.HasShape() && t'.HasShape() && Grown(t, t', SERVER, ServerKey(d), d.host) && d in WantServers(m) && x in t'.hosts
    ensures ServerKept(t, t', x) || FromMap(t', m, x)
  {
    hide KeyAt, WantServers;
    var id :| GrownBy(t, t', SERVER, id, ServerKey(d), d.host);
    assert Keys(t', SERVER) == Keys(t, SERVER)[id := ServerKey(d)];
    if x == id {
      assert Keys(t', SERVER)[x] == ServerKey(d) && t'.hosts[x] == d.host;
    }
  }

  /** After any run every server is one that was there before, unchanged, or has key and addresses
      of an entry of the map. */
  lemma {:induction false} ServersComeFromMap(t: Topology, cs: seq<Call>, t': Topology, m: ClusterMap)
    requires WellFormed(t) && Leads(t, cs, t', m)
    ensures Sourced(t, t', m)
  {
    hide Proper, Sourced;
    if cs == [] {
      NothingNew(t, m);
    } else {
      var c := cs[|cs| - 1];
      ServersComeFromMap(t, cs[..|cs| - 1], c.before, m);
      SourcedStep(t, c, m);
    }
  }

  lemma NothingNew(t: Topology, m: ClusterMap)
    requires WellFormed(t)
    ensures Sourced(t, t, m)
  {
    hide LinkedAt, PoolsetsNamed, Numbered, KeyAt;
    forall x | x in t.hosts ensures FromBefore(t, t, x) {
      assert x in t.hosts.Keys && x in t.levels[SERVER].Keys;
    }
  }

  // ---------------------------------------------------------------- restart and idempotence

  ghost predicate AllDelivered(fates: seq<Fate>) {
    forall f | f in fates :: f.Delivered?
  }

  /** A run by a new tool. */
  method FreshRun(mds: Mds, m: ClusterMap) returns (ret: int)
    requires WellFormed(mds.t)
    modifies mds
    ensures WellFormed(mds.t) && LogGrew(old(mds.Now()), mds.Now(), m)
    ensures Sourced(old(mds.t), mds.t, m) && Settles(old(mds.t), mds.t, m)
    ensures Spares(old(mds.t), mds.t, PlanFor(old(mds.t), m))
    ensures ret == 0 ==>
              var p := PlanFor(old(mds.t), m);
              Converged(mds.t, m) <==> ClashFree(KeptHosts(old(mds.t), p), p.servers.add)
    ensures ret == 0 ==> PoolsetsLaid(mds.t, m) && PoolsLaid(mds.t, m) && ZonesLaid(mds.t, m)
    ensures old(mds.Calm()) && PoolsetsDeclared(m) && NoneBusy(old(mds.t), PlanFor(old(mds.t), m)) ==> ret == 0
    ensures ret == 0 ==> PoolsetsDeclared(m)
    ensures Roomy(old(mds.t), m) ==> Roomy(mds.t, m) && (ret == 0 ==> Converged(mds.t, m))
    ensures Converged(old(mds.t), m) ==> mds.Now() == old(mds.Now()) && NoneBusy(old(mds.t), PlanFor(old(mds.t), m))
  {
    hide LinkedAt, PoolsetsNamed, Numbered, PlanOf, LogGrew, Carries, Converged, Roomy, LeftOver, NextWants, Scheduled, ClashFree,
         PoolsetsDeclared, Planned, ResultKeys, KeptHosts, Verdict, WantsOf, Asks, Sourced, Leads, Settles, Spares, CutAfterScan,
         PoolsetsLaid, PoolsLaid, ZonesLaid;
    ghost var a := mds.Now();
    var tool := new CurvefsTools(mds);
    FreshTool(tool, m);
    MapAsks(m);
    PlanIsRight(a.t, WantsOf(m), m);
    if Converged(a.t, m) {
      ConvergedHasNothingToDo(a.t, m, PlanFor(a.t, m));
    }
    ret := tool.HandleBuildCluster(m);
    LogLeads(a, mds.Now(), m);
    ServersComeFromMap(a.t, mds.calls[|a.calls|..], mds.t, m);
    if Roomy(a.t, m) {
      RoomyInRuns(a.t, mds.calls[|a.calls|..], mds.t, m);
      RoomyIsClashFree(a.t, m, PlanFor(a.t, m));
    }
  }

  /** A run that may be cut off anywhere, a run by a new tool, and one more by another new tool.
      Whatever became of the first run, the second one returns 0 in peace if poolsets are declared and
      no server that was to be deleted from the beginning is busy. When no address is in the
      way, it then leaves what the map asks for, and the third run calls nothing. All along no node
      goes but those that were to be deleted from the beginning. */
  method Restart(mds: Mds, m: ClusterMap, later: seq<Fate>, again: seq<Fate>)
    returns (first: int, second: int, third: int, ghost mid: Topology, ghost done: Moment)
    requires WellFormed(mds.t)
    modifies mds
    ensures WellFormed(mds.t) && WellFormed(mid) && WellFormed(done.t)
    ensures LogGrew(old(mds.Now()), mds.Now(), m)
    ensures Spares(old(mds.t), mds.t, PlanFor(old(mds.t), m))
    ensures AllDelivered(later) && PoolsetsDeclared(m) && NoneBusy(mid, PlanFor(mid, m)) ==> second == 0
    ensures AllDelivered(later) && PoolsetsDeclared(m) && NoneBusy(old(mds.t), PlanFor(old(mds.t), m)) ==> second == 0
    ensures second == 0 && Roomy(old(mds.t), m) ==> Converged(done.t, m)
    ensures Converged(done.t, m) ==> mds.Now() == done
    ensures second == 0 && Converged(done.t, m) && AllDelivered(again) ==> third == 0
  {
    hide WellFormed, PlanFor, LogGrew, Converged, Roomy, PoolsetsDeclared, NoneBusy, ClashFree, KeptHosts, Sourced, Fewer, Spares,
         PoolsetsLaid, PoolsLaid, ZonesLaid;
    first := FreshRun(mds, m);
    mid := mds.t;
    ghost var a := mds.Now();
    mds.fates := later;
    second := FreshRun(mds, m);
    done := mds.Now();
    LogGrewTransitive(old(mds.Now()), a, done, m);
    SparesAcross(old(mds.t), mid, done.t, m);
    mds.fates := again;
    third := FreshRun(mds, m);
    LogGrewTransitive(old(mds.Now()), done, mds.Now(), m);
    SparesAcross(old(mds.t), done.t, mds.t, m);
  }

  // ---------------------------------------------------------------- the command

  /** An attempt: the address it used, whether nodes were listed for deletion when it began, and how it ended. */
  datatype Attempt = Attempt(address: nat, listed: bool, ret: int)

  /** Attempts that were all redirected. Once nodes are listed they stay listed; listed says whether some are. */
  ghost predicate Redirected(attempts: seq<Attempt>, listed: bool) {
    && (forall a | a in attempts :: a.ret == REDIRECT_MDS && (a.listed ==> listed))
    && (forall i, j | 0 <= i < j < |attempts| && attempts[i].listed :: attempts[j].listed)
  }

  /** Attempts in a row: all but the last were redirected, those with nodes listed failed, and once nodes
      are listed they stay listed. */
  ghost predicate InARow(attempts: seq<Attempt>) {
    && (forall i | 0 <= i < |attempts| - 1 :: attempts[i].ret == REDIRECT_MDS)
    && (forall i | 0 <= i < |attempts| && attempts[i].listed :: attempts[i].ret < 0)
    && (forall i, j | 0 <= i < j < |attempts| && attempts[i].listed :: attempts[j].listed)
  }

  lemma RedirectedInARow(attempts: seq<Attempt>, listed: bool)
    requires Redirected(attempts, listed)
    ensures InARow(attempts)
    ensures !listed ==> NeverListed(attempts)
    ensures !EndWell(attempts) && Outcome(attempts) == COMMON_ERR
  {
    assert forall i | 0 <= i < |attempts| :: attempts[i] in attempts;
  }

  /** The last attempt succeeded. */
  ghost predicate EndWell(attempts: seq<Attempt>) {
    attempts != [] && attempts[|attempts| - 1].ret == 0
  }

  /** What the command returns: the result of the last attempt, unless that was redirected or there was none. */
  ghost function Outcome(attempts: seq<Attempt>): int {
    if attempts != [] && attempts[|attempts| - 1].ret != REDIRECT_MDS then attempts[|attempts| - 1].ret else COMMON_ERR
  }

  /** The attempts take the addresses in turn. */
  ghost predicate InTurns(attempts: seq<Attempt>, addresses: nat) {
    forall k | 0 <= k < |attempts| :: addresses > 0 && attempts[k].address == k % addresses
  }

  /** The index of the address that try n - 1 has used. */
  ghost function AddressBefore(n: nat, addresses: nat): int {
    if n == 0 || addresses == 0 then -1 else (n - 1) % addresses
  }

  /** The channels for the first n tries could be set up. */
  ghost predicate Opened(opens: seq<bool>, n: nat) {
    forall k | 0 <= k < n && k < |opens| :: opens[k]
  }

  /** Why there is no further attempt: the last one was not redirected, the tries are used up, there is no
      address, or the channel for the next try cannot be set up. */
  ghost predicate Stopped(attempts: seq<Attempt>, addresses: nat, opens: seq<bool>, maxTry: nat) {
    || (attempts != [] && attempts[|attempts| - 1].ret != REDIRECT_MDS) || |attempts| == maxTry || addresses == 0
    || (|attempts| < |opens| && !opens[|attempts|])
  }

  ghost predicate NeverListed(attempts: seq<Attempt>) {
    forall a | a in attempts :: !a.listed
  }

  lemma OneMoreAttempt(attempts: seq<Attempt>, a: Attempt, listed: bool)
    requires Redirected(attempts, a.listed) && (a.listed ==> a.ret < 0 && listed)
    ensures InARow(attempts + [a]) && (EndWell(attempts + [a]) <==> a.ret == 0)
    ensures a.ret != REDIRECT_MDS ==> Outcome(attempts + [a]) == a.ret
    ensures a.ret == REDIRECT_MDS ==> Redirected(attempts + [a], listed)
    ensures !a.listed ==> NeverListed(attempts + [a])
  {
    var all := attempts + [a];
    forall i | 0 <= i < |attempts| ensures all[i].ret == REDIRECT_MDS && (all[i].listed ==> a.listed) {
      assert all[i] in attempts;
    }
  }

  /** From one attempt to another: what was not to be deleted stays, the next plan deletes no more, free
      addresses stay free until nodes are listed, and with nothing to delete none ever are. */
  ghost predicate Onward(t0: Topology, listed0: bool, t: Topology, listed: bool, m: ClusterMap) {
    && Settles(t0, t, m) && Spares(t0, t, PlanFor(t0, m)) && (listed0 ==> listed)
    && (!listed0 && Roomy(t0, m) ==> listed || Roomy(t, m))
    && (!listed0 && !Scheduled(DelsOf(PlanFor(t0, m))) ==> !listed && !Scheduled(DelsOf(PlanFor(t, m))))
  }

  lemma OnwardReflexive(t: Topology, listed: bool, m: ClusterMap)
    requires WellFormed(t)
    ensures Onward(t, listed, t, listed, m)
  {
    hide LinkedAt, PoolsetsNamed, Numbered, PlanFor, Spares, Settles, Roomy, Scheduled;
    SparesReflexive(t, PlanFor(t, m));
    SettlesReflexive(t, m);
  }

  lemma OnwardOn(t0: Topology, listed0: bool, t1: Topology, listed1: bool, t2: Topology, listed2: bool, m: ClusterMap)
    requires Onward(t0, listed0, t1, listed1, m) && Onward(t1, listed1, t2, listed2, m)
    ensures Onward(t0, listed0, t2, listed2, m)
  {
    hide PlanFor, Spares, Roomy, Scheduled, Fewer, NoneBusy;
    SparesAcross(t0, t1, t2, m);
  }

  /** One attempt of the command. */
  method OneAttempt(tool: CurvefsTools, m: ClusterMap) returns (ret: int)
    requires WellFormed(tool.mds.t) && tool.LeftBehind(m)
    modifies tool, tool.mds
    ensures WellFormed(tool.mds.t) && tool.LeftBehind(m) && ret <= 0
    ensures Onward(old(tool.mds.t), old(Scheduled(tool.ToDel())), tool.mds.t, Scheduled(tool.ToDel()), m)
    ensures old(Scheduled(tool.ToDel())) ==> ret < 0
    ensures ret == 0 ==> PoolsetsDeclared(m)
    ensures !old(Scheduled(tool.ToDel())) && Roomy(old(tool.mds.t), m) ==> Roomy(tool.mds.t, m)
    ensures Roomy(old(tool.mds.t), m) && ret == 0 ==> Converged(tool.mds.t, m)
    ensures old(Mild(tool.mds.fates)) ==> Mild(tool.mds.fates)
    ensures !old(Scheduled(tool.ToDel())) && !Scheduled(DelsOf(PlanFor(old(tool.mds.t), m))) && PoolsetsDeclared(m) &&
            old(Mild(tool.mds.fates)) && ret < 0 ==>
              ret == REDIRECT_MDS && Troubles(tool.mds.fates) < old(Troubles(tool.mds.fates))
  {
    hide LinkedAt, PoolsetsNamed, Numbered, PlanOf, LogGrew, Carries, Converged, Roomy, LeftOver, NextWants, Scheduled, ClashFree,
         PoolsetsDeclared, Planned, ResultKeys, NoneBusy, CutAfterScan, Fewer, Mild, Troubles, Spares, PoolsetsLaid, PoolsLaid, ZonesLaid;
    ghost var a, listed, p := tool.mds.Now(), Scheduled(tool.ToDel()), tool.NextPlan(m);
    LeftAfterReading(a.t, tool.Read(), tool.ToAdd(), tool.ToDel(), m);
    NothingListedIsBusy(a.t, p);
    ret := tool.HandleBuildCluster(m);
    if !listed && Roomy(a.t, m) {
      LogLeads(a, tool.mds.Now(), m);
      RoomyInRuns(a.t, tool.mds.calls[|a.calls|..], tool.mds.t, m);
      RoomyIsClashFree(a.t, m, p);
    }
    if !listed {
      FewerThanNone(DelsOf(PlanFor(tool.mds.t, m)), DelsOf(PlanFor(a.t, m)));
    }
  }

  lemma FewerThanNone(a: Lists, b: Lists)
    ensures Fewer(a, b) && !Scheduled(b) ==> !Scheduled(a)
  {
    forall xs: seq<nat> | Within(xs, []) ensures xs == [] {
      if xs != [] {
        NonEmptyHasMember(xs);
      }
    }
  }

  /** Try n turns to the next address; it fails if there is none or the channel cannot be set up. */
  method TryAnotherMdsAddress(index: int, addresses: nat, opens: seq<bool>, n: nat) returns (ret: int, next: int)
    requires index == AddressBefore(n, addresses)
    ensures ret <= 0 && (ret == 0 <==> addresses > 0 && (n < |opens| ==> opens[n]))
    ensures next == AddressBefore(n + 1, addresses) && (addresses > 0 ==> next >= 0)
  {
    if addresses == 0 {
      return COMMON_ERR, index;
    }
    NextInTurn(n, addresses);
    next := (index + 1) % addresses;
    ret := if n < |opens| && !opens[n] then COMMON_ERR else 0;
  }

  /** The create_physicalpool command: attempts by one tool object, as long as they are redirected.
      The command succeeds only if no attempt began with leftover deletions, which is never the
      case if there was nothing to delete at first, and then the topology is what the map asks
      for when no address was in the way. With nothing to delete, declared poolsets and open
      channels it does succeed when nothing worse happens than that an MDS goes down, fewer
      times than there are tries. opens says for which tries a channel can be set up. */
  method CreatePhysicalPoolCommand(mds: Mds, m: ClusterMap, addresses: nat, opens: seq<bool>, maxTry: nat)
    returns (ret: int, ghost attempts: seq<Attempt>)
    requires WellFormed(mds.t)
    modifies mds
    ensures WellFormed(mds.t) && |attempts| <= maxTry && InARow(attempts)
    ensures ret == Outcome(attempts) && (ret == 0 <==> EndWell(attempts))
    ensures InTurns(attempts, addresses) && Stopped(attempts, addresses, opens, maxTry)
    ensures Opened(opens, |attempts|)
    ensures ret == 0 ==> PoolsetsDeclared(m) && NeverListed(attempts)
    ensures ret == 0 && Roomy(old(mds.t), m) ==> Converged(mds.t, m)
    ensures !Scheduled(DelsOf(PlanFor(old(mds.t), m))) ==> NeverListed(attempts)
    ensures Spares(old(mds.t), mds.t, PlanFor(old(mds.t), m))
    ensures !Scheduled(DelsOf(PlanFor(old(mds.t), m))) && PoolsetsDeclared(m) && addresses > 0 && (forall o | o in opens :: o) &&
            old(Mild(mds.fates)) && old(Troubles(mds.fates)) < maxTry ==>
              ret == 0
  {
    hide PlanFor, LinkedAt, PoolsetsNamed, Numbered, Converged, Roomy, LeftOver, NextWants, Scheduled, PoolsetsDeclared, Mild, Troubles,
         Spares, Settles, Redirected, InARow, NeverListed, EndWell, Outcome, InTurns, Stopped, Opened, AddressBefore;
    ghost var t0, eased := mds.t, !Scheduled(DelsOf(PlanFor(mds.t, m))) && PoolsetsDeclared(m) && Mild(mds.fates);
    var tool := new CurvefsTools(mds);
    FreshTool(tool, m);
    ret, attempts := 0, [];
    ghost var listed := false;
    OnwardReflexive(t0, listed, m);
    NotTriedYet(addresses, opens);
    var retry, mdsAddressIndex := 0, -1;
    while retry < maxTry
      invariant 0 <= retry <= maxTry && |attempts| == retry && tool.mds == mds && fresh(tool)
      invariant WellFormed(mds.t) && tool.LeftBehind(m) && listed == Scheduled(tool.ToDel())
      invariant Redirected(attempts, listed) && Onward(t0, false, mds.t, listed, m)
      invariant InTurns(attempts, addresses) && mdsAddressIndex == AddressBefore(retry, addresses)
      invariant Opened(opens, retry)
      invariant eased ==> Mild(mds.fates) && retry + Troubles(mds.fates) <= old(Troubles(mds.fates))
    {
      assert retry < |opens| ==> opens[retry] in opens;
      RedirectedInARow(attempts, listed);
      StoppedShort(attempts, addresses, opens, maxTry);
      ret, mdsAddressIndex := TryAnotherMdsAddress(mdsAddressIndex, addresses, opens, retry);
      if ret < 0 {
        return COMMON_ERR, attempts;
      }
      ghost var t := mds.t;
      ret := OneAttempt(tool, m);
      OnwardOn(t0, false, t, listed, mds.t, Scheduled(tool.ToDel()), m);
      ghost var a := Attempt(mdsAddressIndex, listed, ret);
      InTurnAgain(attempts, a, retry, addresses, opens, maxTry);
      OneMoreAttempt(attempts, a, Scheduled(tool.ToDel()));
      attempts := attempts + [a];
      listed := Scheduled(tool.ToDel());
      if ret != REDIRECT_MDS {
        break;
      }
      retry := retry + 1;
    }
    if retry >= maxTry {
      StoppedShort(attempts, addresses, opens, maxTry);
      RedirectedInARow(attempts, listed);
      return COMMON_ERR, attempts;
    }
  }

  lemma StoppedShort(attempts: seq<Attempt>, addresses: nat, opens: seq<bool>, maxTry: nat)
    ensures |attempts| == maxTry || addresses == 0 || (|attempts| < |opens| && !opens[|attempts|]) ==>
              Stopped(attempts, addresses, opens, maxTry)
  {
  }

  lemma InTurnAgain(attempts: seq<Attempt>, a: Attempt, n: nat, addresses: nat, opens: seq<bool>, maxTry: nat)
    requires n == |attempts| && InTurns(attempts, addresses) && addresses > 0 && a.address == AddressBefore(n + 1, addresses)
    requires Opened(opens, n) && (n < |opens| ==> opens[n])
    ensures InTurns(attempts + [a], addresses) && Opened(opens, n + 1) && |attempts + [a]| == n + 1
    ensures a.ret != REDIRECT_MDS ==> Stopped(attempts + [a], addresses, opens, maxTry)
  {
  }

  lemma NextInTurn(n: nat, addresses: nat)
    requires addresses > 0
    ensures (AddressBefore(n, addresses) + 1) % addresses == AddressBefore(n + 1, addresses) == n % addresses
    ensures n % addresses >= 0
  {
    if n > 0 {
      var q, r := (n - 1) / addresses, (n - 1) % addresses;
      assert n - 1 == q * addresses + r;
      if r + 1 < addresses {
        RestIs(n, addresses, q, r + 1);
        RestIs(r + 1, addresses, 0, r + 1);
      } else {
        assert n == (q + 1) * addresses;
        RestIs(n, addresses, q + 1, 0);
        RestIs(addresses, addresses, 1, 0);
      }
    }
  }

  /** Quotient and remainder are unique. */
  lemma RestIs(n: nat, d: nat, q: nat, r: nat)
    requires d > 0 && n == q * d + r && r < d
    ensures n % d == r
  {
    var q', r' := n / d, n % d;
    assert n == q' * d + r';
    assert (q - q') * d == r' - r;
    if q > q' {
      AtLeast(q - q', d);
    } else if q < q' {
      AtLeast(q' - q, d);
    }
  }

  lemma AtLeast(k: nat, d: nat)
    requires k >= 1
    ensures k * d >= d
  {
  }

  lemma NotTriedYet(addresses: nat, opens: seq<bool>)
    ensures Redirected([], false) && InTurns([], addresses) && Opened(opens, 0) && AddressBefore(0, addresses) == -1
  {
  }

  /** Two attempts by one tool object. If the first had nothing to delete, the second succeeds in peace.
      If it had, the second fails as soon as the first has got through its scan or has changed anything;
      and that does happen, whatever there was to delete, when the MDS goes down in the first
      deletion. */
  method SecondAttempt(mds: Mds, m: ClusterMap, later: seq<Fate>)
    returns (first: int, second: int, ghost mid: Moment)
    requires WellFormed(mds.t)
    modifies mds
    ensures WellFormed(mds.t) && WellFormed(mid.t)
    ensures mid.calls != old(mds.calls) && Scheduled(DelsOf(PlanFor(old(mds.t), m))) ==> second < 0
    ensures Scheduled(DelsOf(PlanFor(old(mds.t), m))) && CutAfterScan(old(mds.fates), PlanFor(old(mds.t), m)) ==>
              first == REDIRECT_MDS && mid.calls != old(mds.calls) && second < 0
    ensures Scheduled(DelsOf(PlanFor(old(mds.t), m))) && Quiet(old(mds.fates), ScanCost(PlanFor(old(mds.t), m))) ==> second < 0
    ensures !Scheduled(DelsOf(PlanFor(old(mds.t), m))) && AllDelivered(later) && PoolsetsDeclared(m) ==> second == 0
    ensures LogGrew(old(mds.Now()), mid, m) && (second < 0 ==> second == Verdict(mds.last))
    ensures Spares(old(mds.t), mds.t, PlanFor(old(mds.t), m))
  {
    hide LinkedAt, PoolsetsNamed, Numbered, PlanOf, LogGrew, Carries, Converged, Roomy, LeftOver, NextWants, Scheduled, ClashFree,
         PoolsetsDeclared, Planned, ResultKeys, CutAfterScan, Fewer, Quiet, ScanCost, Verdict, Spares,
         PoolsetsLaid, PoolsLaid, ZonesLaid;
    var tool := new CurvefsTools(mds);
    FreshTool(tool, m);
    first := tool.HandleBuildCluster(m);
    mid := mds.Now();
    mds.fates := later;
    LeftAfterReading(mds.t, tool.Read(), tool.ToAdd(), tool.ToDel(), m);
    NothingListedIsBusy(old(mds.t), PlanFor(old(mds.t), m));
    second := tool.HandleBuildCluster(m);
    SparesAcross(old(mds.t), mid.t, mds.t, m);
  }

  lemma NothingListedIsBusy(t: Topology, p: Plan)
    requires t.HasShape()
    ensures !Scheduled(DelsOf(p)) ==> NoneBusy(t, p)
  {
  }
}
