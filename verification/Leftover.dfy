/** What an unfinished run leaves in the lists of the tool, and what that means for the next
    run of the same tool object: the lists are appended to and never emptied. */
module Leftover {
  import opened ListDiff
  import opened Topology
  import opened ClusterMap
  import opened MdsService
  import opened ScanPlan
  import opened Execution

  ghost predicate Within(a: seq<nat>, b: seq<nat>) {
    forall x | x in a :: x in b
  }

  ghost predicate SameIds(a: seq<nat>, b: seq<nat>) {
    Within(a, b) && Within(b, a)
  }

  ghost predicate Present(ids: seq<nat>, l: Level) {
    forall x | x in ids :: x in l
  }

  /** Some node is listed for deletion. */
  ghost predicate Scheduled(d: Lists) {
    d.poolsets != [] || d.pools != [] || d.zones != [] || d.servers != []
  }

  /** Some node that is listed for deletion is not there. */
  ghost predicate Spent(t: Topology, d: Lists)
    requires t.HasShape()
  {
    || !Present(d.poolsets, t.levels[POOLSET]) || !Present(d.pools, t.levels[POOL])
    || !Present(d.zones, t.levels[ZONE]) || !Present(d.servers, t.levels[SERVER])
  }

  /** All but the servers that are listed for deletion are there. */
  ghost predicate UppersPresent(t: Topology, d: Lists) {
    && t.HasShape() && Present(d.poolsets, t.levels[POOLSET]) && Present(d.pools, t.levels[POOL])
    && Present(d.zones, t.levels[ZONE])
  }

  /** A new scan would list every listed node again. */
  ghost predicate Pending(p: Plan, d: Lists) {
    && Within(d.poolsets, p.poolsets.del) && Within(d.pools, p.pools.del)
    && Within(d.zones, p.zones.del) && Within(d.servers, p.servers.del)
  }

  /** Whatever is listed and still there is in the list of nodes to delete. */
  ghost predicate Just(l: Level, ids: seq<nat>, del: seq<nat>) {
    forall x | x in ids && x in l :: x in del
  }

  /** No listed node is one that would stay. */
  ghost predicate Justly(t: Topology, p: Plan, d: Lists)
    requires t.HasShape()
  {
    && Just(t.levels[POOLSET], d.poolsets, p.poolsets.del) && Just(t.levels[POOL], d.pools, p.pools.del)
    && Just(t.levels[ZONE], d.zones, p.zones.del) && Just(t.levels[SERVER], d.servers, p.servers.del)
  }

  lemma SpentOrPending(t: Topology, p: Plan, d: Lists)
    requires t.HasShape() && Justly(t, p, d)
    ensures Spent(t, d) || Pending(p, d)
  {
  }

  lemma NothingPending(p: Plan, d: Lists)
    ensures !Scheduled(d) ==> Pending(p, d)
  {
  }

  ghost predicate NoRepeats(d: Lists) {
    NoDup(d.poolsets) && NoDup(d.pools) && NoDup(d.zones) && NoDup(d.servers)
  }

  ghost predicate Extends(a: Lists, b: Lists) {
    a.poolsets <= b.poolsets && a.pools <= b.pools && a.zones <= b.zones && a.servers <= b.servers
  }

  /** The deletions cannot all succeed: a node is not there or is listed twice. */
  ghost predicate Doomed(t: Topology, d: Lists)
    requires t.HasShape()
  {
    Spent(t, d) || !NoRepeats(d)
  }

  /** Nothing new on any level. */
  ghost predicate Shrinks(t: Topology, t': Topology) {
    && t.HasShape() && t'.HasShape()
    && forall k: Kind :: t'.levels[k].Keys <= t.levels[k].Keys
  }

  lemma ShrinksReflexive(t: Topology)
    requires WellFormed(t)
    ensures t.HasShape() && Shrinks(t, t)
  {
    hide LinkedAt, PoolsetsNamed, Numbered;
  }

  lemma ShrinksTransitive(t: Topology, t': Topology, t'': Topology, k: Kind)
    requires Shrinks(t, t') && Shrinks(t', t'')
    ensures Shrinks(t, t'')
    ensures forall x | x in t''.levels[k] :: x in t'.levels[k]
    ensures forall x | x in t'.levels[k] :: x in t.levels[k]
  {
    assert forall j: Kind :: t''.levels[j].Keys <= t'.levels[j].Keys <= t.levels[j].Keys;
    assert forall x | x in t''.levels[k] :: x in t''.levels[k].Keys;
    assert forall x | x in t'.levels[k] :: x in t'.levels[k].Keys;
  }

  /** A deletion succeeds only on a node that is there, and takes nothing else away. */
  lemma DeletionTakesNode(t: Topology, t': Topology, k: Kind, id: nat, code: int)
    requires Answers(Call(Delete(k, id), code, t, t'))
    ensures code <= 0 && Shrinks(t, t') && (t' == t || (id !in t'.levels[k] && Shrunk(t, t', k, id)))
    ensures code == SUCCESS ==> id in t.levels[k] && id !in t'.levels[k]
    ensures code == CANNOT_DELETE_DEFAULT_POOLSET <==> k == POOLSET && id == DEFAULT_POOLSET_ID && id in t.levels[k]
  {
    if code == SUCCESS {
      assert t'.levels[k].Keys == t.levels[k].Keys - {id};
      assert id !in t'.levels[k].Keys;
    }
  }

  lemma PresentBefore(t: Topology, t': Topology, k: Kind, ids: seq<nat>)
    requires Shrinks(t, t')
    ensures Present(ids, t'.levels[k]) ==> Present(ids, t.levels[k])
  {
    assert forall x | x in t'.levels[k] :: x in t'.levels[k].Keys && x in t.levels[k].Keys;
  }

  lemma SpentStaysSpent(t: Topology, t': Topology, d: Lists)
    requires Shrinks(t, t') && Spent(t, d)
    ensures Spent(t', d)
  {
    forall k: Kind, ids | !Present(ids, t.levels[k]) ensures !Present(ids, t'.levels[k]) {
      var x :| x in ids && x !in t.levels[k];
      assert x !in t'.levels[k].Keys;
    }
  }

  /** What is gone after some deletions is gone after some more. */
  lemma ShrinksOn(t: Topology, t': Topology, t'': Topology, d: Lists)
    requires Shrinks(t, t') && Shrinks(t', t'')
    ensures Shrinks(t, t'') && (Spent(t', d) ==> Spent(t'', d))
  {
    hide Spent;
    ShrinksTransitive(t, t', t'', 1);
    if Spent(t', d) {
      SpentStaysSpent(t', t'', d);
    }
  }

  lemma SpentGrows(t: Topology, a: Lists, b: Lists)
    requires t.HasShape() && Extends(a, b) && Spent(t, a)
    ensures Spent(t, b)
  {
    forall l, xs: seq<nat>, ys | xs <= ys && Present(ys, l) ensures Present(xs, l) {
      assert forall i | 0 <= i < |xs| :: xs[i] == ys[i];
    }
  }

  /** Nodes that a plan deleted are gone for good. */
  lemma DeletedForGood(t0: Topology, t1: Topology, cs: seq<Call>, t: Topology, m: ClusterMap, p: Plan)
    requires WellFormed(t0) && Planned(t0, m, p) && Cleared(t0, t1, DeletedIds(p)) && Leads(t1, cs, t, m) && t.HasShape()
    ensures forall k: Kind, x | x in DelsAt(p, k) :: x !in t.levels[k]
    ensures Scheduled(DelsOf(p)) ==> Spent(t, DelsOf(p))
  {
    hide LinkedAt, PoolsetsNamed, LevelPlanned, Leads, Wanted;
    forall k: Kind, x | x in DelsAt(p, k) ensures x !in t.levels[k] {
      NextDeleted(t0, m, p, k, x);
      assert t1.levels[k].Keys == t0.levels[k].Keys - DeletedIds(p)[k];
      assert x !in t1.levels[k].Keys;
      NeverRevived(t1, cs, t, m, k, x);
    }
    SomethingSpent(t, p);
  }

  lemma NextDeleted(t0: Topology, m: ClusterMap, p: Plan, k: Kind, x: nat)
    requires WellFormed(t0) && Planned(t0, m, p) && x in DelsAt(p, k)
    ensures x in t0.levels[k] && x <= t0.lastIds[k] && x in DeletedIds(p)[k]
  {
    hide LinkedAt, PoolsetsNamed, LevelPlanned, Wanted;
    if k == POOLSET {
      PlanDeletes(t0, POOLSET, [0], p.poolsets, PoolsetKey, Wanted(m, POOLSET));
    } else if k == POOL {
      PlanDeletes(t0, POOL, p.poolsets.kept, p.pools, PoolKey, Wanted(m, POOL));
    } else if k == ZONE {
      PlanDeletes(t0, ZONE, p.pools.kept, p.zones, ZoneKey, Wanted(m, ZONE));
    } else {
      PlanDeletes(t0, SERVER, p.zones.kept, p.servers, ServerKey, Wanted(m, SERVER));
    }
    assert x in t0.levels[k].Keys;
  }

  lemma SomethingSpent(t: Topology, p: Plan)
    requires t.HasShape() && forall k: Kind, x | x in DelsAt(p, k) :: x !in t.levels[k]
    ensures Scheduled(DelsOf(p)) ==> Spent(t, DelsOf(p))
  {
    var d := DelsOf(p);
    if d.poolsets != [] {
      assert d.poolsets[0] in DelsAt(p, POOLSET);
    } else if d.pools != [] {
      assert d.pools[0] in DelsAt(p, POOL);
    } else if d.zones != [] {
      assert d.zones[0] in DelsAt(p, ZONE);
    } else if d.servers != [] {
      assert d.servers[0] in DelsAt(p, SERVER);
    }
  }

  // ---------------------------------------------------------------- scanning again

  lemma {:induction false} ListUnderMember(l: Level, ids: seq<nat>, c: nat)
    ensures c in ListUnder(l, ids) <==> exists p :: p in ids && p in l && c in l[p].children
  {
    if ids != [] {
      var n := |ids| - 1;
      ListUnderMember(l, ids[..n], c);
      assert ids == ids[..n] + [ids[n]];
    }
  }

  lemma ListUnderWithin(l: Level, a: seq<nat>, b: seq<nat>)
    requires Within(a, b)
    ensures Within(ListUnder(l, a), ListUnder(l, b))
  {
    forall c | c in ListUnder(l, a) ensures c in ListUnder(l, b) {
      ListUnderMember(l, a, c);
      ListUnderMember(l, b, c);
    }
  }

  /** A list that is scanned again repeats what it held. */
  lemma ListedTwice(left: seq<nat>, more: seq<nat>)
    requires left != [] && Within(left, more)
    ensures !NoDup(left + more)
  {
    assert left[0] in more;
    var i :| 0 <= i < |more| && more[i] == left[0];
    var all := left + more;
    assert all[0] == all[|left| + i];
  }

  /** How the lists of one level come out of a scan that plans p for the level. No node that stays gets
      listed. When the nodes listed beforehand are pending, only nodes to delete are listed; when
      the level is done, all of them, and those listed beforehand twice. When nothing was
      listed, the lists are the plan's. */
  ghost predicate LevelStep<E>(l: Level, left: seq<nat>, now: seq<nat>, add: seq<E>, p: LevelPlan<E>, all: seq<E>, name: E -> Key,
                               just: bool, pending: bool, clean: bool, done: bool) {
    && left <= now && PartOf(add, all, name)
    && (just ==> Just(l, now, p.del))
    && (pending ==> Within(now, p.del))
    && (pending && done ==> SameIds(now, p.del) && (NoDup(now) ==> left == []))
    && (clean && done ==> now == p.del && add == p.add)
  }

  /** A scan in progress: its plan, the entries it looks for, and whether the nodes listed beforehand
      are justly listed, are pending, or there were none. */
  datatype Scan = Scan(p: Plan, w: Wants, m: ClusterMap, just: bool, pending: bool, clean: bool)

  /** What the scan of a level that is done hands on to the next level. */
  lemma StepGives<E>(l: Level, left: seq<nat>, now: seq<nat>, add: seq<E>, p: LevelPlan<E>, all: seq<E>, name: E -> Key,
                     just: bool, pending: bool, clean: bool)
    requires LevelStep(l, left, now, add, p, all, name, just, pending, clean, true)
    ensures just ==> Just(l, now, p.del)
    ensures pending ==> SameIds(now, p.del)
    ensures clean ==> now == p.del
  {
  }

  lemma LevelScanned<E>(t: Topology, k: Kind, upKept: seq<nat>, upDel: seq<nat>, upDel': seq<nat>,
                        want: seq<E>, all: seq<E>, key: E -> Key, name: E -> Key, pinned: Key -> bool,
                        left: seq<nat>, now: seq<nat>, add: seq<E>, just: bool, pending: bool, clean: bool, done: bool)
    requires t.HasShape() && Rearranges(want, all, name) && Distinct(want, key)
    requires just ==> Just(t.levels[k - 1], upDel', upDel)
    requires just ==> Just(t.levels[k], left, ScanLevel(t, k, upKept, upDel, want, key, pinned).del)
    requires pending ==> SameIds(upDel', upDel)
    requires pending ==> Within(left, ScanLevel(t, k, upKept, upDel, want, key, pinned).del)
    requires clean ==> pending && left == [] && upDel' == upDel
    requires done ==> var q := ScanLevel(t, k, upKept, upDel', want, key, pinned); now == left + q.del && add == q.add
    requires !done ==> add == want && (now == left || now == left + ListUnder(t.levels[k - 1], upDel'))
    ensures LevelStep(t.levels[k], left, now, add, ScanLevel(t, k, upKept, upDel, want, key, pinned), all, name, just, pending, clean, done)
    ensures ScanLevel(t, k, upKept, upDel', want, key, pinned).kept == ScanLevel(t, k, upKept, upDel, want, key, pinned).kept
  {
    hide ScanLevel, ListUnder, NoDup, Distinct, Within, SameIds, Just;
    ScannedJustly(t, k, upKept, upDel, upDel', want, key, pinned, left);
    if pending {
      ScannedAgain(t, k, upKept, upDel, upDel', want, key, pinned, left);
      WithinItself(left, ScanLevel(t, k, upKept, upDel, want, key, pinned).del);
    }
    if done {
      AddsArePart(t, k, upKept, upDel', want, all, key, name, pinned);
    }
  }

  /** Scanning a level lists no node that stays if the nodes listed above and before do not. */
  lemma ScannedJustly<E>(t: Topology, k: Kind, upKept: seq<nat>, upDel: seq<nat>, upDel': seq<nat>,
                         want: seq<E>, key: E -> Key, pinned: Key -> bool, left: seq<nat>)
    requires t.HasShape()
    ensures var p, q := ScanLevel(t, k, upKept, upDel, want, key, pinned), ScanLevel(t, k, upKept, upDel', want, key, pinned);
            && q.kept == p.kept
            && (Just(t.levels[k - 1], upDel', upDel) && Just(t.levels[k], left, p.del) ==>
                  && Just(t.levels[k], left + q.del, p.del)
                  && Just(t.levels[k], left + ListUnder(t.levels[k - 1], upDel'), p.del))
  {
    hide ListUnder, Match, KeyAt;
    var up := t.levels[k - 1];
    if Just(up, upDel', upDel) {
      forall c | c in ListUnder(up, upDel') ensures c in ListUnder(up, upDel) {
        ListUnderMember(up, upDel', c);
        ListUnderMember(up, upDel, c);
      }
    }
  }

  lemma WithinItself(a: seq<nat>, b: seq<nat>)
    ensures SameIds(a, b) ==> Within(a, b)
    ensures forall c :: SameIds(c, b) ==> Within(c, b)
  {
  }

  /** Scanning a level again: the same nodes stay, the same entries are missing, and the leftovers and
      the nodes listed now are together the nodes to delete. */
  lemma ScannedAgain<E>(t: Topology, k: Kind, upKept: seq<nat>, upDel: seq<nat>, upDel': seq<nat>,
                        want: seq<E>, key: E -> Key, pinned: Key -> bool, left: seq<nat>)
    requires t.HasShape() && SameIds(upDel', upDel)
    requires Within(left, ScanLevel(t, k, upKept, upDel, want, key, pinned).del)
    ensures var p, q := ScanLevel(t, k, upKept, upDel, want, key, pinned), ScanLevel(t, k, upKept, upDel', want, key, pinned);
            && q.kept == p.kept && q.add == p.add
            && SameIds(left + q.del, p.del)
            && Within(left + ListUnder(t.levels[k - 1], upDel'), p.del)
            && (NoDup(left + q.del) ==> left == [])
  {
    hide ListUnder, Match, KeyAt, NoDup;
    ListUnderWithin(t.levels[k - 1], upDel, upDel');
    ListUnderWithin(t.levels[k - 1], upDel', upDel);
    if left != [] {
      ListedTwice(left, ScanLevel(t, k, upKept, upDel', want, key, pinned).del);
    }
  }

  /** The entries left to add on one level are some of the wanted ones. */
  lemma AddsArePart<E>(t: Topology, k: Kind, upKept: seq<nat>, upDel: seq<nat>, want: seq<E>, all: seq<E>,
                       key: E -> Key, name: E -> Key, pinned: Key -> bool)
    requires t.HasShape() && Rearranges(want, all, name) && Distinct(want, key)
    ensures PartOf(ScanLevel(t, k, upKept, upDel, want, key, pinned).add, all, name)
  {
    hide ScanLevel;
    ScanLevelAdds(t, k, upKept, upDel, want, key, pinned);
    PartTellsApart(ScanLevel(t, k, upKept, upDel, want, key, pinned).add, want, key, name);
  }

  // ---------------------------------------------------------------- configured again

  /** The configured entries have been read in never or some number of times. */
  ghost predicate Copies<E>(xs: seq<E>, ys: seq<E>) {
    xs == [] || StartsOver(xs, ys)
  }

  lemma ReadAgain<E>(xs: seq<E>, ys: seq<E>)
    requires Copies(xs, ys)
    ensures StartsOver(xs + ys, ys)
  {
    if xs == [] {
      assert xs + ys == ys;
    }
  }

  lemma PoolsStartOver(xs: seq<ServerData>, ys: seq<ServerData>)
    requires StartsOver(xs, ys)
    ensures StartsOver(Pools(xs), Pools(ys)) && StartsOver(Zones(xs), Zones(ys))
  {
    assert forall i | 0 <= i < |ys| :: xs[i] == ys[i];
    forall i | 0 <= i < |xs| ensures Pools(xs)[i] in Pools(ys) && Zones(xs)[i] in Zones(ys) {
      assert xs[i] in ys;
      var j :| 0 <= j < |ys| && ys[j] == xs[i];
      assert Pools(ys)[j] == Pools(xs)[i] && Zones(ys)[j] == Zones(xs)[i];
    }
  }

  /** The entries that the lists hold are some of those that the map asks for. */
  ghost predicate Partial(w: Wants, m: ClusterMap) {
    && PartOf(w.poolsets, WantPoolsets(m), PoolsetKey)
    && PartOf(w.pools, WantPools(m), PoolName)
    && PartOf(w.zones, WantZones(m), ZoneKey)
    && PartOf(w.servers, WantServers(m), ServerName)
  }

  /** What the next scan looks for: the leftovers and the configured entries, without repeats. */
  ghost function NextWants(left: Wants, read: ClusterMap): Wants {
    Wants(Dedup(left.poolsets, read.poolsets, PoolsetKey), Dedup(left.pools, Pools(read.servers), PoolName),
          Dedup(left.zones, Zones(read.servers), ZoneKey), Dedup(left.servers, read.servers, ServerName))
  }

  /** p is the plan of a scan for what the map asks for. */
  ghost predicate Plans(p: Plan, t: Topology, w: Wants, m: ClusterMap) {
    t.HasShape() && Asks(w, m) && p == PlanOf(t, w)
  }

  /** A scan that has not begun. */
  lemma ScanBegins(t: Topology, s: Scan, d0: Lists, w: Wants)
    requires t.HasShape() && s.just == Justly(t, s.p, d0) && s.pending == Pending(s.p, d0) && s.clean == !Scheduled(d0)
    requires Partial(w, s.m)
    ensures s.just ==> Just(t.levels[POOLSET], d0.poolsets, s.p.poolsets.del) && Just(t.levels[POOL], d0.pools, s.p.pools.del)
    ensures s.just ==> Just(t.levels[ZONE], d0.zones, s.p.zones.del) && Just(t.levels[SERVER], d0.servers, s.p.servers.del)
    ensures s.pending ==> Within(d0.poolsets, s.p.poolsets.del) && Within(d0.pools, s.p.pools.del)
    ensures s.pending ==> Within(d0.zones, s.p.zones.del) && Within(d0.servers, s.p.servers.del)
    ensures s.clean ==> s.pending && d0 == Lists([], [], [], [])
    ensures LevelStep(t.levels[POOL], d0.pools, d0.pools, w.pools, s.p.pools, WantPools(s.m), PoolName, s.just, s.pending, s.clean, false)
    ensures LevelStep(t.levels[ZONE], d0.zones, d0.zones, w.zones, s.p.zones, WantZones(s.m), ZoneKey, s.just, s.pending, s.clean, false)
    ensures LevelStep(t.levels[SERVER], d0.servers, d0.servers, w.servers, s.p.servers, WantServers(s.m), ServerName, s.just, s.pending, s.clean, false)
  {
    hide Just, Within, SameIds, PartOf, NoDup, WantPoolsets, WantPools, WantZones, WantServers;
    NothingPending(s.p, d0);
  }

  /** How the lists come out of a scan. With nothing listed for deletion beforehand they become those of the
      plan. Otherwise they grow, and a node that was to be deleted and still is gets listed
      twice. Nodes that stay are not listed if none was. */
  ghost predicate Scanned(t: Topology, p: Plan, m: ClusterMap, d0: Lists, d: Lists, w: Wants, done: bool) {
    && t.HasShape() && Partial(w, m) && Extends(d0, d)
    && (Justly(t, p, d0) ==> Justly(t, p, d))
    && (Pending(p, d0) ==> Pending(p, d))
    && (done && Pending(p, d0) && NoRepeats(d) ==> !Scheduled(d0))
    && (done && !Scheduled(d0) ==> d == DelsOf(p) && w == AddsOf(p))
  }

  /** The four levels of a scan together; done is the last level that is done. */
  lemma StepsTogether(t: Topology, s: Scan, d0: Lists, d: Lists, w: Wants, done: nat)
    requires t.HasShape() && s.just == Justly(t, s.p, d0) && s.pending == Pending(s.p, d0) && s.clean == !Scheduled(d0)
    requires LevelStep(t.levels[POOLSET], d0.poolsets, d.poolsets, w.poolsets, s.p.poolsets, WantPoolsets(s.m), PoolsetKey, s.just, s.pending, s.clean, POOLSET <= done)
    requires LevelStep(t.levels[POOL], d0.pools, d.pools, w.pools, s.p.pools, WantPools(s.m), PoolName, s.just, s.pending, s.clean, POOL <= done)
    requires LevelStep(t.levels[ZONE], d0.zones, d.zones, w.zones, s.p.zones, WantZones(s.m), ZoneKey, s.just, s.pending, s.clean, ZONE <= done)
    requires LevelStep(t.levels[SERVER], d0.servers, d.servers, w.servers, s.p.servers, WantServers(s.m), ServerName, s.just, s.pending, s.clean, SERVER <= done)
    ensures Scanned(t, s.p, s.m, d0, d, w, done == SERVER)
  {
    hide Just, Within, SameIds, PartOf, NoDup, WantPoolsets, WantPools, WantZones, WantServers;
    NothingPending(s.p, d0);
  }

  /** What the scan of a level needs to know about the entries and the plan. */
  lemma ScanStarts(t: Topology, p: Plan, w: Wants, m: ClusterMap)
    requires WellFormed(t) && Plans(p, t, w, m)
    ensures Distinct(w.poolsets, PoolsetKey) && Distinct(w.pools, PoolKey)
    ensures Distinct(w.zones, ZoneKey) && Distinct(w.servers, ServerKey)
    ensures UppersPresent(t, KeptOf(p)) && UppersPresent(t, DelsOf(p)) && DEFAULT_POOLSET_ID !in p.poolsets.del
  {
    hide LinkedAt, PoolsetsNamed, Numbered, PlanOf, Wanted, InjectiveOn, KeysOn, KeysOf, Distinct, NoDup,
         WantPoolsets, WantPools, WantZones, WantServers;
    AskedKeys(w, m);
    PlanIsRight(t, w, m);
  }

  lemma PlanLevels(t: Topology, p: Plan, w: Wants, m: ClusterMap)
    requires Plans(p, t, w, m)
    ensures Rearranges(w.poolsets, WantPoolsets(m), PoolsetKey) && Rearranges(w.pools, WantPools(m), PoolName)
    ensures Rearranges(w.zones, WantZones(m), ZoneKey) && Rearranges(w.servers, WantServers(m), ServerName)
    ensures p.poolsets == ScanLevel(t, POOLSET, [0], [], w.poolsets, PoolsetKey, IsDefault)
    ensures p.pools == ScanLevel(t, POOL, p.poolsets.kept, p.poolsets.del, w.pools, PoolKey, Never)
    ensures p.zones == ScanLevel(t, ZONE, p.pools.kept, p.pools.del, w.zones, ZoneKey, Never)
    ensures p.servers == ScanLevel(t, SERVER, p.zones.kept, p.zones.del, w.servers, ServerKey, Never)
    ensures SameIds([], []) && Just(t.levels[ROOT], [], [])
  {
    hide ScanLevel, Rearranges;
  }

  lemma ScanLevelIs<E>(t: Topology, k: Kind, upKept: seq<nat>, upDel: seq<nat>, want: seq<E>, key: E -> Key, pinned: Key -> bool)
    requires t.HasShape()
    ensures var d := Match(InfosAt(t, k, ListUnder(t.levels[k - 1], upKept)), want, key, pinned);
            ScanLevel(t, k, upKept, upDel, want, key, pinned) ==
            LevelPlan(Ids(d.kept), ListUnder(t.levels[k - 1], upDel) + Ids(d.dropped), d.missing)
    ensures ListUnder(t.levels[k - 1], []) == []
  {
    hide Match, KeyAt;
  }

  lemma RootListed(t: Topology)
    requires WellFormed(t)
    ensures t.HasShape() && Present([0], t.levels[ROOT])
  {
    hide LinkedAt, PoolsetsNamed, Numbered;
    assert 0 in t.levels[ROOT].Keys;
  }

  /** A scan looks for what the map asks for, whatever was left over. */
  lemma NextWantsAsk(left: Wants, read: ClusterMap, m: ClusterMap)
    requires Partial(left, m) && StartsOver(read.poolsets, m.poolsets) && StartsOver(read.servers, m.servers)
    ensures Asks(NextWants(left, read), m)
  {
    hide Dedup, PartOf, Rearranges;
    PoolsStartOver(read.servers, m.servers);
    DedupAgain(left.poolsets, read.poolsets, m.poolsets, PoolsetKey);
    DedupAgain(left.pools, Pools(read.servers), Pools(m.servers), PoolName);
    DedupAgain(left.zones, Zones(read.servers), Zones(m.servers), ZoneKey);
    DedupAgain(left.servers, read.servers, m.servers, ServerName);
  }

  // ---------------------------------------------------------------- from run to run

  /** What runs for the map leave behind: entries of the map to add, and for deletion nodes that are
      gone and nodes that a new scan would list once more. */
  ghost predicate LeftOver(t: Topology, read: ClusterMap, add: Wants, del: Lists, m: ClusterMap) {
    && t.HasShape()
    && Copies(read.poolsets, m.poolsets) && Copies(read.servers, m.servers)
    && Partial(add, m) && DEFAULT_POOLSET_ID !in del.poolsets
    && Justly(t, PlanFor(t, m), del)
  }

  ghost function ReadOnce(read: ClusterMap, m: ClusterMap): ClusterMap {
    ClusterMap(read.poolsets + m.poolsets, read.servers + m.servers)
  }

  /** Reading the map in again prepares a right plan, the same as ever but for the order of entries. */
  lemma LeftAfterReading(t: Topology, read: ClusterMap, add: Wants, del: Lists, m: ClusterMap)
    requires WellFormed(t) && LeftOver(t, read, add, del, m)
    ensures LeftOver(t, ReadOnce(read, m), add, del, m) && Partial(add, m) && DEFAULT_POOLSET_ID !in del.poolsets
    ensures var w := NextWants(add, ReadOnce(read, m));
            && Plans(PlanOf(t, w), t, w, m) && Planned(t, m, PlanOf(t, w))
            && DelsOf(PlanOf(t, w)) == DelsOf(PlanFor(t, m)) && Justly(t, PlanOf(t, w), del)
  {
    hide LinkedAt, PoolsetsNamed, Numbered, PlanOf, Partial, Planned, Asks, NextWants, StartsOver;
    ReadAgain(read.poolsets, m.poolsets);
    ReadAgain(read.servers, m.servers);
    var w := NextWants(add, ReadOnce(read, m));
    NextWantsAsk(add, ReadOnce(read, m), m);
    PlanIsRight(t, w, m);
    MapAsks(m);
    SameSplit(t, w, WantsOf(m), m);
  }

  lemma LeftAfterScan(t: Topology, read: ClusterMap, add: Wants, del: Lists, add': Wants, del': Lists, m: ClusterMap, p: Plan)
    requires LeftOver(t, read, add, del, m) && DelsOf(p) == DelsOf(PlanFor(t, m))
    requires Partial(add', m) && Extends(del, del') && DEFAULT_POOLSET_ID !in del'.poolsets
    requires Justly(t, p, del')
    ensures LeftOver(t, read, add', del', m)
    ensures Scheduled(del) && (Pending(p, del) && NoRepeats(del') ==> !Scheduled(del)) ==> Doomed(t, del')
  {
    hide PlanFor, Partial, Copies, Within, Present, NoDup, Just;
    SpentOrPending(t, p, del);
    if Spent(t, del) {
      SpentGrows(t, del, del');
    }
  }

  lemma LeftAfterRun(t0: Topology, t: Topology, read: ClusterMap, add: Wants, del: Lists, m: ClusterMap)
    requires LeftOver(t0, read, add, del, m) && t.HasShape() && Justly(t, PlanFor(t, m), del)
    ensures LeftOver(t, read, add, del, m)
  {
  }

  lemma StillListed(del: Lists, del': Lists, p: Plan)
    requires Extends(del, del') && (Pending(p, del) ==> Pending(p, del'))
    ensures Scheduled(del) ==> Scheduled(del')
    ensures !Scheduled(del) && !Scheduled(DelsOf(p)) ==> !Scheduled(del')
  {
    NothingPending(p, del);
    forall xs: seq<nat> | Within(xs, []) ensures xs == [] {
      if xs != [] {
        NonEmptyHasMember(xs);
      }
    }
  }
}
