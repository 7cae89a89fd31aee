/** Carrying out a scan plan: what the topology looks like after some of the planned
    deletions and creations, and why no planned call comes at a wrong moment. */
module Execution {
  import opened ListDiff
  import opened Topology
  import opened ClusterMap
  import opened MdsService
  import opened ScanPlan

  // ---------------------------------------------------------------- proper calls

  /** The call asks for something that the map wants and that is not there yet, or to delete a node that
      a scan at that moment would delete, and never the default poolset. */
  ghost predicate Asked(op: Op, t: Topology, m: ClusterMap)
    requires t.HasShape()
  {
    match op
    case Delete(k, id) => id in DelsAt(PlanFor(t, m), k) && (k == POOLSET ==> id != DEFAULT_POOLSET_ID)
    case CreatePoolset(d) =>
      PoolsetKey(d) in Wanted(m, POOLSET) && !IsDefault(PoolsetKey(d)) && PoolsetKey(d) !in Keys(t, POOLSET).Values
    case CreatePhysicalPool(d) => PoolKey(d) in Wanted(m, POOL) && PoolKey(d) !in Keys(t, POOL).Values
    case CreateZone(d) => ZoneKey(d) in Wanted(m, ZONE) && ZoneKey(d) !in Keys(t, ZONE).Values
    case RegistServer(d) =>
      d in WantServers(m) && ServerKey(d) in Wanted(m, SERVER) && ServerKey(d) !in Keys(t, SERVER).Values
  }

  /** The MDS refused nothing for reasons of order: a refused deletion is that of a server with
      live chunkservers, a refused creation is that of a pool in an undeclared poolset or of
      a server whose address is taken. */
  ghost predicate Orderly(c: Call, m: ClusterMap) {
    || Done(c)
    || (c.op.Delete? && c.op.kind == SERVER && c.code == CANNOT_REMOVE_WHEN_NOT_EMPTY)
    || (c.op.CreatePhysicalPool? && c.code == POOLSET_NOT_FOUND && !PoolsetsDeclared(m))
    || (c.op.RegistServer? && c.code == IP_PORT_DUPLICATED)
  }

  ghost predicate Proper(c: Call, m: ClusterMap) {
    WellFormed(c.before) && WellFormed(c.after) && Answers(c) && Asked(c.op, c.before, m) && Orderly(c, m)
  }

  /** Proper calls that lead from one topology to another, each where the last one left off. */
  ghost predicate Leads(t: Topology, cs: seq<Call>, t': Topology, m: ClusterMap) {
    if cs == [] then t' == t
    else
      var c := cs[|cs| - 1];
      Proper(c, m) && c.after == t' && Leads(t, cs[..|cs| - 1], c.before, m)
  }

  lemma {:induction false} LeadsOn(t: Topology, a: seq<Call>, t': Topology, b: seq<Call>, t'': Topology, m: ClusterMap)
    requires Leads(t, a, t', m) && Leads(t', b, t'', m)
    ensures Leads(t, a + b, t'', m)
  {
    hide Proper;
    if b == [] {
      assert a + b == a;
    } else {
      var n := |b| - 1;
      LeadsOn(t, a, t', b[..n], b[n].before, m);
      assert (a + b)[..|a + b| - 1] == a + b[..n];
    }
  }

  /** The log grew by proper calls that account for the change of the topology. */
  ghost predicate LogGrew(a: Moment, b: Moment, m: ClusterMap) {
    a.calls <= b.calls && Leads(a.t, b.calls[|a.calls|..], b.t, m)
  }

  lemma LogLeads(a: Moment, b: Moment, m: ClusterMap)
    requires LogGrew(a, b, m)
    ensures a.calls <= b.calls && Leads(a.t, b.calls[|a.calls|..], b.t, m)
  {
  }

  lemma LogGrewReflexive(a: Moment, m: ClusterMap)
    ensures LogGrew(a, a, m)
  {
  }

  lemma LogGrewTransitive(a: Moment, b: Moment, c: Moment, m: ClusterMap)
    requires LogGrew(a, b, m) && LogGrew(b, c, m)
    ensures LogGrew(a, c, m)
  {
    hide Proper, Leads;
    LeadsOn(a.t, b.calls[|a.calls|..], b.t, c.calls[|b.calls|..], c.t, m);
    assert c.calls[|a.calls|..] == b.calls[|a.calls|..] + c.calls[|b.calls|..];
  }

  /** An id that has been handed out and is not in use is never in use again. */
  lemma {:induction false} NeverRevived(t: Topology, cs: seq<Call>, t': Topology, m: ClusterMap, k: Kind, x: nat)
    requires t.HasShape() && Leads(t, cs, t', m) && x !in t.levels[k] && x <= t.lastIds[k]
    ensures t'.HasShape() && x !in t'.levels[k] && x <= t'.lastIds[k]
  {
    if cs != [] {
      hide WellFormed, Answers, Orderly, Asked;
      var c := cs[|cs| - 1];
      ProperHasShape(c, m);
      NeverRevived(t, cs[..|cs| - 1], c.before, m, k, x);
      AnswerRevivesNone(c, k, x);
    }
  }

  lemma ProperHasShape(c: Call, m: ClusterMap)
    requires Proper(c, m)
    ensures c.before.HasShape() && c.after.HasShape()
  {
    hide Answers, Orderly, Asked, LinkedAt, PoolsetsNamed, Numbered;
  }

  /** What a successful call has done. */
  ghost predicate Effect(op: Op, t: Topology, t': Topology)
    requires t.HasShape() && t'.HasShape()
  {
    match op
    case Delete(k, id) => Shrunk(t, t', k, id)
    case CreatePoolset(d) => Grown(t, t', POOLSET, PoolsetKey(d), NO_HOST)
    case CreatePhysicalPool(d) => Grown(t, t', POOL, PoolKey(d), NO_HOST)
    case CreateZone(d) => Grown(t, t', ZONE, ZoneKey(d), NO_HOST)
    case RegistServer(d) => Grown(t, t', SERVER, ServerKey(d), d.host)
  }

  lemma AnswerHasEffect(c: Call)
    requires Answers(c)
    ensures c.before.HasShape() && c.after.HasShape()
    ensures if c.code == SUCCESS then Effect(c.op, c.before, c.after) else c.after == c.before
  {
    hide Named, AnyClash, ZoneIn, Shrunk, Grown;
  }

  lemma AnswerRevivesNone(c: Call, k: Kind, x: nat)
    requires Answers(c) && x !in c.before.levels[k] && x <= c.before.lastIds[k]
    ensures x !in c.after.levels[k] && x <= c.after.lastIds[k]
  {
    hide Answers, Grown;
    AnswerHasEffect(c);
    var t, t' := c.before, c.after;
    if c.code == SUCCESS {
      match c.op
      case Delete(j, id) =>
        assert t'.levels[k].Keys == t.levels[k].Keys - if k == j then {id} else {};
      case CreatePoolset(d) =>
        GrowthRevivesNone(t, t', POOLSET, PoolsetKey(d), NO_HOST, k, x);
      case CreatePhysicalPool(d) =>
        GrowthRevivesNone(t, t', POOL, PoolKey(d), NO_HOST, k, x);
      case CreateZone(d) =>
        GrowthRevivesNone(t, t', ZONE, ZoneKey(d), NO_HOST, k, x);
      case RegistServer(d) =>
        GrowthRevivesNone(t, t', SERVER, ServerKey(d), d.host, k, x);
    }
  }

  lemma GrowthRevivesNone(t: Topology, t': Topology, j: Kind, key: Key, host: Host, k: Kind, x: nat)
    requires t.HasShape() && t'.HasShape() && Grown(t, t', j, key, host) && x !in t.levels[k] && x <= t.lastIds[k]
    ensures x !in t'.levels[k] && x <= t'.lastIds[k]
  {
    hide KeyAt;
    var id :| GrownBy(t, t', j, id, key, host);
    assert Keys(t', k) == if k == j then Keys(t, k)[id := key] else Keys(t, k);
    assert x !in Keys(t, k);
    assert x !in Keys(t', k);
  }

  // ---------------------------------------------------------------- deleting

  /** t is t0 without the nodes in gone, level by level. */
  ghost predicate Cleared(t0: Topology, t: Topology, gone: seq<set<nat>>)
    requires |gone| == 5
  {
    && Agree(t0, t)
    && (forall j: Kind :: t.levels[j].Keys == t0.levels[j].Keys - gone[j])
    && t.hosts == t0.hosts - gone[SERVER]
    && t.levels[SERVER] == t0.levels[SERVER] - gone[SERVER]
    && t.lastIds == t0.lastIds
  }

  lemma NothingCleared(t: Topology, p: Plan)
    requires t.HasShape()
    ensures Cleared(t, t, DeletedBelow(p, SERVER))
  {
    assert t.hosts - {} == t.hosts;
    assert t.levels[SERVER] - {} == t.levels[SERVER];
    assert forall j: Kind :: DeletedBelow(p, SERVER)[j] == {};
  }

  lemma ClearStep(t0: Topology, t: Topology, t': Topology, gone: seq<set<nat>>, k: Kind, id: nat)
    requires |gone| == 5 && Cleared(t0, t, gone)
    requires WellFormed(t) && WellFormed(t') && Shrunk(t, t', k, id)
    ensures Cleared(t0, t', gone[k := gone[k] + {id}])
  {
    hide LinkedAt, PoolsetsNamed;
    var gone' := gone[k := gone[k] + {id}];
    assert t'.hosts == t0.hosts - gone'[SERVER];
    assert t'.levels[SERVER] == t0.levels[SERVER] - gone'[SERVER];
    forall j: Kind ensures t'.levels[j].Keys == t0.levels[j].Keys - gone'[j] {
      assert t.levels[j].Keys == t0.levels[j].Keys - gone[j];
    }
    forall j: nat, x | j <= 4 && x in t0.levels[j] && x in t'.levels[j] ensures x in t.levels[j] {
      if j != 0 {
        var kind: Kind := j;
        assert t'.levels[kind].Keys == t.levels[kind].Keys - if kind == k then {id} else {};
      }
    }
  }

  /** When all children of a node are gone, its child list is empty. */
  lemma ChildlessWhenGone(t0: Topology, t: Topology, gone: seq<set<nat>>, k: Kind, below: Kind, id: nat)
    requires |gone| == 5 && Cleared(t0, t, gone) && LinkedAt(t, below)
    requires below == k + 1 && id in t.levels[k]
    requires forall c | c in t0.levels[below] && t0.levels[below][c].parent == id :: c in gone[below]
    ensures t.levels[k][id].children == []
  {
    assert forall c | c in t.levels[below] :: t.levels[below][c].parent != id by {
      assert t.levels[below].Keys == t0.levels[below].Keys - gone[below];
      assert forall c | c in t.levels[below] :: c in t.levels[below].Keys;
      assert forall c | c in t.levels[below] :: c in t0.levels[below] && c !in gone[below];
    }
    ChildlessWithoutKids(t.levels[k], t.levels[below], id);
  }

  lemma ChildlessWithoutKids(ps: Level, ks: Level, id: nat)
    requires Linked(ps, ks) && id in ps && forall c | c in ks :: ks[c].parent != id
    ensures ps[id].children == []
  {
    if ps[id].children != [] {
      LinkedChild(ps, ks, id, ps[id].children[0]);
    }
  }

  lemma LinkedChild(ps: Level, ks: Level, id: nat, c: nat)
    requires Linked(ps, ks) && id in ps && c in ps[id].children
    ensures c in ks && ks[c].parent == id
  {
  }

  /** All children of the given nodes are gone. */
  ghost predicate ChildrenGone(t0: Topology, k: nat, ids: seq<nat>, gone: seq<set<nat>>)
    requires t0.HasShape() && |gone| == 5 && 1 <= k < SERVER
  {
    var below: Kind := k + 1;
    forall c | c in t0.levels[below] && t0.levels[below][c].parent in ids :: c in gone[below]
  }

  /** The next planned deletion finds its node, without children unless it is a server. */
  lemma DeletionFindsLeaf(t0: Topology, t: Topology, gone: seq<set<nat>>, k: Kind, ids: seq<nat>, id: nat)
    requires |gone| == 5 && Cleared(t0, t, gone) && WellFormed(t)
    requires id in ids && id in t0.levels[k] && id !in gone[k]
    requires k != SERVER ==> ChildrenGone(t0, k, ids, gone)
    ensures id in t.levels[k]
    ensures k != SERVER ==> t.levels[k][id].children == []
    ensures k == SERVER ==> t.levels[k][id].children == t0.levels[k][id].children
  {
    hide PoolsetsNamed, LinkedAt;
    assert t.levels[k].Keys == t0.levels[k].Keys - gone[k];
    if k != SERVER {
      WellFormedAt(t, k + 1);
      ChildlessWhenGone(t0, t, gone, k, k + 1, id);
    }
  }

  /** Whatever the MDS answers to such a deletion is in order. */
  lemma DeletionIsOrderly(t: Topology, t': Topology, k: Kind, id: nat, m: ClusterMap, code: int)
    requires t.HasShape() && id in t.levels[k]
    requires k == POOLSET ==> id != DEFAULT_POOLSET_ID
    requires k != SERVER ==> t.levels[k][id].children == []
    requires Answers(Call(Delete(k, id), code, t, t'))
    ensures Orderly(Call(Delete(k, id), code, t, t'), m)
    ensures t.levels[k][id].children != [] ==> code != SUCCESS
    ensures t.levels[k][id].children == [] ==> code == SUCCESS || code == STORAGE_FAIL
    ensures code == SUCCESS ==> t'.HasShape() && Shrunk(t, t', k, id)
    ensures code <= 0 && code != CANNOT_DELETE_DEFAULT_POOLSET
  {
    hide Shrunk;
  }

  /** The deletion of id is next in turn: it is there and its children are gone. */
  ghost predicate InTurn(t0: Topology, t: Topology, gone: seq<set<nat>>, k: Kind, ids: seq<nat>, id: nat) {
    && t0.HasShape() && |gone| == 5 && Cleared(t0, t, gone)
    && id in ids && id in t0.levels[k] && id !in gone[k]
    && (k != SERVER ==> ChildrenGone(t0, k, ids, gone))
  }

  /** The nodes can be deleted one after the other: they are there, listed once, and their children
      are gone. */
  ghost predicate Clearable(t0: Topology, t: Topology, gone: seq<set<nat>>, k: Kind, ids: seq<nat>) {
    && t0.HasShape() && |gone| == 5 && Cleared(t0, t, gone) && gone[k] == {}
    && NoDup(ids) && (forall x | x in ids :: x in t0.levels[k])
    && (k != SERVER ==> ChildrenGone(t0, k, ids, gone))
  }

  lemma NoneYet(t0: Topology, t: Topology, gone: seq<set<nat>>, k: Kind, ids: seq<nat>)
    ensures Clearable(t0, t, gone, k, ids) ==> |gone| == 5 && Cleared(t0, t, gone[k := ToSet(ids[..0])])
    ensures Clearable(t0, t, gone, k, ids) ==> t0.HasShape() && forall x | x in ids :: x in t0.levels[k]
  {
    hide Cleared, ChildrenGone;
    assert ToSet(ids[..0]) == {};
    if Clearable(t0, t, gone, k, ids) {
      assert gone == gone[k := {}];
    }
  }

  /** After the first n nodes the next one is in turn. */
  lemma TurnComes(t0: Topology, t1: Topology, t: Topology, gone: seq<set<nat>>, k: Kind, ids: seq<nat>, n: nat)
    requires Clearable(t0, t1, gone, k, ids) && n < |ids| && Cleared(t0, t, gone[k := ToSet(ids[..n])])
    ensures InTurn(t0, t, gone[k := ToSet(ids[..n])], k, ids, ids[n])
    ensures gone[k := ToSet(ids[..n + 1])] == gone[k := ToSet(ids[..n])][k := ToSet(ids[..n]) + {ids[n]}]
  {
    hide Cleared;
    assert forall i | 0 <= i < n :: ids[..n][i] == ids[i];
    assert ids[..n + 1] == ids[..n] + [ids[n]];
    assert ToSet(ids[..n + 1]) == ToSet(ids[..n]) + {ids[n]};
  }

  /** None of the servers has live chunkservers. */
  ghost predicate AllChildless(t: Topology, ids: seq<nat>)
    requires t.HasShape()
  {
    forall x | x in ids && x in t.levels[SERVER] :: t.levels[SERVER][x].children == []
  }

  // ---------------------------------------------------------------- creating

  /** On every level the nodes carry exactly the given keys, each once. */
  ghost predicate Carries(t: Topology, keys: seq<set<Key>>) {
    t.HasShape() && |keys| == 5 && forall j: Kind :: ExactlyOnce(Keys(t, j), keys[j])
  }

  /** The keys once the given entries have been created on level k. */
  ghost function With<E>(keys: seq<set<Key>>, k: Kind, es: seq<E>, key: E -> Key): seq<set<Key>>
    requires |keys| == 5
  {
    keys[k := keys[k] + KeysOf(es, key)]
  }

  lemma WithNothing<E>(keys: seq<set<Key>>, k: Kind, key: E -> Key)
    requires |keys| == 5
    ensures With(keys, k, [], key) == keys
  {
    assert keys[k] + KeysOf([], key) == keys[k];
  }

  lemma CreateStep(t: Topology, t': Topology, keys: seq<set<Key>>, k: Kind, key: Key, host: Host)
    requires Carries(t, keys) && t'.HasShape() && Grown(t, t', k, key, host) && key !in keys[k]
    ensures Carries(t', keys[k := keys[k] + {key}])
  {
    hide KeyAt;
    var id :| GrownBy(t, t', k, id, key, host);
    forall j: Kind ensures ExactlyOnce(Keys(t', j), keys[k := keys[k] + {key}][j]) {
      assert ExactlyOnce(Keys(t, j), keys[j]);
      if j == k {
        AddedOnce(Keys(t, k), keys[k], id, key);
      }
    }
  }

  lemma AddedOnce(m: map<nat, Key>, keys: set<Key>, id: nat, key: Key)
    requires ExactlyOnce(m, keys) && id !in m && key !in keys
    ensures ExactlyOnce(m[id := key], keys + {key})
  {
    var m' := m[id := key];
    forall x | x in m ensures m[x] in keys {
      assert m[x] in m.Values;
    }
    forall q | q in keys + {key} ensures q in m'.Values {
      if q in keys {
        var x :| x in m && m[x] == q;
        assert m'[x] == q;
      } else {
        assert m'[id] == q;
      }
    }
  }

  /** The nodes that a plan keeps carry their keys once each. */
  lemma KeptOnce(t0: Topology, t: Topology, k: Kind, kept: seq<nat>)
    requires WellFormed(t0) && WellFormed(t) && Agree(t0, t)
    requires InjectiveOn(t0, k, kept)
    requires t.levels[k].Keys == ToSet(kept) && forall x | x in kept :: x in t0.levels[k]
    ensures ExactlyOnce(Keys(t, k), KeysOn(t0, k, kept))
  {
    hide KeyAt, LinkedAt, PoolsetsNamed;
    WellFormedIsRooted(t0);
    WellFormedIsRooted(t);
    KeysAgree(t0, t, k);
    var m := Keys(t, k);
    forall x | x in kept ensures x in m && m[x] == KeyAt(t0, k, x) {
      assert x in Keys(t0, k);
    }
    forall q | q in KeysOn(t0, k, kept) ensures q in m.Values {
      var x :| x in kept && KeyAt(t0, k, x) == q;
      assert m[x] == q;
    }
  }

  // ---------------------------------------------------------------- addresses

  ghost function HostsOf(es: seq<ServerData>): set<Host> {
    set i | 0 <= i < |es| :: es[i].host
  }

  ghost predicate ClashesWith(hs: set<Host>, e: Host) {
    exists h | h in hs :: Clashes(h, e)
  }

  /** The servers that get registered when hs are the addresses already there. */
  ghost function Accepted(hs: set<Host>, es: seq<ServerData>): seq<ServerData> {
    if es == [] then []
    else
      var r := Accepted(hs, es[..|es| - 1]);
      var e := es[|es| - 1];
      if ClashesWith(hs + HostsOf(r), e.host) then r else r + [e]
  }

  /** No entry collides with an address already there or with an earlier entry. */
  ghost predicate ClashFree(hs: set<Host>, es: seq<ServerData>) {
    && (forall i, h | 0 <= i < |es| && h in hs :: !Clashes(h, es[i].host))
    && (forall i, j | 0 <= i < j < |es| :: !Clashes(es[i].host, es[j].host))
  }

  /** All servers get registered exactly when there is no collision. */
  lemma {:induction false} AllAcceptedIffClashFree(hs: set<Host>, es: seq<ServerData>)
    ensures |Accepted(hs, es)| <= |es|
    ensures |Accepted(hs, es)| == |es| ==> Accepted(hs, es) == es
    ensures Accepted(hs, es) == es <==> ClashFree(hs, es)
  {
    if es != [] {
      var n := |es| - 1;
      var pre, e := es[..n], es[n];
      hide ClashFree, ClashesWith;
      AllAcceptedIffClashFree(hs, pre);
      assert es == pre + [e];
      ClashFreeSnoc(hs, pre, e);
    }
  }

  lemma ClashFreeSnoc(hs: set<Host>, pre: seq<ServerData>, e: ServerData)
    ensures ClashFree(hs, pre + [e]) <==> ClashFree(hs, pre) && !ClashesWith(hs + HostsOf(pre), e.host)
  {
    hide Clashes;
    var es := pre + [e];
    assert forall i | 0 <= i < |pre| :: es[i] == pre[i] && pre[i].host in HostsOf(pre);
    assert es[|pre|] == e;
    if ClashFree(hs, es) {
      assert forall i | 0 <= i < |pre| :: !Clashes(es[i].host, es[|pre|].host);
      assert forall h | h in hs :: !Clashes(h, es[|pre|].host);
    }
  }

  lemma {:induction false} AcceptedAreEntries(hs: set<Host>, es: seq<ServerData>)
    ensures forall e | e in Accepted(hs, es) :: e in es
    ensures KeysOf(Accepted(hs, es), ServerKey) <= KeysOf(es, ServerKey)
  {
    if es != [] {
      var n := |es| - 1;
      AcceptedAreEntries(hs, es[..n]);
      assert es == es[..n] + [es[n]];
      KeysOfSnoc(es[..n], es[n], ServerKey);
      KeysOfSnoc(Accepted(hs, es[..n]), es[n], ServerKey);
    }
  }

  // ---------------------------------------------------------------- answers to planned calls

  lemma LogStep(before: seq<Call>, after: seq<Call>, op: Op, t: Topology, t': Topology, reply: Reply, calm: bool, m: ClusterMap)
    requires Logged(before, after, op, t, t', reply, calm) && WellFormed(t) && WellFormed(t') && Asked(op, t, m)
    requires forall code :: Answers(Call(op, code, t, t')) ==> Orderly(Call(op, code, t, t'), m)
    ensures LogGrew(Moment(t, before), Moment(t', after), m)
  {
    hide Answers, Orderly, WellFormed, Asked;
    if after != before {
      var code :| after == before + [Call(op, code, t, t')] && Answers(Call(op, code, t, t'));
      var news := after[|before|..];
      assert news == [Call(op, code, t, t')];
      assert Leads(t, news[..0], t, m);
    }
  }

  lemma PoolsetNamed(t: Topology, name: string)
    requires WellFormed(t)
    ensures Named(t.levels[POOLSET], name) <==> [name] in Keys(t, POOLSET).Values
  {
    hide LinkedAt, PoolsetsNamed;
    var l, ks := t.levels[POOLSET], Keys(t, POOLSET);
    forall x | x in l ensures x in ks && ks[x] == [l[x].name] {
      NamesUpOne(t, POOLSET, x);
    }
    if x :| x in l && l[x].name == name {
      assert ks[x] == [name];
    }
    if [name] in ks.Values {
      var x :| x in ks && ks[x] == [name];
      assert l[x].name == name;
    }
  }

  lemma PoolNamed(t: Topology, q: Key)
    requires WellFormed(t) && q in Keys(t, POOL).Values && |q| > 0
    ensures Named(t.levels[POOL], q[0])
  {
    hide LinkedAt, PoolsetsNamed;
    var x :| x in Keys(t, POOL) && Keys(t, POOL)[x] == q;
    assert t.levels[POOL][x].name == q[0];
  }

  lemma PoolKeyAt(t: Topology, x: nat)
    requires WellFormed(t) && x in t.levels[POOL]
    ensures t.levels[POOL][x].parent in t.levels[POOLSET]
    ensures KeyAt(t, POOL, x) == [t.levels[POOL][x].name, t.levels[POOLSET][t.levels[POOL][x].parent].name]
  {
    hide LinkedAt, PoolsetsNamed;
    WellFormedIsRooted(t);
    NamesUpOne(t, POOLSET, t.levels[POOL][x].parent);
  }

  lemma ZoneKeyAt(t: Topology, x: nat)
    requires WellFormed(t) && x in t.levels[ZONE]
    ensures t.levels[ZONE][x].parent in t.levels[POOL]
    ensures KeyAt(t, ZONE, x) == [t.levels[ZONE][x].name, t.levels[POOL][t.levels[ZONE][x].parent].name]
  {
    hide LinkedAt, PoolsetsNamed;
    WellFormedIsRooted(t);
    NamesUpTwo(t, x);
  }

  /** Once the wanted pools and zones are there, every pool that the MDS may resolve a wanted
      server's pool name to contains the server's zone. */
  lemma ServerFindsZone(t: Topology, m: ClusterMap, d: ServerData, p: nat)
    requires WellFormed(t)
    requires ExactlyOnce(Keys(t, POOL), Wanted(m, POOL)) && ExactlyOnce(Keys(t, ZONE), Wanted(m, ZONE))
    requires ZoneKey(ZoneOf(d)) in Wanted(m, ZONE)
    requires p in t.levels[POOL] && t.levels[POOL][p].name == d.physicalPoolName
    ensures exists z :: ZoneIn(t, z, p, d.zoneName)
  {
    hide LinkedAt, PoolsetsNamed, KeyAt, Wanted;
    var q := ZoneKey(ZoneOf(d));
    var z :| z in Keys(t, ZONE) && Keys(t, ZONE)[z] == q;
    ZoneKeyAt(t, z);
    var p' := t.levels[ZONE][z].parent;
    PoolKeyAt(t, p);
    PoolKeyAt(t, p');
    assert Keys(t, POOL)[p] in Keys(t, POOL).Values && Keys(t, POOL)[p'] in Keys(t, POOL).Values;
    WantedPoolNamesDiffer(m, Keys(t, POOL)[p], Keys(t, POOL)[p']);
    assert ZoneIn(t, z, p, d.zoneName);
  }

  lemma PoolsetCreation(t: Topology, t': Topology, d: PoolsetData, m: ClusterMap, code: int)
    requires WellFormed(t) && PoolsetKey(d) !in Keys(t, POOLSET).Values
    requires Answers(Call(CreatePoolset(d), code, t, t'))
    ensures Orderly(Call(CreatePoolset(d), code, t, t'), m)
    ensures code == SUCCESS || code == STORAGE_FAIL
    ensures code == SUCCESS ==> t'.HasShape() && Grown(t, t', POOLSET, PoolsetKey(d), NO_HOST)
  {
    hide LinkedAt, PoolsetsNamed, Grown, Named, Keys;
    PoolsetNamed(t, d.name);
  }

  /** A pool is refused only if its poolset is not there. */
  lemma PoolCreation(t: Topology, t': Topology, d: PoolData, m: ClusterMap, code: int)
    requires WellFormed(t) && Keys(t, POOLSET).Values == Wanted(m, POOLSET) && PoolKey(d) in Wanted(m, POOL)
    requires Answers(Call(CreatePhysicalPool(d), code, t, t'))
    ensures Orderly(Call(CreatePhysicalPool(d), code, t, t'), m)
    ensures [d.poolsetName] !in Wanted(m, POOLSET) ==> code == POOLSET_NOT_FOUND
    ensures [d.poolsetName] in Wanted(m, POOLSET) ==> code == SUCCESS || code == STORAGE_FAIL
    ensures code == SUCCESS ==> t'.HasShape() && Grown(t, t', POOL, PoolKey(d), NO_HOST)
  {
    hide LinkedAt, PoolsetsNamed, Grown, Named, Keys;
    PoolsetNamed(t, d.poolsetName);
    if [d.poolsetName] !in Wanted(m, POOLSET) {
      var i: nat :| i < |m.servers| && NamesPoolFirst(m, i) && PoolKey(PoolOf(m.servers[i])) == PoolKey(d);
      assert PoolKey(d)[1] == d.poolsetName;
    }
  }

  lemma ZoneCreation(t: Topology, t': Topology, d: ZoneData, m: ClusterMap, code: int)
    requires WellFormed(t) && Keys(t, POOL).Values == Wanted(m, POOL) && ZoneKey(d) in Wanted(m, ZONE)
    requires Answers(Call(CreateZone(d), code, t, t'))
    ensures Orderly(Call(CreateZone(d), code, t, t'), m)
    ensures code == SUCCESS || code == STORAGE_FAIL
    ensures code == SUCCESS ==> t'.HasShape() && Grown(t, t', ZONE, ZoneKey(d), NO_HOST)
  {
    hide LinkedAt, PoolsetsNamed, Grown, Named, Keys, Wanted;
    WantedZoneHasPool(m, ZoneKey(d));
    var q :| q in Wanted(m, POOL) && |q| == 2 && q[0] == ZoneKey(d)[1];
    PoolNamed(t, q);
  }

  /** A server is refused only if its address is taken. */
  lemma ServerCreation(t: Topology, t': Topology, d: ServerData, m: ClusterMap, code: int)
    requires WellFormed(t)
    requires ExactlyOnce(Keys(t, POOL), Wanted(m, POOL)) && ExactlyOnce(Keys(t, ZONE), Wanted(m, ZONE))
    requires ServerKey(d) in Wanted(m, SERVER)
    requires Answers(Call(RegistServer(d), code, t, t'))
    ensures Orderly(Call(RegistServer(d), code, t, t'), m)
    ensures AnyClash(t.hosts, d.host) ==> code == IP_PORT_DUPLICATED
    ensures !AnyClash(t.hosts, d.host) ==> code == SUCCESS || code == STORAGE_FAIL
    ensures code == SUCCESS ==> t'.HasShape() && Grown(t, t', SERVER, ServerKey(d), d.host)
  {
    hide LinkedAt, PoolsetsNamed, Grown, Keys, Wanted, AnyClash, Injective, ZoneIn;
    WantedServerHasZone(m, ServerKey(d));
    assert ZoneKey(ZoneOf(d)) == [ServerKey(d)[1], ServerKey(d)[2]];
    WantedZoneHasPool(m, ZoneKey(ZoneOf(d)));
    var q :| q in Wanted(m, POOL) && |q| == 2 && q[0] == ZoneKey(ZoneOf(d))[1];
    PoolNamed(t, q);
    var c := Call(RegistServer(d), code, t, t');
    var p :| p in t.levels[POOL] && t.levels[POOL][p].name == d.physicalPoolName && RegistersIn(c, d, p);
    ServerFindsZone(t, m, d, p);
  }

  /** The key of the next entry is new unless it was there from the beginning. */
  lemma NextKey<E>(keys: seq<set<Key>>, k: Kind, xs: seq<E>, key: E -> Key, n: nat)
    requires |keys| == 5 && Distinct(xs, key) && n < |xs|
    ensures key(xs[n]) in KeysOf(xs, key)
    ensures key(xs[n]) in With(keys, k, xs[..n], key)[k] ==> key(xs[n]) in keys[k]
    ensures var now := With(keys, k, xs[..n], key);
            With(keys, k, xs[..n + 1], key) == now[k := now[k] + {key(xs[n])}]
  {
    assert xs[..n + 1] == xs[..n] + [xs[n]];
    KeysOfSnoc(xs[..n], xs[n], key);
    assert forall i | 0 <= i < n :: xs[..n][i] == xs[i];
    var now := With(keys, k, xs[..n], key);
    assert keys[k] + (KeysOf(xs[..n], key) + {key(xs[n])}) == now[k] + {key(xs[n])};
  }

  /** Only servers bring or take addresses. */
  lemma AnswersKeepHosts(c: Call)
    requires Answers(c) && !c.op.RegistServer? && !(c.op.Delete? && c.op.kind == SERVER)
    ensures c.before.hosts == c.after.hosts
  {
    hide Keys, Named;
  }

  lemma RefusedChangesNothing(c: Call)
    requires Answers(c) && c.code != SUCCESS
    ensures c.after == c.before
  {
  }

  lemma ClashByValue(hosts: map<nat, Host>, e: Host)
    ensures AnyClash(hosts, e) <==> ClashesWith(hosts.Values, e)
  {
    hide Clashes;
    if AnyClash(hosts, e) {
      var x :| x in hosts && Clashes(hosts[x], e);
      assert hosts[x] in hosts.Values;
    }
  }

  lemma NewHost(t: Topology, t': Topology, key: Key, host: Host)
    requires WellFormed(t) && t'.HasShape() && Grown(t, t', SERVER, key, host)
    ensures t'.hosts.Values == t.hosts.Values + {host}
  {
    hide LinkedAt, PoolsetsNamed, Keys;
    var id :| GrownBy(t, t', SERVER, id, key, host);
    assert id !in t.hosts.Keys;
    var hs, hs' := t.hosts, t'.hosts;
    assert forall x | x in hs :: hs'[x] == hs[x];
    assert hs'[id] == host;
    forall h | h in hs.Values ensures h in hs'.Values {
      var x :| x in hs && hs[x] == h;
      assert hs'[x] == h;
    }
  }

  lemma HostsOfNothing(hs: set<Host>)
    ensures Accepted(hs, []) == [] && hs + HostsOf([]) == hs
  {
  }

  /** The next server entry has a new key, and the accepted servers are continued. */
  lemma NextServerKey(keys: seq<set<Key>>, hs: set<Host>, xs: seq<ServerData>, n: nat)
    requires |keys| == 5 && Distinct(xs, ServerKey) && n < |xs|
    ensures ServerKey(xs[n]) in KeysOf(xs, ServerKey)
    ensures var done := Accepted(hs, xs[..n]);
            var now := With(keys, SERVER, done, ServerKey);
            && |now| == 5 && now[POOL] == keys[POOL] && now[ZONE] == keys[ZONE]
            && (ServerKey(xs[n]) in now[SERVER] ==> ServerKey(xs[n]) in keys[SERVER])
            && Accepted(hs, xs[..n + 1]) == (if ClashesWith(hs + HostsOf(done), xs[n].host) then done else done + [xs[n]])
            && With(keys, SERVER, done + [xs[n]], ServerKey) == now[SERVER := now[SERVER] + {ServerKey(xs[n])}]
            && hs + HostsOf(done + [xs[n]]) == hs + HostsOf(done) + {xs[n].host}
  {
    hide ClashesWith, HostsOf, Distinct;
    var done := Accepted(hs, xs[..n]);
    assert xs[..n + 1][..n] == xs[..n];
    NextKey(keys, SERVER, xs, ServerKey, n);
    AcceptedAreEntries(hs, xs[..n]);
    KeysOfSnoc(done, xs[n], ServerKey);
    var now := With(keys, SERVER, done, ServerKey);
    assert keys[SERVER] + (KeysOf(done, ServerKey) + {ServerKey(xs[n])}) == now[SERVER] + {ServerKey(xs[n])};
    HostsOfSnoc(done, xs[n]);
  }

  lemma HostsOfSnoc(es: seq<ServerData>, e: ServerData)
    ensures HostsOf(es + [e]) == HostsOf(es) + {e.host}
  {
    var more := es + [e];
    assert forall i | 0 <= i < |es| :: more[i] == es[i];
    assert more[|es|] == e;
    forall h | h in HostsOf(es) ensures h in HostsOf(more) {
      var i :| 0 <= i < |es| && es[i].host == h;
      assert more[i].host == h;
    }
  }

  // ---------------------------------------------------------------- from plan to result

  ghost function KeptKeys(t: Topology, p: Plan): seq<set<Key>>
    requires t.HasShape()
    ensures |KeptKeys(t, p)| == 5
  {
    [{}, KeysOn(t, POOLSET, p.poolsets.kept), KeysOn(t, POOL, p.pools.kept),
     KeysOn(t, ZONE, p.zones.kept), KeysOn(t, SERVER, p.servers.kept)]
  }

  /** The addresses of the servers that stay. */
  ghost function KeptHosts(t: Topology, p: Plan): set<Host> {
    set x | x in p.servers.kept && x in t.hosts :: t.hosts[x]
  }

  /** No server that the plan deletes has live chunkservers. */
  ghost predicate NoneBusy(t: Topology, p: Plan)
    requires t.HasShape()
  {
    AllChildless(t, p.servers.del)
  }

  /** The keys of a run that finished: what was wanted, except for servers whose address is taken. */
  ghost function ResultKeys(t: Topology, m: ClusterMap, p: Plan): seq<set<Key>>
    requires t.HasShape()
  {
    [{}, Wanted(m, POOLSET), Wanted(m, POOL), Wanted(m, ZONE),
     KeysOn(t, SERVER, p.servers.kept) + KeysOf(Accepted(KeptHosts(t, p), p.servers.add), ServerKey)]
  }

  ghost function DeletedIds(p: Plan): seq<set<nat>> {
    [{}, ToSet(p.poolsets.del), ToSet(p.pools.del), ToSet(p.zones.del), ToSet(p.servers.del)]
  }

  /** The deletions that are done when level k is next. */
  ghost function DeletedBelow(p: Plan, k: Kind): (r: seq<set<nat>>)
    ensures |r| == 5
  {
    [{}, {}, if k < POOL then ToSet(p.pools.del) else {},
     if k < ZONE then ToSet(p.zones.del) else {}, if k < SERVER then ToSet(p.servers.del) else {}]
  }

  /** When the planned deletions below are done, those of level k are in turn. */
  lemma NextClearable(t0: Topology, t: Topology, m: ClusterMap, p: Plan, k: Kind)
    requires WellFormed(t0) && Planned(t0, m, p) && Cleared(t0, t, DeletedBelow(p, k))
    ensures Clearable(t0, t, DeletedBelow(p, k), k, DelsAt(p, k))
    ensures DeletedBelow(p, k)[k := ToSet(DelsAt(p, k))] == if k == POOLSET then DeletedIds(p) else DeletedBelow(p, k - 1)
  {
    hide LinkedAt, PoolsetsNamed, Numbered, LevelPlanned, Wanted, Cleared, NoDup, ChildrenGone;
    var gone := DeletedBelow(p, k);
    if k == POOLSET {
      PlanDeletes(t0, POOLSET, [0], p.poolsets, PoolsetKey, Wanted(m, POOLSET));
      DeletedChildren(t0, POOLSET, [0], p.poolsets, p.pools, PoolsetKey, PoolKey, Wanted(m, POOLSET), Wanted(m, POOL), gone);
    } else if k == POOL {
      PlanDeletes(t0, POOL, p.poolsets.kept, p.pools, PoolKey, Wanted(m, POOL));
      DeletedChildren(t0, POOL, p.poolsets.kept, p.pools, p.zones, PoolKey, ZoneKey, Wanted(m, POOL), Wanted(m, ZONE), gone);
    } else if k == ZONE {
      PlanDeletes(t0, ZONE, p.pools.kept, p.zones, ZoneKey, Wanted(m, ZONE));
      DeletedChildren(t0, ZONE, p.pools.kept, p.zones, p.servers, ZoneKey, ServerKey, Wanted(m, ZONE), Wanted(m, SERVER), gone);
    } else {
      PlanDeletes(t0, SERVER, p.zones.kept, p.servers, ServerKey, Wanted(m, SERVER));
    }
  }

  lemma DeletedChildren<E, F>(t: Topology, k: Kind, upKept: seq<nat>, u: LevelPlan<E>, d: LevelPlan<F>,
                              ek: E -> Key, fk: F -> Key, uw: set<Key>, dw: set<Key>, gone: seq<set<nat>>)
    requires t.HasShape() && |gone| == 5 && k < SERVER
    requires LevelPlanned(t, k, upKept, u, ek, uw) && LevelPlanned(t, k + 1, u.kept, d, fk, dw)
    requires gone[k + 1] == ToSet(d.del)
    ensures ChildrenGone(t, k, u.del, gone)
  {
    hide KeyAt, InjectiveOn, Distinct, KeysOn, KeysOf, Expendable, NoDup;
    var below: Kind := k + 1;
    forall c | c in t.levels[below] && t.levels[below][c].parent in u.del ensures c in gone[below] {
      assert c in d.kept || c in d.del;
    }
  }

  lemma PlanDeletes<E>(t: Topology, k: Kind, upKept: seq<nat>, p: LevelPlan<E>, key: E -> Key, wanted: set<Key>)
    requires t.HasShape() && LevelPlanned(t, k, upKept, p, key, wanted)
    ensures NoDup(p.del) && (forall x | x in p.del :: x in t.levels[k] && x !in p.kept)
    ensures Distinct(p.add, key) && KeysOn(t, k, p.kept) + KeysOf(p.add, key) == wanted
    ensures forall q | q in KeysOf(p.add, key) && q in KeysOn(t, k, p.kept) :: k == POOLSET && IsDefault(q)
    ensures forall q | q in KeysOf(p.add, key) :: q in wanted
  {
    hide KeyAt, InjectiveOn, Expendable, NoDup;
  }

  lemma KeptAfterClearing<E>(t0: Topology, t: Topology, k: Kind, upKept: seq<nat>, p: LevelPlan<E>, key: E -> Key, wanted: set<Key>)
    requires WellFormed(t0) && WellFormed(t) && Agree(t0, t) && LevelPlanned(t0, k, upKept, p, key, wanted)
    requires t.levels[k].Keys == t0.levels[k].Keys - ToSet(p.del)
    ensures t.levels[k].Keys == ToSet(p.kept)
    ensures ExactlyOnce(Keys(t, k), KeysOn(t0, k, p.kept))
  {
    hide LinkedAt, PoolsetsNamed, KeyAt, Agree, Distinct, KeysOf, Expendable, NoDup;
    assert t.levels[k].Keys == ToSet(p.kept);
    KeptOnce(t0, t, k, p.kept);
  }

  /** After the deletions exactly the nodes that stay are left. */
  lemma AfterClearing(t0: Topology, t: Topology, m: ClusterMap, p: Plan)
    requires WellFormed(t0) && WellFormed(t) && Planned(t0, m, p) && Cleared(t0, t, DeletedIds(p))
    ensures Carries(t, KeptKeys(t0, p))
    ensures t.hosts.Values == KeptHosts(t0, p)
  {
    hide LinkedAt, PoolsetsNamed, LevelPlanned, Agree, Keys, KeysOn, ExactlyOnce, Wanted;
    KeptAfterClearing(t0, t, POOLSET, [0], p.poolsets, PoolsetKey, Wanted(m, POOLSET));
    KeptAfterClearing(t0, t, POOL, p.poolsets.kept, p.pools, PoolKey, Wanted(m, POOL));
    KeptAfterClearing(t0, t, ZONE, p.pools.kept, p.zones, ZoneKey, Wanted(m, ZONE));
    KeptAfterClearing(t0, t, SERVER, p.zones.kept, p.servers, ServerKey, Wanted(m, SERVER));
    var keys := KeptKeys(t0, p);
    forall k: Kind ensures ExactlyOnce(Keys(t, k), keys[k]) {
      if k == POOLSET {} else if k == POOL {} else if k == ZONE {} else { assert k == SERVER; }
    }
    assert forall x | x in t.hosts.Keys :: x in p.servers.kept && x in t0.hosts && t.hosts[x] == t0.hosts[x];
    forall h | h in KeptHosts(t0, p) ensures h in t.hosts.Values {
      var x :| x in p.servers.kept && x in t0.hosts && t0.hosts[x] == h;
      assert x in t.levels[SERVER].Keys;
      assert t.hosts[x] == h;
    }
  }

  /** The planned pools can all be created exactly when their poolsets are declared. */
  lemma DeclaredIffAddable(t: Topology, m: ClusterMap, p: Plan)
    requires WellFormed(t) && Planned(t, m, p)
    ensures PoolsetsDeclared(m) <==> forall e | e in p.pools.add :: [e.poolsetName] in Wanted(m, POOLSET)
  {
    hide LinkedAt, PoolsetsNamed, LevelPlanned, KeyAt, IsDefault;
    PlanDeletes(t, POOLSET, [0], p.poolsets, PoolsetKey, Wanted(m, POOLSET));
    PlanDeletes(t, POOL, p.poolsets.kept, p.pools, PoolKey, Wanted(m, POOL));
    if PoolsetsDeclared(m) {
      forall e | e in p.pools.add ensures [e.poolsetName] in Wanted(m, POOLSET) {
        var n :| 0 <= n < |p.pools.add| && p.pools.add[n] == e;
        assert PoolKey(e) in KeysOf(p.pools.add, PoolKey);
        var i: nat :| i < |m.servers| && NamesPoolFirst(m, i) && PoolKey(PoolOf(m.servers[i])) == PoolKey(e);
        assert PoolKey(e)[1] == e.poolsetName;
      }
    }
    if forall e | e in p.pools.add :: [e.poolsetName] in Wanted(m, POOLSET) {
      forall i: nat | NamesPoolFirst(m, i) ensures [PoolOf(m.servers[i]).poolsetName] in Wanted(m, POOLSET) {
        var q := PoolKey(PoolOf(m.servers[i]));
        assert q in Wanted(m, POOL);
        if q in KeysOf(p.pools.add, PoolKey) {
          var n :| 0 <= n < |p.pools.add| && PoolKey(p.pools.add[n]) == q;
          assert p.pools.add[n] in p.pools.add && q[1] == p.pools.add[n].poolsetName;
        } else {
          var x :| x in p.pools.kept && KeyAt(t, POOL, x) == q;
          KeptPoolHasPoolset(t, m, p, x);
          assert q[1] == PoolOf(m.servers[i]).poolsetName;
        }
      }
    }
  }

  lemma KeptPoolHasPoolset(t: Topology, m: ClusterMap, p: Plan, x: nat)
    requires WellFormed(t) && Planned(t, m, p) && x in p.pools.kept
    ensures |KeyAt(t, POOL, x)| == 2 && [KeyAt(t, POOL, x)[1]] in Wanted(m, POOLSET)
  {
    hide LinkedAt, PoolsetsNamed, Wanted, NamesUp;
    PoolKeyAt(t, x);
    var ps := t.levels[POOL][x].parent;
    NamesUpOne(t, POOLSET, ps);
    assert KeyAt(t, POOLSET, ps) in KeysOn(t, POOLSET, p.poolsets.kept);
  }

  lemma {:induction false} AllKeysAccepted(hs: set<Host>, es: seq<ServerData>)
    requires Distinct(es, ServerKey) && KeysOf(Accepted(hs, es), ServerKey) == KeysOf(es, ServerKey)
    ensures Accepted(hs, es) == es
  {
    if es != [] {
      hide ClashesWith, HostsOf;
      var n := |es| - 1;
      var pre, e := es[..n], es[n];
      assert es == pre + [e];
      KeysOfSnoc(pre, e, ServerKey);
      KeysOfSnoc(Accepted(hs, pre), e, ServerKey);
      AcceptedAreEntries(hs, pre);
      assert ServerKey(e) !in KeysOf(pre, ServerKey) by {
        assert forall i | 0 <= i < n :: pre[i] == es[i];
      }
      assert ServerKey(e) in KeysOf(es, ServerKey);
      AllKeysAccepted(hs, pre);
    }
  }

  /** A finished run has converged exactly when no address was taken. */
  lemma ConvergedIffClashFree(t0: Topology, t: Topology, m: ClusterMap, p: Plan)
    requires WellFormed(t0) && Planned(t0, m, p) && Carries(t, ResultKeys(t0, m, p))
    ensures Converged(t, m) <==> ClashFree(KeptHosts(t0, p), p.servers.add)
  {
    hide LinkedAt, PoolsetsNamed, LevelPlanned, Keys, KeysOn, Wanted, ClashFree, Accepted, KeptHosts, Injective;
    var hs, add := KeptHosts(t0, p), p.servers.add;
    PlanDeletes(t0, SERVER, p.zones.kept, p.servers, ServerKey, Wanted(m, SERVER));
    AllAcceptedIffClashFree(hs, add);
    AcceptedAreEntries(hs, add);
    var keys := ResultKeys(t0, m, p);
    forall k: Kind | k != SERVER ensures ExactlyOnce(Keys(t, k), Wanted(m, k)) {
      assert ExactlyOnce(Keys(t, k), keys[k]);
      if k == POOLSET {} else if k == POOL {} else { assert k == ZONE; }
    }
    assert ExactlyOnce(Keys(t, SERVER), keys[SERVER]);
    if Converged(t, m) {
      assert ExactlyOnce(Keys(t, SERVER), Wanted(m, SERVER));
      assert KeysOf(Accepted(hs, add), ServerKey) == KeysOf(add, ServerKey);
      AllKeysAccepted(hs, add);
    }
  }
}
