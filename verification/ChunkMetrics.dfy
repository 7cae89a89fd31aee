/** What the metrics of the chunkserver say, in terms of the requests: which of them were counted,
    which succeeded and which failed, in total and for each copyset. */
module ChunkMetrics {
  import opened Basics
  import opened GroupId
  import opened Sums
  import opened ChunkServer
  import opened ChunkServerProofs
  import opened ChunkChecks

  /** Only four types of operations are metered, and not GetChunkInfo. */
  predicate Collected(cfg: Config, q: Request, op: OpType) {
    && cfg.collectMetric && q.handler != GetChunkInfo && q.opType == op
    && (op == Read || op == Write || op == Recover || op == Paste)
  }

  /** A read of a chunk that does not exist is no error. */
  predicate WentWell(op: OpType, s: Status) {
    s == Success || (op == Read && s == ChunkNotExist)
  }

  // ---------------------------------------------------------------- server totals

  ghost function Received(s: State, op: OpType): set<nat> {
    set r | r in s.lives && Collected(s.cfg, s.lives[r].q, op) && CountedInTotal(s.lives[r])
  }

  ghost function Succeeded(s: State, op: OpType): set<nat> {
    set r | r in s.lives && Collected(s.cfg, s.lives[r].q, op) && RecordedInTotal(s.lives[r]) && WentWell(op, s.lives[r].status)
  }

  ghost function Failed(s: State, op: OpType): set<nat> {
    set r | r in s.lives && Collected(s.cfg, s.lives[r].q, op) && RecordedInTotal(s.lives[r]) && !WentWell(op, s.lives[r].status)
  }

  ghost function Sizes(lives: map<nat, Life>, rs: set<nat>): map<nat, int>
    requires rs <= lives.Keys
  {
    map r | r in rs :: lives[r].q.size
  }

  /** What one request adds to the counters of type op. */
  lemma ShareIs(cfg: Config, l: Life, op: OpType)
    ensures Share(cfg, l, Counter(op, ReqNum)) == if Collected(cfg, l.q, op) && CountedInTotal(l) then 1 else 0
    ensures Share(cfg, l, Counter(op, IoNum)) ==
            if Collected(cfg, l.q, op) && RecordedInTotal(l) && WentWell(op, l.status) then 1 else 0
    ensures Share(cfg, l, Counter(op, ErrorNum)) ==
            if Collected(cfg, l.q, op) && RecordedInTotal(l) && !WentWell(op, l.status) then 1 else 0
    ensures Share(cfg, l, Counter(op, IoBytes)) ==
            if Collected(cfg, l.q, op) && RecordedInTotal(l) && WentWell(op, l.status) then l.q.size else 0
  {
  }

  /** A sum of zeros and ones is a count. */
  lemma SumOverCounts(lives: map<nat, Life>, f: Life -> int, rs: set<nat>)
    requires rs <= lives.Keys && forall r | r in lives :: f(lives[r]) == if r in rs then 1 else 0
    ensures SumOver(lives, f) == |rs|
  {
    hide Sum;
    var m := Over(lives, f);
    SumCounts(m);
    assert (set r | r in m && m[r] == 1) == rs;
  }

  /** A sum in which only some requests count. */
  lemma {:induction false} SumOverSome(lives: map<nat, Life>, f: Life -> int, rs: set<nat>)
    requires rs <= lives.Keys && forall r | r in lives :: f(lives[r]) == if r in rs then lives[r].q.size else 0
    ensures SumOver(lives, f) == Sum(Sizes(lives, rs))
    decreases |lives|
  {
    if lives == map[] {
      assert Over(lives, f) == map[] && Sizes(lives, rs) == map[];
    } else {
      hide Sum;
      assert lives.Keys != {};
      var r :| r in lives;
      var rest, m := lives - {r}, Over(lives, f);
      assert rest.Keys == lives.Keys - {r};
      SumPick(m, r);
      assert m - {r} == Over(rest, f);
      SumOverSome(rest, f, rs - {r});
      if r in rs {
        SumPick(Sizes(lives, rs), r);
        assert Sizes(lives, rs) - {r} == Sizes(rest, rs - {r});
      } else {
        assert Sizes(lives, rs) == Sizes(rest, rs - {r});
      }
    }
  }

  /** The totals are exact: requests counted on arrival, successes and failures. */
  lemma TotalsAreExact(states: seq<State>, steps: seq<Step>, i: nat, op: OpType)
    requires IsRun(states, steps) && i < |states|
    ensures var s := states[i];
            && Get(s.total, Counter(op, ReqNum)) == |Received(s, op)|
            && Get(s.total, Counter(op, IoNum)) == |Succeeded(s, op)|
            && Get(s.total, Counter(op, ErrorNum)) == |Failed(s, op)|
  {
    hide LivesOk, InflightExact, AdmissionBounded, ObjectsApart, CopysetsBounded, ObjsExact, Enabled, Apply, Init, Get, SumOver, Share,
         Collected, CountedInTotal, RecordedInTotal, WentWell;
    var s := states[i];
    InvInRuns(states, steps, i);
    forall r | r in s.lives
      ensures Share(s.cfg, s.lives[r], Counter(op, ReqNum)) == if r in Received(s, op) then 1 else 0
      ensures Share(s.cfg, s.lives[r], Counter(op, IoNum)) == if r in Succeeded(s, op) then 1 else 0
      ensures Share(s.cfg, s.lives[r], Counter(op, ErrorNum)) == if r in Failed(s, op) then 1 else 0
    {
      ShareIs(s.cfg, s.lives[r], op);
    }
    SumOverCounts(s.lives, ShareOf(s.cfg, Counter(op, ReqNum)), Received(s, op));
    SumOverCounts(s.lives, ShareOf(s.cfg, Counter(op, IoNum)), Succeeded(s, op));
    SumOverCounts(s.lives, ShareOf(s.cfg, Counter(op, ErrorNum)), Failed(s, op));
  }

  /** The bytes counted are the sizes of the successful requests. */
  lemma BytesAreConserved(states: seq<State>, steps: seq<Step>, i: nat, op: OpType)
    requires IsRun(states, steps) && i < |states|
    ensures Get(states[i].total, Counter(op, IoBytes)) == Sum(Sizes(states[i].lives, Succeeded(states[i], op)))
  {
    hide LivesOk, InflightExact, AdmissionBounded, ObjectsApart, CopysetsBounded, ObjsExact, Enabled, Apply, Init, Get, SumOver, Share,
         Collected, CountedInTotal, RecordedInTotal, WentWell, Sizes;
    var s := states[i];
    InvInRuns(states, steps, i);
    forall r | r in s.lives
      ensures Share(s.cfg, s.lives[r], Counter(op, IoBytes)) == if r in Succeeded(s, op) then s.lives[r].q.size else 0
    {
      ShareIs(s.cfg, s.lives[r], op);
    }
    SumOverSome(s.lives, ShareOf(s.cfg, Counter(op, IoBytes)), Succeeded(s, op));
  }

  // ---------------------------------------------------------------- copyset metrics

  ghost function ReceivedAt(s: State, o: nat, op: OpType): set<nat> {
    set r | r in s.lives && s.lives[r].q.opType == op && s.lives[r].reqObj == Some(o) && CountedInCopyset(s.lives[r])
  }

  ghost function SucceededAt(s: State, o: nat, op: OpType): set<nat> {
    set r | r in s.lives && s.lives[r].q.opType == op && s.lives[r].respObj == Some(o) && RecordedInCopyset(s.lives[r]) &&
            WentWell(op, s.lives[r].status)
  }

  ghost function FailedAt(s: State, o: nat, op: OpType): set<nat> {
    set r | r in s.lives && s.lives[r].q.opType == op && s.lives[r].respObj == Some(o) && RecordedInCopyset(s.lives[r]) &&
            !WentWell(op, s.lives[r].status)
  }

  lemma ObjShareIs(l: Life, o: nat, op: OpType)
    ensures ObjShare(l, o, Counter(op, ReqNum)) == if l.q.opType == op && l.reqObj == Some(o) && CountedInCopyset(l) then 1 else 0
    ensures var recorded := l.q.opType == op && l.respObj == Some(o) && RecordedInCopyset(l);
            && ObjShare(l, o, Counter(op, IoNum)) == (if recorded && WentWell(op, l.status) then 1 else 0)
            && ObjShare(l, o, Counter(op, ErrorNum)) == (if recorded && !WentWell(op, l.status) then 1 else 0)
            && ObjShare(l, o, Counter(op, IoBytes)) == (if recorded && WentWell(op, l.status) then l.q.size else 0)
  {
  }

  /** The metric that is registered for a copyset has counted exactly those requests of that copyset that found
      it, on arrival and on completion. */
  lemma CopysetMetricIsExact(states: seq<State>, steps: seq<Step>, i: nat, g: string, op: OpType)
    requires IsRun(states, steps) && i < |states| && g in states[i].registry
    ensures var s, o := states[i], states[i].registry[g];
            && o in s.objs && s.objs[o].group == g
            && Get(s.objs[o].tally, Counter(op, ReqNum)) == |ReceivedAt(s, o, op)|
            && Get(s.objs[o].tally, Counter(op, IoNum)) == |SucceededAt(s, o, op)|
            && Get(s.objs[o].tally, Counter(op, ErrorNum)) == |FailedAt(s, o, op)|
            && Get(s.objs[o].tally, Counter(op, IoBytes)) == Sum(Sizes(s.lives, SucceededAt(s, o, op)))
  {
    hide LivesOk, InflightExact, AdmissionBounded, TotalsExact, CopysetsBounded, CreatorsApart, FetchedApart, Enabled, Apply, Init, Get,
         SumOver, ReceivedAt, SucceededAt, FailedAt, Sizes;
    var s, o := states[i], states[i].registry[g];
    InvInRuns(states, steps, i);
    SharesAt(s, o, op);
    SumOverCounts(s.lives, ObjShareOf(o, Counter(op, ReqNum)), ReceivedAt(s, o, op));
    SumOverCounts(s.lives, ObjShareOf(o, Counter(op, IoNum)), SucceededAt(s, o, op));
    SumOverCounts(s.lives, ObjShareOf(o, Counter(op, ErrorNum)), FailedAt(s, o, op));
    SumOverSome(s.lives, ObjShareOf(o, Counter(op, IoBytes)), SucceededAt(s, o, op));
  }

  lemma SharesAt(s: State, o: nat, op: OpType)
    ensures ReceivedAt(s, o, op) <= s.lives.Keys && SucceededAt(s, o, op) <= s.lives.Keys && FailedAt(s, o, op) <= s.lives.Keys
    ensures forall r | r in s.lives ::
              && ObjShare(s.lives[r], o, Counter(op, ReqNum)) == (if r in ReceivedAt(s, o, op) then 1 else 0)
              && ObjShare(s.lives[r], o, Counter(op, IoNum)) == (if r in SucceededAt(s, o, op) then 1 else 0)
              && ObjShare(s.lives[r], o, Counter(op, ErrorNum)) == (if r in FailedAt(s, o, op) then 1 else 0)
              && ObjShare(s.lives[r], o, Counter(op, IoBytes)) == (if r in SucceededAt(s, o, op) then s.lives[r].q.size else 0)
  {
    hide ObjShare, CountedInCopyset, RecordedInCopyset, WentWell;
    forall r | r in s.lives
      ensures ObjShare(s.lives[r], o, Counter(op, ReqNum)) == if r in ReceivedAt(s, o, op) then 1 else 0
      ensures ObjShare(s.lives[r], o, Counter(op, IoNum)) == if r in SucceededAt(s, o, op) then 1 else 0
      ensures ObjShare(s.lives[r], o, Counter(op, ErrorNum)) == if r in FailedAt(s, o, op) then 1 else 0
      ensures ObjShare(s.lives[r], o, Counter(op, IoBytes)) == if r in SucceededAt(s, o, op) then s.lives[r].q.size else 0
    {
      ObjShareIs(s.lives[r], o, op);
    }
  }

  /** Whoever counts in the metric of a copyset is a request of that copyset. */
  lemma CountedAtHome(states: seq<State>, steps: seq<Step>, i: nat, g: string, r: nat)
    requires IsRun(states, steps) && i < |states| && g in states[i].registry && r in states[i].lives
    requires states[i].lives[r].reqObj == Some(states[i].registry[g]) || states[i].lives[r].respObj == Some(states[i].registry[g])
    ensures ToGroupId(states[i].lives[r].q.logicPoolId, states[i].lives[r].q.copysetId) == g
  {
    hide LivesOk, InflightExact, AdmissionBounded, TotalsExact, CopysetsBounded, CreatorsApart, ObjsExact, Enabled, Apply, Init, ToGroupId;
    InvInRuns(states, steps, i);
    assert Refers(states[i].lives[r], states[i].registry[g]);
  }

  /** A metric is created only if metrics are collected and none is there for the copyset; it gets registered
      when its creation ends, unless one is there for the copyset by then; it goes when
      it is removed; and nothing else changes the registry. */
  lemma RegistryChanges(states: seq<State>, steps: seq<Step>, i: nat, g: string)
    requires IsRun(states, steps) && i < |steps|
    ensures steps[i] == RemoveMetric(g) ==> g !in states[i + 1].registry
    ensures steps[i].CheckAbsent? && steps[i].group == g ==> g !in states[i].registry && states[i].cfg.collectMetric
    ensures steps[i] != RemoveMetric(g) && g in states[i].registry ==>
              g in states[i + 1].registry && states[i + 1].registry[g] == states[i].registry[g]
    ensures g !in states[i].registry ==>
              (g in states[i + 1].registry <==>
               steps[i].AddMetric? && steps[i].t in states[i].creators && states[i].creators[steps[i].t].group == g)
    ensures g !in states[i].registry && steps[i].AddMetric? && g in states[i + 1].registry ==>
              Built(g, states[i + 1].registry[g]) == states[i].creators[steps[i].t]
  {
    hide NextLife, NextTotal, NextObjs, CanAct, FirstLife, UpdatedEpochs;
    assert Enabled(states[i], steps[i]) && states[i + 1] == Apply(states[i], steps[i]);
  }

  // ---------------------------------------------------------------- what a request finds

  predicate PastFetch(c: ClosurePc) { !c.ReqFetch? }

  predicate PastSecondFetch(c: ClosurePc) {
    c.RespCopyset? || c.RespTotal? || c.Replying? || c.Decrementing? || c.Destroyed?
  }

  ghost function Registered(registry: map<string, nat>, q: Request): Option<nat> {
    var g := ToGroupId(q.logicPoolId, q.copysetId);
    if g in registry then Some(registry[g]) else None
  }

  lemma NextFetch(cfg: Config, env: Env, inflight: int, registry: map<string, nat>, l: Life, a: Action)
    requires LifeOk(cfg, l) && CanAct(cfg, env, l, a)
    ensures var l' := NextLife(cfg, inflight, registry, l, a);
            && (PastFetch(l.closure) ==> PastFetch(l'.closure) && l'.reqObj == l.reqObj)
            && (a == FetchForRequest ==> PastFetch(l'.closure) && l'.reqObj == Registered(registry, l.q))
            && (PastFetch(l'.closure) ==> PastFetch(l.closure) || a == FetchForRequest)
            && (PastSecondFetch(l.closure) ==> PastSecondFetch(l'.closure) && l'.respObj == l.respObj)
            && (a == FetchForResponse ==> PastSecondFetch(l'.closure) && l'.respObj == Registered(registry, l.q))
            && (PastSecondFetch(l'.closure) && Metered(cfg, l.q) ==> PastSecondFetch(l.closure) || a == FetchForResponse)
  {
    hide Refusal, Metered, Checks, Passes, ChecksOk, Justified, ToGroupId;
  }

  /** A request counts in the metric that is registered for its copyset at the moment it looks, if there is
      one, and looks once on arrival and once on completion. */
  lemma {:induction false} FetchesSeeRegistry(states: seq<State>, steps: seq<Step>, n: nat, i: nat, r: nat)
    requires IsRun(states, steps) && n < i < |states| && steps[n].Act? && steps[n].r == r && r in states[i].lives
    ensures steps[n].a == FetchForRequest ==>
              PastFetch(states[i].lives[r].closure) && states[i].lives[r].reqObj == Registered(states[n].registry, states[i].lives[r].q)
    ensures steps[n].a == FetchForResponse ==>
              PastSecondFetch(states[i].lives[r].closure) && states[i].lives[r].respObj == Registered(states[n].registry, states[i].lives[r].q)
    decreases i
  {
    hide CanAct, NextLife, FirstLife, LifeOk, Registered, PastFetch, PastSecondFetch;
    var s := states[i - 1];
    OneStep(states, steps, n, r);
    RequestsStay(states, steps, n, i - 1, r);
    RequestsStay(states, steps, n, i, r);
    OneStep(states, steps, i - 1, r);
    LivesAreOk(states, steps, i - 1);
    if n < i - 1 {
      FetchesSeeRegistry(states, steps, n, i - 1, r);
    }
    if steps[i - 1].Act? && steps[i - 1].r == r {
      NextFetch(s.cfg, s.env, s.inflight, s.registry, s.lives[r], steps[i - 1].a);
    }
  }

  /** A metered request that has been counted has looked for its metric, and so has one that has been recorded. */
  lemma {:induction false} CountedAfterFetch(states: seq<State>, steps: seq<Step>, i: nat, r: nat)
    requires IsRun(states, steps) && i < |states| && r in states[i].lives && Metered(states[i].cfg, states[i].lives[r].q)
    ensures PastFetch(states[i].lives[r].closure) ==> Did(steps, i, r, FetchForRequest)
    ensures PastSecondFetch(states[i].lives[r].closure) ==> Did(steps, i, r, FetchForResponse)
  {
    hide CanAct, NextLife, LifeOk, Did, PastFetch, PastSecondFetch, Metered;
    if i > 0 {
      var s := states[i - 1];
      OneStep(states, steps, i - 1, r);
      RequestsStay(states, steps, i - 1, i, r);
      LivesAreOk(states, steps, i - 1);
      DidOneMore(steps, i - 1, r, FetchForRequest);
      DidOneMore(steps, i - 1, r, FetchForResponse);
      if r in s.lives {
        CountedAfterFetch(states, steps, i - 1, r);
        if steps[i - 1].Act? && steps[i - 1].r == r {
          NextFetch(s.cfg, s.env, s.inflight, s.registry, s.lives[r], steps[i - 1].a);
        }
      } else {
        FirstFetch(s.cfg, states[i].lives[r].q);
      }
    }
  }

  lemma FirstFetch(cfg: Config, q: Request)
    ensures Metered(cfg, q) ==> !PastFetch(FirstLife(cfg, q).closure) && !PastSecondFetch(FirstLife(cfg, q).closure)
    ensures FirstLife(cfg, q).q == q
  {
    hide Metered;
  }
}
