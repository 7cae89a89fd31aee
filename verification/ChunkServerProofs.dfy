/** What every run of the chunkserver keeps: one run and one reply per closure, an exact
    inflight count, the admission bound, and the conservation of the metrics. */
module ChunkServerProofs {
  import opened Basics
  import opened GroupId
  import opened Sums
  import opened ChunkServer

  // ---------------------------------------------------------------- one request

  predicate InConstructor(c: ClosurePc) {
    c.ReqFetch? || c.ReqCopyset? || c.ReqTotal?
  }

  predicate BeforeRun(c: ClosurePc) {
    InConstructor(c) || c.Waiting?
  }

  /** What passing or failing a check says about the request itself. */
  ghost predicate Concluded(cfg: Config, q: Request, c: Check, pass: bool) {
    match c
    case Epoch => q.hasEpoch || pass
    case Bounds => pass == OffsetAndLengthOk(cfg, q.offset, q.size)
    case WholeChunk => pass == (q.size == cfg.maxChunkSize)
    case CorrectedSn => pass == q.hasCorrectedSn
    case Copyset => true
    case Leader => true
  }

  lemma PassesConcludes(cfg: Config, env: Env, q: Request, c: Check)
    ensures Concluded(cfg, q, c, Passes(cfg, env, q, c))
  {
  }

  /** The checks so far: those passed come first in the list of the handler, and a failed one is next. */
  ghost predicate ChecksOk(cfg: Config, l: Life) {
    && l.passed <= Checks(l.q.handler) && (forall c | c in l.passed :: Concluded(cfg, l.q, c, true))
    && (!l.admitted ==> l.passed == [] && l.failed == None)
    && (l.failed.Some? ==>
          && |l.passed| < |Checks(l.q.handler)| && l.failed.value == Checks(l.q.handler)[|l.passed|]
          && Concluded(cfg, l.q, l.failed.value, false))
  }

  /** The status of a reply without hand-off: overload, the refusal of the failed check, or the answer
      of GetChunkInfo. */
  ghost predicate Justified(l: Life) {
    if !l.admitted then l.status == Overload
    else if l.failed.Some? then l.status == Refusal(l.failed.value)
    else l.q.handler.GetChunkInfo? && l.passed == Checks(GetChunkInfo) && (l.status == Success || l.status == FailureUnknown)
  }

  ghost predicate LifeOk(cfg: Config, l: Life) {
    && (l.handler.Constructing? <==> InConstructor(l.closure))
    && (InConstructor(l.closure) || l.closure.RespFetch? || l.closure.RespCopyset? || l.closure.RespTotal? ==> Metered(cfg, l.q))
    && l.runs == (if BeforeRun(l.closure) then 0 else 1)
    && l.replies == (if l.closure.Decrementing? || l.closure.Destroyed? then 1 else 0)
    && (l.owner.Nobody? <==> !BeforeRun(l.closure))
    && (l.owner.Guard? ==> !l.handler.Exited? && !l.handedOff)
    && (l.owner.Operation? ==> l.handedOff)
    && ChecksOk(cfg, l)
    && (l.handedOff ==>
          && l.admitted && l.passed == Checks(l.q.handler) && l.failed == None && !l.q.handler.GetChunkInfo?
          && (l.handler.Returning? || l.handler.Exited?))
    && (l.handler.AtChecks? ==> l.admitted && l.failed == None)
    && (l.handler.AtOverloadTest? || l.handler.Constructing? ==> !l.admitted)
    && (!l.owner.Guard? ==> l.handler.Returning? || l.handler.Exited?)
    && (l.reqObj.Some? || l.respObj.Some? ==> Metered(cfg, l.q)) && (BeforeRun(l.closure) ==> l.respObj == None)
    && (!l.handedOff && (l.handler.Returning? || l.handler.Exited?) ==> Justified(l))
  }

  ghost predicate LivesOk(s: State) {
    forall r | r in s.lives :: LifeOk(s.cfg, s.lives[r])
  }

  lemma FirstLifeOk(cfg: Config, q: Request)
    ensures LifeOk(cfg, FirstLife(cfg, q))
  {
  }

  lemma NextLifeOk(cfg: Config, env: Env, inflight: int, registry: map<string, nat>, l: Life, a: Action)
    requires LifeOk(cfg, l) && CanAct(cfg, env, l, a)
    ensures LifeOk(cfg, NextLife(cfg, inflight, registry, l, a))
  {
    hide GroupOf, Concluded, Refusal, Metered, Checks, ChecksOk, Passes;
    NextChecksOk(cfg, env, inflight, registry, l, a);
  }

  lemma NextChecksOk(cfg: Config, env: Env, inflight: int, registry: map<string, nat>, l: Life, a: Action)
    requires ChecksOk(cfg, l) && CanAct(cfg, env, l, a) && (l.handler.AtChecks? ==> l.admitted && l.failed == None)
    ensures ChecksOk(cfg, NextLife(cfg, inflight, registry, l, a))
    ensures l.handler.AtChecks? && |l.passed| == |Checks(l.q.handler)| ==> l.passed == Checks(l.q.handler)
    ensures !l.admitted ==> l.failed == None
  {
    hide GroupOf, Concluded, Refusal, Metered, Checks, Passes;
    if a.DoCheck? {
      PassesConcludes(cfg, env, l.q, a.c);
    }
  }

  lemma LivesOkStep(s: State, step: Step)
    requires LivesOk(s) && Enabled(s, step)
    ensures LivesOk(Apply(s, step))
  {
    hide LifeOk, CanAct, NextLife, NextObjs, NextTotal, FirstLife;
    match step
    case Arrive(_, q) => FirstLifeOk(s.cfg, q);
    case Act(r, a) => NextLifeOk(s.cfg, s.env, s.inflight, s.registry, s.lives[r], a);
    case _ =>
  }

  // ---------------------------------------------------------------- sums over requests

  ghost function Over(lives: map<nat, Life>, f: Life -> int): map<nat, int> {
    map r | r in lives :: f(lives[r])
  }

  ghost function SumOver(lives: map<nat, Life>, f: Life -> int): int {
    Sum(Over(lives, f))
  }

  lemma SumOverUpdate(lives: map<nat, Life>, r: nat, l: Life, f: Life -> int)
    ensures SumOver(lives[r := l], f) == SumOver(lives, f) + f(l) - if r in lives then f(lives[r]) else 0
  {
    SumUpdate(Over(lives, f), r, f(l));
    assert Over(lives[r := l], f) == Over(lives, f)[r := f(l)];
  }

  lemma SumOverAtMost(lives: map<nat, Life>, f: Life -> int, g: Life -> int)
    requires forall r | r in lives :: f(lives[r]) <= g(lives[r])
    ensures SumOver(lives, f) <= SumOver(lives, g)
  {
    var d := map r | r in lives :: g(lives[r]) - f(lives[r]);
    SumAdds(Over(lives, g), Over(lives, f), d);
    SumNotNegative(d);
  }

  // ---------------------------------------------------------------- the throttle

  function Alive(l: Life): int {
    if l.closure.Destroyed? then 0 else 1
  }

  function AdmittedAlive(l: Life): int {
    if l.admitted then Alive(l) else 0
  }

  /** The inflight count is the number of closures that have not decremented it yet. */
  ghost predicate InflightExact(s: State) {
    s.inflight == SumOver(s.lives, Alive)
  }

  /** No more admitted requests are unfinished than the limit allows. */
  ghost predicate AdmissionBounded(s: State) {
    SumOver(s.lives, AdmittedAlive) <= s.cfg.maxInflight
  }

  lemma AliveStep(cfg: Config, env: Env, inflight: int, registry: map<string, nat>, l: Life, a: Action)
    requires LifeOk(cfg, l) && CanAct(cfg, env, l, a)
    ensures var l' := NextLife(cfg, inflight, registry, l, a);
            && Alive(l') == Alive(l) - (if a.Decrement? then 1 else 0)
            && (!(a.TestOverload? && inflight <= cfg.maxInflight) ==> AdmittedAlive(l') <= AdmittedAlive(l))
  {
    hide GroupOf, Checks, Refusal, Passes, Justified, ChecksOk, Metered;
  }

  lemma InflightStep(s: State, step: Step)
    requires LivesOk(s) && InflightExact(s) && Enabled(s, step)
    ensures InflightExact(Apply(s, step))
  {
    hide SumOver, NextObjs, NextTotal, NextLife, CanAct, LifeOk;
    match step
    case Arrive(r, q) => SumOverUpdate(s.lives, r, FirstLife(s.cfg, q), Alive);
    case Act(r, a) =>
      var l := s.lives[r];
      AliveStep(s.cfg, s.env, s.inflight, s.registry, l, a);
      SumOverUpdate(s.lives, r, NextLife(s.cfg, s.inflight, s.registry, l, a), Alive);
    case _ =>
  }

  /** Because the increment comes before the test, whoever passes the test is counted. */
  lemma AdmissionStep(s: State, step: Step)
    requires LivesOk(s) && AdmissionBounded(s) && InflightExact(s) && Enabled(s, step)
    ensures AdmissionBounded(Apply(s, step))
  {
    hide SumOver, NextObjs, NextTotal, NextLife, CanAct, LifeOk;
    match step
    case Arrive(r, q) => SumOverUpdate(s.lives, r, FirstLife(s.cfg, q), AdmittedAlive);
    case Act(r, a) =>
      var l := s.lives[r];
      if a.TestOverload? && s.inflight <= s.cfg.maxInflight {
        InflightStep(s, step);
        SumOverAtMost(Apply(s, step).lives, AdmittedAlive, Alive);
      } else {
        AliveStep(s.cfg, s.env, s.inflight, s.registry, l, a);
        SumOverUpdate(s.lives, r, NextLife(s.cfg, s.inflight, s.registry, l, a), AdmittedAlive);
      }
    case _ =>
  }

  // ---------------------------------------------------------------- server totals

  predicate CountedInTotal(l: Life) {
    !InConstructor(l.closure)
  }

  predicate RecordedInTotal(l: Life) {
    l.closure.Replying? || l.closure.Decrementing? || l.closure.Destroyed?
  }

  /** What one request has added to counter c of the server totals so far. */
  ghost function Share(cfg: Config, l: Life, c: Counter): int {
    if !Metered(cfg, l.q) then 0
    else
      (if CountedInTotal(l) then RequestShare(l.q, c) else 0) +
      (if RecordedInTotal(l) then ResponseShare(l.q, l.status, c) else 0)
  }

  ghost function ShareOf(cfg: Config, c: Counter): Life -> int {
    (l: Life) => Share(cfg, l, c)
  }

  ghost predicate TotalsExact(s: State) {
    forall c :: Get(s.total, c) == SumOver(s.lives, ShareOf(s.cfg, c))
  }

  lemma ShareStep(cfg: Config, env: Env, inflight: int, registry: map<string, nat>, total: Tally, l: Life, a: Action, c: Counter)
    requires LifeOk(cfg, l) && CanAct(cfg, env, l, a)
    ensures Share(cfg, NextLife(cfg, inflight, registry, l, a), c) - Share(cfg, l, c) ==
            Get(NextTotal(total, l, a), c) - Get(total, c)
  {
    hide GroupOf, Checks, Refusal, Passes, Justified, ChecksOk, OnRequest, OnResponse, RequestShare, ResponseShare;
    SharesAreRaises(total, l.q, l.status, c);
  }

  lemma TotalsStep(s: State, step: Step)
    requires LivesOk(s) && TotalsExact(s) && Enabled(s, step)
    ensures TotalsExact(Apply(s, step))
  {
    hide SumOver, NextLife, NextObjs, NextTotal, LifeOk, CanAct, Get, FirstLife;
    var s' := Apply(s, step);
    forall c ensures Get(s'.total, c) == SumOver(s'.lives, ShareOf(s'.cfg, c)) {
      match step
      case Arrive(r, q) =>
        SumOverUpdate(s.lives, r, FirstLife(s.cfg, q), ShareOf(s.cfg, c));
        FirstShare(s.cfg, q, c);
      case Act(r, a) =>
        var l := s.lives[r];
        SumOverUpdate(s.lives, r, NextLife(s.cfg, s.inflight, s.registry, l, a), ShareOf(s.cfg, c));
        ShareStep(s.cfg, s.env, s.inflight, s.registry, s.total, l, a, c);
      case _ =>
    }
  }

  lemma FirstShare(cfg: Config, q: Request, c: Counter)
    ensures Share(cfg, FirstLife(cfg, q), c) == 0
    ensures Window(FirstLife(cfg, q), c) == 0
  {
  }

  // ---------------------------------------------------------------- copyset metrics

  /** What a request has added to a copyset metric but not yet to the totals. */
  ghost function Window(l: Life, c: Counter): int {
    if l.closure.ReqTotal? then RequestShare(l.q, c)
    else if l.closure.RespTotal? then ResponseShare(l.q, l.status, c)
    else 0
  }

  ghost function WindowOf(c: Counter): Life -> int {
    (l: Life) => Window(l, c)
  }

  ghost function Tallied(objs: map<nat, CopysetMetric>, obj: nat, c: Counter): int {
    if obj in objs then Get(objs[obj].tally, c) else 0
  }

  ghost function PerCopyset(s: State, c: Counter): map<string, int> {
    map g | g in s.registry :: Tallied(s.objs, s.registry[g], c)
  }

  /** Summed over the registered copysets, no counter exceeds the server total and what is on its way there. */
  ghost predicate CopysetsBounded(s: State) {
    forall c :: Sum(PerCopyset(s, c)) <= Get(s.total, c) + SumOver(s.lives, WindowOf(c))
  }

  /** The closure has fetched the metric object. */
  ghost predicate Refers(l: Life, o: nat) {
    l.reqObj == Some(o) || l.respObj == Some(o)
  }

  /** Every registered object is the metric of the copyset it is registered for. */
  ghost predicate RegistryApart(s: State) {
    forall g | g in s.registry :: s.registry[g] in s.objs && s.objs[s.registry[g]].group == g
  }

  /** An object that is still being created is all zero and nobody else refers to it. */
  ghost predicate CreatorsApart(s: State) {
    && (forall t | t in s.creators && s.creators[t].Built? ::
          && s.creators[t].obj in s.objs && s.objs[s.creators[t].obj] == CopysetMetric(s.creators[t].group, map[])
          && (forall g | g in s.registry :: s.registry[g] != s.creators[t].obj))
    && (forall t, u | t in s.creators && u in s.creators && s.creators[t].Built? && s.creators[u].Built? &&
                      s.creators[t].obj == s.creators[u].obj :: t == u)
  }

  /** A closure has fetched no objects but those of its own copyset. */
  ghost predicate FetchedApart(s: State) {
    forall r, o | r in s.lives && Refers(s.lives[r], o) ::
      && o in s.objs && s.objs[o].group == GroupOf(s.lives[r].q)
      && (forall t | t in s.creators && s.creators[t].Built? :: s.creators[t].obj != o)
  }

  ghost predicate ObjectsApart(s: State) {
    RegistryApart(s) && CreatorsApart(s) && FetchedApart(s)
  }

  lemma ObjectsApartAct(s: State, r: nat, a: Action)
    requires ObjectsApart(s) && Enabled(s, Act(r, a))
    ensures ObjectsApart(Apply(s, Act(r, a)))
  {
    hide NextLife, NextTotal, NextObjs, CanAct, GroupOf, Refers;
    NextFetched(s.cfg, s.inflight, s.registry, s.lives[r], a);
    NextObjsFrame(s.objs, s.lives[r], a);
  }

  lemma ObjectsApartMetrics(s: State, step: Step)
    requires ObjectsApart(s) && Enabled(s, step)
    requires step.CheckAbsent? || step.RemoveMetric? || step.UpdateEpoch? || step.ChangeCopysets?
    ensures ObjectsApart(Apply(s, step))
  {
    hide Refers, UpdatedEpochs, GroupOf;
  }

  lemma BuildMetricApart(s: State, step: Step)
    requires ObjectsApart(s) && Enabled(s, step) && step.BuildMetric?
    ensures ObjectsApart(Apply(s, step))
  {
    hide Refers, GroupOf;
  }

  lemma AddMetricApart(s: State, step: Step)
    requires ObjectsApart(s) && Enabled(s, step) && step.AddMetric?
    ensures ObjectsApart(Apply(s, step))
  {
    hide Refers, GroupOf;
  }

  lemma ArriveApart(s: State, step: Step)
    requires ObjectsApart(s) && Enabled(s, step) && step.Arrive?
    ensures ObjectsApart(Apply(s, step))
  {
    hide GroupOf, Metered;
  }

  lemma ObjectsApartStep(s: State, step: Step)
    requires ObjectsApart(s) && Enabled(s, step)
    ensures ObjectsApart(Apply(s, step))
  {
    hide ObjectsApart, Apply;
    match step
    case Arrive(_, _) => ArriveApart(s, step);
    case Act(r, a) => ObjectsApartAct(s, r, a);
    case AddMetric(_) => AddMetricApart(s, step);
    case BuildMetric(_, _) => BuildMetricApart(s, step);
    case _ => ObjectsApartMetrics(s, step);
  }

  /** A closure fetches no object but the one that is registered for its copyset. */
  lemma NextFetched(cfg: Config, inflight: int, registry: map<string, nat>, l: Life, a: Action)
    ensures var l' := NextLife(cfg, inflight, registry, l, a);
            && l'.q == l.q
            && (forall o | Refers(l', o) :: Refers(l, o) || (GroupOf(l.q) in registry && registry[GroupOf(l.q)] == o))
  {
    hide Refusal, Metered, GroupOf;
  }

  lemma NextObjsFrame(objs: map<nat, CopysetMetric>, l: Life, a: Action)
    ensures NextObjs(objs, l, a).Keys == objs.Keys
    ensures forall o | o in objs :: NextObjs(objs, l, a)[o].group == objs[o].group
    ensures forall o | o in objs && !Refers(l, o) :: NextObjs(objs, l, a)[o] == objs[o]
  {
    hide OnRequest, OnResponse;
  }

  /** By how much an action raises counter c of the object it fetched. */
  ghost function CopysetShare(l: Life, a: Action, c: Counter): int {
    if a.CountInCopyset? then RequestShare(l.q, c)
    else if a.RecordInCopyset? then ResponseShare(l.q, l.status, c)
    else 0
  }

  lemma WindowStep(cfg: Config, env: Env, inflight: int, registry: map<string, nat>, total: Tally, l: Life, a: Action, c: Counter)
    requires LifeOk(cfg, l) && CanAct(cfg, env, l, a)
    ensures Window(NextLife(cfg, inflight, registry, l, a), c) - Window(l, c) ==
            CopysetShare(l, a, c) - (Get(NextTotal(total, l, a), c) - Get(total, c))
  {
    hide GroupOf, Checks, Refusal, Passes, Justified, ChecksOk, OnRequest, OnResponse, RequestShare, ResponseShare, Metered;
    SharesAreRaises(total, l.q, l.status, c);
  }

  /** Only the target of an action is raised, by its share. */
  lemma TalliedStep(objs: map<nat, CopysetMetric>, l: Life, a: Action, o: nat, c: Counter)
    ensures Tallied(NextObjs(objs, l, a), o, c) ==
            Tallied(objs, o, c) + if o in objs && Target(l, a) == Some(o) then CopysetShare(l, a, c) else 0
    ensures CopysetShare(l, a, c) >= 0
  {
    hide OnRequest, OnResponse, RequestShare, ResponseShare;
    if o in objs {
      SharesAreRaises(objs[o].tally, l.q, l.status, c);
    }
  }

  lemma PerCopysetAct(s: State, r: nat, a: Action, c: Counter)
    requires ObjectsApart(s) && Enabled(s, Act(r, a))
    ensures Sum(PerCopyset(Apply(s, Act(r, a)), c)) <= Sum(PerCopyset(s, c)) + CopysetShare(s.lives[r], a, c)
  {
    hide NextLife, NextObjs, NextTotal, CanAct, CopysetShare, Tallied, Sum;
    var l, s' := s.lives[r], Apply(s, Act(r, a));
    var before, after := PerCopyset(s, c), PerCopyset(s', c);
    forall g | g in s.registry
      ensures after[g] <= before[g] + if Target(l, a) == Some(s.registry[g]) then CopysetShare(l, a, c) else 0
    {
      TalliedStep(s.objs, l, a, s.registry[g], c);
    }
    TalliedStep(s.objs, l, a, 0, c);
    if g :| g in s.registry && Target(l, a) == Some(s.registry[g]) {
      SumUpdate(before, g, before[g] + CopysetShare(l, a, c));
      SumAtMost(after, before[g := before[g] + CopysetShare(l, a, c)]);
    } else {
      SumAtMost(after, before);
    }
  }

  lemma SumAtMost<K>(a: map<K, int>, b: map<K, int>)
    requires a.Keys == b.Keys && forall k | k in a :: a[k] <= b[k]
    ensures Sum(a) <= Sum(b)
  {
    var d := map k | k in a :: b[k] - a[k];
    SumAdds(b, a, d);
    SumNotNegative(d);
  }

  lemma PerCopysetAdd(s: State, t: nat, c: Counter)
    requires CreatorsApart(s) && Enabled(s, AddMetric(t))
    ensures Sum(PerCopyset(Apply(s, AddMetric(t)), c)) <= Sum(PerCopyset(s, c))
  {
    hide Sum;
    var before, after := PerCopyset(s, c), PerCopyset(Apply(s, AddMetric(t)), c);
    var g := s.creators[t].group;
    if g !in s.registry {
      SumUpdate(before, g, 0);
      assert after == before[g := 0];
    }
  }

  lemma PerCopysetRemove(s: State, g: string, c: Counter)
    ensures Sum(PerCopyset(Apply(s, RemoveMetric(g)), c)) <= Sum(PerCopyset(s, c))
  {
    hide Sum;
    var before, after := PerCopyset(s, c), PerCopyset(Apply(s, RemoveMetric(g)), c);
    if g in s.registry {
      SumPick(before, g);
      assert after == before - {g};
    } else {
      assert after == before;
    }
  }

  lemma PerCopysetOther(s: State, step: Step, c: Counter)
    requires RegistryApart(s) && CreatorsApart(s) && Enabled(s, step) && !step.Act?
    ensures Sum(PerCopyset(Apply(s, step), c)) <= Sum(PerCopyset(s, c))
  {
    hide FirstLife, Sum, CreatorsApart;
    if step.AddMetric? {
      PerCopysetAdd(s, step.t, c);
    } else if step.RemoveMetric? {
      PerCopysetRemove(s, step.group, c);
    } else {
      assert PerCopyset(Apply(s, step), c) == PerCopyset(s, c);
    }
  }

  lemma CopysetsStep(s: State, step: Step)
    requires LivesOk(s) && ObjectsApart(s) && CopysetsBounded(s) && Enabled(s, step)
    ensures CopysetsBounded(Apply(s, step))
  {
    hide SumOver, Sum, PerCopyset, NextLife, NextObjs, NextTotal, LifeOk, CanAct, Get, FirstLife, RegistryApart,
         CreatorsApart, FetchedApart, CopysetShare;
    var s' := Apply(s, step);
    forall c ensures Sum(PerCopyset(s', c)) <= Get(s'.total, c) + SumOver(s'.lives, WindowOf(c)) {
      match step
      case Act(r, a) =>
        var l := s.lives[r];
        PerCopysetAct(s, r, a, c);
        SumOverUpdate(s.lives, r, NextLife(s.cfg, s.inflight, s.registry, l, a), WindowOf(c));
        WindowStep(s.cfg, s.env, s.inflight, s.registry, s.total, l, a, c);
      case Arrive(r, q) =>
        PerCopysetOther(s, step, c);
        SumOverUpdate(s.lives, r, FirstLife(s.cfg, q), WindowOf(c));
        FirstShare(s.cfg, q, c);
      case _ => PerCopysetOther(s, step, c);
    }
  }

  // ---------------------------------------------------------------- what each metric object has counted

  predicate CountedInCopyset(l: Life) {
    !l.closure.ReqFetch? && !l.closure.ReqCopyset?
  }

  predicate RecordedInCopyset(l: Life) {
    l.closure.RespTotal? || RecordedInTotal(l)
  }

  /** What one request has added to counter c of metric object o so far. */
  ghost function ObjShare(l: Life, o: nat, c: Counter): int {
    (if l.reqObj == Some(o) && CountedInCopyset(l) then RequestShare(l.q, c) else 0) +
    (if l.respObj == Some(o) && RecordedInCopyset(l) then ResponseShare(l.q, l.status, c) else 0)
  }

  ghost function ObjShareOf(o: nat, c: Counter): Life -> int {
    (l: Life) => ObjShare(l, o, c)
  }

  ghost predicate ObjsExact(s: State) {
    forall o, c | o in s.objs :: Tallied(s.objs, o, c) == SumOver(s.lives, ObjShareOf(o, c))
  }

  lemma ObjShareStep(cfg: Config, env: Env, inflight: int, registry: map<string, nat>, objs: map<nat, CopysetMetric>,
                     l: Life, a: Action, o: nat, c: Counter)
    requires LifeOk(cfg, l) && CanAct(cfg, env, l, a) && o in objs
    ensures ObjShare(NextLife(cfg, inflight, registry, l, a), o, c) - ObjShare(l, o, c) ==
            Tallied(NextObjs(objs, l, a), o, c) - Tallied(objs, o, c)
  {
    hide GroupOf, Checks, Refusal, Passes, Justified, ChecksOk, RequestShare, ResponseShare, NextObjs, Tallied;
    TalliedStep(objs, l, a, o, c);
  }

  lemma NobodyRefers(lives: map<nat, Life>, o: nat, c: Counter)
    requires forall r | r in lives :: !Refers(lives[r], o)
    ensures SumOver(lives, ObjShareOf(o, c)) == 0
  {
    hide Sum;
    var m := Over(lives, ObjShareOf(o, c));
    forall r | r in m ensures m[r] == 0 {
      assert !Refers(lives[r], o);
    }
    SumAdds(m, m, m);
  }

  lemma ObjsExactStep(s: State, step: Step)
    requires LivesOk(s) && ObjectsApart(s) && ObjsExact(s) && Enabled(s, step)
    ensures ObjsExact(Apply(s, step))
  {
    hide SumOver, NextLife, NextObjs, NextTotal, LifeOk, CanAct, Tallied, FirstLife, RegistryApart, CreatorsApart, Refers, ObjShare;
    var s' := Apply(s, step);
    match step {
      case Arrive(r, q) =>
        forall o, c | o in s'.objs ensures Tallied(s'.objs, o, c) == SumOver(s'.lives, ObjShareOf(o, c)) {
          SumOverUpdate(s.lives, r, FirstLife(s.cfg, q), ObjShareOf(o, c));
          FirstObjShare(s.cfg, q, o, c);
        }
      case Act(r, a) =>
        var l := s.lives[r];
        NextObjsFrame(s.objs, l, a);
        forall o, c | o in s'.objs ensures Tallied(s'.objs, o, c) == SumOver(s'.lives, ObjShareOf(o, c)) {
          SumOverUpdate(s.lives, r, NextLife(s.cfg, s.inflight, s.registry, l, a), ObjShareOf(o, c));
          ObjShareStep(s.cfg, s.env, s.inflight, s.registry, s.objs, l, a, o, c);
        }
      case BuildMetric(t, obj) =>
        forall o, c | o in s'.objs ensures Tallied(s'.objs, o, c) == SumOver(s'.lives, ObjShareOf(o, c)) {
          BuiltTallies(s.objs, obj, s.creators[t].group, o, c);
          if o == obj {
            NobodyRefers(s.lives, obj, c);
          }
        }
      case _ =>
    }
  }

  lemma FirstObjShare(cfg: Config, q: Request, o: nat, c: Counter)
    ensures ObjShare(FirstLife(cfg, q), o, c) == 0
  {
  }

  lemma BuiltTallies(objs: map<nat, CopysetMetric>, obj: nat, group: string, o: nat, c: Counter)
    requires obj !in objs
    ensures Tallied(objs[obj := CopysetMetric(group, map[])], o, c) == if o == obj then 0 else Tallied(objs, o, c)
  {
  }

  // ---------------------------------------------------------------- what holds in every run

  ghost predicate Inv(s: State) {
    && LivesOk(s) && InflightExact(s) && AdmissionBounded(s) && TotalsExact(s)
    && ObjectsApart(s) && CopysetsBounded(s) && ObjsExact(s)
  }

  lemma InitInv(s: State)
    requires Init(s)
    ensures Inv(s)
  {
    assert forall f: Life -> int :: Over(s.lives, f) == map[];
    assert forall c :: PerCopyset(s, c) == map[];
  }

  lemma StepKeepsInv(s: State, step: Step)
    requires Inv(s) && Enabled(s, step)
    ensures Inv(Apply(s, step))
  {
    hide LivesOk, InflightExact, AdmissionBounded, TotalsExact, ObjectsApart, CopysetsBounded, ObjsExact, Enabled, Apply;
    LivesOkStep(s, step);
    InflightStep(s, step);
    AdmissionStep(s, step);
    TotalsStep(s, step);
    ObjectsApartStep(s, step);
    CopysetsStep(s, step);
    ObjsExactStep(s, step);
  }

  lemma {:induction false} InvInRuns(states: seq<State>, steps: seq<Step>, i: nat)
    requires IsRun(states, steps) && i < |states|
    ensures Inv(states[i])
  {
    hide Inv, Enabled, Apply, Init;
    if i == 0 {
      InitInv(states[0]);
    } else {
      InvInRuns(states, steps, i - 1);
      StepKeepsInv(states[i - 1], steps[i - 1]);
    }
  }

  /** Every closure runs once and replies once, by whichever way its handler is left: when the handler
      is left without hand-off the closure has run, and a handed-off closure that has not run is
      in the hands of its operation. Without a hand-off the reply is overload, or the refusal
      of the first check that failed, or the answer of GetChunkInfo; a request is handed off
      only after all its checks. */
  lemma ClosuresRunOnce(states: seq<State>, steps: seq<Step>, i: nat, r: nat)
    requires IsRun(states, steps) && i < |states| && r in states[i].lives
    ensures var l := states[i].lives[r];
            && l.runs <= 1 && l.replies <= l.runs
            && (l.closure.Destroyed? ==> l.runs == 1 && l.replies == 1)
            && (l.handler.Exited? && !l.handedOff ==> l.runs == 1)
            && (l.handedOff && l.runs == 0 ==> l.owner.Operation?)
            && (l.replies == 1 && !l.handedOff ==> Justified(l))
            && (l.handedOff ==> l.admitted && l.passed == Checks(l.q.handler))
            && ChecksOk(states[i].cfg, l)
  {
    hide Justified, ChecksOk, InflightExact, AdmissionBounded, TotalsExact, ObjectsApart, CopysetsBounded, ObjsExact, Enabled, Apply;
    InvInRuns(states, steps, i);
  }

  // ---------------------------------------------------------------- every request ends

  /** How far the handler and the closure are from their ends. */
  function HandlerLeft(h: HandlerPc, checks: int): int {
    match h
    case Constructing => checks + 4
    case AtOverloadTest => checks + 3
    case AtChecks => checks + 2
    case Returning => 1
    case Exited => 0
  }

  function ClosureLeft(c: ClosurePc): nat {
    match c
    case ReqFetch => 9
    case ReqCopyset => 8
    case ReqTotal => 7
    case Waiting => 6
    case RespFetch => 5
    case RespCopyset => 4
    case RespTotal => 3
    case Replying => 2
    case Decrementing => 1
    case Destroyed => 0
  }

  function ActionsLeft(l: Life): int {
    HandlerLeft(l.handler, |Checks(l.q.handler)| - |l.passed|) + ClosureLeft(l.closure)
  }

  const MAX_ACTIONS := 16

  lemma FewActionsLeft(cfg: Config, l: Life)
    requires LifeOk(cfg, l)
    ensures 0 <= ActionsLeft(l) <= MAX_ACTIONS
  {
    hide Justified, Concluded, Metered;
    assert |Checks(l.q.handler)| <= 3;
  }

  /** Every action of a request brings it nearer to its end. */
  lemma ActionsLower(cfg: Config, env: Env, inflight: int, registry: map<string, nat>, l: Life, a: Action)
    requires LifeOk(cfg, l) && CanAct(cfg, env, l, a)
    ensures ActionsLeft(NextLife(cfg, inflight, registry, l, a)) < ActionsLeft(l)
  {
    hide Justified, Concluded, Metered, Checks, GroupOf, Refusal, Passes;
  }

  /** A request that has not ended can act, whatever the others do. */
  lemma CanStillAct(cfg: Config, env: Env, l: Life) returns (a: Action)
    requires LifeOk(cfg, l) && !l.closure.Destroyed?
    ensures CanAct(cfg, env, l, a)
  {
    hide Justified, Metered;
    a := match l.closure
      case ReqFetch => FetchForRequest
      case ReqCopyset => CountInCopyset
      case ReqTotal => CountInTotal
      case RespFetch => FetchForResponse
      case RespCopyset => RecordInCopyset
      case RespTotal => RecordInTotal
      case Replying => Reply
      case Decrementing => Decrement
      case _ => WhileWaiting(cfg, env, l);
  }

  /** What a request does whose closure waits to be run. */
  ghost function WhileWaiting(cfg: Config, env: Env, l: Life): Action {
    match l.handler
    case AtOverloadTest => TestOverload
    case AtChecks =>
      if |l.passed| < |Checks(l.q.handler)| then
        var c := Checks(l.q.handler)[|l.passed|];
        DoCheck(c, Passes(cfg, env, l.q, c))
      else if l.q.handler.GetChunkInfo? then AnswerInPlace(Success) else HandOff
    case Returning => ReturnFromHandler
    case _ => OperationDone(Success)
  }

  /** The actions that request r has taken. */
  ghost function ActionsOf(steps: seq<Step>, r: nat): nat {
    if steps == [] then 0
    else
      var step := steps[|steps| - 1];
      ActionsOf(steps[..|steps| - 1], r) + if step.Act? && step.r == r then 1 else 0
  }

  /** What one step of a run does to one request. */
  lemma OneStep(states: seq<State>, steps: seq<Step>, i: nat, r: nat)
    requires IsRun(states, steps) && i < |steps|
    ensures var s, s', acts := states[i], states[i + 1], steps[i].Act? && steps[i].r == r;
            && s'.cfg == s.cfg
            && (r in s.lives ==> r in s'.lives)
            && (r in s.lives && acts ==>
                  && CanAct(s.cfg, s.env, s.lives[r], steps[i].a)
                  && s'.lives[r] == NextLife(s.cfg, s.inflight, s.registry, s.lives[r], steps[i].a))
            && (r in s.lives && !acts ==> s'.lives[r] == s.lives[r])
            && (r !in s.lives ==> !acts)
            && (r !in s.lives && r in s'.lives ==> exists q :: steps[i] == Arrive(r, q) && s'.lives[r] == FirstLife(s.cfg, q))
  {
    hide NextLife, CanAct, NextObjs, NextTotal, FirstLife;
    assert Enabled(states[i], steps[i]) && states[i + 1] == Apply(states[i], steps[i]);
  }

  /** In every run a request takes at most sixteen actions. */
  lemma {:induction false} ActionsAreBounded(states: seq<State>, steps: seq<Step>, i: nat, r: nat)
    requires IsRun(states, steps) && i < |states|
    ensures if r in states[i].lives then ActionsOf(steps[..i], r) + ActionsLeft(states[i].lives[r]) <= MAX_ACTIONS
            else ActionsOf(steps[..i], r) == 0
  {
    hide Inv, CanAct, NextLife, FirstLife, LifeOk, ActionsLeft, Enabled, Apply;
    if i > 0 {
      ActionsAreBounded(states, steps, i - 1, r);
      var s, step := states[i - 1], steps[i - 1];
      OneStep(states, steps, i - 1, r);
      assert steps[..i][..i - 1] == steps[..i - 1];
      LivesAreOk(states, steps, i - 1);
      LivesAreOk(states, steps, i);
      if r in s.lives {
        if step.Act? && step.r == r {
          ActionsLower(s.cfg, s.env, s.inflight, s.registry, s.lives[r], step.a);
        }
      } else if r in states[i].lives {
        FewActionsLeft(s.cfg, states[i].lives[r]);
      }
    }
  }

  lemma LivesAreOk(states: seq<State>, steps: seq<Step>, i: nat)
    requires IsRun(states, steps) && i < |states|
    ensures forall r | r in states[i].lives :: LifeOk(states[i].cfg, states[i].lives[r])
  {
    hide LifeOk, InflightExact, AdmissionBounded, TotalsExact, ObjectsApart, CopysetsBounded, ObjsExact, IsRun;
    InvInRuns(states, steps, i);
  }

  /** Exactly once: a request is never stuck before its closure is destroyed, and when no action of it
      is left its closure has run once, has replied once and is gone. */
  lemma RequestsEnd(states: seq<State>, steps: seq<Step>, i: nat, r: nat)
    requires IsRun(states, steps) && i < |states| && r in states[i].lives
    ensures var l := states[i].lives[r];
            && (!l.closure.Destroyed? ==> exists a :: Enabled(states[i], Act(r, a)))
            && ((forall a :: !Enabled(states[i], Act(r, a))) ==> l.closure.Destroyed? && l.runs == 1 && l.replies == 1)
  {
    hide LifeOk, IsRun, CanAct;
    var l := states[i].lives[r];
    LivesAreOk(states, steps, i);
    ClosuresRunOnce(states, steps, i, r);
    if !l.closure.Destroyed? {
      var a := CanStillAct(states[i].cfg, states[i].env, l);
      assert Enabled(states[i], Act(r, a));
    }
  }

  // ---------------------------------------------------------------- what is handed off

  predicate IsRanged(h: Handler) {
    h.WriteChunk? || h.ReadChunk? || h.RecoverChunk? || h.ReadChunkSnapshot?
  }

  /** A request that reaches an operation was admitted and passed the checks of its method. Its range
      is aligned, and lies inside the chunk exactly when its end does not wrap around. */
  lemma HandedOffRange(states: seq<State>, steps: seq<Step>, i: nat, r: nat)
    requires IsRun(states, steps) && i < |states| && r in states[i].lives && states[i].lives[r].handedOff
    ensures var l, cfg := states[i].lives[r], states[i].cfg;
            && l.admitted
            && (IsRanged(l.q.handler) ==>
                  && OffsetAndLengthOk(cfg, l.q.offset, l.q.size)
                  && (l.q.offset + l.q.size <= cfg.maxChunkSize <==> l.q.offset + l.q.size < TWO_32)
                  && Aligned(l.q.offset, cfg.blockSize) && Aligned(l.q.size, cfg.blockSize))
            && (l.q.handler.CreateCloneChunk? ==> l.q.size == cfg.maxChunkSize)
            && (l.q.handler.DeleteChunkSnapshotOrCorrectSn? ==> l.q.hasCorrectedSn)
  {
    hide Justified, OffsetAndLengthOk, IsRun;
    ClosuresRunOnce(states, steps, i, r);
    var l, cfg := states[i].lives[r], states[i].cfg;
    assert |Checks(l.q.handler)| > 0 ==> Concluded(cfg, l.q, l.passed[0], true);
    assert |Checks(l.q.handler)| > 1 ==> Concluded(cfg, l.q, l.passed[1], true);
    if IsRanged(l.q.handler) {
      AcceptedRange(cfg, l.q.offset, l.q.size);
    }
  }

  lemma AcceptedRange(cfg: Config, offset: UInt32, len: UInt32)
    requires OffsetAndLengthOk(cfg, offset, len)
    ensures offset + len <= cfg.maxChunkSize <==> offset + len < TWO_32
    ensures Aligned(offset, cfg.blockSize) && Aligned(len, cfg.blockSize)
  {
  }

  /** A read of the last block below 4 GiB, in a server with chunks of 16 MiB. */
  function WrappingRead(): Request {
    Request(ReadChunk, Read, 0, 0, 0xffff_f000, 0x1000, 0, false, 0, false)
  }

  const SMALL_CHUNKS := Config(1, false, 0x100_0000, 0x1000)

  /** The server has the read's copyset. */
  function OneCopyset(): Env {
    Env({GroupOf(WrappingRead())}, {}, map[])
  }

  /** The read alone in the server, with its handler at the given place. */
  ghost function ReadAlone(h: HandlerPc, owner: Owner, passed: seq<Check>, handedOff: bool): State {
    var l := Life(WrappingRead(), h, owner, Waiting, OtherStatus, !h.AtOverloadTest?, passed, None, handedOff, None, None, 0, 0);
    State(SMALL_CHUNKS, OneCopyset(), 1, map[0 := l], map[], map[], map[], map[])
  }

  lemma ReadActs(s: State, a: Action, s': State)
    requires 0 in s.lives && CanAct(s.cfg, s.env, s.lives[0], a) && (a.TestOverload? || a.DoCheck? || a.HandOff?)
    requires s'.lives == s.lives[0 := NextLife(s.cfg, s.inflight, s.registry, s.lives[0], a)]
    requires s' == s.(lives := s'.lives)
    ensures Enabled(s, Act(0, a)) && s' == Apply(s, Act(0, a))
  {
    hide NextLife, CanAct;
  }

  ghost predicate Leads(s: State, step: Step, s': State) {
    Enabled(s, step) && s' == Apply(s, step)
  }

  lemma ReadArrives(s0: State)
    requires s0 == State(SMALL_CHUNKS, OneCopyset(), 0, map[], map[], map[], map[], map[])
    ensures Leads(s0, Arrive(0, WrappingRead()), ReadAlone(AtOverloadTest, Guard, [], false))
    ensures Leads(ReadAlone(AtOverloadTest, Guard, [], false), Act(0, TestOverload), ReadAlone(AtChecks, Guard, [], false))
  {
    hide GroupOf;
    ReadActs(ReadAlone(AtOverloadTest, Guard, [], false), TestOverload, ReadAlone(AtChecks, Guard, [], false));
  }

  lemma ReadIsChecked(passed: seq<Check>, c: Check)
    requires (passed == [] && c == Bounds) || (passed == [Bounds] && c == Copyset)
    ensures Leads(ReadAlone(AtChecks, Guard, passed, false), Act(0, DoCheck(c, true)), ReadAlone(AtChecks, Guard, passed + [c], false))
  {
    hide GroupOf;
    ReadActs(ReadAlone(AtChecks, Guard, passed, false), DoCheck(c, true), ReadAlone(AtChecks, Guard, passed + [c], false));
  }

  lemma ReadIsHandedOff()
    ensures Leads(ReadAlone(AtChecks, Guard, [Bounds, Copyset], false), Act(0, HandOff),
                  ReadAlone(Returning, Operation, [Bounds, Copyset], true))
  {
    hide GroupOf;
    ReadActs(ReadAlone(AtChecks, Guard, [Bounds, Copyset], false), HandOff, ReadAlone(Returning, Operation, [Bounds, Copyset], true));
  }

  /** The end of that read wraps to zero, and there is a run that hands it off. */
  lemma WrappingReadIsHandedOff() returns (states: seq<State>, steps: seq<Step>)
    ensures IsRun(states, steps) && |states| == 6
    ensures states[5] == ReadAlone(Returning, Operation, [Bounds, Copyset], true)
    ensures WrappingRead().offset + WrappingRead().size > SMALL_CHUNKS.maxChunkSize
  {
    hide ReadAlone, OneCopyset, Apply, Enabled;
    var s0 := State(SMALL_CHUNKS, OneCopyset(), 0, map[], map[], map[], map[], map[]);
    ReadArrives(s0);
    ReadIsChecked([], Bounds);
    ReadIsChecked([Bounds], Copyset);
    ReadIsHandedOff();
    assert [] + [Bounds] == [Bounds] && [Bounds] + [Copyset] == [Bounds, Copyset];
    states := [s0, ReadAlone(AtOverloadTest, Guard, [], false), ReadAlone(AtChecks, Guard, [], false),
               ReadAlone(AtChecks, Guard, [Bounds], false), ReadAlone(AtChecks, Guard, [Bounds, Copyset], false),
               ReadAlone(Returning, Operation, [Bounds, Copyset], true)];
    steps := [Arrive(0, WrappingRead()), Act(0, TestOverload), Act(0, DoCheck(Bounds, true)), Act(0, DoCheck(Copyset, true)),
              Act(0, HandOff)];
    assert Init(s0);
    assert forall i | 0 <= i < 5 :: Leads(states[i], steps[i], states[i + 1]);
  }

  // ---------------------------------------------------------------- counts

  ghost function Unfinished(s: State): set<nat> {
    set r | r in s.lives && !s.lives[r].closure.Destroyed?
  }

  ghost function UnfinishedAdmitted(s: State): set<nat> {
    set r | r in s.lives && s.lives[r].admitted && !s.lives[r].closure.Destroyed?
  }

  /** The throttle counts exactly the unfinished requests, and at most the limit of them were admitted. */
  lemma ThrottleIsRight(states: seq<State>, steps: seq<Step>, i: nat)
    requires IsRun(states, steps) && i < |states|
    ensures states[i].inflight == |Unfinished(states[i])|
    ensures |UnfinishedAdmitted(states[i])| <= states[i].cfg.maxInflight
  {
    hide LivesOk, TotalsExact, ObjectsApart, CopysetsBounded, ObjsExact, Enabled, Apply, Sum;
    InvInRuns(states, steps, i);
    var s := states[i];
    var a, b := Over(s.lives, Alive), Over(s.lives, AdmittedAlive);
    SumCounts(a);
    SumCounts(b);
    assert (set r | r in a && a[r] == 1) == Unfinished(s);
    assert (set r | r in b && b[r] == 1) == UnfinishedAdmitted(s);
  }

  /** Requests of a type whose count is in the totals and whose outcome is not. */
  ghost function Unrecorded(s: State, op: OpType): set<nat> {
    set r | r in s.lives && UnrecordedLife(s.cfg, op, s.lives[r]) == 1
  }

  ghost function UnrecordedLife(cfg: Config, op: OpType, l: Life): int {
    if Metered(cfg, l.q) && l.q.opType == op && CountedInTotal(l) && !RecordedInTotal(l) then 1 else 0
  }

  ghost function UnrecordedOf(cfg: Config, op: OpType): Life -> int {
    (l: Life) => UnrecordedLife(cfg, op, l)
  }

  lemma RequestsConservedIn(s: State, op: OpType)
    requires LivesOk(s) && TotalsExact(s)
    ensures Get(s.total, Counter(op, ReqNum)) ==
            Get(s.total, Counter(op, IoNum)) + Get(s.total, Counter(op, ErrorNum)) + |Unrecorded(s, op)|
  {
    hide LifeOk, Share, UnrecordedLife, Sum, Get;
    var req := Over(s.lives, ShareOf(s.cfg, Counter(op, ReqNum)));
    var io := Over(s.lives, ShareOf(s.cfg, Counter(op, IoNum)));
    var err := Over(s.lives, ShareOf(s.cfg, Counter(op, ErrorNum)));
    var way := Over(s.lives, UnrecordedOf(s.cfg, op));
    var rest := map r | r in s.lives :: err[r] + way[r];
    forall r | r in s.lives ensures req[r] == io[r] + rest[r] && (way[r] == 0 || way[r] == 1) {
      ShareSplits(s.cfg, s.lives[r], op);
    }
    SumAdds(req, io, rest);
    SumAdds(rest, err, way);
    SumCounts(way);
    assert (set r | r in way && way[r] == 1) == Unrecorded(s, op);
  }

  /** Requests counted are successes, errors, and requests on their way. */
  lemma RequestsAreConserved(states: seq<State>, steps: seq<Step>, i: nat, op: OpType)
    requires IsRun(states, steps) && i < |states|
    ensures var s := states[i];
            Get(s.total, Counter(op, ReqNum)) ==
            Get(s.total, Counter(op, IoNum)) + Get(s.total, Counter(op, ErrorNum)) + |Unrecorded(s, op)|
  {
    hide LivesOk, TotalsExact, InflightExact, AdmissionBounded, ObjectsApart, CopysetsBounded, ObjsExact, Enabled, Apply;
    InvInRuns(states, steps, i);
    RequestsConservedIn(states[i], op);
  }

  lemma ShareSplits(cfg: Config, l: Life, op: OpType)
    requires LifeOk(cfg, l)
    ensures Share(cfg, l, Counter(op, ReqNum)) ==
            Share(cfg, l, Counter(op, IoNum)) + Share(cfg, l, Counter(op, ErrorNum)) + UnrecordedLife(cfg, op, l)
    ensures UnrecordedLife(cfg, op, l) == 0 || UnrecordedLife(cfg, op, l) == 1
  {
    hide Justified, ChecksOk, Metered;
  }

  /** No request is between its update of a copyset metric and its update of the totals. */
  ghost predicate AtBoundary(s: State) {
    forall r | r in s.lives :: !s.lives[r].closure.ReqTotal? && !s.lives[r].closure.RespTotal?
  }

  /** At method boundaries the registered copysets never add up to more than the server. */
  lemma CopysetsNeverExceedTotals(states: seq<State>, steps: seq<Step>, i: nat, c: Counter)
    requires IsRun(states, steps) && i < |states| && AtBoundary(states[i])
    ensures Sum(PerCopyset(states[i], c)) <= Get(states[i].total, c)
  {
    hide LivesOk, InflightExact, AdmissionBounded, TotalsExact, ObjectsApart, Enabled, Apply, Sum, Get;
    InvInRuns(states, steps, i);
    var s := states[i];
    var w := Over(s.lives, WindowOf(c));
    assert forall r | r in w :: w[r] == 0;
    var z := map r | r in w :: 0;
    SumAdds(w, w, z);
    SumAdds(z, z, z);
    assert w == z;
  }

  /** One step leaves a registered object in place unless it removes it, and lowers none of its counters. */
  lemma RegistrationStep(s: State, step: Step, g: string, c: Counter)
    requires ObjectsApart(s) && Enabled(s, step) && g in s.registry && step != RemoveMetric(g)
    ensures var s' := Apply(s, step);
            && g in s'.registry && s'.registry[g] == s.registry[g]
            && Tallied(s.objs, s.registry[g], c) <= Tallied(s'.objs, s.registry[g], c)
  {
    hide NextLife, NextTotal, CanAct, CreatorsApart, FetchedApart, Get;
    if step.Act? {
      var l := s.lives[step.r];
      var o := Target(l, step.a);
      if o.Some? && o.value in s.objs {
        SharesAreRaises(s.objs[o.value].tally, l.q, l.status, c);
      }
    }
  }

  /** From its registration until its removal a copyset keeps its metric object, whoever else creates
      one for it meanwhile, and none of its counters ever goes down; objects of different
      copysets differ. */
  lemma {:induction false} RegisteredObjectsStay(states: seq<State>, steps: seq<Step>, i: nat, j: nat, g: string, c: Counter)
    requires IsRun(states, steps) && i <= j < |states| && g in states[i].registry
    requires forall n | i <= n < j :: steps[n] != RemoveMetric(g)
    ensures g in states[j].registry && states[j].registry[g] == states[i].registry[g]
    ensures Tallied(states[i].objs, states[i].registry[g], c) <= Tallied(states[j].objs, states[j].registry[g], c)
    ensures forall h | h in states[j].registry && h != g :: states[j].registry[h] != states[j].registry[g]
    decreases j - i
  {
    hide LivesOk, InflightExact, AdmissionBounded, TotalsExact, CopysetsBounded, ObjsExact, CreatorsApart, FetchedApart, Enabled, Apply, Tallied;
    InvInRuns(states, steps, j);
    if i < j {
      RegisteredObjectsStay(states, steps, i, j - 1, g, c);
      InvInRuns(states, steps, j - 1);
      RegistrationStep(states[j - 1], steps[j - 1], g, c);
    }
  }

  /** Two copysets share a metric object only if they are the same copyset. */
  lemma CopysetsDoNotShare(states: seq<State>, steps: seq<Step>, i: nat, p: bv32, c: bv32, p': bv32, c': bv32)
    requires IsRun(states, steps) && i < |states|
    requires ToGroupId(p, c) in states[i].registry && ToGroupId(p', c') in states[i].registry
    ensures states[i].registry[ToGroupId(p, c)] == states[i].registry[ToGroupId(p', c')] <==> p == p' && c == c'
  {
    hide LivesOk, InflightExact, AdmissionBounded, TotalsExact, CopysetsBounded, ObjsExact, CreatorsApart, FetchedApart, ToGroupId, Enabled, Apply;
    InvInRuns(states, steps, i);
    GroupIdsDiffer(p, c, p', c');
  }
}
