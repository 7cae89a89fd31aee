/** What a chunk request goes through before it is handed off or refused, said by the steps of the
    run and by what the server held at those steps. */
module ChunkChecks {
  import opened Basics
  import opened GroupId
  import opened ChunkServer
  import opened ChunkServerProofs

  /** Request r has taken the action among the first i steps. */
  ghost predicate Did(steps: seq<Step>, i: nat, r: nat, a: Action) {
    exists n :: 0 <= n < i && n < |steps| && steps[n] == Act(r, a)
  }

  // ---------------------------------------------------------------- one request along a run

  lemma DidOneMore(steps: seq<Step>, i: nat, r: nat, a: Action)
    requires i < |steps|
    ensures Did(steps, i + 1, r, a) <==> Did(steps, i, r, a) || steps[i] == Act(r, a)
  {
  }

  /** A request keeps its contents, and the server its limits. */
  lemma {:induction false} RequestsStay(states: seq<State>, steps: seq<Step>, i: nat, j: nat, r: nat)
    requires IsRun(states, steps) && i <= j < |states|
    ensures states[j].cfg == states[i].cfg
    ensures r in states[i].lives ==> r in states[j].lives && states[j].lives[r].q == states[i].lives[r].q
    decreases j
  {
    hide CanAct, Refusal, Metered, GroupOf, Enabled, Apply, Init;
    if i < j {
      RequestsStay(states, steps, i, j - 1, r);
      OneStep(states, steps, j - 1, r);
    }
  }

  lemma FirstLifeUnchecked(cfg: Config, q: Request)
    ensures FirstLife(cfg, q).passed == [] && FirstLife(cfg, q).failed == None && FirstLife(cfg, q).handler != AtChecks
    ensures !FirstLife(cfg, q).admitted
  {
    hide Metered;
  }

  /** What an action does to the checks of its request. */
  lemma NextChecks(cfg: Config, env: Env, inflight: int, registry: map<string, nat>, l: Life, a: Action, c: Check)
    requires LifeOk(cfg, l) && CanAct(cfg, env, l, a)
    ensures var l' := NextLife(cfg, inflight, registry, l, a);
            && (c in l'.passed <==> c in l.passed || a == DoCheck(c, true))
            && (l'.failed == Some(c) <==> l.failed == Some(c) || a == DoCheck(c, false))
  {
    hide Refusal, Metered, GroupOf, Checks, Passes, ChecksOk, Justified;
  }

  /** The lists of checks tell exactly which checks the request has made, and how they ended. */
  lemma {:induction false} ChecksBySteps(states: seq<State>, steps: seq<Step>, i: nat, r: nat, c: Check)
    requires IsRun(states, steps) && i < |states|
    ensures r in states[i].lives ==>
              && (c in states[i].lives[r].passed <==> Did(steps, i, r, DoCheck(c, true)))
              && (states[i].lives[r].failed == Some(c) <==> Did(steps, i, r, DoCheck(c, false)))
    ensures r !in states[i].lives ==> !Did(steps, i, r, DoCheck(c, true)) && !Did(steps, i, r, DoCheck(c, false))
  {
    hide CanAct, NextLife, FirstLife, LifeOk, Did;
    if i > 0 {
      var s := states[i - 1];
      ChecksBySteps(states, steps, i - 1, r, c);
      OneStep(states, steps, i - 1, r);
      DidOneMore(steps, i - 1, r, DoCheck(c, true));
      DidOneMore(steps, i - 1, r, DoCheck(c, false));
      LivesAreOk(states, steps, i - 1);
      if r in s.lives {
        if steps[i - 1].Act? && steps[i - 1].r == r {
          NextChecks(s.cfg, s.env, s.inflight, s.registry, s.lives[r], steps[i - 1].a, c);
        }
      } else if r in states[i].lives {
        var q :| steps[i - 1] == Arrive(r, q) && states[i].lives[r] == FirstLife(s.cfg, q);
        FirstLifeUnchecked(s.cfg, q);
      }
    } else {
      NothingDone(steps, r, DoCheck(c, true));
      NothingDone(steps, r, DoCheck(c, false));
    }
  }

  lemma NothingDone(steps: seq<Step>, r: nat, a: Action)
    ensures !Did(steps, 0, r, a)
  {
  }

  /** A check that was made found at its step what it says. */
  lemma CheckFound(states: seq<State>, steps: seq<Step>, i: nat, r: nat, c: Check, pass: bool) returns (n: nat)
    requires IsRun(states, steps) && i < |states| && r in states[i].lives && Did(steps, i, r, DoCheck(c, pass))
    ensures n < i && steps[n] == Act(r, DoCheck(c, pass)) && r in states[n].lives
    ensures pass == Passes(states[i].cfg, states[n].env, states[i].lives[r].q, c)
  {
    hide Passes, NextLife;
    n :| 0 <= n < i && n < |steps| && steps[n] == Act(r, DoCheck(c, pass));
    OneStep(states, steps, n, r);
    RequestsStay(states, steps, n, i, r);
  }

  /** Aligned numbers are the multiples of the block size. */
  lemma AlignedMeansMultiple(n: UInt32, blockSize: UInt32)
    ensures Aligned(n, blockSize) <==> exists k: nat :: n == k * blockSize
  {
    if blockSize == 0 {
      assert n == 0 ==> n == 0 * blockSize;
    } else {
      assert n == (n / blockSize) * blockSize + n % blockSize;
      if k: nat :| n == k * blockSize {
        MultipleHasNoRest(k, blockSize);
      }
    }
  }

  lemma MultipleHasNoRest(k: nat, n: nat)
    requires n > 0
    ensures (k * n) % n == 0
  {
    var a := k * n;
    var d, r := k - a / n, a % n;
    assert a == (a / n) * n + r;
    assert d * n == r;
    if d >= 1 {
      AtLeast(d, n);
    } else if d <= -1 {
      AtLeast(-d, n);
    }
  }

  lemma AtLeast(d: nat, n: nat)
    requires d >= 1
    ensures d * n >= n
  {
  }

  // ---------------------------------------------------------------- what is handed off

  /** The file of the request has no epoch on this server or the request's own. */
  ghost predicate EpochFits(env: Env, q: Request) {
    !q.hasEpoch || q.fileId !in env.epochs || env.epochs[q.fileId] == q.epoch
  }

  /** A request that reaches an operation was admitted, has made the checks of its method in this order, and
      has failed none. Its copyset was on the server when it looked, and the epoch of a write was
      the server's. GetChunkInfo is never handed off. */
  lemma HandedOffAfterChecks(states: seq<State>, steps: seq<Step>, i: nat, r: nat)
    requires IsRun(states, steps) && i < |states| && r in states[i].lives && states[i].lives[r].handedOff
    ensures var l := states[i].lives[r];
            && l.admitted
            && (match l.q.handler
                case DeleteChunk => l.passed == [Copyset]
                case WriteChunk => l.passed == [Epoch, Bounds, Copyset]
                case CreateCloneChunk => l.passed == [WholeChunk, Copyset]
                case ReadChunk => l.passed == [Bounds, Copyset]
                case RecoverChunk => l.passed == [Bounds, Copyset]
                case ReadChunkSnapshot => l.passed == [Bounds, Copyset]
                case DeleteChunkSnapshotOrCorrectSn => l.passed == [CorrectedSn, Copyset]
                case GetChunkInfo => false)
            && (forall c | c in l.passed :: Did(steps, i, r, DoCheck(c, true)))
            && (forall c :: !Did(steps, i, r, DoCheck(c, false)))
            && (exists n :: 0 <= n < i && steps[n] == Act(r, DoCheck(Copyset, true)) &&
                            ToGroupId(l.q.logicPoolId, l.q.copysetId) in states[n].env.copysets)
            && (l.q.handler.WriteChunk? ==>
                  exists n :: 0 <= n < i && steps[n] == Act(r, DoCheck(Epoch, true)) && EpochFits(states[n].env, l.q))
  {
    hide IsRun, Did, ToGroupId, Concluded, OffsetAndLengthOk;
    var l := states[i].lives[r];
    LivesAreOk(states, steps, i);
    forall c
      ensures (c in l.passed <==> Did(steps, i, r, DoCheck(c, true))) && (l.failed == Some(c) <==> Did(steps, i, r, DoCheck(c, false)))
    {
      ChecksBySteps(states, steps, i, r, c);
    }
    var n := CheckFound(states, steps, i, r, Copyset, true);
    if l.q.handler.WriteChunk? {
      var k := CheckFound(states, steps, i, r, Epoch, true);
    }
  }

  /** The reply to a request that failed a check, what it had passed before, and what was wrong with it.
      Such a request is never handed off. */
  lemma RefusedByCheck(states: seq<State>, steps: seq<Step>, i: nat, r: nat, c: Check)
    requires IsRun(states, steps) && i < |states| && r in states[i].lives && Did(steps, i, r, DoCheck(c, false))
    ensures var l, cfg := states[i].lives[r], states[i].cfg;
            && l.admitted && !l.handedOff
            && (match c
                case Epoch =>
                  && l.status == EpochTooOld && l.q.handler.WriteChunk? && l.passed == []
                  && (exists n :: 0 <= n < i && steps[n] == Act(r, DoCheck(c, false)) && !EpochFits(states[n].env, l.q))
                case Bounds =>
                  && l.status == InvalidRequest && IsRanged(l.q.handler)
                  && l.passed == (if l.q.handler.WriteChunk? then [Epoch] else [])
                  && ((l.q.offset + l.q.size) % TWO_32 <= cfg.maxChunkSize ==>
                        !Aligned(l.q.offset, cfg.blockSize) || !Aligned(l.q.size, cfg.blockSize))
                case WholeChunk =>
                  l.status == InvalidRequest && l.q.handler.CreateCloneChunk? && l.passed == [] && l.q.size != cfg.maxChunkSize
                case CorrectedSn =>
                  l.status == InvalidRequest && l.q.handler.DeleteChunkSnapshotOrCorrectSn? && l.passed == [] && !l.q.hasCorrectedSn
                case Copyset =>
                  && l.status == CopysetNotExist
                  && (exists n :: 0 <= n < i && steps[n] == Act(r, DoCheck(c, false)) &&
                                  ToGroupId(l.q.logicPoolId, l.q.copysetId) !in states[n].env.copysets)
                case Leader =>
                  && l.status == Redirected && l.q.handler.GetChunkInfo? && l.passed == [Copyset]
                  && (exists n :: 0 <= n < i && steps[n] == Act(r, DoCheck(c, false)) &&
                                  ToGroupId(l.q.logicPoolId, l.q.copysetId) !in states[n].env.leading))
  {
    hide IsRun, Did, ToGroupId, Metered;
    LivesAreOk(states, steps, i);
    ChecksBySteps(states, steps, i, r, c);
    var l := states[i].lives[r];
    FailedNext(l.q.handler, l.passed, c);
    var n := CheckFound(states, steps, i, r, c, false);
  }

  /** What comes before a check. */
  lemma FailedNext(h: Handler, passed: seq<Check>, c: Check)
    requires passed <= Checks(h) && |passed| < |Checks(h)| && c == Checks(h)[|passed|]
    ensures c.Epoch? ==> h.WriteChunk? && passed == []
    ensures c.Bounds? ==> IsRanged(h) && passed == if h.WriteChunk? then [Epoch] else []
    ensures c.WholeChunk? ==> h.CreateCloneChunk? && passed == []
    ensures c.CorrectedSn? ==> h.DeleteChunkSnapshotOrCorrectSn? && passed == []
    ensures c.Leader? ==> h.GetChunkInfo? && passed == [Copyset]
  {
    assert passed == Checks(h)[..|passed|];
  }

  /** A request that replied without hand-off was turned away for overload, failed a check, or is a
      GetChunkInfo that found the server to have its copyset and to lead it. */
  lemma AnsweredInPlace(states: seq<State>, steps: seq<Step>, i: nat, r: nat)
    requires IsRun(states, steps) && i < |states| && r in states[i].lives
    requires states[i].lives[r].replies == 1 && !states[i].lives[r].handedOff
    ensures var l := states[i].lives[r];
            || (!l.admitted && l.status == Overload && l.passed == [])
            || (exists c :: Did(steps, i, r, DoCheck(c, false)))
            || (&& l.q.handler.GetChunkInfo? && l.passed == [Copyset, Leader] && (l.status == Success || l.status == FailureUnknown)
                && (exists n :: 0 <= n < i && steps[n] == Act(r, DoCheck(Copyset, true)) &&
                                ToGroupId(l.q.logicPoolId, l.q.copysetId) in states[n].env.copysets)
                && (exists n :: 0 <= n < i && steps[n] == Act(r, DoCheck(Leader, true)) &&
                                ToGroupId(l.q.logicPoolId, l.q.copysetId) in states[n].env.leading))
  {
    hide Enabled, Apply, Init, Did, ToGroupId;
    LivesAreOk(states, steps, i);
    ClosuresRunOnce(states, steps, i, r);
    var l := states[i].lives[r];
    if l.failed.Some? {
      ChecksBySteps(states, steps, i, r, l.failed.value);
    } else if l.admitted {
      ChecksBySteps(states, steps, i, r, Copyset);
      ChecksBySteps(states, steps, i, r, Leader);
      var n := CheckFound(states, steps, i, r, Copyset, true);
      var k := CheckFound(states, steps, i, r, Leader, true);
    }
  }

  lemma NextStatus(cfg: Config, env: Env, inflight: int, registry: map<string, nat>, l: Life, a: Action)
    requires LifeOk(cfg, l) && CanAct(cfg, env, l, a)
    ensures var l' := NextLife(cfg, inflight, registry, l, a);
            && (l.handedOff ==> l'.handedOff && (l.owner.Nobody? ==> l'.owner.Nobody? && l'.status == l.status))
            && (a.OperationDone? ==> l.handedOff && l'.owner.Nobody? && l'.status == a.s)
  {
    hide Refusal, Metered, GroupOf, Checks, Passes, ChecksOk, Justified;
  }

  /** The reply to a request that was handed off carries the status that its operation ended with. */
  lemma {:induction false} OperationDecidesStatus(states: seq<State>, steps: seq<Step>, n: nat, i: nat, r: nat, st: Status)
    requires IsRun(states, steps) && n < i < |states| && steps[n] == Act(r, OperationDone(st))
    ensures r in states[i].lives && states[i].lives[r].handedOff && states[i].lives[r].status == st
    ensures states[i].lives[r].owner.Nobody?
    decreases i
  {
    hide CanAct, NextLife, FirstLife, LifeOk;
    var s := states[i - 1];
    OneStep(states, steps, i - 1, r);
    LivesAreOk(states, steps, i - 1);
    if n < i - 1 {
      OperationDecidesStatus(states, steps, n, i - 1, r, st);
    }
    if steps[i - 1].Act? && steps[i - 1].r == r {
      NextStatus(s.cfg, s.env, s.inflight, s.registry, s.lives[r], steps[i - 1].a);
    }
  }

  // ---------------------------------------------------------------- the epoch fence

  /** Epochs only rise. */
  lemma {:induction false} EpochsRise(states: seq<State>, steps: seq<Step>, n: nat, i: nat, fileId: nat)
    requires IsRun(states, steps) && n <= i < |states| && fileId in states[n].env.epochs
    ensures fileId in states[i].env.epochs && states[n].env.epochs[fileId] <= states[i].env.epochs[fileId]
    decreases i
  {
    hide Enabled, Apply, Init;
    if n < i {
      EpochsRise(states, steps, n, i - 1, fileId);
      EpochStep(states[i - 1], steps[i - 1], fileId);
    }
  }

  lemma EpochStep(s: State, step: Step, fileId: nat)
    requires Enabled(s, step) && fileId in s.env.epochs
    ensures fileId in Apply(s, step).env.epochs && s.env.epochs[fileId] <= Apply(s, step).env.epochs[fileId]
  {
    hide NextLife, CanAct, NextObjs, NextTotal, FirstLife;
  }

  /** An update sets the epoch of its file unless that is higher already, and no other epoch. */
  lemma UpdateRaises(states: seq<State>, steps: seq<Step>, n: nat, fileId: nat, epoch: nat)
    requires IsRun(states, steps) && n < |steps| && steps[n] == UpdateEpoch(fileId, epoch)
    ensures var before, after := states[n].env.epochs, states[n + 1].env.epochs;
            && after.Keys == before.Keys + {fileId}
            && after[fileId] == (if fileId in before && before[fileId] > epoch then before[fileId] else epoch)
            && (forall f | f in before && f != fileId :: after[f] == before[f])
  {
    assert Enabled(states[n], steps[n]) && states[n + 1] == Apply(states[n], steps[n]);
  }

  /** The fence: once the epoch of a file has risen above that of a write which has not passed its epoch
      check yet, the write is never handed off. */
  lemma FencedWriteIsNotHandedOff(states: seq<State>, steps: seq<Step>, n: nat, i: nat, r: nat)
    requires IsRun(states, steps) && n <= i < |states| && r in states[i].lives
    requires var q := states[i].lives[r].q;
             && q.handler.WriteChunk? && q.hasEpoch
             && q.fileId in states[n].env.epochs && states[n].env.epochs[q.fileId] > q.epoch
    requires !Did(steps, n, r, DoCheck(Epoch, true))
    ensures !states[i].lives[r].handedOff
  {
    hide Enabled, Apply, Init, ToGroupId, Passes;
    if states[i].lives[r].handedOff {
      var q := states[i].lives[r].q;
      HandedOffAfterChecks(states, steps, i, r);
      var k :| 0 <= k < i && steps[k] == Act(r, DoCheck(Epoch, true)) && EpochFits(states[k].env, q);
      assert n <= k;
      EpochsRise(states, steps, n, k, q.fileId);
    }
  }

  // ---------------------------------------------------------------- admission

  predicate PastTest(l: Life) {
    !l.handler.Constructing? && !l.handler.AtOverloadTest?
  }

  lemma NextPastTest(cfg: Config, env: Env, inflight: int, registry: map<string, nat>, l: Life, a: Action)
    requires LifeOk(cfg, l) && CanAct(cfg, env, l, a)
    ensures var l' := NextLife(cfg, inflight, registry, l, a);
            if a.TestOverload? then !PastTest(l) && PastTest(l') && (l'.admitted <==> inflight <= cfg.maxInflight)
            else PastTest(l') == PastTest(l) && l'.admitted == l.admitted
  {
    hide Refusal, Metered, GroupOf, Checks, Passes, ChecksOk, Justified;
  }

  lemma {:induction false} TestDecides(states: seq<State>, steps: seq<Step>, n: nat, i: nat, r: nat)
    requires IsRun(states, steps) && n < i < |states| && steps[n] == Act(r, TestOverload)
    ensures r in states[i].lives && PastTest(states[i].lives[r])
    ensures states[i].lives[r].admitted <==> states[n].inflight <= states[n].cfg.maxInflight
    decreases i
  {
    hide CanAct, NextLife, FirstLife, LifeOk;
    var s := states[i - 1];
    OneStep(states, steps, i - 1, r);
    LivesAreOk(states, steps, i - 1);
    if n < i - 1 {
      TestDecides(states, steps, n, i - 1, r);
    }
    if steps[i - 1].Act? && steps[i - 1].r == r {
      NextPastTest(s.cfg, s.env, s.inflight, s.registry, s.lives[r], steps[i - 1].a);
    }
  }

  /** A request is admitted if and only if no more requests than the limit, itself included, were
      unfinished at its overload test; otherwise it is answered with overload and goes no further. */
  lemma AdmittedIffRoom(states: seq<State>, steps: seq<Step>, n: nat, i: nat, r: nat)
    requires IsRun(states, steps) && n < i < |states| && steps[n] == Act(r, TestOverload)
    ensures r in states[i].lives && r in Unfinished(states[n])
    ensures states[i].lives[r].admitted <==> |Unfinished(states[n])| <= states[n].cfg.maxInflight
    ensures !states[i].lives[r].admitted ==> states[i].lives[r].status == Overload && !states[i].lives[r].handedOff
  {
    hide CanAct, NextLife, FirstLife, Enabled, Apply, Init, ChecksOk;
    TestDecides(states, steps, n, i, r);
    ThrottleIsRight(states, steps, n);
    LivesAreOk(states, steps, n);
    LivesAreOk(states, steps, i);
    UnfinishedAtTest(states, steps, n, r);
  }

  lemma UnfinishedAtTest(states: seq<State>, steps: seq<Step>, n: nat, r: nat)
    requires IsRun(states, steps) && n < |steps| && steps[n] == Act(r, TestOverload)
    ensures r in Unfinished(states[n])
  {
    hide NextLife, FirstLife;
    OneStep(states, steps, n, r);
    LivesAreOk(states, steps, n);
  }

  /** Nobody is admitted without the test. */
  lemma {:induction false} AdmittedByTest(states: seq<State>, steps: seq<Step>, i: nat, r: nat)
    requires IsRun(states, steps) && i < |states| && r in states[i].lives && states[i].lives[r].admitted
    ensures Did(steps, i, r, TestOverload)
  {
    hide CanAct, NextLife, FirstLife, LifeOk, Did;
    if i > 0 {
      var s := states[i - 1];
      OneStep(states, steps, i - 1, r);
      LivesAreOk(states, steps, i - 1);
      DidOneMore(steps, i - 1, r, TestOverload);
      if r in s.lives {
        if steps[i - 1].Act? && steps[i - 1].r == r {
          NextPastTest(s.cfg, s.env, s.inflight, s.registry, s.lives[r], steps[i - 1].a);
        }
        if s.lives[r].admitted {
          AdmittedByTest(states, steps, i - 1, r);
        }
      } else {
        var q :| steps[i - 1] == Arrive(r, q) && states[i].lives[r] == FirstLife(s.cfg, q);
        FirstLifeUnchecked(s.cfg, q);
      }
    }
  }

  /** After an update to a higher epoch, a write of the file that arrives later is never handed off. */
  lemma UpdateFences(states: seq<State>, steps: seq<Step>, n: nat, i: nat, r: nat, epoch: nat)
    requires IsRun(states, steps) && n < i < |states| && r in states[i].lives && r !in states[n].lives
    requires var q := states[i].lives[r].q;
             q.handler.WriteChunk? && q.hasEpoch && q.epoch < epoch && steps[n] == UpdateEpoch(q.fileId, epoch)
    ensures !states[i].lives[r].handedOff
  {
    hide Enabled, Apply, Init, Did;
    UpdateRaises(states, steps, n, states[i].lives[r].q.fileId, epoch);
    ChecksBySteps(states, steps, n, r, Epoch);
    DidOneMore(steps, n, r, DoCheck(Epoch, true));
    FencedWriteIsNotHandedOff(states, steps, n + 1, i, r);
  }
}
