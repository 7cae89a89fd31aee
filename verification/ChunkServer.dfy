/** The life of chunk requests in the chunkserver: admission by the inflight throttle, the
    checks of the handlers, the hand-off to an operation, the closure that replies, and the
    metrics that are counted on the way, for any number of requests in every interleaving
    of their atomic actions, while copysets and their metrics come and go and epochs rise. */
module ChunkServer {
  import opened Basics
  import opened GroupId
  import opened Sums

  // ---------------------------------------------------------------- requests

  datatype OpType = Delete | Read | Write | ReadSnap | DeleteSnap | CreateClone | Recover | Paste | OtherOp

  datatype Status =
    | Success | Redirected | InvalidRequest | CopysetNotExist | ChunkNotExist | FailureUnknown
    | Overload | EpochTooOld | OtherStatus

  /** The service methods that create a ChunkServiceClosure. */
  datatype Handler =
    | DeleteChunk | WriteChunk | CreateCloneChunk | ReadChunk | RecoverChunk | ReadChunkSnapshot
    | DeleteChunkSnapshotOrCorrectSn | GetChunkInfo

  const TWO_32 := 0x1_0000_0000

  type UInt32 = n: nat | n < TWO_32

  datatype Request = Request(
    handler: Handler, opType: OpType, logicPoolId: bv32, copysetId: bv32,
    offset: UInt32, size: UInt32, fileId: nat, hasEpoch: bool, epoch: nat, hasCorrectedSn: bool)

  datatype Config = Config(maxInflight: nat, collectMetric: bool, maxChunkSize: UInt32, blockSize: UInt32)

  /** is_aligned; the block size is a power of two, and zero aligns with nothing but zero. */
  predicate Aligned(n: UInt32, blockSize: UInt32) {
    if blockSize == 0 then n == 0 else n % blockSize == 0
  }

  /** 32-bit sum, then alignment. */
  predicate OffsetAndLengthOk(cfg: Config, offset: UInt32, len: UInt32) {
    (offset + len) % TWO_32 <= cfg.maxChunkSize && Aligned(offset, cfg.blockSize) && Aligned(len, cfg.blockSize)
  }

  /** What the checks look up: the copysets on this server, those that it leads, and the epochs of files. */
  datatype Env = Env(copysets: set<string>, leading: set<string>, epochs: map<nat, nat>)

  /** The checks after the overload test. */
  datatype Check = Epoch | Bounds | WholeChunk | CorrectedSn | Copyset | Leader

  function Checks(h: Handler): seq<Check> {
    match h
    case DeleteChunk => [Copyset]
    case WriteChunk => [Epoch, Bounds, Copyset]
    case CreateCloneChunk => [WholeChunk, Copyset]
    case ReadChunk => [Bounds, Copyset]
    case RecoverChunk => [Bounds, Copyset]
    case ReadChunkSnapshot => [Bounds, Copyset]
    case DeleteChunkSnapshotOrCorrectSn => [CorrectedSn, Copyset]
    case GetChunkInfo => [Copyset, Leader]
  }

  function Refusal(c: Check): Status {
    match c
    case Epoch => EpochTooOld
    case Bounds => InvalidRequest
    case WholeChunk => InvalidRequest
    case CorrectedSn => InvalidRequest
    case Copyset => CopysetNotExist
    case Leader => Redirected
  }

  /** Does the request pass the check? An epoch is compared only if both sides have one. */
  predicate Passes(cfg: Config, env: Env, q: Request, c: Check) {
    match c
    case Epoch => q.hasEpoch && q.fileId in env.epochs ==> env.epochs[q.fileId] == q.epoch
    case Bounds => OffsetAndLengthOk(cfg, q.offset, q.size)
    case WholeChunk => q.size == cfg.maxChunkSize
    case CorrectedSn => q.hasCorrectedSn
    case Copyset => GroupOf(q) in env.copysets
    case Leader => GroupOf(q) in env.leading
  }

  /** EpochMap::UpdateEpoch: an epoch is never lowered. */
  function UpdatedEpochs(epochs: map<nat, nat>, fileId: nat, epoch: nat): map<nat, nat> {
    if fileId in epochs && epochs[fileId] > epoch then epochs else epochs[fileId := epoch]
  }

  // ---------------------------------------------------------------- metrics

  datatype Field = ReqNum | IoNum | ErrorNum | IoBytes

  datatype Counter = Counter(op: OpType, field: Field)

  /** The counters of one metric object; a counter that is absent is zero. */
  type Tally = map<Counter, nat>

  function Get(t: Tally, c: Counter): nat {
    if c in t then t[c] else 0
  }

  function Bump(t: Tally, c: Counter, n: nat): Tally {
    t[c := Get(t, c) + n]
  }

  /** Only these op types are counted, and GetChunkInfo passes no request to its closure. */
  predicate Metered(cfg: Config, q: Request) {
    cfg.collectMetric && !q.handler.GetChunkInfo? &&
    (q.opType.Read? || q.opType.Write? || q.opType.Recover? || q.opType.Paste?)
  }

  predicate HasError(q: Request, s: Status) {
    s != Success && !(q.opType.Read? && s == ChunkNotExist)
  }

  function OnRequest(t: Tally, q: Request): Tally {
    Bump(t, Counter(q.opType, ReqNum), 1)
  }

  function OnResponse(t: Tally, q: Request, s: Status): Tally {
    if HasError(q, s) then Bump(t, Counter(q.opType, ErrorNum), 1)
    else Bump(Bump(t, Counter(q.opType, IoNum), 1), Counter(q.opType, IoBytes), q.size)
  }

  /** By how much OnRequest and OnResponse raise counter c. */
  function RequestShare(q: Request, c: Counter): nat {
    if c == Counter(q.opType, ReqNum) then 1 else 0
  }

  function ResponseShare(q: Request, s: Status, c: Counter): nat {
    if c.op != q.opType then 0
    else match c.field
      case ReqNum => 0
      case IoNum => if HasError(q, s) then 0 else 1
      case ErrorNum => if HasError(q, s) then 1 else 0
      case IoBytes => if HasError(q, s) then 0 else q.size
  }

  lemma SharesAreRaises(t: Tally, q: Request, s: Status, c: Counter)
    ensures Get(OnRequest(t, q), c) == Get(t, c) + RequestShare(q, c)
    ensures Get(OnResponse(t, q, s), c) == Get(t, c) + ResponseShare(q, s, c)
  {
  }

  // ---------------------------------------------------------------- the system

  /** Where the handler is. */
  datatype HandlerPc = Constructing | AtOverloadTest | AtChecks | Returning | Exited

  /** Who will run the closure: the guard of the handler, the operation, or nobody any more. */
  datatype Owner = Guard | Operation | Nobody

  /** Where the closure is: the two metric updates of its constructor, waiting to be run, and
      then inside Run: the two metric updates, the reply, the decrement. */
  datatype ClosurePc =
    | ReqFetch | ReqCopyset | ReqTotal
    | Waiting
    | RespFetch | RespCopyset | RespTotal | Replying | Decrementing | Destroyed

  /** A request: the checks it has passed and the one it has failed, the metric objects that its
      constructor and its Run have fetched, and how often its closure has run and replied. */
  datatype Life = Life(
    q: Request, handler: HandlerPc, owner: Owner, closure: ClosurePc, status: Status,
    admitted: bool, passed: seq<Check>, failed: Option<Check>, handedOff: bool,
    reqObj: Option<nat>, respObj: Option<nat>, runs: nat, replies: nat)

  /** The metric of a copyset. */
  datatype CopysetMetric = CopysetMetric(group: string, tally: Tally)

  /** A CreateCopysetMetric between its existence check and its Add. */
  datatype Creator = Checked(group: string) | Built(group: string, obj: nat)

  datatype State = State(
    cfg: Config, env: Env, inflight: int, lives: map<nat, Life>,
    total: Tally, objs: map<nat, CopysetMetric>, registry: map<string, nat>, creators: map<nat, Creator>)

  /** The atomic actions of one request after its arrival. */
  datatype Action =
    | FetchForRequest
    | CountInCopyset
    | CountInTotal
    | TestOverload
    | DoCheck(c: Check, pass: bool)
    | HandOff
    | AnswerInPlace(s: Status)
    | ReturnFromHandler
    | OperationDone(s: Status)
    | FetchForResponse
    | RecordInCopyset
    | RecordInTotal
    | Reply
    | Decrement

  datatype Step =
    | Arrive(r: nat, q: Request)
    | Act(r: nat, a: Action)
    | CheckAbsent(t: nat, group: string)
    | BuildMetric(t: nat, obj: nat)
    | AddMetric(t: nat)
    | RemoveMetric(group: string)
    | UpdateEpoch(fileId: nat, epoch: nat)
    | ChangeCopysets(copysets: set<string>, leading: set<string>)

  function GroupOf(q: Request): string {
    ToGroupId(q.logicPoolId, q.copysetId)
  }

  function Lookup(registry: map<string, nat>, group: string): Option<nat> {
    if group in registry then Some(registry[group]) else None
  }

  ghost predicate CanAct(cfg: Config, env: Env, l: Life, a: Action) {
    match a
    case FetchForRequest => l.closure.ReqFetch?
    case CountInCopyset => l.closure.ReqCopyset?
    case CountInTotal => l.closure.ReqTotal?
    case TestOverload => l.handler.AtOverloadTest?
    case DoCheck(c, pass) =>
      && l.handler.AtChecks? && |l.passed| < |Checks(l.q.handler)| && c == Checks(l.q.handler)[|l.passed|]
      && pass == Passes(cfg, env, l.q, c)
    case HandOff => l.handler.AtChecks? && |l.passed| == |Checks(l.q.handler)| && !l.q.handler.GetChunkInfo?
    case AnswerInPlace(st) =>
      && l.handler.AtChecks? && |l.passed| == |Checks(l.q.handler)| && l.q.handler.GetChunkInfo?
      && (st == Success || st == FailureUnknown)
    case ReturnFromHandler => l.handler.Returning?
    case OperationDone(_) => l.owner.Operation?
    case FetchForResponse => l.closure.RespFetch?
    case RecordInCopyset => l.closure.RespCopyset?
    case RecordInTotal => l.closure.RespTotal?
    case Reply => l.closure.Replying?
    case Decrement => l.closure.Decrementing?
  }

  /** Run is entered: the metrics come first if the request is metered. */
  ghost function Run(cfg: Config, l: Life): Life {
    l.(owner := Nobody, runs := l.runs + 1, closure := if Metered(cfg, l.q) then RespFetch else Replying)
  }

  /** What an action does to its own request. */
  ghost function NextLife(cfg: Config, inflight: int, registry: map<string, nat>, l: Life, a: Action): Life {
    match a
    case FetchForRequest => l.(closure := ReqCopyset, reqObj := Lookup(registry, GroupOf(l.q)))
    case CountInCopyset => l.(closure := ReqTotal)
    case CountInTotal => l.(closure := Waiting, handler := AtOverloadTest)
    case TestOverload =>
      if inflight > cfg.maxInflight then l.(handler := Returning, status := Overload)
      else l.(handler := AtChecks, admitted := true)
    case DoCheck(c, pass) =>
      if pass then l.(passed := l.passed + [c])
      else l.(handler := Returning, status := Refusal(c), failed := Some(c))
    case HandOff => l.(owner := Operation, handler := Returning, handedOff := true)
    case AnswerInPlace(st) => l.(handler := Returning, status := st)
    case ReturnFromHandler =>
      if l.owner.Guard? then Run(cfg, l.(handler := Exited)) else l.(handler := Exited)
    case OperationDone(st) => Run(cfg, l.(status := st))
    case FetchForResponse => l.(closure := RespCopyset, respObj := Lookup(registry, GroupOf(l.q)))
    case RecordInCopyset => l.(closure := RespTotal)
    case RecordInTotal => l.(closure := Replying)
    case Reply => l.(closure := Decrementing, replies := l.replies + 1)
    case Decrement => l.(closure := Destroyed)
  }

  ghost function FirstLife(cfg: Config, q: Request): Life {
    var metered := Metered(cfg, q);
    Life(q, if metered then Constructing else AtOverloadTest, Guard, if metered then ReqFetch else Waiting, OtherStatus,
         false, [], None, false, None, None, 0, 0)
  }

  /** What an action does to the totals and to the metric object that it fetched before. */
  ghost function NextTotal(total: Tally, l: Life, a: Action): Tally {
    if a.CountInTotal? then OnRequest(total, l.q)
    else if a.RecordInTotal? then OnResponse(total, l.q, l.status)
    else total
  }

  ghost function Target(l: Life, a: Action): Option<nat> {
    if a.CountInCopyset? then l.reqObj
    else if a.RecordInCopyset? then l.respObj
    else None
  }

  ghost function NextObjs(objs: map<nat, CopysetMetric>, l: Life, a: Action): map<nat, CopysetMetric> {
    var o := Target(l, a);
    if o.Some? && o.value in objs then
      var t := objs[o.value].tally;
      objs[o.value := objs[o.value].(tally := if a.CountInCopyset? then OnRequest(t, l.q) else OnResponse(t, l.q, l.status))]
    else objs
  }

  ghost predicate Enabled(s: State, step: Step) {
    match step
    case Arrive(r, q) => r !in s.lives
    case Act(r, a) => r in s.lives && CanAct(s.cfg, s.env, s.lives[r], a)
    case CheckAbsent(t, group) => s.cfg.collectMetric && t !in s.creators && group !in s.registry
    case BuildMetric(t, obj) => t in s.creators && s.creators[t].Checked? && obj !in s.objs
    case AddMetric(t) => t in s.creators && s.creators[t].Built?
    case RemoveMetric(group) => true
    case UpdateEpoch(_, _) => true
    case ChangeCopysets(_, _) => true
  }

  ghost function Apply(s: State, step: Step): State
    requires Enabled(s, step)
  {
    match step
    case Arrive(r, q) => s.(lives := s.lives[r := FirstLife(s.cfg, q)], inflight := s.inflight + 1)
    case Act(r, a) =>
      var l := s.lives[r];
      s.(lives := s.lives[r := NextLife(s.cfg, s.inflight, s.registry, l, a)],
         inflight := if a.Decrement? then s.inflight - 1 else s.inflight,
         total := NextTotal(s.total, l, a),
         objs := NextObjs(s.objs, l, a))
    case CheckAbsent(t, group) => s.(creators := s.creators[t := Checked(group)])
    case BuildMetric(t, obj) =>
      s.(objs := s.objs[obj := CopysetMetric(s.creators[t].group, map[])], creators := s.creators[t := Built(s.creators[t].group, obj)])
    case AddMetric(t) =>
      s.(registry := RegistryAdd(s.registry, s.creators[t].group, s.creators[t].obj), creators := s.creators - {t})
    case RemoveMetric(group) => s.(registry := s.registry - {group})
    case UpdateEpoch(fileId, epoch) => s.(env := s.env.(epochs := UpdatedEpochs(s.env.epochs, fileId, epoch)))
    case ChangeCopysets(copysets, leading) => s.(env := s.env.(copysets := copysets, leading := leading))
  }

  /** CopysetMetricMap::Add keeps an entry that is there. */
  function RegistryAdd(registry: map<string, nat>, group: string, obj: nat): map<string, nat> {
    if group in registry then registry else registry[group := obj]
  }

  ghost predicate Init(s: State) {
    s == State(s.cfg, s.env, 0, map[], map[], map[], map[], map[])
  }

  ghost predicate IsRun(states: seq<State>, steps: seq<Step>) {
    && |states| == |steps| + 1 && Init(states[0])
    && forall i | 0 <= i < |steps| :: Enabled(states[i], steps[i]) && states[i + 1] == Apply(states[i], steps[i])
  }
}
