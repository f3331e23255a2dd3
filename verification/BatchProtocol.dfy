/** The sharded batch writer (crates/keplor-store/src/batch.rs) as a step relation.

    Producers, one append loop per shard and any number of checkpoints (the rotator's, a
    caller's, a closing loop's) interleave freely; every shared access of the source is a
    step of its own. `accepted`, `batches`, `finished`, `stored` and a checkpoint's `owed` are
    history: no step reads them to decide what to do. */
module BatchProtocol {
  import opened Wrappers
  import opened Events
  import opened Engines

  // ── Configuration ────────────────────────────────────────────────────

  datatype BatchConfig = BatchConfig(batchSize: nat, channelCapacity: nat, flushShards: nat) {
    function Shards(): nat {
      if flushShards == 0 then 1 else flushShards
    }

    /** `channel_capacity.div_ceil(shards).max(1)`. */
    function ShardCapacity(): nat {
      var c := (channelCapacity + Shards() - 1) / Shards();
      if c == 0 then 1 else c
    }

    /** `(batch_size / shards).max(8)`. */
    function ShardBatchSize(): nat {
      var b := batchSize / Shards();
      if b < 8 then 8 else b
    }
  }

  lemma FloorDivision(a: nat, n: nat, b: nat)
    requires n > 0
    ensures b <= a / n <==> n * b <= a
  {
    if b <= a / n {
      assert n * b <= n * (a / n);
    } else {
      assert n * (a / n + 1) <= n * b;
    }
  }

  /** A shard's channel is the smallest of at least one place with which all shards together have
      the configured capacity. */
  lemma ShardCapacityIsLeast(cfg: BatchConfig, places: nat)
    ensures cfg.Shards() >= 1 && (cfg.flushShards >= 1 ==> cfg.Shards() == cfg.flushShards)
    ensures places >= cfg.ShardCapacity() <==> places >= 1 && cfg.Shards() * places >= cfg.channelCapacity
  {
    var n, cap := cfg.Shards(), cfg.channelCapacity;
    if places >= 1 {
      FloorDivision(cap + n - 1, n, places + 1);
      assert n * (places + 1) == n * places + n;
    }
  }

  /** A shard's batch is the largest with which all shards together do not exceed the configured
      size, but never smaller than eight. */
  lemma ShardBatchSizeIsGreatest(cfg: BatchConfig, size: nat)
    ensures size <= cfg.ShardBatchSize() <==> size <= 8 || cfg.Shards() * size <= cfg.batchSize
  {
    FloorDivision(cfg.batchSize, cfg.Shards(), size);
  }

  // ── State ────────────────────────────────────────────────────────────

  /** One `WriteRequest`; `waits` says whether it carries a reply channel. */
  datatype Request = Request(rid: nat, event: LlmEvent, waits: bool)

  datatype Answer = Acked(id: EventId) | Rejected

  datatype Finished = Finished(req: Request, answer: Answer)

  /** Where an append loop stands. `closing` marks the drain after the channel closed. */
  datatype Phase =
    | Select
    | Fill
    | Append(pending: seq<Request>, todo: set<Tier>, closing: bool)
    | Reply(senders: seq<Request>, ids: Option<seq<EventId>>, closing: bool)
    | FinalCheckpoint(index: nat)
    | Exited(index: nat)

  datatype Shard = Shard(
    queue: seq<Request>, closed: bool, buffer: seq<Request>, phase: Phase,
    accepted: seq<Request>, batches: seq<seq<Request>>, finished: seq<Finished>, stored: seq<Request>)

  /** A `wal_checkpoint` in progress: tiers still to flush, and the events acknowledged
      before it began. */
  datatype Checkpoint = Checkpoint(todo: set<Tier>, aborted: bool, owed: set<LlmEvent>) {
    predicate Completed() {
      todo == {} && !aborted
    }
  }

  datatype State = State(
    shards: seq<Shard>, engines: EngineMap, answers: map<nat, Answer>, nextRid: nat,
    checkpoints: seq<Checkpoint>)

  function Init(cfg: BatchConfig, engines: EngineMap): State {
    State(seq(cfg.Shards(), i => Shard([], false, [], Select, [], [], [], [])), engines, map[], 0, [])
  }

  function EventsOf(reqs: seq<Request>): (events: seq<LlmEvent>)
    ensures |events| == |reqs| && forall i :: 0 <= i < |reqs| ==> events[i] == reqs[i].event
  {
    seq(|reqs|, i requires 0 <= i < |reqs| => reqs[i].event)
  }

  function IdsOf(reqs: seq<Request>): (ids: seq<EventId>)
    ensures |ids| == |reqs| && forall i :: 0 <= i < |reqs| ==> ids[i] == reqs[i].event.id
  {
    seq(|reqs|, i requires 0 <= i < |reqs| => reqs[i].event.id)
  }

  function Requests(finished: seq<Finished>): (reqs: seq<Request>)
    ensures |reqs| == |finished| && forall i :: 0 <= i < |reqs| ==> reqs[i] == finished[i].req
  {
    seq(|finished|, i requires 0 <= i < |finished| => finished[i].req)
  }

  /** The requests of one tier, in order: what one engine append stores. */
  function OfTier(reqs: seq<Request>, tier: Tier): seq<Request> {
    if reqs == [] then []
    else OfTier(reqs[..|reqs| - 1], tier) + (if reqs[|reqs| - 1].event.tier == tier then [reqs[|reqs| - 1]] else [])
  }

  function Flatten(batches: seq<seq<Request>>): seq<Request> {
    if batches == [] then [] else Flatten(batches[..|batches| - 1]) + batches[|batches| - 1]
  }

  /** Events acknowledged so far: their waiter was (or would have been) told `Ok`. */
  function AckedEvents(shards: seq<Shard>): set<LlmEvent> {
    set s, i | 0 <= s < |shards| && 0 <= i < |shards[s].finished| && shards[s].finished[i].answer.Acked?
      :: shards[s].finished[i].req.event
  }

  // ── Steps ────────────────────────────────────────────────────────────

  datatype Step =
    | Send(s: nat, event: LlmEvent, waits: bool)  // a producer's send succeeds
    | Close(s: nat)                               // the last sender is dropped
    | Recv(s: nat)                                // `rx.recv()` yields a request
    | TryRecv(s: nat)                             // one turn of the fill loop
    | FillDone(s: nat)                            // the fill loop ends
    | Tick(s: nat)                                // the interval fires
    | SeeClosed(s: nat)                           // `rx.recv()` yields `None`
    | AppendTier(s: nat, tier: Tier)              // one tier's sub-batch is fsynced
    | AppendFail(s: nat, torn: Option<Tier>)      // an engine (`torn`: after storing) or the blocking job fails
    | AppendDone(s: nat)                          // every tier succeeded
    | ReplyNext(s: nat)                           // one reply channel is served
    | ReplyDone(s: nat)
    | FinalDone(s: nat)
    | CheckpointBegin
    | CheckpointFlush(c: nat, tier: Tier)
    | CheckpointAbort(c: nat)

  predicate OnShard(step: Step) {
    !step.CheckpointBegin? && !step.CheckpointFlush? && !step.CheckpointAbort?
  }

  predicate Enabled(cfg: BatchConfig, st: State, step: Step) {
    if OnShard(step) then step.s < |st.shards| && ShardEnabled(cfg, st, st.shards[step.s], step)
    else match step
      case CheckpointBegin => true
      case CheckpointFlush(c, tier) =>
        c < |st.checkpoints| && tier in st.checkpoints[c].todo && !st.checkpoints[c].aborted
        && tier in st.engines
      case CheckpointAbort(c) => c < |st.checkpoints| && st.checkpoints[c].todo != {}
  }

  predicate ShardEnabled(cfg: BatchConfig, st: State, sh: Shard, step: Step)
    requires OnShard(step)
  {
    match step
    case Send(_, _, _) => !sh.closed && |sh.queue| < cfg.ShardCapacity()
    case Close(_) => true
    case Recv(_) => sh.phase.Select? && sh.queue != []
    case TryRecv(_) => sh.phase.Fill? && |sh.buffer| < cfg.ShardBatchSize() && sh.queue != []
    case FillDone(_) => sh.phase.Fill? && (sh.queue == [] || |sh.buffer| >= cfg.ShardBatchSize())
    case Tick(_) => sh.phase.Select?
    case SeeClosed(_) => sh.phase.Select? && sh.closed && sh.queue == []
    case AppendTier(_, tier) => sh.phase.Append? && tier in sh.phase.todo
    case AppendFail(_, torn) => sh.phase.Append? && (torn.Some? ==> torn.value in sh.phase.todo)
    case AppendDone(_) => sh.phase.Append? && sh.phase.todo == {}
    case ReplyNext(_) =>
      sh.phase.Reply? && sh.phase.senders != [] && (sh.phase.ids.Some? ==> sh.phase.ids.value != [])
    case ReplyDone(_) => sh.phase.Reply? && sh.phase.senders == []
    case FinalDone(_) =>
      sh.phase.FinalCheckpoint? && sh.phase.index < |st.checkpoints|
      && (st.checkpoints[sh.phase.index].todo == {} || st.checkpoints[sh.phase.index].aborted)
  }

  /** `std::mem::take(buffer)`: the whole buffer becomes the batch in flight. */
  function TakeBuffer(sh: Shard, closing: bool): Shard {
    sh.(buffer := [], batches := sh.batches + [sh.buffer],
        phase := Append(sh.buffer, TiersOf(EventsOf(sh.buffer)), closing))
  }

  function AppendTo(engines: EngineMap, reqs: seq<Request>, tier: Tier): EngineMap {
    engines[tier := EngineOr(engines, tier).Append(SubBatch(EventsOf(reqs), tier))]
  }

  function BeginCheckpoint(st: State): Checkpoint {
    Checkpoint(st.engines.Keys, false, AckedEvents(st.shards))
  }

  function AnswerNext(p: Phase): Answer
    requires p.Reply? && (p.ids.Some? ==> p.ids.value != [])
  {
    if p.ids.Some? then Acked(p.ids.value[0]) else Rejected
  }

  function WithShard(st: State, s: nat, sh: Shard): State
    requires s < |st.shards|
  {
    st.(shards := st.shards[s := sh])
  }

  function Apply(cfg: BatchConfig, st: State, step: Step): State
    requires Enabled(cfg, st, step)
  {
    if OnShard(step) then ApplyOnShard(cfg, st, step, st.shards[step.s])
    else match step
      case CheckpointBegin => st.(checkpoints := st.checkpoints + [BeginCheckpoint(st)])
      case CheckpointFlush(c, tier) =>
        st.(engines := st.engines[tier := st.engines[tier].Flush()],
            checkpoints := st.checkpoints[c := st.checkpoints[c].(todo := st.checkpoints[c].todo - {tier})])
      case CheckpointAbort(c) =>
        st.(checkpoints := st.checkpoints[c := st.checkpoints[c].(aborted := true)])
  }

  /** A step of one shard: what becomes of the shard, the engines, the answers and the checkpoints. */
  function ApplyOnShard(cfg: BatchConfig, st: State, step: Step, sh: Shard): State
    requires OnShard(step) && step.s < |st.shards| && ShardEnabled(cfg, st, sh, step)
  {
    State(st.shards[step.s := ShardAfter(cfg, st, step, sh)],
          EnginesAfter(st.engines, step, sh), AnswersAfter(st.answers, step, sh),
          if step.Send? then st.nextRid + 1 else st.nextRid,
          if BeginsFinal(step, sh) then st.checkpoints + [BeginCheckpoint(st)] else st.checkpoints)
  }

  /** The closing loop starts its own `wal_checkpoint`. */
  predicate BeginsFinal(step: Step, sh: Shard) {
    (step.SeeClosed? && sh.buffer == []) || (step.ReplyDone? && sh.phase.Reply? && sh.phase.closing)
  }

  function EnginesAfter(engines: EngineMap, step: Step, sh: Shard): EngineMap {
    if step.AppendTier? && sh.phase.Append? then AppendTo(engines, sh.phase.pending, step.tier)
    else if step.AppendFail? && step.torn.Some? && sh.phase.Append? then
      AppendTo(engines, sh.phase.pending, step.torn.value)
    else engines
  }

  function AnswersAfter(answers: map<nat, Answer>, step: Step, sh: Shard): map<nat, Answer>
    requires step.ReplyNext? ==>
      sh.phase.Reply? && sh.phase.senders != [] && (sh.phase.ids.Some? ==> sh.phase.ids.value != [])
  {
    if step.ReplyNext? && sh.phase.senders[0].waits then
      answers[sh.phase.senders[0].rid := AnswerNext(sh.phase)]
    else answers
  }

  function ShardAfter(cfg: BatchConfig, st: State, step: Step, sh: Shard): Shard
    requires OnShard(step) && ShardEnabled(cfg, st, sh, step)
  {
    match step
    case Send(_, event, waits) =>
      var r := Request(st.nextRid, event, waits);
      sh.(queue := sh.queue + [r], accepted := sh.accepted + [r])
    case Close(_) => sh.(closed := true)
    case Recv(_) => sh.(queue := sh.queue[1..], buffer := sh.buffer + [sh.queue[0]], phase := Fill)
    case TryRecv(_) => sh.(queue := sh.queue[1..], buffer := sh.buffer + [sh.queue[0]])
    case FillDone(_) => if |sh.buffer| >= cfg.ShardBatchSize() then TakeBuffer(sh, false) else sh.(phase := Select)
    case Tick(_) => if sh.buffer != [] then TakeBuffer(sh, false) else sh
    case SeeClosed(_) =>
      if sh.buffer != [] then TakeBuffer(sh, true) else sh.(phase := FinalCheckpoint(|st.checkpoints|))
    case AppendTier(_, tier) =>
      sh.(phase := sh.phase.(todo := sh.phase.todo - {tier}), stored := sh.stored + OfTier(sh.phase.pending, tier))
    case AppendFail(_, torn) =>
      sh.(phase := Reply(sh.phase.pending, None, sh.phase.closing),
          stored := sh.stored + if torn.Some? then OfTier(sh.phase.pending, torn.value) else [])
    case AppendDone(_) => sh.(phase := Reply(sh.phase.pending, Some(IdsOf(sh.phase.pending)), sh.phase.closing))
    case ReplyNext(_) =>
      sh.(phase := Reply(sh.phase.senders[1..],
                         if sh.phase.ids.Some? then Some(sh.phase.ids.value[1..]) else None, sh.phase.closing),
          finished := sh.finished + [Finished(sh.phase.senders[0], AnswerNext(sh.phase))])
    case ReplyDone(_) => sh.(phase := if sh.phase.closing then FinalCheckpoint(|st.checkpoints|) else Select)
    case FinalDone(_) => sh.(phase := Exited(sh.phase.index))
  }

  // ── Runs ─────────────────────────────────────────────────────────────

  ghost predicate Run(cfg: BatchConfig, states: seq<State>, steps: seq<Step>) {
    && |states| == |steps| + 1
    && (exists engines :: states[0] == Init(cfg, engines))
    && (forall i {:trigger Taken(steps, i)} :: Taken(steps, i) ==>
          Enabled(cfg, states[i], steps[i]) && states[i + 1] == Apply(cfg, states[i], steps[i]))
  }

  /** Position `i` of the run is a step (and names the instance of `Run` a proof wants). */
  predicate Taken(steps: seq<Step>, i: int) {
    0 <= i < |steps|
  }

  // ── The invariant ────────────────────────────────────────────────────

  /** Requests taken from the buffer and not yet answered. */
  function InFlight(p: Phase): seq<Request> {
    if p.Append? then p.pending else if p.Reply? then p.senders else []
  }

  /** Accounting inside one shard. The first conjunct places every accepted request in exactly
      one of: answered, in flight, buffered, queued; and keeps them in acceptance order. */
  ghost predicate ShardInv(cfg: BatchConfig, sh: Shard, checkpoints: nat) {
    && sh.accepted == Requests(sh.finished) + InFlight(sh.phase) + sh.buffer + sh.queue
    && Flatten(sh.batches) == Requests(sh.finished) + InFlight(sh.phase)
    && |sh.queue| <= cfg.ShardCapacity()
    && |sh.buffer| <= cfg.ShardBatchSize()
    && (sh.phase.Select? ==> |sh.buffer| < cfg.ShardBatchSize())
    && (!sh.phase.Select? && !sh.phase.Fill? ==> sh.buffer == [])
    && (sh.phase.Append? ==> sh.phase.todo <= TiersOf(EventsOf(sh.phase.pending)))
    && (sh.phase.Append? && sh.phase.closing ==> Drained(sh))
    && (sh.phase.Reply? && sh.phase.closing ==> Drained(sh))
    && (sh.phase.Reply? && sh.phase.ids.Some? ==> sh.phase.ids.value == IdsOf(sh.phase.senders))
    && (sh.phase.FinalCheckpoint? || sh.phase.Exited? ==> Drained(sh) && sh.phase.index < checkpoints)
  }

  predicate Drained(sh: Shard) {
    sh.closed && sh.queue == []
  }

  /** What the engines hold on behalf of one shard. */
  ghost predicate StoreInv(sh: Shard, engines: EngineMap) {
    && (sh.phase.Append? ==> forall r :: r in sh.phase.pending ==>
         r.event.tier in sh.phase.todo || Durable(engines, r.event))
    && (sh.phase.Reply? && sh.phase.ids.Some? ==> forall r :: r in sh.phase.senders ==> Durable(engines, r.event))
    && forall f :: f in sh.finished && f.answer.Acked? ==>
       f.answer.id == f.req.event.id && Durable(engines, f.req.event)
  }

  /** Request numbers are never reused. */
  ghost predicate UniqueInv(st: State) {
    && (forall s, i :: 0 <= s < |st.shards| && 0 <= i < |st.shards[s].accepted| ==>
         st.shards[s].accepted[i].rid < st.nextRid)
    && (forall s, i, s', i' |
          0 <= s < |st.shards| && 0 <= i < |st.shards[s].accepted| && 0 <= s' < |st.shards|
          && 0 <= i' < |st.shards[s'].accepted| && st.shards[s].accepted[i].rid == st.shards[s'].accepted[i'].rid
          :: s == s' && i == i')
  }

  /** `answers` holds exactly the outcomes of finished requests that carry a reply channel. */
  ghost predicate AnswerInv(st: State) {
    && (forall s, i :: 0 <= s < |st.shards| && 0 <= i < |st.shards[s].finished| && st.shards[s].finished[i].req.waits ==>
          st.shards[s].finished[i].req.rid in st.answers
          && st.answers[st.shards[s].finished[i].req.rid] == st.shards[s].finished[i].answer)
    && (forall rid :: rid in st.answers ==> AnsweredBy(st, rid))
  }

  ghost predicate AnsweredBy(st: State, rid: nat) {
    exists s, i :: 0 <= s < |st.shards| && 0 <= i < |st.shards[s].finished|
      && st.shards[s].finished[i].req.rid == rid && st.shards[s].finished[i].req.waits
  }

  ghost predicate CheckpointInv(c: Checkpoint, engines: EngineMap) {
    && c.todo <= engines.Keys
    && forall e :: e in c.owed ==> Durable(engines, e) && (e.tier in c.todo || Published(engines, e))
  }

  /** A closing loop's final checkpoint owes everything the loop acknowledged. */
  ghost predicate FinalInv(sh: Shard, checkpoints: seq<Checkpoint>) {
    sh.phase.FinalCheckpoint? || sh.phase.Exited? ==>
      && sh.phase.index < |checkpoints|
      && forall f :: f in sh.finished && f.answer.Acked? ==> f.req.event in checkpoints[sh.phase.index].owed
  }

  ghost predicate Inv(cfg: BatchConfig, st: State) {
    && (forall s :: 0 <= s < |st.shards| ==> ShardInv(cfg, st.shards[s], |st.checkpoints|))
    && (forall s :: 0 <= s < |st.shards| ==> StoreInv(st.shards[s], st.engines))
    && (forall s :: 0 <= s < |st.shards| ==> FinalInv(st.shards[s], st.checkpoints))
    && UniqueInv(st)
    && AnswerInv(st)
    && forall c :: 0 <= c < |st.checkpoints| ==> CheckpointInv(st.checkpoints[c], st.engines)
  }
}
