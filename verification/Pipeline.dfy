/** The ingestion pipeline's bookkeeping (crates/keplor-server/src/pipeline.rs) around the batch
    writer's `write_many` (crates/keplor-store/src/batch.rs). */
module Pipeline {
  import opened Wrappers
  import opened MachineInts
  import opened Events
  import opened Store
  import opened Schema
  import opened Idempotency
  import Mapping
  import opened Engines
  import Batch = BatchProtocol
  import BatchSafety
  import BatchTheorems

  datatype ServerError =
    | Validation(message: string) | UnknownProvider(name: string) | InvalidTimestamp(text: string)
    | StoreFailed(cause: StoreError) | StorageFull(message: string) | InternalError(message: string)

  /** What `process_event` makes of a valid input. */
  datatype Processed = Processed(event: LlmEvent, provider: Provider, model: string, cost: i64)

  type Written = Result<EventId, StoreError>
  type Response = Result<IngestResponse, ServerError>

  // ── write_many ───────────────────────────────────────────────────────

  /** What the channels and append loops did with one request: the shard's channel was closed, or
      a reply came, or the loop went away without one. */
  datatype Fate = NotSent | Replied(written: Written) | NoReply

  function Outcome(shutdown: bool, fate: Fate): Written {
    if !shutdown && fate.Replied? then fate.written else Err(ChannelClosed)
  }

  const TIMED_OUT := Internal("write timed out")

  /** The same under the caller's timeout. */
  function WriteOutcome(timedOut: bool, shutdown: bool, fate: Fate): Written {
    if timedOut then Err(TIMED_OUT) else Outcome(shutdown, fate)
  }

  /** Send everything, then collect the replies: one result per event, in input order. */
  method WriteMany(events: seq<LlmEvent>, shutdown: bool, fates: seq<Fate>) returns (results: seq<Written>)
    requires |fates| == |events|
    ensures |results| == |events|
    ensures forall j :: 0 <= j < |events| ==> results[j] == Outcome(shutdown, fates[j])
  {
    results := [];
    if shutdown {
      return seq(|events|, j => Err(ChannelClosed));
    }
    var receivers: seq<Option<Fate>> := [];
    for j := 0 to |events|
      invariant |receivers| == j
      invariant forall i :: 0 <= i < j ==> receivers[i] == if fates[i].NotSent? then None else Some(fates[i])
    {
      receivers := receivers + [if fates[j].NotSent? then None else Some(fates[j])];
    }
    for j := 0 to |receivers|
      invariant |results| == j
      invariant forall i :: 0 <= i < j ==> results[i] == Outcome(shutdown, fates[i])
    {
      match receivers[j] {
        case Some(rx) => results := results + [if rx.Replied? then rx.written else Err(ChannelClosed)];
        case None => results := results + [Err(ChannelClosed)];
      }
    }
  }

  // ── Where replies come from ──────────────────────────────────────────

  /** A run of the batch writer, and the moment in it at which a caller stops waiting. */
  datatype WriterRun = WriterRun(cfg: Batch.BatchConfig, states: seq<Batch.State>, steps: seq<Batch.Step>, now: nat) {
    ghost predicate Valid() {
      Batch.Run(cfg, states, steps) && now < |states|
    }
  }

  /** Whether, and at which step, a call's `send` succeeded. */
  datatype Sending = Unsent | Sent(at: nat)

  predicate IsSendOf(w: WriterRun, sending: Sending, event: LlmEvent) {
    sending.Sent? ==>
      && sending.at < w.now < |w.states| && Batch.Taken(w.steps, sending.at)
      && w.steps[sending.at].Send? && w.steps[sending.at].event == event && w.steps[sending.at].waits
  }

  /** What the caller's receiver yields: the answer to the request that this very send created. */
  function FateOf(w: WriterRun, sending: Sending, event: LlmEvent): Fate
    requires IsSendOf(w, sending, event)
  {
    if sending.Unsent? then NotSent
    else
      var rid := w.states[sending.at].nextRid;
      var answers := w.states[w.now].answers;
      if rid !in answers then NoReply
      else if answers[rid].Acked? then Replied(Ok(answers[rid].id))
      else Replied(Err(Internal("batch flush failed")))
  }

  /** A successful send puts the request, under its fresh number, into the shard for good. */
  lemma SentIsAccepted(w: WriterRun, sending: Sending, event: LlmEvent) returns (s: nat, i: nat)
    requires w.Valid() && sending.Sent? && IsSendOf(w, sending, event)
    ensures s < |w.states[w.now].shards| && i < |w.states[w.now].shards[s].accepted|
    ensures w.states[w.now].shards[s].accepted[i] == Batch.Request(w.states[sending.at].nextRid, event, true)
  {
    var at := sending.at;
    var before, step := w.states[at], w.steps[at];
    assert Batch.Taken(w.steps, at);
    s, i := step.s, |before.shards[step.s].accepted|;
    BatchSafety.RunEvolves(w.cfg, w.states, w.steps, at + 1, w.now);
    assert BatchSafety.ShardGrows(w.states[at + 1].shards[s], w.states[w.now].shards[s]);
    assert w.states[at + 1].shards[s].accepted[i] == Batch.Request(before.nextRid, event, true);
  }

  /** An `Ok` reply to a send carries the id of the event sent, and that event is durable then and
      in every later state. */
  lemma ReplyIsOwn(w: WriterRun, sending: Sending, event: LlmEvent, later: nat)
    requires w.Valid() && IsSendOf(w, sending, event) && w.now <= later < |w.states|
    requires FateOf(w, sending, event).Replied? && FateOf(w, sending, event).written.Ok?
    ensures FateOf(w, sending, event).written.value == event.id && Durable(w.states[later].engines, event)
  {
    var rid := w.states[sending.at].nextRid;
    var s, i := SentIsAccepted(w, sending, event);
    var s', i' := BatchTheorems.AckedIsDurable(w.cfg, w.states, w.steps, w.now, rid, later);
    BatchSafety.RunInv(w.cfg, w.states, w.steps, w.now);
    assert Batch.UniqueInv(w.states[w.now]);
    assert s == s' && i == i';
  }

  // ── ingest_batch_durable ─────────────────────────────────────────────

  /** How many inputs before position `i` were accepted: the input's place in the written batch. */
  function Rank(inputs: seq<Result<Processed, ServerError>>, i: nat): (n: nat)
    requires i <= |inputs|
    ensures n <= i
  {
    if i == 0 then 0 else Rank(inputs, i - 1) + (if inputs[i - 1].Ok? then 1 else 0)
  }

  function Respond(p: Processed, w: Written): Response {
    match w
    case Ok(id) => Ok(IngestResponse(id, p.cost, p.model, Mapping.IdKey(p.provider)))
    case Err(error) => Err(StoreFailed(error))
  }

  /** After `n` inputs, the accepted ones with their positions. */
  ghost predicate Placed(inputs: seq<Result<Processed, ServerError>>, n: nat, accepted: seq<Processed>,
                         okIndices: seq<nat>)
    requires n <= |inputs|
  {
    && |accepted| == |okIndices| == Rank(inputs, n)
    && (forall j :: 0 <= j < |okIndices| ==>
          okIndices[j] < n && Rank(inputs, okIndices[j]) == j && inputs[okIndices[j]] == Ok(accepted[j]))
    && forall i :: 0 <= i < n && inputs[i].Ok? ==> Rank(inputs, i) < |okIndices| && okIndices[Rank(inputs, i)] == i
  }

  /** After `n` inputs, only rejected ones have a result. */
  ghost predicate Slotted(inputs: seq<Result<Processed, ServerError>>, n: nat, results: seq<Option<Response>>) {
    && |results| == |inputs|
    && forall i :: 0 <= i < |inputs| ==>
       (results[i] == if i < n && inputs[i].Err? then Some(Err(inputs[i].error)) else None)
  }

  ghost predicate Gathered(inputs: seq<Result<Processed, ServerError>>, n: nat, accepted: seq<Processed>,
                           okIndices: seq<nat>,
                           results: seq<Option<Response>>)
    requires n <= |inputs|
  {
    Placed(inputs, n, accepted, okIndices) && Slotted(inputs, n, results)
  }

  lemma GatherOk(inputs: seq<Result<Processed, ServerError>>, n: nat, accepted: seq<Processed>, okIndices: seq<nat>,
                 results: seq<Option<Response>>)
    requires n < |inputs| && inputs[n].Ok? && Gathered(inputs, n, accepted, okIndices, results)
    ensures Gathered(inputs, n + 1, accepted + [inputs[n].value], okIndices + [n], results)
  {
    PlaceOneMore(inputs, n, accepted, okIndices);
  }

  lemma GatherErr(inputs: seq<Result<Processed, ServerError>>, n: nat, accepted: seq<Processed>, okIndices: seq<nat>,
                  results: seq<Option<Response>>)
    requires n < |inputs| && inputs[n].Err? && Gathered(inputs, n, accepted, okIndices, results)
    ensures Gathered(inputs, n + 1, accepted, okIndices, results[n := Some(Err(inputs[n].error))])
  {
    PlaceOneMore(inputs, n, accepted, okIndices);
  }

  lemma PlaceOneMore(inputs: seq<Result<Processed, ServerError>>, n: nat, accepted: seq<Processed>, okIndices: seq<nat>)
    requires n < |inputs| && Placed(inputs, n, accepted, okIndices)
    ensures inputs[n].Ok? ==> Placed(inputs, n + 1, accepted + [inputs[n].value], okIndices + [n])
    ensures inputs[n].Err? ==> Placed(inputs, n + 1, accepted, okIndices)
  {
  }

  /** The first loop: split the inputs into accepted ones, with their positions, and errors. */
  method Gather(inputs: seq<Result<Processed, ServerError>>)
    returns (accepted: seq<Processed>, okIndices: seq<nat>, results: seq<Option<Response>>)
    ensures Gathered(inputs, |inputs|, accepted, okIndices, results)
  {
    accepted, okIndices, results := [], [], seq(|inputs|, i => None);
    for n := 0 to |inputs|
      invariant Gathered(inputs, n, accepted, okIndices, results)
    {
      match inputs[n] {
        case Ok(p) =>
          GatherOk(inputs, n, accepted, okIndices, results);
          accepted := accepted + [p];
          okIndices := okIndices + [n];
        case Err(e) =>
          GatherErr(inputs, n, accepted, okIndices, results);
          results := results[n := Some(Err(e))];
      }
    }
  }

  /** What the caller gets at position `i` if the accepted inputs' writes came out as `written`. */
  function ResultAt(inputs: seq<Result<Processed, ServerError>>, written: seq<Written>, i: nat): Response
    requires i < |inputs| && (inputs[i].Ok? ==> Rank(inputs, i) < |written|)
  {
    match inputs[i]
    case Ok(p) => Respond(p, written[Rank(inputs, i)])
    case Err(e) => Err(e)
  }

  /** After `j` write results, every rejected input and the first `j` accepted ones are settled. */
  ghost predicate Scattered(inputs: seq<Result<Processed, ServerError>>, written: seq<Written>, j: nat,
                            results: seq<Option<Response>>) {
    && |results| == |inputs|
    && (forall i :: 0 <= i < |inputs| && inputs[i].Ok? ==> Rank(inputs, i) < |written|)
    && forall i :: 0 <= i < |inputs| ==>
         (results[i] == if inputs[i].Err? || Rank(inputs, i) < j then Some(ResultAt(inputs, written, i)) else None)
  }

  lemma ScatterOneMore(inputs: seq<Result<Processed, ServerError>>, accepted: seq<Processed>, okIndices: seq<nat>,
                       written: seq<Written>,
                       j: nat, results: seq<Option<Response>>)
    requires Placed(inputs, |inputs|, accepted, okIndices) && j < |written| == |accepted|
    requires Scattered(inputs, written, j, results)
    ensures Scattered(inputs, written, j + 1, results[okIndices[j] := Some(Respond(accepted[j], written[j]))])
  {
  }

  /** The second loop: scatter the write results back to the inputs' positions. */
  method Scatter(inputs: seq<Result<Processed, ServerError>>, accepted: seq<Processed>, okIndices: seq<nat>,
                 gathered: seq<Option<Response>>, written: seq<Written>) returns (results: seq<Option<Response>>)
    requires Gathered(inputs, |inputs|, accepted, okIndices, gathered) && |written| == |accepted|
    ensures Scattered(inputs, written, |written|, results)
  {
    results := gathered;
    for j := 0 to |written|
      invariant Scattered(inputs, written, j, results)
    {
      ScatterOneMore(inputs, accepted, okIndices, written, j, results);
      var index := okIndices[j];
      results := results[index := Some(Respond(accepted[j], written[j]))];
    }
  }

  /** The fates of the accepted inputs are what their own sends in the writer's run came to. */
  ghost predicate ReadsOff(w: WriterRun, inputs: seq<Result<Processed, ServerError>>, sendings: seq<Sending>,
                           fates: seq<Fate>) {
    && |fates| == |sendings| == Rank(inputs, |inputs|)
    && forall i :: 0 <= i < |inputs| && inputs[i].Ok? ==>
         && Rank(inputs, i) < |fates|
         && IsSendOf(w, sendings[Rank(inputs, i)], inputs[i].value.event)
         && fates[Rank(inputs, i)] == FateOf(w, sendings[Rank(inputs, i)], inputs[i].value.event)
  }

  /** The result is `Ok` only with the input's own id, cost, model and provider, and only if its event
      is durable from the moment of the reply on. */
  ghost predicate OwnAndDurable(w: WriterRun, p: Processed, r: Response) {
    r.Ok? ==>
      && r.value.id == p.event.id && r.value.costNanodollars == p.cost
      && r.value.model == p.model && r.value.provider == Mapping.IdKey(p.provider)
      && forall later :: w.now <= later < |w.states| ==> Durable(w.states[later].engines, p.event)
  }

  lemma OkIsOwnAndDurable(w: WriterRun, sending: Sending, p: Processed, timedOut: bool, shutdown: bool)
    requires w.Valid() && IsSendOf(w, sending, p.event)
    ensures OwnAndDurable(w, p, Respond(p, WriteOutcome(timedOut, shutdown, FateOf(w, sending, p.event))))
  {
    var r := Respond(p, WriteOutcome(timedOut, shutdown, FateOf(w, sending, p.event)));
    if r.Ok? {
      ReplyIsOwn(w, sending, p.event, w.now);
      forall later | w.now <= later < |w.states|
        ensures Durable(w.states[later].engines, p.event)
      {
        ReplyIsOwn(w, sending, p.event, later);
      }
    }
  }

  /** One result per input position: a rejected input keeps its own error, an accepted one gets
      the result of writing its own event, with its own cost, model and provider; an `Ok` carries
      the input's own id, and its event is durable from then on. The default for a position nobody
      filled is never used. */
  method IngestBatchDurable(inputs: seq<Result<Processed, ServerError>>, storageFull: Option<string>, timedOut: bool,
                            shutdown: bool, fates: seq<Fate>,
                            ghost w: WriterRun, ghost sendings: seq<Sending>)
    returns (results: seq<Response>)
    requires w.Valid() && ReadsOff(w, inputs, sendings, fates)
    ensures |results| == |inputs|
    ensures storageFull.Some? ==> forall i :: 0 <= i < |inputs| ==> results[i] == Err(StorageFull(storageFull.value))
    ensures storageFull.None? ==> forall i :: 0 <= i < |inputs| ==>
      && (inputs[i].Err? ==> results[i] == Err(inputs[i].error))
      && (inputs[i].Ok? ==>
           results[i] == Respond(inputs[i].value, WriteOutcome(timedOut, shutdown, fates[Rank(inputs, i)])))
    ensures forall i :: 0 <= i < |inputs| && results[i].Ok? ==>
      inputs[i].Ok? && OwnAndDurable(w, inputs[i].value, results[i])
  {
    if storageFull.Some? {
      return seq(|inputs|, i => Err(StorageFull(storageFull.value)));
    }
    var accepted, okIndices, slots := Gather(inputs);
    var written: seq<Written>;
    if timedOut {
      written := seq(|okIndices|, j => Err(TIMED_OUT));
    } else {
      written := WriteMany(seq(|accepted|, j requires 0 <= j < |accepted| => accepted[j].event), shutdown, fates);
    }
    slots := Scatter(inputs, accepted, okIndices, slots, written);
    results := seq(|slots|, i requires 0 <= i < |slots| => slots[i].UnwrapOr(Err(InternalError("unreachable"))));
    forall i | 0 <= i < |inputs| && results[i].Ok?
      ensures inputs[i].Ok? && OwnAndDurable(w, inputs[i].value, results[i])
    {
      if inputs[i].Ok? {
        OkIsOwnAndDurable(w, sendings[Rank(inputs, i)], inputs[i].value, timedOut, shutdown);
      }
    }
  }

  // ── ingest ───────────────────────────────────────────────────────────

  /** Some durable event has this id. */
  ghost predicate IsStored(engines: EngineMap, id: EventId) {
    exists e: LlmEvent :: e.id == id && Durable(engines, e)
  }

  /** Every response ever remembered names a durable event. */
  ghost predicate Backed(log: seq<Op>, engines: EngineMap) {
    forall i :: 0 <= i < |log| && log[i].Inserted? ==> IsStored(engines, log[i].response.id)
  }

  lemma {:induction false} LatestIsBacked(log: seq<Op>, key: string, engines: EngineMap)
    requires Backed(log, engines) && Latest(log, key).Some?
    ensures IsStored(engines, Latest(log, key).value.0.id)
  {
    var n := |log| - 1;
    if !(log[n].Inserted? && log[n].key == key) {
      LatestIsBacked(log[..n], key, engines);
    }
  }

  /** Lookups remember nothing, and a response that names a durable event may be remembered. */
  lemma StaysBacked(log: seq<Op>, engines: EngineMap, op: Op)
    requires Backed(log, engines) && (op.Inserted? ==> IsStored(engines, op.response.id))
    ensures Backed(log + [op], engines)
  {
  }

  lemma OwnIsStored(w: WriterRun, p: Processed, r: Response)
    requires OwnAndDurable(w, p, r) && r.Ok? && w.now < |w.states|
    ensures IsStored(w.states[w.now].engines, r.value.id)
  {
    assert Durable(w.states[w.now].engines, p.event);
  }

  /** Durability of what was remembered carries over to every later moment of the writer's run. */
  lemma BackedLater(w: WriterRun, log: seq<Op>, later: nat)
    requires w.Valid() && Backed(log, w.states[w.now].engines) && w.now <= later < |w.states|
    ensures Backed(log, w.states[later].engines)
  {
    BatchSafety.RunEvolves(w.cfg, w.states, w.steps, w.now, later);
    forall i | 0 <= i < |log| && log[i].Inserted?
      ensures IsStored(w.states[later].engines, log[i].response.id)
    {
      var e: LlmEvent :| e.id == log[i].response.id && Durable(w.states[w.now].engines, e);
      BatchSafety.DurableGrows(w.states[w.now].engines, w.states[later].engines, e);
    }
  }

  /** What a call that finds nothing in the cache does: a full database or a rejected input answers
      with its error; otherwise the write, under the caller's timeout, and the response made of it. */
  method WriteFresh(input: Result<Processed, ServerError>, storageFull: Option<string>, timedOut: bool, shutdown: bool,
                    fate: Fate, ghost w: WriterRun, ghost sending: Sending)
    returns (r: Response, wrote: bool)
    requires w.Valid()
    requires input.Ok? ==> IsSendOf(w, sending, input.value.event) && fate == FateOf(w, sending, input.value.event)
    ensures wrote <==> storageFull.None? && input.Ok?
    ensures storageFull.Some? ==> r == Err(StorageFull(storageFull.value))
    ensures storageFull.None? && input.Err? ==> r == Err(input.error)
    ensures wrote ==>
      (r == if timedOut then Err(InternalError("write timed out")) else Respond(input.value, Outcome(shutdown, fate)))
    ensures wrote ==> OwnAndDurable(w, input.value, r)
    ensures r.Ok? ==> IsStored(w.states[w.now].engines, r.value.id)
  {
    if storageFull.Some? {
      return Err(StorageFull(storageFull.value)), false;
    }
    if input.Err? {
      return Err(input.error), false;
    }
    if timedOut {
      return Err(InternalError("write timed out")), true;
    }
    r, wrote := Respond(input.value, Outcome(shutdown, fate)), true;
    OkIsOwnAndDurable(w, sending, input.value, false, shutdown);
    if r.Ok? { OwnIsStored(w, input.value, r); }
  }

  /** One durable write through the idempotency cache: a hit answers with the response of the
      key's latest insert, less than one TTL old, and writes nothing; otherwise the event is
      written and only a successful response is remembered. Over any run of the batch writer, a
      fresh `Ok` carries the input's own id, cost, model and provider, and its event is durable; and if every
      response remembered so far named a durable event, so does every one after the call, and so
      does the response returned. */
  method Ingest(cache: IdempotencyCache, key: string, input: Result<Processed, ServerError>,
                storageFull: Option<string>, timedOut: bool, shutdown: bool, fate: Fate, now: nat, later: nat,
                ghost w: WriterRun, ghost sending: Sending)
    returns (r: Response, wrote: bool)
    requires cache.Valid() && cache.clock <= now <= later && w.Valid()
    requires input.Ok? ==> IsSendOf(w, sending, input.value.event) && fate == FateOf(w, sending, input.value.event)
    modifies cache
    ensures cache.Valid()
    ensures !wrote && r.Ok? ==>
      && Latest(old(cache.log), key).Some? && r.value == Latest(old(cache.log), key).value.0
      && now < Latest(old(cache.log), key).value.1 + cache.ttl && cache.log == old(cache.log) + [Hit(key, now)]
    ensures wrote || r.Err? ==> MayBeAbsent(cache.hash, cache.capacity, cache.ttl, old(cache.log), key, now)
    ensures wrote ==> storageFull.None? && input.Ok?
    ensures !wrote && r.Err? && storageFull.Some? ==> r == Err(StorageFull(storageFull.value))
    ensures !wrote && r.Err? && storageFull.None? ==> input.Err? && r == Err(input.error)
    ensures wrote ==>
      (r == if timedOut then Err(InternalError("write timed out")) else Respond(input.value, Outcome(shutdown, fate)))
    ensures wrote ==> OwnAndDurable(w, input.value, r)
    ensures wrote && r.Ok? ==> cache.log == old(cache.log) + [Missed(key, now), Inserted(key, r.value, later)]
    ensures r.Err? ==> cache.log == old(cache.log) + [Missed(key, now)]
    ensures Backed(old(cache.log), w.states[w.now].engines) ==>
      Backed(cache.log, w.states[w.now].engines) && (r.Ok? ==> IsStored(w.states[w.now].engines, r.value.id))
  {
    ghost var engines := w.states[w.now].engines;
    var cached := cache.Get(key, now);
    ghost var looked := cache.log;
    if Backed(old(cache.log), engines) {
      StaysBacked(old(cache.log), engines, if cached.Some? then Hit(key, now) else Missed(key, now));
    }
    if cached.Some? {
      if Backed(old(cache.log), engines) { LatestIsBacked(old(cache.log), key, engines); }
      return Ok(cached.value), false;
    }
    r, wrote := WriteFresh(input, storageFull, timedOut, shutdown, fate, w, sending);
    if r.Ok? {
      if Backed(looked, engines) {
        StaysBacked(looked, engines, Inserted(key, r.value, later));
      }
      cache.Insert(key, r.value, later);
      TwoMore(old(cache.log), Missed(key, now), Inserted(key, r.value, later));
    }
  }

  lemma TwoMore(log: seq<Op>, a: Op, b: Op)
    ensures log + [a] + [b] == log + [a, b]
  {
  }
}
