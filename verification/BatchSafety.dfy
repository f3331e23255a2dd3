/** Safety of the batch writer over every interleaving. */
module BatchSafety {
  import opened Events
  import opened Engines
  import opened BatchProtocol

  // ── What one step never undoes ───────────────────────────────────────

  /** Engines are append-only: rows and segments only ever get longer. */
  ghost predicate EnginesGrow(a: EngineMap, b: EngineMap) {
    forall t :: t in a ==> t in b && a[t].Rows() <= b[t].Rows() && a[t].segments <= b[t].segments
  }

  /** A closed shard accepts nothing more; an answered request stays answered. */
  predicate ShardGrows(a: Shard, b: Shard) {
    && a.accepted <= b.accepted && a.finished <= b.finished && a.batches <= b.batches
    && (a.closed ==> b.closed && a.accepted == b.accepted)
  }

  ghost predicate HistoryKept(a: State, b: State) {
    && |b.shards| == |a.shards|
    && (forall s :: 0 <= s < |a.shards| ==> ShardGrows(a.shards[s], b.shards[s]))
    && |a.checkpoints| <= |b.checkpoints|
    && forall c :: 0 <= c < |a.checkpoints| ==> b.checkpoints[c].owed == a.checkpoints[c].owed
  }

  /** `b` may follow `a` in a run: nothing answered, stored, or promised is taken back. */
  ghost predicate Evolves(a: State, b: State) {
    && EnginesGrow(a.engines, b.engines)
    && HistoryKept(a, b)
    && (forall rid :: rid in a.answers ==> rid in b.answers && b.answers[rid] == a.answers[rid])
  }

  lemma DurableGrows(a: EngineMap, b: EngineMap, e: LlmEvent)
    requires EnginesGrow(a, b)
    ensures Durable(a, e) ==> Durable(b, e)
    ensures Published(a, e) ==> Published(b, e)
  {
  }

  lemma AppendToGrows(engines: EngineMap, reqs: seq<Request>, tier: Tier)
    ensures EnginesGrow(engines, AppendTo(engines, reqs, tier))
    ensures forall r :: r in reqs && r.event.tier == tier ==> Durable(AppendTo(engines, reqs, tier), r.event)
  {
    var after := AppendTo(engines, reqs, tier);
    var batch := SubBatch(EventsOf(reqs), tier);
    assert after[tier].Rows() == EngineOr(engines, tier).Rows() + batch;
    SubBatchMembers(EventsOf(reqs), tier);
    forall r | r in reqs && r.event.tier == tier
      ensures Durable(after, r.event)
    {
      var i :| 0 <= i < |reqs| && reqs[i] == r;
      assert EventsOf(reqs)[i] == r.event;
    }
  }

  lemma EnginesStep(cfg: BatchConfig, st: State, step: Step)
    requires Enabled(cfg, st, step)
    ensures EnginesGrow(st.engines, Apply(cfg, st, step).engines)
  {
    if step.AppendTier? {
      AppendToGrows(st.engines, st.shards[step.s].phase.pending, step.tier);
    } else if step.AppendFail? {
      if step.torn.Some? { AppendToGrows(st.engines, st.shards[step.s].phase.pending, step.torn.value); }
    } else if step.CheckpointFlush? {
      assert st.engines[step.tier].Flush().Rows() == st.engines[step.tier].Rows();
    } else {
      EnginesFrame(cfg, st, step);
    }
  }

  lemma EnginesFrame(cfg: BatchConfig, st: State, step: Step)
    requires Enabled(cfg, st, step) && !step.AppendTier? && !step.AppendFail? && !step.CheckpointFlush?
    ensures Apply(cfg, st, step).engines == st.engines
  {
  }

  // ── Accounting inside a shard ────────────────────────────────────────

  lemma ShardStep(cfg: BatchConfig, st: State, step: Step)
    requires OnShard(step) && Enabled(cfg, st, step)
    requires ShardInv(cfg, st.shards[step.s], |st.checkpoints|)
    ensures var st' := Apply(cfg, st, step); ShardInv(cfg, st'.shards[step.s], |st'.checkpoints|)
  {
    if step.Recv? || step.TryRecv? {
      FillInv(cfg, st, step);
    } else if step.FillDone? || step.Tick? {
      TakeInv(cfg, st, step);
    } else if step.SeeClosed? {
      CloseInv(cfg, st, step);
    } else if step.ReplyNext? {
      ReplyInv(cfg, st, step);
    } else if step.Send? || step.Close? {
      ProducerInv(cfg, st, step);
    } else {
      QuietInv(cfg, st, step);
    }
  }

  lemma FillInv(cfg: BatchConfig, st: State, step: Step)
    requires (step.Recv? || step.TryRecv?) && Enabled(cfg, st, step)
    requires ShardInv(cfg, st.shards[step.s], |st.checkpoints|)
    ensures var st' := Apply(cfg, st, step); ShardInv(cfg, st'.shards[step.s], |st'.checkpoints|)
  {
    ReceiveInv(cfg, st.shards[step.s], Fill, |st.checkpoints|);
  }

  lemma TakeInv(cfg: BatchConfig, st: State, step: Step)
    requires (step.FillDone? || step.Tick?) && Enabled(cfg, st, step)
    requires ShardInv(cfg, st.shards[step.s], |st.checkpoints|)
    ensures var st' := Apply(cfg, st, step); ShardInv(cfg, st'.shards[step.s], |st'.checkpoints|)
  {
    TakeBufferInv(cfg, st.shards[step.s], false, |st.checkpoints|);
  }

  lemma CloseInv(cfg: BatchConfig, st: State, step: Step)
    requires step.SeeClosed? && Enabled(cfg, st, step)
    requires ShardInv(cfg, st.shards[step.s], |st.checkpoints|)
    ensures var st' := Apply(cfg, st, step); ShardInv(cfg, st'.shards[step.s], |st'.checkpoints|)
  {
    if st.shards[step.s].buffer != [] { TakeBufferInv(cfg, st.shards[step.s], true, |st.checkpoints|); }
  }

  lemma ReceiveInv(cfg: BatchConfig, sh: Shard, phase: Phase, checkpoints: nat)
    requires ShardInv(cfg, sh, checkpoints) && (sh.phase.Select? || sh.phase.Fill?)
    requires sh.queue != [] && |sh.buffer| < cfg.ShardBatchSize() && phase == Fill
    ensures ShardInv(cfg, sh.(queue := sh.queue[1..], buffer := sh.buffer + [sh.queue[0]], phase := phase), checkpoints)
  {
  }

  lemma ReplyInv(cfg: BatchConfig, st: State, step: Step)
    requires step.ReplyNext? && Enabled(cfg, st, step)
    requires ShardInv(cfg, st.shards[step.s], |st.checkpoints|)
    ensures ShardInv(cfg, Apply(cfg, st, step).shards[step.s], |st.checkpoints|)
  {
    var sh := st.shards[step.s];
    var sh' := Apply(cfg, st, step).shards[step.s];
    var r := sh.phase.senders[0];
    assert Requests(sh'.finished) == Requests(sh.finished) + [r];
    MoveOne(Requests(sh.finished), sh.phase.senders);
    assert InFlight(sh'.phase) == sh.phase.senders[1..];
    assert Requests(sh'.finished) + InFlight(sh'.phase) == Requests(sh.finished) + InFlight(sh.phase);
    assert sh.phase.ids.Some? ==> sh'.phase.ids.value == IdsOf(sh'.phase.senders);
  }

  lemma MoveOne(done: seq<Request>, pending: seq<Request>)
    requires pending != []
    ensures done + pending == (done + [pending[0]]) + pending[1..]
  {
  }

  /** Steps that move no request between the places `ShardInv` counts. */
  lemma QuietInv(cfg: BatchConfig, st: State, step: Step)
    requires OnShard(step) && Enabled(cfg, st, step)
    requires step.AppendTier? || step.AppendFail? || step.AppendDone? || step.ReplyDone? || step.FinalDone?
    requires ShardInv(cfg, st.shards[step.s], |st.checkpoints|)
    ensures var st' := Apply(cfg, st, step); ShardInv(cfg, st'.shards[step.s], |st'.checkpoints|)
  {
  }

  /** Producers add to the queue, or close it. */
  lemma ProducerInv(cfg: BatchConfig, st: State, step: Step)
    requires (step.Send? || step.Close?) && Enabled(cfg, st, step)
    requires ShardInv(cfg, st.shards[step.s], |st.checkpoints|)
    ensures var st' := Apply(cfg, st, step); ShardInv(cfg, st'.shards[step.s], |st'.checkpoints|)
  {
  }

  lemma TakeBufferInv(cfg: BatchConfig, sh: Shard, closing: bool, checkpoints: nat)
    requires ShardInv(cfg, sh, checkpoints) && (sh.phase.Select? || sh.phase.Fill?)
    requires closing ==> Drained(sh)
    ensures ShardInv(cfg, TakeBuffer(sh, closing), checkpoints)
  {
  }

  lemma ShardsStep(cfg: BatchConfig, st: State, step: Step)
    requires forall s :: 0 <= s < |st.shards| ==> ShardInv(cfg, st.shards[s], |st.checkpoints|)
    requires Enabled(cfg, st, step)
    ensures var st' := Apply(cfg, st, step);
      |st'.shards| == |st.shards| && forall s :: 0 <= s < |st'.shards| ==>
        ShardInv(cfg, st'.shards[s], |st'.checkpoints|)
  {
    OtherShardsFrame(cfg, st, step);
    if OnShard(step) {
      ShardStep(cfg, st, step);
    }
  }

  lemma OtherShardsFrame(cfg: BatchConfig, st: State, step: Step)
    requires Enabled(cfg, st, step)
    ensures var st' := Apply(cfg, st, step);
      && |st'.shards| == |st.shards| && |st.checkpoints| <= |st'.checkpoints|
      && forall s :: 0 <= s < |st.shards| && !(OnShard(step) && s == step.s) ==> st'.shards[s] == st.shards[s]
  {
  }

  // ── What the engines owe ─────────────────────────────────────────────

  lemma StoreInvGrows(sh: Shard, a: EngineMap, b: EngineMap)
    requires StoreInv(sh, a) && EnginesGrow(a, b)
    ensures StoreInv(sh, b)
  {
  }

  lemma StoreStep(cfg: BatchConfig, st: State, step: Step)
    requires forall s :: 0 <= s < |st.shards| ==> ShardInv(cfg, st.shards[s], |st.checkpoints|)
    requires forall s :: 0 <= s < |st.shards| ==> StoreInv(st.shards[s], st.engines)
    requires Enabled(cfg, st, step)
    ensures var st' := Apply(cfg, st, step);
      |st'.shards| == |st.shards| && forall s :: 0 <= s < |st'.shards| ==> StoreInv(st'.shards[s], st'.engines)
  {
    var st' := Apply(cfg, st, step);
    EnginesStep(cfg, st, step);
    OtherShardsFrame(cfg, st, step);
    forall s | 0 <= s < |st.shards|
      ensures StoreInv(st'.shards[s], st'.engines)
    {
      StoreInvGrows(st.shards[s], st.engines, st'.engines);
      if OnShard(step) && s == step.s {
        StoreStepOnShard(cfg, st, step);
      }
    }
  }

  lemma StoreStepOnShard(cfg: BatchConfig, st: State, step: Step)
    requires OnShard(step) && Enabled(cfg, st, step)
    requires ShardInv(cfg, st.shards[step.s], |st.checkpoints|)
    requires StoreInv(st.shards[step.s], Apply(cfg, st, step).engines)
    ensures var st' := Apply(cfg, st, step); StoreInv(st'.shards[step.s], st'.engines)
  {
    if step.AppendTier? {
      StoreAfterAppend(cfg, st, step);
    } else if step.FillDone? || step.Tick? || step.SeeClosed? {
      TiersOfMembers(st.shards[step.s].buffer);
    } else if step.ReplyNext? {
      StoreAfterReply(cfg, st, step);
    } else {
      StoreQuiet(cfg, st, step);
    }
  }

  lemma StoreAfterAppend(cfg: BatchConfig, st: State, step: Step)
    requires step.AppendTier? && Enabled(cfg, st, step)
    requires StoreInv(st.shards[step.s], Apply(cfg, st, step).engines)
    ensures var st' := Apply(cfg, st, step); StoreInv(st'.shards[step.s], st'.engines)
  {
    AppendToGrows(st.engines, st.shards[step.s].phase.pending, step.tier);
  }

  lemma StoreAfterReply(cfg: BatchConfig, st: State, step: Step)
    requires step.ReplyNext? && Enabled(cfg, st, step)
    requires ShardInv(cfg, st.shards[step.s], |st.checkpoints|)
    requires StoreInv(st.shards[step.s], st.engines)
    ensures StoreInv(Apply(cfg, st, step).shards[step.s], st.engines)
  {
  }

  lemma StoreQuiet(cfg: BatchConfig, st: State, step: Step)
    requires OnShard(step) && Enabled(cfg, st, step)
    requires step.Send? || step.Close? || step.Recv? || step.TryRecv? || step.AppendFail? || step.AppendDone?
      || step.ReplyDone? || step.FinalDone?
    requires StoreInv(st.shards[step.s], Apply(cfg, st, step).engines)
    ensures var st' := Apply(cfg, st, step); StoreInv(st'.shards[step.s], st'.engines)
  {
  }

  lemma TiersOfMembers(reqs: seq<Request>)
    ensures forall r :: r in reqs ==> r.event.tier in TiersOf(EventsOf(reqs))
  {
  }

  // ── Numbering and answers ────────────────────────────────────────────

  lemma UniqueStep(cfg: BatchConfig, st: State, step: Step)
    requires UniqueInv(st) && Enabled(cfg, st, step)
    ensures UniqueInv(Apply(cfg, st, step))
  {
    var st' := Apply(cfg, st, step);
    if step.Send? {
      var r := Request(st.nextRid, step.event, step.waits);
      assert st'.shards[step.s].accepted == st.shards[step.s].accepted + [r];
      UniqueAfterSend(st, st', step.s, r);
    } else {
      AcceptedFrame(cfg, st, step);
      UniqueFrame(st, st');
    }
  }

  lemma AcceptedFrame(cfg: BatchConfig, st: State, step: Step)
    requires Enabled(cfg, st, step) && !step.Send?
    ensures var st' := Apply(cfg, st, step);
      && |st'.shards| == |st.shards| && st'.nextRid == st.nextRid
      && forall s :: 0 <= s < |st.shards| ==> st'.shards[s].accepted == st.shards[s].accepted
  {
    OtherShardsFrame(cfg, st, step);
    if OnShard(step) {
      AcceptedHere(cfg, st, step);
    }
  }

  lemma AcceptedHere(cfg: BatchConfig, st: State, step: Step)
    requires OnShard(step) && Enabled(cfg, st, step) && !step.Send?
    ensures Apply(cfg, st, step).shards[step.s].accepted == st.shards[step.s].accepted
  {
  }

  lemma UniqueFrame(a: State, b: State)
    requires UniqueInv(a) && |a.shards| == |b.shards| && a.nextRid == b.nextRid
    requires forall s :: 0 <= s < |a.shards| ==> b.shards[s].accepted == a.shards[s].accepted
    ensures UniqueInv(b)
  {
  }

  lemma UniqueAfterSend(a: State, b: State, t: nat, r: Request)
    requires UniqueInv(a) && |a.shards| == |b.shards| && b.nextRid == a.nextRid + 1 && r.rid == a.nextRid
    requires t < |a.shards| && b.shards[t].accepted == a.shards[t].accepted + [r]
    requires forall s :: 0 <= s < |a.shards| && s != t ==> b.shards[s].accepted == a.shards[s].accepted
    ensures UniqueInv(b)
  {
  }

  /** A request about to be answered has not been answered before. */
  lemma NotYetAnswered(cfg: BatchConfig, st: State, s: nat)
    requires forall t :: 0 <= t < |st.shards| ==> ShardInv(cfg, st.shards[t], |st.checkpoints|)
    requires UniqueInv(st) && AnswerInv(st) && s < |st.shards| && st.shards[s].phase.Reply?
    requires st.shards[s].phase.senders != []
    ensures st.shards[s].phase.senders[0].rid !in st.answers
  {
    var sh := st.shards[s];
    var r := sh.phase.senders[0];
    assert sh.accepted[|sh.finished|] == r;
    forall s', i | 0 <= s' < |st.shards| && 0 <= i < |st.shards[s'].finished|
      ensures st.shards[s'].finished[i].req.rid != r.rid
    {
      assert st.shards[s'].accepted[i] == st.shards[s'].finished[i].req;
    }
  }

  lemma AnswerStep(cfg: BatchConfig, st: State, step: Step)
    requires forall s :: 0 <= s < |st.shards| ==> ShardInv(cfg, st.shards[s], |st.checkpoints|)
    requires UniqueInv(st) && AnswerInv(st) && Enabled(cfg, st, step)
    ensures var st' := Apply(cfg, st, step);
      AnswerInv(st') && forall rid :: rid in st.answers ==> rid in st'.answers && st'.answers[rid] == st.answers[rid]
  {
    if step.ReplyNext? {
      NotYetAnswered(cfg, st, step.s);
      ReplyAnswers(cfg, st, step);
    } else {
      FinishedFrame(cfg, st, step);
      AnswersUntouched(st, Apply(cfg, st, step));
    }
  }

  lemma FinishedFrame(cfg: BatchConfig, st: State, step: Step)
    requires Enabled(cfg, st, step) && !step.ReplyNext?
    ensures var st' := Apply(cfg, st, step);
      && |st'.shards| == |st.shards| && st'.answers == st.answers
      && forall s :: 0 <= s < |st.shards| ==> st'.shards[s].finished == st.shards[s].finished
  {
    OtherShardsFrame(cfg, st, step);
    if OnShard(step) {
      FinishedHere(cfg, st, step);
    }
  }

  lemma FinishedHere(cfg: BatchConfig, st: State, step: Step)
    requires OnShard(step) && Enabled(cfg, st, step) && !step.ReplyNext?
    ensures var st' := Apply(cfg, st, step);
      st'.shards[step.s].finished == st.shards[step.s].finished && st'.answers == st.answers
  {
  }

  lemma AnswersUntouched(st: State, st': State)
    requires AnswerInv(st) && st'.answers == st.answers && |st'.shards| == |st.shards|
    requires forall s :: 0 <= s < |st.shards| ==> st'.shards[s].finished == st.shards[s].finished
    ensures AnswerInv(st')
  {
  }

  lemma ReplyAnswers(cfg: BatchConfig, st: State, step: Step)
    requires AnswerInv(st) && Enabled(cfg, st, step) && step.ReplyNext?
    requires st.shards[step.s].phase.senders[0].rid !in st.answers
    ensures var st' := Apply(cfg, st, step);
      AnswerInv(st') && forall rid :: rid in st.answers ==> rid in st'.answers && st'.answers[rid] == st.answers[rid]
  {
    var f := ReplyEffect(cfg, st, step);
    AnswersExtended(st, Apply(cfg, st, step), step.s, f);
  }

  lemma ReplyEffect(cfg: BatchConfig, st: State, step: Step) returns (f: Finished)
    requires Enabled(cfg, st, step) && step.ReplyNext?
    ensures f.req == st.shards[step.s].phase.senders[0]
    ensures var st' := Apply(cfg, st, step);
      && |st'.shards| == |st.shards| && st'.shards[step.s].finished == st.shards[step.s].finished + [f]
      && (forall s :: 0 <= s < |st.shards| && s != step.s ==> st'.shards[s].finished == st.shards[s].finished)
      && st'.answers == if f.req.waits then st.answers[f.req.rid := f.answer] else st.answers
  {
    var sh := st.shards[step.s];
    f := Finished(sh.phase.senders[0], AnswerNext(sh.phase));
  }

  lemma AnswersExtended(a: State, b: State, t: nat, f: Finished)
    requires AnswerInv(a) && |b.shards| == |a.shards| && t < |a.shards|
    requires b.shards[t].finished == a.shards[t].finished + [f]
    requires forall s :: 0 <= s < |a.shards| && s != t ==> b.shards[s].finished == a.shards[s].finished
    requires f.req.rid !in a.answers
    requires b.answers == if f.req.waits then a.answers[f.req.rid := f.answer] else a.answers
    ensures AnswerInv(b)
  {
    assert b.shards[t].finished[|a.shards[t].finished|] == f;
    forall rid | rid in b.answers
      ensures AnsweredBy(b, rid)
    {
      if rid in a.answers { AnsweredByKept(a, b, rid); }
    }
  }

  lemma AnsweredByKept(st: State, st': State, rid: nat)
    requires AnsweredBy(st, rid) && |st.shards| == |st'.shards|
    requires forall s :: 0 <= s < |st.shards| ==> st.shards[s].finished <= st'.shards[s].finished
    ensures AnsweredBy(st', rid)
  {
  }

  // ── Final checkpoints ────────────────────────────────────────────────

  lemma FinalStep(cfg: BatchConfig, st: State, step: Step)
    requires forall s :: 0 <= s < |st.shards| ==> FinalInv(st.shards[s], st.checkpoints)
    requires Enabled(cfg, st, step)
    ensures var st' := Apply(cfg, st, step);
      |st'.shards| == |st.shards| && forall s :: 0 <= s < |st'.shards| ==> FinalInv(st'.shards[s], st'.checkpoints)
  {
    var st' := Apply(cfg, st, step);
    OtherShardsFrame(cfg, st, step);
    OwedFrame(cfg, st, step);
    forall s | 0 <= s < |st.shards|
      ensures FinalInv(st'.shards[s], st'.checkpoints)
    {
      FinalGrows(st.shards[s], st.checkpoints, st'.checkpoints);
      if OnShard(step) && s == step.s {
        if step.SeeClosed? || step.ReplyDone? {
          FinalOwes(cfg, st, step);
        } else {
          FinalHere(cfg, st, step);
        }
      }
    }
  }

  lemma FinalGrows(sh: Shard, a: seq<Checkpoint>, b: seq<Checkpoint>)
    requires FinalInv(sh, a) && |a| <= |b| && forall c :: 0 <= c < |a| ==> b[c].owed == a[c].owed
    ensures FinalInv(sh, b)
  {
  }

  /** Only a loop that ends its last flush, or has none, reaches its final checkpoint. */
  lemma FinalHere(cfg: BatchConfig, st: State, step: Step)
    requires OnShard(step) && Enabled(cfg, st, step) && !step.SeeClosed? && !step.ReplyDone?
    requires FinalInv(st.shards[step.s], Apply(cfg, st, step).checkpoints)
    ensures var st' := Apply(cfg, st, step); FinalInv(st'.shards[step.s], st'.checkpoints)
  {
  }

  lemma OwedFrame(cfg: BatchConfig, st: State, step: Step)
    requires Enabled(cfg, st, step)
    ensures var st' := Apply(cfg, st, step);
      && |st.checkpoints| <= |st'.checkpoints|
      && forall c :: 0 <= c < |st.checkpoints| ==> st'.checkpoints[c].owed == st.checkpoints[c].owed
  {
  }

  lemma FinalOwes(cfg: BatchConfig, st: State, step: Step)
    requires Enabled(cfg, st, step) && (step.SeeClosed? || step.ReplyDone?)
    ensures var st' := Apply(cfg, st, step); FinalInv(st'.shards[step.s], st'.checkpoints)
  {
    forall f | f in st.shards[step.s].finished && f.answer.Acked?
      ensures f.req.event in AckedEvents(st.shards)
    {
      var i :| 0 <= i < |st.shards[step.s].finished| && st.shards[step.s].finished[i] == f;
    }
  }

  // ── Checkpoints ──────────────────────────────────────────────────────

  lemma CheckpointGrows(c: Checkpoint, a: EngineMap, b: EngineMap)
    requires CheckpointInv(c, a) && EnginesGrow(a, b)
    ensures CheckpointInv(c, b)
  {
  }

  /** Flushing a tier publishes everything durable in it. */
  lemma FlushPublishes(c: Checkpoint, engines: EngineMap, tier: Tier)
    requires CheckpointInv(c, engines) && tier in engines
    ensures var after := engines[tier := engines[tier].Flush()];
      CheckpointInv(c, after) && CheckpointInv(c.(todo := c.todo - {tier}), after)
  {
  }

  /** A checkpoint owes what was acknowledged when it began, and all of that is durable. */
  lemma BeginInv(st: State)
    requires forall s :: 0 <= s < |st.shards| ==> StoreInv(st.shards[s], st.engines)
    ensures CheckpointInv(BeginCheckpoint(st), st.engines)
  {
  }

  lemma NewCheckpoints(cfg: BatchConfig, st: State, step: Step)
    requires OnShard(step) && Enabled(cfg, st, step)
    ensures var st' := Apply(cfg, st, step);
      || st'.checkpoints == st.checkpoints
      || (st'.checkpoints == st.checkpoints + [BeginCheckpoint(st)] && st'.engines == st.engines)
  {
  }

  lemma CheckpointStep(cfg: BatchConfig, st: State, step: Step)
    requires forall s :: 0 <= s < |st.shards| ==> StoreInv(st.shards[s], st.engines)
    requires forall c :: 0 <= c < |st.checkpoints| ==> CheckpointInv(st.checkpoints[c], st.engines)
    requires Enabled(cfg, st, step)
    ensures var st' := Apply(cfg, st, step);
      forall c :: 0 <= c < |st'.checkpoints| ==> CheckpointInv(st'.checkpoints[c], st'.engines)
  {
    var st' := Apply(cfg, st, step);
    EnginesStep(cfg, st, step);
    BeginInv(st);
    if OnShard(step) {
      NewCheckpoints(cfg, st, step);
    }
    forall c | 0 <= c < |st'.checkpoints|
      ensures CheckpointInv(st'.checkpoints[c], st'.engines)
    {
      if c < |st.checkpoints| {
        CheckpointGrows(st.checkpoints[c], st.engines, st'.engines);
        if step.CheckpointFlush? {
          FlushPublishes(st.checkpoints[c], st.engines, step.tier);
        }
      } else {
        assert st'.checkpoints[c] == BeginCheckpoint(st);
      }
    }
  }

  // ── The invariant holds throughout every run ─────────────────────────

  lemma InitInv(cfg: BatchConfig, engines: EngineMap)
    ensures Inv(cfg, Init(cfg, engines))
  {
  }

  lemma InvStep(cfg: BatchConfig, st: State, step: Step)
    requires Inv(cfg, st) && Enabled(cfg, st, step)
    ensures Inv(cfg, Apply(cfg, st, step))
  {
    ShardsStep(cfg, st, step);
    StoreStep(cfg, st, step);
    FinalStep(cfg, st, step);
    UniqueStep(cfg, st, step);
    AnswerStep(cfg, st, step);
    CheckpointStep(cfg, st, step);
  }

  lemma EvolvesStep(cfg: BatchConfig, st: State, step: Step)
    requires Inv(cfg, st) && Enabled(cfg, st, step)
    ensures Evolves(st, Apply(cfg, st, step))
  {
    EnginesStep(cfg, st, step);
    AnswerStep(cfg, st, step);
    if OnShard(step) {
      ShardHistory(cfg, st, step);
    } else {
      CheckpointHistory(cfg, st, step);
    }
    EvolvesIntro(st, Apply(cfg, st, step));
  }

  lemma EvolvesIntro(a: State, b: State)
    requires EnginesGrow(a.engines, b.engines) && HistoryKept(a, b)
    requires forall rid :: rid in a.answers ==> rid in b.answers && b.answers[rid] == a.answers[rid]
    ensures Evolves(a, b)
  {
  }

  lemma CheckpointHistory(cfg: BatchConfig, st: State, step: Step)
    requires !OnShard(step) && Enabled(cfg, st, step)
    ensures HistoryKept(st, Apply(cfg, st, step))
  {
  }

  lemma ShardHistory(cfg: BatchConfig, st: State, step: Step)
    requires OnShard(step) && Enabled(cfg, st, step)
    ensures HistoryKept(st, Apply(cfg, st, step))
  {
    OtherShardsFrame(cfg, st, step);
    OwedFrame(cfg, st, step);
    ShardGrowsHere(cfg, st, step);
  }

  lemma ShardGrowsHere(cfg: BatchConfig, st: State, step: Step)
    requires OnShard(step) && Enabled(cfg, st, step)
    ensures ShardGrows(st.shards[step.s], Apply(cfg, st, step).shards[step.s])
  {
  }

  lemma {:induction false} EvolvesTransitive(a: State, b: State, c: State)
    requires Evolves(a, b) && Evolves(b, c)
    ensures Evolves(a, c)
  {
  }

  lemma {:induction false} RunInv(cfg: BatchConfig, states: seq<State>, steps: seq<Step>, k: nat)
    requires Run(cfg, states, steps) && k < |states|
    ensures Inv(cfg, states[k])
  {
    if k == 0 {
      var engines :| states[0] == Init(cfg, engines);
      InitInv(cfg, engines);
    } else {
      RunInv(cfg, states, steps, k - 1);
      assert Taken(steps, k - 1);
      InvStep(cfg, states[k - 1], steps[k - 1]);
    }
  }

  lemma {:induction false} RunEvolves(cfg: BatchConfig, states: seq<State>, steps: seq<Step>, i: nat, j: nat)
    requires Run(cfg, states, steps) && i <= j < |states|
    ensures Evolves(states[i], states[j])
    decreases j
  {
    if i < j {
      RunEvolves(cfg, states, steps, i, j - 1);
      RunInv(cfg, states, steps, j - 1);
      assert Taken(steps, j - 1);
      EvolvesStep(cfg, states[j - 1], steps[j - 1]);
      EvolvesTransitive(states[i], states[j - 1], states[j]);
    }
  }
}
