/** The loop bodies of `BatchLoop` are sequences of the protocol's own steps. */
module BatchRefinement {
  import opened Wrappers
  import opened Events
  import opened Engines
  import opened Faults
  import opened Enumerations
  import opened BatchProtocol
  import opened BatchLoop
  import opened Paths

  ghost function Moves(cfg: BatchConfig): (State, Step, State) -> bool {
    (st: State, step: Step, st': State) => Enabled(cfg, st, step) && st' == Apply(cfg, st, step)
  }

  lemma TakeStep(cfg: BatchConfig, st: State, steps: seq<Step>, mid: State, step: Step)
    requires Reaches(Moves(cfg), st, steps, mid) && Enabled(cfg, mid, step)
    ensures Reaches(Moves(cfg), st, steps + [step], Apply(cfg, mid, step))
  {
    ReachSnoc(Moves(cfg), st, steps, mid, step, Apply(cfg, mid, step));
  }

  // ── Receive ──────────────────────────────────────────────────────────

  function TryRecvs(s: nat, n: nat): seq<Step> {
    if n == 0 then [] else TryRecvs(s, n - 1) + [TryRecv(s)]
  }

  function ReceiveSteps(s: nat, n: nat): seq<Step> {
    [Recv(s)] + TryRecvs(s, n)
  }

  function Received(sh: Shard, n: nat): Shard
    requires n < |sh.queue|
  {
    sh.(queue := sh.queue[n + 1..], buffer := sh.buffer + sh.queue[..n + 1], phase := Fill)
  }

  lemma ReceivedOneMore(sh: Shard, n: nat)
    requires 0 < n < |sh.queue|
    ensures var sh' := Received(sh, n - 1);
      sh'.queue != [] && Received(sh, n) == sh'.(queue := sh'.queue[1..], buffer := sh'.buffer + [sh'.queue[0]])
  {
    assert sh.queue[..n + 1] == sh.queue[..n] + [sh.queue[n]];
    assert sh.queue[n..][1..] == sh.queue[n + 1..];
    var sh' := Received(sh, n - 1);
    assert Received(sh, n).buffer == sh'.buffer + [sh'.queue[0]];
  }

  lemma RecvStep(cfg: BatchConfig, st: State, s: nat)
    requires s < |st.shards| && st.shards[s].phase.Select? && st.shards[s].queue != []
    ensures Enabled(cfg, st, Recv(s)) && Apply(cfg, st, Recv(s)) == WithShard(st, s, Received(st.shards[s], 0))
  {
    assert st.shards[s].queue[..1] == [st.shards[s].queue[0]];
  }

  lemma TryRecvStep(cfg: BatchConfig, st: State, s: nat, n: nat)
    requires s < |st.shards| && 0 < n < |st.shards[s].queue| && |st.shards[s].buffer| + n < cfg.ShardBatchSize()
    ensures var mid := WithShard(st, s, Received(st.shards[s], n - 1));
      Enabled(cfg, mid, TryRecv(s)) && Apply(cfg, mid, TryRecv(s)) == WithShard(st, s, Received(st.shards[s], n))
  {
    ReceivedOneMore(st.shards[s], n);
    var mid := WithShard(st, s, Received(st.shards[s], n - 1));
    assert WithShard(mid, s, Received(st.shards[s], n)) == WithShard(st, s, Received(st.shards[s], n));
  }

  lemma {:induction false} ReceiveRuns(cfg: BatchConfig, st: State, s: nat, n: nat)
    requires s < |st.shards| && st.shards[s].phase.Select? && n < |st.shards[s].queue|
    requires |st.shards[s].buffer| + n < cfg.ShardBatchSize()
    ensures Reaches(Moves(cfg), st, ReceiveSteps(s, n), WithShard(st, s, Received(st.shards[s], n)))
  {
    if n == 0 {
      RecvStep(cfg, st, s);
      ReachOne(Moves(cfg), st, Recv(s), Apply(cfg, st, Recv(s)));
      assert [Recv(s)] == ReceiveSteps(s, 0);
    } else {
      ReceiveRuns(cfg, st, s, n - 1);
      TryRecvStep(cfg, st, s, n);
      TakeStep(cfg, st, ReceiveSteps(s, n - 1), WithShard(st, s, Received(st.shards[s], n - 1)), TryRecv(s));
      assert ReceiveSteps(s, n - 1) + [TryRecv(s)] == ReceiveSteps(s, n);
    }
  }

  /** What `AppendLoop.Receive` promises of its queue and buffer, from those of a shard. */
  predicate IsReceive(cfg: BatchConfig, sh: Shard, buffer: seq<Request>, queue: seq<Request>, full: bool) {
    && sh.queue != [] && buffer + queue == sh.buffer + sh.queue && sh.buffer + [sh.queue[0]] <= buffer
    && |buffer| <= cfg.ShardBatchSize() && (full <==> |buffer| == cfg.ShardBatchSize()) && (!full ==> queue == [])
  }

  lemma IsReceived(cfg: BatchConfig, sh: Shard, buffer: seq<Request>, queue: seq<Request>, full: bool)
    requires IsReceive(cfg, sh, buffer, queue, full)
    ensures var n := |buffer| - |sh.buffer| - 1;
      0 <= n < |sh.queue| && Received(sh, n) == sh.(queue := queue, buffer := buffer, phase := Fill)
  {
    var n := |buffer| - |sh.buffer| - 1;
    var all := buffer + queue;
    assert all[..|buffer|] == buffer && all[|buffer|..] == queue;
    assert all == sh.buffer + sh.queue;
    assert all[..|buffer|] == sh.buffer + sh.queue[..n + 1];
    assert all[|buffer|..] == sh.queue[n + 1..];
  }

  lemma FillDoneStep(cfg: BatchConfig, st: State, s: nat, sh: Shard, full: bool)
    requires s < |st.shards| && sh.phase == Fill && (full <==> |sh.buffer| >= cfg.ShardBatchSize())
      && (!full ==> sh.queue == [])
    ensures Enabled(cfg, WithShard(st, s, sh), FillDone(s))
    ensures Apply(cfg, WithShard(st, s, sh), FillDone(s)) ==
      WithShard(st, s, if full then TakeBuffer(sh, false) else sh.(phase := Select))
  {
    var mid := WithShard(st, s, sh);
    assert forall x: Shard :: WithShard(mid, s, x) == WithShard(st, s, x);
  }

  /** A call of `Receive` is one receive, the attempts that found something, and the end of the
      fill loop, which starts the flush of a full buffer. */
  lemma ReceiveRefines(cfg: BatchConfig, st: State, s: nat, buffer: seq<Request>, queue: seq<Request>, full: bool)
    requires s < |st.shards| && st.shards[s].phase.Select?
    requires IsReceive(cfg, st.shards[s], buffer, queue, full)
    ensures |buffer| > |st.shards[s].buffer|
    ensures var sh := st.shards[s].(queue := queue, buffer := buffer);
      Reaches(Moves(cfg), st, ReceiveSteps(s, |buffer| - |st.shards[s].buffer| - 1) + [FillDone(s)],
              WithShard(st, s, if full then TakeBuffer(sh, false) else sh.(phase := Select)))
  {
    var n := |buffer| - |st.shards[s].buffer| - 1;
    IsReceived(cfg, st.shards[s], buffer, queue, full);
    ReceiveRuns(cfg, st, s, n);
    var sh := st.shards[s].(queue := queue, buffer := buffer, phase := Fill);
    FillDoneStep(cfg, st, s, sh, full);
    TakeStep(cfg, st, ReceiveSteps(s, n), WithShard(st, s, sh), FillDone(s));
    assert TakeBuffer(sh, false) == TakeBuffer(st.shards[s].(queue := queue, buffer := buffer), false);
  }

  // ── AppendOnly ───────────────────────────────────────────────────────

  /** Only shard `s` and the engines may differ, and of the shard only its phase and what it
      stored. */
  predicate OnlyAppends(st: State, st': State, s: nat) {
    && s < |st.shards| == |st'.shards| && st' == st.(engines := st'.engines, shards := st'.shards)
    && st'.shards == st.shards[s := st.shards[s].(phase := st'.shards[s].phase, stored := st'.shards[s].stored)]
  }

  function TierSteps(s: nat, order: seq<Tier>): seq<Step> {
    if order == [] then [] else TierSteps(s, order[..|order| - 1]) + [AppendTier(s, order[|order| - 1])]
  }

  /** After the first tiers of the order were appended. */
  ghost predicate AfterTiers(st: State, st': State, s: nat, done: seq<Tier>) {
    && OnlyAppends(st, st', s) && st.shards[s].phase.Append?
    && st'.shards[s].phase == st.shards[s].phase.(todo := st.shards[s].phase.todo - SetOf(done))
    && WroteTiers(st.engines, st'.engines, EventsOf(st.shards[s].phase.pending), SetOf(done))
  }

  lemma AppendTierStep(cfg: BatchConfig, st: State, mid: State, s: nat, done: seq<Tier>, tier: Tier)
    requires AfterTiers(st, mid, s, done) && tier in mid.shards[s].phase.todo && tier !in done
    ensures Enabled(cfg, mid, AppendTier(s, tier))
    ensures AfterTiers(st, Apply(cfg, mid, AppendTier(s, tier)), s, done + [tier])
  {
    AppendTierIsOneTurn(st.engines, mid.engines, st.shards[s].phase.pending, SetOf(done), tier);
    assert SetOf(done + [tier]) == SetOf(done) + {tier};
    assert mid.shards[s].phase.todo - {tier} == st.shards[s].phase.todo - SetOf(done + [tier]);
  }

  lemma OneTier(cfg: BatchConfig, st: State, steps: seq<Step>, mid: State, s: nat, done: seq<Tier>, tier: Tier)
    returns (st': State)
    requires Reaches(Moves(cfg), st, steps, mid) && AfterTiers(st, mid, s, done) && tier in mid.shards[s].phase.todo
    requires tier !in done
    ensures Reaches(Moves(cfg), st, steps + [AppendTier(s, tier)], st') && AfterTiers(st, st', s, done + [tier])
  {
    AppendTierStep(cfg, st, mid, s, done, tier);
    TakeStep(cfg, st, steps, mid, AppendTier(s, tier));
    st' := Apply(cfg, mid, AppendTier(s, tier));
  }

  lemma {:induction false} TiersRun(cfg: BatchConfig, st: State, s: nat, order: seq<Tier>) returns (mid: State)
    requires s < |st.shards| && st.shards[s].phase.Append?
    requires forall i :: 0 <= i < |order| ==> order[i] in st.shards[s].phase.todo
    requires forall i, j :: 0 <= i < j < |order| ==> order[i] != order[j]
    ensures Reaches(Moves(cfg), st, TierSteps(s, order), mid) && AfterTiers(st, mid, s, order)
  {
    if order == [] {
      mid := st;
      ReachNone<State, Step>(Moves(cfg), st);
      assert SetOf(order) == {};
    } else {
      var n := |order| - 1;
      var before := TiersRun(cfg, st, s, order[..n]);
      mid := OneTier(cfg, st, TierSteps(s, order[..n]), before, s, order[..n], order[n]);
      assert order[..n] + [order[n]] == order;
    }
  }

  /** How the flush ends: all tiers done, or the first failing one. */
  function LastStep(s: nat, order: seq<Tier>, fault: Tier -> Fault): Step {
    var n := FirstFault(order, fault);
    if n == |order| then AppendDone(s)
    else AppendFail(s, if fault(order[n]).Torn? then Some(order[n]) else None)
  }

  function FlushSteps(s: nat, order: seq<Tier>, fault: Tier -> Fault): seq<Step> {
    TierSteps(s, order[..FirstFault(order, fault)]) + [LastStep(s, order, fault)]
  }

  ghost predicate AfterFlush(st: State, st': State, s: nat, order: seq<Tier>, fault: Tier -> Fault) {
    && OnlyAppends(st, st', s) && st.shards[s].phase.Append?
    && var p := st.shards[s].phase;
       && st'.shards[s].phase ==
          Reply(p.pending, if Fails(order, fault) then None else Some(IdsOf(p.pending)), p.closing)
       && WroteTiers(st.engines, st'.engines, EventsOf(p.pending), WrittenTiers(order, fault))
  }

  /** Shard `s` with another phase and more stored, and other engines. */
  function Moved(st: State, s: nat, phase: Phase, stored: seq<Request>, engines: EngineMap): State
    requires s < |st.shards|
  {
    WithShard(st, s, st.shards[s].(phase := phase, stored := stored)).(engines := engines)
  }

  lemma DoneEffect(cfg: BatchConfig, st: State, s: nat)
    requires s < |st.shards| && st.shards[s].phase.Append? && st.shards[s].phase.todo == {}
    ensures Enabled(cfg, st, AppendDone(s))
    ensures var p := st.shards[s].phase;
      Apply(cfg, st, AppendDone(s)) ==
        Moved(st, s, Reply(p.pending, Some(IdsOf(p.pending)), p.closing), st.shards[s].stored, st.engines)
  {
  }

  lemma FailEffect(cfg: BatchConfig, st: State, s: nat, torn: Option<Tier>)
    requires s < |st.shards| && st.shards[s].phase.Append? && (torn.Some? ==> torn.value in st.shards[s].phase.todo)
    ensures Enabled(cfg, st, AppendFail(s, torn))
    ensures var p := st.shards[s].phase;
      Apply(cfg, st, AppendFail(s, torn)) ==
        Moved(st, s, Reply(p.pending, None, p.closing),
              st.shards[s].stored + if torn.Some? then OfTier(p.pending, torn.value) else [],
              if torn.Some? then AppendTo(st.engines, p.pending, torn.value) else st.engines)
  {
  }

  /** The end of a flush, without the step that made it. */
  lemma FlushEnds(st: State, mid: State, s: nat, ids: Option<seq<EventId>>, stored: seq<Request>, engines: EngineMap,
                  order: seq<Tier>, fault: Tier -> Fault)
    requires OnlyAppends(st, mid, s) && st.shards[s].phase.Append?
    requires ids == if Fails(order, fault) then None else Some(IdsOf(st.shards[s].phase.pending))
    requires WroteTiers(st.engines, engines, EventsOf(st.shards[s].phase.pending), WrittenTiers(order, fault))
    ensures var p := st.shards[s].phase;
      AfterFlush(st, Moved(mid, s, Reply(p.pending, ids, p.closing), stored, engines), s, order, fault)
  {
  }

  lemma DoneStep(cfg: BatchConfig, st: State, mid: State, s: nat, order: seq<Tier>, fault: Tier -> Fault)
    requires OnlyAppends(st, mid, s) && st.shards[s].phase.Append? && !Fails(order, fault)
    requires mid.shards[s].phase == st.shards[s].phase.(todo := {})
    requires WroteTiers(st.engines, mid.engines, EventsOf(st.shards[s].phase.pending), WrittenTiers(order, fault))
    ensures Enabled(cfg, mid, AppendDone(s)) && AfterFlush(st, Apply(cfg, mid, AppendDone(s)), s, order, fault)
  {
    DoneEffect(cfg, mid, s);
    FlushEnds(st, mid, s, Some(IdsOf(st.shards[s].phase.pending)), mid.shards[s].stored, mid.engines, order, fault);
  }

  lemma FailStep(cfg: BatchConfig, st: State, mid: State, s: nat, torn: Option<Tier>, engines: EngineMap,
                 order: seq<Tier>, fault: Tier -> Fault)
    requires OnlyAppends(st, mid, s) && st.shards[s].phase.Append? && Fails(order, fault)
    requires mid.shards[s].phase.Append? && mid.shards[s].phase == st.shards[s].phase.(todo := mid.shards[s].phase.todo)
    requires torn.Some? ==> torn.value in mid.shards[s].phase.todo
    requires engines ==
      if torn.Some? then AppendTo(mid.engines, st.shards[s].phase.pending, torn.value) else mid.engines
    requires WroteTiers(st.engines, engines, EventsOf(st.shards[s].phase.pending), WrittenTiers(order, fault))
    ensures Enabled(cfg, mid, AppendFail(s, torn))
    ensures AfterFlush(st, Apply(cfg, mid, AppendFail(s, torn)), s, order, fault)
  {
    FailEffect(cfg, mid, s, torn);
    var p := mid.shards[s].phase;
    var stored := mid.shards[s].stored + if torn.Some? then OfTier(p.pending, torn.value) else [];
    FlushEnds(st, mid, s, None, stored, engines, order, fault);
  }

  lemma FirstFaultIsNew(order: seq<Tier>, fault: Tier -> Fault, tiers: set<Tier>)
    requires Visits(order, tiers) && Fails(order, fault)
    ensures var n := FirstFault(order, fault); order[n] in tiers && order[n] !in order[..n]
    ensures var n := FirstFault(order, fault);
      WrittenTiers(order, fault) == SetOf(order[..n]) + if fault(order[n]).Torn? then {order[n]} else {}
  {
  }

  lemma FailedWrote(st: State, mid: State, s: nat, order: seq<Tier>, fault: Tier -> Fault)
    requires AfterTiers(st, mid, s, order[..FirstFault(order, fault)]) && Visits(order, st.shards[s].phase.todo)
    requires FirstFault(order, fault) < |order|
    ensures var n := FirstFault(order, fault);
      var pending := st.shards[s].phase.pending;
      var after := if fault(order[n]).Torn? then AppendTo(mid.engines, pending, order[n]) else mid.engines;
      && order[n] in mid.shards[s].phase.todo
      && WroteTiers(st.engines, after, EventsOf(pending), WrittenTiers(order, fault))
  {
    var n := FirstFault(order, fault);
    FirstFaultIsNew(order, fault, st.shards[s].phase.todo);
    if fault(order[n]).Torn? {
      AppendTierIsOneTurn(st.engines, mid.engines, st.shards[s].phase.pending, SetOf(order[..n]), order[n]);
    }
  }

  lemma LastStepEnds(cfg: BatchConfig, st: State, mid: State, s: nat, order: seq<Tier>, fault: Tier -> Fault)
    requires AfterTiers(st, mid, s, order[..FirstFault(order, fault)]) && Visits(order, st.shards[s].phase.todo)
    ensures Enabled(cfg, mid, LastStep(s, order, fault))
    ensures AfterFlush(st, Apply(cfg, mid, LastStep(s, order, fault)), s, order, fault)
  {
    var n := FirstFault(order, fault);
    if n == |order| {
      assert order[..|order|] == order;
      assert mid.shards[s].phase.todo == {};
      AllWritten(order, fault);
      DoneStep(cfg, st, mid, s, order, fault);
    } else {
      var torn := if fault(order[n]).Torn? then Some(order[n]) else None;
      FailedWrote(st, mid, s, order, fault);
      var after := if torn.Some? then AppendTo(mid.engines, st.shards[s].phase.pending, order[n]) else mid.engines;
      FailStep(cfg, st, mid, s, torn, after, order, fault);
    }
  }

  lemma FlushRuns(cfg: BatchConfig, st: State, s: nat, order: seq<Tier>, fault: Tier -> Fault) returns (st': State)
    requires s < |st.shards| && st.shards[s].phase.Append? && Visits(order, st.shards[s].phase.todo)
    ensures Reaches(Moves(cfg), st, FlushSteps(s, order, fault), st') && AfterFlush(st, st', s, order, fault)
  {
    var n := FirstFault(order, fault);
    var mid := TiersRun(cfg, st, s, order[..n]);
    LastStepEnds(cfg, st, mid, s, order, fault);
    TakeStep(cfg, st, TierSteps(s, order[..n]), mid, LastStep(s, order, fault));
    st' := Apply(cfg, mid, LastStep(s, order, fault));
  }

  // ── The replies ──────────────────────────────────────────────────────

  function Replies(s: nat, n: nat): seq<Step> {
    if n == 0 then [] else Replies(s, n - 1) + [ReplyNext(s)]
  }

  /** The answers `append_only` sends for a batch. */
  function AnswerAll(reqs: seq<Request>, failed: bool): seq<Finished> {
    seq(|reqs|, i requires 0 <= i < |reqs| => Finished(reqs[i], if failed then Rejected else Acked(reqs[i].event.id)))
  }

  /** After the first `n` replies. */
  ghost predicate AfterReplies(st: State, st': State, s: nat, reqs: seq<Request>, failed: bool, closing: bool, n: nat)
    requires n <= |reqs|
  {
    && s < |st.shards| == |st'.shards| && st'.engines == st.engines && st'.checkpoints == st.checkpoints
    && (forall t :: 0 <= t < |st.shards| && t != s ==> st'.shards[t] == st.shards[t])
    && st'.shards[s].phase == Reply(reqs[n..], if failed then None else Some(IdsOf(reqs)[n..]), closing)
    && st'.shards[s].finished == st.shards[s].finished + AnswerAll(reqs, failed)[..n]
  }

  lemma ReplyStep(cfg: BatchConfig, st: State, mid: State, s: nat, reqs: seq<Request>, failed: bool, closing: bool,
                  n: nat)
    requires n < |reqs| && AfterReplies(st, mid, s, reqs, failed, closing, n)
    ensures Enabled(cfg, mid, ReplyNext(s))
    ensures AfterReplies(st, Apply(cfg, mid, ReplyNext(s)), s, reqs, failed, closing, n + 1)
  {
    var all := AnswerAll(reqs, failed);
    assert all[..n + 1] == all[..n] + [all[n]];
    assert reqs[n..][1..] == reqs[n + 1..] && IdsOf(reqs)[n..][1..] == IdsOf(reqs)[n + 1..];
    assert st.shards[s].finished + all[..n] + [all[n]] == st.shards[s].finished + all[..n + 1];
  }

  lemma {:induction false} RepliesRun(cfg: BatchConfig, st: State, s: nat, reqs: seq<Request>, failed: bool,
                                      closing: bool, n: nat) returns (st': State)
    requires n <= |reqs| && AfterReplies(st, st, s, reqs, failed, closing, 0)
    ensures Reaches(Moves(cfg), st, Replies(s, n), st') && AfterReplies(st, st', s, reqs, failed, closing, n)
  {
    if n == 0 {
      st' := st;
      ReachNone<State, Step>(Moves(cfg), st);
    } else {
      var mid := RepliesRun(cfg, st, s, reqs, failed, closing, n - 1);
      st' := OneReply(cfg, st, Replies(s, n - 1), mid, s, reqs, failed, closing, n - 1);
    }
  }

  lemma OneReply(cfg: BatchConfig, st: State, steps: seq<Step>, mid: State, s: nat, reqs: seq<Request>, failed: bool,
                 closing: bool, n: nat) returns (st': State)
    requires n < |reqs| && Reaches(Moves(cfg), st, steps, mid) && AfterReplies(st, mid, s, reqs, failed, closing, n)
    ensures Reaches(Moves(cfg), st, steps + [ReplyNext(s)], st')
    ensures AfterReplies(st, st', s, reqs, failed, closing, n + 1)
  {
    ReplyStep(cfg, st, mid, s, reqs, failed, closing, n);
    TakeStep(cfg, st, steps, mid, ReplyNext(s));
    st' := Apply(cfg, mid, ReplyNext(s));
  }

  /** A call of `AppendOnly` on a buffer just taken is one append step per tier of the order up to
      the first failure, the end of the flush, and one reply per request: the engines end up with
      the same tiers written, and the answers given are the ones returned. */
  lemma AppendOnlyRefines(cfg: BatchConfig, st: State, s: nat, order: seq<Tier>, fault: Tier -> Fault)
    returns (st': State)
    requires s < |st.shards| && st.shards[s].phase.Append? && Visits(order, st.shards[s].phase.todo)
    ensures var p := st.shards[s].phase;
      && Reaches(Moves(cfg), st, FlushSteps(s, order, fault) + Replies(s, |p.pending|), st')
      && |st'.shards| == |st.shards|
         && st'.shards[s].finished == st.shards[s].finished + AnswerAll(p.pending, Fails(order, fault))
      && WroteTiers(st.engines, st'.engines, EventsOf(p.pending), WrittenTiers(order, fault))
      && st'.shards[s].phase.Reply? && st'.shards[s].phase.senders == []
  {
    var p := st.shards[s].phase;
    var mid := FlushRuns(cfg, st, s, order, fault);
    var failed := Fails(order, fault);
    assert p.pending[0..] == p.pending && IdsOf(p.pending)[0..] == IdsOf(p.pending);
    assert AfterReplies(mid, mid, s, p.pending, failed, p.closing, 0);
    st' := RepliesRun(cfg, mid, s, p.pending, failed, p.closing, |p.pending|);
    ReachConcat(Moves(cfg), st, FlushSteps(s, order, fault), mid, Replies(s, |p.pending|), st');
    assert AnswerAll(p.pending, failed)[..|p.pending|] == AnswerAll(p.pending, failed);
  }

  /** The replies `AppendOnly` returns are those answers. */
  lemma RepliesAreTheAnswers(replies: seq<Finished>, pending: seq<Request>, failed: bool)
    requires Requests(replies) == pending
    requires !failed ==> forall f :: f in replies ==> f.answer == Acked(f.req.event.id)
    requires failed ==> forall f :: f in replies ==> f.answer == Rejected
    ensures replies == AnswerAll(pending, failed)
  {
    forall i | 0 <= i < |replies|
      ensures replies[i] == AnswerAll(pending, failed)[i]
    {
      assert replies[i] in replies && Requests(replies)[i] == replies[i].req;
    }
  }
}
