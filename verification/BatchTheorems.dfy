/** What the batch writer promises its callers, over whole runs. */
module BatchTheorems {
  import opened Wrappers
  import opened Events
  import opened Engines
  import opened BatchProtocol
  import opened BatchSafety

  /** How often a shard holds a request: answered, in flight, buffered or queued. */
  function Occurrences(sh: Shard, r: Request): nat {
    multiset(Requests(sh.finished))[r] + multiset(InFlight(sh.phase))[r] + multiset(sh.buffer)[r] + multiset(sh.queue)[r]
  }

  lemma CountByRid(reqs: seq<Request>, r: Request, i: nat)
    requires i < |reqs| && reqs[i] == r
    requires forall j :: 0 <= j < |reqs| && j != i ==> reqs[j] != r
    ensures multiset(reqs)[r] == 1
  {
    assert reqs == reqs[..i] + [r] + reqs[i + 1..];
    assert r !in reqs[..i] && r !in reqs[i + 1..];
  }

  lemma OccurrencesOfAccepted(sh: Shard, r: Request)
    requires sh.accepted == Requests(sh.finished) + InFlight(sh.phase) + sh.buffer + sh.queue
    ensures Occurrences(sh, r) == multiset(sh.accepted)[r]
  {
  }

  /** In every reachable state an accepted request is in exactly one place of exactly one shard. */
  lemma AcceptedIsInOnePlace(cfg: BatchConfig, states: seq<State>, steps: seq<Step>, k: nat, s: nat, i: nat, s': nat)
    requires Run(cfg, states, steps) && k < |states|
    requires s < |states[k].shards| && i < |states[k].shards[s].accepted| && s' < |states[k].shards|
    ensures Occurrences(states[k].shards[s'], states[k].shards[s].accepted[i]) == if s' == s then 1 else 0
  {
    var st := states[k];
    var r := st.shards[s].accepted[i];
    RunInv(cfg, states, steps, k);
    assert ShardInv(cfg, st.shards[s'], |st.checkpoints|);
    OccurrencesOfAccepted(st.shards[s'], r);
    if s' == s {
      CountByRid(st.shards[s].accepted, r, i);
    } else {
      assert forall j :: 0 <= j < |st.shards[s'].accepted| ==> st.shards[s'].accepted[j] != r;
    }
  }

  /** A waiter told `Ok(id)` gets its own event's id, and from that moment on its event is in
      its tier's log or segments. */
  lemma AckedIsDurable(cfg: BatchConfig, states: seq<State>, steps: seq<Step>, k: nat, rid: nat, later: nat)
      returns (s: nat, i: nat)
    requires Run(cfg, states, steps) && k <= later < |states|
    requires rid in states[k].answers && states[k].answers[rid].Acked?
    ensures s < |states[k].shards| && i < |states[k].shards[s].accepted|
    ensures states[k].shards[s].accepted[i].rid == rid && states[k].shards[s].accepted[i].waits
    ensures states[k].answers[rid] == Acked(states[k].shards[s].accepted[i].event.id)
    ensures Durable(states[later].engines, states[k].shards[s].accepted[i].event)
  {
    var st := states[k];
    RunInv(cfg, states, steps, k);
    assert AnsweredBy(st, rid);
    s, i :| 0 <= s < |st.shards| && 0 <= i < |st.shards[s].finished|
      && st.shards[s].finished[i].req.rid == rid && st.shards[s].finished[i].req.waits;
    assert st.shards[s].accepted[i] == st.shards[s].finished[i].req;
    assert StoreInv(st.shards[s], st.engines) && st.shards[s].finished[i] in st.shards[s].finished;
    RunEvolves(cfg, states, steps, k, later);
    DurableGrows(st.engines, states[later].engines, st.shards[s].accepted[i].event);
  }

  /** An answer, once given, is the answer for the rest of the run. */
  lemma AnswersAreFinal(cfg: BatchConfig, states: seq<State>, steps: seq<Step>, i: nat, j: nat, rid: nat)
    requires Run(cfg, states, steps) && i <= j < |states| && rid in states[i].answers
    ensures rid in states[j].answers && states[j].answers[rid] == states[i].answers[rid]
  {
    RunEvolves(cfg, states, steps, i, j);
  }

  /** No reply is ever sent to a waiter that already has one. */
  lemma RepliesGoToUnanswered(cfg: BatchConfig, states: seq<State>, steps: seq<Step>, j: nat)
    requires Run(cfg, states, steps) && Taken(steps, j) && steps[j].ReplyNext?
    ensures states[j].shards[steps[j].s].phase.senders[0].rid !in states[j].answers
  {
    RunInv(cfg, states, steps, j);
    NotYetAnswered(cfg, states[j], steps[j].s);
  }

  lemma AckedEventsGrow(a: State, b: State)
    requires Evolves(a, b)
    ensures AckedEvents(a.shards) <= AckedEvents(b.shards)
  {
  }

  /** A checkpoint begun after state `i` owes everything acknowledged by state `i`. */
  lemma {:induction false} LaterCheckpointOwes(cfg: BatchConfig, states: seq<State>, steps: seq<Step>, i: nat, k: nat,
                                               c: nat)
    requires Run(cfg, states, steps) && i <= k < |states|
    requires |states[i].checkpoints| <= c < |states[k].checkpoints|
    ensures AckedEvents(states[i].shards) <= states[k].checkpoints[c].owed
    decreases k
  {
    var before := states[k - 1];
    RunInv(cfg, states, steps, k - 1);
    assert Taken(steps, k - 1);
    EvolvesStep(cfg, before, steps[k - 1]);
    if c < |before.checkpoints| {
      LaterCheckpointOwes(cfg, states, steps, i, k - 1, c);
    } else {
      NewCheckpoint(cfg, before, steps[k - 1], c);
      RunEvolves(cfg, states, steps, i, k - 1);
      AckedEventsGrow(states[i], before);
    }
  }

  lemma NewCheckpoint(cfg: BatchConfig, st: State, step: Step, c: nat)
    requires Enabled(cfg, st, step) && |st.checkpoints| <= c < |Apply(cfg, st, step).checkpoints|
    ensures Apply(cfg, st, step).checkpoints[c] == BeginCheckpoint(st)
  {
  }

  /** Read your writes: once a `wal_checkpoint` that began after the acknowledgement completes,
      the event is in its tier's segments in every later state. */
  lemma CheckpointPublishes(cfg: BatchConfig, states: seq<State>, steps: seq<Step>, i: nat, k: nat, later: nat, c: nat,
                            e: LlmEvent)
    requires Run(cfg, states, steps) && i <= k <= later < |states|
    requires e in AckedEvents(states[i].shards)
    requires |states[i].checkpoints| <= c < |states[k].checkpoints| && states[k].checkpoints[c].Completed()
    ensures Published(states[later].engines, e)
  {
    LaterCheckpointOwes(cfg, states, steps, i, k, c);
    RunInv(cfg, states, steps, k);
    assert CheckpointInv(states[k].checkpoints[c], states[k].engines);
    RunEvolves(cfg, states, steps, k, later);
    DurableGrows(states[k].engines, states[later].engines, e);
  }

  /** Flushed batches, one after another, are a prefix of the order requests were accepted in,
      and the buffer never outgrows the per-shard batch size. */
  lemma FlushesFollowAcceptance(cfg: BatchConfig, states: seq<State>, steps: seq<Step>, k: nat, s: nat)
    requires Run(cfg, states, steps) && k < |states| && s < |states[k].shards|
    ensures Flatten(states[k].shards[s].batches) <= states[k].shards[s].accepted
    ensures |states[k].shards[s].buffer| <= cfg.ShardBatchSize() && |states[k].shards[s].queue| <= cfg.ShardCapacity()
  {
    RunInv(cfg, states, steps, k);
    var sh := states[k].shards[s];
    assert ShardInv(cfg, sh, |states[k].checkpoints|);
    assert sh.accepted == Flatten(sh.batches) + sh.buffer + sh.queue;
  }

  /** A loop that has exited left nothing behind: every request its channel ever accepted was
      flushed and, if someone waits on it, answered; nothing is accepted afterwards; and when
      its final checkpoint completed, everything it acknowledged is visible. */
  lemma ExitedLoopIsDrained(cfg: BatchConfig, states: seq<State>, steps: seq<Step>, k: nat, later: nat, s: nat, i: nat)
    requires Run(cfg, states, steps) && k <= later < |states|
    requires s < |states[k].shards| && states[k].shards[s].phase.Exited?
    requires i < |states[k].shards[s].accepted|
    ensures s < |states[later].shards|
    ensures states[later].shards[s].accepted == states[k].shards[s].accepted == Requests(states[k].shards[s].finished)
    ensures Flatten(states[k].shards[s].batches) == states[k].shards[s].accepted
    ensures var r := states[k].shards[s].accepted[i];
      r.waits ==> r.rid in states[k].answers && states[k].answers[r.rid] == states[k].shards[s].finished[i].answer
    ensures var sh := states[k].shards[s];
      sh.phase.index < |states[k].checkpoints|
      && (states[k].checkpoints[sh.phase.index].Completed() && sh.finished[i].answer.Acked? ==>
            Published(states[later].engines, sh.accepted[i].event))
  {
    RunInv(cfg, states, steps, k);
    RunEvolves(cfg, states, steps, k, later);
    var sh := states[k].shards[s];
    assert ShardInv(cfg, sh, |states[k].checkpoints|) && ShardGrows(sh, states[later].shards[s]);
    assert FinalInv(sh, states[k].checkpoints) && sh.finished[i] in sh.finished;
    assert CheckpointInv(states[k].checkpoints[sh.phase.index], states[k].engines);
    DurableGrows(states[k].engines, states[later].engines, sh.accepted[i].event);
  }

  // ── An error answer does not mean the event was not stored ───────────

  const ONE_SHARD := BatchConfig(256, 8192, 1)

  /** What the witness run below looks at in its single shard. */
  predicate Looks(st: State, queue: seq<Request>, buffer: seq<Request>, phase: Phase) {
    && |st.shards| == 1 && !st.shards[0].closed
    && st.shards[0].queue == queue && st.shards[0].buffer == buffer && st.shards[0].phase == phase
  }

  lemma Extend(cfg: BatchConfig, states: seq<State>, steps: seq<Step>, step: Step)
    returns (states': seq<State>, steps': seq<Step>)
    requires Run(cfg, states, steps) && Enabled(cfg, states[|steps|], step)
    ensures Run(cfg, states', steps') && |steps'| == |steps| + 1
    ensures states'[|steps'|] == Apply(cfg, states[|steps|], step)
  {
    states', steps' := states + [Apply(cfg, states[|steps|], step)], steps + [step];
    forall i | Taken(steps', i)
      ensures Enabled(cfg, states'[i], steps'[i]) && states'[i + 1] == Apply(cfg, states'[i], steps'[i])
    {
      assert i < |steps| ==> Taken(steps, i);
    }
  }

  lemma SendBoth(a: LlmEvent, b: LlmEvent) returns (states: seq<State>, steps: seq<Step>)
    ensures Run(ONE_SHARD, states, steps)
    ensures Looks(states[|steps|], [Request(0, a, true), Request(1, b, true)], [], Select)
    ensures states[|steps|].shards[0].accepted == [Request(0, a, true), Request(1, b, true)]
  {
    states, steps := [Init(ONE_SHARD, map[])], [];
    states, steps := Extend(ONE_SHARD, states, steps, Send(0, a, true));
    states, steps := Extend(ONE_SHARD, states, steps, Send(0, b, true));
  }

  lemma BufferBoth(a: LlmEvent, b: LlmEvent) returns (states: seq<State>, steps: seq<Step>)
    ensures Run(ONE_SHARD, states, steps)
    ensures Looks(states[|steps|], [], [Request(0, a, true), Request(1, b, true)], Select)
    ensures states[|steps|].shards[0].accepted == [Request(0, a, true), Request(1, b, true)]
  {
    states, steps := SendBoth(a, b);
    states, steps := Extend(ONE_SHARD, states, steps, Recv(0));
    states, steps := Extend(ONE_SHARD, states, steps, TryRecv(0));
    states, steps := Extend(ONE_SHARD, states, steps, FillDone(0));
  }

  lemma WriteFirstTier(a: LlmEvent, b: LlmEvent) returns (states: seq<State>, steps: seq<Step>)
    ensures Run(ONE_SHARD, states, steps)
    ensures var end := states[|steps|];
      Looks(end, [], [], Append([Request(0, a, true), Request(1, b, true)], TiersOf([a, b]) - {a.tier}, false))
      && end.shards[0].accepted == [Request(0, a, true), Request(1, b, true)] && Durable(end.engines, a)
  {
    var both := [Request(0, a, true), Request(1, b, true)];
    states, steps := BufferBoth(a, b);
    states, steps := Extend(ONE_SHARD, states, steps, Tick(0));
    assert EventsOf(both) == [a, b];
    assert a in [a, b];
    AppendToGrows(states[|steps|].engines, both, a.tier);
    assert both[0] in both;
    states, steps := Extend(ONE_SHARD, states, steps, AppendTier(0, a.tier));
  }

  /** For any two events of different tiers there is a run in which the first one's waiter is
      told of a failure although its own tier was durable before the other tier failed. */
  lemma RejectedMayBeDurable(a: LlmEvent, b: LlmEvent) returns (states: seq<State>, steps: seq<Step>)
    requires a.tier != b.tier
    ensures Run(ONE_SHARD, states, steps)
    ensures var end := states[|steps|];
      0 in end.answers && end.answers[0] == Rejected && Durable(end.engines, a)
      && |end.shards| == 1 && end.shards[0].accepted == [Request(0, a, true), Request(1, b, true)]
  {
    states, steps := WriteFirstTier(a, b);
    states, steps := Extend(ONE_SHARD, states, steps, AppendFail(0, None));
    states, steps := Extend(ONE_SHARD, states, steps, ReplyNext(0));
  }
}
