/** What the batch writer leaves in the engines: every stored row is accounted for by one accepted
    request, and what an error answer says about its own request. */
module BatchStorage {
  import opened Wrappers
  import opened Events
  import opened Engines
  import opened Faults
  import opened BatchProtocol
  import opened BatchSafety

  predicate Distinct(reqs: seq<Request>) {
    forall i, j :: 0 <= i < j < |reqs| ==> reqs[i] != reqs[j]
  }

  lemma {:induction false} OfTierMembers(reqs: seq<Request>, tier: Tier)
    ensures forall r :: r in OfTier(reqs, tier) <==> r in reqs && r.event.tier == tier
  {
    if reqs != [] {
      var n := |reqs| - 1;
      OfTierMembers(reqs[..n], tier);
      assert reqs == reqs[..n] + [reqs[n]];
    }
  }

  lemma {:induction false} OfTierDistinct(reqs: seq<Request>, tier: Tier)
    requires Distinct(reqs)
    ensures Distinct(OfTier(reqs, tier))
  {
    if reqs != [] {
      var n := |reqs| - 1;
      OfTierDistinct(reqs[..n], tier);
      OfTierMembers(reqs[..n], tier);
      assert reqs[n] !in reqs[..n];
      if reqs[n].event.tier == tier { DistinctConcat(OfTier(reqs[..n], tier), [reqs[n]]); }
    }
  }

  // ── One shard's history of stored requests ───────────────────────────

  /** Stored requests are distinct and already taken from the buffer; of the batch in flight exactly
      those of finished tiers are stored; everything acknowledged, or about to be, is. */
  ghost predicate StoredInv(sh: Shard) {
    && Distinct(sh.stored)
    && (forall r :: r in sh.stored ==> r in Requests(sh.finished) || r in InFlight(sh.phase))
    && (sh.phase.Append? ==> forall r :: r in sh.phase.pending ==> (r in sh.stored <==> r.event.tier !in sh.phase.todo))
    && (sh.phase.Reply? && sh.phase.ids.Some? ==> forall r :: r in sh.phase.senders ==> r in sh.stored)
    && forall f :: f in sh.finished && f.answer.Acked? ==> f.req in sh.stored
  }

  /** The accounting the shard's places need here: they do not overlap. */
  ghost predicate PlacesInv(sh: Shard) {
    && Distinct(Requests(sh.finished) + InFlight(sh.phase) + sh.buffer + sh.queue)
    && (sh.phase.Append? ==> sh.buffer == [])
  }

  lemma PlacesFromInv(cfg: BatchConfig, st: State, s: nat)
    requires Inv(cfg, st) && s < |st.shards|
    ensures PlacesInv(st.shards[s]) && Distinct(st.shards[s].accepted)
  {
    var sh := st.shards[s];
    assert ShardInv(cfg, sh, |st.checkpoints|);
    forall i, j | 0 <= i < j < |sh.accepted|
      ensures sh.accepted[i] != sh.accepted[j]
    {
      assert sh.accepted[i].rid != sh.accepted[j].rid;
    }
  }

  lemma DistinctParts(a: seq<Request>, b: seq<Request>, c: seq<Request>, d: seq<Request>)
    requires Distinct(a + b + c + d)
    ensures Distinct(a) && Distinct(b) && Distinct(c)
    ensures forall r :: r in b ==> r !in a
    ensures forall r :: r in c ==> r !in a && r !in b
  {
    var all := a + b + c + d;
    assert forall i :: 0 <= i < |a| ==> all[i] == a[i];
    assert forall i :: 0 <= i < |b| ==> all[|a| + i] == b[i];
    assert forall i :: 0 <= i < |c| ==> all[|a| + |b| + i] == c[i];
  }

  lemma DistinctConcat(a: seq<Request>, b: seq<Request>)
    requires Distinct(a) && Distinct(b) && forall r :: r in b ==> r !in a
    ensures Distinct(a + b)
  {
    forall i, j | 0 <= i < j < |a + b|
      ensures (a + b)[i] != (a + b)[j]
    {
      if i < |a| <= j { assert a[i] in a && b[j - |a|] in b; }
    }
  }

  lemma TakeBufferStores(sh: Shard, closing: bool)
    requires StoredInv(sh) && PlacesInv(sh) && (sh.phase.Select? || sh.phase.Fill?)
    ensures StoredInv(TakeBuffer(sh, closing))
  {
    DistinctParts(Requests(sh.finished), InFlight(sh.phase), sh.buffer, sh.queue);
    TiersOfMembers(sh.buffer);
  }

  /** One more tier of the batch is stored. */
  lemma TierStores(sh: Shard, tier: Tier)
    requires StoredInv(sh) && PlacesInv(sh) && sh.phase.Append? && tier in sh.phase.todo
    ensures var stored := sh.stored + OfTier(sh.phase.pending, tier);
      && Distinct(stored)
      && (forall r :: r in stored ==> r in Requests(sh.finished) || r in sh.phase.pending)
      && (forall r :: r in sh.phase.pending ==>
           (r in stored <==> r.event.tier !in sh.phase.todo || r.event.tier == tier))
  {
    DistinctParts(Requests(sh.finished), InFlight(sh.phase), sh.buffer, sh.queue);
    OfTierMembers(sh.phase.pending, tier);
    OfTierDistinct(sh.phase.pending, tier);
    DistinctConcat(sh.stored, OfTier(sh.phase.pending, tier));
  }

  lemma ReplyStores(cfg: BatchConfig, st: State, step: Step)
    requires step.ReplyNext? && Enabled(cfg, st, step) && StoredInv(st.shards[step.s])
    ensures StoredInv(Apply(cfg, st, step).shards[step.s])
  {
    var sh, sh' := st.shards[step.s], Apply(cfg, st, step).shards[step.s];
    var r := sh.phase.senders[0];
    assert sh.phase.senders == [r] + sh.phase.senders[1..];
    assert Requests(sh'.finished) == Requests(sh.finished) + [r];
  }

  lemma QuietStores(cfg: BatchConfig, st: State, step: Step)
    requires OnShard(step) && Enabled(cfg, st, step) && StoredInv(st.shards[step.s])
    requires step.Send? || step.Close? || step.Recv? || step.TryRecv? || step.AppendDone? || step.ReplyDone?
      || step.FinalDone?
    ensures StoredInv(Apply(cfg, st, step).shards[step.s])
  {
  }

  lemma AppendStores(cfg: BatchConfig, st: State, step: Step)
    requires (step.AppendTier? || step.AppendFail?) && Enabled(cfg, st, step)
    requires StoredInv(st.shards[step.s]) && PlacesInv(st.shards[step.s])
    ensures StoredInv(Apply(cfg, st, step).shards[step.s])
  {
    if step.AppendTier? {
      TierStores(st.shards[step.s], step.tier);
    } else {
      FailStores(cfg, st, step);
    }
  }

  lemma FailStores(cfg: BatchConfig, st: State, step: Step)
    requires step.AppendFail? && Enabled(cfg, st, step)
    requires StoredInv(st.shards[step.s]) && PlacesInv(st.shards[step.s])
    ensures StoredInv(Apply(cfg, st, step).shards[step.s])
  {
    if step.torn.Some? { TierStores(st.shards[step.s], step.torn.value); }
  }

  lemma StoredStepOnShard(cfg: BatchConfig, st: State, step: Step)
    requires OnShard(step) && Enabled(cfg, st, step)
    requires StoredInv(st.shards[step.s]) && PlacesInv(st.shards[step.s])
    ensures StoredInv(Apply(cfg, st, step).shards[step.s])
  {
    var sh := st.shards[step.s];
    if step.AppendTier? || step.AppendFail? {
      AppendStores(cfg, st, step);
    } else if step.FillDone? || step.Tick? {
      TakeBufferStores(sh, false);
    } else if step.SeeClosed? {
      TakeBufferStores(sh, true);
    } else if step.ReplyNext? {
      ReplyStores(cfg, st, step);
    } else {
      QuietStores(cfg, st, step);
    }
  }

  ghost predicate AllStoredInv(st: State) {
    forall s :: 0 <= s < |st.shards| ==> StoredInv(st.shards[s])
  }

  lemma {:induction false} RunStoredInv(cfg: BatchConfig, states: seq<State>, steps: seq<Step>, k: nat)
    requires Run(cfg, states, steps) && k < |states|
    ensures AllStoredInv(states[k])
  {
    if k > 0 {
      var st, step := states[k - 1], steps[k - 1];
      RunStoredInv(cfg, states, steps, k - 1);
      RunInv(cfg, states, steps, k - 1);
      assert Taken(steps, k - 1);
      OtherShardsFrame(cfg, st, step);
      if OnShard(step) {
        PlacesFromInv(cfg, st, step.s);
        StoredStepOnShard(cfg, st, step);
      }
    }
  }

  // ── Every row is accounted for ───────────────────────────────────────

  /** The rows of `tier` that the shards' stored requests account for. */
  function StoredRows(shards: seq<Shard>, tier: Tier): multiset<LlmEvent> {
    if shards == [] then multiset{}
    else StoredRows(shards[..|shards| - 1], tier) + multiset(SubBatch(EventsOf(shards[|shards| - 1].stored), tier))
  }

  lemma {:induction false} StoredRowsUpdate(shards: seq<Shard>, s: nat, sh: Shard, tier: Tier, more: multiset<LlmEvent>)
    requires s < |shards|
    requires multiset(SubBatch(EventsOf(sh.stored), tier)) ==
      multiset(SubBatch(EventsOf(shards[s].stored), tier)) + more
    ensures StoredRows(shards[s := sh], tier) == StoredRows(shards, tier) + more
  {
    var n := |shards| - 1;
    if s < n {
      StoredRowsUpdate(shards[..n], s, sh, tier, more);
      assert shards[s := sh][..n] == shards[..n][s := sh];
    } else {
      assert shards[s := sh][..n] == shards[..n];
    }
  }

  lemma {:induction false} OfTierRows(reqs: seq<Request>, tier: Tier, t: Tier)
    ensures SubBatch(EventsOf(OfTier(reqs, tier)), t) == if t == tier then SubBatch(EventsOf(reqs), t) else []
  {
    if reqs != [] {
      var n := |reqs| - 1;
      OfTierRows(reqs[..n], tier, t);
      assert EventsOf(reqs) == EventsOf(reqs[..n]) + [reqs[n].event];
      SubBatchSnoc(EventsOf(reqs[..n]), reqs[n].event, t);
      if reqs[n].event.tier == tier {
        assert EventsOf(OfTier(reqs, tier)) == EventsOf(OfTier(reqs[..n], tier)) + [reqs[n].event];
        SubBatchSnoc(EventsOf(OfTier(reqs[..n], tier)), reqs[n].event, t);
      } else {
        assert OfTier(reqs, tier) == OfTier(reqs[..n], tier);
      }
    }
  }

  lemma StoredConcat(stored: seq<Request>, more: seq<Request>, t: Tier)
    ensures SubBatch(EventsOf(stored + more), t) == SubBatch(EventsOf(stored), t) + SubBatch(EventsOf(more), t)
  {
    assert EventsOf(stored + more) == EventsOf(stored) + EventsOf(more);
    SelectConcat(EventsOf(stored), EventsOf(more), (e: LlmEvent) => e.tier == t);
  }

  function RowsOf(engines: EngineMap, t: Tier): multiset<LlmEvent> {
    multiset(EngineOr(engines, t).Rows())
  }

  ghost predicate Accounted(initial: EngineMap, engines: EngineMap, shards: seq<Shard>) {
    forall t :: RowsOf(engines, t) == RowsOf(initial, t) + StoredRows(shards, t)
  }

  lemma AppendAccounted(initial: EngineMap, engines: EngineMap, shards: seq<Shard>, s: nat, sh: Shard,
                        reqs: seq<Request>, tier: Tier)
    requires Accounted(initial, engines, shards) && s < |shards| && sh.stored == shards[s].stored + OfTier(reqs, tier)
    ensures Accounted(initial, AppendTo(engines, reqs, tier), shards[s := sh])
  {
    forall t
      ensures RowsOf(AppendTo(engines, reqs, tier), t) == RowsOf(initial, t) + StoredRows(shards[s := sh], t)
    {
      AppendedRows(engines, reqs, tier, t);
      StoredMore(shards, s, sh, reqs, tier, t);
    }
  }

  lemma AppendedRows(engines: EngineMap, reqs: seq<Request>, tier: Tier, t: Tier)
    ensures RowsOf(AppendTo(engines, reqs, tier), t) ==
      RowsOf(engines, t) + multiset(SubBatch(EventsOf(OfTier(reqs, tier)), t))
  {
    OfTierRows(reqs, tier, t);
    if t == tier {
      RowsAppend(EngineOr(engines, t), SubBatch(EventsOf(reqs), t));
    }
  }

  lemma RowsAppend(engine: Engine, batch: seq<LlmEvent>)
    ensures multiset(engine.Append(batch).Rows()) == multiset(engine.Rows()) + multiset(batch)
  {
    assert engine.Append(batch).Rows() == engine.Rows() + batch;
  }

  lemma StoredMore(shards: seq<Shard>, s: nat, sh: Shard, reqs: seq<Request>, tier: Tier, t: Tier)
    requires s < |shards| && sh.stored == shards[s].stored + OfTier(reqs, tier)
    ensures StoredRows(shards[s := sh], t) ==
      StoredRows(shards, t) + multiset(SubBatch(EventsOf(OfTier(reqs, tier)), t))
  {
    StoredConcat(shards[s].stored, OfTier(reqs, tier), t);
    StoredRowsUpdate(shards, s, sh, t, multiset(SubBatch(EventsOf(OfTier(reqs, tier)), t)));
  }

  lemma {:induction false} SameStored(a: seq<Shard>, b: seq<Shard>, t: Tier)
    requires |a| == |b| && forall s :: 0 <= s < |a| ==> a[s].stored == b[s].stored
    ensures StoredRows(a, t) == StoredRows(b, t)
  {
    if a != [] { SameStored(a[..|a| - 1], b[..|b| - 1], t); }
  }

  lemma SameRowsAccounted(initial: EngineMap, engines: EngineMap, shards: seq<Shard>, engines': EngineMap,
                          shards': seq<Shard>)
    requires Accounted(initial, engines, shards) && SameRows(engines, engines')
    requires |shards| == |shards'| && forall s :: 0 <= s < |shards| ==> shards[s].stored == shards'[s].stored
    ensures Accounted(initial, engines', shards')
  {
    forall t
      ensures RowsOf(engines', t) == RowsOf(initial, t) + StoredRows(shards', t)
    {
      SameStored(shards, shards', t);
    }
  }

  lemma StoredFrame(cfg: BatchConfig, st: State, step: Step)
    requires Enabled(cfg, st, step) && !step.AppendTier? && !(step.AppendFail? && step.torn.Some?)
    ensures var st' := Apply(cfg, st, step);
      && SameRows(st.engines, st'.engines) && |st'.shards| == |st.shards|
      && forall s :: 0 <= s < |st.shards| ==> st'.shards[s].stored == st.shards[s].stored
  {
    OtherShardsFrame(cfg, st, step);
    if step.CheckpointFlush? {
      assert st.engines[step.tier].Flush().Rows() == st.engines[step.tier].Rows();
    } else if !step.AppendFail? {
      EnginesFrame(cfg, st, step);
    }
    if OnShard(step) { StoredHere(cfg, st, step); }
  }

  lemma StoredHere(cfg: BatchConfig, st: State, step: Step)
    requires OnShard(step) && Enabled(cfg, st, step) && !step.AppendTier? && !(step.AppendFail? && step.torn.Some?)
    ensures Apply(cfg, st, step).shards[step.s].stored == st.shards[step.s].stored
  {
  }

  lemma AccountedStep(cfg: BatchConfig, initial: EngineMap, st: State, step: Step, st': State)
    requires Accounted(initial, st.engines, st.shards) && Enabled(cfg, st, step) && st' == Apply(cfg, st, step)
    ensures Accounted(initial, st'.engines, st'.shards)
  {
    if step.AppendTier? {
      AppendAccounted(initial, st.engines, st.shards, step.s, st'.shards[step.s],
                      st.shards[step.s].phase.pending, step.tier);
    } else if step.AppendFail? && step.torn.Some? {
      AppendAccounted(initial, st.engines, st.shards, step.s, st'.shards[step.s],
                      st.shards[step.s].phase.pending, step.torn.value);
    } else {
      StoredFrame(cfg, st, step);
      SameRowsAccounted(initial, st.engines, st.shards, st'.engines, st'.shards);
    }
  }

  lemma {:induction false} NothingStoredYet(shards: seq<Shard>, t: Tier)
    requires forall s :: 0 <= s < |shards| ==> shards[s].stored == []
    ensures StoredRows(shards, t) == multiset{}
  {
    if shards != [] { NothingStoredYet(shards[..|shards| - 1], t); }
  }

  lemma AccountedAtStart(st: State)
    requires forall s :: 0 <= s < |st.shards| ==> st.shards[s].stored == []
    ensures Accounted(st.engines, st.engines, st.shards)
  {
    forall t
      ensures RowsOf(st.engines, t) == RowsOf(st.engines, t) + StoredRows(st.shards, t)
    {
      NothingStoredYet(st.shards, t);
    }
  }

  lemma RunStartsAccounted(cfg: BatchConfig, states: seq<State>, steps: seq<Step>)
    requires Run(cfg, states, steps)
    ensures Accounted(states[0].engines, states[0].engines, states[0].shards)
  {
    AccountedAtStart(states[0]);
  }

  lemma RunStepAccounted(cfg: BatchConfig, states: seq<State>, steps: seq<Step>, k: nat)
    requires Run(cfg, states, steps) && k < |steps|
    requires Accounted(states[0].engines, states[k].engines, states[k].shards)
    ensures Accounted(states[0].engines, states[k + 1].engines, states[k + 1].shards)
  {
    assert Taken(steps, k);
    AccountedStep(cfg, states[0].engines, states[k], steps[k], states[k + 1]);
  }

  // ── Theorems ─────────────────────────────────────────────────────────

  /** In every run each tier's rows are the initial ones and one row per stored request of that
      tier: nothing appears that was not sent. */
  lemma RowsAreAccountedFor(cfg: BatchConfig, states: seq<State>, steps: seq<Step>, k: nat)
    requires Run(cfg, states, steps) && k < |states|
    ensures Accounted(states[0].engines, states[k].engines, states[k].shards)
  {
    RunStartsAccounted(cfg, states, steps);
    for i := 0 to k
      invariant Accounted(states[0].engines, states[i].engines, states[i].shards)
    {
      RunStepAccounted(cfg, states, steps, i);
    }
  }

  /** Stored requests are accepted ones of the shard, none twice; and an acknowledged request is
      among them. So a request puts at most one row into its tier, exactly one if acknowledged. */
  lemma StoredAtMostOnce(cfg: BatchConfig, states: seq<State>, steps: seq<Step>, k: nat, s: nat)
    requires Run(cfg, states, steps) && k < |states| && s < |states[k].shards|
    ensures var sh := states[k].shards[s];
      && Distinct(sh.stored) && Distinct(sh.accepted) && (forall r :: r in sh.stored ==> r in sh.accepted)
      && forall f :: f in sh.finished && f.answer.Acked? ==> f.req in sh.stored
  {
    RunStoredInv(cfg, states, steps, k);
    RunInv(cfg, states, steps, k);
    PlacesFromInv(cfg, states[k], s);
    var sh := states[k].shards[s];
    assert StoredInv(sh) && ShardInv(cfg, sh, |states[k].checkpoints|);
  }

  // ── What an error says about its own request ─────────────────────────

  /** The request's flush is over: it is being answered or was answered. */
  predicate Settled(sh: Shard, r: Request) {
    r in Requests(sh.finished) || (sh.phase.Reply? && r in sh.phase.senders)
  }

  lemma SettledStep(cfg: BatchConfig, st: State, step: Step, s: nat, r: Request)
    requires Enabled(cfg, st, step) && s < |st.shards| && PlacesInv(st.shards[s]) && Settled(st.shards[s], r)
    ensures var st' := Apply(cfg, st, step);
      s < |st'.shards| && Settled(st'.shards[s], r) && (r in st'.shards[s].stored <==> r in st.shards[s].stored)
  {
    OtherShardsFrame(cfg, st, step);
    if OnShard(step) && step.s == s {
      SettledHere(cfg, st, step, r);
    }
  }

  lemma SettledHere(cfg: BatchConfig, st: State, step: Step, r: Request)
    requires OnShard(step) && Enabled(cfg, st, step) && PlacesInv(st.shards[step.s]) && Settled(st.shards[step.s], r)
    ensures var sh' := Apply(cfg, st, step).shards[step.s];
      Settled(sh', r) && (r in sh'.stored <==> r in st.shards[step.s].stored)
  {
    var sh := st.shards[step.s];
    if step.AppendTier? || step.AppendFail? {
      DistinctParts(Requests(sh.finished), InFlight(sh.phase), sh.buffer, sh.queue);
      OfTierMembers(sh.phase.pending, if step.AppendTier? then step.tier else step.torn.UnwrapOr(""));
    } else if step.ReplyNext? {
      var sh' := Apply(cfg, st, step).shards[step.s];
      assert sh.phase.senders == [sh.phase.senders[0]] + sh.phase.senders[1..];
      assert Requests(sh'.finished) == Requests(sh.finished) + [sh.phase.senders[0]];
      StoredHere(cfg, st, step);
    } else {
      StoredHere(cfg, st, step);
      FinishedHere(cfg, st, step);
    }
  }

  lemma {:induction false} SettledIsFinal(cfg: BatchConfig, states: seq<State>, steps: seq<Step>, i: nat, k: nat,
                                          s: nat, r: Request)
    requires Run(cfg, states, steps) && i <= k < |states| && s < |states[i].shards| && Settled(states[i].shards[s], r)
    ensures s < |states[k].shards| && Settled(states[k].shards[s], r)
    ensures r in states[k].shards[s].stored <==> r in states[i].shards[s].stored
    decreases k
  {
    if i < k {
      SettledIsFinal(cfg, states, steps, i, k - 1, s, r);
      RunInv(cfg, states, steps, k - 1);
      PlacesFromInv(cfg, states[k - 1], s);
      assert Taken(steps, k - 1);
      SettledStep(cfg, states[k - 1], steps[k - 1], s, r);
    }
  }

  /** Step `j` failed the flush that `r` of shard `s` was part of. */
  predicate FailedAt(states: seq<State>, steps: seq<Step>, j: nat, s: nat, r: Request) {
    && j < |steps| && j < |states| && steps[j].AppendFail? && steps[j].s == s
    && s < |states[j].shards| && states[j].shards[s].phase.Append? && r in states[j].shards[s].phase.pending
  }

  /** At that step the request's tier had been written, or was the one the engine tore. */
  predicate TierWasWritten(states: seq<State>, steps: seq<Step>, j: nat, s: nat, r: Request)
    requires FailedAt(states, steps, j, s, r)
  {
    r.event.tier !in states[j].shards[s].phase.todo || steps[j].torn == Some(r.event.tier)
  }

  lemma FailSettles(cfg: BatchConfig, st: State, step: Step, r: Request)
    requires Enabled(cfg, st, step) && step.AppendFail? && r in st.shards[step.s].phase.pending
    requires StoredInv(st.shards[step.s]) && PlacesInv(st.shards[step.s])
    ensures var sh, sh' := st.shards[step.s], Apply(cfg, st, step).shards[step.s];
      Settled(sh', r) && (r in sh'.stored <==> r.event.tier !in sh.phase.todo || step.torn == Some(r.event.tier))
  {
    if step.torn.Some? { TierStores(st.shards[step.s], step.torn.value); }
  }

  /** After a failed flush, in every later state, a request of the batch is stored if and only if
      its own tier was written before the failure or was the torn one. */
  lemma FailedRequestIsStoredIff(cfg: BatchConfig, states: seq<State>, steps: seq<Step>, j: nat, k: nat, s: nat,
                                 r: Request)
    requires Run(cfg, states, steps) && FailedAt(states, steps, j, s, r) && j < k < |states|
    ensures s < |states[k].shards|
    ensures r in states[k].shards[s].stored <==> TierWasWritten(states, steps, j, s, r)
  {
    RunStoredInv(cfg, states, steps, j);
    RunInv(cfg, states, steps, j);
    PlacesFromInv(cfg, states[j], s);
    assert Taken(steps, j);
    FailSettles(cfg, states[j], steps[j], r);
    SettledIsFinal(cfg, states, steps, j + 1, k, s, r);
  }

  /** Every request rejected, or about to be, comes from a failed flush. */
  ghost predicate RejectedFailed(states: seq<State>, steps: seq<Step>, k: nat, s: nat)
    requires k < |states| && s < |states[k].shards|
  {
    var sh := states[k].shards[s];
    && (sh.phase.Reply? && sh.phase.ids.None? ==> forall r :: r in sh.phase.senders ==>
         HasFailed(states, steps, k, s, r))
    && forall f :: f in sh.finished && f.answer.Rejected? ==> HasFailed(states, steps, k, s, f.req)
  }

  ghost predicate HasFailed(states: seq<State>, steps: seq<Step>, k: nat, s: nat, r: Request) {
    exists j :: 0 <= j < k && FailedAt(states, steps, j, s, r)
  }

  lemma HasFailedLater(states: seq<State>, steps: seq<Step>, k: nat, s: nat, r: Request)
    requires HasFailed(states, steps, k, s, r)
    ensures HasFailed(states, steps, k + 1, s, r)
  {
  }

  /** One step: a reply phase without ids starts at a failure or loses its first sender; a rejected
      request was that sender. */
  lemma RejectedStep(cfg: BatchConfig, st: State, step: Step, s: nat)
    requires Enabled(cfg, st, step) && s < |st.shards|
    ensures var st' := Apply(cfg, st, step); s < |st'.shards|
    ensures var sh, sh' := st.shards[s], Apply(cfg, st, step).shards[s];
      && (sh'.phase.Reply? && sh'.phase.ids.None? ==> forall r :: r in sh'.phase.senders ==>
            (step.AppendFail? && step.s == s && r in sh.phase.pending)
            || (sh.phase.Reply? && sh.phase.ids.None? && r in sh.phase.senders))
      && (forall f :: f in sh'.finished && f.answer.Rejected? ==>
            f in sh.finished || (sh.phase.Reply? && sh.phase.ids.None? && f.req in sh.phase.senders))
  {
    OtherShardsFrame(cfg, st, step);
    if OnShard(step) && step.s == s {
      if step.ReplyNext? {
        assert st.shards[s].phase.senders[0] in st.shards[s].phase.senders;
      } else {
        FinishedHere(cfg, st, step);
        ReplyBegins(cfg, st, step);
      }
    }
  }

  lemma ReplyBegins(cfg: BatchConfig, st: State, step: Step)
    requires OnShard(step) && Enabled(cfg, st, step) && !step.ReplyNext?
    ensures var sh, sh' := st.shards[step.s], Apply(cfg, st, step).shards[step.s];
      sh'.phase.Reply? && sh'.phase.ids.None? ==>
        (step.AppendFail? && sh'.phase.senders == sh.phase.pending) || sh'.phase == sh.phase
  {
  }

  lemma {:induction false} RejectionsComeFromFailures(cfg: BatchConfig, states: seq<State>, steps: seq<Step>, k: nat,
                                                      s: nat)
    requires Run(cfg, states, steps) && k < |states| && s < |states[k].shards|
    ensures RejectedFailed(states, steps, k, s)
  {
    if k > 0 {
      var st, step := states[k - 1], steps[k - 1];
      assert Taken(steps, k - 1);
      OtherShardsFrame(cfg, st, step);
      RejectionsComeFromFailures(cfg, states, steps, k - 1, s);
      RejectedStep(cfg, st, step, s);
      var sh, sh' := st.shards[s], states[k].shards[s];
      forall r | HasFailed(states, steps, k - 1, s, r)
        ensures HasFailed(states, steps, k, s, r)
      {
        HasFailedLater(states, steps, k - 1, s, r);
      }
      forall r | sh'.phase.Reply? && sh'.phase.ids.None? && r in sh'.phase.senders
        ensures HasFailed(states, steps, k, s, r)
      {
        if step.AppendFail? && step.s == s && r in sh.phase.pending {
          assert FailedAt(states, steps, k - 1, s, r);
        }
      }
    }
  }

  /** An error answer, exactly: a rejected request was in a flush that failed, and it is stored, now
      and in every later state, if and only if at that failure its own tier had been written or was
      the torn one. */
  lemma RejectedIsStoredIff(cfg: BatchConfig, states: seq<State>, steps: seq<Step>, k: nat, s: nat, i: nat)
    returns (j: nat)
    requires Run(cfg, states, steps) && k < |states| && s < |states[k].shards|
    requires i < |states[k].shards[s].finished| && states[k].shards[s].finished[i].answer.Rejected?
    ensures var r := states[k].shards[s].finished[i].req;
      && j < k && FailedAt(states, steps, j, s, r)
      && forall later :: k <= later < |states| ==>
           s < |states[later].shards| && (r in states[later].shards[s].stored <==>
             TierWasWritten(states, steps, j, s, r))
  {
    var f := states[k].shards[s].finished[i];
    RejectionsComeFromFailures(cfg, states, steps, k, s);
    assert f in states[k].shards[s].finished;
    j :| 0 <= j < k && FailedAt(states, steps, j, s, f.req);
    forall later | k <= later < |states|
      ensures s < |states[later].shards|
        && (f.req in states[later].shards[s].stored <==> TierWasWritten(states, steps, j, s, f.req))
    {
      FailedRequestIsStoredIff(cfg, states, steps, j, later, s, f.req);
    }
  }
}
