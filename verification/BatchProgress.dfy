/** The batch writer never paints itself into a corner: from every reachable state an append loop
    can answer everything its shard accepted. */
module BatchProgress {
  import opened Events
  import opened Engines
  import opened BatchProtocol
  import BatchSafety
  import opened BatchRefinement
  import opened Paths

  /** Some accepted request is not answered yet. */
  predicate IsBusy(sh: Shard) {
    |sh.finished| < |sh.accepted|
  }

  /** A step the append loop of shard `s` takes by itself. */
  predicate IsOwnStep(step: Step, s: nat) {
    OnShard(step) && step.s == s && !step.Send? && !step.Close?
  }

  function PhaseRank(p: Phase): nat {
    match p
    case Append(_, _, _) => 3
    case Reply(_, _, _) => 2
    case Fill => 1
    case Select => 0
    case FinalCheckpoint(_) => 0
    case Exited(_) => 0
  }

  /** Tiers or senders a flush has before it. */
  function Rest(p: Phase): nat {
    if p.Append? then |p.todo| else if p.Reply? then |p.senders| else 0
  }

  /** Fewer requests queued, or else buffered, or else less of a flush left. */
  predicate IsCloser(after: Shard, before: Shard) {
    || |after.queue| < |before.queue|
    || (|after.queue| == |before.queue| &&
        (|| |after.buffer| < |before.buffer|
         || (|after.buffer| == |before.buffer| &&
             (|| PhaseRank(after.phase) < PhaseRank(before.phase)
              || (PhaseRank(after.phase) == PhaseRank(before.phase) && Rest(after.phase) < Rest(before.phase))))))
  }

  /** The step brings the shard closer and accepts nothing. */
  predicate Advances(cfg: BatchConfig, st: State, step: Step, s: nat) {
    && s < |st.shards| && IsOwnStep(step, s) && Enabled(cfg, st, step)
    && IsCloser(Apply(cfg, st, step).shards[s], st.shards[s])
    && Apply(cfg, st, step).shards[s].accepted == st.shards[s].accepted
  }

  lemma FillAdvances(cfg: BatchConfig, st: State, s: nat) returns (step: Step)
    requires s < |st.shards| && ShardInv(cfg, st.shards[s], |st.checkpoints|) && st.shards[s].phase.Fill?
    ensures Advances(cfg, st, step, s)
  {
    var sh := st.shards[s];
    step := if sh.queue != [] && |sh.buffer| < cfg.ShardBatchSize() then TryRecv(s) else FillDone(s);
  }

  lemma SelectAdvances(cfg: BatchConfig, st: State, s: nat) returns (step: Step)
    requires s < |st.shards| && ShardInv(cfg, st.shards[s], |st.checkpoints|)
    requires st.shards[s].phase.Select? && IsBusy(st.shards[s])
    ensures Advances(cfg, st, step, s)
  {
    step := if st.shards[s].queue != [] then Recv(s) else Tick(s);
  }

  lemma AppendAdvances(cfg: BatchConfig, st: State, s: nat) returns (step: Step)
    requires s < |st.shards| && ShardInv(cfg, st.shards[s], |st.checkpoints|) && st.shards[s].phase.Append?
    ensures Advances(cfg, st, step, s)
  {
    if st.shards[s].phase.todo == {} {
      step := AppendDone(s);
    } else {
      step := TierAdvances(cfg, st, s);
    }
  }

  lemma TierAdvances(cfg: BatchConfig, st: State, s: nat) returns (step: Step)
    requires s < |st.shards| && st.shards[s].phase.Append? && st.shards[s].phase.todo != {}
    ensures Advances(cfg, st, step, s)
  {
    var todo := st.shards[s].phase.todo;
    var tier :| tier in todo;
    step := AppendTier(s, tier);
    assert |todo - {tier}| < |todo|;
  }

  lemma ReplyAdvances(cfg: BatchConfig, st: State, s: nat) returns (step: Step)
    requires s < |st.shards| && ShardInv(cfg, st.shards[s], |st.checkpoints|) && st.shards[s].phase.Reply?
    ensures Advances(cfg, st, step, s)
  {
    step := if st.shards[s].phase.senders != [] then ReplyNext(s) else ReplyDone(s);
  }

  lemma OneStepAdvances(cfg: BatchConfig, st: State, s: nat) returns (step: Step)
    requires s < |st.shards| && ShardInv(cfg, st.shards[s], |st.checkpoints|) && IsBusy(st.shards[s])
    ensures Advances(cfg, st, step, s)
  {
    var phase := st.shards[s].phase;
    if phase.Fill? {
      step := FillAdvances(cfg, st, s);
    } else if phase.Append? {
      step := AppendAdvances(cfg, st, s);
    } else if phase.Reply? {
      step := ReplyAdvances(cfg, st, s);
    } else {
      StillSelecting(cfg, st, s);
      step := SelectAdvances(cfg, st, s);
    }
  }

  /** A loop past its last flush has answered everything. */
  lemma StillSelecting(cfg: BatchConfig, st: State, s: nat)
    requires s < |st.shards| && ShardInv(cfg, st.shards[s], |st.checkpoints|) && IsBusy(st.shards[s])
    ensures !st.shards[s].phase.FinalCheckpoint? && !st.shards[s].phase.Exited?
  {
  }

  predicate AreOwnSteps(steps: seq<Step>, s: nat) {
    forall i :: 0 <= i < |steps| ==> IsOwnStep(steps[i], s)
  }

  /** By its own steps the loop answers, in order, exactly what the shard has accepted. */
  ghost predicate Drains(cfg: BatchConfig, st: State, s: nat, steps: seq<Step>, st': State) {
    && s < |st.shards| == |st'.shards| && Reaches(Moves(cfg), st, steps, st') && AreOwnSteps(steps, s)
    && st'.shards[s].accepted == st.shards[s].accepted == Requests(st'.shards[s].finished)
    && Inv(cfg, st')
  }

  lemma DrainsByStep(cfg: BatchConfig, st: State, s: nat, step: Step, after: seq<Step>, st': State)
    requires Advances(cfg, st, step, s) && Drains(cfg, Apply(cfg, st, step), s, after, st')
    requires |Apply(cfg, st, step).shards| == |st.shards|
    ensures Drains(cfg, st, s, [step] + after, st')
  {
    ReachOne(Moves(cfg), st, step, Apply(cfg, st, step));
    ReachConcat(Moves(cfg), st, [step], Apply(cfg, st, step), after, st');
  }

  lemma NothingLeft(cfg: BatchConfig, sh: Shard, checkpoints: nat)
    requires ShardInv(cfg, sh, checkpoints) && !IsBusy(sh)
    ensures Requests(sh.finished) == sh.accepted
  {
    assert |sh.accepted| == |sh.finished| + |InFlight(sh.phase)| + |sh.buffer| + |sh.queue|;
    assert sh.accepted[..|sh.finished|] == Requests(sh.finished);
  }

  lemma {:induction false} LoopCanDrain(cfg: BatchConfig, st: State, s: nat) returns (steps: seq<Step>, st': State)
    requires Inv(cfg, st) && s < |st.shards|
    ensures Drains(cfg, st, s, steps, st')
    decreases |st.shards[s].queue|, |st.shards[s].buffer|, PhaseRank(st.shards[s].phase), Rest(st.shards[s].phase)
  {
    assert ShardInv(cfg, st.shards[s], |st.checkpoints|);
    if IsBusy(st.shards[s]) {
      var step := OneStepAdvances(cfg, st, s);
      BatchSafety.InvStep(cfg, st, step);
      BatchSafety.OtherShardsFrame(cfg, st, step);
      var after;
      after, st' := LoopCanDrain(cfg, Apply(cfg, st, step), s);
      steps := [step] + after;
      DrainsByStep(cfg, st, s, step, after, st');
    } else {
      steps, st' := [], st;
      NothingLeft(cfg, st.shards[s], |st.checkpoints|);
      ReachNone<State, Step>(Moves(cfg), st);
    }
  }

  /** From every reachable state, the append loop of a shard can by its own steps answer everything
      the shard has accepted, and each waiter then has its answer. */
  lemma NoRequestIsStuck(cfg: BatchConfig, states: seq<State>, steps: seq<Step>, k: nat, s: nat)
    returns (more: seq<Step>, later: State)
    requires Run(cfg, states, steps) && k < |states| && s < |states[k].shards|
    ensures Drains(cfg, states[k], s, more, later)
    ensures forall r :: r in states[k].shards[s].accepted && r.waits ==> r.rid in later.answers
  {
    BatchSafety.RunInv(cfg, states, steps, k);
    more, later := LoopCanDrain(cfg, states[k], s);
    forall r | r in states[k].shards[s].accepted && r.waits
      ensures r.rid in later.answers
    {
      FinishedIsAnswered(later, s, r);
    }
  }

  lemma FinishedIsAnswered(st: State, s: nat, r: Request)
    requires AnswerInv(st) && s < |st.shards| && r in Requests(st.shards[s].finished) && r.waits
    ensures r.rid in st.answers
  {
    var i :| 0 <= i < |st.shards[s].finished| && Requests(st.shards[s].finished)[i] == r;
    assert st.shards[s].finished[i].req == r;
  }
}
