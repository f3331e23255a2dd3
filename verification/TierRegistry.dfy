/** Lazy tier creation: `KdbStore::engine_for` under any interleaving of threads.

    The tier map is an immutable snapshot that is swapped whole; the slow path clones it under
    a lock. Every load, lock, open, clone and swap is a step of its own. */
module TierRegistry {
  import opened Events
  import opened Paths

  type Handle = nat
  type ThreadId = nat

  /** Where one call of `engine_for(tier)` stands. From `Recheck` to `Swapped` it holds the lock. */
  datatype Call =
    | Start(tier: Tier)
    | Waiting(tier: Tier)
    | Recheck(tier: Tier)
    | Opening(tier: Tier)
    | Opened(tier: Tier, engine: Handle)
    | Cloned(tier: Tier, engine: Handle, copy: map<Tier, Handle>)
    | Swapped(tier: Tier, engine: Handle)
    | Returned(tier: Tier, engine: Handle)
    | Failed(tier: Tier)
  {
    predicate HoldsLock() {
      Recheck? || Opening? || Opened? || Cloned? || Swapped?
    }

    predicate HasNewEngine() {
      Opened? || Cloned? || Swapped?
    }
  }

  /** `openings` records every successful `Engine::open`, in order. */
  datatype State = State(
    engines: map<Tier, Handle>, locked: bool, calls: map<ThreadId, Call>, openings: seq<(Tier, Handle)>)

  datatype Step =
    | Begin(t: ThreadId, tier: Tier)
    | FastPath(t: ThreadId)
    | Lock(t: ThreadId)
    | LockPoisoned(t: ThreadId)
    | CheckAgain(t: ThreadId)
    | OpenOk(t: ThreadId)
    | OpenErr(t: ThreadId)
    | Clone(t: ThreadId)
    | Swap(t: ThreadId)
    | Unlock(t: ThreadId)

  /** `KdbStore::open`: one engine per tier found on disk or configured, under distinct handles. */
  predicate Initial(st: State) {
    && !st.locked && st.calls == map[]
    && (forall i :: 0 <= i < |st.openings| ==>
         st.openings[i].0 in st.engines && st.engines[st.openings[i].0] == st.openings[i].1)
    && (forall i, j :: 0 <= i < j < |st.openings| ==> st.openings[i].0 != st.openings[j].0)
    && (forall tier :: tier in st.engines ==> (tier, st.engines[tier]) in st.openings)
  }

  predicate Enabled(st: State, step: Step) {
    if step.Begin? then step.t !in st.calls || st.calls[step.t].Returned? || st.calls[step.t].Failed?
    else step.t in st.calls && var c := st.calls[step.t];
      match step
      case FastPath(_) => c.Start?
      case Lock(_) => c.Waiting? && !st.locked
      case LockPoisoned(_) => c.Waiting?
      case CheckAgain(_) => c.Recheck?
      case OpenOk(_) => c.Opening?
      case OpenErr(_) => c.Opening?
      case Clone(_) => c.Opened?
      case Swap(_) => c.Cloned?
      case Unlock(_) => c.Swapped?
  }

  function Apply(st: State, step: Step): State
    requires Enabled(st, step)
  {
    if step.Begin? then st.(calls := st.calls[step.t := Start(step.tier)])
    else
      var t := step.t;
      var c := st.calls[t];
      match step
      case FastPath(_) =>
        st.(calls := st.calls[t := if c.tier in st.engines then Returned(c.tier, st.engines[c.tier]) else Waiting(c.tier)])
      case Lock(_) => st.(locked := true, calls := st.calls[t := Recheck(c.tier)])
      case LockPoisoned(_) => st.(calls := st.calls[t := Failed(c.tier)])
      case CheckAgain(_) =>
        if c.tier in st.engines then st.(locked := false, calls := st.calls[t := Returned(c.tier, st.engines[c.tier])])
        else st.(calls := st.calls[t := Opening(c.tier)])
      case OpenOk(_) =>
        st.(openings := st.openings + [(c.tier, |st.openings|)], calls := st.calls[t := Opened(c.tier, |st.openings|)])
      case OpenErr(_) => st.(locked := false, calls := st.calls[t := Failed(c.tier)])
      case Clone(_) => st.(calls := st.calls[t := Cloned(c.tier, c.engine, st.engines[c.tier := c.engine])])
      case Swap(_) => st.(engines := c.copy, calls := st.calls[t := Swapped(c.tier, c.engine)])
      case Unlock(_) => st.(locked := false, calls := st.calls[t := Returned(c.tier, c.engine)])
  }

  ghost predicate Run(states: seq<State>, steps: seq<Step>) {
    && |states| == |steps| + 1 && Initial(states[0])
    && (forall i {:trigger Taken(steps, i)} :: Taken(steps, i) ==>
          Enabled(states[i], steps[i]) && states[i + 1] == Apply(states[i], steps[i]))
  }

  predicate Taken(steps: seq<Step>, i: int) {
    0 <= i < |steps|
  }

  predicate IsHeld(st: State) {
    exists t :: t in st.calls && st.calls[t].HoldsLock()
  }

  // ── Invariant ────────────────────────────────────────────────────────

  /** At most one thread is in the critical section, and the lock is taken exactly while one is. */
  ghost predicate LockInv(st: State) {
    && (st.locked ==> IsHeld(st))
    && (forall t :: t in st.calls && st.calls[t].HoldsLock() ==> st.locked)
    && (forall t, u :: t in st.calls && u in st.calls && st.calls[t].HoldsLock() && st.calls[u].HoldsLock() ==> t == u)
  }

  /** What the lock holder may rely on: its tier is still missing until its own swap, and its
      private copy differs from the published map by exactly its new entry. */
  ghost predicate HolderInv(st: State) {
    forall t :: t in st.calls ==>
      match st.calls[t]
      case Opening(tier) => tier !in st.engines
      case Opened(tier, _) => tier !in st.engines
      case Cloned(tier, engine, copy) => tier !in st.engines && copy == st.engines[tier := engine]
      case Swapped(tier, engine) => tier in st.engines && st.engines[tier] == engine
      case Returned(tier, engine) => tier in st.engines && st.engines[tier] == engine
      case _ => true
  }

  /** Every engine ever opened is published under its tier, or is in the hands of the thread
      that is about to publish it; no tier was opened twice. */
  ghost predicate OpenedInv(st: State) {
    && (forall i, j :: 0 <= i < j < |st.openings| ==> st.openings[i].0 != st.openings[j].0)
    && (forall i :: 0 <= i < |st.openings| ==> Accounted(st, st.openings[i].0, st.openings[i].1))
    && (forall tier :: tier in st.engines ==> (tier, st.engines[tier]) in st.openings)
    && (forall t :: t in st.calls && st.calls[t].HasNewEngine() ==>
         (st.calls[t].tier, st.calls[t].engine) in st.openings)
  }

  ghost predicate Accounted(st: State, tier: Tier, engine: Handle) {
    || (tier in st.engines && st.engines[tier] == engine)
    || exists t ::
         t in st.calls && st.calls[t].HasNewEngine() && st.calls[t].tier == tier && st.calls[t].engine == engine
  }

  ghost predicate Inv(st: State) {
    LockInv(st) && HolderInv(st) && OpenedInv(st)
  }

  /** The published map only ever gains entries. */
  predicate Grows(a: State, b: State) {
    && (forall tier :: tier in a.engines ==> tier in b.engines && b.engines[tier] == a.engines[tier])
    && a.openings <= b.openings
  }

  lemma LockStep(st: State, step: Step)
    requires LockInv(st) && Enabled(st, step)
    ensures LockInv(Apply(st, step))
  {
    if Apply(st, step).locked {
      if step.Lock? {
        assert Apply(st, step).calls[step.t].HoldsLock();
      } else {
        StaysHeld(st, step);
      }
    }
  }

  lemma StaysHeld(st: State, step: Step)
    requires LockInv(st) && Enabled(st, step) && st.locked && Apply(st, step).locked
    ensures IsHeld(Apply(st, step))
  {
    var t :| t in st.calls && st.calls[t].HoldsLock();
    assert t in Apply(st, step).calls && Apply(st, step).calls[t].HoldsLock();
  }

  lemma HolderStep(st: State, step: Step)
    requires Inv(st) && Enabled(st, step)
    ensures HolderInv(Apply(st, step)) && Grows(st, Apply(st, step))
  {
  }

  lemma OpenedStep(st: State, step: Step)
    requires Inv(st) && Enabled(st, step)
    ensures OpenedInv(Apply(st, step))
  {
    OpeningsStayDistinct(st, step);
    OpeningsStayAccounted(st, step);
    PublishedStayOpened(st, step);
    HoldersStayOpened(st, step);
  }

  lemma OpeningsStayDistinct(st: State, step: Step)
    requires Inv(st) && Enabled(st, step)
    ensures var openings := Apply(st, step).openings;
      forall i, j :: 0 <= i < j < |openings| ==> openings[i].0 != openings[j].0
  {
    if step.OpenOk? {
      FreshTier(st, step.t);
    }
  }

  lemma OpeningsStayAccounted(st: State, step: Step)
    requires Inv(st) && Enabled(st, step)
    ensures var st' := Apply(st, step);
      forall i :: 0 <= i < |st'.openings| ==> Accounted(st', st'.openings[i].0, st'.openings[i].1)
  {
    var st' := Apply(st, step);
    forall i | 0 <= i < |st'.openings|
      ensures Accounted(st', st'.openings[i].0, st'.openings[i].1)
    {
      if i < |st.openings| {
        AccountedStep(st, step, st.openings[i].0, st.openings[i].1);
      } else {
        assert st'.calls[step.t].HasNewEngine();
      }
    }
  }

  lemma PublishedStayOpened(st: State, step: Step)
    requires Inv(st) && Enabled(st, step)
    ensures var st' := Apply(st, step);
      forall tier :: tier in st'.engines ==> (tier, st'.engines[tier]) in st'.openings
  {
  }

  lemma HoldersStayOpened(st: State, step: Step)
    requires Inv(st) && Enabled(st, step)
    ensures var st' := Apply(st, step);
      forall t :: t in st'.calls && st'.calls[t].HasNewEngine() ==>
        (st'.calls[t].tier, st'.calls[t].engine) in st'.openings
  {
  }

  lemma AccountedStep(st: State, step: Step, tier: Tier, engine: Handle)
    requires Inv(st) && Enabled(st, step) && Accounted(st, tier, engine)
    ensures Accounted(Apply(st, step), tier, engine)
  {
    var st' := Apply(st, step);
    if !(tier in st.engines && st.engines[tier] == engine) {
      var t :| t in st.calls && st.calls[t].HasNewEngine() && st.calls[t].tier == tier && st.calls[t].engine == engine;
      assert t in st'.calls;
    }
  }

  /** A thread about to open its tier is the first ever to open it. */
  lemma FreshTier(st: State, t: ThreadId)
    requires Inv(st) && t in st.calls && st.calls[t].Opening?
    ensures forall i :: 0 <= i < |st.openings| ==> st.openings[i].0 != st.calls[t].tier
  {
  }

  lemma InvStep(st: State, step: Step)
    requires Inv(st) && Enabled(st, step)
    ensures Inv(Apply(st, step)) && Grows(st, Apply(st, step))
  {
    LockStep(st, step);
    HolderStep(st, step);
    OpenedStep(st, step);
  }

  lemma {:induction false} RunInv(states: seq<State>, steps: seq<Step>, k: nat)
    requires Run(states, steps) && k < |states|
    ensures Inv(states[k])
  {
    if k > 0 {
      RunInv(states, steps, k - 1);
      assert Taken(steps, k - 1);
      InvStep(states[k - 1], steps[k - 1]);
    }
  }

  // ── Theorems ─────────────────────────────────────────────────────────

  /** No entry is ever replaced, and none is lost to a concurrent insert for another tier. */
  lemma {:induction false} EntriesAreKept(states: seq<State>, steps: seq<Step>, i: nat, j: nat)
    requires Run(states, steps) && i <= j < |states|
    ensures Grows(states[i], states[j])
    decreases j
  {
    if i < j {
      EntriesAreKept(states, steps, i, j - 1);
      RunInv(states, steps, j - 1);
      assert Taken(steps, j - 1);
      InvStep(states[j - 1], steps[j - 1]);
    }
  }

  /** However many threads race, each tier's engine is opened successfully at most once. */
  lemma OpenedAtMostOnce(states: seq<State>, steps: seq<Step>, k: nat, i: nat, j: nat)
    requires Run(states, steps) && k < |states| && i < |states[k].openings| && j < |states[k].openings|
    requires states[k].openings[i].0 == states[k].openings[j].0
    ensures i == j
  {
    RunInv(states, steps, k);
  }

  /** Any two calls for one tier, returning at any two moments of the run, return the engine
      that is published for that tier from then on. */
  lemma CallersAgree(states: seq<State>, steps: seq<Step>, i: nat, j: nat, t: ThreadId, u: ThreadId)
    requires Run(states, steps) && i <= j < |states|
    requires t in states[i].calls && states[i].calls[t].Returned?
    requires u in states[j].calls && states[j].calls[u].Returned?
    requires states[i].calls[t].tier == states[j].calls[u].tier
    ensures states[i].calls[t].engine == states[j].calls[u].engine
    ensures states[j].calls[u].tier in states[j].engines
    ensures states[j].engines[states[j].calls[u].tier] == states[i].calls[t].engine
  {
    RunInv(states, steps, i);
    RunInv(states, steps, j);
    EntriesAreKept(states, steps, i, j);
  }

  // ── No call is stuck ─────────────────────────────────────────────────

  ghost function Moves(): (State, Step, State) -> bool {
    (st: State, step: Step, st': State) => Enabled(st, step) && st' == Apply(st, step)
  }

  /** How far a call is from its return. */
  function Rank(c: Call): nat {
    match c
    case Start(_) => 8
    case Waiting(_) => 7
    case Recheck(_) => 6
    case Opening(_) => 5
    case Opened(_, _) => 4
    case Cloned(_, _, _) => 3
    case Swapped(_, _) => 2
    case Returned(_, _) => 0
    case Failed(_) => 0
  }

  predicate IsOpen(st: State, t: ThreadId) {
    t in st.calls && !st.calls[t].Returned? && !st.calls[t].Failed?
  }

  /** The next step of a call that goes well. */
  function NextStep(c: Call, t: ThreadId): Step
    requires !c.Returned? && !c.Failed?
  {
    match c
    case Start(_) => FastPath(t)
    case Waiting(_) => Lock(t)
    case Recheck(_) => CheckAgain(t)
    case Opening(_) => OpenOk(t)
    case Opened(_, _) => Clone(t)
    case Cloned(_, _, _) => Swap(t)
    case Swapped(_, _) => Unlock(t)
  }

  /** The other calls stand where they stood. */
  predicate OthersKept(st: State, st': State, t: ThreadId) {
    forall u :: u in st.calls && u != t ==> u in st'.calls && st'.calls[u] == st.calls[u]
  }

  predicate NoneBegins(steps: seq<Step>) {
    forall i :: 0 <= i < |steps| ==> !steps[i].Begin?
  }

  /** The steps bring the call to its return with an engine for its own tier; one that had the lock
      gives it back and leaves the other calls alone. */
  ghost predicate Completes(st: State, t: ThreadId, steps: seq<Step>, st': State) {
    && Reaches(Moves(), st, steps, st') && NoneBegins(steps) && Inv(st')
    && t in st.calls && t in st'.calls && st'.calls[t].Returned? && st'.calls[t].tier == st.calls[t].tier
    && (st.calls[t].HoldsLock() ==> !st'.locked && OthersKept(st, st', t))
    && (st.calls[t].Returned? ==> st' == st)
  }

  lemma NextStepAdvances(st: State, t: ThreadId)
    requires Inv(st) && IsOpen(st, t) && (st.calls[t].Waiting? ==> !st.locked)
    ensures var step := NextStep(st.calls[t], t);
      && Enabled(st, step) && !step.Begin?
      && var st' := Apply(st, step);
         && t in st'.calls && Rank(st'.calls[t]) < Rank(st.calls[t]) && !st'.calls[t].Failed?
         && st'.calls[t].tier == st.calls[t].tier && OthersKept(st, st', t)
         && (st.calls[t].HoldsLock() ==> st'.calls[t].HoldsLock() || (st'.calls[t].Returned? && !st'.locked))
  {
  }

  lemma CompletesByStep(st: State, t: ThreadId, after: seq<Step>, st': State)
    requires Inv(st) && IsOpen(st, t) && (st.calls[t].Waiting? ==> !st.locked)
    requires Enabled(st, NextStep(st.calls[t], t))
    requires Completes(Apply(st, NextStep(st.calls[t], t)), t, after, st')
    ensures Completes(st, t, [NextStep(st.calls[t], t)] + after, st')
  {
    var step := NextStep(st.calls[t], t);
    NextStepAdvances(st, t);
    ReachOne(Moves(), st, step, Apply(st, step));
    ReachConcat(Moves(), st, [step], Apply(st, step), after, st');
  }

  lemma CompletesAfterHolder(st: State, t: ThreadId, holder: ThreadId, before: seq<Step>, freed: State,
                             after: seq<Step>, st': State)
    requires IsOpen(st, t) && st.calls[t].Waiting? && holder in st.calls && st.calls[holder].HoldsLock()
    requires Completes(st, holder, before, freed) && Completes(freed, t, after, st')
    ensures Completes(st, t, before + after, st')
  {
    ReachConcat(Moves(), st, before, freed, after, st');
  }

  lemma {:induction false} EveryCallCanReturn(st: State, t: ThreadId) returns (steps: seq<Step>, st': State)
    requires Inv(st) && t in st.calls && !st.calls[t].Failed?
    ensures Completes(st, t, steps, st')
    decreases Rank(st.calls[t]), st.locked
  {
    if st.calls[t].Returned? {
      steps, st' := [], st;
      ReachNone<State, Step>(Moves(), st);
    } else if st.calls[t].Waiting? && st.locked {
      var holder :| holder in st.calls && st.calls[holder].HoldsLock();
      var before, freed := EveryCallCanReturn(st, holder);
      var after;
      after, st' := EveryCallCanReturn(freed, t);
      steps := before + after;
      CompletesAfterHolder(st, t, holder, before, freed, after, st');
    } else {
      var step := NextStep(st.calls[t], t);
      NextStepAdvances(st, t);
      InvStep(st, step);
      var after;
      after, st' := EveryCallCanReturn(Apply(st, step), t);
      steps := [step] + after;
      CompletesByStep(st, t, after, st');
    }
  }

  /** From every reachable state each open call can be brought to its return, with an engine for its
      own tier, by steps of the calls there are: nobody waits for a lock that is never released. */
  lemma NoCallIsStuck(states: seq<State>, steps: seq<Step>, k: nat, t: ThreadId)
    returns (more: seq<Step>, later: State)
    requires Run(states, steps) && k < |states| && IsOpen(states[k], t)
    ensures Reaches(Moves(), states[k], more, later) && NoneBegins(more)
    ensures t in later.calls && later.calls[t].Returned? && later.calls[t].tier == states[k].calls[t].tier
  {
    RunInv(states, steps, k);
    more, later := EveryCallCanReturn(states[k], t);
  }
}
