/** Archive cycles as a state machine (crates/keplor-store/src/archive.rs): upload, then a synced
    manifest, then tombstones, with a failure possible at each step and a restart between any two.
    Ingest and flushes go on meanwhile. */
module ArchiveProtocol {
  import opened Wrappers
  import opened MachineInts
  import opened Events
  import opened Engines
  import opened Manifests
  import opened Archive
  import opened Calendar

  /** The bucket prefix, and how events are grouped: by user and day. */
  datatype Config = Config(prefix: string, keyOf: LlmEvent -> Key)

  /** How far the first chunk of the list has come. */
  datatype Progress = Ready | Uploaded(id: ArchiveId) | Listed

  datatype Stage = Idle | Working(todo: seq<Chunk>, progress: Progress)

  type Objects = map<string, seq<LlmEvent>>

  /** Durable state: engines, bucket, manifest log. Lost on restart: index and stage. `issued` and
      `usedIds` are the identifiers handed out so far. */
  datatype World = World(
    engines: EngineMap, objects: Objects, log: seq<Line>, index: Manifests.Index, stage: Stage,
    issued: set<EventId>, usedIds: set<string>)

  const EMPTY_WORLD := World(map[], map[], [], map[], Idle, {}, {})

  // ── Where an event is ────────────────────────────────────────────────

  predicate Live(engines: EngineMap, e: LlmEvent) {
    e.tier in engines && e in engines[e.tier].segments && e.id !in engines[e.tier].tombstones
  }

  /** A durable manifest names an uploaded object that holds the event, and its user, day and
      time range are the event's. */
  predicate Holds(cfg: Config, objects: Objects, m: Manifest, e: LlmEvent) {
    && m.s3Key in objects && e in objects[m.s3Key]
    && KeyOf(m) == cfg.keyOf(e) && m.minTsNs <= e.tsNs <= m.maxTsNs
  }

  ghost predicate Archived(cfg: Config, objects: Objects, log: seq<Line>, e: LlmEvent) {
    exists m :: m in Recorded(log) && Holds(cfg, objects, m, e)
  }

  ghost predicate Safe(cfg: Config, w: World, e: LlmEvent) {
    Live(w.engines, e) || Archived(cfg, w.objects, w.log, e)
  }

  // ── Steps ────────────────────────────────────────────────────────────

  datatype Step =
    | Ingest(e: LlmEvent)
    | Publish(tier: Tier)
    | StartCycle(chunks: seq<Chunk>)
    | UploadOk(id: ArchiveId)
    | UploadFail(id: ArchiveId, stored: bool)
    | ManifestOk(m: Manifest)
    | ManifestFail
    | Delete(reached: set<Tier>)
    | EndCycle
    | Restart

  predicate KeyedAs(cfg: Config, c: Chunk) {
    c.events != [] && forall i :: 0 <= i < |c.events| ==> cfg.keyOf(c.events[i]) == (c.user, c.day)
  }

  predicate AllLive(engines: EngineMap, c: Chunk) {
    forall i :: 0 <= i < |c.events| ==> Live(engines, c.events[i])
  }

  predicate AllHeld(engines: EngineMap, c: Chunk) {
    forall i :: 0 <= i < |c.events| ==> Durable(engines, c.events[i])
  }

  function ObjectKey(cfg: Config, c: Chunk, id: ArchiveId): string {
    S3Key(cfg.prefix, c.user, c.day, id)
  }

  /** The manifest `archive_chunk` writes for a chunk. */
  predicate IsManifestOf(cfg: Config, m: Manifest, c: Chunk, id: ArchiveId) {
    && m.archiveId == id && m.userId == c.user && m.day == c.day && m.s3Key == ObjectKey(cfg, c, id)
    && m.eventCount == |c.events| && Covers(c.events, m.minTsNs, m.maxTsNs)
  }

  function IdsOf(c: Chunk): set<EventId> {
    set i | 0 <= i < |c.events| :: c.events[i].id
  }

  /** Tombstones in the engines a deletion reached; all of them unless it failed half-way. */
  function DeleteIn(engines: EngineMap, reached: set<Tier>, ids: set<EventId>): EngineMap {
    map t | t in engines :: if t in reached then engines[t].Delete(ids) else engines[t]
  }

  /** On to the next chunk, whatever became of this one. */
  function Skip(stage: Stage): Stage
    requires stage.Working? && stage.todo != []
  {
    Working(stage.todo[1..], Ready)
  }

  predicate AtChunk(w: World, progress: Progress) {
    w.stage.Working? && w.stage.todo != [] && w.stage.progress == progress
  }

  ghost predicate Next(cfg: Config, w: World, step: Step, w': World) {
    match step
    case Ingest(e) =>
      && e.id !in w.issued
      && w' == w.(engines := w.engines[e.tier := EngineOr(w.engines, e.tier).Append([e])], issued := w.issued + {e.id})
    case Publish(tier) =>
      && tier in w.engines
      && w' == w.(engines := w.engines[tier := w.engines[tier].Flush()])
    case StartCycle(chunks) =>
      && w.stage.Idle?
      && (forall i :: 0 <= i < |chunks| ==> KeyedAs(cfg, chunks[i]) && AllLive(w.engines, chunks[i]))
      && w' == w.(stage := Working(chunks, Ready))
    case UploadOk(id) =>
      && AtChunk(w, Ready) && id !in w.usedIds
      && w' == w.(objects := w.objects[ObjectKey(cfg, w.stage.todo[0], id) := w.stage.todo[0].events],
                  usedIds := w.usedIds + {id}, stage := w.stage.(progress := Uploaded(id)))
    case UploadFail(id, stored) =>
      && AtChunk(w, Ready) && id !in w.usedIds
      && w' == w.(objects := if stored then w.objects[ObjectKey(cfg, w.stage.todo[0], id) := w.stage.todo[0].events] else w.objects,
                  usedIds := w.usedIds + {id}, stage := Skip(w.stage))
    case ManifestOk(m) =>
      && w.stage.Working? && w.stage.todo != [] && w.stage.progress.Uploaded?
      && IsManifestOf(cfg, m, w.stage.todo[0], w.stage.progress.id)
      && w' == w.(log := w.log + [Record(m)], index := Push(w.index, m), stage := w.stage.(progress := Listed))
    case ManifestFail =>
      && w.stage.Working? && w.stage.todo != [] && w.stage.progress.Uploaded?
      && w' == w.(stage := Skip(w.stage))
    case Delete(reached) =>
      && AtChunk(w, Listed)
      && w' == w.(engines := DeleteIn(w.engines, reached, IdsOf(w.stage.todo[0])), stage := Skip(w.stage))
    case EndCycle =>
      && w.stage.Working? && w.stage.todo == []
      && w' == w.(stage := Idle)
    case Restart =>
      w' == w.(index := Replay(w.log), stage := Idle)
  }

  // ── Invariant ────────────────────────────────────────────────────────

  /** Every stored id was issued, and to one event only. */
  ghost predicate IdsInv(engines: EngineMap, issued: set<EventId>) {
    && (forall e :: Durable(engines, e) ==> e.id in issued)
    && forall e, f :: Durable(engines, e) && Durable(engines, f) && e.id == f.id ==> e == f
  }

  /** Every object's key carries an archive id handed out before. */
  ghost predicate KeysInv(cfg: Config, objects: Objects, usedIds: set<string>) {
    forall k :: k in objects ==> HasUsedId(cfg, k, usedIds)
  }

  ghost predicate HasUsedId(cfg: Config, k: string, usedIds: set<string>) {
    exists user, day, id: ArchiveId :: id in usedIds && k == S3Key(cfg.prefix, user, day, id)
  }

  ghost predicate TodoInv(cfg: Config, engines: EngineMap, todo: seq<Chunk>) {
    forall i :: 0 <= i < |todo| ==> KeyedAs(cfg, todo[i]) && AllHeld(engines, todo[i])
  }

  ghost predicate ProgressInv(cfg: Config, objects: Objects, log: seq<Line>, c: Chunk, progress: Progress) {
    match progress
    case Ready => true
    case Uploaded(id) => ObjectKey(cfg, c, id) in objects && objects[ObjectKey(cfg, c, id)] == c.events
    case Listed => forall i :: 0 <= i < |c.events| ==> Archived(cfg, objects, log, c.events[i])
  }

  ghost predicate StageInv(cfg: Config, w: World) {
    w.stage.Working? ==>
      && TodoInv(cfg, w.engines, w.stage.todo)
      && (w.stage.todo == [] ==> w.stage.progress == Ready)
      && (w.stage.todo != [] ==> ProgressInv(cfg, w.objects, w.log, w.stage.todo[0], w.stage.progress))
  }

  ghost predicate Inv(cfg: Config, w: World) {
    && w.index == Replay(w.log)
    && IdsInv(w.engines, w.issued) && KeysInv(cfg, w.objects, w.usedIds) && StageInv(cfg, w)
  }

  // ── What each step does to the engines ───────────────────────────────

  lemma IngestRows(engines: EngineMap, e: LlmEvent, x: LlmEvent)
    ensures var engines' := engines[e.tier := EngineOr(engines, e.tier).Append([e])];
      Durable(engines', x) <==> Durable(engines, x) || x == e
  {
    var before := EngineOr(engines, e.tier);
    assert before.Append([e]).Rows() == before.Rows() + [e];
  }

  lemma IngestEngines(engines: EngineMap, e: LlmEvent, issued: set<EventId>)
    requires IdsInv(engines, issued) && e.id !in issued
    ensures var engines' := engines[e.tier := EngineOr(engines, e.tier).Append([e])];
      && IdsInv(engines', issued + {e.id})
      && (forall x :: Live(engines, x) ==> Live(engines', x))
      && (forall x :: Durable(engines, x) ==> Durable(engines', x))
  {
    var engines' := engines[e.tier := EngineOr(engines, e.tier).Append([e])];
    forall x
      ensures Durable(engines', x) <==> Durable(engines, x) || x == e
    {
      IngestRows(engines, e, x);
    }
  }

  lemma PublishEngines(engines: EngineMap, tier: Tier)
    requires tier in engines
    ensures var engines' := engines[tier := engines[tier].Flush()];
      && (forall x :: Live(engines, x) ==> Live(engines', x))
      && (forall x :: Durable(engines, x) <==> Durable(engines', x))
  {
  }

  /** Tombstones keep every row, and hide only rows with those ids. */
  lemma DeleteEngines(engines: EngineMap, reached: set<Tier>, ids: set<EventId>)
    ensures var engines' := DeleteIn(engines, reached, ids);
      && (forall x :: Live(engines, x) && x.id !in ids ==> Live(engines', x))
      && (forall x :: Durable(engines, x) <==> Durable(engines', x))
  {
  }

  // ── What each step does to the archive ───────────────────────────────

  /** A fresh archive id gives a fresh object key, so an upload overwrites nothing. */
  lemma UploadIsFresh(cfg: Config, objects: Objects, usedIds: set<string>, c: Chunk, id: ArchiveId)
    requires KeysInv(cfg, objects, usedIds) && id !in usedIds
    ensures ObjectKey(cfg, c, id) !in objects
    ensures KeysInv(cfg, objects[ObjectKey(cfg, c, id) := c.events], usedIds + {id})
    ensures KeysInv(cfg, objects, usedIds + {id})
  {
    var key := ObjectKey(cfg, c, id);
    if key in objects {
      assert HasUsedId(cfg, key, usedIds);
      var user, day, earlier: ArchiveId :| earlier in usedIds && key == S3Key(cfg.prefix, user, day, earlier);
      KeyDeterminesId(cfg.prefix, c.user, c.day, id, user, day, earlier);
    }
    assert HasUsedId(cfg, key, usedIds + {id});
    forall k | k in objects
      ensures HasUsedId(cfg, k, usedIds + {id})
    {
      assert HasUsedId(cfg, k, usedIds);
    }
  }

  lemma ArchiveGrows(cfg: Config, objects: Objects, log: seq<Line>, objects': Objects, log': seq<Line>)
    requires forall k :: k in objects ==> k in objects' && objects'[k] == objects[k]
    requires forall m :: m in Recorded(log) ==> m in Recorded(log')
    ensures forall e :: Archived(cfg, objects, log, e) ==> Archived(cfg, objects', log', e)
  {
  }

  /** Once the manifest is in the log, every event of the uploaded chunk is archived. */
  lemma ManifestArchives(cfg: Config, objects: Objects, log: seq<Line>, c: Chunk, id: ArchiveId, m: Manifest)
    requires KeyedAs(cfg, c) && IsManifestOf(cfg, m, c, id)
    requires ProgressInv(cfg, objects, log, c, Uploaded(id))
    ensures ProgressInv(cfg, objects, log + [Record(m)], c, Listed)
  {
    LogSnoc(log, Record(m));
    forall i | 0 <= i < |c.events|
      ensures Archived(cfg, objects, log + [Record(m)], c.events[i])
    {
      assert Holds(cfg, objects, m, c.events[i]);
    }
  }

  // ── Every step keeps the invariant ───────────────────────────────────

  lemma TodoKept(cfg: Config, engines: EngineMap, engines': EngineMap, todo: seq<Chunk>)
    requires TodoInv(cfg, engines, todo) && forall x :: Durable(engines, x) ==> Durable(engines', x)
    ensures TodoInv(cfg, engines', todo)
  {
  }

  lemma StoreStepKeepsInv(cfg: Config, w: World, step: Step, w': World)
    requires Inv(cfg, w) && Next(cfg, w, step, w') && (step.Ingest? || step.Publish? || step.Delete?)
    ensures Inv(cfg, w')
  {
    match step {
      case Ingest(e) => IngestEngines(w.engines, e, w.issued);
      case Publish(tier) => PublishEngines(w.engines, tier);
      case Delete(reached) => DeleteEngines(w.engines, reached, IdsOf(w.stage.todo[0]));
    }
    if w.stage.Working? {
      TodoKept(cfg, w.engines, w'.engines, w.stage.todo);
    }
  }

  lemma CycleStepKeepsInv(cfg: Config, w: World, step: Step, w': World)
    requires Inv(cfg, w) && Next(cfg, w, step, w') && !(step.Ingest? || step.Publish? || step.Delete?)
    ensures Inv(cfg, w')
  {
    match step {
      case StartCycle(chunks) =>
        forall i | 0 <= i < |chunks| ensures AllHeld(w.engines, chunks[i]) { LiveIsHeld(w.engines, chunks[i]); }
      case UploadOk(id) => UploadIsFresh(cfg, w.objects, w.usedIds, w.stage.todo[0], id);
      case UploadFail(id, stored) => UploadIsFresh(cfg, w.objects, w.usedIds, w.stage.todo[0], id);
      case ManifestOk(m) =>
        LogSnoc(w.log, Record(m));
        ManifestArchives(cfg, w.objects, w.log, w.stage.todo[0], w.stage.progress.id, m);
      case ManifestFail =>
      case EndCycle =>
      case Restart =>
    }
  }

  lemma LiveIsHeld(engines: EngineMap, c: Chunk)
    requires AllLive(engines, c)
    ensures AllHeld(engines, c)
  {
  }

  lemma InvStep(cfg: Config, w: World, step: Step, w': World)
    requires Inv(cfg, w) && Next(cfg, w, step, w')
    ensures Inv(cfg, w')
  {
    if step.Ingest? || step.Publish? || step.Delete? {
      StoreStepKeepsInv(cfg, w, step, w');
    } else {
      CycleStepKeepsInv(cfg, w, step, w');
    }
  }

  // ── No step loses an event ───────────────────────────────────────────

  /** A deletion hides only events of the chunk, and those are archived by then. */
  lemma DeleteIsSafe(cfg: Config, w: World, reached: set<Tier>, w': World, e: LlmEvent)
    requires Inv(cfg, w) && Next(cfg, w, Delete(reached), w') && Safe(cfg, w, e)
    ensures Safe(cfg, w', e)
  {
  }

  lemma UploadIsSafe(cfg: Config, w: World, step: Step, w': World, e: LlmEvent)
    requires Inv(cfg, w) && Next(cfg, w, step, w') && (step.UploadOk? || step.UploadFail?) && Safe(cfg, w, e)
    ensures Safe(cfg, w', e)
  {
    UploadIsFresh(cfg, w.objects, w.usedIds, w.stage.todo[0], step.id);
    ArchiveGrows(cfg, w.objects, w.log, w'.objects, w'.log);
  }

  lemma StepIsSafe(cfg: Config, w: World, step: Step, w': World, e: LlmEvent)
    requires Inv(cfg, w) && Next(cfg, w, step, w') && Safe(cfg, w, e)
    ensures Safe(cfg, w', e)
  {
    match step {
      case Ingest(x) => IngestEngines(w.engines, x, w.issued);
      case Publish(tier) => PublishEngines(w.engines, tier);
      case UploadOk(id) => UploadIsSafe(cfg, w, step, w', e);
      case UploadFail(id, stored) => UploadIsSafe(cfg, w, step, w', e);
      case ManifestOk(m) =>
        LogSnoc(w.log, Record(m));
        ArchiveGrows(cfg, w.objects, w.log, w'.objects, w'.log);
      case Delete(reached) => DeleteIsSafe(cfg, w, reached, w', e);
      case StartCycle(_) =>
      case ManifestFail =>
      case EndCycle =>
      case Restart =>
    }
  }

  // ── Runs ─────────────────────────────────────────────────────────────

  predicate Taken(steps: seq<Step>, i: int) {
    0 <= i < |steps|
  }

  ghost predicate IsRun(cfg: Config, run: seq<World>, steps: seq<Step>) {
    && |run| == |steps| + 1 && run[0] == EMPTY_WORLD
    && forall i {:trigger Taken(steps, i)} :: Taken(steps, i) ==> Next(cfg, run[i], steps[i], run[i + 1])
  }

  lemma {:induction false} RunInv(cfg: Config, run: seq<World>, steps: seq<Step>, k: nat)
    requires IsRun(cfg, run, steps) && k < |run|
    ensures Inv(cfg, run[k])
  {
    if k > 0 {
      RunInv(cfg, run, steps, k - 1);
      assert Taken(steps, k - 1);
      InvStep(cfg, run[k - 1], steps[k - 1], run[k]);
    }
  }

  /** In every run, whatever fails and whenever the process restarts, an event that was once
      visible is from then on visible or in an uploaded object that a durable manifest names. */
  lemma {:induction false} NothingIsLost(cfg: Config, run: seq<World>, steps: seq<Step>, i: nat, j: nat, e: LlmEvent)
    requires IsRun(cfg, run, steps) && i <= j < |run| && Live(run[i].engines, e)
    ensures Safe(cfg, run[j], e)
    decreases j
  {
    if i < j {
      NothingIsLost(cfg, run, steps, i, j - 1, e);
      RunInv(cfg, run, steps, j - 1);
      assert Taken(steps, j - 1);
      StepIsSafe(cfg, run[j - 1], steps[j - 1], run[j], e);
    }
  }

  /** In every run the index is what replaying the log gives: a restart changes nothing in it. */
  lemma IndexSurvivesRestart(cfg: Config, run: seq<World>, steps: seq<Step>, k: nat)
    requires IsRun(cfg, run, steps) && k < |run|
    ensures run[k].index == Replay(run[k].log) && Partitions(run[k].index, Recorded(run[k].log))
  {
    RunInv(cfg, run, steps, k);
    ReplayPartitions(run[k].log);
  }

  /** An archived event's manifest is found by every window that contains the event, with or
      without its user. */
  lemma ArchivedIsFindable(cfg: Config, w: World, e: LlmEvent, from: i64, to: i64)
    requires Archived(cfg, w.objects, w.log, e) && from <= e.tsNs <= to
    ensures exists m ::
      m in Recorded(w.log) && Overlaps(m, None, from, to) && Overlaps(m, Some(cfg.keyOf(e).0), from, to)
                        && m.s3Key in w.objects && e in w.objects[m.s3Key]
  {
  }

  /** With the archiver's own grouping, the manifest is filed under the event's user and day. */
  lemma ArchivedUnderUserAndDay(prefix: string, w: World, e: LlmEvent)
    ensures Archived(Config(prefix, AllKeys()), w.objects, w.log, e) ==>
      exists m :: m in Recorded(w.log) && m.day == TsNsToDay(e.tsNs)
                  && m.userId == (if e.userId.Some? then e.userId.value else "_none")
                  && m.s3Key in w.objects && e in w.objects[m.s3Key]
  {
    if Archived(Config(prefix, AllKeys()), w.objects, w.log, e) {
      var m :| m in Recorded(w.log) && Holds(Config(prefix, AllKeys()), w.objects, m, e);
      assert KeyOf(m) == GroupKey(e);
    }
  }

  // ── The cycle the archiver runs is one the machine allows ────────────

  /** Chunks cut from live events may start a cycle. */
  lemma FetchedChunksStartACycle(cfg: Config, w: World, fetched: seq<LlmEvent>, chunks: seq<Chunk>)
    requires w.stage.Idle? && forall i :: 0 <= i < |fetched| ==> Live(w.engines, fetched[i])
    requires forall i :: 0 <= i < |chunks| ==> IsChunkOf(chunks[i], fetched, cfg.keyOf)
    ensures Next(cfg, w, StartCycle(chunks), w.(stage := Working(chunks, Ready)))
  {
  }
}
