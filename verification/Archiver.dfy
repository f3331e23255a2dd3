/** A whole archive cycle (crates/keplor-store/src/archive.rs) in its own order of effects, as a
    path of the archive state machine. */
module Archiver {
  import opened Wrappers
  import opened MachineInts
  import opened Events
  import opened Engines
  import opened Enumerations
  import opened Store
  import opened Manifests
  import opened Archive
  import opened ArchiveProtocol
  import opened Paths

  ghost function NextOf(cfg: Config): (World, Step, World) -> bool {
    (w: World, step: Step, w': World) => Next(cfg, w, step, w')
  }

  // ── What becomes of one chunk, step by step ──────────────────────────

  function AfterUpload(cfg: Config, w: World, id: ArchiveId): World
    requires AtChunk(w, Ready)
  {
    w.(objects := w.objects[ObjectKey(cfg, w.stage.todo[0], id) := w.stage.todo[0].events], usedIds := w.usedIds + {id},
       stage := w.stage.(progress := Uploaded(id)))
  }

  lemma FailedUpload(cfg: Config, w: World, id: ArchiveId)
    requires AtChunk(w, Ready) && id !in w.usedIds
    ensures Reaches(NextOf(cfg), w, [UploadFail(id, false)], w.(usedIds := w.usedIds + {id}, stage := Skip(w.stage)))
  {
    ReachOne(NextOf(cfg), w, UploadFail(id, false), w.(usedIds := w.usedIds + {id}, stage := Skip(w.stage)));
  }

  lemma FailedManifest(cfg: Config, w: World, id: ArchiveId)
    requires AtChunk(w, Ready) && id !in w.usedIds
    ensures Reaches(NextOf(cfg), w, [UploadOk(id), ManifestFail], AfterUpload(cfg, w, id).(stage := Skip(w.stage)))
  {
    var w1 := AfterUpload(cfg, w, id);
    ReachOne(NextOf(cfg), w, UploadOk(id), w1);
    ReachSnoc(NextOf(cfg), w, [UploadOk(id)], w1, ManifestFail, w1.(stage := Skip(w.stage)));
    assert [UploadOk(id)] + [ManifestFail] == [UploadOk(id), ManifestFail];
  }

  /** After the upload and its manifest. */
  function AfterManifest(cfg: Config, w: World, id: ArchiveId, m: Manifest): World
    requires AtChunk(w, Ready)
  {
    AfterUpload(cfg, w, id).(
      log := w.log + [Record(m)], index := Push(w.index, m), stage := w.stage.(progress := Listed))
  }

  lemma UploadedAndRecorded(cfg: Config, w: World, id: ArchiveId, m: Manifest)
    requires AtChunk(w, Ready) && id !in w.usedIds && IsManifestOf(cfg, m, w.stage.todo[0], id)
    ensures Reaches(NextOf(cfg), w, [UploadOk(id), ManifestOk(m)], AfterManifest(cfg, w, id, m))
  {
    var w1 := AfterUpload(cfg, w, id);
    ReachOne(NextOf(cfg), w, UploadOk(id), w1);
    ReachSnoc(NextOf(cfg), w, [UploadOk(id)], w1, ManifestOk(m), AfterManifest(cfg, w, id, m));
    assert [UploadOk(id)] + [ManifestOk(m)] == [UploadOk(id), ManifestOk(m)];
  }

  lemma Tombstoned(cfg: Config, w: World, id: ArchiveId, m: Manifest, reached: set<Tier>)
    requires AtChunk(w, Ready) && id !in w.usedIds && IsManifestOf(cfg, m, w.stage.todo[0], id)
    ensures Reaches(NextOf(cfg), w, [UploadOk(id), ManifestOk(m), Delete(reached)],
      AfterManifest(cfg, w, id, m).(
        engines := DeleteIn(w.engines, reached, IdsOf(w.stage.todo[0])), stage := Skip(w.stage)))
  {
    var w2 := AfterManifest(cfg, w, id, m);
    UploadedAndRecorded(cfg, w, id, m);
    ReachSnoc(NextOf(cfg), w, [UploadOk(id), ManifestOk(m)], w2, Delete(reached),
              w2.(engines := DeleteIn(w.engines, reached, IdsOf(w.stage.todo[0])), stage := Skip(w.stage)));
    assert [UploadOk(id), ManifestOk(m)] + [Delete(reached)] == [UploadOk(id), ManifestOk(m), Delete(reached)];
  }

  /** A deletion that tombstoned some engines and left the others alone reached exactly those. */
  lemma ReachedTiers(before: EngineMap, after: EngineMap, ids: set<EventId>) returns (reached: set<Tier>)
    requires after.Keys == before.Keys
    requires forall t :: t in after ==> after[t] == before[t] || after[t] == before[t].Delete(ids)
    ensures after == DeleteIn(before, reached, ids)
  {
    reached := set t | t in before && after[t] == before[t].Delete(ids);
  }

  // ── No path loses an event ───────────────────────────────────────────

  lemma {:induction false} AlongPath(cfg: Config, states: seq<World>, steps: seq<Step>, k: nat)
    requires IsPath(NextOf(cfg), states, steps) && Inv(cfg, states[0]) && k <= |steps|
    ensures Inv(cfg, states[k])
    ensures forall e :: Safe(cfg, states[0], e) ==> Safe(cfg, states[k], e)
  {
    if k > 0 {
      AlongPath(cfg, states, steps, k - 1);
      assert At(steps, k - 1);
      InvStep(cfg, states[k - 1], steps[k - 1], states[k]);
      forall e | Safe(cfg, states[k - 1], e)
        ensures Safe(cfg, states[k], e)
      {
        StepIsSafe(cfg, states[k - 1], steps[k - 1], states[k], e);
      }
    }
  }

  /** Whatever is visible or archived before some steps of the protocol is so after them. */
  lemma PathIsSafe(cfg: Config, w: World, steps: seq<Step>, w': World)
    requires Inv(cfg, w) && Reaches(NextOf(cfg), w, steps, w')
    ensures Inv(cfg, w') && forall e :: Safe(cfg, w, e) ==> Safe(cfg, w', e)
  {
    var states :| IsPath(NextOf(cfg), states, steps) && states[0] == w && states[|steps|] == w';
    AlongPath(cfg, states, steps, |steps|);
  }

  // ── The archiver ─────────────────────────────────────────────────────

  /** What goes wrong while one chunk is archived, and the values its manifest takes from outside. */
  datatype Luck = Luck(id: ArchiveId, uploadFails: bool, insertFails: bool, broken: Tier -> bool, bytes: u64, now: i64)

  /** What becomes of the chunk: not archived if upload or manifest fail, else not deleted if an
      engine fails on the deletion, else moved. */
  function Fate(luck: Luck, order: seq<Tier>, c: Chunk): Outcome {
    if luck.uploadFails || luck.insertFails then NotArchived
    else if c.events != [] && exists t :: t in order && luck.broken(t) then NotDeleted
    else Moved(luck.bytes)
  }

  function Fates(lucks: seq<Luck>, order: seq<Tier>, chunks: seq<Chunk>): (fates: seq<Outcome>)
    requires |lucks| == |chunks|
    ensures |fates| == |chunks| && forall i :: 0 <= i < |chunks| ==> fates[i] == Fate(lucks[i], order, chunks[i])
  {
    seq(|chunks|, i requires 0 <= i < |chunks| => Fate(lucks[i], order, chunks[i]))
  }

  class Archiver {
    const prefix: string
    const manifests: ManifestStore
    var objects: Objects

    constructor (prefix: string, manifests: ManifestStore, objects: Objects)
      ensures this.prefix == prefix && this.manifests == manifests && this.objects == objects
    {
      this.prefix, this.manifests, this.objects := prefix, manifests, objects;
    }

    /** The state machine's view of archiver and store; ids handed out so far come from `w`. */
    ghost function View(w: World, store: KdbStore, stage: Stage): World
      reads this, manifests, store
    {
      World(store.engines, objects, manifests.log, manifests.entries, stage, w.issued, w.usedIds)
    }

    /** Serialise, upload, record. Nothing is recorded unless the upload was confirmed; on success
        the ids to delete are those of the chunk, in order. */
    method ArchiveChunk(c: Chunk, id: ArchiveId, uploadFails: bool, insertFails: bool, bytes: u64, now: i64)
      returns (r: Result<seq<EventId>, StoreError>, ghost manifest: Manifest)
      requires manifests.Valid()
      modifies this, manifests
      ensures manifests.Valid()
      ensures r.Ok? <==> !uploadFails && !insertFails
      ensures r.Ok? ==> |r.value| == |c.events| && forall i :: 0 <= i < |c.events| ==> r.value[i] == c.events[i].id
      ensures !uploadFails ==> forall keyOf :: IsManifestOf(Config(prefix, keyOf), manifest, c, id)
      ensures !uploadFails && c.events != [] ==>
        Occurs(c.events, manifest.minTsNs) && Occurs(c.events, manifest.maxTsNs)
      ensures !uploadFails ==> manifest.compressedBytes == bytes && manifest.createdAt == now
      ensures objects ==
        if uploadFails then old(objects) else old(objects)[S3Key(prefix, c.user, c.day, id) := c.events]
      ensures manifests.log == if r.Ok? then old(manifests.log) + [Record(manifest)] else old(manifests.log)
    {
      manifest := Manifest(id, c.user, c.day, "", 0, 0, 0, bytes, now);
      var rows, minTs, maxTs, ids := SerialiseChunk(c.events);
      var key := S3Key(prefix, c.user, c.day, id);
      if uploadFails {
        return Err(OtherError("put failed")), manifest;
      }
      objects := objects[key := rows];
      var m := Manifest(id, c.user, c.day, key, |c.events|, minTs, maxTs, bytes, now);
      manifest := m;
      var inserted := manifests.Insert(m, insertFails);
      if inserted.Err? {
        return Err(inserted.error), manifest;
      }
      return Ok(ids), manifest;
    }

    /** The loop body of `archive_old_events` for one chunk: archive it, then delete its events. Every
        outcome is a path of the protocol: a failed upload, an upload without manifest, or upload,
        manifest and a deletion that reached all engines or stopped half-way. */
    method ArchiveAndDelete(store: KdbStore, order: seq<Tier>, c: Chunk, luck: Luck, ghost cfg: Config, ghost w: World,
                            ghost todo: seq<Chunk>)
      returns (outcome: Outcome, ghost steps: seq<Step>)
      requires manifests.Valid() && Visits(order, store.engines.Keys)
      requires cfg.prefix == prefix && todo != [] && todo[0] == c && luck.id !in w.usedIds
      modifies this, manifests, store
      ensures manifests.Valid() && store.engines.Keys == old(store.engines.Keys)
      ensures outcome == Fate(luck, order, c)
      ensures Reaches(NextOf(cfg), old(View(w, store, Working(todo, Ready))), steps,
                      View(w.(usedIds := w.usedIds + {luck.id}), store, Working(todo[1..], Ready)))
    {
      ghost var before := View(w, store, Working(todo, Ready));
      var archived, m := ArchiveChunk(c, luck.id, luck.uploadFails, luck.insertFails, luck.bytes, luck.now);
      if luck.uploadFails {
        FailedUpload(cfg, before, luck.id);
        return NotArchived, [UploadFail(luck.id, false)];
      }
      if luck.insertFails {
        FailedManifest(cfg, before, luck.id);
        return NotArchived, [UploadOk(luck.id), ManifestFail];
      }
      LogSnoc(before.log, Record(m));
      assert IsManifestOf(Config(prefix, cfg.keyOf), m, c, luck.id);
      ghost var engines := store.engines;
      var deleted := store.DeleteEventsByIds(archived.value, order, luck.broken);
      ChunkIds(c, archived.value);
      ghost var reached := ReachedTiers(engines, store.engines, IdsOf(c));
      Tombstoned(cfg, before, luck.id, m, reached);
      assert archived.value == [] <==> c.events == [];
      outcome := if deleted.Ok? then Moved(luck.bytes) else NotDeleted;
      steps := [UploadOk(luck.id), ManifestOk(m), Delete(reached)];
    }

    /** Fresh ids, one per chunk. */
    ghost predicate FreshIds(lucks: seq<Luck>, usedIds: set<string>) {
      && (forall i :: 0 <= i < |lucks| ==> lucks[i].id !in usedIds)
      && forall i, j :: 0 <= i < j < |lucks| ==> lucks[i].id != lucks[j].id
    }

    /** The loop over the chunks of a cycle, whatever fails on the way, is a path of the protocol from
        the list of chunks to its end; and each count is that of the chunks with the fate it speaks of. */
    method ArchiveChunks(store: KdbStore, order: seq<Tier>, chunks: seq<Chunk>, lucks: seq<Luck>, ghost cfg: Config,
                         ghost w: World)
      returns (r: ArchiveResult, ghost deleteFailed: nat, ghost w': World, ghost steps: seq<Step>)
      requires manifests.Valid() && Visits(order, store.engines.Keys)
      requires cfg.prefix == prefix && |lucks| == |chunks| && FreshIds(lucks, w.usedIds)
      modifies this, manifests, store
      ensures manifests.Valid()
      ensures Accounts(r, deleteFailed, chunks, Fates(lucks, order, chunks))
      ensures Reaches(NextOf(cfg), old(View(w, store, Working(chunks, Ready))), steps,
                      View(w', store, Working([], Ready)))
    {
      r, deleteFailed, w', steps := ArchiveResult(0, 0, 0, 0), 0, w, [];
      ghost var start := View(w, store, Working(chunks, Ready));
      ReachNone<World, Step>(NextOf(cfg), start);
      assert chunks[0..] == chunks;
      ghost var fates := Fates(lucks, order, chunks);
      AccountsAll(r, deleteFailed, chunks, fates);
      for i := 0 to |chunks|
        invariant manifests.Valid() && Visits(order, store.engines.Keys)
        invariant forall j :: i <= j < |lucks| ==> lucks[j].id !in w'.usedIds
        invariant AccountsUpTo(r, deleteFailed, chunks, fates, i)
        invariant Reaches(NextOf(cfg), start, steps, View(w', store, Working(chunks[i..], Ready)))
      {
        ghost var mid := View(w', store, Working(chunks[i..], Ready));
        var outcome;
        ghost var more;
        outcome, more := ArchiveAndDelete(store, order, chunks[i], lucks[i], cfg, w', chunks[i..]);
        w' := w'.(usedIds := w'.usedIds + {lucks[i].id});
        assert chunks[i..][1..] == chunks[i + 1..];
        ReachConcat(NextOf(cfg), start, steps, mid, more, View(w', store, Working(chunks[i + 1..], Ready)));
        steps := steps + more;
        AccountsNext(r, deleteFailed, chunks, fates, i);
        match outcome {
          case Moved(bytes) =>
            r := ArchiveResult(r.archived + |chunks[i].events|, r.files + 1, r.bytes + bytes, r.failed);
          case NotArchived => r := r.(failed := r.failed + |chunks[i].events|);
          case NotDeleted => deleteFailed := deleteFailed + |chunks[i].events|;
        }
      }
      AccountsAll(r, deleteFailed, chunks, fates);
      assert chunks[|chunks|..] == [];
    }

    /** `archive_old_events` on chunks cut from visible events: from idle back to idle, every step one
        of the protocol's, so that no event is lost; each count is that of the chunks with the fate it
        speaks of, and together they count what was fetched. */
    method RunCycle(store: KdbStore, order: seq<Tier>, chunks: seq<Chunk>, lucks: seq<Luck>,
                    ghost fetched: seq<LlmEvent>, ghost cfg: Config, ghost w: World)
      returns (r: ArchiveResult, ghost deleteFailed: nat, ghost w': World, ghost steps: seq<Step>)
      requires manifests.Valid() && Visits(order, store.engines.Keys)
      requires cfg.prefix == prefix && |lucks| == |chunks| && FreshIds(lucks, w.usedIds)
      requires forall i :: 0 <= i < |fetched| ==> Live(store.engines, fetched[i])
      requires multiset(Rejoined(chunks)) == multiset(fetched)
      requires forall i :: 0 <= i < |chunks| ==> IsChunkOf(chunks[i], fetched, cfg.keyOf)
      modifies this, manifests, store
      ensures manifests.Valid()
      ensures Accounts(r, deleteFailed, chunks, Fates(lucks, order, chunks))
      ensures r.archived + r.failed + deleteFailed == |fetched|
      ensures Reaches(NextOf(cfg), old(View(w, store, Idle)), steps, View(w', store, Idle))
      ensures Inv(cfg, old(View(w, store, Idle))) ==>
        && Inv(cfg, View(w', store, Idle))
        && forall e :: Safe(cfg, old(View(w, store, Idle)), e) ==> Safe(cfg, View(w', store, Idle), e)
    {
      ghost var idle, started := View(w, store, Idle), View(w, store, Working(chunks, Ready));
      FetchedChunksStartACycle(cfg, idle, fetched, chunks);
      ReachOne(NextOf(cfg), idle, StartCycle(chunks), started);
      ghost var body;
      r, deleteFailed, w', body := ArchiveChunks(store, order, chunks, lucks, cfg, w);
      ghost var done := View(w', store, Working([], Ready));
      ReachConcat(NextOf(cfg), idle, [StartCycle(chunks)], started, body, done);
      ReachSnoc(NextOf(cfg), idle, [StartCycle(chunks)] + body, done, EndCycle, View(w', store, Idle));
      steps := [StartCycle(chunks)] + body + [EndCycle];
      CountedOnce(chunks, Fates(lucks, order, chunks));
      assert |multiset(Rejoined(chunks))| == |multiset(fetched)|;
      if Inv(cfg, idle) {
        PathIsSafe(cfg, idle, steps, View(w', store, Idle));
      }
    }
  }

  lemma ChunkIds(c: Chunk, ids: seq<EventId>)
    requires |ids| == |c.events| && forall i :: 0 <= i < |c.events| ==> ids[i] == c.events[i].id
    ensures (set id | id in ids) == IdsOf(c)
  {
    forall id | id in IdsOf(c)
      ensures id in ids
    {
      var i :| 0 <= i < |c.events| && c.events[i].id == id;
      assert ids[i] == id;
    }
  }
}
