/** One archive cycle (crates/keplor-store/src/archive.rs): grouping by user and day, cutting
    groups into chunks, and accounting for what became of every event. */
module Archive {
  import opened MachineInts
  import opened Events
  import opened Engines
  import opened Enumerations
  import opened Manifests
  import opened Calendar

  function UserKey(e: LlmEvent): string {
    e.userId.UnwrapOr("_none")
  }

  function GroupKey(e: LlmEvent): Key {
    (UserKey(e), TsNsToDay(e.tsNs))
  }

  function AllKeys(): LlmEvent -> Key {
    (e: LlmEvent) => GroupKey(e)
  }

  // ── Grouping ─────────────────────────────────────────────────────────

  function HasKey(keyOf: LlmEvent -> Key, key: Key): LlmEvent -> bool {
    (e: LlmEvent) => keyOf(e) == key
  }

  type Groups = map<Key, seq<LlmEvent>>

  function KeysOf(events: seq<LlmEvent>, keyOf: LlmEvent -> Key): set<Key> {
    set e | e in events :: keyOf(e)
  }

  /** Every group is exactly the events of its key, in their order, and there is one for every key that occurs. */
  ghost predicate IsGrouping(groups: Groups, events: seq<LlmEvent>, keyOf: LlmEvent -> Key) {
    && KeysOf(events, keyOf) == groups.Keys
    && forall key :: key in groups ==> groups[key] == Select(events, HasKey(keyOf, key))
  }

  lemma GroupOneMore(groups: Groups, events: seq<LlmEvent>, keyOf: LlmEvent -> Key, e: LlmEvent)
    requires IsGrouping(groups, events, keyOf)
    ensures var key := keyOf(e);
      IsGrouping(groups[key := (if key in groups then groups[key] else []) + [e]], events + [e], keyOf)
  {
    var groups' := groups[keyOf(e) := (if keyOf(e) in groups then groups[keyOf(e)] else []) + [e]];
    KeysSnoc(events, keyOf, e);
    forall key | key in groups'
      ensures groups'[key] == Select(events + [e], HasKey(keyOf, key))
    {
      GroupSnoc(events, keyOf, e, key);
      if key !in groups { SelectNone(events, HasKey(keyOf, key)); }
    }
  }

  lemma KeysSnoc(events: seq<LlmEvent>, keyOf: LlmEvent -> Key, e: LlmEvent)
    ensures KeysOf(events + [e], keyOf) == KeysOf(events, keyOf) + {keyOf(e)}
  {
  }

  lemma GroupSnoc(events: seq<LlmEvent>, keyOf: LlmEvent -> Key, e: LlmEvent, key: Key)
    ensures Select(events + [e], HasKey(keyOf, key)) ==
      Select(events, HasKey(keyOf, key)) + (if keyOf(e) == key then [e] else [])
  {
    assert (events + [e])[..|events|] == events;
  }

  /** `group_events` */
  method GroupEvents(events: seq<LlmEvent>, keyOf: LlmEvent -> Key) returns (groups: Groups)
    ensures IsGrouping(groups, events, keyOf)
  {
    groups := map[];
    for i := 0 to |events|
      invariant IsGrouping(groups, events[..i], keyOf)
    {
      var e := events[i];
      GroupOneMore(groups, events[..i], keyOf, e);
      assert events[..i + 1] == events[..i] + [e];
      var key := keyOf(e);
      groups := groups[key := (if key in groups then groups[key] else []) + [e]];
    }
    assert events[..|events|] == events;
  }

  /** The groups one after the other. */
  function Laid(groups: Groups, order: seq<Key>): seq<LlmEvent>
    requires forall key :: key in order ==> key in groups
  {
    if order == [] then [] else Laid(groups, order[..|order| - 1]) + groups[order[|order| - 1]]
  }

  lemma {:induction false} LaidCount(groups: Groups, order: seq<Key>, events: seq<LlmEvent>, keyOf: LlmEvent -> Key,
                                     v: LlmEvent)
    requires forall i :: 0 <= i < |order| ==>
      order[i] in groups && groups[order[i]] == Select(events, HasKey(keyOf, order[i]))
    requires forall i, j :: 0 <= i < j < |order| ==> order[i] != order[j]
    ensures multiset(Laid(groups, order))[v] == if keyOf(v) in order then multiset(events)[v] else 0
  {
    if order != [] {
      var n := |order| - 1;
      LaidCount(groups, order[..n], events, keyOf, v);
      SelectCount(events, HasKey(keyOf, order[n]), v);
      assert order == order[..n] + [order[n]];
    }
  }

  lemma SameCounts(a: seq<LlmEvent>, b: seq<LlmEvent>)
    requires forall v :: multiset(a)[v] == multiset(b)[v]
    ensures multiset(a) == multiset(b) && |a| == |b|
  {
    assert multiset(a) == multiset(b);
    assert |multiset(a)| == |a| && |multiset(b)| == |b|;
  }

  lemma LaidCountAll(groups: Groups, order: seq<Key>, events: seq<LlmEvent>, keyOf: LlmEvent -> Key, v: LlmEvent)
    requires IsGrouping(groups, events, keyOf) && Visits(order, groups.Keys)
    ensures multiset(Laid(groups, order))[v] == multiset(events)[v]
  {
    LaidCount(groups, order, events, keyOf, v);
    if v in events {
      assert keyOf(v) in KeysOf(events, keyOf);
    }
  }

  /** The groups partition the events, in whatever order they are visited. */
  lemma GroupsHoldEverything(groups: Groups, order: seq<Key>, events: seq<LlmEvent>, keyOf: LlmEvent -> Key)
    requires IsGrouping(groups, events, keyOf) && Visits(order, groups.Keys)
    ensures multiset(Laid(groups, order)) == multiset(events) && |Laid(groups, order)| == |events|
  {
    forall v
      ensures multiset(Laid(groups, order))[v] == multiset(events)[v]
    {
      LaidCountAll(groups, order, events, keyOf, v);
    }
    SameCounts(Laid(groups, order), events);
  }

  /** The keys in some order; the proof holds for every order. */
  method KeysInOrder(groups: Groups) returns (order: seq<Key>)
    ensures Visits(order, groups.Keys)
  {
    order := [];
    var todo := groups.Keys;
    while todo != {}
      invariant todo <= groups.Keys
      invariant forall key :: key in order <==> key in groups && key !in todo
      invariant forall i, j :: 0 <= i < j < |order| ==> order[i] != order[j]
      decreases |todo|
    {
      var key :| key in todo;
      order, todo := order + [key], todo - {key};
    }
  }

  // ── Accounting ───────────────────────────────────────────────────────

  datatype Chunk = Chunk(user: string, day: string, events: seq<LlmEvent>)

  /** What became of a chunk: uploaded, recorded and deleted; not uploaded or not recorded; or
      uploaded and recorded, but not deleted. */
  datatype Outcome = Moved(bytes: nat) | NotArchived | NotDeleted

  datatype ArchiveResult = ArchiveResult(archived: nat, files: nat, bytes: nat, failed: nat)

  /** What the chunks and their fates add up to. */
  function Tally(chunks: seq<Chunk>, fates: seq<Outcome>, weight: (Chunk, Outcome) -> nat): nat
    requires |fates| == |chunks|
  {
    if chunks == [] then 0
    else
      var n := |chunks| - 1;
      Tally(chunks[..n], fates[..n], weight) + weight(chunks[n], fates[n])
  }

  function EventsIfMoved(): (Chunk, Outcome) -> nat {
    (c: Chunk, o: Outcome) => if o.Moved? then |c.events| else 0
  }

  function OneIfMoved(): (Chunk, Outcome) -> nat {
    (c: Chunk, o: Outcome) => if o.Moved? then 1 else 0
  }

  function BytesIfMoved(): (Chunk, Outcome) -> nat {
    (c: Chunk, o: Outcome) => if o.Moved? then o.bytes else 0
  }

  function EventsIfNotArchived(): (Chunk, Outcome) -> nat {
    (c: Chunk, o: Outcome) => if o.NotArchived? then |c.events| else 0
  }

  function EventsIfNotDeleted(): (Chunk, Outcome) -> nat {
    (c: Chunk, o: Outcome) => if o.NotDeleted? then |c.events| else 0
  }

  /** Every count is that of the chunks it speaks of, read off their fates. */
  predicate Accounts(r: ArchiveResult, deleteFailed: nat, chunks: seq<Chunk>, fates: seq<Outcome>)
    requires |fates| == |chunks|
  {
    && r.archived == Tally(chunks, fates, EventsIfMoved())
    && r.files == Tally(chunks, fates, OneIfMoved())
    && r.bytes == Tally(chunks, fates, BytesIfMoved())
    && r.failed == Tally(chunks, fates, EventsIfNotArchived())
    && deleteFailed == Tally(chunks, fates, EventsIfNotDeleted())
  }

  lemma TallySnoc(chunks: seq<Chunk>, fates: seq<Outcome>, c: Chunk, o: Outcome, weight: (Chunk, Outcome) -> nat)
    requires |fates| == |chunks|
    ensures Tally(chunks + [c], fates + [o], weight) == Tally(chunks, fates, weight) + weight(c, o)
  {
    assert (chunks + [c])[..|chunks|] == chunks && (fates + [o])[..|fates|] == fates;
  }

  lemma AccountsOneMore(r: ArchiveResult, deleteFailed: nat, chunks: seq<Chunk>, fates: seq<Outcome>, c: Chunk,
                        o: Outcome)
    requires |fates| == |chunks| && Accounts(r, deleteFailed, chunks, fates)
    ensures o.Moved? ==>
      Accounts(ArchiveResult(r.archived + |c.events|, r.files + 1, r.bytes + o.bytes, r.failed), deleteFailed,
               chunks + [c], fates + [o])
    ensures o.NotArchived? ==> Accounts(r.(failed := r.failed + |c.events|), deleteFailed, chunks + [c], fates + [o])
    ensures o.NotDeleted? ==> Accounts(r, deleteFailed + |c.events|, chunks + [c], fates + [o])
  {
    TallySnoc(chunks, fates, c, o, EventsIfMoved());
    TallySnoc(chunks, fates, c, o, OneIfMoved());
    TallySnoc(chunks, fates, c, o, BytesIfMoved());
    TallySnoc(chunks, fates, c, o, EventsIfNotArchived());
    TallySnoc(chunks, fates, c, o, EventsIfNotDeleted());
  }

  /** The counts after the first `n` chunks. */
  predicate AccountsUpTo(r: ArchiveResult, deleteFailed: nat, chunks: seq<Chunk>, fates: seq<Outcome>, n: nat)
    requires |fates| == |chunks| && n <= |chunks|
  {
    Accounts(r, deleteFailed, chunks[..n], fates[..n])
  }

  lemma AccountsNext(r: ArchiveResult, deleteFailed: nat, chunks: seq<Chunk>, fates: seq<Outcome>, n: nat)
    requires |fates| == |chunks| && n < |chunks| && AccountsUpTo(r, deleteFailed, chunks, fates, n)
    ensures var c, o := chunks[n], fates[n];
      && (o.Moved? ==>
            AccountsUpTo(ArchiveResult(r.archived + |c.events|, r.files + 1, r.bytes + o.bytes, r.failed), deleteFailed,
                         chunks, fates, n + 1))
      && (o.NotArchived? ==> AccountsUpTo(r.(failed := r.failed + |c.events|), deleteFailed, chunks, fates, n + 1))
      && (o.NotDeleted? ==> AccountsUpTo(r, deleteFailed + |c.events|, chunks, fates, n + 1))
  {
    AccountsOneMore(r, deleteFailed, chunks[..n], fates[..n], chunks[n], fates[n]);
    PrefixGrows(chunks, n);
    PrefixGrows(fates, n);
  }

  lemma AccountsAll(r: ArchiveResult, deleteFailed: nat, chunks: seq<Chunk>, fates: seq<Outcome>)
    requires |fates| == |chunks|
    ensures AccountsUpTo(ArchiveResult(0, 0, 0, 0), 0, chunks, fates, 0)
    ensures AccountsUpTo(r, deleteFailed, chunks, fates, |chunks|) ==> Accounts(r, deleteFailed, chunks, fates)
  {
    WholePrefix(chunks);
    WholePrefix(fates);
  }

  /** Every event is counted once, as archived, failed, or uploaded but not deleted. */
  lemma {:induction false} CountedOnce(chunks: seq<Chunk>, fates: seq<Outcome>)
    requires |fates| == |chunks|
    ensures Tally(chunks, fates, EventsIfMoved()) + Tally(chunks, fates, EventsIfNotArchived())
            + Tally(chunks, fates, EventsIfNotDeleted()) == |Rejoined(chunks)|
  {
    if chunks != [] { CountedOnce(chunks[..|chunks| - 1], fates[..|chunks| - 1]); }
  }

  function FatesBy(outcome: Chunk -> Outcome, chunks: seq<Chunk>): (fates: seq<Outcome>)
    ensures |fates| == |chunks| && forall i :: 0 <= i < |chunks| ==> fates[i] == outcome(chunks[i])
  {
    seq(|chunks|, i requires 0 <= i < |chunks| => outcome(chunks[i]))
  }

  ghost predicate AccountsBy(outcome: Chunk -> Outcome, r: ArchiveResult, deleteFailed: nat, chunks: seq<Chunk>) {
    Accounts(r, deleteFailed, chunks, FatesBy(outcome, chunks))
  }

  lemma AccountsByOneMore(outcome: Chunk -> Outcome, r: ArchiveResult, deleteFailed: nat, done: seq<Chunk>,
                          chunks: seq<Chunk>, c: Chunk)
    requires AccountsBy(outcome, r, deleteFailed, done + chunks)
    ensures var o, all := outcome(c), done + (chunks + [c]);
      && (o.Moved? ==>
            AccountsBy(outcome, ArchiveResult(r.archived + |c.events|, r.files + 1, r.bytes + o.bytes, r.failed),
                       deleteFailed, all))
      && (o.NotArchived? ==> AccountsBy(outcome, r.(failed := r.failed + |c.events|), deleteFailed, all))
      && (o.NotDeleted? ==> AccountsBy(outcome, r, deleteFailed + |c.events|, all))
  {
    AccountsOneMore(r, deleteFailed, done + chunks, FatesBy(outcome, done + chunks), c, outcome(c));
    assert done + (chunks + [c]) == (done + chunks) + [c];
    assert FatesBy(outcome, (done + chunks) + [c]) == FatesBy(outcome, done + chunks) + [outcome(c)];
  }

  /** The loop over one group's chunks, after the chunks `done` of earlier groups. */
  method ArchiveGroup(group: seq<LlmEvent>, key: Key, batchSize: nat, outcome: Chunk -> Outcome, r0: ArchiveResult,
                      ghost deleteFailed0: nat, ghost done: seq<Chunk>)
    returns (r: ArchiveResult, chunks: seq<Chunk>, ghost deleteFailed: nat)
    requires batchSize > 0 && AccountsBy(outcome, r0, deleteFailed0, done)
    ensures AccountsBy(outcome, r, deleteFailed, done + chunks)
    ensures Rejoined(chunks) == group
    ensures AreOfKey(chunks, key, batchSize)
  {
    r, chunks, deleteFailed := r0, [], deleteFailed0;
    assert done + [] == done;
    var pos := 0;
    while pos < |group|
      invariant 0 <= pos <= |group|
      invariant AccountsBy(outcome, r, deleteFailed, done + chunks)
      invariant Rejoined(chunks) == group[..pos]
      invariant AreOfKey(chunks, key, batchSize) && (pos < |group| ==> AllFull(chunks, batchSize))
      decreases |group| - pos
    {
      var end := Min(pos + batchSize, |group|);
      var chunk := Chunk(key.0, key.1, group[pos..end]);
      AccountsByOneMore(outcome, r, deleteFailed, done, chunks, chunk);
      match outcome(chunk) {
        case Moved(bytes) => r := ArchiveResult(r.archived + |chunk.events|, r.files + 1, r.bytes + bytes, r.failed);
        case NotArchived => r := r.(failed := r.failed + |chunk.events|);
        case NotDeleted => deleteFailed := deleteFailed + |chunk.events|;
      }
      RejoinedSnoc(chunks, chunk);
      assert group[..pos] + group[pos..end] == group[..end];
      chunks := chunks + [chunk];
      pos := end;
    }
    assert group[..|group|] == group;
  }

  /** The events of the chunks, one after the other. */
  function Rejoined(chunks: seq<Chunk>): seq<LlmEvent> {
    if chunks == [] then [] else Rejoined(chunks[..|chunks| - 1]) + chunks[|chunks| - 1].events
  }

  lemma RejoinedSnoc(chunks: seq<Chunk>, c: Chunk)
    ensures Rejoined(chunks + [c]) == Rejoined(chunks) + c.events
  {
  }

  lemma {:induction false} RejoinedConcat(a: seq<Chunk>, b: seq<Chunk>)
    ensures Rejoined(a + b) == Rejoined(a) + Rejoined(b)
  {
    if b == [] {
      assert a + b == a;
    } else {
      assert (a + b)[..|a + b| - 1] == a + b[..|b| - 1];
      RejoinedConcat(a, b[..|b| - 1]);
    }
  }

  lemma {:induction false} RejoinedMembers(chunks: seq<Chunk>, i: nat)
    requires i < |chunks|
    ensures forall e :: e in chunks[i].events ==> e in Rejoined(chunks)
  {
    if i < |chunks| - 1 {
      RejoinedMembers(chunks[..|chunks| - 1], i);
    }
  }

  /** A non-empty chunk of at most a batch, all of whose events are in the group of its key. */
  predicate IsChunkIn(c: Chunk, groups: Groups, batchSize: nat) {
    && 0 < |c.events| <= batchSize && (c.user, c.day) in groups
    && forall i :: 0 <= i < |c.events| ==> c.events[i] in groups[(c.user, c.day)]
  }

  predicate AreChunksIn(chunks: seq<Chunk>, groups: Groups, batchSize: nat) {
    forall i :: 0 <= i < |chunks| ==> IsChunkIn(chunks[i], groups, batchSize)
  }

  predicate AreOfKey(chunks: seq<Chunk>, key: Key, batchSize: nat) {
    && (forall i :: 0 <= i < |chunks| ==> 0 < |chunks[i].events| <= batchSize && (chunks[i].user, chunks[i].day) == key)
    && forall i :: 0 <= i < |chunks| - 1 ==> |chunks[i].events| == batchSize
  }

  /** Only the last chunk of a user and day may be smaller than a batch. */
  predicate OnlyLastIsShort(chunks: seq<Chunk>, batchSize: nat) {
    forall i, j :: 0 <= i < j < |chunks| && (chunks[i].user, chunks[i].day) == (chunks[j].user, chunks[j].day) ==>
      |chunks[i].events| == batchSize
  }

  predicate OfKeys(chunks: seq<Chunk>, keys: seq<Key>) {
    forall i :: 0 <= i < |chunks| ==> (chunks[i].user, chunks[i].day) in keys
  }

  predicate AllFull(chunks: seq<Chunk>, batchSize: nat) {
    forall i :: 0 <= i < |chunks| ==> |chunks[i].events| == batchSize
  }

  lemma OnlyLastStaysShort(chunks: seq<Chunk>, keys: seq<Key>, more: seq<Chunk>, key: Key, batchSize: nat)
    requires OnlyLastIsShort(chunks, batchSize) && OfKeys(chunks, keys) && key !in keys
    requires AreOfKey(more, key, batchSize)
    ensures OnlyLastIsShort(chunks + more, batchSize) && OfKeys(chunks + more, keys + [key])
  {
  }

  lemma GroupChunks(chunks: seq<Chunk>, groups: Groups, key: Key, batchSize: nat)
    requires key in groups && Rejoined(chunks) == groups[key] && AreOfKey(chunks, key, batchSize)
    ensures AreChunksIn(chunks, groups, batchSize)
  {
    forall i | 0 <= i < |chunks|
      ensures IsChunkIn(chunks[i], groups, batchSize)
    {
      RejoinedMembers(chunks, i);
    }
  }

  /** The loop over the groups, in the order the map yields them. */
  method ArchiveGroups(groups: Groups, order: seq<Key>, batchSize: nat, outcome: Chunk -> Outcome)
    returns (r: ArchiveResult, chunks: seq<Chunk>, ghost deleteFailed: nat)
    requires batchSize > 0 && Visits(order, groups.Keys)
    ensures AccountsBy(outcome, r, deleteFailed, chunks) && Rejoined(chunks) == Laid(groups, order)
    ensures AreChunksIn(chunks, groups, batchSize) && OnlyLastIsShort(chunks, batchSize)
  {
    r, chunks, deleteFailed := ArchiveResult(0, 0, 0, 0), [], 0;
    for i := 0 to |order|
      invariant AccountsBy(outcome, r, deleteFailed, chunks) && Rejoined(chunks) == Laid(groups, order[..i])
      invariant AreChunksIn(chunks, groups, batchSize)
      invariant OnlyLastIsShort(chunks, batchSize) && OfKeys(chunks, order[..i])
    {
      var more;
      r, more, deleteFailed := ArchiveGroup(groups[order[i]], order[i], batchSize, outcome, r, deleteFailed, chunks);
      GroupChunks(more, groups, order[i], batchSize);
      OnlyLastStaysShort(chunks, order[..i], more, order[i], batchSize);
      RejoinedConcat(chunks, more);
      PrefixGrows(order, i);
      assert order[..i + 1][..i] == order[..i];
      chunks := chunks + more;
    }
    assert order[..|order|] == order;
  }

  /** A chunk of fetched events that share its user and day. */
  ghost predicate IsChunkOf(c: Chunk, events: seq<LlmEvent>, keyOf: LlmEvent -> Key) {
    c.events != [] && forall i :: 0 <= i < |c.events| ==> c.events[i] in events && keyOf(c.events[i]) == (c.user, c.day)
  }

  lemma ChunkOfEvents(c: Chunk, groups: Groups, batchSize: nat, events: seq<LlmEvent>, keyOf: LlmEvent -> Key)
    requires IsChunkIn(c, groups, batchSize)
    requires groups[(c.user, c.day)] == Select(events, HasKey(keyOf, (c.user, c.day)))
    ensures IsChunkOf(c, events, keyOf)
  {
    SelectMembers(events, HasKey(keyOf, (c.user, c.day)));
  }

  /** `archive_old_events` on what was fetched: the chunks hold exactly those events, each in a chunk
      of its own user and day, of which only the last may be short of a batch; each count is that of
      the chunks with the fate it speaks of, and together they count what was fetched. */
  method ArchiveOldEvents(events: seq<LlmEvent>, keyOf: LlmEvent -> Key, batchSize: nat, outcome: Chunk -> Outcome)
    returns (r: ArchiveResult, chunks: seq<Chunk>, ghost deleteFailed: nat)
    requires batchSize > 0
    ensures Accounts(r, deleteFailed, chunks, FatesBy(outcome, chunks))
    ensures r.archived + r.failed + deleteFailed == |events|
    ensures multiset(Rejoined(chunks)) == multiset(events)
    ensures forall i :: 0 <= i < |chunks| ==> |chunks[i].events| <= batchSize && IsChunkOf(chunks[i], events, keyOf)
    ensures OnlyLastIsShort(chunks, batchSize)
  {
    var groups := GroupEvents(events, keyOf);
    var order := KeysInOrder(groups);
    r, chunks, deleteFailed := ArchiveGroups(groups, order, batchSize, outcome);
    GroupsHoldEverything(groups, order, events, keyOf);
    CountedOnce(chunks, FatesBy(outcome, chunks));
    forall i | 0 <= i < |chunks|
      ensures IsChunkOf(chunks[i], events, keyOf)
    {
      assert IsChunkIn(chunks[i], groups, batchSize);
      ChunkOfEvents(chunks[i], groups, batchSize, events, keyOf);
    }
  }

  // ── One chunk ────────────────────────────────────────────────────────

  const ARCHIVE_ID_LENGTH := 26

  /** The textual form of a ULID. */
  type ArchiveId = s: string | |s| == ARCHIVE_ID_LENGTH witness seq(ARCHIVE_ID_LENGTH, i => '0')

  function S3Key(prefix: string, user: string, day: string, id: ArchiveId): string {
    prefix + "/user_id=" + user + "/day=" + day + "/" + (id + ".jsonl.zstd")
  }

  /** Whatever the user and day contain, two objects share a key only if they share an id. */
  lemma KeyDeterminesId(prefix: string, user: string, day: string, id: ArchiveId, user': string, day': string,
                        id': ArchiveId)
    requires S3Key(prefix, user, day, id) == S3Key(prefix, user', day', id')
    ensures id == id'
  {
    var front := prefix + "/user_id=" + user + "/day=" + day + "/";
    var front' := prefix + "/user_id=" + user' + "/day=" + day' + "/";
    var key := S3Key(prefix, user, day, id);
    assert key == front + (id + ".jsonl.zstd") && key == front' + (id' + ".jsonl.zstd");
    assert key[|key| - 37..|key| - 11] == id;
    assert key[|key| - 37..|key| - 11] == id';
  }

  predicate HasSlash(s: string) {
    '/' in s
  }

  lemma FirstSlash(a: string, b: string, s: string, t: string)
    requires a + "/" + s == b + "/" + t && !HasSlash(a) && !HasSlash(b)
    ensures a == b && s == t
  {
    if |a| < |b| {
      SlashInside(a, b, s, t);
    } else if |b| < |a| {
      SlashInside(b, a, t, s);
    } else {
      assert (a + "/" + s)[..|a|] == a && (b + "/" + t)[..|a|] == b;
      assert (a + "/" + s)[|a| + 1..] == s && (b + "/" + t)[|a| + 1..] == t;
    }
  }

  lemma SlashInside(a: string, b: string, s: string, t: string)
    requires a + "/" + s == b + "/" + t && |a| < |b|
    ensures HasSlash(b)
  {
    assert (a + "/" + s)[|a|] == '/' && (b + "/" + t)[|a|] == b[|a|];
  }

  /** Listing the objects below `{prefix}/user_id={user}/day={day}/` finds exactly the partition's,
      for users and days without a slash. */
  lemma ListingFindsPartition(prefix: string, user: string, day: string, user': string, day': string, id: ArchiveId)
    requires !HasSlash(user) && !HasSlash(user') && !HasSlash(day) && !HasSlash(day')
    ensures prefix + "/user_id=" + user + "/day=" + day + "/" <= S3Key(prefix, user', day', id)
            <==> user == user' && day == day'
  {
    if prefix + "/user_id=" + user + "/day=" + day + "/" <= S3Key(prefix, user', day', id) {
      FolderOfKey(prefix, user, day, user', day', id);
    }
  }

  lemma FolderOfKey(prefix: string, user: string, day: string, user': string, day': string, id: ArchiveId)
    requires !HasSlash(user) && !HasSlash(user') && !HasSlash(day) && !HasSlash(day')
    requires prefix + "/user_id=" + user + "/day=" + day + "/" <= S3Key(prefix, user', day', id)
    ensures user == user' && day == day'
  {
    var folder, key := prefix + "/user_id=" + user + "/day=" + day + "/", S3Key(prefix, user', day', id);
    var rest := key[|folder|..];
    assert key == folder + rest;
    KeyParts(prefix, user, day, rest);
    KeyParts(prefix, user', day', id + ".jsonl.zstd");
    SameRest(prefix + "/user_id=", user + "/" + ("day=" + (day + "/" + rest)),
             user' + "/" + ("day=" + (day' + "/" + (id + ".jsonl.zstd"))));
    FirstSlash(user, user', "day=" + (day + "/" + rest), "day=" + (day' + "/" + (id + ".jsonl.zstd")));
    SameRest("day=", day + "/" + rest, day' + "/" + (id + ".jsonl.zstd"));
    FirstSlash(day, day', rest, id + ".jsonl.zstd");
  }

  lemma KeyParts(prefix: string, user: string, day: string, rest: string)
    ensures prefix + "/user_id=" + user + "/day=" + day + "/" + rest ==
      (prefix + "/user_id=") + (user + "/" + ("day=" + (day + "/" + rest)))
  {
  }

  lemma SameRest(front: string, s: string, t: string)
    requires front + s == front + t
    ensures s == t
  {
    assert (front + s)[|front|..] == s && (front + t)[|front|..] == t;
  }

  predicate Covers(events: seq<LlmEvent>, minTs: i64, maxTs: i64) {
    forall i :: 0 <= i < |events| ==> minTs <= events[i].tsNs <= maxTs
  }

  /** The serialising loop of `archive_chunk`: the object's rows, the ids to delete, and the
      tightest range that covers the chunk. */
  method SerialiseChunk(chunk: seq<LlmEvent>) returns (rows: seq<LlmEvent>, minTs: i64, maxTs: i64, ids: seq<EventId>)
    ensures rows == chunk
    ensures |ids| == |chunk| && forall i :: 0 <= i < |chunk| ==> ids[i] == chunk[i].id
    ensures Covers(chunk, minTs, maxTs)
    ensures chunk != [] ==> Occurs(chunk, minTs) && Occurs(chunk, maxTs)
  {
    rows, ids, minTs, maxTs := [], [], I64_MAX, I64_MIN;
    for i := 0 to |chunk|
      invariant rows == chunk[..i]
      invariant |ids| == i && forall j :: 0 <= j < i ==> ids[j] == chunk[j].id
      invariant IsRange(chunk, i, minTs, maxTs)
    {
      var event := chunk[i];
      RangeGrows(chunk, i, minTs, maxTs);
      PrefixGrows(chunk, i);
      rows := rows + [event];
      minTs := Min(minTs, event.tsNs);
      maxTs := Max(maxTs, event.tsNs);
      ids := ids + [event.id];
    }
    WholePrefix(chunk);
  }

  /** The tightest range of the first `n` timestamps. */
  predicate IsRange(chunk: seq<LlmEvent>, n: nat, minTs: i64, maxTs: i64)
    requires n <= |chunk|
  {
    && (forall j :: 0 <= j < n ==> minTs <= chunk[j].tsNs <= maxTs)
    && if n == 0 then minTs == I64_MAX && maxTs == I64_MIN else Occurs(chunk, minTs) && Occurs(chunk, maxTs)
  }

  lemma RangeGrows(chunk: seq<LlmEvent>, n: nat, minTs: i64, maxTs: i64)
    requires n < |chunk| && IsRange(chunk, n, minTs, maxTs)
    ensures IsRange(chunk, n + 1, Min(minTs, chunk[n].tsNs), Max(maxTs, chunk[n].tsNs))
  {
    assert Occurs(chunk, chunk[n].tsNs);
  }

  predicate Occurs(events: seq<LlmEvent>, ts: int) {
    exists i :: 0 <= i < |events| && events[i].tsNs == ts
  }
}
