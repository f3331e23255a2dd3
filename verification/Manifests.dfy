/** The append-only manifest log and its index
    (crates/keplor-store/src/kdb_store/manifests.rs). */
module Manifests {
  import opened Wrappers
  import opened MachineInts
  import opened Store

  datatype Manifest = Manifest(
    archiveId: string, userId: string, day: string, s3Key: string, eventCount: nat,
    minTsNs: i64, maxTsNs: i64, compressedBytes: u64, createdAt: i64)

  /** A line of the log as `open` reads it back. */
  datatype Line = Blank | Garbage | Record(manifest: Manifest)

  type Key = (string, string)
  type Index = map<Key, seq<Manifest>>

  function KeyOf(m: Manifest): Key {
    (m.userId, m.day)
  }

  /** `entries.entry(key).or_default().push(m)` */
  function Push(index: Index, m: Manifest): Index {
    index[KeyOf(m) := (if KeyOf(m) in index then index[KeyOf(m)] else []) + [m]]
  }

  function Replay(log: seq<Line>): Index {
    if log == [] then map[]
    else
      var front, last := Replay(log[..|log| - 1]), log[|log| - 1];
      if last.Record? then Push(front, last.manifest) else front
  }

  // ── What the log says, without the index ─────────────────────────────

  function Recorded(log: seq<Line>): seq<Manifest> {
    if log == [] then []
    else Recorded(log[..|log| - 1]) + (if log[|log| - 1].Record? then [log[|log| - 1].manifest] else [])
  }

  function Within(ms: seq<Manifest>, key: Key): seq<Manifest> {
    if ms == [] then []
    else Within(ms[..|ms| - 1], key) + (if KeyOf(ms[|ms| - 1]) == key then [ms[|ms| - 1]] else [])
  }

  lemma LogSnoc(log: seq<Line>, line: Line)
    ensures Replay(log + [line]) == if line.Record? then Push(Replay(log), line.manifest) else Replay(log)
    ensures Recorded(log + [line]) == Recorded(log) + (if line.Record? then [line.manifest] else [])
  {
  }

  /** The index holds, per partition, the recorded manifests of that partition in log order. */
  ghost predicate Partitions(index: Index, ms: seq<Manifest>) {
    forall key :: (key in index <==> Within(ms, key) != []) && (key in index ==> index[key] == Within(ms, key))
  }

  lemma {:induction false} ReplayPartitions(log: seq<Line>)
    ensures Partitions(Replay(log), Recorded(log))
  {
    if log != [] {
      var n := |log| - 1;
      ReplayPartitions(log[..n]);
      if log[n].Record? {
        PushPartitions(Replay(log[..n]), Recorded(log[..n]), log[n].manifest);
      } else {
        assert Recorded(log) == Recorded(log[..n]);
      }
    }
  }

  lemma PushPartitions(index: Index, ms: seq<Manifest>, m: Manifest)
    requires Partitions(index, ms)
    ensures Partitions(Push(index, m), ms + [m])
  {
  }

  lemma {:induction false} WithinMembers(ms: seq<Manifest>, key: Key, m: Manifest)
    ensures m in Within(ms, key) <==> m in ms && KeyOf(m) == key
  {
    if ms != [] {
      WithinMembers(ms[..|ms| - 1], key, m);
      assert ms == ms[..|ms| - 1] + [ms[|ms| - 1]];
    }
  }

  lemma IndexMembers(index: Index, ms: seq<Manifest>, m: Manifest)
    requires Partitions(index, ms)
    ensures m in ms <==> KeyOf(m) in index && m in index[KeyOf(m)]
    ensures forall key :: key in index && m in index[key] ==> key == KeyOf(m) && m in ms
  {
    WithinMembers(ms, KeyOf(m), m);
    forall key | key in index && m in index[key]
      ensures key == KeyOf(m) && m in ms
    {
      WithinMembers(ms, key, m);
    }
  }

  /** Lines that are not records, such as a torn last line, do not disturb the index. */
  lemma {:induction false} TornLinesAreSkipped(log: seq<Line>, torn: seq<Line>)
    requires forall i :: 0 <= i < |torn| ==> !torn[i].Record?
    ensures Replay(log + torn) == Replay(log)
  {
    if torn == [] {
      assert log + torn == log;
    } else {
      var n := |torn| - 1;
      TornLinesAreSkipped(log, torn[..n]);
      LogSnoc(log + torn[..n], torn[n]);
      assert log + torn == log + torn[..n] + [torn[n]];
    }
  }

  predicate Overlaps(m: Manifest, user: Option<string>, from: i64, to: i64) {
    (user.None? || m.userId == user.value) && m.maxTsNs >= from && m.minTsNs <= to
  }

  predicate Inside(t: i64, first: i64, last: i64) {
    first <= t <= last
  }

  /** Some instant lies both in the manifest's range and in the window. */
  ghost predicate Meets(m: Manifest, from: i64, to: i64) {
    exists t: i64 :: Inside(t, m.minTsNs, m.maxTsNs) && Inside(t, from, to)
  }

  predicate IsOfUser(m: Manifest, user: Option<string>) {
    user == None || user == Some(m.userId)
  }

  /** A manifest overlaps a window that is not inverted exactly when it is of the user asked for and
      some instant lies in both. */
  lemma OverlapsIffMeets(m: Manifest, user: Option<string>, from: i64, to: i64)
    requires m.minTsNs <= m.maxTsNs && from <= to
    ensures Overlaps(m, user, from, to) <==> IsOfUser(m, user) && Meets(m, from, to)
  {
    if Overlaps(m, user, from, to) {
      var t: i64 := if m.minTsNs >= from then m.minTsNs else from;
      assert Inside(t, m.minTsNs, m.maxTsNs) && Inside(t, from, to);
    }
  }

  /** For an inverted window the scan can answer yes although no instant lies in it; a caller gets
      the answer in terms of instants for every manifest if and only if its window is not inverted. */
  lemma OverlapMeansMeetingIff(from: i64, to: i64)
    ensures (forall m: Manifest :: m.minTsNs <= m.maxTsNs ==> (Overlaps(m, None, from, to) <==> Meets(m, from, to)))
            <==> from <= to
  {
    if from <= to {
      forall m: Manifest | m.minTsNs <= m.maxTsNs
        ensures Overlaps(m, None, from, to) <==> Meets(m, from, to)
      {
        OverlapsIffMeets(m, None, from, to);
      }
    } else {
      var m := Manifest("", "", "", "", 1, to, from, 0, 0);
      assert Overlaps(m, None, from, to) && !Meets(m, from, to);
    }
  }

  // ── The store ────────────────────────────────────────────────────────

  class ManifestStore {
    /** The file, line by line. */
    var log: seq<Line>
    var entries: Index

    /** Whatever happens to this process, opening the log again gives the same index. */
    ghost predicate Valid()
      reads this
    {
      entries == Replay(log)
    }

    /** `open`: read the lines there are, skipping those that do not parse. */
    constructor (log: seq<Line>)
      ensures Valid() && this.log == log
    {
      this.log := log;
      var index: Index := map[];
      for i := 0 to |log|
        invariant index == Replay(log[..i])
      {
        assert log[..i + 1] == log[..i] + [log[i]];
        LogSnoc(log[..i], log[i]);
        match log[i]
        case Blank =>
        case Garbage =>
        case Record(m) => index := Push(index, m);
      }
      assert log[..|log|] == log;
      entries := index;
    }

    /** `insert`: append one record and sync, then index it; an I/O error changes nothing. */
    method Insert(m: Manifest, broken: bool) returns (r: Result<(), StoreError>)
      requires Valid()
      modifies this
      ensures Valid() && (r.Ok? <==> !broken)
      ensures log == if broken then old(log) else old(log) + [Record(m)]
    {
      if broken {
        return Err(OtherError("manifest append failed"));
      }
      LogSnoc(log, Record(m));
      log := log + [Record(m)];
      entries := Push(entries, m);
      return Ok(());
    }

    /** A scan of the index finds an overlap exactly when some recorded manifest overlaps. */
    method AnyOverlapping(user: Option<string>, from: i64, to: i64) returns (found: bool)
      requires Valid()
      ensures found <==> exists m :: m in Recorded(log) && Overlaps(m, user, from, to)
    {
      ReplayPartitions(log);
      var todo := entries.Keys;
      while todo != {}
        invariant todo <= entries.Keys
        invariant forall key, m :: key in entries.Keys - todo && m in entries[key] ==> !Overlaps(m, user, from, to)
        decreases |todo|
      {
        var key :| key in todo;
        todo := todo - {key};
        var ms := entries[key];
        if user.None? || key.0 == user.value {
          for i := 0 to |ms|
            invariant forall j :: 0 <= j < i ==> !Overlaps(ms[j], user, from, to)
          {
            IndexMembers(entries, Recorded(log), ms[i]);
            if ms[i].maxTsNs >= from && ms[i].minTsNs <= to {
              assert Overlaps(ms[i], user, from, to);
              return true;
            }
          }
        } else {
          forall m | m in ms ensures !Overlaps(m, user, from, to) { IndexMembers(entries, Recorded(log), m); }
        }
      }
      forall m | m in Recorded(log) ensures !Overlaps(m, user, from, to) { IndexMembers(entries, Recorded(log), m); }
      return false;
    }
  }
}
