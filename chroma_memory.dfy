/** The vector-backed memory store. The collection is modelled as the
    sequence of its records in storage order; embedding the query and the
    nearest-neighbour lookup are an abstract `Ranker`. Every request to the
    vector-store server or to the embedding service may go unanswered and
    raise: the manager's `reachable` oracle says which of its requests, by
    their running number, are answered. */
module ChromaMemory {
  import opened Wrappers
  import opened MemoryTypes

  /** One document of the collection: its id, its text and its metadata. */
  datatype Record = Record(id: string, document: string, metadata: Metadata)

  /** One nearest-neighbour answer: a stored record and its distance to the query. */
  datatype Hit = Hit(record: Record, distance: real)

  /** Why a call raised. */
  datatype Failure =
    | BackendUnavailable        // a request to the server or the embedding service went unanswered
    | InvalidMetadata           // the store refused a metadata value
    | MalformedRecord(id: string) // a stored record cannot be read back as an entry
    | CompletionFailed          // the language-model call raised

  /** The embedding-and-query backend: from the query text, the kind filter,
      `n_results` and the collection, the hits in the backend's order. */
  type Ranker = (string, Option<MemoryType>, nat, seq<Record>) -> seq<Hit>

  /** What the store's writes change: its records, its id draws and its
      request count. */
  datatype Memory = Memory(records: seq<Record>, draws: nat, calls: nat)

  /** What an operation returns, and the store's state after it. */
  datatype Effect<T> = Effect(value: T, memory: Memory)

  const TypeKey: string := "memory_type"
  const TimestampKey: string := "timestamp"
  const ImportanceKey: string := "importance_score"
  const ReservedKeys: set<string> := {TypeKey, TimestampKey, ImportanceKey}

  const DefaultImportance: real := 0.5
  /** The page size of the bulk reads in stats and clear. */
  const MaxFetch: nat := 10000

  function Min(a: nat, b: nat): nat {
    if a <= b then a else b
  }

  // ---------------------------------------------------------------------
  // Writing: metadata assembly in add_memory

  /** `importance_score or 0.5`: both None and 0.0 are falsy. */
  function StoredImportance(score: Option<real>): (r: real)
    ensures score == None || score == Some(0.0) ==> r == 0.5
    ensures score != None && score != Some(0.0) ==> r == score.value
  {
    if score.None? || score.value == 0.0 then DefaultImportance else score.value
  }

  /** The value add_memory writes under a reserved key. */
  function ReservedValue(t: MemoryType, timestamp: string, score: Option<real>, key: string): MetaValue {
    if key == TypeKey then Str(Value(t))
    else if key == TimestampKey then Str(timestamp)
    else Number(StoredImportance(score))
  }

  /** The metadata add_memory writes: every reserved key and every key of
      the caller's, with the caller's value wherever it gives one. */
  function AssembleMetadata(t: MemoryType, timestamp: string, score: Option<real>, extra: Metadata): Metadata {
    map k | k in ReservedKeys + extra.Keys :: if k in extra then extra[k] else ReservedValue(t, timestamp, score, k)
  }

  /** It is the dictionary of the three reserved entries updated with the
      caller's metadata, as add_memory builds it: the caller's keys win and
      the reserved ones fill in what the caller left out. */
  lemma AssembledKeys(t: MemoryType, timestamp: string, score: Option<real>, extra: Metadata)
    ensures AssembleMetadata(t, timestamp, score, extra)
         == map[TypeKey := Str(Value(t)), TimestampKey := Str(timestamp),
                ImportanceKey := Number(StoredImportance(score))] + extra
  {
    var reserved := map[TypeKey := Str(Value(t)), TimestampKey := Str(timestamp),
                        ImportanceKey := Number(StoredImportance(score))];
    var m := AssembleMetadata(t, timestamp, score, extra);
    assert reserved.Keys == ReservedKeys;
    assert m.Keys == (reserved + extra).Keys;
    forall k | k in m
      ensures m[k] == (reserved + extra)[k]
    {
      if k !in extra {
        assert k in ReservedKeys;
      }
    }
  }

  function NewRecord(id: string, content: string, t: MemoryType, timestamp: string,
                     score: Option<real>, extra: Metadata): Record
  {
    Record(id, content, AssembleMetadata(t, timestamp, score, extra))
  }

  /** The store's metadata check: every value a string, number or boolean. */
  predicate Storable(m: Metadata) {
    forall k :: k in m ==> m[k].Str? || m[k].Number? || m[k].Flag?
  }

  // ---------------------------------------------------------------------
  // Reading: a stored record as a MemoryEntry

  function StripReserved(m: Metadata): (r: Metadata)
    ensures r.Keys == m.Keys - ReservedKeys
    ensures forall k :: k in r ==> r[k] == m[k]
  {
    m - ReservedKeys
  }

  /** The record holds a known kind and a timestamp as strings, and its
      importance, if present, is a number or a boolean (which the entry's
      float field takes as 1.0 or 0.0). */
  predicate Readable(rec: Record) {
    var m := rec.metadata;
    && TypeKey in m && m[TypeKey].Str? && Parse(m[TypeKey].s).Some?
    && TimestampKey in m && m[TimestampKey].Str?
    && (ImportanceKey in m ==> m[ImportanceKey].Number? || m[ImportanceKey].Flag?)
  }

  /** `metadata.get('importance_score', 0.5)` as the entry's float. */
  function ImportanceOf(m: Metadata): real
    requires ImportanceKey in m ==> m[ImportanceKey].Number? || m[ImportanceKey].Flag?
  {
    if ImportanceKey !in m then DefaultImportance
    else match m[ImportanceKey]
      case Number(x) => x
      case Flag(b) => if b then 1.0 else 0.0
  }

  /** The conversion shared by search, lookup by id and lookup by kind. */
  function ToEntry(rec: Record): (r: Result<MemoryEntry, Failure>)
    ensures r.Ok? <==> Readable(rec)
    ensures r.Err? ==> r.error == MalformedRecord(rec.id)
    ensures r.Ok? ==> r.value.importanceScore.Some?
  {
    var m := rec.metadata;
    if Readable(rec) then
      Ok(MemoryEntry(rec.id, rec.document, Parse(m[TypeKey].s).value, m[TimestampKey].s,
                     Some(StripReserved(m)), None,
                     Some(ImportanceOf(m))))
    else
      Err(MalformedRecord(rec.id))
  }

  /** A readable record reads back with its id, text, kind and timestamp,
      its metadata without the reserved keys, and its importance (0.5 when
      none is stored, 1.0 or 0.0 for a stored boolean). */
  lemma ReadBack(rec: Record)
    requires Readable(rec)
    ensures var e := ToEntry(rec).value;
      && e.id == rec.id && e.content == rec.document
      && Str(Value(e.memoryType)) == rec.metadata[TypeKey]
      && Str(e.timestamp) == rec.metadata[TimestampKey]
      && e.metadata == Some(StripReserved(rec.metadata))
      && ReservedKeys !! e.metadata.value.Keys
      && e.embedding == None
      && e.importanceScore == Some(ImportanceOf(rec.metadata))
  {
  }

  /** A record written by add_memory without reserved keys in the caller's
      metadata reads back with the same content, kind, timestamp, the
      caller's metadata and the stored importance. */
  lemma StoredRecordReadsBack(id: string, content: string, t: MemoryType, now: string,
                              score: Option<real>, extra: Metadata)
    requires ReservedKeys !! extra.Keys
    ensures ToEntry(NewRecord(id, content, t, now, score, extra))
         == Ok(MemoryEntry(id, content, t, now, Some(extra), None, Some(StoredImportance(score))))
  {
    var rec := NewRecord(id, content, t, now, score, extra);
    KindsAndValues(t, t);
    assert Readable(rec);
    var e := ToEntry(rec).value;
    assert Value(e.memoryType) == Value(t);
    if e.memoryType != t {
      KindsAndValues(e.memoryType, t);
    }
    assert StripReserved(rec.metadata) == extra;
  }

  /** Converts records in order; the first unreadable one raises. */
  function Entries(recs: seq<Record>): (r: Result<seq<MemoryEntry>, Failure>)
    ensures r.Ok? ==> forall e :: e in r.value ==> e.importanceScore.Some?
    decreases |recs|
  {
    if recs == [] then Ok([])
    else
      match Entries(recs[..|recs| - 1])
      case Err(e) => Err(e)
      case Ok(es) =>
        match ToEntry(recs[|recs| - 1])
        case Err(e) => Err(e)
        case Ok(x) => Ok(es + [x])
  }

  /** Reading records back succeeds exactly when every one is readable, and
      then yields one entry per record, in order; otherwise it reports the
      first unreadable record. */
  lemma EntriesSpec(recs: seq<Record>)
    ensures var r := Entries(recs);
      && (r.Ok? <==> forall i :: 0 <= i < |recs| ==> ToEntry(recs[i]).Ok?)
      && (r.Ok? ==> |r.value| == |recs| && forall i :: 0 <= i < |recs| ==> r.value[i] == ToEntry(recs[i]).value)
      && (r.Err? ==> exists i :: 0 <= i < |recs| && ToEntry(recs[i]) == Err(r.error)
                                && forall j :: 0 <= j < i ==> ToEntry(recs[j]).Ok?)
  {
    EntriesOk(recs);
    EntriesErr(recs);
  }

  lemma EntriesOk(recs: seq<Record>)
    ensures var r := Entries(recs);
      && (r.Ok? <==> forall i :: 0 <= i < |recs| ==> ToEntry(recs[i]).Ok?)
      && (r.Ok? ==> |r.value| == |recs| && forall i :: 0 <= i < |recs| ==> r.value[i] == ToEntry(recs[i]).value)
  {
    EntriesOkIff(recs);
    EntriesValues(recs);
  }

  lemma {:induction false} EntriesOkIff(recs: seq<Record>)
    ensures Entries(recs).Ok? <==> forall i :: 0 <= i < |recs| ==> ToEntry(recs[i]).Ok?
    decreases |recs|
  {
    if recs != [] {
      var init := recs[..|recs| - 1];
      EntriesOkIff(init);
      assert forall i :: 0 <= i < |init| ==> init[i] == recs[i];
    }
  }

  lemma {:induction false} EntriesValues(recs: seq<Record>)
    ensures var r := Entries(recs);
      r.Ok? ==> |r.value| == |recs| && forall i :: 0 <= i < |recs| ==> ToEntry(recs[i]) == Ok(r.value[i])
    decreases |recs|
  {
    if recs != [] && Entries(recs).Ok? {
      var n := |recs| - 1;
      var init := recs[..n];
      assert Entries(init).Ok? && ToEntry(recs[n]).Ok?;
      var es, x := Entries(init).value, ToEntry(recs[n]).value;
      assert Entries(recs).value == es + [x];
      EntriesValues(init);
      forall i | 0 <= i < |recs| ensures ToEntry(recs[i]) == Ok(Entries(recs).value[i]) {
        if i < n {
          assert init[i] == recs[i];
        }
      }
    }
  }

  lemma {:induction false} EntriesErr(recs: seq<Record>)
    ensures var r := Entries(recs);
      r.Err? ==> exists i :: 0 <= i < |recs| && ToEntry(recs[i]) == Err(r.error)
                             && forall j :: 0 <= j < i ==> ToEntry(recs[j]).Ok?
    decreases |recs|
  {
    if recs != [] {
      var init := recs[..|recs| - 1];
      EntriesErr(init);
      EntriesOk(init);
      assert forall i :: 0 <= i < |init| ==> init[i] == recs[i];
    }
  }

  lemma {:induction false} EntriesAppendErr(a: seq<Record>, b: seq<Record>)
    requires Entries(a).Err?
    ensures Entries(a + b) == Entries(a)
    decreases |b|
  {
    if b != [] {
      assert (a + b)[..|a + b| - 1] == a + b[..|b| - 1];
      EntriesAppendErr(a, b[..|b| - 1]);
    } else {
      assert a + b == a;
    }
  }

  // ---------------------------------------------------------------------
  // search_memories: the distance cutoff

  /** The hits within distance `1 - threshold`, in backend order. */
  function Qualifying(hits: seq<Hit>, threshold: real): (r: seq<Hit>)
    ensures |r| <= |hits|
    decreases |hits|
  {
    if hits == [] then []
    else
      var last := hits[|hits| - 1];
      Qualifying(hits[..|hits| - 1], threshold) + (if last.distance <= 1.0 - threshold then [last] else [])
  }

  /** A hit survives the cutoff exactly when it is within distance `1 - threshold`. */
  lemma {:induction false} QualifyingSpec(hits: seq<Hit>, threshold: real)
    ensures forall h :: h in Qualifying(hits, threshold) <==> h in hits && h.distance <= 1.0 - threshold
    decreases |hits|
  {
    if hits != [] {
      QualifyingSpec(hits[..|hits| - 1], threshold);
      assert hits == hits[..|hits| - 1] + [hits[|hits| - 1]];
    }
  }

  function RecordsOf(hits: seq<Hit>): (recs: seq<Record>)
    ensures |recs| == |hits| && forall i :: 0 <= i < |hits| ==> recs[i] == hits[i].record
  {
    seq(|hits|, i requires 0 <= i < |hits| => hits[i].record)
  }

  /** What search_memories returns for the backend's hits. */
  function SearchResult(hits: seq<Hit>, threshold: real): Result<seq<MemoryEntry>, Failure> {
    Entries(RecordsOf(Qualifying(hits, threshold)))
  }

  /** Filtering keeps backend order: it distributes over concatenation. */
  lemma {:induction false} QualifyingAppend(a: seq<Hit>, b: seq<Hit>, threshold: real)
    ensures Qualifying(a + b, threshold) == Qualifying(a, threshold) + Qualifying(b, threshold)
    decreases |b|
  {
    if b == [] {
      assert a + b == a;
    } else {
      assert (a + b)[..|a + b| - 1] == a + b[..|b| - 1];
      QualifyingAppend(a, b[..|b| - 1], threshold);
    }
  }

  /** Filtering at a higher threshold is filtering the lower threshold's survivors. */
  lemma {:induction false} QualifyingNested(hits: seq<Hit>, t1: real, t2: real)
    requires t1 <= t2
    ensures Qualifying(hits, t2) == Qualifying(Qualifying(hits, t1), t2)
    decreases |hits|
  {
    if hits != [] {
      var init, last := hits[..|hits| - 1], hits[|hits| - 1];
      QualifyingNested(init, t1, t2);
      var q1 := Qualifying(init, t1);
      if last.distance <= 1.0 - t1 {
        assert (q1 + [last])[..|q1 + [last]| - 1] == q1;
      } else {
        assert Qualifying(hits, t1) == q1 + [];
        assert q1 + [] == q1;
      }
    }
  }

  lemma QualifyingStep(hits: seq<Hit>, i: nat, threshold: real)
    requires i < |hits|
    ensures hits[i].distance <= 1.0 - threshold ==>
      RecordsOf(Qualifying(hits[..i + 1], threshold)) == RecordsOf(Qualifying(hits[..i], threshold)) + [hits[i].record]
    ensures hits[i].distance > 1.0 - threshold ==>
      RecordsOf(Qualifying(hits[..i + 1], threshold)) == RecordsOf(Qualifying(hits[..i], threshold))
  {
    assert hits[..i + 1][..i] == hits[..i];
    var q := Qualifying(hits[..i], threshold);
    if hits[i].distance <= 1.0 - threshold {
      assert RecordsOf(q + [hits[i]]) == RecordsOf(q) + [hits[i].record];
    } else {
      assert q + [] == q;
    }
  }

  lemma RecordsOfAppend(a: seq<Hit>, b: seq<Hit>)
    ensures RecordsOf(a + b) == RecordsOf(a) + RecordsOf(b)
  {
  }

  lemma EntriesSnoc(recs: seq<Record>, x: Record)
    requires Entries(recs).Ok?
    ensures ToEntry(x).Ok? ==> Entries(recs + [x]) == Ok(Entries(recs).value + [ToEntry(x).value])
    ensures ToEntry(x).Err? ==> Entries(recs + [x]) == Err(ToEntry(x).error)
  {
    assert (recs + [x])[..|recs|] == recs;
  }

  /** Once a prefix fails to read back, so does the whole sequence, with the same error. */
  lemma EntriesPrefixErr(recs: seq<Record>, k: nat)
    requires k <= |recs| && Entries(recs[..k]).Err?
    ensures Entries(recs) == Entries(recs[..k])
  {
    assert recs == recs[..k] + recs[k..];
    EntriesAppendErr(recs[..k], recs[k..]);
  }

  /** An unreadable record among the qualifying hits makes the whole search raise. */
  lemma SearchStopsAt(hits: seq<Hit>, i: nat, threshold: real)
    requires i < |hits| && hits[i].distance <= 1.0 - threshold
    requires Entries(RecordsOf(Qualifying(hits[..i], threshold))).Ok?
    requires ToEntry(hits[i].record).Err?
    ensures SearchResult(hits, threshold) == Err(ToEntry(hits[i].record).error)
  {
    QualifyingStep(hits, i, threshold);
    EntriesSnoc(RecordsOf(Qualifying(hits[..i], threshold)), hits[i].record);
    var front, back := hits[..i + 1], hits[i + 1..];
    assert front + back == hits;
    QualifyingAppend(front, back, threshold);
    var qf, qb := Qualifying(front, threshold), Qualifying(back, threshold);
    RecordsOfAppend(qf, qb);
    assert Entries(RecordsOf(qf)).Err?;
    EntriesAppendErr(RecordsOf(qf), RecordsOf(qb));
  }

  /** The backend's side of the contract: at most `limit` hits, each a stored
      record that passes the kind filter. */
  predicate MatchesKind(rec: Record, filter: Option<MemoryType>) {
    filter.None? || (TypeKey in rec.metadata && rec.metadata[TypeKey] == Str(Value(filter.value)))
  }

  predicate SoundAnswer(hits: seq<Hit>, records: seq<Record>, filter: Option<MemoryType>, limit: nat) {
    |hits| <= limit && forall h :: h in hits ==> h.record in records && MatchesKind(h.record, filter)
  }

  /** What search_memories promises when the backend keeps its side: at most
      `limit` entries, each a stored record of the filtered kind, within the
      distance cutoff, with no reserved key left in its metadata. */
  lemma SearchResultSound(hits: seq<Hit>, records: seq<Record>, filter: Option<MemoryType>,
                          limit: nat, threshold: real)
    requires SoundAnswer(hits, records, filter, limit)
    ensures var r := SearchResult(hits, threshold);
      r.Ok? ==>
        && |r.value| <= limit
        && forall i :: 0 <= i < |r.value| ==>
             && (exists h :: h in hits && h.distance <= 1.0 - threshold && h.record in records
                              && ToEntry(h.record) == Ok(r.value[i]))
             && (filter.Some? ==> r.value[i].memoryType == filter.value)
             && r.value[i].metadata.Some? && ReservedKeys !! r.value[i].metadata.value.Keys
  {
    var q := Qualifying(hits, threshold);
    var r := SearchResult(hits, threshold);
    EntriesSpec(RecordsOf(q));
    QualifyingSpec(hits, threshold);
    if r.Ok? {
      forall i | 0 <= i < |r.value|
        ensures exists h :: h in hits && h.distance <= 1.0 - threshold && h.record in records
                            && ToEntry(h.record) == Ok(r.value[i])
        ensures filter.Some? ==> r.value[i].memoryType == filter.value
        ensures r.value[i].metadata.Some? && ReservedKeys !! r.value[i].metadata.value.Keys
      {
        var h := q[i];
        assert h in q;
        assert ToEntry(h.record) == Ok(r.value[i]);
        if filter.Some? {
          KindsAndValues(r.value[i].memoryType, filter.value);
        }
      }
    }
  }

  /** Raising the threshold never adds results and never introduces an
      error: every result at the higher threshold is a result at the lower. */
  lemma ThresholdMonotone(hits: seq<Hit>, t1: real, t2: real)
    requires t1 <= t2
    ensures |Qualifying(hits, t2)| <= |Qualifying(hits, t1)|
    ensures var r1, r2 := SearchResult(hits, t1), SearchResult(hits, t2);
      r1.Ok? ==> r2.Ok? && |r2.value| <= |r1.value| && forall e :: e in r2.value ==> e in r1.value
  {
    QualifyingNested(hits, t1, t2);
    var q1, q2 := Qualifying(hits, t1), Qualifying(hits, t2);
    QualifyingSpec(q1, t2);
    forall x | x in RecordsOf(q2) ensures x in RecordsOf(q1) {
      var i :| 0 <= i < |q2| && RecordsOf(q2)[i] == x;
      assert q2[i] in q1;
      var j :| 0 <= j < |q1| && q1[j] == q2[i];
      assert RecordsOf(q1)[j] == x;
    }
    EntriesSubset(RecordsOf(q2), RecordsOf(q1));
    EntriesSpec(RecordsOf(q1));
    EntriesSpec(RecordsOf(q2));
  }

  /** Reading fewer stored records back never fails where reading more succeeded. */
  lemma EntriesSubset(a: seq<Record>, b: seq<Record>)
    requires forall x :: x in a ==> x in b
    ensures Entries(b).Ok? ==> Entries(a).Ok? && forall e :: e in Entries(a).value ==> e in Entries(b).value
  {
    EntriesSpec(a);
    EntriesSpec(b);
    if Entries(b).Ok? {
      forall i | 0 <= i < |a| ensures ToEntry(a[i]).Ok? {
        assert a[i] in b;
      }
      forall e | e in Entries(a).value ensures e in Entries(b).value {
        var i :| 0 <= i < |a| && Entries(a).value[i] == e;
        assert a[i] in b;
        var j :| 0 <= j < |b| && b[j] == a[i];
        assert Entries(b).value[j] == e;
      }
    }
  }

  // ---------------------------------------------------------------------
  // get_memories_by_type, stats, clear

  /** The records whose stored kind is `t`, in storage order (the `where` filter). */
  function OfKind(recs: seq<Record>, t: MemoryType): (r: seq<Record>)
    ensures forall x :: x in r <==> x in recs && MatchesKind(x, Some(t))
    decreases |recs|
  {
    if recs == [] then []
    else
      var last := recs[|recs| - 1];
      assert recs == recs[..|recs| - 1] + [last];
      OfKind(recs[..|recs| - 1], t) + (if MatchesKind(last, Some(t)) then [last] else [])
  }

  /** get_memories_by_type returns at most `limit` entries, each of kind `t`. */
  lemma ByKindSound(recs: seq<Record>, t: MemoryType, limit: nat)
    ensures var r := Entries(OfKind(recs, t)[..Min(limit, |OfKind(recs, t)|)]);
      r.Ok? ==> |r.value| <= limit && forall e :: e in r.value ==> e.memoryType == t
  {
    var page := OfKind(recs, t)[..Min(limit, |OfKind(recs, t)|)];
    var r := Entries(page);
    EntriesSpec(page);
    if r.Ok? {
      forall e | e in r.value ensures e.memoryType == t {
        var i :| 0 <= i < |r.value| && r.value[i] == e;
        assert page[i] in OfKind(recs, t);
        if e.memoryType != t {
          KindsAndValues(e.memoryType, t);
        }
      }
    }
  }

  /** `type_counts.get(k, 0) + 1`. */
  function Bump(m: map<MetaValue, nat>, k: MetaValue): map<MetaValue, nat> {
    m[k := (if k in m then m[k] else 0) + 1]
  }

  /** The per-kind histogram of stats; None when a record has no kind key
      (the lookup raises). Keys are the stored values, whatever they are. */
  function Histogram(recs: seq<Record>): Option<map<MetaValue, nat>>
    decreases |recs|
  {
    if recs == [] then Some(map[])
    else
      var last := recs[|recs| - 1];
      match Histogram(recs[..|recs| - 1])
      case None => None
      case Some(h) => if TypeKey in last.metadata then Some(Bump(h, last.metadata[TypeKey])) else None
  }

  lemma {:induction false} HistogramAppendNone(a: seq<Record>, b: seq<Record>)
    requires Histogram(a).None?
    ensures Histogram(a + b).None?
    decreases |b|
  {
    if b == [] {
      assert a + b == a;
    } else {
      assert (a + b)[..|a + b| - 1] == a + b[..|b| - 1];
      HistogramAppendNone(a, b[..|b| - 1]);
    }
  }

  /** The sum of a histogram's counts. */
  ghost function Total(m: map<MetaValue, nat>): nat
    decreases |m|
  {
    if m == map[] then 0
    else
      var k :| k in m;
      assert (m - {k}).Keys == m.Keys - {k};
      m[k] + Total(m - {k})
  }

  lemma {:induction false} TotalRemove(m: map<MetaValue, nat>, k: MetaValue)
    requires k in m
    ensures Total(m) == m[k] + Total(m - {k})
    decreases |m|
  {
    var j :| j in m && Total(m) == m[j] + Total(m - {j});
    if j != k {
      assert (m - {j}).Keys == m.Keys - {j};
      assert (m - {k}).Keys == m.Keys - {k};
      TotalRemove(m - {j}, k);
      TotalRemove(m - {k}, j);
      assert m - {j} - {k} == m - {k} - {j};
    }
  }

  lemma TotalBump(m: map<MetaValue, nat>, k: MetaValue)
    ensures Total(Bump(m, k)) == Total(m) + 1
  {
    var b := Bump(m, k);
    TotalRemove(b, k);
    if k in m {
      TotalRemove(m, k);
      assert b - {k} == m - {k};
    } else {
      assert b - {k} == m;
    }
  }

  /** The histogram's counts add up to the number of records it read. */
  lemma {:induction false} HistogramTotal(recs: seq<Record>)
    ensures Histogram(recs).Some? ==> Total(Histogram(recs).value) == |recs|
    decreases |recs|
  {
    if recs != [] {
      var init := recs[..|recs| - 1];
      HistogramTotal(init);
      if Histogram(recs).Some? {
        TotalBump(Histogram(init).value, recs[|recs| - 1].metadata[TypeKey]);
      }
    }
  }

  /** The stats map. */
  datatype Stats =
    | Stats(totalMemories: nat, memoriesByType: map<MetaValue, nat>, collectionName: string)
    | StatsError

  /** What a bulk clear reports. */
  datatype ClearReport =
    | Cleared(success: bool, documentsFound: nat, documentsDeleted: nat, documentsRemaining: nat,
              message: string, collectionName: string)
    | ClearFailed(collectionName: string)

  const NothingToDeleteMessage: string := "No documents found to delete"
  const AllDeletedMessage: string := "All documents successfully deleted"
  const SomeRemainMessage: string := "Some documents may still remain after deletion"

  /** The report of a clear on a reachable collection of `n` records: one
      page of at most MaxFetch ids is deleted, then the rest is counted. */
  function ClearOutcome(n: nat, name: string): ClearReport {
    var found := Min(n, MaxFetch);
    if found == 0 then Cleared(true, 0, 0, 0, NothingToDeleteMessage, name)
    else if n - found > 0 then Cleared(false, found, found, n - found, SomeRemainMessage, name)
    else Cleared(true, found, found, 0, AllDeletedMessage, name)
  }

  /** Every report deletes what it found; it succeeds exactly when nothing
      remains, which is exactly when the collection fit in one page; an
      empty collection succeeds with all counts zero. */
  lemma ClearOutcomeSound(n: nat, name: string)
    ensures var r := ClearOutcome(n, name);
      && r.Cleared?
      && r.documentsDeleted == r.documentsFound == Min(n, MaxFetch)
      && r.documentsRemaining == n - r.documentsFound
      && (r.success <==> r.documentsRemaining == 0)
      && (r.success <==> n <= MaxFetch)
      && (n == 0 ==> r.success && r.documentsFound == 0 && r.documentsRemaining == 0)
  {
  }

  /** The report of a clear of `n` records whose three requests (read the
      first page, delete it, count what is left) are answered as given. An
      empty collection needs only the read; any unanswered request is
      caught and reported as a failure. */
  function ClearReportOf(n: nat, name: string, read: bool, deleted: bool, counted: bool): ClearReport {
    if !read then ClearFailed(name)
    else if n == 0 then ClearOutcome(0, name)
    else if !deleted || !counted then ClearFailed(name)
    else ClearOutcome(n, name)
  }

  /** What a clear leaves of the records: the first page is gone once the
      delete is answered, whatever happens after it. */
  function ClearedRecords(recs: seq<Record>, read: bool, deleted: bool): seq<Record> {
    if read && deleted then recs[Min(|recs|, MaxFetch)..] else recs
  }

  /** A clear succeeds exactly when the read is answered and the collection
      is empty, or every request is answered and the collection fits in one
      page; success leaves nothing behind. But a failure does not mean that
      nothing was deleted: when only the final count goes unanswered, the
      first page is gone and the report is still a failure. */
  lemma ClearSound(recs: seq<Record>, name: string, read: bool, deleted: bool, counted: bool)
    ensures var r := ClearReportOf(|recs|, name, read, deleted, counted);
      && (r.Cleared? && r.success <==> read && (recs == [] || (deleted && counted && |recs| <= MaxFetch)))
      && (r.Cleared? && r.success ==> ClearedRecords(recs, read, deleted) == [])
      && (read && deleted && !counted && recs != [] ==>
            r == ClearFailed(name) && |ClearedRecords(recs, read, deleted)| < |recs|)
  {
    ClearOutcomeSound(|recs|, name);
  }

  // ---------------------------------------------------------------------
  // Requests

  /** Both requests of an add or a search starting at request `c` (the
      embedding, then the store call) are answered. */
  predicate Answered(reachable: nat -> bool, c: nat) {
    reachable(c) && reachable(c + 1)
  }

  /** How add_memory ends when its requests start at `c`: the embedding
      request comes first, then the store checks the metadata, and only
      accepted metadata is sent. */
  function AddOutcome(reachable: nat -> bool, c: nat, storable: bool): (r: Outcome<Failure>)
    ensures r == Pass <==> storable && Answered(reachable, c)
    ensures r == Fail(InvalidMetadata) <==> reachable(c) && !storable
  {
    if !reachable(c) then Fail(BackendUnavailable)
    else if !storable then Fail(InvalidMetadata)
    else if !reachable(c + 1) then Fail(BackendUnavailable)
    else Pass
  }

  /** How many of `n` writes in a row, each taking two requests from `c`
      on, get through before the first one that does not. */
  function Landed(reachable: nat -> bool, c: nat, n: nat): (k: nat)
    ensures k <= n
    decreases n
  {
    if n == 0 || !Answered(reachable, c) then 0 else Landed(reachable, c + 2, n - 1) + 1
  }

  /** The writes counted all got through, and the one after them, if any,
      did not. */
  lemma {:induction false} LandedMeans(reachable: nat -> bool, c: nat, n: nat)
    ensures var k := Landed(reachable, c, n);
      && (forall j :: 0 <= j < k ==> Answered(reachable, c + 2 * j))
      && (k < n ==> !Answered(reachable, c + 2 * k))
    decreases n
  {
    if n > 0 && Answered(reachable, c) {
      var k := Landed(reachable, c + 2, n - 1);
      LandedMeans(reachable, c + 2, n - 1);
      forall j | 0 <= j < k + 1 ensures Answered(reachable, c + 2 * j) {
        if j > 0 {
          assert c + 2 * j == (c + 2) + 2 * (j - 1);
        }
      }
      assert c + 2 * (k + 1) == (c + 2) + 2 * k;
    }
  }

  /** One more write in the row changes the count only when all the
      earlier ones got through, and then by whether it does too. */
  lemma {:induction false} LandedExtend(reachable: nat -> bool, c: nat, n: nat)
    ensures Landed(reachable, c, n + 1)
         == if Landed(reachable, c, n) < n then Landed(reachable, c, n)
            else n + (if Answered(reachable, c + 2 * n) then 1 else 0)
    decreases n
  {
    if n > 0 && Answered(reachable, c) {
      LandedExtend(reachable, c + 2, n - 1);
      assert c + 2 + 2 * (n - 1) == c + 2 * n;
    }
  }

  /** Of two writes, none, the first or both get through. */
  lemma LandedTwo(reachable: nat -> bool, c: nat)
    ensures Landed(reachable, c, 2)
         == if !Answered(reachable, c) then 0 else if !Answered(reachable, c + 2) then 1 else 2
  {
    if Answered(reachable, c) {
      assert Landed(reachable, c, 2) == Landed(reachable, c + 2, 1) + 1;
    }
  }

  // ---------------------------------------------------------------------
  // Identifiers

  function IdSet(recs: seq<Record>): set<string> {
    set r | r in recs :: r.id
  }

  predicate DistinctIds(recs: seq<Record>) {
    forall i, j :: 0 <= i < j < |recs| ==> recs[i].id != recs[j].id
  }

  ghost predicate Injective(f: nat -> string) {
    forall a, b :: a != b ==> f(a) != f(b)
  }

  /** Appending the record of the next id drawn keeps ids unique and keeps
      every later id fresh. */
  lemma FreshAppend(recs: seq<Record>, rec: Record, uuid4: nat -> string, draws: nat)
    requires DistinctIds(recs) && Injective(uuid4) && rec.id == uuid4(draws)
    requires forall k :: draws <= k ==> uuid4(k) !in IdSet(recs)
    ensures DistinctIds(recs + [rec])
    ensures forall k :: draws + 1 <= k ==> uuid4(k) !in IdSet(recs + [rec])
  {
    assert IdSet(recs + [rec]) == IdSet(recs) + {rec.id};
    assert rec.id !in IdSet(recs);
    forall i | 0 <= i < |recs| ensures recs[i].id in IdSet(recs) {
      assert recs[i] in recs;
    }
  }

  /** The records whose id is not in `ids` (`collection.delete(ids=...)`). */
  function WithoutIds(recs: seq<Record>, ids: set<string>): (r: seq<Record>)
    ensures forall x :: x in r <==> x in recs && x.id !in ids
    ensures |r| <= |recs|
    decreases |recs|
  {
    if recs == [] then []
    else
      var last := recs[|recs| - 1];
      assert recs == recs[..|recs| - 1] + [last];
      WithoutIds(recs[..|recs| - 1], ids) + (if last.id in ids then [] else [last])
  }

  lemma {:induction false} WithoutIdsAppend(a: seq<Record>, b: seq<Record>, ids: set<string>)
    ensures WithoutIds(a + b, ids) == WithoutIds(a, ids) + WithoutIds(b, ids)
    decreases |b|
  {
    if b == [] {
      assert a + b == a;
    } else {
      assert (a + b)[..|a + b| - 1] == a + b[..|b| - 1];
      WithoutIdsAppend(a, b[..|b| - 1], ids);
    }
  }

  lemma {:induction false} WithoutIdsUntouched(recs: seq<Record>, ids: set<string>)
    requires forall x :: x in recs ==> x.id !in ids
    ensures WithoutIds(recs, ids) == recs
    decreases |recs|
  {
    if recs != [] {
      var init, last := recs[..|recs| - 1], recs[|recs| - 1];
      assert recs == init + [last];
      WithoutIdsUntouched(init, ids);
      assert last in recs;
    }
  }

  /** Deleting the ids of the first page leaves exactly the records after it. */
  lemma DeletePage(recs: seq<Record>, k: nat)
    requires DistinctIds(recs) && k <= |recs|
    ensures WithoutIds(recs, IdSet(recs[..k])) == recs[k..]
  {
    forall x | x in recs[k..] ensures x.id !in IdSet(recs[..k]) {
      PageIdsDisjoint(recs, k, x);
    }
    assert recs == recs[..k] + recs[k..];
    DeleteAllOf(recs[..k], recs[k..]);
  }

  lemma DeleteAllOf(page: seq<Record>, rest: seq<Record>)
    requires forall x :: x in rest ==> x.id !in IdSet(page)
    ensures WithoutIds(page + rest, IdSet(page)) == rest
  {
    var ids := IdSet(page);
    WithoutIdsAppend(page, rest, ids);
    WithoutIdsAll(page, ids);
    WithoutIdsUntouched(rest, ids);
    assert [] + rest == rest;
  }

  lemma {:induction false} WithoutIdsAll(recs: seq<Record>, ids: set<string>)
    requires forall x :: x in recs ==> x.id in ids
    ensures WithoutIds(recs, ids) == []
    decreases |recs|
  {
    if recs != [] {
      WithoutIdsAll(recs[..|recs| - 1], ids);
    }
  }

  lemma PageIdsDisjoint(recs: seq<Record>, k: nat, x: Record)
    requires DistinctIds(recs) && k <= |recs| && x in recs[k..]
    ensures x.id !in IdSet(recs[..k])
  {
    var j :| k <= j < |recs| && recs[j] == x;
  }

  lemma DistinctIdsSuffix(recs: seq<Record>, k: nat)
    requires DistinctIds(recs) && k <= |recs|
    ensures DistinctIds(recs[k..]) && IdSet(recs[k..]) <= IdSet(recs)
  {
    forall x | x in IdSet(recs[k..]) ensures x in IdSet(recs) {
      var r :| r in recs[k..] && r.id == x;
      assert r in recs;
    }
  }

  /** The first record with the given id. */
  function FindById(recs: seq<Record>, id: string): (r: Option<Record>)
    ensures r.Some? ==> r.value in recs && r.value.id == id
    ensures r.None? ==> id !in IdSet(recs)
    decreases |recs|
  {
    if recs == [] then None
    else if recs[0].id == id then Some(recs[0])
    else
      var r := FindById(recs[1..], id);
      assert r.Some? ==> r.value in recs;
      assert r.None? ==> forall x :: x in recs && x.id == id ==> x == recs[0];
      r
  }

  // ---------------------------------------------------------------------
  // Lookup by id

  /** What get_memory_by_id finds once its request is answered: None for an
      unknown id or a record that cannot be read back. */
  function LookupById(recs: seq<Record>, id: string): (r: Option<MemoryEntry>)
    requires DistinctIds(recs)
    ensures r.Some? ==> exists rec :: rec in recs && rec.id == id && ToEntry(rec) == Ok(r.value)
    ensures r.None? <==> id !in IdSet(recs) || exists rec :: rec in recs && rec.id == id && !Readable(rec)
  {
    match FindById(recs, id)
    case None => None
    case Some(rec) =>
      assert forall x :: x in recs && x.id == id ==> x == rec by {
        forall x | x in recs && x.id == id ensures x == rec {
          var i :| 0 <= i < |recs| && recs[i] == x;
          var j :| 0 <= j < |recs| && recs[j] == rec;
        }
      }
      match ToEntry(rec)
      case Ok(e) => Some(e)
      case Err(_) => None
  }

  /** add_memory from the store's state before it: it draws one id and
      numbers two requests, and stores the record it assembles only when the
      store answers both and accepts the metadata; it returns the id or the
      store's error. */
  function Add(reachable: nat -> bool, uuid4: nat -> string, content: string, t: MemoryType, extra: Metadata,
               score: Option<real>, now: string, m: Memory): Effect<Result<string, Failure>>
  {
    var id := uuid4(m.draws);
    var rec := NewRecord(id, content, t, now, score, extra);
    match AddOutcome(reachable, m.calls, Storable(rec.metadata))
    case Pass => Effect(Ok(id), Memory(m.records + [rec], m.draws + 1, m.calls + 2))
    case Fail(e) => Effect(Err(e), Memory(m.records, m.draws + 1, m.calls + 2))
  }

  /** add_memory in one piece: one id is drawn and two requests are made;
      the assembled record is appended, and its id returned, exactly when
      the store accepts its metadata and both requests are answered; a
      refusal is reported only when the store was reached. */
  lemma AddSpec(reachable: nat -> bool, uuid4: nat -> string, content: string, t: MemoryType, extra: Metadata,
                score: Option<real>, now: string, m: Memory)
    ensures var a := Add(reachable, uuid4, content, t, extra, score, now, m);
            var rec := NewRecord(uuid4(m.draws), content, t, now, score, extra);
      && (a.value.Ok? <==> Storable(rec.metadata) && Answered(reachable, m.calls))
      && (a.value.Ok? ==> a.value.value == uuid4(m.draws))
      && (a.value == Err(InvalidMetadata) <==> reachable(m.calls) && !Storable(rec.metadata))
      && (a.value.Err? ==> a.value.error in {InvalidMetadata, BackendUnavailable})
      && a.memory == Memory(m.records + (if a.value.Ok? then [rec] else []), m.draws + 1, m.calls + 2)
  {
    if AddOutcome(reachable, m.calls, Storable(NewRecord(uuid4(m.draws), content, t, now, score, extra).metadata)).Fail? {
      assert m.records + [] == m.records;
    }
  }

  // ---------------------------------------------------------------------
  // The manager

  class MemoryManager {
    const name: string
    /** Whether the store's k-th request is answered. */
    const reachable: nat -> bool
    /** The source of fresh ids: the k-th call of `uuid4()`. */
    const uuid4: nat -> string
    var records: seq<Record>
    /** How many ids have been drawn. */
    var draws: nat
    /** How many requests have been numbered. Each operation takes the next
        numbers for its requests in order, whether or not it gets as far as
        making them. */
    var calls: nat

    /** The state the store's writes change. */
    function Snapshot(): Memory
      reads this
    {
      Memory(records, draws, calls)
    }

    /** Ids are unique, and no id still to be drawn is already stored. */
    ghost predicate Valid()
      reads this
    {
      && DistinctIds(records)
      && Injective(uuid4)
      && forall k :: draws <= k ==> uuid4(k) !in IdSet(records)
    }

    constructor (name: string, reachable: nat -> bool, uuid4: nat -> string, initial: seq<Record>)
      requires DistinctIds(initial) && Injective(uuid4)
      requires forall k :: uuid4(k) !in IdSet(initial)
      ensures Valid()
      ensures this.name == name && this.reachable == reachable && this.uuid4 == uuid4
      ensures records == initial && draws == 0 && calls == 0
    {
      this.name := name;
      this.reachable := reachable;
      this.uuid4 := uuid4;
      records := initial;
      draws := 0;
      calls := 0;
    }

    /** add_memory: one new record under a fresh id, whose metadata is the
        reserved keys overlaid with the caller's; nothing is stored when a
        request goes unanswered or the store refuses the metadata. */
    method AddMemory(content: string, t: MemoryType, extra: Metadata, score: Option<real>, now: string)
      returns (r: Result<string, Failure>)
      requires Valid()
      modifies this
      ensures Valid() && uuid4(old(draws)) !in IdSet(old(records))
      ensures Effect(r, Snapshot()) == Add(reachable, uuid4, content, t, extra, score, now, old(Snapshot()))
    {
      var id := uuid4(draws);
      draws := draws + 1;
      var embedded := reachable(calls);
      var sent := reachable(calls + 1);
      calls := calls + 2;
      if !embedded {
        return Err(BackendUnavailable);
      }
      var rec := NewRecord(id, content, t, now, score, extra);
      if !Storable(rec.metadata) {
        return Err(InvalidMetadata);
      }
      if !sent {
        return Err(BackendUnavailable);
      }
      FreshAppend(records, rec, uuid4, draws - 1);
      records := records + [rec];
      r := Ok(id);
    }

    /** search_memories: the embedding request, then the query. */
    method SearchMemories(query: string, nearest: Ranker, filter: Option<MemoryType> := None,
                          limit: nat := DefaultSearchLimit, threshold: real := DefaultSimilarityThreshold)
      returns (r: Result<seq<MemoryEntry>, Failure>)
      modifies this`calls
      ensures calls == old(calls) + 2
      ensures r == if Answered(reachable, old(calls)) then SearchResult(nearest(query, filter, limit, records), threshold)
                   else Err(BackendUnavailable)
    {
      var answered := Answered(reachable, calls);
      calls := calls + 2;
      if !answered {
        return Err(BackendUnavailable);
      }
      var hits := nearest(query, filter, limit, records);
      var memories: seq<MemoryEntry> := [];
      var i := 0;
      while i < |hits|
        invariant 0 <= i <= |hits|
        invariant calls == old(calls) + 2
        invariant Entries(RecordsOf(Qualifying(hits[..i], threshold))) == Ok(memories)
      {
        var h := hits[i];
        QualifyingStep(hits, i, threshold);
        if h.distance <= 1.0 - threshold {
          EntriesSnoc(RecordsOf(Qualifying(hits[..i], threshold)), h.record);
          var e := ToEntry(h.record);
          if e.Err? {
            SearchStopsAt(hits, i, threshold);
            return Err(e.error);
          }
          memories := memories + [e.value];
        }
        i := i + 1;
      }
      assert hits[..|hits|] == hits;
      r := Ok(memories);
    }

    /** get_memory_by_id: None when the request goes unanswered, the id is
        unknown or the record cannot be read back. */
    method GetMemoryById(id: string) returns (r: Option<MemoryEntry>)
      requires Valid()
      modifies this`calls
      ensures calls == old(calls) + 1
      ensures r == if reachable(old(calls)) then LookupById(records, id) else None
    {
      var answered := reachable(calls);
      calls := calls + 1;
      if !answered {
        return None;
      }
      r := LookupById(records, id);
    }

    /** delete_memory: removes the record with that id, if any; deleting an
        unknown id is not an error, so repeating a delete changes nothing. */
    method DeleteMemory(id: string) returns (ok: bool)
      requires Valid()
      modifies this`records, this`calls
      ensures Valid() && calls == old(calls) + 1
      ensures ok == reachable(old(calls))
      ensures records == if ok then WithoutIds(old(records), {id}) else old(records)
      ensures ok ==> id !in IdSet(records)
    {
      ok := reachable(calls);
      calls := calls + 1;
      if !ok {
        return;
      }
      ghost var before := records;
      records := WithoutIds(records, {id});
      assert IdSet(records) <= IdSet(before);
      DistinctWithoutIds(before, {id});
    }

    /** get_memories_by_type: the first `limit` records of kind `t`, read as entries. */
    method GetMemoriesByType(t: MemoryType, limit: nat := 100) returns (r: Result<seq<MemoryEntry>, Failure>)
      modifies this`calls
      ensures calls == old(calls) + 1
      ensures r == if reachable(old(calls)) then Entries(OfKind(records, t)[..Min(limit, |OfKind(records, t)|)])
                   else Err(BackendUnavailable)
    {
      var answered := reachable(calls);
      calls := calls + 1;
      if !answered {
        return Err(BackendUnavailable);
      }
      var all := OfKind(records, t);
      var page := all[..Min(limit, |all|)];
      var memories: seq<MemoryEntry> := [];
      var i := 0;
      while i < |page|
        invariant 0 <= i <= |page|
        invariant calls == old(calls) + 1
        invariant Entries(page[..i]) == Ok(memories)
      {
        assert page[..i + 1] == page[..i] + [page[i]];
        EntriesSnoc(page[..i], page[i]);
        var e := ToEntry(page[i]);
        if e.Err? {
          EntriesPrefixErr(page, i + 1);
          return Err(e.error);
        }
        memories := memories + [e.value];
        i := i + 1;
      }
      assert page[..|page|] == page;
      r := Ok(memories);
    }

    /** get_memory_stats: the record count and the per-kind histogram of the
        first page; an error map when a request goes unanswered or a record
        has no kind. */
    method GetMemoryStats() returns (s: Stats)
      modifies this`calls
      ensures calls == old(calls) + 2
      ensures s == if !Answered(reachable, old(calls)) then StatsError
                   else match Histogram(records[..Min(|records|, MaxFetch)])
                        case None => StatsError
                        case Some(h) => Stats(|records|, h, name)
    {
      var answered := Answered(reachable, calls);
      calls := calls + 2;
      if !answered {
        return StatsError;
      }
      var count := |records|;
      var page := records[..Min(|records|, MaxFetch)];
      var typeCounts: map<MetaValue, nat> := map[];
      var i := 0;
      while i < |page|
        invariant 0 <= i <= |page|
        invariant calls == old(calls) + 2
        invariant Histogram(page[..i]) == Some(typeCounts)
      {
        assert page[..i + 1][..i] == page[..i];
        var metadata := page[i].metadata;
        if TypeKey !in metadata {
          assert page == page[..i + 1] + page[i + 1..];
          HistogramAppendNone(page[..i + 1], page[i + 1..]);
          return StatsError;
        }
        var kind := metadata[TypeKey];
        typeCounts := typeCounts[kind := (if kind in typeCounts then typeCounts[kind] else 0) + 1];
        i := i + 1;
      }
      assert page[..|page|] == page;
      s := Stats(count, typeCounts, name);
    }

    /** clear_all_memories_detailed: reads the first page of ids, deletes
        them and counts what is left; a request that goes unanswered is
        reported as a failure, even after the delete went through. */
    method ClearAllMemoriesDetailed() returns (report: ClearReport)
      requires Valid()
      modifies this`records, this`calls
      ensures Valid() && calls == old(calls) + 3
      ensures var c := old(calls);
        && report == ClearReportOf(|old(records)|, name, reachable(c), reachable(c + 1), reachable(c + 2))
        && records == ClearedRecords(old(records), reachable(c), reachable(c + 1) && old(records) != [])
    {
      var read, deleted, counted := reachable(calls), reachable(calls + 1), reachable(calls + 2);
      calls := calls + 3;
      if !read {
        return ClearFailed(name);
      }
      var page := records[..Min(|records|, MaxFetch)];
      var found := |page|;
      if found == 0 {
        return Cleared(true, 0, 0, 0, NothingToDeleteMessage, name);
      }
      if !deleted {
        return ClearFailed(name);
      }
      ghost var before := records;
      records := WithoutIds(records, IdSet(page));
      DeletePage(before, found);
      DistinctIdsSuffix(before, found);
      if !counted {
        return ClearFailed(name);
      }
      var remaining := |records|;
      if remaining > 0 {
        report := Cleared(false, found, found, remaining, SomeRemainMessage, name);
      } else {
        report := Cleared(true, found, found, 0, AllDeletedMessage, name);
      }
    }

    /** clear_all_memories: the same requests, reporting only success. */
    method ClearAllMemories() returns (ok: bool)
      requires Valid()
      modifies this`records, this`calls
      ensures Valid() && calls == old(calls) + 3
      ensures var c := old(calls);
        && ok == (reachable(c) && (old(records) == [] || (reachable(c + 1) && reachable(c + 2) && |old(records)| <= MaxFetch)))
        && records == ClearedRecords(old(records), reachable(c), reachable(c + 1) && old(records) != [])
        && (ok ==> records == [])
    {
      var report := ClearAllMemoriesDetailed();
      ClearSound(old(records), name, reachable(old(calls)), reachable(old(calls) + 1), reachable(old(calls) + 2));
      ok := report.Cleared? && report.success;
    }
  }

  lemma {:induction false} DistinctWithoutIds(recs: seq<Record>, ids: set<string>)
    requires DistinctIds(recs)
    ensures DistinctIds(WithoutIds(recs, ids))
    decreases |recs|
  {
    if recs != [] {
      var init, last := recs[..|recs| - 1], recs[|recs| - 1];
      DistinctWithoutIds(init, ids);
      var w := WithoutIds(init, ids);
      if last.id !in ids {
        forall x | x in w ensures x.id != last.id {
          var i :| 0 <= i < |init| && init[i] == x;
          assert recs[i] == x;
        }
        assert WithoutIds(recs, ids) == w + [last];
      }
    }
  }
}
