/**
 * The sync engine (`SyncOrchestrator`): a run expands and sorts the
 * requested kinds, then syncs them one after another. Syncing one kind
 * opens a journal entry, derives the request parameters from the stored
 * sync metadata, fetches the records, transforms them, upserts them in
 * batches of 100, records the new metadata and closes the journal entry.
 *
 * Everything outside the store is a parameter: the Kaiten API (one fetch
 * per kind), the outcome of each batch upsert, a journal request that is
 * rejected or answered with an error, the clock and date parsing.
 */
module Orchestrator {
  import opened Wrappers
  import opened Strings
  import opened JsValue
  import Seqs
  import Store
  import Scheduler
  import Transform
  import PayloadHash

  // ---------------------------------------------------------------------
  // options

  /**
   * `SyncOptions`. `None` is a property left `undefined`; an empty string
   * is a date bound that is missing or empty, which `||` treats alike.
   */
  datatype SyncOptions = SyncOptions(
    entityTypes: Option<seq<Scheduler.EntityType>>,
    incremental: Option<bool>,
    resolveDependencies: Option<bool>,
    timeLogsFrom: string,
    timeLogsTo: string)

  /** `sync()` called with no options. */
  const NoOptions: SyncOptions := SyncOptions(None, None, None, "", "")

  /** `entityTypes || Object.keys(DEPENDENCY_GRAPH)` (an array, even an empty one, is truthy). */
  function Requested(o: SyncOptions): seq<Scheduler.EntityType> {
    if o.entityTypes.Some? then o.entityTypes.value else Scheduler.GraphKeys
  }

  /** `incremental = false` */
  predicate Incremental(o: SyncOptions) {
    if o.incremental.Some? then o.incremental.value else false
  }

  /** `resolveDependencies = true` */
  predicate ResolvesDependencies(o: SyncOptions) {
    if o.resolveDependencies.Some? then o.resolveDependencies.value else true
  }

  /** The kinds a run syncs, before they are sorted. */
  function Planned(o: SyncOptions): seq<Scheduler.EntityType> {
    if ResolvesDependencies(o) then Scheduler.Resolved(Requested(o)) else Requested(o)
  }

  /** With no options a run covers every kind of the graph resolving dependencies, as a full run. */
  lemma DefaultRun()
    ensures forall k :: k in Planned(NoOptions)
    ensures ResolvesDependencies(NoOptions) && !Incremental(NoOptions)
  {
    Scheduler.GraphKeysComplete();
    Scheduler.ResolvedProperties(Scheduler.GraphKeys);
  }

  /** A requested list is expanded by the direct dependencies of its kinds, unless expansion is switched off. */
  lemma PlannedKinds(o: SyncOptions)
    ensures ResolvesDependencies(o) ==> forall k :: k in Planned(o) <==> k in Requested(o) || exists e :: e in Requested(o) && k in Scheduler.Deps(e)
    ensures !ResolvesDependencies(o) ==> Planned(o) == Requested(o)
    ensures o.resolveDependencies.None? ==> ResolvesDependencies(o)
  {
    Scheduler.ResolvedProperties(Requested(o));
  }

  // ---------------------------------------------------------------------
  // what a run reads besides the store

  datatype SyncEnv = SyncEnv(
    /** the clock, the digest and date conversion of the transform */
    row: Transform.Env,
    /** `transformToDbFormat(kind, record)`; `UsesTransforms` ties it to the transform module */
    transform: (Scheduler.EntityType, Js) -> Result<Store.Row>,
    /** `new Date(v).toISOString()`, `None` for an invalid date */
    dateOf: Js -> Option<string>,
    /** `fetchFromKaiten(kind, params)`: the records, or the error the request throws */
    fetch: (Scheduler.EntityType, seq<(string, Js)>) -> Result<seq<Js>>,
    /** the error returned by the upsert of batch `b` of a kind, if any */
    batchError: (Scheduler.EntityType, nat) -> Option<string>,
    /** the error thrown by the request that opens a kind's journal entry, if any */
    logRejects: Scheduler.EntityType -> Option<string>,
    /** the journal insert of a kind answers with an error (and no id) */
    logInsertFails: Scheduler.EntityType -> bool,
    /** `Date.now() - startTime` for a kind */
    duration: Scheduler.EntityType -> nat)

  // ---------------------------------------------------------------------
  // sync metadata and the request parameters

  /** `getSyncMetadata(kind)`: the kind's `sync_metadata` row, `None` for the `null` of a missing row. */
  function MetadataOf(t: Store.Table, kind: Scheduler.EntityType): Option<Store.Row> {
    var key := Str(Scheduler.Name(kind));
    if key in t then Some(t[key]) else None
  }

  /** `metadata?.last_incremental_sync_at`: `null` for an empty column. */
  function LastIncremental(meta: Option<Store.Row>): Js {
    if meta.None? then Undefined
    else if Store.LastIncrementalSyncAt in meta.value then meta.value[Store.LastIncrementalSyncAt]
    else Null
  }

  /** `incremental && metadata?.last_incremental_sync_at ? metadata.last_incremental_sync_at : undefined` */
  function UpdatedSince(incremental: bool, meta: Option<Store.Row>): (r: Js)
    ensures Truthy(r) <==> incremental && Truthy(LastIncremental(meta))
    ensures Truthy(r) ==> r == LastIncremental(meta)
    ensures !Truthy(r) ==> r == Undefined
  {
    if incremental && Truthy(LastIncremental(meta)) then LastIncremental(meta) else Undefined
  }

  /** The message of calling `split` on a value that is not a string. */
  const SplitNotAFunction: string := "updatedSince.split is not a function"

  /**
   * The `from` of a time-log request: `timeLogsFrom`, else the date part
   * of `updatedSince` (from its ISO form when it parses as a date, else
   * what comes before the first `T`), else nothing.
   */
  function FromParam(timeLogsFrom: string, since: Js, dateOf: Js -> Option<string>): Result<Js> {
    if timeLogsFrom != "" then Ok(Str(timeLogsFrom))
    else if !Truthy(since) then Ok(Undefined)
    else match dateOf(since)
      case Some(iso) => Ok(Str(Seqs.Take(iso, 10)))
      case None => if since.Str? then Ok(Str(Split(since.s, 'T')[0])) else Err(SplitNotAFunction)
  }

  /**
   * An explicit bound is used as it is; without one and without a stamp
   * there is no `from`; a stamp gives a date of at most ten characters,
   * and the request fails only for a stamp that is neither a date nor a
   * string.
   */
  lemma FromParamCases(timeLogsFrom: string, since: Js, dateOf: Js -> Option<string>)
    ensures timeLogsFrom != "" ==> FromParam(timeLogsFrom, since, dateOf) == Ok(Str(timeLogsFrom))
    ensures timeLogsFrom == "" && !Truthy(since) ==> FromParam(timeLogsFrom, since, dateOf) == Ok(Undefined)
    ensures timeLogsFrom == "" && dateOf(since).Some? && Truthy(since) ==>
      FromParam(timeLogsFrom, since, dateOf) == Ok(Str(dateOf(since).value[..if |dateOf(since).value| <= 10 then |dateOf(since).value| else 10]))
    ensures FromParam(timeLogsFrom, since, dateOf).Err? <==> timeLogsFrom == "" && Truthy(since) && dateOf(since).None? && !since.Str?
  {
  }

  /** A stamp that does not parse as a date gives the text before its first `T`. */
  lemma FromUnparsedStamp(date: string, rest: string, dateOf: Js -> Option<string>)
    requires 'T' !in date && dateOf(Str(date + "T" + rest)).None?
    ensures FromParam("", Str(date + "T" + rest), dateOf) == Ok(Str(date))
  {
    DatePartBeforeT(date, rest);
  }

  /** The date part of a timestamp that does not parse is the text before its first `T`. */
  lemma DatePartBeforeT(date: string, rest: string)
    requires 'T' !in date
    ensures Split(date + "T" + rest, 'T')[0] == date
  {
    SplitAtFirst(date, 'T', rest);
  }

  /** The `to` of a time-log request: `timeLogsTo`, else today's date. */
  function ToParam(timeLogsTo: string, now: string): string {
    if timeLogsTo != "" then timeLogsTo else Seqs.Take(now, 10)
  }

  /** `fetchParams`, built as the `syncEntity` branches build the object. */
  function FetchParams(kind: Scheduler.EntityType, o: SyncOptions, meta: Option<Store.Row>, env: SyncEnv): (r: Result<seq<(string, Js)>>)
    ensures kind != Scheduler.TimeLogs ==> r.Ok?
  {
    var since := UpdatedSince(Incremental(o), meta);
    if kind == Scheduler.TimeLogs then
      var from :- FromParam(o.timeLogsFrom, since, env.dateOf);
      var to := ToParam(o.timeLogsTo, env.row.now);
      var withFrom := if Truthy(from) then [("from", from)] else [];
      Ok(withFrom + (if to != "" then [("to", Str(to))] else []))
    else
      Ok(if Truthy(since) then [("updated_since", since)] else [])
  }

  /** A request for any kind but time logs carries `updated_since` exactly when the run is incremental and a previous one left a stamp. */
  lemma FetchParamsUpdatedSince(kind: Scheduler.EntityType, o: SyncOptions, meta: Option<Store.Row>, env: SyncEnv)
    requires kind != Scheduler.TimeLogs
    ensures Lookup(FetchParams(kind, o, meta, env).value, "updated_since") == UpdatedSince(Incremental(o), meta)
    ensures Lookup(FetchParams(kind, o, meta, env).value, "from") == Undefined
    ensures Lookup(FetchParams(kind, o, meta, env).value, "to") == Undefined
  {
  }

  /**
   * A time-log request carries `from` and `to` when they are set, and
   * never `updated_since`; it fails only when the stamp is neither a date
   * nor a string.
   */
  lemma FetchParamsTimeLogs(o: SyncOptions, meta: Option<Store.Row>, env: SyncEnv)
    ensures var r := FetchParams(Scheduler.TimeLogs, o, meta, env);
      var from := FromParam(o.timeLogsFrom, UpdatedSince(Incremental(o), meta), env.dateOf);
      && (r.Err? <==> from.Err?)
      && (r.Ok? ==>
        && Lookup(r.value, "updated_since") == Undefined
        && Lookup(r.value, "from") == (if Truthy(from.value) then from.value else Undefined)
        && Lookup(r.value, "to") == (if ToParam(o.timeLogsTo, env.row.now) != "" then Str(ToParam(o.timeLogsTo, env.row.now)) else Undefined))
  {
    var from := FromParam(o.timeLogsFrom, UpdatedSince(Incremental(o), meta), env.dateOf);
    if from.Ok? {
      var to := ToParam(o.timeLogsTo, env.row.now);
      FromToLookup(from.value, Str(to), Truthy(from.value), to != "");
    }
  }

  /** The properties of a query holding `from` and `to` when each is set. */
  lemma FromToLookup(from: Js, to: Js, hasFrom: bool, hasTo: bool)
    ensures var q := (if hasFrom then [("from", from)] else []) + (if hasTo then [("to", to)] else []);
      && Lookup(q, "updated_since") == Undefined
      && Lookup(q, "from") == (if hasFrom then from else Undefined)
      && Lookup(q, "to") == (if hasTo then to else Undefined)
  {
    var q := (if hasFrom then [("from", from)] else []) + (if hasTo then [("to", to)] else []);
    if hasFrom && hasTo {
      assert q == [("from", from), ("to", to)];
      assert q[..1] == [("from", from)];
    } else if hasFrom {
      assert q == [("from", from)];
    } else if hasTo {
      assert q == [("to", to)];
    } else {
      assert q == [];
    }
  }

  /** `fetchFromKaiten`: spaces, users, cards and time logs pass the parameters on; the other kinds take none. */
  function SentParams(kind: Scheduler.EntityType, params: seq<(string, Js)>): seq<(string, Js)> {
    if kind in [Scheduler.Spaces, Scheduler.Users, Scheduler.Cards, Scheduler.TimeLogs] then params else []
  }

  /** The records fetched for a kind, or the error thrown on the way. */
  function Fetched(kind: Scheduler.EntityType, o: SyncOptions, env: SyncEnv, meta: Option<Store.Row>): Result<seq<Js>> {
    var params :- FetchParams(kind, o, meta, env);
    env.fetch(kind, SentParams(kind, params))
  }

  // ---------------------------------------------------------------------
  // upsertToDatabase

  /**
   * `Promise.all(data.map(transform))`: every record's row, in order, or
   * the error of the first record that fails.
   */
  function RowsOf(rowOf: Js -> Result<Store.Row>, data: seq<Js>): (r: Result<seq<Store.Row>>)
    ensures r.Ok? ==> |r.value| == |data|
    ensures r.Ok? ==> forall i :: 0 <= i < |data| ==> rowOf(data[i]) == Ok(r.value[i])
    ensures r.Ok? <==> forall i :: 0 <= i < |data| ==> rowOf(data[i]).Ok?
  {
    if data == [] then Ok([])
    else
      var first := rowOf(data[0]);
      var rest := RowsOf(rowOf, data[1..]);
      assert forall i :: 1 <= i < |data| ==> data[i] == data[1..][i - 1];
      if first.Err? then Err(first.error)
      else if rest.Err? then Err(rest.error)
      else Ok([first.value] + rest.value)
  }

  /** The error of a failed transform is that of the first record that fails. */
  lemma {:induction false} RowsOfFirstError(rowOf: Js -> Result<Store.Row>, data: seq<Js>) returns (i: nat)
    requires RowsOf(rowOf, data).Err?
    ensures i < |data| && rowOf(data[i]) == Err(RowsOf(rowOf, data).error)
    ensures forall j :: 0 <= j < i ==> rowOf(data[j]).Ok?
  {
    if rowOf(data[0]).Err? {
      return 0;
    }
    var k := RowsOfFirstError(rowOf, data[1..]);
    assert data[1..][k] == data[k + 1];
    assert forall j :: 1 <= j <= k ==> data[j] == data[1..][j - 1];
    i := k + 1;
  }

  /** The transformed rows of a kind's records. */
  function Rows(kind: Scheduler.EntityType, data: seq<Js>, env: SyncEnv): Result<seq<Store.Row>> {
    RowsOf(d => env.transform(kind, d), data)
  }

  /** The environment transforms records with `Transform.TransformRow` under its own clock and digest. */
  ghost predicate UsesTransforms(env: SyncEnv) {
    forall k, d :: env.transform(k, d) == Transform.TransformRow(k, d, env.row)
  }

  /**
   * With the transform module's transform, the rows are each record's row
   * in order, and the batch upsert fails before any write when a record
   * is `null`/`undefined`.
   */
  lemma RowsAreTransformed(kind: Scheduler.EntityType, data: seq<Js>, env: SyncEnv)
    requires UsesTransforms(env)
    ensures Rows(kind, data, env).Ok? <==> forall i :: 0 <= i < |data| ==> Transform.TransformRow(kind, data[i], env.row).Ok?
    ensures Rows(kind, data, env).Ok? ==> forall i :: 0 <= i < |data| ==> Transform.TransformRow(kind, data[i], env.row) == Ok(Rows(kind, data, env).value[i])
    ensures (exists i :: 0 <= i < |data| && IsNullish(data[i])) ==> Rows(kind, data, env).Err?
  {
    var rs := Rows(kind, data, env);
    assert forall i :: 0 <= i < |data| ==> (d => env.transform(kind, d))(data[i]) == Transform.TransformRow(kind, data[i], env.row);
  }

  /** `batchSize` */
  const BatchSize: nat := 100

  /** The index of the first batch from `j` on whose upsert fails, `count` when none fails. */
  function FirstFailing(kind: Scheduler.EntityType, count: nat, batchError: (Scheduler.EntityType, nat) -> Option<string>, j: nat): (r: nat)
    requires j <= count
    ensures j <= r <= count
    ensures forall m :: j <= m < r ==> batchError(kind, m).None?
    ensures r < count ==> batchError(kind, r).Some?
    decreases count - j
  {
    if j == count then count else if batchError(kind, j).Some? then j else FirstFailing(kind, count, batchError, j + 1)
  }

  /** No batch before `b` fails. */
  ghost predicate Passed(batchError: (Scheduler.EntityType, nat) -> Option<string>, kind: Scheduler.EntityType, b: nat) {
    forall m :: 0 <= m < b ==> batchError(kind, m).None?
  }

  /** One more batch that does not fail. */
  lemma PassedStep(batchError: (Scheduler.EntityType, nat) -> Option<string>, kind: Scheduler.EntityType, b: nat)
    requires Passed(batchError, kind, b) && batchError(kind, b).None?
    ensures Passed(batchError, kind, b + 1)
  {
  }

  /** The first failing batch is the only index with those properties. */
  lemma {:induction false} FirstFailingUnique(kind: Scheduler.EntityType, count: nat, batchError: (Scheduler.EntityType, nat) -> Option<string>, j: nat, b: nat)
    requires j <= b <= count
    requires forall m :: j <= m < b ==> batchError(kind, m).None?
    requires b < count ==> batchError(kind, b).Some?
    ensures FirstFailing(kind, count, batchError, j) == b
    decreases count - j
  {
    if j < b {
      FirstFailingUnique(kind, count, batchError, j + 1, b);
    }
  }

  /** The number of batches of `rows` that are upserted: those before the first that fails. */
  function Accepted(kind: Scheduler.EntityType, rows: seq<Store.Row>, env: SyncEnv): nat {
    FirstFailing(kind, |Seqs.Chunks(rows, BatchSize)|, env.batchError, 0)
  }

  /** The counts `upsertToDatabase` reports. */
  datatype Stats = Stats(total: nat, processed: nat, created: nat, updated: nat, skipped: nat)

  /**
   * The batch upsert of the transformed rows: it fails with the error of
   * the first batch whose upsert fails, and otherwise reports `total`
   * records and every row as processed.
   */
  function BatchOutcome(kind: Scheduler.EntityType, total: nat, rows: seq<Store.Row>, env: SyncEnv): (r: Result<Stats>)
    ensures r.Ok? <==> forall m :: 0 <= m < |Seqs.Chunks(rows, BatchSize)| ==> env.batchError(kind, m).None?
    ensures r.Ok? ==> r.value == Stats(total, |rows|, 0, 0, 0)
    ensures r.Err? ==>
      exists m :: (0 <= m < |Seqs.Chunks(rows, BatchSize)| && env.batchError(kind, m) == Some(r.error) && forall j :: 0 <= j < m ==> env.batchError(kind, j).None?)
  {
    var k := Accepted(kind, rows, env);
    if k < |Seqs.Chunks(rows, BatchSize)| then Err(env.batchError(kind, k).value)
    else Ok(Stats(total, |rows|, 0, 0, 0))
  }

  /**
   * `upsertToDatabase(kind, data)`: the error of the first transform or
   * batch that fails; otherwise every record is counted as processed and
   * nothing as created, updated or skipped.
   */
  function UpsertOutcome(kind: Scheduler.EntityType, data: seq<Js>, env: SyncEnv): (r: Result<Stats>)
    ensures r.Ok? ==> Rows(kind, data, env).Ok? && r.value == Stats(|data|, |data|, 0, 0, 0)
    ensures Rows(kind, data, env).Err? ==> r == Err(Rows(kind, data, env).error)
  {
    var rows :- Rows(kind, data, env);
    BatchOutcome(kind, |data|, rows, env)
  }

  /** The rows that reach the table: the batches before the first failing one, one after another. */
  function UpsertedRows(kind: Scheduler.EntityType, rows: seq<Store.Row>, env: SyncEnv): seq<Store.Row> {
    Seqs.Flatten(Seqs.Chunks(rows, BatchSize)[..Accepted(kind, rows, env)])
  }

  /** The `kaiten` tables once the batch loop has run over `rows`: the kind's table has had each accepted batch upserted, in order. */
  function Written(tables: map<string, Store.Table>, kind: Scheduler.EntityType, rows: seq<Store.Row>, env: SyncEnv): map<string, Store.Table> {
    Store.AfterBatches(tables, Scheduler.Name(kind), Seqs.Chunks(rows, BatchSize), Accepted(kind, rows, env))
  }

  /** The `kaiten` tables after `upsertToDatabase`: unchanged when a transform fails. */
  function TablesAfter(tables: map<string, Store.Table>, kind: Scheduler.EntityType, data: seq<Js>, env: SyncEnv): map<string, Store.Table> {
    var rows := Rows(kind, data, env);
    if rows.Err? then tables else Written(tables, kind, rows.value, env)
  }

  /** The batch loop writes the kind's own table and no other. */
  lemma WrittenOthers(tables: map<string, Store.Table>, kind: Scheduler.EntityType, rows: seq<Store.Row>, env: SyncEnv, other: string)
    requires other != Scheduler.Name(kind)
    ensures Store.TableIn(Written(tables, kind, rows, env), other) == Store.TableIn(tables, other)
  {
  }

  /**
   * The rows that reach the table are a prefix of the transformed rows:
   * all of them on success, and exactly the full batches before the first
   * failing one otherwise.
   */
  lemma UpsertedPrefix(kind: Scheduler.EntityType, total: nat, rows: seq<Store.Row>, env: SyncEnv)
    ensures var done := UpsertedRows(kind, rows, env);
      && |done| <= |rows| && done == rows[..|done|]
      && (BatchOutcome(kind, total, rows, env).Ok? ==> done == rows)
      && (BatchOutcome(kind, total, rows, env).Err? ==> |done| == Accepted(kind, rows, env) * BatchSize)
  {
    var batches := Seqs.Chunks(rows, BatchSize);
    var k := Accepted(kind, rows, env);
    assert batches == batches[..k] + batches[k..];
    Seqs.FlattenConcat(batches[..k], batches[k..]);
    if k < |batches| {
      Seqs.ChunksFull(rows, BatchSize);
      Seqs.FlattenFull(batches[..k], BatchSize);
    } else {
      assert batches[..k] == batches;
    }
  }

  /**
   * Rows with the same keys, as the transform's objects of one kind are:
   * the batches write what one array upsert of all the rows that reach
   * the table would write.
   */
  lemma WrittenAsOneArray(tables: map<string, Store.Table>, kind: Scheduler.EntityType, rows: seq<Store.Row>, env: SyncEnv)
    requires Store.SameColumns(rows) && Accepted(kind, rows, env) > 0
    ensures Written(tables, kind, rows, env) ==
      tables[Scheduler.Name(kind) := Store.UpsertArray(Store.TableIn(tables, Scheduler.Name(kind)), UpsertedRows(kind, rows, env), Store.Id)]
  {
    var done := UpsertedRows(kind, rows, env);
    UpsertedPrefix(kind, |rows|, rows, env);
    assert forall i :: 0 <= i < |done| ==> done[i] == rows[i];
    Store.UpsertBatches(Store.TableIn(tables, Scheduler.Name(kind)), Seqs.Chunks(rows, BatchSize)[..Accepted(kind, rows, env)], Store.Id);
  }

  /** The transform module's objects for one kind's records all have the same keys. */
  lemma TransformedSameColumns(kind: Scheduler.EntityType, data: seq<Js>, env: SyncEnv)
    requires UsesTransforms(env) && Rows(kind, data, env).Ok?
    ensures Store.SameColumns(Rows(kind, data, env).value)
    ensures forall i :: 0 <= i < |data| ==> Rows(kind, data, env).value[i].Keys == Transform.BaseColumns + Transform.OwnColumns(kind)
  {
    var rows := Rows(kind, data, env).value;
    RowsAreTransformed(kind, data, env);
    forall i | 0 <= i < |data|
      ensures rows[i].Keys == Transform.BaseColumns + Transform.OwnColumns(kind)
    {
      var hash := PayloadHash.CalculatePayloadHash(data[i], env.row.digest);
      assert Transform.TransformRow(kind, data[i], env.row) == Ok(rows[i]);
      Transform.HashedRowColumns(kind, data[i], env.row, hash.value);
    }
  }

  /**
   * When every batch before `b` passes and batch `b` fails or there is
   * none, the outcome is decided by `b` and the tables are those after
   * `b` batches.
   */
  lemma StopsAt(tables: map<string, Store.Table>, kind: Scheduler.EntityType, total: nat, rows: seq<Store.Row>, env: SyncEnv, b: nat)
    requires b <= |Seqs.Chunks(rows, BatchSize)| && Passed(env.batchError, kind, b)
    requires b < |Seqs.Chunks(rows, BatchSize)| ==> env.batchError(kind, b).Some?
    ensures Accepted(kind, rows, env) == b
    ensures BatchOutcome(kind, total, rows, env) ==
      if b < |Seqs.Chunks(rows, BatchSize)| then Err(env.batchError(kind, b).value) else Ok(Stats(total, |rows|, 0, 0, 0))
    ensures Written(tables, kind, rows, env) == Store.AfterBatches(tables, Scheduler.Name(kind), Seqs.Chunks(rows, BatchSize), b)
  {
    FirstFailingUnique(kind, |Seqs.Chunks(rows, BatchSize)|, env.batchError, 0, b);
  }

  /** Batch `b` of the loop is `rows[i..end]`, and the batches after it are the chunks of the rest. */
  lemma BatchStep(rows: seq<Store.Row>, batches: seq<seq<Store.Row>>, i: nat, b: nat, end: nat)
    requires i < |rows| && end == (if i + BatchSize < |rows| then i + BatchSize else |rows|)
    requires b <= |batches| && batches[b..] == Seqs.Chunks(rows[i..], BatchSize)
    ensures b < |batches| && batches[b] == rows[i..end]
    ensures batches[b + 1..] == if i + BatchSize < |rows| then Seqs.Chunks(rows[i + BatchSize..], BatchSize) else []
  {
    var rest := rows[i..];
    if |rest| > BatchSize {
      assert rest[..BatchSize] == rows[i..end];
      assert rest[BatchSize..] == rows[i + BatchSize..];
    } else {
      assert rest == rows[i..end];
    }
    assert batches[b + 1..] == batches[b..][1..];
  }

  /**
   * `upsertToDatabase`: the records are transformed, then their rows are
   * sent 100 at a time.
   */
  method UpsertToDatabase(db: Store.Database, kind: Scheduler.EntityType, data: seq<Js>, env: SyncEnv) returns (r: Result<Stats>)
    modifies db
    ensures r == UpsertOutcome(kind, data, env)
    ensures db.tables == TablesAfter(old(db.tables), kind, data, env)
    ensures db.cardTags == old(db.cardTags) && db.syncLogs == old(db.syncLogs) && db.syncMetadata == old(db.syncMetadata)
  {
    var transformed := Rows(kind, data, env);
    if transformed.Err? {
      return Err(transformed.error);
    }
    r := UpsertBatches(db, kind, |data|, transformed.value, env);
  }

  /**
   * The batch loop of `upsertToDatabase`: a failing batch throws its
   * error and the later batches are never sent.
   */
  method UpsertBatches(db: Store.Database, kind: Scheduler.EntityType, total: nat, rows: seq<Store.Row>, env: SyncEnv) returns (r: Result<Stats>)
    modifies db
    ensures r == BatchOutcome(kind, total, rows, env)
    ensures db.tables == Written(old(db.tables), kind, rows, env)
    ensures db.cardTags == old(db.cardTags) && db.syncLogs == old(db.syncLogs) && db.syncMetadata == old(db.syncMetadata)
  {
    var name := Scheduler.Name(kind);
    ghost var batches := Seqs.Chunks(rows, BatchSize);
    var processed := 0;
    var i := 0;
    var b := 0;
    while i < |rows|
      invariant b <= |batches|
      invariant batches[b..] == if i < |rows| then Seqs.Chunks(rows[i..], BatchSize) else []
      invariant Passed(env.batchError, kind, b)
      invariant processed == if i < |rows| then i else |rows|
      invariant db.tables == Store.AfterBatches(old(db.tables), name, batches, b)
      invariant db.cardTags == old(db.cardTags) && db.syncLogs == old(db.syncLogs) && db.syncMetadata == old(db.syncMetadata)
      decreases |rows| - i
    {
      var end := if i + BatchSize < |rows| then i + BatchSize else |rows|;
      var batch := rows[i..end];
      BatchStep(rows, batches, i, b, end);
      var err := env.batchError(kind, b);
      if err.Some? {
        StopsAt(old(db.tables), kind, total, rows, env, b);
        return Err(err.value);
      }
      PassedStep(env.batchError, kind, b);
      ghost var pre := db.tables;
      db.Upsert(name, batch);
      Store.UpsertBatchesStep(old(db.tables), name, batches, b, pre, db.tables);
      assert processed + |batch| == end;
      processed := processed + |batch|;
      i := i + BatchSize;
      b := b + 1;
    }
    StopsAt(old(db.tables), kind, total, rows, env, b);
    r := Ok(Stats(total, processed, 0, 0, 0));
  }

  // ---------------------------------------------------------------------
  // the journal and the metadata record

  /** `createSyncLog`: `{ entity_type, sync_type, status: 'started' }` */
  function StartRow(kind: Scheduler.EntityType, incremental: bool): Store.Row {
    map[Store.EntityType := Str(Scheduler.Name(kind)),
        Store.SyncType := Str(if incremental then "incremental" else "full"),
        Store.Status := Str("started")]
  }

  /** `completeSyncLog`: `{ status: 'completed', ...stats, completed_at, duration_ms }` */
  function CompletedPatch(s: Stats, duration: nat, now: string): Store.Row {
    map[Store.Status := Str("completed"),
        Store.Total := Num(s.total),
        Store.RecordsProcessed := Num(s.processed),
        Store.RecordsCreated := Num(s.created),
        Store.RecordsUpdated := Num(s.updated),
        Store.RecordsSkipped := Num(s.skipped),
        Store.CompletedAt := Str(now),
        Store.DurationMs := Num(duration)]
  }

  /** `failSyncLog`: `{ status: 'failed', error_message, completed_at, duration_ms }` */
  function FailedPatch(message: string, duration: nat, now: string): Store.Row {
    map[Store.Status := Str("failed"),
        Store.ErrorMessage := Str(message),
        Store.CompletedAt := Str(now),
        Store.DurationMs := Num(duration)]
  }

  /** A closed journal entry keeps its kind and sync type and carries the final status, duration and time. */
  lemma JournalEntry(kind: Scheduler.EntityType, incremental: bool, s: Stats, message: string, duration: nat, now: string)
    ensures var done := StartRow(kind, incremental) + CompletedPatch(s, duration, now);
      && done[Store.EntityType] == Str(Scheduler.Name(kind))
      && done[Store.SyncType] == Str(if incremental then "incremental" else "full")
      && done[Store.Status] == Str("completed")
      && done[Store.RecordsProcessed] == Num(s.processed) && done[Store.DurationMs] == Num(duration)
      && Store.ErrorMessage !in done
    ensures var failed := StartRow(kind, incremental) + FailedPatch(message, duration, now);
      && failed[Store.EntityType] == Str(Scheduler.Name(kind))
      && failed[Store.Status] == Str("failed") && failed[Store.ErrorMessage] == Str(message)
      && Store.RecordsProcessed !in failed
  {
  }

  /** `updateSyncMetadata`: the idle record with the total and the time of the run, under the incremental or the full stamp. */
  function MetadataRecord(kind: Scheduler.EntityType, incremental: bool, total: nat, now: string): Store.Row {
    var record := map[
      Store.EntityType := Str(Scheduler.Name(kind)),
      Store.Status := Str("idle"),
      Store.ErrorMessage := Null,
      Store.TotalRecords := Num(total)];
    if incremental then record[Store.LastIncrementalSyncAt := Str(now)] else record[Store.LastFullSyncAt := Str(now)]
  }

  /**
   * After a successful run the kind's metadata is idle, without error,
   * with the fetched total and the run's stamp, and the next incremental
   * run asks for the records updated since an incremental run's stamp.
   */
  lemma MetadataAfterRun(t: Store.Table, kind: Scheduler.EntityType, incremental: bool, total: nat, now: string)
    ensures var m := MetadataOf(Store.UpsertRow(t, MetadataRecord(kind, incremental, total, now), Store.EntityType), kind);
      && m.Some?
      && m.value[Store.Status] == Str("idle") && m.value[Store.ErrorMessage] == Null && m.value[Store.TotalRecords] == Num(total)
      && (incremental ==> m.value[Store.LastIncrementalSyncAt] == Str(now))
      && (!incremental ==> m.value[Store.LastFullSyncAt] == Str(now))
      && (incremental && now != "" ==> UpdatedSince(true, m) == Str(now))
  {
    var record := MetadataRecord(kind, incremental, total, now);
    assert Store.KeyOf(record, Store.EntityType) == Str(Scheduler.Name(kind));
  }

  /** A run writes its own stamp and keeps the other one: a full run does not reset the incremental stamp. */
  lemma MetadataKeepsOtherStamp(t: Store.Table, kind: Scheduler.EntityType, incremental: bool, total: nat, now: string)
    ensures var before := MetadataOf(t, kind);
      var m := MetadataOf(Store.UpsertRow(t, MetadataRecord(kind, incremental, total, now), Store.EntityType), kind);
      && (incremental && before.Some? && Store.LastFullSyncAt in before.value ==> m.value[Store.LastFullSyncAt] == before.value[Store.LastFullSyncAt])
      && (!incremental && before.Some? ==> LastIncremental(m) == LastIncremental(before))
  {
    var record := MetadataRecord(kind, incremental, total, now);
    assert Store.KeyOf(record, Store.EntityType) == Str(Scheduler.Name(kind));
  }

  // ---------------------------------------------------------------------
  // syncEntity

  /** `SyncResult`; `total` is the extra property the spread of the stats adds on success. */
  datatype SyncResult = SyncResult(
    entityType: Scheduler.EntityType, success: bool,
    processed: nat, created: nat, updated: nat, skipped: nat,
    total: Option<nat>, error: Option<string>, durationMs: nat)

  /** What `syncEntity` does: return a result, or throw. */
  datatype Outcome = Returned(result: SyncResult) | Threw(message: string)

  function Succeeded(kind: Scheduler.EntityType, s: Stats, duration: nat): SyncResult {
    SyncResult(kind, true, s.processed, s.created, s.updated, s.skipped, Some(s.total), None, duration)
  }

  /** The failure `syncEntity` returns, and the one `sync` records for a throw (with no duration). */
  function Failed(kind: Scheduler.EntityType, message: string, duration: nat): SyncResult {
    SyncResult(kind, false, 0, 0, 0, 0, None, Some(message), duration)
  }

  /** Everything inside `syncEntity`'s `try`: fetch, transform and upsert. */
  function Attempt(kind: Scheduler.EntityType, o: SyncOptions, env: SyncEnv, meta: Option<Store.Row>): Result<Stats> {
    var data :- Fetched(kind, o, env, meta);
    UpsertOutcome(kind, data, env)
  }

  /**
   * `syncEntity(kind)` given the kind's metadata: it throws only when the
   * journal cannot be opened; otherwise it returns the kind's result, a
   * success counting every fetched record, or a failure with no counts.
   */
  function EntityOutcome(kind: Scheduler.EntityType, o: SyncOptions, env: SyncEnv, meta: Option<Store.Row>): Outcome {
    if env.logRejects(kind).Some? then Threw(env.logRejects(kind).value)
    else Returned(ResultOf(kind, Attempt(kind, o, env, meta), env.duration(kind)))
  }

  /** The result `syncEntity` returns once its `try` block has ended as `attempt`. */
  function ResultOf(kind: Scheduler.EntityType, attempt: Result<Stats>, duration: nat): SyncResult {
    if attempt.Ok? then Succeeded(kind, attempt.value, duration) else Failed(kind, attempt.error, duration)
  }

  /**
   * `syncEntity` throws only when the journal cannot be opened; otherwise
   * it returns the kind's result, a success counting every fetched record,
   * or a failure with no counts and the error of the step that failed.
   */
  lemma EntityOutcomeShape(kind: Scheduler.EntityType, o: SyncOptions, env: SyncEnv, meta: Option<Store.Row>)
    ensures var out := EntityOutcome(kind, o, env, meta);
      && (out.Threw? <==> env.logRejects(kind).Some?)
      && (out.Returned? ==> out.result.entityType == kind && out.result.durationMs == env.duration(kind))
      && (out.Returned? ==> (out.result.success <==> Attempt(kind, o, env, meta).Ok?))
      && (out.Returned? && out.result.success ==>
        && Fetched(kind, o, env, meta).Ok?
        && out.result.processed == |Fetched(kind, o, env, meta).value| && out.result.total == Some(out.result.processed)
        && out.result.created == 0 && out.result.updated == 0 && out.result.skipped == 0)
      && (out.Returned? && !out.result.success ==>
        && out.result.processed == 0 && out.result.created == 0 && out.result.updated == 0 && out.result.skipped == 0
        && out.result.error == Some(Attempt(kind, o, env, meta).error))
  {
  }

  /** `createSyncLog`: the id of the new journal entry, `0` when the insert answers with an error. */
  method CreateSyncLog(db: Store.Database, kind: Scheduler.EntityType, incremental: bool, env: SyncEnv) returns (id: nat)
    modifies db
    ensures env.logInsertFails(kind) ==> id == 0 && db.syncLogs == old(db.syncLogs)
    ensures !env.logInsertFails(kind) ==> db.syncLogs == old(db.syncLogs) + [StartRow(kind, incremental)] && id == |db.syncLogs|
    ensures db.tables == old(db.tables) && db.cardTags == old(db.cardTags) && db.syncMetadata == old(db.syncMetadata)
  {
    if env.logInsertFails(kind) {
      return 0;
    }
    id := db.InsertLog(StartRow(kind, incremental));
  }

  /** `completeSyncLog` and `failSyncLog`: the patch is written over the entry, unless there is no entry id. */
  method CloseSyncLog(db: Store.Database, logId: nat, patch: Store.Row)
    modifies db
    ensures logId == 0 ==> db.syncLogs == old(db.syncLogs)
    ensures logId != 0 ==> db.syncLogs == (if logId <= |old(db.syncLogs)| then old(db.syncLogs)[logId - 1 := old(db.syncLogs)[logId - 1] + patch] else old(db.syncLogs))
    ensures db.tables == old(db.tables) && db.cardTags == old(db.cardTags) && db.syncMetadata == old(db.syncMetadata)
  {
    if logId == 0 {
      return;
    }
    db.UpdateLog(logId, patch);
  }

  /** The journal patch that closes an entry whose `try` block ended as `attempt`. */
  function PatchOf(attempt: Result<Stats>, duration: nat, now: string): Store.Row {
    if attempt.Ok? then CompletedPatch(attempt.value, duration, now) else FailedPatch(attempt.error, duration, now)
  }

  /** The journal patch that closes a kind's entry. */
  function ClosingPatch(kind: Scheduler.EntityType, o: SyncOptions, env: SyncEnv, meta: Option<Store.Row>): Store.Row {
    PatchOf(Attempt(kind, o, env, meta), env.duration(kind), env.row.now)
  }

  /** The sync metadata after a kind's `try` block ended as `attempt`: written on success only. */
  function MetadataAfter(t: Store.Table, kind: Scheduler.EntityType, incremental: bool, attempt: Result<Stats>, now: string): Store.Table {
    if attempt.Ok? then Store.UpsertRow(t, MetadataRecord(kind, incremental, attempt.value.total, now), Store.EntityType) else t
  }

  /**
   * The end of `syncEntity` once its `try` block has ended as `attempt`:
   * on success the metadata is written and the entry completed, otherwise
   * the entry is failed.
   */
  method FinishEntity(db: Store.Database, kind: Scheduler.EntityType, incremental: bool, logId: nat, attempt: Result<Stats>, duration: nat, now: string)
    returns (r: SyncResult)
    modifies db
    ensures r == ResultOf(kind, attempt, duration)
    ensures db.syncMetadata == MetadataAfter(old(db.syncMetadata), kind, incremental, attempt, now)
    ensures logId == 0 ==> db.syncLogs == old(db.syncLogs)
    ensures logId != 0 ==> db.syncLogs == (if logId <= |old(db.syncLogs)| then old(db.syncLogs)[logId - 1 := old(db.syncLogs)[logId - 1] + PatchOf(attempt, duration, now)] else old(db.syncLogs))
    ensures db.tables == old(db.tables) && db.cardTags == old(db.cardTags)
  {
    if attempt.Ok? {
      db.UpsertMetadata(MetadataRecord(kind, incremental, attempt.value.total, now));
      CloseSyncLog(db, logId, CompletedPatch(attempt.value, duration, now));
      r := Succeeded(kind, attempt.value, duration);
    } else {
      CloseSyncLog(db, logId, FailedPatch(attempt.error, duration, now));
      r := Failed(kind, attempt.error, duration);
    }
  }

  /** The `kaiten` tables after the `try` block of `syncEntity`: unchanged when the fetch fails. */
  function AttemptTables(tables: map<string, Store.Table>, kind: Scheduler.EntityType, o: SyncOptions, env: SyncEnv, meta: Option<Store.Row>): map<string, Store.Table> {
    var data := Fetched(kind, o, env, meta);
    if data.Err? then tables else TablesAfter(tables, kind, data.value, env)
  }

  /** The `kaiten` tables after `syncEntity`: unchanged when it throws. */
  function EntityTables(tables: map<string, Store.Table>, kind: Scheduler.EntityType, o: SyncOptions, env: SyncEnv, meta: Option<Store.Row>): map<string, Store.Table> {
    if env.logRejects(kind).Some? then tables else AttemptTables(tables, kind, o, env, meta)
  }

  /** The sync metadata after `syncEntity`: unchanged when it throws, written on success only. */
  function EntityMetadata(t: Store.Table, kind: Scheduler.EntityType, o: SyncOptions, env: SyncEnv): Store.Table {
    if env.logRejects(kind).Some? then t
    else MetadataAfter(t, kind, Incremental(o), Attempt(kind, o, env, MetadataOf(t, kind)), env.row.now)
  }

  /** The journal entry `syncEntity` leaves: none when it throws or the insert answers with an error. */
  function EntityLog(kind: Scheduler.EntityType, o: SyncOptions, env: SyncEnv, meta: Option<Store.Row>): seq<Store.Row> {
    if env.logRejects(kind).Some? || env.logInsertFails(kind) then []
    else [StartRow(kind, Incremental(o)) + ClosingPatch(kind, o, env, meta)]
  }

  /** The fetch and the upsert of `syncEntity`'s `try` block, which write the kind's table only. */
  method TrySync(db: Store.Database, kind: Scheduler.EntityType, o: SyncOptions, env: SyncEnv, meta: Option<Store.Row>) returns (r: Result<Stats>)
    modifies db
    ensures r == Attempt(kind, o, env, meta)
    ensures db.tables == AttemptTables(old(db.tables), kind, o, env, meta)
    ensures db.cardTags == old(db.cardTags) && db.syncLogs == old(db.syncLogs) && db.syncMetadata == old(db.syncMetadata)
  {
    var params := FetchParams(kind, o, meta, env);
    if params.Err? {
      return Err(params.error);
    }
    var data := env.fetch(kind, SentParams(kind, params.value));
    if data.Err? {
      return Err(data.error);
    }
    r := UpsertToDatabase(db, kind, data.value, env);
  }

  /**
   * `syncEntity(kind, opts)`: its outcome, the kind's table, its metadata
   * (written only on success) and its journal entry (opened, then closed
   * as completed or failed).
   */
  method SyncEntity(db: Store.Database, kind: Scheduler.EntityType, o: SyncOptions, env: SyncEnv) returns (out: Outcome)
    modifies db
    ensures out == EntityOutcome(kind, o, env, MetadataOf(old(db.syncMetadata), kind))
    ensures db.tables == EntityTables(old(db.tables), kind, o, env, MetadataOf(old(db.syncMetadata), kind))
    ensures db.syncMetadata == EntityMetadata(old(db.syncMetadata), kind, o, env)
    ensures db.syncLogs == old(db.syncLogs) + EntityLog(kind, o, env, MetadataOf(old(db.syncMetadata), kind))
    ensures db.cardTags == old(db.cardTags)
  {
    var rejected := env.logRejects(kind);
    if rejected.Some? {
      return Threw(rejected.value);
    }
    var incremental := Incremental(o);
    var logId := CreateSyncLog(db, kind, incremental, env);
    var meta := MetadataOf(db.syncMetadata, kind);
    var stats := TrySync(db, kind, o, env, meta);
    var r := FinishEntity(db, kind, incremental, logId, stats, env.duration(kind), env.row.now);
    if !env.logInsertFails(kind) {
      JournalClosed(old(db.syncLogs), StartRow(kind, incremental), PatchOf(stats, env.duration(kind), env.row.now));
    }
    out := Returned(r);
  }

  /** Patching the entry just appended is appending the patched entry. */
  lemma JournalClosed(logs: seq<Store.Row>, start: Store.Row, patch: Store.Row)
    ensures (logs + [start])[|logs| := (logs + [start])[|logs|] + patch] == logs + [start + patch]
  {
  }

  // ---------------------------------------------------------------------
  // sync

  /** The result `sync` records for a kind: the returned one, or a zeroed failure for a throw. */
  function Recorded(kind: Scheduler.EntityType, out: Outcome): SyncResult {
    match out
    case Returned(r) => r
    case Threw(message) => Failed(kind, message, 0)
  }

  /** A returned failure of a foundational kind, which ends the run. */
  predicate Stops(kind: Scheduler.EntityType, out: Outcome) {
    out.Returned? && !out.result.success && Scheduler.Foundational(kind)
  }

  /** The outcome of a kind under the metadata stored before the run. */
  function OutcomeIn(kind: Scheduler.EntityType, o: SyncOptions, env: SyncEnv, meta: Store.Table): Outcome {
    EntityOutcome(kind, o, env, MetadataOf(meta, kind))
  }

  /** The results of the run loop over `order`, started with the metadata `meta`. */
  function RunResults(order: seq<Scheduler.EntityType>, o: SyncOptions, env: SyncEnv, meta: Store.Table): seq<SyncResult>
    decreases |order|
  {
    if order == [] then []
    else
      var out := OutcomeIn(order[0], o, env, meta);
      [Recorded(order[0], out)] + (if Stops(order[0], out) then [] else RunResults(order[1..], o, env, meta))
  }

  /**
   * The results follow the sorted order, one per kind, and are what each
   * kind returned or the zeroed failure of a throw; they stop right
   * after the first returned failure of a foundational kind and nowhere
   * else.
   */
  lemma {:induction false} RunResultsShape(order: seq<Scheduler.EntityType>, o: SyncOptions, env: SyncEnv, meta: Store.Table)
    ensures var r := RunResults(order, o, env, meta);
      && |r| <= |order|
      && (forall i :: 0 <= i < |r| ==> r[i] == Recorded(order[i], OutcomeIn(order[i], o, env, meta)))
      && (forall i :: 0 <= i < |r| - 1 ==> !Stops(order[i], OutcomeIn(order[i], o, env, meta)))
      && (|r| < |order| ==> |r| > 0 && Stops(order[|r| - 1], OutcomeIn(order[|r| - 1], o, env, meta)))
      && (order != [] ==> |r| > 0)
    decreases |order|
  {
    if order != [] {
      var out := OutcomeIn(order[0], o, env, meta);
      if !Stops(order[0], out) {
        var rest := order[1..];
        RunResultsShape(rest, o, env, meta);
        var r := RunResults(order, o, env, meta);
        assert r == [Recorded(order[0], out)] + RunResults(rest, o, env, meta);
        assert forall i :: 1 <= i < |order| ==> order[i] == rest[i - 1];
      }
    }
  }

  /** A recorded result names its kind; a failure, returned or thrown, counts nothing, and a throw has no duration. */
  lemma RecordedResult(kind: Scheduler.EntityType, o: SyncOptions, env: SyncEnv, meta: Option<Store.Row>)
    ensures var out := EntityOutcome(kind, o, env, meta);
      var r := Recorded(kind, out);
      && r.entityType == kind
      && (!r.success ==> r.processed == 0 && r.created == 0 && r.updated == 0 && r.skipped == 0 && r.error.Some?)
      && (out.Threw? ==> !r.success && r.durationMs == 0 && r.error == Some(out.message))
  {
  }

  lemma RunResultsStep(order: seq<Scheduler.EntityType>, i: nat, o: SyncOptions, env: SyncEnv, meta: Store.Table)
    requires i < |order|
    ensures RunResults(order[i..], o, env, meta) ==
      var out := OutcomeIn(order[i], o, env, meta);
      [Recorded(order[i], out)] + (if Stops(order[i], out) then [] else RunResults(order[i + 1..], o, env, meta))
  {
    assert order[i..][1..] == order[i + 1..];
  }

  /** Metadata written for one kind leaves every other kind's metadata as it was. */
  lemma MetadataOfOthers(t: Store.Table, row: Store.Row, kind: Scheduler.EntityType, k: Scheduler.EntityType)
    requires Store.KeyOf(row, Store.EntityType) == Str(Scheduler.Name(kind)) && k != kind
    ensures MetadataOf(Store.UpsertRow(t, row, Store.EntityType), k) == MetadataOf(t, k)
  {
    Scheduler.NameInjective(k, kind);
  }

  /** Each kind's table changes only while the kind itself is synced. */
  lemma EntityTablesOthers(tables: map<string, Store.Table>, kind: Scheduler.EntityType, o: SyncOptions, env: SyncEnv, meta: Option<Store.Row>, k: Scheduler.EntityType)
    requires k != kind
    ensures Store.TableIn(EntityTables(tables, kind, o, env, meta), Scheduler.Name(k)) == Store.TableIn(tables, Scheduler.Name(k))
  {
    Scheduler.NameInjective(k, kind);
    if env.logRejects(kind).None? {
      AttemptTablesOthers(tables, kind, o, env, meta, Scheduler.Name(k));
    }
  }

  /** The `try` block writes the kind's own table and no other. */
  lemma AttemptTablesOthers(tables: map<string, Store.Table>, kind: Scheduler.EntityType, o: SyncOptions, env: SyncEnv, meta: Option<Store.Row>, other: string)
    requires other != Scheduler.Name(kind)
    ensures Store.TableIn(AttemptTables(tables, kind, o, env, meta), other) == Store.TableIn(tables, other)
  {
    var data := Fetched(kind, o, env, meta);
    if data.Ok? {
      TablesAfterOthers(tables, kind, data.value, env, other);
    }
  }

  /** `upsertToDatabase` writes the kind's own table and no other. */
  lemma TablesAfterOthers(tables: map<string, Store.Table>, kind: Scheduler.EntityType, data: seq<Js>, env: SyncEnv, other: string)
    requires other != Scheduler.Name(kind)
    ensures Store.TableIn(TablesAfter(tables, kind, data, env), other) == Store.TableIn(tables, other)
  {
    var rows := Rows(kind, data, env);
    if rows.Ok? {
      WrittenOthers(tables, kind, rows.value, env, other);
    }
  }

  /** Syncing one kind leaves every other kind's table and metadata as they were. */
  lemma EntityFrame(tables: map<string, Store.Table>, t: Store.Table, kind: Scheduler.EntityType, o: SyncOptions, env: SyncEnv,
                    tables': map<string, Store.Table>, t': Store.Table)
    requires tables' == EntityTables(tables, kind, o, env, MetadataOf(t, kind))
    requires t' == EntityMetadata(t, kind, o, env)
    ensures forall k :: k != kind ==> MetadataOf(t', k) == MetadataOf(t, k)
    ensures forall k :: k != kind ==> Store.TableIn(tables', Scheduler.Name(k)) == Store.TableIn(tables, Scheduler.Name(k))
  {
    forall k | k != kind
      ensures MetadataOf(t', k) == MetadataOf(t, k)
      ensures Store.TableIn(tables', Scheduler.Name(k)) == Store.TableIn(tables, Scheduler.Name(k))
    {
      EntityKeepsOther(tables, t, kind, o, env, tables', t', k);
    }
  }

  /** The batch loop's write of a kind's own table depends only on that table before it. */
  lemma WrittenOwn(t1: map<string, Store.Table>, t2: map<string, Store.Table>, kind: Scheduler.EntityType, rows: seq<Store.Row>, env: SyncEnv)
    requires Store.TableIn(t1, Scheduler.Name(kind)) == Store.TableIn(t2, Scheduler.Name(kind))
    ensures Store.TableIn(Written(t1, kind, rows, env), Scheduler.Name(kind)) == Store.TableIn(Written(t2, kind, rows, env), Scheduler.Name(kind))
  {
  }

  /** `upsertToDatabase`'s write of a kind's own table depends only on that table before it. */
  lemma TablesAfterOwn(t1: map<string, Store.Table>, t2: map<string, Store.Table>, kind: Scheduler.EntityType, data: seq<Js>, env: SyncEnv)
    requires Store.TableIn(t1, Scheduler.Name(kind)) == Store.TableIn(t2, Scheduler.Name(kind))
    ensures Store.TableIn(TablesAfter(t1, kind, data, env), Scheduler.Name(kind)) == Store.TableIn(TablesAfter(t2, kind, data, env), Scheduler.Name(kind))
  {
    var rows := Rows(kind, data, env);
    if rows.Ok? {
      WrittenOwn(t1, t2, kind, rows.value, env);
    }
  }

  /** A kind's own table after its sync depends only on that table before it. */
  lemma EntityTablesOwn(t1: map<string, Store.Table>, t2: map<string, Store.Table>, kind: Scheduler.EntityType, o: SyncOptions, env: SyncEnv, meta: Option<Store.Row>)
    requires Store.TableIn(t1, Scheduler.Name(kind)) == Store.TableIn(t2, Scheduler.Name(kind))
    ensures Store.TableIn(EntityTables(t1, kind, o, env, meta), Scheduler.Name(kind)) == Store.TableIn(EntityTables(t2, kind, o, env, meta), Scheduler.Name(kind))
  {
    var data := Fetched(kind, o, env, meta);
    if env.logRejects(kind).None? && data.Ok? {
      TablesAfterOwn(t1, t2, kind, data.value, env);
    }
  }

  /** A kind's own metadata after its sync depends only on that metadata before it. */
  lemma EntityMetadataOwn(t1: Store.Table, t2: Store.Table, kind: Scheduler.EntityType, o: SyncOptions, env: SyncEnv)
    requires MetadataOf(t1, kind) == MetadataOf(t2, kind)
    ensures MetadataOf(EntityMetadata(t1, kind, o, env), kind) == MetadataOf(EntityMetadata(t2, kind, o, env), kind)
  {
    var attempt := Attempt(kind, o, env, MetadataOf(t1, kind));
    if env.logRejects(kind).None? && attempt.Ok? {
      var record := MetadataRecord(kind, Incremental(o), attempt.value.total, env.row.now);
      assert Store.KeyOf(record, Store.EntityType) == Str(Scheduler.Name(kind));
    }
  }

  /**
   * The store after the kinds of `ran` have been synced from `tables0` and
   * `meta0`: each of them holds the table and metadata its own sync leaves,
   * and every other kind what it held before.
   */
  ghost predicate Ran(tables: map<string, Store.Table>, meta: Store.Table, tables0: map<string, Store.Table>, meta0: Store.Table,
                      ran: seq<Scheduler.EntityType>, o: SyncOptions, env: SyncEnv) {
    forall k :: RanAt(tables, meta, tables0, meta0, ran, o, env, k)
  }

  /** `Ran` for one kind. */
  ghost predicate RanAt(tables: map<string, Store.Table>, meta: Store.Table, tables0: map<string, Store.Table>, meta0: Store.Table,
                        ran: seq<Scheduler.EntityType>, o: SyncOptions, env: SyncEnv, k: Scheduler.EntityType) {
      && (k in ran ==>
            && Store.TableIn(tables, Scheduler.Name(k)) == Store.TableIn(EntityTables(tables0, k, o, env, MetadataOf(meta0, k)), Scheduler.Name(k))
            && MetadataOf(meta, k) == MetadataOf(EntityMetadata(meta0, k, o, env), k))
      && (k !in ran ==>
            && Store.TableIn(tables, Scheduler.Name(k)) == Store.TableIn(tables0, Scheduler.Name(k))
            && MetadataOf(meta, k) == MetadataOf(meta0, k))
  }

  /** Syncing one more kind, not synced before, extends `Ran` by that kind. */
  lemma RanStep(tables: map<string, Store.Table>, meta: Store.Table, tables0: map<string, Store.Table>, meta0: Store.Table,
                ran: seq<Scheduler.EntityType>, kind: Scheduler.EntityType, o: SyncOptions, env: SyncEnv,
                tables': map<string, Store.Table>, meta': Store.Table)
    requires Ran(tables, meta, tables0, meta0, ran, o, env) && kind !in ran
    requires tables' == EntityTables(tables, kind, o, env, MetadataOf(meta, kind))
    requires meta' == EntityMetadata(meta, kind, o, env)
    ensures Ran(tables', meta', tables0, meta0, ran + [kind], o, env)
  {
    forall k ensures RanAt(tables', meta', tables0, meta0, ran + [kind], o, env, k) {
      if k == kind {
        RanAtOwn(tables, meta, tables0, meta0, ran, kind, o, env, tables', meta');
      } else {
        RanAtOther(tables, meta, tables0, meta0, ran, kind, o, env, tables', meta', k);
      }
    }
  }

  /** The kind just synced holds what its own sync leaves. */
  lemma RanAtOwn(tables: map<string, Store.Table>, meta: Store.Table, tables0: map<string, Store.Table>, meta0: Store.Table,
                 ran: seq<Scheduler.EntityType>, kind: Scheduler.EntityType, o: SyncOptions, env: SyncEnv,
                 tables': map<string, Store.Table>, meta': Store.Table)
    requires RanAt(tables, meta, tables0, meta0, ran, o, env, kind) && kind !in ran
    requires tables' == EntityTables(tables, kind, o, env, MetadataOf(meta, kind))
    requires meta' == EntityMetadata(meta, kind, o, env)
    ensures RanAt(tables', meta', tables0, meta0, ran + [kind], o, env, kind)
  {
    assert kind in ran + [kind];
    EntityTablesOwn(tables, tables0, kind, o, env, MetadataOf(meta0, kind));
    EntityMetadataOwn(meta, meta0, kind, o, env);
  }

  /** Any other kind keeps what `Ran` said of it. */
  lemma RanAtOther(tables: map<string, Store.Table>, meta: Store.Table, tables0: map<string, Store.Table>, meta0: Store.Table,
                   ran: seq<Scheduler.EntityType>, kind: Scheduler.EntityType, o: SyncOptions, env: SyncEnv,
                   tables': map<string, Store.Table>, meta': Store.Table, k: Scheduler.EntityType)
    requires RanAt(tables, meta, tables0, meta0, ran, o, env, k) && k != kind
    requires tables' == EntityTables(tables, kind, o, env, MetadataOf(meta, kind))
    requires meta' == EntityMetadata(meta, kind, o, env)
    ensures RanAt(tables', meta', tables0, meta0, ran + [kind], o, env, k)
  {
    assert k in ran + [kind] <==> k in ran;
    EntityKeepsOther(tables, meta, kind, o, env, tables', meta', k);
  }

  /** Syncing one kind leaves another kind's table and metadata as they were. */
  lemma EntityKeepsOther(tables: map<string, Store.Table>, t: Store.Table, kind: Scheduler.EntityType, o: SyncOptions, env: SyncEnv,
                         tables': map<string, Store.Table>, t': Store.Table, k: Scheduler.EntityType)
    requires tables' == EntityTables(tables, kind, o, env, MetadataOf(t, kind))
    requires t' == EntityMetadata(t, kind, o, env)
    requires k != kind
    ensures MetadataOf(t', k) == MetadataOf(t, k)
    ensures Store.TableIn(tables', Scheduler.Name(k)) == Store.TableIn(tables, Scheduler.Name(k))
  {
    var attempt := Attempt(kind, o, env, MetadataOf(t, kind));
    if env.logRejects(kind).None? && attempt.Ok? {
      MetadataOfOthers(t, MetadataRecord(kind, Incremental(o), attempt.value.total, env.row.now), kind, k);
    }
    EntityTablesOthers(tables, kind, o, env, MetadataOf(t, kind), k);
  }

  /** The journal entries a run appends: one per synced kind whose entry could be opened, in order. */
  function RunLog(ran: seq<Scheduler.EntityType>, o: SyncOptions, env: SyncEnv, meta0: Store.Table): seq<Store.Row> {
    if ran == [] then []
    else
      var kind := ran[|ran| - 1];
      RunLog(ran[..|ran| - 1], o, env, meta0) + EntityLog(kind, o, env, MetadataOf(meta0, kind))
  }

  /**
   * `sync(options)`: the requested kinds (with their direct dependencies
   * unless switched off) sorted by their dependencies, then synced in
   * that order. The results are those of `RunResults`; the kinds that
   * ran hold the table and metadata their own sync leaves, every other
   * kind (outside the order, or after a stop) keeps its own, and the
   * journal gains the entries of the kinds that ran.
   */
  method Sync(db: Store.Database, o: SyncOptions, env: SyncEnv) returns (results: seq<SyncResult>, order: seq<Scheduler.EntityType>)
    modifies db
    ensures Seqs.NoDup(order)
    ensures forall k :: k in order <==> k in Planned(o)
    ensures Scheduler.DepsBefore(Planned(o), order)
    ensures results == RunResults(order, o, env, old(db.syncMetadata)) && |results| <= |order|
    ensures Ran(db.tables, db.syncMetadata, old(db.tables), old(db.syncMetadata), order[..|results|], o, env)
    ensures db.syncLogs == old(db.syncLogs) + RunLog(order[..|results|], o, env, old(db.syncMetadata))
    ensures db.cardTags == old(db.cardTags)
  {
    var entities := Requested(o);
    if ResolvesDependencies(o) {
      entities := Scheduler.ResolveDependencies(entities);
    }
    order := Scheduler.TopologicalSort(entities);
    results := RunOrder(db, order, o, env);
  }

  /** The loop of `sync`: the kinds in order, stopping after the first foundational kind that fails. */
  method RunOrder(db: Store.Database, order: seq<Scheduler.EntityType>, o: SyncOptions, env: SyncEnv) returns (results: seq<SyncResult>)
    requires Seqs.NoDup(order)
    modifies db
    ensures results == RunResults(order, o, env, old(db.syncMetadata)) && |results| <= |order|
    ensures Ran(db.tables, db.syncMetadata, old(db.tables), old(db.syncMetadata), order[..|results|], o, env)
    ensures db.syncLogs == old(db.syncLogs) + RunLog(order[..|results|], o, env, old(db.syncMetadata))
    ensures db.cardTags == old(db.cardTags)
  {
    ghost var meta0 := db.syncMetadata;
    ghost var tables0 := db.tables;
    ghost var logs0 := db.syncLogs;
    results := [];
    var i := 0;
    assert order[i..] == order;
    while i < |order|
      invariant 0 <= i <= |order| && |results| == i
      invariant results + RunResults(order[i..], o, env, meta0) == RunResults(order, o, env, meta0)
      invariant Ran(db.tables, db.syncMetadata, tables0, meta0, order[..i], o, env)
      invariant db.syncLogs == logs0 + RunLog(order[..i], o, env, meta0)
      invariant db.cardTags == old(db.cardTags)
    {
      var kind := order[i];
      var out := SyncNext(db, order, i, o, env, tables0, meta0, logs0, results);
      results := results + [Recorded(kind, out)];
      if Stops(kind, out) {
        return;
      }
      i := i + 1;
    }
    assert order[i..] == [];
  }

  /** The result of one more kind either completes the run's results or leaves the rest of the order to run. */
  lemma ResultsStep(results: seq<SyncResult>, order: seq<Scheduler.EntityType>, i: nat, o: SyncOptions, env: SyncEnv, meta0: Store.Table, out: Outcome)
    requires i < |order| && results + RunResults(order[i..], o, env, meta0) == RunResults(order, o, env, meta0)
    requires out == OutcomeIn(order[i], o, env, meta0)
    ensures Stops(order[i], out) ==> results + [Recorded(order[i], out)] == RunResults(order, o, env, meta0)
    ensures !Stops(order[i], out) ==> (results + [Recorded(order[i], out)]) + RunResults(order[i + 1..], o, env, meta0) == RunResults(order, o, env, meta0)
  {
    RunResultsStep(order, i, o, env, meta0);
    Seqs.ConsStep(results, RunResults(order, o, env, meta0), RunResults(order[i..], o, env, meta0),
                  Recorded(order[i], out), Stops(order[i], out), RunResults(order[i + 1..], o, env, meta0));
  }

  /** One turn of the loop: `syncEntity(order[i])`, which extends the store's state by that kind. */
  method SyncNext(db: Store.Database, order: seq<Scheduler.EntityType>, i: nat, o: SyncOptions, env: SyncEnv,
                  ghost tables0: map<string, Store.Table>, ghost meta0: Store.Table, ghost logs0: seq<Store.Row>, ghost results: seq<SyncResult>)
    returns (out: Outcome)
    requires i < |order| && order[i] !in order[..i]
    requires results + RunResults(order[i..], o, env, meta0) == RunResults(order, o, env, meta0)
    requires Ran(db.tables, db.syncMetadata, tables0, meta0, order[..i], o, env)
    requires db.syncLogs == logs0 + RunLog(order[..i], o, env, meta0)
    modifies db
    ensures out == OutcomeIn(order[i], o, env, meta0)
    ensures Stops(order[i], out) ==> results + [Recorded(order[i], out)] == RunResults(order, o, env, meta0)
    ensures !Stops(order[i], out) ==> (results + [Recorded(order[i], out)]) + RunResults(order[i + 1..], o, env, meta0) == RunResults(order, o, env, meta0)
    ensures Ran(db.tables, db.syncMetadata, tables0, meta0, order[..i + 1], o, env)
    ensures db.syncLogs == logs0 + RunLog(order[..i + 1], o, env, meta0)
    ensures db.cardTags == old(db.cardTags)
  {
    var kind := order[i];
    ghost var before := db.syncMetadata;
    ghost var tablesBefore := db.tables;
    ghost var logsBefore := db.syncLogs;
    assert RanAt(tablesBefore, before, tables0, meta0, order[..i], o, env, kind);
    assert MetadataOf(before, kind) == MetadataOf(meta0, kind);
    out := SyncEntity(db, kind, o, env);
    RanStep(tablesBefore, before, tables0, meta0, order[..i], kind, o, env, db.tables, db.syncMetadata);
    Seqs.PrefixStep(order, i);
    RunLogStep(order, i, o, env, meta0, logs0, logsBefore, db.syncLogs);
    ResultsStep(results, order, i, o, env, meta0, out);
  }

  /** One more kind's journal entry extends the run's journal. */
  lemma RunLogStep(order: seq<Scheduler.EntityType>, i: nat, o: SyncOptions, env: SyncEnv, meta0: Store.Table,
                   logs0: seq<Store.Row>, before: seq<Store.Row>, after: seq<Store.Row>)
    requires i < |order|
    requires before == logs0 + RunLog(order[..i], o, env, meta0)
    requires after == before + EntityLog(order[i], o, env, MetadataOf(meta0, order[i]))
    ensures after == logs0 + RunLog(order[..i + 1], o, env, meta0)
  {
    var ran := order[..i + 1];
    assert ran[..|ran| - 1] == order[..i] && ran[|ran| - 1] == order[i];
  }
}
