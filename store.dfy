/**
 * The database the sync engine and the webhook write to, as an abstract
 * store: the `kaiten` tables keyed by `id`, the `card_tags` link rows,
 * the `sync_logs` journal (ids assigned in insertion order) and the
 * `sync_metadata` rows keyed by `entity_type`.
 */
module Store {
  import opened JsValue
  import Seqs

  /**
   * The columns of the tables the system writes; each stands for the
   * snake_case column of the same name (`SpaceId` for `space_id`).
   */
  datatype Column =
    // the base columns of every `kaiten` table
    | Id | Uid | SyncedAt | PayloadHash | RawPayload
    // cards
    | Title | Description | SpaceId | BoardId | ColumnId | LaneId | TypeId | OwnerId | CreatorId | State
    | Archived | Blocked | SizeText | DueDate | TimeSpentSum | TimeBlockedSum | StartedAt | CompletedAt
    | Properties | TagsCache | ParentsIds | ChildrenIds | MembersIds | EstimateWorkload
    | KaitenCreatedAt | KaitenUpdatedAt
    // spaces, boards, columns
    | CompanyId | OwnerUserId | SortOrder | BoardType | ColumnType | WipLimit
    // users
    | FullName | Email | Username | Timezone | Role | IsAdmin | TakeLicence | AppsPermissions | Locked | LastRequestDate
    // card types, tags, property definitions
    | Name | IconUrl | Color | GroupName | FieldType | SelectOptions
    // time logs
    | CardId | UserId | RoleId | TimeSpentMinutes | Date | Comment | CreatedAt | UpdatedAt
    // sync_logs and sync_metadata
    | EntityType | SyncType | Status | RecordsProcessed | RecordsCreated | RecordsUpdated | RecordsSkipped
    | Total | ErrorMessage | DurationMs | Metadata | TotalRecords | LastIncrementalSyncAt | LastFullSyncAt

  /** A table row: column to value. */
  type Row = map<Column, Js>

  /** A table, keyed by the value of its conflict column. */
  type Table = map<Js, Row>

  /**
   * The row one object upserted on its own writes: no column for a
   * property whose value is `undefined`, as the request body leaves it out.
   */
  function RowOf(fields: map<Column, Js>): (r: Row)
    ensures forall c :: c in r <==> c in fields && fields[c] != Undefined
    ensures forall c :: c in r ==> r[c] == fields[c]
  {
    map c | c in fields && fields[c] != Undefined :: fields[c]
  }

  /** The value of the conflict column, `null` when the row has none. */
  function KeyOf(row: Row, key: Column): Js {
    if key in row then row[key] else Null
  }

  /**
   * `upsert(row, { onConflict: key })`: a row with a new key is inserted;
   * a row whose key is present has its columns written over the stored
   * row, whose other columns stay.
   */
  function UpsertRow(t: Table, row: Row, key: Column): (r: Table)
    ensures KeyOf(row, key) in r
    ensures forall c :: c in row ==> c in r[KeyOf(row, key)] && r[KeyOf(row, key)][c] == row[c]
    ensures KeyOf(row, key) in t ==> forall c :: c in t[KeyOf(row, key)] && c !in row ==> c in r[KeyOf(row, key)] && r[KeyOf(row, key)][c] == t[KeyOf(row, key)][c]
    ensures KeyOf(row, key) !in t ==> r[KeyOf(row, key)] == row
    ensures forall id :: id != KeyOf(row, key) ==> (id in r <==> id in t) && (id in t ==> r[id] == t[id])
  {
    var id := KeyOf(row, key);
    t[id := if id in t then t[id] + row else row]
  }

  /** Upserting the same row twice is upserting it once. */
  lemma UpsertRowIdempotent(t: Table, row: Row, key: Column)
    ensures UpsertRow(UpsertRow(t, row, key), row, key) == UpsertRow(t, row, key)
  {
    var id := KeyOf(row, key);
    var once := UpsertRow(t, row, key);
    assert once[id] + row == once[id];
  }

  /** Rows already in the form the database receives, written one after another. */
  function UpsertAll(t: Table, rows: seq<Row>, key: Column): Table {
    if rows == [] then t else UpsertRow(UpsertAll(t, rows[..|rows| - 1], key), rows[|rows| - 1], key)
  }

  /** Writing two lists of rows one after the other is writing their concatenation. */
  lemma {:induction false} UpsertAllAppend(t: Table, a: seq<Row>, b: seq<Row>, key: Column)
    ensures UpsertAll(UpsertAll(t, a, key), b, key) == UpsertAll(t, a + b, key)
    decreases |b|
  {
    if b == [] {
      assert a + b == a;
    } else {
      var init := b[..|b| - 1];
      UpsertAllAppend(t, a, init, key);
      assert (a + b)[..|a + b| - 1] == a + init;
    }
  }

  /**
   * The `columns` list of an array upsert: supabase-js collects the keys
   * of every object in the array, the keys of `undefined` values included.
   */
  function BatchColumns(objs: seq<Row>): set<Column> {
    if objs == [] then {} else objs[0].Keys + BatchColumns(objs[1..])
  }

  /** The column list is exactly the keys some object of the array has. */
  lemma {:induction false} BatchColumnsListed(objs: seq<Row>)
    ensures forall c :: c in BatchColumns(objs) <==> exists i :: 0 <= i < |objs| && c in objs[i]
  {
    if objs != [] {
      BatchColumnsListed(objs[1..]);
      assert forall i :: 1 <= i < |objs| ==> objs[i] == objs[1..][i - 1];
    }
  }

  /** Objects with the same keys list exactly those keys. */
  lemma {:induction false} SameColumnsListed(objs: seq<Row>)
    requires SameColumns(objs) && objs != []
    ensures BatchColumns(objs) == objs[0].Keys
  {
    if |objs| > 1 {
      var rest := objs[1..];
      assert forall i :: 0 <= i < |rest| ==> rest[i] == objs[i + 1];
      SameColumnsListed(rest);
    }
  }

  /**
   * The rows an array upsert writes: every object gets every column of
   * the batch's list, with its own value where it holds a defined one and
   * NULL where the key is missing or the value is `undefined` (which the
   * request body leaves out).
   */
  function SentRows(objs: seq<Row>): (r: seq<Row>)
    ensures |r| == |objs|
  {
    seq(|objs|, i requires 0 <= i < |objs| => Sent(objs[i], BatchColumns(objs)))
  }

  /**
   * Each object of an array upsert is written with every column some
   * object of the array has: its own value where it holds a defined one,
   * NULL otherwise.
   */
  lemma SentRowsValues(objs: seq<Row>)
    ensures forall i, c :: 0 <= i < |objs| ==> (c in SentRows(objs)[i] <==> exists j :: 0 <= j < |objs| && c in objs[j])
    ensures forall i, c :: 0 <= i < |objs| && c in objs[i] && objs[i][c] != Undefined ==> SentRows(objs)[i][c] == objs[i][c]
    ensures forall i, c :: 0 <= i < |objs| && c in SentRows(objs)[i] && !(c in objs[i] && objs[i][c] != Undefined) ==>
      SentRows(objs)[i][c] == Null
  {
    BatchColumnsListed(objs);
  }

  /** One object written over the column list `columns`. */
  function Sent(obj: Row, columns: set<Column>): Row {
    map c | c in columns :: if c in obj && obj[c] != Undefined then obj[c] else Null
  }

  /** `upsert(objs, { onConflict: key })` with an array: the sent rows, one after another. */
  function UpsertArray(t: Table, objs: seq<Row>, key: Column): Table {
    UpsertAll(t, SentRows(objs), key)
  }

  /** Every object of the list has the same keys. */
  predicate SameColumns(objs: seq<Row>) {
    forall i, j :: 0 <= i < |objs| && 0 <= j < |objs| ==> objs[i].Keys == objs[j].Keys
  }

  /** Objects with the same keys are sent alike whether they travel together or in two arrays. */
  lemma SentRowsAppend(a: seq<Row>, b: seq<Row>)
    requires SameColumns(a + b)
    ensures SentRows(a + b) == SentRows(a) + SentRows(b)
  {
    var ab := a + b;
    if a == [] {
      assert ab == b;
    } else if b == [] {
      assert ab == a;
    } else {
      assert ab[0..|a|] == a && ab[|a|..|ab|] == b;
      SameColumnsSlice(ab, 0, |a|);
      SameColumnsSlice(ab, |a|, |ab|);
      SentRowsSlice(ab, 0, |a|);
      SentRowsSlice(ab, |a|, |ab|);
      var whole := SentRows(ab);
      assert whole == whole[0..|a|] + whole[|a|..|ab|];
    }
  }

  /** A non-empty slice of objects with the same keys lists the same columns as the whole. */
  lemma SameColumnsSlice(objs: seq<Row>, lo: nat, hi: nat)
    requires SameColumns(objs) && lo < hi <= |objs|
    ensures BatchColumns(objs[lo..hi]) == BatchColumns(objs)
  {
    var part := objs[lo..hi];
    assert forall i :: 0 <= i < |part| ==> part[i] == objs[lo + i];
    SameColumnsListed(objs);
    SameColumnsListed(part);
  }

  /** A slice listing the same columns as the whole is sent as the whole sends it. */
  lemma SentRowsSlice(objs: seq<Row>, lo: nat, hi: nat)
    requires lo <= hi <= |objs| && BatchColumns(objs[lo..hi]) == BatchColumns(objs)
    ensures SentRows(objs)[lo..hi] == SentRows(objs[lo..hi])
  {
    var part := objs[lo..hi];
    var whole := SentRows(objs);
    var sub := SentRows(part);
    forall i | 0 <= i < hi - lo
      ensures whole[lo + i] == sub[i]
    {
      assert whole[lo + i] == Sent(objs[lo + i], BatchColumns(objs));
      assert sub[i] == Sent(part[i], BatchColumns(part));
    }
    assert whole[lo..hi] == sub;
  }

  /** Objects with the same keys: two array upserts in turn are one upsert of their concatenation. */
  lemma UpsertArrayAppend(t: Table, a: seq<Row>, b: seq<Row>, key: Column)
    requires SameColumns(a + b)
    ensures UpsertArray(UpsertArray(t, a, key), b, key) == UpsertArray(t, a + b, key)
  {
    SentRowsAppend(a, b);
    UpsertAllAppend(t, SentRows(a), SentRows(b), key);
  }

  /**
   * When every object has the same keys, upserting the batches one by one
   * is upserting their concatenation in one array.
   */
  lemma {:induction false} UpsertBatches(t: Table, batches: seq<seq<Row>>, key: Column)
    requires SameColumns(Seqs.Flatten(batches))
    ensures UpsertArray(t, Seqs.Flatten(batches), key) == UpsertBatchList(t, batches, key)
  {
    if batches != [] {
      var init := batches[..|batches| - 1];
      var last := batches[|batches| - 1];
      assert batches == init + [last];
      Seqs.FlattenAppend(init, last);
      var all := Seqs.Flatten(init) + last;
      assert forall i :: 0 <= i < |Seqs.Flatten(init)| ==> Seqs.Flatten(init)[i] == all[i];
      UpsertBatches(t, init, key);
      UpsertArrayAppend(t, Seqs.Flatten(init), last, key);
    }
  }

  /**
   * Batch boundaries matter when the objects differ in their keys: card 1
   * with a title and card 2 without one, sent together, clear card 2's
   * stored title; sent in two arrays, card 2 keeps it.
   */
  lemma BatchBoundaryMatters()
    ensures var t := map[Num(2) := map[Id := Num(2), Title := Str("old")]];
      var a := [map[Id := Num(1), Title := Str("new")]];
      var b := [map[Id := Num(2)]];
      && UpsertArray(t, a + b, Id)[Num(2)][Title] == Null
      && UpsertArray(UpsertArray(t, a, Id), b, Id)[Num(2)][Title] == Str("old")
  {
    var t := map[Num(2) := map[Id := Num(2), Title := Str("old")]];
    var oa: Row := map[Id := Num(1), Title := Str("new")];
    var ob: Row := map[Id := Num(2)];
    SentTogether(t, oa, ob);
    SentApart(t, oa, ob);
  }

  /** Card 2 sent in one array with a card that has a title: its title is cleared. */
  lemma SentTogether(t: Table, oa: Row, ob: Row)
    requires oa == map[Id := Num(1), Title := Str("new")] && ob == map[Id := Num(2)]
    ensures Num(2) in UpsertArray(t, [oa] + [ob], Id) && Title in UpsertArray(t, [oa] + [ob], Id)[Num(2)]
    ensures UpsertArray(t, [oa] + [ob], Id)[Num(2)][Title] == Null
  {
    var objs := [oa] + [ob];
    var sent := SentRows(objs);
    assert objs[0] == oa && objs[1] == ob && objs[1..] == [ob] && [ob][1..] == [];
    assert BatchColumns([ob]) == ob.Keys + BatchColumns([]);
    assert BatchColumns(objs) == oa.Keys + BatchColumns([ob]);
    assert oa.Keys == {Id, Title} && ob.Keys == {Id};
    assert sent[1] == Sent(ob, {Id, Title});
    assert Title in sent[1] && sent[1][Title] == Null && KeyOf(sent[1], Id) == Num(2);
    UpsertAllPair(t, sent[0], sent[1]);
    assert sent == [sent[0], sent[1]];
  }

  /** Card 2 sent alone after the other card: the stored title stays. */
  lemma SentApart(t: Table, oa: Row, ob: Row)
    requires oa == map[Id := Num(1), Title := Str("new")] && ob == map[Id := Num(2)]
    requires t == map[Num(2) := map[Id := Num(2), Title := Str("old")]]
    ensures Num(2) in UpsertArray(UpsertArray(t, [oa], Id), [ob], Id)
    ensures Title in UpsertArray(UpsertArray(t, [oa], Id), [ob], Id)[Num(2)]
    ensures UpsertArray(UpsertArray(t, [oa], Id), [ob], Id)[Num(2)][Title] == Str("old")
  {
    var sa := SentRows([oa]);
    var sb := SentRows([ob]);
    assert sa == [sa[0]] && sb == [sb[0]];
    assert [ob][1..] == [];
    assert BatchColumns([ob]) == ob.Keys + BatchColumns([]);
    assert sb[0] == Sent(ob, {Id});
    assert KeyOf(sa[0], Id) == Num(1) && KeyOf(sb[0], Id) == Num(2);
    UpsertAllOne(t, sa[0]);
    var t1 := UpsertRow(t, sa[0], Id);
    assert Num(2) in t1 && t1[Num(2)] == t[Num(2)];
    UpsertAllOne(t1, sb[0]);
    var apart := UpsertRow(t1, sb[0], Id);
    assert apart[Num(2)] == t1[Num(2)] + sb[0];
  }

  /** Writing a list of one row is writing that row. */
  lemma UpsertAllOne(t: Table, row: Row)
    ensures UpsertAll(t, [row], Id) == UpsertRow(t, row, Id)
  {
    assert [row][..0] == [];
  }

  /** Writing a list of two rows is writing the first, then the second. */
  lemma UpsertAllPair(t: Table, r1: Row, r2: Row)
    ensures UpsertAll(t, [r1, r2], Id) == UpsertRow(UpsertRow(t, r1, Id), r2, Id)
  {
    assert [r1, r2][..1] == [r1];
    UpsertAllOne(t, r1);
  }

  function UpsertBatchList(t: Table, batches: seq<seq<Row>>, key: Column): Table {
    if batches == [] then t
    else UpsertArray(UpsertBatchList(t, batches[..|batches| - 1], key), batches[|batches| - 1], key)
  }

  /** One more batch: the list of batches up to `b` is the one before it followed by batch `b`. */
  lemma UpsertBatchListStep(t: Table, batches: seq<seq<Row>>, b: nat, key: Column)
    requires b < |batches|
    ensures UpsertBatchList(t, batches[..b + 1], key) == UpsertArray(UpsertBatchList(t, batches[..b], key), batches[b], key)
  {
    assert batches[..b + 1][..b] == batches[..b];
  }

  /** Every upserted key is present afterwards, and nothing else is added. */
  lemma {:induction false} UpsertAllKeys(t: Table, rows: seq<Row>, key: Column)
    ensures forall id :: id in UpsertAll(t, rows, key) <==> id in t || exists i :: 0 <= i < |rows| && KeyOf(rows[i], key) == id
  {
    if rows != [] {
      var init := rows[..|rows| - 1];
      UpsertAllKeys(t, init, key);
      assert forall i :: 0 <= i < |init| ==> init[i] == rows[i];
    }
  }

  /** `update(patch).eq(key, id)`: the patch is written over the row with that key, if there is one. */
  function UpdateWhere(t: Table, id: Js, patch: Row): (r: Table)
    ensures id in t ==> r == t[id := t[id] + patch]
    ensures id !in t ==> r == t
  {
    if id in t then t[id := t[id] + patch] else t
  }

  /** The table of that name; a table never written to is empty. */
  function TableIn(tables: map<string, Table>, name: string): Table {
    if name in tables then tables[name] else map[]
  }

  /** The tables after `b` batches have been written to table `name`; none written, none changed. */
  function AfterBatches(tables: map<string, Table>, name: string, batches: seq<seq<Row>>, b: nat): map<string, Table>
    requires b <= |batches|
  {
    if b == 0 then tables else tables[name := UpsertBatchList(TableIn(tables, name), batches[..b], Id)]
  }

  /** Writing batch `b` over the tables after the first `b` batches gives the tables after `b + 1`. */
  lemma UpsertBatchesStep(tables: map<string, Table>, name: string, batches: seq<seq<Row>>, b: nat, pre: map<string, Table>, post: map<string, Table>)
    requires b < |batches| && pre == AfterBatches(tables, name, batches, b)
    requires post == pre[name := UpsertArray(TableIn(pre, name), batches[b], Id)]
    ensures post == AfterBatches(tables, name, batches, b + 1)
  {
    var t0 := TableIn(tables, name);
    UpsertBatchListStep(t0, batches, b, Id);
    if b == 0 {
      assert batches[..0] == [];
    } else {
      assert TableIn(pre, name) == UpsertBatchList(t0, batches[..b], Id);
    }
  }

  /** The link rows of `card_tags`: `(card_id, tag_id)`. */
  type Link = (Js, Js)

  /** The condition `.eq('card_id', cardId)` selects. */
  function OfCard(cardId: Js): Link -> bool {
    (l: Link) => l.0 == cardId
  }

  /** The links a `.delete().eq('card_id', cardId)` leaves. */
  function OtherCard(cardId: Js): Link -> bool {
    (l: Link) => l.0 != cardId
  }

  class Database {
    /** The `kaiten` schema, by table name. */
    var tables: map<string, Table>
    /** `kaiten.card_tags` */
    var cardTags: seq<Link>
    /** `sync_logs`; the row at index `i` has id `i + 1`. */
    var syncLogs: seq<Row>
    /** `sync_metadata`, keyed by `entity_type`. */
    var syncMetadata: Table

    constructor ()
      ensures tables == map[] && cardTags == [] && syncLogs == [] && syncMetadata == map[]
    {
      tables := map[];
      cardTags := [];
      syncLogs := [];
      syncMetadata := map[];
    }

    function TableNamed(name: string): Table
      reads this
    {
      TableIn(tables, name)
    }

    /** `schema('kaiten').from(name).upsert(objs, { onConflict: 'id' })` with an array of objects */
    method Upsert(name: string, objs: seq<Row>)
      modifies this
      ensures tables == old(tables)[name := UpsertArray(old(TableNamed(name)), objs, Id)]
      ensures cardTags == old(cardTags) && syncLogs == old(syncLogs) && syncMetadata == old(syncMetadata)
    {
      tables := tables[name := UpsertArray(TableNamed(name), objs, Id)];
    }

    /** `schema('kaiten').from(name).upsert(row, { onConflict: 'id' })` with one object, sent as `row` */
    method UpsertObject(name: string, row: Row)
      modifies this
      ensures tables == old(tables)[name := UpsertRow(old(TableNamed(name)), row, Id)]
      ensures cardTags == old(cardTags) && syncLogs == old(syncLogs) && syncMetadata == old(syncMetadata)
    {
      tables := tables[name := UpsertRow(TableNamed(name), row, Id)];
    }

    /** `schema('kaiten').from(name).update(patch).eq('id', id)` */
    method Update(name: string, id: Js, patch: Row)
      modifies this
      ensures tables == old(tables)[name := UpdateWhere(old(TableNamed(name)), id, patch)]
      ensures cardTags == old(cardTags) && syncLogs == old(syncLogs) && syncMetadata == old(syncMetadata)
    {
      tables := tables[name := UpdateWhere(TableNamed(name), id, patch)];
    }

    /** `from('card_tags').delete().eq('card_id', cardId)` */
    method DeleteCardTags(cardId: Js)
      modifies this
      ensures cardTags == Seqs.Filter(old(cardTags), OtherCard(cardId))
      ensures tables == old(tables) && syncLogs == old(syncLogs) && syncMetadata == old(syncMetadata)
    {
      cardTags := Seqs.Filter(cardTags, OtherCard(cardId));
    }

    /** `from('card_tags').insert(links)` */
    method InsertCardTags(links: seq<Link>)
      modifies this
      ensures cardTags == old(cardTags) + links
      ensures tables == old(tables) && syncLogs == old(syncLogs) && syncMetadata == old(syncMetadata)
    {
      cardTags := cardTags + links;
    }

    /** `from('sync_logs').insert(row).select('id')`: the id of the new row. */
    method InsertLog(row: Row) returns (id: nat)
      modifies this
      ensures syncLogs == old(syncLogs) + [row] && id == |old(syncLogs)| + 1
      ensures tables == old(tables) && cardTags == old(cardTags) && syncMetadata == old(syncMetadata)
    {
      syncLogs := syncLogs + [row];
      id := |syncLogs|;
    }

    /** `from('sync_logs').update(patch).eq('id', id)` */
    method UpdateLog(id: nat, patch: Row)
      modifies this
      ensures syncLogs == if 1 <= id <= |old(syncLogs)| then old(syncLogs)[id - 1 := old(syncLogs)[id - 1] + patch] else old(syncLogs)
      ensures tables == old(tables) && cardTags == old(cardTags) && syncMetadata == old(syncMetadata)
    {
      if 1 <= id <= |syncLogs| {
        syncLogs := syncLogs[id - 1 := syncLogs[id - 1] + patch];
      }
    }

    /** `from('sync_metadata').upsert(row, { onConflict: 'entity_type' })` */
    method UpsertMetadata(row: Row)
      modifies this
      ensures syncMetadata == UpsertRow(old(syncMetadata), row, EntityType)
      ensures tables == old(tables) && cardTags == old(cardTags) && syncLogs == old(syncLogs)
    {
      syncMetadata := UpsertRow(syncMetadata, row, EntityType);
    }
  }
}
