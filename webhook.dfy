/**
 * The Kaiten webhook endpoint. A request body carries an `event` such as
 * `card.update` and the entity as `data`. The text before the first `.`
 * picks the handler (card, board, space or user) and the text after it the
 * action. Create and update events upsert the entity's row; card events
 * also rebuild the card's tag links; archiving or deleting a card only
 * marks its row archived. Every accepted request then gets a row in
 * `sync_logs`.
 */
module Webhook {
  import opened Wrappers
  import opened Strings
  import opened JsValue
  import Seqs
  import Store
  import Transform
  import PayloadHash

  /** What the endpoint depends on besides the request. */
  datatype Env = Env(
    /** the clock, the digest and date conversion, as the sync transform reads them */
    row: Transform.Env,
    /** the row a create or update event writes (`RecordRow` under `UsesRecordRows`) */
    record: (Entity, Js) -> Result<Store.Row>,
    /** `getServiceSupabaseClient()` returned a client */
    available: bool,
    /** the error an `upsert` or `update` on the named table returns, if any */
    writeError: string -> Option<string>,
    /** the `card_tags` delete returns an error (the code does not look at it) */
    deleteFails: bool,
    /** the `card_tags` insert returns an error (the code does not look at it) */
    insertFails: bool,
    /** the `sync_logs` insert returns an error (the code does not look at it) */
    logFails: bool)

  // ---------------------------------------------------------------------
  // event splitting

  /** `event.split(".")[0]` */
  function EntityOf(event: string): string {
    Split(event, '.')[0]
  }

  /** `event.split(".")[1]`: `undefined` when the event has no `.`. */
  function ActionOf(event: string): Js {
    var parts := Split(event, '.');
    if |parts| > 1 then Str(parts[1]) else Undefined
  }

  /** `entity.action` splits into its entity and its action; an event without `.` has no action. */
  lemma EventParts(entity: string, action: string)
    requires '.' !in entity && '.' !in action
    ensures EntityOf(entity + "." + action) == entity
    ensures ActionOf(entity + "." + action) == Str(action)
    ensures EntityOf(entity) == entity && ActionOf(entity) == Undefined
  {
    SplitAtFirst(entity, '.', action);
    SplitWhole(action, '.');
    SplitWhole(entity, '.');
  }

  /** The entities the endpoint handles. */
  datatype Entity = Card | Board | Space | User

  /** The `switch (entityType)` of `handleWebhookEvent`. */
  function EntityNamed(name: string): (r: Option<Entity>)
    ensures r.Some? <==> name in {"card", "board", "space", "user"}
  {
    if name == "card" then Some(Card)
    else if name == "board" then Some(Board)
    else if name == "space" then Some(Space)
    else if name == "user" then Some(User)
    else None
  }

  function TableOf(e: Entity): string {
    match e
    case Card => "cards"
    case Board => "boards"
    case Space => "spaces"
    case User => "users"
  }

  /** The prefix of the messages. */
  function Label(e: Entity): string {
    match e
    case Card => "Card"
    case Board => "Board"
    case Space => "Space"
    case User => "User"
  }

  function NameOf(e: Entity): string {
    match e
    case Card => "card"
    case Board => "board"
    case Space => "space"
    case User => "user"
  }

  // ---------------------------------------------------------------------
  // rows

  /** The columns every webhook row starts from: the identity, the stamps and the payload. */
  function Stamps(d: Js, now: string, hash: string): Store.Row {
    map[
      Store.Id := Prop(d, "id"),
      Store.Uid := Or(Prop(d, "uid"), Null),
      Store.KaitenUpdatedAt := Str(now),
      Store.SyncedAt := Str(now),
      Store.PayloadHash := Str(hash),
      Store.RawPayload := d]
  }

  /** `row` keeps the stamp columns of `base`. */
  predicate KeepsStamps(base: Store.Row, row: Store.Row) {
    && Transform.Keeps(base, row, Store.Id) && Transform.Keeps(base, row, Store.Uid)
    && Transform.Keeps(base, row, Store.KaitenUpdatedAt) && Transform.Keeps(base, row, Store.SyncedAt)
    && Transform.Keeps(base, row, Store.PayloadHash) && Transform.Keeps(base, row, Store.RawPayload)
  }

  /** The dates a row converts with `new Date(v).toISOString()`. */
  datatype Dates = Dates(dueDate: Js, startedAt: Js, completedAt: Js, lastRequest: Js)

  /** The entity's date conversions, in the order of its object literal; the first that throws is the error. */
  function ConvertDates(e: Entity, d: Js, env: Transform.Env): Result<Dates> {
    match e
    case Card =>
      var dueDate :- Transform.IsoOrNull(Prop(d, "due_date"), env);
      var startedAt :- Transform.IsoOrNull(Prop(d, "started_at"), env);
      var completedAt :- Transform.IsoOrNull(Prop(d, "completed_at"), env);
      Ok(Dates(dueDate, startedAt, completedAt, Null))
    case User =>
      var lastRequest :- Transform.IsoOrNull(Prop(d, "last_request_date"), env);
      Ok(Dates(Null, Null, Null, lastRequest))
    case _ => Ok(Dates(Null, Null, Null, Null))
  }

  /** `cardData` from `title` to `type_id`. */
  function CardPlace(d: Js, base: Store.Row): (r: Store.Row)
    ensures KeepsStamps(base, r)
  {
    base
      [Store.Title := Prop(d, "title")]
      [Store.Description := Or(Prop(d, "description"), Null)]
      [Store.SpaceId := Or(Prop(d, "space_id"), Null)]
      [Store.BoardId := Prop(d, "board_id")]
      [Store.ColumnId := Prop(d, "column_id")]
      [Store.LaneId := Or(Prop(d, "lane_id"), Null)]
      [Store.TypeId := Or(Prop(d, "type_id"), Null)]
  }

  /** `cardData` from `owner_id` to `size_text`. */
  function CardState(d: Js, base: Store.Row): (r: Store.Row)
    ensures KeepsStamps(base, r) && Transform.Keeps(base, r, Store.SpaceId)
  {
    base
      [Store.OwnerId := Transform.OwnerIdOf(d)]
      [Store.CreatorId := Or(Prop(d, "creator_id"), Null)]
      [Store.State := Or(Prop(d, "state"), Null)]
      [Store.Archived := Or(Prop(d, "archived"), Bool(false))]
      [Store.Blocked := Or(Prop(d, "blocked"), Bool(false))]
      [Store.SizeText := Or(Prop(d, "size_text"), Null)]
  }

  /** `cardData` from `due_date` to `tags_cache`. */
  function CardTail(d: Js, base: Store.Row, dates: Dates): (r: Store.Row)
    ensures KeepsStamps(base, r) && Transform.Keeps(base, r, Store.SpaceId) && Transform.Keeps(base, r, Store.OwnerId)
    ensures Transform.Keeps(base, r, Store.Archived) && Transform.Keeps(base, r, Store.Blocked)
  {
    base
      [Store.DueDate := dates.dueDate]
      [Store.TimeSpentSum := Or(Prop(d, "time_spent_sum"), Num(0))]
      [Store.TimeBlockedSum := Or(Prop(d, "time_blocked_sum"), Num(0))]
      [Store.StartedAt := dates.startedAt]
      [Store.CompletedAt := dates.completedAt]
      [Store.Properties := Or(Prop(d, "properties"), Obj([]))]
      [Store.TagsCache := Or(Prop(d, "tags"), Arr([]))]
  }

  /** `boardData` over the stamps. */
  function BoardColumns(d: Js, base: Store.Row): (r: Store.Row)
    ensures KeepsStamps(base, r)
  {
    base
      [Store.SpaceId := Prop(d, "space_id")]
      [Store.Title := Prop(d, "title")]
      [Store.Description := Or(Prop(d, "description"), Null)]
      [Store.BoardType := Or(Prop(d, "board_type"), Null)]
      [Store.Archived := Or(Prop(d, "archived"), Bool(false))]
      [Store.SortOrder := Or(Prop(d, "sort_order"), Null)]
  }

  /** `spaceData` over the stamps. */
  function SpaceColumns(d: Js, base: Store.Row): (r: Store.Row)
    ensures KeepsStamps(base, r)
  {
    base
      [Store.Title := Prop(d, "title")]
      [Store.CompanyId := Or(Prop(d, "company_id"), Null)]
      [Store.OwnerUserId := Or(Prop(d, "owner_user_id"), Null)]
      [Store.Archived := Or(Prop(d, "archived"), Bool(false))]
      [Store.SortOrder := Or(Prop(d, "sort_order"), Null)]
  }

  /** `userData` over the stamps. */
  function UserColumns(d: Js, base: Store.Row, lastRequest: Js): (r: Store.Row)
    ensures KeepsStamps(base, r)
  {
    base
      [Store.FullName := Or(Prop(d, "full_name"), Null)]
      [Store.Email := Or(Prop(d, "email"), Null)]
      [Store.Username := Or(Prop(d, "username"), Null)]
      [Store.Timezone := Or(Prop(d, "timezone"), Null)]
      [Store.Role := Or(Prop(d, "role"), Null)]
      [Store.IsAdmin := Or(Prop(d, "is_admin"), Bool(false))]
      [Store.LastRequestDate := lastRequest]
  }

  /** The entity's own columns over the stamps. */
  function EntityColumns(e: Entity, d: Js, base: Store.Row, dates: Dates): Store.Row {
    match e
    case Card => CardTail(d, CardState(d, CardPlace(d, base)), dates)
    case Board => BoardColumns(d, base)
    case Space => SpaceColumns(d, base)
    case User => UserColumns(d, base, dates.lastRequest)
  }

  /** The entity's columns leave the stamps as they are. */
  lemma EntityColumnsStamps(e: Entity, d: Js, base: Store.Row, dates: Dates)
    ensures KeepsStamps(base, EntityColumns(e, d, base, dates))
  {
    if e == Card {
      var place := CardPlace(d, base);
      var state := CardState(d, place);
      assert KeepsStamps(base, place);
      assert KeepsStamps(place, state);
      assert KeepsStamps(state, CardTail(d, state, dates));
    }
  }

  /**
   * The row a create or update event writes: the dates are converted
   * first, the payload hash last, and a value left `undefined` is not
   * sent.
   */
  function RecordRow(e: Entity, d: Js, env: Transform.Env): Result<Store.Row> {
    var dates :- ConvertDates(e, d, env);
    var hash :- PayloadHash.CalculatePayloadHash(d, env.digest);
    Ok(RowFrom(e, d, env.now, hash, dates))
  }

  /** The row of a payload whose dates are converted and whose hash is known. */
  function RowFrom(e: Entity, d: Js, now: string, hash: string, dates: Dates): Store.Row {
    Store.RowOf(EntityColumns(e, d, Stamps(d, now, hash), dates))
  }

  /**
   * A row fails exactly when one of the entity's dates does not convert
   * or the payload cannot be hashed.
   */
  lemma RecordRowErrors(e: Entity, d: Js, env: Transform.Env)
    ensures RecordRow(e, d, env).Err? <==> ConvertDates(e, d, env).Err? || PayloadHash.CalculatePayloadHash(d, env.digest).Err?
    ensures e == Card ==> (ConvertDates(e, d, env).Err? <==>
      (Truthy(Prop(d, "due_date")) && env.toIso(Prop(d, "due_date")).Err?)
      || (Truthy(Prop(d, "started_at")) && env.toIso(Prop(d, "started_at")).Err?)
      || (Truthy(Prop(d, "completed_at")) && env.toIso(Prop(d, "completed_at")).Err?))
    ensures e == User ==> (ConvertDates(e, d, env).Err? <==> Truthy(Prop(d, "last_request_date")) && env.toIso(Prop(d, "last_request_date")).Err?)
    ensures e == Board || e == Space ==> ConvertDates(e, d, env).Ok?
  {
  }

  /**
   * Every row carries the entity's id (when it has one), a `uid` that is
   * truthy or `null`, the time of the event as both `kaiten_updated_at`
   * and `synced_at`, the payload's hash and the payload itself.
   */
  lemma RecordRowStamps(e: Entity, d: Js, env: Transform.Env)
    requires !IsNullish(d)
    ensures var r := RecordRow(e, d, env);
      r.Ok? ==>
        && PayloadHash.CalculatePayloadHash(d, env.digest).Ok?
        && HasStamps(d, env.now, PayloadHash.CalculatePayloadHash(d, env.digest).value, r.value)
  {
    RecordRowValue(e, d, env);
    if RecordRow(e, d, env).Ok? {
      var hash := PayloadHash.CalculatePayloadHash(d, env.digest).value;
      EntityColumnsStamps(e, d, Stamps(d, env.now, hash), ConvertDates(e, d, env).value);
      StampsOfRow(d, env.now, hash, EntityColumns(e, d, Stamps(d, env.now, hash), ConvertDates(e, d, env).value));
    }
  }

  predicate HasStamps(d: Js, now: string, hash: string, row: Store.Row) {
    && (Store.Id in row <==> Prop(d, "id") != Undefined)
    && (Store.Id in row ==> row[Store.Id] == Prop(d, "id"))
    && Store.Uid in row && (Truthy(row[Store.Uid]) || row[Store.Uid] == Null)
    && Store.KaitenUpdatedAt in row && row[Store.KaitenUpdatedAt] == Str(now)
    && Store.SyncedAt in row && row[Store.SyncedAt] == Str(now)
    && Store.PayloadHash in row && row[Store.PayloadHash] == Str(hash)
    && Store.RawPayload in row && row[Store.RawPayload] == d
  }

  lemma StampsOfRow(d: Js, now: string, hash: string, cols: Store.Row)
    requires !IsNullish(d) && KeepsStamps(Stamps(d, now, hash), cols)
    ensures HasStamps(d, now, hash, Store.RowOf(cols))
  {
    var uid := Or(Prop(d, "uid"), Null);
    assert Truthy(uid) || uid == Null;
  }

  /**
   * The card columns of a webhook: `owner_id` falls back to the first
   * member's id, `archived`/`blocked` default to `false`, the time sums to
   * `0`, and `space_id` is the card's own or `null`, with no fallback to
   * the board's first space.
   */
  predicate CardDefaults(d: Js, row: Store.Row) {
    && Store.OwnerId in row && row[Store.OwnerId] == Transform.OwnerIdOf(d)
    && Store.Archived in row && row[Store.Archived] == (if Truthy(Prop(d, "archived")) then Prop(d, "archived") else Bool(false))
    && Store.Blocked in row && row[Store.Blocked] == (if Truthy(Prop(d, "blocked")) then Prop(d, "blocked") else Bool(false))
    && Store.TimeSpentSum in row && row[Store.TimeSpentSum] == (if Truthy(Prop(d, "time_spent_sum")) then Prop(d, "time_spent_sum") else Num(0))
    && Store.TimeBlockedSum in row && row[Store.TimeBlockedSum] == (if Truthy(Prop(d, "time_blocked_sum")) then Prop(d, "time_blocked_sum") else Num(0))
    && Store.SpaceId in row && row[Store.SpaceId] == (if Truthy(Prop(d, "space_id")) then Prop(d, "space_id") else Null)
  }

  lemma CardStateValues(d: Js, base: Store.Row)
    ensures var r := CardState(d, base);
      && Store.OwnerId in r && r[Store.OwnerId] == Transform.OwnerIdOf(d)
      && Store.Archived in r && r[Store.Archived] == Or(Prop(d, "archived"), Bool(false))
      && Store.Blocked in r && r[Store.Blocked] == Or(Prop(d, "blocked"), Bool(false))
  {
  }

  lemma CardTailValues(d: Js, base: Store.Row, dates: Dates)
    ensures var r := CardTail(d, base, dates);
      && Store.TimeSpentSum in r && r[Store.TimeSpentSum] == Or(Prop(d, "time_spent_sum"), Num(0))
      && Store.TimeBlockedSum in r && r[Store.TimeBlockedSum] == Or(Prop(d, "time_blocked_sum"), Num(0))
  {
  }

  /** Every stored webhook card row carries the card's defaults and fallbacks. */
  lemma CardRowDefaults(d: Js, env: Transform.Env)
    ensures RecordRow(Card, d, env).Ok? ==> CardDefaults(d, RecordRow(Card, d, env).value)
  {
    RecordRowValue(Card, d, env);
    if RecordRow(Card, d, env).Ok? {
      CardColumnsRow(d, Stamps(d, env.now, PayloadHash.CalculatePayloadHash(d, env.digest).value), ConvertDates(Card, d, env).value);
    }
  }

  /** A stored row is the entity's columns over the stamps of the payload's hash, without `undefined` values. */
  lemma RecordRowValue(e: Entity, d: Js, env: Transform.Env)
    ensures RecordRow(e, d, env).Ok? ==>
      && ConvertDates(e, d, env).Ok? && PayloadHash.CalculatePayloadHash(d, env.digest).Ok?
      && RecordRow(e, d, env).value == RowFrom(e, d, env.now, PayloadHash.CalculatePayloadHash(d, env.digest).value, ConvertDates(e, d, env).value)
  {
    var dates := ConvertDates(e, d, env);
    var hash := PayloadHash.CalculatePayloadHash(d, env.digest);
    if dates.Ok? && hash.Ok? {
      assert dates.Extract() == dates.value && hash.Extract() == hash.value;
      assert RecordRow(e, d, env) == Ok(RowFrom(e, d, env.now, hash.value, dates.value));
    }
  }

  lemma CardColumnsRow(d: Js, base: Store.Row, dates: Dates)
    ensures CardDefaults(d, Store.RowOf(EntityColumns(Card, d, base, dates)))
  {
    var place := CardPlace(d, base);
    var state := CardState(d, place);
    var cols := CardTail(d, state, dates);
    assert Store.SpaceId in place && place[Store.SpaceId] == Or(Prop(d, "space_id"), Null);
    CardStateValues(d, place);
    CardTailValues(d, state, dates);
    CardColumnsDefaults(d, cols);
  }

  lemma CardColumnsDefaults(d: Js, cols: Store.Row)
    requires Store.OwnerId in cols && cols[Store.OwnerId] == Transform.OwnerIdOf(d)
    requires Store.Archived in cols && cols[Store.Archived] == Or(Prop(d, "archived"), Bool(false))
    requires Store.Blocked in cols && cols[Store.Blocked] == Or(Prop(d, "blocked"), Bool(false))
    requires Store.SpaceId in cols && cols[Store.SpaceId] == Or(Prop(d, "space_id"), Null)
    requires Store.TimeSpentSum in cols && cols[Store.TimeSpentSum] == Or(Prop(d, "time_spent_sum"), Num(0))
    requires Store.TimeBlockedSum in cols && cols[Store.TimeBlockedSum] == Or(Prop(d, "time_blocked_sum"), Num(0))
    ensures CardDefaults(d, Store.RowOf(cols))
  {
    var owner := Transform.OwnerIdOf(d);
    assert Truthy(owner) || owner == Null;
  }

  /** A card without its own `space_id` is stored with `null` even when its board lists spaces. */
  lemma CardRowIgnoresBoardSpaces(d: Js, env: Transform.Env)
    requires !Truthy(Prop(d, "space_id"))
    ensures RecordRow(Card, d, env).Ok? ==> Store.SpaceId in RecordRow(Card, d, env).value && RecordRow(Card, d, env).value[Store.SpaceId] == Null
  {
    CardRowDefaults(d, env);
  }

  /** The row builder the handlers use is `RecordRow`. */
  ghost predicate UsesRecordRows(env: Env) {
    forall e, d :: env.record(e, d) == RecordRow(e, d, env.row)
  }

  /** Under `UsesRecordRows`, every row a handler writes carries the stamps, and a card row its defaults. */
  lemma RecordedRows(e: Entity, d: Js, env: Env)
    requires UsesRecordRows(env) && !IsNullish(d)
    ensures env.record(e, d).Ok? ==>
      && PayloadHash.CalculatePayloadHash(d, env.row.digest).Ok?
      && HasStamps(d, env.row.now, PayloadHash.CalculatePayloadHash(d, env.row.digest).value, env.record(e, d).value)
    ensures e == Card && env.record(e, d).Ok? ==> CardDefaults(d, env.record(e, d).value)
  {
    assert env.record(e, d) == RecordRow(e, d, env.row);
    RecordRowStamps(e, d, env.row);
    if e == Card {
      CardRowDefaults(d, env.row);
    }
  }

  // ---------------------------------------------------------------------
  // syncCardTags

  /** `cardData.tags.map(tag => ({ card_id: cardData.id, tag_id: tag.id }))`: throws on a `null` tag. */
  function TagLinks(id: Js, tags: seq<Js>): (r: Result<seq<Store.Link>>)
    ensures r.Ok? <==> forall i :: 0 <= i < |tags| ==> !IsNullish(tags[i])
    ensures r.Ok? ==> |r.value| == |tags| && forall i :: 0 <= i < |tags| ==> r.value[i] == (id, Prop(tags[i], "id"))
  {
    var ids :- MapIds(tags);
    Ok(seq(|ids|, i requires 0 <= i < |ids| => (id, ids[i])))
  }

  /** `cardData.tags && Array.isArray(cardData.tags) && cardData.tags.length > 0` */
  predicate HasTags(d: Js) {
    var tags := Prop(d, "tags");
    Truthy(tags) && IsArray(tags) && |tags.items| > 0
  }

  /** The links the insert adds: none when the card has no tags, a tag is `null` or the insert fails. */
  function NewLinks(d: Js, insertFails: bool): seq<Store.Link> {
    if HasTags(d) && !insertFails then
      var links := TagLinks(Prop(d, "id"), Prop(d, "tags").items);
      if links.Ok? then links.value else []
    else []
  }

  /** `card_tags` after `syncCardTags`: the delete, then the insert. */
  function SyncedTags(links: seq<Store.Link>, d: Js, env: Env): seq<Store.Link> {
    var id := Prop(d, "id");
    (if env.deleteFails then links else Seqs.Filter(links, Store.OtherCard(id))) + NewLinks(d, env.insertFails)
  }

  /** Every new link belongs to the card. */
  lemma NewLinksOfCard(d: Js, insertFails: bool)
    ensures forall l :: l in NewLinks(d, insertFails) ==> l.0 == Prop(d, "id")
  {
  }

  /** The resync never touches another card's links, whether or not its steps fail. */
  lemma SyncedTagsOthers(links: seq<Store.Link>, d: Js, env: Env)
    ensures var id := Prop(d, "id");
      Seqs.Filter(SyncedTags(links, d, env), Store.OtherCard(id)) == Seqs.Filter(links, Store.OtherCard(id))
  {
    var id := Prop(d, "id");
    var p := Store.OtherCard(id);
    var kept := if env.deleteFails then links else Seqs.Filter(links, p);
    var added := NewLinks(d, env.insertFails);
    Seqs.FilterConcat(kept, added, p);
    NewLinksOfCard(d, env.insertFails);
    Seqs.FilterNone(added, p);
    if !env.deleteFails {
      Seqs.FilterFilter(links, p, p, p);
    }
    assert Seqs.Filter(kept, p) + [] == Seqs.Filter(links, p);
  }

  /**
   * When both steps succeed, the card's links are exactly one
   * `(card_id, tag.id)` per tag, in the order of the tags.
   */
  lemma SyncedTagsExact(links: seq<Store.Link>, d: Js, env: Env)
    requires !env.deleteFails && !env.insertFails
    requires Prop(d, "tags").Arr? && forall i :: 0 <= i < |Prop(d, "tags").items| ==> !IsNullish(Prop(d, "tags").items[i])
    ensures var id := Prop(d, "id");
      var tags := Prop(d, "tags").items;
      Seqs.Filter(SyncedTags(links, d, env), Store.OfCard(id)) == seq(|tags|, i requires 0 <= i < |tags| => (id, Prop(tags[i], "id")))
  {
    var id := Prop(d, "id");
    var tags := Prop(d, "tags").items;
    var p := Store.OfCard(id);
    var q := Store.OtherCard(id);
    var kept := Seqs.Filter(links, q);
    var added := NewLinks(d, env.insertFails);
    Seqs.FilterConcat(kept, added, p);
    assert forall x :: x in kept ==> !p(x);
    Seqs.FilterNone(kept, p);
    NewLinksOfCard(d, env.insertFails);
    Seqs.FilterAll(added, p);
    NewLinksOfTags(d);
  }

  /** An insert that goes through adds one `(card_id, tag.id)` per tag, in the order of the tags. */
  lemma NewLinksOfTags(d: Js)
    requires Prop(d, "tags").Arr? && forall i :: 0 <= i < |Prop(d, "tags").items| ==> !IsNullish(Prop(d, "tags").items[i])
    ensures var id := Prop(d, "id");
      var tags := Prop(d, "tags").items;
      NewLinks(d, false) == seq(|tags|, i requires 0 <= i < |tags| => (id, Prop(tags[i], "id")))
  {
    var id := Prop(d, "id");
    var tags := Prop(d, "tags").items;
    var expected := seq(|tags|, i requires 0 <= i < |tags| => (id, Prop(tags[i], "id")));
    if tags != [] {
      var made := TagLinks(id, tags);
      assert HasTags(d) && made.Ok?;
      assert |made.value| == |expected| && forall i :: 0 <= i < |tags| ==> made.value[i] == expected[i];
    }
  }

  /** `syncCardTags`: delete the card's links, then insert one per tag; each step's error is swallowed, and a failed delete does not stop the insert. */
  method SyncCardTags(db: Store.Database, d: Js, env: Env)
    modifies db
    ensures db.cardTags == SyncedTags(old(db.cardTags), d, env)
    ensures db.tables == old(db.tables) && db.syncLogs == old(db.syncLogs) && db.syncMetadata == old(db.syncMetadata)
  {
    var id := Prop(d, "id");
    if !env.deleteFails {
      db.DeleteCardTags(id);
    }
    if HasTags(d) {
      var links := TagLinks(id, Prop(d, "tags").items);
      if links.Ok? && !env.insertFails {
        db.InsertCardTags(links.value);
      }
    }
  }

  // ---------------------------------------------------------------------
  // the handlers

  /** The actions that upsert: create, update and move for cards, create and update for the others. */
  predicate Writes(e: Entity, action: Js) {
    action == Str("create") || action == Str("update") || (e == Card && action == Str("move"))
  }

  /** The card actions that mark the card archived. */
  predicate Archives(e: Entity, action: Js) {
    e == Card && (action == Str("archive") || action == Str("delete"))
  }

  /** `{ archived: true, synced_at: now }` */
  function ArchivePatch(now: string): Store.Row {
    map[Store.Archived := Bool(true), Store.SyncedAt := Str(now)]
  }

  /** What a handler returns (`Ok` with its message) or throws (`Err` with the error's message). */
  function HandlerOutcome(e: Entity, action: Js, d: Js, env: Env): Result<string> {
    if Writes(e, action) then
      var row :- env.record(e, d);
      match env.writeError(TableOf(e))
      case Some(err) => Err(err)
      case None => Ok(Label(e) + " " + ToText(Prop(d, "id")) + " " + ToText(action) + "d")
    else if Archives(e, action) then
      match env.writeError(TableOf(e))
      case Some(err) => Err(err)
      case None => Ok("Card " + ToText(Prop(d, "id")) + " archived")
    else if e == Card then Ok("Unknown card action: " + ToText(action))
    else Ok("Handled " + NameOf(e) + "." + ToText(action))
  }

  /** The `kaiten` tables after a handler: the upsert or the archive update when it went through. */
  function HandlerTables(tables: map<string, Store.Table>, e: Entity, action: Js, d: Js, env: Env): map<string, Store.Table> {
    if HandlerOutcome(e, action, d, env).Err? then tables
    else if Writes(e, action) then
      tables[TableOf(e) := Store.UpsertRow(Store.TableIn(tables, TableOf(e)), env.record(e, d).value, Store.Id)]
    else if Archives(e, action) then
      tables[TableOf(e) := Store.UpdateWhere(Store.TableIn(tables, TableOf(e)), Prop(d, "id"), ArchivePatch(env.row.now))]
    else tables
  }

  /** `card_tags` after a handler: resynced after a card upsert, untouched otherwise. */
  function HandlerLinks(links: seq<Store.Link>, e: Entity, action: Js, d: Js, env: Env): seq<Store.Link> {
    if e == Card && Writes(e, action) && HandlerOutcome(e, action, d, env).Ok? then SyncedTags(links, d, env) else links
  }

  /** A write whose record does not build or whose upsert fails: that error, and nothing written. */
  lemma WriteFails(tables: map<string, Store.Table>, links: seq<Store.Link>, e: Entity, action: Js, d: Js, env: Env)
    requires Writes(e, action) && (env.record(e, d).Err? || env.writeError(TableOf(e)).Some?)
    ensures HandlerOutcome(e, action, d, env) ==
      if env.record(e, d).Err? then Err(env.record(e, d).error) else Err(env.writeError(TableOf(e)).value)
    ensures HandlerTables(tables, e, action, d, env) == tables
    ensures HandlerLinks(links, e, action, d, env) == links
  {
  }

  /** A write whose record builds and whose upsert goes through: the message, the tables after the one-row upsert, and the links. */
  lemma WriteSucceeds(tables: map<string, Store.Table>, links: seq<Store.Link>, e: Entity, action: Js, d: Js, env: Env)
    requires Writes(e, action) && env.record(e, d).Ok? && env.writeError(TableOf(e)).None?
    ensures HandlerOutcome(e, action, d, env) == Ok(Label(e) + " " + ToText(Prop(d, "id")) + " " + ToText(action) + "d")
    ensures HandlerTables(tables, e, action, d, env) ==
      tables[TableOf(e) := Store.UpsertRow(Store.TableIn(tables, TableOf(e)), env.record(e, d).value, Store.Id)]
    ensures HandlerLinks(links, e, action, d, env) == if e == Card then SyncedTags(links, d, env) else links
  {
  }

  /**
   * A create or update event that goes through stores its row under its
   * id, column by column, leaving the row's other stored columns, the
   * table's other rows and the other tables as they were.
   */
  lemma UpsertEvent(tables: map<string, Store.Table>, e: Entity, action: Js, d: Js, env: Env)
    requires Writes(e, action) && HandlerOutcome(e, action, d, env).Ok?
    ensures env.record(e, d).Ok?
    ensures var row := env.record(e, d).value;
      var key := Store.KeyOf(row, Store.Id);
      var before := Store.TableIn(tables, TableOf(e));
      var after := Store.TableIn(HandlerTables(tables, e, action, d, env), TableOf(e));
      && key in after
      && (forall c :: c in row ==> c in after[key] && after[key][c] == row[c])
      && (key in before ==> forall c :: c in before[key] && c !in row ==> c in after[key] && after[key][c] == before[key][c])
      && (forall id :: id != key ==> (id in after <==> id in before) && (id in before ==> after[id] == before[id]))
    ensures forall name :: name != TableOf(e) ==> Store.TableIn(HandlerTables(tables, e, action, d, env), name) == Store.TableIn(tables, name)
  {
  }

  /**
   * Archiving or deleting a card never removes a row: the key sets of all
   * tables stay; when the update goes through, a stored card gets
   * `archived = true` and a new `synced_at` and keeps its other columns.
   */
  lemma ArchiveEvent(tables: map<string, Store.Table>, links: seq<Store.Link>, action: Js, d: Js, env: Env)
    requires Archives(Card, action)
    ensures var after := HandlerTables(tables, Card, action, d, env);
      forall name, id :: id in Store.TableIn(after, name) <==> id in Store.TableIn(tables, name)
    ensures HandlerLinks(links, Card, action, d, env) == links
  {
  }

  /** The stored card an archive or delete event names gets the patch over its other columns. */
  lemma ArchiveMarksCard(tables: map<string, Store.Table>, action: Js, d: Js, env: Env)
    requires Archives(Card, action)
    ensures var after := HandlerTables(tables, Card, action, d, env);
      var id := Prop(d, "id");
      HandlerOutcome(Card, action, d, env).Ok? && id in Store.TableIn(tables, "cards") ==>
        var row := Store.TableIn(after, "cards")[id];
        && row[Store.Archived] == Bool(true) && row[Store.SyncedAt] == Str(env.row.now)
        && forall c :: c != Store.Archived && c != Store.SyncedAt ==>
             (c in row <==> c in Store.TableIn(tables, "cards")[id]) && (c in row ==> row[c] == Store.TableIn(tables, "cards")[id][c])
  {
    var id := Prop(d, "id");
    var before := Store.TableIn(tables, "cards");
    if HandlerOutcome(Card, action, d, env).Ok? && id in before {
      var patch := ArchivePatch(env.row.now);
      assert Store.TableIn(HandlerTables(tables, Card, action, d, env), "cards") == before[id := before[id] + patch];
      ArchivedRow(before[id], env.row.now);
    }
  }

  lemma ArchivedRow(row: Store.Row, now: string)
    ensures var r := row + ArchivePatch(now);
      && r[Store.Archived] == Bool(true) && r[Store.SyncedAt] == Str(now)
      && forall c :: c != Store.Archived && c != Store.SyncedAt ==> (c in r <==> c in row) && (c in r ==> r[c] == row[c])
  {
  }

  /** Any other action writes nothing and succeeds with a message naming it. */
  lemma OtherActions(tables: map<string, Store.Table>, links: seq<Store.Link>, e: Entity, action: Js, d: Js, env: Env)
    requires !Writes(e, action) && !Archives(e, action)
    ensures HandlerTables(tables, e, action, d, env) == tables
    ensures HandlerLinks(links, e, action, d, env) == links
    ensures e == Card ==> HandlerOutcome(e, action, d, env) == Ok("Unknown card action: " + ToText(action))
    ensures e != Card ==> HandlerOutcome(e, action, d, env) == Ok("Handled " + NameOf(e) + "." + ToText(action))
  {
  }

  /** A handler fails exactly when its row throws or its write returns an error, and then writes nothing. */
  lemma HandlerErrors(tables: map<string, Store.Table>, links: seq<Store.Link>, e: Entity, action: Js, d: Js, env: Env)
    ensures HandlerOutcome(e, action, d, env).Err? <==>
      (Writes(e, action) && (env.record(e, d).Err? || env.writeError(TableOf(e)).Some?))
      || (Archives(e, action) && env.writeError(TableOf(e)).Some?)
    ensures HandlerOutcome(e, action, d, env).Err? ==>
      HandlerTables(tables, e, action, d, env) == tables && HandlerLinks(links, e, action, d, env) == links
  {
  }

  /** The outcome of a handler does not depend on whether the tag resync's steps fail. */
  lemma TagErrorsSwallowed(tables: map<string, Store.Table>, e: Entity, action: Js, d: Js, env: Env, deleteFails: bool, insertFails: bool)
    ensures HandlerOutcome(e, action, d, env) == HandlerOutcome(e, action, d, env.(deleteFails := deleteFails, insertFails := insertFails))
    ensures HandlerTables(tables, e, action, d, env) == HandlerTables(tables, e, action, d, env.(deleteFails := deleteFails, insertFails := insertFails))
  {
  }

  /** `handleCardEvent` */
  method HandleCardEvent(db: Store.Database, action: Js, d: Js, env: Env) returns (r: Result<string>)
    modifies db
    ensures r == HandlerOutcome(Card, action, d, env)
    ensures db.tables == HandlerTables(old(db.tables), Card, action, d, env)
    ensures db.cardTags == HandlerLinks(old(db.cardTags), Card, action, d, env)
    ensures db.syncLogs == old(db.syncLogs) && db.syncMetadata == old(db.syncMetadata)
  {
    if Writes(Card, action) {
      r := WriteCard(db, action, d, env);
    } else if Archives(Card, action) {
      r := ArchiveCard(db, action, d, env);
    } else {
      r := Ok("Unknown card action: " + ToText(action));
    }
  }

  /** The create, update and move branch of `handleCardEvent`: the upsert, then the tag resync. */
  method WriteCard(db: Store.Database, action: Js, d: Js, env: Env) returns (r: Result<string>)
    requires Writes(Card, action)
    modifies db
    ensures r == HandlerOutcome(Card, action, d, env)
    ensures db.tables == HandlerTables(old(db.tables), Card, action, d, env)
    ensures db.cardTags == HandlerLinks(old(db.cardTags), Card, action, d, env)
    ensures db.syncLogs == old(db.syncLogs) && db.syncMetadata == old(db.syncMetadata)
  {
    var row := env.record(Card, d);
    if row.Err? {
      WriteFails(old(db.tables), old(db.cardTags), Card, action, d, env);
      return Err(row.error);
    }
    var upsertError := env.writeError("cards");
    if upsertError.Some? {
      WriteFails(old(db.tables), old(db.cardTags), Card, action, d, env);
      return Err(upsertError.value);
    }
    WriteSucceeds(old(db.tables), old(db.cardTags), Card, action, d, env);
    db.UpsertObject("cards", row.value);
    SyncCardTags(db, d, env);
    return Ok(Label(Card) + " " + ToText(Prop(d, "id")) + " " + ToText(action) + "d");
  }

  /** The archive and delete branch of `handleCardEvent`: one update of the card's row. */
  method ArchiveCard(db: Store.Database, action: Js, d: Js, env: Env) returns (r: Result<string>)
    requires Archives(Card, action)
    modifies db
    ensures r == HandlerOutcome(Card, action, d, env)
    ensures db.tables == HandlerTables(old(db.tables), Card, action, d, env)
    ensures db.cardTags == old(db.cardTags) && db.syncLogs == old(db.syncLogs) && db.syncMetadata == old(db.syncMetadata)
  {
    var archiveError := env.writeError("cards");
    if archiveError.Some? {
      return Err(archiveError.value);
    }
    db.Update("cards", Prop(d, "id"), ArchivePatch(env.row.now));
    return Ok("Card " + ToText(Prop(d, "id")) + " archived");
  }

  /** `handleBoardEvent`, `handleSpaceEvent` and `handleUserEvent`: one upsert on create or update. */
  method HandleRecordEvent(db: Store.Database, e: Entity, action: Js, d: Js, env: Env) returns (r: Result<string>)
    requires e != Card
    modifies db
    ensures r == HandlerOutcome(e, action, d, env)
    ensures db.tables == HandlerTables(old(db.tables), e, action, d, env)
    ensures db.cardTags == old(db.cardTags) && db.syncLogs == old(db.syncLogs) && db.syncMetadata == old(db.syncMetadata)
  {
    if action == Str("create") || action == Str("update") {
      var row := env.record(e, d);
      if row.Err? {
        return Err(row.error);
      }
      var error := env.writeError(TableOf(e));
      if error.Some? {
        return Err(error.value);
      }
      WriteSucceeds(old(db.tables), old(db.cardTags), e, action, d, env);
      db.UpsertObject(TableOf(e), row.value);
      return Ok(Label(e) + " " + ToText(Prop(d, "id")) + " " + ToText(action) + "d");
    }
    return Ok("Handled " + NameOf(e) + "." + ToText(action));
  }

  // ---------------------------------------------------------------------
  // handleWebhookEvent

  /** `{ success: true, message }` or `{ success: false, error: error.message }` */
  datatype Handled = Done(message: string) | Failed(error: string)

  /** What `handleWebhookEvent` returns for an event and its entity. */
  function EventOutcome(event: string, d: Js, env: Env): Handled {
    match EntityNamed(EntityOf(event))
    case None => Done("Ignored unknown entity: " + EntityOf(event))
    case Some(e) =>
      var r := HandlerOutcome(e, ActionOf(event), d, env);
      if r.Ok? then Done(r.value) else Failed(r.error)
  }

  function EventTables(tables: map<string, Store.Table>, event: string, d: Js, env: Env): map<string, Store.Table> {
    match EntityNamed(EntityOf(event))
    case None => tables
    case Some(e) => HandlerTables(tables, e, ActionOf(event), d, env)
  }

  function EventLinks(links: seq<Store.Link>, event: string, d: Js, env: Env): seq<Store.Link> {
    match EntityNamed(EntityOf(event))
    case None => links
    case Some(e) => HandlerLinks(links, e, ActionOf(event), d, env)
  }

  /** An event whose prefix is not card, board, space or user succeeds with "Ignored" and writes nothing. */
  lemma UnknownEntityIgnored(tables: map<string, Store.Table>, links: seq<Store.Link>, event: string, d: Js, env: Env)
    requires EntityOf(event) !in {"card", "board", "space", "user"}
    ensures EventOutcome(event, d, env) == Done("Ignored unknown entity: " + EntityOf(event))
    ensures EventTables(tables, event, d, env) == tables
    ensures EventLinks(links, event, d, env) == links
  {
  }

  /** A thrown error becomes `{ success: false, error }` with the error's message, and nothing is written. */
  lemma HandlerErrorCaught(tables: map<string, Store.Table>, links: seq<Store.Link>, event: string, d: Js, env: Env)
    requires EntityNamed(EntityOf(event)).Some?
    requires HandlerOutcome(EntityNamed(EntityOf(event)).value, ActionOf(event), d, env).Err?
    ensures EventOutcome(event, d, env) == Failed(HandlerOutcome(EntityNamed(EntityOf(event)).value, ActionOf(event), d, env).error)
    ensures EventTables(tables, event, d, env) == tables
    ensures EventLinks(links, event, d, env) == links
  {
    HandlerErrors(tables, links, EntityNamed(EntityOf(event)).value, ActionOf(event), d, env);
  }

  /** `handleWebhookEvent`: route on the prefix, turn a thrown error into a failure. */
  method HandleWebhookEvent(db: Store.Database, event: string, d: Js, env: Env) returns (h: Handled)
    modifies db
    ensures h == EventOutcome(event, d, env)
    ensures db.tables == EventTables(old(db.tables), event, d, env)
    ensures db.cardTags == EventLinks(old(db.cardTags), event, d, env)
    ensures db.syncLogs == old(db.syncLogs) && db.syncMetadata == old(db.syncMetadata)
  {
    var entityType := EntityOf(event);
    var action := ActionOf(event);
    var r: Result<string>;
    match EntityNamed(entityType) {
      case None =>
        return Done("Ignored unknown entity: " + entityType);
      case Some(Card) =>
        r := HandleCardEvent(db, action, d, env);
      case Some(e) =>
        r := HandleRecordEvent(db, e, action, d, env);
    }
    h := if r.Ok? then Done(r.value) else Failed(r.error);
  }

  // ---------------------------------------------------------------------
  // logWebhook

  /** The journal row of a webhook. */
  function LogRow(event: string, id: Js, h: Handled, now: string): Store.Row {
    map[
      Store.EntityType := Str(EntityOf(event)),
      Store.SyncType := Str("webhook"),
      Store.Status := Str(if h.Done? then "completed" else "failed"),
      Store.RecordsProcessed := Num(1),
      Store.RecordsUpdated := Num(if h.Done? then 1 else 0),
      Store.ErrorMessage := if h.Failed? && h.error != "" then Str(h.error) else Null,
      Store.StartedAt := Str(now),
      Store.CompletedAt := Str(now),
      Store.DurationMs := Num(0),
      Store.Metadata := LogMetadata(event, id)]
  }

  /** `metadata: { event, entity_id: data.id }`, where an `undefined` id is left out. */
  function LogMetadata(event: string, id: Js): Js {
    Obj([("event", Str(event))] + if id == Undefined then [] else [("entity_id", id)])
  }

  /**
   * The journal row names the event's prefix as entity type and `webhook`
   * as sync type; it is `completed` with one updated record on success,
   * `failed` with none and the error's message otherwise; one record is
   * processed either way.
   */
  lemma LogRowShape(event: string, id: Js, h: Handled, now: string)
    ensures var row := LogRow(event, id, h, now);
      && row[Store.EntityType] == Str(EntityOf(event)) && row[Store.SyncType] == Str("webhook")
      && row[Store.RecordsProcessed] == Num(1)
      && (row[Store.Status] == Str("completed") <==> h.Done?)
      && (row[Store.Status] == Str("failed") <==> h.Failed?)
      && (row[Store.RecordsUpdated] == Num(1) <==> h.Done?)
      && (row[Store.RecordsUpdated] == Num(0) <==> h.Failed?)
      && (h.Failed? && h.error != "" ==> row[Store.ErrorMessage] == Str(h.error))
      && (h.Done? ==> row[Store.ErrorMessage] == Null)
      && row[Store.DurationMs] == Num(0)
  {
    var completed := "completed";
    assert completed != "failed" by { assert completed[0] != "failed"[0]; }
  }

  /** The journal's metadata names the event and, when the payload has one, the entity's id. */
  lemma LogMetadataFields(event: string, id: Js)
    ensures LogMetadata(event, id).Obj?
    ensures Lookup(LogMetadata(event, id).fields, "event") == Str(event)
    ensures Lookup(LogMetadata(event, id).fields, "entity_id") == id
  {
    if id != Undefined {
      LookupAppend([("event", Str(event))], "entity_id", id, "event");
      LookupAppend([("event", Str(event))], "entity_id", id, "entity_id");
    }
  }

  /** `sync_logs` after `logWebhook`: the row appended, unless the insert fails. */
  function LoggedRows(logs: seq<Store.Row>, event: string, id: Js, h: Handled, env: Env): seq<Store.Row> {
    if env.logFails then logs else logs + [LogRow(event, id, h, env.row.now)]
  }

  /** `logWebhook` */
  method LogWebhook(db: Store.Database, event: string, id: Js, h: Handled, env: Env)
    modifies db
    ensures db.syncLogs == LoggedRows(old(db.syncLogs), event, id, h, env)
    ensures db.tables == old(db.tables) && db.cardTags == old(db.cardTags) && db.syncMetadata == old(db.syncMetadata)
  {
    if !env.logFails {
      var _ := db.InsertLog(LogRow(event, id, h, env.row.now));
    }
  }

  // ---------------------------------------------------------------------
  // POST

  /** The HTTP answer: a status and a JSON body. */
  datatype Response = Response(status: int, body: Js)

  const MissingEventOrData: string := "Invalid payload: missing event or data"

  /** The message of the `TypeError` raised by `event.split` on an event that is not a string. */
  const EventNotAString: string := "event.split is not a function"

  /** The event and the entity of a request that reaches `handleWebhookEvent`, if it does. */
  function Accepted(body: Result<Js>, env: Env): (r: Option<(string, Js)>)
    ensures r.Some? <==>
      && body.Ok? && !IsNullish(body.value)
      && Truthy(Prop(body.value, "event")) && Truthy(Prop(body.value, "data"))
      && env.available && Prop(body.value, "event").Str?
    ensures r.Some? ==> r.value == (Prop(body.value, "event").s, Prop(body.value, "data"))
  {
    if body.Err? || IsNullish(body.value) then None
    else
      var event := Prop(body.value, "event");
      var data := Prop(body.value, "data");
      if !Truthy(event) || !Truthy(data) || !env.available || !event.Str? then None
      else Some((event.s, data))
  }

  /** The answer to a request whose body parsed to `body` (or failed to parse with that message). */
  function PostResponse(body: Result<Js>, env: Env): Response {
    if body.Err? then Response(500, Obj([("error", Str(body.error))]))
    else if IsNullish(body.value) then Response(500, Obj([("error", Str(TypeError))]))
    else
      var event := Prop(body.value, "event");
      var data := Prop(body.value, "data");
      if !Truthy(event) || !Truthy(data) then Response(400, Obj([("error", Str(MissingEventOrData))]))
      else if !env.available then Response(500, Obj([("error", Str("Database unavailable"))]))
      else if !event.Str? then Response(500, Obj([("error", Str(EventNotAString))]))
      else
        match EventOutcome(event.s, data, env)
        case Done(message) => Response(200, Obj([("success", Bool(true)), ("message", Str(message))]))
        case Failed(_) => Response(200, Obj([("success", Bool(false))]))
  }

  function PostTables(tables: map<string, Store.Table>, body: Result<Js>, env: Env): map<string, Store.Table> {
    match Accepted(body, env)
    case None => tables
    case Some((event, d)) => EventTables(tables, event, d, env)
  }

  function PostLinks(links: seq<Store.Link>, body: Result<Js>, env: Env): seq<Store.Link> {
    match Accepted(body, env)
    case None => links
    case Some((event, d)) => EventLinks(links, event, d, env)
  }

  function PostLogs(logs: seq<Store.Row>, body: Result<Js>, env: Env): seq<Store.Row> {
    match Accepted(body, env)
    case None => logs
    case Some((event, d)) => LoggedRows(logs, event, Prop(d, "id"), EventOutcome(event, d, env), env)
  }

  /** A body without a truthy `event` or `data` is answered with 400 and nothing is written. */
  lemma InvalidPayload(tables: map<string, Store.Table>, links: seq<Store.Link>, logs: seq<Store.Row>, body: Result<Js>, env: Env)
    requires body.Ok? && !IsNullish(body.value)
    requires !Truthy(Prop(body.value, "event")) || !Truthy(Prop(body.value, "data"))
    ensures PostResponse(body, env) == Response(400, Obj([("error", Str(MissingEventOrData))]))
    ensures PostTables(tables, body, env) == tables && PostLinks(links, body, env) == links && PostLogs(logs, body, env) == logs
  {
  }

  /**
   * A request is answered with 200 exactly when it reaches the handlers;
   * the answer's `success` is the handler's, and the journal gets one row
   * unless its insert fails.
   */
  lemma AcceptedRequest(logs: seq<Store.Row>, body: Result<Js>, env: Env)
    ensures PostResponse(body, env).status == 200 <==> Accepted(body, env).Some?
    ensures Accepted(body, env).Some? ==>
      var (event, d) := Accepted(body, env).value;
      && Lookup(PostResponse(body, env).body.fields, "success") == Bool(EventOutcome(event, d, env).Done?)
      && PostLogs(logs, body, env) == (if env.logFails then logs else logs + [LogRow(event, Prop(d, "id"), EventOutcome(event, d, env), env.row.now)])
  {
  }

  /** `POST`: validate the body, handle the event, journal it, answer. */
  method Post(db: Store.Database, body: Result<Js>, env: Env) returns (resp: Response)
    modifies db
    ensures resp == PostResponse(body, env)
    ensures db.tables == PostTables(old(db.tables), body, env)
    ensures db.cardTags == PostLinks(old(db.cardTags), body, env)
    ensures db.syncLogs == PostLogs(old(db.syncLogs), body, env)
    ensures db.syncMetadata == old(db.syncMetadata)
  {
    if body.Err? {
      return Response(500, Obj([("error", Str(body.error))]));
    }
    if IsNullish(body.value) {
      return Response(500, Obj([("error", Str(TypeError))]));
    }
    var event := Prop(body.value, "event");
    var data := Prop(body.value, "data");
    if !Truthy(event) || !Truthy(data) {
      return Response(400, Obj([("error", Str(MissingEventOrData))]));
    }
    if !env.available {
      return Response(500, Obj([("error", Str("Database unavailable"))]));
    }
    if !event.Str? {
      return Response(500, Obj([("error", Str(EventNotAString))]));
    }
    var result := HandleWebhookEvent(db, event.s, data, env);
    LogWebhook(db, event.s, Prop(data, "id"), result, env);
    match result
    case Done(message) =>
      resp := Response(200, Obj([("success", Bool(true)), ("message", Str(message))]));
    case Failed(_) =>
      resp := Response(200, Obj([("success", Bool(false))]));
  }
}
