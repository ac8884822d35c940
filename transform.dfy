/**
 * `transformToDbFormat`: the row the sync engine writes for one record
 * fetched from Kaiten. Every kind gets the base columns (`id`, `uid`,
 * `synced_at`, `payload_hash`, `raw_payload`) followed by its own columns,
 * each column filled by the `||` / `??` fallback chain the engine uses.
 * The result is the object literal itself: a property whose value is
 * `undefined` is still one of its keys, and the batch upsert decides what
 * is written for it.
 */
module Transform {
  import opened Wrappers
  import opened Strings
  import opened JsValue
  import Store
  import PayloadHash
  import Scheduler

  /** What the transform reads besides the record. */
  datatype Env = Env(
    /** `new Date().toISOString()` at the time of the transform */
    now: string,
    /** SHA-256 */
    digest: seq<PayloadHash.byte> -> seq<PayloadHash.byte>,
    /** `new Date(v).toISOString()`; an error is the `RangeError` of an invalid date */
    toIso: Js -> Result<string>)

  /** `v ? new Date(v).toISOString() : null` */
  function IsoOrNull(v: Js, env: Env): (r: Result<Js>)
    ensures !Truthy(v) ==> r == Ok(Null)
    ensures Truthy(v) ==> (r.Ok? <==> env.toIso(v).Ok?)
    ensures r.Ok? ==> r.value == Null || r.value.Str?
    ensures r.Err? ==> r.error == env.toIso(v).error
  {
    if Truthy(v) then (var s :- env.toIso(v); Ok(Str(s))) else Ok(Null)
  }

  /** Column `c` of `row` is as in `base`. */
  predicate Keeps(base: Store.Row, row: Store.Row, c: Store.Column) {
    (c in row <==> c in base) && (c in base ==> row[c] == base[c])
  }

  /**
   * `row` has the base columns of `base`: `id`, `uid`, `synced_at`,
   * `payload_hash`, and `raw_payload` too when `payloadToo` holds.
   */
  predicate KeepsBase(base: Store.Row, row: Store.Row, payloadToo: bool) {
    && Keeps(base, row, Store.Id) && Keeps(base, row, Store.Uid) && Keeps(base, row, Store.SyncedAt)
    && Keeps(base, row, Store.PayloadHash) && (payloadToo ==> Keeps(base, row, Store.RawPayload))
  }

  // ---------------------------------------------------------------------
  // cards

  /** `board?.spaces?.length > 0`, for the number or boolean a `length` read gives. */
  predicate PositiveLength(v: Js) {
    match v
    case Num(n) => n > 0
    case Bool(b) => b
    case _ => false
  }

  /** `kaitenData.board?.spaces` */
  function BoardSpaces(d: Js): Js { Prop(Prop(d, "board"), "spaces") }

  /**
   * The card's `space_id`: its own when truthy, else the id of the first
   * space of its board when the board lists any, else `null`. Reading the
   * id of a first space that is `null` throws.
   */
  function SpaceIdOf(d: Js): (r: Result<Js>)
    ensures r.Err? <==> !Truthy(Prop(d, "space_id")) && PositiveLength(Prop(BoardSpaces(d), "length")) && IsNullish(At(BoardSpaces(d), 0))
    ensures r.Err? ==> r.error == TypeError
    ensures r.Ok? ==> Truthy(r.value) || r.value == Null
    ensures Truthy(Prop(d, "space_id")) ==> r == Ok(Prop(d, "space_id"))
    ensures !Truthy(Prop(d, "space_id")) && BoardSpaces(d).Arr? && |BoardSpaces(d).items| > 0 && Truthy(Prop(BoardSpaces(d).items[0], "id"))
      ==> r == Ok(Prop(BoardSpaces(d).items[0], "id"))
    ensures !Truthy(Prop(d, "space_id")) && !PositiveLength(Prop(BoardSpaces(d), "length")) ==> r == Ok(Null)
  {
    var own := Prop(d, "space_id");
    if !Truthy(own) && PositiveLength(Prop(BoardSpaces(d), "length")) then
      var first :- Member(At(BoardSpaces(d), 0), "id");
      Ok(Or(first, Null))
    else Ok(Or(own, Null))
  }

  /** `!ids || ids.length === 0`: the flat id list is missing or empty. */
  predicate MissingOrEmpty(ids: Js) { !Truthy(ids) || Prop(ids, "length") == Num(0) }

  /**
   * `parents_ids` / `children_ids`: the flat id list when it is present and
   * not empty; otherwise the ids of the object list when that is an array
   * (throwing on a `null` element); otherwise the flat value when truthy,
   * else `[]`. The column is never `null`.
   */
  function IdsFallback(flat: Js, objects: Js): (r: Result<Js>)
    ensures r.Ok? ==> Truthy(r.value)
    ensures r.Err? ==> r.error == TypeError
    ensures !MissingOrEmpty(flat) ==> r == Ok(flat)
    ensures MissingOrEmpty(flat) && objects.Arr? ==>
      && (r.Ok? <==> forall i :: 0 <= i < |objects.items| ==> !IsNullish(objects.items[i]))
      && (r.Ok? ==> r.value.Arr? && |r.value.items| == |objects.items|)
      && (r.Ok? ==> forall i :: 0 <= i < |objects.items| ==> r.value.items[i] == Prop(objects.items[i], "id"))
    ensures MissingOrEmpty(flat) && !objects.Arr? ==> r == Ok(if Truthy(flat) then flat else Arr([]))
  {
    var chosen :- if MissingOrEmpty(flat) && IsArray(objects) then
        (var ids :- MapIds(objects.items); Ok(Arr(ids)))
      else Ok(flat);
    Ok(Or(chosen, Arr([])))
  }

  /** `members_ids`: the ids of the members when they are an array, else `[]`. */
  function MemberIds(d: Js): (r: Result<Js>)
    ensures r.Ok? ==> r.value.Arr?
    ensures r.Err? ==> r.error == TypeError
    ensures !Prop(d, "members").Arr? ==> r == Ok(Arr([]))
    ensures Prop(d, "members").Arr? ==>
      var ms := Prop(d, "members").items;
      && (r.Ok? <==> forall i :: 0 <= i < |ms| ==> !IsNullish(ms[i]))
      && (r.Ok? ==> |r.value.items| == |ms| && forall i :: 0 <= i < |ms| ==> r.value.items[i] == Prop(ms[i], "id"))
  {
    var members := Prop(d, "members");
    if IsArray(members) then (var ids :- MapIds(members.items); Ok(Arr(ids))) else Ok(Arr([]))
  }

  /** `owner_id || members?.[0]?.id || null` */
  function OwnerIdOf(d: Js): (r: Js)
    ensures Truthy(r) || r == Null
    ensures Truthy(Prop(d, "owner_id")) ==> r == Prop(d, "owner_id")
    ensures !Truthy(Prop(d, "owner_id")) && Prop(d, "members").Arr? && |Prop(d, "members").items| > 0
      ==> r == Or(Prop(Prop(d, "members").items[0], "id"), Null)
    ensures !Truthy(Prop(d, "owner_id")) && Prop(d, "members") == Arr([]) ==> r == Null
  {
    Or(Prop(d, "owner_id"), Or(Prop(At(Prop(d, "members"), 0), "id"), Null))
  }

  /** The card's columns whose computation can throw. */
  datatype CardValues = CardValues(
    spaceId: Js, parentIds: Js, childIds: Js, memberIds: Js,
    dueDate: Js, startedAt: Js, completedAt: Js, createdAt: Js, updatedAt: Js)

  /** `{ ...base, <the card's columns> }`, given the columns that can throw. */
  function CardColumns(d: Js, base: Store.Row, v: CardValues): (r: Store.Row)
    ensures KeepsBase(base, r, true)
  {
    CardLaterColumns(d, CardEarlierColumns(d, base, v), v)
  }

  /** The card's columns from `title` to `size_text`. */
  function CardEarlierColumns(d: Js, base: Store.Row, v: CardValues): (r: Store.Row)
    ensures KeepsBase(base, r, true)
  {
    base
      [Store.Title := Prop(d, "title")]
      [Store.Description := Or(Prop(d, "description"), Null)]
      [Store.SpaceId := v.spaceId]
      [Store.BoardId := Prop(d, "board_id")]
      [Store.ColumnId := Prop(d, "column_id")]
      [Store.LaneId := Or(Prop(d, "lane_id"), Null)]
      [Store.TypeId := Or(Prop(d, "type_id"), Null)]
      [Store.OwnerId := OwnerIdOf(d)]
      [Store.CreatorId := Or(Prop(d, "creator_id"), Null)]
      [Store.State := Or(Prop(d, "state"), Null)]
      [Store.Archived := Or(Prop(d, "archived"), Bool(false))]
      [Store.Blocked := Or(Prop(d, "blocked"), Bool(false))]
      [Store.SizeText := Or(Prop(d, "size_text"), Null)]
  }

  /** The card's columns from `due_date` to `kaiten_updated_at`. */
  function CardLaterColumns(d: Js, base: Store.Row, v: CardValues): (r: Store.Row)
    ensures KeepsBase(base, r, true)
  {
    base
      [Store.DueDate := v.dueDate]
      [Store.TimeSpentSum := Or(Prop(d, "time_spent_sum"), Num(0))]
      [Store.TimeBlockedSum := Or(Prop(d, "time_blocked_sum"), Num(0))]
      [Store.StartedAt := v.startedAt]
      [Store.CompletedAt := v.completedAt]
      [Store.Properties := Or(Prop(d, "properties"), Obj([]))]
      [Store.TagsCache := Or(Prop(d, "tags"), Arr([]))]
      [Store.ParentsIds := v.parentIds]
      [Store.ChildrenIds := v.childIds]
      [Store.MembersIds := v.memberIds]
      [Store.EstimateWorkload := Or(Prop(d, "estimate_workload"), Num(0))]
      [Store.KaitenCreatedAt := v.createdAt]
      [Store.KaitenUpdatedAt := v.updatedAt]
  }

  /** The card's columns in the order the code computes them; the first that throws is the error. */
  function CardFields(d: Js, env: Env, base: Store.Row): (r: Result<Store.Row>)
    ensures r.Ok? ==> KeepsBase(base, r.value, true)
  {
    var spaceId :- SpaceIdOf(d);
    var parentIds :- IdsFallback(Prop(d, "parents_ids"), Prop(d, "parents"));
    var childIds :- IdsFallback(Prop(d, "children_ids"), Prop(d, "children"));
    var memberIds :- MemberIds(d);
    var dueDate :- IsoOrNull(Prop(d, "due_date"), env);
    var startedAt :- IsoOrNull(Prop(d, "started_at"), env);
    var completedAt :- IsoOrNull(Prop(d, "completed_at"), env);
    var createdAt :- IsoOrNull(Prop(d, "created"), env);
    var updatedAt :- IsoOrNull(Prop(d, "updated"), env);
    Ok(CardColumns(d, base, CardValues(spaceId, parentIds, childIds, memberIds, dueDate, startedAt, completedAt, createdAt, updatedAt)))
  }

  // ---------------------------------------------------------------------
  // spaces, boards, columns, lanes, users, card types, tags, property definitions
  // (`created ? created : null` is `created || null`)

  function SpaceFields(d: Js, base: Store.Row): (r: Store.Row)
    ensures KeepsBase(base, r, true)
  {
    base
      [Store.Title := Prop(d, "title")]
      [Store.CompanyId := Or(Prop(d, "company_id"), Null)]
      [Store.OwnerUserId := Or(Prop(d, "owner_user_id"), Null)]
      [Store.Archived := Or(Prop(d, "archived"), Bool(false))]
      [Store.SortOrder := Or(Prop(d, "sort_order"), Null)]
      [Store.KaitenCreatedAt := Or(Prop(d, "created"), Null)]
      [Store.KaitenUpdatedAt := Or(Prop(d, "updated"), Null)]
  }

  function BoardFields(d: Js, base: Store.Row): (r: Store.Row)
    ensures KeepsBase(base, r, true)
  {
    base
      [Store.SpaceId := Prop(d, "space_id")]
      [Store.Title := Prop(d, "title")]
      [Store.Description := Or(Prop(d, "description"), Null)]
      [Store.BoardType := Or(Prop(d, "board_type"), Null)]
      [Store.Archived := Or(Prop(d, "archived"), Bool(false))]
      [Store.SortOrder := Or(Prop(d, "sort_order"), Null)]
      [Store.KaitenCreatedAt := Or(Prop(d, "created"), Null)]
      [Store.KaitenUpdatedAt := Or(Prop(d, "updated"), Null)]
  }

  /** `sort_order ?? order ?? null`: a stored `0` is kept. */
  function SortOrder(d: Js): (r: Js)
    ensures !IsNullish(Prop(d, "sort_order")) ==> r == Prop(d, "sort_order")
    ensures IsNullish(Prop(d, "sort_order")) && !IsNullish(Prop(d, "order")) ==> r == Prop(d, "order")
    ensures IsNullish(Prop(d, "sort_order")) && IsNullish(Prop(d, "order")) ==> r == Null
  {
    Coalesce(Prop(d, "sort_order"), Coalesce(Prop(d, "order"), Null))
  }

  function ColumnFields(d: Js, base: Store.Row): (r: Store.Row)
    ensures KeepsBase(base, r, true)
  {
    base
      [Store.Title := Prop(d, "title")]
      [Store.BoardId := Prop(d, "board_id")]
      [Store.ColumnType := Prop(d, "type")]
      [Store.SortOrder := SortOrder(d)]
      [Store.WipLimit := Or(Prop(d, "wip_limit"), Null)]
      [Store.Archived := Or(Prop(d, "archived"), Bool(false))]
      [Store.KaitenCreatedAt := Or(Prop(d, "created"), Null)]
      [Store.KaitenUpdatedAt := Or(Prop(d, "updated"), Null)]
  }

  function LaneFields(d: Js, base: Store.Row): (r: Store.Row)
    ensures KeepsBase(base, r, true)
  {
    base
      [Store.Title := Prop(d, "title")]
      [Store.BoardId := Prop(d, "board_id")]
      [Store.SortOrder := SortOrder(d)]
      [Store.Archived := Or(Prop(d, "archived"), Bool(false))]
      [Store.KaitenCreatedAt := Or(Prop(d, "created"), Null)]
      [Store.KaitenUpdatedAt := Or(Prop(d, "updated"), Null)]
  }

  function UserFields(d: Js, base: Store.Row): (r: Store.Row)
    ensures KeepsBase(base, r, true)
  {
    base
      [Store.FullName := Or(Prop(d, "full_name"), Null)]
      [Store.Email := Or(Prop(d, "email"), Null)]
      [Store.Username := Or(Prop(d, "username"), Null)]
      [Store.Timezone := Or(Prop(d, "timezone"), Null)]
      [Store.Role := Or(Prop(d, "role"), Null)]
      [Store.IsAdmin := Or(Prop(d, "is_admin"), Bool(false))]
      [Store.TakeLicence := Or(Prop(d, "take_licence"), Null)]
      [Store.AppsPermissions := Or(Prop(d, "apps_permissions"), Null)]
      [Store.Locked := Or(Prop(d, "locked"), Null)]
      [Store.LastRequestDate := Or(Prop(d, "last_request_date"), Null)]
      [Store.KaitenCreatedAt := Or(Prop(d, "created"), Null)]
      [Store.KaitenUpdatedAt := Or(Prop(d, "updated"), Null)]
  }

  function CardTypeFields(d: Js, base: Store.Row): (r: Store.Row)
    ensures KeepsBase(base, r, true)
  {
    base
      [Store.Name := Prop(d, "name")]
      [Store.IconUrl := Or(Prop(d, "icon_url"), Null)]
      [Store.KaitenCreatedAt := Or(Prop(d, "created"), Null)]
      [Store.KaitenUpdatedAt := Or(Prop(d, "updated"), Null)]
  }

  function TagFields(d: Js, base: Store.Row): (r: Store.Row)
    ensures KeepsBase(base, r, true)
  {
    base
      [Store.Name := Prop(d, "name")]
      [Store.Color := Or(Prop(d, "color"), Null)]
      [Store.GroupName := Or(Prop(d, "group_name"), Null)]
      [Store.KaitenCreatedAt := Or(Prop(d, "created"), Null)]
      [Store.KaitenUpdatedAt := Or(Prop(d, "updated"), Null)]
  }

  function PropertyDefinitionFields(d: Js, base: Store.Row): (r: Store.Row)
    ensures KeepsBase(base, r, true)
  {
    base
      [Store.Name := Or(Prop(d, "name"), Str("Untitled"))]
      [Store.FieldType := Or(Prop(d, "type"), Null)]
      [Store.SelectOptions := Or(Prop(d, "select_options"), Null)]
      [Store.KaitenCreatedAt := Or(Prop(d, "created"), Null)]
      [Store.KaitenUpdatedAt := Or(Prop(d, "updated"), Null)]
  }

  // ---------------------------------------------------------------------
  // time logs

  /** The nested objects a time log's stored payload leaves out. */
  const NestedKeys: set<string> := {"card", "user", "owner", "author", "role", "tags", "board", "lane", "column", "parents", "children"}

  /** `[("0", items[0]), ("1", items[1]), ...]`: the index properties of an array. */
  function Indexed(items: seq<Js>): (r: seq<(string, Js)>)
    ensures |r| == |items| && forall i :: 0 <= i < |items| ==> r[i] == (NatToString(i), items[i])
  {
    if items == [] then [] else Indexed(items[..|items| - 1]) + [(NatToString(|items| - 1), items[|items| - 1])]
  }

  /** The own enumerable properties object rest-destructuring copies. */
  function OwnProperties(v: Js): seq<(string, Js)> {
    match v
    case Obj(fields) => fields
    case Arr(items) => Indexed(items)
    case Str(s) => Indexed(seq(|s|, i requires 0 <= i < |s| => Str([s[i]])))
    case _ => []
  }

  /** `const { card, user, ..., children, ...slimPayload } = kaitenData` */
  function Slim(d: Js): Js {
    Obj(Omit(OwnProperties(d), NestedKeys))
  }

  /** The slimmed payload has none of the nested objects and every other property of the record. */
  lemma SlimPayload(d: Js)
    ensures Slim(d).Obj?
    ensures forall k :: k in NestedKeys ==> Lookup(Slim(d).fields, k) == Undefined
    ensures d.Obj? ==> forall k :: k !in NestedKeys ==> Lookup(Slim(d).fields, k) == Lookup(d.fields, k)
  {
  }

  /** `card_id ?? card?.id ?? null` */
  function CardIdOf(d: Js): (r: Js)
    ensures !IsNullish(r) || r == Null
    ensures !IsNullish(Prop(d, "card_id")) ==> r == Prop(d, "card_id")
    ensures IsNullish(Prop(d, "card_id")) && !IsNullish(Prop(Prop(d, "card"), "id")) ==> r == Prop(Prop(d, "card"), "id")
  {
    Coalesce(Prop(d, "card_id"), Coalesce(Prop(Prop(d, "card"), "id"), Null))
  }

  /** `(o && o.id)`: the id of a truthy object, else the object itself. */
  function GuardedId(o: Js): Js { And(o, Prop(o, "id")) }

  /**
   * `user_id ?? author_id ?? (author && author.id) ?? (user && user.id) ?? null`.
   * A falsy but non-null `author` (`0`, `""`, `false`) is not skipped: it
   * becomes the user id and hides `user.id`.
   */
  function UserIdOf(d: Js): (r: Js)
    ensures !IsNullish(r) || r == Null
    ensures !IsNullish(Prop(d, "user_id")) ==> r == Prop(d, "user_id")
    ensures IsNullish(Prop(d, "user_id")) && !IsNullish(Prop(d, "author_id")) ==> r == Prop(d, "author_id")
    ensures IsNullish(Prop(d, "user_id")) && IsNullish(Prop(d, "author_id")) ==>
      && (Truthy(Prop(d, "author")) && !IsNullish(Prop(Prop(d, "author"), "id")) ==> r == Prop(Prop(d, "author"), "id"))
      && (FalsyNotNullish(Prop(d, "author")) ==> r == Prop(d, "author"))
      && (IsNullish(Prop(d, "author")) && Truthy(Prop(d, "user")) && !IsNullish(Prop(Prop(d, "user"), "id")) ==> r == Prop(Prop(d, "user"), "id"))
  {
    Coalesce(Prop(d, "user_id"),
      Coalesce(Prop(d, "author_id"),
        Coalesce(GuardedId(Prop(d, "author")),
          Coalesce(GuardedId(Prop(d, "user")), Null))))
  }

  /** `role_id ?? (role && role.id) ?? null` */
  function RoleIdOf(d: Js): (r: Js)
    ensures !IsNullish(r) || r == Null
    ensures !IsNullish(Prop(d, "role_id")) ==> r == Prop(d, "role_id")
    ensures IsNullish(Prop(d, "role_id")) && Truthy(Prop(d, "role")) && !IsNullish(Prop(Prop(d, "role"), "id")) ==> r == Prop(Prop(d, "role"), "id")
  {
    Coalesce(Prop(d, "role_id"), Coalesce(GuardedId(Prop(d, "role")), Null))
  }

  /**
   * `(o && o.id) ?? rest` and `o?.id ?? rest` part ways exactly when `o`
   * is falsy but not null and differs from `rest`.
   */
  lemma GuardedIdDiffers(o: Js, rest: Js)
    ensures Coalesce(GuardedId(o), rest) != Coalesce(Prop(o, "id"), rest) <==> FalsyNotNullish(o) && o != rest
  {
    if FalsyNotNullish(o) {
      assert Prop(o, "id") == Undefined;
    }
  }

  /** `{ ...base, raw_payload: slimPayload, <the time log's columns> }`, given the slimmed payload and the two converted dates. */
  function TimeLogColumns(d: Js, base: Store.Row, slim: Js, createdAt: Js, updatedAt: Js): (r: Store.Row)
    ensures KeepsBase(base, r, false) && Store.RawPayload in r && r[Store.RawPayload] == slim
  {
    base
      [Store.RawPayload := slim]
      [Store.CardId := CardIdOf(d)]
      [Store.UserId := UserIdOf(d)]
      [Store.RoleId := RoleIdOf(d)]
      [Store.TimeSpentMinutes := Coalesce(Prop(d, "time_spent_minutes"), Coalesce(Prop(d, "time_spent"), Num(0)))]
      [Store.Date := Coalesce(Prop(d, "date"), Coalesce(Prop(d, "for_date"), Null))]
      [Store.Comment := Or(Prop(d, "comment"), Null)]
      [Store.CreatedAt := createdAt]
      [Store.UpdatedAt := updatedAt]
  }

  function TimeLogFields(d: Js, env: Env, base: Store.Row): (r: Result<Store.Row>)
    ensures r.Ok? ==> KeepsBase(base, r.value, false) && Store.RawPayload in r.value && r.value[Store.RawPayload] == Slim(d)
  {
    var createdAt :- IsoOrNull(Prop(d, "created"), env);
    var updatedAt :- IsoOrNull(Prop(d, "updated"), env);
    Ok(TimeLogColumns(d, base, Slim(d), createdAt, updatedAt))
  }

  // ---------------------------------------------------------------------
  // the whole row

  /** The columns every kind starts with. */
  function BaseFields(d: Js, env: Env, hash: string): Store.Row {
    map[
      Store.Id := Prop(d, "id"),
      Store.Uid := Or(Prop(d, "uid"), Null),
      Store.SyncedAt := Str(env.now),
      Store.PayloadHash := Str(hash),
      Store.RawPayload := d]
  }

  /**
   * A kind's columns leave the base columns as they were, but for the
   * slimmed payload of a time log.
   */
  function KindFields(kind: Scheduler.EntityType, d: Js, env: Env, base: Store.Row): (r: Result<Store.Row>)
    ensures r.Ok? ==> KeepsBase(base, r.value, kind != Scheduler.TimeLogs)
    ensures r.Ok? && kind == Scheduler.TimeLogs ==> Store.RawPayload in r.value && r.value[Store.RawPayload] == Slim(d)
  {
    if kind == Scheduler.Cards then CardFields(d, env, base)
    else if kind == Scheduler.TimeLogs then TimeLogFields(d, env, base)
    else Ok(PlainFields(kind, d, base))
  }

  /** The columns of the kinds whose columns cannot throw. */
  function PlainFields(kind: Scheduler.EntityType, d: Js, base: Store.Row): (r: Store.Row)
    requires kind != Scheduler.Cards && kind != Scheduler.TimeLogs
    ensures KeepsBase(base, r, true)
  {
    match kind
    case Spaces => SpaceFields(d, base)
    case Boards => BoardFields(d, base)
    case Columns => ColumnFields(d, base)
    case Lanes => LaneFields(d, base)
    case Users => UserFields(d, base)
    case CardTypes => CardTypeFields(d, base)
    case Tags => TagFields(d, base)
    case PropertyDefinitions => PropertyDefinitionFields(d, base)
  }

  /**
   * `transformToDbFormat(kind, kaitenData)`: the hash of the record, then
   * `{ ...base, <kind's columns> }`. A `null` or `undefined` record fails
   * in the hash, before any column is read.
   */
  function TransformRow(kind: Scheduler.EntityType, d: Js, env: Env): (r: Result<Store.Row>)
    ensures IsNullish(d) ==> r.Err?
    ensures r.Ok? ==> PayloadHash.CalculatePayloadHash(d, env.digest).Ok?
    ensures r.Ok? ==> r == HashedRow(kind, d, env, PayloadHash.CalculatePayloadHash(d, env.digest).value)
  {
    var hash :- PayloadHash.CalculatePayloadHash(d, env.digest);
    HashedRow(kind, d, env, hash)
  }

  /** The object built for a record whose hash is `hash`: `{ ...base, <kind's columns> }`. */
  function HashedRow(kind: Scheduler.EntityType, d: Js, env: Env, hash: string): (r: Result<Store.Row>)
    requires !IsNullish(d)
  {
    KindFields(kind, d, env, BaseFields(d, env, hash))
  }

  /** The keys `base` gives every object. */
  const BaseColumns: set<Store.Column> := {Store.Id, Store.Uid, Store.SyncedAt, Store.PayloadHash, Store.RawPayload}

  /** The keys of a kind's object literal after `...base`. */
  function OwnColumns(kind: Scheduler.EntityType): set<Store.Column> {
    match kind
    case Cards => {Store.Title, Store.Description, Store.SpaceId, Store.BoardId, Store.ColumnId, Store.LaneId, Store.TypeId,
                   Store.OwnerId, Store.CreatorId, Store.State, Store.Archived, Store.Blocked, Store.SizeText, Store.DueDate,
                   Store.TimeSpentSum, Store.TimeBlockedSum, Store.StartedAt, Store.CompletedAt, Store.Properties,
                   Store.TagsCache, Store.ParentsIds, Store.ChildrenIds, Store.MembersIds, Store.EstimateWorkload,
                   Store.KaitenCreatedAt, Store.KaitenUpdatedAt}
    case Spaces => {Store.Title, Store.CompanyId, Store.OwnerUserId, Store.Archived, Store.SortOrder,
                    Store.KaitenCreatedAt, Store.KaitenUpdatedAt}
    case Boards => {Store.SpaceId, Store.Title, Store.Description, Store.BoardType, Store.Archived, Store.SortOrder,
                    Store.KaitenCreatedAt, Store.KaitenUpdatedAt}
    case Columns => {Store.Title, Store.BoardId, Store.ColumnType, Store.SortOrder, Store.WipLimit, Store.Archived,
                     Store.KaitenCreatedAt, Store.KaitenUpdatedAt}
    case Lanes => {Store.Title, Store.BoardId, Store.SortOrder, Store.Archived, Store.KaitenCreatedAt, Store.KaitenUpdatedAt}
    case Users => {Store.FullName, Store.Email, Store.Username, Store.Timezone, Store.Role, Store.IsAdmin, Store.TakeLicence,
                   Store.AppsPermissions, Store.Locked, Store.LastRequestDate, Store.KaitenCreatedAt, Store.KaitenUpdatedAt}
    case CardTypes => {Store.Name, Store.IconUrl, Store.KaitenCreatedAt, Store.KaitenUpdatedAt}
    case Tags => {Store.Name, Store.Color, Store.GroupName, Store.KaitenCreatedAt, Store.KaitenUpdatedAt}
    case PropertyDefinitions => {Store.Name, Store.FieldType, Store.SelectOptions, Store.KaitenCreatedAt, Store.KaitenUpdatedAt}
    case TimeLogs => {Store.CardId, Store.UserId, Store.RoleId, Store.TimeSpentMinutes, Store.Date, Store.Comment,
                      Store.CreatedAt, Store.UpdatedAt}
  }

  /**
   * Every object of one kind has the same keys, whatever the record holds:
   * the base keys and the kind's own. So the `columns` list of a batch of
   * one kind is this set, and each object's `undefined` values are written
   * as NULL.
   */
  lemma HashedRowColumns(kind: Scheduler.EntityType, d: Js, env: Env, hash: string)
    requires !IsNullish(d)
    ensures HashedRow(kind, d, env, hash).Ok? ==> HashedRow(kind, d, env, hash).value.Keys == BaseColumns + OwnColumns(kind)
  {
    var base := BaseFields(d, env, hash);
    assert base.Keys == BaseColumns;
    if kind == Scheduler.Cards {
      KindFieldsCards(d, env, base);
      if CardFields(d, env, base).Ok? {
        var v := CardFieldsValue(d, env, base);
        CardColumnKeys(d, base, v);
      }
    } else if kind == Scheduler.TimeLogs {
      var fields := TimeLogFields(d, env, base);
      assert KindFields(kind, d, env, base) == fields;
      if fields.Ok? {
        var createdAt := IsoOrNull(Prop(d, "created"), env).value;
        var updatedAt := IsoOrNull(Prop(d, "updated"), env).value;
        assert fields.value == TimeLogColumns(d, base, Slim(d), createdAt, updatedAt);
        TimeLogColumnKeys(d, base, Slim(d), createdAt, updatedAt);
      }
    } else {
      assert KindFields(kind, d, env, base) == Ok(PlainFields(kind, d, base));
      PlainColumnKeys(kind, d, base);
    }
  }

  lemma CardColumnKeys(d: Js, base: Store.Row, v: CardValues)
    ensures CardColumns(d, base, v).Keys == base.Keys + OwnColumns(Scheduler.Cards)
  {
  }

  lemma TimeLogColumnKeys(d: Js, base: Store.Row, slim: Js, createdAt: Js, updatedAt: Js)
    requires Store.RawPayload in base
    ensures TimeLogColumns(d, base, slim, createdAt, updatedAt).Keys == base.Keys + OwnColumns(Scheduler.TimeLogs)
  {
  }

  lemma PlainColumnKeys(kind: Scheduler.EntityType, d: Js, base: Store.Row)
    requires kind != Scheduler.Cards && kind != Scheduler.TimeLogs
    ensures PlainFields(kind, d, base).Keys == base.Keys + OwnColumns(kind)
  {
  }

  /** An object carries the record's `id`, and a `uid` that is truthy or `null`. */
  lemma HashedRowIdentity(kind: Scheduler.EntityType, d: Js, env: Env, hash: string)
    requires !IsNullish(d)
    ensures HashedRow(kind, d, env, hash).Ok? ==> HasIdentity(d, HashedRow(kind, d, env, hash).value)
  {
    var base := BaseFields(d, env, hash);
    var fields := KindFields(kind, d, env, base);
    if fields.Ok? {
      RowIdentity(d, env, hash, fields.value);
    }
  }

  /** The identity columns of an object built over the base columns. */
  lemma RowIdentity(d: Js, env: Env, hash: string, fields: Store.Row)
    requires Keeps(BaseFields(d, env, hash), fields, Store.Id) && Keeps(BaseFields(d, env, hash), fields, Store.Uid)
    ensures HasIdentity(d, fields)
  {
    var uid := Or(Prop(d, "uid"), Null);
    assert Truthy(uid) || uid == Null;
    assert fields[Store.Uid] == uid != Undefined;
  }

  /** An object carries the time of the transform, the hash of the record and the record itself (slimmed for a time log). */
  lemma HashedRowStamps(kind: Scheduler.EntityType, d: Js, env: Env, hash: string)
    requires !IsNullish(d)
    ensures HashedRow(kind, d, env, hash).Ok? ==> HasStamps(kind, d, env, hash, HashedRow(kind, d, env, hash).value)
  {
    var base := BaseFields(d, env, hash);
    var fields := KindFields(kind, d, env, base);
    if fields.Ok? {
      assert Store.RawPayload in fields.value && fields.value[Store.RawPayload] == (if kind == Scheduler.TimeLogs then Slim(d) else d);
    }
  }


  predicate HasIdentity(d: Js, row: Store.Row) {
    && Store.Id in row && row[Store.Id] == Prop(d, "id")
    && Store.Uid in row && (Truthy(row[Store.Uid]) || row[Store.Uid] == Null)
  }

  predicate HasStamps(kind: Scheduler.EntityType, d: Js, env: Env, hash: string, row: Store.Row) {
    && Store.SyncedAt in row && row[Store.SyncedAt] == Str(env.now)
    && Store.PayloadHash in row && row[Store.PayloadHash] == Str(hash)
    && Store.RawPayload in row && row[Store.RawPayload] == (if kind == Scheduler.TimeLogs then Slim(d) else d)
  }

  // ---------------------------------------------------------------------
  // the fallback chains, as they show in the stored row

  /**
   * A card row holds the fallback values: `space_id`, `parents_ids`,
   * `children_ids`, `members_ids` and `owner_id` as their chains give
   * them; `archived` and `blocked` are the card's when truthy, else
   * `false`; the two time sums are the card's when truthy, else `0`.
   */
  predicate CardFallbacks(d: Js, row: Store.Row) {
    && SpaceIdOf(d).Ok? && Store.SpaceId in row && row[Store.SpaceId] == SpaceIdOf(d).value
    && IdsFallback(Prop(d, "parents_ids"), Prop(d, "parents")).Ok?
    && Store.ParentsIds in row && row[Store.ParentsIds] == IdsFallback(Prop(d, "parents_ids"), Prop(d, "parents")).value
    && IdsFallback(Prop(d, "children_ids"), Prop(d, "children")).Ok?
    && Store.ChildrenIds in row && row[Store.ChildrenIds] == IdsFallback(Prop(d, "children_ids"), Prop(d, "children")).value
    && MemberIds(d).Ok? && Store.MembersIds in row && row[Store.MembersIds] == MemberIds(d).value
    && Store.OwnerId in row && row[Store.OwnerId] == OwnerIdOf(d)
    && Store.Archived in row && (if Truthy(Prop(d, "archived")) then row[Store.Archived] == Prop(d, "archived") else row[Store.Archived] == Bool(false))
    && Store.Blocked in row && (if Truthy(Prop(d, "blocked")) then row[Store.Blocked] == Prop(d, "blocked") else row[Store.Blocked] == Bool(false))
    && Store.TimeSpentSum in row && (if Truthy(Prop(d, "time_spent_sum")) then row[Store.TimeSpentSum] == Prop(d, "time_spent_sum") else row[Store.TimeSpentSum] == Num(0))
    && Store.TimeBlockedSum in row && (if Truthy(Prop(d, "time_blocked_sum")) then row[Store.TimeBlockedSum] == Prop(d, "time_blocked_sum") else row[Store.TimeBlockedSum] == Num(0))
  }

  /** Every card object carries the card's fallback values. */
  lemma CardRow(d: Js, env: Env, hash: string)
    requires !IsNullish(d)
    ensures HashedRow(Scheduler.Cards, d, env, hash).Ok? ==> CardFallbacks(d, HashedRow(Scheduler.Cards, d, env, hash).value)
  {
    var base := BaseFields(d, env, hash);
    KindFieldsCards(d, env, base);
    if CardFields(d, env, base).Ok? {
      var v := CardFieldsValue(d, env, base);
      CardRowOf(d, base, v);
    }
  }

  /** A card's columns are those `CardFields` computes. */
  lemma KindFieldsCards(d: Js, env: Env, base: Store.Row)
    ensures KindFields(Scheduler.Cards, d, env, base) == CardFields(d, env, base)
  {
  }

  /** The values of a card's fallible columns, once every one of them has gone through. */
  lemma CardFieldsValue(d: Js, env: Env, base: Store.Row) returns (v: CardValues)
    requires CardFields(d, env, base).Ok?
    ensures && SpaceIdOf(d) == Ok(v.spaceId)
      && IdsFallback(Prop(d, "parents_ids"), Prop(d, "parents")) == Ok(v.parentIds)
      && IdsFallback(Prop(d, "children_ids"), Prop(d, "children")) == Ok(v.childIds)
      && MemberIds(d) == Ok(v.memberIds)
    ensures CardFields(d, env, base).value == CardColumns(d, base, v)
  {
    v := CardValues(SpaceIdOf(d).value,
      IdsFallback(Prop(d, "parents_ids"), Prop(d, "parents")).value,
      IdsFallback(Prop(d, "children_ids"), Prop(d, "children")).value,
      MemberIds(d).value,
      IsoOrNull(Prop(d, "due_date"), env).value, IsoOrNull(Prop(d, "started_at"), env).value,
      IsoOrNull(Prop(d, "completed_at"), env).value, IsoOrNull(Prop(d, "created"), env).value,
      IsoOrNull(Prop(d, "updated"), env).value);
  }

  /** A card's columns carry its fallbacks. */
  lemma CardRowOf(d: Js, base: Store.Row, v: CardValues)
    requires && SpaceIdOf(d) == Ok(v.spaceId)
      && IdsFallback(Prop(d, "parents_ids"), Prop(d, "parents")) == Ok(v.parentIds)
      && IdsFallback(Prop(d, "children_ids"), Prop(d, "children")) == Ok(v.childIds)
      && MemberIds(d) == Ok(v.memberIds)
    ensures CardFallbacks(d, CardColumns(d, base, v))
  {
    CardIdColumns(d, base, v);
    CardOwnerColumn(d, base, v);
    CardFlagColumns(d, base, v);
    CardSumColumns(d, base, v);
  }

  /** The lookups of the earlier card columns, for any values. */
  lemma EarlierLookups(base: Store.Row, title: Js, desc: Js, space: Js, board: Js, column: Js, lane: Js, typeId: Js,
                       owner: Js, creator: Js, state: Js, archived: Js, blocked: Js, size: Js)
    ensures var r := base
      [Store.Title := title][Store.Description := desc][Store.SpaceId := space][Store.BoardId := board]
      [Store.ColumnId := column][Store.LaneId := lane][Store.TypeId := typeId][Store.OwnerId := owner]
      [Store.CreatorId := creator][Store.State := state][Store.Archived := archived][Store.Blocked := blocked]
      [Store.SizeText := size];
      && Store.SpaceId in r && r[Store.SpaceId] == space && Store.OwnerId in r && r[Store.OwnerId] == owner
      && Store.Archived in r && r[Store.Archived] == archived && Store.Blocked in r && r[Store.Blocked] == blocked
  {
  }

  /** The lookups of the later card columns, for any values; the earlier columns stay. */
  lemma LaterLookups(e: Store.Row, due: Js, spent: Js, blockedSum: Js, started: Js, completed: Js, props: Js, tags: Js,
                     parents: Js, children: Js, members: Js, workload: Js, created: Js, updated: Js)
    ensures var r := e
      [Store.DueDate := due][Store.TimeSpentSum := spent][Store.TimeBlockedSum := blockedSum][Store.StartedAt := started]
      [Store.CompletedAt := completed][Store.Properties := props][Store.TagsCache := tags][Store.ParentsIds := parents]
      [Store.ChildrenIds := children][Store.MembersIds := members][Store.EstimateWorkload := workload]
      [Store.KaitenCreatedAt := created][Store.KaitenUpdatedAt := updated];
      && Store.TimeSpentSum in r && r[Store.TimeSpentSum] == spent && Store.TimeBlockedSum in r && r[Store.TimeBlockedSum] == blockedSum
      && Store.ParentsIds in r && r[Store.ParentsIds] == parents && Store.ChildrenIds in r && r[Store.ChildrenIds] == children
      && Store.MembersIds in r && r[Store.MembersIds] == members
  {
  }

  /** The later card columns leave the earlier columns as they were. */
  lemma LaterKeeps(e: Store.Row, due: Js, spent: Js, blockedSum: Js, started: Js, completed: Js, props: Js, tags: Js,
                   parents: Js, children: Js, members: Js, workload: Js, created: Js, updated: Js)
    ensures var r := e
      [Store.DueDate := due][Store.TimeSpentSum := spent][Store.TimeBlockedSum := blockedSum][Store.StartedAt := started]
      [Store.CompletedAt := completed][Store.Properties := props][Store.TagsCache := tags][Store.ParentsIds := parents]
      [Store.ChildrenIds := children][Store.MembersIds := members][Store.EstimateWorkload := workload]
      [Store.KaitenCreatedAt := created][Store.KaitenUpdatedAt := updated];
      && (Store.SpaceId in e ==> Store.SpaceId in r && r[Store.SpaceId] == e[Store.SpaceId])
      && (Store.OwnerId in e ==> Store.OwnerId in r && r[Store.OwnerId] == e[Store.OwnerId])
      && (Store.Archived in e ==> Store.Archived in r && r[Store.Archived] == e[Store.Archived])
      && (Store.Blocked in e ==> Store.Blocked in r && r[Store.Blocked] == e[Store.Blocked])
  {
  }

  lemma CardIdColumns(d: Js, base: Store.Row, v: CardValues)
    ensures var r := CardColumns(d, base, v);
      && Store.SpaceId in r && r[Store.SpaceId] == v.spaceId
      && Store.ParentsIds in r && r[Store.ParentsIds] == v.parentIds
      && Store.ChildrenIds in r && r[Store.ChildrenIds] == v.childIds
      && Store.MembersIds in r && r[Store.MembersIds] == v.memberIds
  {
    var e := CardEarlierColumns(d, base, v);
    EarlierLookups(base, Prop(d, "title"), Or(Prop(d, "description"), Null), v.spaceId, Prop(d, "board_id"), Prop(d, "column_id"),
      Or(Prop(d, "lane_id"), Null), Or(Prop(d, "type_id"), Null), OwnerIdOf(d), Or(Prop(d, "creator_id"), Null), Or(Prop(d, "state"), Null),
      Or(Prop(d, "archived"), Bool(false)), Or(Prop(d, "blocked"), Bool(false)), Or(Prop(d, "size_text"), Null));
    LaterLookups(e, v.dueDate, Or(Prop(d, "time_spent_sum"), Num(0)), Or(Prop(d, "time_blocked_sum"), Num(0)), v.startedAt, v.completedAt,
      Or(Prop(d, "properties"), Obj([])), Or(Prop(d, "tags"), Arr([])), v.parentIds, v.childIds, v.memberIds,
      Or(Prop(d, "estimate_workload"), Num(0)), v.createdAt, v.updatedAt);
    LaterKeeps(e, v.dueDate, Or(Prop(d, "time_spent_sum"), Num(0)), Or(Prop(d, "time_blocked_sum"), Num(0)), v.startedAt, v.completedAt,
      Or(Prop(d, "properties"), Obj([])), Or(Prop(d, "tags"), Arr([])), v.parentIds, v.childIds, v.memberIds,
      Or(Prop(d, "estimate_workload"), Num(0)), v.createdAt, v.updatedAt);
  }

  lemma CardOwnerColumn(d: Js, base: Store.Row, v: CardValues)
    ensures var r := CardColumns(d, base, v);
      Store.OwnerId in r && r[Store.OwnerId] == OwnerIdOf(d)
  {
    var e := CardEarlierColumns(d, base, v);
    EarlierLookups(base, Prop(d, "title"), Or(Prop(d, "description"), Null), v.spaceId, Prop(d, "board_id"), Prop(d, "column_id"),
      Or(Prop(d, "lane_id"), Null), Or(Prop(d, "type_id"), Null), OwnerIdOf(d), Or(Prop(d, "creator_id"), Null), Or(Prop(d, "state"), Null),
      Or(Prop(d, "archived"), Bool(false)), Or(Prop(d, "blocked"), Bool(false)), Or(Prop(d, "size_text"), Null));
    LaterLookups(e, v.dueDate, Or(Prop(d, "time_spent_sum"), Num(0)), Or(Prop(d, "time_blocked_sum"), Num(0)), v.startedAt, v.completedAt,
      Or(Prop(d, "properties"), Obj([])), Or(Prop(d, "tags"), Arr([])), v.parentIds, v.childIds, v.memberIds,
      Or(Prop(d, "estimate_workload"), Num(0)), v.createdAt, v.updatedAt);
    LaterKeeps(e, v.dueDate, Or(Prop(d, "time_spent_sum"), Num(0)), Or(Prop(d, "time_blocked_sum"), Num(0)), v.startedAt, v.completedAt,
      Or(Prop(d, "properties"), Obj([])), Or(Prop(d, "tags"), Arr([])), v.parentIds, v.childIds, v.memberIds,
      Or(Prop(d, "estimate_workload"), Num(0)), v.createdAt, v.updatedAt);
  }

  lemma CardFlagColumns(d: Js, base: Store.Row, v: CardValues)
    ensures var r := CardColumns(d, base, v);
      && Store.Archived in r && (if Truthy(Prop(d, "archived")) then r[Store.Archived] == Prop(d, "archived") else r[Store.Archived] == Bool(false))
      && Store.Blocked in r && (if Truthy(Prop(d, "blocked")) then r[Store.Blocked] == Prop(d, "blocked") else r[Store.Blocked] == Bool(false))
  {
    var e := CardEarlierColumns(d, base, v);
    EarlierLookups(base, Prop(d, "title"), Or(Prop(d, "description"), Null), v.spaceId, Prop(d, "board_id"), Prop(d, "column_id"),
      Or(Prop(d, "lane_id"), Null), Or(Prop(d, "type_id"), Null), OwnerIdOf(d), Or(Prop(d, "creator_id"), Null), Or(Prop(d, "state"), Null),
      Or(Prop(d, "archived"), Bool(false)), Or(Prop(d, "blocked"), Bool(false)), Or(Prop(d, "size_text"), Null));
    LaterLookups(e, v.dueDate, Or(Prop(d, "time_spent_sum"), Num(0)), Or(Prop(d, "time_blocked_sum"), Num(0)), v.startedAt, v.completedAt,
      Or(Prop(d, "properties"), Obj([])), Or(Prop(d, "tags"), Arr([])), v.parentIds, v.childIds, v.memberIds,
      Or(Prop(d, "estimate_workload"), Num(0)), v.createdAt, v.updatedAt);
    LaterKeeps(e, v.dueDate, Or(Prop(d, "time_spent_sum"), Num(0)), Or(Prop(d, "time_blocked_sum"), Num(0)), v.startedAt, v.completedAt,
      Or(Prop(d, "properties"), Obj([])), Or(Prop(d, "tags"), Arr([])), v.parentIds, v.childIds, v.memberIds,
      Or(Prop(d, "estimate_workload"), Num(0)), v.createdAt, v.updatedAt);
  }

  lemma CardSumColumns(d: Js, base: Store.Row, v: CardValues)
    ensures var r := CardColumns(d, base, v);
      && Store.TimeSpentSum in r && (if Truthy(Prop(d, "time_spent_sum")) then r[Store.TimeSpentSum] == Prop(d, "time_spent_sum") else r[Store.TimeSpentSum] == Num(0))
      && Store.TimeBlockedSum in r && (if Truthy(Prop(d, "time_blocked_sum")) then r[Store.TimeBlockedSum] == Prop(d, "time_blocked_sum") else r[Store.TimeBlockedSum] == Num(0))
  {
    var e := CardEarlierColumns(d, base, v);
    EarlierLookups(base, Prop(d, "title"), Or(Prop(d, "description"), Null), v.spaceId, Prop(d, "board_id"), Prop(d, "column_id"),
      Or(Prop(d, "lane_id"), Null), Or(Prop(d, "type_id"), Null), OwnerIdOf(d), Or(Prop(d, "creator_id"), Null), Or(Prop(d, "state"), Null),
      Or(Prop(d, "archived"), Bool(false)), Or(Prop(d, "blocked"), Bool(false)), Or(Prop(d, "size_text"), Null));
    LaterLookups(e, v.dueDate, Or(Prop(d, "time_spent_sum"), Num(0)), Or(Prop(d, "time_blocked_sum"), Num(0)), v.startedAt, v.completedAt,
      Or(Prop(d, "properties"), Obj([])), Or(Prop(d, "tags"), Arr([])), v.parentIds, v.childIds, v.memberIds,
      Or(Prop(d, "estimate_workload"), Num(0)), v.createdAt, v.updatedAt);
    LaterKeeps(e, v.dueDate, Or(Prop(d, "time_spent_sum"), Num(0)), Or(Prop(d, "time_blocked_sum"), Num(0)), v.startedAt, v.completedAt,
      Or(Prop(d, "properties"), Obj([])), Or(Prop(d, "tags"), Arr([])), v.parentIds, v.childIds, v.memberIds,
      Or(Prop(d, "estimate_workload"), Num(0)), v.createdAt, v.updatedAt);
  }

  /**
   * A time-log row holds the `??` chains: `card_id`, `user_id`, `role_id`,
   * the minutes (`0` at the end of the chain) and the date, none of them
   * `undefined`.
   */
  predicate TimeLogChains(d: Js, row: Store.Row) {
    && Store.CardId in row && row[Store.CardId] == CardIdOf(d)
    && Store.UserId in row && row[Store.UserId] == UserIdOf(d)
    && Store.RoleId in row && row[Store.RoleId] == RoleIdOf(d)
    && Store.TimeSpentMinutes in row
    && row[Store.TimeSpentMinutes] == (if !IsNullish(Prop(d, "time_spent_minutes")) then Prop(d, "time_spent_minutes")
                                       else if !IsNullish(Prop(d, "time_spent")) then Prop(d, "time_spent") else Num(0))
    && Store.Date in row
    && row[Store.Date] == (if !IsNullish(Prop(d, "date")) then Prop(d, "date")
                           else if !IsNullish(Prop(d, "for_date")) then Prop(d, "for_date") else Null)
  }

  /** Every time-log object carries the values of the id, minutes and date chains, and the slimmed payload. */
  lemma TimeLogRow(d: Js, env: Env, hash: string)
    requires !IsNullish(d)
    ensures HashedRow(Scheduler.TimeLogs, d, env, hash).Ok? ==> TimeLogChains(d, HashedRow(Scheduler.TimeLogs, d, env, hash).value)
    ensures var r := HashedRow(Scheduler.TimeLogs, d, env, hash);
      r.Ok? ==> Store.RawPayload in r.value && r.value[Store.RawPayload] == Slim(d)
  {
    var base := BaseFields(d, env, hash);
    var fields := TimeLogFields(d, env, base);
    if fields.Ok? {
      assert KindFields(Scheduler.TimeLogs, d, env, base) == fields;
      var createdAt := IsoOrNull(Prop(d, "created"), env).value;
      var updatedAt := IsoOrNull(Prop(d, "updated"), env).value;
      assert fields.value == TimeLogColumns(d, base, Slim(d), createdAt, updatedAt);
      TimeLogColumnValues(d, base, Slim(d), createdAt, updatedAt);
      SlimPayload(d);
    }
  }


  lemma TimeLogColumnValues(d: Js, base: Store.Row, slim: Js, createdAt: Js, updatedAt: Js)
    ensures TimeLogChains(d, TimeLogColumns(d, base, slim, createdAt, updatedAt))
  {
    var minutes := Coalesce(Prop(d, "time_spent_minutes"), Coalesce(Prop(d, "time_spent"), Num(0)));
    var date := Coalesce(Prop(d, "date"), Coalesce(Prop(d, "for_date"), Null));
    TimeLogUpdates(base, slim, CardIdOf(d), UserIdOf(d), RoleIdOf(d), minutes, date, Or(Prop(d, "comment"), Null), createdAt, updatedAt);
    CoalesceChain(Prop(d, "time_spent_minutes"), Prop(d, "time_spent"), Num(0));
    CoalesceChain(Prop(d, "date"), Prop(d, "for_date"), Null);
  }

  /** The lookups of the time-log columns, for any values. */
  lemma TimeLogUpdates(base: Store.Row, slim: Js, card: Js, user: Js, role: Js, minutes: Js, date: Js, comment: Js, createdAt: Js, updatedAt: Js)
    ensures var r := base
      [Store.RawPayload := slim]
      [Store.CardId := card]
      [Store.UserId := user]
      [Store.RoleId := role]
      [Store.TimeSpentMinutes := minutes]
      [Store.Date := date]
      [Store.Comment := comment]
      [Store.CreatedAt := createdAt]
      [Store.UpdatedAt := updatedAt];
      && Store.CardId in r && r[Store.CardId] == card && Store.UserId in r && r[Store.UserId] == user
      && Store.RoleId in r && r[Store.RoleId] == role && Store.TimeSpentMinutes in r && r[Store.TimeSpentMinutes] == minutes
      && Store.Date in r && r[Store.Date] == date
  {
  }

  /** `a ?? b ?? c` picks the first of the three that is neither `null` nor `undefined`. */
  lemma CoalesceChain(a: Js, b: Js, c: Js)
    ensures Coalesce(a, Coalesce(b, c)) == if !IsNullish(a) then a else if !IsNullish(b) then b else c
  {
  }
}
