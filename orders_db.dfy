/**
 * The data layer of the bot (database.py): the `orders` table held as a map
 * from row id to record, the field allow-list that guards every column
 * update, the "latest order of a user" queries, and the merge of the three
 * configuration sources into one dictionary.
 *
 * The SQL engine is not modelled: each statement becomes the change it makes
 * to the map, and each query the row it selects.
 */
module OrdersDb {
  import opened Wrappers

  /** One row of `orders`. Columns other than the fixed ones live in `fields`. */
  datatype Order = Order(
    userId: int,
    username: string,
    fullName: string,
    orderType: string,
    status: string,
    fields: map<string, string>)
  {
    /** The row after `UPDATE orders SET field = val`. */
    function WithField(field: string, val: string): (o: Order)
      ensures o.userId == userId && o.username == username && o.fullName == fullName && o.orderType == orderType
      ensures field == "status" ==> o.status == val && o.fields == fields
      ensures field != "status" ==> o.status == status && o.fields == fields[field := val]
    {
      if field == "status" then this.(status := val) else this.(fields := fields[field := val])
    }
  }

  /** `ALLOWED_FIELDS`: the only columns `update_order_field` lets through. */
  const AllowedFields: set<string> :=
    {"photo_file_id", "work_type", "dimensions_info", "conditions", "urgency", "comment", "status"}

  /** The columns the engine-repair flow of the bot writes. */
  const EngineFields: set<string> := {"car_brand", "car_year", "engine_issue"}

  /** The allow-list the engine-repair flow needs in order to advance. */
  const CorrectedAllowedFields: set<string> := AllowedFields + EngineFields

  /** None of the engine columns is on the allow-list as written. */
  lemma EngineFieldsRefused()
    ensures "car_brand" !in AllowedFields && "car_year" !in AllowedFields && "engine_issue" !in AllowedFields
  {
    forall f | f in AllowedFields ensures f != "car_brand" && f != "car_year" && f != "engine_issue" {
      assert f[0] != 'c' || |f| == 7 || |f| == 10;
    }
  }

  /** The corrected allow-list holds the engine columns and every column allowed before. */
  lemma EngineFieldsAllowed()
    ensures "car_brand" in CorrectedAllowedFields && "car_year" in CorrectedAllowedFields
    ensures "engine_issue" in CorrectedAllowedFields && AllowedFields <= CorrectedAllowedFields
  {
  }

  /** The statuses `get_user_last_active_order` counts as active. */
  const ActiveStatuses: set<string> := {"new", "discussion", "approved", "work"}

  // ---------------------------------------------------------------------------
  // The table as a value

  /** `UPDATE orders SET field = val WHERE id = oid`: a missing id changes nothing. */
  function SetField(rows: map<nat, Order>, oid: nat, field: string, val: string): (r: map<nat, Order>)
    ensures r.Keys == rows.Keys
    ensures oid in rows ==> r[oid] == rows[oid].WithField(field, val)
    ensures forall id :: id in rows && id != oid ==> r[id] == rows[id]
  {
    if oid in rows then rows[oid := rows[oid].WithField(field, val)] else rows
  }

  /** `UPDATE orders SET status = 'rejected' WHERE user_id = u AND status = 'filling'` */
  function CancelFilling(rows: map<nat, Order>, userId: int): (r: map<nat, Order>)
    ensures r.Keys == rows.Keys
    ensures forall id :: id in rows && rows[id].userId == userId && rows[id].status == "filling" ==>
      r[id] == rows[id].(status := "rejected")
    ensures forall id :: id in rows && (rows[id].userId != userId || rows[id].status != "filling") ==>
      r[id] == rows[id]
  {
    map id | id in rows ::
      if rows[id].userId == userId && rows[id].status == "filling" then rows[id].(status := "rejected") else rows[id]
  }

  /** Row `id` belongs to `userId` and has one of `statuses`. */
  predicate Matches(rows: map<nat, Order>, id: nat, userId: int, statuses: set<string>) {
    id in rows && rows[id].userId == userId && rows[id].status in statuses
  }

  /** `r` is what `... ORDER BY id DESC LIMIT 1` returns: the largest matching id, or none. */
  predicate IsLatest(rows: map<nat, Order>, userId: int, statuses: set<string>, r: Option<nat>) {
    match r
    case None => forall id :: id in rows ==> !Matches(rows, id, userId, statuses)
    case Some(top) => Matches(rows, top, userId, statuses) && forall id :: id in rows && Matches(rows, id, userId, statuses) ==> id <= top
  }

  /** The largest matching id below `bound`. */
  function LatestBelow(rows: map<nat, Order>, bound: nat, userId: int, statuses: set<string>): (r: Option<nat>)
    ensures r.None? ==> forall id: nat :: id < bound ==> !Matches(rows, id, userId, statuses)
    ensures r.Some? ==> r.value < bound && Matches(rows, r.value, userId, statuses)
    ensures r.Some? ==> forall id: nat :: r.value < id < bound ==> !Matches(rows, id, userId, statuses)
  {
    if bound == 0 then None
    else if Matches(rows, bound - 1, userId, statuses) then Some(bound - 1)
    else LatestBelow(rows, bound - 1, userId, statuses)
  }

  /** At most one answer satisfies `IsLatest`. */
  lemma LatestIsUnique(rows: map<nat, Order>, userId: int, statuses: set<string>, a: Option<nat>, b: Option<nat>)
    requires IsLatest(rows, userId, statuses, a) && IsLatest(rows, userId, statuses, b)
    ensures a == b
  {
    if a.Some? {
      assert Matches(rows, a.value, userId, statuses);
    }
    if b.Some? {
      assert Matches(rows, b.value, userId, statuses);
    }
  }

  // ---------------------------------------------------------------------------
  // The configuration dictionary

  /** A `(key, value)` row of one configuration source. */
  datatype ConfigRow = ConfigRow(key: string, value: string)

  /** The dictionary after `for row in rows: cfg[row.key] = row.value`. */
  function Overlay(cfg: map<string, string>, rows: seq<ConfigRow>): map<string, string>
    decreases |rows|
  {
    if rows == [] then cfg
    else Overlay(cfg, rows[..|rows| - 1])[rows[|rows| - 1].key := rows[|rows| - 1].value]
  }

  /** The value of the last row with key `k`. */
  function LastValue(rows: seq<ConfigRow>, k: string): (r: Option<string>)
    ensures r.Some? <==> exists i :: 0 <= i < |rows| && rows[i].key == k
    ensures r.Some? ==> exists i :: 0 <= i < |rows| && rows[i].key == k && rows[i].value == r.value
    decreases |rows|
  {
    if rows == [] then None
    else if rows[|rows| - 1].key == k then Some(rows[|rows| - 1].value)
    else
      var r := LastValue(rows[..|rows| - 1], k);
      assert forall i :: 0 <= i < |rows| - 1 ==> rows[..|rows| - 1][i] == rows[i];
      r
  }

  function Lookup(cfg: map<string, string>, k: string): Option<string> {
    if k in cfg then Some(cfg[k]) else None
  }

  /** A later row with the same key overrides an earlier one and the keys of `cfg`. */
  lemma {:induction false} OverlayLookup(cfg: map<string, string>, rows: seq<ConfigRow>, k: string)
    ensures Lookup(Overlay(cfg, rows), k) == if LastValue(rows, k).Some? then LastValue(rows, k) else Lookup(cfg, k)
    decreases |rows|
  {
    if rows != [] {
      OverlayLookup(cfg, rows[..|rows| - 1], k);
    }
  }

  /** `for row in cursor.fetchall(): cfg[row[...]] = row[...]` */
  method MergeRows(cfg: map<string, string>, rows: seq<ConfigRow>) returns (r: map<string, string>)
    ensures r == Overlay(cfg, rows)
  {
    r := cfg;
    var i := 0;
    while i < |rows|
      invariant 0 <= i <= |rows|
      invariant r == Overlay(cfg, rows[..i])
    {
      assert rows[..i + 1][..i] == rows[..i];
      r := r[rows[i].key := rows[i].value];
      i := i + 1;
    }
    assert rows[..i] == rows;
  }

  /** A source whose query raised contributes no rows. */
  function Rows(source: Option<seq<ConfigRow>>): seq<ConfigRow> {
    source.GetOr([])
  }

  /** The `key`/`value` rows are read only when `SHOW COLUMNS` lists both columns. */
  function KeyValueRows(columns: Option<seq<string>>, rows: Option<seq<ConfigRow>>): seq<ConfigRow> {
    if columns.Some? && "key" in columns.value && "value" in columns.value then Rows(rows) else []
  }

  /** The dictionary `get_bot_config` returns for the given query results. */
  function ConfigFrom(settings: Option<seq<ConfigRow>>, cfgRows: Option<seq<ConfigRow>>,
                      columns: Option<seq<string>>, keyRows: Option<seq<ConfigRow>>): map<string, string>
  {
    Overlay(Overlay(Overlay(map[], Rows(settings)), Rows(cfgRows)), KeyValueRows(columns, keyRows))
  }

  /**
   * `get_bot_config`: `settings`, then `bot_config` by `cfg_key`, then
   * `bot_config` by `key`, each query that raises being skipped. `None` stands
   * for a query that raised.
   */
  method GetBotConfig(settings: Option<seq<ConfigRow>>, cfgRows: Option<seq<ConfigRow>>,
                      columns: Option<seq<string>>, keyRows: Option<seq<ConfigRow>>)
    returns (cfg: map<string, string>)
    ensures cfg == ConfigFrom(settings, cfgRows, columns, keyRows)
  {
    cfg := map[];
    if settings.Some? {
      cfg := MergeRows(cfg, settings.value);
    }
    if cfgRows.Some? {
      cfg := MergeRows(cfg, cfgRows.value);
    }
    if columns.Some? && "key" in columns.value && "value" in columns.value && keyRows.Some? {
      cfg := MergeRows(cfg, keyRows.value);
    }
  }

  /**
   * Later sources win: a key is read from the `key`/`value` rows if they hold
   * it, else from the `cfg_key` rows, else from `settings`, and within one
   * source the last row wins.
   */
  lemma {:induction false} ConfigPrecedence(settings: Option<seq<ConfigRow>>, cfgRows: Option<seq<ConfigRow>>,
                                            columns: Option<seq<string>>, keyRows: Option<seq<ConfigRow>>, k: string)
    ensures Lookup(ConfigFrom(settings, cfgRows, columns, keyRows), k) ==
      if LastValue(KeyValueRows(columns, keyRows), k).Some? then LastValue(KeyValueRows(columns, keyRows), k)
      else if LastValue(Rows(cfgRows), k).Some? then LastValue(Rows(cfgRows), k)
      else LastValue(Rows(settings), k)
  {
    var first := Overlay(map[], Rows(settings));
    var second := Overlay(first, Rows(cfgRows));
    OverlayLookup(second, KeyValueRows(columns, keyRows), k);
    OverlayLookup(first, Rows(cfgRows), k);
    OverlayLookup(map[], Rows(settings), k);
  }

  /** `get_admin_chat_id`: the stored id, or "0" when no source holds one. */
  function AdminChatId(cfg: map<string, string>): (r: string)
    ensures Lookup(cfg, "admin_chat_id").None? ==> r == "0"
    ensures Lookup(cfg, "admin_chat_id").Some? ==> r == Lookup(cfg, "admin_chat_id").value
  {
    Lookup(cfg, "admin_chat_id").GetOr("0")
  }

  /**
   * The admin chat id read through `get_bot_config`: the last `admin_chat_id`
   * row of the `key`/`value` rows, else of the `cfg_key` rows, else of
   * `settings`, and "0" when no source has one.
   */
  lemma AdminChatIdSources(settings: Option<seq<ConfigRow>>, cfgRows: Option<seq<ConfigRow>>,
                           columns: Option<seq<string>>, keyRows: Option<seq<ConfigRow>>)
    ensures var id := AdminChatId(ConfigFrom(settings, cfgRows, columns, keyRows));
      var fromKeys, fromCfg, fromSettings :=
        LastValue(KeyValueRows(columns, keyRows), "admin_chat_id"),
        LastValue(Rows(cfgRows), "admin_chat_id"),
        LastValue(Rows(settings), "admin_chat_id");
      (fromKeys.Some? ==> id == fromKeys.value)
      && (fromKeys.None? && fromCfg.Some? ==> id == fromCfg.value)
      && (fromKeys.None? && fromCfg.None? && fromSettings.Some? ==> id == fromSettings.value)
      && (fromKeys.None? && fromCfg.None? && fromSettings.None? ==> id == "0")
  {
    ConfigPrecedence(settings, cfgRows, columns, keyRows, "admin_chat_id");
  }

  // ---------------------------------------------------------------------------
  // The table as an object

  /** The `orders` table with its auto-increment counter and the allow-list it is used with. */
  class OrdersTable {
    var rows: map<nat, Order>
    var nextId: nat
    const allowed: set<string>

    /** Every row id was handed out by the counter, which starts at 1. */
    ghost predicate Valid()
      reads this
    {
      1 <= nextId && forall id :: id in rows ==> 1 <= id < nextId
    }

    constructor(allowed: set<string>)
      ensures Valid() && rows == map[] && nextId == 1 && this.allowed == allowed
    {
      rows := map[];
      nextId := 1;
      this.allowed := allowed;
    }

    /** `create_order`: a new `'filling'` row under a fresh id, which is returned. */
    method CreateOrder(userId: int, username: string, fullName: string, orderType: string := "standard")
      returns (oid: nat)
      requires Valid()
      modifies this
      ensures Valid()
      ensures oid == old(nextId) && oid !in old(rows) && nextId == old(nextId) + 1
      ensures rows == old(rows)[oid := Order(userId, username, fullName, orderType, "filling", map[])]
    {
      oid := nextId;
      rows := rows[oid := Order(userId, username, fullName, orderType, "filling", map[])];
      nextId := nextId + 1;
    }

    /**
     * `update_order_field`: a field outside the allow-list raises `ValueError`
     * (`accepted` is false) before the table is touched.
     */
    method UpdateOrderField(oid: nat, field: string, val: string) returns (accepted: bool)
      requires Valid()
      modifies this
      ensures Valid() && nextId == old(nextId)
      ensures accepted <==> field in allowed
      ensures accepted ==> rows == SetField(old(rows), oid, field, val)
      ensures !accepted ==> rows == old(rows)
    {
      if field !in allowed {
        return false;
      }
      rows := SetField(rows, oid, field, val);
      accepted := true;
    }

    /** `finish_order_creation`: status `'new'` on that one row. */
    method FinishOrderCreation(oid: nat)
      requires Valid()
      modifies this
      ensures Valid() && nextId == old(nextId)
      ensures rows == SetField(old(rows), oid, "status", "new")
    {
      rows := SetField(rows, oid, "status", "new");
    }

    /** `cancel_old_filling_orders` */
    method CancelOldFillingOrders(userId: int)
      requires Valid()
      modifies this
      ensures Valid() && nextId == old(nextId)
      ensures rows == CancelFilling(old(rows), userId)
    {
      rows := CancelFilling(rows, userId);
    }

    /** `get_active_order_id`: the user's newest `'filling'` order. */
    function ActiveOrderId(userId: int): (r: Option<nat>)
      requires Valid()
      reads this
      ensures IsLatest(rows, userId, {"filling"}, r)
    {
      LatestBelow(rows, nextId, userId, {"filling"})
    }

    /** `get_user_last_active_order`: the user's newest order in an active status. */
    function LastActiveOrder(userId: int): (r: Option<nat>)
      requires Valid()
      reads this
      ensures IsLatest(rows, userId, ActiveStatuses, r)
    {
      LatestBelow(rows, nextId, userId, ActiveStatuses)
    }
  }

  // ---------------------------------------------------------------------------
  // How the operations combine

  /** A freshly created order is its user's newest `'filling'` order. */
  lemma CreatedIsActive(rows: map<nat, Order>, nextId: nat, o: Order)
    requires forall id :: id in rows ==> id < nextId
    requires o.status == "filling"
    ensures IsLatest(rows[nextId := o], o.userId, {"filling"}, Some(nextId))
  {
    var after := rows[nextId := o];
    forall id: nat | id in after && Matches(after, id, o.userId, {"filling"}) ensures id <= nextId {
      assert id == nextId || id in rows;
    }
  }

  /** After cancelling, the user has no `'filling'` order left and every other user keeps theirs. */
  lemma {:induction false} CancelLeavesNoDraft(rows: map<nat, Order>, userId: int, other: int)
    requires other != userId
    ensures IsLatest(CancelFilling(rows, userId), userId, {"filling"}, None)
    ensures forall id :: Matches(CancelFilling(rows, userId), id, other, {"filling"}) <==> Matches(rows, id, other, {"filling"})
  {
    var after := CancelFilling(rows, userId);
    forall id ensures !Matches(after, id, userId, {"filling"}) {
      if id in rows && rows[id].userId == userId && rows[id].status == "filling" {
        assert after[id].status == "rejected";
      }
    }
  }

  /**
   * Finishing a user's newest draft makes it an active order, so the
   * last-active query then answers with that id or a newer one.
   */
  lemma {:induction false} FinishedIsActive(rows: map<nat, Order>, oid: nat, userId: int, r: Option<nat>)
    requires Matches(rows, oid, userId, {"filling"})
    requires IsLatest(SetField(rows, oid, "status", "new"), userId, ActiveStatuses, r)
    ensures r.Some? && oid <= r.value
  {
    var after := SetField(rows, oid, "status", "new");
    assert after[oid].status == "new";
    assert Matches(after, oid, userId, ActiveStatuses);
  }

  /** A rejected field leaves every row as it was; an accepted one changes only row `oid`. */
  lemma {:induction false} UpdateTouchesOneRow(rows: map<nat, Order>, oid: nat, field: string, val: string, id: nat)
    requires id in rows && id != oid
    requires field != "status"
    ensures SetField(rows, oid, field, val)[id] == rows[id]
    ensures oid in rows ==> SetField(rows, oid, field, val)[oid].status == rows[oid].status
  {
  }
}
