/** The order-record shaping of src/composables/useDispatchApi.js.

    Every `api.*` call is an input here: a read is the rows it resolves to,
    or the error it rejects with (`Result<Value>`), and `JSON.parse` is the
    parameter `parse`. What a write would send is returned as the record in
    `ApiOutcome.write`; the outcome of that write never changes what the
    operations resolve to, so it is not an input. Each operation is then a
    function from these inputs, except `fetchUnfinishedOrders`, whose loop
    is a method proved against the function `UnfinishedOrders`. */
module DispatchApi {
  import opened Json

  const EMPTY: Value := Obj(map[])
  const PENDING: Value := Str("pending")
  const OK_TRUE: Value := Obj(map["ok" := Bool(true)])
  const OK_FALSE: Value := Obj(map["ok" := Bool(false)])

  /** The driver name used when none is given. */
  const DEFAULT_DRIVER_NAME: string := "\U{53F8}\U{6A5F}"

  /** The record an operation hands to `api.add` / `api.post` (before
      `JSON.stringify`), if it writes one, and the value it resolves to. */
  datatype ApiOutcome = ApiOutcome(write: Option<Value>, result: Value)

  /** `typeof row.datalist === 'string' ? JSON.parse(row.datalist) :
      row.datalist || {}` inside its own try/catch: a text is parsed, any
      other value is kept unless falsy, and whatever throws (a null row, a
      text that does not parse) leaves `{}`. */
  function DatalistOf(row: Value, parse: string -> Result<Value>): (d: Value)
    ensures Nullish(row) ==> d == EMPTY
    ensures row.Obj? && "datalist" in row.fields && row.fields["datalist"].Str? ==>
              d == match parse(row.fields["datalist"].s) case Ok(v) => v case Err(_) => EMPTY
    ensures !(row.Obj? && "datalist" in row.fields && row.fields["datalist"].Str?) ==> Truthy(d)
    ensures !Nullish(row) && !Field(row, "datalist").Str? ==> d == Or(Field(row, "datalist"), EMPTY)
  {
    NamedField(row, "datalist");
    match Prop(row, "datalist")
    case Err(_) => EMPTY
    case Ok(raw) =>
      if raw.Str? then
        match parse(raw.s)
        case Ok(v) => v
        case Err(_) => EMPTY
      else Or(raw, EMPTY)
  }

  /** `fetchOrderBySnkey`: null when the read gives no array or an empty
      one, else the first row's `snkey` as `orderId` followed by the keys
      of its datalist. A rejected read, or a first row that is null, throws
      out of the call. */
  function FetchOrderBySnkey(rows: Result<Value>, parse: string -> Result<Value>): (r: Result<Value>)
    ensures rows.Err? ==> r == Err(rows.error)
    ensures rows.Ok? && (!rows.value.Arr? || rows.value.items == []) ==> r == Ok(Null)
    ensures rows.Ok? && rows.value.Arr? && rows.value.items != [] ==> (r.Err? <==> Nullish(rows.value.items[0]))
    ensures r.Ok? ==> r.value.Null? || (r.value.Obj? && "orderId" in r.value.fields)
  {
    match rows
    case Err(e) => Err(e)
    case Ok(v) =>
      if !v.Arr? || v.items == [] then Ok(Null)
      else
        var row := v.items[0];
        var datalist := DatalistOf(row, parse);
        match Prop(row, "snkey")
        case Err(e) => Err(e)
        case Ok(snkey) => Ok(Obj(map["orderId" := snkey] + Own(datalist)))
  }

  /** The record found for a row: its datalist's `orderId` if it has one,
      else the row's `snkey`; every other key reads as in the datalist. */
  lemma FetchedRecord(rows: Result<Value>, parse: string -> Result<Value>)
    requires rows.Ok? && rows.value.Arr? && rows.value.items != [] && !Nullish(rows.value.items[0])
    ensures var row := rows.value.items[0];
            var d := DatalistOf(row, parse);
            var r := FetchOrderBySnkey(rows, parse);
            && r.Ok? && r.value.Obj?
            && Field(r.value, "orderId") == (if d.Obj? && "orderId" in d.fields then d.fields["orderId"] else Field(row, "snkey"))
            && forall k :: k != "orderId" ==> Field(r.value, k) == Field(d, k)
  {
    var row := rows.value.items[0];
    NamedField(row, "snkey");
    NamedField(DatalistOf(row, parse), "orderId");
  }

  /** Only the first row is read: what follows it makes no difference. */
  lemma FetchReadsFirstRowOnly(row: Value, rest: seq<Value>, parse: string -> Result<Value>)
    ensures FetchOrderBySnkey(Ok(Arr([row] + rest)), parse) == FetchOrderBySnkey(Ok(Arr([row])), parse)
  {
    assert ([row] + rest)[0] == row;
  }

  /** A datalist text that does not parse counts as `{}`: the record is the
      `snkey` alone. */
  lemma UnparsedDatalistIsEmpty(row: Value, parse: string -> Result<Value>)
    requires row.Obj? && "datalist" in row.fields && row.fields["datalist"].Str?
    requires parse(row.fields["datalist"].s).Err?
    ensures FetchOrderBySnkey(Ok(Arr([row])), parse) == Ok(Obj(map["orderId" := Field(row, "snkey")]))
  {
    assert [row][0] == row;
    assert map["orderId" := Field(row, "snkey")] + map[] == map["orderId" := Field(row, "snkey")];
  }

  // ---------------------------------------------------------------------
  // fetchAllOrders

  /** The display keys of a `fetchAllOrders` entry, before the datalist is
      spread over them. */
  function AllOrdersDefaults(snkey: Value, status: Value, datalist: Value): Object {
    map[
      "orderId" := snkey,
      "order_id" := snkey,
      "status" := Or(status, PENDING),
      "pickupAddress" := Coalesce(Field(datalist, "pickupAddress"), Str("")),
      "dropoffAddress" := Coalesce(Field(datalist, "dropoffAddress"), Str("")),
      "phone" := Coalesce(Field(datalist, "phone"), Str("")),
      "driver" := Coalesce(Field(datalist, "driver"), Null)
    ]
  }

  /** One entry of the `rows.map(...)` in `fetchAllOrders`: defaults for
      the display keys, then the datalist spread over them. `row.snkey`
      throws on a null row, and `datalist.status` on a datalist that
      parsed to null. */
  function AllOrdersEntry(row: Value, parse: string -> Result<Value>): (r: Result<Value>)
    ensures r.Ok? <==> !Nullish(row) && !Nullish(DatalistOf(row, parse))
    ensures r.Ok? ==> r.value.Obj?
  {
    var datalist := DatalistOf(row, parse);
    match Prop(row, "snkey")
    case Err(e) => Err(e)
    case Ok(snkey) =>
      match Prop(datalist, "status")
      case Err(e) => Err(e)
      case Ok(status) => Ok(Obj(AllOrdersDefaults(snkey, status, datalist) + Own(datalist)))
  }

  /** The entry under the datalist: for each of the keys that get a default,
      its value before the spread. */
  lemma AllOrdersEntryShape(row: Value, parse: string -> Result<Value>)
    requires AllOrdersEntry(row, parse).Ok?
    ensures var d := DatalistOf(row, parse);
            var base := AllOrdersDefaults(Field(row, "snkey"), Field(d, "status"), d);
            && AllOrdersEntry(row, parse).value == Obj(base + Own(d))
            && base["orderId"] == Field(row, "snkey") && base["order_id"] == Field(row, "snkey")
  {
  }

  /** The datalist is spread last: both ids are the `snkey` unless the
      datalist has its own, and every key of the datalist is kept as it is. */
  lemma AllOrdersEntryIds(row: Value, parse: string -> Result<Value>)
    requires AllOrdersEntry(row, parse).Ok?
    ensures var e := AllOrdersEntry(row, parse).value;
            var d := DatalistOf(row, parse);
            && Field(e, "orderId") == (if d.Obj? && "orderId" in d.fields then d.fields["orderId"] else Field(row, "snkey"))
            && Field(e, "order_id") == (if d.Obj? && "order_id" in d.fields then d.fields["order_id"] else Field(row, "snkey"))
            && forall k :: k in Own(d) ==> Field(e, k) == Own(d)[k]
  {
    var d := DatalistOf(row, parse);
    var base := AllOrdersDefaults(Field(row, "snkey"), Field(d, "status"), d);
    AllOrdersEntryShape(row, parse);
    SpreadLast(base, d, "orderId");
    SpreadLast(base, d, "order_id");
  }

  /** A default only fills a key the datalist does not have: the status
      is `'pending'`, the texts `''` and the driver null unless the
      datalist says otherwise. */
  lemma AllOrdersEntryDefaults(row: Value, parse: string -> Result<Value>)
    requires AllOrdersEntry(row, parse).Ok?
    ensures var e := AllOrdersEntry(row, parse).value;
            var d := DatalistOf(row, parse);
            && Field(e, "status") == (if d.Obj? && "status" in d.fields then d.fields["status"] else PENDING)
            && Field(e, "pickupAddress") == (if d.Obj? && "pickupAddress" in d.fields then d.fields["pickupAddress"] else Str(""))
            && Field(e, "dropoffAddress") == (if d.Obj? && "dropoffAddress" in d.fields then d.fields["dropoffAddress"] else Str(""))
            && Field(e, "phone") == (if d.Obj? && "phone" in d.fields then d.fields["phone"] else Str(""))
            && Field(e, "driver") == (if d.Obj? && "driver" in d.fields then d.fields["driver"] else Null)
  {
    var d := DatalistOf(row, parse);
    var base := AllOrdersDefaults(Field(row, "snkey"), Field(d, "status"), d);
    AllOrdersEntryShape(row, parse);
    DefaultUnlessOwn(base, d, "status", PENDING);
    DefaultUnlessOwn(base, d, "pickupAddress", Str(""));
    DefaultUnlessOwn(base, d, "dropoffAddress", Str(""));
    DefaultUnlessOwn(base, d, "phone", Str(""));
    DefaultUnlessOwn(base, d, "driver", Null);
  }

  /** `rows.map(...)`: one entry per row, in row order; the first row whose
      entry throws ends the map with that error. */
  function AllOrdersEntries(rows: seq<Value>, parse: string -> Result<Value>): (r: Result<seq<Value>>)
    ensures r.Ok? <==> forall i :: 0 <= i < |rows| ==> AllOrdersEntry(rows[i], parse).Ok?
    ensures r.Ok? ==> |r.value| == |rows| && forall i :: 0 <= i < |rows| ==> AllOrdersEntry(rows[i], parse) == Ok(r.value[i])
    decreases |rows|
  {
    if rows == [] then Ok([])
    else
      assert forall i :: 1 <= i < |rows| ==> rows[i] == rows[1..][i - 1];
      match AllOrdersEntry(rows[0], parse)
      case Err(e) => Err(e)
      case Ok(entry) =>
        match AllOrdersEntries(rows[1..], parse)
        case Err(e) => Err(e)
        case Ok(rest) => Ok([entry] + rest)
  }

  /** `fetchAllOrders`: the entries of all rows, or `[]` when the read
      rejects, gives no array, or any entry throws. */
  function FetchAllOrders(rows: Result<Value>, parse: string -> Result<Value>): (r: seq<Value>)
    ensures rows.Err? || !rows.value.Arr? ==> r == []
    ensures rows.Ok? && rows.value.Arr? && (exists i :: 0 <= i < |rows.value.items| && AllOrdersEntry(rows.value.items[i], parse).Err?) ==> r == []
    ensures rows.Ok? && rows.value.Arr? && (forall i :: 0 <= i < |rows.value.items| ==> AllOrdersEntry(rows.value.items[i], parse).Ok?) ==>
              && |r| == |rows.value.items|
              && forall i :: 0 <= i < |r| ==> AllOrdersEntry(rows.value.items[i], parse) == Ok(r[i])
  {
    if rows.Err? || !rows.value.Arr? then []
    else
      match AllOrdersEntries(rows.value.items, parse)
      case Ok(entries) => entries
      case Err(_) => []
  }

  // ---------------------------------------------------------------------
  // fetchUnfinishedOrders

  /** The statuses the unfinished list leaves out. */
  predicate Finished(status: Value) {
    status == Str("dropped_off") || status == Str("cancelled")
  }

  /** The keys of an unfinished entry before the datalist is spread over
      them: display defaults, the coordinates taken from the flat keys or
      else the nested `pickup` / `dropoff` objects, and those objects built
      from the flat keys when missing. */
  function UnfinishedDefaults(snkey: Value, status: Value, datalist: Value): Object {
    var pickup := Field(datalist, "pickup");
    var dropoff := Field(datalist, "dropoff");
    map[
      "orderId" := snkey,
      "order_id" := snkey,
      "status" := status,
      "pickupAddress" := Coalesce(Field(datalist, "pickupAddress"), Str("")),
      "pickupLat" := Coalesce(Coalesce(Field(datalist, "pickupLat"), OptProp(pickup, "lat")), Null),
      "pickupLng" := Coalesce(Coalesce(Field(datalist, "pickupLng"), OptProp(pickup, "lng")), Null),
      "dropoffAddress" := Coalesce(Field(datalist, "dropoffAddress"), Str("")),
      "dropoffLat" := Coalesce(Coalesce(Field(datalist, "dropoffLat"), OptProp(dropoff, "lat")), Null),
      "dropoffLng" := Coalesce(Coalesce(Field(datalist, "dropoffLng"), OptProp(dropoff, "lng")), Null),
      "pickup" := Or(pickup, Obj(map[
                                   "address" := Field(datalist, "pickupAddress"),
                                   "lat" := Field(datalist, "pickupLat"),
                                   "lng" := Field(datalist, "pickupLng")])),
      "dropoff" := Or(dropoff,
                      if Truthy(Field(datalist, "dropoffAddress")) then
                        Obj(map[
                              "address" := Field(datalist, "dropoffAddress"),
                              "lat" := Field(datalist, "dropoffLat"),
                              "lng" := Field(datalist, "dropoffLng")])
                      else Null),
      "phone" := Coalesce(Field(datalist, "phone"), Str(""))
    ]
  }

  /** The entry pushed for an unfinished row: the defaults with the
      datalist spread last. */
  function UnfinishedEntry(snkey: Value, status: Value, datalist: Value): Value {
    Obj(UnfinishedDefaults(snkey, status, datalist) + Own(datalist))
  }

  /** One turn of the loop: the row is skipped (`None`), gives an entry, or
      throws (`datalist.status` on a datalist that parsed to null, then
      `row.snkey` on a null row). */
  function UnfinishedStep(row: Value, parse: string -> Result<Value>): Result<Option<Value>> {
    var datalist := DatalistOf(row, parse);
    match Prop(datalist, "status")
    case Err(e) => Err(e)
    case Ok(s) =>
      var status := Or(s, PENDING);
      if Finished(status) then Ok(None)
      else
        match Prop(row, "snkey")
        case Err(e) => Err(e)
        case Ok(snkey) => Ok(Some(UnfinishedEntry(snkey, status, datalist)))
  }

  /** A `for…of` loop over `rows` that, row by row, skips the row (`None`),
      pushes an entry, or throws: the list built after all the rows, or the
      first error thrown. */
  function Collect(rows: seq<Value>, step: Value -> Result<Option<Value>>): Result<seq<Value>>
    decreases |rows|
  {
    if rows == [] then Ok([])
    else
      match Collect(rows[..|rows| - 1], step)
      case Err(e) => Err(e)
      case Ok(acc) =>
        match step(rows[|rows| - 1])
        case Err(e) => Err(e)
        case Ok(None) => Ok(acc)
        case Ok(Some(entry)) => Ok(acc + [entry])
  }

  lemma SnocAssoc<T>(x: seq<T>, y: seq<T>, e: T)
    ensures (x + y) + [e] == x + (y + [e])
  {
  }

  /** The loop keeps the order of the rows: the list for `a + b` is the list
      for `a` followed by the list for `b`, and a throw in either part is a
      throw of the whole. */
  lemma {:induction false} CollectAppend(a: seq<Value>, b: seq<Value>, step: Value -> Result<Option<Value>>)
    ensures Collect(a + b, step) ==
              match Collect(a, step)
              case Err(e) => Err(e)
              case Ok(x) =>
                match Collect(b, step)
                case Err(e) => Err(e)
                case Ok(y) => Ok(x + y)
    decreases |b|
  {
    if b == [] {
      assert a + b == a;
      if Collect(a, step).Ok? {
        assert Collect(a, step).value + [] == Collect(a, step).value;
      }
    } else {
      var init := b[..|b| - 1];
      var last := b[|b| - 1];
      var ab := a + b;
      assert ab[..|ab| - 1] == a + init;
      assert ab[|ab| - 1] == last;
      CollectAppend(a, init, step);
      match Collect(a, step)
      case Err(e) =>
      case Ok(x) =>
        match Collect(init, step)
        case Err(e) =>
        case Ok(y) =>
          match step(last)
          case Err(e) =>
          case Ok(None) =>
          case Ok(Some(entry)) =>
            SnocAssoc(x, y, entry);
    }
  }

  /** The list holds exactly the entries pushed for the rows, none other. */
  lemma {:induction false} CollectMembers(rows: seq<Value>, step: Value -> Result<Option<Value>>, e: Value)
    requires Collect(rows, step).Ok?
    ensures e in Collect(rows, step).value <==> exists i :: 0 <= i < |rows| && step(rows[i]) == Ok(Some(e))
    decreases |rows|
  {
    if rows != [] {
      var init := rows[..|rows| - 1];
      CollectMembers(init, step, e);
      assert forall i :: 0 <= i < |init| ==> init[i] == rows[i];
      if exists i :: 0 <= i < |rows| && step(rows[i]) == Ok(Some(e)) {
        var i :| 0 <= i < |rows| && step(rows[i]) == Ok(Some(e));
        if i < |init| {
          assert step(init[i]) == Ok(Some(e));
        }
      }
    }
  }

  /** A loop that ran to the end ran every turn without a throw. */
  lemma CollectStepOk(rows: seq<Value>, step: Value -> Result<Option<Value>>, i: nat)
    requires Collect(rows, step).Ok? && i < |rows|
    ensures step(rows[i]).Ok?
  {
    var prefix := rows[..i + 1];
    assert rows == prefix + rows[i + 1..];
    CollectAppend(prefix, rows[i + 1..], step);
    assert prefix[..i] == rows[..i];
  }

  /** The list the loop of `fetchUnfinishedOrders` builds, or the error
      that ends it. */
  function Unfinished(rows: seq<Value>, parse: string -> Result<Value>): Result<seq<Value>> {
    Collect(rows, row => UnfinishedStep(row, parse))
  }

  /** What `fetchUnfinishedOrders` resolves to: the outer catch turns a
      rejected read or a throw in the loop into `[]`. */
  function UnfinishedOrders(rows: Result<Value>, parse: string -> Result<Value>): (r: seq<Value>)
    ensures rows.Err? || !rows.value.Arr? ==> r == []
    ensures rows.Ok? && rows.value.Arr? && Unfinished(rows.value.items, parse).Err? ==> r == []
  {
    if rows.Err? || !rows.value.Arr? then []
    else
      match Unfinished(rows.value.items, parse)
      case Ok(entries) => entries
      case Err(_) => []
  }

  /** The datalist spread last decides an entry's status when it has one. */
  lemma EntryStatus(snkey: Value, status: Value, d: Value)
    ensures UnfinishedEntry(snkey, status, d).Obj?
    ensures Field(UnfinishedEntry(snkey, status, d), "status") == if d.Obj? && "status" in d.fields then d.fields["status"] else status
  {
    var base := UnfinishedDefaults(snkey, status, d);
    assert base["status"] == status;
    SpreadLast(base, d, "status");
  }

  /** An entry's status is the datalist's own one when it has one, else the
      status filtered on; so it is never `dropped_off` or `cancelled`: a
      truthy datalist status is the one filtered on, and a falsy one is
      neither. */
  lemma UnfinishedEntryStatus(row: Value, parse: string -> Result<Value>)
    requires UnfinishedStep(row, parse).Ok? && UnfinishedStep(row, parse).value.Some?
    ensures var e := UnfinishedStep(row, parse).value.value;
            var d := DatalistOf(row, parse);
            && e.Obj?
            && Field(e, "status") == (if d.Obj? && "status" in d.fields then d.fields["status"] else Or(Field(d, "status"), PENDING))
            && !Finished(Field(e, "status"))
  {
    var d := DatalistOf(row, parse);
    var status := Or(Field(d, "status"), PENDING);
    assert UnfinishedStep(row, parse) == Ok(Some(UnfinishedEntry(Field(row, "snkey"), status, d)));
    EntryStatus(Field(row, "snkey"), status, d);
    NamedField(d, "status");
  }

  /** `fetchUnfinishedOrders` never returns an order that is dropped off or
      cancelled, a missing or falsy status counting as `'pending'`. */
  lemma UnfinishedNeverFinished(rows: Result<Value>, parse: string -> Result<Value>)
    ensures forall e :: e in UnfinishedOrders(rows, parse) ==> e.Obj? && !Finished(Field(e, "status"))
  {
    if rows.Ok? && rows.value.Arr? && Unfinished(rows.value.items, parse).Ok? {
      var items := rows.value.items;
      var step := row => UnfinishedStep(row, parse);
      forall e | e in UnfinishedOrders(rows, parse)
        ensures e.Obj? && !Finished(Field(e, "status"))
      {
        CollectMembers(items, step, e);
        var i :| 0 <= i < |items| && step(items[i]) == Ok(Some(e));
        UnfinishedEntryStatus(items[i], parse);
      }
    }
  }

  /** Every row the filter does not skip gives its entry: a row whose status
      (a missing or falsy one counting as `'pending'`) is neither
      `dropped_off` nor `cancelled` is in the list. */
  lemma UnfinishedKeepsOthers(rows: Result<Value>, parse: string -> Result<Value>, i: nat)
    requires rows.Ok? && rows.value.Arr? && Unfinished(rows.value.items, parse).Ok?
    requires i < |rows.value.items|
    requires !Finished(Or(Field(DatalistOf(rows.value.items[i], parse), "status"), PENDING))
    ensures UnfinishedStep(rows.value.items[i], parse).Ok?
    ensures UnfinishedStep(rows.value.items[i], parse).value.Some?
    ensures UnfinishedStep(rows.value.items[i], parse).value.value in UnfinishedOrders(rows, parse)
  {
    var items := rows.value.items;
    var step := row => UnfinishedStep(row, parse);
    CollectStepOk(items, step, i);
    var e := step(items[i]).value.value;
    CollectMembers(items, step, e);
  }

  /** `fetchUnfinishedOrders`: the `for…of` loop with its `continue` and
      `push`; a throw inside it leaves through the outer catch with `[]`. */
  method FetchUnfinishedOrders(rows: Result<Value>, parse: string -> Result<Value>) returns (unfinished: seq<Value>)
    ensures unfinished == UnfinishedOrders(rows, parse)
  {
    if rows.Err? || !rows.value.Arr? {
      return [];
    }
    var items := rows.value.items;
    ghost var step := row => UnfinishedStep(row, parse);
    unfinished := [];
    var i := 0;
    while i < |items|
      invariant i <= |items|
      invariant Collect(items[..i], step) == Ok(unfinished)
    {
      var row := items[i];
      assert items[..i + 1][..i] == items[..i];
      assert items[..i + 1] + items[i + 1..] == items;
      var datalist := DatalistOf(row, parse);
      if Nullish(datalist) {
        CollectAppend(items[..i + 1], items[i + 1..], step);
        return [];
      }
      var status := Or(Field(datalist, "status"), PENDING);
      if !Finished(status) {
        if Nullish(row) {
          CollectAppend(items[..i + 1], items[i + 1..], step);
          return [];
        }
        unfinished := unfinished + [UnfinishedEntry(Field(row, "snkey"), status, datalist)];
      }
      i := i + 1;
    }
    assert items[..i] == items;
  }

  // ---------------------------------------------------------------------
  // getOrderStatus and getOrderDetail

  /** `{ orderId, status: 'pending' }` */
  function StatusFallback(orderId: Value): Value {
    Obj(map["orderId" := orderId, "status" := PENDING])
  }

  /** `{ orderId, status: 'pending', pickup: {}, dropoff: {}, driver: null }` */
  function DetailFallback(orderId: Value): Value {
    Obj(map["orderId" := orderId, "status" := PENDING, "pickup" := EMPTY, "dropoff" := EMPTY, "driver" := Null])
  }

  /** The record found, when the lookup neither threw nor came back null. */
  predicate FoundRecord(rows: Result<Value>, parse: string -> Result<Value>) {
    var f := FetchOrderBySnkey(rows, parse);
    f.Ok? && f.value.Obj?
  }

  /** `getOrderStatus`: the record found with its status defaulted to
      `'pending'`, or the fallback when there is none or the lookup throws. */
  function GetOrderStatus(rows: Result<Value>, parse: string -> Result<Value>, orderId: Value): (r: Value)
    ensures !FoundRecord(rows, parse) ==> r == StatusFallback(orderId)
    ensures FoundRecord(rows, parse) ==>
              var row := FetchOrderBySnkey(rows, parse).value.fields;
              && r.Obj? && r.fields.Keys == row.Keys + {"status"}
              && Field(r, "status") == (if "status" in row then row["status"] else PENDING)
              && forall k :: k in row ==> r.fields[k] == row[k]
  {
    match FetchOrderBySnkey(rows, parse)
    case Err(_) => StatusFallback(orderId)
    case Ok(row) =>
      if Truthy(row) then
        Obj(map["orderId" := Field(row, "orderId"), "status" := Or(Field(row, "status"), PENDING)] + Own(row))
      else StatusFallback(orderId)
  }

  /** The keys `getOrderDetail` fills in before spreading the record over
      them. */
  function DetailDefaults(row: Value): Object {
    map[
      "orderId" := Field(row, "orderId"),
      "status" := Or(Field(row, "status"), PENDING),
      "pickup" := Or(Field(row, "pickup"), Obj(map[
                                                 "address" := Field(row, "pickupAddress"),
                                                 "lat" := Field(row, "pickupLat"),
                                                 "lng" := Field(row, "pickupLng")])),
      "dropoff" := Or(Field(row, "dropoff"),
                      if Truthy(Field(row, "dropoffAddress")) then
                        Obj(map[
                              "address" := Field(row, "dropoffAddress"),
                              "lat" := Field(row, "dropoffLat"),
                              "lng" := Field(row, "dropoffLng")])
                      else Null),
      "driver" := Or(Field(row, "driver"), Null)
    ]
  }

  /** The record spread over the defaults keeps every key it has; a
      default shows only where the record lacks the key. */
  lemma DetailRecordFields(row: Object)
    ensures var r := DetailDefaults(Obj(row)) + row;
            && r.Keys == row.Keys + {"orderId", "status", "pickup", "dropoff", "driver"}
            && Get(r, "status") == (if "status" in row then row["status"] else PENDING)
            && Get(r, "driver") == (if "driver" in row then row["driver"] else Null)
            && Get(r, "pickup") == (if "pickup" in row then row["pickup"]
                                    else Obj(map["address" := Get(row, "pickupAddress"), "lat" := Get(row, "pickupLat"), "lng" := Get(row, "pickupLng")]))
            && Get(r, "dropoff") == (if "dropoff" in row then row["dropoff"]
                                     else if Truthy(Get(row, "dropoffAddress")) then
                                       Obj(map["address" := Get(row, "dropoffAddress"), "lat" := Get(row, "dropoffLat"), "lng" := Get(row, "dropoffLng")])
                                     else Null)
            && forall k :: k in row ==> r[k] == row[k]
  {
    var base := DetailDefaults(Obj(row));
    assert base.Keys == {"orderId", "status", "pickup", "dropoff", "driver"};
    assert base["status"] == Or(Get(row, "status"), PENDING);
    assert base["driver"] == Or(Get(row, "driver"), Null);
    assert base["pickup"] == Or(Get(row, "pickup"), Obj(map["address" := Get(row, "pickupAddress"), "lat" := Get(row, "pickupLat"), "lng" := Get(row, "pickupLng")]));
  }

  /** `getOrderDetail`: the record found with its status, pickup, dropoff
      and driver filled in when it lacks them, or the fallback. */
  function GetOrderDetail(rows: Result<Value>, parse: string -> Result<Value>, orderId: Value): (r: Value)
    ensures !FoundRecord(rows, parse) ==> r == DetailFallback(orderId)
    ensures FoundRecord(rows, parse) ==>
              var row := FetchOrderBySnkey(rows, parse).value.fields;
              && r.Obj? && r.fields.Keys == row.Keys + {"status", "pickup", "dropoff", "driver"}
              && Get(r.fields, "status") == (if "status" in row then row["status"] else PENDING)
              && Get(r.fields, "driver") == (if "driver" in row then row["driver"] else Null)
              && Get(r.fields, "pickup") == (if "pickup" in row then row["pickup"]
                                             else Obj(map["address" := Get(row, "pickupAddress"), "lat" := Get(row, "pickupLat"), "lng" := Get(row, "pickupLng")]))
              && Get(r.fields, "dropoff") == (if "dropoff" in row then row["dropoff"]
                                              else if Truthy(Get(row, "dropoffAddress")) then
                                                Obj(map["address" := Get(row, "dropoffAddress"), "lat" := Get(row, "dropoffLat"), "lng" := Get(row, "dropoffLng")])
                                              else Null)
              && forall k :: k in row ==> r.fields[k] == row[k]
  {
    match FetchOrderBySnkey(rows, parse)
    case Err(_) => DetailFallback(orderId)
    case Ok(row) =>
      if Truthy(row) then
        assert row.Obj?;
        DetailRecordFields(row.fields);
        Obj(DetailDefaults(row) + Own(row))
      else DetailFallback(orderId)
  }

  // ---------------------------------------------------------------------
  // createOrder

  /** The payload `createOrder` stores; reading a key of null or undefined
      `data` throws. */
  function OrderPayload(data: Value): (r: Result<Value>)
    ensures r.Ok? <==> !Nullish(data)
    ensures r.Ok? ==>
              && r.value.Obj?
              && Get(r.value.fields, "status") == PENDING
              && Get(r.value.fields, "pickup").Obj?
              && (Get(r.value.fields, "dropoff") == Null <==> !Truthy(Field(data, "dropoffAddress")))
  {
    if Nullish(data) then Err(ReadError(data, "pickupAddress"))
    else
      NamedField(data, "pickupAddress");
      var pickupAddress := Or(Field(data, "pickupAddress"), Str(""));
      var pickupLat := Coalesce(Field(data, "pickupLat"), Null);
      var pickupLng := Coalesce(Field(data, "pickupLng"), Null);
      var dropoffAddress := Field(data, "dropoffAddress");
      var dropoffLat := Coalesce(Field(data, "dropoffLat"), Null);
      var dropoffLng := Coalesce(Field(data, "dropoffLng"), Null);
      Ok(Obj(map[
               "pickupAddress" := pickupAddress,
               "pickupLat" := pickupLat,
               "pickupLng" := pickupLng,
               "dropoffAddress" := Or(dropoffAddress, Str("")),
               "dropoffLat" := dropoffLat,
               "dropoffLng" := dropoffLng,
               "pickup" := Obj(map["address" := pickupAddress, "lat" := pickupLat, "lng" := pickupLng]),
               "dropoff" := if Truthy(dropoffAddress) then
                              Obj(map["address" := dropoffAddress, "lat" := dropoffLat, "lng" := dropoffLng])
                            else Null,
               "phone" := Or(Field(data, "phone"), Str("")),
               "status" := PENDING]))
  }

  /** The fallback id `mock-${Date.now()}`, from the clock reading `now`. */
  function MockId(now: nat): Value {
    Str("mock-" + IndexKey(now))
  }

  /** The `res && res.state && res.snkey != null` test on what `api.add`
      resolved to. */
  predicate Accepted(added: Result<Value>) {
    added.Ok? && Truthy(added.value) && Truthy(Field(added.value, "state")) && !Nullish(Field(added.value, "snkey"))
  }

  /** `createOrder`: the payload is written unless building it throws; the
      order id is the new `snkey` when the write is accepted, and a mock id
      otherwise. The status is `'pending'` either way. */
  function CreateOrder(data: Value, added: Result<Value>, now: nat): (out: ApiOutcome)
    ensures out.write.Some? <==> !Nullish(data)
    ensures out.write.Some? ==> Ok(out.write.value) == OrderPayload(data)
    ensures out.result.Obj? && out.result.fields.Keys == {"orderId", "status"}
    ensures out.result.fields["status"] == PENDING
    ensures out.result.fields["orderId"] ==
              if !Nullish(data) && Accepted(added) then Field(added.value, "snkey") else MockId(now)
  {
    match OrderPayload(data)
    case Err(_) => ApiOutcome(None, Obj(map["orderId" := MockId(now), "status" := PENDING]))
    case Ok(payload) =>
      var id := if Accepted(added) then Field(added.value, "snkey") else MockId(now);
      ApiOutcome(Some(payload), Obj(map["orderId" := id, "status" := PENDING]))
  }

  // ---------------------------------------------------------------------
  // The driver's record builders

  /** A row with some keys set and `orderId` deleted (`{ ...row, ...update }`
      then `delete next.orderId`): the update's keys win, the row's other
      keys stay, and `orderId` is gone. */
  lemma UpdatedWithoutOrderId(row: Object, update: Object)
    requires "orderId" !in update
    ensures var w := (row + update) - {"orderId"};
            && "orderId" !in w
            && w.Keys == (row.Keys - {"orderId"}) + update.Keys
            && (forall k :: k in update ==> w[k] == update[k])
            && forall k :: k in row && k !in update && k != "orderId" ==> w[k] == row[k]
  {
  }

  /** `{ok: true}` and `{ok: false}` are told apart by their `ok`. */
  lemma OkResultsDiffer()
    ensures OK_TRUE != OK_FALSE
  {
    assert OK_TRUE.fields["ok"] != OK_FALSE.fields["ok"];
  }

  /** `driverAcceptOrder`: a missing order resolves to `{ok: false}`;
      otherwise the record is written back as matched, with the driver's
      id, name (default 司機) and phone (default the driver id), without its
      `orderId` key. Everything else, a throwing lookup included, resolves
      to `{ok: true}`. */
  function DriverAcceptOrder(rows: Result<Value>, parse: string -> Result<Value>, driverId: Value, driverName: Value, driverPhone: Value): (out: ApiOutcome)
    ensures out.result == OK_FALSE <==> FetchOrderBySnkey(rows, parse) == Ok(Null)
    ensures out.result != OK_FALSE ==> out.result == OK_TRUE
    ensures out.write.Some? <==> FoundRecord(rows, parse)
    ensures out.write.Some? ==>
              var row := FetchOrderBySnkey(rows, parse).value.fields;
              var w := out.write.value;
              && w.Obj? && "orderId" !in w.fields
              && w.fields.Keys == (row.Keys - {"orderId"}) + {"status", "driver"}
              && w.fields["status"] == Str("matched")
              && w.fields["driver"] == Obj(map[
                                             "driverId" := driverId,
                                             "name" := if Truthy(driverName) then driverName else Str(DEFAULT_DRIVER_NAME),
                                             "phone" := if Truthy(driverPhone) then driverPhone else Or(driverId, Str(""))])
              && forall k :: k in row && k != "orderId" && k != "status" && k != "driver" ==> w.fields[k] == row[k]
  {
    OkResultsDiffer();
    match FetchOrderBySnkey(rows, parse)
    case Err(_) => ApiOutcome(None, OK_TRUE)
    case Ok(row) =>
      if !Truthy(row) then ApiOutcome(None, OK_FALSE)
      else
        var phone := Or(driverPhone, driverId);
        var driver := Obj(map["driverId" := driverId, "name" := Or(driverName, Str(DEFAULT_DRIVER_NAME)), "phone" := Or(phone, Str(""))]);
        var update := map["status" := Str("matched"), "driver" := driver];
        assert update.Keys == {"status", "driver"} && "orderId" !in update;
        UpdatedWithoutOrderId(Own(row), update);
        ApiOutcome(Some(Obj((Own(row) + update) - {"orderId"})), OK_TRUE)
  }

  /** `driverRejectOrder`: a found record is written back with its status
      kept, or `'pending'` when it has none, and without `orderId`; it
      resolves to nothing. */
  function DriverRejectOrder(rows: Result<Value>, parse: string -> Result<Value>): (out: ApiOutcome)
    ensures out.result == Undefined
    ensures out.write.Some? <==> FoundRecord(rows, parse)
    ensures out.write.Some? ==>
              var row := FetchOrderBySnkey(rows, parse).value.fields;
              var w := out.write.value;
              && w.Obj? && "orderId" !in w.fields
              && w.fields.Keys == (row.Keys - {"orderId"}) + {"status"}
              && w.fields["status"] == (if "status" in row && Truthy(row["status"]) then row["status"] else PENDING)
              && forall k :: k in row && k != "orderId" && k != "status" ==> w.fields[k] == row[k]
  {
    match FetchOrderBySnkey(rows, parse)
    case Err(_) => ApiOutcome(None, Undefined)
    case Ok(row) =>
      if !Truthy(row) then ApiOutcome(None, Undefined)
      else
        var update := map["status" := Or(Field(row, "status"), PENDING)];
        assert update.Keys == {"status"} && "orderId" !in update;
        NamedField(row, "status");
        UpdatedWithoutOrderId(Own(row), update);
        ApiOutcome(Some(Obj((Own(row) + update) - {"orderId"})), Undefined)
  }

  /** The record `driverUpdateStatus` writes, on plain maps: the extra
      data wins over the status, and both over the row; `orderId` is
      dropped wherever it came from. */
  lemma StatusUpdateRecord(row: Object, status: Value, extra: Object)
    ensures var w := (row + map["status" := status] + extra) - {"orderId"};
            && "orderId" !in w
            && w.Keys == (row.Keys + {"status"} + extra.Keys) - {"orderId"}
            && w["status"] == (if "status" in extra then extra["status"] else status)
            && (forall k :: k in extra && k != "orderId" ==> w[k] == extra[k])
            && forall k :: k in row && k !in extra && k != "orderId" && k != "status" ==> w[k] == row[k]
  {
    assert "status" != "orderId";
  }

  /** `driverUpdateStatus`: the found record with the new status and then
      the extra data spread over it (so the extra data may override the
      status), without `orderId`. Only a missing order resolves to
      `{ok: false}`. An omitted `extraData` is `{}`. */
  function DriverUpdateStatus(rows: Result<Value>, parse: string -> Result<Value>, status: Value, extraData: Value): (out: ApiOutcome)
    ensures out.result == OK_FALSE <==> FetchOrderBySnkey(rows, parse) == Ok(Null)
    ensures out.result != OK_FALSE ==> out.result == OK_TRUE
    ensures out.write.Some? <==> FoundRecord(rows, parse)
    ensures out.write.Some? ==>
              var row := FetchOrderBySnkey(rows, parse).value.fields;
              var extra := Own(extraData);
              var w := out.write.value;
              && w.Obj? && "orderId" !in w.fields
              && w.fields.Keys == (row.Keys + {"status"} + extra.Keys) - {"orderId"}
              && w.fields["status"] == (if "status" in extra then extra["status"] else status)
              && (forall k :: k in extra && k != "orderId" ==> w.fields[k] == extra[k])
              && forall k :: k in row && k !in extra && k != "orderId" && k != "status" ==> w.fields[k] == row[k]
  {
    var extra := if extraData.Undefined? then EMPTY else extraData;
    OkResultsDiffer();
    match FetchOrderBySnkey(rows, parse)
    case Err(_) => ApiOutcome(None, OK_TRUE)
    case Ok(row) =>
      if !Truthy(row) then ApiOutcome(None, OK_FALSE)
      else
        assert Own(extra) == Own(extraData);
        StatusUpdateRecord(Own(row), status, Own(extra));
        var next := Own(row) + map["status" := status] + Own(extra);
        ApiOutcome(Some(Obj(next - {"orderId"})), OK_TRUE)
  }

  /** Accepting and then reading back: once the record written by
      `driverAcceptOrder` is stored as the datalist of a row, the status
      lookup of that row reports it matched, under the row's `snkey`. */
  lemma AcceptedOrderReadsMatched(rows: Result<Value>, parse: string -> Result<Value>, driverId: Value, driverName: Value, driverPhone: Value,
                                  snkey: Value, text: string, orderId: Value)
    requires FoundRecord(rows, parse)
    requires parse(text) == Ok(DriverAcceptOrder(rows, parse, driverId, driverName, driverPhone).write.value)
    ensures var stored := Ok(Arr([Obj(map["snkey" := snkey, "datalist" := Str(text)])]));
            var r := GetOrderStatus(stored, parse, orderId);
            Field(r, "status") == Str("matched") && Field(r, "orderId") == snkey
  {
    var row := Obj(map["snkey" := snkey, "datalist" := Str(text)]);
    var stored := Ok(Arr([row]));
    var w := DriverAcceptOrder(rows, parse, driverId, driverName, driverPhone).write.value;
    assert w.Obj? && "orderId" !in w.fields && w.fields["status"] == Str("matched");
    assert [row][0] == row;
    assert DatalistOf(row, parse) == w;
    FetchedRecord(stored, parse);
    var found := FetchOrderBySnkey(stored, parse).value;
    assert Field(found, "status") == Str("matched") && Field(found, "orderId") == snkey;
  }
}
