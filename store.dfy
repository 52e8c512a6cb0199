/** The client dispatch store of src/stores/useDispatchStore.js: the order a
    customer is tracking, the offer a driver is looking at, and the driver's
    list of pending orders keyed by `orderId ?? order_id`.

    The store's state refs are the fields of `Store`; each setter is a
    method. The new list values the setters build are pure functions below,
    and the list properties are proved about those functions. */
module DispatchStore {
  import opened Json

  /** `{ ...v }` */
  function Copy(v: Value): Value {
    Obj(Own(v))
  }

  /** `o.orderId ?? o.order_id`, the key of a list entry; reading it throws
      on a null or undefined entry. */
  function KeyOf(o: Value): Result<Value> {
    if Nullish(o) then Err(ReadError(o, "orderId"))
    else Ok(Coalesce(Field(o, "orderId"), Field(o, "order_id")))
  }

  /** A copy has the key of its original. */
  lemma CopyKeepsKey(o: Value)
    requires Truthy(o)
    ensures KeyOf(Copy(o)) == KeyOf(o)
  {
  }

  /** `order?.orderId ?? order?.order_id ?? null`, the id `setOrder` keeps. */
  function CurrentIdOf(order: Value): (r: Value)
    ensures !r.Undefined?
    ensures !Truthy(order) ==> r == Null
    ensures order.Obj? && "orderId" in order.fields && !Nullish(order.fields["orderId"]) ==> r == order.fields["orderId"]
    ensures Truthy(order) && Nullish(Field(order, "orderId")) ==> r == Coalesce(Field(order, "order_id"), Null)
  {
    NamedField(order, "orderId");
    NamedField(order, "order_id");
    assert !Truthy(order) && !Nullish(order) ==> Own(order) == map[] by {
      if order.Str? && order.s == "" {
        assert Chars(order.s) == [];
      }
    }
    Coalesce(Coalesce(OptProp(order, "orderId"), OptProp(order, "order_id")), Null)
  }

  /** The statuses in which an order has a driver. */
  predicate IsMatchedStatus(status: Value) {
    status == Str("matched") || status == Str("picked_up") || status == Str("dropped_off")
  }

  /** Every entry has a key: none is null or undefined. */
  ghost predicate Keyed(list: seq<Value>) {
    forall i :: 0 <= i < |list| ==> !Nullish(list[i])
  }

  /** The invariant of the pending list: every entry has a key and no two
      entries share one. */
  ghost predicate KeysDistinct(list: seq<Value>) {
    && Keyed(list)
    && forall i, j :: 0 <= i < j < |list| ==> KeyOf(list[i]) != KeyOf(list[j])
  }

  /** `list.some(o => (o.orderId ?? o.order_id) === id)`: it stops at the
      first match, and throws at a null or undefined entry met before one. */
  function HasKey(list: seq<Value>, id: Value): (r: Result<bool>)
    ensures r == Ok(false) <==> Keyed(list) && forall i :: 0 <= i < |list| ==> KeyOf(list[i]) != Ok(id)
    ensures r == Ok(true) ==> exists i :: 0 <= i < |list| && KeyOf(list[i]) == Ok(id)
    ensures Keyed(list) ==> r.Ok?
    decreases |list|
  {
    if list == [] then Ok(false)
    else
      match KeyOf(list[0])
      case Err(e) => Err(e)
      case Ok(k) =>
        if k == id then Ok(true)
        else
          var r := HasKey(list[1..], id);
          assert forall i :: 1 <= i < |list| ==> list[i] == list[1..][i - 1];
          r
  }

  /** `list.filter(o => (o.orderId ?? o.order_id) !== id)`: the entries
      whose key is not `id`, in their order; it throws if any entry is null
      or undefined. */
  function WithoutKey(list: seq<Value>, id: Value): (r: Result<seq<Value>>)
    ensures r.Ok? <==> Keyed(list)
    ensures r.Ok? ==> |r.value| <= |list|
    decreases |list|
  {
    if list == [] then Ok([])
    else
      assert forall i :: 1 <= i < |list| ==> list[i] == list[1..][i - 1];
      match KeyOf(list[0])
      case Err(e) => Err(e)
      case Ok(k) =>
        match WithoutKey(list[1..], id)
        case Err(e) => Err(e)
        case Ok(rest) => Ok(if k == id then rest else [list[0]] + rest)
  }

  lemma ConsAssoc<T>(x: T, s: seq<T>, t: seq<T>)
    ensures [x] + (s + t) == ([x] + s) + t
  {
  }

  /** The filter keeps the order of the list: filtering a concatenation is
      the concatenation of the filtered parts. */
  lemma {:induction false} WithoutKeyAppend(a: seq<Value>, b: seq<Value>, id: Value)
    requires Keyed(a) && Keyed(b)
    ensures WithoutKey(a + b, id) == Ok(WithoutKey(a, id).value + WithoutKey(b, id).value)
    decreases |a|
  {
    if a == [] {
      assert a + b == b;
      assert WithoutKey(a, id).value == [];
      assert [] + WithoutKey(b, id).value == WithoutKey(b, id).value;
    } else {
      var ab := a + b;
      assert ab[0] == a[0] && ab[1..] == a[1..] + b;
      assert Keyed(a[1..]) by {
        assert forall i :: 1 <= i < |a| ==> a[i] == a[1..][i - 1];
      }
      assert Keyed(ab) by {
        assert forall i :: 0 <= i < |ab| ==> ab[i] == if i < |a| then a[i] else b[i - |a|];
      }
      WithoutKeyAppend(a[1..], b, id);
      var k := KeyOf(a[0]).value;
      var restA := WithoutKey(a[1..], id).value;
      var restB := WithoutKey(b, id).value;
      assert WithoutKey(a, id).value == if k == id then restA else [a[0]] + restA;
      assert WithoutKey(ab, id).value == if k == id then restA + restB else [a[0]] + (restA + restB);
      assert WithoutKey(ab, id).Ok?;
      ConsAssoc(a[0], restA, restB);
    }
  }

  /** Filtering out a key no entry has leaves the list as it is. */
  lemma {:induction false} WithoutAbsentKey(list: seq<Value>, id: Value)
    requires Keyed(list) && forall i :: 0 <= i < |list| ==> KeyOf(list[i]) != Ok(id)
    ensures WithoutKey(list, id) == Ok(list)
    decreases |list|
  {
    if list != [] {
      assert forall i :: 1 <= i < |list| ==> list[i] == list[1..][i - 1];
      WithoutAbsentKey(list[1..], id);
      assert [list[0]] + list[1..] == list;
    }
  }

  /** The filter removes exactly the entries with key `id`: an entry stays
      if and only if its key is another. */
  lemma {:induction false} WithoutKeyMembers(list: seq<Value>, id: Value, x: Value)
    requires Keyed(list)
    ensures x in WithoutKey(list, id).value <==> x in list && KeyOf(x) != Ok(id)
    decreases |list|
  {
    if list != [] {
      var tail := list[1..];
      assert list == [list[0]] + tail;
      assert Keyed(tail) by {
        assert forall i :: 0 <= i < |tail| ==> tail[i] == list[i + 1];
      }
      WithoutKeyMembers(tail, id, x);
    }
  }

  /** A value whose image under `f` no element of a list with pairwise
      distinct images has can be put in front of it. */
  lemma ConsDistinct<T, K>(f: T -> K, x: T, rest: seq<T>)
    requires forall i, j :: 0 <= i < j < |rest| ==> f(rest[i]) != f(rest[j])
    requires forall y :: y in rest ==> f(y) != f(x)
    ensures forall i, j :: 0 <= i < j < |[x] + rest| ==> f(([x] + rest)[i]) != f(([x] + rest)[j])
  {
    var r := [x] + rest;
    forall i, j | 0 <= i < j < |r|
      ensures f(r[i]) != f(r[j])
    {
      assert r[j] == rest[j - 1];
      if i == 0 {
        assert rest[j - 1] in rest;
      } else {
        assert r[i] == rest[i - 1];
      }
    }
  }

  /** An entry whose key no entry of a distinct-keyed list has can be put
      in front of it. */
  lemma ConsKeysDistinct(x: Value, rest: seq<Value>)
    requires KeysDistinct(rest) && !Nullish(x)
    requires forall y :: y in rest ==> KeyOf(y) != KeyOf(x)
    ensures KeysDistinct([x] + rest)
  {
    var r := [x] + rest;
    ConsDistinct(KeyOf, x, rest);
    assert Keyed(r) by {
      assert forall i :: 0 < i < |r| ==> r[i] == rest[i - 1];
    }
  }

  /** Removing entries keeps the keys of the rest distinct. */
  lemma {:induction false} WithoutKeyKeepsKeysDistinct(list: seq<Value>, id: Value)
    requires KeysDistinct(list)
    ensures KeysDistinct(WithoutKey(list, id).value)
    decreases |list|
  {
    if list != [] {
      var tail := list[1..];
      assert forall i :: 0 <= i < |tail| ==> tail[i] == list[i + 1];
      assert KeysDistinct(tail);
      WithoutKeyKeepsKeysDistinct(tail, id);
      var rest := WithoutKey(tail, id).value;
      if KeyOf(list[0]) != Ok(id) {
        assert WithoutKey(list, id).value == [list[0]] + rest;
        forall y | y in rest
          ensures KeyOf(y) != KeyOf(list[0])
        {
          WithoutKeyMembers(tail, id, y);
          var k :| 0 <= k < |tail| && tail[k] == y;
          assert list[k + 1] == y;
        }
        ConsKeysDistinct(list[0], rest);
      }
    }
  }

  /** The key `removePendingOrder` filters by: `orderId ?? (typeof orderId
      === 'object' ? orderId?.orderId ?? orderId?.order_id : null)`. The
      object branch is taken only for null, where it gives undefined, so a
      non-null argument is the key itself and a null one is no key. */
  function RemovalKey(orderId: Value): (id: Value)
    ensures Nullish(id) <==> Nullish(orderId)
    ensures !Nullish(orderId) ==> id == orderId
  {
    var isObject := orderId.Null? || orderId.Obj? || orderId.Arr?;
    Coalesce(orderId, if isObject then Coalesce(OptProp(orderId, "orderId"), OptProp(orderId, "order_id")) else Null)
  }

  /** The list `addPendingOrder(order)` leaves, or what it throws. */
  function AddedPending(list: seq<Value>, order: Value): Result<seq<Value>> {
    if !Truthy(order) then Ok(list)
    else
      match HasKey(list, KeyOf(order).value)
      case Err(e) => Err(e)
      case Ok(present) => Ok(if present then list else [Copy(order)] + list)
  }

  /** `addPendingOrder` is an insert-if-absent at the front: a falsy order or
      one whose key is already listed changes nothing; any other is copied
      to the front with the old list behind it. */
  lemma AddPendingInsertsIfAbsent(list: seq<Value>, order: Value)
    requires Keyed(list)
    ensures AddedPending(list, order).Ok?
    ensures !Truthy(order) ==> AddedPending(list, order) == Ok(list)
    ensures Truthy(order) ==>
              var present := exists i :: 0 <= i < |list| && KeyOf(list[i]) == KeyOf(order);
              AddedPending(list, order).value == if present then list else [Copy(order)] + list
  {
    if Truthy(order) {
      var id := KeyOf(order).value;
      assert KeyOf(order) == Ok(id);
      if HasKey(list, id) == Ok(false) {
        assert forall i :: 0 <= i < |list| ==> KeyOf(list[i]) != KeyOf(order);
      }
    }
  }

  /** `addPendingOrder` keeps the keys of the pending list distinct. */
  lemma AddPendingKeepsKeysDistinct(list: seq<Value>, order: Value)
    requires KeysDistinct(list)
    ensures KeysDistinct(AddedPending(list, order).value)
  {
    AddPendingInsertsIfAbsent(list, order);
    if Truthy(order) && HasKey(list, KeyOf(order).value) == Ok(false) {
      CopyKeepsKey(order);
      forall y | y in list
        ensures KeyOf(y) != KeyOf(Copy(order))
      {
        var k :| 0 <= k < |list| && list[k] == y;
      }
      ConsKeysDistinct(Copy(order), list);
    }
  }

  /** The list `removePendingOrder(orderId)` leaves, or what it throws. */
  function RemovedPending(list: seq<Value>, orderId: Value): (r: Result<seq<Value>>)
    ensures Nullish(orderId) ==> r == Ok(list)
    ensures !Nullish(orderId) && Keyed(list) ==> r == WithoutKey(list, orderId) && r.Ok?
    ensures !Nullish(orderId) && !Keyed(list) ==> r.Err?
  {
    var id := RemovalKey(orderId);
    if Nullish(id) then Ok(list) else WithoutKey(list, id)
  }

  /** `Array.isArray(orders) ? [...orders] : []` */
  function PendingFrom(orders: Value): (r: seq<Value>)
    ensures orders.Arr? ==> r == orders.items
    ensures !orders.Arr? ==> r == []
  {
    if orders.Arr? then orders.items else []
  }

  /** `{ ...order, driverLocation: { lat, lng } }` */
  function Located(order: Value, lat: real, lng: real): Value {
    Obj(Own(order)["driverLocation" := Obj(map["lat" := Num(lat), "lng" := Num(lng)])])
  }

  /** The dispatch store. */
  class Store {
    var currentOrderId: Value
    var currentOrder: Value
    var customerId: Value
    var driverId: Value
    var newOrderOffer: Value
    var pendingOrdersList: seq<Value>

    /** The current order is an object or null, and without one there is no
        current id; an offer is an object or null. */
    ghost predicate Valid()
      reads this
    {
      && (currentOrder.Null? || currentOrder.Obj?)
      && (currentOrder.Null? ==> currentOrderId.Null?)
      && !currentOrderId.Undefined?
      && (newOrderOffer.Null? || newOrderOffer.Obj?)
    }

    constructor ()
      ensures Valid()
      ensures currentOrderId == Null && currentOrder == Null && customerId == Null
      ensures driverId == Null && newOrderOffer == Null && pendingOrdersList == []
    {
      currentOrderId, currentOrder := Null, Null;
      customerId, driverId := Null, Null;
      newOrderOffer, pendingOrdersList := Null, [];
    }

    /** The `isMatched` computed value: the current order's status says a
        driver has it. */
    function IsMatched(): (r: bool)
      reads this
      ensures r <==> currentOrder.Obj? && "status" in currentOrder.fields && IsMatchedStatus(currentOrder.fields["status"])
    {
      NamedField(currentOrder, "status");
      IsMatchedStatus(OptProp(currentOrder, "status"))
    }

    method SetOrder(order: Value)
      requires Valid()
      modifies this
      ensures Valid()
      ensures currentOrderId == CurrentIdOf(order)
      ensures currentOrder == if Truthy(order) then Copy(order) else Null
      ensures customerId == old(customerId) && driverId == old(driverId)
      ensures newOrderOffer == old(newOrderOffer) && pendingOrdersList == old(pendingOrdersList)
    {
      currentOrderId := CurrentIdOf(order);
      currentOrder := if Truthy(order) then Copy(order) else Null;
    }

    /** Without a current order nothing changes; otherwise only the order's
        `driverLocation` field does. */
    method SetDriverLocation(lat: real, lng: real)
      requires Valid()
      modifies this
      ensures Valid()
      ensures old(currentOrder).Null? ==> currentOrder == Null
      ensures old(currentOrder).Obj? ==>
                currentOrder == Obj(old(currentOrder).fields["driverLocation" := Obj(map["lat" := Num(lat), "lng" := Num(lng)])])
      ensures currentOrderId == old(currentOrderId)
      ensures customerId == old(customerId) && driverId == old(driverId)
      ensures newOrderOffer == old(newOrderOffer) && pendingOrdersList == old(pendingOrdersList)
    {
      if !Truthy(currentOrder) {
        return;
      }
      currentOrder := Located(currentOrder, lat, lng);
    }

    method SetCustomerId(id: Value)
      requires Valid()
      modifies this
      ensures Valid()
      ensures customerId == id
      ensures currentOrderId == old(currentOrderId) && currentOrder == old(currentOrder) && driverId == old(driverId)
      ensures newOrderOffer == old(newOrderOffer) && pendingOrdersList == old(pendingOrdersList)
    {
      customerId := id;
    }

    method SetDriverId(id: Value)
      requires Valid()
      modifies this
      ensures Valid()
      ensures driverId == id
      ensures currentOrderId == old(currentOrderId) && currentOrder == old(currentOrder) && customerId == old(customerId)
      ensures newOrderOffer == old(newOrderOffer) && pendingOrdersList == old(pendingOrdersList)
    {
      driverId := id;
    }

    method ClearOrder()
      requires Valid()
      modifies this
      ensures Valid()
      ensures currentOrderId == Null && currentOrder == Null
      ensures customerId == old(customerId) && driverId == old(driverId)
      ensures newOrderOffer == old(newOrderOffer) && pendingOrdersList == old(pendingOrdersList)
    {
      currentOrderId := Null;
      currentOrder := Null;
    }

    method SetNewOrderOffer(offer: Value)
      requires Valid()
      modifies this
      ensures Valid()
      ensures newOrderOffer == if Truthy(offer) then Copy(offer) else Null
      ensures currentOrderId == old(currentOrderId) && currentOrder == old(currentOrder)
      ensures customerId == old(customerId) && driverId == old(driverId) && pendingOrdersList == old(pendingOrdersList)
    {
      newOrderOffer := if Truthy(offer) then Copy(offer) else Null;
    }

    method ClearNewOrderOffer()
      requires Valid()
      modifies this
      ensures Valid()
      ensures newOrderOffer == Null
      ensures currentOrderId == old(currentOrderId) && currentOrder == old(currentOrder)
      ensures customerId == old(customerId) && driverId == old(driverId) && pendingOrdersList == old(pendingOrdersList)
    {
      newOrderOffer := Null;
    }

    method SetPendingOrders(orders: Value)
      requires Valid()
      modifies this
      ensures Valid()
      ensures pendingOrdersList == PendingFrom(orders)
      ensures currentOrderId == old(currentOrderId) && currentOrder == old(currentOrder)
      ensures customerId == old(customerId) && driverId == old(driverId) && newOrderOffer == old(newOrderOffer)
    {
      pendingOrdersList := if orders.Arr? then orders.items else [];
    }

    /** `addPendingOrder`. A null entry met by `some` before a match throws
        out of the call (`thrown`) and leaves the list as it was. */
    method AddPendingOrder(order: Value) returns (thrown: Option<string>)
      requires Valid()
      modifies this
      ensures Valid()
      ensures match AddedPending(old(pendingOrdersList), order)
              case Ok(list) => pendingOrdersList == list && thrown == None
              case Err(e) => pendingOrdersList == old(pendingOrdersList) && thrown == Some(e)
      ensures KeysDistinct(old(pendingOrdersList)) ==> KeysDistinct(pendingOrdersList)
      ensures currentOrderId == old(currentOrderId) && currentOrder == old(currentOrder)
      ensures customerId == old(customerId) && driverId == old(driverId) && newOrderOffer == old(newOrderOffer)
    {
      thrown := None;
      if KeysDistinct(pendingOrdersList) {
        AddPendingKeepsKeysDistinct(pendingOrdersList, order);
      }
      if !Truthy(order) {
        return;
      }
      var id := KeyOf(order).value;
      var found := HasKey(pendingOrdersList, id);
      if found.Err? {
        thrown := Some(found.error);
        return;
      }
      if !found.value {
        pendingOrdersList := [Copy(order)] + pendingOrdersList;
      }
    }

    /** `removePendingOrder`. An entry that is null or undefined makes
        `filter` throw out of the call (`thrown`), leaving the list as it was. */
    method RemovePendingOrder(orderId: Value) returns (thrown: Option<string>)
      requires Valid()
      modifies this
      ensures Valid()
      ensures match RemovedPending(old(pendingOrdersList), orderId)
              case Ok(list) => pendingOrdersList == list && thrown == None
              case Err(e) => pendingOrdersList == old(pendingOrdersList) && thrown == Some(e)
      ensures KeysDistinct(old(pendingOrdersList)) ==> KeysDistinct(pendingOrdersList)
      ensures currentOrderId == old(currentOrderId) && currentOrder == old(currentOrder)
      ensures customerId == old(customerId) && driverId == old(driverId) && newOrderOffer == old(newOrderOffer)
    {
      thrown := None;
      if KeysDistinct(pendingOrdersList) {
        WithoutKeyKeepsKeysDistinct(pendingOrdersList, orderId);
      }
      var id := RemovalKey(orderId);
      if !Nullish(id) {
        match WithoutKey(pendingOrdersList, id)
        case Ok(list) =>
          pendingOrdersList := list;
        case Err(e) =>
          thrown := Some(e);
      }
    }
  }
}
