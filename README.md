# Dispatch hub, dispatch store and order records

A model, in Dafny, of the core of a ride-dispatch system, in three parts.

- The WebSocket dispatch hub of `ws-server/server.js` (module `Hub`). It
  keeps a registry of sockets: drivers by id, customers by id, and the
  subscribers of each order. It routes inbound frames by their `type`, and
  it pushes new orders to drivers from `POST /broadcast-new-order`. Node
  runs each handler to completion, so the hub is a sequential class
  `Hub.Hub`. Its methods are the events: a connection, a close, an inbound
  frame and an HTTP request. Every `ws.send` is an entry appended to
  `outbox`. The environment supplies, with each event, the set of open
  sockets (`readyState === 1`).
- The client dispatch store of `src/stores/useDispatchStore.js` (module
  `DispatchStore`). It is a class whose fields are the store's state refs
  and whose methods are the setters. The pending-orders list is keyed by
  `orderId ?? order_id`. Its insert-if-absent and remove-by-key are pure
  functions, and the key invariant (keys pairwise distinct) is proved about
  those functions.
- The order-record shaping of `src/composables/useDispatchApi.js` (module
  `DispatchApi`). The results of the `api.*` reads are inputs, and
  `JSON.parse` is a parameter. The record each operation writes and the
  value it resolves to are then functions of those inputs. The loop of
  `fetchUnfinishedOrders` is a method proved against such a function.

JavaScript values are modelled in module `Json`. It covers undefined, null,
booleans, numbers, strings, arrays and objects. It also models truthiness,
`||`, `??`, property reads (which throw on null and undefined), `?.`, and
object spread. Spread is a right-biased map union in which arrays and
strings contribute their index keys. A thrown error is `Err(message)`.

The model follows the code where it departs from the stated design.

- `Hub.Hub.Close` deletes `drivers[id]` / `customers[id]` for the id the
  socket connected with, even when a newer socket has since replaced it
  under that id. `Hub.StaleCloseScenario` shows the consequence: the newer,
  still open driver socket stops receiving new orders.
- A frame of type `order_created` is relayed to drivers as
  `{type: 'new_order', ...msg}`. The frame's own `type` wins, so drivers
  receive `type: 'order_created'`, not `new_order`.
- In `POST /broadcast-new-order`, the log line reads `payload.orderId` after
  the broadcast. A body that parses to `null` therefore reaches every open
  driver as `{type: 'new_order'}`, and is still answered 400.
- `removePendingOrder`'s branch for object arguments is never taken for an
  object. The `??` picks any non-null argument first, so the argument
  itself is the key.

## Model

| member | source | states |
|---|---|---|
| Json.TaggedFields | ws-server/server.js:92-95 | `{type: tag, ...v}` is an object whose `type` is `v`'s own `type` when it has one and `tag` otherwise; every other key reads as in `v` |
| Hub.RegisterKeepsRole | ws-server/server.js:73-78 | registering a new socket under its id keeps the role map a registry of live sockets, each under its own handshake id |
| Hub.UnregisterKeepsRole | ws-server/server.js:106-107 | deleting the captured id keeps the role map a registry, and no entry then leads to the closed socket |
| Hub.SubscribeKeepsOrders | ws-server/server.js:79-82 | adding the socket to its order's set (created when absent) keeps every set non-empty and every subscriber live under that orderId |
| Hub.UnsubscribeKeepsOrders | ws-server/server.js:108-111 | removing the socket, and deleting a set that becomes empty, leaves no empty set, and the socket is in no set |
| Hub.DeliveryCount | ws-server/server.js:52-65 | a delivery that reaches each target exactly once and nobody else has exactly as many sends as targets |
| Hub.Dispatch | ws-server/server.js:84-103 | parse error or null frame gives an error answer to the sender; ping gives a pong to the sender; a driver_location with a truthy orderId is forwarded verbatim to that order, and one without sends nothing (and only then); order_created goes to drivers as `{type:'new_order', ...msg}`, so its own type `order_created` wins; a forward or a driver broadcast happens only for these frames; any other type gives 'unknown type' |
| Hub.Admin | ws-server/server.js:11-33 | websocket upgrades are left alone; other routes give 404; an empty body broadcasts `{type:'new_order'}` and answers 200; a malformed body answers 400 and broadcasts nothing; a body that parses is broadcast as its fields typed new_order unless it has a type, then answered 200, or 400 when it parsed to null (the log line's read throws after the broadcast); 200 only after a broadcast |
| Hub.Hub.DriverSocketsDistinct | ws-server/server.js:52-56 | in a valid registry no socket is registered under two driver ids, so each driver socket is visited once |
| Hub.OpenEntries | ws-server/server.js:52-56 | when no socket is held under two ids, the ids whose socket is open are exactly as many as the open sockets held |
| Hub.Hub.constructor | ws-server/server.js:38-42 | the registry starts empty and valid |
| Hub.Hub.Connect | ws-server/server.js:67-82 | a driver (else customer) with an id becomes the entry for that id, replacing any earlier socket; other roles touch neither map; a non-empty orderId adds the socket to that order's set; validity is kept; nothing is sent |
| Hub.Hub.AddSubscriber | ws-server/server.js:79-82 | the order's set gains the socket, an absent set counting as empty; no other order changes |
| Hub.Hub.Close | ws-server/server.js:105-112 | the captured id is deleted unconditionally; the socket leaves its order's set, which is deleted when empty; afterwards the socket is in no map or set; validity is kept |
| Hub.Hub.RemoveSubscriber | ws-server/server.js:108-111 | the socket leaves the order's set, and a set left empty is deleted; no other order changes |
| Hub.Hub.SendToOpen | ws-server/server.js:58-65 | appends to the outbox the payload once to each open target and to nobody else, keeping what was sent before |
| Hub.Hub.BroadcastToDrivers | ws-server/server.js:52-56 | every open driver socket receives the payload exactly once, nobody else anything; there is one send per driver id whose socket is open, as `forEach` over the entries gives |
| Hub.Hub.BroadcastToOrder | ws-server/server.js:58-65 | exactly the open subscribers of the order receive the payload once; an order without a set sends nothing |
| Hub.Hub.Broadcast | ws-server/server.js:44-50 | one send to the socket registered under a truthy id in the named channel, when it is open; otherwise nothing |
| Hub.Hub.Receive | ws-server/server.js:84-103 | the registry is unchanged, and the new sends are exactly those `Dispatch` routes: one answer to the sender, or one copy to each open target |
| Hub.Hub.HandleRequest | ws-server/server.js:11-33 | answers as `Admin` says, and its broadcast reaches each open driver once; the registry is unchanged |
| Hub.ConnectTwoDriversAndCustomer | ws-server/server.js:67-82 | connecting drivers D1, D2 and a customer registers exactly the two driver sockets |
| Hub.AnnounceOrder | ws-server/server.js:94-95 | an order_created frame reaches every open driver once and carries its orderId |
| Hub.TwoDriversScenario | ws-server/server.js:94-107 | with two drivers an announcement reaches both once and the customer not at all; after one driver closes only the other receives the next |
| Hub.CloseFirstDriver | ws-server/server.js:105-106 | closing D1's socket leaves D2 the only registered driver |
| Hub.StaleCloseScenario | ws-server/server.js:105-107 | a close of the first socket under a reused driver id leaves the newer open socket without new orders |
| DispatchStore.CopyKeepsKey | src/stores/useDispatchStore.js:57-60 | the copy prepended has the key of the order |
| DispatchStore.CurrentIdOf | src/stores/useDispatchStore.js:18 | the current id is never undefined; a falsy order gives null; an order with a non-null orderId gives it, and one without gives its order_id, or null when that is missing too |
| DispatchStore.HasKey | src/stores/useDispatchStore.js:58 | `some` is false exactly when every entry is keyable and none has the key, true only when one has it, and throws only on a null entry |
| DispatchStore.WithoutKey | src/stores/useDispatchStore.js:67 | `filter` succeeds exactly when no entry is null and never lengthens the list |
| DispatchStore.WithoutKeyAppend | src/stores/useDispatchStore.js:67 | filtering a concatenation is the concatenation of the filtered parts (order is kept) |
| DispatchStore.WithoutAbsentKey | src/stores/useDispatchStore.js:67 | removing a key no entry has leaves the list as it is |
| DispatchStore.WithoutKeyMembers | src/stores/useDispatchStore.js:67 | an entry survives the filter if and only if it was listed and its key is another |
| DispatchStore.WithoutKeyKeepsKeysDistinct | src/stores/useDispatchStore.js:64-69 | removal keeps the keys pairwise distinct |
| DispatchStore.RemovalKey | src/stores/useDispatchStore.js:65-66 | the key is absent exactly when the argument is null or undefined, and is otherwise the argument itself |
| DispatchStore.AddPendingInsertsIfAbsent | src/stores/useDispatchStore.js:55-62 | a falsy order or one whose key is listed leaves the list; any other is copied to the front with the old list behind it |
| DispatchStore.AddPendingKeepsKeysDistinct | src/stores/useDispatchStore.js:55-62 | adding keeps the keys pairwise distinct |
| DispatchStore.RemovedPending | src/stores/useDispatchStore.js:64-69 | a null or undefined id leaves the list; otherwise the list is the filter by that key, which fails only on a null entry |
| DispatchStore.PendingFrom | src/stores/useDispatchStore.js:51-53 | an array gives its elements in order; anything else gives the empty list |
| DispatchStore.Store.constructor | src/stores/useDispatchStore.js:5-10 | every ref starts null and the list empty |
| DispatchStore.Store.IsMatched | src/stores/useDispatchStore.js:12-15 | true exactly when the current order's status is matched, picked_up or dropped_off |
| DispatchStore.Store.SetOrder | src/stores/useDispatchStore.js:17-20 | the id is `orderId ?? order_id ?? null`, the order a copy (null for a falsy order); nothing else changes |
| DispatchStore.Store.SetDriverLocation | src/stores/useDispatchStore.js:22-28 | without a current order nothing changes; otherwise only the order's driverLocation is set |
| DispatchStore.Store.SetCustomerId | src/stores/useDispatchStore.js:30-32 | only the customer id changes |
| DispatchStore.Store.SetDriverId | src/stores/useDispatchStore.js:39-41 | only the driver id changes |
| DispatchStore.Store.ClearOrder | src/stores/useDispatchStore.js:34-37 | id and order become null; nothing else changes |
| DispatchStore.Store.SetNewOrderOffer | src/stores/useDispatchStore.js:43-45 | the offer is a copy, or null for a falsy one; nothing else changes |
| DispatchStore.Store.ClearNewOrderOffer | src/stores/useDispatchStore.js:47-49 | the offer becomes null; nothing else changes |
| DispatchStore.Store.SetPendingOrders | src/stores/useDispatchStore.js:51-53 | the list becomes the array's elements, or empty; nothing else changes |
| DispatchStore.Store.AddPendingOrder | src/stores/useDispatchStore.js:55-62 | the list becomes the insert-if-absent result, or stays when `some` throws; distinct keys are kept; nothing else changes |
| DispatchStore.Store.RemovePendingOrder | src/stores/useDispatchStore.js:64-69 | the list becomes the remove-by-key result, or stays when `filter` throws; distinct keys are kept; nothing else changes |
| DispatchApi.DatalistOf | src/composables/useDispatchApi.js:23-26 | a null row gives `{}`; a text gives its parse, or `{}` when that fails; any other datalist is kept when truthy and is `{}` otherwise |
| DispatchApi.FetchOrderBySnkey | src/composables/useDispatchApi.js:16-28 | a rejected read propagates; no array or an empty one gives null; a null first row throws; a record always has an orderId |
| DispatchApi.FetchedRecord | src/composables/useDispatchApi.js:27 | the record's orderId is the datalist's own when it has one, else the snkey; every other key reads as in the datalist |
| DispatchApi.FetchReadsFirstRowOnly | src/composables/useDispatchApi.js:21-22 | rows after the first make no difference |
| DispatchApi.UnparsedDatalistIsEmpty | src/composables/useDispatchApi.js:23-27 | a datalist text that does not parse gives the record `{orderId: snkey}` |
| DispatchApi.AllOrdersEntry | src/composables/useDispatchApi.js:68-83 | an entry is built exactly when the row and its datalist are not null |
| DispatchApi.AllOrdersEntryShape | src/composables/useDispatchApi.js:73-82 | an entry is the datalist spread over defaults whose ids are the row's snkey |
| DispatchApi.AllOrdersEntryIds | src/composables/useDispatchApi.js:74-81 | orderId and order_id are the snkey unless the datalist has its own; every datalist key is kept |
| DispatchApi.AllOrdersEntryDefaults | src/composables/useDispatchApi.js:76-81 | status is 'pending', texts '' and driver null, each unless the datalist has the key |
| DispatchApi.AllOrdersEntries | src/composables/useDispatchApi.js:68-83 | the map succeeds exactly when every entry does, and then gives one entry per row in row order |
| DispatchApi.FetchAllOrders | src/composables/useDispatchApi.js:64-87 | a rejected read, no array, or any throwing row gives `[]`; otherwise one entry per row, in order |
| DispatchApi.CollectAppend | src/composables/useDispatchApi.js:94-117 | the loop keeps row order: the list for `a + b` is the list for `a` followed by that for `b` |
| DispatchApi.CollectMembers | src/composables/useDispatchApi.js:94-117 | the list holds exactly the entries pushed for some row |
| DispatchApi.EntryStatus | src/composables/useDispatchApi.js:102-116 | an entry's status is the datalist's own when it has one, else the status filtered on |
| DispatchApi.UnfinishedEntryStatus | src/composables/useDispatchApi.js:100-116 | the status of a pushed entry is never dropped_off or cancelled |
| DispatchApi.UnfinishedOrders | src/composables/useDispatchApi.js:90-122 | a rejected read, no array, or a throw in the loop gives `[]` |
| DispatchApi.UnfinishedNeverFinished | src/composables/useDispatchApi.js:100-101 | no returned order is dropped_off or cancelled, a missing or falsy status counting as pending |
| DispatchApi.UnfinishedKeepsOthers | src/composables/useDispatchApi.js:100-116 | every row whose status is neither dropped_off nor cancelled contributes its entry |
| DispatchApi.FetchUnfinishedOrders | src/composables/useDispatchApi.js:90-122 | the loop with `continue` and `push` returns exactly `UnfinishedOrders` |
| DispatchApi.GetOrderStatus | src/composables/useDispatchApi.js:125-131 | no record (or a throw) gives `{orderId, status:'pending'}`; a record keeps every key, gains only status, and its status is its own or 'pending' |
| DispatchApi.DetailRecordFields | src/composables/useDispatchApi.js:137-146 | defaults show only where the record lacks status, pickup, dropoff or driver; every key of the record is kept |
| DispatchApi.GetOrderDetail | src/composables/useDispatchApi.js:134-149 | no record gives the fallback with empty pickup and dropoff and a null driver; a record gets status, pickup (from the flat keys), dropoff (null without an address) and driver only where it lacks them |
| DispatchApi.OrderPayload | src/composables/useDispatchApi.js:35-54 | builds only for non-null data; status is 'pending'; pickup is an object; dropoff is null exactly when dropoffAddress is falsy |
| DispatchApi.CreateOrder | src/composables/useDispatchApi.js:33-61 | the payload is written unless it throws; the result has only orderId and status 'pending'; the orderId is the snkey of an accepted write, else the mock id |
| DispatchApi.DriverAcceptOrder | src/composables/useDispatchApi.js:161-176 | `{ok:false}` exactly when the order is missing, else `{ok:true}`; the record written is the row as matched with the driver's id, name (default 司機) and phone (default driver id), without orderId, every other key kept |
| DispatchApi.DriverRejectOrder | src/composables/useDispatchApi.js:178-188 | a found row is written with its truthy status kept, or 'pending', without orderId, every other key kept |
| DispatchApi.DriverUpdateStatus | src/composables/useDispatchApi.js:190-200 | `{ok:false}` only for a missing order; the record is the row with the status and then the extra data over it (which may override the status), without orderId |
| DispatchApi.AcceptedOrderReadsMatched | src/composables/useDispatchApi.js:161-176 | once the accepted record is stored as a row's datalist, the status lookup reports it matched under the row's snkey |

## Left out

- The HTTP server, `server.listen`, the WebSocket transport and
  `readyState`. The open sockets are a parameter of each event, and a
  socket's handshake is given as the parsed `role`, `id` and `orderId`
  (URL parsing is not modelled).
- `JSON.parse` is a parameter (or a given parse result) and
  `JSON.stringify` is not modelled: payloads and written records are kept
  as values.
- `Date.now()` is a parameter (`now`).
- `console.log` output. The model keeps only the fact that its property
  read in the admin handler can throw.
- The order of keys in objects.
- The order in which a broadcast visits its recipients. Delivery is stated
  as "exactly once to each target, to nobody else".
- A socket's `close` fires once. Closing a socket that is not live is
  excluded by `Hub.Hub.Close`'s precondition.
- Number precision, NaN, `length` and prototype properties. Numbers are
  reals, and strings are sequences of characters, not UTF-16 code units.
- DispatchStore.HasKey: `===` compares object and array keys by reference;
  the model compares them by value.
- DispatchStore.WithoutKey: as for `HasKey`, object and array keys are
  compared by value.
- DispatchStore.Store.SetDriverLocation: `Number(lat)` and `Number(lng)` are
  not modelled. The coordinates are given as numbers.
- DispatchApi.DriverAcceptOrder: the `snkey: Number(orderId)` sent with the
  record is not modelled. The same holds for DriverRejectOrder and
  DriverUpdateStatus.
- DispatchApi.FetchOrderBySnkey: the request made with `String(orderId)` is
  not modelled. The rows it returns are an input.
- `uploadOrderPhoto` (`FormData` and `api.upload`): it forwards a file to a
  library that is not part of this model.
- The `@/assets/js/api` library and the store's `databaseName` are not
  part of this model.
- The client socket adapters, `src/utils/geo.js`, `src/stores/useStore.js`
  and the router are not part of this model.
