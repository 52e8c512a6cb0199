/** The dispatch hub of ws-server/server.js: a registry of open sockets by
    role, identity and order, the router for inbound frames, and the
    administrative `POST /broadcast-new-order` entry point.

    Node runs each handler to completion, so the hub is a sequential object
    whose methods are the events: a connection, a close, an inbound frame and
    an HTTP request. Sockets are plain handles; which of them are open
    (`readyState === 1`) is given by the environment with each event, and
    every `ws.send` is an entry appended to `outbox`. */
module Hub {
  import opened Json

  /** A socket handle. */
  type Conn = nat

  /** The query parameters a socket connected with, as `searchParams.get`
      returns them (`null` is `None`). The connection handler's closures
      capture them, so the close handler sees the values of the connection. */
  datatype Handshake = Handshake(role: Option<string>, id: Option<string>, orderId: Option<string>)
  {
    /** `role === r && id`: the socket goes into the map of role `r`. */
    predicate Registers(r: string) {
      role == Some(r) && id.Some? && id.value != ""
    }

    /** `orderId` is truthy. */
    predicate Subscribes() {
      orderId.Some? && orderId.value != ""
    }
  }

  const DRIVER := "driver"
  const CUSTOMER := "customer"

  /** A role map (`channels.drivers` or `channels.customers`) in which every
      entry is a live socket that connected with that role under that id. */
  ghost predicate RoleRegistry(channel: map<string, Conn>, handlers: map<Conn, Handshake>, role: string) {
    forall id :: id in channel ==>
      channel[id] in handlers && handlers[channel[id]].Registers(role) && handlers[channel[id]].id == Some(id)
  }

  /** `channels.orders`: no order keeps an empty set, and every subscriber is
      a live socket that connected with that orderId. */
  ghost predicate OrderRegistry(orders: map<string, set<Conn>>, handlers: map<Conn, Handshake>) {
    && (forall o :: o in orders ==> o != "" && orders[o] != {})
    && (forall o, c :: o in orders && c in orders[o] ==> c in handlers && handlers[c].orderId == Some(o))
  }

  /** A role map after socket `c` connected with `h`: its id now leads to
      `c`, replacing any earlier socket. */
  function Registered(channel: map<string, Conn>, role: string, c: Conn, h: Handshake): map<string, Conn> {
    if h.Registers(role) then channel[h.id.value := c] else channel
  }

  /** A role map after the socket that connected with `h` closed: its id is
      deleted, whichever socket it leads to. */
  function Unregistered(channel: map<string, Conn>, role: string, h: Handshake): map<string, Conn> {
    if h.Registers(role) then channel - {h.id.value} else channel
  }

  /** The subscriber set of order `o`, empty when there is none. */
  function SubscribersOf(orders: map<string, set<Conn>>, o: string): set<Conn> {
    if o in orders then orders[o] else {}
  }

  /** `channels.orders` after socket `c` connected with `h`. */
  function Subscribed(orders: map<string, set<Conn>>, c: Conn, h: Handshake): map<string, set<Conn>> {
    if h.Subscribes() then orders[h.orderId.value := SubscribersOf(orders, h.orderId.value) + {c}] else orders
  }

  /** `channels.orders` after socket `c`, which connected with `h`, closed. */
  function Unsubscribed(orders: map<string, set<Conn>>, c: Conn, h: Handshake): map<string, set<Conn>> {
    if h.Subscribes() && h.orderId.value in orders then
      var o := h.orderId.value;
      if orders[o] - {c} == {} then orders - {o} else orders[o := orders[o] - {c}]
    else orders
  }

  /** Registering a new socket keeps a role map consistent; its id now
      finds it, and every other id keeps its socket. */
  lemma RegisterKeepsRole(channel: map<string, Conn>, handlers: map<Conn, Handshake>, role: string, c: Conn, h: Handshake)
    requires RoleRegistry(channel, handlers, role) && c !in handlers
    ensures RoleRegistry(Registered(channel, role, c, h), handlers[c := h], role)
    ensures h.Registers(role) ==> Registered(channel, role, c, h)[h.id.value] == c
    ensures forall id :: id in channel && !(h.Registers(role) && id == h.id.value) ==>
              id in Registered(channel, role, c, h) && Registered(channel, role, c, h)[id] == channel[id]
  {
    var r := Registered(channel, role, c, h);
    var hs := handlers[c := h];
    forall id | id in r
      ensures r[id] in hs && hs[r[id]].Registers(role) && hs[r[id]].id == Some(id)
    {
      if h.Registers(role) && id == h.id.value {
        assert r[id] == c;
      } else {
        assert id in channel && r[id] == channel[id];
        assert channel[id] != c;
      }
    }
  }

  /** Closing a socket keeps a role map consistent and leaves the socket in
      it under no id. */
  lemma UnregisterKeepsRole(channel: map<string, Conn>, handlers: map<Conn, Handshake>, role: string, c: Conn)
    requires RoleRegistry(channel, handlers, role) && c in handlers
    ensures RoleRegistry(Unregistered(channel, role, handlers[c]), handlers - {c}, role)
    ensures c !in Unregistered(channel, role, handlers[c]).Values
  {
    var h := handlers[c];
    var r := Unregistered(channel, role, h);
    forall id | id in r
      ensures r[id] != c
    {
      assert id in channel && r[id] == channel[id];
      assert h.Registers(role) ==> id != h.id.value;
    }
  }

  /** Subscribing a new socket keeps the order map consistent. */
  lemma SubscribeKeepsOrders(orders: map<string, set<Conn>>, handlers: map<Conn, Handshake>, c: Conn, h: Handshake)
    requires OrderRegistry(orders, handlers) && c !in handlers
    ensures OrderRegistry(Subscribed(orders, c, h), handlers[c := h])
    ensures h.Subscribes() ==> c in Subscribed(orders, c, h)[h.orderId.value]
  {
    var r := Subscribed(orders, c, h);
    var hs := handlers[c := h];
    forall o, d | o in r && d in r[o]
      ensures d in hs && hs[d].orderId == Some(o)
    {
      if d == c {
        assert h.Subscribes() && o == h.orderId.value;
      } else {
        assert d in orders[o];
      }
    }
  }

  /** Closing a socket keeps the order map consistent, drops an order whose
      last subscriber it was, and leaves the socket in no subscriber set. */
  lemma UnsubscribeKeepsOrders(orders: map<string, set<Conn>>, handlers: map<Conn, Handshake>, c: Conn)
    requires OrderRegistry(orders, handlers) && c in handlers
    ensures OrderRegistry(Unsubscribed(orders, c, handlers[c]), handlers - {c})
    ensures forall o :: o in Unsubscribed(orders, c, handlers[c]) ==> c !in Unsubscribed(orders, c, handlers[c])[o]
  {
    var h := handlers[c];
    var r := Unsubscribed(orders, c, h);
    forall o, d | o in r && d in r[o]
      ensures d != c && d in orders[o]
    {
      assert o in orders && r[o] <= orders[o];
      if h.Subscribes() && o == h.orderId.value {
        assert c !in r[o];
      }
    }
  }

  /** One `ws.send(JSON.stringify(msg))` to socket `to`. */
  datatype Send = Send(to: Conn, msg: Value)

  /** The number of sends in `sent` addressed to `c`. */
  function SendsTo(sent: seq<Send>, c: Conn): nat
    decreases |sent|
  {
    if sent == [] then 0
    else SendsTo(sent[..|sent| - 1], c) + (if sent[|sent| - 1].to == c then 1 else 0)
  }

  lemma SendsToAppend(sent: seq<Send>, s: Send, c: Conn)
    ensures SendsTo(sent + [s], c) == SendsTo(sent, c) + (if s.to == c then 1 else 0)
  {
    assert (sent + [s])[..|sent|] == sent;
  }

  /** `sent` carries `payload` exactly once to every member of `targets` and
      to nobody else. */
  ghost predicate DeliversOnce(sent: seq<Send>, targets: set<Conn>, payload: Value) {
    && (forall i :: 0 <= i < |sent| ==> sent[i].msg == payload)
    && (forall c :: SendsTo(sent, c) == if c in targets then 1 else 0)
  }

  /** A delivery that reaches every target once has exactly as many sends as
      targets. */
  lemma {:induction false} DeliveryCount(sent: seq<Send>, targets: set<Conn>, payload: Value)
    requires DeliversOnce(sent, targets, payload)
    ensures |sent| == |targets|
    decreases |sent|
  {
    if sent == [] {
      assert forall c :: SendsTo(sent, c) == 0;
      assert forall c :: c !in targets;
      assert targets == {};
    } else {
      var n := |sent| - 1;
      var last := sent[n];
      assert SendsTo(sent, last.to) == SendsTo(sent[..n], last.to) + 1;
      assert last.to in targets;
      var rest := targets - {last.to};
      forall c
        ensures SendsTo(sent[..n], c) == if c in rest then 1 else 0
      {
        assert SendsTo(sent, c) == SendsTo(sent[..n], c) + (if last.to == c then 1 else 0);
      }
      DeliveryCount(sent[..n], rest, payload);
    }
  }

  /** The values `m` gives to `keys`. */
  ghost function Image<K, V>(m: map<K, V>, keys: set<K>): set<V>
    requires keys <= m.Keys
  {
    set k | k in keys :: m[k]
  }

  /** Under an injective map, a set of keys has as many members as its image. */
  lemma {:induction false} InjectiveImageCard<K, V>(m: map<K, V>, keys: set<K>)
    requires keys <= m.Keys
    requires forall i, j :: i in m && j in m && m[i] == m[j] ==> i == j
    ensures |Image(m, keys)| == |keys|
    decreases |keys|
  {
    if keys != {} {
      var k :| k in keys;
      var rest := keys - {k};
      InjectiveImageCard(m, rest);
      assert Image(m, keys) == Image(m, rest) + {m[k]};
      assert m[k] !in Image(m, rest);
    }
  }

  /** The ids of a registry whose socket is open are as many as the open
      sockets it holds, when no socket is held under two ids. */
  lemma OpenEntries(channel: map<string, Conn>, open: set<Conn>)
    requires forall i, j :: i in channel && j in channel && channel[i] == channel[j] ==> i == j
    ensures |set id | id in channel && channel[id] in open| == |channel.Values * open|
  {
    var ids := set id | id in channel && channel[id] in open;
    InjectiveImageCard(channel, ids);
    var image := Image(channel, ids);
    forall c | c in channel.Values * open
      ensures c in image
    {
      var id :| id in channel && channel[id] == c;
      assert id in ids;
    }
    assert image == channel.Values * open;
  }

  /** `{ type: 'error', message }` */
  function ErrorMessage(message: string): Value {
    Obj(map["type" := Str("error"), "message" := Str(message)])
  }

  /** `{ type: 'pong', at }` */
  function Pong(at: nat): Value {
    Obj(map["type" := Str("pong"), "at" := Num(at as real)])
  }

  /** What the message handler does with one inbound frame: answer the sender,
      hand a payload to `broadcastToOrder` or to `broadcastToDrivers`, or
      nothing at all. */
  datatype Route =
    | Answer(msg: Value)
    | ToOrder(orderId: Value, msg: Value)
    | ToDrivers(msg: Value)
    | Silent

  /** The `switch (msg.type)` of the message handler, with its `catch`.
      `frame` is JSON.parse of the frame's text and `now` is `Date.now()`. */
  function Dispatch(frame: Result<Value>, now: nat): (r: Route)
    // A frame that does not parse, or parses to null, is answered with the error's message.
    ensures frame.Err? ==> r == Answer(ErrorMessage(frame.error))
    ensures frame == Ok(Null) ==> r == Answer(ErrorMessage(ReadError(Null, "type")))
    // A ping is answered with a pong to the sender only.
    ensures frame.Ok? && Field(frame.value, "type") == Str("ping") && !Nullish(frame.value) ==> r == Answer(Pong(now))
    // driver_location goes to the order named by a truthy orderId, forwarded verbatim.
    ensures r.ToOrder? ==>
              && frame.Ok? && frame.value.Obj?
              && Field(frame.value, "type") == Str("driver_location")
              && "orderId" in frame.value.fields && r.orderId == frame.value.fields["orderId"] && Truthy(r.orderId)
              && r.msg == frame.value
    // order_created goes to the drivers with the sender's fields, its own type included.
    ensures r.ToDrivers? ==>
              && frame.Ok? && frame.value.Obj?
              && Field(r.msg, "type") == Str("order_created")
              && forall k :: Field(r.msg, k) == Field(frame.value, k)
    // Conversely, a driver_location with a truthy orderId is forwarded to that order ...
    ensures frame.Ok? && frame.value.Obj? && Field(frame.value, "type") == Str("driver_location")
            && Truthy(Field(frame.value, "orderId"))
            ==> r == ToOrder(Field(frame.value, "orderId"), frame.value)
    // ... and an order_created frame goes to the drivers, spread behind `type: 'new_order'`.
    ensures frame.Ok? && !Nullish(frame.value) && Field(frame.value, "type") == Str("order_created")
            ==> r == ToDrivers(Tagged("new_order", frame.value))
    // Nothing is sent only for a driver_location without a truthy orderId.
    ensures r.Silent? <==>
              frame.Ok? && !Nullish(frame.value) && Field(frame.value, "type") == Str("driver_location")
              && !Truthy(Field(frame.value, "orderId"))
    // Any other type is answered with 'unknown type'.
    ensures frame.Ok? && !Nullish(frame.value)
            && Field(frame.value, "type") !in {Str("ping"), Str("driver_location"), Str("order_created")}
            ==> r == Answer(ErrorMessage("unknown type"))
  {
    match frame
    case Err(e) => Answer(ErrorMessage(e))
    case Ok(msg) =>
      match Prop(msg, "type")
      case Err(e) => Answer(ErrorMessage(e))
      case Ok(t) =>
        NamedField(msg, "type");
        NamedField(msg, "orderId");
        if t == Str("ping") then Answer(Pong(now))
        else if t == Str("driver_location") then
          var orderId := Field(msg, "orderId");
          if Truthy(orderId) then
            TaggedFields("driver_location", msg);
            assert Tagged("driver_location", msg) == msg by {
              assert Own(msg) == msg.fields;
            }
            ToOrder(orderId, Tagged("driver_location", msg))
          else Silent
        else if t == Str("order_created") then
          TaggedFields("new_order", msg);
          ToDrivers(Tagged("new_order", msg))
        else Answer(ErrorMessage("unknown type"))
  }

  /** The subscribers `channels.orders.get(orderId)` finds: a Map matches keys
      by SameValueZero, so only a string finds a string key. */
  function Subscribers(orders: map<string, set<Conn>>, orderId: Value): set<Conn> {
    if orderId.Str? && orderId.s in orders then orders[orderId.s] else {}
  }

  /** An HTTP request, as far as the request handler looks at it. */
  datatype Request = Request(upgrade: Option<string>, verb: string, url: string)

  datatype HttpResponse =
    | Upgraded                                  // left to the WebSocket server
    | HttpReply(status: nat, body: Option<Value>)

  /** What the request handler sends to the drivers, and what it answers. */
  datatype AdminOutcome = AdminOutcome(broadcast: Option<Value>, response: HttpResponse)

  function OkBody(): Value {
    Obj(map["ok" := Bool(true)])
  }

  function ErrorBody(message: string): Value {
    Obj(map["error" := Str(message)])
  }

  /** The HTTP request handler. `body` is the text received and `parsed` is
      JSON.parse of it. After the broadcast, the log line reads
      `payload.orderId`; for a body that parses to `null` that read throws, so
      the drivers have been sent the order and the answer is still 400. */
  function Admin(req: Request, body: string, parsed: Result<Value>): (r: AdminOutcome)
    ensures req.upgrade == Some("websocket") ==> r == AdminOutcome(None, Upgraded)
    ensures req.upgrade != Some("websocket") && !(req.verb == "POST" && req.url == "/broadcast-new-order")
            ==> r == AdminOutcome(None, HttpReply(404, None))
    // Success is answered only after a broadcast.
    ensures r.response == HttpReply(200, Some(OkBody())) ==> r.broadcast.Some?
    // An empty body counts as {}.
    ensures req.upgrade != Some("websocket") && req.verb == "POST" && req.url == "/broadcast-new-order" && body == ""
            ==> r == AdminOutcome(Some(Obj(map["type" := Str("new_order")])), HttpReply(200, Some(OkBody())))
    // A malformed body is answered 400 and nothing is sent.
    ensures req.upgrade != Some("websocket") && req.verb == "POST" && req.url == "/broadcast-new-order"
            && body != "" && parsed.Err?
            ==> r == AdminOutcome(None, HttpReply(400, Some(ErrorBody(parsed.error))))
    // A non-empty body that parses is broadcast; the answer is 200, except for a
    // body that parses to null or undefined, whose log line throws after the broadcast.
    ensures req.upgrade != Some("websocket") && req.verb == "POST" && req.url == "/broadcast-new-order"
            && body != "" && parsed.Ok?
            ==> && r.broadcast == Some(Tagged("new_order", parsed.value))
                && r.response == if Nullish(parsed.value) then HttpReply(400, Some(ErrorBody(ReadError(parsed.value, "orderId"))))
                                 else HttpReply(200, Some(OkBody()))
    // What is broadcast is the body's own fields, tagged new_order unless the body has a type.
    ensures r.broadcast.Some? ==>
              && req.verb == "POST" && req.url == "/broadcast-new-order"
              && (body != "" ==> parsed.Ok?)
              && var payload := if body == "" then Obj(map[]) else parsed.value;
                 && (forall k :: k != "type" ==> Field(r.broadcast.value, k) == Field(payload, k))
                 && Field(r.broadcast.value, "type") ==
                      if payload.Obj? && "type" in payload.fields then payload.fields["type"] else Str("new_order")
  {
    if req.upgrade == Some("websocket") then AdminOutcome(None, Upgraded)
    else if req.verb == "POST" && req.url == "/broadcast-new-order" then
      var payload := if body == "" then Ok(Obj(map[])) else parsed;
      match payload
      case Err(e) => AdminOutcome(None, HttpReply(400, Some(ErrorBody(e))))
      case Ok(p) =>
        TaggedFields("new_order", p);
        assert body == "" ==> Tagged("new_order", p) == Obj(map["type" := Str("new_order")]) by {
          assert Own(Obj(map[])) == map[];
        }
        var answer := match Prop(p, "orderId")
          case Err(e) => HttpReply(400, Some(ErrorBody(e)))
          case Ok(_) => HttpReply(200, Some(OkBody()));
        AdminOutcome(Some(Tagged("new_order", p)), answer)
    else AdminOutcome(None, HttpReply(404, None))
  }

  /** The `channels` registry together with the sockets' captured handshakes
      and everything sent so far. */
  class Hub {
    var drivers: map<string, Conn>
    var customers: map<string, Conn>
    var orders: map<string, set<Conn>>
    /** The handshake of every socket whose handlers are still live. */
    var handlers: map<Conn, Handshake>
    var outbox: seq<Send>

    /** Every registry entry belongs to a live socket registered under its own
        handshake, and no order keeps an empty set. */
    ghost predicate Valid()
      reads this
    {
      && RoleRegistry(drivers, handlers, DRIVER)
      && RoleRegistry(customers, handlers, CUSTOMER)
      && OrderRegistry(orders, handlers)
    }

    /** At most one driver id leads to any socket, so `drivers.forEach`
        visits each socket once. */
    lemma DriverSocketsDistinct()
      requires Valid()
      ensures forall i, j :: i in drivers && j in drivers && drivers[i] == drivers[j] ==> i == j
    {
    }

    constructor ()
      ensures Valid()
      ensures drivers == map[] && customers == map[] && orders == map[]
      ensures handlers == map[] && outbox == []
    {
      drivers, customers, orders := map[], map[], map[];
      handlers, outbox := map[], [];
    }

    /** The `connection` handler. */
    method Connect(c: Conn, h: Handshake)
      requires Valid() && c !in handlers
      modifies this
      ensures Valid()
      ensures handlers == old(handlers)[c := h]
      ensures drivers == Registered(old(drivers), DRIVER, c, h)
      ensures customers == Registered(old(customers), CUSTOMER, c, h)
      ensures orders == Subscribed(old(orders), c, h)
      ensures outbox == old(outbox)
      // the socket is now the one registered under its id, and a subscriber of its order
      ensures h.Registers(DRIVER) ==> drivers[h.id.value] == c
      ensures h.Registers(CUSTOMER) ==> customers[h.id.value] == c
      ensures h.Subscribes() ==> h.orderId.value in orders && c in orders[h.orderId.value]
    {
      RegisterKeepsRole(drivers, handlers, DRIVER, c, h);
      RegisterKeepsRole(customers, handlers, CUSTOMER, c, h);
      SubscribeKeepsOrders(orders, handlers, c, h);
      ghost var d0, c0, o0 := drivers, customers, orders;
      if h.Registers(DRIVER) {
        drivers := drivers[h.id.value := c];
      } else if h.Registers(CUSTOMER) {
        customers := customers[h.id.value := c];
      }
      assert drivers == Registered(d0, DRIVER, c, h);
      assert customers == Registered(c0, CUSTOMER, c, h);
      if h.Subscribes() {
        AddSubscriber(h.orderId.value, c);
      }
      assert orders == Subscribed(o0, c, h);
      handlers := handlers[c := h];
    }

    /** Adds `c` to the subscriber set of order `o`, creating the set first
        when the order has none. */
    method AddSubscriber(o: string, c: Conn)
      modifies this`orders
      ensures orders == old(orders)[o := SubscribersOf(old(orders), o) + {c}]
    {
      if o !in orders {
        orders := orders[o := {}];
      }
      orders := orders[o := orders[o] + {c}];
    }

    /** The `close` handler. It deletes the role entry for the captured id
        whatever socket that entry holds now, so a newer socket that replaced
        this one under the same id is dropped from the registry as well. */
    method Close(c: Conn)
      requires Valid() && c in handlers
      modifies this
      ensures Valid()
      ensures handlers == old(handlers) - {c}
      ensures drivers == Unregistered(old(drivers), DRIVER, old(handlers[c]))
      ensures customers == Unregistered(old(customers), CUSTOMER, old(handlers[c]))
      ensures orders == Unsubscribed(old(orders), c, old(handlers[c]))
      ensures outbox == old(outbox)
      // every membership of the socket is gone
      ensures c !in drivers.Values && c !in customers.Values
      ensures forall o :: o in orders ==> c !in orders[o]
    {
      UnregisterKeepsRole(drivers, handlers, DRIVER, c);
      UnregisterKeepsRole(customers, handlers, CUSTOMER, c);
      UnsubscribeKeepsOrders(orders, handlers, c);
      var h := handlers[c];
      ghost var d0, c0, o0 := drivers, customers, orders;
      if h.Registers(DRIVER) {
        drivers := drivers - {h.id.value};
      }
      assert drivers == Unregistered(d0, DRIVER, h);
      if h.Registers(CUSTOMER) {
        customers := customers - {h.id.value};
      }
      assert customers == Unregistered(c0, CUSTOMER, h);
      if h.Subscribes() && h.orderId.value in orders {
        RemoveSubscriber(h.orderId.value, c);
      }
      assert orders == Unsubscribed(o0, c, h);
      handlers := handlers - {c};
    }

    /** Removes `c` from the subscriber set of order `o`, deleting the set
        when it becomes empty. */
    method RemoveSubscriber(o: string, c: Conn)
      requires o in orders
      modifies this`orders
      ensures orders == if old(orders)[o] - {c} == {} then old(orders) - {o} else old(orders)[o := old(orders)[o] - {c}]
    {
      orders := orders[o := orders[o] - {c}];
      if orders[o] == {} {
        orders := orders - {o};
      }
    }

    /** `forEach` over `targets`, sending `payload` to each open one. */
    method SendToOpen(targets: set<Conn>, payload: Value, open: set<Conn>)
      modifies this`outbox
      ensures |outbox| >= |old(outbox)| && outbox[..|old(outbox)|] == old(outbox)
      ensures DeliversOnce(outbox[|old(outbox)|..], targets * open, payload)
    {
      var start := |outbox|;
      var rest := targets;
      ghost var done: set<Conn> := {};
      while rest != {}
        invariant rest <= targets && done == targets - rest
        invariant |outbox| >= start && outbox[..start] == old(outbox)
        invariant DeliversOnce(outbox[start..], done * open, payload)
        decreases rest
      {
        var c :| c in rest;
        if c in open {
          ghost var before := outbox[start..];
          outbox := outbox + [Send(c, payload)];
          assert outbox[start..] == before + [Send(c, payload)];
          forall d
            ensures SendsTo(outbox[start..], d) == if d in (done + {c}) * open then 1 else 0
          {
            SendsToAppend(before, Send(c, payload), d);
          }
        }
        rest := rest - {c};
        done := done + {c};
      }
    }

    /** `broadcastToDrivers`: every open driver socket gets the payload once. */
    method BroadcastToDrivers(payload: Value, open: set<Conn>)
      requires Valid()
      modifies this`outbox
      ensures |outbox| >= |old(outbox)| && outbox[..|old(outbox)|] == old(outbox)
      ensures DeliversOnce(outbox[|old(outbox)|..], drivers.Values * open, payload)
      // `forEach` visits map entries: one send per driver id whose socket is open
      ensures |outbox| - |old(outbox)| == |set id | id in drivers && drivers[id] in open|
    {
      SendToOpen(drivers.Values, payload, open);
      DriverSocketsDistinct();
      OpenEntries(drivers, open);
      DeliveryCount(outbox[|old(outbox)|..], drivers.Values * open, payload);
    }

    /** `broadcastToOrder`: every open subscriber of the order gets the
        payload once; an order with no subscriber set sends nothing. */
    method BroadcastToOrder(orderId: Value, payload: Value, open: set<Conn>)
      modifies this`outbox
      ensures |outbox| >= |old(outbox)| && outbox[..|old(outbox)|] == old(outbox)
      ensures DeliversOnce(outbox[|old(outbox)|..], Subscribers(orders, orderId) * open, payload)
    {
      if orderId.Str? && orderId.s in orders {
        SendToOpen(orders[orderId.s], payload, open);
      } else {
        assert outbox[|old(outbox)|..] == [];
      }
    }

    /** `broadcast(channelKey, id, payload)`: one send to the socket of a
        driver (`channelKey === 'drivers'`) or else a customer, if it is open. */
    method Broadcast(channelKey: string, id: Value, payload: Value, open: set<Conn>)
      modifies this`outbox
      ensures var channel := if channelKey == "drivers" then drivers else customers;
              var found := Truthy(id) && id.Str? && id.s in channel && channel[id.s] in open;
              outbox == old(outbox) + (if found then [Send(channel[id.s], payload)] else [])
    {
      var channel := if channelKey == "drivers" then drivers else customers;
      if Truthy(id) && id.Str? && id.s in channel && channel[id.s] in open {
        outbox := outbox + [Send(channel[id.s], payload)];
      }
    }

    /** The `message` handler of socket `c`. The registry is left as it is;
        the sends are those `Dispatch` routes. */
    method Receive(c: Conn, frame: Result<Value>, now: nat, open: set<Conn>)
      requires Valid() && c in handlers
      modifies this
      ensures Valid()
      ensures drivers == old(drivers) && customers == old(customers)
      ensures orders == old(orders) && handlers == old(handlers)
      ensures |outbox| >= |old(outbox)| && outbox[..|old(outbox)|] == old(outbox)
      ensures var sent := outbox[|old(outbox)|..];
              match Dispatch(frame, now)
              case Answer(m) => sent == [Send(c, m)]
              case ToOrder(orderId, m) => DeliversOnce(sent, Subscribers(orders, orderId) * open, m)
              case ToDrivers(m) => DeliversOnce(sent, drivers.Values * open, m)
              case Silent => sent == []
    {
      match Dispatch(frame, now)
      case Answer(m) =>
        outbox := outbox + [Send(c, m)];
        assert outbox[|old(outbox)|..] == [Send(c, m)];
      case ToOrder(orderId, m) =>
        BroadcastToOrder(orderId, m, open);
      case ToDrivers(m) =>
        BroadcastToDrivers(m, open);
      case Silent =>
        assert outbox[|old(outbox)|..] == [];
    }

    /** The HTTP request handler: the response `Admin` gives, and its
        broadcast sent to every open driver. */
    method HandleRequest(req: Request, body: string, parsed: Result<Value>, open: set<Conn>)
      returns (response: HttpResponse)
      requires Valid()
      modifies this
      ensures Valid()
      ensures drivers == old(drivers) && customers == old(customers)
      ensures orders == old(orders) && handlers == old(handlers)
      ensures response == Admin(req, body, parsed).response
      ensures |outbox| >= |old(outbox)| && outbox[..|old(outbox)|] == old(outbox)
      ensures var sent := outbox[|old(outbox)|..];
              match Admin(req, body, parsed).broadcast
              case Some(m) => DeliversOnce(sent, drivers.Values * open, m)
              case None => sent == []
    {
      var outcome := Admin(req, body, parsed);
      if outcome.broadcast.Some? {
        BroadcastToDrivers(outcome.broadcast.value, open);
      } else {
        assert outbox[|old(outbox)|..] == [];
      }
      response := outcome.response;
    }
  }

  lemma SecondDriverRemains()
    ensures map["D1" := 1 as Conn, "D2" := 2 as Conn] - {"D1"} == map["D2" := 2 as Conn]
  {
    assert "D1" != "D2" by {
      assert "D1"[1] != "D2"[1];
    }
  }

  /** Drivers D1 and D2 on sockets 1 and 2, and customer C on socket 3. */
  method ConnectTwoDriversAndCustomer() returns (hub: Hub)
    ensures fresh(hub) && hub.Valid()
    ensures hub.drivers == map["D1" := 1, "D2" := 2] && hub.drivers.Values == {1, 2}
    ensures hub.outbox == []
    ensures hub.handlers[1] == Handshake(Some("driver"), Some("D1"), None)
    ensures 3 in hub.handlers
  {
    hub := new Hub();
    hub.Connect(1, Handshake(Some("driver"), Some("D1"), None));
    hub.Connect(2, Handshake(Some("driver"), Some("D2"), None));
    hub.Connect(3, Handshake(Some("customer"), Some("C"), None));
    assert "D1" != "D2" by {
      assert "D1"[1] != "D2"[1];
    }
    assert hub.drivers["D1"] == 1 && hub.drivers["D2"] == 2;
  }

  /** Socket `c` sends `{ type: 'order_created', orderId }`. */
  method AnnounceOrder(hub: Hub, c: Conn, orderId: string, open: set<Conn>) returns (sent: seq<Send>)
    requires hub.Valid() && c in hub.handlers
    modifies hub
    ensures hub.Valid()
    ensures hub.drivers == old(hub.drivers) && hub.handlers == old(hub.handlers)
    ensures hub.outbox == old(hub.outbox) + sent
    ensures DeliversOnce(sent, hub.drivers.Values * open, Tagged("new_order", OrderCreated(orderId)))
    ensures |sent| == |hub.drivers.Values * open|
    ensures Field(Tagged("new_order", OrderCreated(orderId)), "orderId") == Str(orderId)
  {
    var m := OrderCreated(orderId);
    assert Prop(m, "type") == Ok(Str("order_created"));
    assert Dispatch(Ok(m), 0) == ToDrivers(Tagged("new_order", m));
    TaggedFields("new_order", m);
    var before := |hub.outbox|;
    hub.Receive(c, Ok(m), 0, open);
    sent := hub.outbox[before..];
    DeliveryCount(sent, hub.drivers.Values * open, Tagged("new_order", m));
  }

  function OrderCreated(orderId: string): Value {
    Obj(map["type" := Str("order_created"), "orderId" := Str(orderId)])
  }

  /** Two drivers are connected and a customer announces two orders, with the
      first driver closing in between: each announcement reaches every driver
      still registered, once, and the customer gets nothing. */
  method TwoDriversScenario() returns (first: seq<Send>, second: seq<Send>)
    ensures DeliversOnce(first, {1, 2}, Tagged("new_order", OrderCreated("7")))
    ensures DeliversOnce(second, {2}, Tagged("new_order", OrderCreated("8")))
    ensures forall i :: 0 <= i < |second| ==> Field(second[i].msg, "orderId") == Str("8")
  {
    var hub := ConnectTwoDriversAndCustomer();
    assert hub.drivers.Values * {1, 2, 3} == {1, 2};
    first := AnnounceOrder(hub, 3, "7", {1, 2, 3});
    CloseFirstDriver(hub);
    second := AnnounceOrder(hub, 3, "8", {2, 3});
  }

  /** Driver D1's socket closes: D2 is the only driver left. */
  method CloseFirstDriver(hub: Hub)
    requires hub.Valid() && hub.drivers == map["D1" := 1, "D2" := 2]
    requires 1 in hub.handlers && hub.handlers[1] == Handshake(Some("driver"), Some("D1"), None) && 3 in hub.handlers
    modifies hub
    ensures hub.Valid() && hub.drivers.Values * {2, 3} == {2} && 3 in hub.handlers
  {
    hub.Close(1);
    SecondDriverRemains();
    assert hub.drivers == map["D2" := 2];
    assert "D2" in hub.drivers && hub.drivers["D2"] == 2;
  }

  /** A driver reconnects under the same id before its first socket's close
      event arrives: the close deletes the id, so the newer, still open
      socket no longer receives new orders. */
  method StaleCloseScenario() returns (sent: seq<Send>, stillOpen: bool)
    ensures stillOpen && sent == []
  {
    var hub := new Hub();
    hub.Connect(1, Handshake(Some("driver"), Some("D"), None));
    hub.Connect(2, Handshake(Some("driver"), Some("D"), None));
    hub.Close(1);
    stillOpen := 2 in hub.handlers;
    assert hub.drivers == map[];
    sent := AnnounceOrder(hub, 2, "9", {2});
  }
}
