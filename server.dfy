/**
 * The server's state: the users, orders, chats and price_configs tables, the
 * AUTOINCREMENT counters behind their ids, and the socket events it emits,
 * kept in order in an outbox. Each handler that writes a table is a method.
 * Each query is a function of the `Tables` module, applied to these fields.
 */
module Server {
  import opened Types
  import opened Strings
  import opened ServerSchema
  import opened Tables

  datatype Payload = OrderPayload(order: Option<Order>) | ChatPayload(chat: ChatMessage)

  /** One `io.emit(channel, payload)`. */
  datatype Event = Event(channel: string, payload: Payload)

  const OrderNewChannel: string := "order:new"
  const OrderUpdatedChannel: string := "order:updated"

  /** The channel a chat message for an order is emitted on: `chat:<orderId>`. */
  function ChatChannel(orderId: nat): string
  {
    "chat:" + NatToString(orderId)
  }

  /** Chat channels of different orders never coincide, and none is an order channel. */
  lemma ChatChannelsDistinct(a: nat, b: nat)
    ensures ChatChannel(a) == ChatChannel(b) <==> a == b
    ensures ChatChannel(a) != OrderNewChannel && ChatChannel(a) != OrderUpdatedChannel
  {
    if ChatChannel(a) == ChatChannel(b) {
      assert ChatChannel(a)[5..] == NatToString(a);
      assert ChatChannel(b)[5..] == NatToString(b);
      NatToStringInjective(a, b);
    }
    assert ChatChannel(a)[0] == 'c';
  }

  datatype RegisterError = InvalidInput(issue: RegisterIssue) | UsernameTaken

  /**
   * Why an order insert fails: the UNIQUE order number, checked as the row is
   * inserted, or then the merchant id's foreign key.
   */
  datatype CreateError = DuplicateOrderNumber | UnknownMerchant

  /** The row `INSERT INTO users (username, password, role, name, phone)` adds, with the column defaults. */
  function NewUserRow(id: nat, input: RegisterInput, passwordHash: string): UserRow
  {
    UserRow(User(id, input.username, input.role, input.name, input.phone, 0.0, "active",
                 None, None, None, None, None),
            passwordHash)
  }

  /**
   * The row `INSERT INTO orders (...)` adds: the request's columns, status
   * "pending" by default, the creation time, and no rider, customer, timestamps
   * of later steps or deadline.
   */
  function NewOrderRow(id: nat, req: CreateOrderRequest, now: int): Order
  {
    Order(id, req.orderNumber, req.merchantId, None, None,
          req.customerName, req.customerPhone, req.destinationAddress,
          req.destinationLat, req.destinationLng, req.weight, req.distance, req.price,
          Pending, req.orderType, req.scheduledTime, req.remarks,
          now, None, None, None, None, None, None)
  }

  // ---------------------------------------------------------------------------
  // Table invariants: AUTOINCREMENT ids grow with the rows and stay below the
  // counter; the UNIQUE columns hold no duplicates.
  // ---------------------------------------------------------------------------

  ghost predicate UsersWellFormed(users: seq<UserRow>, next: nat)
  {
    && (forall i, j :: 0 <= i < j < |users| ==> users[i].user.id < users[j].user.id)
    && (forall i :: 0 <= i < |users| ==> users[i].user.id < next)
    && (forall i, j :: 0 <= i < j < |users| ==> users[i].user.username != users[j].user.username)
  }

  ghost predicate OrdersWellFormed(orders: seq<Order>, next: nat)
  {
    && (forall i, j :: 0 <= i < j < |orders| ==> orders[i].id < orders[j].id)
    && (forall i :: 0 <= i < |orders| ==> orders[i].id < next)
    && (forall i, j :: 0 <= i < j < |orders| ==> orders[i].orderNumber != orders[j].orderNumber)
  }

  ghost predicate ChatsWellFormed(chats: seq<ChatMessage>, next: nat)
  {
    && (forall i, j :: 0 <= i < j < |chats| ==> chats[i].id < chats[j].id)
    && (forall i :: 0 <= i < |chats| ==> chats[i].id < next)
  }

  // ---------------------------------------------------------------------------
  // Foreign keys. The database is opened with better-sqlite3, whose bundled
  // SQLite enforces them: a statement that would store a reference to a
  // missing row fails and writes nothing. NULL references nothing and passes.
  // ---------------------------------------------------------------------------

  /** A value a `REFERENCES users(id)` column accepts: NULL, or the id of a stored user. */
  predicate RefersToUser(users: seq<UserRow>, id: Option<nat>)
  {
    id.None? || FindUser(users, id.value).Some?
  }

  /**
   * The foreign keys of the schema hold: each order's merchant and rider,
   * and each price configuration's merchant, is NULL or a user; each chat
   * belongs to a stored order.
   */
  ghost predicate ReferencesHold(users: seq<UserRow>, orders: seq<Order>, chats: seq<ChatMessage>,
                                 priceConfigs: seq<PriceConfigRow>)
  {
    && (forall i :: 0 <= i < |orders| ==>
          RefersToUser(users, orders[i].merchantId) && RefersToUser(users, orders[i].riderId))
    && (forall i :: 0 <= i < |chats| ==> FindOrder(orders, chats[i].orderId).Some?)
    && (forall i :: 0 <= i < |priceConfigs| ==> RefersToUser(users, priceConfigs[i].merchantId))
  }

  /** Users are only ever added, so every reference stays valid as the users table grows. */
  lemma {:induction false} ReferencesSurviveNewUser(users: seq<UserRow>, row: UserRow, orders: seq<Order>,
                                                    chats: seq<ChatMessage>, priceConfigs: seq<PriceConfigRow>)
    requires ReferencesHold(users, orders, chats, priceConfigs)
    ensures ReferencesHold(users + [row], orders, chats, priceConfigs)
  {
    forall id: Option<nat> | RefersToUser(users, id)
      ensures RefersToUser(users + [row], id)
    {
      if id.Some? {
        FindUserAfterInsert(users, [row], id.value);
      }
    }
  }

  /** Inserting an order whose merchant and rider pass their foreign keys keeps every reference valid. */
  lemma {:induction false} ReferencesSurviveNewOrder(users: seq<UserRow>, orders: seq<Order>, row: Order,
                                                     chats: seq<ChatMessage>, priceConfigs: seq<PriceConfigRow>)
    requires ReferencesHold(users, orders, chats, priceConfigs)
    requires RefersToUser(users, row.merchantId) && RefersToUser(users, row.riderId)
    ensures ReferencesHold(users, orders + [row], chats, priceConfigs)
  {
    forall i | 0 <= i < |chats|
      ensures FindOrder(orders + [row], chats[i].orderId).Some?
    {
      FindOrderKept(orders, orders + [row], chats[i].orderId);
    }
  }

  /** An accept whose rider passes the foreign key keeps every reference valid. */
  lemma {:induction false} ReferencesSurviveAccept(users: seq<UserRow>, orders: seq<Order>, chats: seq<ChatMessage>,
                                                   priceConfigs: seq<PriceConfigRow>, id: nat, riderId: Option<nat>, now: int)
    requires ReferencesHold(users, orders, chats, priceConfigs)
    requires RefersToUser(users, riderId)
    ensures ReferencesHold(users, AcceptRows(orders, id, riderId, now), chats, priceConfigs)
  {
    var after := AcceptRows(orders, id, riderId, now);
    AcceptKeepsKeys(orders, id, riderId, now);
    forall i | 0 <= i < |chats|
      ensures FindOrder(after, chats[i].orderId).Some?
    {
      FindOrderKept(orders, after, chats[i].orderId);
    }
  }

  /** Appending a row under the next id with a fresh order number keeps the orders table well formed. */
  lemma OrdersWellFormedAppend(orders: seq<Order>, next: nat, row: Order)
    requires OrdersWellFormed(orders, next)
    requires row.id == next && !HasOrderNumber(orders, row.orderNumber)
    ensures OrdersWellFormed(orders + [row], next + 1)
  {
    var after := orders + [row];
    forall i, j | 0 <= i < j < |after|
      ensures after[i].id < after[j].id && after[i].orderNumber != after[j].orderNumber
    {
      if j == |orders| {
        assert after[i] == orders[i];
      }
    }
  }

  /** An accept keeps the orders table well formed: it changes no id and no order number. */
  lemma AcceptKeepsOrdersWellFormed(orders: seq<Order>, next: nat, id: nat, riderId: Option<nat>, now: int)
    requires OrdersWellFormed(orders, next)
    ensures OrdersWellFormed(AcceptRows(orders, id, riderId, now), next)
  {
    AcceptKeepsKeys(orders, id, riderId, now);
  }

  /** What the accept handler emits: the order's row read again after the update, missing for an unknown id. */
  function AcceptBroadcast(orders: seq<Order>, req: AcceptRequest, now: int): Option<Order>
  {
    FindOrder(AcceptRows(orders, req.orderId, req.riderId, now), req.orderId)
  }

  /** The accept broadcast is missing exactly when the id names no stored order. */
  lemma AcceptBroadcastMissingIffUnknown(orders: seq<Order>, req: AcceptRequest, now: int)
    ensures AcceptBroadcast(orders, req, now).None? <==> FindOrder(orders, req.orderId).None?
  {
    var after := AcceptRows(orders, req.orderId, req.riderId, now);
    if FindOrder(orders, req.orderId).None? {
      AcceptUnknownIdChangesNothing(orders, req.orderId, req.riderId, now);
    } else {
      AcceptKeepsKeys(orders, req.orderId, req.riderId, now);
      FindOrderKept(orders, after, req.orderId);
    }
  }

  class Store {
    var users: seq<UserRow>
    var orders: seq<Order>
    var chats: seq<ChatMessage>
    var priceConfigs: seq<PriceConfigRow>
    /** The next id each AUTOINCREMENT table hands out. */
    var nextUserId: nat
    var nextOrderId: nat
    var nextChatId: nat
    var nextPriceConfigId: nat
    /** Every event emitted so far, oldest first. */
    var outbox: seq<Event>

    ghost predicate Valid()
      reads this
    {
      && UsersWellFormed(users, nextUserId)
      && OrdersWellFormed(orders, nextOrderId)
      && ChatsWellFormed(chats, nextChatId)
      && |priceConfigs| <= 1
      && (forall i :: 0 <= i < |priceConfigs| ==> priceConfigs[i].id < nextPriceConfigId)
      && ReferencesHold(users, orders, chats, priceConfigs)
    }

    /** Freshly created tables: empty, with every id sequence starting at 1. */
    constructor ()
      ensures Valid()
      ensures users == [] && orders == [] && chats == [] && priceConfigs == [] && outbox == []
      ensures nextUserId == 1 && nextOrderId == 1 && nextChatId == 1 && nextPriceConfigId == 1
    {
      users, orders, chats, priceConfigs := [], [], [], [];
      nextUserId, nextOrderId, nextChatId, nextPriceConfigId := 1, 1, 1, 1;
      outbox := [];
    }

    /**
     * POST /api/auth/register. `passwordHash` is what `bcrypt.hashSync` made of
     * the password. An invalid body is refused with the schema's first issue;
     * a username already taken is refused by the UNIQUE constraint; otherwise
     * one user row is appended with the next id, which is returned.
     */
    method Register(body: RegisterBody, passwordHash: string) returns (r: Result<nat, RegisterError>)
      requires Valid()
      modifies this`users, this`nextUserId
      ensures Valid()
      ensures ValidateRegister(body).Err? ==>
        r == Err(InvalidInput(ValidateRegister(body).error)) && users == old(users) && nextUserId == old(nextUserId)
      ensures ValidateRegister(body).Ok? && FindUserByName(old(users), body.username).Some? ==>
        r == Err(UsernameTaken) && users == old(users) && nextUserId == old(nextUserId)
      ensures ValidateRegister(body).Ok? && FindUserByName(old(users), body.username).None? ==>
        && r == Ok(old(nextUserId))
        && users == old(users) + [NewUserRow(old(nextUserId), ValidateRegister(body).value, passwordHash)]
        && nextUserId == old(nextUserId) + 1
      ensures r.Ok? ==> forall i :: 0 <= i < |old(users)| ==> old(users)[i].user.id < r.value
    {
      var v := ValidateRegister(body);
      if v.Err? {
        return Err(InvalidInput(v.error));
      }
      if FindUserByName(users, body.username).Some? {
        return Err(UsernameTaken);
      }
      var row := NewUserRow(nextUserId, v.value, passwordHash);
      ReferencesSurviveNewUser(users, row, orders, chats, priceConfigs);
      users := users + [row];
      r := Ok(nextUserId);
      nextUserId := nextUserId + 1;
    }

    /**
     * POST /api/orders/create. A request whose order number is already in the
     * table fails on the UNIQUE constraint, and one whose merchant id is not a
     * user fails on the foreign key; either way the handler throws, nothing is
     * stored or emitted, and the client gets an error status. Otherwise one
     * pending row is appended with an id above every existing one; the new row
     * is emitted on "order:new" and returned.
     */
    method CreateOrder(req: CreateOrderRequest, now: int) returns (r: Result<Order, CreateError>)
      requires Valid()
      modifies this`orders, this`nextOrderId, this`outbox
      ensures Valid()
      ensures HasOrderNumber(old(orders), req.orderNumber) ==>
        && r == Err(DuplicateOrderNumber)
        && orders == old(orders) && nextOrderId == old(nextOrderId) && outbox == old(outbox)
      ensures !HasOrderNumber(old(orders), req.orderNumber) && !RefersToUser(users, req.merchantId) ==>
        && r == Err(UnknownMerchant)
        && orders == old(orders) && nextOrderId == old(nextOrderId) && outbox == old(outbox)
      ensures !HasOrderNumber(old(orders), req.orderNumber) && RefersToUser(users, req.merchantId) ==>
        && r == Ok(NewOrderRow(old(nextOrderId), req, now))
        && orders == old(orders) + [r.value]
        && nextOrderId == old(nextOrderId) + 1
        && outbox == old(outbox) + [Event(OrderNewChannel, OrderPayload(Some(r.value)))]
      ensures r.Ok? ==>
        && r.value.status == Pending && r.value.riderId.None? && r.value.transferDeadline.None?
        && forall i :: 0 <= i < |old(orders)| ==> old(orders)[i].id < r.value.id
    {
      if HasOrderNumber(orders, req.orderNumber) {
        return Err(DuplicateOrderNumber);
      }
      if !RefersToUser(users, req.merchantId) {
        return Err(UnknownMerchant);
      }
      var row := NewOrderRow(nextOrderId, req, now);
      ReferencesSurviveNewOrder(users, orders, row, chats, priceConfigs);
      OrdersWellFormedAppend(orders, nextOrderId, row);
      orders := orders + [row];
      nextOrderId := nextOrderId + 1;
      outbox := outbox + [Event(OrderNewChannel, OrderPayload(Some(row)))];
      r := Ok(row);
    }

    /**
     * The `order:accept` handler. The row with that id is updated whatever its
     * status; then the row is read again and emitted on "order:updated". For
     * an unknown id no row is updated, and the emitted payload is the missing
     * row. When the row exists but the rider id is not a user, the update
     * fails on the foreign key and the handler throws: nothing changes and
     * nothing is emitted.
     */
    method Accept(req: AcceptRequest, now: int)
      requires Valid()
      modifies this`orders, this`outbox
      ensures Valid()
      ensures FindOrder(old(orders), req.orderId).Some? && !RefersToUser(users, req.riderId) ==>
        orders == old(orders) && outbox == old(outbox)
      ensures FindOrder(old(orders), req.orderId).None? || RefersToUser(users, req.riderId) ==>
        && orders == AcceptRows(old(orders), req.orderId, req.riderId, now)
        && outbox == old(outbox) + [Event(OrderUpdatedChannel, OrderPayload(AcceptBroadcast(old(orders), req, now)))]
    {
      if FindOrder(orders, req.orderId).Some? && !RefersToUser(users, req.riderId) {
        return;
      }
      AcceptKeepsOrdersWellFormed(orders, nextOrderId, req.orderId, req.riderId, now);
      if RefersToUser(users, req.riderId) {
        ReferencesSurviveAccept(users, orders, chats, priceConfigs, req.orderId, req.riderId, now);
      } else {
        AcceptUnknownIdChangesNothing(orders, req.orderId, req.riderId, now);
      }
      var payload := AcceptBroadcast(orders, req, now);
      orders := AcceptRows(orders, req.orderId, req.riderId, now);
      outbox := outbox + [Event(OrderUpdatedChannel, OrderPayload(payload))];
    }

    /**
     * The `chat:send` handler: one chat row is appended with the next id and
     * emitted on `chat:<orderId>`. The order id must name a stored order: for
     * any other id the insert fails on the foreign key, the handler throws,
     * and nothing is stored or emitted. The sender id has no foreign key.
     */
    method ChatSend(req: ChatSendRequest, now: int) returns (stored: Option<ChatMessage>)
      requires Valid()
      modifies this`chats, this`nextChatId, this`outbox
      ensures Valid()
      ensures stored.None? <==> FindOrder(orders, req.orderId).None?
      ensures stored.None? ==> chats == old(chats) && nextChatId == old(nextChatId) && outbox == old(outbox)
      ensures stored.Some? ==>
        && stored.value == ChatMessage(old(nextChatId), req.orderId, req.senderId, req.message, req.kind, req.url, now)
        && chats == old(chats) + [stored.value] && nextChatId == old(nextChatId) + 1
        && (forall i :: 0 <= i < |old(chats)| ==> old(chats)[i].id < stored.value.id)
        && outbox == old(outbox) + [Event(ChatChannel(req.orderId), ChatPayload(stored.value))]
    {
      if FindOrder(orders, req.orderId).None? {
        return None;
      }
      var chat := ChatMessage(nextChatId, req.orderId, req.senderId, req.message, req.kind, req.url, now);
      chats := chats + [chat];
      nextChatId := nextChatId + 1;
      outbox := outbox + [Event(ChatChannel(req.orderId), ChatPayload(chat))];
      stored := Some(chat);
    }

    /**
     * POST /api/config/price: every row is deleted and the posted values are
     * inserted as the only row. A later read returns exactly those values.
     */
    method SavePriceConfig(fares: Fares)
      requires Valid()
      modifies this`priceConfigs, this`nextPriceConfigId
      ensures Valid()
      ensures priceConfigs == [PriceConfigRow(old(nextPriceConfigId), None, fares)]
      ensures nextPriceConfigId == old(nextPriceConfigId) + 1
      ensures ReplyFares(ReadPriceConfig(priceConfigs)) == fares
    {
      priceConfigs := [PriceConfigRow(nextPriceConfigId, None, fares)];
      nextPriceConfigId := nextPriceConfigId + 1;
    }
  }

  /** Fresh tables in which one merchant has signed up, under id 1. */
  method StoreWithMerchant(merchant: RegisterBody, merchantHash: string) returns (store: Store)
    requires ValidateRegister(merchant).Ok?
    ensures fresh(store) && store.Valid()
    ensures store.users == [NewUserRow(1, ValidateRegister(merchant).value, merchantHash)]
    ensures store.orders == [] && store.outbox == [] && store.nextOrderId == 1
  {
    store := new Store();
    var merchantId := SignUp(store, merchant, merchantHash);
  }

  /**
   * A fresh store in which a merchant signs up and then publishes one order:
   * the merchant gets id 1, the order id 1, and the order's merchant is that
   * account.
   */
  method StoreWithOneOrder(merchant: RegisterBody, merchantHash: string, req: CreateOrderRequest, now: int)
    returns (store: Store, row: Order)
    requires ValidateRegister(merchant).Ok?
    ensures fresh(store) && store.Valid()
    ensures store.users == [NewUserRow(1, ValidateRegister(merchant).value, merchantHash)]
    ensures store.orders == [row] && row == NewOrderRow(1, req.(merchantId := Some(1)), now)
    ensures store.outbox == [Event(OrderNewChannel, OrderPayload(Some(row)))]
  {
    store := StoreWithMerchant(merchant, merchantHash);
    var request := req.(merchantId := Some(1));
    assert RefersToUser(store.users, request.merchantId) by {
      assert store.users[0].user.id == 1;
    }
    assert !HasOrderNumber(store.orders, request.orderNumber);
    var created := store.CreateOrder(request, now);
    row := created.value;
  }

  /** A sign-up that passes the schema with a free username: the new user's id is found from then on, and so is every user found before. */
  method SignUp(store: Store, body: RegisterBody, hash: string) returns (id: nat)
    requires store.Valid() && ValidateRegister(body).Ok?
    requires forall i :: 0 <= i < |store.users| ==> store.users[i].user.username != body.username
    modifies store`users, store`nextUserId
    ensures store.Valid()
    ensures store.users == old(store.users) + [NewUserRow(id, ValidateRegister(body).value, hash)]
    ensures id == old(store.nextUserId) && RefersToUser(store.users, Some(id))
    ensures forall i :: 0 <= i < |old(store.users)| ==> old(store.users)[i].user.id < id
    ensures forall u :: RefersToUser(old(store.users), u) ==> RefersToUser(store.users, u)
  {
    var before := store.users;
    assert FindUserByName(before, body.username).None?;
    var r := store.Register(body, hash);
    id := r.value;
    assert store.users[|before|].user.id == id;
    forall u | RefersToUser(before, u)
      ensures RefersToUser(store.users, u)
    {
      if u.Some? {
        FindUserAfterInsert(before, [store.users[|before|]], u.value);
      }
    }
  }

  /** Two riders with fresh, different usernames sign up one after the other. */
  method SignUpTwo(store: Store, rider1: RegisterBody, rider2: RegisterBody, hash: string) returns (first: nat, second: nat)
    requires store.Valid() && ValidateRegister(rider1).Ok? && ValidateRegister(rider2).Ok?
    requires rider1.username != rider2.username
    requires forall i :: 0 <= i < |store.users| ==>
      store.users[i].user.username != rider1.username && store.users[i].user.username != rider2.username
    modifies store`users, store`nextUserId
    ensures store.Valid()
    ensures RefersToUser(store.users, Some(first)) && RefersToUser(store.users, Some(second))
    ensures first < second
  {
    first := SignUp(store, rider1, hash);
    assert store.users[|store.users| - 1].user.id == first;
    second := SignUp(store, rider2, hash);
  }

  /** A merchant and two riders sign up, and the merchant publishes one order. */
  method StoreWithTwoRiders(merchant: RegisterBody, rider1: RegisterBody, rider2: RegisterBody, hash: string,
                            req: CreateOrderRequest, now: int)
    returns (store: Store, row: Order, first: nat, second: nat)
    requires ValidateRegister(merchant).Ok? && ValidateRegister(rider1).Ok? && ValidateRegister(rider2).Ok?
    requires merchant.username != rider1.username && merchant.username != rider2.username
    requires rider1.username != rider2.username
    ensures fresh(store) && store.Valid()
    ensures store.orders == [row] && row.riderId.None? && |store.outbox| == 1
    ensures RefersToUser(store.users, Some(first)) && RefersToUser(store.users, Some(second))
    ensures first < second
  {
    store, row := StoreWithOneOrder(merchant, hash, req, now);
    first, second := SignUpTwo(store, rider1, rider2, hash);
  }

  /** A registered rider accepts the only stored order; the broadcast reports that rider. */
  method AcceptOnlyOrder(store: Store, row: Order, rider: nat, now: int) returns (reported: Option<nat>)
    requires store.Valid() && store.orders == [row] && RefersToUser(store.users, Some(rider))
    modifies store`orders, store`outbox
    ensures store.Valid()
    ensures store.orders == [AcceptedRow(row, Some(rider), now)]
    ensures reported == Some(rider)
  {
    assert FindOrder(store.orders, row.id) == Some(row);
    store.Accept(AcceptRequest(row.id, Some(rider)), now);
    var accepted := AcceptedRow(row, Some(rider), now);
    assert store.orders == [accepted];
    assert FindOrder([accepted], row.id) == Some(accepted);
    reported := store.outbox[|store.outbox| - 1].payload.order.value.riderId;
  }

  /**
   * Two riders accept the same order one after the other. Both calls update
   * the row; the order ends with the second rider. Each broadcast reports the
   * rider of the accept that emitted it.
   */
  method AcceptTwiceScenario(merchant: RegisterBody, rider1: RegisterBody, rider2: RegisterBody, hash: string,
                             req: CreateOrderRequest, t0: int, t1: int, t2: int)
    returns (first: nat, second: nat, finalRider: Option<nat>, firstReported: Option<nat>, secondReported: Option<nat>)
    requires ValidateRegister(merchant).Ok? && ValidateRegister(rider1).Ok? && ValidateRegister(rider2).Ok?
    requires merchant.username != rider1.username && merchant.username != rider2.username
    requires rider1.username != rider2.username
    ensures first != second
    ensures finalRider == Some(second)
    ensures firstReported == Some(first) && secondReported == Some(second)
  {
    var store, row;
    store, row, first, second := StoreWithTwoRiders(merchant, rider1, rider2, hash, req, t0);
    firstReported := AcceptOnlyOrder(store, row, first, t1);
    var once := AcceptedRow(row, Some(first), t1);
    secondReported := AcceptOnlyOrder(store, once, second, t2);
    finalRider := store.orders[0].riderId;
  }
}
