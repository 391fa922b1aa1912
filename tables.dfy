/**
 * The SQL of server.ts as functions on the contents of its tables. A table is
 * a sequence of rows in insertion (rowid) order.
 */
module Tables {
  import opened Types
  import opened ServerSchema

  /** The transfer window an accept sets: three minutes, in milliseconds. */
  const TransferWindowMs: int := 3 * 60000

  // ---------------------------------------------------------------------------
  // Lookups
  // ---------------------------------------------------------------------------

  /** `SELECT * FROM users WHERE id = ?`: the first row with that id, if any. */
  function FindUser(users: seq<UserRow>, id: nat): (r: Option<UserRow>)
    ensures r.Some? ==> r.value in users && r.value.user.id == id
    ensures r.None? ==> forall i :: 0 <= i < |users| ==> users[i].user.id != id
    decreases |users|
  {
    if |users| == 0 then None
    else if users[0].user.id == id then Some(users[0])
    else FindUser(users[1..], id)
  }

  /** `SELECT * FROM users WHERE username = ?`: the first row with that username, if any. */
  function FindUserByName(users: seq<UserRow>, username: string): (r: Option<UserRow>)
    ensures r.Some? ==> r.value in users && r.value.user.username == username
    ensures r.None? ==> forall i :: 0 <= i < |users| ==> users[i].user.username != username
    decreases |users|
  {
    if |users| == 0 then None
    else if users[0].user.username == username then Some(users[0])
    else FindUserByName(users[1..], username)
  }

  /** `SELECT * FROM orders WHERE id = ?`: the first row with that id, if any. */
  function FindOrder(orders: seq<Order>, id: nat): (r: Option<Order>)
    ensures r.Some? ==> r.value in orders && r.value.id == id
    ensures r.None? ==> forall i :: 0 <= i < |orders| ==> orders[i].id != id
    decreases |orders|
  {
    if |orders| == 0 then None
    else if orders[0].id == id then Some(orders[0])
    else FindOrder(orders[1..], id)
  }

  /** In a table whose ids are unique, the lookup by id finds the row at that id's position. */
  lemma {:induction false} FindOrderAt(orders: seq<Order>, k: nat)
    requires k < |orders|
    requires forall i, j :: 0 <= i < j < |orders| ==> orders[i].id != orders[j].id
    ensures FindOrder(orders, orders[k].id) == Some(orders[k])
    decreases k
  {
    if k > 0 {
      FindOrderAt(orders[1..], k - 1);
    }
  }

  /** A user the lookup finds is still found once more rows are inserted. */
  lemma FindUserAfterInsert(users: seq<UserRow>, more: seq<UserRow>, id: nat)
    requires FindUser(users, id).Some?
    ensures FindUser(users + more, id).Some?
  {
    var k :| 0 <= k < |users| && users[k] == FindUser(users, id).value;
    assert (users + more)[k].user.id == id;
  }

  /**
   * An order the lookup finds is still found in a table that keeps every
   * row's id at its position, with possibly more rows after them.
   */
  lemma FindOrderKept(orders: seq<Order>, after: seq<Order>, id: nat)
    requires FindOrder(orders, id).Some?
    requires |orders| <= |after|
    requires forall i :: 0 <= i < |orders| ==> after[i].id == orders[i].id
    ensures FindOrder(after, id).Some?
  {
    var k :| 0 <= k < |orders| && orders[k] == FindOrder(orders, id).value;
    assert after[k].id == id;
  }

  predicate HasOrderNumber(orders: seq<Order>, orderNumber: string)
  {
    exists i :: 0 <= i < |orders| && orders[i].orderNumber == orderNumber
  }

  // ---------------------------------------------------------------------------
  // order:accept
  // ---------------------------------------------------------------------------

  /** The row after `SET rider_id = ?, status = 'accepted', accepted_at = now, transfer_deadline = now + 3 min`. */
  function AcceptedRow(o: Order, riderId: Option<nat>, now: int): Order
  {
    o.(riderId := riderId, status := Accepted, acceptedAt := Some(now),
       transferDeadline := Some(now + TransferWindowMs))
  }

  /**
   * The accept update, `UPDATE orders SET ... WHERE id = ?`. The only condition
   * is the id: the current status is not inspected.
   */
  function AcceptRows(orders: seq<Order>, id: nat, riderId: Option<nat>, now: int): (r: seq<Order>)
    ensures |r| == |orders|
    ensures forall i :: 0 <= i < |orders| && orders[i].id == id ==> r[i] == AcceptedRow(orders[i], riderId, now)
    ensures forall i :: 0 <= i < |orders| && orders[i].id != id ==> r[i] == orders[i]
    decreases |orders|
  {
    if |orders| == 0 then []
    else [if orders[0].id == id then AcceptedRow(orders[0], riderId, now) else orders[0]]
         + AcceptRows(orders[1..], id, riderId, now)
  }

  /**
   * After an accept, the row with that id is accepted by the given rider,
   * whatever its status was before: an order already accepted, picked up,
   * delivered or cancelled is overwritten just the same.
   */
  lemma AcceptIgnoresStatus(orders: seq<Order>, k: nat, riderId: Option<nat>, now: int)
    requires k < |orders|
    requires forall i, j :: 0 <= i < j < |orders| ==> orders[i].id != orders[j].id
    ensures var o := FindOrder(AcceptRows(orders, orders[k].id, riderId, now), orders[k].id);
      && o.Some?
      && o.value.status == Accepted && o.value.riderId == riderId
      && o.value.acceptedAt == Some(now) && o.value.transferDeadline == Some(now + TransferWindowMs)
      && o.value == AcceptedRow(orders[k], riderId, now)
  {
    var after := AcceptRows(orders, orders[k].id, riderId, now);
    forall i, j | 0 <= i < j < |after| ensures after[i].id != after[j].id {
      assert after[i].id == orders[i].id && after[j].id == orders[j].id;
    }
    FindOrderAt(after, k);
  }

  /** An accept for an id no row has changes nothing. */
  lemma AcceptUnknownIdChangesNothing(orders: seq<Order>, id: nat, riderId: Option<nat>, now: int)
    requires FindOrder(orders, id).None?
    ensures AcceptRows(orders, id, riderId, now) == orders
  {
  }

  /**
   * Two accepts of the same order in sequence: the second one's rider and
   * times are what the table holds, exactly as if the first had never
   * happened. Nothing makes the first caller the only winner.
   */
  lemma {:induction false} SecondAcceptOverwritesFirst(orders: seq<Order>, id: nat,
                                                       first: Option<nat>, t1: int,
                                                       second: Option<nat>, t2: int)
    ensures AcceptRows(AcceptRows(orders, id, first, t1), id, second, t2) == AcceptRows(orders, id, second, t2)
    decreases |orders|
  {
    if |orders| > 0 {
      SecondAcceptOverwritesFirst(orders[1..], id, first, t1, second, t2);
      var once := AcceptRows(orders, id, first, t1);
      assert once[1..] == AcceptRows(orders[1..], id, first, t1);
    }
  }

  /** An accept keeps every row's id and order number, so the table's keys are unchanged. */
  lemma AcceptKeepsKeys(orders: seq<Order>, id: nat, riderId: Option<nat>, now: int)
    ensures var r := AcceptRows(orders, id, riderId, now);
      forall i :: 0 <= i < |r| ==> r[i].id == orders[i].id && r[i].orderNumber == orders[i].orderNumber
  {
  }

  // ---------------------------------------------------------------------------
  // The task hall: GET /api/orders/hall
  // ---------------------------------------------------------------------------

  /** The order as the join returns it: its own columns plus the merchant's name and address. */
  function WithMerchant(o: Order, merchant: User): Order
  {
    o.(merchantName := merchant.merchantName, merchantAddress := merchant.merchantAddress)
  }

  /** The WHERE clause and the inner join: a pool status and a merchant present in users. */
  predicate HallQualifies(o: Order, users: seq<UserRow>)
  {
    InDispatchPool(o.status) && o.merchantId.Some? && FindUser(users, o.merchantId.value).Some?
  }

  /** The row the join produces for a qualifying order. */
  function Joined(o: Order, users: seq<UserRow>): Order
    requires HallQualifies(o, users)
  {
    WithMerchant(o, FindUser(users, o.merchantId.value).value.user)
  }

  /** `x` is the joined row of some qualifying order of the table. */
  ghost predicate JoinedFrom(x: Order, orders: seq<Order>, users: seq<UserRow>)
  {
    exists i :: 0 <= i < |orders| && HallQualifies(orders[i], users) && x == Joined(orders[i], users)
  }

  lemma JoinedFromTail(x: Order, orders: seq<Order>, users: seq<UserRow>)
    requires |orders| > 0 && JoinedFrom(x, orders[1..], users)
    ensures JoinedFrom(x, orders, users)
  {
    var j :| 0 <= j < |orders[1..]| && HallQualifies(orders[1..][j], users) && x == Joined(orders[1..][j], users);
    assert orders[1..][j] == orders[j + 1];
  }

  /** The qualifying orders joined with their merchant, in table order. */
  function HallRows(orders: seq<Order>, users: seq<UserRow>): (r: seq<Order>)
    ensures |r| <= |orders|
    ensures forall i :: 0 <= i < |orders| && HallQualifies(orders[i], users) ==> Joined(orders[i], users) in r
    ensures forall x :: x in r ==> JoinedFrom(x, orders, users)
    decreases |orders|
  {
    if |orders| == 0 then []
    else
      var rest := HallRows(orders[1..], users);
      assert forall x :: x in rest ==> JoinedFrom(x, orders, users) by {
        forall x | x in rest ensures JoinedFrom(x, orders, users) {
          JoinedFromTail(x, orders, users);
        }
      }
      if HallQualifies(orders[0], users) then [Joined(orders[0], users)] + rest else rest
  }

  /** `ORDER BY created_at DESC`: never an older order before a newer one. */
  predicate NewestFirst(s: seq<Order>)
  {
    forall i, j :: 0 <= i < j < |s| ==> s[i].createdAt >= s[j].createdAt
  }

  function InsertNewestFirst(o: Order, s: seq<Order>): (r: seq<Order>)
    requires NewestFirst(s)
    ensures NewestFirst(r)
    ensures |r| == |s| + 1 && (r[0] == o || (|s| > 0 && r[0] == s[0]))
    ensures multiset(r) == multiset(s) + multiset{o}
    decreases |s|
  {
    if |s| == 0 then [o]
    else if o.createdAt >= s[0].createdAt then [o] + s
    else
      var rest := InsertNewestFirst(o, s[1..]);
      assert s == [s[0]] + s[1..];
      assert rest[0].createdAt <= s[0].createdAt;
      [s[0]] + rest
  }

  /** The sort the query's ORDER BY performs; rows with equal times may come in any order. */
  function SortNewestFirst(s: seq<Order>): (r: seq<Order>)
    ensures NewestFirst(r)
    ensures multiset(r) == multiset(s)
    decreases |s|
  {
    if |s| == 0 then []
    else
      assert s == [s[0]] + s[1..];
      InsertNewestFirst(s[0], SortNewestFirst(s[1..]))
  }

  /** The hall listing. */
  function Hall(orders: seq<Order>, users: seq<UserRow>): seq<Order>
  {
    SortNewestFirst(HallRows(orders, users))
  }

  /**
   * The hall lists newest first exactly the orders in "pending" or
   * "transferring" whose merchant is a user, each once per row, each with that
   * merchant's name and address.
   */
  lemma HallContents(orders: seq<Order>, users: seq<UserRow>)
    ensures NewestFirst(Hall(orders, users))
    ensures multiset(Hall(orders, users)) == multiset(HallRows(orders, users))
    ensures forall i :: 0 <= i < |orders| && HallQualifies(orders[i], users) ==>
              Joined(orders[i], users) in Hall(orders, users)
    ensures forall x :: x in Hall(orders, users) ==> JoinedFrom(x, orders, users)
    ensures forall x :: x in Hall(orders, users) ==>
              (InDispatchPool(x.status) && x.merchantId.Some? && FindUser(users, x.merchantId.value).Some?)
  {
    var rows := HallRows(orders, users);
    var hall := Hall(orders, users);
    forall x | x in hall
      ensures JoinedFrom(x, orders, users)
      ensures InDispatchPool(x.status) && x.merchantId.Some? && FindUser(users, x.merchantId.value).Some?
    {
      assert x in multiset(hall);
      assert x in rows;
      var i :| 0 <= i < |orders| && HallQualifies(orders[i], users) && x == Joined(orders[i], users);
    }
    forall i | 0 <= i < |orders| && HallQualifies(orders[i], users)
      ensures Joined(orders[i], users) in hall
    {
      assert Joined(orders[i], users) in multiset(rows);
    }
  }

  /** An order whose merchant is not in users is never listed, whatever its status. */
  lemma HallDropsOrphans(orders: seq<Order>, users: seq<UserRow>, x: Order)
    requires x in Hall(orders, users)
    ensures x.merchantId.Some? && FindUser(users, x.merchantId.value).Some?
    ensures x.status != Accepted && x.status != PickedUp && x.status != Delivered && x.status != Cancelled
  {
    HallContents(orders, users);
  }

  // ---------------------------------------------------------------------------
  // Price configuration: GET and POST /api/config/price
  // ---------------------------------------------------------------------------

  datatype Fares = Fares(basePrice: real, perKmPrice: real, perKgPrice: real)

  /** The reply when the table is empty: base 5, 2 per km, 1 per kg. */
  const DefaultFares := Fares(5.0, 2.0, 1.0)

  datatype PriceConfigRow = PriceConfigRow(id: nat, merchantId: Option<nat>, fares: Fares)

  /** What GET returns: the stored row, or the defaults (which carry no id). */
  datatype PriceConfigReply = StoredConfig(row: PriceConfigRow) | DefaultConfig(fares: Fares)

  /** `SELECT * FROM price_configs LIMIT 1`, or the defaults when the table is empty. */
  function ReadPriceConfig(rows: seq<PriceConfigRow>): (r: PriceConfigReply)
    ensures r.DefaultConfig? <==> rows == []
    ensures r.DefaultConfig? ==> r.fares == DefaultFares
    ensures r.StoredConfig? ==> r.row == rows[0]
  {
    if |rows| == 0 then DefaultConfig(DefaultFares) else StoredConfig(rows[0])
  }

  function ReplyFares(r: PriceConfigReply): Fares
  {
    match r
    case StoredConfig(row) => row.fares
    case DefaultConfig(f) => f
  }

  /** The price rule the fares stand for: base, plus a rate per km, plus a rate per kg. */
  function Price(f: Fares, distanceKm: real, weightKg: real): real
  {
    f.basePrice + f.perKmPrice * distanceKm + f.perKgPrice * weightKg
  }

  // ---------------------------------------------------------------------------
  // Login: POST /api/auth/login
  // ---------------------------------------------------------------------------

  /** 400 for a body the schema rejects, 401 for an unknown user or a wrong password. */
  datatype LoginError = LoginBadInput | LoginBadCredentials

  /**
   * The login reply. `passwordMatches(password, hash)` stands for
   * `bcrypt.compareSync`. On success the user's row is returned without its
   * password column.
   */
  function LoginReply(users: seq<UserRow>, body: LoginBody,
                      passwordMatches: (string, string) -> bool): (r: Result<User, LoginError>)
    ensures r == Err(LoginBadInput) <==> !LoginInputValid(body)
    ensures r.Ok? <==>
              (LoginInputValid(body) && FindUserByName(users, body.username).Some?
               && passwordMatches(body.password, FindUserByName(users, body.username).value.passwordHash))
    ensures r.Ok? ==> exists row :: (row in users && row.user == r.value
      && row.user.username == body.username && passwordMatches(body.password, row.passwordHash))
  {
    if !LoginInputValid(body) then Err(LoginBadInput)
    else match FindUserByName(users, body.username)
      case None => Err(LoginBadCredentials)
      case Some(row) =>
        if passwordMatches(body.password, row.passwordHash) then Ok(row.user)
        else Err(LoginBadCredentials)
  }
}
