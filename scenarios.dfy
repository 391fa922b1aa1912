/**
 * How the clients and the server fit together: what a published order looks
 * like on the riders' dashboards, what an accept broadcast does to them, how
 * the sign-up wizard's checks compare with the register schema, what a
 * sign-in rests on, and the round trip of a chat message.
 */
module Scenarios {
  import opened Types
  import opened Strings
  import opened Lists
  import opened ServerSchema
  import opened Tables
  import opened Server
  import RiderDashboard
  import OrderPublish
  import RiderRegistration
  import ChatWindow
  import Login
  import MerchantDashboard

  /**
   * An order published from the dialog is stored pending, at the default
   * fares applied to its distance and weight, for the signed-in merchant;
   * broadcast on "order:new", it becomes the first hall card and adds one to
   * the pending count.
   */
  lemma PublishedOrderTopsRiderHall(f: OrderPublish.PublishForm, merchant: Option<nat>, id: nat, now: int, s: seq<Order>)
    requires OrderPublish.Submit(f, merchant).Sent?
    ensures var row := NewOrderRow(id, OrderPublish.Submit(f, merchant).body, now);
            && row.status == Pending && row.riderId.None?
            && row.price == Price(DefaultFares, f.distance, f.weight)
            && row.merchantId == merchant
            && RiderDashboard.HallView([row] + s) == [row] + RiderDashboard.HallView(s)
            && RiderDashboard.PendingCount([row] + s) == RiderDashboard.PendingCount(s) + 1
  {
    var row := NewOrderRow(id, OrderPublish.Submit(f, merchant).body, now);
    RiderDashboard.NewOrderTopsHall(row, s);
    FilterCons(row, s, RiderDashboard.IsPending);
  }

  /**
   * The "order:updated" broadcast of an accept, applied to a dashboard
   * listing the order: the order leaves the hall, shows in the accepting
   * rider's deliveries, and leaves every other rider's deliveries.
   */
  lemma AcceptBroadcastOnDashboards(s: seq<Order>, o: Order, rider: nat, other: nat, now: int)
    requires exists i :: 0 <= i < |s| && s[i].id == o.id
    requires other != rider
    ensures var u := AcceptedRow(o, Some(rider), now);
            && (forall x :: x in RiderDashboard.HallView(RiderDashboard.ReplaceById(s, u)) ==> x.id != o.id)
            && u in RiderDashboard.MyDeliveries(RiderDashboard.ReplaceById(s, u), Some(rider))
            && (forall x :: x in RiderDashboard.MyDeliveries(RiderDashboard.ReplaceById(s, u), Some(other)) ==> x.id != o.id)
  {
    var u := AcceptedRow(o, Some(rider), now);
    RiderDashboard.UpdateOutOfPoolLeavesHall(s, u);
    RiderDashboard.UpdateToMeShowsInMyDeliveries(s, u, Some(rider));
    RiderDashboard.UpdateToOtherLeavesMyDeliveries(s, u, Some(other));
  }

  /**
   * One client's accept for an order id that names no order: the server
   * changes nothing but broadcasts the missing row, and a rider dashboard
   * listing any order throws on it, which takes the application down.
   */
  method UnknownAcceptCrashesDashboard(store: Store, d: RiderDashboard.Dashboard, req: AcceptRequest, now: int)
    requires store.Valid() && FindOrder(store.orders, req.orderId).None?
    requires d.orders != []
    modifies store, d
    ensures store.orders == old(store.orders)
    ensures d.crashed
  {
    AcceptBroadcastMissingIffUnknown(store.orders, req, now);
    store.Accept(req, now);
    d.OnOrderUpdated(store.outbox[|store.outbox| - 1].payload.order);
  }

  /**
   * The wizard only asks for non-empty fields, which the register schema does
   * not settle: a two-letter username passes every step and is refused by the
   * server.
   */
  lemma WizardChecksAreWeakerThanSchema()
    ensures var f := RiderRegistration.RiderForm("ab", "secret", "Li", "13800138000", 25, "男");
            && f.username != "" && f.password != "" && f.name != "" && f.phone != ""
            && ValidateRegister(RiderRegistration.RegisterRequest(f)) == Err(UsernameTooShort)
  {
  }

  /** Every account the wizard manages to create is a rider account. */
  lemma WizardAccountsAreRiders(f: RiderRegistration.RiderForm)
    requires ValidateRegister(RiderRegistration.RegisterRequest(f)).Ok?
    ensures ValidateRegister(RiderRegistration.RegisterRequest(f)).value.role == Rider
  {
    var b := RiderRegistration.RegisterRequest(f);
    assert RoleName(ValidateRegister(b).value.role) == "rider";
  }

  /** The reply of POST /api/auth/login as the sign-in screen receives it. */
  function LoginResponseOf(reply: Result<User, LoginError>): Login.LoginResponse
  {
    match reply
    case Ok(user) => Login.OkUser(user)
    case Err(_) => Login.NotOk
  }

  /**
   * Being signed in rests on the server: some stored user has the typed
   * username and the password matches its hash, and that user has the
   * selected role unless the username is "test". A refused login never signs
   * in.
   */
  lemma SignInRestsOnServer(users: seq<UserRow>, body: LoginBody, passwordMatches: (string, string) -> bool,
                            selected: UserRole)
    ensures var reply := LoginReply(users, body, passwordMatches);
            var outcome := Login.LoginDecision(LoginResponseOf(reply), selected, body.username);
            && (reply.Err? ==> !outcome.SignedIn?)
            && (outcome.SignedIn? ==>
                  exists row :: (row in users && row.user == outcome.user
                    && row.user.username == body.username
                    && passwordMatches(body.password, row.passwordHash)
                    && (row.user.role == selected || body.username == Login.BypassUsername)))
  {
  }

  /**
   * A merchant signs up and publishes an order. A non-blank message typed in
   * that order's chat window, stored by the server and broadcast on the
   * order's channel, lands in the window as the user's own message, with the
   * text as typed.
   */
  method ChatRoundTrip(merchant: RegisterBody, hash: string, req: CreateOrderRequest, me: nat, text: string,
                       t0: int, t1: int)
    returns (orderId: nat, received: seq<ChatMessage>, own: bool)
    requires ValidateRegister(merchant).Ok?
    requires !IsBlank(text)
    ensures |received| == 1 && received[0].message == text && received[0].orderId == orderId
    ensures own
  {
    var store, row := StoreWithOneOrder(merchant, hash, req, t0);
    orderId := row.id;
    var w := new ChatWindow.Window(orderId, Some(me), true);
    w.SetInput(text);
    w.SendMessage();
    assert FindOrder(store.orders, orderId) == Some(row);
    var stored := store.ChatSend(w.sent[0], t1);
    var event := store.outbox[1];
    w.Receive(event.channel, stored.value);
    received := w.messages;
    own := ChatWindow.IsOwn(received[0], Some(me));
  }

  /** One parent callback of the publish dialog, run on the merchant's page. */
  method RunCallback(d: MerchantDashboard.Dashboard, c: OrderPublish.Callback)
    modifies d
    ensures c.OnSuccess? ==> d.orders == [c.order] + old(d.orders) && d.showPublish == old(d.showPublish)
    ensures c.OnClose? ==> d.orders == old(d.orders) && !d.showPublish
  {
    match c
    case OnSuccess(o) => d.OnPublishSuccess(o);
    case OnClose => d.ClosePublish();
  }

  /**
   * The publish reply on the merchant's page: the dialog's callbacks run in
   * order, so the created order goes first and then the dialog closes; any
   * other reply leaves the page alone.
   */
  method PublishReply(d: MerchantDashboard.Dashboard, resp: OrderPublish.CreateResponse)
    modifies d
    ensures resp.Created? ==> d.orders == [resp.order] + old(d.orders) && !d.showPublish
    ensures !resp.Created? ==> d.orders == old(d.orders) && d.showPublish == old(d.showPublish)
  {
    var calls := OrderPublish.ResponseCallbacks(resp);
    for i := 0 to |calls|
      invariant !resp.Created? ==> d.orders == old(d.orders) && d.showPublish == old(d.showPublish)
      invariant resp.Created? && i == 0 ==> d.orders == old(d.orders)
      invariant resp.Created? && i >= 1 ==> d.orders == [resp.order] + old(d.orders)
      invariant resp.Created? && i == 2 ==> !d.showPublish
    {
      RunCallback(d, calls[i]);
    }
  }
}
