/**
 * The rider's workbench (src/components/rider/RiderDashboard.tsx): the order
 * list the dashboard keeps up to date from the hall query and the
 * `order:new` / `order:updated` broadcasts, the two views filtered from it,
 * the grab button, and the delivery countdown of the order detail page.
 */
module RiderDashboard {
  import opened Types
  import opened Strings
  import opened Lists

  /** The three bottom-bar tabs; the dashboard opens on the hall. */
  datatype Tab = HallTab | MyTab | ProfileTab

  /** An `order:accept` message as the dashboard emits it. */
  datatype AcceptCommand = AcceptCommand(orderId: nat, riderId: Option<nat>)

  // ----- list updates -----

  /**
   * `prev.map(o => o.id === updated.id ? updated : o)`: every entry carrying
   * the updated order's id is replaced by it, position by position.
   */
  function ReplaceById(s: seq<Order>, u: Order): (r: seq<Order>)
    ensures |r| == |s|
    ensures forall i :: 0 <= i < |s| ==> r[i] == (if s[i].id == u.id then u else s[i])
    decreases |s|
  {
    if |s| == 0 then [] else [if s[0].id == u.id then u else s[0]] + ReplaceById(s[1..], u)
  }

  /** An update whose id is nowhere in the list leaves the list as it was. */
  lemma ReplaceByIdNoMatch(s: seq<Order>, u: Order)
    requires forall i :: 0 <= i < |s| ==> s[i].id != u.id
    ensures ReplaceById(s, u) == s
  {
  }

  /** The ids, and hence the React keys, stay where they were; the update is now present when its id was. */
  lemma ReplaceByIdKeepsIds(s: seq<Order>, u: Order)
    ensures forall i :: 0 <= i < |s| ==> ReplaceById(s, u)[i].id == s[i].id
    ensures (exists i :: 0 <= i < |s| && s[i].id == u.id) ==> u in ReplaceById(s, u)
  {
    if exists i :: 0 <= i < |s| && s[i].id == u.id {
      var i :| 0 <= i < |s| && s[i].id == u.id;
      assert ReplaceById(s, u)[i] == u;
    }
  }

  /** Receiving the same update twice is the same as receiving it once. */
  lemma ReplaceByIdIdempotent(s: seq<Order>, u: Order)
    ensures ReplaceById(ReplaceById(s, u), u) == ReplaceById(s, u)
  {
    var once := ReplaceById(s, u);
    assert forall i :: 0 <= i < |s| ==> ReplaceById(once, u)[i] == once[i];
  }

  // ----- views -----

  predicate InHall(o: Order)
  {
    InDispatchPool(o.status)
  }

  predicate IsPending(o: Order)
  {
    o.status == Pending
  }

  /** The cards of the hall tab: the `pending` and `transferring` orders, in list order. */
  function HallView(s: seq<Order>): seq<Order>
  {
    Filter(s, InHall)
  }

  /** The number in the hall header, which counts `pending` orders only. */
  function PendingCount(s: seq<Order>): nat
  {
    |Filter(s, IsPending)|
  }

  /** The hall shows exactly the orders of the list that are open for grabbing. */
  lemma HallViewExactly(s: seq<Order>, x: Order)
    ensures x in HallView(s) <==> x in s && InDispatchPool(x.status)
  {
    if x in HallView(s) {
      var i :| 0 <= i < |HallView(s)| && HallView(s)[i] == x;
    }
  }

  /**
   * The header never counts more than the hall shows, and it counts fewer
   * exactly when some order in the list is `transferring`.
   */
  lemma PendingCountVersusHall(s: seq<Order>)
    ensures PendingCount(s) <= |HallView(s)|
    ensures PendingCount(s) == |HallView(s)| <==> forall i :: 0 <= i < |s| ==> s[i].status != Transferring
  {
    FilterWeakerKeepsMore(s, IsPending, InHall);
    if forall i :: 0 <= i < |s| ==> s[i].status != Transferring {
      FilterSameOn(s, IsPending, InHall);
    } else {
      var i :| 0 <= i < |s| && s[i].status == Transferring;
      FilterStrictlyMore(s, IsPending, InHall, s[i]);
    }
  }

  /**
   * An order of the "my deliveries" tab: its rider is the signed-in user and
   * it is not yet delivered. Rows carry `null` for a missing rider while a
   * signed-out user's id is `undefined`, and the two are not `===`, so a
   * signed-out dashboard owns nothing.
   */
  predicate IsMyDelivery(o: Order, me: Option<nat>)
  {
    me.Some? && o.riderId == me && o.status != Delivered
  }

  function MyDeliveries(s: seq<Order>, me: Option<nat>): seq<Order>
  {
    Filter(s, o => IsMyDelivery(o, me))
  }

  /** The "my deliveries" tab shows exactly the user's undelivered orders of the list. */
  lemma MyDeliveriesExactly(s: seq<Order>, me: Option<nat>, x: Order)
    ensures x in MyDeliveries(s, me) <==> x in s && me.Some? && x.riderId == me && x.status != Delivered
  {
    if x in MyDeliveries(s, me) {
      var i :| 0 <= i < |MyDeliveries(s, me)| && MyDeliveries(s, me)[i] == x;
    }
  }

  /** The "nothing in delivery" placeholder appears iff no order of the list is one of the user's undelivered orders. */
  lemma EmptyStateIffNoneMine(s: seq<Order>, me: Option<nat>)
    ensures |MyDeliveries(s, me)| == 0 <==> forall i :: 0 <= i < |s| ==> !IsMyDelivery(s[i], me)
  {
    var r := MyDeliveries(s, me);
    if |r| > 0 {
      assert r[0] in s && IsMyDelivery(r[0], me);
      var i :| 0 <= i < |s| && s[i] == r[0];
    }
  }

  /** A new order lands at the top of the hall when it is open for grabbing, and nowhere else. */
  lemma NewOrderTopsHall(o: Order, s: seq<Order>)
    ensures HallView([o] + s) == if InDispatchPool(o.status) then [o] + HallView(s) else HallView(s)
  {
    FilterCons(o, s, InHall);
  }

  /** Once an update takes an order out of the dispatch pool, no hall card carries its id. */
  lemma UpdateOutOfPoolLeavesHall(s: seq<Order>, u: Order)
    requires !InDispatchPool(u.status)
    ensures forall x :: x in HallView(ReplaceById(s, u)) ==> x.id != u.id
  {
    var r := ReplaceById(s, u);
    forall x | x in HallView(r) ensures x.id != u.id {
      HallViewExactly(r, x);
      var i :| 0 <= i < |r| && r[i] == x;
    }
  }

  /** An update that gives a listed order to the user puts it in the user's deliveries. */
  lemma UpdateToMeShowsInMyDeliveries(s: seq<Order>, u: Order, me: Option<nat>)
    requires exists i :: 0 <= i < |s| && s[i].id == u.id
    requires IsMyDelivery(u, me)
    ensures u in MyDeliveries(ReplaceById(s, u), me)
  {
    ReplaceByIdKeepsIds(s, u);
    MyDeliveriesExactly(ReplaceById(s, u), me, u);
  }

  /** An update that gives an order to someone else takes it out of the user's deliveries. */
  lemma UpdateToOtherLeavesMyDeliveries(s: seq<Order>, u: Order, me: Option<nat>)
    requires u.riderId != me
    ensures forall x :: x in MyDeliveries(ReplaceById(s, u), me) ==> x.id != u.id
  {
    var r := ReplaceById(s, u);
    forall x | x in MyDeliveries(r, me) ensures x.id != u.id {
      MyDeliveriesExactly(r, me, x);
      var i :| 0 <= i < |r| && r[i] == x;
    }
  }

  // ----- the countdown of the order detail page -----

  /** Thirty minutes, in seconds. */
  const CountdownStart: int := 30 * 60

  /** The digits turn red below five minutes. */
  const UrgentBelow: int := 300

  /** One second of `setTimeLeft(prev => prev > 0 ? prev - 1 : 0)`. */
  function Tick(t: int): int
  {
    if t > 0 then t - 1 else 0
  }

  /** The countdown after `n` ticks. */
  function AfterTicks(t: int, n: nat): int
  {
    if n == 0 then t else Tick(AfterTicks(t, n - 1))
  }

  /** From a non-negative start the countdown loses exactly one per tick and stops at zero. */
  lemma {:induction false} AfterTicksClamped(t: nat, n: nat)
    ensures AfterTicks(t, n) == if n <= t then t - n else 0
  {
    if n > 0 {
      AfterTicksClamped(t, n - 1);
    }
  }

  /** Started at thirty minutes, the digits are red exactly from the 1501st tick on. */
  lemma UrgentExactlyAfter(n: nat)
    ensures AfterTicks(CountdownStart, n) < UrgentBelow <==> n > 1500
    ensures AfterTicks(CountdownStart, n) >= 0
  {
    AfterTicksClamped(CountdownStart, n);
  }

  /** The JavaScript `%` on integers: the remainder takes the sign of the dividend. */
  function JsRem(a: int, n: int): int
    requires n > 0
  {
    if a >= 0 then a % n else -((-a) % n)
  }

  /** `formatTime`: the whole minutes (rounded down), a colon, and the seconds padded to two digits when below 10. */
  function FormatTime(seconds: int): string
  {
    var m := seconds / 60;
    var s := JsRem(seconds, 60);
    IntToString(m) + ":" + (if s < 10 then "0" else "") + IntToString(s)
  }

  /** The seconds field of a non-negative count: two digits whose value is below 60. */
  lemma SecondsField(s: nat)
    requires s < 60
    ensures var f := (if s < 10 then "0" else "") + NatToString(s);
            |f| == 2 && AllDigits(f) && DigitsValue(f) == s
  {
    var f := (if s < 10 then "0" else "") + NatToString(s);
    NatToStringRoundTrip(s);
    if s < 10 {
      assert f[..1] == "0";
      assert DigitsValue("0") == 0;
    } else {
      assert NatToString(s) == NatToString(s / 10) + [DigitChar(s % 10)];
    }
  }

  /**
   * For a non-negative count, `formatTime` gives minutes, a colon and a
   * two-digit seconds field below 60, and the count can be read back from it.
   */
  lemma FormatTimeReadsBack(seconds: nat)
    ensures var r := FormatTime(seconds);
            && |r| >= 4 && r[|r| - 3] == ':'
            && AllDigits(r[..|r| - 3]) && AllDigits(r[|r| - 2..])
            && DigitsValue(r[|r| - 2..]) < 60
            && DigitsValue(r[..|r| - 3]) * 60 + DigitsValue(r[|r| - 2..]) == seconds
  {
    var m := seconds / 60;
    var s := seconds % 60;
    assert JsRem(seconds, 60) == s;
    var f := (if s < 10 then "0" else "") + NatToString(s);
    SecondsField(s);
    NatToStringRoundTrip(m);
    var r := FormatTime(seconds);
    assert r == NatToString(m) + ":" + f;
    assert r[..|r| - 3] == NatToString(m);
    assert r[|r| - 2..] == f;
  }

  /** The countdown state of an open order detail page. */
  class Countdown {
    var timeLeft: int

    constructor ()
      ensures timeLeft == CountdownStart
    {
      timeLeft := CountdownStart;
    }

    /** The one-second interval fires. */
    method OnTick()
      modifies this
      ensures timeLeft == Tick(old(timeLeft))
    {
      if timeLeft > 0 {
        timeLeft := timeLeft - 1;
      } else {
        timeLeft := 0;
      }
    }

    /** The digits are drawn in red. */
    predicate Urgent()
      reads this
    {
      timeLeft < UrgentBelow
    }
  }

  // ----- the dashboard -----

  /**
   * The dashboard's state: the signed-in user's id, whether a socket is
   * present, the open tab, the order list, the `order:accept` messages
   * sent so far, and whether a handler has thrown during rendering, which
   * unmounts the whole application (there is no error boundary above it).
   */
  class Dashboard {
    const me: Option<nat>
    const connected: bool
    var activeTab: Tab
    var orders: seq<Order>
    var sent: seq<AcceptCommand>
    var crashed: bool

    constructor (me: Option<nat>, connected: bool)
      ensures this.me == me && this.connected == connected
      ensures activeTab == HallTab && orders == [] && sent == [] && !crashed
    {
      this.me := me;
      this.connected := connected;
      activeTab := HallTab;
      orders := [];
      sent := [];
      crashed := false;
    }

    /** The hall fetch resolves: its rows replace the list. */
    method OnHallLoaded(rows: seq<Order>)
      modifies this`orders
      ensures orders == rows
    {
      orders := rows;
    }

    /** `order:new`: the order goes in front of the previous list. */
    method OnOrderNew(o: Order)
      modifies this`orders
      ensures orders == [o] + old(orders)
      ensures HallView(orders) == if InDispatchPool(o.status) then [o] + HallView(old(orders)) else HallView(old(orders))
    {
      orders := [o] + orders;
      NewOrderTopsHall(o, old(orders));
    }

    /**
     * `order:updated`: entries with the payload's id are replaced. A missing
     * payload (null) is only read when the updater visits an entry: on an
     * empty list nothing happens, and on any other list reading its id throws
     * while React renders, the update is never committed and the application
     * is unmounted.
     */
    method OnOrderUpdated(payload: Option<Order>)
      modifies this`orders, this`crashed
      ensures crashed == (old(crashed) || (payload.None? && old(orders) != []))
      ensures payload.None? ==> orders == old(orders)
      ensures payload.Some? ==> orders == ReplaceById(old(orders), payload.value)
      ensures |orders| == |old(orders)|
    {
      if payload.Some? {
        orders := ReplaceById(orders, payload.value);
      } else if orders != [] {
        crashed := true;
      }
    }

    /**
     * The grab button: `order:accept` goes out with the order id and the
     * user's id when there is a socket, and the tab switches to "my
     * deliveries" whatever becomes of the request.
     */
    method AcceptOrder(orderId: nat)
      modifies this`sent, this`activeTab
      ensures sent == old(sent) + (if connected then [AcceptCommand(orderId, me)] else [])
      ensures activeTab == MyTab
    {
      if connected {
        sent := sent + [AcceptCommand(orderId, me)];
      }
      activeTab := MyTab;
    }

    /** A bottom-bar button. */
    method SelectTab(t: Tab)
      modifies this`activeTab
      ensures activeTab == t
    {
      activeTab := t;
    }

    /** The "nothing in delivery" placeholder is drawn. */
    predicate ShowsEmptyState()
      reads this
    {
      |MyDeliveries(orders, me)| == 0
    }
  }
}
