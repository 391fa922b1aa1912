/**
 * The merchant's home page (src/components/merchant/MerchantDashboard.tsx):
 * the balance badge, the list of orders published in this session and the
 * publish dialog.
 */
module MerchantDashboard {
  import opened Types

  /** `auth?.user?.balance || 0`: the signed-in user's balance, 0 when there is no user or it is 0. */
  function DisplayBalance(user: Option<User>): (b: real)
    ensures user.None? ==> b == 0.0
    ensures user.Some? ==> b == user.value.balance
  {
    if user.Some? && user.value.balance != 0.0 then user.value.balance else 0.0
  }

  const WaitingLabel: string := "等待接单"
  const DeliveringLabel: string := "配送中"

  /** The badge of an order card. */
  function StatusLabel(s: OrderStatus): string
  {
    if s == Pending then WaitingLabel else DeliveringLabel
  }

  /** The badge reads "waiting" exactly for pending orders; every other status, delivered and cancelled included, reads "delivering". */
  lemma StatusLabelIffPending(s: OrderStatus)
    ensures StatusLabel(s) == WaitingLabel <==> s == Pending
    ensures StatusLabel(s) == DeliveringLabel <==> s != Pending
  {
    assert WaitingLabel[0] != DeliveringLabel[0];
  }

  class Dashboard {
    const balance: real
    var showPublish: bool
    var orders: seq<Order>

    constructor (user: Option<User>)
      ensures balance == DisplayBalance(user)
      ensures !showPublish && orders == []
    {
      balance := DisplayBalance(user);
      showPublish := false;
      orders := [];
    }

    /** The placeholder card is drawn instead of the list. */
    predicate ShowsPlaceholder()
      reads this
    {
      |orders| == 0
    }

    /** The "publish" button. */
    method OpenPublish()
      modifies this`showPublish
      ensures showPublish
    {
      showPublish := true;
    }

    /** The dialog's `onClose`. */
    method ClosePublish()
      modifies this`showPublish
      ensures !showPublish
    {
      showPublish := false;
    }

    /** The dialog's `onSuccess`: the created order goes in front, the rest keep their order. */
    method OnPublishSuccess(o: Order)
      modifies this`orders
      ensures orders == [o] + old(orders)
      ensures !ShowsPlaceholder() && orders[0] == o && orders[1..] == old(orders)
    {
      orders := [o] + orders;
    }
  }
}
