/**
 * The merchant's "publish delivery" dialog
 * (src/components/merchant/OrderPublishModal.tsx): a form edited field by
 * field, a submit that checks two fields, prices the order on the client and
 * posts it to /api/orders/create, and the callbacks run on the reply.
 */
module OrderPublish {
  import opened Types
  import opened Strings
  import opened Tables

  /** The dialog's `formData`. Weight and distance are numbers, the other fields text. */
  datatype PublishForm = PublishForm(
    orderNumber: string,
    customerName: string,
    customerPhone: string,
    destinationAddress: string,
    weight: real,
    distance: real,
    orderType: OrderType,
    remarks: string)

  /** The coordinates every published order is sent with, in place of a geocoded address. */
  const DemoLat: real := 39.9
  const DemoLng: real := 116.4

  /** The order number a dialog opened at `now` (milliseconds) proposes. */
  function DefaultOrderNumber(now: nat): string
  {
    "ORD-" + NatToString(now)
  }

  /** Dialogs opened at different milliseconds propose different order numbers, so they do not clash on the UNIQUE column. */
  lemma DefaultOrderNumbersDistinct(a: nat, b: nat)
    ensures DefaultOrderNumber(a) == DefaultOrderNumber(b) <==> a == b
  {
    NatToStringInjective(a, b);
    if DefaultOrderNumber(a) == DefaultOrderNumber(b) {
      assert DefaultOrderNumber(a)[4..] == NatToString(a);
      assert DefaultOrderNumber(b)[4..] == NatToString(b);
    }
  }

  /** The price sent with the order: 5 base, 2 per kilometre, 1 per kilogram. */
  function SubmittedPrice(f: PublishForm): real
  {
    5.0 + f.distance * 2.0 + f.weight * 1.0
  }

  /** The estimate printed on the submit button, computed by its own expression. */
  function ButtonEstimate(f: PublishForm): real
  {
    5.0 + f.distance * 2.0 + f.weight * 1.0
  }

  /**
   * The button shows the price that is sent, and both are the server's default
   * fares applied to the form; a stored price configuration plays no part.
   */
  lemma EstimateIsSubmittedPrice(f: PublishForm)
    ensures ButtonEstimate(f) == SubmittedPrice(f)
    ensures SubmittedPrice(f) == Price(DefaultFares, f.distance, f.weight)
  {
  }

  /** A longer or heavier delivery is never priced lower. */
  lemma SubmittedPriceMonotone(f: PublishForm, g: PublishForm)
    requires f.distance <= g.distance && f.weight <= g.weight
    ensures SubmittedPrice(f) <= SubmittedPrice(g)
  {
  }

  /** What pressing submit does: an alert and nothing sent, or a create request. */
  datatype SubmitResult = Incomplete | Sent(body: CreateOrderRequest)

  /**
   * `handleSubmit`: an empty recipient name or address stops the submit;
   * otherwise the body is the form with the merchant's id, the demo
   * coordinates and the client-side price.
   */
  function Submit(f: PublishForm, merchantId: Option<nat>): (r: SubmitResult)
    ensures r.Incomplete? <==> f.customerName == "" || f.destinationAddress == ""
    ensures r.Sent? ==>
      && r.body.merchantId == merchantId
      && r.body.orderNumber == f.orderNumber
      && r.body.customerName == f.customerName && r.body.customerName != ""
      && r.body.customerPhone == f.customerPhone
      && r.body.destinationAddress == f.destinationAddress && r.body.destinationAddress != ""
      && r.body.destinationLat == DemoLat && r.body.destinationLng == DemoLng
      && r.body.weight == f.weight && r.body.distance == f.distance
      && r.body.price == Price(DefaultFares, f.distance, f.weight)
      && r.body.orderType == f.orderType
      && r.body.scheduledTime.None? && r.body.remarks == Some(f.remarks)
  {
    if f.customerName == "" || f.destinationAddress == "" then Incomplete
    else Sent(CreateOrderRequest(
      f.orderNumber, merchantId, f.customerName, f.customerPhone, f.destinationAddress,
      DemoLat, DemoLng, f.weight, f.distance, SubmittedPrice(f), f.orderType, None, Some(f.remarks)))
  }

  /** How the create request ended: no reply, a non-ok status, or the created row. */
  datatype CreateResponse = NetworkFailure | NotOk | Created(order: Order)

  /** The parent callbacks the dialog runs. */
  datatype Callback = OnSuccess(order: Order) | OnClose

  /** The callbacks a reply triggers: the created order to the parent, then closing, and only for an ok reply. */
  function ResponseCallbacks(resp: CreateResponse): (r: seq<Callback>)
    ensures r != [] <==> resp.Created?
    ensures resp.Created? ==> r == [OnSuccess(resp.order), OnClose]
  {
    match resp
    case Created(order) => [OnSuccess(order), OnClose]
    case _ => []
  }

  /** The open dialog. */
  class PublishModal {
    const merchantId: Option<nat>
    var form: PublishForm
    var requests: seq<CreateOrderRequest>
    var calls: seq<Callback>

    /** The form has no control for the order type: it stays "instant". */
    ghost predicate Valid()
      reads this
    {
      form.orderType == Instant
    }

    constructor (merchantId: Option<nat>, now: nat)
      ensures Valid()
      ensures this.merchantId == merchantId
      ensures form == PublishForm(DefaultOrderNumber(now), "", "", "", 1.0, 2.5, Instant, "")
      ensures requests == [] && calls == []
    {
      this.merchantId := merchantId;
      form := PublishForm(DefaultOrderNumber(now), "", "", "", 1.0, 2.5, Instant, "");
      requests := [];
      calls := [];
    }

    method SetCustomerName(v: string)
      requires Valid()
      modifies this`form
      ensures Valid() && form == old(form).(customerName := v)
    {
      form := form.(customerName := v);
    }

    method SetCustomerPhone(v: string)
      requires Valid()
      modifies this`form
      ensures Valid() && form == old(form).(customerPhone := v)
    {
      form := form.(customerPhone := v);
    }

    method SetDestinationAddress(v: string)
      requires Valid()
      modifies this`form
      ensures Valid() && form == old(form).(destinationAddress := v)
    {
      form := form.(destinationAddress := v);
    }

    method SetWeight(v: real)
      requires Valid()
      modifies this`form
      ensures Valid() && form == old(form).(weight := v)
    {
      form := form.(weight := v);
    }

    method SetDistance(v: real)
      requires Valid()
      modifies this`form
      ensures Valid() && form == old(form).(distance := v)
    {
      form := form.(distance := v);
    }

    method SetRemarks(v: string)
      requires Valid()
      modifies this`form
      ensures Valid() && form == old(form).(remarks := v)
    {
      form := form.(remarks := v);
    }

    /** The submit button: the request, if any, joins those sent; every order sent is an instant one. */
    method HandleSubmit()
      requires Valid()
      modifies this`requests
      ensures Submit(form, merchantId).Incomplete? ==> requests == old(requests)
      ensures Submit(form, merchantId).Sent? ==> requests == old(requests) + [Submit(form, merchantId).body]
      ensures forall i :: |old(requests)| <= i < |requests| ==> requests[i].orderType == Instant
    {
      var r := Submit(form, merchantId);
      if r.Sent? {
        requests := requests + [r.body];
      }
    }

    /** The reply to a create request arrives. */
    method HandleResponse(resp: CreateResponse)
      modifies this`calls
      ensures calls == old(calls) + ResponseCallbacks(resp)
    {
      calls := calls + ResponseCallbacks(resp);
    }
  }
}
