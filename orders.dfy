/** The order record of the dashboard's JSON feed, the status and payment views every
    component takes of it, and the in-place normalisations applied before processing. */
module Orders {
  import opened JsText

  /** The `Paid` property: a boolean, a string such as "paid" or "unpaid", or absent. */
  datatype Paid = PaidFlag(b: bool) | PaidText(s: string) | PaidAbsent

  /** One record of the feed. Numbers (ids, phone numbers, coordinates) appear as their
      text; `amount` is the number `parseFloat(order.Total || 0)` reads from `Total`. */
  datatype Order = Order(
    dbId: Field,
    orderId: Field,
    seller: Field,
    sellerCountry: Field,
    sellerNumber: Field,
    sellerLatitude: Field,
    sellerLongitude: Field,
    customer: Field,
    customerCountry: Field,
    customerNumber: Field,
    customerLatitude: Field,
    customerLongitude: Field,
    item: Field,
    total: Field,
    amount: real,
    currencyCode: Field,
    paid: Paid,
    shippingStatus: Field,
    createdAt: Field)

  /** Which property identifies an order line: `DbID` in the service copy of the
      classifier, `OrderID` in the legacy one. */
  datatype IdKey = ByDbId | ByOrderId

  function RawId(o: Order, idKey: IdKey): Field
  {
    match idKey
    case ByDbId => o.dbId
    case ByOrderId => o.orderId
  }

  /** `order.ShippingStatus?.trim().toLowerCase()`, the form in which statuses are compared. */
  function Status(o: Order): Field
  {
    Normalized(o.shippingStatus)
  }

  const Pending: Field := Text("pending")
  const PickedUpStatus: Field := Text("picked up")
  const DeliveredStatus: Field := Text("delivered")

  /** The three statuses the dashboard tells apart are three different strings. */
  lemma StatusesDiffer()
    ensures Pending != PickedUpStatus && Pending != DeliveredStatus && PickedUpStatus != DeliveredStatus
  {
    assert Pending.s[1] != PickedUpStatus.s[1];
    assert Pending.s[0] != DeliveredStatus.s[0];
    assert PickedUpStatus.s[0] != DeliveredStatus.s[0];
  }

  /** `order.Paid === true`: only the boolean `true` counts as paid. */
  predicate IsPaid(o: Order)
  {
    o.paid == PaidFlag(true)
  }

  /** Which copy's normalisation pass runs: the order-processing service's, or the map
      view's. The legacy classifier runs none. */
  datatype Normalisation = ServiceRules | MapRules

  /** The service's payment mapping: "paid" to true, "unpaid" to false. */
  function ServicePaid(p: Paid): Paid
  {
    if p == PaidText("paid") then PaidFlag(true)
    else if p == PaidText("unpaid") then PaidFlag(false)
    else p
  }

  /** The service's status rewrites, each of which stores the value it tested for. */
  function ServiceStatus(f: Field): Field
  {
    if f == Text("pending") then Text("pending")
    else if f == Text("delivered") then Text("delivered")
    else if f == Text("picked up") then Text("picked up")
    else f
  }

  /** The map view's payment mapping: only "paid" is converted. */
  function MapPaid(p: Paid): Paid
  {
    if p == PaidText("paid") then PaidFlag(true) else p
  }

  /** The map view lower-cases a present, non-empty status (without trimming it). */
  function MapStatus(f: Field): Field
  {
    if Truthy(f) then Text(Lower(f.s)) else f
  }

  /** One record after the normalisation pass of the chosen copy. */
  function Normalize(how: Normalisation, o: Order): Order
  {
    match how
    case ServiceRules => o.(paid := ServicePaid(o.paid), shippingStatus := ServiceStatus(o.shippingStatus))
    case MapRules => o.(paid := MapPaid(o.paid), shippingStatus := MapStatus(o.shippingStatus))
  }

  /** The `data.forEach(order => { ... })` normalisation pass, which rewrites every record
      of the array in place. */
  method NormalizeAll(data: array<Order>, how: Normalisation)
    modifies data
    ensures forall i :: 0 <= i < data.Length ==> data[i] == Normalize(how, old(data[i]))
  {
    var i := 0;
    while i < data.Length
      invariant 0 <= i <= data.Length
      invariant forall j :: 0 <= j < i ==> data[j] == Normalize(how, old(data[j]))
      invariant forall j :: i <= j < data.Length ==> data[j] == old(data[j])
    {
      var order := data[i];
      var paid := order.paid;
      var status := order.shippingStatus;
      match how {
        case ServiceRules =>
          if paid == PaidText("paid") {
            paid := PaidFlag(true);
          } else if paid == PaidText("unpaid") {
            paid := PaidFlag(false);
          }
          if status == Text("pending") {
            status := Text("pending");
          } else if status == Text("delivered") {
            status := Text("delivered");
          } else if status == Text("picked up") {
            status := Text("picked up");
          }
        case MapRules =>
          if Truthy(status) {
            status := Text(Lower(status.s));
          }
          if paid == PaidText("paid") {
            paid := PaidFlag(true);
          }
      }
      data[i] := order.(paid := paid, shippingStatus := status);
      i := i + 1;
    }
  }

  /** The service's mapping turns "paid" into true and "unpaid" into false and leaves every
      other value as it was. */
  lemma ServicePaidMapping(p: Paid)
    ensures p == PaidText("paid") ==> ServicePaid(p) == PaidFlag(true)
    ensures p == PaidText("unpaid") ==> ServicePaid(p) == PaidFlag(false)
    ensures p != PaidText("paid") && p != PaidText("unpaid") ==> ServicePaid(p) == p
  {
  }

  /** The service's status rewrites change nothing, and its pass changes only `Paid`. */
  lemma ServiceStatusIsIdentity(o: Order)
    ensures ServiceStatus(o.shippingStatus) == o.shippingStatus
    ensures Normalize(ServiceRules, o) == o.(paid := ServicePaid(o.paid))
  {
  }

  /** After the service's pass an order counts as paid exactly when `Paid` was true or
      "paid"; after the map view's pass likewise; "unpaid" is unpaid either way. */
  lemma PaidAfterNormalisation(how: Normalisation, o: Order)
    ensures IsPaid(Normalize(how, o)) <==> o.paid == PaidFlag(true) || o.paid == PaidText("paid")
    ensures o.paid == PaidText("unpaid") ==> !IsPaid(Normalize(how, o))
    ensures how == MapRules && o.paid == PaidText("unpaid") ==> Normalize(how, o).paid == o.paid
  {
  }

  /** Neither pass changes how the status compares: the trimmed, lower-cased status of a
      normalised record is that of the original. */
  lemma NormalizeKeepsStatus(how: Normalisation, o: Order)
    ensures Status(Normalize(how, o)) == Status(o)
  {
    if how == MapRules && Truthy(o.shippingStatus) {
      var s := o.shippingStatus.s;
      TrimLower(s);
      LowerIdempotent(Trim(s));
    }
  }

  /** Running a pass a second time changes nothing. */
  lemma NormalizeIdempotent(how: Normalisation, o: Order)
    ensures Normalize(how, Normalize(how, o)) == Normalize(how, o)
  {
    if how == MapRules && Truthy(o.shippingStatus) {
      LowerIdempotent(o.shippingStatus.s);
    }
  }

  /** Both passes touch only `Paid` and `ShippingStatus`. */
  lemma NormalizeTouchesOnlyPaidAndStatus(how: Normalisation, o: Order)
    ensures var n := Normalize(how, o);
            n.(paid := o.paid, shippingStatus := o.shippingStatus) == o
  {
  }
}
