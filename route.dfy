/** What the pickup route is ordered by, shared by the map view and the dashboard's pickup
    section: whether a seller first has items of their own to receive, then the distance
    from the driver's starting point. */
module Route {
  import opened JsText
  import opened Orders
  import opened Sorting

  /** The driver's starting point. */
  const DriverLat: real := 26.214405643565406
  const DriverLong: real := 50.59370581495277

  /** The floating-point parts the route depends on, given as parameters: `parseFloat` of a
      coordinate's text, and the great-circle distance between two points. */
  datatype Geo = Geo(parse: string -> real, distance: (real, real, real, real) -> real)

  /** The distance from the driver's starting point to a location given by coordinate text. */
  function DistanceFromDriver(geo: Geo, latitude: string, longitude: string): real
  {
    geo.distance(DriverLat, DriverLong, geo.parse(latitude), geo.parse(longitude))
  }

  /** The order is addressed to `name` as customer (the raw `Customer` property, compared
      untrimmed) and has been picked up. */
  predicate PickedUpFor(o: Order, name: Field)
  {
    o.customer == name && Status(o) == PickedUpStatus
  }

  /** Some order of the full data is addressed to `name` and has been picked up. */
  predicate ReceivesPickedUp(data: seq<Order>, name: Field)
  {
    exists i :: 0 <= i < |data| && PickedUpFor(data[i], name)
  }

  /** The scan `for (const order of data) if (order.Customer === name && status is
      "picked up") { found = true; break; }`. */
  method ScanReceivesPickedUp(data: array<Order>, name: Field) returns (found: bool)
    ensures found <==> ReceivesPickedUp(data[..], name)
  {
    found := false;
    var i := 0;
    while i < data.Length
      invariant 0 <= i <= data.Length
      invariant forall j :: 0 <= j < i ==> !PickedUpFor(data[j], name)
    {
      var order := data[i];
      if PickedUpFor(order, name) {
        assert data[..][i] == order;
        return true;
      }
      i := i + 1;
    }
    assert forall j :: 0 <= j < |data[..]| ==> !PickedUpFor(data[..][j], name);
  }

  /** `hasOwnItems`: false unless the seller is also a customer, and then whether some order
      to them has been picked up. */
  predicate HasOwnItems(data: seq<Order>, isAlsoCustomer: bool, name: Field)
  {
    isAlsoCustomer && ReceivesPickedUp(data, name)
  }

  /** `hasOwnItems = false; if (isAlsoCustomer) { scan }`. */
  method ComputeHasOwnItems(data: array<Order>, isAlsoCustomer: bool, name: Field) returns (hasOwnItems: bool)
    ensures hasOwnItems <==> HasOwnItems(data[..], isAlsoCustomer, name)
    ensures hasOwnItems ==> isAlsoCustomer
  {
    hasOwnItems := false;
    if isAlsoCustomer {
      hasOwnItems := ScanReceivesPickedUp(data, name);
    }
  }

  /** The comparator both views pass to `sort`: sellers with items of their own first, then
      the nearer first. */
  function CompareStops(aOwn: bool, aDistance: real, bOwn: bool, bDistance: real): real
  {
    if aOwn && !bOwn then -1.0
    else if !aOwn && bOwn then 1.0
    else aDistance - bDistance
  }

  /** The key that comparator compares. */
  function StopKey(hasOwnItems: bool, distance: real): SortKey
  {
    SortKey(if hasOwnItems then 0 else 1, distance)
  }

  /** The comparator says "not after" exactly when the key does, so a stable sort with the
      comparator is the stable sort by the key. */
  lemma CompareStopsIsStopKey(aOwn: bool, aDistance: real, bOwn: bool, bDistance: real)
    ensures CompareStops(aOwn, aDistance, bOwn, bDistance) <= 0.0
            <==> KeyLe(StopKey(aOwn, aDistance), StopKey(bOwn, bDistance))
    ensures CompareStops(aOwn, aDistance, bOwn, bDistance) == 0.0
            <==> StopKey(aOwn, aDistance) == StopKey(bOwn, bDistance)
  {
  }

  /** Ordered by the key, every stop with items of its own comes before every stop without,
      and within each of the two classes the distance never decreases. */
  lemma StopKeyOrder(aOwn: bool, aDistance: real, bOwn: bool, bDistance: real)
    requires KeyLe(StopKey(aOwn, aDistance), StopKey(bOwn, bDistance))
    ensures bOwn ==> aOwn
    ensures aOwn == bOwn ==> aDistance <= bDistance
  {
  }

  /** The route: the driver's starting point, then each stop's coordinates in order. */
  function RouteCoordinates(stops: seq<(real, real)>): (r: seq<(real, real)>)
    ensures |r| == |stops| + 1
    ensures r[0] == (DriverLat, DriverLong)
    ensures forall i :: 0 <= i < |stops| ==> r[i + 1] == stops[i]
  {
    [(DriverLat, DriverLong)] + stops
  }
}
