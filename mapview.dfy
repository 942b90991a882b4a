/** The map page's two views: `processPickupData`, which turns the pending orders of Bahrain
    sellers into one pickup location per seller, orders them into a route and nests the
    order lines by seller and customer for the location modal; and `processDeliveryData`,
    which does the same for the picked-up orders, one location per customer. Both first
    normalise the shared order array in place. Markers, the polyline and the modal are not
    modelled. */
module MapView {
  import opened JsText
  import opened Orders
  import opened CountryFlags
  import opened Grouping
  import opened Classifier
  import opened ClassifierFacts
  import opened Sorting
  import opened Route

  /** A line of the pickup modal: `{item, total, currency}`, each trimmed. */
  datatype ItemLine = ItemLine(item: Field, total: Field, currency: Field)

  /** A line of the delivery modal, with `paid: order.Paid === true`. */
  datatype PaidLine = PaidLine(item: Field, total: Field, currency: Field, paid: bool)

  /** The `ordersBySeller` / `ordersByCustomer` objects: one inner object per location key,
      holding one bucket (flag and lines) per counterpart key. */
  type Details<L> = Table<string, Table<string, Bucket<Glyph, L>>>

  /** A pickup location. `orderDetails` is a reference to the inner object stored under
      `detailsKey` in `ordersBySeller`, which later orders of the same seller keep filling. */
  datatype PickupLocation = PickupLocation(
    name: Field, latitude: real, longitude: real, isDual: bool, hasOwnItems: bool,
    distance: real, detailsKey: string)

  /** A delivery location; `orderDetails` refers to `ordersByCustomer[detailsKey]`. */
  datatype DeliveryLocation = DeliveryLocation(
    name: Field, latitude: real, longitude: real, country: Field, detailsKey: string)

  /** What `processPickupData` hands to the drawing code: the sorted locations, the nested
      order details and the route. */
  datatype PickupView = PickupView(
    locations: seq<PickupLocation>, details: Details<ItemLine>, route: seq<(real, real)>)

  /** What `processDeliveryData` hands to the drawing code: the locations in first-seen
      order, the nested order details, and the points the map is fitted to. */
  datatype DeliveryView = DeliveryView(
    locations: seq<DeliveryLocation>, details: Details<PaidLine>, bounds: seq<(real, real)>)

  // ---------------------------------------------------------------------------------------
  // Which orders each view takes, and how they are keyed

  /** A pending order of a Bahrain seller whose trimmed coordinates are both non-empty;
      the seller's number and the order's id are not required here. */
  predicate PickupEligible(o: Order)
  {
    && TrimField(o.sellerCountry) == Bahrain && Status(o) == Pending
    && Truthy(TrimField(o.sellerLatitude)) && Truthy(TrimField(o.sellerLongitude))
  }

  /** A picked-up order, whatever its countries, whose customer coordinates are non-empty. */
  predicate DeliveryEligible(o: Order)
  {
    Status(o) == PickedUpStatus && Truthy(TrimField(o.customerLatitude)) && Truthy(TrimField(o.customerLongitude))
  }

  function TrimmedCustomer(o: Order): Field
  {
    TrimField(o.customer)
  }

  /** `obj[seller]` and `obj[customer]` use the trimmed name as property key. */
  function SellerKey(o: Order): string
  {
    PropertyKey(TrimField(o.seller))
  }

  function CustomerKey(o: Order): string
  {
    PropertyKey(TrimField(o.customer))
  }

  function CustomerFlagOf(o: Order): Glyph
  {
    CountryFlag(TrimField(o.customerCountry))
  }

  function SellerFlagOf(o: Order): Glyph
  {
    CountryFlag(TrimField(o.sellerCountry))
  }

  function ItemLineOf(o: Order): ItemLine
  {
    ItemLine(TrimField(o.item), TrimField(o.total), TrimField(o.currencyCode))
  }

  function PaidLineOf(o: Order): PaidLine
  {
    PaidLine(TrimField(o.item), TrimField(o.total), TrimField(o.currencyCode), IsPaid(o))
  }

  // ---------------------------------------------------------------------------------------
  // The nested order details

  /** `if (!obj[k]) obj[k] = {}`: a new inner object. */
  function NewDetails<L>(): Order -> Table<string, Bucket<Glyph, L>>
  {
    o => Table([], map[])
  }

  /** `if (!inner[c]) inner[c] = {flag, orders: []}; inner[c].orders.push(line)`. */
  function AddDetail<L>(innerKey: Order -> string, flag: Order -> Glyph, line: Order -> L)
    : (Table<string, Bucket<Glyph, L>>, Order) -> Table<string, Bucket<Glyph, L>>
  {
    (t: Table<string, Bucket<Glyph, L>>, o: Order) => Upsert(t, innerKey(o), o, NewBucket(flag), PushLine(line))
  }

  /** The details object built from the orders `s`. */
  function DetailsOf<L>(s: seq<Order>, outerKey: Order -> string, innerKey: Order -> string,
                        flag: Order -> Glyph, line: Order -> L): Details<L>
  {
    Grouped(s, outerKey, NewDetails(), AddDetail(innerKey, flag, line))
  }

  /** One order's two-level upsert, as the loop body writes it. */
  method AddToDetails<L>(details: Details<L>, order: Order, outerKey: Order -> string, innerKey: Order -> string,
                         flag: Order -> Glyph, line: Order -> L)
    returns (details': Details<L>)
    ensures details' == Upsert(details, outerKey(order), order, NewDetails(), AddDetail(innerKey, flag, line))
  {
    var k := outerKey(order);
    var c := innerKey(order);
    details' := details;
    if k !in details'.entries {
      details' := Table(details'.keys + [k], details'.entries[k := Table([], map[])]);
    }
    var inner := details'.entries[k];
    if c !in inner.entries {
      inner := Table(inner.keys + [c], inner.entries[c := Bucket(flag(order), [])]);
    }
    var b := inner.entries[c];
    inner := Table(inner.keys, inner.entries[c := b.(orders := b.orders + [line(order)])]);
    details' := Table(details'.keys, details'.entries[k := inner]);
    UpsertInTwoSteps(details'.entries[k], c, order, NewBucket(flag), PushLine(line));
    assert inner == AddDetail(innerKey, flag, line)(if k in details.entries then details.entries[k] else Table([], map[]), order) by {
      UpsertInTwoSteps(if k in details.entries then details.entries[k] else Table([], map[]), c, order,
                       NewBucket(flag), PushLine(line));
    }
    UpsertInTwoSteps(details, k, order, NewDetails(), AddDetail(innerKey, flag, line));
  }

  /** Upserting one order at a time into an inner object, starting from `{}`, is grouping
      the orders by the inner key. */
  lemma {:induction false} InnerFoldIsGrouped<L>(xs: seq<Order>, innerKey: Order -> string, flag: Order -> Glyph, line: Order -> L)
    ensures Fold(Table([], map[]), xs, AddDetail(innerKey, flag, line))
            == Grouped(xs, innerKey, NewBucket(flag), PushLine(line))
    decreases |xs|
  {
    if xs != [] {
      InnerFoldIsGrouped(xs[..|xs| - 1], innerKey, flag, line);
    }
  }

  /** The details nest as location key, then counterpart key, then lines: a well-formed
      object at both levels with keys in first-seen order; the bucket of `(k, c)` carries the
      flag of its first order and the lines of exactly the orders with location key `k`
      and counterpart key `c`, in input order. */
  lemma DetailsShape<L>(s: seq<Order>, outerKey: Order -> string, innerKey: Order -> string,
                        flag: Order -> Glyph, line: Order -> L, k: string, c: string)
    ensures DetailsOf(s, outerKey, innerKey, flag, line).Valid()
    ensures DetailsOf(s, outerKey, innerKey, flag, line).keys == FirstSeen(s, outerKey)
    ensures k in DetailsOf(s, outerKey, innerKey, flag, line).entries ==>
              var inner := DetailsOf(s, outerKey, innerKey, flag, line).entries[k];
              var mine := Select(s, outerKey, k);
              && inner.Valid() && inner.keys == FirstSeen(mine, innerKey)
              && (c in inner.entries ==>
                    && Select(mine, innerKey, c) != []
                    && inner.entries[c] == Bucket(flag(Select(mine, innerKey, c)[0]), Lines(Select(mine, innerKey, c), line)))
  {
    var t := DetailsOf(s, outerKey, innerKey, flag, line);
    GroupedShape(s, outerKey, NewDetails(), AddDetail(innerKey, flag, line));
    if k in t.entries {
      var mine := Select(s, outerKey, k);
      InnerFoldIsGrouped(mine, innerKey, flag, line);
      assert t.entries[k] == Grouped(mine, innerKey, NewBucket(flag), PushLine(line));
      GroupedShape(mine, innerKey, NewBucket(flag), PushLine(line));
      if c in t.entries[k].entries {
        PushLines(flag(Select(mine, innerKey, c)[0]), Select(mine, innerKey, c), line);
      }
    }
  }

  /** Every order lands in exactly one innermost list: the location groups together hold
      each order exactly as often as the input does, and so do the counterpart groups of
      each location. */
  lemma DetailsPartition<L>(s: seq<Order>, outerKey: Order -> string, innerKey: Order -> string,
                            flag: Order -> Glyph, line: Order -> L, k: string)
    ensures Gathered(s, outerKey, DetailsOf(s, outerKey, innerKey, flag, line).keys) == multiset(s)
    ensures k in DetailsOf(s, outerKey, innerKey, flag, line).entries ==>
              Gathered(Select(s, outerKey, k), innerKey, DetailsOf(s, outerKey, innerKey, flag, line).entries[k].keys)
              == multiset(Select(s, outerKey, k))
  {
    DetailsShape(s, outerKey, innerKey, flag, line, k, "");
    GroupsPartition(s, outerKey);
    GroupsPartition(Select(s, outerKey, k), innerKey);
  }

  // ---------------------------------------------------------------------------------------
  // The pickup view

  /** The location pushed for the first eligible order of a seller: the trimmed seller as
      name, the parsed coordinates, whether the seller is also a customer, whether they have
      picked-up orders of their own to receive in the full data, and the distance. */
  function PickupLocationAt(data: seq<Order>, names: set<string>, geo: Geo, o: Order): PickupLocation
  {
    var seller := TrimField(o.seller);
    var lat := TextOf(TrimField(o.sellerLatitude));
    var long := TextOf(TrimField(o.sellerLongitude));
    var isDual := seller.Text? && seller.s in names;
    PickupLocation(seller, geo.parse(lat), geo.parse(long), isDual, HasOwnItems(data, isDual, seller),
                   DistanceFromDriver(geo, lat, long), PropertyKey(seller))
  }

  function PickupLocationOf(data: seq<Order>, names: set<string>, geo: Geo): Order -> PickupLocation
  {
    o => PickupLocationAt(data, names, geo, o)
  }

  /** `loc => loc.name === seller`. */
  function PickupNamed(name: Field): PickupLocation -> bool
  {
    (l: PickupLocation) => l.name == name
  }

  function PickupOrder(l: PickupLocation): SortKey
  {
    StopKey(l.hasOwnItems, l.distance)
  }

  function PickupPoint(l: PickupLocation): (real, real)
  {
    (l.latitude, l.longitude)
  }

  /** The locations after the main loop over the orders `s` of the (normalised) data `d`. */
  function PickupLocations(s: seq<Order>, names: set<string>, d: seq<Order>, geo: Geo): seq<PickupLocation>
  {
    Lines(Firsts(Filter(s, PickupEligible), TrimmedSeller), PickupLocationOf(d, names, geo))
  }

  /** What `processPickupData` computes from the normalised orders `d`. */
  function PickupViewOf(d: seq<Order>, geo: Geo): PickupView
  {
    PickupViewFrom(PickupLocations(d, CustomerNames(d), d, geo),
                   DetailsOf(Filter(d, PickupEligible), SellerKey, CustomerKey, CustomerFlagOf, ItemLineOf))
  }

  /** The end of `processPickupData`: the locations sorted with the route comparator, and
      the route through them. */
  function PickupViewFrom(locations: seq<PickupLocation>, details: Details<ItemLine>): PickupView
  {
    var sorted := Sort(locations, PickupOrder);
    PickupView(sorted, details, RouteCoordinates(Lines(sorted, PickupPoint)))
  }

  /** `findIndex` on the pushed locations misses exactly the sellers not seen before. */
  lemma PickupFind(e: seq<Order>, d: seq<Order>, names: set<string>, geo: Geo, name: Field)
    ensures var locs := Lines(Firsts(e, TrimmedSeller), PickupLocationOf(d, names, geo));
            && (FindIndex(locs, PickupNamed(name)) == -1 <==> name !in FirstSeen(e, TrimmedSeller))
            && forall j :: 0 <= j < |locs| ==> locs[j].detailsKey == PropertyKey(locs[j].name)
  {
    var locs := Lines(Firsts(e, TrimmedSeller), PickupLocationOf(d, names, geo));
    var ks := FirstSeen(e, TrimmedSeller);
    forall j | 0 <= j < |locs|
      ensures locs[j].name == ks[j] && locs[j].detailsKey == PropertyKey(locs[j].name)
    {
    }
    if name in ks {
      var j :| 0 <= j < |ks| && ks[j] == name;
      assert PickupNamed(name)(locs[j]);
    }
  }

  /** Pointing a found location at its seller's details again changes nothing. */
  lemma SameDetailsKey(locations: seq<PickupLocation>, j: int, seller: Field)
    requires 0 <= j < |locations| && locations[j].name == seller
    requires forall i :: 0 <= i < |locations| ==> locations[i].detailsKey == PropertyKey(locations[i].name)
    ensures locations[j := locations[j].(detailsKey := PropertyKey(seller))] == locations
  {
  }

  /** One loop iteration: the two-level upsert, then `findIndex` and either a push or the
      (unchanged) re-assignment of the details reference. */
  method PickupIteration(locations: seq<PickupLocation>, details: Details<ItemLine>, order: Order,
                         data: array<Order>, names: set<string>, geo: Geo)
    returns (locations': seq<PickupLocation>, details': Details<ItemLine>)
    requires forall j :: 0 <= j < |locations| ==> locations[j].detailsKey == PropertyKey(locations[j].name)
    ensures details' == if PickupEligible(order)
                        then Upsert(details, SellerKey(order), order, NewDetails(), AddDetail(CustomerKey, CustomerFlagOf, ItemLineOf))
                        else details
    ensures locations' == if PickupEligible(order) && FindIndex(locations, PickupNamed(TrimField(order.seller))) == -1
                          then locations + [PickupLocationOf(data[..], names, geo)(order)]
                          else locations
  {
    locations', details' := locations, details;
    var sellerCountry := TrimField(order.sellerCountry);
    var status := Normalized(order.shippingStatus);
    var seller := TrimField(order.seller);
    if sellerCountry == Bahrain && status == Pending {
      var sellerLat := TrimField(order.sellerLatitude);
      var sellerLong := TrimField(order.sellerLongitude);
      if !Truthy(sellerLat) || !Truthy(sellerLong) {
        return;
      }
      details' := AddToDetails(details, order, SellerKey, CustomerKey, CustomerFlagOf, ItemLineOf);
      var existingIndex := FindIndex(locations, PickupNamed(seller));
      if existingIndex == -1 {
        var isAlsoCustomer := seller.Text? && seller.s in names;
        var hasOwnItems := ComputeHasOwnItems(data, isAlsoCustomer, seller);
        var latitude := geo.parse(sellerLat.s);
        var longitude := geo.parse(sellerLong.s);
        var location := PickupLocation(seller, latitude, longitude, isAlsoCustomer, hasOwnItems,
                                       DistanceFromDriver(geo, sellerLat.s, sellerLong.s), PropertyKey(seller));
        assert location == PickupLocationOf(data[..], names, geo)(order);
        locations' := locations + [location];
      } else {
        locations' := locations[existingIndex := locations[existingIndex].(detailsKey := PropertyKey(seller))];
        SameDetailsKey(locations, existingIndex, seller);
      }
    }
  }

  /** The main loop of `processPickupData` over the (already normalised) array. */
  method CollectPickups(data: array<Order>, names: set<string>, geo: Geo)
    returns (locations: seq<PickupLocation>, details: Details<ItemLine>)
    ensures locations == PickupLocations(data[..], names, data[..], geo)
    ensures details == DetailsOf(Filter(data[..], PickupEligible), SellerKey, CustomerKey, CustomerFlagOf, ItemLineOf)
  {
    locations := [];
    details := Table([], map[]);
    var i := 0;
    while i < data.Length
      invariant 0 <= i <= data.Length
      invariant locations == PickupLocations(data[..i], names, data[..], geo)
      invariant details == DetailsOf(Filter(data[..i], PickupEligible), SellerKey, CustomerKey, CustomerFlagOf, ItemLineOf)
    {
      var order := data[i];
      ghost var e := Filter(data[..i], PickupEligible);
      assert data[..i + 1] == data[..i] + [order];
      PickupFind(e, data[..], names, geo, TrimField(order.seller));
      FirstsFilterAppend(data[..i], order, PickupEligible, TrimmedSeller);
      GroupedFilterAppend(data[..i], order, PickupEligible, SellerKey, NewDetails(), AddDetail(CustomerKey, CustomerFlagOf, ItemLineOf));
      LinesAppend(Firsts(e, TrimmedSeller), order, PickupLocationOf(data[..], names, geo));
      locations, details := PickupIteration(locations, details, order, data, names, geo);
      i := i + 1;
    }
    assert data[..i] == data[..];
  }

  /** `processPickupData`: normalise the array in place, collect the customer names, build
      the locations and the details in one pass, sort the locations with the route
      comparator, and list the route's points. */
  method ProcessPickupData(data: array<Order>, geo: Geo) returns (view: PickupView)
    modifies data
    ensures forall i :: 0 <= i < data.Length ==> data[i] == Normalize(MapRules, old(data[i]))
    ensures view == PickupViewOf(data[..], geo)
  {
    NormalizeAll(data, MapRules);
    var names := CollectCustomerNames(data);
    var locations, details := CollectPickups(data, names, geo);
    var stops := new PickupLocation[|locations|](j requires 0 <= j < |locations| => locations[j]);
    assert stops[..] == locations;
    InsertionSort(stops, PickupOrder);
    view := PickupView(stops[..], details, RouteCoordinates(Lines(stops[..], PickupPoint)));
  }

  /** Sorted with the route comparator (the view's `locations`), the pickup locations are a
      reordering of the collected ones in which the sellers with items of their own come
      first and the distance never decreases within either class. */
  lemma PickupViewOrder(locations: seq<PickupLocation>)
    ensures var r := Sort(locations, PickupOrder);
            && multiset(r) == multiset(locations)
            && (forall i, j :: 0 <= i < j < |r| && r[j].hasOwnItems ==> r[i].hasOwnItems)
            && (forall i, j :: 0 <= i < j < |r| && r[i].hasOwnItems == r[j].hasOwnItems ==> r[i].distance <= r[j].distance)
  {
    var r := Sort(locations, PickupOrder);
    SortSortedPermutation(locations, PickupOrder);
    forall i, j | 0 <= i < j < |r|
      ensures r[j].hasOwnItems ==> r[i].hasOwnItems
      ensures r[i].hasOwnItems == r[j].hasOwnItems ==> r[i].distance <= r[j].distance
    {
      StopKeyOrder(r[i].hasOwnItems, r[i].distance, r[j].hasOwnItems, r[j].distance);
    }
  }

  /** The route (the view's `route`, drawn through the sorted locations) starts at the
      driver and then visits every location in order. */
  lemma PickupRoute(sorted: seq<PickupLocation>)
    ensures var route := RouteCoordinates(Lines(sorted, PickupPoint));
            && |route| == |sorted| + 1 && route[0] == (DriverLat, DriverLong)
            && (forall i :: 0 <= i < |sorted| ==> route[i + 1] == (sorted[i].latitude, sorted[i].longitude))
  {
  }

  /** The `i`-th pickup location is named by the `i`-th seller to appear among the eligible
      orders, and built from that seller's first eligible order. */
  lemma PickupLocationAtIndex(d: seq<Order>, names: set<string>, geo: Geo, i: int)
    requires 0 <= i < |PickupLocations(d, names, d, geo)|
    ensures var l := PickupLocations(d, names, d, geo)[i];
            var k := FirstSeen(Filter(d, PickupEligible), TrimmedSeller)[i];
            && l.name == k
            && exists j :: && 0 <= j < |d| && PickupEligible(d[j]) && TrimField(d[j].seller) == k
                           && l == PickupLocationAt(d, names, geo, d[j])
                           && forall m :: 0 <= m < j ==> !(PickupEligible(d[m]) && TrimField(d[m].seller) == k)
  {
    var e := Filter(d, PickupEligible);
    FirstOfFilterAt(d, PickupEligible, TrimmedSeller, i);
    assert PickupLocations(d, names, d, geo)[i] == PickupLocationOf(d, names, geo)(Firsts(e, TrimmedSeller)[i]);
  }

  /** One pickup location per seller with an eligible order, and no seller twice. */
  lemma PickupLocationsShape(d: seq<Order>, names: set<string>, geo: Geo)
    ensures var locs := PickupLocations(d, names, d, geo);
            && (forall i, j :: 0 <= i < j < |locs| ==> locs[i].name != locs[j].name)
            && (forall j :: 0 <= j < |d| && PickupEligible(d[j]) ==>
                  exists i :: 0 <= i < |locs| && locs[i].name == TrimField(d[j].seller))
  {
    var locs := PickupLocations(d, names, d, geo);
    var ks := FirstSeen(Filter(d, PickupEligible), TrimmedSeller);
    assert forall i :: 0 <= i < |locs| ==> locs[i].name == ks[i] by {
      forall i | 0 <= i < |locs|
        ensures locs[i].name == ks[i]
      {
        PickupLocationAtIndex(d, names, geo, i);
      }
    }
    forall j | 0 <= j < |d| && PickupEligible(d[j])
      ensures exists i :: 0 <= i < |locs| && locs[i].name == TrimField(d[j].seller)
    {
      FilterKeySeen(d, PickupEligible, TrimmedSeller, j);
      var i :| 0 <= i < |ks| && ks[i] == TrimmedSeller(d[j]);
      assert locs[i].name == ks[i];
    }
  }

  /** What each pickup location says about its seller: they count as dual exactly when some
      order names them (trimmed) as its customer; they have items of their own exactly when
      they are dual and some order to their untrimmed name has been picked up; and the
      modal's details reference resolves to the seller's entry in the details object. */
  lemma PickupLocationFacts(d: seq<Order>, geo: Geo, i: int)
    requires 0 <= i < |PickupLocations(d, CustomerNames(d), d, geo)|
    ensures var l := PickupLocations(d, CustomerNames(d), d, geo)[i];
            && (l.isDual <==> exists j :: 0 <= j < |d| && Truthy(TrimField(d[j].customer)) && TrimField(d[j].customer) == l.name)
            && (l.hasOwnItems <==> l.isDual && ReceivesPickedUp(d, l.name))
            && (l.hasOwnItems ==> l.isDual)
            && l.detailsKey in DetailsOf(Filter(d, PickupEligible), SellerKey, CustomerKey, CustomerFlagOf, ItemLineOf).entries
  {
    var l := PickupLocations(d, CustomerNames(d), d, geo)[i];
    PickupLocationAtIndex(d, CustomerNames(d), geo, i);
    var j :| && 0 <= j < |d| && PickupEligible(d[j]) && TrimField(d[j].seller) == l.name
             && l == PickupLocationAt(d, CustomerNames(d), geo, d[j]);
    DualMeansCustomer(d, l.name);
    DetailsKeyPresent(d, PickupEligible, SellerKey, CustomerKey, CustomerFlagOf, ItemLineOf, j);
  }

  /** A name is among the collected customer names exactly when some order has it as its
      trimmed, non-empty customer. */
  lemma DualMeansCustomer(d: seq<Order>, name: Field)
    ensures (name.Text? && name.s in CustomerNames(d))
            <==> exists j :: 0 <= j < |d| && Truthy(TrimField(d[j].customer)) && TrimField(d[j].customer) == name
  {
    var f := Filter(d, HasCustomer);
    if name.Text? && name.s in CustomerNames(d) {
      var m :| 0 <= m < |f| && CustomerName(f[m]) == name.s;
      assert f[m] in f;
      var j :| 0 <= j < |d| && d[j] == f[m];
      assert HasCustomer(d[j]);
    }
    if exists j :: 0 <= j < |d| && Truthy(TrimField(d[j].customer)) && TrimField(d[j].customer) == name {
      var j :| 0 <= j < |d| && Truthy(TrimField(d[j].customer)) && TrimField(d[j].customer) == name;
      CustomerNameSeen(d, j);
    }
  }

  lemma CustomerNameSeen(d: seq<Order>, j: int)
    requires 0 <= j < |d| && HasCustomer(d[j])
    ensures CustomerName(d[j]) in CustomerNames(d)
  {
    var f := Filter(d, HasCustomer);
    assert d[j] in d;
    assert d[j] in f;
    var m :| 0 <= m < |f| && f[m] == d[j];
  }

  /** Every eligible order's location key has an entry in the details object. */
  lemma DetailsKeyPresent<L>(d: seq<Order>, p: Order -> bool, outerKey: Order -> string, innerKey: Order -> string,
                             flag: Order -> Glyph, line: Order -> L, j: int)
    requires 0 <= j < |d| && p(d[j])
    ensures outerKey(d[j]) in DetailsOf(Filter(d, p), outerKey, innerKey, flag, line).entries
  {
    FilterKeySeen(d, p, outerKey, j);
    DetailsShape(Filter(d, p), outerKey, innerKey, flag, line, outerKey(d[j]), "");
  }

  // ---------------------------------------------------------------------------------------
  // The delivery view

  /** The location pushed for the first eligible order of a customer. */
  function DeliveryLocationAt(geo: Geo, o: Order): DeliveryLocation
  {
    var customer := TrimField(o.customer);
    DeliveryLocation(customer, geo.parse(TextOf(TrimField(o.customerLatitude))),
                     geo.parse(TextOf(TrimField(o.customerLongitude))), TrimField(o.customerCountry),
                     PropertyKey(customer))
  }

  function DeliveryLocationOf(geo: Geo): Order -> DeliveryLocation
  {
    o => DeliveryLocationAt(geo, o)
  }

  /** `loc => loc.name === customer`. */
  function DeliveryNamed(name: Field): DeliveryLocation -> bool
  {
    (l: DeliveryLocation) => l.name == name
  }

  function DeliveryPoint(l: DeliveryLocation): (real, real)
  {
    (l.latitude, l.longitude)
  }

  /** The locations after the main loop over the orders `s`. */
  function DeliveryLocations(s: seq<Order>, geo: Geo): seq<DeliveryLocation>
  {
    Lines(Firsts(Filter(s, DeliveryEligible), TrimmedCustomer), DeliveryLocationOf(geo))
  }

  /** What `processDeliveryData` computes from the normalised orders `d`: the locations stay
      in first-seen order, and the map is fitted to the driver and every location. */
  function DeliveryViewOf(d: seq<Order>, geo: Geo): DeliveryView
  {
    var locations := DeliveryLocations(d, geo);
    DeliveryView(locations, DetailsOf(Filter(d, DeliveryEligible), CustomerKey, SellerKey, SellerFlagOf, PaidLineOf),
                 RouteCoordinates(Lines(locations, DeliveryPoint)))
  }

  /** `findIndex` on the pushed locations misses exactly the customers not seen before. */
  lemma DeliveryFind(e: seq<Order>, geo: Geo, name: Field)
    ensures var locs := Lines(Firsts(e, TrimmedCustomer), DeliveryLocationOf(geo));
            && (FindIndex(locs, DeliveryNamed(name)) == -1 <==> name !in FirstSeen(e, TrimmedCustomer))
            && forall j :: 0 <= j < |locs| ==> locs[j].detailsKey == PropertyKey(locs[j].name)
  {
    var locs := Lines(Firsts(e, TrimmedCustomer), DeliveryLocationOf(geo));
    var ks := FirstSeen(e, TrimmedCustomer);
    forall j | 0 <= j < |locs|
      ensures locs[j].name == ks[j] && locs[j].detailsKey == PropertyKey(locs[j].name)
    {
    }
    if name in ks {
      var j :| 0 <= j < |ks| && ks[j] == name;
      assert DeliveryNamed(name)(locs[j]);
    }
  }

  lemma SameDeliveryKey(locations: seq<DeliveryLocation>, j: int, customer: Field)
    requires 0 <= j < |locations| && locations[j].name == customer
    requires forall i :: 0 <= i < |locations| ==> locations[i].detailsKey == PropertyKey(locations[i].name)
    ensures locations[j := locations[j].(detailsKey := PropertyKey(customer))] == locations
  {
  }

  /** One iteration of the delivery loop. */
  method DeliveryIteration(locations: seq<DeliveryLocation>, details: Details<PaidLine>, order: Order, geo: Geo)
    returns (locations': seq<DeliveryLocation>, details': Details<PaidLine>)
    requires forall j :: 0 <= j < |locations| ==> locations[j].detailsKey == PropertyKey(locations[j].name)
    ensures details' == if DeliveryEligible(order)
                        then Upsert(details, CustomerKey(order), order, NewDetails(), AddDetail(SellerKey, SellerFlagOf, PaidLineOf))
                        else details
    ensures locations' == if DeliveryEligible(order) && FindIndex(locations, DeliveryNamed(TrimField(order.customer))) == -1
                          then locations + [DeliveryLocationOf(geo)(order)]
                          else locations
  {
    locations', details' := locations, details;
    var status := Normalized(order.shippingStatus);
    var customer := TrimField(order.customer);
    var customerCountry := TrimField(order.customerCountry);
    if status == PickedUpStatus {
      var customerLat := TrimField(order.customerLatitude);
      var customerLong := TrimField(order.customerLongitude);
      if !Truthy(customerLat) || !Truthy(customerLong) {
        return;
      }
      details' := AddToDetails(details, order, CustomerKey, SellerKey, SellerFlagOf, PaidLineOf);
      var existingIndex := FindIndex(locations, DeliveryNamed(customer));
      if existingIndex == -1 {
        var location := DeliveryLocation(customer, geo.parse(customerLat.s), geo.parse(customerLong.s),
                                         customerCountry, PropertyKey(customer));
        assert location == DeliveryLocationOf(geo)(order);
        locations' := locations + [location];
      } else {
        locations' := locations[existingIndex := locations[existingIndex].(detailsKey := PropertyKey(customer))];
        SameDeliveryKey(locations, existingIndex, customer);
      }
    }
  }

  /** The main loop of `processDeliveryData` over the (already normalised) array. */
  method CollectDeliveries(data: array<Order>, geo: Geo)
    returns (locations: seq<DeliveryLocation>, details: Details<PaidLine>)
    ensures locations == DeliveryLocations(data[..], geo)
    ensures details == DetailsOf(Filter(data[..], DeliveryEligible), CustomerKey, SellerKey, SellerFlagOf, PaidLineOf)
  {
    locations := [];
    details := Table([], map[]);
    var i := 0;
    while i < data.Length
      invariant 0 <= i <= data.Length
      invariant locations == DeliveryLocations(data[..i], geo)
      invariant details == DetailsOf(Filter(data[..i], DeliveryEligible), CustomerKey, SellerKey, SellerFlagOf, PaidLineOf)
    {
      var order := data[i];
      ghost var e := Filter(data[..i], DeliveryEligible);
      assert data[..i + 1] == data[..i] + [order];
      DeliveryFind(e, geo, TrimField(order.customer));
      FirstsFilterAppend(data[..i], order, DeliveryEligible, TrimmedCustomer);
      GroupedFilterAppend(data[..i], order, DeliveryEligible, CustomerKey, NewDetails(), AddDetail(SellerKey, SellerFlagOf, PaidLineOf));
      LinesAppend(Firsts(e, TrimmedCustomer), order, DeliveryLocationOf(geo));
      locations, details := DeliveryIteration(locations, details, order, geo);
      i := i + 1;
    }
    assert data[..i] == data[..];
  }

  /** `processDeliveryData`: normalise the array in place, build the locations and the
      details in one pass, and list the points the map is fitted to. */
  method ProcessDeliveryData(data: array<Order>, geo: Geo) returns (view: DeliveryView)
    modifies data
    ensures forall i :: 0 <= i < data.Length ==> data[i] == Normalize(MapRules, old(data[i]))
    ensures view == DeliveryViewOf(data[..], geo)
  {
    NormalizeAll(data, MapRules);
    var locations, details := CollectDeliveries(data, geo);
    view := DeliveryView(locations, details, RouteCoordinates(Lines(locations, DeliveryPoint)));
  }

  /** The `i`-th delivery location is named by the `i`-th customer to appear among the
      eligible orders, and built from that customer's first eligible order. */
  lemma DeliveryLocationAtIndex(d: seq<Order>, geo: Geo, i: int)
    requires 0 <= i < |DeliveryLocations(d, geo)|
    ensures var l := DeliveryLocations(d, geo)[i];
            var k := FirstSeen(Filter(d, DeliveryEligible), TrimmedCustomer)[i];
            && l.name == k
            && exists j :: && 0 <= j < |d| && DeliveryEligible(d[j]) && TrimField(d[j].customer) == k
                           && l == DeliveryLocationAt(geo, d[j])
                           && forall m :: 0 <= m < j ==> !(DeliveryEligible(d[m]) && TrimField(d[m].customer) == k)
  {
    var e := Filter(d, DeliveryEligible);
    FirstOfFilterAt(d, DeliveryEligible, TrimmedCustomer, i);
    assert DeliveryLocations(d, geo)[i] == DeliveryLocationOf(geo)(Firsts(e, TrimmedCustomer)[i]);
  }

  /** One delivery location per customer with an eligible order, and no customer twice. */
  lemma DeliveryLocationsShape(d: seq<Order>, geo: Geo)
    ensures var locs := DeliveryLocations(d, geo);
            && (forall i, j :: 0 <= i < j < |locs| ==> locs[i].name != locs[j].name)
            && (forall j :: 0 <= j < |d| && DeliveryEligible(d[j]) ==>
                  exists i :: 0 <= i < |locs| && locs[i].name == TrimField(d[j].customer))
  {
    var locs := DeliveryLocations(d, geo);
    var ks := FirstSeen(Filter(d, DeliveryEligible), TrimmedCustomer);
    assert forall i :: 0 <= i < |locs| ==> locs[i].name == ks[i] by {
      forall i | 0 <= i < |locs|
        ensures locs[i].name == ks[i]
      {
        DeliveryLocationAtIndex(d, geo, i);
      }
    }
    forall j | 0 <= j < |d| && DeliveryEligible(d[j])
      ensures exists i :: 0 <= i < |locs| && locs[i].name == TrimField(d[j].customer)
    {
      FilterKeySeen(d, DeliveryEligible, TrimmedCustomer, j);
      var i :| 0 <= i < |ks| && ks[i] == TrimmedCustomer(d[j]);
      assert locs[i].name == ks[i];
    }
  }

  /** Each delivery location's details reference resolves to its customer's entry. */
  lemma DeliveryLocationFacts(d: seq<Order>, geo: Geo, i: int)
    requires 0 <= i < |DeliveryLocations(d, geo)|
    ensures DeliveryLocations(d, geo)[i].detailsKey
            in DetailsOf(Filter(d, DeliveryEligible), CustomerKey, SellerKey, SellerFlagOf, PaidLineOf).entries
  {
    var l := DeliveryLocations(d, geo)[i];
    DeliveryLocationAtIndex(d, geo, i);
    var j :| && 0 <= j < |d| && DeliveryEligible(d[j]) && TrimField(d[j].customer) == l.name
             && l == DeliveryLocationAt(geo, d[j]);
    DetailsKeyPresent(d, DeliveryEligible, CustomerKey, SellerKey, SellerFlagOf, PaidLineOf, j);
  }

  /** The points the map is fitted to: the driver, then every delivery location in order. */
  lemma DeliveryBounds(locations: seq<DeliveryLocation>)
    ensures var bounds := RouteCoordinates(Lines(locations, DeliveryPoint));
            && |bounds| == |locations| + 1 && bounds[0] == (DriverLat, DriverLong)
            && (forall i :: 0 <= i < |locations| ==> bounds[i + 1] == (locations[i].latitude, locations[i].longitude))
  {
  }
}
