/** `processOrderData`: the classifier that turns the flat list of orders into the three
    sections of the dashboard (sellers to pick up from, local customers and remote "Siin"
    customers to deliver to) and the three status counters. The service copy identifies
    lines by `DbID` and normalises `Paid` first; the legacy copy identifies lines by
    `OrderID` and normalises nothing. */
module Classifier {
  import opened JsText
  import opened Orders
  import opened CountryFlags
  import opened Grouping

  /** A line of a pickup card. */
  datatype PickupLine = PickupLine(
    orderId: string, customer: Field, customerFlag: Glyph, item: Field, total: Field, currency: Field)

  /** A seller to pick up from. `ordersByCustomer` is empty until the final pass fills it. */
  datatype SellerGroup = SellerGroup(
    name: string, number: string, latitude: string, longitude: string,
    orderCount: nat, isAlsoCustomer: bool, orderIds: set<string>,
    orders: seq<PickupLine>, rowIndices: seq<Field>,
    ordersByCustomer: Table<string, Bucket<Glyph, PickupLine>>)

  /** A line of a delivery card. */
  datatype DeliveryLine = DeliveryLine(
    orderId: string, seller: Field, sellerFlag: Glyph, item: Field, total: real, currency: Field, paid: bool)

  /** A customer to deliver to. `ordersBySeller` is empty until the final pass fills it. */
  datatype CustomerGroup = CustomerGroup(
    name: string, number: string, latitude: string, longitude: string, country: Field,
    orderCount: nat, orderIds: set<string>, orders: seq<DeliveryLine>, rowIndices: seq<Field>,
    unpaidTotal: real, ordersBySeller: Table<string, Bucket<Glyph, DeliveryLine>>)

  /** Everything the classifier hands to the renderers. */
  datatype Classification = Classification(
    pendingSellers: set<Field>, pickedUpSellers: set<Field>, deliveredSellers: set<Field>,
    sellers: Table<string, SellerGroup>,
    localCustomers: Table<string, CustomerGroup>,
    siinCustomers: Table<string, CustomerGroup>)

  const Bahrain: Field := Text("BH")

  /** `x?.toString().trim()` of a field that the completeness check has found truthy. */
  function TrimmedText(f: Field): string
  {
    TextOf(TrimField(f))
  }

  function IdText(o: Order, idKey: IdKey): string
  {
    TrimmedText(RawId(o, idKey))
  }

  function SellerName(o: Order): string
  {
    TrimmedText(o.seller)
  }

  function CustomerName(o: Order): string
  {
    TrimmedText(o.customer)
  }

  predicate IsBahrainSeller(o: Order)
  {
    TrimField(o.sellerCountry) == Bahrain
  }

  /** The completeness check of a pickup: seller, number, coordinates and id all present. */
  predicate PickupComplete(o: Order, idKey: IdKey)
  {
    && Truthy(TrimField(o.seller)) && Truthy(TrimField(o.sellerNumber))
    && Truthy(TrimField(o.sellerLatitude)) && Truthy(TrimField(o.sellerLongitude))
    && Truthy(TrimField(RawId(o, idKey)))
  }

  /** The completeness check of a delivery: customer, number, coordinates and id present. */
  predicate DeliveryComplete(o: Order, idKey: IdKey)
  {
    && Truthy(TrimField(o.customer)) && Truthy(TrimField(o.customerNumber))
    && Truthy(TrimField(o.customerLatitude)) && Truthy(TrimField(o.customerLongitude))
    && Truthy(TrimField(RawId(o, idKey)))
  }

  /** A complete pending order of a Bahrain seller: a line of some seller's pickup card. */
  predicate IsPickup(o: Order, idKey: IdKey)
  {
    IsBahrainSeller(o) && Status(o) == Pending && PickupComplete(o, idKey)
  }

  /** A complete picked-up order, whatever the seller's country: a line of some delivery card. */
  predicate IsDelivery(o: Order, idKey: IdKey)
  {
    Status(o) == PickedUpStatus && DeliveryComplete(o, idKey)
  }

  predicate IsLocalCustomer(o: Order)
  {
    TrimField(o.customerCountry) == Bahrain
  }

  function PickupFilter(idKey: IdKey): Order -> bool
  {
    o => IsPickup(o, idKey)
  }

  function DeliveryFilter(idKey: IdKey): Order -> bool
  {
    o => IsDelivery(o, idKey)
  }

  function LocalFilter(idKey: IdKey): Order -> bool
  {
    o => IsDelivery(o, idKey) && IsLocalCustomer(o)
  }

  function SiinFilter(idKey: IdKey): Order -> bool
  {
    o => IsDelivery(o, idKey) && !IsLocalCustomer(o)
  }

  /** Orders of Bahrain sellers with the given (trimmed, lower-cased) status. */
  function StatusFilter(status: Field): Order -> bool
  {
    o => IsBahrainSeller(o) && Status(o) == status
  }

  /** Orders with a present, non-empty trimmed customer. */
  predicate HasCustomer(o: Order)
  {
    Truthy(TrimField(o.customer))
  }

  function TrimmedSeller(o: Order): Field
  {
    TrimField(o.seller)
  }

  /** The first pass: every trimmed, non-empty customer name in the input. */
  function CustomerNames(s: seq<Order>): set<string>
  {
    KeysOf(Filter(s, HasCustomer), CustomerName)
  }

  /** The status counters: the trimmed sellers (possibly absent) of the Bahrain sellers'
      orders with that status. */
  function StatusSellers(s: seq<Order>, status: Field): set<Field>
  {
    KeysOf(Filter(s, StatusFilter(status)), TrimmedSeller)
  }

  function PickupLineOf(o: Order, idKey: IdKey): PickupLine
  {
    PickupLine(IdText(o, idKey), TrimField(o.customer), CountryFlag(TrimField(o.customerCountry)),
               TrimField(o.item), TrimField(o.total), TrimField(o.currencyCode))
  }

  function DeliveryLineOf(o: Order, idKey: IdKey): DeliveryLine
  {
    DeliveryLine(IdText(o, idKey), TrimField(o.seller), CountryFlag(TrimField(o.sellerCountry)),
                 TrimField(o.item), o.amount, TrimField(o.currencyCode), IsPaid(o))
  }

  /** A new seller card, created from the first pickup order of that seller. */
  function NewSeller(names: set<string>): Order -> SellerGroup
  {
    o => SellerGroup(SellerName(o), TrimmedText(o.sellerNumber), TrimmedText(o.sellerLatitude),
                     TrimmedText(o.sellerLongitude), 0, SellerName(o) in names, {}, [], [],
                     Table([], map[]))
  }

  /** Adding one pickup order to its seller's card. */
  function AddPickup(idKey: IdKey): (SellerGroup, Order) -> SellerGroup
  {
    (g: SellerGroup, o: Order) =>
      g.(orders := g.orders + [PickupLineOf(o, idKey)],
         rowIndices := g.rowIndices + [o.dbId],
         orderIds := g.orderIds + {IdText(o, idKey)})
  }

  /** A new customer card, created from the first delivery order to that customer. */
  function NewCustomer(): Order -> CustomerGroup
  {
    o => CustomerGroup(CustomerName(o), TrimmedText(o.customerNumber), TrimmedText(o.customerLatitude),
                       TrimmedText(o.customerLongitude), TrimField(o.customerCountry), 0, {}, [], [], 0.0,
                       Table([], map[]))
  }

  /** Adding one delivery order to its customer's card; its total counts as unpaid unless
      the order is paid. */
  function AddDelivery(idKey: IdKey): (CustomerGroup, Order) -> CustomerGroup
  {
    (g: CustomerGroup, o: Order) =>
      var line := DeliveryLineOf(o, idKey);
      g.(orders := g.orders + [line],
         unpaidTotal := if !line.paid then g.unpaidTotal + line.total else g.unpaidTotal,
         rowIndices := g.rowIndices + [o.dbId],
         orderIds := g.orderIds + {line.orderId})
  }

  function LineCustomerKey(l: PickupLine): string
  {
    PropertyKey(l.customer)
  }

  function LineCustomerFlag(l: PickupLine): Glyph
  {
    l.customerFlag
  }

  function LineSellerKey(l: DeliveryLine): string
  {
    PropertyKey(l.seller)
  }

  function LineSellerFlag(l: DeliveryLine): Glyph
  {
    l.sellerFlag
  }

  /** The final pass over a seller card: count the distinct ids and split the lines by
      customer. */
  function FinishSeller(g: SellerGroup): SellerGroup
  {
    g.(orderCount := |g.orderIds|,
       ordersByCustomer := Grouped(g.orders, LineCustomerKey, NewBucket(LineCustomerFlag), Push()))
  }

  /** The final pass over a customer card: count the distinct ids and split the lines by
      seller. */
  function FinishCustomer(g: CustomerGroup): CustomerGroup
  {
    g.(orderCount := |g.orderIds|,
       ordersBySeller := Grouped(g.orders, LineSellerKey, NewBucket(LineSellerFlag), Push()))
  }

  /** The seller cards after the main loop, before the final pass. */
  function SellerCards(s: seq<Order>, idKey: IdKey): Table<string, SellerGroup>
  {
    Grouped(Filter(s, PickupFilter(idKey)), SellerName, NewSeller(CustomerNames(s)), AddPickup(idKey))
  }

  function LocalCards(s: seq<Order>, idKey: IdKey): Table<string, CustomerGroup>
  {
    Grouped(Filter(s, LocalFilter(idKey)), CustomerName, NewCustomer(), AddDelivery(idKey))
  }

  function SiinCards(s: seq<Order>, idKey: IdKey): Table<string, CustomerGroup>
  {
    Grouped(Filter(s, SiinFilter(idKey)), CustomerName, NewCustomer(), AddDelivery(idKey))
  }

  /** What the classifier computes from the orders `s`. */
  function Classify(s: seq<Order>, idKey: IdKey): Classification
  {
    Classification(
      StatusSellers(s, Pending), StatusSellers(s, PickedUpStatus), StatusSellers(s, DeliveredStatus),
      MapValues(SellerCards(s, idKey), FinishSeller),
      MapValues(LocalCards(s, idKey), FinishCustomer),
      MapValues(SiinCards(s, idKey), FinishCustomer))
  }

  /** The final pass over the seller cards (`for (const seller in sellers) { ... }`); each
      iteration touches only its own card. */
  method FinishSellers(t: Table<string, SellerGroup>) returns (r: Table<string, SellerGroup>)
    requires t.Valid()
    ensures r == MapValues(t, FinishSeller)
  {
    r := t;
    var i := 0;
    while i < |t.keys|
      invariant 0 <= i <= |t.keys|
      invariant r.keys == t.keys && r.entries.Keys == t.entries.Keys
      invariant forall j :: 0 <= j < i ==> r.entries[t.keys[j]] == FinishSeller(t.entries[t.keys[j]])
      invariant forall j :: i <= j < |t.keys| ==> r.entries[t.keys[j]] == t.entries[t.keys[j]]
    {
      var k := t.keys[i];
      var g := r.entries[k];
      var byCustomer := GroupByCounterpart(g.orders, LineCustomerKey, LineCustomerFlag);
      ghost var finished := g.(orderCount := |g.orderIds|, ordersByCustomer := byCustomer);
      assert finished == FinishSeller(t.entries[k]);
      assert forall j :: 0 <= j < |t.keys| && j != i ==> t.keys[j] != k;
      r := Table(r.keys, r.entries[k := g.(orderCount := |g.orderIds|, ordersByCustomer := byCustomer)]);
      i := i + 1;
    }
    forall k | k in t.entries
      ensures r.entries[k] == FinishSeller(t.entries[k])
    {
      var j :| 0 <= j < |t.keys| && t.keys[j] == k;
    }
    assert r.entries == MapValues(t, FinishSeller).entries;
  }

  /** The final pass over one of the customer dictionaries. */
  method FinishCustomers(t: Table<string, CustomerGroup>) returns (r: Table<string, CustomerGroup>)
    requires t.Valid()
    ensures r == MapValues(t, FinishCustomer)
  {
    r := t;
    var i := 0;
    while i < |t.keys|
      invariant 0 <= i <= |t.keys|
      invariant r.keys == t.keys && r.entries.Keys == t.entries.Keys
      invariant forall j :: 0 <= j < i ==> r.entries[t.keys[j]] == FinishCustomer(t.entries[t.keys[j]])
      invariant forall j :: i <= j < |t.keys| ==> r.entries[t.keys[j]] == t.entries[t.keys[j]]
    {
      var k := t.keys[i];
      var g := r.entries[k];
      var bySeller := GroupByCounterpart(g.orders, LineSellerKey, LineSellerFlag);
      ghost var finished := g.(orderCount := |g.orderIds|, ordersBySeller := bySeller);
      assert finished == FinishCustomer(t.entries[k]);
      assert forall j :: 0 <= j < |t.keys| && j != i ==> t.keys[j] != k;
      r := Table(r.keys, r.entries[k := g.(orderCount := |g.orderIds|, ordersBySeller := bySeller)]);
      i := i + 1;
    }
    forall k | k in t.entries
      ensures r.entries[k] == FinishCustomer(t.entries[k])
    {
      var j :| 0 <= j < |t.keys| && t.keys[j] == k;
    }
    assert r.entries == MapValues(t, FinishCustomer).entries;
  }

  /** `processOrderData` without its normalisation pass: the first loop collects the
      customer names, the second fills the counters and dictionaries, the final passes count
      ids and split lines by counterpart. */
  method ProcessOrderData(data: array<Order>, idKey: IdKey) returns (c: Classification)
    ensures c == Classify(data[..], idKey)
  {
    var names := CollectCustomerNames(data);
    var pending: set<Field> := {};
    var pickedUp: set<Field> := {};
    var delivered: set<Field> := {};
    var sellers: Table<string, SellerGroup> := Table([], map[]);
    var local: Table<string, CustomerGroup> := Table([], map[]);
    var siin: Table<string, CustomerGroup> := Table([], map[]);
    var i := 0;
    while i < data.Length
      invariant 0 <= i <= data.Length
      invariant pending == StatusSellers(data[..i], Pending)
      invariant pickedUp == StatusSellers(data[..i], PickedUpStatus)
      invariant delivered == StatusSellers(data[..i], DeliveredStatus)
      invariant sellers == Grouped(Filter(data[..i], PickupFilter(idKey)), SellerName, NewSeller(names), AddPickup(idKey))
      invariant local == Grouped(Filter(data[..i], LocalFilter(idKey)), CustomerName, NewCustomer(), AddDelivery(idKey))
      invariant siin == Grouped(Filter(data[..i], SiinFilter(idKey)), CustomerName, NewCustomer(), AddDelivery(idKey))
    {
      var order := data[i];
      assert data[..i + 1] == data[..i] + [order];
      CountersStep(data[..i], order);
      CardsStep(data[..i], order, idKey, names);

      pending, pickedUp, delivered := CountSeller(pending, pickedUp, delivered, order);
      sellers := AddPickupOrder(sellers, order, idKey, names);
      local, siin := AddDeliveryOrder(local, siin, order, idKey);
      i := i + 1;
    }
    assert data[..i] == data[..];

    GroupedShape(Filter(data[..], PickupFilter(idKey)), SellerName, NewSeller(names), AddPickup(idKey));
    GroupedShape(Filter(data[..], LocalFilter(idKey)), CustomerName, NewCustomer(), AddDelivery(idKey));
    GroupedShape(Filter(data[..], SiinFilter(idKey)), CustomerName, NewCustomer(), AddDelivery(idKey));
    sellers := FinishSellers(sellers);
    local := FinishCustomers(local);
    siin := FinishCustomers(siin);
    c := Classification(pending, pickedUp, delivered, sellers, local, siin);
  }

  /** The first loop: every trimmed, non-empty customer name of the input. */
  method CollectCustomerNames(data: array<Order>) returns (names: set<string>)
    ensures names == CustomerNames(data[..])
  {
    names := {};
    var i := 0;
    while i < data.Length
      invariant 0 <= i <= data.Length
      invariant names == CustomerNames(data[..i])
    {
      assert data[..i + 1] == data[..i] + [data[i]];
      KeysOfFilterAppend(data[..i], data[i], HasCustomer, CustomerName);
      var customer := TrimField(data[i].customer);
      if Truthy(customer) {
        names := names + {customer.s};
      }
      i := i + 1;
    }
    assert data[..i] == data[..];
  }

  /** One iteration's update of the status counters (`if (sellerCountry === "BH") ...`). */
  method CountSeller(pending: set<Field>, pickedUp: set<Field>, delivered: set<Field>, order: Order)
    returns (pending': set<Field>, pickedUp': set<Field>, delivered': set<Field>)
    ensures pending' == pending + if IsBahrainSeller(order) && Status(order) == Pending then {TrimField(order.seller)} else {}
    ensures pickedUp' == pickedUp + if IsBahrainSeller(order) && Status(order) == PickedUpStatus then {TrimField(order.seller)} else {}
    ensures delivered' == delivered + if IsBahrainSeller(order) && Status(order) == DeliveredStatus then {TrimField(order.seller)} else {}
  {
    var sellerCountry := TrimField(order.sellerCountry);
    var status := Normalized(order.shippingStatus);
    var seller := TrimField(order.seller);
    pending', pickedUp', delivered' := CountStatus(pending, pickedUp, delivered, sellerCountry, status, seller);
  }

  /** The branches of that update, on the trimmed country, the normalised status and the
      trimmed seller. */
  method CountStatus(pending: set<Field>, pickedUp: set<Field>, delivered: set<Field>,
                     sellerCountry: Field, status: Field, seller: Field)
    returns (pending': set<Field>, pickedUp': set<Field>, delivered': set<Field>)
    ensures pending' == pending + if sellerCountry == Bahrain && status == Pending then {seller} else {}
    ensures pickedUp' == pickedUp + if sellerCountry == Bahrain && status == PickedUpStatus then {seller} else {}
    ensures delivered' == delivered + if sellerCountry == Bahrain && status == DeliveredStatus then {seller} else {}
  {
    StatusesDiffer();
    pending', pickedUp', delivered' := pending, pickedUp, delivered;
    if sellerCountry == Bahrain {
      if status == Pending {
        pending' := pending + {seller};
      } else if status == PickedUpStatus {
        pickedUp' := pickedUp + {seller};
      } else if status == DeliveredStatus {
        delivered' := delivered + {seller};
      }
    }
  }

  /** One iteration's pickup branch: a complete pending order of a Bahrain seller is upserted
      into that seller's card; any other order leaves the cards as they are. */
  method AddPickupOrder(sellers: Table<string, SellerGroup>, order: Order, idKey: IdKey, names: set<string>)
    returns (sellers': Table<string, SellerGroup>)
    ensures sellers' == if IsPickup(order, idKey)
                        then Upsert(sellers, SellerName(order), order, NewSeller(names), AddPickup(idKey))
                        else sellers
  {
    sellers' := sellers;
    var sellerCountry := TrimField(order.sellerCountry);
    var customerCountry := TrimField(order.customerCountry);
    var status := Normalized(order.shippingStatus);
    var seller := TrimField(order.seller);
    var customer := TrimField(order.customer);
    if sellerCountry == Bahrain && status == Pending {
      var sellerNumber := TrimField(order.sellerNumber);
      var sellerLat := TrimField(order.sellerLatitude);
      var sellerLong := TrimField(order.sellerLongitude);
      var orderId := TrimField(RawId(order, idKey));
      var customerFlag := CountryFlag(customerCountry);
      if Truthy(seller) && Truthy(sellerNumber) && Truthy(sellerLat) && Truthy(sellerLong) && Truthy(orderId) {
        assert IsPickup(order, idKey) && seller.s == SellerName(order);
        var isAlsoCustomer := seller.s in names;
        if seller.s !in sellers'.entries {
          var card := SellerGroup(seller.s, sellerNumber.s, sellerLat.s, sellerLong.s, 0, isAlsoCustomer,
                                  {}, [], [], Table([], map[]));
          assert card == NewSeller(names)(order);
          sellers' := Table(sellers'.keys + [seller.s], sellers'.entries[seller.s := card]);
        }
        var g := sellers'.entries[seller.s];
        var line := PickupLine(orderId.s, customer, customerFlag, TrimField(order.item),
                               TrimField(order.total), TrimField(order.currencyCode));
        var updated := g.(orders := g.orders + [line], rowIndices := g.rowIndices + [order.dbId],
                          orderIds := g.orderIds + {orderId.s});
        assert updated == AddPickup(idKey)(g, order);
        sellers' := Table(sellers'.keys, sellers'.entries[seller.s := updated]);
        UpsertInTwoSteps(sellers, SellerName(order), order, NewSeller(names), AddPickup(idKey));
      }
    }
  }

  /** One iteration's delivery branch: a complete picked-up order is upserted into its
      customer's card, in the local dictionary when the customer's country is "BH" and in
      the Siin one otherwise; any other order leaves both as they are. */
  method AddDeliveryOrder(local: Table<string, CustomerGroup>, siin: Table<string, CustomerGroup>, order: Order, idKey: IdKey)
    returns (local': Table<string, CustomerGroup>, siin': Table<string, CustomerGroup>)
    ensures local' == if IsDelivery(order, idKey) && IsLocalCustomer(order)
                      then Upsert(local, CustomerName(order), order, NewCustomer(), AddDelivery(idKey))
                      else local
    ensures siin' == if IsDelivery(order, idKey) && !IsLocalCustomer(order)
                     then Upsert(siin, CustomerName(order), order, NewCustomer(), AddDelivery(idKey))
                     else siin
  {
    local', siin' := local, siin;
    var sellerCountry := TrimField(order.sellerCountry);
    var customerCountry := TrimField(order.customerCountry);
    var status := Normalized(order.shippingStatus);
    var seller := TrimField(order.seller);
    var customer := TrimField(order.customer);
    if status == PickedUpStatus {
      var customerNumber := TrimField(order.customerNumber);
      var customerLat := TrimField(order.customerLatitude);
      var customerLong := TrimField(order.customerLongitude);
      var orderId := TrimField(RawId(order, idKey));
      var paid := order.paid == PaidFlag(true);
      var sellerFlag := CountryFlag(sellerCountry);
      if Truthy(customer) && Truthy(customerNumber) && Truthy(customerLat) && Truthy(customerLong) && Truthy(orderId) {
        var isLocal := customerCountry == Bahrain;
        assert isLocal == IsLocalCustomer(order);
        if isLocal {
          local' := AddCustomerOrder(local, order, idKey, customer.s, TrimField(order.seller), sellerFlag, paid);
        } else {
          siin' := AddCustomerOrder(siin, order, idKey, customer.s, TrimField(order.seller), sellerFlag, paid);
        }
      }
    }
  }

  /** The upsert of a complete picked-up order into the customer dictionary it belongs to:
      a new card from the order's customer details when the name is new, then the line, the
      row index, the id and (unless paid) the total added. */
  method AddCustomerOrder(customers: Table<string, CustomerGroup>, order: Order, idKey: IdKey,
                          name: string, seller: Field, sellerFlag: Glyph, paid: bool)
    returns (customers': Table<string, CustomerGroup>)
    requires IsDelivery(order, idKey) && name == CustomerName(order)
    requires seller == TrimField(order.seller) && sellerFlag == CountryFlag(TrimField(order.sellerCountry))
    requires paid == IsPaid(order)
    ensures customers' == Upsert(customers, CustomerName(order), order, NewCustomer(), AddDelivery(idKey))
  {
    customers' := customers;
    if name !in customers'.entries {
      var card := CustomerGroup(name, TrimmedText(order.customerNumber), TrimmedText(order.customerLatitude),
                                TrimmedText(order.customerLongitude), TrimField(order.customerCountry),
                                0, {}, [], [], 0.0, Table([], map[]));
      assert card == NewCustomer()(order);
      customers' := Table(customers'.keys + [name], customers'.entries[name := card]);
    }
    var g := customers'.entries[name];
    var line := DeliveryLine(TrimmedText(RawId(order, idKey)), seller, sellerFlag, TrimField(order.item),
                             order.amount, TrimField(order.currencyCode), paid);
    assert line == DeliveryLineOf(order, idKey);
    var unpaid := g.unpaidTotal;
    if !paid {
      unpaid := unpaid + line.total;
    }
    var updated := g.(
      orders := g.orders + [line],
      unpaidTotal := unpaid,
      rowIndices := g.rowIndices + [order.dbId],
      orderIds := g.orderIds + {line.orderId});
    AddDeliveryApplied(idKey, g, order);
    assert updated == AddDelivery(idKey)(g, order);
    customers' := Table(customers'.keys, customers'.entries[name := updated]);
    UpsertInTwoSteps(customers, CustomerName(order), order, NewCustomer(), AddDelivery(idKey));
  }

  /** Proof helper: one application of `AddDelivery`, unfolded. What a run of them builds
      is stated by `DeliveryFoldOrders`, `DeliveryFoldUnpaid`, `DeliveryFoldRows` and
      `DeliveryFoldIds`. */
  lemma AddDeliveryApplied(idKey: IdKey, g: CustomerGroup, o: Order)
    ensures var line := DeliveryLineOf(o, idKey);
            AddDelivery(idKey)(g, o)
            == g.(orders := g.orders + [line],
                  unpaidTotal := if !line.paid then g.unpaidTotal + line.total else g.unpaidTotal,
                  rowIndices := g.rowIndices + [o.dbId],
                  orderIds := g.orderIds + {line.orderId})
  {
  }

  /** How one more order changes the status counters. */
  lemma CountersStep(s: seq<Order>, o: Order)
    ensures StatusSellers(s + [o], Pending)
            == StatusSellers(s, Pending) + if IsBahrainSeller(o) && Status(o) == Pending then {TrimField(o.seller)} else {}
    ensures StatusSellers(s + [o], PickedUpStatus)
            == StatusSellers(s, PickedUpStatus) + if IsBahrainSeller(o) && Status(o) == PickedUpStatus then {TrimField(o.seller)} else {}
    ensures StatusSellers(s + [o], DeliveredStatus)
            == StatusSellers(s, DeliveredStatus) + if IsBahrainSeller(o) && Status(o) == DeliveredStatus then {TrimField(o.seller)} else {}
  {
    KeysOfFilterAppend(s, o, StatusFilter(Pending), TrimmedSeller);
    KeysOfFilterAppend(s, o, StatusFilter(PickedUpStatus), TrimmedSeller);
    KeysOfFilterAppend(s, o, StatusFilter(DeliveredStatus), TrimmedSeller);
  }

  /** How one more order changes the dictionaries: an upsert into the one it belongs to. */
  lemma CardsStep(s: seq<Order>, o: Order, idKey: IdKey, names: set<string>)
    ensures Grouped(Filter(s + [o], PickupFilter(idKey)), SellerName, NewSeller(names), AddPickup(idKey))
            == if IsPickup(o, idKey)
               then Upsert(Grouped(Filter(s, PickupFilter(idKey)), SellerName, NewSeller(names), AddPickup(idKey)),
                           SellerName(o), o, NewSeller(names), AddPickup(idKey))
               else Grouped(Filter(s, PickupFilter(idKey)), SellerName, NewSeller(names), AddPickup(idKey))
    ensures Grouped(Filter(s + [o], LocalFilter(idKey)), CustomerName, NewCustomer(), AddDelivery(idKey))
            == if IsDelivery(o, idKey) && IsLocalCustomer(o)
               then Upsert(Grouped(Filter(s, LocalFilter(idKey)), CustomerName, NewCustomer(), AddDelivery(idKey)),
                           CustomerName(o), o, NewCustomer(), AddDelivery(idKey))
               else Grouped(Filter(s, LocalFilter(idKey)), CustomerName, NewCustomer(), AddDelivery(idKey))
    ensures Grouped(Filter(s + [o], SiinFilter(idKey)), CustomerName, NewCustomer(), AddDelivery(idKey))
            == if IsDelivery(o, idKey) && !IsLocalCustomer(o)
               then Upsert(Grouped(Filter(s, SiinFilter(idKey)), CustomerName, NewCustomer(), AddDelivery(idKey)),
                           CustomerName(o), o, NewCustomer(), AddDelivery(idKey))
               else Grouped(Filter(s, SiinFilter(idKey)), CustomerName, NewCustomer(), AddDelivery(idKey))
  {
    GroupedFilterAppend(s, o, PickupFilter(idKey), SellerName, NewSeller(names), AddPickup(idKey));
    GroupedFilterAppend(s, o, LocalFilter(idKey), CustomerName, NewCustomer(), AddDelivery(idKey));
    GroupedFilterAppend(s, o, SiinFilter(idKey), CustomerName, NewCustomer(), AddDelivery(idKey));
  }

  /** The service copy: normalise the array in place, then classify by `DbID`. */
  method ServiceProcessOrderData(data: array<Order>) returns (c: Classification)
    modifies data
    ensures forall i :: 0 <= i < data.Length ==> data[i] == Normalize(ServiceRules, old(data[i]))
    ensures c == Classify(data[..], ByDbId)
  {
    NormalizeAll(data, ServiceRules);
    c := ProcessOrderData(data, ByDbId);
  }
}
