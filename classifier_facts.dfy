/** What the classifier's output means, stated against the input orders: which cards exist,
    where their header fields come from, what their lines, ids, counts and unpaid totals are,
    how delivery orders split between the local and the Siin sections, and what the status
    counters hold. */
module ClassifierFacts {
  import opened JsText
  import opened Orders
  import opened CountryFlags
  import opened Grouping
  import opened Classifier

  function PickupLineFor(idKey: IdKey): Order -> PickupLine
  {
    o => PickupLineOf(o, idKey)
  }

  function DeliveryLineFor(idKey: IdKey): Order -> DeliveryLine
  {
    o => DeliveryLineOf(o, idKey)
  }

  function DbIdOf(o: Order): Field
  {
    o.dbId
  }

  function IdOf(idKey: IdKey): Order -> string
  {
    o => IdText(o, idKey)
  }

  /** The pickup orders of seller `k`, in input order. */
  function SellerOrders(s: seq<Order>, idKey: IdKey, k: string): seq<Order>
  {
    Select(Filter(s, PickupFilter(idKey)), SellerName, k)
  }

  function Sum(xs: seq<real>): real
    decreases |xs|
  {
    if xs == [] then 0.0 else Sum(xs[..|xs| - 1]) + xs[|xs| - 1]
  }

  predicate Unpaid(l: DeliveryLine)
  {
    !l.paid
  }

  function LineTotal(l: DeliveryLine): real
  {
    l.total
  }

  /** The sum of the totals of exactly the unpaid lines. */
  function UnpaidSum(ls: seq<DeliveryLine>): real
  {
    Sum(Lines(Filter(ls, Unpaid), LineTotal))
  }

  lemma LinesAppend<T, L>(xs: seq<T>, x: T, line: T -> L)
    ensures Lines(xs + [x], line) == Lines(xs, line) + [line(x)]
  {
    assert (xs + [x])[..|xs|] == xs;
  }

  /** Proof helper: sequence concatenation is associative. */
  lemma AppendAssoc<T>(a: seq<T>, b: seq<T>, c: seq<T>)
    ensures a + (b + c) == a + b + c
  {
  }

  /** Proof helper: the empty sequence is a left unit. */
  lemma AppendEmpty<T>(a: seq<T>)
    ensures [] + a == a
  {
  }

  /** Proof helper: the empty set is a left unit. */
  lemma UnionEmpty<T>(a: set<T>)
    ensures {} + a == a
  {
  }

  lemma SumAppend(xs: seq<real>, x: real)
    ensures Sum(xs + [x]) == Sum(xs) + x
  {
    assert (xs + [x])[..|xs|] == xs;
  }

  /** One more line adds its total to the unpaid sum exactly when it is unpaid. */
  lemma UnpaidSumAppend(ls: seq<DeliveryLine>, l: DeliveryLine)
    ensures UnpaidSum(ls + [l]) == UnpaidSum(ls) + (if l.paid then 0.0 else l.total)
  {
    FilterAppend(ls, l, Unpaid);
    if !l.paid {
      LinesAppend(Filter(ls, Unpaid), l, LineTotal);
      SumAppend(Lines(Filter(ls, Unpaid), LineTotal), l.total);
    } else {
      assert Filter(ls + [l], Unpaid) == Filter(ls, Unpaid);
    }
  }

  /** Adding the pickup orders `xs` one at a time appends their lines and their `DbID`s in
      order and adds their ids to the id set. */
  lemma {:induction false} AddPickupFold(g: SellerGroup, xs: seq<Order>, idKey: IdKey)
    ensures Fold(g, xs, AddPickup(idKey))
            == g.(orders := g.orders + Lines(xs, PickupLineFor(idKey)),
                  rowIndices := g.rowIndices + Lines(xs, DbIdOf),
                  orderIds := g.orderIds + KeysOf(xs, IdOf(idKey)))
    decreases |xs|
  {
    if xs != [] {
      var n := |xs| - 1;
      var init, x := xs[..n], xs[n];
      var h := Fold(g, init, AddPickup(idKey));
      AddPickupFold(g, init, idKey);
      FoldLast(g, xs, AddPickup(idKey));
      SplitLast(xs);
      PickupStepFields(g, h, init, x, idKey);
    }
  }

  /** The inductive step of `AddPickupFold`, over the fold of the shorter prefix `h`. */
  lemma PickupStepFields(g: SellerGroup, h: SellerGroup, init: seq<Order>, x: Order, idKey: IdKey)
    requires h == g.(orders := g.orders + Lines(init, PickupLineFor(idKey)),
                     rowIndices := g.rowIndices + Lines(init, DbIdOf),
                     orderIds := g.orderIds + KeysOf(init, IdOf(idKey)))
    ensures AddPickup(idKey)(h, x)
            == g.(orders := g.orders + Lines(init + [x], PickupLineFor(idKey)),
                  rowIndices := g.rowIndices + Lines(init + [x], DbIdOf),
                  orderIds := g.orderIds + KeysOf(init + [x], IdOf(idKey)))
  {
    AddPickupApplied(idKey, h, x);
    LinesStep(g.orders, init, x, PickupLineFor(idKey));
    LinesStep(g.rowIndices, init, x, DbIdOf);
    KeysOfAppend(init, x, IdOf(idKey));
  }

  /** Proof helper: one application of `AddPickup`, unfolded. */
  lemma AddPickupApplied(idKey: IdKey, g: SellerGroup, o: Order)
    ensures AddPickup(idKey)(g, o)
            == g.(orders := g.orders + [PickupLineOf(o, idKey)],
                  rowIndices := g.rowIndices + [o.dbId],
                  orderIds := g.orderIds + {IdText(o, idKey)})
  {
  }

  /** Proof helper: a non-empty sequence is its prefix and its last element. */
  lemma SplitLast<T>(xs: seq<T>)
    requires xs != []
    ensures xs == xs[..|xs| - 1] + [xs[|xs| - 1]]
  {
  }

  /** Proof helper: the last step of a fold. */
  lemma FoldLast<T, V>(v: V, xs: seq<T>, add: (V, T) -> V)
    requires xs != []
    ensures Fold(v, xs, add) == add(Fold(v, xs[..|xs| - 1], add), xs[|xs| - 1])
  {
  }

  /** Adding the delivery orders `xs` one at a time appends their lines in order, ... */
  lemma {:induction false} DeliveryFoldOrders(g: CustomerGroup, xs: seq<Order>, idKey: IdKey)
    ensures Fold(g, xs, AddDelivery(idKey)).orders == g.orders + Lines(xs, DeliveryLineFor(idKey))
    decreases |xs|
  {
    if xs != [] {
      var n := |xs| - 1;
      var init, x := xs[..n], xs[n];
      var h := Fold(g, init, AddDelivery(idKey));
      DeliveryFoldOrders(g, init, idKey);
      FoldLast(g, xs, AddDelivery(idKey));
      AddDeliveryApplied(idKey, h, x);
      SplitLast(xs);
      LinesStep(g.orders, init, x, DeliveryLineFor(idKey));
    }
  }

  /** ... adds to the unpaid total the totals of exactly the unpaid lines, ... */
  lemma {:induction false} DeliveryFoldUnpaid(g: CustomerGroup, xs: seq<Order>, idKey: IdKey)
    ensures Fold(g, xs, AddDelivery(idKey)).unpaidTotal == g.unpaidTotal + UnpaidSum(Lines(xs, DeliveryLineFor(idKey)))
    decreases |xs|
  {
    if xs != [] {
      var n := |xs| - 1;
      var init, x := xs[..n], xs[n];
      var h := Fold(g, init, AddDelivery(idKey));
      DeliveryFoldUnpaid(g, init, idKey);
      FoldLast(g, xs, AddDelivery(idKey));
      AddDeliveryApplied(idKey, h, x);
      SplitLast(xs);
      UnpaidStep(g.unpaidTotal, init, x, idKey);
    }
  }

  /** ... appends their `DbID`s in order, ... */
  lemma {:induction false} DeliveryFoldRows(g: CustomerGroup, xs: seq<Order>, idKey: IdKey)
    ensures Fold(g, xs, AddDelivery(idKey)).rowIndices == g.rowIndices + Lines(xs, DbIdOf)
    decreases |xs|
  {
    if xs != [] {
      var n := |xs| - 1;
      var init, x := xs[..n], xs[n];
      var h := Fold(g, init, AddDelivery(idKey));
      DeliveryFoldRows(g, init, idKey);
      FoldLast(g, xs, AddDelivery(idKey));
      AddDeliveryApplied(idKey, h, x);
      SplitLast(xs);
      LinesStep(g.rowIndices, init, x, DbIdOf);
    }
  }

  /** ... adds their ids to the id set, ... */
  lemma {:induction false} DeliveryFoldIds(g: CustomerGroup, xs: seq<Order>, idKey: IdKey)
    ensures Fold(g, xs, AddDelivery(idKey)).orderIds == g.orderIds + KeysOf(xs, IdOf(idKey))
    decreases |xs|
  {
    if xs != [] {
      var n := |xs| - 1;
      var init, x := xs[..n], xs[n];
      var h := Fold(g, init, AddDelivery(idKey));
      DeliveryFoldIds(g, init, idKey);
      FoldLast(g, xs, AddDelivery(idKey));
      AddDeliveryApplied(idKey, h, x);
      SplitLast(xs);
      KeysOfAppend(init, x, IdOf(idKey));
    }
  }

  /** ... and changes nothing else. */
  lemma {:induction false} DeliveryFoldHeader(g: CustomerGroup, xs: seq<Order>, idKey: IdKey)
    ensures var r := Fold(g, xs, AddDelivery(idKey));
            r.(orders := g.orders, unpaidTotal := g.unpaidTotal, rowIndices := g.rowIndices, orderIds := g.orderIds) == g
    decreases |xs|
  {
    if xs != [] {
      var n := |xs| - 1;
      var h := Fold(g, xs[..n], AddDelivery(idKey));
      DeliveryFoldHeader(g, xs[..n], idKey);
      FoldLast(g, xs, AddDelivery(idKey));
      AddDeliveryApplied(idKey, h, xs[n]);
    }
  }

  lemma LinesStep<T, L>(init: seq<L>, xs: seq<T>, x: T, line: T -> L)
    ensures init + Lines(xs + [x], line) == init + Lines(xs, line) + [line(x)]
  {
    LinesAppend(xs, x, line);
    AppendAssoc(init, Lines(xs, line), [line(x)]);
  }

  lemma UnpaidStep(u: real, xs: seq<Order>, x: Order, idKey: IdKey)
    ensures var line := DeliveryLineOf(x, idKey);
            u + UnpaidSum(Lines(xs + [x], DeliveryLineFor(idKey)))
            == (if !line.paid then u + UnpaidSum(Lines(xs, DeliveryLineFor(idKey))) + line.total
                else u + UnpaidSum(Lines(xs, DeliveryLineFor(idKey))))
  {
    LinesAppend(xs, x, DeliveryLineFor(idKey));
    UnpaidSumAppend(Lines(xs, DeliveryLineFor(idKey)), DeliveryLineOf(x, idKey));
  }

  /** A seller card in closed form: the header from the seller's first pickup order,
      `isAlsoCustomer` from the customer names, then every pickup order of that seller. */
  lemma SellerCardShape(s: seq<Order>, idKey: IdKey, k: string)
    requires k in SellerCards(s, idKey).entries
    ensures SellerOrders(s, idKey, k) != []
    ensures var xs := SellerOrders(s, idKey, k);
            SellerCards(s, idKey).entries[k]
            == SellerGroup(k, TrimmedText(xs[0].sellerNumber), TrimmedText(xs[0].sellerLatitude),
                           TrimmedText(xs[0].sellerLongitude), 0, k in CustomerNames(s),
                           KeysOf(xs, IdOf(idKey)), Lines(xs, PickupLineFor(idKey)), Lines(xs, DbIdOf),
                           Table([], map[]))
  {
    var p := Filter(s, PickupFilter(idKey));
    GroupAt(p, SellerName, NewSeller(CustomerNames(s)), AddPickup(idKey), k);
    var xs := SellerOrders(s, idKey, k);
    var g0 := NewSeller(CustomerNames(s))(xs[0]);
    assert g0 == SellerGroup(k, TrimmedText(xs[0].sellerNumber), TrimmedText(xs[0].sellerLatitude),
                             TrimmedText(xs[0].sellerLongitude), 0, k in CustomerNames(s), {}, [], [],
                             Table([], map[]));
    AddPickupFold(g0, xs, idKey);
    AppendEmpty(Lines(xs, PickupLineFor(idKey)));
    AppendEmpty(Lines(xs, DbIdOf));
    UnionEmpty(KeysOf(xs, IdOf(idKey)));
  }

  /** A customer card in closed form: the header from the customer's first delivery order
      of its section (the orders passing `section`), then every such order, with the unpaid
      total summed over the unpaid lines. */
  lemma CustomerCardShape(s: seq<Order>, idKey: IdKey, section: Order -> bool, k: string)
    requires k in Grouped(Filter(s, section), CustomerName, NewCustomer(), AddDelivery(idKey)).entries
    ensures Select(Filter(s, section), CustomerName, k) != []
    ensures var xs := Select(Filter(s, section), CustomerName, k);
            var g := Grouped(Filter(s, section), CustomerName, NewCustomer(), AddDelivery(idKey)).entries[k];
            && g.name == k
            && g.number == TrimmedText(xs[0].customerNumber)
            && g.latitude == TrimmedText(xs[0].customerLatitude)
            && g.longitude == TrimmedText(xs[0].customerLongitude)
            && g.country == TrimField(xs[0].customerCountry)
            && g.orderCount == 0
            && g.orderIds == KeysOf(xs, IdOf(idKey))
            && g.orders == Lines(xs, DeliveryLineFor(idKey))
            && g.rowIndices == Lines(xs, DbIdOf)
            && g.unpaidTotal == UnpaidSum(Lines(xs, DeliveryLineFor(idKey)))
  {
    var p := Filter(s, section);
    GroupAt(p, CustomerName, NewCustomer(), AddDelivery(idKey), k);
    var xs := Select(p, CustomerName, k);
    var g0 := NewCustomer()(xs[0]);
    NewCustomerApplied(xs[0]);
    DeliveryFoldOrders(g0, xs, idKey);
    DeliveryFoldUnpaid(g0, xs, idKey);
    DeliveryFoldRows(g0, xs, idKey);
    DeliveryFoldIds(g0, xs, idKey);
    DeliveryFoldHeader(g0, xs, idKey);
    AppendEmpty(Lines(xs, DeliveryLineFor(idKey)));
    AppendEmpty(Lines(xs, DbIdOf));
    UnionEmpty(KeysOf(xs, IdOf(idKey)));
  }

  lemma NewCustomerApplied(o: Order)
    ensures NewCustomer()(o)
            == CustomerGroup(CustomerName(o), TrimmedText(o.customerNumber), TrimmedText(o.customerLatitude),
                             TrimmedText(o.customerLongitude), TrimField(o.customerCountry), 0,
                             {}, [], [], 0.0, Table([], map[]))
  {
  }

  /** The orders that go to the local section (`local`) or to the Siin one. */
  function Section(idKey: IdKey, local: bool): Order -> bool
  {
    if local then LocalFilter(idKey) else SiinFilter(idKey)
  }

  /** The local or the Siin customer section of an output. */
  function Customers(c: Classification, local: bool): Table<string, CustomerGroup>
  {
    if local then c.localCustomers else c.siinCustomers
  }

  /** Each customer section is the final pass over the grouping of its own orders. */
  lemma CustomersOf(s: seq<Order>, idKey: IdKey, local: bool)
    ensures Customers(Classify(s, idKey), local)
            == MapValues(Grouped(Filter(s, Section(idKey, local)), CustomerName, NewCustomer(), AddDelivery(idKey)),
                         FinishCustomer)
  {
    if local {
      assert Classify(s, idKey).localCustomers == MapValues(LocalCards(s, idKey), FinishCustomer);
    } else {
      assert Classify(s, idKey).siinCustomers == MapValues(SiinCards(s, idKey), FinishCustomer);
    }
  }

  /** There is exactly one seller card per distinct trimmed seller name among the complete
      pending orders of Bahrain sellers, in the order in which the names first occur. */
  lemma SellerSection(s: seq<Order>, idKey: IdKey, k: string)
    ensures Classify(s, idKey).sellers.Valid()
    ensures Classify(s, idKey).sellers.keys == FirstSeen(Filter(s, PickupFilter(idKey)), SellerName)
    ensures k in Classify(s, idKey).sellers.entries
            <==> exists i :: 0 <= i < |s| && IsPickup(s[i], idKey) && SellerName(s[i]) == k
  {
    assert Classify(s, idKey).sellers == MapValues(SellerCards(s, idKey), FinishSeller);
    GroupedFilterKeys(s, PickupFilter(idKey), SellerName, NewSeller(CustomerNames(s)), AddPickup(idKey), k);
    PickupWitness(s, idKey, k);
  }

  lemma PickupWitness(s: seq<Order>, idKey: IdKey, k: string)
    ensures (exists i :: 0 <= i < |s| && PickupFilter(idKey)(s[i]) && SellerName(s[i]) == k)
            <==> exists i :: 0 <= i < |s| && IsPickup(s[i], idKey) && SellerName(s[i]) == k
  {
    if exists i :: 0 <= i < |s| && PickupFilter(idKey)(s[i]) && SellerName(s[i]) == k {
      var i :| 0 <= i < |s| && PickupFilter(idKey)(s[i]) && SellerName(s[i]) == k;
      assert IsPickup(s[i], idKey);
    }
    if exists i :: 0 <= i < |s| && IsPickup(s[i], idKey) && SellerName(s[i]) == k {
      var i :| 0 <= i < |s| && IsPickup(s[i], idKey) && SellerName(s[i]) == k;
      assert PickupFilter(idKey)(s[i]);
    }
  }

  /** A seller card's header (name, number, coordinates) is that of the first complete
      pending Bahrain order of that seller; later orders never overwrite it. */
  lemma SellerHeader(s: seq<Order>, idKey: IdKey, k: string)
    requires k in Classify(s, idKey).sellers.entries
    ensures exists i ::
              && 0 <= i < |s| && IsPickup(s[i], idKey) && SellerName(s[i]) == k
              && (forall j :: 0 <= j < i ==> !(IsPickup(s[j], idKey) && SellerName(s[j]) == k))
              && var g := Classify(s, idKey).sellers.entries[k];
                 && g.name == k
                 && g.number == TrimmedText(s[i].sellerNumber)
                 && g.latitude == TrimmedText(s[i].sellerLatitude)
                 && g.longitude == TrimmedText(s[i].sellerLongitude)
  {
    var t := SellerCards(s, idKey);
    assert Classify(s, idKey).sellers == MapValues(t, FinishSeller);
    SellerCardShape(s, idKey, k);
    FilterSelectHead(s, PickupFilter(idKey), SellerName, k);
    var i :| && 0 <= i < |s| && PickupFilter(idKey)(s[i]) && SellerName(s[i]) == k
             && Select(Filter(s, PickupFilter(idKey)), SellerName, k)[0] == s[i]
             && (forall j :: 0 <= j < i ==> !(PickupFilter(idKey)(s[j]) && SellerName(s[j]) == k));
    assert forall j :: 0 <= j < i ==> !(IsPickup(s[j], idKey) && SellerName(s[j]) == k) by {
      forall j | 0 <= j < i
        ensures !(IsPickup(s[j], idKey) && SellerName(s[j]) == k)
      {
        assert PickupFilter(idKey)(s[j]) == IsPickup(s[j], idKey);
      }
    }
  }

  /** `isAlsoCustomer` holds exactly when the seller's name is the trimmed, non-empty
      customer of some order anywhere in the input, whatever that order's status. */
  lemma SellerIsAlsoCustomer(s: seq<Order>, idKey: IdKey, k: string)
    requires k in Classify(s, idKey).sellers.entries
    ensures Classify(s, idKey).sellers.entries[k].isAlsoCustomer
            <==> exists i :: 0 <= i < |s| && HasCustomer(s[i]) && CustomerName(s[i]) == k
  {
    var t := SellerCards(s, idKey);
    assert Classify(s, idKey).sellers == MapValues(t, FinishSeller);
    SellerCardShape(s, idKey, k);
    KeysOfFilter(s, HasCustomer, CustomerName, k);
  }

  /** A seller card's lines, row indices and ids are those of exactly the seller's pickup
      orders, in input order; `orderCount` is the number of distinct ids, so it never
      exceeds the number of lines, and equals it exactly when no id repeats. */
  lemma SellerCounts(s: seq<Order>, idKey: IdKey, k: string)
    requires k in Classify(s, idKey).sellers.entries
    ensures var g := Classify(s, idKey).sellers.entries[k];
            var xs := SellerOrders(s, idKey, k);
            && g.orders == Lines(xs, PickupLineFor(idKey))
            && g.rowIndices == Lines(xs, DbIdOf)
            && g.orderIds == KeysOf(xs, IdOf(idKey))
            && g.orderCount == |g.orderIds| <= |g.orders| == |g.rowIndices|
            && (g.orderCount == |g.orders| <==> KeysDistinct(xs, IdOf(idKey)))
  {
    var t := SellerCards(s, idKey);
    assert Classify(s, idKey).sellers == MapValues(t, FinishSeller);
    SellerCardShape(s, idKey, k);
    KeysOfCount(SellerOrders(s, idKey, k), IdOf(idKey));
  }

  /** `ordersByCustomer` partitions a seller card's lines by customer: one bucket per
      customer key in first-seen order, each holding that customer's lines in order and the
      flag of the first one, and together holding every line exactly once. */
  lemma SellerBuckets(s: seq<Order>, idKey: IdKey, k: string)
    requires k in Classify(s, idKey).sellers.entries
    ensures var g := Classify(s, idKey).sellers.entries[k];
            var b := g.ordersByCustomer;
            && b.Valid()
            && b.keys == FirstSeen(g.orders, LineCustomerKey)
            && Gathered(g.orders, LineCustomerKey, b.keys) == multiset(g.orders)
            && forall c :: c in b.entries ==>
                 && Select(g.orders, LineCustomerKey, c) != []
                 && b.entries[c] == Bucket(Select(g.orders, LineCustomerKey, c)[0].customerFlag,
                                           Select(g.orders, LineCustomerKey, c))
  {
    var t := SellerCards(s, idKey);
    assert Classify(s, idKey).sellers == MapValues(t, FinishSeller);
    BucketsOf(t.entries[k].orders, LineCustomerKey, LineCustomerFlag);
  }

  /** Grouping lines into buckets by counterpart, stated for any kind of line. */
  lemma BucketsOf<L>(ls: seq<L>, key: L -> string, flag: L -> Glyph)
    ensures var b := Grouped(ls, key, NewBucket(flag), Push());
            && b.Valid()
            && b.keys == FirstSeen(ls, key)
            && Gathered(ls, key, b.keys) == multiset(ls)
            && forall c :: c in b.entries ==>
                 Select(ls, key, c) != [] && b.entries[c] == Bucket(flag(Select(ls, key, c)[0]), Select(ls, key, c))
  {
    GroupedShape(ls, key, NewBucket(flag), Push());
    BucketsPartition(ls, key, flag);
    var b := Grouped(ls, key, NewBucket(flag), Push());
    forall c | c in b.entries
      ensures b.entries[c] == Bucket(flag(Select(ls, key, c)[0]), Select(ls, key, c))
    {
      PushAll(flag(Select(ls, key, c)[0]), Select(ls, key, c));
    }
  }

  /** Every complete picked-up order lands in exactly one of the two customer sections:
      taken together, the two sections' orders are the delivery orders, each once. */
  lemma DeliverySplit(s: seq<Order>, idKey: IdKey)
    ensures multiset(Filter(s, Section(idKey, true))) + multiset(Filter(s, Section(idKey, false)))
            == multiset(Filter(s, DeliveryFilter(idKey)))
  {
    FilterPartition(s, DeliveryFilter(idKey), LocalFilter(idKey), SiinFilter(idKey));
  }

  /** A section holds one card per distinct trimmed customer name among the complete
      picked-up orders whose trimmed customer country is "BH" (local) or anything else
      (Siin), in first-seen order; the seller's country plays no part. */
  lemma CustomerSection(s: seq<Order>, idKey: IdKey, local: bool, k: string)
    ensures Customers(Classify(s, idKey), local).Valid()
    ensures Customers(Classify(s, idKey), local).keys == FirstSeen(Filter(s, Section(idKey, local)), CustomerName)
    ensures k in Customers(Classify(s, idKey), local).entries
            <==> exists i :: && 0 <= i < |s| && IsDelivery(s[i], idKey)
                             && IsLocalCustomer(s[i]) == local && CustomerName(s[i]) == k
  {
    var f := Section(idKey, local);
    CustomersOf(s, idKey, local);
    GroupedFilterKeys(s, f, CustomerName, NewCustomer(), AddDelivery(idKey), k);
    SectionWitness(s, idKey, local, k);
  }

  lemma SectionWitness(s: seq<Order>, idKey: IdKey, local: bool, k: string)
    ensures (exists i :: 0 <= i < |s| && Section(idKey, local)(s[i]) && CustomerName(s[i]) == k)
            <==> exists i :: && 0 <= i < |s| && IsDelivery(s[i], idKey)
                             && IsLocalCustomer(s[i]) == local && CustomerName(s[i]) == k
  {
    var f := Section(idKey, local);
    if exists i :: 0 <= i < |s| && f(s[i]) && CustomerName(s[i]) == k {
      var i :| 0 <= i < |s| && f(s[i]) && CustomerName(s[i]) == k;
      assert IsDelivery(s[i], idKey) && IsLocalCustomer(s[i]) == local;
    }
    if exists i :: 0 <= i < |s| && IsDelivery(s[i], idKey) && IsLocalCustomer(s[i]) == local && CustomerName(s[i]) == k {
      var i :| 0 <= i < |s| && IsDelivery(s[i], idKey) && IsLocalCustomer(s[i]) == local && CustomerName(s[i]) == k;
      assert f(s[i]);
    }
  }

  /** A customer card's header is that of the customer's first delivery order in its
      section; its lines, row indices and ids are those of exactly those orders, in input
      order; `orderCount` counts distinct ids; and `unpaidTotal` is the sum of the totals of
      exactly the lines whose order is not paid (only `Paid === true` counts as paid). */
  lemma CustomerCard(s: seq<Order>, idKey: IdKey, local: bool, k: string)
    requires k in Customers(Classify(s, idKey), local).entries
    ensures var g := Customers(Classify(s, idKey), local).entries[k];
            var xs := Select(Filter(s, Section(idKey, local)), CustomerName, k);
            && xs != []
            && g.name == k
            && g.number == TrimmedText(xs[0].customerNumber)
            && g.latitude == TrimmedText(xs[0].customerLatitude)
            && g.longitude == TrimmedText(xs[0].customerLongitude)
            && g.country == TrimField(xs[0].customerCountry)
            && g.orders == Lines(xs, DeliveryLineFor(idKey))
            && g.rowIndices == Lines(xs, DbIdOf)
            && g.orderIds == KeysOf(xs, IdOf(idKey))
            && g.unpaidTotal == UnpaidSum(g.orders)
            && g.orderCount == |g.orderIds| <= |g.orders| == |g.rowIndices|
            && (g.orderCount == |g.orders| <==> KeysDistinct(xs, IdOf(idKey)))
  {
    CustomersOf(s, idKey, local);
    CustomerCardShape(s, idKey, Section(idKey, local), k);
    KeysOfCount(Select(Filter(s, Section(idKey, local)), CustomerName, k), IdOf(idKey));
  }

  /** The first order of a customer card is the first order in the input that belongs to
      that section and has that customer; later orders never overwrite the header. */
  lemma CustomerHeaderIsFirst(s: seq<Order>, idKey: IdKey, local: bool, k: string)
    requires k in Customers(Classify(s, idKey), local).entries
    ensures Select(Filter(s, Section(idKey, local)), CustomerName, k) != []
    ensures exists i ::
              && 0 <= i < |s| && Section(idKey, local)(s[i]) && CustomerName(s[i]) == k
              && Select(Filter(s, Section(idKey, local)), CustomerName, k)[0] == s[i]
              && (forall j :: 0 <= j < i ==> !(Section(idKey, local)(s[j]) && CustomerName(s[j]) == k))
  {
    CustomersOf(s, idKey, local);
    CustomerCardShape(s, idKey, Section(idKey, local), k);
    FilterSelectHead(s, Section(idKey, local), CustomerName, k);
  }

  /** `ordersBySeller` partitions a customer card's lines by seller, as `ordersByCustomer`
      does for a seller card. */
  lemma CustomerBuckets(s: seq<Order>, idKey: IdKey, local: bool, k: string)
    requires k in Customers(Classify(s, idKey), local).entries
    ensures var g := Customers(Classify(s, idKey), local).entries[k];
            var b := g.ordersBySeller;
            && b.Valid()
            && b.keys == FirstSeen(g.orders, LineSellerKey)
            && Gathered(g.orders, LineSellerKey, b.keys) == multiset(g.orders)
            && forall c :: c in b.entries ==>
                 && Select(g.orders, LineSellerKey, c) != []
                 && b.entries[c] == Bucket(Select(g.orders, LineSellerKey, c)[0].sellerFlag,
                                           Select(g.orders, LineSellerKey, c))
  {
    CustomersOf(s, idKey, local);
    var t := Grouped(Filter(s, Section(idKey, local)), CustomerName, NewCustomer(), AddDelivery(idKey));
    BucketsOf(t.entries[k].orders, LineSellerKey, LineSellerFlag);
  }

  /** A status counter holds exactly the trimmed sellers of the Bahrain sellers' orders with
      that status; orders of other sellers never reach it. */
  lemma StatusSellersMembers(s: seq<Order>, status: Field, x: Field)
    ensures x in StatusSellers(s, status)
            <==> exists i :: && 0 <= i < |s| && IsBahrainSeller(s[i]) && Status(s[i]) == status
                             && TrimField(s[i].seller) == x
  {
    KeysOfFilter(s, StatusFilter(status), TrimmedSeller, x);
  }

  /** An order of a seller outside Bahrain changes no counter, and an order of a Bahrain
      seller adds its seller to the counter of its own status only. */
  lemma CounterStep(s: seq<Order>, o: Order, status: Field)
    ensures StatusSellers(s + [o], status)
            == StatusSellers(s, status) + (if IsBahrainSeller(o) && Status(o) == status then {TrimField(o.seller)} else {})
  {
    KeysOfFilterAppend(s, o, StatusFilter(status), TrimmedSeller);
  }

  /** Which section a delivery order lands in depends on its customer's country only: the
      seller's country plays no part. */
  lemma SellerCountryIgnored(o: Order, idKey: IdKey, c: Field)
    ensures LocalFilter(idKey)(o.(sellerCountry := c)) == LocalFilter(idKey)(o)
    ensures SiinFilter(idKey)(o.(sellerCountry := c)) == SiinFilter(idKey)(o)
  {
  }
}
