/** The ordering and text decisions of the dashboard's section renderers: the annotation and
    sort of the pickup section, the legacy pickup sort, the order-count sort of the two
    delivery sections, and the item text shown on a card line. The HTML they build is not
    modelled. */
module Renderer {
  import opened JsText
  import opened Orders
  import opened Grouping
  import opened Classifier
  import opened Sorting
  import opened Route

  /** A seller card with the two properties the pickup renderer adds to it. */
  datatype PickupStop = PickupStop(group: SellerGroup, distance: real, hasOwnItems: bool)

  /** The annotation of one card: its distance from the driver and whether the seller has
      picked-up items of their own to receive. */
  predicate Annotated(data: seq<Order>, geo: Geo, g: SellerGroup, stop: PickupStop)
  {
    && stop.group == g
    && stop.distance == DistanceFromDriver(geo, g.latitude, g.longitude)
    && stop.hasOwnItems == HasOwnItems(data, g.isAlsoCustomer, Text(g.name))
  }

  function StopOrder(s: PickupStop): SortKey
  {
    StopKey(s.hasOwnItems, s.distance)
  }

  /** The `sellersArray.forEach(seller => { seller.distance = ...; seller.hasOwnItems = ...
      })` pass, writing each card's annotation into its slot of `stops`. */
  method AnnotateSellers(cards: seq<SellerGroup>, data: array<Order>, geo: Geo) returns (stops: array<PickupStop>)
    ensures fresh(stops) && stops.Length == |cards|
    ensures forall i :: 0 <= i < |cards| ==> Annotated(data[..], geo, cards[i], stops[i])
  {
    var zero := PickupStop(SellerGroup("", "", "", "", 0, false, {}, [], [], Table([], map[])), 0.0, false);
    stops := new PickupStop[|cards|](_ => zero);
    var i := 0;
    while i < |cards|
      invariant 0 <= i <= |cards|
      invariant forall j :: 0 <= j < i ==> Annotated(data[..], geo, cards[j], stops[j])
    {
      var seller := cards[i];
      var distance := DistanceFromDriver(geo, seller.latitude, seller.longitude);
      var hasOwnItems := ComputeHasOwnItems(data, seller.isAlsoCustomer, Text(seller.name));
      stops[i] := PickupStop(seller, distance, hasOwnItems);
      i := i + 1;
    }
  }

  /** `renderLocalPickupSection` of the dashboard service up to the HTML: annotate every
      card, then sort the cards in place with the route comparator. */
  method OrderPickupSection(cards: seq<SellerGroup>, data: array<Order>, geo: Geo) returns (stops: array<PickupStop>)
    ensures stops.Length == |cards|
    ensures exists annotated: seq<PickupStop> ::
              && |annotated| == |cards|
              && (forall i :: 0 <= i < |cards| ==> Annotated(data[..], geo, cards[i], annotated[i]))
              && stops[..] == Sort(annotated, StopOrder)
  {
    stops := AnnotateSellers(cards, data, geo);
    ghost var annotated := stops[..];
    InsertionSort(stops, StopOrder);
  }

  /** Sorted by the route comparator, the stops with items of their own come first, the
      distance never decreases within either class, and no stop is added or dropped. */
  lemma PickupSectionOrder(annotated: seq<PickupStop>)
    ensures var r := Sort(annotated, StopOrder);
            && multiset(r) == multiset(annotated)
            && (forall i, j :: 0 <= i < j < |r| && r[j].hasOwnItems ==> r[i].hasOwnItems)
            && (forall i, j :: 0 <= i < j < |r| && r[i].hasOwnItems == r[j].hasOwnItems ==>
                  r[i].distance <= r[j].distance)
  {
    var r := Sort(annotated, StopOrder);
    SortSortedPermutation(annotated, StopOrder);
    forall i, j | 0 <= i < j < |r|
      ensures r[j].hasOwnItems ==> r[i].hasOwnItems
      ensures r[i].hasOwnItems == r[j].hasOwnItems ==> r[i].distance <= r[j].distance
    {
      StopKeyOrder(r[i].hasOwnItems, r[i].distance, r[j].hasOwnItems, r[j].distance);
    }
  }

  /** The legacy comparator: sellers who are also customers go last, all others compare
      equal. */
  function LegacyCompare(a: SellerGroup, b: SellerGroup): int
  {
    if a.isAlsoCustomer && !b.isAlsoCustomer then 1
    else if !a.isAlsoCustomer && b.isAlsoCustomer then -1
    else 0
  }

  function LegacyOrder(g: SellerGroup): SortKey
  {
    SortKey(if g.isAlsoCustomer then 1 else 0, 0.0)
  }

  /** The legacy comparator compares exactly the key `LegacyOrder`. */
  lemma LegacyCompareIsLegacyOrder(a: SellerGroup, b: SellerGroup)
    ensures LegacyCompare(a, b) <= 0 <==> KeyLe(LegacyOrder(a), LegacyOrder(b))
    ensures LegacyCompare(a, b) == 0 <==> LegacyOrder(a) == LegacyOrder(b)
  {
  }

  /** The legacy `renderLocalPickupSection` sort of the cards, in place. */
  method LegacySortSellers(cards: array<SellerGroup>)
    modifies cards
    ensures cards[..] == Sort(old(cards[..]), LegacyOrder)
  {
    InsertionSort(cards, LegacyOrder);
  }

  /** After the legacy sort every dual-role seller comes after every other seller, and
      both kinds keep their input order, because the sort is stable. */
  lemma LegacySortOrder(cards: seq<SellerGroup>)
    ensures var r := Sort(cards, LegacyOrder);
            && multiset(r) == multiset(cards)
            && (forall i, j :: 0 <= i < j < |r| && r[i].isAlsoCustomer ==> r[j].isAlsoCustomer)
            && Filter(r, SameKey(LegacyOrder, SortKey(1, 0.0))) == Filter(cards, SameKey(LegacyOrder, SortKey(1, 0.0)))
            && Filter(r, SameKey(LegacyOrder, SortKey(0, 0.0))) == Filter(cards, SameKey(LegacyOrder, SortKey(0, 0.0)))
  {
    SortSortedPermutation(cards, LegacyOrder);
    SortStable(cards, LegacyOrder, SortKey(1, 0.0));
    SortStable(cards, LegacyOrder, SortKey(0, 0.0));
  }

  /** The key of `(a, b) => b.orderCount - a.orderCount`: the larger count first. */
  function DeliveryOrder(g: CustomerGroup): SortKey
  {
    SortKey(-(g.orderCount as int), 0.0)
  }

  lemma DeliveryCompareIsDeliveryOrder(a: CustomerGroup, b: CustomerGroup)
    ensures b.orderCount - a.orderCount <= 0 <==> KeyLe(DeliveryOrder(a), DeliveryOrder(b))
    ensures b.orderCount - a.orderCount == 0 <==> DeliveryOrder(a) == DeliveryOrder(b)
  {
  }

  /** `customersArray.sort((a, b) => b.orderCount - a.orderCount)`, in place; the same for
      the local and the Siin section. */
  method SortCustomersByCount(cards: array<CustomerGroup>)
    modifies cards
    ensures cards[..] == Sort(old(cards[..]), DeliveryOrder)
  {
    InsertionSort(cards, DeliveryOrder);
  }

  /** Sorted that way, the order counts never increase, no card is added or dropped, and
      cards with equal counts keep their input order. */
  lemma DeliverySortOrder(cards: seq<CustomerGroup>, count: nat)
    ensures var r := Sort(cards, DeliveryOrder);
            && multiset(r) == multiset(cards)
            && (forall i, j :: 0 <= i < j < |r| ==> r[i].orderCount >= r[j].orderCount)
            && Filter(r, SameKey(DeliveryOrder, SortKey(-(count as int), 0.0))) == Filter(cards, SameKey(DeliveryOrder, SortKey(-(count as int), 0.0)))
  {
    SortSortedPermutation(cards, DeliveryOrder);
    SortStable(cards, DeliveryOrder, SortKey(-(count as int), 0.0));
  }

  /** What a card line shows for an item: the text, or the `TypeError` that
      `order.item.startsWith` raises when the line has no item. */
  datatype Shown = Shown(text: string) | Throws

  predicate StartsWithOne(s: string)
  {
    |s| >= 3 && s[..3] == "1x "
  }

  /** `order.item.startsWith("1x ") ? order.item.substring(3) : order.item`. */
  function DisplayItem(item: Field): (r: Shown)
    ensures item.Missing? <==> r.Throws?
  {
    match item
    case Missing => Throws
    case Text(s) => if StartsWithOne(s) then Shown(s[3..]) else Shown(s)
  }

  /** Exactly one leading "1x " is removed, even when another follows it, and the shown text
      with "1x " put back in front is the item when one was removed. */
  lemma DisplayItemStripsOnce(t: string)
    ensures DisplayItem(Text("1x " + t)) == Shown(t)
    ensures !StartsWithOne(t) ==> DisplayItem(Text(t)) == Shown(t)
  {
    assert ("1x " + t)[..3] == "1x ";
    assert ("1x " + t)[3..] == t;
  }

  lemma DisplayItemRestores(item: string)
    ensures DisplayItem(Text(item)).Shown?
    ensures StartsWithOne(item) ==> "1x " + DisplayItem(Text(item)).text == item
    ensures !StartsWithOne(item) ==> DisplayItem(Text(item)).text == item
  {
    if StartsWithOne(item) {
      assert item == item[..3] + item[3..];
    }
  }
}
