/** "Mark all as picked up" and "mark all as delivered": the status of the listed orders is
    overwritten in the shared order array, then everything is classified again. The service
    copy does this only after the status API has accepted the change; the legacy copy does it
    unconditionally. */
module StatusUpdate {
  import opened JsText
  import opened Orders
  import opened Grouping
  import opened Classifier

  /** The statuses the two buttons write. */
  const PickedUpText: string := "Picked Up"
  const DeliveredText: string := "Delivered"

  /** `data.findIndex(order => order.DbID === id)`: the first position with that `DbID`, or
      -1 when there is none. */
  function FindByDbId(s: seq<Order>, id: Field): (r: int)
    ensures -1 <= r < |s|
    ensures r == -1 <==> forall i :: 0 <= i < |s| ==> s[i].dbId != id
    ensures r >= 0 ==> s[r].dbId == id && forall i :: 0 <= i < r ==> s[i].dbId != id
    decreases |s|
  {
    if s == [] then -1
    else if s[0].dbId == id then 0
    else
      var r := FindByDbId(s[1..], id);
      if r == -1 then -1 else r + 1
  }

  /** One step of the update loop: the first order with `DbID` `id`, if any, gets the new
      status. */
  function SetStatus(s: seq<Order>, id: Field, status: string): (r: seq<Order>)
    ensures |r| == |s|
  {
    var k := FindByDbId(s, id);
    if k == -1 then s else s[k := s[k].(shippingStatus := Text(status))]
  }

  /** The whole update loop `ids.forEach(id => ...)`. */
  function MarkAll(s: seq<Order>, ids: seq<Field>, status: string): (r: seq<Order>)
    ensures |r| == |s|
    decreases |ids|
  {
    if ids == [] then s else SetStatus(MarkAll(s, ids[..|ids| - 1], status), ids[|ids| - 1], status)
  }

  /** Position `i` is the first order with one of the listed ids. */
  ghost predicate Marked(s: seq<Order>, ids: seq<Field>, i: int)
  {
    exists j :: 0 <= j < |ids| && FindByDbId(s, ids[j]) == i
  }

  /** The loop over the ids, each looked up in the array and written in place. */
  method ApplyStatus(data: array<Order>, ids: seq<Field>, status: string)
    modifies data
    ensures data[..] == MarkAll(old(data[..]), ids, status)
  {
    ghost var s := data[..];
    var j := 0;
    while j < |ids|
      invariant 0 <= j <= |ids|
      invariant data[..] == MarkAll(s, ids[..j], status)
    {
      assert ids[..j + 1][..j] == ids[..j];
      var orderIndex := FindByDbId(data[..], ids[j]);
      if orderIndex != -1 {
        data[orderIndex] := data[orderIndex].(shippingStatus := Text(status));
      }
      j := j + 1;
    }
    assert ids[..j] == ids;
  }

  /** A lookup by `DbID` gives the same answer in two arrays with the same ids. */
  lemma {:induction false} FindSameIds(s: seq<Order>, t: seq<Order>, id: Field)
    requires |s| == |t| && forall i :: 0 <= i < |s| ==> s[i].dbId == t[i].dbId
    ensures FindByDbId(s, id) == FindByDbId(t, id)
    decreases |s|
  {
    if s != [] && s[0].dbId != id {
      FindSameIds(s[1..], t[1..], id);
    }
  }

  /** The update in closed form: the first order with each listed id has the new status,
      and every other order, and every other property, is as it was. Ids that match no
      order change nothing. */
  lemma {:induction false} MarkAllAt(s: seq<Order>, ids: seq<Field>, status: string)
    ensures forall i :: 0 <= i < |s| ==>
              MarkAll(s, ids, status)[i] == if Marked(s, ids, i) then s[i].(shippingStatus := Text(status)) else s[i]
    decreases |ids|
  {
    if ids != [] {
      var n := |ids| - 1;
      var t := MarkAll(s, ids[..n], status);
      MarkAllAt(s, ids[..n], status);
      FindSameIds(t, s, ids[n]);
      forall i | 0 <= i < |s|
        ensures MarkAll(s, ids, status)[i] == if Marked(s, ids, i) then s[i].(shippingStatus := Text(status)) else s[i]
      {
        MarkedStep(s, ids, i);
      }
    }
  }

  lemma MarkedStep(s: seq<Order>, ids: seq<Field>, i: int)
    requires ids != []
    ensures Marked(s, ids, i) <==> Marked(s, ids[..|ids| - 1], i) || FindByDbId(s, ids[|ids| - 1]) == i
  {
    var n := |ids| - 1;
    if Marked(s, ids, i) {
      var j :| 0 <= j < |ids| && FindByDbId(s, ids[j]) == i;
      if j < n {
        assert ids[..n][j] == ids[j];
      }
    }
    if Marked(s, ids[..n], i) {
      var j :| 0 <= j < n && FindByDbId(s, ids[..n][j]) == i;
      assert ids[j] == ids[..n][j];
    }
  }

  /** A listed id that matches an order marks exactly its first order; an unmatched id marks
      nothing. */
  lemma MarkedIsFirstMatch(s: seq<Order>, ids: seq<Field>, i: int)
    requires 0 <= i < |s|
    ensures Marked(s, ids, i) <==>
              exists j :: 0 <= j < |ids| && s[i].dbId == ids[j] && forall m :: 0 <= m < i ==> s[m].dbId != ids[j]
  {
    if Marked(s, ids, i) {
      var j :| 0 <= j < |ids| && FindByDbId(s, ids[j]) == i;
      assert s[i].dbId == ids[j];
    }
    if exists j :: 0 <= j < |ids| && s[i].dbId == ids[j] && forall m :: 0 <= m < i ==> s[m].dbId != ids[j] {
      var j :| 0 <= j < |ids| && s[i].dbId == ids[j] && forall m :: 0 <= m < i ==> s[m].dbId != ids[j];
      assert FindByDbId(s, ids[j]) == i;
    }
  }

  /** Applying the same update twice leaves the same array as applying it once. */
  lemma MarkAllIdempotent(s: seq<Order>, ids: seq<Field>, status: string)
    ensures MarkAll(MarkAll(s, ids, status), ids, status) == MarkAll(s, ids, status)
  {
    var t := MarkAll(s, ids, status);
    MarkAllAt(s, ids, status);
    MarkAllAt(t, ids, status);
    forall j | 0 <= j < |ids|
      ensures FindByDbId(t, ids[j]) == FindByDbId(s, ids[j])
    {
      FindSameIds(t, s, ids[j]);
    }
    forall i | 0 <= i < |s|
      ensures Marked(t, ids, i) <==> Marked(s, ids, i)
    {
      if Marked(t, ids, i) {
        var j :| 0 <= j < |ids| && FindByDbId(t, ids[j]) == i;
      }
      if Marked(s, ids, i) {
        var j :| 0 <= j < |ids| && FindByDbId(s, ids[j]) == i;
        assert FindByDbId(t, ids[j]) == i;
      }
    }
  }

  /** Statuses are compared trimmed and lower-cased, so the two written statuses read as
      "picked up" and "delivered". */
  lemma WrittenStatuses(o: Order)
    ensures Status(o.(shippingStatus := Text(PickedUpText))) == PickedUpStatus
    ensures Status(o.(shippingStatus := Text(DeliveredText))) == DeliveredStatus
  {
    PickedUpReads();
    DeliveredReads();
  }

  lemma PickedUpReads()
    ensures Lower(Trim(PickedUpText)) == "picked up"
  {
    TrimNothing(PickedUpText);
    LowerPickedUp();
  }

  lemma LowerPickedUp()
    ensures Lower(PickedUpText) == "picked up"
  {
    LowerAt(PickedUpText);
  }

  lemma DeliveredReads()
    ensures Lower(Trim(DeliveredText)) == "delivered"
  {
    TrimNothing(DeliveredText);
    LowerDelivered();
  }

  lemma LowerDelivered()
    ensures Lower(DeliveredText) == "delivered"
  {
    LowerAt(DeliveredText);
  }

  /** After "mark all as picked up" no marked order is pending any more, so none of them
      stays on a seller card; after "mark all as delivered" no marked order is on any card. */
  lemma MarkedLeaveCards(s: seq<Order>, ids: seq<Field>, idKey: IdKey, i: int)
    requires 0 <= i < |s| && Marked(s, ids, i)
    ensures !IsPickup(MarkAll(s, ids, PickedUpText)[i], idKey)
    ensures !IsPickup(MarkAll(s, ids, DeliveredText)[i], idKey)
    ensures !IsDelivery(MarkAll(s, ids, DeliveredText)[i], idKey)
  {
    MarkAllAt(s, ids, PickedUpText);
    MarkAllAt(s, ids, DeliveredText);
    WrittenStatuses(s[i]);
  }

  /** So after "mark all as picked up" the orders behind the seller cards are exactly the
      pickup orders that were not marked. */
  lemma PickupsAfterMarking(s: seq<Order>, ids: seq<Field>, idKey: IdKey, o: Order)
    ensures o in Filter(MarkAll(s, ids, PickedUpText), PickupFilter(idKey)) <==>
              exists i :: 0 <= i < |s| && !Marked(s, ids, i) && s[i] == o && IsPickup(o, idKey)
  {
    var t := MarkAll(s, ids, PickedUpText);
    MarkAllAt(s, ids, PickedUpText);
    if o in Filter(t, PickupFilter(idKey)) {
      var i :| 0 <= i < |t| && t[i] == o;
      if Marked(s, ids, i) {
        MarkedLeaveCards(s, ids, idKey, i);
      }
    }
    if exists i :: 0 <= i < |s| && !Marked(s, ids, i) && s[i] == o && IsPickup(o, idKey) {
      var i :| 0 <= i < |s| && !Marked(s, ids, i) && s[i] == o && IsPickup(o, idKey);
      assert t[i] == o;
      assert PickupFilter(idKey)(o);
    }
  }

  /** What a mark-all call leads to: the API refused or failed, so nothing changed, or the
      orders were updated and classified again. */
  datatype Outcome = Failed | Reclassified(c: Classification)

  /** The service's `markAllAsPickedUp` and `markAllAsDelivered`: `apiOk` is whether the
      status API answered with success. On success the listed orders get the status, then
      the service's `processOrderData` normalises the array in place and classifies it. */
  method ServiceMarkAll(data: array<Order>, ids: seq<Field>, status: string, apiOk: bool)
    returns (outcome: Outcome)
    modifies data
    ensures !apiOk ==> outcome == Failed && data[..] == old(data[..])
    ensures apiOk ==>
              && (forall i :: 0 <= i < data.Length ==>
                    data[i] == Normalize(ServiceRules, MarkAll(old(data[..]), ids, status)[i]))
              && outcome == Reclassified(Classify(data[..], ByDbId))
  {
    if !apiOk {
      outcome := Failed;
      return;
    }
    ApplyStatus(data, ids, status);
    var c := ServiceProcessOrderData(data);
    outcome := Reclassified(c);
  }

  /** The legacy `markAllAsPickedUp` and `markAllAsDelivered`: no API call, the update and
      then the legacy classifier. */
  method LegacyMarkAll(data: array<Order>, ids: seq<Field>, status: string) returns (c: Classification)
    modifies data
    ensures data[..] == MarkAll(old(data[..]), ids, status)
    ensures c == Classify(data[..], ByOrderId)
  {
    ApplyStatus(data, ids, status);
    c := ProcessOrderData(data, ByOrderId);
  }
}
