/**
  The request records and the downstream records they spawn, held by one
  object whose actions update them in place, loop by loop, as the request
  model's methods do. Each method is proved against the function of
  `Workflow` that specifies it.
 */
module Store {
  import opened Wrappers
  import opened Requests
  import opened Workflow

  class RequestStore {
    var requests: map<RequestId, Request>
    var purchaseOrders: seq<PurchaseOrder>
    var orderLines: seq<OrderLine>
    var productions: seq<Production>
    var ecos: seq<Eco>

    /** The store's contents as a value. */
    function Db(): Database
      reads this
    {
      Database(requests, purchaseOrders, orderLines, productions, ecos)
    }

    constructor ()
      ensures Db() == Database(map[], [], [], [], [])
    {
      requests, purchaseOrders, orderLines, productions, ecos := map[], [], [], [], [];
    }

    /** Stores a new request under the fresh identifier `id`. */
    method Create(id: RequestId, name: Option<string>, sequenceName: Option<string>,
                  product: ProductId, quantity: real, action: Option<Action>,
                  vendor: Option<PartnerId>)
      requires id !in requests
      modifies this
      ensures Db() == old(Db()).(requests := old(requests)[id := NewRequest(name, sequenceName, product, quantity, action, vendor)])
    {
      requests := requests[id := NewRequest(name, sequenceName, product, quantity, action, vendor)];
    }

    /** Moves every record of the batch that is in `from` to `to`, skipping the others. */
    method AdvanceBatch(batch: seq<RequestId>, from: State, to: State)
      requires InStore(requests, batch)
      modifies this
      ensures Db() == old(Db()).(requests := Advance(old(requests), batch, from, to))
    {
      var i := 0;
      while i < |batch|
        invariant 0 <= i <= |batch|
        invariant Db() == old(Db()).(requests := Advance(old(requests), batch[..i], from, to))
      {
        var id := batch[i];
        assert batch[..i + 1] == batch[..i] + [id];
        AdvanceSnoc(old(requests), batch[..i], id, from, to);
        if requests[id].state == from {
          requests := requests[id := requests[id].(state := to)];
        }
        i := i + 1;
      }
      assert batch[..|batch|] == batch;
    }

    /** Submits the draft records of the batch for approval. */
    method ActionConfirm(batch: seq<RequestId>)
      requires InStore(requests, batch)
      modifies this
      ensures Db() == old(Db()).(requests := Advance(old(requests), batch, Draft, Pending))
    {
      AdvanceBatch(batch, Draft, Pending);
    }

    /** Approves the pending records of the batch. */
    method ActionApprove(batch: seq<RequestId>)
      requires InStore(requests, batch)
      modifies this
      ensures Db() == old(Db()).(requests := Advance(old(requests), batch, Pending, Approved))
    {
      AdvanceBatch(batch, Pending, Approved);
    }

    /** Closes the ordered records of the batch. */
    method ActionDone(batch: seq<RequestId>)
      requires InStore(requests, batch)
      modifies this
      ensures Db() == old(Db()).(requests := Advance(old(requests), batch, Ordered, Done))
    {
      AdvanceBatch(batch, Ordered, Done);
    }

    /** Refuses the batch's single record, whatever its state. */
    method ActionRefuse(batch: seq<RequestId>) returns (error: Option<Error>)
      requires InStore(requests, batch)
      modifies this
      ensures match SetOne(old(requests), batch, Refused)
              case Failure(e) => error == Some(e) && Db() == old(Db())
              case Success(m) => error.None? && Db() == old(Db()).(requests := m)
    {
      if |batch| != 1 {
        return Some(NotSingleton(|batch|));
      }
      requests := requests[batch[0] := requests[batch[0]].(state := Refused)];
      error := None;
    }

    /** Returns the batch's single record to draft, whatever its state. */
    method ActionReset(batch: seq<RequestId>) returns (error: Option<Error>)
      requires InStore(requests, batch)
      modifies this
      ensures match SetOne(old(requests), batch, Draft)
              case Failure(e) => error == Some(e) && Db() == old(Db())
              case Success(m) => error.None? && Db() == old(Db()).(requests := m)
    {
      if |batch| != 1 {
        return Some(NotSingleton(|batch|));
      }
      requests := requests[batch[0] := requests[batch[0]].(state := Draft)];
      error := None;
    }

    /**
      Deletes the draft records of the batch and leaves the others in place;
      stops with an error at a draft record that a manufacturing order references.
     */
    method Unlink(batch: seq<RequestId>) returns (error: Option<Error>)
      requires InStore(requests, batch) && Distinct(batch)
      modifies this
      ensures Db() == old(Db()).(requests := Unlinked(old(requests), old(productions), batch).requests)
      ensures error == Unlinked(old(requests), old(productions), batch).error
    {
      var i := 0;
      while i < |batch|
        invariant 0 <= i <= |batch|
        invariant Db() == old(Db()).(requests := Unlinked(old(requests), productions, batch[..i]).requests)
        invariant Unlinked(old(requests), productions, batch[..i]).error.None?
      {
        var id := batch[i];
        assert batch[..i + 1] == batch[..i] + [id];
        assert id !in batch[..i] by {
          forall k | 0 <= k < i ensures batch[k] != id { }
        }
        assert id in batch;
        UnlinkedEffect(old(requests), productions, batch[..i]);
        UnlinkedSnoc(old(requests), productions, batch[..i], id);
        if requests[id].state == Draft {
          if Referenced(productions, id) {
            UnlinkedStopped(old(requests), productions, batch[..i + 1], batch[i + 1..]);
            assert batch[..i + 1] + batch[i + 1..] == batch;
            return Some(Restricted(id));
          }
          requests := requests - {id};
        }
        i := i + 1;
      }
      assert batch[..|batch|] == batch;
      error := None;
    }

    /** Purchase fulfilment of the (already ordered) record `id`; returns the updated accepted list. */
    method ProcessPurchase(id: RequestId, accepted: seq<Accepted>) returns (accepted': seq<Accepted>)
      requires id in requests && requests[id].vendor.Some? && AcceptedIn(Db(), accepted)
      modifies this
      ensures (Db(), accepted') == PurchaseStep(old(Db()), accepted, id)
    {
      var vendor := requests[id].vendor.value;
      var k := 0;
      while k < |accepted|
        invariant 0 <= k <= |accepted|
        invariant forall j :: 0 <= j < k ==> accepted[j].vendor != vendor
        invariant Db() == old(Db())
      {
        if accepted[k].vendor == vendor {
          requests := requests[id := requests[id].(purchaseOrder := requests[accepted[k].request].purchaseOrder)];
          break;
        }
        k := k + 1;
      }
      ghost var held :=
        match FirstMatch(accepted, vendor)
        case Some(j) => old(requests)[accepted[j].request].purchaseOrder
        case None => old(requests)[id].purchaseOrder;
      assert k < |accepted| ==> FirstMatch(accepted, vendor) == Some(k);
      assert k == |accepted| ==> FirstMatch(accepted, vendor).None?;
      assert requests == old(requests)[id := old(requests)[id].(purchaseOrder := held)];
      accepted' := accepted;
      if requests[id].purchaseOrder.None? {
        accepted' := accepted + [Accepted(id, vendor)];
        purchaseOrders := purchaseOrders + [PurchaseOrder(vendor)];
        requests := requests[id := requests[id].(purchaseOrder := Some(|purchaseOrders| - 1))];
      }
      var rec := requests[id];
      orderLines := orderLines + [OrderLine(rec.purchaseOrder.value, rec.product, rec.quantity)];
      ghost var r := PurchaseStep(old(Db()), accepted, id);
      assert r.1 == accepted';
      assert r.0.requests == requests;
      assert r.0.purchaseOrders == purchaseOrders;
      assert r.0.orderLines == orderLines;
    }

    /** Manufacture fulfilment of the record `id`. */
    method ProcessManufacture(id: RequestId)
      requires id in requests
      modifies this
      ensures Db() == ManufactureStep(old(Db()), id)
    {
      var rec := requests[id];
      productions := productions + [Production(rec.product, rec.quantity, id)];
      requests := requests[id := rec.(productionOrder := Some(|productions| - 1))];
    }

    /** Design fulfilment of the record `id`. */
    method ProcessDesign(id: RequestId)
      requires id in requests
      modifies this
      ensures Db() == DesignStep(old(Db()), id)
    {
      var rec := requests[id];
      ecos := ecos + [Eco(rec.name, rec.product, id)];
      requests := requests[id := rec.(eco := Some(|ecos| - 1))];
    }

    /**
      One pass of the order loop: skips the record `id` unless it is approved,
      reports the first guard it fails, and otherwise marks it ordered and
      fulfils it by its action.
     */
    method OrderOne(id: RequestId, accepted: seq<Accepted>) returns (accepted': seq<Accepted>, error: Option<Error>)
      requires id in requests && AcceptedIn(Db(), accepted)
      modifies this
      ensures match OrderStep(old(Db()), accepted, id)
              case Failure(e) => error == Some(e) && Db() == old(Db())
              case Success((db', a)) => error.None? && Db() == db' && accepted' == a
    {
      var rec := requests[id];
      accepted', error := accepted, None;
      if rec.state != Approved {
        return;
      }
      if rec.action == Unset || rec.action == NoAction {
        return accepted, Some(ValidationError(id, rec.name, MissingAction));
      }
      if rec.action == Purchase && rec.vendor.None? {
        return accepted, Some(ValidationError(id, rec.name, MissingVendor));
      }
      if rec.action == Manufacture && rec.quantity == 0.0 {
        return accepted, Some(ValidationError(id, rec.name, MissingQuantity));
      }
      requests := requests[id := rec.(state := Ordered)];
      if rec.action == Purchase {
        accepted' := ProcessPurchase(id, accepted);
      } else if rec.action == Manufacture {
        ProcessManufacture(id);
      } else if rec.action == Design {
        ProcessDesign(id);
      }
    }

    /**
      Orders the approved records of the batch, skipping the others, and stops
      at the first record that fails a guard, returning its error; records
      ordered before it keep their changes.
     */
    method ActionOrder(batch: seq<RequestId>) returns (error: Option<Error>)
      requires InStore(requests, batch)
      modifies this
      ensures Db() == Order(old(Db()), [], batch).db
      ensures error == Order(old(Db()), [], batch).error
    {
      var accepted: seq<Accepted> := [];
      var i := 0;
      while i < |batch|
        invariant 0 <= i <= |batch|
        invariant AcceptedIn(Db(), accepted)
        invariant InStore(requests, batch[i..])
        invariant Order(old(Db()), [], batch) == Order(Db(), accepted, batch[i..])
      {
        assert batch[i..][0] == batch[i] && batch[i..][1..] == batch[i + 1..];
        accepted, error := OrderOne(batch[i], accepted);
        if error.Some? {
          return;
        }
        i := i + 1;
      }
      error := None;
    }
  }
}
