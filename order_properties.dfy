/**
  What one call of the order action does to the whole batch: which records it
  skips, when it raises and what it leaves behind then, what each fulfilled
  request references afterwards, how purchase requests share orders by
  vendor, and which downstream records it creates.
 */
module OrderProperties {
  import opened Wrappers
  import opened Requests
  import opened Workflow

  // ---------------------------------------------------------------------------
  // skipping and stopping

  /** A record outside the batch, or not approved, is left exactly as it was. */
  lemma {:induction false} OrderSkips(db: Database, accepted: seq<Accepted>, batch: seq<RequestId>, id: RequestId)
    requires InStore(db.requests, batch) && AcceptedIn(db, accepted)
    requires id in db.requests && (id !in batch || db.requests[id].state != Approved)
    ensures Order(db, accepted, batch).db.requests[id] == db.requests[id]
    decreases |batch|
  {
    if batch != [] {
      match OrderStep(db, accepted, batch[0])
      case Failure(_) =>
      case Success((db', accepted')) =>
        assert id !in batch ==> id !in batch[1..];
        OrderSkips(db', accepted', batch[1..], id);
    }
  }

  /**
    Running the order action over `pre + post` is running it over `pre` and,
    unless that raised, continuing over `post` with what `pre` left behind.
   */
  lemma {:induction false} OrderSplit(db: Database, accepted: seq<Accepted>, pre: seq<RequestId>, post: seq<RequestId>)
    requires InStore(db.requests, pre + post) && AcceptedIn(db, accepted)
    ensures InStore(db.requests, pre)
    ensures var o := Order(db, accepted, pre);
            && InStore(o.db.requests, post)
            && Order(db, accepted, pre + post) == if o.error.Some? then o else Order(o.db, o.accepted, post)
    decreases |pre|
  {
    assert forall k :: 0 <= k < |pre| ==> (pre + post)[k] == pre[k];
    assert forall k :: 0 <= k < |post| ==> (pre + post)[|pre| + k] == post[k];
    if pre == [] {
      assert pre + post == post;
    } else {
      assert (pre + post)[0] == pre[0] && (pre + post)[1..] == pre[1..] + post;
      match OrderStep(db, accepted, pre[0])
      case Failure(_) =>
      case Success((db', accepted')) =>
        OrderSplit(db', accepted', pre[1..], post);
    }
  }

  /**
    An approved record that fails a guard stops the call with that guard's
    error: the record stays as it was (still approved), no later record of the
    batch is touched, and the records fulfilled before it keep their changes.
   */
  lemma OrderStopsAtFailure(db: Database, accepted: seq<Accepted>, batch: seq<RequestId>, k: nat)
    requires InStore(db.requests, batch) && AcceptedIn(db, accepted) && k < |batch|
    requires batch[k] !in batch[..k]
    requires db.requests[batch[k]].state == Approved && Validate(batch[k], db.requests[batch[k]]).Some?
    requires Order(db, accepted, batch[..k]).error.None?
    ensures var o := Order(db, accepted, batch[..k]);
            && o.db.requests[batch[k]] == db.requests[batch[k]]
            && Order(db, accepted, batch)
                 == OrderOutcome(o.db, o.accepted, Validate(batch[k], db.requests[batch[k]]))
  {
    var o := Order(db, accepted, batch[..k]);
    assert Order(db, accepted, batch) == Order(o.db, o.accepted, batch[k..]) by {
      assert batch == batch[..k] + batch[k..];
      OrderSplit(db, accepted, batch[..k], batch[k..]);
    }
    assert o.db.requests[batch[k]] == db.requests[batch[k]] by {
      OrderSkips(db, accepted, batch[..k], batch[k]);
    }
    assert batch[k..][0] == batch[k];
    OrderFailingHead(o.db, o.accepted, batch[k..]);
  }

  /** A batch whose first record is approved and fails a guard stops at once with that guard's error. */
  lemma OrderFailingHead(db: Database, accepted: seq<Accepted>, batch: seq<RequestId>)
    requires InStore(db.requests, batch) && AcceptedIn(db, accepted) && batch != []
    requires db.requests[batch[0]].state == Approved && Validate(batch[0], db.requests[batch[0]]).Some?
    ensures Order(db, accepted, batch) == OrderOutcome(db, accepted, Validate(batch[0], db.requests[batch[0]]))
  {
  }

  /** When no approved record of the batch fails a guard, the call raises nothing. */
  lemma {:induction false} OrderSucceedsWhenValid(db: Database, accepted: seq<Accepted>, batch: seq<RequestId>)
    requires InStore(db.requests, batch) && AcceptedIn(db, accepted)
    requires forall k :: 0 <= k < |batch| && db.requests[batch[k]].state == Approved ==>
               Validate(batch[k], db.requests[batch[k]]).None?
    ensures Order(db, accepted, batch).error.None?
    decreases |batch|
  {
    if batch != [] {
      match OrderStep(db, accepted, batch[0])
      case Failure(_) =>
      case Success((db', accepted')) =>
        var rest := batch[1..];
        forall k | 0 <= k < |rest| && db'.requests[rest[k]].state == Approved
          ensures Validate(rest[k], db'.requests[rest[k]]).None?
        {
          assert rest[k] == batch[k + 1];
        }
        OrderSucceedsWhenValid(db', accepted', rest);
    }
  }

  /**
    When the call raises, the error is the failed guard of a record of the
    batch that was approved and that the call left as it was.
   */
  lemma {:induction false} OrderFailureNamesRecord(db: Database, accepted: seq<Accepted>, batch: seq<RequestId>)
    requires InStore(db.requests, batch) && AcceptedIn(db, accepted)
    ensures var o := Order(db, accepted, batch);
            o.error.Some? ==>
              var e := o.error.value;
              && e.ValidationError?
              && e.request in batch && e.request in db.requests
              && db.requests[e.request].state == Approved
              && Validate(e.request, db.requests[e.request]) == Some(e)
              && o.db.requests[e.request] == db.requests[e.request]
    decreases |batch|
  {
    if batch != [] {
      match OrderStep(db, accepted, batch[0])
      case Failure(_) =>
      case Success((db', accepted')) =>
        OrderFailureNamesRecord(db', accepted', batch[1..]);
    }
  }

  // ---------------------------------------------------------------------------
  // fulfilment

  /** What fulfilment established stays true as the database grows further. */
  lemma FulfilledLater(id: RequestId, before: Request, after: Request, start: Database, mid: Database, now: Database)
    requires Fulfilled(id, before, after, start, mid) && Extends(mid, now)
    ensures Fulfilled(id, before, after, start, now)
  {
  }

  /** ... and stays true measured from an earlier database. */
  lemma FulfilledSince(id: RequestId, before: Request, after: Request, origin: Database, start: Database, now: Database)
    requires Fulfilled(id, before, after, start, now) && Extends(origin, start)
    ensures Fulfilled(id, before, after, origin, now)
  {
  }

  /**
    When the call raises nothing, every approved record of the batch ends up
    ordered, with exactly the downstream reference of its action, and nothing
    else about it changed.
   */
  lemma {:induction false} OrderFulfils(db: Database, accepted: seq<Accepted>, batch: seq<RequestId>, id: RequestId)
    requires InStore(db.requests, batch) && AcceptedIn(db, accepted)
    requires id in batch && id in db.requests && db.requests[id].state == Approved
    requires Order(db, accepted, batch).error.None?
    ensures var o := Order(db, accepted, batch);
            Fulfilled(id, db.requests[id], o.db.requests[id], db, o.db)
    decreases |batch|
  {
    var o := Order(db, accepted, batch);
    match OrderStep(db, accepted, batch[0])
    case Failure(_) =>
    case Success((db', accepted')) =>
      assert o == Order(db', accepted', batch[1..]);
      if batch[0] == id {
        OrderSkips(db', accepted', batch[1..], id);
        FulfilledLater(id, db.requests[id], db'.requests[id], db, db', o.db);
      } else {
        assert id in batch[1..];
        OrderFulfils(db', accepted', batch[1..], id);
        FulfilledSince(id, db.requests[id], o.db.requests[id], db, db', o.db);
      }
  }

  // ---------------------------------------------------------------------------
  // consolidation of purchase requests by vendor

  /**
    The accepted entries of an order call: each names a record that the call
    has ordered and that holds an existing purchase order for the entry's vendor.
   */
  ghost predicate GroupsWellFormed(db: Database, accepted: seq<Accepted>) {
    forall a :: a in accepted ==>
      && a.request in db.requests
      && db.requests[a.request].state == Ordered
      && HoldsOrderFor(db, a.request, a.vendor)
  }

  /** Record `id` holds an existing purchase order whose vendor is `vendor`. */
  ghost predicate HoldsOrderFor(db: Database, id: RequestId, vendor: PartnerId)
    requires id in db.requests
  {
    var order := db.requests[id].purchaseOrder;
    order.Some? && order.value < |db.purchaseOrders| && db.purchaseOrders[order.value].vendor == vendor
  }

  /** The first match in a list is still the first match once the list grows. */
  lemma FirstMatchPrefix(accepted: seq<Accepted>, longer: seq<Accepted>, vendor: PartnerId)
    requires accepted <= longer && FirstMatch(accepted, vendor).Some?
    ensures FirstMatch(longer, vendor) == FirstMatch(accepted, vendor)
  {
  }

  /** A vendor without an entry gets the entry appended for it. */
  lemma FirstMatchAppended(accepted: seq<Accepted>, a: Accepted)
    requires FirstMatch(accepted, a.vendor).None?
    ensures FirstMatch(accepted + [a], a.vendor) == Some(|accepted|)
  {
    var longer := accepted + [a];
    assert forall j :: 0 <= j < |accepted| ==> longer[j] == accepted[j];
    assert longer[|accepted|] == a;
  }

  /**
    One purchase fulfilment keeps the entries well formed, and a record that
    had no order, or whose vendor already has an entry, ends up holding the
    order of its vendor's first entry, an order for its vendor.
   */
  lemma PurchaseStepGroups(db: Database, accepted: seq<Accepted>, id: RequestId, vendor: PartnerId)
    requires id in db.requests && db.requests[id].vendor == Some(vendor)
    requires db.requests[id].state == Ordered
    requires AcceptedIn(db, accepted) && GroupsWellFormed(db, accepted)
    requires forall a :: a in accepted ==> a.request != id
    ensures var r := PurchaseStep(db, accepted, id);
            && GroupsWellFormed(r.0, r.1)
            && ((db.requests[id].purchaseOrder.None? || FirstMatch(accepted, vendor).Some?) ==>
                  && r.0.requests[id].purchaseOrder == GroupOrder(r.0, r.1, vendor)
                  && HoldsOrderFor(r.0, id, vendor))
  {
    var r := PurchaseStep(db, accepted, id);
    match FirstMatch(accepted, vendor)
    case Some(k) =>
      assert accepted[k] in accepted;
      assert r.1 == accepted;
    case None =>
      if db.requests[id].purchaseOrder.None? {
        FirstMatchAppended(accepted, Accepted(id, vendor));
        assert r.1 == accepted + [Accepted(id, vendor)];
      }
  }

  /** One iteration of the order loop keeps the accepted entries well formed. */
  lemma StepKeepsGroups(db: Database, accepted: seq<Accepted>, id: RequestId)
    requires id in db.requests && AcceptedIn(db, accepted) && GroupsWellFormed(db, accepted)
    ensures var r := OrderStep(db, accepted, id);
            r.Success? ==> GroupsWellFormed(r.value.0, r.value.1)
  {
  }

  /** The whole call keeps the accepted entries well formed. */
  lemma {:induction false} OrderKeepsGroups(db: Database, accepted: seq<Accepted>, batch: seq<RequestId>)
    requires InStore(db.requests, batch) && AcceptedIn(db, accepted) && GroupsWellFormed(db, accepted)
    ensures var o := Order(db, accepted, batch); GroupsWellFormed(o.db, o.accepted)
    decreases |batch|
  {
    if batch != [] {
      StepKeepsGroups(db, accepted, batch[0]);
      match OrderStep(db, accepted, batch[0])
      case Failure(_) =>
      case Success((db', accepted')) =>
        OrderKeepsGroups(db', accepted', batch[1..]);
    }
  }

  /** Once a vendor has an entry, the rest of the call keeps the entry's order. */
  lemma GroupOrderStable(db: Database, accepted: seq<Accepted>, batch: seq<RequestId>, vendor: PartnerId)
    requires InStore(db.requests, batch) && AcceptedIn(db, accepted) && GroupsWellFormed(db, accepted)
    requires GroupOrder(db, accepted, vendor).Some?
    ensures var o := Order(db, accepted, batch);
            GroupOrder(o.db, o.accepted, vendor) == GroupOrder(db, accepted, vendor)
  {
    var o := Order(db, accepted, batch);
    var k := FirstMatch(accepted, vendor).value;
    FirstMatchPrefix(accepted, o.accepted, vendor);
    assert accepted[k] in accepted && o.accepted[k] == accepted[k];
    OrderSkips(db, accepted, batch, accepted[k].request);
  }

  /**
    When the call raises nothing, an approved purchase request that held no
    order ends up holding the order of its vendor's first entry, and that
    order is for its vendor.
   */
  lemma {:induction false} OrderGroupsByVendor(db: Database, accepted: seq<Accepted>, batch: seq<RequestId>,
                                               id: RequestId, vendor: PartnerId)
    requires InStore(db.requests, batch) && AcceptedIn(db, accepted) && GroupsWellFormed(db, accepted)
    requires id in batch && id in db.requests
    requires db.requests[id].state == Approved && db.requests[id].action == Purchase
    requires db.requests[id].vendor == Some(vendor) && db.requests[id].purchaseOrder.None?
    requires Order(db, accepted, batch).error.None?
    ensures var o := Order(db, accepted, batch);
            && o.db.requests[id].purchaseOrder == GroupOrder(o.db, o.accepted, vendor)
            && HoldsOrderFor(o.db, id, vendor)
    decreases |batch|
  {
    var o := Order(db, accepted, batch);
    StepKeepsGroups(db, accepted, batch[0]);
    match OrderStep(db, accepted, batch[0])
    case Failure(_) =>
    case Success((db', accepted')) =>
      assert o == Order(db', accepted', batch[1..]);
      if batch[0] == id {
        var db1 := db.(requests := db.requests[id := db.requests[id].(state := Ordered)]);
        assert GroupsWellFormed(db1, accepted);
        PurchaseStepGroups(db1, accepted, id, vendor);
        OrderSkips(db', accepted', batch[1..], id);
        GroupOrderStable(db', accepted', batch[1..], vendor);
        var p := db'.requests[id].purchaseOrder.value;
        assert o.db.purchaseOrders[p] == db'.purchaseOrders[p];
      } else {
        assert id in batch[1..];
        OrderGroupsByVendor(db', accepted', batch[1..], id, vendor);
      }
  }

  /**
    Within one call that raises nothing, two purchase requests for the same
    vendor that held no order end up on the same purchase order.
   */
  lemma SameVendorSharesOrder(db: Database, batch: seq<RequestId>, i: RequestId, j: RequestId, vendor: PartnerId)
    requires InStore(db.requests, batch) && i in batch && j in batch && i in db.requests && j in db.requests
    requires db.requests[i].state == Approved && db.requests[i].action == Purchase
    requires db.requests[j].state == Approved && db.requests[j].action == Purchase
    requires db.requests[i].vendor == Some(vendor) && db.requests[j].vendor == Some(vendor)
    requires db.requests[i].purchaseOrder.None? && db.requests[j].purchaseOrder.None?
    requires Order(db, [], batch).error.None?
    ensures var o := Order(db, [], batch);
            && o.db.requests[i].purchaseOrder.Some?
            && o.db.requests[i].purchaseOrder == o.db.requests[j].purchaseOrder
  {
    OrderGroupsByVendor(db, [], batch, i, vendor);
    OrderGroupsByVendor(db, [], batch, j, vendor);
  }

  /**
    Within one call that raises nothing, purchase requests for different
    vendors that held no order end up on different purchase orders.
   */
  lemma OtherVendorOtherOrder(db: Database, batch: seq<RequestId>, i: RequestId, j: RequestId)
    requires InStore(db.requests, batch) && i in batch && j in batch && i in db.requests && j in db.requests
    requires db.requests[i].state == Approved && db.requests[i].action == Purchase
    requires db.requests[j].state == Approved && db.requests[j].action == Purchase
    requires db.requests[i].vendor.Some? && db.requests[j].vendor.Some?
    requires db.requests[i].vendor != db.requests[j].vendor
    requires db.requests[i].purchaseOrder.None? && db.requests[j].purchaseOrder.None?
    requires Order(db, [], batch).error.None?
    ensures var o := Order(db, [], batch);
            && o.db.requests[i].purchaseOrder.Some? && o.db.requests[j].purchaseOrder.Some?
            && o.db.requests[i].purchaseOrder != o.db.requests[j].purchaseOrder
  {
    OrderGroupsByVendor(db, [], batch, i, db.requests[i].vendor.value);
    OrderGroupsByVendor(db, [], batch, j, db.requests[j].vendor.value);
  }

  // ---------------------------------------------------------------------------
  // downstream records created

  /** The records of the batch that are approved and have `action`, in batch order. */
  ghost function Fulfilling(m: map<RequestId, Request>, batch: seq<RequestId>, action: Action): (ids: seq<RequestId>)
    ensures forall id :: id in ids ==> id in batch && id in m && m[id].state == Approved && m[id].action == action
    decreases |batch|
  {
    if batch == [] then []
    else
      var rest := Fulfilling(m, batch[1..], action);
      if batch[0] in m && m[batch[0]].state == Approved && m[batch[0]].action == action
      then [batch[0]] + rest
      else rest
  }

  /** One manufacturing order per request of `ids`, in order. */
  ghost function ProductionsFor(m: map<RequestId, Request>, ids: seq<RequestId>): seq<Production>
    requires forall id :: id in ids ==> id in m
    decreases |ids|
  {
    if ids == [] then []
    else [Production(m[ids[0]].product, m[ids[0]].quantity, ids[0])] + ProductionsFor(m, ids[1..])
  }

  /** One design change request per request of `ids`, in order. */
  ghost function EcosFor(m: map<RequestId, Request>, ids: seq<RequestId>): seq<Eco>
    requires forall id :: id in ids ==> id in m
    decreases |ids|
  {
    if ids == [] then []
    else [Eco(m[ids[0]].name, m[ids[0]].product, ids[0])] + EcosFor(m, ids[1..])
  }

  /** One order line per request of `ids`, on the order the request holds, in order. */
  ghost function LinesFor(m: map<RequestId, Request>, ids: seq<RequestId>): seq<OrderLine>
    requires forall id :: id in ids ==> id in m && m[id].purchaseOrder.Some?
    decreases |ids|
  {
    if ids == [] then []
    else
      var r := m[ids[0]];
      [OrderLine(r.purchaseOrder.value, r.product, r.quantity)] + LinesFor(m, ids[1..])
  }

  /** `m1` and `m2` hold the same records for the identifiers of `ids`. */
  ghost predicate AgreeOn(m1: map<RequestId, Request>, m2: map<RequestId, Request>, ids: seq<RequestId>) {
    forall id :: id in ids ==> (id in m1 <==> id in m2) && (id in m1 ==> m1[id] == m2[id])
  }

  lemma {:induction false} AgreeOnFulfilling(m1: map<RequestId, Request>, m2: map<RequestId, Request>,
                                             batch: seq<RequestId>, action: Action)
    requires AgreeOn(m1, m2, batch)
    ensures Fulfilling(m1, batch, action) == Fulfilling(m2, batch, action)
    ensures AgreeOn(m1, m2, Fulfilling(m1, batch, action))
    decreases |batch|
  {
    if batch != [] {
      assert batch[0] in batch;
      AgreeOnFulfilling(m1, m2, batch[1..], action);
    }
  }

  lemma {:induction false} AgreeOnCreated(m1: map<RequestId, Request>, m2: map<RequestId, Request>, ids: seq<RequestId>)
    requires AgreeOn(m1, m2, ids) && forall id :: id in ids ==> id in m1
    ensures ProductionsFor(m1, ids) == ProductionsFor(m2, ids)
    ensures EcosFor(m1, ids) == EcosFor(m2, ids)
    decreases |ids|
  {
    if ids != [] {
      assert ids[0] in ids;
      AgreeOnCreated(m1, m2, ids[1..]);
    }
  }

  /** The tail of a batch without repeats has no repeats and does not hold the head. */
  lemma DistinctTail(batch: seq<RequestId>)
    requires Distinct(batch) && batch != []
    ensures Distinct(batch[1..]) && batch[0] !in batch[1..]
  {
  }

  /** The downstream records that one iteration of the order loop creates. */
  lemma StepCreates(db: Database, accepted: seq<Accepted>, id: RequestId)
    requires id in db.requests && AcceptedIn(db, accepted)
    ensures var r := OrderStep(db, accepted, id);
            var rec := db.requests[id];
            var fulfils := rec.state == Approved;
            r.Success? ==>
              && r.value.0.productions == db.productions
                   + (if fulfils && rec.action == Manufacture then [Production(rec.product, rec.quantity, id)] else [])
              && r.value.0.ecos == db.ecos
                   + (if fulfils && rec.action == Design then [Eco(rec.name, rec.product, id)] else [])
              && r.value.0.orderLines == db.orderLines
                   + (if fulfils && rec.action == Purchase
                      then [OrderLine(r.value.0.requests[id].purchaseOrder.value, rec.product, rec.quantity)]
                      else [])
  {
  }

  /**
    One iteration of the order loop over a batch without repeats changes no
    record of the rest of the batch, so the rest is fulfilled as it was.
   */
  lemma StepAgrees(db: Database, accepted: seq<Accepted>, batch: seq<RequestId>)
    requires InStore(db.requests, batch) && AcceptedIn(db, accepted) && Distinct(batch) && batch != []
    ensures var r := OrderStep(db, accepted, batch[0]);
            var rest := batch[1..];
            r.Success? ==>
              var m' := r.value.0.requests;
              && Distinct(rest)
              && Fulfilling(m', rest, Manufacture) == Fulfilling(db.requests, rest, Manufacture)
              && Fulfilling(m', rest, Design) == Fulfilling(db.requests, rest, Design)
              && Fulfilling(m', rest, Purchase) == Fulfilling(db.requests, rest, Purchase)
              && ProductionsFor(m', Fulfilling(m', rest, Manufacture))
                   == ProductionsFor(db.requests, Fulfilling(db.requests, rest, Manufacture))
              && EcosFor(m', Fulfilling(m', rest, Design))
                   == EcosFor(db.requests, Fulfilling(db.requests, rest, Design))
  {
    var r := OrderStep(db, accepted, batch[0]);
    var rest := batch[1..];
    if r.Success? {
      var m' := r.value.0.requests;
      DistinctTail(batch);
      assert AgreeOn(db.requests, m', rest);
      AgreeOnFulfilling(db.requests, m', rest, Manufacture);
      AgreeOnFulfilling(db.requests, m', rest, Design);
      AgreeOnFulfilling(db.requests, m', rest, Purchase);
      AgreeOnCreated(db.requests, m', Fulfilling(db.requests, rest, Manufacture));
      AgreeOnCreated(db.requests, m', Fulfilling(db.requests, rest, Design));
    }
  }

  /** Concatenation regroups freely. */
  lemma SeqAssoc<T>(a: seq<T>, b: seq<T>, c: seq<T>)
    ensures (a + b) + c == a + (b + c)
  {
  }

  /** The requests the head of a batch contributes to the created manufacturing orders. */
  lemma ProductionsHead(m: map<RequestId, Request>, batch: seq<RequestId>)
    requires batch != []
    ensures var b := batch[0];
            ProductionsFor(m, Fulfilling(m, batch, Manufacture))
              == (if b in m && m[b].state == Approved && m[b].action == Manufacture
                  then [Production(m[b].product, m[b].quantity, b)] else [])
                 + ProductionsFor(m, Fulfilling(m, batch[1..], Manufacture))
  {
  }

  /** The requests the head of a batch contributes to the created design change requests. */
  lemma EcosHead(m: map<RequestId, Request>, batch: seq<RequestId>)
    requires batch != []
    ensures var b := batch[0];
            EcosFor(m, Fulfilling(m, batch, Design))
              == (if b in m && m[b].state == Approved && m[b].action == Design
                  then [Eco(m[b].name, m[b].product, b)] else [])
                 + EcosFor(m, Fulfilling(m, batch[1..], Design))
  {
  }

  /** The requests the head of a batch contributes to the added order lines. */
  lemma LinesHead(m: map<RequestId, Request>, now: map<RequestId, Request>, batch: seq<RequestId>)
    requires batch != []
    requires forall id :: id in Fulfilling(m, batch, Purchase) ==> id in now && now[id].purchaseOrder.Some?
    ensures forall id :: id in Fulfilling(m, batch[1..], Purchase) ==> id in now && now[id].purchaseOrder.Some?
    ensures var b := batch[0];
            LinesFor(now, Fulfilling(m, batch, Purchase))
              == (if b in m && m[b].state == Approved && m[b].action == Purchase
                  then [OrderLine(now[b].purchaseOrder.value, now[b].product, now[b].quantity)] else [])
                 + LinesFor(now, Fulfilling(m, batch[1..], Purchase))
  {
  }

  /**
    When the call raises nothing over a batch without repeats, it creates
    exactly one manufacturing order per approved manufacture request, in batch
    order, carrying the request's product, quantity and back-reference.
   */
  lemma {:induction false} OrderCreatesProductions(db: Database, accepted: seq<Accepted>, batch: seq<RequestId>)
    requires InStore(db.requests, batch) && AcceptedIn(db, accepted) && Distinct(batch)
    requires Order(db, accepted, batch).error.None?
    ensures Order(db, accepted, batch).db.productions
              == db.productions + ProductionsFor(db.requests, Fulfilling(db.requests, batch, Manufacture))
    decreases |batch|
  {
    if batch != [] {
      var r := OrderStep(db, accepted, batch[0]);
      StepCreates(db, accepted, batch[0]);
      StepAgrees(db, accepted, batch);
      if r.Success? {
        var db', accepted' := r.value.0, r.value.1;
        var m, b, rest := db.requests, batch[0], batch[1..];
        var rec := m[b];
        var head := if rec.state == Approved && rec.action == Manufacture then [Production(rec.product, rec.quantity, b)] else [];
        OrderCreatesProductions(db', accepted', rest);
        ProductionsHead(m, batch);
        assert Order(db, accepted, batch) == Order(db', accepted', rest);
        calc {
          Order(db, accepted, batch).db.productions;
          db'.productions + ProductionsFor(db'.requests, Fulfilling(db'.requests, rest, Manufacture));
          (db.productions + head) + ProductionsFor(m, Fulfilling(m, rest, Manufacture));
          { SeqAssoc(db.productions, head, ProductionsFor(m, Fulfilling(m, rest, Manufacture))); }
          db.productions + (head + ProductionsFor(m, Fulfilling(m, rest, Manufacture)));
          db.productions + ProductionsFor(m, Fulfilling(m, batch, Manufacture));
        }
      }
    }
  }


  /**
    When the call raises nothing over a batch without repeats, it creates
    exactly one design change request per approved design request, in batch
    order, carrying the request's name, product and back-reference.
   */
  lemma {:induction false} OrderCreatesEcos(db: Database, accepted: seq<Accepted>, batch: seq<RequestId>)
    requires InStore(db.requests, batch) && AcceptedIn(db, accepted) && Distinct(batch)
    requires Order(db, accepted, batch).error.None?
    ensures Order(db, accepted, batch).db.ecos
              == db.ecos + EcosFor(db.requests, Fulfilling(db.requests, batch, Design))
    decreases |batch|
  {
    if batch != [] {
      var r := OrderStep(db, accepted, batch[0]);
      StepCreates(db, accepted, batch[0]);
      StepAgrees(db, accepted, batch);
      if r.Success? {
        var db', accepted' := r.value.0, r.value.1;
        var m, b, rest := db.requests, batch[0], batch[1..];
        var rec := m[b];
        var head := if rec.state == Approved && rec.action == Design then [Eco(rec.name, rec.product, b)] else [];
        OrderCreatesEcos(db', accepted', rest);
        EcosHead(m, batch);
        assert Order(db, accepted, batch) == Order(db', accepted', rest);
        calc {
          Order(db, accepted, batch).db.ecos;
          db'.ecos + EcosFor(db'.requests, Fulfilling(db'.requests, rest, Design));
          (db.ecos + head) + EcosFor(m, Fulfilling(m, rest, Design));
          { SeqAssoc(db.ecos, head, EcosFor(m, Fulfilling(m, rest, Design))); }
          db.ecos + (head + EcosFor(m, Fulfilling(m, rest, Design)));
          db.ecos + EcosFor(m, Fulfilling(m, batch, Design));
        }
      }
    }
  }


  /**
    When the call raises nothing over a batch without repeats, it adds exactly
    one order line per approved purchase request, in batch order, on the order
    the request ends up holding, with the request's product and quantity.
   */
  lemma {:induction false} OrderAddsLines(db: Database, accepted: seq<Accepted>, batch: seq<RequestId>)
    requires InStore(db.requests, batch) && AcceptedIn(db, accepted) && Distinct(batch)
    requires Order(db, accepted, batch).error.None?
    ensures var o := Order(db, accepted, batch);
            && (forall id :: id in Fulfilling(db.requests, batch, Purchase) ==>
                  id in o.db.requests && o.db.requests[id].purchaseOrder.Some?)
            && o.db.orderLines == db.orderLines
                 + LinesFor(o.db.requests, Fulfilling(db.requests, batch, Purchase))
    decreases |batch|
  {
    var o := Order(db, accepted, batch);
    forall id | id in Fulfilling(db.requests, batch, Purchase)
      ensures id in o.db.requests && o.db.requests[id].purchaseOrder.Some?
    {
      OrderFulfils(db, accepted, batch, id);
    }
    if batch != [] {
      var b, rest := batch[0], batch[1..];
      var r := OrderStep(db, accepted, b);
      StepCreates(db, accepted, b);
      StepAgrees(db, accepted, batch);
      if r.Success? {
        var db', accepted' := r.value.0, r.value.1;
        var m, now := db.requests, o.db.requests;
        var rec := m[b];
        LinesHead(m, now, batch);
        OrderAddsLines(db', accepted', rest);
        assert o == Order(db', accepted', rest);
        var head := if rec.state == Approved && rec.action == Purchase
                    then [OrderLine(now[b].purchaseOrder.value, now[b].product, now[b].quantity)] else [];
        if rec.state == Approved && rec.action == Purchase {
          assert now[b] == db'.requests[b] by {
            OrderSkips(db', accepted', rest, b);
          }
        }
        calc {
          o.db.orderLines;
          db'.orderLines + LinesFor(now, Fulfilling(m, rest, Purchase));
          (db.orderLines + head) + LinesFor(now, Fulfilling(m, rest, Purchase));
          { SeqAssoc(db.orderLines, head, LinesFor(now, Fulfilling(m, rest, Purchase))); }
          db.orderLines + (head + LinesFor(now, Fulfilling(m, rest, Purchase)));
          db.orderLines + LinesFor(now, Fulfilling(m, batch, Purchase));
        }
      }
    }
  }
}
