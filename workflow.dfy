/**
  The request actions as functions of the database they read and write.
  Each batch action is a fold over the batch in the order of the recordset;
  the closed forms in the contracts say what a whole call does.
 */
module Workflow {
  import opened Wrappers
  import opened Requests

  /** The records the workflow reads and writes. Creating a downstream record appends it. */
  datatype Database = Database(
    requests: map<RequestId, Request>,
    purchaseOrders: seq<PurchaseOrder>,
    orderLines: seq<OrderLine>,
    productions: seq<Production>,
    ecos: seq<Eco>)

  /** Every record of the batch exists. */
  predicate InStore(m: map<RequestId, Request>, batch: seq<RequestId>) {
    forall k :: 0 <= k < |batch| ==> batch[k] in m
  }

  /** No record occurs twice in the batch. */
  predicate Distinct(batch: seq<RequestId>) {
    forall i, j :: 0 <= i < j < |batch| ==> batch[i] != batch[j]
  }

  /** `after` is `before` with records possibly updated and downstream records only appended. */
  predicate Extends(before: Database, after: Database) {
    && after.requests.Keys == before.requests.Keys
    && before.purchaseOrders <= after.purchaseOrders
    && before.orderLines <= after.orderLines
    && before.productions <= after.productions
    && before.ecos <= after.ecos
  }

  /** `b` differs from `a` at most in its state. */
  predicate SameButState(a: Request, b: Request) {
    b == a.(state := b.state)
  }

  // ---------------------------------------------------------------------------
  // confirm, approve, done: a loop that moves the records in one state to the next

  /**
    The batch transitions, as a loop over the batch: every record of the batch
    that is in state `from` when its turn comes moves to `to`.
   */
  function Advance(m: map<RequestId, Request>, batch: seq<RequestId>, from: State, to: State)
    : (r: map<RequestId, Request>)
    ensures r.Keys == m.Keys
    decreases |batch|
  {
    if batch == [] then m
    else
      var prev := Advance(m, batch[..|batch| - 1], from, to);
      var id := batch[|batch| - 1];
      // a record that is not stored is never part of a batch
      if id in prev && prev[id].state == from then prev[id := prev[id].(state := to)] else prev
  }

  /** Extending the batch by one record applies the transition to that record alone. */
  lemma AdvanceSnoc(m: map<RequestId, Request>, batch: seq<RequestId>, id: RequestId, from: State, to: State)
    requires id in m
    ensures var prev := Advance(m, batch, from, to);
            Advance(m, batch + [id], from, to)
              == if prev[id].state == from then prev[id := prev[id].(state := to)] else prev
  {
  }

  /**
    What a batch transition does to each record: a record of the batch that
    was in `from` is now in `to` and keeps every other field; every other
    record (outside the batch, or in another state) is untouched.
   */
  lemma {:induction false} AdvanceEffect(m: map<RequestId, Request>, batch: seq<RequestId>, from: State, to: State)
    requires from != to
    ensures var r := Advance(m, batch, from, to);
            forall id :: id in m ==>
              r[id] == if id in batch && m[id].state == from then m[id].(state := to) else m[id]
    decreases |batch|
  {
    if batch != [] {
      var earlier := batch[..|batch| - 1];
      AdvanceEffect(m, earlier, from, to);
      assert forall x :: x in batch <==> x in earlier || x == batch[|batch| - 1];
    }
  }

  // ---------------------------------------------------------------------------
  // refuse, reset: exactly one record, moved from any state

  /**
    The single-record transitions: a batch of any size but one is refused;
    otherwise its record takes state `to`, whatever its state was, and keeps
    every other field, the downstream references included.
   */
  function SetOne(m: map<RequestId, Request>, batch: seq<RequestId>, to: State)
    : (r: Result<map<RequestId, Request>, Error>)
    requires InStore(m, batch)
    ensures r.Failure? <==> |batch| != 1
    ensures r.Failure? ==> r.error == NotSingleton(|batch|)
    ensures r.Success? ==>
              && r.value.Keys == m.Keys
              && r.value[batch[0]].state == to
              && SameButState(m[batch[0]], r.value[batch[0]])
              && forall id :: id in m && id != batch[0] ==> r.value[id] == m[id]
  {
    if |batch| != 1 then Failure(NotSingleton(|batch|))
    else Success(m[batch[0] := m[batch[0]].(state := to)])
  }

  // ---------------------------------------------------------------------------
  // unlink: delete the draft records

  /**
    Some manufacturing order points back to request `id`. Such a request
    cannot be deleted: the back-reference restricts deletion.
   */
  predicate Referenced(productions: seq<Production>, id: RequestId) {
    exists k :: 0 <= k < |productions| && productions[k].request == id
  }

  /** The records left by a deletion call, and the error that stopped it, if any. */
  datatype Deletion = Deletion(requests: map<RequestId, Request>, error: Option<Error>)

  /**
    Deletion, as a loop over the batch: a record in draft when its turn comes
    is removed, unless a manufacturing order references it; then the loop
    stops with that record's error and the records deleted before it stay
    deleted. Only batches without repeats are meant (see `Store.RequestStore.Unlink`).
   */
  function Unlinked(m: map<RequestId, Request>, productions: seq<Production>, batch: seq<RequestId>)
    : (r: Deletion)
    ensures r.requests.Keys <= m.Keys
    decreases |batch|
  {
    if batch == [] then Deletion(m, None)
    else
      var prev := Unlinked(m, productions, batch[..|batch| - 1]);
      var id := batch[|batch| - 1];
      // a batch holds stored records only; a batch that names a draft record
      // twice reads it after its deletion and raises, and is outside the model
      if prev.error.Some? then prev
      else if id in prev.requests && prev.requests[id].state == Draft then
        if Referenced(productions, id) then prev.(error := Some(Restricted(id)))
        else prev.(requests := prev.requests - {id})
      else prev
  }

  /** Extending an unstopped batch by one stored record deletes or stops at that record alone. */
  lemma UnlinkedSnoc(m: map<RequestId, Request>, productions: seq<Production>, batch: seq<RequestId>, id: RequestId)
    requires Unlinked(m, productions, batch).error.None? && id in Unlinked(m, productions, batch).requests
    ensures var prev := Unlinked(m, productions, batch);
            Unlinked(m, productions, batch + [id])
              == if prev.requests[id].state != Draft then prev
                 else if Referenced(productions, id) then prev.(error := Some(Restricted(id)))
                 else prev.(requests := prev.requests - {id})
  {
    assert (batch + [id])[..|batch|] == batch;
  }

  /** Once stopped, the loop ignores the rest of the batch. */
  lemma {:induction false} UnlinkedStopped(m: map<RequestId, Request>, productions: seq<Production>,
                                           batch: seq<RequestId>, rest: seq<RequestId>)
    requires Unlinked(m, productions, batch).error.Some?
    ensures Unlinked(m, productions, batch + rest) == Unlinked(m, productions, batch)
    decreases |rest|
  {
    if rest != [] {
      var shorter := rest[..|rest| - 1];
      UnlinkedStopped(m, productions, batch, shorter);
      assert (batch + rest)[..|batch + rest| - 1] == batch + shorter;
    } else {
      assert batch + rest == batch;
    }
  }

  /**
    What deletion does: only unreferenced draft records of the batch
    disappear and the survivors are unchanged; the call raises iff some draft
    record of the batch is referenced, naming such a record, which survives;
    when it does not raise, every draft record of the batch is gone.
   */
  lemma {:induction false} UnlinkedEffect(m: map<RequestId, Request>, productions: seq<Production>,
                                          batch: seq<RequestId>)
    ensures var r := Unlinked(m, productions, batch);
            && (forall id :: id in r.requests ==> id in m && r.requests[id] == m[id])
            && (forall id :: id in m && id !in r.requests ==>
                  id in batch && m[id].state == Draft && !Referenced(productions, id))
            && (r.error.None? <==>
                  forall id :: id in batch && id in m && m[id].state == Draft ==> !Referenced(productions, id))
            && (r.error.None? ==>
                  forall id :: id in m ==> (id in r.requests <==> !(id in batch && m[id].state == Draft)))
            && (r.error.Some? ==>
                  && r.error.value.Restricted?
                  && var x := r.error.value.request;
                  && x in batch && x in m && x in r.requests
                  && m[x].state == Draft && Referenced(productions, x))
    decreases |batch|
  {
    if batch != [] {
      var earlier := batch[..|batch| - 1];
      UnlinkedEffect(m, productions, earlier);
      assert forall x :: x in batch <==> x in earlier || x == batch[|batch| - 1];
    }
  }

  /**
    A draft record that is referenced stops the deletion: the records of the
    batch before it are deleted as usual, it and the rest of the batch stay.
   */
  lemma UnlinkedStops(m: map<RequestId, Request>, productions: seq<Production>, batch: seq<RequestId>, k: nat)
    requires k < |batch| && batch[k] !in batch[..k] && batch[k] in m
    requires m[batch[k]].state == Draft && Referenced(productions, batch[k])
    requires Unlinked(m, productions, batch[..k]).error.None?
    ensures Unlinked(m, productions, batch)
              == Deletion(Unlinked(m, productions, batch[..k]).requests, Some(Restricted(batch[k])))
  {
    var prev := Unlinked(m, productions, batch[..k]);
    var stopped := Deletion(prev.requests, Some(Restricted(batch[k])));
    assert Unlinked(m, productions, batch[..k + 1]) == stopped by {
      UnlinkedEffect(m, productions, batch[..k]);
      UnlinkedSnoc(m, productions, batch[..k], batch[k]);
      assert batch[..k] + [batch[k]] == batch[..k + 1];
    }
    UnlinkedStopped(m, productions, batch[..k + 1], batch[k + 1..]);
    assert batch[..k + 1] + batch[k + 1..] == batch;
  }

  // ---------------------------------------------------------------------------
  // order

  /** A purchase request already given an order during the current order call, with its vendor. */
  datatype Accepted = Accepted(request: RequestId, vendor: PartnerId)

  /** Every accepted entry names an existing record. */
  predicate AcceptedIn(db: Database, accepted: seq<Accepted>) {
    forall a :: a in accepted ==> a.request in db.requests
  }

  /** The position of the first accepted entry for `vendor`, if there is one. */
  function FirstMatch(accepted: seq<Accepted>, vendor: PartnerId): (k: Option<nat>)
    ensures k.Some? ==> k.value < |accepted| && accepted[k.value].vendor == vendor
    ensures k.Some? ==> forall j :: 0 <= j < k.value ==> accepted[j].vendor != vendor
    ensures k.None? ==> forall j :: 0 <= j < |accepted| ==> accepted[j].vendor != vendor
  {
    if accepted == [] then None
    else if accepted[0].vendor == vendor then Some(0)
    else
      match FirstMatch(accepted[1..], vendor)
      case None => None
      case Some(k) => Some(k + 1)
  }

  /** The order held by the first accepted entry for `vendor`: the one later same-vendor requests join. */
  function GroupOrder(db: Database, accepted: seq<Accepted>, vendor: PartnerId): Option<OrderId>
    requires AcceptedIn(db, accepted)
  {
    match FirstMatch(accepted, vendor)
    case None => None
    case Some(k) =>
      assert accepted[k] in accepted;
      db.requests[accepted[k].request].purchaseOrder
  }

  /**
    Purchase fulfilment of record `id` (already moved to ordered). The first
    accepted entry with the same vendor lends its record's order, replacing
    whatever order the record held. When that leaves the record without an
    order, a new order for the vendor is created and the record is accepted;
    a record that still holds an order keeps it and is not accepted. In every
    case one new line with the record's product and quantity is added to the
    resolved order.
   */
  function PurchaseStep(db: Database, accepted: seq<Accepted>, id: RequestId)
    : (r: (Database, seq<Accepted>))
    requires id in db.requests && db.requests[id].vendor.Some?
    requires AcceptedIn(db, accepted)
    ensures Extends(db, r.0) && AcceptedIn(r.0, r.1) && accepted <= r.1
    ensures r.0.productions == db.productions && r.0.ecos == db.ecos
    ensures forall other :: other in db.requests && other != id ==>
              r.0.requests[other] == db.requests[other]
    ensures var after := r.0.requests[id];
            && after == db.requests[id].(purchaseOrder := after.purchaseOrder)
            && after.purchaseOrder.Some?
            && r.0.orderLines == db.orderLines
                 + [OrderLine(after.purchaseOrder.value, after.product, after.quantity)]
    ensures var vendor := db.requests[id].vendor.value;
            FirstMatch(accepted, vendor).Some? && GroupOrder(db, accepted, vendor).Some? ==>
              && r.0.requests[id].purchaseOrder == GroupOrder(db, accepted, vendor)
              && r.0.purchaseOrders == db.purchaseOrders && r.1 == accepted
    ensures var vendor := db.requests[id].vendor.value;
            FirstMatch(accepted, vendor).None? && db.requests[id].purchaseOrder.Some? ==>
              && r.0.requests[id].purchaseOrder == db.requests[id].purchaseOrder
              && r.0.purchaseOrders == db.purchaseOrders && r.1 == accepted
    ensures var vendor := db.requests[id].vendor.value;
            (|r.0.purchaseOrders| == |db.purchaseOrders| + 1) <==>
              if FirstMatch(accepted, vendor).Some? then GroupOrder(db, accepted, vendor).None?
              else db.requests[id].purchaseOrder.None?
    ensures |r.0.purchaseOrders| <= |db.purchaseOrders| + 1
    ensures |r.0.purchaseOrders| == |db.purchaseOrders| + 1 ==>
              && r.0.purchaseOrders[|db.purchaseOrders|] == PurchaseOrder(db.requests[id].vendor.value)
              && r.0.requests[id].purchaseOrder == Some(|db.purchaseOrders|)
              && r.1 == accepted + [Accepted(id, db.requests[id].vendor.value)]
  {
    var rec := db.requests[id];
    var vendor := rec.vendor.value;
    var held :=
      match FirstMatch(accepted, vendor)
      case Some(k) => db.requests[accepted[k].request].purchaseOrder
      case None => rec.purchaseOrder;
    var created := held.None?;
    var order := if created then |db.purchaseOrders| else held.value;
    var orders := if created then db.purchaseOrders + [PurchaseOrder(vendor)] else db.purchaseOrders;
    var accepted' := if created then accepted + [Accepted(id, vendor)] else accepted;
    var rec' := rec.(purchaseOrder := Some(order));
    (db.(requests := db.requests[id := rec'],
         purchaseOrders := orders,
         orderLines := db.orderLines + [OrderLine(order, rec.product, rec.quantity)]),
     accepted')
  }

  /** Manufacture fulfilment: one new manufacturing order for the record's product and quantity. */
  function ManufactureStep(db: Database, id: RequestId): (r: Database)
    requires id in db.requests
    ensures Extends(db, r)
    ensures r.purchaseOrders == db.purchaseOrders && r.orderLines == db.orderLines && r.ecos == db.ecos
    ensures r.productions == db.productions
              + [Production(db.requests[id].product, db.requests[id].quantity, id)]
    ensures r.requests == db.requests[id := db.requests[id].(productionOrder := Some(|db.productions|))]
  {
    var rec := db.requests[id];
    db.(productions := db.productions + [Production(rec.product, rec.quantity, id)],
        requests := db.requests[id := rec.(productionOrder := Some(|db.productions|))])
  }

  /** Design fulfilment: one new design change request named after the record. */
  function DesignStep(db: Database, id: RequestId): (r: Database)
    requires id in db.requests
    ensures Extends(db, r)
    ensures r.purchaseOrders == db.purchaseOrders && r.orderLines == db.orderLines
    ensures r.productions == db.productions
    ensures r.ecos == db.ecos + [Eco(db.requests[id].name, db.requests[id].product, id)]
    ensures r.requests == db.requests[id := db.requests[id].(eco := Some(|db.ecos|))]
  {
    var rec := db.requests[id];
    db.(ecos := db.ecos + [Eco(rec.name, rec.product, id)],
        requests := db.requests[id := rec.(eco := Some(|db.ecos|))])
  }

  /**
    What fulfilling request `id` did, seen from any later database `now` that
    extends the one it started from, `start`: the record is ordered, has kept
    every field but its state and references, and references a downstream
    record of exactly its action's kind; the other two references are as before.
    A manufacturing order or design change request is one created after
    `start`, carrying the request's data and its back-reference.
   */
  ghost predicate Fulfilled(id: RequestId, before: Request, after: Request, start: Database, now: Database) {
    && after == before.(state := Ordered, purchaseOrder := after.purchaseOrder,
                        productionOrder := after.productionOrder, eco := after.eco)
    && match before.action
       case Purchase =>
         && after.productionOrder == before.productionOrder && after.eco == before.eco
         && after.purchaseOrder.Some?
       case Manufacture =>
         && after.purchaseOrder == before.purchaseOrder && after.eco == before.eco
         && after.productionOrder.Some?
         && |start.productions| <= after.productionOrder.value < |now.productions|
         && now.productions[after.productionOrder.value] == Production(before.product, before.quantity, id)
       case Design =>
         && after.purchaseOrder == before.purchaseOrder
         && after.productionOrder == before.productionOrder
         && after.eco.Some?
         && |start.ecos| <= after.eco.value < |now.ecos|
         && now.ecos[after.eco.value] == Eco(before.name, before.product, id)
       case _ => false
  }

  /**
    One iteration of the order loop. A record that is not approved is skipped.
    An approved record that fails a guard raises the guard's error and is left
    as it was. Otherwise it is moved to ordered and fulfilled according to its
    action; no other record changes.
   */
  function OrderStep(db: Database, accepted: seq<Accepted>, id: RequestId)
    : (r: Result<(Database, seq<Accepted>), Error>)
    requires id in db.requests && AcceptedIn(db, accepted)
    ensures db.requests[id].state != Approved ==> r == Success((db, accepted))
    ensures db.requests[id].state == Approved ==>
              (r.Failure? <==> Validate(id, db.requests[id]).Some?)
    ensures r.Failure? ==> Some(r.error) == Validate(id, db.requests[id])
    ensures r.Success? ==> Extends(db, r.value.0) && AcceptedIn(r.value.0, r.value.1) && accepted <= r.value.1
    ensures r.Success? ==> forall other :: other in db.requests && other != id ==>
              r.value.0.requests[other] == db.requests[other]
    ensures r.Success? && db.requests[id].state == Approved ==>
              Fulfilled(id, db.requests[id], r.value.0.requests[id], db, r.value.0)
  {
    var rec := db.requests[id];
    if rec.state != Approved then Success((db, accepted))
    else
      match Validate(id, rec)
      case Some(e) => Failure(e)
      case None =>
        var db1 := db.(requests := db.requests[id := rec.(state := Ordered)]);
        if rec.action == Purchase then
          Success(PurchaseStep(db1, accepted, id))
        else if rec.action == Manufacture then
          Success((ManufactureStep(db1, id), accepted))
        else if rec.action == Design then
          Success((DesignStep(db1, id), accepted))
        else
          Success((db1, accepted))
  }

  /** The result of an order call: the database it leaves behind, even when it raised. */
  datatype OrderOutcome = OrderOutcome(db: Database, accepted: seq<Accepted>, error: Option<Error>)

  /**
    The order action over `batch`, continuing with the accepted entries
    `accepted`. The first error stops the loop: records fulfilled before it
    keep their changes. Records are only updated and downstream records only
    appended.
   */
  function Order(db: Database, accepted: seq<Accepted>, batch: seq<RequestId>): (o: OrderOutcome)
    requires InStore(db.requests, batch) && AcceptedIn(db, accepted)
    ensures Extends(db, o.db) && AcceptedIn(o.db, o.accepted) && accepted <= o.accepted
    decreases |batch|
  {
    if batch == [] then OrderOutcome(db, accepted, None)
    else
      match OrderStep(db, accepted, batch[0])
      case Failure(e) => OrderOutcome(db, accepted, Some(e))
      case Success((db', accepted')) =>
        Order(db', accepted', batch[1..])
  }
}
