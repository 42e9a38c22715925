/**
  Worked cases of the order action on small concrete databases.
 */
module OrderExamples {
  import opened Wrappers
  import opened Requests
  import opened Workflow

  /** An approved purchase request for `vendor` that holds the order `held`. */
  function Buy(vendor: PartnerId, quantity: real, held: Option<OrderId>): Request {
    Request("MR", 10, quantity, Purchase, Approved, Some(vendor), held, None, None)
  }

  /**
    Two approved purchase requests for the same vendor, ordered together, end
    up on one new purchase order with one line each, both ordered.
   */
  lemma SameVendorOneOrder()
    ensures var db := Database(map[1 := Buy(7, 5.0, None), 2 := Buy(7, 3.0, None)], [], [], [], []);
            var o := Order(db, [], [1, 2]);
            && o.error.None?
            && o.db.purchaseOrders == [PurchaseOrder(7)]
            && o.db.orderLines == [OrderLine(0, 10, 5.0), OrderLine(0, 10, 3.0)]
            && o.db.requests[1] == Buy(7, 5.0, Some(0)).(state := Ordered)
            && o.db.requests[2] == Buy(7, 3.0, Some(0)).(state := Ordered)
  {
  }

  /**
    An approved manufacture request with zero quantity stops the call with the
    missing-quantity error and is left approved.
   */
  lemma ZeroQuantityRaises()
    ensures var rec := Request("MR", 10, 0.0, Manufacture, Approved, None, None, None, None);
            var db := Database(map[1 := rec], [], [], [], []);
            Order(db, [], [1]) == OrderOutcome(db, [], Some(ValidationError(1, "MR", MissingQuantity)))
  {
  }

  /**
    A negative quantity is not zero, so it passes the manufacture guard and
    the request is fulfilled.
   */
  lemma NegativeQuantityPasses()
    ensures var rec := Request("MR", 10, -2.0, Manufacture, Approved, None, None, None, None);
            var db := Database(map[1 := rec], [], [], [], []);
            var o := Order(db, [], [1]);
            && o.error.None?
            && o.db.productions == [Production(10, -2.0, 1)]
            && o.db.requests[1] == rec.(state := Ordered, productionOrder := Some(0))
  {
  }

  /**
    A purchase request that still holds an order keeps it and opens no entry
    for its vendor, so a later request for the same vendor in the same call
    gets a new purchase order: the two are not consolidated.
   */
  lemma HeldOrderNotShared()
    ensures var db := Database(map[1 := Buy(7, 5.0, Some(0)), 2 := Buy(7, 3.0, None)], [PurchaseOrder(7)], [], [], []);
            var o := Order(db, [], [1, 2]);
            && o.error.None?
            && o.db.requests[1].purchaseOrder == Some(0)
            && o.db.requests[2].purchaseOrder == Some(1)
            && o.db.purchaseOrders == [PurchaseOrder(7), PurchaseOrder(7)]
  {
  }

  /**
    A manufacture request that was ordered and then reset to draft cannot be
    deleted: its manufacturing order still references it.
   */
  lemma OrderedThenResetNotDeleted()
    ensures var rec := Request("MR", 10, 2.0, Manufacture, Approved, None, None, None, None);
            var db := Database(map[1 := rec], [], [], [], []);
            var o := Order(db, [], [1]);
            var reset := SetOne(o.db.requests, [1], Draft);
            && reset.Success?
            && Unlinked(reset.value, o.db.productions, [1]) == Deletion(reset.value, Some(Restricted(1)))
  {
  }
}
