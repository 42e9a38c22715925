/**
  The Material Request record: its states, its fulfilment actions, the
  downstream records it can spawn, and the guards that the order action
  checks before it fulfils a request.
 */
module Requests {
  import opened Wrappers

  type RequestId = nat
  type PartnerId = nat
  type ProductId = nat
  /** Position of a downstream record in the store's list of that kind. */
  type OrderId = nat

  /** The lifecycle states of a request. */
  datatype State = Draft | Pending | Approved | Ordered | Done | Refused

  /**
    The fulfilment path of a request. `Unset` stands for an empty selection,
    `NoAction` for the explicit "none" choice, which is the default.
   */
  datatype Action = Unset | NoAction | Design | Purchase | Manufacture

  /**
    One request record. The three downstream references are set by the order
    action; `vendor` is only needed by purchase requests.
   */
  datatype Request = Request(
    name: string,
    product: ProductId,
    quantity: real,
    action: Action,
    state: State,
    vendor: Option<PartnerId>,
    purchaseOrder: Option<OrderId>,
    productionOrder: Option<OrderId>,
    eco: Option<OrderId>)

  /** A purchase order created for a vendor. */
  datatype PurchaseOrder = PurchaseOrder(vendor: PartnerId)

  /** A line of a purchase order; the order owns the lines that name it. */
  datatype OrderLine = OrderLine(order: OrderId, product: ProductId, quantity: real)

  /** A manufacturing order, with its back-reference to the request. */
  datatype Production = Production(product: ProductId, quantity: real, request: RequestId)

  /**
    A design change request, with its back-reference to the request. It is
    always created in the fixed "new" stage with the fixed design type.
   */
  datatype Eco = Eco(name: string, product: ProductId, request: RequestId)

  /** Why the order action refused a request. */
  datatype Reason = MissingAction | MissingVendor | MissingQuantity

  datatype Error =
    | ValidationError(request: RequestId, name: string, reason: Reason)
    | NotSingleton(count: nat)
    | Restricted(request: RequestId)

  /** The placeholder name a request carries until the sequence names it. */
  const PlaceholderName: string := "New"

  /** The actions that the order action can fulfil. */
  predicate Fulfillable(a: Action) {
    a == Design || a == Purchase || a == Manufacture
  }

  /**
    The three guards of the order action, checked in this order: the
    first failing guard names the error. Only a quantity of exactly zero fails
    the manufacture guard; a negative quantity passes.
   */
  function Validate(id: RequestId, r: Request): (e: Option<Error>)
    ensures e.None? <==>
              Fulfillable(r.action)
              && (r.action == Purchase ==> r.vendor.Some?)
              && (r.action == Manufacture ==> r.quantity != 0.0)
    ensures e.Some? ==> e.value.ValidationError? && e.value.request == id && e.value.name == r.name
    ensures e == Some(ValidationError(id, r.name, MissingAction)) <==> !Fulfillable(r.action)
    ensures e == Some(ValidationError(id, r.name, MissingVendor)) <==>
              r.action == Purchase && r.vendor.None?
    ensures e == Some(ValidationError(id, r.name, MissingQuantity)) <==>
              r.action == Manufacture && r.quantity == 0.0
  {
    if r.action == Unset || r.action == NoAction then
      Some(ValidationError(id, r.name, MissingAction))
    else if r.action == Purchase && r.vendor.None? then
      Some(ValidationError(id, r.name, MissingVendor))
    else if r.action == Manufacture && r.quantity == 0.0 then
      Some(ValidationError(id, r.name, MissingQuantity))
    else
      None
  }

  /**
    The record that creation stores. A missing name or the placeholder is
    replaced by the next sequence value, or kept as the placeholder when the
    sequence yields nothing (or an empty string). An unspecified action is
    "none"; the state is always draft and no downstream record is referenced.
   */
  function NewRequest(name: Option<string>, sequenceName: Option<string>,
                      product: ProductId, quantity: real, action: Option<Action>,
                      vendor: Option<PartnerId>): (r: Request)
    ensures r.state == Draft
    ensures r.purchaseOrder.None? && r.productionOrder.None? && r.eco.None?
    ensures r.product == product && r.quantity == quantity && r.vendor == vendor
    ensures action.Some? ==> r.action == action.value
    ensures action.None? ==> r.action == NoAction
    ensures name.Some? && name.value != PlaceholderName ==> r.name == name.value
    ensures (name.None? || name.value == PlaceholderName) ==>
              r.name == (if sequenceName.Some? && sequenceName.value != "" then sequenceName.value
                         else PlaceholderName)
    ensures r.name != ""  || (name.Some? && name.value == "")
  {
    var given := if name.Some? then name.value else PlaceholderName;
    var chosen :=
      if given == PlaceholderName then
        if sequenceName.Some? && sequenceName.value != "" then sequenceName.value else PlaceholderName
      else given;
    Request(chosen, product, quantity, if action.Some? then action.value else NoAction,
            Draft, vendor, None, None, None)
  }
}
