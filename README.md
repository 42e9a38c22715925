# Material request lifecycle, modelled in Dafny

A material request records a need for a product: a quantity, an intended
action (purchase, manufacture or design) and, for purchases, a vendor. It
moves through the states draft → pending → approved → ordered → done. It can
also be refused or reset to draft from any state. Ordering a request creates
the downstream record its action calls for:

- a purchase order line, on a purchase order shared by the requests of the
  same vendor within one call;
- a manufacturing order;
- a design change request (ECO).

The project models the request model's actions over a store of request
records and the downstream records they create:

- `wrappers.dfy`: `Option` and `Result`.
- `requests.dfy` (module `Requests`): the record, its states and actions,
  creation defaults and naming, and the three guards of the order action.
- `workflow.dfy` (module `Workflow`): every action as a function of the
  database it reads and writes. The batch loops are folds over the batch.
  The order action is a fold that stops at the first failed guard. Each
  fold has lemmas that state its per-record effect.
- `store.dfy` (module `Store`): class `RequestStore`. Its fields are the
  request map and one sequence per kind of downstream record. Its methods
  update them in place, loop by loop. Each method is proved to leave exactly
  the state that the matching `Workflow` function computes.
- `order_properties.dfy` (module `OrderProperties`): what one order call does
  to a whole batch.
  - Which records it skips.
  - When it stops, and what stays behind then.
  - What each fulfilled request references afterwards.
  - How purchase requests share orders by vendor.
  - Which downstream records it creates, one per fulfilled request, in
    batch order.
- `examples_order.dfy` (module `OrderExamples`): concrete order calls.

Downstream records are identified by their position in the store's
sequence of that kind, so creating one appends to that sequence. Records
are identified by natural numbers. A batch (the recordset a method is
called on) is a sequence of stored identifiers.

Two behaviours of the code are worth naming:

- A purchase request that already holds an order and finds no accepted
  request of its vendor in the current call keeps the order it holds: no
  order is created for it and it is not accepted, so a later request of the
  same vendor in that call does not join it (`models/material_request.py:187`).
- Reset never clears references. Re-ordering a reset request therefore
  replaces the reference of a manufacture or design request, and of a
  purchase request whose vendor already has an accepted request in the
  call; a purchase request with no such match keeps its held order.

## Model

| member | source | states |
|---|---|---|
| Requests.Validate | models/material_request.py:156-171 | The guards run in order: no action or "none" → missing action; purchase without vendor → missing vendor; manufacture with quantity exactly 0 → missing quantity. The result is no error iff the action is fulfillable and its guard holds. Each reason holds iff its condition does. The error names the record. A negative quantity passes. |
| Requests.NewRequest | models/material_request.py:103-109 | A created request is draft with no references and keeps the given product, quantity and vendor. The action defaults to "none". A missing or placeholder name takes the sequence value, or "New" when the sequence yields nothing. |
| Store.RequestStore.Create | models/material_request.py:103-109 | Stores exactly `NewRequest(...)` under the new identifier. Nothing else changes. |
| Workflow.Advance | models/material_request.py:111-114 | The state-moving batch loop as a fold. The same identifiers stay stored. |
| Workflow.AdvanceEffect | models/material_request.py:232-235 | After the loop, a record of the batch that was in `from` is in `to` with every other field kept. Every other record is unchanged. |
| Store.RequestStore.AdvanceBatch | models/material_request.py:131-134 | The loop leaves exactly `Advance` of the old records. Downstream records are untouched. |
| Store.RequestStore.ActionConfirm | models/material_request.py:111-114 | Moves draft → pending over the batch, as `Advance` states. |
| Store.RequestStore.ActionApprove | models/material_request.py:131-134 | Moves pending → approved over the batch, as `Advance` states. |
| Store.RequestStore.ActionDone | models/material_request.py:232-235 | Moves ordered → done over the batch, as `Advance` states. |
| Workflow.SetOne | models/material_request.py:267-273 | Fails iff the batch does not hold exactly one record, with the batch size as the error. Otherwise that record takes the new state from any state and keeps every other field, references included. Every other record is unchanged. |
| Store.RequestStore.ActionRefuse | models/material_request.py:267-269 | On a singleton batch, the record becomes refused. Otherwise nothing changes and the error is returned. |
| Store.RequestStore.ActionReset | models/material_request.py:271-273 | On a singleton batch, the record becomes draft and keeps its references. Otherwise nothing changes and the error is returned. |
| Workflow.Unlinked | models/material_request.py:275-278 | The deletion loop as a fold. It only removes records, and stops at a draft record that a manufacturing order references (the restricted back-reference of models/mrp_production.py:7-13). |
| Workflow.UnlinkedEffect | models/material_request.py:275-278 | Only unreferenced draft records of the batch are deleted, and survivors are unchanged. The call raises iff some draft record of the batch is referenced by a manufacturing order; the error names such a record, which survives. Without an error every draft record of the batch is gone. |
| Store.RequestStore.Unlink | models/material_request.py:275-278 | The loop leaves exactly the records and the error of `Unlinked`. |
| Workflow.UnlinkedStops | models/mrp_production.py:7-13 | A referenced draft record stops the deletion with its error: the records of the batch before it are deleted as usual, and it and the rest of the batch stay. |
| Workflow.FirstMatch | models/material_request.py:182-186 | Returns the position of the first accepted entry with the vendor, or none when no entry has it. |
| Workflow.PurchaseStep | models/material_request.py:181-196 | The first accepted entry of the vendor whose record holds an order lends it: the record takes that order and nothing is created or accepted. With no entry, a record that holds an order keeps it and nothing is created or accepted. A new order for the vendor is created exactly when neither gives an order; the record then gets it and is appended to the accepted list. In every case only the record's order reference changes, and one line with its product and quantity is appended on the order it ends up with. Other records are unchanged. |
| Store.RequestStore.ProcessPurchase | models/material_request.py:181-196 | The scan-and-create code leaves exactly the state and accepted list of `PurchaseStep`. |
| Workflow.ManufactureStep | models/material_request.py:198-203 | Appends one manufacturing order with the record's product, quantity and back-reference. The record references it. Nothing else changes. |
| Store.RequestStore.ProcessManufacture | models/material_request.py:198-203 | Leaves exactly the state of `ManufactureStep`. |
| Workflow.DesignStep | models/material_request.py:205-213 | Appends one design change request with the record's name, product and back-reference. The record references it. Nothing else changes. |
| Store.RequestStore.ProcessDesign | models/material_request.py:205-213 | Leaves exactly the state of `DesignStep`. |
| Workflow.OrderStep | models/material_request.py:153-178 | A record that is not approved is skipped with nothing changed. An approved record fails iff a guard fails, with that guard's error. Otherwise it ends ordered, with the reference of its action's kind (`Fulfilled`), and other records are unchanged. |
| Store.RequestStore.OrderOne | models/material_request.py:153-178 | One loop iteration leaves exactly the state of `OrderStep`. On a failed guard it returns the error and changes nothing. |
| Workflow.Order | models/material_request.py:151-178 | The order loop over a batch. It only updates records and only appends downstream records. The accepted list only grows. |
| Store.RequestStore.ActionOrder | models/material_request.py:151-178 | The loop leaves exactly the state and error of `Order` started with an empty accepted list. It stops at the first error, and earlier records keep their changes. |
| OrderProperties.OrderSkips | models/material_request.py:153-155 | A record outside the batch, or not approved, ends exactly as it was. |
| OrderProperties.OrderSplit | models/material_request.py:151-153 | Ordering `pre + post` is ordering `pre`, then `post` unless `pre` raised. |
| OrderProperties.OrderStopsAtFailure | models/material_request.py:156-171 | An approved record that fails a guard stops the call with that guard's error. The record stays as it was, and the records before it keep their changes. |
| OrderProperties.OrderSucceedsWhenValid | models/material_request.py:156-171 | If every approved record of the batch passes the guards, the call raises nothing. |
| OrderProperties.OrderFailureNamesRecord | models/material_request.py:156-171 | A raised error is the failed guard of an approved record of the batch, and that record is left unchanged. |
| OrderProperties.OrderFulfils | models/material_request.py:172-178 | When nothing is raised, every approved record of the batch ends ordered and references a downstream record of its action's kind. A created manufacturing order or design change request carries its data. Other fields are unchanged. |
| OrderProperties.PurchaseStepGroups | models/material_request.py:181-189 | One purchase fulfilment keeps the accepted entries well formed. A record that had no order, or whose vendor has an entry, ends holding its vendor's group order, an order for its vendor. |
| OrderProperties.StepKeepsGroups | models/material_request.py:182-188 | One loop iteration keeps every accepted entry an ordered record that holds an order for the entry's vendor. |
| OrderProperties.OrderKeepsGroups | models/material_request.py:182-188 | The whole call keeps the accepted entries well formed. |
| OrderProperties.GroupOrderStable | models/material_request.py:182-186 | Once a vendor has an entry, the rest of the call keeps that entry's order. |
| OrderProperties.OrderGroupsByVendor | models/material_request.py:181-189 | When nothing is raised, an approved purchase request that held no order ends on its vendor's group order, an existing order for its vendor. |
| OrderProperties.SameVendorSharesOrder | models/material_request.py:182-189 | Two such requests for the same vendor in one call end on the same purchase order. |
| OrderProperties.OtherVendorOtherOrder | models/material_request.py:187-189 | Two such requests for different vendors end on different purchase orders. |
| OrderProperties.StepCreates | models/material_request.py:172-213 | One iteration appends one manufacturing order, design change request or order line to the fulfilled record, matching its action, and nothing for a skipped record. |
| OrderProperties.OrderCreatesProductions | models/material_request.py:198-203 | On a batch without repeats that raises nothing, the call appends exactly one manufacturing order per approved manufacture request, in batch order. |
| OrderProperties.OrderCreatesEcos | models/material_request.py:205-213 | Likewise, exactly one design change request per approved design request, in batch order. |
| OrderProperties.OrderAddsLines | models/material_request.py:190-195 | Likewise, exactly one order line per approved purchase request, in batch order, each on the order that request ends up holding. |
| OrderExamples.SameVendorOneOrder | models/material_request.py:181-195 | Two approved purchase requests for one vendor give one new purchase order with two lines (5 and 3). Both requests reference that order and are ordered. |
| OrderExamples.ZeroQuantityRaises | models/material_request.py:166-171 | An approved manufacture request with quantity 0 raises the missing-quantity error and nothing changes. |
| OrderExamples.NegativeQuantityPasses | models/material_request.py:166 | A manufacture request with quantity -2 passes the guard and gets a manufacturing order for -2. |
| OrderExamples.HeldOrderNotShared | models/material_request.py:187-189 | A request that still holds an order keeps it and opens no vendor entry. A later request for the same vendor then gets a new order. |
| OrderExamples.OrderedThenResetNotDeleted | models/mrp_production.py:7-13 | A manufacture request that was ordered and then reset to draft is not deleted: deleting it raises, because its manufacturing order references it. |

## Left out

- Notifications: the group lookups and chatter messages of confirm, approve and order (lines 115-129, 135-149, 179, 215-230). They only post messages and change no modelled state.
- The view actions `action_view_related_order` and `action_view_related_eco` (lines 237-265). They return window descriptions and change nothing.
- The `.ids.append(...)` calls of lines 190 and 196. They append to a list copy and change no stored field. The links they mention follow from the order reference and the line's order.
- The purchase order, order line, manufacturing order and design change request models are not part of this model. Each is reduced to the fields the request sets on it. For design change requests this leaves out the type, the stage and the product template lookup.
- Transactions: the framework rolls back the database when an action raises. The model gives the state at the moment of the raise, in which records fulfilled earlier in the batch keep their changes.
- The user and request date fields. They are set from the session and the clock at creation and no action reads them.
- Floating point: quantities are reals. The only test on them is comparison with zero.
- Store.RequestStore.Unlink: requires a batch without repeated records. A repeated record would be read after its deletion.
- Workflow.Unlinked, Workflow.UnlinkedEffect: only manufacturing orders restrict deletion. The back-reference that design change requests carry is declared in a model that is not part of this model, so the model lets a referenced draft request with a design change request be deleted.
- OrderProperties.SameVendorSharesOrder: covers only requests that held no order. A request that still holds one keeps it; see `OrderExamples.HeldOrderNotShared`.
- OrderProperties.OrderCreatesProductions, OrderCreatesEcos, OrderAddsLines: stated for batches without repeated records and for calls that raise nothing.
