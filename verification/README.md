# ERPNext list-view status rules and contract status, in Dafny

This project models the decision logic in four ERPNext files:

- the Contract document's status rules (`contract.py`): Active, Inactive or Unsigned from the dates; the fulfilment status from the fulfilment terms and the deadline; and the date check that validation runs first;
- the list-view indicators of Sales Orders, Purchase Orders and Sales Invoices. An indicator is the (label, colour, filter clause) triple the list shows as a status badge. For orders it comes from an ordered, first-match decision table. For invoices it comes from a status-to-colour lookup;
- the bulk actions on checked rows:
  - Email checks the selection before any server call, in all three lists;
  - the Sales Order create-from-order actions check the orders, ask for confirmation, make one call, then split the answer into "created" and "existing" groups.

Everything is a pure function. "Today" is an explicit parameter (`Base.Date` is a day number). Percentages are integers that have already been rounded: Sales Order percentages are in millionths of a percent (they are rounded to 6 decimals), Purchase Order percentages in hundredths (2 decimals). Nothing uses floating point.

The filter clause is modelled as structured data: a list of (field, operator, value) clauses. `Indicators.Serialize` writes a filter as the host's `field,op,value|…` string and `Indicators.Parse` reads it back. `ParseSerialize` proves the round trip for well-formed filters. The Sales Order and Purchase Order `FilterTexts` lemmas, and the Sales Invoice `FilterIsStatus` lemma, prove that the filters produce exactly the strings in ERPNext's list views. `FiltersRoundTrip` (Sales Order, Purchase Order) and `TableFiltersRoundTrip` (Sales Invoice) prove that those filters read back unchanged. For a Sales Invoice status made only of digits, the model's own `Parse` reads the value back as a number clause (`NumeralStatusReadsBackAsNumber`); this is a limit of the model's reader, not host behaviour.

The model also proves when a filter fails to select the row whose label it carries:

- Purchase Order "Delivered" rows get the filter `status,=,Closed`, which they never satisfy. The model keeps this behaviour as written.
- Rules that test "≥ 100" but filter on "= 100" miss rows above 100 percent. These are Sales Order "To Deliver" (fully billed), and Purchase Order "To Receive", "To Bill" and "Completed".

Modules: `Base` (options, dates, checked documents, first-failure scan), `Indicators`, `ContractRules`, `SalesOrderList`, `PurchaseOrderList`, `SalesInvoiceList`, `BulkEmail`, `BulkCreate`.

## Model

| member | source | states |
|---|---|---|
| ContractRules.GetStatus | erpnext/crm/doctype/contract/contract.py:187-206 | with no end date the status is Active; otherwise Active exactly when start ≤ today ≤ end, else Inactive; never Unsigned |
| ContractRules.UpdateContractStatus | erpnext/crm/doctype/contract/contract.py:148-152 | Unsigned exactly for unsigned contracts whatever their dates; a signed contract is Active or Inactive by its date range |
| ContractRules.StatusTexts | erpnext/crm/doctype/contract/contract.py:148-152 | the stored status is one of Active, Inactive, Unsigned, and distinct statuses store distinct words |
| ContractRules.FulfilmentTexts | erpnext/crm/doctype/contract/contract.py:154-172 | the stored fulfilment status is one of N/A, Unfulfilled, Partially Fulfilled, Fulfilled, Lapsed, and distinct statuses store distinct words |
| ContractRules.FulfilmentProgress | erpnext/crm/doctype/contract/contract.py:176-177 | the progress never exceeds the number of terms; it equals it exactly when every term is fulfilled and is 0 exactly when none is |
| ContractRules.ProgressCountsFulfilledFlags | erpnext/crm/doctype/contract/contract.py:176-177 | the progress is the number of `true` fulfilled flags among the terms (multiset count) |
| ContractRules.ProgressMonotone | erpnext/crm/doctype/contract/contract.py:176-177 | marking one term fulfilled raises the progress by one if it was unfulfilled and leaves it unchanged otherwise |
| ContractRules.UpdateFulfilmentStatus | erpnext/crm/doctype/contract/contract.py:154-174 | N/A exactly when fulfilment is not required; Fulfilled exactly when there are terms and all are fulfilled; Lapsed exactly when not fully fulfilled and the deadline is before today; otherwise Unfulfilled (no term fulfilled, including no terms) or Partially Fulfilled (0 < progress < terms) |
| ContractRules.FulfilledNeverLapses | erpnext/crm/doctype/contract/contract.py:167-172 | a Fulfilled contract stays Fulfilled on any day and with any passed deadline |
| ContractRules.DeadlineOnlyLapses | erpnext/crm/doctype/contract/contract.py:167-172 | the deadline can only turn the status into Lapsed; otherwise the status is the one without a deadline |
| ContractRules.ValidateDates | erpnext/crm/doctype/contract/contract.py:144-146 | fails exactly when an end date exists and is strictly before the start date; no end date or equal dates pass |
| ContractRules.Validate | erpnext/crm/doctype/contract/contract.py:30-33 | the date check runs first: a rejected contract gets no status; otherwise both statuses are the update rules' results |
| ContractRules.ValidatedContractActiveOverItsTerm | erpnext/crm/doctype/contract/contract.py:144-152 | a validated signed contract with an end date is Active on its start and end days and Inactive outside them |
| Base.DaysFrom | erpnext/selling/doctype/sales_order/sales_order_list.js:14 | the day difference is negative exactly when the date is before today |
| Base.Names | erpnext/selling/doctype/sales_order/sales_order_list.js:109 | the names of the checked rows, one per row, in order |
| Base.FirstFailure | erpnext/selling/doctype/sales_order/sales_order_list.js:113-117 | no failure exactly when every element passes; otherwise the verdict is the one for the first failing element, and every element before it passes |
| Base.FirstFailureOfPrefix | erpnext/selling/doctype/sales_order/sales_order_list.js:113-117 | once a prefix of the selection fails, later elements do not change the verdict |
| Indicators.ParseSerialize | erpnext/selling/doctype/sales_order/sales_order_list.js:16-17 | reading a well-formed filter's string gives back the same filter, so the string carries exactly the predicate |
| Indicators.SerializeInjective | erpnext/selling/doctype/sales_order/sales_order_list.js:16-17 | two well-formed filters with the same string are equal |
| SalesOrderList.GetIndicator | erpnext/selling/doctype/sales_order/sales_order_list.js:4-39 | every label is one of the seven listed; every colour is green, orange or red; red only for Overdue; the red Overdue indicator with its filter exactly for a row of another status awaiting delivery whose delivery date is past |
| SalesOrderList.StatusRulesComeFirst | erpnext/selling/doctype/sales_order/sales_order_list.js:5-12 | Closed, On Hold and Completed rows get exactly their own indicator (label, colour and `status,=,…` filter) whatever their numbers and dates; orange only for On Hold |
| SalesOrderList.OverdueBeforeTotals | erpnext/selling/doctype/sales_order/sales_order_list.js:13-17 | for an order still to deliver, the label is Overdue exactly when the delivery date is past, and then the indicator is the red Overdue one with its filter, whatever the grand total and billing |
| SalesOrderList.AwaitingDeliveryAlwaysIndicated | erpnext/selling/doctype/sales_order/sales_order_list.js:13-30 | a not-yet-delivered row always gets Overdue, To Deliver or To Deliver and Bill |
| SalesOrderList.NumericRules | erpnext/selling/doctype/sales_order/sales_order_list.js:13-37 | for any other status: awaiting delivery and not overdue, zero total gives To Deliver, else To Deliver and Bill below 100 billed and To Deliver at or above; delivered with a total and billed below 100 gives To Bill; skipping delivery and billed below 100 always gives To Bill |
| SalesOrderList.HalfBilledSkippedOrderIsToBill | erpnext/selling/doctype/sales_order/sales_order_list.js:31-37 | an order of any other status that skips delivery and is billed 50 percent is To Bill |
| SalesOrderList.NoIndicatorExactly | erpnext/selling/doctype/sales_order/sales_order_list.js:31-38 | a row gets no indicator exactly when no rule's condition holds |
| SalesOrderList.DeliveredRowsWithoutIndicator | erpnext/selling/doctype/sales_order/sales_order_list.js:31-38 | with delivery not skipped, no indicator for: delivered = 100 with zero total; delivered and billed both ≥ 100 |
| SalesOrderList.FilterSelectsItsRow | erpnext/selling/doctype/sales_order/sales_order_list.js:26-29 | each indicator's filter selects its own row, except fully billed "To Deliver" rows billed above 100 percent |
| SalesOrderList.FilterTexts | erpnext/selling/doctype/sales_order/sales_order_list.js:5-37 | each rule's filter writes out to exactly the list view's filter string |
| SalesOrderList.FiltersRoundTrip | erpnext/selling/doctype/sales_order/sales_order_list.js:5-37 | every filter a rule returns is well formed, so its string reads back as the same clauses |
| SalesOrderList.SendEmail | erpnext/selling/doctype/sales_order/sales_order_list.js:51-94 | empty selection: nothing happens; a failed check: no call; calls are made exactly when all are submitted and share a title, the first looking up the customer contact |
| BulkEmail.Check | erpnext/selling/doctype/sales_order/sales_order_list.js:59-67 | a document passes exactly when submitted with the first title; a draft or cancelled one gives the draft error even if its title differs |
| BulkEmail.Run | erpnext/selling/doctype/sales_order/sales_order_list.js:55-93 | error implies no calls; calls exactly for a non-empty eligible selection: contact lookup for the first document, then the link lookup sent the checked rows themselves; the error is the first failing document's |
| BulkEmail.FailureSurvivesMoreDocuments | erpnext/selling/doctype/sales_order/sales_order_list.js:59-67 | adding documents after a failing selection leaves the same error and still makes no call |
| BulkCreate.Check | erpnext/selling/doctype/sales_order/sales_order_list.js:113-117 | an order passes exactly when it is submitted and neither On Hold nor Closed |
| BulkCreate.Start | erpnext/selling/doctype/sales_order/sales_order_list.js:106-128 | empty selection does nothing; an error (naming the first bad order's status) exactly when some order fails, and then no prompt and no call; the prompt names the target and the count; the blocking call with all names happens exactly when confirmed |
| BulkCreate.Group | erpnext/selling/doctype/sales_order/sales_order_list.js:136-154 | the group holds exactly the answer's entries with that flag |
| BulkCreate.GroupOfConcat | erpnext/selling/doctype/sales_order/sales_order_list.js:136-154 | grouping keeps the answer's order: the group of a concatenation is the concatenation of the groups |
| BulkCreate.GroupOfOne | erpnext/selling/doctype/sales_order/sales_order_list.js:136-154 | a single entry is kept exactly when its flag is strictly the group's flag |
| BulkCreate.GroupsPartition | erpnext/selling/doctype/sales_order/sales_order_list.js:136-154 | the true, false and other groups split the answer (as multisets), so entries flagged neither true nor false are dropped from both sections |
| BulkCreate.GroupNonEmpty | erpnext/selling/doctype/sales_order/sales_order_list.js:136-154 | a group is non-empty exactly when some entry has its flag |
| BulkCreate.CreatedLines | erpnext/selling/doctype/sales_order/sales_order_list.js:138-146 | one line per created entry, listing its documents |
| BulkCreate.ExistingLines | erpnext/selling/doctype/sales_order/sales_order_list.js:156-164 | one line per existing entry; the "no items" placeholder exactly for entries with no documents |
| BulkCreate.Sections | erpnext/selling/doctype/sales_order/sales_order_list.js:134-167 | created section before existing section; each present exactly when some entry is flagged true (resp. false); no empty section |
| BulkCreate.Arrange | erpnext/selling/doctype/sales_order/sales_order_list.js:148-168 | created section first; each section present exactly when its group is non-empty, holding that group's lines |
| BulkCreate.ServerNotices | erpnext/selling/doctype/sales_order/sales_order_list.js:173-180 | one notice per server message, in order |
| BulkCreate.Handle | erpnext/selling/doctype/sales_order/sales_order_list.js:128-182 | the intended handling: an exception or an empty answer gives no notice, no refresh and leaves the server messages for the host; otherwise the summary, then each server message, then a refresh |
| BulkCreate.ServerMessagesShownOnce | erpnext/selling/doctype/sales_order/sales_order_list.js:172-180 | each server message is shown once: by the action or by the host, never both |
| PurchaseOrderList.GetIndicator | erpnext/buying/doctype/purchase_order/purchase_order_list.js:4-24 | every colour is green or orange and every label one of the seven the list uses |
| PurchaseOrderList.ClosedGuardsRedundant | erpnext/buying/doctype/purchase_order/purchase_order_list.js:11-22 | dropping the `status !== "Closed"` tests changes no indicator; a Closed row always gets Closed |
| PurchaseOrderList.StatusRulesComeFirst | erpnext/buying/doctype/purchase_order/purchase_order_list.js:5-10 | Closed, On Hold and Delivered rows get their own label whatever their percentages |
| PurchaseOrderList.NumericRules | erpnext/buying/doctype/purchase_order/purchase_order_list.js:11-23 | received < 100: To Receive and Bill or To Receive, by billed < 100; received ≥ 100: To Bill below 100 billed, Completed at 100, no indicator exactly above 100 |
| PurchaseOrderList.FilterSelectsItsRow | erpnext/buying/doctype/purchase_order/purchase_order_list.js:9-22 | the filter misses its own row exactly for Delivered (filtered on Closed) and for the "≥ 100" rules when that percentage is not exactly 100 |
| PurchaseOrderList.FilterTexts | erpnext/buying/doctype/purchase_order/purchase_order_list.js:5-22 | each rule's filter writes out to exactly the list view's filter string, Delivered's being `status,=,Closed` |
| PurchaseOrderList.FiltersRoundTrip | erpnext/buying/doctype/purchase_order/purchase_order_list.js:5-22 | every filter a rule returns is well formed, so its string reads back as the same clauses |
| PurchaseOrderList.SendEmail | erpnext/buying/doctype/purchase_order/purchase_order_list.js:36-68 | only a non-empty selection does anything; a failed check: no call; the contact lookup uses the supplier field and the bloomstack_core method |
| SalesInvoiceList.GetIndicator | erpnext/accounts/doctype/sales_invoice/sales_invoice_list.js:8-21 | the label is the status, the filter is status equals the status, and a colour exists exactly for the table's statuses |
| SalesInvoiceList.ColourTable | erpnext/accounts/doctype/sales_invoice/sales_invoice_list.js:9-19 | the table has exactly eight statuses: Paid green; Overdue and Overdue and Discounted red; Unpaid and Unpaid and Discounted orange; Draft grey; Return and Credit Note Issued darkgrey |
| SalesInvoiceList.FilterIsStatus | erpnext/accounts/doctype/sales_invoice/sales_invoice_list.js:20 | the filter string is `status,=,` followed by the status, and the invoice satisfies it |
| SalesInvoiceList.TableFiltersRoundTrip | erpnext/accounts/doctype/sales_invoice/sales_invoice_list.js:9-20 | for every status in the colour table, the filter string reads back as the same clause |
| SalesInvoiceList.NumeralStatusReadsBackAsNumber | erpnext/accounts/doctype/sales_invoice/sales_invoice_list.js:20 | the status is not restricted, and the model's `Parse` reads `status,=,100` as a number clause, so that filter is not well formed and does not read back as text |
| SalesInvoiceList.SendEmail | erpnext/accounts/doctype/sales_invoice/sales_invoice_list.js:24-65 | empty selection: nothing happens; a failed check: no call, before the contact lookup; calls exactly for an eligible selection |

## Left out

- Every server call, the confirmation dialog, the message composer, notices and the list refresh are framework I/O. They are modelled only as values the actions produce: which calls, prompts and notices happen, and in what order. The user's answer to the confirmation is a parameter.
- The Close and Re-open menu items of the Sales Order and Purchase Order lists are left out. They only hand the selection to the framework's `call_for_selected_items`, with no logic of their own.
- Error message texts are not modelled: the errors are the datatypes `BulkEmail.EmailError`, `BulkCreate.CreateError` and `ContractRules.DateError`, and `BulkEmail.Settings` keeps the mixed-counterparty text only as data.
- Message rendering is left out: HTML, translation with `__()` and form links. The create-from-order summary is modelled by its structure (sections, lines, links, placeholder), not its text.
- BulkCreate.Handle: Handle, Sections, Arrange and ServerMessagesShownOnce describe the intended handling of the create-from-order answer, not the callback as ERPNext's Sales Order list writes it. There each summary line is a triple-backtick literal, which JavaScript reads as a template tagged with an empty string, and its substitutions name `order`, which is not in scope (sales_order_list.js:143-145, 161-163). So the callback throws whenever an entry is flagged true or false: before the summary, the server messages and the refresh.
- BulkEmail.Run: the contact lookup's answer is not modelled. The link lookup is made from that lookup's callback, and the model takes it to follow whenever the checks pass.
- `flt` rounding and the framework's date difference are not modelled. Percentages and amounts are already-rounded integers, and the date difference is `delivery date - today` in days.
- SalesOrderList.GetIndicator: a missing delivery date is not modelled; every row has one.
- ContractRules.GetStatus: a missing start date is not modelled; every contract has one.
- SalesInvoiceList.GetIndicator: the colour lookup is modelled as a lookup in the eight-entry table. In JavaScript, a status that names an inherited object property (such as "constructor") would return that property instead of nothing.
- Filters are evaluated against the same rounded values the rules test, not the stored values the host's list query would compare.
- Contract: these parts are database or framework side effects and are left out: naming (`autoname`), project, order and event creation/deletion, `before_submit`, template rendering, the daily `update_status_for_contracts` job, and the `get_events` / `get_party_users` queries. `before_update_after_submit` recomputes the same two statuses as `Validate` without the date check.
- driver.py, contract_dashboard.py and the two patches are not part of this model. They are a single lookup, a static configuration and database deletes.
