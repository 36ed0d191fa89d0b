# AfterMarket Intelligence: a verified model of the quotation workflow

AfterMarket Intelligence is a Streamlit application for the aftermarket division of a heavy-equipment maker. Customers file inquiries for spare parts. A validator sends each inquiry either straight to costing (local parts) or first to a localization project (imported parts). Cost control prices the part with a fixed formula and submits a Draft quotation. A superior approves it or sends it back for revision. The customer can cancel an active inquiry or raise a purchase order on an approved quotation. Everything is kept in a sqlite store behind `DatabaseManager`.

This project models that core in Dafny:

- `pricing.dfy` (module `Pricing`): the pricing formula, over exact reals.
- `database.dfy` (module `Database`): the store. It holds the three tables of the schema as maps keyed by primary key, plus the AUTOINCREMENT counter and the insertion order of quotations. It is a class whose methods update those fields.
  - Seven store methods that `app.py` calls are not defined in `DatabaseManager` at all (`modules/database_manager.py` ends at `update_quotation_status`), so as written each call raises AttributeError; for example the cancel tab fails at `app.py:212` on every visit. They are modelled with ASSUMED behaviour, each marked as such, and so is the localization-project table they use.
- `workflow.dfy` (module `Workflow`): one method per button handler of `app.py`.
  - Each method's precondition is the listing the page draws the row from, i.e. the status filter that decides whether the button is shown at all.
  - Each postcondition ties the new tables to a pure step function of the old ones (`NewInquiryStep`, `SetStatusStep`, `StartLocalizationStep`, `FinishLocalizationStep`, `SubmitDraftStep`, `ApproveStep`, `ReviseStep`). The Draft the costing form builds is `DraftQuotation`, and the validation buttons are `Offered` and `ValidationTarget`. These definitions carry no contract of their own; the rows of the handlers that use them, and of `Workflow.DraftQuotationFields`, state what they compute.
- `invariants.dfy` (module `Invariants`): what the workflow keeps true. The intended properties are "an inquiry is Waiting Approval exactly when it has one Draft" and "an inquiry has at most one live (Draft or Approved) quotation". The first is split in two:
  - `WorkflowInvariant`: every Draft has its inquiry, no inquiry has two Drafts, and a Waiting Approval inquiry has its Draft. Apart from Waiting Approval, only a Cancelled inquiry may still hold a Draft. Approved quotations belong to Finished or PO Created inquiries, no inquiry has two Approved quotations, and open localization projects to inquiries In Development or Cancelled. The Cancelled case covers an inquiry cancelled while its project runs. Every step function keeps it.
  - `NoOrphanDrafts`: no Cancelled inquiry holds a Draft. Every step function keeps it except one, cancelling a Waiting Approval inquiry, and for that step the model proves what goes wrong.
  - Together the two give the equivalence. `WorkflowInvariant` alone gives the second property (`Invariants.AtMostOneLiveQuotation`). In the table below, "keeps both" means a step keeps `WorkflowInvariant` and keeps `NoOrphanDrafts`.
  - One method per handler (`Invariants.SubmitInquiryKeepsInvariant` and its siblings) runs the handler on the store. Each proves the store keeps both properties.
- `benchmark.dfy` (module `Benchmark`): the regional price benchmark lookup on the costing and approval pages (see Findings).
- `scenarios.dfy` (module `Scenarios`): whole runs on an empty store, through the handler methods, with the outcome each run promises.

Three behaviours of the code are worth stating outright:

- **Worked example.** The formula in `app.py:27-35` prices a part of cost 45 at the default 10% profit at 46.35 / 0.832 ≈ 55.71, which `Pricing.WorkedExample` proves.
- **Unknown part numbers.** `add_inquiry` (`modules/database_manager.py:100-105`) does not check the part number, and sqlite leaves the foreign key off, so `AddInquiry` accepts any part number. The customer form only offers known parts, which is why `Workflow.SubmitInquiry` requires one.
- **Purchase orders.** The filter at `app.py:226` only excludes "PO Created". `Invariants.PurchaseOrderOnlyAfterFinished` proves that in every state satisfying the workflow invariant it admits only Finished inquiries. `Invariants.POCreatedIsTerminal` proves that APPROVE, REVISE and Finish Development leave a PO Created inquiry unchanged. The other handlers' preconditions exclude PO Created.

Cancelled is not a final status either. Cancelling is offered for every status except Cancelled, PO Created and Finished (`app.py:213`). Three paths lead out of Cancelled again:

- APPROVE of a Draft left behind by cancelling a Waiting Approval inquiry makes the inquiry Finished (`Invariants.CancelWaitingApprovalOrphansDraft`).
- REVISE of that Draft makes it Revise Required, which puts it back on the costing list (`Invariants.ReviseOrphanReopens`).
- An inquiry cancelled In Development keeps its localization project on progress and listed. Finishing the project makes the inquiry Ready for Costing (`Invariants.CancelDuringDevelopmentReopens`).

## Model

| member | source | states |
|---|---|---|
| Pricing.CalculateFinancials | app.py:27-35 | SDC is 3% of cost and SVC is cost plus SDC (1.03 × cost). When the denominator 1 − 0.038 − p/100 − 0.03 is zero or negative, the sales price and operating profit are 0 instead of an error. |
| Pricing.SalesPriceLeavesSvc | app.py:30-34 | With a positive denominator, price × denominator = SVC: after the two fees and the profit share, exactly SVC remains. The operating profit is p% of the price. |
| Pricing.SalesPriceFormula | app.py:31-33 | With a positive denominator the price is 1.03 × cost / (0.932 − p/100). |
| Pricing.SalesPriceDecomposition | app.py:31-34 | The price equals SVC + 3.8% fee + 3% fee + operating profit. |
| Pricing.SalesPriceCoversSvc | app.py:28-33 | For non-negative cost and profit with a positive denominator, the price is at least SVC. |
| Pricing.SalesPriceMonotoneInProfit | app.py:30-33 | For a non-negative cost, a higher target profit never gives a lower price while the denominator stays positive. |
| Pricing.WorkedExample | app.py:27-35 | Cost 45 at the default 10% gives denominator 0.832, SDC 1.35, SVC 46.35, a price between 55.70 and 55.72 and an operating profit between 5.57 and 5.58. |
| Database.SetInquiryStatus | modules/database_manager.py:115-120 | Only the row with that id changes: its status is set, its revision count rises by one when asked and is otherwise unchanged, and its other columns are kept. An unknown id changes nothing. |
| Database.SetQuotationStatus | modules/database_manager.py:139-142 | Only the row with that quote_id changes, and only in its status. An unknown quote_id changes nothing. |
| Database.SelectIds | modules/database_manager.py:107-110 | The scan returns exactly the keys in range whose rows pass the filter, in ascending order. |
| Database.SelectedRowsComplete | modules/database_manager.py:107-110 | When every key lies below the counter, the scan returns every row that passes the filter. |
| Database.SelectQuotations | modules/database_manager.py:132-133 | Exactly the stored quotations with the status. Each comes from the table, and each appears once when the insertion order has no repeats. |
| Database.JoinApproved | app.py:225-226 | Exactly the Approved quotations whose inquiry exists, each paired with that inquiry's current status. |
| Database.DatabaseManager.constructor | modules/database_manager.py:11-51 | Empty tables, with both id counters at 1. |
| Database.DatabaseManager.AddPart | modules/database_manager.py:90-98 | Succeeds exactly when the part number is new: inserts the row and returns "Success". Otherwise it returns "Part Number already exists" and leaves the table alone. |
| Database.DatabaseManager.AddInquiry | modules/database_manager.py:100-105 | A new row under the next AUTOINCREMENT id, which no row had, with revision count 0. The counter advances. |
| Database.DatabaseManager.GetInquiriesByStatus | modules/database_manager.py:107-110 | Exactly the inquiries whose status is in the list, as stored, in id order. |
| Database.DatabaseManager.GetPartDetails | modules/database_manager.py:112-113 | Some(row) exactly when the part number is stored, and that row is the stored one. |
| Database.DatabaseManager.UpdateInquiryStatus | modules/database_manager.py:115-120 | The inquiries table becomes SetInquiryStatus of the old one, and nothing else changes. |
| Database.DatabaseManager.CreateQuotation | modules/database_manager.py:122-130 | Inserts the row and appends its quote_id to the insertion order exactly when the quote_id is new. A duplicate changes nothing (ok is false). |
| Database.DatabaseManager.GetQuotationsByStatus | modules/database_manager.py:132-133 | Exactly the quotations with that status, as stored, each once. |
| Database.DatabaseManager.GetFullResults | modules/database_manager.py:135-137 | The Approved quotations, the same listing as GetQuotationsByStatus(Approved). |
| Database.DatabaseManager.UpdateQuotationStatus | modules/database_manager.py:139-142 | The quotations table becomes SetQuotationStatus of the old one, and nothing else changes. |
| Database.DatabaseManager.GetInquiriesByCustomer | app.py:212-213 | ASSUMED: exactly that customer's inquiries, as stored. |
| Database.DatabaseManager.GetApprovedWithPoCheck | app.py:225-226 | ASSUMED: exactly the Approved quotations whose inquiry exists, each with that inquiry's current status. |
| Database.DatabaseManager.CancelInquiry | app.py:218-219 | ASSUMED: the inquiry becomes Cancelled, and nothing else changes. |
| Database.DatabaseManager.CreatePo | app.py:233-234 | ASSUMED: the inquiry becomes PO Created, and nothing else changes. |
| Database.DatabaseManager.StartLocalization | app.py:283-285 | ASSUMED: a new OnProgress project under the next project id, which no project had. |
| Database.DatabaseManager.GetLocalizationProjects | app.py:291-294 | ASSUMED: exactly the projects still OnProgress, as stored. |
| Database.DatabaseManager.FinishLocalization | app.py:297-299 | ASSUMED: the project becomes DevFinished and its inquiry Ready for Costing. Neither status is checked first. |
| Workflow.DraftQuotationFields | app.py:353-367 | The submitted Draft carries the inquiry's id, customer and part, the cost and profit as entered, MOQ and lead time, SDC = 3% of cost, SVC = 1.03 × cost, and the price that leaves SVC. |
| Workflow.SubmitInquiry | app.py:203-208 | A known part and a quantity of at least 1 give a new Pending Validation inquiry under the next id (NewInquiryStep). |
| Workflow.ValidateInquiry | app.py:245-267 | From Pending Validation, a Local part goes to Ready for Costing. Any other part goes to Needs Localization or Cancelled, as the button pressed says. |
| Workflow.StartLocalization | app.py:274-287 | A Needs Localization inquiry gets an OnProgress project under the next project id, the project counter advances, and the inquiry becomes In Development (StartLocalizationStep). |
| Workflow.FinishLocalization | app.py:291-301 | An OnProgress project becomes DevFinished and its inquiry Ready for Costing (FinishLocalizationStep). |
| Workflow.FileQuotation | app.py:368-369 | A new quote_id: the Draft is stored, appended to the insertion order, and its inquiry becomes Waiting Approval with an unchanged revision count. A taken quote_id: nothing changes and ok is false. |
| Workflow.SubmitCosting | app.py:308-371 | From Ready for Costing or Revise Required, the Draft built from the form is filed as described for FileQuotation (SubmitDraftStep). A taken quote_id changes nothing. |
| Workflow.ApproveQuotation | app.py:378-423 | A listed Draft becomes Approved and its inquiry Finished, whatever the inquiry's status was (ApproveStep). |
| Workflow.ReviseQuotation | app.py:378-428 | A listed Draft becomes Rejected and its inquiry Revise Required with one more revision (ReviseStep). |
| Workflow.CancelInquiry | app.py:212-220 | One of the customer's inquiries that is not Cancelled, PO Created or Finished becomes Cancelled. |
| Workflow.CreatePurchaseOrder | app.py:225-238 | One of the customer's Approved quotations whose inquiry is not PO Created: that inquiry becomes PO Created. |
| Invariants.DraftsAfterInsert | modules/database_manager.py:122-130 | Inserting a Draft adds its quote_id to its own inquiry's Drafts and to no other inquiry's. |
| Invariants.DraftsAfterDecision | modules/database_manager.py:139-142 | Deciding a quotation removes it from every inquiry's Drafts. |
| Invariants.WaitingApprovalIffOneDraft | app.py:368-369 | With the invariant and no orphans, an inquiry is Waiting Approval exactly when it has one Draft, and every Draft's inquiry is Waiting Approval. |
| Invariants.EmptyStoreInvariant | modules/database_manager.py:11-51 | The empty store satisfies the invariant and has no orphans. |
| Invariants.PurchaseOrderOnlyAfterFinished | app.py:225-226 | Under the invariant, an Approved quotation whose inquiry is not PO Created belongs to a Finished inquiry. |
| Invariants.NewInquiryPreserves | app.py:208 | A new inquiry keeps the invariant and keeps the store free of orphans. |
| Invariants.PlainStatusChangePreserves | app.py:257-266 | Moving an inquiry without Draft or project to Ready for Costing, Needs Localization or Cancelled keeps both. |
| Invariants.ValidatePreserves | app.py:245-267 | Every validation outcome keeps both. |
| Invariants.StartLocalizationPreserves | app.py:283-285 | Starting a project for a Needs Localization inquiry keeps both. |
| Invariants.FinishLocalizationPreserves | app.py:297-298 | Finishing an OnProgress project keeps both. |
| Invariants.InsertDraftKeepsDrafts | app.py:368-369 | After a new Draft for a Ready for Costing or Revise Required inquiry, each inquiry still has at most one Draft, Waiting Approval inquiries have theirs, and other inquiries have none. |
| Invariants.InsertDraftKeepsLinks | app.py:368-369 | After the same change, Approved quotations still belong to finished inquiries, and OnProgress projects still belong to inquiries In Development or Cancelled that have no Draft. |
| Invariants.InsertDraftKeepsNoOrphans | app.py:368-369 | The same change creates no orphan Draft. |
| Invariants.SubmitDraftPreserves | app.py:353-371 | Submitting a costing keeps both. |
| Invariants.DecisionDrafts | app.py:419-428 | Under the invariant the decided Draft is its inquiry's only one, the inquiry is Waiting Approval or Cancelled, and afterwards it has no Draft while the others are unchanged. |
| Invariants.DraftApprovedDisjoint | app.py:419-423 | Under the invariant a Draft and an Approved quotation never belong to the same inquiry. |
| Invariants.AtMostOneLiveQuotation | app.py:353-423 | Under the invariant two quotations of one inquiry that are each Draft or Approved are the same quotation. |
| Invariants.DecisionKeepsOneApproved | app.py:419-428 | A decision on a Draft never gives an inquiry a second Approved quotation. |
| Invariants.DecisionKeepsDraftClauses | app.py:419-428 | After a decision every Draft still has its inquiry, no inquiry has two, Waiting Approval inquiries keep theirs, and inquiries that are neither Waiting Approval nor Cancelled have none. |
| Invariants.DecisionKeepsLinks | app.py:419-428 | After a decision Approved quotations still belong to Finished or PO Created inquiries, and OnProgress projects to inquiries In Development or Cancelled without a Draft. |
| Invariants.DecisionPreserves | app.py:419-428 | A decision on a Draft keeps the invariant. |
| Invariants.DecisionKeepsNoOrphans | app.py:419-428 | A decision on a Draft keeps the store free of orphans. |
| Invariants.ApprovePreserves | app.py:419-423 | APPROVE keeps both. |
| Invariants.RevisePreserves | app.py:424-428 | REVISE keeps both. |
| Invariants.CancelPreserves | app.py:212-219 | Cancelling any offered inquiry keeps the invariant. It keeps the store free of orphans unless the inquiry was Waiting Approval. |
| Invariants.PurchaseOrderPreserves | app.py:225-234 | A purchase order keeps both. |
| Invariants.CancelWaitingApprovalOrphansDraft | app.py:213-219 | Cancelling a Waiting Approval inquiry leaves its Draft as an orphan. Approving that Draft then makes the cancelled inquiry Finished. |
| Invariants.ReviseOrphanReopens | app.py:424-426 | Cancelling a Waiting Approval inquiry and then pressing REVISE on its Draft makes the inquiry Revise Required, with one more revision. |
| Invariants.CancelDuringDevelopmentReopens | app.py:291-298 | Cancelling an In Development inquiry leaves its project OnProgress. Finishing the project makes the inquiry Ready for Costing. Both properties hold throughout. |
| Invariants.POCreatedIsTerminal | app.py:225-234 | Under the invariant a PO Created inquiry has no Draft and no open project. APPROVE, REVISE and Finish Development on any row leave it unchanged. |
| Invariants.SubmitInquiryKeepsInvariant | app.py:203-208 | Sending an inquiry keeps the workflow invariant of the store, and keeps it free of orphans. |
| Invariants.ValidateInquiryKeepsInvariant | app.py:245-267 | Every validation button keeps both on the store. |
| Invariants.StartLocalizationKeepsInvariant | app.py:274-287 | Starting a development project keeps both on the store. |
| Invariants.FinishLocalizationKeepsInvariant | app.py:291-301 | Finishing a development project keeps both on the store. |
| Invariants.SubmitCostingKeepsInvariant | app.py:353-371 | Submitting a costing, whether or not its quote_id is taken, keeps both on the store. |
| Invariants.ApproveQuotationKeepsInvariant | app.py:419-423 | APPROVE keeps both on the store. |
| Invariants.ReviseQuotationKeepsInvariant | app.py:424-428 | REVISE keeps both on the store. |
| Invariants.CancelInquiryKeepsInvariant | app.py:212-220 | Cancelling keeps the workflow invariant of the store. It keeps the store free of orphans unless the inquiry was Waiting Approval. |
| Invariants.CreatePurchaseOrderKeepsInvariant | app.py:225-238 | A purchase order keeps both on the store. |
| Invariants.ReviseAndResubmitIsTheSteps | app.py:368-369 | One REVISE followed by one resubmission does to the inquiries table what ReviseAndResubmit says. |
| Invariants.RevisionCountAfterCycles | app.py:424-428 | n reject-and-resubmit cycles add exactly n to the revision count, end in Waiting Approval, and touch no other inquiry. |
| Benchmark.MissingColumn | app.py:330-333 | Reading a list of columns fails exactly when some column is absent, and the failure names the first absent column. |
| Benchmark.BenchmarkFailsOnSchema | app.py:330-333 | With the parts columns of the schema, the costing page and the approval page both fail at "price_bkc". |
| Benchmark.CostingFormColumnsPresent | app.py:323 | Every column the costing form reads without the benchmark exists in the schema. |
| Scenarios.ImportPartLifecycle | app.py:245-428 | An Import hose goes through localization, is costed at 45 with 10% profit and approved. The inquiry ends Finished and the quotation Approved, at a price between 55.70 and 55.72. |
| Scenarios.ReviseAndResubmitRun | app.py:308-428 | A revised and resubmitted costing leaves the first quotation Rejected and the second a Draft. The inquiry is Waiting Approval with one revision. |
| Scenarios.CancelThenApproveRun | app.py:212-423 | A Waiting Approval inquiry cancelled by its customer becomes Finished once its Draft is approved. |
| Scenarios.DuplicatePartRun | modules/database_manager.py:90-98 | A second add_part for the same number fails with "Part Number already exists" and keeps the first row's cost. |
| Scenarios.QuoteIdCollisionRun | app.py:353-371 | A second costing that draws a taken quote_id is refused. Its inquiry stays Ready for Costing and the quotation keeps its first owner. |

## Left out

- Rendering: the Streamlit pages, widgets, messages, reruns and sleeps are not modelled. A handler is modelled from the moment its button is pressed.
- The home page and the dashboard (charts, counts, the look-up table of regional prices): they only read and display.
- Rounding: `calculate_financials` rounds each figure to two decimals before display and storage. The model keeps exact reals, so stored prices are the unrounded values.
- Pricing.CalculateFinancials: the contract does not model floating-point arithmetic; the reals are exact.
- Form limits: the form clamps profit to 5–50% with a slider, which `Workflow.SubmitCosting` does not require. The formula is modelled for every real profit.
- Random quote numbers: the quote_id `Q-nnnnn` is drawn at random. The model takes it as a parameter, so a repeated draw is modelled as a taken quote_id.
- Unhandled insert errors: as written, a taken quote_id raises and the page fails. The model returns false and changes nothing, which is the same store state.
- Dates: inquiry dates, target dates and `datetime.now` are not modelled. The inquiry row leaves out its date column, and the project's target date is an uninterpreted string.
- Database.DatabaseManager.GetPartDetails: returns None for an unknown part number. The source indexes an empty result and raises. The part number is pasted into the SQL text rather than bound, so a number containing a quote character breaks the query; the model treats it as a plain key.
- Workflow.ValidateInquiry: requires the inquiry's part to exist, because for an unknown part the page's lookup raises before any button is drawn.
- Workflow.SubmitCosting: requires the inquiry's part to exist, for the same reason.
- Item types: `item_type` is a free text column, and `app.py` only compares it with "Local". The model has two values, Local and Import, where Import stands for every other text.
- sqlite, pandas and data frames: connection and commit handling, `get_all_parts`, `create_tables` as SQL text and `populate_dummy_data` (random sample parts) are not modelled. The schema appears only as the row datatypes, and the empty store is the constructor.
- The procurement predictor (`modules/ai_predictor.py`): it only proposes MOQ and lead time, which the user may overwrite. The handler takes both as arguments.
- The e-mail page and `modules/email_service.py`: a simulation that only displays text.
- The seven ASSUMED store methods (cancel_inquiry, get_inquiries_by_customer, get_approved_with_po_check, create_po, start_localization, finish_localization, get_localization_projects) are not defined in `DatabaseManager`, so as written each call raises AttributeError (the start-development button, for one, fails at `app.py:284` before `app.py:285` writes In Development). Their effects are inferred from how `app.py` uses them.
- Database.DatabaseManager.CreatePo: the PO number is not stored, because where the missing method keeps it is not visible.
- Concurrency: several browser sessions sharing one sqlite file are not modelled. Each handler is one atomic step.
- Row order: listings come back in id order, and quotations in insertion order. This is sqlite's usual order without ORDER BY, not a guarantee the source relies on.

## Findings

| source | as written | input that shows it | evidently intended | confidence | as-written member | corrected member |
|---|---|---|---|---|---|---|
| app.py:330-333 and app.py:403-413 | The costing and approval pages read `price_bkc`, `price_prpd`, `price_kipl`, `price_ksc` and `price_kac` from the part's row. The parts table (modules/database_manager.py:14-21) has none of these columns, so the page raises a KeyError before its buttons are reached. | Any part created by the schema, e.g. "303-66-7773" with cost 45: the read of "price_bkc" fails. | The benchmark only informs the user. The costing form and the APPROVE/REVISE buttons work from the columns the schema has. | medium; not executed | Benchmark.BenchmarkFailsOnSchema | Benchmark.CostingFormColumnsPresent, with Workflow.SubmitCosting, Workflow.ApproveQuotation and Workflow.ReviseQuotation modelling the pages without the benchmark |
