/**
 * The inquiry/quotation workflow that app.py's pages drive through the
 * store. Each button handler becomes one method over the store; its
 * precondition is the listing the page takes the row from (the status
 * filter that decides whether the action is offered at all), and its
 * postcondition ties the new tables to a pure step function of the old
 * ones, so that the invariants in module Invariants can be proved about
 * the step functions.
 */
module Workflow {
  import opened Database
  import opened Pricing

  /** The tables the workflow changes. */
  datatype State = State(inquiries: map<nat, Inquiry>, quotations: map<string, Quotation>,
                         projects: map<nat, LocalizationProject>)

  function Observe(db: DatabaseManager): State
    reads db
  {
    State(db.inquiries, db.quotations, db.projects)
  }

  // ---------------------------------------------------------------------
  // Step functions: what each handler does to the tables
  // ---------------------------------------------------------------------

  /** A customer's new inquiry under a fresh id, in Pending Validation. */
  function NewInquiryStep(s: State, id: nat, customer: string, partNo: string, qty: int): State
  {
    s.(inquiries := s.inquiries[id := Inquiry(id, customer, partNo, qty, PendingValidation, 0)])
  }

  /** A single update_inquiry_status. */
  function SetStatusStep(s: State, id: nat, status: InquiryStatus): State
  {
    s.(inquiries := SetInquiryStatus(s.inquiries, id, status, false))
  }

  /** start_localization and then In Development for the project's inquiry. */
  function StartLocalizationStep(s: State, project: LocalizationProject): State
  {
    s.(projects := s.projects[project.projectId := project],
       inquiries := SetInquiryStatus(s.inquiries, project.inquiryId, InDevelopment, false))
  }

  /** finish_localization: the project is finished and its inquiry Ready for Costing. */
  function FinishLocalizationStep(s: State, projectId: nat): State
    requires projectId in s.projects
  {
    var project := s.projects[projectId];
    s.(projects := s.projects[projectId := project.(status := DevFinished)],
       inquiries := SetInquiryStatus(s.inquiries, project.inquiryId, ReadyForCosting, false))
  }

  /** The Draft quotation the costing form builds (app.py:354-367). */
  function DraftQuotation(inquiry: Inquiry, quoteId: string, cost: real, profit: real,
                          moq: int, leadtime: int): Quotation
  {
    var fin := CalculateFinancials(cost, profit);
    Quotation(quoteId, inquiry.id, inquiry.customerName, inquiry.partNumber, fin.salesPrice,
              profit, cost, fin.sdc, fin.svc, moq, leadtime, Draft)
  }

  /**
   * What the costing form submits: a Draft for the inquiry, carrying its
   * customer and part, the cost and profit as entered, and SDC, SVC and the
   * sales price as calculate_financials gives them.
   */
  lemma DraftQuotationFields(inquiry: Inquiry, quoteId: string, cost: real, profit: real, moq: int, leadtime: int)
    ensures var q := DraftQuotation(inquiry, quoteId, cost, profit, moq, leadtime);
            && q.quoteId == quoteId && q.status == Draft && q.inquiryId == inquiry.id
            && q.customerName == inquiry.customerName && q.partNumber == inquiry.partNumber
            && q.costPrice == cost && q.profitPercentage == profit && q.moq == moq && q.leadtime == leadtime
            && q.sdc == cost * 0.03 && q.svc == cost * 1.03
            && (Denominator(profit) > 0.0 ==> q.salesPrice * Denominator(profit) == q.svc)
            && (Denominator(profit) <= 0.0 ==> q.salesPrice == 0.0)
  {
    SalesPriceLeavesSvc(cost, profit);
  }

  /** create_quotation of a draft and then Waiting Approval for its inquiry. */
  function SubmitDraftStep(s: State, q: Quotation): State
  {
    s.(quotations := s.quotations[q.quoteId := q],
       inquiries := SetInquiryStatus(s.inquiries, q.inquiryId, WaitingApproval, false))
  }

  /** APPROVE: the quotation Approved, its inquiry Finished. */
  function ApproveStep(s: State, quoteId: string): State
    requires quoteId in s.quotations
  {
    s.(quotations := SetQuotationStatus(s.quotations, quoteId, Approved),
       inquiries := SetInquiryStatus(s.inquiries, s.quotations[quoteId].inquiryId, Finished, false))
  }

  /** REVISE: the quotation Rejected, its inquiry Revise Required with one more revision. */
  function ReviseStep(s: State, quoteId: string): State
    requires quoteId in s.quotations
  {
    s.(quotations := SetQuotationStatus(s.quotations, quoteId, Rejected),
       inquiries := SetInquiryStatus(s.inquiries, s.quotations[quoteId].inquiryId, ReviseRequired, true))
  }

  // ---------------------------------------------------------------------
  // Handlers
  // ---------------------------------------------------------------------

  /** The validation buttons (app.py:256, 260, 265). */
  datatype ValidationDecision = ValidateLocal | SendToLocalization | RejectInquiry

  /** A Local part gets only "Validate Local"; any other part gets the other two buttons. */
  predicate Offered(itemType: ItemType, decision: ValidationDecision)
  {
    if itemType == Local then decision == ValidateLocal else decision != ValidateLocal
  }

  /** The status each validation button writes. */
  function ValidationTarget(decision: ValidationDecision): InquiryStatus
  {
    match decision
    case ValidateLocal => ReadyForCosting
    case SendToLocalization => NeedsLocalization
    case RejectInquiry => Cancelled
  }

  /** Customer portal, "Send Inquiry Request": the form lists only known parts and asks for at least one piece. */
  method SubmitInquiry(db: DatabaseManager, customer: string, partNo: string, qty: int)
    requires db.Valid()
    requires partNo in db.parts && qty >= 1
    modifies db`inquiries, db`nextId
    ensures db.Valid()
    ensures old(db.nextId) !in old(db.inquiries) && db.nextId == old(db.nextId) + 1
    ensures Observe(db) == NewInquiryStep(old(Observe(db)), old(db.nextId), customer, partNo, qty)
  {
    db.AddInquiry(customer, partNo, qty, PendingValidation);
  }

  /**
   * Inquiry validation: the page lists Pending Validation inquiries, looks
   * up the part (which must exist, or the page fails) and offers buttons by
   * the part's item type.
   */
  method ValidateInquiry(db: DatabaseManager, inquiryId: nat, decision: ValidationDecision)
    requires db.Valid()
    requires inquiryId in db.inquiries && db.inquiries[inquiryId] in db.GetInquiriesByStatus([PendingValidation])
    requires db.inquiries[inquiryId].partNumber in db.parts
    requires Offered(db.parts[db.inquiries[inquiryId].partNumber].itemType, decision)
    modifies db`inquiries
    ensures db.Valid()
    ensures old(db.inquiries[inquiryId].status) == PendingValidation
    ensures Observe(db) == SetStatusStep(old(Observe(db)), inquiryId, ValidationTarget(decision))
    ensures old(db.parts[db.inquiries[inquiryId].partNumber].itemType) == Local
            ==> db.inquiries[inquiryId].status == ReadyForCosting
    ensures old(db.parts[db.inquiries[inquiryId].partNumber].itemType) == Import
            ==> db.inquiries[inquiryId].status in {NeedsLocalization, Cancelled}
  {
    var detail := db.GetPartDetails(db.inquiries[inquiryId].partNumber);
    if detail.value.itemType == Local {
      db.UpdateInquiryStatus(inquiryId, ReadyForCosting);
    } else if decision == SendToLocalization {
      db.UpdateInquiryStatus(inquiryId, NeedsLocalization);
    } else {
      db.UpdateInquiryStatus(inquiryId, Cancelled);
    }
  }

  /** "Start Development Project" for an inquiry listed as Needs Localization. */
  method StartLocalization(db: DatabaseManager, inquiryId: nat, supplierName: string,
                           targetDate: string, notes: string)
    requires db.Valid()
    requires inquiryId in db.inquiries && db.inquiries[inquiryId] in db.GetInquiriesByStatus([NeedsLocalization])
    modifies db`projects, db`nextProjectId, db`inquiries
    ensures db.Valid()
    ensures old(db.inquiries[inquiryId].status) == NeedsLocalization
    ensures old(db.nextProjectId) !in old(db.projects) && db.nextProjectId == old(db.nextProjectId) + 1
    ensures Observe(db) == StartLocalizationStep(old(Observe(db)),
              LocalizationProject(old(db.nextProjectId), inquiryId, old(db.inquiries[inquiryId].partNumber),
                                  supplierName, targetDate, notes, OnProgress))
    ensures db.inquiries[inquiryId].status == InDevelopment
  {
    var row := db.inquiries[inquiryId];
    db.StartLocalization(row.id, row.partNumber, supplierName, targetDate, notes);
    db.UpdateInquiryStatus(row.id, InDevelopment);
  }

  /** "Finish Development & Release to Costing" for a project listed as on progress. */
  method FinishLocalization(db: DatabaseManager, projectId: nat)
    requires db.Valid()
    requires projectId in db.projects && db.projects[projectId] in db.GetLocalizationProjects()
    modifies db`projects, db`inquiries
    ensures db.Valid()
    ensures old(db.projects[projectId].status) == OnProgress
    ensures Observe(db) == FinishLocalizationStep(old(Observe(db)), projectId)
    ensures db.projects[projectId].status == DevFinished
    ensures old(db.projects[projectId].inquiryId) in db.inquiries
            ==> db.inquiries[old(db.projects[projectId].inquiryId)].status == ReadyForCosting
  {
    var row := db.projects[projectId];
    db.FinishLocalization(row.projectId, row.inquiryId);
  }

  /**
   * The end of "Submit to Superior": create_quotation of the built draft and,
   * when the insert goes through, Waiting Approval for its inquiry. When the
   * quote_id is already taken the insert raises, the handler stops there and
   * nothing changes (ok is false).
   */
  method FileQuotation(db: DatabaseManager, q: Quotation) returns (ok: bool)
    requires db.Valid() && q.inquiryId in db.inquiries
    modifies db`quotations, db`quoteOrder, db`inquiries
    ensures db.Valid()
    ensures ok <==> q.quoteId !in old(db.quotations)
    ensures ok ==> Observe(db) == SubmitDraftStep(old(Observe(db)), q)
    ensures ok ==> db.quoteOrder == old(db.quoteOrder) + [q.quoteId]
    ensures ok ==> db.inquiries[q.inquiryId].status == WaitingApproval
                   && db.inquiries[q.inquiryId].revisionCount == old(db.inquiries[q.inquiryId].revisionCount)
    ensures !ok ==> Observe(db) == old(Observe(db)) && db.quoteOrder == old(db.quoteOrder)
  {
    ok := db.CreateQuotation(q);
    if ok {
      db.UpdateInquiryStatus(q.inquiryId, WaitingApproval);
    }
  }

  /**
   * "Submit to Superior" for an inquiry listed as Ready for Costing or
   * Revise Required (its part must exist, or the page fails): the draft is
   * built from the form and filed. quoteId is the randomly drawn "Q-nnnnn".
   */
  method SubmitCosting(db: DatabaseManager, inquiryId: nat, quoteId: string, cost: real, profit: real,
                       moq: int, leadtime: int) returns (ok: bool)
    requires db.Valid()
    requires inquiryId in db.inquiries
    requires db.inquiries[inquiryId] in db.GetInquiriesByStatus([ReadyForCosting, ReviseRequired])
    requires db.inquiries[inquiryId].partNumber in db.parts
    modifies db`quotations, db`quoteOrder, db`inquiries
    ensures db.Valid()
    ensures old(db.inquiries[inquiryId].status) in {ReadyForCosting, ReviseRequired}
    ensures ok <==> quoteId !in old(db.quotations)
    ensures ok ==> Observe(db) == SubmitDraftStep(old(Observe(db)),
                                   DraftQuotation(old(db.inquiries[inquiryId]), quoteId, cost, profit, moq, leadtime))
    ensures ok ==> db.quoteOrder == old(db.quoteOrder) + [quoteId]
    ensures ok ==> db.inquiries[inquiryId].status == WaitingApproval
                   && db.inquiries[inquiryId].revisionCount == old(db.inquiries[inquiryId].revisionCount)
    ensures !ok ==> Observe(db) == old(Observe(db)) && db.quoteOrder == old(db.quoteOrder)
  {
    var row := db.inquiries[inquiryId];
    var q := DraftQuotation(row, quoteId, cost, profit, moq, leadtime);
    DraftQuotationFields(row, quoteId, cost, profit, moq, leadtime);
    ok := FileQuotation(db, q);
  }

  /** APPROVE on a listed Draft. The inquiry becomes Finished whatever its status was. */
  method ApproveQuotation(db: DatabaseManager, quoteId: string)
    requires db.Valid()
    requires quoteId in db.quotations && db.quotations[quoteId] in db.GetQuotationsByStatus(Draft)
    modifies db`quotations, db`inquiries
    ensures db.Valid()
    ensures old(db.quotations[quoteId].status) == Draft
    ensures Observe(db) == ApproveStep(old(Observe(db)), quoteId)
    ensures db.quotations[quoteId].status == Approved
    ensures db.quotations[quoteId].inquiryId in db.inquiries
            ==> db.inquiries[db.quotations[quoteId].inquiryId].status == Finished
  {
    var row := db.quotations[quoteId];
    db.UpdateQuotationStatus(row.quoteId, Approved);
    db.UpdateInquiryStatus(row.inquiryId, Finished);
  }

  /** REVISE on a listed Draft: rejected, and the inquiry goes back with one more revision. */
  method ReviseQuotation(db: DatabaseManager, quoteId: string)
    requires db.Valid()
    requires quoteId in db.quotations && db.quotations[quoteId] in db.GetQuotationsByStatus(Draft)
    modifies db`quotations, db`inquiries
    ensures db.Valid()
    ensures old(db.quotations[quoteId].status) == Draft
    ensures Observe(db) == ReviseStep(old(Observe(db)), quoteId)
    ensures db.quotations[quoteId].status == Rejected
    ensures var id := db.quotations[quoteId].inquiryId;
            id in db.inquiries ==> (db.inquiries[id].status == ReviseRequired
                                    && db.inquiries[id].revisionCount == old(db.inquiries[id].revisionCount) + 1)
  {
    var row := db.quotations[quoteId];
    db.UpdateQuotationStatus(row.quoteId, Rejected);
    db.UpdateInquiryStatus(row.inquiryId, ReviseRequired, true);
  }

  /** "Cancel Request" on one of the customer's inquiries not Cancelled, PO Created or Finished. */
  method CancelInquiry(db: DatabaseManager, customer: string, inquiryId: nat)
    requires db.Valid()
    requires inquiryId in db.inquiries && db.inquiries[inquiryId] in db.GetInquiriesByCustomer(customer)
    requires db.inquiries[inquiryId].status !in {Cancelled, POCreated, Finished}
    modifies db`inquiries
    ensures db.Valid()
    ensures old(db.inquiries[inquiryId].customerName) == customer
    ensures Observe(db) == SetStatusStep(old(Observe(db)), inquiryId, Cancelled)
    ensures db.inquiries[inquiryId].status == Cancelled
  {
    db.CancelInquiry(inquiryId);
  }

  /**
   * "Submit Purchase Order" on one of the customer's approved quotations
   * whose inquiry is not yet PO Created.
   */
  method CreatePurchaseOrder(db: DatabaseManager, customer: string, quoteId: string, poNumber: string)
    requires db.Valid()
    requires quoteId in db.quotations && db.quotations[quoteId].inquiryId in db.inquiries
    requires ApprovedRow(db.quotations[quoteId], db.inquiries[db.quotations[quoteId].inquiryId].status)
             in db.GetApprovedWithPoCheck()
    requires db.quotations[quoteId].customerName == customer
    requires db.inquiries[db.quotations[quoteId].inquiryId].status != POCreated
    modifies db`inquiries
    ensures db.Valid()
    ensures old(db.quotations[quoteId].status) == Approved
    ensures Observe(db) == SetStatusStep(old(Observe(db)), db.quotations[quoteId].inquiryId, POCreated)
    ensures db.inquiries[db.quotations[quoteId].inquiryId].status == POCreated
  {
    var inquiryId := db.quotations[quoteId].inquiryId;
    db.CreatePo(inquiryId, poNumber);
  }
}
