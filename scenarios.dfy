/**
 * Whole runs of the workflow on a fresh, empty store, one handler after the
 * other as the pages would call them. Each run's postcondition states the
 * outcome the application promises for that path.
 */
module Scenarios {
  import opened Database
  import opened Workflow

  /** A fresh store holding one part and one Pending Validation inquiry for it (inquiry 1). */
  method PendingInquiry(part: Part, customer: string, qty: int) returns (db: DatabaseManager)
    requires qty >= 1
    ensures fresh(db) && db.Valid()
    ensures db.parts == map[part.partNumber := part]
    ensures db.inquiries == map[1 := Inquiry(1, customer, part.partNumber, qty, PendingValidation, 0)]
    ensures db.quotations == map[] && db.quoteOrder == [] && db.projects == map[]
    ensures db.nextId == 2 && db.nextProjectId == 1
  {
    db := new DatabaseManager();
    var added, msg := db.AddPart(part.partNumber, part.description, part.unit, part.stockOnHand,
                                 part.itemType, part.costPrice);
    assert db.parts == map[part.partNumber := part];
    SubmitInquiry(db, customer, part.partNumber, qty);
  }

  /** The same store once an Import inquiry 1 has been sent to localization. */
  method LocalizationInquiry(part: Part, customer: string, qty: int) returns (db: DatabaseManager)
    requires qty >= 1 && part.itemType == Import
    ensures fresh(db) && db.Valid()
    ensures db.parts == map[part.partNumber := part]
    ensures db.inquiries == map[1 := Inquiry(1, customer, part.partNumber, qty, NeedsLocalization, 0)]
    ensures db.quotations == map[] && db.quoteOrder == [] && db.projects == map[]
    ensures db.nextId == 2 && db.nextProjectId == 1
  {
    db := PendingInquiry(part, customer, qty);
    ValidateInquiry(db, 1, SendToLocalization);
    assert db.inquiries[1].status == NeedsLocalization;
  }

  /** The same store once localization project 1 has started for the Import inquiry 1. */
  method DevelopingInquiry(part: Part, customer: string, qty: int) returns (db: DatabaseManager)
    requires qty >= 1 && part.itemType == Import
    ensures fresh(db) && db.Valid()
    ensures db.parts == map[part.partNumber := part]
    ensures db.inquiries == map[1 := Inquiry(1, customer, part.partNumber, qty, InDevelopment, 0)]
    ensures db.quotations == map[] && db.quoteOrder == []
    ensures db.projects == map[1 := LocalizationProject(1, 1, part.partNumber, "PT. Astra Otoparts", "2025-01-31", "", OnProgress)]
    ensures db.nextId == 2
  {
    db := LocalizationInquiry(part, customer, qty);
    StartLocalization(db, 1, "PT. Astra Otoparts", "2025-01-31", "");
    assert db.inquiries[1].status == InDevelopment;
  }

  /** The same store once the project has finished and released the Import inquiry 1 to costing. */
  method DevelopedInquiry(part: Part, customer: string, qty: int) returns (db: DatabaseManager)
    requires qty >= 1 && part.itemType == Import
    ensures fresh(db) && db.Valid()
    ensures db.parts == map[part.partNumber := part]
    ensures db.inquiries == map[1 := Inquiry(1, customer, part.partNumber, qty, ReadyForCosting, 0)]
    ensures db.quotations == map[] && db.quoteOrder == []
    ensures db.nextId == 2
  {
    db := DevelopingInquiry(part, customer, qty);
    FinishLocalization(db, 1);
    assert db.inquiries[1].status == ReadyForCosting;
  }

  /**
   * The same store once inquiry 1 is Ready for Costing: validated directly
   * for a Local part, through a finished localization project otherwise.
   */
  method ReadyInquiry(part: Part, customer: string, qty: int) returns (db: DatabaseManager)
    requires qty >= 1
    ensures fresh(db) && db.Valid()
    ensures db.parts == map[part.partNumber := part]
    ensures db.inquiries == map[1 := Inquiry(1, customer, part.partNumber, qty, ReadyForCosting, 0)]
    ensures db.quotations == map[] && db.quoteOrder == []
    ensures db.nextId == 2
  {
    if part.itemType == Local {
      db := PendingInquiry(part, customer, qty);
      ValidateInquiry(db, 1, ValidateLocal);
      assert db.inquiries[1].status == ReadyForCosting;
    } else {
      db := DevelopedInquiry(part, customer, qty);
    }
  }

  /**
   * The same store once inquiry 1 has been costed at the part's cost price
   * and the default 10% profit, as Draft quoteId, and waits for approval.
   */
  method CostedInquiry(part: Part, customer: string, qty: int, quoteId: string) returns (db: DatabaseManager)
    requires qty >= 1
    ensures fresh(db) && db.Valid()
    ensures db.parts == map[part.partNumber := part]
    ensures db.inquiries.Keys == {1} && db.inquiries[1] == Inquiry(1, customer, part.partNumber, qty, WaitingApproval, 0)
    ensures db.quotations.Keys == {quoteId}
    ensures db.quotations[quoteId] == DraftQuotation(Inquiry(1, customer, part.partNumber, qty, ReadyForCosting, 0),
                                                     quoteId, part.costPrice, 10.0, 10, 3)
    ensures db.nextId == 2
  {
    db := ReadyInquiry(part, customer, qty);
    var ok := SubmitCosting(db, 1, quoteId, part.costPrice, 10.0, 10, 3);
  }

  /** The same store once the superior has sent the Draft quoteId back for revision. */
  method RevisedInquiry(part: Part, customer: string, qty: int, quoteId: string) returns (db: DatabaseManager)
    requires qty >= 1
    ensures fresh(db) && db.Valid()
    ensures db.parts == map[part.partNumber := part]
    ensures db.inquiries.Keys == {1} && db.inquiries[1] == Inquiry(1, customer, part.partNumber, qty, ReviseRequired, 1)
    ensures db.quotations.Keys == {quoteId} && db.quotations[quoteId].status == Rejected
  {
    db := CostedInquiry(part, customer, qty, quoteId);
    ReviseQuotation(db, quoteId);
    assert db.inquiries[1].status == ReviseRequired && db.inquiries[1].revisionCount == 1;
  }

  /**
   * An imported hose: sent to localization, developed, released to costing
   * at cost 45 with the default 10% profit, and approved. The inquiry ends
   * Finished, the quotation Approved at about 55.71.
   */
  method ImportPartLifecycle() returns (inquiryStatus: InquiryStatus, quoteStatus: QuoteStatus, price: real)
    ensures inquiryStatus == Finished && quoteStatus == Approved
    ensures 55.70 < price < 55.72
  {
    var hose := Part("303-66-7773", "Hose", "MTR", 200, Import, 45.0);
    var db := CostedInquiry(hose, "KMSI", 10, "Q-10001");
    price := db.quotations["Q-10001"].salesPrice;
    Pricing.WorkedExample();
    ApproveQuotation(db, "Q-10001");
    inquiryStatus := db.inquiries[1].status;
    quoteStatus := db.quotations["Q-10001"].status;
  }

  /**
   * A local pin costed, sent back by the superior and costed again: the
   * first quotation is Rejected, the inquiry counts one revision and waits
   * for approval of the second quotation.
   */
  method ReviseAndResubmitRun() returns (inquiryStatus: InquiryStatus, revisions: nat,
                                         firstQuote: QuoteStatus, secondQuote: QuoteStatus)
    ensures inquiryStatus == WaitingApproval && revisions == 1
    ensures firstQuote == Rejected && secondQuote == Draft
  {
    var pin := Part("202-44-5552", "Pin", "PCS", 50, Local, 12.0);
    var db := RevisedInquiry(pin, "KMSI", 4, "Q-10001");
    var ok := SubmitCosting(db, 1, "Q-10002", 11.5, 8.0, 10, 3);
    inquiryStatus := db.inquiries[1].status;
    revisions := db.inquiries[1].revisionCount;
    firstQuote := db.quotations["Q-10001"].status;
    secondQuote := db.quotations["Q-10002"].status;
  }

  /**
   * A customer cancels an inquiry that is Waiting Approval. Its Draft stays
   * listed for the superior, and approving it makes the cancelled inquiry
   * Finished.
   */
  method CancelThenApproveRun() returns (afterCancel: InquiryStatus, afterApproval: InquiryStatus)
    ensures afterCancel == Cancelled && afterApproval == Finished
  {
    var pin := Part("202-44-5552", "Pin", "PCS", 50, Local, 12.0);
    var db := CostedInquiry(pin, "KMSI", 4, "Q-10001");
    CancelInquiry(db, "KMSI", 1);
    afterCancel := db.inquiries[1].status;
    assert db.quotations["Q-10001"].status == Draft;
    ApproveQuotation(db, "Q-10001");
    afterApproval := db.inquiries[1].status;
  }

  /** Registering a part number twice: the second call fails and keeps the first row. */
  method DuplicatePartRun() returns (first: bool, second: bool, msg: string, cost: real)
    ensures first && !second
    ensures msg == "Part Number already exists"
    ensures cost == 45.0
  {
    var db := new DatabaseManager();
    var m1;
    first, m1 := db.AddPart("303-66-7773", "Hose", "MTR", 200, Import, 45.0);
    second, msg := db.AddPart("303-66-7773", "Hose (copy)", "PCS", 3, Local, 30.0);
    cost := db.parts["303-66-7773"].costPrice;
  }

  /**
   * Two costings drawing the same quotation number: the second insert is
   * refused, so the second inquiry stays Ready for Costing and the first
   * quotation is kept.
   */
  method QuoteIdCollisionRun() returns (secondOk: bool, secondStatus: InquiryStatus, keptOwner: nat)
    ensures !secondOk && secondStatus == ReadyForCosting && keptOwner == 1
  {
    var pin := Part("202-44-5552", "Pin", "PCS", 50, Local, 12.0);
    var db := CostedInquiry(pin, "KMSI", 4, "Q-10001");
    SubmitInquiry(db, "KCIC", "202-44-5552", 2);
    assert db.inquiries[2].status == PendingValidation;
    ValidateInquiry(db, 2, ValidateLocal);
    assert db.inquiries[2].status == ReadyForCosting;
    secondOk := SubmitCosting(db, 2, "Q-10001", 12.0, 10.0, 10, 3);
    secondStatus := db.inquiries[2].status;
    keptOwner := db.quotations["Q-10001"].inquiryId;
  }
}
