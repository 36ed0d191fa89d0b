/**
 * The relational store of the application (DatabaseManager in
 * modules/database_manager.py): three tables, parts, inquiries and
 * quotations, reached through plain INSERT, UPDATE and SELECT calls.
 *
 * Each table is a map from its primary key to its row. The inquiries'
 * AUTOINCREMENT counter is the field nextId, and the rowid order in which
 * SELECT returns quotations is the field quoteOrder.
 *
 * app.py also calls seven store methods that DatabaseManager does not
 * define at all, so as written each call raises AttributeError
 * (cancel_inquiry, get_inquiries_by_customer, get_approved_with_po_check,
 * create_po, start_localization, finish_localization,
 * get_localization_projects). They are modelled here
 * with ASSUMED behaviour, taken from how app.py filters and reports their
 * results; each is marked ASSUMED below. The localization-project table
 * they need is assumed too: it is not in the schema.
 */
module Database {

  datatype Option<T> = None | Some(value: T)

  /** parts.item_type. app.py treats every value other than "Local" as an import. */
  datatype ItemType = Local | Import

  /** inquiries.status: every value app.py writes or tests. */
  datatype InquiryStatus =
    | PendingValidation | ReadyForCosting | NeedsLocalization | InDevelopment
    | WaitingApproval | Finished | ReviseRequired | Cancelled | POCreated

  /** quotations.status. */
  datatype QuoteStatus = Draft | Approved | Rejected

  /** Status of an (ASSUMED) localization project. */
  datatype DevStatus = OnProgress | DevFinished

  /** A row of parts (database_manager.py:14-21). */
  datatype Part = Part(partNumber: string, description: string, unit: string,
                       stockOnHand: int, itemType: ItemType, costPrice: real)

  /** A row of inquiries (database_manager.py:24-33); the date column is left out. */
  datatype Inquiry = Inquiry(id: nat, customerName: string, partNumber: string, qty: int,
                             status: InquiryStatus, revisionCount: nat)

  /** A row of quotations (database_manager.py:36-50). */
  datatype Quotation = Quotation(quoteId: string, inquiryId: nat, customerName: string,
                                 partNumber: string, salesPrice: real, profitPercentage: real,
                                 costPrice: real, sdc: real, svc: real, moq: int, leadtime: int,
                                 status: QuoteStatus)

  /** A row of the ASSUMED localization-project table, with the columns app.py reads. */
  datatype LocalizationProject = LocalizationProject(projectId: nat, inquiryId: nat,
                                                     partNumber: string, supplierName: string,
                                                     targetFinishDate: string, notes: string,
                                                     status: DevStatus)

  /** A row of the ASSUMED get_approved_with_po_check: an approved quotation and its inquiry's status. */
  datatype ApprovedRow = ApprovedRow(quote: Quotation, inquiryStatus: InquiryStatus)

  // ---------------------------------------------------------------------
  // The tables' updates and selections as functions on their contents
  // ---------------------------------------------------------------------

  /** UPDATE inquiries SET status (and revision_count + 1 when asked) WHERE id = id. */
  function SetInquiryStatus(t: map<nat, Inquiry>, id: nat, newStatus: InquiryStatus,
                            incrementRevision: bool): (r: map<nat, Inquiry>)
    ensures r.Keys == t.Keys
    ensures forall k :: k in t && k != id ==> r[k] == t[k]
    ensures id in t ==> r[id].status == newStatus
    ensures id in t ==> r[id].revisionCount == t[id].revisionCount + (if incrementRevision then 1 else 0)
    ensures id in t ==> r[id].(status := t[id].status, revisionCount := t[id].revisionCount) == t[id]
  {
    if id in t then
      var row := t[id];
      t[id := row.(status := newStatus,
                   revisionCount := if incrementRevision then row.revisionCount + 1 else row.revisionCount)]
    else
      t
  }

  /** UPDATE quotations SET status WHERE quote_id = quoteId. */
  function SetQuotationStatus(t: map<string, Quotation>, quoteId: string, status: QuoteStatus)
    : (r: map<string, Quotation>)
    ensures r.Keys == t.Keys
    ensures forall k :: k in t && k != quoteId ==> r[k] == t[k]
    ensures quoteId in t ==> (r[quoteId].status == status
                              && r[quoteId].(status := t[quoteId].status) == t[quoteId])
  {
    if quoteId in t then t[quoteId := t[quoteId].(status := status)] else t
  }

  /** The keys in [lo, hi) whose rows satisfy keep, in ascending order (a scan in rowid order). */
  function SelectIds<T>(t: map<nat, T>, keep: T -> bool, lo: nat, hi: nat): (ids: seq<nat>)
    decreases hi - lo
    ensures forall i :: 0 <= i < |ids| ==> lo <= ids[i] < hi && ids[i] in t && keep(t[ids[i]])
    ensures forall k :: lo <= k < hi && k in t && keep(t[k]) ==> k in ids
    ensures forall i, j :: 0 <= i < j < |ids| ==> ids[i] < ids[j]
  {
    if lo >= hi then []
    else
      var rest := SelectIds(t, keep, lo + 1, hi);
      if lo in t && keep(t[lo]) then [lo] + rest else rest
  }

  /** The rows stored under the given keys, in the keys' order. */
  function Rows<T>(t: map<nat, T>, ids: seq<nat>): (r: seq<T>)
    requires forall i :: 0 <= i < |ids| ==> ids[i] in t
    ensures |r| == |ids| && forall i :: 0 <= i < |r| ==> r[i] == t[ids[i]]
  {
    seq(|ids|, i requires 0 <= i < |ids| => t[ids[i]])
  }

  /** Every row a scan of [0, hi) keeps is among the rows it returns. */
  lemma SelectedRowsComplete<T>(t: map<nat, T>, keep: T -> bool, hi: nat)
    requires forall k :: k in t ==> k < hi
    ensures forall k :: k in t && keep(t[k]) ==> t[k] in Rows(t, SelectIds(t, keep, 0, hi))
  {
    var ids := SelectIds(t, keep, 0, hi);
    var r := Rows(t, ids);
    forall k | k in t && keep(t[k])
      ensures t[k] in r
    {
      var i :| 0 <= i < |ids| && ids[i] == k;
      assert r[i] == t[k];
    }
  }

  /** SELECT * FROM quotations WHERE status = status, scanning the rows in insertion order. */
  function SelectQuotations(order: seq<string>, t: map<string, Quotation>, status: QuoteStatus)
    : (r: seq<Quotation>)
    requires forall i :: 0 <= i < |order| ==> order[i] in t
    requires forall k :: k in t ==> t[k].quoteId == k
    ensures forall i :: 0 <= i < |r| ==> (r[i].quoteId in order && r[i].quoteId in t
                                        && t[r[i].quoteId] == r[i] && r[i].status == status)
    ensures forall k :: k in order && t[k].status == status ==> t[k] in r
    ensures (forall i, j :: 0 <= i < j < |order| ==> order[i] != order[j])
            ==> forall i, j :: 0 <= i < j < |r| ==> r[i].quoteId != r[j].quoteId
  {
    if order == [] then []
    else
      var rest := SelectQuotations(order[1..], t, status);
      var k := order[0];
      assert forall i :: 0 <= i < |rest| ==> rest[i].quoteId in order[1..];
      if t[k].status == status then [t[k]] + rest else rest
  }

  /** The approved quotations in insertion order, each joined with the status of its inquiry. */
  function JoinApproved(order: seq<string>, quotes: map<string, Quotation>, inqs: map<nat, Inquiry>)
    : (r: seq<ApprovedRow>)
    requires forall i :: 0 <= i < |order| ==> order[i] in quotes
    requires forall k :: k in quotes ==> quotes[k].quoteId == k
    ensures forall i :: 0 <= i < |r| ==> (r[i].quote.quoteId in order && r[i].quote.quoteId in quotes
                                        && quotes[r[i].quote.quoteId] == r[i].quote
                                        && r[i].quote.status == Approved
                                        && r[i].quote.inquiryId in inqs
                                        && r[i].inquiryStatus == inqs[r[i].quote.inquiryId].status)
    ensures forall k :: (k in order && quotes[k].status == Approved && quotes[k].inquiryId in inqs)
                        ==> ApprovedRow(quotes[k], inqs[quotes[k].inquiryId].status) in r
  {
    if order == [] then []
    else
      var rest := JoinApproved(order[1..], quotes, inqs);
      var q := quotes[order[0]];
      assert forall i :: 0 <= i < |rest| ==> rest[i].quote.quoteId in order[1..];
      if q.status == Approved && q.inquiryId in inqs
      then [ApprovedRow(q, inqs[q.inquiryId].status)] + rest
      else rest
  }

  // ---------------------------------------------------------------------
  // The store
  // ---------------------------------------------------------------------

  class DatabaseManager {
    var parts: map<string, Part>
    var inquiries: map<nat, Inquiry>
    /** The next AUTOINCREMENT value for inquiries.id. */
    var nextId: nat
    var quotations: map<string, Quotation>
    /** quote_id of every quotation, in insertion (rowid) order. */
    var quoteOrder: seq<string>
    /** ASSUMED localization-project table and its id counter. */
    var projects: map<nat, LocalizationProject>
    var nextProjectId: nat

    /** Primary keys agree with the rows, and the counters lie above every id issued. */
    ghost predicate Valid()
      reads this
    {
      && (forall pn :: pn in parts ==> parts[pn].partNumber == pn)
      && 1 <= nextId
      && (forall id :: id in inquiries ==> inquiries[id].id == id && id < nextId)
      && (forall q :: q in quotations ==> quotations[q].quoteId == q)
      && (forall i :: 0 <= i < |quoteOrder| ==> quoteOrder[i] in quotations)
      && (forall q :: q in quotations ==> q in quoteOrder)
      && (forall i, j :: 0 <= i < j < |quoteOrder| ==> quoteOrder[i] != quoteOrder[j])
      && 1 <= nextProjectId
      && (forall p :: p in projects ==> projects[p].projectId == p && p < nextProjectId)
    }

    /** A store over freshly created, empty tables. */
    constructor ()
      ensures Valid()
      ensures parts == map[] && inquiries == map[] && quotations == map[] && projects == map[]
      ensures quoteOrder == [] && nextId == 1 && nextProjectId == 1
    {
      parts, inquiries, quotations, projects := map[], map[], map[], map[];
      quoteOrder := [];
      nextId, nextProjectId := 1, 1;
    }

    /** add_part: INSERT that the primary key on part_number may reject. */
    method AddPart(pNum: string, desc: string, unit: string, stock: int, pType: ItemType, cost: real)
      returns (success: bool, msg: string)
      requires Valid()
      modifies this`parts
      ensures Valid()
      ensures success <==> pNum !in old(parts)
      ensures msg == if success then "Success" else "Part Number already exists"
      ensures parts == if success then old(parts)[pNum := Part(pNum, desc, unit, stock, pType, cost)]
                       else old(parts)
    {
      if pNum in parts {
        success, msg := false, "Part Number already exists";
      } else {
        parts := parts[pNum := Part(pNum, desc, unit, stock, pType, cost)];
        success, msg := true, "Success";
      }
    }

    /**
     * add_inquiry: a new row under the next AUTOINCREMENT id, with
     * revision_count 0. The part_number foreign key is not enforced (sqlite
     * leaves foreign keys off unless asked), so any part number is accepted.
     */
    method AddInquiry(custName: string, partNo: string, qty: int, status: InquiryStatus)
      requires Valid()
      modifies this`inquiries, this`nextId
      ensures Valid()
      ensures forall id :: id in old(inquiries) ==> id < old(nextId)
      ensures old(nextId) !in old(inquiries)
      ensures nextId == old(nextId) + 1
      ensures inquiries == old(inquiries)[old(nextId) := Inquiry(old(nextId), custName, partNo, qty, status, 0)]
    {
      inquiries := inquiries[nextId := Inquiry(nextId, custName, partNo, qty, status, 0)];
      nextId := nextId + 1;
    }

    /** get_inquiries_by_status: exactly the inquiries whose status is listed, in id order. */
    function GetInquiriesByStatus(statusList: seq<InquiryStatus>): (r: seq<Inquiry>)
      reads this
      requires Valid()
      ensures forall x :: x in r ==> (x.id in inquiries && inquiries[x.id] == x
                                     && x.status in statusList)
      ensures forall id :: id in inquiries && inquiries[id].status in statusList ==> inquiries[id] in r
      ensures forall i, j :: 0 <= i < j < |r| ==> r[i].id < r[j].id
    {
      var keep := (x: Inquiry) => x.status in statusList;
      SelectedRowsComplete(inquiries, keep, nextId);
      Rows(inquiries, SelectIds(inquiries, keep, 0, nextId))
    }

    /**
     * get_part_details. The source indexes the first row of the result and
     * raises when there is none; here an absent part number gives None.
     */
    function GetPartDetails(partNumber: string): (r: Option<Part>)
      reads this
      requires Valid()
      ensures r.Some? <==> partNumber in parts
      ensures r.Some? ==> r.value == parts[partNumber] && r.value.partNumber == partNumber
    {
      if partNumber in parts then Some(parts[partNumber]) else None
    }

    /** update_inquiry_status: only the row with that id changes; an unknown id changes nothing. */
    method UpdateInquiryStatus(inquiryId: nat, newStatus: InquiryStatus, incrementRevision: bool := false)
      requires Valid()
      modifies this`inquiries
      ensures Valid()
      ensures inquiries == SetInquiryStatus(old(inquiries), inquiryId, newStatus, incrementRevision)
    {
      inquiries := SetInquiryStatus(inquiries, inquiryId, newStatus, incrementRevision);
    }

    /**
     * create_quotation: INSERT of every supplied field under data.quoteId.
     * The primary key rejects a quote_id already present; the source lets
     * that IntegrityError escape, and the result false stands for it.
     */
    method CreateQuotation(data: Quotation) returns (ok: bool)
      requires Valid()
      modifies this`quotations, this`quoteOrder
      ensures Valid()
      ensures ok <==> data.quoteId !in old(quotations)
      ensures quotations == if ok then old(quotations)[data.quoteId := data] else old(quotations)
      ensures quoteOrder == if ok then old(quoteOrder) + [data.quoteId] else old(quoteOrder)
    {
      ok := data.quoteId !in quotations;
      if ok {
        quotations := quotations[data.quoteId := data];
        quoteOrder := quoteOrder + [data.quoteId];
      }
    }

    /** get_quotations_by_status: exactly the quotations with that status, each once, in insertion order. */
    function GetQuotationsByStatus(status: QuoteStatus): (r: seq<Quotation>)
      reads this
      requires Valid()
      ensures forall x :: x in r ==> (x.quoteId in quotations
                                     && quotations[x.quoteId] == x && x.status == status)
      ensures forall q :: q in quotations && quotations[q].status == status ==> quotations[q] in r
      ensures forall i, j :: 0 <= i < j < |r| ==> r[i].quoteId != r[j].quoteId
    {
      SelectQuotations(quoteOrder, quotations, status)
    }

    /** get_full_results: the query behind the dashboard and result pages is the Approved selection. */
    function GetFullResults(): (r: seq<Quotation>)
      reads this
      requires Valid()
      ensures r == GetQuotationsByStatus(Approved)
      ensures forall x :: x in r ==> x.status == Approved
    {
      SelectQuotations(quoteOrder, quotations, Approved)
    }

    /** update_quotation_status: only the status of the matching quotation changes. */
    method UpdateQuotationStatus(quoteId: string, status: QuoteStatus)
      requires Valid()
      modifies this`quotations
      ensures Valid()
      ensures quotations == SetQuotationStatus(old(quotations), quoteId, status)
    {
      quotations := SetQuotationStatus(quotations, quoteId, status);
    }

    // ----- ASSUMED: called from app.py, not defined in database_manager.py -----

    /** ASSUMED get_inquiries_by_customer: the inquiries of that customer, in id order. */
    function GetInquiriesByCustomer(customerName: string): (r: seq<Inquiry>)
      reads this
      requires Valid()
      ensures forall x :: x in r ==> (x.id in inquiries && inquiries[x.id] == x
                                     && x.customerName == customerName)
      ensures forall id :: id in inquiries && inquiries[id].customerName == customerName
                           ==> inquiries[id] in r
    {
      var keep := (x: Inquiry) => x.customerName == customerName;
      SelectedRowsComplete(inquiries, keep, nextId);
      Rows(inquiries, SelectIds(inquiries, keep, 0, nextId))
    }

    /**
     * ASSUMED get_approved_with_po_check: every approved quotation together
     * with its inquiry's current status (an inner join: a quotation whose
     * inquiry row is missing is left out).
     */
    function GetApprovedWithPoCheck(): (r: seq<ApprovedRow>)
      reads this
      requires Valid()
      ensures forall x :: x in r ==> (x.quote.quoteId in quotations
                                     && quotations[x.quote.quoteId] == x.quote
                                     && x.quote.status == Approved
                                     && x.quote.inquiryId in inquiries
                                     && x.inquiryStatus == inquiries[x.quote.inquiryId].status)
      ensures forall q :: q in quotations && quotations[q].status == Approved
                          && quotations[q].inquiryId in inquiries
                          ==> ApprovedRow(quotations[q], inquiries[quotations[q].inquiryId].status) in r
    {
      JoinApproved(quoteOrder, quotations, inquiries)
    }

    /** ASSUMED cancel_inquiry: the inquiry's status becomes Cancelled (what the filter at app.py:213 implies). */
    method CancelInquiry(inquiryId: nat)
      requires Valid()
      modifies this`inquiries
      ensures Valid()
      ensures inquiries == SetInquiryStatus(old(inquiries), inquiryId, Cancelled, false)
    {
      inquiries := SetInquiryStatus(inquiries, inquiryId, Cancelled, false);
    }

    /**
     * ASSUMED create_po: the inquiry's status becomes PO Created (what the
     * filter at app.py:226 implies). Where the PO number is kept is not
     * visible, so it is not stored.
     */
    method CreatePo(inquiryId: nat, poNumber: string)
      requires Valid()
      modifies this`inquiries
      ensures Valid()
      ensures inquiries == SetInquiryStatus(old(inquiries), inquiryId, POCreated, false)
    {
      inquiries := SetInquiryStatus(inquiries, inquiryId, POCreated, false);
    }

    /**
     * ASSUMED start_localization: a new project in OnProgress under the next
     * project id. It does not touch the inquiry: app.py sets In Development
     * itself right after the call.
     */
    method StartLocalization(inquiryId: nat, partNumber: string, supplierName: string,
                             targetDate: string, notes: string)
      requires Valid()
      modifies this`projects, this`nextProjectId
      ensures Valid()
      ensures old(nextProjectId) !in old(projects)
      ensures nextProjectId == old(nextProjectId) + 1
      ensures projects == old(projects)[old(nextProjectId) :=
        LocalizationProject(old(nextProjectId), inquiryId, partNumber, supplierName, targetDate, notes, OnProgress)]
    {
      projects := projects[nextProjectId :=
        LocalizationProject(nextProjectId, inquiryId, partNumber, supplierName, targetDate, notes, OnProgress)];
      nextProjectId := nextProjectId + 1;
    }

    /** ASSUMED get_localization_projects: the projects still OnProgress, in id order. */
    function GetLocalizationProjects(): (r: seq<LocalizationProject>)
      reads this
      requires Valid()
      ensures forall x :: x in r ==> (x.projectId in projects
                                     && projects[x.projectId] == x && x.status == OnProgress)
      ensures forall p :: p in projects && projects[p].status == OnProgress ==> projects[p] in r
    {
      var keep := (x: LocalizationProject) => x.status == OnProgress;
      SelectedRowsComplete(projects, keep, nextProjectId);
      Rows(projects, SelectIds(projects, keep, 0, nextProjectId))
    }

    /**
     * ASSUMED finish_localization: the project becomes DevFinished and its
     * inquiry Ready for Costing (what the message at app.py:299 and the
     * costing filter at app.py:308 imply). Neither status is checked first.
     */
    method FinishLocalization(projectId: nat, inquiryId: nat)
      requires Valid()
      modifies this`projects, this`inquiries
      ensures Valid()
      ensures projects == if projectId in old(projects)
                          then old(projects)[projectId := old(projects)[projectId].(status := DevFinished)]
                          else old(projects)
      ensures inquiries == SetInquiryStatus(old(inquiries), inquiryId, ReadyForCosting, false)
    {
      if projectId in projects {
        projects := projects[projectId := projects[projectId].(status := DevFinished)];
      }
      inquiries := SetInquiryStatus(inquiries, inquiryId, ReadyForCosting, false);
    }
  }
}
