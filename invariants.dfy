/**
 * What the workflow keeps true across the handlers.
 *
 * The intended invariant: an inquiry is in Waiting Approval exactly when it
 * has one Draft quotation. Every handler keeps it except one. Cancelling is
 * offered for Waiting Approval inquiries too, and it leaves their Draft
 * behind. Approving that orphan Draft then writes Finished over Cancelled.
 *
 * So the model proves two things. WorkflowInvariant holds under every
 * handler, cancellation included; it allows a Cancelled inquiry to keep one
 * orphan Draft. NoOrphanDrafts rules the orphans out. Every handler keeps it
 * except cancelling a Waiting Approval inquiry, and together with
 * WorkflowInvariant it gives the exact equivalence.
 *
 * Cancelled is not final: APPROVE or REVISE of an orphan Draft, and
 * finishing the project of an inquiry cancelled In Development, all move a
 * Cancelled inquiry on. PO Created, in contrast, is final.
 *
 * WorkflowInvariant also gives the rule of one live quotation: an inquiry
 * has at most one quotation that is Draft or Approved.
 */
module Invariants {
  import opened Database
  import opened Workflow

  /** The quote_ids of the Draft quotations of inquiry id. */
  function Drafts(quotes: map<string, Quotation>, id: nat): set<string>
  {
    set k | k in quotes && quotes[k].status == Draft && quotes[k].inquiryId == id
  }

  /** Every Draft belongs to an existing inquiry. */
  ghost predicate DraftsOwned(s: State)
  {
    forall k :: k in s.quotations && s.quotations[k].status == Draft ==> s.quotations[k].inquiryId in s.inquiries
  }

  /** No inquiry has two Drafts. */
  ghost predicate AtMostOneDraft(s: State)
  {
    forall id :: id in s.inquiries ==> |Drafts(s.quotations, id)| <= 1
  }

  /** A Waiting Approval inquiry has its Draft. */
  ghost predicate WaitingHasDraft(s: State)
  {
    forall id :: id in s.inquiries && s.inquiries[id].status == WaitingApproval ==> |Drafts(s.quotations, id)| == 1
  }

  /** Apart from Waiting Approval, only a Cancelled inquiry may still have a Draft. */
  ghost predicate OthersHaveNoDraft(s: State)
  {
    forall id :: id in s.inquiries && s.inquiries[id].status != WaitingApproval && s.inquiries[id].status != Cancelled
                 ==> Drafts(s.quotations, id) == {}
  }

  /** An Approved quotation's inquiry is Finished or PO Created. */
  ghost predicate ApprovedAreDone(s: State)
  {
    forall k :: k in s.quotations && s.quotations[k].status == Approved
                ==> (s.quotations[k].inquiryId in s.inquiries
                     && s.inquiries[s.quotations[k].inquiryId].status in {Finished, POCreated})
  }

  /** A project on progress belongs to an inquiry In Development (or Cancelled) that has no Draft. */
  ghost predicate ProjectsInDevelopment(s: State)
  {
    forall p :: p in s.projects && s.projects[p].status == OnProgress
                ==> (s.projects[p].inquiryId in s.inquiries
                     && s.inquiries[s.projects[p].inquiryId].status in {InDevelopment, Cancelled}
                     && Drafts(s.quotations, s.projects[p].inquiryId) == {})
  }

  /** An inquiry has at most one project on progress. */
  ghost predicate OneProjectPerInquiry(s: State)
  {
    forall p, p' :: p in s.projects && p' in s.projects
                    && s.projects[p].status == OnProgress && s.projects[p'].status == OnProgress
                    && s.projects[p].inquiryId == s.projects[p'].inquiryId
                    ==> p == p'
  }

  /** No inquiry has two Approved quotations. */
  ghost predicate AtMostOneApproved(s: State)
  {
    forall k, k' :: k in s.quotations && k' in s.quotations
                    && s.quotations[k].status == Approved && s.quotations[k'].status == Approved
                    && s.quotations[k].inquiryId == s.quotations[k'].inquiryId
                    ==> k == k'
  }

  ghost predicate WorkflowInvariant(s: State)
  {
    && DraftsOwned(s) && AtMostOneDraft(s) && WaitingHasDraft(s) && OthersHaveNoDraft(s)
    && ApprovedAreDone(s) && AtMostOneApproved(s) && ProjectsInDevelopment(s) && OneProjectPerInquiry(s)
  }

  /** No Cancelled inquiry still has a Draft. */
  ghost predicate NoOrphanDrafts(s: State)
  {
    forall id :: id in s.inquiries && s.inquiries[id].status == Cancelled ==> Drafts(s.quotations, id) == {}
  }

  // ---------------------------------------------------------------------
  // Drafts under the two kinds of quotation change
  // ---------------------------------------------------------------------

  lemma DraftsAfterInsert(quotes: map<string, Quotation>, q: Quotation, id: nat)
    requires q.quoteId !in quotes
    ensures Drafts(quotes[q.quoteId := q], id)
            == if q.status == Draft && q.inquiryId == id then Drafts(quotes, id) + {q.quoteId}
               else Drafts(quotes, id)
  {
  }

  lemma DraftsAfterDecision(quotes: map<string, Quotation>, quoteId: string, status: QuoteStatus, id: nat)
    requires quoteId in quotes && status != Draft
    ensures Drafts(SetQuotationStatus(quotes, quoteId, status), id) == Drafts(quotes, id) - {quoteId}
  {
  }

  // ---------------------------------------------------------------------
  // The equivalence
  // ---------------------------------------------------------------------

  /** Without orphans: Waiting Approval exactly when there is one Draft, and every Draft's inquiry waits. */
  lemma WaitingApprovalIffOneDraft(s: State)
    requires WorkflowInvariant(s) && NoOrphanDrafts(s)
    ensures forall id :: id in s.inquiries
              ==> (s.inquiries[id].status == WaitingApproval <==> |Drafts(s.quotations, id)| == 1)
    ensures forall k :: k in s.quotations && s.quotations[k].status == Draft
              ==> (s.quotations[k].inquiryId in s.inquiries
                   && s.inquiries[s.quotations[k].inquiryId].status == WaitingApproval)
  {
    forall k | k in s.quotations && s.quotations[k].status == Draft
      ensures s.inquiries[s.quotations[k].inquiryId].status == WaitingApproval
    {
      assert k in Drafts(s.quotations, s.quotations[k].inquiryId);
    }
  }

  /** The empty store satisfies both. */
  lemma EmptyStoreInvariant()
    ensures WorkflowInvariant(State(map[], map[], map[])) && NoOrphanDrafts(State(map[], map[], map[]))
  {
  }

  /** In a reachable state the PO filter (not PO Created) admits only Finished inquiries. */
  lemma PurchaseOrderOnlyAfterFinished(s: State, quoteId: string)
    requires WorkflowInvariant(s)
    requires quoteId in s.quotations && s.quotations[quoteId].status == Approved
    requires s.quotations[quoteId].inquiryId in s.inquiries
    requires s.inquiries[s.quotations[quoteId].inquiryId].status != POCreated
    ensures s.inquiries[s.quotations[quoteId].inquiryId].status == Finished
  {
  }

  // ---------------------------------------------------------------------
  // Preservation, handler by handler
  // ---------------------------------------------------------------------

  lemma NewInquiryPreserves(s: State, id: nat, customer: string, partNo: string, qty: int)
    requires WorkflowInvariant(s) && id !in s.inquiries
    ensures WorkflowInvariant(NewInquiryStep(s, id, customer, partNo, qty))
    ensures NoOrphanDrafts(s) ==> NoOrphanDrafts(NewInquiryStep(s, id, customer, partNo, qty))
  {
    var s' := NewInquiryStep(s, id, customer, partNo, qty);
    forall k | k in s.quotations && s.quotations[k].status == Draft
      ensures s.quotations[k].inquiryId != id
    {
    }
    assert Drafts(s.quotations, id) == {};
    assert forall j :: j in s.inquiries ==> s'.inquiries[j] == s.inquiries[j];
  }

  /** A status change that tells the invariant nothing new: from a status without Draft or project to one allowed none. */
  lemma PlainStatusChangePreserves(s: State, id: nat, status: InquiryStatus)
    requires WorkflowInvariant(s) && id in s.inquiries
    requires s.inquiries[id].status in {PendingValidation, ReadyForCosting, ReviseRequired, NeedsLocalization}
    requires status in {ReadyForCosting, NeedsLocalization, Cancelled}
    ensures WorkflowInvariant(SetStatusStep(s, id, status))
    ensures NoOrphanDrafts(s) ==> NoOrphanDrafts(SetStatusStep(s, id, status))
  {
    var s' := SetStatusStep(s, id, status);
    assert Drafts(s.quotations, id) == {};
    forall p | p in s.projects && s.projects[p].status == OnProgress
      ensures s.projects[p].inquiryId != id
    {
    }
    forall k | k in s.quotations && s.quotations[k].status == Approved
      ensures s.quotations[k].inquiryId != id
    {
    }
  }

  /** Validation sends a Pending Validation inquiry to Ready for Costing, Needs Localization or Cancelled. */
  lemma ValidatePreserves(s: State, id: nat, decision: ValidationDecision)
    requires WorkflowInvariant(s) && id in s.inquiries && s.inquiries[id].status == PendingValidation
    ensures WorkflowInvariant(SetStatusStep(s, id, ValidationTarget(decision)))
    ensures NoOrphanDrafts(s) ==> NoOrphanDrafts(SetStatusStep(s, id, ValidationTarget(decision)))
  {
    PlainStatusChangePreserves(s, id, ValidationTarget(decision));
  }

  lemma StartLocalizationPreserves(s: State, project: LocalizationProject)
    requires WorkflowInvariant(s)
    requires project.projectId !in s.projects && project.status == OnProgress
    requires project.inquiryId in s.inquiries && s.inquiries[project.inquiryId].status == NeedsLocalization
    ensures WorkflowInvariant(StartLocalizationStep(s, project))
    ensures NoOrphanDrafts(s) ==> NoOrphanDrafts(StartLocalizationStep(s, project))
  {
    var s' := StartLocalizationStep(s, project);
    var id := project.inquiryId;
    assert Drafts(s.quotations, id) == {};
    forall p | p in s.projects && s.projects[p].status == OnProgress
      ensures s.projects[p].inquiryId != id
    {
    }
    forall k | k in s.quotations && s.quotations[k].status == Approved
      ensures s.quotations[k].inquiryId != id
    {
    }
  }

  lemma FinishLocalizationPreserves(s: State, projectId: nat)
    requires WorkflowInvariant(s)
    requires projectId in s.projects && s.projects[projectId].status == OnProgress
    ensures WorkflowInvariant(FinishLocalizationStep(s, projectId))
    ensures NoOrphanDrafts(s) ==> NoOrphanDrafts(FinishLocalizationStep(s, projectId))
  {
    var s' := FinishLocalizationStep(s, projectId);
    var id := s.projects[projectId].inquiryId;
    assert Drafts(s.quotations, id) == {};
    forall p | p in s'.projects && s'.projects[p].status == OnProgress
      ensures s'.projects[p].inquiryId != id
    {
      assert p != projectId;
    }
    forall k | k in s.quotations && s.quotations[k].status == Approved
      ensures s.quotations[k].inquiryId != id
    {
    }
  }

  /**
   * A new Draft, in terms of what it changes: it is stored under a fresh
   * quote_id for an inquiry Ready for Costing or Revise Required, which
   * becomes Waiting Approval, and nothing else moves.
   */
  ghost predicate InsertsDraft(s: State, s': State, q: Quotation)
  {
    && q.quoteId !in s.quotations && q.status == Draft
    && q.inquiryId in s.inquiries && s.inquiries[q.inquiryId].status in {ReadyForCosting, ReviseRequired}
    && s'.quotations == s.quotations[q.quoteId := q]
    && s'.projects == s.projects
    && s'.inquiries.Keys == s.inquiries.Keys
    && (forall j :: j in s.inquiries && j != q.inquiryId ==> s'.inquiries[j] == s.inquiries[j])
    && s'.inquiries[q.inquiryId].status == WaitingApproval
  }

  /** The Draft clauses: the inquiry had no Draft, now has exactly the new one, and waits. */
  lemma InsertDraftKeepsDrafts(s: State, s': State, q: Quotation)
    requires WorkflowInvariant(s) && InsertsDraft(s, s', q)
    ensures DraftsOwned(s') && AtMostOneDraft(s') && WaitingHasDraft(s') && OthersHaveNoDraft(s')
  {
    var id := q.inquiryId;
    assert Drafts(s.quotations, id) == {};
    assert Drafts(s'.quotations, id) == {q.quoteId} by {
      DraftsAfterInsert(s.quotations, q, id);
    }
    forall j | j != id ensures Drafts(s'.quotations, j) == Drafts(s.quotations, j) {
      DraftsAfterInsert(s.quotations, q, j);
    }
  }

  /** The other clauses: no Approved quotation or project on progress refers to the costed inquiry. */
  lemma InsertDraftKeepsLinks(s: State, s': State, q: Quotation)
    requires WorkflowInvariant(s) && InsertsDraft(s, s', q)
    ensures ApprovedAreDone(s') && ProjectsInDevelopment(s') && OneProjectPerInquiry(s')
  {
    var id := q.inquiryId;
    forall k | k in s.quotations && s.quotations[k].status == Approved
      ensures s.quotations[k].inquiryId != id
    {
    }
    forall p | p in s.projects && s.projects[p].status == OnProgress
      ensures s.projects[p].inquiryId != id && Drafts(s'.quotations, s.projects[p].inquiryId) == {}
    {
      DraftsAfterInsert(s.quotations, q, s.projects[p].inquiryId);
    }
  }

  /** The same change creates no orphan: the only inquiry that gains a Draft is Waiting Approval. */
  lemma InsertDraftKeepsNoOrphans(s: State, s': State, q: Quotation)
    requires NoOrphanDrafts(s) && InsertsDraft(s, s', q)
    ensures NoOrphanDrafts(s')
  {
    forall j | j in s'.inquiries && s'.inquiries[j].status == Cancelled
      ensures Drafts(s'.quotations, j) == {}
    {
      assert j != q.inquiryId;
      DraftsAfterInsert(s.quotations, q, j);
    }
  }

  lemma SubmitDraftPreserves(s: State, q: Quotation)
    requires WorkflowInvariant(s)
    requires q.quoteId !in s.quotations && q.status == Draft
    requires q.inquiryId in s.inquiries && s.inquiries[q.inquiryId].status in {ReadyForCosting, ReviseRequired}
    ensures WorkflowInvariant(SubmitDraftStep(s, q))
    ensures NoOrphanDrafts(s) ==> NoOrphanDrafts(SubmitDraftStep(s, q))
  {
    var s' := SubmitDraftStep(s, q);
    assert InsertsDraft(s, s', q);
    InsertDraftKeepsDrafts(s, s', q);
    InsertDraftKeepsLinks(s, s', q);
    if NoOrphanDrafts(s) {
      InsertDraftKeepsNoOrphans(s, s', q);
    }
  }

  /**
   * A decision on a Draft, in terms of what it changes: the quotation takes a
   * decided status, its inquiry a status outside Waiting Approval and
   * Cancelled (Finished when approved), and nothing else moves.
   */
  ghost predicate DecidesDraft(s: State, s': State, quoteId: string, decided: QuoteStatus, newStatus: InquiryStatus)
  {
    && quoteId in s.quotations && s.quotations[quoteId].status == Draft
    && decided != Draft && newStatus != WaitingApproval && newStatus != Cancelled
    && (decided == Approved ==> newStatus == Finished)
    && s'.quotations == SetQuotationStatus(s.quotations, quoteId, decided)
    && s'.projects == s.projects
    && s'.inquiries.Keys == s.inquiries.Keys
    && (forall j :: j in s.inquiries && j != s.quotations[quoteId].inquiryId ==> s'.inquiries[j] == s.inquiries[j])
    && s.quotations[quoteId].inquiryId in s'.inquiries
    && s'.inquiries[s.quotations[quoteId].inquiryId].status == newStatus
  }

  /** Under the invariant the decided Draft is its inquiry's only one, so the inquiry is left with none. */
  lemma DecisionDrafts(s: State, s': State, quoteId: string, decided: QuoteStatus, newStatus: InquiryStatus)
    requires WorkflowInvariant(s) && DecidesDraft(s, s', quoteId, decided, newStatus)
    ensures var id := s.quotations[quoteId].inquiryId;
            id in s.inquiries && s.inquiries[id].status in {WaitingApproval, Cancelled}
    ensures Drafts(s'.quotations, s.quotations[quoteId].inquiryId) == {}
    ensures forall j :: j != s.quotations[quoteId].inquiryId ==> Drafts(s'.quotations, j) == Drafts(s.quotations, j)
  {
    var id := s.quotations[quoteId].inquiryId;
    var d := Drafts(s.quotations, id);
    assert quoteId in d;
    assert |d| == 1;
    assert d * {quoteId} == {quoteId};
    assert |d - {quoteId}| == 0;
    assert d == {quoteId} by {
      assert d - {quoteId} == {};
    }
    DraftsAfterDecision(s.quotations, quoteId, decided, id);
    forall j | j != id ensures Drafts(s'.quotations, j) == Drafts(s.quotations, j) {
      DraftsAfterDecision(s.quotations, quoteId, decided, j);
      assert quoteId !in Drafts(s.quotations, j);
    }
  }

  /** Under the invariant a Draft and an Approved quotation never share an inquiry. */
  lemma DraftApprovedDisjoint(s: State, k: string, k': string)
    requires WorkflowInvariant(s)
    requires k in s.quotations && s.quotations[k].status == Draft
    requires k' in s.quotations && s.quotations[k'].status == Approved
    ensures s.quotations[k].inquiryId != s.quotations[k'].inquiryId
  {
    assert k in Drafts(s.quotations, s.quotations[k].inquiryId);
  }

  /**
   * The workflow's "one live quotation" rule: under the invariant an inquiry
   * has at most one quotation that is Draft or Approved.
   */
  lemma AtMostOneLiveQuotation(s: State, k: string, k': string)
    requires WorkflowInvariant(s)
    requires k in s.quotations && s.quotations[k].status in {Draft, Approved}
    requires k' in s.quotations && s.quotations[k'].status in {Draft, Approved}
    requires s.quotations[k].inquiryId == s.quotations[k'].inquiryId
    ensures k == k'
  {
    var q, q' := s.quotations[k], s.quotations[k'];
    if q.status == Draft && q'.status == Draft {
      var d := Drafts(s.quotations, q.inquiryId);
      assert k in d && k' in d;
      assert q.inquiryId in s.inquiries && |d| <= 1;
      assert d * {k} == {k};
      assert |d - {k}| == 0;
      assert d - {k} == {};
    } else if q.status == Draft {
      DraftApprovedDisjoint(s, k, k');
    } else if q'.status == Draft {
      DraftApprovedDisjoint(s, k', k);
    }
  }

  /** Approving a Draft creates no second Approved quotation for its inquiry. */
  lemma DecisionKeepsOneApproved(s: State, s': State, quoteId: string, decided: QuoteStatus, newStatus: InquiryStatus)
    requires WorkflowInvariant(s) && DecidesDraft(s, s', quoteId, decided, newStatus)
    ensures AtMostOneApproved(s')
  {
    forall k, k' | k in s'.quotations && k' in s'.quotations
                   && s'.quotations[k].status == Approved && s'.quotations[k'].status == Approved
                   && s'.quotations[k].inquiryId == s'.quotations[k'].inquiryId
      ensures k == k'
    {
      if k == quoteId && k' != quoteId {
        DraftApprovedDisjoint(s, k, k');
      } else if k' == quoteId && k != quoteId {
        DraftApprovedDisjoint(s, k', k);
      }
    }
  }

  /** After a decision the Draft clauses of the invariant still hold. */
  lemma DecisionKeepsDraftClauses(s: State, s': State, quoteId: string, decided: QuoteStatus, newStatus: InquiryStatus)
    requires WorkflowInvariant(s) && DecidesDraft(s, s', quoteId, decided, newStatus)
    ensures DraftsOwned(s') && AtMostOneDraft(s') && WaitingHasDraft(s') && OthersHaveNoDraft(s')
  {
    DecisionDrafts(s, s', quoteId, decided, newStatus);
    assert quoteId in Drafts(s.quotations, s.quotations[quoteId].inquiryId);
  }

  /** After a decision Approved quotations and open projects still belong where they should. */
  lemma DecisionKeepsLinks(s: State, s': State, quoteId: string, decided: QuoteStatus, newStatus: InquiryStatus)
    requires WorkflowInvariant(s) && DecidesDraft(s, s', quoteId, decided, newStatus)
    ensures ApprovedAreDone(s') && ProjectsInDevelopment(s') && OneProjectPerInquiry(s')
  {
    var id := s.quotations[quoteId].inquiryId;
    DecisionDrafts(s, s', quoteId, decided, newStatus);
    assert quoteId in Drafts(s.quotations, id);
    assert ApprovedAreDone(s') by {
      forall k | k in s.quotations && s.quotations[k].status == Approved
        ensures s.quotations[k].inquiryId != id
      {
      }
    }
    assert ProjectsInDevelopment(s') by {
      forall p | p in s.projects && s.projects[p].status == OnProgress
        ensures s.projects[p].inquiryId != id
      {
      }
    }
  }

  lemma DecisionPreserves(s: State, s': State, quoteId: string, decided: QuoteStatus, newStatus: InquiryStatus)
    requires WorkflowInvariant(s) && DecidesDraft(s, s', quoteId, decided, newStatus)
    ensures WorkflowInvariant(s')
  {
    DecisionKeepsDraftClauses(s, s', quoteId, decided, newStatus);
    DecisionKeepsLinks(s, s', quoteId, decided, newStatus);
    DecisionKeepsOneApproved(s, s', quoteId, decided, newStatus);
  }

  /** A decision on a Draft leaves every other inquiry's Drafts as they were and empties its own. */
  lemma DecisionKeepsNoOrphans(s: State, s': State, quoteId: string, decided: QuoteStatus, newStatus: InquiryStatus)
    requires WorkflowInvariant(s) && NoOrphanDrafts(s) && DecidesDraft(s, s', quoteId, decided, newStatus)
    ensures NoOrphanDrafts(s')
  {
    var id := s.quotations[quoteId].inquiryId;
    DecisionDrafts(s, s', quoteId, decided, newStatus);
    forall j | j in s'.inquiries && s'.inquiries[j].status == Cancelled
      ensures Drafts(s'.quotations, j) == {}
    {
      if j != id {
        assert s.inquiries[j].status == Cancelled;
      }
    }
  }

  lemma ApprovePreserves(s: State, quoteId: string)
    requires WorkflowInvariant(s)
    requires quoteId in s.quotations && s.quotations[quoteId].status == Draft
    ensures WorkflowInvariant(ApproveStep(s, quoteId))
    ensures NoOrphanDrafts(s) ==> NoOrphanDrafts(ApproveStep(s, quoteId))
  {
    var s' := ApproveStep(s, quoteId);
    assert DecidesDraft(s, s', quoteId, Approved, Finished);
    DecisionPreserves(s, s', quoteId, Approved, Finished);
    if NoOrphanDrafts(s) {
      DecisionKeepsNoOrphans(s, s', quoteId, Approved, Finished);
    }
  }

  lemma RevisePreserves(s: State, quoteId: string)
    requires WorkflowInvariant(s)
    requires quoteId in s.quotations && s.quotations[quoteId].status == Draft
    ensures WorkflowInvariant(ReviseStep(s, quoteId))
    ensures NoOrphanDrafts(s) ==> NoOrphanDrafts(ReviseStep(s, quoteId))
  {
    var s' := ReviseStep(s, quoteId);
    assert DecidesDraft(s, s', quoteId, Rejected, ReviseRequired);
    DecisionPreserves(s, s', quoteId, Rejected, ReviseRequired);
    if NoOrphanDrafts(s) {
      DecisionKeepsNoOrphans(s, s', quoteId, Rejected, ReviseRequired);
    }
  }

  /**
   * Cancelling keeps WorkflowInvariant from every status it is offered in,
   * and keeps NoOrphanDrafts from every one of them except Waiting Approval.
   */
  lemma CancelPreserves(s: State, id: nat)
    requires WorkflowInvariant(s) && id in s.inquiries
    requires s.inquiries[id].status !in {Cancelled, POCreated, Finished}
    ensures WorkflowInvariant(SetStatusStep(s, id, Cancelled))
    ensures NoOrphanDrafts(s) && s.inquiries[id].status != WaitingApproval
            ==> NoOrphanDrafts(SetStatusStep(s, id, Cancelled))
  {
    var s' := SetStatusStep(s, id, Cancelled);
    forall p | p in s.projects && s.projects[p].status == OnProgress && s.projects[p].inquiryId == id
      ensures Drafts(s.quotations, id) == {}
    {
    }
    forall k | k in s.quotations && s.quotations[k].status == Approved
      ensures s.quotations[k].inquiryId != id
    {
    }
  }

  lemma PurchaseOrderPreserves(s: State, quoteId: string)
    requires WorkflowInvariant(s)
    requires quoteId in s.quotations && s.quotations[quoteId].status == Approved
    requires s.quotations[quoteId].inquiryId in s.inquiries
    requires s.inquiries[s.quotations[quoteId].inquiryId].status != POCreated
    ensures WorkflowInvariant(SetStatusStep(s, s.quotations[quoteId].inquiryId, POCreated))
    ensures NoOrphanDrafts(s) ==> NoOrphanDrafts(SetStatusStep(s, s.quotations[quoteId].inquiryId, POCreated))
  {
    var id := s.quotations[quoteId].inquiryId;
    assert s.inquiries[id].status == Finished;
    assert Drafts(s.quotations, id) == {};
    forall p | p in s.projects && s.projects[p].status == OnProgress
      ensures s.projects[p].inquiryId != id
    {
    }
  }

  // ---------------------------------------------------------------------
  // The orphan Draft
  // ---------------------------------------------------------------------

  /**
   * Cancelling a Waiting Approval inquiry (which the cancel filter offers)
   * leaves its Draft behind: the result has an orphan, is no longer
   * "Waiting Approval exactly when one Draft", and approving the orphan
   * makes the cancelled inquiry Finished.
   */
  lemma CancelWaitingApprovalOrphansDraft(s: State, id: nat, quoteId: string)
    requires id in s.inquiries && s.inquiries[id].status == WaitingApproval
    requires quoteId in s.quotations && s.quotations[quoteId].status == Draft
    requires s.quotations[quoteId].inquiryId == id
    ensures var c := SetStatusStep(s, id, Cancelled);
            && c.inquiries[id].status == Cancelled
            && c.quotations[quoteId].status == Draft
            && !NoOrphanDrafts(c)
            && |Drafts(c.quotations, id)| >= 1 && c.inquiries[id].status != WaitingApproval
            && ApproveStep(c, quoteId).inquiries[id].status == Finished
            && ApproveStep(c, quoteId).quotations[quoteId].status == Approved
  {
    var c := SetStatusStep(s, id, Cancelled);
    assert quoteId in Drafts(c.quotations, id);
  }

  /**
   * REVISE on such an orphan Draft takes the cancelled inquiry to Revise
   * Required, with one more revision, and so back onto the costing list.
   */
  lemma ReviseOrphanReopens(s: State, id: nat, quoteId: string)
    requires id in s.inquiries && s.inquiries[id].status == WaitingApproval
    requires quoteId in s.quotations && s.quotations[quoteId].status == Draft
    requires s.quotations[quoteId].inquiryId == id
    ensures var c := SetStatusStep(s, id, Cancelled);
            && c.inquiries[id].status == Cancelled
            && ReviseStep(c, quoteId).inquiries[id].status == ReviseRequired
            && ReviseStep(c, quoteId).inquiries[id].revisionCount == s.inquiries[id].revisionCount + 1
  {
  }

  /**
   * Cancelling is offered for an In Development inquiry too. Its project
   * stays on progress and listed, and finishing it brings the cancelled
   * inquiry back as Ready for Costing. Unlike the orphan Draft, this path
   * keeps both WorkflowInvariant and NoOrphanDrafts throughout.
   */
  lemma CancelDuringDevelopmentReopens(s: State, id: nat, projectId: nat)
    requires WorkflowInvariant(s) && NoOrphanDrafts(s)
    requires id in s.inquiries && s.inquiries[id].status == InDevelopment
    requires projectId in s.projects && s.projects[projectId].status == OnProgress
    requires s.projects[projectId].inquiryId == id
    ensures var c := SetStatusStep(s, id, Cancelled);
            && c.inquiries[id].status == Cancelled
            && WorkflowInvariant(c) && NoOrphanDrafts(c)
            && projectId in c.projects && c.projects[projectId].status == OnProgress
            && FinishLocalizationStep(c, projectId).inquiries[id].status == ReadyForCosting
            && WorkflowInvariant(FinishLocalizationStep(c, projectId))
            && NoOrphanDrafts(FinishLocalizationStep(c, projectId))
  {
    var c := SetStatusStep(s, id, Cancelled);
    CancelPreserves(s, id);
    FinishLocalizationPreserves(c, projectId);
  }

  /**
   * A purchase order is terminal: under the invariant a PO Created inquiry
   * has no Draft and no project on progress, so APPROVE, REVISE and Finish
   * Development, whichever row they are pressed on, leave it as it is; the
   * other handlers' listings do not offer PO Created.
   */
  lemma POCreatedIsTerminal(s: State, id: nat)
    requires WorkflowInvariant(s) && id in s.inquiries && s.inquiries[id].status == POCreated
    ensures Drafts(s.quotations, id) == {}
    ensures forall p :: p in s.projects && s.projects[p].status == OnProgress ==> s.projects[p].inquiryId != id
    ensures forall k :: k in s.quotations && s.quotations[k].status == Draft
                        ==> ApproveStep(s, k).inquiries[id] == s.inquiries[id]
                            && ReviseStep(s, k).inquiries[id] == s.inquiries[id]
    ensures forall p :: p in s.projects && s.projects[p].status == OnProgress
                        ==> FinishLocalizationStep(s, p).inquiries[id] == s.inquiries[id]
  {
    forall k | k in s.quotations && s.quotations[k].status == Draft
      ensures s.quotations[k].inquiryId != id
    {
      assert k in Drafts(s.quotations, s.quotations[k].inquiryId);
    }
  }

  // ---------------------------------------------------------------------
  // Revision count over repeated rejections
  // ---------------------------------------------------------------------

  /** What one REVISE followed by one resubmission does to the inquiries table (ReviseStep, then SubmitDraftStep). */
  function ReviseAndResubmit(inqs: map<nat, Inquiry>, id: nat): map<nat, Inquiry>
  {
    SetInquiryStatus(SetInquiryStatus(inqs, id, ReviseRequired, true), id, WaitingApproval, false)
  }

  function Cycles(inqs: map<nat, Inquiry>, id: nat, n: nat): map<nat, Inquiry>
    decreases n
  {
    if n == 0 then inqs else Cycles(ReviseAndResubmit(inqs, id), id, n - 1)
  }

  lemma ReviseAndResubmitIsTheSteps(s: State, quoteId: string, q: Quotation)
    requires quoteId in s.quotations && q.inquiryId == s.quotations[quoteId].inquiryId
    ensures SubmitDraftStep(ReviseStep(s, quoteId), q).inquiries
            == ReviseAndResubmit(s.inquiries, q.inquiryId)
  {
  }

  /** n reject-and-resubmit cycles add exactly n to revision_count and end in Waiting Approval. */
  lemma {:induction false} RevisionCountAfterCycles(inqs: map<nat, Inquiry>, id: nat, n: nat)
    requires id in inqs
    ensures id in Cycles(inqs, id, n)
    ensures Cycles(inqs, id, n)[id].revisionCount == inqs[id].revisionCount + n
    ensures n > 0 ==> Cycles(inqs, id, n)[id].status == WaitingApproval
    ensures Cycles(inqs, id, n).Keys == inqs.Keys
    ensures forall j :: j in inqs && j != id ==> Cycles(inqs, id, n)[j] == inqs[j]
    decreases n
  {
    if n > 0 {
      var next := ReviseAndResubmit(inqs, id);
      assert next[id].revisionCount == inqs[id].revisionCount + 1;
      RevisionCountAfterCycles(next, id, n - 1);
    }
  }

  // ---------------------------------------------------------------------
  // The handlers keep the invariant
  // ---------------------------------------------------------------------
  // Each method below runs one handler of module Workflow and carries the
  // preservation lemma of its step function over to the store.

  method SubmitInquiryKeepsInvariant(db: DatabaseManager, customer: string, partNo: string, qty: int)
    requires db.Valid() && partNo in db.parts && qty >= 1
    requires WorkflowInvariant(Observe(db))
    modifies db`inquiries, db`nextId
    ensures db.Valid() && WorkflowInvariant(Observe(db))
    ensures old(NoOrphanDrafts(Observe(db))) ==> NoOrphanDrafts(Observe(db))
  {
    ghost var s := Observe(db);
    ghost var id := db.nextId;
    SubmitInquiry(db, customer, partNo, qty);
    NewInquiryPreserves(s, id, customer, partNo, qty);
  }

  method ValidateInquiryKeepsInvariant(db: DatabaseManager, inquiryId: nat, decision: ValidationDecision)
    requires db.Valid()
    requires inquiryId in db.inquiries && db.inquiries[inquiryId] in db.GetInquiriesByStatus([PendingValidation])
    requires db.inquiries[inquiryId].partNumber in db.parts
    requires Offered(db.parts[db.inquiries[inquiryId].partNumber].itemType, decision)
    requires WorkflowInvariant(Observe(db))
    modifies db`inquiries
    ensures db.Valid() && WorkflowInvariant(Observe(db))
    ensures old(NoOrphanDrafts(Observe(db))) ==> NoOrphanDrafts(Observe(db))
  {
    ghost var s := Observe(db);
    ValidateInquiry(db, inquiryId, decision);
    ValidatePreserves(s, inquiryId, decision);
  }

  method StartLocalizationKeepsInvariant(db: DatabaseManager, inquiryId: nat, supplierName: string,
                                         targetDate: string, notes: string)
    requires db.Valid()
    requires inquiryId in db.inquiries && db.inquiries[inquiryId] in db.GetInquiriesByStatus([NeedsLocalization])
    requires WorkflowInvariant(Observe(db))
    modifies db`projects, db`nextProjectId, db`inquiries
    ensures db.Valid() && WorkflowInvariant(Observe(db))
    ensures old(NoOrphanDrafts(Observe(db))) ==> NoOrphanDrafts(Observe(db))
  {
    ghost var s := Observe(db);
    ghost var project := LocalizationProject(db.nextProjectId, inquiryId, db.inquiries[inquiryId].partNumber,
                                             supplierName, targetDate, notes, OnProgress);
    StartLocalization(db, inquiryId, supplierName, targetDate, notes);
    StartLocalizationPreserves(s, project);
  }

  method FinishLocalizationKeepsInvariant(db: DatabaseManager, projectId: nat)
    requires db.Valid()
    requires projectId in db.projects && db.projects[projectId] in db.GetLocalizationProjects()
    requires WorkflowInvariant(Observe(db))
    modifies db`projects, db`inquiries
    ensures db.Valid() && WorkflowInvariant(Observe(db))
    ensures old(NoOrphanDrafts(Observe(db))) ==> NoOrphanDrafts(Observe(db))
  {
    ghost var s := Observe(db);
    FinishLocalization(db, projectId);
    FinishLocalizationPreserves(s, projectId);
  }

  method SubmitCostingKeepsInvariant(db: DatabaseManager, inquiryId: nat, quoteId: string, cost: real,
                                     profit: real, moq: int, leadtime: int) returns (ok: bool)
    requires db.Valid()
    requires inquiryId in db.inquiries
    requires db.inquiries[inquiryId] in db.GetInquiriesByStatus([ReadyForCosting, ReviseRequired])
    requires db.inquiries[inquiryId].partNumber in db.parts
    requires WorkflowInvariant(Observe(db))
    modifies db`quotations, db`quoteOrder, db`inquiries
    ensures db.Valid() && WorkflowInvariant(Observe(db))
    ensures old(NoOrphanDrafts(Observe(db))) ==> NoOrphanDrafts(Observe(db))
  {
    ghost var s := Observe(db);
    ghost var row := db.inquiries[inquiryId];
    ok := SubmitCosting(db, inquiryId, quoteId, cost, profit, moq, leadtime);
    if ok {
      DraftQuotationFields(row, quoteId, cost, profit, moq, leadtime);
      SubmitDraftPreserves(s, DraftQuotation(row, quoteId, cost, profit, moq, leadtime));
    }
  }

  method ApproveQuotationKeepsInvariant(db: DatabaseManager, quoteId: string)
    requires db.Valid()
    requires quoteId in db.quotations && db.quotations[quoteId] in db.GetQuotationsByStatus(Draft)
    requires WorkflowInvariant(Observe(db))
    modifies db`quotations, db`inquiries
    ensures db.Valid() && WorkflowInvariant(Observe(db))
    ensures old(NoOrphanDrafts(Observe(db))) ==> NoOrphanDrafts(Observe(db))
  {
    ghost var s := Observe(db);
    ApproveQuotation(db, quoteId);
    ApprovePreserves(s, quoteId);
  }

  method ReviseQuotationKeepsInvariant(db: DatabaseManager, quoteId: string)
    requires db.Valid()
    requires quoteId in db.quotations && db.quotations[quoteId] in db.GetQuotationsByStatus(Draft)
    requires WorkflowInvariant(Observe(db))
    modifies db`quotations, db`inquiries
    ensures db.Valid() && WorkflowInvariant(Observe(db))
    ensures old(NoOrphanDrafts(Observe(db))) ==> NoOrphanDrafts(Observe(db))
  {
    ghost var s := Observe(db);
    ReviseQuotation(db, quoteId);
    RevisePreserves(s, quoteId);
  }

  /** Cancelling keeps NoOrphanDrafts only when the inquiry was not Waiting Approval. */
  method CancelInquiryKeepsInvariant(db: DatabaseManager, customer: string, inquiryId: nat)
    requires db.Valid()
    requires inquiryId in db.inquiries && db.inquiries[inquiryId] in db.GetInquiriesByCustomer(customer)
    requires db.inquiries[inquiryId].status !in {Cancelled, POCreated, Finished}
    requires WorkflowInvariant(Observe(db))
    modifies db`inquiries
    ensures db.Valid() && WorkflowInvariant(Observe(db))
    ensures old(NoOrphanDrafts(Observe(db))) && old(db.inquiries[inquiryId].status) != WaitingApproval
            ==> NoOrphanDrafts(Observe(db))
  {
    ghost var s := Observe(db);
    CancelInquiry(db, customer, inquiryId);
    CancelPreserves(s, inquiryId);
  }

  method CreatePurchaseOrderKeepsInvariant(db: DatabaseManager, customer: string, quoteId: string,
                                           poNumber: string)
    requires db.Valid()
    requires quoteId in db.quotations && db.quotations[quoteId].inquiryId in db.inquiries
    requires ApprovedRow(db.quotations[quoteId], db.inquiries[db.quotations[quoteId].inquiryId].status)
             in db.GetApprovedWithPoCheck()
    requires db.quotations[quoteId].customerName == customer
    requires db.inquiries[db.quotations[quoteId].inquiryId].status != POCreated
    requires WorkflowInvariant(Observe(db))
    modifies db`inquiries
    ensures db.Valid() && WorkflowInvariant(Observe(db))
    ensures old(NoOrphanDrafts(Observe(db))) ==> NoOrphanDrafts(Observe(db))
  {
    ghost var s := Observe(db);
    CreatePurchaseOrder(db, customer, quoteId, poNumber);
    PurchaseOrderPreserves(s, quoteId);
  }
}
