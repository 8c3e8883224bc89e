/** The life of a correction document: what it may be drafted for, the order of its statuses,
    and exactly when it is executed. */
module RefundDocuments {
  import opened Options
  import opened Ledgers
  import opened Escrows
  import opened WageSplit
  import opened EscrowAgreement
  import opened PaymentFlow
  import opened PaymentSafety
  import opened Refunds

  /** What can be corrected: a positive amount of a settled invoice, for refunds no more than
      its total. */
  predicate Correctable(db: Db, document: Document) {
    && 0 < document.amount && document.invoice < |db.invoices| && db.invoices[document.invoice].settlement.Some?
    && (document.kind == FullRefund || document.kind == PartialRefund ==>
          document.amount <= db.invoices[document.invoice].total)
  }

  predicate AllCorrectable(b: Books) {
    forall d :: 0 <= d < |b.documents| ==> Correctable(b.db, b.documents[d])
  }

  /** A step of a document's life. */
  predicate Follows(from: DocumentStatus, to: DocumentStatus) {
    || to == from
    || (from == DraftDocument && (to == PendingApproval || to == CancelledDocument))
    || (from == PendingApproval && (to == ApprovedDocument || to == RejectedDocument))
    || (from == ApprovedDocument && to == Applied)
  }

  /** The same document later: what it corrects is fixed. */
  predicate SameDocument(a: Document, b: Document) {
    a.company == b.company && a.invoice == b.invoice && a.kind == b.kind && a.amount == b.amount
  }

  /** Every step moves each document by at most one status, and what it corrects never changes;
      new ones are drafts. */
  lemma StepMovesDocuments(b: Books, s: Step)
    ensures var after := Take(b, s);
            && |b.documents| <= |after.documents| <= |b.documents| + 1
            && (forall d :: 0 <= d < |b.documents| ==>
                  SameDocument(b.documents[d], after.documents[d])
                  && Follows(b.documents[d].status, after.documents[d].status))
            && (|b.documents| < |after.documents| ==> after.documents[|b.documents|].status == DraftDocument)
  {
    hide Apply, FeeReversalOf, WageReversalOf, PostReversal, Referred, MayFind, Blank;
  }

  /** How each move is made: submitted, rejected and withdrawn documents by their own steps,
      approved ones only after submission, applied ones only by an execution. */
  lemma MovesAreMade(b: Books, s: Step, d: nat)
    requires d < |b.documents| && Take(b, s).documents[d].status != b.documents[d].status
    ensures match Take(b, s).documents[d].status
            case PendingApproval => s == DoSubmit(d) && b.documents[d].status == DraftDocument
            case ApprovedDocument => s == DoApprove(d) && b.documents[d].status == PendingApproval
            case RejectedDocument => s == DoReject(d) && b.documents[d].status == PendingApproval
            case CancelledDocument => s == DoWithdraw(d) && b.documents[d].status == DraftDocument
            case Applied => s.DoExecute? && s.document == d && b.documents[d].status == ApprovedDocument
            case DraftDocument => false
  {
    hide Apply, FeeReversalOf, WageReversalOf, PostReversal, Referred, MayFind, Blank;
  }

  /** Which requests become a draft. */
  lemma DraftIff(b: Books, company: nat, invoice: nat, kind: DocumentKind, amount: int, reason: string)
    ensures var after := CreateDraft(b, company, invoice, kind, amount, reason);
            if invoice < |b.db.invoices| && b.db.invoices[invoice].status == InvoicePaid && 0 < amount && !Blank(reason)
               && (kind == OtherCorrection || amount <= b.db.invoices[invoice].total)
            then
              var draft := Document(company, invoice, kind, amount, DraftDocument, None, None);
              after.db == b.db && after.documents == b.documents + [draft]
            else after == b
  {
    hide Blank;
  }

  /** Which executions go through, whatever they then write: an approved full refund whose
      record, if there is one, was not split directly and is neither settled, closed nor in a
      settlement batch. */
  lemma ExecutedIff(b: Books, d: nat, found: Option<nat>, split: bool)
    requires d < |b.documents| && MayFind(b.db, found, b.documents[d].company, b.documents[d].invoice)
    ensures Execute(b, d, found, split, false) != b
            <==> && b.documents[d].status == ApprovedDocument && b.documents[d].kind == FullRefund
                 && (found.Some? ==>
                       !split && (var status := b.db.escrows[found.value].status;
                                  status == Held || status == Reserved || status == Distributed))
    ensures Execute(b, d, found, split, true) == b
  {
    hide FeeReversalOf, WageReversalOf, PostReversal, Referred;
  }

  /** The records a refund may meet: those of the invoice whose payment is of the document's
      company, and none only if there is no such record. */
  lemma FoundIff(db: Db, found: Option<nat>, company: nat, invoice: nat)
    requires forall p :: p in db.escrows ==> p < |db.payments|
    ensures match found
            case Some(p) =>
              MayFind(db, found, company, invoice)
              <==> p in db.escrows && db.escrows[p].invoice == Some(invoice) && db.payments[p].company == company
            case None =>
              MayFind(db, found, company, invoice)
              <==> forall p :: p in db.escrows ==>
                     db.escrows[p].invoice != Some(invoice) || db.payments[p].company != company
  {
  }

  /** What an execution writes: the recorded fee credited to the company, the settled wage
      debited from the technician, each once, under the document's own key, and the document
      refers to exactly those. */
  lemma ReversalsAre(b: Books, d: nat, found: Option<nat>, split: bool)
    requires Reconciled(b) && Executable(b, d, found, split) && b.documents[d].invoice < |b.db.invoices|
    requires MayFind(b.db, found, b.documents[d].company, b.documents[d].invoice)
    ensures var after, document := Execute(b, d, found, split, false), b.documents[d];
            var invoice, fee := b.db.invoices[document.invoice],
                FeeOf(b.db.feeRows, document.company, document.invoice);
            && d < |after.documents|
            && (match fee
                case None => after.documents[d].feeEntry.None? && after.db.feeRows == b.db.feeRows
                case Some(amount) =>
                  var e := Entry(Company(document.company), Credit, RefundReversal, amount, FeeReversal(d));
                  after.documents[d].feeEntry == Some(e) && Appended(b.db.feeRows, after.db.feeRows, e))
            && (if invoice.technician.None? || Wage(invoice) <= 0
                then after.documents[d].wageEntry.None? && after.db.technicianRows == b.db.technicianRows
                else
                  var e := Entry(Technician(document.company, invoice.technician.value), Debit, RefundReversal,
                                 Wage(invoice), WageReversal(d));
                  after.documents[d].wageEntry == Some(e) && Appended(b.db.technicianRows, after.db.technicianRows, e))
  {
    hide Referenced, FeeOf, Wage, GetBalance, Executable, MayFind, Execute, PostReversal, Referred, FeesMatch;
    ExecutableIs(b, d, found, split);
    ExecuteLands(b, d, found, split);
    NaturalFees(b, b.documents[d].company, b.documents[d].invoice);
    var fee, wage := FeeReversalOf(b, d), WageReversalOf(b, d);
    ReferencedAfterReversal(b.db.feeRows, FeeReferences(b.documents), d, fee, Fees);
    ReferencedAfterReversal(b.db.technicianRows, WageReferences(b.documents), d, wage, Wages);
  }

  lemma NaturalFees(b: Books, company: nat, invoice: nat)
    requires Reconciled(b)
    ensures FeeOf(b.db.feeRows, company, invoice).Some? ==> 0 <= FeeOf(b.db.feeRows, company, invoice).value
  {
    RecordedFeeIsNatural(b.db.feeRows, company, invoice);
    hide UniqueKeys, SignedSum, PlainSum, ReferredSum, FeeOf, FeesMatch;
  }

  predicate Appended(before: seq<Row>, after: seq<Row>, e: Entry) {
    |after| == |before| + 1 && after[..|before|] == before && after[|before|].entry == e
  }

  lemma StepKeepsCorrectable(b: Books, s: Step)
    requires Sound(b.db) && AllCorrectable(b)
    ensures Sound(Take(b, s).db) && AllCorrectable(Take(b, s))
  {
    StepMovesDocuments(b, s);
    if s.DoPayment? {
      StepIsSafe(b.db, s.action);
      hide Apply, Sound;
    } else {
      StepKeepsInvoices(b, s);
      hide FeeReversalOf, WageReversalOf, PostReversal, Referred, MayFind, Blank, Executable;
    }
  }

  lemma StepKeepsInvoices(b: Books, s: Step)
    requires !s.DoPayment?
    ensures Take(b, s).db.invoices == b.db.invoices && Take(b, s).db.payments == b.db.payments
  {
    hide FeeReversalOf, WageReversalOf, PostReversal, Referred, MayFind, Blank;
  }

  /** Over every run: documents correct settled invoices, refunds within their totals. */
  lemma {:induction false} EveryRunKeepsCorrectable(b: Books, steps: seq<Step>)
    requires Sound(b.db) && AllCorrectable(b)
    ensures AllCorrectable(TakeAll(b, steps))
    decreases |steps|
  {
    if steps != [] {
      StepKeepsCorrectable(b, steps[0]);
      hide Take, Sound, AllCorrectable;
      EveryRunKeepsCorrectable(Take(b, steps[0]), steps[1..]);
    }
  }

  /** The recorded fee is the amount of the first debit under the invoice's key. */
  lemma {:induction false} FeeIsFirstDebit(rows: seq<Row>, company: nat, invoice: nat) returns (k: nat)
    ensures match FeeOf(rows, company, invoice)
            case None => forall j :: 0 <= j < |rows| ==> !FeeDebit(rows[j].entry, company, invoice)
            case Some(fee) =>
              && k < |rows| && FeeDebit(rows[k].entry, company, invoice) && rows[k].entry.amount == fee
              && forall j :: 0 <= j < k ==> !FeeDebit(rows[j].entry, company, invoice)
  {
    k := 0;
    if rows != [] {
      var front, n := rows[..|rows| - 1], |rows| - 1;
      k := FeeIsFirstDebit(front, company, invoice);
      assert forall j :: 0 <= j < n ==> rows[j] == front[j];
      if FeeOf(front, company, invoice).None? { k := n; }
    }
  }

  predicate FeeDebit(e: Entry, company: nat, invoice: nat) {
    e.owner == Company(company) && e.kind == Debit && e.key == InvoiceFee(invoice)
  }
}
