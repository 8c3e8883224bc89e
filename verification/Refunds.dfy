/** Refunds of paid invoices: correction documents with their approval, and the execution
    of a full refund, which reverses fee and wage and closes the escrow record, beside
    everything else that happens to payments (apps/payouts/services_adjustment.py,
    apps/payouts/services_refund_execution.py). */
module Refunds {
  import opened Options
  import opened Ledgers
  import opened Escrows
  import opened WageSplit
  import opened EscrowAgreement
  import opened PaymentFlow
  import opened PaymentSafety

  // -------------------------------------------------------------------- Documents

  datatype DocumentKind = FullRefund | PartialRefund | OtherCorrection

  datatype DocumentStatus =
    | DraftDocument | PendingApproval | ApprovedDocument | Applied | RejectedDocument | CancelledDocument

  /** A correction of a paid invoice, and the reversals its execution wrote. */
  datatype Document = Document(company: nat, invoice: nat, kind: DocumentKind, amount: int, status: DocumentStatus,
                               feeEntry: Option<Entry>, wageEntry: Option<Entry>)

  /** All tables. A document is identified by its position. */
  datatype Books = Books(db: Db, documents: seq<Document>)

  function CreateDraft(b: Books, company: nat, invoice: nat, kind: DocumentKind, amount: int, reason: string): Books {
    if invoice >= |b.db.invoices| || b.db.invoices[invoice].status != InvoicePaid || amount <= 0 || Blank(reason) then b
    else if kind in {FullRefund, PartialRefund} && amount > b.db.invoices[invoice].total then b
    else b.(documents := b.documents + [Document(company, invoice, kind, amount, DraftDocument, None, None)])
  }

  function Advance(b: Books, d: nat, from: DocumentStatus, to: DocumentStatus): Books {
    if d >= |b.documents| || b.documents[d].status != from then b
    else b.(documents := b.documents[d := b.documents[d].(status := to)])
  }

  // -------------------------------------------------------------------- Execution

  /** A record of the company and the invoice. */
  predicate RecordOf(db: Db, p: nat, company: nat, invoice: nat) {
    p in db.escrows && p < |db.payments| && db.escrows[p].invoice == Some(invoice) && db.payments[p].company == company
  }

  /** What the query for the invoice's newest record may find: one of its records if it has
      any. Which one is newest is an input. */
  predicate MayFind(db: Db, found: Option<nat>, company: nat, invoice: nat) {
    match found
    case Some(p) => RecordOf(db, p, company, invoice)
    case None => forall p :: p in db.escrows ==> !RecordOf(db, p, company, invoice)
  }

  /** The recorded fee of an invoice: its first debit. */
  function FeeOf(rows: seq<Row>, company: nat, invoice: nat): Option<int> {
    if rows == [] then None
    else
      var before, e := FeeOf(rows[..|rows| - 1], company, invoice), rows[|rows| - 1].entry;
      if before.Some? then before
      else if e.owner == Company(company) && e.kind == Debit && e.key == InvoiceFee(invoice) then Some(e.amount)
      else None
  }

  predicate Concerns(document: Document, company: nat, invoice: nat) {
    document.company == company && document.invoice == invoice
  }

  function AmountOf(amount: Option<int>): int {
    if amount.Some? then amount.value else 0
  }

  function FeeReversalOf(b: Books, d: nat): Option<Entry>
    requires d < |b.documents|
  {
    var document := b.documents[d];
    match FeeOf(b.db.feeRows, document.company, document.invoice)
    case Some(fee) => Some(Entry(Company(document.company), Credit, RefundReversal, fee, FeeReversal(d)))
    case None => None
  }

  function WageReversalOf(b: Books, d: nat): Option<Entry>
    requires d < |b.documents|
  {
    var document := b.documents[d];
    if document.invoice >= |b.db.invoices| then None
    else
      var invoice := b.db.invoices[document.invoice];
      if Wage(invoice) <= 0 || invoice.technician.None? then None
      else Some(Entry(Technician(document.company, invoice.technician.value), Debit, RefundReversal, Wage(invoice),
                      WageReversal(d)))
  }

  /** Write a reversal, if there is one. The document refers to it unless it was there. */
  function PostReversal(rows: seq<Row>, reversal: Option<Entry>): seq<Row> {
    if reversal.Some? then Post(rows, reversal.value) else rows
  }

  function Referred(rows: seq<Row>, reversal: Option<Entry>, before: Option<Entry>): Option<Entry> {
    if PostReversal(rows, reversal) != rows then reversal else before
  }

  /** Executing is refused for other kinds, after settlement, and for a wage that was paid
      out by the gateway itself (`split`, as its snapshot says); and the record must not be
      in a settlement batch, or closing it raises. */
  predicate Executable(b: Books, d: nat, found: Option<nat>, split: bool) {
    && d < |b.documents| && b.documents[d].status == ApprovedDocument && b.documents[d].kind == FullRefund
    && (found.Some? && found.value in b.db.escrows ==>
          !split && b.db.escrows[found.value].status in {Held, Reserved, Distributed})
  }

  /** The writes: both reversals, the closed record, the applied document. */
  function Reverse(b: Books, d: nat, found: Option<nat>): Books
    requires d < |b.documents|
  {
    var fee, wage := FeeReversalOf(b, d), WageReversalOf(b, d);
    var escrows := if found.Some? && found.value in b.db.escrows
                   then b.db.escrows[found.value := Close(b.db.escrows[found.value])] else b.db.escrows;
    Books(b.db.(feeRows := PostReversal(b.db.feeRows, fee), technicianRows := PostReversal(b.db.technicianRows, wage),
                escrows := escrows),
          b.documents[d := b.documents[d].(status := Applied,
                                           feeEntry := Referred(b.db.feeRows, fee, b.documents[d].feeEntry),
                                           wageEntry := Referred(b.db.technicianRows, wage, b.documents[d].wageEntry))])
  }

  /** `execute`: any write that raises takes the others back. */
  function Execute(b: Books, d: nat, found: Option<nat>, split: bool, fault: bool): Books {
    if !Executable(b, d, found, split) || fault || !MayFind(b.db, found, b.documents[d].company, b.documents[d].invoice)
        then b
    else Reverse(b, d, found)
  }

  // ------------------------------------------------------------------------- Runs

  datatype Step =
    | DoPayment(action: Action)
    | DoDraft(company: nat, invoice: nat, kind: DocumentKind, amount: int, reason: string)
    | DoSubmit(document: nat)
    | DoApprove(document: nat)
    | DoReject(document: nat)
    | DoWithdraw(document: nat)
    | DoExecute(document: nat, found: Option<nat>, split: bool, fault: bool)
    | DoBatch(payment: nat, batch: nat)
    | DoSettle(payment: nat, finalBatch: Option<nat>)

  function UpdateRecord(b: Books, p: nat, r: Record): Books {
    b.(db := b.db.(escrows := b.db.escrows[p := r]))
  }

  function Take(b: Books, s: Step): Books {
    match s
    case DoPayment(a) => b.(db := Apply(b.db, a))
    case DoDraft(company, invoice, kind, amount, reason) => CreateDraft(b, company, invoice, kind, amount, reason)
    case DoSubmit(d) => Advance(b, d, DraftDocument, PendingApproval)
    case DoApprove(d) => Advance(b, d, PendingApproval, ApprovedDocument)
    case DoReject(d) => Advance(b, d, PendingApproval, RejectedDocument)
    case DoWithdraw(d) => Advance(b, d, DraftDocument, CancelledDocument)
    case DoExecute(d, found, split, fault) => Execute(b, d, found, split, fault)
    case DoBatch(p, batch) => if p in b.db.escrows then UpdateRecord(b, p, MarkPending(b.db.escrows[p], batch)) else b
    case DoSettle(p, batch) => if p in b.db.escrows then UpdateRecord(b, p, MarkSettled(b.db.escrows[p], batch)) else b
  }

  function TakeAll(b: Books, steps: seq<Step>): Books
    decreases |steps|
  {
    if steps == [] then b else TakeAll(Take(b, steps[0]), steps[1..])
  }

  lemma {:induction false} TakeAllAppended(b: Books, first: seq<Step>, second: seq<Step>)
    ensures TakeAll(b, first + second) == TakeAll(TakeAll(b, first), second)
    decreases |first|
  {
    hide Take;
    if first == [] {
      assert first + second == second;
    } else {
      assert (first + second)[1..] == first[1..] + second;
      TakeAllAppended(Take(b, first[0]), first[1..], second);
    }
  }

  lemma TakeFirst(b: Books, first: Step, rest: seq<Step>)
    ensures TakeAll(b, [first] + rest) == TakeAll(Take(b, first), rest)
  {
    hide Take;
    assert ([first] + rest)[1..] == rest;
  }

  lemma TakeTwo(b: Books, first: Step, second: Step)
    ensures TakeAll(b, [first, second]) == Take(Take(b, first), second)
  {
    hide Take;
    assert [first, second] == [first] + [second] && [second] == [second] + [];
    TakeFirst(b, first, [second]);
    TakeFirst(Take(b, first), second, []);
  }

  lemma TakeThree(b: Books, first: Step, second: Step, third: Step)
    ensures TakeAll(b, [first, second, third]) == Take(Take(Take(b, first), second), third)
  {
    hide Take;
    assert [first, second, third] == [first] + [second, third];
    TakeFirst(b, first, [second, third]);
    TakeTwo(Take(b, first), second, third);
  }

  // ------------------------------------------- What no payment step does to refunds

  predicate Reversal(key: Key) { key.FeeReversal? || key.WageReversal? }

  /** Rows were only added, none of them negative or a reversal, keys still unique. */
  predicate Grown(a: seq<Row>, b: seq<Row>) {
    && a <= b && (forall k :: |a| <= k < |b| ==> !Reversal(b[k].entry.key) && 0 <= b[k].entry.amount)
    && (UniqueKeys(a) ==> UniqueKeys(b))
  }

  /** No record is lost, and a closed one never changes. */
  predicate ClosedStay(a: map<nat, Record>, b: map<nat, Record>) {
    forall p :: p in a ==> p in b && (a[p].status == Closed ==> b[p] == a[p])
  }

  predicate SameCompanies(a: seq<Payment>, b: seq<Payment>) {
    |a| <= |b| && forall p :: 0 <= p < |a| ==> b[p].company == a[p].company
  }

  predicate Continues(a: Db, b: Db) {
    && Grown(a.technicianRows, b.technicianRows) && Grown(a.feeRows, b.feeRows)
    && ClosedStay(a.escrows, b.escrows) && SameCompanies(a.payments, b.payments)
  }

  lemma ContinuesOn(a: Db, b: Db, c: Db)
    requires Continues(a, b) && Continues(b, c)
    ensures Continues(a, c)
  {
    GrownOn(a.technicianRows, b.technicianRows, c.technicianRows);
    GrownOn(a.feeRows, b.feeRows, c.feeRows);
    hide Grown;
  }

  lemma GrownOn(a: seq<Row>, b: seq<Row>, c: seq<Row>)
    requires Grown(a, b) && Grown(b, c)
    ensures Grown(a, c)
  {
    hide UniqueKeys;
    forall k | |a| <= k < |c|
      ensures !Reversal(c[k].entry.key) && 0 <= c[k].entry.amount
    {
      if k < |b| { assert c[k] == b[k]; }
    }
  }

  lemma PostGrown(rows: seq<Row>, e: Entry)
    requires !Reversal(e.key)
    ensures Grown(rows, Post(rows, e))
  {
    PostUnique(rows, e);
    hide UniqueKeys, GetBalance;
  }

  lemma PostUnique(rows: seq<Row>, e: Entry)
    ensures UniqueKeys(rows) ==> UniqueKeys(Post(rows, e))
  {
    hide GetBalance;
  }

  lemma SameContinues(a: Db, b: Db)
    requires b.technicianRows == a.technicianRows && b.feeRows == a.feeRows && b.escrows == a.escrows
    requires SameCompanies(a.payments, b.payments)
    ensures Continues(a, b)
  {
  }

  /** The five writes that may fail, and a task beside them. */
  lemma WritesContinue(db: Db, i: nat, p: Option<nat>, faults: Faults)
    requires i < |db.invoices|
    ensures Continues(db, DistributeEscrow(db, i, p, faults).db)
    ensures Continues(db, WriteLedger(db, i, p, faults).db)
    ensures Continues(db, WriteFee(db, i, p, faults).db)
  {
    DistributeContinues(db, i, p, faults);
    LedgerContinues(db, i, p, faults);
    FeeContinues(db, i, p, faults);
    hide Continues;
  }

  lemma DistributeContinues(db: Db, i: nat, p: Option<nat>, faults: Faults)
    requires i < |db.invoices|
    ensures Continues(db, DistributeEscrow(db, i, p, faults).db)
  {
    hide Commission, Wage, UniqueKeys;
  }

  lemma LedgerContinues(db: Db, i: nat, p: Option<nat>, faults: Faults)
    requires i < |db.invoices|
    ensures Continues(db, WriteLedger(db, i, p, faults).db)
  {
    var es := InvoiceEntries(Facts(db, i, p));
    assert forall k :: 0 <= k < |es| ==> !Reversal(es[k].key);
    assert |es| <= 2;
    hide InvoiceEntries, Facts, Post, Grown;
    var db1 := db.(technicianRows := if es == [] then db.technicianRows else Post(db.technicianRows, es[0]));
    SelfGrown(db.technicianRows);
    SelfGrown(db.feeRows);
    if es != [] {
      PostGrown(db.technicianRows, es[0]);
      if |es| == 2 {
        var first := Post(db.technicianRows, es[0]);
        PostGrown(first, es[1]);
        GrownOn(db.technicianRows, first, Post(first, es[1]));
      }
    }
  }

  lemma SelfGrown(rows: seq<Row>)
    ensures Grown(rows, rows)
  {
  }

  lemma FeeContinues(db: Db, i: nat, p: Option<nat>, faults: Faults)
    requires i < |db.invoices|
    ensures Continues(db, WriteFee(db, i, p, faults).db)
  {
    var es := FeeEntries(db, i, p);
    assert es != [] ==> !Reversal(es[0].key);
    hide FeeEntries, Post, Grown;
    SelfGrown(db.technicianRows);
    SelfGrown(db.feeRows);
    if es != [] { PostGrown(db.feeRows, es[0]); }
  }

  lemma DirectContinues(db: Db, p: nat, faults: Faults)
    ensures Continues(db, WriteDirect(db, p, faults).db)
  {
    var es := DirectEntries(db, p);
    assert es != [] ==> !Reversal(es[0].key);
    hide DirectEntries, Post, Grown;
    SelfGrown(db.technicianRows);
    SelfGrown(db.feeRows);
    if es != [] { PostGrown(db.technicianRows, es[0]); }
  }

  lemma CreateContinues(db: Db, p: nat, invoice: Option<nat>, faults: Faults)
    ensures Continues(db, CreateEscrow(db, p, invoice, faults).db)
  {
    hide UniqueKeys;
  }

  lemma OrElseContinues(db: Db, attempt: Attempt, kind: TaskKind, company: nat, invoice: Option<nat>, p: Option<nat>)
    requires Continues(db, attempt.db)
    ensures Continues(db, OrElseTask(attempt, kind, company, invoice, p))
  {
    hide Grown, ClosedStay, SameCompanies, CreateTask;
  }

  lemma PostPaidContinues(db: Db, i: nat, p: Option<nat>, faults: Faults)
    requires i < |db.invoices|
    ensures Continues(db, PostPaid(db, i, p, faults))
  {
    hide Continues, OrElseTask, DistributeEscrow, WriteLedger, WriteFee;
    var company := db.invoices[i].company;
    var escrowed := OrElseTask(DistributeEscrow(db, i, p, faults), EscrowTask, company, Some(i), p);
    OrElseSame(DistributeEscrow(db, i, p, faults), EscrowTask, company, Some(i), p);
    WritesContinue(db, i, p, faults);
    OrElseContinues(db, DistributeEscrow(db, i, p, faults), EscrowTask, company, Some(i), p);
    var credited := OrElseTask(WriteLedger(escrowed, i, p, faults), LedgerTask, company, Some(i), p);
    OrElseSame(WriteLedger(escrowed, i, p, faults), LedgerTask, company, Some(i), p);
    WritesContinue(escrowed, i, p, faults);
    OrElseContinues(escrowed, WriteLedger(escrowed, i, p, faults), LedgerTask, company, Some(i), p);
    WritesContinue(credited, i, p, faults);
    OrElseContinues(credited, WriteFee(credited, i, p, faults), FeeTask, company, Some(i), p);
    ContinuesOn(db, escrowed, credited);
    ContinuesOn(db, credited, PostPaid(db, i, p, faults));
  }

  lemma OrElseSame(attempt: Attempt, kind: TaskKind, company: nat, invoice: Option<nat>, p: Option<nat>)
    ensures OrElseTask(attempt, kind, company, invoice, p).invoices == attempt.db.invoices
  {
  }

  lemma PostDirectContinues(db: Db, p: nat, faults: Faults)
    ensures Continues(db, PostDirect(db, p, faults))
  {
    SameContinues(db, db);
    hide Continues, OrElseTask, WriteDirect;
    if !faults.snapshot && p < |db.payments| {
      DirectContinues(db, p, faults);
      OrElseContinues(db, WriteDirect(db, p, faults), DirectTask, db.payments[p].company, db.payments[p].invoice,
          Some(p));
    }
  }

  lemma MarkPaidContinues(db: Db, i: nat, p: Option<nat>, means: string, reference: string, now: int, faults: Faults)
    requires CanBePaid(db, i, p)
    ensures Continues(db, MarkPaid(db, i, p, means, reference, now, faults))
  {
    var settled := Settle(db, i, p, means, reference, now);
    assert settled == db.(invoices := settled.invoices) && |settled.invoices| == |db.invoices| by {
      hide CalculateSplit, MethodOf, ReferenceOf;
    }
    SameContinues(db, settled);
    hide Continues, Settle, PostPaid;
    PostPaidContinues(settled, i, p, faults);
    ContinuesOn(db, settled, PostPaid(settled, i, p, faults));
  }

  lemma VerifyContinues(db: Db, p: nat, response: VerifyResponse, now: int, faults: Faults)
    ensures Continues(db, Verify(db, p, response, now, faults))
  {
    if Verified(db, p, response, now) {
      AcceptContinues(db, p, response.tracking, now, faults);
      var accepted := AcceptPayment(db, p, response.tracking, now, faults);
      SameContinues(db, db);
      hide Continues, AcceptPayment, PostDirect, MarkPaid, CanBePaid;
      if !InvoiceIssued(db, p) {
        PostDirectContinues(accepted, p, faults);
        ContinuesOn(db, accepted, PostDirect(accepted, p, faults));
      } else {
        var i := db.payments[p].invoice.value;
        if CanBePaid(accepted, i, Some(p)) {
          var paid := MarkPaid(accepted, i, Some(p), "", "", now, faults);
          MarkPaidContinues(accepted, i, Some(p), "", "", now, faults);
          PostDirectContinues(paid, p, faults);
          ContinuesOn(db, accepted, paid);
          ContinuesOn(db, paid, PostDirect(paid, p, faults));
        }
      }
    } else {
      hide AcceptPayment, PostDirect, MarkPaid;
      SameContinues(db, Verify(db, p, response, now, faults));
    }
  }

  lemma AcceptContinues(db: Db, p: nat, tracking: string, now: int, faults: Faults)
    requires p < |db.payments|
    ensures Continues(db, AcceptPayment(db, p, tracking, now, faults))
  {
    var payment := db.payments[p].(status := Paid, tracking := tracking, paidAt := Some(now));
    var paid := db.(payments := db.payments[p := payment]);
    SameContinues(db, paid);
    hide Continues, CreateEscrow, OrElseTask;
    CreateContinues(paid, p, payment.invoice, faults);
    OrElseContinues(paid, CreateEscrow(paid, p, payment.invoice, faults), EscrowTask, payment.company, payment.invoice,
        Some(p));
    ContinuesOn(db, paid, AcceptPayment(db, p, tracking, now, faults));
  }

  lemma CashContinues(db: Db, i: nat, payment: Payment, reference: string, now: int, faults: Faults)
    ensures var received, p := db.(payments := db.payments + [payment]), Some(|db.payments|);
            CanBePaid(received, i, p) ==> Continues(db, MarkPaid(received, i, p, "cash", reference, now, faults))
  {
    var received, p := db.(payments := db.payments + [payment]), Some(|db.payments|);
    SameContinues(db, received);
    hide Continues, MarkPaid, CanBePaid;
    if CanBePaid(received, i, p) {
      MarkPaidContinues(received, i, p, "cash", reference, now, faults);
      ContinuesOn(db, received, MarkPaid(received, i, p, "cash", reference, now, faults));
    }
  }

  lemma TechnicianCashContinues(db: Db, i: nat, reference: string, now: int, faults: Faults)
    ensures Continues(db, TechnicianCash(db, i, reference, now, faults))
  {
    SameContinues(db, db);
    if i < |db.invoices| {
      var payment := CashPayment(db, i, reference, true, now, Some(now));
      var received, p := db.(payments := db.payments + [payment]), Some(|db.payments|);
      CashContinues(db, i, payment, reference, now, faults);
      hide Continues, MarkPaid, CanBePaid, Supersede;
      if CanBePaid(received, i, p) {
        var paid := MarkPaid(received, i, p, "cash", reference, now, faults);
        var closed := paid.(payments := CancelAbandoned(paid.payments, i, db.invoices[i].company, |db.payments|));
        AbandonedKeepCompanies(paid.payments, i, db.invoices[i].company, |db.payments|);
        SameContinues(paid, closed);
        ContinuesOn(db, paid, closed);
      }
    }
  }

  lemma AbandonedKeepCompanies(payments: seq<Payment>, i: nat, company: nat, cash: nat)
    ensures SameCompanies(payments, CancelAbandoned(payments, i, company, cash))
  {
  }

  lemma AdminCashContinues(db: Db, i: nat, byTechnician: bool, now: int, faults: Faults)
    ensures Continues(db, AdminCash(db, i, byTechnician, now, faults))
  {
    SameContinues(db, db);
    if i < |db.invoices| {
      CashContinues(db, i, CashPayment(db, i, "", byTechnician, now, None), "", now, faults);
      hide Continues, MarkPaid, CanBePaid;
    }
  }

  lemma RetryContinues(db: Db, task: Task, faults: Faults)
    ensures Continues(db, Retry(db, task, faults).db)
  {
    SameContinues(db, db);
    hide Continues, WriteLedger, WriteFee, WriteDirect, CreateEscrow, DistributeEscrow;
    match task.kind
    case LedgerTask => if !LostInvoice(db, task) { WritesContinue(db, task.invoice.value, task.payment, faults); }
    case FeeTask => if !LostInvoice(db, task) { WritesContinue(db, task.invoice.value, task.payment, faults); }
    case DirectTask => if task.payment.Some? { DirectContinues(db, task.payment.value, faults); }
    case EscrowTask =>
      if !LostInvoice(db, task) && task.payment.Some? {
        CreateContinues(db, task.payment.value, task.invoice, faults);
        var created := CreateEscrow(db, task.payment.value, task.invoice, faults);
        assert created.db.invoices
               == db.invoices by { CreateKeepsInvoices(db, task.payment.value, task.invoice, faults); }
        if !created.raised {
          WritesContinue(created.db, task.invoice.value, task.payment, faults);
          ContinuesOn(db, created.db, DistributeEscrow(created.db, task.invoice.value, task.payment, faults).db);
        }
      }
  }

  lemma CreateKeepsInvoices(db: Db, p: nat, invoice: Option<nat>, faults: Faults)
    ensures CreateEscrow(db, p, invoice, faults).db.invoices == db.invoices
  {
  }

  lemma ProcessContinues(db: Db, t: nat, faults: Faults, recordFault: bool)
    ensures Continues(db, ProcessTask(db, t, faults, recordFault))
  {
    hide Retry, Grown, ClosedStay;
    SelfContinues(db);
    if t < |db.tasks| { RetryContinues(db, db.tasks[t], faults); }
  }

  lemma SelfContinues(db: Db)
    ensures Continues(db, db)
  {
  }

  lemma PaymentContinues(db: Db, a: Action)
    ensures Continues(db, Apply(db, a))
  {
    hide Continues, Verify, TechnicianCash, AdminCash, ProcessTask, InvoiceTotal, Total100, SameCompanies;
    SelfContinues(db);
    match a
    case DoCallback(company, reference, response, now, faults) =>
      var found := FindByReference(db.payments, company, reference, |db.payments|);
      if found.Some? { VerifyContinues(db, found.value, response, now, faults); }
    case DoTechnicianCash(i, reference, now, faults) => TechnicianCashContinues(db, i, reference, now, faults);
    case DoAdminCash(i, byTechnician, now, faults) => AdminCashContinues(db, i, byTechnician, now, faults);
    case DoProcess(t, faults, recordFault) => ProcessContinues(db, t, faults, recordFault);
    case DoStart(i, gateway, allowed, initiated, now) =>
      StartKeepsCompanies(db, i, gateway, allowed, initiated, now);
      SameContinues(db, Apply(db, a));
    case DoExpire(p, now, age) =>
      ExpireKeepsCompanies(db, p, now, age);
      SameContinues(db, Apply(db, a));
    case _ =>
      SameCompaniesItself(db.payments);
      SameContinues(db, Apply(db, a));
  }

  lemma SameCompaniesItself(payments: seq<Payment>)
    ensures SameCompanies(payments, payments)
  {
  }

  lemma StartKeepsCompanies(db: Db, i: nat, gateway: Option<Gateway>, allowed: bool, response: InitiateResponse,
      now: int)
    ensures SameCompanies(db.payments, Start(db, i, gateway, allowed, response, now).payments)
  {
  }

  lemma ExpireKeepsCompanies(db: Db, p: nat, now: int, age: int)
    ensures SameCompanies(db.payments, Expire(db, p, now, age).payments)
  {
  }

  // ---------------------------------------------- Documents against the ledgers

  /** What an owner's entries other than reversals add up to. */
  function PlainSum(rows: seq<Row>, owner: Owner): int {
    if rows == [] then 0
    else
      var e := rows[|rows| - 1].entry;
      PlainSum(rows[..|rows| - 1], owner) + (if e.owner == owner && !Reversal(e.key) then Signed(e) else 0)
  }

  /** What the entries that documents refer to add up to. */
  function ReferredSum(references: seq<Option<Entry>>, owner: Owner): int {
    if references == [] then 0
    else
      var last := references[|references| - 1];
      ReferredSum(references[..|references| - 1], owner)
        + (if last.Some? && last.value.owner == owner then Signed(last.value) else 0)
  }

  function FeeReferences(documents: seq<Document>): seq<Option<Entry>> {
    seq(|documents|, d requires 0 <= d < |documents| => documents[d].feeEntry)
  }

  function WageReferences(documents: seq<Document>): seq<Option<Entry>> {
    seq(|documents|, d requires 0 <= d < |documents| => documents[d].wageEntry)
  }

  datatype Side = Fees | Wages

  function ReversalKey(side: Side, d: nat): Key {
    if side == Fees then FeeReversal(d) else WageReversal(d)
  }

  /** Reversals in a ledger and references to them correspond one to one, and an owner's
      sum is that of the other entries and of what the documents reversed. */
  ghost predicate Referenced(rows: seq<Row>, references: seq<Option<Entry>>, side: Side) {
    && UniqueKeys(rows) && (forall r :: r in rows ==> 0 <= r.entry.amount)
    && (forall r :: r in rows && Reversal(r.entry.key) ==>
          exists d :: 0 <= d < |references| && references[d] == Some(r.entry))
    && (forall d :: 0 <= d < |references| && references[d].Some? ==>
          references[d].value.key == ReversalKey(side, d) && exists r :: r in rows && r.entry == references[d].value)
    && (forall owner :: SignedSum(rows, owner) == PlainSum(rows, owner) + ReferredSum(references, owner))
  }

  /** What a document reversed of a fee is what is recorded. */
  predicate FeesMatch(b: Books) {
    forall d :: 0 <= d < |b.documents| && b.documents[d].feeEntry.Some? ==>
      FeeOf(b.db.feeRows, b.documents[d].company, b.documents[d].invoice) == Some(b.documents[d].feeEntry.value.amount)
  }

  ghost predicate Reconciled(b: Books) {
    && FeesMatch(b)
    && Referenced(b.db.feeRows, FeeReferences(b.documents), Fees)
    && Referenced(b.db.technicianRows, WageReferences(b.documents), Wages)
    && forall d :: 0 <= d < |b.documents| && b.documents[d].status != Applied ==>
         b.documents[d].feeEntry == None && b.documents[d].wageEntry == None
  }

  lemma {:induction false} SumsOfGrown(a: seq<Row>, b: seq<Row>, owner: Owner)
    requires Grown(a, b)
    ensures SignedSum(b, owner) - SignedSum(a, owner) == PlainSum(b, owner) - PlainSum(a, owner)
    decreases |b|
  {
    hide UniqueKeys;
    if |a| < |b| {
      FrontGrown(a, b);
      SumsOfGrown(a, b[..|b| - 1], owner);
    } else {
      assert a == b;
    }
  }

  lemma FrontGrown(a: seq<Row>, b: seq<Row>)
    requires Grown(a, b) && |a| < |b|
    ensures Grown(a, b[..|b| - 1])
  {
  }

  lemma ReferencedAfterGrown(a: seq<Row>, b: seq<Row>, references: seq<Option<Entry>>, side: Side)
    requires Referenced(a, references, side) && Grown(a, b)
    ensures Referenced(b, references, side)
  {
    hide UniqueKeys, SignedSum, PlainSum, ReferredSum;
    forall owner
      ensures SignedSum(b, owner) == PlainSum(b, owner) + ReferredSum(references, owner)
    {
      SumsOfGrown(a, b, owner);
    }
    forall r | r in b
      ensures 0 <= r.entry.amount
      ensures Reversal(r.entry.key) ==> exists d :: 0 <= d < |references| && references[d] == Some(r.entry)
    {
      var k :| 0 <= k < |b| && b[k] == r;
      if k < |a| { assert a[k] == r; }
    }
    forall d | 0 <= d < |references| && references[d].Some?
      ensures exists r :: r in b && r.entry == references[d].value
    {
      var r :| r in a && r.entry == references[d].value;
      assert r in b;
    }
  }

  lemma ReferencedByMore(rows: seq<Row>, references: seq<Option<Entry>>, side: Side)
    requires Referenced(rows, references, side)
    ensures Referenced(rows, references + [None], side)
  {
    hide UniqueKeys, SignedSum, PlainSum;
    var more := references + [None];
    assert more[..|references|] == references;
    forall r | r in rows && Reversal(r.entry.key)
      ensures exists d :: 0 <= d < |more| && more[d] == Some(r.entry)
    {
      var d :| 0 <= d < |references| && references[d] == Some(r.entry);
      assert more[d] == Some(r.entry);
    }
  }

  lemma {:induction false} ReferredUpdate(references: seq<Option<Entry>>, d: nat, e: Entry, owner: Owner)
    requires d < |references| && references[d] == None
    ensures ReferredSum(references[d := Some(e)], owner)
            == ReferredSum(references, owner) + (if e.owner == owner then Signed(e) else 0)
  {
    var last := |references| - 1;
    if d < last {
      ReferredUpdate(references[..last], d, e, owner);
      assert references[d := Some(e)][..last] == references[..last][d := Some(e)];
    } else {
      assert references[d := Some(e)][..last] == references[..last];
    }
  }

  /** Writing document `d`'s reversal, if there is one to write. */
  lemma ReferencedAfterReversal(rows: seq<Row>, references: seq<Option<Entry>>, d: nat, reversal: Option<Entry>,
      side: Side)
    requires Referenced(rows, references, side) && d < |references| && references[d] == None
    requires reversal.Some? ==> reversal.value.key == ReversalKey(side, d)
    ensures Referenced(PostReversal(rows, reversal), references[d := Referred(rows, reversal, None)], side)
    ensures PostReversal(rows, reversal)
            == if reversal.Some? && 0 <= reversal.value.amount
               then rows + [Row(reversal.value, GetBalance(rows, reversal.value.owner) + Signed(reversal.value))]
                   else rows
    ensures Referred(rows, reversal, None) == if reversal.Some? && 0 <= reversal.value.amount then reversal else None
  {
    if reversal.Some? && 0 <= reversal.value.amount {
      var e := reversal.value;
      NoReversalYet(rows, references, d, side);
      var row := Row(e, GetBalance(rows, e.owner) + Signed(e));
      assert Post(rows, e) == rows + [row] && Post(rows, e) != rows;
      ReferencedAfterRow(rows, references, d, row, side);
    } else {
      assert references[d := None] == references;
    }
  }

  lemma NoReversalYet(rows: seq<Row>, references: seq<Option<Entry>>, d: nat, side: Side)
    requires Referenced(rows, references, side) && d < |references| && references[d] == None
    ensures !HasKey(rows, ReversalKey(side, d))
  {
    hide UniqueKeys, SignedSum, PlainSum, ReferredSum;
    forall k | 0 <= k < |rows|
      ensures rows[k].entry.key != ReversalKey(side, d)
    {
      assert rows[k] in rows;
    }
  }

  lemma ReferencedAfterRow(rows: seq<Row>, references: seq<Option<Entry>>, d: nat, row: Row, side: Side)
    requires Referenced(rows, references, side) && d < |references| && references[d] == None
    requires row.entry.key == ReversalKey(side, d) && 0 <= row.entry.amount && !HasKey(rows, row.entry.key)
    ensures Referenced(rows + [row], references[d := Some(row.entry)], side)
  {
    var after, more := rows + [row], references[d := Some(row.entry)];
    assert UniqueKeys(after);
    hide UniqueKeys, HasKey;
    forall owner
      ensures SignedSum(after, owner) == PlainSum(after, owner) + ReferredSum(more, owner)
    {
      assert after[..|rows|] == rows;
      ReferredUpdate(references, d, row.entry, owner);
    }
    hide SignedSum, PlainSum, ReferredSum;
    forall r | r in after && Reversal(r.entry.key)
      ensures exists c :: 0 <= c < |more| && more[c] == Some(r.entry)
    {
      if r in rows {
        var c :| 0 <= c < |references| && references[c] == Some(r.entry);
        assert more[c] == Some(r.entry);
      } else {
        assert more[d] == Some(r.entry);
      }
    }
    forall c | 0 <= c < |more| && more[c].Some?
      ensures more[c].value.key == ReversalKey(side, c) && exists r :: r in after && r.entry == more[c].value
    {
      if c == d {
        assert row in after;
      } else {
        var r :| r in rows && r.entry == references[c].value;
        assert r in after;
      }
    }
  }

  // ------------------------------------------------------------- Over every run

  lemma {:induction false} RecordedFeeIsNatural(rows: seq<Row>, company: nat, invoice: nat)
    requires forall r :: r in rows ==> 0 <= r.entry.amount
    ensures FeeOf(rows, company, invoice).Some? ==> 0 <= FeeOf(rows, company, invoice).value
  {
    if rows != [] {
      assert rows[|rows| - 1] in rows;
      RecordedFeeIsNatural(rows[..|rows| - 1], company, invoice);
    }
  }

  lemma {:induction false} FeeStays(a: seq<Row>, b: seq<Row>, company: nat, invoice: nat)
    requires a <= b
    ensures FeeOf(a, company, invoice).Some? ==> FeeOf(b, company, invoice) == FeeOf(a, company, invoice)
    decreases |b|
  {
    if |a| < |b| { FeeStays(a, b[..|b| - 1], company, invoice); } else { assert a == b; }
  }

  lemma FeesStillMatch(b: Books, after: Books)
    requires b.db.feeRows <= after.db.feeRows
    requires forall d :: 0 <= d < |after.documents| && after.documents[d].feeEntry.Some? ==>
               var document := after.documents[d];
               FeeOf(b.db.feeRows, document.company, document.invoice) == Some(document.feeEntry.value.amount)
    ensures FeesMatch(after)
  {
    hide FeeOf;
    forall d | 0 <= d < |after.documents|
      ensures FeeOf(b.db.feeRows, after.documents[d].company, after.documents[d].invoice).Some? ==>
                FeeOf(after.db.feeRows, after.documents[d].company, after.documents[d].invoice)
                == FeeOf(b.db.feeRows, after.documents[d].company, after.documents[d].invoice)
    {
      FeeStays(b.db.feeRows, after.db.feeRows, after.documents[d].company, after.documents[d].invoice);
    }
  }

  lemma FeeEntryIs(b: Books, d: nat, found: Option<nat>)
    requires Reconciled(b) && d < |b.documents| && b.documents[d].status != Applied
    ensures var after := Reverse(b, d, found);
            && after.documents[d].feeEntry == FeeReversalOf(b, d) && b.db.feeRows <= after.db.feeRows
            && after.documents[d].company == b.documents[d].company
                 && after.documents[d].invoice == b.documents[d].invoice
  {
    var fee := FeeReversalOf(b, d);
    RecordedFeeIsNatural(b.db.feeRows, b.documents[d].company, b.documents[d].invoice);
    ReferencedAfterReversal(b.db.feeRows, FeeReferences(b.documents), d, fee, Fees);
    hide Referenced, FeeOf, Wage, GetBalance;
  }

  lemma ExecuteReconciles(b: Books, d: nat, found: Option<nat>)
    requires Reconciled(b) && d < |b.documents| && b.documents[d].status != Applied
    ensures Reconciled(Reverse(b, d, found))
  {
    hide Referenced, FeeOf, Wage;
    var after := Reverse(b, d, found);
    FeeEntryIs(b, d, found);
    FeesStillMatch(b, after);
    hide FeesMatch;
    var fee, wage := FeeReversalOf(b, d), WageReversalOf(b, d);
    ReferencedAfterReversal(b.db.feeRows, FeeReferences(b.documents), d, fee, Fees);
    ReferencedAfterReversal(b.db.technicianRows, WageReferences(b.documents), d, wage, Wages);
    hide PostReversal, Referred, FeeReversalOf, WageReversalOf;
    assert FeeReferences(after.documents) == FeeReferences(b.documents)[d := Referred(b.db.feeRows, fee, None)];
    assert WageReferences(after.documents)
           == WageReferences(b.documents)[d := Referred(b.db.technicianRows, wage, None)];
  }

  lemma StepReconciles(b: Books, s: Step)
    requires Reconciled(b)
    ensures Reconciled(Take(b, s))
  {
    hide Referenced, Apply, Reverse, Executable, MayFind, FeeOf;
    match s
    case DoPayment(a) =>
      PaymentContinues(b.db, a);
      FeesStillMatch(b, Take(b, s));
      hide Grown, FeesMatch;
      ReferencedAfterGrown(b.db.feeRows, Apply(b.db, a).feeRows, FeeReferences(b.documents), Fees);
      ReferencedAfterGrown(b.db.technicianRows, Apply(b.db, a).technicianRows, WageReferences(b.documents), Wages);
    case DoDraft(company, invoice, kind, amount, reason) =>
      var document := Document(company, invoice, kind, amount, DraftDocument, None, None);
      MoreReferences(b.documents, document);
      ReferencedByMore(b.db.feeRows, FeeReferences(b.documents), Fees);
      ReferencedByMore(b.db.technicianRows, WageReferences(b.documents), Wages);
    case DoSubmit(d) => AdvanceKeepsReferences(b, d, DraftDocument, PendingApproval);
    case DoApprove(d) => AdvanceKeepsReferences(b, d, PendingApproval, ApprovedDocument);
    case DoReject(d) => AdvanceKeepsReferences(b, d, PendingApproval, RejectedDocument);
    case DoWithdraw(d) => AdvanceKeepsReferences(b, d, DraftDocument, CancelledDocument);
    case DoExecute(d, found, split, fault) =>
      if Execute(b, d, found, split, fault) != b {
        ExecutableIs(b, d, found, split);
        ExecuteReconciles(b, d, found);
      }
    case DoBatch(p, batch) =>
    case DoSettle(p, batch) =>
  }

  lemma ExecutableIs(b: Books, d: nat, found: Option<nat>, split: bool)
    requires Executable(b, d, found, split)
    ensures d < |b.documents| && b.documents[d].status == ApprovedDocument
  {
  }

  lemma ExecuteLands(b: Books, d: nat, found: Option<nat>, split: bool)
    requires Executable(b, d, found, split) && MayFind(b.db, found, b.documents[d].company, b.documents[d].invoice)
    ensures Execute(b, d, found, split, false) == Reverse(b, d, found)
  {
    hide Reverse;
  }

  lemma MoreReferences(documents: seq<Document>, document: Document)
    requires document.feeEntry == None && document.wageEntry == None
    ensures FeeReferences(documents + [document]) == FeeReferences(documents) + [None]
    ensures WageReferences(documents + [document]) == WageReferences(documents) + [None]
  {
  }

  lemma AdvanceKeepsReferences(b: Books, d: nat, from: DocumentStatus, to: DocumentStatus)
    requires Reconciled(b) && from != Applied && to != Applied
    ensures Reconciled(Advance(b, d, from, to))
  {
    hide Referenced;
    if d < |b.documents| {
      var documents := b.documents[d := b.documents[d].(status := to)];
      assert FeeReferences(documents) == FeeReferences(b.documents);
      assert WageReferences(documents) == WageReferences(b.documents);
    }
  }

  /** Over every run, payments, retries and settlements of batches among refunds: documents
      and ledgers agree entry by entry, and balance by balance. */
  lemma {:induction false} EveryRunReconciles(b: Books, steps: seq<Step>)
    requires Reconciled(b)
    ensures Reconciled(TakeAll(b, steps))
    decreases |steps|
  {
    if steps != [] {
      hide Reconciled, Take;
      StepReconciles(b, steps[0]);
      EveryRunReconciles(Take(b, steps[0]), steps[1..]);
    }
  }

  lemma ReconciledBalances(b: Books, owner: Owner)
    requires Reconciled(b)
    ensures GetBalance(b.db.technicianRows, owner)
            == PlainSum(b.db.technicianRows, owner) + ReferredSum(WageReferences(b.documents), owner)
    ensures GetBalance(b.db.feeRows, owner)
            == PlainSum(b.db.feeRows, owner) + ReferredSum(FeeReferences(b.documents), owner)
  {
    hide GetBalance, SignedSum, PlainSum, ReferredSum;
    GetBalanceIsSignedSum(b.db.technicianRows, owner);
    GetBalanceIsSignedSum(b.db.feeRows, owner);
  }

  // ------------------------------------------------------------ A refund is final

  /** What stays of a state: rows, closed records, applied documents. */
  predicate Stays(a: Books, b: Books) {
    && a.db.technicianRows <= b.db.technicianRows && a.db.feeRows <= b.db.feeRows
    && ClosedStay(a.db.escrows, b.db.escrows) && SameCompanies(a.db.payments, b.db.payments)
    && |a.documents| <= |b.documents|
    && forall d :: 0 <= d < |a.documents| && a.documents[d].status == Applied ==> b.documents[d] == a.documents[d]
  }

  lemma StepStays(b: Books, s: Step)
    ensures Stays(b, Take(b, s))
  {
    hide Apply, FeeReversalOf, WageReversalOf, GetBalance, HasKey, MayFind;
    if s.DoPayment? { PaymentContinues(b.db, s.action); }
  }

  lemma {:induction false} RunStays(b: Books, steps: seq<Step>)
    ensures Stays(b, TakeAll(b, steps))
    decreases |steps|
  {
    if steps != [] {
      StepStays(b, steps[0]);
      hide Take;
      RunStays(Take(b, steps[0]), steps[1..]);
    }
  }

  /** The whole effect of an execution that is not refused: the technician's balance falls
      by the settled wage, the company's fee by the fee recorded for the invoice, the record
      is closed with its shares, and nothing else moves. */
  lemma ExecuteMoves(b: Books, d: nat, found: Option<nat>, split: bool, owner: Owner)
    requires Reconciled(b) && Executable(b, d, found, split)
    requires MayFind(b.db, found, b.documents[d].company, b.documents[d].invoice)
             && b.documents[d].invoice < |b.db.invoices|
    ensures var after, document, invoice := Execute(b, d, found, split, false), b.documents[d],
            b.db.invoices[b.documents[d].invoice];
            && (owner.Technician? ==>
                  GetBalance(after.db.technicianRows, owner) == GetBalance(b.db.technicianRows, owner)
                    - (if invoice.technician.Some? && owner == Technician(document.company, invoice.technician.value)
                       then Max(Wage(invoice), 0) else 0))
            && (owner.Company? ==>
                  GetBalance(after.db.feeRows, owner) == GetBalance(b.db.feeRows, owner)
                    - (if owner == Company(document.company)
                       then AmountOf(FeeOf(b.db.feeRows, document.company, document.invoice)) else 0))
            && after.db.escrows.Keys == b.db.escrows.Keys
            && (forall p :: p in b.db.escrows ==>
                  after.db.escrows[p]
                  == if found == Some(p) then b.db.escrows[p].(status := Closed) else b.db.escrows[p])
            && after.db.invoices == b.db.invoices && after.db.payments == b.db.payments && after.db.tasks == b.db.tasks
            && after.documents == b.documents[d := after.documents[d]] && after.documents[d].status == Applied
  {
    ReversalsMove(b, d, found, owner);
    hide GetBalance, FeeOf, Wage, Reconciled, HasKey;
  }

  lemma ReversalsMove(b: Books, d: nat, found: Option<nat>, owner: Owner)
    requires Reconciled(b) && d < |b.documents| && b.documents[d].status != Applied
    ensures var after, fee, wage := Reverse(b, d, found), FeeReversalOf(b, d), WageReversalOf(b, d);
            && (GetBalance(after.db.technicianRows, owner)
                == GetBalance(b.db.technicianRows, owner)
                    + (if wage.Some? && wage.value.owner == owner then Signed(wage.value) else 0))
            && (GetBalance(after.db.feeRows, owner)
                == GetBalance(b.db.feeRows, owner)
                    + (if fee.Some? && fee.value.owner == owner then Signed(fee.value) else 0))
  {
    var fee, wage := FeeReversalOf(b, d), WageReversalOf(b, d);
    if fee.Some? {
      RecordedFeeIsNatural(b.db.feeRows, b.documents[d].company, b.documents[d].invoice);
      ReferencedAfterReversal(b.db.feeRows, FeeReferences(b.documents), d, fee, Fees);
      PostMoves(b.db.feeRows, fee.value, owner);
    }
    if wage.Some? {
      ReferencedAfterReversal(b.db.technicianRows, WageReferences(b.documents), d, wage, Wages);
      PostMoves(b.db.technicianRows, wage.value, owner);
    }
    hide GetBalance, Referenced, FeeOf, Wage;
  }

  /** Whatever happens later: the refund's document, its reversals and its closed record
      stay as they are, and executing it again changes nothing. */
  lemma RefundIsFinal(b: Books, d: nat, found: Option<nat>, split: bool, steps: seq<Step>)
    requires Executable(b, d, found, split) && MayFind(b.db, found, b.documents[d].company, b.documents[d].invoice)
    ensures var landed := Execute(b, d, found, split, false);
            var later := TakeAll(landed, steps);
            && d < |later.documents| && later.documents[d] == landed.documents[d]
            && landed.db.technicianRows <= later.db.technicianRows && landed.db.feeRows <= later.db.feeRows
            && (found.Some? ==> found.value in later.db.escrows
                                && later.db.escrows[found.value] == Close(b.db.escrows[found.value]))
            && forall found', split', fault :: Execute(later, d, found', split', fault) == later
  {
    hide FeeReversalOf, WageReversalOf, PostReversal, Referred, TakeAll;
    var landed := Execute(b, d, found, split, false);
    RunStays(landed, steps);
    hide SameCompanies;
  }

  /** Exactly when a refund is repeated, by another approved document of the invoice at any
      later time: when the invoice has no record to tell, or through another record of it
      that is open. The record a refund closed never lets a second one pass. */
  lemma SecondRefundIff(b: Books, d: nat, found: Option<nat>, split: bool, steps: seq<Step>,
                        c: nat, found': Option<nat>, split': bool)
    requires Executable(b, d, found, split) && MayFind(b.db, found, b.documents[d].company, b.documents[d].invoice)
    requires var later := TakeAll(Execute(b, d, found, split, false), steps);
             && c < |later.documents| && later.documents[c].status == ApprovedDocument
                  && later.documents[c].kind == FullRefund
             && later.documents[c].company == b.documents[d].company
                  && later.documents[c].invoice == b.documents[d].invoice
             && MayFind(later.db, found', b.documents[d].company, b.documents[d].invoice)
    ensures var later := TakeAll(Execute(b, d, found, split, false), steps);
            Executable(later, c, found', split')
            <==> || found' == None
                 || (found' != found && !split'
                      && later.db.escrows[found'.value].status in {Held, Reserved, Distributed})
    ensures found.Some? ==> found'.Some?
  {
    hide FeeReversalOf, WageReversalOf, PostReversal, Referred, TakeAll;
    var landed := Execute(b, d, found, split, false);
    var later := TakeAll(landed, steps);
    RunStays(landed, steps);
    RefundIsFinal(b, d, found, split, steps);
    hide Stays, Execute;
    if found.Some? { StillRecord(landed, later, found.value, b.documents[d].company, b.documents[d].invoice); }
  }

  lemma StillRecord(a: Books, b: Books, p: nat, company: nat, invoice: nat)
    requires Stays(a, b) && RecordOf(a.db, p, company, invoice) && a.db.escrows[p].status == Closed
    ensures RecordOf(b.db, p, company, invoice) && b.db.escrows[p].status == Closed
  {
  }
}
