/** What a refund does not reach: a platform fee and an escrow record that are still queued. */
module QueuedWrites {
  import opened Options
  import opened Ledgers
  import opened Escrows
  import opened WageSplit
  import opened EscrowAgreement
  import opened PaymentFlow
  import opened PaymentSafety
  import opened Refunds
  import opened RefundLimits

  lemma ProcessTaken(b: Books, t: nat)
    ensures Take(b, DoPayment(DoProcess(t, NO_FAULTS, false))) == b.(db := ProcessTask(b.db, t, NO_FAULTS, false))
  {
    hide ProcessTask;
  }

  /** Without a recorded fee none is reversed. */
  lemma NothingReversed(b: Books, d: nat, found: Option<nat>)
    requires Reconciled(b) && d < |b.documents| && b.documents[d].status != Applied
    requires FeeOf(b.db.feeRows, b.documents[d].company, b.documents[d].invoice) == None
    ensures var after := Reverse(b, d, found);
            && after.db == b.db.(technicianRows := after.db.technicianRows, escrows := after.db.escrows)
            && after.documents == b.documents[d := after.documents[d]] && after.documents[d].feeEntry == None
            && after.documents[d].status == Applied
  {
    hide FeeOf, WageReversalOf, Referenced, Post;
  }

  /** The retried fee, when nothing was recorded for the invoice. */
  lemma FeeRetried(before: Db, db: Db, t: nat, i: nat)
    requires db == before.(technicianRows := db.technicianRows, escrows := db.escrows) && i < |db.invoices|
    requires t < |db.tasks| && db.tasks[t].kind == FeeTask && db.tasks[t].status == Waiting
             && db.tasks[t].invoice == Some(i)
    requires FeeEntries(before, i, db.tasks[t].payment) != [] && !HasKey(db.feeRows, InvoiceFee(i))
    requires FeeOf(db.feeRows, db.invoices[i].company, i) == None
    ensures FeeOf(ProcessTask(db, t, NO_FAULTS, false).feeRows, db.invoices[i].company, i)
            == Some(Commission(before, i))
    ensures 0 < Commission(before, i)
  {
    hide FeeOf, HasKey, GetBalance, PlatformFee;
    var e := FeeEntries(db, i, db.tasks[t].payment)[0];
    var row := Row(e, GetBalance(db.feeRows, e.owner) + Signed(e));
    assert ProcessTask(db, t, NO_FAULTS, false).feeRows == db.feeRows + [row];
    FeeOfLast(db.feeRows, row, db.invoices[i].company, i);
  }

  // ------------------------------------------------- Where a fee can come from

  /** One fee row of invoice `j` was added, or none. */
  predicate FeeRowFor(a: seq<Row>, b: seq<Row>, company: nat, j: nat) {
    || b == a
    || (&& !HasKey(a, InvoiceFee(j)) && |b| == |a| + 1 && a <= b
        && b[|a|].entry.key == InvoiceFee(j) && b[|a|].entry.owner == Company(company))
  }

  /** Tasks were only added, and fee tasks only for invoice `j` and payment `p`. */
  predicate FeeTasksFor(a: seq<Task>, b: seq<Task>, j: nat, p: nat) {
    a <= b && forall t :: |a| <= t < |b| && b[t].kind == FeeTask ==> b[t].invoice == Some(j) && b[t].payment == Some(p)
  }

  /** What paying invoice `j` by payment `p` does to fees. */
  predicate PaysFee(a: Db, b: Db, j: nat, p: nat) {
    && j < |a.invoices| && FeeRowFor(a.feeRows, b.feeRows, a.invoices[j].company, j)
         && FeeTasksFor(a.tasks, b.tasks, j, p)
  }

  /** Nothing that concerns fees. */
  predicate NoFee(a: Db, b: Db) {
    && b.feeRows == a.feeRows && a.tasks <= b.tasks
    && forall t :: |a.tasks| <= t < |b.tasks| ==> b.tasks[t].kind != FeeTask
  }

  lemma NoFeeOn(a: Db, b: Db, c: Db)
    requires NoFee(a, b) && NoFee(b, c)
    ensures NoFee(a, c)
  {
  }

  lemma NoFeeThenPays(a: Db, b: Db, c: Db, j: nat, p: nat)
    requires NoFee(a, b) && PaysFee(b, c, j, p) && j < |a.invoices| && a.invoices[j].company == b.invoices[j].company
    ensures PaysFee(a, c, j, p)
  {
    hide HasKey;
  }

  lemma PaysThenNoFee(a: Db, b: Db, c: Db, j: nat, p: nat)
    requires PaysFee(a, b, j, p) && NoFee(b, c)
    ensures PaysFee(a, c, j, p)
  {
    hide HasKey;
  }

  lemma OrElseNoFee(db: Db, attempt: Attempt, kind: TaskKind, company: nat, invoice: Option<nat>, p: Option<nat>)
    requires attempt.db.feeRows == db.feeRows && attempt.db.tasks == db.tasks && kind != FeeTask
    ensures NoFee(db, OrElseTask(attempt, kind, company, invoice, p))
  {
    hide HasOpenTask;
  }

  /** The writes other than the fee's leave fees and tasks alone. */
  lemma OthersNoFee(db: Db, i: nat, p: Option<nat>, faults: Faults)
    requires i < |db.invoices|
    ensures var r := DistributeEscrow(db, i, p, faults); r.db.feeRows == db.feeRows && r.db.tasks == db.tasks
    ensures var r := WriteLedger(db, i, p, faults); r.db.feeRows == db.feeRows && r.db.tasks == db.tasks
  {
    hide Commission, Wage, ReserveAndDistributeIn, InvoiceEntries, Facts, Post;
  }

  lemma FeePays(db: Db, i: nat, p: nat, faults: Faults)
    requires i < |db.invoices|
    ensures PaysFee(db, OrElseTask(WriteFee(db, i, Some(p), faults), FeeTask, db.invoices[i].company, Some(i), Some(p)),
            i, p)
  {
    var es := FeeEntries(db, i, Some(p));
    assert es != [] ==> es[0].key == InvoiceFee(i) && es[0].owner == Company(db.invoices[i].company);
    hide FeeEntries, HasOpenTask, GetBalance, HasKey;
  }

  lemma PostPaidPaysFee(db: Db, i: nat, p: nat, faults: Faults)
    requires i < |db.invoices|
    ensures PaysFee(db, PostPaid(db, i, Some(p), faults), i, p)
  {
    hide PaysFee, NoFee, OrElseTask, DistributeEscrow, WriteLedger, WriteFee;
    var company := db.invoices[i].company;
    OthersNoFee(db, i, Some(p), faults);
    OrElseNoFee(db, DistributeEscrow(db, i, Some(p), faults), EscrowTask, company, Some(i), Some(p));
    var escrowed := OrElseTask(DistributeEscrow(db, i, Some(p), faults), EscrowTask, company, Some(i), Some(p));
    OrElseInvoices(DistributeEscrow(db, i, Some(p), faults), EscrowTask, company, Some(i), Some(p));
    OthersNoFee(escrowed, i, Some(p), faults);
    OrElseNoFee(escrowed, WriteLedger(escrowed, i, Some(p), faults), LedgerTask, company, Some(i), Some(p));
    var credited := OrElseTask(WriteLedger(escrowed, i, Some(p), faults), LedgerTask, company, Some(i), Some(p));
    OrElseInvoices(WriteLedger(escrowed, i, Some(p), faults), LedgerTask, company, Some(i), Some(p));
    FeePays(credited, i, p, faults);
    NoFeeOn(db, escrowed, credited);
    NoFeeThenPays(db, credited, PostPaid(db, i, Some(p), faults), i, p);
  }

  lemma OrElseInvoices(attempt: Attempt, kind: TaskKind, company: nat, invoice: Option<nat>, p: Option<nat>)
    ensures OrElseTask(attempt, kind, company, invoice, p).invoices == attempt.db.invoices
  {
  }

  lemma SettleNoFee(db: Db, i: nat, p: Option<nat>, means: string, reference: string, now: int)
    requires i < |db.invoices|
    ensures var settled := Settle(db, i, p, means, reference, now);
            && NoFee(db, settled) && |settled.invoices| == |db.invoices|
            && settled.invoices[i].company == db.invoices[i].company
  {
    hide CalculateSplit, MethodOf, ReferenceOf, PolicyOf;
  }

  lemma MarkPaidPaysFee(db: Db, i: nat, p: nat, means: string, reference: string, now: int, faults: Faults)
    requires CanBePaid(db, i, Some(p))
    ensures PaysFee(db, MarkPaid(db, i, Some(p), means, reference, now, faults), i, p)
  {
    hide Settle, PostPaid, PaysFee, NoFee;
    var settled := Settle(db, i, Some(p), means, reference, now);
    SettleNoFee(db, i, Some(p), means, reference, now);
    PostPaidPaysFee(settled, i, p, faults);
    NoFeeThenPays(db, settled, PostPaid(settled, i, Some(p), faults), i, p);
  }

  lemma DirectNoFee(db: Db, p: nat, faults: Faults)
    ensures NoFee(db, PostDirect(db, p, faults))
  {
    hide DirectEntries, Post, HasOpenTask;
  }

  lemma AcceptNoFee(db: Db, p: nat, tracking: string, now: int, faults: Faults)
    requires p < |db.payments|
    ensures NoFee(db, AcceptPayment(db, p, tracking, now, faults))
  {
    hide HasOpenTask;
  }

  /** A verification touches fees only by paying its invoice, which was not settled. */
  lemma VerifyPaysFee(db: Db, p: nat, response: VerifyResponse, now: int, faults: Faults)
    ensures var end := Verify(db, p, response, now, faults);
            || NoFee(db, end)
            || (&& Verified(db, p, response, now) && db.payments[p].invoice.Some? && end != db
                && var j := db.payments[p].invoice.value;
                   j < |db.invoices| && db.invoices[j].settlement.None? && PaysFee(db, end, j, p))
  {
    hide PaysFee, NoFee, AcceptPayment, PostDirect, MarkPaid;
    SelfNoFee(db);
    if Verified(db, p, response, now) {
      var accepted := AcceptPayment(db, p, response.tracking, now, faults);
      AcceptNoFee(db, p, response.tracking, now, faults);
      AcceptPaymentSafe(db, p, response.tracking, now, faults);
      if !InvoiceIssued(db, p) {
        DirectNoFee(accepted, p, faults);
        NoFeeOn(db, accepted, PostDirect(accepted, p, faults));
      } else {
        var j := db.payments[p].invoice.value;
        if CanBePaid(accepted, j, Some(p)) {
          var paid := MarkPaid(accepted, j, Some(p), "", "", now, faults);
          MarkPaidPaysFee(accepted, j, p, "", "", now, faults);
          DirectNoFee(paid, p, faults);
          NoFeeThenPays(db, accepted, paid, j, p);
          PaysThenNoFee(db, paid, PostDirect(paid, p, faults), j, p);
          assert accepted.payments[p].status == Paid && db.payments[p].status == Pending;
          MarkPaidSettlesOne(accepted, j, Some(p), "", "", now, faults);
          PostDirectTouchesNoInvoice(paid, p, faults);
        }
      }
    } else {
      UnverifiedNoFee(db, p, response, now, faults);
    }
  }

  lemma UnverifiedNoFee(db: Db, p: nat, response: VerifyResponse, now: int, faults: Faults)
    requires !Verified(db, p, response, now)
    ensures NoFee(db, Verify(db, p, response, now, faults))
  {
    hide AcceptPayment, PostDirect, MarkPaid;
  }

  lemma SelfNoFee(db: Db)
    ensures NoFee(db, db)
  {
  }

  /** A cash receipt likewise. */
  lemma CashPaysFee(db: Db, i: nat, payment: Payment, reference: string, now: int, faults: Faults)
    ensures var received, p := db.(payments := db.payments + [payment]), |db.payments|;
            CanBePaid(received, i, Some(p)) ==>
              PaysFee(db, MarkPaid(received, i, Some(p), "cash", reference, now, faults), i, p)
              && db.invoices[i].settlement.None?
  {
    var received, p := db.(payments := db.payments + [payment]), |db.payments|;
    hide PaysFee, NoFee, MarkPaid;
    if CanBePaid(received, i, Some(p)) {
      MarkPaidPaysFee(received, i, p, "cash", reference, now, faults);
      SamePaysFee(db, received, MarkPaid(received, i, Some(p), "cash", reference, now, faults), i, p);
    }
  }

  lemma SamePaysFee(a: Db, b: Db, c: Db, j: nat, p: nat)
    requires b.invoices == a.invoices && b.feeRows == a.feeRows && b.tasks == a.tasks && PaysFee(b, c, j, p)
    ensures PaysFee(a, c, j, p)
  {
    hide HasKey;
  }

  /** What a step that pays leaves: fees are touched only by paying an invoice that was not
      settled, by a payment that then is paid. */
  predicate PaysUnsettled(a: Db, b: Db, j: nat, p: nat) {
    PaysFee(a, b, j, p) && a.invoices[j].settlement.None? && p < |b.payments| && b.payments[p].status == Paid
  }

  /** Every step but a retry. */
  lemma ActionPaysFee(db: Db, a: Action) returns (j: nat, p: nat)
    requires !a.DoProcess?
    ensures NoFee(db, Apply(db, a)) || PaysUnsettled(db, Apply(db, a), j, p)
  {
    hide PaysUnsettled, NoFee, Callback, TechnicianCash, AdminCash, InvoiceTotal, Total100;
    j, p := 0, 0;
    match a
    case DoCallback(company, reference, response, now, faults) =>
      j, p := CallbackPaysFee(db, company, reference, response, now, faults);
    case DoTechnicianCash(i, reference, now, faults) =>
      j, p := i, |db.payments|;
      TechnicianCashPaysFee(db, i, reference, now, faults);
    case DoAdminCash(i, byTechnician, now, faults) =>
      j, p := i, |db.payments|;
      AdminCashPaysFee(db, i, byTechnician, now, faults);
    case _ => InvoiceNoFee(db, a);
  }

  lemma CallbackPaysFee(db: Db, company: nat, reference: string, response: VerifyResponse, now: int, faults: Faults)
    returns (j: nat, p: nat)
    ensures var end := Callback(db, company, reference, response, now, faults);
            NoFee(db, end) || PaysUnsettled(db, end, j, p)
  {
    hide PaysFee, NoFee, Verify, FindByReference, Blank, Verified;
    j, p := 0, 0;
    SelfNoFee(db);
    var found := FindByReference(db.payments, company, reference, |db.payments|);
    if found.Some? {
      p := found.value;
      VerifyPaysFee(db, p, response, now, faults);
      FoundHasReference(db.payments, company, reference, |db.payments|);
      if db.payments[p].invoice.Some? { j := db.payments[p].invoice.value; }
      VerifiedIsPaid(db, p, response, now, faults);
    }
  }

  lemma InvoiceNoFee(db: Db, a: Action)
    requires InvoiceAction(a)
    ensures NoFee(db, Apply(db, a))
  {
    hide Callback, TechnicianCash, AdminCash, ProcessTask, InvoiceTotal, Total100;
  }

  lemma VerifiedIsPaid(db: Db, p: nat, response: VerifyResponse, now: int, faults: Faults)
    ensures var end := Verify(db, p, response, now, faults);
            Verified(db, p, response, now) && end != db ==> p < |end.payments| && end.payments[p].status == Paid
  {
    hide Verify, Verified;
    if Verified(db, p, response, now) { VerifiedInRange(db, p, response, now); VerifiedIs(db, p, response, now,
        faults); }
  }

  lemma VerifiedInRange(db: Db, p: nat, response: VerifyResponse, now: int)
    requires Verified(db, p, response, now)
    ensures p < |db.payments|
  {
  }

  lemma TechnicianCashPaysFee(db: Db, i: nat, reference: string, now: int, faults: Faults)
    ensures var end, p := TechnicianCash(db, i, reference, now, faults), |db.payments|;
            NoFee(db, end) || PaysUnsettled(db, end, i, p)
  {
    hide PaysFee, NoFee, MarkPaid, CanBePaid, Supersede;
    SelfNoFee(db);
    if i < |db.invoices| {
      var payment := CashPayment(db, i, reference, true, now, Some(now));
      var received, p := db.(payments := db.payments + [payment]), |db.payments|;
      CashPaysFee(db, i, payment, reference, now, faults);
      if CanBePaid(received, i, Some(p)) {
        MarkPaidSettlesOne(received, i, Some(p), "cash", reference, now, faults);
        var paid := MarkPaid(received, i, Some(p), "cash", reference, now, faults);
        OtherPaymentsPayFee(db, paid, CancelAbandoned(paid.payments, i, db.invoices[i].company, p), i, p);
      }
    }
  }

  lemma OtherPaymentsPayFee(a: Db, b: Db, payments: seq<Payment>, j: nat, p: nat)
    requires PaysFee(a, b, j, p)
    ensures PaysFee(a, b.(payments := payments), j, p)
  {
    hide HasKey;
  }

  lemma AdminCashPaysFee(db: Db, i: nat, byTechnician: bool, now: int, faults: Faults)
    ensures var end, p := AdminCash(db, i, byTechnician, now, faults), |db.payments|;
            NoFee(db, end) || PaysUnsettled(db, end, i, p)
  {
    hide PaysFee, NoFee, MarkPaid, CanBePaid;
    SelfNoFee(db);
    if i < |db.invoices| {
      var payment := CashPayment(db, i, "", byTechnician, now, None);
      var received, p := db.(payments := db.payments + [payment]), |db.payments|;
      CashPaysFee(db, i, payment, "", now, faults);
      if CanBePaid(received, i, Some(p)) {
        MarkPaidSettlesOne(received, i, Some(p), "cash", "", now, faults);
      }
    }
  }

  // ------------------------------------------------------- Orderly tables

  /** Every queued fee is that of a paid payment. */
  predicate FeeTasksPaid(db: Db) {
    forall t :: 0 <= t < |db.tasks| && db.tasks[t].kind == FeeTask ==>
      var payment := PaymentAt(db, db.tasks[t].payment);
      payment.Some? && payment.value.status == Paid
  }

  /** Every document corrects a settled invoice. */
  predicate DocumentsOfPaid(b: Books) {
    forall d :: 0 <= d < |b.documents| ==>
      b.documents[d].invoice < |b.db.invoices| && b.db.invoices[b.documents[d].invoice].settlement.Some?
  }

  ghost predicate Orderly(b: Books) {
    Reconciled(b) && Sound(b.db) && FeeTasksPaid(b.db) && DocumentsOfPaid(b)
  }

  /** The same tasks, apart from their attempts and those resolved. */
  predicate SameTasks(a: seq<Task>, b: seq<Task>) {
    |b| == |a| && forall t :: 0 <= t < |a| ==>
      b[t].(status := a[t].status, attempts := a[t].attempts) == a[t]
          && (b[t].status == Waiting ==> a[t].status == Waiting)
  }

  lemma ProcessSameTasks(db: Db, t: nat, faults: Faults, recordFault: bool)
    ensures var end := ProcessTask(db, t, faults, recordFault);
            && SameTasks(db.tasks, end.tasks) && end.policies == db.policies
            && end.invoices == db.invoices && end.payments == db.payments
  {
    hide Retry;
    if t < |db.tasks| { RetryTouchesNoInvoice(db, db.tasks[t], faults); }
  }

  lemma ActionFeeTasksPaid(db: Db, a: Action)
    requires Sound(db) && FeeTasksPaid(db)
    ensures FeeTasksPaid(Apply(db, a))
  {
    hide Sound, Apply, Advances, FeeTasksPaid, NoFee, PaysUnsettled, SameTasks;
    var end := Apply(db, a);
    StepIsSafe(db, a);
    if a.DoProcess? {
      ProcessApplied(db, a);
      ProcessSameTasks(db, a.task, a.faults, a.recordFault);
      SameFeeTasksPaid(db, end);
    } else {
      var j, p := ActionPaysFee(db, a);
      PaidTasksStay(db, end, j, p);
    }
  }

  lemma ProcessApplied(db: Db, a: Action)
    requires a.DoProcess?
    ensures Apply(db, a) == ProcessTask(db, a.task, a.faults, a.recordFault)
  {
    hide ProcessTask;
  }

  lemma SameFeeTasksPaid(a: Db, b: Db)
    requires FeeTasksPaid(a) && SameTasks(a.tasks, b.tasks) && b.payments == a.payments
    ensures FeeTasksPaid(b)
  {
  }

  /** Tasks of paid payments stay such, and new ones are of the payment just paid. */
  lemma PaidTasksStay(a: Db, b: Db, j: nat, p: nat)
    requires FeeTasksPaid(a) && Advances(a, b)
    requires NoFee(a, b) || PaysUnsettled(a, b, j, p)
    ensures FeeTasksPaid(b)
  {
    hide FeeRowFor;
    assert forall t :: 0 <= t < |a.tasks| ==> b.tasks[t] == a.tasks[t];
  }

  lemma StepIsOrderly(b: Books, s: Step)
    requires Orderly(b)
    ensures Orderly(Take(b, s))
  {
    StepReconciles(b, s);
    hide Reconciled;
    if s.DoPayment? {
      StepIsSafe(b.db, s.action);
      ActionFeeTasksPaid(b.db, s.action);
      hide Sound, FeeTasksPaid, Apply;
    } else {
      StepKeepsPayments(b, s);
      SameIsOrderly(b.db, Take(b, s).db);
      DocumentsStayPaid(b, s);
    }
  }

  /** Documents and batches touch neither invoices nor payments nor tasks. */
  lemma StepKeepsPayments(b: Books, s: Step)
    requires !s.DoPayment?
    ensures var after := Take(b, s).db;
            && after.invoices == b.db.invoices && after.payments == b.db.payments && after.tasks == b.db.tasks
            && after.policies == b.db.policies
  {
    hide FeeReversalOf, WageReversalOf, PostReversal, MayFind, Executable;
  }

  lemma SameIsOrderly(a: Db, b: Db)
    requires b.invoices == a.invoices && b.payments == a.payments && b.tasks == a.tasks
    requires Sound(a) && FeeTasksPaid(a)
    ensures Sound(b) && FeeTasksPaid(b)
  {
  }

  lemma DocumentsStayPaid(b: Books, s: Step)
    requires Sound(b.db) && DocumentsOfPaid(b) && !s.DoPayment?
    ensures DocumentsOfPaid(Take(b, s))
  {
    StepKeepsPayments(b, s);
    hide FeeReversalOf, WageReversalOf, PostReversal, MayFind, Executable, Referred, Blank;
  }

  lemma {:induction false} EveryRunIsOrderly(b: Books, steps: seq<Step>)
    requires Orderly(b)
    ensures Orderly(TakeAll(b, steps))
    decreases |steps|
  {
    if steps != [] {
      hide Orderly, Take;
      StepIsOrderly(b, steps[0]);
      EveryRunIsOrderly(Take(b, steps[0]), steps[1..]);
    }
  }

  /** Empty tables, under any policies, are orderly. */
  lemma NothingIsOrderly(ties: Ties, policies: map<nat, Policies>)
    ensures Orderly(Books(Db(ties, policies, [], [], map[], [], [], []), []))
  {
  }

  // ------------------------------------------------------------- A queued fee

  /** A retry is waiting that has a fee to write for invoice `i` of the company. */
  predicate FeeComes(db: Db, company: nat, i: nat) {
    && i < |db.invoices| && db.invoices[i].company == company && !HasKey(db.feeRows, InvoiceFee(i))
    && exists t :: 0 <= t < |db.tasks| && FeeWaits(db, t, i)
  }

  predicate FeeWaits(db: Db, t: nat, i: nat)
    requires t < |db.tasks| && i < |db.invoices|
  {
    var task := db.tasks[t];
    task.kind == FeeTask && task.status == Waiting && task.invoice == Some(i) && FeeEntries(db, i, task.payment) != []
  }

  /** A settled invoice with no fee, and none to come. */
  predicate NoFeeDue(db: Db, company: nat, i: nat) {
    && i < |db.invoices| && db.invoices[i].settlement.Some?
    && FeeOf(db.feeRows, company, i) == None && !FeeComes(db, company, i)
  }

  /** Rows among which is no fee of the company for invoice `i`. */
  predicate OtherRows(a: seq<Row>, b: seq<Row>, company: nat, i: nat) {
    a <= b && forall k :: |a| <= k < |b| ==>
      !(b[k].entry.owner == Company(company) && b[k].entry.kind == Debit && b[k].entry.key == InvoiceFee(i))
  }

  lemma {:induction false} OtherRowsKeepFee(a: seq<Row>, b: seq<Row>, company: nat, i: nat)
    requires OtherRows(a, b, company, i)
    ensures FeeOf(b, company, i) == FeeOf(a, company, i)
    decreases |b|
  {
    if |a| < |b| {
      assert OtherRows(a, b[..|b| - 1], company, i);
      OtherRowsKeepFee(a, b[..|b| - 1], company, i);
    } else {
      assert a == b;
    }
  }

  lemma KeyStays(a: seq<Row>, b: seq<Row>, key: Key)
    requires a <= b && HasKey(a, key)
    ensures HasKey(b, key)
  {
    var k :| 0 <= k < |a| && a[k].entry.key == key;
    assert b[k].entry.key == key;
  }

  /** What a settled invoice's fee is, once its payment is paid, never changes. */
  lemma FeeEntriesStay(a: Db, b: Db, i: nat, p: Option<nat>)
    requires Advances(a, b) && b.policies == a.policies && i < |a.invoices| && a.invoices[i].settlement.Some?
    requires PaymentAt(a, p).Some? && PaymentAt(a, p).value.status == Paid
    ensures FeeEntries(b, i, p) == FeeEntries(a, i, p)
  {
    hide PlatformFee;
  }

  /** If a fee waits after a step, it did before. */
  lemma FeeWaitedBefore(a: Db, b: Db, t: nat, i: nat)
    requires Advances(a, b) && b.policies == a.policies && i < |a.invoices| && a.invoices[i].settlement.Some?
    requires FeeTasksPaid(a) && t < |a.tasks| && t < |b.tasks| && FeeWaits(b, t, i)
    requires b.tasks[t].(attempts := a.tasks[t].attempts) == a.tasks[t]
    ensures FeeWaits(a, t, i)
  {
    hide FeeEntries, Advances;
    FeeEntriesStay(a, b, i, a.tasks[t].payment);
  }

  /** Waiting fee tasks of invoice `i` are old ones, apart from their attempts. */
  predicate OldFeeTasks(a: seq<Task>, b: seq<Task>, i: nat) {
    forall t :: 0 <= t < |b| && b[t].kind == FeeTask && b[t].invoice == Some(i) && b[t].status == Waiting ==>
      t < |a| && b[t].(attempts := a[t].attempts) == a[t]
  }

  lemma FeeCame(a: Db, b: Db, company: nat, i: nat)
    requires FeeComes(b, company, i) && i < |a.invoices| && a.invoices[i].settlement.Some?
    requires FeeTasksPaid(a) && Advances(a, b) && b.policies == a.policies && a.feeRows <= b.feeRows
    requires OldFeeTasks(a.tasks, b.tasks, i)
    ensures FeeComes(a, company, i)
  {
    hide FeeEntries, HasKey;
    var t :| 0 <= t < |b.tasks| && FeeWaits(b, t, i);
    FeeWaitedBefore(a, b, t, i);
    if HasKey(a.feeRows, InvoiceFee(i)) { KeyStays(a.feeRows, b.feeRows, InvoiceFee(i)); }
  }

  lemma NoFeeComes(a: Db, b: Db, company: nat, i: nat)
    requires NoFeeDue(a, company, i) && FeeTasksPaid(a) && Advances(a, b) && b.policies == a.policies
    requires OtherRows(a.feeRows, b.feeRows, company, i) && OldFeeTasks(a.tasks, b.tasks, i)
    ensures NoFeeDue(b, company, i)
  {
    hide FeeOf, FeeComes, FeeTasksPaid, OldFeeTasks;
    OtherRowsKeepFee(a.feeRows, b.feeRows, company, i);
    if FeeComes(b, company, i) { FeeCame(a, b, company, i); }
  }

  lemma ActionKeepsNoFeeDue(db: Db, a: Action, company: nat, i: nat)
    requires Sound(db) && FeeTasksPaid(db) && NoFeeDue(db, company, i)
    ensures NoFeeDue(Apply(db, a), company, i)
  {
    StepIsSafe(db, a);
    PoliciesStay(db, a);
    if a.DoProcess? {
      ProcessSameTasks(db, a.task, a.faults, a.recordFault);
      ProcessOtherRows(db, a.task, a.faults, a.recordFault, company, i);
      ProcessApplied(db, a);
    } else {
      ActionOtherRows(db, a, company, i);
    }
    hide Apply, Sound, Advances, FeeTasksPaid, NoFeeDue, OtherRows;
    NoFeeComes(db, Apply(db, a), company, i);
  }

  /** A payment step pays other invoices than a settled one. */
  lemma ActionOtherRows(db: Db, a: Action, company: nat, i: nat)
    requires !a.DoProcess? && i < |db.invoices| && db.invoices[i].settlement.Some?
    ensures OtherRows(db.feeRows, Apply(db, a).feeRows, company, i)
            && OldFeeTasks(db.tasks, Apply(db, a).tasks, i)
  {
    hide Apply, NoFee, OtherRows, OldFeeTasks, FeeRowFor, FeeTasksFor;
    var j, p := ActionPaysFee(db, a);
    if NoFee(db, Apply(db, a)) { NoFeeIsOther(db, Apply(db, a), company, i); }
    else { PaysOther(db, Apply(db, a), j, p, company, i); }
  }

  lemma NoFeeIsOther(a: Db, b: Db, company: nat, i: nat)
    requires NoFee(a, b)
    ensures OtherRows(a.feeRows, b.feeRows, company, i) && OldFeeTasks(a.tasks, b.tasks, i)
  {
    assert forall t :: 0 <= t < |a.tasks| ==> b.tasks[t] == a.tasks[t];
  }

  lemma PaysOther(a: Db, b: Db, j: nat, p: nat, company: nat, i: nat)
    requires PaysFee(a, b, j, p) && j != i
    ensures OtherRows(a.feeRows, b.feeRows, company, i) && OldFeeTasks(a.tasks, b.tasks, i)
  {
    hide HasKey;
    assert forall t :: 0 <= t < |a.tasks| ==> b.tasks[t] == a.tasks[t];
  }

  lemma ProcessOtherRows(db: Db, t: nat, faults: Faults, recordFault: bool, company: nat, i: nat)
    requires NoFeeDue(db, company, i)
    ensures OtherRows(db.feeRows, ProcessTask(db, t, faults, recordFault).feeRows, company, i)
  {
    hide FeeOf, Retry;
    if t < |db.tasks| && db.tasks[t].status == Waiting {
      RetryOtherRows(db, t, faults, company, i);
    }
  }

  lemma RetryOtherRows(db: Db, t: nat, faults: Faults, company: nat, i: nat)
    requires NoFeeDue(db, company, i) && t < |db.tasks| && db.tasks[t].status == Waiting
    ensures OtherRows(db.feeRows, Retry(db, db.tasks[t], faults).db.feeRows, company, i)
  {
    hide FeeOf, WriteLedger, WriteDirect, DistributeEscrow, CreateEscrow, WriteFee;
    var task := db.tasks[t];
    match task.kind
    case FeeTask =>
      if !LostInvoice(db, task) { FeeWritesOtherRows(db, t, faults, company, i); }
    case LedgerTask =>
      if !LostInvoice(db, task) { OthersNoFee(db, task.invoice.value, task.payment, faults); }
    case DirectTask =>
      if task.payment.Some? { DirectKeepsFees(db, task.payment.value, faults); }
    case EscrowTask =>
      if !LostInvoice(db, task) && task.payment.Some? {
        CreateKeepsFees(db, task.payment.value, task.invoice, faults);
        var created := CreateEscrow(db, task.payment.value, task.invoice, faults);
        if !created.raised { OthersNoFee(created.db, task.invoice.value, task.payment, faults); }
      }
  }

  lemma FeeWritesOtherRows(db: Db, t: nat, faults: Faults, company: nat, i: nat)
    requires NoFeeDue(db, company, i) && t < |db.tasks| && db.tasks[t].status == Waiting
             && db.tasks[t].kind == FeeTask && !LostInvoice(db, db.tasks[t])
    ensures OtherRows(db.feeRows, WriteFee(db, db.tasks[t].invoice.value, db.tasks[t].payment, faults).db.feeRows,
                      company, i)
  {
    var k := db.tasks[t].invoice.value;
    var es := FeeEntries(db, k, db.tasks[t].payment);
    assert es != [] ==> es[0].key == InvoiceFee(k) && es[0].owner == Company(db.invoices[k].company);
    hide FeeOf, FeeEntries, GetBalance, HasKey;
    if k == i && es != [] && db.invoices[i].company == company {
      assert FeeWaits(db, t, i);
      assert HasKey(db.feeRows, es[0].key);
    }
  }

  lemma DirectKeepsFees(db: Db, p: nat, faults: Faults)
    ensures WriteDirect(db, p, faults).db.feeRows == db.feeRows
  {
    hide DirectEntries, Post;
  }

  lemma CreateKeepsFees(db: Db, p: nat, invoice: Option<nat>, faults: Faults)
    ensures var r := CreateEscrow(db, p, invoice, faults).db; r.feeRows == db.feeRows && r.invoices == db.invoices
  {
  }

  lemma StepKeepsNoFeeDue(b: Books, s: Step, company: nat, i: nat)
    requires Orderly(b) && NoFeeDue(b.db, company, i)
    ensures NoFeeDue(Take(b, s).db, company, i)
  {
    hide Reconciled;
    if s.DoPayment? {
      ActionKeepsNoFeeDue(b.db, s.action, company, i);
    } else {
      StepKeepsPayments(b, s);
      DocumentOtherRows(b, s, company, i);
      hide Take, Sound, NoFeeDue, FeeTasksPaid, OtherRows;
      SameAdvances(b.db, Take(b, s).db);
      NoFeeComes(b.db, Take(b, s).db, company, i);
    }
  }

  lemma SameAdvances(a: Db, b: Db)
    requires b.invoices == a.invoices && b.payments == a.payments
    ensures Advances(a, b)
  {
  }

  lemma DocumentOtherRows(b: Books, s: Step, company: nat, i: nat)
    requires !s.DoPayment?
    ensures OtherRows(b.db.feeRows, Take(b, s).db.feeRows, company, i)
  {
    hide FeeOf, WageReversalOf, MayFind, Executable, GetBalance, HasKey, Blank;
  }

  lemma {:induction false} RunKeepsNoFeeDue(b: Books, steps: seq<Step>, company: nat, i: nat)
    requires Orderly(b) && NoFeeDue(b.db, company, i)
    ensures NoFeeDue(TakeAll(b, steps).db, company, i)
    decreases |steps|
  {
    if steps != [] {
      hide Orderly, Take, NoFeeDue;
      StepIsOrderly(b, steps[0]);
      StepKeepsNoFeeDue(b, steps[0], company, i);
      RunKeepsNoFeeDue(Take(b, steps[0]), steps[1..], company, i);
    }
  }

  /** No later run leaves the company charged for the invoice. */
  ghost predicate NeverCharged(b: Books, company: nat, invoice: nat) {
    forall steps :: NetFee(TakeAll(b, steps), company, invoice) <= 0
  }

  lemma Charged(b: Books, steps: seq<Step>, company: nat, invoice: nat)
    requires 0 < NetFee(TakeAll(b, steps), company, invoice)
    ensures !NeverCharged(b, company, invoice)
  {
    hide TakeAll, NetFee;
  }

  /** A refund while the invoice's fee is queued, then the retry: the whole fee is charged
      for the refunded invoice. */
  lemma QueuedFeeOutlivesRefund(b: Books, d: nat, found: Option<nat>, split: bool, t: nat)
    requires Reconciled(b) && Executable(b, d, found, split)
    requires MayFind(b.db, found, b.documents[d].company, b.documents[d].invoice)
    requires var i := b.documents[d].invoice;
             && i < |b.db.invoices| && b.documents[d].company == b.db.invoices[i].company
             && !HasKey(b.db.feeRows, InvoiceFee(i)) && t < |b.db.tasks| && FeeWaits(b.db, t, i)
    ensures var i, after := b.documents[d].invoice, Execute(b, d, found, split, false);
            var later := Take(after, DoPayment(DoProcess(t, NO_FAULTS, false)));
            later.documents[d].status == Applied && NetFee(later, b.documents[d].company, i) == Commission(b.db, i) > 0
  {
    var company, i := b.documents[d].company, b.documents[d].invoice;
    var after := Execute(b, d, found, split, false);
    hide FeeOf, Reconciled, Executable, Reverse, MayFind, FeeReversed, GetBalance, HasKey, ProcessTask, FeeEntries,
      Commission, Execute, Take;
    ExecutableIs(b, d, found, split);
    ExecuteLands(b, d, found, split);
    ProcessTaken(after, t);
    NoFeeYet(b.db.feeRows, company, i);
    NothingReversed(b, d, found);
    FeeRetried(b.db, after.db, t, i);
    ExecuteReconciles(b, d, found);
    UnrecordedIsUnreversed(after, company, i);
  }

  /** What has no recorded fee had none reversed. */
  lemma UnrecordedIsUnreversed(b: Books, company: nat, i: nat)
    requires Reconciled(b) && FeeOf(b.db.feeRows, company, i) == None
    ensures FeeReversed(b.documents, company, i) == 0
  {
    NetFeeIs(b, company, i);
    hide Reconciled, FeeOf, FeeReversed;
  }

  lemma NothingCharged(b: Books, d: nat, found: Option<nat>, split: bool, steps: seq<Step>)
    requires Orderly(b) && Executable(b, d, found, split)
    requires MayFind(b.db, found, b.documents[d].company, b.documents[d].invoice)
    requires !FeeComes(b.db, b.documents[d].company, b.documents[d].invoice)
    ensures NetFee(TakeAll(Execute(b, d, found, split, false), steps), b.documents[d].company, b.documents[d].invoice)
            <= 0
  {
    var company, i := b.documents[d].company, b.documents[d].invoice;
    var landed := Execute(b, d, found, split, false);
    var later := TakeAll(landed, steps);
    ExecutableIs(b, d, found, split);
    ExecuteLands(b, d, found, split);
    ExecuteReconciles(b, d, found);
    EveryRunReconciles(landed, steps);
    NetFeeIs(later, company, i);
    if FeeOf(b.db.feeRows, company, i).Some? {
      FeeEntryIs(b, d, found);
      RefundIsFinal(b, d, found, split, steps);
      hide Reconciled, Executable, Execute, Reverse, TakeAll, FeeOf, FeeReversals, MayFind, NetFee;
      CountOf(later.documents, d, company, i);
    } else {
      assert NoFeeDue(b.db, company, i);
      ExecuteTaken(b, d, found, split);
      StepIsOrderly(b, DoExecute(d, found, split, false));
      StepKeepsNoFeeDue(b, DoExecute(d, found, split, false), company, i);
      hide Orderly, Executable, Execute, Reverse, TakeAll, FeeOf, FeeReversals, MayFind, NetFee, FeeComes, Take;
      RunKeepsNoFeeDue(landed, steps, company, i);
    }
  }

  lemma ExecuteTaken(b: Books, d: nat, found: Option<nat>, split: bool)
    ensures Take(b, DoExecute(d, found, split, false)) == Execute(b, d, found, split, false)
  {
    hide Execute;
  }

  /** Exactly when a refunded invoice is never charged a fee again, whatever happens later:
      when no fee of it waits to be retried at the time of the refund. */
  lemma NeverChargedIff(b: Books, d: nat, found: Option<nat>, split: bool)
    requires Orderly(b) && Executable(b, d, found, split)
    requires MayFind(b.db, found, b.documents[d].company, b.documents[d].invoice)
    ensures var company, invoice := b.documents[d].company, b.documents[d].invoice;
            NeverCharged(Execute(b, d, found, split, false), company, invoice) <==> !FeeComes(b.db, company, invoice)
  {
    hide Reconciled, Executable, Execute, MayFind, Sound, FeeTasksPaid, DocumentsOfPaid, TakeAll, NetFee, FeeWaits,
      HasKey, Take, Commission;
    ExecutableIs(b, d, found, split);
    var company, i := b.documents[d].company, b.documents[d].invoice;
    var landed := Execute(b, d, found, split, false);
    if FeeComes(b.db, company, i) {
      var t :| 0 <= t < |b.db.tasks| && FeeWaits(b.db, t, i);
      var retry := DoPayment(DoProcess(t, NO_FAULTS, false));
      QueuedFeeOutlivesRefund(b, d, found, split, t);
      TakeOne(landed, retry);
      Charged(landed, [retry], company, i);
    } else {
      forall steps
        ensures NetFee(TakeAll(landed, steps), company, i) <= 0
      {
        NothingCharged(b, d, found, split, steps);
      }
    }
  }

  lemma TakeOne(b: Books, s: Step)
    ensures TakeAll(b, [s]) == Take(b, s)
  {
    hide Take;
    assert [s] == [s] + [];
    TakeFirst(b, s, []);
  }

  // ------------------------------------------------------ A queued escrow record

  /** Retrying the escrow of payment `q` for invoice `i` ends in a distributed record: it is
      one already, or it can be created or reserved, and its split fits. */
  predicate Distributes(db: Db, q: nat, i: nat)
    requires i < |db.invoices|
  {
    if q in db.escrows then
      var r := db.escrows[q];
      r.status == Distributed || (r.status in {Held, Reserved} && SplitFits(db, i, r.amount))
    else q < |db.payments| && db.payments[q].ThroughPlatform() && SplitFits(db, i, db.payments[q].amount)
  }

  /** Commission and wage are no more than the amount held. */
  predicate SplitFits(db: Db, i: nat, amount: int)
    requires i < |db.invoices|
  {
    0 <= Wage(db.invoices[i]) && Commission(db, i) + Wage(db.invoices[i]) <= amount
  }

  /** A refund while an escrow record of the invoice is queued, then the retry: the record
      is distributed for the refunded invoice, exactly when it would have been without the
      refund and is not the one the refund closed. */
  lemma QueuedEscrowOutlivesRefundIff(b: Books, d: nat, found: Option<nat>, split: bool, t: nat, q: nat)
    requires Executable(b, d, found, split)
    requires MayFind(b.db, found, b.documents[d].company, b.documents[d].invoice)
    requires t < |b.db.tasks| && b.db.tasks[t].kind == EscrowTask && b.db.tasks[t].status == Waiting
             && b.db.tasks[t].payment == Some(q)
             && b.db.tasks[t].invoice == Some(b.documents[d].invoice) && b.documents[d].invoice < |b.db.invoices|
    ensures var later := Take(Execute(b, d, found, split, false), DoPayment(DoProcess(t, NO_FAULTS, false)));
            && later.documents[d].status == Applied
            && (q in later.db.escrows && later.db.escrows[q].status == Distributed
                <==> found != Some(q) && Distributes(b.db, q, b.documents[d].invoice))
  {
    var i, after := b.documents[d].invoice, Execute(b, d, found, split, false);
    ExecutableIs(b, d, found, split);
    ExecuteLands(b, d, found, split);
    EscrowsAfter(b, d, found, split);
    hide Executable, Execute, Reverse, MayFind, Take, ProcessTask, Distributes;
    ProcessTaken(after, t);
    EscrowRetried(after.db, t, q, i);
    SameDistributes(b.db, after.db, q, i, found);
  }

  /** What an execution leaves for a retry to read. */
  lemma EscrowsAfter(b: Books, d: nat, found: Option<nat>, split: bool)
    requires Executable(b, d, found, split)
    ensures var after := Reverse(b, d, found);
            && after.db == b.db.(feeRows := after.db.feeRows, technicianRows := after.db.technicianRows,
                 escrows := after.db.escrows)
            && after.db.escrows.Keys == b.db.escrows.Keys && |after.documents| == |b.documents|
            && after.documents[d].status == Applied
            && Concerns(after.documents[d], b.documents[d].company, b.documents[d].invoice)
            && forall p :: p in b.db.escrows ==>
                 after.db.escrows[p] == if found == Some(p) then b.db.escrows[p].(status := Closed) else b.db.escrows[p]
  {
    hide FeeReversalOf, WageReversalOf, PostReversal, Referred;
  }

  lemma SameDistributes(a: Db, b: Db, q: nat, i: nat, found: Option<nat>)
    requires b == a.(feeRows := b.feeRows, technicianRows := b.technicianRows, escrows := b.escrows)
    requires b.escrows.Keys == a.escrows.Keys && i < |a.invoices| && (found.Some? ==> found.value in a.escrows)
    requires forall p :: p in a.escrows ==>
               b.escrows[p] == if found == Some(p) then a.escrows[p].(status := Closed) else a.escrows[p]
    ensures Distributes(b, q, i) <==> found != Some(q) && Distributes(a, q, i)
  {
    hide Wage, PlatformFee;
    assert SplitFits(b, i, 0) == SplitFits(a, i, 0);
  }

  /** The retried escrow of payment `q`. */
  lemma EscrowRetried(db: Db, t: nat, q: nat, i: nat)
    requires t < |db.tasks| && db.tasks[t].kind == EscrowTask && db.tasks[t].status == Waiting
             && db.tasks[t].payment == Some(q) && db.tasks[t].invoice == Some(i) && i < |db.invoices|
    ensures var end := ProcessTask(db, t, NO_FAULTS, false);
            q in end.escrows && end.escrows[q].status == Distributed <==> Distributes(db, q, i)
  {
    hide Wage, PlatformFee;
  }
}
