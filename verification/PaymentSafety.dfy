/** What every run of the payment flow keeps, whatever the interleaving of its steps. */
module PaymentSafety {
  import opened Options
  import opened PaymentFlow
  import Escrows
  import Ledgers
  import opened WageSplit
  import opened EscrowAgreement

  predicate Final(status: PaymentStatus) {
    status in {Paid, FailedPayment, CancelledPayment, NeedsReconciliation}
  }

  /** An invoice is paid exactly when its settlement is frozen, and an online payment was
      paid while it could still be verified. */
  predicate Sound(db: Db) {
    && (forall i :: 0 <= i < |db.invoices| ==>
          (db.invoices[i].status == InvoicePaid <==> db.invoices[i].settlement.Some?))
    && (forall p :: 0 <= p < |db.payments| && db.payments[p].gateway.Some? && db.payments[p].status == Paid ==>
          db.payments[p].paidAt.Some? && db.payments[p].paidAt.value <= db.payments[p].createdAt + EXPIRATION)
  }

  /** Nothing final changes: payments in a final status and settled invoices are the same
      rows before and after, and no row disappears. */
  predicate Advances(before: Db, after: Db) {
    && |before.payments| <= |after.payments|
    && |before.invoices| <= |after.invoices|
    && (forall p :: 0 <= p < |before.payments| && Final(before.payments[p].status) ==>
          after.payments[p] == before.payments[p])
    && (forall i :: 0 <= i < |before.invoices| && before.invoices[i].settlement.Some? ==>
          after.invoices[i] == before.invoices[i])
  }

  /** The writes after a payment touch neither invoices nor payments. */
  lemma PostPaidTouchesNoInvoice(settled: Db, i: nat, p: Option<nat>, faults: Faults)
    requires i < |settled.invoices|
    ensures var end := PostPaid(settled, i, p, faults);
            && end.ties == settled.ties && end.policies == settled.policies
            && end.invoices == settled.invoices && end.payments == settled.payments
  {
    hide DistributeEscrow, WriteLedger, WriteFee, CreateTask;
  }

  lemma PostDirectTouchesNoInvoice(db: Db, p: nat, faults: Faults)
    ensures var end := PostDirect(db, p, faults);
            && end.ties == db.ties && end.policies == db.policies
            && end.invoices == db.invoices && end.payments == db.payments
  {
    hide DirectEntries;
  }

  lemma MarkPaidSettlesOne(db: Db, i: nat, p: Option<nat>, means: string, reference: string, now: int, faults: Faults)
    requires CanBePaid(db, i, p)
    ensures var end := MarkPaid(db, i, p, means, reference, now, faults);
            && end.payments == db.payments
            && |end.invoices| == |db.invoices|
            && end.invoices[i].status == InvoicePaid && end.invoices[i].settlement.Some?
            && forall j :: 0 <= j < |db.invoices| && j != i ==> end.invoices[j] == db.invoices[j]
  {
    hide PostPaid, CalculateSplit, MethodOf, ReferenceOf;
    PostPaidTouchesNoInvoice(Settle(db, i, p, means, reference, now), i, p, faults);
  }

  lemma AcceptPaymentSafe(db: Db, p: nat, tracking: string, now: int, faults: Faults)
    requires p < |db.payments|
    ensures var end := AcceptPayment(db, p, tracking, now, faults);
            && end.ties == db.ties && end.policies == db.policies && end.invoices == db.invoices
            && end.payments == db.payments[p := db.payments[p].(status := Paid, tracking := tracking,
                 paidAt := Some(now))]
  {
  }

  /** What a confirmed verification does to payments and invoices: nothing at all when it is
      undone, otherwise the payment is paid and at most its invoice settled. */
  lemma VerifiedIs(db: Db, p: nat, response: VerifyResponse, now: int, faults: Faults)
    requires Verified(db, p, response, now)
    ensures var end := Verify(db, p, response, now, faults);
            || end == db
            || (&& end.payments == db.payments[p := db.payments[p].(status := Paid, tracking := response.tracking,
                 paidAt := Some(now))]
                && |end.invoices| == |db.invoices|
                && forall j :: 0 <= j < |db.invoices| ==>
                     end.invoices[j] == db.invoices[j]
                     || (db.payments[p].invoice == Some(j) && db.invoices[j].settlement.None?
                         && end.invoices[j].status == InvoicePaid && end.invoices[j].settlement.Some?))
  {
    hide MarkPaid, AcceptPayment, PostDirect;
    AcceptPaymentSafe(db, p, response.tracking, now, faults);
    var accepted := AcceptPayment(db, p, response.tracking, now, faults);
    if InvoiceIssued(db, p) {
      var i := db.payments[p].invoice.value;
      if CanBePaid(accepted, i, Some(p)) {
        MarkPaidSettlesOne(accepted, i, Some(p), "", "", now, faults);
        PostDirectTouchesNoInvoice(MarkPaid(accepted, i, Some(p), "", "", now, faults), p, faults);
      }
    } else {
      PostDirectTouchesNoInvoice(accepted, p, faults);
    }
  }

  lemma VerifySafe(db: Db, p: nat, response: VerifyResponse, now: int, faults: Faults)
    requires Sound(db)
    ensures var end := Verify(db, p, response, now, faults);
            && Sound(end) && Advances(db, end)
            && |end.payments| == |db.payments|
            && (forall q :: 0 <= q < |db.payments| && q != p ==> end.payments[q] == db.payments[q])
            && (p < |db.payments| && end.payments[p].status == Paid && db.payments[p].status != Paid ==>
                  Verified(db, p, response, now))
  {
    hide MarkPaid, AcceptPayment, PostDirect, CanBePaid;
    if Verified(db, p, response, now) {
      VerifiedIs(db, p, response, now, faults);
      hide Verify, Verified;
    }
  }

  lemma CashSafe(db: Db, i: nat, payment: Payment, means: string, reference: string, now: int, faults: Faults)
    requires Sound(db) && payment.gateway.None?
    requires var received := db.(payments := db.payments + [payment]);
             CanBePaid(received, i, Some(|db.payments|))
    ensures var received := db.(payments := db.payments + [payment]);
            var end := MarkPaid(received, i, Some(|db.payments|), means, reference, now, faults);
            Sound(end) && Advances(db, end) && end.payments == received.payments
  {
    hide MarkPaid;
    var received := db.(payments := db.payments + [payment]);
    MarkPaidSettlesOne(received, i, Some(|db.payments|), means, reference, now, faults);
  }

  lemma TechnicianCashSafe(db: Db, i: nat, reference: string, now: int, faults: Faults)
    requires Sound(db)
    ensures var end := TechnicianCash(db, i, reference, now, faults);
            && Sound(end) && Advances(db, end)
            && forall q :: 0 <= q < |db.payments| && end.payments[q].status == Paid ==> db.payments[q].status == Paid
  {
    hide MarkPaid;
    if i < |db.invoices| {
      var payment := CashPayment(db, i, reference, true, now, Some(now));
      var received := db.(payments := db.payments + [payment]);
      if CanBePaid(received, i, Some(|db.payments|)) {
        CashSafe(db, i, payment, "cash", reference, now, faults);
      }
    }
  }

  lemma AdminCashSafe(db: Db, i: nat, byTechnician: bool, now: int, faults: Faults)
    requires Sound(db)
    ensures var end := AdminCash(db, i, byTechnician, now, faults);
            && Sound(end) && Advances(db, end)
            && forall q :: 0 <= q < |db.payments| ==> end.payments[q] == db.payments[q]
  {
    if i < |db.invoices| {
      var payment := CashPayment(db, i, "", byTechnician, now, None);
      var received := db.(payments := db.payments + [payment]);
      if CanBePaid(received, i, Some(|db.payments|)) {
        CashSafe(db, i, payment, "cash", "", now, faults);
      }
    }
  }

  lemma RetryTouchesNoInvoice(db: Db, task: Task, faults: Faults)
    ensures var end := Retry(db, task, faults).db;
            && end.ties == db.ties && end.policies == db.policies
            && end.invoices == db.invoices && end.payments == db.payments
  {
  }

  /** A retry neither reads nor writes the task table. */
  lemma RetryIgnoresTasks(db: Db, tasks: seq<Task>, task: Task, attempts: nat, faults: Faults)
    ensures var r := Retry(db, task, faults);
            Retry(db.(tasks := tasks), task.(attempts := attempts), faults) == Attempt(r.db.(tasks := tasks), r.raised)
    ensures Retry(db, task, faults).db.tasks == db.tasks
  {
    hide WriteLedger, WriteFee, WriteDirect, DistributeEscrow, CreateEscrow;
    match task.kind
    case DirectTask => if task.payment.Some? { DirectIgnoresTasks(db, tasks, task.payment.value, faults); }
    case LedgerTask =>
      if !LostInvoice(db, task) { LedgerIgnoresTasks(db, tasks, task.invoice.value, task.payment, faults); }
    case FeeTask =>
      if !LostInvoice(db, task) { FeeIgnoresTasks(db, tasks, task.invoice.value, task.payment, faults); }
    case EscrowTask =>
      if !LostInvoice(db, task) && task.payment.Some? {
        CreateIgnoresTasks(db, tasks, task.payment.value, task.invoice, faults);
        var created := CreateEscrow(db, task.payment.value, task.invoice, faults);
        if !created.raised { EscrowIgnoresTasks(created.db, tasks, task.invoice.value, task.payment, faults); }
      }
  }

  lemma DirectIgnoresTasks(db: Db, tasks: seq<Task>, p: nat, faults: Faults)
    ensures var r := WriteDirect(db, p, faults);
            WriteDirect(db.(tasks := tasks), p, faults) == Attempt(r.db.(tasks := tasks), r.raised)
                && r.db.tasks == db.tasks
  {
    assert DirectEntries(db.(tasks := tasks), p) == DirectEntries(db, p);
    hide DirectEntries, Ledgers.Post;
  }

  lemma CreateIgnoresTasks(db: Db, tasks: seq<Task>, p: nat, invoice: Option<nat>, faults: Faults)
    ensures var r := CreateEscrow(db, p, invoice, faults);
            && CreateEscrow(db.(tasks := tasks), p, invoice, faults) == Attempt(r.db.(tasks := tasks), r.raised)
            && r.db.tasks == db.tasks && r.db.invoices == db.invoices
  {
  }

  lemma LedgerIgnoresTasks(db: Db, tasks: seq<Task>, i: nat, p: Option<nat>, faults: Faults)
    requires i < |db.invoices|
    ensures var r := WriteLedger(db, i, p, faults);
            WriteLedger(db.(tasks := tasks), i, p, faults) == Attempt(r.db.(tasks := tasks), r.raised)
                && r.db.tasks == db.tasks
  {
    assert Facts(db.(tasks := tasks), i, p) == Facts(db, i, p);
    hide Facts, Ledgers.InvoiceEntries, Ledgers.Post;
  }

  lemma FeeIgnoresTasks(db: Db, tasks: seq<Task>, i: nat, p: Option<nat>, faults: Faults)
    requires i < |db.invoices|
    ensures var r := WriteFee(db, i, p, faults);
            WriteFee(db.(tasks := tasks), i, p, faults) == Attempt(r.db.(tasks := tasks), r.raised)
                && r.db.tasks == db.tasks
  {
    assert FeeEntries(db.(tasks := tasks), i, p) == FeeEntries(db, i, p);
    hide FeeEntries, Ledgers.Post;
  }

  lemma EscrowIgnoresTasks(db: Db, tasks: seq<Task>, i: nat, p: Option<nat>, faults: Faults)
    requires i < |db.invoices|
    ensures var r := DistributeEscrow(db, i, p, faults);
            DistributeEscrow(db.(tasks := tasks), i, p, faults) == Attempt(r.db.(tasks := tasks), r.raised)
                && r.db.tasks == db.tasks
  {
    assert Commission(db.(tasks := tasks), i) == Commission(db, i);
    hide Commission, Escrows.ReserveAndDistributeIn;
  }

  /** Every step of the flow, whoever takes it and whichever writes fail. */
  lemma StepIsSafe(db: Db, a: Action)
    requires Sound(db)
    ensures Sound(Apply(db, a)) && Advances(db, Apply(db, a))
  {
    hide Sound, Advances, Verify, TechnicianCash, AdminCash, Retry;
    if InvoiceAction(a) {
      InvoiceActionSafe(db, a);
    } else {
      SelfAdvances(db);
      match a
      case DoCallback(company, reference, response, now, faults) =>
        var found := FindByReference(db.payments, company, reference, |db.payments|);
        if found.Some? { VerifySafe(db, found.value, response, now, faults); }
      case DoTechnicianCash(i, reference, now, faults) => TechnicianCashSafe(db, i, reference, now, faults);
      case DoAdminCash(i, byTechnician, now, faults) => AdminCashSafe(db, i, byTechnician, now, faults);
      case DoProcess(t, faults, recordFault) => ProcessSafe(db, t, faults, recordFault);
    }
  }

  predicate InvoiceAction(a: Action) {
    !a.DoCallback? && !a.DoTechnicianCash? && !a.DoAdminCash? && !a.DoProcess?
  }

  lemma InvoiceActionSafe(db: Db, a: Action)
    requires Sound(db) && InvoiceAction(a)
    ensures Sound(Apply(db, a)) && Advances(db, Apply(db, a))
  {
    hide Callback, TechnicianCash, AdminCash, ProcessTask, InvoiceTotal, Total100;
  }

  lemma SelfAdvances(db: Db)
    ensures Advances(db, db)
  {
  }

  lemma ProcessSafe(db: Db, t: nat, faults: Faults, recordFault: bool)
    requires Sound(db)
    ensures Sound(ProcessTask(db, t, faults, recordFault)) && Advances(db, ProcessTask(db, t, faults, recordFault))
  {
    if t < |db.tasks| { RetryTouchesNoInvoice(db, db.tasks[t], faults); }
    hide Retry;
  }

  /** Over any run: paid, failed, cancelled and unreconciled payments never change again,
      a settled invoice never changes again and so is settled at most once, and an invoice
      is paid exactly when it is settled. */
  lemma {:induction false} EveryRunIsSafe(db: Db, actions: seq<Action>)
    requires Sound(db)
    ensures Sound(Run(db, actions)) && Advances(db, Run(db, actions))
    decreases |actions|
  {
    if actions != [] {
      StepIsSafe(db, actions[0]);
      EveryRunIsSafe(Apply(db, actions[0]), actions[1..]);
    }
  }

  /** An existing payment becomes paid in one way only: a callback for it, in time, that
      the provider approves without reporting another amount. Expired and tampered payments
      therefore never become paid. */
  lemma PaidOnlyWhenVerified(db: Db, a: Action, p: nat)
    requires Sound(db)
    requires p < |db.payments| && db.payments[p].status != Paid
    requires p < |Apply(db, a).payments| && Apply(db, a).payments[p].status == Paid
    ensures a.DoCallback? && Verified(db, p, a.response, a.now)
    ensures db.payments[p].company == a.company && db.payments[p].reference == a.reference && !Blank(a.reference)
  {
    hide Sound, Advances, Verify, Verified, TechnicianCash, AdminCash, Retry, FindByReference, Blank, InvoiceTotal,
      Total100;
    match a
    case DoCallback(company, reference, response, now, faults) =>
      var found := FindByReference(db.payments, company, reference, |db.payments|);
      FoundHasReference(db.payments, company, reference, |db.payments|);
      if found.Some? { VerifySafe(db, found.value, response, now, faults); }
    case DoTechnicianCash(i, reference, now, faults) => TechnicianCashSafe(db, i, reference, now, faults);
    case DoAdminCash(i, byTechnician, now, faults) => AdminCashSafe(db, i, byTechnician, now, faults);
    case DoProcess(t, faults, recordFault) =>
      if t < |db.tasks| { RetryTouchesNoInvoice(db, db.tasks[t], faults); }
    case _ =>
  }

  /** A technician's cash receipt pays the invoice and leaves none of its payments
      unfinished, and changes no payment that was finished. */
  lemma TechnicianCashClosesPayments(db: Db, i: nat, reference: string, now: int, faults: Faults)
    requires TechnicianCash(db, i, reference, now, faults) != db
    ensures var end := TechnicianCash(db, i, reference, now, faults);
            && i < |db.invoices| == |end.invoices| && end.invoices[i].status == InvoicePaid
            && |end.payments| == |db.payments| + 1
            && end.payments[|db.payments|].status == Paid && end.payments[|db.payments|].amount == db.invoices[i].total
            && forall q :: 0 <= q < |db.payments| ==>
                 var mine := db.payments[q].invoice == Some(i) && db.payments[q].company == db.invoices[i].company;
                 && (mine ==> end.payments[q].status !in {Initiated, Pending})
                 && (!mine || db.payments[q].status !in {Initiated, Pending} ==> end.payments[q] == db.payments[q])
  {
    hide MarkPaid;
    var payment := CashPayment(db, i, reference, true, now, Some(now));
    MarkPaidSettlesOne(db.(payments := db.payments + [payment]), i, Some(|db.payments|), "cash", reference, now,
        faults);
  }

  /** A callback is answered by the newest payment of the company with its reference. */
  lemma {:induction false} FoundHasReference(payments: seq<Payment>, company: nat, reference: string, n: nat)
    requires n <= |payments|
    ensures match FindByReference(payments, company, reference, n)
            case Some(p) =>
              && p < n && payments[p].company == company && payments[p].reference == reference
              && forall q :: p < q < n ==> !(payments[q].company == company && payments[q].reference == reference)
            case None => forall q :: 0 <= q < n ==>
                !(payments[q].company == company && payments[q].reference == reference)
  {
    if n != 0 { FoundHasReference(payments, company, reference, n - 1); }
  }

  /** A replayed callback is a no-op: after the first one the payment is no longer pending,
      or the verification was undone and left no trace. */
  lemma ReplayedCallbackIsNoOp(db: Db, company: nat, reference: string, response: VerifyResponse, now: int,
      faults: Faults)
    requires Sound(db)
    ensures var once := Callback(db, company, reference, response, now, faults);
            forall later: int, again: Faults, other: VerifyResponse ::
              once != db ==> Callback(once, company, reference, other, later, again) == once
  {
    var once := Callback(db, company, reference, response, now, faults);
    var found := FindByReference(db.payments, company, reference, |db.payments|);
    if once != db {
      var p := found.value;
      VerifySafe(db, p, response, now, faults);
      FoundHasReference(db.payments, company, reference, |db.payments|);
      VerifyDecides(db, p, response, now, faults);
      SameReferences(db.payments, once.payments, company, reference, |db.payments|);
    }
  }

  lemma VerifyDecides(db: Db, p: nat, response: VerifyResponse, now: int, faults: Faults)
    requires p < |db.payments|
    ensures var end := Verify(db, p, response, now, faults);
            && p < |end.payments|
            && (end != db ==> end.payments[p].status != Pending)
            && end.payments[p].company == db.payments[p].company
            && end.payments[p].reference == db.payments[p].reference
  {
    hide MarkPaid, AcceptPayment, PostDirect, CanBePaid;
    if Verified(db, p, response, now) {
      VerifiedIs(db, p, response, now, faults);
      hide Verify, Verified;
    }
  }

  lemma {:induction false} SameReferences(a: seq<Payment>, b: seq<Payment>, company: nat, reference: string, n: nat)
    requires n <= |a| && n <= |b|
    requires forall q :: 0 <= q < n ==> a[q].company == b[q].company && a[q].reference == b[q].reference
    ensures FindByReference(a, company, reference, n) == FindByReference(b, company, reference, n)
  {
    if n != 0 { SameReferences(a, b, company, reference, n - 1); }
  }

  // ------------------------------------------------------------------ Invoice totals

  /** Every invoice's total is that of its rows, tax and discounts. */
  predicate TotalsFit(db: Db) {
    forall i :: 0 <= i < |db.invoices| ==> db.invoices[i].total == InvoiceTotal(db.ties, db.invoices[i].bill)
  }

  /** Payments, receipts and retries change no bill and no total. */
  predicate SameBills(before: Db, after: Db) {
    && after.ties == before.ties && after.policies == before.policies && |after.invoices| == |before.invoices|
    && forall i :: 0 <= i < |before.invoices| ==>
         after.invoices[i].bill == before.invoices[i].bill && after.invoices[i].total == before.invoices[i].total
  }

  lemma MarkPaidKeepsBills(db: Db, i: nat, p: Option<nat>, means: string, reference: string, now: int, faults: Faults)
    requires CanBePaid(db, i, p)
    ensures SameBills(db, MarkPaid(db, i, p, means, reference, now, faults))
  {
    hide PostPaid, CalculateSplit, MethodOf, ReferenceOf;
    PostPaidTouchesNoInvoice(Settle(db, i, p, means, reference, now), i, p, faults);
  }

  lemma VerifyKeepsBills(db: Db, p: nat, response: VerifyResponse, now: int, faults: Faults)
    ensures SameBills(db, Verify(db, p, response, now, faults))
  {
    hide MarkPaid, AcceptPayment, PostDirect;
    if Verified(db, p, response, now) {
      AcceptPaymentSafe(db, p, response.tracking, now, faults);
      var accepted := AcceptPayment(db, p, response.tracking, now, faults);
      if InvoiceIssued(db, p) {
        var i := db.payments[p].invoice.value;
        if CanBePaid(accepted, i, Some(p)) {
          MarkPaidKeepsBills(accepted, i, Some(p), "", "", now, faults);
          PostDirectTouchesNoInvoice(MarkPaid(accepted, i, Some(p), "", "", now, faults), p, faults);
        }
      } else {
        PostDirectTouchesNoInvoice(accepted, p, faults);
      }
    }
  }

  lemma CashKeepsBills(db: Db, i: nat, payment: Payment, reference: string, now: int, faults: Faults)
    ensures var received, p := db.(payments := db.payments + [payment]), Some(|db.payments|);
            CanBePaid(received, i, p) ==> SameBills(db, MarkPaid(received, i, p, "cash", reference, now, faults))
  {
    hide MarkPaid;
    var received, p := db.(payments := db.payments + [payment]), Some(|db.payments|);
    if CanBePaid(received, i, p) { MarkPaidKeepsBills(received, i, p, "cash", reference, now, faults); }
  }

  lemma PaymentStepKeepsBills(db: Db, a: Action)
    requires !InvoiceAction(a)
    ensures SameBills(db, Apply(db, a))
  {
    hide MarkPaid, Verify, Retry;
    match a
    case DoCallback(company, reference, response, now, faults) =>
      var found := FindByReference(db.payments, company, reference, |db.payments|);
      if found.Some? { VerifyKeepsBills(db, found.value, response, now, faults); }
    case DoTechnicianCash(i, reference, now, faults) =>
      if i < |db.invoices| {
        CashKeepsBills(db, i, CashPayment(db, i, reference, true, now, Some(now)), reference, now, faults);
      }
    case DoAdminCash(i, byTechnician, now, faults) =>
      if i < |db.invoices| { CashKeepsBills(db, i, CashPayment(db, i, "", byTechnician, now, None), "", now, faults); }
    case DoProcess(t, faults, recordFault) =>
      if t < |db.tasks| { RetryTouchesNoInvoice(db, db.tasks[t], faults); }
  }

  /** No step changes a company's policies. */
  lemma PoliciesStay(db: Db, a: Action)
    ensures Apply(db, a).policies == db.policies
  {
    hide Callback, TechnicianCash, AdminCash, ProcessTask, InvoiceTotal, Total100;
    if !InvoiceAction(a) { PaymentStepKeepsBills(db, a); }
  }

  lemma InvoiceStepKeepsTotals(db: Db, a: Action)
    requires InvoiceAction(a) && TotalsFit(db)
    ensures TotalsFit(Apply(db, a))
  {
    hide InvoiceTotal, Total100;
    forall bill: Bill, percents: Percents
      ensures InvoiceTotal(db.ties, bill.(percents := percents)) == InvoiceTotal(db.ties, bill)
    {
      TotalIgnoresPercents(db.ties, bill, percents);
    }
  }

  lemma TotalIgnoresPercents(ties: Ties, bill: Bill, percents: Percents)
    ensures InvoiceTotal(ties, bill.(percents := percents)) == InvoiceTotal(ties, bill)
  {
  }

  /** Over every run, invoices created, edited, issued, discounted, paid or cancelled: each
      total is the one its bill recalculates to. */
  lemma {:induction false} EveryRunKeepsTotals(db: Db, actions: seq<Action>)
    requires TotalsFit(db)
    ensures TotalsFit(Run(db, actions))
    decreases |actions|
  {
    if actions != [] {
      var a := actions[0];
      if InvoiceAction(a) {
        InvoiceStepKeepsTotals(db, a);
      } else {
        PaymentStepKeepsBills(db, a);
      }
      hide Apply, InvoiceTotal;
      EveryRunKeepsTotals(Apply(db, a), actions[1..]);
    }
  }

  /** The life of one invoice, step by step: a draft takes new rows; it is issued when it has
      something to pay, with the percentages in force unless some were already taken over;
      then only discounts change it; and cancelling keeps everything else. */
  lemma InvoiceSteps(db: Db, i: nat, rows: seq<Item>, tax: int, extra: int, current: Percents, amount: int)
    requires i < |db.invoices| && TotalsFit(db)
    ensures var was, next := db.invoices[i], UpdateDraft(db, i, rows, tax, extra).invoices[i];
            if was.status != Draft then next == was
            else next.status == Draft && next.bill.rows == rows && next.bill.percents == was.bill.percents
                 && next.bill.tax == tax && next.bill.extra == extra && next.bill.campaign == was.bill.campaign
                 && next.total == InvoiceTotal(db.ties, next.bill)
    ensures var was, next := db.invoices[i], IssueInvoice(db, i, current).invoices[i];
            if was.status != Draft || Total100(was.bill) == 0 then next == was
            else next.status == Issued && next.total == was.total && next.bill.rows == was.bill.rows
                 && next.bill.tax == was.bill.tax && next.bill.extra == was.bill.extra
                 && next.bill.campaign == was.bill.campaign
                 && next.bill.percents
                      == (if was.bill.percents == Percents(0, 0, 0) && was.technician.Some? then current
                          else was.bill.percents)
    ensures var was, next := db.invoices[i], DiscountInvoice(db, i, amount).invoices[i];
            if was.status != Issued || was.total == 0 || amount <= 0 then next == was
            else next.status == Issued && next.total <= was.total && next.bill.percents == was.bill.percents
                 && next.bill.rows == was.bill.rows && next.bill.tax == was.bill.tax
                      && next.bill.extra == was.bill.extra
                 && next.bill.campaign == was.bill.campaign + amount
    ensures var was, next := db.invoices[i], CancelInvoice(db, i).invoices[i];
            next == if was.status in {Draft, Issued} then was.(status := InvoiceCancelled) else was
  {
    TotalIgnoresPercents(db.ties, db.invoices[i].bill, current);
    if 0 < amount { DiscountLowersTotal(db.ties, db.invoices[i].bill, amount); }
    hide InvoiceTotal;
  }

  /** A new invoice is a draft of the submitted rows, tax and discount, with nothing else taken
      off and no percentages yet; it is the only thing that changes. */
  lemma NewInvoiceIs(db: Db, company: nat, technician: Option<nat>, rows: seq<Item>, tax: int, extra: int)
    ensures var after, n := CreateInvoice(db, company, technician, rows, tax, extra), |db.invoices|;
            && after == db.(invoices := after.invoices) && |after.invoices| == n + 1
                 && after.invoices[..n] == db.invoices
            && var invoice := after.invoices[n];
               && invoice.company == company && invoice.technician == technician && invoice.status == Draft
               && invoice.bill.rows == rows && invoice.bill.tax == tax && invoice.bill.extra == extra
               && invoice.bill.campaign == 0 && invoice.bill.percents == Percents(0, 0, 0)
               && invoice.total == InvoiceTotal(db.ties, invoice.bill) && invoice.settlement.None?
               && !invoice.cancelPending
  {
    hide InvoiceTotal;
  }

  lemma DiscountLowersTotal(ties: Ties, bill: Bill, amount: int)
    requires 0 < amount
    ensures InvoiceTotal(ties, bill.(campaign := bill.campaign + amount)) <= InvoiceTotal(ties, bill)
  {
    var more := bill.(campaign := bill.campaign + amount);
    assert Total100(more) <= Total100(bill);
    RoundingIsMonotone(ties, Total100(more), Total100(bill));
    hide Total100;
  }

  lemma RoundingIsMonotone(ties: Ties, a: nat, b: nat)
    requires a <= b
    ensures RoundHundredths(ties, a) <= RoundHundredths(ties, b)
  {
  }
}
