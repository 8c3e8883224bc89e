/** The services themselves: the tables as objects that the methods update in place, with
    transactions that roll back, against the steps of PaymentFlow.

    Every method says that the tables hold exactly what its step computes, so what is
    proved about runs of steps holds of any sequence of calls. */
module Store {
  import opened Options
  import opened Ledgers
  import opened Escrows
  import opened EscrowAgreement
  import opened WageSplit
  import F = PaymentFlow
  import opened PaymentSafety

  datatype ProcessResult = ResolvedTask | FailedTask | SkippedTask

  class Tables {
    var policies: map<nat, F.Policies>
    var invoices: seq<F.Invoice>
    var payments: seq<F.Payment>
    var tasks: seq<F.Task>
    const ties: Ties
    const escrows: EscrowTable
    const technicianLedger: Ledger
    const feeLedger: Ledger

    ghost predicate Valid() {
      technicianLedger != feeLedger
    }

    function Snapshot(): F.Db
      reads this, escrows, technicianLedger, feeLedger
    {
      F.Db(ties, policies, invoices, payments, escrows.records, technicianLedger.rows, feeLedger.rows, tasks)
    }

    constructor (ties: Ties, policies: map<nat, F.Policies>)
      ensures Valid() && fresh(escrows) && fresh(technicianLedger) && fresh(feeLedger)
      ensures Snapshot() == F.Db(ties, policies, [], [], map[], [], [], [])
    {
      this.ties, this.policies := ties, policies;
      invoices, payments, tasks := [], [], [];
      var escrowTable := new EscrowTable();
      var credits := new Ledger();
      var fees := new Ledger();
      escrows, technicianLedger, feeLedger := escrowTable, credits, fees;
    }

    /** Leaving a transaction by an error: every table is as it was. */
    method RollBack(saved: F.Db)
      requires Valid() && saved.ties == ties
      modifies this, escrows, technicianLedger, feeLedger
      ensures Snapshot() == saved
    {
      policies, invoices, payments, tasks := saved.policies, saved.invoices, saved.payments, saved.tasks;
      escrows.records := saved.escrows;
      technicianLedger.rows := saved.technicianRows;
      feeLedger.rows := saved.feeRows;
    }

    // -------------------------------------------------------- Backfill tasks

    method CreateTask(kind: F.TaskKind, company: nat, invoice: Option<nat>, p: Option<nat>)
      modifies this`tasks
      ensures tasks == F.CreateTask(old(tasks), kind, company, invoice, p)
    {
      var t := 0;
      while t < |tasks|
        invariant 0 <= t <= |tasks|
        invariant forall u :: 0 <= u < t ==>
          !(tasks[u].kind == kind && tasks[u].company == company && tasks[u].invoice == invoice
              && tasks[u].status != F.Resolved)
      {
        if tasks[t].kind == kind && tasks[t].company == company && tasks[t].invoice == invoice
           && tasks[t].status in {F.Waiting, F.Processing} {
          return;
        }
        assert tasks[t].status == F.Waiting || tasks[t].status == F.Processing || tasks[t].status == F.Resolved;
        t := t + 1;
      }
      tasks := tasks + [F.Task(kind, company, invoice, p, F.Waiting, 0)];
    }

    // ---------------------------------------------------- Non-blocking writes

    method CreateEscrow(p: nat, invoice: Option<nat>, faults: F.Faults) returns (raised: bool)
      requires Valid()
      modifies escrows
      ensures F.Attempt(Snapshot(), raised) == F.CreateEscrow(old(Snapshot()), p, invoice, faults)
    {
      if p >= |payments| {
        return false;
      }
      var eligible := payments[p].gateway.Some? && payments[p].gateway.value.platformOwned;
      if eligible && p !in escrows.records && faults.create {
        return true;
      }
      var record := escrows.CreateForPayment(p, eligible, payments[p].amount, invoice);
      raised := false;
    }

    method DistributeEscrow(i: nat, p: Option<nat>, faults: F.Faults) returns (raised: bool)
      requires Valid() && i < |invoices|
      modifies escrows
      ensures F.Attempt(Snapshot(), raised) == F.DistributeEscrow(old(Snapshot()), i, p, faults)
    {
      if p.None? {
        return false;
      }
      var commission := F.Commission(Snapshot(), i);
      raised := escrows.ReserveAndDistributeFor(p.value, i, commission, F.Wage(invoices[i]), faults.reserve,
          faults.distribute);
    }

    /** `create_invoice_entries`. */
    method CreateInvoiceEntries(i: nat, p: Option<nat>, faults: F.Faults) returns (raised: bool)
      requires Valid() && i < |invoices|
      modifies technicianLedger
      ensures F.Attempt(Snapshot(), raised) == F.WriteLedger(old(Snapshot()), i, p, faults)
    {
      hide Post, F.Commission;
      var invoice := invoices[i];
      if invoice.technician.None? {
        return false;
      }
      var wage := F.Wage(invoice);
      if wage <= 0 {
        return false;
      }
      var online := invoice.settlement.Some? && F.Online(invoice.settlement.value.means);
      var collected := p.Some? && p.value < |payments| && payments[p.value].collectedByTechnician;
      var source := OnlineGateway;
      if !online {
        if collected {
          source := CashFromCustomer;
        } else {
          source := ManualPayment;
        }
      }
      if faults.credit {
        return true;
      }
      var owner := Technician(invoice.company, invoice.technician.value);
      var credit := technicianLedger.WriteEntry(owner, Credit, source, wage, TechnicianCredit(i));
      if collected && invoice.total > 0 {
        if faults.debit {
          return true;
        }
        var debit := technicianLedger.WriteEntry(owner, Debit, CashFromCustomer, invoice.total, CashReceived(i));
      }
      raised := false;
    }

    /** `record_invoice_fee`. */
    method RecordInvoiceFee(i: nat, p: Option<nat>, faults: F.Faults) returns (raised: bool)
      requires Valid() && i < |invoices|
      modifies feeLedger
      ensures F.Attempt(Snapshot(), raised) == F.WriteFee(old(Snapshot()), i, p, faults)
    {
      if p.None? || p.value >= |payments| {
        return false;
      }
      var payment := payments[p.value];
      if payment.gateway.None? || !payment.gateway.value.platformOwned || payment.status != F.Paid {
        return false;
      }
      var amount := F.Commission(Snapshot(), i);
      if amount <= 0 {
        return false;
      }
      if faults.fee {
        return true;
      }
      var entry := feeLedger.WriteEntry(Company(invoices[i].company), Debit, OnlineGateway, amount, InvoiceFee(i));
      raised := false;
    }

    /** `post_for_payment` of the direct settlement: check after check, then one debit. */
    method PostDirectSettlement(p: nat, faults: F.Faults) returns (raised: bool)
      requires Valid()
      modifies technicianLedger
      ensures F.Attempt(Snapshot(), raised) == F.WriteDirect(old(Snapshot()), p, faults)
    {
      if p >= |payments| || payments[p].invoice.None? || payments[p].invoice.value >= |invoices| {
        return false;
      }
      var payment, i := payments[p], payments[p].invoice.value;
      var amount := F.DirectAmount(Snapshot(), i);
      if amount <= 0 || !payment.ThroughPlatform() {
        return false;
      }
      var technician := invoices[i].technician;
      if technician.None? || payment.company != invoices[i].company {
        return false;
      }
      if faults.direct {
        return true;
      }
      var owner := Technician(payment.company, technician.value);
      var entry := technicianLedger.WriteEntry(owner, Debit, DirectGateway, amount, DirectSettlement(p));
      raised := false;
    }

    /** The last write of a verification. Without a snapshot there is nothing to settle. */
    method SettleDirectly(p: nat, faults: F.Faults)
      requires Valid()
      modifies this`tasks, technicianLedger
      ensures Snapshot() == F.PostDirect(old(Snapshot()), p, faults)
    {
      hide F.WriteDirect, F.CreateTask;
      if faults.snapshot || p >= |payments| {
        return;
      }
      var raised := PostDirectSettlement(p, faults);
      if raised {
        CreateTask(F.DirectTask, payments[p].company, payments[p].invoice, Some(p));
      }
    }

    // -------------------------------------------------------------- Mark paid

    /** `settle`: freeze the split on the invoice, which is then paid. */
    method SettleInvoice(i: nat, p: Option<nat>, means: string, reference: string, now: int)
      requires Valid() && i < |invoices|
      modifies this`invoices
      ensures Snapshot() == F.Settle(old(Snapshot()), i, p, means, reference, now)
    {
      hide CalculateSplit, F.MethodOf, F.ReferenceOf, F.PolicyOf;
      var invoice := invoices[i];
      var policy := F.PolicyOf(Snapshot(), invoice.company);
      var split := CalculateSplit(invoice.bill, policy.extra, policy.campaign);
      var settlement := F.Settlement(split, policy.extra, policy.campaign,
                                     F.MethodOf(Snapshot(), p, means), F.ReferenceOf(Snapshot(), p, reference), now);
      invoice := invoice.(settlement := Some(settlement));
      invoice := invoice.(status := F.InvoicePaid);
      invoices := invoices[i := invoice];
    }

    /** `mark_paid`: raise before any change, or settle and then try the three writes. */
    method MarkPaid(i: nat, p: Option<nat>, means: string, reference: string, now: int, faults: F.Faults)
      returns (raised: bool)
      requires Valid()
      modifies this`invoices, this`tasks, escrows, technicianLedger, feeLedger
      ensures raised <==> !F.CanBePaid(old(Snapshot()), i, p)
      ensures Snapshot() == if raised then old(Snapshot())
              else F.MarkPaid(old(Snapshot()), i, p, means, reference, now, faults)
    {
      if !F.CanBePaid(Snapshot(), i, p) {
        return true;
      }
      var company := invoices[i].company;
      SettleInvoice(i, p, means, reference, now);
      assert F.CanBePaid(old(Snapshot()), i, p) && Snapshot() == F.Settle(old(Snapshot()), i, p, means, reference, now);
      PayOut(i, p, company, faults);
      hide F.PostPaid, F.Settle, F.CanBePaid;
      raised := false;
    }

    method PayOut(i: nat, p: Option<nat>, company: nat, faults: F.Faults)
      requires Valid() && i < |invoices| && company == invoices[i].company
      modifies this`tasks, escrows, technicianLedger, feeLedger
      ensures Snapshot() == F.PostPaid(old(Snapshot()), i, p, faults)
    {
      hide F.DistributeEscrow, F.WriteLedger, F.WriteFee, F.CreateTask;
      var escrowRaised := DistributeEscrow(i, p, faults);
      if escrowRaised {
        CreateTask(F.EscrowTask, company, Some(i), p);
      }
      var ledgerRaised := CreateInvoiceEntries(i, p, faults);
      if ledgerRaised {
        CreateTask(F.LedgerTask, company, Some(i), p);
      }
      var feeRaised := RecordInvoiceFee(i, p, faults);
      if feeRaised {
        CreateTask(F.FeeTask, company, Some(i), p);
      }
    }

    // --------------------------------------------------------------- Payments

    /** `start`: an attempt with the provider, recorded whether it was accepted or not. */
    method StartPayment(i: nat, gateway: Option<F.Gateway>, allowed: bool, response: F.InitiateResponse, now: int)
      returns (p: Option<nat>)
      requires Valid()
      modifies this`payments
      ensures Snapshot() == F.Start(old(Snapshot()), i, gateway, allowed, response, now)
      ensures p.Some? <==>
                && allowed && i < |invoices| && invoices[i].status == F.Issued
                && gateway.Some? && gateway.value.active && gateway.value.company == invoices[i].company
      ensures p.None? ==> payments == old(payments)
      ensures p.Some? ==> p.value == |old(payments)| == |payments| - 1
    {
      if i >= |invoices| || invoices[i].status != F.Issued || !allowed {
        return None;
      }
      if gateway.None? || !gateway.value.active || gateway.value.company != invoices[i].company {
        return None;
      }
      var payment := F.Payment(invoices[i].company, Some(i), gateway, invoices[i].total, F.Initiated, "", "", now, None,
                               "", false, F.NoRemark);
      match response {
        case Redirected(reference) =>
          payment := payment.(reference := reference);
          payment := payment.(status := F.Pending);
        case Rejected =>
          payment := payment.(status := F.FailedPayment);
      }
      payments := payments + [payment];
      p := Some(|payments| - 1);
    }

    /** `verify`. Whatever happens after the payment is accepted, an error of `mark_paid`
        takes the whole transaction back. */
    method Verify(p: nat, response: F.VerifyResponse, now: int, faults: F.Faults) returns (success: bool)
      requires Valid()
      modifies this, escrows, technicianLedger, feeLedger
      ensures Snapshot() == F.Verify(old(Snapshot()), p, response, now, faults)
      ensures success <==> p < |payments| && payments[p].status == F.Paid
    {
      hide F.AcceptPayment, F.MarkPaid, F.CanBePaid, F.PostDirect;
      if p >= |payments| || payments[p].status != F.Pending {
        return p < |payments| && payments[p].status == F.Paid;
      }
      if now > payments[p].createdAt + F.EXPIRATION {
        payments := payments[p := payments[p].(status := F.NeedsReconciliation)];
        return false;
      }
      if payments[p].gateway.None? || response.NoAnswer? {
        return false;
      }
      if response.Declined? {
        payments := payments[p := payments[p].(status := F.FailedPayment)];
        return false;
      }
      if response.verifiedAmount.Some? && response.verifiedAmount.value != payments[p].amount {
        payments := payments[p := payments[p].(status := F.NeedsReconciliation)];
        return false;
      }
      assert F.Verified(Snapshot(), p, response, now);
      success := PayVerified(p, response.tracking, response, now, faults);
    }

    method PayVerified(p: nat, tracking: string, ghost response: F.VerifyResponse, now: int, faults: F.Faults)
      returns (success: bool)
      requires Valid() && F.Verified(Snapshot(), p, response, now) && response.tracking == tracking
      modifies this, escrows, technicianLedger, feeLedger
      ensures Snapshot() == F.Verify(old(Snapshot()), p, response, now, faults)
      ensures success <==> p < |payments| && payments[p].status == F.Paid
    {
      hide F.AcceptPayment, F.MarkPaid, F.CanBePaid, F.PostDirect;
      var saved := Snapshot();
      AcceptPayment(p, tracking, now, faults);
      AcceptPaymentSafe(saved, p, tracking, now, faults);
      if !F.InvoiceIssued(saved, p) {
        SettleDirectly(p, faults);
        return true;
      }
      var raised := MarkPaid(saved.payments[p].invoice.value, Some(p), "", "", now, faults);
      if raised {
        RollBack(saved);
      } else {
        SettleDirectly(p, faults);
      }
      success := !raised;
    }

    method AcceptPayment(p: nat, tracking: string, now: int, faults: F.Faults)
      requires Valid() && p < |payments|
      modifies this`payments, this`tasks, escrows
      ensures Snapshot() == F.AcceptPayment(old(Snapshot()), p, tracking, now, faults)
    {
      hide F.CreateTask, F.CreateEscrow;
      var payment := payments[p];
      payment := payment.(status := F.Paid, tracking := tracking, paidAt := Some(now));
      payments := payments[p := payment];
      var raised := CreateEscrow(p, payment.invoice, faults);
      if raised {
        CreateTask(F.EscrowTask, payment.company, payment.invoice, Some(p));
      }
    }

    /** `handle_callback`: find the newest payment with the reference and verify it. */
    method HandleCallback(company: nat, reference: string, response: F.VerifyResponse, now: int, faults: F.Faults)
      returns (success: bool)
      requires Valid()
      modifies this, escrows, technicianLedger, feeLedger
      ensures Snapshot() == F.Callback(old(Snapshot()), company, reference, response, now, faults)
      ensures var found := F.FindByReference(old(payments), company, reference, |old(payments)|);
              success <==>
                && !F.Blank(reference) && found.Some? && found.value < |payments|
                && payments[found.value].status == F.Paid
    {
      hide F.Verify;
      if F.Blank(reference) {
        return false;
      }
      var n := |payments|;
      while n > 0 && !(payments[n - 1].company == company && payments[n - 1].reference == reference)
        invariant 0 <= n <= |payments|
        invariant F.FindByReference(payments, company, reference, n)
                  == F.FindByReference(payments, company, reference, |payments|)
      {
        n := n - 1;
      }
      if n == 0 {
        return false;
      }
      success := Verify(n - 1, response, now, faults);
    }

    /** The expiration job over a list of payments: each in its own transaction, counted.
        As many payments stop being unfinished as it reports. */
    method ExpireAll(ids: seq<nat>, now: int, age: int) returns (expired: nat, skippedPaid: nat)
      requires Valid()
      modifies this`payments
      ensures Snapshot() == ExpireEach(old(Snapshot()), ids, now, age)
      ensures Unfinished(old(payments)) == Unfinished(payments) + expired
      ensures expired + skippedPaid <= |ids|
    {
      expired, skippedPaid := 0, 0;
      for k := 0 to |ids|
        invariant Snapshot() == ExpireEach(old(Snapshot()), ids[..k], now, age)
        invariant Unfinished(old(payments)) == Unfinished(payments) + expired
        invariant expired + skippedPaid <= k
      {
        var p := ids[k];
        assert ids[..k + 1][..k] == ids[..k];
        if p < |payments| && payments[p].gateway.Some? && payments[p].createdAt < now - age {
          if payments[p].status == F.Paid {
            skippedPaid := skippedPaid + 1;
          } else if payments[p].status == F.Pending || payments[p].status == F.Initiated {
            var locked := payments[p].(status := F.NeedsReconciliation, remark := F.ExpiredByCleanup);
            UnfinishedUpdate(payments, p, locked);
            payments := payments[p := locked];
            expired := expired + 1;
          }
        }
      }
      assert ids[..|ids|] == ids;
    }

    // ----------------------------------------------------------- Cash receipts

    method RegisterAdminCash(i: nat, byTechnician: bool, now: int, faults: F.Faults) returns (registered: bool)
      requires Valid()
      modifies this, escrows, technicianLedger, feeLedger
      ensures Snapshot() == F.AdminCash(old(Snapshot()), i, byTechnician, now, faults)
      ensures |payments| == |old(payments)| + (if registered then 1 else 0)
    {
      if i >= |invoices| || invoices[i].status != F.Issued {
        return false;
      }
      hide F.MarkPaid, F.CanBePaid;
      var saved := Snapshot();
      payments := payments + [F.CashPayment(saved, i, "", byTechnician, now, None)];
      var raised := MarkPaid(i, Some(|saved.payments|), "cash", "", now, faults);
      if raised {
        RollBack(saved);
      }
      registered := !raised;
    }

    /** The technician's receipt also cancels the invoice's unfinished online payments. */
    method RegisterTechnicianCash(i: nat, reference: string, now: int, faults: F.Faults) returns (registered: bool)
      requires Valid()
      modifies this, escrows, technicianLedger, feeLedger
      ensures Snapshot() == F.TechnicianCash(old(Snapshot()), i, reference, now, faults)
      ensures |payments| == |old(payments)| + (if registered then 1 else 0)
    {
      if i >= |invoices| || invoices[i].status != F.Issued || invoices[i].cancelPending {
        return false;
      }
      hide F.MarkPaid, F.CanBePaid;
      var saved := Snapshot();
      var company, cash := invoices[i].company, |payments|;
      payments := payments + [F.CashPayment(saved, i, reference, true, now, Some(now))];
      var raised := MarkPaid(i, Some(cash), "cash", reference, now, faults);
      if raised {
        RollBack(saved);
        return false;
      }
      label Paid:
      CancelUnfinished(i, company, cash);
      assert payments == F.CancelAbandoned(old@Paid(payments), i, company, cash);
      registered := true;
    }

    method CancelUnfinished(i: nat, company: nat, cash: nat)
      requires Valid()
      modifies this`payments
      ensures payments == F.CancelAbandoned(old(payments), i, company, cash)
    {
      var p := 0;
      while p < |payments|
        invariant 0 <= p <= |payments| == |old(payments)|
        invariant forall q :: 0 <= q < p ==> payments[q] == F.CancelAbandoned(old(payments), i, company, cash)[q]
        invariant forall q :: p <= q < |payments| ==> payments[q] == old(payments)[q]
      {
        if p != cash && payments[p].company == company && payments[p].invoice == Some(i)
           && payments[p].status in {F.Initiated, F.Pending} {
          payments := payments[p := payments[p].(status := F.CancelledPayment, remark := F.SupersededBy(cash))];
        }
        p := p + 1;
      }
    }

    // ----------------------------------------------------------- Retry queue

    /** One retry handler. */
    method Dispatch(task: F.Task, faults: F.Faults) returns (raised: bool)
      requires Valid()
      modifies this`tasks, escrows, technicianLedger, feeLedger
      ensures F.Attempt(Snapshot(), raised) == F.Retry(old(Snapshot()), task, faults)
    {
      hide F.DistributeEscrow, F.WriteLedger, F.WriteFee, F.CreateEscrow, F.WriteDirect;
      if task.kind == F.DirectTask {
        if task.payment.None? {
          return true;
        }
        raised := PostDirectSettlement(task.payment.value, faults);
        return;
      }
      if task.invoice.None? || task.invoice.value >= |invoices| {
        return true;
      }
      var i := task.invoice.value;
      match task.kind {
        case LedgerTask => raised := CreateInvoiceEntries(i, task.payment, faults);
        case FeeTask => raised := RecordInvoiceFee(i, task.payment, faults);
        case EscrowTask =>
          if task.payment.None? {
            return true;
          }
          raised := CreateEscrow(task.payment.value, task.invoice, faults);
          if !raised {
            raised := DistributeEscrow(i, task.payment, faults);
          }
        case DirectTask => assert false;
      }
    }

    /** `_process_one`: phase one in a transaction that an error rolls back, phase two in
        another that counts the failed attempt. */
    method ProcessOne(t: nat, faults: F.Faults, recordFault: bool) returns (result: ProcessResult)
      requires Valid()
      modifies this, escrows, technicianLedger, feeLedger
      ensures Snapshot() == F.ProcessTask(old(Snapshot()), t, faults, recordFault)
      ensures result.SkippedTask? <==> t >= |old(tasks)| || old(tasks)[t].status != F.Waiting
      ensures result.ResolvedTask? <==>
                t < |old(tasks)| && old(tasks)[t].status == F.Waiting
                    && !F.Retry(old(Snapshot()), old(tasks)[t], faults).raised
    {
      if t >= |tasks| || tasks[t].status != F.Waiting {
        return SkippedTask;
      }
      hide F.Retry;
      var raised := AttemptTask(t, faults);
      if !raised {
        return ResolvedTask;
      }
      if !recordFault {
        tasks := tasks[t := tasks[t].(attempts := tasks[t].attempts + 1)];
      }
      result := FailedTask;
    }

    /** Phase one: the retry's writes and the resolved task, or nothing at all. */
    method AttemptTask(t: nat, faults: F.Faults) returns (raised: bool)
      requires Valid() && t < |tasks|
      modifies this, escrows, technicianLedger, feeLedger
      ensures var task, attempt := old(tasks)[t], F.Retry(old(Snapshot()), old(tasks)[t], faults);
              && raised == attempt.raised
              && Snapshot() == if raised then old(Snapshot()) else
                   attempt.db.(tasks := old(tasks)[t := task.(status := F.Resolved, attempts := task.attempts + 1)])
    {
      hide F.Retry;
      var saved := Snapshot();
      var task := tasks[t];
      tasks := tasks[t := task.(status := F.Processing, attempts := task.attempts + 1)];
      RetryIgnoresTasks(saved, tasks, task, task.attempts, faults);
      raised := Dispatch(task, faults);
      if raised {
        RollBack(saved);
      } else {
        tasks := tasks[t := tasks[t].(status := F.Resolved)];
      }
    }

    /** `process_pending`: the waiting tasks, oldest first up to a limit, one transaction
        each. The counts add up, nothing is skipped, and as many tasks stop waiting as are
        reported resolved. */
    method ProcessPending(limit: nat, faults: nat -> F.Faults, recordFault: nat -> bool)
      returns (resolved: int, failed: int, skipped: int)
      requires Valid()
      modifies this, escrows, technicianLedger, feeLedger
      ensures Snapshot() == ProcessEach(old(Snapshot()), WaitingTasks(old(tasks), limit), faults, recordFault)
      ensures resolved + failed == |WaitingTasks(old(tasks), limit)| && skipped == 0
      ensures 0 <= resolved && 0 <= failed
      ensures WaitingCount(old(tasks)) == WaitingCount(tasks) + resolved
    {
      hide F.ProcessTask, F.Retry, WaitingCount, WaitingTasks;
      var ids := WaitingTasks(tasks, limit);
      WaitingTasksAre(tasks, limit);
      resolved, failed, skipped := 0, 0, 0;
      for k := 0 to |ids|
        invariant Snapshot() == ProcessEach(old(Snapshot()), ids[..k], faults, recordFault)
        invariant resolved + failed == k && skipped == 0 && 0 <= resolved && 0 <= failed
        invariant |tasks| == |old(tasks)|
        invariant forall n :: k <= n < |ids| ==> ids[n] < |tasks| && tasks[ids[n]].status == F.Waiting
        invariant WaitingCount(old(tasks)) == WaitingCount(tasks) + resolved
      {
        assert ids[..k + 1][..k] == ids[..k];
        label Before:
        var t := ids[k];
        var result := ProcessOne(t, faults(t), recordFault(t));
        ProcessedTask(old@Before(Snapshot()), t, faults(t), recordFault(t));
        WaitingUpdate(old@Before(tasks), t, tasks[t]);
        match result {
          case ResolvedTask => resolved := resolved + 1;
          case FailedTask => failed := failed + 1;
          case SkippedTask => skipped := skipped + 1;
        }
      }
      assert ids[..|ids|] == ids;
    }

    // --------------------------------------------------------------- Invoices

    method CreateInvoice(company: nat, technician: Option<nat>, items: seq<RawItem>, tax: int, extra: int)
      returns (i: nat)
      requires Valid()
      modifies this`invoices
      ensures Snapshot() == F.CreateInvoice(old(Snapshot()), company, technician, BuildRows(ties, items), tax, extra)
      ensures i == |old(invoices)|
    {
      var rows := ReplaceItems(ties, items);
      i := |invoices|;
      var bill := Bill(rows, Percents(0, 0, 0), tax, extra, 0);
      invoices := invoices + [F.Invoice(company, technician, F.Draft, bill, InvoiceTotal(ties, bill), false, None)];
    }

    method UpdateInvoice(i: nat, items: seq<RawItem>, tax: int, extra: int) returns (updated: bool)
      requires Valid()
      modifies this`invoices
      ensures Snapshot() == F.UpdateDraft(old(Snapshot()), i, BuildRows(ties, items), tax, extra)
      ensures updated <==> i < |old(invoices)| && old(invoices)[i].status == F.Draft
      ensures !updated ==> invoices == old(invoices)
    {
      if i >= |invoices| || invoices[i].status != F.Draft {
        return false;
      }
      var invoice := invoices[i];
      invoice := invoice.(bill := invoice.bill.(tax := tax, extra := extra));
      var rows := ReplaceItems(ties, items);
      invoice := invoice.(bill := invoice.bill.(rows := rows));
      invoice := invoice.(total := InvoiceTotal(ties, invoice.bill));
      invoices := invoices[i := invoice];
      updated := true;
    }

    method Issue(i: nat, current: Percents) returns (issued: bool)
      requires Valid()
      modifies this`invoices
      ensures Snapshot() == F.IssueInvoice(old(Snapshot()), i, current)
      ensures issued <==>
                && i < |old(invoices)| && old(invoices)[i].status == F.Draft
                && 0 < Total100(old(invoices)[i].bill)
      ensures !issued ==> invoices == old(invoices)
    {
      if i >= |invoices| || invoices[i].status != F.Draft {
        return false;
      }
      var invoice := invoices[i];
      if Total100(invoice.bill) <= 0 {
        return false;
      }
      invoice := invoice.(total := InvoiceTotal(ties, invoice.bill));
      var percents := invoice.bill.percents;
      if percents.service == 0 && percents.goods == 0 && percents.travel == 0 && invoice.technician.Some? {
        invoice := invoice.(bill := invoice.bill.(percents := current));
      }
      invoice := invoice.(status := F.Issued);
      invoices := invoices[i := invoice];
      issued := true;
    }

    method Cancel(i: nat) returns (cancelled: bool)
      requires Valid()
      modifies this`invoices
      ensures Snapshot() == F.CancelInvoice(old(Snapshot()), i)
      ensures cancelled <==> i < |old(invoices)| && old(invoices)[i].status in {F.Draft, F.Issued}
      ensures !cancelled ==> invoices == old(invoices)
    {
      if i >= |invoices| || invoices[i].status !in {F.Draft, F.Issued} {
        return false;
      }
      invoices := invoices[i := invoices[i].(status := F.InvoiceCancelled)];
      cancelled := true;
    }
  }

  // ------------------------------------------------------------- The two loops

  function ExpireEach(db: F.Db, ids: seq<nat>, now: int, age: int): F.Db {
    if ids == [] then db else F.Expire(ExpireEach(db, ids[..|ids| - 1], now, age), ids[|ids| - 1], now, age)
  }

  /** Payments still waiting for an answer. */
  function Unfinished(payments: seq<F.Payment>): nat {
    if payments == [] then 0
    else Unfinished(payments[..|payments| - 1])
         + (if payments[|payments| - 1].status in {F.Initiated, F.Pending} then 1 else 0)
  }

  lemma {:induction false} UnfinishedUpdate(payments: seq<F.Payment>, p: nat, after: F.Payment)
    requires p < |payments| && payments[p].status in {F.Initiated, F.Pending}
             && after.status !in {F.Initiated, F.Pending}
    ensures Unfinished(payments) == Unfinished(payments[p := after]) + 1
  {
    var last := |payments| - 1;
    if p < last {
      UnfinishedUpdate(payments[..last], p, after);
      assert payments[p := after][..last] == payments[..last][p := after];
    } else {
      assert payments[p := after][..last] == payments[..last];
    }
  }

  function ProcessEach(db: F.Db, ids: seq<nat>, faults: nat -> F.Faults, recordFault: nat -> bool): F.Db {
    if ids == [] then db
    else
      var t := ids[|ids| - 1];
      F.ProcessTask(ProcessEach(db, ids[..|ids| - 1], faults, recordFault), t, faults(t), recordFault(t))
  }

  function WaitingCount(tasks: seq<F.Task>): nat {
    if tasks == [] then 0
    else WaitingCount(tasks[..|tasks| - 1]) + (if tasks[|tasks| - 1].status == F.Waiting then 1 else 0)
  }

  /** The positions of the first `limit` waiting tasks. */
  function WaitingTasks(tasks: seq<F.Task>, limit: nat): seq<nat> {
    if tasks == [] then []
    else
      var before := WaitingTasks(tasks[..|tasks| - 1], limit);
      if tasks[|tasks| - 1].status == F.Waiting && |before| < limit then before + [|tasks| - 1] else before
  }

  lemma {:induction false} WaitingTasksAre(tasks: seq<F.Task>, limit: nat)
    ensures var ids := WaitingTasks(tasks, limit);
            && (forall k :: 0 <= k < |ids| ==> ids[k] < |tasks| && tasks[ids[k]].status == F.Waiting)
            && (forall k, n :: 0 <= k < n < |ids| ==> ids[k] < ids[n])
            && |ids| == (if WaitingCount(tasks) < limit then WaitingCount(tasks) else limit)
  {
    if tasks != [] { WaitingTasksAre(tasks[..|tasks| - 1], limit); }
  }

  lemma {:induction false} WaitingUpdate(tasks: seq<F.Task>, t: nat, after: F.Task)
    requires t < |tasks| && tasks[t].status == F.Waiting
    ensures WaitingCount(tasks) == WaitingCount(tasks[t := after]) + (if after.status == F.Waiting then 0 else 1)
  {
    var last := |tasks| - 1;
    if t < last {
      WaitingUpdate(tasks[..last], t, after);
      assert tasks[t := after][..last] == tasks[..last][t := after];
    } else {
      assert tasks[t := after][..last] == tasks[..last];
    }
  }

  lemma ProcessedTask(db: F.Db, t: nat, faults: F.Faults, recordFault: bool)
    requires t < |db.tasks|
    ensures var end := F.ProcessTask(db, t, faults, recordFault);
            |end.tasks| == |db.tasks| && end.tasks == db.tasks[t := end.tasks[t]]
            && (db.tasks[t].status == F.Waiting ==>
                  end.tasks[t].status == if F.Retry(db, db.tasks[t], faults).raised then F.Waiting else F.Resolved)
  {
    hide F.Retry;
  }
}
