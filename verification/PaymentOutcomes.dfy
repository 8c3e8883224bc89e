/** What each answer of a provider leaves, for ever, and what every paid invoice was paid
    with. */
module PaymentOutcomes {
  import opened Options
  import opened WageSplit
  import opened EscrowAgreement
  import opened PaymentFlow
  import opened PaymentSafety

  // -------------------------------------------------------------------- Callbacks

  /** The newest payment of the company with this reference. */
  predicate Newest(payments: seq<Payment>, company: nat, reference: string, p: nat) {
    && p < |payments| && payments[p].company == company && payments[p].reference == reference
    && forall q :: p < q < |payments| ==> !(payments[q].company == company && payments[q].reference == reference)
  }

  lemma NewestIsFound(payments: seq<Payment>, company: nat, reference: string, p: nat)
    requires Newest(payments, company, reference, p)
    ensures FindByReference(payments, company, reference, |payments|) == Some(p)
  {
    hide FindByReference;
    FoundHasReference(payments, company, reference, |payments|);
  }

  /** Payment `p` with another status, and nothing else changed. */
  function Marked(db: Db, p: nat, status: PaymentStatus): Db
    requires p < |db.payments|
  {
    db.(payments := db.payments[p := db.payments[p].(status := status)])
  }

  /** The payment's invoice waits for it, but is settled, of another company or of another
      total: then marking it paid is refused. */
  predicate Refuses(db: Db, p: nat)
    requires p < |db.payments|
  {
    var payment := db.payments[p];
    payment.invoice.Some? && payment.invoice.value < |db.invoices|
    && var invoice := db.invoices[payment.invoice.value];
       invoice.status == Issued
       && (invoice.settlement.Some? || invoice.company != payment.company || invoice.total != payment.amount)
  }

  /** Every answer to every callback. Half an hour is how long a payment can be verified. */
  lemma CallbackLeaves(db: Db, company: nat, reference: string, p: nat, response: VerifyResponse, now: int,
      faults: Faults)
    requires Newest(db.payments, company, reference, p) && !Blank(reference)
    ensures var payment, end := db.payments[p], Callback(db, company, reference, response, now, faults);
            if payment.status != Pending then end == db
            else if payment.createdAt + 30 * 60 < now then end == Marked(db, p, NeedsReconciliation)
            else if payment.gateway.None? || response.NoAnswer? then end == db
            else if response.Declined? then end == Marked(db, p, FailedPayment)
            else if response.verifiedAmount.Some? && response.verifiedAmount.value != payment.amount
                 then end == Marked(db, p, NeedsReconciliation)
            else if Refuses(db, p) then end == db
            else
              && |end.invoices| == |db.invoices|
              && end.payments == db.payments[p := payment.(status := Paid, tracking := response.tracking,
                                                           paidAt := Some(now))]
              && forall i :: 0 <= i < |db.invoices| ==>
                   if payment.invoice == Some(i) && db.invoices[i].status == Issued
                   then end.invoices[i].status == InvoicePaid && end.invoices[i].settlement.Some?
                   else end.invoices[i] == db.invoices[i]
  {
    hide FindByReference, Blank, AcceptPayment, MarkPaid, PostDirect;
    NewestIsFound(db.payments, company, reference, p);
    if Verified(db, p, response, now) {
      AcceptPaymentSafe(db, p, response.tracking, now, faults);
      var accepted := AcceptPayment(db, p, response.tracking, now, faults);
      if InvoiceIssued(db, p) {
        var i := db.payments[p].invoice.value;
        if CanBePaid(accepted, i, Some(p)) {
          MarkPaidSettlesOne(accepted, i, Some(p), "", "", now, faults);
          PostDirectTouchesNoInvoice(MarkPaid(accepted, i, Some(p), "", "", now, faults), p, faults);
        }
      } else {
        PostDirectTouchesNoInvoice(accepted, p, faults);
      }
    }
  }

  /** A callback that finds no payment, or has no reference, leaves everything. */
  lemma UnknownCallbackLeaves(db: Db, company: nat, reference: string, response: VerifyResponse, now: int,
      faults: Faults)
    requires Blank(reference) || forall p :: 0 <= p < |db.payments| ==>
               !(db.payments[p].company == company && db.payments[p].reference == reference)
    ensures Callback(db, company, reference, response, now, faults) == db
  {
    hide FindByReference, Verify, Blank;
    if !Blank(reference) { NoneIsFound(db.payments, company, reference); }
  }

  lemma NoneIsFound(payments: seq<Payment>, company: nat, reference: string)
    requires forall p :: 0 <= p < |payments| ==>
               !(payments[p].company == company && payments[p].reference == reference)
    ensures FindByReference(payments, company, reference, |payments|) == None
  {
    hide FindByReference;
    FoundHasReference(payments, company, reference, |payments|);
  }

  lemma CallbackIsSafe(db: Db, company: nat, reference: string, response: VerifyResponse, now: int, faults: Faults)
    requires Sound(db)
    ensures Sound(Callback(db, company, reference, response, now, faults))
    ensures Advances(db, Callback(db, company, reference, response, now, faults))
  {
    StepIsSafe(db, DoCallback(company, reference, response, now, faults));
    hide Sound, Advances, Callback;
    assert Apply(db, DoCallback(company, reference, response, now, faults))
        == Callback(db, company, reference, response, now, faults);
  }

  /** The answer decides for ever: whatever happens after the callback, a payment whose
      approval was for another amount, or came too late, needs reconciliation, a declined one
      has failed, and neither is otherwise changed; and an accepted one stays paid, as it was
      then. So no payment approved for another amount, expired or declined is ever paid. */
  lemma AnswerIsFinal(db: Db, company: nat, reference: string, p: nat, response: VerifyResponse, now: int,
      faults: Faults, later: seq<Action>)
    requires Sound(db) && Newest(db.payments, company, reference, p) && !Blank(reference)
    requires db.payments[p].status == Pending
    ensures var payment, end := db.payments[p], Run(Callback(db, company, reference, response, now, faults), later);
            && p < |end.payments|
            && (payment.createdAt + 30 * 60 < now ==> end.payments[p] == payment.(status := NeedsReconciliation))
            && (now <= payment.createdAt + 30 * 60 && payment.gateway.Some? ==>
                  && (response.Declined? ==> end.payments[p] == payment.(status := FailedPayment))
                  && (response.Approved? ==>
                        if response.verifiedAmount.Some? && response.verifiedAmount.value != payment.amount
                        then end.payments[p] == payment.(status := NeedsReconciliation)
                        else Refuses(db, p)
                             || end.payments[p] == payment.(status := Paid, tracking := response.tracking,
                                                            paidAt := Some(now))))
  {
    var answered := Callback(db, company, reference, response, now, faults);
    CallbackLeaves(db, company, reference, p, response, now, faults);
    CallbackIsSafe(db, company, reference, response, now, faults);
    EveryRunIsSafe(answered, later);
    hide Sound, Callback, Run, Newest, Blank, Refuses;
  }

  /** An unfinished gateway payment older than the limit is put aside by the cleanup, for
      ever, and no other payment is touched by it. */
  lemma CleanupIsFinal(db: Db, p: nat, now: int, age: int, later: seq<Action>)
    requires Sound(db)
    ensures var after := Apply(db, DoExpire(p, now, age));
            if p < |db.payments| && (db.payments[p].status == Pending || db.payments[p].status == Initiated)
               && db.payments[p].gateway.Some? && db.payments[p].createdAt + age < now
            then after == db.(payments := after.payments) && |after.payments| == |db.payments|
                 && (forall q :: 0 <= q < |db.payments| && q != p ==> after.payments[q] == db.payments[q])
                 && p < |Run(after, later).payments|
                 && Run(after, later).payments[p]
                    == db.payments[p].(status := NeedsReconciliation, remark := ExpiredByCleanup)
            else after == db
  {
    var after := Apply(db, DoExpire(p, now, age));
    StepIsSafe(db, DoExpire(p, now, age));
    EveryRunIsSafe(after, later);
    hide Sound, Run;
  }

  /** What a start adds: one payment of the invoice's whole total, waiting for its callback
      or failed at once. */
  lemma StartLeaves(db: Db, i: nat, gateway: Option<Gateway>, allowed: bool, response: InitiateResponse, now: int)
    ensures var after, n := Apply(db, DoStart(i, gateway, allowed, response, now)), |db.payments|;
            if i < |db.invoices| && db.invoices[i].status == Issued && allowed
               && gateway.Some? && gateway.value.active && gateway.value.company == db.invoices[i].company
            then after == db.(payments := after.payments) && |after.payments| == n + 1
                && after.payments[..n] == db.payments
                 && var payment := after.payments[n];
                    && payment.company == db.invoices[i].company && payment.invoice == Some(i)
                    && payment.amount == db.invoices[i].total && payment.gateway == gateway && payment.createdAt == now
                    && payment.paidAt.None? && !payment.collectedByTechnician
                    && (match response
                        case Redirected(reference) => payment.status == Pending && payment.reference == reference
                        case Rejected => payment.status == FailedPayment && payment.reference == "")
            else after == db
  {
  }

  /** An administrator's cash receipt is taken exactly for an issued, unsettled invoice: one
      more payment of its whole total, paid in cash, and the invoice paid by it. */
  lemma AdminCashLeaves(db: Db, i: nat, byTechnician: bool, now: int, faults: Faults)
    ensures var end, n := AdminCash(db, i, byTechnician, now, faults), |db.payments|;
            if i < |db.invoices| && db.invoices[i].status == Issued && db.invoices[i].settlement.None?
            then && end.payments == db.payments + [Receipt(db, i, "", byTechnician, now, None)]
                 && PaidOnly(db, end, i)
            else end == db
  {
    hide MarkPaid;
    if i < |db.invoices| {
      var payment := CashPayment(db, i, "", byTechnician, now, None);
      var received := db.(payments := db.payments + [payment]);
      if CanBePaid(received, i, Some(|db.payments|)) {
        MarkPaidSettlesOne(received, i, Some(|db.payments|), "cash", "", now, faults);
      }
    }
  }

  /** The receipt of invoice `i`: its whole total, in cash. */
  function Receipt(db: Db, i: nat, reference: string, byTechnician: bool, now: int, paidAt: Option<int>): Payment
    requires i < |db.invoices|
  {
    Payment(db.invoices[i].company, Some(i), None, db.invoices[i].total, Paid, reference, reference,
            now, paidAt, "cash", byTechnician, NoRemark)
  }

  /** Invoice `i` is paid and settled, and no other invoice changed. */
  predicate PaidOnly(a: Db, b: Db, i: nat) {
    && i < |a.invoices| == |b.invoices| && b.invoices[i].status == InvoicePaid && b.invoices[i].settlement.Some?
    && forall j :: 0 <= j < |a.invoices| && j != i ==> b.invoices[j] == a.invoices[j]
  }

  /** A technician's receipt likewise, unless a cancellation is under review; it also cancels
      the invoice's unfinished payments, with a remark, and touches no other payment. */
  lemma TechnicianCashLeaves(db: Db, i: nat, reference: string, now: int, faults: Faults)
    ensures var end, n := TechnicianCash(db, i, reference, now, faults), |db.payments|;
            if i < |db.invoices| && db.invoices[i].status == Issued && db.invoices[i].settlement.None?
               && !db.invoices[i].cancelPending
            then && |end.payments| == n + 1 && end.payments[n] == Receipt(db, i, reference, true, now, Some(now))
                 && PaidOnly(db, end, i)
                 && forall q :: 0 <= q < n ==>
                      var payment := db.payments[q];
                      end.payments[q]
                      == if payment.invoice == Some(i) && payment.company == db.invoices[i].company
                            && (payment.status == Initiated || payment.status == Pending)
                         then payment.(status := CancelledPayment, remark := SupersededBy(n)) else payment
            else end == db
  {
    hide MarkPaid;
    if i < |db.invoices| {
      var payment := CashPayment(db, i, reference, true, now, Some(now));
      var received := db.(payments := db.payments + [payment]);
      if CanBePaid(received, i, Some(|db.payments|)) {
        MarkPaidSettlesOne(received, i, Some(|db.payments|), "cash", reference, now, faults);
      }
    }
  }

  // ------------------------------------------------------------------ Settlements

  /** The settlement of invoice `i` by payment `p`: a paid one of its company and of its whole
      total, split fairly under the company's policies, with the payment's own means and
      reference. */
  predicate SettledBy(db: Db, i: nat, p: nat) {
    && i < |db.invoices| && p < |db.payments| && db.invoices[i].settlement.Some?
    && var invoice, payment, s := db.invoices[i], db.payments[p], db.invoices[i].settlement.value;
    && payment.status == Paid && payment.invoice == Some(i) && payment.company == invoice.company
    && payment.amount == invoice.total
    && (invoice.company in db.policies ==>
          s.extraPolicy == db.policies[invoice.company].extra
              && s.campaignPolicy == db.policies[invoice.company].campaign)
    && (invoice.company !in db.policies ==> s.extraPolicy == ByTechnician && s.campaignPolicy == ByCompany)
    && (ValidBill(invoice.bill) ==> Fair(invoice.bill, s.split, s.extraPolicy, s.campaignPolicy))
    && (payment.gateway.Some? && payment.gateway.value.gatewayType != "" ==>
          s.means == payment.gateway.value.gatewayType)
    && (payment.gateway.None? && payment.means != "" ==> s.means == payment.means)
    && (payment.tracking != "" ==> s.reference == payment.tracking)
    && (payment.tracking == "" && payment.reference != "" ==> s.reference == payment.reference)
  }

  ghost predicate AllSettled(db: Db) {
    forall i :: 0 <= i < |db.invoices| && db.invoices[i].settlement.Some? ==> exists p :: SettledBy(db, i, p)
  }

  lemma SettleSettles(db: Db, i: nat, p: nat, means: string, reference: string, now: int)
    requires CanBePaid(db, i, Some(p)) && db.payments[p].status == Paid
    ensures SettledBy(Settle(db, i, Some(p), means, reference, now), i, p)
  {
    var invoice, policies := db.invoices[i], PolicyOf(db, db.invoices[i].company);
    if ValidBill(invoice.bill) { SplitIsFair(invoice.bill, policies.extra, policies.campaign); }
    hide CalculateSplit, ValidBill, Fair;
  }

  lemma MarkPaidSettles(db: Db, i: nat, p: nat, means: string, reference: string, now: int, faults: Faults)
    requires CanBePaid(db, i, Some(p)) && db.payments[p].status == Paid
    ensures SettledBy(MarkPaid(db, i, Some(p), means, reference, now, faults), i, p)
  {
    SettleSettles(db, i, p, means, reference, now);
    hide PostPaid, Settle;
    var settled := Settle(db, i, Some(p), means, reference, now);
    PostPaidTouchesNoInvoice(settled, i, Some(p), faults);
    SameSettled(settled, MarkPaid(db, i, Some(p), means, reference, now, faults), i, p);
  }

  lemma SameSettled(a: Db, b: Db, i: nat, p: nat)
    requires SettledBy(a, i, p) && i < |b.invoices| && p < |b.payments| && b.policies == a.policies
    requires b.invoices[i] == a.invoices[i] && b.payments[p] == a.payments[p]
    ensures SettledBy(b, i, p)
  {
    hide Fair, ValidBill;
  }

  /** A verification settles at most the payment's own invoice, and by it. */
  lemma VerifySettles(db: Db, p: nat, response: VerifyResponse, now: int, faults: Faults, j: nat)
    requires j < |Verify(db, p, response, now, faults).invoices|
    ensures var end := Verify(db, p, response, now, faults);
            (j < |db.invoices| && end.invoices[j] == db.invoices[j]) || SettledBy(end, j, p)
  {
    hide MarkPaid, AcceptPayment, PostDirect, SettledBy;
    if Verified(db, p, response, now) {
      AcceptPaymentSafe(db, p, response.tracking, now, faults);
      var accepted := AcceptPayment(db, p, response.tracking, now, faults);
      if InvoiceIssued(db, p) {
        var i := db.payments[p].invoice.value;
        if CanBePaid(accepted, i, Some(p)) {
          var paid := MarkPaid(accepted, i, Some(p), "", "", now, faults);
          MarkPaidSettlesOne(accepted, i, Some(p), "", "", now, faults);
          MarkPaidSettles(accepted, i, p, "", "", now, faults);
          PostDirectTouchesNoInvoice(paid, p, faults);
          SameSettled(paid, PostDirect(paid, p, faults), i, p);
        }
      } else {
        PostDirectTouchesNoInvoice(accepted, p, faults);
      }
    }
  }

  lemma CashSettles(db: Db, i: nat, payment: Payment, reference: string, now: int, faults: Faults, j: nat)
    requires payment.status == Paid
    requires var received, p := db.(payments := db.payments + [payment]), Some(|db.payments|);
             CanBePaid(received, i, p) && j < |MarkPaid(received, i, p, "cash", reference, now, faults).invoices|
    ensures var received, p := db.(payments := db.payments + [payment]), Some(|db.payments|);
            var end := MarkPaid(received, i, p, "cash", reference, now, faults);
            && end.payments == received.payments && end.policies == db.policies
            && ((j < |db.invoices| && end.invoices[j] == db.invoices[j]) || SettledBy(end, j, |db.payments|))
  {
    hide MarkPaid, SettledBy;
    var received, p := db.(payments := db.payments + [payment]), Some(|db.payments|);
    MarkPaidSettlesOne(received, i, p, "cash", reference, now, faults);
    MarkPaidKeepsBills(received, i, p, "cash", reference, now, faults);
    MarkPaidSettles(received, i, |db.payments|, "cash", reference, now, faults);
  }

  lemma TechnicianCashSettles(db: Db, i: nat, reference: string, now: int, faults: Faults, j: nat)
    requires j < |TechnicianCash(db, i, reference, now, faults).invoices|
    ensures var end := TechnicianCash(db, i, reference, now, faults);
            (j < |db.invoices| && end.invoices[j] == db.invoices[j]) || SettledBy(end, j, |db.payments|)
  {
    hide MarkPaid, SettledBy, Supersede, CanBePaid;
    if i < |db.invoices| && TechnicianCash(db, i, reference, now, faults) != db {
      var payment := CashPayment(db, i, reference, true, now, Some(now));
      var received, p := db.(payments := db.payments + [payment]), |db.payments|;
      var paid := MarkPaid(received, i, Some(p), "cash", reference, now, faults);
      CashSettles(db, i, payment, reference, now, faults, j);
      if SettledBy(paid, j, p) {
        InRange(paid, j, p);
        SameSettled(paid, paid.(payments := CancelAbandoned(paid.payments, i, db.invoices[i].company, p)), j, p);
      }
    }
  }

  lemma InRange(db: Db, i: nat, p: nat)
    requires SettledBy(db, i, p)
    ensures i < |db.invoices| && p < |db.payments| && db.payments[p].status == Paid
  {
  }

  lemma AdminCashSettles(db: Db, i: nat, byTechnician: bool, now: int, faults: Faults, j: nat)
    requires j < |AdminCash(db, i, byTechnician, now, faults).invoices|
    ensures var end := AdminCash(db, i, byTechnician, now, faults);
            (j < |db.invoices| && end.invoices[j] == db.invoices[j]) || SettledBy(end, j, |db.payments|)
  {
    hide MarkPaid, SettledBy, CanBePaid;
    if i < |db.invoices| && AdminCash(db, i, byTechnician, now, faults) != db {
      CashSettles(db, i, CashPayment(db, i, "", byTechnician, now, None), "", now, faults, j);
    }
  }

  /** Invoices a step leaves settled were so before, or are settled by it. */
  lemma StepSettles(db: Db, a: Action, j: nat)
    requires Sound(db)
    requires j < |Apply(db, a).invoices| && Apply(db, a).invoices[j].settlement.Some?
    ensures var end := Apply(db, a);
            (j < |db.invoices| && end.invoices[j] == db.invoices[j]) || exists p :: SettledBy(end, j, p)
  {
    hide SettledBy, Verify, TechnicianCash, AdminCash, ProcessTask, InvoiceTotal, Total100, FindByReference, Blank;
    match a
    case DoCallback(company, reference, response, now, faults) =>
      var found := FindByReference(db.payments, company, reference, |db.payments|);
      if found.Some? && !Blank(reference) { VerifySettles(db, found.value, response, now, faults, j); }
    case DoTechnicianCash(i, reference, now, faults) => TechnicianCashSettles(db, i, reference, now, faults, j);
    case DoAdminCash(i, byTechnician, now, faults) => AdminCashSettles(db, i, byTechnician, now, faults, j);
    case DoProcess(t, faults, recordFault) => ProcessKeepsInvoices(db, t, faults, recordFault);
    case _ => InvoiceStepSettlesNone(db, a, j);
  }

  lemma ProcessKeepsInvoices(db: Db, t: nat, faults: Faults, recordFault: bool)
    ensures ProcessTask(db, t, faults, recordFault).invoices == db.invoices
  {
    if t < |db.tasks| { RetryTouchesNoInvoice(db, db.tasks[t], faults); }
    hide Retry;
  }

  lemma InvoiceStepSettlesNone(db: Db, a: Action, j: nat)
    requires InvoiceAction(a) && Sound(db)
    requires j < |Apply(db, a).invoices| && Apply(db, a).invoices[j].settlement.Some?
    ensures j < |db.invoices| && Apply(db, a).invoices[j] == db.invoices[j]
  {
    hide Callback, TechnicianCash, AdminCash, ProcessTask, InvoiceTotal, Total100;
  }

  lemma StepKeepsSettled(db: Db, a: Action)
    requires Sound(db) && AllSettled(db)
    ensures AllSettled(Apply(db, a))
  {
    var end := Apply(db, a);
    StepIsSafe(db, a);
    PoliciesStay(db, a);
    hide Sound, Apply, SettledBy;
    forall j | 0 <= j < |end.invoices| && end.invoices[j].settlement.Some?
      ensures exists p :: SettledBy(end, j, p)
    {
      StepSettles(db, a, j);
      if j < |db.invoices| && end.invoices[j] == db.invoices[j] {
        var p :| SettledBy(db, j, p);
        InRange(db, j, p);
        SameSettled(db, end, j, p);
      }
    }
  }

  /** Over every run: whatever the interleaving, every paid invoice was paid by one of its
      company's payments over exactly its total, and its wage is the fair one. */
  lemma {:induction false} EveryRunSettlesFairly(db: Db, actions: seq<Action>)
    requires Sound(db) && AllSettled(db)
    ensures AllSettled(Run(db, actions))
    decreases |actions|
  {
    if actions != [] {
      hide Sound, AllSettled, Apply, Advances;
      StepIsSafe(db, actions[0]);
      StepKeepsSettled(db, actions[0]);
      EveryRunSettlesFairly(Apply(db, actions[0]), actions[1..]);
    }
  }

  /** The wage everything else reads is that of the fair split. */
  lemma WageIsFair(db: Db, i: nat)
    requires AllSettled(db) && i < |db.invoices| && db.invoices[i].settlement.Some? && ValidBill(db.invoices[i].bill)
    ensures var s := db.invoices[i].settlement.value;
            Wage(db.invoices[i]) == s.split.finalTech
            && Fair(db.invoices[i].bill, s.split, s.extraPolicy, s.campaignPolicy)
  {
    var p :| SettledBy(db, i, p);
    hide Fair, ValidBill;
  }
}
