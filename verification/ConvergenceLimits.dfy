/** Exactly when the retry queue repairs a verified payment.

    Three writes cannot be repaired. Retrying an escrow task also reserves and distributes,
    which the failure-free run does only for a payment that pays its invoice. A task is not
    created while the same invoice has one of that kind open, whatever its payment. And a
    direct settlement without its snapshot leaves no task at all. */
module ConvergenceLimits {
  import opened Options
  import opened Ledgers
  import LedgerRace
  import opened Escrows
  import opened WageSplit
  import opened EscrowAgreement
  import opened PaymentFlow
  import opened PaymentSafety
  import opened RetryConvergence

  predicate OnlyRetries(actions: seq<Action>) {
    forall k :: 0 <= k < |actions| ==> actions[k].DoProcess?
  }

  /** The payment verified with these faults, then retried. */
  function After(db: Db, p: nat, response: VerifyResponse, now: int, faults: Faults, retries: seq<Action>): Db {
    Run(Verify(db, p, response, now, faults), retries)
  }

  predicate SameMoney(a: Db, b: Db) {
    && a.invoices == b.invoices && a.payments == b.payments && a.escrows == b.escrows
    && LedgerRace.SameEntries(a.technicianRows, b.technicianRows)
    && LedgerRace.SameEntries(a.feeRows, b.feeRows)
  }

  /** Whatever fails and however it is retried, once every task is resolved the outcome is
      that of the failure-free state `c` after a failure-free verification. */
  ghost predicate AlwaysRepaired(db: Db, c: Db, p: nat, response: VerifyResponse, now: int) {
    forall faults, retries ::
      OnlyRetries(retries) && NoOpenTasks(After(db, p, response, now, faults, retries)) ==>
        SameMoney(After(db, p, response, now, faults, retries), Verify(c, p, response, now, NO_FAULTS))
  }

  // ------------------------------------------------------------------ The condition

  /** Commission and wage fit into the payment, so its escrow can be split. */
  predicate SplitFits(db: Db, p: nat)
    requires PaysInvoice(db, p)
  {
    var i := db.payments[p].invoice.value;
    0 <= FrozenWage(db, i) && Commission(db, i) + FrozenWage(db, i) <= db.payments[p].amount
  }

  /** A failed escrow record of a payment whose invoice does not wait for it: either no task
      is created for it, or its task distributes what should be held. */
  predicate LosesEscrow(db: Db, p: nat)
    requires p < |db.payments|
  {
    && db.payments[p].ThroughPlatform() && !InvoiceIssued(db, p)
    && (|| HasOpenTask(db.tasks, EscrowTask, db.payments[p].company, db.payments[p].invoice)
        || (PaysInvoice(db, p) && SplitFits(db, p)))
  }

  /** A direct settlement is due, and nothing else keeps a task open for ever. */
  predicate LosesDirect(db: Db, p: nat)
    requires p < |db.payments|
  {
    DirectOwed(db, p) && (InvoiceIssued(db, p) ==> SplitFits(db, p))
  }

  /** Every open task would succeed now. */
  predicate AllResolvable(db: Db) {
    forall t :: 0 <= t < |db.tasks| && db.tasks[t].status != Resolved ==> !Retry(db, db.tasks[t], NO_FAULTS).raised
  }

  /** The failing branches. */
  predicate Misrepaired(db: Db, p: nat)
    requires p < |db.payments|
  {
    AllResolvable(db) && (LosesEscrow(db, p) || LosesDirect(db, p))
  }

  /** For every state a guarded run reaches, open tasks and all, next to its failure-free
      counterpart `c`. */
  lemma RepairedIff(db: Db, c: Db, p: nat, response: VerifyResponse, now: int)
    requires Linked(db, c) && Verified(db, p, response, now)
    ensures AlwaysRepaired(db, c, p, response, now) <==> !Misrepaired(db, p)
  {
    assert p < |db.payments|;
    hide Linked, Verified, AllResolvable, LosesEscrow, LosesDirect, SameMoney, After;
    if Misrepaired(db, p) {
      if LosesEscrow(db, p) {
        EscrowIsLost(db, c, p, response, now);
      } else {
        DirectIsLost(db, c, p, response, now);
      }
    } else {
      forall faults, retries | OnlyRetries(retries) && NoOpenTasks(After(db, p, response, now, faults, retries))
        ensures SameMoney(After(db, p, response, now, faults, retries), Verify(c, p, response, now, NO_FAULTS))
      {
        RepairedOtherwise(db, c, p, response, now, faults, retries);
      }
    }
  }

  lemma RepairedOtherwise(db: Db, c: Db, p: nat, response: VerifyResponse, now: int, faults: Faults,
      retries: seq<Action>)
    requires Linked(db, c) && Verified(db, p, response, now) && !Misrepaired(db, p)
    requires OnlyRetries(retries) && NoOpenTasks(After(db, p, response, now, faults, retries))
    ensures SameMoney(After(db, p, response, now, faults, retries), Verify(c, p, response, now, NO_FAULTS))
  {
    hide Linked, Verify, NoOpenTasks, GuardedPayment;
    if GuardedPayment(db, p, response, now, faults) {
      VerifyLinked(db, c, p, response, now, faults);
      RetriesKeepLink(Verify(db, p, response, now, faults), Verify(c, p, response, now, NO_FAULTS), retries);
      LinkedAndResolved(After(db, p, response, now, faults, retries), Verify(c, p, response, now, NO_FAULTS),
          Company(0));
    } else {
      var t, q := StuckAfter(db, c, p, response, now, faults);
      StuckForever(Verify(db, p, response, now, faults), t, q, retries);
      StuckIsOpen(Run(Verify(db, p, response, now, faults), retries), t, q);
      assert false;
    }
  }

  lemma {:induction false} RetriesKeepLink(s: Db, c: Db, retries: seq<Action>)
    requires Linked(s, c) && OnlyRetries(retries)
    ensures Linked(Run(s, retries), c)
    decreases |retries|
  {
    if retries != [] {
      var a := retries[0];
      RetryIs(s, a);
      hide Linked, ProcessTask, Apply;
      ProcessLinked(s, c, a.task, a.faults, a.recordFault);
      RetriesKeepLink(Apply(s, a), c, retries[1..]);
    }
  }

  lemma RetryIs(db: Db, a: Action)
    requires a.DoProcess?
    ensures Apply(db, a) == ProcessTask(db, a.task, a.faults, a.recordFault)
  {
    hide ProcessTask;
  }

  // --------------------------------------------------------- When a retry raises

  /** The record an escrow retry works on. */
  function RecordFor(db: Db, q: nat, invoice: Option<nat>): Option<Record> {
    if q in db.escrows then Some(db.escrows[q])
    else if q < |db.payments| && db.payments[q].ThroughPlatform() then Some(HeldRecord(invoice, db.payments[q].amount))
    else None
  }

  /** A record that is not distributed yet and whose split does not fit. */
  predicate Blocked(db: Db, q: nat, invoice: Option<nat>) {
    && invoice.Some? && invoice.value < |db.invoices|
    && var i, r := invoice.value, RecordFor(db, q, invoice);
       && r.Some? && r.value.status in {Held, Reserved}
       && ReserveAndDistribute(r.value, i, Commission(db, i), Wage(db.invoices[i])).status != Distributed
  }

  /** Without a fault a retry only raises when its escrow is blocked or it lost what it
      needs, and then it raises whatever else fails. */
  lemma RetryRaises(db: Db, task: Task)
    ensures Retry(db, task, NO_FAULTS).raised
            <==> match task.kind
                 case EscrowTask =>
                     LostInvoice(db, task) || task.payment.None? || Blocked(db, task.payment.value, task.invoice)
                 case DirectTask => task.payment.None?
                 case _ => LostInvoice(db, task)
    ensures Retry(db, task, NO_FAULTS).raised ==> forall faults :: Retry(db, task, faults).raised
  {
    hide PlatformFee, Wage, InvoiceEntries, Facts, FeeEntries, DirectEntries, Post;
    match task.kind
    case EscrowTask =>
      if !LostInvoice(db, task) && task.payment.Some? { EscrowRetryRaises(db, task); }
    case _ =>
  }

  lemma EscrowRetryRaises(db: Db, task: Task)
    requires task.kind == EscrowTask && !LostInvoice(db, task) && task.payment.Some?
    ensures Retry(db, task, NO_FAULTS).raised <==> Blocked(db, task.payment.value, task.invoice)
    ensures Blocked(db, task.payment.value, task.invoice) ==> forall faults :: Retry(db, task, faults).raised
  {
    hide PlatformFee, Wage, Reserve, Distribute;
  }

  // -------------------------------------------------- Tasks that are never resolved

  /** A blocked escrow task of payment `q`; every such task of it is. */
  predicate Stuck(db: Db, t: nat, q: nat) {
    && t < |db.tasks| && IsEscrowOf(db.tasks[t], q)
    && forall u :: 0 <= u < |db.tasks| && IsEscrowOf(db.tasks[u], q) ==> Hopeless(db, db.tasks[u])
  }

  /** An open escrow task of payment `q`. */
  predicate IsEscrowOf(task: Task, q: nat) {
    task.kind == EscrowTask && task.status != Resolved && task.payment == Some(q)
  }

  predicate Hopeless(db: Db, task: Task) {
    task.status == Waiting && Retry(db, task, NO_FAULTS).raised
  }

  lemma StuckIsOpen(db: Db, t: nat, q: nat)
    requires Stuck(db, t, q)
    ensures !NoOpenTasks(db)
  {
    assert db.tasks[t].status != Resolved;
    hide Hopeless;
  }

  /** Facts that decide whether escrow tasks of `q` are blocked are the same. */
  lemma SameBlocking(a: Db, b: Db, task: Task, attempts: nat, q: nat)
    requires SameFacts(a, b) && Lookup(a.escrows, q) == Lookup(b.escrows, q) && IsEscrowOf(task, q)
    ensures Hopeless(a, task) ==> Hopeless(b, task.(attempts := attempts))
  {
    RetryRaises(a, task);
    RetryRaises(b, task.(attempts := attempts));
    hide Retry, PlatformFee, Wage, ReserveAndDistribute;
  }

  /** Processing a task changes no other payment's escrow. */
  lemma ProcessElsewhere(db: Db, u: nat, faults: Faults, recordFault: bool, q: nat)
    requires u < |db.tasks| && db.tasks[u].status == Waiting
    ensures var end := ProcessTask(db, u, faults, recordFault);
            && SameFacts(db, end)
            && (exists status, attempts :: end.tasks
                 == db.tasks[u := db.tasks[u].(status := status, attempts := attempts)])
            && (db.tasks[u].kind != EscrowTask || db.tasks[u].payment != Some(q) ==>
                 Lookup(end.escrows, q) == Lookup(db.escrows, q))
            && (Retry(db, db.tasks[u], faults).raised ==>
                  end.escrows == db.escrows
                  && exists attempts :: end.tasks == db.tasks[u := db.tasks[u].(attempts := attempts)])
  {
    var task := db.tasks[u];
    RetryElsewhere(db, task, faults, q);
    hide Retry;
    assert task.(attempts := task.attempts) == task && db.tasks[u := task] == db.tasks;
    var end := ProcessTask(db, u, faults, recordFault);
    assert end.tasks == db.tasks[u := task.(status := end.tasks[u].status, attempts := end.tasks[u].attempts)];
    if Retry(db, task, faults).raised {
      assert end.tasks == db.tasks[u := task.(attempts := end.tasks[u].attempts)];
    }
  }

  lemma RetryElsewhere(db: Db, task: Task, faults: Faults, q: nat)
    ensures var end := Retry(db, task, faults).db;
            && SameFacts(db, end) && end.tasks == db.tasks
            && (task.kind != EscrowTask || task.payment != Some(q) ==> Lookup(end.escrows, q) == Lookup(db.escrows, q))
  {
    hide CreateEscrow, DistributeEscrow, WriteLedger, WriteFee, WriteDirect;
    if task.kind == EscrowTask {
      if !LostInvoice(db, task) && task.payment.Some? { EscrowElsewhere(db, task, faults, q); }
    } else {
      RowsOnly(db, task, faults);
    }
  }

  lemma EscrowElsewhere(db: Db, task: Task, faults: Faults, q: nat)
    requires task.kind == EscrowTask && !LostInvoice(db, task) && task.payment.Some?
    ensures var end := Retry(db, task, faults).db;
            && SameFacts(db, end) && end.tasks == db.tasks
            && (task.payment != Some(q) ==> Lookup(end.escrows, q) == Lookup(db.escrows, q))
  {
    hide Commission, Wage, Reserve, Distribute;
  }

  lemma RowsOnly(db: Db, task: Task, faults: Faults)
    requires task.kind != EscrowTask
    ensures var end := Retry(db, task, faults).db;
            SameFacts(db, end) && end.tasks == db.tasks && end.escrows == db.escrows
  {
    hide InvoiceEntries, Facts, FeeEntries, DirectEntries, Post;
  }

  lemma StuckStep(db: Db, t: nat, q: nat, u: nat, faults: Faults, recordFault: bool)
    requires Stuck(db, t, q)
    ensures Stuck(ProcessTask(db, u, faults, recordFault), t, q)
  {
    if u < |db.tasks| && db.tasks[u].status == Waiting {
      var end := ProcessTask(db, u, faults, recordFault);
      ProcessElsewhere(db, u, faults, recordFault, q);
      if IsEscrowOf(db.tasks[u], q) { RetryRaises(db, db.tasks[u]); }
      hide Retry, ProcessTask, Hopeless;
      assert Hopeless(db, db.tasks[t]);
      forall v | 0 <= v < |end.tasks| && IsEscrowOf(end.tasks[v], q)
        ensures Hopeless(end, end.tasks[v])
      {
        SameBlocking(db, end, db.tasks[v], end.tasks[v].attempts, q);
      }
    }
  }

  lemma {:induction false} StuckForever(db: Db, t: nat, q: nat, retries: seq<Action>)
    requires Stuck(db, t, q) && OnlyRetries(retries)
    ensures Stuck(Run(db, retries), t, q)
    decreases |retries|
  {
    if retries != [] {
      var a := retries[0];
      RetryIs(db, a);
      StuckStep(db, t, q, a.task, a.faults, a.recordFault);
      hide Stuck, Apply, ProcessTask;
      StuckForever(Apply(db, a), t, q, retries[1..]);
    }
  }

  // ---------------------------------------------- What a verification leaves alone

  /** From one state to the other only tasks and the escrow record of payment `p` came. */
  predicate Grows(a: Db, b: Db, p: nat) {
    && b.policies == a.policies && a.tasks <= b.tasks
    && (forall t :: |a.tasks| <= t < |b.tasks| ==> b.tasks[t].payment == Some(p))
    && b.escrows - {p} == a.escrows - {p}
  }

  lemma GrowsOn(a: Db, b: Db, c: Db, p: nat)
    requires Grows(a, b, p) && Grows(b, c, p)
    ensures Grows(a, c, p)
  {
  }

  lemma OrElseGrows(db: Db, attempt: Attempt, kind: TaskKind, company: nat, invoice: Option<nat>, p: nat)
    requires Grows(db, attempt.db, p)
    ensures Grows(db, OrElseTask(attempt, kind, company, invoice, Some(p)), p)
  {
  }

  lemma PostPaidGrows(db: Db, i: nat, p: nat, faults: Faults)
    requires i < |db.invoices|
    ensures Grows(db, PostPaid(db, i, Some(p), faults), p)
  {
    hide OrElseTask, InvoiceEntries, Facts, FeeEntries, Commission, Wage, ReserveAndDistribute, Post, Grows;
    var company := db.invoices[i].company;
    DistributeGrows(db, i, p, faults);
    OrElseGrows(db, DistributeEscrow(db, i, Some(p), faults), EscrowTask, company, Some(i), p);
    var escrowed := OrElseTask(DistributeEscrow(db, i, Some(p), faults), EscrowTask, company, Some(i), Some(p));
    OrElseKeeps(DistributeEscrow(db, i, Some(p), faults), EscrowTask, company, Some(i), p);
    LedgerGrows(escrowed, i, p, faults);
    OrElseGrows(escrowed, WriteLedger(escrowed, i, Some(p), faults), LedgerTask, company, Some(i), p);
    var credited := OrElseTask(WriteLedger(escrowed, i, Some(p), faults), LedgerTask, company, Some(i), Some(p));
    OrElseKeeps(WriteLedger(escrowed, i, Some(p), faults), LedgerTask, company, Some(i), p);
    FeeGrows(credited, i, p, faults);
    OrElseGrows(credited, WriteFee(credited, i, Some(p), faults), FeeTask, company, Some(i), p);
    var end := OrElseTask(WriteFee(credited, i, Some(p), faults), FeeTask, company, Some(i), Some(p));
    GrowsOn(db, escrowed, credited, p);
    GrowsOn(db, credited, end, p);
  }

  lemma OrElseKeeps(attempt: Attempt, kind: TaskKind, company: nat, invoice: Option<nat>, p: nat)
    ensures var end := OrElseTask(attempt, kind, company, invoice, Some(p));
            end.invoices == attempt.db.invoices && end.payments == attempt.db.payments
  {
  }

  lemma DistributeGrows(db: Db, i: nat, p: nat, faults: Faults)
    requires i < |db.invoices|
    ensures Grows(db, DistributeEscrow(db, i, Some(p), faults).db, p)
  {
    hide Commission, Wage, ReserveAndDistribute;
  }

  lemma LedgerGrows(db: Db, i: nat, p: nat, faults: Faults)
    requires i < |db.invoices|
    ensures Grows(db, WriteLedger(db, i, Some(p), faults).db, p)
  {
    hide InvoiceEntries, Facts, Post;
  }

  lemma FeeGrows(db: Db, i: nat, p: nat, faults: Faults)
    requires i < |db.invoices|
    ensures Grows(db, WriteFee(db, i, Some(p), faults).db, p)
  {
    hide FeeEntries, Post;
  }

  lemma DirectGrows(db: Db, p: nat, faults: Faults)
    ensures Grows(db, PostDirect(db, p, faults), p)
  {
    hide DirectEntries, Post;
  }

  lemma AcceptGrows(db: Db, p: nat, tracking: string, now: int, faults: Faults)
    requires p < |db.payments|
    ensures Grows(db, AcceptPayment(db, p, tracking, now, faults), p)
  {
  }

  lemma SettleGrows(db: Db, i: nat, p: nat, now: int)
    requires i < |db.invoices|
    ensures Grows(db, Settle(db, i, Some(p), "", "", now), p)
  {
    hide CalculateSplit, MethodOf, ReferenceOf;
  }

  lemma VerifyGrows(db: Db, p: nat, response: VerifyResponse, now: int, faults: Faults)
    requires Verified(db, p, response, now)
    ensures Grows(db, Verify(db, p, response, now, faults), p)
  {
    hide Grows, AcceptPayment, PostDirect, MarkPaid, CanBePaid;
    SelfGrows(db, p);
    var accepted := AcceptPayment(db, p, response.tracking, now, faults);
    AcceptGrows(db, p, response.tracking, now, faults);
    if InvoiceIssued(db, p) {
      var i := db.payments[p].invoice.value;
      if CanBePaid(accepted, i, Some(p)) {
        MarkPaidGrows(accepted, i, p, now, faults);
        var paid := MarkPaid(accepted, i, Some(p), "", "", now, faults);
        DirectGrows(paid, p, faults);
        GrowsOn(db, accepted, paid, p);
        GrowsOn(db, paid, PostDirect(paid, p, faults), p);
      }
    } else {
      DirectGrows(accepted, p, faults);
      GrowsOn(db, accepted, PostDirect(accepted, p, faults), p);
    }
  }

  lemma SelfGrows(db: Db, p: nat)
    ensures Grows(db, db, p)
  {
  }

  lemma MarkPaidGrows(db: Db, i: nat, p: nat, now: int, faults: Faults)
    requires CanBePaid(db, i, Some(p))
    ensures Grows(db, MarkPaid(db, i, Some(p), "", "", now, faults), p)
  {
    hide Grows, PostPaid, Settle;
    var settled := Settle(db, i, Some(p), "", "", now);
    SettleGrows(db, i, p, now);
    assert i < |settled.invoices| by { SettleKeepsCount(db, i, p, now); }
    PostPaidGrows(settled, i, p, faults);
    GrowsOn(db, settled, PostPaid(settled, i, Some(p), faults), p);
  }

  lemma SettleKeepsCount(db: Db, i: nat, p: nat, now: int)
    requires i < |db.invoices|
    ensures |Settle(db, i, Some(p), "", "", now).invoices| == |db.invoices|
  {
  }

  /** An old open task raises after a verification exactly when it did before. */
  lemma OldTaskRaises(db: Db, end: Db, p: nat, task: Task)
    requires Finishable(db, task) && Advances(db, end) && Grows(db, end, p)
    requires p < |db.payments| && db.payments[p].status != Paid
    ensures Retry(end, task, NO_FAULTS).raised <==> Retry(db, task, NO_FAULTS).raised
    ensures task.payment != Some(p)
  {
    RetryRaises(db, task);
    RetryRaises(end, task);
    if task.kind == EscrowTask { SameElsewhere(db.escrows, end.escrows, p, task.payment.value); }
    hide Retry, PlatformFee, ReserveAndDistribute;
  }

  // ---------------------------------------------------------- Stuck, one way or other

  /** An unguarded payment that is not among the failing branches leaves a task that can
      never be resolved. */
  lemma StuckAfter(db: Db, c: Db, p: nat, response: VerifyResponse, now: int, faults: Faults) returns (t: nat, q: nat)
    requires Linked(db, c) && Verified(db, p, response, now) && !Misrepaired(db, p)
    requires !GuardedPayment(db, p, response, now, faults)
    ensures Stuck(Verify(db, p, response, now, faults), t, q)
  {
    LinkedFacts(db, c);
    LinkedTasks(db, c);
    hide Linked, Verify, Stuck, DirectOwed, Sound, Consistent, TasksFinishable, SplitFits, HasOpenTask;
    if !AllResolvable(db) {
      t, q := OldStuck(db, p, response, now, faults);
    } else if !InvoiceIssued(db, p) {
      assert faults.create && db.payments[p].ThroughPlatform();
      t, q := |db.tasks|, p;
      NewStuckUnissued(db, p, response, now, faults);
    } else {
      assert faults.snapshot && DirectOwed(db, p) && !SplitFits(db, p);
      t, q := |db.tasks|, p;
      NewStuckIssued(db, c, p, response, now, faults);
    }
  }

  lemma LinkedTasks(s: Db, c: Db)
    requires Linked(s, c)
    ensures TasksFinishable(s) && Consistent(s) && Consistent(c)
  {
  }

  lemma OldStuck(db: Db, p: nat, response: VerifyResponse, now: int, faults: Faults) returns (t: nat, q: nat)
    requires Sound(db) && TasksFinishable(db) && Verified(db, p, response, now) && !AllResolvable(db)
    ensures Stuck(Verify(db, p, response, now, faults), t, q)
  {
    hide Verify, Sound, Advances, Retry, Blocked;
    var end := Verify(db, p, response, now, faults);
    VerifyGrows(db, p, response, now, faults);
    VerifySafe(db, p, response, now, faults);
    t :| 0 <= t < |db.tasks| && db.tasks[t].status != Resolved && Retry(db, db.tasks[t], NO_FAULTS).raised;
    assert Finishable(db, db.tasks[t]);
    RetryRaises(db, db.tasks[t]);
    q := db.tasks[t].payment.value;
    forall u | 0 <= u < |end.tasks| && IsEscrowOf(end.tasks[u], q)
      ensures Hopeless(end, end.tasks[u])
    {
      OldTaskRaises(db, end, p, db.tasks[t]);
      assert u < |db.tasks| && end.tasks[u] == db.tasks[u];
      assert Finishable(db, db.tasks[u]);
      RetryRaises(db, db.tasks[u]);
      OldTaskRaises(db, end, p, db.tasks[u]);
    }
  }

  /** What a failed creation leaves when the invoice does not wait: the task, if there was
      none for the invoice, and no record. */
  lemma UnissuedIs(db: Db, p: nat, response: VerifyResponse, now: int, faults: Faults)
    requires Verified(db, p, response, now) && !InvoiceIssued(db, p)
    requires p !in db.escrows && db.payments[p].ThroughPlatform() && faults.create
    ensures var end := Verify(db, p, response, now, faults);
            var payment := db.payments[p];
            && end.escrows == db.escrows && end.invoices == db.invoices && end.policies == db.policies
            && end.payments == db.payments[p := payment.(status := Paid, tracking := response.tracking,
                 paidAt := Some(now))]
            && var tasks := CreateTask(db.tasks, EscrowTask, payment.company, payment.invoice, Some(p));
               tasks <= end.tasks
               && (!faults.direct ==> end.tasks == tasks)
               && forall t :: |tasks| <= t < |end.tasks| ==>
                    end.tasks[t].kind == DirectTask && end.tasks[t].status == Waiting
                                                             && end.tasks[t].payment == Some(p)
  {
    VerifyHoldsIs(db, p, response, now, faults);
    hide Verify, DirectEntries, CreateTask;
    var accepted := AcceptPayment(db, p, response.tracking, now, faults);
    DirectLeaves(accepted, p, faults);
    hide PostDirect;
  }

  lemma DirectLeaves(db: Db, p: nat, faults: Faults)
    requires p < |db.payments|
    ensures var end := PostDirect(db, p, faults);
            && end.escrows == db.escrows && SameFacts(db, end) && end.feeRows == db.feeRows
            && (end.tasks == db.tasks || end.tasks == db.tasks + [DirectTaskOf(db, p)])
            && (!faults.direct ==> end.tasks == db.tasks)
            && (faults.snapshot ==> end == db)
  {
    hide DirectEntries, Post, HasOpenTask;
  }

  lemma NewStuckUnissued(db: Db, p: nat, response: VerifyResponse, now: int, faults: Faults)
    requires Consistent(db) && TasksFinishable(db) && Verified(db, p, response, now) && !InvoiceIssued(db, p)
    requires faults.create && db.payments[p].ThroughPlatform() && !LosesEscrow(db, p)
    ensures Stuck(Verify(db, p, response, now, faults), |db.tasks|, p)
  {
    NoEscrowBefore(db, p);
    UnissuedIs(db, p, response, now, faults);
    var end := Verify(db, p, response, now, faults);
    var task := Task(EscrowTask, db.payments[p].company, db.payments[p].invoice, Some(p), Waiting, 0);
    assert CreateTask(db.tasks, EscrowTask, db.payments[p].company, db.payments[p].invoice, Some(p))
           == db.tasks + [task];
    assert end.tasks[|db.tasks|] == task;
    hide Verify, Consistent, TasksFinishable, HasOpenTask, CreateTask, HasOpenEscrowTask, FrozenWage;
    if PaysInvoice(db, p) { UnsettledWage(db, p); }
    CannotSplit(db, end, p, task);
    hide LosesEscrow, SplitFits, Hopeless;
    OnlyOneAfter(db.tasks, end.tasks, task, p);
  }

  lemma OnlyOneAfter(earlier: seq<Task>, tasks: seq<Task>, task: Task, p: nat)
    requires !HasOpenEscrowTask(earlier, p) && earlier + [task] <= tasks
    requires forall u :: |earlier| < u < |tasks| ==> !IsEscrowOf(tasks[u], p)
    ensures forall u :: 0 <= u < |tasks| && IsEscrowOf(tasks[u], p) ==> u == |earlier| && tasks[u] == task
  {
    assert (earlier + [task])[|earlier|] == tasks[|earlier|];
    assert earlier <= tasks;
    hide HasOpenEscrowTask;
    forall u: nat | u < |earlier|
      ensures !IsEscrowOf(tasks[u], p)
    {
      NoneAmong(earlier, tasks, u, p);
    }
  }

  lemma NoneAmong(earlier: seq<Task>, tasks: seq<Task>, u: nat, p: nat)
    requires !HasOpenEscrowTask(earlier, p) && earlier <= tasks && u < |earlier|
    ensures !IsEscrowOf(tasks[u], p)
  {
    assert earlier[u] == tasks[u];
  }

  /** An invoice that does not wait has the wage it is frozen with, if any. */
  lemma UnsettledWage(db: Db, p: nat)
    requires p < |db.payments| && !InvoiceIssued(db, p) && PaysInvoice(db, p)
    ensures FrozenWage(db, db.payments[p].invoice.value) == Wage(db.invoices[db.payments[p].invoice.value])
  {
    hide CalculateSplit;
  }

  lemma CannotSplit(db: Db, end: Db, p: nat, task: Task)
    requires p < |db.payments| && db.payments[p].ThroughPlatform() && !InvoiceIssued(db, p) && !LosesEscrow(db, p)
    requires end.invoices == db.invoices && end.policies == db.policies && p !in end.escrows
    requires p < |end.payments| && end.payments[p].amount == db.payments[p].amount
             && end.payments[p].gateway == db.payments[p].gateway
    requires task == Task(EscrowTask, task.company, db.payments[p].invoice, Some(p), Waiting, 0)
    requires PaysInvoice(db, p) ==>
               FrozenWage(db, db.payments[p].invoice.value) == Wage(db.invoices[db.payments[p].invoice.value])
    ensures Hopeless(end, task)
  {
    RetryRaises(end, task);
    hide Retry, Wage, PlatformFee, FrozenWage, HasOpenTask;
  }

  /** What the rest of `mark_paid` leaves: more rows and tasks of its own kinds. */
  lemma RestLeaves(db: Db, i: nat, p: nat, faults: Faults)
    requires i < |db.invoices|
    ensures var end := Rest(db, i, p, faults);
            && SameFacts(db, end) && end.escrows == db.escrows && db.tasks <= end.tasks
            && forall t :: |db.tasks| <= t < |end.tasks| ==> end.tasks[t].kind in {LedgerTask, FeeTask}
  {
    hide TryLedger, TryFee;
    LedgerLeaves(db, i, p, faults);
    FeeLeaves(TryLedger(db, i, p, faults), i, p, faults);
  }

  lemma LedgerLeaves(db: Db, i: nat, p: nat, faults: Faults)
    requires i < |db.invoices|
    ensures var end := TryLedger(db, i, p, faults);
            && SameFacts(db, end) && end.escrows == db.escrows
            && (end.tasks == db.tasks || end.tasks == db.tasks + [LedgerTaskOf(db, i, p)])
  {
    hide InvoiceEntries, Facts, Post, HasOpenTask;
  }

  lemma FeeLeaves(db: Db, i: nat, p: nat, faults: Faults)
    requires i < |db.invoices|
    ensures var end := TryFee(db, i, p, faults);
            && SameFacts(db, end) && end.escrows == db.escrows
            && (end.tasks == db.tasks || end.tasks == db.tasks + [FeeTaskOf(db, i, p)])
  {
    hide FeeEntries, Post, HasOpenTask;
  }

  lemma UnwrittenParts(s: Db, c: Db, p: nat, i: nat)
    requires Unwritten(s, c, p, i)
    ensures p !in s.escrows && p !in c.escrows && !HasOpenEscrowTask(s.tasks, p) && NoOpenTask(s.tasks, EscrowTask, i)
    ensures NoRows(s.technicianRows, i) && NoRows(s.feeRows, i) && NoDirect(s.technicianRows, p)
    ensures NoOpenTask(s.tasks, LedgerTask, i) && NoOpenTask(s.tasks, FeeTask, i)
  {
  }

  /** Settling freezes the foreseen wage and changes nothing else that the split reads. */
  lemma SettlingBooks(db: Db, p: nat, i: nat, tracking: string, now: int)
    requires p < |db.payments| && i < |db.invoices| && db.payments[p].invoice == Some(i)
    requires db.invoices[i].status == Issued && db.invoices[i].settlement.None?
    ensures var settled := Settling(db, p, i, tracking, now);
            && i < |settled.invoices| && p < |settled.payments|
            && settled.policies == db.policies && settled.escrows == db.escrows && settled.tasks == db.tasks
            && settled.technicianRows == db.technicianRows && settled.feeRows == db.feeRows
            && Wage(settled.invoices[i]) == FrozenWage(db, i) && Commission(settled, i) == Commission(db, i)
            && settled.invoices[i].company == db.invoices[i].company && PaysInvoice(settled, p)
            && settled.payments[p] == db.payments[p].(status := Paid, tracking := tracking, paidAt := Some(now))
  {
    hide CalculateSplit, MethodOf, ReferenceOf;
  }

  /** Completing a new record distributes it exactly when the split fits. */
  lemma CompletesIffFits(db: Db, p: nat, i: nat, wage: int, commission: nat)
    requires PaysInvoice(db, p) && db.payments[p].invoice == Some(i) && p !in db.escrows
    requires wage == Wage(db.invoices[i]) && commission == Commission(db, i)
    ensures Complete(db, p).status == Distributed <==> 0 <= wage && commission + wage <= db.payments[p].amount
  {
    hide Wage, Commission;
  }

  /** A payment that pays its invoice, whose split does not fit: its escrow task stays. */
  lemma NewStuckIssued(db: Db, c: Db, p: nat, response: VerifyResponse, now: int, faults: Faults)
    requires Linked(db, c) && Verified(db, p, response, now) && InvoiceIssued(db, p)
    requires DirectOwed(db, p) && !SplitFits(db, p)
    ensures Stuck(Verify(db, p, response, now, faults), |db.tasks|, p)
  {
    hide Linked, Verify, Sound, Unwritten, PostDirect, Rest, TryEscrow, Complete, HasOpenEscrowTask, NoOpenTask,
      FrozenWage, Commission, NoRows, NoDirect, Settling, Blocked, Stuck, Wage;
    var i := db.payments[p].invoice.value;
    LinkedFacts(db, c);
    var settled := PayingIs(db, c, p, i, response, now, faults);
    BeforePayment(db, c, p, i);
    UnwrittenParts(db, c, p, i);
    CompletesIffFits(settled, p, i, FrozenWage(db, i), Commission(db, i));
    var tried := TryEscrow(settled, p, i, faults);
    var rested := Rest(tried, i, p, faults);
    var end := PostDirect(rested, p, faults);
    EscrowRaisesIfBlocked(settled, p, i, faults);
    RestLeaves(tried, i, p, faults);
    DirectLeaves(rested, p, faults);
    OnlyNewTask(db.tasks, tried, rested, end, p, i);
  }

  /** A verification that pays its invoice, write by write. */
  lemma PayingIs(db: Db, c: Db, p: nat, i: nat, response: VerifyResponse, now: int, faults: Faults)
    returns (settled: Db)
    requires SameFacts(db, c) && Sound(db) && Verified(db, p, response, now) && InvoiceIssued(db, p)
    requires db.payments[p].invoice == Some(i) && Lands(db, p)
    ensures i < |db.invoices| && db.invoices[i].status == Issued && db.invoices[i].settlement.None?
    ensures settled == Settling(db, p, i, response.tracking, now)
    ensures i < |settled.invoices| && p < |settled.payments|
    ensures settled.policies == db.policies && settled.escrows == db.escrows && settled.tasks == db.tasks
    ensures settled.technicianRows == db.technicianRows && settled.feeRows == db.feeRows
    ensures Wage(settled.invoices[i]) == FrozenWage(db, i) && Commission(settled, i) == Commission(db, i)
    ensures settled.invoices[i].company == db.invoices[i].company && PaysInvoice(settled, p)
            && RetryConvergence.Settled(settled, Some(i))
    ensures settled.payments[p].status == Paid && settled.payments[p].invoice == Some(i)
    ensures settled.payments[p].amount == db.payments[p].amount && settled.payments[p].gateway == db.payments[p].gateway
    ensures Verify(db, p, response, now, faults)
            == PostDirect(Rest(TryEscrow(settled, p, i, faults), i, p, faults), p, faults)
  {
    CanBePaidSame(db, c, p, i, response, now, faults);
    VerifyPaysIs(db, p, i, response, now, faults);
    MarkPaidIs(db, p, i, response.tracking, now, faults);
    settled := Settling(db, p, i, response.tracking, now);
    SettlingBooks(db, p, i, response.tracking, now);
    SettlingSafe(db, p, i, response.tracking, now);
    hide Verify, MarkPaid, AcceptPayment, CanBePaid, Settling, Sound, PostDirect, Rest, TryEscrow, Advances;
  }

  lemma EscrowRaisesIfBlocked(db: Db, p: nat, i: nat, faults: Faults)
    requires PaysInvoice(db, p) && db.payments[p].invoice == Some(i) && p !in db.escrows
    requires db.payments[p].ThroughPlatform() && NoOpenTask(db.tasks, EscrowTask, i)
             && Complete(db, p).status != Distributed
    ensures var end := TryEscrow(db, p, i, faults);
            var task := Task(EscrowTask, db.invoices[i].company, Some(i), Some(p), Waiting, 0);
            && SameFacts(db, end) && end.tasks == db.tasks + [task]
            && Blocked(end, p, Some(i))
  {
    var r, raised := TryEscrowCases(db, p, i, faults);
    NoOpenTaskIs(db.tasks, EscrowTask, db.invoices[i].company, i, p);
    hide TryEscrow, CreateTask, NoOpenTask, Wage, PlatformFee;
  }

  lemma OnlyNewTask(earlier: seq<Task>, tried: Db, rested: Db, end: Db, p: nat, i: nat)
    requires !HasOpenEscrowTask(earlier, p) && Blocked(tried, p, Some(i))
    requires |tried.tasks| == |earlier| + 1 && earlier <= tried.tasks
    requires var task := tried.tasks[|earlier|];
             IsEscrowOf(task, p) && task.status == Waiting && task.invoice == Some(i)
    requires SameFacts(tried, rested) && rested.escrows == tried.escrows && tried.tasks <= rested.tasks
    requires forall t :: |tried.tasks| <= t < |rested.tasks| ==> rested.tasks[t].kind in {LedgerTask, FeeTask}
    requires SameFacts(rested, end) && end.escrows == rested.escrows && p < |end.payments|
    requires end.tasks == rested.tasks || end.tasks == rested.tasks + [DirectTaskOf(rested, p)]
    ensures Stuck(end, |earlier|, p)
  {
    hide HasOpenEscrowTask, ReserveAndDistribute, Retry;
    assert Blocked(end, p, Some(i));
    hide Blocked;
    assert earlier <= end.tasks && end.tasks[|earlier|] == tried.tasks[|earlier|];
    RetryRaises(end, end.tasks[|earlier|]);
    assert Hopeless(end, end.tasks[|earlier|]);
    hide Hopeless;
    assert earlier + [tried.tasks[|earlier|]] == tried.tasks;
    OnlyOneAfter(earlier, end.tasks, tried.tasks[|earlier|], p);
  }

  // --------------------------------------------------------- Resolving what is open

  /** Payment `q`'s record is past distribution. */
  predicate PastDistribution(db: Db, q: nat) {
    q in db.escrows && db.escrows[q].status !in {Held, Reserved}
  }

  predicate HasOpenDirectTask(tasks: seq<Task>, q: nat) {
    exists t :: 0 <= t < |tasks| && tasks[t].kind == DirectTask && tasks[t].status != Resolved
        && tasks[t].payment == Some(q)
  }

  /** What a retry of task `t` that does not raise does to payment `q`. */
  lemma RetryEffect(db: Db, t: nat, q: nat)
    requires t < |db.tasks| && db.tasks[t].status == Waiting && !Retry(db, db.tasks[t], NO_FAULTS).raised
    ensures var end, task := ProcessTask(db, t, NO_FAULTS, false), db.tasks[t];
            && SameFacts(db, end)
            && end.tasks == db.tasks[t := task.(status := Resolved, attempts := task.attempts + 1)]
            && (!IsEscrowOf(task, q) ==> Lookup(end.escrows, q) == Lookup(db.escrows, q))
            && (IsEscrowOf(task, q) && q < |db.payments| && db.payments[q].ThroughPlatform() ==>
                 PastDistribution(end, q))
            && (IsEscrowOf(task, q) && !PastDistribution(end, q) ==> RecordFor(end, q, None) == None)
            && (PastDistribution(db, q) ==> PastDistribution(end, q))
            && (NoDirect(db.technicianRows, q) && !(task.kind == DirectTask && task.payment == Some(q)) ==>
                  NoDirect(end.technicianRows, q))
  {
    RetryElsewhere(db, db.tasks[t], NO_FAULTS, q);
    if NoDirect(db.technicianRows, q) && !(db.tasks[t].kind == DirectTask && db.tasks[t].payment == Some(q)) {
      RetryRows(db, db.tasks[t], q);
    }
    if IsEscrowOf(db.tasks[t], q) { RetryOfEscrow(db, db.tasks[t], q); }
    hide Retry, NoDirect;
  }

  lemma RetryRows(db: Db, task: Task, q: nat)
    requires NoDirect(db.technicianRows, q) && !(task.kind == DirectTask && task.payment == Some(q))
    ensures NoDirect(Retry(db, task, NO_FAULTS).db.technicianRows, q)
  {
    match task.kind
    case LedgerTask =>
      if !LostInvoice(db, task) { LedgerNotDirect(db, task.invoice.value, task.payment, q); }
    case DirectTask =>
      if task.payment.Some? { DirectOfOther(db, task.payment.value, q); }
    case FeeTask =>
      hide FeeEntries, Post;
    case EscrowTask =>
      hide Commission, Wage, ReserveAndDistribute;
  }

  lemma DirectOfOther(db: Db, p: nat, q: nat)
    requires p != q && NoDirect(db.technicianRows, q)
    ensures NoDirect(WriteDirect(db, p, NO_FAULTS).db.technicianRows, q)
  {
    var es := DirectEntries(db, p);
    assert es != [] ==> es[0].key == DirectSettlement(p);
    hide DirectEntries, GetBalance, HasKey;
  }

  lemma RetryOfEscrow(db: Db, task: Task, q: nat)
    requires IsEscrowOf(task, q) && !Retry(db, task, NO_FAULTS).raised
    ensures var end := Retry(db, task, NO_FAULTS).db;
            && (q < |db.payments| && db.payments[q].ThroughPlatform() ==> PastDistribution(end, q))
            && (!PastDistribution(end, q) ==> RecordFor(end, q, None) == None)
            && (PastDistribution(db, q) ==> PastDistribution(end, q))
  {
    hide Commission, Wage, Distribute;
  }

  /** A retry makes no other task raise. */
  lemma StillResolves(db: Db, end: Db, t: nat, task: Task)
    requires t < |db.tasks| && db.tasks[t].status == Waiting && !Retry(db, db.tasks[t], NO_FAULTS).raised
    requires end == ProcessTask(db, t, NO_FAULTS, false)
    requires !Retry(db, task, NO_FAULTS).raised
    ensures !Retry(end, task, NO_FAULTS).raised
  {
    RetryRaises(db, task);
    RetryRaises(end, task);
    var q := if task.payment.Some? then task.payment.value else 0;
    RetryEffect(db, t, q);
    hide Retry, ProcessTask, Wage, PlatformFee, ReserveAndDistribute, NoDirect;
  }

  predicate AllWaiting(db: Db) {
    forall t :: 0 <= t < |db.tasks| && db.tasks[t].status != Resolved ==> db.tasks[t].status == Waiting
  }

  /** Open tasks that would all succeed, processed one after the other. */
  lemma {:induction false} ResolveAll(db: Db, k: nat, q: nat) returns (retries: seq<Action>)
    requires k <= |db.tasks| && forall t :: 0 <= t < k ==> db.tasks[t].status == Resolved
    requires AllResolvable(db) && AllWaiting(db)
    ensures OnlyRetries(retries) && NoOpenTasks(Run(db, retries))
    ensures !HasOpenEscrowTask(db.tasks, q) ==> Lookup(Run(db, retries).escrows, q) == Lookup(db.escrows, q)
    ensures PastDistribution(db, q) ==> PastDistribution(Run(db, retries), q)
    ensures HasOpenEscrowTask(db.tasks, q) && q < |db.payments| && db.payments[q].ThroughPlatform() ==>
              PastDistribution(Run(db, retries), q)
    ensures NoDirect(db.technicianRows, q) && !HasOpenDirectTask(db.tasks, q) ==>
              NoDirect(Run(db, retries).technicianRows, q)
    decreases |db.tasks| - k
  {
    hide NoDirect, Retry, ProcessTask;
    if k == |db.tasks| {
      retries := [];
    } else if db.tasks[k].status == Resolved {
      retries := ResolveAll(db, k + 1, q);
    } else {
      var a := DoProcess(k, NO_FAULTS, false);
      var end := ProcessTask(db, k, NO_FAULTS, false);
      RetryEffect(db, k, q);
      RestResolves(db, end, k);
      OpenAfter(db.tasks, end.tasks, k, q);
      var rest := ResolveAll(end, k + 1, q);
      retries := [a] + rest;
      RetryIs(db, a);
      assert retries[1..] == rest;
      hide PastDistribution, HasOpenEscrowTask, HasOpenDirectTask, AllResolvable, AllWaiting, NoOpenTasks, Apply;
    }
  }

  lemma RestResolves(db: Db, end: Db, k: nat)
    requires k < |db.tasks| && AllResolvable(db) && AllWaiting(db) && db.tasks[k].status == Waiting
    requires end == ProcessTask(db, k, NO_FAULTS, false)
    requires end.tasks == db.tasks[k := db.tasks[k].(status := Resolved, attempts := db.tasks[k].attempts + 1)]
    ensures AllResolvable(end) && AllWaiting(end)
  {
    hide Retry, ProcessTask;
    forall t | 0 <= t < |end.tasks| && end.tasks[t].status != Resolved
      ensures !Retry(end, end.tasks[t], NO_FAULTS).raised
    {
      assert end.tasks[t] == db.tasks[t];
      StillResolves(db, end, k, db.tasks[t]);
    }
  }

  /** Resolving task `k` leaves the other tasks of payment `q` open. */
  lemma OpenAfter(before: seq<Task>, after: seq<Task>, k: nat, q: nat)
    requires k < |before| && before[k].status == Waiting
    requires after == before[k := before[k].(status := Resolved, attempts := before[k].attempts + 1)]
    ensures HasOpenEscrowTask(after, q) ==> HasOpenEscrowTask(before, q)
    ensures HasOpenEscrowTask(before, q) ==> HasOpenEscrowTask(after, q) || IsEscrowOf(before[k], q)
    ensures HasOpenDirectTask(after, q) ==> HasOpenDirectTask(before, q)
    ensures before[k].kind == DirectTask && before[k].payment == Some(q) ==> HasOpenDirectTask(before, q)
    ensures IsEscrowOf(before[k], q) ==> HasOpenEscrowTask(before, q)
  {
    if HasOpenEscrowTask(before, q) && !IsEscrowOf(before[k], q) {
      var t :| 0 <= t < |before| && before[t].kind == EscrowTask && before[t].status != Resolved
          && before[t].payment == Some(q);
      assert after[t] == before[t];
    }
    if HasOpenEscrowTask(after, q) {
      var t :| 0 <= t < |after| && after[t].kind == EscrowTask && after[t].status != Resolved
          && after[t].payment == Some(q);
      assert before[t] == after[t];
    }
    if HasOpenDirectTask(after, q) {
      var t :| 0 <= t < |after| && after[t].kind == DirectTask && after[t].status != Resolved
          && after[t].payment == Some(q);
      assert before[t] == after[t];
    }
  }

  // ------------------------------------------------------------- What gets lost

  /** The old tasks of a state are resolvable after a verification too. */
  lemma OldTasksResolve(db: Db, end: Db, p: nat)
    requires TasksFinishable(db) && AllResolvable(db) && Advances(db, end) && Grows(db, end, p)
    requires p < |db.payments| && db.payments[p].status != Paid
    ensures forall t :: 0 <= t < |db.tasks| && db.tasks[t].status != Resolved ==>
              && end.tasks[t].status == Waiting && !Retry(end, end.tasks[t], NO_FAULTS).raised
              && end.tasks[t].payment != Some(p)
  {
    hide Retry, Advances;
    forall t | 0 <= t < |db.tasks| && db.tasks[t].status != Resolved
      ensures end.tasks[t].status == Waiting && !Retry(end, end.tasks[t], NO_FAULTS).raised
              && end.tasks[t].payment != Some(p)
    {
      assert Finishable(db, db.tasks[t]) && end.tasks[t] == db.tasks[t];
      OldTaskRaises(db, end, p, db.tasks[t]);
    }
  }

  lemma EscrowIsLost(db: Db, c: Db, p: nat, response: VerifyResponse, now: int)
    requires Linked(db, c) && Verified(db, p, response, now) && AllResolvable(db) && LosesEscrow(db, p)
    ensures !AlwaysRepaired(db, c, p, response, now)
  {
    var faults := NO_FAULTS.(create := true);
    var failed := Verify(db, p, response, now, faults);
    LinkedFacts(db, c);
    LinkedTasks(db, c);
    CleanHolds(db, c, p, response, now);
    FailedEscrow(db, p, response, now);
    hide Linked, Verify, AllResolvable, AllWaiting, LosesEscrow, TasksFinishable, Consistent, Sound, HasOpenEscrowTask,
      NoOpenTasks;
    var retries := ResolveAll(failed, 0, p);
    var end := Run(failed, retries);
    assert Lookup(end.escrows, p) != Lookup(Verify(c, p, response, now, NO_FAULTS).escrows, p);
    assert After(db, p, response, now, faults, retries) == end;
    hide Run;
  }

  /** The failure-free verification holds the money. */
  lemma CleanHolds(db: Db, c: Db, p: nat, response: VerifyResponse, now: int)
    requires SameFacts(db, c) && Consistent(c) && Verified(db, p, response, now)
    requires !InvoiceIssued(db, p) && db.payments[p].ThroughPlatform()
    ensures var clean := Verify(c, p, response, now, NO_FAULTS);
            p in clean.escrows && clean.escrows[p].status == Held
  {
    NoEscrowBefore(c, p);
    VerifyHoldsIs(c, p, response, now, NO_FAULTS);
    HoldingIs(c, p, response.tracking, now, NO_FAULTS);
    hide Verify, AcceptPayment, Consistent, PostDirect;
    DirectLeaves(Holding(JustPaid(c, p, response.tracking, now), p), p, NO_FAULTS);
  }

  /** After the failed creation: no record, and either no task for it or one that will
      distribute. Everything open can be resolved. */
  lemma FailedEscrow(db: Db, p: nat, response: VerifyResponse, now: int)
    requires Sound(db) && Consistent(db) && TasksFinishable(db) && AllResolvable(db)
    requires Verified(db, p, response, now) && LosesEscrow(db, p)
    ensures var failed := Verify(db, p, response, now, NO_FAULTS.(create := true));
            && AllResolvable(failed) && AllWaiting(failed) && Lookup(failed.escrows, p) == None
            && p < |failed.payments| && failed.payments[p].ThroughPlatform()
  {
    var faults := NO_FAULTS.(create := true);
    var failed := Verify(db, p, response, now, faults);
    NoEscrowBefore(db, p);
    UnissuedIs(db, p, response, now, faults);
    VerifyGrows(db, p, response, now, faults);
    VerifySafe(db, p, response, now, faults);
    OldTasksResolve(db, failed, p);
    var task := Task(EscrowTask, db.payments[p].company, db.payments[p].invoice, Some(p), Waiting, 0);
    assert failed.tasks == db.tasks
           || failed.tasks == db.tasks + [task] by { hide Verify, HasOpenTask, Consistent, Retry; }
    if failed.tasks != db.tasks {
      UnsettledWage(db, p);
      hide Verify, Consistent, TasksFinishable, Sound, Advances, Retry, AllResolvable, AllWaiting;
      SplitsLater(db, failed, p, task);
    }
    hide Verify, Consistent, TasksFinishable, Sound, Advances, Retry, LosesEscrow;
  }

  lemma SplitsLater(db: Db, end: Db, p: nat, task: Task)
    requires p < |db.payments| && LosesEscrow(db, p)
             && !HasOpenTask(db.tasks, EscrowTask, db.payments[p].company, db.payments[p].invoice)
    requires end.invoices == db.invoices && end.policies == db.policies && p !in end.escrows
    requires p < |end.payments| && end.payments[p].amount == db.payments[p].amount
             && end.payments[p].gateway == db.payments[p].gateway
    requires task == Task(EscrowTask, task.company, db.payments[p].invoice, Some(p), Waiting, 0)
    requires FrozenWage(db, db.payments[p].invoice.value) == Wage(db.invoices[db.payments[p].invoice.value])
    ensures !Retry(end, task, NO_FAULTS).raised
  {
    RetryRaises(end, task);
    hide Retry, Wage, PlatformFee, FrozenWage, HasOpenTask;
  }

  lemma DirectIsLost(db: Db, c: Db, p: nat, response: VerifyResponse, now: int)
    requires Linked(db, c) && Verified(db, p, response, now) && AllResolvable(db) && LosesDirect(db, p)
    ensures !AlwaysRepaired(db, c, p, response, now)
  {
    var faults := NO_FAULTS.(snapshot := true);
    var failed := Verify(db, p, response, now, faults);
    var clean := Verify(c, p, response, now, NO_FAULTS);
    LinkedFacts(db, c);
    LinkedTasks(db, c);
    if InvoiceIssued(db, p) {
      PaidWithoutSnapshot(db, c, p, response, now);
      PaidWithSnapshot(db, c, p, response, now);
    } else {
      HeldWithoutSnapshot(db, c, p, response, now);
      HeldWithSnapshot(db, c, p, response, now);
    }
    VerifyGrows(db, p, response, now, faults);
    VerifySafe(db, p, response, now, faults);
    OldTasksResolve(db, failed, p);
    hide Linked, Verify, LosesDirect, TasksFinishable, Consistent, Sound, HasOpenEscrowTask, Retry, Advances, Grows;
    var retries := ResolveAll(failed, 0, p);
    var end := Run(failed, retries);
    assert After(db, p, response, now, faults, retries) == end;
    hide Run;
    DirectMissing(end, clean, p);
  }

  /** A table without the settlement's row differs from one that has it. */
  lemma DirectMissing(end: Db, clean: Db, p: nat)
    requires NoDirect(end.technicianRows, p) && HasKey(clean.technicianRows, DirectSettlement(p))
    ensures !SameMoney(end, clean)
  {
    var k :| 0 <= k < |clean.technicianRows| && clean.technicianRows[k].entry.key == DirectSettlement(p);
    NotAmong(end.technicianRows, clean.technicianRows[k].entry, p);
    hide NoDirect;
  }

  lemma NotAmong(rows: seq<Row>, e: Entry, p: nat)
    requires NoDirect(rows, p) && e.key == DirectSettlement(p)
    ensures !LedgerRace.HasEntry(rows, e)
  {
    forall j | 0 <= j < |rows|
      ensures rows[j].entry != e
    {
      assert rows[j] in rows;
    }
  }

  lemma DirectPosted(db: Db, p: nat)
    requires p < |db.payments| && DirectEntries(db, p) != []
    ensures HasKey(PostDirect(db, p, NO_FAULTS).technicianRows, DirectSettlement(p))
  {
    var e := DirectEntries(db, p)[0];
    assert e.key == DirectSettlement(p) && 0 <= e.amount;
    hide DirectEntries, GetBalance;
    var rows := Post(db.technicianRows, e);
    if !HasKey(db.technicianRows, e.key) { assert rows[|db.technicianRows|].entry.key == e.key; }
  }

  lemma PaidWithSnapshot(db: Db, c: Db, p: nat, response: VerifyResponse, now: int)
    requires Linked(db, c) && Verified(db, p, response, now) && InvoiceIssued(db, p) && DirectOwed(db, p)
    ensures HasKey(Verify(c, p, response, now, NO_FAULTS).technicianRows, DirectSettlement(p))
  {
    var i := db.payments[p].invoice.value;
    LinkedFacts(db, c);
    var settled := PayingIs(c, db, p, i, response, now, NO_FAULTS);
    DirectAfterSettling(c, p, i, response.tracking, now);
    hide Linked, Verify, Settling, PostDirect, Rest, TryEscrow, DirectEntries, Sound;
    var rested := Rest(TryEscrow(settled, p, i, NO_FAULTS), i, p, NO_FAULTS);
    TryEscrowKeeps(settled, p, i, NO_FAULTS);
    RestLeaves(TryEscrow(settled, p, i, NO_FAULTS), i, p, NO_FAULTS);
    DirectSame(settled, rested, p);
    DirectOwedSame(db, c, p);
    DirectPosted(rested, p);
  }

  lemma DirectOwedSame(s: Db, c: Db, p: nat)
    requires SameFacts(s, c) && p < |s.payments|
    ensures DirectOwed(s, p) <==> DirectOwed(c, p)
  {
    hide CalculateSplit;
  }

  lemma TryEscrowKeeps(db: Db, p: nat, i: nat, faults: Faults)
    requires i < |db.invoices|
    ensures var end := TryEscrow(db, p, i, faults);
            SameFacts(db, end) && end.technicianRows == db.technicianRows && end.feeRows == db.feeRows
  {
    hide Commission, Wage, ReserveAndDistributeIn, HasOpenTask;
  }

  /** Without a snapshot everything else is written, and nothing new is queued. */
  lemma PaidWithoutSnapshot(db: Db, c: Db, p: nat, response: VerifyResponse, now: int)
    requires Linked(db, c) && Verified(db, p, response, now) && InvoiceIssued(db, p) && LosesDirect(db, p)
    ensures var failed := Verify(db, p, response, now, NO_FAULTS.(snapshot := true));
            failed.tasks == db.tasks && NoDirect(failed.technicianRows, p)
  {
    var i, faults := db.payments[p].invoice.value, NO_FAULTS.(snapshot := true);
    LinkedFacts(db, c);
    LinkedTasks(db, c);
    var settled := PayingIs(db, c, p, i, response, now, faults);
    BeforePayment(db, c, p, i);
    UnwrittenParts(db, c, p, i);
    CompletesIffFits(settled, p, i, FrozenWage(db, i), Commission(db, i));
    JustSettled(db, settled, p, i, response, now);
    hide Linked, Verify, Settling, PostDirect, Rest, TryEscrow, Sound, Unwritten, Complete, Consistent, NoRows,
      NoDirect, NoOpenTask, HasOpenEscrowTask, FrozenWage, Commission, DirectOwed;
    SnapshotOnly(settled, p, i);
    var tried := TryEscrow(settled, p, i, NO_FAULTS);
    EscrowFits(settled, p, i);
    TryEscrowKeeps(settled, p, i, NO_FAULTS);
    RestAddsNoTask(settled, tried, i, p);
    DirectLeaves(Rest(tried, i, p, NO_FAULTS), p, faults);
  }

  lemma JustSettled(db: Db, settled: Db, p: nat, i: nat, response: VerifyResponse, now: int)
    requires Consistent(db) && Verified(db, p, response, now) && i < |db.invoices| && db.invoices[i].settlement.None?
    requires settled == Settling(db, p, i, response.tracking, now)
    ensures Consistent(settled)
  {
    SettlingSafe(db, p, i, response.tracking, now);
    hide Settling, Consistent, Sound;
    ConsistentAfterQuiet(db, settled);
  }

  lemma SnapshotOnly(db: Db, p: nat, i: nat)
    requires i < |db.invoices|
    ensures var faults := NO_FAULTS.(snapshot := true);
            Rest(TryEscrow(db, p, i, faults), i, p, faults) == Rest(TryEscrow(db, p, i, NO_FAULTS), i, p, NO_FAULTS)
  {
    var faults := NO_FAULTS.(snapshot := true);
    assert TryEscrow(db, p, i, faults) == TryEscrow(db, p, i, NO_FAULTS) by {
      hide Commission, Wage, ReserveAndDistributeIn, OrElseTask;
    }
    SnapshotOnlyRest(TryEscrow(db, p, i, NO_FAULTS), p, i);
    hide TryEscrow, Rest;
  }

  lemma SnapshotOnlyRest(db: Db, p: nat, i: nat)
    requires i < |db.invoices|
    ensures Rest(db, i, p, NO_FAULTS.(snapshot := true)) == Rest(db, i, p, NO_FAULTS)
  {
    hide InvoiceEntries, Facts, FeeEntries, Post, OrElseTask;
  }

  lemma EscrowFits(db: Db, p: nat, i: nat)
    requires PaysInvoice(db, p) && db.payments[p].invoice == Some(i) && p !in db.escrows
             && Complete(db, p).status == Distributed
    ensures TryEscrow(db, p, i, NO_FAULTS).tasks == db.tasks
  {
    var r, raised := TryEscrowCases(db, p, i, NO_FAULTS);
    hide TryEscrow, Complete, CreateTask;
  }

  lemma RestAddsNoTask(settled: Db, tried: Db, i: nat, p: nat)
    requires Consistent(settled) && RetryConvergence.Settled(settled, Some(i)) && IsPaid(settled, p)
    requires SameFacts(settled, tried) && tried.technicianRows == settled.technicianRows
             && tried.feeRows == settled.feeRows
    requires NoRows(settled.technicianRows, i) && NoRows(settled.feeRows, i) && NoDirect(settled.technicianRows, p)
    ensures var end := Rest(tried, i, p, NO_FAULTS);
            end.tasks == tried.tasks && NoDirect(end.technicianRows, p)
  {
    NoFaultLedger(tried, i, p);
    NoFaultFee(TryLedger(tried, i, p, NO_FAULTS), i, p);
    hide TryLedger, TryFee, NoDirect, Consistent;
  }

  lemma NoFaultLedger(db: Db, i: nat, p: nat)
    requires i < |db.invoices| && NoDirect(db.technicianRows, p)
    ensures var end := TryLedger(db, i, p, NO_FAULTS);
            end.tasks == db.tasks && NoDirect(end.technicianRows, p) && SameFacts(db, end)
  {
    LedgerNotDirect(db, i, Some(p), p);
    hide InvoiceEntries, Facts, Post, NoDirect;
  }

  lemma NoFaultFee(db: Db, i: nat, p: nat)
    requires i < |db.invoices|
    ensures var end := TryFee(db, i, p, NO_FAULTS); end.tasks == db.tasks && end.technicianRows == db.technicianRows
  {
    hide FeeEntries, Post;
  }

  lemma HeldWithoutSnapshot(db: Db, c: Db, p: nat, response: VerifyResponse, now: int)
    requires Linked(db, c) && Verified(db, p, response, now) && !InvoiceIssued(db, p)
    ensures var failed := Verify(db, p, response, now, NO_FAULTS.(snapshot := true));
            failed.tasks == db.tasks && NoDirect(failed.technicianRows, p)
  {
    var faults := NO_FAULTS.(snapshot := true);
    UnpaidBefore(db, c, p);
    VerifyHoldsIs(db, p, response, now, faults);
    HoldingIs(db, p, response.tracking, now, faults);
    hide Linked, Verify, AcceptPayment, PostDirect, NoDirect, HasOpenEscrowTask;
    DirectLeaves(Holding(JustPaid(db, p, response.tracking, now), p), p, faults);
  }

  lemma HeldWithSnapshot(db: Db, c: Db, p: nat, response: VerifyResponse, now: int)
    requires Linked(db, c) && Verified(db, p, response, now) && !InvoiceIssued(db, p) && DirectOwed(db, p)
    ensures HasKey(Verify(c, p, response, now, NO_FAULTS).technicianRows, DirectSettlement(p))
  {
    LinkedFacts(db, c);
    VerifyHoldsIs(c, p, response, now, NO_FAULTS);
    HoldingIs(c, p, response.tracking, now, NO_FAULTS);
    HoldingKeepsPayments(c, p, response.tracking, now);
    var held := Holding(JustPaid(c, p, response.tracking, now), p);
    hide Linked, Verify, AcceptPayment, PostDirect, DirectEntries, Holding, DirectOwed, Sound;
    DirectUnissued(c, held, p);
    DirectOwedSame(db, c, p);
    DirectPosted(held, p);
  }
}
