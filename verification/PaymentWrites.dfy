/** What each write after a payment leaves, when it raises, and what a task makes of it. */
module PaymentWrites {
  import opened Options
  import opened Ledgers
  import opened Escrows
  import opened WageSplit
  import opened EscrowAgreement
  import opened PaymentFlow
  import opened PaymentSafety

  /** The payment through a gateway the platform owns, if it is one. */
  predicate OnPlatform(db: Db, p: nat) {
    p < |db.payments| && db.payments[p].gateway.Some? && db.payments[p].gateway.value.platformOwned
  }

  /** The rounded-down percentage of the total that the company pays, nothing without a policy. */
  predicate IsFee(db: Db, i: nat, fee: int)
    requires i < |db.invoices|
  {
    var invoice := db.invoices[i];
    if invoice.company in db.policies
    then 10000 * fee <= invoice.total * db.policies[invoice.company].feePercent100 < 10000 * (fee + 1)
    else fee == 0
  }

  lemma CommissionIsFee(db: Db, i: nat)
    requires i < |db.invoices|
    ensures IsFee(db, i, Commission(db, i)) && forall fee :: IsFee(db, i, fee) ==> fee == Commission(db, i)
  {
    var total, percent := db.invoices[i].total, PolicyOf(db, db.invoices[i].company).feePercent100;
    PlatformFeeIsFloor(total, percent);
    hide PlatformFee;
    forall fee | IsFee(db, i, fee)
      ensures fee == Commission(db, i)
    {
      if db.invoices[i].company in db.policies { FloorIsUnique(total * percent, fee, Commission(db, i)); }
      else { assert Commission(db, i) == 0 by { NoPercent(total); } }
    }
  }

  lemma NoPercent(total: nat)
    ensures PlatformFee(total, 0) == 0
  {
  }

  lemma FloorIsUnique(n: int, x: int, y: int)
    requires 10000 * x <= n < 10000 * (x + 1) && 10000 * y <= n < 10000 * (y + 1)
    ensures x == y
  {
  }

  /** A row under a free key and with a natural amount is appended, with its balance; any other
      changes nothing. */
  predicate Adds(before: seq<Row>, after: seq<Row>, e: Entry) {
    if HasKey(before, e.key) || e.amount < 0 then after == before
    else
      && |after| == |before| + 1 && after[..|before|] == before && after[|before|].entry == e
      && after[|before|].balanceAfter == GetBalance(before, e.owner) + Signed(e)
  }

  lemma PostAdds(rows: seq<Row>, e: Entry)
    ensures Adds(rows, Post(rows, e), e)
  {
    hide HasKey, GetBalance;
  }

  /** The fee: of a paid platform payment, if there is any; it raises only by its fault. */
  lemma FeeLeaves(db: Db, i: nat, p: nat, faults: Faults, fee: int)
    requires i < |db.invoices| && IsFee(db, i, fee)
    ensures var r := WriteFee(db, i, Some(p), faults);
            if !OnPlatform(db, p) || db.payments[p].status != Paid || fee <= 0 then r == Attempt(db, false)
            else if faults.fee then r == Attempt(db, true)
            else r == Attempt(db.(feeRows := r.db.feeRows), false)
                 && Adds(db.feeRows, r.db.feeRows,
                         Entry(Company(db.invoices[i].company), Debit, OnlineGateway, fee, InvoiceFee(i)))
  {
    CommissionIsFee(db, i);
    hide IsFee, Commission, HasKey, GetBalance;
    assert Commission(db, i) == fee;
    PostAdds(db.feeRows, Entry(Company(db.invoices[i].company), Debit, OnlineGateway, fee, InvoiceFee(i)));
    hide Adds, Post;
  }

  /** The escrow record: of a platform payment that has none, holding its whole amount. */
  lemma EscrowLeaves(db: Db, p: nat, invoice: Option<nat>, faults: Faults)
    ensures var r := CreateEscrow(db, p, invoice, faults);
            if !OnPlatform(db, p) || p in db.escrows then r == Attempt(db, false)
            else
              var held := Record(invoice, db.payments[p].amount, Held, 0, 0, 0, None);
              r == if faults.create then Attempt(db, true)
                   else Attempt(db.(escrows := db.escrows[p := held]), false)
  {
  }

  /** Its distribution: the fee to the platform, the frozen wage to the technician, the rest to
      the company, under the rules of Escrows.CompositeLeaves. */
  lemma DistributionLeaves(db: Db, i: nat, p: nat, faults: Faults, fee: int)
    requires i < |db.invoices| && db.invoices[i].settlement.Some? && IsFee(db, i, fee)
    ensures var wage := db.invoices[i].settlement.value.split.finalTech;
            var (escrows, raised) := ReserveAndDistributeIn(db.escrows, p, i, fee, wage,
                                                            faults.reserve, faults.distribute);
            DistributeEscrow(db, i, Some(p), faults) == Attempt(db.(escrows := escrows), raised)
    ensures DistributeEscrow(db, i, None, faults) == Attempt(db, false)
  {
    CommissionIsFee(db, i);
    hide IsFee, Commission, ReserveAndDistributeIn;
  }

  /** The technician's entries: the wage as a credit, then the cash they kept as a debit, each
      with its own fault; a failed debit leaves the credit. */
  lemma LedgerLeaves(db: Db, i: nat, p: nat, faults: Faults)
    requires i < |db.invoices| && db.invoices[i].settlement.Some? && p < |db.payments|
    ensures var invoice, payment, s := db.invoices[i], db.payments[p], db.invoices[i].settlement.value;
            var wage, r := s.split.finalTech, WriteLedger(db, i, Some(p), faults);
            if invoice.technician.None? || wage <= 0 then r == Attempt(db, false)
            else if faults.credit then r == Attempt(db, true)
            else
              var owner := Technician(invoice.company, invoice.technician.value);
              var online := s.means == "zarinpal" || s.means == "idpay" || s.means == "nextpay" || s.means == "fake";
              var source := if online then OnlineGateway
                            else if payment.collectedByTechnician then CashFromCustomer else ManualPayment;
              var credited := Post(db.technicianRows, Entry(owner, Credit, source, wage, TechnicianCredit(i)));
              var kept := Entry(owner, Debit, CashFromCustomer, invoice.total, CashReceived(i));
              if !payment.collectedByTechnician || invoice.total == 0
              then r == Attempt(db.(technicianRows := credited), false)
              else if faults.debit then r == Attempt(db.(technicianRows := credited), true)
              else r == Attempt(db.(technicianRows := Post(credited, kept)), false)
  {
    hide Post;
  }

  /** The debit of what the gateway paid the technician itself: of a platform payment of the
      invoice's company, whose technician the company has paid that way. */
  lemma DirectLeaves(db: Db, p: nat, i: nat, faults: Faults)
    requires p < |db.payments| && db.payments[p].invoice == Some(i) && i < |db.invoices|
    requires db.invoices[i].settlement.Some?
    ensures var invoice, wage := db.invoices[i], db.invoices[i].settlement.value.split.finalTech;
            var r := WriteDirect(db, p, faults);
            if OnPlatform(db, p) && db.payments[p].company == invoice.company && invoice.technician.Some? && 0 < wage
               && invoice.company in db.policies
               && invoice.technician.value in db.policies[invoice.company].paidDirectly
            then if faults.direct then r == Attempt(db, true)
                 else r == Attempt(db.(technicianRows := Post(db.technicianRows,
                             Entry(Technician(invoice.company, invoice.technician.value), Debit, DirectGateway, wage,
                                   DirectSettlement(p)))), false)
            else r == Attempt(db, false)
  {
    hide Post;
  }

  /** A payment of no invoice, or unsettled, pays nobody directly. */
  lemma NoDirectWithoutSettlement(db: Db, p: nat, faults: Faults)
    requires || p >= |db.payments| || db.payments[p].invoice.None? || db.payments[p].invoice.value >= |db.invoices|
             || db.invoices[db.payments[p].invoice.value].settlement.None?
    ensures WriteDirect(db, p, faults) == Attempt(db, false)
  {
  }

  // ----------------------------------------------------------------------- Tasks

  /** A failed write gets one waiting task, unless one of its kind, company and invoice is not
      resolved yet; a write that did not raise gets none. */
  lemma TaskLeaves(attempt: Attempt, kind: TaskKind, company: nat, invoice: Option<nat>, p: Option<nat>)
    ensures var tasks, end := attempt.db.tasks, OrElseTask(attempt, kind, company, invoice, p);
            var open := exists t :: 0 <= t < |tasks| && tasks[t].kind == kind && tasks[t].company == company
                                    && tasks[t].invoice == invoice
                                    && (tasks[t].status == Waiting || tasks[t].status == Processing);
            if attempt.raised && !open
            then end == attempt.db.(tasks := tasks + [Task(kind, company, invoice, p, Waiting, 0)])
            else end == attempt.db
  {
    hide HasOpenTask;
    OpenTaskIs(attempt.db.tasks, kind, company, invoice);
  }

  lemma OpenTaskIs(tasks: seq<Task>, kind: TaskKind, company: nat, invoice: Option<nat>)
    ensures HasOpenTask(tasks, kind, company, invoice)
            <==> exists t :: 0 <= t < |tasks| && tasks[t].kind == kind && tasks[t].company == company
                             && tasks[t].invoice == invoice
                             && (tasks[t].status == Waiting || tasks[t].status == Processing)
  {
  }

  /** A retry is the write again; for an escrow record its creation and distribution. It raises
      when the task has lost its invoice, or its payment where that is needed. */
  lemma RetryLeaves(db: Db, task: Task, faults: Faults)
    ensures var r, i := Retry(db, task, faults), task.invoice;
            var lost := i.None? || i.value >= |db.invoices|;
            match task.kind
            case LedgerTask => r == (if lost then Attempt(db, true) else WriteLedger(db, i.value, task.payment, faults))
            case FeeTask => r == (if lost then Attempt(db, true) else WriteFee(db, i.value, task.payment, faults))
            case DirectTask =>
              r == (if task.payment.None? then Attempt(db, true) else WriteDirect(db, task.payment.value, faults))
            case EscrowTask =>
              if lost || task.payment.None? then r == Attempt(db, true)
              else
                var created := CreateEscrow(db, task.payment.value, i, faults);
                if created.raised then r == created
                else i.value < |created.db.invoices|
                     && r == DistributeEscrow(created.db, i.value, task.payment, faults)
  {
    hide WriteLedger, WriteFee, WriteDirect, DistributeEscrow;
  }

  /** Processing resolves a waiting task together with what its retry wrote, or takes the writes
      back and counts the attempt, or, if even that fails, leaves everything. */
  lemma ProcessLeaves(db: Db, t: nat, faults: Faults, recordFault: bool)
    ensures var end := ProcessTask(db, t, faults, recordFault);
            if t >= |db.tasks| || db.tasks[t].status != Waiting then end == db
            else
              var task, r := db.tasks[t], Retry(db, db.tasks[t], faults);
              var attempted := task.(attempts := task.attempts + 1);
              if !r.raised then end == r.db.(tasks := db.tasks[t := attempted.(status := Resolved)])
              else if recordFault then end == db
              else end == db.(tasks := db.tasks[t := attempted])
  {
    hide Retry;
  }

  /** How an invoice is recorded as paid: by the payment's gateway, then by its own means, then
      by what the caller said. */
  lemma MeansAre(db: Db, p: nat, means: string)
    requires p < |db.payments|
    ensures var payment, m := db.payments[p], MethodOf(db, Some(p), means);
            if payment.gateway.Some? && payment.gateway.value.gatewayType != ""
            then m == payment.gateway.value.gatewayType
            else if payment.means != "" then m == payment.means
            else if means != "" then m == means else m == "online"
    ensures MethodOf(db, None, means) == if means != "" then means else "cash"
  {
  }

  // --------------------------------------------------------- All writes of a payment

  predicate Open(db: Db, kind: TaskKind, i: nat)
    requires i < |db.invoices|
  {
    HasOpenTask(db.tasks, kind, db.invoices[i].company, Some(i))
  }

  /** The three writes after an invoice is marked paid do not disturb each other: each leaves
      what it would have left alone, and a task of its kind is open afterwards exactly if one
      was or it raised. */
  lemma PaidWritesLeave(db: Db, i: nat, p: nat, faults: Faults)
    requires i < |db.invoices|
    ensures var end := PostPaid(db, i, Some(p), faults);
            var escrow, ledger, fee := DistributeEscrow(db, i, Some(p), faults), WriteLedger(db, i, Some(p), faults),
                WriteFee(db, i, Some(p), faults);
            && end == db.(escrows := escrow.db.escrows, technicianRows := ledger.db.technicianRows,
                          feeRows := fee.db.feeRows, tasks := end.tasks)
            && db.tasks <= end.tasks
            && (Open(end, EscrowTask, i) <==> Open(db, EscrowTask, i) || escrow.raised)
            && (Open(end, LedgerTask, i) <==> Open(db, LedgerTask, i) || ledger.raised)
            && (Open(end, FeeTask, i) <==> Open(db, FeeTask, i) || fee.raised)
            && (Open(end, DirectTask, i) <==> Open(db, DirectTask, i))
  {
    hide DistributeEscrow, WriteLedger, WriteFee, HasOpenTask, CreateTask;
    var company := db.invoices[i].company;
    var escrow := DistributeEscrow(db, i, Some(p), faults);
    WritesAreApart(db, i, p, faults);
    var escrowed := OrElseTask(escrow, EscrowTask, company, Some(i), Some(p));
    OpenAfter(escrow, EscrowTask, company, i, p);
    WritesAreApart(escrowed, i, p, faults);
    SameWrites(db, escrowed, i, p, faults);
    var ledger := WriteLedger(escrowed, i, Some(p), faults);
    var credited := OrElseTask(ledger, LedgerTask, company, Some(i), Some(p));
    OpenAfter(ledger, LedgerTask, company, i, p);
    WritesAreApart(credited, i, p, faults);
    SameWrites(db, credited, i, p, faults);
    OpenAfter(WriteFee(credited, i, Some(p), faults), FeeTask, company, i, p);
  }

  /** Each write has its own table. */
  lemma WritesAreApart(db: Db, i: nat, p: nat, faults: Faults)
    requires i < |db.invoices|
    ensures var r := DistributeEscrow(db, i, Some(p), faults); r.db == db.(escrows := r.db.escrows)
    ensures var r := WriteLedger(db, i, Some(p), faults); r.db == db.(technicianRows := r.db.technicianRows)
    ensures var r := WriteFee(db, i, Some(p), faults); r.db == db.(feeRows := r.db.feeRows)
  {
    hide ReserveAndDistributeIn, Commission, Facts, InvoiceEntries, Post, FeeEntries;
  }

  /** And reads no other. */
  lemma SameWrites(a: Db, b: Db, i: nat, p: nat, faults: Faults)
    requires b.policies == a.policies && b.invoices == a.invoices && b.payments == a.payments && i < |a.invoices|
    ensures b.technicianRows == a.technicianRows ==>
              var x, y := WriteLedger(a, i, Some(p), faults), WriteLedger(b, i, Some(p), faults);
              x.raised == y.raised && x.db.technicianRows == y.db.technicianRows
    ensures b.feeRows == a.feeRows ==>
              var x, y := WriteFee(a, i, Some(p), faults), WriteFee(b, i, Some(p), faults);
              x.raised == y.raised && x.db.feeRows == y.db.feeRows
  {
    assert Facts(b, i, Some(p)) == Facts(a, i, Some(p)) && FeeEntries(b, i, Some(p)) == FeeEntries(a, i, Some(p));
    hide Facts, InvoiceEntries, FeeEntries, Post;
  }

  lemma OpenAfter(attempt: Attempt, kind: TaskKind, company: nat, i: nat, p: nat)
    ensures var end := OrElseTask(attempt, kind, company, Some(i), Some(p));
            && end == attempt.db.(tasks := end.tasks) && attempt.db.tasks <= end.tasks
            && forall k :: HasOpenTask(end.tasks, k, company, Some(i))
                           <==> HasOpenTask(attempt.db.tasks, k, company, Some(i)) || (attempt.raised && k == kind)
  {
    var end := OrElseTask(attempt, kind, company, Some(i), Some(p));
    if end != attempt.db {
      var tasks := attempt.db.tasks;
      var task := Task(kind, company, Some(i), Some(p), Waiting, 0);
      assert end.tasks == tasks + [task];
      forall k
        ensures HasOpenTask(tasks + [task], k, company, Some(i))
                <==> HasOpenTask(tasks, k, company, Some(i)) || k == kind
      {
        MoreTasks(tasks, task, k, company, i);
      }
    }
  }

  lemma MoreTasks(tasks: seq<Task>, task: Task, kind: TaskKind, company: nat, i: nat)
    requires task.company == company && task.invoice == Some(i) && task.status == Waiting
    ensures HasOpenTask(tasks + [task], kind, company, Some(i))
            <==> HasOpenTask(tasks, kind, company, Some(i)) || task.kind == kind
  {
    var more := tasks + [task];
    if HasOpenTask(tasks, kind, company, Some(i)) {
      var t :| 0 <= t < |tasks| && tasks[t].kind == kind && tasks[t].company == company
               && tasks[t].invoice == Some(i) && tasks[t].status != Resolved;
      assert more[t] == tasks[t];
    }
    if task.kind == kind { assert more[|tasks|] == task; }
  }

  /** Accepting a payment: paid and held, with a task of that kind if the record failed. */
  lemma AcceptLeaves(db: Db, p: nat, tracking: string, now: int, faults: Faults)
    requires p < |db.payments|
    ensures var payment, end := db.payments[p], AcceptPayment(db, p, tracking, now, faults);
            var fails := OnPlatform(db, p) && p !in db.escrows && faults.create;
            && end == db.(payments := db.payments[p := payment.(status := Paid, tracking := tracking,
                                                                paidAt := Some(now))],
                          escrows := end.escrows, tasks := end.tasks)
            && end.escrows == (if OnPlatform(db, p) && p !in db.escrows && !faults.create
                               then db.escrows[p := Record(payment.invoice, payment.amount, Held, 0, 0, 0, None)]
                               else db.escrows)
            && end.tasks == (if fails && !HasOpenTask(db.tasks, EscrowTask, payment.company, payment.invoice)
                             then db.tasks + [Task(EscrowTask, payment.company, payment.invoice, Some(p), Waiting, 0)]
                             else db.tasks)
  {
    hide HasOpenTask;
  }

  /** The last write of a verification, with a task of its kind if it failed. */
  lemma PostDirectLeaves(db: Db, p: nat, faults: Faults)
    ensures var r, end := WriteDirect(db, p, faults), PostDirect(db, p, faults);
            if faults.snapshot || p >= |db.payments| then end == db
            else
              var company, invoice := db.payments[p].company, db.payments[p].invoice;
              && end == db.(technicianRows := r.db.technicianRows, tasks := end.tasks)
              && end.tasks == (if r.raised && !HasOpenTask(db.tasks, DirectTask, company, invoice)
                               then db.tasks + [Task(DirectTask, company, invoice, Some(p), Waiting, 0)]
                               else db.tasks)
  {
    hide HasOpenTask, DirectEntries, Post;
  }
}
