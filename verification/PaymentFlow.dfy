/** Payments, invoices and the money that follows a payment, as one state and its steps
    (apps/payments/services.py, apps/payments/services_expiration.py,
    apps/invoices/services.py, apps/payouts/services_split.py,
    apps/payouts/services_direct_settlement.py, apps/payouts/services_backfill.py).

    Each service of the original is one transaction and is one function here, from the
    whole state to the whole state. A raised error undoes the transaction, so it returns
    the state it was given. The writes after a payment do not block it: each may fail on
    its own, by a fault given with the step, and then leaves a task to retry it. */
module PaymentFlow {
  import opened Options
  import opened Ledgers
  import opened Escrows
  import opened WageSplit
  import opened EscrowAgreement

  // -------------------------------------------------------------------- State

  datatype InvoiceStatus = Draft | Issued | InvoicePaid | InvoiceCancelled

  /** What settling freezes on the invoice. */
  datatype Settlement = Settlement(split: Split, extraPolicy: Policy, campaignPolicy: Policy,
                                   means: string, reference: string, at: int)

  datatype Invoice = Invoice(company: nat, technician: Option<nat>, status: InvoiceStatus, bill: Bill,
                             total: nat, cancelPending: bool, settlement: Option<Settlement>)

  datatype Gateway = Gateway(company: nat, platformOwned: bool, gatewayType: string, active: bool)

  datatype PaymentStatus = Initiated | Pending | Paid | FailedPayment | CancelledPayment | NeedsReconciliation

  datatype Remark = NoRemark | ExpiredByCleanup | SupersededBy(payment: nat)

  datatype Payment = Payment(company: nat, invoice: Option<nat>, gateway: Option<Gateway>, amount: int,
                             status: PaymentStatus, reference: string, tracking: string,
                             createdAt: int, paidAt: Option<int>,
                             means: string, collectedByTechnician: bool, remark: Remark)
  {
    /** Paid through a gateway the platform owns: held in escrow, and charged a fee. */
    predicate ThroughPlatform() { gateway.Some? && gateway.value.platformOwned }
  }

  datatype TaskKind = EscrowTask | LedgerTask | FeeTask | DirectTask

  datatype TaskStatus = Waiting | Processing | Resolved

  datatype Task = Task(kind: TaskKind, company: nat, invoice: Option<nat>, payment: Option<nat>,
                       status: TaskStatus, attempts: nat)

  /** A company's policy. `paidDirectly` are the technicians whose wage the gateway pays out
      itself: the payout strategy is to split, and their account is verified. */
  datatype Policies = Policies(extra: Policy, campaign: Policy, feePercent100: nat, paidDirectly: set<nat>)

  /** The tables, and how their database rounds. Rows of the sequences are identified by
      their position. */
  datatype Db = Db(ties: Ties, policies: map<nat, Policies>,
                   invoices: seq<Invoice>, payments: seq<Payment>, escrows: map<nat, Record>,
                   technicianRows: seq<Row>, feeRows: seq<Row>, tasks: seq<Task>)

  /** Which of the writes of a step raise. A split snapshot that could not be saved
      (`snapshot`) is only logged. */
  datatype Faults = Faults(create: bool, reserve: bool, distribute: bool, credit: bool, debit: bool, fee: bool,
                           snapshot: bool, direct: bool)

  const NO_FAULTS := Faults(false, false, false, false, false, false, false, false)

  /** Seconds a pending payment can be verified. */
  const EXPIRATION := 30 * 60

  function PolicyOf(db: Db, company: nat): Policies {
    if company in db.policies then db.policies[company] else Policies(ByTechnician, ByCompany, 0, {})
  }

  function PaymentAt(db: Db, p: Option<nat>): Option<Payment> {
    if p.Some? && p.value < |db.payments| then Some(db.payments[p.value]) else None
  }

  // ---------------------------------------------------------- Non-blocking writes

  /** A write attempted inside a step: the state it leaves and whether it raised. */
  datatype Attempt = Attempt(db: Db, raised: bool)

  function Wage(invoice: Invoice): int {
    if invoice.settlement.Some? then invoice.settlement.value.split.finalTech else 0
  }

  predicate Online(means: string) {
    means in {"zarinpal", "idpay", "nextpay", "fake"}
  }

  /** What the technician ledger reads from invoice `i` and its payment. */
  function Facts(db: Db, i: nat, p: Option<nat>): SettledInvoice
    requires i < |db.invoices|
  {
    var invoice, payment := db.invoices[i], PaymentAt(db, p);
    SettledInvoice(i, invoice.company, invoice.technician, Wage(invoice), invoice.total,
                   invoice.settlement.Some? && Online(invoice.settlement.value.means),
                   payment.Some? && payment.value.collectedByTechnician)
  }

  function Commission(db: Db, i: nat): nat
    requires i < |db.invoices|
  {
    PlatformFee(db.invoices[i].total, PolicyOf(db, db.invoices[i].company).feePercent100)
  }

  /** The fee entry of a payment: only through a platform gateway, and only if positive. */
  function FeeEntries(db: Db, i: nat, p: Option<nat>): seq<Entry>
    requires i < |db.invoices|
  {
    var payment := PaymentAt(db, p);
    if payment.Some? && payment.value.ThroughPlatform() && payment.value.status == Paid && Commission(db, i) > 0
    then [Entry(Company(db.invoices[i].company), Debit, OnlineGateway, Commission(db, i), InvoiceFee(i))]
    else []
  }

  function CreateEscrow(db: Db, p: nat, invoice: Option<nat>, faults: Faults): Attempt {
    if p in db.escrows || p >= |db.payments| || !db.payments[p].ThroughPlatform() then Attempt(db, false)
    else if faults.create then Attempt(db, true)
    else Attempt(db.(escrows := db.escrows[p := HeldRecord(invoice, db.payments[p].amount)]), false)
  }

  function DistributeEscrow(db: Db, i: nat, p: Option<nat>, faults: Faults): (r: Attempt)
    requires i < |db.invoices|
    ensures r.db.ties == db.ties && r.db.policies == db.policies
    ensures r.db.invoices == db.invoices && r.db.payments == db.payments
  {
    if p.None? then Attempt(db, false)
    else
      var (escrows, raised) := ReserveAndDistributeIn(db.escrows, p.value, i, Commission(db, i), Wage(db.invoices[i]),
                                                      faults.reserve, faults.distribute);
      Attempt(db.(escrows := escrows), raised)
  }

  /** The technician's entries: the credit first, and the debit only after it. */
  function WriteLedger(db: Db, i: nat, p: Option<nat>, faults: Faults): (r: Attempt)
    requires i < |db.invoices|
    ensures r.db.ties == db.ties && r.db.policies == db.policies
    ensures r.db.invoices == db.invoices && r.db.payments == db.payments
  {
    var es := InvoiceEntries(Facts(db, i, p));
    if es == [] then Attempt(db, false)
    else if faults.credit then Attempt(db, true)
    else
      var credited := db.(technicianRows := Post(db.technicianRows, es[0]));
      if |es| == 1 then Attempt(credited, false)
      else if faults.debit then Attempt(credited, true)
      else Attempt(credited.(technicianRows := Post(credited.technicianRows, es[1])), false)
  }

  function WriteFee(db: Db, i: nat, p: Option<nat>, faults: Faults): (r: Attempt)
    requires i < |db.invoices|
    ensures r.db.ties == db.ties && r.db.policies == db.policies
    ensures r.db.invoices == db.invoices && r.db.payments == db.payments
  {
    var es := FeeEntries(db, i, p);
    if es == [] then Attempt(db, false)
    else if faults.fee then Attempt(db, true)
    else Attempt(db.(feeRows := Post(db.feeRows, es[0])), false)
  }

  /** What the gateway pays the technician of invoice `i` directly: the frozen wage, if it
      splits with them at all. */
  function DirectAmount(db: Db, i: nat): int
    requires i < |db.invoices|
  {
    var invoice := db.invoices[i];
    if invoice.technician.Some? && invoice.technician.value in PolicyOf(db, invoice.company).paidDirectly
        && Wage(invoice) > 0
    then Wage(invoice) else 0
  }

  /** The debit of a direct settlement: only through a platform gateway, for an invoice of
      the payment's company. */
  function DirectEntries(db: Db, p: nat): seq<Entry> {
    if p >= |db.payments| || !db.payments[p].ThroughPlatform() || db.payments[p].invoice.None?
       || db.payments[p].invoice.value >= |db.invoices| then []
    else
      var i := db.payments[p].invoice.value;
      if db.payments[p].company != db.invoices[i].company || DirectAmount(db, i) <= 0 then []
      else [Entry(Technician(db.invoices[i].company, db.invoices[i].technician.value), Debit, DirectGateway,
                  DirectAmount(db, i), DirectSettlement(p))]
  }

  function WriteDirect(db: Db, p: nat, faults: Faults): (r: Attempt)
    ensures r.db.ties == db.ties && r.db.policies == db.policies
    ensures r.db.invoices == db.invoices && r.db.payments == db.payments
  {
    var es := DirectEntries(db, p);
    if es == [] then Attempt(db, false)
    else if faults.direct then Attempt(db, true)
    else Attempt(db.(technicianRows := Post(db.technicianRows, es[0])), false)
  }

  // -------------------------------------------------------------------- Tasks

  /** An unresolved task of this company, kind and invoice. */
  predicate HasOpenTask(tasks: seq<Task>, kind: TaskKind, company: nat, invoice: Option<nat>) {
    exists t :: 0 <= t < |tasks| && tasks[t].kind == kind && tasks[t].company == company
      && tasks[t].invoice == invoice && tasks[t].status != Resolved
  }

  function CreateTask(tasks: seq<Task>, kind: TaskKind, company: nat, invoice: Option<nat>, p: Option<nat>): seq<Task> {
    if HasOpenTask(tasks, kind, company, invoice) then tasks
    else tasks + [Task(kind, company, invoice, p, Waiting, 0)]
  }

  /** Keep what an attempt left, and if it raised, a task to finish it. */
  function OrElseTask(attempt: Attempt, kind: TaskKind, company: nat, invoice: Option<nat>, p: Option<nat>): Db {
    if attempt.raised then attempt.db.(tasks := CreateTask(attempt.db.tasks, kind, company, invoice, p))
    else attempt.db
  }

  /** The retry handlers. They raise when the task lost what they need, its invoice or its
      payment. */
  function Retry(db: Db, task: Task, faults: Faults): Attempt {
    match task.kind
    case LedgerTask =>
      if LostInvoice(db, task) then Attempt(db, true)
      else WriteLedger(db, task.invoice.value, task.payment, faults)
    case FeeTask =>
      if LostInvoice(db, task) then Attempt(db, true)
      else WriteFee(db, task.invoice.value, task.payment, faults)
    case DirectTask => if task.payment.None? then Attempt(db, true) else WriteDirect(db, task.payment.value, faults)
    case EscrowTask =>
      if LostInvoice(db, task) || task.payment.None? then Attempt(db, true)
      else
        var created := CreateEscrow(db, task.payment.value, task.invoice, faults);
        if created.raised then created else DistributeEscrow(created.db, task.invoice.value, task.payment, faults)
  }

  predicate LostInvoice(db: Db, task: Task) {
    task.invoice.None? || task.invoice.value >= |db.invoices|
  }

  /** `_process_one`: on success the retry's writes and the resolved task are saved
      together; on failure the writes are rolled back and a second transaction counts the
      attempt, unless that fails too. */
  function ProcessTask(db: Db, t: nat, faults: Faults, recordFault: bool): Db {
    if t >= |db.tasks| || db.tasks[t].status != Waiting then db
    else
      var task := db.tasks[t];
      var attempt := Retry(db, task, faults);
      if !attempt.raised then
        attempt.db.(tasks := db.tasks[t := task.(status := Resolved, attempts := task.attempts + 1)])
      else if recordFault then db
      else db.(tasks := db.tasks[t := task.(attempts := task.attempts + 1)])
  }

  // ------------------------------------------------------------------ Mark paid

  /** The checks of `mark_paid`; it raises when they fail. */
  predicate CanBePaid(db: Db, i: nat, p: Option<nat>) {
    && i < |db.invoices|
    && db.invoices[i].status == Issued
    && db.invoices[i].settlement.None?
    && (p.Some? ==>
          && p.value < |db.payments|
          && db.payments[p.value].company == db.invoices[i].company
          && db.payments[p.value].invoice == Some(i)
          && db.payments[p.value].amount == db.invoices[i].total)
  }

  function FirstNonEmpty(a: string, b: string): string {
    if a != "" then a else b
  }

  /** How the invoice was paid: the payment's own means and reference come first. */
  function MethodOf(db: Db, p: Option<nat>, means: string): string {
    var payment := PaymentAt(db, p);
    if payment.None? then FirstNonEmpty(means, "cash")
    else
      FirstNonEmpty(if payment.value.gateway.Some? then payment.value.gateway.value.gatewayType else "",
                    FirstNonEmpty(payment.value.means, FirstNonEmpty(means, "online")))
  }

  function ReferenceOf(db: Db, p: Option<nat>, reference: string): string {
    var payment := PaymentAt(db, p);
    if payment.None? then reference
    else FirstNonEmpty(payment.value.tracking, FirstNonEmpty(payment.value.reference, reference))
  }

  /** Freeze the settlement and mark the invoice paid. */
  function Settle(db: Db, i: nat, p: Option<nat>, means: string, reference: string, now: int): Db
    requires i < |db.invoices|
  {
    var invoice := db.invoices[i];
    var policies := PolicyOf(db, invoice.company);
    var split := CalculateSplit(invoice.bill, policies.extra, policies.campaign);
    db.(invoices := db.invoices[i := invoice.(
      status := InvoicePaid,
      settlement := Some(Settlement(split, policies.extra, policies.campaign,
                                    MethodOf(db, p, means), ReferenceOf(db, p, reference), now)))])
  }

  /** `mark_paid` after its checks: settle, then the three non-blocking writes. */
  function MarkPaid(db: Db, i: nat, p: Option<nat>, means: string, reference: string, now: int, faults: Faults): Db
    requires CanBePaid(db, i, p)
  {
    PostPaid(Settle(db, i, p, means, reference, now), i, p, faults)
  }

  function PostPaid(settled: Db, i: nat, p: Option<nat>, faults: Faults): Db
    requires i < |settled.invoices|
  {
    var company := settled.invoices[i].company;
    var escrowed := OrElseTask(DistributeEscrow(settled, i, p, faults), EscrowTask, company, Some(i), p);
    var credited := OrElseTask(WriteLedger(escrowed, i, p, faults), LedgerTask, company, Some(i), p);
    OrElseTask(WriteFee(credited, i, p, faults), FeeTask, company, Some(i), p)
  }

  // -------------------------------------------------------------------- Payments

  datatype InitiateResponse = Redirected(reference: string) | Rejected

  datatype VerifyResponse = NoAnswer | Declined | Approved(verifiedAmount: Option<int>, tracking: string)

  /** `start`. `allowed` is the outcome of the payment-mode, eligibility and provider
      checks. */
  function Start(db: Db, i: nat, gateway: Option<Gateway>, allowed: bool, response: InitiateResponse, now: int): Db {
    if i >= |db.invoices| || db.invoices[i].status != Issued || !allowed
       || gateway.None? || !gateway.value.active || gateway.value.company != db.invoices[i].company then db
    else
      var status := if response.Redirected? then Pending else FailedPayment;
      var reference := if response.Redirected? then response.reference else "";
      db.(payments := db.payments + [Payment(db.invoices[i].company, Some(i), gateway, db.invoices[i].total,
                                             status, reference, "", now, None, "", false, NoRemark)])
  }

  function SetStatus(db: Db, p: nat, status: PaymentStatus): Db
    requires p < |db.payments|
  {
    db.(payments := db.payments[p := db.payments[p].(status := status)])
  }

  /** The payment half of a successful verification: paid, then into escrow. */
  function AcceptPayment(db: Db, p: nat, tracking: string, now: int, faults: Faults): Db
    requires p < |db.payments|
  {
    var payment := db.payments[p].(status := Paid, tracking := tracking, paidAt := Some(now));
    var paid := db.(payments := db.payments[p := payment]);
    OrElseTask(CreateEscrow(paid, p, payment.invoice, faults), EscrowTask, payment.company, payment.invoice, Some(p))
  }

  /** A pending, unexpired payment whose verification the provider just confirmed for the
      right amount. */
  predicate Verified(db: Db, p: nat, response: VerifyResponse, now: int) {
    && p < |db.payments|
    && db.payments[p].status == Pending
    && now <= db.payments[p].createdAt + EXPIRATION
    && db.payments[p].gateway.Some?
    && response.Approved?
    && (response.verifiedAmount.Some? ==> response.verifiedAmount.value == db.payments[p].amount)
  }

  /** The invoice of payment `p` is waiting for it. */
  predicate InvoiceIssued(db: Db, p: nat)
    requires p < |db.payments|
  {
    var i := db.payments[p].invoice;
    i.Some? && i.value < |db.invoices| && db.invoices[i.value].status == Issued
  }

  /** The last write of a verification: the snapshot of the split, and from it the debit of
      what the gateway paid out. Without a snapshot there is no debit and no task. */
  function PostDirect(db: Db, p: nat, faults: Faults): Db {
    if faults.snapshot || p >= |db.payments| then db
    else
      OrElseTask(WriteDirect(db, p, faults), DirectTask, db.payments[p].company, db.payments[p].invoice, Some(p))
  }

  /** `verify`: an invoice that cannot be marked paid undoes the whole verification. */
  function Verify(db: Db, p: nat, response: VerifyResponse, now: int, faults: Faults): Db {
    if p >= |db.payments| || db.payments[p].status != Pending then db
    else if now > db.payments[p].createdAt + EXPIRATION then SetStatus(db, p, NeedsReconciliation)
    else if db.payments[p].gateway.None? || response.NoAnswer? then db
    else if response.Declined? then SetStatus(db, p, FailedPayment)
    else if !Verified(db, p, response, now) then SetStatus(db, p, NeedsReconciliation)
    else
      var accepted := AcceptPayment(db, p, response.tracking, now, faults);
      if !InvoiceIssued(db, p) then PostDirect(accepted, p, faults)
      else
        var i := db.payments[p].invoice.value;
        if CanBePaid(accepted, i, Some(p))
        then PostDirect(MarkPaid(accepted, i, Some(p), "", "", now, faults), p, faults)
        else db
  }

  predicate Blank(s: string) {
    forall c :: c in s ==> c in {' ', '\t', '\n', '\r'}
  }

  /** The newest payment of the company with this reference, as far as the first n. */
  function FindByReference(payments: seq<Payment>, company: nat, reference: string, n: nat): Option<nat>
    requires n <= |payments|
  {
    if n == 0 then None
    else if payments[n - 1].company == company && payments[n - 1].reference == reference then Some(n - 1)
    else FindByReference(payments, company, reference, n - 1)
  }

  /** `handle_callback`. */
  function Callback(db: Db, company: nat, reference: string, response: VerifyResponse, now: int, faults: Faults): Db {
    var found := FindByReference(db.payments, company, reference, |db.payments|);
    if Blank(reference) || found.None? then db else Verify(db, found.value, response, now, faults)
  }

  /** One payment of the expiration job, for any age limit. */
  function Expire(db: Db, p: nat, now: int, age: int): Db {
    if p < |db.payments| && db.payments[p].status in {Initiated, Pending}
       && db.payments[p].gateway.Some? && db.payments[p].createdAt < now - age
    then db.(payments := db.payments[p := db.payments[p].(status := NeedsReconciliation, remark := ExpiredByCleanup)])
    else db
  }

  /** Another payment of invoice `i` when cash payment `cash` supersedes it: cancelled if
      it is unfinished. */
  function Supersede(payment: Payment, i: nat, company: nat, cash: nat): Payment {
    if payment.company == company && payment.invoice == Some(i) && payment.status in {Initiated, Pending}
    then payment.(status := CancelledPayment, remark := SupersededBy(cash)) else payment
  }

  function CancelAbandoned(payments: seq<Payment>, i: nat, company: nat, cash: nat): seq<Payment> {
    seq(|payments|, p requires 0 <= p < |payments| =>
      if p == cash then payments[p] else Supersede(payments[p], i, company, cash))
  }

  function CashPayment(db: Db, i: nat, reference: string, byTechnician: bool, now: int, paidAt: Option<int>): Payment
    requires i < |db.invoices|
  {
    Payment(db.invoices[i].company, Some(i), None, db.invoices[i].total, Paid, reference, reference,
            now, paidAt, "cash", byTechnician, NoRemark)
  }

  /** A cash receipt registered by an administrator. */
  function AdminCash(db: Db, i: nat, byTechnician: bool, now: int, faults: Faults): Db {
    if i >= |db.invoices| || db.invoices[i].status != Issued then db
    else
      var p := |db.payments|;
      var received := db.(payments := db.payments + [CashPayment(db, i, "", byTechnician, now, None)]);
      if CanBePaid(received, i, Some(p)) then MarkPaid(received, i, Some(p), "cash", "", now, faults) else db
  }

  /** A cash receipt registered by the technician: also refused while a cancellation is
      under review, and it cancels the invoice's unfinished online payments. */
  function TechnicianCash(db: Db, i: nat, reference: string, now: int, faults: Faults): Db {
    if i >= |db.invoices| || db.invoices[i].status != Issued || db.invoices[i].cancelPending then db
    else
      var p := |db.payments|;
      var received := db.(payments := db.payments + [CashPayment(db, i, reference, true, now, Some(now))]);
      if CanBePaid(received, i, Some(p)) then
        var paid := MarkPaid(received, i, Some(p), "cash", reference, now, faults);
        paid.(payments := CancelAbandoned(paid.payments, i, db.invoices[i].company, p))
      else db
  }

  // --------------------------------------------------------------------- Invoices

  function CreateInvoice(db: Db, company: nat, technician: Option<nat>, rows: seq<Item>, tax: int, extra: int): Db {
    var bill := Bill(rows, Percents(0, 0, 0), tax, extra, 0);
    db.(invoices := db.invoices + [Invoice(company, technician, Draft, bill, InvoiceTotal(db.ties, bill), false, None)])
  }

  function UpdateDraft(db: Db, i: nat, rows: seq<Item>, tax: int, extra: int): Db {
    if i >= |db.invoices| || db.invoices[i].status != Draft then db
    else
      var bill := db.invoices[i].bill.(rows := rows, tax := tax, extra := extra);
      db.(invoices := db.invoices[i := db.invoices[i].(bill := bill, total := InvoiceTotal(db.ties, bill))])
  }

  /** Issue a draft with a positive total, taking the technician's percentages unless some
      are already snapshotted. */
  function IssueInvoice(db: Db, i: nat, current: Percents): Db {
    if i >= |db.invoices| || db.invoices[i].status != Draft || Total100(db.invoices[i].bill) <= 0 then db
    else
      var invoice := db.invoices[i];
      var percents := if invoice.bill.percents == Percents(0, 0, 0) && invoice.technician.Some?
                      then current else invoice.bill.percents;
      db.(invoices := db.invoices[i := invoice.(status := Issued, total := InvoiceTotal(db.ties, invoice.bill),
                                                bill := invoice.bill.(percents := percents))])
  }

  /** A campaign discount on an issued invoice. */
  function DiscountInvoice(db: Db, i: nat, amount: int): Db {
    if i >= |db.invoices| || db.invoices[i].status != Issued || db.invoices[i].total <= 0 || amount <= 0 then db
    else
      var bill := db.invoices[i].bill.(campaign := db.invoices[i].bill.campaign + amount);
      db.(invoices := db.invoices[i := db.invoices[i].(bill := bill, total := InvoiceTotal(db.ties, bill))])
  }

  function CancelInvoice(db: Db, i: nat): Db {
    if i >= |db.invoices| || db.invoices[i].status !in {Draft, Issued} then db
    else db.(invoices := db.invoices[i := db.invoices[i].(status := InvoiceCancelled)])
  }

  /** A cancellation request arrives or is reviewed. */
  function SetCancelPending(db: Db, i: nat, pending: bool): Db {
    if i >= |db.invoices| || db.invoices[i].status !in {Draft, Issued} then db
    else db.(invoices := db.invoices[i := db.invoices[i].(cancelPending := pending)])
  }

  // ------------------------------------------------------------------------- Runs

  datatype Action =
    | DoCreateInvoice(company: nat, technician: Option<nat>, rows: seq<Item>, tax: int, extra: int)
    | DoUpdateDraft(invoice: nat, rows: seq<Item>, tax: int, extra: int)
    | DoIssue(invoice: nat, current: Percents)
    | DoDiscount(invoice: nat, amount: int)
    | DoCancelInvoice(invoice: nat)
    | DoSetCancelPending(invoice: nat, pending: bool)
    | DoStart(invoice: nat, gateway: Option<Gateway>, allowed: bool, initiated: InitiateResponse, now: int)
    | DoCallback(company: nat, reference: string, response: VerifyResponse, now: int, faults: Faults)
    | DoExpire(payment: nat, now: int, age: int)
    | DoTechnicianCash(invoice: nat, reference: string, now: int, faults: Faults)
    | DoAdminCash(invoice: nat, byTechnician: bool, now: int, faults: Faults)
    | DoProcess(task: nat, faults: Faults, recordFault: bool)

  function Apply(db: Db, a: Action): Db {
    match a
    case DoCreateInvoice(company, technician, rows, tax, extra) =>
      CreateInvoice(db, company, technician, rows, tax, extra)
    case DoUpdateDraft(i, rows, tax, extra) => UpdateDraft(db, i, rows, tax, extra)
    case DoIssue(i, current) => IssueInvoice(db, i, current)
    case DoDiscount(i, amount) => DiscountInvoice(db, i, amount)
    case DoCancelInvoice(i) => CancelInvoice(db, i)
    case DoSetCancelPending(i, pending) => SetCancelPending(db, i, pending)
    case DoStart(i, gateway, allowed, initiated, now) => Start(db, i, gateway, allowed, initiated, now)
    case DoCallback(company, reference, response, now, faults) =>
      Callback(db, company, reference, response, now, faults)
    case DoExpire(p, now, age) => Expire(db, p, now, age)
    case DoTechnicianCash(i, reference, now, faults) => TechnicianCash(db, i, reference, now, faults)
    case DoAdminCash(i, byTechnician, now, faults) => AdminCash(db, i, byTechnician, now, faults)
    case DoProcess(t, faults, recordFault) => ProcessTask(db, t, faults, recordFault)
  }

  function Run(db: Db, actions: seq<Action>): Db
    decreases |actions|
  {
    if actions == [] then db else Run(Apply(db, actions[0]), actions[1..])
  }
}
