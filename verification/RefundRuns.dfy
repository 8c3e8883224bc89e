/** Runs from empty tables that reach what refunds do not settle: a fee and an escrow record
    still queued, a fee credited twice, and a wage taken back twice. */
module RefundRuns {
  import opened Options
  import opened Ledgers
  import opened Escrows
  import opened WageSplit
  import opened EscrowAgreement
  import opened PaymentFlow
  import opened PaymentSafety
  import opened RetryConvergence
  import opened FailingRuns
  import opened Refunds
  import opened RefundLimits
  import opened QueuedWrites

  // ------------------------------------------------------------------- The pieces

  function Nothing(ties: Ties, policies: map<nat, Policies>): Books {
    Books(Empty(ties, policies), [])
  }

  function Payments(actions: seq<Action>): seq<Step> {
    seq(|actions|, k requires 0 <= k < |actions| => DoPayment(actions[k]))
  }

  lemma {:induction false} PaymentsTaken(b: Books, actions: seq<Action>)
    ensures TakeAll(b, Payments(actions)) == b.(db := Run(b.db, actions))
    decreases |actions|
  {
    hide Apply;
    if actions != [] {
      assert Payments(actions) == [DoPayment(actions[0])] + Payments(actions[1..]);
      TakeFirst(b, DoPayment(actions[0]), Payments(actions[1..]));
      PaymentsTaken(b.(db := Apply(b.db, actions[0])), actions[1..]);
    }
  }

  /** A run of payments, then a full refund of its first invoice drafted, submitted and
      approved. */
  lemma RefundApproved(ties: Ties, policies: map<nat, Policies>, actions: seq<Action>, company: nat, reason: string)
    returns (steps: seq<Step>, b: Books)
    requires var s := Run(Empty(ties, policies), actions);
             0 < |s.invoices| && s.invoices[0].status == InvoicePaid && 0 < s.invoices[0].total
    requires !Blank(reason)
    ensures b == TakeAll(Nothing(ties, policies), steps) && Reconciled(b)
    ensures b == Books(Run(Empty(ties, policies), actions),
                       [Document(company, 0, FullRefund, 1, ApprovedDocument, None, None)])
  {
    hide Run, TakeAll, Reconciled, Payments, Blank;
    var nothing := Nothing(ties, policies);
    PaymentsTaken(nothing, actions);
    NothingIsReconciled(ties, policies);
    EveryRunReconciles(nothing, Payments(actions));
    var approving;
    approving, b := ApprovedRun(TakeAll(nothing, Payments(actions)), company, 0, reason);
    steps := Payments(actions) + approving;
    TakeAllAppended(nothing, Payments(actions), approving);
  }

  lemma NothingIsReconciled(ties: Ties, policies: map<nat, Policies>)
    ensures Reconciled(Nothing(ties, policies))
  {
    NothingIsOrderly(ties, policies);
  }

  /** The company's fee on `total`: something, and no more than all of it. */
  predicate Charges(policies: map<nat, Policies>, company: nat, total: nat) {
    company in policies && 0 < PlatformFee(total, policies[company].feePercent100) <= total
  }

  /** An invoice with two payments started, the first one approved. */
  function FirstApprovedActions(company: nat, rows: seq<Item>, now: int, faults: Faults): seq<Action> {
    OpeningActions(company, None, rows, ["A", "B"], now) + [DoCallback(company, "A", APPROVED, now, faults)]
  }

  /** Settled by its first payment, which is distributed; the second is still pending. */
  predicate Half(s: Db, ties: Ties, policies: map<nat, Policies>, company: nat, rows: seq<Item>, now: int) {
    var total := InvoiceTotal(ties, PlainBill(rows));
    && s.policies == policies && |s.invoices| == 1 && s.invoices[0].company == company
    && s.invoices[0].status == InvoicePaid && s.invoices[0].settlement.Some? && s.invoices[0].total == total
    && s.invoices[0].technician == None
    && |s.payments| == 2 && s.payments[0].company == company && s.payments[0].ThroughPlatform()
    && s.payments[0].status == Paid && s.payments[1] == Started(company, total, "B", now)
    && s.escrows.Keys == {0} && s.escrows[0].status == Distributed && s.escrows[0].invoice == Some(0)
  }

  /** The writes after the first payment, of which only the fee may fail. */
  lemma Written(ties: Ties, policies: map<nat, Policies>, settled: Db, company: nat, failing: bool)
    requires settled == Empty(ties, policies).(invoices := settled.invoices, payments := settled.payments)
    requires |settled.invoices| == 1 && settled.invoices[0].company == company && settled.invoices[0].technician == None
             && Wage(settled.invoices[0]) == 0
    requires |settled.payments| == 2 && settled.payments[0].ThroughPlatform() && settled.payments[0].status == Paid
             && settled.payments[0].company == company && settled.payments[0].invoice == Some(0)
             && settled.payments[0].amount == settled.invoices[0].total
    requires Charges(policies, company, settled.invoices[0].total)
    ensures var faults := NO_FAULTS.(fee := failing);
            var end := PostDirect(Rest(TryEscrow(settled, 0, 0, faults), 0, 0, faults), 0, faults);
            && end == settled.(escrows := end.escrows, feeRows := end.feeRows, tasks := end.tasks)
            && end.escrows.Keys == {0} && end.escrows[0].status == Distributed && end.escrows[0].invoice == Some(0)
            && (failing ==> end.feeRows == [] && end.tasks == [Task(FeeTask, company, Some(0), Some(0), Waiting, 0)])
            && (!failing ==>
                  && end.tasks == [] && |end.feeRows| == 1
                  && end.feeRows[0].entry
                     == Entry(Company(company), Debit, OnlineGateway, Commission(settled, 0), InvoiceFee(0)))
  {
    hide Wage, PlatformFee;
  }

  lemma FirstApprovedIs(ties: Ties, policies: map<nat, Policies>, company: nat, rows: seq<Item>, now: int,
      failing: bool) returns (s: Db)
    requires 0 < Total100(PlainBill(rows)) && Charges(policies, company, InvoiceTotal(ties, PlainBill(rows)))
    ensures s == Run(Empty(ties, policies), FirstApprovedActions(company, rows, now, NO_FAULTS.(fee := failing)))
    ensures Half(s, ties, policies, company, rows, now)
    ensures failing ==> s.feeRows == [] && s.tasks == [Task(FeeTask, company, Some(0), Some(0), Waiting, 0)]
    ensures !failing ==>
              && s.tasks == [] && |s.feeRows| == 1
              && s.feeRows[0].entry == Entry(Company(company), Debit, OnlineGateway, Commission(s, 0), InvoiceFee(0))
  {
    var faults := NO_FAULTS.(fee := failing);
    var base := OpenedDb(ties, policies, company, None, rows, ["A", "B"], now);
    var settled := Settling(base, 0, 0, APPROVED.tracking, now);
    Opening(ties, policies, company, None, rows, ["A", "B"], now);
    FirstFound(ties, policies, company, rows, now, faults);
    FirstSettled(ties, policies, company, rows, now, faults);
    hide OpenedDb, OpeningActions, Apply, Run, Verify, MarkPaid, AcceptPayment, CanBePaid, Settling, Wage, Rest,
      TryEscrow, PostDirect, InvoiceTotal, Total100, Charges, PlatformFee;
    RunThen(ties, policies, OpeningActions(company, None, rows, ["A", "B"], now), base,
        DoCallback(company, "A", APPROVED, now, faults));
    VerifyPaysIs(base, 0, 0, APPROVED, now, faults);
    MarkPaidIs(base, 0, 0, APPROVED.tracking, now, faults);
    Written(ties, policies, settled, company, failing);
    s := Run(Empty(ties, policies), FirstApprovedActions(company, rows, now, faults));
  }

  /** Through that payment's record a document of the invoice can be executed. */
  lemma HalfIsExecutable(b: Books, d: nat, ties: Ties, policies: map<nat, Policies>, company: nat, rows: seq<Item>,
      now: int)
    requires Half(b.db, ties, policies, company, rows, now)
    requires d < |b.documents| && b.documents[d].status == ApprovedDocument && b.documents[d].kind == FullRefund
    ensures Executable(b, d, Some(0), false) && MayFind(b.db, Some(0), company, 0)
  {
    hide InvoiceTotal, PlainBill;
  }

  lemma HalfIsPaid(s: Db, ties: Ties, policies: map<nat, Policies>, company: nat, rows: seq<Item>, now: int)
    requires Half(s, ties, policies, company, rows, now)
             && Charges(policies, company, InvoiceTotal(ties, PlainBill(rows)))
    ensures |s.invoices| == 1 && s.invoices[0].status == InvoicePaid && 0 < s.invoices[0].total
    ensures s.invoices[0].company == company && 0 < Commission(s, 0) && |s.payments| == 2
    ensures FeeEntries(s, 0, Some(0)) != []
  {
    hide InvoiceTotal, PlainBill, PlatformFee;
  }

  // ----------------------------------------------------------------- A queued fee

  /** The first payment's fee fails, the invoice is refunded, the fee is retried. */
  lemma QueuedFeeRun(ties: Ties, policies: map<nat, Policies>, company: nat, rows: seq<Item>, now: int, reason: string)
    returns (steps: seq<Step>)
    requires 0 < Total100(PlainBill(rows)) && Charges(policies, company, InvoiceTotal(ties, PlainBill(rows)))
    requires !Blank(reason)
    ensures var end := TakeAll(Nothing(ties, policies), steps);
            && |end.documents| == 1 && end.documents[0].status == Applied
            && Concerns(end.documents[0], company, 0) && 0 < NetFee(end, company, 0)
  {
    hide Reconciled, TakeAll, Blank, FirstApprovedActions, Half, Charges, PlatformFee, NetFee, Run, Nothing, Total100,
      InvoiceTotal, Take, Execute, Executable, MayFind, Commission, FeeEntries;
    var s := FirstApprovedIs(ties, policies, company, rows, now, true);
    HalfIsPaid(s, ties, policies, company, rows, now);
    var first, b := RefundApproved(ties, policies, FirstApprovedActions(company, rows, now, NO_FAULTS.(fee := true)),
        company, reason);
    HalfIsExecutable(b, 0, ties, policies, company, rows, now);
    QueuedFeeOutlivesRefund(b, 0, Some(0), false, 0);
    var execute, retry := DoExecute(0, Some(0), false, false), DoPayment(DoProcess(0, NO_FAULTS, false));
    steps := first + [execute, retry];
    TakeAllAppended(Nothing(ties, policies), first, [execute, retry]);
    TakeTwo(b, execute, retry);
    RetryKeepsDocuments(b, 0, Some(0), 0);
  }

  /** Executing document `d` and retrying a task afterwards keeps what it concerns. */
  lemma RetryKeepsDocuments(b: Books, d: nat, found: Option<nat>, t: nat)
    requires Executable(b, d, found, false) && MayFind(b.db, found, b.documents[d].company, b.documents[d].invoice)
    ensures var execute, retry := DoExecute(d, found, false, false), DoPayment(DoProcess(t, NO_FAULTS, false));
            var end := Take(Take(b, execute), retry);
            && Take(b, execute) == Execute(b, d, found, false, false)
            && |end.documents| == |b.documents| && Concerns(end.documents[d], b.documents[d].company,
                 b.documents[d].invoice)
  {
    ExecutableIs(b, d, found, false);
    ExecuteLands(b, d, found, false);
    EscrowsAfter(b, d, found, false);
    ExecuteTaken(b, d, found, false);
    hide Executable, Execute, MayFind, Take, Reverse;
    ProcessTaken(Execute(b, d, found, false, false), t);
  }

  // -------------------------------------------------------- A queued escrow record

  function FirstUnheldActions(company: nat, rows: seq<Item>, now: int): seq<Action> {
    FirstApprovedActions(company, rows, now, NO_FAULTS.(create := true))
  }

  /** The first payment's escrow record fails, the invoice is refunded, the record is retried
      and distributed. */
  lemma QueuedEscrowRun(ties: Ties, company: nat, rows: seq<Item>, now: int, reason: string) returns (steps: seq<Step>)
    requires 0 < InvoiceTotal(ties, PlainBill(rows)) && !Blank(reason)
    ensures var end := TakeAll(Nothing(ties, NO_POLICIES), steps);
            && |end.documents| == 1 && end.documents[0].status == Applied
            && Concerns(end.documents[0], company, 0)
            && 0 in end.db.escrows && end.db.escrows[0].status == Distributed
  {
    hide Reconciled, TakeAll, Blank, FirstUnheldActions, Run, Nothing, Total100, InvoiceTotal, Take, Execute,
      Executable, MayFind, Distributes;
    var s := FirstUnheldIs(ties, company, rows, now);
    var first, b := RefundApproved(ties, NO_POLICIES, FirstUnheldActions(company, rows, now), company, reason);
    UnheldIsExecutable(b, 0);
    NothingFound(b.db, company, 0);
    QueuedEscrowOutlivesRefundIff(b, 0, None, false, 0, 0);
    var execute, retry := DoExecute(0, None, false, false), DoPayment(DoProcess(0, NO_FAULTS, false));
    steps := first + [execute, retry];
    TakeAllAppended(Nothing(ties, NO_POLICIES), first, [execute, retry]);
    TakeTwo(b, execute, retry);
    RetryKeepsDocuments(b, 0, None, 0);
  }

  lemma NothingFound(db: Db, company: nat, invoice: nat)
    requires db.escrows == map[]
    ensures MayFind(db, None, company, invoice)
  {
  }

  lemma FirstUnheldIs(ties: Ties, company: nat, rows: seq<Item>, now: int) returns (s: Db)
    requires 0 < InvoiceTotal(ties, PlainBill(rows))
    ensures s == Run(Empty(ties, NO_POLICIES), FirstUnheldActions(company, rows, now))
    ensures |s.invoices| == 1 && s.invoices[0].status == InvoicePaid && 0 < s.invoices[0].total
    ensures s.tasks == [Task(EscrowTask, company, Some(0), Some(0), Waiting, 0)] && s.escrows == map[]
    ensures Distributes(s, 0, 0)
  {
    hide OpenedDb, OpeningActions, Apply, Run, Wage, InvoiceTotal, Total100, Verified, GuardedStep, Distributes;
    PositiveTotal(ties, PlainBill(rows));
    var base, faults := OpenedDb(ties, NO_POLICIES, company, None, rows, ["A", "B"], now), NO_FAULTS.(create := true);
    Opening(ties, NO_POLICIES, company, None, rows, ["A", "B"], now);
    FirstIs(ties, company, rows, now);
    RunThen(ties, NO_POLICIES, OpeningActions(company, None, rows, ["A", "B"], now), base,
        DoCallback(company, "A", APPROVED, now, faults));
    s := Run(Empty(ties, NO_POLICIES), FirstUnheldActions(company, rows, now));
    UnheldDistributes(s);
  }

  lemma PositiveTotal(ties: Ties, bill: Bill)
    requires 0 < InvoiceTotal(ties, bill)
    ensures 0 < Total100(bill)
  {
    assert RoundHundredths(ties, 0) == 0;
    hide Subtotal100;
  }

  lemma UnheldDistributes(s: Db)
    requires s.escrows == map[] && s.policies == map[] && |s.invoices| == 1 && Wage(s.invoices[0]) == 0
    requires |s.payments| == 2 && s.payments[0].ThroughPlatform() && 0 < s.payments[0].amount
    ensures Distributes(s, 0, 0)
  {
    hide Wage;
  }

  // ------------------------------------------------------------ A fee credited twice

  /** The invoice is refunded through its first payment's record; the second payment, approved
      late, gets a record, and a second document is executed through that. */
  lemma DoubleCreditRun(ties: Ties, policies: map<nat, Policies>, company: nat, rows: seq<Item>, now: int,
      reason: string) returns (steps: seq<Step>)
    requires 0 < Total100(PlainBill(rows)) && Charges(policies, company, InvoiceTotal(ties, PlainBill(rows)))
    requires !Blank(reason)
    ensures var end := TakeAll(Nothing(ties, policies), steps);
            2 <= FeeReversals(end.documents, company, 0) && NetFee(end, company, 0) < 0
  {
    hide Reconciled, TakeAll, Blank, FirstApprovedActions, Half, Charges, PlatformFee, NetFee, Run, Nothing, Total100,
      InvoiceTotal, Take, Execute, Executable, MayFind, Commission, FeeEntries, FeeOf, FeeReversals;
    var s := FirstApprovedIs(ties, policies, company, rows, now, false);
    HalfIsPaid(s, ties, policies, company, rows, now);
    RecordedFee(s.feeRows, company, Commission(s, 0));
    var first, b := RefundApproved(ties, policies, FirstApprovedActions(company, rows, now, NO_FAULTS.(fee := false)),
        company, reason);
    HalfIsExecutable(b, 0, ties, policies, company, rows, now);
    var landed := Execute(b, 0, Some(0), false, false);
    var more, later := SecondRefundReady(b, ties, policies, company, rows, now, reason);
    FeeIsCreditedTwice(b, 0, 0, more, 1, 1);
    var execute, again := DoExecute(0, Some(0), false, false), DoExecute(1, Some(1), false, false);
    ExecuteTaken(b, 0, Some(0), false);
    ExecuteTaken(later, 1, Some(1), false);
    steps := first + ([execute] + (more + [again]));
    TakeAllAppended(Nothing(ties, policies), first, [execute] + (more + [again]));
    TakeFirst(b, execute, more + [again]);
    TakeAllAppended(landed, more, [again]);
    TakeOne(later, again);
  }

  lemma RecordedFee(rows: seq<Row>, company: nat, fee: int)
    requires |rows| == 1 && rows[0].entry == Entry(Company(company), Debit, OnlineGateway, fee, InvoiceFee(0))
    ensures FeeOf(rows, company, 0) == Some(fee)
  {
  }

  /** After the refund: the second payment is approved, and a second document with it. */
  lemma SecondRefundReady(b: Books, ties: Ties, policies: map<nat, Policies>, company: nat, rows: seq<Item>, now: int,
      reason: string) returns (steps: seq<Step>, later: Books)
    requires Half(b.db, ties, policies, company, rows, now) && Reconciled(b) && !Blank(reason)
    requires 0 < b.db.invoices[0].total
    requires b.documents == [Document(company, 0, FullRefund, 1, ApprovedDocument, None, None)]
    ensures later == TakeAll(Execute(b, 0, Some(0), false, false), steps)
    ensures Executable(later, 1, Some(1), false) && Concerns(later.documents[1], company, 0)
            && MayFind(later.db, Some(1), company, 0)
  {
    hide Reconciled, TakeAll, Blank, Half, MayFind, Executable, Execute, Reverse, Take, Apply;
    var landed := Execute(b, 0, Some(0), false, false);
    HalfIsExecutable(b, 0, ties, policies, company, rows, now);
    ExecuteLands(b, 0, Some(0), false);
    EscrowsAfter(b, 0, Some(0), false);
    ExecuteReconciles(b, 0, Some(0));
    var callback := DoCallback(company, "B", APPROVED, now, NO_FAULTS);
    var approved := Take(landed, DoPayment(callback));
    PaymentTaken(landed, callback);
    LateIsHeld(b.db, landed.db, ties, policies, company, rows, now);
    StepReconciles(landed, DoPayment(callback));
    var approving;
    HalfHasInvoice(b.db, ties, policies, company, rows, now);
    approving, later := ApprovedRun(approved, company, 0, reason);
    steps := [DoPayment(callback)] + approving;
    TakeFirst(landed, DoPayment(callback), approving);
    SecondIsExecutable(later, company);
  }

  lemma PaymentTaken(b: Books, a: Action)
    ensures Take(b, DoPayment(a)) == b.(db := Apply(b.db, a))
  {
    hide Apply;
  }

  lemma HalfHasInvoice(s: Db, ties: Ties, policies: map<nat, Policies>, company: nat, rows: seq<Item>, now: int)
    requires Half(s, ties, policies, company, rows, now)
    ensures |s.invoices| == 1 && s.invoices[0].status == InvoicePaid
  {
  }

  lemma SecondIsExecutable(b: Books, company: nat)
    requires 1 < |b.documents| && b.documents[1] == Document(company, 0, FullRefund, 1, ApprovedDocument, None, None)
    requires 1 < |b.db.payments| && b.db.payments[1].company == company
    requires 1 in b.db.escrows && b.db.escrows[1].status == Held && b.db.escrows[1].invoice == Some(0)
    ensures Executable(b, 1, Some(1), false) && MayFind(b.db, Some(1), company, 0)
  {
  }

  /** The second payment, approved after the invoice was settled, is only held. */
  lemma LateIsHeld(before: Db, db: Db, ties: Ties, policies: map<nat, Policies>, company: nat, rows: seq<Item>,
      now: int)
    requires Half(before, ties, policies, company, rows, now)
    requires db == before.(feeRows := db.feeRows, technicianRows := db.technicianRows, escrows := db.escrows)
             && db.escrows.Keys == before.escrows.Keys
    ensures var end := Apply(db, DoCallback(company, "B", APPROVED, now, NO_FAULTS));
            && end.invoices == db.invoices && |end.payments| == 2 && end.payments[1].company == company
            && 1 in end.escrows && end.escrows[1].status == Held && end.escrows[1].invoice == Some(0)
  {
    hide InvoiceTotal, PlainBill, Wage, Verify, AcceptPayment, PostDirect;
    assert 'B' in "B";
    assert FindByReference(db.payments, company, "B", 2) == Some(1);
    VerifiedLate(db, 1, APPROVED, now);
    LateAccepted(db, now);
    PostDirectKeepsEscrows(AcceptPayment(db, 1, APPROVED.tracking, now, NO_FAULTS), 1);
  }

  lemma VerifiedLate(db: Db, p: nat, response: VerifyResponse, now: int)
    requires Verified(db, p, response, now) && !InvoiceIssued(db, p)
    ensures Verify(db, p, response, now, NO_FAULTS)
            == PostDirect(AcceptPayment(db, p, response.tracking, now, NO_FAULTS), p, NO_FAULTS)
  {
    hide AcceptPayment, PostDirect, MarkPaid;
  }

  lemma LateAccepted(db: Db, now: int)
    requires |db.payments| == 2 && db.payments[1].ThroughPlatform() && 1 !in db.escrows
    ensures var end := AcceptPayment(db, 1, APPROVED.tracking, now, NO_FAULTS);
            && end == db.(payments := end.payments, escrows := end.escrows) && |end.payments| == 2
            && end.payments[1].company == db.payments[1].company
            && 1 in end.escrows && end.escrows[1] == HeldRecord(db.payments[1].invoice, db.payments[1].amount)
  {
  }

  lemma PostDirectKeepsEscrows(db: Db, p: nat)
    ensures var end := PostDirect(db, p, NO_FAULTS);
            end.escrows == db.escrows && end.payments == db.payments && end.invoices == db.invoices
  {
    hide DirectEntries, Post, HasOpenTask;
  }

  // ------------------------------------------------------------- A wage, twice

  /** One service row at a whole price. */
  function ServiceRow(price: nat): Item {
    Item(Service, OtherText, 100, price, 0, price)
  }

  const ALL_SERVICE := Percents(10000, 0, 0)

  /** An invoice of that row, issued with the whole service price as wage. */
  function IssueActions(company: nat, technician: nat, price: nat): seq<Action> {
    [DoCreateInvoice(company, Some(technician), [ServiceRow(price)], 0, 0), DoIssue(0, ALL_SERVICE)]
  }

  function IssuedDb(ties: Ties, policies: map<nat, Policies>, company: nat, technician: nat, price: nat): Db {
    var bill := Bill([ServiceRow(price)], ALL_SERVICE, 0, 0, 0);
    Empty(ties, policies).(invoices := [Invoice(company, Some(technician), Issued, bill, price, false, None)])
  }

  lemma RowPrices(ties: Ties, price: nat, percents: Percents)
    ensures var bill := Bill([ServiceRow(price)], percents, 0, 0, 0);
            Total100(bill) == 100 * price && InvoiceTotal(ties, bill) == price
            && CategoryTotals(bill.rows) == Totals(price, 0, 0)
  {
    var rows := [ServiceRow(price)];
    assert rows[..|rows| - 1] == [];
    assert NetPrice100(rows[0]) == 100 * price;
    assert Subtotal100(rows) == 100 * price;
  }

  lemma WholeShare(n: nat)
    ensures HalfUp(n * 10000, 10000) == n
  {
  }

  lemma RowWage(price: nat, extra: Policy, campaign: Policy)
    ensures CalculateSplit(Bill([ServiceRow(price)], ALL_SERVICE, 0, 0, 0), extra, campaign).finalTech == price
  {
    hide CategoryTotals, HalfUp, Total100, InvoiceTotal, ServiceRow;
    RowPrices(AwayFromZero, price, ALL_SERVICE);
    WholeShare(price);
    WholeShare(0);
  }

  lemma CashIssued(ties: Ties, policies: map<nat, Policies>, company: nat, technician: nat, price: nat)
    requires 0 < price
    ensures Run(Empty(ties, policies), IssueActions(company, technician, price))
            == IssuedDb(ties, policies, company, technician, price)
  {
    var create, issue := DoCreateInvoice(company, Some(technician), [ServiceRow(price)], 0, 0), DoIssue(0, ALL_SERVICE);
    var empty := Empty(ties, policies);
    RowPrices(ties, price, Percents(0, 0, 0));
    RowPrices(ties, price, ALL_SERVICE);
    assert [create, issue] == [create] + [issue];
    RunAppended(empty, [create], [issue]);
    RunOne(empty, create);
    RunOne(Apply(empty, create), issue);
    hide Run, InvoiceTotal, Total100, ServiceRow;
    var created := empty.(invoices := [Invoice(company, Some(technician), Draft,
        Bill([ServiceRow(price)], Percents(0, 0, 0), 0, 0, 0), price, false, None)]);
    assert Apply(empty, create) == created;
    assert Apply(created, issue).invoices == IssuedDb(ties, policies, company, technician, price).invoices;
  }

  /** Paid in cash: the wage is credited, and there is no escrow record. */
  lemma CashPaid(ties: Ties, policies: map<nat, Policies>, company: nat, technician: nat, price: nat, now: int)
    requires 0 < price
    ensures var s := Apply(IssuedDb(ties, policies, company, technician, price), DoAdminCash(0, false, now, NO_FAULTS));
            && |s.invoices| == 1 && s.invoices[0].status == InvoicePaid && s.invoices[0].total == price
            && s.invoices[0].technician == Some(technician) && Wage(s.invoices[0]) == price && s.escrows == map[]
            && GetBalance(s.technicianRows, Technician(company, technician)) == price
  {
    hide Settle, PostPaid, IssuedDb, GetBalance, Wage, Apply;
    var base := IssuedDb(ties, policies, company, technician, price);
    CashReceived(ties, policies, company, technician, price, now);
    var payment := CashPayment(base, 0, "", false, now, None);
    var settled := Settle(base.(payments := [payment]), 0, Some(0), "cash", "", now);
    CashSettled(ties, policies, company, technician, price, payment, now);
    PostPaidTouchesNoInvoice(settled, 0, Some(0), NO_FAULTS);
    CashWritten(settled, company, technician, price);
  }

  lemma CashReceived(ties: Ties, policies: map<nat, Policies>, company: nat, technician: nat, price: nat, now: int)
    ensures var base := IssuedDb(ties, policies, company, technician, price);
            && |base.invoices| == 1
            && Apply(base, DoAdminCash(0, false, now, NO_FAULTS))
               == PostPaid(Settle(base.(payments := [CashPayment(base, 0, "", false, now, None)]), 0, Some(0), "cash",
                   "",
                                  now), 0, Some(0), NO_FAULTS)
  {
    hide Settle, PostPaid, ServiceRow;
    var base := IssuedDb(ties, policies, company, technician, price);
    var payment := CashPayment(base, 0, "", false, now, None);
    assert base.payments + [payment] == [payment];
  }

  lemma CashSettled(ties: Ties, policies: map<nat, Policies>, company: nat, technician: nat, price: nat,
      payment: Payment, now: int)
    ensures var db := IssuedDb(ties, policies, company, technician, price).(payments := [payment]);
            var settled := Settle(db, 0, Some(0), "cash", "", now);
            && |settled.invoices| == 1 && settled.payments == [payment] && settled.escrows == map[]
            && settled.technicianRows == [] && settled.feeRows == []
            && settled.invoices[0].status == InvoicePaid && settled.invoices[0].total == price
            && settled.invoices[0].technician == Some(technician) && settled.invoices[0].company == company
            && Wage(settled.invoices[0]) == price
  {
    var policy := PolicyOf(Empty(ties, policies), company);
    RowWage(price, policy.extra, policy.campaign);
    hide CalculateSplit, MethodOf, ReferenceOf, ServiceRow;
  }

  lemma CashWritten(settled: Db, company: nat, technician: nat, price: nat)
    requires 0 < price && settled.technicianRows == [] && settled.feeRows == [] && settled.escrows == map[]
    requires |settled.invoices| == 1 && settled.invoices[0].company == company
             && settled.invoices[0].technician == Some(technician) && Wage(settled.invoices[0]) == price
    requires |settled.payments| == 1 && settled.payments[0].gateway == None
             && !settled.payments[0].collectedByTechnician
    ensures var s := PostPaid(settled, 0, Some(0), NO_FAULTS);
            && s.invoices == settled.invoices && s.escrows == map[]
            && GetBalance(s.technicianRows, Technician(company, technician)) == price
  {
    hide Wage, Online;
    var owner := Technician(company, technician);
    var es := InvoiceEntries(Facts(settled, 0, Some(0)));
    assert |es| == 1 && es[0].owner == owner && es[0].kind == Credit && es[0].amount == price;
    PostMoves([], es[0], owner);
    hide InvoiceEntries, Facts, GetBalance;
  }

  /** The cash invoice is refunded twice, and the technician is left owing a wage. */
  lemma DoubleWageRun(ties: Ties, policies: map<nat, Policies>, company: nat, technician: nat, price: nat, now: int,
      reason: string) returns (steps: seq<Step>)
    requires 0 < price && !Blank(reason)
    ensures GetBalance(TakeAll(Nothing(ties, policies), steps).db.technicianRows, Technician(company, technician))
            == price - 2 * price
  {
    hide TakeAll, Run, Apply, Blank, Reconciled, GetBalance, Wage, MayFind, IssuedDb, IssueActions, Payments;
    var nothing, cash := Nothing(ties, policies), DoAdminCash(0, false, now, NO_FAULTS);
    var actions := IssueActions(company, technician, price) + [cash];
    CashIssued(ties, policies, company, technician, price);
    RunThen(ties, policies, IssueActions(company, technician, price),
        IssuedDb(ties, policies, company, technician, price), cash);
    CashPaid(ties, policies, company, technician, price, now);
    PaymentsTaken(nothing, actions);
    NothingIsReconciled(ties, policies);
    EveryRunReconciles(nothing, Payments(actions));
    var paid := TakeAll(nothing, Payments(actions));
    NothingFound(paid.db, company, 0);
    var more := RefundTwiceRun(paid, company, 0, reason, Technician(company, technician));
    steps := Payments(actions) + more;
    TakeAllAppended(nothing, Payments(actions), more);
  }
}
