/** Runs from empty tables that reach the states in which a promise of the payment flow
    fails: a payment approved after cash settled its invoice, a second payment approved while
    the first one's escrow is still queued, and cash collected without any wage. */
module FailingRuns {
  import opened Options
  import opened Ledgers
  import opened Escrows
  import opened WageSplit
  import opened EscrowAgreement
  import opened PaymentFlow
  import opened PaymentSafety
  import opened RetryConvergence
  import opened ConvergenceLimits

  function Empty(ties: Ties, policies: map<nat, Policies>): Db {
    Db(ties, policies, [], [], map[], [], [], [])
  }

  const NO_POLICIES: map<nat, Policies> := map[]

  const APPROVED := Approved(None, "ok")

  // ------------------------------------------------------------------- The pieces

  /** A bill without discounts, tax or wage. */
  function PlainBill(rows: seq<Item>): Bill {
    Bill(rows, Percents(0, 0, 0), 0, 0, 0)
  }

  function PlainInvoice(ties: Ties, company: nat, technician: Option<nat>, rows: seq<Item>,
      status: InvoiceStatus): Invoice {
    Invoice(company, technician, status, PlainBill(rows), InvoiceTotal(ties, PlainBill(rows)), false, None)
  }

  function Started(company: nat, total: int, reference: string, now: int): Payment {
    Payment(company, Some(0), Some(Gateway(company, true, "fake", true)), total, Pending, reference, "", now, None, "",
        false,
            NoRemark)
  }

  function StartAction(company: nat, reference: string, now: int): Action {
    DoStart(0, Some(Gateway(company, true, "fake", true)), true, Redirected(reference), now)
  }

  /** An invoice created, issued and paid for online, with `references` handed out. */
  function OpenedDb(ties: Ties, policies: map<nat, Policies>, company: nat, technician: Option<nat>, rows: seq<Item>,
      references: seq<string>,
      now: int): Db {
    var invoice := PlainInvoice(ties, company, technician, rows, Issued);
    Empty(ties, policies).(invoices := [invoice],
           payments := seq(|references|,
               k requires 0 <= k < |references| => Started(company, invoice.total, references[k], now)))
  }

  function OpeningActions(company: nat, technician: Option<nat>, rows: seq<Item>, references: seq<string>,
      now: int): seq<Action>
  {
    [DoCreateInvoice(company, technician, rows, 0, 0), DoIssue(0, Percents(0, 0, 0))]
    + seq(|references|, k requires 0 <= k < |references| => StartAction(company, references[k], now))
  }

  lemma {:induction false} RunAppended(db: Db, first: seq<Action>, second: seq<Action>)
    ensures Run(db, first + second) == Run(Run(db, first), second)
    decreases |first|
  {
    hide Apply;
    if first == [] {
      assert first + second == second;
    } else {
      assert (first + second)[1..] == first[1..] + second;
      RunAppended(Apply(db, first[0]), first[1..], second);
    }
  }

  lemma RunOne(db: Db, a: Action)
    ensures Run(db, [a]) == Apply(db, a)
  {
    hide Apply;
    assert [a][1..] == [];
  }

  lemma {:induction false} Opening(ties: Ties, policies: map<nat, Policies>, company: nat, technician: Option<nat>,
      rows: seq<Item>,
      references: seq<string>,
      now: int)
    requires 0 < Total100(PlainBill(rows))
    ensures Run(Empty(ties, policies), OpeningActions(company, technician, rows, references, now))
            == OpenedDb(ties, policies, company, technician, rows, references, now)
    decreases |references|
  {
    if references == [] {
      CreatedAndIssued(ties, policies, company, technician, rows);
      assert OpeningActions(company, technician, rows, [], now)
             == [DoCreateInvoice(company, technician, rows, 0, 0), DoIssue(0, Percents(0, 0, 0))];
      assert OpenedDb(ties, policies, company, technician, rows, [], now).payments == [];
    } else {
      var n := |references| - 1;
      var front := references[..n];
      Opening(ties, policies, company, technician, rows, front, now);
      assert OpeningActions(company, technician, rows, references, now)
             == OpeningActions(company, technician, rows, front, now) + [StartAction(company, references[n], now)];
      RunAppended(Empty(ties, policies), OpeningActions(company, technician, rows, front, now),
          [StartAction(company, references[n], now)]);
      RunOne(OpenedDb(ties, policies, company, technician, rows, front, now), StartAction(company, references[n], now));
      hide Run, OpeningActions, InvoiceTotal, Total100;
      assert Apply(OpenedDb(ties, policies, company, technician, rows, front, now),
             StartAction(company, references[n], now)).payments
             == OpenedDb(ties, policies, company, technician, rows, references, now).payments;
    }
  }

  lemma CreatedAndIssued(ties: Ties, policies: map<nat, Policies>, company: nat, technician: Option<nat>,
      rows: seq<Item>)
    requires 0 < Total100(PlainBill(rows))
    ensures Run(Empty(ties, policies),
            [DoCreateInvoice(company, technician, rows, 0, 0), DoIssue(0, Percents(0, 0, 0))])
            == Empty(ties, policies).(invoices := [PlainInvoice(ties, company, technician, rows, Issued)])
  {
    var create, issue := DoCreateInvoice(company, technician, rows, 0, 0), DoIssue(0, Percents(0, 0, 0));
    assert [create, issue] == [create] + [issue];
    RunAppended(Empty(ties, policies), [create], [issue]);
    RunOne(Empty(ties, policies), create);
    RunOne(Apply(Empty(ties, policies), create), issue);
    hide Run, InvoiceTotal;
    var created := Empty(ties, policies).(invoices := [PlainInvoice(ties, company, technician, rows, Draft)]);
    assert Apply(Empty(ties, policies), create) == created;
    assert Apply(created, issue).invoices == [PlainInvoice(ties, company, technician, rows, Issued)];
  }

  /** One more action after a run. */
  lemma RunThen(ties: Ties, policies: map<nat, Policies>, actions: seq<Action>, base: Db, a: Action)
    requires Run(Empty(ties, policies), actions) == base
    ensures Run(Empty(ties, policies), actions + [a]) == Apply(base, a)
  {
    hide Run, Apply;
    RunAppended(Empty(ties, policies), actions, [a]);
    RunOne(base, a);
  }

  lemma NoWage(rows: seq<Item>, extra: Policy, campaign: Policy)
    ensures CalculateSplit(PlainBill(rows), extra, campaign).finalTech == 0
  {
    hide CategoryTotals;
  }

  lemma {:induction false} UncalledIsGuarded(db: Db, actions: seq<Action>)
    requires forall k :: 0 <= k < |actions| ==> !actions[k].DoCallback?
    ensures Guarded(db, actions)
    decreases |actions|
  {
    hide Apply;
    if actions != [] { UncalledIsGuarded(Apply(db, actions[0]), actions[1..]); }
  }

  lemma {:induction false} GuardedAppended(db: Db, first: seq<Action>, a: Action)
    requires Guarded(db, first) && GuardedStep(Run(db, first), a)
    ensures Guarded(db, first + [a])
    decreases |first|
  {
    hide Apply, GuardedStep;
    if first == [] {
      assert first + [a] == [a] && [a][1..] == [];
    } else {
      assert (first + [a])[1..] == first[1..] + [a];
      GuardedAppended(Apply(db, first[0]), first[1..], a);
    }
  }

  lemma FromEmpty(ties: Ties, actions: seq<Action>)
    requires Guarded(Empty(ties, NO_POLICIES), actions)
    ensures Linked(Run(Empty(ties, NO_POLICIES), actions), CleanRun(Empty(ties, NO_POLICIES), actions))
  {
    LinkedToItself(Empty(ties, NO_POLICIES));
    RunLinked(Empty(ties, NO_POLICIES), Empty(ties, NO_POLICIES), actions);
  }

  // --------------------------------------------------- Approved after cash settled

  function LateApproval(company: nat, rows: seq<Item>, now: int): seq<Action> {
    OpeningActions(company, None, rows, ["A"], now) + [DoAdminCash(0, false, now, NO_FAULTS)]
  }

  /** An invoice, a platform payment started, and the invoice settled in cash: the payment can
      still be approved, and a failed escrow record for it is never repaired. */
  lemma LateApprovalIsMisrepaired(ties: Ties, company: nat, rows: seq<Item>, now: int)
    requires 0 < Total100(PlainBill(rows))
    ensures var s, c := Run(Empty(ties, NO_POLICIES), LateApproval(company, rows, now)),
            CleanRun(Empty(ties, NO_POLICIES), LateApproval(company, rows, now));
            && Linked(s, c) && Verified(s, 0, APPROVED, now) && LosesEscrow(s, 0) && NoOpenTasks(s)
            && !AlwaysRepaired(s, c, 0, APPROVED, now)
  {
    hide Run, CleanRun, Linked, OpeningActions, OpenedDb, Apply, InvoiceTotal, Total100, Verified, LosesEscrow,
      AlwaysRepaired, AllResolvable, Guarded;
    var cash := DoAdminCash(0, false, now, NO_FAULTS);
    LateIsGuarded(ties, company, rows, now);
    FromEmpty(ties, LateApproval(company, rows, now));
    Opening(ties, NO_POLICIES, company, None, rows, ["A"], now);
    RunThen(ties, NO_POLICIES, OpeningActions(company, None, rows, ["A"], now),
        OpenedDb(ties, NO_POLICIES, company, None, rows, ["A"], now),
        cash);
    CashSettles(ties, company, rows, now);
    var s := Apply(OpenedDb(ties, NO_POLICIES, company, None, rows, ["A"], now), cash);
    assert AllResolvable(s) by { NothingOpen(s); }
    RepairedIff(s, CleanRun(Empty(ties, NO_POLICIES), LateApproval(company, rows, now)), 0, APPROVED, now);
  }

  lemma NothingOpen(db: Db)
    requires db.tasks == []
    ensures AllResolvable(db)
  {
    hide Retry;
  }

  lemma LateIsGuarded(ties: Ties, company: nat, rows: seq<Item>, now: int)
    ensures Guarded(Empty(ties, NO_POLICIES), LateApproval(company, rows, now))
  {
    hide Guarded;
    UncalledIsGuarded(Empty(ties, NO_POLICIES), LateApproval(company, rows, now));
  }

  lemma CashSettles(ties: Ties, company: nat, rows: seq<Item>, now: int)
    ensures var s := Apply(OpenedDb(ties, NO_POLICIES, company, None, rows, ["A"], now),
            DoAdminCash(0, false, now, NO_FAULTS));
            s.tasks == [] && Verified(s, 0, APPROVED, now) && LosesEscrow(s, 0)
  {
    NoWage(rows, ByTechnician, ByCompany);
    hide CalculateSplit, InvoiceTotal, MethodOf, ReferenceOf, Post, HasKey, ReserveAndDistribute, PlainBill;
    var base := OpenedDb(ties, NO_POLICIES, company, None, rows, ["A"], now);
    assert base.payments == [Started(company, InvoiceTotal(ties, PlainBill(rows)), "A", now)];
  }

  // --------------------------------------------------------- Two online payments

  function SecondApproval(company: nat, rows: seq<Item>, now: int): seq<Action> {
    OpeningActions(company, None, rows, ["A", "B"], now)
    + [DoCallback(company, "A", APPROVED, now, NO_FAULTS.(create := true))]
  }

  /** Two payments of one invoice: the first is approved and its escrow record fails. While
      its task is open, the second one's failed record gets no task. */
  lemma SecondApprovalIsMisrepaired(ties: Ties, company: nat, rows: seq<Item>, now: int)
    requires 0 < Total100(PlainBill(rows))
    ensures var s, c := Run(Empty(ties, NO_POLICIES), SecondApproval(company, rows, now)),
            CleanRun(Empty(ties, NO_POLICIES), SecondApproval(company, rows, now));
            && Linked(s, c) && Verified(s, 1, APPROVED, now)
            && HasOpenTask(s.tasks, EscrowTask, company, Some(0)) && AllResolvable(s)
            && !AlwaysRepaired(s, c, 1, APPROVED, now)
  {
    hide Run, CleanRun, Linked, OpeningActions, OpenedDb, Apply, InvoiceTotal, Total100, Verified, LosesEscrow,
      AlwaysRepaired, AllResolvable, Guarded, GuardedStep, HasOpenTask;
    var opening := OpeningActions(company, None, rows, ["A", "B"], now);
    var callback := DoCallback(company, "A", APPROVED, now, NO_FAULTS.(create := true));
    var base := OpenedDb(ties, NO_POLICIES, company, None, rows, ["A", "B"], now);
    Opening(ties, NO_POLICIES, company, None, rows, ["A", "B"], now);
    FirstApproved(ties, company, rows, now);
    OpeningIsGuarded(ties, company, rows, ["A", "B"], now);
    GuardedAppended(Empty(ties, NO_POLICIES), opening, callback);
    FromEmpty(ties, SecondApproval(company, rows, now));
    RunThen(ties, NO_POLICIES, opening, base, callback);
    RepairedIff(Apply(base, callback), CleanRun(Empty(ties, NO_POLICIES), SecondApproval(company, rows, now)), 1,
        APPROVED, now);
  }

  lemma OpeningIsGuarded(ties: Ties, company: nat, rows: seq<Item>, references: seq<string>, now: int)
    ensures Guarded(Empty(ties, NO_POLICIES), OpeningActions(company, None, rows, references, now))
  {
    hide Guarded;
    UncalledIsGuarded(Empty(ties, NO_POLICIES), OpeningActions(company, None, rows, references, now));
  }

  lemma FirstApproved(ties: Ties, company: nat, rows: seq<Item>, now: int)
    ensures var base, faults := OpenedDb(ties, NO_POLICIES, company, None, rows, ["A", "B"], now),
            NO_FAULTS.(create := true);
            var s := Apply(base, DoCallback(company, "A", APPROVED, now, faults));
            && GuardedStep(base, DoCallback(company, "A", APPROVED, now, faults))
            && HasOpenTask(s.tasks, EscrowTask, company, Some(0)) && AllResolvable(s)
            && Verified(s, 1, APPROVED, now) && LosesEscrow(s, 1)
  {
    FirstIs(ties, company, rows, now);
    hide Apply, Retry, Verified, GuardedStep, OpenedDb;
    var s := Apply(OpenedDb(ties, NO_POLICIES, company, None, rows, ["A", "B"], now),
        DoCallback(company, "A", APPROVED, now, NO_FAULTS.(create := true)));
    assert s.tasks[0].kind == EscrowTask;
    RetryRaises(s, s.tasks[0]);
  }

  lemma FirstIs(ties: Ties, company: nat, rows: seq<Item>, now: int)
    ensures var base, faults := OpenedDb(ties, NO_POLICIES, company, None, rows, ["A", "B"], now),
            NO_FAULTS.(create := true);
            var s := Apply(base, DoCallback(company, "A", APPROVED, now, faults));
            && GuardedStep(base, DoCallback(company, "A", APPROVED, now, faults))
            && s.tasks == [Task(EscrowTask, company, Some(0), Some(0), Waiting, 0)] && s.escrows == map[]
            && |s.invoices| == 1 && s.invoices[0].status == InvoicePaid && s.policies == map[]
            && Wage(s.invoices[0]) == 0 && s.invoices[0].company == company
            && s.invoices[0].total == InvoiceTotal(ties, PlainBill(rows))
            && |s.payments| == 2 && s.payments[0].amount == InvoiceTotal(ties, PlainBill(rows))
                 && s.payments[0].ThroughPlatform()
            && s.payments[1] == base.payments[1] && Verified(s, 1, APPROVED, now)
            && s.payments[1].company == company && s.payments[1].invoice == Some(0) && s.payments[1].ThroughPlatform()
  {
    var base, faults := OpenedDb(ties, NO_POLICIES, company, None, rows, ["A", "B"], now), NO_FAULTS.(create := true);
    FirstIsGuarded(ties, company, rows, now);
    FirstFound(ties, NO_POLICIES, company, rows, now, faults);
    FirstSettled(ties, NO_POLICIES, company, rows, now, faults);
    hide OpenedDb, Apply, Verify, GuardedStep, MarkPaid, AcceptPayment, CanBePaid, Settling, Wage, Rest, TryEscrow,
      PostDirect;
    VerifyPaysIs(base, 0, 0, APPROVED, now, faults);
    MarkPaidIs(base, 0, 0, APPROVED.tracking, now, faults);
    NothingElse(ties, Settling(base, 0, 0, APPROVED.tracking, now), company);
  }

  lemma FirstIsGuarded(ties: Ties, company: nat, rows: seq<Item>, now: int)
    ensures var base, faults := OpenedDb(ties, NO_POLICIES, company, None, rows, ["A", "B"], now),
            NO_FAULTS.(create := true);
            GuardedStep(base, DoCallback(company, "A", APPROVED, now, faults))
  {
    hide Verify, InvoiceTotal, DirectOwed;
    var base := OpenedDb(ties, NO_POLICIES, company, None, rows, ["A", "B"], now);
    var total := InvoiceTotal(ties, PlainBill(rows));
    assert base.payments == [Started(company, total, "A", now), Started(company, total, "B", now)];
    assert FindByReference(base.payments, company, "A", 2) == Some(0);
  }

  lemma FirstFound(ties: Ties, policies: map<nat, Policies>, company: nat, rows: seq<Item>, now: int, faults: Faults)
    ensures var base := OpenedDb(ties, policies, company, None, rows, ["A", "B"], now);
            Apply(base, DoCallback(company, "A", APPROVED, now, faults)) == Verify(base, 0, APPROVED, now, faults)
  {
    hide Verify, InvoiceTotal;
    var base := OpenedDb(ties, policies, company, None, rows, ["A", "B"], now);
    var total := InvoiceTotal(ties, PlainBill(rows));
    assert base.payments == [Started(company, total, "A", now), Started(company, total, "B", now)];
    assert 'A' in "A";
    assert FindByReference(base.payments, company, "A", 2) == Some(0);
  }

  lemma FirstSettled(ties: Ties, policies: map<nat, Policies>, company: nat, rows: seq<Item>, now: int, faults: Faults)
    ensures var base := OpenedDb(ties, policies, company, None, rows, ["A", "B"], now);
            var settled := Settling(base, 0, 0, APPROVED.tracking, now);
            && Verified(base, 0, APPROVED, now) && InvoiceIssued(base, 0) && base.payments[0].invoice == Some(0)
            && base.payments[0].company == base.invoices[0].company
            && CanBePaid(AcceptPayment(base, 0, APPROVED.tracking, now, faults), 0, Some(0))
            && |base.payments| == 2
            && base.payments[1] == Started(company, InvoiceTotal(ties, PlainBill(rows)), "B", now)
            && settled == Empty(ties, policies).(invoices := settled.invoices, payments := settled.payments)
            && |settled.invoices| == 1 && settled.invoices[0].status == InvoicePaid && Wage(settled.invoices[0]) == 0
            && settled.invoices[0].company == company && settled.invoices[0].technician == None
            && |settled.payments| == 2 && settled.payments[1] == base.payments[1]
            && settled.payments[0].amount == InvoiceTotal(ties, PlainBill(rows))
                 && settled.payments[0].ThroughPlatform()
            && settled.invoices[0].settlement.Some? && settled.invoices[0].total == InvoiceTotal(ties, PlainBill(rows))
            && settled.payments[0].status == Paid && settled.payments[0].company == company
            && settled.payments[0].invoice == Some(0)
  {
    NoWage(rows, PolicyOf(Empty(ties, policies), company).extra, PolicyOf(Empty(ties, policies), company).campaign);
    hide CalculateSplit, InvoiceTotal, MethodOf, ReferenceOf, PlainBill;
    var base, total := OpenedDb(ties, policies, company, None, rows, ["A", "B"], now),
        InvoiceTotal(ties, PlainBill(rows));
    assert base.payments == [Started(company, total, "A", now), Started(company, total, "B", now)];
  }

  /** With the escrow record failing and no wage or fee, its queued retry is all there is. */
  lemma NothingElse(ties: Ties, db: Db, company: nat)
    requires db == Empty(ties, NO_POLICIES).(invoices := db.invoices, payments := db.payments)
    requires |db.invoices| == 1 && db.invoices[0].company == company && db.invoices[0].technician == None
    requires |db.payments| == 2 && db.payments[0].ThroughPlatform()
    ensures var faults := NO_FAULTS.(create := true);
            PostDirect(Rest(TryEscrow(db, 0, 0, faults), 0, 0, faults), 0, faults)
            == db.(tasks := [Task(EscrowTask, company, Some(0), Some(0), Waiting, 0)])
  {
    hide Wage, Post;
  }

  // ------------------------------------------------------------ Cash, but no wage

  /** A technician with no percentages collects an invoice in cash: nothing is written to the
      ledger, so the cash is never owed. */
  lemma CollectedCashIsNotOwed(ties: Ties, company: nat, technician: nat, rows: seq<Item>, now: int)
    requires 0 < InvoiceTotal(ties, PlainBill(rows))
    ensures var s := Run(Empty(ties, NO_POLICIES), OpeningActions(company, Some(technician), rows, [], now)
                                + [DoTechnicianCash(0, "", now, NO_FAULTS)]);
            && |s.invoices| == |s.payments| == 1 && s.payments[0].status == Paid && s.payments[0].collectedByTechnician
            && s.invoices[0].status == InvoicePaid && 0 < s.payments[0].amount == s.invoices[0].total
            && s.technicianRows == [] && s.tasks == []
  {
    assert 0 < Total100(PlainBill(rows)) by { hide Total100; }
    hide Run, OpeningActions, OpenedDb, Apply, InvoiceTotal, Total100;
    Opening(ties, NO_POLICIES, company, Some(technician), rows, [], now);
    RunThen(ties, NO_POLICIES, OpeningActions(company, Some(technician), rows, [], now),
        OpenedDb(ties, NO_POLICIES, company, Some(technician), rows, [], now),
            DoTechnicianCash(0, "", now, NO_FAULTS));
    CashCollected(ties, company, technician, rows, now);
  }

  lemma CashCollected(ties: Ties, company: nat, technician: nat, rows: seq<Item>, now: int)
    ensures var s := Apply(OpenedDb(ties, NO_POLICIES, company, Some(technician), rows, [], now),
            DoTechnicianCash(0, "", now, NO_FAULTS));
            && |s.invoices| == |s.payments| == 1 && s.payments[0].status == Paid && s.payments[0].collectedByTechnician
            && s.invoices[0].status == InvoicePaid
                 && s.payments[0].amount == s.invoices[0].total == InvoiceTotal(ties, PlainBill(rows))
            && s.technicianRows == [] && s.tasks == []
  {
    NoWage(rows, ByTechnician, ByCompany);
    hide CalculateSplit, InvoiceTotal, MethodOf, ReferenceOf, Blank;
    assert OpenedDb(ties, NO_POLICIES, company, Some(technician), rows, [], now).payments == [];
  }
}
