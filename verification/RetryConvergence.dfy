/** The retry queue repairs what failed: a run with any faults, once every task is
    resolved, leaves the same ledgers, balances and escrow records as the run in which
    nothing failed (apps/payouts/services_backfill.py). */
module RetryConvergence {
  import opened Options
  import opened Ledgers
  import LedgerRace
  import opened Escrows
  import opened WageSplit
  import opened EscrowAgreement
  import opened PaymentFlow
  import opened PaymentSafety

  // --------------------------------------------------------- The failure-free run

  /** The same step with no write failing. */
  function Clean(a: Action): Action {
    match a
    case DoCallback(company, reference, response, now, _) => DoCallback(company, reference, response, now, NO_FAULTS)
    case DoTechnicianCash(i, reference, now, _) => DoTechnicianCash(i, reference, now, NO_FAULTS)
    case DoAdminCash(i, byTechnician, now, _) => DoAdminCash(i, byTechnician, now, NO_FAULTS)
    case _ => a
  }

  /** Nothing failed, so nothing is retried. */
  function CleanApply(db: Db, a: Action): Db {
    if a.DoProcess? then db else Apply(db, Clean(a))
  }

  function CleanRun(db: Db, actions: seq<Action>): Db
    decreases |actions|
  {
    if actions == [] then db else CleanRun(CleanApply(db, actions[0]), actions[1..])
  }

  // ------------------------------------------------- What a state is going to hold

  function Entries(rows: seq<Row>): set<Entry> {
    set r | r in rows :: r.entry
  }

  datatype Book = TechnicianBook | FeeBook

  /** The entries a task still has to write in a ledger; none when it is resolved. */
  function Wants(db: Db, task: Task, book: Book): set<Entry> {
    if task.status == Resolved then {}
    else
      match task.kind
      case LedgerTask =>
        if book.FeeBook? || LostInvoice(db, task) then {}
        else set e | e in InvoiceEntries(Facts(db, task.invoice.value, task.payment))
      case DirectTask =>
        if book.FeeBook? || task.payment.None? then {} else set e | e in DirectEntries(db, task.payment.value)
      case FeeTask =>
        if book.TechnicianBook? || LostInvoice(db, task) then {}
        else set e | e in FeeEntries(db, task.invoice.value, task.payment)
      case EscrowTask => {}
  }

  function AllWants(db: Db, tasks: seq<Task>, book: Book): set<Entry> {
    if tasks == [] then {}
    else AllWants(db, tasks[..|tasks| - 1], book) + Wants(db, tasks[|tasks| - 1], book)
  }

  /** The technician entries the state holds or is going to hold. */
  function IntendedCredits(db: Db): set<Entry> {
    Entries(db.technicianRows) + AllWants(db, db.tasks, TechnicianBook)
  }

  function IntendedFees(db: Db): set<Entry> {
    Entries(db.feeRows) + AllWants(db, db.tasks, FeeBook)
  }

  predicate HasOpenEscrowTask(tasks: seq<Task>, p: nat) {
    exists t :: 0 <= t < |tasks| && tasks[t].kind == EscrowTask && tasks[t].status != Resolved
        && tasks[t].payment == Some(p)
  }

  predicate PaysInvoice(db: Db, p: nat) {
    p < |db.payments| && db.payments[p].invoice.Some? && db.payments[p].invoice.value < |db.invoices|
  }

  function Lookup(escrows: map<nat, Record>, p: nat): Option<Record> {
    if p in escrows then Some(escrows[p]) else None
  }

  /** What a complete pass over payment `p`'s escrow makes of it. */
  function Complete(db: Db, p: nat): Record
    requires PaysInvoice(db, p)
  {
    var i := db.payments[p].invoice.value;
    var start := if p in db.escrows then db.escrows[p] else HeldRecord(Some(i), db.payments[p].amount);
    ReserveAndDistribute(start, i, Commission(db, i), Wage(db.invoices[i]))
  }

  /** The escrow record of payment `p`, as it is or as its open task is going to leave it. */
  function IntendedEscrow(db: Db, p: nat): Option<Record> {
    if HasOpenEscrowTask(db.tasks, p) && PaysInvoice(db, p) then Some(Complete(db, p)) else Lookup(db.escrows, p)
  }

  // ----------------------------------------------------------------- Invariants

  predicate Settled(db: Db, i: Option<nat>) {
    i.Some? && i.value < |db.invoices| && db.invoices[i.value].settlement.Some?
  }

  /** The invoice a pipeline key belongs to. */
  predicate KeyOf(key: Key, i: nat) {
    key == TechnicianCredit(i) || key == CashReceived(i) || key == InvoiceFee(i)
  }

  ghost predicate KeysOfSettled(db: Db, rows: seq<Row>) {
    forall r, i: nat :: r in rows && KeyOf(r.entry.key, i) ==> Settled(db, Some(i))
  }

  ghost predicate KeysOfPaid(db: Db, rows: seq<Row>) {
    forall r, p: nat :: r in rows && r.entry.key == DirectSettlement(p) ==>
      p < |db.payments| && db.payments[p].status == Paid
  }

  /** Tables as the steps leave them: entries of settled invoices and paid payments only, one
      row per key, escrow of paid payments only. */
  ghost predicate Consistent(db: Db) {
    && Sound(db)
    && (forall p :: p in db.escrows ==> p < |db.payments| && db.payments[p].status == Paid)
    && UniqueKeys(db.technicianRows) && UniqueKeys(db.feeRows)
    && KeysOfSettled(db, db.technicianRows) && KeysOfSettled(db, db.feeRows)
    && KeysOfPaid(db, db.technicianRows) && KeysOfPaid(db, db.feeRows)
  }

  /** An open task that a retry can finish. */
  predicate Finishable(db: Db, task: Task) {
    && task.status == Waiting
    && Settled(db, task.invoice)
    && task.payment.Some? && task.payment.value < |db.payments|
    && db.payments[task.payment.value].status == Paid
    && (task.kind in {EscrowTask, DirectTask} ==>
          db.payments[task.payment.value].invoice == task.invoice && db.payments[task.payment.value].ThroughPlatform())
  }

  predicate TasksFinishable(db: Db) {
    forall t :: 0 <= t < |db.tasks| && db.tasks[t].status != Resolved ==> Finishable(db, db.tasks[t])
  }

  predicate SameFacts(s: Db, c: Db) {
    s.ties == c.ties && s.policies == c.policies && s.invoices == c.invoices && s.payments == c.payments
  }

  /** A faulty state `s` and the failure-free state `c`: what `s` holds or intends is what
      `c` holds. */
  ghost predicate Linked(s: Db, c: Db) {
    && SameFacts(s, c) && Consistent(s) && Consistent(c) && TasksFinishable(s)
    && IntendedCredits(s) == Entries(c.technicianRows)
    && IntendedFees(s) == Entries(c.feeRows)
    && forall p :: IntendedEscrow(s, p) == Lookup(c.escrows, p)
  }

  // --------------------------------------------------------- Lemmas about tables

  lemma {:induction false} WantsResolved(db: Db, tasks: seq<Task>, t: nat, book: Book, after: Task)
    requires t < |tasks|
    requires after == tasks[t].(status := after.status, attempts := after.attempts)
    ensures after.status == tasks[t].status ==> AllWants(db, tasks[t := after], book) == AllWants(db, tasks, book)
    ensures after.status == Resolved ==>
              AllWants(db, tasks[t := after], book) + Wants(db, tasks[t], book) == AllWants(db, tasks, book)
  {
    hide Wants, AllWants;
    WantsProgress(db, tasks[t], after, book);
    var last := |tasks| - 1;
    var front := tasks[..last];
    WantsAppended(db, front, tasks[last], book);
    assert tasks == front + [tasks[last]];
    if t < last {
      WantsResolved(db, front, t, book, after);
      WantsAppended(db, front[t := after], tasks[last], book);
      assert tasks[t := after] == front[t := after] + [tasks[last]];
      UnionShift(AllWants(db, front[t := after], book), Wants(db, tasks[t], book), AllWants(db, front, book),
                 Wants(db, tasks[last], book));
    } else {
      WantsAppended(db, front, after, book);
      assert tasks[t := after] == front + [after];
    }
  }

  lemma UnionShift(a: set<Entry>, removed: set<Entry>, b: set<Entry>, last: set<Entry>)
    ensures a + removed == b ==> (a + last) + removed == b + last
  {
  }

  lemma WantsProgress(db: Db, task: Task, after: Task, book: Book)
    requires after == task.(status := after.status, attempts := after.attempts)
    ensures after.status == task.status ==> Wants(db, after, book) == Wants(db, task, book)
    ensures after.status == Resolved ==> Wants(db, after, book) == {}
  {
  }

  lemma WantsAppended(db: Db, tasks: seq<Task>, task: Task, book: Book)
    ensures AllWants(db, tasks + [task], book) == AllWants(db, tasks, book) + Wants(db, task, book)
  {
    assert (tasks + [task])[..|tasks|] == tasks;
  }

  /** What tasks want depends only on settled invoices and paid payments. */
  lemma {:induction false} WantsStable(before: Db, after: Db, tasks: seq<Task>, book: Book)
    requires before.policies == after.policies && Advances(before, after)
    requires forall t :: 0 <= t < |tasks| && tasks[t].status != Resolved ==> Finishable(before, tasks[t])
    ensures AllWants(before, tasks, book) == AllWants(after, tasks, book)
  {
    if tasks != [] {
      OneWantsStable(before, after, tasks[|tasks| - 1], book);
      hide Wants, Finishable, Advances;
      WantsStable(before, after, tasks[..|tasks| - 1], book);
    }
  }

  lemma OneWantsStable(before: Db, after: Db, task: Task, book: Book)
    requires before.policies == after.policies && Advances(before, after)
    requires task.status != Resolved ==> Finishable(before, task)
    ensures Wants(before, task, book) == Wants(after, task, book)
  {
    hide InvoiceEntries, PlatformFee;
  }

  lemma {:induction false} NoOpenTaskNoWants(db: Db, tasks: seq<Task>, book: Book)
    requires forall t :: 0 <= t < |tasks| ==> tasks[t].status == Resolved
    ensures AllWants(db, tasks, book) == {}
  {
    if tasks != [] { NoOpenTaskNoWants(db, tasks[..|tasks| - 1], book); }
  }

  lemma {:induction false} WantsInAll(db: Db, tasks: seq<Task>, t: nat, book: Book)
    requires t < |tasks|
    ensures Wants(db, tasks[t], book) <= AllWants(db, tasks, book)
  {
    if t < |tasks| - 1 { WantsInAll(db, tasks[..|tasks| - 1], t, book); }
  }

  /** Rows whose keys agree with `e`: none has its key, or the one that has is `e`. */
  predicate Agrees(rows: seq<Row>, e: Entry) {
    0 <= e.amount && forall r :: r in rows && r.entry.key == e.key ==> r.entry == e
  }

  lemma PostAddsEntry(rows: seq<Row>, e: Entry)
    requires UniqueKeys(rows) && Agrees(rows, e)
    ensures UniqueKeys(Post(rows, e)) && Entries(Post(rows, e)) == Entries(rows) + {e}
    ensures forall r :: r in Post(rows, e) ==> r in rows || r.entry == e
  {
    if HasKey(rows, e.key) {
      var i :| 0 <= i < |rows| && rows[i].entry.key == e.key;
      assert rows[i] in rows;
    } else {
      var row := Row(e, GetBalance(rows, e.owner) + Signed(e));
      assert Post(rows, e) == rows + [row];
      assert row in Post(rows, e);
    }
  }

  /** Writing, completely or not, adds entries of the invoice and nothing else. */
  lemma WriteLedgerAdds(db: Db, i: nat, p: Option<nat>, faults: Faults)
    requires i < |db.invoices| && UniqueKeys(db.technicianRows)
    requires forall e :: e in InvoiceEntries(Facts(db, i, p)) ==> Agrees(db.technicianRows, e)
    ensures var r := WriteLedger(db, i, p, faults);
            var wanted := set e | e in InvoiceEntries(Facts(db, i, p));
            && r.db == db.(technicianRows := r.db.technicianRows)
            && UniqueKeys(r.db.technicianRows)
            && Entries(db.technicianRows) <= Entries(r.db.technicianRows) <= Entries(db.technicianRows) + wanted
            && (!r.raised ==> Entries(r.db.technicianRows) == Entries(db.technicianRows) + wanted)
            && (faults == NO_FAULTS ==> !r.raised)
            && (forall row :: row in r.db.technicianRows ==> row in db.technicianRows || KeyOf(row.entry.key, i))
  {
    assert Facts(db, i, p).invoice == i;
    hide InvoiceEntries, Facts, Agrees, Post, UniqueKeys, KeyOf;
    var es := InvoiceEntries(Facts(db, i, p));
    InvoiceEntriesAre(Facts(db, i, p));
    var wanted := set e | e in es;
    assert |es| == 1 ==> wanted == {es[0]};
    assert |es| == 2 ==> wanted == {es[0], es[1]};
    hide Entries;
    if es != [] && !faults.credit {
      var first := Post(db.technicianRows, es[0]);
      assert es[0] in es;
      PostAddsEntry(db.technicianRows, es[0]);
      if |es| == 2 {
        assert es[1] in es;
        AgreesAfter(db.technicianRows, first, es[0], es[1]);
        PostAddsEntry(first, es[1]);
      }
    }
  }

  /** At most two entries, with different keys of the invoice. */
  lemma InvoiceEntriesAre(s: SettledInvoice)
    ensures var es := InvoiceEntries(s);
            && |es| <= 2 && (forall e :: e in es ==> KeyOf(e.key, s.invoice))
            && (|es| == 2 ==> es[0].key != es[1].key)
  {
  }

  lemma AgreesAfter(rows: seq<Row>, after: seq<Row>, posted: Entry, e: Entry)
    requires Agrees(rows, e) && posted.key != e.key
    requires forall r :: r in after ==> r in rows || r.entry == posted
    ensures Agrees(after, e)
  {
  }

  /** The invoice's entries are not a direct settlement. */
  lemma LedgerNotDirect(db: Db, i: nat, p: Option<nat>, q: nat)
    requires i < |db.invoices| && NoDirect(db.technicianRows, q)
    ensures NoDirect(WriteLedger(db, i, p, NO_FAULTS).db.technicianRows, q)
  {
    hide InvoiceEntries, Facts, Post, NoDirect;
    InvoiceEntriesAre(Facts(db, i, p));
    var es := InvoiceEntries(Facts(db, i, p));
    if es != [] {
      assert es[0] in es;
      PostNotDirect(db.technicianRows, es[0], q);
      if |es| == 2 {
        assert es[1] in es;
        PostNotDirect(Post(db.technicianRows, es[0]), es[1], q);
      }
    }
  }

  lemma PostNotDirect(rows: seq<Row>, e: Entry, q: nat)
    requires NoDirect(rows, q) && e.key != DirectSettlement(q)
    ensures NoDirect(Post(rows, e), q)
  {
    hide GetBalance, HasKey;
  }

  lemma WriteFeeAdds(db: Db, i: nat, p: Option<nat>, faults: Faults)
    requires i < |db.invoices| && UniqueKeys(db.feeRows)
    requires forall e :: e in FeeEntries(db, i, p) ==> Agrees(db.feeRows, e)
    ensures var r := WriteFee(db, i, p, faults);
            var wanted := set e | e in FeeEntries(db, i, p);
            && r.db == db.(feeRows := r.db.feeRows)
            && UniqueKeys(r.db.feeRows)
            && Entries(db.feeRows) <= Entries(r.db.feeRows) <= Entries(db.feeRows) + wanted
            && (!r.raised ==> Entries(r.db.feeRows) == Entries(db.feeRows) + wanted)
            && (faults == NO_FAULTS ==> !r.raised)
            && (forall row :: row in r.db.feeRows ==> row in db.feeRows || KeyOf(row.entry.key, i))
  {
    var es := FeeEntries(db, i, p);
    if es != [] && !faults.fee {
      PostAddsEntry(db.feeRows, es[0]);
    }
  }

  lemma WriteDirectAdds(db: Db, p: nat, faults: Faults)
    requires UniqueKeys(db.technicianRows)
    requires forall e :: e in DirectEntries(db, p) ==> Agrees(db.technicianRows, e)
    ensures var r := WriteDirect(db, p, faults);
            var wanted := set e | e in DirectEntries(db, p);
            && r.db == db.(technicianRows := r.db.technicianRows)
            && UniqueKeys(r.db.technicianRows)
            && Entries(db.technicianRows) <= Entries(r.db.technicianRows) <= Entries(db.technicianRows) + wanted
            && (!r.raised ==> Entries(r.db.technicianRows) == Entries(db.technicianRows) + wanted)
            && (!faults.direct ==> !r.raised)
            && (forall row :: row in r.db.technicianRows ==>
                 row in db.technicianRows || row.entry.key == DirectSettlement(p))
  {
    var es := DirectEntries(db, p);
    hide Agrees, Post, UniqueKeys;
    if es != [] && !faults.direct {
      assert |es| == 1 && es[0].key == DirectSettlement(p);
      hide DirectEntries;
      PostAddsEntry(db.technicianRows, es[0]);
      assert (set e | e in es) == {es[0]};
    }
  }

  // ---------------------------------------------------- Steps that keep the link

  /** Steps that touch no ledger, escrow record or task. */
  lemma QuietStep(s: Db, c: Db, s': Db, c': Db)
    requires Linked(s, c)
    requires s' == s.(invoices := s'.invoices, payments := s'.payments)
    requires c' == c.(invoices := s'.invoices, payments := s'.payments)
    requires Advances(s, s') && Sound(s')
    ensures Linked(s', c')
  {
    hide Consistent, IntendedEscrow, AllWants, Sound, Advances, Finishable;
    WantsStable(s, s', s.tasks, TechnicianBook);
    WantsStable(s, s', s.tasks, FeeBook);
    hide TasksFinishable;
    forall p
      ensures IntendedEscrow(s', p) == Lookup(c'.escrows, p)
    {
      IntentStable(s, s', p);
    }
    SameAdvance(s, s', c, c');
    ConsistentAfterQuiet(s, s');
    ConsistentAfterQuiet(c, c');
    FinishableAfterQuiet(s, s');
  }

  lemma SameAdvance(s: Db, s': Db, c: Db, c': Db)
    requires SameFacts(s, c) && SameFacts(s', c')
    ensures Sound(s') <==> Sound(c')
    ensures Advances(s, s') <==> Advances(c, c')
  {
  }

  lemma ConsistentAfterQuiet(s: Db, s': Db)
    requires Consistent(s)
    requires s' == s.(invoices := s'.invoices, payments := s'.payments)
    requires Advances(s, s') && Sound(s')
    ensures Consistent(s')
  {
    hide Sound;
  }

  lemma FinishableAfterQuiet(s: Db, s': Db)
    requires TasksFinishable(s) && s'.tasks == s.tasks && Advances(s, s')
    ensures TasksFinishable(s')
  {
  }

  /** A step that only adds rows of a settled invoice and perhaps a task to write the rest
      keeps the link if it keeps the intended entries. */
  lemma WriteStep(s: Db, c: Db, s': Db, c': Db, task: Task, i: nat, p: nat)
    requires Linked(s, c) && Settled(s, Some(i)) && IsPaid(s, p)
    requires SameFacts(s, s') && SameFacts(c, c') && s'.escrows == s.escrows && c'.escrows == c.escrows
    requires s'.tasks == s.tasks || (s'.tasks == s.tasks + [task] && task.kind != EscrowTask && Finishable(s, task))
    requires AddsRows(s, s', i, p) && AddsRows(c, c', i, p)
    requires IntendedCredits(s') == Entries(c'.technicianRows) && IntendedFees(s') == Entries(c'.feeRows)
    ensures Linked(s', c')
  {
    hide Consistent, TasksFinishable, IntendedEscrow, IntendedCredits, IntendedFees, AddsRows, Finishable;
    ConsistentAfterRows(s, s', i, p);
    ConsistentAfterRows(c, c', i, p);
    FinishableAppended(s, s', task);
    forall q
      ensures IntendedEscrow(s', q) == Lookup(c'.escrows, q)
    {
      if s'.tasks == s.tasks { IntentDepends(s, s', q); } else { IntentOfOthers(s, s', task, q); }
    }
  }

  lemma FinishableAppended(s: Db, s': Db, task: Task)
    requires TasksFinishable(s) && SameFacts(s, s')
    requires s'.tasks == s.tasks || (s'.tasks == s.tasks + [task] && Finishable(s, task))
    ensures TasksFinishable(s')
  {
  }

  predicate IsPaid(db: Db, p: nat) {
    p < |db.payments| && db.payments[p].status == Paid
  }

  /** From one state to the other only rows of invoice `i` or payment `p` were added, keys
      still unique. */
  predicate AddsRows(s: Db, s': Db, i: nat, p: nat) {
    && UniqueKeys(s'.technicianRows) && UniqueKeys(s'.feeRows)
    && (forall r :: r in s'.technicianRows ==>
         r in s.technicianRows || KeyOf(r.entry.key, i) || r.entry.key == DirectSettlement(p))
    && (forall r :: r in s'.feeRows ==> r in s.feeRows || KeyOf(r.entry.key, i))
  }

  lemma ConsistentAfterRows(s: Db, s': Db, i: nat, p: nat)
    requires Consistent(s) && Settled(s, Some(i)) && IsPaid(s, p)
    requires SameFacts(s, s') && s'.escrows == s.escrows && AddsRows(s, s', i, p)
    ensures Consistent(s')
  {
  }

  /** An escrow intent depends only on a settled invoice and a paid payment. */
  lemma IntentStable(s: Db, s': Db, p: nat)
    requires s.policies == s'.policies && s.escrows == s'.escrows && s.tasks == s'.tasks
    requires TasksFinishable(s) && Advances(s, s')
    ensures IntendedEscrow(s', p) == IntendedEscrow(s, p)
  {
    if HasOpenEscrowTask(s.tasks, p) {
      var t :| 0 <= t < |s.tasks| && s.tasks[t].kind == EscrowTask && s.tasks[t].status != Resolved
          && s.tasks[t].payment == Some(p);
      assert Finishable(s, s.tasks[t]);
    }
  }

  /** No row and no open task belongs to invoice `i` yet. */
  predicate NoOpenTask(tasks: seq<Task>, kind: TaskKind, i: nat) {
    forall t :: 0 <= t < |tasks| && tasks[t].kind == kind && tasks[t].invoice == Some(i) ==> tasks[t].status == Resolved
  }

  predicate NoRows(rows: seq<Row>, i: nat) {
    forall r :: r in rows ==> !KeyOf(r.entry.key, i)
  }

  /** Appending a task for a settled invoice leaves other intents alone. */
  lemma IntentOfOthers(s: Db, s': Db, task: Task, p: nat)
    requires s'.policies == s.policies && s'.invoices == s.invoices && s'.payments == s.payments
    requires s'.escrows == s.escrows
    requires s'.tasks == s.tasks || s'.tasks == s.tasks + [task]
    requires task.kind != EscrowTask || task.payment != Some(p)
    ensures IntendedEscrow(s', p) == IntendedEscrow(s, p)
  {
    OpenAppended(s.tasks, task, p);
  }

  lemma OpenAppended(tasks: seq<Task>, task: Task, p: nat)
    ensures HasOpenEscrowTask(tasks + [task], p)
            <==> HasOpenEscrowTask(tasks, p)
                 || (task.kind == EscrowTask && task.status != Resolved && task.payment == Some(p))
  {
    var longer := tasks + [task];
    assert forall t :: 0 <= t < |tasks| ==> longer[t] == tasks[t];
    assert longer[|tasks|] == task;
  }

  lemma {:induction false} WantsSame(s: Db, s': Db, tasks: seq<Task>, book: Book)
    requires SameFacts(s, s')
    ensures AllWants(s, tasks, book) == AllWants(s', tasks, book)
  {
    if tasks != [] {
      WantsSame(s, s', tasks[..|tasks| - 1], book);
      SameWants(s, s', tasks[|tasks| - 1], book);
      hide Wants;
    }
  }

  lemma WantsAfter(s: Db, s': Db, task: Task, book: Book)
    requires SameFacts(s, s') && (s'.tasks == s.tasks || s'.tasks == s.tasks + [task])
    ensures AllWants(s', s'.tasks, book)
            == AllWants(s, s.tasks, book) + (if s'.tasks == s.tasks then {} else Wants(s, task, book))
  {
    WantsAppended(s, s.tasks, task, book);
    WantsSame(s, s', s'.tasks, book);
    hide Wants, AllWants;
  }

  lemma AgreesFresh(db: Db, rows: seq<Row>, i: nat, p: nat)
    requires i < |db.invoices| && NoRows(rows, i)
    ensures forall e :: e in InvoiceEntries(Facts(db, i, Some(p))) ==> Agrees(rows, e)
    ensures forall e :: e in FeeEntries(db, i, Some(p)) ==> Agrees(rows, e)
  {
  }

  predicate NoDirect(rows: seq<Row>, p: nat) {
    forall r :: r in rows ==> r.entry.key != DirectSettlement(p)
  }

  /** What one write of `task`'s entries did to the state: it wrote them all, or it raised,
      wrote some or none, and left the task. */
  predicate Wrote(db: Db, db': Db, i: nat, p: nat, task: Task) {
    && SameFacts(db, db') && db'.escrows == db.escrows
    && AddsRows(db, db', i, p)
    && Entries(db.technicianRows) <= Entries(db'.technicianRows) <= Entries(db.technicianRows)
         + Wants(db, task, TechnicianBook)
    && Entries(db.feeRows) <= Entries(db'.feeRows) <= Entries(db.feeRows) + Wants(db, task, FeeBook)
    && (|| db'.tasks == db.tasks + [task]
        || (&& db'.tasks == db.tasks
            && Entries(db'.technicianRows) == Entries(db.technicianRows) + Wants(db, task, TechnicianBook)
            && Entries(db'.feeRows) == Entries(db.feeRows) + Wants(db, task, FeeBook)))
  }

  function LedgerTaskOf(db: Db, i: nat, p: nat): Task
    requires i < |db.invoices|
  {
    Task(LedgerTask, db.invoices[i].company, Some(i), Some(p), Waiting, 0)
  }

  function FeeTaskOf(db: Db, i: nat, p: nat): Task
    requires i < |db.invoices|
  {
    Task(FeeTask, db.invoices[i].company, Some(i), Some(p), Waiting, 0)
  }

  function DirectTaskOf(db: Db, p: nat): Task
    requires p < |db.payments|
  {
    Task(DirectTask, db.payments[p].company, db.payments[p].invoice, Some(p), Waiting, 0)
  }

  lemma NoOpenTaskIs(tasks: seq<Task>, kind: TaskKind, company: nat, i: nat, p: nat)
    requires NoOpenTask(tasks, kind, i)
    ensures CreateTask(tasks, kind, company, Some(i), Some(p))
            == tasks + [Task(kind, company, Some(i), Some(p), Waiting, 0)]
  {
  }

  lemma LedgerWrote(db: Db, i: nat, p: nat, faults: Faults)
    requires Consistent(db) && Settled(db, Some(i)) && NoRows(db.technicianRows, i)
    requires NoOpenTask(db.tasks, LedgerTask, i) || faults == NO_FAULTS
    ensures var db' := TryLedger(db, i, p, faults);
            && Wrote(db, db', i, p, LedgerTaskOf(db, i, p))
            && db'.feeRows == db.feeRows
            && (NoDirect(db.technicianRows, p) ==> NoDirect(db'.technicianRows, p))
            && (faults == NO_FAULTS ==> db'.tasks == db.tasks)
  {
    hide WriteLedger, InvoiceEntries, Facts, Sound, Entries, Agrees, CreateTask, NoOpenTask, NoRows, KeysOfSettled,
      KeysOfPaid;
    AgreesFresh(db, db.technicianRows, i, p);
    WriteLedgerAdds(db, i, Some(p), faults);
    if NoOpenTask(db.tasks, LedgerTask, i) { NoOpenTaskIs(db.tasks, LedgerTask, db.invoices[i].company, i, p); }
  }

  lemma FeeWrote(db: Db, i: nat, p: nat, faults: Faults)
    requires Consistent(db) && Settled(db, Some(i)) && NoRows(db.feeRows, i)
    requires NoOpenTask(db.tasks, FeeTask, i) || faults == NO_FAULTS
    ensures var db' := TryFee(db, i, p, faults);
            && Wrote(db, db', i, p, FeeTaskOf(db, i, p))
            && db'.technicianRows == db.technicianRows
            && (faults == NO_FAULTS ==> db'.tasks == db.tasks)
  {
    hide WriteFee, FeeEntries, Facts, Sound, Entries, Agrees, CreateTask, NoOpenTask, NoRows, KeysOfSettled, KeysOfPaid;
    AgreesFresh(db, db.feeRows, i, p);
    WriteFeeAdds(db, i, Some(p), faults);
    if NoOpenTask(db.tasks, FeeTask, i) { NoOpenTaskIs(db.tasks, FeeTask, db.invoices[i].company, i, p); }
  }

  /** The direct settlement, unless it is owed and either its snapshot or the task for its
      failure cannot be written. */
  predicate DirectGuard(db: Db, p: nat, faults: Faults)
    requires p < |db.payments|
  {
    DirectEntries(db, p) != [] ==>
      && !faults.snapshot
      && (faults.direct ==> !HasOpenTask(db.tasks, DirectTask, db.payments[p].company, db.payments[p].invoice))
  }

  lemma DirectWrote(db: Db, i: nat, p: nat, faults: Faults)
    requires Consistent(db) && p < |db.payments| && db.payments[p].invoice == Some(i)
    requires DirectEntries(db, p) != [] && NoDirect(db.technicianRows, p)
    requires DirectGuard(db, p, faults)
    ensures var db' := PostDirect(db, p, faults);
            && Wrote(db, db', i, p, DirectTaskOf(db, p))
            && (faults == NO_FAULTS ==> db'.tasks == db.tasks)
  {
    DirectAgrees(db, db.technicianRows, p);
    hide WriteDirect, DirectEntries, Sound, Entries, Agrees;
    WriteDirectAdds(db, p, faults);
  }

  lemma DirectAgrees(db: Db, rows: seq<Row>, p: nat)
    requires NoDirect(rows, p)
    ensures forall e :: e in DirectEntries(db, p) ==> Agrees(rows, e)
  {
  }

  /** The same write, faulty on one side and complete on the other, keeps the link. */
  lemma WroteLinked(s: Db, c: Db, s': Db, c': Db, i: nat, p: nat, task: Task)
    requires Linked(s, c) && Settled(s, Some(i)) && IsPaid(s, p)
    requires task.kind != EscrowTask && Finishable(s, task)
    requires Wrote(s, s', i, p, task) && Wrote(c, c', i, p, task) && c'.tasks == c.tasks
    ensures Linked(s', c')
  {
    hide Consistent, IntendedEscrow, AllWants, Wants, Entries, Finishable, AddsRows, TasksFinishable;
    assert IntendedCredits(s') == Entries(c'.technicianRows) by {
      WantsAfter(s, s', task, TechnicianBook);
      SameWants(s, c, task, TechnicianBook);
    }
    assert IntendedFees(s') == Entries(c'.feeRows) by {
      WantsAfter(s, s', task, FeeBook);
      SameWants(s, c, task, FeeBook);
    }
    hide IntendedCredits, IntendedFees;
    WriteStep(s, c, s', c', task, i, p);
  }

  lemma SameWants(s: Db, c: Db, task: Task, book: Book)
    requires SameFacts(s, c)
    ensures Wants(s, task, book) == Wants(c, task, book)
  {
  }

  // ---------------------------------------------------- The escrow of a payment

  predicate OnlyEscrowOf(db: Db, db': Db, p: nat) {
    && db' == db.(escrows := db'.escrows, tasks := db'.tasks)
    && db'.escrows - {p} == db.escrows - {p}
  }

  /** Creating and distributing payment `p`'s escrow, with a task if either raised, keeps
      the link if it keeps the intent for `p`. */
  lemma EscrowStep(s: Db, c: Db, s': Db, c': Db, p: nat, i: nat, task: Task)
    requires Linked(s, c) && Settled(s, Some(i))
    requires p < |s.payments| && s.payments[p].status == Paid && s.payments[p].invoice == Some(i)
    requires OnlyEscrowOf(s, s', p) && OnlyEscrowOf(c, c', p)
    requires !HasOpenEscrowTask(s.tasks, p)
    requires task == Task(EscrowTask, task.company, Some(i), Some(p), Waiting, 0)
    requires s'.tasks == s.tasks || (s.payments[p].ThroughPlatform() && s'.tasks == s.tasks + [task])
    requires IntendedEscrow(s', p) == Lookup(c'.escrows, p)
    ensures Linked(s', c')
  {
    assert s'.tasks != s.tasks ==> Finishable(s, task);
    hide Consistent, TasksFinishable, IntendedEscrow, Finishable;
    ConsistentAfterEscrow(s, s', p);
    ConsistentAfterEscrow(c, c', p);
    FinishableAppended(s, s', task);
    EscrowTaskWantsNoRows(s, s', task);
    hide IntendedCredits, IntendedFees;
    forall q
      ensures IntendedEscrow(s', q) == Lookup(c'.escrows, q)
    {
      if q != p { IntentOfOtherPayment(s, s', c, c', task, p, q); }
    }
  }

  lemma EscrowTaskWantsNoRows(s: Db, s': Db, task: Task)
    requires SameFacts(s, s') && s'.technicianRows == s.technicianRows && s'.feeRows == s.feeRows
    requires s'.tasks == s.tasks || (s'.tasks == s.tasks + [task] && task.kind == EscrowTask)
    ensures IntendedCredits(s') == IntendedCredits(s) && IntendedFees(s') == IntendedFees(s)
  {
    WantsAfter(s, s', task, TechnicianBook);
    WantsAfter(s, s', task, FeeBook);
    hide Entries, AllWants;
  }

  lemma ConsistentAfterEscrow(s: Db, s': Db, p: nat)
    requires Consistent(s) && OnlyEscrowOf(s, s', p)
    requires p < |s.payments| && s.payments[p].status == Paid
    ensures Consistent(s')
  {
    forall q | q in s'.escrows && q != p
      ensures q in s.escrows
    {
      assert q in s'.escrows - {p};
    }
    hide Sound, UniqueKeys, KeysOfSettled;
  }

  lemma IntentOfOtherPayment(s: Db, s': Db, c: Db, c': Db, task: Task, p: nat, q: nat)
    requires OnlyEscrowOf(s, s', p) && OnlyEscrowOf(c, c', p) && p != q
    requires s'.tasks == s.tasks || s'.tasks == s.tasks + [task]
    requires task.payment == Some(p)
    requires IntendedEscrow(s, q) == Lookup(c.escrows, q)
    ensures IntendedEscrow(s', q) == Lookup(c'.escrows, q)
  {
    OpenAppended(s.tasks, task, q);
    assert q in s'.escrows <==> q in s'.escrows - {p};
    assert q in c'.escrows <==> q in c'.escrows - {p};
    assert q in s.escrows ==> (s.escrows - {p})[q] == s.escrows[q];
    assert q in s'.escrows ==> (s'.escrows - {p})[q] == s'.escrows[q];
    assert q in c.escrows ==> (c.escrows - {p})[q] == c.escrows[q];
    assert q in c'.escrows ==> (c'.escrows - {p})[q] == c'.escrows[q];
  }

  /** Accepting payment `p` and settling its invoice, without the writes that follow. */
  function Settling(db: Db, p: nat, i: nat, tracking: string, now: int): Db
    requires p < |db.payments| && i < |db.invoices|
  {
    var paid := db.(payments := db.payments[p := db.payments[p].(status := Paid, tracking := tracking,
        paidAt := Some(now))]);
    Settle(paid, i, Some(p), "", "", now)
  }

  /** The two escrow writes of a verified payment, each with its task. */
  function TryEscrow(db: Db, p: nat, i: nat, faults: Faults): (r: Db)
    requires i < |db.invoices|
    ensures r.invoices == db.invoices && r.payments == db.payments
  {
    var company := db.invoices[i].company;
    var created := OrElseTask(CreateEscrow(db, p, Some(i), faults), EscrowTask, company, Some(i), Some(p));
    OrElseTask(DistributeEscrow(created, i, Some(p), faults), EscrowTask, company, Some(i), Some(p))
  }

  /** Settling the invoice does not depend on whether the escrow record could be created. */
  lemma SettleCommutes(db: Db, p: nat, i: nat, tracking: string, now: int, faults: Faults)
    requires p < |db.payments| && i < |db.invoices|
    requires db.payments[p].invoice == Some(i) && db.payments[p].company == db.invoices[i].company
    ensures var accepted := AcceptPayment(db, p, tracking, now, faults);
            var settled := Settle(accepted, i, Some(p), "", "", now);
            OrElseTask(DistributeEscrow(settled, i, Some(p), faults), EscrowTask, db.invoices[i].company, Some(i),
                Some(p))
            == TryEscrow(Settling(db, p, i, tracking, now), p, i, faults)
  {
    hide CalculateSplit, DistributeEscrow;
  }

  lemma TryEscrowIs(db: Db, p: nat, i: nat, faults: Faults)
    requires PaysInvoice(db, p) && db.payments[p].invoice == Some(i) && p !in db.escrows
    requires faults == NO_FAULTS || (NoOpenTask(db.tasks, EscrowTask, i) && !HasOpenEscrowTask(db.tasks, p))
    ensures var end := TryEscrow(db, p, i, faults);
            var task := Task(EscrowTask, db.invoices[i].company, Some(i), Some(p), Waiting, 0);
            var full := if db.payments[p].ThroughPlatform() then Some(Complete(db, p)) else None;
            && OnlyEscrowOf(db, end, p)
            && (faults == NO_FAULTS ==> Lookup(end.escrows, p) == full)
            && (NoOpenTask(db.tasks, EscrowTask, i) && !HasOpenEscrowTask(db.tasks, p) ==>
                  && IntendedEscrow(end, p) == full
                  && (end.tasks == db.tasks || (full.Some? && end.tasks == db.tasks + [task])))
  {
    hide PlatformFee, Wage, CreateTask, Commission, ReserveAndDistribute, HasOpenEscrowTask, NoOpenTask;
    var task := Task(EscrowTask, db.invoices[i].company, Some(i), Some(p), Waiting, 0);
    var r, raised := TryEscrowCases(db, p, i, faults);
    OpenAppended(db.tasks, task, p);
    if NoOpenTask(db.tasks, EscrowTask, i) { NoOpenTaskIs(db.tasks, EscrowTask, db.invoices[i].company, i, p); }
    if r.Some? { assert db.escrows[p := r.value] - {p} == db.escrows - {p}; }
    hide TryEscrow;
    CompleteAfter(db, TryEscrow(db, p, i, faults), p, i);
  }

  /** Both escrow writes of payment `p` at once: the record it ends with, if any, and whether
      one of them raised. A record left by a failure is one that completing completes. */
  lemma TryEscrowCases(db: Db, p: nat, i: nat, faults: Faults) returns (r: Option<Record>, raised: bool)
    requires PaysInvoice(db, p) && db.payments[p].invoice == Some(i) && p !in db.escrows
    ensures var end := TryEscrow(db, p, i, faults);
            && end == db.(escrows := if r.Some? then db.escrows[p := r.value] else db.escrows,
                          tasks := if raised
                              then CreateTask(db.tasks, EscrowTask, db.invoices[i].company, Some(i), Some(p))
                                   else db.tasks)
    ensures !db.payments[p].ThroughPlatform() ==> r == None && !raised
    ensures r.Some? ==> r.value.status in {Held, Reserved, Distributed}
    ensures db.payments[p].ThroughPlatform() ==>
              && (!raised ==> r == Some(Complete(db, p)))
              && (faults == NO_FAULTS ==> r == Some(Complete(db, p)))
              && (Complete(db, p).status != Distributed ==> raised)
              && (faults == NO_FAULTS && Complete(db, p).status == Distributed ==> !raised)
              && (r.Some? ==>
                    ReserveAndDistribute(r.value, i, Commission(db, i), Wage(db.invoices[i])) == Complete(db, p))
  {
    hide PlatformFee, Wage, CreateTask;
    var held := HeldRecord(Some(i), db.payments[p].amount);
    raised := false;
    if !db.payments[p].ThroughPlatform() {
      r := None;
    } else if faults.create {
      r, raised := None, true;
    } else {
      var (escrows, raises) := ReserveAndDistributeIn(db.escrows[p := held], p, i, Commission(db, i),
          Wage(db.invoices[i]),
                                                      faults.reserve, faults.distribute);
      r, raised := Some(escrows[p]), raises;
      assert escrows == db.escrows[p := escrows[p]];
    }
  }

  /** Completing after the attempt is completing before it. */
  lemma CompleteAfter(db: Db, end: Db, p: nat, i: nat)
    requires PaysInvoice(db, p) && db.payments[p].invoice == Some(i) && p !in db.escrows && SameFacts(db, end)
    requires p in end.escrows ==>
               ReserveAndDistribute(end.escrows[p], i, Commission(db, i), Wage(db.invoices[i])) == Complete(db, p)
    ensures Complete(end, p) == Complete(db, p)
  {
    hide PlatformFee, Wage, ReserveAndDistribute;
  }

  // ------------------------------------------------------- A newly paid invoice

  /** Before an invoice is settled nothing was written or queued for it, and before a
      payment is paid nothing for its escrow. */
  lemma NothingBefore(db: Db, i: nat)
    requires Consistent(db) && !Settled(db, Some(i))
    ensures NoRows(db.technicianRows, i) && NoRows(db.feeRows, i)
    ensures TasksFinishable(db) ==> forall kind :: NoOpenTask(db.tasks, kind, i)
  {
  }

  lemma NoEscrowBefore(db: Db, p: nat)
    requires Consistent(db) && (p < |db.payments| ==> db.payments[p].status != Paid)
    ensures p !in db.escrows
    ensures TasksFinishable(db) ==> !HasOpenEscrowTask(db.tasks, p)
    ensures NoDirect(db.technicianRows, p)
  {
  }

  function TryLedger(db: Db, i: nat, p: nat, faults: Faults): (r: Db)
    requires i < |db.invoices|
    ensures r.invoices == db.invoices && r.payments == db.payments
  {
    OrElseTask(WriteLedger(db, i, Some(p), faults), LedgerTask, db.invoices[i].company, Some(i), Some(p))
  }

  function TryFee(db: Db, i: nat, p: nat, faults: Faults): (r: Db)
    requires i < |db.invoices|
    ensures r.invoices == db.invoices && r.payments == db.payments
  {
    OrElseTask(WriteFee(db, i, Some(p), faults), FeeTask, db.invoices[i].company, Some(i), Some(p))
  }

  lemma LedgerLinked(s: Db, c: Db, i: nat, p: nat, faults: Faults)
    requires Linked(s, c) && Settled(s, Some(i)) && IsPaid(s, p)
    requires NoRows(s.technicianRows, i) && NoRows(c.technicianRows, i) && NoOpenTask(s.tasks, LedgerTask, i)
    ensures var s', c' := TryLedger(s, i, p, faults), TryLedger(c, i, p, NO_FAULTS);
            && Linked(s', c') && SameFacts(s, s') && s'.feeRows == s.feeRows && c'.feeRows == c.feeRows
            && (NoDirect(s.technicianRows, p) ==> NoDirect(s'.technicianRows, p))
            && (NoDirect(c.technicianRows, p) ==> NoDirect(c'.technicianRows, p))
            && (s'.tasks == s.tasks || s'.tasks == s.tasks + [LedgerTaskOf(s, i, p)])
  {
    hide TryLedger, Consistent, IntendedEscrow, IntendedCredits, IntendedFees, AddsRows, Wants, Entries, NoRows,
      NoDirect, TasksFinishable, NoOpenTask;
    LedgerWrote(s, i, p, faults);
    LedgerWrote(c, i, p, NO_FAULTS);
    WroteLinked(s, c, TryLedger(s, i, p, faults), TryLedger(c, i, p, NO_FAULTS), i, p, LedgerTaskOf(s, i, p));
  }

  lemma FeeLinked(s: Db, c: Db, i: nat, p: nat, faults: Faults)
    requires Linked(s, c) && Settled(s, Some(i)) && IsPaid(s, p)
    requires NoRows(s.feeRows, i) && NoRows(c.feeRows, i) && NoOpenTask(s.tasks, FeeTask, i)
    ensures var s', c' := TryFee(s, i, p, faults), TryFee(c, i, p, NO_FAULTS);
            && Linked(s', c') && SameFacts(s, s')
            && s'.technicianRows == s.technicianRows && c'.technicianRows == c.technicianRows
            && (s'.tasks == s.tasks || s'.tasks == s.tasks + [FeeTaskOf(s, i, p)])
  {
    hide TryFee, Consistent, IntendedEscrow, IntendedCredits, IntendedFees, AddsRows, Wants, Entries, NoRows,
      NoOpenTask, TasksFinishable;
    FeeWrote(s, i, p, faults);
    FeeWrote(c, i, p, NO_FAULTS);
    WroteLinked(s, c, TryFee(s, i, p, faults), TryFee(c, i, p, NO_FAULTS), i, p, FeeTaskOf(s, i, p));
  }

  /** Other tasks do not count. */
  lemma OtherKind(tasks: seq<Task>, task: Task, kind: TaskKind, i: nat)
    requires NoOpenTask(tasks, kind, i) && task.kind != kind
    ensures NoOpenTask(tasks + [task], kind, i)
  {
  }

  function Rest(db: Db, i: nat, p: nat, faults: Faults): (r: Db)
    requires i < |db.invoices|
    ensures r.invoices == db.invoices && r.payments == db.payments
  {
    TryFee(TryLedger(db, i, p, faults), i, p, faults)
  }

  /** From the moment invoice and escrow are dealt with, the rest of `mark_paid`. */
  lemma RestLinked(s: Db, c: Db, i: nat, p: nat, faults: Faults)
    requires Linked(s, c) && Settled(s, Some(i)) && IsPaid(s, p)
    requires NoRows(s.technicianRows, i) && NoRows(c.technicianRows, i)
    requires NoRows(s.feeRows, i) && NoRows(c.feeRows, i)
    requires NoOpenTask(s.tasks, LedgerTask, i) && NoOpenTask(s.tasks, FeeTask, i)
    ensures var s', c' := Rest(s, i, p, faults), Rest(c, i, p, NO_FAULTS);
            && Linked(s', c') && SameFacts(s, s')
            && (NoDirect(s.technicianRows, p) ==> NoDirect(s'.technicianRows, p))
            && (NoDirect(c.technicianRows, p) ==> NoDirect(c'.technicianRows, p))
            && (NoOpenTask(s.tasks, DirectTask, i) ==> NoOpenTask(s'.tasks, DirectTask, i))
  {
    LinkedFacts(s, c);
    hide TryLedger, TryFee, Linked, NoRows, NoOpenTask, NoDirect;
    LedgerLinked(s, c, i, p, faults);
    var s1, c1 := TryLedger(s, i, p, faults), TryLedger(c, i, p, NO_FAULTS);
    if s1.tasks != s.tasks {
      OtherKind(s.tasks, LedgerTaskOf(s, i, p), FeeTask, i);
    }
    FeeLinked(s1, c1, i, p, faults);
    DirectTasksUntouched(s, s1, TryFee(s1, i, p, faults), i, p);
  }

  lemma DirectTasksUntouched(s: Db, s1: Db, s2: Db, i: nat, p: nat)
    requires i < |s.invoices| && SameFacts(s, s1)
    requires s1.tasks == s.tasks || s1.tasks == s.tasks + [LedgerTaskOf(s, i, p)]
    requires s2.tasks == s1.tasks || s2.tasks == s1.tasks + [FeeTaskOf(s1, i, p)]
    ensures NoOpenTask(s.tasks, DirectTask, i) ==> NoOpenTask(s2.tasks, DirectTask, i)
  {
  }

  /** The direct settlement, when there is something to settle and it can be retried. */
  lemma DirectLinked(s: Db, c: Db, p: nat, faults: Faults)
    requires Linked(s, c) && IsPaid(s, p) && DirectGuard(s, p, faults)
    requires NoDirect(s.technicianRows, p) && NoDirect(c.technicianRows, p)
    ensures Linked(PostDirect(s, p, faults), PostDirect(c, p, NO_FAULTS))
  {
    DirectSame(s, c, p);
    if DirectEntries(s, p) == [] {
      NothingDirect(s, p, faults);
      NothingDirect(c, p, NO_FAULTS);
    } else {
      var i := s.payments[p].invoice.value;
      DirectIsSettled(s, p);
      hide PostDirect, DirectEntries, DirectGuard, NoDirect, Consistent, IntendedEscrow, IntendedCredits, IntendedFees,
        AddsRows, Wants, Entries, TasksFinishable;
      assert DirectGuard(c, p, NO_FAULTS) by { NoFaultsGuard(c, p); }
      DirectWrote(s, i, p, faults);
      DirectWrote(c, i, p, NO_FAULTS);
      WroteLinked(s, c, PostDirect(s, p, faults), PostDirect(c, p, NO_FAULTS), i, p, DirectTaskOf(s, p));
    }
  }

  lemma NoFaultsGuard(db: Db, p: nat)
    requires p < |db.payments|
    ensures DirectGuard(db, p, NO_FAULTS)
  {
  }

  lemma DirectSame(s: Db, c: Db, p: nat)
    requires SameFacts(s, c)
    ensures DirectEntries(s, p) == DirectEntries(c, p)
  {
  }

  lemma NothingDirect(db: Db, p: nat, faults: Faults)
    requires DirectEntries(db, p) == []
    ensures PostDirect(db, p, faults) == db
  {
    hide DirectEntries;
  }

  /** What is settled directly belongs to a settled invoice, so its task can be finished. */
  lemma DirectIsSettled(db: Db, p: nat)
    requires IsPaid(db, p) && DirectEntries(db, p) != []
    ensures db.payments[p].ThroughPlatform() && db.payments[p].invoice.Some? && Settled(db, db.payments[p].invoice)
    ensures Finishable(db, DirectTaskOf(db, p))
  {
  }

  /** The bare settling of an issued invoice by a payment now paid. */
  lemma SettlingSafe(db: Db, p: nat, i: nat, tracking: string, now: int)
    requires Sound(db) && p < |db.payments| && i < |db.invoices|
    requires db.payments[p].status == Pending && now <= db.payments[p].createdAt + EXPIRATION
    requires db.invoices[i].settlement.None?
    ensures var base := Settling(db, p, i, tracking, now);
            && base == db.(invoices := base.invoices, payments := base.payments)
            && Sound(base) && Advances(db, base) && Settled(base, Some(i))
            && PaysInvoice(db, p) == PaysInvoice(base, p)
            && base.payments[p] == db.payments[p].(status := Paid, tracking := tracking, paidAt := Some(now))
  {
    hide CalculateSplit, MethodOf, ReferenceOf;
  }

  /** `mark_paid` on a verified payment, seen as settling, escrow, ledger and fee. */
  lemma MarkPaidIs(db: Db, p: nat, i: nat, tracking: string, now: int, faults: Faults)
    requires p < |db.payments| && i < |db.invoices|
    requires db.payments[p].invoice == Some(i) && db.payments[p].company == db.invoices[i].company
    requires CanBePaid(AcceptPayment(db, p, tracking, now, faults), i, Some(p))
    ensures MarkPaid(AcceptPayment(db, p, tracking, now, faults), i, Some(p), "", "", now, faults)
            == Rest(TryEscrow(Settling(db, p, i, tracking, now), p, i, faults), i, p, faults)
  {
    SettleCommutes(db, p, i, tracking, now, faults);
    hide CalculateSplit, MethodOf, ReferenceOf, AcceptPayment, DistributeEscrow, WriteLedger, WriteFee, CreateEscrow;
  }

  /** The whole of a verification that pays its invoice. */
  function PayOnline(db: Db, p: nat, i: nat, tracking: string, now: int, faults: Faults): Db
    requires p < |db.payments| && CanBePaid(AcceptPayment(db, p, tracking, now, faults), i, Some(p))
  {
    PostDirect(MarkPaid(AcceptPayment(db, p, tracking, now, faults), i, Some(p), "", "", now, faults), p, faults)
  }

  /** An online payment that pays its issued invoice. */
  lemma OnlineLinked(s: Db, c: Db, p: nat, i: nat, tracking: string, now: int, faults: Faults)
    requires Linked(s, c)
    requires p < |s.payments| && s.payments[p].status == Pending && now <= s.payments[p].createdAt + EXPIRATION
    requires CanBePaid(AcceptPayment(s, p, tracking, now, faults), i, Some(p))
    requires CanBePaid(AcceptPayment(c, p, tracking, now, NO_FAULTS), i, Some(p))
    requires s.payments[p].invoice == Some(i) && i < |s.invoices| && s.invoices[i].settlement.None?
    requires s.payments[p].company == s.invoices[i].company
    requires faults.snapshot ==> DirectEntries(Settling(s, p, i, tracking, now), p) == []
    ensures Linked(PayOnline(s, p, i, tracking, now, faults), PayOnline(c, p, i, tracking, now, NO_FAULTS))
  {
    MarkPaidIs(s, p, i, tracking, now, faults);
    MarkPaidIs(c, p, i, tracking, now, NO_FAULTS);
    BeforePayment(s, c, p, i);
    SettlingSafe(s, p, i, tracking, now);
    SettlingSafe(c, p, i, tracking, now);
    SettlingSame(s, c, p, i, tracking, now);
    hide MarkPaid, AcceptPayment, CanBePaid, Consistent, IntendedEscrow, IntendedCredits, IntendedFees, TasksFinishable,
      Sound, Unwritten, Settling, PostDirect, DirectEntries;
    var s1, c1 := Settling(s, p, i, tracking, now), Settling(c, p, i, tracking, now);
    QuietStep(s, c, s1, c1);
    UnwrittenAfter(s, c, s1, c1, p, i);
    EscrowThenRest(s1, c1, p, i, faults);
  }

  /** Nothing is written or queued for payment `p` and invoice `i` yet. */
  predicate Unwritten(s: Db, c: Db, p: nat, i: nat) {
    && p !in s.escrows && p !in c.escrows && !HasOpenEscrowTask(s.tasks, p)
    && NoRows(s.technicianRows, i) && NoRows(c.technicianRows, i)
    && NoRows(s.feeRows, i) && NoRows(c.feeRows, i)
    && NoDirect(s.technicianRows, p) && NoDirect(c.technicianRows, p)
    && NoOpenTask(s.tasks, EscrowTask, i) && NoOpenTask(s.tasks, LedgerTask, i)
    && NoOpenTask(s.tasks, FeeTask, i) && NoOpenTask(s.tasks, DirectTask, i)
  }

  lemma BeforePayment(s: Db, c: Db, p: nat, i: nat)
    requires Linked(s, c) && i < |s.invoices| && s.invoices[i].settlement.None?
    requires p < |s.payments| ==> s.payments[p].status != Paid
    ensures Unwritten(s, c, p, i)
  {
    NothingBefore(s, i);
    NothingBefore(c, i);
    NoEscrowBefore(s, p);
    NoEscrowBefore(c, p);
    hide Consistent, TasksFinishable, IntendedEscrow, IntendedCredits, IntendedFees, NoRows, NoDirect,
      HasOpenEscrowTask;
    assert forall kind :: NoOpenTask(s.tasks, kind, i);
    hide NoOpenTask;
  }

  lemma UnwrittenAfter(s: Db, c: Db, s1: Db, c1: Db, p: nat, i: nat)
    requires Unwritten(s, c, p, i)
    requires s1 == s.(invoices := s1.invoices, payments := s1.payments)
    requires c1 == c.(invoices := c1.invoices, payments := c1.payments)
    ensures Unwritten(s1, c1, p, i)
  {
    hide NoRows, NoDirect, NoOpenTask, HasOpenEscrowTask;
  }

  lemma SettlingSame(s: Db, c: Db, p: nat, i: nat, tracking: string, now: int)
    requires SameFacts(s, c) && p < |s.payments| && i < |s.invoices|
    ensures SameFacts(Settling(s, p, i, tracking, now), Settling(c, p, i, tracking, now))
  {
    hide CalculateSplit, FirstNonEmpty;
  }

  lemma EscrowThenRest(s: Db, c: Db, p: nat, i: nat, faults: Faults)
    requires Linked(s, c) && Unwritten(s, c, p, i)
    requires Settled(s, Some(i)) && IsPaid(s, p) && s.payments[p].invoice == Some(i)
    requires faults.snapshot ==> DirectEntries(s, p) == []
    ensures Linked(PostDirect(Rest(TryEscrow(s, p, i, faults), i, p, faults), p, faults),
                   PostDirect(Rest(TryEscrow(c, p, i, NO_FAULTS), i, p, NO_FAULTS), p, NO_FAULTS))
  {
    EscrowLinked(s, c, p, i, faults);
    var s1, c1 := TryEscrow(s, p, i, faults), TryEscrow(c, p, i, NO_FAULTS);
    hide TryEscrow, Rest, Linked, Unwritten, NoRows, NoDirect, NoOpenTask, HasOpenEscrowTask, DirectEntries, PostDirect;
    RestLinked(s1, c1, i, p, faults);
    var s2 := Rest(s1, i, p, faults);
    DirectAfterRest(s, s2, p, i, faults);
    DirectLinked(s2, Rest(c1, i, p, NO_FAULTS), p, faults);
  }

  lemma DirectAfterRest(s: Db, s2: Db, p: nat, i: nat, faults: Faults)
    requires SameFacts(s, s2) && p < |s.payments| && s.payments[p].invoice == Some(i)
    requires NoOpenTask(s2.tasks, DirectTask, i) && (faults.snapshot ==> DirectEntries(s, p) == [])
    ensures DirectGuard(s2, p, faults)
  {
    DirectSame(s, s2, p);
    hide DirectEntries;
  }

  /** The two escrow writes keep the link, and touch nothing else. */
  lemma EscrowLinked(s: Db, c: Db, p: nat, i: nat, faults: Faults)
    requires Linked(s, c) && Unwritten(s, c, p, i)
    requires Settled(s, Some(i)) && IsPaid(s, p) && s.payments[p].invoice == Some(i)
    ensures var s1, c1 := TryEscrow(s, p, i, faults), TryEscrow(c, p, i, NO_FAULTS);
            && Linked(s1, c1) && SameFacts(s, s1)
            && NoRows(s1.technicianRows, i) && NoRows(c1.technicianRows, i)
            && NoRows(s1.feeRows, i) && NoRows(c1.feeRows, i)
            && NoDirect(s1.technicianRows, p) && NoDirect(c1.technicianRows, p)
            && NoOpenTask(s1.tasks, LedgerTask, i) && NoOpenTask(s1.tasks, FeeTask, i)
                 && NoOpenTask(s1.tasks, DirectTask, i)
  {
    hide NoRows, NoDirect, HasOpenEscrowTask, TryEscrow, NoOpenTask, Complete, IntendedEscrow, Consistent,
      TasksFinishable, IntendedCredits, IntendedFees;
    var task := Task(EscrowTask, s.invoices[i].company, Some(i), Some(p), Waiting, 0);
    TryEscrowIs(s, p, i, faults);
    TryEscrowIs(c, p, i, NO_FAULTS);
    SameCompletion(s, c, p);
    var s1, c1 := TryEscrow(s, p, i, faults), TryEscrow(c, p, i, NO_FAULTS);
    if s1.tasks != s.tasks {
      OtherKind(s.tasks, task, LedgerTask, i);
      OtherKind(s.tasks, task, FeeTask, i);
      OtherKind(s.tasks, task, DirectTask, i);
    }
    EscrowStep(s, c, s1, c1, p, i, task);
  }

  lemma SameCompletion(s: Db, c: Db, p: nat)
    requires SameFacts(s, c) && PaysInvoice(s, p) && p !in s.escrows && p !in c.escrows
    ensures Complete(s, p) == Complete(c, p)
  {
  }

  // ----------------------------------------------------------------- Cash receipts

  lemma CashLinked(s: Db, c: Db, i: nat, payment: Payment, means: string, reference: string, now: int, faults: Faults)
    requires Linked(s, c)
    requires payment.gateway.None? && payment.status == Paid
    requires i < |s.invoices| && s.invoices[i].settlement.None?
    requires CanBePaid(s.(payments := s.payments + [payment]), i, Some(|s.payments|))
    ensures var p := Some(|s.payments|);
            var s0, c0 := s.(payments := s.payments + [payment]), c.(payments := c.payments + [payment]);
            && CanBePaid(c0, i, p)
            && Linked(MarkPaid(s0, i, p, means, reference, now, faults),
                 MarkPaid(c0, i, p, means, reference, now, NO_FAULTS))
  {
    var p := |s.payments|;
    var s0, c0 := s.(payments := s.payments + [payment]), c.(payments := c.payments + [payment]);
    var s1, c1 := Settle(s0, i, Some(p), means, reference, now), Settle(c0, i, Some(p), means, reference, now);
    BeforePayment(s, c, p, i);
    CashMarkPaidIs(s0, i, p, means, reference, now, faults);
    CashMarkPaidIs(c0, i, p, means, reference, now, NO_FAULTS);
    CashSettled(s, c, i, payment, means, reference, now);
    hide MarkPaid, Settle, Consistent, IntendedEscrow, IntendedCredits, IntendedFees, TasksFinishable, Sound, NoRows,
      NoOpenTask, NoDirect, HasOpenEscrowTask, Rest;
    QuietStep(s, c, s1, c1);
    RestLinked(s1, c1, i, p, faults);
  }

  lemma CashSettled(s: Db, c: Db, i: nat, payment: Payment, means: string, reference: string, now: int)
    requires SameFacts(s, c) && Sound(s) && i < |s.invoices| && s.invoices[i].settlement.None?
    requires payment.gateway.None? && payment.status == Paid
    ensures var p := |s.payments|;
            var s1 := Settle(s.(payments := s.payments + [payment]), i, Some(p), means, reference, now);
            var c1 := Settle(c.(payments := c.payments + [payment]), i, Some(p), means, reference, now);
            && s1 == s.(invoices := s1.invoices, payments := s1.payments)
            && c1 == c.(invoices := s1.invoices, payments := s1.payments)
            && Advances(s, s1) && Sound(s1) && Settled(s1, Some(i))
            && p < |s1.payments| && s1.payments[p].status == Paid
  {
    hide CalculateSplit, FirstNonEmpty;
  }

  /** Cash has no escrow, so only ledger and fee follow the settling. */
  lemma CashMarkPaidIs(db: Db, i: nat, p: nat, means: string, reference: string, now: int, faults: Faults)
    requires CanBePaid(db, i, Some(p)) && p !in db.escrows
    ensures MarkPaid(db, i, Some(p), means, reference, now, faults)
            == Rest(Settle(db, i, Some(p), means, reference, now), i, p, faults)
  {
    hide CalculateSplit, MethodOf, ReferenceOf, WriteLedger, WriteFee, Commission, Wage;
    var settled := Settle(db, i, Some(p), means, reference, now);
    assert DistributeEscrow(settled, i, Some(p), faults) == Attempt(settled, false);
  }

  /** Cancelling abandoned payments is a quiet step. */
  lemma AbandonedLinked(s: Db, c: Db, i: nat, company: nat, cash: nat)
    requires Linked(s, c)
    ensures var payments := CancelAbandoned(s.payments, i, company, cash);
            Linked(s.(payments := payments), c.(payments := payments))
  {
    var payments := CancelAbandoned(s.payments, i, company, cash);
    QuietStep(s, c, s.(payments := payments), c.(payments := payments));
  }

  // ------------------------------------------------------------------- The retries

  lemma OpenUpdated(tasks: seq<Task>, t: nat, after: Task, p: nat)
    requires t < |tasks| && after == tasks[t].(status := after.status, attempts := after.attempts)
    ensures after.status == tasks[t].status || tasks[t].kind != EscrowTask || tasks[t].payment != Some(p) ==>
              (HasOpenEscrowTask(tasks[t := after], p) <==> HasOpenEscrowTask(tasks, p))
  {
    var updated := tasks[t := after];
    if HasOpenEscrowTask(tasks, p) {
      var u :| 0 <= u < |tasks| && tasks[u].kind == EscrowTask && tasks[u].status != Resolved
          && tasks[u].payment == Some(p);
      assert updated[u].kind == EscrowTask;
    }
    if HasOpenEscrowTask(updated, p) {
      var u :| 0 <= u < |updated| && updated[u].kind == EscrowTask && updated[u].status != Resolved
          && updated[u].payment == Some(p);
      assert tasks[u].kind == EscrowTask;
    }
  }

  /** Updating a task's progress: the other tasks stay finishable, and what is wanted
      shrinks by this task's wants if it is now resolved. */
  lemma TaskUpdated(s: Db, s': Db, t: nat, after: Task)
    requires t < |s.tasks| && TasksFinishable(s) && SameFacts(s, s')
    requires after == s.tasks[t].(status := after.status, attempts := after.attempts)
    requires after.status == Resolved || after.status == s.tasks[t].status
    requires s'.tasks == s.tasks[t := after]
    ensures TasksFinishable(s')
    ensures forall kind ::
      AllWants(s', s'.tasks, kind) + (if after.status == Resolved then Wants(s, s.tasks[t], kind) else {})
      == AllWants(s, s.tasks, kind)
  {
    forall kind
      ensures AllWants(s', s'.tasks, kind) + (if after.status == Resolved then Wants(s, s.tasks[t], kind) else {})
              == AllWants(s, s.tasks, kind)
    {
      WantsResolved(s, s.tasks, t, kind, after);
      WantsSame(s, s', s'.tasks, kind);
    }
    hide AllWants, Wants;
  }

  lemma IntentDepends(s: Db, s': Db, q: nat)
    requires SameFacts(s, s') && Lookup(s.escrows, q) == Lookup(s'.escrows, q)
    requires HasOpenEscrowTask(s.tasks, q) <==> HasOpenEscrowTask(s'.tasks, q)
    ensures IntendedEscrow(s', q) == IntendedEscrow(s, q)
  {
    hide PlatformFee, Wage, ReserveAndDistribute;
  }

  /** A state that holds and intends the same is linked to the same failure-free state. */
  lemma LinkedFrom(s: Db, c: Db, s': Db)
    requires Linked(s, c) && SameFacts(s, s') && Consistent(s') && TasksFinishable(s')
    requires IntendedCredits(s') == IntendedCredits(s) && IntendedFees(s') == IntendedFees(s)
    requires forall q :: IntendedEscrow(s', q) == IntendedEscrow(s, q)
    ensures Linked(s', c)
  {
    hide IntendedEscrow, IntendedCredits, IntendedFees, TasksFinishable, Consistent;
  }

  lemma ConsistentWithTasks(s: Db, tasks: seq<Task>)
    requires Consistent(s)
    ensures Consistent(s.(tasks := tasks))
  {
    hide UniqueKeys;
  }

  /** A failed retry only counts the attempt. */
  lemma FailedRetryLinked(s: Db, c: Db, t: nat)
    requires Linked(s, c) && t < |s.tasks| && s.tasks[t].status == Waiting
    ensures Linked(s.(tasks := s.tasks[t := s.tasks[t].(attempts := s.tasks[t].attempts + 1)]), c)
  {
    var after := s.tasks[t].(attempts := s.tasks[t].attempts + 1);
    var s' := s.(tasks := s.tasks[t := after]);
    ConsistentWithTasks(s, s.tasks[t := after]);
    hide IntendedEscrow, AllWants, Wants, TasksFinishable, Consistent, HasOpenEscrowTask;
    TaskUpdated(s, s', t, after);
    assert AllWants(s', s'.tasks, TechnicianBook) == AllWants(s, s.tasks, TechnicianBook);
    assert AllWants(s', s'.tasks, FeeBook) == AllWants(s, s.tasks, FeeBook);
    forall q
      ensures IntendedEscrow(s', q) == IntendedEscrow(s, q)
    {
      OpenUpdated(s.tasks, t, after, q);
      IntentDepends(s, s', q);
    }
    LinkedFrom(s, c, s');
  }

  /** What a linked task wants can be posted: rows with its keys are its own. */
  lemma WantedAgrees(rows: seq<Row>, all: seq<Row>, wanted: set<Entry>, e: Entry)
    requires UniqueKeys(all) && Entries(rows) <= Entries(all) && wanted <= Entries(all)
    requires e in wanted && 0 <= e.amount
    ensures Agrees(rows, e)
  {
    forall r | r in rows && r.entry.key == e.key
      ensures r.entry == e
    {
      assert r.entry in Entries(rows);
      var x :| x in all && x.entry == e;
      var y :| y in all && y.entry == r.entry;
      var i :| 0 <= i < |all| && all[i] == x;
      var j :| 0 <= j < |all| && all[j] == y;
    }
  }

  lemma TaskWantsAgree(s: Db, c: Db, t: nat)
    requires Linked(s, c) && t < |s.tasks| && s.tasks[t].status != Resolved
    requires s.tasks[t].invoice.Some? && s.tasks[t].invoice.value < |s.invoices|
    ensures s.tasks[t].kind == LedgerTask ==>
              forall e :: e in InvoiceEntries(Facts(s, s.tasks[t].invoice.value, s.tasks[t].payment)) ==>
                  Agrees(s.technicianRows, e)
    ensures s.tasks[t].kind == FeeTask ==>
              forall e :: e in FeeEntries(s, s.tasks[t].invoice.value, s.tasks[t].payment) ==> Agrees(s.feeRows, e)
    ensures s.tasks[t].kind == DirectTask && s.tasks[t].payment.Some? ==>
              forall e :: e in DirectEntries(s, s.tasks[t].payment.value) ==> Agrees(s.technicianRows, e)
  {
    hide AllWants, IntendedEscrow, TasksFinishable, Sound;
    var task := s.tasks[t];
    var i := task.invoice.value;
    if task.kind == LedgerTask {
      WantsInAll(s, s.tasks, t, TechnicianBook);
      forall e | e in InvoiceEntries(Facts(s, i, task.payment))
        ensures Agrees(s.technicianRows, e)
      {
        assert e in Wants(s, task, TechnicianBook);
        WantedAgrees(s.technicianRows, c.technicianRows, Wants(s, task, TechnicianBook), e);
      }
    }
    if task.kind == DirectTask && task.payment.Some? {
      WantsInAll(s, s.tasks, t, TechnicianBook);
      forall e | e in DirectEntries(s, task.payment.value)
        ensures Agrees(s.technicianRows, e)
      {
        assert e in Wants(s, task, TechnicianBook);
        WantedAgrees(s.technicianRows, c.technicianRows, Wants(s, task, TechnicianBook), e);
      }
    }
    if task.kind == FeeTask {
      WantsInAll(s, s.tasks, t, FeeBook);
      forall e | e in FeeEntries(s, i, task.payment)
        ensures Agrees(s.feeRows, e)
      {
        assert e in Wants(s, task, FeeBook);
        WantedAgrees(s.feeRows, c.feeRows, Wants(s, task, FeeBook), e);
      }
    }
  }

  lemma OpenTaskWants(db: Db, task: Task)
    requires task.status != Resolved && task.invoice.Some? && task.invoice.value < |db.invoices|
    ensures task.kind == LedgerTask ==>
              && Wants(db, task, TechnicianBook)
                   == (set e | e in InvoiceEntries(Facts(db, task.invoice.value, task.payment)))
              && Wants(db, task, FeeBook) == {}
    ensures task.kind == FeeTask ==>
              && Wants(db, task, FeeBook) == (set e | e in FeeEntries(db, task.invoice.value, task.payment))
              && Wants(db, task, TechnicianBook) == {}
    ensures task.kind == DirectTask && task.payment.Some? ==>
              && Wants(db, task, TechnicianBook) == (set e | e in DirectEntries(db, task.payment.value))
              && Wants(db, task, FeeBook) == {}
  {
  }

  lemma LedgerRetried(s: Db, c: Db, t: nat, faults: Faults)
    requires Linked(s, c) && t < |s.tasks| && Finishable(s, s.tasks[t]) && s.tasks[t].kind == LedgerTask
    requires !Retry(s, s.tasks[t], faults).raised
    ensures Linked(ProcessTask(s, t, faults, false), c)
  {
    hide InvoiceEntries, Facts, IntendedEscrow, TasksFinishable, AllWants, Sound, KeysOfSettled, Wants, Entries,
      WriteLedger, Agrees, UniqueKeys;
    var task := s.tasks[t];
    var i := task.invoice.value;
    var after := task.(status := Resolved, attempts := task.attempts + 1);
    var s' := ProcessTask(s, t, faults, false);
    TaskWantsAgree(s, c, t);
    OpenTaskWants(s, task);
    WriteLedgerAdds(s, i, task.payment, faults);
    assert s' == WriteLedger(s, i, task.payment, faults).db.(tasks := s.tasks[t := after]);
    RetriedLinked(s, c, s', t, after, i, task.payment.value);
  }

  lemma DirectRetried(s: Db, c: Db, t: nat, faults: Faults)
    requires Linked(s, c) && t < |s.tasks| && Finishable(s, s.tasks[t]) && s.tasks[t].kind == DirectTask
    requires !Retry(s, s.tasks[t], faults).raised
    ensures Linked(ProcessTask(s, t, faults, false), c)
  {
    hide DirectEntries, IntendedEscrow, TasksFinishable, AllWants, Sound, KeysOfSettled, Wants, Entries, WriteDirect,
      Agrees, UniqueKeys;
    var task := s.tasks[t];
    var i, p := task.invoice.value, task.payment.value;
    var after := task.(status := Resolved, attempts := task.attempts + 1);
    var s' := ProcessTask(s, t, faults, false);
    TaskWantsAgree(s, c, t);
    OpenTaskWants(s, task);
    WriteDirectAdds(s, p, faults);
    assert s' == WriteDirect(s, p, faults).db.(tasks := s.tasks[t := after]);
    RetriedLinked(s, c, s', t, after, i, p);
  }

  lemma FeeRetried(s: Db, c: Db, t: nat, faults: Faults)
    requires Linked(s, c) && t < |s.tasks| && Finishable(s, s.tasks[t]) && s.tasks[t].kind == FeeTask
    requires !Retry(s, s.tasks[t], faults).raised
    ensures Linked(ProcessTask(s, t, faults, false), c)
  {
    hide FeeEntries, IntendedEscrow, TasksFinishable, AllWants, Sound, KeysOfSettled, Wants, Entries, WriteFee, Agrees,
      UniqueKeys;
    var task := s.tasks[t];
    var i := task.invoice.value;
    var after := task.(status := Resolved, attempts := task.attempts + 1);
    var s' := ProcessTask(s, t, faults, false);
    TaskWantsAgree(s, c, t);
    OpenTaskWants(s, task);
    WriteFeeAdds(s, i, task.payment, faults);
    assert s' == WriteFee(s, i, task.payment, faults).db.(tasks := s.tasks[t := after]);
    RetriedLinked(s, c, s', t, after, i, task.payment.value);
  }

  /** Writing what a ledger or fee task wanted and resolving it keeps the link. */
  lemma RetriedLinked(s: Db, c: Db, s': Db, t: nat, after: Task, i: nat, p: nat)
    requires Linked(s, c) && t < |s.tasks| && s.tasks[t].kind != EscrowTask && Settled(s, Some(i)) && IsPaid(s, p)
    requires after == s.tasks[t].(status := Resolved, attempts := after.attempts)
    requires s'.tasks == s.tasks[t := after]
    requires SameFacts(s, s') && s'.escrows == s.escrows && AddsRows(s, s', i, p)
    requires Entries(s'.technicianRows) == Entries(s.technicianRows) + Wants(s, s.tasks[t], TechnicianBook)
    requires Entries(s'.feeRows) == Entries(s.feeRows) + Wants(s, s.tasks[t], FeeBook)
    ensures Linked(s', c)
  {
    TaskUpdated(s, s', t, after);
    assert IntendedCredits(s') == IntendedCredits(s) && IntendedFees(s') == IntendedFees(s) by {
      hide Wants, AllWants, Consistent, IntendedEscrow, TasksFinishable, Entries;
      assert AllWants(s', s'.tasks, TechnicianBook) + Wants(s, s.tasks[t], TechnicianBook)
             == AllWants(s, s.tasks, TechnicianBook);
      assert AllWants(s', s'.tasks, FeeBook) + Wants(s, s.tasks[t], FeeBook) == AllWants(s, s.tasks, FeeBook);
    }
    ConsistentAfterRows(s, s', i, p);
    hide IntendedEscrow, IntendedCredits, IntendedFees, TasksFinishable, Consistent, HasOpenEscrowTask;
    forall q
      ensures IntendedEscrow(s', q) == IntendedEscrow(s, q)
    {
      OpenUpdated(s.tasks, t, after, q);
      IntentDepends(s, s', q);
    }
    LinkedFrom(s, c, s');
  }

  lemma EscrowRetried(s: Db, c: Db, t: nat, faults: Faults)
    requires Linked(s, c) && t < |s.tasks| && Finishable(s, s.tasks[t]) && s.tasks[t].kind == EscrowTask
    requires !Retry(s, s.tasks[t], faults).raised
    ensures Linked(ProcessTask(s, t, faults, false), c)
  {
    var task := s.tasks[t];
    var i, p := task.invoice.value, task.payment.value;
    var after := task.(status := Resolved, attempts := task.attempts + 1);
    var s' := ProcessTask(s, t, faults, false);
    EscrowRetryCompletes(s, t, i, p, faults);
    assert IntendedEscrow(s, p) == Some(Complete(s, p));
    hide ProcessTask, Complete;
    EscrowResolvedLinked(s, c, s', t, after, p);
  }

  /** A retry of an escrow task that does not raise makes the complete pass. */
  lemma EscrowRetryCompletes(s: Db, t: nat, i: nat, p: nat, faults: Faults)
    requires t < |s.tasks| && Finishable(s, s.tasks[t]) && s.tasks[t].kind == EscrowTask
    requires s.tasks[t].invoice == Some(i) && s.tasks[t].payment == Some(p)
    requires !Retry(s, s.tasks[t], faults).raised
    ensures var s' := ProcessTask(s, t, faults, false);
            && s'.tasks == s.tasks[t := s.tasks[t].(status := Resolved, attempts := s.tasks[t].attempts + 1)]
            && OnlyEscrowOf(s, s', p)
            && Lookup(s'.escrows, p) == Some(Complete(s, p))
            && Complete(s', p) == Complete(s, p)
  {
    hide PlatformFee, Wage;
    var full := Complete(s, p);
    assert s.escrows[p := full] - {p} == s.escrows - {p};
    var held := HeldRecord(Some(i), s.payments[p].amount);
    assert s.escrows[p := held][p := full] == s.escrows[p := full];
    if p in s.escrows { assert s.escrows[p := s.escrows[p]] == s.escrows; }
  }

  lemma EscrowResolvedLinked(s: Db, c: Db, s': Db, t: nat, after: Task, p: nat)
    requires Linked(s, c) && t < |s.tasks| && s.tasks[t].kind == EscrowTask && s.tasks[t].payment == Some(p)
    requires p < |s.payments| && s.payments[p].status == Paid && PaysInvoice(s, p)
    requires after == s.tasks[t].(status := Resolved, attempts := after.attempts)
    requires OnlyEscrowOf(s, s', p) && s'.tasks == s.tasks[t := after]
    requires IntendedEscrow(s, p) == Lookup(s'.escrows, p) == Some(Complete(s', p))
    ensures Linked(s', c)
  {
    hide IntendedEscrow, TasksFinishable, Consistent, HasOpenEscrowTask, Complete, AllWants, Entries;
    ConsistentAfterEscrow(s, s', p);
    TaskUpdated(s, s', t, after);
    assert IntendedCredits(s') == IntendedCredits(s) && IntendedFees(s') == IntendedFees(s) by {
      assert AllWants(s', s'.tasks, TechnicianBook) + Wants(s, s.tasks[t], TechnicianBook)
             == AllWants(s, s.tasks, TechnicianBook);
      assert AllWants(s', s'.tasks, FeeBook) + Wants(s, s.tasks[t], FeeBook) == AllWants(s, s.tasks, FeeBook);
    }
    IntentNow(s', p);
    hide IntendedCredits, IntendedFees, Wants;
    forall q
      ensures IntendedEscrow(s', q) == IntendedEscrow(s, q)
    {
      if q != p {
        OpenUpdated(s.tasks, t, after, q);
        SameElsewhere(s.escrows, s'.escrows, p, q);
        IntentDepends(s, s', q);
      }
    }
    LinkedFrom(s, c, s');
  }

  /** A completed record is intended to stay as it is. */
  lemma IntentNow(db: Db, p: nat)
    requires PaysInvoice(db, p) && Lookup(db.escrows, p) == Some(Complete(db, p))
    ensures IntendedEscrow(db, p) == Lookup(db.escrows, p)
  {
    hide Complete;
  }

  lemma SameElsewhere(a: map<nat, Record>, b: map<nat, Record>, p: nat, q: nat)
    requires a - {p} == b - {p} && p != q
    ensures Lookup(a, q) == Lookup(b, q)
  {
    assert q in a <==> q in a - {p};
    assert q in b <==> q in b - {p};
    assert q in a ==> (a - {p})[q] == a[q];
    assert q in b ==> (b - {p})[q] == b[q];
  }

  // ------------------------------------------------------------------- Every step

  /** The wage invoice `i` has, or is frozen with when it is paid now. */
  function FrozenWage(db: Db, i: nat): int
    requires i < |db.invoices|
  {
    var invoice, policies := db.invoices[i], PolicyOf(db, db.invoices[i].company);
    if invoice.settlement.Some? then Wage(invoice)
    else if invoice.status == Issued then CalculateSplit(invoice.bill, policies.extra, policies.campaign).finalTech
    else 0
  }

  /** Verifying payment `p` is not undone: its invoice does not wait, or is paid by it. */
  predicate Lands(db: Db, p: nat)
    requires p < |db.payments|
  {
    InvoiceIssued(db, p) ==>
      var invoice := db.invoices[db.payments[p].invoice.value];
      invoice.settlement.None? && db.payments[p].company == invoice.company && db.payments[p].amount == invoice.total
  }

  /** Verifying payment `p` makes a direct settlement due: the gateway splits with the
      technician of its invoice, who has a wage. */
  predicate DirectOwed(db: Db, p: nat)
    requires p < |db.payments|
  {
    && db.payments[p].ThroughPlatform() && PaysInvoice(db, p) && Lands(db, p)
    && var i := db.payments[p].invoice.value;
       && db.payments[p].company == db.invoices[i].company && db.invoices[i].technician.Some?
       && db.invoices[i].technician.value in PolicyOf(db, db.invoices[i].company).paidDirectly
       && 0 < FrozenWage(db, i)
  }

  /** What may not fail: creating the escrow record of a platform payment whose invoice does
      not wait for it; the snapshot of a direct settlement that is due; and such a settlement
      itself, if an earlier payment of the same invoice still has a task for its own. */
  predicate GuardedPayment(db: Db, p: nat, response: VerifyResponse, now: int, faults: Faults) {
    Verified(db, p, response, now) ==>
      && (faults.create && db.payments[p].ThroughPlatform() ==> InvoiceIssued(db, p))
      && (faults.snapshot ==> !DirectOwed(db, p))
      && (faults.direct && DirectOwed(db, p) && !InvoiceIssued(db, p) ==>
            !HasOpenTask(db.tasks, DirectTask, db.payments[p].company, db.payments[p].invoice))
  }

  predicate GuardedStep(db: Db, a: Action) {
    a.DoCallback? && !Blank(a.reference) ==>
      match FindByReference(db.payments, a.company, a.reference, |db.payments|)
      case Some(p) => GuardedPayment(db, p, a.response, a.now, a.faults)
      case None => true
  }

  predicate Guarded(db: Db, actions: seq<Action>)
    decreases |actions|
  {
    actions == [] || (GuardedStep(db, actions[0]) && Guarded(Apply(db, actions[0]), actions[1..]))
  }

  lemma ProcessLinked(s: Db, c: Db, t: nat, faults: Faults, recordFault: bool)
    requires Linked(s, c)
    ensures Linked(ProcessTask(s, t, faults, recordFault), c)
  {
    if t < |s.tasks| && s.tasks[t].status == Waiting {
      ProcessIs(s, t, faults, recordFault);
      assert Finishable(s, s.tasks[t]);
      hide Linked, Retry, Finishable, ProcessTask;
      if Retry(s, s.tasks[t], faults).raised {
        FailedRetryLinked(s, c, t);
      } else {
        match s.tasks[t].kind
        case LedgerTask => LedgerRetried(s, c, t, faults);
        case FeeTask => FeeRetried(s, c, t, faults);
        case DirectTask => DirectRetried(s, c, t, faults);
        case EscrowTask => EscrowRetried(s, c, t, faults);
      }
    }
  }

  lemma ProcessIs(s: Db, t: nat, faults: Faults, recordFault: bool)
    requires t < |s.tasks| && s.tasks[t].status == Waiting
    ensures var end := ProcessTask(s, t, faults, recordFault);
            if !Retry(s, s.tasks[t], faults).raised then end == ProcessTask(s, t, faults, false)
            else end == s || end == s.(tasks := s.tasks[t := s.tasks[t].(attempts := s.tasks[t].attempts + 1)])
  {
    hide Retry;
  }

  lemma VerifyLinked(s: Db, c: Db, p: nat, response: VerifyResponse, now: int, faults: Faults)
    requires Linked(s, c)
    requires GuardedPayment(s, p, response, now, faults)
    ensures Linked(Verify(s, p, response, now, faults), Verify(c, p, response, now, NO_FAULTS))
  {
    hide Linked, Verify, DirectOwed, HasOpenTask;
    if !Verified(s, p, response, now) {
      VerifyUnverified(s, c, p, response, now, faults);
    } else if InvoiceIssued(s, p) {
      VerifyPays(s, c, p, response, now, faults);
    } else {
      VerifyHolds(s, c, p, response, now, faults);
    }
  }

  lemma VerifyPays(s: Db, c: Db, p: nat, response: VerifyResponse, now: int, faults: Faults)
    requires Linked(s, c) && Verified(s, p, response, now) && InvoiceIssued(s, p)
    requires faults.snapshot ==> !DirectOwed(s, p)
    ensures Linked(Verify(s, p, response, now, faults), Verify(c, p, response, now, NO_FAULTS))
  {
    LinkedFacts(s, c);
    var i := s.payments[p].invoice.value;
    VerifyPaysIs(s, p, i, response, now, faults);
    VerifyPaysIs(c, p, i, response, now, NO_FAULTS);
    CanBePaidSame(s, c, p, i, response, now, faults);
    if CanBePaid(AcceptPayment(s, p, response.tracking, now, faults), i, Some(p)) {
      DirectAfterSettling(s, p, i, response.tracking, now);
      hide MarkPaid, AcceptPayment, Linked, Verify, CanBePaid, PostDirect, DirectEntries, Settling, DirectOwed;
      OnlineLinked(s, c, p, i, response.tracking, now, faults);
    } else {
      hide Verify, MarkPaid, AcceptPayment, CanBePaid, Linked, PostDirect;
    }
  }

  /** What is due after the settling is what was foreseen before it. */
  lemma DirectAfterSettling(db: Db, p: nat, i: nat, tracking: string, now: int)
    requires p < |db.payments| && db.payments[p].invoice == Some(i) && i < |db.invoices|
    requires db.invoices[i].status == Issued && db.invoices[i].settlement.None?
    requires db.payments[p].company == db.invoices[i].company && db.payments[p].amount == db.invoices[i].total
    ensures DirectEntries(Settling(db, p, i, tracking, now), p) != [] <==> DirectOwed(db, p)
  {
    hide CalculateSplit, MethodOf, ReferenceOf;
  }

  lemma DirectUnissued(db: Db, accepted: Db, p: nat)
    requires Sound(db) && p < |db.payments| && !InvoiceIssued(db, p)
    requires accepted.policies == db.policies && accepted.invoices == db.invoices
             && |accepted.payments| == |db.payments|
    requires accepted.payments[p].invoice == db.payments[p].invoice
             && accepted.payments[p].company == db.payments[p].company
    requires accepted.payments[p].gateway == db.payments[p].gateway
    ensures DirectEntries(accepted, p) != [] <==> DirectOwed(db, p)
  {
    hide CalculateSplit;
  }

  lemma VerifyPaysIs(db: Db, p: nat, i: nat, response: VerifyResponse, now: int, faults: Faults)
    requires Verified(db, p, response, now) && InvoiceIssued(db, p) && db.payments[p].invoice == Some(i)
    ensures Verify(db, p, response, now, faults)
            == if CanBePaid(AcceptPayment(db, p, response.tracking, now, faults), i, Some(p))
               then PayOnline(db, p, i, response.tracking, now, faults) else db
  {
    hide AcceptPayment, MarkPaid, CanBePaid, PostDirect;
  }

  lemma CanBePaidSame(s: Db, c: Db, p: nat, i: nat, response: VerifyResponse, now: int, faults: Faults)
    requires SameFacts(s, c) && Sound(s) && Verified(s, p, response, now) && InvoiceIssued(s, p)
             && s.payments[p].invoice == Some(i)
    ensures CanBePaid(AcceptPayment(s, p, response.tracking, now, faults), i, Some(p))
            <==> CanBePaid(AcceptPayment(c, p, response.tracking, now, NO_FAULTS), i, Some(p))
    ensures CanBePaid(AcceptPayment(s, p, response.tracking, now, faults), i, Some(p)) <==> Lands(s, p)
    ensures Lands(s, p) ==>
              && s.invoices[i].settlement.None? && s.payments[p].company == s.invoices[i].company
              && s.payments[p].amount == s.invoices[i].total
  {
    AcceptPaymentSafe(s, p, response.tracking, now, faults);
    AcceptPaymentSafe(c, p, response.tracking, now, NO_FAULTS);
    hide AcceptPayment, Sound;
  }

  /** A payment whose invoice does not wait for it: paid, held if it came through the
      platform, and settled directly if that is due. */
  lemma VerifyHolds(s: Db, c: Db, p: nat, response: VerifyResponse, now: int, faults: Faults)
    requires Linked(s, c) && Verified(s, p, response, now) && !InvoiceIssued(s, p)
    requires GuardedPayment(s, p, response, now, faults)
    ensures Linked(Verify(s, p, response, now, faults), Verify(c, p, response, now, NO_FAULTS))
  {
    hide Linked, Verify, AcceptPayment, PostDirect, DirectEntries, DirectOwed, HasOpenTask, Sound, Advances, NoDirect,
      Holding, HasOpenEscrowTask;
    LinkedFacts(s, c);
    VerifyHoldsIs(s, p, response, now, faults);
    VerifyHoldsIs(c, p, response, now, NO_FAULTS);
    UnpaidBefore(s, c, p);
    HoldingIs(s, p, response.tracking, now, faults);
    HoldingIs(c, p, response.tracking, now, NO_FAULTS);
    JustPaidQuietly(s, p, response.tracking, now);
    HoldingKeepsPayments(s, p, response.tracking, now);
    var s1, c1 := JustPaid(s, p, response.tracking, now), JustPaid(c, p, response.tracking, now);
    QuietStep(s, c, s1, c1);
    HoldLinked(s1, c1, p);
    DirectUnissued(s, Holding(s1, p), p);
    GuardCarries(s, Holding(s1, p), p, response, now, faults);
    HoldingKeepsRows(s1, p);
    HoldingKeepsRows(c1, p);
    DirectLinked(Holding(s1, p), Holding(c1, p), p, faults);
  }

  lemma JustPaidQuietly(db: Db, p: nat, tracking: string, now: int)
    requires Sound(db) && p < |db.payments| && db.payments[p].status == Pending
             && now <= db.payments[p].createdAt + EXPIRATION
    ensures Sound(JustPaid(db, p, tracking, now)) && Advances(db, JustPaid(db, p, tracking, now))
  {
  }

  lemma HoldingKeepsPayments(db: Db, p: nat, tracking: string, now: int)
    requires p < |db.payments|
    ensures var held := Holding(JustPaid(db, p, tracking, now), p);
            && held.policies == db.policies && held.invoices == db.invoices && |held.payments| == |db.payments|
            && held.tasks == db.tasks
            && held.payments[p].invoice == db.payments[p].invoice && held.payments[p].company == db.payments[p].company
            && held.payments[p].gateway == db.payments[p].gateway
  {
  }

  lemma HoldingKeepsRows(db: Db, p: nat)
    requires p < |db.payments|
    ensures var held := Holding(db, p);
            held.technicianRows == db.technicianRows && held.feeRows == db.feeRows && held.payments == db.payments
  {
  }

  /** Payment `p` paid and nothing else. */
  function JustPaid(db: Db, p: nat, tracking: string, now: int): Db
    requires p < |db.payments|
  {
    db.(payments := db.payments[p := db.payments[p].(status := Paid, tracking := tracking, paidAt := Some(now))])
  }

  /** Its escrow record created, if it is to have one. */
  function Holding(db: Db, p: nat): Db
    requires p < |db.payments|
  {
    if !db.payments[p].ThroughPlatform() || p in db.escrows then db
    else db.(escrows := db.escrows[p := HeldRecord(db.payments[p].invoice, db.payments[p].amount)])
  }

  lemma VerifyHoldsIs(db: Db, p: nat, response: VerifyResponse, now: int, faults: Faults)
    requires Verified(db, p, response, now) && !InvoiceIssued(db, p)
    ensures Verify(db, p, response, now, faults)
            == PostDirect(AcceptPayment(db, p, response.tracking, now, faults), p, faults)
  {
    hide AcceptPayment, PostDirect;
  }

  lemma HoldingIs(db: Db, p: nat, tracking: string, now: int, faults: Faults)
    requires p < |db.payments| && (faults.create ==> !db.payments[p].ThroughPlatform())
    ensures AcceptPayment(db, p, tracking, now, faults) == Holding(JustPaid(db, p, tracking, now), p)
  {
  }

  lemma UnpaidBefore(s: Db, c: Db, p: nat)
    requires Linked(s, c) && p < |s.payments| && s.payments[p].status != Paid
    ensures p !in s.escrows && p !in c.escrows && !HasOpenEscrowTask(s.tasks, p)
    ensures NoDirect(s.technicianRows, p) && NoDirect(c.technicianRows, p)
  {
    NoEscrowBefore(s, p);
    NoEscrowBefore(c, p);
    hide Consistent, TasksFinishable, IntendedEscrow, IntendedCredits, IntendedFees, HasOpenEscrowTask, NoDirect;
  }

  /** Holding the money of a paid payment keeps the link. */
  lemma HoldLinked(s: Db, c: Db, p: nat)
    requires Linked(s, c) && IsPaid(s, p)
    requires p !in s.escrows && p !in c.escrows && !HasOpenEscrowTask(s.tasks, p)
    ensures Linked(Holding(s, p), Holding(c, p))
  {
    if s.payments[p].ThroughPlatform() {
      hide Consistent, TasksFinishable, IntendedEscrow, IntendedCredits, IntendedFees, HasOpenEscrowTask, Lookup;
      var held := HeldRecord(s.payments[p].invoice, s.payments[p].amount);
      var s', c' := s.(escrows := s.escrows[p := held]), c.(escrows := c.escrows[p := held]);
      HeldElsewhere(s, s', p, held);
      HeldElsewhere(c, c', p, held);
      SameWantsElsewhere(s, s');
      SelfAdvances(s);
      FinishableAfterQuiet(s, s');
      forall q
        ensures IntendedEscrow(s', q) == Lookup(c'.escrows, q)
      {
        HeldIntent(s, c, s', c', p, q, held);
      }
    }
  }

  lemma HeldElsewhere(db: Db, db': Db, p: nat, held: Record)
    requires Consistent(db) && IsPaid(db, p) && db' == db.(escrows := db.escrows[p := held])
    ensures Consistent(db')
  {
    assert db'.escrows - {p} == db.escrows - {p};
    ConsistentAfterEscrow(db, db', p);
    hide Consistent;
  }

  lemma HeldIntent(s: Db, c: Db, s': Db, c': Db, p: nat, q: nat, held: Record)
    requires s' == s.(escrows := s.escrows[p := held]) && c' == c.(escrows := c.escrows[p := held])
    requires !HasOpenEscrowTask(s.tasks, p) && IntendedEscrow(s, q) == Lookup(c.escrows, q)
    ensures IntendedEscrow(s', q) == Lookup(c'.escrows, q)
  {
    if q == p {
      HeldIsIntended(s', p);
    } else {
      IntentDepends(s, s', q);
    }
    hide IntendedEscrow;
  }

  lemma HeldIsIntended(db: Db, p: nat)
    requires !HasOpenEscrowTask(db.tasks, p)
    ensures IntendedEscrow(db, p) == Lookup(db.escrows, p)
  {
  }

  lemma SameWantsElsewhere(s: Db, s': Db)
    requires SameFacts(s, s') && s'.tasks == s.tasks && s'.technicianRows == s.technicianRows && s'.feeRows == s.feeRows
    ensures IntendedCredits(s') == IntendedCredits(s) && IntendedFees(s') == IntendedFees(s)
  {
    WantsSame(s, s', s.tasks, TechnicianBook);
    WantsSame(s, s', s.tasks, FeeBook);
    hide Entries, AllWants;
  }

  /** The guard on the payment is the guard on its direct settlement. */
  lemma GuardCarries(s: Db, held: Db, p: nat, response: VerifyResponse, now: int, faults: Faults)
    requires GuardedPayment(s, p, response, now, faults) && Verified(s, p, response, now) && !InvoiceIssued(s, p)
    requires DirectEntries(held, p) != [] <==> DirectOwed(s, p)
    requires held.tasks == s.tasks && p < |held.payments|
    requires held.payments[p].company == s.payments[p].company && held.payments[p].invoice == s.payments[p].invoice
    ensures DirectGuard(held, p, faults)
  {
    hide DirectEntries, DirectOwed, HasOpenTask;
  }

  lemma VerifyUnverified(s: Db, c: Db, p: nat, response: VerifyResponse, now: int, faults: Faults)
    requires Linked(s, c) && !Verified(s, p, response, now)
    ensures Linked(Verify(s, p, response, now, faults), Verify(c, p, response, now, NO_FAULTS))
  {
    hide Consistent, TasksFinishable, IntendedEscrow, IntendedCredits, IntendedFees, AcceptPayment, MarkPaid,
      PostDirect;
    LinkedFacts(s, c);
    VerifySafe(s, p, response, now, faults);
    QuietStep(s, c, Verify(s, p, response, now, faults), Verify(c, p, response, now, NO_FAULTS));
  }

  lemma CallbackLinked(s: Db, c: Db, company: nat, reference: string, response: VerifyResponse, now: int,
      faults: Faults)
    requires Linked(s, c) && GuardedStep(s, DoCallback(company, reference, response, now, faults))
    ensures Linked(Callback(s, company, reference, response, now, faults),
                   Callback(c, company, reference, response, now, NO_FAULTS))
  {
    LinkedFacts(s, c);
    hide Linked, Verify, GuardedPayment;
    var found := FindByReference(s.payments, company, reference, |s.payments|);
    if !Blank(reference) && found.Some? { VerifyLinked(s, c, found.value, response, now, faults); }
  }

  /** The link survives every step: faulty on the one side, failure-free on the other. */
  lemma StepLinked(s: Db, c: Db, a: Action)
    requires Linked(s, c) && GuardedStep(s, a)
    ensures Linked(Apply(s, a), CleanApply(c, a))
  {
    hide Linked, GuardedStep, ProcessTask, Callback, TechnicianCash, AdminCash, Sound, Advances;
    LinkedFacts(s, c);
    match a
    case DoProcess(t, faults, recordFault) => ProcessLinked(s, c, t, faults, recordFault);
    case DoCallback(company, reference, response, now, faults) =>
      CallbackLinked(s, c, company, reference, response, now, faults);
    case DoTechnicianCash(i, reference, now, faults) => TechnicianCashLinked(s, c, i, reference, now, faults);
    case DoAdminCash(i, byTechnician, now, faults) => AdminCashLinked(s, c, i, byTechnician, now, faults);
    case _ =>
      StepIsSafe(s, a);
      QuietAction(s, c, a);
      QuietStep(s, c, Apply(s, a), Apply(c, a));
  }

  lemma LinkedFacts(s: Db, c: Db)
    requires Linked(s, c)
    ensures SameFacts(s, c) && Sound(s) && Sound(c)
  {
  }

  predicate Quiet(a: Action) {
    !a.DoProcess? && !a.DoCallback? && !a.DoTechnicianCash? && !a.DoAdminCash?
  }

  lemma QuietAction(s: Db, c: Db, a: Action)
    requires Quiet(a) && SameFacts(s, c)
    ensures var s' := Apply(s, a);
            s' == s.(invoices := s'.invoices, payments := s'.payments)
            && Apply(c, a) == c.(invoices := s'.invoices, payments := s'.payments)
  {
  }

  lemma TechnicianCashLinked(s: Db, c: Db, i: nat, reference: string, now: int, faults: Faults)
    requires Linked(s, c)
    ensures Linked(TechnicianCash(s, i, reference, now, faults), TechnicianCash(c, i, reference, now, NO_FAULTS))
  {
    if i < |s.invoices| && s.invoices[i].status == Issued && !s.invoices[i].cancelPending {
      var payment := CashPayment(s, i, reference, true, now, Some(now));
      var p := |s.payments|;
      var s0, c0 := s.(payments := s.payments + [payment]), c.(payments := c.payments + [payment]);
      if CanBePaid(s0, i, Some(p)) {
        CashLinked(s, c, i, payment, "cash", reference, now, faults);
        hide MarkPaid, Linked;
        var s1 := MarkPaid(s0, i, Some(p), "cash", reference, now, faults);
        var c1 := MarkPaid(c0, i, Some(p), "cash", reference, now, NO_FAULTS);
        LinkedFacts(s1, c1);
        AbandonedLinked(s1, c1, i, s.invoices[i].company, p);
      }
    }
  }

  lemma AdminCashLinked(s: Db, c: Db, i: nat, byTechnician: bool, now: int, faults: Faults)
    requires Linked(s, c)
    ensures Linked(AdminCash(s, i, byTechnician, now, faults), AdminCash(c, i, byTechnician, now, NO_FAULTS))
  {
    if i < |s.invoices| && s.invoices[i].status == Issued {
      var payment := CashPayment(s, i, "", byTechnician, now, None);
      var s0 := s.(payments := s.payments + [payment]);
      hide MarkPaid;
      if CanBePaid(s0, i, Some(|s.payments|)) {
        CashLinked(s, c, i, payment, "cash", "", now, faults);
      }
    }
  }

  lemma {:induction false} RunLinked(s: Db, c: Db, actions: seq<Action>)
    requires Linked(s, c) && Guarded(s, actions)
    ensures Linked(Run(s, actions), CleanRun(c, actions))
    decreases |actions|
  {
    if actions != [] {
      hide Linked, Apply, CleanApply, GuardedStep;
      StepLinked(s, c, actions[0]);
      RunLinked(Apply(s, actions[0]), CleanApply(c, actions[0]), actions[1..]);
    }
  }

  // --------------------------------------------------------------------- Theorem

  predicate NoOpenTasks(db: Db) {
    forall t :: 0 <= t < |db.tasks| ==> db.tasks[t].status == Resolved
  }

  lemma LinkedToItself(db: Db)
    requires Consistent(db) && NoOpenTasks(db)
    ensures Linked(db, db)
  {
    NoOpenTaskNoWants(db, db.tasks, TechnicianBook);
    NoOpenTaskNoWants(db, db.tasks, FeeBook);
  }

  lemma EntriesMatch(a: seq<Row>, b: seq<Row>)
    requires Entries(a) == Entries(b)
    ensures LedgerRace.SameEntries(a, b)
  {
    forall i | 0 <= i < |a|
      ensures LedgerRace.HasEntry(b, a[i].entry)
    {
      assert a[i] in a;
      assert a[i].entry in Entries(b);
      var r :| r in b && r.entry == a[i].entry;
    }
    forall i | 0 <= i < |b|
      ensures LedgerRace.HasEntry(a, b[i].entry)
    {
      assert b[i] in b;
      assert b[i].entry in Entries(a);
      var r :| r in a && r.entry == b[i].entry;
    }
  }

  /** Retry convergence. Take any run: payments verified, replayed, expired, settled in
      cash, any of the writes after them failing, also between a ledger's credit and debit,
      and tasks processed in any order and number, failing too. If in the end every task is
      resolved, then invoices, payments, escrow records and the entries of both ledgers are
      those of the run in which nothing failed, and so is every balance. Only the writes
      GuardedPayment names may not fail; ConvergenceLimits shows that each of them must not. */
  lemma RetriesConverge(start: Db, actions: seq<Action>, owner: Owner)
    requires Consistent(start) && NoOpenTasks(start) && Guarded(start, actions)
    requires NoOpenTasks(Run(start, actions))
    ensures var end, clean := Run(start, actions), CleanRun(start, actions);
            && end.invoices == clean.invoices && end.payments == clean.payments
            && end.escrows == clean.escrows
            && LedgerRace.SameEntries(end.technicianRows, clean.technicianRows)
            && LedgerRace.SameEntries(end.feeRows, clean.feeRows)
            && GetBalance(end.technicianRows, owner) == GetBalance(clean.technicianRows, owner)
            && GetBalance(end.feeRows, owner) == GetBalance(clean.feeRows, owner)
  {
    LinkedToItself(start);
    RunLinked(start, start, actions);
    LinkedAndResolved(Run(start, actions), CleanRun(start, actions), owner);
  }

  lemma LinkedAndResolved(s: Db, c: Db, owner: Owner)
    requires Linked(s, c) && NoOpenTasks(s)
    ensures SameFacts(s, c) && s.escrows == c.escrows
    ensures LedgerRace.SameEntries(s.technicianRows, c.technicianRows) && LedgerRace.SameEntries(s.feeRows, c.feeRows)
    ensures GetBalance(s.technicianRows, owner) == GetBalance(c.technicianRows, owner)
    ensures GetBalance(s.feeRows, owner) == GetBalance(c.feeRows, owner)
  {
    NoOpenTaskNoWants(s, s.tasks, TechnicianBook);
    NoOpenTaskNoWants(s, s.tasks, FeeBook);
    EntriesMatch(s.technicianRows, c.technicianRows);
    EntriesMatch(s.feeRows, c.feeRows);
    SameBalances(s.technicianRows, c.technicianRows, owner);
    SameBalances(s.feeRows, c.feeRows, owner);
    SameEscrows(s, c);
  }

  lemma SameBalances(a: seq<Row>, b: seq<Row>, owner: Owner)
    requires UniqueKeys(a) && UniqueKeys(b) && LedgerRace.SameEntries(a, b)
    ensures GetBalance(a, owner) == GetBalance(b, owner)
  {
    LedgerRace.SameEntriesSameBalance(a, b, owner);
    GetBalanceIsSignedSum(a, owner);
    GetBalanceIsSignedSum(b, owner);
  }

  lemma SameEscrows(s: Db, c: Db)
    requires Linked(s, c) && NoOpenTasks(s)
    ensures s.escrows == c.escrows
  {
    forall p
      ensures Lookup(s.escrows, p) == Lookup(c.escrows, p)
    {
      assert IntendedEscrow(s, p) == Lookup(c.escrows, p);
    }
    assert forall p :: p in s.escrows ==> p in c.escrows && s.escrows[p] == c.escrows[p] by {
      forall p | p in s.escrows
        ensures p in c.escrows && s.escrows[p] == c.escrows[p]
      {
        assert Lookup(s.escrows, p) == Lookup(c.escrows, p);
      }
    }
    assert forall p :: p in c.escrows ==> p in s.escrows by {
      forall p | p in c.escrows
        ensures p in s.escrows
      {
        assert Lookup(s.escrows, p) == Lookup(c.escrows, p);
      }
    }
  }
}
