/** What a second refund of an invoice takes again: the fee once more through another escrow
    record, and without any record the wage. */
module RefundLimits {
  import opened Options
  import opened Ledgers
  import opened Escrows
  import opened WageSplit
  import opened EscrowAgreement
  import opened PaymentFlow
  import opened PaymentSafety
  import opened Refunds

  // ------------------------------------------------------ The fee, net of refunds

  /** What documents reversed of an invoice's fee. */
  function FeeReversed(documents: seq<Document>, company: nat, invoice: nat): int {
    if documents == [] then 0
    else
      var last := documents[|documents| - 1];
      FeeReversed(documents[..|documents| - 1], company, invoice)
        + (if Concerns(last, company, invoice) && last.feeEntry.Some? then last.feeEntry.value.amount
            else 0)
  }

  /** What the company is charged for an invoice, refunds taken off. */
  function NetFee(b: Books, company: nat, invoice: nat): int {
    AmountOf(FeeOf(b.db.feeRows, company, invoice)) - FeeReversed(b.documents, company, invoice)
  }

  /** How many documents reversed the invoice's fee. */
  function FeeReversals(documents: seq<Document>, company: nat, invoice: nat): nat {
    if documents == [] then 0
    else
      var last := documents[|documents| - 1];
      FeeReversals(documents[..|documents| - 1], company, invoice)
        + (if Concerns(last, company, invoice) && last.feeEntry.Some? then 1 else 0)
  }

  lemma {:induction false} ReversedIsCounted(documents: seq<Document>, company: nat, invoice: nat, fee: int)
    requires forall d :: 0 <= d < |documents| && Concerns(documents[d], company, invoice) ==>
               documents[d].feeEntry.Some? ==> documents[d].feeEntry.value.amount == fee
    ensures FeeReversed(documents, company, invoice) == FeeReversals(documents, company, invoice) * fee
  {
    if documents != [] { ReversedIsCounted(documents[..|documents| - 1], company, invoice, fee); }
  }

  /** Every document that reversed the fee reversed the whole of it, so the invoice is
      charged nothing exactly when it has no fee or one document reversed it. */
  lemma NetFeeIs(b: Books, company: nat, invoice: nat)
    requires Reconciled(b)
    ensures var fee, n := AmountOf(FeeOf(b.db.feeRows, company, invoice)), FeeReversals(b.documents, company, invoice);
            && 0 <= fee && NetFee(b, company, invoice) == fee - n * fee
            && (NetFee(b, company, invoice) == 0 <==> fee == 0 || n == 1)
            && (NetFee(b, company, invoice) <= 0 <==> fee == 0 || 1 <= n)
  {
    hide Referenced, FeeOf, FeeReversed, FeeReversals;
    var fee, n := AmountOf(FeeOf(b.db.feeRows, company, invoice)), FeeReversals(b.documents, company, invoice);
    NaturalFee(b, company, invoice);
    ReversedIsCounted(b.documents, company, invoice, fee);
    NetOf(fee, n);
  }

  lemma NaturalFee(b: Books, company: nat, invoice: nat)
    requires Reconciled(b)
    ensures 0 <= AmountOf(FeeOf(b.db.feeRows, company, invoice))
  {
    RecordedFeeIsNatural(b.db.feeRows, company, invoice);
    hide UniqueKeys, SignedSum, PlainSum, ReferredSum, FeeOf, FeesMatch;
  }

  lemma NetOf(fee: nat, n: nat)
    ensures fee - n * fee == 0 <==> fee == 0 || n == 1
    ensures fee - n * fee <= 0 <==> fee == 0 || 1 <= n
  {
    assert fee - n * fee == fee * (1 - n);
    Product(fee, 1 - n);
  }

  lemma Product(fee: nat, k: int)
    requires k <= 1
    ensures fee * k == 0 <==> fee == 0 || k == 0
    ensures fee * k <= 0 <==> fee == 0 || k <= 0
  {
    if 0 < fee && k < 0 { assert fee * -k >= fee; }
  }

  /** The same over every run. */
  lemma EveryRunNetsFees(b: Books, steps: seq<Step>, company: nat, invoice: nat)
    requires Reconciled(b)
    ensures var later := TakeAll(b, steps);
            var fee, n := AmountOf(FeeOf(later.db.feeRows, company, invoice)),
                FeeReversals(later.documents, company, invoice);
            && NetFee(later, company, invoice) == fee - n * fee
            && (NetFee(later, company, invoice) == 0 <==> fee == 0 || n == 1)
  {
    EveryRunReconciles(b, steps);
    NetFeeIs(TakeAll(b, steps), company, invoice);
    hide Reconciled, FeeOf, FeeReversals, NetFee, TakeAll;
  }

  lemma {:induction false} CountOf(documents: seq<Document>, d: nat, company: nat, invoice: nat)
    requires d < |documents| && Concerns(documents[d], company, invoice) && documents[d].feeEntry.Some?
    ensures 1 <= FeeReversals(documents, company, invoice)
  {
    if d < |documents| - 1 { CountOf(documents[..|documents| - 1], d, company, invoice); }
  }

  lemma {:induction false} CountOfTwo(documents: seq<Document>, c: nat, d: nat, company: nat, invoice: nat)
    requires c < d < |documents|
    requires Concerns(documents[c], company, invoice) && documents[c].feeEntry.Some?
    requires Concerns(documents[d], company, invoice) && documents[d].feeEntry.Some?
    ensures 2 <= FeeReversals(documents, company, invoice)
  {
    var front := documents[..|documents| - 1];
    if d < |documents| - 1 { CountOfTwo(front, c, d, company, invoice); } else { CountOf(front, c, company, invoice); }
  }

  /** A refund through one record, and whenever later another one through another record of
      the invoice: the fee is credited twice. */
  lemma FeeIsCreditedTwice(b: Books, first: nat, p: nat, steps: seq<Step>, second: nat, q: nat)
    requires Reconciled(b) && Executable(b, first, Some(p), false)
    requires MayFind(b.db, Some(p), b.documents[first].company, b.documents[first].invoice)
    requires 0 < AmountOf(FeeOf(b.db.feeRows, b.documents[first].company, b.documents[first].invoice))
    requires var later := TakeAll(Execute(b, first, Some(p), false, false), steps);
             && Executable(later, second, Some(q), false)
             && Concerns(later.documents[second], b.documents[first].company, b.documents[first].invoice)
             && MayFind(later.db, Some(q), b.documents[first].company, b.documents[first].invoice)
    ensures var company, invoice := b.documents[first].company, b.documents[first].invoice;
            var twice := Execute(TakeAll(Execute(b, first, Some(p), false, false), steps), second, Some(q), false,
                false);
            && 2 <= FeeReversals(twice.documents, company, invoice)
            && NetFee(twice, company, invoice) <= -AmountOf(FeeOf(b.db.feeRows, company, invoice)) < 0
  {
    var company, invoice := b.documents[first].company, b.documents[first].invoice;
    var landed := Execute(b, first, Some(p), false, false);
    var later := TakeAll(landed, steps);
    var twice := Execute(later, second, Some(q), false, false);
    ExecuteLands(b, first, Some(p), false);
    ExecuteLands(later, second, Some(q), false);
    ExecutableIs(b, first, Some(p), false);
    ExecutableIs(later, second, Some(q), false);
    FeeEntryIs(b, first, Some(p));
    RefundIsFinal(b, first, Some(p), false, steps);
    ExecuteReconciles(b, first, Some(p));
    EveryRunReconciles(landed, steps);
    FeeEntryIs(later, second, Some(q));
    ExecuteReconciles(later, second, Some(q));
    hide Reconciled, Executable, Execute, TakeAll, FeeOf, FeeReversals, MayFind, NetFee;
    FeeStays(b.db.feeRows, landed.db.feeRows, company, invoice);
    FeeStays(landed.db.feeRows, later.db.feeRows, company, invoice);
    FeeStays(later.db.feeRows, twice.db.feeRows, company, invoice);
    assert twice.documents[first].feeEntry.Some?
           && twice.documents[second].feeEntry.Some? by { hide PostReversal, Referred; }
    if first < second { CountOfTwo(twice.documents, first, second, company, invoice); }
    else { CountOfTwo(twice.documents, second, first, company, invoice); }
    NetFeeIs(twice, company, invoice);
    Twice(AmountOf(FeeOf(b.db.feeRows, company, invoice)), FeeReversals(twice.documents, company, invoice));
  }

  lemma Twice(fee: int, n: nat)
    requires 0 < fee && 2 <= n
    ensures fee - n * fee <= -fee
  {
    assert (n - 2) * fee >= 0;
  }

  lemma {:induction false} NoFeeYet(rows: seq<Row>, company: nat, invoice: nat)
    requires !HasKey(rows, InvoiceFee(invoice))
    ensures FeeOf(rows, company, invoice) == None
  {
    if rows != [] {
      var front := rows[..|rows| - 1];
      assert forall k :: 0 <= k < |front| ==> front[k] == rows[k];
      NoFeeYet(front, company, invoice);
    }
  }

  lemma FeeOfLast(rows: seq<Row>, row: Row, company: nat, invoice: nat)
    requires FeeOf(rows, company, invoice) == None
    requires row.entry.owner == Company(company) && row.entry.kind == Debit && row.entry.key == InvoiceFee(invoice)
    ensures FeeOf(rows + [row], company, invoice) == Some(row.entry.amount)
  {
    assert (rows + [row])[..|rows|] == rows;
  }

  // ------------------------------------------------------- The wage, taken back twice

  /** An invoice paid without escrow, in cash say, can be refunded twice: nothing looks at
      the documents it already has, and its wage is taken back with each. */
  lemma UnheldInvoiceIsRefundedTwice(b: Books, first: nat, second: nat, split: bool, owner: Owner)
    requires Reconciled(b) && first != second
    requires Executable(b, first, None, split) && Executable(b, second, None, split)
    requires b.documents[first].company == b.documents[second].company
    requires b.documents[first].invoice == b.documents[second].invoice < |b.db.invoices|
    requires MayFind(b.db, None, b.documents[first].company, b.documents[first].invoice)
    requires var invoice := b.db.invoices[b.documents[first].invoice];
             0 < Wage(invoice) && invoice.technician.Some?
                 && owner == Technician(b.documents[first].company, invoice.technician.value)
    ensures var twice := Execute(Execute(b, first, None, split, false), second, None, split, false);
            && twice.documents[first].status == twice.documents[second].status == Applied
            && GetBalance(twice.db.technicianRows, owner)
               == GetBalance(b.db.technicianRows, owner) - 2 * Wage(b.db.invoices[b.documents[first].invoice])
  {
    var once := Execute(b, first, None, split, false);
    ExecuteMoves(b, first, None, split, owner);
    ExecuteReconciles(b, first, None);
    hide Reconciled, Wage, GetBalance, Reverse;
    assert Executable(once, second, None, split)
           && MayFind(once.db, None, b.documents[second].company, b.documents[second].invoice);
    ExecuteMoves(once, second, None, split, owner);
  }

  /** From any books with such an invoice: two documents, each drafted, submitted, approved
      and executed. */
  lemma RefundTwiceRun(b: Books, company: nat, i: nat, reason: string, owner: Owner) returns (steps: seq<Step>)
    requires Reconciled(b) && i < |b.db.invoices| && b.db.invoices[i].status == InvoicePaid
             && 0 < b.db.invoices[i].total
    requires !Blank(reason) && MayFind(b.db, None, company, i)
    requires var invoice := b.db.invoices[i];
             0 < Wage(invoice) && invoice.technician.Some? && owner == Technician(company, invoice.technician.value)
    ensures GetBalance(TakeAll(b, steps).db.technicianRows, owner)
            == GetBalance(b.db.technicianRows, owner) - 2 * Wage(b.db.invoices[i])
  {
    hide Reconciled, Wage, GetBalance, Execute, MayFind, Blank, TakeAll, Executable;
    var one, approved := ApprovedRun(b, company, i, reason);
    var two, both := ApprovedRun(approved, company, i, reason);
    var n := |b.documents|;
    var first, second := DoExecute(n, None, false, false), DoExecute(n + 1, None, false, false);
    steps := one + two + [first, second];
    UnheldIsExecutable(both, n);
    UnheldIsExecutable(both, n + 1);
    UnheldInvoiceIsRefundedTwice(both, n, n + 1, false, owner);
    TakeAllAppended(b, one + two, [first, second]);
    TakeAllAppended(b, one, two);
    TakeTwo(both, first, second);
  }

  lemma UnheldIsExecutable(b: Books, d: nat)
    requires d < |b.documents| && b.documents[d].status == ApprovedDocument && b.documents[d].kind == FullRefund
    ensures Executable(b, d, None, false)
  {
  }

  /** Drafting, submitting and approving a full refund of a paid invoice. */
  lemma ApprovedRun(b: Books, company: nat, i: nat, reason: string) returns (steps: seq<Step>, after: Books)
    requires Reconciled(b) && i < |b.db.invoices| && b.db.invoices[i].status == InvoicePaid
             && 0 < b.db.invoices[i].total
    requires !Blank(reason)
    ensures after == TakeAll(b, steps) && Reconciled(after) && after.db == b.db
    ensures after.documents == b.documents + [Document(company, i, FullRefund, 1, ApprovedDocument, None, None)]
  {
    var n := |b.documents|;
    steps := [DoDraft(company, i, FullRefund, 1, reason), DoSubmit(n), DoApprove(n)];
    after := TakeAll(b, steps);
    EveryRunReconciles(b, steps);
    TakeThree(b, steps[0], steps[1], steps[2]);
    hide Reconciled, Blank, TakeAll;
  }
}
