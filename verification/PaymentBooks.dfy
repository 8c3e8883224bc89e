/** What a verified platform payment leaves in the books: the escrow's shares are the
    amounts the two ledgers book. Together with RetryConvergence.RetriesConverge this is
    also the outcome after any failures that were retried to the end. */
module PaymentBooks {
  import opened Options
  import opened Ledgers
  import opened Escrows
  import opened WageSplit
  import opened EscrowAgreement
  import opened PaymentFlow
  import opened PaymentSafety
  import opened RetryConvergence

  /** Escrow record `r` holds the whole of `total`, split as far as it can be. */
  predicate SplitAsBooked(r: Record, total: int, wage: nat, fee: nat) {
    && r.amount == total
    && (r.status == Distributed <==> fee + wage <= total)
    && (r.status == Distributed ==> r.provider == wage && r.commission == fee && r.organization == total - fee - wage)
    && (r.status != Distributed ==> r.NoShares())
  }

  /** Both ledgers moved by exactly this invoice's wage, kept cash, direct payout and fee. */
  predicate Booked(before: Db, after: Db, i: nat, p: nat, owner: Owner)
    requires i < |after.invoices| && p < |after.payments|
  {
    var invoice, wage := after.invoices[i], Wage(after.invoices[i]);
    var kept := if after.payments[p].collectedByTechnician && wage > 0 then invoice.total else 0;
    && GetBalance(after.technicianRows, owner) == GetBalance(before.technicianRows, owner)
         + (if invoice.technician.Some? && owner == Technician(invoice.company, invoice.technician.value)
             then wage - kept - DirectAmount(after, i)
            else 0)
    && GetBalance(after.feeRows, owner) == GetBalance(before.feeRows, owner)
         + (if owner == Company(invoice.company) then Commission(after, i) else 0)
  }

  /** A platform payment that was verified and pays its invoice. */
  lemma VerifiedPaymentIsBooked(db: Db, p: nat, i: nat, response: VerifyResponse, now: int, owner: Owner)
    requires Consistent(db) && Verified(db, p, response, now) && InvoiceIssued(db, p)
    requires db.payments[p].invoice == Some(i) && db.payments[p].ThroughPlatform()
    requires Lands(db, p)
    ensures var end := Verify(db, p, response, now, NO_FAULTS);
            && i < |end.invoices| && p < |end.payments| && p in end.escrows
            && end.invoices[i].status == InvoicePaid && end.payments[p].status == Paid
            && end.payments[p].amount == end.invoices[i].total
            && 0 <= Wage(end.invoices[i])
            && SplitAsBooked(end.escrows[p], end.invoices[i].total, Wage(end.invoices[i]), Commission(end, i))
            && Booked(db, end, i, p, owner)
  {
    var tracking := response.tracking;
    VerifyIsWrites(db, p, i, response, now);
    var settled, end := Settling(db, p, i, tracking, now), Verify(db, p, response, now, NO_FAULTS);
    hide Settling, Verify, Writes, Consistent, SplitAsBooked, Booked, Ready, Commission, Wage;
    WritesBook(settled, p, i, owner);
    SameBooks(db, settled, end, i, p, owner);
  }

  /** A settled invoice and its payment before the four writes. */
  predicate Ready(db: Db, p: nat, i: nat) {
    && PaysInvoice(db, p) && db.payments[p].invoice == Some(i) && p !in db.escrows
    && db.payments[p].ThroughPlatform() && db.payments[p].status == Paid
    && NoRows(db.technicianRows, i) && NoRows(db.feeRows, i)
    && 0 <= Wage(db.invoices[i]) && db.invoices[i].status == InvoicePaid
    && db.payments[p].amount == db.invoices[i].total && db.payments[p].company == db.invoices[i].company
    && NoDirect(db.technicianRows, p)
  }

  /** The four writes, none failing. */
  function Writes(db: Db, p: nat, i: nat): Db
    requires i < |db.invoices|
  {
    PostDirect(Rest(TryEscrow(db, p, i, NO_FAULTS), i, p, NO_FAULTS), p, NO_FAULTS)
  }

  lemma VerifyIsWrites(db: Db, p: nat, i: nat, response: VerifyResponse, now: int)
    requires Consistent(db) && Verified(db, p, response, now) && InvoiceIssued(db, p)
    requires db.payments[p].invoice == Some(i) && db.payments[p].ThroughPlatform()
    requires Lands(db, p)
    ensures i < |db.invoices|
    ensures var settled := Settling(db, p, i, response.tracking, now);
            && settled.technicianRows == db.technicianRows && settled.feeRows == db.feeRows
            && Ready(settled, p, i) && Verify(db, p, response, now, NO_FAULTS) == Writes(settled, p, i)
  {
    hide Verify, AcceptPayment, CanBePaid, Consistent, MarkPaid, Settling, Ready, Rest, TryEscrow, PostDirect, Lands;
    VerifiedFacts(db, p, i, response, now);
    VerifyPaysIs(db, p, i, response, now, NO_FAULTS);
    MarkPaidIs(db, p, i, response.tracking, now, NO_FAULTS);
    ReadyAfterSettling(db, p, i, response.tracking, now);
  }

  lemma VerifiedFacts(db: Db, p: nat, i: nat, response: VerifyResponse, now: int)
    requires Consistent(db) && Verified(db, p, response, now) && InvoiceIssued(db, p)
    requires db.payments[p].invoice == Some(i)
    requires Lands(db, p)
    ensures i < |db.invoices| && db.payments[p].status == Pending && now <= db.payments[p].createdAt + EXPIRATION
    ensures CanBePaid(AcceptPayment(db, p, response.tracking, now, NO_FAULTS), i, Some(p))
    ensures db.invoices[i].settlement.None? && db.payments[p].company == db.invoices[i].company
    ensures db.payments[p].amount == db.invoices[i].total
  {
    hide AcceptPayment, CanBePaid, Sound, UniqueKeys, KeysOfSettled, KeysOfPaid, Lands;
    CanBePaidSame(db, db, p, i, response, now, NO_FAULTS);
  }

  lemma ReadyAfterSettling(db: Db, p: nat, i: nat, tracking: string, now: int)
    requires Consistent(db) && p < |db.payments| && i < |db.invoices|
    requires db.payments[p].status == Pending && now <= db.payments[p].createdAt + EXPIRATION
    requires db.invoices[i].settlement.None? && db.payments[p].amount == db.invoices[i].total
    requires db.payments[p].invoice == Some(i) && db.payments[p].ThroughPlatform()
    requires db.payments[p].company == db.invoices[i].company
    ensures var settled := Settling(db, p, i, tracking, now);
            settled.technicianRows == db.technicianRows && settled.feeRows == db.feeRows && Ready(settled, p, i)
  {
    NothingBefore(db, i);
    NoEscrowBefore(db, p);
    SettlingSafe(db, p, i, tracking, now);
    SettledInvoiceIs(db, p, i, tracking, now);
    hide Settling, Consistent, Sound, Advances, NoRows, NoDirect, Wage;
  }

  lemma SameBooks(a: Db, b: Db, after: Db, i: nat, p: nat, owner: Owner)
    requires a.technicianRows == b.technicianRows && a.feeRows == b.feeRows
    requires i < |after.invoices| && p < |after.payments|
    ensures Booked(a, after, i, p, owner) <==> Booked(b, after, i, p, owner)
  {
  }

  /** The four writes after the settling, none failing. */
  lemma WritesBook(db: Db, p: nat, i: nat, owner: Owner)
    requires Ready(db, p, i)
    ensures var end := Writes(db, p, i);
            && end.invoices == db.invoices && end.payments == db.payments && p in end.escrows
            && SplitAsBooked(end.escrows[p], db.payments[p].amount, Wage(db.invoices[i]), Commission(end, i))
            && PaysInvoice(db, p) && db.payments[p].status == Paid && db.invoices[i].status == InvoicePaid
            && db.payments[p].amount == db.invoices[i].total && 0 <= Wage(db.invoices[i])
            && Booked(db, end, i, p, owner)
  {
    hide TryEscrow, NoRows, NoDirect, SplitAsBooked, Wage, TryLedger, TryFee, PostDirect, DirectAmount, GetBalance,
      Commission;
    EscrowTried(db, p, i);
    EscrowTriedOnly(db, p, i);
    var escrowed := TryEscrow(db, p, i, NO_FAULTS);
    LedgerBooked(escrowed, i, p, owner);
    var credited := TryLedger(escrowed, i, p, NO_FAULTS);
    FeeBooked(credited, i, p, owner);
    var charged := TryFee(credited, i, p, NO_FAULTS);
    DirectBooked(charged, i, p, owner);
    SameAmounts(db, credited, i);
    SameAmounts(db, charged, i);
    SameAmounts(db, PostDirect(charged, p, NO_FAULTS), i);
  }

  lemma SameAmounts(a: Db, b: Db, i: nat)
    requires a.policies == b.policies && a.invoices == b.invoices && i < |a.invoices|
    ensures DirectAmount(a, i) == DirectAmount(b, i) && Commission(a, i) == Commission(b, i)
  {
  }

  lemma SettledInvoiceIs(db: Db, p: nat, i: nat, tracking: string, now: int)
    requires p < |db.payments| && i < |db.invoices|
    ensures var invoice := Settling(db, p, i, tracking, now).invoices[i];
            && invoice.status == InvoicePaid && invoice.total == db.invoices[i].total
                 && invoice.company == db.invoices[i].company
            && 0 <= Wage(invoice)
  {
    hide CalculateSplit, MethodOf, ReferenceOf;
    var paid := db.(payments := db.payments[p := db.payments[p].(status := Paid, tracking := tracking,
        paidAt := Some(now))]);
    var policies := PolicyOf(paid, db.invoices[i].company);
    FinalTechIsNatural(db.invoices[i].bill, policies.extra, policies.campaign);
  }

  lemma FinalTechIsNatural(bill: Bill, extra: Policy, campaign: Policy)
    ensures 0 <= CalculateSplit(bill, extra, campaign).finalTech
  {
    hide CalculateSplit, CategoryTotals;
    FinalSplit(bill, extra, campaign);
  }

  lemma EscrowTried(db: Db, p: nat, i: nat)
    requires Ready(db, p, i)
    ensures var end := TryEscrow(db, p, i, NO_FAULTS);
            p in end.escrows && SplitAsBooked(end.escrows[p], db.payments[p].amount, Wage(db.invoices[i]),
                Commission(db, i))
  {
    TryEscrowIs(db, p, i, NO_FAULTS);
    CompleteSplits(db, p, i);
    hide TryEscrow, Complete, IntendedEscrow, SplitAsBooked, NoRows, Wage, Commission, NoOpenTask, HasOpenEscrowTask;
  }

  lemma EscrowTriedOnly(db: Db, p: nat, i: nat)
    requires i < |db.invoices|
    ensures var end := TryEscrow(db, p, i, NO_FAULTS);
            end.policies == db.policies && end.technicianRows == db.technicianRows && end.feeRows == db.feeRows
  {
    hide ReserveAndDistributeIn, Wage, Commission;
  }

  lemma CompleteSplits(db: Db, p: nat, i: nat)
    requires PaysInvoice(db, p) && db.payments[p].invoice == Some(i) && p !in db.escrows && 0 <= Wage(db.invoices[i])
    ensures SplitAsBooked(Complete(db, p), db.payments[p].amount, Wage(db.invoices[i]), Commission(db, i))
  {
    SplitGuard(HeldRecord(Some(i), db.payments[p].amount), i, Commission(db, i), Wage(db.invoices[i]));
    hide Wage, Commission, ReserveAndDistribute;
  }

  lemma LedgerBooked(db: Db, i: nat, p: nat, owner: Owner)
    requires i < |db.invoices| && p < |db.payments| && NoRows(db.technicianRows, i) && 0 <= Wage(db.invoices[i])
    ensures var end := TryLedger(db, i, p, NO_FAULTS);
            var invoice, wage := db.invoices[i], Wage(db.invoices[i]);
            var kept := if db.payments[p].collectedByTechnician && wage > 0 then invoice.total else 0;
            && end.policies == db.policies && end.feeRows == db.feeRows && end.escrows == db.escrows
            && (NoDirect(db.technicianRows, p) ==> NoDirect(end.technicianRows, p))
            && GetBalance(end.technicianRows, owner) == GetBalance(db.technicianRows, owner)
                 + (if invoice.technician.Some? && owner == Technician(invoice.company, invoice.technician.value)
                     then wage - kept else 0)
  {
    var s := Facts(db, i, Some(p));
    var es := InvoiceEntries(s);
    NoKeyYet(db.technicianRows, i);
    InvoiceMovesBalance(db.technicianRows, s, owner);
    WriteIsPostAll(db, i, Some(p));
    if NoDirect(db.technicianRows, p) { LedgerNotDirect(db, i, Some(p), p); }
    hide GetBalance, PostAll, WriteLedger, NoDirect;
  }

  lemma WriteIsPostAll(db: Db, i: nat, p: Option<nat>)
    requires i < |db.invoices|
    ensures WriteLedger(db, i, p, NO_FAULTS)
            == Attempt(db.(technicianRows := PostAll(db.technicianRows, InvoiceEntries(Facts(db, i, p)))), false)
  {
    var es := InvoiceEntries(Facts(db, i, p));
    InvoiceEntriesAre(Facts(db, i, p));
    hide InvoiceEntries, Facts, Post;
    if |es| == 1 {
      assert es[1..] == [];
    }
    if |es| == 2 {
      var first := Post(db.technicianRows, es[0]);
      assert es[1..] == [es[1]] && es[1..][1..] == [];
      assert PostAll(first, es[1..]) == PostAll(Post(first, es[1]), es[1..][1..]);
    }
  }

  lemma NoKeyYet(rows: seq<Row>, i: nat)
    requires NoRows(rows, i)
    ensures !HasKey(rows, TechnicianCredit(i)) && !HasKey(rows, CashReceived(i)) && !HasKey(rows, InvoiceFee(i))
  {
  }

  lemma FeeBooked(db: Db, i: nat, p: nat, owner: Owner)
    requires i < |db.invoices| && p < |db.payments| && NoRows(db.feeRows, i)
    requires db.payments[p].ThroughPlatform() && db.payments[p].status == Paid
    ensures var end := TryFee(db, i, p, NO_FAULTS);
            && end.policies == db.policies && end.technicianRows == db.technicianRows && end.escrows == db.escrows
            && GetBalance(end.feeRows, owner) == GetBalance(db.feeRows, owner)
                 + (if owner == Company(db.invoices[i].company) then Commission(db, i) else 0)
  {
    NoKeyYet(db.feeRows, i);
    hide Commission;
    if Commission(db, i) > 0 {
      PostMoves(db.feeRows, FeeEntries(db, i, Some(p))[0], owner);
    }
    hide GetBalance;
  }

  /** The gateway's direct payout is debited once, from the technician it was paid to. */
  lemma DirectBooked(db: Db, i: nat, p: nat, owner: Owner)
    requires i < |db.invoices| && p < |db.payments| && NoDirect(db.technicianRows, p)
    requires db.payments[p].ThroughPlatform() && db.payments[p].invoice == Some(i)
    requires db.payments[p].company == db.invoices[i].company
    ensures var end, invoice := PostDirect(db, p, NO_FAULTS), db.invoices[i];
            && SameFacts(db, end) && end.feeRows == db.feeRows && end.escrows == db.escrows
            && GetBalance(end.technicianRows, owner) == GetBalance(db.technicianRows, owner)
                 - (if invoice.technician.Some? && owner == Technician(invoice.company, invoice.technician.value)
                     then DirectAmount(db, i)
                    else 0)
  {
    hide GetBalance, Wage;
    if DirectAmount(db, i) > 0 {
      var e := DirectEntries(db, p)[0];
      NoDirectKey(db.technicianRows, p);
      PostMoves(db.technicianRows, e, owner);
    }
  }

  lemma NoDirectKey(rows: seq<Row>, p: nat)
    requires NoDirect(rows, p)
    ensures !HasKey(rows, DirectSettlement(p))
  {
  }
}
