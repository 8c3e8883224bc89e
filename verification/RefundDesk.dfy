/** The refund services as methods on the tables they update in place, each against its
    step in Refunds (apps/payouts/services_adjustment.py,
    apps/payouts/services_refund_execution.py). */
module RefundDesk {
  import opened Options
  import opened Ledgers
  import opened Escrows
  import F = PaymentFlow
  import R = Refunds
  import opened Store

  datatype Outcome = Executed | AlreadyApplied | Raised

  class Desk {
    const tables: Tables
    var documents: seq<R.Document>

    ghost predicate Valid()
      reads tables
    {
      tables.Valid()
    }

    function Books(): R.Books
      reads this, tables, tables.escrows, tables.technicianLedger, tables.feeLedger
    {
      R.Books(tables.Snapshot(), documents)
    }

    constructor (tables: Tables)
      requires tables.Valid()
      ensures Valid() && this.tables == tables && documents == []
    {
      this.tables := tables;
      documents := [];
    }

    /** `create_draft`. */
    method CreateDraft(company: nat, invoice: nat, kind: R.DocumentKind, amount: int, reason: string)
      returns (d: Option<nat>)
      requires Valid()
      modifies this`documents
      ensures Books() == R.CreateDraft(old(Books()), company, invoice, kind, amount, reason)
      ensures d.None? ==> documents == old(documents)
      ensures d.Some? ==> d.value == |old(documents)| == |documents| - 1
    {
      if invoice >= |tables.invoices| || tables.invoices[invoice].status != F.InvoicePaid {
        return None;
      }
      if amount <= 0 {
        return None;
      }
      if kind in {R.FullRefund, R.PartialRefund} && amount > tables.invoices[invoice].total {
        return None;
      }
      if F.Blank(reason) {
        return None;
      }
      d := Some(|documents|);
      documents := documents + [R.Document(company, invoice, kind, amount, R.DraftDocument, None, None)];
    }

    /** Submitting, approving, rejecting and cancelling: each from one status only. */
    method Advance(d: nat, from: R.DocumentStatus, to: R.DocumentStatus) returns (done: bool)
      requires Valid()
      modifies this`documents
      ensures Books() == R.Advance(old(Books()), d, from, to)
      ensures done <==> d < |old(documents)| && old(documents)[d].status == from
    {
      if d >= |documents| || documents[d].status != from {
        return false;
      }
      documents := documents[d := documents[d].(status := to)];
      done := true;
    }

    /** `execute`, for the record the query found. A fault is the last write raising, when
        all others are made: the savepoint takes them back. */
    method Execute(d: nat, found: Option<nat>, split: bool, fault: bool) returns (outcome: Outcome)
      requires Valid() && d < |documents|
      requires R.MayFind(tables.Snapshot(), found, documents[d].company, documents[d].invoice)
      modifies this, tables, tables.escrows, tables.technicianLedger, tables.feeLedger
      ensures Books() == R.Execute(old(Books()), d, found, split, fault)
      ensures outcome == AlreadyApplied <==> old(documents)[d].status == R.Applied
      ensures outcome == Executed <==> R.Executable(old(Books()), d, found, split) && !fault
    {
      hide R.FeeOf;
      if documents[d].status == R.Applied {
        return AlreadyApplied;
      }
      if documents[d].status != R.ApprovedDocument || documents[d].kind != R.FullRefund {
        return Raised;
      }
      if found.Some? {
        var record := tables.escrows.records[found.value];
        if record.status in {Settled, Closed} || split {
          return Raised;
        }
      }
      var saved, savedDocuments := tables.Snapshot(), documents;
      var closed := Reverse(d, found);
      if !closed || fault {
        tables.RollBack(saved);
        documents := savedDocuments;
        return Raised;
      }
      documents := documents[d := documents[d].(status := R.Applied)];
      outcome := Executed;
    }

    /** The writes of an execution before the document is marked as applied; none is kept
        when the record cannot be closed. */
    method Reverse(d: nat, found: Option<nat>) returns (closed: bool)
      requires Valid() && d < |documents| && documents[d].status == R.ApprovedDocument
      requires found.Some? ==> found.value in tables.escrows.records
      requires found.Some? ==> tables.escrows.records[found.value].status !in {Settled, Closed}
      modifies this`documents, tables.escrows, tables.technicianLedger, tables.feeLedger
      ensures closed <==>
                || found.None?
                || old(tables.escrows.records)[found.value].status in {Held, Reserved, Distributed}
      ensures |documents| == |old(documents)|
      ensures closed ==>
                var reversed := R.Reverse(old(Books()), d, found);
                && tables.Snapshot() == reversed.db
                && documents[d := documents[d].(status := R.Applied)] == reversed.documents
    {
      hide R.FeeOf;
      ReverseFee(d);
      ReverseWage(d);
      closed := true;
      if found.Some? {
        var outcome := tables.escrows.CloseRecord(found.value);
        closed := outcome == Done;
      }
    }

    method ReverseFee(d: nat)
      requires Valid() && d < |documents|
      modifies this`documents, tables.feeLedger
      ensures var fee := R.FeeReversalOf(old(Books()), d);
              && tables.feeLedger.rows == R.PostReversal(old(tables.feeLedger.rows), fee)
              && documents == old(documents)[d := old(documents)[d].(
                   feeEntry := R.Referred(old(tables.feeLedger.rows), fee, old(documents)[d].feeEntry))]
    {
      var document := documents[d];
      var fee := R.FeeOf(tables.feeLedger.rows, document.company, document.invoice);
      if fee.None? {
        assert documents == documents[d := documents[d]];
        return;
      }
      var owner := Company(document.company);
      var written := tables.feeLedger.WriteEntry(owner, Credit, RefundReversal, fee.value, FeeReversal(d));
      if written.Written? {
        documents := documents[d := document.(
          feeEntry := Some(Entry(owner, Credit, RefundReversal, fee.value, FeeReversal(d))))];
      }
    }

    method ReverseWage(d: nat)
      requires Valid() && d < |documents|
      modifies this`documents, tables.technicianLedger
      ensures var wage := R.WageReversalOf(old(Books()), d);
              && tables.technicianLedger.rows == R.PostReversal(old(tables.technicianLedger.rows), wage)
              && documents == old(documents)[d := old(documents)[d].(
                   wageEntry := R.Referred(old(tables.technicianLedger.rows), wage, old(documents)[d].wageEntry))]
    {
      var document := documents[d];
      assert documents == documents[d := documents[d]];
      if document.invoice >= |tables.invoices| {
        return;
      }
      var invoice := tables.invoices[document.invoice];
      var wage := F.Wage(invoice);
      if wage <= 0 || invoice.technician.None? {
        return;
      }
      var owner := Technician(document.company, invoice.technician.value);
      var written := tables.technicianLedger.WriteEntry(owner, Debit, RefundReversal, wage, WageReversal(d));
      if written.Written? {
        documents := documents[d := document.(
          wageEntry := Some(Entry(owner, Debit, RefundReversal, wage, WageReversal(d))))];
      }
    }
  }
}
