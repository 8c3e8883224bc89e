/** The two append-only ledgers with running balances: technicians
    (apps/payouts/services.py) and platform fees (apps/payouts/services_platform_fee.py).

    Both write an entry the same way and differ only in which direction raises the
    balance, which here follows the owner: a credit raises a technician's balance (the
    company owes more), a debit raises a company's (it owes the platform more). */
module Ledgers {
  import opened Options

  datatype Owner = Technician(company: nat, id: nat) | Company(id: nat)

  datatype Kind = Credit | Debit

  datatype Source = OnlineGateway | CashFromCustomer | ManualPayment | ManualSettlement | ServiceWageSource
                  | Adjustment | FeeSettlement | DirectGateway | RefundReversal

  /** Idempotency keys. The formats of the original are distinct and injective, so each is
      a constructor; callers of manual entries choose their own text. */
  datatype Key =
    | TechnicianCredit(invoice: nat)
    | CashReceived(invoice: nat)
    | InvoiceFee(invoice: nat)
    | ServiceWage(order: nat)
    | DirectSettlement(payment: nat)
    | FeeReversal(document: nat)
    | WageReversal(document: nat)
    | Chosen(text: string)

  datatype Entry = Entry(owner: Owner, kind: Kind, source: Source, amount: int, key: Key)

  datatype Row = Row(entry: Entry, balanceAfter: int)

  function Signed(e: Entry): int {
    match e.owner
    case Technician(_, _) => if e.kind == Credit then e.amount else -e.amount
    case Company(_) => if e.kind == Debit then e.amount else -e.amount
  }

  predicate HasKey(rows: seq<Row>, key: Key) {
    exists i :: 0 <= i < |rows| && rows[i].entry.key == key
  }

  /** Sum of one owner's entries of one kind. */
  function SumOf(rows: seq<Row>, owner: Owner, kind: Kind): int {
    if rows == [] then 0
    else
      var e := rows[|rows| - 1].entry;
      SumOf(rows[..|rows| - 1], owner, kind) + (if e.owner == owner && e.kind == kind then e.amount else 0)
  }

  /** `get_balance`, recomputed from two sums over the whole table. */
  function GetBalance(rows: seq<Row>, owner: Owner): int {
    match owner
    case Technician(_, _) => SumOf(rows, owner, Credit) - SumOf(rows, owner, Debit)
    case Company(_) => SumOf(rows, owner, Debit) - SumOf(rows, owner, Credit)
  }

  /** The signed sum of an owner's entries, one by one. */
  function SignedSum(rows: seq<Row>, owner: Owner): int {
    if rows == [] then 0
    else
      var e := rows[|rows| - 1].entry;
      SignedSum(rows[..|rows| - 1], owner) + (if e.owner == owner then Signed(e) else 0)
  }

  lemma {:induction false} GetBalanceIsSignedSum(rows: seq<Row>, owner: Owner)
    ensures GetBalance(rows, owner) == SignedSum(rows, owner)
  {
    if rows != [] { GetBalanceIsSignedSum(rows[..|rows| - 1], owner); }
  }

  /** One serial write: nothing when the key is taken or the amount is one the table's
      non-negative column refuses. */
  function Post(rows: seq<Row>, e: Entry): seq<Row> {
    if HasKey(rows, e.key) || e.amount < 0 then rows
    else rows + [Row(e, GetBalance(rows, e.owner) + Signed(e))]
  }

  function PostAll(rows: seq<Row>, es: seq<Entry>): seq<Row>
    decreases |es|
  {
    if es == [] then rows else PostAll(Post(rows, es[0]), es[1..])
  }

  // ---------------------------------------------------------------- The class

  datatype WriteResult = Written(row: Row) | AlreadyThere | Refused

  /** One ledger table. */
  class Ledger {
    var rows: seq<Row>

    constructor ()
      ensures rows == []
    {
      rows := [];
    }

    /** Both `_write_entry` methods: check the key, recompute the balance, insert. */
    method WriteEntry(owner: Owner, kind: Kind, source: Source, amount: int, key: Key)
      returns (result: WriteResult)
      modifies this
      ensures rows == Post(old(rows), Entry(owner, kind, source, amount, key))
      ensures old(rows) <= rows
      ensures result.Written? <==> rows != old(rows)
      ensures result.Written? ==> rows[|rows| - 1] == result.row
      ensures result.AlreadyThere? <==> HasKey(old(rows), key)
    {
      if HasKey(rows, key) {
        return AlreadyThere;
      }
      var balance := GetBalance(rows, owner);
      var balanceAfter;
      if owner.Technician? == (kind == Credit) {
        balanceAfter := balance + amount;
      } else {
        balanceAfter := balance - amount;
      }
      if amount < 0 {
        return Refused;
      }
      var row := Row(Entry(owner, kind, source, amount, key), balanceAfter);
      rows := rows + [row];
      result := Written(row);
    }

    /** `record_manual_settlement`: four directions, two entry kinds. */
    method RecordManualSettlement(owner: Owner, amount: int, direction: Direction, key: string)
      returns (result: Option<WriteResult>)
      requires owner.Technician?
      modifies this
      ensures result.None? <==> amount <= 0 || direction == UnknownDirection
      ensures result.None? ==> rows == old(rows)
      ensures result.Some? ==>
                rows == Post(old(rows),
                    Entry(owner, ManualKind(direction), ManualSource(direction), amount, Chosen(key)))
      ensures result.Some? && result.value.Written? ==>
                GetBalance(rows, owner) == GetBalance(old(rows), owner)
                  + (if direction in {TechnicianPaidCompany, AdjustmentCredit} then amount else -amount)
      ensures result.Some? && result.value.Written? ==>
                var e := result.value.row.entry;
                && e.owner == owner && e.amount == amount && e.key == Chosen(key)
                && (direction == CompanyPaidTechnician ==> e.kind == Debit && e.source == ManualSettlement)
                && (direction == TechnicianPaidCompany ==> e.kind == Credit && e.source == ManualSettlement)
                && (direction == AdjustmentCredit ==> e.kind == Credit && e.source == Adjustment)
                && (direction == AdjustmentDebit ==> e.kind == Debit && e.source == Adjustment)
    {
      if amount <= 0 {
        return None;
      }
      var kind;
      match direction {
        case CompanyPaidTechnician => kind := Debit;
        case TechnicianPaidCompany => kind := Credit;
        case AdjustmentCredit => kind := Credit;
        case AdjustmentDebit => kind := Debit;
        case UnknownDirection => return None;
      }
      var source := ManualSettlement;
      if direction in {AdjustmentCredit, AdjustmentDebit} {
        source := Adjustment;
      }
      ghost var before := rows;
      var written := WriteEntry(owner, kind, source, amount, Chosen(key));
      PostMoves(before, Entry(owner, kind, source, amount, Chosen(key)), owner);
      result := Some(written);
    }
  }

  datatype Direction =
    | CompanyPaidTechnician | TechnicianPaidCompany | AdjustmentCredit | AdjustmentDebit | UnknownDirection

  function ManualKind(direction: Direction): Kind {
    if direction in {TechnicianPaidCompany, AdjustmentCredit} then Credit else Debit
  }

  /** A correction is told apart from money that was handed over. */
  function ManualSource(direction: Direction): Source {
    if direction in {CompanyPaidTechnician, TechnicianPaidCompany} then ManualSettlement else Adjustment
  }

  // ---------------------------------------------------------------- The law

  predicate UniqueKeys(rows: seq<Row>) {
    forall i, j :: 0 <= i < j < |rows| ==> rows[i].entry.key != rows[j].entry.key
  }

  predicate BalancesAreSums(rows: seq<Row>) {
    forall i :: 0 <= i < |rows| ==> rows[i].balanceAfter == SignedSum(rows[..i + 1], rows[i].entry.owner)
  }

  predicate Lawful(rows: seq<Row>) {
    && UniqueKeys(rows)
    && BalancesAreSums(rows)
    && forall i :: 0 <= i < |rows| ==> 0 <= rows[i].entry.amount
  }

  /** The balance stored with an owner's latest entry, 0 before the first. */
  function LatestBalance(rows: seq<Row>, owner: Owner): int {
    if rows == [] then 0
    else if rows[|rows| - 1].entry.owner == owner then rows[|rows| - 1].balanceAfter
    else LatestBalance(rows[..|rows| - 1], owner)
  }

  lemma PostMoves(rows: seq<Row>, e: Entry, owner: Owner)
    ensures GetBalance(Post(rows, e), owner)
            == GetBalance(rows, owner)
               + (if Post(rows, e) != rows && e.owner == owner then Signed(e) else 0)
  {
    GetBalanceIsSignedSum(rows, owner);
    GetBalanceIsSignedSum(Post(rows, e), owner);
    if Post(rows, e) != rows {
      assert Post(rows, e)[..|rows|] == rows;
    }
  }

  lemma PostKeepsLaw(rows: seq<Row>, e: Entry)
    requires Lawful(rows)
    ensures Lawful(Post(rows, e))
  {
    var after := Post(rows, e);
    GetBalanceIsSignedSum(rows, e.owner);
    hide GetBalance, Signed;
    if after != rows {
      var n := |rows|;
      forall i | 0 <= i < n
        ensures after[i].balanceAfter == SignedSum(after[..i + 1], after[i].entry.owner)
      {
        assert after[..i + 1] == rows[..i + 1];
      }
      assert after[..n + 1] == after && after[..n] == rows;
    }
  }

  /** Over any serial run: rows are only appended, keys stay unique, and every stored
      balance is the signed prefix sum of its owner. */
  lemma {:induction false} EveryRunIsLawful(rows: seq<Row>, es: seq<Entry>)
    requires Lawful(rows)
    ensures Lawful(PostAll(rows, es)) && rows <= PostAll(rows, es)
    decreases |es|
  {
    if es != [] {
      PostKeepsLaw(rows, es[0]);
      EveryRunIsLawful(Post(rows, es[0]), es[1..]);
    }
  }

  /** In a lawful table the recomputed balance is the one stored last. */
  lemma {:induction false} BalanceIsLatest(rows: seq<Row>, owner: Owner)
    requires Lawful(rows)
    ensures GetBalance(rows, owner) == LatestBalance(rows, owner)
  {
    GetBalanceIsSignedSum(rows, owner);
    if rows != [] {
      var front := rows[..|rows| - 1];
      forall i | 0 <= i < |front|
        ensures front[i].balanceAfter == SignedSum(front[..i + 1], front[i].entry.owner)
      {
        assert front[..i + 1] == rows[..i + 1];
      }
      assert rows[..|rows|] == rows;
      BalanceIsLatest(front, owner);
      GetBalanceIsSignedSum(front, owner);
    }
  }

  predicate AllPosted(rows: seq<Row>, es: seq<Entry>) {
    forall i :: 0 <= i < |es| ==> HasKey(rows, es[i].key) || es[i].amount < 0
  }

  lemma {:induction false} RunPostsAll(rows: seq<Row>, es: seq<Entry>)
    ensures AllPosted(PostAll(rows, es), es)
    ensures forall key :: HasKey(rows, key) ==> HasKey(PostAll(rows, es), key)
    decreases |es|
  {
    if es != [] {
      var next := Post(rows, es[0]);
      assert forall i :: 0 <= i < |rows| ==> next[i] == rows[i];
      if !HasKey(rows, es[0].key) && es[0].amount >= 0 {
        assert next[|rows|].entry.key == es[0].key;
      }
      RunPostsAll(next, es[1..]);
      assert forall i :: 1 <= i < |es| ==> es[i] == es[1..][i - 1];
    }
  }

  lemma {:induction false} PostedRunChangesNothing(rows: seq<Row>, es: seq<Entry>)
    requires AllPosted(rows, es)
    ensures PostAll(rows, es) == rows
    decreases |es|
  {
    if es != [] { PostedRunChangesNothing(rows, es[1..]); }
  }

  /** Replaying a whole run leaves the table as it is. */
  lemma ReplayChangesNothing(rows: seq<Row>, es: seq<Entry>)
    ensures PostAll(PostAll(rows, es), es) == PostAll(rows, es)
  {
    RunPostsAll(rows, es);
    PostedRunChangesNothing(PostAll(rows, es), es);
  }

  // -------------------------------------------------- Entries of a paid invoice

  /** What a settled invoice hands to the ledger. */
  datatype SettledInvoice = SettledInvoice(invoice: nat, company: nat, technician: Option<nat>,
                             wage: int, total: int, online: bool, collectedByTechnician: bool)

  /** `create_invoice_entries`: the wage, and the cash a technician kept. No wage, no
      entries at all, not even for the cash. */
  function InvoiceEntries(s: SettledInvoice): seq<Entry> {
    if s.technician.None? || s.wage <= 0 then []
    else
      var owner := Technician(s.company, s.technician.value);
      var source := if s.online then OnlineGateway
                    else if s.collectedByTechnician then CashFromCustomer else ManualPayment;
      [Entry(owner, Credit, source, s.wage, TechnicianCredit(s.invoice))]
      + (if s.collectedByTechnician && s.total > 0
         then [Entry(owner, Debit, CashFromCustomer, s.total, CashReceived(s.invoice))] else [])
  }

  /** What a settled invoice books: nothing without a technician and a wage, otherwise the wage
      as a credit, and as a debit the cash the technician kept, each under the invoice's own
      key. */
  lemma InvoiceIsBookedAs(s: SettledInvoice)
    ensures var es := InvoiceEntries(s);
            if s.technician.None? || s.wage <= 0 then es == []
            else
              && es != [] && es[0].owner == Technician(s.company, s.technician.value) && es[0].kind == Credit
              && es[0].amount == s.wage && es[0].key == TechnicianCredit(s.invoice)
              && (s.online ==> es[0].source == OnlineGateway)
              && (!s.online && s.collectedByTechnician ==> es[0].source == CashFromCustomer)
              && (!s.online && !s.collectedByTechnician ==> es[0].source == ManualPayment)
              && (if s.collectedByTechnician && 0 < s.total
                  then |es| == 2 && es[1].owner == es[0].owner && es[1].kind == Debit && es[1].amount == s.total
                       && es[1].source == CashFromCustomer && es[1].key == CashReceived(s.invoice)
                  else |es| == 1)
  {
  }

  function BalanceMove(s: SettledInvoice): int
  {
    if s.wage <= 0 then 0
    else s.wage - (if s.collectedByTechnician && s.total > 0 then s.total else 0)
  }

  /** Posting an invoice's entries moves its technician's balance by the wage less the
      cash kept, and nobody else's. */
  lemma InvoiceMovesBalance(rows: seq<Row>, s: SettledInvoice, owner: Owner)
    requires !HasKey(rows, TechnicianCredit(s.invoice)) && !HasKey(rows, CashReceived(s.invoice))
    ensures GetBalance(PostAll(rows, InvoiceEntries(s)), owner)
            == GetBalance(rows, owner)
               + (if s.technician.Some? && owner == Technician(s.company, s.technician.value)
                  then BalanceMove(s) else 0)
  {
    var es := InvoiceEntries(s);
    if es != [] {
      var first := Post(rows, es[0]);
      PostMoves(rows, es[0], owner);
      if |es| == 2 {
        assert es[1..] == [es[1]] && es[1..][1..] == [];
        assert !HasKey(first, es[1].key);
        PostMoves(first, es[1], owner);
        assert PostAll(first, es[1..]) == Post(first, es[1]);
      } else {
        assert es[1..] == [];
      }
    }
  }

  /** The rule "a cash invoice the technician collected moves the balance by wage minus
      total" holds exactly when there is a wage or nothing was collected: with a zero wage
      the collected cash is never booked. */
  lemma CashInvoiceMovesByWageMinusTotalIff(rows: seq<Row>, s: SettledInvoice)
    requires !HasKey(rows, TechnicianCredit(s.invoice)) && !HasKey(rows, CashReceived(s.invoice))
    requires s.technician.Some? && s.collectedByTechnician && 0 <= s.wage && 0 <= s.total
    ensures var owner := Technician(s.company, s.technician.value);
            GetBalance(PostAll(rows, InvoiceEntries(s)), owner) - GetBalance(rows, owner) == s.wage - s.total
            <==> s.wage > 0 || s.total == 0
  {
    InvoiceMovesBalance(rows, s, Technician(s.company, s.technician.value));
  }
}
