/** Creating invoices: the duplicate guard, the counter and the table's two unique
    constraints (apps/invoices/services.py, apps/invoices/models.py).

    The guard looks for open invoices of an order within the order's company, the
    constraint for open invoices of an order in any company. */
module InvoiceBook {
  import opened Options
  import N = InvoiceNumbers

  datatype Status = Draft | Issued | Paid | Cancelled

  datatype Invoice = Invoice(company: nat, order: Option<nat>, status: Status, number: string)

  predicate Open(i: Invoice) { i.status in {Draft, Issued} }

  /** The constraint on open invoices; invoices without an order never clash. */
  predicate OneOpenPerOrder(invoices: seq<Invoice>) {
    forall i, j :: 0 <= i < j < |invoices| && Open(invoices[i]) && Open(invoices[j]) && invoices[i].order.Some? ==>
      invoices[i].order != invoices[j].order
  }

  predicate UniqueNumbers(invoices: seq<Invoice>) {
    forall i, j :: 0 <= i < j < |invoices| && invoices[i].company == invoices[j].company ==>
      invoices[i].number != invoices[j].number
  }

  predicate OpenOf(i: Invoice, order: nat) {
    i.order == Some(order) && Open(i)
  }

  predicate OpenFor(i: Invoice, company: nat, order: nat) {
    i.company == company && OpenOf(i, order)
  }

  function NumbersOf(invoices: seq<Invoice>, company: nat): set<string> {
    set k | 0 <= k < |invoices| && invoices[k].company == company :: invoices[k].number
  }

  /** `number` is the company's first free number after its counter. */
  ghost predicate FirstFree(invoices: seq<Invoice>, company: nat, code: string, before: nat, after: nat) {
    && before < after && N.Number(code, after) !in NumbersOf(invoices, company)
    && forall n :: before < n < after ==> N.Number(code, n) in NumbersOf(invoices, company)
  }

  /** The tables: orders by id with their company, invoices newest last, counters. */
  class Book {
    var orders: map<nat, nat>
    var invoices: seq<Invoice>
    var counters: map<nat, nat>

    /** The two constraints of the table. */
    ghost predicate Valid()
      reads this
    {
      OneOpenPerOrder(invoices) && UniqueNumbers(invoices)
    }

    /** Every invoice of an order is in the order's company. `create` does not check it: its
        callers pass an order of the company they pass. */
    ghost predicate Owned()
      reads this
    {
      forall i :: 0 <= i < |invoices| && invoices[i].order.Some? ==>
        invoices[i].order.value in orders && orders[invoices[i].order.value] == invoices[i].company
    }

    constructor (orders: map<nat, nat>)
      ensures Valid() && Owned() && this.orders == orders && invoices == [] && counters == map[]
    {
      this.orders := orders;
      invoices, counters := [], map[];
    }

    /** `InvoiceDuplicateGuard.get_active_for_order`, the newest first. */
    method GetActive(company: nat, order: nat) returns (active: Option<nat>)
      ensures active.None? <==> forall i :: 0 <= i < |invoices| ==> !OpenFor(invoices[i], company, order)
      ensures active.Some? ==>
                active.value < |invoices| && OpenFor(invoices[active.value], company, order)
    {
      var k := |invoices|;
      while k > 0
        invariant 0 <= k <= |invoices|
        invariant forall i :: k <= i < |invoices| ==> !OpenFor(invoices[i], company, order)
      {
        k := k - 1;
        if OpenFor(invoices[k], company, order) {
          return Some(k);
        }
      }
      active := None;
    }

    /** Whether an open invoice of the order, in any company, stands in the way of another. */
    method Clashes(order: nat) returns (clashes: bool)
      ensures clashes <==> exists i :: 0 <= i < |invoices| && OpenOf(invoices[i], order)
    {
      var k := |invoices|;
      while k > 0
        invariant 0 <= k <= |invoices|
        invariant forall i :: k <= i < |invoices| ==> !OpenOf(invoices[i], order)
      {
        k := k - 1;
        if OpenOf(invoices[k], order) {
          return true;
        }
      }
      clashes := false;
    }

    /** `create`: the next number, then the row. Another open invoice for the order breaks
        the constraint, and the transaction takes the number back too. */
    method Create(company: nat, code: string, order: Option<nat>) returns (created: bool)
      requires Valid()
      modifies this`invoices, this`counters
      ensures Valid()
      ensures old(Owned()) && (order.Some? ==> order.value in orders && orders[order.value] == company) ==> Owned()
      ensures created <==> order.None? || forall i :: 0 <= i < |old(invoices)| ==>
              !OpenOf(old(invoices)[i], order.value)
      ensures !created ==> invoices == old(invoices) && counters == old(counters)
      ensures created ==>
                exists after: nat :: FirstFree(old(invoices), company, code, N.Get(old(counters), company), after)
                  && counters == old(counters)[company := after]
                  && invoices == old(invoices) + [Invoice(company, order, Draft, N.Number(code, after))]
    {
      hide N.Number;
      var existing := NumbersOf(invoices, company);
      var counter := new N.Counter(N.Get(counters, company));
      var number := counter.Generate(code, existing);
      assert FirstFree(invoices, company, code, N.Get(counters, company), counter.last);
      if order.Some? {
        var clashes := Clashes(order.value);
        if clashes {
          return false;
        }
      }
      counters := counters[company := counter.last];
      invoices := invoices + [Invoice(company, order, Draft, number)];
      created := true;
    }

    /** `get_or_create_for_order`: the order's open invoice in its company, created if there
        is none. The constraint stops it only if the order has an open invoice elsewhere,
        which no invoice owned as it should be is. */
    method GetOrCreateForOrder(order: nat, code: string) returns (invoice: Option<nat>, created: bool)
      requires Valid() && order in orders
      modifies this`invoices, this`counters
      ensures Valid() && (old(Owned()) ==> Owned() && invoice.Some?)
      ensures created <==> forall i :: 0 <= i < |old(invoices)| ==> !OpenOf(old(invoices)[i], order)
      ensures if created then old(invoices) < invoices && invoice == Some(|old(invoices)|)
              && |invoices| == |old(invoices)| + 1
              else invoices == old(invoices) && counters == old(counters)
      ensures invoice.Some? ==>
                && invoice.value < |invoices| && OpenFor(invoices[invoice.value], orders[order], order)
                && forall i :: 0 <= i < |invoices| && OpenOf(invoices[i], order) ==> i == invoice.value
      ensures invoice.None? ==>
                exists i :: 0 <= i < |invoices| && OpenOf(invoices[i], order) && invoices[i].company != orders[order]
    {
      var existing := GetActive(orders[order], order);
      if existing.Some? {
        return existing, false;
      }
      created := Create(orders[order], code, Some(order));
      invoice := if created then Some(|invoices| - 1) else None;
    }

    /** Issue, pay or cancel: an open invoice only closes, so neither constraint can break. */
    method Advance(i: nat, status: Status) returns (done: bool)
      requires Valid()
      modifies this`invoices
      ensures Valid() && (old(Owned()) ==> Owned())
      ensures done <==> i < |old(invoices)| && MayAdvance(old(invoices)[i].status, status)
      ensures invoices == if done then old(invoices)[i := old(invoices)[i].(status := status)] else old(invoices)
    {
      if i >= |invoices| || !MayAdvance(invoices[i].status, status) {
        return false;
      }
      invoices := invoices[i := invoices[i].(status := status)];
      done := true;
    }
  }

  predicate MayAdvance(from: Status, to: Status) {
    (from == Draft && to in {Issued, Cancelled}) || (from == Issued && to in {Paid, Cancelled})
  }

  /** What the constraints forbid: two invoices of one order of which neither is paid or
      cancelled, and two of one company with one number. */
  lemma ConstraintsAre(invoices: seq<Invoice>)
    ensures OneOpenPerOrder(invoices)
            <==> forall i, j :: 0 <= i < j < |invoices| && invoices[i].order.Some?
                                && invoices[i].order == invoices[j].order ==>
                   invoices[i].status in {Paid, Cancelled} || invoices[j].status in {Paid, Cancelled}
    ensures UniqueNumbers(invoices)
            <==> forall i, j :: 0 <= i < |invoices| && 0 <= j < |invoices| && i != j
                                && invoices[i].company == invoices[j].company ==>
                   invoices[i].number != invoices[j].number
  {
    forall i: Invoice
      ensures Open(i) <==> i.status !in {Paid, Cancelled}
    {
      assert i.status.Draft? || i.status.Issued? || i.status.Paid? || i.status.Cancelled?;
    }
  }

  /** What the guard looks for, and how an invoice moves on: a draft is issued, an issued one
      paid, and either cancelled. */
  lemma GuardAndMovesAre(i: Invoice, company: nat, order: nat, to: Status)
    ensures OpenFor(i, company, order)
            <==> i.company == company && i.order == Some(order) && i.status != Paid && i.status != Cancelled
    ensures OpenOf(i, order) <==> i.order == Some(order) && i.status != Paid && i.status != Cancelled
    ensures MayAdvance(i.status, to)
            <==> || (i.status == Draft && (to == Issued || to == Cancelled))
                 || (i.status == Issued && (to == Paid || to == Cancelled))
  {
  }

  /** The number given is the company's next one that none of its own invoices has. */
  lemma FirstFreeIs(invoices: seq<Invoice>, company: nat, code: string, before: nat, after: nat)
    ensures FirstFree(invoices, company, code, before, after)
            <==> && before < after
                 && (forall k :: 0 <= k < |invoices| && invoices[k].company == company ==>
                       invoices[k].number != N.Number(code, after))
                 && forall n :: before < n < after ==> Taken(invoices, company, N.Number(code, n))
  {
    hide N.Number;
    forall number
      ensures number in NumbersOf(invoices, company) <==> Taken(invoices, company, number)
    {
    }
  }

  predicate Taken(invoices: seq<Invoice>, company: nat, number: string) {
    exists k :: 0 <= k < |invoices| && invoices[k].company == company && invoices[k].number == number
  }
}
