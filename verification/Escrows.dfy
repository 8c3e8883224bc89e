/** Escrow records: customer money held by the platform until it is split and settled
    (apps/payouts/services_escrow.py, apps/payouts/models.py). */
module Escrows {
  import opened Options

  datatype Status = Held | Reserved | Distributed | PendingSettlement | Settled | Closed

  datatype Record = Record(invoice: Option<nat>, amount: int, status: Status,
                           commission: int, organization: int, provider: int,
                           batch: Option<nat>)
  {
    predicate NoShares() { commission == 0 && organization == 0 && provider == 0 }

    predicate SharesAddUp() {
      && 0 <= commission && 0 <= organization && 0 <= provider
      && commission + organization + provider == amount
    }
  }

  datatype Error = NotFound | WrongStatus | SharesMismatch | NegativeShare | SplitOverflow

  datatype Outcome = Done | Failed(error: Error)

  // --------------------------------------------------- The transitions, as values

  function HeldRecord(invoice: Option<nat>, amount: int): Record {
    Record(invoice, amount, Held, 0, 0, 0, None)
  }

  function Reserve(r: Record, invoice: nat): Record {
    if r.status == Held then r.(invoice := Some(invoice), status := Reserved) else r
  }

  /** RESERVED to DISTRIBUTED, for shares that add up and that the non-negative columns
      take. */
  function Distribute(r: Record, commission: int, organization: int, provider: int): Record {
    if r.status == Reserved && r.(commission := commission, organization := organization,
        provider := provider).SharesAddUp()
    then r.(commission := commission, organization := organization, provider := provider, status := Distributed)
    else r
  }

  function MarkPending(r: Record, batch: nat): Record {
    if r.status == Distributed then r.(batch := Some(batch), status := PendingSettlement) else r
  }

  function MarkSettled(r: Record, batch: Option<nat>): Record {
    if r.status == PendingSettlement
    then r.(batch := if batch.Some? then batch else r.batch, status := Settled) else r
  }

  function Close(r: Record): Record {
    if r.status in {Held, Reserved, Distributed, Settled} then r.(status := Closed) else r
  }

  /** The composite step of invoice payment: reserve if held, then distribute what is
      reserved, the organization taking what commission and provider leave. An overflowing
      split stops after the reservation. */
  function ReserveAndDistribute(r: Record, invoice: nat, commission: int, provider: int): Record {
    var reserved := Reserve(r, invoice);
    Distribute(reserved, commission, reserved.amount - commission - provider, provider)
  }

  // ------------------------------------------------------------------- The table

  /** The escrow table, one record per payment. Every method is one transaction: it either
      saves its whole update or leaves the table alone. */
  class EscrowTable {
    var records: map<nat, Record>

    constructor ()
      ensures records == map[]
    {
      records := map[];
    }

    /** Create or return the existing record; ineligible payments never get one. */
    method CreateForPayment(payment: nat, eligible: bool, amount: int, invoice: Option<nat>) returns (r: Option<Record>)
      modifies this
      ensures records == if payment in old(records) || !eligible then old(records)
                         else old(records)[payment := HeldRecord(invoice, amount)]
      ensures r == if payment in records then Some(records[payment]) else None
    {
      if payment in records {
        return Some(records[payment]);
      }
      if !eligible {
        return None;
      }
      records := records[payment := Record(invoice, amount, Held, 0, 0, 0, None)];
      r := Some(records[payment]);
    }

    method ReserveForInvoice(payment: nat, invoice: nat) returns (outcome: Outcome)
      modifies this
      ensures payment !in old(records) ==> outcome == Failed(NotFound) && records == old(records)
      ensures payment in old(records) ==>
                && records == old(records)[payment := Reserve(old(records)[payment], invoice)]
                && (outcome == Done <==> old(records)[payment].status == Held)
    {
      if payment !in records {
        return Failed(NotFound);
      }
      var locked := records[payment];
      if locked.status != Held {
        assert records == records[payment := locked];
        return Failed(WrongStatus);
      }
      locked := locked.(invoice := Some(invoice));
      locked := locked.(status := Reserved);
      records := records[payment := locked];
      outcome := Done;
    }

    method MarkDistributed(payment: nat, commission: int, organization: int, provider: int) returns (outcome: Outcome)
      modifies this
      ensures payment !in old(records) ==> outcome == Failed(NotFound) && records == old(records)
      ensures payment in old(records) ==>
                && records == old(records)[payment := Distribute(old(records)[payment], commission, organization,
                     provider)]
                && (outcome == Done <==> records[payment] != old(records)[payment])
                && (outcome == Failed(WrongStatus) <==> old(records)[payment].status != Reserved)
    {
      if payment !in records {
        return Failed(NotFound);
      }
      var locked := records[payment];
      assert records == records[payment := locked];
      if locked.status != Reserved {
        return Failed(WrongStatus);
      }
      if commission + organization + provider != locked.amount {
        return Failed(SharesMismatch);
      }
      if commission < 0 || organization < 0 || provider < 0 {
        return Failed(NegativeShare);
      }
      locked := locked.(commission := commission, organization := organization, provider := provider);
      locked := locked.(status := Distributed);
      records := records[payment := locked];
      outcome := Done;
    }

    method MarkPendingSettlement(payment: nat, batch: nat) returns (outcome: Outcome)
      modifies this
      ensures payment !in old(records) ==> outcome == Failed(NotFound) && records == old(records)
      ensures payment in old(records) ==>
                && records == old(records)[payment := MarkPending(old(records)[payment], batch)]
                && (outcome == Done <==> old(records)[payment].status == Distributed)
    {
      if payment !in records {
        return Failed(NotFound);
      }
      var locked := records[payment];
      if locked.status != Distributed {
        assert records == records[payment := locked];
        return Failed(WrongStatus);
      }
      locked := locked.(batch := Some(batch));
      locked := locked.(status := PendingSettlement);
      records := records[payment := locked];
      outcome := Done;
    }

    method SettleRecord(payment: nat, batch: Option<nat>) returns (outcome: Outcome)
      modifies this
      ensures payment !in old(records) ==> outcome == Failed(NotFound) && records == old(records)
      ensures payment in old(records) ==>
                && records == old(records)[payment := MarkSettled(old(records)[payment], batch)]
                && (outcome == Done <==> old(records)[payment].status == PendingSettlement)
    {
      if payment !in records {
        return Failed(NotFound);
      }
      var locked := records[payment];
      if locked.status != PendingSettlement {
        assert records == records[payment := locked];
        return Failed(WrongStatus);
      }
      if batch.Some? {
        locked := locked.(batch := batch);
      }
      locked := locked.(status := Settled);
      records := records[payment := locked];
      outcome := Done;
    }

    method CloseRecord(payment: nat) returns (outcome: Outcome)
      modifies this
      ensures payment !in old(records) ==> outcome == Failed(NotFound) && records == old(records)
      ensures payment in old(records) ==>
                && records == old(records)[payment := Close(old(records)[payment])]
                && (outcome == Done <==> old(records)[payment].status in {Held, Reserved, Distributed, Settled})
    {
      if payment !in records {
        return Failed(NotFound);
      }
      var locked := records[payment];
      if locked.status !in {Held, Reserved, Distributed, Settled} {
        assert records == records[payment := locked];
        return Failed(WrongStatus);
      }
      locked := locked.(status := Closed);
      records := records[payment := locked];
      outcome := Done;
    }

    /** `reserve_and_distribute_escrow_for_invoice`, for a payment that may have no record.
        A `fault` is a write that raises: at the reservation nothing is kept, at the
        distribution the reservation already is. */
    method ReserveAndDistributeFor(payment: nat, invoice: nat, commission: int, provider: int,
                                   reserveFault: bool, distributeFault: bool) returns (raised: bool)
      modifies this
      ensures records == ReserveAndDistributeIn(old(records), payment, invoice, commission, provider,
                                                reserveFault, distributeFault).0
      ensures raised == ReserveAndDistributeIn(old(records), payment, invoice, commission, provider,
                                               reserveFault, distributeFault).1
    {
      if payment !in records {
        return false;
      }
      if records[payment].status == Held {
        if reserveFault {
          return true;
        }
        var reserved := ReserveForInvoice(payment, invoice);
      }
      if records[payment].status != Reserved {
        assert records == records[payment := records[payment]];
        return false;
      }
      var organization := records[payment].amount - commission - provider;
      if organization < 0 || distributeFault {
        assert records == records[payment := records[payment]];
        return true;
      }
      var outcome := MarkDistributed(payment, commission, organization, provider);
      raised := outcome != Done;
    }
  }

  /** What the composite step does to the table, and whether it raises. */
  function ReserveAndDistributeIn(records: map<nat, Record>, payment: nat, invoice: nat,
                                  commission: int, provider: int,
                                  reserveFault: bool, distributeFault: bool): (map<nat, Record>, bool)
  {
    if payment !in records || records[payment].status !in {Held, Reserved} then (records, false)
    else if records[payment].status == Held && reserveFault then (records, true)
    else if distributeFault then (records[payment := Reserve(records[payment], invoice)], true)
    else
      var r := ReserveAndDistribute(records[payment], invoice, commission, provider);
      (records[payment := r], r.status != Distributed)
  }

  // -------------------------------------------------------------- Safety over runs

  datatype Call =
    | DoReserve(invoice: nat)
    | DoDistribute(commission: int, organization: int, provider: int)
    | DoReserveAndDistribute(invoice: nat, commission: int, provider: int)
    | DoMarkPending(batch: nat)
    | DoSettle(finalBatch: Option<nat>)
    | DoClose

  function Serve(r: Record, a: Call): Record {
    match a
    case DoReserve(invoice) => Reserve(r, invoice)
    case DoDistribute(c, o, p) => Distribute(r, c, o, p)
    case DoReserveAndDistribute(invoice, c, p) => ReserveAndDistribute(r, invoice, c, p)
    case DoMarkPending(batch) => MarkPending(r, batch)
    case DoSettle(batch) => MarkSettled(r, batch)
    case DoClose => Close(r)
  }

  function RunCalls(r: Record, calls: seq<Call>): Record
    decreases |calls|
  {
    if calls == [] then r else RunCalls(Serve(r, calls[0]), calls[1..])
  }

  function Rank(s: Status): nat {
    match s
    case Held => 0
    case Reserved => 1
    case Distributed => 2
    case PendingSettlement => 3
    case Settled => 4
    case Closed => 5
  }

  /** Before distribution no share is set; from then on the shares are non-negative and
      make up the held amount; a closed record kept whichever it had. */
  predicate Safe(r: Record) {
    match r.status
    case Held => r.NoShares()
    case Reserved => r.NoShares()
    case Distributed => r.SharesAddUp()
    case PendingSettlement => r.SharesAddUp()
    case Settled => r.SharesAddUp()
    case Closed => r.NoShares() || r.SharesAddUp()
  }

  /** Every run of the services, accepted and refused calls alike, from a new record: it
      stays safe, its amount is fixed, and its status only moves forward. */
  lemma {:induction false} EveryRunIsSafe(r: Record, calls: seq<Call>)
    requires Safe(r)
    ensures var end := RunCalls(r, calls);
            && Safe(end)
            && end.amount == r.amount
            && Rank(r.status) <= Rank(end.status)
            && (end.status == r.status ==> end == r)
    decreases |calls|
  {
    if calls != [] {
      var next := Serve(r, calls[0]);
      assert next.status == r.status ==> next == r;
      EveryRunIsSafe(next, calls[1..]);
    }
  }

  /** Once distributed, the shares are final: no later call of any service changes them,
      and reserving and distributing again is a no-op. */
  lemma {:induction false} SharesAreFinal(r: Record, calls: seq<Call>)
    requires Safe(r) && Rank(Distributed) <= Rank(r.status)
    ensures var end := RunCalls(r, calls);
            (end.commission, end.organization, end.provider) == (r.commission, r.organization, r.provider)
    ensures forall invoice, c, p :: ReserveAndDistribute(r, invoice, c, p) == r
    decreases |calls|
  {
    if calls != [] {
      EveryRunIsSafe(r, calls[..1]);
      assert calls[..1][1..] == [];
      SharesAreFinal(Serve(r, calls[0]), calls[1..]);
    }
  }

  /** The composite step distributes exactly when commission and provider fit in the
      amount, and a refused split sets no share. */
  lemma SplitGuard(r: Record, invoice: nat, commission: nat, provider: nat)
    requires Safe(r) && r.status in {Held, Reserved}
    ensures var end := ReserveAndDistribute(r, invoice, commission, provider);
            && (end.status == Distributed <==> commission + provider <= r.amount)
            && (end.status != Distributed ==> end.status == Reserved && end.NoShares())
            && (end.status == Distributed ==>
                  (end.commission, end.organization, end.provider)
                      == (commission, r.amount - commission - provider, provider))
  {
  }

  /** A refund that closes the record before a retry distributes it, and one that closes it
      afterwards, leave the same record only if there was nothing left to reserve or to
      share: the record was past both, or it was reserved for this invoice and its split
      does not fit or is empty. */
  lemma CloseBeforeRetryIff(r: Record, invoice: nat, commission: nat, provider: nat)
    requires Safe(r)
    ensures ReserveAndDistribute(Close(r), invoice, commission, provider)
            == Close(ReserveAndDistribute(r, invoice, commission, provider))
            <==> || r.status !in {Held, Reserved}
                 || (Reserve(r, invoice).invoice == r.invoice && (r.amount < commission + provider || r.amount == 0))
  {
    var end := ReserveAndDistribute(r, invoice, commission, provider);
    assert Close(r).status == if r.status == PendingSettlement then PendingSettlement else Closed;
    if r.status in {Held, Reserved} { SplitGuard(r, invoice, commission, provider); }
  }

  // -------------------------------------------------------- What each call leaves

  /** A new record holds the whole amount and shares nothing. */
  lemma HeldRecordIs(invoice: Option<nat>, amount: int)
    ensures var r := HeldRecord(invoice, amount);
            && r.status == Held && r.invoice == invoice && r.amount == amount && r.batch.None?
            && r.commission == 0 && r.organization == 0 && r.provider == 0
  {
  }

  function Shared(r: Record, commission: int, organization: int, provider: int): Record {
    r.(commission := commission, organization := organization, provider := provider, status := Distributed)
  }

  /** The one thing each call can do, and the one status it asks for. */
  lemma CallLeaves(r: Record, a: Call)
    ensures var end := Serve(r, a);
            match a
            case DoReserve(i) =>
              end == (if r.status == Held then r.(invoice := Some(i), status := Reserved) else r)
            case DoDistribute(c, o, p) =>
              end == (if r.status == Reserved && 0 <= c && 0 <= o && 0 <= p && c + o + p == r.amount
                      then Shared(r, c, o, p) else r)
            case DoReserveAndDistribute(i, c, p) =>
              var reserved := if r.status == Held then r.(invoice := Some(i), status := Reserved) else r;
              end == (if (r.status == Held || r.status == Reserved) && 0 <= c && 0 <= p && c + p <= r.amount
                      then Shared(reserved, c, r.amount - c - p, p) else reserved)
            case DoMarkPending(b) =>
              end == (if r.status == Distributed then r.(batch := Some(b), status := PendingSettlement) else r)
            case DoSettle(b) =>
              (r.status != PendingSettlement ==> end == r)
              && (r.status == PendingSettlement && b.Some? ==> end == r.(batch := b, status := Settled))
              && (r.status == PendingSettlement && b.None? ==> end == r.(status := Settled))
            case DoClose => end == (if r.status == PendingSettlement then r else r.(status := Closed))
  {
  }

  /** What invoice payment does to the table when any of its writes may fail, and when it
      raises. */
  lemma CompositeLeaves(records: map<nat, Record>, payment: nat, invoice: nat, commission: int, provider: int,
                        reserveFault: bool, distributeFault: bool)
    ensures var (end, raised) := ReserveAndDistributeIn(records, payment, invoice, commission, provider,
                                                        reserveFault, distributeFault);
            if payment !in records || Rank(Distributed) <= Rank(records[payment].status) then end == records && !raised
            else
              var r := records[payment];
              var reserved := if r.status == Held then r.(invoice := Some(invoice), status := Reserved) else r;
              if r.status == Held && reserveFault then end == records && raised
              else if distributeFault || commission < 0 || provider < 0 || r.amount < commission + provider
                   then end == records[payment := reserved] && raised
              else
                var organization := r.amount - commission - provider;
                end == records[payment := Shared(reserved, commission, organization, provider)] && !raised
  {
  }

  /** Over every run from a new record: money that is pending or settled was split, and the
      shares make up the whole amount. */
  lemma SettledWasSplit(invoice: Option<nat>, amount: int, calls: seq<Call>)
    ensures var end := RunCalls(HeldRecord(invoice, amount), calls);
            && end.amount == amount
            && (end.status == Distributed || end.status == PendingSettlement || end.status == Settled ==>
                  && 0 <= end.commission && 0 <= end.organization && 0 <= end.provider
                  && end.commission + end.organization + end.provider == amount)
            && (end.status == Held || end.status == Reserved ==>
                  end.commission == end.organization == end.provider == 0)
  {
    EveryRunIsSafe(HeldRecord(invoice, amount), calls);
  }
}
