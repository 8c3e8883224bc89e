/** The technician's wage for a completed order (apps/payouts/services_order_wages.py). */
module OrderWages {
  import opened Options
  import opened Ledgers

  /** One item value of the order; `quantity` in hundredths, as stored. */
  datatype ItemValue = ItemValue(definition: nat, wageApplicable: bool, quantity: Option<int>)

  /** A technician's rates by item definition, the inactive ones among them. */
  datatype Rate = Rate(wage: int, active: bool)
  type Rates = map<nat, Rate>

  /** Python's `int()`, towards zero. */
  function Truncated(hundredths: int): int {
    if hundredths >= 0 then hundredths / 100 else -(-hundredths / 100)
  }

  /** A wage-applicable item with a positive quantity. */
  predicate Counts(v: ItemValue) {
    v.wageApplicable && v.quantity.Some? && v.quantity.value > 0
  }

  predicate HasRate(v: ItemValue, rates: Rates) {
    v.definition in rates && rates[v.definition].active
  }

  datatype Payable = Payable(value: ItemValue, rate: Rate, wage: int)

  function PayableItems(values: seq<ItemValue>, rates: Rates): seq<Payable> {
    if values == [] then []
    else
      var v := values[|values| - 1];
      PayableItems(values[..|values| - 1], rates)
      + (if Counts(v) && HasRate(v, rates)
         then [Payable(v, rates[v.definition], Truncated(v.quantity.value * rates[v.definition].wage))] else [])
  }

  function MissingItems(values: seq<ItemValue>, rates: Rates): seq<ItemValue> {
    if values == [] then []
    else
      var v := values[|values| - 1];
      MissingItems(values[..|values| - 1], rates) + (if Counts(v) && !HasRate(v, rates) then [v] else [])
  }

  function TotalWage(payable: seq<Payable>): int {
    if payable == [] then 0 else TotalWage(payable[..|payable| - 1]) + payable[|payable| - 1].wage
  }

  /** The wage in hundredths before any rounding. */
  function ExactWage(values: seq<ItemValue>, rates: Rates): int {
    if values == [] then 0
    else
      var v := values[|values| - 1];
      ExactWage(values[..|values| - 1], rates)
      + (if Counts(v) && HasRate(v, rates) then v.quantity.value * rates[v.definition].wage else 0)
  }

  function Counted(values: seq<ItemValue>): multiset<ItemValue> {
    if values == [] then multiset{}
    else Counted(values[..|values| - 1])
         + (if Counts(values[|values| - 1]) then multiset{values[|values| - 1]} else multiset{})
  }

  function Paid(payable: seq<Payable>): multiset<ItemValue> {
    if payable == [] then multiset{} else Paid(payable[..|payable| - 1]) + multiset{payable[|payable| - 1].value}
  }

  /** Every item that counts is paid or reported missing, never both and none twice. */
  lemma {:induction false} ItemsArePaidOrMissing(values: seq<ItemValue>, rates: Rates)
    ensures Counted(values) == Paid(PayableItems(values, rates)) + multiset(MissingItems(values, rates))
  {
    if values != [] {
      var front, v := values[..|values| - 1], values[|values| - 1];
      ItemsArePaidOrMissing(front, rates);
      PayableStep(values, rates);
      assert MissingItems(values, rates)
             == MissingItems(front, rates) + (if Counts(v) && !HasRate(v, rates) then [v] else []);
      assert Counted(values) == Counted(front) + (if Counts(v) then multiset{v} else multiset{});
      hide PayableItems, MissingItems, Counts, HasRate, Truncated, Counted;
      assert Paid(PayableItems(values, rates))
          == Paid(PayableItems(front, rates)) + (if Counts(v) && HasRate(v, rates) then multiset{v} else multiset{});
      hide Paid;
    }
  }

  /** How the last item changes what is payable. */
  lemma PayableStep(values: seq<ItemValue>, rates: Rates)
    requires values != []
    ensures var before, after, v := PayableItems(values[..|values| - 1], rates), PayableItems(values, rates),
            values[|values| - 1];
            if Counts(v) && HasRate(v, rates)
            then after != [] && after[..|after| - 1] == before && after[|after| - 1].value == v
                 && after[|after| - 1].wage == Truncated(v.quantity.value * rates[v.definition].wage)
            else after == before
  {
  }

  predicate NonNegativeRates(rates: Rates) { forall d :: d in rates ==> 0 <= rates[d].wage }

  /** Truncating item by item costs the technician less than one rial per paid item. */
  lemma {:induction false} TruncationLoss(values: seq<ItemValue>, rates: Rates)
    requires NonNegativeRates(rates)
    ensures var payable := PayableItems(values, rates);
            && 0 <= TotalWage(payable)
            && 0 <= ExactWage(values, rates) - 100 * TotalWage(payable) <= 99 * |payable|
  {
    if values != [] {
      var front, v := values[..|values| - 1], values[|values| - 1];
      TruncationLoss(front, rates);
      PayableStep(values, rates);
      hide PayableItems;
      if Counts(v) && HasRate(v, rates) {
        var product := v.quantity.value * rates[v.definition].wage;
        assert 0 <= product;
        assert 0 <= product - 100 * Truncated(product) <= 99;
      }
    }
  }

  /** What one item earns, in whole rials: quantity by an active rate, if it earns at all. */
  function Earned(v: ItemValue, rates: Rates): int {
    if v.wageApplicable && v.quantity.Some? && 0 < v.quantity.value && v.definition in rates
        && rates[v.definition].active
    then v.quantity.value * rates[v.definition].wage / 100 else 0
  }

  function EarnedTotal(values: seq<ItemValue>, rates: Rates): int {
    if values == [] then 0
    else EarnedTotal(values[..|values| - 1], rates) + Earned(values[|values| - 1], rates)
  }

  /** The wage is what the items earn, each rounded down. */
  lemma {:induction false} WageIsEarned(values: seq<ItemValue>, rates: Rates)
    requires NonNegativeRates(rates)
    ensures TotalWage(PayableItems(values, rates)) == EarnedTotal(values, rates)
  {
    if values != [] {
      var front, v := values[..|values| - 1], values[|values| - 1];
      WageIsEarned(front, rates);
      PayableStep(values, rates);
      hide PayableItems;
      if Counts(v) && HasRate(v, rates) { assert 0 <= v.quantity.value * rates[v.definition].wage; }
    }
  }

  /** Reported missing are the items that would earn if the technician had an active rate. */
  lemma {:induction false} MissingItemsAre(values: seq<ItemValue>, rates: Rates, v: ItemValue)
    ensures v in MissingItems(values, rates)
            <==> v in values && v.wageApplicable && v.quantity.Some? && 0 < v.quantity.value
                 && (v.definition !in rates || !rates[v.definition].active)
  {
    if values != [] {
      var front, last := values[..|values| - 1], values[|values| - 1];
      MissingItemsAre(front, rates, v);
      assert v in values <==> v in front || v == last;
    }
  }

  /** The credit an order earns. */
  function WageEntry(owner: Owner, order: nat, total: int): Entry {
    Entry(owner, Credit, ServiceWageSource, total, ServiceWage(order))
  }

  /** The ledger after posting. */
  function PostedWage(rows: seq<Row>, technician: Option<Owner>, order: nat, values: seq<ItemValue>,
      rates: Rates): seq<Row>
  {
    var total := TotalWage(PayableItems(values, rates));
    if technician.None? || total <= 0 then rows else Post(rows, WageEntry(technician.value, order, total))
  }

  /** An order earns at most one credit: once posted, posting again changes nothing, even
      with other quantities, other rates or another technician. */
  lemma WageIsPostedOnce(rows: seq<Row>, order: nat, technician: Option<Owner>, values: seq<ItemValue>, rates: Rates,
                         technician2: Option<Owner>, values2: seq<ItemValue>, rates2: Rates)
    requires technician.Some? && TotalWage(PayableItems(values, rates)) > 0
    ensures var posted := PostedWage(rows, technician, order, values, rates);
            PostedWage(posted, technician2, order, values2, rates2) == posted
  {
    var posted := PostedWage(rows, technician, order, values, rates);
    hide PayableItems, TotalWage;
    if !HasKey(rows, ServiceWage(order)) {
      assert posted[|rows|].entry.key == ServiceWage(order);
    }
    assert HasKey(posted, ServiceWage(order));
  }

  /** A first posting raises its technician's balance by the whole total. */
  lemma WageRaisesBalance(rows: seq<Row>, order: nat, technician: Owner, values: seq<ItemValue>, rates: Rates,
      owner: Owner)
    requires technician.Technician? && !HasKey(rows, ServiceWage(order)) && NonNegativeRates(rates)
    ensures GetBalance(PostedWage(rows, Some(technician), order, values, rates), owner)
            == GetBalance(rows, owner) + (if owner == technician then TotalWage(PayableItems(values, rates)) else 0)
  {
    TruncationLoss(values, rates);
    PostMoves(rows, WageEntry(technician, order, TotalWage(PayableItems(values, rates))), owner);
  }

  /** When an order's wage is posted, and as what: once, to its technician, if the items earn
      anything. */
  lemma WagePostedIff(rows: seq<Row>, order: nat, technician: Option<Owner>, values: seq<ItemValue>, rates: Rates)
    requires NonNegativeRates(rates)
    ensures var posted, total := PostedWage(rows, technician, order, values, rates), EarnedTotal(values, rates);
            if technician.Some? && 0 < total && !HasKey(rows, ServiceWage(order))
            then |posted| == |rows| + 1 && posted[..|rows|] == rows
                 && posted[|rows|].entry
                      == Entry(technician.value, Credit, ServiceWageSource, total, ServiceWage(order))
            else posted == rows
  {
    WageIsEarned(values, rates);
    hide PayableItems, TotalWage, HasKey, GetBalance;
  }

  /** `post_for_order`. */
  method PostForOrder(ledger: Ledger, order: nat, technician: Option<Owner>, values: seq<ItemValue>, rates: Rates)
    returns (posted: bool, payable: seq<Payable>, missing: seq<ItemValue>)
    modifies ledger
    ensures ledger.rows == PostedWage(old(ledger.rows), technician, order, values, rates)
    ensures posted <==> ledger.rows != old(ledger.rows)
    ensures technician.Some? ==> payable == PayableItems(values, rates) && missing == MissingItems(values, rates)
  {
    payable, missing := [], [];
    if technician.None? {
      return false, [], [];
    }
    var total := 0;
    for k := 0 to |values|
      invariant ledger.rows == old(ledger.rows)
      invariant payable == PayableItems(values[..k], rates)
      invariant missing == MissingItems(values[..k], rates)
      invariant total == TotalWage(payable)
    {
      assert values[..k + 1][..k] == values[..k];
      var v := values[k];
      if !v.wageApplicable || v.quantity.None? || v.quantity.value <= 0 {
        continue;
      }
      if v.definition !in rates || !rates[v.definition].active {
        missing := missing + [v];
        continue;
      }
      var rate := rates[v.definition];
      var wage := Truncated(v.quantity.value * rate.wage);
      assert (payable + [Payable(v, rate, wage)])[..|payable|] == payable;
      payable := payable + [Payable(v, rate, wage)];
      total := total + wage;
    }
    assert values[..|values|] == values;
    if total <= 0 {
      return false, payable, missing;
    }
    var result := ledger.WriteEntry(technician.value, Credit, ServiceWageSource, total, ServiceWage(order));
    posted := result.Written?;
  }
}
