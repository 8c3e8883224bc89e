/** Invoice totals and the policy-aware wage split (apps/invoices/models.py,
    apps/invoices/services_wage.py), in whole rials.

    Percentages carry two decimals and are held times 100, quantities likewise. Money
    fields have no decimals, so quantizing one to a whole rial changes nothing and only
    the divisions round. */
module WageSplit {

  datatype RowType = Service | Goods | Travel | Unrecognised

  /** What the legacy fallback looks for in the description of an unrecognised row. */
  datatype RowText = TravelWords | ExtraDiscountLabel | OtherText

  datatype Item = Item(rowType: RowType, text: RowText,
                     quantity100: nat, unitPrice: int, discount: int, totalPrice: int)

  datatype Policy = ByTechnician | HalfHalf | ProportionalShare | ByCompany

  datatype Percents = Percents(service: int, goods: int, travel: int)

  datatype Totals = Totals(service: int, goods: int, travel: int) {
    function Net(): int { service + goods + travel }
  }

  /** The invoice fields the split reads. */
  datatype Bill = Bill(rows: seq<Item>, percents: Percents, tax: int, extra: int, campaign: int)

  datatype Split = Split(totals: Totals,
                         techGross: int, companyGross: int,
                         techExtra: int, companyExtra: int,
                         techCampaign: int, companyCampaign: int,
                         finalTech: int, finalCompany: int)
  {
    function TechAbsorbed(): int { techExtra + techCampaign }
    function CompanyAbsorbed(): int { companyExtra + companyCampaign }
    predicate TechClamped() { techGross < TechAbsorbed() }
    predicate CompanyClamped() { companyGross < CompanyAbsorbed() }
  }

  function Max(a: int, b: int): int { if a < b then b else a }

  function Min(a: int, b: int): int { if a < b then a else b }

  /** Decimal's ROUND_HALF_UP of n/d: to nearest, ties away from zero. */
  function HalfUp(n: int, d: int): int
    requires 0 < d
  {
    if 0 <= n then (2 * n + d) / (2 * d) else -((-2 * n + d) / (2 * d))
  }

  // ------------------------------------------------------------------- Totals

  function Add(t: Totals, row: Item): Totals {
    match row.rowType
    case Travel => t.(travel := t.travel + row.totalPrice)
    case Goods => t.(goods := t.goods + row.totalPrice)
    case Service => t.(service := t.service + row.totalPrice)
    case Unrecognised =>
      match row.text
      case TravelWords => t.(travel := t.travel + row.totalPrice)
      case ExtraDiscountLabel => t
      case OtherText => t.(service := t.service + row.totalPrice)
  }

  function CategoryTotals(rows: seq<Item>): Totals {
    if rows == [] then Totals(0, 0, 0) else Add(CategoryTotals(rows[..|rows| - 1]), rows[|rows| - 1])
  }

  method CollectCategoryTotals(rows: seq<Item>) returns (t: Totals)
    ensures t == CategoryTotals(rows)
    ensures t.Net() + SkippedTotal(rows) == PriceTotal(rows)
  {
    var service, goods, travel := 0, 0, 0;
    for i := 0 to |rows|
      invariant Totals(service, goods, travel) == CategoryTotals(rows[..i])
    {
      assert rows[..i + 1][..i] == rows[..i];
      var row := rows[i];
      if row.rowType == Travel {
        travel := travel + row.totalPrice;
      } else if row.rowType == Goods {
        goods := goods + row.totalPrice;
      } else if row.rowType == Service {
        service := service + row.totalPrice;
      } else {
        if row.text == TravelWords {
          travel := travel + row.totalPrice;
        } else if row.text == ExtraDiscountLabel {
        } else {
          service := service + row.totalPrice;
        }
      }
    }
    assert rows[..|rows|] == rows;
    t := Totals(service, goods, travel);
    NothingLost(rows);
  }

  predicate Skipped(row: Item) {
    row.rowType == Unrecognised && row.text == ExtraDiscountLabel
  }

  /** Prices of the legacy extra-discount rows, which enter no category. */
  function SkippedTotal(rows: seq<Item>): int {
    if rows == [] then 0
    else SkippedTotal(rows[..|rows| - 1])
         + (if Skipped(rows[|rows| - 1]) then rows[|rows| - 1].totalPrice else 0)
  }

  function PriceTotal(rows: seq<Item>): int {
    if rows == [] then 0 else PriceTotal(rows[..|rows| - 1]) + rows[|rows| - 1].totalPrice
  }

  /** The three categories and the skipped rows partition the row prices. */
  lemma {:induction false} NothingLost(rows: seq<Item>)
    ensures CategoryTotals(rows).Net() + SkippedTotal(rows) == PriceTotal(rows)
  {
    if rows != [] { NothingLost(rows[..|rows| - 1]); }
  }

  /** A stored row: saving an item floors its total price at zero. */
  predicate Stored(rows: seq<Item>) {
    forall i :: 0 <= i < |rows| ==> 0 <= rows[i].totalPrice
  }

  lemma {:induction false} TotalsNonNegative(rows: seq<Item>)
    requires Stored(rows)
    ensures var t := CategoryTotals(rows); 0 <= t.service && 0 <= t.goods && 0 <= t.travel
  {
    if rows != [] { TotalsNonNegative(rows[..|rows| - 1]); }
  }

  // -------------------------------------------------------------------- Split

  function Allocate(discount: int, policy: Policy, techGross: int, companyGross: int): (int, int) {
    var d, tech, company := Max(discount, 0), Max(techGross, 0), Max(companyGross, 0);
    if d <= 0 then (0, 0)
    else
      match policy
      case ByTechnician => (d, 0)
      case HalfHalf => var t := HalfUp(d, 2); (t, d - t)
      case ProportionalShare =>
        if tech + company <= 0 then (0, d)
        else var t := HalfUp(d * tech, tech + company); (t, d - t)
      case ByCompany => (0, d)
  }

  /** The technician's wage before discounts, rounded category by category. */
  function TechGross(t: Totals, p: Percents): int {
    HalfUp(t.service * p.service, 10000) + HalfUp(t.goods * p.goods, 10000) + HalfUp(t.travel * p.travel, 10000)
  }

  function CalculateSplit(bill: Bill, extraPolicy: Policy, campaignPolicy: Policy): Split {
    var t := CategoryTotals(bill.rows);
    var techGross := TechGross(t, bill.percents);
    var companyGross := Max(t.Net() - techGross, 0);
    var (te, ce) := Allocate(bill.extra, extraPolicy, techGross, companyGross);
    var (tc, cc) := Allocate(bill.campaign, campaignPolicy, techGross, companyGross);
    Split(t, techGross, companyGross, te, ce, tc, cc,
          Max(techGross - (te + tc), 0), Max(companyGross - (ce + cc), 0))
  }

  /** Percentages a wage may have, 0 to 100. */
  predicate ValidPercents(p: Percents) {
    0 <= p.service <= 10000 && 0 <= p.goods <= 10000 && 0 <= p.travel <= 10000
  }

  predicate ValidBill(bill: Bill) {
    Stored(bill.rows) && ValidPercents(bill.percents)
  }

  function Discounts(bill: Bill): int {
    Max(bill.extra, 0) + Max(bill.campaign, 0)
  }

  /** Rounding half up is within half a unit: the tie rounds up, so only the upper side
      can be met. */
  lemma HalfUpBounds(n: nat, d: int)
    requires 0 < d
    ensures 0 <= HalfUp(n, d)
    ensures 2 * d * HalfUp(n, d) <= 2 * n + d < 2 * d * HalfUp(n, d) + 2 * d
  {
    var q, r := (2 * n + d) / (2 * d), (2 * n + d) % (2 * d);
    assert 2 * n + d == 2 * d * q + r && 0 <= r < 2 * d;
    Cancel(2 * d, -1, q);
  }

  /** A share of `a` in the proportion part/whole never leaves 0..a. */
  lemma ShareInRange(a: nat, part: nat, whole: int)
    requires 0 < whole && part <= whole
    ensures 0 <= a * part
    ensures 0 <= HalfUp(a * part, whole) <= a
  {
    hide HalfUp;
    assert 0 <= a * part <= a * whole by { Scale(a, part, whole); }
    HalfUpBounds(a * part, whole);
    assert 2 * whole * (a + 1) == 2 * (a * whole) + 2 * whole;
    Cancel(2 * whole, HalfUp(a * part, whole), a + 1);
  }

  lemma Scale(k: nat, x: int, y: int)
    requires x <= y
    ensures k * x <= k * y
  {
    assert k * (y - x) >= 0;
  }

  lemma Cancel(k: nat, x: int, y: int)
    requires k * x < k * y
    ensures x < y
  {
    if y <= x { Scale(k, y, x); }
  }

  lemma GrossInRange(bill: Bill)
    requires ValidBill(bill)
    ensures var t := CategoryTotals(bill.rows); 0 <= TechGross(t, bill.percents) <= t.Net()
  {
    TotalsNonNegative(bill.rows);
    hide HalfUp, CategoryTotals;
    var t := CategoryTotals(bill.rows);
    ShareInRange(t.service, bill.percents.service, 10000);
    ShareInRange(t.goods, bill.percents.goods, 10000);
    ShareInRange(t.travel, bill.percents.travel, 10000);
  }

  lemma AllocationConserves(discount: int, policy: Policy, tech: nat, company: nat)
    ensures var (t, c) := Allocate(discount, policy, tech, company);
            0 <= t && 0 <= c && t + c == Max(discount, 0)
  {
    hide HalfUp;
    if discount > 0 {
      HalfUpBounds(discount, 2);
      if tech + company > 0 { ShareInRange(discount, tech, tech + company); }
    }
  }

  /** Split conservation, whatever the policies and discounts: the gross shares make up
      the net total, the absorbed parts make up the discounts, and the final split lies
      between the discounted total and the net total. Its upper bound is the settlement's
      sanity guard, which therefore never fires. */
  lemma SplitConserves(bill: Bill, extraPolicy: Policy, campaignPolicy: Policy)
    requires ValidBill(bill)
    ensures var s := CalculateSplit(bill, extraPolicy, campaignPolicy);
            && 0 <= s.techGross && 0 <= s.companyGross
            && s.techGross + s.companyGross == s.totals.Net()
            && s.techExtra + s.companyExtra == Max(bill.extra, 0)
            && s.techCampaign + s.companyCampaign == Max(bill.campaign, 0)
            && 0 <= s.techExtra && 0 <= s.companyExtra && 0 <= s.techCampaign && 0 <= s.companyCampaign
            && s.totals.Net() - Discounts(bill) <= s.finalTech + s.finalCompany <= s.totals.Net()
  {
    hide HalfUp, Allocate, CategoryTotals, TechGross, Stored;
    GrossInRange(bill);
    var s := CalculateSplit(bill, extraPolicy, campaignPolicy);
    AllocationConserves(bill.extra, extraPolicy, s.techGross, s.companyGross);
    AllocationConserves(bill.campaign, campaignPolicy, s.techGross, s.companyGross);
  }

  /** The final split misses the discounted total by exactly what the two floors at zero
      add back, so it is exact if and only if neither floor was needed. */
  lemma SplitExactIffUnclamped(bill: Bill, extraPolicy: Policy, campaignPolicy: Policy)
    requires ValidBill(bill)
    ensures var s := CalculateSplit(bill, extraPolicy, campaignPolicy);
            && s.finalTech + s.finalCompany - (s.totals.Net() - Discounts(bill))
               == Max(s.TechAbsorbed() - s.techGross, 0) + Max(s.CompanyAbsorbed() - s.companyGross, 0)
            && (s.finalTech + s.finalCompany == s.totals.Net() - Discounts(bill)
                <==> !s.TechClamped() && !s.CompanyClamped())
  {
    hide CalculateSplit, CategoryTotals, Stored;
    FinalSplit(bill, extraPolicy, campaignPolicy);
    SplitConserves(bill, extraPolicy, campaignPolicy);
  }

  /** The final split is the gross split less what each side absorbs, floored at zero. */
  lemma FinalSplit(bill: Bill, extraPolicy: Policy, campaignPolicy: Policy)
    ensures var s := CalculateSplit(bill, extraPolicy, campaignPolicy);
            && s.totals == CategoryTotals(bill.rows)
            && s.finalTech == Max(s.techGross - s.TechAbsorbed(), 0)
            && s.finalCompany == Max(s.companyGross - s.CompanyAbsorbed(), 0)
  {
    hide HalfUp, Allocate, CategoryTotals, TechGross;
  }

  /** When both discounts are shared in proportion and the net total covers them, rounding
      loses nothing for the company and gives the technician at most one rial. */
  lemma ProportionalRounding(bill: Bill)
    requires ValidBill(bill)
    requires Discounts(bill) <= CategoryTotals(bill.rows).Net()
    ensures var s := CalculateSplit(bill, ProportionalShare, ProportionalShare);
            && !s.CompanyClamped()
            && s.TechAbsorbed() <= s.techGross + 1
            && 0 <= s.finalTech + s.finalCompany - (s.totals.Net() - Discounts(bill)) <= 1
  {
    hide CalculateSplit, HalfUp, CategoryTotals, Stored;
    SplitConserves(bill, ProportionalShare, ProportionalShare);
    FinalSplit(bill, ProportionalShare, ProportionalShare);
    var s := CalculateSplit(bill, ProportionalShare, ProportionalShare);
    var e, c, net, tech := Max(bill.extra, 0), Max(bill.campaign, 0), s.totals.Net(), s.techGross;
    if 0 < net {
      ProportionalParts(bill);
      ProportionalBound(e, c, tech, net);
    }
  }

  /** Under proportional policies the technician absorbs the rounded shares. */
  lemma ProportionalParts(bill: Bill)
    requires ValidBill(bill) && 0 < CategoryTotals(bill.rows).Net()
    ensures var s := CalculateSplit(bill, ProportionalShare, ProportionalShare);
            && s.techExtra == HalfUp(Max(bill.extra, 0) * s.techGross, s.totals.Net())
            && s.techCampaign == HalfUp(Max(bill.campaign, 0) * s.techGross, s.totals.Net())
  {
    hide HalfUp, CategoryTotals, TechGross, Stored;
    GrossInRange(bill);
    var tech, net := TechGross(CategoryTotals(bill.rows), bill.percents), CategoryTotals(bill.rows).Net();
    ProportionalPart(bill.extra, tech, net);
    ProportionalPart(bill.campaign, tech, net);
    hide Allocate;
  }

  lemma ProportionalPart(discount: int, tech: nat, net: int)
    requires 0 < net && tech <= net
    ensures Allocate(discount, ProportionalShare, tech, net - tech).0 == HalfUp(Max(discount, 0) * tech, net)
  {
    hide HalfUp;
    if discount <= 0 { ZeroShare(tech, net); }
  }

  lemma ZeroShare(tech: nat, net: int)
    requires 0 < net
    ensures HalfUp(0 * tech, net) == 0
  {
    HalfUpBounds(0, net);
    Cancel(2 * net, HalfUp(0, net), 1);
  }

  lemma ProportionalBound(e: nat, c: nat, tech: nat, net: int)
    requires 0 < net && tech <= net && e + c <= net
    ensures 0 <= e * tech && 0 <= c * tech
    ensures HalfUp(e * tech, net) + HalfUp(c * tech, net) <= tech + 1
    ensures e + c - HalfUp(e * tech, net) - HalfUp(c * tech, net) <= net - tech
  {
    hide HalfUp;
    ShareInRange(e, tech, net);
    ShareInRange(c, tech, net);
    HalfUpBounds(e * tech, net);
    HalfUpBounds(c * tech, net);
    TechSide(e, c, tech, net, HalfUp(e * tech, net), HalfUp(c * tech, net));
    CompanySide(e, c, tech, net, HalfUp(e * tech, net), HalfUp(c * tech, net));
  }

  /** Two shares, each rounded up by at most half, exceed the whole share by at most one. */
  lemma TechSide(e: nat, c: nat, tech: nat, net: int, x: int, y: int)
    requires 0 < net && e + c <= net
    requires 2 * net * x <= 2 * (e * tech) + net && 2 * net * y <= 2 * (c * tech) + net
    ensures x + y <= tech + 1
  {
    assert 2 * net * x + 2 * net * y == 2 * net * (x + y);
    assert e * tech + c * tech == tech * (e + c);
    Scale(tech, e + c, net);
    assert 2 * net * (tech + 2) == 2 * (tech * net) + 4 * net;
    Cancel(2 * net, x + y, tech + 2);
  }

  /** Each share is rounded down by less than half, so what is left for the company never
      reaches a whole rial above its own share. */
  lemma CompanySide(e: nat, c: nat, tech: nat, net: int, x: int, y: int)
    requires 0 < net && tech <= net && e + c <= net
    requires 2 * (e * tech) + net < 2 * net * x + 2 * net && 2 * (c * tech) + net < 2 * net * y + 2 * net
    ensures e + c - x - y <= net - tech
  {
    var d, rest := e + c, net - tech;
    assert 2 * net * x + 2 * net * y == 2 * net * (x + y);
    assert e * tech + c * tech == d * tech;
    Scale(rest, d, net);
    assert rest * d == net * d - d * tech;
    assert 2 * net * (d - rest - 1) == 2 * (net * d) - 2 * (rest * net) - 2 * net;
    Cancel(2 * net, d - rest - 1, x + y);
  }

  /** The extra rial does occur: two one-rial discounts on a net total of two, of which the
      technician owns one, both round up to one. */
  lemma ProportionalRoundingIsTight() returns (bill: Bill)
    ensures ValidBill(bill)
    ensures Discounts(bill) <= CategoryTotals(bill.rows).Net()
    ensures var s := CalculateSplit(bill, ProportionalShare, ProportionalShare);
            && s.TechAbsorbed() == s.techGross + 1
            && s.finalTech + s.finalCompany == s.totals.Net() - Discounts(bill) + 1
  {
    var row := Item(Service, OtherText, 100, 2, 0, 2);
    bill := Bill([row], Percents(5000, 0, 0), 0, 1, 1);
    assert bill.rows[..0] == [];
    assert CategoryTotals(bill.rows[..0]) == Totals(0, 0, 0);
    OneRowSplit(bill);
  }

  lemma OneRowSplit(bill: Bill)
    requires CategoryTotals(bill.rows) == Totals(2, 0, 0)
    requires bill.percents == Percents(5000, 0, 0) && bill.extra == 1 && bill.campaign == 1
    ensures var s := CalculateSplit(bill, ProportionalShare, ProportionalShare);
            s.techGross == 1 && s.TechAbsorbed() == 2 && s.finalTech == 0 && s.finalCompany == 1
  {
    OneRowGross();
    OneRowShare();
    hide HalfUp, TechGross, Allocate, CategoryTotals;
    assert CalculateSplit(bill, ProportionalShare, ProportionalShare)
        == Split(Totals(2, 0, 0), 1, 1, 1, 0, 1, 0, 0, 1);
  }

  lemma OneRowGross()
    ensures TechGross(Totals(2, 0, 0), Percents(5000, 0, 0)) == 1
  {
    assert HalfUp(10000, 10000) == 1 && HalfUp(0, 10000) == 0;
    hide HalfUp;
    assert 2 * 5000 == 10000;
  }

  lemma OneRowShare()
    ensures Allocate(1, ProportionalShare, 1, 1) == (1, 0)
  {
    assert HalfUp(1, 2) == 1;
  }

  // --------------------------------------------------------- What the split means

  /** The percentage of a row's own type; the description decides for unrecognised ones. */
  function RowPercent(row: Item, p: Percents): int {
    if row.rowType == Goods then p.goods
    else if row.rowType == Travel || (row.rowType == Unrecognised && row.text == TravelWords) then p.travel
    else if row.rowType == Unrecognised && row.text == ExtraDiscountLabel then 0
    else p.service
  }

  /** Each stored price by the percentage of its row. */
  function WeightedPrices(rows: seq<Item>, p: Percents): int {
    if rows == [] then 0
    else
      var last := rows[|rows| - 1];
      WeightedPrices(rows[..|rows| - 1], p) + last.totalPrice * RowPercent(last, p)
  }

  /** Rounding is within half a unit, also of negative amounts. */
  lemma HalfUpIsNear(n: int, d: int)
    requires 0 < d
    ensures -d <= 2 * (d * HalfUp(n, d) - n) <= d
  {
    if n < 0 {
      HalfUpBounds(-n, d);
      assert HalfUp(n, d) == -HalfUp(-n, d);
    } else {
      HalfUpBounds(n, d);
    }
  }

  lemma {:induction false} WeightedIsByCategory(rows: seq<Item>, p: Percents)
    ensures var t := CategoryTotals(rows);
            WeightedPrices(rows, p) == t.service * p.service + t.goods * p.goods + t.travel * p.travel
  {
    if rows != [] {
      WeightedIsByCategory(rows[..|rows| - 1], p);
      WeightedStep(CategoryTotals(rows[..|rows| - 1]), rows[|rows| - 1], p);
    }
  }

  lemma WeightedStep(t: Totals, row: Item, p: Percents)
    ensures var u := Add(t, row);
            u.service * p.service + u.goods * p.goods + u.travel * p.travel
            == t.service * p.service + t.goods * p.goods + t.travel * p.travel + row.totalPrice * RowPercent(row, p)
  {
  }

  /** What the technician absorbs of a discount under each policy. */
  predicate Absorbs(policy: Policy, discount: int, tech: int, techGross: int, companyGross: int) {
    var d := Max(discount, 0);
    match policy
    case ByTechnician => tech == d
    case ByCompany => tech == 0
    case HalfHalf => d <= 2 * tech <= d + 1
    case ProportionalShare =>
      if techGross + companyGross <= 0 then tech == 0
      else
        var net := techGross + companyGross;
        -net <= 2 * (net * tech - d * techGross) <= net
  }

  /** The split of a bill under two policies: each row by its own percentage, each category
      rounded once; each discount by its own policy; the rest to the company. */
  predicate Fair(bill: Bill, s: Split, extraPolicy: Policy, campaignPolicy: Policy) {
    && -15000 <= 10000 * s.techGross - WeightedPrices(bill.rows, bill.percents) <= 15000
    && s.techGross + s.companyGross == PriceTotal(bill.rows) - SkippedTotal(bill.rows)
    && Absorbs(extraPolicy, bill.extra, s.techExtra, s.techGross, s.companyGross)
    && Absorbs(campaignPolicy, bill.campaign, s.techCampaign, s.techGross, s.companyGross)
    && s.techExtra + s.companyExtra == Max(bill.extra, 0)
    && s.techCampaign + s.companyCampaign == Max(bill.campaign, 0)
    && s.finalTech == Max(s.techGross - s.techExtra - s.techCampaign, 0)
    && s.finalCompany == Max(s.companyGross - s.companyExtra - s.companyCampaign, 0)
  }

  /** The technician's gross wage is the weighted sum of the rows, to one and a half rials,
      for every bill. */
  lemma WageIsWeighted(bill: Bill, extraPolicy: Policy, campaignPolicy: Policy)
    ensures var s := CalculateSplit(bill, extraPolicy, campaignPolicy);
            -15000 <= 10000 * s.techGross - WeightedPrices(bill.rows, bill.percents) <= 15000
  {
    hide HalfUp, CategoryTotals, WeightedPrices, Allocate;
    var t, p := CategoryTotals(bill.rows), bill.percents;
    WeightedIsByCategory(bill.rows, p);
    HalfUpIsNear(t.service * p.service, 10000);
    HalfUpIsNear(t.goods * p.goods, 10000);
    HalfUpIsNear(t.travel * p.travel, 10000);
  }

  lemma PolicyAbsorbs(discount: int, policy: Policy, tech: nat, company: nat)
    ensures Absorbs(policy, discount, Allocate(discount, policy, tech, company).0, tech, company)
  {
    hide HalfUp;
    if 0 < discount {
      HalfUpBounds(discount, 2);
      if 0 < tech + company { HalfUpIsNear(discount * tech, tech + company); }
    }
  }

  /** Every valid bill is split fairly. */
  lemma SplitIsFair(bill: Bill, extraPolicy: Policy, campaignPolicy: Policy)
    requires ValidBill(bill)
    ensures Fair(bill, CalculateSplit(bill, extraPolicy, campaignPolicy), extraPolicy, campaignPolicy)
  {
    hide HalfUp, Allocate, CategoryTotals, TechGross, Stored, WeightedPrices, Absorbs;
    var s := CalculateSplit(bill, extraPolicy, campaignPolicy);
    WageIsWeighted(bill, extraPolicy, campaignPolicy);
    SplitConserves(bill, extraPolicy, campaignPolicy);
    NothingLost(bill.rows);
    PolicyAbsorbs(bill.extra, extraPolicy, s.techGross, s.companyGross);
    PolicyAbsorbs(bill.campaign, campaignPolicy, s.techGross, s.companyGross);
  }
}
