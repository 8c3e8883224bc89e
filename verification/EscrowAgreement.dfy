/** Invoice totals, the platform commission, and how the escrow split built from them
    compares with the frozen settlement split (apps/invoices/models.py,
    apps/payouts/services_platform_fee.py, apps/invoices/services.py). */
module EscrowAgreement {
  import opened WageSplit

  // ------------------------------------------------------------ Invoice totals

  /** A row's net price in hundredths of a rial, before it is stored. */
  function NetPrice100(row: Item): nat {
    Max(0, row.quantity100 * row.unitPrice - 100 * row.discount)
  }

  function Subtotal100(rows: seq<Item>): nat {
    if rows == [] then 0 else Subtotal100(rows[..|rows| - 1]) + NetPrice100(rows[|rows| - 1])
  }

  /** Where a half goes when a decimal is stored in a column that cannot hold it. It is the
      database that decides: PostgreSQL, which the base settings configure, rounds away from
      zero; on SQLite, which the local settings configure, it is rounded to even first
      (config/settings/base.py, config/settings/local.py). */
  datatype Ties = AwayFromZero | ToEven

  /** Storing hundredths in a whole-rial field: to nearest. */
  function RoundHundredths(ties: Ties, n: nat): nat {
    var whole, part := n / 100, n % 100;
    if part > 50 || (part == 50 && (ties == AwayFromZero || whole % 2 == 1)) then whole + 1 else whole
  }

  /** The recalculated total in hundredths. Unlike the split it takes the discounts as they
      are, also negative ones, and floors only the whole sum. */
  function Total100(bill: Bill): nat {
    Max(0, Subtotal100(bill.rows) + 100 * (bill.tax - (bill.extra + bill.campaign)))
  }

  /** The total as `recalculate_totals` stores it. */
  function InvoiceTotal(ties: Ties, bill: Bill): nat {
    RoundHundredths(ties, Total100(bill))
  }

  /** Rows as saving leaves them. */
  predicate Fresh(ties: Ties, rows: seq<Item>) {
    forall i :: 0 <= i < |rows| ==> rows[i].totalPrice == RoundHundredths(ties, NetPrice100(rows[i]))
  }

  predicate WholeRials(rows: seq<Item>) {
    forall i :: 0 <= i < |rows| ==> (rows[i].quantity100 * rows[i].unitPrice) % 100 == 0
  }

  lemma {:induction false} WholeSubtotal(ties: Ties, rows: seq<Item>)
    requires Fresh(ties, rows) && WholeRials(rows)
    ensures Subtotal100(rows) == 100 * PriceTotal(rows)
  {
    if rows != [] {
      WholeSubtotal(ties, rows[..|rows| - 1]);
      WholeNetPrice(ties, rows[|rows| - 1]);
    }
  }

  lemma WholeNetPrice(ties: Ties, row: Item)
    requires (row.quantity100 * row.unitPrice) % 100 == 0
    ensures NetPrice100(row) == 100 * RoundHundredths(ties, NetPrice100(row))
  {
    var gross := row.quantity100 * row.unitPrice;
    assert gross == 100 * (gross / 100);
    assert NetPrice100(row) == 100 * Max(0, gross / 100 - row.discount);
  }

  // -------------------------------------------------------- Rows from a form

  /** One submitted row, with decimals of any length. The type is missing when it is none of
      the three known ones. */
  datatype RawItem = RawItem(description: string, rowType: RowType, quantity: real, unitPrice: real, discount: real)

  /** Storing a decimal in a column of whole numbers: to nearest. */
  function Rounded(ties: Ties, x: real): int {
    var part := x - x.Floor as real;
    var tieDown := if ties == AwayFromZero then x < 0.0 else x.Floor % 2 == 0;
    if part < 0.5 || (part == 0.5 && tieDown) then x.Floor else x.Floor + 1
  }

  /** A typed row's net price, floored at zero like a stored one's. */
  function NetTyped(quantity: real, unitPrice: real, discount: real): real {
    var net := quantity * unitPrice - discount;
    if net < 0.0 then 0.0 else net
  }

  /** `replace_items` on one row: no row without a description, no non-positive quantity,
      no unknown type. The price is computed before anything is rounded. */
  function BuildRow(ties: Ties, item: RawItem): Item {
    var rowType := if item.rowType == Unrecognised then Service else item.rowType;
    var quantity := if item.quantity <= 0.0 then 1.0 else item.quantity;
    Item(rowType, OtherText, Rounded(ties, quantity * 100.0), Rounded(ties, item.unitPrice),
         Rounded(ties, item.discount), Rounded(ties, NetTyped(quantity, item.unitPrice, item.discount)))
  }

  function BuildRows(ties: Ties, items: seq<RawItem>): seq<Item> {
    if items == [] then []
    else
      var last := items[|items| - 1];
      BuildRows(ties, items[..|items| - 1]) + (if last.description == "" then [] else [BuildRow(ties, last)])
  }

  predicate Whole(x: real) { x == x.Floor as real }

  /** A row the columns can hold as it was typed: whole rials, and hundredths of a unit. */
  predicate Storable(item: RawItem) {
    Whole(item.quantity * 100.0) && Whole(item.unitPrice) && Whole(item.discount)
  }

  predicate AllStorable(items: seq<RawItem>) {
    forall k :: 0 <= k < |items| ==> Storable(items[k])
  }

  /** Rows from a form are stored and never skipped, so the split and the totals read the
      same prices; and they are fresh if what was typed fits the columns. */
  method ReplaceItems(ties: Ties, items: seq<RawItem>) returns (rows: seq<Item>)
    ensures rows == BuildRows(ties, items)
    ensures Stored(rows) && SkippedTotal(rows) == 0
    ensures AllStorable(items) ==> Fresh(ties, rows)
  {
    rows := [];
    for k := 0 to |items|
      invariant rows == BuildRows(ties, items[..k])
    {
      hide Rounded, NetTyped;
      assert items[..k + 1][..k] == items[..k];
      var item := items[k];
      if item.description != "" {
        var quantity := item.quantity;
        if quantity <= 0.0 {
          quantity := 1.0;
        }
        var rowType := item.rowType;
        if rowType !in {Service, Goods, Travel} {
          rowType := Service;
        }
        assert rowType == if item.rowType == Unrecognised then Service else item.rowType by {
          assert item.rowType == Unrecognised || item.rowType in {Service, Goods, Travel};
        }
        var price := NetTyped(quantity, item.unitPrice, item.discount);
        RoundedNatural(ties, quantity * 100.0);
        rows := rows + [Item(rowType, OtherText, Rounded(ties, quantity * 100.0), Rounded(ties, item.unitPrice),
                             Rounded(ties, item.discount), Rounded(ties, price))];
      }
    }
    assert items[..|items|] == items;
    BuiltRows(ties, items);
  }

  lemma RoundedNatural(ties: Ties, x: real)
    requires 0.0 <= x
    ensures 0 <= Rounded(ties, x)
  {
  }

  lemma {:induction false} BuiltRows(ties: Ties, items: seq<RawItem>)
    ensures Stored(BuildRows(ties, items)) && SkippedTotal(BuildRows(ties, items)) == 0
    ensures forall k :: 0 <= k < |BuildRows(ties, items)| ==> BuildRows(ties, items)[k].rowType != Unrecognised
    ensures AllStorable(items) ==> Fresh(ties, BuildRows(ties, items))
  {
    hide RoundHundredths, Rounded, NetPrice100, Storable;
    if items != [] {
      var front, last := BuildRows(ties, items[..|items| - 1]), items[|items| - 1];
      BuiltRows(ties, items[..|items| - 1]);
      if last.description != "" {
        BuiltRow(ties, last);
        hide BuildRow;
        var rows := front + [BuildRow(ties, last)];
        assert rows[..|front|] == front && rows[|front|] == BuildRow(ties, last);
        assert SkippedTotal(rows) == SkippedTotal(front);
      } else {
        assert BuildRows(ties, items) == front;
      }
    }
  }

  lemma BuiltRow(ties: Ties, item: RawItem)
    ensures var row := BuildRow(ties, item);
            && 0 <= row.totalPrice && row.rowType != Unrecognised && !Skipped(row)
            && (Storable(item) ==> row.totalPrice == RoundHundredths(ties, NetPrice100(row)))
  {
    hide Rounded, RoundHundredths, NetTyped;
    var quantity := if item.quantity <= 0.0 then 1.0 else item.quantity;
    var net := NetTyped(quantity, item.unitPrice, item.discount);
    assert 0.0 <= net by { NetIsNatural(quantity, item.unitPrice, item.discount); }
    RoundedNatural(ties, net);
    if Storable(item) {
      var q, u, d := if item.quantity <= 0.0 then 100
          else (item.quantity * 100.0).Floor, item.unitPrice.Floor, item.discount.Floor;
      WholeIsRounded(ties, quantity * 100.0);
      WholeIsRounded(ties, item.unitPrice);
      WholeIsRounded(ties, item.discount);
      StorableNet(quantity, item.unitPrice, item.discount, q, u, d);
      RoundedHundredths(ties, Max(0, q * u - 100 * d));
      hide Max;
      var row := BuildRow(ties, item);
      assert row.quantity100 == q && row.unitPrice == u && row.discount == d;
      assert NetPrice100(row) == Max(0, q * u - 100 * d);
    }
  }

  lemma WholeIsRounded(ties: Ties, x: real)
    requires Whole(x)
    ensures Rounded(ties, x) == x.Floor
  {
  }

  lemma NetIsNatural(quantity: real, unitPrice: real, discount: real)
    ensures 0.0 <= NetTyped(quantity, unitPrice, discount)
  {
  }

  lemma StorableNet(quantity: real, unitPrice: real, discount: real, q: int, u: int, d: int)
    requires quantity * 100.0 == q as real && unitPrice == u as real && discount == d as real
    ensures NetTyped(quantity, unitPrice, discount) == Max(0, q * u - 100 * d) as real / 100.0
  {
    assert quantity == q as real / 100.0;
    assert quantity * unitPrice == (q as real * u as real) / 100.0;
    assert q as real * u as real == (q * u) as real;
  }

  lemma RoundedHundredths(ties: Ties, n: nat)
    ensures Rounded(ties, n as real / 100.0) == RoundHundredths(ties, n)
  {
    assert n == 100 * (n / 100) + n % 100;
    assert n as real / 100.0 == (n / 100) as real + (n % 100) as real / 100.0;
    assert (n as real / 100.0).Floor == n / 100;
  }

  /** What does not fit the columns need not be fresh, wherever ties go: two units at 0.4
      rials are stored with a price of one, but a unit price of zero. */
  lemma TypedFractionsAreNotFresh(ties: Ties) returns (item: RawItem)
    ensures !Storable(item) && !Fresh(ties, [BuildRow(ties, item)])
  {
    item := RawItem("unit", Service, 2.0, 0.4, 0.0);
    var row := BuildRow(ties, item);
    assert item.unitPrice.Floor == 0;
    assert row.quantity100 == 200 && row.unitPrice == 0 && row.discount == 0 && row.totalPrice == 1;
    assert NetPrice100(row) == 0 && RoundHundredths(ties, 0) == 0;
    assert [row][0] == row;
  }

  /** Which integer a decimal is stored as: the nearest one; of two, the one farther from zero
      or the even one, as the database has it. */
  lemma RoundedIsNearest(ties: Ties, x: real)
    ensures var n := Rounded(ties, x) as real;
            && -0.5 <= n - x <= 0.5
            && (n - x == 0.5 || n - x == -0.5 ==>
                  match ties
                  case AwayFromZero => (if x < 0.0 then n < x else x < n)
                  case ToEven => Rounded(ties, x) % 2 == 0)
  {
  }

  /** A stored row is the submitted one: its own type, a service if that is unknown, its
      quantity, one if that is not positive, and the nearest prices the columns hold; the
      total price is the nearest to what was typed, nothing if that is negative. */
  lemma RowIsAsTyped(ties: Ties, item: RawItem)
    ensures var row := BuildRow(ties, item);
            var quantity := if 0.0 < item.quantity then item.quantity else 1.0;
            var net := quantity * item.unitPrice - item.discount;
            && row.rowType == (match item.rowType
                               case Service => Service
                               case Goods => Goods
                               case Travel => Travel
                               case Unrecognised => Service)
            && -0.5 <= row.quantity100 as real - quantity * 100.0 <= 0.5
            && -0.5 <= row.unitPrice as real - item.unitPrice <= 0.5
            && -0.5 <= row.discount as real - item.discount <= 0.5
            && (0.0 <= net ==> -0.5 <= row.totalPrice as real - net <= 0.5)
            && (net < 0.0 ==> row.totalPrice == 0)
  {
    hide Rounded;
    var quantity := if item.quantity <= 0.0 then 1.0 else item.quantity;
    var net := NetTyped(quantity, item.unitPrice, item.discount);
    RoundedIsNear(ties, quantity * 100.0);
    RoundedIsNear(ties, item.unitPrice);
    RoundedIsNear(ties, item.discount);
    RoundedIsNear(ties, net);
    if net == 0.0 { WholeIsRounded(ties, 0.0); }
  }

  lemma RoundedIsNear(ties: Ties, x: real)
    ensures -0.5 <= Rounded(ties, x) as real - x <= 0.5
  {
  }

  /** Rows are the described ones of the form, in its order. */
  lemma {:induction false} RowsAreDescribed(ties: Ties, first: seq<RawItem>, item: RawItem, rest: seq<RawItem>)
    ensures BuildRows(ties, first + [item] + rest)
            == BuildRows(ties, first) + (if item.description == "" then [] else [BuildRow(ties, item)])
               + BuildRows(ties, rest)
    decreases |rest|
  {
    hide BuildRow;
    var all := first + [item] + rest;
    if rest == [] {
      assert all == first + [item] && all[..|all| - 1] == first;
      assert BuildRows(ties, rest) == [];
    } else {
      var n := |rest| - 1;
      RowsAreDescribed(ties, first, item, rest[..n]);
      assert all[..|all| - 1] == first + [item] + rest[..n];
    }
  }

  // ---------------------------------------------------------- Escrow and split

  /** `compute_fee_for_invoice`, the percentage held times 100. */
  function PlatformFee(total: nat, percent100: nat): nat {
    total * percent100 / 10000
  }

  /** The commission is the percentage of the total, rounded down; so no more than the total
      when the percentage is at most a hundred. */
  lemma PlatformFeeIsFloor(total: nat, percent100: nat)
    ensures var fee := PlatformFee(total, percent100);
            10000 * fee <= total * percent100 < 10000 * (fee + 1) && (percent100 <= 10000 ==> fee <= total)
  {
    var fee := PlatformFee(total, percent100);
    if percent100 <= 10000 {
      Scale(total, percent100, 10000);
      Cancel(10000, fee, total + 1);
    }
  }

  /** What the escrow split leaves for the organization. */
  function OrganizationShare(amount: int, commission: int, provider: int): int {
    amount - commission - provider
  }

  // --------------------------------------------------- Totals against prices

  /** Stored prices plus tax less discounts. */
  function PricedTotal(bill: Bill): int {
    PriceTotal(bill.rows) + bill.tax - bill.extra - bill.campaign
  }

  /** What rounding row by row has lost or gained, in hundredths. */
  function Drift(rows: seq<Item>): int {
    Subtotal100(rows) - 100 * PriceTotal(rows)
  }

  /** The rows' drift is too small to move a total of `whole` rials: less than half a rial
      either way, or a tie that rounds back, or a loss the floor at zero absorbs. */
  predicate DriftVanishes(ties: Ties, drift: int, whole: int) {
    || -50 < drift < 50
    || (ties == AwayFromZero && drift == -50)
    || (ties == ToEven && (drift == 50 || drift == -50) && whole % 2 == 0)
    || (drift < 0 && whole == 0)
  }

  /** Exactly when the invoice total is the total of the stored prices. */
  lemma TotalIsPricedIff(ties: Ties, bill: Bill)
    ensures InvoiceTotal(ties, bill) == PricedTotal(bill)
            <==> 0 <= PricedTotal(bill) && DriftVanishes(ties, Drift(bill.rows), PricedTotal(bill))
  {
    var whole, drift := PricedTotal(bill), Drift(bill.rows);
    assert Total100(bill) == Max(0, 100 * whole + drift);
    hide Total100, Drift, PricedTotal, Subtotal100, PriceTotal;
    if 0 < 100 * whole + drift { RoundedDrift(ties, whole, drift); }
  }

  lemma RoundedDrift(ties: Ties, whole: int, drift: int)
    requires 0 < 100 * whole + drift
    ensures RoundHundredths(ties, 100 * whole + drift) == whole
            <==> || -50 < drift < 50
                 || (ties == AwayFromZero && drift == -50)
                 || (ties == ToEven && (drift == 50 || drift == -50) && whole % 2 == 0)
  {
    var n := 100 * whole + drift;
    var q, r := n / 100, n % 100;
    assert n == 100 * q + r;
    assert drift == 100 * (q - whole) + r;
  }

  /** Rows of whole rials do not drift. */
  lemma WholeRowsDoNotDrift(ties: Ties, rows: seq<Item>)
    requires Fresh(ties, rows) && WholeRials(rows)
    ensures Drift(rows) == 0
  {
    WholeSubtotal(ties, rows);
  }

  /** How far the organization's escrow share lies above its frozen share less commission,
      for every invoice: tax, skipped rows, negative discounts and rounded totals push it up,
      the two clamps of the split push it down, and nothing else moves it. */
  lemma EscrowGap(ties: Ties, bill: Bill, extraPolicy: Policy, campaignPolicy: Policy, commission: int)
    requires ValidBill(bill)
    ensures var s := CalculateSplit(bill, extraPolicy, campaignPolicy);
            OrganizationShare(InvoiceTotal(ties, bill), commission, s.finalTech) - (s.finalCompany - commission)
            == (InvoiceTotal(ties, bill) - PricedTotal(bill))
               + bill.tax + SkippedTotal(bill.rows) - Min(bill.extra, 0) - Min(bill.campaign, 0)
               - Max(s.TechAbsorbed() - s.techGross, 0) - Max(s.CompanyAbsorbed() - s.companyGross, 0)
  {
    hide CalculateSplit, CategoryTotals, SkippedTotal, PriceTotal, InvoiceTotal, Stored;
    NothingLost(bill.rows);
    FinalSplit(bill, extraPolicy, campaignPolicy);
    SplitExactIffUnclamped(bill, extraPolicy, campaignPolicy);
  }

  /** Without tax, skipped rows, negative discounts or a drift that shows, and with discounts
      the net total covers, the escrow never gives the organization more than the settlement
      froze for it, gives exactly that when no clamp fired, and then the overflow guard raises
      just when the commission exceeds the frozen company share. */
  lemma SettlementAndEscrowAgree(ties: Ties, bill: Bill, extraPolicy: Policy, campaignPolicy: Policy, commission: nat)
    requires ValidBill(bill) && DriftVanishes(ties, Drift(bill.rows), PricedTotal(bill))
    requires bill.tax == 0 && SkippedTotal(bill.rows) == 0
    requires 0 <= bill.extra && 0 <= bill.campaign
    requires bill.extra + bill.campaign <= CategoryTotals(bill.rows).Net()
    ensures var s := CalculateSplit(bill, extraPolicy, campaignPolicy);
            var organization := OrganizationShare(InvoiceTotal(ties, bill), commission, s.finalTech);
            && organization <= s.finalCompany - commission
            && (organization == s.finalCompany - commission <==> !s.TechClamped() && !s.CompanyClamped())
            && (!s.TechClamped() && !s.CompanyClamped() ==>
                  (organization < 0 <==> commission > s.finalCompany))
  {
    hide CalculateSplit, CategoryTotals, SkippedTotal, PriceTotal, InvoiceTotal, Stored, Drift, DriftVanishes;
    NothingLost(bill.rows);
    TotalIsPricedIff(ties, bill);
    FinalSplit(bill, extraPolicy, campaignPolicy);
    EscrowGap(ties, bill, extraPolicy, campaignPolicy, commission);
  }

  /** Two equal service rows and nothing else. */
  function TwoRows(quantity100: nat, price: int): Bill {
    var row := Item(Service, OtherText, quantity100, 1, 0, price);
    Bill([row, row], Percents(0, 0, 0), 0, 0, 0)
  }

  /** Rows as a save leaves them, from which nothing is taken off and nothing is skipped. */
  predicate Plain(ties: Ties, bill: Bill) {
    && ValidBill(bill) && Fresh(ties, bill.rows) && SkippedTotal(bill.rows) == 0
    && bill.tax == 0 && bill.extra == 0 && bill.campaign == 0
  }

  /** With fractional rows the two can disagree the other way, wherever ties go: two rows of
      0.4 rials are each stored as zero, so nothing is split, but together they total one
      rial. */
  lemma FractionalRowsDisagree(ties: Ties) returns (bill: Bill)
    ensures var s := CalculateSplit(bill, ByTechnician, ByCompany);
            Plain(ties, bill) && InvoiceTotal(ties, bill) == 1 && s.finalTech + s.finalCompany == 0
  {
    var quantity, price := 40, 0;
    assert RoundHundredths(ties, quantity) == price && RoundHundredths(ties, 2 * quantity) == 1;
    bill := RowsDisagree(ties, quantity, price);
  }

  /** And ties decide which way: two rows of half a rial total one rial; to even they are
      stored as zero each, away from zero as one each, so nothing or two rials are split. */
  lemma TiesDecide(ties: Ties) returns (bill: Bill)
    ensures var s := CalculateSplit(bill, ByTechnician, ByCompany);
            && Plain(ties, bill) && InvoiceTotal(ties, bill) == 1
            && s.finalTech + s.finalCompany == if ties == AwayFromZero then 2 else 0
  {
    var quantity, price := 50, if ties == AwayFromZero then 1 else 0;
    assert RoundHundredths(ties, quantity) == price && RoundHundredths(ties, 2 * quantity) == 1;
    bill := RowsDisagree(ties, quantity, price);
  }

  lemma RowsDisagree(ties: Ties, quantity100: nat, price: nat) returns (bill: Bill)
    requires RoundHundredths(ties, quantity100) == price && RoundHundredths(ties, 2 * quantity100) == 1
    ensures var s := CalculateSplit(bill, ByTechnician, ByCompany);
            Plain(ties, bill) && InvoiceTotal(ties, bill) == 1 && s.finalTech + s.finalCompany == 2 * price
  {
    hide CalculateSplit, Plain, RoundHundredths, Total100, TwoRows;
    bill := TwoRows(quantity100, price);
    TwoRowsAre(ties, quantity100, price);
    NetSplit(ties, bill);
  }

  lemma TwoRowsAre(ties: Ties, quantity100: nat, price: nat)
    requires RoundHundredths(ties, quantity100) == price
    ensures var bill := TwoRows(quantity100, price);
            && Plain(ties, bill) && Total100(bill) == 2 * quantity100
            && CategoryTotals(bill.rows).Net() == 2 * price
  {
    hide RoundHundredths;
    var row := Item(Service, OtherText, quantity100, 1, 0, price);
    assert NetPrice100(row) == quantity100;
    assert [row, row][..1] == [row] && [row][..0] == [];
    assert Subtotal100([row]) == quantity100 && CategoryTotals([row]) == Totals(price, 0, 0);
    assert Subtotal100([row, row]) == 2 * quantity100 && CategoryTotals([row, row]) == Totals(2 * price, 0, 0);
    assert SkippedTotal([row]) == 0;
    assert SkippedTotal([row, row]) == 0;
  }

  /** Without discounts the whole net total is split. */
  lemma NetSplit(ties: Ties, bill: Bill)
    requires Plain(ties, bill)
    ensures var s := CalculateSplit(bill, ByTechnician, ByCompany);
            s.finalTech + s.finalCompany == CategoryTotals(bill.rows).Net()
  {
    hide CalculateSplit, CategoryTotals, Stored, Fresh, SkippedTotal;
    SplitConserves(bill, ByTechnician, ByCompany);
    FinalSplit(bill, ByTechnician, ByCompany);
  }
}
