/** Invoice numbers: the counter with its skip loop (apps/invoices/models.py) and the script
    that seeds it from existing numbers (scripts/seed_invoice_counter.py). */
module InvoiceNumbers {
  import opened Options
  import opened Texts

  // ------------------------------------------------------------------ Numbers as text

  predicate IsDigit(c: char) { '0' <= c <= '9' }

  function DigitValue(c: char): nat
    requires IsDigit(c)
  {
    (c - '0') as int
  }

  function Digit(d: nat): (c: char)
    requires d < 10
    ensures IsDigit(c) && DigitValue(c) == d
  {
    '0' + (d as char)
  }

  function Decimal(n: nat): (s: string)
    ensures s != [] && AllDigits(s)
    decreases n
  {
    if n < 10 then [Digit(n)] else Decimal(n / 10) + [Digit(n % 10)]
  }

  predicate AllDigits(s: string) {
    forall i :: 0 <= i < |s| ==> IsDigit(s[i])
  }

  function Zeros(k: nat): string {
    if k == 0 then "" else ['0'] + Zeros(k - 1)
  }

  /** The `:05d` format: at least five digits, more if the number needs them. */
  function Padded(n: nat): string {
    var s := Decimal(n);
    Zeros(if |s| < 5 then 5 - |s| else 0) + s
  }

  /** Numbers are padded with zeros to five digits, and longer ones are left as they are. */
  lemma PaddedIs(n: nat)
    ensures AllDigits(Padded(n)) && 5 <= |Padded(n)| && (n < 100000 ==> |Padded(n)| == 5)
    ensures 100000 <= n ==> Padded(n) == Decimal(n)
  {
    ZerosAre(if |Decimal(n)| < 5 then 5 - |Decimal(n)| else 0);
    if 100000 <= n { LongDecimal(n / 10); } else { ShortDecimal(n); }
  }

  lemma ShortDecimal(n: nat)
    requires n < 100000
    ensures |Decimal(n)| <= 5
  {
    var a := n / 10;
    var b := a / 10;
    var c := b / 10;
    var d := c / 10;
    assert a < 10000 && b < 1000 && c < 100 && d < 10;
    assert |Decimal(d)| == 1;
    assert |Decimal(c)| <= 2;
    assert |Decimal(b)| <= 3;
    assert |Decimal(a)| <= 4;
  }

  lemma LongDecimal(n: nat)
    requires 10000 <= n
    ensures 5 <= |Decimal(n)|
  {
    assert 1 <= n / 10 / 10 / 10 / 10;
    assert |Decimal(n / 10 / 10 / 10)| >= 2;
    assert |Decimal(n / 10 / 10)| >= 3;
    assert |Decimal(n / 10)| >= 4;
  }

  lemma {:induction false} ZerosAre(k: nat)
    ensures |Zeros(k)| == k && AllDigits(Zeros(k))
  {
    if k != 0 { ZerosAre(k - 1); }
  }

  function Prefix(code: string): string { "INV-" + code + "-" }

  function Number(code: string, n: nat): string { Prefix(code) + Padded(n) }

  // ------------------------------------------------------------------- And back

  function Parse(s: string): nat
    requires AllDigits(s)
  {
    if s == [] then 0 else 10 * Parse(s[..|s| - 1]) + DigitValue(s[|s| - 1])
  }

  /** The longest suffix of digits. */
  function DigitSuffix(s: string): (r: string)
    ensures AllDigits(r)
  {
    if s == [] || !IsDigit(s[|s| - 1]) then "" else DigitSuffix(s[..|s| - 1]) + [s[|s| - 1]]
  }

  lemma {:induction false} DigitSuffixIs(s: string)
    ensures DigitSuffix(s)
            == if s == [] || !IsDigit(s[|s| - 1]) then "" else DigitSuffix(s[..|s| - 1]) + [s[|s| - 1]]
  {
  }

  lemma {:induction false} DigitSuffixIsLongest(s: string)
    ensures var r := DigitSuffix(s);
            && |r| <= |s| && s[|s| - |r|..] == r
            && (|r| < |s| ==> !IsDigit(s[|s| - |r| - 1]))
  {
    hide IsDigit, AllDigits;
    DigitSuffixIs(s);
    hide DigitSuffix;
    if s != [] && IsDigit(s[|s| - 1]) {
      var front, last := s[..|s| - 1], s[|s| - 1];
      var r := DigitSuffix(front);
      DigitSuffixIsLongest(front);
      assert s == front + [last];
      assert s[|front| - |r|..] == front[|front| - |r|..] + [last];
    }
  }

  /** `_extract_invoice_sequence`: the trailing digits, blanks around them ignored. */
  function ExtractSequence(s: string): Option<nat> {
    var digits := DigitSuffix(StripRight(s));
    if digits == "" then None else Some(Parse(digits))
  }

  lemma {:induction false} ParseDecimal(n: nat)
    ensures Parse(Decimal(n)) == n
    decreases n
  {
    if n >= 10 {
      ParseDecimal(n / 10);
      assert Decimal(n)[..|Decimal(n)| - 1] == Decimal(n / 10);
    }
  }

  lemma {:induction false} ParseZeros(k: nat, s: string)
    requires AllDigits(s)
    ensures AllDigits(Zeros(k) + s) && Parse(Zeros(k) + s) == Parse(s)
    decreases k, |s|
  {
    if s != [] {
      ParseZeros(k, s[..|s| - 1]);
      assert (Zeros(k) + s)[..|Zeros(k) + s| - 1] == Zeros(k) + s[..|s| - 1];
      assert forall i :: 0 <= i < |Zeros(k) + s| - 1 ==> (Zeros(k) + s)[i] == (Zeros(k) + s[..|s| - 1])[i];
    } else if k > 0 {
      ParseZeros(k - 1, ['0']);
      ParseZeros(k - 1, []);
      ZerosEnd(k);
      assert Zeros(k - 1) + [] == Zeros(k - 1) && Zeros(k) + [] == Zeros(k);
      assert Zeros(k)[..|Zeros(k)| - 1] == Zeros(k - 1);
    }
  }

  lemma {:induction false} ZerosEnd(k: nat)
    requires k > 0
    ensures Zeros(k) == Zeros(k - 1) + ['0']
  {
    if k > 1 { ZerosEnd(k - 1); }
  }

  /** The digit suffix of a text that ends in a non-digit followed by digits. */
  lemma {:induction false} SuffixAfter(front: string, digits: string)
    requires AllDigits(digits)
    requires front == [] || !IsDigit(front[|front| - 1])
    ensures DigitSuffix(front + digits) == digits
  {
    hide IsDigit;
    var s := front + digits;
    if digits != [] {
      var rest := digits[..|digits| - 1];
      SuffixAfter(front, rest);
      assert s[..|s| - 1] == front + rest;
    } else {
      assert s == front;
    }
  }

  /** Extraction inverts formatting for every number, padded or not, and every company. */
  lemma ExtractInvertsFormat(code: string, n: nat)
    ensures ExtractSequence(Number(code, n)) == Some(n)
  {
    PaddedParses(n);
    SuffixAfter(Prefix(code), Padded(n));
    NothingToStrip(Prefix(code), Padded(n));
    hide Padded, DigitSuffix, StripRight, Parse;
  }

  lemma PaddedParses(n: nat)
    ensures Padded(n) != [] && AllDigits(Padded(n)) && Parse(Padded(n)) == n
  {
    var digits := Decimal(n);
    var k := if |digits| < 5 then 5 - |digits| else 0;
    ParseZeros(k, digits);
    ParseDecimal(n);
    hide Decimal, Zeros, Parse, AllDigits;
  }

  lemma NothingToStrip(front: string, digits: string)
    requires digits != [] && AllDigits(digits)
    ensures StripRight(front + digits) == front + digits
  {
    var s := front + digits;
    assert s[|s| - 1] == digits[|digits| - 1];
    assert !IsSpace(s[|s| - 1]);
  }

  lemma NumbersAreDistinct(code: string, m: nat, n: nat)
    requires Number(code, m) == Number(code, n)
    ensures m == n
  {
    ExtractInvertsFormat(code, m);
    ExtractInvertsFormat(code, n);
  }

  // ----------------------------------------------------------------- The counter

  class Counter {
    var last: nat

    constructor (last: nat)
      ensures this.last == last
    {
      this.last := last;
    }

    /** `generate_invoice_number`: the first free number after the last. The skip loop ends
        for any finite set of existing numbers, each of which it can meet only once. */
    method Generate(code: string, existing: set<string>) returns (number: string)
      modifies this
      ensures old(last) < last && number == Number(code, last)
      ensures number !in existing
      ensures forall n :: old(last) < n < last ==> Number(code, n) in existing
    {
      var next := last + 1;
      ghost var met: set<string> := {};
      while Number(code, next) in existing
        invariant last == old(last) < next
        invariant met <= existing
        invariant forall n :: last < n < next ==> Number(code, n) in existing
        invariant forall s :: s in met ==> exists n: nat :: last < n < next && s == Number(code, n)
        decreases existing - met
      {
        ghost var s := Number(code, next);
        if s in met {
          var n: nat :| last < n < next && s == Number(code, n);
          NumbersAreDistinct(code, n, next);
        }
        met := met + {s};
        next := next + 1;
      }
      last := next;
      number := Number(code, next);
    }
  }

  /** What one call of `Generate` did, with the numbers that existed when it ran. */
  datatype Issued = Issued(existing: set<string>, before: nat, after: nat)

  predicate Generated(code: string, i: Issued) {
    i.before < i.after && Number(code, i.after) !in i.existing
  }

  /** Calls on one counter, other invoices coming and going in between. */
  predicate Successive(code: string, run: seq<Issued>) {
    && (forall k :: 0 <= k < |run| ==> Generated(code, run[k]))
    && (forall k :: 1 <= k < |run| ==> run[k].before == run[k - 1].after)
  }

  /** All numbers one counter ever issues are strictly increasing and so pairwise
      different, also when invoices were deleted in between. */
  lemma {:induction false} IssuedNumbersIncrease(code: string, run: seq<Issued>, i: nat, j: nat)
    requires Successive(code, run) && i < j < |run|
    ensures run[i].after < run[j].after && Number(code, run[i].after) != Number(code, run[j].after)
    decreases j
  {
    hide Number;
    assert Generated(code, run[j]);
    if i < j - 1 { IssuedNumbersIncrease(code, run, i, j - 1); }
    if Number(code, run[i].after) == Number(code, run[j].after) {
      NumbersAreDistinct(code, run[i].after, run[j].after);
    }
  }

  /** Generating again and again on one counter, whatever numbers exist each time: every
      call is one of a successive run, so all numbers issued increase and differ. */
  method GenerateEach(counter: Counter, code: string, existing: seq<set<string>>)
    returns (numbers: seq<string>, ghost run: seq<Issued>)
    modifies counter
    ensures |numbers| == |run| == |existing| && Successive(code, run)
    ensures forall k :: 0 <= k < |run| ==> run[k].existing == existing[k] && numbers[k] == Number(code, run[k].after)
    ensures if run == [] then counter.last == old(counter.last)
            else run[0].before == old(counter.last) && run[|run| - 1].after == counter.last
    ensures forall k :: 0 <= k < |numbers| ==> numbers[k] !in existing[k]
    ensures forall i, j :: 0 <= i < j < |numbers| ==> run[i].after < run[j].after && numbers[i] != numbers[j]
  {
    hide Number;
    numbers, run := [], [];
    for k := 0 to |existing|
      invariant |numbers| == |run| == k && Successive(code, run)
      invariant forall n :: 0 <= n < k ==> run[n].existing == existing[n] && numbers[n] == Number(code, run[n].after)
      invariant if run == [] then counter.last == old(counter.last)
                else run[0].before == old(counter.last) && run[|run| - 1].after == counter.last
    {
      var before := counter.last;
      var number := counter.Generate(code, existing[k]);
      numbers, run := numbers + [number], run + [Issued(existing[k], before, counter.last)];
    }
    assert forall k :: 0 <= k < |run| ==> Generated(code, run[k]);
    forall i, j | 0 <= i < j < |numbers|
      ensures run[i].after < run[j].after && numbers[i] != numbers[j]
    {
      IssuedNumbersIncrease(code, run, i, j);
    }
  }

  // ----------------------------------------------------------------- The seeding

  datatype Existing = Existing(company: nat, number: string)

  /** A maximum after one more number. */
  function Higher(i: Existing, company: nat, before: nat): nat {
    var s := ExtractSequence(i.number);
    if i.company == company && s.Some? && s.value > before then s.value else before
  }

  /** The largest sequence among a company's numbers, 0 if none is positive. */
  function MaxSequence(invoices: seq<Existing>, company: nat): nat {
    if invoices == [] then 0
    else Higher(invoices[|invoices| - 1], company, MaxSequence(invoices[..|invoices| - 1], company))
  }

  lemma MaxSequenceStep(invoices: seq<Existing>, k: nat, company: nat)
    requires k < |invoices|
    ensures MaxSequence(invoices[..k + 1], company) == Higher(invoices[k], company, MaxSequence(invoices[..k], company))
  {
    hide Higher;
    assert invoices[..k + 1][..k] == invoices[..k] && invoices[..k + 1][k] == invoices[k];
  }

  /** Empty numbers are not even looked at. */
  predicate Skipped(i: Existing) {
    i.number != "" && ExtractSequence(i.number).None?
  }

  function Unparseable(invoices: seq<Existing>): nat {
    if invoices == [] then 0
    else Unparseable(invoices[..|invoices| - 1])
         + (if Skipped(invoices[|invoices| - 1]) then 1 else 0)
  }

  function Get(counters: map<nat, nat>, company: nat): nat {
    if company in counters then counters[company] else 0
  }

  /** An old number is skipped when it is there and, blanks at its end aside, does not end in a
      digit. */
  lemma SkippedIff(i: Existing)
    ensures var s := StripRight(i.number);
            Skipped(i) <==> i.number != "" && (s == "" || !IsDigit(s[|s| - 1]))
  {
    DigitSuffixIs(StripRight(i.number));
    DigitSuffixIsLongest(StripRight(i.number));
    hide StripRight;
  }

  lemma {:induction false} UnparseableIs(invoices: seq<Existing>)
    ensures Unparseable(invoices) == |set k | 0 <= k < |invoices| && Skipped(invoices[k])|
  {
    hide Skipped;
    var all := set k | 0 <= k < |invoices| && Skipped(invoices[k]);
    if invoices == [] {
      assert all == {};
    } else {
      var front, n := invoices[..|invoices| - 1], |invoices| - 1;
      UnparseableIs(front);
      var before := set k | 0 <= k < n && Skipped(front[k]);
      assert before == set k | 0 <= k < n && Skipped(invoices[k]);
      if Skipped(invoices[n]) { assert all == before + {n}; } else { assert all == before; }
    }
  }

  lemma EmptyHasNoSequence()
    ensures ExtractSequence("") == None
  {
  }

  /** The companies with a positive number. */
  function Numbered(invoices: seq<Existing>): set<nat> {
    set k | 0 <= k < |invoices| && MaxSequence(invoices, invoices[k].company) > 0 :: invoices[k].company
  }

  lemma {:induction false} MaximumIsSomeones(invoices: seq<Existing>, company: nat)
    requires MaxSequence(invoices, company) > 0
    ensures exists k :: 0 <= k < |invoices| && invoices[k].company == company
  {
    hide ExtractSequence;
    var last := |invoices| - 1;
    if invoices[last].company != company {
      MaximumIsSomeones(invoices[..last], company);
      var k :| 0 <= k < last && invoices[..last][k].company == company;
      assert invoices[k].company == company;
    }
  }

  /** The first loop: a dictionary of maxima. */
  method CollectMaxima(invoices: seq<Existing>) returns (maxima: map<nat, nat>, skipped: nat)
    ensures forall c: nat :: Get(maxima, c) == MaxSequence(invoices, c)
    ensures maxima.Keys == Numbered(invoices)
    ensures skipped == Unparseable(invoices)
  {
    hide ExtractSequence;
    maxima, skipped := map[], 0;
    for k := 0 to |invoices|
      invariant forall c: nat :: Get(maxima, c) == MaxSequence(invoices[..k], c)
      invariant forall c :: c in maxima ==> maxima[c] > 0
      invariant skipped == Unparseable(invoices[..k])
    {
      var s := ExtractSequence(invoices[k].number);
      assert invoices[..k + 1][..k] == invoices[..k] && invoices[..k + 1][k] == invoices[k];
      forall c: nat ensures MaxSequence(invoices[..k + 1], c) == Higher(invoices[k], c, MaxSequence(invoices[..k], c)) {
        MaxSequenceStep(invoices, k, c);
      }
      assert Unparseable(invoices[..k + 1]) == Unparseable(invoices[..k]) + if Skipped(invoices[k]) then 1 else 0;
      hide MaxSequence, Unparseable;
      if invoices[k].number == "" {
        EmptyHasNoSequence();
        continue;
      }
      if s.None? {
        skipped := skipped + 1;
      } else {
        var company := invoices[k].company;
        var current := Get(maxima, company);
        if s.value > current {
          maxima := maxima[company := s.value];
        }
      }
    }
    assert invoices[..|invoices|] == invoices;
    forall c ensures c in maxima <==> c in Numbered(invoices) {
      if c in maxima { MaximumIsSomeones(invoices, c); }
      assert c in Numbered(invoices) ==> MaxSequence(invoices, c) > 0;
      hide MaxSequence, Unparseable;
    }
  }

  /** `seed_invoice_counters`: create missing counters, raise low ones, lower none. */
  method Seed(invoices: seq<Existing>, counters: map<nat, nat>)
    returns (seeded: map<nat, nat>, created: nat, updated: nat, untouched: nat, skipped: nat)
    ensures forall c: nat ::
              Get(seeded, c) == (if Get(counters, c) < MaxSequence(invoices, c) then MaxSequence(invoices, c)
                  else Get(counters, c))
    ensures seeded.Keys == counters.Keys + Numbered(invoices)
    ensures |seeded.Keys| == |counters.Keys| + created
    ensures updated == |Raised(invoices, counters)|
    ensures created + updated + untouched == |Numbered(invoices)|
    ensures skipped == Unparseable(invoices)
  {
    hide MaxSequence, Numbered, Unparseable;
    var maxima;
    maxima, skipped := CollectMaxima(invoices);
    seeded, created, updated, untouched := RaiseCounters(maxima, counters);
    RaisedAre(invoices, counters, maxima);
    SeededAre(invoices, counters, maxima, seeded);
  }

  /** The second loop: one counter per company with a maximum. */
  method RaiseCounters(maxima: map<nat, nat>, counters: map<nat, nat>)
    returns (seeded: map<nat, nat>, created: nat, updated: nat, untouched: nat)
    ensures seeded.Keys == counters.Keys + maxima.Keys
    ensures forall c :: c in seeded ==> seeded[c] == Seeded(counters, maxima, c)
    ensures |seeded.Keys| == |counters.Keys| + created
    ensures updated == |TooLow(maxima, counters)|
    ensures created + updated + untouched == |maxima.Keys|
  {
    seeded, created, updated, untouched := counters, 0, 0, 0;
    var companies := maxima.Keys;
    ghost var raised: set<nat> := {};
    hide TooLow, Seeded;
    while companies != {}
      invariant companies <= maxima.Keys && Progress(seeded, counters, maxima, companies, raised)
      invariant |seeded.Keys| == |counters.Keys| + created
      invariant updated == |raised| && created + updated + untouched + |companies| == |maxima.Keys|
      decreases companies
    {
      var company :| company in companies;
      ghost var before := seeded;
      var outcome;
      seeded, outcome := RaiseCounter(seeded, company, maxima[company]);
      ProgressStep(before, seeded, counters, maxima, companies, raised, company);
      hide Progress;
      match outcome {
        case Added => created := created + 1;
        case RaisedUp => updated, raised := updated + 1, raised + {company};
        case Kept => untouched := untouched + 1;
      }
      companies := companies - {company};
    }
    ProgressDone(seeded, counters, maxima, raised);
  }

  /** Counters part way: the companies still to come have theirs as it was. */
  ghost predicate Progress(seeded: map<nat, nat>, counters: map<nat, nat>, maxima: map<nat, nat>,
                           companies: set<nat>, raised: set<nat>)
  {
    && (forall c :: c in companies || c !in maxima ==>
          (c in seeded <==> c in counters) && (c in seeded ==> seeded[c] == counters[c]))
    && (forall c :: c in maxima && c !in companies ==> c in seeded && seeded[c] == Seeded(counters, maxima, c))
    && (forall c :: c in raised <==> c !in companies && IsTooLow(maxima, counters, c))
  }

  lemma ProgressStep(seeded: map<nat, nat>, after: map<nat, nat>, counters: map<nat, nat>, maxima: map<nat, nat>,
                     companies: set<nat>, raised: set<nat>, c: nat)
    requires Progress(seeded, counters, maxima, companies, raised) && c in companies && c in maxima
    requires after == if c in seeded && maxima[c] <= seeded[c] then seeded else seeded[c := maxima[c]]
    ensures c !in raised
    ensures Progress(after, counters, maxima, companies - {c},
                     if c in seeded && seeded[c] < maxima[c] then raised + {c} else raised)
  {
  }

  lemma ProgressDone(seeded: map<nat, nat>, counters: map<nat, nat>, maxima: map<nat, nat>, raised: set<nat>)
    requires Progress(seeded, counters, maxima, {}, raised)
    ensures seeded.Keys == counters.Keys + maxima.Keys
    ensures forall c :: c in seeded ==> seeded[c] == Seeded(counters, maxima, c)
    ensures raised == TooLow(maxima, counters)
  {
  }

  datatype Outcome = Added | RaisedUp | Kept

  /** One company: create its counter, raise it, or leave it. */
  method RaiseCounter(counters: map<nat, nat>, company: nat, maximum: nat)
    returns (after: map<nat, nat>, outcome: Outcome)
    ensures outcome == if company !in counters then Added else if counters[company] < maximum then RaisedUp else Kept
    ensures after == if outcome.Kept? then counters else counters[company := maximum]
    ensures |after.Keys| == |counters.Keys| + (if outcome.Added? then 1 else 0)
  {
    if company !in counters {
      after, outcome := counters[company := maximum], Added;
      assert after.Keys == counters.Keys + {company};
    } else if counters[company] < maximum {
      after, outcome := counters[company := maximum], RaisedUp;
      assert after.Keys == counters.Keys;
    } else {
      after, outcome := counters, Kept;
    }
  }

  predicate IsTooLow(maxima: map<nat, nat>, counters: map<nat, nat>, c: nat) {
    c in counters && c in maxima && counters[c] < maxima[c]
  }

  /** The counters that are there and below their maximum. */
  function TooLow(maxima: map<nat, nat>, counters: map<nat, nat>): set<nat> {
    set c | c in counters && IsTooLow(maxima, counters, c)
  }

  /** What a company's counter becomes. */
  function Seeded(counters: map<nat, nat>, maxima: map<nat, nat>, company: nat): nat
    requires company in counters || company in maxima
  {
    if company !in counters then maxima[company]
    else if company in maxima && counters[company] < maxima[company] then maxima[company]
    else counters[company]
  }

  lemma SeededAre(invoices: seq<Existing>, counters: map<nat, nat>, maxima: map<nat, nat>, seeded: map<nat, nat>)
    requires forall c: nat :: Get(maxima, c) == MaxSequence(invoices, c)
    requires seeded.Keys == counters.Keys + maxima.Keys
    requires forall c :: c in seeded ==> seeded[c] == Seeded(counters, maxima, c)
    ensures forall c: nat ::
              Get(seeded, c) == (if Get(counters, c) < MaxSequence(invoices, c) then MaxSequence(invoices, c)
                  else Get(counters, c))
  {
    hide MaxSequence;
    forall c: nat
      ensures Get(seeded, c) == (if Get(counters, c) < MaxSequence(invoices, c) then MaxSequence(invoices, c)
              else Get(counters, c))
    {
      assert Get(maxima, c) == MaxSequence(invoices, c);
      assert c in seeded <==> c in counters.Keys + maxima.Keys;
    }
  }

  /** The companies whose counter is there and too low. */
  function Raised(invoices: seq<Existing>, counters: map<nat, nat>): set<nat> {
    set c | c in counters && counters[c] < MaxSequence(invoices, c)
  }

  lemma RaisedAre(invoices: seq<Existing>, counters: map<nat, nat>, maxima: map<nat, nat>)
    requires forall c: nat :: Get(maxima, c) == MaxSequence(invoices, c)
    ensures TooLow(maxima, counters) == Raised(invoices, counters)
  {
    hide MaxSequence;
    forall c ensures c in TooLow(maxima, counters) <==> c in Raised(invoices, counters) {
      assert Get(maxima, c) == MaxSequence(invoices, c);
    }
  }

  lemma {:induction false} SequenceBelowMax(invoices: seq<Existing>, k: nat)
    requires k < |invoices| && ExtractSequence(invoices[k].number).Some?
    ensures ExtractSequence(invoices[k].number).value <= MaxSequence(invoices, invoices[k].company)
  {
    if k < |invoices| - 1 { SequenceBelowMax(invoices[..|invoices| - 1], k); }
  }

  /** A counter no lower than its company's maximum finds the next number free, whatever
      the existing numbers look like: the skip loop's body does not run. */
  lemma SeededCounterSkipsNothing(invoices: seq<Existing>, company: nat, code: string, last: nat)
    requires MaxSequence(invoices, company) <= last
    ensures forall k :: 0 <= k < |invoices| && invoices[k].company == company ==>
            invoices[k].number != Number(code, last + 1)
  {
    hide Number, ExtractSequence, MaxSequence;
    forall k | 0 <= k < |invoices| && invoices[k].company == company
      ensures invoices[k].number != Number(code, last + 1)
    {
      ExtractInvertsFormat(code, last + 1);
      if invoices[k].number == Number(code, last + 1) { SequenceBelowMax(invoices, k); }
    }
  }

  /** Seeding and then generating: the company's next number is its counter plus one. */
  method GenerateAfterSeeding(invoices: seq<Existing>, counters: map<nat, nat>, company: nat, code: string)
    returns (number: string, last: nat)
    ensures last == Max(Get(counters, company), MaxSequence(invoices, company)) + 1
    ensures number == Number(code, last)
    ensures forall k :: 0 <= k < |invoices| && invoices[k].company == company ==> invoices[k].number != number
  {
    hide Number, MaxSequence, Unparseable, Numbered, Raised, ExtractSequence;
    var seeded, _, _, _, _ := Seed(invoices, counters);
    var counter := new Counter(Get(seeded, company));
    var existing := set k | 0 <= k < |invoices| && invoices[k].company == company :: invoices[k].number;
    SeededCounterSkipsNothing(invoices, company, code, counter.last);
    assert Number(code, counter.last + 1) !in existing;
    number := counter.Generate(code, existing);
    last := counter.last;
  }

  function Max(a: nat, b: nat): nat { if a < b then b else a }
}
