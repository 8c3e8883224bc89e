/** Comparing a provider's settlement report with the internal payments
    (apps/payments/services_reconciliation.py). */
module Reconciliation {
  import opened Options
  import opened Texts

  datatype ReportRow = ReportRow(reference: string, amount: int, status: string)

  datatype Payment = Payment(id: nat, company: string, gatewayType: Option<string>, reference: string,
                             amount: int, status: string)

  datatype Issue = EmptyReference | DuplicateReference | MissingInternal | AmountMismatch
                 | ProviderPaid | ProviderFailed | MissingInProvider

  datatype Record = Record(issue: Issue, reference: string, payment: Option<nat>)

  datatype Summary = Summary(scanned: nat, matched: nat, missingInProvider: nat, missingInternal: nat,
                             amountMismatch: nat, statusMismatch: nat, duplicates: nat, errors: nat,
                             records: seq<Record>)
  {
    predicate HasIssues() {
      missingInProvider > 0 || missingInternal > 0 || amountMismatch > 0 || statusMismatch > 0
      || duplicates > 0 || errors > 0
    }
  }

  // --------------------------------------------------------------- Classification

  function NormalizeStatus(raw: string): string {
    var s := Lower(Strip(raw));
    if s in {"paid", "successful", "success", "verified"} then "paid"
    else if s in {"failed", "failure", "error"} then "failed"
    else if s in {"cancelled", "canceled"} then "cancelled"
    else s
  }

  /** The filters of a run: company and gateway type, empty for all. */
  datatype Scope = Scope(company: string, gatewayType: string) {
    predicate Covers(p: Payment) {
      && (company == "" || p.company == company)
      && (gatewayType == "" || p.gatewayType == Some(gatewayType))
    }
  }

  /** The newest payment in scope with exactly this reference; payments come newest first. */
  function FindPayment(payments: seq<Payment>, scope: Scope, reference: string): Option<Payment> {
    if payments == [] then None
    else if payments[0].reference == reference && scope.Covers(payments[0]) then Some(payments[0])
    else FindPayment(payments[1..], scope, reference)
  }

  datatype Verdict = Agrees | Differs(issue: Issue)

  const MISMATCHES := {MissingInternal, AmountMismatch, ProviderPaid, ProviderFailed}

  /** How a reported row compares with the payment found for it. */
  function Compare(row: ReportRow, payment: Option<Payment>): (v: Verdict)
    ensures v.Differs? ==> v.issue in MISMATCHES
  {
    if payment.None? then Differs(MissingInternal)
    else
      var expected, reported := Lower(payment.value.status), NormalizeStatus(row.status);
      if row.amount != payment.value.amount then Differs(AmountMismatch)
      else if reported == "paid" && expected != "paid" then Differs(ProviderPaid)
      else if reported == "failed" && expected == "pending" then Differs(ProviderFailed)
      else Agrees
  }

  // ------------------------------------------------------------------- References

  /** The distinct non-empty references, in the order they first appear. */
  function References(rows: seq<ReportRow>): seq<string> {
    if rows == [] then []
    else
      var before, reference := References(rows[..|rows| - 1]), Strip(rows[|rows| - 1].reference);
      if reference == "" || reference in before then before else before + [reference]
  }

  /** The rows reported under one reference. */
  function RowsOf(rows: seq<ReportRow>, reference: string): seq<ReportRow> {
    if rows == [] then []
    else
      RowsOf(rows[..|rows| - 1], reference)
      + (if Strip(rows[|rows| - 1].reference) == reference then [rows[|rows| - 1]] else [])
  }

  ghost predicate Distinct<T>(s: seq<T>) { forall i, j :: 0 <= i < j < |s| ==> s[i] != s[j] }

  /** The references scanned are those some row reports, each once. */
  lemma {:induction false} ReferencesAre(rows: seq<ReportRow>)
    ensures Distinct(References(rows))
    ensures forall r :: r in References(rows) <==> r != "" && RowsOf(rows, r) != []
  {
    if rows != [] {
      var before, reference := References(rows[..|rows| - 1]), Strip(rows[|rows| - 1].reference);
      ReferencesAre(rows[..|rows| - 1]);
      assert References(rows) == before || (References(rows) == before + [reference] && reference !in before);
      hide Strip;
    }
  }

  // ---------------------------------------------------------------------- Records

  ghost predicate AllHave(records: seq<Record>, issues: set<Issue>) {
    forall k :: 0 <= k < |records| ==> records[k].issue in issues
  }

  function EmptyRecords(rows: seq<ReportRow>): (r: seq<Record>)
    ensures AllHave(r, {EmptyReference})
  {
    if rows == [] then []
    else
      EmptyRecords(rows[..|rows| - 1])
      + (if Strip(rows[|rows| - 1].reference) == "" then [Record(EmptyReference, "", None)] else [])
  }

  function DuplicateRecords(refs: seq<string>, rows: seq<ReportRow>): (r: seq<Record>)
    ensures AllHave(r, {DuplicateReference})
  {
    if refs == [] then []
    else
      var last := refs[|refs| - 1];
      DuplicateRecords(refs[..|refs| - 1], rows)
      + (if |RowsOf(rows, last)| > 1 then [Record(DuplicateReference, last, None)] else [])
  }

  /** The verdict on one reference: its first row against the payment found for it. */
  function VerdictOf(rows: seq<ReportRow>, payments: seq<Payment>, scope: Scope, reference: string): (v: Verdict)
    ensures v.Differs? ==> v.issue in MISMATCHES
  {
    if RowsOf(rows, reference) == [] then Agrees
    else Compare(RowsOf(rows, reference)[0], FindPayment(payments, scope, reference))
  }

  function IdOf(payment: Option<Payment>): Option<nat> {
    if payment.Some? then Some(payment.value.id) else None
  }

  function VerdictRecord(verdict: Verdict, reference: string, payment: Option<Payment>): seq<Record> {
    if verdict.Agrees? then [] else [Record(verdict.issue, reference, IdOf(payment))]
  }

  function MatchRecords(refs: seq<string>, rows: seq<ReportRow>, payments: seq<Payment>, scope: Scope): (r: seq<Record>)
    ensures AllHave(r, MISMATCHES)
  {
    if refs == [] then []
    else
      var last := refs[|refs| - 1];
      MatchRecords(refs[..|refs| - 1], rows, payments, scope)
      + VerdictRecord(VerdictOf(rows, payments, scope, last), last, FindPayment(payments, scope, last))
  }

  /** Gateway payments that a provider should know and no reported reference was matched
      with. */
  predicate Unmatched(p: Payment, matchedIds: set<nat>, scope: Scope) {
    p.gatewayType.Some? && p.status in {"pending", "paid", "needs_reconciliation"}
    && p.id !in matchedIds && scope.Covers(p)
  }

  function Missing(p: Payment): Record { Record(MissingInProvider, p.reference, Some(p.id)) }

  /** The query of the last loop. */
  function UnmatchedPayments(payments: seq<Payment>, matchedIds: set<nat>, scope: Scope): seq<Payment> {
    if payments == [] then []
    else
      UnmatchedPayments(payments[..|payments| - 1], matchedIds, scope)
      + (if Unmatched(payments[|payments| - 1], matchedIds, scope) then [payments[|payments| - 1]] else [])
  }

  function MissingRecords(candidates: seq<Payment>, refs: seq<string>): (r: seq<Record>)
    ensures AllHave(r, {MissingInProvider})
  {
    if candidates == [] then []
    else
      var p := candidates[|candidates| - 1];
      MissingRecords(candidates[..|candidates| - 1], refs)
      + (if Unreported(p, refs) then [Missing(p)] else [])
  }

  lemma {:induction false} UnmatchedAre(payments: seq<Payment>, matchedIds: set<nat>, scope: Scope, p: Payment)
    ensures p in UnmatchedPayments(payments, matchedIds, scope) <==> p in payments && Unmatched(p, matchedIds, scope)
  {
    hide Unmatched;
    if payments != [] {
      UnmatchedAre(payments[..|payments| - 1], matchedIds, scope, p);
      assert payments == payments[..|payments| - 1] + [payments[|payments| - 1]];
    }
  }

  /** Unreported: it has a reference, and no row of the report does. */
  predicate Unreported(p: Payment, refs: seq<string>) {
    p.reference != "" && Strip(p.reference) !in refs
  }

  lemma {:induction false} MissingRecordsAre(candidates: seq<Payment>, refs: seq<string>, r: Record)
    ensures r in MissingRecords(candidates, refs)
            <==> exists k :: 0 <= k < |candidates| && Unreported(candidates[k], refs) && r == Missing(candidates[k])
  {
    hide Strip;
    if candidates != [] {
      var front, last := candidates[..|candidates| - 1], candidates[|candidates| - 1];
      MissingRecordsAre(front, refs, r);
      assert forall k :: 0 <= k < |front| ==> candidates[k] == front[k];
    }
  }

  function Take<T>(s: seq<T>, n: nat): seq<T> { if n < |s| then s[..n] else s }

  /** The payments some reported reference was matched with. */
  function MatchedIds(refs: seq<string>, payments: seq<Payment>, scope: Scope): set<nat> {
    if refs == [] then {}
    else
      var before, p := MatchedIds(refs[..|refs| - 1], payments, scope), FindPayment(payments, scope, refs[|refs| - 1]);
      if p.Some? then before + {p.value.id} else before
  }

  /** The payments the last loop looks at. */
  function Candidates(rows: seq<ReportRow>, payments: seq<Payment>, scope: Scope, limit: nat): seq<Payment> {
    Take(UnmatchedPayments(payments, MatchedIds(References(rows), payments, scope), scope), limit)
  }

  /** All records of a run, in the order the run appends them. */
  function AllRecords(rows: seq<ReportRow>, payments: seq<Payment>, scope: Scope, limit: nat): seq<Record> {
    var refs := References(rows);
    EmptyRecords(rows) + DuplicateRecords(refs, rows) + MatchRecords(refs, rows, payments, scope)
    + MissingRecords(Candidates(rows, payments, scope, limit), refs)
  }

  // ------------------------------------------------------------------- Accounting

  function Count(records: seq<Record>, issue: Issue): nat {
    if records == [] then 0
    else Count(records[..|records| - 1], issue) + (if records[|records| - 1].issue == issue then 1 else 0)
  }

  lemma {:induction false} CountConcat(a: seq<Record>, b: seq<Record>, issue: Issue)
    ensures Count(a + b, issue) == Count(a, issue) + Count(b, issue)
  {
    if b == [] {
      assert a + b == a;
    } else {
      assert (a + b)[..|a + b| - 1] == a + b[..|b| - 1];
      CountConcat(a, b[..|b| - 1], issue);
    }
  }

  lemma {:induction false} CountWithin(records: seq<Record>, issues: set<Issue>, issue: Issue)
    requires AllHave(records, issues)
    ensures issue !in issues ==> Count(records, issue) == 0
    ensures issues == {issue} ==> Count(records, issue) == |records|
  {
    if records != [] { CountWithin(records[..|records| - 1], issues, issue); }
  }

  /** Every record has exactly one issue. */
  lemma {:induction false} CountsSum(records: seq<Record>)
    ensures |records| == Count(records, EmptyReference) + Count(records, DuplicateReference)
                         + Count(records, MissingInternal) + Count(records, AmountMismatch)
                         + Count(records, ProviderPaid) + Count(records, ProviderFailed)
                         + Count(records, MissingInProvider)
  {
    if records != [] { CountsSum(records[..|records| - 1]); }
  }

  /** The records of each stage are the only ones with that stage's issues. */
  lemma CountsByStage(empty: seq<Record>, duplicate: seq<Record>, mismatch: seq<Record>, missing: seq<Record>,
      issue: Issue)
    requires AllHave(empty, {EmptyReference}) && AllHave(duplicate, {DuplicateReference})
    requires AllHave(mismatch, MISMATCHES) && AllHave(missing, {MissingInProvider})
    ensures Count(empty + duplicate + mismatch + missing, issue)
            == match issue
               case EmptyReference => |empty|
               case DuplicateReference => |duplicate|
               case MissingInProvider => |missing|
               case _ => Count(mismatch, issue)
  {
    CountConcat(empty + duplicate + mismatch, missing, issue);
    CountConcat(empty + duplicate, mismatch, issue);
    CountConcat(empty, duplicate, issue);
    CountWithin(empty, {EmptyReference}, issue);
    CountWithin(duplicate, {DuplicateReference}, issue);
    CountWithin(mismatch, MISMATCHES, issue);
    CountWithin(missing, {MissingInProvider}, issue);
  }

  /** Identified by their primary key. */
  predicate KeysAreIds(payments: seq<Payment>) {
    forall i, j :: 0 <= i < |payments| && 0 <= j < |payments| && payments[i].id == payments[j].id ==>
        payments[i] == payments[j]
  }

  /** The records of missing payments are those of that loop. */
  lemma MissingInAll(rows: seq<ReportRow>, payments: seq<Payment>, scope: Scope, limit: nat, r: Record)
    requires r.issue == MissingInProvider
    ensures r in AllRecords(rows, payments, scope, limit)
            <==> r in MissingRecords(Candidates(rows, payments, scope, limit), References(rows))
  {
    hide References, EmptyRecords, DuplicateRecords, MatchRecords, MissingRecords, Candidates;
    var refs := References(rows);
    var earlier := EmptyRecords(rows) + DuplicateRecords(refs, rows) + MatchRecords(refs, rows, payments, scope);
    var missing := MissingRecords(Candidates(rows, payments, scope, limit), refs);
    assert AllRecords(rows, payments, scope, limit) == earlier + missing;
    assert r !in earlier;
  }

  /** No payment is both matched and reported missing, whatever the limit: one that is
      reported missing is a known gateway payment in scope that no reported reference was
      matched with, and the report lacks its reference. */
  lemma MissingIsUnmatched(rows: seq<ReportRow>, payments: seq<Payment>, scope: Scope, limit: nat, p: Payment)
    requires p in payments && KeysAreIds(payments)
    requires Missing(p) in AllRecords(rows, payments, scope, limit)
    ensures Unmatched(p, MatchedIds(References(rows), payments, scope), scope) && Unreported(p, References(rows))
  {
    hide References, AllRecords, MissingRecords, UnmatchedPayments, MatchedIds, Unmatched, Unreported;
    var refs := References(rows);
    var ids := MatchedIds(refs, payments, scope);
    MissingInAll(rows, payments, scope, limit, Missing(p));
    MissingRecordsAre(Candidates(rows, payments, scope, limit), refs, Missing(p));
    var unmatched := UnmatchedPayments(payments, ids, scope);
    var k :| 0 <= k < |Take(unmatched, limit)| && Unreported(Take(unmatched, limit)[k], refs)
             && Missing(p) == Missing(Take(unmatched, limit)[k]);
    var q := unmatched[k];
    UnmatchedAre(payments, ids, scope, q);
    assert q == p;
  }

  /** And every such payment is reported, if the limit lets all of them through. */
  lemma MissingIffUnmatched(rows: seq<ReportRow>, payments: seq<Payment>, scope: Scope, limit: nat, p: Payment)
    requires p in payments && KeysAreIds(payments)
    requires |UnmatchedPayments(payments, MatchedIds(References(rows), payments, scope), scope)| <= limit
    ensures Missing(p) in AllRecords(rows, payments, scope, limit)
            <==> Unmatched(p, MatchedIds(References(rows), payments, scope), scope) && Unreported(p, References(rows))
  {
    hide References, AllRecords, MissingRecords, UnmatchedPayments, MatchedIds, Unmatched, Unreported;
    var refs := References(rows);
    var ids := MatchedIds(refs, payments, scope);
    if Missing(p) in AllRecords(rows, payments, scope, limit) { MissingIsUnmatched(rows, payments, scope, limit, p); }
    MissingInAll(rows, payments, scope, limit, Missing(p));
    MissingRecordsAre(Candidates(rows, payments, scope, limit), refs, Missing(p));
    UnmatchedAre(payments, ids, scope, p);
    var unmatched := UnmatchedPayments(payments, ids, scope);
    if p in unmatched && Unreported(p, refs) {
      var k :| 0 <= k < |unmatched| && unmatched[k] == p;
      var taken := Take(unmatched, limit);
      assert taken[k] == p && Missing(p) == Missing(taken[k]);
    }
  }

  // ------------------------------------------- What the report says, row by row

  /** A payment of exactly this reference, of the company and gateway type asked for. */
  predicate Bears(p: Payment, scope: Scope, reference: string) {
    && p.reference == reference
    && (scope.company != "" ==> p.company == scope.company)
    && (scope.gatewayType != "" ==> p.gatewayType.Some? && p.gatewayType.value == scope.gatewayType)
  }

  predicate FirstBearing(payments: seq<Payment>, scope: Scope, reference: string, k: nat) {
    k < |payments| && Bears(payments[k], scope, reference) && forall j :: 0 <= j < k ==>
        !Bears(payments[j], scope, reference)
  }

  predicate NoneBears(payments: seq<Payment>, scope: Scope, reference: string) {
    forall j :: 0 <= j < |payments| ==> !Bears(payments[j], scope, reference)
  }

  predicate FirstReported(rows: seq<ReportRow>, reference: string, k: nat) {
    k < |rows| && Strip(rows[k].reference) == reference && forall j :: 0 <= j < k ==>
        Strip(rows[j].reference) != reference
  }

  predicate IsReported(rows: seq<ReportRow>, reference: string) {
    exists k :: 0 <= k < |rows| && Strip(rows[k].reference) == reference
  }

  predicate ReportedTwice(rows: seq<ReportRow>, reference: string) {
    exists i, j :: 0 <= i < j < |rows| && Strip(rows[i].reference) == reference == Strip(rows[j].reference)
  }

  /** The references some row reports, trimmed and not empty. */
  function Reported(rows: seq<ReportRow>): set<string> {
    set k | 0 <= k < |rows| && Strip(rows[k].reference) != "" :: Strip(rows[k].reference)
  }

  predicate SaysPaid(status: string) { Lower(Strip(status)) in {"paid", "successful", "success", "verified"} }

  predicate SaysFailed(status: string) { Lower(Strip(status)) in {"failed", "failure", "error"} }

  /** What is wrong with a row against the payment that bears its reference. */
  predicate Contradicts(row: ReportRow, p: Payment, issue: Issue) {
    match issue
    case AmountMismatch => row.amount != p.amount
    case ProviderPaid => row.amount == p.amount && SaysPaid(row.status) && Lower(p.status) != "paid"
    case ProviderFailed => row.amount == p.amount && SaysFailed(row.status) && Lower(p.status) == "pending"
    case _ => false
  }

  /** What a reported reference comes to, from the rows and the payments alone: its first row
      against the first payment in scope that bears it. */
  ghost predicate HasIssue(rows: seq<ReportRow>, payments: seq<Payment>, scope: Scope, reference: string,
      issue: Issue) {
    match issue
    case MissingInternal => NoneBears(payments, scope, reference)
    case DuplicateReference => ReportedTwice(rows, reference)
    case _ =>
      exists r: nat, p: nat :: FirstReported(rows, reference, r) && FirstBearing(payments, scope, reference, p)
                     && Contradicts(rows[r], payments[p], issue)
  }

  ghost predicate IsMatched(rows: seq<ReportRow>, payments: seq<Payment>, scope: Scope, reference: string) {
    forall issue :: issue in MISMATCHES ==> !HasIssue(rows, payments, scope, reference, issue)
  }

  lemma {:induction false} FindIsFirst(payments: seq<Payment>, scope: Scope, reference: string) returns (k: nat)
    ensures FindPayment(payments, scope, reference).None? <==> NoneBears(payments, scope, reference)
    ensures FindPayment(payments, scope, reference).Some? ==>
              FirstBearing(payments, scope, reference, k)
                  && payments[k] == FindPayment(payments, scope, reference).value
  {
    k := 0;
    if payments != [] {
      var rest := payments[1..];
      var n := FindIsFirst(rest, scope, reference);
      assert forall j :: 1 <= j < |payments| ==> payments[j] == rest[j - 1];
      if !Bears(payments[0], scope, reference) {
        k := n + 1;
        if FindPayment(payments, scope, reference).None? {
          forall j | 0 <= j < |payments|
            ensures !Bears(payments[j], scope, reference)
          {
            if 0 < j { assert !Bears(rest[j - 1], scope, reference); }
          }
        } else {
          forall j | 0 <= j < k
            ensures !Bears(payments[j], scope, reference)
          {
            if 0 < j { assert !Bears(rest[j - 1], scope, reference); }
          }
        }
      }
    }
  }

  /** The rows of a reference: none, or the first one reported, and more than one exactly if
      two rows report it. */
  lemma {:induction false} RowsOfAre(rows: seq<ReportRow>, reference: string) returns (r: nat)
    ensures RowsOf(rows, reference) == [] <==> forall j :: 0 <= j < |rows| ==> Strip(rows[j].reference) != reference
    ensures RowsOf(rows, reference) != [] ==> FirstReported(rows, reference, r) && rows[r] == RowsOf(rows, reference)[0]
    ensures |RowsOf(rows, reference)| > 1
            <==> ReportedTwice(rows, reference)
  {
    hide Strip;
    r := 0;
    if rows != [] {
      var front, n := rows[..|rows| - 1], |rows| - 1;
      r := RowsOfAre(front, reference);
      assert forall j :: 0 <= j < n ==> rows[j] == front[j];
      if RowsOf(front, reference) == [] {
        assert forall j :: 0 <= j < n ==> Strip(front[j].reference) != reference;
        r := n;
      } else {
        assert FirstReported(rows, reference, r);
      }
      TwoReported(rows, reference);
    }
  }

  lemma TwoReported(rows: seq<ReportRow>, reference: string)
    requires rows != []
    ensures var front, n := rows[..|rows| - 1], |rows| - 1;
            ReportedTwice(rows, reference)
            <==> ReportedTwice(front, reference)
                 || (Strip(rows[n].reference) == reference && IsReported(front, reference))
  {
    hide Strip;
    var front, n := rows[..|rows| - 1], |rows| - 1;
    assert forall j :: 0 <= j < n ==> rows[j] == front[j];
    if i, j :| 0 <= i < j < n && Strip(front[i].reference) == reference == Strip(front[j].reference) {
      assert Strip(rows[i].reference) == reference == Strip(rows[j].reference);
    }
    if i :| 0 <= i < n && Strip(rows[n].reference) == reference == Strip(front[i].reference) {
      assert Strip(rows[i].reference) == reference == Strip(rows[n].reference);
    }
  }

  /** The verdict on a reported reference is what it comes to. */
  lemma VerdictIff(rows: seq<ReportRow>, payments: seq<Payment>, scope: Scope, reference: string, issue: Issue)
    requires issue in MISMATCHES && IsReported(rows, reference)
    ensures VerdictOf(rows, payments, scope, reference) == Differs(issue)
            <==> HasIssue(rows, payments, scope, reference, issue)
  {
    hide Strip, Lower, RowsOf, FindPayment;
    var r := RowsOfAre(rows, reference);
    var p := FindIsFirst(payments, scope, reference);
    FirstReportedIsUnique(rows, reference);
    BearingIsUnique(payments, scope, reference);
    if FindPayment(payments, scope, reference).Some? {
      assert FirstReported(rows, reference, r) && FirstBearing(payments, scope, reference, p);
      if issue != MissingInternal { ComparedAs(rows[r], payments[p], issue); }
    }
  }

  lemma ComparedAs(row: ReportRow, p: Payment, issue: Issue)
    requires issue in MISMATCHES && issue != MissingInternal
    ensures Compare(row, Some(p)) == Differs(issue) <==> Contradicts(row, p, issue)
  {
    hide Lower, Strip;
    assert SaysPaid(row.status) <==> NormalizeStatus(row.status) == "paid";
    assert SaysFailed(row.status) <==> NormalizeStatus(row.status) == "failed";
  }

  lemma FirstReportedIsUnique(rows: seq<ReportRow>, reference: string)
    ensures forall i: nat, j: nat :: FirstReported(rows, reference, i) && FirstReported(rows, reference, j) ==> i == j
  {
    hide Strip;
  }

  lemma BearingIsUnique(payments: seq<Payment>, scope: Scope, reference: string)
    ensures forall i: nat, j: nat ::
              FirstBearing(payments, scope, reference, i) && FirstBearing(payments, scope, reference, j) ==> i == j
    ensures forall k: nat :: FirstBearing(payments, scope, reference, k) ==> !NoneBears(payments, scope, reference)
  {
    hide Bears;
  }

  /** The references scanned are the reported ones. */
  lemma ScannedAreReported(rows: seq<ReportRow>)
    ensures (set r | r in References(rows)) == Reported(rows) && |References(rows)| == |Reported(rows)|
    ensures forall r :: r in References(rows) ==> IsReported(rows, r)
  {
    hide Strip, RowsOf, References;
    ReferencesAre(rows);
    forall r
      ensures r in References(rows) <==> r in Reported(rows)
      ensures r in References(rows) ==> IsReported(rows, r)
    {
      var k := RowsOfAre(rows, r);
    }
    DistinctSize(References(rows));
  }

  lemma {:induction false} DistinctSize<T(!new)>(s: seq<T>)
    requires Distinct(s)
    ensures |set x | x in s| == |s|
  {
    if s == [] {
      assert (set x | x in s) == {};
    } else {
      var front, last := s[..|s| - 1], s[|s| - 1];
      DistinctSize(front);
      assert (set x | x in s) == (set x | x in front) + {last};
    }
  }

  /** The references among these that come to this issue. */
  ghost function Having(refs: seq<string>, rows: seq<ReportRow>, payments: seq<Payment>, scope: Scope,
                        issue: Issue): set<string>
  {
    set r | r in refs && HasIssue(rows, payments, scope, r, issue)
  }

  ghost function Matched(refs: seq<string>, rows: seq<ReportRow>, payments: seq<Payment>, scope: Scope): set<string> {
    set r | r in refs && IsMatched(rows, payments, scope, r)
  }

  predicate AreReported(refs: seq<string>, rows: seq<ReportRow>) {
    forall r :: r in refs ==> IsReported(rows, r)
  }

  lemma FrontReported(refs: seq<string>, rows: seq<ReportRow>)
    requires refs != [] && AreReported(refs, rows)
    ensures AreReported(refs[..|refs| - 1], rows)
    ensures IsReported(rows, refs[|refs| - 1])
  {
    hide Strip;
    assert refs[|refs| - 1] in refs;
    forall r | r in refs[..|refs| - 1]
      ensures IsReported(rows, r)
    {
      assert r in refs;
    }
  }

  /** Each counter is the number of references with its issue. */
  lemma {:induction false} CountIsHaving(refs: seq<string>, rows: seq<ReportRow>, payments: seq<Payment>, scope: Scope,
      issue: Issue)
    requires Distinct(refs) && AreReported(refs, rows) && issue in MISMATCHES
    ensures Count(MatchRecords(refs, rows, payments, scope), issue) == |Having(refs, rows, payments, scope, issue)|
  {
    hide VerdictOf, FindPayment, HasIssue, Strip;
    if refs == [] {
      assert Having(refs, rows, payments, scope, issue) == {};
    } else {
      var front, last := refs[..|refs| - 1], refs[|refs| - 1];
      FrontReported(refs, rows);
      CountIsHaving(front, rows, payments, scope, issue);
      VerdictIff(rows, payments, scope, last, issue);
      var more := VerdictRecord(VerdictOf(rows, payments, scope, last), last, FindPayment(payments, scope, last));
      CountConcat(MatchRecords(front, rows, payments, scope), more, issue);
      CountOne(more, issue);
      HavingStep(refs, rows, payments, scope, issue);
    }
  }

  lemma CountOne(records: seq<Record>, issue: Issue)
    requires |records| <= 1
    ensures Count(records, issue) == if records != [] && records[0].issue == issue then 1 else 0
  {
  }

  lemma HavingStep(refs: seq<string>, rows: seq<ReportRow>, payments: seq<Payment>, scope: Scope, issue: Issue)
    requires refs != [] && Distinct(refs)
    ensures var last := refs[|refs| - 1];
            |Having(refs, rows, payments, scope, issue)|
            == |Having(refs[..|refs| - 1], rows, payments, scope, issue)|
               + (if HasIssue(rows, payments, scope, last, issue) then 1 else 0)
  {
    hide HasIssue;
    var front, last := refs[..|refs| - 1], refs[|refs| - 1];
    if HasIssue(rows, payments, scope, last, issue) {
      assert Having(refs, rows, payments, scope, issue) == Having(front, rows, payments, scope, issue) + {last};
    } else {
      assert Having(refs, rows, payments, scope, issue) == Having(front, rows, payments, scope, issue);
    }
  }

  /** A reference is matched exactly when the verdict has nothing against it. */
  lemma AgreesIff(rows: seq<ReportRow>, payments: seq<Payment>, scope: Scope, reference: string)
    requires IsReported(rows, reference)
    ensures VerdictOf(rows, payments, scope, reference) == Agrees <==> IsMatched(rows, payments, scope, reference)
  {
    hide Strip, HasIssue, VerdictOf;
    forall issue | issue in MISMATCHES
      ensures VerdictOf(rows, payments, scope, reference) == Differs(issue)
              <==> HasIssue(rows, payments, scope, reference, issue)
    {
      VerdictIff(rows, payments, scope, reference, issue);
    }
    var v := VerdictOf(rows, payments, scope, reference);
    if v != Agrees { assert v == Differs(v.issue); }
  }

  lemma {:induction false} MatchedAreTheRest(refs: seq<string>, rows: seq<ReportRow>, payments: seq<Payment>,
      scope: Scope)
    requires Distinct(refs) && AreReported(refs, rows)
    ensures |Matched(refs, rows, payments, scope)| + |MatchRecords(refs, rows, payments, scope)| == |refs|
  {
    hide VerdictOf, FindPayment, HasIssue, Strip, IsMatched;
    if refs == [] {
      assert Matched(refs, rows, payments, scope) == {};
    } else {
      var front, last := refs[..|refs| - 1], refs[|refs| - 1];
      FrontReported(refs, rows);
      MatchedAreTheRest(front, rows, payments, scope);
      AgreesIff(rows, payments, scope, last);
      if IsMatched(rows, payments, scope, last) {
        assert Matched(refs, rows, payments, scope) == Matched(front, rows, payments, scope) + {last};
      } else {
        assert Matched(refs, rows, payments, scope) == Matched(front, rows, payments, scope);
      }
    }
  }

  lemma {:induction false} DuplicatesAre(refs: seq<string>, rows: seq<ReportRow>, payments: seq<Payment>, scope: Scope)
    requires Distinct(refs)
    ensures |DuplicateRecords(refs, rows)| == |Having(refs, rows, payments, scope, DuplicateReference)|
  {
    hide RowsOf, Strip;
    if refs == [] {
      assert Having(refs, rows, payments, scope, DuplicateReference) == {};
    } else {
      var front, last := refs[..|refs| - 1], refs[|refs| - 1];
      DuplicatesAre(front, rows, payments, scope);
      var r := RowsOfAre(rows, last);
      HavingStep(refs, rows, payments, scope, DuplicateReference);
    }
  }

  /** The rows without a reference. */
  function BlankRows(rows: seq<ReportRow>): set<nat> {
    set k | 0 <= k < |rows| && Strip(rows[k].reference) == ""
  }

  lemma {:induction false} BlanksAre(rows: seq<ReportRow>)
    ensures |EmptyRecords(rows)| == |BlankRows(rows)|
  {
    hide Strip;
    if rows == [] {
      assert BlankRows(rows) == {};
    } else {
      var front, n := rows[..|rows| - 1], |rows| - 1;
      BlanksAre(front);
      if Strip(rows[n].reference) == "" {
        assert BlankRows(rows) == BlankRows(front) + {n};
      } else {
        assert BlankRows(rows) == BlankRows(front);
      }
    }
  }

  /** A known gateway payment in scope that was not matched with any reported reference and
      whose own reference is not reported. */
  ghost predicate MissesProvider(rows: seq<ReportRow>, payments: seq<Payment>, scope: Scope, k: nat)
    requires k < |payments|
  {
    var p := payments[k];
    && p.gatewayType.Some? && (p.status == "pending" || p.status == "paid" || p.status == "needs_reconciliation")
    && (scope.company != "" ==> p.company == scope.company)
    && (scope.gatewayType != "" ==> p.gatewayType == Some(scope.gatewayType))
    && p.reference != "" && Strip(p.reference) !in Reported(rows)
    && forall r, q: nat :: r in Reported(rows) && FirstBearing(payments, scope, r, q) ==> payments[q].id != p.id
  }

  lemma {:induction false} MatchedIdsAre(refs: seq<string>, payments: seq<Payment>, scope: Scope, id: nat)
    ensures id in MatchedIds(refs, payments, scope)
            <==> exists r, q: nat :: r in refs && FirstBearing(payments, scope, r, q) && payments[q].id == id
  {
    hide FindPayment, Bears;
    if refs != [] {
      var front, last := refs[..|refs| - 1], refs[|refs| - 1];
      MatchedIdsAre(front, payments, scope, id);
      var q := FindIsFirst(payments, scope, last);
      BearingIsUnique(payments, scope, last);
      assert forall r :: r in refs <==> r in front || r == last;
    }
  }

  lemma MissesIff(rows: seq<ReportRow>, payments: seq<Payment>, scope: Scope, k: nat)
    requires k < |payments|
    ensures MissesProvider(rows, payments, scope, k)
            <==> Unmatched(payments[k], MatchedIds(References(rows), payments, scope), scope)
                 && Unreported(payments[k], References(rows))
  {
    hide Strip, Reported, MatchedIds, References, FirstBearing;
    ScannedAreReported(rows);
    assert forall r :: r in Reported(rows) <==> r in References(rows);
    MatchedIdsAre(References(rows), payments, scope, payments[k].id);
  }

  /** Positions of the payments the last loop reports when it may look at all. */
  function MissingPositions(payments: seq<Payment>, ids: set<nat>, scope: Scope, refs: seq<string>): set<nat> {
    set k | 0 <= k < |payments| && Unmatched(payments[k], ids, scope) && Unreported(payments[k], refs)
  }

  lemma {:induction false} MissingAre(payments: seq<Payment>, ids: set<nat>, scope: Scope, refs: seq<string>)
    ensures |MissingRecords(UnmatchedPayments(payments, ids, scope), refs)|
            == |MissingPositions(payments, ids, scope, refs)|
  {
    hide Unmatched, Unreported;
    if payments == [] {
      assert MissingPositions(payments, ids, scope, refs) == {};
    } else {
      hide MissingPositions, MissingRecords;
      var front, last := payments[..|payments| - 1], payments[|payments| - 1];
      MissingAre(front, ids, scope, refs);
      PositionsStep(payments, ids, scope, refs);
      if Unmatched(last, ids, scope) {
        MissingStep(UnmatchedPayments(front, ids, scope), last, refs);
      } else {
        assert UnmatchedPayments(payments, ids, scope) == UnmatchedPayments(front, ids, scope);
      }
    }
  }

  lemma MissingStep(candidates: seq<Payment>, last: Payment, refs: seq<string>)
    ensures |MissingRecords(candidates + [last], refs)|
            == |MissingRecords(candidates, refs)| + (if Unreported(last, refs) then 1 else 0)
  {
    hide Unreported;
    assert (candidates + [last])[..|candidates|] == candidates;
  }

  lemma PositionsStep(payments: seq<Payment>, ids: set<nat>, scope: Scope, refs: seq<string>)
    requires payments != []
    ensures var front, last := payments[..|payments| - 1], payments[|payments| - 1];
            |MissingPositions(payments, ids, scope, refs)|
            == |MissingPositions(front, ids, scope, refs)|
               + (if Unmatched(last, ids, scope) && Unreported(last, refs) then 1 else 0)
  {
    hide Unmatched, Unreported;
    var front, n := payments[..|payments| - 1], |payments| - 1;
    if Unmatched(payments[n], ids, scope) && Unreported(payments[n], refs) {
      assert MissingPositions(payments, ids, scope, refs) == MissingPositions(front, ids, scope, refs) + {n};
    } else {
      assert MissingPositions(payments, ids, scope, refs) == MissingPositions(front, ids, scope, refs);
    }
  }

  /** The reported references that come to this issue. */
  ghost function IssuesOf(rows: seq<ReportRow>, payments: seq<Payment>, scope: Scope, issue: Issue): set<string> {
    set r | r in Reported(rows) && HasIssue(rows, payments, scope, r, issue)
  }

  ghost function MatchedOf(rows: seq<ReportRow>, payments: seq<Payment>, scope: Scope): set<string> {
    set r | r in Reported(rows) && IsMatched(rows, payments, scope, r)
  }

  ghost function Missed(rows: seq<ReportRow>, payments: seq<Payment>, scope: Scope): set<nat> {
    set k | 0 <= k < |payments| && MissesProvider(rows, payments, scope, k)
  }

  /** What the records add up to, from the rows and the payments alone. */
  lemma RecordsMean(rows: seq<ReportRow>, payments: seq<Payment>, scope: Scope)
    ensures var refs := References(rows);
            && |EmptyRecords(rows)| == |BlankRows(rows)|
            && |DuplicateRecords(refs, rows)| == |IssuesOf(rows, payments, scope, DuplicateReference)|
            && (forall issue :: issue in MISMATCHES ==>
                  Count(MatchRecords(refs, rows, payments, scope), issue) == |IssuesOf(rows, payments, scope, issue)|)
            && |MatchedOf(rows, payments, scope)| + |MatchRecords(refs, rows, payments, scope)| == |refs|
            && |refs| == |Reported(rows)|
            && |MissingRecords(UnmatchedPayments(payments, MatchedIds(refs, payments, scope), scope), refs)|
               == |Missed(rows, payments, scope)|
  {
    hide References, EmptyRecords, DuplicateRecords, MatchRecords, MissingRecords, UnmatchedPayments, MatchedIds, Count,
      HasIssue, IsMatched, RowsOf, Strip, BlankRows, Reported, MissesProvider, Unmatched, Unreported;
    var refs := References(rows);
    ReferencesAre(rows);
    ScannedAreReported(rows);
    BlanksAre(rows);
    SameReferences(refs, rows, payments, scope);
    DuplicatesAre(refs, rows, payments, scope);
    forall issue | issue in MISMATCHES
      ensures Count(MatchRecords(refs, rows, payments, scope), issue) == |IssuesOf(rows, payments, scope, issue)|
    {
      CountIsHaving(refs, rows, payments, scope, issue);
    }
    MatchedAreTheRest(refs, rows, payments, scope);
    var ids := MatchedIds(refs, payments, scope);
    MissingAre(payments, ids, scope, refs);
    forall k | 0 <= k < |payments|
      ensures MissesProvider(rows, payments, scope, k)
              <==> Unmatched(payments[k], ids, scope) && Unreported(payments[k], refs)
    {
      MissesIff(rows, payments, scope, k);
    }
    assert Missed(rows, payments, scope) == MissingPositions(payments, ids, scope, refs);
  }

  lemma SameReferences(refs: seq<string>, rows: seq<ReportRow>, payments: seq<Payment>, scope: Scope)
    requires (set r | r in refs) == Reported(rows)
    ensures forall issue :: Having(refs, rows, payments, scope, issue) == IssuesOf(rows, payments, scope, issue)
    ensures Matched(refs, rows, payments, scope) == MatchedOf(rows, payments, scope)
  {
    hide HasIssue, IsMatched, Reported;
    assert forall r :: r in refs <==> r in Reported(rows);
  }

  lemma {:induction false} MatchRecordsAre(refs: seq<string>, rows: seq<ReportRow>, payments: seq<Payment>,
      scope: Scope, r: Record)
    requires AreReported(refs, rows)
    ensures r in MatchRecords(refs, rows, payments, scope)
            <==> r.reference in refs && r.issue in MISMATCHES && HasIssue(rows, payments, scope, r.reference, r.issue)
                 && r.payment == IdOf(FindPayment(payments, scope, r.reference))
  {
    hide VerdictOf, FindPayment, HasIssue, Strip, IdOf;
    if refs != [] {
      var front, last := refs[..|refs| - 1], refs[|refs| - 1];
      FrontReported(refs, rows);
      MatchRecordsAre(front, rows, payments, scope, r);
      var v := VerdictOf(rows, payments, scope, last);
      if r.issue in MISMATCHES { VerdictIff(rows, payments, scope, last, r.issue); }
      assert r.reference in refs <==> r.reference in front || r.reference == last;
      assert r in VerdictRecord(v, last, FindPayment(payments, scope, last))
             <==> r.reference == last && v == Differs(r.issue) && r.payment == IdOf(FindPayment(payments, scope, last));
    }
  }

  /** The first payment in scope that bears the reference has this id, or there is none. */
  ghost predicate ComparedWith(payments: seq<Payment>, scope: Scope, reference: string, id: Option<nat>) {
    match id
    case None => NoneBears(payments, scope, reference)
    case Some(n) => exists p: nat :: FirstBearing(payments, scope, reference, p) && payments[p].id == n
  }

  /** A mismatch is recorded exactly for the reported references that come to it, with the
      payment compared, if there is one. */
  lemma RecordedIff(rows: seq<ReportRow>, payments: seq<Payment>, scope: Scope, limit: nat, r: Record)
    requires r.issue in MISMATCHES
    ensures r in AllRecords(rows, payments, scope, limit)
            <==> && r.reference in Reported(rows) && HasIssue(rows, payments, scope, r.reference, r.issue)
                 && ComparedWith(payments, scope, r.reference, r.payment)
  {
    hide References, EmptyRecords, DuplicateRecords, MatchRecords, MissingRecords, Candidates, HasIssue, Reported,
      FindPayment, NoneBears, FirstBearing;
    var refs := References(rows);
    ScannedAreReported(rows);
    MatchRecordsAre(refs, rows, payments, scope, r);
    var p := FindIsFirst(payments, scope, r.reference);
    BearingIsUnique(payments, scope, r.reference);
    assert r.reference in Reported(rows) <==> r.reference in refs;
    InAllRecords(rows, payments, scope, limit, r);
  }

  lemma InAllRecords(rows: seq<ReportRow>, payments: seq<Payment>, scope: Scope, limit: nat, r: Record)
    requires r.issue in MISMATCHES
    ensures r in AllRecords(rows, payments, scope, limit)
            <==> r in MatchRecords(References(rows), rows, payments, scope)
  {
    hide References, EmptyRecords, DuplicateRecords, MatchRecords, MissingRecords, Candidates;
    var refs := References(rows);
    var empty, duplicate := EmptyRecords(rows), DuplicateRecords(refs, rows);
    var mismatch := MatchRecords(refs, rows, payments, scope);
    var missing := MissingRecords(Candidates(rows, payments, scope, limit), refs);
    assert AllRecords(rows, payments, scope, limit) == empty + duplicate + mismatch + missing;
    assert r !in empty && r !in duplicate && r !in missing;
  }

  // ---------------------------------------------------------------------- The run

  /** `reconcile`. The records are those of the four stages, each counter is the number of
      records with its issue and the number of reported references that come to it, and every
      reference scanned is either matched or recorded. */
  method Reconcile(rows: seq<ReportRow>, payments: seq<Payment>, scope: Scope, limit: nat) returns (s: Summary)
    ensures s.records == AllRecords(rows, payments, scope, limit)
    ensures s.scanned == |References(rows)| == s.matched + s.missingInternal + s.amountMismatch + s.statusMismatch
    ensures s.errors == Count(s.records, EmptyReference)
    ensures s.duplicates == Count(s.records, DuplicateReference)
    ensures s.missingInternal == Count(s.records, MissingInternal)
    ensures s.amountMismatch == Count(s.records, AmountMismatch)
    ensures s.statusMismatch == Count(s.records, ProviderPaid) + Count(s.records, ProviderFailed)
    ensures s.missingInProvider == Count(s.records, MissingInProvider) <= limit
    ensures |s.records| == s.errors + s.duplicates + s.missingInternal + s.amountMismatch + s.statusMismatch
            + s.missingInProvider
    ensures s.HasIssues() <==> s.records != []
    ensures s.scanned == |Reported(rows)| && s.errors == |BlankRows(rows)|
    ensures s.matched == |MatchedOf(rows, payments, scope)|
    ensures s.duplicates == |IssuesOf(rows, payments, scope, DuplicateReference)|
    ensures s.missingInternal == |IssuesOf(rows, payments, scope, MissingInternal)|
    ensures s.amountMismatch == |IssuesOf(rows, payments, scope, AmountMismatch)|
    ensures s.statusMismatch
            == |IssuesOf(rows, payments, scope, ProviderPaid)| + |IssuesOf(rows, payments, scope, ProviderFailed)|
    ensures |UnmatchedPayments(payments, MatchedIds(References(rows), payments, scope), scope)| <= limit ==>
              s.missingInProvider == |Missed(rows, payments, scope)|
  {
    hide Count, RowsOf, References, EmptyRecords, DuplicateRecords, MatchRecords, MissingRecords, UnmatchedPayments,
      MatchedIds, AllHave, HasIssue, IsMatched, Reported, BlankRows, MissesProvider, IssuesOf, MatchedOf, Missed;
    RecordsMean(rows, payments, scope);
    var refs, groups, empty := GroupRows(rows);
    var duplicate := ReportDuplicates(rows, refs, groups);
    var matched, missingInternal, amountMismatch, statusMismatch, ids,
        mismatch := MatchRows(rows, refs, groups, payments, scope);
    var missing := ReportMissing(payments, ids, scope, limit, refs);
    s := Summary(|refs|, matched, |missing|, missingInternal, amountMismatch, statusMismatch, |duplicate|, |empty|,
                 empty + duplicate + mismatch + missing);
    forall issue ensures Count(s.records, issue) == match issue
                           case EmptyReference => |empty|
                           case DuplicateReference => |duplicate|
                           case MissingInProvider => |missing|
                           case _ => Count(mismatch, issue)
    {
      CountsByStage(empty, duplicate, mismatch, missing, issue);
    }
    CountsSum(s.records);
  }

  /** The first loop: rows grouped by reference, and a record per row without one. */
  method GroupRows(rows: seq<ReportRow>)
    returns (refs: seq<string>, groups: map<string, seq<ReportRow>>, empty: seq<Record>)
    ensures refs == References(rows)
    ensures forall r :: r in groups <==> r in refs
    ensures forall r :: r in refs ==> groups[r] == RowsOf(rows, r) && groups[r] != []
    ensures empty == EmptyRecords(rows)
  {
    refs, groups, empty := [], map[], [];
    for k := 0 to |rows|
      invariant refs == References(rows[..k])
      invariant forall r :: r in groups <==> r in refs
      invariant forall r :: r in groups ==> groups[r] == RowsOf(rows[..k], r)
      invariant empty == EmptyRecords(rows[..k])
    {
      assert rows[..k + 1][..k] == rows[..k] && rows[..k + 1][k] == rows[k];
      ReferencesAre(rows[..k]);
      var reference := Strip(rows[k].reference);
      forall r ensures RowsOf(rows[..k + 1], r) == RowsOf(rows[..k], r) + (if reference == r then [rows[k]] else []) {}
      hide Strip, RowsOf;
      if reference == "" {
        empty := empty + [Record(EmptyReference, "", None)];
      } else if reference in groups {
        groups := groups[reference := groups[reference] + [rows[k]]];
      } else {
        refs := refs + [reference];
        groups := groups[reference := [rows[k]]];
      }
    }
    assert rows[..|rows|] == rows;
    ReferencesAre(rows);
  }

  /** The second loop: references reported more than once. */
  method ReportDuplicates(rows: seq<ReportRow>, refs: seq<string>, groups: map<string, seq<ReportRow>>)
    returns (duplicate: seq<Record>)
    requires forall r :: r in refs ==> r in groups && groups[r] == RowsOf(rows, r)
    ensures duplicate == DuplicateRecords(refs, rows)
  {
    hide RowsOf;
    duplicate := [];
    for k := 0 to |refs|
      invariant duplicate == DuplicateRecords(refs[..k], rows)
    {
      assert refs[..k + 1][..k] == refs[..k];
      if |groups[refs[k]]| > 1 {
        duplicate := duplicate + [Record(DuplicateReference, refs[k], None)];
      }
    }
    assert refs[..|refs|] == refs;
  }

  /** The third loop: each reference's first row against the payment found for it. */
  method MatchRows(rows: seq<ReportRow>, refs: seq<string>, groups: map<string, seq<ReportRow>>,
                   payments: seq<Payment>, scope: Scope)
    returns (matched: nat, missingInternal: nat, amountMismatch: nat, statusMismatch: nat, ids: set<nat>,
        records: seq<Record>)
    requires forall r :: r in refs ==> r in groups && groups[r] == RowsOf(rows, r) && groups[r] != []
    ensures records == MatchRecords(refs, rows, payments, scope)
    ensures matched + |records| == |refs|
    ensures missingInternal == Count(records, MissingInternal)
    ensures amountMismatch == Count(records, AmountMismatch)
    ensures statusMismatch == Count(records, ProviderPaid) + Count(records, ProviderFailed)
    ensures ids == MatchedIds(refs, payments, scope)
  {
    hide FindPayment, Compare, RowsOf, VerdictOf, Lower, NormalizeStatus;
    assert refs[..0] == [] && refs[..|refs|] == refs;
    assert MatchRecords([], rows, payments, scope) == [] && MatchedIds([], payments, scope) == {};
    assert Counted([], 0, 0, 0);
    hide MatchRecords, MatchedIds, Count, Counted, AllHave;
    matched, missingInternal, amountMismatch, statusMismatch, ids, records := 0, 0, 0, 0, {}, [];
    for k := 0 to |refs|
      invariant records == MatchRecords(refs[..k], rows, payments, scope)
      invariant matched + |records| == k
      invariant Counted(records, missingInternal, amountMismatch, statusMismatch)
      invariant ids == MatchedIds(refs[..k], payments, scope)
    {
      var reference := refs[k];
      var row := groups[reference][0];
      var payment := FindPayment(payments, scope, reference);
      var verdict := Compare(row, payment);
      MatchStep(refs, k, rows, payments, scope);
      if payment.Some? {
        ids := ids + {payment.value.id};
      }
      if verdict.Agrees? {
        matched := matched + 1;
      } else {
        var record := Record(verdict.issue, reference, IdOf(payment));
        missingInternal, amountMismatch, statusMismatch :=
          CountIssue(records, record, missingInternal, amountMismatch, statusMismatch);
        records := records + [record];
      }
    }
    CountersAre(records, missingInternal, amountMismatch, statusMismatch);
  }

  predicate Counted(records: seq<Record>, missingInternal: nat, amountMismatch: nat, statusMismatch: nat) {
    && missingInternal == Count(records, MissingInternal)
    && amountMismatch == Count(records, AmountMismatch)
    && statusMismatch == Count(records, ProviderPaid) + Count(records, ProviderFailed)
  }

  lemma CountersAre(records: seq<Record>, missingInternal: nat, amountMismatch: nat, statusMismatch: nat)
    requires Counted(records, missingInternal, amountMismatch, statusMismatch)
    ensures missingInternal == Count(records, MissingInternal)
    ensures amountMismatch == Count(records, AmountMismatch)
    ensures statusMismatch == Count(records, ProviderPaid) + Count(records, ProviderFailed)
  {
  }

  /** One more record: its counter goes up by one. */
  method CountIssue(records: seq<Record>, r: Record, missingInternal: nat, amountMismatch: nat, statusMismatch: nat)
    returns (newInternal: nat, newAmount: nat, newStatus: nat)
    requires r.issue in MISMATCHES && Counted(records, missingInternal, amountMismatch, statusMismatch)
    ensures Counted(records + [r], newInternal, newAmount, newStatus)
  {
    newInternal, newAmount, newStatus := missingInternal, amountMismatch, statusMismatch;
    assert (records + [r])[..|records|] == records;
    if r.issue == MissingInternal {
      newInternal := missingInternal + 1;
    } else if r.issue == AmountMismatch {
      newAmount := amountMismatch + 1;
    } else {
      newStatus := statusMismatch + 1;
    }
  }

  lemma MatchStep(refs: seq<string>, k: nat, rows: seq<ReportRow>, payments: seq<Payment>, scope: Scope)
    requires k < |refs|
    ensures var p := FindPayment(payments, scope, refs[k]);
            && MatchedIds(refs[..k + 1], payments, scope)
               == (if p.Some? then MatchedIds(refs[..k], payments, scope) + {p.value.id}
                   else MatchedIds(refs[..k], payments, scope))
            && MatchRecords(refs[..k + 1], rows, payments, scope)
               == MatchRecords(refs[..k], rows, payments, scope)
                  + VerdictRecord(VerdictOf(rows, payments, scope, refs[k]), refs[k], p)
            && (RowsOf(rows, refs[k]) != [] ==>
                  VerdictOf(rows, payments, scope, refs[k]) == Compare(RowsOf(rows, refs[k])[0], p))
  {
    hide FindPayment, VerdictRecord, RowsOf, Compare;
    assert refs[..k + 1] == refs[..k] + [refs[k]];
    assert refs[..k + 1][..k] == refs[..k];
  }

  /** The last loop: unmatched payments whose reference the report does not have. */
  method ReportMissing(payments: seq<Payment>, ids: set<nat>, scope: Scope, limit: nat, refs: seq<string>)
    returns (missing: seq<Record>)
    ensures missing == MissingRecords(Take(UnmatchedPayments(payments, ids, scope), limit), refs)
    ensures |missing| <= limit
  {
    hide UnmatchedPayments, Unmatched, Strip, Missing;
    var candidates := Take(UnmatchedPayments(payments, ids, scope), limit);
    missing := [];
    for k := 0 to |candidates|
      invariant missing == MissingRecords(candidates[..k], refs)
      invariant |missing| <= k
    {
      assert candidates[..k + 1][..k] == candidates[..k];
      var p := candidates[k];
      if Unreported(p, refs) {
        missing := missing + [Missing(p)];
      }
    }
    assert candidates[..|candidates|] == candidates;
  }
}
