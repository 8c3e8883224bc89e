/** Concurrent technician-ledger writers (apps/payouts/services.py, `_write_entry`).

    The write is three statements: look the key up, recompute the balance, insert. Other
    writers may run between any two of them. The unique constraint on the key decides
    races at the insert, and the loser reads back the winner's row.

    Each insert is a transaction of its own here, and nobody waits. The original also locks
    the owner's last row, if there is one, which only takes schedules away. Inserts of an
    outer transaction stay unseen until it commits, which delays rows but adds none, so
    what is said of keys, entries and recomputed balances holds of it; when a stored balance
    is right is said for writers whose inserts are seen at once. */
module LedgerRace {
  import opened Ledgers
  import opened Options

  datatype Progress =
    | Start
    | Checked
    | Ready(balanceAfter: int, seen: nat)
    | Finished(result: Option<Row>)

  /** The shared table, and how far each writer is. Writer i writes requests[i]; one that is
      ready has computed its balance from the first `seen` rows. */
  datatype Race = Race(rows: seq<Row>, progress: seq<Progress>)

  function Find(rows: seq<Row>, key: Key): Option<Row> {
    if rows == [] then None
    else if rows[|rows| - 1].entry.key == key then Some(rows[|rows| - 1])
    else Find(rows[..|rows| - 1], key)
  }

  lemma {:induction false} FindIffHasKey(rows: seq<Row>, key: Key)
    ensures HasKey(rows, key) <==> Find(rows, key).Some?
    ensures Find(rows, key).Some? ==> Find(rows, key).value in rows && Find(rows, key).value.entry.key == key
  {
    if rows != [] {
      var front := rows[..|rows| - 1];
      FindIffHasKey(front, key);
      if rows[|rows| - 1].entry.key != key {
        assert forall i :: 0 <= i < |front| ==> front[i] == rows[i];
      }
    }
  }

  /** The next statement of writer `i`, if it has one. */
  function Step(race: Race, requests: seq<Entry>, i: nat): Race
    requires |race.progress| == |requests|
  {
    if i >= |requests| then race
    else
      var e := requests[i];
      match race.progress[i]
      case Start =>
        race.(progress := race.progress[i := if HasKey(race.rows, e.key) then Finished(None) else Checked])
      case Checked =>
        race.(progress := race.progress[i := Ready(GetBalance(race.rows, e.owner) + Signed(e), |race.rows|)])
      case Ready(balanceAfter, _) =>
        if HasKey(race.rows, e.key) || e.amount < 0 then
          race.(progress := race.progress[i := Finished(Find(race.rows, e.key))])
        else
          Race(race.rows + [Row(e, balanceAfter)],
               race.progress[i := Finished(Some(Row(e, balanceAfter)))])
      case Finished(_) => race
  }

  function Run(race: Race, requests: seq<Entry>, schedule: seq<nat>): Race
    requires |race.progress| == |requests|
    decreases |schedule|
  {
    if schedule == [] then race else Run(Step(race, requests, schedule[0]), requests, schedule[1..])
  }

  function Begin(rows: seq<Row>, requests: seq<Entry>): Race {
    Race(rows, seq(|requests|, _ => Start))
  }

  /** What every statement of every writer keeps. */
  predicate Invariant(initial: seq<Row>, race: Race, requests: seq<Entry>) {
    && |race.progress| == |requests|
    && initial <= race.rows
    && UniqueKeys(race.rows)
    && (forall i :: |initial| <= i < |race.rows| ==>
          race.rows[i].entry in requests && 0 <= race.rows[i].entry.amount)
    && (forall i :: 0 <= i < |requests| && race.progress[i].Finished? ==>
          (HasKey(race.rows, requests[i].key) || requests[i].amount < 0)
          && (race.progress[i].result.Some? ==>
                race.progress[i].result.value in race.rows
                && race.progress[i].result.value.entry.key == requests[i].key))
  }

  lemma StepKeepsInvariant(initial: seq<Row>, race: Race, requests: seq<Entry>, i: nat)
    requires Invariant(initial, race, requests)
    ensures Invariant(initial, Step(race, requests, i), requests)
  {
    var next := Step(race, requests, i);
    assert forall j :: 0 <= j < |race.rows| ==> next.rows[j] == race.rows[j];
    if i < |requests| {
      FindIffHasKey(race.rows, requests[i].key);
      if next.rows != race.rows { assert next.rows[|race.rows|].entry == requests[i]; }
    }
  }

  /** Under any interleaving: rows are only appended, keys stay unique, every new row is
      one of the requested entries, and a finished writer's key is in the table. */
  lemma {:induction false} EveryScheduleKeepsInvariant(initial: seq<Row>, race: Race, requests: seq<Entry>,
      schedule: seq<nat>)
    requires Invariant(initial, race, requests)
    ensures Invariant(initial, Run(race, requests, schedule), requests)
    decreases |schedule|
  {
    if schedule != [] {
      StepKeepsInvariant(initial, race, requests, schedule[0]);
      EveryScheduleKeepsInvariant(initial, Step(race, requests, schedule[0]), requests, schedule[1..]);
    }
  }

  /** Writers of one key ask for the same entry, as retries and replays do. */
  predicate Agree(requests: seq<Entry>) {
    forall i, j :: 0 <= i < |requests| && 0 <= j < |requests| && requests[i].key == requests[j].key
      ==> requests[i] == requests[j]
  }

  predicate AllFinished(race: Race) {
    forall i :: 0 <= i < |race.progress| ==> race.progress[i].Finished?
  }

  /** The entries of two tables, balances aside. */
  predicate SameEntries(a: seq<Row>, b: seq<Row>) {
    && (forall i :: 0 <= i < |a| ==> HasEntry(b, a[i].entry))
    && (forall i :: 0 <= i < |b| ==> HasEntry(a, b[i].entry))
  }

  predicate HasEntry(rows: seq<Row>, e: Entry) {
    exists i :: 0 <= i < |rows| && rows[i].entry == e
  }

  /** Whatever the interleaving, once all writers are done the table holds the entries a
      serial run would have written and every recomputed balance is that run's. Only the
      stored running balances may differ. */
  lemma InterleavingMatchesSerialRun(rows: seq<Row>, requests: seq<Entry>, schedule: seq<nat>, owner: Owner)
    requires UniqueKeys(rows) && Agree(requests)
    requires AllFinished(Run(Begin(rows, requests), requests, schedule))
    ensures var end := Run(Begin(rows, requests), requests, schedule).rows;
            var serial := PostAll(rows, requests);
            && UniqueKeys(end) && UniqueKeys(serial)
            && SameEntries(end, serial)
            && GetBalance(end, owner) == GetBalance(serial, owner)
  {
    var race := Run(Begin(rows, requests), requests, schedule);
    var end, serial := race.rows, PostAll(rows, requests);
    EveryScheduleKeepsInvariant(rows, Begin(rows, requests), requests, schedule);
    SerialRunEntries(rows, requests);
    RunPostsAll(rows, requests);
    forall i | 0 <= i < |requests| && 0 <= requests[i].amount
      ensures HasKey(end, requests[i].key)
    {
      assert race.progress[i].Finished?;
    }
    Covers(rows, requests, end, serial);
    Covers(rows, requests, serial, end);
    SameEntriesSameBalance(end, serial, owner);
    GetBalanceIsSignedSum(end, owner);
    GetBalanceIsSignedSum(serial, owner);
  }

  /** A table that extends `rows` by requested entries. */
  predicate Grown(rows: seq<Row>, requests: seq<Entry>, table: seq<Row>) {
    && rows <= table && UniqueKeys(table)
    && forall i :: |rows| <= i < |table| ==> table[i].entry in requests && 0 <= table[i].entry.amount
  }

  lemma {:induction false} SerialRunEntries(rows: seq<Row>, requests: seq<Entry>)
    requires UniqueKeys(rows)
    ensures Grown(rows, requests, PostAll(rows, requests))
    decreases |requests|
  {
    if requests != [] {
      var next := Post(rows, requests[0]);
      SerialRunEntries(next, requests[1..]);
      var table := PostAll(rows, requests);
      forall i | |rows| <= i < |table|
        ensures table[i].entry in requests && 0 <= table[i].entry.amount
      {
        if i < |next| { assert table[i] == next[i] && next[i].entry == requests[0]; }
      }
    }
  }

  lemma Covers(rows: seq<Row>, requests: seq<Entry>, a: seq<Row>, b: seq<Row>)
    requires Agree(requests)
    requires Grown(rows, requests, a) && Grown(rows, requests, b)
    requires forall i :: 0 <= i < |requests| && 0 <= requests[i].amount ==> HasKey(b, requests[i].key)
    ensures forall i :: 0 <= i < |a| ==> HasEntry(b, a[i].entry)
  {
    forall i | 0 <= i < |a|
      ensures HasEntry(b, a[i].entry)
    {
      if i < |rows| {
        assert b[i] == rows[i] == a[i];
      } else {
        var r :| 0 <= r < |requests| && requests[r] == a[i].entry;
        assert HasKey(b, requests[r].key);
        var j :| 0 <= j < |b| && b[j].entry.key == a[i].entry.key;
        assert forall n :: 0 <= n < |rows| ==> a[n] == rows[n] && b[n] == rows[n];
        assert |rows| <= j;
        assert b[j].entry in requests;
      }
    }
  }

  // ------------------------------- The signed sum depends on the entries alone

  function Without(rows: seq<Row>, k: nat): seq<Row>
    requires k < |rows|
  {
    rows[..k] + rows[k + 1..]
  }

  lemma {:induction false} SignedSumWithout(rows: seq<Row>, k: nat, owner: Owner)
    requires k < |rows|
    ensures SignedSum(rows, owner)
            == SignedSum(Without(rows, k), owner) + (if rows[k].entry.owner == owner then Signed(rows[k].entry) else 0)
  {
    hide Signed;
    var last := |rows| - 1;
    if k == last {
      assert Without(rows, k) == rows[..last];
    } else {
      var front, rest := rows[..last], Without(rows, k);
      SignedSumWithout(front, k, owner);
      hide Without;
      assert |rest| == last && rest[..last - 1] == Without(front, k)
             && rest[last - 1] == rows[last] by { WithoutLast(rows, k); }
    }
  }

  lemma WithoutLast(rows: seq<Row>, k: nat)
    requires k < |rows| - 1
    ensures var last, rest := |rows| - 1, Without(rows, k);
            |rest| == last && rest[..last - 1] == Without(rows[..last], k) && rest[last - 1] == rows[last]
  {
  }

  /** Taking the same entry out of both tables leaves the same entries. */
  lemma SameEntriesWithout(a: seq<Row>, b: seq<Row>, k: nat)
    requires UniqueKeys(a) && UniqueKeys(b) && SameEntries(a, b)
    requires a != [] && k < |b| && b[k].entry == a[|a| - 1].entry
    ensures UniqueKeys(Without(b, k)) && SameEntries(a[..|a| - 1], Without(b, k))
  {
    var front, rest := a[..|a| - 1], Without(b, k);
    assert forall i :: 0 <= i < |rest| ==> rest[i] == b[if i < k then i else i + 1];
    forall i | 0 <= i < |front|
      ensures HasEntry(rest, front[i].entry)
    {
      assert HasEntry(b, a[i].entry);
      var j :| 0 <= j < |b| && b[j].entry == a[i].entry;
      assert j != k;
      assert rest[if j < k then j else j - 1] == b[j];
    }
    forall i | 0 <= i < |rest|
      ensures HasEntry(front, rest[i].entry)
    {
      var j := if i < k then i else i + 1;
      assert HasEntry(a, b[j].entry);
      var m :| 0 <= m < |a| && a[m].entry == b[j].entry;
      assert m != |a| - 1;
      assert front[m] == a[m];
    }
  }

  lemma {:induction false} SameEntriesSameBalance(a: seq<Row>, b: seq<Row>, owner: Owner)
    requires UniqueKeys(a) && UniqueKeys(b) && SameEntries(a, b)
    ensures SignedSum(a, owner) == SignedSum(b, owner)
    decreases |a|
  {
    if b != [] { assert HasEntry(a, b[0].entry); }
    if a != [] {
      assert HasEntry(b, a[|a| - 1].entry);
      var k :| 0 <= k < |b| && b[k].entry == a[|a| - 1].entry;
      SameEntriesWithout(a, b, k);
      SameEntriesSameBalance(a[..|a| - 1], Without(b, k), owner);
      SignedSumWithout(b, k, owner);
    }
  }

  // ------------------------------------------------------- Stored running balances

  /** The next statement of writer `i` inserts its row. */
  predicate Inserts(race: Race, requests: seq<Entry>, i: nat)
    requires |race.progress| == |requests|
  {
    i < |requests| && race.progress[i].Ready? && !HasKey(race.rows, requests[i].key) && 0 <= requests[i].amount
  }

  /** The balance writer `i` is about to store is still the table's. */
  predicate Current(race: Race, requests: seq<Entry>, i: nat)
    requires |race.progress| == |requests| && Inserts(race, requests, i)
  {
    race.progress[i].balanceAfter == SignedSum(race.rows, requests[i].owner) + Signed(requests[i])
  }

  predicate EveryInsertCurrent(race: Race, requests: seq<Entry>, schedule: seq<nat>)
    requires |race.progress| == |requests|
    decreases |schedule|
  {
    schedule == []
    || (&& (Inserts(race, requests, schedule[0]) ==> Current(race, requests, schedule[0]))
        && EveryInsertCurrent(Step(race, requests, schedule[0]), requests, schedule[1..]))
  }

  /** No row of its owner came between writer `i`'s reading and its insert. */
  predicate Undisturbed(race: Race, requests: seq<Entry>, i: nat)
    requires |race.progress| == |requests| && Inserts(race, requests, i)
  {
    forall k :: race.progress[i].seen <= k < |race.rows| ==> race.rows[k].entry.owner != requests[i].owner
  }

  predicate EveryInsertUndisturbed(race: Race, requests: seq<Entry>, schedule: seq<nat>)
    requires |race.progress| == |requests|
    decreases |schedule|
  {
    schedule == []
    || (&& (Inserts(race, requests, schedule[0]) ==> Undisturbed(race, requests, schedule[0]))
        && EveryInsertUndisturbed(Step(race, requests, schedule[0]), requests, schedule[1..]))
  }

  lemma BalancesOfPrefix(rows: seq<Row>, more: seq<Row>)
    requires rows <= more && BalancesAreSums(more)
    ensures BalancesAreSums(rows)
  {
    forall i | 0 <= i < |rows|
      ensures rows[i].balanceAfter == SignedSum(rows[..i + 1], rows[i].entry.owner)
    {
      assert rows[..i + 1] == more[..i + 1] && rows[i] == more[i];
    }
  }

  /** Inserting keeps every stored balance a prefix sum exactly when the stored one is. */
  lemma InsertKeepsSumsIff(rows: seq<Row>, row: Row)
    requires BalancesAreSums(rows)
    ensures BalancesAreSums(rows + [row]) <==> row.balanceAfter == SignedSum(rows, row.entry.owner) + Signed(row.entry)
  {
    var after, n := rows + [row], |rows|;
    assert after[..n + 1] == after && after[..n] == rows && after[n] == row;
    forall i | 0 <= i < n
      ensures after[i].balanceAfter == SignedSum(after[..i + 1], after[i].entry.owner)
    {
      assert after[..i + 1] == rows[..i + 1];
    }
    hide Signed;
  }

  lemma StepAppends(race: Race, requests: seq<Entry>, i: nat)
    requires |race.progress| == |requests|
    ensures var next := Step(race, requests, i);
            next.rows == if Inserts(race, requests, i)
                then race.rows + [Row(requests[i], race.progress[i].balanceAfter)]
                         else race.rows
  {
    hide GetBalance, Find, Signed;
  }

  lemma {:induction false} RunAppends(race: Race, requests: seq<Entry>, schedule: seq<nat>)
    requires |race.progress| == |requests|
    ensures race.rows <= Run(race, requests, schedule).rows
    decreases |schedule|
  {
    if schedule != [] {
      StepAppends(race, requests, schedule[0]);
      RunAppends(Step(race, requests, schedule[0]), requests, schedule[1..]);
      hide Step, Inserts;
    }
  }

  /** For every schedule: all stored balances end up prefix sums if and only if every insert
      stored the balance the table had at that moment. */
  lemma {:induction false} StoredBalancesAreSumsIff(race: Race, requests: seq<Entry>, schedule: seq<nat>)
    requires |race.progress| == |requests| && BalancesAreSums(race.rows)
    ensures BalancesAreSums(Run(race, requests, schedule).rows) <==> EveryInsertCurrent(race, requests, schedule)
    decreases |schedule|
  {
    if schedule != [] {
      var i, next := schedule[0], Step(race, requests, schedule[0]);
      StepAppends(race, requests, i);
      hide Step, BalancesAreSums, SignedSum;
      if Inserts(race, requests, i) {
        InsertKeepsSumsIff(race.rows, Row(requests[i], race.progress[i].balanceAfter));
      }
      if BalancesAreSums(next.rows) {
        StoredBalancesAreSumsIff(next, requests, schedule[1..]);
      } else {
        var end := Run(next, requests, schedule[1..]).rows;
        RunAppends(next, requests, schedule[1..]);
        if BalancesAreSums(end) { BalancesOfPrefix(next.rows, end); }
      }
    }
  }

  /** What a ready writer holds was the table's balance when it had `seen` rows. */
  predicate ReadsAreSums(race: Race, requests: seq<Entry>) {
    && |race.progress| == |requests|
    && forall i :: 0 <= i < |requests| && race.progress[i].Ready? ==>
         && race.progress[i].seen <= |race.rows|
         && race.progress[i].balanceAfter
            == SignedSum(race.rows[..race.progress[i].seen], requests[i].owner) + Signed(requests[i])
  }

  lemma StepKeepsReads(race: Race, requests: seq<Entry>, i: nat)
    requires ReadsAreSums(race, requests)
    ensures ReadsAreSums(Step(race, requests, i), requests)
  {
    var next := Step(race, requests, i);
    StepAppends(race, requests, i);
    if i < |requests| {
      GetBalanceIsSignedSum(race.rows, requests[i].owner);
      assert race.rows[..|race.rows|] == race.rows;
    }
    hide SignedSum, GetBalance, Signed, HasKey, Find;
    forall j | 0 <= j < |requests| && next.progress[j].Ready?
      ensures next.progress[j].seen <= |next.rows|
      ensures next.progress[j].balanceAfter
              == SignedSum(next.rows[..next.progress[j].seen], requests[j].owner) + Signed(requests[j])
    {
      assert next.rows[..next.progress[j].seen] == race.rows[..next.progress[j].seen];
    }
  }

  /** Rows of other owners leave a sum alone. */
  lemma {:induction false} SumWithoutOwner(rows: seq<Row>, seen: nat, owner: Owner)
    requires seen <= |rows| && forall k :: seen <= k < |rows| ==> rows[k].entry.owner != owner
    ensures SignedSum(rows, owner) == SignedSum(rows[..seen], owner)
  {
    hide Signed;
    if seen == |rows| {
      assert rows[..seen] == rows;
    } else {
      var front := rows[..|rows| - 1];
      SumWithoutOwner(front, seen, owner);
      assert front[..seen] == rows[..seen];
    }
  }

  /** Rows that raise the balance raise the sum, strictly if one is the owner's. */
  lemma {:induction false} SumOfRaises(rows: seq<Row>, seen: nat, owner: Owner)
    requires seen <= |rows| && forall k :: seen <= k < |rows| ==> 0 < Signed(rows[k].entry)
    ensures SignedSum(rows[..seen], owner) <= SignedSum(rows, owner)
    ensures (exists k :: seen <= k < |rows| && rows[k].entry.owner == owner) ==>
              SignedSum(rows[..seen], owner) < SignedSum(rows, owner)
  {
    hide Signed;
    if seen == |rows| {
      assert rows[..seen] == rows;
    } else {
      var front := rows[..|rows| - 1];
      SumOfRaises(front, seen, owner);
      assert front[..seen] == rows[..seen];
      if k :| seen <= k < |rows| && rows[k].entry.owner == owner && k < |front| {
        assert front[k].entry.owner == owner;
      }
    }
  }

  /** Every entry asked for raises its owner's balance, as a technician's credits do. */
  predicate AllRaise(requests: seq<Entry>) {
    forall i :: 0 <= i < |requests| ==> 0 < Signed(requests[i])
  }

  /** Rows since the initial ones are among those asked for. */
  predicate Since(initial: nat, race: Race, requests: seq<Entry>) {
    && |race.progress| == |requests| && initial <= |race.rows|
    && (forall k :: initial <= k < |race.rows| ==> race.rows[k].entry in requests)
    && (forall i :: 0 <= i < |requests| && race.progress[i].Ready? ==> initial <= race.progress[i].seen)
  }

  lemma StepKeepsSince(initial: nat, race: Race, requests: seq<Entry>, i: nat)
    requires Since(initial, race, requests)
    ensures Since(initial, Step(race, requests, i), requests)
  {
    StepAppends(race, requests, i);
    hide SignedSum, GetBalance, Signed, HasKey, Find;
  }

  lemma CurrentIfUndisturbed(initial: nat, race: Race, requests: seq<Entry>, i: nat)
    requires ReadsAreSums(race, requests) && Since(initial, race, requests) && Inserts(race, requests, i)
    ensures Undisturbed(race, requests, i) ==> Current(race, requests, i)
    ensures AllRaise(requests) && Current(race, requests, i) ==> Undisturbed(race, requests, i)
  {
    hide SignedSum, Signed, HasKey;
    if Undisturbed(race, requests, i) {
      SumWithoutOwner(race.rows, race.progress[i].seen, requests[i].owner);
    } else if AllRaise(requests) {
      forall k | race.progress[i].seen <= k < |race.rows|
        ensures 0 < Signed(race.rows[k].entry)
      {
        var r :| 0 <= r < |requests| && requests[r] == race.rows[k].entry;
      }
      SumOfRaises(race.rows, race.progress[i].seen, requests[i].owner);
    }
  }

  lemma {:induction false} UndisturbedRun(initial: nat, race: Race, requests: seq<Entry>, schedule: seq<nat>)
    requires ReadsAreSums(race, requests) && Since(initial, race, requests)
    ensures EveryInsertUndisturbed(race, requests, schedule) ==> EveryInsertCurrent(race, requests, schedule)
    ensures AllRaise(requests) && EveryInsertCurrent(race, requests, schedule) ==>
            EveryInsertUndisturbed(race, requests, schedule)
    decreases |schedule|
  {
    if schedule != [] {
      var i := schedule[0];
      if Inserts(race, requests, i) { CurrentIfUndisturbed(initial, race, requests, i); }
      StepKeepsReads(race, requests, i);
      StepKeepsSince(initial, race, requests, i);
      hide Step, Inserts, Current, Undisturbed, ReadsAreSums, Since, AllRaise;
      UndisturbedRun(initial, Step(race, requests, i), requests, schedule[1..]);
    }
  }

  /** What a caller can see to: from a table whose balances are sums they stay so if no row
      of the same owner is inserted between any writer's reading and its insert, and if all
      entries raise the balance, only then. */
  lemma StoredBalancesAreSumsIfUndisturbed(rows: seq<Row>, requests: seq<Entry>, schedule: seq<nat>)
    requires BalancesAreSums(rows)
    ensures var race := Begin(rows, requests);
            var sums := BalancesAreSums(Run(race, requests, schedule).rows);
            && (EveryInsertUndisturbed(race, requests, schedule) ==> sums)
            && (AllRaise(requests) ==> (sums <==> EveryInsertUndisturbed(race, requests, schedule)))
  {
    var race := Begin(rows, requests);
    StoredBalancesAreSumsIff(race, requests, schedule);
    UndisturbedRun(|rows|, race, requests, schedule);
    hide Run, EveryInsertCurrent, EveryInsertUndisturbed, BalancesAreSums, AllRaise;
  }

  /** The admitted gap: any two first credits of one technician whose writers overlap store
      a running balance that is not the prefix sum, though the recomputed balance is right. */
  lemma StoredBalanceMayBeStale(e0: Entry, e1: Entry)
    requires e0.owner == e1.owner && e0.owner.Technician? && e0.kind == e1.kind == Credit
    requires 0 < e0.amount && 0 < e1.amount && e0.key != e1.key
    ensures var race := Run(Begin([], [e0, e1]), [e0, e1], [0, 1] + ([0, 1] + ([0, 1] + [])));
            && Agree([e0, e1]) && AllFinished(race)
            && !BalancesAreSums(race.rows)
  {
    var requests := [e0, e1];
    var begun, asked := Begin([], requests), Race([], [Checked, Checked]);
    var read := Race([], [Ready(e0.amount, 0), Ready(e1.amount, 0)]);
    var row0, row1 := Row(e0, e0.amount), Row(e1, e1.amount);
    var written := Race([row0, row1], [Finished(Some(row0)), Finished(Some(row1))]);
    BothCheck(begun, requests, asked);
    BothRead(e0, e1, asked, read);
    BothWrite(e0, e1, read, written);
    hide Step, BalancesAreSums;
    RunBoth(begun, requests, [0, 1] + ([0, 1] + []));
    RunBoth(asked, requests, [0, 1] + []);
    RunBoth(read, requests, []);
    StaleTable(e0, e1);
  }

  lemma RunBoth(race: Race, requests: seq<Entry>, schedule: seq<nat>)
    requires |race.progress| == |requests|
    ensures Run(race, requests, [0, 1] + schedule)
            == Run(Step(Step(race, requests, 0), requests, 1), requests, schedule)
  {
    hide Step;
    var rest := [0, 1] + schedule;
    assert rest[1..] == [1] + schedule && rest[1..][1..] == schedule;
  }

  lemma BothCheck(race: Race, requests: seq<Entry>, next: Race)
    requires race == Begin([], requests) && |requests| == 2 && next == Race([], [Checked, Checked])
    ensures Step(Step(race, requests, 0), requests, 1) == next
  {
  }

  lemma BothRead(e0: Entry, e1: Entry, race: Race, next: Race)
    requires e0.owner == e1.owner && e0.owner.Technician? && e0.kind == e1.kind == Credit
    requires race == Race([], [Checked, Checked]) && next == Race([], [Ready(e0.amount, 0), Ready(e1.amount, 0)])
    ensures Step(Step(race, [e0, e1], 0), [e0, e1], 1) == next
  {
  }

  lemma BothWrite(e0: Entry, e1: Entry, race: Race, next: Race)
    requires e0.key != e1.key && 0 < e0.amount && 0 < e1.amount
    requires race == Race([], [Ready(e0.amount, 0), Ready(e1.amount, 0)])
    requires var row0, row1 := Row(e0, e0.amount), Row(e1, e1.amount);
             next == Race([row0, row1], [Finished(Some(row0)), Finished(Some(row1))])
    ensures Step(Step(race, [e0, e1], 0), [e0, e1], 1) == next
  {
    hide GetBalance, Signed;
    var between := Step(race, [e0, e1], 0);
    assert between == Race([Row(e0, e0.amount)], [Finished(Some(Row(e0, e0.amount))), Ready(e1.amount, 0)]);
  }

  lemma StaleTable(e0: Entry, e1: Entry)
    requires e0.owner == e1.owner && e0.owner.Technician? && e0.kind == e1.kind == Credit && 0 < e0.amount
    ensures !BalancesAreSums([Row(e0, e0.amount), Row(e1, e1.amount)])
  {
    var rows := [Row(e0, e0.amount), Row(e1, e1.amount)];
    assert rows[..2] == rows && rows[..1] == [Row(e0, e0.amount)] && rows[..1][..0] == [];
    assert SignedSum(rows[..1], e0.owner) == e0.amount;
    assert SignedSum(rows, e0.owner) == e0.amount + e1.amount;
    assert rows[1].balanceAfter != SignedSum(rows[..1 + 1], e0.owner);
  }
}
