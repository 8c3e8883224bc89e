/** What every run of the order services keeps: the audit chain, the finality of done and
    cancelled orders, and what a rejected cancel request restores. */
module OrderAudit {
  import opened Options
  import opened Visibility
  import opened OrderEngine

  /** The log rows of one order, oldest first. */
  function History(log: seq<LogEntry>, id: nat): seq<LogEntry> {
    if log == [] then []
    else
      History(log[..|log| - 1], id) + (if log[|log| - 1].order == id then [log[|log| - 1]] else [])
  }

  /** Every row continues the previous one. */
  predicate Linked(history: seq<LogEntry>) {
    forall k :: 1 <= k < |history| ==> history[k].source == Some(history[k - 1].target)
  }

  /** A history is linked and its last row says the status. It begins with a creation,
      unless a public request created the order: that is logged only from the moment
      somebody takes the order out of review. */
  predicate Chain(history: seq<LogEntry>, status: Status, public: bool) {
    && Linked(history)
    && (history != [] ==> history[|history| - 1].target == status)
    && (if public then (if history == [] then status == PendingReview else history[0].source == Some(PendingReview))
        else history != [] && history[0].source == None)
  }

  ghost predicate Audited(board: Board) {
    && (forall id :: 0 <= id < |board.orders| ==>
          Chain(History(board.log, id), board.orders[id].status, id in board.requests))
    && (forall id :: |board.orders| <= id ==> History(board.log, id) == [] && id !in board.requests)
  }

  /** The empty board is audited, so every run from it is. */
  lemma NothingIsAudited()
    ensures Audited(Board([], [], map[], {}))
  {
  }

  /** Exactly the orders that no public request created have a log from their creation. */
  lemma StartsFromCreationIff(board: Board, id: nat)
    requires Audited(board) && id < |board.orders|
    ensures var history := History(board.log, id);
            history != [] && history[0].source == None <==> id !in board.requests
  {
    assert Chain(History(board.log, id), board.orders[id].status, id in board.requests);
    hide History;
  }

  /** A public request is the input on which a log does not start from a creation: empty at
      first, and once it is approved beginning with its review. */
  lemma PublicRequestIsNotLogged(company: nat, category: nat)
    ensures var requested := PublicRequest(Board([], [], map[], {}), company, Some(category));
            var approved := Edit(requested, 0, Changes(None, None, None, None, Some(New)));
            && History(requested.log, 0) == []
            && History(approved.log, 0) == [LogEntry(0, Some(PendingReview), New)]
            && approved.orders[0].status == New
  {
    var requested := PublicRequest(Board([], [], map[], {}), company, Some(category));
    HistoryAppended(requested.log, LogEntry(0, Some(PendingReview), New), 0);
  }

  lemma HistoryAppended(log: seq<LogEntry>, entry: LogEntry, id: nat)
    ensures History(log + [entry], id) == History(log, id) + (if entry.order == id then [entry] else [])
  {
    assert (log + [entry])[..|log|] == log;
  }

  lemma MoveAudited(board: Board, id: nat, order: Order)
    requires Audited(board) && id < |board.orders|
    ensures Audited(Move(board, id, order))
  {
    var after := Move(board, id, order);
    forall other: nat
      ensures History(after.log, other)
              == History(board.log, other)
                  + (if other == id then [LogEntry(id, Some(board.orders[id].status), order.status)] else [])
    {
      HistoryAppended(board.log, LogEntry(id, Some(board.orders[id].status), order.status), other);
    }
  }

  lemma InsertAudited(board: Board, order: Order)
    requires Audited(board)
    ensures Audited(Insert(board, order))
  {
    var after := Insert(board, order);
    forall other: nat
      ensures History(after.log, other)
              == History(board.log, other)
                  + (if other == |board.orders| then [LogEntry(|board.orders|, None, order.status)] else [])
    {
      HistoryAppended(board.log, LogEntry(|board.orders|, None, order.status), other);
    }
  }

  lemma RequestAudited(board: Board, company: nat, category: Option<nat>)
    requires Audited(board)
    ensures Audited(PublicRequest(board, company, category)) && Follows(board, PublicRequest(board, company, category))
  {
    assert History(board.log, |board.orders|) == [];
    hide History;
  }

  lemma ReplaceAudited(board: Board, id: nat, closed: Order, replacement: Order)
    requires Audited(board) && id < |board.orders|
    ensures Audited(Replace(board, id, closed, replacement))
  {
    MoveAudited(board, id, closed);
    InsertAudited(Move(board, id, closed), replacement);
  }

  /** Each service does one of three things, and does nothing to a finished order. */
  lemma StepIsMoveInsertOrReplace(board: Board, s: Step) returns (id: nat, order: Order, extra: Order)
    ensures var after := Take(board, s);
            || after == board
            || after == Insert(board, order)
            || (s.DoPublicRequest? && after == PublicRequest(board, s.company, s.category))
            || (id < |board.orders| && !Terminal(board.orders[id].status)
                && (after == Move(board, id, order)
                    || (order.status == Cancelled && extra.status == New && after == Replace(board, id, order, extra))))
  {
    hide AcceptChecks, Insert, Move, Replace, RestoreStatus, PublicRequest, Changed, TechnicianMove;
    var none := Order(0, New, None, None, "", None, None, None, None, None);
    id, order, extra := 0, none, none;
    match s
    case DoCreate(o) => order := o.(status := New, technician := None, acceptedAt := None);
    case DoCreateByAdmin(o, technician, now) =>
      order := if technician.Some? then o.(technician := technician, status := Waiting, acceptedAt := Some(now))
               else o.(technician := None, acceptedAt := None);
    case DoAccept(i, technician, settings, now) =>
      if i < |board.orders| {
        AcceptedIsNew(board.orders[i], technician, settings, board.orders, now);
        id, order := i, board.orders[i].(technician := Some(technician.id), status := Waiting, acceptedAt := Some(now));
      }
    case DoAssign(i, technician, invoiced, now) =>
      if i < |board.orders| {
        id, order := i, board.orders[i].(technician := Some(technician.id), status := Waiting, acceptedAt := Some(now));
      }
    case DoUnassign(i, invoiced) =>
      if i < |board.orders| { id, order := i, board.orders[i].(technician := None, status := New, acceptedAt := None); }
    case DoEditAssign(i, technician, company, invoiced, now) =>
      if i < |board.orders| {
        var o := board.orders[i];
        id, order := i, o.(technician := Some(technician.id),
                           acceptedAt := if o.acceptedAt.Some? then o.acceptedAt else Some(now),
                           status := if o.status in {New, PendingReview} then Waiting else o.status);
      }
    case DoPublicRequest(company, category) =>
    case DoEdit(i, changes) => if i < |board.orders| { id, order := i, Changed(board.orders[i], changes); }
    case DoComplete(i) => if i < |board.orders| { id, order := i, board.orders[i].(status := Done); }
    case DoRequestCancel(i) => if i < |board.orders| { id, order := i, board.orders[i].(status := CancelRequested); }
    case DoForceCancel(i) =>
      if i < |board.orders| { id, order := i, board.orders[i].(status := Cancelled, technician := None); }
    case DoApprove(i, reviewer) => if i < |board.orders| { id, order := i, board.orders[i].(status := Cancelled); }
    case DoReject(i, reviewer) =>
      if i < |board.orders| { id, order := i, board.orders[i].(status := RestoreStatus(board, i)); }
    case DoRecycle(i, v2, v3) =>
      if i < |board.orders| {
        id, order := i, board.orders[i].(status := Cancelled, technician := None);
        extra := Replacement(board.orders[i], false, v2, v3);
      }
    case DoReturnToCycle(i, invoiced, v2, v3) =>
      if i < |board.orders| {
        id, order := i, board.orders[i].(status := Cancelled);
        extra := Replacement(board.orders[i], true, v2, v3);
      }
    case DoTechnicianMove(i, technician, status, auto, v2, v3) =>
      id, order, extra := TechnicianMoveIs(board, i, technician, status, auto, v2, v3);
  }

  lemma TechnicianMoveIs(board: Board, i: nat, technician: nat, status: Status, autoRecycle: bool,
                         visibleAt2: int, visibleAt3: int)
    returns (id: nat, order: Order, extra: Order)
    ensures var after := TechnicianMove(board, i, technician, status, autoRecycle, visibleAt2, visibleAt3);
            || after == board
            || (id < |board.orders| && !Terminal(board.orders[id].status)
                && (after == Move(board, id, order)
                    || (order.status == Cancelled && extra.status == New && after == Replace(board, id, order, extra))))
  {
    hide Move, Replace;
    var none := Order(0, New, None, None, "", None, None, None, None, None);
    id, order, extra := i, none, none;
    if i < |board.orders| {
      var recycled := status == CancelRequested && autoRecycle;
      order := if recycled then board.orders[i].(status := Cancelled, technician := None)
               else board.orders[i].(status := status);
      extra := Replacement(board.orders[i], false, visibleAt2, visibleAt3);
    }
  }

  lemma AcceptedIsNew(order: Order, technician: Technician, settings: Settings, orders: seq<Order>, now: int)
    ensures AcceptChecks(order, technician, settings, orders, now).None? ==> order.status == New
  {
  }

  /** A board after another: nothing finished moved or got a new log row. */
  predicate Follows(before: Board, after: Board) {
    && |before.orders| <= |after.orders|
    && forall id :: 0 <= id < |before.orders| && Terminal(before.orders[id].status) ==>
         after.orders[id] == before.orders[id] && History(after.log, id) == History(before.log, id)
  }

  lemma StepKeepsAudit(board: Board, s: Step)
    requires Audited(board)
    ensures Audited(Take(board, s)) && Follows(board, Take(board, s))
  {
    var id, order, extra := StepIsMoveInsertOrReplace(board, s);
    var after := Take(board, s);
    hide Take;
    if after == board {
    } else if after == Insert(board, order) {
      InsertAudited(board, order);
      InsertFollows(board, order);
    } else if s.DoPublicRequest? && after == PublicRequest(board, s.company, s.category) {
      RequestAudited(board, s.company, s.category);
    } else if after == Move(board, id, order) {
      MoveAudited(board, id, order);
      MoveFollows(board, id, order);
    } else {
      ReplaceAudited(board, id, order, extra);
      MoveFollows(board, id, order);
      InsertFollows(Move(board, id, order), extra);
    }
  }

  lemma MoveFollows(board: Board, id: nat, order: Order)
    requires id < |board.orders| && !Terminal(board.orders[id].status)
    ensures Follows(board, Move(board, id, order))
  {
    forall other: nat
      ensures other != id ==> History(Move(board, id, order).log, other) == History(board.log, other)
    {
      HistoryAppended(board.log, LogEntry(id, Some(board.orders[id].status), order.status), other);
    }
  }

  lemma InsertFollows(board: Board, order: Order)
    ensures Follows(board, Insert(board, order))
  {
    forall other: nat
      ensures other < |board.orders| ==> History(Insert(board, order).log, other) == History(board.log, other)
    {
      HistoryAppended(board.log, LogEntry(|board.orders|, None, order.status), other);
    }
  }

  /** Over every run of all order services: each order's log is an unbroken chain from its
      creation to its current status, and done and cancelled orders never change again. */
  lemma {:induction false} EveryRunIsAudited(board: Board, steps: seq<Step>)
    requires Audited(board)
    ensures Audited(Run(board, steps)) && Follows(board, Run(board, steps))
    decreases |steps|
  {
    if steps != [] {
      StepKeepsAudit(board, steps[0]);
      EveryRunIsAudited(Take(board, steps[0]), steps[1..]);
      hide Take, History;
    }
  }

  // ------------------------------------------------------------ Rejected requests

  /** Where exactly a rejection lands: the status the newest row of the order came from, if
      that is an active one, and otherwise WAITING with a technician and NEW without. */
  lemma RejectLands(board: Board, id: nat, reviewer: nat)
    requires Audited(board) && id < |board.orders| && board.orders[id].company == reviewer
    requires board.orders[id].status == CancelRequested
    ensures var history := History(board.log, id);
            var from := if history == [] then None else history[|history| - 1].source;
            var landed := Reject(board, id, reviewer);
            && id < |landed.orders|
            && landed.orders[id].status
               == if from == Some(New) || from == Some(Waiting) || from == Some(InProgress) then from.value
                  else if board.orders[id].technician.Some? then Waiting else New
  {
    var history := History(board.log, id);
    assert Chain(history, CancelRequested, id in board.requests);
    LastRequestInHistory(board.log, id);
    assert LastRequest(history, id) == Some(history[|history| - 1]);
    hide History, LastRequest;
  }

  /** Rejection always lands in an active status. */
  lemma RejectLandsActive(board: Board, id: nat, reviewer: nat)
    requires id < |board.orders| && Reject(board, id, reviewer) != board
    ensures Active(Reject(board, id, reviewer).orders[id].status)
  {
  }

  /** The row that took the order into CANCEL_REQUESTED from another status, if any. */
  function Entering(history: seq<LogEntry>): Option<LogEntry> {
    if history == [] then None
    else
      var last := history[|history| - 1];
      if last.target == CancelRequested && last.source != Some(CancelRequested) then Some(last)
      else Entering(history[..|history| - 1])
  }

  lemma {:induction false} LastRequestInHistory(log: seq<LogEntry>, id: nat)
    ensures LastRequest(log, id) == LastRequest(History(log, id), id)
    ensures forall k :: 0 <= k < |History(log, id)| ==> History(log, id)[k].order == id
  {
    if log != [] {
      var front, last := log[..|log| - 1], log[|log| - 1];
      LastRequestInHistory(front, id);
      if last.order == id {
        assert History(log, id)[..|History(front, id)|] == History(front, id);
      } else {
        assert History(log, id) == History(front, id);
      }
    }
  }

  /** In an audited history of a waiting request, the last row is either the request itself
      or an edit that kept the status. */
  lemma {:induction false} EnteringExists(history: seq<LogEntry>)
    requires Linked(history) && history != [] && history[|history| - 1].target == CancelRequested
    requires history[0].source != Some(CancelRequested)
    ensures Entering(history).Some? && Entering(history).value.target == CancelRequested
    ensures Entering(history).value.source != Some(CancelRequested)
    ensures Entering(history).value == history[|history| - 1]
            <==> history[|history| - 1].source != Some(CancelRequested)
    decreases |history|
  {
    var last := |history| - 1;
    if history[last].source == Some(CancelRequested) {
      EnteringExists(history[..last]);
    }
  }

  /** Rejecting restores the status the request was made from exactly when that status was
      active and either nothing was logged since or the fallback happens to be it. An edit
      of a requested order therefore loses IN_PROGRESS, and a request entered from review or
      at creation is never restored. */
  lemma RejectRestoresIff(board: Board, id: nat)
    requires Audited(board) && id < |board.orders| && board.orders[id].status == CancelRequested
    ensures var history := History(board.log, id);
            match Entering(history)
            case None => false
            case Some(request) =>
              Some(RestoreStatus(board, id)) == request.source
              <==> request.source.Some? && Active(request.source.value)
                   && (history[|history| - 1] == request || request.source.value == Fallback(board.orders[id]))
  {
    var history := History(board.log, id);
    assert Chain(history, CancelRequested, id in board.requests);
    EnteringExists(history);
    LastRequestInHistory(board.log, id);
    assert LastRequest(history, id) == Some(history[|history| - 1]);
  }

  /** The common case: a request, then any steps that log nothing for the order, then the
      rejection. The exact status comes back. */
  lemma RequestThenReject(board: Board, id: nat, steps: seq<Step>, reviewer: nat)
    requires Audited(board) && id < |board.orders| && Active(board.orders[id].status)
    requires var asked := RequestCancel(board, id);
             var later := Run(asked, steps);
             History(later.log, id) == History(asked.log, id)
    ensures var later := Run(RequestCancel(board, id), steps);
            && id < |later.orders| && later.orders[id].status == CancelRequested
            && (later.orders[id].company == reviewer ==>
                  id < |Reject(later, id, reviewer).orders|
                  && Reject(later, id, reviewer).orders[id].status == board.orders[id].status)
  {
    var asked := RequestCancel(board, id);
    var later := Run(asked, steps);
    var entry := LogEntry(id, Some(board.orders[id].status), CancelRequested);
    MoveAudited(board, id, board.orders[id].(status := CancelRequested));
    HistoryAppended(board.log, entry, id);
    EveryRunIsAudited(asked, steps);
    assert History(later.log, id)[|History(later.log, id)| - 1] == entry;
    LastRequestInHistory(later.log, id);
    assert LastRequest(History(later.log, id), id) == Some(entry);
  }

  /** The failing run, on an empty board: an order in progress, a cancel request, an edit that
      changes nothing, and a rejection that lands in WAITING. */
  lemma EditedRequestLosesProgress(order: Order, technician: nat, now: int)
    requires order.category.Some?
    ensures var nothing := Changes(None, None, None, None, None);
            var working := Run(Board([], [], map[], {}),
                               [DoCreateByAdmin(order, Some(technician), now),
                                DoTechnicianMove(0, technician, InProgress, false, now, now)]);
            var rejected := Run(working, [DoRequestCancel(0), DoEdit(0, nothing), DoReject(0, order.company)]);
            && |working.orders| == |rejected.orders| == 1
            && working.orders[0].status == InProgress && rejected.orders[0].status == Waiting
  {
    var empty := Board([], [], map[], {});
    var waiting := order.(technician := Some(technician), status := Waiting, acceptedAt := Some(now));
    var log := [LogEntry(0, None, Waiting), LogEntry(0, Some(Waiting), InProgress)];
    var working := Board([waiting.(status := InProgress)], log, map[], {});
    WorkBegins(order, technician, now, waiting, working);
    ProgressIsLost(waiting, working);
    hide Take, RestoreStatus;
    RunTwo(empty, DoCreateByAdmin(order, Some(technician), now),
        DoTechnicianMove(0, technician, InProgress, false, now, now));
    RunThree(working, DoRequestCancel(0), DoEdit(0, Changes(None, None, None, None, None)), DoReject(0, order.company));
  }

  lemma WorkBegins(order: Order, technician: nat, now: int, waiting: Order, working: Board)
    requires order.category.Some?
    requires waiting == order.(technician := Some(technician), status := Waiting, acceptedAt := Some(now))
    requires working == Board([waiting.(status := InProgress)],
                              [LogEntry(0, None, Waiting), LogEntry(0, Some(Waiting), InProgress)], map[], {})
    ensures Take(Take(Board([], [], map[], {}), DoCreateByAdmin(order, Some(technician), now)),
                 DoTechnicianMove(0, technician, InProgress, false, now, now)) == working
  {
    assert Take(Board([], [], map[], {}), DoCreateByAdmin(order, Some(technician), now))
        == Board([waiting], [LogEntry(0, None, Waiting)], map[], {});
  }

  lemma ProgressIsLost(waiting: Order, working: Board)
    requires waiting.technician.Some? && waiting.status == Waiting
    requires working.orders == [waiting.(status := InProgress)]
    ensures var requested := Take(working, DoRequestCancel(0));
            var edited := Take(requested, DoEdit(0, Changes(None, None, None, None, None)));
            Take(edited, DoReject(0, waiting.company)).orders == [waiting]
  {
    var requested := Take(working, DoRequestCancel(0));
    assert requested.orders == [waiting.(status := CancelRequested)];
    var edited := Take(requested, DoEdit(0, Changes(None, None, None, None, None)));
    assert edited.orders == requested.orders;
    assert edited.log == requested.log + [LogEntry(0, Some(CancelRequested), CancelRequested)];
    assert LastRequest(edited.log, 0) == Some(LogEntry(0, Some(CancelRequested), CancelRequested));
    hide LastRequest;
  }

  lemma RunTwo(board: Board, first: Step, second: Step)
    ensures Run(board, [first, second]) == Take(Take(board, first), second)
  {
    hide Take;
    assert [first, second][1..] == [second] && [second][1..] == [];
    assert Run(Take(board, first), [second]) == Run(Take(Take(board, first), second), []);
  }

  lemma RunThree(board: Board, first: Step, second: Step, third: Step)
    ensures Run(board, [first, second, third]) == Take(Take(Take(board, first), second), third)
  {
    hide Take;
    assert [first, second, third][1..] == [second, third];
    RunTwo(Take(board, first), second, third);
  }

  // --------------------------------------------------------------------- Recycling

  function OpenOrders(orders: seq<Order>): nat {
    if orders == [] then 0
    else OpenOrders(orders[..|orders| - 1]) + (if Terminal(orders[|orders| - 1].status) then 0 else 1)
  }

  lemma {:induction false} OpenOrdersUpdate(orders: seq<Order>, id: nat, order: Order)
    requires id < |orders|
    ensures OpenOrders(orders[id := order]) + (if Terminal(orders[id].status) then 0 else 1)
            == OpenOrders(orders) + (if Terminal(order.status) then 0 else 1)
  {
    var last := |orders| - 1;
    if id < last {
      OpenOrdersUpdate(orders[..last], id, order);
      assert orders[id := order][..last] == orders[..last][id := order];
    } else {
      assert orders[id := order][..last] == orders[..last];
    }
  }

  /** Every item value belongs to an order that exists. */
  predicate ValuesBelong(board: Board) {
    forall key :: key in board.values ==> key.0 < |board.orders|
  }

  lemma {:induction false} ValuesAlwaysBelong(board: Board, steps: seq<Step>)
    requires ValuesBelong(board)
    ensures ValuesBelong(Run(board, steps))
    decreases |steps|
  {
    if steps != [] {
      var id, order, extra := StepIsMoveInsertOrReplace(board, steps[0]);
      assert ValuesBelong(Take(board, steps[0])) by { hide Take; }
      hide Take;
      ValuesAlwaysBelong(Take(board, steps[0]), steps[1..]);
    }
  }

  /** One open order cancelled, one NEW and unassigned order opened in its place: as many
      stay open, the new one has exactly the item values of the old one, and no other order
      and no other value changes. */
  ghost predicate Recycled(board: Board, after: Board, id: nat)
    requires id < |board.orders|
  {
    var successor := |board.orders|;
    && |after.orders| == successor + 1
    && after.orders[id].status == Cancelled
    && after.orders[successor].status == New && after.orders[successor].technician.None?
    && after.orders[successor].company == board.orders[id].company
         && after.orders[successor].category == board.orders[id].category
    && (forall other :: 0 <= other < successor && other != id ==> after.orders[other] == board.orders[other])
    && OpenOrders(after.orders) == OpenOrders(board.orders)
    && (forall item: nat ::
          ((successor, item) in after.values <==> (id, item) in board.values)
          && ((id, item) in board.values ==> after.values[(successor, item)] == board.values[(id, item)]))
    && (forall key: (nat, nat) :: key.0 != successor ==>
          (key in after.values <==> key in board.values)
          && (key in board.values ==> after.values[key] == board.values[key]))
  }

  lemma ReplaceRecycles(board: Board, id: nat, closed: Order, replacement: Order)
    requires id < |board.orders| && !Terminal(board.orders[id].status) && ValuesBelong(board)
    requires closed.status == Cancelled && replacement.status == New && replacement.technician.None?
    requires replacement.company == board.orders[id].company && replacement.category == board.orders[id].category
    ensures Recycled(board, Replace(board, id, closed, replacement), id)
  {
    var after := Replace(board, id, closed, replacement);
    OpenOrdersUpdate(board.orders, id, closed);
    assert after.orders[..|board.orders|] == board.orders[id := closed];
  }

  /** Both kinds of recycling, for every order and whatever they are asked: nothing at all,
      or one open order traded for a new one. */
  lemma RecyclingConserves(board: Board, id: nat, invoiced: bool, visibleAt2: int, visibleAt3: int)
    requires id < |board.orders| && ValuesBelong(board)
    ensures var after := Recycle(board, id, visibleAt2, visibleAt3);
            if Terminal(board.orders[id].status) then after == board else Recycled(board, after, id)
    ensures var after := ReturnToCycle(board, id, invoiced, visibleAt2, visibleAt3);
            after == board || (Recycled(board, after, id) && after.orders[id].technician == board.orders[id].technician)
  {
    var order := board.orders[id];
    if !Terminal(order.status) {
      ReplaceRecycles(board, id, order.(status := Cancelled, technician := None),
          Replacement(order, false, visibleAt2, visibleAt3));
      ReplaceRecycles(board, id, order.(status := Cancelled), Replacement(order, true, visibleAt2, visibleAt3));
      assert ReturnToCycle(board, id, invoiced, visibleAt2, visibleAt3) != board ==>
          Replace(board, id, order.(status := Cancelled), Replacement(order, true, visibleAt2, visibleAt3)).orders[id]
          == order.(status := Cancelled);
    }
    hide Recycled, Replace, Replacement;
  }

  // --------------------------------------------------------------------- Accepting

  /** An order is accepted by one technician only, who then has one active order more and
      never more than the company's limit. */
  lemma AcceptTakesOne(board: Board, id: nat, t: Technician, settings: Settings, now: int,
                       other: Technician, otherSettings: Settings, later: int)
    requires Accept(board, id, t, settings, now) != board
    ensures var after := Accept(board, id, t, settings, now);
            && id < |board.orders| == |after.orders| && after.orders[id].technician == Some(t.id)
            && id !in ActiveOrders(board.orders, t)
            && ActiveOrders(after.orders, t) == ActiveOrders(board.orders, t) + {id}
            && (settings.maxActive > 0 ==> |ActiveOrders(after.orders, t)| <= settings.maxActive)
            && Accept(after, id, other, otherSettings, later) == after
            && id !in AvailableOrders(after.orders, other, otherSettings, later)
  {
    hide ActiveCount, ActiveOrders, FutureVisible, AcceptDateReached, DelayPassed;
    ActiveCountIs(board.orders, t);
    var accepted := board.orders[id].(technician := Some(t.id), status := Waiting, acceptedAt := Some(now));
    OneMoreActive(board.orders, id, accepted, t);
  }

  lemma OneMoreActive(orders: seq<Order>, id: nat, order: Order, t: Technician)
    requires id < |orders| && orders[id].technician.None?
    requires order.company == t.company && order.technician == Some(t.id) && order.status == Waiting
    ensures id !in ActiveOrders(orders, t) && ActiveOrders(orders[id := order], t) == ActiveOrders(orders, t) + {id}
  {
  }

  /** Starting work keeps a technician's active orders; finishing it lowers them by one. */
  lemma WorkKeepsOrLowersCount(board: Board, id: nat, t: Technician, autoRecycle: bool, visibleAt2: int,
      visibleAt3: int)
    requires id < |board.orders| && board.orders[id].technician == Some(t.id) && board.orders[id].company == t.company
    ensures var started := TechnicianMove(board, id, t.id, InProgress, autoRecycle, visibleAt2, visibleAt3);
            ActiveOrders(started.orders, t) == ActiveOrders(board.orders, t)
    ensures var finished := TechnicianMove(board, id, t.id, Done, autoRecycle, visibleAt2, visibleAt3);
            board.orders[id].status == InProgress ==>
              && id in ActiveOrders(board.orders, t)
              && ActiveOrders(finished.orders, t) == ActiveOrders(board.orders, t) - {id}
              && |ActiveOrders(finished.orders, t)| == |ActiveOrders(board.orders, t)| - 1
    ensures var completed := Complete(board, id);
            board.orders[id].status == InProgress ==>
              ActiveOrders(completed.orders, t) == ActiveOrders(board.orders, t) - {id}
  {
  }
}
