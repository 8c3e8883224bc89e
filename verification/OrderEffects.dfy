/** What every order service leaves when it succeeds, and what stays of it for ever. */
module OrderEffects {
  import opened Options
  import opened Visibility
  import opened OrderEngine
  import opened OrderAudit

  /** Order `id` became `order`, with one log row of the change; nothing else moved. */
  predicate Becomes(before: Board, after: Board, id: nat, order: Order) {
    && id < |before.orders| == |after.orders|
    && after.orders[id] == order
    && (forall other :: 0 <= other < |before.orders| && other != id ==> after.orders[other] == before.orders[other])
    && after.log == before.log + [LogEntry(id, Some(before.orders[id].status), order.status)]
    && after.values == before.values && after.requests == before.requests
  }

  /** `order` was added, with one log row of its creation; nothing else moved. */
  predicate Opens(before: Board, after: Board, order: Order) {
    && after.orders == before.orders + [order]
    && after.log == before.log + [LogEntry(|before.orders|, None, order.status)]
    && after.values == before.values && after.requests == before.requests
  }

  // --------------------------------------------------------------------- Creation

  /** A created order is NEW and nobody's, whatever was submitted. */
  lemma CreateLeaves(board: Board, order: Order)
    ensures Opens(board, Create(board, order), order.(status := New, technician := None, acceptedAt := None))
  {
  }

  /** An administrator's order has a category, and waits if it has a technician. */
  lemma CreateByAdminLeaves(board: Board, order: Order, technician: Option<nat>, now: int)
    ensures var after := CreateByAdmin(board, order, technician, now);
            if order.category.None? then after == board
            else if technician.None? then Opens(board, after, order.(technician := None, acceptedAt := None))
            else Opens(board, after, order.(technician := technician, status := Waiting, acceptedAt := Some(now)))
  {
  }

  /** A public request with a category is under review, remembered as one, and not logged. */
  lemma PublicRequestLeaves(board: Board, company: nat, category: Option<nat>)
    ensures var after, n := PublicRequest(board, company, category), |board.orders|;
            if category.None? then after == board
            else
              && |after.orders| == n + 1 && after.orders[..n] == board.orders
              && after.orders[n].status == PendingReview && after.orders[n].technician.None?
              && after.orders[n].company == company && after.orders[n].category == category
              && after.log == board.log && after.values == board.values && after.requests == board.requests + {n}
  {
  }

  // -------------------------------------------------------------------- Assignment

  /** An accepted order waits, with that technician from now on. */
  lemma AcceptLeaves(board: Board, id: nat, t: Technician, settings: Settings, now: int)
    requires id < |board.orders|
    ensures var o, after := board.orders[id], Accept(board, id, t, settings, now);
            if CanAccept(o, t, settings, board.orders, now) && o.category.Some?
            then o.status == New && o.technician.None?
                 && Becomes(board, after, id, o.(technician := Some(t.id), status := Waiting, acceptedAt := Some(now)))
            else after == board
  {
    AcceptMatchesPermission(board.orders[id], t, settings, board.orders, now);
    hide AcceptChecks, CategoryVisible, LegacyVisible, AcceptDateReached;
  }

  /** So does an assigned one: new or under review before, of the technician's company, and
      without an open invoice. */
  lemma AssignLeaves(board: Board, id: nat, t: Technician, invoiced: bool, now: int)
    requires id < |board.orders|
    ensures var o, after := board.orders[id], Assign(board, id, t, invoiced, now);
            if o.company == t.company && t.available && (o.status == New || o.status == PendingReview)
               && o.technician != Some(t.id) && !invoiced
            then Becomes(board, after, id, o.(technician := Some(t.id), status := Waiting, acceptedAt := Some(now)))
            else after == board
  {
  }

  /** Only a waiting order is taken back; it is NEW and nobody's again. */
  lemma UnassignLeaves(board: Board, id: nat, invoiced: bool)
    requires id < |board.orders|
    ensures var o, after := board.orders[id], Unassign(board, id, invoiced);
            if o.status == Waiting && !invoiced
            then Becomes(board, after, id, o.(technician := None, status := New, acceptedAt := None))
            else after == board
  {
  }

  /** On the edit page a waiting order may change hands, and keeps when it was accepted. */
  lemma EditAssignLeaves(board: Board, id: nat, t: Technician, company: nat, invoiced: bool, now: int)
    requires id < |board.orders|
    ensures var o, after := board.orders[id], EditAssign(board, id, t, company, invoiced, now);
            if o.technician != Some(t.id) && (o.status == PendingReview || o.status == New || o.status == Waiting)
               && t.company == company && t.available && !invoiced
            then Becomes(board, after, id,
                         o.(technician := Some(t.id), status := Waiting,
                            acceptedAt := Some(match o.acceptedAt case Some(at) => at case None => now)))
            else after == board
  {
  }

  // ------------------------------------------------------------------------- Edits

  /** An edit changes what was submitted and nothing else, never a finished order, and never
      finishes one. */
  lemma EditLeaves(board: Board, id: nat, c: Changes)
    requires id < |board.orders|
    ensures var o, after := board.orders[id], Edit(board, id, c);
            if o.status == Done || o.status == Cancelled || c.status == Some(Done) || c.status == Some(Cancelled)
            then after == board
            else
              && id < |after.orders| && Becomes(board, after, id, after.orders[id])
              && var e := after.orders[id];
                 && e == o.(category := e.category, serviceDate := e.serviceDate, scheduledFor := e.scheduledFor,
                            requiredSkill := e.requiredSkill, status := e.status)
                 && (match c.category case Some(x) => e.category == x case None => e.category == o.category)
                 && (match c.serviceDate case Some(x) => e.serviceDate == x case None => e.serviceDate == o.serviceDate)
                 && (match c.scheduledFor
                     case Some(x) => e.scheduledFor == x
                     case None => e.scheduledFor == o.scheduledFor)
                 && (match c.requiredSkill
                     case Some(x) => e.requiredSkill == x
                     case None => e.requiredSkill == o.requiredSkill)
                 && (match c.status case Some(x) => e.status == x case None => e.status == o.status)
  {
  }

  // ----------------------------------------------------------------------- Endings

  /** A completed order is DONE, and only one in progress can be completed. */
  lemma CompleteLeaves(board: Board, id: nat)
    requires id < |board.orders|
    ensures var o, after := board.orders[id], Complete(board, id);
            if o.status == InProgress then Becomes(board, after, id, o.(status := Done)) else after == board
  {
  }

  lemma RequestCancelLeaves(board: Board, id: nat)
    requires id < |board.orders|
    ensures var o, after := board.orders[id], RequestCancel(board, id);
            if o.status == New || o.status == Waiting || o.status == InProgress
            then Becomes(board, after, id, o.(status := CancelRequested)) else after == board
  {
  }

  /** A forced cancellation releases the technician. */
  lemma ForceCancelLeaves(board: Board, id: nat)
    requires id < |board.orders|
    ensures var o, after := board.orders[id], ForceCancel(board, id);
            if o.status == Done || o.status == Cancelled then after == board
            else Becomes(board, after, id, o.(status := Cancelled, technician := None))
  {
  }

  /** An approved cancellation keeps the technician; a rejected one goes back to an active
      status, the one OrderAudit.RejectRestoresIff says. */
  lemma ReviewLeaves(board: Board, id: nat, reviewer: nat)
    requires id < |board.orders|
    ensures var o, approved, rejected := board.orders[id], Approve(board, id, reviewer), Reject(board, id, reviewer);
            if o.company == reviewer && o.status == CancelRequested
            then Becomes(board, approved, id, o.(status := Cancelled))
                 && id < |rejected.orders| && Active(rejected.orders[id].status)
                 && Becomes(board, rejected, id, o.(status := rejected.orders[id].status))
            else approved == board && rejected == board
  {
    hide LastRequest;
  }

  /** What replaces a recycled order: NEW, nobody's, with the business data of the old one. */
  predicate Succeeds(o: Order, successor: Order, keepServiceDate: bool, visibleAt2: int, visibleAt3: int) {
    && successor.status == New && successor.technician.None? && successor.acceptedAt.None?
    && successor.company == o.company && successor.category == o.category
    && successor.requiredSkill == o.requiredSkill && successor.scheduledFor == o.scheduledFor
    && successor.serviceDate == (if keepServiceDate then o.serviceDate else None)
    && successor.visibleAt2 == Some(visibleAt2) && successor.visibleAt3 == Some(visibleAt3)
  }

  /** The old order became `closed`, `successor` was added, and both were logged. */
  predicate Trades(before: Board, after: Board, id: nat, closed: Order, successor: Order) {
    && id < |before.orders|
    && after.orders == before.orders[id := closed] + [successor]
    && after.log == before.log + [LogEntry(id, Some(before.orders[id].status), closed.status)]
                    + [LogEntry(|before.orders|, None, successor.status)]
    && after.requests == before.requests
  }

  /** A recycled order is CANCELLED and its technician released. */
  lemma RecycleLeaves(board: Board, id: nat, visibleAt2: int, visibleAt3: int)
    requires id < |board.orders|
    ensures var o, n, after := board.orders[id], |board.orders|, Recycle(board, id, visibleAt2, visibleAt3);
            if o.status == Done || o.status == Cancelled then after == board
            else
              && |after.orders| == n + 1 && Succeeds(o, after.orders[n], false, visibleAt2, visibleAt3)
              && Trades(board, after, id, o.(status := Cancelled, technician := None), after.orders[n])
  {
    hide CopiedValues;
  }

  /** One returned to the cycle is CANCELLED with its technician, and keeps its date. */
  lemma ReturnToCycleLeaves(board: Board, id: nat, invoiced: bool, visibleAt2: int, visibleAt3: int)
    requires id < |board.orders|
    ensures var o, n, after := board.orders[id], |board.orders|,
                ReturnToCycle(board, id, invoiced, visibleAt2, visibleAt3);
            if invoiced || o.status == Done || o.status == Cancelled || o.status == PendingReview then after == board
            else
              && |after.orders| == n + 1 && Succeeds(o, after.orders[n], true, visibleAt2, visibleAt3)
              && Trades(board, after, id, o.(status := Cancelled), after.orders[n])
  {
    hide CopiedValues;
  }

  /** The assigned technician starts a waiting order, finishes one in progress, or asks for a
      cancellation of either, which may recycle it at once; nothing else. */
  lemma TechnicianMoveLeaves(board: Board, id: nat, technician: nat, status: Status, autoRecycle: bool,
                             visibleAt2: int, visibleAt3: int)
    requires id < |board.orders|
    ensures var o, after := board.orders[id],
                TechnicianMove(board, id, technician, status, autoRecycle, visibleAt2, visibleAt3);
            if o.technician != Some(technician) then after == board
            else if (o.status == Waiting && status == InProgress) || (o.status == InProgress && status == Done)
                 then Becomes(board, after, id, o.(status := status))
            else if (o.status == Waiting || o.status == InProgress) && status == CancelRequested
                 then if autoRecycle then after == Recycle(board, id, visibleAt2, visibleAt3)
                      else Becomes(board, after, id, o.(status := CancelRequested))
            else after == board
  {
    hide Replace, Replacement;
  }

  // ---------------------------------------------------------------------- For ever

  /** The steps that finish order `id` when they succeed. */
  predicate Finishes(s: Step, id: nat) {
    || s == DoComplete(id) || s == DoForceCancel(id)
    || (s.DoApprove? && s.id == id) || (s.DoRecycle? && s.id == id) || (s.DoReturnToCycle? && s.id == id)
    || (s.DoTechnicianMove? && s.id == id && (s.goal == Done || (s.goal == CancelRequested && s.autoRecycle)))
  }

  /** A completion, by an administrator or by the technician, as against a cancellation. */
  predicate Completes(s: Step) { s.DoComplete? || (s.DoTechnicianMove? && s.goal == Done) }

  predicate Releases(s: Step) { s.DoForceCancel? || s.DoRecycle? || (s.DoTechnicianMove? && s.goal == CancelRequested) }

  function Finished(o: Order, s: Step): Order {
    o.(status := if Completes(s) then Done else Cancelled, technician := if Releases(s) then None else o.technician)
  }

  /** A completed order is DONE for ever, with the technician who did it and no further log
      row; a cancelled one is CANCELLED for ever. */
  lemma EndingsAreFinal(board: Board, id: nat, ending: Step, steps: seq<Step>)
    requires Audited(board) && id < |board.orders| && Finishes(ending, id) && Take(board, ending) != board
    ensures var o, later := board.orders[id], Run(Take(board, ending), steps);
            && id < |later.orders| && later.orders[id] == Finished(o, ending)
            && History(later.log, id)
                 == History(board.log, id) + [LogEntry(id, Some(o.status), Finished(o, ending).status)]
  {
    hide Take, Run, Audited, Finishes, History, Releases;
    var after := Take(board, ending);
    EndingIs(board, id, ending);
    StepKeepsAudit(board, ending);
    EveryRunIsAudited(after, steps);
    EndingHistory(board, after, id, Finished(board.orders[id], ending).status);
  }

  lemma EndingHistory(board: Board, after: Board, id: nat, status: Status)
    requires id < |board.orders|
    requires var entry := LogEntry(id, Some(board.orders[id].status), status);
             || after.log == board.log + [entry]
             || after.log == board.log + [entry] + [LogEntry(|board.orders|, None, New)]
    ensures History(after.log, id) == History(board.log, id) + [LogEntry(id, Some(board.orders[id].status), status)]
  {
    hide History;
    var entry := LogEntry(id, Some(board.orders[id].status), status);
    HistoryAppended(board.log, entry, id);
    HistoryAppended(board.log + [entry], LogEntry(|board.orders|, None, New), id);
  }

  lemma EndingIs(board: Board, id: nat, ending: Step)
    requires id < |board.orders| && Finishes(ending, id) && Take(board, ending) != board
    ensures var o, after := board.orders[id], Take(board, ending);
            var entry := LogEntry(id, Some(o.status), Finished(o, ending).status);
            && id < |after.orders| && after.orders[id] == Finished(o, ending)
            && (|| after.log == board.log + [entry]
                || after.log == board.log + [entry] + [LogEntry(|board.orders|, None, New)])
  {
    hide Complete, ForceCancel, Approve, Recycle, ReturnToCycle, TechnicianMove;
    match ending
    case DoComplete(_) => CompleteLeaves(board, id);
    case DoForceCancel(_) => ForceCancelLeaves(board, id);
    case DoApprove(_, reviewer) => ReviewLeaves(board, id, reviewer);
    case DoRecycle(_, v2, v3) => RecycleLeaves(board, id, v2, v3);
    case DoReturnToCycle(_, invoiced, v2, v3) => ReturnToCycleLeaves(board, id, invoiced, v2, v3);
    case DoTechnicianMove(_, mover, goal, autoRecycle, v2, v3) =>
      TechnicianMoveLeaves(board, id, mover, goal, autoRecycle, v2, v3);
      RecycleLeaves(board, id, v2, v3);
  }
}
