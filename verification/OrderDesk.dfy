/** The order services as methods that update the board's tables in place, each against
    its step of OrderEngine. */
module OrderDesk {
  import opened Options
  import opened Visibility
  import E = OrderEngine

  class Desk {
    var orders: seq<Order>
    var log: seq<E.LogEntry>
    var values: map<(nat, nat), E.Value>
    var requests: set<nat>

    function Board(): E.Board
      reads this
    {
      E.Board(orders, log, values, requests)
    }

    constructor ()
      ensures Board() == E.Board([], [], map[], {})
    {
      orders, log, values, requests := [], [], map[], {};
    }

    method SaveAndLog(id: nat, order: Order, source: Status)
      requires id < |orders| && source == orders[id].status
      modifies this
      ensures Board() == E.Move(old(Board()), id, order)
    {
      orders := orders[id := order];
      log := log + [E.LogEntry(id, Some(source), order.status)];
    }

    method InsertAndLog(order: Order) returns (id: nat)
      modifies this
      ensures Board() == E.Insert(old(Board()), order) && id == |old(orders)|
    {
      id := |orders|;
      orders := orders + [order];
      log := log + [E.LogEntry(id, None, order.status)];
    }

    method Create(order: Order) returns (id: nat)
      modifies this
      ensures Board() == E.Create(old(Board()), order)
      ensures id == |old(orders)|
    {
      var row := order.(status := New);
      row := row.(technician := None, acceptedAt := None);
      id := InsertAndLog(row);
    }

    method CreateByAdmin(order: Order, technician: Option<nat>, now: int) returns (created: bool)
      modifies this
      ensures Board() == E.CreateByAdmin(old(Board()), order, technician, now)
      ensures created <==> order.category.Some?
    {
      if order.category.None? {
        return false;
      }
      var row := order.(technician := None, acceptedAt := None);
      if technician.Some? {
        row := row.(technician := technician);
        row := row.(status := Waiting);
        row := row.(acceptedAt := Some(now));
      }
      var id := InsertAndLog(row);
      created := true;
    }

    /** `ServiceRequestCreateService.create`: the order is under review and nothing is logged. */
    method CreatePublicRequest(company: nat, category: Option<nat>) returns (id: Option<nat>)
      modifies this
      ensures Board() == E.PublicRequest(old(Board()), company, category)
      ensures id == if category.Some? then Some(|old(orders)|) else None
    {
      if category.None? {
        return None;
      }
      id := Some(|orders|);
      requests := requests + {|orders|};
      orders := orders + [Order(company, PendingReview, None, category, "", None, None, None, None, None)];
    }

    method Accept(id: nat, technician: Technician, settings: Settings, now: int) returns (refusal: Option<Refusal>)
      requires id < |orders|
      modifies this
      ensures Board() == E.Accept(old(Board()), id, technician, settings, now)
      ensures refusal == AcceptChecks(old(orders)[id], technician, settings, old(orders), now)
      ensures refusal.None? ==> orders[id].status == Waiting && orders[id].technician == Some(technician.id)
    {
      var locked := orders[id];
      refusal := AcceptChecks(locked, technician, settings, orders, now);
      if refusal.Some? {
        return;
      }
      var source := locked.status;
      locked := locked.(technician := Some(technician.id));
      locked := locked.(status := Waiting);
      locked := locked.(acceptedAt := Some(now));
      SaveAndLog(id, locked, source);
    }

    method Assign(id: nat, technician: Technician, invoiced: bool, now: int) returns (placed: bool)
      requires id < |orders|
      modifies this
      ensures Board() == E.Assign(old(Board()), id, technician, invoiced, now)
      ensures placed <==>
                && E.Assignable(old(orders)[id], technician)
                && (old(orders)[id].technician == Some(technician.id) || !invoiced)
      ensures placed ==> orders[id].technician == Some(technician.id)
    {
      var locked := orders[id];
      if locked.company != technician.company || !technician.available {
        return false;
      }
      if locked.status != New && locked.status != PendingReview {
        return false;
      }
      if locked.technician == Some(technician.id) {
        return true;
      }
      if invoiced {
        return false;
      }
      var source := locked.status;
      locked := locked.(technician := Some(technician.id), status := Waiting, acceptedAt := Some(now));
      SaveAndLog(id, locked, source);
      placed := true;
    }

    method Unassign(id: nat, invoiced: bool) returns (unassigned: bool)
      requires id < |orders|
      modifies this
      ensures Board() == E.Unassign(old(Board()), id, invoiced)
      ensures unassigned <==> old(orders)[id].status == Waiting && !invoiced
      ensures unassigned ==> orders[id].status == New && orders[id].technician.None?
    {
      if orders[id].status != Waiting || invoiced {
        return false;
      }
      SaveAndLog(id, orders[id].(technician := None, status := New, acceptedAt := None), Waiting);
      unassigned := true;
    }

    method EditAssign(id: nat, technician: Technician, company: nat, invoiced: bool, now: int) returns (placed: bool)
      requires id < |orders|
      modifies this
      ensures Board() == E.EditAssign(old(Board()), id, technician, company, invoiced, now)
      ensures placed <==> log != old(log)
      ensures placed ==> orders[id].technician == Some(technician.id) && orders[id].status == Waiting
    {
      var locked := orders[id];
      if locked.technician == Some(technician.id) || locked.status !in {PendingReview, New, Waiting} {
        return false;
      }
      if technician.company != company || !technician.available || invoiced {
        return false;
      }
      var source := locked.status;
      locked := locked.(technician := Some(technician.id));
      if locked.acceptedAt.None? {
        locked := locked.(acceptedAt := Some(now));
      }
      if locked.status == New || locked.status == PendingReview {
        locked := locked.(status := Waiting);
      }
      SaveAndLog(id, locked, source);
      placed := true;
    }

    method Edit(id: nat, changes: E.Changes) returns (edited: bool)
      requires id < |orders|
      modifies this
      ensures Board() == E.Edit(old(Board()), id, changes)
      ensures edited <==>
                && !E.Terminal(old(orders)[id].status)
                && !(changes.status.Some? && E.Terminal(changes.status.value))
    {
      var row := orders[id];
      if row.status == Done || row.status == Cancelled {
        return false;
      }
      var source := row.status;
      if changes.category.Some? {
        row := row.(category := changes.category.value);
      }
      if changes.serviceDate.Some? {
        row := row.(serviceDate := changes.serviceDate.value);
      }
      if changes.scheduledFor.Some? {
        row := row.(scheduledFor := changes.scheduledFor.value);
      }
      if changes.requiredSkill.Some? {
        row := row.(requiredSkill := changes.requiredSkill.value);
      }
      if changes.status.Some? {
        if changes.status.value in {Done, Cancelled} {
          return false;
        }
        row := row.(status := changes.status.value);
      }
      SaveAndLog(id, row, source);
      edited := true;
    }

    method Complete(id: nat) returns (completed: bool)
      requires id < |orders|
      modifies this
      ensures Board() == E.Complete(old(Board()), id)
      ensures completed <==> old(orders)[id].status == InProgress
      ensures completed ==> orders == old(orders)[id := old(orders)[id].(status := Done)]
    {
      if orders[id].status != InProgress {
        return false;
      }
      SaveAndLog(id, orders[id].(status := Done), InProgress);
      completed := true;
    }

    method RequestCancel(id: nat) returns (requested: bool)
      requires id < |orders|
      modifies this
      ensures Board() == E.RequestCancel(old(Board()), id)
      ensures requested <==> E.Active(old(orders)[id].status)
      ensures requested ==> orders == old(orders)[id := old(orders)[id].(status := CancelRequested)]
    {
      var source := orders[id].status;
      if source !in {New, Waiting, InProgress} {
        return false;
      }
      SaveAndLog(id, orders[id].(status := CancelRequested), source);
      requested := true;
    }

    method ForceCancel(id: nat) returns (cancelled: bool)
      requires id < |orders|
      modifies this
      ensures Board() == E.ForceCancel(old(Board()), id)
      ensures cancelled <==> !E.Terminal(old(orders)[id].status)
      ensures cancelled ==> orders == old(orders)[id := old(orders)[id].(status := Cancelled, technician := None)]
    {
      var source := orders[id].status;
      if source in {Done, Cancelled} {
        return false;
      }
      var row := orders[id].(status := Cancelled);
      row := row.(technician := None);
      SaveAndLog(id, row, source);
      cancelled := true;
    }

    method Approve(id: nat, reviewer: nat) returns (approved: bool)
      requires id < |orders|
      modifies this
      ensures Board() == E.Approve(old(Board()), id, reviewer)
      ensures approved <==> old(orders)[id].company == reviewer && old(orders)[id].status == CancelRequested
      ensures approved ==> orders == old(orders)[id := old(orders)[id].(status := Cancelled)]
    {
      if orders[id].company != reviewer || orders[id].status != CancelRequested {
        return false;
      }
      SaveAndLog(id, orders[id].(status := Cancelled), CancelRequested);
      approved := true;
    }

    /** `_determine_restore_status`: search the log backwards for the newest row into
        CANCEL_REQUESTED. */
    method DetermineRestoreStatus(id: nat) returns (status: Status)
      requires id < |orders|
      ensures status == E.RestoreStatus(Board(), id)
    {
      var n := |log|;
      assert log[..n] == log;
      while n > 0 && !(log[n - 1].order == id && log[n - 1].target == CancelRequested)
        invariant 0 <= n <= |log|
        invariant E.LastRequest(log[..n], id) == E.LastRequest(log, id)
      {
        assert log[..n][..n - 1] == log[..n - 1];
        n := n - 1;
      }
      if n > 0 && log[n - 1].source.Some? {
        var candidate := log[n - 1].source.value;
        if candidate in {New, Waiting, InProgress} {
          return candidate;
        }
      }
      if orders[id].technician.Some? {
        return Waiting;
      }
      status := New;
    }

    method Reject(id: nat, reviewer: nat) returns (rejected: bool)
      requires id < |orders|
      modifies this
      ensures Board() == E.Reject(old(Board()), id, reviewer)
      ensures rejected <==> old(orders)[id].company == reviewer && old(orders)[id].status == CancelRequested
    {
      if orders[id].company != reviewer || orders[id].status != CancelRequested {
        return false;
      }
      var restored := DetermineRestoreStatus(id);
      SaveAndLog(id, orders[id].(status := restored), CancelRequested);
      rejected := true;
    }

    /** `_copy_item_values`, row by row. */
    method CopyItemValues(source: nat, target: nat)
      requires forall key :: key in values ==> key.0 != target
      modifies this`values
      ensures values == E.CopiedValues(old(values), source, target)
    {
      var before := values;
      var items := set key | key in before && key.0 == source :: key.1;
      var copied: set<nat> := {};
      while items != {}
        invariant forall item: nat :: item in items || item in copied <==> (source, item) in before
        invariant items !! copied
        invariant forall key :: key in before ==> key in values && values[key] == before[key]
        invariant forall key :: key in values ==> key in before || (key.0 == target && key.1 in copied)
        invariant forall item :: item in copied ==>
            (target, item) in values && values[(target, item)] == before[(source, item)]
        decreases items
      {
        var item :| item in items;
        values := values[(target, item) := before[(source, item)]];
        items, copied := items - {item}, copied + {item};
      }
      CopiedIs(before, values, source, target);
    }

    method Recycle(id: nat, visibleAt2: int, visibleAt3: int) returns (replacement: Option<nat>)
      requires id < |orders| && forall key :: key in values ==> key.0 < |orders|
      modifies this
      ensures Board() == E.Recycle(old(Board()), id, visibleAt2, visibleAt3)
      ensures replacement == if E.Terminal(old(orders)[id].status) then None else Some(|old(orders)|)
    {
      var locked := orders[id];
      if locked.status in {Done, Cancelled} {
        return None;
      }
      var source := locked.status;
      var renewed := E.Replacement(locked, false, visibleAt2, visibleAt3);
      locked := locked.(status := Cancelled);
      locked := locked.(technician := None);
      SaveAndLog(id, locked, source);
      var inserted := InsertAndLog(renewed);
      CopyItemValues(id, inserted);
      replacement := Some(inserted);
    }

    method ReturnToCycle(id: nat, invoiced: bool, visibleAt2: int, visibleAt3: int) returns (replacement: Option<nat>)
      requires id < |orders| && forall key :: key in values ==> key.0 < |orders|
      modifies this
      ensures Board() == E.ReturnToCycle(old(Board()), id, invoiced, visibleAt2, visibleAt3)
      ensures replacement == if !invoiced && E.Returnable(old(orders)[id].status) then Some(|old(orders)|) else None
    {
      var locked := orders[id];
      if invoiced || locked.status !in {CancelRequested, New, Waiting, InProgress} {
        return None;
      }
      var source := locked.status;
      var renewed := E.Replacement(locked, true, visibleAt2, visibleAt3);
      SaveAndLog(id, locked.(status := Cancelled), source);
      var inserted := InsertAndLog(renewed);
      CopyItemValues(id, inserted);
      replacement := Some(inserted);
    }

    /** `update_status` by the assigned technician. */
    method TechnicianMove(id: nat, technician: nat, status: Status, autoRecycle: bool, visibleAt2: int, visibleAt3: int)
      returns (moved: bool)
      requires id < |orders| && forall key :: key in values ==> key.0 < |orders|
      modifies this
      ensures Board() == E.TechnicianMove(old(Board()), id, technician, status, autoRecycle, visibleAt2, visibleAt3)
      ensures moved <==>
                && old(orders)[id].technician == Some(technician)
                && E.MovesOrStays(old(orders)[id].status, status)
      ensures moved ==> orders[id].status == if old(orders)[id].status != status && status == CancelRequested
                                                && autoRecycle then Cancelled else status
    {
      var source := orders[id].status;
      if orders[id].technician != Some(technician) {
        return false;
      }
      if source == status {
        return true;
      }
      if !E.TechnicianMayMove(source, status) {
        return false;
      }
      if status == CancelRequested && autoRecycle {
        var replacement := Recycle(id, visibleAt2, visibleAt3);
        return true;
      }
      if status == Done {
        moved := Complete(id);
        return;
      }
      SaveAndLog(id, orders[id].(status := status), source);
      moved := true;
    }
  }

  /** A table with the old values and, for the target, those of the source is the copy. */
  lemma CopiedIs(before: map<(nat, nat), E.Value>, after: map<(nat, nat), E.Value>, source: nat, target: nat)
    requires forall key :: key in before ==> key.0 != target && key in after && after[key] == before[key]
    requires forall key :: key in after ==> key in before || (key.0 == target && (source, key.1) in before)
    requires forall item: nat :: (source, item) in before ==>
               (target, item) in after && after[(target, item)] == before[(source, item)]
    ensures after == E.CopiedValues(before, source, target)
  {
    var copy := E.CopiedValues(before, source, target);
    forall key: (nat, nat)
      ensures key in after <==> key in copy
      ensures key in after ==> after[key] == copy[key]
    {
      if key.0 == target {
        assert (source, key.1) in before ==> (target, key.1) in copy;
      }
    }
  }
}
