/** The order services as steps on one board: orders, the audit log and the item values
    (apps/orders/services.py, apps/orders/cancel_review_service.py,
    apps/orders/recycle_service.py), and the public service request that also creates an
    order (apps/tenants/services.py). A refused step leaves the board as it is. */
module OrderEngine {
  import opened Options
  import opened Visibility

  /** One audit row; the old status of a creation is empty. */
  datatype LogEntry = LogEntry(order: nat, source: Option<Status>, target: Status)

  datatype Value = Value(number: Option<int>, text: Option<string>, flag: Option<bool>)

  /** Orders are identified by their position, values by order and item definition;
      `requests` are the orders that public service requests created. */
  datatype Board = Board(orders: seq<Order>, log: seq<LogEntry>, values: map<(nat, nat), Value>, requests: set<nat>)

  predicate Terminal(s: Status) { s in {Done, Cancelled} }

  predicate Active(s: Status) { s in {New, Waiting, InProgress} }

  /** Write an order row and log its move. */
  function Move(board: Board, id: nat, order: Order): Board
    requires id < |board.orders|
  {
    board.(orders := board.orders[id := order],
           log := board.log + [LogEntry(id, Some(board.orders[id].status), order.status)])
  }

  /** Insert an order row and log its creation. */
  function Insert(board: Board, order: Order): Board {
    board.(orders := board.orders + [order], log := board.log + [LogEntry(|board.orders|, None, order.status)])
  }

  // ------------------------------------------------------------------- Services

  function Create(board: Board, order: Order): Board {
    Insert(board, order.(status := New, technician := None, acceptedAt := None))
  }

  /** Creation by an administrator: any status, or WAITING with an available technician. */
  function CreateByAdmin(board: Board, order: Order, technician: Option<nat>, now: int): Board {
    if order.category.None? then board
    else
      Insert(board, if technician.Some?
                    then order.(technician := technician, status := Waiting, acceptedAt := Some(now))
                    else order.(technician := None, acceptedAt := None))
  }

  /** A public service request: an order under review, and no log row. */
  function PublicRequest(board: Board, company: nat, category: Option<nat>): Board {
    if category.None? then board
    else
      board.(orders := board.orders + [Order(company, PendingReview, None, category, "", None, None, None, None, None)],
             requests := board.requests + {|board.orders|})
  }

  function Accept(board: Board, id: nat, technician: Technician, settings: Settings, now: int): Board {
    if id >= |board.orders| || AcceptChecks(board.orders[id], technician, settings, board.orders, now).Some? then board
    else
      Move(board, id, board.orders[id].(technician := Some(technician.id), status := Waiting, acceptedAt := Some(now)))
  }

  predicate Assignable(order: Order, technician: Technician) {
    order.company == technician.company && technician.available && order.status in {New, PendingReview}
  }

  /** `assign`. `invoiced` says whether the order has an invoice that is not cancelled. */
  function Assign(board: Board, id: nat, technician: Technician, invoiced: bool, now: int): Board {
    if id >= |board.orders| || !Assignable(board.orders[id], technician) then board
    else if board.orders[id].technician == Some(technician.id) || invoiced then board
    else
      Move(board, id, board.orders[id].(technician := Some(technician.id), status := Waiting, acceptedAt := Some(now)))
  }

  function Unassign(board: Board, id: nat, invoiced: bool): Board {
    if id >= |board.orders| || board.orders[id].status != Waiting || invoiced then board
    else Move(board, id, board.orders[id].(technician := None, status := New, acceptedAt := None))
  }

  /** Assignment from the edit page: a waiting order may change hands and stays waiting. */
  function EditAssign(board: Board, id: nat, technician: Technician, company: nat, invoiced: bool, now: int): Board {
    if id >= |board.orders| || board.orders[id].technician == Some(technician.id) then board
    else if board.orders[id].status !in {PendingReview, New, Waiting} then board
    else if technician.company != company || !technician.available || invoiced then board
    else
      var order := board.orders[id];
      Move(board, id, order.(technician := Some(technician.id),
                             acceptedAt := if order.acceptedAt.Some? then order.acceptedAt else Some(now),
                             status := if order.status in {New, PendingReview} then Waiting else order.status))
  }

  /** The submitted fields of an edit that decide who sees the order; absent ones stay. */
  datatype Changes = Changes(category: Option<Option<nat>>, serviceDate: Option<Option<int>>,
                             scheduledFor: Option<Option<int>>, requiredSkill: Option<string>, status: Option<Status>)

  function OrElse<T>(change: Option<T>, current: T): T {
    if change.Some? then change.value else current
  }

  function Changed(order: Order, c: Changes): Order {
    order.(category := OrElse(c.category, order.category),
           serviceDate := OrElse(c.serviceDate, order.serviceDate),
           scheduledFor := OrElse(c.scheduledFor, order.scheduledFor),
           requiredSkill := OrElse(c.requiredSkill, order.requiredSkill),
           status := OrElse(c.status, order.status))
  }

  /** An edit by an administrator, with or without a new status; always logged. */
  function Edit(board: Board, id: nat, changes: Changes): Board {
    if id >= |board.orders| || Terminal(board.orders[id].status) then board
    else if changes.status.Some? && Terminal(changes.status.value) then board
    else Move(board, id, Changed(board.orders[id], changes))
  }

  function Complete(board: Board, id: nat): Board {
    if id >= |board.orders| || board.orders[id].status != InProgress then board
    else Move(board, id, board.orders[id].(status := Done))
  }

  function RequestCancel(board: Board, id: nat): Board {
    if id >= |board.orders| || !Active(board.orders[id].status) then board
    else Move(board, id, board.orders[id].(status := CancelRequested))
  }

  function ForceCancel(board: Board, id: nat): Board {
    if id >= |board.orders| || Terminal(board.orders[id].status) then board
    else Move(board, id, board.orders[id].(status := Cancelled, technician := None))
  }

  function Approve(board: Board, id: nat, reviewer: nat): Board {
    if id >= |board.orders| || board.orders[id].company != reviewer || board.orders[id].status != CancelRequested
        then board
    else Move(board, id, board.orders[id].(status := Cancelled))
  }

  /** The newest log entry by which the order entered CANCEL_REQUESTED. */
  function LastRequest(log: seq<LogEntry>, id: nat): Option<LogEntry> {
    if log == [] then None
    else
      var last := log[|log| - 1];
      if last.order == id && last.target == CancelRequested then Some(last) else LastRequest(log[..|log| - 1], id)
  }

  function Fallback(order: Order): Status {
    if order.technician.Some? then Waiting else New
  }

  function RestoreStatus(board: Board, id: nat): Status
    requires id < |board.orders|
  {
    var entry := LastRequest(board.log, id);
    if entry.Some? && entry.value.source.Some? && Active(entry.value.source.value) then entry.value.source.value
    else Fallback(board.orders[id])
  }

  function Reject(board: Board, id: nat, reviewer: nat): Board {
    if id >= |board.orders| || board.orders[id].company != reviewer || board.orders[id].status != CancelRequested
        then board
    else Move(board, id, board.orders[id].(status := RestoreStatus(board, id)))
  }

  /** The values of one order, moved to another. */
  function CopiedValues(values: map<(nat, nat), Value>, source: nat, target: nat): map<(nat, nat), Value> {
    values + map key | key in values && key.0 == source :: (target, key.1) := values[key]
  }

  /** A fresh NEW order with the business data of the old one. */
  function Replacement(order: Order, keepServiceDate: bool, visibleAt2: int, visibleAt3: int): Order {
    order.(status := New, technician := None, acceptedAt := None,
           serviceDate := if keepServiceDate then order.serviceDate else None,
           visibleAt2 := Some(visibleAt2), visibleAt3 := Some(visibleAt3))
  }

  /** Cancel the old row, insert its replacement, copy the values. */
  function Replace(board: Board, id: nat, closed: Order, replacement: Order): Board
    requires id < |board.orders|
  {
    var inserted := Insert(Move(board, id, closed), replacement);
    inserted.(values := CopiedValues(board.values, id, |board.orders|))
  }

  /** `recycle`: releases the technician and does not carry the service date over. */
  function Recycle(board: Board, id: nat, visibleAt2: int, visibleAt3: int): Board {
    if id >= |board.orders| || Terminal(board.orders[id].status) then board
    else
      var order := board.orders[id];
      Replace(board, id, order.(status := Cancelled, technician := None),
          Replacement(order, false, visibleAt2, visibleAt3))
  }

  predicate Returnable(status: Status) { status in {CancelRequested, New, Waiting, InProgress} }

  /** `return_to_cycle`: keeps the technician on the cancelled order, for its history. */
  function ReturnToCycle(board: Board, id: nat, invoiced: bool, visibleAt2: int, visibleAt3: int): Board {
    if id >= |board.orders| || invoiced || !Returnable(board.orders[id].status) then board
    else
      var order := board.orders[id];
      Replace(board, id, order.(status := Cancelled), Replacement(order, true, visibleAt2, visibleAt3))
  }

  predicate TechnicianMayMove(from: Status, to: Status) {
    match from
    case Waiting => to in {InProgress, CancelRequested}
    case InProgress => to in {Done, CancelRequested}
    case _ => false
  }

  predicate MovesOrStays(from: Status, to: Status) { from == to || TechnicianMayMove(from, to) }

  /** The assigned technician moves the order on; a cancel request may recycle it at once. */
  function TechnicianMove(board: Board, id: nat, technician: nat, status: Status, autoRecycle: bool,
                          visibleAt2: int, visibleAt3: int): Board
  {
    if id >= |board.orders| || board.orders[id].technician != Some(technician) then board
    else if board.orders[id].status == status || !TechnicianMayMove(board.orders[id].status, status) then board
    else if status == CancelRequested && autoRecycle then Recycle(board, id, visibleAt2, visibleAt3)
    else if status == Done then Complete(board, id)
    else Move(board, id, board.orders[id].(status := status))
  }

  // ----------------------------------------------------------------------- Runs

  datatype Step =
    | DoCreate(order: Order)
    | DoPublicRequest(company: nat, category: Option<nat>)
    | DoCreateByAdmin(order: Order, assignee: Option<nat>, now: int)
    | DoAccept(id: nat, technician: Technician, settings: Settings, now: int)
    | DoAssign(id: nat, technician: Technician, invoiced: bool, now: int)
    | DoUnassign(id: nat, invoiced: bool)
    | DoEditAssign(id: nat, technician: Technician, company: nat, invoiced: bool, now: int)
    | DoEdit(id: nat, changes: Changes)
    | DoComplete(id: nat)
    | DoRequestCancel(id: nat)
    | DoForceCancel(id: nat)
    | DoApprove(id: nat, reviewer: nat)
    | DoReject(id: nat, reviewer: nat)
    | DoRecycle(id: nat, visibleAt2: int, visibleAt3: int)
    | DoReturnToCycle(id: nat, invoiced: bool, visibleAt2: int, visibleAt3: int)
    | DoTechnicianMove(id: nat, mover: nat, goal: Status, autoRecycle: bool, visibleAt2: int, visibleAt3: int)

  function Take(board: Board, s: Step): Board {
    match s
    case DoCreate(order) => Create(board, order)
    case DoPublicRequest(company, category) => PublicRequest(board, company, category)
    case DoCreateByAdmin(order, technician, now) => CreateByAdmin(board, order, technician, now)
    case DoAccept(id, technician, settings, now) => Accept(board, id, technician, settings, now)
    case DoAssign(id, technician, invoiced, now) => Assign(board, id, technician, invoiced, now)
    case DoUnassign(id, invoiced) => Unassign(board, id, invoiced)
    case DoEditAssign(id, technician, company, invoiced, now) =>
      EditAssign(board, id, technician, company, invoiced, now)
    case DoEdit(id, changes) => Edit(board, id, changes)
    case DoComplete(id) => Complete(board, id)
    case DoRequestCancel(id) => RequestCancel(board, id)
    case DoForceCancel(id) => ForceCancel(board, id)
    case DoApprove(id, reviewer) => Approve(board, id, reviewer)
    case DoReject(id, reviewer) => Reject(board, id, reviewer)
    case DoRecycle(id, v2, v3) => Recycle(board, id, v2, v3)
    case DoReturnToCycle(id, invoiced, v2, v3) => ReturnToCycle(board, id, invoiced, v2, v3)
    case DoTechnicianMove(id, technician, status, auto, v2, v3) =>
      TechnicianMove(board, id, technician, status, auto, v2, v3)
  }

  function Run(board: Board, steps: seq<Step>): Board
    decreases |steps|
  {
    if steps == [] then board else Run(Take(board, steps[0]), steps[1..])
  }
}
