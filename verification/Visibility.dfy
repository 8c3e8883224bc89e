/** Which new orders a technician may see and accept: the per-order predicate
    (apps/orders/eligibility.py, apps/orders/permissions.py), the set query
    (apps/orders/selectors.py) and the checks inside the accept transaction
    (apps/orders/services.py).

    Times are seconds on the company's local clock; a day is 86400 of them. */
module Visibility {
  import opened Options

  datatype Status = PendingReview | New | Waiting | InProgress | Done | CancelRequested | Cancelled

  datatype Order = Order(company: nat, status: Status, technician: Option<nat>, category: Option<nat>,
                         requiredSkill: string, serviceDate: Option<int>, scheduledFor: Option<int>,
                         visibleAt2: Option<int>, visibleAt3: Option<int>, acceptedAt: Option<int>)

  /** A technician: priority by category, and legacy skills by name. */
  datatype Technician = Technician(id: nat, company: nat, available: bool,
                                   priorities: map<nat, int>, skills: set<string>)

  datatype Settings = Settings(maxActive: int, showFuture: bool, gate: Option<int>)

  const LEGACY_MAX_ACTIVE := 5

  function DayOf(t: int): int { t / 86400 }

  function TimeOf(t: int): int { t % 86400 }

  /** The service date comes first, the scheduled moment is the fallback. */
  function ServiceDay(order: Order): Option<int> {
    if order.serviceDate.Some? then order.serviceDate
    else if order.scheduledFor.Some? then Some(DayOf(order.scheduledFor.value)) else None
  }

  function ActiveCount(orders: seq<Order>, technician: Technician): nat {
    if orders == [] then 0
    else
      var last := orders[|orders| - 1];
      ActiveCount(orders[..|orders| - 1], technician)
      + (if last.company == technician.company && last.technician == Some(technician.id)
            && last.status in {Waiting, InProgress} then 1 else 0)
  }

  // ------------------------------------------------------- The per-order predicate

  predicate FutureVisible(order: Order, settings: Settings, now: int) {
    var day := ServiceDay(order);
    if day.None? then true
    else if day.value <= DayOf(now) then true
    else if !settings.showFuture then false
    else if settings.gate.None? then true
    else TimeOf(now) >= settings.gate.value
  }

  predicate LimitReached(orders: seq<Order>, technician: Technician, limit: int) {
    0 < limit && limit <= ActiveCount(orders, technician)
  }

  predicate Reached(at: Option<int>, now: int) {
    at.Some? && at.value <= now
  }

  predicate CategoryVisible(order: Order, technician: Technician, settings: Settings, orders: seq<Order>, now: int) {
    if order.category.None? || order.category.value !in technician.priorities then false
    else if LimitReached(orders, technician, settings.maxActive) then false
    else
      var priority := technician.priorities[order.category.value];
      if priority == 2 && !Reached(order.visibleAt2, now) then false
      else if priority == 3 && !Reached(order.visibleAt3, now) then false
      else FutureVisible(order, settings, now)
  }

  predicate LegacyVisible(order: Order, technician: Technician, settings: Settings, orders: seq<Order>, now: int) {
    if LimitReached(orders, technician, LEGACY_MAX_ACTIVE) then false
    else if order.requiredSkill != "" && order.requiredSkill !in technician.skills then false
    else FutureVisible(order, settings, now)
  }

  /** `is_order_visible_to_technician`. */
  predicate VisibleTo(order: Order, technician: Technician, settings: Settings, orders: seq<Order>, now: int) {
    && order.company == technician.company
    && order.status == New
    && order.technician.None?
    && technician.available
    && (if order.category.Some? then CategoryVisible(order, technician, settings, orders, now)
        else LegacyVisible(order, technician, settings, orders, now))
  }

  /** `is_order_accept_allowed_by_service_date`. */
  predicate AcceptDateReached(order: Order, settings: Settings, now: int) {
    var day := ServiceDay(order);
    if day.None? then true
    else if day.value < DayOf(now) then true
    else if day.value > DayOf(now) then false
    else settings.gate.None? || TimeOf(now) >= settings.gate.value
  }

  /** `can_accept_order`, for a technician's own account. */
  predicate CanAccept(order: Order, technician: Technician, settings: Settings, orders: seq<Order>, now: int) {
    VisibleTo(order, technician, settings, orders, now) && AcceptDateReached(order, settings, now)
  }

  // ------------------------------------------------------------------ The query

  /** `get_available_orders`: positions of the matching orders. The query is composed of
      one clause per priority and one per kind of date, as the original composes it. */
  function AvailableOrders(orders: seq<Order>, technician: Technician, settings: Settings, now: int): set<nat> {
    if !technician.available then {}
    else if settings.maxActive > 0 && ActiveCount(orders, technician) >= settings.maxActive then {}
    else if technician.priorities == map[] then {}
    else
      var first := set c | c in technician.priorities && technician.priorities[c] == 1;
      var second := set c | c in technician.priorities && technician.priorities[c] == 2;
      var third := set c | c in technician.priorities && technician.priorities[c] == 3;
      var today := DayOf(now);
      var showFuture := settings.showFuture && (settings.gate.Some? ==> TimeOf(now) >= settings.gate.value);
      set id | 0 <= id < |orders|
               && BaseQuery(orders[id], technician)
               && PriorityQuery(orders[id], first, second, third, now)
               && (DateQuery(orders[id], today) || (showFuture && FutureQuery(orders[id], today)))
  }

  predicate BaseQuery(order: Order, technician: Technician) {
    && order.company == technician.company
    && order.status == New
    && order.technician.None?
    && order.category.Some? && order.category.value in technician.priorities
  }

  predicate PriorityQuery(order: Order, first: set<nat>, second: set<nat>, third: set<nat>, now: int)
    requires order.category.Some?
  {
    || order.category.value in first
    || (order.category.value in second && order.visibleAt2.Some? && order.visibleAt2.value <= now)
    || (order.category.value in third && order.visibleAt3.Some? && order.visibleAt3.value <= now)
  }

  predicate DateQuery(order: Order, today: int) {
    || (order.serviceDate.Some? && order.serviceDate.value <= today)
    || (order.serviceDate.None? && order.scheduledFor.None?)
    || (order.serviceDate.None? && order.scheduledFor.Some? && DayOf(order.scheduledFor.value) <= today)
  }

  predicate FutureQuery(order: Order, today: int) {
    || (order.serviceDate.Some? && order.serviceDate.value > today)
    || (order.serviceDate.None? && order.scheduledFor.Some? && DayOf(order.scheduledFor.value) > today)
  }

  /** The date clauses of the query are the per-order date rule. */
  lemma DateClausesAreFutureVisible(order: Order, settings: Settings, now: int)
    ensures FutureVisible(order, settings, now)
            <==> DateQuery(order, DayOf(now))
                 || (settings.showFuture && (settings.gate.Some? ==> TimeOf(now) >= settings.gate.value)
                     && FutureQuery(order, DayOf(now)))
  {
  }

  /** Query and predicate agree: an order is listed exactly when it has a category, is
      visible, and its category's priority is one of the three the query knows. For
      technicians with valid priorities the last part always holds. */
  lemma QueryMatchesPredicate(orders: seq<Order>, technician: Technician, settings: Settings, now: int, id: nat)
    requires id < |orders|
    ensures id in AvailableOrders(orders, technician, settings, now)
            <==> && orders[id].category.Some?
                 && VisibleTo(orders[id], technician, settings, orders, now)
                 && technician.priorities[orders[id].category.value] in {1, 2, 3}
  {
    DateClausesAreFutureVisible(orders[id], settings, now);
    if technician.priorities == map[] && orders[id].category.Some? {
      assert orders[id].category.value !in technician.priorities;
    }
  }

  // -------------------------------------------------------- The accept transaction

  datatype Refusal = OtherCompany | NotNew | Assigned | NoCategory | Unavailable | NoSkill | TooManyActive
                   | TooEarlyForPriority | FutureHidden | BeforeServiceDate

  /** The checks of `accept`, in order; the first failing one is raised. */
  function AcceptChecks(order: Order, technician: Technician, settings: Settings, orders: seq<Order>,
      now: int): Option<Refusal>
  {
    if order.company != technician.company then Some(OtherCompany)
    else if order.status != New then Some(NotNew)
    else if order.technician.Some? then Some(Assigned)
    else if order.category.None? then Some(NoCategory)
    else if !technician.available then Some(Unavailable)
    else if order.category.value !in technician.priorities then Some(NoSkill)
    else if settings.maxActive > 0 && ActiveCount(orders, technician) >= settings.maxActive then Some(TooManyActive)
    else
      var priority := technician.priorities[order.category.value];
      if priority == 2 && (order.visibleAt2.None? || order.visibleAt2.value > now) then Some(TooEarlyForPriority)
      else if priority == 3 && (order.visibleAt3.None? || order.visibleAt3.value > now) then Some(TooEarlyForPriority)
      else if !FutureVisible(order, settings, now) then Some(FutureHidden)
      else if !AcceptDateReached(order, settings, now) then Some(BeforeServiceDate)
      else None
  }

  /** The transaction accepts exactly what the permission allows and that has a category:
      a visible legacy order passes the permission and is still refused. */
  lemma AcceptMatchesPermission(order: Order, technician: Technician, settings: Settings, orders: seq<Order>, now: int)
    ensures AcceptChecks(order, technician, settings, orders, now).None?
            <==> CanAccept(order, technician, settings, orders, now) && order.category.Some?
    ensures CanAccept(order, technician, settings, orders, now) && order.category.None? ==>
              AcceptChecks(order, technician, settings, orders, now) == Some(NoCategory)
  {
  }

  /** Whatever can be accepted is listed, for valid priorities. */
  lemma AcceptableIsListed(orders: seq<Order>, technician: Technician, settings: Settings, now: int, id: nat)
    requires id < |orders|
    requires forall c :: c in technician.priorities ==> technician.priorities[c] in {1, 2, 3}
    requires AcceptChecks(orders[id], technician, settings, orders, now).None?
    ensures id in AvailableOrders(orders, technician, settings, now)
  {
    QueryMatchesPredicate(orders, technician, settings, now, id);
    AcceptMatchesPermission(orders[id], technician, settings, orders, now);
  }

  /** The service-date gate opens once and stays open. */
  lemma AcceptDateIsMonotone(order: Order, settings: Settings, now: int, later: int)
    requires now <= later && AcceptDateReached(order, settings, now)
    ensures AcceptDateReached(order, settings, later)
    ensures FutureVisible(order, settings, now)
  {
    if DayOf(now) == DayOf(later) {
      assert TimeOf(now) <= TimeOf(later);
    }
  }

  /** Visibility of a future order is not monotone: with a daily gate it shows in the
      evening and hides again at midnight. */
  lemma FutureVisibilityComesAndGoes(order: Order, settings: Settings, evening: int)
    requires settings.showFuture && settings.gate == Some(TimeOf(evening)) && TimeOf(evening) > 0
    requires ServiceDay(order) == Some(DayOf(evening) + 2)
    ensures FutureVisible(order, settings, evening)
    ensures !FutureVisible(order, settings, 86400 * (DayOf(evening) + 1))
    ensures evening < 86400 * (DayOf(evening) + 1)
  {
    assert TimeOf(86400 * (DayOf(evening) + 1)) == 0;
    assert DayOf(86400 * (DayOf(evening) + 1)) == DayOf(evening) + 1;
  }

  // ------------------------------------------------------------ What the rules mean

  /** An order of the technician's company that waits for them or is in progress with them. */
  predicate OccupiedBy(order: Order, technician: Technician) {
    && order.company == technician.company && order.technician == Some(technician.id)
    && (order.status == Waiting || order.status == InProgress)
  }

  /** The positions of a technician's active orders. */
  function ActiveOrders(orders: seq<Order>, technician: Technician): set<nat> {
    set p | 0 <= p < |orders| && OccupiedBy(orders[p], technician)
  }

  lemma ActiveStep(orders: seq<Order>, technician: Technician)
    requires orders != []
    ensures |ActiveOrders(orders, technician)|
            == |ActiveOrders(orders[..|orders| - 1], technician)|
               + (if OccupiedBy(orders[|orders| - 1], technician) then 1 else 0)
  {
    hide OccupiedBy;
    var front, n := orders[..|orders| - 1], |orders| - 1;
    if OccupiedBy(orders[n], technician) {
      assert ActiveOrders(orders, technician) == ActiveOrders(front, technician) + {n};
    } else {
      assert ActiveOrders(orders, technician) == ActiveOrders(front, technician);
    }
  }

  /** The count every rule uses is the number of those orders. */
  lemma {:induction false} ActiveCountIs(orders: seq<Order>, technician: Technician)
    ensures ActiveCount(orders, technician) == |ActiveOrders(orders, technician)|
  {
    if orders == [] {
      assert ActiveOrders(orders, technician) == {};
    } else {
      ActiveCountIs(orders[..|orders| - 1], technician);
      ActiveStep(orders, technician);
      hide ActiveOrders;
    }
  }

  /** A technician with as many active orders as the company allows sees no order, is
      permitted none and is given none; the same for orders without a category from five
      active orders on. */
  lemma FullTechnicianGetsNothing(orders: seq<Order>, technician: Technician, settings: Settings, now: int,
      order: Order)
    ensures 0 < settings.maxActive <= |ActiveOrders(orders, technician)| ==>
              && AvailableOrders(orders, technician, settings, now) == {}
              && AcceptChecks(order, technician, settings, orders, now).Some?
              && (order.category.Some? ==> !VisibleTo(order, technician, settings, orders, now))
    ensures 5 <= |ActiveOrders(orders, technician)| && order.category.None? ==>
              !VisibleTo(order, technician, settings, orders, now)
  {
    ActiveCountIs(orders, technician);
    hide ActiveCount, ActiveOrders, FutureVisible, AcceptDateReached;
  }

  /** An order's service day: its date, or else the day of its scheduled moment. */
  predicate OnDay(order: Order, day: int) {
    || order.serviceDate == Some(day)
    || (order.serviceDate.None? && order.scheduledFor.Some?
        && 86400 * day <= order.scheduledFor.value < 86400 * (day + 1))
  }

  /** The accept gate is one moment: the time of the gate on the service day, midnight if
      there is no gate. */
  lemma AcceptGateIsAMoment(order: Order, settings: Settings, now: int, day: int)
    requires settings.gate.Some? ==> 0 <= settings.gate.value < 86400
    ensures OnDay(order, day) ==>
              (AcceptDateReached(order, settings, now)
               <==> 86400 * day + (if settings.gate.Some? then settings.gate.value else 0) <= now)
    ensures order.serviceDate.None? && order.scheduledFor.None? ==> AcceptDateReached(order, settings, now)
  {
  }

  /** An order is date-visible from midnight of its day on; before, only where future orders
      are shown and the day is past the gate. */
  lemma FutureVisibleIs(order: Order, settings: Settings, now: int, day: int, midnight: int)
    requires midnight % 86400 == 0 && midnight <= now < midnight + 86400
    ensures OnDay(order, day) ==>
              (FutureVisible(order, settings, now)
               <==> || 86400 * day <= now
                    || (settings.showFuture && (settings.gate.Some? ==> midnight + settings.gate.value <= now)))
    ensures order.serviceDate.None? && order.scheduledFor.None? ==> FutureVisible(order, settings, now)
  {
  }

  /** Which orders without a category are visible. */
  lemma LegacyVisibleIff(order: Order, technician: Technician, settings: Settings, orders: seq<Order>, now: int)
    requires order.category.None?
    ensures VisibleTo(order, technician, settings, orders, now)
            <==> && order.company == technician.company && order.status == New && order.technician == None
                 && technician.available && |ActiveOrders(orders, technician)| < 5
                 && (order.requiredSkill == "" || order.requiredSkill in technician.skills)
                 && FutureVisible(order, settings, now)
  {
    ActiveCountIs(orders, technician);
    hide ActiveCount, ActiveOrders, FutureVisible;
  }

  /** The delay of an order's category has passed for a technician of this priority. */
  predicate DelayPassed(order: Order, priority: int, now: int) {
    && (priority == 2 ==> order.visibleAt2.Some? && order.visibleAt2.value <= now)
    && (priority == 3 ==> order.visibleAt3.Some? && order.visibleAt3.value <= now)
  }

  /** Which orders with a category are visible. */
  lemma CategoryVisibleIff(order: Order, technician: Technician, settings: Settings, orders: seq<Order>, now: int)
    requires order.category.Some?
    ensures VisibleTo(order, technician, settings, orders, now)
            <==> && order.company == technician.company && order.status == New && order.technician == None
                 && technician.available && order.category.value in technician.priorities
                 && (settings.maxActive <= 0 || |ActiveOrders(orders, technician)| < settings.maxActive)
                 && DelayPassed(order, technician.priorities[order.category.value], now)
                 && FutureVisible(order, settings, now)
  {
    ActiveCountIs(orders, technician);
    hide ActiveCount, ActiveOrders, FutureVisible;
  }

  /** The reason given for a refusal holds. */
  lemma RefusalIsReason(order: Order, technician: Technician, settings: Settings, orders: seq<Order>, now: int)
    requires AcceptChecks(order, technician, settings, orders, now).Some?
    ensures match AcceptChecks(order, technician, settings, orders, now).value
            case OtherCompany => order.company != technician.company
            case NotNew => order.status != New
            case Assigned => order.technician.Some?
            case NoCategory => order.category.None?
            case Unavailable => !technician.available
            case NoSkill => order.category.Some? && order.category.value !in technician.priorities
            case TooManyActive => 0 < settings.maxActive <= |ActiveOrders(orders, technician)|
            case TooEarlyForPriority =>
              order.category.Some? && order.category.value in technician.priorities
              && !DelayPassed(order, technician.priorities[order.category.value], now)
            case FutureHidden => !FutureVisible(order, settings, now)
            case BeforeServiceDate => !AcceptDateReached(order, settings, now)
  {
    ActiveCountIs(orders, technician);
    hide ActiveCount, ActiveOrders, FutureVisible, AcceptDateReached;
  }
}
