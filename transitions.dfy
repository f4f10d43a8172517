/** The order-status transition table and its lookup. The table is the only statement
    of the lifecycle in the code base; no service consults it before writing a status. */
module Transitions {
  import opened Config
  import opened Types

  /** One row per status: the statuses it may move to. */
  const ValidTransitions: map<string, seq<string>> := map[
    "created" := ["confirmed", "cancelled"],
    "confirmed" := ["preparing", "cancelled"],
    "preparing" := ["ready", "cancelled"],
    "ready" := ["assigned", "cancelled"],
    "assigned" := ["picked_up", "ready", "cancelled"],
    "picked_up" := ["in_transit", "cancelled"],
    "in_transit" := ["delivered", "cancelled"],
    "delivered" := [],
    "cancelled" := []
  ]

  /** The lookup on the table's own rows; a from-state without a row is never valid. */
  predicate IsValidTransition(from: string, to: string)
  {
    from in ValidTransitions && to in ValidTransitions[from]
  }

  predicate IsTerminal(s: OrderStatus)
  {
    s == Delivered || s == Cancelled
  }

  /** Position of a status in the lifecycle. */
  function Stage(s: OrderStatus): (n: nat)
    ensures n < |AllOrderStatuses| && AllOrderStatuses[n] == s
  {
    match s
    case Created => 0
    case Confirmed => 1
    case Preparing => 2
    case Ready => 3
    case Assigned => 4
    case PickedUp => 5
    case InTransit => 6
    case Delivered => 7
    case Cancelled => 8
  }

  /** The lifecycle described independently of the table: from a non-terminal status an
      order advances one stage, is cancelled, or (from assigned) returns to ready. */
  predicate LifecycleStep(a: OrderStatus, b: OrderStatus)
  {
    !IsTerminal(a) && (b == Cancelled || Stage(b) == Stage(a) + 1 || (a == Assigned && b == Ready))
  }

  /** The table has exactly one row per status, keyed by the status names, and every
      target it lists has a row of its own. */
  lemma TableHasNineRows()
    ensures forall s: OrderStatus :: StatusName(s) in ValidTransitions
    ensures forall k :: k in ValidTransitions ==> exists s: OrderStatus :: StatusName(s) == k
    ensures |ValidTransitions| == 9
    ensures forall from, to :: from in ValidTransitions && to in ValidTransitions[from] ==>
      to in ValidTransitions
  {
    forall k | k in ValidTransitions
      ensures exists s: OrderStatus :: StatusName(s) == k
    {
      if k == "created" { assert StatusName(Created) == k; }
      else if k == "confirmed" { assert StatusName(Confirmed) == k; }
      else if k == "preparing" { assert StatusName(Preparing) == k; }
      else if k == "ready" { assert StatusName(Ready) == k; }
      else if k == "assigned" { assert StatusName(Assigned) == k; }
      else if k == "picked_up" { assert StatusName(PickedUp) == k; }
      else if k == "in_transit" { assert StatusName(InTransit) == k; }
      else if k == "delivered" { assert StatusName(Delivered) == k; }
      else { assert StatusName(Cancelled) == k; }
    }
  }

  /** The table row for a status lists exactly its lifecycle successors. */
  lemma TableIsLifecycle(a: OrderStatus, b: OrderStatus)
    ensures IsValidTransition(StatusName(a), StatusName(b)) <==> LifecycleStep(a, b)
  {
    match a
    case Created => case Confirmed => case Preparing => case Ready => case Assigned =>
    case PickedUp => case InTransit => case Delivered => case Cancelled =>
  }

  lemma TerminalStatesHaveNoExit(to: string)
    ensures !IsValidTransition("delivered", to)
    ensures !IsValidTransition("cancelled", to)
  {
  }

  lemma ReassignmentIsLegal()
    ensures IsValidTransition(StatusName(Assigned), StatusName(Ready))
  {
  }

  lemma CancelFromEveryLiveStatus(s: OrderStatus)
    requires !IsTerminal(s)
    ensures IsValidTransition(StatusName(s), StatusName(Cancelled))
  {
    TableIsLifecycle(s, Cancelled);
  }

  lemma UnknownFromIsRejected(from: string, to: string)
    requires forall s: OrderStatus :: StatusName(s) != from
    ensures !IsValidTransition(from, to)
  {
    assert StatusName(Created) != from && StatusName(Confirmed) != from && StatusName(Preparing) != from;
    assert StatusName(Ready) != from && StatusName(Assigned) != from && StatusName(PickedUp) != from;
    assert StatusName(InTransit) != from && StatusName(Delivered) != from && StatusName(Cancelled) != from;
  }

  lemma TableExamples()
    ensures IsValidTransition("created", "confirmed") && IsValidTransition("ready", "assigned")
    ensures IsValidTransition("assigned", "picked_up") && IsValidTransition("in_transit", "delivered")
    ensures !IsValidTransition("created", "delivered") && !IsValidTransition("delivered", "created")
    ensures !IsValidTransition("cancelled", "ready")
    ensures IsValidTransition("created", "cancelled") && IsValidTransition("ready", "cancelled")
    ensures IsValidTransition("assigned", "cancelled")
  {
  }

  // ----- The lookup as written -----

  /** Names every plain object inherits from Object.prototype. */
  const ObjectPrototypeMembers: set<string> := {
    "constructor", "__proto__", "hasOwnProperty", "isPrototypeOf", "propertyIsEnumerable",
    "toLocaleString", "toString", "valueOf",
    "__defineGetter__", "__defineSetter__", "__lookupGetter__", "__lookupSetter__"
  }

  /** `validTransitions[from]?.includes(to) ?? false` evaluated on a plain object: an
      inherited member is not nullish, has no `includes`, and calling it throws. */
  function IsValidTransitionAsWritten(from: string, to: string): (r: Result<bool>)
    ensures from in ValidTransitions ==> r == Ok(IsValidTransition(from, to))
  {
    if from in ValidTransitions then Ok(to in ValidTransitions[from])
    else if from in ObjectPrototypeMembers then Err("TypeError: includes is not a function")
    else Ok(false)
  }

  /** An inherited member name as from-state throws instead of answering false. */
  lemma PrototypeKeyThrows()
    ensures IsValidTransitionAsWritten("constructor", "ready").Err?
    ensures IsValidTransitionAsWritten("toString", "cancelled").Err?
    ensures !IsValidTransition("constructor", "ready")
  {
  }

  /** The own-row lookup answers every from-state, and agrees with the written lookup
      wherever the latter does not throw. */
  lemma OwnRowLookupIsTotal(from: string, to: string)
    ensures IsValidTransitionAsWritten(from, to).Ok? ==>
      IsValidTransitionAsWritten(from, to).value == IsValidTransition(from, to)
    ensures from !in ValidTransitions ==> !IsValidTransition(from, to)
  {
  }
}
