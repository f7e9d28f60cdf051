/** The load worker's clock readings, and what they make of its schedule. */
module LoadReadings {
  import opened Prelude
  import opened LoadSchedule

  // ---------- The readings ----------

  /** Why the clock is read: at the head of the send loop, to fill a slot by, or for anything else. */
  datatype Purpose = AtHead | ToFill | Otherwise

  /** The readings of a worker's clock, the latest outermost. */
  datatype Log = Begun(at: int) | Then(earlier: Log, at: int, purpose: Purpose)

  /** The reading before is one the loop's head let pass. */
  predicate LetPass(plan: Plan, log: Log) {
    log.Then? && log.purpose.AtHead? && log.at < plan.measurementEnd
  }

  /**
   `later` is `earlier` with more readings, none of them going back; a slot is filled by a reading only right after the
   head of the loop saw a moment before the end of the measurement.
   */
  predicate Grown(plan: Plan, later: Log, earlier: Log) {
    later == earlier || (
      && later.Then? && later.earlier.at <= later.at
      && (later.purpose.ToFill? ==> LetPass(plan, later.earlier))
      && Grown(plan, later.earlier, earlier))
  }

  /** The readings that `later` has more were neither at the head of the loop nor to fill a slot by. */
  predicate Aside(later: Log, earlier: Log) {
    later == earlier || (
      later.Then? && later.purpose.Otherwise? && later.earlier.at <= later.at && Aside(later.earlier, earlier))
  }

  /** Where the readings made since `earlier` take the schedule. */
  function Scheduled(plan: Plan, c: Cursor, later: Log, earlier: Log): Cursor
    requires plan.Valid()
  {
    if later == earlier || later.Begun? then c
    else if later.purpose.ToFill? then AfterLook(plan, Scheduled(plan, c, later.earlier, earlier), later.at)
    else Scheduled(plan, c, later.earlier, earlier)
  }

  /** The last reading since `earlier` that a slot was to be filled by. */
  function LastLook(later: Log, earlier: Log): Option<int> {
    if later == earlier || later.Begun? then None
    else if later.purpose.ToFill? then Some(later.at)
    else LastLook(later.earlier, earlier)
  }

  function Length(log: Log): nat {
    if log.Begun? then 0 else Length(log.earlier) + 1
  }

  lemma {:induction false} GrownIsLonger(plan: Plan, later: Log, earlier: Log)
    requires Grown(plan, later, earlier)
    ensures Length(earlier) <= Length(later)
  {
    if later != earlier {
      GrownIsLonger(plan, later.earlier, earlier);
    }
  }

  lemma {:induction false} AsideFurther(later: Log, middle: Log, earlier: Log)
    requires Aside(later, middle) && Aside(middle, earlier)
    ensures Aside(later, earlier)
  {
    if later != middle {
      AsideFurther(later.earlier, middle, earlier);
    }
  }

  lemma OneAside(log: Log, at: int)
    requires log.at <= at
    ensures Aside(Then(log, at, Otherwise), log)
  {
    assert Aside(log, log);
  }

  lemma OneMore(plan: Plan, c: Cursor, log: Log, earlier: Log, at: int, purpose: Purpose)
    requires plan.Valid() && Grown(plan, log, earlier) && log.at <= at && (purpose.ToFill? ==> LetPass(plan, log))
    ensures var more := Then(log, at, purpose);
      && Grown(plan, more, earlier)
      && Scheduled(plan, c, more, earlier)
         == if purpose.ToFill? then AfterLook(plan, Scheduled(plan, c, log, earlier), at)
            else Scheduled(plan, c, log, earlier)
  {
    GrownIsLonger(plan, log, earlier);
    assert Then(log, at, purpose) != earlier;
  }

  /** Readings aside leave the schedule alone. */
  lemma {:induction false} AsideChangesNothing(plan: Plan, c: Cursor, later: Log, middle: Log, earlier: Log)
    requires plan.Valid() && Grown(plan, middle, earlier) && Aside(later, middle)
    ensures Grown(plan, later, earlier) && Scheduled(plan, c, later, earlier) == Scheduled(plan, c, middle, earlier)
  {
    if later != middle {
      AsideChangesNothing(plan, c, later.earlier, middle, earlier);
      OneMore(plan, c, later.earlier, earlier, later.at, later.purpose);
    }
  }

  // ---------- How far the schedule gets ----------

  /** Where the schedule stands once a reading has been acted on, whatever was read before it. */
  function Reached(plan: Plan, observedAt: int): nat
    requires plan.Valid()
  {
    if observedAt < plan.start then 0
    else
      var slot := DueSlot(plan, 0, observedAt);
      if plan.SlotTime(slot) < plan.measurementEnd then slot + 1 else slot
  }

  lemma OneLookReaches(plan: Plan, c: Cursor, before: int, observedAt: int)
    requires plan.Valid() && before <= observedAt && c.nextSlot == Reached(plan, before)
    ensures AfterLook(plan, c, observedAt).nextSlot == Reached(plan, observedAt)
  {
    if plan.start <= observedAt {
      var slot := DueSlot(plan, 0, observedAt);
      if observedAt < plan.SlotTime(c.nextSlot) {
        SlotIsUnique(plan, DueSlot(plan, 0, before), slot, observedAt);
      } else {
        LookDecides(plan, c, observedAt);
        SlotIsUnique(plan, DueSlot(plan, c.nextSlot, observedAt), slot, observedAt);
      }
    }
  }

  /** Only the last reading acted on decides how far the schedule gets. */
  lemma {:induction false} LastLookReaches(plan: Plan, later: Log, earlier: Log)
    requires plan.Valid() && Grown(plan, later, earlier)
    ensures var c, look := Scheduled(plan, Cursor(0, []), later, earlier), LastLook(later, earlier);
      if look.None? then c == Cursor(0, []) else look.value <= later.at && c.nextSlot == Reached(plan, look.value)
  {
    if later != earlier {
      LastLookReaches(plan, later.earlier, earlier);
      if later.purpose.ToFill? {
        var before := LastLook(later.earlier, earlier);
        OneLookReaches(plan, Scheduled(plan, Cursor(0, []), later.earlier, earlier),
                       if before.Some? then before.value else Min(plan.start - 1, later.at), later.at);
      }
    }
  }

  /** At or past the plan's last slot, and before the second slot after it. */
  predicate EndsInPlan(plan: Plan, observedAt: int)
    requires plan.Valid()
  {
    var n := SlotsInPlan(plan);
    (n > 0 ==> plan.SlotTime(n - 1) <= observedAt) && observedAt < plan.SlotTime(n + 1)
  }

  lemma ReachedAgainstPlan(plan: Plan, observedAt: int)
    requires plan.Valid()
    ensures Reached(plan, observedAt) == SlotsInPlan(plan) <==> EndsInPlan(plan, observedAt)
    ensures Reached(plan, observedAt) > SlotsInPlan(plan) <==> observedAt >= plan.SlotTime(SlotsInPlan(plan) + 1)
  {
    var n := SlotsInPlan(plan);
    if observedAt < plan.start {
      SlotTimeAtLeast(plan, n + 1);
      if n > 0 {
        SlotTimeAtLeast(plan, n - 1);
      }
    } else {
      var slot := DueSlot(plan, 0, observedAt);
      SlotIsInPlanIff(plan, slot);
      SlotOrder(plan, slot, observedAt, n + 1);
      if n > 0 {
        SlotOrder(plan, slot, observedAt, n - 1);
      }
    }
  }

  /**
   Accepted and missed slots add up to the slots of the plan exactly when the last clock reading acted on is at or past
   the plan's last slot and before the second slot after it. A later reading counts slots past the end as missed; an
   earlier one leaves out those that came due while the worker was away.
   */
  lemma AccountedIff(plan: Plan, clients: seq<LoadClient>, sends: seq<Send>, tally: Tally, nextSlot: nat, later: Log,
                     earlier: Log)
    requires Accounted(plan, clients, sends, tally, nextSlot) && Grown(plan, later, earlier)
    requires Cursor(nextSlot, Fills(sends)) == Scheduled(plan, Cursor(0, []), later, earlier)
    ensures var look, counted := LastLook(later, earlier), tally.accepted + tally.missedSchedule;
      && (counted == SlotsInPlan(plan)
          <==> if look.None? then SlotsInPlan(plan) == 0 else EndsInPlan(plan, look.value))
      && (counted > SlotsInPlan(plan) <==> look.Some? && look.value >= plan.SlotTime(SlotsInPlan(plan) + 1))
  {
    LastLookReaches(plan, later, earlier);
    var look := LastLook(later, earlier);
    if look.Some? {
      ReachedAgainstPlan(plan, look.value);
    }
  }

  // ---------- Both kinds of miscount happen ----------

  /** Two slots, at 0 and 10, in a measurement that ends at 15. */
  predicate TwoSlots(plan: Plan) {
    plan.Valid() && plan.start == 0 && plan.interval == 10 && plan.measurementEnd == 15
  }

  lemma TwoSlotsReached(plan: Plan)
    requires TwoSlots(plan)
    ensures SlotsInPlan(plan) == 2 && Reached(plan, 0) == 1 && Reached(plan, 30) == 3
  {
    SlotIsUnique(plan, DueSlot(plan, 0, 0), 0, 0);
    plan.SlotTimeIs(3);
    plan.SlotTimeIs(4);
    SlotIsUnique(plan, DueSlot(plan, 0, 30), 3, 30);
  }

  /** The first turn of the loop, at time 0. */
  function FirstTurn(begun: Log): Log {
    Then(Then(begun, 0, AtHead), 0, ToFill)
  }

  lemma FirstTurnIsGrown(plan: Plan, begun: Log)
    requires TwoSlots(plan) && begun == Begun(0)
    ensures Grown(plan, FirstTurn(begun), begun) && LastLook(FirstTurn(begun), begun) == Some(0)
  {
    OneMore(plan, Cursor(0, []), begun, begun, 0, AtHead);
    OneMore(plan, Cursor(0, []), Then(begun, 0, AtHead), begun, 0, ToFill);
  }

  /** A worker away between its two readings of the clock counts a slot past the end as missed: three of two. */
  lemma LateLookCountsTooMany(plan: Plan, begun: Log, log: Log)
    requires TwoSlots(plan) && begun == Begun(0) && log == Then(Then(FirstTurn(begun), 12, AtHead), 30, ToFill)
    ensures Grown(plan, log, begun) && LastLook(log, begun) == Some(30)
    ensures Scheduled(plan, Cursor(0, []), log, begun).nextSlot == SlotsInPlan(plan) + 1
  {
    FirstTurnIsGrown(plan, begun);
    OneMore(plan, Cursor(0, []), FirstTurn(begun), begun, 12, AtHead);
    OneMore(plan, Cursor(0, []), log.earlier, begun, 30, ToFill);
    TwoSlotsReached(plan);
    LastLookReaches(plan, log, begun);
  }

  /** A worker away from its first request until the end leaves a slot out: one of two. */
  lemma AwayAtTheEndCountsTooFew(plan: Plan, begun: Log, log: Log)
    requires TwoSlots(plan) && begun == Begun(0) && log == Then(FirstTurn(begun), 20, AtHead)
    ensures Grown(plan, log, begun) && LastLook(log, begun) == Some(0)
    ensures Scheduled(plan, Cursor(0, []), log, begun).nextSlot == SlotsInPlan(plan) - 1
  {
    FirstTurnIsGrown(plan, begun);
    OneMore(plan, Cursor(0, []), FirstTurn(begun), begun, 20, AtHead);
    TwoSlotsReached(plan);
    LastLookReaches(plan, log, begun);
  }
}
