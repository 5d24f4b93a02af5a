/** What the tactical logic machine promises, and what its transition table
    actually delivers. */
module LogicLemmas {
  import opened Common
  import opened Orders
  import Ecs
  import opened LogicRules
  import opened LogicMachine

  // ---------------------------------------------------------------------------
  // Rolling lists stay within their caps

  /** At most 50 situation reports, 30 intel reports and 20 combat results. */
  predicate Bounded(m: Logic)
  {
    |m.ctx.sitReps| <= 50 && |m.ctx.intelReports| <= 30 && |m.ctx.combatResults| <= 20
  }

  lemma InitialBounded(input: LogicInput)
    ensures Bounded(Initial(input))
  {
  }

  lemma StepKeepsBounded(m: Logic, ev: LogicEvent, stamp: Stamp)
    requires Bounded(m)
    ensures Bounded(Step(m, ev, stamp))
  {
    match ev
    case ValidateOrder(o, adapts) => ValidateKeepsBounded(m, o, adapts, stamp);
    case ProcessCombat(delta) => CombatKeepsBounded(m, delta, stamp);
    case UpdateIntel(source, confidence, content, location) => IntelKeepsBounded(m, source, confidence, content, location, stamp);
    case ReconReport(src, location, findings) =>
      IntelKeepsBounded(m, ReconSourceName(src), ReconConfidence(src), findings, Some(location), stamp);
    case GenerateSitrep(unitName) => SitrepKeepsBounded(m, unitName, stamp);
    case CommunicationJammed => CommsKeepBounded(m, stamp);
    case CommunicationRestored => CommsKeepBounded(m, stamp);
    case _ =>
  }

  lemma IntelKeepsBounded(m: Logic, source: string, confidence: int, content: string, location: Option<string>, stamp: Stamp)
    requires Bounded(m)
    ensures Bounded(AfterUpdateIntel(m, source, confidence, content, location, stamp))
    ensures m.mode == Active ==> Bounded(RecordIntel(m, source, confidence, content, location, stamp))
  {
  }

  lemma SitrepKeepsBounded(m: Logic, unitName: Option<string>, stamp: Stamp)
    requires Bounded(m)
    ensures Bounded(AfterGenerateSitrep(m, unitName, stamp))
  {
  }

  lemma CommsKeepBounded(m: Logic, stamp: Stamp)
    requires Bounded(m)
    ensures Bounded(AfterJammed(m, stamp)) && Bounded(AfterRestored(m, stamp))
  {
  }

  lemma ValidateKeepsBounded(m: Logic, o: Order, adapts: bool, stamp: Stamp)
    requires Bounded(m)
    ensures Bounded(AfterValidateOrder(m, o, adapts, stamp))
  {
  }

  lemma CombatKeepsBounded(m: Logic, delta: real, stamp: Stamp)
    requires Bounded(m)
    ensures Bounded(AfterProcessCombat(m, delta, stamp))
  {
  }

  /** A report filed in `active` is the newest one kept. */
  lemma SitrepIsNewest(m: Logic, unitName: Option<string>, stamp: Stamp)
    requires m.mode == Active
    ensures var r := Step(m, GenerateSitrep(unitName), stamp).ctx.sitReps;
      |r| > 0 && r[|r| - 1] == UnitSitrep(unitName, m.ctx.supplies, m.ctx.communicationStatus, stamp.missionTime)
  {
  }

  // ---------------------------------------------------------------------------
  // The order the machine holds

  /** No order is held. */
  predicate NoOrderHeld(m: Logic)
  {
    m.ctx.currentOrder.None?
  }

  lemma InitialNoOrderHeld(input: LogicInput)
    ensures NoOrderHeld(Initial(input))
  {
  }

  /** The order stored by a successful validation is cleared by the entry of
      `executingOrder` in the same step, and the throwing paths keep the
      context from before the event, so no order survives a step. */
  lemma StepKeepsNoOrderHeld(m: Logic, ev: LogicEvent, stamp: Stamp)
    requires NoOrderHeld(m)
    ensures NoOrderHeld(Step(m, ev, stamp))
  {
  }

  // ---------------------------------------------------------------------------
  // Validation

  /** The error list is never changed by a step: a validation that proceeds
      records its errors, and the entry of `executingOrder` clears them
      again (or the machine throws and keeps the old list). */
  lemma ErrorsNeverChange(m: Logic, ev: LogicEvent, stamp: Stamp)
    requires m.ctx.validationErrors == [] || m.mode != Active
    ensures Step(m, ev, stamp).ctx.validationErrors == m.ctx.validationErrors
  {
  }

  /** With errors left from before, every VALIDATE_ORDER in `active` takes
      the failure branch, whatever the new order is; its notice throws, so
      the machine stops with the context it had. */
  lemma StaleErrorsStopMachine(m: Logic, o: Order, adapts: bool, stamp: Stamp)
    requires m.mode == Active && m.ctx.validationErrors != []
    ensures Step(m, ValidateOrder(o, adapts), stamp) == m.(mode := Crashed)
  {
  }

  /** With no errors left from before, VALIDATE_ORDER never takes the
      failure branch: the order is executed or the machine throws. */
  lemma CleanValidationNeverRejects(m: Logic, o: Order, adapts: bool, stamp: Stamp)
    requires m.mode == Active && m.ctx.validationErrors == []
    ensures var n := Step(m, ValidateOrder(o, adapts), stamp);
      n.mode == ExecutingOrder || n.mode == Crashed
    ensures Step(m, ValidateOrder(o, adapts), stamp).mode == ExecutingOrder <==>
      !(adapts && IsCautious(m.ctx.personalities, o.unit)) && WillAccept(Some(o), m.ctx.personalities, m.ctx.supplies)
  {
  }

  /** Adapting throws at `generateSitrep` and keeps the context from before
      the event. */
  lemma AdaptingCrashes(m: Logic, o: Order, stamp: Stamp)
    requires m.mode == Active && m.ctx.validationErrors == [] && IsCautious(m.ctx.personalities, o.unit)
    ensures Step(m, ValidateOrder(o, true), stamp) == m.(mode := Crashed)
  {
  }

  /** Refusing throws in the same way. */
  lemma RefusingCrashes(m: Logic, o: Order, adapts: bool, stamp: Stamp)
    requires m.mode == Active && m.ctx.validationErrors == []
    requires !WillAccept(Some(o), m.ctx.personalities, m.ctx.supplies)
    ensures Step(m, ValidateOrder(o, adapts), stamp) == m.(mode := Crashed)
  {
  }

  /** An order for a unit that is not in the world is validated, found
      wanting, and executed anyway: the machine reaches `executingOrder`
      with the world unchanged and the error list empty again. */
  lemma MissingUnitStillExecuted(m: Logic, o: Order, adapts: bool, stamp: Stamp)
    requires m.mode == Active && m.ctx.validationErrors == [] && m.world.Some?
    requires forall k :: 0 <= k < |m.world.value| ==> m.world.value[k].Name() != o.unit
    requires o.unit !in m.ctx.personalities
    ensures UnitNotFound(o.unit) in OrderErrors(m.world, o)
    ensures var n := Step(m, ValidateOrder(o, adapts), stamp);
      n.mode == ExecutingOrder && n.world == m.world && n.ctx.validationErrors == []
  {
    assert Ecs.FindNamed(m.world.value, o.unit).None?;
  }

  // ---------------------------------------------------------------------------
  // Executing an order

  /** A move whose unit is found moves that entity toward the destination and
      changes no other entity. */
  lemma MoveOrderMovesUnit(es: seq<Ecs.Entity>, o: Order, i: nat)
    requires o.action == Move && Truthy(o.destination)
    requires Ecs.FindNamed(es, o.unit) == Some(i) && es[i].UnitEntity?
    ensures var r := OrderEffect(es, o);
      r[i] == Ecs.UnitEntity(Ecs.SetMoving(es[i].unit, o.destination.value)) &&
      forall k :: 0 <= k < |es| && k != i ==> r[k] == es[k]
  {
  }

  /** An order whose unit is missing, or that neither moves nor attacks,
      leaves the world as it was. */
  lemma OrderEffectInert(es: seq<Ecs.Entity>, o: Order)
    requires Ecs.FindNamed(es, o.unit).None? || (o.action != Move && o.action != Attack)
    ensures OrderEffect(es, o) == es
  {
  }

  /** The time-constraint promise, started with no order (the entry of
      `executingOrder` has cleared it), resolves exactly when a constraint
      is recorded under the empty key and its deadline is still ahead. */
  lemma TimeCheckResolution(c: LogicContext, beforeDeadline: bool)
    requires c.currentOrder.None?
    ensures TimeCheckResolves(c, beforeDeadline) <==> "" in c.constrainedUnits && beforeDeadline
  {
  }

  /** However the promise settles, the notice that follows throws. */
  lemma ConstraintCheckCrashes(m: Logic, beforeDeadline: bool, stamp: Stamp)
    requires m.mode == ExecutingOrder
    ensures Step(m, ConstraintCheckSettled(beforeDeadline), stamp) == m.(mode := Crashed)
  {
  }

  /** CHECK_TIME_CONSTRAINTS in `executingOrder` throws on either branch. */
  lemma TimeCheckCrashes(m: Logic, stamp: Stamp)
    requires m.mode == ExecutingOrder
    ensures Step(m, CheckTimeConstraints, stamp) == m.(mode := Crashed)
  {
  }

  /** The 100 ms delay always passes its guard, because no order is held,
      and its completion notice throws. */
  lemma DelayCrashes(m: Logic, deadlineAhead: bool, stamp: Stamp)
    requires m.mode == ExecutingOrder && NoOrderHeld(m)
    ensures Step(m, ExecutionDelayElapsed(deadlineAhead), stamp) == m.(mode := Crashed)
  {
  }

  /** `executingOrder` is left only by stopping: every event either changes
      nothing or stops the machine with the context it had. */
  lemma ExecutingOnlyCrashes(m: Logic, ev: LogicEvent, stamp: Stamp)
    requires m.mode == ExecutingOrder
    ensures Step(m, ev, stamp) == m || Step(m, ev, stamp) == m.(mode := Crashed)
  {
  }

  /** Running a sequence of events with a fresh stamp for each. */
  function Run(m: Logic, evs: seq<LogicEvent>, stamps: seq<Stamp>): Logic
    requires |stamps| == |evs|
    decreases |evs|
  {
    if |evs| == 0 then m else Run(Step(m, evs[0], stamps[0]), evs[1..], stamps[1..])
  }

  /** Once an order is executing, the machine never again reaches `active`,
      whatever events follow: no second order is ever validated. */
  lemma {:induction false} NoOrderAfterExecuting(m: Logic, evs: seq<LogicEvent>, stamps: seq<Stamp>)
    requires m.mode == ExecutingOrder || m.mode == Crashed
    requires |stamps| == |evs|
    decreases |evs|
    ensures var n := Run(m, evs, stamps);
      (n.mode == ExecutingOrder || n.mode == Crashed) && n.ctx == m.ctx && n.world == m.world
  {
    if |evs| > 0 {
      var m' := Step(m, evs[0], stamps[0]);
      if m.mode == ExecutingOrder {
        ExecutingOnlyCrashes(m, evs[0], stamps[0]);
      } else {
        CrashedAbsorbs(m, evs[0], stamps[0]);
      }
      NoOrderAfterExecuting(m', evs[1..], stamps[1..]);
    }
  }

  // ---------------------------------------------------------------------------
  // The tick, and the absorbing crash

  /** In `idle` only GAME_LOOP_TICK has an effect. */
  lemma IdleWaitsForTick(m: Logic, ev: LogicEvent, stamp: Stamp)
    requires m.mode == Idle
    ensures ev.GameLoopTick? ==> Step(m, ev, stamp) == m.(mode := Active, world := ev.loopWorld)
    ensures !ev.GameLoopTick? ==> Step(m, ev, stamp) == m
  {
  }

  /** Every supply gauge is a percentage. */
  predicate SuppliesInRange(m: Logic)
  {
    forall k :: 0 <= k < |m.ctx.supplies| ==> Gauges(m.ctx.supplies[k].supply)
  }

  lemma StepKeepsSuppliesInRange(m: Logic, ev: LogicEvent, stamp: Stamp)
    requires SuppliesInRange(m)
    ensures SuppliesInRange(Step(m, ev, stamp))
  {
    match ev
    case GameLoopTick(w) =>
    case ValidateOrder(o, adapts) =>
    case _ =>
  }

  /** In `active` a tick stops the machine, with every supply degraded. */
  lemma ActiveTickCrashes(m: Logic, w: Option<seq<Ecs.Entity>>, stamp: Stamp)
    requires m.mode == Active && SuppliesInRange(m)
    ensures var n := Step(m, GameLoopTick(w), stamp);
      n == m.(mode := Crashed, ctx := n.ctx) && n.ctx == m.ctx.(supplies := n.ctx.supplies) &&
      |n.ctx.supplies| == |m.ctx.supplies| &&
      forall k :: 0 <= k < |m.ctx.supplies| ==>
        n.ctx.supplies[k].unit == m.ctx.supplies[k].unit &&
        n.ctx.supplies[k].supply.ammunition <= m.ctx.supplies[k].supply.ammunition
  {
    var n := Step(m, GameLoopTick(w), stamp);
    forall k | 0 <= k < |m.ctx.supplies|
      ensures n.ctx.supplies[k].supply.ammunition <= m.ctx.supplies[k].supply.ammunition
    {
      DegradeSupplyMonotone(m.ctx.supplies[k].supply, m.ctx.communicationStatus);
    }
  }

  /** A stopped machine ignores every event. */
  lemma CrashedAbsorbs(m: Logic, ev: LogicEvent, stamp: Stamp)
    requires m.mode == Crashed
    ensures Step(m, ev, stamp) == m
  {
  }

  /** Two ticks from `idle` always end in the crash. */
  lemma SecondTickCrashes(input: LogicInput, w1: Option<seq<Ecs.Entity>>, w2: Option<seq<Ecs.Entity>>, stamp: Stamp)
    ensures Step(Step(Initial(input), GameLoopTick(w1), stamp), GameLoopTick(w2), stamp).mode == Crashed
  {
  }

  // ---------------------------------------------------------------------------
  // Supplies

  /** One step never raises ammunition, fuel or morale, and never lowers
      fatigue. */
  lemma DegradeSupplyMonotone(s: Supply, c: CommStatus)
    requires Gauges(s)
    ensures var r := DegradeSupply(s, c);
      r.ammunition <= s.ammunition && r.fuel <= s.fuel && r.morale <= s.morale && r.fatigue >= s.fatigue
    ensures DegradeSupply(s, c).ammunition < s.ammunition <==> s.ammunition > 0
  {
  }

  /** Jammed communications degrade at least as fast as clear ones. */
  lemma JammedDegradesFaster(s: Supply)
    requires Gauges(s)
    ensures var j := DegradeSupply(s, Jammed);
      var k := DegradeSupply(s, Clear);
      j.ammunition <= k.ammunition && j.fuel <= k.fuel && j.morale <= k.morale && j.fatigue >= k.fatigue
  {
  }

  /** Running low on ammunition or fuel costs two morale per step (clamped at
      zero); with clear communications nothing else does. */
  lemma LowStockCostsMorale(s: Supply)
    requires Gauges(s)
    ensures var r := DegradeSupply(s, Clear);
      r.morale == (if r.ammunition < 20 || r.fuel < 20 then MaxInt(0, s.morale - 2) else s.morale)
  {
  }

  /** `n` ticks of `processSupplies` on one record. */
  function DegradeTimes(s: Supply, c: CommStatus, n: nat): Supply
  {
    if n == 0 then s else DegradeSupply(DegradeTimes(s, c, n - 1), c)
  }

  /** After `n` steps the ammunition is its starting value less `n` times
      the rate, floored at zero. */
  lemma {:induction false} AmmunitionAfter(s: Supply, c: CommStatus, n: nat)
    requires s.ammunition >= 0
    ensures DegradeTimes(s, c, n).ammunition == MaxInt(0, s.ammunition - n * DegradationRate(c))
  {
    if n > 0 {
      AmmunitionAfter(s, c, n - 1);
    }
  }

  /** A freshly supplied unit has ammunition left after 99 clear steps and
      none after 100, or after 50 jammed ones. */
  lemma FreshSuppliesLast(now: string)
    ensures DegradeTimes(InitialSupplies(now), Clear, 99).ammunition == 1
    ensures DegradeTimes(InitialSupplies(now), Clear, 100).ammunition == 0
    ensures DegradeTimes(InitialSupplies(now), Jammed, 50).ammunition == 0
  {
    AmmunitionAfter(InitialSupplies(now), Clear, 99);
    AmmunitionAfter(InitialSupplies(now), Clear, 100);
    AmmunitionAfter(InitialSupplies(now), Jammed, 50);
  }

  /** How many records are short of ammunition (below 10). */
  function ShortCount(entries: seq<SupplyEntry>): nat
  {
    if |entries| == 0 then 0
    else (if entries[0].supply.ammunition < 10 then 1 else 0) + ShortCount(entries[1..])
  }

  lemma ShortCountPrefix(entries: seq<SupplyEntry>, k: nat)
    requires 0 < k <= |entries|
    ensures ShortCount(entries[..k]) ==
      (if entries[0].supply.ammunition < 10 then 1 else 0) + ShortCount(entries[1..][..k - 1])
  {
    assert entries[..k][0] == entries[0] && entries[..k][1..] == entries[1..][..k - 1];
  }

  /** The shortage reports are exactly one per record with ammunition below
      10, in the order of the records: the report for record k comes after
      the reports for the short records before it, and there are no others. */
  lemma {:induction false} ShortageReportsExact(entries: seq<SupplyEntry>, time: string)
    ensures |ShortageReports(entries, time)| == ShortCount(entries)
    ensures forall k :: 0 <= k < |entries| && entries[k].supply.ammunition < 10 ==>
      ShortCount(entries[..k]) < |ShortageReports(entries, time)| &&
      ShortageReports(entries, time)[ShortCount(entries[..k])] == ShortageReport(entries[k], time)
  {
    if |entries| > 0 {
      var e := entries[0];
      var rest := entries[1..];
      var head := if e.supply.ammunition < 10 then [ShortageReport(e, time)] else [];
      var r := ShortageReports(entries, time);
      assert r == head + ShortageReports(rest, time);
      ShortageReportsExact(rest, time);
      forall k | 0 <= k < |entries| && entries[k].supply.ammunition < 10
        ensures ShortCount(entries[..k]) < |r| && r[ShortCount(entries[..k])] == ShortageReport(entries[k], time)
      {
        if k > 0 {
          ShortCountPrefix(entries, k);
          assert rest[k - 1] == entries[k];
        }
      }
    }
  }

  // ---------------------------------------------------------------------------
  // Acceptance and intel

  /** With personalities from `initializeUnitPersonality`, none of which
      refuses orders, only an attack can be refused. */
  lemma OnlyAttacksRefused(o: Order, personalities: map<string, Personality>, supplies: seq<SupplyEntry>)
    requires forall u :: u in personalities ==> !personalities[u].willRefuseOrders
    requires !WillAccept(Some(o), personalities, supplies)
    ensures o.action == Attack
    ensures o.unit in personalities && SupplyOf(supplies, o.unit).Some?
    ensures var s := SupplyOf(supplies, o.unit).value;
      s.morale < personalities[o.unit].moraleThreshold || s.ammunition < 20
  {
  }

  /** A UAV never needs a morale threshold: its profile accepts every order
      it has the ammunition for. */
  lemma UavAcceptsWithAmmunition(o: Order, personalities: map<string, Personality>, supplies: seq<SupplyEntry>)
    requires o.unit in personalities && personalities[o.unit] == PersonalityFor("UAV")
    requires SupplyOf(supplies, o.unit).Some? && SupplyOf(supplies, o.unit).value.morale >= 0
    requires SupplyOf(supplies, o.unit).value.ammunition >= 20
    ensures WillAccept(Some(o), personalities, supplies)
  {
    assert UnitTypeName(UAV) == "UAV";
  }

  /** The three intel classifications change at the same thresholds. */
  lemma IntelClassesAgree(c: int)
    ensures IntelPriority(c) == High <==> IntelTag(c) == Confirmed
    ensures IntelTag(c) == Confirmed <==> IntelSeverity(c) == CriticalSeverity
    ensures IntelPriority(c) == Medium <==> IntelTag(c) == Probable
    ensures IntelPriority(c) != Critical
  {
  }

  /** More confidence never means lower priority. */
  lemma PriorityMonotone(a: int, b: int)
    requires a <= b
    ensures PriorityRank(IntelPriority(a)) <= PriorityRank(IntelPriority(b))
  {
  }

  /** A move for a missing unit to a missing zone collects both errors, unit
      first. */
  lemma ErrorsAccumulate(es: seq<Ecs.Entity>, o: Order)
    requires o.action == Move && Truthy(o.destination)
    requires forall k :: 0 <= k < |es| ==> es[k].Name() != o.unit && es[k].Id() != o.destination.value
    ensures OrderErrors(Some(es), o) == [UnitNotFound(o.unit), DestinationNotFound(o.destination.value)]
  {
    assert Ecs.FindNamed(es, o.unit).None?;
    assert !Ecs.HasId(es, o.destination.value);
  }
}
