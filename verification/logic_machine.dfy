/** The tactical logic machine: its context, its transition table as one
    function per event, and a class that runs the same transitions on a
    mutable world and supply map.

    Four behaviours of the source shape the table:
    - the VALIDATE_ORDER guard reads the error list left by the previous
      validation, before `validateOrder` recomputes it;
    - `generateSitrep` asserts a GENERATE_SITREP event, so every other action
      list that contains it throws and stops the machine (`Crashed`), which
      keeps the context it had before the event;
    - `notifyOrderComplete` and `notifyOrderFailed` send to an actor named
      `gameLoop`, which the machine never invokes; resolving that send throws
      in the same way, so every transition that carries one stops the machine;
    - `processSupplies` changes the supply records in place, so a tick that
      throws after it still leaves the supplies degraded. */
module LogicMachine {
  import opened Common
  import opened Orders
  import Ecs
  import opened EcsWorld
  import opened LogicRules

  /** The states an event can reach. `checkingUnitWillingness` resolves in the
      same step as VALIDATE_ORDER, and `adaptingOrder` and `refusingOrder`
      throw on entry, so none of them is ever observed. */
  datatype Mode = Idle | Active | ExecutingOrder | Crashed

  datatype LogicContext = LogicContext(
    victoryCondition: VictoryCondition,
    currentOrder: Option<Order>,
    validationErrors: seq<string>,
    intelReports: seq<IntelReport>,
    sitReps: seq<SitRep>,
    supplies: seq<SupplyEntry>,
    personalities: map<string, Personality>,
    constrainedUnits: set<string>,
    communicationStatus: CommStatus,
    combatResults: seq<CombatResult>)

  datatype Logic = Logic(mode: Mode, ctx: LogicContext, world: Option<seq<Ecs.Entity>>)

  /** The wall clock where a handler reads it: milliseconds since the epoch
      and the `HHMMZ` mission time. */
  datatype Stamp = Stamp(millis: int, missionTime: string)

  datatype LogicInput = LogicInput(
    world: Option<seq<Ecs.Entity>>,
    victoryCondition: Option<VictoryCondition>,
    validationErrors: seq<string>,
    supplies: seq<SupplyEntry>,
    personalities: map<string, Personality>,
    constrainedUnits: set<string>,
    communicationStatus: Option<CommStatus>)

  datatype LogicEvent =
    | GameLoopTick(loopWorld: Option<seq<Ecs.Entity>>)
    | ValidateOrder(order: Order, adapts: bool)
    | ProcessCombat(delta: real)
    | UpdateMorale(moraleDelta: real)
    | UpdateIntel(source: string, confidence: int, content: string, location: Option<string>)
    | GenerateSitrep(unitName: Option<string>)
    | CommunicationJammed
    | CommunicationRestored
    | ReconReport(recon: ReconSource, reconLocation: string, findings: string)
    | ConstraintCheckSettled(beforeDeadline: bool)
    | ExecutionDelayElapsed(deadlineAhead: bool)
    | CheckTimeConstraints

  function InitialContext(input: LogicInput): LogicContext
  {
    LogicContext(
      if input.victoryCondition.Some? then input.victoryCondition.value else Elimination,
      None, input.validationErrors, [], [], input.supplies, input.personalities, input.constrainedUnits,
      if input.communicationStatus.Some? then input.communicationStatus.value else Clear,
      [])
  }

  function Initial(input: LogicInput): Logic
  {
    Logic(Idle, InitialContext(input), input.world)
  }

  // ---------------------------------------------------------------------------
  // Rolling lists

  function AddSitRep(c: LogicContext, r: SitRep): LogicContext
  {
    c.(sitReps := KeepLast(c.sitReps + [r], 50))
  }

  function AddIntel(c: LogicContext, r: IntelReport): LogicContext
  {
    c.(intelReports := KeepLast(c.intelReports + [r], 30))
  }

  function AddCombatResult(c: LogicContext, r: CombatResult): LogicContext
  {
    c.(combatResults := KeepLast(c.combatResults + [r], 20))
  }

  // ---------------------------------------------------------------------------
  // Order execution

  /** The world effect of `executeOrder`: the first entity named by the order
      moves, for a move with a destination, or engages the first entity named
      by the target, for an attack with a target; nothing else changes. */
  function OrderEffect(es: seq<Ecs.Entity>, o: Order): (r: seq<Ecs.Entity>)
    ensures |r| == |es|
  {
    match Ecs.FindNamed(es, o.unit)
    case None => es
    case Some(i) =>
      if o.action == Move && Truthy(o.destination) then Ecs.MoveAt(es, i, o.destination.value)
      else if o.action == Attack && Truthy(o.target) then
        match Ecs.FindNamed(es, o.target.value)
        case None => es
        case Some(j) => Ecs.EngageAt(es, i, j)
      else es
  }

  /** The entry of `executingOrder` for the order just validated: apply it
      to the world, report it, and clear the order and the errors. */
  function ExecuteOrder(m: Logic, o: Order, stamp: Stamp): Logic
  {
    var report := SitRep(stamp.missionTime, StatusReport, Some(o.unit), None, Executing(o.unit, o.action), Info);
    Logic(ExecutingOrder,
          AddSitRep(m.ctx, report).(currentOrder := None, validationErrors := []),
          if m.world.Some? then Some(OrderEffect(m.world.value, o)) else None)
  }

  /** The key the time checks look up: the current order's unit, or "" when
      there is none. */
  function ConstraintKey(c: LogicContext): string
  {
    if c.currentOrder.Some? then c.currentOrder.value.unit else ""
  }

  // ---------------------------------------------------------------------------
  // The transition table

  /** GAME_LOOP_TICK: in `idle` adopt the loop's world and become active; in
      `active` the action list throws at `generateSitrep`, after
      `processSupplies` has degraded the supply records in place. */
  function AfterGameLoopTick(m: Logic, w: Option<seq<Ecs.Entity>>): Logic
  {
    if m.mode == Idle then m.(mode := Active, world := w)
    else if m.mode == Active then
      m.(mode := Crashed, ctx := m.ctx.(supplies := DegradeAll(m.ctx.supplies, m.ctx.communicationStatus)))
    else m
  }

  /** VALIDATE_ORDER in `active`. The guard reads the errors of the previous
      validation: when there are some, the failure notice throws and the
      machine stops. Otherwise the order is validated and the errors
      recorded, but not consulted again: a cautious unit may adapt (and the
      machine throws), an accepting unit executes the order, and a refusing
      unit throws. */
  function AfterValidateOrder(m: Logic, o: Order, adapts: bool, stamp: Stamp): Logic
  {
    if m.mode != Active then m
    else if |m.ctx.validationErrors| != 0 then
      NotifyGameLoop(m)
    else
      var n := m.ctx.(currentOrder := Some(o), validationErrors := ValidationMessages(OrderErrors(m.world, o)));
      if adapts && IsCautious(n.personalities, o.unit) then m.(mode := Crashed)
      else if WillAccept(Some(o), n.personalities, n.supplies) then ExecuteOrder(m.(ctx := n), o, stamp)
      else m.(mode := Crashed)
  }

  /** PROCESS_COMBAT: run the combat system and record a combat result and a
      contact report whose confidence depends on communications. */
  function AfterProcessCombat(m: Logic, delta: real, stamp: Stamp): Logic
  {
    if m.mode != Active then m
    else
      var status := m.ctx.communicationStatus;
      var result := CombatResult(stamp.millis, "Alpha", "Enemy-1", CombatConfidence(status));
      var report := SitRep(stamp.missionTime, CombatReport, None, None, Contact(CombatTag(status)), CriticalSeverity);
      m.(ctx := AddSitRep(AddCombatResult(m.ctx, result), report),
         world := if m.world.Some? then Some(Ecs.CombatStep(m.world.value, delta)) else None)
  }

  function AfterUpdateMorale(m: Logic, delta: real): Logic
  {
    if m.mode != Active then m
    else m.(world := if m.world.Some? then Some(Ecs.MoraleStep(m.world.value, delta)) else None)
  }

  /** UPDATE_INTEL and RECON_REPORT share `updateIntel`. */
  function RecordIntel(m: Logic, source: string, confidence: int, content: string, location: Option<string>, stamp: Stamp): Logic
  {
    m.(ctx := AddSitRep(AddIntel(m.ctx, IntelEntry(source, confidence, content, location, stamp.missionTime)),
                        IntelSitrep(confidence, content, location, stamp.missionTime)))
  }

  function AfterUpdateIntel(m: Logic, source: string, confidence: int, content: string, location: Option<string>, stamp: Stamp): Logic
  {
    if m.mode != Active then m else RecordIntel(m, source, confidence, content, location, stamp)
  }

  function AfterReconReport(m: Logic, src: ReconSource, location: string, findings: string, stamp: Stamp): Logic
  {
    if m.mode != Active then m
    else RecordIntel(m, ReconSourceName(src), ReconConfidence(src), findings, Some(location), stamp)
  }

  function AfterGenerateSitrep(m: Logic, unitName: Option<string>, stamp: Stamp): Logic
  {
    if m.mode != Active then m
    else m.(ctx := AddSitRep(m.ctx, UnitSitrep(unitName, m.ctx.supplies, m.ctx.communicationStatus, stamp.missionTime)))
  }

  function AfterJammed(m: Logic, stamp: Stamp): Logic
  {
    if m.mode != Active then m
    else
      var report := SitRep(stamp.missionTime, StatusReport, None, None, CommsJammed, CriticalSeverity);
      m.(ctx := AddSitRep(m.ctx.(communicationStatus := Jammed), report))
  }

  function AfterRestored(m: Logic, stamp: Stamp): Logic
  {
    if m.mode != Active then m
    else
      var report := SitRep(stamp.missionTime, StatusReport, None, None, CommsRestored, Info);
      m.(ctx := AddSitRep(m.ctx.(communicationStatus := Clear), report))
  }

  /** A transition whose action is `notifyOrderComplete` or
      `notifyOrderFailed`: the send names `gameLoop`, which is not a child of
      this machine, so resolving it throws and the machine stops with the
      context it had before the event. */
  function NotifyGameLoop(m: Logic): Logic
  {
    m.(mode := Crashed)
  }

  /** Whether the `checkTimeConstraints` promise resolves. Its input order is
      the current order, read after the entry of `executingOrder` has
      cleared it. Without a constraint under the key, the promise logs the
      order's action and unit; with one whose deadline has passed, it builds
      an error naming the order's unit. Either read of an absent order throws,
      and so does the violation itself; any throw rejects the promise. */
  function TimeCheckResolves(c: LogicContext, beforeDeadline: bool): (ok: bool)
    ensures ok ==> c.currentOrder.Some? || (ConstraintKey(c) in c.constrainedUnits && beforeDeadline)
  {
    if ConstraintKey(c) !in c.constrainedUnits then c.currentOrder.Some?
    else beforeDeadline
  }

  /** The time-constraint promise settles. `onDone` runs
      `notifyOrderComplete` and `onError` runs `notifyOrderFailed`, and both
      throw. */
  function AfterConstraintCheck(m: Logic, beforeDeadline: bool): Logic
  {
    if m.mode != ExecutingOrder then m
    else if TimeCheckResolves(m.ctx, beforeDeadline) then NotifyGameLoop(m)
    else NotifyGameLoop(m)
  }

  /** The 100 ms delay of `executingOrder`, guarded by `timeConstraintMet`;
      when the guard holds, `notifyOrderComplete` throws. */
  function AfterExecutionDelay(m: Logic, deadlineAhead: bool): Logic
  {
    if m.mode != ExecutingOrder then m
    else
      var o := m.ctx.currentOrder;
      var met := o.None? || !Truthy(o.value.timeConstraint) || o.value.unit !in m.ctx.constrainedUnits || deadlineAhead;
      if met then NotifyGameLoop(m) else m
  }

  /** CHECK_TIME_CONSTRAINTS: `notifyOrderComplete` when no constraint is
      recorded under the key, `notifyOrderFailed` otherwise; both throw. */
  function AfterCheckTimeConstraints(m: Logic): Logic
  {
    if m.mode != ExecutingOrder then m
    else if ConstraintKey(m.ctx) !in m.ctx.constrainedUnits then NotifyGameLoop(m)
    else NotifyGameLoop(m)
  }

  /** One macrostep of the machine. */
  function Step(m: Logic, ev: LogicEvent, stamp: Stamp): Logic
  {
    match ev
    case GameLoopTick(w) => AfterGameLoopTick(m, w)
    case ValidateOrder(o, adapts) => AfterValidateOrder(m, o, adapts, stamp)
    case ProcessCombat(delta) => AfterProcessCombat(m, delta, stamp)
    case UpdateMorale(delta) => AfterUpdateMorale(m, delta)
    case UpdateIntel(source, confidence, content, location) => AfterUpdateIntel(m, source, confidence, content, location, stamp)
    case GenerateSitrep(unitName) => AfterGenerateSitrep(m, unitName, stamp)
    case CommunicationJammed => AfterJammed(m, stamp)
    case CommunicationRestored => AfterRestored(m, stamp)
    case ReconReport(src, location, findings) => AfterReconReport(m, src, location, findings, stamp)
    case ConstraintCheckSettled(beforeDeadline) => AfterConstraintCheck(m, beforeDeadline)
    case ExecutionDelayElapsed(deadlineAhead) => AfterExecutionDelay(m, deadlineAhead)
    case CheckTimeConstraints => AfterCheckTimeConstraints(m)
  }

  // ---------------------------------------------------------------------------
  // The machine over a mutable world

  class TacticalLogic {
    var mode: Mode
    var ctx: LogicContext
    var world: GameWorld?

    function Snapshot(): Logic
      reads this, world
    {
      Logic(mode, ctx, if world == null then None else Some(world.entities))
    }

    constructor (input: LogicInput, w: GameWorld?)
      requires w == null <==> input.world.None?
      requires w != null ==> input.world == Some(w.entities)
      ensures world == w
      ensures Snapshot() == Initial(input)
    {
      mode := Idle;
      ctx := InitialContext(input);
      world := w;
    }

    /** `processSupplies`: degrade every supply record in place, in the
        order of the map. */
    method ProcessSupplies()
      modifies this
      ensures world == old(world) && mode == old(mode)
      ensures ctx == old(ctx).(supplies := DegradeAll(old(ctx.supplies), old(ctx.communicationStatus)))
    {
      var status := ctx.communicationStatus;
      var k := 0;
      while k < |ctx.supplies|
        invariant 0 <= k <= |ctx.supplies| == |old(ctx.supplies)|
        invariant world == old(world) && mode == old(mode)
        invariant ctx == old(ctx).(supplies := ctx.supplies)
        invariant status == old(ctx.communicationStatus)
        invariant forall i :: 0 <= i < k ==> ctx.supplies[i] == DegradeAll(old(ctx.supplies), status)[i]
        invariant forall i :: k <= i < |ctx.supplies| ==> ctx.supplies[i] == old(ctx.supplies)[i]
      {
        var e := ctx.supplies[k];
        ctx := ctx.(supplies := ctx.supplies[k := SupplyEntry(e.unit, DegradeSupply(e.supply, status))]);
        k := k + 1;
      }
    }

    method OnGameLoopTick(w: GameWorld?)
      modifies this
      ensures old(mode) == Idle ==> world == w
      ensures old(mode) != Idle ==> world == old(world)
      ensures Snapshot() == AfterGameLoopTick(old(Snapshot()), if w == null then None else Some(w.entities))
    {
      if mode == Idle {
        world := w;
        mode := Active;
      } else if mode == Active {
        ProcessSupplies();
        mode := Crashed;
      }
    }

    /** The world effect of `executeOrder`, through the ECS actions. */
    method ApplyOrder(o: Order)
      requires world != null
      modifies world
      ensures world.entities == OrderEffect(old(world.entities), o)
    {
      var es := world.entities;
      match Ecs.FindNamed(es, o.unit)
      case None =>
      case Some(i) =>
        if o.action == Move && Truthy(o.destination) {
          if es[i].UnitEntity? {
            world.MoveUnit(i, o.destination.value);
          }
        } else if o.action == Attack && Truthy(o.target) {
          match Ecs.FindNamed(es, o.target.value)
          case None =>
          case Some(j) =>
            world.EngageTarget(i, j);
        }
    }

    /** The entry of `executingOrder`, on the mutable world. */
    method RunOrder(o: Order, stamp: Stamp)
      modifies this, world
      ensures world == old(world)
      ensures Snapshot() == ExecuteOrder(old(Snapshot()), o, stamp)
    {
      ghost var m := old(Snapshot());
      if world != null {
        ApplyOrder(o);
      }
      assert Snapshot() == m.(world := if m.world.Some? then Some(OrderEffect(m.world.value, o)) else None);
      var report := SitRep(stamp.missionTime, StatusReport, Some(o.unit), None, Executing(o.unit, o.action), Info);
      ctx := AddSitRep(ctx, report).(currentOrder := None, validationErrors := []);
      mode := ExecutingOrder;
    }

    method OnValidateOrder(o: Order, adapts: bool, stamp: Stamp)
      modifies this, world
      ensures world == old(world)
      ensures Snapshot() == AfterValidateOrder(old(Snapshot()), o, adapts, stamp)
    {
      if mode == Active {
        if |ctx.validationErrors| != 0 {
          Notify();
        } else {
          var errors := ValidationMessages(OrderErrors(if world == null then None else Some(world.entities), o));
          if adapts && IsCautious(ctx.personalities, o.unit) {
            mode := Crashed;
          } else if WillAccept(Some(o), ctx.personalities, ctx.supplies) {
            ctx := ctx.(currentOrder := Some(o), validationErrors := errors);
            RunOrder(o, stamp);
          } else {
            mode := Crashed;
          }
        }
      }
    }

    method OnProcessCombat(delta: real, stamp: Stamp)
      modifies this, world
      ensures world == old(world)
      ensures Snapshot() == AfterProcessCombat(old(Snapshot()), delta, stamp)
    {
      if mode == Active {
        if world != null {
          world.Combat(delta);
        }
        var status := ctx.communicationStatus;
        var result := CombatResult(stamp.millis, "Alpha", "Enemy-1", CombatConfidence(status));
        var report := SitRep(stamp.missionTime, CombatReport, None, None, Contact(CombatTag(status)), CriticalSeverity);
        ctx := AddSitRep(AddCombatResult(ctx, result), report);
      }
    }

    method OnUpdateMorale(delta: real)
      modifies this, world
      ensures world == old(world)
      ensures Snapshot() == AfterUpdateMorale(old(Snapshot()), delta)
    {
      if mode == Active && world != null {
        world.Morale(delta);
      }
    }

    /** `updateIntel`: file the report and its situation report. */
    method Record(source: string, confidence: int, content: string, location: Option<string>, stamp: Stamp)
      modifies this
      ensures world == old(world)
      ensures Snapshot() == RecordIntel(old(Snapshot()), source, confidence, content, location, stamp)
    {
      ctx := AddSitRep(AddIntel(ctx, IntelEntry(source, confidence, content, location, stamp.missionTime)),
                       IntelSitrep(confidence, content, location, stamp.missionTime));
    }

    method OnUpdateIntel(source: string, confidence: int, content: string, location: Option<string>, stamp: Stamp)
      modifies this
      ensures world == old(world)
      ensures Snapshot() == AfterUpdateIntel(old(Snapshot()), source, confidence, content, location, stamp)
    {
      if mode == Active {
        Record(source, confidence, content, location, stamp);
      }
    }

    method OnReconReport(src: ReconSource, location: string, findings: string, stamp: Stamp)
      modifies this
      ensures world == old(world)
      ensures Snapshot() == AfterReconReport(old(Snapshot()), src, location, findings, stamp)
    {
      if mode == Active {
        Record(ReconSourceName(src), ReconConfidence(src), findings, Some(location), stamp);
      }
    }

    method OnGenerateSitrep(unitName: Option<string>, stamp: Stamp)
      modifies this
      ensures world == old(world)
      ensures Snapshot() == AfterGenerateSitrep(old(Snapshot()), unitName, stamp)
    {
      if mode == Active {
        ctx := AddSitRep(ctx, UnitSitrep(unitName, ctx.supplies, ctx.communicationStatus, stamp.missionTime));
      }
    }

    method OnCommunicationJammed(stamp: Stamp)
      modifies this
      ensures world == old(world)
      ensures Snapshot() == AfterJammed(old(Snapshot()), stamp)
    {
      if mode == Active {
        ctx := AddSitRep(ctx.(communicationStatus := Jammed),
                         SitRep(stamp.missionTime, StatusReport, None, None, CommsJammed, CriticalSeverity));
      }
    }

    method OnCommunicationRestored(stamp: Stamp)
      modifies this
      ensures world == old(world)
      ensures Snapshot() == AfterRestored(old(Snapshot()), stamp)
    {
      if mode == Active {
        ctx := AddSitRep(ctx.(communicationStatus := Clear),
                         SitRep(stamp.missionTime, StatusReport, None, None, CommsRestored, Info));
      }
    }

    /** `notifyOrderComplete` or `notifyOrderFailed`: the send throws. */
    method Notify()
      modifies this
      ensures world == old(world) && ctx == old(ctx)
      ensures Snapshot() == NotifyGameLoop(old(Snapshot()))
    {
      mode := Crashed;
    }

    method OnConstraintCheckSettled(beforeDeadline: bool)
      modifies this
      ensures world == old(world)
      ensures Snapshot() == AfterConstraintCheck(old(Snapshot()), beforeDeadline)
    {
      if mode == ExecutingOrder {
        if TimeCheckResolves(ctx, beforeDeadline) {
          Notify();
        } else {
          Notify();
        }
      }
    }

    method OnExecutionDelayElapsed(deadlineAhead: bool)
      modifies this
      ensures world == old(world)
      ensures Snapshot() == AfterExecutionDelay(old(Snapshot()), deadlineAhead)
    {
      if mode == ExecutingOrder {
        var o := ctx.currentOrder;
        if o.None? || !Truthy(o.value.timeConstraint) || o.value.unit !in ctx.constrainedUnits || deadlineAhead {
          Notify();
        }
      }
    }

    method OnCheckTimeConstraints()
      modifies this
      ensures world == old(world)
      ensures Snapshot() == AfterCheckTimeConstraints(old(Snapshot()))
    {
      if mode == ExecutingOrder {
        if ConstraintKey(ctx) !in ctx.constrainedUnits {
          Notify();
        } else {
          Notify();
        }
      }
    }
  }
}
