/** The game-loop state machine: idle, initializing, running (turn-based,
    real-time or processing a tick), paused, victory, defeat and error. The
    context record and its assign actions are pure values, exactly as the
    statechart library replaces its context on every assign; `Step` is the
    whole transition table, and the class `GameLoopMachine` runs each event
    step by step over a mutable entity world and is proved to end in the state
    `Step` computes. The `after` delays are the explicit event `DelayElapsed`,
    and the clock readings an event needs travel with it. */
module GameLoop {
  import opened Common
  import opened Orders
  import Ecs
  import opened EcsWorld

  datatype Phase = TurnBased | RealTime | ProcessingTick

  datatype LoopState = Idle | Initializing | Running(phase: Phase) | Paused | Victory | Defeat | Error

  /** The wall clock at the moment an event is handled: `Date.now()` and the
      local time of day printed in situation reports. */
  datatype Clock = Clock(now: int, timeOfDay: string)

  datatype Event =
    | StartGame(clock: Clock)
    | Tick(timestamp: int, clock: Clock)
    | SubmitOrder(order: Order)
    | PauseGame
    | ResumeGame
    | EndTurn(clock: Clock)
    | AdvanceTick(clock: Clock)
    | SetRealTime(enabled: bool)
    | ChangeTickSpeed(duration: int)
    | MissionComplete
    | MissionFailed
    | ReportError(error: string)
    | ResetGame
      /** The pending `after` delay of the current state ran out. */
    | DelayElapsed

  /** The context, without the world reference (kept beside it) and without
      the unused game-state slot. Durations are whole milliseconds. */
  datatype LoopContext = LoopContext(
    currentTick: int,
    tickDuration: int,
    lastTickTime: int,
    isRealTime: bool,
    turnCount: int,
    missionTimer: int,
    pendingOrders: seq<Order>,
    activeOrders: seq<Order>,
    completedOrders: seq<Order>,
    logs: seq<LogLine>,
    sitreps: seq<string>,
    victoryCondition: VictoryCondition,
    missionTimeLimit: Option<int>,
    error: Option<string>)

  /** The machine as a value: its state, its context, and whether it has a
      world. The loop itself only ever asks whether the world is there; what
      the systems do to it is stated on the methods of `GameLoopMachine`. */
  datatype Machine = Machine(state: LoopState, ctx: LoopContext, hasWorld: bool)

  /** The creation input this model accepts; absent fields take the defaults. */
  datatype LoopInput = LoopInput(
    tickDuration: Option<int>,
    isRealTime: Option<bool>,
    victoryCondition: Option<VictoryCondition>,
    missionTimeLimit: Option<int>)

  function OrElse<T>(o: Option<T>, d: T): T
  {
    if o.Some? then o.value else d
  }

  /** The machine as created: idle, no world, 5000 ms ticks, turn-based,
      elimination. */
  function Initial(input: LoopInput, now: int): Machine
  {
    Machine(Idle,
      LoopContext(0, OrElse(input.tickDuration, 5000), now, OrElse(input.isRealTime, false), 0, 0,
        [], [], [], [], [], OrElse(input.victoryCondition, Elimination), input.missionTimeLimit, None),
      false)
  }

  // ---------------------------------------------------------------------------
  // Guards

  /** JavaScript truthiness of the optional limit: present and non-zero. */
  predicate LimitSet(limit: Option<int>)
  {
    limit.Some? && limit.value != 0
  }

  predicate MissionTimeExpired(c: LoopContext)
  {
    LimitSet(c.missionTimeLimit) && c.missionTimer >= c.missionTimeLimit.value
  }

  /** The victory guard. Elimination and occupation are placeholders that
      never hold; survival needs 20 turns; a time limit is "won" while the
      mission timer is still below it. */
  predicate VictoryAchieved(hasWorld: bool, c: LoopContext)
  {
    hasWorld &&
    match c.victoryCondition
    case Elimination => false
    case Occupation => false
    case Survival => c.turnCount >= 20
    case TimeLimit => LimitSet(c.missionTimeLimit) && c.missionTimer < c.missionTimeLimit.value
  }

  /** The defeat guard is a placeholder: it never holds, with or without a world. */
  predicate DefeatConditions(hasWorld: bool)
  {
    hasWorld && false
  }

  // ---------------------------------------------------------------------------
  // Log lines

  /** Whole seconds of mission time after `ticks` ticks of `duration` ms,
      rounded down. */
  function MissionSeconds(ticks: int, duration: int): int
  {
    (ticks * duration) / 1000
  }

  /** The rendered seconds are the floor of the elapsed milliseconds / 1000. */
  lemma MissionSecondsFloor(ticks: int, duration: int)
    ensures MissionSeconds(ticks, duration) * 1000 <= ticks * duration < MissionSeconds(ticks, duration) * 1000 + 1000
  {
  }

  datatype TickSource = Timer(timestamp: int) | Manual

  /** The log, kept as one entry per line the machine writes; `LineText`
      renders each entry as the exact string of the log. */
  datatype LogLine =
    | GameInitialized
    | GameStarted
    | GameReset
    | TickAdvanced(tick: int, src: TickSource, missionTicks: int, duration: int)
    | OrdersProcessing(count: nat)
    | OrdersExecuted(count: nat)
    | SitrepGenerated(tick: int)
    | OrderReceived(action: Action, unit: string)
    | OrderQueuedWhilePaused
    | TurnBegins(turn: int)
    | ModeSet(realTime: bool)
    | TickSpeedChanged(duration: int)
    | ErrorReceived(error: string)
    | ErrorEncountered(lastError: Option<string>)
    | TurnBasedActive
    | RealTimeActive
    | GamePaused
    | GameResumed
    | MissionCompleted
    | MissionFailedLine
    | VictoryBanner
    | DefeatBanner
    | FinalStats(turns: int, ticks: int)

  /** The text of a tick line: `missionTicks` ticks of `duration` ms have
      elapsed when it is written. */
  function TickText(tick: int, src: TickSource, missionTicks: int, duration: int): string
  {
    "[TICK " + IntToString(tick) + "] " +
    (if src.Timer? then ElapsedText(MissionSeconds(missionTicks, duration)) else "Manual advance")
  }

  function ElapsedText(seconds: int): string
  {
    "Mission time: " + IntToString(seconds) + "s"
  }

  /** How `${context.error}` prints a missing error. */
  function ErrorText(e: Option<string>): string
  {
    if e.Some? then e.value else "null"
  }

  function LineText(l: LogLine): string
  {
    match l
    case GameInitialized => "Game initialized"
    case GameStarted => "Game started"
    case GameReset => "Game reset"
    case TickAdvanced(tick, src, ticks, duration) => TickText(tick, src, ticks, duration)
    case OrdersProcessing(n) => "Processing " + NatToString(n) + " new order(s)"
    case OrdersExecuted(n) => "Executed " + NatToString(n) + " order(s)"
    case SitrepGenerated(tick) => "Generated SITREP for tick " + IntToString(tick)
    case OrderReceived(a, unit) => "Order received: " + ActionName(a) + " for " + unit
    case OrderQueuedWhilePaused => "Order queued while game is paused"
    case TurnBegins(turn) => "--- TURN " + IntToString(turn) + " BEGINS ---"
    case ModeSet(realTime) => "Game mode: " + (if realTime then "Real-time" else "Turn-based")
    case TickSpeedChanged(d) => "Tick speed changed to " + IntToString(d) + "ms"
    case ErrorReceived(e) => "ERROR: " + e
    case ErrorEncountered(e) => "Game encountered an error: " + ErrorText(e)
    case TurnBasedActive => "Turn-based mode active"
    case RealTimeActive => "Real-time mode active"
    case GamePaused => "Game paused"
    case GameResumed => "Game resumed"
    case MissionCompleted => "Mission completed successfully!"
    case MissionFailedLine => "Mission failed!"
    case VictoryBanner => "\U{1F389} MISSION ACCOMPLISHED! Victory achieved."
    case DefeatBanner => "\U{274C} MISSION FAILED! Defeat conditions met."
    case FinalStats(turns, ticks) => "Final stats: " + IntToString(turns) + " turns, " + IntToString(ticks) + " ticks"
  }

  /** The log as the strings the source stores. */
  function LogText(logs: seq<LogLine>): (r: seq<string>)
    ensures |r| == |logs|
    ensures forall k :: 0 <= k < |logs| ==> r[k] == LineText(logs[k])
  {
    seq(|logs|, k requires 0 <= k < |logs| => LineText(logs[k]))
  }

  function SitrepLine(timeOfDay: string): string
  {
    "[" + timeOfDay + "] SITREP: All units operational. No contact."
  }

  // ---------------------------------------------------------------------------
  // Assign actions

  function Log(c: LoopContext, line: LogLine): LoopContext
  {
    c.(logs := c.logs + [line])
  }

  function InitializeGame(c: LoopContext, now: int): LoopContext
  {
    c.(currentTick := 0, turnCount := 0, missionTimer := 0, lastTickTime := now,
       pendingOrders := [], activeOrders := [], completedOrders := [],
       logs := [GameInitialized], sitreps := [], error := None)
  }

  /** Both counters advance by one; the last 50 log lines are kept and the
      tick line is appended. */
  function ProcessTick(c: LoopContext, src: TickSource, now: int): LoopContext
  {
    c.(currentTick := c.currentTick + 1,
       missionTimer := c.missionTimer + 1,
       lastTickTime := if src.Timer? then src.timestamp else now,
       logs := KeepLast(c.logs, 50) + [TickAdvanced(c.currentTick + 1, src, c.missionTimer + 1, c.tickDuration)])
  }

  function ProcessOrders(c: LoopContext): LoopContext
  {
    c.(activeOrders := c.activeOrders + c.pendingOrders,
       pendingOrders := [],
       logs := if |c.pendingOrders| > 0
               then c.logs + [OrdersProcessing(|c.pendingOrders|)]
               else c.logs)
  }

  /** Every active order is archived as completed; nothing acts on the world. */
  function ExecuteOrders(c: LoopContext): LoopContext
  {
    c.(completedOrders := c.completedOrders + c.activeOrders,
       activeOrders := [],
       logs := if |c.activeOrders| > 0
               then c.logs + [OrdersExecuted(|c.activeOrders|)]
               else c.logs)
  }

  /** With a world, the last 10 reports are kept and a new one is appended;
      the log line is written either way. */
  function GenerateReports(c: LoopContext, hasWorld: bool, timeOfDay: string): LoopContext
  {
    c.(sitreps := if hasWorld then KeepLast(c.sitreps, 10) + [SitrepLine(timeOfDay)] else c.sitreps,
       logs := c.logs + [SitrepGenerated(c.currentTick)])
  }

  function AddOrder(c: LoopContext, o: Order): LoopContext
  {
    c.(pendingOrders := c.pendingOrders + [o],
       logs := c.logs + [OrderReceived(o.action, o.unit)])
  }

  function AdvanceTurn(c: LoopContext): LoopContext
  {
    c.(turnCount := c.turnCount + 1,
       logs := c.logs + [TurnBegins(c.turnCount + 1)])
  }

  function SetRealTimeMode(c: LoopContext, enabled: bool): LoopContext
  {
    c.(isRealTime := enabled,
       logs := c.logs + [ModeSet(enabled)])
  }

  function SetTickSpeed(c: LoopContext, duration: int): LoopContext
  {
    c.(tickDuration := duration,
       logs := c.logs + [TickSpeedChanged(duration)])
  }

  function HandleError(c: LoopContext, e: string): LoopContext
  {
    c.(error := Some(e), logs := c.logs + [ErrorReceived(e)])
  }

  function ResetContext(c: LoopContext): LoopContext
  {
    c.(currentTick := 0, turnCount := 0, missionTimer := 0,
       pendingOrders := [], activeOrders := [], completedOrders := [],
       logs := [GameReset], sitreps := [], error := None)
  }

  // ---------------------------------------------------------------------------
  // State entries and the tick pipeline

  function EnterTurnBased(m: Machine): Machine
  {
    Machine(Running(TurnBased), Log(m.ctx, TurnBasedActive), m.hasWorld)
  }

  function EnterRealTime(m: Machine): Machine
  {
    Machine(Running(RealTime), Log(m.ctx, RealTimeActive), m.hasWorld)
  }

  function EnterPaused(m: Machine): Machine
  {
    Machine(Paused, Log(m.ctx, GamePaused), m.hasWorld)
  }

  function EnterVictory(m: Machine): Machine
  {
    Machine(Victory, m.ctx.(logs := m.ctx.logs + [VictoryBanner, FinalStats(m.ctx.turnCount, m.ctx.currentTick)]), m.hasWorld)
  }

  function EnterDefeat(m: Machine): Machine
  {
    Machine(Defeat, m.ctx.(logs := m.ctx.logs + [DefeatBanner, FinalStats(m.ctx.turnCount, m.ctx.currentTick)]), m.hasWorld)
  }

  function EnterError(m: Machine): Machine
  {
    Machine(Error, Log(m.ctx, ErrorEncountered(m.ctx.error)), m.hasWorld)
  }

  /** Seconds per tick, the delta handed to the systems. */
  function TickSeconds(c: LoopContext): real
  {
    c.tickDuration as real / 1000.0
  }

  /** The three systems in their fixed order. */
  function Simulate(es: seq<Ecs.Entity>, delta: real): seq<Ecs.Entity>
  {
    Ecs.MoraleStep(Ecs.CombatStep(Ecs.MovementStep(es), delta), delta)
  }

  /** Entering `processingTick`: tick, dispatch, archive, (simulate,) report.
      The simulation step changes only the world. */
  function TickStep(m: Machine, src: TickSource, clock: Clock): Machine
  {
    var c := ExecuteOrders(ProcessOrders(ProcessTick(m.ctx, src, clock.now)));
    Machine(Running(ProcessingTick), GenerateReports(c, m.hasWorld, clock.timeOfDay), m.hasWorld)
  }

  // ---------------------------------------------------------------------------
  // The transition table, one function per event. Each applies the event's
  // transition from every state and then the eventless transitions.

  /** The eventless transitions of `running`: victory, then defeat, then an
      expired mission timer. */
  function Settle(m: Machine): Machine
  {
    if !m.state.Running? then m
    else if VictoryAchieved(m.hasWorld, m.ctx) then EnterVictory(m)
    else if DefeatConditions(m.hasWorld) || MissionTimeExpired(m.ctx) then EnterDefeat(m)
    else m
  }

  /** `initializeGame`: a fresh empty world and cleared counters and queues. */
  function Start(m: Machine, clock: Clock): Machine
  {
    Machine(Initializing, InitializeGame(m.ctx, clock.now), true)
  }

  /** `resetGame`: no world, cleared counters, queues and reports. */
  function Cleared(m: Machine): Machine
  {
    Machine(Idle, ResetContext(m.ctx), false)
  }

  /** START_GAME, handled in `idle` and `error`. */
  function AfterStartGame(m: Machine, clock: Clock): Machine
  {
    Settle(if m.state == Idle || m.state == Error then Start(m, clock) else m)
  }

  /** TICK, handled only in `running.realTime`. */
  function AfterTick(m: Machine, timestamp: int, clock: Clock): Machine
  {
    Settle(if m.state == Running(RealTime) then TickStep(m, Timer(timestamp), clock) else m)
  }

  /** SUBMIT_ORDER, queued in `running` and in `paused`. */
  function AfterSubmitOrder(m: Machine, o: Order): Machine
  {
    Settle(
      if m.state.Running? then m.(ctx := AddOrder(m.ctx, o))
      else if m.state == Paused then m.(ctx := Log(AddOrder(m.ctx, o), OrderQueuedWhilePaused))
      else m)
  }

  /** PAUSE_GAME, handled only in `running`. */
  function AfterPauseGame(m: Machine): Machine
  {
    Settle(if m.state.Running? then EnterPaused(m) else m)
  }

  /** RESUME_GAME, handled only in `paused`; it enters `running` at its
      initial child, `turnBased`. */
  function AfterResumeGame(m: Machine): Machine
  {
    Settle(if m.state == Paused then EnterTurnBased(m.(ctx := Log(m.ctx, GameResumed))) else m)
  }

  /** END_TURN: in `turnBased` the turn advances and a tick runs; in
      `realTime` only the turn advances. */
  function AfterEndTurn(m: Machine, clock: Clock): Machine
  {
    Settle(
      if m.state == Running(TurnBased) then TickStep(m.(ctx := AdvanceTurn(m.ctx)), Manual, clock)
      else if m.state == Running(RealTime) then m.(ctx := AdvanceTurn(m.ctx))
      else m)
  }

  /** ADVANCE_TICK, handled only in `running.turnBased`. */
  function AfterAdvanceTick(m: Machine, clock: Clock): Machine
  {
    Settle(if m.state == Running(TurnBased) then TickStep(m, Manual, clock) else m)
  }

  /** SET_REAL_TIME, handled by `running` whatever its child. */
  function AfterSetRealTime(m: Machine, enabled: bool): Machine
  {
    Settle(
      if !m.state.Running? then m
      else
        var n := m.(ctx := SetRealTimeMode(m.ctx, enabled));
        if enabled then EnterRealTime(n) else EnterTurnBased(n))
  }

  function AfterChangeTickSpeed(m: Machine, duration: int): Machine
  {
    Settle(if m.state.Running? then m.(ctx := SetTickSpeed(m.ctx, duration)) else m)
  }

  function AfterMissionComplete(m: Machine): Machine
  {
    Settle(if m.state.Running? then EnterVictory(m.(ctx := Log(m.ctx, MissionCompleted))) else m)
  }

  function AfterMissionFailed(m: Machine): Machine
  {
    Settle(if m.state.Running? then EnterDefeat(m.(ctx := Log(m.ctx, MissionFailedLine))) else m)
  }

  /** ERROR, handled only in `initializing` and `running`. */
  function AfterReportError(m: Machine, e: string): Machine
  {
    Settle(if m.state == Initializing || m.state.Running? then EnterError(m.(ctx := HandleError(m.ctx, e))) else m)
  }

  /** RESET_GAME, handled in `idle`, `paused` and `error`. */
  function AfterResetGame(m: Machine): Machine
  {
    Settle(if m.state == Idle || m.state == Paused || m.state == Error then Cleared(m) else m)
  }

  /** The 1000 ms delay of `initializing` and the 100 ms delay of
      `processingTick`, which returns to the mode `isRealTime` selects. */
  function AfterDelayElapsed(m: Machine): Machine
  {
    Settle(
      if m.state == Initializing then EnterTurnBased(m.(ctx := Log(m.ctx, GameStarted)))
      else if m.state == Running(ProcessingTick) then
        (if m.ctx.isRealTime then EnterRealTime(m) else EnterTurnBased(m))
      else m)
  }

  /** One macrostep of the machine. */
  function Step(m: Machine, ev: Event): Machine
  {
    match ev
    case StartGame(clock) => AfterStartGame(m, clock)
    case Tick(timestamp, clock) => AfterTick(m, timestamp, clock)
    case SubmitOrder(o) => AfterSubmitOrder(m, o)
    case PauseGame => AfterPauseGame(m)
    case ResumeGame => AfterResumeGame(m)
    case EndTurn(clock) => AfterEndTurn(m, clock)
    case AdvanceTick(clock) => AfterAdvanceTick(m, clock)
    case SetRealTime(enabled) => AfterSetRealTime(m, enabled)
    case ChangeTickSpeed(d) => AfterChangeTickSpeed(m, d)
    case MissionComplete => AfterMissionComplete(m)
    case MissionFailed => AfterMissionFailed(m)
    case ReportError(e) => AfterReportError(m, e)
    case ResetGame => AfterResetGame(m)
    case DelayElapsed => AfterDelayElapsed(m)
  }

  // ---------------------------------------------------------------------------
  // The machine object

  class GameLoopMachine {
    var state: LoopState
    var ctx: LoopContext
    /** The context's game world; `null` before the first start and after a reset. */
    var world: GameWorld?

    function Snapshot(): Machine
      reads this
    {
      Machine(state, ctx, world != null)
    }

    constructor (input: LoopInput, now: int)
      ensures Snapshot() == Initial(input, now)
    {
      state := Idle;
      ctx := LoopContext(0, OrElse(input.tickDuration, 5000), now, OrElse(input.isRealTime, false), 0, 0,
        [], [], [], [], [], OrElse(input.victoryCondition, Elimination), input.missionTimeLimit, None);
      world := null;
    }

    /** Runs the eventless transitions of `running`. */
    method CheckOutcome()
      modifies this
      ensures world == old(world)
      ensures Snapshot() == Settle(old(Snapshot()))
    {
      if state.Running? {
        if VictoryAchieved(world != null, ctx) {
          ctx := ctx.(logs := ctx.logs + [VictoryBanner, FinalStats(ctx.turnCount, ctx.currentTick)]);
          state := Victory;
        } else if DefeatConditions(world != null) || MissionTimeExpired(ctx) {
          ctx := ctx.(logs := ctx.logs + [DefeatBanner, FinalStats(ctx.turnCount, ctx.currentTick)]);
          state := Defeat;
        }
      }
    }

    /** The entry actions of `processingTick`, in order. */
    method RunTick(src: TickSource, clock: Clock)
      modifies this, world
      ensures world == old(world)
      ensures world != null ==> world.entities == Simulate(old(world.entities), TickSeconds(old(ctx)))
      ensures Snapshot() == TickStep(old(Snapshot()), src, clock)
    {
      ctx := ProcessTick(ctx, src, clock.now);
      ctx := ProcessOrders(ctx);
      ctx := ExecuteOrders(ctx);
      assert ctx.tickDuration == old(ctx.tickDuration);
      if world != null {
        var delta := TickSeconds(ctx);
        world.Movement(delta);
        world.Combat(delta);
        world.Morale(delta);
      }
      ctx := GenerateReports(ctx, world != null, clock.timeOfDay);
      state := Running(ProcessingTick);
    }

    method Reset()
      modifies this
      ensures Snapshot() == Cleared(old(Snapshot()))
    {
      ctx := ResetContext(ctx);
      world := null;
      state := Idle;
    }

    method Initialize(clock: Clock)
      modifies this
      ensures fresh(world) && world.entities == []
      ensures Snapshot() == Start(old(Snapshot()), clock)
    {
      world := new GameWorld();
      ctx := InitializeGame(ctx, clock.now);
      state := Initializing;
    }

    method EnterTurnBasedMode()
      modifies this
      ensures world == old(world)
      ensures Snapshot() == EnterTurnBased(old(Snapshot()))
    {
      ctx := Log(ctx, TurnBasedActive);
      state := Running(TurnBased);
    }

    method EnterRealTimeMode()
      modifies this
      ensures world == old(world)
      ensures Snapshot() == EnterRealTime(old(Snapshot()))
    {
      ctx := Log(ctx, RealTimeActive);
      state := Running(RealTime);
    }

    method Fail(e: string)
      modifies this
      ensures world == old(world)
      ensures Snapshot() == EnterError(old(Snapshot()).(ctx := HandleError(old(ctx), e)))
    {
      ctx := HandleError(ctx, e);
      ctx := Log(ctx, ErrorEncountered(ctx.error));
      state := Error;
    }

    method OnStartGame(clock: Clock)
      modifies this
      ensures Snapshot() == AfterStartGame(old(Snapshot()), clock)
      ensures if old(state) == Idle || old(state) == Error then fresh(world) && world.entities == [] else world == old(world)
    {
      if state == Idle || state == Error {
        Initialize(clock);
      }
      CheckOutcome();
    }

    method OnTick(timestamp: int, clock: Clock)
      modifies this, world
      ensures Snapshot() == AfterTick(old(Snapshot()), timestamp, clock)
      ensures world == old(world)
      ensures world != null ==>
        world.entities == if old(state) == Running(RealTime) then Simulate(old(world.entities), TickSeconds(old(ctx))) else old(world.entities)
    {
      if state == Running(RealTime) {
        RunTick(Timer(timestamp), clock);
      }
      CheckOutcome();
    }

    method OnSubmitOrder(o: Order)
      modifies this
      ensures Snapshot() == AfterSubmitOrder(old(Snapshot()), o)
    {
      if state.Running? {
        ctx := AddOrder(ctx, o);
      } else if state == Paused {
        ctx := AddOrder(ctx, o);
        ctx := Log(ctx, OrderQueuedWhilePaused);
      }
      CheckOutcome();
    }

    method OnPauseGame()
      modifies this
      ensures Snapshot() == AfterPauseGame(old(Snapshot()))
    {
      if state.Running? {
        ctx := Log(ctx, GamePaused);
        state := Paused;
      }
    }

    method OnResumeGame()
      modifies this
      ensures Snapshot() == AfterResumeGame(old(Snapshot()))
    {
      if state == Paused {
        ctx := Log(ctx, GameResumed);
        EnterTurnBasedMode();
      }
      CheckOutcome();
    }

    method OnEndTurn(clock: Clock)
      modifies this, world
      ensures Snapshot() == AfterEndTurn(old(Snapshot()), clock)
      ensures world == old(world)
      ensures world != null ==>
        world.entities == if old(state) == Running(TurnBased) then Simulate(old(world.entities), TickSeconds(old(ctx))) else old(world.entities)
    {
      if state == Running(TurnBased) {
        ghost var m := Snapshot().(ctx := AdvanceTurn(ctx));
        ctx := AdvanceTurn(ctx);
        assert ctx.tickDuration == old(ctx.tickDuration);
        RunTick(Manual, clock);
        assert Snapshot() == TickStep(m, Manual, clock);
      } else if state == Running(RealTime) {
        ctx := AdvanceTurn(ctx);
      }
      CheckOutcome();
    }

    method OnAdvanceTick(clock: Clock)
      modifies this, world
      ensures Snapshot() == AfterAdvanceTick(old(Snapshot()), clock)
      ensures world == old(world)
      ensures world != null ==>
        world.entities == if old(state) == Running(TurnBased) then Simulate(old(world.entities), TickSeconds(old(ctx))) else old(world.entities)
    {
      if state == Running(TurnBased) {
        RunTick(Manual, clock);
      }
      CheckOutcome();
    }

    method OnSetRealTime(enabled: bool)
      modifies this
      ensures Snapshot() == AfterSetRealTime(old(Snapshot()), enabled)
    {
      if state.Running? {
        ctx := SetRealTimeMode(ctx, enabled);
        if enabled {
          EnterRealTimeMode();
        } else {
          EnterTurnBasedMode();
        }
      }
      CheckOutcome();
    }

    method OnChangeTickSpeed(duration: int)
      modifies this
      ensures Snapshot() == AfterChangeTickSpeed(old(Snapshot()), duration)
    {
      if state.Running? {
        ctx := SetTickSpeed(ctx, duration);
      }
      CheckOutcome();
    }

    method OnMissionComplete()
      modifies this
      ensures Snapshot() == AfterMissionComplete(old(Snapshot()))
    {
      if state.Running? {
        ctx := Log(ctx, MissionCompleted);
        ctx := ctx.(logs := ctx.logs + [VictoryBanner, FinalStats(ctx.turnCount, ctx.currentTick)]);
        state := Victory;
      }
    }

    method OnMissionFailed()
      modifies this
      ensures Snapshot() == AfterMissionFailed(old(Snapshot()))
    {
      if state.Running? {
        ctx := Log(ctx, MissionFailedLine);
        ctx := ctx.(logs := ctx.logs + [DefeatBanner, FinalStats(ctx.turnCount, ctx.currentTick)]);
        state := Defeat;
      }
    }

    method OnError(e: string)
      modifies this
      ensures Snapshot() == AfterReportError(old(Snapshot()), e)
    {
      if state == Initializing || state.Running? {
        Fail(e);
      }
      CheckOutcome();
    }

    method OnResetGame()
      modifies this
      ensures Snapshot() == AfterResetGame(old(Snapshot()))
    {
      if state == Idle || state == Paused || state == Error {
        Reset();
      }
      CheckOutcome();
    }

    method OnDelayElapsed()
      modifies this
      ensures Snapshot() == AfterDelayElapsed(old(Snapshot()))
    {
      if state == Initializing {
        ctx := Log(ctx, GameStarted);
        EnterTurnBasedMode();
      } else if state == Running(ProcessingTick) {
        if ctx.isRealTime {
          EnterRealTimeMode();
        } else {
          EnterTurnBasedMode();
        }
      }
      CheckOutcome();
    }
  }
}
