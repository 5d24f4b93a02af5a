/** The original game machine: orders, turns and the world-based victory
    and defeat checks, as one function per event over an immutable
    snapshot, and a class that runs the same transitions on a mutable world.

    Every entry into `running` increments the turn, and every macrostep
    that ends in `running` tests victory before defeat. The entry of
    `initializing` always builds a fresh, empty world. */
module GameMachine {
  import opened Common
  import opened Orders
  import opened Ecs
  import opened EcsWorld
  import opened Victory

  /** `error` is `Errored`; the final `victory` and `defeat` are `Won` and
      `Lost`. */
  datatype Phase = Initializing | Errored | AwaitingCommand | ProcessingOrder | ExecutingOrder | Running | Won | Lost

  /** A saved game state; the machine only stores it. */
  datatype SavedGame = SavedGame(title: string)

  /** The log lines the machine writes, rendered by `LogText`. */
  datatype GameLog =
    | ExecutingLine(action: Action, unit: string)
    | ErrorLine(message: string)
    | SavedLine
    | LoadedLine
    | TurnBegins(turn: int)
    | TurnEffects(turn: int)
    | InMovement(names: seq<string>)
    | InCombat(names: seq<string>)
    | CompletedLine
    | FailedLine
    | VictoryLine
    | DefeatLine

  /** Names separated by ", ". */
  function CommaList(names: seq<string>): string
  {
    if |names| == 0 then ""
    else if |names| == 1 then names[0]
    else names[0] + ", " + CommaList(names[1..])
  }

  function LogText(l: GameLog): string
  {
    match l
    case ExecutingLine(a, u) => "Executing order: " + ActionName(a) + " for " + u
    case ErrorLine(e) => "Error: " + e
    case SavedLine => "Game saved successfully"
    case LoadedLine => "Game loaded successfully"
    case TurnBegins(n) => "Turn " + IntToString(n) + " begins"
    case TurnEffects(n) => "Turn " + IntToString(n) + ": Processing effects"
    case InMovement(names) => "Units in movement: " + CommaList(names)
    case InCombat(names) => "Units in combat: " + CommaList(names)
    case CompletedLine => "Order completed successfully"
    case FailedLine => "Order failed to execute"
    case VictoryLine => "\U{1F389} Victory! Mission accomplished."
    case DefeatLine => "\U{274C} Defeat. Mission failed."
  }

  datatype GameContext = GameContext(
    victoryCondition: VictoryCondition,
    logs: seq<GameLog>,
    turnCount: int,
    currentOrder: Option<Order>,
    error: Option<string>,
    lastSaveTimestamp: Option<int>,
    gameState: Option<SavedGame>,
    isPaused: bool)

  datatype Game = Game(phase: Phase, ctx: GameContext, world: Option<seq<Entity>>)

  /** The machine's input; an absent log list is empty and an absent turn
      count is 0. The input world is accepted but replaced at once. */
  datatype GameInput = GameInput(
    victoryCondition: Option<VictoryCondition>,
    logs: seq<GameLog>,
    turnCount: int,
    lastSaveTimestamp: Option<int>,
    gameState: Option<SavedGame>,
    world: Option<seq<Entity>>)

  datatype GameEvent =
    | GameReady
    | SubmitOrder(order: Order)
    | OrderValid
    | OrderInvalid
    | OrderComplete
    | OrderFailed
    | ErrorEvent(message: string)
    | Retry
    | Reset
    | SaveGame(now: int)
    | LoadGame(state: SavedGame)
    | EndTurn
    | Pause
    | Resume
    | ExecutionDelay

  function InitialContext(input: GameInput): GameContext
  {
    GameContext(
      if input.victoryCondition.Some? then input.victoryCondition.value else Elimination,
      input.logs, input.turnCount, None, None, input.lastSaveTimestamp, input.gameState, false)
  }

  /** The machine starts in `initializing`, whose entry builds a new world. */
  function Initial(input: GameInput): Game
  {
    Game(Initializing, InitialContext(input), Some([]))
  }

  function Log(c: GameContext, l: GameLog): GameContext
  {
    c.(logs := c.logs + [l])
  }

  // ---------------------------------------------------------------------------
  // World effects

  /** The names of the units that are moving, in world order. */
  function MovingNames(es: seq<Entity>): (r: seq<string>)
    ensures |r| <= |es|
    ensures forall n :: n in r <==> exists k :: 0 <= k < |es| && es[k].UnitEntity? && es[k].unit.isMoving && es[k].unit.name == n
  {
    if |es| == 0 then []
    else
      assert forall k :: 1 <= k < |es| ==> es[k] == es[1..][k - 1];
      (if es[0].UnitEntity? && es[0].unit.isMoving then [es[0].unit.name] else []) + MovingNames(es[1..])
  }

  /** The names of the units that are engaged, in world order. */
  function EngagedNames(es: seq<Entity>): (r: seq<string>)
    ensures |r| <= |es|
    ensures forall n :: n in r <==> exists k :: 0 <= k < |es| && IsEngagedUnit(es[k]) && es[k].unit.name == n
  {
    if |es| == 0 then []
    else
      assert forall k :: 1 <= k < |es| ==> es[k] == es[1..][k - 1];
      (if IsEngagedUnit(es[0]) then [es[0].unit.name] else []) + EngagedNames(es[1..])
  }

  /** The lines `processTurnEffects` logs for turn `n`, over the world after
      its morale pass. */
  function TurnEffectLines(n: int, es: seq<Entity>): seq<GameLog>
  {
    [TurnEffects(n)] +
    (if |MovingNames(es)| > 0 then [InMovement(MovingNames(es))] else []) +
    (if |EngagedNames(es)| > 0 then [InCombat(EngagedNames(es))] else [])
  }

  /** `executeMove` on the world: the first entity named by the order moves
      to a given destination, or engages the first entity whose name is the
      order's target. */
  function MoveEffect(es: seq<Entity>, o: Order): (r: seq<Entity>)
    ensures |r| == |es|
  {
    match FindNamed(es, o.unit)
    case None => es
    case Some(i) =>
      if o.action == Move then
        if Truthy(o.destination) then MoveAt(es, i, o.destination.value) else es
      else if o.action == Attack && o.target.Some? then
        match FindNamed(es, o.target.value)
        case None => es
        case Some(j) => EngageAt(es, i, j)
      else es
  }

  // ---------------------------------------------------------------------------
  // The transition table

  /** The eventless transitions of `running`: victory first, then defeat. */
  function Settle(m: Game): Game
  {
    if m.phase != Running then m
    else if CheckVictory(m.ctx.victoryCondition, m.world, m.ctx.turnCount) then
      m.(phase := Won, ctx := Log(m.ctx, VictoryLine))
    else if DefeatConditionsMet(m.world) then m.(phase := Lost, ctx := Log(m.ctx, DefeatLine))
    else m
  }

  /** Entering `running`: `incrementTurn`, then the eventless checks. */
  function EnterRunning(m: Game): Game
  {
    var t := m.ctx.turnCount + 1;
    Settle(m.(phase := Running, ctx := Log(m.ctx.(turnCount := t), TurnBegins(t))))
  }

  /** Entering `initializing`: `initializeWorld`. */
  function EnterInitializing(m: Game): Game
  {
    m.(phase := Initializing, world := Some([]))
  }

  function AfterGameReady(m: Game): Game
  {
    if m.phase == Initializing then m.(phase := AwaitingCommand) else m
  }

  /** `validateOrder`, the entry of `processingOrder`, only builds events it
      never sends, so the machine waits there for ORDER_VALID or
      ORDER_INVALID. */
  function AfterSubmitOrder(m: Game, o: Order): Game
  {
    if m.phase == AwaitingCommand || m.phase == Running then
      m.(phase := ProcessingOrder, ctx := m.ctx.(currentOrder := Some(o)))
    else m
  }

  function AfterOrderValid(m: Game): Game
  {
    if m.phase != ProcessingOrder then m
    else
      var o := m.ctx.currentOrder;
      m.(phase := ExecutingOrder, ctx := if o.Some? then Log(m.ctx, ExecutingLine(o.value.action, o.value.unit)) else m.ctx)
  }

  function AfterOrderInvalid(m: Game): Game
  {
    if m.phase == ProcessingOrder then m.(phase := AwaitingCommand) else m
  }

  /** The 100 ms delay of `executingOrder`: for a move or an attack, apply
      it to the world and enter `running`; otherwise stay. */
  function AfterExecutionDelay(m: Game): Game
  {
    if m.phase != ExecutingOrder then m
    else
      var o := m.ctx.currentOrder;
      if o.Some? && (o.value.action == Move || o.value.action == Attack) then
        EnterRunning(m.(world := if m.world.Some? then Some(MoveEffect(m.world.value, o.value)) else None))
      else m
  }

  function AfterOrderComplete(m: Game): Game
  {
    if m.phase != ExecutingOrder then m
    else EnterRunning(m.(ctx := Log(m.ctx, CompletedLine).(currentOrder := None)))
  }

  function AfterOrderFailed(m: Game): Game
  {
    if m.phase != ExecutingOrder then m
    else m.(phase := AwaitingCommand, ctx := Log(m.ctx, FailedLine).(currentOrder := None))
  }

  /** `handleError`, accepted in `initializing` and `running`. */
  function AfterError(m: Game, e: string): Game
  {
    if m.phase == Initializing || m.phase == Running then
      m.(phase := Errored, ctx := Log(m.ctx, ErrorLine(e)).(error := Some(e)))
    else m
  }

  function AfterRetry(m: Game): Game
  {
    if m.phase == Errored then EnterInitializing(m) else m
  }

  function ClearedContext(c: GameContext): GameContext
  {
    c.(error := None, logs := [], gameState := None, currentOrder := None, turnCount := 0, lastSaveTimestamp := None)
  }

  function AfterReset(m: Game): Game
  {
    if m.phase == Errored then EnterInitializing(m.(ctx := ClearedContext(m.ctx), world := None)) else m
  }

  /** END_TURN: `processTurnEffects` runs the morale system once in place,
      counts the turn and logs the moving and engaged units of the updated
      world, then the machine waits for a command. */
  function AfterEndTurn(m: Game): Game
  {
    if m.phase != Running then m
    else
      var t := m.ctx.turnCount + 1;
      match m.world
      case None => m.(phase := AwaitingCommand, ctx := m.ctx.(turnCount := t))
      case Some(es) =>
        var after := MoraleStep(es, 1.0);
        m.(phase := AwaitingCommand, world := Some(after),
           ctx := m.ctx.(turnCount := t, logs := m.ctx.logs + TurnEffectLines(t, after)))
  }

  function AfterPause(m: Game, paused: bool): Game
  {
    if m.phase != Running then m else Settle(m.(ctx := m.ctx.(isPaused := paused)))
  }

  function AfterSave(m: Game, now: int): Game
  {
    if m.phase != Running then m
    else Settle(m.(ctx := Log(m.ctx, SavedLine).(lastSaveTimestamp := Some(now))))
  }

  function AfterLoad(m: Game, s: SavedGame): Game
  {
    if m.phase != Running then m
    else Settle(m.(ctx := Log(m.ctx, LoadedLine).(gameState := Some(s))))
  }

  /** One macrostep. */
  function Step(m: Game, ev: GameEvent): Game
  {
    match ev
    case GameReady => AfterGameReady(m)
    case SubmitOrder(o) => AfterSubmitOrder(m, o)
    case OrderValid => AfterOrderValid(m)
    case OrderInvalid => AfterOrderInvalid(m)
    case OrderComplete => AfterOrderComplete(m)
    case OrderFailed => AfterOrderFailed(m)
    case ErrorEvent(e) => AfterError(m, e)
    case Retry => AfterRetry(m)
    case Reset => AfterReset(m)
    case SaveGame(now) => AfterSave(m, now)
    case LoadGame(s) => AfterLoad(m, s)
    case EndTurn => AfterEndTurn(m)
    case Pause => AfterPause(m, true)
    case Resume => AfterPause(m, false)
    case ExecutionDelay => AfterExecutionDelay(m)
  }

  // ---------------------------------------------------------------------------
  // The machine over a mutable world

  class WarTactics {
    var phase: Phase
    var ctx: GameContext
    var world: GameWorld?

    function Snapshot(): Game
      reads this, world
    {
      Game(phase, ctx, if world == null then None else Some(world.entities))
    }

    constructor (input: GameInput)
      ensures fresh(world) && Snapshot() == Initial(input)
    {
      phase := Initializing;
      ctx := InitialContext(input);
      world := new GameWorld();
    }

    /** The eventless checks of `running`, on the current world. */
    method CheckOutcome()
      modifies this
      ensures world == old(world)
      ensures Snapshot() == Settle(old(Snapshot()))
    {
      if phase == Running {
        var w := if world == null then None else Some(world.entities);
        if CheckVictory(ctx.victoryCondition, w, ctx.turnCount) {
          phase := Won;
          ctx := Log(ctx, VictoryLine);
        } else if DefeatConditionsMet(w) {
          phase := Lost;
          ctx := Log(ctx, DefeatLine);
        }
      }
    }

    method BeginTurn()
      modifies this
      ensures world == old(world)
      ensures Snapshot() == EnterRunning(old(Snapshot()))
    {
      var t := ctx.turnCount + 1;
      phase := Running;
      ctx := Log(ctx.(turnCount := t), TurnBegins(t));
      CheckOutcome();
    }

    method OnGameReady()
      modifies this
      ensures world == old(world)
      ensures Snapshot() == AfterGameReady(old(Snapshot()))
    {
      if phase == Initializing {
        phase := AwaitingCommand;
      }
    }

    method OnSubmitOrder(o: Order)
      modifies this
      ensures world == old(world)
      ensures Snapshot() == AfterSubmitOrder(old(Snapshot()), o)
    {
      if phase == AwaitingCommand || phase == Running {
        phase := ProcessingOrder;
        ctx := ctx.(currentOrder := Some(o));
      }
    }

    method OnOrderValid()
      modifies this
      ensures world == old(world)
      ensures Snapshot() == AfterOrderValid(old(Snapshot()))
    {
      if phase == ProcessingOrder {
        phase := ExecutingOrder;
        if ctx.currentOrder.Some? {
          ctx := Log(ctx, ExecutingLine(ctx.currentOrder.value.action, ctx.currentOrder.value.unit));
        }
      }
    }

    method OnOrderInvalid()
      modifies this
      ensures world == old(world)
      ensures Snapshot() == AfterOrderInvalid(old(Snapshot()))
    {
      if phase == ProcessingOrder {
        phase := AwaitingCommand;
      }
    }

    /** `executeMove`, on the mutable world. */
    method ExecuteMove(o: Order)
      requires world != null
      modifies world
      ensures world.entities == MoveEffect(old(world.entities), o)
    {
      var es := world.entities;
      match FindNamed(es, o.unit)
      case None =>
      case Some(i) =>
        if o.action == Move {
          if Truthy(o.destination) && es[i].UnitEntity? {
            world.MoveUnit(i, o.destination.value);
          }
        } else if o.action == Attack && o.target.Some? {
          match FindNamed(es, o.target.value)
          case None =>
          case Some(j) =>
            world.EngageTarget(i, j);
        }
    }

    method OnExecutionDelay()
      modifies this, world
      ensures world == old(world)
      ensures Snapshot() == AfterExecutionDelay(old(Snapshot()))
    {
      if phase == ExecutingOrder {
        var o := ctx.currentOrder;
        if o.Some? && (o.value.action == Move || o.value.action == Attack) {
          ghost var m := old(Snapshot());
          ghost var moved := m.(world := if m.world.Some? then Some(MoveEffect(m.world.value, o.value)) else None);
          if world != null {
            ExecuteMove(o.value);
          }
          assert Snapshot() == moved;
          BeginTurn();
        }
      }
    }

    method OnOrderComplete()
      modifies this
      ensures world == old(world)
      ensures Snapshot() == AfterOrderComplete(old(Snapshot()))
    {
      if phase == ExecutingOrder {
        ctx := Log(ctx, CompletedLine).(currentOrder := None);
        BeginTurn();
      }
    }

    method OnOrderFailed()
      modifies this
      ensures world == old(world)
      ensures Snapshot() == AfterOrderFailed(old(Snapshot()))
    {
      if phase == ExecutingOrder {
        phase := AwaitingCommand;
        ctx := Log(ctx, FailedLine).(currentOrder := None);
      }
    }

    method OnError(e: string)
      modifies this
      ensures world == old(world)
      ensures Snapshot() == AfterError(old(Snapshot()), e)
    {
      if phase == Initializing || phase == Running {
        phase := Errored;
        ctx := Log(ctx, ErrorLine(e)).(error := Some(e));
      }
    }

    method OnRetry()
      modifies this
      ensures old(phase) == Errored ==> fresh(world)
      ensures old(phase) != Errored ==> world == old(world)
      ensures Snapshot() == AfterRetry(old(Snapshot()))
    {
      if phase == Errored {
        phase := Initializing;
        world := new GameWorld();
      }
    }

    method OnReset()
      modifies this
      ensures old(phase) == Errored ==> fresh(world)
      ensures old(phase) != Errored ==> world == old(world)
      ensures Snapshot() == AfterReset(old(Snapshot()))
    {
      if phase == Errored {
        ctx := ClearedContext(ctx);
        world := null;
        phase := Initializing;
        world := new GameWorld();
      }
    }

    method OnEndTurn()
      modifies this, world
      ensures world == old(world)
      ensures Snapshot() == AfterEndTurn(old(Snapshot()))
    {
      if phase == Running {
        var t := ctx.turnCount + 1;
        phase := AwaitingCommand;
        if world == null {
          ctx := ctx.(turnCount := t);
        } else {
          world.Morale(1.0);
          ctx := ctx.(turnCount := t, logs := ctx.logs + TurnEffectLines(t, world.entities));
        }
      }
    }

    method OnPause(paused: bool)
      modifies this
      ensures world == old(world)
      ensures Snapshot() == AfterPause(old(Snapshot()), paused)
    {
      if phase == Running {
        ctx := ctx.(isPaused := paused);
        CheckOutcome();
      }
    }

    method OnSaveGame(now: int)
      modifies this
      ensures world == old(world)
      ensures Snapshot() == AfterSave(old(Snapshot()), now)
    {
      if phase == Running {
        ctx := Log(ctx, SavedLine).(lastSaveTimestamp := Some(now));
        CheckOutcome();
      }
    }

    method OnLoadGame(s: SavedGame)
      modifies this
      ensures world == old(world)
      ensures Snapshot() == AfterLoad(old(Snapshot()), s)
    {
      if phase == Running {
        ctx := Log(ctx, LoadedLine).(gameState := Some(s));
        CheckOutcome();
      }
    }
  }
}
