/** Properties of the original game machine. */
module GameMachineLemmas {
  import opened Common
  import opened Orders
  import opened Ecs
  import opened Victory
  import opened GameMachine

  /** A snapshot in `running` has already taken its eventless transitions. */
  predicate Settled(m: Game)
  {
    m.phase == Running ==> !CheckVictory(m.ctx.victoryCondition, m.world, m.ctx.turnCount) && !DefeatConditionsMet(m.world)
  }

  lemma InitialSettled(input: GameInput)
    ensures Settled(Initial(input))
  {
  }

  lemma StepKeepsSettled(m: Game, ev: GameEvent)
    requires Settled(m)
    ensures Settled(Step(m, ev))
  {
    match ev
    case ExecutionDelay =>
    case OrderComplete =>
    case _ =>
  }

  /** Victory is tested first: a world that meets both the victory condition
      and the defeat condition is won. */
  lemma VictoryBeforeDefeat(m: Game)
    requires m.phase == Running && CheckVictory(m.ctx.victoryCondition, m.world, m.ctx.turnCount)
    ensures Settle(m) == m.(phase := Won, ctx := m.ctx.(logs := m.ctx.logs + [VictoryLine]))
  {
  }

  /** Under occupation, a world with neither objectives nor friendly units is
      won on entering `running`, although it also meets the defeat rule. */
  lemma OccupationWithoutObjectivesWins(m: Game, es: seq<Entity>)
    requires m.ctx.victoryCondition == Occupation && m.world == Some(es)
    requires forall k :: 0 <= k < |es| ==> !IsObjective(es[k]) && !IsFaction(es[k], Friendly)
    ensures DefeatConditionsMet(m.world)
    ensures EnterRunning(m).phase == Won
  {
    OccupationVacuous(es);
    DefeatIffNoFriendly(es);
  }

  /** The world the machine builds itself is empty, so entering `running`
      with it ends the game at once: won under occupation, lost otherwise. */
  lemma EmptyWorldEndsAtOnce(m: Game)
    requires m.world == Some([])
    ensures EnterRunning(m).phase == (if m.ctx.victoryCondition == Occupation then Won else Lost)
  {
    OccupationAndDefeatOverlap();
  }

  /** Nothing the machine does puts an entity into its own world. */
  lemma StepKeepsEmptyWorld(m: Game, ev: GameEvent)
    requires m.world == Some([])
    ensures Step(m, ev).world == Some([])
  {
    match ev
    case ExecutionDelay =>
      if m.phase == ExecutingOrder && m.ctx.currentOrder.Some? {
        assert FindNamed([], m.ctx.currentOrder.value.unit).None?;
      }
    case EndTurn =>
    case _ =>
  }

  /** The events in order. */
  function Run(m: Game, evs: seq<GameEvent>): Game
    decreases |evs|
  {
    if |evs| == 0 then m else Run(Step(m, evs[0]), evs[1..])
  }

  lemma {:induction false} EmptyRunNeverRunning(m: Game, evs: seq<GameEvent>)
    requires Settled(m) && m.world == Some([])
    ensures Settled(Run(m, evs)) && Run(m, evs).world == Some([])
    ensures Run(m, evs).phase != Running
    decreases |evs|
  {
    if |evs| > 0 {
      StepKeepsSettled(m, evs[0]);
      StepKeepsEmptyWorld(m, evs[0]);
      EmptyRunNeverRunning(Step(m, evs[0]), evs[1..]);
    } else {
      OccupationAndDefeatOverlap();
    }
  }

  /** Left to itself the machine is never observed in `running`: every entry
      into it is decided by the eventless checks on the empty world. */
  lemma FreshGameNeverRunning(input: GameInput, evs: seq<GameEvent>)
    ensures Run(Initial(input), evs).phase != Running
  {
    EmptyRunNeverRunning(Initial(input), evs);
  }

  /** Completing an order counts a turn, forgets the order and logs the
      completion and the new turn before any outcome line. */
  lemma OrderCompleteCountsTurn(m: Game)
    requires m.phase == ExecutingOrder
    ensures var n := Step(m, OrderComplete);
      var t := m.ctx.turnCount + 1;
      n.ctx.turnCount == t && n.ctx.currentOrder.None? && n.world == m.world &&
      (n.phase == Running || n.phase == Won || n.phase == Lost) &&
      |n.ctx.logs| >= |m.ctx.logs| + 2 &&
      n.ctx.logs[..|m.ctx.logs| + 2] == m.ctx.logs + [CompletedLine, TurnBegins(t)]
  {
  }

  /** END_TURN counts a turn too, runs morale once and waits for a command. */
  lemma EndTurnCountsTurn(m: Game, es: seq<Entity>)
    requires m.phase == Running && m.world == Some(es)
    ensures var n := Step(m, EndTurn);
      n.phase == AwaitingCommand && n.ctx.turnCount == m.ctx.turnCount + 1 &&
      n.world == Some(MoraleStep(es, 1.0)) &&
      n.ctx.logs == m.ctx.logs + TurnEffectLines(m.ctx.turnCount + 1, MoraleStep(es, 1.0)) &&
      n.ctx.logs[|m.ctx.logs|] == TurnEffects(m.ctx.turnCount + 1)
  {
  }

  /** A command round from `running` (end the turn, submit, validate,
      complete) counts two turns, not one. */
  lemma RoundCountsTwoTurns(m: Game, o: Order)
    requires m.phase == Running && m.world.Some?
    ensures Step(Step(Step(Step(m, EndTurn), SubmitOrder(o)), OrderValid), OrderComplete).ctx.turnCount == m.ctx.turnCount + 2
  {
    var a := Step(m, EndTurn);
    assert a.phase == AwaitingCommand && a.ctx.turnCount == m.ctx.turnCount + 1;
    var b := Step(a, SubmitOrder(o));
    assert b.phase == ProcessingOrder && b.ctx.turnCount == a.ctx.turnCount;
    var c := Step(b, OrderValid);
    assert c.phase == ExecutingOrder && c.ctx.turnCount == a.ctx.turnCount;
    OrderCompleteCountsTurn(c);
  }

  /** RESET clears the error, logs, state, order, turn count and save time,
      and the entry of `initializing` builds a new empty world. */
  lemma ResetClears(m: Game)
    requires m.phase == Errored
    ensures var n := Step(m, Reset);
      n.phase == Initializing && n.world == Some([]) &&
      n.ctx.error.None? && n.ctx.logs == [] && n.ctx.gameState.None? && n.ctx.currentOrder.None? &&
      n.ctx.turnCount == 0 && n.ctx.lastSaveTimestamp.None? &&
      n.ctx.victoryCondition == m.ctx.victoryCondition && n.ctx.isPaused == m.ctx.isPaused
  {
  }

  /** RETRY keeps the whole context, the error included; only the world is
      rebuilt. */
  lemma RetryKeepsContext(m: Game)
    requires m.phase == Errored
    ensures Step(m, Retry) == Game(Initializing, m.ctx, Some([]))
  {
  }

  /** PAUSE and RESUME in a settled `running` only set `isPaused`. */
  lemma PauseOnlyToggles(m: Game)
    requires m.phase == Running && Settled(m)
    ensures Step(m, Pause) == m.(ctx := m.ctx.(isPaused := true))
    ensures Step(m, Resume) == m.(ctx := m.ctx.(isPaused := false))
  {
  }

  /** SUBMIT_ORDER is accepted exactly in `awaitingCommand` and `running`,
      stores the order and enters `processingOrder`. */
  lemma SubmitStoresOrder(m: Game, o: Order)
    ensures m.phase == AwaitingCommand || m.phase == Running ==>
      Step(m, SubmitOrder(o)) == m.(phase := ProcessingOrder, ctx := m.ctx.(currentOrder := Some(o)))
    ensures !(m.phase == AwaitingCommand || m.phase == Running) ==> Step(m, SubmitOrder(o)) == m
  {
  }

  /** ERROR is accepted exactly in `initializing` and `running`. */
  lemma ErrorAcceptedOnlyThere(m: Game, e: string)
    ensures (m.phase == Initializing || m.phase == Running) ==>
      var n := Step(m, ErrorEvent(e));
      n.phase == Errored && n.ctx.error == Some(e) && n.ctx.logs == m.ctx.logs + [ErrorLine(e)]
    ensures !(m.phase == Initializing || m.phase == Running) ==> Step(m, ErrorEvent(e)) == m
  {
  }

  /** An invalid order goes back to `awaitingCommand` but stays stored. */
  lemma InvalidOrderKept(m: Game)
    requires m.phase == ProcessingOrder
    ensures Step(m, OrderInvalid) == m.(phase := AwaitingCommand)
  {
  }

  /** The delay moves on only for a move or an attack; any other order
      waits in `executingOrder` for ORDER_COMPLETE or ORDER_FAILED. */
  lemma DelayWaitsForOtherOrders(m: Game)
    requires m.phase == ExecutingOrder
    requires m.ctx.currentOrder.None? || (m.ctx.currentOrder.value.action != Move && m.ctx.currentOrder.value.action != Attack)
    ensures Step(m, ExecutionDelay) == m
  {
  }

  /** `victory` and `defeat` are final. */
  lemma FinalAbsorbs(m: Game, ev: GameEvent)
    requires m.phase == Won || m.phase == Lost
    ensures Step(m, ev) == m
  {
  }

  /** `executeMove` moves a found unit to the order's destination and
      changes no other entity. */
  lemma MoveEffectMoves(es: seq<Entity>, o: Order, i: nat)
    requires o.action == Move && Truthy(o.destination)
    requires FindNamed(es, o.unit) == Some(i) && es[i].UnitEntity?
    ensures var r := MoveEffect(es, o);
      r[i].UnitEntity? && r[i].unit.isMoving && r[i].unit.state == Moving &&
      r[i].unit.destination == o.destination &&
      forall k :: 0 <= k < |es| && k != i ==> r[k] == es[k]
  {
  }

  /** Unlike order execution in the tactical logic, `executeMove` looks an
      empty target name up: an attack on "" engages an entity named "". */
  lemma EmptyTargetLookedUp(es: seq<Entity>, o: Order, i: nat, j: nat)
    requires o.action == Attack && o.target == Some("")
    requires FindNamed(es, o.unit) == Some(i) && FindNamed(es, "") == Some(j)
    ensures MoveEffect(es, o) == EngageAt(es, i, j)
  {
  }

  /** The END_TURN log names exactly the moving units after the morale pass. */
  lemma TurnLogNamesMovers(n: int, es: seq<Entity>, name: string)
    requires exists k :: 0 <= k < |es| && es[k].UnitEntity? && es[k].unit.isMoving && es[k].unit.name == name
    ensures InMovement(MovingNames(es)) in TurnEffectLines(n, es) && name in MovingNames(es)
  {
  }
}
