/** Properties of the game-loop transition table: the tick pipeline, the
    routing of events between the states, the guards, reset and error
    handling, and a few runs of several events. */
module GameLoopLemmas {
  import opened Common
  import opened Orders
  import opened GameLoop

  // ---------------------------------------------------------------------------
  // The settled invariant

  predicate GuardsClear(m: Machine)
  {
    !VictoryAchieved(m.hasWorld, m.ctx) && !DefeatConditions(m.hasWorld) && !MissionTimeExpired(m.ctx)
  }

  /** Between events a machine in `running` or `paused` has no eventless
      transition left to take. */
  predicate Settled(m: Machine)
  {
    (m.state.Running? || m.state == Paused) ==> GuardsClear(m)
  }

  /** The eventless transitions only append the final log lines and may end
      the game; a settled running machine is left as it is. */
  lemma SettleFacts(x: Machine)
    ensures Settle(x).hasWorld == x.hasWorld
    ensures Settle(x).ctx == x.ctx.(logs := Settle(x).ctx.logs)
    ensures Settle(x).state == x.state || Settle(x).state == Victory || Settle(x).state == Defeat
    ensures Settle(x).state.Running? ==> Settle(x) == x && GuardsClear(x)
    ensures !x.state.Running? || GuardsClear(x) ==> Settle(x) == x
    ensures Settle(x).state == Victory && x.state != Victory ==> VictoryAchieved(x.hasWorld, x.ctx)
  {
  }

  lemma InitialSettled(input: LoopInput, now: int)
    ensures Settled(Initial(input, now))
    ensures Initial(input, now).state == Idle && !Initial(input, now).hasWorld
  {
  }

  /** The guards read only the world flag, the turn count, the mission
      timer and the victory configuration. */
  predicate SameGuards(a: Machine, b: Machine)
  {
    a.hasWorld == b.hasWorld && a.ctx.turnCount == b.ctx.turnCount && a.ctx.missionTimer == b.ctx.missionTimer &&
    a.ctx.victoryCondition == b.ctx.victoryCondition && a.ctx.missionTimeLimit == b.ctx.missionTimeLimit
  }

  /** Settling a machine that is paused only when `m` was running or paused,
      with the same guard inputs, gives a settled machine. */
  lemma SettleSettles(m: Machine, x: Machine)
    requires Settled(m)
    requires x.state == Paused ==> (m.state.Running? || m.state == Paused) && SameGuards(m, x)
    ensures Settled(Settle(x))
  {
    SettleFacts(x);
  }

  /** Every event keeps a settled machine settled. */
  lemma StepKeepsSettled(m: Machine, ev: Event)
    requires Settled(m)
    ensures Settled(Step(m, ev))
  {
    match ev
    case StartGame(clock) => SettleSettles(m, if m.state == Idle || m.state == Error then Start(m, clock) else m);
    case Tick(timestamp, clock) =>
      SettleSettles(m, if m.state == Running(RealTime) then TickStep(m, Timer(timestamp), clock) else m);
    case SubmitOrder(o) =>
      SettleSettles(m,
        if m.state.Running? then m.(ctx := AddOrder(m.ctx, o))
        else if m.state == Paused then m.(ctx := Log(AddOrder(m.ctx, o), OrderQueuedWhilePaused))
        else m);
    case PauseGame => SettleSettles(m, if m.state.Running? then EnterPaused(m) else m);
    case ResumeGame => SettleSettles(m, if m.state == Paused then EnterTurnBased(m.(ctx := Log(m.ctx, GameResumed))) else m);
    case EndTurn(clock) =>
      SettleSettles(m,
        if m.state == Running(TurnBased) then TickStep(m.(ctx := AdvanceTurn(m.ctx)), Manual, clock)
        else if m.state == Running(RealTime) then m.(ctx := AdvanceTurn(m.ctx))
        else m);
    case AdvanceTick(clock) => SettleSettles(m, if m.state == Running(TurnBased) then TickStep(m, Manual, clock) else m);
    case SetRealTime(enabled) =>
      SettleSettles(m,
        if !m.state.Running? then m
        else
          var n := m.(ctx := SetRealTimeMode(m.ctx, enabled));
          if enabled then EnterRealTime(n) else EnterTurnBased(n));
    case ChangeTickSpeed(d) => SettleSettles(m, if m.state.Running? then m.(ctx := SetTickSpeed(m.ctx, d)) else m);
    case MissionComplete => SettleSettles(m, if m.state.Running? then EnterVictory(m.(ctx := Log(m.ctx, MissionCompleted))) else m);
    case MissionFailed => SettleSettles(m, if m.state.Running? then EnterDefeat(m.(ctx := Log(m.ctx, MissionFailedLine))) else m);
    case ReportError(e) =>
      SettleSettles(m, if m.state == Initializing || m.state.Running? then EnterError(m.(ctx := HandleError(m.ctx, e))) else m);
    case ResetGame =>
      SettleSettles(m, if m.state == Idle || m.state == Paused || m.state == Error then Cleared(m) else m);
    case DelayElapsed =>
      SettleSettles(m,
        if m.state == Initializing then EnterTurnBased(m.(ctx := Log(m.ctx, GameStarted)))
        else if m.state == Running(ProcessingTick) then
          (if m.ctx.isRealTime then EnterRealTime(m) else EnterTurnBased(m))
        else m);
  }

  // ---------------------------------------------------------------------------
  // The tick pipeline

  /** A tick advances the tick counter and the mission timer by exactly one
      and changes neither the turn count nor the configuration. */
  lemma TickCounters(m: Machine, src: TickSource, clock: Clock)
    ensures TickStep(m, src, clock).ctx.currentTick == m.ctx.currentTick + 1
    ensures TickStep(m, src, clock).ctx.missionTimer == m.ctx.missionTimer + 1
    ensures TickStep(m, src, clock).ctx.turnCount == m.ctx.turnCount
    ensures TickStep(m, src, clock).ctx.isRealTime == m.ctx.isRealTime
    ensures TickStep(m, src, clock).ctx.tickDuration == m.ctx.tickDuration
    ensures TickStep(m, src, clock).ctx.victoryCondition == m.ctx.victoryCondition
    ensures TickStep(m, src, clock).ctx.missionTimeLimit == m.ctx.missionTimeLimit
  {
  }

  /** `processTick` keeps at most the last 50 lines and appends the tick
      line, so the log has at most 51 lines right after it. */
  lemma TickLogWindow(c: LoopContext, src: TickSource, now: int)
    ensures |ProcessTick(c, src, now).logs| == MinInt(|c.logs|, 50) + 1 <= 51
    ensures ProcessTick(c, src, now).logs[..|ProcessTick(c, src, now).logs| - 1] == c.logs[|c.logs| - MinInt(|c.logs|, 50)..]
    ensures ProcessTick(c, src, now).logs[|ProcessTick(c, src, now).logs| - 1] == TickAdvanced(c.currentTick + 1, src, c.missionTimer + 1, c.tickDuration)
  {
    var r := ProcessTick(c, src, now).logs;
    var k := KeepLast(c.logs, 50);
    assert r == k + [TickAdvanced(c.currentTick + 1, src, c.missionTimer + 1, c.tickDuration)];
    assert r[..|r| - 1] == k;
  }

  /** A manual tick is logged as a manual advance; a timer tick prints the
      whole seconds of mission time elapsed, rounded down. */
  lemma TickLineText(tick: int, src: TickSource, ticks: int, duration: int)
    ensures src.Manual? ==> LineText(TickAdvanced(tick, src, ticks, duration)) == "[TICK " + IntToString(tick) + "] " + "Manual advance"
    ensures src.Timer? ==> exists s: int ::
      s * 1000 <= ticks * duration < s * 1000 + 1000 &&
      LineText(TickAdvanced(tick, src, ticks, duration)) == "[TICK " + IntToString(tick) + "] " + ElapsedText(s)
  {
    if src.Timer? {
      var s := MissionSeconds(ticks, duration);
      MissionSecondsFloor(ticks, duration);
      assert LineText(TickAdvanced(tick, src, ticks, duration)) == "[TICK " + IntToString(tick) + "] " + ElapsedText(s);
    }
  }

  /** Within one tick the pending orders join the active ones, and all of
      them are archived: both queues end empty, the completed list grows by
      the active orders followed by the pending ones, in submission order,
      and no order is lost or added. */
  lemma TickOrders(m: Machine, src: TickSource, clock: Clock)
    ensures TickStep(m, src, clock).ctx.pendingOrders == []
    ensures TickStep(m, src, clock).ctx.activeOrders == []
    ensures TickStep(m, src, clock).ctx.completedOrders ==
            m.ctx.completedOrders + m.ctx.activeOrders + m.ctx.pendingOrders
    ensures multiset(TickStep(m, src, clock).ctx.completedOrders) ==
            multiset(m.ctx.completedOrders) + multiset(m.ctx.activeOrders) + multiset(m.ctx.pendingOrders)
  {
    var c1 := ProcessOrders(ProcessTick(m.ctx, src, clock.now));
    assert c1.activeOrders == m.ctx.activeOrders + m.ctx.pendingOrders;
    assert m.ctx.completedOrders + (m.ctx.activeOrders + m.ctx.pendingOrders) ==
           m.ctx.completedOrders + m.ctx.activeOrders + m.ctx.pendingOrders;
  }

  /** With a world the tick keeps the last 10 reports and appends a new one,
      so there are at most 11; without a world the reports are untouched. */
  lemma TickSitreps(m: Machine, src: TickSource, clock: Clock)
    ensures m.hasWorld ==>
      |TickStep(m, src, clock).ctx.sitreps| == MinInt(|m.ctx.sitreps|, 10) + 1 <= 11 &&
      TickStep(m, src, clock).ctx.sitreps[|TickStep(m, src, clock).ctx.sitreps| - 1] == SitrepLine(clock.timeOfDay) &&
      TickStep(m, src, clock).ctx.sitreps[..|TickStep(m, src, clock).ctx.sitreps| - 1] ==
        m.ctx.sitreps[|m.ctx.sitreps| - MinInt(|m.ctx.sitreps|, 10)..]
    ensures !m.hasWorld ==> TickStep(m, src, clock).ctx.sitreps == m.ctx.sitreps
  {
    if m.hasWorld {
      var r := TickStep(m, src, clock).ctx.sitreps;
      var k := KeepLast(m.ctx.sitreps, 10);
      assert r == k + [SitrepLine(clock.timeOfDay)];
      assert r[..|r| - 1] == k;
    }
  }

  /** A tick writes between two and four lines after the kept window: the
      tick line, one for new orders, one for executed orders, and the report
      line, which comes last. */
  lemma TickLogs(m: Machine, src: TickSource, clock: Clock)
    ensures var n := |TickStep(m, src, clock).ctx.logs|;
      n == MinInt(|m.ctx.logs|, 50) + 2 + (if |m.ctx.pendingOrders| > 0 then 1 else 0) +
           (if |m.ctx.activeOrders| + |m.ctx.pendingOrders| > 0 then 1 else 0) &&
      n <= 54 &&
      TickStep(m, src, clock).ctx.logs[n - 1] == SitrepGenerated(m.ctx.currentTick + 1)
  {
    TickLogWindow(m.ctx, src, clock.now);
  }

  // ---------------------------------------------------------------------------
  // Event routing

  /** ADVANCE_TICK is handled only in `turnBased`, where it runs one tick. */
  lemma AdvanceTickRouting(m: Machine, clock: Clock)
    requires Settled(m)
    ensures m.state != Running(TurnBased) ==> Step(m, AdvanceTick(clock)) == m
    ensures m.state == Running(TurnBased) ==>
      Step(m, AdvanceTick(clock)).state in {Running(ProcessingTick), Victory, Defeat} &&
      Step(m, AdvanceTick(clock)).ctx.currentTick == m.ctx.currentTick + 1 &&
      Step(m, AdvanceTick(clock)).ctx.turnCount == m.ctx.turnCount
  {
    if m.state == Running(TurnBased) {
      var t := TickStep(m, Manual, clock);
      TickCounters(m, Manual, clock);
      SettleFacts(t);
    } else {
      SettleFacts(m);
    }
  }

  /** TICK is handled only in `realTime`, where it runs one tick. */
  lemma TickRouting(m: Machine, timestamp: int, clock: Clock)
    requires Settled(m)
    ensures m.state != Running(RealTime) ==> Step(m, Tick(timestamp, clock)) == m
    ensures m.state == Running(RealTime) ==>
      Step(m, Tick(timestamp, clock)).state in {Running(ProcessingTick), Victory, Defeat} &&
      Step(m, Tick(timestamp, clock)).ctx.currentTick == m.ctx.currentTick + 1 &&
      Step(m, Tick(timestamp, clock)).ctx.lastTickTime == timestamp
  {
    if m.state == Running(RealTime) {
      var t := TickStep(m, Timer(timestamp), clock);
      TickCounters(m, Timer(timestamp), clock);
      SettleFacts(t);
    } else {
      SettleFacts(m);
    }
  }

  /** END_TURN in `turnBased` advances the turn and runs a tick. */
  lemma EndTurnTurnBased(m: Machine, clock: Clock)
    requires Settled(m) && m.state == Running(TurnBased)
    ensures Step(m, EndTurn(clock)).state in {Running(ProcessingTick), Victory, Defeat}
    ensures Step(m, EndTurn(clock)).ctx.turnCount == m.ctx.turnCount + 1
    ensures Step(m, EndTurn(clock)).ctx.currentTick == m.ctx.currentTick + 1
    ensures Step(m, EndTurn(clock)).ctx.missionTimer == m.ctx.missionTimer + 1
  {
    var n := m.(ctx := AdvanceTurn(m.ctx));
    TickCounters(n, Manual, clock);
    SettleFacts(TickStep(n, Manual, clock));
  }

  /** END_TURN in `realTime` only advances the turn: no tick runs, the
      queues are untouched, and the machine stays in `realTime` unless the
      new turn count wins a survival game. */
  lemma EndTurnRealTime(m: Machine, clock: Clock)
    requires Settled(m) && m.state == Running(RealTime)
    ensures Step(m, EndTurn(clock)).ctx.turnCount == m.ctx.turnCount + 1
    ensures Step(m, EndTurn(clock)).ctx.currentTick == m.ctx.currentTick
    ensures Step(m, EndTurn(clock)).ctx.missionTimer == m.ctx.missionTimer
    ensures Step(m, EndTurn(clock)).ctx.pendingOrders == m.ctx.pendingOrders
    ensures Step(m, EndTurn(clock)).ctx.activeOrders == m.ctx.activeOrders
    ensures Step(m, EndTurn(clock)).state == Running(RealTime) ||
            (Step(m, EndTurn(clock)).state == Victory && m.ctx.victoryCondition == Survival)
  {
    SettleFacts(m.(ctx := AdvanceTurn(m.ctx)));
  }

  /** SET_REAL_TIME, in any child of `running`, stores the flag and enters
      the matching mode. */
  lemma SetRealTimeEnters(m: Machine, enabled: bool)
    requires Settled(m) && m.state.Running?
    ensures Step(m, SetRealTime(enabled)).ctx.isRealTime == enabled
    ensures Step(m, SetRealTime(enabled)).state == Running(if enabled then RealTime else TurnBased)
  {
    var n := m.(ctx := SetRealTimeMode(m.ctx, enabled));
    SettleFacts(if enabled then EnterRealTime(n) else EnterTurnBased(n));
  }

  /** When the tick delay runs out, `processingTick` returns to `realTime`
      exactly when the real-time flag is set, and to `turnBased` otherwise. */
  lemma ProcessingTickReturns(m: Machine)
    requires Settled(m) && m.state == Running(ProcessingTick)
    ensures Step(m, DelayElapsed).state == Running(RealTime) <==> m.ctx.isRealTime
    ensures Step(m, DelayElapsed).state == Running(TurnBased) <==> !m.ctx.isRealTime
  {
    SettleFacts(if m.ctx.isRealTime then EnterRealTime(m) else EnterTurnBased(m));
  }

  /** PAUSE_GAME is accepted only in `running`. */
  lemma PauseOnlyFromRunning(m: Machine)
    requires Settled(m)
    ensures m.state.Running? ==> Step(m, PauseGame).state == Paused
    ensures !m.state.Running? ==> Step(m, PauseGame) == m
  {
    SettleFacts(m);
  }

  /** While paused an order is still queued, after its receipt line and
      before the queued line. */
  lemma SubmitWhilePaused(m: Machine, o: Order)
    requires m.state == Paused
    ensures Step(m, SubmitOrder(o)).state == Paused
    ensures Step(m, SubmitOrder(o)).ctx.pendingOrders == m.ctx.pendingOrders + [o]
    ensures Step(m, SubmitOrder(o)).ctx.logs ==
            m.ctx.logs + [OrderReceived(o.action, o.unit), OrderQueuedWhilePaused]
  {
  }

  /** SUBMIT_ORDER is accepted in `running` and `paused` and ignored elsewhere. */
  lemma SubmitRouting(m: Machine, o: Order)
    requires Settled(m)
    ensures m.state.Running? || m.state == Paused ==>
      Step(m, SubmitOrder(o)).state == m.state && Step(m, SubmitOrder(o)).ctx.pendingOrders == m.ctx.pendingOrders + [o]
    ensures m.state.Running? ==> Step(m, SubmitOrder(o)) == m.(ctx := AddOrder(m.ctx, o))
    ensures !(m.state.Running? || m.state == Paused) ==> Step(m, SubmitOrder(o)) == m
  {
    if m.state.Running? {
      SettleFacts(m.(ctx := AddOrder(m.ctx, o)));
    }
  }

  /** RESUME_GAME re-enters `running` at `turnBased`, even in real-time mode. */
  lemma ResumeToTurnBased(m: Machine)
    requires Settled(m) && m.state == Paused
    ensures Step(m, ResumeGame).state == Running(TurnBased)
    ensures Step(m, ResumeGame).ctx.isRealTime == m.ctx.isRealTime
  {
    SettleFacts(EnterTurnBased(m.(ctx := Log(m.ctx, GameResumed))));
  }

  /** Victory and defeat are final: no event changes them. */
  lemma FinalStatesAbsorb(m: Machine, ev: Event)
    requires m.state == Victory || m.state == Defeat
    ensures Step(m, ev) == m
  {
  }

  // ---------------------------------------------------------------------------
  // Guards

  /** The victory guard in full: it needs a world, elimination and occupation
      never win, survival wins from turn 20, and a time limit wins while the
      timer is below a non-zero limit. */
  lemma VictoryGuard(hasWorld: bool, c: LoopContext)
    ensures VictoryAchieved(hasWorld, c) <==>
      hasWorld &&
      ((c.victoryCondition == Survival && c.turnCount >= 20) ||
       (c.victoryCondition == TimeLimit && c.missionTimeLimit.Some? && c.missionTimeLimit.value != 0 &&
        c.missionTimer < c.missionTimeLimit.value))
    ensures !DefeatConditions(hasWorld)
  {
  }

  /** The expiry guard does not look at the world: a machine without one
      still loses when its timer reaches the limit. */
  lemma ExpiryWithoutWorld(m: Machine)
    requires m.state.Running? && !m.hasWorld
    requires m.ctx.missionTimeLimit == Some(m.ctx.missionTimer) && m.ctx.missionTimer != 0
    ensures Settle(m).state == Defeat
  {
  }

  /** With a time limit the game is won the moment it starts running: the
      timer is 0 and below any positive limit. */
  lemma TimeLimitWonAtStart(m: Machine, clock: Clock, limit: int)
    requires m.state == Idle || m.state == Error
    requires m.ctx.victoryCondition == TimeLimit && m.ctx.missionTimeLimit == Some(limit) && limit > 0
    ensures Step(Step(m, StartGame(clock)), DelayElapsed).state == Victory
  {
    var s := Step(m, StartGame(clock));
    assert s == Start(m, clock);
    assert s.ctx.missionTimer == 0 && s.hasWorld;
  }

  /** In a survival game the twentieth END_TURN in `realTime` wins. */
  lemma SurvivalWonOnTwentiethTurn(m: Machine, clock: Clock)
    requires Settled(m) && m.state == Running(RealTime) && m.hasWorld
    requires m.ctx.victoryCondition == Survival && m.ctx.turnCount == 19
    ensures Step(m, EndTurn(clock)).state == Victory
  {
  }

  // ---------------------------------------------------------------------------
  // Reset, errors and restart

  /** RESET_GAME in `idle`, `paused` or `error` goes to `idle` with no world,
      zero counters, empty queues and reports, no error and a single log line. */
  lemma ResetAccepted(m: Machine)
    requires m.state == Idle || m.state == Paused || m.state == Error
    ensures var r := Step(m, ResetGame);
      r.state == Idle && !r.hasWorld &&
      r.ctx.currentTick == 0 && r.ctx.turnCount == 0 && r.ctx.missionTimer == 0 &&
      r.ctx.pendingOrders == [] && r.ctx.activeOrders == [] && r.ctx.completedOrders == [] &&
      r.ctx.sitreps == [] && r.ctx.error == None && r.ctx.logs == [GameReset]
  {
  }

  /** RESET_GAME is ignored in `initializing`, `running` and the final states. */
  lemma ResetIgnoredElsewhere(m: Machine)
    requires Settled(m) && !(m.state == Idle || m.state == Paused || m.state == Error)
    ensures Step(m, ResetGame) == m
  {
    SettleFacts(m);
  }

  /** ERROR is accepted only in `initializing` and `running`; it records the
      message and enters `error`. */
  lemma ErrorRouting(m: Machine, e: string)
    requires Settled(m)
    ensures m.state == Initializing || m.state.Running? ==>
      Step(m, ReportError(e)).state == Error && Step(m, ReportError(e)).ctx.error == Some(e) &&
      Step(m, ReportError(e)).ctx.logs == m.ctx.logs + [ErrorReceived(e), ErrorEncountered(Some(e))]
    ensures !(m.state == Initializing || m.state.Running?) ==> Step(m, ReportError(e)) == m
  {
    SettleFacts(m);
  }

  /** START_GAME from `error` goes back to `initializing` with a fresh empty
      world and a cleared context. */
  lemma StartFromError(m: Machine, clock: Clock)
    requires m.state == Error
    ensures var r := Step(m, StartGame(clock));
      r.state == Initializing && r.hasWorld &&
      r.ctx.currentTick == 0 && r.ctx.turnCount == 0 && r.ctx.missionTimer == 0 &&
      r.ctx.pendingOrders == [] && r.ctx.activeOrders == [] && r.ctx.completedOrders == [] &&
      r.ctx.sitreps == [] && r.ctx.error == None && r.ctx.logs == [GameInitialized] &&
      r.ctx.lastTickTime == clock.now
  {
  }

  // ---------------------------------------------------------------------------
  // Runs of several events

  /** Orders submitted in `turnBased` are archived in submission order by the
      next manual tick. */
  lemma OrdersArchivedInOrder(m: Machine, o1: Order, o2: Order, clock: Clock)
    requires Settled(m) && m.state == Running(TurnBased)
    ensures var r := Step(Step(Step(m, SubmitOrder(o1)), SubmitOrder(o2)), AdvanceTick(clock));
      r.ctx.completedOrders == m.ctx.completedOrders + m.ctx.activeOrders + m.ctx.pendingOrders + [o1, o2] &&
      r.ctx.pendingOrders == [] && r.ctx.activeOrders == []
  {
    var a := Step(m, SubmitOrder(o1));
    SubmitRouting(m, o1);
    var b := Step(a, SubmitOrder(o2));
    assert Settled(a);
    SubmitRouting(a, o2);
    assert b.state == Running(TurnBased) && b.ctx.pendingOrders == m.ctx.pendingOrders + [o1, o2];
    assert b.ctx.activeOrders == m.ctx.activeOrders && b.ctx.completedOrders == m.ctx.completedOrders;
    var t := TickStep(b, Manual, clock);
    assert Step(b, AdvanceTick(clock)) == Settle(t);
    TickOrders(b, Manual, clock);
    SettleFacts(t);
    assert Settle(t).ctx.completedOrders == t.ctx.completedOrders;
    assert m.ctx.completedOrders + m.ctx.activeOrders + (m.ctx.pendingOrders + [o1, o2]) ==
           m.ctx.completedOrders + m.ctx.activeOrders + m.ctx.pendingOrders + [o1, o2];
  }

  /** A fresh game with the default input, once started and past its
      start-up delay, is in `turnBased` with a world and nothing counted. */
  lemma DefaultGameStarts(now: int, c1: Clock)
    ensures var m := Step(Step(Initial(LoopInput(None, None, None, None), now), StartGame(c1)), DelayElapsed);
      m.state == Running(TurnBased) && m.hasWorld && !m.ctx.isRealTime &&
      m.ctx.currentTick == 0 && m.ctx.missionTimer == 0 && m.ctx.turnCount == 0 && m.ctx.sitreps == [] &&
      m.ctx.victoryCondition == Elimination && m.ctx.missionTimeLimit == None
  {
    var m0 := Initial(LoopInput(None, None, None, None), now);
    var m1 := Step(m0, StartGame(c1));
    assert m1 == Start(m0, c1);
    SettleFacts(EnterTurnBased(m1.(ctx := Log(m1.ctx, GameStarted))));
  }

  /** A manual tick of an elimination game with no time limit, followed by
      the processing delay, returns to `turnBased` one tick later with one
      more report. */
  lemma ManualTickReturns(m: Machine, c2: Clock)
    requires m.state == Running(TurnBased) && m.hasWorld && !m.ctx.isRealTime
    requires m.ctx.victoryCondition == Elimination && m.ctx.missionTimeLimit == None
    ensures var r := Step(Step(m, AdvanceTick(c2)), DelayElapsed);
      r.state == Running(TurnBased) &&
      r.ctx.currentTick == m.ctx.currentTick + 1 && r.ctx.missionTimer == m.ctx.missionTimer + 1 &&
      r.ctx.turnCount == m.ctx.turnCount &&
      r.ctx.sitreps == KeepLast(m.ctx.sitreps, 10) + [SitrepLine(c2.timeOfDay)]
  {
    var t := TickStep(m, Manual, c2);
    TickCounters(m, Manual, c2);
    assert Step(m, AdvanceTick(c2)) == t by {
      SettleFacts(t);
    }
    SettleFacts(EnterTurnBased(t));
  }

  /** A fresh turn-based elimination game, started and advanced by hand
      once: one tick, one report, back in `turnBased`. */
  lemma FirstManualTick(now: int, c1: Clock, c2: Clock)
    ensures var r := Step(Step(Step(Step(Initial(LoopInput(None, None, None, None), now), StartGame(c1)), DelayElapsed), AdvanceTick(c2)), DelayElapsed);
      r.state == Running(TurnBased) &&
      r.ctx.currentTick == 1 && r.ctx.missionTimer == 1 && r.ctx.turnCount == 0 &&
      r.ctx.sitreps == [SitrepLine(c2.timeOfDay)]
  {
    var m := Step(Step(Initial(LoopInput(None, None, None, None), now), StartGame(c1)), DelayElapsed);
    DefaultGameStarts(now, c1);
    ManualTickReturns(m, c2);
  }
}
