/** Properties of the three systems and the unit actions of the entity world. */
module EcsLemmas {
  import opened Common
  import opened Orders
  import opened Ecs

  // ---------------------------------------------------------------------------
  // Movement

  lemma MovementKeepsTerrain(es: seq<Entity>)
    ensures TerrainsAgree(es, MovementStep(es))
  {
    var r := MovementStep(es);
    forall k | 0 <= k < |es|
      ensures r[k].UnitEntity? == es[k].UnitEntity? && (es[k].TerrainEntity? ==> es[k] == r[k])
    {
      assert r[k] == MoveEntity(es, es[k]);
    }
  }

  /** A unit changes only by hopping along an edge of the terrain graph: it was
      moving towards a non-empty destination listed as a connection of the
      first terrain node whose id is its zone, and it arrives there idle and
      stopped. */
  lemma MovementOnlyAlongEdges(es: seq<Entity>, k: nat)
    requires k < |es| && es[k].UnitEntity?
    ensures MovementStep(es)[k].UnitEntity?
    ensures var u := es[k].unit; var r := MovementStep(es)[k].unit; var t := FindTerrain(es, u.zone);
      r == u ||
      (u.isMoving && u.destination.Some? && u.destination.value != "" &&
       t.Some? && u.destination.value in t.value.connections &&
       r == u.(zone := u.destination.value, isMoving := false, state := Idle, destination := None))
  {
    assert MovementStep(es)[k] == MoveEntity(es, es[k]);
  }

  /** A unit whose destination is not reachable in one hop from the first
      terrain node of its zone stays exactly as it was, still moving. */
  lemma MovementBlockedWithoutEdge(es: seq<Entity>, k: nat)
    requires k < |es| && es[k].UnitEntity? && es[k].unit.isMoving
    requires var u := es[k].unit; var t := FindTerrain(es, u.zone);
      u.destination.None? || u.destination.value == "" || t.None? || u.destination.value !in t.value.connections
    ensures MovementStep(es)[k] == es[k]
    ensures MovementStep(es)[k].unit.isMoving
  {
    assert MovementStep(es)[k] == MoveEntity(es, es[k]);
  }

  /** Conversely, a moving unit with a non-empty destination listed by the
      first terrain node of its zone arrives there, idle, stopped and with no
      destination. */
  lemma MovementAlongEdge(es: seq<Entity>, k: nat)
    requires k < |es| && es[k].UnitEntity? && es[k].unit.isMoving
    requires var u := es[k].unit; var t := FindTerrain(es, u.zone);
      u.destination.Some? && u.destination.value != "" && t.Some? && u.destination.value in t.value.connections
    ensures var u := es[k].unit;
      MovementStep(es)[k] == UnitEntity(u.(zone := u.destination.value, isMoving := false, state := Idle, destination := None))
  {
    assert MovementStep(es)[k] == MoveEntity(es, es[k]);
  }

  /** Units that are not moving are untouched by the movement system. */
  lemma MovementIgnoresStationary(es: seq<Entity>, k: nat)
    requires k < |es| && es[k].UnitEntity? && !es[k].unit.isMoving
    ensures MovementStep(es)[k] == es[k]
  {
    assert MovementStep(es)[k] == MoveEntity(es, es[k]);
  }

  /** A second pass moves nothing: every unit moves at most one hop per tick. */
  lemma MovementIdempotent(es: seq<Entity>)
    ensures MovementStep(MovementStep(es)) == MovementStep(es)
  {
    var r := MovementStep(es);
    MovementKeepsTerrain(es);
    forall k | 0 <= k < |r|
      ensures MovementStep(r)[k] == r[k]
    {
      assert MovementStep(r)[k] == MoveEntity(r, r[k]);
      assert r[k] == MoveEntity(es, es[k]);
      if es[k].UnitEntity? {
        FindTerrainAgree(es, r, es[k].unit.zone);
      }
    }
  }

  lemma MovementKeepsValid(es: seq<Entity>)
    requires ValidWorld(es)
    ensures ValidWorld(MovementStep(es))
  {
    var r := MovementStep(es);
    forall k | 0 <= k < |r|
      ensures ValidEntity(r[k])
    {
      assert r[k] == MoveEntity(es, es[k]);
      assert ValidEntity(es[k]);
    }
  }

  // ---------------------------------------------------------------------------
  // Morale

  /** The per-unit rules of the morale system, stated as outcomes: engaged units
      lose 5 per second (floored at 0), idle units with morale at least 20 gain 2
      per second (capped at 100), any other unit keeps its morale, and a unit
      that is not already retreating retreats when its morale is below 20. */
  lemma MoraleRules(u: Unit, delta: real)
    requires delta >= 0.0
    ensures var r := MoraleUnit(u, delta);
      (u.state == Engaged ==> r.morale == MaxReal(0.0, u.morale - 5.0 * delta)) &&
      (u.state == Idle && u.morale >= 20.0 ==> r.morale == MinReal(100.0, u.morale + 2.0 * delta) && r.state == Idle) &&
      (u.state != Engaged && !(u.state == Idle && u.morale >= 20.0) ==> r.morale == u.morale) &&
      (r.morale < 20.0 ==> r.state == Retreating) &&
      (r.state != u.state ==> r.state == Retreating) &&
      r == u.(morale := r.morale, state := r.state)
  {
  }

  lemma MoraleKeepsValid(es: seq<Entity>, delta: real)
    requires delta >= 0.0 && ValidWorld(es)
    ensures ValidWorld(MoraleStep(es, delta))
    ensures TerrainsAgree(es, MoraleStep(es, delta))
  {
    var r := MoraleStep(es, delta);
    forall k | 0 <= k < |r|
      ensures ValidEntity(r[k]) && r[k].UnitEntity? == es[k].UnitEntity? && (es[k].TerrainEntity? ==> es[k] == r[k])
    {
      assert r[k] == MoraleEntity(es[k], delta);
      assert ValidEntity(es[k]);
    }
  }

  /** After a morale pass every unit below 20 is retreating. */
  lemma MoraleLowRetreats(es: seq<Entity>, delta: real, k: nat)
    requires delta >= 0.0 && k < |es| && es[k].UnitEntity?
    ensures MoraleStep(es, delta)[k].UnitEntity?
    ensures MoraleStep(es, delta)[k].unit.morale < 20.0 ==> MoraleStep(es, delta)[k].unit.state == Retreating
  {
    assert MoraleStep(es, delta)[k] == MoraleEntity(es[k], delta);
    MoraleRules(es[k].unit, delta);
  }

  // ---------------------------------------------------------------------------
  // Combat

  /** Morale and ammunition never rise during combat, and all gauges stay valid. */
  predicate NoGain(a: seq<Entity>, b: seq<Entity>)
  {
    |a| == |b| &&
    forall k :: 0 <= k < |a| && a[k].UnitEntity? && b[k].UnitEntity? ==>
      b[k].unit.morale <= a[k].unit.morale && b[k].unit.ammunition <= a[k].unit.ammunition
  }

  lemma CoverModifierBounds(es: seq<Entity>, zone: string)
    requires ValidWorld(es)
    ensures 0.0 <= CoverModifier(es, zone) <= 1.0
  {
    match FindTerrain(es, zone)
    case Some(t) =>
      var i :| 0 <= i < |es| && es[i] == TerrainEntity(t);
      assert ValidEntity(es[i]);
    case None =>
  }

  lemma DamageNonNegative(es: seq<Entity>, attacker: Unit, delta: real)
    requires ValidWorld(es) && ValidUnit(attacker) && delta >= 0.0
    ensures Damage(es, attacker, delta) >= 0.0
  {
    CoverModifierBounds(es, attacker.zone);
    var f := attacker.firepower as real;
    var c := 1.0 - CoverModifier(es, attacker.zone);
    assert f >= 0.0 && c >= 0.0;
    assert f * c >= 0.0;
    assert f * c * delta >= 0.0;
  }

  lemma StrikeKeepsValid(es: seq<Entity>, a: nat, j: nat, delta: real)
    requires a < |es| && j < |es| && es[a].UnitEntity? && IsEnemyOf(es[j], es[a].unit)
    requires delta >= 0.0 && ValidWorld(es)
    ensures ValidWorld(Strike(es, a, j, delta)) && NoGain(es, Strike(es, a, j, delta))
  {
    assert ValidEntity(es[a]) && ValidEntity(es[j]);
    DamageNonNegative(es, es[a].unit, delta);
  }

  lemma {:induction false} AttackFromKeepsValid(es: seq<Entity>, a: nat, j: nat, delta: real)
    requires a < |es| && es[a].UnitEntity? && delta >= 0.0 && ValidWorld(es)
    ensures ValidWorld(AttackFrom(es, a, j, delta)) && NoGain(es, AttackFrom(es, a, j, delta))
    decreases |es| - j
  {
    if j < |es| {
      if IsEnemyOf(es[j], es[a].unit) {
        var es1 := Strike(es, a, j, delta);
        StrikeKeepsValid(es, a, j, delta);
        AttackFromKeepsValid(es1, a, j + 1, delta);
      } else {
        AttackFromKeepsValid(es, a, j + 1, delta);
      }
    }
  }

  lemma {:induction false} CombatFromKeepsValid(es: seq<Entity>, snapshot: seq<Entity>, i: nat, delta: real)
    requires CombatFrame(snapshot, es) && delta >= 0.0 && ValidWorld(es)
    ensures ValidWorld(CombatFrom(es, snapshot, i, delta)) && NoGain(es, CombatFrom(es, snapshot, i, delta))
    decreases |es| - i
  {
    if i < |es| {
      if IsEngagedUnit(snapshot[i]) {
        var es1 := AttackFrom(es, i, 0, delta);
        AttackFromKeepsValid(es, i, 0, delta);
        CombatFromKeepsValid(es1, snapshot, i + 1, delta);
      } else {
        CombatFromKeepsValid(es, snapshot, i + 1, delta);
      }
    }
  }

  /** With a non-negative time step, combat keeps morale in [0, 100] and
      ammunition non-negative, and neither ever increases. */
  lemma CombatKeepsValid(es: seq<Entity>, delta: real)
    requires delta >= 0.0 && ValidWorld(es)
    ensures ValidWorld(CombatStep(es, delta))
    ensures NoGain(es, CombatStep(es, delta))
    ensures TerrainsAgree(es, CombatStep(es, delta))
  {
    CombatFromKeepsValid(es, es, 0, delta);
  }

  /** Only engaged units fire: a world with none is left as it is. */
  lemma {:induction false} CombatFromQuiet(es: seq<Entity>, snapshot: seq<Entity>, i: nat, delta: real)
    requires CombatFrame(snapshot, es)
    requires forall k :: 0 <= k < |snapshot| ==> !IsEngagedUnit(snapshot[k])
    ensures CombatFrom(es, snapshot, i, delta) == es
    decreases |es| - i
  {
    if i < |es| {
      CombatFromQuiet(es, snapshot, i + 1, delta);
    }
  }

  lemma CombatNeedsEngagement(es: seq<Entity>, delta: real)
    requires forall k :: 0 <= k < |es| ==> !IsEngagedUnit(es[k])
    ensures CombatStep(es, delta) == es
  {
    CombatFromQuiet(es, es, 0, delta);
  }

  /** The number of enemies of `u` at index j or later. */
  function EnemyCount(es: seq<Entity>, u: Unit, j: nat): nat
    decreases |es| - j
  {
    if j >= |es| then 0 else (if IsEnemyOf(es[j], u) then 1 else 0) + EnemyCount(es, u, j + 1)
  }

  /** The attacker's ammunition after firing on n enemies: delta per shot,
      floored at 0 after each. */
  function AmmoAfter(ammo: real, n: nat, delta: real): real
  {
    if n == 0 then ammo else MaxReal(0.0, ammo - (n as real) * delta)
  }

  /** Two attackers in the same zone and faction see the same enemies, in
      worlds that differ only where combat may change them. */
  lemma EnemyFrame(a: seq<Entity>, b: seq<Entity>, k: nat, u: Unit, v: Unit)
    requires CombatFrame(a, b) && k < |a| && u.zone == v.zone && u.faction == v.faction
    ensures IsEnemyOf(a[k], u) == IsEnemyOf(b[k], v)
  {
    if a[k].UnitEntity? {
      assert Skeleton(a[k].unit).zone == Skeleton(b[k].unit).zone;
      assert Skeleton(a[k].unit).faction == Skeleton(b[k].unit).faction;
    }
  }

  lemma {:induction false} EnemyCountFrame(a: seq<Entity>, b: seq<Entity>, u: Unit, v: Unit, j: nat)
    requires CombatFrame(a, b) && u.zone == v.zone && u.faction == v.faction
    ensures EnemyCount(a, u, j) == EnemyCount(b, v, j)
    decreases |a| - j
  {
    if j < |a| {
      EnemyFrame(a, b, j, u, v);
      EnemyCountFrame(a, b, u, v, j + 1);
    }
  }

  lemma CombatFrameTrans(a: seq<Entity>, b: seq<Entity>, c: seq<Entity>)
    requires CombatFrame(a, b) && CombatFrame(b, c)
    ensures CombatFrame(a, c)
  {
  }

  /** One more shot after n: the floors compose because delta is not negative. */
  lemma AmmoAfterStep(ammo: real, n: nat, delta: real)
    requires delta >= 0.0
    ensures AmmoAfter(MaxReal(0.0, ammo - delta), n, delta) == AmmoAfter(ammo, n + 1, delta)
    ensures n > 0 ==> AmmoAfter(MaxReal(0.0, ammo - delta), n, delta) <= MaxReal(0.0, ammo - delta)
  {
    var nd := (n as real) * delta;
    assert ((n + 1) as real) * delta == nd + delta;
    assert nd >= 0.0;
  }

  /** Attacker a firing on its enemies from index j on: its ammunition follows
      `AmmoAfter` over the number of those enemies, it retreats exactly when
      it fired and ended below 10, no other entity's ammunition or state
      changes, and entities that are not among those enemies are unchanged. */
  lemma {:induction false} AttackFromRule(es: seq<Entity>, a: nat, j: nat, delta: real)
    requires a < |es| && es[a].UnitEntity? && delta >= 0.0
    ensures var u := es[a].unit; var r := AttackFrom(es, a, j, delta); var n := EnemyCount(es, u, j);
      r[a].UnitEntity? &&
      r[a].unit.ammunition == AmmoAfter(u.ammunition, n, delta) &&
      r[a].unit.state == (if n > 0 && r[a].unit.ammunition < 10.0 then Retreating else u.state) &&
      (forall k :: 0 <= k < |es| && k != a && es[k].UnitEntity? ==>
         r[k].unit.ammunition == es[k].unit.ammunition && r[k].unit.state == es[k].unit.state) &&
      (forall k :: 0 <= k < |es| && k != a && (k < j || !IsEnemyOf(es[k], u)) ==> r[k] == es[k])
    decreases |es| - j
  {
    var u := es[a].unit;
    if j < |es| {
      if IsEnemyOf(es[j], u) {
        var es1 := Strike(es, a, j, delta);
        var u1 := es1[a].unit;
        AttackFromRule(es1, a, j + 1, delta);
        EnemyCountFrame(es1, es, u1, u, j + 1);
        AmmoAfterStep(u.ammunition, EnemyCount(es, u, j + 1), delta);
        forall k | 0 <= k < |es| && k != a
          ensures IsEnemyOf(es1[k], u1) == IsEnemyOf(es[k], u)
        {
          EnemyFrame(es1, es, k, u1, u);
        }
      } else {
        AttackFromRule(es, a, j + 1, delta);
      }
    }
  }

  /** No unit engaged at index i or later has entity k among its enemies. */
  predicate Untargeted(es: seq<Entity>, i: nat, k: nat)
    requires k < |es|
  {
    forall m :: i <= m < |es| && IsEngagedUnit(es[m]) ==> !IsEnemyOf(es[k], es[m].unit)
  }

  /** The combat pass from index i on, against the snapshot of engaged units
      taken when it began. */
  lemma {:induction false} CombatFromRule(es: seq<Entity>, snapshot: seq<Entity>, i: nat, delta: real)
    requires CombatFrame(snapshot, es) && delta >= 0.0
    requires forall k :: i <= k < |es| && es[k].UnitEntity? ==>
      es[k].unit.ammunition == snapshot[k].unit.ammunition && es[k].unit.state == snapshot[k].unit.state
    ensures var r := CombatFrom(es, snapshot, i, delta);
      (forall k :: 0 <= k < |es| && (k < i || !IsEngagedUnit(snapshot[k])) && es[k].UnitEntity? ==>
         r[k].unit.ammunition == es[k].unit.ammunition && r[k].unit.state == es[k].unit.state) &&
      (forall k :: 0 <= k < |es| && (k < i || !IsEngagedUnit(snapshot[k])) && Untargeted(snapshot, i, k) ==> r[k] == es[k]) &&
      (forall k :: i <= k < |es| && IsEngagedUnit(snapshot[k]) ==>
         var n := EnemyCount(snapshot, snapshot[k].unit, 0);
         r[k].unit.ammunition == AmmoAfter(snapshot[k].unit.ammunition, n, delta) &&
         r[k].unit.state == (if n > 0 && r[k].unit.ammunition < 10.0 then Retreating else Engaged))
    decreases |es| - i
  {
    if i < |es| {
      if IsEngagedUnit(snapshot[i]) {
        var es1 := AttackFrom(es, i, 0, delta);
        AttackFromRule(es, i, 0, delta);
        CombatFrameTrans(snapshot, es, es1);
        EnemyCountFrame(es, snapshot, es[i].unit, snapshot[i].unit, 0);
        forall k | 0 <= k < |es|
          ensures IsEnemyOf(es[k], es[i].unit) == IsEnemyOf(snapshot[k], snapshot[i].unit)
        {
          EnemyFrame(es, snapshot, k, es[i].unit, snapshot[i].unit);
        }
        CombatFromRule(es1, snapshot, i + 1, delta);
      } else {
        CombatFromRule(es, snapshot, i + 1, delta);
      }
    }
  }

  /** The combat system over any world: a unit that is not engaged keeps its
      ammunition and state, and is untouched unless it is an enemy of an
      engaged unit; an engaged unit spends delta per enemy in its zone
      (floored at 0) and retreats exactly when it fired and ended below 10
      rounds. The engaged set is the one at the start of the pass. */
  lemma CombatRule(es: seq<Entity>, delta: real)
    requires delta >= 0.0
    ensures var r := CombatStep(es, delta);
      (forall k :: 0 <= k < |es| && es[k].UnitEntity? && !IsEngagedUnit(es[k]) ==>
         r[k].UnitEntity? && r[k].unit.ammunition == es[k].unit.ammunition && r[k].unit.state == es[k].unit.state) &&
      (forall k :: 0 <= k < |es| && !IsEngagedUnit(es[k]) && Untargeted(es, 0, k) ==> r[k] == es[k]) &&
      (forall k :: 0 <= k < |es| && IsEngagedUnit(es[k]) ==>
         var n := EnemyCount(es, es[k].unit, 0);
         r[k].UnitEntity? && r[k].unit.ammunition == AmmoAfter(es[k].unit.ammunition, n, delta) &&
         r[k].unit.state == (if n > 0 && r[k].unit.ammunition < 10.0 then Retreating else Engaged))
  {
    CombatFromRule(es, es, 0, delta);
  }

  /** Worked case: an infantry squad (firepower 5) engaged on a ridge (cover 80)
      for one second costs a hostile squad in the same zone exactly 1 morale and
      costs the attacker 1 round. */
  lemma CombatRidgeExample()
    ensures
      var ridge := CreateTerrain("Ridge-3", Ridge, ["Valley-1"], 0).(id := "Ridge-3");
      var alpha := CreateUnit(Infantry, "Alpha", "Ridge-3", Friendly, 0).(state := Engaged);
      var enemy := CreateUnit(Infantry, "Enemy-1", "Ridge-3", Hostile, 0);
      CombatStep([TerrainEntity(ridge), UnitEntity(alpha), UnitEntity(enemy)], 1.0) ==
        [TerrainEntity(ridge), UnitEntity(alpha.(ammunition := 99.0)), UnitEntity(enemy.(morale := 99.0))]
  {
    var ridge := CreateTerrain("Ridge-3", Ridge, ["Valley-1"], 0).(id := "Ridge-3");
    var alpha := CreateUnit(Infantry, "Alpha", "Ridge-3", Friendly, 0).(state := Engaged);
    var enemy := CreateUnit(Infantry, "Enemy-1", "Ridge-3", Hostile, 0);
    var w := [TerrainEntity(ridge), UnitEntity(alpha), UnitEntity(enemy)];
    assert FindTerrain(w, "Ridge-3") == Some(ridge);
    assert Damage(w, alpha, 1.0) == 1.0;
    var w1 := Strike(w, 1, 2, 1.0);
    assert w1 == [TerrainEntity(ridge), UnitEntity(alpha.(ammunition := 99.0)), UnitEntity(enemy.(morale := 99.0))];
    assert AttackFrom(w, 1, 0, 1.0) == w1 by {
      assert !IsEnemyOf(w[0], alpha) && !IsEnemyOf(w[1], alpha);
      assert AttackFrom(w, 1, 0, 1.0) == AttackFrom(w, 1, 2, 1.0);
      assert AttackFrom(w, 1, 2, 1.0) == AttackFrom(w1, 1, 3, 1.0);
    }
    assert !IsEngagedUnit(w[0]) && IsEngagedUnit(w[1]) && !IsEngagedUnit(w[2]);
    assert CombatStep(w, 1.0) == CombatFrom(w, w, 1, 1.0);
    assert CombatFrom(w, w, 1, 1.0) == CombatFrom(w1, w, 2, 1.0);
    assert CombatFrom(w1, w, 2, 1.0) == CombatFrom(w1, w, 3, 1.0);
  }

  /** With no terrain node for the attacker's zone the modifier is 1, so the
      attack does no damage. */
  lemma StrikeWithoutTerrainHarmless(es: seq<Entity>, a: nat, j: nat, delta: real)
    requires a < |es| && j < |es| && es[a].UnitEntity? && IsEnemyOf(es[j], es[a].unit)
    requires FindTerrain(es, es[a].unit.zone).None? && es[j].unit.morale >= 0.0
    ensures Strike(es, a, j, delta)[j] == es[j]
  {
    assert Damage(es, es[a].unit, delta) == 0.0;
  }

  // ---------------------------------------------------------------------------
  // Unit actions

  /** Worked case: a drop of 90 from full morale leaves 10 and sends the unit back. */
  lemma UpdateMoraleExample()
    ensures var u := WithMorale(CreateUnit(Infantry, "Alpha", "Ridge-3", Friendly, 0), -90.0);
      u.morale == 10.0 && u.state == Retreating
  {
  }

  /** `engageTarget` on two units in the same zone engages both. */
  lemma EngageSameZone(es: seq<Entity>, i: nat, j: nat)
    requires i < |es| && j < |es| && es[i].UnitEntity? && es[j].UnitEntity?
    requires es[i].unit.zone == es[j].unit.zone
    ensures EngageAt(es, i, j)[i].UnitEntity? && EngageAt(es, i, j)[i].unit.state == Engaged
    ensures EngageAt(es, i, j)[j].UnitEntity? && EngageAt(es, i, j)[j].unit.state == Engaged
  {
  }
}
