/** The mutable entity world: a container whose entity list the systems and
    actions update in place, one entity at a time, each method proved to leave
    the world the corresponding function of Ecs computes. */
module EcsWorld {
  import opened Common
  import opened Ecs

  class GameWorld {
    /** Entities in insertion order. */
    var entities: seq<Entity>

    /** An empty world. */
    constructor ()
      ensures entities == []
    {
      entities := [];
    }

    method Add(e: Entity)
      modifies this
      ensures entities == old(entities) + [e]
    {
      entities := entities + [e];
    }

    /** `actions.moveUnit` on the unit at index i. */
    method MoveUnit(i: nat, destination: string)
      requires i < |entities| && entities[i].UnitEntity?
      modifies this
      ensures entities == old(entities)[i := UnitEntity(SetMoving(old(entities)[i].unit, destination))]
      ensures entities[i].unit.isMoving && entities[i].unit.state == Moving
      ensures entities[i].unit.destination == Some(destination)
    {
      var u := entities[i].unit;
      entities := entities[i := UnitEntity(u.(isMoving := true, state := Moving, destination := Some(destination)))];
    }

    /** `actions.engageTarget` on the entities at indices i and j. */
    method EngageTarget(i: nat, j: nat)
      requires i < |entities| && j < |entities|
      modifies this
      ensures entities == EngageAt(old(entities), i, j)
    {
      if entities[i].Zone() == entities[j].Zone() {
        if entities[i].UnitEntity? {
          entities := entities[i := UnitEntity(entities[i].unit.(state := Engaged))];
        }
        if entities[j].UnitEntity? {
          entities := entities[j := UnitEntity(entities[j].unit.(state := Engaged))];
        }
      }
    }

    /** `actions.updateMorale` on the unit at index i. */
    method UpdateMorale(i: nat, delta: real)
      requires i < |entities| && entities[i].UnitEntity?
      modifies this
      ensures entities == old(entities)[i := UnitEntity(WithMorale(old(entities)[i].unit, delta))]
    {
      var u := entities[i].unit;
      var m := MaxReal(0.0, MinReal(100.0, u.morale + delta));
      var s := u.state;
      if m < 20.0 {
        s := Retreating;
      }
      entities := entities[i := UnitEntity(u.(morale := m, state := s))];
    }

    /** The movement system: each moving unit hops to its destination when the
        terrain node of its zone connects to it. */
    method Movement(delta: real)
      modifies this
      ensures entities == MovementStep(old(entities))
    {
      ghost var start := entities;
      var i := 0;
      while i < |entities|
        invariant 0 <= i <= |entities| == |start|
        invariant TerrainsAgree(start, entities)
        invariant forall k :: 0 <= k < i ==> entities[k] == MoveEntity(start, start[k])
        invariant forall k :: i <= k < |entities| ==> entities[k] == start[k]
      {
        var e := entities[i];
        if e.UnitEntity? && e.unit.isMoving {
          var u := e.unit;
          var current := FindTerrain(entities, u.zone);
          FindTerrainAgree(start, entities, u.zone);
          if current.Some? && u.destination.Some? && u.destination.value != "" &&
             u.destination.value in current.value.connections
          {
            entities := entities[i := UnitEntity(u.(zone := u.destination.value, isMoving := false,
                                                     state := Idle, destination := None))];
          }
        }
        i := i + 1;
      }
      assert entities == MovementStep(start);
    }

    /** One shot of the combat system: the attacker at index a fires on the
        enemy at index j. */
    method Fire(a: nat, j: nat, delta: real)
      requires a < |entities| && j < |entities| && entities[a].UnitEntity?
      requires IsEnemyOf(entities[j], entities[a].unit)
      modifies this
      ensures entities == Strike(old(entities), a, j, delta)
    {
      var attacker := entities[a].unit;
      var enemy := entities[j].unit;
      var terrain := FindTerrain(entities, attacker.zone);
      var modifier := if terrain.Some? then terrain.value.cover as real / 100.0 else 1.0;
      assert modifier == CoverModifier(entities, attacker.zone);
      var damage := (attacker.firepower as real) * (1.0 - modifier) * delta;
      assert damage == Damage(entities, attacker, delta);
      entities := entities[j := UnitEntity(enemy.(morale := MaxReal(0.0, enemy.morale - damage)))];
      var ammo := MaxReal(0.0, attacker.ammunition - delta);
      var s := attacker.state;
      if ammo < 10.0 {
        s := Retreating;
      }
      entities := entities[a := UnitEntity(attacker.(ammunition := ammo, state := s))];
    }

    /** The attacker at index a fires on every enemy in its zone, in world order. */
    method Attack(a: nat, delta: real)
      requires a < |entities| && entities[a].UnitEntity?
      modifies this
      ensures entities == AttackFrom(old(entities), a, 0, delta)
    {
      ghost var before := entities;
      var j := 0;
      while j < |entities|
        invariant 0 <= j <= |entities|
        invariant CombatFrame(before, entities)
        invariant AttackFrom(entities, a, j, delta) == AttackFrom(before, a, 0, delta)
      {
        if IsEnemyOf(entities[j], entities[a].unit) {
          Fire(a, j, delta);
        }
        j := j + 1;
      }
    }

    /** The combat system: every unit engaged when the pass begins fires on each
        enemy in its zone, in world order. */
    method Combat(delta: real)
      modifies this
      ensures entities == CombatStep(old(entities), delta)
    {
      var engaged := entities;
      var i := 0;
      while i < |engaged|
        invariant 0 <= i <= |engaged|
        invariant CombatFrame(engaged, entities)
        invariant CombatFrom(entities, engaged, i, delta) == CombatStep(engaged, delta)
      {
        if IsEngagedUnit(engaged[i]) {
          Attack(i, delta);
        }
        i := i + 1;
      }
    }

    /** The morale system: combat stress, retreat below 20, recovery when idle. */
    method Morale(delta: real)
      modifies this
      ensures entities == MoraleStep(old(entities), delta)
    {
      ghost var start := entities;
      var i := 0;
      while i < |entities|
        invariant 0 <= i <= |entities| == |start|
        invariant forall k :: 0 <= k < i ==> entities[k] == MoraleEntity(start[k], delta)
        invariant forall k :: i <= k < |entities| ==> entities[k] == start[k]
      {
        if entities[i].UnitEntity? {
          var u := entities[i].unit;
          var m := u.morale;
          var s := u.state;
          if s == Engaged {
            m := MaxReal(0.0, m - 5.0 * delta);
          }
          if m < 20.0 && s != Retreating {
            s := Retreating;
          }
          if s == Idle {
            m := MinReal(100.0, m + 2.0 * delta);
          }
          entities := entities[i := UnitEntity(u.(morale := m, state := s))];
        }
        i := i + 1;
      }
      assert entities == MoraleStep(start, delta);
    }
  }
}
