/** The entity world of the tactical engine as values: units and terrain nodes
    form one closed sum type, the world is a sequence of entities in insertion
    order, and each system is a function from the world before a step to the
    world after it. The class that mutates a world in place (EcsWorld) is
    proved against these functions. */
module Ecs {
  import opened Common
  import opened Orders

  datatype Faction = Friendly | Hostile | Neutral

  datatype UnitState = Idle | Moving | Engaged | Pinned | Retreating

  datatype TerrainType = Ridge | Valley | Urban | Forest | Plains | Objective

  /** A squad: identity, position, combat and status components in one record. */
  datatype Unit = Unit(
    id: string,
    utype: UnitType,
    name: string,
    faction: Faction,
    zone: string,
    isMoving: bool,
    destination: Option<string>,
    firepower: int,
    range: int,
    ammunition: real,
    morale: real,
    supplies: real,
    readiness: real,
    initiative: int,
    state: UnitState)

  datatype TerrainProperties = TerrainProperties(isObjective: bool, coverValue: int, movementCost: int)

  /** A map zone; `connections` are the ids of the zones a unit may hop to. */
  datatype TerrainNode = TerrainNode(
    id: string,
    ttype: TerrainType,
    zone: string,
    name: string,
    connections: seq<string>,
    cover: int,
    properties: TerrainProperties)

  datatype Entity = UnitEntity(unit: Unit) | TerrainEntity(terrain: TerrainNode)
  {
    function Name(): string
    {
      match this
      case UnitEntity(u) => u.name
      case TerrainEntity(t) => t.name
    }

    function Id(): string
    {
      match this
      case UnitEntity(u) => u.id
      case TerrainEntity(t) => t.id
    }

    /** Units and terrain nodes both carry a `zone` field. */
    function Zone(): string
    {
      match this
      case UnitEntity(u) => u.zone
      case TerrainEntity(t) => t.zone
    }
  }

  // ---------------------------------------------------------------------------
  // Lookup tables and factories

  datatype BaseStats = BaseStats(firepower: int, range: int, ammunition: int, initiative: int)

  /** Per-type combat baseline. */
  function UnitBaseStats(t: UnitType): (r: BaseStats)
    ensures 0 <= r.firepower <= 10 && 1 <= r.range <= 8
    ensures 0 <= r.ammunition <= 100 && 40 <= r.initiative <= 100
    ensures r.firepower == 0 <==> t == UAV
  {
    match t
    case Infantry => BaseStats(5, 2, 100, 70)
    case Recon => BaseStats(3, 4, 50, 90)
    case Armor => BaseStats(10, 3, 50, 60)
    case Engineers => BaseStats(2, 1, 30, 65)
    case Artillery => BaseStats(8, 6, 30, 40)
    case UAV => BaseStats(0, 8, 0, 100)
  }

  /** Per-type cover value; objectives give full cover. */
  function TerrainCover(t: TerrainType): (c: int)
    ensures 20 <= c <= 100
    ensures c == 100 <==> t == Objective
  {
    match t
    case Ridge => 80
    case Valley => 60
    case Urban => 90
    case Forest => 70
    case Plains => 20
    case Objective => 100
  }

  function TerrainTypeName(t: TerrainType): string
  {
    match t
    case Ridge => "ridge"
    case Valley => "valley"
    case Urban => "urban"
    case Forest => "forest"
    case Plains => "plains"
    case Objective => "objective"
  }

  /** The gauges every system keeps in range. */
  predicate ValidUnit(u: Unit)
  {
    0.0 <= u.morale <= 100.0 && 0.0 <= u.ammunition && 0 <= u.firepower
  }

  predicate ValidTerrain(t: TerrainNode)
  {
    0 <= t.cover <= 100
  }

  predicate ValidEntity(e: Entity)
  {
    match e
    case UnitEntity(u) => ValidUnit(u)
    case TerrainEntity(t) => ValidTerrain(t)
  }

  predicate ValidWorld(es: seq<Entity>)
  {
    forall k :: 0 <= k < |es| ==> ValidEntity(es[k])
  }

  /** `createUnit`; `now` stands for the clock reading the id is built from. */
  function CreateUnit(t: UnitType, name: string, position: string, faction: Faction, now: nat): (u: Unit)
    ensures ValidUnit(u)
    ensures u.utype == t && u.name == name && u.faction == faction && u.zone == position
    ensures u.morale == 100.0 && u.supplies == 100.0 && u.readiness == 100.0
    ensures u.state == Idle && !u.isMoving && u.destination == None
    ensures u.firepower == UnitBaseStats(t).firepower && u.range == UnitBaseStats(t).range
    ensures u.ammunition == UnitBaseStats(t).ammunition as real
    ensures u.initiative == UnitBaseStats(t).initiative
  {
    var stats := UnitBaseStats(t);
    Unit(UnitTypeName(t) + "-" + NatToString(now), t, name, faction, position, false, None,
         stats.firepower, stats.range, stats.ammunition as real,
         100.0, 100.0, 100.0, stats.initiative, Idle)
  }

  /** `createTerrain`; `now` stands for the clock reading the id is built from. */
  function CreateTerrain(name: string, t: TerrainType, connections: seq<string>, now: nat): (n: TerrainNode)
    ensures ValidTerrain(n)
    ensures n.ttype == t && n.name == name && n.zone == name && n.connections == connections
    ensures n.cover == TerrainCover(t) && n.properties.coverValue == n.cover
    ensures n.properties.isObjective <==> t == Objective
    ensures n.properties.movementCost == 1
  {
    var cover := TerrainCover(t);
    TerrainNode(TerrainTypeName(t) + "-" + NatToString(now), t, name, name, connections, cover,
                TerrainProperties(t == Objective, cover, 1))
  }

  // ---------------------------------------------------------------------------
  // Queries

  /** The first terrain node with the given id, as `Array.find` returns it. */
  function FindTerrain(es: seq<Entity>, id: string): (r: Option<TerrainNode>)
    ensures r.Some? ==> r.value.id == id && exists k :: 0 <= k < |es| && es[k] == TerrainEntity(r.value) && NoTerrainBefore(es, id, k)
    ensures r.None? ==> forall k :: 0 <= k < |es| && es[k].TerrainEntity? ==> es[k].terrain.id != id
  {
    if |es| == 0 then None
    else if es[0].TerrainEntity? && es[0].terrain.id == id then
      assert es[0] == TerrainEntity(es[0].terrain) && NoTerrainBefore(es, id, 0);
      Some(es[0].terrain)
    else
      var r := FindTerrain(es[1..], id);
      assert forall k :: 1 <= k < |es| ==> es[k] == es[1..][k - 1];
      assert forall k :: 1 <= k <= |es| && NoTerrainBefore(es[1..], id, k - 1) ==> NoTerrainBefore(es, id, k);
      r
  }

  /** No terrain node before index k has the given id. */
  predicate NoTerrainBefore(es: seq<Entity>, id: string, k: nat)
    requires k <= |es|
  {
    forall m :: 0 <= m < k ==> !(es[m].TerrainEntity? && es[m].terrain.id == id)
  }

  /** Index of the first entity named `name`. The machines look units up with
      a `find` whose filter is `'type' in e`, which terrain nodes pass too, so
      any entity can match. */
  function FindNamed(es: seq<Entity>, name: string): (r: Option<nat>)
    ensures r.Some? ==> r.value < |es| && es[r.value].Name() == name
    ensures r.Some? ==> forall k :: 0 <= k < r.value ==> es[k].Name() != name
    ensures r.None? <==> forall k :: 0 <= k < |es| ==> es[k].Name() != name
  {
    if |es| == 0 then None
    else if es[0].Name() == name then Some(0)
    else
      assert forall k :: 1 <= k < |es| ==> es[k] == es[1..][k - 1];
      match FindNamed(es[1..], name)
      case None => None
      case Some(k) => Some(k + 1)
  }

  /** Some entity, unit or terrain, has the given id. */
  function HasId(es: seq<Entity>, id: string): (b: bool)
    ensures b <==> exists k :: 0 <= k < |es| && es[k].Id() == id
  {
    if |es| == 0 then false
    else
      assert forall k :: 1 <= k < |es| ==> es[k] == es[1..][k - 1];
      es[0].Id() == id || HasId(es[1..], id)
  }

  /** Two worlds agree on their terrain: same length, terrain entries equal, and
      units where the other has units. */
  predicate TerrainsAgree(a: seq<Entity>, b: seq<Entity>)
  {
    |a| == |b| &&
    forall k :: 0 <= k < |a| ==> a[k].UnitEntity? == b[k].UnitEntity? && (a[k].TerrainEntity? ==> a[k] == b[k])
  }

  lemma {:induction false} FindTerrainAgree(a: seq<Entity>, b: seq<Entity>, id: string)
    requires TerrainsAgree(a, b)
    ensures FindTerrain(a, id) == FindTerrain(b, id)
  {
    if |a| > 0 {
      assert TerrainsAgree(a[1..], b[1..]) by {
        forall k | 0 <= k < |a[1..]|
          ensures a[1..][k].UnitEntity? == b[1..][k].UnitEntity? && (a[1..][k].TerrainEntity? ==> a[1..][k] == b[1..][k])
        {
          assert a[1..][k] == a[k + 1] && b[1..][k] == b[k + 1];
        }
      }
      FindTerrainAgree(a[1..], b[1..], id);
    }
  }

  // ---------------------------------------------------------------------------
  // Actions on a single unit

  /** `actions.moveUnit`: the order sets the unit in motion; connectivity is not checked here. */
  function SetMoving(u: Unit, dest: string): Unit
  {
    u.(isMoving := true, state := Moving, destination := Some(dest))
  }

  /** `actions.moveUnit` on the entity at index i. The fields it sets exist
      only on units, so a terrain node there is left as it is. */
  function MoveAt(es: seq<Entity>, i: nat, dest: string): (r: seq<Entity>)
    requires i < |es|
    ensures |r| == |es| && forall k :: 0 <= k < |es| && k != i ==> r[k] == es[k]
    ensures es[i].UnitEntity? ==> r[i] == UnitEntity(SetMoving(es[i].unit, dest))
    ensures es[i].TerrainEntity? ==> r == es
  {
    if es[i].UnitEntity? then es[i := UnitEntity(SetMoving(es[i].unit, dest))] else es
  }

  /** `actions.updateMorale`: add delta, clamp to [0, 100], retreat below 20. */
  function WithMorale(u: Unit, delta: real): (r: Unit)
    ensures 0.0 <= r.morale <= 100.0
    ensures 0.0 <= u.morale + delta <= 100.0 ==> r.morale == u.morale + delta
    ensures u.morale + delta < 0.0 ==> r.morale == 0.0
    ensures u.morale + delta > 100.0 ==> r.morale == 100.0
    ensures r.morale < 20.0 ==> r.state == Retreating
    ensures r.morale >= 20.0 ==> r.state == u.state
    ensures r == u.(morale := r.morale, state := r.state)
  {
    var m := MaxReal(0.0, MinReal(100.0, u.morale + delta));
    u.(morale := m, state := if m < 20.0 then Retreating else u.state)
  }

  /** `actions.engageTarget` on entities i and j: both become engaged iff they
      share a zone. A terrain entity has no state field in this model. */
  function EngageAt(es: seq<Entity>, i: nat, j: nat): (r: seq<Entity>)
    requires i < |es| && j < |es|
    ensures |r| == |es|
    ensures es[i].Zone() != es[j].Zone() ==> r == es
    ensures es[i].Zone() == es[j].Zone() ==>
      (forall k :: 0 <= k < |es| && k != i && k != j ==> r[k] == es[k]) &&
      (forall k :: 0 <= k < |es| && (k == i || k == j) ==>
         if es[k].UnitEntity? then r[k] == UnitEntity(es[k].unit.(state := Engaged)) else r[k] == es[k])
  {
    if es[i].Zone() == es[j].Zone() then
      var es1 := if es[i].UnitEntity? then es[i := UnitEntity(es[i].unit.(state := Engaged))] else es;
      if es1[j].UnitEntity? then es1[j := UnitEntity(es1[j].unit.(state := Engaged))] else es1
    else es
  }

  // ---------------------------------------------------------------------------
  // Movement system

  /** A unit hops when it is moving, has a non-empty destination, and the
      terrain node whose id is its zone lists that destination as a connection. */
  predicate CanHop(es: seq<Entity>, u: Unit)
  {
    u.isMoving && Truthy(u.destination) &&
    var t := FindTerrain(es, u.zone);
    t.Some? && u.destination.value in t.value.connections
  }

  function Hop(u: Unit): Unit
    requires u.destination.Some?
  {
    u.(zone := u.destination.value, isMoving := false, state := Idle, destination := None)
  }

  function MoveEntity(es: seq<Entity>, e: Entity): Entity
  {
    match e
    case UnitEntity(u) => if CanHop(es, u) then UnitEntity(Hop(u)) else e
    case TerrainEntity(_) => e
  }

  /** One pass of the movement system. Terrain never changes during the pass, so
      every entity's lookup sees the same terrain as in the world before it. */
  function MovementStep(es: seq<Entity>): (r: seq<Entity>)
    ensures |r| == |es|
    ensures forall k :: 0 <= k < |es| ==> r[k].UnitEntity? == es[k].UnitEntity?
    ensures forall k :: 0 <= k < |es| && es[k].TerrainEntity? ==> r[k] == es[k]
  {
    seq(|es|, k requires 0 <= k < |es| => MoveEntity(es, es[k]))
  }

  // ---------------------------------------------------------------------------
  // Morale system

  /** The three morale rules in the order the system applies them. */
  function MoraleUnit(u: Unit, delta: real): Unit
  {
    var m1 := if u.state == Engaged then MaxReal(0.0, u.morale - 5.0 * delta) else u.morale;
    var s1 := if m1 < 20.0 && u.state != Retreating then Retreating else u.state;
    var m2 := if s1 == Idle then MinReal(100.0, m1 + 2.0 * delta) else m1;
    u.(morale := m2, state := s1)
  }

  function MoraleEntity(e: Entity, delta: real): Entity
  {
    match e
    case UnitEntity(u) => UnitEntity(MoraleUnit(u, delta))
    case TerrainEntity(_) => e
  }

  /** One pass of the morale system: only the morale and state of units
      change. */
  function MoraleStep(es: seq<Entity>, delta: real): (r: seq<Entity>)
    ensures |r| == |es|
    ensures forall k :: 0 <= k < |es| && es[k].TerrainEntity? ==> r[k] == es[k]
    ensures forall k :: 0 <= k < |es| && es[k].UnitEntity? ==>
      r[k].UnitEntity? && r[k].unit == es[k].unit.(morale := r[k].unit.morale, state := r[k].unit.state)
  {
    seq(|es|, k requires 0 <= k < |es| => MoraleEntity(es[k], delta))
  }

  // ---------------------------------------------------------------------------
  // Combat system

  predicate IsEngagedUnit(e: Entity)
  {
    e.UnitEntity? && e.unit.state == Engaged
  }

  /** A unit in the attacker's zone that belongs to a different faction. */
  predicate IsEnemyOf(e: Entity, attacker: Unit)
  {
    e.UnitEntity? && e.unit.zone == attacker.zone && e.unit.faction != attacker.faction
  }

  /** cover/100 of the terrain whose id is the zone, or 1 when there is none. */
  function CoverModifier(es: seq<Entity>, zone: string): real
  {
    match FindTerrain(es, zone)
    case Some(t) => t.cover as real / 100.0
    case None => 1.0
  }

  function Damage(es: seq<Entity>, attacker: Unit, delta: real): real
  {
    (attacker.firepower as real) * (1.0 - CoverModifier(es, attacker.zone)) * delta
  }

  /** What combat may change: morale, ammunition and state of units. */
  function Skeleton(u: Unit): Unit
  {
    u.(morale := 0.0, ammunition := 0.0, state := Idle)
  }

  predicate SameSkeleton(x: Entity, y: Entity)
  {
    (x.TerrainEntity? && y == x) || (x.UnitEntity? && y.UnitEntity? && Skeleton(x.unit) == Skeleton(y.unit))
  }

  predicate CombatFrame(a: seq<Entity>, b: seq<Entity>)
  {
    |a| == |b| && forall k :: 0 <= k < |a| ==> SameSkeleton(a[k], b[k])
  }

  lemma CombatFrameAgree(a: seq<Entity>, b: seq<Entity>)
    requires CombatFrame(a, b)
    ensures TerrainsAgree(a, b)
  {
  }

  /** One attacker firing on one enemy: the enemy's morale drops by the
      cover-reduced damage (floored at 0), the attacker spends delta
      ammunition (floored at 0) and retreats when it is below 10. The two
      are different entities, because their factions differ. */
  function Strike(es: seq<Entity>, a: nat, j: nat, delta: real): (r: seq<Entity>)
    requires a < |es| && j < |es| && es[a].UnitEntity? && IsEnemyOf(es[j], es[a].unit)
    ensures CombatFrame(es, r) && a != j
    ensures r[j] == UnitEntity(es[j].unit.(morale := MaxReal(0.0, es[j].unit.morale - Damage(es, es[a].unit, delta))))
    ensures var ammo := MaxReal(0.0, es[a].unit.ammunition - delta);
      r[a] == UnitEntity(es[a].unit.(ammunition := ammo, state := if ammo < 10.0 then Retreating else es[a].unit.state))
    ensures forall k :: 0 <= k < |es| && k != a && k != j ==> r[k] == es[k]
  {
    var att := es[a].unit;
    var enemy := es[j].unit;
    var es1 := es[j := UnitEntity(enemy.(morale := MaxReal(0.0, enemy.morale - Damage(es, att, delta))))];
    var ammo := MaxReal(0.0, att.ammunition - delta);
    es1[a := UnitEntity(att.(ammunition := ammo, state := if ammo < 10.0 then Retreating else att.state))]
  }

  /** Attacker a fires on every enemy at index j or later, in world order. */
  function AttackFrom(es: seq<Entity>, a: nat, j: nat, delta: real): (r: seq<Entity>)
    requires a < |es| && es[a].UnitEntity?
    ensures CombatFrame(es, r)
    decreases |es| - j
  {
    if j >= |es| then es
    else if IsEnemyOf(es[j], es[a].unit) then AttackFrom(Strike(es, a, j, delta), a, j + 1, delta)
    else AttackFrom(es, a, j + 1, delta)
  }

  /** Every unit engaged in `snapshot` (the world when the pass began), from
      index i on, fires on its enemies. */
  function CombatFrom(es: seq<Entity>, snapshot: seq<Entity>, i: nat, delta: real): (r: seq<Entity>)
    requires CombatFrame(snapshot, es)
    ensures CombatFrame(es, r)
    decreases |es| - i
  {
    if i >= |es| then es
    else if IsEngagedUnit(snapshot[i]) then CombatFrom(AttackFrom(es, i, 0, delta), snapshot, i + 1, delta)
    else CombatFrom(es, snapshot, i + 1, delta)
  }

  /** One pass of the combat system: the engaged units are chosen before any fire. */
  function CombatStep(es: seq<Entity>, delta: real): (r: seq<Entity>)
    ensures CombatFrame(es, r)
  {
    CombatFrom(es, es, 0, delta)
  }
}
