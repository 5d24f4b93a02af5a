/** Victory and defeat predicates over an optional world. A missing world
    satisfies none of them. Both the order machine and the tactical logic
    machine use these definitions. */
module Victory {
  import opened Common
  import opened Orders
  import opened Ecs

  predicate IsFaction(e: Entity, f: Faction)
  {
    e.UnitEntity? && e.unit.faction == f
  }

  /** Number of units of faction f. */
  function CountFaction(es: seq<Entity>, f: Faction): (n: nat)
    ensures n <= |es|
    ensures n == 0 <==> forall k :: 0 <= k < |es| ==> !IsFaction(es[k], f)
  {
    if |es| == 0 then 0
    else
      var rest := CountFaction(es[1..], f);
      assert forall k :: 1 <= k < |es| ==> es[k] == es[1..][k - 1];
      (if IsFaction(es[0], f) then 1 else 0) + rest
  }

  predicate IsObjective(e: Entity)
  {
    e.TerrainEntity? && e.terrain.properties.isObjective
  }

  /** Some friendly unit stands in the zone named `zone`. */
  function FriendlyAt(es: seq<Entity>, zone: string): (b: bool)
    ensures b <==> exists m :: 0 <= m < |es| && IsFaction(es[m], Friendly) && es[m].unit.zone == zone
  {
    if |es| == 0 then false
    else
      assert forall k :: 1 <= k < |es| ==> es[k] == es[1..][k - 1];
      (IsFaction(es[0], Friendly) && es[0].unit.zone == zone) || FriendlyAt(es[1..], zone)
  }

  /** Every objective among `objs` has a friendly unit of `es` in the zone
      whose name is the objective's id. */
  function ObjectivesHeld(es: seq<Entity>, objs: seq<Entity>): (b: bool)
    ensures b <==> forall k :: 0 <= k < |objs| && IsObjective(objs[k]) ==> FriendlyAt(es, objs[k].terrain.id)
  {
    if |objs| == 0 then true
    else
      assert forall k :: 1 <= k < |objs| ==> objs[k] == objs[1..][k - 1];
      (!IsObjective(objs[0]) || FriendlyAt(es, objs[0].terrain.id)) && ObjectivesHeld(es, objs[1..])
  }

  /** No hostile units remain and at least one friendly unit does. */
  predicate EliminationAchieved(world: Option<seq<Entity>>)
  {
    world.Some? && CountFaction(world.value, Hostile) == 0 && CountFaction(world.value, Friendly) > 0
  }

  /** Every objective terrain is occupied by a friendly unit; holds vacuously
      when there are no objectives. */
  predicate OccupationAchieved(world: Option<seq<Entity>>)
  {
    world.Some? && ObjectivesHeld(world.value, world.value)
  }

  predicate SurvivalAchieved(world: Option<seq<Entity>>, turnCount: int)
  {
    world.Some? && turnCount >= 10 && CountFaction(world.value, Friendly) > 0
  }

  predicate DefeatConditionsMet(world: Option<seq<Entity>>)
  {
    world.Some? && CountFaction(world.value, Friendly) == 0
  }

  /** The victory guard: the selected condition, and never for a time limit. */
  predicate CheckVictory(vc: VictoryCondition, world: Option<seq<Entity>>, turnCount: int)
  {
    match vc
    case Elimination => EliminationAchieved(world)
    case Occupation => OccupationAchieved(world)
    case Survival => SurvivalAchieved(world, turnCount)
    case TimeLimit => false
  }

  // ---------------------------------------------------------------------------
  // Properties

  /** Without a world nothing is won or lost. */
  lemma NoWorldNoOutcome(vc: VictoryCondition, turnCount: int)
    ensures !CheckVictory(vc, None, turnCount) && !DefeatConditionsMet(None)
  {
  }

  /** Elimination and survival victories exclude defeat: both need a friendly unit. */
  lemma VictoryExcludesDefeat(vc: VictoryCondition, world: Option<seq<Entity>>, turnCount: int)
    requires vc != Occupation && CheckVictory(vc, world, turnCount)
    ensures !DefeatConditionsMet(world)
  {
  }

  /** Defeat holds exactly when the world has no friendly unit. */
  lemma DefeatIffNoFriendly(es: seq<Entity>)
    ensures DefeatConditionsMet(Some(es)) <==> forall k :: 0 <= k < |es| ==> !IsFaction(es[k], Friendly)
  {
  }

  /** Occupation is vacuous without objectives, so a world with neither
      objectives nor friendly units satisfies occupation and defeat at once. */
  lemma OccupationVacuous(es: seq<Entity>)
    requires forall k :: 0 <= k < |es| ==> !IsObjective(es[k])
    ensures OccupationAchieved(Some(es))
  {
  }

  lemma OccupationAndDefeatOverlap()
    ensures OccupationAchieved(Some([])) && DefeatConditionsMet(Some([]))
  {
  }

  /** Elimination holds exactly when no unit is hostile and some unit is friendly. */
  lemma EliminationMeaning(es: seq<Entity>)
    ensures EliminationAchieved(Some(es)) <==>
      (forall k :: 0 <= k < |es| ==> !IsFaction(es[k], Hostile)) &&
      (exists k :: 0 <= k < |es| && IsFaction(es[k], Friendly))
  {
  }

  /** Occupation fails as soon as one objective has no friendly unit in its zone. */
  lemma OccupationNeedsEveryObjective(es: seq<Entity>, k: nat)
    requires k < |es| && IsObjective(es[k])
    requires forall m :: 0 <= m < |es| && IsFaction(es[m], Friendly) ==> es[m].unit.zone != es[k].terrain.id
    ensures !OccupationAchieved(Some(es))
  {
    assert !FriendlyAt(es, es[k].terrain.id);
  }
}
