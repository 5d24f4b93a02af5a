# War Tactics engine, modelled in Dafny

This project models the core of the War Tactics game engine and proves properties of the model. The engine has six parts:

- **Entity world.** Units and terrain nodes, with their factories, three unit actions (move, engage, change morale) and three systems (movement along the terrain graph, combat, morale).
- **Command parser.** Turns a typed order such as `Move Alpha Squad to Valley Beta under radio silence` into an `Order` record.
- **Game loop.** A state machine with turn-based and real-time modes, a tick pipeline, order queues, rolling logs and situation reports, and victory, defeat, pause, reset and error handling.
- **Tactical logic.** A state machine that handles unit personalities and supplies, order validation and acceptance, intelligence reports, communications jamming and combat reports.
- **Original game machine.** Order submission, turn counting, and the world-based victory and defeat rules.
- **Character machine.** A small idle / walking / sprinting / jumping machine that moves a figure on a grid.

## How the model is organised

There is one module per source concern:

| file | module | what it models |
|---|---|---|
| `common.dfy` | `Common` | `Option`, keep-last trimming (`slice(-n)`), number rendering |
| `orders.dfy` | `Orders` | the `Order` record and unit types |
| `ecs.dfy` | `Ecs` | entity values, factories, lookups, and the systems as functions over an entity sequence |
| `ecs_world.dfy` | `EcsWorld` | class `GameWorld`: an entity sequence that the actions and systems update in place, each method proved equal to its function |
| `ecs_lemmas.dfy` | `EcsLemmas` | properties of the systems and actions |
| `victory.dfy` | `Victory` | the world-based victory and defeat rules |
| `text.dfy`, `parser.dfy` | `Text`, `Parser` | the parser as a word-level grammar over whitespace-separated words |
| `parser_lemmas.dfy`, `parser_examples.dfy` | `ParserLemmas`, `ParserExamples` | the parser round trip, the repository's own parser example, and rejected inputs |
| `game_loop.dfy`, `game_loop_lemmas.dfy` | `GameLoop`, `GameLoopLemmas` | the game loop: pure step functions plus class `GameLoopMachine` with one method per event |
| `logic_rules.dfy` | `LogicRules` | the tactical logic's decision rules |
| `logic_machine.dfy`, `logic_lemmas.dfy` | `LogicMachine`, `LogicLemmas` | the tactical logic machine: step functions plus class `TacticalLogic` |
| `game_machine.dfy`, `game_machine_lemmas.dfy` | `GameMachine`, `GameMachineLemmas` | the original game machine: step functions plus class `WarTactics` |
| `character.dfy`, `character_lemmas.dfy` | `Character`, `CharacterLemmas` | the character machine |

### How each machine is modelled

- **Step functions.** Each state machine is a step function: one function per event, applied to a value holding the state and the context.
- **Class.** The class beside it holds the same data in fields. Each event method states that its new snapshot is the step function applied to the old snapshot.
- **Timers and clock.** Timers (`after` delays and promise actors) become explicit events. Clock readings and random choices become event parameters.

### How xstate semantics are modelled

- **Assigners.** Property assigners inside one `assign` read the context as it was before that `assign`. Actions in a list run in order.
- **Throwing actions.** An action that throws stops the machine. The machine keeps the context it had before the event, but objects already mutated in place stay mutated. The logic model calls this stopped mode `Crashed`.
- **Final states.** These absorb every event.
- **Discarded events.** `raise(...)` and `sendTo(...)` called inside a plain action function build an action object that is thrown away. They are not modelled as delivering anything.
- **Sends to a missing actor.** A `sendTo` action that names an actor the machine has not spawned or invoked throws while the transition is resolved, so it stops the machine like any other throwing action. The tactical logic's order notices to `gameLoop` are of this kind.

### Where the code and the tests disagree

The model follows the code:

- **ERROR in `idle`.** `machine-two.test.ts` expects the game loop to accept ERROR in `idle`, but the code does not.
- **List caps.** The tests expect caps of 10, 50 and 100 on lists that the code does not cap that way. `completedOrders` has no cap at all.
- **Parser destination.** The repository's parser example expects the destination `valley-1`. The code produces `valley-beta` for "Valley Beta" (`ParserExamples.ComplexMoveCommand`).
- **Tactical logic tests.** Several of its tests send events to `idle`, where they are ignored (`LogicLemmas.IdleWaitsForTick`).
- **Demo hints.** The demo's hint commands `move Alpha to Ridge-3` and `attack Enemy-1 with Bravo` are rejected by the parser (`ParserExamples.HyphenatedDestinationRejected`, `ParserExamples.HyphenatedTargetRejected`).

## Model

| member | source | states |
|---|---|---|
| Ecs.UnitBaseStats | src/scenes/strategy/2D/war-tactics/core/ecs.ts:229-240 | The per-type baseline keeps firepower in 0..10, range in 1..8, ammunition in 0..100 and initiative in 40..100. Only the UAV has no firepower. |
| Ecs.TerrainCover | src/scenes/strategy/2D/war-tactics/core/ecs.ts:242-253 | Cover lies between 20 and 100. Full cover is given exactly by objectives. |
| Ecs.CreateUnit | src/scenes/strategy/2D/war-tactics/core/ecs.ts:169-191 | A new unit is valid and idle, not moving, with no destination. It is in the given zone with morale, supplies and readiness 100, and its combat stats come from the type's baseline. |
| Ecs.CreateTerrain | src/scenes/strategy/2D/war-tactics/core/ecs.ts:194-210 | A new terrain node is valid. Its zone is its name, its cover and cover value come from the table, it is an objective exactly for the objective type, and its movement cost is 1. |
| Ecs.FindTerrain | src/scenes/strategy/2D/war-tactics/core/ecs.ts:117-119 | Returns the first terrain node of the world with the given id (no earlier terrain node has it), or none when no terrain node has that id. |
| Ecs.FindNamed | src/scenes/strategy/2D/war-tactics/core/machine.ts:158-160 | Returns the index of the first entity with the given name (the `'type' in e` filter lets terrain nodes match too), or none exactly when no entity has the name. |
| Ecs.HasId | src/scenes/strategy/2D/war-tactics/core/machine-logic.ts:400-403 | True exactly when some entity has the given id. |
| Ecs.MoveAt | src/scenes/strategy/2D/war-tactics/core/ecs.ts:257-261 | Moving sets the unit moving toward the destination. No other entity changes, and a terrain node at that index is left as it is. |
| Ecs.WithMorale | src/scenes/strategy/2D/war-tactics/core/ecs.ts:271-276 | Morale stays in [0, 100]: it is the sum when that is in range and clamps otherwise. Below 20 the unit retreats; otherwise its state is kept. No other field changes. |
| Ecs.EngageAt | src/scenes/strategy/2D/war-tactics/core/ecs.ts:263-269 | Two entities in different zones leave the world unchanged. In the same zone, both units become engaged and nothing else changes. |
| Ecs.Strike | src/scenes/strategy/2D/war-tactics/core/ecs.ts:115-139 | One shot sets the enemy's morale to max(0, morale − damage) and the attacker's ammunition to max(0, ammunition − delta). The attacker retreats when that is below 10 and otherwise keeps its state. Attacker and enemy are different entities, and every other entity is unchanged. |
| Ecs.AttackFrom | src/scenes/strategy/2D/war-tactics/core/ecs.ts:105-139 | An attacker firing on its enemies changes only the morale, ammunition and state of units. `EcsLemmas.AttackFromRule` states the outcome. |
| Ecs.CombatFrom | src/scenes/strategy/2D/war-tactics/core/ecs.ts:105-139 | The rest of a combat pass changes only the morale, ammunition and state of units. `EcsLemmas.CombatFromRule` states the outcome. |
| Ecs.CombatStep | src/scenes/strategy/2D/war-tactics/core/ecs.ts:99-141 | A combat pass changes only the morale, ammunition and state of units. `EcsLemmas.CombatRule` states the outcome for every unit. |
| Ecs.MovementStep | src/scenes/strategy/2D/war-tactics/core/ecs.ts:77-97 | The movement pass keeps the world's size, keeps units and terrain where they were, and never changes a terrain node. |
| Ecs.MoraleStep | src/scenes/strategy/2D/war-tactics/core/ecs.ts:143-166 | The morale pass keeps the world's size and every terrain node, and changes only the morale and state of units. |
| EcsWorld.GameWorld.constructor | src/scenes/strategy/2D/war-tactics/core/ecs.ts:73-74 | A new world is empty. |
| EcsWorld.GameWorld.Add | src/scenes/strategy/2D/war-tactics/tests/scenarios/basic-combat.ts:23-25 | Adding an entity (the miniplex `world.add` callers use) appends it to the world. |
| EcsWorld.GameWorld.MoveUnit | src/scenes/strategy/2D/war-tactics/core/ecs.ts:257-261 | In place, the unit becomes moving with state `moving` and the destination set. It is the only entity that changes. |
| EcsWorld.GameWorld.EngageTarget | src/scenes/strategy/2D/war-tactics/core/ecs.ts:263-269 | The world becomes `EngageAt` of the old world. |
| EcsWorld.GameWorld.UpdateMorale | src/scenes/strategy/2D/war-tactics/core/ecs.ts:271-276 | Only the unit at the index changes, to `WithMorale` of it. |
| EcsWorld.GameWorld.Movement | src/scenes/strategy/2D/war-tactics/core/ecs.ts:77-97 | The in-place loop over the entities yields `MovementStep` of the old world. |
| EcsWorld.GameWorld.Fire | src/scenes/strategy/2D/war-tactics/core/ecs.ts:115-139 | One attacker firing on one enemy yields `Strike` of the old world. |
| EcsWorld.GameWorld.Attack | src/scenes/strategy/2D/war-tactics/core/ecs.ts:105-139 | An attacker's loop over its enemies, in world order, yields `AttackFrom`. |
| EcsWorld.GameWorld.Combat | src/scenes/strategy/2D/war-tactics/core/ecs.ts:99-141 | The nested in-place loops yield `CombatStep` of the old world. The engaged units are chosen before any shot. |
| EcsWorld.GameWorld.Morale | src/scenes/strategy/2D/war-tactics/core/ecs.ts:143-166 | The in-place loop yields `MoraleStep` of the old world. |
| EcsLemmas.MovementKeepsTerrain | src/scenes/strategy/2D/war-tactics/core/ecs.ts:77-97 | The movement system never changes a terrain node. |
| EcsLemmas.MovementOnlyAlongEdges | src/scenes/strategy/2D/war-tactics/core/ecs.ts:77-97 | A unit either stays exactly as it was or hops along an edge. A hop needs it to be moving to a non-empty destination listed in the connections of the first terrain node whose id is its zone. It then arrives idle, stopped and with no destination. |
| EcsLemmas.MovementBlockedWithoutEdge | src/scenes/strategy/2D/war-tactics/core/ecs.ts:80-94 | A moving unit with no destination, an empty one, no terrain node for its zone, or a first terrain node that does not list the destination is unchanged and still moving. |
| EcsLemmas.MovementAlongEdge | src/scenes/strategy/2D/war-tactics/core/ecs.ts:80-93 | A moving unit with a non-empty destination listed by the first terrain node of its zone arrives there, idle, stopped and with no destination. |
| EcsLemmas.MovementIgnoresStationary | src/scenes/strategy/2D/war-tactics/core/ecs.ts:79 | A unit that is not moving is untouched. |
| EcsLemmas.MovementIdempotent | src/scenes/strategy/2D/war-tactics/core/ecs.ts:77-97 | A second pass changes nothing, so every unit hops at most once per pass. |
| EcsLemmas.MovementKeepsValid | src/scenes/strategy/2D/war-tactics/core/ecs.ts:77-97 | Movement keeps every gauge in range. |
| EcsLemmas.MoraleRules | src/scenes/strategy/2D/war-tactics/core/ecs.ts:143-166 | Engaged units lose 5 per second, floored at 0. Units below 20 retreat. Idle units at 20 or above gain 2 per second, capped at 100. Other units keep their morale, and the only state change is to retreating. |
| EcsLemmas.MoraleKeepsValid | src/scenes/strategy/2D/war-tactics/core/ecs.ts:143-166 | With a non-negative step, morale that starts in [0, 100] stays there, and terrain is untouched. |
| EcsLemmas.MoraleLowRetreats | src/scenes/strategy/2D/war-tactics/core/ecs.ts:155-157 | After a morale pass every unit below 20 is retreating. |
| EcsLemmas.CoverModifierBounds | src/scenes/strategy/2D/war-tactics/core/ecs.ts:117-121 | The cover modifier lies in [0, 1]. |
| EcsLemmas.DamageNonNegative | src/scenes/strategy/2D/war-tactics/core/ecs.ts:121-126 | Damage is never negative. |
| EcsLemmas.StrikeKeepsValid | src/scenes/strategy/2D/war-tactics/core/ecs.ts:125-138 | One shot keeps the gauges valid and never raises morale or ammunition. |
| EcsLemmas.CombatKeepsValid | src/scenes/strategy/2D/war-tactics/core/ecs.ts:99-141 | With a non-negative step, combat keeps morale in [0, 100] and ammunition non-negative. Neither ever rises, and terrain is untouched. |
| EcsLemmas.CombatNeedsEngagement | src/scenes/strategy/2D/war-tactics/core/ecs.ts:100-103 | A world with no engaged unit is left as it is. |
| EcsLemmas.EnemyFrame | src/scenes/strategy/2D/war-tactics/core/ecs.ts:107-112 | Attackers with the same zone and faction have the same enemies in two worlds that differ only in morale, ammunition and state. |
| EcsLemmas.EnemyCountFrame | src/scenes/strategy/2D/war-tactics/core/ecs.ts:107-112 | Such attackers also have the same number of enemies. |
| EcsLemmas.CombatFrameTrans | src/scenes/strategy/2D/war-tactics/core/ecs.ts:99-141 | Changing only morale, ammunition and state, twice, changes only those. |
| EcsLemmas.AmmoAfterStep | src/scenes/strategy/2D/war-tactics/core/ecs.ts:130-133 | With a non-negative step, one shot followed by n more spends as much as n + 1 shots, and never adds ammunition. |
| EcsLemmas.AttackFromRule | src/scenes/strategy/2D/war-tactics/core/ecs.ts:105-139 | An attacker that fires on n enemies ends with max(0, ammunition − n·delta) rounds, or its old count when n is 0. It retreats exactly when it fired and ended below 10. No other entity's ammunition or state changes, and entities that are not its enemies are untouched. |
| EcsLemmas.CombatFromRule | src/scenes/strategy/2D/war-tactics/core/ecs.ts:99-141 | The rest of a pass, against the engaged units chosen at its start, applies that rule to each engaged unit. Units not engaged keep their ammunition and state, and units no engaged unit targets are untouched. |
| EcsLemmas.CombatRule | src/scenes/strategy/2D/war-tactics/core/ecs.ts:99-141 | Over any world: a unit that is not engaged keeps its ammunition and state, and is untouched unless it is an enemy of an engaged unit. An engaged unit spends delta per enemy in its zone (floored at 0) and retreats exactly when it fired and ended below 10 rounds; otherwise it stays engaged. |
| EcsLemmas.CombatRidgeExample | src/scenes/strategy/2D/war-tactics/core/ecs.ts:117-133 | An infantry squad engaged on a ridge (cover 80) for one second costs a co-located hostile squad exactly 1 morale and costs the attacker 1 round. |
| EcsLemmas.StrikeWithoutTerrainHarmless | src/scenes/strategy/2D/war-tactics/core/ecs.ts:121-123 | With no terrain node for the attacker's zone the modifier is 1, and the enemy is unharmed. |
| EcsLemmas.UpdateMoraleExample | src/scenes/strategy/2D/war-tactics/core/ecs.ts:271-276 | A drop of 90 from full morale leaves 10, and the unit retreats. |
| EcsLemmas.EngageSameZone | src/scenes/strategy/2D/war-tactics/core/ecs.ts:263-269 | Two units in the same zone both become engaged. |
| Victory.CountFaction | src/scenes/strategy/2D/war-tactics/core/machine.ts:95-102 | The count is zero exactly when no unit has the faction. |
| Victory.FriendlyAt | src/scenes/strategy/2D/war-tactics/core/machine.ts:116-118 | True exactly when some friendly unit stands in the zone. |
| Victory.ObjectivesHeld | src/scenes/strategy/2D/war-tactics/core/machine.ts:107-119 | True exactly when every objective has a friendly unit in the zone named by its id. |
| Victory.NoWorldNoOutcome | src/scenes/strategy/2D/war-tactics/core/machine.ts:91-137 | Without a world, no victory condition and no defeat holds. |
| Victory.VictoryExcludesDefeat | src/scenes/strategy/2D/war-tactics/core/machine.ts:104-137 | An elimination or survival victory excludes defeat, because both need a friendly unit. |
| Victory.DefeatIffNoFriendly | src/scenes/strategy/2D/war-tactics/core/machine.ts:128-137 | With a world, defeat holds exactly when no unit is friendly. |
| Victory.OccupationVacuous | src/scenes/strategy/2D/war-tactics/core/machine.ts:107-119 | A world without objectives satisfies occupation. |
| Victory.OccupationAndDefeatOverlap | src/scenes/strategy/2D/war-tactics/core/machine.ts:107-137 | The empty world satisfies occupation and defeat at once. |
| Victory.EliminationMeaning | src/scenes/strategy/2D/war-tactics/core/machine.ts:104-105 | Elimination holds exactly when no unit is hostile and some unit is friendly. |
| Victory.OccupationNeedsEveryObjective | src/scenes/strategy/2D/war-tactics/core/machine.ts:107-119 | One objective with no friendly unit in its zone defeats occupation. |
| Parser.NormalizeLocation | src/scenes/strategy/2D/war-tactics/core/parser.ts:6-8 | The result is present exactly when the input is a non-empty string. It is non-empty, has no whitespace and no upper-case letter. |
| Parser.NormalizeUnitName | src/scenes/strategy/2D/war-tactics/core/parser.ts:10-12 | The result neither starts nor ends with whitespace. |
| Parser.SplitAnd | src/scenes/strategy/2D/war-tactics/core/parser.ts:15 | Splitting always yields at least one piece. `ParserLemmas.SplitAndJoinAnd` states what the pieces are. |
| Parser.NormalizeModifiers | src/scenes/strategy/2D/war-tactics/core/parser.ts:14-16 | The modifiers are empty exactly when the input is missing or empty. |
| Parser.MatchMove | src/scenes/strategy/2D/war-tactics/core/parser.ts:19 | A match of the move template has a unit that starts and ends with a letter, a non-empty destination, a four-digit time ending in `Z` or `z` when present, and a non-empty clause when present. |
| Parser.MatchAttack | src/scenes/strategy/2D/war-tactics/core/parser.ts:20-21 | A match of the attack template has target and unit names that start and end with a letter, and a non-empty clause when present. |
| Parser.MatchDefend | src/scenes/strategy/2D/war-tactics/core/parser.ts:22-23 | A match of the defend template has a non-empty location and a unit that starts and ends with a letter. |
| Parser.MatchRetreat | src/scenes/strategy/2D/war-tactics/core/parser.ts:24-25 | A match of the retreat template has a unit that starts and ends with a letter, and a non-empty destination and condition when present. |
| Parser.MoveCase | src/scenes/strategy/2D/war-tactics/core/parser.ts:37-49 | A move order has a trimmed unit, a normalised destination (non-empty, no whitespace, lower case) and no target. Any time it carries is a well-formed time. |
| Parser.AttackCase | src/scenes/strategy/2D/war-tactics/core/parser.ts:50-58 | An attack order has a trimmed unit and a non-empty target, and no destination. |
| Parser.DefendCase | src/scenes/strategy/2D/war-tactics/core/parser.ts:59-70 | A defend order has a normalised destination and no modifiers. |
| Parser.RetreatCase | src/scenes/strategy/2D/war-tactics/core/parser.ts:71-81 | A retreat order has at most one modifier and no target. |
| Parser.ParseCommand | src/scenes/strategy/2D/war-tactics/core/parser.ts:28-86 | Every parsed order has the shape above. It is never a `support` order, its unit is non-empty and trimmed, and only a move carries a time. |
| ParserLemmas.NormalizeLocationIdempotent | src/scenes/strategy/2D/war-tactics/core/parser.ts:6-8 | Normalising a location twice is the same as normalising it once. |
| ParserLemmas.NormalizeTwoWords | src/scenes/strategy/2D/war-tactics/core/parser.ts:7 | A two-word location becomes both words in lower case, joined by one hyphen. |
| ParserLemmas.SplitAndSingleWord | src/scenes/strategy/2D/war-tactics/core/parser.ts:15 | A modifier text without whitespace is a single modifier. |
| ParserLemmas.SplitAndTwoWords | src/scenes/strategy/2D/war-tactics/core/parser.ts:15 | Two words joined by one space form a single modifier. |
| ParserLemmas.NoSepInWord | src/scenes/strategy/2D/war-tactics/core/parser.ts:15 | No separator starts inside an unbroken word. |
| ParserLemmas.SepAtAnd | src/scenes/strategy/2D/war-tactics/core/parser.ts:15 | " and " is a whole separator when the text after it does not start with whitespace. |
| ParserLemmas.SplitAndAtSeparator | src/scenes/strategy/2D/war-tactics/core/parser.ts:15 | An unbroken first piece followed by " and " is split off, and the split goes on from the text after the separator. |
| ParserLemmas.JoinAndStart | src/scenes/strategy/2D/war-tactics/core/parser.ts:15 | Modifiers joined by " and " start with the first modifier's first character. |
| ParserLemmas.SplitAndJoinAnd | src/scenes/strategy/2D/war-tactics/core/parser.ts:15 | Non-empty modifiers without whitespace, joined by " and ", split back into the same list. |
| ParserLemmas.MatchMoveOk | src/scenes/strategy/2D/war-tactics/core/parser.ts:19 | A well-formed move sentence matches the move template with its unit, place, time and clause as the captures. |
| ParserLemmas.MatchAttackOk | src/scenes/strategy/2D/war-tactics/core/parser.ts:20-21 | A well-formed attack sentence matches with its target and attacker as the captures. |
| ParserLemmas.MatchDefendOk | src/scenes/strategy/2D/war-tactics/core/parser.ts:22-23 | A well-formed defend sentence matches with its place and defender as the captures. |
| ParserLemmas.MatchRetreatOk | src/scenes/strategy/2D/war-tactics/core/parser.ts:24-25 | A well-formed retreat sentence matches with its unit, fallback and condition as the captures. |
| ParserLemmas.MoveBeforeFails | src/scenes/strategy/2D/war-tactics/core/parser.ts:19 | Once a one-word destination has swallowed the next keyword, the rest of a rendered move does not match. |
| ParserLemmas.DefendWithFails | src/scenes/strategy/2D/war-tactics/core/parser.ts:23 | A defender not called "with" cannot stand where the keyword is expected. |
| ParserLemmas.RetreatWhenFails | src/scenes/strategy/2D/war-tactics/core/parser.ts:25 | A clause that does not start with "when" does not match the condition part. |
| ParserLemmas.SentenceOfCommandSplits | src/scenes/strategy/2D/war-tactics/core/parser.ts:29 | Trimming and splitting a command sentence gives back its words. |
| ParserLemmas.ParseByMove | src/scenes/strategy/2D/war-tactics/core/parser.ts:32-49 | When the move template matches, it decides the result. |
| ParserLemmas.ParseByAttack | src/scenes/strategy/2D/war-tactics/core/parser.ts:32-58 | When only the attack template (and not move) matches, it decides the result. |
| ParserLemmas.ParseByDefend | src/scenes/strategy/2D/war-tactics/core/parser.ts:32-70 | When defend is the first template to match, it decides the result. |
| ParserLemmas.ParseByRetreat | src/scenes/strategy/2D/war-tactics/core/parser.ts:32-81 | When retreat is the first template to match, it decides the result. |
| ParserLemmas.MoveCaseExpected | src/scenes/strategy/2D/war-tactics/core/parser.ts:37-49 | The captures of a well-formed move build the expected order. |
| ParserLemmas.AttackCaseExpected | src/scenes/strategy/2D/war-tactics/core/parser.ts:50-58 | The captures of a well-formed attack build the expected order, with the unit after "with" and the target before it. |
| ParserLemmas.DefendCaseExpected | src/scenes/strategy/2D/war-tactics/core/parser.ts:59-70 | The captures of a well-formed defend build the expected order. |
| ParserLemmas.RetreatCaseExpected | src/scenes/strategy/2D/war-tactics/core/parser.ts:71-81 | The captures of a well-formed retreat build the expected order. |
| ParserLemmas.ParseSentence | src/scenes/strategy/2D/war-tactics/core/parser.ts:28-86 | Every well-formed command, with its command word in any case, parses to the order it stands for. That order is defined without the matchers. |
| ParserLemmas.ParseRender | src/scenes/strategy/2D/war-tactics/core/parser.ts:28-86 | Every well-formed command, rendered as a sentence, parses back to the order it stands for. |
| ParserExamples.CapitalMove | src/scenes/strategy/2D/war-tactics/core/parser.ts:19 | "Move" with a capital letter is accepted as the move word. |
| ParserExamples.ComplexMoveExpected | src/scenes/strategy/2D/war-tactics/tests/basic-combat.test.ts:86-97 | The command shape of the repository's complex-move example is well formed, and it stands for a move with a hyphenated lower-case destination and one modifier. |
| ParserExamples.ComplexMoveCommand | src/scenes/strategy/2D/war-tactics/tests/basic-combat.test.ts:86-97 | "Move A Squad to X Y under M N" gives unit "A Squad", destination "x-y" and modifiers ["m n"], for any letter words. So "Valley Beta" gives `valley-beta`. |
| ParserExamples.MisreadExpected | src/scenes/strategy/2D/war-tactics/core/parser.ts:19 | A one-word destination followed by "under before" stands for the misread order. |
| ParserExamples.KeywordAfterDestinationMisread | src/scenes/strategy/2D/war-tactics/core/parser.ts:19 | "move A to X under before T" is read with "under" as the destination's second word, giving "x-under" with time T and no modifiers. |
| ParserExamples.ParseNoMatch | src/scenes/strategy/2D/war-tactics/core/parser.ts:85 | When no template matches, the result is null. |
| ParserExamples.HyphenatedDestinationRejected | src/scenes/strategy/2D/war-tactics/core/ttw-demo.ts:69 | The demo's hint "move Alpha to Ridge-3" is rejected. |
| ParserExamples.HyphenatedTargetRejected | src/scenes/strategy/2D/war-tactics/core/ttw-demo.ts:69 | The demo's hint "attack Enemy-1 with Bravo" is rejected. |
| GameLoop.MissionSecondsFloor | src/scenes/strategy/2D/war-tactics/core/machine-two.ts:156-158 | The rendered seconds are the floor of the elapsed milliseconds divided by 1000. |
| GameLoop.LogText | src/scenes/strategy/2D/war-tactics/core/machine-two.ts:155-161 | The structured log renders line by line, one string per entry. |
| GameLoop.GameLoopMachine.constructor | src/scenes/strategy/2D/war-tactics/core/machine-two.ts:336-354 | A new machine is `idle` with the input's fields and the defaults: 5000 ms ticks, turn-based, elimination, no world. |
| GameLoop.GameLoopMachine.CheckOutcome | src/scenes/strategy/2D/war-tactics/core/machine-two.ts:435-439 | Takes the eventless transitions of `running`: victory, then defeat, then mission-time expiry. |
| GameLoop.GameLoopMachine.RunTick | src/scenes/strategy/2D/war-tactics/core/machine-two.ts:479-485 | Runs the tick pipeline in order (tick, orders, archive, simulation on the world in place, reports), equal to `TickStep`. |
| GameLoop.GameLoopMachine.Reset | src/scenes/strategy/2D/war-tactics/core/machine-two.ts:314-326 | Drops the world and clears the counters, queues, reports and error. |
| GameLoop.GameLoopMachine.Initialize | src/scenes/strategy/2D/war-tactics/core/machine-two.ts:135-147 | Builds a fresh empty world and clears the counters and queues. |
| GameLoop.GameLoopMachine.EnterTurnBasedMode | src/scenes/strategy/2D/war-tactics/core/machine-two.ts:442-445 | Enters `turnBased` and logs it. |
| GameLoop.GameLoopMachine.EnterRealTimeMode | src/scenes/strategy/2D/war-tactics/core/machine-two.ts:457-460 | Enters `realTime` and logs it. |
| GameLoop.GameLoopMachine.Fail | src/scenes/strategy/2D/war-tactics/core/machine-two.ts:305-312 | Records the error, logs it, and enters `error` with its entry line. |
| GameLoop.GameLoopMachine.OnStartGame | src/scenes/strategy/2D/war-tactics/core/machine-two.ts:358-361 | START_GAME in `idle` or `error` initialises the game and enters `initializing`. |
| GameLoop.GameLoopMachine.OnTick | src/scenes/strategy/2D/war-tactics/core/machine-two.ts:468-469 | TICK in `realTime` runs a tick stamped with the timer's timestamp. |
| GameLoop.GameLoopMachine.OnSubmitOrder | src/scenes/strategy/2D/war-tactics/core/machine-two.ts:517-528 | SUBMIT_ORDER queues the order in `running` and `paused`. |
| GameLoop.GameLoopMachine.OnPauseGame | src/scenes/strategy/2D/war-tactics/core/machine-two.ts:392 | PAUSE_GAME in `running` enters `paused`. |
| GameLoop.GameLoopMachine.OnResumeGame | src/scenes/strategy/2D/war-tactics/core/machine-two.ts:509-515 | RESUME_GAME in `paused` re-enters `running` at `turnBased`. |
| GameLoop.GameLoopMachine.OnEndTurn | src/scenes/strategy/2D/war-tactics/core/machine-two.ts:449-473 | END_TURN advances the turn, and in `turnBased` it also runs a tick. |
| GameLoop.GameLoopMachine.OnAdvanceTick | src/scenes/strategy/2D/war-tactics/core/machine-two.ts:448 | ADVANCE_TICK in `turnBased` runs a tick. |
| GameLoop.GameLoopMachine.OnSetRealTime | src/scenes/strategy/2D/war-tactics/core/machine-two.ts:395-406 | SET_REAL_TIME in `running` stores the flag and enters the matching mode. |
| GameLoop.GameLoopMachine.OnChangeTickSpeed | src/scenes/strategy/2D/war-tactics/core/machine-two.ts:426-428 | CHANGE_TICK_SPEED in `running` stores the new tick duration. |
| GameLoop.GameLoopMachine.OnMissionComplete | src/scenes/strategy/2D/war-tactics/core/machine-two.ts:409-418 | MISSION_COMPLETE in `running` enters `victory`. |
| GameLoop.GameLoopMachine.OnMissionFailed | src/scenes/strategy/2D/war-tactics/core/machine-two.ts:419-425 | MISSION_FAILED in `running` enters `defeat`. |
| GameLoop.GameLoopMachine.OnError | src/scenes/strategy/2D/war-tactics/core/machine-two.ts:429-432 | ERROR in `initializing` or `running` enters `error`. |
| GameLoop.GameLoopMachine.OnResetGame | src/scenes/strategy/2D/war-tactics/core/machine-two.ts:529-532 | RESET_GAME in `idle`, `paused` or `error` resets and enters `idle`. |
| GameLoop.GameLoopMachine.OnDelayElapsed | src/scenes/strategy/2D/war-tactics/core/machine-two.ts:487-498 | The pending delay of `initializing` or `processingTick` runs out and the machine moves on. |
| GameLoopLemmas.SettleFacts | src/scenes/strategy/2D/war-tactics/core/machine-two.ts:435-439 | The eventless transitions only append final log lines and may end the game. A settled running machine is left as it is. |
| GameLoopLemmas.InitialSettled | src/scenes/strategy/2D/war-tactics/core/machine-two.ts:355-356 | The machine starts `idle`, without a world and with nothing left to settle. |
| GameLoopLemmas.StepKeepsSettled | src/scenes/strategy/2D/war-tactics/core/machine-two.ts:435-439 | After every event the machine has taken all its eventless transitions. |
| GameLoopLemmas.TickCounters | src/scenes/strategy/2D/war-tactics/core/machine-two.ts:149-152 | A tick advances the tick counter and the mission timer by exactly one. It changes neither the turn count nor the configuration. |
| GameLoopLemmas.TickLogWindow | src/scenes/strategy/2D/war-tactics/core/machine-two.ts:155-161 | The tick keeps the last 50 log lines and appends its line, so right after it the log has at most 51 lines. |
| GameLoopLemmas.TickLineText | src/scenes/strategy/2D/war-tactics/core/machine-two.ts:156-158 | A manual tick logs "Manual advance". A timer tick logs the whole seconds of mission time, rounded down. |
| GameLoopLemmas.TickOrders | src/scenes/strategy/2D/war-tactics/core/machine-two.ts:165-215 | Within a tick, both queues end empty. The completed list grows by the active orders and then the pending ones, in order, and no order is lost or duplicated. |
| GameLoopLemmas.TickSitreps | src/scenes/strategy/2D/war-tactics/core/machine-two.ts:243-252 | With a world, the tick keeps the last 10 reports and appends one, so there are at most 11. Without a world the reports are untouched. |
| GameLoopLemmas.TickLogs | src/scenes/strategy/2D/war-tactics/core/machine-two.ts:149-258 | A tick writes two to four lines after the kept window. The report line comes last. |
| GameLoopLemmas.AdvanceTickRouting | src/scenes/strategy/2D/war-tactics/core/machine-two.ts:447-448 | ADVANCE_TICK is handled only in `turnBased`, where it runs exactly one tick without counting a turn. |
| GameLoopLemmas.TickRouting | src/scenes/strategy/2D/war-tactics/core/machine-two.ts:468-469 | TICK is handled only in `realTime`, where it runs one tick stamped with its timestamp. |
| GameLoopLemmas.EndTurnTurnBased | src/scenes/strategy/2D/war-tactics/core/machine-two.ts:449-452 | END_TURN in `turnBased` counts a turn and runs a tick. |
| GameLoopLemmas.EndTurnRealTime | src/scenes/strategy/2D/war-tactics/core/machine-two.ts:470-473 | END_TURN in `realTime` only counts a turn: no tick runs, the queues are untouched, and the machine stays unless a survival game is won. |
| GameLoopLemmas.SetRealTimeEnters | src/scenes/strategy/2D/war-tactics/core/machine-two.ts:395-406 | SET_REAL_TIME, from any child of `running`, stores the flag and enters the matching mode. |
| GameLoopLemmas.ProcessingTickReturns | src/scenes/strategy/2D/war-tactics/core/machine-two.ts:487-498 | After the tick delay the machine returns to `realTime` exactly when the real-time flag is set, and to `turnBased` otherwise. |
| GameLoopLemmas.PauseOnlyFromRunning | src/scenes/strategy/2D/war-tactics/core/machine-two.ts:392 | PAUSE_GAME is accepted only in `running`. |
| GameLoopLemmas.SubmitWhilePaused | src/scenes/strategy/2D/war-tactics/core/machine-two.ts:517-528 | While paused, an order is still queued and both log lines are written. |
| GameLoopLemmas.SubmitRouting | src/scenes/strategy/2D/war-tactics/core/machine-two.ts:389-391 | SUBMIT_ORDER queues the order in `running` and `paused` and is ignored elsewhere. |
| GameLoopLemmas.ResumeToTurnBased | src/scenes/strategy/2D/war-tactics/core/machine-two.ts:509-515 | RESUME_GAME enters `turnBased` even in real-time mode, and keeps the flag. |
| GameLoopLemmas.FinalStatesAbsorb | src/scenes/strategy/2D/war-tactics/core/machine-two.ts:536-557 | `victory` and `defeat` ignore every event. |
| GameLoopLemmas.VictoryGuard | src/scenes/strategy/2D/war-tactics/core/machine-two.ts:100-131 | Victory needs a world. Elimination and occupation never win, survival wins from turn 20, and a time limit wins while the timer is below a non-zero limit. The defeat guard never holds. |
| GameLoopLemmas.ExpiryWithoutWorld | src/scenes/strategy/2D/war-tactics/core/machine-two.ts:95-99 | The expiry guard ignores the world: a machine without one still loses when its timer reaches the limit. |
| GameLoopLemmas.TimeLimitWonAtStart | src/scenes/strategy/2D/war-tactics/core/machine-two.ts:116-120 | A time-limit game is won the moment it starts running. |
| GameLoopLemmas.SurvivalWonOnTwentiethTurn | src/scenes/strategy/2D/war-tactics/core/machine-two.ts:113-115 | In a survival game with a world, the END_TURN in `realTime` that brings the turn count to 20 wins. |
| GameLoopLemmas.ResetAccepted | src/scenes/strategy/2D/war-tactics/core/machine-two.ts:314-326 | RESET_GAME in `idle`, `paused` or `error` gives `idle` with no world, zero counters, empty queues and reports, no error, and exactly the log `Game reset`. |
| GameLoopLemmas.ResetIgnoredElsewhere | src/scenes/strategy/2D/war-tactics/core/machine-two.ts:385-434 | RESET_GAME is ignored in `initializing`, `running` and the final states. |
| GameLoopLemmas.ErrorRouting | src/scenes/strategy/2D/war-tactics/core/machine-two.ts:377-383 | ERROR is accepted only in `initializing` and `running`. It records the message, writes two log lines and enters `error`. |
| GameLoopLemmas.StartFromError | src/scenes/strategy/2D/war-tactics/core/machine-two.ts:571-574 | START_GAME from `error` returns to `initializing` with a fresh world and a cleared context. |
| GameLoopLemmas.OrdersArchivedInOrder | src/scenes/strategy/2D/war-tactics/core/machine-two.test.ts:937-956 | Orders submitted in `turnBased` are archived in submission order by the next manual tick. |
| GameLoopLemmas.DefaultGameStarts | src/scenes/strategy/2D/war-tactics/core/machine-two.ts:368-376 | A default game, started and past its start-up delay, is in `turnBased` with a world and nothing counted. |
| GameLoopLemmas.ManualTickReturns | src/scenes/strategy/2D/war-tactics/core/machine-two.ts:478-498 | A manual tick plus its delay returns to `turnBased` one tick later, with one more report. |
| GameLoopLemmas.FirstManualTick | src/scenes/strategy/2D/war-tactics/core/machine-two.test.ts:145-154 | A fresh game, started and advanced by hand once, shows one tick and one report and is back in `turnBased`. |
| LogicRules.ParseUnitType | src/scenes/strategy/2D/war-tactics/core/machine-logic.ts:91-94 | Gives the unit type whose name is the string, or none when no type has that name. |
| LogicRules.PersonalityFor | src/scenes/strategy/2D/war-tactics/core/machine-logic.ts:51-95 | A known type gets its profile and an unknown one the Infantry profile. No profile refuses orders or is unpredictable. Morale thresholds lie in 0..50 and adaptive thresholds in 40..90. |
| LogicRules.InitialSupplies | src/scenes/strategy/2D/war-tactics/core/machine-logic.ts:39-49 | A fresh unit has ammunition 100, fuel 100, communications on, morale 85 and fatigue 10. |
| LogicRules.DegradeSupply | src/scenes/strategy/2D/war-tactics/core/machine-logic.ts:602-621 | One step keeps the gauges in [0, 100]. Communications end on exactly when not jammed. |
| LogicRules.SupplyOf | src/scenes/strategy/2D/war-tactics/core/machine-logic.ts:332 | The lookup finds an entry for the unit, or none exactly when there is no entry for it. |
| LogicRules.DegradeAll | src/scenes/strategy/2D/war-tactics/core/machine-logic.ts:606-629 | Every entry, in order, is degraded one step, and no entry is added or dropped. |
| LogicRules.ValidationMessages | src/scenes/strategy/2D/war-tactics/core/machine-logic.ts:385-416 | Each error renders as its message, in order. |
| LogicRules.OrderErrors | src/scenes/strategy/2D/war-tactics/core/machine-logic.ts:380-420 | Without a world the only error is "No game world available". With a world there are at most two errors. The unit error occurs exactly when no entity has the unit's name. The destination error occurs exactly for a move with a non-empty destination that is no entity's id. The target error occurs exactly for an attack with a non-empty target that is no entity's name. |
| LogicRules.WillAccept | src/scenes/strategy/2D/war-tactics/core/machine-logic.ts:327-353 | Accepts with no order, or with no personality or supply record. Otherwise it accepts exactly when the order is not an attack below the morale threshold or with under 20 ammunition, and the unit does not refuse orders. |
| LogicRules.AdaptOrder | src/scenes/strategy/2D/war-tactics/core/machine-logic.ts:656-675 | A cautious unit's order gains "request backup" and "proceed with caution". Any other order, and every other field, is unchanged. |
| LogicRules.ReconConfidence | src/scenes/strategy/2D/war-tactics/core/machine-logic.ts:541-546 | UAV reports get high priority and scout reports medium. |
| LogicRules.CombatConfidence | src/scenes/strategy/2D/war-tactics/core/machine-logic.ts:850-853 | Combat reports have confidence 75 on clear communications and 50 otherwise, never below 30. |
| LogicRules.UnitSitrep | src/scenes/strategy/2D/war-tactics/core/machine-logic.ts:485-525 | A named unit with a supply record and under 20 ammunition gets a supply warning. Otherwise, with morale under 30, it gets a critical status report. Any other report is informational, and a report with no unit covers all units. |
| LogicRules.IntelEntry | src/scenes/strategy/2D/war-tactics/core/machine-logic.ts:548-557 | The intel report keeps the confidence, and its priority follows from it. |
| LogicRules.IntelSitrep | src/scenes/strategy/2D/war-tactics/core/machine-logic.ts:577-592 | The intel report's tag and severity follow from the confidence. |
| LogicRules.ShortageReport | src/scenes/strategy/2D/war-tactics/core/machine-logic.ts:639-646 | A shortage report is a critical supply report about the record's unit. |
| LogicRules.ShortageReports | src/scenes/strategy/2D/war-tactics/core/machine-logic.ts:634-651 | At most one report per supply record, each a critical supply report. There are none when every unit has 10 or more ammunition. |
| LogicLemmas.ShortageReportsExact | src/scenes/strategy/2D/war-tactics/core/machine-logic.ts:637-648 | Exactly one report per record with ammunition below 10, in record order: the report for record k sits after the reports of the short records before it, and there are no others. |
| LogicMachine.OrderEffect | src/scenes/strategy/2D/war-tactics/core/machine-logic.ts:425-463 | Executing an order keeps the world's size. Lemmas below state what moves. |
| LogicMachine.TacticalLogic.constructor | src/scenes/strategy/2D/war-tactics/core/machine-logic.ts:915-936 | A new machine is `idle` with the input's fields and the defaults: elimination, clear communications, empty report lists. |
| LogicMachine.TacticalLogic.ProcessSupplies | src/scenes/strategy/2D/war-tactics/core/machine-logic.ts:599-632 | The in-place loop over the supply records yields `DegradeAll`. |
| LogicMachine.TacticalLogic.OnGameLoopTick | src/scenes/strategy/2D/war-tactics/core/machine-logic.ts:939-958 | In `idle` a tick adopts the loop's world. In `active` it degrades the supplies and then stops the machine. |
| LogicMachine.TacticalLogic.ApplyOrder | src/scenes/strategy/2D/war-tactics/core/machine-logic.ts:425-463 | The ECS actions on the shared world yield `OrderEffect` of the old world. |
| LogicMachine.TacticalLogic.RunOrder | src/scenes/strategy/2D/war-tactics/core/machine-logic.ts:424-482 | The entry of `executingOrder`: apply the order, file a report, clear the order and the errors. |
| LogicMachine.TacticalLogic.OnValidateOrder | src/scenes/strategy/2D/war-tactics/core/machine-logic.ts:961-971 | VALIDATE_ORDER in `active`: stale errors stop the machine at the failure notice. Otherwise the order is validated; adapting or refusing stops the machine, and accepting runs the order's execution entry. |
| LogicMachine.TacticalLogic.OnProcessCombat | src/scenes/strategy/2D/war-tactics/core/machine-logic.ts:837-886 | Runs combat on the shared world and files a combat result and a contact report. |
| LogicMachine.TacticalLogic.OnUpdateMorale | src/scenes/strategy/2D/war-tactics/core/machine-logic.ts:889-898 | Runs the morale system on the shared world. |
| LogicMachine.TacticalLogic.Record | src/scenes/strategy/2D/war-tactics/core/machine-logic.ts:529-596 | Files an intel report and its situation report. |
| LogicMachine.TacticalLogic.OnUpdateIntel | src/scenes/strategy/2D/war-tactics/core/machine-logic.ts:981-983 | UPDATE_INTEL in `active` files the given report. |
| LogicMachine.TacticalLogic.OnReconReport | src/scenes/strategy/2D/war-tactics/core/machine-logic.ts:997-999 | RECON_REPORT in `active` files a report whose confidence follows from the source. |
| LogicMachine.TacticalLogic.OnGenerateSitrep | src/scenes/strategy/2D/war-tactics/core/machine-logic.ts:485-526 | GENERATE_SITREP in `active` files a unit's or the general report. |
| LogicMachine.TacticalLogic.OnCommunicationJammed | src/scenes/strategy/2D/war-tactics/core/machine-logic.ts:695-709 | Sets communications to jammed and files a critical report. |
| LogicMachine.TacticalLogic.OnCommunicationRestored | src/scenes/strategy/2D/war-tactics/core/machine-logic.ts:711-725 | Sets communications to clear and files a report. |
| LogicMachine.TacticalLogic.Notify | src/scenes/strategy/2D/war-tactics/core/machine-logic.ts:900-910 | A completion or failure notice stops the machine and keeps its context and world, because no child actor is named `gameLoop`. |
| LogicMachine.TimeCheckResolves | src/scenes/strategy/2D/war-tactics/core/machine-logic.ts:218-247 | The time-check promise resolves only if an order is held, or if a constraint is recorded under the key and its deadline is still ahead. |
| LogicMachine.TacticalLogic.OnConstraintCheckSettled | src/scenes/strategy/2D/war-tactics/core/machine-logic.ts:1064-1083 | In `executingOrder`, when the time-check promise settles, the notice that follows (`onDone` or `onError`) stops the machine. |
| LogicMachine.TacticalLogic.OnExecutionDelayElapsed | src/scenes/strategy/2D/war-tactics/core/machine-logic.ts:1085-1091 | The 100 ms delay is taken when `timeConstraintMet` holds, and its completion notice stops the machine. |
| LogicMachine.TacticalLogic.OnCheckTimeConstraints | src/scenes/strategy/2D/war-tactics/core/machine-logic.ts:1093-1106 | CHECK_TIME_CONSTRAINTS in `executingOrder` stops the machine on either branch. |
| LogicLemmas.InitialBounded | src/scenes/strategy/2D/war-tactics/core/machine-logic.ts:922-935 | A new machine holds at most 50 situation reports, 30 intel reports and 20 combat results. |
| LogicLemmas.StepKeepsBounded | src/scenes/strategy/2D/war-tactics/core/machine-logic.ts:938-1001 | Every event keeps those three bounds. |
| LogicLemmas.IntelKeepsBounded | src/scenes/strategy/2D/war-tactics/core/machine-logic.ts:559-594 | Filing intel keeps at most 30 intel reports and 50 situation reports. |
| LogicLemmas.SitrepKeepsBounded | src/scenes/strategy/2D/war-tactics/core/machine-logic.ts:524 | GENERATE_SITREP keeps the bounds. |
| LogicLemmas.CommsKeepBounded | src/scenes/strategy/2D/war-tactics/core/machine-logic.ts:695-725 | Jamming and restoring keep the bounds. |
| LogicLemmas.ValidateKeepsBounded | src/scenes/strategy/2D/war-tactics/core/machine-logic.ts:477 | VALIDATE_ORDER and the execution report keep the bounds. |
| LogicLemmas.CombatKeepsBounded | src/scenes/strategy/2D/war-tactics/core/machine-logic.ts:852-883 | PROCESS_COMBAT keeps at most 20 combat results and 50 reports. |
| LogicLemmas.SitrepIsNewest | src/scenes/strategy/2D/war-tactics/core/machine-logic.ts:515-524 | A report filed in `active` is the newest one kept. |
| LogicLemmas.InitialNoOrderHeld | src/scenes/strategy/2D/war-tactics/core/machine-logic.ts:919 | A new machine holds no order. |
| LogicLemmas.StepKeepsNoOrderHeld | src/scenes/strategy/2D/war-tactics/core/machine-logic.ts:480 | No step leaves an order held. |
| LogicLemmas.ErrorsNeverChange | src/scenes/strategy/2D/war-tactics/core/machine-logic.ts:480-481 | With no stale errors, or outside `active`, no event changes the error list. |
| LogicLemmas.StaleErrorsStopMachine | src/scenes/strategy/2D/war-tactics/core/machine-logic.ts:961-971 | With errors left from before, every VALIDATE_ORDER takes the failure branch, whatever the order. Its notice stops the machine with the context it had. |
| LogicLemmas.CleanValidationNeverRejects | src/scenes/strategy/2D/war-tactics/core/machine-logic.ts:1017-1037 | With no stale errors, VALIDATE_ORDER never takes the failure branch. It reaches `executingOrder` exactly when the unit neither adapts as a cautious unit nor refuses. |
| LogicLemmas.AdaptingCrashes | src/scenes/strategy/2D/war-tactics/core/machine-logic.ts:1040-1048 | A cautious unit that adapts stops the machine and keeps the context from before the event. |
| LogicLemmas.RefusingCrashes | src/scenes/strategy/2D/war-tactics/core/machine-logic.ts:1050-1059 | A refusing unit stops the machine in the same way. |
| LogicLemmas.MissingUnitStillExecuted | src/scenes/strategy/2D/war-tactics/core/machine-logic.ts:390-396 | An order for a missing unit without a personality record is found wanting and executed anyway. The world is unchanged and the errors are cleared. |
| LogicLemmas.MoveOrderMovesUnit | src/scenes/strategy/2D/war-tactics/core/machine-logic.ts:437-442 | A move whose unit is found moves that unit toward the destination and changes no other entity. |
| LogicLemmas.OrderEffectInert | src/scenes/strategy/2D/war-tactics/core/machine-logic.ts:430-460 | A missing unit, or an order that neither moves nor attacks, leaves the world as it was. |
| LogicLemmas.TimeCheckResolution | src/scenes/strategy/2D/war-tactics/core/machine-logic.ts:1064-1073 | With no order held, the time-check promise resolves exactly when a constraint is recorded under the empty key and its deadline is still ahead. |
| LogicLemmas.ConstraintCheckCrashes | src/scenes/strategy/2D/war-tactics/core/machine-logic.ts:1074-1081 | However the time-check promise settles, the machine stops with the context it had. |
| LogicLemmas.TimeCheckCrashes | src/scenes/strategy/2D/war-tactics/core/machine-logic.ts:1093-1106 | CHECK_TIME_CONSTRAINTS in `executingOrder` stops the machine with the context it had. |
| LogicLemmas.DelayCrashes | src/scenes/strategy/2D/war-tactics/core/machine-logic.ts:1085-1091 | With no order held, `timeConstraintMet` always holds, so the 100 ms delay always fires and stops the machine. |
| LogicLemmas.ExecutingOnlyCrashes | src/scenes/strategy/2D/war-tactics/core/machine-logic.ts:1060-1107 | In `executingOrder` every event either changes nothing or stops the machine with the context it had. |
| LogicLemmas.NoOrderAfterExecuting | src/scenes/strategy/2D/war-tactics/core/machine-logic.ts:1060-1107 | Once an order is executing, no run of events returns the machine to `active`. The context and world stay as they were. |
| LogicLemmas.IdleWaitsForTick | src/scenes/strategy/2D/war-tactics/core/machine-logic.ts:939-946 | In `idle` only GAME_LOOP_TICK has an effect. |
| LogicLemmas.StepKeepsSuppliesInRange | src/scenes/strategy/2D/war-tactics/core/machine-logic.ts:606-621 | Every supply gauge stays in [0, 100] through every event. |
| LogicLemmas.ActiveTickCrashes | src/scenes/strategy/2D/war-tactics/core/machine-logic.ts:952-958 | In `active`, a tick stops the machine. Only the supply records change: none is added or dropped, and none gains ammunition. |
| LogicLemmas.CrashedAbsorbs | src/scenes/strategy/2D/war-tactics/core/machine-logic.ts:487 | A stopped machine ignores every event. |
| LogicLemmas.SecondTickCrashes | src/scenes/strategy/2D/war-tactics/core/machine-logic.ts:941-958 | Two ticks from `idle` always stop the machine. |
| LogicLemmas.DegradeSupplyMonotone | src/scenes/strategy/2D/war-tactics/core/machine-logic.ts:606-621 | A step never raises ammunition, fuel or morale and never lowers fatigue. Ammunition drops exactly when it is positive. |
| LogicLemmas.JammedDegradesFaster | src/scenes/strategy/2D/war-tactics/core/machine-logic.ts:602-621 | Jammed communications degrade every gauge at least as fast as clear ones. |
| LogicLemmas.LowStockCostsMorale | src/scenes/strategy/2D/war-tactics/core/machine-logic.ts:612-614 | With clear communications, morale drops by 2 (floored at 0) exactly when the degraded ammunition or fuel is under 20. |
| LogicLemmas.AmmunitionAfter | src/scenes/strategy/2D/war-tactics/core/machine-logic.ts:607 | After n steps the ammunition is its start less n times the rate, floored at 0. |
| LogicLemmas.FreshSuppliesLast | src/scenes/strategy/2D/war-tactics/core/machine-logic.ts:39-49 | A fresh unit has 1 round after 99 clear steps, none after 100, and none after 50 jammed steps. |
| LogicLemmas.OnlyAttacksRefused | src/scenes/strategy/2D/war-tactics/core/machine-logic.ts:337-352 | With profiles that never refuse, only an attack is refused. A refused attack has both records and is below the morale threshold or under 20 ammunition. |
| LogicLemmas.UavAcceptsWithAmmunition | src/scenes/strategy/2D/war-tactics/core/machine-logic.ts:83-88 | A UAV with 20 or more ammunition accepts every order. |
| LogicLemmas.IntelClassesAgree | src/scenes/strategy/2D/war-tactics/core/machine-logic.ts:555-591 | Priority, tag and severity change at the same thresholds, and no report is ever critical priority. |
| LogicLemmas.PriorityMonotone | src/scenes/strategy/2D/war-tactics/core/machine-logic.ts:555-556 | More confidence never gives a lower priority. |
| LogicLemmas.ErrorsAccumulate | src/scenes/strategy/2D/war-tactics/core/machine-logic.ts:390-407 | A move for a missing unit to a missing zone collects both errors, unit first. |
| GameMachine.MovingNames | src/scenes/strategy/2D/war-tactics/core/machine.ts:321-323 | Names exactly the units that are moving. |
| GameMachine.EngagedNames | src/scenes/strategy/2D/war-tactics/core/machine.ts:324-326 | Names exactly the units that are engaged. |
| GameMachine.MoveEffect | src/scenes/strategy/2D/war-tactics/core/machine.ts:202-238 | `executeMove` keeps the world's size. Lemmas below state what moves. |
| GameMachine.WarTactics.constructor | src/scenes/strategy/2D/war-tactics/core/machine.ts:351-366 | A new machine is `initializing` with the input's fields and a fresh empty world. |
| GameMachine.WarTactics.CheckOutcome | src/scenes/strategy/2D/war-tactics/core/machine.ts:478-481 | The eventless checks of `running`: victory first, then defeat. |
| GameMachine.WarTactics.BeginTurn | src/scenes/strategy/2D/war-tactics/core/machine.ts:263-269 | Entering `running` counts a turn, logs it and runs the checks. |
| GameMachine.WarTactics.OnGameReady | src/scenes/strategy/2D/war-tactics/core/machine.ts:370 | GAME_READY in `initializing` waits for a command. |
| GameMachine.WarTactics.OnSubmitOrder | src/scenes/strategy/2D/war-tactics/core/machine.ts:394-401 | SUBMIT_ORDER stores the order and enters `processingOrder`. |
| GameMachine.WarTactics.OnOrderValid | src/scenes/strategy/2D/war-tactics/core/machine.ts:405 | ORDER_VALID enters `executingOrder` and logs the order. |
| GameMachine.WarTactics.OnOrderInvalid | src/scenes/strategy/2D/war-tactics/core/machine.ts:406 | ORDER_INVALID returns to `awaitingCommand`. |
| GameMachine.WarTactics.ExecuteMove | src/scenes/strategy/2D/war-tactics/core/machine.ts:202-238 | The ECS actions on the shared world yield `MoveEffect` of the old world. |
| GameMachine.WarTactics.OnExecutionDelay | src/scenes/strategy/2D/war-tactics/core/machine.ts:411-422 | For a move or an attack, the delay applies the order and enters `running`. |
| GameMachine.WarTactics.OnOrderComplete | src/scenes/strategy/2D/war-tactics/core/machine.ts:424-433 | ORDER_COMPLETE logs, forgets the order and enters `running`. |
| GameMachine.WarTactics.OnOrderFailed | src/scenes/strategy/2D/war-tactics/core/machine.ts:434-440 | ORDER_FAILED logs, forgets the order and waits for a command. |
| GameMachine.WarTactics.OnError | src/scenes/strategy/2D/war-tactics/core/machine.ts:239-248 | ERROR records and logs the message and enters `error`. |
| GameMachine.WarTactics.OnRetry | src/scenes/strategy/2D/war-tactics/core/machine.ts:379 | RETRY re-enters `initializing` with a fresh world. |
| GameMachine.WarTactics.OnReset | src/scenes/strategy/2D/war-tactics/core/machine.ts:380-392 | RESET clears the context and re-enters `initializing` with a fresh world. |
| GameMachine.WarTactics.OnEndTurn | src/scenes/strategy/2D/war-tactics/core/machine.ts:309-343 | END_TURN counts a turn, runs morale on the shared world, logs the effects and waits for a command. |
| GameMachine.WarTactics.OnPause | src/scenes/strategy/2D/war-tactics/core/machine.ts:461-466 | PAUSE or RESUME sets `isPaused`. |
| GameMachine.WarTactics.OnSaveGame | src/scenes/strategy/2D/war-tactics/core/machine.ts:250-253 | SAVE_GAME records the save time and logs it. |
| GameMachine.WarTactics.OnLoadGame | src/scenes/strategy/2D/war-tactics/core/machine.ts:255-261 | LOAD_GAME stores the state and logs it. |
| GameMachineLemmas.InitialSettled | src/scenes/strategy/2D/war-tactics/core/machine.ts:351-368 | A new machine has no eventless transition pending. |
| GameMachineLemmas.StepKeepsSettled | src/scenes/strategy/2D/war-tactics/core/machine.ts:478-481 | After every event a machine in `running` has taken its eventless transitions. |
| GameMachineLemmas.VictoryBeforeDefeat | src/scenes/strategy/2D/war-tactics/core/machine.ts:478-481 | Victory is tested first, so a world that meets both rules is won. |
| GameMachineLemmas.OccupationWithoutObjectivesWins | src/scenes/strategy/2D/war-tactics/core/machine.ts:107-119 | Under occupation, a world with neither objectives nor friendly units meets the defeat rule and is still won on entering `running`. |
| GameMachineLemmas.EmptyWorldEndsAtOnce | src/scenes/strategy/2D/war-tactics/core/machine.ts:139-141 | The machine's own empty world ends the game on entering `running`: won under occupation, lost otherwise. |
| GameMachineLemmas.StepKeepsEmptyWorld | src/scenes/strategy/2D/war-tactics/core/machine.ts:139-141 | Nothing the machine does puts an entity into its own world. |
| GameMachineLemmas.EmptyRunNeverRunning | src/scenes/strategy/2D/war-tactics/core/machine.ts:443-481 | Over any run from a settled machine with the empty world, the world stays empty and `running` is never observed. |
| GameMachineLemmas.FreshGameNeverRunning | src/scenes/strategy/2D/war-tactics/core/machine.ts:367-368 | Left to itself, a new machine is never observed in `running`. |
| GameMachineLemmas.OrderCompleteCountsTurn | src/scenes/strategy/2D/war-tactics/core/machine.ts:424-433 | Completing an order counts a turn, forgets the order, and logs the completion and the new turn before any outcome line. |
| GameMachineLemmas.EndTurnCountsTurn | src/scenes/strategy/2D/war-tactics/core/machine.ts:309-343 | END_TURN counts a turn, runs morale once, logs the turn effects and waits for a command. |
| GameMachineLemmas.RoundCountsTwoTurns | src/scenes/strategy/2D/war-tactics/core/machine.ts:443-460 | One command round from `running` (end turn, submit, validate, complete) counts two turns. |
| GameMachineLemmas.ResetClears | src/scenes/strategy/2D/war-tactics/core/machine.ts:380-392 | RESET clears the error, logs, state, order, turn count and save time, and rebuilds an empty world. |
| GameMachineLemmas.RetryKeepsContext | src/scenes/strategy/2D/war-tactics/core/machine.ts:379 | RETRY keeps the whole context, the error included, and only rebuilds the world. |
| GameMachineLemmas.PauseOnlyToggles | src/scenes/strategy/2D/war-tactics/core/machine.ts:461-466 | PAUSE and RESUME in `running` only set `isPaused`. |
| GameMachineLemmas.SubmitStoresOrder | src/scenes/strategy/2D/war-tactics/core/machine.ts:394-401 | SUBMIT_ORDER is accepted exactly in `awaitingCommand` and `running`, stores the order and enters `processingOrder`. |
| GameMachineLemmas.ErrorAcceptedOnlyThere | src/scenes/strategy/2D/war-tactics/core/machine.ts:371-374 | ERROR is accepted exactly in `initializing` and `running`. |
| GameMachineLemmas.InvalidOrderKept | src/scenes/strategy/2D/war-tactics/core/machine.ts:406 | An invalid order returns to `awaitingCommand` but stays stored. |
| GameMachineLemmas.DelayWaitsForOtherOrders | src/scenes/strategy/2D/war-tactics/core/machine.ts:415-421 | For an order that neither moves nor attacks, the delay does nothing. |
| GameMachineLemmas.FinalAbsorbs | src/scenes/strategy/2D/war-tactics/core/machine.ts:483-497 | `victory` and `defeat` ignore every event. |
| GameMachineLemmas.MoveEffectMoves | src/scenes/strategy/2D/war-tactics/core/machine.ts:217-223 | A found unit moves toward the destination, and no other entity changes. |
| GameMachineLemmas.EmptyTargetLookedUp | src/scenes/strategy/2D/war-tactics/core/machine.ts:224-231 | An attack on an empty target name engages an entity named "". |
| GameMachineLemmas.TurnLogNamesMovers | src/scenes/strategy/2D/war-tactics/core/machine.ts:318-330 | The END_TURN log names every unit that is still moving after the morale pass. |
| Character.WalkActions | src/nodes/character/character-machine.ts:61-160 | A walk never changes the user name or the stamina. A null direction changes nothing, and a direction is faced. |
| Character.Step | src/nodes/character/character-machine.ts:179-235 | No event changes the user name or the stamina. No event reaches or leaves `asleep` and `awake`. |
| CharacterLemmas.WalkMovesOneCell | src/nodes/character/character-machine.ts:61-91 | A walk with a direction faces that way and moves exactly one cell along one axis. A null walk changes nothing, and the name and stamina are kept. |
| CharacterLemmas.StepBackReturns | src/nodes/character/character-machine.ts:61-91 | A step and a step back return to the same cell. |
| CharacterLemmas.VelocitySettles | src/nodes/character/character-machine.ts:92-160 | Up gives (x, 0, 1), down (x, y, -1), left (-1, y, z) and right (1, y, z). Walking on in the same direction keeps the velocity. |
| CharacterLemmas.SidewaysDisagree | src/nodes/character/character-machine.ts:75-84 | Left steps toward +x but points the velocity toward -x, and right the other way round. |
| CharacterLemmas.WalkAccepted | src/nodes/character/character-machine.ts:186-226 | A walk is accepted in `idle`, `walking` and `sprinting`, always ends in `walking`, and is ignored elsewhere. |
| CharacterLemmas.SprintOnlyFromWalking | src/nodes/character/character-machine.ts:197-227 | SPRINT moves `walking` to `sprinting`, and every other pose ignores it. |
| CharacterLemmas.JumpAndLand | src/nodes/character/character-machine.ts:186-234 | A jump starts from `idle`, `walking` or `sprinting`. `jumping` is left only by landing, which goes to `idle`. |
| CharacterLemmas.StopToIdle | src/nodes/character/character-machine.ts:197-227 | Stop goes to `idle` from `walking` and `sprinting`, and nowhere else. |
| CharacterLemmas.UnlistedEventsInert | src/nodes/character/character-machine.ts:179-235 | Sleep, awake and greet are handled by no state. |
| CharacterLemmas.RunKeepsInvariants | src/nodes/character/character-machine.ts:179-235 | No run that starts outside `asleep` and `awake` ever reaches them, and no run changes the stamina or the user name. |
| CharacterLemmas.FromStart | src/nodes/character/character-machine.ts:165-172 | From the start, stamina stays 10 and the user "Player" forever. |
| CharacterLemmas.InitialFigure | src/nodes/character/character-machine.ts:164-172 | The machine starts `idle` at the origin, facing up, at rest. |
| CharacterLemmas.FourStepsUp | src/nodes/character/character-machine.ts:186-213 | Four walks up from the start end four cells up, walking and moving along +z. |

## Left out

- Timers and the clock. The game loop's `setInterval` timer actor and the original machine's animation-frame loop are left out. The `after` delays are explicit events (`DelayElapsed`, `ExecutionDelayElapsed`). Clock readings are event parameters: `Clock`, `Stamp`, `now`, and the `beforeDeadline` and `deadlineAhead` outcomes of the wall-clock comparisons in `checkTimeConstraints` and `timeConstraintMet`.
- `parseTimeConstraint` and the time constraints map. Only the set of units with a recorded constraint is kept (`constrainedUnits`), because deadlines are compared against the clock.
- Randomness. The `Math.random` choice in `checkingUnitWillingness` is the `adapts` parameter of VALIDATE_ORDER.
- `updateRealTime` in the original game machine (TICK in `running`). Its `while` loop never changes `accumulatedTime`, so it does not terminate once the loop is entered; the context fields `lastFrameTime`, `accumulatedTime`, `fixedTimestep` and `tickInterval` are left out with it.
- Event delivery between actors. `raise` and `sendTo` called inside plain action functions are discarded, so `validateOrder` and `executeMove` in the original machine, and `checkVictoryConditions` in the tactical logic, send nothing. ORDER_VALID, ORDER_INVALID, ORDER_COMPLETE and ORDER_FAILED are external events. The tactical logic's `notifyOrderComplete` and `notifyOrderFailed` address an actor named `gameLoop`, which is not among its children, so every transition carrying one stops the machine (`LogicMachine.NotifyGameLoop`); the notices are never delivered.
- The `processingIntel`, `supplyShortage`, `communicationBlackout` and `validatingOrder` states of the tactical logic have no incoming transition and are not modelled. `checkingUnitWillingness` resolves within VALIDATE_ORDER. `adaptingOrder` and `refusingOrder` throw on entry at `generateSitrep`, so they appear only as the stopped mode.
- The `analyzeIntelligence` promise actor is used only by the unreachable `processingIntel` state.
- Fog-of-war fields `knownEnemyPositions` and `reconAssets` are never read or written by any action.
- LogicMachine.LogicInput: the creation input carries the world, victory condition, errors, supplies, personalities, constrained units and communication status. The current order and the report lists always start empty.
- LogicMachine.OrderEffect: a move on a terrain node that matches by name has no effect in the model. The source would set unit fields on the terrain object, which the terrain datatype cannot hold.
- The world is shared by reference between the machines and their callers. Mutation of it from outside a machine is not modelled, so `GameMachineLemmas.FreshGameNeverRunning` holds for the machine left to itself.
- `GameState` (loaded and saved game state) is opaque: `SavedGame` keeps only a title.
- Log and report texts are structured entries rendered by `LineText`, `LogText` and `NoteText`. The emoji and wording match the source, but the proofs are stated over the entries.
- Tick durations are whole milliseconds, and the simulation's seconds-per-tick is their exact quotient.
- Supply gauges, confidences and thresholds are integers, as every value the source assigns to them is.
- The personality lookup by unit type ignores JavaScript prototype keys such as `constructor`.
- Unit and terrain ids built from `Date.now()` are a `now` parameter of the factories.
- Character: `greet` and `logTelemetry` only write to the console and are left out. `Vector3` is a triple of integers, because every value stored in it is -1, 0 or 1 or copied from the context.
- Parser.NormalizeModifiers: lower-cases ASCII letters only. `toLowerCase` also maps non-ASCII upper-case letters, which can reach the `(.+)` captures, so for such text the model keeps the letters as they were.
- Parser.RetreatCase: the retreat condition is lower-cased the same way, ASCII letters only. The other normalised captures admit only `[A-Za-z]`, so for them ASCII folding is exact.
- Ecs.EngageAt: a terrain node found by the `'type' in e` lookup is left as it is. The source would give that terrain object `state = 'engaged'`.
- EcsWorld.GameWorld.EngageTarget: the same gap, on the shared world.
- Ecs.MoveAt: a terrain node at the index is left as it is. The source would set `isMoving`, `state` and `destination` on it, so the movement system could later move it.
- GameMachine.MoveEffect: a move or attack whose named entity is a terrain node leaves it as it is. In the source that node would be moving or engaged, and the effects log (`machine.ts:321-326`) would list it.
- LogicRules.ShortageReports: the reports are computed by the `active` tick's `assign`, but that tick throws later in the same step. They are never stored, so no machine member uses them.
- GameLoop.LoopInput: only the tick duration, mode, victory condition and time limit are read from the creation input. A world, game state, counters, order or log lists or an error given at creation (`machine-two.ts:337-352`) are not modelled. The model's machine always starts with none of them, and a world arrives only with START_GAME.
- EcsLemmas.CombatRule: stated for a non-negative time step, which is what the loop passes. With a negative step the shots would add ammunition and the retreat test would see the first shot's count, not the last.
- UI, rendering, physics, loaders, persistence, and the demo and scenario scripts are outside the engine's core and are not part of this model.
