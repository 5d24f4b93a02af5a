/** The shared record types of the tactical engine: unit types, orders and the
    victory-condition selector. */
module Orders {
  import opened Common

  datatype UnitType = Infantry | Recon | Armor | Engineers | Artillery | UAV

  datatype Action = Move | Attack | Defend | Retreat | Support

  /** A directive for one unit. `timeConstraint` is the source's `time_constraint`. */
  datatype Order = Order(
    unit: string,
    action: Action,
    target: Option<string>,
    destination: Option<string>,
    timeConstraint: Option<string>,
    modifiers: seq<string>)

  datatype VictoryCondition = Elimination | Occupation | Survival | TimeLimit

  /** The string value of an action, as it appears in log lines. */
  function ActionName(a: Action): (s: string)
    ensures |s| >= 4
  {
    match a
    case Move => "move"
    case Attack => "attack"
    case Defend => "defend"
    case Retreat => "retreat"
    case Support => "support"
  }

  /** The string value of a unit type, as it appears in generated ids. */
  function UnitTypeName(t: UnitType): (s: string)
    ensures |s| >= 3
  {
    match t
    case Infantry => "Infantry"
    case Recon => "Recon"
    case Armor => "Armor"
    case Engineers => "Engineers"
    case Artillery => "Artillery"
    case UAV => "UAV"
  }

  /** JavaScript truthiness of an optional string: present and non-empty. */
  predicate Truthy(s: Option<string>)
  {
    s.Some? && s.value != ""
  }
}
