/** The decision rules of the tactical logic machine: unit personalities and
    supplies, order validation and acceptance, intel classification, order
    adaptation, combat confidence, and the situation reports the machine
    writes. Reports are kept as structured values; `NoteText` renders the
    content string the source stores. */
module LogicRules {
  import opened Common
  import opened Orders
  import opened Ecs

  // ---------------------------------------------------------------------------
  // Personalities

  datatype Temperament = Aggressive | Cautious | Reliable | Unpredictable

  datatype Personality = Personality(
    temperament: Temperament,
    willRefuseOrders: bool,
    adaptiveThreshold: int,
    moraleThreshold: int)

  /** The per-type personality table. */
  function Profile(t: UnitType): Personality
  {
    match t
    case Infantry => Personality(Reliable, false, 60, 40)
    case Recon => Personality(Cautious, false, 80, 30)
    case Armor => Personality(Aggressive, false, 40, 50)
    case Artillery => Personality(Reliable, false, 70, 35)
    case Engineers => Personality(Cautious, false, 75, 25)
    case UAV => Personality(Reliable, false, 90, 0)
  }

  /** The unit type a string names, if any. */
  function ParseUnitType(s: string): (r: Option<UnitType>)
    ensures r.Some? ==> UnitTypeName(r.value) == s
    ensures r.None? ==> forall t: UnitType :: UnitTypeName(t) != s
  {
    if s == "Infantry" then Some(Infantry)
    else if s == "Recon" then Some(Recon)
    else if s == "Armor" then Some(Armor)
    else if s == "Engineers" then Some(Engineers)
    else if s == "Artillery" then Some(Artillery)
    else if s == "UAV" then Some(UAV)
    else None
  }

  /** `initializeUnitPersonality`: the profile of the named type, and the
      Infantry profile for a string that names no type. No profile refuses
      orders, and none is unpredictable. */
  function PersonalityFor(unitType: string): (p: Personality)
    ensures forall t: UnitType :: UnitTypeName(t) == unitType ==> p == Profile(t)
    ensures (forall t: UnitType :: UnitTypeName(t) != unitType) ==> p == Profile(Infantry)
    ensures !p.willRefuseOrders && p.temperament != Unpredictable
    ensures 0 <= p.moraleThreshold <= 50 && 40 <= p.adaptiveThreshold <= 90
  {
    match ParseUnitType(unitType)
    case Some(t) => Profile(t)
    case None => Profile(Infantry)
  }

  // ---------------------------------------------------------------------------
  // Supplies

  datatype CommStatus = Clear | Jammed | Degraded

  datatype Supply = Supply(
    ammunition: int,
    fuel: int,
    communications: bool,
    morale: int,
    fatigue: int,
    lastResupply: string)

  /** The four gauges are percentages. */
  predicate Gauges(s: Supply)
  {
    0 <= s.ammunition <= 100 && 0 <= s.fuel <= 100 && 0 <= s.morale <= 100 && 0 <= s.fatigue <= 100
  }

  /** `initializeUnitSupplies`: full ammunition and fuel, communications on,
      morale 85 and fatigue 10, resupplied at `now`. */
  function InitialSupplies(now: string): (s: Supply)
    ensures Gauges(s) && s.communications && s.lastResupply == now
    ensures s.ammunition == 100 && s.fuel == 100 && s.morale == 85 && s.fatigue == 10
  {
    Supply(100, 100, true, 85, 10, now)
  }

  function DegradationRate(c: CommStatus): int
  {
    if c == Jammed then 2 else 1
  }

  /** One `processSupplies` step for one unit, in the order the source
      mutates the fields: the shortage test reads the gauges already
      degraded by this step. */
  function DegradeSupply(s: Supply, c: CommStatus): (r: Supply)
    ensures Gauges(s) ==> Gauges(r)
    ensures r.communications == (c != Jammed) && r.lastResupply == s.lastResupply
  {
    var rate := DegradationRate(c);
    var ammunition := MaxInt(0, s.ammunition - rate);
    var fuel := MaxInt(0, s.fuel - rate);
    var fatigue := MinInt(100, s.fatigue + rate);
    var morale := if ammunition < 20 || fuel < 20 then MaxInt(0, s.morale - 2) else s.morale;
    var morale' := if c == Jammed then MaxInt(0, morale - 1) else morale;
    Supply(ammunition, fuel, c != Jammed, morale', fatigue, s.lastResupply)
  }

  /** A supply record in the map of supply states, in insertion order. */
  datatype SupplyEntry = SupplyEntry(unit: string, supply: Supply)

  /** `supplyStates.get(name)`: the first entry for the unit. */
  function SupplyOf(entries: seq<SupplyEntry>, name: string): (r: Option<Supply>)
    ensures r.None? <==> forall k :: 0 <= k < |entries| ==> entries[k].unit != name
    ensures r.Some? ==> exists k :: 0 <= k < |entries| && entries[k] == SupplyEntry(name, r.value)
  {
    if |entries| == 0 then None
    else if entries[0].unit == name then Some(entries[0].supply)
    else
      assert forall k :: 1 <= k < |entries| ==> entries[k] == entries[1..][k - 1];
      SupplyOf(entries[1..], name)
  }

  /** `processSupplies` on every entry. */
  function DegradeAll(entries: seq<SupplyEntry>, c: CommStatus): (r: seq<SupplyEntry>)
    ensures |r| == |entries|
    ensures forall k :: 0 <= k < |r| ==> r[k] == SupplyEntry(entries[k].unit, DegradeSupply(entries[k].supply, c))
  {
    seq(|entries|, k requires 0 <= k < |entries| => SupplyEntry(entries[k].unit, DegradeSupply(entries[k].supply, c)))
  }

  // ---------------------------------------------------------------------------
  // Order validation and acceptance

  datatype ValidationError =
    | NoWorld
    | UnitNotFound(unit: string)
    | DestinationNotFound(destination: string)
    | TargetNotFound(target: string)

  function ValidationMessage(e: ValidationError): string
  {
    match e
    case NoWorld => "No game world available"
    case UnitNotFound(u) => "Unit \"" + u + "\" not found"
    case DestinationNotFound(d) => "Destination \"" + d + "\" not found"
    case TargetNotFound(t) => "Target \"" + t + "\" not found"
  }

  function ValidationMessages(errs: seq<ValidationError>): (r: seq<string>)
    ensures |r| == |errs|
    ensures forall k :: 0 <= k < |errs| ==> r[k] == ValidationMessage(errs[k])
  {
    seq(|errs|, k requires 0 <= k < |errs| => ValidationMessage(errs[k]))
  }

  /** The three independent checks of `validateOrder`. */
  function UnitCheck(es: seq<Entity>, o: Order): seq<ValidationError>
  {
    if FindNamed(es, o.unit).None? then [UnitNotFound(o.unit)] else []
  }

  function DestinationCheck(es: seq<Entity>, o: Order): seq<ValidationError>
  {
    if o.action == Move && Truthy(o.destination) && !HasId(es, o.destination.value)
    then [DestinationNotFound(o.destination.value)] else []
  }

  function TargetCheck(es: seq<Entity>, o: Order): seq<ValidationError>
  {
    if o.action == Attack && Truthy(o.target) && FindNamed(es, o.target.value).None?
    then [TargetNotFound(o.target.value)] else []
  }

  /** `validateOrder`: without a world the single error "No game world
      available"; otherwise every failed check contributes its own error, in
      the order unit, destination, target. An order is a move or an attack,
      never both, so at most two errors arise. */
  function OrderErrors(world: Option<seq<Entity>>, o: Order): (errs: seq<ValidationError>)
    ensures world.None? ==> errs == [NoWorld]
    ensures world.Some? ==> NoWorld !in errs && |errs| <= 2
    ensures world.Some? ==> (UnitNotFound(o.unit) in errs <==> forall k :: 0 <= k < |world.value| ==> world.value[k].Name() != o.unit)
    ensures world.Some? ==> forall d :: DestinationNotFound(d) in errs <==>
      o.action == Move && o.destination == Some(d) && d != "" && forall k :: 0 <= k < |world.value| ==> world.value[k].Id() != d
    ensures world.Some? ==> forall t :: TargetNotFound(t) in errs <==>
      o.action == Attack && o.target == Some(t) && t != "" && forall k :: 0 <= k < |world.value| ==> world.value[k].Name() != t
  {
    if world.None? then [NoWorld]
    else
      var es := world.value;
      UnitCheck(es, o) + DestinationCheck(es, o) + TargetCheck(es, o)
  }

  /** `unitWillAcceptOrder`: no current order, or no personality or supply
      record for its unit, accepts; an attack is refused below the unit's
      morale threshold or under 20 ammunition; otherwise the unit accepts
      unless its personality refuses orders. */
  function WillAccept(current: Option<Order>, personalities: map<string, Personality>, supplies: seq<SupplyEntry>): (b: bool)
    ensures current.None? ==> b
    ensures current.Some? && current.value.unit !in personalities ==> b
    ensures current.Some? && SupplyOf(supplies, current.value.unit).None? ==> b
    ensures current.Some? && current.value.unit in personalities && SupplyOf(supplies, current.value.unit).Some? ==>
      var p := personalities[current.value.unit];
      var s := SupplyOf(supplies, current.value.unit).value;
      (b <==> !(current.value.action == Attack && (s.morale < p.moraleThreshold || s.ammunition < 20)) && !p.willRefuseOrders)
  {
    if current.None? then true
    else
      var name := current.value.unit;
      if name !in personalities || SupplyOf(supplies, name).None? then true
      else
        var p := personalities[name];
        var s := SupplyOf(supplies, name).value;
        if current.value.action == Attack && s.morale < p.moraleThreshold then false
        else if current.value.action == Attack && s.ammunition < 20 then false
        else !p.willRefuseOrders
  }

  /** `adaptOrder`: a cautious unit's order gains the two modifiers
      "request backup" and "proceed with caution"; any other order, and
      every other field, is unchanged. */
  function AdaptOrder(current: Option<Order>, personalities: map<string, Personality>): (r: Option<Order>)
    ensures r.None? <==> current.None?
    ensures current.Some? ==> r.value.(modifiers := current.value.modifiers) == current.value
    ensures current.Some? ==>
      r.value.modifiers == current.value.modifiers +
        (if IsCautious(personalities, current.value.unit) then ["request backup", "proceed with caution"] else [])
  {
    if current.None? then current
    else if !IsCautious(personalities, current.value.unit) then current
    else Some(current.value.(modifiers := current.value.modifiers + ["request backup", "proceed with caution"]))
  }

  predicate IsCautious(personalities: map<string, Personality>, unit: string)
  {
    unit in personalities && personalities[unit].temperament == Cautious
  }

  // ---------------------------------------------------------------------------
  // Intel

  datatype Priority = Low | Medium | High | Critical

  datatype Tag = Confirmed | Probable | Unconfirmed

  datatype Severity = Info | Warning | CriticalSeverity

  function IntelPriority(confidence: int): Priority
  {
    if confidence > 80 then High else if confidence > 50 then Medium else Low
  }

  function IntelTag(confidence: int): Tag
  {
    if confidence > 80 then Confirmed else if confidence > 50 then Probable else Unconfirmed
  }

  function IntelSeverity(confidence: int): Severity
  {
    if confidence > 80 then CriticalSeverity else Info
  }

  function PriorityRank(p: Priority): nat
  {
    match p
    case Low => 0
    case Medium => 1
    case High => 2
    case Critical => 3
  }

  datatype ReconSource = Uav | Scout

  /** A recon report: a UAV is recorded as source "uav" with confidence 90,
      a scout as "visual" with confidence 70. */
  function ReconConfidence(src: ReconSource): (c: int)
    ensures IntelPriority(c) == (if src == Uav then High else Medium)
  {
    if src == Uav then 90 else 70
  }

  function ReconSourceName(src: ReconSource): string
  {
    if src == Uav then "uav" else "visual"
  }

  datatype IntelReport = IntelReport(
    source: string,
    confidence: int,
    timestamp: string,
    content: string,
    location: Option<string>,
    priority: Priority)

  // ---------------------------------------------------------------------------
  // Combat

  datatype CombatResult = CombatResult(tick: int, attacker: string, target: string, confidence: int)

  /** The combat-report confidence: 85 on clear communications and 60
      otherwise, less a fixed weather penalty of 10, never below 30. */
  function CombatConfidence(c: CommStatus): (r: int)
    ensures r >= 30
    ensures r == if c == Clear then 75 else 50
  {
    var base := if c == Clear then 85 else 60;
    MaxInt(30, base - 10)
  }

  /** The tag of a combat report reads the base confidence, 85 or 60. */
  function CombatTag(c: CommStatus): Tag
  {
    if c == Clear then Confirmed else Unconfirmed
  }

  // ---------------------------------------------------------------------------
  // Situation reports

  datatype ReportKind = CombatReport | MovementReport | IntelKind | SupplyReport | StatusReport

  /** The content of a report, one constructor per message the source writes. */
  datatype Note =
    | Executing(unit: string, action: Action)
    | AmmoLow(unit: string, ammunition: int)
    | MoraleCritical(unit: string, morale: int)
    | Operational(unit: string)
    | NoRecord
    | AllUnitsReporting(status: CommStatus)
    | IntelNote(tag: Tag, content: string)
    | CriticalAmmo(unit: string, ammunition: int)
    | Adapting(unit: string)
    | CommsJammed
    | CommsRestored
    | Contact(tag: Tag)

  datatype SitRep = SitRep(
    timestamp: string,
    kind: ReportKind,
    unit: Option<string>,
    location: Option<string>,
    note: Note,
    severity: Severity)

  function StatusName(c: CommStatus): string
  {
    match c
    case Clear => "clear"
    case Jammed => "jammed"
    case Degraded => "degraded"
  }

  function TagName(t: Tag): string
  {
    match t
    case Confirmed => "CONFIRMED"
    case Probable => "PROBABLE"
    case Unconfirmed => "UNCONFIRMED"
  }

  function NoteText(n: Note): string
  {
    match n
    case Executing(u, a) => u + " executing " + ActionName(a) + " order"
    case AmmoLow(u, x) => u + ": Ammunition low (" + IntToString(x) + "%)"
    case MoraleCritical(u, x) => u + ": Morale critical (" + IntToString(x) + "%)"
    case Operational(u) => u + ": Operational. Status green."
    case NoRecord => ""
    case AllUnitsReporting(c) => "All units reporting. Communications " + StatusName(c) + "."
    case IntelNote(t, content) => "[" + TagName(t) + "] " + content
    case CriticalAmmo(u, x) => u + ": CRITICAL ammunition shortage (" + IntToString(x) + "%)"
    case Adapting(u) => u + ": Adapting orders. Reason: Tactical assessment suggests modified approach"
    case CommsJammed => "COMMUNICATIONS JAMMED - Orders may be delayed or fail"
    case CommsRestored => "Communications restored - Normal operations resumed"
    case Contact(t) => "[" + TagName(t) + "] Contact reported. Engaging hostile forces."
  }

  /** `generateSitrep` for a GENERATE_SITREP event. A named unit with a
      supply record reports low ammunition (under 20) as a supply warning,
      else critical morale (under 30), else green; a named unit without a
      record gets an empty status report; an absent or empty name gives the
      general report on the communication status. */
  function UnitSitrep(unitName: Option<string>, supplies: seq<SupplyEntry>, status: CommStatus, time: string): (r: SitRep)
    ensures r.unit == unitName && r.location == None && r.timestamp == time
    ensures r.severity == Warning <==>
      (Truthy(unitName) && SupplyOf(supplies, unitName.value).Some? &&
       SupplyOf(supplies, unitName.value).value.ammunition < 20)
    ensures r.severity == CriticalSeverity <==>
      (Truthy(unitName) && SupplyOf(supplies, unitName.value).Some? &&
       SupplyOf(supplies, unitName.value).value.ammunition >= 20 && SupplyOf(supplies, unitName.value).value.morale < 30)
    ensures r.kind == SupplyReport <==> r.severity == Warning
    ensures r.kind != SupplyReport ==> r.kind == StatusReport
    ensures !Truthy(unitName) ==> r.note == AllUnitsReporting(status)
  {
    if Truthy(unitName) then
      var name := unitName.value;
      match SupplyOf(supplies, name)
      case None => SitRep(time, StatusReport, unitName, None, NoRecord, Info)
      case Some(s) =>
        if s.ammunition < 20 then SitRep(time, SupplyReport, unitName, None, AmmoLow(name, s.ammunition), Warning)
        else if s.morale < 30 then SitRep(time, StatusReport, unitName, None, MoraleCritical(name, s.morale), CriticalSeverity)
        else SitRep(time, StatusReport, unitName, None, Operational(name), Info)
    else SitRep(time, StatusReport, unitName, None, AllUnitsReporting(status), Info)
  }

  /** The intel report of UPDATE_INTEL and RECON_REPORT: its priority comes
      from its confidence. */
  function IntelEntry(source: string, confidence: int, content: string, location: Option<string>, time: string): (r: IntelReport)
    ensures r.confidence == confidence && r.priority == IntelPriority(confidence)
  {
    IntelReport(source, confidence, time, content, location, IntelPriority(confidence))
  }

  /** The report that accompanies an intel update. */
  function IntelSitrep(confidence: int, content: string, location: Option<string>, time: string): (r: SitRep)
    ensures r.kind == IntelKind && r.note == IntelNote(IntelTag(confidence), content)
    ensures r.severity == IntelSeverity(confidence)
  {
    SitRep(time, IntelKind, None, location, IntelNote(IntelTag(confidence), content), IntelSeverity(confidence))
  }

  /** The critical report for one unit short of ammunition. */
  function ShortageReport(e: SupplyEntry, time: string): (r: SitRep)
    ensures r.kind == SupplyReport && r.severity == CriticalSeverity && r.unit == Some(e.unit)
  {
    SitRep(time, SupplyReport, Some(e.unit), None, CriticalAmmo(e.unit, e.supply.ammunition), CriticalSeverity)
  }

  /** The critical-shortage reports `processSupplies` computes: one per unit
      with less than 10 ammunition, in the order of the supply map. */
  function ShortageReports(entries: seq<SupplyEntry>, time: string): (r: seq<SitRep>)
    ensures |r| <= |entries|
    ensures forall k :: 0 <= k < |r| ==> r[k].severity == CriticalSeverity && r[k].kind == SupplyReport
    ensures (forall k :: 0 <= k < |entries| ==> entries[k].supply.ammunition >= 10) ==> r == []
  {
    if |entries| == 0 then []
    else
      var e := entries[0];
      assert forall k :: 1 <= k < |entries| ==> entries[k] == entries[1..][k - 1];
      (if e.supply.ammunition < 10
       then [ShortageReport(e, time)]
       else []) +
      ShortageReports(entries[1..], time)
  }
}
