/** The character machine: a walking, sprinting and jumping figure on a grid,
    whose walk events turn it, step it one cell and set its velocity. */
module Character {
  import opened Common

  datatype Direction = Up | Down | Left | Right

  /** `asleep` and `awake` are declared without any transition into them. */
  datatype Pose = Asleep | Awake | Idle | Walking | Sprinting | Jumping

  datatype Position = Position(x: int, z: int)

  datatype Velocity = Velocity(x: int, y: int, z: int)

  datatype CharacterContext = CharacterContext(
    position: Position,
    direction: Direction,
    velocity: Velocity,
    userName: string,
    stamina: int)

  datatype Figure = Figure(pose: Pose, ctx: CharacterContext)

  /** A walk event carries a direction or null. */
  datatype CharacterEvent = Sleep | Wake | Walk(heading: Option<Direction>) | Greet | Sprint | Jump | Land | Stop

  /** Idle at the origin, facing up, at rest, with stamina 10. */
  function Initial(): Figure
  {
    Figure(Idle, CharacterContext(Position(0, 0), Up, Velocity(0, 0, 0), "Player", 10))
  }

  /** `updateDirection`: face the event's direction; null keeps the old one. */
  function UpdateDirection(c: CharacterContext, d: Option<Direction>): CharacterContext
  {
    if d.Some? then c.(direction := d.value) else c
  }

  /** `updatePosition`: one cell along z for up and down, along x for left
      and right, with left increasing x. */
  function UpdatePosition(c: CharacterContext, d: Option<Direction>): CharacterContext
  {
    var p := c.position;
    match d
    case None => c
    case Some(Up) => c.(position := Position(p.x, p.z + 1))
    case Some(Down) => c.(position := Position(p.x, p.z - 1))
    case Some(Left) => c.(position := Position(p.x + 1, p.z))
    case Some(Right) => c.(position := Position(p.x - 1, p.z))
  }

  /** `updateVelocity`: up also zeroes the vertical component, the other
      directions keep it; left is -1 along x although it steps +1. */
  function UpdateVelocity(c: CharacterContext, d: Option<Direction>): CharacterContext
  {
    var v := c.velocity;
    match d
    case None => c
    case Some(Up) => c.(velocity := Velocity(v.x, 0, 1))
    case Some(Down) => c.(velocity := Velocity(v.x, v.y, -1))
    case Some(Left) => c.(velocity := Velocity(-1, v.y, v.z))
    case Some(Right) => c.(velocity := Velocity(1, v.y, v.z))
  }

  /** The action list of every walk transition, in order. A null direction
      changes nothing; the user name and stamina are never touched. */
  function WalkActions(c: CharacterContext, d: Option<Direction>): (r: CharacterContext)
    ensures r.userName == c.userName && r.stamina == c.stamina
    ensures d.None? ==> r == c
    ensures d.Some? ==> r.direction == d.value
  {
    UpdateVelocity(UpdatePosition(UpdateDirection(c, d), d), d)
  }

  /** One event; events a pose does not list change nothing. No event
      reaches `asleep` or `awake`, nor leaves them, and none changes the user
      name or the stamina. */
  function Step(f: Figure, e: CharacterEvent): (r: Figure)
    ensures r.ctx.userName == f.ctx.userName && r.ctx.stamina == f.ctx.stamina
    ensures (r.pose == Asleep || r.pose == Awake) <==> (f.pose == Asleep || f.pose == Awake)
    ensures (f.pose == Asleep || f.pose == Awake) ==> r == f
  {
    match f.pose
    case Idle =>
      (match e
       case Walk(d) => Figure(Walking, WalkActions(f.ctx, d))
       case Jump => f.(pose := Jumping)
       case _ => f)
    case Walking =>
      (match e
       case Walk(d) => Figure(Walking, WalkActions(f.ctx, d))
       case Stop => f.(pose := Idle)
       case Sprint => f.(pose := Sprinting)
       case Jump => f.(pose := Jumping)
       case _ => f)
    case Sprinting =>
      (match e
       case Walk(d) => Figure(Walking, WalkActions(f.ctx, d))
       case Stop => f.(pose := Idle)
       case Jump => f.(pose := Jumping)
       case _ => f)
    case Jumping =>
      if e == Land then f.(pose := Idle) else f
    case Asleep => f
    case Awake => f
  }

  function Run(f: Figure, es: seq<CharacterEvent>): Figure
    decreases |es|
  {
    if |es| == 0 then f else Run(Step(f, es[0]), es[1..])
  }
}
