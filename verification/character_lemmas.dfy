/** Properties of the character machine. */
module CharacterLemmas {
  import opened Common
  import opened Character

  function Abs(n: int): nat
  {
    if n < 0 then -n else n
  }

  /** A walk with a direction moves exactly one cell, in exactly one
      coordinate, and faces that direction; a null walk changes nothing. */
  lemma WalkMovesOneCell(c: CharacterContext, d: Option<Direction>)
    ensures var n := WalkActions(c, d);
      d.Some? ==>
        n.direction == d.value &&
        Abs(n.position.x - c.position.x) + Abs(n.position.z - c.position.z) == 1 &&
        ((d.value == Up || d.value == Down) <==> n.position.x == c.position.x)
    ensures d.None? ==> WalkActions(c, d) == c
    ensures WalkActions(c, d).userName == c.userName && WalkActions(c, d).stamina == c.stamina
  {
  }

  function Opposite(d: Direction): Direction
  {
    match d
    case Up => Down
    case Down => Up
    case Left => Right
    case Right => Left
  }

  /** A step and a step back return to the same cell. */
  lemma StepBackReturns(c: CharacterContext, d: Direction)
    ensures WalkActions(WalkActions(c, Some(d)), Some(Opposite(d))).position == c.position
  {
  }

  /** The velocity a walk sets depends only on its direction and the
      components it keeps, so walking on in one direction changes it once. */
  lemma VelocitySettles(c: CharacterContext, d: Direction)
    ensures WalkActions(WalkActions(c, Some(d)), Some(d)).velocity == WalkActions(c, Some(d)).velocity
    ensures d == Up ==> WalkActions(c, Some(d)).velocity == Velocity(c.velocity.x, 0, 1)
    ensures d == Down ==> WalkActions(c, Some(d)).velocity == Velocity(c.velocity.x, c.velocity.y, -1)
    ensures d == Left ==> WalkActions(c, Some(d)).velocity == Velocity(-1, c.velocity.y, c.velocity.z)
    ensures d == Right ==> WalkActions(c, Some(d)).velocity == Velocity(1, c.velocity.y, c.velocity.z)
  {
  }

  /** Left steps toward +x but points the velocity toward -x, and right the
      other way round. */
  lemma SidewaysDisagree(c: CharacterContext)
    ensures var l := WalkActions(c, Some(Left));
      l.position.x > c.position.x && l.velocity.x < 0
    ensures var r := WalkActions(c, Some(Right));
      r.position.x < c.position.x && r.velocity.x > 0
  {
  }

  /** Walking is accepted in `idle`, `walking` and `sprinting`, and always
      ends in `walking`. */
  lemma WalkAccepted(f: Figure, d: Option<Direction>)
    ensures f.pose == Idle || f.pose == Walking || f.pose == Sprinting ==>
      Step(f, Walk(d)) == Figure(Walking, WalkActions(f.ctx, d))
    ensures !(f.pose == Idle || f.pose == Walking || f.pose == Sprinting) ==> Step(f, Walk(d)) == f
  {
  }

  /** Sprinting starts only from `walking`. */
  lemma SprintOnlyFromWalking(f: Figure)
    ensures Step(f, Sprint).pose == Sprinting <==> f.pose == Walking || f.pose == Sprinting
    ensures f.pose != Walking ==> Step(f, Sprint) == f
  {
  }

  /** A jump starts from `idle`, `walking` or `sprinting`, and `jumping` is
      left only by landing, which goes to `idle`. */
  lemma JumpAndLand(f: Figure, e: CharacterEvent)
    ensures f.pose == Idle || f.pose == Walking || f.pose == Sprinting ==> Step(f, Jump) == f.(pose := Jumping)
    ensures f.pose == Jumping ==> (Step(f, e).pose != Jumping <==> e == Land)
    ensures f.pose == Jumping && e == Land ==> Step(f, e) == f.(pose := Idle)
  {
  }

  /** Stop goes to `idle` from `walking` and `sprinting`, and nowhere else. */
  lemma StopToIdle(f: Figure)
    ensures f.pose == Walking || f.pose == Sprinting ==> Step(f, Stop) == f.(pose := Idle)
    ensures !(f.pose == Walking || f.pose == Sprinting) ==> Step(f, Stop) == f
  {
  }

  /** No event of the machine is handled by any pose: sleep, awake, greet. */
  lemma UnlistedEventsInert(f: Figure, e: CharacterEvent)
    requires e == Sleep || e == Wake || e == Greet
    ensures Step(f, e) == f
  {
  }

  /** From the start, no run reaches `asleep` or `awake`, and no action ever
      writes the stamina or the user. */
  lemma {:induction false} RunKeepsInvariants(f: Figure, es: seq<CharacterEvent>)
    requires f.pose != Asleep && f.pose != Awake
    ensures Run(f, es).pose != Asleep && Run(f, es).pose != Awake
    ensures Run(f, es).ctx.stamina == f.ctx.stamina && Run(f, es).ctx.userName == f.ctx.userName
    decreases |es|
  {
    if |es| > 0 {
      RunKeepsInvariants(Step(f, es[0]), es[1..]);
    }
  }

  lemma FromStart(es: seq<CharacterEvent>)
    ensures Run(Initial(), es).pose != Asleep && Run(Initial(), es).pose != Awake
    ensures Run(Initial(), es).ctx.stamina == 10 && Run(Initial(), es).ctx.userName == "Player"
  {
    RunKeepsInvariants(Initial(), es);
  }

  /** The start: `idle` at the origin, facing up, at rest. */
  lemma InitialFigure()
    ensures Initial().pose == Idle && Initial().ctx.position == Position(0, 0)
    ensures Initial().ctx.direction == Up && Initial().ctx.velocity == Velocity(0, 0, 0)
  {
  }

  /** Walking up four times from the start ends four cells up, still facing
      up and moving along +z. */
  lemma FourStepsUp()
    ensures var f := Run(Initial(), [Walk(Some(Up)), Walk(Some(Up)), Walk(Some(Up)), Walk(Some(Up))]);
      f.pose == Walking && f.ctx.position == Position(0, 4) && f.ctx.velocity == Velocity(0, 0, 1)
  {
    var w := Walk(Some(Up));
    var evs := [w, w, w, w];
    assert evs[1..] == [w, w, w];
    assert evs[1..][1..] == [w, w];
    assert evs[1..][1..][1..] == [w];
  }
}
