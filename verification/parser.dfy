/** The natural-language command parser. Each command pattern is a regular
    expression over the trimmed input; because every atom of those patterns
    either matches a whole whitespace-separated word or takes the verbatim
    remainder of the input, a pattern is modelled as a search over the words
    that tries the alternatives in the order the backtracking matcher does
    (an optional part is tried present before absent, the longer of two
    word-counts before the shorter) and returns the first complete match. */
module Parser {
  import opened Common
  import opened Orders
  import opened Text

  // ---------------------------------------------------------------------------
  // Normalisation

  /** Lower-case, then replace every whitespace run by one hyphen; an absent or
      empty location is absent. */
  function NormalizeLocation(location: Option<string>): (r: Option<string>)
    ensures r.Some? <==> Truthy(location)
    ensures r.Some? ==> |r.value| > 0 && NoSpace(r.value) && NoUpper(r.value)
  {
    if Truthy(location) then
      ReplaceSpaceRunsProps(Lower(location.value));
      Some(ReplaceSpaceRuns(Lower(location.value)))
    else None
  }

  function NormalizeUnitName(name: string): (r: string)
    ensures r == "" || (!IsSpace(r[0]) && !IsSpace(r[|r| - 1]))
  {
    Trim(name)
  }

  /** Length of a match of `\s+and\s+` that starts at q, or 0 when none does. */
  function SepAt(s: string, q: nat): (n: nat)
    requires q <= |s|
    ensures q + n <= |s|
  {
    var a := SpanSpace(s[q..]);
    if a == 0 || q + a + 3 > |s| || s[q + a..q + a + 3] != "and" then 0
    else
      var b := SpanSpace(s[q + a + 3..]);
      if b == 0 then 0 else a + 3 + b
  }

  /** The first position at or after q where a separator matches, or |s|. */
  function FirstSep(s: string, q: nat): (r: nat)
    requires q <= |s|
    ensures q <= r <= |s|
    ensures r < |s| ==> SepAt(s, r) > 0
    ensures forall k :: q <= k < r ==> SepAt(s, k) == 0
    decreases |s| - q
  {
    if q == |s| then q
    else if SepAt(s, q) > 0 then q
    else FirstSep(s, q + 1)
  }

  /** `split(/\s+and\s+/)` on a string: the pieces between separators, scanning
      on from the end of each separator. */
  function SplitAnd(s: string): (r: seq<string>)
    ensures |r| >= 1
    decreases |s|
  {
    var q := FirstSep(s, 0);
    if q == |s| then [s] else [s[..q]] + SplitAnd(s[q + SepAt(s, q)..])
  }

  /** Lower-case, then split on the word "and" between whitespace; absent or
      empty modifiers give no modifiers. */
  function NormalizeModifiers(modifiers: Option<string>): (r: seq<string>)
    ensures r == [] <==> !Truthy(modifiers)
  {
    if Truthy(modifiers) then SplitAnd(Lower(modifiers.value)) else []
  }

  // ---------------------------------------------------------------------------
  // Words of the input

  /** The source text of words i to j-1: the first word, then each later word
      with the whitespace before it. */
  function Phrase(p: seq<Piece>, i: nat, j: nat): string
    requires i < j <= |p|
  {
    p[i].word + Join(p[i + 1..j])
  }

  /** The text from word i to the end of the input, as `(.+)` captures it. */
  function Rest(p: seq<Piece>, i: nat): string
    requires i < |p|
  {
    Phrase(p, i, |p|)
  }

  predicate Keyword(p: seq<Piece>, i: nat, keyword: string)
  {
    i < |p| && CiEq(p[i].word, keyword)
  }

  /** `[A-Za-z]+(?:\s+Squad)?` with the suffix present. */
  predicate UnitTwo(p: seq<Piece>, i: nat)
  {
    i + 1 < |p| && Letters(p[i].word) && CiEq(p[i + 1].word, "squad")
  }

  /** `[A-Za-z]+(?:\s+[A-Za-z]+)?` with the second word present. */
  predicate LocTwo(p: seq<Piece>, i: nat)
  {
    i + 1 < |p| && Letters(p[i].word) && Letters(p[i + 1].word)
  }

  /** A single `[A-Za-z]+` word. */
  predicate OneWord(p: seq<Piece>, i: nat)
  {
    i < |p| && Letters(p[i].word)
  }

  /** `(.+)` from word i: at least one character, and no line terminator. */
  predicate RestAt(p: seq<Piece>, i: nat)
  {
    i < |p| && |Rest(p, i)| > 0 && NoLineTerminator(Rest(p, i))
  }

  /** A captured unit name: starts and ends with an ASCII letter. */
  predicate UnitShaped(u: string)
  {
    |u| > 0 && IsAsciiLetter(u[0]) && IsAsciiLetter(u[|u| - 1])
  }

  /** A captured unit name is already trimmed. */
  lemma ShapedUnitNormalized(u: string)
    requires UnitShaped(u)
    ensures NormalizeUnitName(u) == u
  {
    TrimIdentity(u);
  }

  lemma PhraseOne(p: seq<Piece>, i: nat)
    requires i < |p|
    ensures Phrase(p, i, i + 1) == p[i].word
  {
  }

  lemma PhraseTwo(p: seq<Piece>, i: nat)
    requires i + 1 < |p|
    ensures Phrase(p, i, i + 2) == p[i].word + p[i + 1].sep + p[i + 1].word
  {
    assert p[i + 1..i + 2] == [p[i + 1]];
    assert Join(p[i + 1..i + 2]) == p[i + 1].sep + p[i + 1].word + Join([]);
  }

  lemma SquadEndsWithLetter(w: string)
    requires CiEq(w, "squad")
    ensures |w| == 5 && IsAsciiLetter(w[4])
  {
    assert LowerChar(w[4]) == 'd';
  }

  lemma UnitTwoShaped(p: seq<Piece>, i: nat)
    requires UnitTwo(p, i)
    ensures UnitShaped(Phrase(p, i, i + 2))
  {
    PhraseTwo(p, i);
    SquadEndsWithLetter(p[i + 1].word);
    var t := p[i].word + p[i + 1].sep + p[i + 1].word;
    assert t[0] == p[i].word[0];
    assert t[|t| - 1] == p[i + 1].word[4];
  }

  lemma OneWordShaped(p: seq<Piece>, i: nat)
    requires OneWord(p, i)
    ensures UnitShaped(p[i].word)
  {
  }

  // ---------------------------------------------------------------------------
  // Captures

  datatype MoveMatch = MoveMatch(unit: string, destination: string, time: Option<string>, modifiers: Option<string>)

  datatype AttackMatch = AttackMatch(target: string, unit: string, modifiers: Option<string>)

  datatype DefendMatch = DefendMatch(location: string, unit: string)

  datatype RetreatMatch = RetreatMatch(unit: string, destination: Option<string>, condition: Option<string>)

  predicate MoveMatchShaped(m: MoveMatch)
  {
    UnitShaped(m.unit) && |m.destination| > 0 &&
    (m.time.Some? ==> IsTime(m.time.value)) && (m.modifiers.Some? ==> |m.modifiers.value| > 0)
  }

  predicate AttackMatchShaped(m: AttackMatch)
  {
    UnitShaped(m.unit) && UnitShaped(m.target) && (m.modifiers.Some? ==> |m.modifiers.value| > 0)
  }

  predicate DefendMatchShaped(m: DefendMatch)
  {
    UnitShaped(m.unit) && |m.location| > 0
  }

  predicate RetreatMatchShaped(m: RetreatMatch)
  {
    UnitShaped(m.unit) && (m.destination.Some? ==> |m.destination.value| > 0) &&
    (m.condition.Some? ==> |m.condition.value| > 0)
  }

  // ---------------------------------------------------------------------------
  // MOVE: move UNIT to LOCATION [before TIME] [under REST]

  function MoveUnder(p: seq<Piece>, k: nat, unit: string, destination: string, time: Option<string>): (r: Option<MoveMatch>)
    requires UnitShaped(unit) && |destination| > 0 && (time.Some? ==> IsTime(time.value))
    ensures r.Some? ==> MoveMatchShaped(r.value) && r.value.unit == unit && r.value.destination == destination
  {
    if Keyword(p, k, "under") && RestAt(p, k + 1) then
      Some(MoveMatch(unit, destination, time, Some(Rest(p, k + 1))))
    else if k == |p| then Some(MoveMatch(unit, destination, time, None))
    else None
  }

  function MoveBefore(p: seq<Piece>, j: nat, unit: string, destination: string): (r: Option<MoveMatch>)
    requires UnitShaped(unit) && |destination| > 0
    ensures r.Some? ==> MoveMatchShaped(r.value) && r.value.unit == unit && r.value.destination == destination
  {
    var timed := if Keyword(p, j, "before") && j + 1 < |p| && IsTime(p[j + 1].word)
                 then MoveUnder(p, j + 2, unit, destination, Some(p[j + 1].word)) else None;
    if timed.Some? then timed else MoveUnder(p, j, unit, destination, None)
  }

  function MoveTo(p: seq<Piece>, i: nat, unit: string): (r: Option<MoveMatch>)
    requires UnitShaped(unit)
    ensures r.Some? ==> MoveMatchShaped(r.value) && r.value.unit == unit
  {
    if !Keyword(p, i, "to") then None
    else
      var two := if LocTwo(p, i + 1) then MoveBefore(p, i + 3, unit, Phrase(p, i + 1, i + 3)) else None;
      if two.Some? then two
      else if OneWord(p, i + 1) then MoveBefore(p, i + 2, unit, p[i + 1].word)
      else None
  }

  function MatchMove(p: seq<Piece>): (r: Option<MoveMatch>)
    ensures r.Some? ==> MoveMatchShaped(r.value)
  {
    if !Keyword(p, 0, "move") then None
    else
      var two := if UnitTwo(p, 1) then (UnitTwoShaped(p, 1); MoveTo(p, 3, Phrase(p, 1, 3))) else None;
      if two.Some? then two
      else if OneWord(p, 1) then MoveTo(p, 2, p[1].word)
      else None
  }

  // ---------------------------------------------------------------------------
  // ATTACK: attack UNIT with UNIT [using REST]; the first unit is the target

  function AttackUsing(p: seq<Piece>, k: nat, target: string, unit: string): (r: Option<AttackMatch>)
    requires UnitShaped(target) && UnitShaped(unit)
    ensures r.Some? ==> AttackMatchShaped(r.value) && r.value.target == target && r.value.unit == unit
  {
    if Keyword(p, k, "using") && RestAt(p, k + 1) then
      Some(AttackMatch(target, unit, Some(Rest(p, k + 1))))
    else if k == |p| then Some(AttackMatch(target, unit, None))
    else None
  }

  function AttackWith(p: seq<Piece>, i: nat, target: string): (r: Option<AttackMatch>)
    requires UnitShaped(target)
    ensures r.Some? ==> AttackMatchShaped(r.value) && r.value.target == target
  {
    if !Keyword(p, i, "with") then None
    else
      var two := if UnitTwo(p, i + 1) then (UnitTwoShaped(p, i + 1); AttackUsing(p, i + 3, target, Phrase(p, i + 1, i + 3))) else None;
      if two.Some? then two
      else if OneWord(p, i + 1) then AttackUsing(p, i + 2, target, p[i + 1].word)
      else None
  }

  function MatchAttack(p: seq<Piece>): (r: Option<AttackMatch>)
    ensures r.Some? ==> AttackMatchShaped(r.value)
  {
    if !Keyword(p, 0, "attack") then None
    else
      var two := if UnitTwo(p, 1) then (UnitTwoShaped(p, 1); AttackWith(p, 3, Phrase(p, 1, 3))) else None;
      if two.Some? then two
      else if OneWord(p, 1) then AttackWith(p, 2, p[1].word)
      else None
  }

  // ---------------------------------------------------------------------------
  // DEFEND: defend LOCATION with UNIT

  function DefendWith(p: seq<Piece>, i: nat, location: string): (r: Option<DefendMatch>)
    requires |location| > 0
    ensures r.Some? ==> DefendMatchShaped(r.value) && r.value.location == location
  {
    if !Keyword(p, i, "with") then None
    else if UnitTwo(p, i + 1) && i + 3 == |p| then
      UnitTwoShaped(p, i + 1);
      Some(DefendMatch(location, Phrase(p, i + 1, i + 3)))
    else if OneWord(p, i + 1) && i + 2 == |p| then Some(DefendMatch(location, p[i + 1].word))
    else None
  }

  function MatchDefend(p: seq<Piece>): (r: Option<DefendMatch>)
    ensures r.Some? ==> DefendMatchShaped(r.value)
  {
    if !Keyword(p, 0, "defend") then None
    else
      var two := if LocTwo(p, 1) then DefendWith(p, 3, Phrase(p, 1, 3)) else None;
      if two.Some? then two
      else if OneWord(p, 1) then DefendWith(p, 2, p[1].word)
      else None
  }

  // ---------------------------------------------------------------------------
  // RETREAT: retreat UNIT [to LOCATION] [when REST]

  function RetreatWhen(p: seq<Piece>, k: nat, unit: string, destination: Option<string>): (r: Option<RetreatMatch>)
    requires UnitShaped(unit) && (destination.Some? ==> |destination.value| > 0)
    ensures r.Some? ==> RetreatMatchShaped(r.value) && r.value.unit == unit && r.value.destination == destination
  {
    if Keyword(p, k, "when") && RestAt(p, k + 1) then
      Some(RetreatMatch(unit, destination, Some(Rest(p, k + 1))))
    else if k == |p| then Some(RetreatMatch(unit, destination, None))
    else None
  }

  function RetreatTo(p: seq<Piece>, i: nat, unit: string): (r: Option<RetreatMatch>)
    requires UnitShaped(unit)
    ensures r.Some? ==> RetreatMatchShaped(r.value) && r.value.unit == unit
  {
    var routed :=
      if !Keyword(p, i, "to") then None
      else
        var two := if LocTwo(p, i + 1) then RetreatWhen(p, i + 3, unit, Some(Phrase(p, i + 1, i + 3))) else None;
        if two.Some? then two
        else if OneWord(p, i + 1) then RetreatWhen(p, i + 2, unit, Some(p[i + 1].word))
        else None;
    if routed.Some? then routed else RetreatWhen(p, i, unit, None)
  }

  function MatchRetreat(p: seq<Piece>): (r: Option<RetreatMatch>)
    ensures r.Some? ==> RetreatMatchShaped(r.value)
  {
    if !Keyword(p, 0, "retreat") then None
    else
      var two := if UnitTwo(p, 1) then (UnitTwoShaped(p, 1); RetreatTo(p, 3, Phrase(p, 1, 3))) else None;
      if two.Some? then two
      else if OneWord(p, 1) then RetreatTo(p, 2, p[1].word)
      else None
  }

  // ---------------------------------------------------------------------------
  // parseCommand

  /** What every parsed order looks like. */
  predicate ParsedShape(o: Order)
  {
    o.action != Support &&
    |o.unit| > 0 && !IsSpace(o.unit[0]) && !IsSpace(o.unit[|o.unit| - 1]) &&
    (o.destination.Some? ==> |o.destination.value| > 0 && NoSpace(o.destination.value) && NoUpper(o.destination.value)) &&
    (o.timeConstraint.Some? ==> o.action == Move && IsTime(o.timeConstraint.value)) &&
    (o.action == Move ==> o.destination.Some? && o.target.None?) &&
    (o.action == Attack ==> o.target.Some? && o.destination.None? && |o.target.value| > 0) &&
    (o.action == Defend ==> o.destination.Some? && o.target.None? && o.modifiers == []) &&
    (o.action == Retreat ==> o.target.None? && |o.modifiers| <= 1)
  }

  function MoveCase(m: MoveMatch): (r: Option<Order>)
    requires MoveMatchShaped(m)
    ensures r.Some? ==> ParsedShape(r.value)
  {
    var destination := NormalizeLocation(Some(m.destination));
    if destination.None? then None
    else
      ShapedUnitNormalized(m.unit);
      Some(Order(NormalizeUnitName(m.unit), Move, None, destination,
                 if Truthy(m.time) then m.time else None, NormalizeModifiers(m.modifiers)))
  }

  function AttackCase(m: AttackMatch): (r: Order)
    requires AttackMatchShaped(m)
    ensures ParsedShape(r)
  {
    ShapedUnitNormalized(m.unit);
    ShapedUnitNormalized(m.target);
    Order(NormalizeUnitName(m.unit), Attack, Some(NormalizeUnitName(m.target)), None, None,
          NormalizeModifiers(m.modifiers))
  }

  function DefendCase(m: DefendMatch): (r: Option<Order>)
    requires DefendMatchShaped(m)
    ensures r.Some? ==> ParsedShape(r.value)
  {
    var location := NormalizeLocation(Some(m.location));
    if location.None? then None
    else
      ShapedUnitNormalized(m.unit);
      Some(Order(NormalizeUnitName(m.unit), Defend, None, location, None, []))
  }

  function RetreatCase(m: RetreatMatch): (r: Order)
    requires RetreatMatchShaped(m)
    ensures ParsedShape(r)
  {
    ShapedUnitNormalized(m.unit);
    Order(NormalizeUnitName(m.unit), Retreat, None, NormalizeLocation(m.destination), None,
          if Truthy(m.condition) then [Lower(m.condition.value)] else [])
  }

  /** `parseCommand`: trim, then try the patterns in the order move, attack,
      defend, retreat; the first pattern that matches decides the result. */
  function ParseCommand(input: string): (r: Option<Order>)
    ensures r.Some? ==> ParsedShape(r.value)
  {
    var p := Split(Trim(input));
    match MatchMove(p)
    case Some(m) => MoveCase(m)
    case None =>
      match MatchAttack(p)
      case Some(m) => Some(AttackCase(m))
      case None =>
        match MatchDefend(p)
        case Some(m) => DefendCase(m)
        case None =>
          match MatchRetreat(p)
          case Some(m) => Some(RetreatCase(m))
          case None => None
  }
}
