/** Properties of the command parser: normalisation laws, and a round trip
    from a structured command, rendered as a sentence, back to the order the
    parser produces for it. */
module ParserLemmas {
  import opened Common
  import opened Orders
  import opened Text
  import opened Parser

  // ---------------------------------------------------------------------------
  // Normalisation laws

  lemma LowerIdentity(s: string)
    requires NoUpper(s)
    ensures Lower(s) == s
  {
  }

  /** Normalising a location twice changes nothing. */
  lemma NormalizeLocationIdempotent(location: Option<string>)
    ensures NormalizeLocation(NormalizeLocation(location)) == NormalizeLocation(location)
  {
    var r := NormalizeLocation(location);
    if r.Some? {
      LowerIdentity(r.value);
      ReplaceSpaceRunsProps(r.value);
    }
  }

  /** One character of an unbroken prefix is copied unchanged. */
  lemma ReplacePrefixStep(x: string, rest: string)
    requires |x| > 0 && NoSpace(x)
    ensures NoSpace(x[1..])
    ensures ReplaceSpaceRuns(x + rest) == [x[0]] + ReplaceSpaceRuns(x[1..] + rest)
  {
    assert forall k :: 0 <= k < |x[1..]| ==> x[1..][k] == x[k + 1];
    var s := x + rest;
    assert s[0] == x[0] && s[1..] == x[1..] + rest;
  }

  lemma {:induction false} ReplaceKeepsWordPrefix(x: string, rest: string)
    requires NoSpace(x)
    ensures ReplaceSpaceRuns(x + rest) == x + ReplaceSpaceRuns(rest)
    decreases |x|
  {
    if |x| > 0 {
      ReplacePrefixStep(x, rest);
      ReplaceKeepsWordPrefix(x[1..], rest);
      assert x == [x[0]] + x[1..];
    } else {
      assert x + rest == rest;
    }
  }

  lemma ReplaceSingleSpace(y: string)
    requires |y| > 0 && NoSpace(y)
    ensures ReplaceSpaceRuns(" " + y) == "-" + y
  {
    SpanSpaceConcat(" ", y);
    assert (" " + y)[1..] == y;
    ReplaceSpaceRunsProps(y);
  }

  lemma LowerSpace()
    ensures Lower(" ") == " "
  {
  }

  lemma LowerTwoWords(a: string, b: string)
    ensures Lower(a + " " + b) == Lower(a) + (" " + Lower(b))
  {
    LowerConcat(a + " ", b);
    LowerConcat(a, " ");
    LowerSpace();
  }

  /** A two-word location becomes both words in lower case, joined by a hyphen. */
  lemma NormalizeTwoWords(a: string, b: string)
    requires Letters(a) && Letters(b)
    ensures NormalizeLocation(Some(a + " " + b)) == Some(Lower(a) + "-" + Lower(b))
  {
    var l := Lower(a + " " + b);
    assert l == Lower(a) + (" " + Lower(b)) by {
      LowerTwoWords(a, b);
    }
    assert ReplaceSpaceRuns(l) == Lower(a) + "-" + Lower(b) by {
      LettersLowerUnbroken(a);
      LettersLowerUnbroken(b);
      ReplaceTwoWords(Lower(a), Lower(b));
    }
    assert Truthy(Some(a + " " + b));
  }

  lemma LettersLowerUnbroken(w: string)
    requires Letters(w)
    ensures |Lower(w)| > 0 && NoSpace(Lower(w))
  {
    assert forall k :: 0 <= k < |w| ==> !IsSpace(w[k]);
  }

  lemma ReplaceTwoWords(x: string, y: string)
    requires NoSpace(x) && NoSpace(y) && |y| > 0
    ensures ReplaceSpaceRuns(x + (" " + y)) == x + "-" + y
  {
    ReplaceKeepsWordPrefix(x, " " + y);
    ReplaceSingleSpace(y);
    assert x + "-" + y == x + ("-" + y);
  }

  lemma NormalizeOneWord(a: string)
    requires Letters(a)
    ensures NormalizeLocation(Some(a)) == Some(Lower(a))
  {
    ReplaceSpaceRunsProps(Lower(a));
  }

  /** A modifier text without whitespace is one modifier. */
  lemma SplitAndSingleWord(s: string)
    requires NoSpace(s)
    ensures SplitAnd(s) == [s]
  {
  }

  /** No separator starts anywhere in two unbroken words joined by one space:
      after the space the word would have to be "and" followed by whitespace. */
  lemma NoSepInTwoWords(x: string, y: string, q: nat)
    requires NoSpace(x) && NoSpace(y) && q <= |x + " " + y|
    ensures SepAt(x + " " + y, q) == 0
  {
    var s := x + " " + y;
    if q < |x| {
      assert s[q..][0] == x[q];
    } else if q == |x| {
      if q + 1 < |s| {
        assert s[q..][1] == y[0];
      }
      if q + 4 < |s| {
        assert s[q + 4..][0] == y[3];
      }
    } else if q < |s| {
      assert s[q..][0] == y[q - |x| - 1];
    }
  }

  /** Two unbroken words joined by one space are one modifier. */
  lemma SplitAndTwoWords(x: string, y: string)
    requires NoSpace(x) && NoSpace(y)
    ensures SplitAnd(x + " " + y) == [x + " " + y]
  {
    var s := x + " " + y;
    forall q | 0 <= q <= |s|
      ensures SepAt(s, q) == 0
    {
      NoSepInTwoWords(x, y, q);
    }
  }

  /** No separator starts inside an unbroken word. */
  lemma NoSepInWord(a: string, rest: string, k: nat)
    requires NoSpace(a) && k < |a|
    ensures SepAt(a + rest, k) == 0
  {
    assert (a + rest)[k..][0] == a[k];
  }

  /** " and " is a whole separator when the text after it does not start
      with whitespace. */
  lemma SepAtAnd(a: string, b: string)
    requires |b| == 0 || !IsSpace(b[0])
    ensures SepAt(a + " and " + b, |a|) == 5
  {
    var s := a + " and " + b;
    var q := |a|;
    assert s[q..] == " and " + b;
    assert SpanSpace(s[q..]) == 1 by {
      assert s[q..][0] == ' ' && s[q..][1] == 'a';
    }
    assert s[q + 1..q + 4] == "and";
    assert s[q + 4..] == " " + b;
    assert SpanSpace(s[q + 4..]) == 1 by {
      if |b| > 0 {
        assert s[q + 4..][1] == b[0];
      }
    }
  }

  /** `split(/\s+and\s+/)` cuts at " and ": an unbroken first piece is
      split off, and the split goes on from the text after the separator.
      The text after it must not start with whitespace, which the trailing
      `\s+` would swallow. */
  lemma SplitAndAtSeparator(a: string, b: string)
    requires NoSpace(a) && (|b| == 0 || !IsSpace(b[0]))
    ensures SplitAnd(a + " and " + b) == [a] + SplitAnd(b)
  {
    var s := a + " and " + b;
    assert s == a + (" and " + b);
    forall k | 0 <= k < |a|
      ensures SepAt(s, k) == 0
    {
      NoSepInWord(a, " and " + b, k);
    }
    SepAtAnd(a, b);
    assert FirstSep(s, 0) == |a|;
    assert s[..|a|] == a && s[|a| + 5..] == b;
  }

  /** Modifiers written out with " and " between them. */
  function JoinAnd(ps: seq<string>): string
    requires |ps| > 0
  {
    if |ps| == 1 then ps[0] else ps[0] + " and " + JoinAnd(ps[1..])
  }

  lemma JoinAndStart(ps: seq<string>)
    requires |ps| > 0 && |ps[0]| > 0
    ensures |JoinAnd(ps)| > 0 && JoinAnd(ps)[0] == ps[0][0]
  {
    if |ps| > 1 {
      assert JoinAnd(ps) == ps[0] + (" and " + JoinAnd(ps[1..]));
    }
  }

  /** Splitting undoes joining: non-empty modifiers without whitespace,
      joined by " and ", split back into the same list. */
  lemma {:induction false} SplitAndJoinAnd(ps: seq<string>)
    requires |ps| > 0 && forall k :: 0 <= k < |ps| ==> |ps[k]| > 0 && NoSpace(ps[k])
    ensures SplitAnd(JoinAnd(ps)) == ps
  {
    if |ps| == 1 {
      SplitAndSingleWord(ps[0]);
    } else {
      var rest := ps[1..];
      assert forall k :: 0 <= k < |rest| ==> rest[k] == ps[k + 1];
      JoinAndStart(rest);
      SplitAndAtSeparator(ps[0], JoinAnd(rest));
      SplitAndJoinAnd(rest);
      assert ps == [ps[0]] + rest;
    }
  }

  // ---------------------------------------------------------------------------
  // Structured commands and their rendering

  /** A unit name: one word, optionally followed by "Squad". */
  datatype UnitPhrase = UnitPhrase(word: string, squad: bool)

  /** A location of one or two words. */
  datatype Place = Place(first: string, second: Option<string>)

  datatype Command =
    | MoveCmd(unit: UnitPhrase, place: Place, time: Option<string>, clause: Option<seq<string>>)
    | AttackCmd(target: UnitPhrase, attacker: UnitPhrase, clause: Option<seq<string>>)
    | DefendCmd(position: Place, defender: UnitPhrase)
    | RetreatCmd(unit: UnitPhrase, fallback: Option<Place>, clause: Option<seq<string>>)

  function Spaced(w: string): Piece
  {
    Piece(" ", w)
  }

  function UnitPieces(u: UnitPhrase): seq<Piece>
  {
    [Spaced(u.word)] + (if u.squad then [Spaced("Squad")] else [])
  }

  function UnitText(u: UnitPhrase): string
  {
    if u.squad then u.word + " Squad" else u.word
  }

  function PlacePieces(d: Place): seq<Piece>
  {
    [Spaced(d.first)] + (if d.second.Some? then [Spaced(d.second.value)] else [])
  }

  function PlaceText(d: Place): string
  {
    if d.second.Some? then d.first + " " + d.second.value else d.first
  }

  /** The destination identifier the parser should produce for a place. */
  function PlaceId(d: Place): string
  {
    if d.second.Some? then Lower(d.first) + "-" + Lower(d.second.value) else Lower(d.first)
  }

  function ClausePieces(c: seq<string>): seq<Piece>
  {
    if |c| == 0 then [] else [Spaced(c[0])] + ClausePieces(c[1..])
  }

  /** Clause words joined by single spaces. */
  function ClauseText(c: seq<string>): string
    requires |c| > 0
  {
    c[0] + Join(ClausePieces(c[1..]))
  }

  function KeyClause(keyword: string, c: Option<seq<string>>): seq<Piece>
  {
    if c.Some? then [Spaced(keyword)] + ClausePieces(c.value) else []
  }

  function TimePieces(t: Option<string>): seq<Piece>
  {
    if t.Some? then [Spaced("before"), Spaced(t.value)] else []
  }

  function FallbackPieces(d: Option<Place>): seq<Piece>
  {
    if d.Some? then [Spaced("to")] + PlacePieces(d.value) else []
  }

  /** The command word a sentence starts with. */
  function Verb(c: Command): string
  {
    match c
    case MoveCmd(_, _, _, _) => "move"
    case AttackCmd(_, _, _) => "attack"
    case DefendCmd(_, _) => "defend"
    case RetreatCmd(_, _, _) => "retreat"
  }

  /** The words after the command word, each preceded by one space. */
  function Body(c: Command): seq<Piece>
  {
    match c
    case MoveCmd(u, d, t, m) =>
      UnitPieces(u) + ([Spaced("to")] + (PlacePieces(d) + (TimePieces(t) + KeyClause("under", m))))
    case AttackCmd(t, u, m) =>
      UnitPieces(t) + ([Spaced("with")] + (UnitPieces(u) + KeyClause("using", m)))
    case DefendCmd(d, u) =>
      PlacePieces(d) + ([Spaced("with")] + UnitPieces(u))
    case RetreatCmd(u, d, m) =>
      UnitPieces(u) + (FallbackPieces(d) + KeyClause("when", m))
  }

  /** The words of a command sentence that starts with the word v. */
  function Sentence(v: string, c: Command): seq<Piece>
  {
    [Piece("", v)] + Body(c)
  }

  /** A spelling of the command word, in any mix of case. */
  predicate VerbFor(v: string, c: Command)
  {
    Letters(v) && CiEq(v, Verb(c))
  }

  /** The command as a sentence, words separated by single spaces. */
  function Render(c: Command): string
  {
    Join(Sentence(Verb(c), c))
  }

  /** Non-empty words without whitespace. */
  predicate ClauseWords(c: seq<string>)
  {
    forall k :: 0 <= k < |c| ==> |c[k]| > 0 && NoSpace(c[k])
  }

  predicate ValidClause(c: Option<seq<string>>)
  {
    c.Some? ==> |c.value| > 0 && ClauseWords(c.value)
  }

  predicate ValidPlace(d: Place)
  {
    Letters(d.first) && (d.second.Some? ==> Letters(d.second.value))
  }

  /** Commands the parser reads back unambiguously. A clause must not start
      with a word that a shorter location would let the pattern read as the
      next keyword, and a defender after a one-word position must not be
      called "with". */
  predicate ValidCommand(c: Command)
  {
    match c
    case MoveCmd(u, d, t, m) =>
      Letters(u.word) && ValidPlace(d) && (t.Some? ==> IsTime(t.value)) && ValidClause(m) &&
      (m.Some? ==> !CiEq(m.value[0], "before") && !CiEq(m.value[0], "under"))
    case AttackCmd(t, u, m) =>
      Letters(t.word) && Letters(u.word) && ValidClause(m)
    case DefendCmd(d, u) =>
      ValidPlace(d) && Letters(u.word) && !CiEq(u.word, "with")
    case RetreatCmd(u, d, m) =>
      Letters(u.word) && (d.Some? ==> ValidPlace(d.value)) && ValidClause(m) &&
      (m.Some? ==> !CiEq(m.value[0], "when"))
  }

  function ClauseCapture(m: Option<seq<string>>): Option<string>
    requires ValidClause(m)
  {
    if m.Some? then Some(ClauseText(m.value)) else None
  }

  /** The order a command stands for, stated without the parser's matchers. */
  function Expected(c: Command): Order
    requires ValidCommand(c)
  {
    match c
    case MoveCmd(u, d, t, m) =>
      Order(UnitText(u), Move, None, Some(PlaceId(d)), t, NormalizeModifiers(ClauseCapture(m)))
    case AttackCmd(t, u, m) =>
      Order(UnitText(u), Attack, Some(UnitText(t)), None, None, NormalizeModifiers(ClauseCapture(m)))
    case DefendCmd(d, u) =>
      Order(UnitText(u), Defend, None, Some(PlaceId(d)), None, [])
    case RetreatCmd(u, d, m) =>
      Order(UnitText(u), Retreat, None, if d.Some? then Some(PlaceId(d.value)) else None, None,
            if m.Some? then [Lower(ClauseText(m.value))] else [])
  }

  // ---------------------------------------------------------------------------
  // Facts about rendered pieces

  lemma ClausePiecesShape(c: seq<string>)
    ensures |ClausePieces(c)| == |c|
    ensures forall k :: 0 <= k < |c| ==> ClausePieces(c)[k] == Spaced(c[k])
  {
    if |c| > 0 {
      ClausePiecesShape(c[1..]);
    }
  }

  /** Pieces separated by single spaces, each word non-empty and unbroken. */
  predicate Spacious(ps: seq<Piece>)
  {
    forall k :: 0 <= k < |ps| ==> ps[k].sep == " " && |ps[k].word| > 0 && NoSpace(ps[k].word)
  }

  lemma SpaciousConcat(a: seq<Piece>, b: seq<Piece>)
    requires Spacious(a) && Spacious(b)
    ensures Spacious(a + b)
  {
    forall k | 0 <= k < |a + b|
      ensures (a + b)[k] == if k < |a| then a[k] else b[k - |a|]
    {
    }
  }

  lemma ClausePiecesSpacious(c: seq<string>)
    requires ClauseWords(c)
    ensures Spacious(ClausePieces(c))
  {
    ClausePiecesShape(c);
  }

  lemma {:induction false} JoinNoLineTerminator(ps: seq<Piece>)
    requires Spacious(ps)
    ensures NoLineTerminator(Join(ps))
  {
    if |ps| > 0 {
      assert Spacious(ps[1..]) by {
        forall k | 0 <= k < |ps[1..]| ensures ps[1..][k] == ps[k + 1] { }
      }
      JoinNoLineTerminator(ps[1..]);
      var s := ps[0].sep + ps[0].word + Join(ps[1..]);
      forall k | 0 <= k < |s| ensures !IsLineTerminator(s[k]) {
        if k < 1 {
          assert s[k] == ' ';
        } else if k < 1 + |ps[0].word| {
          assert s[k] == ps[0].word[k - 1];
        } else {
          assert s[k] == Join(ps[1..])[k - 1 - |ps[0].word|];
        }
      }
    }
  }

  lemma ClauseTextProps(c: seq<string>)
    requires ValidClause(Some(c))
    ensures |ClauseText(c)| > 0 && NoLineTerminator(ClauseText(c))
  {
    ClausePiecesShape(c[1..]);
    assert ClauseWords(c[1..]) by {
      forall k | 0 <= k < |c[1..]| ensures c[1..][k] == c[k + 1] { }
    }
    ClausePiecesSpacious(c[1..]);
    JoinNoLineTerminator(ClausePieces(c[1..]));
    var s := ClauseText(c);
    forall k | 0 <= k < |s| ensures !IsLineTerminator(s[k]) {
      if k < |c[0]| {
        assert s[k] == c[0][k];
      } else {
        assert s[k] == Join(ClausePieces(c[1..]))[k - |c[0]|];
      }
    }
  }

  /** The first piece of a suffix, and the suffix after it. */
  lemma Unfold(p: seq<Piece>, k: nat, x: seq<Piece>)
    requires k <= |p| && p[k..] == x && |x| > 0
    ensures k < |p| && p[k] == x[0] && p[k + 1..] == x[1..]
  {
    assert p[k..][0] == p[k];
    assert p[k + 1..] == p[k..][1..];
  }

  /** The text captured by `(.+)` at the start of a rendered clause is the clause. */
  lemma RestOfClause(p: seq<Piece>, k: nat, c: seq<string>)
    requires k <= |p| && p[k..] == ClausePieces(c) && |c| > 0
    ensures k < |p| && Rest(p, k) == ClauseText(c)
  {
    assert ClausePieces(c) == [Spaced(c[0])] + ClausePieces(c[1..]);
    Unfold(p, k, ClausePieces(c));
    assert p[k + 1..|p|] == p[k + 1..];
    assert Rest(p, k) == p[k].word + Join(p[k + 1..|p|]);
  }

  lemma KeywordLetters()
    ensures Letters("before") && Letters("under") && Letters("when") && Letters("with") &&
            Letters("using") && Letters("to") && Letters("Squad")
  {
  }

  lemma TimeIsNoKeyword(t: string)
    requires IsTime(t)
    ensures !CiEq(t, "under") && !CiEq(t, "before") && !Letters(t)
  {
    assert Lower(t)[0] == t[0];
  }

  lemma SquadIsSquad()
    ensures CiEq("Squad", "squad") && !CiEq("using", "squad")
  {
    assert Lower("using")[0] == 'u';
    assert Lower("Squad") == "squad" by {
      assert forall k :: 0 <= k < 5 ==> Lower("Squad")[k] == "squad"[k];
    }
  }

  lemma UnitTextShaped(u: UnitPhrase)
    requires Letters(u.word)
    ensures UnitShaped(UnitText(u)) && NormalizeUnitName(UnitText(u)) == UnitText(u)
  {
    var t := UnitText(u);
    assert t[0] == u.word[0];
    if u.squad {
      assert t[|t| - 1] == 'd';
    }
    ShapedUnitNormalized(t);
  }

  /** The unit phrase at word i: its text, and the word after it. */
  lemma UnitAt(p: seq<Piece>, i: nat, u: UnitPhrase, after: seq<Piece>)
    requires Letters(u.word) && i <= |p| && p[i..] == UnitPieces(u) + after
    requires |after| > 0 ==> !CiEq(after[0].word, "squad")
    ensures u.squad ==> UnitTwo(p, i) && Phrase(p, i, i + 2) == UnitText(u) && p[i + 2..] == after
    ensures !u.squad ==> !UnitTwo(p, i) && OneWord(p, i) && p[i].word == UnitText(u) && p[i + 1..] == after
  {
    SquadIsSquad();
    Unfold(p, i, UnitPieces(u) + after);
    if u.squad {
      Unfold(p, i + 1, (UnitPieces(u) + after)[1..]);
      PhraseTwo(p, i);
      assert p[i + 2..] == after;
    } else {
      if |after| > 0 {
        Unfold(p, i + 1, after);
      }
    }
  }

  /** A two-word place at word i. */
  lemma PlaceTwoAt(p: seq<Piece>, i: nat, d: Place, after: seq<Piece>)
    requires ValidPlace(d) && d.second.Some? && i <= |p| && p[i..] == PlacePieces(d) + after
    ensures LocTwo(p, i) && Phrase(p, i, i + 2) == PlaceText(d) && p[i + 2..] == after
  {
    Unfold(p, i, PlacePieces(d) + after);
    Unfold(p, i + 1, (PlacePieces(d) + after)[1..]);
    PhraseTwo(p, i);
    assert p[i + 2..] == after;
  }

  /** A one-word place at word i, and what the two-word alternative would read. */
  lemma PlaceOneAt(p: seq<Piece>, i: nat, d: Place, after: seq<Piece>)
    requires ValidPlace(d) && d.second.None? && i <= |p| && p[i..] == PlacePieces(d) + after
    requires |after| > 0 ==> after[0].sep == " "
    ensures OneWord(p, i) && p[i].word == PlaceText(d) && p[i + 1..] == after
    ensures |after| > 0 && Letters(after[0].word) ==>
              LocTwo(p, i) && Phrase(p, i, i + 2) == d.first + " " + after[0].word && p[i + 2..] == after[1..]
    ensures |after| == 0 ==> !LocTwo(p, i)
  {
    Unfold(p, i, PlacePieces(d) + after);
    if |after| > 0 {
      Unfold(p, i + 1, after);
      PhraseTwo(p, i);
    }
  }

  lemma PlaceNormalized(d: Place)
    requires ValidPlace(d)
    ensures NormalizeLocation(Some(PlaceText(d))) == Some(PlaceId(d))
  {
    if d.second.Some? {
      NormalizeTwoWords(d.first, d.second.value);
    } else {
      NormalizeOneWord(d.first);
    }
  }

  // ---------------------------------------------------------------------------
  // MOVE, step by step

  lemma MoveUnderOk(p: seq<Piece>, k: nat, unit: string, dest: string, time: Option<string>, m: Option<seq<string>>)
    requires UnitShaped(unit) && |dest| > 0 && (time.Some? ==> IsTime(time.value)) && ValidClause(m)
    requires k <= |p| && p[k..] == KeyClause("under", m)
    ensures MoveUnder(p, k, unit, dest, time) == Some(MoveMatch(unit, dest, time, ClauseCapture(m)))
  {
    if m.Some? {
      Unfold(p, k, KeyClause("under", m));
      RestOfClause(p, k + 1, m.value);
      ClauseTextProps(m.value);
    }
  }

  lemma MoveBeforeOk(p: seq<Piece>, j: nat, unit: string, dest: string, t: Option<string>, m: Option<seq<string>>)
    requires UnitShaped(unit) && |dest| > 0 && (t.Some? ==> IsTime(t.value)) && ValidClause(m)
    requires m.Some? ==> !CiEq(m.value[0], "before")
    requires j <= |p| && p[j..] == TimePieces(t) + KeyClause("under", m)
    ensures MoveBefore(p, j, unit, dest) == Some(MoveMatch(unit, dest, t, ClauseCapture(m)))
  {
    if t.Some? {
      Unfold(p, j, TimePieces(t) + KeyClause("under", m));
      Unfold(p, j + 1, (TimePieces(t) + KeyClause("under", m))[1..]);
      assert p[j + 2..] == KeyClause("under", m);
      MoveUnderOk(p, j + 2, unit, dest, t, m);
    } else {
      assert p[j..] == KeyClause("under", m);
      if m.Some? {
        Unfold(p, j, KeyClause("under", m));
      }
      MoveUnderOk(p, j, unit, dest, None, m);
    }
  }

  /** After a one-word destination has swallowed the next keyword as its
      second word, the rest of a rendered move does not match. */
  lemma MoveBeforeFails(p: seq<Piece>, j: nat, unit: string, dest: string, t: Option<string>, m: Option<seq<string>>)
    requires UnitShaped(unit) && |dest| > 0 && (t.Some? ==> IsTime(t.value)) && ValidClause(m)
    requires m.Some? ==> !CiEq(m.value[0], "before") && !CiEq(m.value[0], "under")
    requires t.Some? || m.Some?
    requires j <= |p| && p[j..] == if t.Some? then [Spaced(t.value)] + KeyClause("under", m) else ClausePieces(m.value)
    ensures MoveBefore(p, j, unit, dest) == None
  {
    if t.Some? {
      Unfold(p, j, [Spaced(t.value)] + KeyClause("under", m));
      TimeIsNoKeyword(t.value);
    } else {
      ClausePiecesShape(m.value);
      Unfold(p, j, ClausePieces(m.value));
    }
  }

  lemma MoveToTwo(p: seq<Piece>, i: nat, unit: string, d: Place, t: Option<string>, m: Option<seq<string>>)
    requires UnitShaped(unit) && ValidPlace(d) && d.second.Some? && (t.Some? ==> IsTime(t.value)) && ValidClause(m)
    requires m.Some? ==> !CiEq(m.value[0], "before")
    requires i + 1 <= |p| && p[i] == Spaced("to") && p[i + 1..] == PlacePieces(d) + (TimePieces(t) + KeyClause("under", m))
    ensures MoveTo(p, i, unit) == Some(MoveMatch(unit, PlaceText(d), t, ClauseCapture(m)))
  {
    LowerIdentity("to");
    PlaceTwoAt(p, i + 1, d, TimePieces(t) + KeyClause("under", m));
    MoveBeforeOk(p, i + 3, unit, PlaceText(d), t, m);
  }

  lemma MoveToOne(p: seq<Piece>, i: nat, unit: string, d: Place, t: Option<string>, m: Option<seq<string>>)
    requires UnitShaped(unit) && ValidPlace(d) && d.second.None? && (t.Some? ==> IsTime(t.value)) && ValidClause(m)
    requires m.Some? ==> !CiEq(m.value[0], "before") && !CiEq(m.value[0], "under")
    requires i + 1 <= |p| && p[i] == Spaced("to") && p[i + 1..] == PlacePieces(d) + (TimePieces(t) + KeyClause("under", m))
    ensures MoveTo(p, i, unit) == Some(MoveMatch(unit, PlaceText(d), t, ClauseCapture(m)))
  {
    LowerIdentity("to");
    var after := TimePieces(t) + KeyClause("under", m);
    PlaceOneAt(p, i + 1, d, after);
    if |after| > 0 {
      assert Letters(after[0].word) by {
        KeywordLetters();
      }
      assert after[1..] == if t.Some? then [Spaced(t.value)] + KeyClause("under", m) else ClausePieces(m.value);
      MoveBeforeFails(p, i + 3, unit, d.first + " " + after[0].word, t, m);
    }
    MoveBeforeOk(p, i + 2, unit, PlaceText(d), t, m);
  }

  lemma MatchMoveOk(v: string, u: UnitPhrase, d: Place, t: Option<string>, m: Option<seq<string>>)
    requires ValidCommand(MoveCmd(u, d, t, m)) && VerbFor(v, MoveCmd(u, d, t, m))
    ensures MatchMove(Sentence(v, MoveCmd(u, d, t, m))) ==
            Some(MoveMatch(UnitText(u), PlaceText(d), t, ClauseCapture(m)))
  {
    var p := Sentence(v, MoveCmd(u, d, t, m));
    var after := [Spaced("to")] + (PlacePieces(d) + (TimePieces(t) + KeyClause("under", m)));
    var j := if u.squad then 3 else 2;
    assert UnitShaped(UnitText(u)) by {
      UnitTextShaped(u);
    }
    assert (if u.squad then UnitTwo(p, 1) && Phrase(p, 1, 3) == UnitText(u)
            else !UnitTwo(p, 1) && OneWord(p, 1) && p[1].word == UnitText(u)) &&
           j <= |p| && p[j..] == after by {
      Unfold(p, 0, p);
      UnitAt(p, 1, u, after);
    }
    assert MoveTo(p, j, UnitText(u)) == Some(MoveMatch(UnitText(u), PlaceText(d), t, ClauseCapture(m))) by {
      Unfold(p, j, after);
      if d.second.Some? {
        MoveToTwo(p, j, UnitText(u), d, t, m);
      } else {
        MoveToOne(p, j, UnitText(u), d, t, m);
      }
    }
  }


  // ---------------------------------------------------------------------------
  // ATTACK, step by step

  lemma AttackUsingOk(p: seq<Piece>, k: nat, target: string, unit: string, m: Option<seq<string>>)
    requires UnitShaped(target) && UnitShaped(unit) && ValidClause(m)
    requires k <= |p| && p[k..] == KeyClause("using", m)
    ensures AttackUsing(p, k, target, unit) == Some(AttackMatch(target, unit, ClauseCapture(m)))
  {
    if m.Some? {
      LowerIdentity("using");
      Unfold(p, k, KeyClause("using", m));
      RestOfClause(p, k + 1, m.value);
      ClauseTextProps(m.value);
    }
  }

  lemma AttackWithOk(p: seq<Piece>, i: nat, target: string, u: UnitPhrase, m: Option<seq<string>>)
    requires UnitShaped(target) && Letters(u.word) && ValidClause(m)
    requires i + 1 <= |p| && p[i] == Spaced("with") && p[i + 1..] == UnitPieces(u) + KeyClause("using", m)
    ensures AttackWith(p, i, target) == Some(AttackMatch(target, UnitText(u), ClauseCapture(m)))
  {
    assert Keyword(p, i, "with") by {
      LowerIdentity("with");
    }
    assert UnitShaped(UnitText(u)) by {
      UnitTextShaped(u);
    }
    var j := if u.squad then i + 3 else i + 2;
    assert (if u.squad then UnitTwo(p, i + 1) && Phrase(p, i + 1, i + 3) == UnitText(u)
            else !UnitTwo(p, i + 1) && OneWord(p, i + 1) && p[i + 1].word == UnitText(u)) &&
           j <= |p| && p[j..] == KeyClause("using", m) by {
      SquadIsSquad();
      UnitAt(p, i + 1, u, KeyClause("using", m));
    }
    assert AttackUsing(p, j, target, UnitText(u)) == Some(AttackMatch(target, UnitText(u), ClauseCapture(m))) by {
      AttackUsingOk(p, j, target, UnitText(u), m);
    }
  }

  lemma MatchAttackOk(v: string, t: UnitPhrase, u: UnitPhrase, m: Option<seq<string>>)
    requires ValidCommand(AttackCmd(t, u, m)) && VerbFor(v, AttackCmd(t, u, m))
    ensures MatchAttack(Sentence(v, AttackCmd(t, u, m))) ==
            Some(AttackMatch(UnitText(t), UnitText(u), ClauseCapture(m)))
  {
    var p := Sentence(v, AttackCmd(t, u, m));
    var after := [Spaced("with")] + (UnitPieces(u) + KeyClause("using", m));
    var j := if t.squad then 3 else 2;
    assert UnitShaped(UnitText(t)) by {
      UnitTextShaped(t);
    }
    assert (if t.squad then UnitTwo(p, 1) && Phrase(p, 1, 3) == UnitText(t)
            else !UnitTwo(p, 1) && OneWord(p, 1) && p[1].word == UnitText(t)) &&
           j <= |p| && p[j..] == after by {
      Unfold(p, 0, p);
      UnitAt(p, 1, t, after);
    }
    assert AttackWith(p, j, UnitText(t)) == Some(AttackMatch(UnitText(t), UnitText(u), ClauseCapture(m))) by {
      Unfold(p, j, after);
      AttackWithOk(p, j, UnitText(t), u, m);
    }
  }


  // ---------------------------------------------------------------------------
  // DEFEND, step by step

  lemma DefendWithOk(p: seq<Piece>, i: nat, location: string, u: UnitPhrase)
    requires |location| > 0 && Letters(u.word)
    requires i + 1 <= |p| && p[i] == Spaced("with") && p[i + 1..] == UnitPieces(u) + []
    ensures DefendWith(p, i, location) == Some(DefendMatch(location, UnitText(u)))
  {
    LowerIdentity("with");
    UnitAt(p, i + 1, u, []);
  }

  /** A defender not called "with" cannot stand where the keyword is expected. */
  lemma DefendWithFails(p: seq<Piece>, i: nat, location: string, u: UnitPhrase)
    requires |location| > 0 && !CiEq(u.word, "with")
    requires i <= |p| && p[i..] == UnitPieces(u)
    ensures DefendWith(p, i, location) == None
  {
    Unfold(p, i, UnitPieces(u));
  }

  lemma MatchDefendOk(v: string, d: Place, u: UnitPhrase)
    requires ValidCommand(DefendCmd(d, u)) && VerbFor(v, DefendCmd(d, u))
    ensures MatchDefend(Sentence(v, DefendCmd(d, u))) == Some(DefendMatch(PlaceText(d), UnitText(u)))
  {
    var p := Sentence(v, DefendCmd(d, u));
    var after := [Spaced("with")] + UnitPieces(u);
    assert p[1..] == PlacePieces(d) + after by {
      Unfold(p, 0, p);
    }
    assert UnitPieces(u) + [] == UnitPieces(u);
    if d.second.Some? {
      assert LocTwo(p, 1) && Phrase(p, 1, 3) == PlaceText(d) && p[3..] == after by {
        PlaceTwoAt(p, 1, d, after);
      }
      assert DefendWith(p, 3, PlaceText(d)) == Some(DefendMatch(PlaceText(d), UnitText(u))) by {
        Unfold(p, 3, after);
        DefendWithOk(p, 3, PlaceText(d), u);
      }
    } else {
      var swallowed := d.first + " " + after[0].word;
      assert OneWord(p, 1) && p[1].word == PlaceText(d) && p[2..] == after &&
             LocTwo(p, 1) && Phrase(p, 1, 3) == swallowed && p[3..] == UnitPieces(u) by {
        KeywordLetters();
        PlaceOneAt(p, 1, d, after);
        assert after[1..] == UnitPieces(u);
      }
      assert DefendWith(p, 3, swallowed) == None by {
        DefendWithFails(p, 3, swallowed, u);
      }
      assert DefendWith(p, 2, PlaceText(d)) == Some(DefendMatch(PlaceText(d), UnitText(u))) by {
        Unfold(p, 2, after);
        DefendWithOk(p, 2, PlaceText(d), u);
      }
    }
  }


  // ---------------------------------------------------------------------------
  // RETREAT, step by step

  lemma RetreatWhenOk(p: seq<Piece>, k: nat, unit: string, dest: Option<string>, m: Option<seq<string>>)
    requires UnitShaped(unit) && (dest.Some? ==> |dest.value| > 0) && ValidClause(m)
    requires k <= |p| && p[k..] == KeyClause("when", m)
    ensures RetreatWhen(p, k, unit, dest) == Some(RetreatMatch(unit, dest, ClauseCapture(m)))
  {
    if m.Some? {
      LowerIdentity("when");
      Unfold(p, k, KeyClause("when", m));
      RestOfClause(p, k + 1, m.value);
      ClauseTextProps(m.value);
    }
  }

  lemma RetreatWhenFails(p: seq<Piece>, k: nat, unit: string, dest: Option<string>, c: seq<string>)
    requires UnitShaped(unit) && (dest.Some? ==> |dest.value| > 0) && |c| > 0 && !CiEq(c[0], "when")
    requires k <= |p| && p[k..] == ClausePieces(c)
    ensures RetreatWhen(p, k, unit, dest) == None
  {
    ClausePiecesShape(c);
    Unfold(p, k, ClausePieces(c));
  }

  function FallbackText(d: Option<Place>): Option<string>
  {
    if d.Some? then Some(PlaceText(d.value)) else None
  }

  lemma RetreatToTwo(p: seq<Piece>, i: nat, unit: string, d: Place, m: Option<seq<string>>)
    requires UnitShaped(unit) && ValidPlace(d) && d.second.Some? && ValidClause(m)
    requires i + 1 <= |p| && p[i] == Spaced("to") && p[i + 1..] == PlacePieces(d) + KeyClause("when", m)
    ensures RetreatTo(p, i, unit) == Some(RetreatMatch(unit, Some(PlaceText(d)), ClauseCapture(m)))
  {
    LowerIdentity("to");
    PlaceTwoAt(p, i + 1, d, KeyClause("when", m));
    RetreatWhenOk(p, i + 3, unit, Some(PlaceText(d)), m);
  }

  lemma RetreatToOne(p: seq<Piece>, i: nat, unit: string, d: Place, m: Option<seq<string>>)
    requires UnitShaped(unit) && ValidPlace(d) && d.second.None? && ValidClause(m)
    requires m.Some? ==> !CiEq(m.value[0], "when")
    requires i + 1 <= |p| && p[i] == Spaced("to") && p[i + 1..] == PlacePieces(d) + KeyClause("when", m)
    ensures RetreatTo(p, i, unit) == Some(RetreatMatch(unit, Some(PlaceText(d)), ClauseCapture(m)))
  {
    LowerIdentity("to");
    var after := KeyClause("when", m);
    PlaceOneAt(p, i + 1, d, after);
    if m.Some? {
      KeywordLetters();
      assert after[1..] == ClausePieces(m.value);
      RetreatWhenFails(p, i + 3, unit, Some(d.first + " " + after[0].word), m.value);
    }
    RetreatWhenOk(p, i + 2, unit, Some(PlaceText(d)), m);
  }

  lemma RetreatToNone(p: seq<Piece>, i: nat, unit: string, m: Option<seq<string>>)
    requires UnitShaped(unit) && ValidClause(m)
    requires i <= |p| && p[i..] == KeyClause("when", m)
    ensures RetreatTo(p, i, unit) == Some(RetreatMatch(unit, None, ClauseCapture(m)))
  {
    if m.Some? {
      Unfold(p, i, KeyClause("when", m));
    }
    RetreatWhenOk(p, i, unit, None, m);
  }

  lemma MatchRetreatOk(v: string, u: UnitPhrase, d: Option<Place>, m: Option<seq<string>>)
    requires ValidCommand(RetreatCmd(u, d, m)) && VerbFor(v, RetreatCmd(u, d, m))
    ensures MatchRetreat(Sentence(v, RetreatCmd(u, d, m))) ==
            Some(RetreatMatch(UnitText(u), FallbackText(d), ClauseCapture(m)))
  {
    var p := Sentence(v, RetreatCmd(u, d, m));
    var after := FallbackPieces(d) + KeyClause("when", m);
    var j := if u.squad then 3 else 2;
    assert UnitShaped(UnitText(u)) by {
      UnitTextShaped(u);
    }
    assert (if u.squad then UnitTwo(p, 1) && Phrase(p, 1, 3) == UnitText(u)
            else !UnitTwo(p, 1) && OneWord(p, 1) && p[1].word == UnitText(u)) &&
           j <= |p| && p[j..] == after by {
      Unfold(p, 0, p);
      assert p[1..] == UnitPieces(u) + after;
      UnitAt(p, 1, u, after);
    }
    assert RetreatTo(p, j, UnitText(u)) == Some(RetreatMatch(UnitText(u), FallbackText(d), ClauseCapture(m))) by {
      RetreatToOk(p, j, UnitText(u), d, m);
    }
  }


  lemma RetreatToOk(p: seq<Piece>, j: nat, unit: string, d: Option<Place>, m: Option<seq<string>>)
    requires UnitShaped(unit) && (d.Some? ==> ValidPlace(d.value)) && ValidClause(m)
    requires m.Some? ==> !CiEq(m.value[0], "when")
    requires j <= |p| && p[j..] == FallbackPieces(d) + KeyClause("when", m)
    ensures RetreatTo(p, j, unit) == Some(RetreatMatch(unit, FallbackText(d), ClauseCapture(m)))
  {
    if d.Some? {
      Unfold(p, j, FallbackPieces(d) + KeyClause("when", m));
      if d.value.second.Some? {
        RetreatToTwo(p, j, unit, d.value, m);
      } else {
        RetreatToOne(p, j, unit, d.value, m);
      }
    } else {
      assert p[j..] == KeyClause("when", m);
      RetreatToNone(p, j, unit, m);
    }
  }


  // ---------------------------------------------------------------------------
  // Rendering splits back into its words

  lemma UnitPiecesSpacious(u: UnitPhrase)
    requires Letters(u.word)
    ensures Spacious(UnitPieces(u))
  {
  }

  lemma PlacePiecesSpacious(d: Place)
    requires ValidPlace(d)
    ensures Spacious(PlacePieces(d))
  {
  }

  lemma TimePiecesSpacious(t: Option<string>)
    requires t.Some? ==> IsTime(t.value)
    ensures Spacious(TimePieces(t))
  {
    if t.Some? {
      var w := t.value;
      assert NoSpace(w) by {
        forall k | 0 <= k < |w| ensures !IsSpace(w[k]) {
          assert k < 4 ==> IsDigit(w[k]);
        }
      }
    }
  }

  lemma KeyClauseSpacious(keyword: string, m: Option<seq<string>>)
    requires Letters(keyword) && ValidClause(m)
    ensures Spacious(KeyClause(keyword, m))
  {
    if m.Some? {
      ClausePiecesSpacious(m.value);
      SpaciousConcat([Spaced(keyword)], ClausePieces(m.value));
    }
  }

  /** A one-word piece of a letters-only word is spacious. */
  lemma SpacedSpacious(w: string)
    requires Letters(w)
    ensures Spacious([Spaced(w)])
  {
  }

  lemma MoveBodySpacious(u: UnitPhrase, d: Place, t: Option<string>, m: Option<seq<string>>)
    requires ValidCommand(MoveCmd(u, d, t, m))
    ensures Spacious(Body(MoveCmd(u, d, t, m)))
  {
    var tail := TimePieces(t) + KeyClause("under", m);
    assert Spacious(tail) by {
      TimePiecesSpacious(t);
      assert Letters("under");
      KeyClauseSpacious("under", m);
      SpaciousConcat(TimePieces(t), KeyClause("under", m));
    }
    assert Spacious(PlacePieces(d) + tail) by {
      PlacePiecesSpacious(d);
      SpaciousConcat(PlacePieces(d), tail);
    }
    assert Spacious([Spaced("to")] + (PlacePieces(d) + tail)) by {
      assert Letters("to");
      SpacedSpacious("to");
      SpaciousConcat([Spaced("to")], PlacePieces(d) + tail);
    }
    assert Letters("Squad");
    UnitPiecesSpacious(u);
    SpaciousConcat(UnitPieces(u), [Spaced("to")] + (PlacePieces(d) + tail));
  }

  lemma AttackBodySpacious(t: UnitPhrase, u: UnitPhrase, m: Option<seq<string>>)
    requires ValidCommand(AttackCmd(t, u, m))
    ensures Spacious(Body(AttackCmd(t, u, m)))
  {
    assert Letters("Squad");
    var tail := UnitPieces(u) + KeyClause("using", m);
    assert Spacious(tail) by {
      UnitPiecesSpacious(u);
      assert Letters("using");
      KeyClauseSpacious("using", m);
      SpaciousConcat(UnitPieces(u), KeyClause("using", m));
    }
    assert Spacious([Spaced("with")] + tail) by {
      assert Letters("with");
      SpacedSpacious("with");
      SpaciousConcat([Spaced("with")], tail);
    }
    UnitPiecesSpacious(t);
    SpaciousConcat(UnitPieces(t), [Spaced("with")] + tail);
  }

  lemma DefendBodySpacious(d: Place, u: UnitPhrase)
    requires ValidCommand(DefendCmd(d, u))
    ensures Spacious(Body(DefendCmd(d, u)))
  {
    assert Spacious([Spaced("with")] + UnitPieces(u)) by {
      assert Letters("Squad") && Letters("with");
      UnitPiecesSpacious(u);
      SpacedSpacious("with");
      SpaciousConcat([Spaced("with")], UnitPieces(u));
    }
    PlacePiecesSpacious(d);
    SpaciousConcat(PlacePieces(d), [Spaced("with")] + UnitPieces(u));
  }

  lemma RetreatBodySpacious(u: UnitPhrase, d: Option<Place>, m: Option<seq<string>>)
    requires ValidCommand(RetreatCmd(u, d, m))
    ensures Spacious(Body(RetreatCmd(u, d, m)))
  {
    assert Spacious(FallbackPieces(d)) by {
      if d.Some? {
        assert Letters("to");
        SpacedSpacious("to");
        PlacePiecesSpacious(d.value);
        SpaciousConcat([Spaced("to")], PlacePieces(d.value));
      }
    }
    assert Spacious(FallbackPieces(d) + KeyClause("when", m)) by {
      assert Letters("when");
      KeyClauseSpacious("when", m);
      SpaciousConcat(FallbackPieces(d), KeyClause("when", m));
    }
    assert Letters("Squad");
    UnitPiecesSpacious(u);
    SpaciousConcat(UnitPieces(u), FallbackPieces(d) + KeyClause("when", m));
  }

  lemma BodySpacious(c: Command)
    requires ValidCommand(c)
    ensures Spacious(Body(c)) && |Body(c)| > 0
  {
    match c
    case MoveCmd(u, d, t, m) => MoveBodySpacious(u, d, t, m);
    case AttackCmd(t, u, m) => AttackBodySpacious(t, u, m);
    case DefendCmd(d, u) => DefendBodySpacious(d, u);
    case RetreatCmd(u, d, m) => RetreatBodySpacious(u, d, m);
  }

  lemma SpaciousWellSplit(ps: seq<Piece>)
    requires Spacious(ps)
    ensures WellSplit(ps)
  {
  }

  /** Joined spaced words end in a character that is not whitespace. */
  lemma {:induction false} JoinEndsInWord(ps: seq<Piece>)
    requires Spacious(ps) && |ps| > 0
    ensures |Join(ps)| > 0 && !IsSpace(Join(ps)[|Join(ps)| - 1])
  {
    var w := ps[0].word;
    var rest := Join(ps[1..]);
    assert Join(ps) == " " + w + rest;
    if |ps| > 1 {
      assert Spacious(ps[1..]) by {
        forall k | 0 <= k < |ps[1..]| ensures ps[1..][k] == ps[k + 1] { }
      }
      JoinEndsInWord(ps[1..]);
      assert Join(ps)[|Join(ps)| - 1] == rest[|rest| - 1];
    } else {
      assert rest == "";
      assert Join(ps)[|Join(ps)| - 1] == w[|w| - 1];
    }
  }

  lemma EndsNotSpace(x: string, y: string)
    requires |x| > 0 && !IsSpace(x[0]) && |y| > 0 && !IsSpace(y[|y| - 1])
    ensures !IsSpace((x + y)[0]) && !IsSpace((x + y)[|x + y| - 1])
  {
  }

  /** A command word followed by spaced words is its own trim, and splits
      back into those words. */
  lemma SentenceTrimmed(verb: string, body: seq<Piece>)
    requires Letters(verb) && Spacious(body) && |body| > 0
    ensures Trim(Join([Piece("", verb)] + body)) == Join([Piece("", verb)] + body)
  {
    var j := Join(body);
    JoinCons(Piece("", verb), body);
    JoinEndsInWord(body);
    EndsNotSpace(verb, j);
    TrimIdentity(verb + j);
  }

  lemma SentenceSplits(verb: string, body: seq<Piece>)
    requires Letters(verb) && Spacious(body) && |body| > 0
    ensures Split(Trim(Join([Piece("", verb)] + body))) == [Piece("", verb)] + body
  {
    SentenceTrimmed(verb, body);
    SpaciousWellSplit(body);
    WellSplitCons(Piece("", verb), body);
    SplitJoin([Piece("", verb)] + body);
  }



  /** Trimming and splitting a command sentence gives its words back. */
  lemma SentenceOfCommandSplits(v: string, c: Command)
    requires ValidCommand(c) && Letters(v)
    ensures Split(Trim(Join(Sentence(v, c)))) == Sentence(v, c)
  {
    BodySpacious(c);
    SentenceSplits(v, Body(c));
  }

  // ---------------------------------------------------------------------------
  // The round trip

  // Which pattern decides, for any input.

  lemma ParseByMove(s: string, r: MoveMatch)
    requires MatchMove(Split(Trim(s))) == Some(r)
    ensures ParseCommand(s) == MoveCase(r)
  {
  }

  lemma ParseByAttack(s: string, r: AttackMatch)
    requires MatchMove(Split(Trim(s))) == None && MatchAttack(Split(Trim(s))) == Some(r)
    ensures ParseCommand(s) == Some(AttackCase(r))
  {
  }

  lemma ParseByDefend(s: string, r: DefendMatch)
    requires MatchMove(Split(Trim(s))) == None && MatchAttack(Split(Trim(s))) == None
    requires MatchDefend(Split(Trim(s))) == Some(r)
    ensures ParseCommand(s) == DefendCase(r)
  {
  }

  lemma ParseByRetreat(s: string, r: RetreatMatch)
    requires MatchMove(Split(Trim(s))) == None && MatchAttack(Split(Trim(s))) == None
    requires MatchDefend(Split(Trim(s))) == None && MatchRetreat(Split(Trim(s))) == Some(r)
    ensures ParseCommand(s) == Some(RetreatCase(r))
  {
  }

  // What each case makes of the captures of a rendered command.

  lemma MoveCaseExpected(u: UnitPhrase, d: Place, t: Option<string>, m: Option<seq<string>>)
    requires ValidCommand(MoveCmd(u, d, t, m))
    ensures MoveMatchShaped(MoveMatch(UnitText(u), PlaceText(d), t, ClauseCapture(m)))
    ensures MoveCase(MoveMatch(UnitText(u), PlaceText(d), t, ClauseCapture(m))) == Some(Expected(MoveCmd(u, d, t, m)))
  {
    PlaceNormalized(d);
    UnitTextShaped(u);
    if m.Some? {
      ClauseTextProps(m.value);
    }
  }

  lemma AttackCaseExpected(t: UnitPhrase, u: UnitPhrase, m: Option<seq<string>>)
    requires ValidCommand(AttackCmd(t, u, m))
    ensures AttackMatchShaped(AttackMatch(UnitText(t), UnitText(u), ClauseCapture(m)))
    ensures AttackCase(AttackMatch(UnitText(t), UnitText(u), ClauseCapture(m))) == Expected(AttackCmd(t, u, m))
  {
    UnitTextShaped(t);
    UnitTextShaped(u);
    if m.Some? {
      ClauseTextProps(m.value);
    }
  }

  lemma DefendCaseExpected(d: Place, u: UnitPhrase)
    requires ValidCommand(DefendCmd(d, u))
    ensures DefendMatchShaped(DefendMatch(PlaceText(d), UnitText(u)))
    ensures DefendCase(DefendMatch(PlaceText(d), UnitText(u))) == Some(Expected(DefendCmd(d, u)))
  {
    PlaceNormalized(d);
    UnitTextShaped(u);
  }

  lemma RetreatCaseExpected(u: UnitPhrase, d: Option<Place>, m: Option<seq<string>>)
    requires ValidCommand(RetreatCmd(u, d, m))
    ensures RetreatMatchShaped(RetreatMatch(UnitText(u), FallbackText(d), ClauseCapture(m)))
    ensures RetreatCase(RetreatMatch(UnitText(u), FallbackText(d), ClauseCapture(m))) == Expected(RetreatCmd(u, d, m))
  {
    UnitTextShaped(u);
    if d.Some? {
      PlaceNormalized(d.value);
    }
    if m.Some? {
      ClauseTextProps(m.value);
    }
  }

  // The round trip, command by command.

  lemma ParseSentenceMove(v: string, u: UnitPhrase, d: Place, t: Option<string>, m: Option<seq<string>>)
    requires ValidCommand(MoveCmd(u, d, t, m)) && VerbFor(v, MoveCmd(u, d, t, m))
    ensures ParseCommand(Join(Sentence(v, MoveCmd(u, d, t, m)))) == Some(Expected(MoveCmd(u, d, t, m)))
  {
    var c := MoveCmd(u, d, t, m);
    SentenceOfCommandSplits(v, c);
    MatchMoveOk(v, u, d, t, m);
    ParseByMove(Join(Sentence(v, c)), MoveMatch(UnitText(u), PlaceText(d), t, ClauseCapture(m)));
    MoveCaseExpected(u, d, t, m);
  }

  lemma ParseSentenceAttack(v: string, t: UnitPhrase, u: UnitPhrase, m: Option<seq<string>>)
    requires ValidCommand(AttackCmd(t, u, m)) && VerbFor(v, AttackCmd(t, u, m))
    ensures ParseCommand(Join(Sentence(v, AttackCmd(t, u, m)))) == Some(Expected(AttackCmd(t, u, m)))
  {
    var c := AttackCmd(t, u, m);
    var p := Sentence(v, c);
    SentenceOfCommandSplits(v, c);
    assert MatchMove(p) == None by {
      assert p[0].word == v;
    }
    MatchAttackOk(v, t, u, m);
    ParseByAttack(Join(p), AttackMatch(UnitText(t), UnitText(u), ClauseCapture(m)));
    AttackCaseExpected(t, u, m);
  }

  lemma ParseSentenceDefend(v: string, d: Place, u: UnitPhrase)
    requires ValidCommand(DefendCmd(d, u)) && VerbFor(v, DefendCmd(d, u))
    ensures ParseCommand(Join(Sentence(v, DefendCmd(d, u)))) == Some(Expected(DefendCmd(d, u)))
  {
    var c := DefendCmd(d, u);
    var p := Sentence(v, c);
    SentenceOfCommandSplits(v, c);
    assert MatchMove(p) == None && MatchAttack(p) == None by {
      assert p[0].word == v;
      assert Lower(v)[0] == 'd';
    }
    MatchDefendOk(v, d, u);
    ParseByDefend(Join(p), DefendMatch(PlaceText(d), UnitText(u)));
    DefendCaseExpected(d, u);
  }

  lemma ParseSentenceRetreat(v: string, u: UnitPhrase, d: Option<Place>, m: Option<seq<string>>)
    requires ValidCommand(RetreatCmd(u, d, m)) && VerbFor(v, RetreatCmd(u, d, m))
    ensures ParseCommand(Join(Sentence(v, RetreatCmd(u, d, m)))) == Some(Expected(RetreatCmd(u, d, m)))
  {
    var c := RetreatCmd(u, d, m);
    var p := Sentence(v, c);
    SentenceOfCommandSplits(v, c);
    assert MatchMove(p) == None && MatchAttack(p) == None && MatchDefend(p) == None by {
      assert p[0].word == v;
    }
    MatchRetreatOk(v, u, d, m);
    ParseByRetreat(Join(p), RetreatMatch(UnitText(u), FallbackText(d), ClauseCapture(m)));
    RetreatCaseExpected(u, d, m);
  }

  /** Every well-formed command, written as a sentence whose command word may
      be in any case, parses to the order it stands for. */
  lemma ParseSentence(v: string, c: Command)
    requires ValidCommand(c) && VerbFor(v, c)
    ensures ParseCommand(Join(Sentence(v, c))) == Some(Expected(c))
  {
    match c
    case MoveCmd(u, d, t, m) => ParseSentenceMove(v, u, d, t, m);
    case AttackCmd(t, u, m) => ParseSentenceAttack(v, t, u, m);
    case DefendCmd(d, u) => ParseSentenceDefend(v, d, u);
    case RetreatCmd(u, d, m) => ParseSentenceRetreat(v, u, d, m);
  }

  /** Every well-formed command, rendered as a sentence, parses to the order it
      stands for. */
  lemma ParseRender(c: Command)
    requires ValidCommand(c)
    ensures ParseCommand(Render(c)) == Some(Expected(c))
  {
    VerbSpelled(c);
    ParseSentence(Verb(c), c);
  }

  lemma VerbSpelled(c: Command)
    ensures VerbFor(Verb(c), c)
  {
    match c
    case MoveCmd(_, _, _, _) => SpelledLower("move");
    case AttackCmd(_, _, _) => SpelledLower("attack");
    case DefendCmd(_, _) => SpelledLower("defend");
    case RetreatCmd(_, _, _) => SpelledLower("retreat");
  }

  lemma SpelledLower(w: string)
    requires Letters(w) && NoUpper(w)
    ensures Letters(w) && CiEq(w, w)
  {
    LowerIdentity(w);
  }

}
