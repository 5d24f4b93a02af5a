/** Worked sentences for the command parser. */
module ParserExamples {
  import opened Common
  import opened Orders
  import opened Text
  import opened Parser
  import opened ParserLemmas

  /** Lower-casing a capitalised word changes only its first letter. */
  lemma LowerCapitalized(c: char, rest: string)
    requires NoUpper(rest)
    ensures Lower([c] + rest) == [LowerChar(c)] + rest
  {
    LowerConcat([c], rest);
    LowerIdentity(rest);
  }

  /** Words joined by single spaces. */
  function Spoken(ws: seq<string>): string
    requires |ws| > 0
  {
    Join([Piece("", ws[0])] + ClausePieces(ws[1..]))
  }

  /** A sentence is spoken as its words. */
  lemma SentenceSpoken(v: string, c: Command, ws: seq<string>)
    requires |ws| > 0 && ws[0] == v && |Body(c)| == |ws| - 1
    requires forall k :: 0 <= k < |Body(c)| ==> Body(c)[k] == Spaced(ws[k + 1])
    ensures Join(Sentence(v, c)) == Spoken(ws)
  {
    ClausePiecesShape(ws[1..]);
    assert Body(c) == ClausePieces(ws[1..]);
  }

  function ComplexMove(a: string, x: string, y: string, m: string, n: string): Command
  {
    MoveCmd(UnitPhrase(a, true), Place(x, Some(y)), None, Some([m, n]))
  }

  lemma CapitalMove(c: Command)
    requires c.MoveCmd?
    ensures VerbFor("Move", c)
  {
    assert "Move" == ['M'] + "ove";
    LowerCapitalized('M', "ove");
  }

  lemma ComplexMoveText(a: string, x: string, y: string, m: string, n: string)
    ensures Join(Sentence("Move", ComplexMove(a, x, y, m, n))) ==
            Spoken(["Move", a, "Squad", "to", x, y, "under", m, n])
  {
    assert ClausePieces([m, n]) == [Spaced(m), Spaced(n)] by {
      ClausePiecesShape([m, n]);
    }
    assert Body(ComplexMove(a, x, y, m, n)) ==
      [Spaced(a), Spaced("Squad"), Spaced("to"), Spaced(x), Spaced(y), Spaced("under"), Spaced(m), Spaced(n)];
    SentenceSpoken("Move", ComplexMove(a, x, y, m, n), ["Move", a, "Squad", "to", x, y, "under", m, n]);
  }

  lemma ComplexMoveModifiers(m: string, n: string)
    requires Letters(m) && Letters(n)
    ensures ValidClause(Some([m, n]))
    ensures NormalizeModifiers(ClauseCapture(Some([m, n]))) == [Lower(m) + " " + Lower(n)]
  {
    assert ClauseWords([m, n]);
    assert ClauseText([m, n]) == m + " " + n by {
      assert [m, n][1..] == [n];
      ClausePiecesShape([n]);
      assert Join([Spaced(n)]) == " " + n by {
        assert [Spaced(n)][1..] == [];
      }
      assert m + (" " + n) == m + " " + n;
    }
    assert Lower(m + " " + n) == Lower(m) + " " + Lower(n) by {
      LowerTwoWords(m, n);
    }
    LettersLowerUnbroken(m);
    LettersLowerUnbroken(n);
    SplitAndTwoWords(Lower(m), Lower(n));
  }

  lemma ComplexMoveExpected(a: string, x: string, y: string, m: string, n: string)
    requires Letters(a) && Letters(x) && Letters(y) && Letters(m) && Letters(n)
    requires !CiEq(m, "before") && !CiEq(m, "under")
    ensures ValidCommand(ComplexMove(a, x, y, m, n))
    ensures Expected(ComplexMove(a, x, y, m, n)) ==
            Order(a + " Squad", Move, None, Some(Lower(x) + "-" + Lower(y)), None, [Lower(m) + " " + Lower(n)])
  {
    ComplexMoveModifiers(m, n);
  }

  /** The repository's complex-move parser test, "Move Alpha Squad to Valley
      Beta under radio silence", over any words: the unit keeps its case, the
      two-word destination becomes a hyphenated zone id in lower case and the
      two-word clause after "under" is the one modifier. */
  lemma ComplexMoveCommand(a: string, x: string, y: string, m: string, n: string)
    requires Letters(a) && Letters(x) && Letters(y) && Letters(m) && Letters(n)
    requires !CiEq(m, "before") && !CiEq(m, "under")
    ensures ParseCommand(Spoken(["Move", a, "Squad", "to", x, y, "under", m, n])) ==
            Some(Order(a + " Squad", Move, None, Some(Lower(x) + "-" + Lower(y)), None, [Lower(m) + " " + Lower(n)]))
  {
    var c := ComplexMove(a, x, y, m, n);
    ComplexMoveExpected(a, x, y, m, n);
    CapitalMove(c);
    ParseSentence("Move", c);
    ComplexMoveText(a, x, y, m, n);
  }

  function Misread(a: string, x: string, t: string): Command
  {
    MoveCmd(UnitPhrase(a, false), Place(x, Some("under")), Some(t), None)
  }

  lemma MisreadText(a: string, x: string, t: string)
    ensures Join(Sentence("move", Misread(a, x, t))) == Spoken(["move", a, "to", x, "under", "before", t])
  {
    SentenceSpoken("move", Misread(a, x, t), ["move", a, "to", x, "under", "before", t]);
  }

  lemma MisreadValid(a: string, x: string, t: string)
    requires Letters(a) && Letters(x) && IsTime(t)
    ensures ValidCommand(Misread(a, x, t)) && VerbFor("move", Misread(a, x, t))
  {
    assert Letters("under");
    SpelledLower("move");
  }

  lemma MisreadExpected(a: string, x: string, t: string)
    requires ValidCommand(Misread(a, x, t))
    ensures Expected(Misread(a, x, t)) == Order(a, Move, None, Some(Lower(x) + "-" + "under"), Some(t), [])
  {
    assert Lower("under") == "under" by {
      LowerIdentity("under");
    }
  }

  /** When the word after a one-word destination is a keyword, the pattern
      first tries it as the destination's second word, and keeps that reading
      whenever the rest still matches: "move Alpha to Ridge under before
      0600Z" moves Alpha to zone "ridge-under" with a time and no modifier. */
  lemma KeywordAfterDestinationMisread(a: string, x: string, t: string)
    requires Letters(a) && Letters(x) && IsTime(t)
    ensures ParseCommand(Spoken(["move", a, "to", x, "under", "before", t])) ==
            Some(Order(a, Move, None, Some(Lower(x) + "-" + "under"), Some(t), []))
  {
    MisreadValid(a, x, t);
    MisreadExpected(a, x, t);
    ParseSentence("move", Misread(a, x, t));
    MisreadText(a, x, t);
  }

  /** No pattern matches the words of s. */
  lemma ParseNoMatch(s: string, p: seq<Piece>)
    requires Split(Trim(s)) == p
    requires MatchMove(p) == None && MatchAttack(p) == None && MatchDefend(p) == None && MatchRetreat(p) == None
    ensures ParseCommand(s) == None
  {
  }

  lemma WordsOf(s: string, verb: string, body: seq<Piece>)
    requires Letters(verb) && Spacious(body) && |body| > 0 && s == Join([Piece("", verb)] + body)
    ensures Split(Trim(s)) == [Piece("", verb)] + body
  {
    SentenceSplits(verb, body);
  }

  lemma SpaciousCons(w: string, ps: seq<Piece>)
    requires |w| > 0 && NoSpace(w) && Spacious(ps)
    ensures Spacious([Piece(" ", w)] + ps)
  {
    var q := [Piece(" ", w)] + ps;
    forall k | 1 <= k < |q| ensures q[k] == ps[k - 1] { }
  }

  /** The body of a sentence whose words are `ws`, one space before each. */
  lemma SpacedWords(ws: seq<string>)
    requires forall k :: 0 <= k < |ws| ==> |ws[k]| > 0 && NoSpace(ws[k])
    ensures Spacious(seq(|ws|, k requires 0 <= k < |ws| => Piece(" ", ws[k])))
  {
  }

  function HyphenMoveWords(): seq<Piece>
  {
    [Piece("", "move"), Piece(" ", "Alpha"), Piece(" ", "to"), Piece(" ", "Ridge-3")]
  }

  lemma HyphenMoveJoined()
    ensures Join(HyphenMoveWords()) == "move Alpha to Ridge-3"
  {
  }

  lemma HyphenMoveBody()
    ensures Spacious(HyphenMoveWords()[1..])
  {
    SpacedWords(["Alpha", "to", "Ridge-3"]);
    assert HyphenMoveWords()[1..] == seq(3, k requires 0 <= k < 3 => Piece(" ", ["Alpha", "to", "Ridge-3"][k]));
  }

  lemma HyphenMoveSplits(s: string)
    requires s == "move Alpha to Ridge-3"
    ensures Split(Trim(s)) == HyphenMoveWords()
  {
    var p := HyphenMoveWords();
    HyphenMoveJoined();
    HyphenMoveBody();
    assert p == [Piece("", "move")] + p[1..];
    WordsOf(s, "move", p[1..]);
  }

  lemma HyphenMoveUnmatched()
    ensures MatchMove(HyphenMoveWords()) == None && MatchAttack(HyphenMoveWords()) == None
    ensures MatchDefend(HyphenMoveWords()) == None && MatchRetreat(HyphenMoveWords()) == None
  {
    assert !IsAsciiLetter("Ridge-3"[5]);
    assert |Lower("move")| == 4;
  }

  /** A hyphenated location is not a `[A-Za-z]+` word, so the move pattern
      rejects the command even though zone ids are written this way. */
  lemma HyphenatedDestinationRejected(s: string)
    requires s == "move Alpha to Ridge-3"
    ensures ParseCommand(s) == None
  {
    HyphenMoveSplits(s);
    HyphenMoveUnmatched();
    ParseNoMatch(s, HyphenMoveWords());
  }

  function HyphenAttackWords(): seq<Piece>
  {
    [Piece("", "attack"), Piece(" ", "Enemy-1"), Piece(" ", "with"), Piece(" ", "Bravo")]
  }

  lemma HyphenAttackJoined()
    ensures Join(HyphenAttackWords()) == "attack Enemy-1 with Bravo"
  {
  }

  lemma HyphenAttackBody()
    ensures Spacious(HyphenAttackWords()[1..])
  {
    SpacedWords(["Enemy-1", "with", "Bravo"]);
    assert HyphenAttackWords()[1..] == seq(3, k requires 0 <= k < 3 => Piece(" ", ["Enemy-1", "with", "Bravo"][k]));
  }

  lemma HyphenAttackSplits(s: string)
    requires s == "attack Enemy-1 with Bravo"
    ensures Split(Trim(s)) == HyphenAttackWords()
  {
    var p := HyphenAttackWords();
    HyphenAttackJoined();
    HyphenAttackBody();
    assert p == [Piece("", "attack")] + p[1..];
    WordsOf(s, "attack", p[1..]);
  }

  lemma HyphenAttackUnmatched()
    ensures MatchMove(HyphenAttackWords()) == None && MatchAttack(HyphenAttackWords()) == None
    ensures MatchDefend(HyphenAttackWords()) == None && MatchRetreat(HyphenAttackWords()) == None
  {
    assert !IsAsciiLetter("Enemy-1"[5]);
    assert Lower("attack")[0] == 'a';
  }

  /** A hyphenated unit name is not a `[A-Za-z]+` word either. */
  lemma HyphenatedTargetRejected(s: string)
    requires s == "attack Enemy-1 with Bravo"
    ensures ParseCommand(s) == None
  {
    HyphenAttackSplits(s);
    HyphenAttackUnmatched();
    ParseNoMatch(s, HyphenAttackWords());
  }
}
