/** Character classes and string operations of the JavaScript runtime that the
    command parser relies on: the `\s` class (which is also the set `trim`
    strips), line terminators (which `.` does not match), lower-casing
    (of ASCII letters only, where `toLowerCase` maps every Unicode upper-case
    letter), and the split of a string into whitespace-separated words. */
module Text {

  /** ECMAScript WhiteSpace and LineTerminator code points. */
  predicate IsSpace(c: char)
  {
    c == '\t' || c == '\n' || c == '\U{000B}' || c == '\U{000C}' || c == '\r' || c == ' ' ||
    c == '\U{00A0}' || c == '\U{1680}' || ('\U{2000}' <= c <= '\U{200A}') ||
    c == '\U{2028}' || c == '\U{2029}' || c == '\U{202F}' || c == '\U{205F}' ||
    c == '\U{3000}' || c == '\U{FEFF}'
  }

  predicate IsLineTerminator(c: char)
  {
    c == '\n' || c == '\r' || c == '\U{2028}' || c == '\U{2029}'
  }

  predicate IsAsciiLetter(c: char)
  {
    ('A' <= c <= 'Z') || ('a' <= c <= 'z')
  }

  predicate IsDigit(c: char)
  {
    '0' <= c <= '9'
  }

  predicate IsUpper(c: char)
  {
    'A' <= c <= 'Z'
  }

  function LowerChar(c: char): (d: char)
    ensures !IsUpper(d)
    ensures IsSpace(d) == IsSpace(c) && IsAsciiLetter(d) == IsAsciiLetter(c)
    ensures !IsUpper(c) ==> d == c
  {
    if IsUpper(c) then (c as int + 32) as char else c
  }

  /** Lower-casing of ASCII letters; every other character is kept, including
      non-ASCII upper-case letters that `toLowerCase` would map. */
  function Lower(s: string): (r: string)
    ensures |r| == |s|
    ensures forall k :: 0 <= k < |s| ==> r[k] == LowerChar(s[k])
  {
    if |s| == 0 then "" else [LowerChar(s[0])] + Lower(s[1..])
  }

  lemma LowerConcat(a: string, b: string)
    ensures Lower(a + b) == Lower(a) + Lower(b)
  {
    forall k | 0 <= k < |a + b|
      ensures Lower(a + b)[k] == (Lower(a) + Lower(b))[k]
    {
      if k < |a| {
        assert (a + b)[k] == a[k];
      } else {
        assert (a + b)[k] == b[k - |a|];
      }
    }
  }

  predicate NoUpper(s: string)
  {
    forall k :: 0 <= k < |s| ==> !IsUpper(s[k])
  }

  predicate NoSpace(s: string)
  {
    forall k :: 0 <= k < |s| ==> !IsSpace(s[k])
  }

  predicate AllSpace(s: string)
  {
    forall k :: 0 <= k < |s| ==> IsSpace(s[k])
  }

  predicate NoLineTerminator(s: string)
  {
    forall k :: 0 <= k < |s| ==> !IsLineTerminator(s[k])
  }

  /** A word matched by `[A-Za-z]+`. */
  predicate Letters(w: string)
  {
    |w| > 0 && forall k :: 0 <= k < |w| ==> IsAsciiLetter(w[k])
  }

  /** Case-insensitive equality with a lower-case keyword, as a regular
      expression with the `i` flag compares ASCII letters. */
  predicate CiEq(w: string, keyword: string)
  {
    Lower(w) == keyword
  }

  /** A word matched by `\d{4}Z` under the `i` flag. */
  predicate IsTime(w: string)
  {
    |w| == 5 && IsDigit(w[0]) && IsDigit(w[1]) && IsDigit(w[2]) && IsDigit(w[3]) && (w[4] == 'Z' || w[4] == 'z')
  }

  // ---------------------------------------------------------------------------
  // Whitespace runs and trimming

  /** Length of the whitespace run that starts s. */
  function SpanSpace(s: string): (n: nat)
    ensures n <= |s|
    ensures forall k :: 0 <= k < n ==> IsSpace(s[k])
    ensures n < |s| ==> !IsSpace(s[n])
  {
    if |s| == 0 || !IsSpace(s[0]) then 0 else 1 + SpanSpace(s[1..])
  }

  /** Length of the non-whitespace run that starts s. */
  function SpanWord(s: string): (n: nat)
    ensures n <= |s|
    ensures forall k :: 0 <= k < n ==> !IsSpace(s[k])
    ensures n < |s| ==> IsSpace(s[n])
  {
    if |s| == 0 || IsSpace(s[0]) then 0 else 1 + SpanWord(s[1..])
  }

  /** Length of the whitespace run that ends s. */
  function TrailSpace(s: string): (n: nat)
    ensures n <= |s|
    ensures forall k :: |s| - n <= k < |s| ==> IsSpace(s[k])
    ensures n < |s| ==> !IsSpace(s[|s| - n - 1])
  {
    if |s| == 0 || !IsSpace(s[|s| - 1]) then 0 else 1 + TrailSpace(s[..|s| - 1])
  }

  /** `String.prototype.trim`. */
  function Trim(s: string): (r: string)
    ensures r == "" || (!IsSpace(r[0]) && !IsSpace(r[|r| - 1]))
    ensures |r| <= |s|
  {
    var a := SpanSpace(s);
    if a == |s| then "" else s[a..|s| - TrailSpace(s)]
  }

  lemma SpanSpaceConcat(x: string, y: string)
    requires AllSpace(x) && (y == "" || !IsSpace(y[0]))
    ensures SpanSpace(x + y) == |x|
  {
    if |x| > 0 {
      assert (x + y)[1..] == x[1..] + y;
      SpanSpaceConcat(x[1..], y);
    } else {
      assert x + y == y;
    }
  }

  lemma SpanWordConcat(x: string, y: string)
    requires NoSpace(x) && (y == "" || IsSpace(y[0]))
    ensures SpanWord(x + y) == |x|
  {
    if |x| > 0 {
      assert (x + y)[1..] == x[1..] + y;
      SpanWordConcat(x[1..], y);
    } else {
      assert x + y == y;
    }
  }

  /** A string that neither starts nor ends with whitespace is its own trim. */
  lemma TrimIdentity(s: string)
    requires s != "" && !IsSpace(s[0]) && !IsSpace(s[|s| - 1])
    ensures Trim(s) == s
  {
  }

  // ---------------------------------------------------------------------------
  // Words

  /** A word and the whitespace run that precedes it. */
  datatype Piece = Piece(sep: string, word: string)

  function Join(ps: seq<Piece>): string
  {
    if |ps| == 0 then "" else ps[0].sep + ps[0].word + Join(ps[1..])
  }

  /** Separators are whitespace runs, non-empty after the first word, and words
      are non-empty runs without whitespace. */
  predicate WellSplit(ps: seq<Piece>)
  {
    forall k :: 0 <= k < |ps| ==>
      AllSpace(ps[k].sep) && |ps[k].word| > 0 && NoSpace(ps[k].word) && (k > 0 ==> |ps[k].sep| > 0)
  }

  /** The maximal whitespace-separated words of s, each with the run before it;
      whitespace at the end is dropped. */
  function Split(s: string): seq<Piece>
    decreases |s|
  {
    var a := SpanSpace(s);
    if a == |s| then []
    else
      var t := s[a..];
      var b := SpanWord(t);
      [Piece(s[..a], t[..b])] + Split(t[b..])
  }

  lemma WellSplitCons(p: Piece, ps: seq<Piece>)
    requires AllSpace(p.sep) && |p.word| > 0 && NoSpace(p.word) && WellSplit(ps)
    requires |ps| > 0 ==> |ps[0].sep| > 0
    ensures WellSplit([p] + ps)
  {
    forall k | 0 < k < |[p] + ps|
      ensures ([p] + ps)[k] == ps[k - 1]
    {
    }
  }

  /** One step of Split: the whitespace run, the word after it, and the rest. */
  lemma SplitStep(s: string)
    requires SpanSpace(s) < |s|
    ensures var a := SpanSpace(s); var t := s[a..]; var b := SpanWord(t);
      Split(s) == [Piece(s[..a], t[..b])] + Split(t[b..])
  {
  }

  /** The run before the first word is whitespace, the word is non-empty and
      unbroken, and whitespace follows it unless the string ends. */
  lemma SplitPieceFacts(s: string)
    requires SpanSpace(s) < |s|
    ensures var a := SpanSpace(s); var t := s[a..]; var b := SpanWord(t);
      0 < b && (b < |t| ==> IsSpace(t[b])) && AllSpace(s[..a]) && NoSpace(t[..b])
  {
    var a := SpanSpace(s);
    var t := s[a..];
    var b := SpanWord(t);
    assert t[0] == s[a];
    assert forall k :: 0 <= k < a ==> s[..a][k] == s[k];
    assert forall k :: 0 <= k < b ==> t[..b][k] == t[k];
  }

  /** A suffix of a string without trailing whitespace has none either. */
  lemma TrailSuffix(s: string, i: nat)
    requires TrailSpace(s) == 0 && i <= |s|
    ensures TrailSpace(s[i..]) == 0
  {
    if i < |s| {
      assert s[i..][|s| - i - 1] == s[|s| - 1];
    }
  }

  lemma {:induction false} SplitWell(s: string)
    ensures WellSplit(Split(s))
    ensures |Split(s)| > 0 ==> Split(s)[0].sep == s[..SpanSpace(s)]
    decreases |s|
  {
    var a := SpanSpace(s);
    if a < |s| {
      SplitStep(s);
      SplitPieceFacts(s);
      var t := s[a..];
      var b := SpanWord(t);
      var rest := t[b..];
      SplitWell(rest);
      var tail := Split(rest);
      assert |tail| > 0 ==> |tail[0].sep| > 0 by {
        if |tail| > 0 {
          assert rest[0] == t[b];
        }
      }
      WellSplitCons(Piece(s[..a], t[..b]), tail);
    }
  }

  lemma SliceThree(s: string, i: nat, j: nat)
    requires i <= j <= |s|
    ensures s == s[..i] + s[i..j] + s[j..]
  {
  }

  lemma JoinCons(head: Piece, tail: seq<Piece>)
    ensures Join([head] + tail) == head.sep + head.word + Join(tail)
  {
    assert ([head] + tail)[1..] == tail;
  }

  /** Joining the words of a string with no trailing whitespace rebuilds it. */
  /** A non-empty string without trailing whitespace is not all whitespace. */
  lemma NoTrailNotAllSpace(s: string)
    requires TrailSpace(s) == 0
    ensures SpanSpace(s) == |s| ==> s == ""
  {
    if |s| > 0 {
      assert !IsSpace(s[|s| - 1]);
    }
  }

  lemma TakeDrop(s: string, i: nat)
    requires i <= |s|
    ensures s[..i] + s[i..] == s
  {
  }

  lemma JoinHead(s: string, sep: string, word: string, rest: string, tail: seq<Piece>)
    requires Split(s) == [Piece(sep, word)] + tail && Join(tail) == rest
    requires s == sep + (word + rest)
    ensures Join(Split(s)) == s
  {
    JoinCons(Piece(sep, word), tail);
  }

  /** Rebuilding the first word and its run in front of the rebuilt rest. */
  lemma RebuildStep(s: string)
    requires SpanSpace(s) < |s|
    requires var t := s[SpanSpace(s)..]; Join(Split(t[SpanWord(t)..])) == t[SpanWord(t)..]
    ensures Join(Split(s)) == s
  {
    var a := SpanSpace(s);
    var t := s[a..];
    var b := SpanWord(t);
    var rest := t[b..];
    assert Split(s) == [Piece(s[..a], t[..b])] + Split(rest) by {
      SplitStep(s);
    }
    assert s == s[..a] + (t[..b] + rest) by {
      TakeDrop(t, b);
      TakeDrop(s, a);
    }
    JoinHead(s, s[..a], t[..b], rest, Split(rest));
  }

  lemma {:induction false} SplitRebuilds(s: string)
    requires TrailSpace(s) == 0
    ensures Join(Split(s)) == s
    decreases |s|
  {
    var a := SpanSpace(s);
    if a < |s| {
      var t := s[a..];
      TrailSuffix(s, a);
      TrailSuffix(t, SpanWord(t));
      SplitRebuilds(t[SpanWord(t)..]);
      RebuildStep(s);
    } else {
      NoTrailNotAllSpace(s);
    }
  }

  lemma WellSplitTail(ps: seq<Piece>)
    requires WellSplit(ps) && |ps| > 0
    ensures WellSplit(ps[1..])
  {
    forall k | 0 <= k < |ps[1..]|
      ensures ps[1..][k] == ps[k + 1]
    {
    }
  }

  /** Splitting a well-formed sequence of pieces gives the pieces back. */
  lemma {:induction false} SplitJoin(ps: seq<Piece>)
    requires WellSplit(ps)
    ensures Split(Join(ps)) == ps
  {
    if |ps| > 0 {
      var s := Join(ps);
      var rest := Join(ps[1..]);
      WellSplitTail(ps);
      assert rest == "" || IsSpace(rest[0]) by {
        if |ps| > 1 {
          assert rest == ps[1].sep + ps[1].word + Join(ps[2..]) by {
            assert ps[1..][0] == ps[1] && ps[1..][1..] == ps[2..];
          }
          assert rest[0] == ps[1].sep[0];
        }
      }
      assert s == ps[0].sep + (ps[0].word + rest);
      SpanSpaceConcat(ps[0].sep, ps[0].word + rest);
      var a := |ps[0].sep|;
      var t := s[a..];
      assert t == ps[0].word + rest;
      SpanWordConcat(ps[0].word, rest);
      var b := |ps[0].word|;
      assert s[..a] == ps[0].sep && t[..b] == ps[0].word && t[b..] == rest;
      calc {
        Split(s);
      == { SplitStep(s); }
        [Piece(s[..a], t[..b])] + Split(t[b..]);
      == { SplitJoin(ps[1..]); }
        [ps[0]] + ps[1..];
      ==
        ps;
      }
    }
  }

  // ---------------------------------------------------------------------------
  // `replace(/\s+/g, '-')`

  /** Every maximal whitespace run becomes one hyphen. */
  function ReplaceSpaceRuns(s: string): string
    decreases |s|
  {
    if |s| == 0 then ""
    else if IsSpace(s[0]) then "-" + ReplaceSpaceRuns(s[SpanSpace(s)..])
    else [s[0]] + ReplaceSpaceRuns(s[1..])
  }

  /** The characters of a suffix are those of the string, shifted. */
  lemma SuffixChars(s: string, n: nat)
    requires n <= |s|
    ensures forall k :: 0 <= k < |s[n..]| ==> s[n..][k] == s[k + n]
  {
  }

  lemma {:induction false} ReplaceLeavesNoSpace(s: string)
    ensures NoSpace(ReplaceSpaceRuns(s))
    decreases |s|
  {
    if |s| > 0 {
      if IsSpace(s[0]) {
        ReplaceLeavesNoSpace(s[SpanSpace(s)..]);
      } else {
        ReplaceLeavesNoSpace(s[1..]);
      }
    }
  }

  lemma {:induction false} ReplaceKeepsUnbroken(s: string)
    requires NoSpace(s)
    ensures ReplaceSpaceRuns(s) == s
    decreases |s|
  {
    if |s| > 0 {
      SuffixChars(s, 1);
      ReplaceKeepsUnbroken(s[1..]);
      assert s == [s[0]] + s[1..];
    }
  }

  lemma {:induction false} ReplaceKeepsLower(s: string)
    requires NoUpper(s)
    ensures NoUpper(ReplaceSpaceRuns(s))
    decreases |s|
  {
    if |s| > 0 {
      var n := if IsSpace(s[0]) then SpanSpace(s) else 1;
      SuffixChars(s, n);
      ReplaceKeepsLower(s[n..]);
    }
  }

  /** No whitespace survives the replacement, a string without whitespace is
      kept as it is, and no upper-case letter is introduced. */
  lemma ReplaceSpaceRunsProps(s: string)
    ensures NoSpace(ReplaceSpaceRuns(s))
    ensures NoSpace(s) ==> ReplaceSpaceRuns(s) == s
    ensures NoUpper(s) ==> NoUpper(ReplaceSpaceRuns(s))
  {
    ReplaceLeavesNoSpace(s);
    if NoSpace(s) {
      ReplaceKeepsUnbroken(s);
    }
    if NoUpper(s) {
      ReplaceKeepsLower(s);
    }
  }
}
