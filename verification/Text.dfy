/** ASCII case folding, substrings, and SQLite's LIKE (no escape character, ASCII letters compared without case). */
module Text {

  /** Letters from A to Z go to the letter as far from 'a' as they are from 'A'; everything else stays. */
  function Lower(c: char): (l: char)
    ensures 'A' <= c <= 'Z' ==> 'a' <= l <= 'z' && l as int - 'a' as int == c as int - 'A' as int
    ensures !('A' <= c <= 'Z') ==> l == c
  {
    if 'A' <= c <= 'Z' then (c as int + 32) as char else c
  }

  function LowerAll(s: string): string {
    seq(|s|, i requires 0 <= i < |s| => Lower(s[i]))
  }

  predicate At(text: string, i: nat, q: string) {
    i + |q| <= |text| && text[i..i + |q|] == q
  }

  predicate Contains(text: string, q: string) {
    exists i | 0 <= i <= |text| :: At(text, i, q)
  }

  const ANY_RUN: char := '%'
  const ANY_CHAR: char := '_'

  predicate Like(pattern: string, text: string)
    decreases |pattern| + |text|
  {
    if pattern == [] then text == []
    else if pattern[0] == ANY_RUN then
      Like(pattern[1..], text) || (text != [] && Like(pattern, text[1..]))
    else
      text != [] && (pattern[0] == ANY_CHAR || Lower(pattern[0]) == Lower(text[0])) && Like(pattern[1..], text[1..])
  }

  // ----- LIKE in plain terms -----

  function Glue(pieces: seq<string>): string {
    if pieces == [] then [] else pieces[0] + Glue(pieces[1..])
  }

  /** What one pattern character stands for: any text, any one character, or the character itself in either case. */
  predicate Fits(c: char, piece: string) {
    c == '%' || (|piece| == 1 && (c == '_' || Lower(piece[0]) == Lower(c)))
  }

  /** The text cut into one piece for each pattern character. */
  predicate CutsInto(pattern: string, text: string, pieces: seq<string>) {
    |pieces| == |pattern| && Glue(pieces) == text && forall k | 0 <= k < |pieces| :: Fits(pattern[k], pieces[k])
  }

  lemma {:induction false} PiecesOf(pattern: string, text: string) returns (pieces: seq<string>)
    requires Like(pattern, text)
    ensures CutsInto(pattern, text, pieces)
    decreases |pattern| + |text|
  {
    if pattern == [] {
      pieces := [];
    } else if pattern[0] == ANY_RUN && Like(pattern[1..], text) {
      pieces := PiecesOf(pattern[1..], text);
      pieces := FirstPiece(pattern, text, [], pieces);
    } else if pattern[0] == ANY_RUN {
      pieces := PiecesOf(pattern, text[1..]);
      var first := [text[0]] + pieces[0];
      assert text == [text[0]] + (pieces[0] + Glue(pieces[1..]));
      pieces := FirstPiece(pattern, Glue(pieces[1..]), first, pieces[1..]);
      assert first + Glue(pieces[1..]) == text;
    } else {
      pieces := PiecesOf(pattern[1..], text[1..]);
      pieces := FirstPiece(pattern, text[1..], [text[0]], pieces);
      assert [text[0]] + text[1..] == text;
    }
  }

  lemma FirstPiece(pattern: string, rest: string, first: string, more: seq<string>) returns (pieces: seq<string>)
    requires pattern != [] && CutsInto(pattern[1..], rest, more) && Fits(pattern[0], first)
    ensures CutsInto(pattern, first + rest, pieces) && pieces == [first] + more
  {
    pieces := [first] + more;
    assert pieces[1..] == more;
  }

  lemma {:induction false} PiecesMatch(pattern: string, text: string, pieces: seq<string>)
    requires CutsInto(pattern, text, pieces)
    ensures Like(pattern, text)
    decreases |pattern| + |text|
  {
    if pattern != [] {
      var rest := Glue(pieces[1..]);
      assert text == pieces[0] + rest;
      if pattern[0] == ANY_RUN && pieces[0] != [] {
        var shorter := [pieces[0][1..]] + pieces[1..];
        assert shorter[1..] == pieces[1..] && text[1..] == pieces[0][1..] + rest;
        PiecesMatch(pattern, text[1..], shorter);
      } else {
        assert text[|pieces[0]|..] == rest;
        PiecesMatch(pattern[1..], rest, pieces[1..]);
        assert pieces[0] == [] ==> text == rest;
      }
    }
  }

  /** A text is LIKE a pattern exactly if it can be cut into pieces, one for each pattern character: any text for '%',
      any one character for '_', and otherwise the character itself in either case. */
  lemma LikeMeansPieces(pattern: string, text: string)
    ensures Like(pattern, text) <==> exists pieces: seq<string> :: CutsInto(pattern, text, pieces)
  {
    if Like(pattern, text) {
      var pieces := PiecesOf(pattern, text);
    }
    if pieces: seq<string> :| CutsInto(pattern, text, pieces) {
      PiecesMatch(pattern, text, pieces);
    }
  }

  /** The pattern Search builds from a filter text. */
  function Anywhere(q: string): string {
    [ANY_RUN] + q + [ANY_RUN]
  }

  predicate NoWildcards(q: string) {
    ANY_RUN !in q && ANY_CHAR !in q
  }

  lemma {:induction false} LeadingRun(p: string, text: string)
    ensures Like([ANY_RUN] + p, text) <==> exists i: nat | i <= |text| :: Like(p, text[i..])
    decreases |text|
  {
    var pattern := [ANY_RUN] + p;
    assert pattern[1..] == p && text[0..] == text;
    if text != [] {
      LeadingRun(p, text[1..]);
      assert forall i: nat | i <= |text| - 1 :: text[1..][i..] == text[i + 1..];
      if Like(pattern, text[1..]) {
        var i: nat :| i <= |text| - 1 && Like(p, text[1..][i..]);
        assert Like(p, text[i + 1..]);
      }
      if i: nat :| i <= |text| && Like(p, text[i..]) {
        if i > 0 {
          assert Like(p, text[1..][i - 1..]);
        }
      }
    }
  }

  lemma {:induction false} TrailingRun(q: string, text: string)
    ensures Like(q + [ANY_RUN], text) <==> exists j: nat | j <= |text| :: Like(q, text[..j])
    decreases |q| + |text|
  {
    var pattern := q + [ANY_RUN];
    if q == [] {
      RunMatchesAll(text);
      assert pattern == [ANY_RUN] && text[..0] == [];
      assert Like(q, text[..0]);
    } else {
      assert pattern[1..] == q[1..] + [ANY_RUN];
      if q[0] == ANY_RUN {
        TrailingRun(q[1..], text);
        if text != [] {
          TrailingRun(q, text[1..]);
        }
        TrailingAfterRun(q, text);
      } else if text != [] {
        TrailingRun(q[1..], text[1..]);
        TrailingAfterChar(q, text);
      } else {
        assert text[..0] == [];
      }
    }
  }

  lemma RunMatchesAll(text: string)
    ensures Like([ANY_RUN], text)
  {
  }

  /** Unfolding LIKE on prefixes when the pattern starts with a run. */
  lemma TrailingAfterRun(q: string, text: string)
    requires q != [] && q[0] == ANY_RUN
    ensures (exists j: nat | j <= |text| :: Like(q, text[..j])) <==>
            (exists j: nat | j <= |text| :: Like(q[1..], text[..j])) ||
            (text != [] && exists j: nat | j <= |text[1..]| :: Like(q, text[1..][..j]))
  {
    if j: nat :| j <= |text| && Like(q, text[..j]) {
      if !Like(q[1..], text[..j]) {
        assert text[..j][1..] == text[1..][..j - 1];
      }
    }
    if j: nat :| j <= |text| && Like(q[1..], text[..j]) {
      assert Like(q, text[..j]);
    }
    if text != [] {
      if j: nat :| j <= |text[1..]| && Like(q, text[1..][..j]) {
        assert text[..j + 1][1..] == text[1..][..j];
        assert Like(q, text[..j + 1]);
      }
    }
  }

  lemma TrailingAfterChar(q: string, text: string)
    requires q != [] && q[0] != ANY_RUN && text != []
    ensures (exists j: nat | j <= |text| :: Like(q, text[..j])) <==>
            (q[0] == ANY_CHAR || Lower(q[0]) == Lower(text[0])) &&
            exists j: nat | j <= |text[1..]| :: Like(q[1..], text[1..][..j])
  {
    if j: nat :| j <= |text| && Like(q, text[..j]) {
      assert text[..j][1..] == text[1..][..j - 1] && text[..j][0] == text[0];
    }
    if j: nat :| j <= |text[1..]| && Like(q[1..], text[1..][..j]) {
      assert text[..j + 1][1..] == text[1..][..j] && text[..j + 1][0] == text[0];
      assert (q[0] == ANY_CHAR || Lower(q[0]) == Lower(text[0])) ==> Like(q, text[..j + 1]);
    }
  }

  lemma RunAfter(q: string, text: string, i: nat)
    requires i <= |text|
    ensures Like(q + [ANY_RUN], text[i..]) <==> exists j: nat | i <= j <= |text| :: Like(q, text[i..j])
  {
    TrailingRun(q, text[i..]);
    if k: nat :| k <= |text[i..]| && Like(q, text[i..][..k]) {
      assert text[i..][..k] == text[i..i + k];
    }
    if j: nat :| i <= j <= |text| && Like(q, text[i..j]) {
      assert text[i..][..j - i] == text[i..j];
    }
  }

  /** LIKE '%q%' asks exactly for some stretch of the text that q itself, read as a pattern, matches. */
  lemma AnywhereMeaning(q: string, text: string)
    ensures Like(Anywhere(q), text) <==> exists i: nat, j: nat | i <= j <= |text| :: Like(q, text[i..j])
  {
    LeadingRun(q + [ANY_RUN], text);
    assert Anywhere(q) == [ANY_RUN] + (q + [ANY_RUN]);
    if i: nat :| i <= |text| && Like(q + [ANY_RUN], text[i..]) {
      RunAfter(q, text, i);
    }
    if i: nat, j: nat :| i <= j <= |text| && Like(q, text[i..j]) {
      RunAfter(q, text, i);
    }
  }

  lemma {:induction false} LikeItself(q: string)
    ensures Like(q, q)
  {
    if q != [] {
      LikeItself(q[1..]);
    }
  }

  lemma {:induction false} LikePlain(q: string, text: string)
    requires NoWildcards(q)
    ensures Like(q, text) <==> LowerAll(q) == LowerAll(text)
  {
    assert q != [] ==> q[0] in q;
    if q != [] && text != [] {
      LikePlain(q[1..], text[1..]);
      assert LowerAll(q) == [Lower(q[0])] + LowerAll(q[1..]);
      assert LowerAll(text) == [Lower(text[0])] + LowerAll(text[1..]);
      assert LowerAll(q)[1..] == LowerAll(q[1..]) && LowerAll(text)[1..] == LowerAll(text[1..]);
    } else {
      assert |LowerAll(q)| == |q| && |LowerAll(text)| == |text|;
    }
  }

  lemma LowerTwice(s: string)
    ensures LowerAll(LowerAll(s)) == LowerAll(s)
  {
  }

  /** On folded text, a filter text that occurs is always found. */
  lemma ContainedIsFound(q: string, text: string)
    requires Contains(text, q)
    ensures Like(Anywhere(q), text)
  {
    AnywhereMeaning(q, text);
    var i: nat :| At(text, i, q);
    LikeItself(q);
  }

  /** Without wildcards, only texts that contain it are found. */
  lemma PlainFindsOnlyContained(q: string, text: string)
    requires NoWildcards(q) && LowerAll(q) == q && LowerAll(text) == text
    ensures Like(Anywhere(q), text) <==> Contains(text, q)
  {
    if Contains(text, q) {
      ContainedIsFound(q, text);
    }
    AnywhereMeaning(q, text);
    if i: nat, j: nat :| i <= j <= |text| && Like(q, text[i..j]) {
      LikePlain(q, text[i..j]);
      assert forall k | 0 <= k < j - i :: text[i..j][k] == LowerAll(text)[i + k];
      assert LowerAll(text[i..j]) == text[i..j];
      assert At(text, i, q);
    }
  }

  /** A text without wildcards that a pattern matches. */
  function Instance(q: string): string {
    if q == [] then []
    else if q[0] == ANY_RUN then Instance(q[1..])
    else if q[0] == ANY_CHAR then ['a'] + Instance(q[1..])
    else [q[0]] + Instance(q[1..])
  }

  lemma {:induction false} InstanceMatches(q: string)
    ensures Like(q, Instance(q)) && NoWildcards(Instance(q))
    ensures LowerAll(q) == q ==> LowerAll(Instance(q)) == Instance(q)
  {
    if q != [] {
      InstanceMatches(q[1..]);
      var rest := Instance(q[1..]);
      assert Instance(q) != rest ==> Instance(q)[1..] == rest;
      if LowerAll(q) == q {
        assert forall k | 0 <= k < |q[1..]| :: q[1..][k] == LowerAll(q)[k + 1];
        assert LowerAll(q[1..]) == q[1..] && Lower(q[0]) == LowerAll(q)[0];
        assert forall k | 0 <= k < |rest| :: Lower(rest[k]) == LowerAll(rest)[k];
      }
    }
  }

  /** LIKE '%q%' is substring search on all folded texts exactly when q has neither '%' nor '_'. */
  lemma LikeIsSubstringIffPlain(q: string)
    requires LowerAll(q) == q
    ensures NoWildcards(q) <==>
            forall text: string | LowerAll(text) == text :: Like(Anywhere(q), text) <==> Contains(text, q)
  {
    if NoWildcards(q) {
      forall text: string | LowerAll(text) == text
        ensures Like(Anywhere(q), text) <==> Contains(text, q)
      {
        PlainFindsOnlyContained(q, text);
      }
    } else {
      var text := Instance(q);
      InstanceMatches(q);
      AnywhereMeaning(q, text);
      assert text[0..|text|] == text;
      if i: nat :| At(text, i, q) {
        assert forall c <- q :: c in text;
      }
      assert Like(Anywhere(q), text) && !Contains(text, q);
    }
  }
}
