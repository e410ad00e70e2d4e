/** The genre column: a JSON array of strings as Go's encoding/json writes it (sections 5 and 7 of RFC 8259, with
    Go's extra escapes for <, >, & and the two line separators), and what LIKE finds in it. */
module Genres {
  import opened Channels
  import opened Text

  const QUOTE: char := '"'
  const BACKSLASH: char := '\\'

  function Hex(n: nat): char
    requires n < 16
  {
    if n < 10 then (n + '0' as int) as char else (n - 10 + 'a' as int) as char
  }

  function HexValue(c: char): int {
    if '0' <= c <= '9' then c as int - '0' as int
    else if 'a' <= c <= 'f' then c as int - 'a' as int + 10
    else if 'A' <= c <= 'F' then c as int - 'A' as int + 10
    else -1
  }

  predicate NeedsEscape(c: char) {
    c as int < 0x20 || c == QUOTE || c == BACKSLASH || c == '<' || c == '>' || c == '&' ||
    c as int == 0x2028 || c as int == 0x2029
  }

  function Escape(c: char): string {
    if !NeedsEscape(c) then [c]
    else if c == QUOTE || c == BACKSLASH then [BACKSLASH, c]
    else if c == '\n' then [BACKSLASH, 'n']
    else if c == '\r' then [BACKSLASH, 'r']
    else if c == '\t' then [BACKSLASH, 't']
    else
      var n := c as int;
      [BACKSLASH, 'u', Hex(n / 4096 % 16), Hex(n / 256 % 16), Hex(n / 16 % 16), Hex(n % 16)]
  }

  /** Which characters are stored as themselves. */
  lemma StoredAsItself(c: char)
    ensures Escape(c) == [c] <==> c >= ' ' && c !in "\"\\<>&\U{2028}\U{2029}"
  {
  }

  /** The short escapes. */
  lemma StoredShort()
    ensures Escape('"') == "\\\"" && Escape('\\') == "\\\\"
    ensures Escape('\n') == "\\n" && Escape('\r') == "\\r" && Escape('\t') == "\\t"
  {
  }

  /** All others are stored with four hex digits, lower case, that spell their code. */
  lemma StoredAsHex(x: char, a: nat, b: nat, c: nat, d: nat)
    requires NeedsEscape(x) && x !in "\"\\\n\r\t"
    requires a < 16 && b < 16 && c < 16 && d < 16 && x as int == a * 4096 + b * 256 + c * 16 + d
    ensures var digits := "0123456789abcdef";
            Escape(x) == ['\\', 'u', digits[a], digits[b], digits[c], digits[d]]
  {
    DigitsOf(a, b, c, d);
    HexIsDigit(a);
    HexIsDigit(b);
    HexIsDigit(c);
    HexIsDigit(d);
  }

  lemma DigitsOf(a: nat, b: nat, c: nat, d: nat)
    requires a < 16 && b < 16 && c < 16 && d < 16
    ensures var n := a * 4096 + b * 256 + c * 16 + d;
            n / 4096 % 16 == a && n / 256 % 16 == b && n / 16 % 16 == c && n % 16 == d
  {
    var n := a * 4096 + b * 256 + c * 16 + d;
    LastDigit(a * 256 + b * 16 + c, d);
    LastDigit(a * 16 + b, c);
    LastDigit(a, b);
    assert n / 256 == n / 16 / 16 && n / 4096 == n / 256 / 16;
  }

  lemma LastDigit(q: nat, r: nat)
    requires r < 16
    ensures (q * 16 + r) / 16 == q && (q * 16 + r) % 16 == r
  {
  }

  lemma HexIsDigit(n: nat)
    requires n < 16
    ensures Hex(n) == "0123456789abcdef"[n]
  {
  }

  function EscapeAll(s: string): string {
    if s == [] then [] else Escape(s[0]) + EscapeAll(s[1..])
  }

  function Quoted(s: string): string {
    [QUOTE] + EscapeAll(s) + [QUOTE]
  }

  function Elements(genres: seq<string>): string {
    if genres == [] then []
    else if |genres| == 1 then Quoted(genres[0])
    else Quoted(genres[0]) + [','] + Elements(genres[1..])
  }

  /** A nil slice is stored as null. */
  function Encode(genres: Option<seq<string>>): string {
    match genres
    case None => "null"
    case Some(gs) => ['['] + Elements(gs) + [']']
  }

  // ----- Reading it back -----

  function FromHex(a: char, b: char, c: char, d: char): int {
    if HexValue(a) < 0 || HexValue(b) < 0 || HexValue(c) < 0 || HexValue(d) < 0 then -1
    else ((HexValue(a) * 16 + HexValue(b)) * 16 + HexValue(c)) * 16 + HexValue(d)
  }

  /** One escape sequence after its backslash: the character and how many characters it took. */
  function Unescape(text: string): Option<(char, nat)> {
    if text == [] then None
    else if text[0] == QUOTE || text[0] == BACKSLASH || text[0] == '/' then Some((text[0], 1))
    else if text[0] == 'n' then Some(('\n', 1))
    else if text[0] == 'r' then Some(('\r', 1))
    else if text[0] == 't' then Some(('\t', 1))
    else if text[0] == 'u' && |text| >= 5 then
      var n := FromHex(text[1], text[2], text[3], text[4]);
      if 0 <= n < 0xD800 || 0xE000 <= n < 0x10000 then Some((n as char, 5)) else None
    else None
  }

  /** The string up to its closing quote, and what follows. */
  function ReadString(text: string): Option<(string, string)>
    decreases |text|
  {
    if text == [] then None
    else if text[0] == QUOTE then Some(([], text[1..]))
    else if text[0] == BACKSLASH then
      match Unescape(text[1..])
      case None => None
      case Some((c, n)) =>
        if n > |text| - 1 then None
        else
          match ReadString(text[1 + n..])
          case None => None
          case Some((s, rest)) => Some(([c] + s, rest))
    else
      match ReadString(text[1..])
      case None => None
      case Some((s, rest)) => Some(([text[0]] + s, rest))
  }

  /** Elements up to the closing bracket. */
  function ReadElements(text: string, fuel: nat): Option<seq<string>>
    decreases fuel
  {
    if text == [] || text[0] != QUOTE || fuel == 0 then None
    else
      match ReadString(text[1..])
      case None => None
      case Some((s, rest)) =>
        if rest == [']'] then Some([s])
        else if rest != [] && rest[0] == ',' then
          match ReadElements(rest[1..], fuel - 1)
          case None => None
          case Some(more) => Some([s] + more)
        else None
  }

  /** json.Unmarshal on a stored value; on text it cannot read the field stays nil. */
  function Decode(text: string): Option<seq<string>> {
    if text == "[]" then Some([])
    else if text == [] || text[0] != '[' then None
    else ReadElements(text[1..], |text|)
  }

  lemma HexReadsBack(n: nat)
    requires n < 16
    ensures HexValue(Hex(n)) == n
  {
  }

  lemma FourHex(a: nat, b: nat, c: nat, d: nat)
    requires a < 16 && b < 16 && c < 16 && d < 16
    ensures FromHex(Hex(a), Hex(b), Hex(c), Hex(d)) == ((a * 16 + b) * 16 + c) * 16 + d
  {
    HexReadsBack(a);
    HexReadsBack(b);
    HexReadsBack(c);
    HexReadsBack(d);
  }

  lemma HexDigits(n: nat)
    requires n < 65536
    ensures ((n / 4096 % 16 * 16 + n / 256 % 16) * 16 + n / 16 % 16) * 16 + n % 16 == n
  {
    var m := n / 16;
    var l := m / 16;
    assert n == m * 16 + n % 16 && m == l * 16 + m % 16 && l == l / 16 * 16 + l % 16;
    assert l == n / 256 && l / 16 == n / 4096;
  }

  lemma FourDigitsReadBack(n: nat)
    requires n < 65536
    ensures FromHex(Hex(n / 4096 % 16), Hex(n / 256 % 16), Hex(n / 16 % 16), Hex(n % 16)) == n
  {
    HexDigits(n);
    FourHex(n / 4096 % 16, n / 256 % 16, n / 16 % 16, n % 16);
  }

  lemma EscapeReadsBack(c: char, rest: string)
    requires NeedsEscape(c)
    ensures Escape(c) != [] && Escape(c)[0] == BACKSLASH
    ensures Unescape(Escape(c)[1..] + rest) == Some((c, |Escape(c)| - 1))
  {
    FourDigitsReadBack(c as int);
  }

  function Prepend(c: char, r: Option<(string, string)>): Option<(string, string)> {
    match r
    case None => None
    case Some((s, rest)) => Some(([c] + s, rest))
  }

  lemma ReadEscaped(c: char, tail: string)
    requires NeedsEscape(c)
    ensures ReadString(Escape(c) + tail) == Prepend(c, ReadString(tail))
  {
    EscapeReadsBack(c, tail);
    var text := Escape(c) + tail;
    assert text[1..] == Escape(c)[1..] + tail;
    assert text[1 + (|Escape(c)| - 1)..] == tail;
  }

  lemma ReadUnescaped(c: char, tail: string)
    requires !NeedsEscape(c)
    ensures ReadString(Escape(c) + tail) == Prepend(c, ReadString(tail))
  {
    assert ([c] + tail)[1..] == tail;
  }

  lemma ClosingQuote(rest: string)
    ensures ReadString([QUOTE] + rest) == Some(([], rest))
  {
    assert ([QUOTE] + rest)[1..] == rest;
  }

  lemma OneMoreReadsBack(s: string, rest: string)
    requires s != [] && ReadString(EscapeAll(s[1..]) + [QUOTE] + rest) == Some((s[1..], rest))
    ensures ReadString(EscapeAll(s) + [QUOTE] + rest) == Some((s, rest))
  {
    FirstStored(s, rest);
    OneReadsBack(s[0], EscapeAll(s[1..]) + [QUOTE] + rest);
    assert s == [s[0]] + s[1..];
  }

  lemma {:induction false} StringReadsBack(s: string, rest: string)
    ensures ReadString(EscapeAll(s) + [QUOTE] + rest) == Some((s, rest))
    decreases |s|
  {
    if s == [] {
      assert EscapeAll(s) + [QUOTE] + rest == [QUOTE] + rest;
      ClosingQuote(rest);
    } else {
      StringReadsBack(s[1..], rest);
      OneMoreReadsBack(s, rest);
    }
  }

  lemma FirstStored(s: string, rest: string)
    requires s != []
    ensures EscapeAll(s) + [QUOTE] + rest == Escape(s[0]) + (EscapeAll(s[1..]) + [QUOTE] + rest)
  {
  }

  lemma OneReadsBack(c: char, tail: string)
    ensures ReadString(Escape(c) + tail) == Prepend(c, ReadString(tail))
  {
    if NeedsEscape(c) {
      ReadEscaped(c, tail);
    } else {
      ReadUnescaped(c, tail);
    }
  }

  /** What stands after the first element's closing quote. */
  function AfterFirst(genres: seq<string>): string
    requires genres != []
  {
    if |genres| == 1 then [']'] else [','] + (Elements(genres[1..]) + [']'])
  }

  lemma Requote(e: string, more: string)
    ensures [QUOTE] + e + [QUOTE] + [']'] == [QUOTE] + (e + [QUOTE] + [']'])
    ensures [QUOTE] + e + [QUOTE] + [','] + more + [']'] == [QUOTE] + (e + [QUOTE] + ([','] + (more + [']'])))
  {
  }

  lemma FirstElement(genres: seq<string>)
    requires genres != []
    ensures Elements(genres) + [']'] == [QUOTE] + (EscapeAll(genres[0]) + [QUOTE] + AfterFirst(genres))
  {
    Requote(EscapeAll(genres[0]), Elements(genres[1..]));
  }

  lemma ReadOnly(s: string, fuel: nat)
    requires fuel > 0
    ensures ReadElements([QUOTE] + (EscapeAll(s) + [QUOTE] + [']']), fuel) == Some([s])
  {
    assert ([QUOTE] + (EscapeAll(s) + [QUOTE] + [']']))[1..] == EscapeAll(s) + [QUOTE] + [']'];
    StringReadsBack(s, [']']);
  }

  lemma ReadOneMore(s: string, text: string, fuel: nat, more: seq<string>)
    requires fuel > 0 && ReadElements(text, fuel - 1) == Some(more)
    ensures ReadElements([QUOTE] + (EscapeAll(s) + [QUOTE] + ([','] + text)), fuel) == Some([s] + more)
  {
    var rest := [','] + text;
    assert ([QUOTE] + (EscapeAll(s) + [QUOTE] + rest))[1..] == EscapeAll(s) + [QUOTE] + rest && rest[1..] == text;
    StringReadsBack(s, rest);
  }

  lemma {:induction false} ElementsReadBack(genres: seq<string>, fuel: nat)
    requires genres != [] && fuel >= |genres|
    ensures ReadElements(Elements(genres) + [']'], fuel) == Some(genres)
    decreases |genres|
  {
    if |genres| == 1 {
      FirstElement(genres);
      ReadOnly(genres[0], fuel);
      assert genres == [genres[0]];
    } else {
      ElementsReadBack(genres[1..], fuel - 1);
      OneMoreElement(genres, fuel);
    }
  }

  lemma OneMoreElement(genres: seq<string>, fuel: nat)
    requires |genres| > 1 && fuel > 0
    requires ReadElements(Elements(genres[1..]) + [']'], fuel - 1) == Some(genres[1..])
    ensures ReadElements(Elements(genres) + [']'], fuel) == Some(genres)
  {
    FirstOfMore(genres);
    ReadOneMore(genres[0], Elements(genres[1..]) + [']'], fuel, genres[1..]);
    assert genres == [genres[0]] + genres[1..];
  }

  lemma FirstOfMore(genres: seq<string>)
    requires |genres| > 1
    ensures Elements(genres) + [']'] ==
            [QUOTE] + (EscapeAll(genres[0]) + [QUOTE] + ([','] + (Elements(genres[1..]) + [']'])))
  {
    FirstElement(genres);
  }

  lemma {:induction false} ElementsAreLong(genres: seq<string>)
    ensures |Elements(genres)| >= |genres|
  {
    if |genres| > 1 {
      ElementsAreLong(genres[1..]);
    }
  }

  /** Round trip: genres come back from the column exactly as they were stored. */
  lemma GenresRoundTrip(genres: Option<seq<string>>)
    ensures Decode(Encode(genres)) == genres
  {
    if genres.Some? {
      var text := Encode(genres);
      if genres.value == [] {
        assert text == "[]";
      } else {
        assert text[1..] == Elements(genres.value) + [']'];
        ElementsAreLong(genres.value);
        ElementsReadBack(genres.value, |text|);
        assert text[1] == QUOTE;
      }
    }
  }

  // ----- What the genre filter finds -----

  /** The WHERE clause: LOWER(genres) LIKE '%' || lower(genre) || '%'. */
  predicate GenreMatches(column: string, genre: string) {
    Like(Anywhere(LowerAll(genre)), LowerAll(column))
  }

  predicate Unescaped(s: string) {
    forall i | 0 <= i < |s| :: !NeedsEscape(s[i])
  }

  lemma LowerAppend(a: string, b: string)
    ensures LowerAll(a + b) == LowerAll(a) + LowerAll(b)
  {
  }

  lemma ContainsInside(a: string, b: string, c: string, q: string)
    requires Contains(b, q)
    ensures Contains(a + b + c, q)
  {
    var i :| 0 <= i <= |b| && At(b, i, q);
    assert (a + b + c)[|a| + i..|a| + i + |q|] == b[i..i + |q|];
    assert At(a + b + c, |a| + i, q);
  }

  lemma LowerKeepsEscape(c: char)
    ensures NeedsEscape(Lower(c)) <==> NeedsEscape(c)
  {
  }

  lemma {:induction false} EscapeOfUnescaped(s: string)
    requires Unescaped(s)
    ensures EscapeAll(s) == s
  {
    if s != [] {
      EscapeOfUnescaped(s[1..]);
    }
  }

  lemma EscapeFirst(s: string)
    requires s != []
    ensures EscapeAll(s) == Escape(s[0]) + EscapeAll(s[1..])
  {
  }

  lemma Regroup(a: string, b: string, c: string, d: string)
    ensures a + (b + c + d) == (a + b) + c + d
    ensures a + (b + c) == (a + b) + c
  {
  }

  lemma {:induction false} EscapeAppend(a: string, b: string)
    ensures EscapeAll(a + b) == EscapeAll(a) + EscapeAll(b)
  {
    if a == [] {
      assert a + b == b && [] + EscapeAll(b) == EscapeAll(b);
    } else {
      EscapeAppend(a[1..], b);
      assert (a + b)[1..] == a[1..] + b && (a + b)[0] == a[0];
      EscapeFirst(a);
      EscapeFirst(a + b);
      Regroup(Escape(a[0]), EscapeAll(a[1..]), EscapeAll(b), []);
    }
  }

  lemma MoreElements(genres: seq<string>)
    requires |genres| > 1
    ensures Elements(genres) == Quoted(genres[0]) + [','] + Elements(genres[1..])
  {
  }

  lemma {:induction false} ElementIsStored(genres: seq<string>, k: nat) returns (a: string, c: string)
    requires k < |genres|
    ensures Elements(genres) == a + EscapeAll(genres[k]) + c
  {
    if k == 0 {
      a, c := [QUOTE], [QUOTE];
      if |genres| > 1 {
        c := [QUOTE] + ([','] + Elements(genres[1..]));
        MoreElements(genres);
        Regroup([QUOTE] + EscapeAll(genres[0]), [QUOTE], [','], Elements(genres[1..]));
        Regroup([QUOTE] + EscapeAll(genres[0]), [QUOTE], [','] + Elements(genres[1..]), []);
        Regroup([QUOTE] + EscapeAll(genres[0]) + [QUOTE], [','], Elements(genres[1..]), []);
      }
    } else {
      a, c := ElementIsStored(genres[1..], k - 1);
      MoreElements(genres);
      Regroup(Quoted(genres[0]) + [','], a, EscapeAll(genres[k]), c);
      a := Quoted(genres[0]) + [','] + a;
    }
  }

  // ----- Exactly which search texts find every genre that contains them -----

  /** Every manga with a genre that contains the search text is found. */
  ghost predicate AlwaysFound(genre: string) {
    forall genres: seq<string>, k: nat | k < |genres| && Contains(LowerAll(genres[k]), LowerAll(genre)) ::
      GenreMatches(Encode(Some(genres)), genre)
  }

  const OPENING: string := ['[', QUOTE]
  const CLOSING: string := [QUOTE, ']']

  /** The folded search text is part of the array's opening or closing, or occurs in its own stored form. */
  predicate SurvivesStorage(q: string) {
    Contains(OPENING, q) || Contains(CLOSING, q) || Contains(LowerAll(EscapeAll(q)), q)
  }

  lemma LowerEscape(c: char)
    ensures LowerAll(Escape(Lower(c))) == LowerAll(Escape(c))
  {
    if NeedsEscape(c) {
      assert Lower(c) == c;
    }
  }

  /** Folding before storing makes no difference to the folded column. */
  lemma {:induction false} EscapeFolds(s: string)
    ensures LowerAll(EscapeAll(LowerAll(s))) == LowerAll(EscapeAll(s))
  {
    if s != [] {
      var t := LowerAll(s);
      assert t[1..] == LowerAll(s[1..]);
      EscapeFolds(s[1..]);
      LowerEscape(s[0]);
      LowerAppend(Escape(t[0]), EscapeAll(t[1..]));
      LowerAppend(Escape(s[0]), EscapeAll(s[1..]));
    }
  }

  lemma ContainsTwice(text: string, middle: string, q: string)
    requires Contains(text, middle) && Contains(middle, q)
    ensures Contains(text, q)
  {
    var i :| 0 <= i <= |text| && At(text, i, middle);
    assert text == text[..i] + middle + text[i + |middle|..];
    ContainsInside(text[..i], middle, text[i + |middle|..], q);
  }

  /** The part of a genre that folds to the search text. */
  lemma PartOf(g: string, q: string) returns (a: string, b: string, c: string)
    requires Contains(LowerAll(g), q)
    ensures g == a + b + c && LowerAll(b) == q
  {
    var i :| 0 <= i <= |LowerAll(g)| && At(LowerAll(g), i, q);
    a, b, c := g[..i], g[i..i + |q|], g[i + |q|..];
  }

  lemma StoredParts(a: string, b: string, c: string)
    ensures LowerAll(EscapeAll(a + b + c)) == LowerAll(EscapeAll(a)) + LowerAll(EscapeAll(b)) + LowerAll(EscapeAll(c))
  {
    EscapeAppend(a + b, c);
    EscapeAppend(a, b);
    LowerAppend(EscapeAll(a) + EscapeAll(b), EscapeAll(c));
    LowerAppend(EscapeAll(a), EscapeAll(b));
  }

  lemma ContainsMiddle(a: string, b: string, c: string)
    ensures Contains(a + b + c, b)
  {
    assert At(b, 0, b);
    ContainsInside(a, b, c, b);
  }

  /** Whatever a genre contains is stored in it, in stored form. */
  lemma PartIsStored(g: string, q: string)
    requires Contains(LowerAll(g), q)
    ensures Contains(LowerAll(EscapeAll(g)), LowerAll(EscapeAll(q)))
  {
    var a, b, c := PartOf(g, q);
    EscapeFolds(b);
    StoredParts(a, b, c);
    ContainsMiddle(LowerAll(EscapeAll(a)), LowerAll(EscapeAll(b)), LowerAll(EscapeAll(c)));
  }

  lemma ElementInColumn(genres: seq<string>, k: nat)
    requires k < |genres|
    ensures Contains(LowerAll(Encode(Some(genres))), LowerAll(EscapeAll(genres[k])))
  {
    var a, c := ElementIsStored(genres, k);
    InBrackets(a, EscapeAll(genres[k]), c, Elements(genres));
  }

  lemma InBrackets(a: string, e: string, c: string, body: string)
    requires body == a + e + c
    ensures Contains(LowerAll(['['] + body + [']']), LowerAll(e))
  {
    var before, after := ['['] + a, c + [']'];
    assert ['['] + body + [']'] == before + e + after;
    LowerAppend(before + e, after);
    LowerAppend(before, e);
    ContainsMiddle(LowerAll(before), LowerAll(e), LowerAll(after));
  }

  lemma {:induction false} ElementsEnds(genres: seq<string>)
    requires genres != []
    ensures |Elements(genres)| >= 2 && Elements(genres)[0] == QUOTE && Elements(genres)[|Elements(genres)| - 1] == QUOTE
  {
    if |genres| > 1 {
      MoreElements(genres);
      ElementsEnds(genres[1..]);
    }
  }

  lemma OpensAndCloses(body: string, text: string)
    requires |body| >= 2 && body[0] == QUOTE && body[|body| - 1] == QUOTE && text == ['['] + body + [']']
    ensures Contains(LowerAll(text), OPENING) && Contains(LowerAll(text), CLOSING)
  {
    var folded, n := LowerAll(text), |body|;
    assert folded[0] == '[' && folded[1] == QUOTE && folded[n] == QUOTE && folded[n + 1] == ']';
    assert folded[0..2] == OPENING;
    assert At(folded, 0, OPENING);
    assert folded[n..n + 2] == CLOSING;
    assert At(folded, n, CLOSING);
  }

  /** A column that is not empty opens and closes with a bracket and a quote. */
  lemma BracketsInColumn(genres: seq<string>)
    requires genres != []
    ensures Contains(LowerAll(Encode(Some(genres))), OPENING) && Contains(LowerAll(Encode(Some(genres))), CLOSING)
  {
    ElementsEnds(genres);
    OpensAndCloses(Elements(genres), Encode(Some(genres)));
  }

  lemma SurvivorIsFound(genres: seq<string>, k: nat, genre: string)
    requires k < |genres| && Contains(LowerAll(genres[k]), LowerAll(genre)) && SurvivesStorage(LowerAll(genre))
    ensures GenreMatches(Encode(Some(genres)), genre)
  {
    var q, column := LowerAll(genre), LowerAll(Encode(Some(genres)));
    BracketsInColumn(genres);
    if Contains(OPENING, q) {
      ContainsTwice(column, OPENING, q);
    } else if Contains(CLOSING, q) {
      ContainsTwice(column, CLOSING, q);
    } else {
      PartIsStored(genres[k], q);
      ElementInColumn(genres, k);
      ContainsTwice(LowerAll(EscapeAll(genres[k])), LowerAll(EscapeAll(q)), q);
      ContainsTwice(column, LowerAll(EscapeAll(genres[k])), q);
    }
    ContainedIsFound(q, column);
  }

  // A genre that shows the other half: the text between two runs it can neither start nor end in.

  function Repeat(c: char, n: nat): string {
    seq(n, _ => c)
  }

  /** A plain letter that is neither the first nor the last of the text. */
  function Filler(q: string): (z: char)
    ensures z in "abc" && (q != [] ==> z != q[0] && z != q[|q| - 1])
  {
    if q == [] || (q[0] != 'a' && q[|q| - 1] != 'a') then 'a'
    else if q[0] != 'b' && q[|q| - 1] != 'b' then 'b'
    else 'c'
  }

  lemma StretchMissesRun(a: string, z: char, n: nat, b: string, q: string)
    requires q != [] && n >= |q| && z != q[0] && z != q[|q| - 1] && Contains(a + Repeat(z, n) + b, q)
    ensures Contains(a, q) || Contains(b, q)
  {
    var text := a + Repeat(z, n) + b;
    var i :| 0 <= i <= |text| && At(text, i, q);
    var last := i + |q| - 1;
    assert text[i..i + |q|] == q;
    assert text[i] == q[0] && text[last] == q[|q| - 1];
    assert forall k | |a| <= k < |a| + n :: text[k] == z;
    assert i < |a| || i >= |a| + n;
    assert last < |a| || last >= |a| + n;
    if last < |a| {
      assert text == a + (Repeat(z, n) + b);
      PartOfFront(a, Repeat(z, n) + b, i, q);
    } else {
      PartOfBack(a + Repeat(z, n), b, i, q);
    }
  }

  lemma PartOfFront(a: string, c: string, i: nat, q: string)
    requires i + |q| <= |a| && (a + c)[i..i + |q|] == q
    ensures Contains(a, q)
  {
    assert a[i..i + |q|] == (a + c)[i..i + |q|];
    assert At(a, i, q);
  }

  lemma PartOfBack(c: string, b: string, i: nat, q: string)
    requires |c| <= i && i + |q| <= |c| + |b| && (c + b)[i..i + |q|] == q
    ensures Contains(b, q)
  {
    var j := i - |c|;
    assert b[j..j + |q|] == (c + b)[i..i + |q|];
    assert At(b, j, q);
  }

  function Padded(q: string): string {
    Repeat(Filler(q), |q|) + q + Repeat(Filler(q), |q|)
  }

  lemma Bracketed(e: string)
    ensures ['['] + ([QUOTE] + e + [QUOTE]) + [']'] == OPENING + e + CLOSING
  {
  }

  lemma OneElement(g: string)
    ensures Elements([g]) == Quoted(g)
  {
  }

  lemma OneElementColumn(g: string)
    ensures Encode(Some([g])) == OPENING + EscapeAll(g) + CLOSING
  {
    OneElement(g);
    Bracketed(EscapeAll(g));
  }

  lemma PadIsPlain(z: char, n: nat)
    requires z in "abc"
    ensures Unescaped(Repeat(z, n)) && LowerAll(Repeat(z, n)) == Repeat(z, n)
  {
  }

  lemma BracketsFold()
    ensures LowerAll(OPENING) == OPENING && LowerAll(CLOSING) == CLOSING
  {
  }

  lemma PaddedStored(pad: string, q: string)
    requires Unescaped(pad)
    ensures EscapeAll(pad + q + pad) == pad + EscapeAll(q) + pad
  {
    EscapeOfUnescaped(pad);
    EscapeAppend(pad + q, pad);
    EscapeAppend(pad, q);
  }

  lemma FoldedParts(a: string, pad: string, e: string, c: string)
    requires LowerAll(a) == a && LowerAll(pad) == pad && LowerAll(c) == c
    ensures LowerAll(a + (pad + e + pad) + c) == a + pad + (LowerAll(e) + pad + c)
  {
    LowerAppend(a + (pad + e + pad), c);
    LowerAppend(a, pad + e + pad);
    LowerAppend(pad + e, pad);
    LowerAppend(pad, e);
  }

  lemma PaddedColumn(q: string)
    ensures var pad := Repeat(Filler(q), |q|);
            LowerAll(Encode(Some([Padded(q)]))) == OPENING + pad + (LowerAll(EscapeAll(q)) + pad + CLOSING)
  {
    var pad := Repeat(Filler(q), |q|);
    PadIsPlain(Filler(q), |q|);
    BracketsFold();
    OneElementColumn(Padded(q));
    PaddedStored(pad, q);
    FoldedParts(OPENING, pad, EscapeAll(q), CLOSING);
  }

  lemma PaddedContains(q: string)
    requires LowerAll(q) == q
    ensures Contains(LowerAll(Padded(q)), q)
  {
    var pad := Repeat(Filler(q), |q|);
    LowerAppend(pad + q, pad);
    LowerAppend(pad, q);
    assert At(q, 0, q);
    ContainsInside(LowerAll(pad), q, LowerAll(pad), q);
  }

  lemma FoundInPaddedSurvives(q: string)
    requires Contains(LowerAll(Encode(Some([Padded(q)]))), q)
    ensures SurvivesStorage(q)
  {
    if q == [] {
      assert At(OPENING, 0, q);
    } else {
      var z, e := Filler(q), LowerAll(EscapeAll(q));
      PaddedColumn(q);
      StretchMissesRun(OPENING, z, |q|, e + Repeat(z, |q|) + CLOSING, q);
      if !Contains(OPENING, q) {
        StretchMissesRun(e, z, |q|, CLOSING, q);
      }
    }
  }

  /** Exactly when the filter can be relied on: a search text without wildcards finds every manga that has a genre
      containing it if and only if its folded form is part of the array's opening or closing, or occurs in the form in
      which it is itself stored. */
  lemma AlwaysFoundIffSurvives(genre: string)
    ensures SurvivesStorage(LowerAll(genre)) ==> AlwaysFound(genre)
    ensures NoWildcards(genre) ==> (AlwaysFound(genre) <==> SurvivesStorage(LowerAll(genre)))
  {
    var q := LowerAll(genre);
    if SurvivesStorage(q) {
      forall genres: seq<string>, k: nat | k < |genres| && Contains(LowerAll(genres[k]), q)
        ensures GenreMatches(Encode(Some(genres)), genre)
      {
        SurvivorIsFound(genres, k, genre);
      }
    }
    if NoWildcards(genre) && AlwaysFound(genre) {
      var column := LowerAll(Encode(Some([Padded(q)])));
      LowerTwice(genre);
      LowerTwice(Encode(Some([Padded(q)])));
      PaddedContains(q);
      assert [Padded(q)][0] == Padded(q);
      assert GenreMatches(Encode(Some([Padded(q)])), genre);
      FoldedIsPlain(genre);
      PlainFindsOnlyContained(q, column);
      FoundInPaddedSurvives(q);
    }
  }

  lemma FoldedIsPlain(genre: string)
    requires NoWildcards(genre)
    ensures NoWildcards(LowerAll(genre))
  {
    assert forall k | 0 <= k < |genre| :: genre[k] in genre;
  }

  // ----- Sufficient conditions, and what else is found -----

  /** Every manga with a genre that contains the search text is found, if no character of the search text is one
      that gets escaped; what else the genres contain does not matter. */
  lemma GenreIsFound(genres: seq<string>, k: nat, genre: string)
    requires k < |genres| && Contains(LowerAll(genres[k]), LowerAll(genre)) && Unescaped(genre)
    ensures GenreMatches(Encode(Some(genres)), genre)
  {
    var q := LowerAll(genre);
    forall i | 0 <= i < |q|
      ensures !NeedsEscape(q[i])
    {
      LowerKeepsEscape(genre[i]);
    }
    EscapeOfUnescaped(q);
    LowerTwice(genre);
    assert At(q, 0, q);
    SurvivorIsFound(genres, k, genre);
  }

  /** Neither escaped nor part of the array's own punctuation (the quote is among the escaped ones). */
  predicate Inner(s: string) {
    Unescaped(s) && '[' !in s && ']' !in s && ',' !in s
  }

  /** A stretch that avoids the separator lies on one side of it. */
  lemma StretchOnOneSide(a: string, sep: char, b: string, q: string)
    requires sep !in q && q != [] && Contains(a + [sep] + b, q)
    ensures Contains(a, q) || Contains(b, q)
  {
    var text := a + [sep] + b;
    var i :| 0 <= i <= |text| && At(text, i, q);
    forall k | i <= k < i + |q|
      ensures text[k] == q[k - i] && text[k] != sep
    {
      assert text[i..i + |q|][k - i] == text[k] && q[k - i] in q;
    }
    assert text[|a|] == sep;
    if i + |q| <= |a| {
      assert a[i..i + |q|] == q;
      assert At(a, i, q);
    } else {
      var j := i - |a| - 1;
      assert b[j..j + |q|] == q;
      assert At(b, j, q);
    }
  }

  lemma EmptyContainsNothing(q: string)
    requires q != []
    ensures !Contains([], q)
  {
  }

  /** LOWER of one stored element. */
  lemma LowerQuoted(g: string)
    requires Unescaped(g)
    ensures LowerAll(Quoted(g)) == [] + [QUOTE] + (LowerAll(g) + [QUOTE] + [])
  {
    EscapeOfUnescaped(g);
  }

  lemma QuotedContains(g: string, q: string)
    requires Unescaped(g) && QUOTE !in q && q != [] && Contains(LowerAll(Quoted(g)), q)
    ensures Contains(LowerAll(g), q)
  {
    LowerQuoted(g);
    StretchOnOneSide([], QUOTE, LowerAll(g) + [QUOTE] + [], q);
    EmptyContainsNothing(q);
    StretchOnOneSide(LowerAll(g), QUOTE, [], q);
  }

  lemma {:induction false} ElementsContain(genres: seq<string>, q: string)
    requires (forall g <- genres :: Unescaped(g)) && QUOTE !in q && ',' !in q && q != []
    requires Contains(LowerAll(Elements(genres)), q)
    ensures exists g <- genres :: Contains(LowerAll(g), q)
  {
    if genres == [] {
      EmptyContainsNothing(q);
    } else if |genres| == 1 {
      QuotedContains(genres[0], q);
    } else {
      LowerAppend(Quoted(genres[0]) + [','], Elements(genres[1..]));
      LowerAppend(Quoted(genres[0]), [',']);
      assert LowerAll([',']) == [','];
      StretchOnOneSide(LowerAll(Quoted(genres[0])), ',', LowerAll(Elements(genres[1..])), q);
      if Contains(LowerAll(Quoted(genres[0])), q) {
        QuotedContains(genres[0], q);
      } else {
        ElementsContain(genres[1..], q);
      }
    }
  }

  lemma FoundIsInSomeGenre(genres: seq<string>, q: string)
    requires q != [] && (forall c <- q :: c != QUOTE && c != ',' && c != '[' && c != ']')
    requires forall g <- genres :: Unescaped(g)
    requires Contains(LowerAll(Encode(Some(genres))), q)
    ensures exists g <- genres :: Contains(LowerAll(g), q)
  {
    var body := LowerAll(Elements(genres));
    assert LowerAll(Encode(Some(genres))) == [] + ['['] + (body + [']'] + []);
    StretchOnOneSide([], '[', body + [']'] + [], q);
    EmptyContainsNothing(q);
    StretchOnOneSide(body, ']', [], q);
    ElementsContain(genres, q);
  }

  lemma FoldedCharacters(genre: string)
    requires Inner(genre) && NoWildcards(genre)
    ensures forall c <- LowerAll(genre) :: c != QUOTE && c != ',' && c != '[' && c != ']'
    ensures NoWildcards(LowerAll(genre))
  {
    assert forall k | 0 <= k < |genre| :: genre[k] in genre;
  }

  /** For search texts without wildcards, escapes or array punctuation, on genres that need no escaping, the filter
      is exact: it finds a manga if and only if one of its genres contains the text. */
  lemma GenreFilterExact(genres: seq<string>, genre: string)
    requires genre != [] && Inner(genre) && NoWildcards(genre) && forall g <- genres :: Unescaped(g)
    ensures GenreMatches(Encode(Some(genres)), genre) <==> exists g <- genres :: Contains(LowerAll(g), LowerAll(genre))
  {
    var q := LowerAll(genre);
    FoldedCharacters(genre);
    if g :| g in genres && Contains(LowerAll(g), q) {
      var k :| 0 <= k < |genres| && genres[k] == g;
      GenreIsFound(genres, k, genre);
    }
    var column := Encode(Some(genres));
    LowerTwice(genre);
    LowerTwice(column);
    PlainFindsOnlyContained(q, LowerAll(column));
    if GenreMatches(column, genre) {
      FoundIsInSomeGenre(genres, q);
    }
  }

  /** The conditions matter: "R&B" is stored with its ampersand escaped, so a search for r&b misses it. */
  lemma EscapedGenreIsMissed()
    ensures Contains(LowerAll("R&B"), LowerAll("r&b")) && !GenreMatches(Encode(Some(["R&B"])), "r&b")
  {
    assert LowerAll("R&B") == "r&b" && LowerAll("r&b") == "r&b";
    assert At("r&b", 0, "r&b");
    var column := Encode(Some(["R&B"]));
    StoredAmpersand();
    LowerTwice(column);
    PlainFindsOnlyContained("r&b", LowerAll(column));
    AbsentCharacter(LowerAll(column), "r&b", 1);
  }

  lemma AbsentCharacter(text: string, q: string, k: nat)
    requires k < |q| && q[k] !in text
    ensures !Contains(text, q)
  {
    forall i | 0 <= i <= |text|
      ensures !At(text, i, q)
    {
      if i + |q| <= |text| {
        assert text[i..i + |q|][k] == text[i + k];
      }
    }
  }

  lemma StoredAmpersand()
    ensures '&' !in LowerAll(Encode(Some(["R&B"])))
  {
    EscapeFirst("R&B");
    EscapeFirst("&B");
    EscapeFirst("B");
    assert "R&B"[1..] == "&B" && "&B"[1..] == "B" && "B"[1..] == "";
  }

  /** A manga stored without a genre list is found by exactly the parts of the word null. */
  lemma MissingListIsFound(genre: string)
    requires NoWildcards(genre)
    ensures GenreMatches(Encode(None), genre) <==> Contains("null", LowerAll(genre))
  {
    assert LowerAll("null") == "null";
    LowerTwice(genre);
    FoldedIsPlain(genre);
    PlainFindsOnlyContained(LowerAll(genre), "null");
  }
}
