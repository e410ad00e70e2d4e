/** What Repository.Search asks for, and that the statement it builds means just that. */
module Search {
  import opened Channels
  import opened Store
  import opened Text
  import opened Genres
  import opened Sql

  const DEFAULT_LIMIT: int := 20
  const MAX_LIMIT: int := 100

  function ClampLimit(limit: int): int {
    if limit <= 0 then DEFAULT_LIMIT else if limit > MAX_LIMIT then MAX_LIMIT else limit
  }

  /** The filter in plain terms. */
  predicate Matches(row: MangaRow, query: string, genre: string, status: string) {
    && (query != "" ==>
          Like(Anywhere(LowerAll(query)), LowerAll(row.title)) || Like(Anywhere(LowerAll(query)), LowerAll(row.author)))
    && (genre != "" ==> GenreMatches(row.genres, genre))
    && (status != "" ==> LowerAll(row.status) == LowerAll(status))
  }

  function Select(rows: seq<MangaRow>, query: string, genre: string, status: string): seq<MangaRow> {
    if rows == [] then []
    else (if Matches(rows[0], query, genre, status) then [rows[0]] else []) + Select(rows[1..], query, genre, status)
  }

  // ----- The conditions -----

  function TextCondition(query: string): Condition {
    var like := Text(Anywhere(LowerAll(query)));
    Condition([LParen, LowerOf(Title), LikeOp, Slot, Or, LowerOf(Author), LikeOp, Slot, RParen],
              [like, like], Either(Compare(Title, true, 0), Compare(Author, true, 1)))
  }

  function GenreCondition(genre: string): Condition {
    Condition([LowerOf(GenreText), LikeOp, Slot], [Text(Anywhere(LowerAll(genre)))], Compare(GenreText, true, 0))
  }

  function StatusCondition(status: string): Condition {
    Condition([LowerOf(Status), Equals, Slot], [Text(LowerAll(status))], Compare(Status, false, 0))
  }

  function Conditions(query: string, genre: string, status: string): seq<Condition> {
    (if query != "" then [TextCondition(query)] else []) +
    (if genre != "" then [GenreCondition(genre)] else []) +
    (if status != "" then [StatusCondition(status)] else [])
  }

  function StatementText(conditions: seq<seq<Token>>): seq<Token> {
    [SelectManga] + (if conditions == [] then [] else [Where] + JoinAnd(conditions)) + TAIL
  }

  lemma ComparisonParses(column: Column, like: bool, rest: seq<Token>, k: nat)
    ensures ParsePrim([LowerOf(column), if like then LikeOp else Equals, Slot] + rest, k) ==
            Got(Compare(column, like, k), rest, k + 1)
  {
    var toks := [LowerOf(column), if like then LikeOp else Equals, Slot] + rest;
    assert toks[3..] == rest;
  }

  /** A comparison not followed by AND is a whole conjunction. */
  lemma ComparisonIsConjunct(column: Column, like: bool, rest: seq<Token>, k: nat)
    requires rest == [] || rest[0] != And
    ensures ParseAnd([LowerOf(column), if like then LikeOp else Equals, Slot] + rest, k) ==
            Got(Compare(column, like, k), rest, k + 1)
  {
    ComparisonParses(column, like, rest, k);
    AndStops([LowerOf(column), if like then LikeOp else Equals, Slot] + rest,
             Got(Compare(column, like, k), rest, k + 1), k);
  }

  lemma OrContinues(toks: seq<Token>, l: Parsed, right: seq<Token>, r: Parsed, k: nat)
    requires ParseAnd(toks, k) == l && l.Got? && l.rest == [Or] + right && ParseOr(right, l.slots) == r && r.Got?
    ensures ParseOr(toks, k) == Got(Either(l.expr, r.expr), r.rest, r.slots)
  {
    assert ([Or] + right)[1..] == right;
  }

  lemma OrStops(toks: seq<Token>, p: Parsed, k: nat)
    requires ParseAnd(toks, k) == p && p.Got? && (p.rest == [] || p.rest[0] != Or)
    ensures ParseOr(toks, k) == p
  {
  }

  lemma ParenParses(inner: seq<Token>, e: Expr, rest: seq<Token>, k: nat, next: nat)
    requires ParseOr(inner, k) == Got(e, [RParen] + rest, next)
    ensures ParsePrim([LParen] + inner, k) == Got(e, rest, next)
  {
    assert ([LParen] + inner)[1..] == inner && ([RParen] + rest)[1..] == rest;
  }

  lemma TextConditionShape(query: string, rest: seq<Token>)
    ensures TextCondition(query).toks + rest ==
            [LParen] + ([LowerOf(Title), LikeOp, Slot] + ([Or] + ([LowerOf(Author), LikeOp, Slot] + ([RParen] + rest))))
  {
  }

  lemma TextConditionParses(query: string, rest: seq<Token>, k: nat)
    ensures ParsePrim(TextCondition(query).toks + rest, k) ==
            Got(Either(Compare(Title, true, k), Compare(Author, true, k + 1)), rest, k + 2)
  {
    var closing := [RParen] + rest;
    var right := [LowerOf(Author), LikeOp, Slot] + closing;
    var left := [LowerOf(Title), LikeOp, Slot] + ([Or] + right);
    var title := Got(Compare(Title, true, k), [Or] + right, k + 1);
    var author := Got(Compare(Author, true, k + 1), closing, k + 2);
    ComparisonIsConjunct(Author, true, closing, k + 1);
    OrStops(right, author, k + 1);
    ComparisonIsConjunct(Title, true, [Or] + right, k);
    OrContinues(left, title, right, author, k);
    ParenParses(left, Either(title.expr, author.expr), rest, k, k + 2);
    TextConditionShape(query, rest);
  }

  lemma ConditionsAreSelfContained(query: string, genre: string, status: string)
    ensures SelfContained(TextCondition(query)) && SelfContained(GenreCondition(genre)) &&
            SelfContained(StatusCondition(status))
  {
    forall rest: seq<Token>, k: nat
      ensures ParsePrim(TextCondition(query).toks + rest, k) == Got(Shift(TextCondition(query).meaning, k), rest, k + 2)
      ensures ParsePrim(GenreCondition(genre).toks + rest, k) ==
              Got(Shift(GenreCondition(genre).meaning, k), rest, k + 1)
      ensures ParsePrim(StatusCondition(status).toks + rest, k) ==
              Got(Shift(StatusCondition(status).meaning, k), rest, k + 1)
    {
      TextConditionParses(query, rest, k);
      ComparisonParses(GenreText, true, rest, k);
      ComparisonParses(Status, false, rest, k);
    }
  }

  lemma TextConditionHolds(row: MangaRow, query: string)
    ensures Holds(TextCondition(query), row) <==>
            Like(Anywhere(LowerAll(query)), LowerAll(row.title)) ||
            Like(Anywhere(LowerAll(query)), LowerAll(row.author))
  {
    var c := TextCondition(query);
    assert Eval(Compare(Title, true, 0), c.args, row) <==> Like(c.args[0].text, LowerAll(row.title));
    assert Eval(Compare(Author, true, 1), c.args, row) <==> Like(c.args[1].text, LowerAll(row.author));
  }

  lemma ConditionsMeanMatches(row: MangaRow, query: string, genre: string, status: string)
    ensures (forall c <- Conditions(query, genre, status) :: Holds(c, row)) <==> Matches(row, query, genre, status)
  {
    var cs := Conditions(query, genre, status);
    assert query != "" ==> cs[0] == TextCondition(query);
    assert genre != "" ==> GenreCondition(genre) in cs;
    assert status != "" ==> StatusCondition(status) in cs;
    TextConditionHolds(row, query);
    assert Holds(GenreCondition(genre), row) <==> GenreMatches(row.genres, genre);
    assert Holds(StatusCondition(status), row) <==> LowerAll(row.status) == LowerAll(status);
  }

  // ----- The statement -----

  lemma OrOfJoined(toks: seq<Token>, p: Parsed)
    requires ParseAnd(toks, 0) == p && p.Got? && p.rest == TAIL
    ensures ParseOr(toks, 0) == p
  {
  }

  lemma StatementShape(texts: seq<seq<Token>>)
    requires texts != []
    ensures var toks := StatementText(texts);
            |toks| > 1 && toks[0] == SelectManga && toks[1] == Where && toks[2..] == JoinAnd(texts) + TAIL
  {
  }

  lemma WhereParses(toks: seq<Token>, p: Parsed)
    requires |toks| > 1 && toks[0] == SelectManga && toks[1] == Where
    requires ParseOr(toks[2..], 0) == p && p.Got? && p.rest == TAIL
    ensures ParseStatement(toks) == Some(Statement(Some(p.expr), p.slots, p.slots + 1))
  {
    assert toks[1..][0] != TAIL[0];
  }

  lemma JoinedStatementParses(texts: seq<seq<Token>>, p: Parsed)
    requires texts != [] && ParseAnd(JoinAnd(texts) + TAIL, 0) == p && p.Got? && p.rest == TAIL
    ensures ParseStatement(StatementText(texts)) == Some(Statement(Some(p.expr), p.slots, p.slots + 1))
  {
    OrOfJoined(JoinAnd(texts) + TAIL, p);
    StatementShape(texts);
    WhereParses(StatementText(texts), p);
  }

  /** Any statement made of self-contained conditions is read back as their conjunction, with the last two
      arguments for LIMIT and OFFSET. */
  lemma StatementParses(cs: seq<Condition>)
    requires forall c <- cs :: SelfContained(c)
    ensures ParseStatement(StatementText(TextsOf(cs))) ==
            Some(Statement(if cs == [] then None else Some(Conjunction(cs, 0)), |ArgsOf(cs)|, |ArgsOf(cs)| + 1))
  {
    if cs == [] {
      assert StatementText(TextsOf(cs))[1..] == TAIL;
    } else {
      JoinedParses(cs, TAIL, 0);
      ReadStatement(cs);
    }
  }

  lemma ReadStatement(cs: seq<Condition>)
    requires cs != [] && ReadsAsConjunction(cs, TAIL, 0)
    ensures ParseStatement(StatementText(TextsOf(cs))) ==
            Some(Statement(Some(Conjunction(cs, 0)), |ArgsOf(cs)|, |ArgsOf(cs)| + 1))
  {
    JoinedStatementParses(TextsOf(cs), Got(Conjunction(cs, 0), TAIL, |ArgsOf(cs)|));
  }

  lemma {:induction false} FilterMeansAll(
    rows: seq<MangaRow>, cs: seq<Condition>, tail: seq<Value>, query: string, genre: string, status: string)
    requires cs == Conditions(query, genre, status)
    ensures Filter(rows, if cs == [] then None else Some(Conjunction(cs, 0)), ArgsOf(cs) + tail) ==
            Select(rows, query, genre, status)
  {
    if rows != [] {
      FilterMeansAll(rows[1..], cs, tail, query, genre, status);
      RowMeansAll(rows[0], cs, tail, query, genre, status);
    }
  }

  lemma RowMeansAll(
    row: MangaRow, cs: seq<Condition>, tail: seq<Value>, query: string, genre: string, status: string)
    requires cs == Conditions(query, genre, status)
    ensures (cs == [] || Eval(Conjunction(cs, 0), ArgsOf(cs) + tail, row)) <==> Matches(row, query, genre, status)
  {
    ConditionsMeanMatches(row, query, genre, status);
    if cs != [] {
      ConditionsAreSelfContained(query, genre, status);
      ConjunctionMeansAll(cs, [], tail, row);
      assert [] + ArgsOf(cs) + tail == ArgsOf(cs) + tail;
    }
  }

  lemma BuiltStatementParses(query: string, genre: string, status: string)
    ensures var cs := Conditions(query, genre, status);
            ParseStatement(StatementText(TextsOf(cs))) ==
            Some(Statement(if cs == [] then None else Some(Conjunction(cs, 0)), |ArgsOf(cs)|, |ArgsOf(cs)| + 1))
  {
    ConditionsAreSelfContained(query, genre, status);
    StatementParses(Conditions(query, genre, status));
  }

  /** Query building preserves meaning, for every combination of filters, any limit and any offset. */
  lemma StatementMeansFilter(rows: seq<MangaRow>, query: string, genre: string, status: string, limit: int, offset: int)
    ensures var cs := Conditions(query, genre, status);
            Query(StatementText(TextsOf(cs)), ArgsOf(cs) + [Number(limit), Number(offset)], rows) ==
            Some(Page(SortByTitle(Select(rows, query, genre, status)), limit, offset))
  {
    var cs := Conditions(query, genre, status);
    BuiltStatementParses(query, genre, status);
    FilterMeansAll(rows, cs, [Number(limit), Number(offset)], query, genre, status);
  }

  // ----- The order -----

  lemma {:induction false} TitleOrderTotal(a: string, b: string)
    ensures TitleLeq(a, b) || TitleLeq(b, a)
    ensures TitleLeq(a, b) && TitleLeq(b, a) ==> a == b
  {
    if a != [] && b != [] {
      TitleOrderTotal(a[1..], b[1..]);
      assert a == [a[0]] + a[1..] && b == [b[0]] + b[1..];
    }
  }

  lemma {:induction false} TitleOrderTransitive(a: string, b: string, c: string)
    requires TitleLeq(a, b) && TitleLeq(b, c)
    ensures TitleLeq(a, c)
  {
    if a != [] && b != [] && c != [] && a[0] == b[0] == c[0] {
      TitleOrderTransitive(a[1..], b[1..], c[1..]);
    }
  }

  /** Alphabetical order by code points: a prefix comes first, and otherwise the first difference decides. */
  ghost predicate Precedes(a: string, b: string) {
    a <= b || exists k: nat :: FirstDifference(a, b, k) && a[k] < b[k]
  }

  predicate FirstDifference(a: string, b: string, k: nat) {
    k < |a| && k < |b| && a[..k] == b[..k] && a[k] != b[k]
  }

  /** What the sort compares with is alphabetical order. */
  lemma {:induction false} TitleLeqMeans(a: string, b: string)
    ensures TitleLeq(a, b) <==> Precedes(a, b)
  {
    if a != [] && b != [] && a[0] == b[0] {
      TitleLeqMeans(a[1..], b[1..]);
      SameHead(a, b);
    } else if a != [] && b != [] {
      DifferentHead(a, b);
    }
  }

  lemma DifferentHead(a: string, b: string)
    requires a != [] && b != [] && a[0] != b[0]
    ensures Precedes(a, b) <==> a[0] < b[0]
  {
    assert FirstDifference(a, b, 0);
    if k: nat :| FirstDifference(a, b, k) && a[k] < b[k] {
      CommonHead(a, b, k);
    }
  }

  lemma CommonHead(a: string, b: string, k: nat)
    requires k <= |a| && k <= |b| && a[..k] == b[..k]
    ensures k > 0 ==> a[0] == b[0]
  {
    if k > 0 {
      assert a[..k][0] == a[0] && b[..k][0] == b[0];
    }
  }

  lemma SameHead(a: string, b: string)
    requires a != [] && b != [] && a[0] == b[0]
    ensures Precedes(a, b) <==> Precedes(a[1..], b[1..])
  {
    assert a == [a[0]] + a[1..] && b == [b[0]] + b[1..];
    if k: nat :| FirstDifference(a, b, k) && a[k] < b[k] {
      assert a[1..][..k - 1] == a[..k][1..] && b[1..][..k - 1] == b[..k][1..];
      assert FirstDifference(a[1..], b[1..], k - 1);
    }
    if k: nat :| FirstDifference(a[1..], b[1..], k) && a[1..][k] < b[1..][k] {
      assert a[..k + 1] == [a[0]] + a[1..][..k] && b[..k + 1] == [b[0]] + b[1..][..k];
      assert FirstDifference(a, b, k + 1);
    }
  }

  ghost predicate Alphabetical(rows: seq<MangaRow>) {
    forall i, j | 0 <= i < j < |rows| :: Precedes(rows[i].title, rows[j].title)
  }

  ghost predicate SortedByTitle(rows: seq<MangaRow>) {
    forall i, j | 0 <= i < j < |rows| :: TitleLeq(rows[i].title, rows[j].title)
  }

  lemma {:induction false} InsertKeepsRows(row: MangaRow, sorted: seq<MangaRow>)
    ensures multiset(InsertByTitle(row, sorted)) == multiset(sorted) + multiset{row}
  {
    if sorted != [] {
      InsertKeepsRows(row, sorted[1..]);
      assert sorted == [sorted[0]] + sorted[1..];
    }
  }

  lemma {:induction false} InsertKeepsLowerBound(row: MangaRow, sorted: seq<MangaRow>, title: string)
    requires TitleLeq(title, row.title) && forall i | 0 <= i < |sorted| :: TitleLeq(title, sorted[i].title)
    ensures forall i | 0 <= i < |InsertByTitle(row, sorted)| :: TitleLeq(title, InsertByTitle(row, sorted)[i].title)
  {
    if sorted != [] {
      InsertKeepsLowerBound(row, sorted[1..], title);
    }
  }

  lemma {:induction false} InsertKeepsSorted(row: MangaRow, sorted: seq<MangaRow>)
    requires SortedByTitle(sorted)
    ensures SortedByTitle(InsertByTitle(row, sorted))
  {
    if sorted != [] {
      if TitleLeq(row.title, sorted[0].title) {
        forall i | 0 < i < |sorted|
          ensures TitleLeq(row.title, sorted[i].title)
        {
          TitleOrderTransitive(row.title, sorted[0].title, sorted[i].title);
        }
      } else {
        TitleOrderTotal(row.title, sorted[0].title);
        InsertKeepsSorted(row, sorted[1..]);
        InsertKeepsLowerBound(row, sorted[1..], sorted[0].title);
      }
    }
  }

  /** Results come in title order, each selected row once. */
  lemma {:induction false} SortByTitleSorts(rows: seq<MangaRow>)
    ensures SortedByTitle(SortByTitle(rows))
    ensures multiset(SortByTitle(rows)) == multiset(rows)
  {
    if rows != [] {
      SortByTitleSorts(rows[1..]);
      InsertKeepsSorted(rows[0], SortByTitle(rows[1..]));
      InsertKeepsRows(rows[0], SortByTitle(rows[1..]));
      assert rows == [rows[0]] + rows[1..];
    }
  }

  function WithTitle(rows: seq<MangaRow>, title: string): seq<MangaRow> {
    if rows == [] then []
    else (if rows[0].title == title then [rows[0]] else []) + WithTitle(rows[1..], title)
  }

  lemma FirstWithTitle(row: MangaRow, rows: seq<MangaRow>, title: string)
    ensures WithTitle([row] + rows, title) == (if row.title == title then [row] else []) + WithTitle(rows, title)
  {
    assert ([row] + rows)[1..] == rows;
  }

  lemma {:induction false} InsertKeepsTies(row: MangaRow, sorted: seq<MangaRow>, title: string)
    ensures WithTitle(InsertByTitle(row, sorted), title) ==
            (if row.title == title then [row] else []) + WithTitle(sorted, title)
  {
    if sorted != [] && !TitleLeq(row.title, sorted[0].title) {
      InsertKeepsTies(row, sorted[1..], title);
      TitleOrderTotal(row.title, row.title);
      assert row.title != sorted[0].title;
      FirstWithTitle(sorted[0], InsertByTitle(row, sorted[1..]), title);
    } else {
      FirstWithTitle(row, sorted, title);
    }
  }

  lemma {:induction false} SortKeepsTies(rows: seq<MangaRow>, title: string)
    ensures WithTitle(SortByTitle(rows), title) == WithTitle(rows, title)
  {
    if rows != [] {
      SortKeepsTies(rows[1..], title);
      InsertKeepsTies(rows[0], SortByTitle(rows[1..]), title);
    }
  }

  /** The order of the results: alphabetical, a permutation of what was selected, ties in table order. */
  lemma ResultsAreAlphabetical(rows: seq<MangaRow>)
    ensures Alphabetical(SortByTitle(rows)) && multiset(SortByTitle(rows)) == multiset(rows)
    ensures forall title: string :: WithTitle(SortByTitle(rows), title) == WithTitle(rows, title)
  {
    SortByTitleSorts(rows);
    forall i, j | 0 <= i < j < |SortByTitle(rows)|
      ensures Precedes(SortByTitle(rows)[i].title, SortByTitle(rows)[j].title)
    {
      TitleLeqMeans(SortByTitle(rows)[i].title, SortByTitle(rows)[j].title);
    }
    forall title: string {
      SortKeepsTies(rows, title);
    }
  }

  /** A row is selected as often as it stands in the table if it meets the filter, and never otherwise. */
  lemma {:induction false} SelectCounts(rows: seq<MangaRow>, query: string, genre: string, status: string, r: MangaRow)
    ensures multiset(Select(rows, query, genre, status))[r] ==
            if (query == "" || Like(Anywhere(LowerAll(query)), LowerAll(r.title)) ||
                Like(Anywhere(LowerAll(query)), LowerAll(r.author))) &&
               (genre == "" || Like(Anywhere(LowerAll(genre)), LowerAll(r.genres))) &&
               (status == "" || LowerAll(r.status) == LowerAll(status))
            then multiset(rows)[r] else 0
  {
    if rows != [] {
      SelectCounts(rows[1..], query, genre, status, r);
      assert rows == [rows[0]] + rows[1..];
    }
  }

  // ----- Paging -----

  /** A page in plain terms: from the offset on, 0 for a negative one, as many rows as there are up to the limit. */
  lemma PageMeans(rows: seq<MangaRow>, limit: nat, offset: int)
    ensures var page := Page(rows, limit, offset);
            var from := if offset < 0 then 0 else offset;
            && |page| == (if from >= |rows| then 0 else if |rows| - from < limit then |rows| - from else limit)
            && forall k | 0 <= k < |page| :: page[k] == rows[from + k]
  {
  }

  /** The first `k` pages put together, when a caller steps the offset by `stride`. */
  function Pages(rows: seq<MangaRow>, limit: int, stride: nat, k: nat): seq<MangaRow> {
    if k == 0 then [] else Pages(rows, limit, stride, k - 1) + Page(rows, limit, (k - 1) * stride)
  }

  lemma NextPage(rows: seq<MangaRow>, limit: nat, from: nat)
    ensures rows[..Clip(from, |rows|)] + Page(rows, limit, from) == rows[..Clip(from + limit, |rows|)]
  {
  }

  /** Paging partitions the results: pages at multiples of their size cover the list with no gap or repetition, and
      pages past its end are empty. */
  lemma {:induction false} PagesPartition(rows: seq<MangaRow>, limit: nat, k: nat)
    ensures Pages(rows, limit, limit, k) == rows[..Clip(k * limit, |rows|)]
    ensures k * limit >= |rows| ==> Pages(rows, limit, limit, k) == rows && Page(rows, limit, k * limit) == []
  {
    if k > 0 {
      PagesPartition(rows, limit, k - 1);
      OneMore(limit, k);
      NextPage(rows, limit, (k - 1) * limit);
    }
    PastTheEnd(rows, limit, k * limit);
  }

  lemma OneMore(limit: nat, k: nat)
    requires k > 0
    ensures (k - 1) * limit >= 0 && (k - 1) * limit + limit == k * limit
  {
  }

  lemma PastTheEnd(rows: seq<MangaRow>, limit: nat, from: nat)
    ensures from >= |rows| ==> rows[..Clip(from, |rows|)] == rows && Page(rows, limit, from) == []
  {
  }

  lemma {:induction false} ShortPages(rows: seq<MangaRow>, stride: nat, k: nat)
    requires stride > MAX_LIMIT && |rows| > MAX_LIMIT && k > 0
    ensures |Pages(rows, MAX_LIMIT, stride, k)| < Clip(k * stride, |rows|)
  {
    assert (k - 1) * stride + stride == k * stride;
    if k > 1 {
      ShortPages(rows, stride, k - 1);
    } else {
      assert Pages(rows, MAX_LIMIT, stride, 0) == [];
    }
  }

  /** A caller that steps by the limit it asked for sees the whole list exactly when that limit was not cut down, or
      the list fits one page anyway. */
  lemma SteppingByRequestedLimit(rows: seq<MangaRow>, requested: nat, k: nat)
    requires requested > 0 && k > 0 && k * requested >= |rows|
    ensures Pages(rows, ClampLimit(requested), requested, k) == rows <==>
            requested <= 100 || |rows| <= 100
  {
    if requested <= MAX_LIMIT {
      PagesPartition(rows, requested, k);
    } else if |rows| > MAX_LIMIT {
      ShortPages(rows, requested, k);
    } else {
      SmallListInOnePage(rows, requested, k);
    }
  }

  lemma {:induction false} SmallListInOnePage(rows: seq<MangaRow>, stride: nat, k: nat)
    requires stride > MAX_LIMIT >= |rows| && k > 0
    ensures Pages(rows, MAX_LIMIT, stride, k) == rows
  {
    if k > 1 {
      SmallListInOnePage(rows, stride, k - 1);
      assert (k - 1) * stride >= stride by {
        assert (k - 1) * stride == (k - 2) * stride + stride;
      }
    } else {
      assert Pages(rows, MAX_LIMIT, stride, 0) == [];
    }
  }
}
