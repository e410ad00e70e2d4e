/** The slice of SQL that Repository.Search builds: a token stream with `?` slots, read with the usual precedence
    (AND binds tighter than OR), run against the manga table. */
module Sql {
  import opened Channels
  import opened Store
  import opened Text

  datatype Column = Title | Author | GenreText | Status

  datatype Token =
    | SelectManga | Where | And | Or | LParen | RParen
    | LowerOf(column: Column) | LikeOp | Equals | Slot
    | OrderByTitle | Limit | Offset

  datatype Value = Text(text: string) | Number(number: int)

  /** Comparisons refer to slots by their position in the whole statement, left to right. */
  datatype Expr =
    | Compare(column: Column, like: bool, slot: nat)
    | Both(left: Expr, right: Expr)
    | Either(left: Expr, right: Expr)

  datatype Parsed = Failed | Got(expr: Expr, rest: seq<Token>, slots: nat)

  /** expr := conj (OR expr)? */
  function ParseOr(toks: seq<Token>, slot: nat): (p: Parsed)
    ensures p.Got? ==> |p.rest| < |toks|
    decreases |toks|, 2
  {
    var l := ParseAnd(toks, slot);
    if l.Failed? || l.rest == [] || l.rest[0] != Or then l
    else
      var r := ParseOr(l.rest[1..], l.slots);
      if r.Failed? then Failed else Got(Either(l.expr, r.expr), r.rest, r.slots)
  }

  /** conj := prim (AND conj)? */
  function ParseAnd(toks: seq<Token>, slot: nat): (p: Parsed)
    ensures p.Got? ==> |p.rest| < |toks|
    decreases |toks|, 1
  {
    var l := ParsePrim(toks, slot);
    if l.Failed? || l.rest == [] || l.rest[0] != And then l
    else
      var r := ParseAnd(l.rest[1..], l.slots);
      if r.Failed? then Failed else Got(Both(l.expr, r.expr), r.rest, r.slots)
  }

  /** prim := '(' expr ')' | LOWER(column) LIKE ? | LOWER(column) = ? */
  function ParsePrim(toks: seq<Token>, slot: nat): (p: Parsed)
    ensures p.Got? ==> |p.rest| < |toks|
    decreases |toks|, 0
  {
    if toks == [] then Failed
    else if toks[0] == LParen then
      var e := ParseOr(toks[1..], slot);
      if e.Failed? || e.rest == [] || e.rest[0] != RParen then Failed else Got(e.expr, e.rest[1..], e.slots)
    else if toks[0].LowerOf? && |toks| >= 3 && (toks[1] == LikeOp || toks[1] == Equals) && toks[2] == Slot then
      Got(Compare(toks[0].column, toks[1] == LikeOp, slot), toks[3..], slot + 1)
    else Failed
  }

  function Field(row: MangaRow, column: Column): string {
    match column
    case Title => row.title
    case Author => row.author
    case GenreText => row.genres
    case Status => row.status
  }

  predicate Eval(e: Expr, args: seq<Value>, row: MangaRow) {
    match e
    case Compare(column, like, slot) =>
      slot < |args| && args[slot].Text? &&
      if like then Like(args[slot].text, LowerAll(Field(row, column)))
      else LowerAll(Field(row, column)) == args[slot].text
    case Both(l, r) => Eval(l, args, row) && Eval(r, args, row)
    case Either(l, r) => Eval(l, args, row) || Eval(r, args, row)
  }

  // ----- Statements -----

  /** A parsed statement: its condition, and the slots of LIMIT and OFFSET. */
  datatype Statement = Statement(condition: Option<Expr>, limit: nat, offset: nat)

  const TAIL: seq<Token> := [OrderByTitle, Limit, Slot, Offset, Slot]

  function ParseStatement(toks: seq<Token>): Option<Statement> {
    if toks == [] || toks[0] != SelectManga then None
    else if toks[1..] == TAIL then Some(Statement(None, 0, 1))
    else if |toks| > 1 && toks[1] == Where then
      var p := ParseOr(toks[2..], 0);
      if p.Got? && p.rest == TAIL then Some(Statement(Some(p.expr), p.slots, p.slots + 1)) else None
    else None
  }

  // ----- ORDER BY title, LIMIT, OFFSET -----

  /** Code point order, which is what the column's binary collation compares. */
  predicate TitleLeq(a: string, b: string) {
    if a == [] then true
    else if b == [] then false
    else a[0] < b[0] || (a[0] == b[0] && TitleLeq(a[1..], b[1..]))
  }

  function InsertByTitle(row: MangaRow, sorted: seq<MangaRow>): seq<MangaRow> {
    if sorted == [] || TitleLeq(row.title, sorted[0].title) then [row] + sorted
    else [sorted[0]] + InsertByTitle(row, sorted[1..])
  }

  /** Rows with equal titles keep their table order. */
  function SortByTitle(rows: seq<MangaRow>): seq<MangaRow> {
    if rows == [] then [] else InsertByTitle(rows[0], SortByTitle(rows[1..]))
  }

  function Clip(k: int, n: nat): nat {
    if k < 0 then 0 else if k > n then n else k
  }

  /** LIMIT and OFFSET: a negative limit is no limit, a negative offset is 0. */
  function Page(rows: seq<MangaRow>, limit: int, offset: int): seq<MangaRow> {
    var from := Clip(offset, |rows|);
    if limit < 0 then rows[from..] else rows[from..from + Clip(limit, |rows| - from)]
  }

  function Filter(rows: seq<MangaRow>, e: Option<Expr>, args: seq<Value>): seq<MangaRow> {
    if rows == [] then []
    else
      var keep := e.None? || Eval(e.value, args, rows[0]);
      (if keep then [rows[0]] else []) + Filter(rows[1..], e, args)
  }

  /** The statement's result, or None when it is malformed or the arguments do not fit it. */
  function Query(toks: seq<Token>, args: seq<Value>, rows: seq<MangaRow>): Option<seq<MangaRow>> {
    match ParseStatement(toks)
    case None => None
    case Some(st) =>
      if |args| != st.offset + 1 || st.limit >= |args| || !args[st.limit].Number? || !args[st.offset].Number? then None
      else
        Some(Page(SortByTitle(Filter(rows, st.condition, args)), args[st.limit].number, args[st.offset].number))
  }

  // ----- Conditions joined by AND -----

  /** A condition text with its own arguments, and the expression it stands for with slots counted from 0. */
  datatype Condition = Condition(toks: seq<Token>, args: seq<Value>, meaning: Expr)

  function Shift(e: Expr, k: nat): Expr {
    match e
    case Compare(c, like, slot) => Compare(c, like, slot + k)
    case Both(l, r) => Both(Shift(l, k), Shift(r, k))
    case Either(l, r) => Either(Shift(l, k), Shift(r, k))
  }

  predicate SlotsBelow(e: Expr, n: nat) {
    match e
    case Compare(_, _, slot) => slot < n
    case Both(l, r) => SlotsBelow(l, n) && SlotsBelow(r, n)
    case Either(l, r) => SlotsBelow(l, n) && SlotsBelow(r, n)
  }

  /** The text is a complete operand wherever it stands, and uses exactly its own arguments. */
  ghost predicate SelfContained(c: Condition) {
    && SlotsBelow(c.meaning, |c.args|)
    && forall rest: seq<Token>, k: nat ::
         ParsePrim(c.toks + rest, k) == Got(Shift(c.meaning, k), rest, k + |c.args|)
  }

  predicate Holds(c: Condition, row: MangaRow) {
    Eval(c.meaning, c.args, row)
  }

  /** strings.Join(conditions, " AND "). */
  function JoinAnd(texts: seq<seq<Token>>): seq<Token> {
    if texts == [] then []
    else if |texts| == 1 then texts[0]
    else texts[0] + ([And] + JoinAnd(texts[1..]))
  }

  function TextsOf(cs: seq<Condition>): seq<seq<Token>> {
    seq(|cs|, i requires 0 <= i < |cs| => cs[i].toks)
  }

  function ArgsOf(cs: seq<Condition>): seq<Value> {
    if cs == [] then [] else cs[0].args + ArgsOf(cs[1..])
  }

  /** The conjunction the joined text is read as. */
  function Conjunction(cs: seq<Condition>, k: nat): Expr
    requires cs != []
  {
    if |cs| == 1 then Shift(cs[0].meaning, k)
    else Both(Shift(cs[0].meaning, k), Conjunction(cs[1..], k + |cs[0].args|))
  }

  lemma AndContinues(toks: seq<Token>, e: Expr, tail: seq<Token>, k: nat, next: nat, more: Parsed)
    requires ParsePrim(toks, k) == Got(e, [And] + tail, next) && ParseAnd(tail, next) == more && more.Got?
    ensures ParseAnd(toks, k) == Got(Both(e, more.expr), more.rest, more.slots)
  {
    assert ([And] + tail)[1..] == tail;
  }

  lemma AndStops(toks: seq<Token>, p: Parsed, k: nat)
    requires ParsePrim(toks, k) == p && p.Got? && (p.rest == [] || p.rest[0] != And)
    ensures ParseAnd(toks, k) == p
  {
  }

  lemma ParsesWith(c: Condition, rest: seq<Token>, k: nat)
    requires SelfContained(c)
    ensures ParsePrim(c.toks + rest, k) == Got(Shift(c.meaning, k), rest, k + |c.args|)
  {
  }

  lemma JoinUnfolds(cs: seq<Condition>, rest: seq<Token>)
    requires |cs| > 1
    ensures JoinAnd(TextsOf(cs)) + rest == cs[0].toks + ([And] + (JoinAnd(TextsOf(cs[1..])) + rest))
    ensures |ArgsOf(cs)| == |cs[0].args| + |ArgsOf(cs[1..])|
  {
    assert TextsOf(cs)[1..] == TextsOf(cs[1..]);
  }

  lemma ConditionContinues(
    toks: seq<Token>, c: Condition, tail: seq<Token>, k: nat, e: Expr, rest: seq<Token>, next: nat)
    requires SelfContained(c) && toks == c.toks + ([And] + tail) && ParseAnd(tail, k + |c.args|) == Got(e, rest, next)
    ensures ParseAnd(toks, k) == Got(Both(Shift(c.meaning, k), e), rest, next)
  {
    ParsesWith(c, [And] + tail, k);
    AndContinues(toks, Shift(c.meaning, k), tail, k, k + |c.args|, Got(e, rest, next));
  }

  lemma ConditionEnds(c: Condition, rest: seq<Token>, k: nat)
    requires SelfContained(c) && (rest == [] || rest[0] != And)
    ensures ParseAnd(c.toks + rest, k) == Got(Shift(c.meaning, k), rest, k + |c.args|)
  {
    ParsesWith(c, rest, k);
    AndStops(c.toks + rest, Got(Shift(c.meaning, k), rest, k + |c.args|), k);
  }

  /** The joined text is read as the conjunction, up to `rest`, and takes one slot for each argument. */
  predicate ReadsAsConjunction(cs: seq<Condition>, rest: seq<Token>, k: nat)
    requires cs != []
  {
    ParseAnd(JoinAnd(TextsOf(cs)) + rest, k) == Got(Conjunction(cs, k), rest, k + |ArgsOf(cs)|)
  }

  lemma OneReads(c: Condition, rest: seq<Token>, k: nat)
    requires SelfContained(c) && (rest == [] || rest[0] != And)
    ensures ReadsAsConjunction([c], rest, k)
  {
    assert ArgsOf([c]) == c.args + [];
    ConditionEnds(c, rest, k);
  }

  lemma OneMoreReads(cs: seq<Condition>, rest: seq<Token>, k: nat)
    requires |cs| > 1 && SelfContained(cs[0]) && ReadsAsConjunction(cs[1..], rest, k + |cs[0].args|)
    ensures ReadsAsConjunction(cs, rest, k)
  {
    JoinUnfolds(cs, rest);
    ConditionContinues(JoinAnd(TextsOf(cs)) + rest, cs[0], JoinAnd(TextsOf(cs[1..])) + rest, k,
                       Conjunction(cs[1..], k + |cs[0].args|), rest, k + |ArgsOf(cs)|);
  }

  lemma {:induction false} JoinedParses(cs: seq<Condition>, rest: seq<Token>, k: nat)
    requires cs != [] && (forall c <- cs :: SelfContained(c)) && (rest == [] || rest[0] != And)
    ensures ReadsAsConjunction(cs, rest, k)
    decreases |cs|
  {
    assert SelfContained(cs[0]);
    if |cs| == 1 {
      assert cs == [cs[0]];
      OneReads(cs[0], rest, k);
    } else {
      JoinedParses(cs[1..], rest, k + |cs[0].args|);
      OneMoreReads(cs, rest, k);
    }
  }

  lemma {:induction false} ShiftReadsOwnArgs(
    e: Expr, before: seq<Value>, own: seq<Value>, after: seq<Value>, row: MangaRow)
    requires SlotsBelow(e, |own|)
    ensures Eval(Shift(e, |before|), before + own + after, row) == Eval(e, own, row)
  {
    match e
    case Compare(_, _, slot) => assert (before + own + after)[slot + |before|] == own[slot];
    case Both(l, r) =>
      ShiftReadsOwnArgs(l, before, own, after, row);
      ShiftReadsOwnArgs(r, before, own, after, row);
    case Either(l, r) =>
      ShiftReadsOwnArgs(l, before, own, after, row);
      ShiftReadsOwnArgs(r, before, own, after, row);
  }

  /** Binding left to right: each condition reads its own arguments, for any list of conditions. */
  lemma {:induction false} ConjunctionMeansAll(
    cs: seq<Condition>, before: seq<Value>, after: seq<Value>, row: MangaRow)
    requires cs != [] && forall c <- cs :: SelfContained(c)
    ensures Eval(Conjunction(cs, |before|), before + ArgsOf(cs) + after, row) <==> forall c <- cs :: Holds(c, row)
    decreases |cs|
  {
    var c := cs[0];
    var args := before + ArgsOf(cs) + after;
    assert SelfContained(c);
    assert args == before + c.args + (ArgsOf(cs[1..]) + after);
    ShiftReadsOwnArgs(c.meaning, before, c.args, ArgsOf(cs[1..]) + after, row);
    if |cs| == 1 {
      assert cs == [c];
    } else {
      assert args == (before + c.args) + ArgsOf(cs[1..]) + after;
      ConjunctionMeansAll(cs[1..], before + c.args, after, row);
      assert cs == [c] + cs[1..];
    }
  }
}
