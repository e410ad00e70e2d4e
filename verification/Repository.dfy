/** internal/manga/repository.go: the object whose methods run the statements and scan the rows. */
module Repository {
  import opened Channels
  import opened Store
  import opened Text
  import opened Genres
  import opened Sql
  import opened Search
  import opened Library
  import opened RowHistory

  datatype Manga = Manga(
    id: string, title: string, author: string, genres: Option<seq<string>>, status: string,
    total: int, description: string, cover: string)

  function ToRow(m: Manga): MangaRow {
    MangaRow(m.id, m.title, m.author, Encode(m.genres), m.status, m.total, m.description, m.cover)
  }

  function FromRow(r: MangaRow): Manga {
    Manga(r.id, r.title, r.author, Decode(r.genres), r.status, r.total, r.description, r.cover)
  }

  function FromRows(rows: seq<MangaRow>): seq<Manga> {
    seq(|rows|, i requires 0 <= i < |rows| => FromRow(rows[i]))
  }

  /** What is stored is what is read. */
  lemma MangaRoundTrip(m: Manga)
    ensures FromRow(ToRow(m)) == m
  {
    GenresRoundTrip(m.genres);
  }

  /** What a caller reads under an id. */
  function Lookup(db: DB, id: string): Option<Manga> {
    var row := FindManga(db, id);
    if row.None? then None else Some(FromRow(row.value))
  }

  /** A manga stored is the manga read under its id, and every other id reads as before. */
  lemma StoredThenRead(db: DB, m: Manga, id: string)
    ensures Lookup(UpsertManga(db, ToRow(m)), id) == if id == m.id then Some(m) else Lookup(db, id)
  {
    UpsertFinds(db, ToRow(m), id);
    MangaRoundTrip(m);
  }

  /** Between the two, nothing but this pair's row has changed. */
  ghost predicate OnlyRow(before: DB, after: DB, user: string, manga: string) {
    && after.users == before.users && after.manga == before.manga
    && forall u: string, m: string | u != user || m != manga :: FindRow(after, u, m) == FindRow(before, u, m)
  }

  lemma OpTouchesOnlyRow(db: DB, op: Op, now: int, user: string, manga: string)
    requires UniqueKeys(db.progress) && On(op, user, manga)
    ensures UniqueKeys(Apply(db, op, now).progress) && OnlyRow(db, Apply(db, op, now), user, manga)
    ensures FindRow(Apply(db, op, now), user, manga) == Touched(db, op, now, user, manga)
  {
    OpKeepsKeysUnique(db, op, now);
    OwnTouchesRow(db, op, now, user, manga);
    forall u: string, m: string | u != user || m != manga
      ensures FindRow(Apply(db, op, now), u, m) == FindRow(db, u, m)
    {
      OthersLeaveRow(db, op, now, u, m);
    }
  }

  // ----- The library listing -----

  ghost predicate NeverOlder(entries: seq<LibraryEntry>) {
    forall i, j | 0 <= i < j < |entries| :: entries[i].updatedAt >= entries[j].updatedAt
  }

  lemma {:induction false} InsertKeepsEntries(e: LibraryEntry, sorted: seq<LibraryEntry>)
    ensures multiset(Insert(e, sorted)) == multiset(sorted) + multiset{e}
  {
    if sorted != [] && sorted[0].updatedAt > e.updatedAt {
      InsertKeepsEntries(e, sorted[1..]);
      assert sorted == [sorted[0]] + sorted[1..];
    }
  }

  lemma {:induction false} InsertKeepsOrder(e: LibraryEntry, sorted: seq<LibraryEntry>, bound: int)
    requires NeverOlder(sorted)
    requires e.updatedAt <= bound && forall k | 0 <= k < |sorted| :: sorted[k].updatedAt <= bound
    ensures NeverOlder(Insert(e, sorted))
    ensures forall k | 0 <= k < |Insert(e, sorted)| :: Insert(e, sorted)[k].updatedAt <= bound
  {
    if sorted != [] && sorted[0].updatedAt > e.updatedAt {
      InsertKeepsOrder(e, sorted[1..], sorted[0].updatedAt);
    }
  }

  lemma {:induction false} NewestFirstKeepsEntries(entries: seq<LibraryEntry>)
    ensures multiset(NewestFirst(entries)) == multiset(entries)
  {
    if entries != [] {
      NewestFirstKeepsEntries(entries[1..]);
      InsertKeepsEntries(entries[0], NewestFirst(entries[1..]));
      assert entries == [entries[0]] + entries[1..];
    }
  }

  lemma {:induction false} NewestFirstOrders(entries: seq<LibraryEntry>)
    ensures NeverOlder(NewestFirst(entries))
  {
    if entries != [] {
      NewestFirstOrders(entries[1..]);
      var e, rest := entries[0], NewestFirst(entries[1..]);
      var bound := if rest != [] && rest[0].updatedAt > e.updatedAt then rest[0].updatedAt else e.updatedAt;
      InsertKeepsOrder(e, rest, bound);
    }
  }

  lemma ResultsMean(rows: seq<MangaRow>, query: string, genre: string, status: string)
    ensures Alphabetical(SortByTitle(Select(rows, query, genre, status)))
    ensures forall row :: multiset(SortByTitle(Select(rows, query, genre, status)))[row] ==
                          if Matches(row, query, genre, status) then multiset(rows)[row] else 0
  {
    ResultsAreAlphabetical(Select(rows, query, genre, status));
    forall row
      ensures multiset(Select(rows, query, genre, status))[row] ==
              if Matches(row, query, genre, status) then multiset(rows)[row] else 0
    {
      SelectCounts(rows, query, genre, status, row);
    }
  }

  /** One decoded page: where it starts, how long it is, what stands where, and in title order if the list is. */
  lemma PageOfResults(all: seq<MangaRow>, limit: int, offset: int, results: seq<Manga>)
    requires results == FromRows(Page(all, ClampLimit(limit), offset))
    ensures var most := if limit <= 0 then 20 else if limit > 100 then 100 else limit;
            var from := if offset < 0 then 0 else offset;
            && |results| == (if from >= |all| then 0 else if |all| - from < most then |all| - from else most)
            && (forall k | 0 <= k < |results| :: results[k] == FromRow(all[from + k]))
    ensures Alphabetical(all) ==> forall i, j | 0 <= i < j < |results| :: Precedes(results[i].title, results[j].title)
  {
    PageMeans(all, ClampLimit(limit), offset);
  }

  /** An entry of the user's library: a row of theirs with the wanted status, shown with its manga. */
  ghost predicate Listed(db: DB, user: string, status: string, e: LibraryEntry) {
    exists r <- db.progress ::
      r.user == user && (status == "" || r.status == status) &&
      FindManga(db, r.manga).Some? && Shows(e, r, FindManga(db, r.manga).value)
  }

  lemma QueryLists(db: DB, user: string, status: string)
    ensures NeverOlder(LibraryQuery(db, user, status))
    ensures forall e :: e in LibraryQuery(db, user, status) <==> Listed(db, user, status, e)
  {
    var joined, listing := Joined(db, db.progress, user, status), LibraryQuery(db, user, status);
    NewestFirstOrders(joined);
    NewestFirstKeepsEntries(joined);
    forall e
      ensures e in listing <==> Listed(db, user, status, e)
    {
      JoinedHas(db, db.progress, user, status, e);
      assert e in listing <==> e in multiset(listing);
      assert e in joined <==> e in multiset(joined);
      ShowsIsEntry(db, e);
    }
  }

  lemma ShowsIsEntry(db: DB, e: LibraryEntry)
    ensures forall r: ProgressRow | FindManga(db, r.manga).Some? ::
              Shows(e, r, FindManga(db, r.manga).value) <==> e == Entry(r, FindManga(db, r.manga).value)
  {
  }

  class MangaRepository {
    var db: DB

    /** The primary key of user_progress. */
    ghost predicate Valid()
      reads this
    {
      UniqueKeys(db.progress)
    }

    constructor ()
      ensures Valid() && db == DB({}, [], [])
    {
      db := DB({}, [], []);
    }

    method Upsert(m: Manga)
      requires Valid()
      modifies this
      ensures Valid() && db == Apply(old(db), PutManga(ToRow(m)), 0)
      ensures Lookup(db, m.id) == Some(m)
      ensures var row := FindManga(db, m.id);
              row.Some? && row.value.id == m.id && row.value.title == m.title && row.value.author == m.author &&
              row.value.status == m.status && row.value.total == m.total &&
              row.value.description == m.description && row.value.cover == m.cover
      ensures FindManga(db, m.id) == Some(ToRow(m))
      ensures forall id: string | id != m.id :: FindManga(db, id) == FindManga(old(db), id)
    {
      ghost var before := db;
      StoredThenRead(db, m, m.id);
      db := UpsertManga(db, ToRow(m));
      forall id: string
        ensures FindManga(db, id) == if id == m.id then Some(ToRow(m)) else FindManga(before, id)
      {
        UpsertFinds(before, ToRow(m), id);
      }
    }

    /** Not found exactly when no row has the id; otherwise a row with the id, decoded. */
    method GetByID(id: string) returns (m: Option<Manga>)
      ensures m == Lookup(db, id)
      ensures m == None <==> forall row <- db.manga :: row.id != id
      ensures m.Some? ==> exists row <- db.manga :: row.id == id && m.value == FromRow(row)
    {
      var row := FindManga(db, id);
      m := if row.None? then None else Some(FromRow(row.value));
    }

    /** Conditions and arguments grow side by side, one filter after the other. */
    method BuildFilter(query: string, genre: string, status: string)
      returns (conditions: seq<seq<Token>>, args: seq<Value>)
      ensures conditions == TextsOf(Conditions(query, genre, status))
      ensures args == ArgsOf(Conditions(query, genre, status))
    {
      conditions, args := [], [];
      if query != "" {
        conditions := conditions + [[LParen, LowerOf(Title), LikeOp, Slot, Or, LowerOf(Author), LikeOp, Slot, RParen]];
        var like := Anywhere(LowerAll(query));
        args := args + [Text(like), Text(like)];
      }
      if genre != "" {
        conditions := conditions + [[LowerOf(GenreText), LikeOp, Slot]];
        args := args + [Text(Anywhere(LowerAll(genre)))];
      }
      if status != "" {
        conditions := conditions + [[LowerOf(Status), Equals, Slot]];
        args := args + [Text(LowerAll(status))];
      }
      ConditionsBuilt(query, genre, status);
    }

    method Scan(rows: seq<MangaRow>) returns (results: seq<Manga>)
      ensures results == FromRows(rows)
    {
      results := [];
      var i := 0;
      while i < |rows|
        invariant 0 <= i <= |rows| && results == FromRows(rows[..i])
      {
        results := results + [FromRow(rows[i])];
        i := i + 1;
      }
      assert rows[..i] == rows;
    }

    /** The statement is built and run and its rows are decoded. Every search succeeds and returns the page of the
        plain filter's sorted rows. */
    method Search(query: string, genre: string, status: string, limit: int, offset: int) returns (results: seq<Manga>)
      ensures results == FromRows(Page(SortByTitle(Select(db.manga, query, genre, status)), ClampLimit(limit), offset))
      ensures var all := SortByTitle(Select(db.manga, query, genre, status));
              var most := if limit <= 0 then 20 else if limit > 100 then 100 else limit;
              var from := if offset < 0 then 0 else offset;
              && |results| == (if from >= |all| then 0 else if |all| - from < most then |all| - from else most)
              && (forall k | 0 <= k < |results| :: results[k] == FromRow(all[from + k]))
      ensures forall i, j | 0 <= i < j < |results| :: Precedes(results[i].title, results[j].title)
      ensures forall row :: multiset(SortByTitle(Select(db.manga, query, genre, status)))[row] ==
                            if Matches(row, query, genre, status) then multiset(db.manga)[row] else 0
    {
      var n := limit;
      if n <= 0 {
        n := DEFAULT_LIMIT;
      }
      if n > MAX_LIMIT {
        n := MAX_LIMIT;
      }
      var conditions, args := BuildFilter(query, genre, status);
      StatementMeansFilter(db.manga, query, genre, status, n, offset);
      var rows := Query(StatementText(conditions), args + [Number(n), Number(offset)], db.manga).value;
      results := Scan(rows);
      PageOfResults(SortByTitle(Select(db.manga, query, genre, status)), limit, offset, results);
      ResultsMean(db.manga, query, genre, status);
    }

    /** Adding again sets status and chapter and keeps the rating; a new row starts with rating 0. */
    method AddToLibrary(user: string, manga: string, status: string, chapter: int, now: int) returns (ok: bool)
      requires Valid()
      modifies this
      ensures Valid() && db == Apply(old(db), Add(user, manga, status, chapter), now)
      ensures ok <==> FindRow(old(db), user, manga).Some? || KeysExist(old(db), user, manga)
      ensures OnlyRow(old(db), db, user, manga) && (!ok ==> db == old(db))
      ensures ok ==>
                FindRow(db, user, manga) ==
                Some(ProgressRow(user, manga, chapter, if status == "" then "plan-to-read" else status,
                                 RatingOr(FindRow(old(db), user, manga), 0), now))
    {
      ghost var before := db;
      OpTouchesOnlyRow(db, Add(user, manga, status, chapter), now, user, manga);
      var wanted := status;
      if wanted == "" {
        wanted := PLAN_TO_READ;
      }
      var r := UpsertRow(db, user, manga, wanted, chapter, now);
      ok := r.Some?;
      if ok {
        db := r.value;
      }
    }

    /** A missing row is reported and nothing changes. */
    method UpdateProgress(user: string, manga: string, chapter: int, now: int) returns (ok: bool)
      requires Valid()
      modifies this
      ensures Valid() && db == Apply(old(db), Progress(user, manga, chapter), now)
      ensures ok <==> FindRow(old(db), user, manga).Some?
      ensures OnlyRow(old(db), db, user, manga) && (!ok ==> db == old(db))
      ensures ok ==>
                FindRow(db, user, manga) ==
                Some(FindRow(old(db), user, manga).value.(chapter := chapter, updatedAt := now))
    {
      OpTouchesOnlyRow(db, Progress(user, manga, chapter), now, user, manga);
      var (next, affected) := SetChapter(db, user, manga, chapter, now);
      db := next;
      ok := affected;
    }

    /** Only this row's rating and time change; unlike UpdateProgress, a missing row is not reported. */
    method UpdateRating(user: string, manga: string, rating: int, now: int)
      requires Valid()
      modifies this
      ensures Valid() && db == Apply(old(db), Rate(user, manga, rating), now)
      ensures OnlyRow(old(db), db, user, manga)
      ensures match FindRow(old(db), user, manga)
              case None => db == old(db)
              case Some(r) => FindRow(db, user, manga) == Some(r.(rating := rating, updatedAt := now))
    {
      OpTouchesOnlyRow(db, Rate(user, manga, rating), now, user, manga);
      db := SetRating(db, user, manga, rating, now);
    }

    /** The row is gone, whether or not it was there, and every other row stays. */
    method RemoveFromLibrary(user: string, manga: string)
      requires Valid()
      modifies this
      ensures Valid() && db == Apply(old(db), Remove(user, manga), 0)
      ensures OnlyRow(old(db), db, user, manga) && FindRow(db, user, manga) == None
    {
      OpTouchesOnlyRow(db, Remove(user, manga), 0, user, manga);
      db := DeleteRow(db, user, manga);
    }

    /** Exactly the user's rows of the wanted status, each shown with its manga, none older before a newer one. */
    method GetLibrary(user: string, status: string) returns (out: seq<LibraryEntry>)
      ensures out == LibraryQuery(db, user, status)
      ensures NeverOlder(out) && forall e :: e in out <==> Listed(db, user, status, e)
    {
      var rows := LibraryQuery(db, user, status);
      QueryLists(db, user, status);
      out := [];
      var i := 0;
      while i < |rows|
        invariant 0 <= i <= |rows| && out == rows[..i]
      {
        out := out + [rows[i]];
        i := i + 1;
      }
    }
  }

  function RatingOr(row: Option<ProgressRow>, default: int): int {
    if row.Some? then row.value.rating else default
  }

  lemma ConditionsBuilt(query: string, genre: string, status: string)
    ensures TextsOf(Conditions(query, genre, status)) ==
            (if query != "" then [TextCondition(query).toks] else []) +
            (if genre != "" then [GenreCondition(genre).toks] else []) +
            (if status != "" then [StatusCondition(status).toks] else [])
    ensures ArgsOf(Conditions(query, genre, status)) ==
            (if query != "" then TextCondition(query).args else []) +
            (if genre != "" then GenreCondition(genre).args else []) +
            (if status != "" then StatusCondition(status).args else [])
  {
    var a := if query != "" then [TextCondition(query)] else [];
    var b := if genre != "" then [GenreCondition(genre)] else [];
    var c := if status != "" then [StatusCondition(status)] else [];
    ArgsAppend(a + b, c);
    ArgsAppend(a, b);
    OneConditionArgs(TextCondition(query));
    OneConditionArgs(GenreCondition(genre));
    OneConditionArgs(StatusCondition(status));
  }

  lemma OneConditionArgs(c: Condition)
    ensures ArgsOf([c]) == c.args && ArgsOf([]) == []
  {
    assert c.args + [] == c.args;
  }

  lemma Associate(a: seq<Value>, b: seq<Value>, c: seq<Value>)
    ensures a + b + c == a + (b + c)
  {
  }

  lemma {:induction false} ArgsAppend(xs: seq<Condition>, ys: seq<Condition>)
    ensures ArgsOf(xs + ys) == ArgsOf(xs) + ArgsOf(ys)
  {
    if xs == [] {
      assert xs + ys == ys && [] + ArgsOf(ys) == ArgsOf(ys);
    } else {
      ArgsAppend(xs[1..], ys);
      assert (xs + ys)[1..] == xs[1..] + ys && (xs + ys)[0] == xs[0];
      Associate(xs[0].args, ArgsOf(xs[1..]), ArgsOf(ys));
    }
  }
}
