/** The library listing refines a move-to-front list, whatever sequence of operations came before. */
module Library {
  import opened Channels
  import opened Store

  /** Most recently touched first. */
  ghost predicate StrictlyNewestFirst(rows: seq<ProgressRow>) {
    forall i, j | 0 <= i < j < |rows| :: rows[i].updatedAt > rows[j].updatedAt
  }

  ghost predicate UniqueKeys(rows: seq<ProgressRow>) {
    forall i, j | 0 <= i < j < |rows| :: !IsRow(rows[j], rows[i].user, rows[i].manga)
  }

  /** Every row's manga is in the manga table. */
  ghost predicate KeysHold(db: DB) {
    forall r <- db.progress :: FindManga(db, r.manga).Some?
  }

  // ----- The reference: a list -----

  /** The list without the row of this key. */
  function Without(list: seq<ProgressRow>, user: string, manga: string): seq<ProgressRow> {
    var i := RowAt(list, user, manga);
    if i < |list| then list[..i] + list[i + 1..] else list
  }

  function ToFront(list: seq<ProgressRow>, r: ProgressRow): seq<ProgressRow> {
    [r] + Without(list, r.user, r.manga)
  }

  /** What one operation does to the list: touching a row moves it to the front, removal deletes it. */
  function ListStep(list: seq<ProgressRow>, db: DB, op: Op, now: int): seq<ProgressRow> {
    match op
    case NewUser(_) => list
    case PutManga(_) => list
    case Remove(u, m) => Without(list, u, m)
    case Add(u, m, status, chapter) =>
      var i := RowAt(list, u, m);
      if i < |list| then
        ToFront(list, list[i].(status := StatusOrDefault(status), chapter := chapter, updatedAt := now))
      else if KeysExist(db, u, m) then
        ToFront(list, ProgressRow(u, m, chapter, StatusOrDefault(status), 0, now))
      else list
    case Progress(u, m, chapter) =>
      var i := RowAt(list, u, m);
      if i < |list| then ToFront(list, list[i].(chapter := chapter, updatedAt := now)) else list
    case Rate(u, m, rating) =>
      var i := RowAt(list, u, m);
      if i < |list| then ToFront(list, list[i].(rating := rating, updatedAt := now)) else list
  }

  function List(calls: seq<Call>): seq<ProgressRow> {
    if calls == [] then []
    else
      var n := |calls| - 1;
      ListStep(List(calls[..n]), After(calls[..n]), calls[n].op, calls[n].at)
  }

  // ----- The list and the table hold the same rows -----

  ghost predicate SameRows(xs: seq<ProgressRow>, ys: seq<ProgressRow>) {
    forall r :: r in xs <==> r in ys
  }

  ghost predicate DistinctTimes(rows: seq<ProgressRow>) {
    forall i, j | 0 <= i < j < |rows| :: rows[i].updatedAt != rows[j].updatedAt
  }

  ghost predicate Mirrors(list: seq<ProgressRow>, db: DB, now: int) {
    && SameRows(list, db.progress)
    && StrictlyNewestFirst(list) && UniqueKeys(list)
    && UniqueKeys(db.progress) && DistinctTimes(db.progress)
    && (forall r <- list :: r.updatedAt < now)
  }

  lemma RowsAgree(xs: seq<ProgressRow>, ys: seq<ProgressRow>, user: string, manga: string)
    requires SameRows(xs, ys) && UniqueKeys(xs) && UniqueKeys(ys)
    ensures RowAt(xs, user, manga) < |xs| <==> RowAt(ys, user, manga) < |ys|
    ensures RowAt(xs, user, manga) < |xs| ==> xs[RowAt(xs, user, manga)] == ys[RowAt(ys, user, manga)]
  {
    var i, j := RowAt(xs, user, manga), RowAt(ys, user, manga);
    if i < |xs| {
      assert xs[i] in ys;
    }
    if j < |ys| {
      assert ys[j] in xs;
    }
  }

  /** Removing a key leaves every other row, in place. */
  lemma WithoutKeepsOthers(rows: seq<ProgressRow>, user: string, manga: string)
    requires UniqueKeys(rows)
    ensures forall r :: r in Without(rows, user, manga) <==> r in rows && !IsRow(r, user, manga)
  {
    var i := RowAt(rows, user, manga);
    var rest := Without(rows, user, manga);
    if i < |rows| {
      assert rows == rows[..i] + [rows[i]] + rows[i + 1..];
      assert forall k | i < k < |rows| :: !IsRow(rows[k], user, manga);
    }
  }

  lemma UpdateIsSwap(
    rows: seq<ProgressRow>, i: nat, r: ProgressRow, updated: seq<ProgressRow>, others: seq<ProgressRow>)
    requires i < |rows| && updated == rows[i := r] && others == rows[..i] + rows[i + 1..]
    ensures forall q :: q in updated <==> q == r || q in others
  {
    assert updated[i] == r;
    forall q <- updated
      ensures q == r || q in others
    {
      var k :| 0 <= k < |updated| && updated[k] == q;
      if k != i {
        assert others[if k < i then k else k - 1] == q;
      }
    }
    forall q <- others
      ensures q in updated
    {
      var k :| 0 <= k < |others| && others[k] == q;
      assert updated[if k < i then k else k + 1] == q;
    }
  }

  lemma UpdateSwapsRow(rows: seq<ProgressRow>, i: nat, r: ProgressRow)
    requires UniqueKeys(rows) && i == RowAt(rows, r.user, r.manga) < |rows|
    ensures var updated := rows[i := r];
            forall q :: q in updated <==> q == r || (q in rows && !IsRow(q, r.user, r.manga))
  {
    WithoutCuts(rows, i, r.user, r.manga);
    UpdateIsSwap(rows, i, r, rows[i := r], Without(rows, r.user, r.manga));
    WithoutKeepsOthers(rows, r.user, r.manga);
    SwapMeans(rows, r, rows[i := r], Without(rows, r.user, r.manga));
  }

  lemma WithoutCuts(rows: seq<ProgressRow>, i: nat, user: string, manga: string)
    requires i == RowAt(rows, user, manga) < |rows|
    ensures Without(rows, user, manga) == rows[..i] + rows[i + 1..]
  {
  }

  lemma SwapMeans(rows: seq<ProgressRow>, r: ProgressRow, updated: seq<ProgressRow>, others: seq<ProgressRow>)
    requires forall q :: q in updated <==> q == r || q in others
    requires forall q :: q in others <==> q in rows && !IsRow(q, r.user, r.manga)
    ensures forall q :: q in updated <==> q == r || (q in rows && !IsRow(q, r.user, r.manga))
  {
  }

  lemma WithoutIsOrdered(list: seq<ProgressRow>, user: string, manga: string)
    requires StrictlyNewestFirst(list) && UniqueKeys(list)
    ensures StrictlyNewestFirst(Without(list, user, manga)) && UniqueKeys(Without(list, user, manga))
  {
    var i := RowAt(list, user, manga);
    var rest := Without(list, user, manga);
    if i < |list| {
      assert forall k | 0 <= k < |rest| :: rest[k] == if k < i then list[k] else list[k + 1];
    }
  }

  lemma HeadKeepsOrder(rest: seq<ProgressRow>, r: ProgressRow)
    requires StrictlyNewestFirst(rest) && UniqueKeys(rest)
    requires forall q <- rest :: q.updatedAt < r.updatedAt && !IsRow(q, r.user, r.manga)
    ensures StrictlyNewestFirst([r] + rest) && UniqueKeys([r] + rest)
  {
    assert forall k | 0 <= k < |rest| :: rest[k] in rest;
  }

  lemma FrontIsOrdered(list: seq<ProgressRow>, r: ProgressRow, now: int)
    requires StrictlyNewestFirst(list) && UniqueKeys(list) && forall q <- list :: q.updatedAt < now
    requires r.updatedAt == now
    ensures StrictlyNewestFirst(ToFront(list, r)) && UniqueKeys(ToFront(list, r))
    ensures forall q :: q in ToFront(list, r) <==> q == r || (q in list && !IsRow(q, r.user, r.manga))
  {
    WithoutIsOrdered(list, r.user, r.manga);
    WithoutKeepsOthers(list, r.user, r.manga);
    HeadKeepsOrder(Without(list, r.user, r.manga), r);
  }

  lemma TouchMirrors(list: seq<ProgressRow>, db: DB, now: int, i: nat, r: ProgressRow)
    requires Mirrors(list, db, now) && i == RowAt(db.progress, r.user, r.manga) < |db.progress| && r.updatedAt == now
    ensures Mirrors(ToFront(list, r), db.(progress := db.progress[i := r]), now + 1)
  {
    FrontIsOrdered(list, r, now);
    UpdateSwapsRow(db.progress, i, r);
    assert forall k | 0 <= k < |db.progress| :: db.progress[k] in list;
  }

  lemma AppendKeepsDistinct(rows: seq<ProgressRow>, r: ProgressRow)
    requires UniqueKeys(rows) && DistinctTimes(rows) && RowAt(rows, r.user, r.manga) == |rows|
    requires forall q <- rows :: q.updatedAt < r.updatedAt
    ensures UniqueKeys(rows + [r]) && DistinctTimes(rows + [r])
  {
    assert forall k | 0 <= k < |rows| :: rows[k] in rows;
  }

  lemma FreshMirrors(list: seq<ProgressRow>, db: DB, now: int, r: ProgressRow)
    requires Mirrors(list, db, now) && RowAt(db.progress, r.user, r.manga) == |db.progress| && r.updatedAt == now
    ensures Mirrors(ToFront(list, r), db.(progress := db.progress + [r]), now + 1)
  {
    FrontIsOrdered(list, r, now);
    AppendKeepsDistinct(db.progress, r);
    forall q
      ensures q in ToFront(list, r) <==> q in db.progress + [r]
    {
      assert q in db.progress ==> !IsRow(q, r.user, r.manga);
    }
  }

  lemma RemovalKeepsDistinct(rows: seq<ProgressRow>, user: string, manga: string)
    requires UniqueKeys(rows) && DistinctTimes(rows)
    ensures UniqueKeys(Without(rows, user, manga)) && DistinctTimes(Without(rows, user, manga))
  {
    var rest := Without(rows, user, manga);
    var i := RowAt(rows, user, manga);
    if i < |rows| {
      assert forall k | 0 <= k < |rest| :: rest[k] == if k < i then rows[k] else rows[k + 1];
    }
  }

  lemma RemoveMirrors(list: seq<ProgressRow>, db: DB, now: int, user: string, manga: string)
    requires Mirrors(list, db, now)
    ensures Mirrors(Without(list, user, manga), DeleteRow(db, user, manga), now + 1)
  {
    WithoutIsOrdered(list, user, manga);
    SameRowsLeft(list, db.progress, user, manga);
    RemovalKeepsDistinct(db.progress, user, manga);
    assert DeleteRow(db, user, manga).progress == Without(db.progress, user, manga);
    WithoutKeepsOthers(list, user, manga);
  }

  lemma SameRowsLeft(xs: seq<ProgressRow>, ys: seq<ProgressRow>, user: string, manga: string)
    requires SameRows(xs, ys) && UniqueKeys(xs) && UniqueKeys(ys)
    ensures SameRows(Without(xs, user, manga), Without(ys, user, manga))
  {
    WithoutKeepsOthers(xs, user, manga);
    WithoutKeepsOthers(ys, user, manga);
  }

  lemma AddMirrors(list: seq<ProgressRow>, db: DB, op: Op, now: int)
    requires Mirrors(list, db, now) && op.Add?
    ensures Mirrors(ListStep(list, db, op, now), Apply(db, op, now), now + 1)
  {
    RowsAgree(list, db.progress, op.user, op.manga);
    var i := RowAt(db.progress, op.user, op.manga);
    if i < |db.progress| {
      TouchMirrors(list, db, now, i, Apply(db, op, now).progress[i]);
    } else if KeysExist(db, op.user, op.manga) {
      FreshMirrors(list, db, now, ProgressRow(op.user, op.manga, op.chapter, StatusOrDefault(op.status), 0, now));
    }
  }

  lemma StepMirrors(list: seq<ProgressRow>, db: DB, op: Op, now: int)
    requires Mirrors(list, db, now)
    ensures Mirrors(ListStep(list, db, op, now), Apply(db, op, now), now + 1)
  {
    if op.Add? {
      AddMirrors(list, db, op, now);
    } else if op.Remove? {
      RemoveMirrors(list, db, now, op.user, op.manga);
    } else if op.Progress? || op.Rate? {
      RowsAgree(list, db.progress, op.user, op.manga);
      var i := RowAt(db.progress, op.user, op.manga);
      if i < |db.progress| {
        TouchMirrors(list, db, now, i, Apply(db, op, now).progress[i]);
      }
    }
  }

  lemma MirrorsLater(list: seq<ProgressRow>, db: DB, now: int, later: int)
    requires Mirrors(list, db, now) && now <= later
    ensures Mirrors(list, db, later)
  {
  }

  /** At any time after the last call, for any clock that ticks. */
  lemma {:induction false} ListMirrorsTable(calls: seq<Call>, now: int)
    requires Ticking(calls) && (calls != [] ==> calls[|calls| - 1].at < now)
    ensures Mirrors(List(calls), After(calls), now)
  {
    if calls != [] {
      var n := |calls| - 1;
      ListMirrorsTable(calls[..n], calls[n].at);
      StepMirrors(List(calls[..n]), After(calls[..n]), calls[n].op, calls[n].at);
      MirrorsLater(List(calls), After(calls), calls[n].at + 1, now);
    }
  }

  function Later(calls: seq<Call>): int {
    if calls == [] then 0 else calls[|calls| - 1].at + 1
  }

  lemma ListMirrorsNow(calls: seq<Call>)
    requires Ticking(calls)
    ensures Mirrors(List(calls), After(calls), Later(calls))
  {
    ListMirrorsTable(calls, Later(calls));
  }

  // ----- Primary keys -----

  lemma OpKeepsKeysUnique(db: DB, op: Op, now: int)
    requires UniqueKeys(db.progress)
    ensures UniqueKeys(Apply(db, op, now).progress)
  {
    if op.Remove? {
      var i := RowAt(db.progress, op.user, op.manga);
      var rest := DeleteRow(db, op.user, op.manga).progress;
      if i < |db.progress| {
        assert forall j | 0 <= j < |rest| :: rest[j] == if j < i then db.progress[j] else db.progress[j + 1];
      }
    }
  }

  lemma {:induction false} KeysStayUnique(calls: seq<Call>)
    ensures UniqueKeys(After(calls).progress)
  {
    if calls != [] {
      var n := |calls| - 1;
      KeysStayUnique(calls[..n]);
      OpKeepsKeysUnique(After(calls[..n]), calls[n].op, calls[n].at);
    }
  }

  // ----- Foreign keys -----

  lemma PutKeepsManga(db: DB, row: MangaRow, id: string)
    ensures FindManga(UpsertManga(db, row), id).Some? <==> FindManga(db, id).Some? || id == row.id
  {
    var i := MangaAt(db.manga, row.id);
    var rows' := UpsertManga(db, row).manga;
    var k, k' := MangaAt(db.manga, id), MangaAt(rows', id);
    if k < |db.manga| {
      assert rows'[k].id == id;
    }
    if id == row.id {
      assert rows'[i].id == id;
    }
    if k' < |rows'| && id != row.id {
      assert k' != i && db.manga[k'].id == id;
    }
  }

  lemma StepKeepsKeys(db: DB, op: Op, now: int)
    requires KeysHold(db)
    ensures KeysHold(Apply(db, op, now))
  {
    var db' := Apply(db, op, now);
    forall r <- db'.progress
      ensures FindManga(db', r.manga).Some?
    {
      if op.PutManga? {
        PutKeepsManga(db, op.row, r.manga);
      }
    }
  }

  lemma {:induction false} KeysAlwaysHold(calls: seq<Call>)
    ensures KeysHold(After(calls))
  {
    if calls != [] {
      var n := |calls| - 1;
      KeysAlwaysHold(calls[..n]);
      StepKeepsKeys(After(calls[..n]), calls[n].op, calls[n].at);
    }
  }

  // ----- The listing -----

  lemma {:induction false} JoinedHas(db: DB, rows: seq<ProgressRow>, user: string, status: string, e: LibraryEntry)
    ensures e in Joined(db, rows, user, status) <==>
            exists r <- rows ::
              Selected(r, user, status) && FindManga(db, r.manga).Some? && e == Entry(r, FindManga(db, r.manga).value)
  {
    if rows != [] {
      var n := |rows| - 1;
      JoinedHas(db, rows[..n], user, status, e);
      assert rows == rows[..n] + [rows[n]];
    }
  }

  ghost predicate EntriesNewestFirst(entries: seq<LibraryEntry>) {
    forall i, j | 0 <= i < j < |entries| :: entries[i].updatedAt > entries[j].updatedAt
  }

  ghost predicate DistinctEntries(entries: seq<LibraryEntry>) {
    forall i, j | 0 <= i < j < |entries| :: entries[i].updatedAt != entries[j].updatedAt
  }

  lemma {:induction false} TimesComeFromRows(db: DB, rows: seq<ProgressRow>, user: string, status: string)
    ensures forall e <- Joined(db, rows, user, status) :: exists i | 0 <= i < |rows| :: rows[i].updatedAt == e.updatedAt
  {
    forall e <- Joined(db, rows, user, status)
      ensures exists i | 0 <= i < |rows| :: rows[i].updatedAt == e.updatedAt
    {
      JoinedHas(db, rows, user, status, e);
      var r :| r in rows && e.updatedAt == r.updatedAt;
      var i :| 0 <= i < |rows| && rows[i] == r;
      assert rows[i].updatedAt == e.updatedAt;
    }
  }

  lemma {:induction false} JoinedStaysOrdered(db: DB, rows: seq<ProgressRow>, user: string, status: string)
    ensures StrictlyNewestFirst(rows) ==> EntriesNewestFirst(Joined(db, rows, user, status))
    ensures DistinctTimes(rows) ==> DistinctEntries(Joined(db, rows, user, status))
  {
    if rows != [] {
      var n := |rows| - 1;
      JoinedStaysOrdered(db, rows[..n], user, status);
      TimesComeFromRows(db, rows[..n], user, status);
      var before := Joined(db, rows[..n], user, status);
      forall k | 0 <= k < |before|
        ensures StrictlyNewestFirst(rows) ==> before[k].updatedAt > rows[n].updatedAt
        ensures DistinctTimes(rows) ==> before[k].updatedAt != rows[n].updatedAt
      {
        assert before[k] in before;
        var i :| 0 <= i < n && rows[..n][i].updatedAt == before[k].updatedAt;
        assert rows[i] == rows[..n][i];
      }
    }
  }

  lemma {:induction false} InsertSorts(e: LibraryEntry, sorted: seq<LibraryEntry>)
    requires EntriesNewestFirst(sorted) && forall x <- sorted :: x.updatedAt != e.updatedAt
    ensures EntriesNewestFirst(Insert(e, sorted))
    ensures forall x :: x in Insert(e, sorted) <==> x == e || x in sorted
  {
    if sorted != [] && sorted[0].updatedAt > e.updatedAt {
      InsertSorts(e, sorted[1..]);
      assert sorted == [sorted[0]] + sorted[1..];
      var rest := Insert(e, sorted[1..]);
      forall k | 0 <= k < |rest|
        ensures sorted[0].updatedAt > rest[k].updatedAt
      {
        assert rest[k] in rest;
        if rest[k] != e {
          var j :| 0 <= j < |sorted[1..]| && sorted[1..][j] == rest[k];
          assert sorted[j + 1] == rest[k];
        }
      }
    }
  }

  lemma {:induction false} NewestFirstSorts(entries: seq<LibraryEntry>)
    requires DistinctEntries(entries)
    ensures EntriesNewestFirst(NewestFirst(entries))
    ensures forall x :: x in NewestFirst(entries) <==> x in entries
  {
    if entries != [] {
      NewestFirstSorts(entries[1..]);
      assert entries == [entries[0]] + entries[1..];
      InsertSorts(entries[0], NewestFirst(entries[1..]));
    }
  }

  /** There is only one way to list a collection newest first. */
  lemma {:induction false} OrderIsUnique(xs: seq<LibraryEntry>, ys: seq<LibraryEntry>)
    requires EntriesNewestFirst(xs) && EntriesNewestFirst(ys) && forall e :: e in xs <==> e in ys
    ensures xs == ys
  {
    if xs != [] {
      assert xs[0] in ys;
    }
    if ys != [] {
      assert ys[0] in xs;
      var xt, yt := xs[1..], ys[1..];
      assert xs == [xs[0]] + xt && ys == [ys[0]] + yt;
      assert xs[0] !in xt && ys[0] !in yt;
      forall e
        ensures e in xt <==> e in yt
      {
        assert e in xs <==> e in ys;
      }
      OrderIsUnique(xt, yt);
    }
  }

  /** Refinement: after any operations the library query of a user returns the move-to-front list's rows of that
      user and status, in list order. */
  lemma ListingIsMoveToFront(calls: seq<Call>, user: string, status: string)
    requires Ticking(calls)
    ensures LibraryQuery(After(calls), user, status) == Joined(After(calls), List(calls), user, status)
  {
    var db := After(calls);
    ListMirrorsNow(calls);
    JoinedStaysOrdered(db, List(calls), user, status);
    JoinedStaysOrdered(db, db.progress, user, status);
    NewestFirstSorts(Joined(db, db.progress, user, status));
    forall e
      ensures e in Joined(db, db.progress, user, status) <==> e in Joined(db, List(calls), user, status)
    {
      JoinedHas(db, List(calls), user, status, e);
      JoinedHas(db, db.progress, user, status, e);
    }
    OrderIsUnique(LibraryQuery(db, user, status), Joined(db, List(calls), user, status));
  }

  function OfUser(rows: seq<ProgressRow>, user: string, status: string): seq<ProgressRow> {
    if rows == [] then []
    else
      var n := |rows| - 1;
      OfUser(rows[..n], user, status) +
      if rows[n].user == user && (status == "" || rows[n].status == status) then [rows[n]] else []
  }

  /** The listed entry shows this row and this manga, column by column. */
  predicate Shows(e: LibraryEntry, r: ProgressRow, m: MangaRow) {
    && e.mangaId == r.manga == m.id && e.title == m.title && e.total == m.total
    && e.status == r.status && e.chapter == r.chapter && e.rating == r.rating && e.updatedAt == r.updatedAt
  }

  lemma {:induction false} JoinKeepsRows(db: DB, rows: seq<ProgressRow>, user: string, status: string)
    requires forall r <- rows :: FindManga(db, r.manga).Some?
    ensures var picked := OfUser(rows, user, status);
            var entries := Joined(db, rows, user, status);
            |entries| == |picked| &&
            forall i | 0 <= i < |picked| ::
              FindManga(db, picked[i].manga).Some? &&
              entries[i] == Entry(picked[i], FindManga(db, picked[i].manga).value)
  {
    if rows != [] {
      JoinKeepsRows(db, rows[..|rows| - 1], user, status);
    }
  }

  /** The join drops no row: every selected row of the list appears, with its manga's current title and total. */
  lemma JoinDropsNothing(calls: seq<Call>, user: string, status: string)
    requires Ticking(calls)
    ensures var db := After(calls);
            var picked := OfUser(List(calls), user, status);
            var listing := LibraryQuery(db, user, status);
            |listing| == |picked| &&
            forall i | 0 <= i < |picked| ::
              FindManga(db, picked[i].manga).Some? &&
              Shows(listing[i], picked[i], FindManga(db, picked[i].manga).value)
  {
    ListingIsMoveToFront(calls, user, status);
    KeysAlwaysHold(calls);
    ListMirrorsNow(calls);
    assert forall r <- List(calls) :: r in After(calls).progress;
    JoinKeepsRows(After(calls), List(calls), user, status);
  }

  function WithStatus(entries: seq<LibraryEntry>, status: string): seq<LibraryEntry> {
    if entries == [] then []
    else
      var n := |entries| - 1;
      WithStatus(entries[..n], status) + if entries[n].status == status then [entries[n]] else []
  }

  lemma {:induction false} StatusCommutesWithJoin(db: DB, rows: seq<ProgressRow>, user: string, status: string)
    requires status != ""
    ensures Joined(db, rows, user, status) == WithStatus(Joined(db, rows, user, ""), status)
  {
    if rows != [] {
      var n := |rows| - 1;
      StatusCommutesWithJoin(db, rows[..n], user, status);
      var all := Joined(db, rows[..n], user, "");
      assert all + [] == all;
      if rows[n].user == user && FindManga(db, rows[n].manga).Some? {
        var e := Entry(rows[n], FindManga(db, rows[n].manga).value);
        assert (all + [e])[..|all|] == all;
      }
    }
  }

  /** Filtering in the query and filtering the unfiltered listing give the same, in the same order. */
  lemma StatusFilterCommutes(calls: seq<Call>, user: string, status: string)
    requires Ticking(calls) && status != ""
    ensures LibraryQuery(After(calls), user, status) == WithStatus(LibraryQuery(After(calls), user, ""), status)
  {
    ListingIsMoveToFront(calls, user, status);
    ListingIsMoveToFront(calls, user, "");
    StatusCommutesWithJoin(After(calls), List(calls), user, status);
  }

  // ----- Other users -----

  lemma {:induction false} JoinedConcat(db: DB, a: seq<ProgressRow>, b: seq<ProgressRow>, user: string, status: string)
    ensures Joined(db, a + b, user, status) == Joined(db, a, user, status) + Joined(db, b, user, status)
  {
    if b == [] {
      assert a + b == a;
    } else {
      var n := |b| - 1;
      assert (a + b)[..|a + b| - 1] == a + b[..n];
      JoinedConcat(db, a, b[..n], user, status);
    }
  }

  /** Rows of other users are not listed. */
  lemma OthersAreNotListed(db: DB, r: ProgressRow, user: string, status: string)
    requires r.user != user
    ensures Joined(db, [r], user, status) == []
  {
    assert [r][..0] == [];
  }

  lemma {:induction false} JoinedFollowsManga(db: DB, db': DB, rows: seq<ProgressRow>, user: string, status: string)
    requires db'.manga == db.manga
    ensures Joined(db', rows, user, status) == Joined(db, rows, user, status)
  {
    if rows != [] {
      JoinedFollowsManga(db, db', rows[..|rows| - 1], user, status);
    }
  }

  lemma SwapIsNotListed(
    db: DB, rows: seq<ProgressRow>, i: nat, mid: seq<ProgressRow>, user: string, status: string)
    requires i < |rows| && rows[i].user != user && (mid == [] || (|mid| == 1 && mid[0].user != user))
    ensures Joined(db, rows[..i] + mid + rows[i + 1..], user, status) == Joined(db, rows, user, status)
  {
    assert rows == rows[..i] + [rows[i]] + rows[i + 1..];
    JoinedConcat(db, rows[..i] + mid, rows[i + 1..], user, status);
    JoinedConcat(db, rows[..i], mid, user, status);
    JoinedConcat(db, rows[..i] + [rows[i]], rows[i + 1..], user, status);
    JoinedConcat(db, rows[..i], [rows[i]], user, status);
    OthersAreNotListed(db, rows[i], user, status);
    if mid != [] {
      assert mid == [mid[0]];
      OthersAreNotListed(db, mid[0], user, status);
    }
  }

  predicate OnRowOfOther(op: Op, user: string) {
    (op.Add? || op.Progress? || op.Rate? || op.Remove?) && op.user != user
  }

  /** One row of `owner` at position `i` changed, went or came, or nothing did. */
  predicate OneRowApart(rows: seq<ProgressRow>, rows': seq<ProgressRow>, i: nat, owner: string) {
    || rows' == rows
    || (i < |rows| && rows' == rows[..i] + [] + rows[i + 1..])
    || (i < |rows| == |rows'| && rows'[i].user == owner && rows' == rows[..i] + [rows'[i]] + rows[i + 1..])
    || (|rows'| == |rows| + 1 && rows'[|rows|].user == owner && rows' == rows + [rows'[|rows|]])
  }

  lemma OneRowKeepsJoined(
    db: DB, rows: seq<ProgressRow>, rows': seq<ProgressRow>, i: nat, owner: string, user: string, status: string)
    requires OneRowApart(rows, rows', i, owner) && owner != user && (i < |rows| ==> rows[i].user == owner)
    ensures Joined(db, rows', user, status) == Joined(db, rows, user, status)
  {
    if rows' == rows {
    } else if i < |rows| && rows' == rows[..i] + [] + rows[i + 1..] {
      SwapIsNotListed(db, rows, i, [], user, status);
    } else if |rows'| == |rows| {
      SwapIsNotListed(db, rows, i, [rows'[i]], user, status);
    } else {
      JoinedConcat(db, rows, [rows'[|rows|]], user, status);
      OthersAreNotListed(db, rows'[|rows|], user, status);
    }
  }

  lemma OtherUserStep(db: DB, op: Op, now: int, user: string)
    requires OnRowOfOther(op, user)
    ensures OneRowApart(db.progress, Apply(db, op, now).progress, RowAt(db.progress, op.user, op.manga), op.user)
    ensures Apply(db, op, now).manga == db.manga
  {
  }

  lemma OtherUserKeepsJoined(db: DB, op: Op, now: int, user: string, status: string)
    requires OnRowOfOther(op, user)
    ensures Joined(db, Apply(db, op, now).progress, user, status) == Joined(db, db.progress, user, status)
  {
    OtherUserStep(db, op, now, user);
    var i := RowAt(db.progress, op.user, op.manga);
    OneRowKeepsJoined(db, db.progress, Apply(db, op, now).progress, i, op.user, user, status);
  }

  /** Isolation: whatever one user does to their library, nobody else's listing changes. */
  lemma OthersDoNotShow(calls: seq<Call>, call: Call, user: string, status: string)
    requires OnRowOfOther(call.op, user)
    ensures LibraryQuery(After(calls + [call]), user, status) == LibraryQuery(After(calls), user, status)
  {
    assert (calls + [call])[..|calls|] == calls;
    var db, db' := After(calls), After(calls + [call]);
    OtherUserKeepsJoined(db, call.op, call.at, user, status);
    OtherUserStep(db, call.op, call.at, user);
    JoinedFollowsManga(db, db', db'.progress, user, status);
  }

  // ----- What the tables know of users and manga -----

  predicate Puts(call: Call, id: string) {
    call.op.PutManga? && call.op.row.id == id
  }

  /** Users are those created, and a manga is what was last put under its id. */
  lemma {:induction false} TablesFollowCalls(calls: seq<Call>, user: string, id: string)
    ensures user in After(calls).users <==> exists c <- calls :: c.op == NewUser(user)
    ensures FindManga(After(calls), id).Some? <==> exists c <- calls :: Puts(c, id)
    ensures forall i | 0 <= i < |calls| && Puts(calls[i], id) && (forall j | i < j < |calls| :: !Puts(calls[j], id)) ::
              FindManga(After(calls), id) == Some(calls[i].op.row)
  {
    if calls != [] {
      var n := |calls| - 1;
      TablesFollowCalls(calls[..n], user, id);
      assert calls == calls[..n] + [calls[n]];
      CallOnTables(After(calls[..n]), calls[n], user, id);
      forall i | 0 <= i < n
        ensures calls[..n][i] == calls[i]
      {
      }
    }
  }

  lemma CallOnTables(db: DB, call: Call, user: string, id: string)
    ensures var db' := Apply(db, call.op, call.at);
            && (user in db'.users <==> user in db.users || call.op == NewUser(user))
            && FindManga(db', id) == if Puts(call, id) then Some(call.op.row) else FindManga(db, id)
  {
    if call.op.PutManga? {
      UpsertFinds(db, call.op.row, id);
    }
  }

  lemma UpsertFinds(db: DB, row: MangaRow, id: string)
    ensures FindManga(UpsertManga(db, row), id) == if id == row.id then Some(row) else FindManga(db, id)
  {
    var i, k := MangaAt(db.manga, row.id), MangaAt(db.manga, id);
    var rows' := UpsertManga(db, row).manga;
    MangaAtIsFirst(rows', if id == row.id then i else if k == |db.manga| then |rows'| else k, id);
  }

  lemma MangaAtIsFirst(rows: seq<MangaRow>, i: nat, id: string)
    requires i <= |rows| && (i < |rows| ==> rows[i].id == id) && forall j | 0 <= j < i :: rows[j].id != id
    ensures MangaAt(rows, id) == i
  {
  }
}
