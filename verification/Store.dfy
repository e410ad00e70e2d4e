/** The tables behind internal/manga/repository.go and the statements it runs on them, one function each.
    Times are the values of time.Now(), which the callers pass in. */
module Store {
  import opened Channels

  /** A row of manga; `genres` holds the JSON text. */
  datatype MangaRow = MangaRow(
    id: string, title: string, author: string, genres: string, status: string,
    total: int, description: string, cover: string)

  /** A row of user_progress. */
  datatype ProgressRow = ProgressRow(
    user: string, manga: string, chapter: int, status: string, rating: int, updatedAt: int)

  datatype DB = DB(users: set<string>, manga: seq<MangaRow>, progress: seq<ProgressRow>)

  datatype LibraryEntry = LibraryEntry(
    mangaId: string, title: string, status: string, chapter: int, total: int, rating: int, updatedAt: int)

  const PLAN_TO_READ := "plan-to-read"

  // ----- manga -----

  /** Position of the row with this id, or the table's length. */
  function MangaAt(rows: seq<MangaRow>, id: string): (i: nat)
    ensures i <= |rows|
    ensures i < |rows| ==> rows[i].id == id
    ensures forall j | 0 <= j < i :: rows[j].id != id
  {
    if rows == [] || rows[0].id == id then 0 else 1 + MangaAt(rows[1..], id)
  }

  function FindManga(db: DB, id: string): Option<MangaRow> {
    var i := MangaAt(db.manga, id);
    if i < |db.manga| then Some(db.manga[i]) else None
  }

  /** INSERT ... ON CONFLICT(id) DO UPDATE with every other column taken from the new row. */
  function UpsertManga(db: DB, row: MangaRow): DB {
    var i := MangaAt(db.manga, row.id);
    db.(manga := if i < |db.manga| then db.manga[i := row] else db.manga + [row])
  }

  // ----- user_progress -----

  predicate IsRow(r: ProgressRow, user: string, manga: string) {
    r.user == user && r.manga == manga
  }

  /** Position of the row with this primary key, or the table's length. */
  function RowAt(rows: seq<ProgressRow>, user: string, manga: string): (i: nat)
    ensures i <= |rows|
    ensures i < |rows| ==> IsRow(rows[i], user, manga)
    ensures forall j | 0 <= j < i :: !IsRow(rows[j], user, manga)
  {
    if rows == [] || IsRow(rows[0], user, manga) then 0 else 1 + RowAt(rows[1..], user, manga)
  }

  function FindRow(db: DB, user: string, manga: string): Option<ProgressRow> {
    var i := RowAt(db.progress, user, manga);
    if i < |db.progress| then Some(db.progress[i]) else None
  }

  /** Both foreign keys of a new user_progress row. */
  predicate KeysExist(db: DB, user: string, manga: string) {
    user in db.users && FindManga(db, manga).Some?
  }

  function StatusOrDefault(status: string): string {
    if status == "" then PLAN_TO_READ else status
  }

  /** INSERT ... ON CONFLICT(user_id, manga_id) DO UPDATE: status, chapter and time change, the rating stays; a new
      row has the column default 0 for its rating. None when a foreign key is violated. */
  function UpsertRow(db: DB, user: string, manga: string, status: string, chapter: int, now: int): Option<DB> {
    var i := RowAt(db.progress, user, manga);
    if i < |db.progress| then
      Some(db.(progress := db.progress[i := db.progress[i].(status := status, chapter := chapter, updatedAt := now)]))
    else if KeysExist(db, user, manga) then
      Some(db.(progress := db.progress + [ProgressRow(user, manga, chapter, status, 0, now)]))
    else None
  }

  /** UPDATE ... WHERE key; the flag tells whether a row was affected. */
  function SetChapter(db: DB, user: string, manga: string, chapter: int, now: int): (DB, bool) {
    var i := RowAt(db.progress, user, manga);
    if i < |db.progress| then
      (db.(progress := db.progress[i := db.progress[i].(chapter := chapter, updatedAt := now)]), true)
    else (db, false)
  }

  function SetRating(db: DB, user: string, manga: string, rating: int, now: int): DB {
    var i := RowAt(db.progress, user, manga);
    if i < |db.progress| then
      db.(progress := db.progress[i := db.progress[i].(rating := rating, updatedAt := now)])
    else db
  }

  function DeleteRow(db: DB, user: string, manga: string): DB {
    var i := RowAt(db.progress, user, manga);
    if i < |db.progress| then db.(progress := db.progress[..i] + db.progress[i + 1..]) else db
  }

  // ----- The library query -----

  predicate Selected(r: ProgressRow, user: string, status: string) {
    r.user == user && (status != "" ==> r.status == status)
  }

  function Entry(r: ProgressRow, m: MangaRow): LibraryEntry {
    LibraryEntry(m.id, m.title, r.status, r.chapter, m.total, r.rating, r.updatedAt)
  }

  /** The joined and filtered rows, in the order of `rows`. */
  function Joined(db: DB, rows: seq<ProgressRow>, user: string, status: string): seq<LibraryEntry> {
    if rows == [] then []
    else
      var n := |rows| - 1;
      var r := rows[n];
      Joined(db, rows[..n], user, status) +
      if Selected(r, user, status) && FindManga(db, r.manga).Some?
      then [Entry(r, FindManga(db, r.manga).value)] else []
  }

  function Insert(e: LibraryEntry, sorted: seq<LibraryEntry>): seq<LibraryEntry> {
    if sorted == [] || sorted[0].updatedAt <= e.updatedAt then [e] + sorted
    else [sorted[0]] + Insert(e, sorted[1..])
  }

  /** ORDER BY updated_at DESC. */
  function NewestFirst(entries: seq<LibraryEntry>): seq<LibraryEntry> {
    if entries == [] then [] else Insert(entries[0], NewestFirst(entries[1..]))
  }

  function LibraryQuery(db: DB, user: string, status: string): seq<LibraryEntry> {
    NewestFirst(Joined(db, db.progress, user, status))
  }

  // ----- Operations as data -----

  /** One repository call (or the creation of a user), as the handlers issue them. */
  datatype Op =
    | NewUser(user: string)
    | PutManga(row: MangaRow)
    | Add(user: string, manga: string, status: string, chapter: int)
    | Progress(user: string, manga: string, chapter: int)
    | Rate(user: string, manga: string, rating: int)
    | Remove(user: string, manga: string)

  /** A call that fails leaves the tables alone. */
  function Apply(db: DB, op: Op, now: int): DB {
    match op
    case NewUser(u) => db.(users := db.users + {u})
    case PutManga(row) => UpsertManga(db, row)
    case Add(u, m, status, chapter) =>
      var r := UpsertRow(db, u, m, StatusOrDefault(status), chapter, now);
      if r.Some? then r.value else db
    case Progress(u, m, chapter) => SetChapter(db, u, m, chapter, now).0
    case Rate(u, m, rating) => SetRating(db, u, m, rating, now)
    case Remove(u, m) => DeleteRow(db, u, m)
  }

  /** One call with what the clock showed. */
  datatype Call = Call(op: Op, at: int)

  /** The clock never shows the same twice or runs backwards. */
  ghost predicate Ticking(calls: seq<Call>) {
    forall i, j | 0 <= i < j < |calls| :: calls[i].at < calls[j].at
  }

  /** The tables after a sequence of calls. */
  function After(calls: seq<Call>): DB {
    if calls == [] then DB({}, [], [])
    else
      var n := |calls| - 1;
      Apply(After(calls[..n]), calls[n].op, calls[n].at)
  }
}
