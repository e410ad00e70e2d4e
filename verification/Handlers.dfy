/** The handlers that change a library row and then publish, and the two that search
    (internal/httpapi/server.go:186-202, 226-330, internal/grpc/service.go:167-193).
    Requests arrive already decoded, with the caller's user id. */
module Handlers {
  import opened Channels
  import opened Broker
  import opened Store
  import opened Repository
  import opened Sql
  import opened Search
  import opened TcpSystem

  const OK := 200
  const CREATED := 201
  const BAD_REQUEST := 400
  const NOT_FOUND := 404
  const SERVER_ERROR := 500

  /** What the HTTP progress handler checks before it touches the row. */
  predicate PassesChecks(db: DB, manga: string, chapter: int) {
    manga != "" && chapter >= 0 && FindManga(db, manga).Some? &&
    (FindManga(db, manga).value.total > 0 ==> chapter <= FindManga(db, manga).value.total)
  }

  /** The answer of the HTTP progress handler when nothing else runs: checks in order, then the row. */
  function ProgressCode(db: DB, user: string, manga: string, chapter: int): (code: int)
    ensures code == 200 <==>
            manga != "" && chapter >= 0 && FindManga(db, manga).Some? &&
            (FindManga(db, manga).value.total > 0 ==> chapter <= FindManga(db, manga).value.total) &&
            FindRow(db, user, manga).Some?
    ensures code == 404 <==> manga != "" && chapter >= 0 && FindManga(db, manga).None?
    ensures code in {200, 404, 400}
  {
    if manga == "" || chapter < 0 then BAD_REQUEST
    else
      match FindManga(db, manga)
      case None => NOT_FOUND
      case Some(m) =>
        if m.total > 0 && chapter > m.total then BAD_REQUEST
        else if FindRow(db, user, manga).None? then BAD_REQUEST
        else OK
  }

  // ----- Query parameters -----

  const MAX_INT: int := 0x7FFF_FFFF_FFFF_FFFF
  const MIN_INT: int := -0x8000_0000_0000_0000

  predicate AllDigits(s: string) {
    forall i | 0 <= i < |s| :: '0' <= s[i] <= '9'
  }

  function Value(digits: string): nat
    requires AllDigits(digits)
  {
    if digits == [] then 0
    else Value(digits[..|digits| - 1]) * 10 + (digits[|digits| - 1] as int - '0' as int)
  }

  /** strconv.Atoi with its error ignored: 0 for text that is no number, the nearest 64-bit integer out of range. */
  function Atoi(s: string): (n: int)
    ensures MIN_INT <= n <= MAX_INT
  {
    var signed := s != [] && (s[0] == '-' || s[0] == '+');
    var digits := if signed then s[1..] else s;
    if digits == [] || !AllDigits(digits) then 0
    else
      var value := if s[0] == '-' then 0 - Value(digits) else Value(digits);
      if value < MIN_INT then MIN_INT else if value > MAX_INT then MAX_INT else value
  }

  function Decimal(n: nat): (s: string)
    ensures s != [] && AllDigits(s)
  {
    var last := [(n % 10 + '0' as int) as char];
    if n < 10 then last else Decimal(n / 10) + last
  }

  lemma {:induction false} DecimalValue(n: nat)
    ensures Value(Decimal(n)) == n
  {
    var s := Decimal(n);
    if n < 10 {
      assert s[..0] == [];
    } else {
      DecimalValue(n / 10);
      assert s[..|s| - 1] == Decimal(n / 10);
    }
  }

  /** A number written out in decimal is read as that number, with or without a sign. */
  lemma AtoiReadsBack(n: nat)
    requires n <= 9223372036854775807
    ensures Atoi(Decimal(n)) == n && Atoi(['-'] + Decimal(n)) == 0 - n && Atoi(['+'] + Decimal(n)) == n
  {
    DecimalValue(n);
    AtoiOfDigits(Decimal(n));
  }

  lemma {:induction false} LeadingZero(digits: string)
    requires AllDigits(digits)
    ensures AllDigits(['0'] + digits) && Value(['0'] + digits) == Value(digits)
  {
    var longer := ['0'] + digits;
    if digits == [] {
      assert longer[..0] == [];
    } else {
      LeadingZero(digits[..|digits| - 1]);
      assert longer[..|longer| - 1] == ['0'] + digits[..|digits| - 1];
    }
  }

  lemma AtoiOfPlain(digits: string)
    requires AllDigits(digits) && digits != []
    ensures Atoi(digits) == if Value(digits) > 9223372036854775807 then 9223372036854775807 else Value(digits)
  {
    assert '0' <= digits[0] <= '9';
  }

  lemma AtoiOfSigned(digits: string)
    requires AllDigits(digits) && digits != []
    ensures Atoi(['+'] + digits) == if Value(digits) > 9223372036854775807 then 9223372036854775807 else Value(digits)
    ensures Atoi(['-'] + digits) ==
            if 0 - Value(digits) < -9223372036854775808 then -9223372036854775808 else 0 - Value(digits)
  {
    assert (['-'] + digits)[1..] == digits && (['+'] + digits)[1..] == digits;
  }

  /** Digits are read as their value, whatever the sign and with leading zeros, up to the ends of 64 bits. */
  lemma AtoiOfDigits(digits: string)
    requires AllDigits(digits) && digits != []
    ensures Atoi(digits) == (if Value(digits) > 9223372036854775807 then 9223372036854775807 else Value(digits))
    ensures Atoi(['+'] + digits) == Atoi(digits) && Atoi(['0'] + digits) == Atoi(digits)
    ensures Atoi(['-'] + digits) ==
            (if 0 - Value(digits) < -9223372036854775808 then -9223372036854775808 else 0 - Value(digits))
  {
    AtoiOfPlain(digits);
    AtoiOfSigned(digits);
    LeadingZero(digits);
    AtoiOfPlain(['0'] + digits);
  }

  predicate IsNumber(s: string) {
    var digits := if s != [] && (s[0] == '+' || s[0] == '-') then s[1..] else s;
    digits != [] && forall i | 0 <= i < |digits| :: '0' <= digits[i] <= '9'
  }

  /** Everything that is not an optional sign and then digits is read as 0. */
  lemma AtoiOfOther(s: string)
    requires !IsNumber(s)
    ensures Atoi(s) == 0
  {
  }

  lemma DefaultLimitReadsBack()
    ensures Atoi("20") == DEFAULT_LIMIT
  {
    assert "20"[..1] == "2" && "2"[..0] == "";
    assert Value("2") == 2;
    assert Value("20") == 20;
  }

  lemma DefaultOffsetReadsBack()
    ensures Atoi("0") == 0
  {
    assert "0"[..0] == "";
    assert Value("0") == 0;
  }

  function ParamOr(param: Option<string>, default: string): string {
    match param
    case None => default
    case Some(s) => s
  }

  class Api {
    const repo: MangaRepository
    const progress: Topic<Update>

    ghost predicate Valid()
      reads this, repo, progress, progress.subs
    {
      repo.Valid() && progress.Valid()
    }

    constructor (repo: MangaRepository, progress: Topic<Update>)
      ensures this.repo == repo && this.progress == progress
    {
      this.repo, this.progress := repo, progress;
    }

    /** The row changes and the update is published exactly on success; otherwise nothing changes anywhere. */
    method UpdateProgress(user: string, manga: string, chapter: int, now: int, stamp: int) returns (code: int)
      requires Valid()
      modifies repo, progress.subs`buf
      ensures Valid() && code == ProgressCode(old(repo.db), user, manga, chapter)
      ensures code == 200 ==>
                repo.db == Apply(old(repo.db), Progress(user, manga, chapter), now) &&
                OnlyRow(old(repo.db), repo.db, user, manga) &&
                FindRow(repo.db, user, manga) ==
                Some(FindRow(old(repo.db), user, manga).value.(chapter := chapter, updatedAt := now)) &&
                forall ch <- progress.subs :: ch.buf == Pushed(old(ch.buf), 64, Update(user, manga, chapter, stamp))
      ensures code != 200 ==> repo.db == old(repo.db) && forall ch <- progress.subs :: ch.buf == old(ch.buf)
    {
      if manga == "" || chapter < 0 {
        return BAD_REQUEST;
      }
      var m := repo.GetByID(manga);
      if m.None? {
        return NOT_FOUND;
      }
      if m.value.total > 0 && chapter > m.value.total {
        return BAD_REQUEST;
      }
      var ok := repo.UpdateProgress(user, manga, chapter, now);
      if !ok {
        return BAD_REQUEST;
      }
      progress.Publish(Update(user, manga, chapter, stamp));
      return OK;
    }

    method AddToLibrary(user: string, manga: string, status: string, chapter: int, now: int) returns (code: int)
      requires Valid()
      modifies repo
      ensures Valid()
      ensures code == if manga == "" then 400
                      else if FindManga(old(repo.db), manga).None? then 404
                      else if FindRow(old(repo.db), user, manga).None? && user !in old(repo.db).users then 500
                      else 201
      ensures repo.db ==
              if code == 201 then Apply(old(repo.db), Add(user, manga, status, chapter), now) else old(repo.db)
      ensures OnlyRow(old(repo.db), repo.db, user, manga)
      ensures code == 201 ==>
                FindRow(repo.db, user, manga) ==
                Some(ProgressRow(user, manga, chapter, if status == "" then "plan-to-read" else status,
                                 RatingOr(FindRow(old(repo.db), user, manga), 0), now))
    {
      if manga == "" {
        return BAD_REQUEST;
      }
      var m := repo.GetByID(manga);
      if m.None? {
        return NOT_FOUND;
      }
      var ok := repo.AddToLibrary(user, manga, status, chapter, now);
      code := if ok then CREATED else SERVER_ERROR;
    }

    /** A missing or unreadable limit means 20 results, a missing or unreadable offset the first page; nobody gets
        more than 100 results. */
    method SearchManga(
      query: string, genre: string, status: string, limit: Option<string>, offset: Option<string>)
      returns (count: nat, results: seq<Manga>)
      ensures count == |results| <= 100
      ensures results == FromRows(Page(SortByTitle(Select(repo.db.manga, query, genre, status)),
                                       ClampLimit(if limit.Some? then Atoi(limit.value) else 20),
                                       if offset.Some? then Atoi(offset.value) else 0))
    {
      DefaultLimitReadsBack();
      DefaultOffsetReadsBack();
      var n, from := Atoi(ParamOr(limit, "20")), Atoi(ParamOr(offset, "0"));
      results := repo.Search(query, genre, status, n, from);
      count := |results|;
    }

    /** Ratings outside 0..10 never reach the table; a missing row still answers 200. */
    method UpdateRating(user: string, manga: string, rating: int, now: int) returns (code: int)
      requires Valid()
      modifies repo
      ensures Valid()
      ensures code == if 0 <= rating <= 10 then 200 else 400
      ensures repo.db ==
              if code == 200 then Apply(old(repo.db), Rate(user, manga, rating), now) else old(repo.db)
      ensures OnlyRow(old(repo.db), repo.db, user, manga)
      ensures code == 200 && FindRow(old(repo.db), user, manga).Some? ==>
                FindRow(repo.db, user, manga) ==
                Some(FindRow(old(repo.db), user, manga).value.(rating := rating, updatedAt := now))
    {
      if rating < 0 || rating > 10 {
        return BAD_REQUEST;
      }
      repo.UpdateRating(user, manga, rating, now);
      return OK;
    }
  }

  class GrpcServer {
    const repo: MangaRepository
    const progress: Topic<Update>

    constructor (repo: MangaRepository, progress: Topic<Update>)
      ensures this.repo == repo && this.progress == progress
    {
      this.repo, this.progress := repo, progress;
    }

    /** The second producer: no chapter check at all, but the same row-then-publish order. */
    method UpdateProgress(user: string, manga: string, chapter: int, now: int, stamp: int) returns (success: bool)
      requires repo.Valid() && progress.Valid()
      modifies repo, progress.subs`buf
      ensures repo.Valid() && progress.Valid()
      ensures success <==> user != "" && manga != "" && FindRow(old(repo.db), user, manga).Some?
      ensures success ==>
                repo.db == Apply(old(repo.db), Progress(user, manga, chapter), now) &&
                OnlyRow(old(repo.db), repo.db, user, manga) &&
                FindRow(repo.db, user, manga) ==
                Some(FindRow(old(repo.db), user, manga).value.(chapter := chapter, updatedAt := now)) &&
                forall ch <- progress.subs :: ch.buf == Pushed(old(ch.buf), 64, Update(user, manga, chapter, stamp))
      ensures !success ==> repo.db == old(repo.db) && forall ch <- progress.subs :: ch.buf == old(ch.buf)
    {
      if user == "" || manga == "" {
        return false;
      }
      success := repo.UpdateProgress(user, manga, chapter, now);
      if success {
        progress.Publish(Update(user, manga, chapter, stamp));
      }
    }

    /** The results of the repository's search, converted one by one; the count is their number. */
    method SearchManga(query: string, genre: string, status: string, limit: int, offset: int)
      returns (out: seq<Manga>, count: nat)
      ensures count == |out|
      ensures out == FromRows(Page(SortByTitle(Select(repo.db.manga, query, genre, status)), ClampLimit(limit), offset))
    {
      var results := repo.Search(query, genre, status, limit, offset);
      count := |results|;
      out := [];
      var i := 0;
      while i < |results|
        invariant 0 <= i <= |results| && out == results[..i]
      {
        out := out + [results[i]];
        i := i + 1;
      }
    }
  }
}
