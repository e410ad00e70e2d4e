/** What the fields of one user_progress row mean in terms of the calls made so far. */
module RowHistory {
  import opened Channels
  import opened Store
  import opened Library

  predicate On(op: Op, u: string, m: string) {
    (op.Add? || op.Progress? || op.Rate? || op.Remove?) && op.user == u && op.manga == m
  }

  datatype Kind = Adds | Writes | Rates | Removes

  predicate Is(call: Call, kind: Kind, u: string, m: string) {
    On(call.op, u, m) &&
    match kind
    case Adds => call.op.Add?
    case Writes => call.op.Add? || call.op.Progress?
    case Rates => call.op.Rate?
    case Removes => call.op.Remove?
  }

  /** The position of the latest operation of the wanted kind on the pair, or -1. */
  function Latest(calls: seq<Call>, kind: Kind, u: string, m: string): (i: int)
    ensures -1 <= i < |calls|
    ensures i >= 0 ==> Is(calls[i], kind, u, m)
    ensures forall j | i < j < |calls| :: !Is(calls[j], kind, u, m)
  {
    if calls == [] then -1
    else if Is(calls[|calls| - 1], kind, u, m) then |calls| - 1
    else Latest(calls[..|calls| - 1], kind, u, m)
  }

  /** An Add at position `i` that created or kept the row: both foreign keys existed by then. */
  predicate AddTakes(calls: seq<Call>, i: nat, u: string, m: string)
    requires i < |calls|
  {
    Is(calls[i], Adds, u, m) && KeysExist(After(calls[..i]), u, m)
  }

  /** `i` is where the present row of the pair was created: an Add that took effect, no removal since, and no
      earlier Add that took effect after the last removal. */
  ghost predicate CreatedAt(calls: seq<Call>, i: nat, u: string, m: string) {
    && i < |calls| && AddTakes(calls, i, u, m)
    && Latest(calls, Removes, u, m) < i
    && forall j | Latest(calls, Removes, u, m) < j < i :: !AddTakes(calls, j, u, m)
  }

  /** The row the calls so far must have left, for a pair whose present row was created at `i`. */
  function Expected(calls: seq<Call>, i: nat, u: string, m: string): ProgressRow
    requires i < |calls| && Is(calls[i], Adds, u, m)
  {
    var write, add, rate := Latest(calls, Writes, u, m), Latest(calls, Adds, u, m), Latest(calls, Rates, u, m);
    ProgressRow(u, m, calls[write].op.chapter, StatusOrDefault(calls[add].op.status),
                if rate > i then calls[rate].op.rating else 0,
                calls[if rate > write then rate else write].at)
  }

  /** The pair has a row exactly if an Add took effect with no removal since; and then chapter and status are those
      of the latest write, the rating is that of the latest rating since the row was created (re-adding keeps it)
      or 0, and the time is that of the latest touch. */
  ghost predicate Explained(calls: seq<Call>, u: string, m: string) {
    match FindRow(After(calls), u, m)
    case None => forall i :: !CreatedAt(calls, i, u, m)
    case Some(row) => exists i: nat :: CreatedAt(calls, i, u, m) && row == Expected(calls, i, u, m)
  }

  // ----- One step -----

  lemma RowAtIsFirst(rows: seq<ProgressRow>, i: nat, u: string, m: string)
    requires i <= |rows| && (i < |rows| ==> IsRow(rows[i], u, m))
    requires forall j | 0 <= j < i :: !IsRow(rows[j], u, m)
    ensures RowAt(rows, u, m) == i
  {
  }

  /** Taking out a row of another key moves a row up by one place at most. */
  lemma RowAtWithout(rows: seq<ProgressRow>, i: nat, rest: seq<ProgressRow>, u: string, m: string)
    requires i < |rows| && !IsRow(rows[i], u, m) && |rest| == |rows| - 1
    requires forall j | 0 <= j < |rest| :: rest[j] == rows[if j < i then j else j + 1]
    ensures var k := RowAt(rows, u, m);
            RowAt(rest, u, m) == (if i < k then k - 1 else k) &&
            (k < |rows| <==> RowAt(rest, u, m) < |rest|) && (k < |rows| ==> rest[RowAt(rest, u, m)] == rows[k])
  {
    var k := RowAt(rows, u, m);
    var first := if i < k then k - 1 else k;
    forall j | 0 <= j < first
      ensures !IsRow(rest[j], u, m)
    {
      assert rest[j] == rows[if j < i then j else j + 1];
    }
    if k < |rows| {
      assert rest[first] == rows[if first < i then first else first + 1] == rows[k];
    }
    RowAtIsFirst(rest, first, u, m);
  }

  lemma OtherRemovalLeavesRow(db: DB, v: string, n: string, u: string, m: string)
    requires !(v == u && n == m)
    ensures FindRow(DeleteRow(db, v, n), u, m) == FindRow(db, u, m)
  {
    var i := RowAt(db.progress, v, n);
    if i < |db.progress| {
      var rest := db.progress[..i] + db.progress[i + 1..];
      CutAt(db.progress, i, rest);
      RowAtWithout(db.progress, i, rest, u, m);
    }
  }

  lemma CutAt(rows: seq<ProgressRow>, i: nat, rest: seq<ProgressRow>)
    requires i < |rows| && rest == rows[..i] + rows[i + 1..]
    ensures |rest| == |rows| - 1 && forall j | 0 <= j < |rest| :: rest[j] == rows[if j < i then j else j + 1]
  {
  }

  lemma OtherChangeLeavesRow(db: DB, op: Op, now: int, u: string, m: string)
    requires !On(op, u, m) && !op.Remove?
    ensures FindRow(Apply(db, op, now), u, m) == FindRow(db, u, m)
  {
    if op.Add? || op.Progress? || op.Rate? {
      var i := RowAt(db.progress, op.user, op.manga);
      if i < |db.progress| {
        OtherUpdateLeavesRow(db.progress, i, Apply(db, op, now).progress[i], u, m);
      } else if op.Add? && KeysExist(db, op.user, op.manga) {
        var r := ProgressRow(op.user, op.manga, op.chapter, StatusOrDefault(op.status), 0, now);
        OtherInsertLeavesRow(db.progress, r, u, m);
      }
    }
  }

  lemma OtherUpdateLeavesRow(rows: seq<ProgressRow>, i: nat, r: ProgressRow, u: string, m: string)
    requires i < |rows| && !IsRow(rows[i], u, m) && !IsRow(r, u, m)
    ensures RowAt(rows[i := r], u, m) == RowAt(rows, u, m)
  {
    RowAtIsFirst(rows[i := r], RowAt(rows, u, m), u, m);
  }

  lemma OtherInsertLeavesRow(rows: seq<ProgressRow>, r: ProgressRow, u: string, m: string)
    requires !IsRow(r, u, m)
    ensures var k := RowAt(rows, u, m); RowAt(rows + [r], u, m) == if k == |rows| then |rows| + 1 else k
  {
    var k := RowAt(rows, u, m);
    RowAtIsFirst(rows + [r], if k == |rows| then |rows| + 1 else k, u, m);
  }

  /** Operations on other pairs leave the row alone. */
  lemma OthersLeaveRow(db: DB, op: Op, now: int, u: string, m: string)
    requires !On(op, u, m)
    ensures FindRow(Apply(db, op, now), u, m) == FindRow(db, u, m)
  {
    if op.Remove? {
      OtherRemovalLeavesRow(db, op.user, op.manga, u, m);
    } else {
      OtherChangeLeavesRow(db, op, now, u, m);
    }
  }

  /** How a touch changes a row. */
  function TouchOf(r: ProgressRow, op: Op, now: int): ProgressRow
    requires op.Add? || op.Progress? || op.Rate?
  {
    if op.Add? then r.(status := StatusOrDefault(op.status), chapter := op.chapter, updatedAt := now)
    else if op.Progress? then r.(chapter := op.chapter, updatedAt := now)
    else r.(rating := op.rating, updatedAt := now)
  }

  /** What an operation on the pair does to its row. */
  function Touched(db: DB, op: Op, now: int, u: string, m: string): Option<ProgressRow>
    requires On(op, u, m)
  {
    match FindRow(db, u, m)
    case None =>
      if op.Add? && KeysExist(db, u, m) then Some(ProgressRow(u, m, op.chapter, StatusOrDefault(op.status), 0, now))
      else None
    case Some(r) => if op.Remove? then None else Some(TouchOf(r, op, now))
  }

  lemma OwnTouchesRow(db: DB, op: Op, now: int, u: string, m: string)
    requires UniqueKeys(db.progress) && On(op, u, m)
    ensures FindRow(Apply(db, op, now), u, m) == Touched(db, op, now, u, m)
  {
    var rows, rows' := db.progress, Apply(db, op, now).progress;
    var i := RowAt(rows, u, m);
    if op.Remove? {
      if i < |rows| {
        WithoutKeepsOthers(rows, u, m);
        assert rows' == Without(rows, u, m);
        assert forall j | 0 <= j < |rows'| :: rows'[j] in rows';
        RowAtIsFirst(rows', |rows'|, u, m);
      }
    } else if i < |rows| {
      RowAtIsFirst(rows', i, u, m);
    } else if op.Add? && KeysExist(db, u, m) {
      RowAtIsFirst(rows', i, u, m);
    }
  }

  // ----- Histories -----

  lemma LatestSteps(before: seq<Call>, call: Call, kind: Kind, u: string, m: string)
    ensures Latest(before + [call], kind, u, m) == if Is(call, kind, u, m) then |before| else Latest(before, kind, u, m)
  {
    assert (before + [call])[..|before|] == before;
  }

  lemma TakesSteps(before: seq<Call>, call: Call, i: nat, u: string, m: string)
    requires i < |before|
    ensures AddTakes(before + [call], i, u, m) == AddTakes(before, i, u, m)
  {
    assert (before + [call])[..i] == before[..i];
  }

  /** Unless the operation is a removal, what created the row before still counts, and only an Add can be new. */
  lemma CreationSteps(before: seq<Call>, call: Call, i: nat, u: string, m: string)
    requires !Is(call, Removes, u, m)
    ensures i < |before| ==> (CreatedAt(before + [call], i, u, m) <==> CreatedAt(before, i, u, m))
    ensures CreatedAt(before + [call], i, u, m) ==>
              i < |before| || (i == |before| && Is(call, Adds, u, m) && KeysExist(After(before), u, m))
  {
    var calls := before + [call];
    LatestSteps(before, call, Removes, u, m);
    forall j: nat | j < |before|
      ensures AddTakes(calls, j, u, m) == AddTakes(before, j, u, m)
    {
      TakesSteps(before, call, j, u, m);
    }
    assert calls[..|before|] == before;
  }

  lemma {:induction false} FirstTaken(calls: seq<Call>, j: nat, u: string, m: string)
    requires Latest(calls, Removes, u, m) < j < |calls| && AddTakes(calls, j, u, m)
    ensures exists i: nat :: CreatedAt(calls, i, u, m)
    decreases j
  {
    if k: nat :| Latest(calls, Removes, u, m) < k < j && AddTakes(calls, k, u, m) {
      FirstTaken(calls, k, u, m);
    } else {
      assert CreatedAt(calls, j, u, m);
    }
  }

  lemma NothingTaken(calls: seq<Call>, j: nat, u: string, m: string)
    requires Latest(calls, Removes, u, m) < j < |calls| && forall i :: !CreatedAt(calls, i, u, m)
    ensures !AddTakes(calls, j, u, m)
  {
    if AddTakes(calls, j, u, m) {
      FirstTaken(calls, j, u, m);
    }
  }

  /** An Add that takes effect after nothing else did since the last removal is where the row is created. */
  lemma AddCreates(before: seq<Call>, call: Call, u: string, m: string)
    requires Is(call, Adds, u, m) && KeysExist(After(before), u, m)
    requires forall j: nat | Latest(before, Removes, u, m) < j < |before| :: !AddTakes(before, j, u, m)
    ensures CreatedAt(before + [call], |before|, u, m)
  {
    var calls, n := before + [call], |before|;
    assert calls[..n] == before;
    LatestSteps(before, call, Removes, u, m);
    forall j: nat | Latest(before, Removes, u, m) < j < n
      ensures !AddTakes(calls, j, u, m)
    {
      TakesSteps(before, call, j, u, m);
    }
  }

  lemma AfterSteps(before: seq<Call>, call: Call)
    ensures After(before + [call]) == Apply(After(before), call.op, call.at)
  {
    assert (before + [call])[..|before|] == before;
  }

  lemma LatestsStep(before: seq<Call>, call: Call, u: string, m: string)
    ensures forall kind: Kind ::
              Latest(before + [call], kind, u, m) ==
              if Is(call, kind, u, m) then |before| else Latest(before, kind, u, m)
  {
    forall kind: Kind {
      LatestSteps(before, call, kind, u, m);
    }
  }

  lemma OtherKeepsExplained(before: seq<Call>, call: Call, u: string, m: string)
    requires Explained(before, u, m) && UniqueKeys(After(before).progress) && !On(call.op, u, m)
    ensures Explained(before + [call], u, m)
  {
    AfterSteps(before, call);
    OthersLeaveRow(After(before), call.op, call.at, u, m);
    LatestsStep(before, call, u, m);
    forall i: nat {
      CreationSteps(before, call, i, u, m);
    }
    var row := FindRow(After(before), u, m);
    if row.Some? {
      var i: nat :| CreatedAt(before, i, u, m) && row.value == Expected(before, i, u, m);
      assert CreatedAt(before + [call], i, u, m) && row.value == Expected(before + [call], i, u, m);
    }
  }

  lemma RemovalIsExplained(before: seq<Call>, call: Call, u: string, m: string)
    requires UniqueKeys(After(before).progress) && Is(call, Removes, u, m)
    ensures Explained(before + [call], u, m)
  {
    AfterSteps(before, call);
    OwnTouchesRow(After(before), call.op, call.at, u, m);
    LatestSteps(before, call, Removes, u, m);
  }

  /** A call that creates nothing leaves a missing row missing. */
  lemma StaysMissing(before: seq<Call>, call: Call, u: string, m: string)
    requires !Is(call, Removes, u, m) && !(Is(call, Adds, u, m) && KeysExist(After(before), u, m))
    requires forall i :: !CreatedAt(before, i, u, m)
    ensures forall i :: !CreatedAt(before + [call], i, u, m)
  {
    forall i: nat
      ensures !CreatedAt(before + [call], i, u, m)
    {
      CreationSteps(before, call, i, u, m);
    }
  }

  /** The row an Add creates is the one expected. */
  lemma FirstExpected(before: seq<Call>, call: Call, u: string, m: string)
    requires Is(call, Adds, u, m)
    ensures Expected(before + [call], |before|, u, m) ==
            ProgressRow(u, m, call.op.chapter, StatusOrDefault(call.op.status), 0, call.at)
  {
    LatestSteps(before, call, Writes, u, m);
    LatestSteps(before, call, Adds, u, m);
    LatestSteps(before, call, Rates, u, m);
  }

  lemma AddIsExplained(before: seq<Call>, call: Call, u: string, m: string)
    requires (forall i :: !CreatedAt(before, i, u, m)) && UniqueKeys(After(before).progress)
    requires Is(call, Adds, u, m) && KeysExist(After(before), u, m) && FindRow(After(before), u, m) == None
    ensures Explained(before + [call], u, m)
  {
    AfterSteps(before, call);
    OwnTouchesRow(After(before), call.op, call.at, u, m);
    forall j: nat | Latest(before, Removes, u, m) < j < |before| {
      NothingTaken(before, j, u, m);
    }
    AddCreates(before, call, u, m);
    FirstExpected(before, call, u, m);
    assert CreatedAt(before + [call], |before|, u, m);
  }

  lemma MissingIsExplained(before: seq<Call>, call: Call, u: string, m: string)
    requires Explained(before, u, m) && UniqueKeys(After(before).progress)
    requires On(call.op, u, m) && !call.op.Remove? && FindRow(After(before), u, m) == None
    ensures Explained(before + [call], u, m)
  {
    if call.op.Add? && KeysExist(After(before), u, m) {
      AddIsExplained(before, call, u, m);
    } else {
      AfterSteps(before, call);
      OwnTouchesRow(After(before), call.op, call.at, u, m);
      StaysMissing(before, call, u, m);
    }
  }

  /** A touch changes the expected row as it changes the stored one. */
  lemma ExpectedSteps(before: seq<Call>, call: Call, i: nat, u: string, m: string)
    requires On(call.op, u, m) && !call.op.Remove? && i < |before| && Is(before[i], Adds, u, m)
    ensures (before + [call])[i] == before[i]
    ensures Expected(before + [call], i, u, m) == TouchOf(Expected(before, i, u, m), call.op, call.at)
  {
    LatestsStep(before, call, u, m);
  }

  lemma TouchIsExplained(before: seq<Call>, call: Call, u: string, m: string)
    requires Explained(before, u, m) && UniqueKeys(After(before).progress)
    requires On(call.op, u, m) && !call.op.Remove? && FindRow(After(before), u, m).Some?
    ensures Explained(before + [call], u, m)
  {
    AfterSteps(before, call);
    OwnTouchesRow(After(before), call.op, call.at, u, m);
    var i: nat :| CreatedAt(before, i, u, m) && FindRow(After(before), u, m).value == Expected(before, i, u, m);
    CreationSteps(before, call, i, u, m);
    ExpectedSteps(before, call, i, u, m);
    assert CreatedAt(before + [call], i, u, m);
    assert FindRow(After(before + [call]), u, m).value == Expected(before + [call], i, u, m);
  }

  /** Row fields follow the calls so far, for every sequence of calls, every pair and any clock. */
  lemma {:induction false} RowsAreExplained(calls: seq<Call>, u: string, m: string)
    ensures Explained(calls, u, m)
  {
    if calls != [] {
      var before, call := calls[..|calls| - 1], calls[|calls| - 1];
      assert before + [call] == calls;
      RowsAreExplained(before, u, m);
      KeysStayUnique(before);
      if !On(call.op, u, m) {
        OtherKeepsExplained(before, call, u, m);
      } else if call.op.Remove? {
        RemovalIsExplained(before, call, u, m);
      } else if FindRow(After(before), u, m) == None {
        MissingIsExplained(before, call, u, m);
      } else {
        TouchIsExplained(before, call, u, m);
      }
    }
  }

  /** A progress update is accepted exactly when the row exists, and then it is what the row holds. */
  lemma ProgressNeedsRow(calls: seq<Call>, u: string, m: string, chapter: int, now: int)
    ensures SetChapter(After(calls), u, m, chapter, now).1 <==> exists i: nat :: CreatedAt(calls, i, u, m)
    ensures SetChapter(After(calls), u, m, chapter, now).1 ==>
              var row := FindRow(After(calls + [Call(Progress(u, m, chapter), now)]), u, m);
              row.Some? && row.value.chapter == chapter
  {
    RowsAreExplained(calls, u, m);
    AfterSteps(calls, Call(Progress(u, m, chapter), now));
    KeysStayUnique(calls);
    OwnTouchesRow(After(calls), Progress(u, m, chapter), now, u, m);
  }

  /** Ratings that pass the HTTP handler's check. */
  predicate RatingsChecked(calls: seq<Call>) {
    forall i | 0 <= i < |calls| && calls[i].op.Rate? :: 0 <= calls[i].op.rating <= 10
  }

  lemma RatingsStayInRange(calls: seq<Call>, u: string, m: string)
    requires RatingsChecked(calls) && FindRow(After(calls), u, m).Some?
    ensures 0 <= FindRow(After(calls), u, m).value.rating <= 10
  {
    RowsAreExplained(calls, u, m);
  }
}
