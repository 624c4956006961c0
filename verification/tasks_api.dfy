/**
 * The task endpoints (app/api/tasks.py): completing a task and giving feedback append one
 * record each to the history ledger; today's tasks are listed grouped by their group; the
 * history endpoint returns a date window of the ledger. The request date and time are
 * parameters (`today`, `now`), and the ledger is the `task_history` table.
 */
module TasksApi {
  import opened Wrappers
  import Json
  import Sorting
  import opened Models
  import Selector

  // ---------------------------------------------------------------------------
  // Payloads

  /** A request body of `/done` or `/feedback` as sent: the difficulty may be missing. */
  datatype Request = Request(taskId: Option<int>, name: string, group: string, difficulty: Option<int>)

  const TooLow: string := "difficulty: ensure this value is greater than or equal to 1"
  const TooHigh: string := "difficulty: ensure this value is less than or equal to 5"
  const Missing: string := "difficulty: field required"

  /** The `ge=1, le=5` bound of both payloads on a given difficulty. */
  function CheckDifficulty(d: int): (r: Result<int>)
    ensures r.Ok? <==> 1 <= d <= 5
    ensures r.Ok? ==> r.value == d
    ensures d < 1 ==> r == Err(ValidationError(TooLow))
    ensures d > 5 ==> r == Err(ValidationError(TooHigh))
  {
    if d < 1 then Err(ValidationError(TooLow))
    else if d > 5 then Err(ValidationError(TooHigh))
    else Ok(d)
  }

  /** `DonePayload`: the difficulty is optional, and bounded when given. */
  function DoneDifficulty(req: Request): (r: Result<Option<int>>)
    ensures req.difficulty.None? ==> r == Ok(None)
    ensures req.difficulty.Some? ==> (r.Ok? <==> 1 <= req.difficulty.value <= 5)
    ensures r.Ok? ==> r.value == req.difficulty
  {
    match req.difficulty
    case None => Ok(None)
    case Some(d) =>
      (match CheckDifficulty(d)
       case Err(e) => Err(e)
       case Ok(v) => Ok(Some(v)))
  }

  /** `FeedbackPayload`: the difficulty is required and bounded. */
  function FeedbackDifficulty(req: Request): (r: Result<int>)
    ensures r.Ok? <==> req.difficulty.Some? && 1 <= req.difficulty.value <= 5
    ensures r.Ok? ==> Some(r.value) == req.difficulty
    ensures req.difficulty.None? ==> r == Err(ValidationError(Missing))
  {
    match req.difficulty
    case None => Err(ValidationError(Missing))
    case Some(d) => CheckDifficulty(d)
  }

  /** The `task_id` `/done` answers with: the payload's when truthy, else None (the lookup runs only for a truthy id). */
  function AnsweredTaskId(taskId: Option<int>): (r: Option<int>)
    ensures r.Some? <==> taskId.Some? && taskId.value != 0
    ensures r.Some? ==> r == taskId
  {
    if taskId.Some? && taskId.value != 0 then taskId else None
  }

  // ---------------------------------------------------------------------------
  // The ledger

  /** The `task_history` table: rows are only ever appended. */
  class HistoryLedger {
    var records: seq<HistoryRecord>

    constructor (records: seq<HistoryRecord>)
      ensures this.records == records
    {
      this.records := records;
    }

    /** `mark_done`: one completed record for today, or a rejected request and no change. */
    method MarkDone(req: Request, today: int, now: int) returns (r: Result<Option<int>>)
      modifies this
      ensures DoneDifficulty(req).Err? ==> r == Err(DoneDifficulty(req).error) && records == old(records)
      ensures DoneDifficulty(req).Ok? ==>
        && records == old(records) + [HistoryRecord(today, now, req.name, req.group, true, req.difficulty)]
        && r == Ok(AnsweredTaskId(req.taskId))
    {
      var difficulty := DoneDifficulty(req);
      if difficulty.Err? {
        return Err(difficulty.error);
      }
      records := records + [HistoryRecord(today, now, req.name, req.group, true, difficulty.value)];
      r := Ok(AnsweredTaskId(req.taskId));
    }

    /** `feedback`: one not-completed record with the reported difficulty, or a rejected request and no change. */
    method Feedback(req: Request, today: int, now: int) returns (r: Result<string>)
      modifies this
      ensures FeedbackDifficulty(req).Err? ==> r == Err(FeedbackDifficulty(req).error) && records == old(records)
      ensures FeedbackDifficulty(req).Ok? ==>
        && records == old(records) + [HistoryRecord(today, now, req.name, req.group, false, req.difficulty)]
        && r == Ok("recorded")
    {
      var difficulty := FeedbackDifficulty(req);
      if difficulty.Err? {
        return Err(difficulty.error);
      }
      records := records + [HistoryRecord(today, now, req.name, req.group, false, Some(difficulty.value))];
      r := Ok("recorded");
    }
  }

  /** The records of one key, newest first, once a record newer than all others is appended. */
  lemma {:induction false} AppendNewest(ledger: seq<HistoryRecord>, rec: HistoryRecord)
    requires forall r :: r in ledger ==> r.timestamp < rec.timestamp
    ensures Selector.Bucket(Selector.NewestFirst(ledger + [rec]), Selector.RecordKey(rec))
         == [rec] + Selector.Bucket(Selector.NewestFirst(ledger), Selector.RecordKey(rec))
  {
    var desc := Sorting.DescBy(Selector.Timestamp);
    forall y | y in ledger ensures desc(rec, y) {
      assert Selector.Timestamp(rec) >= Selector.Timestamp(y);
    }
    Sorting.SortAppendFront(ledger, rec, desc);
    Sorting.WherePrepend(rec, Sorting.Sort(ledger, desc), Selector.KeyIs(Selector.RecordKey(rec)));
  }

  /** Feedback recorded after everything else resets the item's streak to 0. */
  lemma FeedbackResetsStreak(ledger: seq<HistoryRecord>, rec: HistoryRecord)
    requires !rec.completed
    requires forall r :: r in ledger ==> r.timestamp < rec.timestamp
    ensures Selector.Streak(Selector.Bucket(Selector.NewestFirst(ledger + [rec]), Selector.RecordKey(rec))) == 0
  {
    AppendNewest(ledger, rec);
  }

  /** A completion recorded after everything else grows the item's streak by one, and a completion today makes it seen 1 day ago. */
  lemma DoneExtendsStreak(ledger: seq<HistoryRecord>, rec: HistoryRecord, today: int)
    requires rec.completed
    requires forall r :: r in ledger ==> r.timestamp < rec.timestamp
    ensures var key := Selector.RecordKey(rec);
      Selector.Streak(Selector.Bucket(Selector.NewestFirst(ledger + [rec]), key))
        == 1 + Selector.Streak(Selector.Bucket(Selector.NewestFirst(ledger), key))
    ensures rec.date == today ==>
      Selector.LastSeenDays(Selector.Bucket(Selector.NewestFirst(ledger + [rec]), Selector.RecordKey(rec)), today) == 1
  {
    var key := Selector.RecordKey(rec);
    AppendNewest(ledger, rec);
    var b := Selector.Bucket(Selector.NewestFirst(ledger), key);
    assert ([rec] + b)[1..] == b;
  }

  // ---------------------------------------------------------------------------
  // Today's tasks

  /** One task as `/today` lists it. */
  datatype TodayItem = TodayItem(
    id: int,
    name: Json.Value,
    url: Json.Value,
    reason: Json.Value,
    metadata: Json.Value,
    action: Json.Value,
    difficultyEstimate: Json.Value)

  /** The listing of one row; `metadata` defaults to {}. */
  function ItemOf(row: TodayRow): (item: TodayItem)
    ensures item.id == row.id && item.name == row.name && item.url == row.url
    ensures item.reason == Json.Get(row.extra, "reason")
    ensures Json.Truthy(Json.Get(row.extra, "metadata")) ==> item.metadata == Json.Get(row.extra, "metadata")
    ensures !Json.Truthy(Json.Get(row.extra, "metadata")) ==> item.metadata == Json.EmptyObj
    ensures item.action == Json.Get(row.extra, "action")
    ensures item.difficultyEstimate == Json.Get(row.extra, "difficulty_estimate")
  {
    TodayItem(row.id, row.name, row.url,
      Json.Get(row.extra, "reason"),
      Json.Or(Json.Get(row.extra, "metadata"), Json.EmptyObj),
      Json.Get(row.extra, "action"),
      Json.Get(row.extra, "difficulty_estimate"))
  }

  /** The `grouped` dict: (group, items) pairs in the order each group first appears. */
  type Grouping = seq<(Json.Value, seq<TodayItem>)>

  predicate DistinctGroups(g: Grouping) {
    forall i, j :: 0 <= i < j < |g| ==> g[i].0 != g[j].0
  }

  /** `grouped[key]`, or [] when absent. */
  function ItemsOf(g: Grouping, key: Json.Value): seq<TodayItem> {
    if g == [] then []
    else if g[0].0 == key then g[0].1
    else ItemsOf(g[1..], key)
  }

  /** `grouped[key].append(item)` on a defaultdict: a new key goes last, known keys keep their place. */
  function AddTo(g: Grouping, key: Json.Value, item: TodayItem): (r: Grouping)
    ensures |r| == |g| || (|r| == |g| + 1 && r[|g|].0 == key && forall i :: 0 <= i < |g| ==> g[i].0 != key)
    ensures forall i :: 0 <= i < |g| ==> r[i].0 == g[i].0
  {
    if g == [] then [(key, [item])]
    else if g[0].0 == key then [(key, g[0].1 + [item])] + g[1..]
    else [g[0]] + AddTo(g[1..], key, item)
  }

  /** Appending touches one list: the key's list grows by the item, every other list stays. */
  lemma {:induction false} AddToItems(g: Grouping, key: Json.Value, item: TodayItem)
    ensures ItemsOf(AddTo(g, key, item), key) == ItemsOf(g, key) + [item]
    ensures forall k :: k != key ==> ItemsOf(AddTo(g, key, item), k) == ItemsOf(g, k)
  {
    if g != [] && g[0].0 != key {
      AddToItems(g[1..], key, item);
      assert AddTo(g, key, item)[1..] == AddTo(g[1..], key, item);
    }
  }

  /** Appending never creates a second list for a group. */
  lemma AddToDistinct(g: Grouping, key: Json.Value, item: TodayItem)
    requires DistinctGroups(g)
    ensures DistinctGroups(AddTo(g, key, item))
  {
  }

  /** The grouping of `rows`, row after row. */
  function Grouped(rows: seq<TodayRow>): (g: Grouping)
    ensures DistinctGroups(g)
  {
    if rows == [] then []
    else
      var last := rows[|rows| - 1];
      var front := Grouped(rows[..|rows| - 1]);
      AddToDistinct(front, last.group, ItemOf(last));
      AddTo(front, last.group, ItemOf(last))
  }

  function RowGroupIs(key: Json.Value): TodayRow -> bool {
    (row: TodayRow) => row.group == key
  }

  function Items(rows: seq<TodayRow>): (items: seq<TodayItem>)
    ensures |items| == |rows|
    ensures forall k :: 0 <= k < |rows| ==> items[k] == ItemOf(rows[k])
  {
    seq(|rows|, k requires 0 <= k < |rows| => ItemOf(rows[k]))
  }

  /** Each group's list holds exactly the listings of that group's rows, in row order. */
  lemma {:induction false} GroupedBucket(rows: seq<TodayRow>, key: Json.Value)
    ensures ItemsOf(Grouped(rows), key) == Items(Sorting.Where(rows, RowGroupIs(key)))
  {
    if rows != [] {
      var front := rows[..|rows| - 1];
      var last := rows[|rows| - 1];
      GroupedBucket(front, key);
      AddToItems(Grouped(front), last.group, ItemOf(last));
      var w := Sorting.Where(front, RowGroupIs(key));
      if last.group == key {
        assert Items(w + [last]) == Items(w) + [ItemOf(last)];
      } else {
        assert w + [] == w;
      }
    }
  }

  function DateIs(day: int): TodayRow -> bool {
    (row: TodayRow) => row.date == day
  }

  /** `get_today`: today's rows, grouped. */
  method GetToday(table: seq<TodayRow>, today: int) returns (grouped: Grouping)
    ensures grouped == Grouped(Sorting.Where(table, DateIs(today)))
    ensures forall key :: ItemsOf(grouped, key) == Items(Sorting.Where(Sorting.Where(table, DateIs(today)), RowGroupIs(key)))
  {
    var tasks := Sorting.Where(table, DateIs(today));
    grouped := GroupRows(tasks);
    GroupedBuckets(tasks);
  }

  /** The loop of `get_today` over today's rows. */
  method GroupRows(tasks: seq<TodayRow>) returns (grouped: Grouping)
    ensures grouped == Grouped(tasks)
  {
    grouped := [];
    for i := 0 to |tasks|
      invariant grouped == Grouped(tasks[..i])
    {
      assert tasks[..i + 1][..i] == tasks[..i];
      grouped := AddTo(grouped, tasks[i].group, ItemOf(tasks[i]));
    }
    assert tasks[..|tasks|] == tasks;
  }

  lemma GroupedBuckets(rows: seq<TodayRow>)
    ensures forall key :: ItemsOf(Grouped(rows), key) == Items(Sorting.Where(rows, RowGroupIs(key)))
  {
    forall key ensures ItemsOf(Grouped(rows), key) == Items(Sorting.Where(rows, RowGroupIs(key))) {
      GroupedBucket(rows, key);
    }
  }

  // ---------------------------------------------------------------------------
  // History window

  /** One record as `/history` lists it. */
  datatype HistoryView = HistoryView(date: int, name: string, group: string, completed: bool, difficulty: Option<int>)

  function View(r: HistoryRecord): HistoryView {
    HistoryView(r.date, r.name, r.group, r.completed, r.difficulty)
  }

  function RecordDate(r: HistoryRecord): int {
    r.date
  }

  function Since(cutoff: int): HistoryRecord -> bool {
    (r: HistoryRecord) => r.date >= cutoff
  }

  function Views(rows: seq<HistoryRecord>): (views: seq<HistoryView>)
    ensures |views| == |rows|
    ensures forall k :: 0 <= k < |rows| ==> views[k] == View(rows[k])
  {
    seq(|rows|, k requires 0 <= k < |rows| => View(rows[k]))
  }

  /** `history`: the records of the last `days` days, newest date first, as five fields each. */
  function History(ledger: seq<HistoryRecord>, today: int, days: int): (views: seq<HistoryView>)
    ensures |views| == |Sorting.Where(ledger, Since(today - days))|
    ensures forall k :: 0 <= k < |views| ==> views[k].date >= today - days
    ensures forall i, j :: 0 <= i < j < |views| ==> views[i].date >= views[j].date
    ensures exists rows :: multiset(rows) == multiset(Sorting.Where(ledger, Since(today - days))) && views == Views(rows)
  {
    var rows := Sorting.Query(ledger, Since(today - days), RecordDate);
    assert |rows| == |Sorting.Where(ledger, Since(today - days))| by {
      assert |multiset(rows)| == |multiset(Sorting.Where(ledger, Since(today - days)))|;
    }
    assert forall k :: 0 <= k < |rows| ==> rows[k] in rows;
    Views(rows)
  }

  /** Every record of the window is listed, and every listed entry is such a record. */
  lemma HistoryWindow(ledger: seq<HistoryRecord>, today: int, days: int)
    ensures forall r :: r in ledger && r.date >= today - days ==> View(r) in History(ledger, today, days)
    ensures forall v :: v in History(ledger, today, days) ==> exists r :: r in ledger && r.date >= today - days && v == View(r)
  {
    var rows := Sorting.Query(ledger, Since(today - days), RecordDate);
    var views := History(ledger, today, days);
    assert views == Views(rows);
    forall r | r in ledger && r.date >= today - days ensures View(r) in views {
      assert r in rows;
      var k :| 0 <= k < |rows| && rows[k] == r;
      assert views[k] == View(r);
    }
    forall v | v in views ensures exists r :: r in ledger && r.date >= today - days && v == View(r) {
      var k :| 0 <= k < |views| && views[k] == v;
      assert rows[k] in rows;
    }
  }
}
