/**
 * Daily regeneration (app/core/scheduler.py): load the catalog, take the recent history
 * windows, ask the selector for a plan, then replace today's rows of `today_tasks` by the
 * plan and commit. The database session is the `TaskTable` object: nothing it holds changes
 * until the commit at the end of a run.
 */
module Scheduler {
  import opened Wrappers
  import Json
  import Sorting
  import opened Models
  import Loader
  import Selector
  import AiSelector

  // ---------------------------------------------------------------------------
  // Serialising rows for the prompt

  /** A row `_serialize_history` accepts: a ledger record or a task row. */
  datatype SourceRow = HistoryRow(record: HistoryRecord) | TaskRow(row: TodayRow)

  /**
   * One serialised row: date, name and group always; `completed`, `difficulty` and `url`
   * present (Some) only when the row has that attribute. Dates stay day numbers.
   */
  datatype Snapshot = Snapshot(
    date: int,
    name: Json.Value,
    group: Json.Value,
    completed: Option<bool>,
    difficulty: Option<Option<int>>,
    url: Option<Json.Value>)

  function Snap(r: SourceRow): (s: Snapshot)
    ensures s.completed.Some? <==> r.HistoryRow?
    ensures s.difficulty.Some? <==> r.HistoryRow?
    ensures s.url.Some? <==> r.TaskRow?
    ensures r.HistoryRow? ==> s.date == r.record.date && s.name == Json.Str(r.record.name)
                              && s.group == Json.Str(r.record.group)
                              && s.completed == Some(r.record.completed) && s.difficulty == Some(r.record.difficulty)
    ensures r.TaskRow? ==> s.date == r.row.date && s.name == r.row.name && s.group == r.row.group
                           && s.url == Some(r.row.url)
  {
    match r
    case HistoryRow(h) =>
      Snapshot(h.date, Json.Str(h.name), Json.Str(h.group), Some(h.completed), Some(h.difficulty), None)
    case TaskRow(t) =>
      Snapshot(t.date, t.name, t.group, None, None, Some(t.url))
  }

  /** The payload of `_serialize_history`. */
  function Serialized(rows: seq<SourceRow>): (payload: seq<Snapshot>)
    ensures |payload| == |rows|
    ensures forall k :: 0 <= k < |rows| ==> payload[k] == Snap(rows[k])
  {
    seq(|rows|, k requires 0 <= k < |rows| => Snap(rows[k]))
  }

  /** `_serialize_history`: one snapshot per row, in row order. */
  method SerializeHistory(rows: seq<SourceRow>) returns (payload: seq<Snapshot>)
    ensures |payload| == |rows|
    ensures forall k :: 0 <= k < |rows| ==> payload[k] == Snap(rows[k])
    ensures payload == Serialized(rows)
  {
    payload := [];
    for k := 0 to |rows|
      invariant |payload| == k
      invariant forall j :: 0 <= j < k ==> payload[j] == Snap(rows[j])
    {
      payload := payload + [Snap(rows[k])];
    }
  }

  // ---------------------------------------------------------------------------
  // History windows

  function HistoryDate(r: HistoryRecord): int { r.date }
  function TaskDate(r: TodayRow): int { r.date }

  function HistorySince(start: int): HistoryRecord -> bool {
    (r: HistoryRecord) => r.date >= start
  }

  function TaskSince(start: int): TodayRow -> bool {
    (r: TodayRow) => r.date >= start
  }

  /** `history_rows`: ledger records dated from `start` on, newest date first. */
  function HistoryWindow(ledger: seq<HistoryRecord>, start: int): (rows: seq<HistoryRecord>)
    ensures forall r :: r in rows <==> r in ledger && r.date >= start
    ensures forall i, j :: 0 <= i < j < |rows| ==> rows[i].date >= rows[j].date
    ensures multiset(rows) == multiset(Sorting.Where(ledger, HistorySince(start)))
  {
    Sorting.Query(ledger, HistorySince(start), HistoryDate)
  }

  /** `recent_today`: task rows dated from `start` on, newest date first. */
  function RecentWindow(table: seq<TodayRow>, start: int): (rows: seq<TodayRow>)
    ensures forall r :: r in rows <==> r in table && r.date >= start
    ensures forall i, j :: 0 <= i < j < |rows| ==> rows[i].date >= rows[j].date
    ensures multiset(rows) == multiset(Sorting.Where(table, TaskSince(start)))
  {
    Sorting.Query(table, TaskSince(start), TaskDate)
  }

  function AsHistoryRows(rows: seq<HistoryRecord>): (s: seq<SourceRow>)
    ensures |s| == |rows| && forall k :: 0 <= k < |rows| ==> s[k] == HistoryRow(rows[k])
  {
    seq(|rows|, k requires 0 <= k < |rows| => HistoryRow(rows[k]))
  }

  function AsTaskRows(rows: seq<TodayRow>): (s: seq<SourceRow>)
    ensures |s| == |rows| && forall k :: 0 <= k < |rows| ==> s[k] == TaskRow(rows[k])
  {
    seq(|rows|, k requires 0 <= k < |rows| => TaskRow(rows[k]))
  }

  // ---------------------------------------------------------------------------
  // The catalog handed to the selector

  /** The group dicts of the loaded catalog, file after file, each file's groups in order. */
  function Flatten(configs: Loader.Configs): (groups: seq<Json.Value>)
    ensures |groups| == TotalGroups(configs)
    ensures forall p, g :: p in configs && g in p.1 ==> g in groups
  {
    if configs == [] then []
    else configs[0].1 + Flatten(configs[1..])
  }

  /** Flattening goes file after file: two listings flatten to the two flattenings, in order. */
  lemma {:induction false} FlattenConcat(a: Loader.Configs, b: Loader.Configs)
    ensures Flatten(a + b) == Flatten(a) + Flatten(b)
  {
    if a == [] {
      assert a + b == b;
    } else {
      assert (a + b)[1..] == a[1..] + b;
      FlattenConcat(a[1..], b);
    }
  }

  /** One file contributes its groups, in file order. */
  lemma FlattenSingle(p: (string, seq<Json.Value>))
    ensures Flatten([p]) == p.1
  {
    assert [p][1..] == [];
  }

  function TotalGroups(configs: Loader.Configs): nat {
    if configs == [] then 0 else |configs[0].1| + TotalGroups(configs[1..])
  }

  /** The catalog as the selector reads it: each group dict, in `Flatten` order, read by `readGroup`. */
  function Catalog(configs: Loader.Configs, readGroup: Json.Value -> Selector.CatalogGroup): (groups: seq<Selector.CatalogGroup>)
    ensures |groups| == |Flatten(configs)|
    ensures forall k :: 0 <= k < |groups| ==> groups[k] == readGroup(Flatten(configs)[k])
  {
    var dicts := Flatten(configs);
    seq(|dicts|, k requires 0 <= k < |dicts| => readGroup(dicts[k]))
  }

  /** Iterating the dict `load_configs` returns yields its keys: the first `group_data.get` raises on a string. */
  function FallbackOverDict(configs: Loader.Configs): (r: Result<seq<Selector.PlanEntry>>)
    ensures r.Ok? <==> configs == []
    ensures r.Ok? ==> r.value == []
  {
    if configs == [] then Ok([]) else Err(AttributeError("'str' object has no attribute 'get'"))
  }

  // ---------------------------------------------------------------------------
  // Replacing today's rows

  function DateIs(day: int): TodayRow -> bool {
    (r: TodayRow) => r.date == day
  }

  function DateIsNot(day: int): TodayRow -> bool {
    (r: TodayRow) => r.date != day
  }

  /** Delete the rows of `day`, then insert `created`. */
  function Replace(table: seq<TodayRow>, day: int, created: seq<TodayRow>): seq<TodayRow> {
    Sorting.Where(table, DateIsNot(day)) + created
  }

  /** After a replacement, the day's rows are exactly the inserted ones, and the other days' rows are untouched. */
  lemma ReplaceSpec(table: seq<TodayRow>, day: int, created: seq<TodayRow>)
    requires forall r :: r in created ==> r.date == day
    ensures Sorting.Where(Replace(table, day, created), DateIs(day)) == created
    ensures Sorting.Where(Replace(table, day, created), DateIsNot(day)) == Sorting.Where(table, DateIsNot(day))
  {
    var kept := Sorting.Where(table, DateIsNot(day));
    Sorting.WhereConcat(kept, created, DateIs(day));
    Sorting.WhereNone(kept, DateIs(day));
    Sorting.WhereAll(created, DateIs(day));
    Sorting.WhereConcat(kept, created, DateIsNot(day));
    Sorting.WhereAll(kept, DateIsNot(day));
    Sorting.WhereNone(created, DateIsNot(day));
    assert [] + created == created;
    assert kept + [] == kept;
  }

  /** Running twice leaves the second run's rows for the day, not both runs' rows. */
  lemma ReplaceTwice(table: seq<TodayRow>, day: int, first: seq<TodayRow>, second: seq<TodayRow>)
    requires forall r :: r in first ==> r.date == day
    requires forall r :: r in second ==> r.date == day
    ensures Sorting.Where(Replace(Replace(table, day, first), day, second), DateIs(day)) == second
    ensures Replace(Replace(table, day, first), day, second) == Replace(table, day, second)
  {
    ReplaceSpec(table, day, first);
    ReplaceSpec(Replace(table, day, first), day, second);
  }

  /** The row inserted for one planned task: its name, group and url, and the reason in `extra`. */
  function RowOf(task: AiSelector.TaskDict, day: int, id: int): (row: TodayRow)
    ensures row.date == day && row.id == id
    ensures row.name == task.Name() && row.group == task.Group() && row.url == task.Url()
    ensures row.extra == map["reason" := task.Reason()]
  {
    TodayRow(id, day, task.Name(), task.Group(), task.Url(), map["reason" := task.Reason()])
  }

  /** The rows inserted for a plan: one per task, in plan order, with consecutive ids from `firstId`. */
  function CreatedRows(tasks: seq<AiSelector.TaskDict>, day: int, firstId: int): (created: seq<TodayRow>)
    ensures |created| == |tasks|
    ensures forall k :: 0 <= k < |tasks| ==> created[k] == RowOf(tasks[k], day, firstId + k)
    ensures forall row :: row in created ==> row.date == day
  {
    seq(|tasks|, k requires 0 <= k < |tasks| => RowOf(tasks[k], day, firstId + k))
  }

  /** The loop of `generate_daily_tasks` that builds one row per planned task. */
  method CreateRows(tasks: seq<AiSelector.TaskDict>, day: int, firstId: int) returns (created: seq<TodayRow>)
    ensures |created| == |tasks|
    ensures forall k :: 0 <= k < |tasks| ==> created[k] == RowOf(tasks[k], day, firstId + k)
    ensures created == CreatedRows(tasks, day, firstId)
  {
    created := [];
    for k := 0 to |tasks|
      invariant |created| == k
      invariant forall j :: 0 <= j < k ==> created[j] == RowOf(tasks[j], day, firstId + j)
    {
      created := created + [RowOf(tasks[k], day, firstId + k)];
    }
  }

  /** `date.today() - timedelta(days=task_sample_days)` */
  function WindowStart(settings: Settings, today: int): int {
    today - settings.taskSampleDays
  }

  /** The prompt built from the two serialised windows starting at `start`. */
  function Messages(prompt: (seq<Snapshot>, seq<Snapshot>) -> seq<AiSelector.Message>,
                    ledger: seq<HistoryRecord>, table: seq<TodayRow>, start: int): seq<AiSelector.Message> {
    prompt(Serialized(AsHistoryRows(HistoryWindow(ledger, start))), Serialized(AsTaskRows(RecentWindow(table, start))))
  }

  /** The plan of one run: the fallback with AI off, else the guarded AI run on the windowed prompt. */
  function DailyPlan(settings: Settings, hasClient: bool, configs: Loader.Configs,
                     readGroup: Json.Value -> Selector.CatalogGroup,
                     prompt: (seq<Snapshot>, seq<Snapshot>) -> seq<AiSelector.Message>,
                     call: seq<AiSelector.Message> -> Result<Json.Value>,
                     ledger: seq<HistoryRecord>, table: seq<TodayRow>, today: int): AiSelector.Generated {
    if !AiSelector.AiEnabled(settings, hasClient) then
      AiSelector.FallbackOutput(ledger, Catalog(configs, readGroup), today, AiSelector.DisabledNote)
    else
      AiSelector.Guarded(Messages(prompt, ledger, table, WindowStart(settings, today)), call,
                         ledger, Catalog(configs, readGroup), today)
  }

  /**
   * The selection step of `generate_daily_tasks`: both windows start `task_sample_days`
   * before today and are serialised for the prompt; the selector gets the catalog's groups.
   */
  method PlanFor(settings: Settings, hasClient: bool, configs: Loader.Configs,
                 readGroup: Json.Value -> Selector.CatalogGroup,
                 prompt: (seq<Snapshot>, seq<Snapshot>) -> seq<AiSelector.Message>,
                 call: seq<AiSelector.Message> -> Result<Json.Value>,
                 ledger: seq<HistoryRecord>, table: seq<TodayRow>, today: int)
    returns (plan: AiSelector.Generated)
    ensures !AiSelector.AiEnabled(settings, hasClient) ==>
      plan == AiSelector.FallbackOutput(ledger, Catalog(configs, readGroup), today, AiSelector.DisabledNote)
    ensures AiSelector.AiEnabled(settings, hasClient) ==>
      plan == AiSelector.Guarded(Messages(prompt, ledger, table, WindowStart(settings, today)), call,
                                 ledger, Catalog(configs, readGroup), today)
    ensures plan == DailyPlan(settings, hasClient, configs, readGroup, prompt, call, ledger, table, today)
  {
    var groups := Catalog(configs, readGroup);
    var start := WindowStart(settings, today);
    var historyRows := SerializeHistory(AsHistoryRows(HistoryWindow(ledger, start)));
    var recentToday := SerializeHistory(AsTaskRows(RecentWindow(table, start)));
    var messages := prompt(historyRows, recentToday);
    assert messages == Messages(prompt, ledger, table, start);
    plan := AiSelector.Generate(settings, hasClient, messages, call, ledger, groups, today);
  }

  // ---------------------------------------------------------------------------
  // The table and the regeneration run

  /** The `today_tasks` table as a session sees it: its committed rows and the next free id. */
  class TaskTable {
    var rows: seq<TodayRow>
    var nextId: int

    constructor (rows: seq<TodayRow>, nextId: int)
      ensures this.rows == rows && this.nextId == nextId
    {
      this.rows := rows;
      this.nextId := nextId;
    }

    /**
     * `generate_daily_tasks` with the catalog passed as a list of groups and the prompt built:
     * on a load failure nothing changes; otherwise today's rows become the plan's tasks, in
     * plan order, with fresh ids, and no other row changes. `readGroup` is how the selector
     * reads a group dict, and `prompt` builds the messages from the two serialised windows.
     */
    method GenerateDailyTasks(settings: Settings, hasClient: bool, files: seq<(string, Json.Value)>,
                              readGroup: Json.Value -> Selector.CatalogGroup,
                              prompt: (seq<Snapshot>, seq<Snapshot>) -> seq<AiSelector.Message>,
                              call: seq<AiSelector.Message> -> Result<Json.Value>,
                              ledger: seq<HistoryRecord>, today: int)
      returns (r: Result<seq<TodayRow>>, plan: AiSelector.Generated)
      modifies this
      ensures Loader.LoadAll(files).Err? ==>
        r == Err(Loader.LoadAll(files).error) && rows == old(rows) && nextId == old(nextId)
      ensures Loader.LoadAll(files).Ok? ==>
        && r.Ok? && |r.value| == |plan.tasks|
        && (forall k :: 0 <= k < |plan.tasks| ==> r.value[k] == RowOf(plan.tasks[k], today, old(nextId) + k))
        && rows == Replace(old(rows), today, r.value)
        && nextId == old(nextId) + |plan.tasks|
      ensures Loader.LoadAll(files).Ok? ==>
        plan == DailyPlan(settings, hasClient, Loader.LoadAll(files).value, readGroup, prompt, call, ledger, old(rows), today)
      ensures Loader.LoadAll(files).Ok? && !AiSelector.AiEnabled(settings, hasClient) ==>
        plan == AiSelector.FallbackOutput(ledger, Catalog(Loader.LoadAll(files).value, readGroup), today, AiSelector.DisabledNote)
      ensures Loader.LoadAll(files).Ok? && AiSelector.AiEnabled(settings, hasClient) ==>
        plan == AiSelector.Guarded(Messages(prompt, ledger, old(rows), WindowStart(settings, today)), call,
                                   ledger, Catalog(Loader.LoadAll(files).value, readGroup), today)
    {
      plan := AiSelector.Generated([], AiSelector.Text(""), Json.EmptyObj);
      var configs := Loader.LoadConfigs(files);
      if configs.Err? {
        return Err(configs.error), plan;
      }
      plan := PlanFor(settings, hasClient, configs.value, readGroup, prompt, call, ledger, rows, today);

      var created := CreateRows(plan.tasks, today, nextId);
      Commit(today, created);
      r := Ok(created);
    }

    /** The wipe of the day's rows and the insert of the created ones, then the commit. */
    method Commit(today: int, created: seq<TodayRow>)
      modifies this
      ensures rows == Replace(old(rows), today, created)
      ensures nextId == old(nextId) + |created|
    {
      // wipe today's rows, within the session
      var pending := Sorting.Where(rows, DateIsNot(today));
      // commit
      rows := pending + created;
      nextId := nextId + |created|;
    }

    /**
     * `generate_daily_tasks` as written: the catalog dict goes to the selector as if it were
     * a list of groups, and the triple `generate` returns is iterated as if it were the task
     * list. Every run raises before the commit, so the table never changes.
     */
    method GenerateDailyTasksAsWritten(settings: Settings, hasClient: bool, files: seq<(string, Json.Value)>)
      returns (r: Result<seq<TodayRow>>)
      modifies this
      ensures r.Err? && rows == old(rows) && nextId == old(nextId)
      ensures Loader.LoadAll(files).Ok? && AiSelector.AiEnabled(settings, hasClient) ==>
        r == Err(TypeError(AiSelector.PromptArityError))
      ensures Loader.LoadAll(files).Ok? && !AiSelector.AiEnabled(settings, hasClient) ==>
        r.error.AttributeError?
    {
      var configs := Loader.LoadConfigs(files);
      if configs.Err? {
        return Err(configs.error);
      }
      if AiSelector.AiEnabled(settings, hasClient) {
        return Err(TypeError(AiSelector.PromptArityError));
      }
      var tasks := FallbackOverDict(configs.value);
      if tasks.Err? {
        return Err(tasks.error);
      }
      // `plan` is the triple ([], note, "{}"); today's rows are deleted in the session, then
      // the loop's first item is the empty task list, which has no `get`; nothing is committed.
      r := Err(AttributeError("'list' object has no attribute 'get'"));
    }

    /** The startup guard: regenerate only when no row exists for today. */
    method EnsureToday(settings: Settings, hasClient: bool, files: seq<(string, Json.Value)>,
                       readGroup: Json.Value -> Selector.CatalogGroup,
                       prompt: (seq<Snapshot>, seq<Snapshot>) -> seq<AiSelector.Message>,
                       call: seq<AiSelector.Message> -> Result<Json.Value>,
                       ledger: seq<HistoryRecord>, today: int)
      modifies this
      ensures (exists row :: row in old(rows) && row.date == today) ==> rows == old(rows) && nextId == old(nextId)
      ensures (forall row :: row in old(rows) ==> row.date != today) && Loader.LoadAll(files).Err? ==>
        rows == old(rows) && nextId == old(nextId)
      ensures (forall row :: row in old(rows) ==> row.date != today) && Loader.LoadAll(files).Ok? ==>
        var plan := DailyPlan(settings, hasClient, Loader.LoadAll(files).value, readGroup, prompt, call, ledger, old(rows), today);
        && rows == Replace(old(rows), today, CreatedRows(plan.tasks, today, old(nextId)))
        && nextId == old(nextId) + |plan.tasks|
      ensures (forall row :: row in old(rows) ==> row.date != today) && Loader.LoadAll(files).Ok? ==>
        |Sorting.Where(rows, DateIs(today))| == nextId - old(nextId)
    {
      var found := Sorting.Where(rows, DateIs(today));
      if found != [] {
        assert found[0] in found;
        return;
      }
      var r, plan := GenerateDailyTasks(settings, hasClient, files, readGroup, prompt, call, ledger, today);
      if r.Ok? {
        assert r.value == CreatedRows(plan.tasks, today, old(nextId));
        ReplaceSpec(old(rows), today, r.value);
      }
    }
  }
}
