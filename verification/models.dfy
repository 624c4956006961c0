/** The persisted rows (app/models) and the settings the core reads (app/core/config.py). */
module Models {
  import opened Wrappers
  import Json

  /**
   * One row of `task_history`: a completion (`completed`) or a feedback event.
   * `date` is a day number and `timestamp` an instant; rows are appended, never changed.
   */
  datatype HistoryRecord = HistoryRecord(
    date: int,
    timestamp: int,
    name: string,
    group: string,
    completed: bool,
    difficulty: Option<int>)

  /**
   * One row of `today_tasks`. The columns hold whatever the plan entry carried, so name,
   * group and url are dynamic values; `extra` is the JSON column (a null column reads as {}).
   */
  datatype TodayRow = TodayRow(
    id: int,
    date: int,
    name: Json.Value,
    group: Json.Value,
    url: Json.Value,
    extra: map<string, Json.Value>)

  /** The settings the core reads, with their defaults: `use_ai = true`, `task_sample_days = 14`. */
  datatype Settings = Settings(useAi: bool, taskSampleDays: int)

  const DefaultSettings: Settings := Settings(true, 14)
}
