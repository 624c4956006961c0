/**
 * The AI front-end of task selection (app/core/ai_selector.py): the module-title formatter,
 * the cleaner of a model reply, the bounded retry loop around the model call, and the two
 * entry points that either use the model or fall back to the deterministic selector.
 *
 * The model call itself (`_call_model`: the client request plus `json.loads`) is an oracle
 * `call` from the messages sent to what came back or what was raised.
 */
module AiSelector {
  import opened Wrappers
  import opened Text
  import Json
  import opened Models
  import Selector
  import PromptLoader

  // ---------------------------------------------------------------------------
  // Module titles

  /** `s.replace(a, b)` for one-character `a` and `b`. */
  function ReplaceChar(s: string, a: char, b: char): (r: string)
    ensures |r| == |s|
    ensures forall k :: 0 <= k < |s| ==> r[k] == (if s[k] == a then b else s[k])
  {
    seq(|s|, k requires 0 <= k < |s| => if s[k] == a then b else s[k])
  }

  /** One character of `str.title()`: upper-cased at the start of a word, lower-cased inside one. */
  function TitleChar(c: char, startsWord: bool): (r: char)
    ensures ToLowerChar(r) == ToLowerChar(c)
    ensures IsLetter(r) <==> IsLetter(c)
    ensures !IsLetter(c) ==> r == c
    ensures IsLetter(c) ==> (IsUpperAscii(r) <==> startsWord)
  {
    if startsWord then ToUpperChar(c) else ToLowerChar(c)
  }

  /** Position `k` of `s` starts a word: it is first or follows a non-letter. */
  predicate StartsWord(s: string, k: int)
    requires 0 <= k < |s|
  {
    k == 0 || !IsLetter(s[k - 1])
  }

  /** `str.title()`: a letter is upper-cased when it starts a word (follows a non-letter), lower-cased otherwise. */
  function Title(s: string): (r: string)
    ensures |r| == |s|
    ensures forall k :: 0 <= k < |s| ==> ToLowerChar(r[k]) == ToLowerChar(s[k])
    ensures forall k :: 0 <= k < |s| ==> (IsLetter(r[k]) <==> IsLetter(s[k]))
    ensures forall k :: 0 <= k < |s| && !IsLetter(s[k]) ==> r[k] == s[k]
    ensures forall k :: 0 <= k < |s| && IsLetter(s[k]) ==>
      (IsUpperAscii(r[k]) <==> StartsWord(s, k))
  {
    seq(|s|, k requires 0 <= k < |s| => TitleChar(s[k], StartsWord(s, k)))
  }

  /** `_format_module_title`: "-" and "_" become spaces, then every word is title-cased. */
  function FormatModuleTitle(moduleId: string): (title: string)
    ensures |title| == |moduleId|
    ensures forall k :: 0 <= k < |title| ==> title[k] != '-' && title[k] != '_'
    ensures forall k :: 0 <= k < |title| && (moduleId[k] == '-' || moduleId[k] == '_') ==> title[k] == ' '
    ensures forall k :: 0 <= k < |title| && IsLetter(moduleId[k]) ==>
      ToLowerChar(title[k]) == ToLowerChar(moduleId[k])
  {
    Title(ReplaceChar(ReplaceChar(moduleId, '-', ' '), '_', ' '))
  }

  /** Title-casing twice changes nothing more than title-casing once. */
  lemma TitleIdempotent(s: string)
    ensures Title(Title(s)) == Title(s)
  {
    var t := Title(s);
    forall k | 0 <= k < |s|
      ensures Title(t)[k] == t[k]
    {
      if IsLetter(s[k]) {
        if k == 0 || !IsLetter(s[k - 1]) {
          assert IsUpperAscii(t[k]);
        } else {
          assert !IsUpperAscii(t[k]);
        }
      }
    }
  }

  /** Formatting an already formatted title leaves it as it is. */
  lemma FormatModuleTitleIdempotent(moduleId: string)
    ensures FormatModuleTitle(FormatModuleTitle(moduleId)) == FormatModuleTitle(moduleId)
  {
    var t := FormatModuleTitle(moduleId);
    assert ReplaceChar(ReplaceChar(t, '-', ' '), '_', ' ') == t;
    TitleIdempotent(ReplaceChar(ReplaceChar(moduleId, '-', ' '), '_', ' '));
  }

  /** Separators become spaces, and a letter after a digit starts a new word. */
  lemma FormatModuleTitleExample()
    ensures FormatModuleTitle("two-sum_2nd") == "Two Sum 2Nd"
  {
    SeparatorsExample();
    TitleExample();
  }

  /** Both separators of "two-sum_2nd" become spaces. */
  lemma SeparatorsExample()
    ensures ReplaceChar(ReplaceChar("two-sum_2nd", '-', ' '), '_', ' ') == "two sum 2nd"
  {
    var s := ReplaceChar("two-sum_2nd", '-', ' ');
    assert s == "two sum_2nd";
  }

  /** A digit is not a letter, so the letter after it starts a word ("2Nd"). */
  lemma TitleExample()
    ensures Title("two sum 2nd") == "Two Sum 2Nd"
  {
    TitleFirstWord();
    TitleSecondWord();
    TitleThirdWord();
  }

  lemma TitleFirstWord()
    ensures var t := Title("two sum 2nd"); t[0] == 'T' && t[1] == 'w' && t[2] == 'o' && t[3] == ' '
  {
    var s := "two sum 2nd";
    assert StartsWord(s, 0) && !StartsWord(s, 1) && !StartsWord(s, 2);
  }

  lemma TitleSecondWord()
    ensures var t := Title("two sum 2nd"); t[4] == 'S' && t[5] == 'u' && t[6] == 'm' && t[7] == ' '
  {
    var s := "two sum 2nd";
    assert StartsWord(s, 4) && !StartsWord(s, 5) && !StartsWord(s, 6);
  }

  lemma TitleThirdWord()
    ensures var t := Title("two sum 2nd"); t[8] == '2' && t[9] == 'N' && t[10] == 'd'
  {
    var s := "two sum 2nd";
    assert StartsWord(s, 9) && !StartsWord(s, 10);
  }

  // ---------------------------------------------------------------------------
  // Cleaning a reply

  /** One cleaned task: the fields the rest of the application reads, as the reply gave them. */
  datatype CleanedTask = CleanedTask(
    name: Json.Value,
    group: Json.Value,
    taskType: Json.Value,
    problemText: Json.Value,
    codeTemplate: Json.Value,
    todoText: Json.Value,
    importance: Json.Value,
    difficultyEstimate: Json.Value,
    reason: Json.Value,
    url: Json.Value,
    metadata: Json.Value)

  /** `str(summary_notes)`: plain text, or the rendering of a value whose `str` is not modelled (a float, list or dict). */
  datatype Summary = Text(text: string) | Rendered(value: Json.Value)

  /** What `_validate_shape` returns: the cleaned tasks and the summary notes. */
  datatype Validated = Validated(tasks: seq<CleanedTask>, notes: Summary)

  /** A reply entry survives cleaning when it is a dict with a truthy name and a truthy group. */
  predicate Keep(task: Json.Value) {
    task.Obj? && Json.Truthy(Json.Get(task.fields, "name")) && Json.Truthy(Json.Get(task.fields, "group"))
  }

  /** The cleaned form of one kept entry: defaults for `task_type` and `metadata`, and the coding fallback for `problem_text`. */
  function CleanTask(fields: map<string, Json.Value>): (c: CleanedTask)
    ensures c.name == Json.Get(fields, "name") && c.group == Json.Get(fields, "group")
    ensures Json.Truthy(c.taskType)
    ensures Json.Truthy(Json.Get(fields, "task_type")) ==> c.taskType == Json.Get(fields, "task_type")
    ensures !Json.Truthy(Json.Get(fields, "task_type")) ==> c.taskType == Json.Str("todo")
    ensures c.taskType == Json.Str("coding") && Json.Truthy(Json.Get(fields, "problem_text")) ==>
      c.problemText == Json.Get(fields, "problem_text")
    ensures c.taskType == Json.Str("coding") && !Json.Truthy(Json.Get(fields, "problem_text")) ==>
      c.problemText == Json.Get(fields, "todo_text")
    ensures c.taskType != Json.Str("coding") ==> c.problemText == Json.Get(fields, "problem_text")
    ensures c.codeTemplate == Json.Get(fields, "code_template") && c.todoText == Json.Get(fields, "todo_text")
    ensures c.importance == Json.Get(fields, "importance")
    ensures c.difficultyEstimate == Json.Get(fields, "difficulty_estimate")
    ensures c.reason == Json.Get(fields, "reason") && c.url == Json.Get(fields, "url")
    ensures Json.Truthy(Json.Get(fields, "metadata")) ==> c.metadata == Json.Get(fields, "metadata")
    ensures !Json.Truthy(Json.Get(fields, "metadata")) ==> c.metadata == Json.EmptyObj
  {
    var taskType := Json.Or(Json.Get(fields, "task_type"), Json.Str("todo"));
    var problemText := Json.Get(fields, "problem_text");
    var todoText := Json.Get(fields, "todo_text");
    CleanedTask(
      Json.Get(fields, "name"),
      Json.Get(fields, "group"),
      taskType,
      if taskType == Json.Str("coding") then Json.Or(problemText, todoText) else problemText,
      Json.Get(fields, "code_template"),
      todoText,
      Json.Get(fields, "importance"),
      Json.Get(fields, "difficulty_estimate"),
      Json.Get(fields, "reason"),
      Json.Get(fields, "url"),
      Json.Or(Json.Get(fields, "metadata"), Json.EmptyObj))
  }

  /** The `cleaned` list for a `tasks` array: the kept entries, cleaned, in reply order. */
  function CleanTasks(tasks: seq<Json.Value>): (cleaned: seq<CleanedTask>)
    ensures |cleaned| <= |tasks|
    ensures forall c :: c in cleaned ==> Json.Truthy(c.name) && Json.Truthy(c.group)
  {
    if tasks == [] then []
    else
      var last := tasks[|tasks| - 1];
      CleanTasks(tasks[..|tasks| - 1]) + (if Keep(last) then [CleanTask(last.fields)] else [])
  }

  /** Cleaning works entry by entry: the cleaned list of a concatenation is the concatenation of the cleaned lists. */
  lemma {:induction false} CleanTasksConcat(a: seq<Json.Value>, b: seq<Json.Value>)
    ensures CleanTasks(a + b) == CleanTasks(a) + CleanTasks(b)
    decreases |b|
  {
    if b == [] {
      assert a + b == a;
    } else {
      var b' := b[..|b| - 1];
      assert (a + b)[..|a + b| - 1] == a + b';
      CleanTasksConcat(a, b');
    }
  }

  lemma CleanTasksSingle(t: Json.Value)
    ensures CleanTasks([t]) == if Keep(t) then [CleanTask(t.fields)] else []
  {
    assert [t][..0] == [];
  }

  /** Nothing survives cleaning exactly when no entry is kept. */
  lemma {:induction false} CleanTasksEmpty(tasks: seq<Json.Value>)
    ensures CleanTasks(tasks) == [] <==> forall t :: t in tasks ==> !Keep(t)
  {
    if tasks != [] {
      var front := tasks[..|tasks| - 1];
      CleanTasksEmpty(front);
      assert forall t :: t in tasks <==> t in front || t == tasks[|tasks| - 1];
    }
  }

  /** Three entries, the second without a name: two cleaned tasks, in reply order. */
  lemma CleanTasksDropsNameless()
    ensures var cleaned := CleanTasks([WalkEntry, NamelessEntry, TwoSumEntry]);
      |cleaned| == 2 && cleaned[0].name == Json.Str("Walk") && cleaned[0].taskType == Json.Str("todo")
      && cleaned[1].name == Json.Str("Two Sum") && cleaned[1].problemText == Json.Str("Solve it")
  {
    WalkEntryCleaned();
    TwoSumEntryCleaned();
    NamelessEntryDropped();
    CleanTasksSkipsMiddle(WalkEntry, NamelessEntry, TwoSumEntry);
  }

  /** A dropped entry between two others leaves the other two's cleaned tasks, in order. */
  lemma CleanTasksSkipsMiddle(a: Json.Value, b: Json.Value, c: Json.Value)
    requires !Keep(b)
    ensures CleanTasks([a, b, c]) == CleanTasks([a]) + CleanTasks([c])
  {
    CleanTasksSingle(b);
    CleanTasksConcat([a], [b]);
    CleanTasksConcat([a, b], [c]);
    assert [a] + [b] == [a, b];
    assert [a, b] + [c] == [a, b, c];
  }

  /** The three reply entries of the example above. */
  const WalkEntry: Json.Value := Json.Obj(map["name" := Json.Str("Walk"), "group" := Json.Str("Habits")])
  const NamelessEntry: Json.Value := Json.Obj(map["group" := Json.Str("Habits")])
  const TwoSumEntry: Json.Value :=
    Json.Obj(map["name" := Json.Str("Two Sum"), "group" := Json.Str("LeetCode"),
                 "task_type" := Json.Str("coding"), "todo_text" := Json.Str("Solve it")])

  /** An entry with no task_type is kept as a "todo" task. */
  lemma WalkEntryCleaned()
    ensures |CleanTasks([WalkEntry])| == 1
    ensures CleanTasks([WalkEntry])[0].name == Json.Str("Walk")
    ensures CleanTasks([WalkEntry])[0].taskType == Json.Str("todo")
  {
    CleanTasksSingle(WalkEntry);
    assert Keep(WalkEntry);
  }

  /** An entry without a name is dropped. */
  lemma NamelessEntryDropped()
    ensures !Keep(NamelessEntry)
  {
    assert Json.Get(NamelessEntry.fields, "name") == Json.Null;
  }

  /** A coding entry without problem_text takes its todo_text. */
  lemma TwoSumEntryCleaned()
    ensures |CleanTasks([TwoSumEntry])| == 1
    ensures CleanTasks([TwoSumEntry])[0].name == Json.Str("Two Sum")
    ensures CleanTasks([TwoSumEntry])[0].problemText == Json.Str("Solve it")
  {
    CleanTasksSingle(TwoSumEntry);
    assert Keep(TwoSumEntry);
    assert Json.Get(TwoSumEntry.fields, "task_type") == Json.Str("coding");
    assert Json.Get(TwoSumEntry.fields, "problem_text") == Json.Null;
    assert Json.Get(TwoSumEntry.fields, "todo_text") == Json.Str("Solve it");
  }

  /** `summary_notes or ""`, converted with `str` when it is not a string. */
  function SummaryOf(notes: Json.Value): (s: Summary)
    ensures !Json.Truthy(notes) ==> s == Text("")
    ensures notes.Str? ==> s == Text(notes.s)
    ensures Json.Truthy(notes) && Json.StrOf(notes).Some? ==> s == Text(Json.StrOf(notes).value)
  {
    var v := Json.Or(notes, Json.Str(""));
    match Json.StrOf(v)
    case Some(text) => Text(text)
    case None => Rendered(v)
  }

  const NotAnObject: string := "AI response must be an object"
  const MissingTasks: string := "AI response missing tasks array"
  const NoValidTasks: string := "AI response had no valid tasks"

  /** What `_validate_shape` returns for a parsed reply, or the ValueError it raises. */
  function Shape(data: Json.Value): (r: Result<Validated>)
    ensures !data.Obj? ==> r == Err(ValueError(NotAnObject))
    ensures data.Obj? && !Json.Get(data.fields, "tasks").Arr? ==> r == Err(ValueError(MissingTasks))
    ensures data.Obj? && Json.Get(data.fields, "tasks").Arr? && r.Err? ==> r == Err(ValueError(NoValidTasks))
    ensures r.Ok? <==> data.Obj? && Json.Get(data.fields, "tasks").Arr?
                       && exists t :: t in Json.Get(data.fields, "tasks").items && Keep(t)
    ensures r.Ok? ==> r.value.tasks == CleanTasks(Json.Get(data.fields, "tasks").items)
                      && r.value.notes == SummaryOf(Json.Get(data.fields, "summary_notes"))
  {
    if !data.Obj? then Err(ValueError(NotAnObject))
    else
      var tasks := Json.Get(data.fields, "tasks");
      if !tasks.Arr? then Err(ValueError(MissingTasks))
      else
        var cleaned := CleanTasks(tasks.items);
        CleanTasksEmpty(tasks.items);
        if cleaned == [] then Err(ValueError(NoValidTasks))
        else Ok(Validated(cleaned, SummaryOf(Json.Get(data.fields, "summary_notes"))))
  }

  /** `_validate_shape`: the loop that fills `cleaned`. */
  method ValidateShape(data: Json.Value) returns (r: Result<Validated>)
    ensures r == Shape(data)
  {
    if !data.Obj? {
      return Err(ValueError(NotAnObject));
    }
    var tasks := Json.Get(data.fields, "tasks");
    if !tasks.Arr? {
      return Err(ValueError(MissingTasks));
    }
    var cleaned: seq<CleanedTask> := [];
    for i := 0 to |tasks.items|
      invariant cleaned == CleanTasks(tasks.items[..i])
    {
      var task := tasks.items[i];
      assert tasks.items[..i + 1][..i] == tasks.items[..i];
      if !task.Obj? {
        continue;
      }
      var name := Json.Get(task.fields, "name");
      var group := Json.Get(task.fields, "group");
      if !Json.Truthy(name) || !Json.Truthy(group) {
        continue;
      }
      cleaned := cleaned + [CleanTask(task.fields)];
    }
    assert tasks.items[..|tasks.items|] == tasks.items;
    if cleaned == [] {
      return Err(ValueError(NoValidTasks));
    }
    var notes := SummaryOf(Json.Get(data.fields, "summary_notes"));
    r := Ok(Validated(cleaned, notes));
  }

  // ---------------------------------------------------------------------------
  // Retries

  /** One chat message. */
  datatype Message = Message(role: string, content: string)

  const CorrectionNote: Message :=
    Message("user", "Your last reply was invalid JSON. Reply again with ONLY valid JSON conforming to the schema.")
  const UnknownFailure: string := "AI request failed with unknown error."

  /** `k` correction notes. */
  function Notes(k: nat): (notes: seq<Message>)
    ensures |notes| == k
    ensures forall j :: 0 <= j < k ==> notes[j] == CorrectionNote
  {
    if k == 0 then [] else Notes(k - 1) + [CorrectionNote]
  }

  /** The number of iterations of `range(retries + 1)`. */
  function Attempts(retries: int): nat {
    if retries + 1 <= 0 then 0 else retries + 1
  }

  /** The messages of attempt `k`: the caller's messages and one correction note per failed attempt. */
  function AttemptMessages(messages: seq<Message>, k: nat): seq<Message> {
    messages + Notes(k)
  }

  /** The outcome of the first `n` attempts: the first reply, else the last error, else the unknown-failure error. */
  function Retried(messages: seq<Message>, n: nat, call: seq<Message> -> Result<Json.Value>): Result<Json.Value> {
    if n == 0 then Err(RuntimeError(UnknownFailure))
    else
      var before := Retried(messages, n - 1, call);
      if before.Ok? then before else call(AttemptMessages(messages, n - 1))
  }

  /** A reply at attempt `k` after `k` failures is what the retry loop returns, whatever the later attempts would give. */
  lemma {:induction false} RetriedFirstSuccess(messages: seq<Message>, n: nat, call: seq<Message> -> Result<Json.Value>, k: nat)
    requires k < n
    requires call(AttemptMessages(messages, k)).Ok?
    requires forall j :: 0 <= j < k ==> call(AttemptMessages(messages, j)).Err?
    ensures Retried(messages, n, call) == call(AttemptMessages(messages, k))
  {
    if n - 1 == k {
      RetriedAllFail(messages, k, call);
    } else {
      RetriedFirstSuccess(messages, n - 1, call, k);
    }
  }

  /** When every attempt fails, the loop raises the last error, or the unknown-failure error when there was no attempt. */
  lemma {:induction false} RetriedAllFail(messages: seq<Message>, n: nat, call: seq<Message> -> Result<Json.Value>)
    requires forall j :: 0 <= j < n ==> call(AttemptMessages(messages, j)).Err?
    ensures n == 0 ==> Retried(messages, n, call) == Err(RuntimeError(UnknownFailure))
    ensures n > 0 ==> Retried(messages, n, call) == call(AttemptMessages(messages, n - 1))
  {
    if n > 1 {
      RetriedAllFail(messages, n - 1, call);
    }
  }

  /** `_request_with_retries`: at most `retries + 1` calls, each failure adding one correction note to a copy of the messages. */
  method RequestWithRetries(messages: seq<Message>, retries: int, call: seq<Message> -> Result<Json.Value>)
    returns (r: Result<Json.Value>, sent: seq<seq<Message>>)
    ensures r == Retried(messages, Attempts(retries), call)
    ensures |sent| <= Attempts(retries)
    ensures forall k :: 0 <= k < |sent| ==> sent[k] == AttemptMessages(messages, k)
    ensures forall k :: 0 <= k < |sent| - 1 ==> call(sent[k]).Err?
    ensures r.Ok? ==> |sent| > 0 && r == call(sent[|sent| - 1])
    ensures r.Err? ==> |sent| == Attempts(retries)
  {
    var lastError: Option<Error> := None;
    var working := messages;
    sent := [];
    var n := Attempts(retries);
    for attempt := 0 to n
      invariant working == AttemptMessages(messages, attempt)
      invariant |sent| == attempt
      invariant forall k :: 0 <= k < attempt ==> sent[k] == AttemptMessages(messages, k)
      invariant forall k :: 0 <= k < attempt ==> call(sent[k]).Err?
      invariant Retried(messages, attempt, call).Err?
      invariant attempt == 0 ==> lastError == None
      invariant attempt > 0 ==> lastError == Some(Retried(messages, attempt, call).error)
    {
      sent := sent + [working];
      var outcome := call(working);
      if outcome.Ok? {
        r := outcome;
        RetriedFirstSuccess(messages, n, call, attempt);
        return;
      }
      lastError := Some(outcome.error);
      working := working + [CorrectionNote];
      assert Notes(attempt + 1) == Notes(attempt) + [CorrectionNote];
    }
    RetriedAllFail(messages, n, call);
    if lastError.Some? {
      r := Err(lastError.value);
      return;
    }
    r := Err(RuntimeError(UnknownFailure));
  }

  // ---------------------------------------------------------------------------
  // Entry points

  /** A task dict handed to the scheduler: a cleaned reply entry, or a fallback plan entry. */
  datatype TaskDict = AiTask(task: CleanedTask) | FallbackTask(entry: Selector.PlanEntry) {
    /** `task.get("name")` */
    function Name(): Json.Value {
      match this
      case AiTask(c) => c.name
      case FallbackTask(e) => Json.Str(e.name)
    }
    /** `task.get("group")` */
    function Group(): Json.Value {
      match this
      case AiTask(c) => c.group
      case FallbackTask(e) => Json.Str(e.group)
    }
    /** `task.get("url")` */
    function Url(): Json.Value {
      match this
      case AiTask(c) => c.url
      case FallbackTask(e) => if e.url.Some? then Json.Str(e.url.value) else Json.Null
    }
    /** `task.get("reason")` */
    function Reason(): Json.Value {
      match this
      case AiTask(c) => c.reason
      case FallbackTask(e) => Json.Str(e.reason)
    }
  }

  /**
   * The triple `generate` returns: the tasks, the summary notes and the raw reply. The raw
   * reply is the document `json.dumps` renders; the fallback's "{}" is the empty object.
   */
  datatype Generated = Generated(tasks: seq<TaskDict>, summary: Summary, raw: Json.Value)

  const DisabledNote: string := "Fallback selector used (AI disabled or unavailable)."
  const FailureNote: string := "Fallback selector used after AI failure."
  const ModuleUnavailable: string := "AI selector unavailable for module generation."

  /** `_request_with_retries(messages)` uses the default of two retries. */
  const DefaultRetries: int := 2

  function AiTasks(cleaned: seq<CleanedTask>): (tasks: seq<TaskDict>)
    ensures |tasks| == |cleaned|
    ensures forall k :: 0 <= k < |cleaned| ==> tasks[k] == AiTask(cleaned[k])
  {
    seq(|cleaned|, k requires 0 <= k < |cleaned| => AiTask(cleaned[k]))
  }

  function FallbackTasks(plan: seq<Selector.PlanEntry>): (tasks: seq<TaskDict>)
    ensures |tasks| == |plan|
    ensures forall k :: 0 <= k < |plan| ==> tasks[k] == FallbackTask(plan[k])
  {
    seq(|plan|, k requires 0 <= k < |plan| => FallbackTask(plan[k]))
  }

  /** The triple for the fallback plan of `groups`, with the given note. */
  function FallbackOutput(ledger: seq<HistoryRecord>, groups: seq<Selector.CatalogGroup>, today: int, note: string): Generated {
    Generated(FallbackTasks(Selector.FallbackPlan(groups, Selector.NewestFirst(ledger), today)), Text(note), Json.EmptyObj)
  }

  /** The triple for an accepted reply. */
  function AiOutput(data: Json.Value, v: Validated): Generated {
    Generated(AiTasks(v.tasks), v.notes, data)
  }

  /** The outcome of the guarded block: the validated reply, or the fallback with the failure note. */
  function Guarded(messages: seq<Message>, call: seq<Message> -> Result<Json.Value>,
                   ledger: seq<HistoryRecord>, groups: seq<Selector.CatalogGroup>, today: int): Generated {
    var data := Retried(messages, Attempts(DefaultRetries), call);
    if data.Ok? && Shape(data.value).Ok? then AiOutput(data.value, Shape(data.value).value)
    else FallbackOutput(ledger, groups, today, FailureNote)
  }

  predicate AiEnabled(settings: Settings, hasClient: bool) {
    settings.useAi && hasClient
  }

  /**
   * The guarded block of `generate`: retries, one validation, and the fallback on any failure.
   * A reply that parses but fails validation is not retried.
   */
  method GuardedSelection(messages: seq<Message>, call: seq<Message> -> Result<Json.Value>,
                          ledger: seq<HistoryRecord>, groups: seq<Selector.CatalogGroup>, today: int)
    returns (out: Generated, sent: seq<seq<Message>>)
    ensures var data := Retried(messages, Attempts(DefaultRetries), call);
      if data.Ok? && Shape(data.value).Ok? then out == AiOutput(data.value, Shape(data.value).value)
      else out == FallbackOutput(ledger, groups, today, FailureNote)
    ensures 0 < |sent| <= Attempts(DefaultRetries) && sent[0] == messages
    ensures call(messages).Ok? ==> |sent| == 1
  {
    var data;
    data, sent := RequestWithRetries(messages, DefaultRetries, call);
    assert sent[0] == messages + [];
    if data.Ok? {
      var v := ValidateShape(data.value);
      if v.Ok? {
        return AiOutput(data.value, v.value), sent;
      }
    }
    var plan := Selector.SelectWithFallback(ledger, groups, today);
    out := Generated(FallbackTasks(plan), Text(FailureNote), Json.EmptyObj);
  }

  /**
   * `AISelector.generate` with the prompt built: the fallback when AI is disabled or there is
   * no client, otherwise the guarded block.
   */
  method Generate(settings: Settings, hasClient: bool, messages: seq<Message>, call: seq<Message> -> Result<Json.Value>,
                  ledger: seq<HistoryRecord>, groups: seq<Selector.CatalogGroup>, today: int)
    returns (out: Generated)
    ensures !AiEnabled(settings, hasClient) ==> out == FallbackOutput(ledger, groups, today, DisabledNote)
    ensures AiEnabled(settings, hasClient) ==> out == Guarded(messages, call, ledger, groups, today)
  {
    if !AiEnabled(settings, hasClient) {
      var plan := Selector.SelectWithFallback(ledger, groups, today);
      return Generated(FallbackTasks(plan), Text(DisabledNote), Json.EmptyObj);
    }
    var sent;
    out, sent := GuardedSelection(messages, call, ledger, groups, today);
  }

  /** The TypeError of `self._build_system_prompt()` called without its two arguments. */
  const PromptArityError: string :=
    "AISelector._build_system_prompt() missing 2 required positional arguments: 'module_id' and 'module_title'"

  /**
   * `AISelector.generate` as written: with AI enabled, the prompt is built before the guarded
   * block with no arguments, so the call raises and the fallback is never reached.
   */
  method GenerateAsWritten(settings: Settings, hasClient: bool,
                           ledger: seq<HistoryRecord>, groups: seq<Selector.CatalogGroup>, today: int)
    returns (r: Result<Generated>)
    ensures !AiEnabled(settings, hasClient) ==> r == Ok(FallbackOutput(ledger, groups, today, DisabledNote))
    ensures AiEnabled(settings, hasClient) ==> r == Err(TypeError(PromptArityError))
  {
    if !AiEnabled(settings, hasClient) {
      var plan := Selector.SelectWithFallback(ledger, groups, today);
      return Ok(Generated(FallbackTasks(plan), Text(DisabledNote), Json.EmptyObj));
    }
    r := Err(TypeError(PromptArityError));
  }

  /** The AttributeError of reading a field the pydantic `Settings` class does not declare. */
  const SettingsFieldError: string := "'Settings' object has no attribute 'time_budget'"

  /**
   * `AISelector.generate_for_module` as written: with AI enabled, the system prompt loads the
   * prompt bundle from `promptDir`, whose decode error escapes; then the module payload reads
   * `settings.time_budget` (and three more fields `Settings` lacks) before any request is sent.
   */
  method GenerateForModuleAsWritten(settings: Settings, hasClient: bool, moduleId: string,
                                    promptDir: Option<seq<PromptLoader.DirEntry>>)
    returns (r: Result<Generated>)
    ensures !AiEnabled(settings, hasClient) ==> r == Err(RuntimeError(ModuleUnavailable))
    ensures AiEnabled(settings, hasClient) && PromptLoader.PromptText(promptDir).Err? ==>
      r == Err(PromptLoader.PromptText(promptDir).error)
    ensures AiEnabled(settings, hasClient) && PromptLoader.PromptText(promptDir).Ok? ==>
      r == Err(AttributeError(SettingsFieldError))
  {
    if !AiEnabled(settings, hasClient) {
      return Err(RuntimeError(ModuleUnavailable));
    }
    var bundle := PromptLoader.LoadPromptTemplates(promptDir);
    if bundle.Err? {
      return Err(bundle.error);
    }
    r := Err(AttributeError(SettingsFieldError));
  }

  /**
   * `AISelector.generate_for_module` as evidently intended, with the payload built from the
   * settings that exist: no fallback. Unavailable AI raises RuntimeError; a prompt bundle that
   * is not UTF-8, a failed request or a rejected reply raises its own error. `prompt` builds the
   * messages from the module id, its title and the prompt bundle (the schema constants and the
   * payload text are not modelled).
   */
  method GenerateForModule(settings: Settings, hasClient: bool, moduleId: string,
                           promptDir: Option<seq<PromptLoader.DirEntry>>,
                           prompt: (string, string, string) -> seq<Message>, call: seq<Message> -> Result<Json.Value>)
    returns (r: Result<Generated>)
    ensures !AiEnabled(settings, hasClient) ==> r == Err(RuntimeError(ModuleUnavailable))
    ensures AiEnabled(settings, hasClient) && PromptLoader.PromptText(promptDir).Err? ==>
      r == Err(PromptLoader.PromptText(promptDir).error)
    ensures AiEnabled(settings, hasClient) && PromptLoader.PromptText(promptDir).Ok? ==>
      var bundle := PromptLoader.PromptText(promptDir).value;
      var data := Retried(prompt(moduleId, FormatModuleTitle(moduleId), bundle), Attempts(DefaultRetries), call);
      && (data.Err? ==> r == Err(data.error))
      && (data.Ok? && Shape(data.value).Err? ==> r == Err(Shape(data.value).error))
      && (data.Ok? && Shape(data.value).Ok? ==> r == Ok(AiOutput(data.value, Shape(data.value).value)))
  {
    if !AiEnabled(settings, hasClient) {
      return Err(RuntimeError(ModuleUnavailable));
    }
    var bundle := PromptLoader.LoadPromptTemplates(promptDir);
    if bundle.Err? {
      return Err(bundle.error);
    }
    var title := FormatModuleTitle(moduleId);
    var messages := prompt(moduleId, title, bundle.value);
    var data, sent := RequestWithRetries(messages, DefaultRetries, call);
    if data.Err? {
      return Err(data.error);
    }
    var v := ValidateShape(data.value);
    if v.Err? {
      return Err(v.error);
    }
    r := Ok(AiOutput(data.value, v.value));
  }
}
