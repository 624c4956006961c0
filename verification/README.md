# ai-coach task selection, modelled in Dafny

ai-coach is a personal practice coach. Each day it fills a `today_tasks` table with tasks taken from a YAML catalog of groups and items. It asks an AI model for a plan and falls back to a deterministic scorer when the model is disabled or fails. The user then marks tasks done or gives difficulty feedback, which appends records to a `task_history` ledger. Those records feed the next day's scores.

This project models that engine, one Dafny module per source file:

| module | source | form |
|---|---|---|
| `Selector` | app/services/selector.py | history bucketing, item scores, per-group quota, ranking and the rotation top-up, as loops proved against specification functions |
| `AiSelector` | app/core/ai_selector.py | module titles, reply validation and cleaning, the retry loop around the model call, and the `generate` / `generate_for_module` dispatch |
| `Scheduler` | app/core/scheduler.py, app/main.py | row serialisation; the daily regeneration as a `TaskTable` class whose method replaces today's rows; the startup guard |
| `Loader` | app/services/loader.py | group validation and the per-document logic of `load_configs` |
| `TasksApi` | app/api/tasks.py | payload bounds, the `HistoryLedger` class appended by `/done` and `/feedback`, the `/today` grouping and the `/history` window |
| `PromptLoader` | app/services/prompt_loader.py | ordering, reading and joining of the prompt bundle, and the decode error that escapes it |
| `Avatars` | app/services/avatar_picker.py | avatar file lookup, document shape, the group-based pick and the quote condition |

Shared modules:
- `Wrappers`: `Option`, `Result`, and the Python exceptions as `Error`.
- `Text`: ASCII string helpers and `str.join`.
- `Json`: dynamic values, truthiness, `or` and `in`.
- `Sorting`: an insertion sort (stable only under an order that breaks ties by position), filter and `ORDER BY ... DESC`.
- `Models`: the ORM rows and the settings record.

How the inputs are represented:
- Scores are `real`. The score has one reciprocal and one mean and nothing else, so `real` states it exactly.
- Dates are day numbers. `today` and the current timestamp are parameters.
- The model call (`_call_model`: the client request plus `json.loads`) is an oracle `call` from the messages sent to `Ok(reply)` or `Err(error)`.
- Prompt text is built by a `prompt` parameter.
- The typed reading of a catalog group dict is a `readGroup` parameter.

The recency term is `1 / last_seen_days` (app/services/selector.py:48), so it shrinks as the newest record of an item ages: an item seen long ago scores lower on this term than one seen yesterday. Age is measured from the newest record, whether or not that record was completed. See `Selector.RecencyShrinksWithAge`.

## Model

| member | source | states |
|---|---|---|
| Selector.KeyCollision | app/services/selector.py:22 | two different group/name pairs share the bucket key `group:name` when a part contains ':' |
| Selector.NewestFirst | app/services/selector.py:20 | the ledger is reordered, without loss or gain of records, into timestamp-descending order |
| Selector.Bucket | app/services/selector.py:18-24 | a key's bucket holds exactly the records whose `group:name` is that key |
| Selector.BucketNewestFirst | app/services/selector.py:18-24 | each bucket of the newest-first rows is itself timestamp-descending |
| Selector.HistoryLookup | app/services/selector.py:18-24 | the dict built by the loop maps every key to its newest-first bucket, and only keys with records are present |
| Selector.BuildLookup | app/services/selector.py:21-23 | after the loop every key maps to its rows in row order, and no key maps to an empty list |
| Selector.LookupAppend | app/services/selector.py:22-23 | appending a row to its own key's list keeps the whole dict equal to the per-key row lists |
| Selector.BucketAppend | app/services/selector.py:22-23 | one more row lengthens only its own key's list, by that row |
| Selector.LastSeenDays | app/services/selector.py:29-35 | 999 without records, otherwise max(days since the newest record, 1); always at least 1 |
| Selector.Recency | app/services/selector.py:48 | the recency term lies in (0, 1] |
| Selector.Streak | app/services/selector.py:36-41 | the streak is the length of the longest all-completed prefix of the newest-first records |
| Selector.StreakZero | app/services/selector.py:37-41 | the streak is 0 exactly when there is no record or the newest one is not completed |
| Selector.Difficulties | app/services/selector.py:42 | only truthy difficulties of the records are kept, at most one per record |
| Selector.DifficultiesKept | app/services/selector.py:42 | every truthy difficulty of a record is kept |
| Selector.DifficultiesConcat | app/services/selector.py:42 | the difficulties of a concatenation are the concatenation of the difficulties, so order is kept |
| Selector.DifficultiesSingle | app/services/selector.py:42 | one record contributes its difficulty exactly when it is present and non-zero |
| Selector.DifficultyBiasBounds | app/services/selector.py:42-45 | with recorded difficulties in 1..5 the bias lies in [-1, 1] |
| Selector.ScoreItem | app/services/selector.py:26-49 | the loop with its streak counter and break computes importance*2 + 1/last_seen_days - streak + bias over the item's bucket |
| Selector.NeverSeenScore | app/services/selector.py:29-48 | an item without history scores importance*2 + 1/999 |
| Selector.RecencyShrinksWithAge | app/services/selector.py:34-48 | an older newest record gives a recency term no larger than a more recent one |
| Selector.ImportanceRaisesScore | app/services/selector.py:47-48 | with the same records, higher importance gives a strictly higher score |
| Selector.UnmatchedKeyHasNoCount | app/services/selector.py:55-77 | a key containing no keyword is not a key of `pick_counts`, so the default 1 applies |
| Selector.KeysContainKeywords | app/services/selector.py:55-75 | each key of `pick_counts` contains the keyword that selects it ("fundamentals" contains "fundamental") |
| Selector.Quota | app/services/selector.py:67-77 | the quota is 3 when the lower-cased group name contains "fundamental", otherwise 1 |
| Selector.HabitsQuota | app/services/selector.py:67-77 | the group "Habits" gets quota 1 |
| Selector.ScoredItems | app/services/selector.py:78-81 | one scored entry per item, in catalog order, carrying its score and position |
| Selector.RanksBeforeTotal | app/services/selector.py:82 | the descending-by-score order with ties broken by catalog position is a total preorder |
| Selector.Ranked | app/services/selector.py:82 | the ranking is a permutation of the scored items, in descending score, with ties in catalog order |
| Selector.Chosen | app/services/selector.py:84 | min(quota, number of items) items are chosen |
| Selector.PickEntries | app/services/selector.py:85-91 | one entry per chosen item, in ranking order, with the group name and the fallback reason |
| Selector.GroupPicks | app/services/selector.py:78-91 | a group contributes min(quota, number of items) entries, all with its name and the fallback reason |
| Selector.GroupPicksAreTopRanked | app/services/selector.py:78-91 | each pick is the ranking's item at that position and belongs to the group, and no unpicked item scores higher than a picked one |
| Selector.RankedItemsInCatalog | app/services/selector.py:78-82 | sorting the scored list only reorders it: every ranked item is an item of the group |
| Selector.ScoreGroup | app/services/selector.py:78-81 | the scoring loop yields the scored items of the group |
| Selector.ScoreWith | app/services/selector.py:27-28 | scoring through the history dict equals scoring over the rows the dict was built from |
| Selector.PickGroup | app/services/selector.py:67-91 | the loop over the chosen items yields the group's picks |
| Selector.EntriesOf | app/services/selector.py:85-91 | one fallback entry per chosen item, in ranking order |
| Selector.PlanGroup | app/services/selector.py:62-101 | one pass of the group loop: nothing for an empty group, else its picks then the rotation entry when it fires |
| Selector.RotationForced | app/services/selector.py:93-101 | when the rotation fires, the group has exactly one item and nothing was planned before it, so `random.choice` has one outcome and repeats the only pick |
| Selector.RotationShape | app/services/selector.py:84-94 | the rotation can only fire when the group has one item and nothing was planned before it, since the quota of "fundamentals" is 3 |
| Selector.SingleItemPicks | app/services/selector.py:78-91 | a one-item group picks exactly its item, as a fallback entry |
| Selector.PlanStepContribution | app/services/selector.py:62-101 | the plan after a group extends the plan before it by the picks and at most one rotation entry |
| Selector.Generate | app/services/selector.py:51-102 | the group loop yields the fallback plan over the newest-first history |
| Selector.SelectWithFallback | app/services/selector.py:105-106 | the entry point yields the fallback plan |
| Selector.HabitsScenario | app/services/selector.py:51-102 | a "Habits" group with Walk (importance 2) and Read (1) and no history plans Walk alone |
| AiSelector.ReplaceChar | app/core/ai_selector.py:76 | `replace` of one character keeps the length and substitutes exactly the occurrences |
| AiSelector.TitleChar | app/core/ai_selector.py:76 | one character of `title()`: the same letter in upper case at a word start and lower case inside a word; non-letters unchanged |
| AiSelector.Title | app/core/ai_selector.py:76 | `title()` keeps length and letters; a letter is upper case exactly when it follows a non-letter or starts the string |
| AiSelector.FormatModuleTitle | app/core/ai_selector.py:75-76 | no '-' or '_' remains, each of them becomes a space, and letters keep their identity up to case |
| AiSelector.TitleIdempotent | app/core/ai_selector.py:76 | title-casing twice equals title-casing once |
| AiSelector.FormatModuleTitleIdempotent | app/core/ai_selector.py:75-76 | formatting a formatted title changes nothing |
| AiSelector.FormatModuleTitleExample | app/core/ai_selector.py:75-76 | "two-sum_2nd" becomes "Two Sum 2Nd": a letter after a digit starts a word |
| AiSelector.SeparatorsExample | app/core/ai_selector.py:76 | "two-sum_2nd" has both separators replaced by spaces |
| AiSelector.TitleExample | app/core/ai_selector.py:76 | `title` upper-cases the letter after a digit: "two sum 2nd" becomes "Two Sum 2Nd" |
| AiSelector.CleanTask | app/core/ai_selector.py:156-179 | name and group are copied; task_type is copied when truthy and is "todo" otherwise; coding tasks keep a truthy problem_text and take todo_text when it is falsy; code_template, todo_text, importance, difficulty_estimate, reason and url are copied; a truthy metadata is copied and a falsy one becomes {} |
| AiSelector.CleanTasks | app/core/ai_selector.py:152-180 | no more cleaned tasks than entries, and every cleaned task has a truthy name and group |
| AiSelector.CleanTasksConcat | app/core/ai_selector.py:153-180 | cleaning works entry by entry in reply order: the cleaned list of a concatenation is the concatenation of the cleaned lists |
| AiSelector.CleanTasksSingle | app/core/ai_selector.py:153-180 | one entry is kept, cleaned, exactly when it is a dict with a truthy name and group |
| AiSelector.CleanTasksEmpty | app/core/ai_selector.py:153-183 | nothing survives exactly when no entry is kept |
| AiSelector.CleanTasksDropsNameless | app/core/ai_selector.py:153-180 | of three entries, the nameless one is dropped, order is kept, and the defaults apply |
| AiSelector.CleanTasksSkipsMiddle | app/core/ai_selector.py:153-180 | a dropped entry between two others leaves exactly the other two cleaned tasks, in reply order |
| AiSelector.SummaryOf | app/core/ai_selector.py:185-187 | falsy notes give "", string notes are kept as they are |
| AiSelector.Shape | app/core/ai_selector.py:144-189 | ValueError for a non-object and for a missing or non-list `tasks`; a list with no kept entry gives the "no valid tasks" ValueError; success exactly when some entry is kept, with the cleaned tasks and notes |
| AiSelector.ValidateShape | app/core/ai_selector.py:144-189 | the validation loop returns what `Shape` specifies, error cases included |
| AiSelector.Notes | app/core/ai_selector.py:210-214 | k failures add exactly k correction notes |
| AiSelector.RetriedFirstSuccess | app/core/ai_selector.py:205-207 | the first successful attempt's reply is returned, whatever later attempts would give |
| AiSelector.RetriedAllFail | app/core/ai_selector.py:205-217 | when every attempt fails the last error is raised, and RuntimeError when there was no attempt |
| AiSelector.RequestWithRetries | app/core/ai_selector.py:202-217 | at most retries+1 calls; attempt k sends the caller's messages plus k notes; all calls before the last failed; success returns the last reply; failure means every attempt was used |
| AiSelector.GuardedSelection | app/core/ai_selector.py:237-243 | the reply is used when the request succeeds and validates, otherwise the fallback plan with the failure note; a reply that fails validation is not retried |
| AiSelector.Generate | app/core/ai_selector.py:219-243 | disabled AI or no client gives the fallback with the disabled note; otherwise the outcome of the guarded block |
| AiSelector.GenerateAsWritten | app/core/ai_selector.py:226-231 | as written, the enabled path raises the TypeError of the argument-less prompt call before the guarded block |
| AiSelector.GenerateForModuleAsWritten | app/core/ai_selector.py:245-257 | as written: RuntimeError when AI is unavailable; otherwise the UnicodeDecodeError of a prompt bundle that is not UTF-8 (the system prompt, line 256, loads it at line 85), and else the AttributeError for `settings.time_budget`, raised while the module payload is built (lines 133-138) and before any request |
| AiSelector.GenerateForModule | app/core/ai_selector.py:245-265 | as intended, with the payload built from settings that exist: RuntimeError when AI is unavailable; otherwise the decode error of the prompt bundle, the request error, the validation error, or the validated reply, with no fallback |
| Scheduler.Snap | app/core/scheduler.py:23-33 | date, name and group always; completed and difficulty only for ledger rows; url only for task rows |
| Scheduler.SerializeHistory | app/core/scheduler.py:20-35 | one serialised entry per row, in row order; the result is the payload function `Serialized` of the rows |
| Scheduler.HistoryWindow | app/core/scheduler.py:41-46 | exactly the ledger records dated from the window start, each as often as in the ledger (a permutation of the filtered ledger), date-descending |
| Scheduler.RecentWindow | app/core/scheduler.py:47-52 | exactly the task rows dated from the window start, each as often as in the table (a permutation of the filtered table), date-descending |
| Scheduler.Flatten | app/core/scheduler.py:39 | the catalog's group dicts, all of them, file after file |
| Scheduler.FlattenConcat | app/core/scheduler.py:39 | flattening goes file after file: a concatenation of listings flattens to the concatenation, in order |
| Scheduler.FlattenSingle | app/core/scheduler.py:39 | one file contributes exactly its groups, in file order |
| Scheduler.Catalog | app/core/scheduler.py:39 | the selector's groups are the flattened group dicts read one by one, in order |
| Scheduler.PlanFor | app/core/scheduler.py:39-54 | the plan is `DailyPlan`: with AI off the fallback over the catalog; with AI on the guarded AI run on the prompt built from the serialised windows starting `task_sample_days` before today |
| Scheduler.FallbackOverDict | app/services/selector.py:62-63 | iterating the loader's dict as a group list succeeds only for an empty catalog, and then plans nothing |
| Scheduler.RowOf | app/core/scheduler.py:61-67 | the inserted row is dated today and copies name, group and url, with extra = {"reason": reason} |
| Scheduler.CreatedRows | app/core/scheduler.py:59-69 | one row per planned task, in plan order, with consecutive ids, all dated today |
| Scheduler.CreateRows | app/core/scheduler.py:59-69 | the loop builds exactly `CreatedRows`: one row per planned task, in plan order, with consecutive ids |
| Scheduler.ReplaceSpec | app/core/scheduler.py:57-69 | after the wipe and insert, the day's rows are exactly the inserted rows and rows of other days are untouched |
| Scheduler.ReplaceTwice | app/core/scheduler.py:57-69 | a second run leaves only the second plan's rows for the day, not both runs' rows |
| Scheduler.TaskTable.GenerateDailyTasks | app/core/scheduler.py:38-72 | a load failure changes nothing; otherwise today's rows become the plan's rows and nothing else changes; the plan is the fallback over the loaded catalog with AI off and the guarded AI run over the old rows' window with AI on |
| Scheduler.TaskTable.Commit | app/core/scheduler.py:56-71 | today's old rows are deleted, the new rows added, everything else kept, and ids advance by the number added |
| Scheduler.TaskTable.GenerateDailyTasksAsWritten | app/core/scheduler.py:38-72 | as written every run raises before the commit, so the table never changes |
| Scheduler.TaskTable.EnsureToday | app/main.py:29-31 | nothing changes when a row for today exists or the catalog fails to load; otherwise today's rows are replaced by the `CreatedRows` of the day's plan, with ids from the old counter |
| Loader.CheckItem | app/services/loader.py:15-16 | a dict item passes exactly when it has "name" and "importance", else the item error |
| Loader.CheckItems | app/services/loader.py:14-16 | no error exactly when every item passes; an error is the first failing item's |
| Loader.ValidateGroup | app/services/loader.py:9-17 | missing keys and a non-list `items` raise their ValueErrors; success returns the input unchanged; a well-formed group passes |
| Loader.ValidateGroupDict | app/services/loader.py:9-17 | a dict group whose items are dicts passes exactly when it is well formed |
| Loader.ValidateEntries | app/services/loader.py:29-31 | a list document succeeds exactly when every group validates, returning the groups unchanged |
| Loader.ValidateEntriesStops | app/services/loader.py:30-31 | the first invalid group decides the error |
| Loader.FileEntries | app/services/loader.py:25-33 | null gives nothing, a list its validated groups, a dict itself alone, anything else nothing |
| Loader.Assign | app/services/loader.py:35 | assigning a key stores the pair and keeps every other pair and key distinctness |
| Loader.LoadAll | app/services/loader.py:20-36 | the result has distinct stems, each with a non-empty group list |
| Loader.LoadAllOk | app/services/loader.py:20-36 | the load succeeds exactly when every document yields its entries |
| Loader.LoadAllLast | app/services/loader.py:23-35 | the load over files succeeds exactly when the load over all but the last succeeds and the last file yields its entries |
| Loader.LoadAllStops | app/services/loader.py:23-33 | the first failing document decides the error |
| Loader.LoadAllAborts | app/services/loader.py:29-33 | one invalid group in any file aborts the whole load |
| Loader.LoadAllSkipsEmpty | app/services/loader.py:26-35 | a null, scalar or empty-list document adds no stem |
| Loader.LoadAllDict | app/services/loader.py:32-35 | a valid dict document is stored as a one-group list under its stem |
| Loader.LoadAllStores | app/services/loader.py:28-35 | a file whose validated entries are non-empty is stored, as that list, under its stem |
| Loader.LoadAllList | app/services/loader.py:29-31 | a non-empty list document of valid groups is stored as its list of groups under its stem |
| Loader.CollectEntries | app/services/loader.py:25-33 | the per-document loop yields the document's entries or its first error |
| Loader.LoadConfigs | app/services/loader.py:20-36 | the file loop returns the mapping `LoadAll` specifies, or the first error |
| TasksApi.CheckDifficulty | app/api/tasks.py:20 | a difficulty is accepted exactly when it lies in 1..5; below 1 and above 5 give the two bound messages |
| TasksApi.DoneDifficulty | app/api/tasks.py:16-20 | an absent difficulty is accepted; a present one exactly when it lies in 1..5 |
| TasksApi.FeedbackDifficulty | app/api/tasks.py:23-27 | the difficulty is accepted exactly when present and in 1..5; a missing one gives "field required" |
| TasksApi.AnsweredTaskId | app/api/tasks.py:52-65 | the answered id is the payload's when truthy, else None |
| TasksApi.HistoryLedger.MarkDone | app/api/tasks.py:50-65 | a valid request appends exactly one completed record for today with the payload's fields; a rejected one changes nothing |
| TasksApi.HistoryLedger.Feedback | app/api/tasks.py:68-80 | a valid request appends exactly one not-completed record with the given difficulty; a rejected one changes nothing |
| TasksApi.AppendNewest | app/api/tasks.py:55-64 | a record appended with the newest timestamp heads its key's bucket, before the old bucket |
| TasksApi.FeedbackResetsStreak | app/api/tasks.py:68-80 | after feedback with the newest timestamp, that item's streak is 0 |
| TasksApi.DoneExtendsStreak | app/api/tasks.py:50-65 | after a completion with the newest timestamp, that item's streak grows by one, and it was last seen 1 day ago |
| TasksApi.ItemOf | app/api/tasks.py:36-45 | a listed task copies id, name and url, and reason, action and difficulty_estimate from `extra`; a truthy metadata is copied and a falsy one becomes {} |
| TasksApi.AddTo | app/api/tasks.py:34-36 | a known group keeps its place and a new group is added last, once |
| TasksApi.AddToItems | app/api/tasks.py:36 | appending grows only the key's list, by the item; every other group's list is unchanged |
| TasksApi.AddToDistinct | app/api/tasks.py:34-36 | appending never creates a second list for the same group |
| TasksApi.Grouped | app/api/tasks.py:34-46 | the grouping has distinct group keys |
| TasksApi.GroupedBucket | app/api/tasks.py:34-46 | each group's list is exactly that group's rows, listed in row order |
| TasksApi.GroupedBuckets | app/api/tasks.py:34-46 | for every group key at once, its list is exactly that group's rows in row order |
| TasksApi.GroupRows | app/api/tasks.py:35-46 | the loop over today's rows builds the grouping row after row |
| TasksApi.GetToday | app/api/tasks.py:30-47 | only today's rows are listed, each group holding its rows in row order |
| TasksApi.History | app/api/tasks.py:83-101 | the listing is the views of a permutation of the window's records (every record in the window once, nothing else), date-descending |
| TasksApi.HistoryWindow | app/api/tasks.py:83-101 | every record of the window is listed, and every listed entry is such a record |
| PromptLoader.ByNameTotal | app/services/prompt_loader.py:13 | file-name order is a total preorder |
| PromptLoader.TemplateFiles | app/services/prompt_loader.py:13 | exactly the .md and .txt files, in one combined name order |
| PromptLoader.Readable | app/services/prompt_loader.py:14-18 | files whose read raises OSError are skipped, and all files count when all are read |
| PromptLoader.ReadableSingle | app/services/prompt_loader.py:14-18 | one file contributes its text when it is read and nothing otherwise |
| PromptLoader.ReadableConcat | app/services/prompt_loader.py:14-18 | files are read one by one, in order |
| PromptLoader.Find | app/services/prompt_loader.py:20 | the examples file is found exactly when an entry has its name |
| PromptLoader.ExamplesPart | app/services/prompt_loader.py:20-25 | at most one examples part, prefixed with "Examples:\n" |
| PromptLoader.Kept | app/services/prompt_loader.py:27 | the emptiness test comes before stripping: all-empty parts keep nothing, all-non-empty parts keep all |
| PromptLoader.JoinAppend | app/services/prompt_loader.py:27 | one more part adds a separator and the part, unless it is the first |
| PromptLoader.JoinPartsAppend | app/services/prompt_loader.py:27 | a non-empty part adds its stripped text after a separator |
| PromptLoader.JoinPartsSkipsEmpty | app/services/prompt_loader.py:27 | an empty part adds nothing, separator included |
| PromptLoader.JoinPartsEmpty | app/services/prompt_loader.py:27 | with no non-empty part the bundle is "" |
| PromptLoader.WhitespacePartLeavesEmptySegment | app/services/prompt_loader.py:27 | a whitespace-only file leaves an empty segment between two separators |
| PromptLoader.ReadTemplates | app/services/prompt_loader.py:14-18 | the read loop collects the read files' texts in order, and fails with UnicodeDecodeError exactly when some file is not UTF-8 |
| PromptLoader.PromptText | app/services/prompt_loader.py:7-27 | a missing directory gives ""; UnicodeDecodeError exactly when a template or the examples file is not UTF-8; otherwise the joined parts |
| PromptLoader.LoadPromptTemplates | app/services/prompt_loader.py:7-27 | the loader computes exactly `PromptText` |
| Avatars.FirstExisting | app/services/avatar_picker.py:13-17 | the first existing path in list order, or None exactly when none exists |
| Avatars.GetAvatarFile | app/services/avatar_picker.py:7-17 | avatars.yaml is preferred over avatars.yml, and None when neither exists |
| Avatars.LoadAvatars | app/services/avatar_picker.py:20-28 | [] without a file or when the document is not a list, else the list |
| Avatars.Matches | app/services/avatar_picker.py:54 | a non-dict avatar raises AttributeError; no categories never matches; a category list matches when some category's lowered text contains the group |
| Avatars.Filtered | app/services/avatar_picker.py:51-55 | the matching avatars, in list order, or the error the comprehension raises |
| Avatars.PickAvatarForGroup | app/services/avatar_picker.py:46-56 | None exactly for no avatars; otherwise a member of the list, and success exactly when every avatar can be tested |
| Avatars.FilteredFirst | app/services/avatar_picker.py:51-56 | the first match in list order heads the filtered list |
| Avatars.PickFirstMatch | app/services/avatar_picker.py:46-56 | the first matching avatar in list order is picked |
| Avatars.PickDefault | app/services/avatar_picker.py:56 | with no match, the first avatar is picked |
| Avatars.QuotePool | app/services/avatar_picker.py:59-62 | None exactly when the avatar is not a dict or its quotes are missing or empty |

## Left out

- The model call is an oracle. The OpenAI client and `json.loads` (`_call_model`) are not modelled.
- The schema constants and the payload builders `_build_system_prompt`, `_build_user_payload` and `_build_module_payload` are not modelled. They become the `prompt` parameter; for `generate_for_module` it receives the prompt bundle that `PromptLoader.LoadPromptTemplates` loads, and the bundle's decode error is modelled. `_build_user_payload` (app/core/ai_selector.py:108-113) and `_build_module_payload` (app/core/ai_selector.py:133-138) read settings fields (`time_budget`, `task_limits`, `avoid_days`, `max_items`) that the settings class (app/core/config.py:6-12) does not define. For `generate` that is a second reason the enabled path raises, after the one in Findings. For `generate_for_module` it is the finding `AiSelector.GenerateForModuleAsWritten`; `AiSelector.GenerateForModule` models the run the code evidently intends.
- `start_scheduler` and the APScheduler job are timer and thread plumbing and are not modelled. So are the rest of app/main.py, app/api/admin.py and scripts/test_module_ai.py.
- `pick_avatar_for_day`, `pick_random_avatar` and the `random.choice` of a quote draw random numbers and are not modelled. `QuotePool` gives the pool the choice draws from.
- Scores are exact `real` numbers, not IEEE doubles. Dates are day numbers, not calendar dates, and `str(date)` rendering is not modelled.
- `Selector.Difficulties`: Python's sum of ints and floats is modelled for integer difficulties only, matching the ORM column type.
- `Sorting.Query`: `ORDER BY ... DESC` leaves the order of equal keys unspecified. The model fixes one order, so the windows' date ties are not modelled as free.
- `Text.Lower`: case mapping and `title()` are modelled for ASCII letters only. Other characters are left unchanged and count as non-letters.
- `Avatars.CategoryMatches`: `str()` of a float, list or dict category is not modelled, and such a category never matches. `AiSelector.Summary` keeps such summary notes as a `Rendered` value instead of their text.
- YAML parsing and the directory listing are not modelled. Documents arrive parsed, and files arrive in listing order.
- `Scheduler.Catalog`: the reading of a group dict into typed items (`group_data.get`, `item.get`) is the total `readGroup` parameter. The loader checks only that keys are present (app/services/loader.py:9-17), so in the source a validated group can still raise while it is read: a non-string `group` at `group_name.lower()` (app/services/selector.py:67), a non-numeric `importance` at app/services/selector.py:48. The model has no such error, so `Scheduler.TaskTable.GenerateDailyTasks` replaces today's rows also for catalogs on which the source raises and commits nothing.
- `Selector.NewestFirst`: `order_by(TaskHistory.timestamp.desc())` (app/services/selector.py:20) leaves records with equal timestamps in an unspecified order. The model fixes one order, which decides the newest record and the streak of a key with two records at one timestamp.
- `Scheduler.TaskTable.Commit`: ids come from a counter that never goes back. SQLite gives an `INTEGER PRIMARY KEY` without AUTOINCREMENT (app/models/task.py:10) the largest id in the table plus one, so after today's rows are deleted the new rows can reuse their ids; that reuse is not modelled.
- `Scheduler.RowOf`: the row's name, group and url are copied as any JSON value. In the source, a list or dict value (which reply validation lets through, app/core/ai_selector.py:156-159) cannot be bound by SQLite, so `session.commit()` (app/core/scheduler.py:71) raises and the table keeps its rows; a number is stored and read back as text. Neither the commit failure nor the text coercion is modelled.
- `TasksApi.ItemOf`: a non-dict `extra` is not modelled. `extra` is always a mapping.
- The `today_entry` lookup in `mark_done` only affects the answer when `task_id` is falsy, and then it is never run. It is not modelled beyond `AnsweredTaskId`.
- Pydantic's full error payloads (location lists, error types, context) are not modelled. Only the message of a missing or out-of-range difficulty is, in pydantic v1's wording.
- `TasksApi.FeedbackDifficulty`: an explicit `null` difficulty, which pydantic v1 rejects with "none is not an allowed value", is treated like a missing one ("field required"). The request body is modelled as an optional integer, which cannot tell the two apart.
- `PromptLoader.LoadPromptTemplates`: the UnicodeDecodeError message is a fixed prefix; the offending byte and its position are not modelled.
- `Scheduler.TaskTable.GenerateDailyTasks`: `now` plays no part. The session's rollback on a raised error is modelled as the table keeping its committed state.

## Findings

| source | as written | input that shows it | evidently intended | confidence | as-written member | corrected member |
|---|---|---|---|---|---|---|
| app/core/ai_selector.py:230-231 | `generate` calls `_build_system_prompt()` with no arguments, before the `try` | any call with `use_ai` true and a client configured: TypeError, and the fallback is never reached | build the prompt and run retries, validation and fallback as the guarded block | not executed | AiSelector.GenerateAsWritten | AiSelector.Generate |
| app/core/ai_selector.py:133-138 | `_build_module_payload`, called by `generate_for_module` (line 257), reads `settings.time_budget`, `task_limits`, `avoid_days` and `max_items`, which `Settings` (app/core/config.py:6-12) does not declare | any call with `use_ai` true, a client configured and a prompt bundle that loads (for example no prompt directory): AttributeError before any request is sent | build the payload from the settings that exist, then request, validate and return the reply | not executed | AiSelector.GenerateForModuleAsWritten | AiSelector.GenerateForModule |
| app/core/scheduler.py:39 | the dict from `load_configs` is passed where the selector iterates a list of group dicts (app/services/selector.py:62-63) | any non-empty catalog with AI off: `'str' object has no attribute 'get'` | hand the selector the catalog's group dicts in order | not executed | Scheduler.FallbackOverDict | Scheduler.Flatten |
| app/core/scheduler.py:54-60 | the `(tasks, notes, raw)` triple from `generate` is iterated as the task list | an empty catalog with AI off: the first item is the list `[]`, which has no `get`; nothing is committed | iterate the tasks component and insert one row per task | not executed | Scheduler.TaskTable.GenerateDailyTasksAsWritten | Scheduler.TaskTable.GenerateDailyTasks |
