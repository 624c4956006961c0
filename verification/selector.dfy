/**
 * The deterministic fallback selector (app/services/selector.py): history bucketed by
 * "group:name", one score per catalog item, a keyword quota per group and the rotation top-up.
 */
module Selector {
  import opened Wrappers
  import opened Text
  import Sorting
  import opened Models

  /** A catalog item as the selector reads it: `name`, `importance` (default 1), `url`. */
  datatype CatalogItem = CatalogItem(name: string, importance: Option<real>, url: Option<string>)

  /** A catalog group: `group` (default "Unknown") and its `items`. */
  datatype CatalogGroup = CatalogGroup(group: Option<string>, items: seq<CatalogItem>)

  /** One planned task of the fallback plan. */
  datatype PlanEntry = PlanEntry(name: string, group: string, url: Option<string>, reason: string)

  const FallbackReason: string := "Fallback selector based on recency/importance"
  const RotationReason: string := "Added for rotation"
  /** `last_seen_days` of an item with no history. */
  const NeverSeenDays: int := 999

  function GroupName(g: CatalogGroup): string {
    g.group.GetOr("Unknown")
  }

  function Min(a: int, b: int): int {
    if a <= b then a else b
  }

  // ---------------------------------------------------------------------------
  // History lookup

  /** The bucket key `f"{group}:{name}"`. */
  function Key(group: string, name: string): string {
    group + ":" + name
  }

  function RecordKey(r: HistoryRecord): string {
    Key(r.group, r.name)
  }

  /** Distinct group/name pairs can share a bucket when a part contains ':'. */
  lemma KeyCollision()
    ensures ("a:b", "c") != ("a", "b:c") && Key("a:b", "c") == Key("a", "b:c")
  {
  }

  function Timestamp(r: HistoryRecord): int {
    r.timestamp
  }

  function KeyIs(key: string): HistoryRecord -> bool {
    r => RecordKey(r) == key
  }

  /** The rows of `SELECT * FROM task_history ORDER BY timestamp DESC`. */
  function NewestFirst(ledger: seq<HistoryRecord>): (rows: seq<HistoryRecord>)
    ensures multiset(rows) == multiset(ledger)
    ensures forall i, j :: 0 <= i < j < |rows| ==> rows[i].timestamp >= rows[j].timestamp
  {
    Sorting.OrderByDesc(ledger, Timestamp)
  }

  /** The records of one key among `rows`, in the order of `rows`. */
  function Bucket(rows: seq<HistoryRecord>, key: string): (b: seq<HistoryRecord>)
    ensures forall r :: r in b <==> r in rows && RecordKey(r) == key
  {
    Sorting.Where(rows, KeyIs(key))
  }

  /** A bucket of the newest-first rows is itself newest first. */
  lemma BucketNewestFirst(ledger: seq<HistoryRecord>, key: string)
    ensures forall i, j :: 0 <= i < j < |Bucket(NewestFirst(ledger), key)| ==>
      Bucket(NewestFirst(ledger), key)[i].timestamp >= Bucket(NewestFirst(ledger), key)[j].timestamp
  {
    var rows := NewestFirst(ledger);
    Sorting.WhereSorted(rows, KeyIs(key), Sorting.DescBy(Timestamp));
    var b := Bucket(rows, key);
    forall i, j | 0 <= i < j < |b| ensures b[i].timestamp >= b[j].timestamp {
      assert Sorting.DescBy(Timestamp)(b[i], b[j]);
    }
  }

  /** Appending a record adds it to its own bucket only. */
  lemma BucketAppend(rows: seq<HistoryRecord>, row: HistoryRecord, key: string)
    ensures Bucket(rows + [row], key) == Bucket(rows, key) + (if RecordKey(row) == key then [row] else [])
  {
    assert (rows + [row])[..|rows|] == rows;
  }

  type HistoryMap = map<string, seq<HistoryRecord>>

  /** `history_map.get(key, [])` */
  function Lookup(m: HistoryMap, key: string): seq<HistoryRecord> {
    if key in m then m[key] else []
  }

  /** `_history_lookup`: every key's records, newest first; only keys with records are present. */
  method HistoryLookup(ledger: seq<HistoryRecord>) returns (m: HistoryMap)
    ensures forall key :: Lookup(m, key) == Bucket(NewestFirst(ledger), key)
    ensures forall key :: key in m ==> m[key] != []
  {
    m := BuildLookup(NewestFirst(ledger));
  }

  /** The loop of `_history_lookup` over rows already in newest-first order. */
  method BuildLookup(rows: seq<HistoryRecord>) returns (m: HistoryMap)
    ensures forall key :: Lookup(m, key) == Bucket(rows, key)
    ensures forall key :: key in m ==> m[key] != []
  {
    m := map[];
    for i := 0 to |rows|
      invariant forall key :: Lookup(m, key) == Bucket(rows[..i], key)
      invariant forall key :: key in m ==> m[key] != []
    {
      var row := rows[i];
      var key := RecordKey(row);
      LookupAppend(m, rows[..i], row);
      m := m[key := Lookup(m, key) + [row]];
      assert rows[..i + 1] == rows[..i] + [row];
    }
    assert rows[..|rows|] == rows;
  }

  /** One step of `_history_lookup`: appending a row to its key's list keeps the map equal to the buckets. */
  lemma LookupAppend(m: HistoryMap, rows: seq<HistoryRecord>, row: HistoryRecord)
    requires forall key :: Lookup(m, key) == Bucket(rows, key)
    ensures var m' := m[RecordKey(row) := Lookup(m, RecordKey(row)) + [row]];
      forall key :: Lookup(m', key) == Bucket(rows + [row], key)
  {
    forall key ensures Lookup(m[RecordKey(row) := Lookup(m, RecordKey(row)) + [row]], key) == Bucket(rows + [row], key) {
      BucketAppend(rows, row, key);
    }
  }

  // ---------------------------------------------------------------------------
  // Scoring

  /** `max(days since the newest record, 1)`, or 999 without records. */
  function LastSeenDays(records: seq<HistoryRecord>, today: int): (d: int)
    ensures d >= 1
    ensures records == [] ==> d == NeverSeenDays
    ensures records != [] ==> d >= today - records[0].date && (d == 1 || d == today - records[0].date)
  {
    if records == [] then NeverSeenDays
    else
      var delta := today - records[0].date;
      if delta >= 1 then delta else 1
  }

  /** The recency term `1 / last_seen_days`. */
  function Recency(records: seq<HistoryRecord>, today: int): (r: real)
    ensures 0.0 < r <= 1.0
  {
    1.0 / LastSeenDays(records, today) as real
  }

  /** The length of the longest all-completed prefix of the newest-first records. */
  function Streak(records: seq<HistoryRecord>): (n: nat)
    ensures n <= |records|
    ensures forall i :: 0 <= i < n ==> records[i].completed
    ensures n < |records| ==> !records[n].completed
  {
    if records == [] || !records[0].completed then 0 else 1 + Streak(records[1..])
  }

  /** `[r.difficulty for r in records if r.difficulty]` */
  function Difficulties(records: seq<HistoryRecord>): (ds: seq<int>)
    ensures |ds| <= |records|
    ensures forall d :: d in ds ==> d != 0 && exists r :: r in records && r.difficulty == Some(d)
  {
    if records == [] then []
    else
      var rest := Difficulties(records[1..]);
      assert forall r :: r in records[1..] ==> r in records;
      match records[0].difficulty
      case Some(d) => if d != 0 then [d] + rest else rest
      case None => rest
  }

  /** Every truthy difficulty of the records is collected. */
  lemma {:induction false} DifficultiesKept(records: seq<HistoryRecord>)
    ensures forall r :: r in records && r.difficulty.Some? && r.difficulty.value != 0 ==>
      r.difficulty.value in Difficulties(records)
  {
    if records != [] {
      DifficultiesKept(records[1..]);
      assert forall r :: r in records ==> r == records[0] || r in records[1..];
    }
  }

  /** Difficulties are collected record by record, in record order. */
  lemma {:induction false} DifficultiesConcat(a: seq<HistoryRecord>, b: seq<HistoryRecord>)
    ensures Difficulties(a + b) == Difficulties(a) + Difficulties(b)
  {
    if a == [] {
      assert a + b == b;
    } else {
      assert (a + b)[0] == a[0];
      assert (a + b)[1..] == a[1..] + b;
      DifficultiesConcat(a[1..], b);
    }
  }

  /** One record contributes its difficulty exactly when the difficulty is truthy. */
  lemma DifficultiesSingle(r: HistoryRecord)
    ensures Difficulties([r]) == if r.difficulty.Some? && r.difficulty.value != 0 then [r.difficulty.value] else []
  {
    assert [r][1..] == [];
  }

  function Sum(xs: seq<int>): int {
    if xs == [] then 0 else xs[0] + Sum(xs[1..])
  }

  /** `(mean(difficulties) - 3) * 0.5`, or 0 without difficulties. */
  function DifficultyBias(records: seq<HistoryRecord>): real {
    var ds := Difficulties(records);
    if ds == [] then 0.0 else (Sum(ds) as real / |ds| as real - 3.0) * 0.5
  }

  /** `item.get("importance", 1)` */
  function Importance(item: CatalogItem): real {
    item.importance.GetOr(1.0)
  }

  /** `importance*2 + 1/last_seen_days - streak + difficulty_bias` over the item's newest-first records. */
  function ItemScore(item: CatalogItem, records: seq<HistoryRecord>, today: int): real {
    Importance(item) * 2.0 + Recency(records, today) - Streak(records) as real + DifficultyBias(records)
  }

  /** `_score_item` */
  method ScoreItem(item: CatalogItem, group: string, historyMap: HistoryMap, today: int) returns (score: real)
    ensures score == ItemScore(item, Lookup(historyMap, Key(group, item.name)), today)
  {
    var records := Lookup(historyMap, Key(group, item.name));
    var lastSeenDays := NeverSeenDays;
    var successStreak := 0;
    var difficultyBias := 0.0;
    if records != [] {
      var delta := today - records[0].date;
      lastSeenDays := if delta >= 1 then delta else 1;
      var i := 0;
      while i < |records|
        invariant 0 <= i <= |records|
        invariant successStreak == i
        invariant forall j :: 0 <= j < i ==> records[j].completed
      {
        if records[i].completed {
          successStreak := successStreak + 1;
        } else {
          break;
        }
        i := i + 1;
      }
      var difficulties := Difficulties(records);
      if difficulties != [] {
        var avgDiff := Sum(difficulties) as real / |difficulties| as real;
        difficultyBias := (avgDiff - 3.0) * 0.5;
      }
    }
    var importance := Importance(item);
    score := importance * 2.0 + 1.0 / lastSeenDays as real - successStreak as real + difficultyBias;
  }

  /** With no records: `last_seen_days = 999`, no streak and no bias. */
  lemma NeverSeenScore(item: CatalogItem, today: int)
    ensures ItemScore(item, [], today) == Importance(item) * 2.0 + 1.0 / 999.0
  {
  }

  /** The recency term shrinks as the newest record gets older. */
  lemma RecencyShrinksWithAge(records: seq<HistoryRecord>, older: seq<HistoryRecord>, today: int)
    requires records != [] && older != []
    requires older[0].date <= records[0].date
    ensures Recency(older, today) <= Recency(records, today)
  {
    var d1 := LastSeenDays(records, today) as real;
    var d2 := LastSeenDays(older, today) as real;
    assert 0.0 < d1 <= d2;
    assert 1.0 / d1 - 1.0 / d2 == (d2 - d1) / (d1 * d2);
    assert (d2 - d1) / (d1 * d2) >= 0.0;
  }

  /** The streak is 0 exactly when the newest record is missing or not completed. */
  lemma StreakZero(records: seq<HistoryRecord>)
    ensures Streak(records) == 0 <==> records == [] || !records[0].completed
  {
  }

  lemma {:induction false} SumBounds(ds: seq<int>)
    requires forall d :: d in ds ==> 1 <= d <= 5
    ensures |ds| <= Sum(ds) <= 5 * |ds|
  {
    if ds != [] {
      assert ds[0] in ds;
      assert forall d :: d in ds[1..] ==> d in ds;
      SumBounds(ds[1..]);
    }
  }

  /** With recorded difficulties in 1..5 the bias lies in [-1, 1]. */
  lemma DifficultyBiasBounds(records: seq<HistoryRecord>)
    requires forall r :: r in records && r.difficulty.Some? ==> 1 <= r.difficulty.value <= 5
    ensures -1.0 <= DifficultyBias(records) <= 1.0
  {
    var ds := Difficulties(records);
    if ds != [] {
      forall d | d in ds ensures 1 <= d <= 5 {
        var r :| r in records && r.difficulty == Some(d);
      }
      SumBounds(ds);
      MeanBounds(Sum(ds) as real, |ds| as real);
    }
  }

  lemma MeanBounds(total: real, n: real)
    requires 0.0 < n && n <= total <= 5.0 * n
    ensures 1.0 <= total / n <= 5.0
  {
    assert total / n - n / n == (total - n) / n;
    assert (5.0 * n) / n - total / n == (5.0 * n - total) / n;
  }

  /** Everything else equal, higher importance scores strictly higher. */
  lemma ImportanceRaisesScore(a: CatalogItem, b: CatalogItem, records: seq<HistoryRecord>, today: int)
    requires Importance(a) > Importance(b)
    ensures ItemScore(a, records, today) > ItemScore(b, records, today)
  {
  }

  // ---------------------------------------------------------------------------
  // Per-group quota and ranking

  const PickCounts: map<string, nat> := map["fundamentals" := 3, "leetcode" := 1, "habits" := 1, "study" := 1]

  /** `pick_counts.get(key, default)` */
  function PickCount(key: string, default: nat): nat {
    if key in PickCounts then PickCounts[key] else default
  }

  /** A key that contains none of the keywords is none of `pick_counts`' keys. */
  lemma UnmatchedKeyHasNoCount(key: string)
    requires !Contains(key, "fundamental") && !Contains(key, "leetcode")
    requires !Contains(key, "habit") && !Contains(key, "study")
    ensures key !in PickCounts
  {
    KeysContainKeywords();
  }

  /** Each key of `pick_counts` contains the keyword that selects it. */
  lemma KeysContainKeywords()
    ensures Contains("fundamentals", "fundamental") && Contains("leetcode", "leetcode")
    ensures Contains("habits", "habit") && Contains("study", "study")
  {
    assert StartsWith("fundamentals", "fundamental");
    assert StartsWith("leetcode", "leetcode");
    assert StartsWith("habits", "habit");
    assert StartsWith("study", "study");
  }

  /** The quota: the first keyword the lower-cased group name contains decides it. */
  function Quota(groupName: string): (target: nat)
    ensures target == (if Contains(Lower(groupName), "fundamental") then 3 else 1)
  {
    var key := Lower(groupName);
    if Contains(key, "fundamental") then PickCount("fundamentals", 2)
    else if Contains(key, "leetcode") then PickCount("leetcode", 1)
    else if Contains(key, "habit") then PickCount("habits", 1)
    else if Contains(key, "study") then PickCount("study", 1)
    else
      UnmatchedKeyHasNoCount(key);
      PickCount(key, 1)
  }

  /** An item with its score and its position in the catalog. */
  datatype Scored = Scored(score: real, pos: nat, item: CatalogItem)

  /**
   * The order Python's stable descending sort by score leaves: higher score first,
   * equal scores in catalog order.
   */
  predicate RanksBefore(a: Scored, b: Scored) {
    a.score > b.score || (a.score == b.score && a.pos <= b.pos)
  }

  lemma RanksBeforeTotal()
    ensures Sorting.TotalPreorder(RanksBefore)
  {
  }

  /** The score of `item` of group `group` against the newest-first rows. */
  function ScoreOf(item: CatalogItem, group: string, rows: seq<HistoryRecord>, today: int): real {
    ItemScore(item, Bucket(rows, Key(group, item.name)), today)
  }

  /** `[(score(item), item) for item in items]`, with each item's position. */
  function ScoredItems(items: seq<CatalogItem>, group: string, rows: seq<HistoryRecord>, today: int): (s: seq<Scored>)
    ensures |s| == |items|
    ensures forall k :: 0 <= k < |s| ==> s[k] == Scored(ScoreOf(items[k], group, rows, today), k, items[k])
  {
    seq(|items|, k requires 0 <= k < |items| => Scored(ScoreOf(items[k], group, rows, today), k, items[k]))
  }

  /** `scored.sort(key=score, reverse=True)`: descending by score, ties in catalog order, nothing lost. */
  function Ranked(scored: seq<Scored>): (r: seq<Scored>)
    ensures multiset(r) == multiset(scored)
    ensures |r| == |scored|
    ensures forall i, j :: 0 <= i < j < |r| ==>
      r[i].score > r[j].score || (r[i].score == r[j].score && r[i].pos <= r[j].pos)
  {
    RanksBeforeTotal();
    Sorting.SortSorted(scored, RanksBefore);
    Sorting.Sort(scored, RanksBefore)
  }

  function Entry(item: CatalogItem, group: string, reason: string): PlanEntry {
    PlanEntry(item.name, group, item.url, reason)
  }

  /** The first `min(quota, #items)` items of the ranking. */
  function Chosen(g: CatalogGroup, rows: seq<HistoryRecord>, today: int): (chosen: seq<Scored>)
    ensures |chosen| == Min(Quota(GroupName(g)), |g.items|)
  {
    var ranked := Ranked(ScoredItems(g.items, GroupName(g), rows, today));
    ranked[..Min(Quota(GroupName(g)), |ranked|)]
  }

  /** One fallback entry per chosen item, in ranking order. */
  function PickEntries(chosen: seq<Scored>, group: string): (entries: seq<PlanEntry>)
    ensures |entries| == |chosen|
    ensures forall k :: 0 <= k < |chosen| ==> entries[k] == Entry(chosen[k].item, group, FallbackReason)
  {
    if chosen == [] then []
    else PickEntries(chosen[..|chosen| - 1], group) + [Entry(chosen[|chosen| - 1].item, group, FallbackReason)]
  }

  /** The entries for the first `min(quota, #items)` ranked items of a group. */
  function GroupPicks(g: CatalogGroup, rows: seq<HistoryRecord>, today: int): (picks: seq<PlanEntry>)
    ensures |picks| == Min(Quota(GroupName(g)), |g.items|)
    ensures forall e :: e in picks ==> e.group == GroupName(g) && e.reason == FallbackReason
  {
    PickEntries(Chosen(g, rows, today), GroupName(g))
  }

  /** The rotation top-up fires for a group named "fundamentals" while the plan has fewer than 2 entries. */
  predicate RotationFires(g: CatalogGroup, planSoFar: seq<PlanEntry>) {
    Lower(GroupName(g)) == "fundamentals" && |planSoFar| < 2
  }

  /** The plan after one more group. */
  function PlanStep(plan: seq<PlanEntry>, g: CatalogGroup, rows: seq<HistoryRecord>, today: int): seq<PlanEntry> {
    if g.items == [] then plan
    else
      var p := plan + GroupPicks(g, rows, today);
      if RotationFires(g, p) then p + [Entry(g.items[0], GroupName(g), RotationReason)] else p
  }

  /** The whole fallback plan, group after group, over newest-first rows. */
  function FallbackPlan(groups: seq<CatalogGroup>, rows: seq<HistoryRecord>, today: int): seq<PlanEntry> {
    if groups == [] then []
    else PlanStep(FallbackPlan(groups[..|groups| - 1], rows, today), groups[|groups| - 1], rows, today)
  }

  /** The `scored` list of `generate`: each item of the group with its score. */
  method ScoreGroup(items: seq<CatalogItem>, groupName: string, historyMap: HistoryMap,
                    ghost rows: seq<HistoryRecord>, today: int) returns (scored: seq<Scored>)
    requires forall key :: Lookup(historyMap, key) == Bucket(rows, key)
    ensures scored == ScoredItems(items, groupName, rows, today)
  {
    scored := [];
    for k := 0 to |items|
      invariant |scored| == k
      invariant forall j :: 0 <= j < k ==> scored[j] == Scored(ScoreOf(items[j], groupName, rows, today), j, items[j])
    {
      var s := ScoreWith(items[k], groupName, historyMap, rows, today);
      scored := scored + [Scored(s, k, items[k])];
    }
  }

  /** `score(item)` over the history map is the score over the rows the map was built from. */
  method ScoreWith(item: CatalogItem, groupName: string, historyMap: HistoryMap,
                   ghost rows: seq<HistoryRecord>, today: int) returns (s: real)
    requires forall key :: Lookup(historyMap, key) == Bucket(rows, key)
    ensures s == ScoreOf(item, groupName, rows, today)
  {
    s := ScoreItem(item, groupName, historyMap, today);
    assert Lookup(historyMap, Key(groupName, item.name)) == Bucket(rows, Key(groupName, item.name));
  }

  /** The fallback entries of one group: its top `quota` items, best first. */
  method PickGroup(g: CatalogGroup, historyMap: HistoryMap, ghost rows: seq<HistoryRecord>, today: int)
    returns (picks: seq<PlanEntry>)
    requires forall key :: Lookup(historyMap, key) == Bucket(rows, key)
    ensures picks == GroupPicks(g, rows, today)
  {
    var groupName := GroupName(g);
    var target := Quota(groupName);
    var scored := ScoreGroup(g.items, groupName, historyMap, rows, today);
    var ranked := Ranked(scored);
    var chosen := ranked[..Min(target, |ranked|)];
    assert chosen == Chosen(g, rows, today);
    picks := EntriesOf(chosen, groupName);
  }

  /** The loop of `generate` that appends one entry per chosen item. */
  method EntriesOf(chosen: seq<Scored>, groupName: string) returns (picks: seq<PlanEntry>)
    ensures picks == PickEntries(chosen, groupName)
  {
    picks := [];
    for c := 0 to |chosen|
      invariant picks == PickEntries(chosen[..c], groupName)
    {
      assert chosen[..c + 1][..c] == chosen[..c];
      picks := picks + [Entry(chosen[c].item, groupName, FallbackReason)];
    }
    assert chosen[..|chosen|] == chosen;
  }

  /** The body of `generate`'s loop over groups: the picks of one group, then the rotation top-up. */
  method PlanGroup(plan: seq<PlanEntry>, g: CatalogGroup, historyMap: HistoryMap,
                   ghost rows: seq<HistoryRecord>, today: int) returns (next: seq<PlanEntry>)
    requires forall key :: Lookup(historyMap, key) == Bucket(rows, key)
    ensures next == PlanStep(plan, g, rows, today)
  {
    next := plan;
    var groupName := GroupName(g);
    var items := g.items;
    if items == [] {
      return;
    }
    var picks := PickGroup(g, historyMap, rows, today);
    next := next + picks;
    if Lower(groupName) == "fundamentals" && |next| < 2 {
      // random.choice(items): the group has exactly one item here
      RotationForced(plan, g, rows, today);
      next := next + [Entry(items[0], groupName, RotationReason)];
    }
  }

  /** `FallbackSelector.generate` */
  method Generate(ledger: seq<HistoryRecord>, groups: seq<CatalogGroup>, today: int) returns (plan: seq<PlanEntry>)
    ensures plan == FallbackPlan(groups, NewestFirst(ledger), today)
  {
    var historyMap := HistoryLookup(ledger);
    ghost var rows := NewestFirst(ledger);
    plan := [];
    for i := 0 to |groups|
      invariant plan == FallbackPlan(groups[..i], rows, today)
    {
      assert groups[..i + 1][..i] == groups[..i];
      plan := PlanGroup(plan, groups[i], historyMap, rows, today);
    }
    assert groups[..|groups|] == groups;
  }

  /** `select_with_fallback` */
  method SelectWithFallback(ledger: seq<HistoryRecord>, groups: seq<CatalogGroup>, today: int) returns (plan: seq<PlanEntry>)
    ensures plan == FallbackPlan(groups, NewestFirst(ledger), today)
  {
    plan := Generate(ledger, groups, today);
  }

  // ---------------------------------------------------------------------------
  // Properties of the plan

  /**
   * When the top-up fires, the group has exactly one item and nothing was planned before it,
   * so `random.choice(items)` has one possible value and the extra entry repeats the only pick.
   */
  lemma RotationForced(before: seq<PlanEntry>, g: CatalogGroup, rows: seq<HistoryRecord>, today: int)
    requires g.items != []
    requires RotationFires(g, before + GroupPicks(g, rows, today))
    ensures |g.items| == 1 && before == []
    ensures GroupPicks(g, rows, today) == [Entry(g.items[0], GroupName(g), FallbackReason)]
  {
    RotationShape(before, g, rows, today);
    SingleItemPicks(g, rows, today);
  }

  /** The top-up fires only for a one-item group that opens the plan. */
  lemma RotationShape(before: seq<PlanEntry>, g: CatalogGroup, rows: seq<HistoryRecord>, today: int)
    requires g.items != []
    requires RotationFires(g, before + GroupPicks(g, rows, today))
    ensures |g.items| == 1 && before == []
  {
    var name := GroupName(g);
    KeysContainKeywords();
    assert Quota(name) == 3;
  }

  /** A one-item group picks its only item. */
  lemma SingleItemPicks(g: CatalogGroup, rows: seq<HistoryRecord>, today: int)
    requires |g.items| == 1
    ensures GroupPicks(g, rows, today) == [Entry(g.items[0], GroupName(g), FallbackReason)]
  {
    var name := GroupName(g);
    var picks := GroupPicks(g, rows, today);
    var scored := ScoredItems(g.items, name, rows, today);
    var ranked := Ranked(scored);
    var chosen := Chosen(g, rows, today);
    assert chosen == ranked[..1];
    assert ranked[0] in multiset(scored);
    assert scored == [Scored(ScoreOf(g.items[0], name, rows, today), 0, g.items[0])];
    assert ranked[0].item == g.items[0];
    assert picks == PickEntries(chosen, name);
  }

  /** One group's contribution: nothing for an empty group, else its picks and maybe the top-up. */
  lemma PlanStepContribution(plan: seq<PlanEntry>, g: CatalogGroup, rows: seq<HistoryRecord>, today: int)
    ensures g.items == [] ==> PlanStep(plan, g, rows, today) == plan
    ensures g.items != [] ==>
      var picks := GroupPicks(g, rows, today);
      && PlanStep(plan, g, rows, today)[..|plan| + |picks|] == plan + picks
      && |PlanStep(plan, g, rows, today)| == |plan| + Min(Quota(GroupName(g)), |g.items|)
           + (if RotationFires(g, plan + picks) then 1 else 0)
  {
    if g.items != [] {
      var p := plan + GroupPicks(g, rows, today);
      assert (p + [Entry(g.items[0], GroupName(g), RotationReason)])[..|p|] == p;
    }
  }

  /** Each pick is a catalog item of its group: higher-ranked items are picked before lower ones. */
  lemma GroupPicksAreTopRanked(g: CatalogGroup, rows: seq<HistoryRecord>, today: int)
    ensures var name := GroupName(g);
      var ranked := Ranked(ScoredItems(g.items, name, rows, today));
      && |GroupPicks(g, rows, today)| <= |ranked|
      && (forall k :: 0 <= k < |GroupPicks(g, rows, today)| ==>
            GroupPicks(g, rows, today)[k] == Entry(ranked[k].item, name, FallbackReason)
            && ranked[k].item in g.items)
      && (forall k, j :: 0 <= k < |GroupPicks(g, rows, today)| <= j < |ranked| ==>
            ranked[k].score >= ranked[j].score)
  {
    var name := GroupName(g);
    var ranked := Ranked(ScoredItems(g.items, name, rows, today));
    var chosen := Chosen(g, rows, today);
    var picks := GroupPicks(g, rows, today);
    assert chosen == ranked[..Min(Quota(name), |ranked|)];
    assert picks == PickEntries(chosen, name);
    RankedItemsInCatalog(g.items, name, rows, today);
    forall k | 0 <= k < |picks| ensures picks[k] == Entry(ranked[k].item, name, FallbackReason) {
      assert chosen[k] == ranked[k];
    }
  }

  /** Ranking only reorders: every ranked item is an item of the group. */
  lemma RankedItemsInCatalog(items: seq<CatalogItem>, name: string, rows: seq<HistoryRecord>, today: int)
    ensures forall k :: 0 <= k < |Ranked(ScoredItems(items, name, rows, today))| ==>
      Ranked(ScoredItems(items, name, rows, today))[k].item in items
  {
    var scored := ScoredItems(items, name, rows, today);
    var ranked := Ranked(scored);
    forall k | 0 <= k < |ranked| ensures ranked[k].item in items {
      assert ranked[k] in multiset(scored);
      var m :| 0 <= m < |scored| && scored[m] == ranked[k];
    }
  }

  lemma HabitsQuota()
    ensures Quota("Habits") == 1
  {
    assert Lower("Habits") == "habits";
    assert !Contains("habits", "fundamental");
  }

  /** The end-to-end case: one "Habits" group, Walk (importance 2) before Read (1), no history. */
  lemma HabitsScenario(today: int)
    ensures var walk := CatalogItem("Walk", Some(2.0), None);
      var read := CatalogItem("Read", Some(1.0), None);
      FallbackPlan([CatalogGroup(Some("Habits"), [walk, read])], [], today)
        == [PlanEntry("Walk", "Habits", None, FallbackReason)]
  {
    var walk := CatalogItem("Walk", Some(2.0), None);
    var read := CatalogItem("Read", Some(1.0), None);
    var g := CatalogGroup(Some("Habits"), [walk, read]);
    HabitsQuota();
    var scored := ScoredItems(g.items, "Habits", [], today);
    assert Bucket([], Key("Habits", "Walk")) == [] && Bucket([], Key("Habits", "Read")) == [];
    assert scored[0].score == 4.0 + 1.0 / 999.0;
    assert scored[1].score == 2.0 + 1.0 / 999.0;
    var ranked := Ranked(scored);
    assert ranked[0] == scored[0] by {
      assert ranked[0] in multiset(scored) && ranked[1] in multiset(scored);
      assert scored[0] in multiset(ranked);
    }
    assert Chosen(g, [], today) == [ranked[0]];
    assert GroupPicks(g, [], today) == [PlanEntry("Walk", "Habits", None, FallbackReason)];
    assert [g][..0] == [];
    assert !RotationFires(g, GroupPicks(g, [], today));
  }
}
