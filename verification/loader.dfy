/**
 * Catalog loading (app/services/loader.py): every `*.yaml` file of the config directory is a
 * YAML document holding one group or a list of groups. Each group is checked for its required
 * keys, and the groups of each file are collected under the file's stem.
 *
 * The directory listing and the YAML parser are outside the model: `files` is the sequence of
 * (stem, parsed document) pairs in listing order, with a null document as `Json.Null`.
 */
module Loader {
  import opened Wrappers
  import Json

  /** `path.name` of a file the `*.yaml` glob found. */
  function FileName(stem: string): string {
    stem + ".yaml"
  }

  function MissingKeys(fileName: string): Error {
    ValueError("Config " + fileName + " missing required keys")
  }

  function ItemsNotList(fileName: string): Error {
    ValueError("Config " + fileName + " items must be a list")
  }

  function ItemIncomplete(fileName: string): Error {
    ValueError("Item in " + fileName + " missing name or importance")
  }

  /** `data["items"]` once both keys were found: a dict lookup, or the TypeError of indexing a list or a string by a string. */
  function Subscript(data: Json.Value, key: string): Result<Json.Value>
    requires data.Obj? ==> key in data.fields
  {
    match data
    case Obj(m) => Ok(m[key])
    case Arr(_) => Err(TypeError("list indices must be integers or slices, not str"))
    case Str(_) => Err(TypeError("string indices must be integers, not 'str'"))
    case _ => Err(TypeError("'" + Json.TypeName(data) + "' object is not subscriptable"))
  }

  /** `"name" not in item or "importance" not in item`, with the error `in` raises on a non-container item. */
  function CheckItem(item: Json.Value, fileName: string): (err: Option<Error>)
    ensures item.Obj? ==>
      (err == None <==> "name" in item.fields && "importance" in item.fields)
    ensures item.Obj? && err.Some? ==> err == Some(ItemIncomplete(fileName))
  {
    match Json.In("name", item)
    case Err(e) => Some(e)
    case Ok(hasName) =>
      if !hasName then Some(ItemIncomplete(fileName))
      else
        match Json.In("importance", item)
        case Err(e) => Some(e)
        case Ok(hasImportance) => if !hasImportance then Some(ItemIncomplete(fileName)) else None
  }

  /** The error of the first item that fails its check, if any. */
  function CheckItems(items: seq<Json.Value>, fileName: string): (err: Option<Error>)
    ensures err == None <==> forall k :: 0 <= k < |items| ==> CheckItem(items[k], fileName) == None
    ensures err.Some? ==> exists k :: 0 <= k < |items| && err == CheckItem(items[k], fileName)
                                      && (forall j :: 0 <= j < k ==> CheckItem(items[j], fileName) == None)
  {
    if items == [] then None
    else
      match CheckItem(items[0], fileName)
      case Some(e) => Some(e)
      case None =>
        var rest := CheckItems(items[1..], fileName);
        assert forall k :: 1 <= k < |items| ==> items[k] == items[1..][k - 1];
        rest
  }

  /** A dict with "group" and "items", whose items are a list of dicts that each have "name" and "importance". */
  predicate WellFormedGroup(data: Json.Value) {
    && data.Obj? && "group" in data.fields && "items" in data.fields
    && data.fields["items"].Arr?
    && forall item :: item in data.fields["items"].items ==>
         item.Obj? && "name" in item.fields && "importance" in item.fields
  }

  /** `_validate_group`: the input itself when it is well formed, or the error raised first. */
  function ValidateGroup(data: Json.Value, fileName: string): (r: Result<Json.Value>)
    ensures r.Ok? ==> r.value == data && data.Obj?
    ensures data.Obj? && !("group" in data.fields && "items" in data.fields) ==> r == Err(MissingKeys(fileName))
    ensures data.Obj? && "group" in data.fields && "items" in data.fields && !data.fields["items"].Arr? ==>
      r == Err(ItemsNotList(fileName))
    ensures WellFormedGroup(data) ==> r == Ok(data)
  {
    match Json.In("group", data)
    case Err(e) => Err(e)
    case Ok(hasGroup) =>
      if !hasGroup then Err(MissingKeys(fileName))
      else
        match Json.In("items", data)
        case Err(e) => Err(e)
        case Ok(hasItems) =>
          if !hasItems then Err(MissingKeys(fileName))
          else
            match Subscript(data, "items")
            case Err(e) => Err(e)
            case Ok(items) =>
              if !items.Arr? then Err(ItemsNotList(fileName))
              else
                match CheckItems(items.items, fileName)
                case Some(e) => Err(e)
                case None => Ok(data)
  }

  /** A dict group whose items are all dicts passes exactly when it is well formed. */
  lemma ValidateGroupDict(data: Json.Value, fileName: string)
    requires data.Obj? && "items" in data.fields && data.fields["items"].Arr?
    requires forall item :: item in data.fields["items"].items ==> item.Obj?
    ensures ValidateGroup(data, fileName).Ok? <==> WellFormedGroup(data)
  {
    var items := data.fields["items"].items;
    if "group" in data.fields && CheckItems(items, fileName) == None {
      forall item | item in items
        ensures "name" in item.fields && "importance" in item.fields
      {
        var k :| 0 <= k < |items| && items[k] == item;
        assert CheckItem(items[k], fileName) == None;
      }
    }
  }

  /** The groups of a list document, each validated in order; the first invalid one aborts. */
  function ValidateEntries(entries: seq<Json.Value>, fileName: string): (r: Result<seq<Json.Value>>)
    ensures r.Ok? ==> r.value == entries
    ensures r.Ok? <==> forall k :: 0 <= k < |entries| ==> ValidateGroup(entries[k], fileName).Ok?
  {
    if entries == [] then Ok([])
    else
      match ValidateEntries(entries[..|entries| - 1], fileName)
      case Err(e) => Err(e)
      case Ok(valid) =>
        match ValidateGroup(entries[|entries| - 1], fileName)
        case Err(e) => Err(e)
        case Ok(v) => Ok(valid + [v])
  }

  /** The `entries` of one document: none for null, the validated list for a list, the validated dict alone for a dict, and none for anything else. */
  function FileEntries(content: Json.Value, fileName: string): (r: Result<seq<Json.Value>>)
    ensures content.Null? ==> r == Ok([])
    ensures content.Arr? ==> r == ValidateEntries(content.items, fileName)
    ensures content.Obj? ==> r == (if ValidateGroup(content, fileName).Ok? then Ok([content]) else Err(ValidateGroup(content, fileName).error))
    ensures !(content.Arr? || content.Obj?) ==> r == Ok([])
  {
    match content
    case Null => Ok([])
    case Arr(entries) => ValidateEntries(entries, fileName)
    case Obj(_) =>
      (match ValidateGroup(content, fileName)
       case Err(e) => Err(e)
       case Ok(v) => Ok([v]))
    case _ => Ok([])
  }

  /** The `configs` dict, as its (stem, groups) pairs in insertion order. */
  type Configs = seq<(string, seq<Json.Value>)>

  predicate DistinctKeys(c: Configs) {
    forall i, j :: 0 <= i < j < |c| ==> c[i].0 != c[j].0
  }

  /** `configs[key] = value`: replaced in place when the key exists, appended otherwise. */
  function Assign(c: Configs, key: string, value: seq<Json.Value>): (r: Configs)
    ensures (key, value) in r
    ensures forall k :: 0 <= k < |r| && r[k].0 != key ==> r[k] in c
    ensures forall p :: p in c && p.0 != key ==> p in r
    ensures DistinctKeys(c) ==> DistinctKeys(r)
  {
    if c == [] then [(key, value)]
    else if c[0].0 == key then [(key, value)] + c[1..]
    else [c[0]] + Assign(c[1..], key, value)
  }

  /** `load_configs` over the files seen so far: the stems with non-empty entries, or the first error. */
  function LoadAll(files: seq<(string, Json.Value)>): (r: Result<Configs>)
    ensures r.Ok? ==> DistinctKeys(r.value)
    ensures r.Ok? ==> forall p :: p in r.value ==> p.1 != []
  {
    if files == [] then Ok([])
    else
      var stem := files[|files| - 1].0;
      var content := files[|files| - 1].1;
      match LoadAll(files[..|files| - 1])
      case Err(e) => Err(e)
      case Ok(c) =>
        match FileEntries(content, FileName(stem))
        case Err(e) => Err(e)
        case Ok(entries) => Ok(if entries != [] then Assign(c, stem, entries) else c)
  }

  /** One document yields its entries without an error. */
  predicate FileOk(file: (string, Json.Value)) {
    FileEntries(file.1, FileName(file.0)).Ok?
  }

  /** The load succeeds exactly when the loads of the earlier files and of the last file do. */
  lemma LoadAllLast(files: seq<(string, Json.Value)>)
    requires files != []
    ensures LoadAll(files).Ok? <==> LoadAll(files[..|files| - 1]).Ok? && FileOk(files[|files| - 1])
  {
  }

  /** The load succeeds exactly when every document yields its entries without an error. */
  lemma {:induction false} LoadAllOk(files: seq<(string, Json.Value)>)
    ensures LoadAll(files).Ok? <==> forall k :: 0 <= k < |files| ==> FileOk(files[k])
  {
    if files != [] {
      LoadAllOk(files[..|files| - 1]);
      LoadAllLast(files);
      AllFilesOkLast(files);
    }
  }

  /** Every document yields its entries without an error. */
  predicate AllFilesOk(files: seq<(string, Json.Value)>) {
    forall k :: 0 <= k < |files| ==> FileOk(files[k])
  }

  /** Every file is fine exactly when every earlier file and the last file are. */
  lemma AllFilesOkLast(files: seq<(string, Json.Value)>)
    requires files != []
    ensures AllFilesOk(files) <==> AllFilesOk(files[..|files| - 1]) && FileOk(files[|files| - 1])
  {
    var front := files[..|files| - 1];
    assert forall k :: 0 <= k < |front| ==> front[k] == files[k];
  }

  /** The first invalid group decides the error: groups after it are never looked at. */
  lemma {:induction false} ValidateEntriesStops(entries: seq<Json.Value>, n: nat, fileName: string)
    requires n <= |entries| && ValidateEntries(entries[..n], fileName).Err?
    ensures ValidateEntries(entries, fileName) == ValidateEntries(entries[..n], fileName)
    decreases |entries|
  {
    if n < |entries| {
      var front := entries[..|entries| - 1];
      assert front[..n] == entries[..n];
      ValidateEntriesStops(front, n, fileName);
    } else {
      assert entries[..n] == entries;
    }
  }

  /** The first failing document decides the error: later files are never read. */
  lemma {:induction false} LoadAllStops(files: seq<(string, Json.Value)>, n: nat)
    requires n <= |files| && LoadAll(files[..n]).Err?
    ensures LoadAll(files) == LoadAll(files[..n])
    decreases |files|
  {
    if n < |files| {
      var front := files[..|files| - 1];
      assert front[..n] == files[..n];
      LoadAllStops(front, n);
    } else {
      assert files[..n] == files;
    }
  }

  /** The body of `load_configs`'s loop for one document: the `entries` list it fills. */
  method CollectEntries(content: Json.Value, fileName: string) returns (r: Result<seq<Json.Value>>)
    ensures r == FileEntries(content, fileName)
  {
    var entries: seq<Json.Value> := [];
    if content.Arr? {
      for j := 0 to |content.items|
        invariant ValidateEntries(content.items[..j], fileName) == Ok(entries)
      {
        assert content.items[..j + 1][..j] == content.items[..j];
        var checked := ValidateGroup(content.items[j], fileName);
        if checked.Err? {
          ValidateEntriesStops(content.items, j + 1, fileName);
          return Err(checked.error);
        }
        entries := entries + [checked.value];
      }
      assert content.items[..|content.items|] == content.items;
      assert FileEntries(content, fileName) == ValidateEntries(content.items, fileName);
    } else if content.Obj? {
      var checked := ValidateGroup(content, fileName);
      if checked.Err? {
        return Err(checked.error);
      }
      entries := entries + [checked.value];
      assert entries == [content];
    }
    r := Ok(entries);
  }

  /** `load_configs` */
  method LoadConfigs(files: seq<(string, Json.Value)>) returns (r: Result<Configs>)
    ensures r == LoadAll(files)
  {
    var configs: Configs := [];
    for i := 0 to |files|
      invariant LoadAll(files[..i]) == Ok(configs)
    {
      assert files[..i + 1][..i] == files[..i];
      var stem := files[i].0;
      var content := files[i].1;
      if content.Null? {
        continue;
      }
      var entries := CollectEntries(content, FileName(stem));
      if entries.Err? {
        LoadAllStops(files, i + 1);
        return Err(entries.error);
      }
      if entries.value != [] {
        configs := Assign(configs, stem, entries.value);
      }
    }
    assert files[..|files|] == files;
    r := Ok(configs);
  }

  /** A document that is neither null, a list nor a dict adds nothing, and a list with no groups adds no key. */
  lemma {:induction false} LoadAllSkipsEmpty(files: seq<(string, Json.Value)>, stem: string, content: Json.Value)
    requires LoadAll(files).Ok?
    requires !(content.Obj? || (content.Arr? && content.items != []))
    ensures LoadAll(files + [(stem, content)]) == LoadAll(files)
  {
    assert (files + [(stem, content)])[..|files|] == files;
    if content.Arr? {
      assert content.items == [];
    }
  }

  /** A valid dict document is stored as a one-group list under its stem. */
  lemma LoadAllDict(files: seq<(string, Json.Value)>, stem: string, content: Json.Value)
    requires LoadAll(files).Ok?
    requires WellFormedGroup(content)
    ensures LoadAll(files + [(stem, content)]) == Ok(Assign(LoadAll(files).value, stem, [content]))
  {
    assert (files + [(stem, content)])[..|files|] == files;
  }

  /** A document that yields groups stores exactly those groups under its stem. */
  lemma LoadAllStores(files: seq<(string, Json.Value)>, stem: string, content: Json.Value, groups: seq<Json.Value>)
    requires LoadAll(files).Ok?
    requires FileEntries(content, FileName(stem)) == Ok(groups) && groups != []
    ensures LoadAll(files + [(stem, content)]) == Ok(Assign(LoadAll(files).value, stem, groups))
  {
    assert (files + [(stem, content)])[..|files|] == files;
  }

  /** A list of valid groups is stored as that list, in document order, under its stem. */
  lemma LoadAllList(files: seq<(string, Json.Value)>, stem: string, content: Json.Value)
    requires LoadAll(files).Ok?
    requires content.Arr? && content.items != []
    requires forall g :: g in content.items ==> WellFormedGroup(g)
    ensures LoadAll(files + [(stem, content)]) == Ok(Assign(LoadAll(files).value, stem, content.items))
  {
    assert forall k :: 0 <= k < |content.items| ==> WellFormedGroup(content.items[k]);
    LoadAllStores(files, stem, content, content.items);
  }

  /** An invalid group in any file aborts the whole load: no mapping is returned. */
  lemma {:induction false} LoadAllAborts(files: seq<(string, Json.Value)>, k: nat, j: nat)
    requires k < |files| && files[k].1.Arr? && j < |files[k].1.items|
    requires ValidateGroup(files[k].1.items[j], FileName(files[k].0)).Err?
    ensures LoadAll(files).Err?
  {
    LoadAllOk(files);
    assert !FileOk(files[k]);
  }
}
