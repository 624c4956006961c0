/**
 * Avatar choice (app/services/avatar_picker.py): where the avatar file is found, which
 * documents count as an avatar list, which avatar a task group gets, and when an avatar has
 * no quote to offer. The file system is the set of existing paths, and the YAML document is
 * given parsed.
 */
module Avatars {
  import opened Wrappers
  import opened Text
  import Json

  /** `AVATAR_PATHS`, relative to the project root, in the order they are tried. */
  const AvatarPaths: seq<string> := ["configs/avatars.yaml", "configs/avatars.yml"]

  /** The first of `paths` that exists. */
  function FirstExisting(paths: seq<string>, existing: set<string>): (r: Option<string>)
    ensures r.None? <==> forall p :: p in paths ==> p !in existing
    ensures r.Some? ==> r.value in paths && r.value in existing
    ensures r.Some? ==> exists k :: 0 <= k < |paths| && paths[k] == r.value
                         && (forall j :: 0 <= j < k ==> paths[j] !in existing)
  {
    if paths == [] then None
    else if paths[0] in existing then Some(paths[0])
    else
      var r := FirstExisting(paths[1..], existing);
      assert forall p :: p in paths ==> p == paths[0] || p in paths[1..];
      if r.Some? then
        var k :| 0 <= k < |paths[1..]| && paths[1..][k] == r.value && (forall j :: 0 <= j < k ==> paths[1..][j] !in existing);
        assert paths[k + 1] == r.value;
        r
      else r
  }

  /** `_get_avatar_file` */
  function GetAvatarFile(existing: set<string>): (path: Option<string>)
    ensures path.None? <==> AvatarPaths[0] !in existing && AvatarPaths[1] !in existing
    ensures AvatarPaths[0] in existing ==> path == Some(AvatarPaths[0])
    ensures AvatarPaths[0] !in existing && AvatarPaths[1] in existing ==> path == Some(AvatarPaths[1])
  {
    FirstExisting(AvatarPaths, existing)
  }

  /** `load_avatars`: the document when a file was found and it holds a (non-empty) list, else []. */
  function LoadAvatars(path: Option<string>, doc: Json.Value): (avatars: seq<Json.Value>)
    ensures path.None? ==> avatars == []
    ensures !doc.Arr? ==> avatars == []
    ensures path.Some? && doc.Arr? ==> avatars == doc.items
  {
    if path.None? then []
    else
      var data := Json.Or(doc, Json.Arr([]));
      if !data.Arr? then [] else data.items
  }

  /** `group_lower in str(cat).lower()`; categories whose `str` is not modelled (floats, lists, dicts) never match. */
  predicate CategoryMatches(groupLower: string, category: Json.Value) {
    Json.StrOf(category).Some? && Contains(Lower(Json.StrOf(category).value), groupLower)
  }

  /**
   * The condition of the comprehension in `pick_avatar_for_group` for one avatar: some
   * category matches. A non-dict avatar has no `get`; a categories value that is not a list,
   * a string or a dict cannot be iterated.
   */
  function Matches(groupLower: string, avatar: Json.Value): (r: Result<bool>)
    ensures !avatar.Obj? ==> r.Err? && r.error.AttributeError?
    ensures avatar.Obj? && "categories" !in avatar.fields ==> r == Ok(false)
    ensures avatar.Obj? && "categories" in avatar.fields && avatar.fields["categories"].Arr? ==>
      r == Ok(exists c :: c in avatar.fields["categories"].items && CategoryMatches(groupLower, c))
  {
    if !avatar.Obj? then Err(AttributeError("'" + Json.TypeName(avatar) + "' object has no attribute 'get'"))
    else
      var categories := if "categories" in avatar.fields then avatar.fields["categories"] else Json.Arr([]);
      match categories
      case Arr(items) => Ok(exists c :: c in items && CategoryMatches(groupLower, c))
      case Str(s) => Ok(exists k :: 0 <= k < |s| && CategoryMatches(groupLower, Json.Str([s[k]])))
      case Obj(m) => Ok(exists key :: key in m && CategoryMatches(groupLower, Json.Str(key)))
      case _ => Err(TypeError("'" + Json.TypeName(categories) + "' object is not iterable"))
  }

  /** `filtered`: the matching avatars in list order, or the first error the comprehension raises. */
  function Filtered(groupLower: string, avatars: seq<Json.Value>): (r: Result<seq<Json.Value>>)
    ensures r.Ok? <==> forall a :: a in avatars ==> Matches(groupLower, a).Ok?
    ensures r.Ok? ==> forall a :: a in r.value <==> a in avatars && Matches(groupLower, a) == Ok(true)
  {
    if avatars == [] then Ok([])
    else
      assert forall a :: a in avatars <==> a == avatars[0] || a in avatars[1..];
      match Matches(groupLower, avatars[0])
      case Err(e) => Err(e)
      case Ok(hit) =>
        match Filtered(groupLower, avatars[1..])
        case Err(e) => Err(e)
        case Ok(rest) => Ok(if hit then [avatars[0]] + rest else rest)
  }

  /** `pick_avatar_for_group`: None for no avatars, else the first matching avatar, else the first avatar. */
  function PickAvatarForGroup(group: string, avatars: seq<Json.Value>): (r: Result<Option<Json.Value>>)
    ensures avatars == [] ==> r == Ok(None)
    ensures r.Ok? ==> (r.value.None? <==> avatars == [])
    ensures r.Ok? && r.value.Some? ==> r.value.value in avatars
    ensures avatars != [] ==> (r.Ok? <==> forall a :: a in avatars ==> Matches(Lower(group), a).Ok?)
  {
    if avatars == [] then Ok(None)
    else
      match Filtered(Lower(group), avatars)
      case Err(e) => Err(e)
      case Ok(filtered) => Ok(Some(if filtered != [] then filtered[0] else avatars[0]))
  }

  /** The first avatar in list order that matches is the one picked. */
  lemma {:induction false} FilteredFirst(groupLower: string, avatars: seq<Json.Value>, k: nat)
    requires k < |avatars|
    requires forall a :: a in avatars ==> Matches(groupLower, a).Ok?
    requires Matches(groupLower, avatars[k]) == Ok(true)
    requires forall j :: 0 <= j < k ==> Matches(groupLower, avatars[j]) == Ok(false)
    ensures Filtered(groupLower, avatars).Ok?
    ensures Filtered(groupLower, avatars).value != []
    ensures Filtered(groupLower, avatars).value[0] == avatars[k]
  {
    if k > 0 {
      var rest := avatars[1..];
      assert forall a :: a in rest ==> a in avatars;
      assert forall j :: 0 <= j < k - 1 ==> rest[j] == avatars[j + 1];
      FilteredFirst(groupLower, rest, k - 1);
    }
  }

  lemma PickFirstMatch(group: string, avatars: seq<Json.Value>, k: nat)
    requires k < |avatars|
    requires forall a :: a in avatars ==> Matches(Lower(group), a).Ok?
    requires Matches(Lower(group), avatars[k]) == Ok(true)
    requires forall j :: 0 <= j < k ==> Matches(Lower(group), avatars[j]) == Ok(false)
    ensures PickAvatarForGroup(group, avatars) == Ok(Some(avatars[k]))
  {
    FilteredFirst(Lower(group), avatars, k);
  }

  /** With no matching avatar, the first one is picked. */
  lemma PickDefault(group: string, avatars: seq<Json.Value>)
    requires avatars != []
    requires forall a :: a in avatars ==> Matches(Lower(group), a) == Ok(false)
    ensures PickAvatarForGroup(group, avatars) == Ok(Some(avatars[0]))
  {
  }

  /** The quotes `pick_quote_for_avatar` chooses from, or None when it returns None. */
  function QuotePool(avatar: Json.Value): (quotes: Option<Json.Value>)
    ensures quotes.None? <==> !avatar.Obj? || !Json.Truthy(Json.Get(avatar.fields, "quotes"))
    ensures quotes.Some? ==> quotes.value == avatar.fields["quotes"]
  {
    var quotes := if avatar.Obj? then Json.Get(avatar.fields, "quotes") else Json.Null;
    if !Json.Truthy(quotes) then None else Some(quotes)
  }
}
