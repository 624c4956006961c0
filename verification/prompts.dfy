/**
 * The prompt bundle (app/services/prompt_loader.py): the `.md` and `.txt` files of the prompt
 * directory in name order, then `examples.json` under an "Examples:" heading, joined by blank
 * lines. The directory is a listing of entries, each with what reading it gives; a missing
 * directory is `None`.
 */
module PromptLoader {
  import opened Wrappers
  import opened Text
  import Sorting

  /**
   * What `read_text(encoding="utf-8")` does for one file: return its text, raise OSError
   * (which the loader skips), or raise UnicodeDecodeError on bytes that are not UTF-8.
   */
  datatype ReadOutcome = Read(text: string) | Unreadable | Undecodable

  /** One directory entry: its file name and what reading it gives. */
  datatype DirEntry = DirEntry(name: string, content: ReadOutcome)

  /** The message of the UnicodeDecodeError; the offending byte and its position are not modelled. */
  const DecodeFailure: string := "'utf-8' codec can't decode"

  const Separator: string := "\n\n"
  const ExamplesFile: string := "examples.json"
  const ExamplesHeading: string := "Examples:\n"

  /** Matched by the `*.md` or the `*.txt` glob. */
  predicate IsTemplate(e: DirEntry) {
    EndsWith(e.name, ".md") || EndsWith(e.name, ".txt")
  }

  /** Path order within one directory: by file name. */
  predicate ByName(a: DirEntry, b: DirEntry) {
    LexLe(a.name, b.name)
  }

  lemma ByNameTotal()
    ensures Sorting.TotalPreorder(ByName)
  {
    forall a: DirEntry, b: DirEntry ensures ByName(a, b) || ByName(b, a) {
      LexLeTotal(a.name, b.name);
    }
    forall a: DirEntry, b: DirEntry, c: DirEntry | ByName(a, b) && ByName(b, c) ensures ByName(a, c) {
      LexLeTransitive(a.name, b.name, c.name);
    }
  }

  /** `sorted(glob("*.md") + glob("*.txt"))`: the template files in name order. */
  function TemplateFiles(entries: seq<DirEntry>): (files: seq<DirEntry>)
    ensures forall e :: e in files <==> e in entries && IsTemplate(e)
    ensures forall i, j :: 0 <= i < j < |files| ==> LexLe(files[i].name, files[j].name)
  {
    var templates := Sorting.Where(entries, IsTemplate);
    ByNameTotal();
    Sorting.SortSorted(templates, ByName);
    var files := Sorting.Sort(templates, ByName);
    assert forall e :: e in files <==> e in multiset(templates);
    assert Sorting.Sorted(files, ByName);
    files
  }

  /** The contents of the readable files, in order; files that raise are skipped. */
  function Readable(files: seq<DirEntry>): (parts: seq<string>)
    ensures |parts| <= |files|
    ensures (forall e :: e in files ==> e.content.Read?) ==> |parts| == |files|
  {
    if files == [] then []
    else
      var last := files[|files| - 1];
      var front := files[..|files| - 1];
      Readable(front) + (if last.content.Read? then [last.content.text] else [])
  }

  /** One file contributes its text when it can be read, and nothing when reading raises. */
  lemma ReadableSingle(e: DirEntry)
    ensures Readable([e]) == if e.content.Read? then [e.content.text] else []
  {
    assert [e][..0] == [];
  }

  /** No file raises UnicodeDecodeError. */
  predicate AllDecodable(files: seq<DirEntry>) {
    forall e :: e in files ==> !e.content.Undecodable?
  }

  /** Reading works file by file: the parts of a concatenation are the concatenation of the parts. */
  lemma {:induction false} ReadableConcat(a: seq<DirEntry>, b: seq<DirEntry>)
    ensures Readable(a + b) == Readable(a) + Readable(b)
    decreases |b|
  {
    if b == [] {
      assert a + b == a;
    } else {
      assert (a + b)[..|a + b| - 1] == a + b[..|b| - 1];
      ReadableConcat(a, b[..|b| - 1]);
    }
  }

  /** The first entry with the given name, if any. */
  function Find(entries: seq<DirEntry>, name: string): (r: Option<DirEntry>)
    ensures r.Some? ==> r.value in entries && r.value.name == name
    ensures r.None? ==> forall e :: e in entries ==> e.name != name
  {
    if entries == [] then None
    else if entries[0].name == name then Some(entries[0])
    else Find(entries[1..], name)
  }

  /** The examples part: present when `examples.json` exists and can be read. */
  function ExamplesPart(entries: seq<DirEntry>): (part: seq<string>)
    ensures |part| <= 1
    ensures part != [] ==> StartsWith(part[0], ExamplesHeading)
  {
    match Find(entries, ExamplesFile)
    case Some(DirEntry(_, Read(text))) => [ExamplesHeading + text]
    case _ => []
  }

  /** A listing with one more file is decodable exactly when the shorter one is and that file is. */
  lemma AllDecodableAppend(files: seq<DirEntry>, e: DirEntry)
    ensures AllDecodable(files + [e]) <==> AllDecodable(files) && !e.content.Undecodable?
  {
    assert e in files + [e];
    assert forall f :: f in files + [e] ==> f in files || f == e;
  }

  /** `examples.json` exists and reading it raises UnicodeDecodeError. */
  predicate ExamplesUndecodable(entries: seq<DirEntry>) {
    Find(entries, ExamplesFile).Some? && Find(entries, ExamplesFile).value.content.Undecodable?
  }

  /** The `parts` list: template files in name order, then the examples. */
  function Parts(entries: seq<DirEntry>): seq<string> {
    Readable(TemplateFiles(entries)) + ExamplesPart(entries)
  }

  /** `part.rstrip() for part in parts if part`: the test is on the part before stripping. */
  function Kept(parts: seq<string>): (kept: seq<string>)
    ensures |kept| <= |parts|
    ensures (forall p :: p in parts ==> p == "") ==> kept == []
    ensures (forall p :: p in parts ==> p != "") ==> |kept| == |parts|
  {
    if parts == [] then []
    else
      var last := parts[|parts| - 1];
      var front := parts[..|parts| - 1];
      assert forall p :: p in front ==> p in parts;
      assert last in parts;
      Kept(front) + (if last != "" then [RStrip(last)] else [])
  }

  /** `"\n\n".join(...)` over the kept parts. */
  function JoinParts(parts: seq<string>): string {
    Join(Kept(parts), Separator)
  }

  /**
   * What `load_prompt_templates` returns for a directory listing, or the UnicodeDecodeError
   * that escapes it when a template or the examples file is not UTF-8.
   */
  function PromptText(dir: Option<seq<DirEntry>>): (r: Result<string>)
    ensures dir.None? ==> r == Ok("")
    ensures dir.Some? ==>
      (r.Err? <==> (exists e :: e in dir.value && IsTemplate(e) && e.content.Undecodable?)
                   || ExamplesUndecodable(dir.value))
    ensures r.Err? ==> r == Err(UnicodeDecodeError(DecodeFailure))
    ensures dir.Some? && r.Ok? ==> r.value == JoinParts(Parts(dir.value))
  {
    match dir
    case None => Ok("")
    case Some(entries) =>
      if !AllDecodable(TemplateFiles(entries)) || ExamplesUndecodable(entries) then Err(UnicodeDecodeError(DecodeFailure))
      else Ok(JoinParts(Parts(entries)))
  }

  /** Joining one more part puts the separator between the old result and the new part. */
  lemma {:induction false} JoinAppend(parts: seq<string>, p: string, sep: string)
    ensures Join(parts + [p], sep) == if parts == [] then p else Join(parts, sep) + sep + p
  {
    if |parts| == 1 {
      assert parts + [p] == [parts[0], p];
      assert [parts[0], p][1..] == [p];
    } else if |parts| > 1 {
      assert (parts + [p])[1..] == parts[1..] + [p];
      JoinAppend(parts[1..], p, sep);
    }
  }

  /** A non-empty part adds its stripped text after a separator, unless it is the first kept part. */
  lemma JoinPartsAppend(parts: seq<string>, p: string)
    requires p != ""
    ensures JoinParts(parts + [p]) ==
      if Kept(parts) == [] then RStrip(p) else JoinParts(parts) + Separator + RStrip(p)
  {
    assert (parts + [p])[..|parts|] == parts;
    JoinAppend(Kept(parts), RStrip(p), Separator);
  }

  /** An empty part adds nothing, separator included. */
  lemma JoinPartsSkipsEmpty(parts: seq<string>)
    ensures JoinParts(parts + [""]) == JoinParts(parts)
  {
    assert (parts + [""])[..|parts|] == parts;
    assert Kept(parts) + [] == Kept(parts);
  }

  /** With no non-empty part the bundle is the empty string. */
  lemma JoinPartsEmpty(parts: seq<string>)
    requires forall p :: p in parts ==> p == ""
    ensures JoinParts(parts) == ""
  {
  }

  /** A whitespace-only file is kept (it is not empty) and then stripped to nothing: two separators in a row. */
  lemma WhitespacePartLeavesEmptySegment()
    ensures JoinParts(["a", " \n", "b"]) == "a\n\n\n\nb"
  {
    WhitespaceSecondPart();
    assert RStrip("b") == "b";
    JoinPartsAppend(["a", " \n"], "b");
    assert ["a", " \n"] + ["b"] == ["a", " \n", "b"];
  }

  lemma FirstPartAlone()
    ensures Kept(["a"]) != [] && JoinParts(["a"]) == "a"
  {
    assert RStrip("a") == "a";
    JoinPartsAppend([], "a");
    assert [] + ["a"] == ["a"];
  }

  lemma WhitespaceSecondPart()
    ensures Kept(["a", " \n"]) != [] && JoinParts(["a", " \n"]) == "a\n\n"
  {
    FirstPartAlone();
    assert RStrip(" \n") == "";
    JoinPartsAppend(["a"], " \n");
    assert ["a"] + [" \n"] == ["a", " \n"];
  }

  /**
   * The loop of `load_prompt_templates` over the template files: each readable file's text, in
   * order, or the UnicodeDecodeError of the first file that is not UTF-8.
   */
  method ReadTemplates(textFiles: seq<DirEntry>) returns (r: Result<seq<string>>)
    ensures r.Ok? <==> AllDecodable(textFiles)
    ensures r.Ok? ==> r.value == Readable(textFiles)
    ensures r.Err? ==> r == Err(UnicodeDecodeError(DecodeFailure))
  {
    var parts := [];
    for i := 0 to |textFiles|
      invariant parts == Readable(textFiles[..i])
      invariant AllDecodable(textFiles[..i])
    {
      assert textFiles[..i + 1] == textFiles[..i] + [textFiles[i]];
      assert textFiles[..i + 1][..i] == textFiles[..i];
      AllDecodableAppend(textFiles[..i], textFiles[i]);
      match textFiles[i].content
      case Undecodable =>
        assert textFiles[i] in textFiles;
        return Err(UnicodeDecodeError(DecodeFailure));
      case Unreadable =>
        continue;
      case Read(text) =>
        parts := parts + [text];
    }
    assert textFiles[..|textFiles|] == textFiles;
    r := Ok(parts);
  }

  /** `load_prompt_templates` */
  method LoadPromptTemplates(dir: Option<seq<DirEntry>>) returns (text: Result<string>)
    ensures text == PromptText(dir)
  {
    if dir.None? {
      return Ok("");
    }
    var entries := dir.value;
    var read := ReadTemplates(TemplateFiles(entries));
    if read.Err? {
      return Err(read.error);
    }
    var parts := read.value;
    var examples := Find(entries, ExamplesFile);
    if examples.Some? {
      match examples.value.content
      case Undecodable =>
        return Err(UnicodeDecodeError(DecodeFailure));
      case Unreadable =>
        assert ExamplesPart(entries) == [];
        assert parts == parts + [];
      case Read(t) =>
        assert ExamplesPart(entries) == [ExamplesHeading + t];
        parts := parts + [ExamplesHeading + t];
    } else {
      assert ExamplesPart(entries) == [];
      assert parts == parts + [];
    }
    assert parts == Parts(entries);
    text := Ok(JoinParts(parts));
  }
}
