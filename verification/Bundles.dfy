/**
 App bundles: the manifest's rules, building, reading back and serving assets. An archive is its entries in order
 and its size in bytes; a JSON encoder and decoder are parameters.
*/
module Bundles {
  import opened Wrappers
  import opened Manifests
  import opened Paths
  import Hosts
  import Validation
  import QueryExec

  const FILE_NAME := "oort.json"
  const MAX_BUNDLE_BYTES := 26_214_400
  const MAX_BUNDLE_FILES := 1000

  // ---------- the manifest

  /** path.Ext: from the last dot of the last segment. */
  function Ext(path: string): string
    decreases |path|
  {
    if path == "" || path[|path| - 1] == '/' then ""
    else if path[|path| - 1] == '.' then "."
    else
      var front := Ext(path[..|path| - 1]);
      if front == "" then "" else front + [path[|path| - 1]]
  }

  predicate IsSql(path: string) { Validation.Lower(Ext(path)) == ".sql" }

  predicate ParameterName(name: string)
  {
    name != "" && Validation.IsStart(name[0]) && forall i :: 0 <= i < |name| ==> Validation.IsWord(name[i])
  }

  predicate ValidQuery(q: QuerySpec)
  {
    && Hosts.ValidSlug(q.name) && SafePath(q.file) && IsSql(q.file)
    && (forall p :: p in q.parameters ==> ParameterName(p)) && QueryExec.KnownTypes(q.parameters)
  }

  predicate ValidManifest(m: Manifest)
  {
    && Hosts.ValidSlug(m.app.slug) && !Hosts.HasDashes(m.app.slug) && SafePath(m.app.dir)
    && (forall i :: 0 <= i < |m.queries| ==> ValidQuery(m.queries[i]))
    && (forall i, j :: 0 <= i < j < |m.queries| ==> m.queries[i].name != m.queries[j].name && m.queries[i].file != m.queries[j].file)
  }

  /** The checks in the order of the source, remembering names and files. */
  method ValidateManifest(m: Manifest) returns (ok: bool)
    ensures ok <==> ValidManifest(m)
  {
    hide Hosts.ValidSlug, Hosts.HasDashes, SafePath, IsSql, QueryExec.KnownTypes, ParameterName;
    if !Hosts.ValidSlug(m.app.slug) || Hosts.HasDashes(m.app.slug) { return false; }
    if !SafePath(m.app.dir) { return false; }
    var names, files: set<string> := {}, {};
    for i := 0 to |m.queries|
      invariant forall k :: 0 <= k < i ==> ValidQuery(m.queries[k])
      invariant names == set k | 0 <= k < i :: m.queries[k].name
      invariant files == set k | 0 <= k < i :: m.queries[k].file
      invariant forall k, l :: 0 <= k < l < i ==> m.queries[k].name != m.queries[l].name && m.queries[k].file != m.queries[l].file
    {
      var q := m.queries[i];
      if !Hosts.ValidSlug(q.name) || q.name in names { return false; }
      names := names + {q.name};
      if !SafePath(q.file) || !IsSql(q.file) || q.file in files { return false; }
      files := files + {q.file};
      if (exists p :: p in q.parameters && !ParameterName(p)) || !QueryExec.KnownTypes(q.parameters) { return false; }
    }
    return true;
  }

  // ---------- building

  datatype Entry = Entry(name: string, contents: string, regular: bool)

  datatype Archive = Archive(size: nat, entries: seq<Entry>)

  /** Regular files and directories by path inside the project; parent holds the files beside it, by paths that begin "../". */
  datatype Project = Project(files: map<string, string>, dirs: set<string>, parent: set<string>)

  predicate Exists(p: Project, path: string) { path == ".." || path in p.dirs || path in p.files }

  /** Walking the app directory: what is below it, or the file itself when it is one. */
  function Walk(p: Project, dir: string): set<string>
  {
    if dir == ".." then p.files.Keys + p.parent else set name | name in p.files && (name == dir || HasPrefix(name, dir + "/"))
  }

  function QueryFiles(m: Manifest): set<string> { set q | q in m.queries :: q.file }

  /** Every file of the bundle but the manifest. */
  function Bundled(p: Project, m: Manifest): set<string> { Walk(p, m.app.dir) + QueryFiles(m) }

  function Pack(p: Project, names: seq<string>): seq<Entry>
  {
    seq(|names|, i requires 0 <= i < |names| => Entry(names[i], if names[i] in p.files then p.files[names[i]] else "", true))
  }

  function Size(entries: seq<Entry>): nat
  {
    if entries == [] then 0 else Size(entries[..|entries| - 1]) + |entries[|entries| - 1].contents|
  }

  datatype BundleError =
    | InvalidManifest | NoDir | Outside | NoQueryFile | ManyFiles | TooLarge | Unsafe | Duplicate | NoManifest | NoIndex | Undeclared

  /** names lists the files of the bundle, each once (the source sorts them; any order serves). */
  ghost predicate Lists(names: seq<string>, files: set<string>)
  {
    && (forall i :: 0 <= i < |names| ==> names[i] in files)
    && (forall name :: name in files ==> name in names)
    && (forall i, j :: 0 <= i < j < |names| ==> names[i] != names[j])
  }

  function Build(p: Project, m: Manifest, json: Manifest -> string, names: seq<string>): Result<seq<Entry>, BundleError>
  {
    if !ValidManifest(m) then Err(InvalidManifest)
    else if !Exists(p, m.app.dir) then Err(NoDir)
    else if exists name :: name in Walk(p, m.app.dir) && HasPrefix(name, "../") then Err(Outside)
    else if exists q :: q in m.queries && q.file !in p.files then Err(NoQueryFile)
    else if |names| + 1 > MAX_BUNDLE_FILES then Err(ManyFiles)
    else
      var entries := [Entry(FILE_NAME, json(m), true)] + Pack(p, names);
      if names != [] && Size(entries) > MAX_BUNDLE_BYTES then Err(TooLarge) else Ok(entries)
  }

  lemma {:induction false} SizePrefix(entries: seq<Entry>, n: nat)
    requires n <= |entries|
    ensures Size(entries[..n]) <= Size(entries)
    ensures n < |entries| ==> Size(entries[..n + 1]) == Size(entries[..n]) + |entries[n].contents|
    decreases |entries| - n
  {
    if n == |entries| {
      assert entries[..n] == entries;
    } else {
      assert entries[..n + 1][..n] == entries[..n];
      SizePrefix(entries, n + 1);
    }
  }

  /** The writing loop: every listed file, until the contents pass the limit. */
  method WriteFiles(p: Project, manifest: string, names: seq<string>) returns (archive: seq<Entry>, ok: bool)
    ensures ok <==> names == [] || Size([Entry(FILE_NAME, manifest, true)] + Pack(p, names)) <= MAX_BUNDLE_BYTES
    ensures ok ==> archive == [Entry(FILE_NAME, manifest, true)] + Pack(p, names)
  {
    hide Size;
    archive := [Entry(FILE_NAME, manifest, true)];
    ghost var packed := Pack(p, names);
    ghost var whole := archive + packed;
    var total: nat := |manifest|;
    OneEntry(archive[0]);
    for i := 0 to |names|
      invariant archive == whole[..i + 1]
      invariant total == Size(archive) && (i > 0 ==> total <= MAX_BUNDLE_BYTES)
    {
      SizePrefix(whole, i + 1);
      SizePrefix(whole, i + 2);
      var contents := if names[i] in p.files then p.files[names[i]] else "";
      assert whole[i + 1] == packed[i] == Entry(names[i], contents, true);
      total := total + |contents|;
      if total > MAX_BUNDLE_BYTES { return archive, false; }
      archive := archive + [Entry(names[i], contents, true)];
      assert archive == whole[..i + 2];
    }
    assert whole[..|names| + 1] == whole;
    return archive, true;
  }

  lemma {:induction false} OneEntry(e: Entry)
    ensures Size([e]) == |e.contents|
  {
    assert [e][..0] == [];
  }

  method BuildBundle(p: Project, m: Manifest, json: Manifest -> string, names: seq<string>) returns (r: Result<seq<Entry>, BundleError>)
    requires Lists(names, Bundled(p, m))
    ensures r == Build(p, m, json, names)
  {
    hide ValidManifest, Walk, HasPrefix, Pack, Size;
    var valid := ValidateManifest(m);
    if !valid { return Err(InvalidManifest); }
    if !Exists(p, m.app.dir) { return Err(NoDir); }
    if exists name :: name in Walk(p, m.app.dir) && HasPrefix(name, "../") { return Err(Outside); }
    for i := 0 to |m.queries|
      invariant forall k :: 0 <= k < i ==> m.queries[k].file in p.files
    {
      if m.queries[i].file !in p.files { return Err(NoQueryFile); }
    }
    if |names| + 1 > MAX_BUNDLE_FILES { return Err(ManyFiles); }
    var archive, ok := WriteFiles(p, json(m), names);
    if !ok { return Err(TooLarge); }
    return Ok(archive);
  }

  // ---------- reading

  function Add(files: Result<map<string, string>, BundleError>, before: nat, e: Entry): Result<map<string, string>, BundleError>
  {
    if files.Err? then files
    else if !SafePath(e.name) || !e.regular then Err(Unsafe)
    else if e.name in files.value then Err(Duplicate)
    else if before + |e.contents| > MAX_BUNDLE_BYTES then Err(TooLarge)
    else Ok(files.value[e.name := e.contents])
  }

  function Collect(entries: seq<Entry>): Result<map<string, string>, BundleError>
  {
    if entries == [] then Ok(map[])
    else
      var front := entries[..|entries| - 1];
      Add(Collect(front), Size(front), entries[|entries| - 1])
  }

  function Files(a: Archive): Result<map<string, string>, BundleError>
  {
    if a.size > MAX_BUNDLE_BYTES then Err(TooLarge)
    else if |a.entries| > MAX_BUNDLE_FILES then Err(ManyFiles)
    else Collect(a.entries)
  }

  method ReadFiles(a: Archive) returns (r: Result<map<string, string>, BundleError>)
    ensures r == Files(a)
  {
    hide SafePath;
    if a.size > MAX_BUNDLE_BYTES { return Err(TooLarge); }
    if |a.entries| > MAX_BUNDLE_FILES { return Err(ManyFiles); }
    var files: map<string, string> := map[];
    var total: nat := 0;
    for i := 0 to |a.entries|
      invariant Collect(a.entries[..i]) == Ok(files) && total == Size(a.entries[..i])
    {
      var file := a.entries[i];
      assert a.entries[..i + 1][..i] == a.entries[..i];
      CollectStops(a.entries, i + 1);
      if !SafePath(file.name) || !file.regular { return Err(Unsafe); }
      if file.name in files { return Err(Duplicate); }
      if |file.contents| > MAX_BUNDLE_BYTES || total > MAX_BUNDLE_BYTES - |file.contents| { return Err(TooLarge); }
      total := total + |file.contents|;
      files := files[file.name := file.contents];
    }
    assert a.entries[..|a.entries|] == a.entries;
    return Ok(files);
  }

  /** The first bad entry decides. */
  lemma {:induction false} CollectStops(entries: seq<Entry>, n: nat)
    requires n <= |entries|
    ensures Collect(entries[..n]).Err? ==> Collect(entries) == Collect(entries[..n])
    decreases |entries| - n
  {
    if n == |entries| {
      assert entries[..n] == entries;
    } else {
      CollectStops(entries, n + 1);
      assert entries[..n + 1][..n] == entries[..n];
    }
  }

  predicate AllowedFile(m: Manifest, name: string)
  {
    name == FILE_NAME || HasPrefix(name, m.app.dir + "/") || exists i :: 0 <= i < |m.queries| && m.queries[i].file == name
  }

  function Texts(queries: seq<QuerySpec>, files: map<string, string>): map<string, string>
  {
    if queries == [] then map[]
    else
      var q := queries[|queries| - 1];
      Texts(queries[..|queries| - 1], files)[q.name := if q.file in files then files[q.file] else ""]
  }

  /** Parse: decoding, then the manifest's rules. */
  function Parse(decode: string -> Option<Manifest>, text: string): Option<Manifest>
  {
    var m := decode(text);
    if m.Some? && ValidManifest(m.value) then m else None
  }

  function Read(a: Archive, decode: string -> Option<Manifest>): Result<(Manifest, map<string, string>), BundleError>
  {
    var read := Files(a);
    if read.Err? then Err(read.error)
    else
      var files := read.value;
      if FILE_NAME !in files then Err(NoManifest)
      else
        var parsed := Parse(decode, files[FILE_NAME]);
        if parsed.None? then Err(InvalidManifest)
        else
          var m := parsed.value;
          if m.app.dir + "/index.html" !in files then Err(NoIndex)
          else if exists q :: q in m.queries && q.file !in files then Err(NoQueryFile)
          else if exists name :: name in files && !AllowedFile(m, name) then Err(Undeclared)
          else Ok((m, Texts(m.queries, files)))
  }

  method ReadBundle(a: Archive, decode: string -> Option<Manifest>) returns (r: Result<(Manifest, map<string, string>), BundleError>)
    ensures r == Read(a, decode)
  {
    hide ValidManifest, HasPrefix, Files;
    var read := ReadFiles(a);
    if read.Err? { return Err(read.error); }
    var files := read.value;
    if FILE_NAME !in files { return Err(NoManifest); }
    var decoded := decode(files[FILE_NAME]);
    if decoded.None? { return Err(InvalidManifest); }
    var m := decoded.value;
    var valid := ValidateManifest(m);
    if !valid { return Err(InvalidManifest); }
    if m.app.dir + "/index.html" !in files { return Err(NoIndex); }
    var queries: map<string, string> := map[];
    for i := 0 to |m.queries|
      invariant forall k :: 0 <= k < i ==> m.queries[k].file in files
      invariant queries == Texts(m.queries[..i], files)
    {
      var q := m.queries[i];
      if q.file !in files { return Err(NoQueryFile); }
      assert m.queries[..i + 1][..i] == m.queries[..i];
      queries := queries[q.name := files[q.file]];
    }
    assert m.queries[..|m.queries|] == m.queries;
    if exists name :: name in files && !AllowedFile(m, name) { return Err(Undeclared); }
    return Ok((m, queries));
  }

  // ---------- assets

  function RequestName(path: string): string
  {
    var name := if HasPrefix(path, "/") then path[1..] else path;
    if name == "" then "index.html" else name
  }

  function Find(entries: seq<Entry>, name: string): Option<string>
  {
    if entries == [] then None else if entries[0].name == name then Some(entries[0].contents) else Find(entries[1..], name)
  }

  /** The bytes served for a request path. */
  function Asset(entries: seq<Entry>, dir: string, path: string): Option<string>
  {
    var name := RequestName(path);
    if !SafePath(name) then None
    else
      var found := Find(entries, JoinPath(dir, name));
      if found.Some? && |found.value| > MAX_BUNDLE_BYTES then None else found
  }
}
