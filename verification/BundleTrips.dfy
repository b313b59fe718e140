/** What was bundled is what is read back and served. */
module BundleTrips {
  import opened Wrappers
  import opened Manifests
  import opened Slashes
  import opened Paths
  import opened Bundles
  import Hosts
  import Validation

  /** No file lies below another file. */
  ghost predicate Tree(p: Project)
  {
    forall a, b {:trigger a in p.files, b in p.files} | a in p.files && b in p.files :: !HasPrefix(b, a + "/")
  }

  ghost predicate Distinct(entries: seq<Entry>)
  {
    forall i, j :: 0 <= i < j < |entries| ==> entries[i].name != entries[j].name
  }

  ghost predicate AllSafe(entries: seq<Entry>)
  {
    forall i :: 0 <= i < |entries| ==> SafePath(entries[i].name) && entries[i].regular
  }

  /** The files are exactly the entries. */
  ghost predicate Holds(files: map<string, string>, entries: seq<Entry>)
  {
    && (forall i :: 0 <= i < |entries| ==> entries[i].name in files && files[entries[i].name] == entries[i].contents)
    && (forall name :: name in files ==> exists i :: 0 <= i < |entries| && entries[i].name == name)
  }

  lemma {:induction false} HoldsAppend(files: map<string, string>, entries: seq<Entry>, e: Entry)
    requires Holds(files, entries) && e.name !in files
    ensures Holds(files[e.name := e.contents], entries + [e])
  {
    var files', entries' := files[e.name := e.contents], entries + [e];
    forall name | name in files' ensures exists i :: 0 <= i < |entries'| && entries'[i].name == name {
      if name == e.name {
        assert entries'[|entries|].name == name;
      } else {
        var i :| 0 <= i < |entries| && entries[i].name == name;
        assert entries'[i].name == name;
      }
    }
  }

  lemma {:induction false} CollectAll(entries: seq<Entry>)
    requires Distinct(entries) && AllSafe(entries) && Size(entries) <= MAX_BUNDLE_BYTES
    ensures Collect(entries).Ok? && Holds(Collect(entries).value, entries)
    decreases |entries|
  {
    hide SafePath;
    if entries != [] {
      var front, last := entries[..|entries| - 1], entries[|entries| - 1];
      CollectAll(front);
      var files := Collect(front).value;
      assert forall i :: 0 <= i < |front| ==> front[i] == entries[i];
      HoldsAppend(files, front, last);
      assert front + [last] == entries;
    }
  }

  /** Whatever is read is safe, and comes from the entries. */
  lemma {:induction false} CollectedIsSafe(entries: seq<Entry>)
    requires Collect(entries).Ok?
    ensures AllSafe(entries)
    ensures forall name :: name in Collect(entries).value ==> exists i :: 0 <= i < |entries| && entries[i].name == name
    decreases |entries|
  {
    hide SafePath;
    if entries != [] {
      var front, last := entries[..|entries| - 1], entries[|entries| - 1];
      CollectedIsSafe(front);
      assert forall i :: 0 <= i < |front| ==> front[i] == entries[i];
      forall name | name in Collect(entries).value ensures exists i :: 0 <= i < |entries| && entries[i].name == name {
        if name == last.name {
          assert entries[|entries| - 1].name == name;
        } else {
          var i :| 0 <= i < |front| && front[i].name == name;
          assert entries[i].name == name;
        }
      }
    }
  }

  // ---------- the name of the manifest

  lemma {:induction false} ManifestIsSafe()
    ensures SafePath(FILE_NAME) && Free(FILE_NAME, '/') && !IsSql(FILE_NAME)
  {
    SplitFirst(FILE_NAME, "");
    NamesAreSafe(FILE_NAME);
    JsonExt();
  }

  lemma {:induction false} JsonExt()
    ensures Ext("oort.json") == ".json" && Validation.Lower(".json") != ".sql"
  {
    assert "oort.json"[..8] == "oort.jso" && "oort.jso"[..7] == "oort.js" && "oort.js"[..6] == "oort.j" && "oort.j"[..5] == "oort.";
    assert Ext("oort.") == ".";
    assert Ext("oort.j") == ".j";
    assert Ext("oort.js") == ".js";
    assert Ext("oort.jso") == ".jso";
  }

  lemma {:induction false} Unnested(dir: string, name: string)
    requires Free(name, '/')
    ensures !HasPrefix(name, dir + "/")
  {
    assert (dir + "/")[|dir|] == '/';
    if |name| > |dir| { assert name[..|dir| + 1][|dir|] == name[|dir|]; }
  }

  // ---------- a built bundle

  ghost predicate Bundle(p: Project, m: Manifest, json: Manifest -> string, names: seq<string>, entries: seq<Entry>)
  {
    && Tree(p) && m.app.dir != ".." && Lists(names, Bundled(p, m)) && Build(p, m, json, names) == Ok(entries)
  }

  function Index(m: Manifest): string { m.app.dir + "/index.html" }

  lemma {:induction false} EntriesOf(p: Project, m: Manifest, json: Manifest -> string, names: seq<string>, entries: seq<Entry>)
    requires Bundle(p, m, json, names, entries)
    ensures ValidManifest(m) && |entries| == |names| + 1 <= MAX_BUNDLE_FILES && entries[0] == Entry(FILE_NAME, json(m), true)
    ensures names != [] ==> Size(entries) <= MAX_BUNDLE_BYTES
    ensures forall i :: 0 <= i < |names| ==>
              names[i] in p.files && entries[i + 1] == Entry(names[i], p.files[names[i]], true)
              && (names[i] == m.app.dir || HasPrefix(names[i], m.app.dir + "/") || exists q :: q in m.queries && q.file == names[i])
    ensures forall name :: name in p.files && HasPrefix(name, m.app.dir + "/") ==> name in names
    ensures forall q :: q in m.queries ==> q.file in p.files && q.file in names
  {
    hide ValidManifest, HasPrefix, Size, Tree;
    var packed := Pack(p, names);
    forall i | 0 <= i < |names|
      ensures names[i] in p.files && entries[i + 1] == Entry(names[i], p.files[names[i]], true)
      ensures names[i] == m.app.dir || HasPrefix(names[i], m.app.dir + "/") || exists q :: q in m.queries && q.file == names[i] {
      assert names[i] in Bundled(p, m);
      assert entries[i + 1] == packed[i];
    }
    forall q | q in m.queries ensures q.file in p.files && q.file in names { assert q.file in Bundled(p, m); }
    forall name | name in p.files && HasPrefix(name, m.app.dir + "/") ensures name in names { assert name in Bundled(p, m); }
  }

  lemma {:induction false} QueryFilesAreSql(m: Manifest)
    requires ValidManifest(m)
    ensures forall q :: q in m.queries ==> IsSql(q.file)
  {
    hide Hosts.ValidSlug, SafePath, IsSql;
  }

  /** With an index below the app directory, the directory is no file and the manifest's name is taken by nothing else. */
  lemma {:induction false} EntriesDistinct(p: Project, m: Manifest, json: Manifest -> string, names: seq<string>, entries: seq<Entry>)
    requires Bundle(p, m, json, names, entries) && Index(m) in p.files
    ensures Distinct(entries) && m.app.dir !in p.files
  {
    hide ValidManifest, Size, Pack, SafePath, Build;
    EntriesOf(p, m, json, names, entries);
    QueryFilesAreSql(m);
    ManifestIsSafe();
    assert HasPrefix(Index(m), m.app.dir + "/");
    forall i, j | 0 <= i < j < |entries| ensures entries[i].name != entries[j].name {
      assert entries[j].name == names[j - 1];
      if i == 0 { Unnested(m.app.dir, FILE_NAME); } else { assert entries[i].name == names[i - 1]; }
    }
  }

  lemma {:induction false} TextsAt(queries: seq<QuerySpec>, files: map<string, string>, other: map<string, string>)
    requires forall i :: 0 <= i < |queries| ==> queries[i].file in files && queries[i].file in other && files[queries[i].file] == other[queries[i].file]
    requires forall i, j :: 0 <= i < j < |queries| ==> queries[i].name != queries[j].name
    ensures Texts(queries, files) == Texts(queries, other)
    ensures forall i :: 0 <= i < |queries| ==> queries[i].name in Texts(queries, files) && Texts(queries, files)[queries[i].name] == files[queries[i].file]
    decreases |queries|
  {
    if queries != [] { TextsAt(queries[..|queries| - 1], files, other); }
  }

  lemma {:induction false} NamesDistinct(m: Manifest)
    requires ValidManifest(m)
    ensures forall i, j :: 0 <= i < j < |m.queries| ==> m.queries[i].name != m.queries[j].name
  {
    hide Hosts.ValidSlug, SafePath, IsSql;
  }

  ghost predicate Readable(p: Project, m: Manifest, names: seq<string>, size: nat)
  {
    && size <= MAX_BUNDLE_BYTES && Index(m) in p.files
    && forall i :: 0 <= i < |names| ==> SafePath(names[i])
  }

  lemma {:induction false} FilesOf(p: Project, m: Manifest, json: Manifest -> string, names: seq<string>, entries: seq<Entry>, size: nat)
    requires Bundle(p, m, json, names, entries) && Readable(p, m, names, size)
    ensures Files(Archive(size, entries)).Ok? && Holds(Files(Archive(size, entries)).value, entries)
  {
    hide ValidManifest, Size, Pack, SafePath, Build, Collect, Holds, Distinct;
    EntriesOf(p, m, json, names, entries);
    EntriesDistinct(p, m, json, names, entries);
    ManifestIsSafe();
    assert Index(m) in names by { assert HasPrefix(Index(m), m.app.dir + "/"); }
    forall i | 0 <= i < |entries| ensures SafePath(entries[i].name) && entries[i].regular {
      if i > 0 { assert entries[i] == Entry(names[i - 1], p.files[names[i - 1]], true); }
    }
    CollectAll(entries);
  }

  /** Reading gives back the manifest and the text of every query. */
  lemma {:induction false} ReadsBack(
    p: Project, m: Manifest, json: Manifest -> string, decode: string -> Option<Manifest>, names: seq<string>, entries: seq<Entry>, size: nat)
    requires Bundle(p, m, json, names, entries) && Readable(p, m, names, size) && decode(json(m)) == Some(m)
    ensures Read(Archive(size, entries), decode) == Ok((m, Texts(m.queries, p.files)))
    ensures forall i :: 0 <= i < |m.queries| ==>
              var q := m.queries[i];
              q.name in Texts(m.queries, p.files) && q.file in p.files && Texts(m.queries, p.files)[q.name] == p.files[q.file]
  {
    hide ValidManifest, Size, Pack, SafePath, Build, Files, Tree, HasPrefix, Texts;
    EntriesOf(p, m, json, names, entries);
    EntriesDistinct(p, m, json, names, entries);
    FilesOf(p, m, json, names, entries, size);
    var files := Files(Archive(size, entries)).value;
    forall k | 0 <= k < |names| ensures names[k] in files && files[names[k]] == p.files[names[k]] { assert entries[k + 1].name == names[k]; }
    assert Index(m) in names by { IndexIsBelow(m); }
    forall name | name in files ensures AllowedFile(m, name) {
      var i :| 0 <= i < |entries| && entries[i].name == name;
      if i > 0 { assert name == names[i - 1]; }
    }
    NamesDistinct(m);
    TextsAt(m.queries, files, p.files);
    TextsAt(m.queries, p.files, files);
    assert files[FILE_NAME] == json(m) by { assert entries[0].name == FILE_NAME; }
  }

  lemma {:induction false} IndexIsBelow(m: Manifest)
    ensures HasPrefix(Index(m), m.app.dir + "/") && !Free(Index(m), '/')
  {
    assert Index(m)[|m.app.dir|] == '/';
  }

  /**
   A built bundle reads back exactly when its archive is within the limit, the app directory holds an index.html and
   every bundled name is safe; it then gives the same manifest and query texts.
  */
  lemma {:induction false} RoundTripIff(
    p: Project, m: Manifest, json: Manifest -> string, decode: string -> Option<Manifest>, names: seq<string>, entries: seq<Entry>, size: nat)
    requires Bundle(p, m, json, names, entries) && decode(json(m)) == Some(m)
    ensures Read(Archive(size, entries), decode).Ok? <==> Readable(p, m, names, size)
    ensures Readable(p, m, names, size) ==> Read(Archive(size, entries), decode) == Ok((m, Texts(m.queries, p.files)))
  {
    hide ValidManifest, Size, Pack, SafePath, Build, Tree, HasPrefix, Texts;
    if Readable(p, m, names, size) {
      ReadsBack(p, m, json, decode, names, entries, size);
    }
    if Read(Archive(size, entries), decode).Ok? {
      EntriesOf(p, m, json, names, entries);
      CollectedIsSafe(entries);
      forall k | 0 <= k < |names| ensures SafePath(names[k]) { assert entries[k + 1].name == names[k]; }
      ReadFinds(p, m, json, decode, names, entries, size);
    }
  }

  /** The manifest that is read is the one that was written, so the index it asks for was bundled. */
  lemma {:induction false} ReadFinds(
    p: Project, m: Manifest, json: Manifest -> string, decode: string -> Option<Manifest>, names: seq<string>, entries: seq<Entry>, size: nat)
    requires Bundle(p, m, json, names, entries) && decode(json(m)) == Some(m) && Read(Archive(size, entries), decode).Ok?
    ensures Index(m) in p.files
  {
    hide ValidManifest, Size, Pack, SafePath, Build, Tree, HasPrefix, Texts;
    EntriesOf(p, m, json, names, entries);
    CollectedIsSafe(entries);
    FirstStays(entries);
    var files := Collect(entries).value;
    var i :| 0 <= i < |entries| && entries[i].name == Index(m);
    ManifestIsSafe();
    IndexIsBelow(m);
    assert i > 0;
    assert names[i - 1] == Index(m);
  }

  /** An entry that was read is not replaced by a later one. */
  lemma {:induction false} FirstStays(entries: seq<Entry>)
    requires entries != [] && Collect(entries).Ok?
    ensures entries[0].name in Collect(entries).value && Collect(entries).value[entries[0].name] == entries[0].contents
    decreases |entries|
  {
    hide SafePath;
    var front := entries[..|entries| - 1];
    if front != [] { FirstStays(front); assert front[0] == entries[0]; } else { assert Collect(front) == Ok(map[]); }
  }

  /** ".." passes as a safe directory, but no bundle of it can be read. */
  lemma {:induction false} ParentNeverReads(a: Archive, decode: string -> Option<Manifest>)
    requires Read(a, decode).Ok?
    ensures Read(a, decode).value.0.app.dir != ".."
  {
    hide ValidManifest, Texts, Clean;
    CollectedIsSafe(a.entries);
    var m := Read(a, decode).value.0;
    var i :| 0 <= i < |a.entries| && a.entries[i].name == m.app.dir + "/index.html";
    assert SafePath(a.entries[i].name);
    assert HasPrefix(".." + "/index.html", "../");
  }

  // ---------- serving

  lemma {:induction false} FindAt(entries: seq<Entry>, name: string)
    ensures Find(entries, name).None? <==> forall i :: 0 <= i < |entries| ==> entries[i].name != name
    ensures Distinct(entries) ==> forall i :: 0 <= i < |entries| && entries[i].name == name ==> Find(entries, name) == Some(entries[i].contents)
    decreases |entries|
  {
    if entries != [] {
      var rest := entries[1..];
      FindAt(rest, name);
      assert forall i :: 0 <= i < |rest| ==> rest[i] == entries[i + 1];
      if Distinct(entries) {
        assert Distinct(rest);
        forall i | 0 <= i < |entries| && entries[i].name == name ensures Find(entries, name) == Some(entries[i].contents) {
          if i > 0 { assert rest[i - 1] == entries[i]; }
        }
      }
      if entries[0].name != name && (forall i :: 0 <= i < |rest| ==> rest[i].name != name) {
        forall i | 0 <= i < |entries| ensures entries[i].name != name { if i > 0 { assert rest[i - 1] == entries[i]; } }
      }
    }
  }

  lemma {:induction false} SmallEntry(entries: seq<Entry>, i: nat)
    requires i < |entries|
    ensures |entries[i].contents| <= Size(entries)
    decreases |entries|
  {
    if i < |entries| - 1 { SmallEntry(entries[..|entries| - 1], i); }
  }

  /** A request for a safe path serves the file bundled under the app directory, and nothing else; "/" serves the index. */
  lemma {:induction false} ServesWhatWasBundled(
    p: Project, m: Manifest, json: Manifest -> string, names: seq<string>, entries: seq<Entry>, path: string)
    requires Bundle(p, m, json, names, entries) && Index(m) in p.files && SafePath(RequestName(path)) && RequestName(path) != ".."
    ensures var name := m.app.dir + "/" + RequestName(path);
            Asset(entries, m.app.dir, path) == if name in p.files then Some(p.files[name]) else None
  {
    hide ValidManifest, Pack, SafePath, Build, Tree, Size, RequestName, Find, JoinPath, Lists;
    var name := m.app.dir + "/" + RequestName(path);
    BundleIsValid(p, m, json, names, entries);
    DirIsSafe(m);
    SafeBelow(m.app.dir, RequestName(path));
    FoundEntry(p, m, json, names, entries, name);
  }

  /** A name below the app directory is found exactly when the project has the file. */
  lemma {:induction false} FoundEntry(
    p: Project, m: Manifest, json: Manifest -> string, names: seq<string>, entries: seq<Entry>, name: string)
    requires Bundle(p, m, json, names, entries) && Index(m) in p.files && HasPrefix(name, m.app.dir + "/")
    ensures if name in p.files then Find(entries, name) == Some(p.files[name]) && |p.files[name]| <= MAX_BUNDLE_BYTES
            else Find(entries, name).None?
  {
    hide ValidManifest, Pack, SafePath, Build, Tree, Size, Find;
    EntriesOf(p, m, json, names, entries);
    EntriesDistinct(p, m, json, names, entries);
    FindAt(entries, name);
    ManifestIsSafe();
    Unnested(m.app.dir, FILE_NAME);
    if name in p.files {
      var k :| 0 <= k < |names| && names[k] == name;
      assert entries[k + 1].name == name;
      SmallEntry(entries, k + 1);
    } else {
      forall i | 0 <= i < |entries| ensures entries[i].name != name { if i > 0 { assert entries[i].name == names[i - 1]; } }
    }
  }

  lemma {:induction false} BundleIsValid(p: Project, m: Manifest, json: Manifest -> string, names: seq<string>, entries: seq<Entry>)
    requires Bundle(p, m, json, names, entries)
    ensures ValidManifest(m)
  {
    hide ValidManifest, Pack, SafePath, Tree, Size, Lists;
  }

  lemma {:induction false} DirIsSafe(m: Manifest)
    requires ValidManifest(m)
    ensures SafePath(m.app.dir)
  {
    hide Hosts.ValidSlug, SafePath, IsSql;
  }
}
