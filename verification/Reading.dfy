/**
 Exactly which archives are read as an app bundle, whoever built them: by their entries and the rules of the manifest,
 written out.
*/
module Reading {
  import opened Wrappers
  import opened Manifests
  import opened Paths
  import opened Bundles
  import opened BundleTrips
  import Acceptance
  import Hosts
  import QueryExec
  import Validation

  // ---------- the manifest's rules

  predicate SlugRules(s: string)
  {
    && 3 <= |s| <= 63 && s[0] != '-' && s[|s| - 1] != '-'
    && forall i :: 0 <= i < |s| ==> 'a' <= s[i] <= 'z' || '0' <= s[i] <= '9' || s[i] == '-'
  }

  /** Ends in ".sql", in any case. */
  predicate SqlName(f: string)
  {
    var n := |f|;
    n >= 4 && f[n - 4] == '.' && f[n - 3] in {'s', 'S'} && f[n - 2] in {'q', 'Q'} && f[n - 1] in {'l', 'L'}
  }

  predicate QueryRules(q: QuerySpec)
  {
    && SlugRules(q.name) && SafePath(q.file) && SqlName(q.file)
    && forall p :: p in q.parameters ==>
         && p != "" && Acceptance.Letter(p[0]) && Acceptance.AllWord(p, 0, |p|)
         && q.parameters[p] in {"string", "number", "integer", "boolean"}
  }

  predicate ManifestRules(m: Manifest)
  {
    && SlugRules(m.app.slug) && (forall i :: 0 <= i < |m.app.slug| - 1 ==> !(m.app.slug[i] == '-' && m.app.slug[i + 1] == '-'))
    && SafePath(m.app.dir)
    && (forall i :: 0 <= i < |m.queries| ==> QueryRules(m.queries[i]))
    && (forall i, j :: 0 <= i < j < |m.queries| ==> m.queries[i].name != m.queries[j].name)
    && (forall i, j :: 0 <= i < j < |m.queries| ==> m.queries[i].file != m.queries[j].file)
  }

  /** An extension is what is behind the last dot, with it. */
  lemma {:induction false} ExtIsSuffix(f: string)
    ensures |Ext(f)| <= |f| && Ext(f) == f[|f| - |Ext(f)|..]
    decreases |f|
  {
    if f != "" && f[|f| - 1] != '/' && f[|f| - 1] != '.' {
      var front := f[..|f| - 1];
      ExtIsSuffix(front);
      if Ext(front) != "" { assert Ext(f) == f[|f| - |Ext(f)|..]; }
    }
  }

  lemma {:induction false} ExtStep(f: string, c: char)
    requires c != '/' && c != '.'
    ensures Ext(f + [c]) == if Ext(f) == "" then "" else Ext(f) + [c]
  {
    assert (f + [c])[..|f|] == f;
  }

  lemma {:induction false} SqlExt(f: string)
    requires SqlName(f)
    ensures Ext(f) == f[|f| - 4..]
  {
    hide Ext;
    var n := |f|;
    var g := f[..n - 3];
    DotExt(g);
    assert f[..n - 2] == g + [f[n - 3]] && f[..n - 1] == f[..n - 2] + [f[n - 2]] && f == f[..n - 1] + [f[n - 1]];
    ExtStep(g, f[n - 3]);
    ExtStep(f[..n - 2], f[n - 2]);
    ExtStep(f[..n - 1], f[n - 1]);
  }

  lemma {:induction false} DotExt(f: string)
    requires f != "" && f[|f| - 1] == '.'
    ensures Ext(f) == "."
  {
  }

  lemma {:induction false} SqlIff(f: string)
    ensures IsSql(f) <==> SqlName(f)
  {
    hide Ext, Validation.Lower;
    ExtIsSuffix(f);
    forall s: string ensures |Validation.Lower(s)| == |s| {}
    var ext := Ext(f);
    forall k | 0 <= k < |ext| ensures Validation.Lower(ext)[k] == Acceptance.LowerChar(ext[k]) { Acceptance.LowerAt(ext, k); }
    if SqlName(f) { SqlExt(f); }
  }

  lemma {:induction false} ParameterIff(p: string)
    ensures ParameterName(p) <==> p != "" && Acceptance.Letter(p[0]) && Acceptance.AllWord(p, 0, |p|)
  {
    if ParameterName(p) { forall k | 0 <= k < |p| ensures Acceptance.WordChar(p[k]) { assert Validation.IsWord(p[k]); } }
    if Acceptance.AllWord(p, 0, |p|) { forall k | 0 <= k < |p| ensures Validation.IsWord(p[k]) { assert Acceptance.WordChar(p[k]); } }
  }

  lemma {:induction false} SlugIff(s: string)
    ensures Hosts.ValidSlug(s) <==> SlugRules(s)
  {
    if SlugRules(s) { forall i | 0 <= i < |s| ensures Hosts.SlugChar(s[i]) {} }
    if Hosts.ValidSlug(s) { forall i | 0 <= i < |s| ensures 'a' <= s[i] <= 'z' || '0' <= s[i] <= '9' || s[i] == '-' { assert Hosts.SlugChar(s[i]); } }
  }

  lemma {:induction false} DashesIff(s: string)
    ensures Hosts.HasDashes(s) <==> exists i :: 0 <= i < |s| - 1 && s[i] == '-' && s[i + 1] == '-'
  {
    if exists i :: 0 <= i < |s| - 1 && s[i] == '-' && s[i + 1] == '-' {
      var i :| 0 <= i < |s| - 1 && s[i] == '-' && s[i + 1] == '-';
      assert Hosts.DashesAt(s, i);
    }
  }

  lemma {:induction false} QueryIff(q: QuerySpec)
    ensures ValidQuery(q) <==> QueryRules(q)
  {
    hide Hosts.ValidSlug, SlugRules, IsSql, SqlName, ParameterName, Acceptance.Letter, Acceptance.AllWord, SafePath;
    SlugIff(q.name);
    SqlIff(q.file);
    forall p: string ensures ParameterName(p) <==> p != "" && Acceptance.Letter(p[0]) && Acceptance.AllWord(p, 0, |p|) { ParameterIff(p); }
  }

  /** The two sets of the loop are the two rules on pairs. */
  lemma {:induction false} RulesIff(m: Manifest)
    ensures ValidManifest(m) <==> ManifestRules(m)
  {
    hide Hosts.ValidSlug, SlugRules, Hosts.HasDashes, ValidQuery, QueryRules, SafePath;
    SlugIff(m.app.slug);
    DashesIff(m.app.slug);
    forall q: QuerySpec ensures ValidQuery(q) <==> QueryRules(q) { QueryIff(q); }
  }

  // ---------- the entries

  /** The limits, and distinct safe names of regular files. */
  ghost predicate Intact(a: Archive)
  {
    && a.size <= 25 * 1024 * 1024 && |a.entries| <= 1000 && Size(a.entries) <= 25 * 1024 * 1024
    && (forall i :: 0 <= i < |a.entries| ==> SafePath(a.entries[i].name) && a.entries[i].regular)
    && (forall i, j :: 0 <= i < j < |a.entries| ==> a.entries[i].name != a.entries[j].name)
  }

  lemma {:induction false} CollectedIsIntact(entries: seq<Entry>)
    requires Collect(entries).Ok?
    ensures Distinct(entries) && AllSafe(entries) && Size(entries) <= 25 * 1024 * 1024 && Holds(Collect(entries).value, entries)
    decreases |entries|
  {
    hide SafePath, Distinct, AllSafe, Holds;
    if entries == [] {
      NoEntries();
    } else {
      var front, last := entries[..|entries| - 1], entries[|entries| - 1];
      CollectedIsIntact(front);
      var files := Collect(front).value;
      DistinctAppend(files, front, last);
      HoldsAppend(files, front, last);
      assert front + [last] == entries;
      CollectedIsSafe(entries);
    }
  }

  lemma {:induction false} NoEntries()
    ensures Distinct([]) && AllSafe([]) && Holds(map[], [])
  {
  }

  lemma {:induction false} DistinctAppend(files: map<string, string>, entries: seq<Entry>, e: Entry)
    requires Holds(files, entries) && Distinct(entries) && e.name !in files
    ensures Distinct(entries + [e])
  {
  }

  lemma {:induction false} FilesIff(a: Archive)
    ensures Files(a).Ok? <==> Intact(a)
    ensures Files(a).Ok? ==> Holds(Files(a).value, a.entries)
  {
    hide Collect, Holds, SafePath, Size;
    if Collect(a.entries).Ok? { CollectedIsIntact(a.entries); }
    if Intact(a) { CollectAll(a.entries); }
  }

  ghost predicate HasEntry(a: Archive, name: string)
  {
    exists i :: 0 <= i < |a.entries| && a.entries[i].name == name
  }

  predicate Declared(m: Manifest, name: string)
  {
    name == "oort.json" || m.app.dir + "/" <= name || exists i :: 0 <= i < |m.queries| && m.queries[i].file == name
  }

  /** The entry holds the manifest, its rules are met, the index and the query files are there, and nothing else is. */
  ghost predicate IsBundle(a: Archive, decode: string -> Option<Manifest>, k: nat, m: Manifest)
  {
    && k < |a.entries| && a.entries[k].name == "oort.json" && decode(a.entries[k].contents) == Some(m) && ManifestRules(m)
    && HasEntry(a, m.app.dir + "/index.html")
    && (forall i :: 0 <= i < |m.queries| ==> HasEntry(a, m.queries[i].file))
    && (forall i :: 0 <= i < |a.entries| ==> Declared(m, a.entries[i].name))
  }

  /** Each query of the manifest, and no other, has the contents of its entry. */
  ghost predicate TextsOf(texts: map<string, string>, m: Manifest, a: Archive)
  {
    && (forall name :: name in texts <==> exists i :: 0 <= i < |m.queries| && m.queries[i].name == name)
    && forall i, k :: 0 <= i < |m.queries| && 0 <= k < |a.entries| && a.entries[k].name == m.queries[i].file ==>
         m.queries[i].name in texts && texts[m.queries[i].name] == a.entries[k].contents
  }

  lemma {:induction false} TextKeys(queries: seq<QuerySpec>, files: map<string, string>)
    ensures forall name :: name in Texts(queries, files) <==> exists i :: 0 <= i < |queries| && queries[i].name == name
    decreases |queries|
  {
    if queries != [] {
      var front := queries[..|queries| - 1];
      TextKeys(front, files);
      forall name ensures name in Texts(queries, files) <==> exists i :: 0 <= i < |queries| && queries[i].name == name {
        if exists i :: 0 <= i < |front| && front[i].name == name {
          var i :| 0 <= i < |front| && front[i].name == name;
          assert queries[i].name == name;
        }
        if name == queries[|queries| - 1].name { assert queries[|queries| - 1].name == name; }
        if exists i :: 0 <= i < |queries| && queries[i].name == name {
          var i :| 0 <= i < |queries| && queries[i].name == name;
          if i < |front| { assert front[i].name == name; }
        }
      }
    }
  }

  lemma {:induction false} ReadTexts(m: Manifest, files: map<string, string>, a: Archive)
    requires Holds(files, a.entries) && ManifestRules(m) && forall i :: 0 <= i < |m.queries| ==> m.queries[i].file in files
    ensures TextsOf(Texts(m.queries, files), m, a)
  {
    hide SlugRules, SafePath, QueryRules, Texts;
    TextKeys(m.queries, files);
    TextsAt(m.queries, files, files);
  }

  lemma {:induction false} EntryIff(files: map<string, string>, a: Archive, name: string)
    requires Holds(files, a.entries)
    ensures name in files <==> HasEntry(a, name)
  {
  }

  lemma {:induction false} DeclaredIff(m: Manifest, name: string)
    ensures AllowedFile(m, name) <==> Declared(m, name)
  {
  }

  /**
   An archive is read, as this manifest with these texts, exactly when it is intact and one of its entries makes it a bundle
   of the manifest.
  */
  lemma {:induction false} ReadExactly(a: Archive, decode: string -> Option<Manifest>)
    ensures Read(a, decode).Ok? <==> Intact(a) && exists k: nat, m :: IsBundle(a, decode, k, m)
    ensures Read(a, decode).Ok? ==>
              var (m, texts) := Read(a, decode).value;
              (exists k: nat :: IsBundle(a, decode, k, m)) && TextsOf(texts, m, a)
  {
    hide Files, Intact, IsBundle, TextsOf, Texts, ValidManifest, ManifestRules, AllowedFile, Holds;
    FilesIff(a);
    if Read(a, decode).Ok? {
      var k := ReadIsBundle(a, decode);
    }
    if Intact(a) && exists k: nat, m :: IsBundle(a, decode, k, m) {
      var k: nat, m :| IsBundle(a, decode, k, m);
      BundleIsRead(a, decode, k, m);
    }
  }

  lemma {:induction false} ReadIsBundle(a: Archive, decode: string -> Option<Manifest>) returns (k: nat)
    requires Read(a, decode).Ok?
    ensures IsBundle(a, decode, k, Read(a, decode).value.0) && TextsOf(Read(a, decode).value.1, Read(a, decode).value.0, a)
  {
    hide Files, Intact, Texts, TextsOf, ValidManifest, ManifestRules, AllowedFile, Declared, HasEntry;
    FilesIff(a);
    var files, m := Files(a).value, Read(a, decode).value.0;
    RulesIff(m);
    k :| 0 <= k < |a.entries| && a.entries[k].name == FILE_NAME;
    forall name: string ensures name in files <==> HasEntry(a, name) { EntryIff(files, a, name); }
    forall i | 0 <= i < |m.queries| ensures m.queries[i].file in files { assert m.queries[i] in m.queries; }
    forall i | 0 <= i < |a.entries| ensures Declared(m, a.entries[i].name) {
      assert a.entries[i].name in files;
      DeclaredIff(m, a.entries[i].name);
    }
    ReadTexts(m, files, a);
  }

  lemma {:induction false} BundleIsRead(a: Archive, decode: string -> Option<Manifest>, k: nat, m: Manifest)
    requires Intact(a) && IsBundle(a, decode, k, m)
    ensures Read(a, decode).Ok?
  {
    hide Files, Intact, Texts, ValidManifest, ManifestRules, AllowedFile, Declared, HasEntry;
    FilesIff(a);
    var files := Files(a).value;
    RulesIff(m);
    assert files[FILE_NAME] == a.entries[k].contents;
    forall name: string ensures name in files <==> HasEntry(a, name) { EntryIff(files, a, name); }
    forall name | name in files ensures AllowedFile(m, name) {
      var i :| 0 <= i < |a.entries| && a.entries[i].name == name;
      DeclaredIff(m, name);
    }
  }

  // ---------- what is built

  /**
   A bundle is built exactly when the manifest's rules are met, the app directory and the query files are there, no file
   of the bundle lies outside the project, and it keeps within 1000 files and 25 MiB.
  */
  lemma {:induction false} BuildExactly(p: Project, m: Manifest, json: Manifest -> string, names: seq<string>)
    requires Lists(names, Bundled(p, m))
    ensures Build(p, m, json, names).Ok? <==>
              && ManifestRules(m)
              && (m.app.dir == ".." || m.app.dir in p.dirs || m.app.dir in p.files)
              && (forall i :: 0 <= i < |m.queries| ==> m.queries[i].file in p.files)
              && (forall i :: 0 <= i < |names| ==> !("../" <= names[i]))
              && |names| < 1000
              && (names == [] || Size([Entry("oort.json", json(m), true)] + Pack(p, names)) <= 25 * 1024 * 1024)
  {
    hide ValidManifest, ManifestRules, Pack, Size, Walk, SafePath;
    RulesIff(m);
    if ManifestRules(m) {
      QueryFilesAreInside(m);
      forall i | 0 <= i < |names| && "../" <= names[i] ensures names[i] in Walk(p, m.app.dir) && HasPrefix(names[i], "../") {
        assert names[i] in Bundled(p, m);
      }
      forall name | name in Walk(p, m.app.dir) && HasPrefix(name, "../") ensures exists i :: 0 <= i < |names| && "../" <= names[i] {
        assert name in Bundled(p, m);
      }
    }
  }

  lemma {:induction false} QueryFilesAreInside(m: Manifest)
    requires ManifestRules(m)
    ensures forall q :: q in m.queries ==> !("../" <= q.file)
  {
    hide SlugRules, SqlName;
    forall q | q in m.queries ensures !("../" <= q.file) {
      assert QueryRules(q);
      assert !HasPrefix(q.file, "../");
    }
  }
}
