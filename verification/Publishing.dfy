/** The body of a publish job between its download and CompletePublishJob: what it hands on fits the manifest. */
module Publishing {
  import opened Wrappers
  import opened Manifests
  import opened Schema
  import opened Protocol
  import Bundles
  import BundleTrips
  import QueryExec
  import Validation

  /** intact says whether the download had the recorded size and checksum. */
  method CheckBundle(expected: Manifest, intact: bool, archive: Bundles.Archive, decode: string -> Option<Manifest>)
    returns (r: Option<seq<PublishedQuery>>)
    ensures var read := Bundles.Read(archive, decode);
            r.Some? <==>
            && intact && read.Ok? && read.value.0 == expected
            && forall i :: 0 <= i < |expected.queries| ==>
                 QueryExec.Publishable(QueryExec.TextOf(read.value.1, expected.queries[i].name), expected.queries[i].parameters)
    ensures r.Some? ==> FromManifest(expected, r.value)
    ensures r.Some? ==>
              var read := Bundles.Read(archive, decode);
              read.Ok? && forall i :: 0 <= i < |r.value| ==>
                   var q := r.value[i];
                   var text := QueryExec.TextOf(read.value.1, q.name);
                   q.sql == Validation.Clean(text)
  {
    hide Bundles.Files, Bundles.ValidManifest, QueryExec.Publishable;
    if !intact { return None; }
    var read := Bundles.ReadBundle(archive, decode);
    if read.Err? || read.value.0 != expected { return None; }
    var files := read.value.1;
    ReadValid(archive, decode);
    BundleTrips.NamesDistinct(expected);
    r := QueryExec.CheckQueries(expected, files);
  }

  lemma {:induction false} ReadValid(archive: Bundles.Archive, decode: string -> Option<Manifest>)
    requires Bundles.Read(archive, decode).Ok?
    ensures var m := Bundles.Read(archive, decode).value.0;
            && Bundles.ValidManifest(m) && Bundles.Files(archive).Ok?
            && Bundles.Read(archive, decode).value.1 == Bundles.Texts(m.queries, Bundles.Files(archive).value)
  {
    hide Bundles.Files, Bundles.ValidManifest, Bundles.Texts;
  }
}
