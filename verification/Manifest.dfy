/** The manifest of an app bundle, oort.json. */
module Manifests {
  type ParameterTypes = map<string, string>

  datatype AppSpec = AppSpec(slug: string, dir: string)

  datatype QuerySpec = QuerySpec(name: string, file: string, parameters: ParameterTypes)

  datatype Manifest = Manifest(app: AppSpec, queries: seq<QuerySpec>)
}
