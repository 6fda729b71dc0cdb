/** What every step handler shares: the operation it is told to perform and the
    typed results the newer handlers return. */
module Steps {

  datatype Op = Create | Update | Delete

  datatype VarResult = VarResult(name: string, value: string)

  datatype ObjectResult = ObjectResult(
    apiVersion: string, kind: string, name: string, namespace: string, operation: string)

  datatype ChartResult = ChartResult(
    releaseName: string, chartName: string, chartVersion: string, appVersion: string,
    namespace: string, status: string, revision: int, updated: int, operation: string)

  /** The value a newer handler returns, as the status code sees it through `any`;
      `Other` is a value of any other type. */
  datatype TypedResult = VarRes(v: VarResult) | ObjectRes(o: ObjectResult) | ChartRes(c: ChartResult) | Other
}

/** Unstructured Kubernetes objects: a tree of maps, lists and scalars. */
module Unstructured {
  import opened Wrappers

  datatype Value =
    | Str(s: string)
    | Int(i: int)
    | Bool(b: bool)
    | Null
    | List(items: seq<Value>)
    | Map(fields: map<string, Value>)

  type Object = map<string, Value>

  /** `unstructured.NestedString`-style read used by `GetAPIVersion`, `GetKind`,
      `GetName`, `GetNamespace`: "" when a field is missing or not a string. */
  function NestedString(obj: Object, path: seq<string>): string
    decreases |path|
  {
    if |path| == 0 || path[0] !in obj then ""
    else
      match obj[path[0]]
      case Str(s) => if |path| == 1 then s else ""
      case Map(m) => if |path| == 1 then "" else NestedString(m, path[1..])
      case _ => ""
  }

  function GetAPIVersion(obj: Object): string { NestedString(obj, ["apiVersion"]) }
  function GetKind(obj: Object): string { NestedString(obj, ["kind"]) }
  function GetName(obj: Object): string { NestedString(obj, ["metadata", "name"]) }
  function GetNamespace(obj: Object): string { NestedString(obj, ["metadata", "namespace"]) }

  datatype GroupVersion = GroupVersion(group: string, version: string)

  datatype GroupVersionKind = GroupVersionKind(group: string, version: string, kind: string)

  function WithKind(gv: GroupVersion, kind: string): GroupVersionKind {
    GroupVersionKind(gv.group, gv.version, kind)
  }

  /** Coordinates of a Get, Apply or Delete call of the dynamic client. */
  datatype Target = Target(gvk: GroupVersionKind, namespace: string, name: string)

  /** The dynamic client and the API machinery it relies on; none of these is part of this model.
      `parseGroupVersion` is `schema.ParseGroupVersion`; `extract` returns the selected value
      (if any) together with the error (if any), as the Go function does. */
  datatype Cluster = Cluster(
    parseGroupVersion: string -> Result<GroupVersion>,
    get: Target -> Result<Object>,
    extract: (Object, string) -> (Option<Any>, Option<Error>),
    apply: (Object, Target) -> Option<Error>,
    delete: Target -> Option<Error>)

  /** A Go `any` as `Strval` sees it: a string, a byte slice (by the text it holds), an error, a `fmt.Stringer`
      (with what its `String()` returns) or anything else (with its `%v` rendering). */
  datatype Any = AString(s: string) | ABytes(text: string) | AError(e: Error) | AStringer(str: string) | AOther(formatted: string)
}
