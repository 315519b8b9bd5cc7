/** JSON values as Go's `encoding/json` decodes them into `any`, and the walks over them. */
module JsonTree {

  datatype Option<+T> = None | Some(value: T)

  datatype Json =
    | Null
    | Bool(b: bool)
    | Num(n: real)
    | Str(s: string)
    | Arr(items: seq<Json>)
    | Obj(fields: Object)

  type Object = map<string, Json>

  predicate HasStr(o: Object, key: string) {
    key in o && o[key].Str?
  }

  predicate HasNum(o: Object, key: string) {
    key in o && o[key].Num?
  }

  predicate HasArr(o: Object, key: string) {
    key in o && o[key].Arr?
  }

  predicate HasObj(o: Object, key: string) {
    key in o && o[key].Obj?
  }

  predicate HasNonNull(o: Object, key: string) {
    key in o && o[key] != Null
  }

  /** The two-value type assertion `x, _ := o[key].(string)`. */
  function StrOr(o: Object, key: string): (s: string)
    ensures s != "" ==> HasStr(o, key) && o[key].s == s
    ensures HasStr(o, key) ==> s == o[key].s
  {
    if HasStr(o, key) then o[key].s else ""
  }

  // `b` keeps every key of `a` and differs from it at most under `keys`.
  ghost predicate SameExcept(a: Object, b: Object, keys: set<string>) {
    && a.Keys <= b.Keys <= a.Keys + keys
    && forall k :: k in a && k !in keys ==> b[k] == a[k]
  }

  // ----- locations inside a value -----

  datatype PathStep = Key(key: string) | At(index: nat)
  type Path = seq<PathStep>

  ghost predicate Reaches(j: Json, path: Path, target: Json)
    decreases |path|
  {
    if path == [] then j == target
    else match path[0]
      case Key(k) => j.Obj? && k in j.fields && Reaches(j.fields[k], path[1..], target)
      case At(i) => j.Arr? && i < |j.items| && Reaches(j.items[i], path[1..], target)
  }

  // `target` is `j` itself or sits anywhere inside it.
  ghost predicate Within(j: Json, target: Json) {
    exists path :: Reaches(j, path, target)
  }

  lemma WithinField(j: Json, key: string, target: Json)
    requires j.Obj? && key in j.fields && Within(j.fields[key], target)
    ensures Within(j, target)
  {
    var path :| Reaches(j.fields[key], path, target);
    assert ([Key(key)] + path)[1..] == path;
    assert Reaches(j, [Key(key)] + path, target);
  }

  lemma WithinItem(j: Json, i: nat, target: Json)
    requires j.Arr? && i < |j.items| && Within(j.items[i], target)
    ensures Within(j, target)
  {
    var path :| Reaches(j.items[i], path, target);
    assert ([At(i)] + path)[1..] == path;
    assert Reaches(j, [At(i)] + path, target);
  }
}
