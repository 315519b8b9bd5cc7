/** agent/canvas_payload.go, lines 35-344: validation and defaulting of one canvas panel. */
module CanvasPanel {
  import opened JsonTree

  datatype Code =
    | InvalidJson
    | MissingString
    | MissingCollection
    | MissingNumber
    | MissingObject
    | MissingSubmit
    | InvalidItem
    | InvalidFieldType
    | InvalidActionTarget
    | MissingCloseIdentity
    | UnknownContent

  datatype Issue = Issue(code: Code, path: Path)

  datatype Result<+T> = Ok(value: T) | Rejected(issue: Issue) {
    predicate IsFailure() { Rejected? }
    function PropagateFailure<U>(): Result<U>
      requires Rejected?
    {
      Rejected(issue)
    }
    function Extract(): T
      requires Ok?
    {
      value
    }
  }

  datatype Check = Pass | Fail(issue: Issue) {
    predicate IsFailure() { Fail? }
    function PropagateFailure<U>(): Result<U>
      requires Fail?
    {
      Rejected(issue)
    }
  }

  // ----- panel kinds -----

  datatype PanelKind =
    | Area | Bar | Gauge | Sparkline | StatusGrid | Stat | AlertSummary | ResourceTable
    | AlertList | Callout | Proposal | ActionButton | ActionForm | Unrecognised

  function KindOf(name: string): PanelKind {
    if name == "area" then Area
    else if name == "bar" then Bar
    else if name == "gauge" then Gauge
    else if name == "sparkline" then Sparkline
    else if name == "status-grid" then StatusGrid
    else if name == "stat" then Stat
    else if name == "alert-summary" then AlertSummary
    else if name == "resource-table" then ResourceTable
    else if name == "alert-list" then AlertList
    else if name == "callout" then Callout
    else if name == "proposal" then Proposal
    else if name == "action-button" then ActionButton
    else if name == "action-form" then ActionForm
    else Unrecognised
  }

  function NameOf(kind: PanelKind): (name: string)
    requires kind != Unrecognised
    ensures name != "" && KindOf(name) == kind
  {
    match kind
    case Area => "area"
    case Bar => "bar"
    case Gauge => "gauge"
    case Sparkline => "sparkline"
    case StatusGrid => "status-grid"
    case Stat => "stat"
    case AlertSummary => "alert-summary"
    case ResourceTable => "resource-table"
    case AlertList => "alert-list"
    case Callout => "callout"
    case Proposal => "proposal"
    case ActionButton => "action-button"
    case ActionForm => "action-form"
  }

  /** The kind a panel without a usable `type` is taken for, by its shape. */
  function InferPanelKind(o: Object): PanelKind {
    if HasStr(o, "xKey") && HasArr(o, "series") && HasArr(o, "data") then
      if HasStr(o, "yLabel") then Area else Bar
    else if HasNum(o, "value") && HasNum(o, "max") then Gauge
    else if HasArr(o, "data") && |o["data"].items| > 0 && o["data"].items[0].Num? then Sparkline
    else if HasArr(o, "columns") && HasArr(o, "rows") then ResourceTable
    else if HasStr(o, "command") && HasStr(o, "title") then Proposal
    else if HasArr(o, "fields") && HasObj(o, "submit") then ActionForm
    else if HasArr(o, "buttons") && |o["buttons"].items| > 0 then ActionButton
    else if HasStr(o, "title") && HasStr(o, "body") then Callout
    else if HasStr(o, "title") && HasStr(o, "value") then Stat
    else if HasObj(o, "data") && (HasNum(o["data"].fields, "critical") || HasNum(o["data"].fields, "warning")) then
      AlertSummary
    else if HasArr(o, "items") && |o["items"].items| > 0 && o["items"].items[0].Obj? then
      var first := o["items"].items[0].fields;
      if HasStr(first, "severity") then AlertList
      else if HasStr(first, "name") && HasStr(first, "status") then StatusGrid
      else Unrecognised
    else Unrecognised
  }

  // ----- field checks, each failing at the first offending place -----

  function RequireString(o: Object, key: string, path: Path): (c: Check)
    ensures c.Pass? <==> HasStr(o, key)
  {
    if HasStr(o, key) then Pass else Fail(Issue(MissingString, path + [Key(key)]))
  }

  function RequireNumber(o: Object, key: string, path: Path): (c: Check)
    ensures c.Pass? <==> HasNum(o, key)
  {
    if HasNum(o, key) then Pass else Fail(Issue(MissingNumber, path + [Key(key)]))
  }

  function RequireObject(o: Object, key: string, path: Path): (c: Check)
    ensures c.Pass? <==> HasObj(o, key)
  {
    if HasObj(o, key) then Pass else Fail(Issue(MissingObject, path + [Key(key)]))
  }

  function RequireArray(o: Object, key: string, path: Path): (c: Check)
    ensures c.Pass? <==> HasArr(o, key)
  {
    if HasArr(o, key) then Pass else Fail(Issue(MissingCollection, path + [Key(key)]))
  }

  /** Runs `check` on the items from `from` on and reports the first failure. */
  function CheckEach(items: seq<Json>, path: Path, check: (Json, Path) -> Check, from: nat): (c: Check)
    requires from <= |items|
    ensures c.Pass? <==> forall i :: from <= i < |items| ==> check(items[i], path + [At(i)]).Pass?
    ensures c.Fail? ==> exists i ::
      && from <= i < |items|
      && check(items[i], path + [At(i)]) == c
      && forall j :: from <= j < i ==> check(items[j], path + [At(j)]).Pass?
    decreases |items| - from
  {
    if from == |items| then Pass
    else
      var c := check(items[from], path + [At(from)]);
      if c.Fail? then c else CheckEach(items, path, check, from + 1)
  }

  function ObjectItem(j: Json, path: Path): (c: Check)
    ensures c.Pass? <==> j.Obj?
  {
    if j.Obj? then Pass else Fail(Issue(InvalidItem, path))
  }

  function NumberItem(j: Json, path: Path): (c: Check)
    ensures c.Pass? <==> j.Num?
  {
    if j.Num? then Pass else Fail(Issue(InvalidItem, path))
  }

  // An object item with two mandatory strings.
  function TwoStrings(first: string, second: string): (Json, Path) -> Check {
    (j: Json, path: Path) =>
      if !j.Obj? then Fail(Issue(InvalidItem, path))
      else if !HasStr(j.fields, first) then Fail(Issue(MissingString, path + [Key(first)]))
      else if !HasStr(j.fields, second) then Fail(Issue(MissingString, path + [Key(second)]))
      else Pass
  }

  function ButtonItem(j: Json, path: Path): Check {
    if !j.Obj? then Fail(Issue(InvalidItem, path))
    else if !HasStr(j.fields, "label") then Fail(Issue(MissingString, path + [Key("label")]))
    else if !HasActionTarget(j.fields) then Fail(Issue(InvalidActionTarget, path))
    else Pass
  }

  predicate HasActionTarget(button: Object) {
    var action := StrOr(button, "action");
    var tool := StrOr(button, "tool") != "";
    var message := StrOr(button, "message") != "";
    || (action == "execute" && tool)
    || (action == "message" && message)
    || (action == "" && (tool || message))
  }

  function FieldItem(j: Json, path: Path): Check {
    if !j.Obj? then Fail(Issue(InvalidItem, path))
    else if !HasStr(j.fields, "key") then Fail(Issue(MissingString, path + [Key("key")]))
    else if !HasStr(j.fields, "label") then Fail(Issue(MissingString, path + [Key("label")]))
    else if !HasStr(j.fields, "type") then Fail(Issue(MissingString, path + [Key("type")]))
    else if j.fields["type"].s !in {"text", "select", "checkbox"} then
      Fail(Issue(InvalidFieldType, path + [Key("type")]))
    else Pass
  }

  /** Two passes over a collection, as the validators do: every item must be an object, then each
      object is inspected. */
  function CheckItems(o: Object, key: string, path: Path, inspect: (Json, Path) -> Check): (c: Check)
    ensures c.Pass? <==>
      && HasArr(o, key)
      && (forall i :: 0 <= i < |o[key].items| ==> o[key].items[i].Obj?)
      && (forall i :: 0 <= i < |o[key].items| ==> inspect(o[key].items[i], path + [Key(key)] + [At(i)]).Pass?)
  {
    var here := path + [Key(key)];
    if !HasArr(o, key) then Fail(Issue(MissingCollection, here))
    else
      var shape := CheckEach(o[key].items, here, ObjectItem, 0);
      if shape.Fail? then shape else CheckEach(o[key].items, here, inspect, 0)
  }

  /** optionalArray: a missing or mistyped collection becomes an empty one. */
  function DefaultArray(o: Object, key: string): (r: Object)
    ensures HasArr(r, key) && SameExcept(o, r, {key})
    ensures HasArr(o, key) ==> r == o
  {
    if HasArr(o, key) then o else o[key := Arr([])]
  }

  /** A missing or mistyped text becomes the empty one. */
  function DefaultString(o: Object, key: string): (r: Object)
    ensures HasStr(r, key) && SameExcept(o, r, {key})
    ensures HasStr(o, key) ==> r == o
  {
    if HasStr(o, key) then o else o[key := Str("")]
  }

  function DefaultOptions(fields: seq<Json>): (r: seq<Json>)
    requires forall i :: 0 <= i < |fields| ==> fields[i].Obj?
    ensures |r| == |fields|
    ensures forall i :: 0 <= i < |r| ==> r[i] == Obj(DefaultArray(fields[i].fields, "options"))
  {
    seq(|fields|, i requires 0 <= i < |fields| => Obj(DefaultArray(fields[i].fields, "options")))
  }

  // ----- panels -----

  function ValidateChart(o: Object, path: Path): Check {
    var title := RequireString(o, "title", path);
    if title.Fail? then title
    else
      var xKey := RequireString(o, "xKey", path);
      if xKey.Fail? then xKey
      else
        var series := CheckItems(o, "series", path, TwoStrings("key", "label"));
        if series.Fail? then series else CheckItems(o, "data", path, ObjectItem)
  }

  /** The switch of validateCanvasPanel on a panel whose kind is settled. */
  function ValidateKind(kind: PanelKind, o: Object, path: Path): Result<Object> {
    match kind
    case Bar =>
      :- ValidateChart(o, path);
      Ok(o)
    case Area =>
      :- ValidateChart(o, path);
      var annotated := DefaultArray(o, "annotations");
      :- CheckItems(annotated, "annotations", path, ObjectItem);
      Ok(annotated)
    case Gauge =>
      :- RequireString(o, "title", path);
      :- RequireNumber(o, "value", path);
      :- RequireNumber(o, "max", path);
      Ok(o)
    case Sparkline =>
      :- RequireArray(o, "data", path);
      :- CheckEach(o["data"].items, path + [Key("data")], NumberItem, 0);
      Ok(o)
    case StatusGrid =>
      :- RequireString(o, "title", path);
      :- CheckItems(o, "items", path, TwoStrings("name", "status"));
      Ok(o)
    case Stat =>
      :- RequireString(o, "title", path);
      :- RequireString(o, "value", path);
      Ok(o)
    case AlertSummary =>
      :- RequireObject(o, "data", path);
      Ok(o)
    case ResourceTable =>
      :- RequireString(o, "title", path);
      :- RequireArray(o, "columns", path);
      :- CheckItems(o, "rows", path, ObjectItem);
      Ok(o)
    case AlertList =>
      :- CheckItems(o, "items", path, ObjectItem);
      Ok(o)
    case Callout =>
      :- RequireString(o, "title", path);
      :- RequireString(o, "body", path);
      Ok(o)
    case Proposal =>
      :- RequireString(o, "title", path);
      :- RequireString(o, "command", path);
      Ok(o)
    case ActionButton =>
      :- CheckItems(o, "buttons", path, ButtonItem);
      Ok(o)
    case ActionForm =>
      :- CheckItems(o, "fields", path, FieldItem);
      var filled := o["fields" := Arr(DefaultOptions(o["fields"].items))];
      :- if HasObj(filled, "submit") then Pass else Fail(Issue(MissingSubmit, path + [Key("submit")]));
      :- RequireString(filled["submit"].fields, "label", path + [Key("submit")]);
      :- RequireString(filled["submit"].fields, "tool", path + [Key("submit")]);
      Ok(filled)
    case Unrecognised => Ok(o)
  }

  // The kind a panel is validated as: the declared one, else the inferred one.
  function PanelKindOf(panel: Object): PanelKind {
    var declared := StrOr(panel, "type");
    if declared != "" then KindOf(declared) else InferPanelKind(panel)
  }

  /** validateCanvasPanel: the normalised panel, or the first issue. */
  function ValidatePanel(panel: Object, path: Path): Result<Object> {
    var kind := PanelKindOf(panel);
    if StrOr(panel, "type") == "" && kind != Unrecognised then
      ValidateKind(kind, panel["type" := Str(NameOf(kind))], path)
    else
      ValidateKind(kind, panel, path)
  }

  // ----- what a client may rely on, stated without the validators -----

  ghost predicate Records(o: Object, key: string) {
    HasArr(o, key) && forall j :: j in o[key].items ==> j.Obj?
  }

  ghost predicate RecordsWith(o: Object, key: string, first: string, second: string) {
    && Records(o, key)
    && forall j :: j in o[key].items ==> HasStr(j.fields, first) && HasStr(j.fields, second)
  }

  ghost predicate FieldRecords(o: Object) {
    && RecordsWith(o, "fields", "key", "label")
    && forall j :: j in o["fields"].items ==>
      && HasStr(j.fields, "type") && j.fields["type"].s in {"text", "select", "checkbox"}
      && HasArr(j.fields, "options")
  }

  ghost predicate Schema(kind: PanelKind, o: Object) {
    match kind
    case Bar =>
      && HasStr(o, "title") && HasStr(o, "xKey")
      && RecordsWith(o, "series", "key", "label") && Records(o, "data")
    case Area =>
      && HasStr(o, "title") && HasStr(o, "xKey")
      && RecordsWith(o, "series", "key", "label") && Records(o, "data") && Records(o, "annotations")
    case Gauge => HasStr(o, "title") && HasNum(o, "value") && HasNum(o, "max")
    case Sparkline => HasArr(o, "data") && forall j :: j in o["data"].items ==> j.Num?
    case StatusGrid => HasStr(o, "title") && RecordsWith(o, "items", "name", "status")
    case Stat => HasStr(o, "title") && HasStr(o, "value")
    case AlertSummary => HasObj(o, "data")
    case ResourceTable => HasStr(o, "title") && HasArr(o, "columns") && Records(o, "rows")
    case AlertList => Records(o, "items")
    case Callout => HasStr(o, "title") && HasStr(o, "body")
    case Proposal => HasStr(o, "title") && HasStr(o, "command")
    case ActionButton =>
      && Records(o, "buttons")
      && forall j :: j in o["buttons"].items ==> HasStr(j.fields, "label") && HasActionTarget(j.fields)
    case ActionForm =>
      && FieldRecords(o)
      && HasObj(o, "submit") && HasStr(o["submit"].fields, "label") && HasStr(o["submit"].fields, "tool")
    case Unrecognised => true
  }

  // `t` is the type the panel is taken for.
  predicate TypeTaken(panel: Object, t: Json) {
    PanelKindOf(panel) != Unrecognised && t == Str(NameOf(PanelKindOf(panel)))
  }

  predicate Changed(p: Object, q: Object, key: string) {
    key in q && (key !in p || p[key] != q[key])
  }

  // The same fields, each with a list of options.
  ghost predicate OnlyOptionsAdded(p: Object, q: Object) {
    && HasArr(p, "fields") && HasArr(q, "fields") && |p["fields"].items| == |q["fields"].items|
    && forall i :: 0 <= i < |q["fields"].items| ==>
      && p["fields"].items[i].Obj? && q["fields"].items[i].Obj?
      && q["fields"].items[i].fields == DefaultArray(p["fields"].items[i].fields, "options")
  }

  // `q` is `p` with only the defaults of validateCanvasPanel filled in.
  ghost predicate OnlyDefaulted(p: Object, q: Object) {
    && SameExcept(p, q, {"type", "annotations", "fields"})
    && (Changed(p, q, "type") ==> StrOr(p, "type") == "" && TypeTaken(p, q["type"]))
    && (Changed(p, q, "annotations") ==> !HasArr(p, "annotations") && q["annotations"] == Arr([]))
    && (Changed(p, q, "fields") ==> OnlyOptionsAdded(p, q))
  }

  lemma RecordsChecked(o: Object, key: string, path: Path)
    ensures CheckItems(o, key, path, ObjectItem).Pass? <==> Records(o, key)
  {
  }

  lemma RecordsWithChecked(o: Object, key: string, path: Path, first: string, second: string)
    ensures CheckItems(o, key, path, TwoStrings(first, second)).Pass? <==> RecordsWith(o, key, first, second)
  {
  }

  lemma ChartChecked(o: Object, path: Path)
    ensures ValidateChart(o, path).Pass? <==> Schema(Bar, o)
  {
    RecordsWithChecked(o, "series", path, "key", "label");
    RecordsChecked(o, "data", path);
  }

  // `o` with the defaults its kind calls for, valid or not.
  function Completed(kind: PanelKind, o: Object): Object {
    if kind == Area then DefaultArray(o, "annotations")
    else if kind == ActionForm && HasArr(o, "fields")
            && forall i :: 0 <= i < |o["fields"].items| ==> o["fields"].items[i].Obj?
    then o["fields" := Arr(DefaultOptions(o["fields"].items))]
    else o
  }

  lemma FieldPasses(j: Json, path: Path)
    requires FieldItem(j, path).Pass?
    ensures var full := DefaultArray(j.fields, "options");
      && HasStr(full, "key") && HasStr(full, "label") && HasArr(full, "options")
      && HasStr(full, "type") && full["type"].s in {"text", "select", "checkbox"}
  {
  }

  lemma FieldsPass(o: Object, path: Path)
    requires CheckItems(o, "fields", path, FieldItem).Pass?
    ensures FieldRecords(Completed(ActionForm, o))
  {
    hide CheckItems, CheckEach, DefaultArray, FieldItem;
    var given, filled := o["fields"].items, DefaultOptions(o["fields"].items);
    assert Completed(ActionForm, o)["fields"] == Arr(filled);
    hide Completed, HasStr, HasArr;
    forall j | j in filled
      ensures j.Obj? && HasStr(j.fields, "key") && HasStr(j.fields, "label") && HasStr(j.fields, "type")
      ensures j.fields["type"].s in {"text", "select", "checkbox"} && HasArr(j.fields, "options")
    {
      var i :| 0 <= i < |filled| && filled[i] == j;
      FieldPasses(given[i], path + [Key("fields")] + [At(i)]);
    }
  }

  lemma FieldsChecked(o: Object, path: Path)
    requires FieldRecords(Completed(ActionForm, o))
    ensures CheckItems(o, "fields", path, FieldItem).Pass?
  {
    var full := Completed(ActionForm, o);
    var given := o["fields"].items;
    assert forall i :: 0 <= i < |given| ==> given[i].Obj?;
    forall i | 0 <= i < |given|
      ensures FieldItem(given[i], path + [Key("fields")] + [At(i)]).Pass?
    {
      assert full["fields"].items[i] in full["fields"].items;
    }
  }

  lemma FieldsAccepted(o: Object, path: Path)
    ensures CheckItems(o, "fields", path, FieldItem).Pass? <==> FieldRecords(Completed(ActionForm, o))
  {
    if CheckItems(o, "fields", path, FieldItem).Pass? {
      FieldsPass(o, path);
    } else if FieldRecords(Completed(ActionForm, o)) {
      FieldsChecked(o, path);
    }
  }

  lemma FormAccepted(o: Object, path: Path)
    ensures ValidateKind(ActionForm, o, path).Ok? <==> Schema(ActionForm, Completed(ActionForm, o))
    ensures ValidateKind(ActionForm, o, path).Ok? ==>
      ValidateKind(ActionForm, o, path) == Ok(Completed(ActionForm, o))
  {
    FieldsAccepted(o, path);
  }

  lemma ChartKindAccepted(kind: PanelKind, o: Object, path: Path)
    requires kind.Bar? || kind.Area?
    ensures ValidateKind(kind, o, path).Ok? <==> Schema(kind, Completed(kind, o))
    ensures ValidateKind(kind, o, path).Ok? ==> ValidateKind(kind, o, path) == Ok(Completed(kind, o))
  {
    ChartChecked(o, path);
    RecordsChecked(Completed(kind, o), "annotations", path);
  }

  lemma ListKindAccepted(kind: PanelKind, o: Object, path: Path)
    requires !kind.Bar? && !kind.Area? && !kind.ActionForm?
    ensures ValidateKind(kind, o, path).Ok? <==> Schema(kind, o)
    ensures ValidateKind(kind, o, path).Ok? ==> ValidateKind(kind, o, path) == Ok(o)
  {
    match kind
    case StatusGrid => RecordsWithChecked(o, "items", path, "name", "status");
    case ResourceTable => RecordsChecked(o, "rows", path);
    case AlertList => RecordsChecked(o, "items", path);
    case _ =>
  }

  /** A panel of a settled kind is accepted exactly when, defaults filled in, it meets the schema of
      that kind; the defaults are all that validation adds. */
  lemma KindAccepted(kind: PanelKind, o: Object, path: Path)
    ensures ValidateKind(kind, o, path).Ok? <==> Schema(kind, Completed(kind, o))
    ensures ValidateKind(kind, o, path).Ok? ==> ValidateKind(kind, o, path) == Ok(Completed(kind, o))
  {
    if kind.Bar? || kind.Area? {
      ChartKindAccepted(kind, o, path);
    } else if kind.ActionForm? {
      FormAccepted(o, path);
    } else {
      ListKindAccepted(kind, o, path);
    }
  }

  lemma CompletedIsStable(kind: PanelKind, o: Object)
    ensures Completed(kind, Completed(kind, o)) == Completed(kind, o)
  {
    if kind == ActionForm && Completed(kind, o) != o {
      var full := Completed(kind, o);
      assert DefaultOptions(full["fields"].items) == full["fields"].items;
      assert full["fields" := full["fields"]] == full;
    }
  }

  // The panel with its inferred type written in and the defaults of its kind filled in.
  function NormalForm(panel: Object): Object {
    var kind := PanelKindOf(panel);
    if StrOr(panel, "type") == "" && kind != Unrecognised
    then Completed(kind, panel["type" := Str(NameOf(kind))])
    else Completed(kind, panel)
  }

  /** validateCanvasPanel accepts a panel exactly when its normal form meets the schema of the kind
      it declares or is taken for, and returns that normal form. */
  lemma PanelAccepted(panel: Object, path: Path)
    ensures ValidatePanel(panel, path).Ok? <==> Schema(PanelKindOf(panel), NormalForm(panel))
    ensures ValidatePanel(panel, path).Ok? ==> ValidatePanel(panel, path) == Ok(NormalForm(panel))
  {
    var kind := PanelKindOf(panel);
    KindAccepted(kind, panel, path);
    if kind != Unrecognised {
      KindAccepted(kind, panel["type" := Str(NameOf(kind))], path);
    }
  }

  /** Normalising twice is normalising once, and the kind is settled by the first pass. */
  lemma PanelIdempotent(panel: Object)
    ensures NormalForm(NormalForm(panel)) == NormalForm(panel)
    ensures PanelKindOf(NormalForm(panel)) == PanelKindOf(panel)
  {
    var kind := PanelKindOf(panel);
    CompletedIsStable(kind, panel);
    if StrOr(panel, "type") == "" && kind != Unrecognised {
      CompletedIsStable(kind, panel["type" := Str(NameOf(kind))]);
    }
  }

  /** The normal form keeps every key; only `type`, `annotations` and the fields' `options` may
      change, and each only when it was missing or of the wrong type. */
  lemma PanelOnlyDefaulted(panel: Object)
    ensures OnlyDefaulted(panel, NormalForm(panel))
  {
  }

  // ----- what the names and shapes of panels mean, stated without the kinds -----

  predicate ChartShape(o: Object) {
    HasStr(o, "xKey") && HasArr(o, "series") && HasArr(o, "data")
  }

  predicate FirstItem(o: Object, key: string, p: Json -> bool) {
    HasArr(o, key) && |o[key].items| > 0 && p(o[key].items[0])
  }

  // The type of a panel without one, by the first of these shapes that it has; no type when it has none.
  function TypeByShape(o: Object): string {
    if ChartShape(o) && HasStr(o, "yLabel") then "area"
    else if ChartShape(o) then "bar"
    else if HasNum(o, "value") && HasNum(o, "max") then "gauge"
    else if FirstItem(o, "data", (j: Json) => j.Num?) then "sparkline"
    else if HasArr(o, "columns") && HasArr(o, "rows") then "resource-table"
    else if HasStr(o, "title") && HasStr(o, "command") then "proposal"
    else if HasArr(o, "fields") && HasObj(o, "submit") then "action-form"
    else if FirstItem(o, "buttons", (j: Json) => true) then "action-button"
    else if HasStr(o, "title") && HasStr(o, "body") then "callout"
    else if HasStr(o, "title") && HasStr(o, "value") then "stat"
    else if HasObj(o, "data") && HasNum(o["data"].fields, "critical") then "alert-summary"
    else if HasObj(o, "data") && HasNum(o["data"].fields, "warning") then "alert-summary"
    else if FirstItem(o, "items", (j: Json) => j.Obj? && HasStr(j.fields, "severity")) then "alert-list"
    else if FirstItem(o, "items", (j: Json) => j.Obj? && HasStr(j.fields, "name") && HasStr(j.fields, "status")) then
      "status-grid"
    else ""
  }

  function TypeOf(panel: Object): string {
    if HasStr(panel, "type") && panel["type"].s != "" then panel["type"].s else TypeByShape(panel)
  }

  predicate Triggers(button: Object) {
    || (StrOr(button, "action") == "execute" && StrOr(button, "tool") != "")
    || (StrOr(button, "action") == "message" && StrOr(button, "message") != "")
    || (StrOr(button, "action") == "" && (StrOr(button, "tool") != "" || StrOr(button, "message") != ""))
  }

  ghost predicate ChartKeys(p: Object) {
    HasStr(p, "title") && HasStr(p, "xKey") && RecordsWith(p, "series", "key", "label") && Records(p, "data")
  }

  // What a panel of type `t` has to hold; unknown types are let through.
  ghost predicate Holds(t: string, p: Object) {
    if t == "area" then ChartKeys(p) && (HasArr(p, "annotations") ==> Records(p, "annotations"))
    else if t == "bar" then ChartKeys(p)
    else if t == "gauge" then HasStr(p, "title") && HasNum(p, "value") && HasNum(p, "max")
    else if t == "sparkline" then HasArr(p, "data") && forall j :: j in p["data"].items ==> j.Num?
    else if t == "status-grid" then HasStr(p, "title") && RecordsWith(p, "items", "name", "status")
    else if t == "stat" then HasStr(p, "title") && HasStr(p, "value")
    else if t == "alert-summary" then HasObj(p, "data")
    else if t == "resource-table" then HasStr(p, "title") && HasArr(p, "columns") && Records(p, "rows")
    else if t == "alert-list" then Records(p, "items")
    else if t == "callout" then HasStr(p, "title") && HasStr(p, "body")
    else if t == "proposal" then HasStr(p, "title") && HasStr(p, "command")
    else if t == "action-button" then
      && Records(p, "buttons")
      && forall j :: j in p["buttons"].items ==> HasStr(j.fields, "label") && Triggers(j.fields)
    else if t == "action-form" then
      && RecordsWith(p, "fields", "key", "label")
      && (forall j :: j in p["fields"].items ==>
        HasStr(j.fields, "type") && j.fields["type"].s in {"text", "select", "checkbox"})
      && HasObj(p, "submit") && HasStr(p["submit"].fields, "label") && HasStr(p["submit"].fields, "tool")
    else true
  }

  lemma ShapeNamed(o: Object)
    ensures TypeByShape(o) == if InferPanelKind(o) == Unrecognised then "" else NameOf(InferPanelKind(o))
  {
    hide KindOf;
  }

  // Filling in options changes nothing that a form asks of its fields.
  predicate FieldOk(j: Json) {
    && j.Obj? && HasStr(j.fields, "key") && HasStr(j.fields, "label")
    && HasStr(j.fields, "type") && j.fields["type"].s in {"text", "select", "checkbox"}
  }

  lemma FilledFieldsOk(p: Object)
    requires FieldRecords(Completed(ActionForm, p))
    ensures HasArr(p, "fields") && forall j :: j in p["fields"].items ==> FieldOk(j)
  {
    hide CheckItems, CheckEach;
    var given, filled := p["fields"].items, Completed(ActionForm, p)["fields"].items;
    forall j | j in given ensures FieldOk(j) {
      var i :| 0 <= i < |given| && given[i] == j;
      assert filled[i] in filled;
    }
  }

  lemma FieldsFilledOk(p: Object)
    requires HasArr(p, "fields") && forall j :: j in p["fields"].items ==> FieldOk(j)
    ensures FieldRecords(Completed(ActionForm, p))
  {
    var given := p["fields"].items;
    forall i | 0 <= i < |given| ensures FieldOk(given[i]) {
      assert given[i] in given;
    }
    var filled := Completed(ActionForm, p)["fields"].items;
    forall j | j in filled ensures FieldOk(j) && HasArr(j.fields, "options") {
      var i :| 0 <= i < |filled| && filled[i] == j;
    }
  }

  lemma FormHolds(p: Object)
    ensures Schema(ActionForm, Completed(ActionForm, p)) <==> Holds("action-form", p)
  {
    if FieldRecords(Completed(ActionForm, p)) {
      FilledFieldsOk(p);
    } else if HasArr(p, "fields") && forall j :: j in p["fields"].items ==> FieldOk(j) {
      FieldsFilledOk(p);
    }
  }

  lemma KindHolds(t: string, p: Object)
    ensures Schema(KindOf(t), Completed(KindOf(t), p)) <==> Holds(t, p)
  {
    if t == "action-form" {
      FormHolds(p);
    }
  }

  lemma TypeIrrelevant(t: string, p: Object, j: Json)
    ensures Holds(t, p["type" := j]) <==> Holds(t, p)
  {
  }

  lemma NoTypeHolds(p: Object)
    ensures Holds("", p)
  {
  }

  /** A panel is accepted exactly when it holds what its type asks for, the declared one or else that of its shape;
      a panel of no type is returned as it is, any other with its type, and an area chart with annotations. */
  lemma PanelMeaning(panel: Object, path: Path)
    ensures ValidatePanel(panel, path).Ok? <==> Holds(TypeOf(panel), panel)
    ensures ValidatePanel(panel, path).Ok? ==>
      var q := ValidatePanel(panel, path).value;
      && (TypeOf(panel) == "" ==> q == panel)
      && (TypeOf(panel) != "" ==> HasStr(q, "type") && q["type"].s == TypeOf(panel))
      && (TypeOf(panel) == "area" ==> HasArr(q, "annotations"))
  {
    hide Holds, TypeByShape, InferPanelKind;
    var t := TypeOf(panel);
    ShapeNamed(panel);
    if HasStr(panel, "type") && panel["type"].s != "" {
      KindAccepted(KindOf(t), panel, path);
      KindHolds(t, panel);
    } else if t != "" {
      var typed := panel["type" := Str(t)];
      KindAccepted(KindOf(t), typed, path);
      KindHolds(t, typed);
      TypeIrrelevant(t, panel, Str(t));
    } else {
      NoTypeHolds(panel);
    }
  }
}
