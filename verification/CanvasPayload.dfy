/** agent/canvas_payload.go, lines 346-494: dashboards, object details and the normalised root. */
module CanvasPayload {
  import opened JsonTree
  import opened CanvasPanel

  // ----- dashboards -----

  predicate AllObjects(items: seq<Json>) {
    forall i :: 0 <= i < |items| ==> items[i].Obj?
  }

  // The object at `i` fails with `issue`, and those before it pass.
  predicate FailsFirst(items: seq<Json>, validate: (Object, Path) -> Result<Object>, path: Path, from: nat, i: nat,
                       issue: Issue)
    requires i < |items| && AllObjects(items)
  {
    && validate(items[i].fields, path + [At(i)]) == Rejected(issue)
    && forall j :: from <= j < i ==> validate(items[j].fields, path + [At(j)]).Ok?
  }

  ghost predicate FirstIssue(items: seq<Json>, validate: (Object, Path) -> Result<Object>, path: Path, from: nat,
                             issue: Issue)
    requires AllObjects(items)
  {
    exists i :: from <= i < |items| && FailsFirst(items, validate, path, from, i, issue)
  }

  /** Validates the objects from `from` on, one after another, keeping each normalised one. */
  function EachPanel(items: seq<Json>, validate: (Object, Path) -> Result<Object>, path: Path, from: nat):
      (r: Result<seq<Json>>)
    requires from <= |items| && AllObjects(items)
    ensures r.Ok? ==> |r.value| == |items| && r.value[..from] == items[..from] && AllObjects(r.value)
    ensures r.Ok? ==> forall i :: from <= i < |items| ==>
      validate(items[i].fields, path + [At(i)]) == Ok(r.value[i].fields)
    ensures r.Rejected? <==> exists i :: from <= i < |items| && validate(items[i].fields, path + [At(i)]).Rejected?
    ensures r.Rejected? ==> FirstIssue(items, validate, path, from, r.issue)
    decreases |items| - from
  {
    if from == |items| then Ok(items)
    else
      match validate(items[from].fields, path + [At(from)])
      case Rejected(issue) =>
        assert FailsFirst(items, validate, path, from, from, issue);
        Rejected(issue)
      case Ok(panel) =>
        var r := EachPanel(items[from := Obj(panel)], validate, path, from + 1);
        if r.Ok? then r
        else
          FailsLater(items, validate, path, from, panel, r.issue);
          r
  }

  // What fails first among the later objects fails first among all.
  lemma FailsLater(items: seq<Json>, validate: (Object, Path) -> Result<Object>, path: Path, from: nat, panel: Object,
                   issue: Issue)
    requires from < |items| && AllObjects(items) && validate(items[from].fields, path + [At(from)]).Ok?
    requires FirstIssue(items[from := Obj(panel)], validate, path, from + 1, issue)
    ensures FirstIssue(items, validate, path, from, issue)
  {
    var later := items[from := Obj(panel)];
    var i :| from + 1 <= i < |later| && FailsFirst(later, validate, path, from + 1, i, issue);
    forall j | from <= j < i ensures validate(items[j].fields, path + [At(j)]).Ok? {
      assert j > from ==> later[j] == items[j];
    }
    assert FailsFirst(items, validate, path, from, i, issue);
  }

  // The records of `o[key]` validated one by one and written back.
  function ValidateRecords(o: Object, key: string, validate: (Object, Path) -> Result<Object>): Result<Object> {
    var path := [Key(key)];
    :- RequireArray(o, key, []);
    :- CheckEach(o[key].items, path, ObjectItem, 0);
    var records :- EachPanel(o[key].items, validate, path, 0);
    Ok(o[key := Arr(records)])
  }

  function ValidateDashboard(root: Object): Result<Object> {
    var path: Path := [];
    :- RequireString(root, "title", path);
    ValidateRecords(root, "panels", ValidatePanel)
  }

  // ----- object details -----

  datatype Layout = Properties | Chart | Alerts | Timeline | Actions | Table | Text | OtherLayout

  function LayoutOf(name: string): Layout {
    if name == "properties" then Properties
    else if name == "chart" then Chart
    else if name == "alert-list" then Alerts
    else if name == "timeline" then Timeline
    else if name == "actions" then Actions
    else if name == "table" then Table
    else if name == "text" then Text
    else OtherLayout
  }

  // What a section's data is turned into before it is validated as a panel.
  function Prepared(layout: Layout, data: Object): Object {
    match layout
    case Chart => DefaultString(data, "title")
    case Alerts => data["type" := Str(NameOf(AlertList))]
    case Actions => data["type" := Str(NameOf(ActionButton))]
    case Table => DefaultString(data["type" := Str(NameOf(ResourceTable))], "title")
    case Text => DefaultString(data, "body")
    case _ => data
  }

  function ValidateData(layout: Layout, data: Object, path: Path): Result<Object> {
    match layout
    case Properties =>
      :- RequireArray(data, "items", path);
      Ok(data)
    case Timeline =>
      :- RequireArray(data, "events", path);
      Ok(data)
    case Chart => ValidatePanel(Prepared(layout, data), path)
    case Alerts => ValidatePanel(Prepared(layout, data), path)
    case Actions => ValidatePanel(Prepared(layout, data), path)
    case Table => ValidatePanel(Prepared(layout, data), path)
    case Text => Ok(Prepared(layout, data))
    case OtherLayout => Ok(data)
  }

  function ValidateSection(section: Object, path: Path): Result<Object> {
    var dataPath := path + [Key("data")];
    :- RequireString(section, "title", path);
    :- RequireString(section, "layout", path);
    :- RequireObject(section, "data", path);
    var data :- ValidateData(LayoutOf(section["layout"].s), section["data"].fields, dataPath);
    Ok(section["data" := Obj(data)])
  }

  function ValidateObjectDetail(root: Object): Result<Object> {
    var path: Path := [];
    :- RequireString(root, "name", path);
    ValidateRecords(root, "sections", ValidateSection)
  }

  // ----- the root -----

  datatype PayloadType = Dashboard | ObjectDetail

  datatype Meta = Meta(payloadType: PayloadType, kind: string, title: string, qualifier: string) {
    function TabId(): string {
      kind + "::" + title + "::" + qualifier
    }
  }

  datatype Normalized = Normalized(content: Object, meta: Meta)

  function TitleOf(root: Object): string {
    if StrOr(root, "name") != "" then StrOr(root, "name") else StrOr(root, "title")
  }

  predicate IsClose(root: Object) {
    "close" in root && root["close"] == Bool(true)
  }

  predicate TakenForDashboard(root: Object) {
    StrOr(root, "type") == "dashboard" || HasNonNull(root, "panels")
  }

  predicate TakenForObjectDetail(root: Object) {
    StrOr(root, "type") == "object-detail" || HasNonNull(root, "sections")
  }

  function MetaOf(root: Object): Meta {
    var dashboard := if IsClose(root) then StrOr(root, "type") == "dashboard" else TakenForDashboard(root);
    Meta(if dashboard then Dashboard else ObjectDetail,
         if dashboard then "dashboard" else StrOr(root, "kind"),
         TitleOf(root),
         StrOr(root, "qualifier"))
  }

  /** normalizeCanvasPayload on a decoded object. */
  function Normalize(root: Object): Result<Normalized> {
    if IsClose(root) then
      if TitleOf(root) == "" then Rejected(Issue(MissingCloseIdentity, []))
      else Ok(Normalized(root, MetaOf(root)))
    else if TakenForDashboard(root) then
      var content :- ValidateDashboard(root);
      Ok(Normalized(content, MetaOf(root)))
    else if TakenForObjectDetail(root) then
      var content :- ValidateObjectDetail(root);
      Ok(Normalized(content, MetaOf(root)))
    else
      Rejected(Issue(UnknownContent, [Key("type")]))
  }

  /** Decoding into a Go map: `null` decodes to the empty map, any other non-object fails. */
  function NormalizeJson(parsed: Option<Json>): Result<Normalized> {
    match parsed
    case Some(Obj(fields)) => Normalize(fields)
    case Some(Null) => Normalize(map[])
    case _ => Rejected(Issue(InvalidJson, []))
  }

  // ----- what a client may rely on -----

  ghost predicate PanelSchema(panel: Object) {
    Schema(PanelKindOf(panel), panel)
  }

  ghost predicate DataSchema(layout: Layout, data: Object) {
    match layout
    case Properties => HasArr(data, "items")
    case Timeline => HasArr(data, "events")
    case Chart => HasStr(data, "title") && PanelSchema(data)
    case Alerts => Schema(AlertList, data) && StrOr(data, "type") == "alert-list"
    case Actions => Schema(ActionButton, data) && StrOr(data, "type") == "action-button"
    case Table => Schema(ResourceTable, data) && StrOr(data, "type") == "resource-table"
    case Text => HasStr(data, "body")
    case OtherLayout => true
  }

  ghost predicate SectionSchema(section: Object) {
    && HasStr(section, "title") && HasStr(section, "layout") && HasObj(section, "data")
    && DataSchema(LayoutOf(section["layout"].s), section["data"].fields)
  }

  ghost predicate RootSchema(root: Object) {
    if IsClose(root) then TitleOf(root) != ""
    else if TakenForDashboard(root) then
      && HasStr(root, "title") && Records(root, "panels")
      && forall j :: j in root["panels"].items ==> PanelSchema(j.fields)
    else
      && TakenForObjectDetail(root)
      && HasStr(root, "name") && Records(root, "sections")
      && forall j :: j in root["sections"].items ==> SectionSchema(j.fields)
  }

  // The root with every panel, or every section's data, in normal form.
  function DataNormalForm(layout: Layout, data: Object): Object {
    if layout in {Chart, Alerts, Actions, Table} then NormalForm(Prepared(layout, data)) else Prepared(layout, data)
  }

  function SectionNormalForm(section: Object): Object {
    if HasStr(section, "layout") && HasObj(section, "data")
    then section["data" := Obj(DataNormalForm(LayoutOf(section["layout"].s), section["data"].fields))]
    else section
  }

  function MapRecords(o: Object, key: string, normal: Object -> Object): Object {
    if HasArr(o, key) then
      var items := o[key].items;
      o[key := Arr(seq(|items|, i requires 0 <= i < |items| =>
        if items[i].Obj? then Obj(normal(items[i].fields)) else items[i]))]
    else o
  }

  function RootNormalForm(root: Object): Object {
    if IsClose(root) then root
    else if TakenForDashboard(root) then MapRecords(root, "panels", NormalForm)
    else MapRecords(root, "sections", SectionNormalForm)
  }

  lemma DataAccepted(layout: Layout, data: Object, path: Path)
    ensures ValidateData(layout, data, path).Ok? <==> DataSchema(layout, DataNormalForm(layout, data))
    ensures ValidateData(layout, data, path).Ok? ==>
      ValidateData(layout, data, path) == Ok(DataNormalForm(layout, data))
  {
    PanelAccepted(Prepared(layout, data), path);
    PanelIdempotent(Prepared(layout, data));
  }

  lemma SectionAccepted(section: Object, path: Path)
    ensures ValidateSection(section, path).Ok? <==> SectionSchema(SectionNormalForm(section))
    ensures ValidateSection(section, path).Ok? ==> ValidateSection(section, path) == Ok(SectionNormalForm(section))
  {
    if HasStr(section, "layout") && HasObj(section, "data") {
      DataAccepted(LayoutOf(section["layout"].s), section["data"].fields, path + [Key("data")]);
    }
  }

  ghost predicate RecordsSatisfy(o: Object, key: string, schema: Object -> bool) {
    Records(o, key) && forall j :: j in o[key].items ==> schema(j.fields)
  }

  lemma RecordsAccepted(o: Object, key: string, validate: (Object, Path) -> Result<Object>, normal: Object -> Object,
                        schema: Object -> bool)
    requires forall f: Object, p: Path :: validate(f, p).Ok? <==> schema(normal(f))
    requires forall f: Object, p: Path :: validate(f, p).Ok? ==> validate(f, p) == Ok(normal(f))
    ensures ValidateRecords(o, key, validate).Ok? <==> RecordsSatisfy(MapRecords(o, key, normal), key, schema)
    ensures ValidateRecords(o, key, validate).Ok? ==>
      ValidateRecords(o, key, validate) == Ok(MapRecords(o, key, normal))
  {
    if HasArr(o, key) {
      var items, mapped := o[key].items, MapRecords(o, key, normal)[key].items;
      if Records(MapRecords(o, key, normal), key) {
        forall i | 0 <= i < |items| ensures items[i].Obj? {
          assert mapped[i] in mapped;
        }
      }
      if AllObjects(items) {
        var r := EachPanel(items, validate, [Key(key)], 0);
        if r.Ok? {
          assert r.value == mapped;
        } else {
          var i :| 0 <= i < |items| && validate(items[i].fields, [Key(key)] + [At(i)]).Rejected?;
          assert mapped[i] in mapped && !schema(mapped[i].fields);
        }
      }
    }
  }

  lemma DashboardAccepted(root: Object)
    ensures ValidateDashboard(root).Ok? <==>
      HasStr(root, "title") && RecordsSatisfy(MapRecords(root, "panels", NormalForm), "panels", PanelSchema)
    ensures ValidateDashboard(root).Ok? ==> ValidateDashboard(root) == Ok(MapRecords(root, "panels", NormalForm))
  {
    forall f: Object, p: Path
      ensures ValidatePanel(f, p).Ok? <==> PanelSchema(NormalForm(f))
      ensures ValidatePanel(f, p).Ok? ==> ValidatePanel(f, p) == Ok(NormalForm(f))
    {
      PanelAccepted(f, p);
      PanelIdempotent(f);
    }
    RecordsAccepted(root, "panels", ValidatePanel, NormalForm, PanelSchema);
  }

  lemma ObjectDetailAccepted(root: Object)
    ensures ValidateObjectDetail(root).Ok? <==>
      HasStr(root, "name") && RecordsSatisfy(MapRecords(root, "sections", SectionNormalForm), "sections", SectionSchema)
    ensures ValidateObjectDetail(root).Ok? ==>
      ValidateObjectDetail(root) == Ok(MapRecords(root, "sections", SectionNormalForm))
  {
    forall f: Object, p: Path
      ensures ValidateSection(f, p).Ok? <==> SectionSchema(SectionNormalForm(f))
      ensures ValidateSection(f, p).Ok? ==> ValidateSection(f, p) == Ok(SectionNormalForm(f))
    {
      SectionAccepted(f, p);
    }
    RecordsAccepted(root, "sections", ValidateSection, SectionNormalForm, SectionSchema);
  }

  lemma MetaSettled(root: Object)
    ensures MetaOf(RootNormalForm(root)) == MetaOf(root)
  {
  }

  /** A payload is accepted exactly when its normal form meets the schema at every level, and the
      normal form is what is emitted, under the identity of the original. */
  lemma Accepted(root: Object)
    ensures Normalize(root).Ok? <==> RootSchema(RootNormalForm(root))
    ensures Normalize(root).Ok? ==> Normalize(root) == Ok(Normalized(RootNormalForm(root), MetaOf(root)))
    ensures MetaOf(RootNormalForm(root)) == MetaOf(root)
  {
    MetaSettled(root);
    if IsClose(root) {
    } else if TakenForDashboard(root) {
      DashboardAccepted(root);
    } else {
      ObjectDetailAccepted(root);
    }
  }

  // Completing a panel of a settled kind leaves its type, title and body alone.
  lemma NormalFormKeeps(panel: Object)
    ensures var full := NormalForm(panel);
      && (StrOr(panel, "type") != "" ==> "type" in full && full["type"] == panel["type"])
      && (HasStr(panel, "title") ==> "title" in full && full["title"] == panel["title"])
  {
    PanelOnlyDefaulted(panel);
  }

  lemma PreparedIsStable(layout: Layout, data: Object)
    ensures Prepared(layout, DataNormalForm(layout, data)) == DataNormalForm(layout, data)
  {
    hide NormalForm;
    var ready, full := Prepared(layout, data), DataNormalForm(layout, data);
    match layout {
      case Alerts => NormalFormKeeps(ready); assert full["type" := full["type"]] == full;
      case Actions => NormalFormKeeps(ready); assert full["type" := full["type"]] == full;
      case Table => NormalFormKeeps(ready); assert full["type" := full["type"]] == full;
      case Chart => NormalFormKeeps(ready);
      case _ =>
    }
  }

  lemma SectionIdempotent(section: Object)
    ensures SectionNormalForm(SectionNormalForm(section)) == SectionNormalForm(section)
  {
    if HasStr(section, "layout") && HasObj(section, "data") {
      var layout, data := LayoutOf(section["layout"].s), section["data"].fields;
      var full := DataNormalForm(layout, data);
      PreparedIsStable(layout, data);
      PanelIdempotent(Prepared(layout, data));
      assert DataNormalForm(layout, full) == full;
      assert section["data" := Obj(full)]["data" := Obj(full)] == section["data" := Obj(full)];
    }
  }

  lemma MapRecordsIdempotent(o: Object, key: string, normal: Object -> Object)
    requires forall f: Object :: normal(normal(f)) == normal(f)
    ensures MapRecords(MapRecords(o, key, normal), key, normal) == MapRecords(o, key, normal)
  {
    if HasArr(o, key) {
      var once := MapRecords(o, key, normal);
      assert MapRecords(once, key, normal)[key].items == once[key].items;
      assert once[key := Arr(once[key].items)] == once;
    }
  }

  /** Normalisation is idempotent and keeps the tab identity. */
  lemma NormalizeIdempotent(root: Object)
    requires Normalize(root).Ok?
    ensures Normalize(Normalize(root).value.content) == Normalize(root)
    ensures MetaOf(Normalize(root).value.content).TabId() == MetaOf(root).TabId()
  {
    var full := RootNormalForm(root);
    forall f: Object ensures NormalForm(NormalForm(f)) == NormalForm(f) { PanelIdempotent(f); }
    forall f: Object ensures SectionNormalForm(SectionNormalForm(f)) == SectionNormalForm(f) { SectionIdempotent(f); }
    MapRecordsIdempotent(root, "panels", NormalForm);
    MapRecordsIdempotent(root, "sections", SectionNormalForm);
    Accepted(root);
    Accepted(full);
  }

  // `q` is a section's data `p` with only the defaults of its layout filled in: a missing title or
  // body, the type its layout forces, and for charts the defaults of a panel.
  ghost predicate DataOnlyDefaulted(layout: Layout, p: Object, q: Object) {
    && SameExcept(p, q, {"type", "title", "body", "annotations", "fields"})
    && (Changed(p, q, "title") ==> layout in {Chart, Table} && !HasStr(p, "title") && q["title"] == Str(""))
    && (Changed(p, q, "body") ==> layout == Text && !HasStr(p, "body") && q["body"] == Str(""))
    && (Changed(p, q, "type") ==>
      || (layout == Alerts && q["type"] == Str("alert-list"))
      || (layout == Actions && q["type"] == Str("action-button"))
      || (layout == Table && q["type"] == Str("resource-table"))
      || (layout == Chart && StrOr(p, "type") == "" && TypeTaken(DefaultString(p, "title"), q["type"])))
    && (Changed(p, q, "annotations") ==> layout == Chart && !HasArr(p, "annotations") && q["annotations"] == Arr([]))
    && (Changed(p, q, "fields") ==> layout == Chart && OnlyOptionsAdded(p, q))
  }

  ghost predicate SectionOnlyDefaulted(p: Object, q: Object) {
    && SameExcept(p, q, {"data"})
    && ("data" in q ==> "data" in p)
    && (Changed(p, q, "data") ==>
      && HasStr(p, "layout") && HasObj(p, "data") && HasObj(q, "data")
      && DataOnlyDefaulted(LayoutOf(p["layout"].s), p["data"].fields, q["data"].fields))
  }

  ghost predicate RecordsOnlyDefaulted(o: Object, full: Object, key: string, defaulted: (Object, Object) -> bool) {
    && SameExcept(o, full, {key})
    && (key in full ==> key in o)
    && (!HasArr(o, key) ==> full == o)
    && (HasArr(o, key) ==>
      && HasArr(full, key) && |full[key].items| == |o[key].items|
      && forall i :: 0 <= i < |o[key].items| ==>
        if o[key].items[i].Obj? then
          full[key].items[i].Obj? && defaulted(o[key].items[i].fields, full[key].items[i].fields)
        else full[key].items[i] == o[key].items[i])
  }

  lemma ChartFrame(data: Object)
    ensures DataOnlyDefaulted(Chart, data, DataNormalForm(Chart, data))
  {
    hide NormalForm;
    PanelOnlyDefaulted(Prepared(Chart, data));
  }

  lemma DataFrame(layout: Layout, data: Object)
    ensures DataOnlyDefaulted(layout, data, DataNormalForm(layout, data))
  {
    match layout
    case Chart => ChartFrame(data);
    case Alerts => SettledKeeps(Prepared(layout, data));
    case Actions => SettledKeeps(Prepared(layout, data));
    case Table => SettledKeeps(Prepared(layout, data));
    case _ =>
  }

  lemma SettledKeeps(data: Object)
    requires StrOr(data, "type") in {"alert-list", "action-button", "resource-table"}
    ensures NormalForm(data) == data
  {
  }

  lemma SectionFrame(section: Object)
    ensures SectionOnlyDefaulted(section, SectionNormalForm(section))
  {
    if HasStr(section, "layout") && HasObj(section, "data") {
      DataFrame(LayoutOf(section["layout"].s), section["data"].fields);
    }
  }

  lemma MapRecordsFrame(o: Object, key: string, normal: Object -> Object, defaulted: (Object, Object) -> bool)
    requires forall f: Object :: defaulted(f, normal(f))
    ensures RecordsOnlyDefaulted(o, MapRecords(o, key, normal), key, defaulted)
  {
  }

  /** Normalisation deletes no key, reorders nothing and touches only the defaulted ones. */
  lemma RootOnlyDefaulted(root: Object)
    ensures IsClose(root) ==> RootNormalForm(root) == root
    ensures !IsClose(root) && TakenForDashboard(root) ==>
      RecordsOnlyDefaulted(root, RootNormalForm(root), "panels", OnlyDefaulted)
    ensures !IsClose(root) && !TakenForDashboard(root) ==>
      RecordsOnlyDefaulted(root, RootNormalForm(root), "sections", SectionOnlyDefaulted)
  {
    forall f: Object ensures OnlyDefaulted(f, NormalForm(f)) { PanelOnlyDefaulted(f); }
    forall f: Object ensures SectionOnlyDefaulted(f, SectionNormalForm(f)) { SectionFrame(f); }
    MapRecordsFrame(root, "panels", NormalForm, OnlyDefaulted);
    MapRecordsFrame(root, "sections", SectionNormalForm, SectionOnlyDefaulted);
  }

  // ----- what payloads, sections and identities mean, stated without the validators -----

  function Titled(data: Object): Object {
    if HasStr(data, "title") then data else data["title" := Str("")]
  }

  // What a section of layout `name` asks of its data; unknown layouts are let through.
  ghost predicate DataHolds(name: string, data: Object) {
    if name == "properties" then HasArr(data, "items")
    else if name == "timeline" then HasArr(data, "events")
    else if name == "chart" then Holds(TypeOf(Titled(data)), Titled(data))
    else if name == "alert-list" then Records(data, "items")
    else if name == "actions" then Holds("action-button", data)
    else if name == "table" then HasArr(data, "columns") && Records(data, "rows")
    else true
  }

  lemma ForcedType(data: Object, t: string, path: Path)
    requires t != ""
    ensures ValidatePanel(data["type" := Str(t)], path).Ok? <==> Holds(t, data)
  {
    PanelMeaning(data["type" := Str(t)], path);
    TypeIrrelevant(t, data, Str(t));
  }

  /** A section is accepted exactly when it has a title, a layout and data that holds what the layout asks for. */
  lemma SectionMeaning(section: Object, path: Path)
    ensures ValidateSection(section, path).Ok? <==>
      && HasStr(section, "title") && HasStr(section, "layout") && HasObj(section, "data")
      && DataHolds(section["layout"].s, section["data"].fields)
  {
    if HasStr(section, "layout") && HasObj(section, "data") {
      DataMeaning(section["layout"].s, section["data"].fields, path + [Key("data")]);
    }
  }

  lemma DataMeaning(name: string, data: Object, path: Path)
    ensures ValidateData(LayoutOf(name), data, path).Ok? <==> DataHolds(name, data)
  {
    hide Holds, ValidatePanel, Records;
    if name == "chart" {
      PanelMeaning(Titled(data), path);
    } else if name == "alert-list" {
      AlertsMeaning(data, path);
    } else if name == "actions" {
      ForcedType(data, "action-button", path);
    } else if name == "table" {
      TableMeaning(data, path);
    }
  }

  lemma AlertsMeaning(data: Object, path: Path)
    ensures ValidateData(Alerts, data, path).Ok? <==> Records(data, "items")
  {
    ForcedType(data, "alert-list", path);
  }

  lemma TableMeaning(data: Object, path: Path)
    ensures ValidateData(Table, data, path).Ok? <==> HasArr(data, "columns") && Records(data, "rows")
  {
    ForcedType(Titled(data), "resource-table", path);
    assert Prepared(Table, data) == Titled(data)["type" := Str("resource-table")];
  }

  // The record at every place of `o[key]` is an object that `holds`.
  ghost predicate EachHolds(o: Object, key: string, holds: Object -> bool) {
    HasArr(o, key) && forall i :: 0 <= i < |o[key].items| ==> o[key].items[i].Obj? && holds(o[key].items[i].fields)
  }

  lemma RecordsMeaning(o: Object, key: string, validate: (Object, Path) -> Result<Object>, holds: Object -> bool)
    requires forall f: Object, p: Path :: validate(f, p).Ok? <==> holds(f)
    ensures ValidateRecords(o, key, validate).Ok? <==> EachHolds(o, key, holds)
  {
    if HasArr(o, key) && AllObjects(o[key].items) {
      var r := EachPanel(o[key].items, validate, [Key(key)], 0);
      if r.Rejected? {
        var i :| 0 <= i < |o[key].items| && validate(o[key].items[i].fields, [Key(key)] + [At(i)]).Rejected?;
        assert !holds(o[key].items[i].fields);
      }
    }
  }

  predicate ClosesTab(root: Object) {
    "close" in root && root["close"] == Bool(true)
  }

  predicate DashboardLike(root: Object) {
    (HasStr(root, "type") && root["type"].s == "dashboard") || ("panels" in root && root["panels"] != Null)
  }

  predicate DetailLike(root: Object) {
    (HasStr(root, "type") && root["type"].s == "object-detail") || ("sections" in root && root["sections"] != Null)
  }

  ghost predicate PanelHolds(panel: Object) {
    Holds(TypeOf(panel), panel)
  }

  ghost predicate SectionHolds(section: Object) {
    && HasStr(section, "title") && HasStr(section, "layout") && HasObj(section, "data")
    && DataHolds(section["layout"].s, section["data"].fields)
  }

  /** A close directive is accepted when it names its tab; a dashboard with a title and panels that hold what their
      types ask for; an object detail with a name and sections that hold what their layouts ask for; nothing else. */
  lemma RootMeaning(root: Object)
    ensures Normalize(root).Ok? <==>
      if ClosesTab(root) then
        (HasStr(root, "name") && root["name"].s != "") || (HasStr(root, "title") && root["title"].s != "")
      else if DashboardLike(root) then HasStr(root, "title") && EachHolds(root, "panels", PanelHolds)
      else DetailLike(root) && HasStr(root, "name") && EachHolds(root, "sections", SectionHolds)
  {
    forall f: Object, p: Path ensures ValidatePanel(f, p).Ok? <==> PanelHolds(f) { PanelMeaning(f, p); }
    forall f: Object, p: Path ensures ValidateSection(f, p).Ok? <==> SectionHolds(f) { SectionMeaning(f, p); }
    RecordsMeaning(root, "panels", ValidatePanel, PanelHolds);
    RecordsMeaning(root, "sections", ValidateSection, SectionHolds);
  }

  /** The identity of a tab: a dashboard's kind is "dashboard"; the name comes before the title. */
  lemma IdentityMeaning(root: Object)
    ensures var meta := MetaOf(root);
      var dashboard := if ClosesTab(root) then StrOr(root, "type") == "dashboard" else DashboardLike(root);
      && (meta.payloadType.Dashboard? <==> dashboard)
      && meta.kind == (if dashboard then "dashboard" else StrOr(root, "kind"))
      && meta.title == (if StrOr(root, "name") != "" then StrOr(root, "name") else StrOr(root, "title"))
      && meta.qualifier == StrOr(root, "qualifier")
      && meta.TabId() == meta.kind + "::" + meta.title + "::" + meta.qualifier
  {
  }

  // ----- the validators as they run: the decoded map is updated while it is checked -----

  class PayloadDraft {
    var root: Object

    constructor (root: Object)
      ensures this.root == root
    {
      this.root := root;
    }

    /** The record loop shared by dashboards and object details: each record is replaced by its
        normalised form before the next one is looked at. */
    method ValidateEach(key: string, validate: (Object, Path) -> Result<Object>) returns (issue: Option<Issue>)
      modifies this
      ensures issue.None? ==> ValidateRecords(old(root), key, validate) == Ok(root)
      ensures issue.Some? ==> ValidateRecords(old(root), key, validate) == Rejected(issue.value)
    {
      var path := [Key(key)];
      if !HasArr(root, key) {
        return Some(Issue(MissingCollection, path));
      }
      var shape := CheckEach(root[key].items, path, ObjectItem, 0);
      if shape.Fail? {
        return Some(shape.issue);
      }
      ghost var given := root;
      var records := root[key].items;
      var i := 0;
      assert given[key := Arr(records)] == given;
      while i < |records|
        invariant 0 <= i <= |records| && AllObjects(records)
        invariant root == given[key := Arr(records)]
        invariant EachPanel(records, validate, path, i) == EachPanel(given[key].items, validate, path, 0)
        decreases |records| - i
      {
        var record := validate(records[i].fields, path + [At(i)]);
        if record.Rejected? {
          return Some(record.issue);
        }
        records := records[i := Obj(record.value)];
        root := root[key := Arr(records)];
        i := i + 1;
      }
      return None;
    }

    /** normalizeCanvasPayload after decoding. */
    method Run() returns (r: Result<Meta>)
      modifies this
      ensures r.Ok? ==> Normalize(old(root)) == Ok(Normalized(root, r.value))
      ensures r.Rejected? ==> Normalize(old(root)) == Rejected(r.issue)
    {
      var meta := MetaOf(root);
      var issue: Option<Issue> := None;
      if IsClose(root) {
        if TitleOf(root) == "" {
          return Rejected(Issue(MissingCloseIdentity, []));
        }
      } else if TakenForDashboard(root) {
        if !HasStr(root, "title") {
          return Rejected(Issue(MissingString, [Key("title")]));
        }
        issue := ValidateEach("panels", ValidatePanel);
      } else if TakenForObjectDetail(root) {
        if !HasStr(root, "name") {
          return Rejected(Issue(MissingString, [Key("name")]));
        }
        issue := ValidateEach("sections", ValidateSection);
      } else {
        return Rejected(Issue(UnknownContent, [Key("type")]));
      }
      return if issue.Some? then Rejected(issue.value) else Ok(meta);
    }
  }

  /** What is neither a close directive nor taken for a dashboard is unknown, unless it is taken for an object
      detail. */
  lemma UnknownRoots(root: Object)
    requires !ClosesTab(root) && !DashboardLike(root)
    ensures !DetailLike(root) ==> Normalize(root) == Rejected(Issue(UnknownContent, [Key("type")]))
    ensures DetailLike(root) && !HasStr(root, "name") ==>
      Normalize(root) == Rejected(Issue(MissingString, [Key("name")]))
  {
  }
}
