/** agent/canvas.go, lines 389-490: what kind of destination a normalised payload is. */
module CanvasContent {
  import Strings
  import opened JsonTree

  // strings.ToLower as far as the words below can tell: besides the ASCII capitals, only the dotted
  // capital I maps into ASCII letters that occur in them.
  function Lower(c: char): char {
    if 'A' <= c <= 'Z' then c - 'A' + 'a' else if c == '\U{0130}' then 'i' else c
  }

  function ToLower(s: string): (r: string)
    ensures |r| == |s| && forall i :: 0 <= i < |s| ==> r[i] == Lower(s[i])
  {
    seq(|s|, i requires 0 <= i < |s| => Lower(s[i]))
  }

  // An explicit error marker on the object itself.
  predicate MarksError(o: Object) {
    || (HasNonNull(o, "error") && (!o["error"].Str? || Strings.TrimSpace(o["error"].s) != ""))
    || (HasStr(o, "status") && ToLower(Strings.TrimSpace(o["status"].s)) in {"error", "failed", "failure"})
    || (HasStr(o, "type") && ToLower(o["type"].s) == "error")
  }

  predicate ContainsError(j: Json) {
    match j
    case Arr(items) => exists i | 0 <= i < |items| :: ContainsError(items[i])
    case Obj(o) => MarksError(o) || exists k | k in o.Keys :: ContainsError(o[k])
    case _ => false
  }

  // A form, a button, an interactive extension or a toggle that sends a message.
  predicate IsControl(o: Object) {
    || StrOr(o, "type") in {"action-form", "action-button"}
    || (HasObj(o, "extension") && "interactive" in o["extension"].fields
        && o["extension"].fields["interactive"] == Bool(true))
    || (HasObj(o, "toggle") && StrOr(o["toggle"].fields, "message") != "")
  }

  predicate HasControl(j: Json) {
    match j
    case Arr(items) => exists i | 0 <= i < |items| :: HasControl(items[i])
    case Obj(o) => IsControl(o) || exists k | k in o.Keys :: HasControl(o[k])
    case _ => false
  }

  predicate NonEmpty(o: Object, key: string) {
    (HasArr(o, key) && o[key].items != []) || (HasObj(o, key) && o[key].fields != map[])
  }

  /** hasInteractiveCanvasControl. */
  predicate Interactive(content: Object) {
    HasControl(Obj(content))
  }

  /** hasResultCanvasContent. */
  predicate ShowsResult(content: Object) {
    && !ContainsError(Obj(content))
    && (|| NonEmpty(content, "panels") || NonEmpty(content, "sections") || NonEmpty(content, "items")
        || NonEmpty(content, "rows") || NonEmpty(content, "data")
        || (HasObj(content, "extension") && content["extension"].fields != map[]))
  }

  ghost predicate SomeObjectWithin(j: Json, p: Object -> bool) {
    exists o: Object :: p(o) && Within(j, Obj(o))
  }

  lemma SomeObjectInField(j: Json, key: string, p: Object -> bool)
    requires j.Obj? && key in j.fields && SomeObjectWithin(j.fields[key], p)
    ensures SomeObjectWithin(j, p)
  {
    var o: Object :| p(o) && Within(j.fields[key], Obj(o));
    WithinField(j, key, Obj(o));
  }

  lemma SomeObjectInItem(j: Json, i: nat, p: Object -> bool)
    requires j.Arr? && i < |j.items| && SomeObjectWithin(j.items[i], p)
    ensures SomeObjectWithin(j, p)
  {
    var o: Object :| p(o) && Within(j.items[i], Obj(o));
    WithinItem(j, i, Obj(o));
  }

  // An object inside is the value itself or sits in one of its parts.
  lemma SomeObjectSplits(j: Json, p: Object -> bool)
    requires SomeObjectWithin(j, p)
    ensures || (j.Obj? && p(j.fields))
            || (j.Obj? && exists k :: k in j.fields && SomeObjectWithin(j.fields[k], p))
            || (j.Arr? && exists i :: 0 <= i < |j.items| && SomeObjectWithin(j.items[i], p))
  {
    var o: Object :| p(o) && Within(j, Obj(o));
    var path :| Reaches(j, path, Obj(o));
    if path != [] {
      match path[0]
      case Key(k) => assert Reaches(j.fields[k], path[1..], Obj(o)); assert SomeObjectWithin(j.fields[k], p);
      case At(i) => assert Reaches(j.items[i], path[1..], Obj(o)); assert SomeObjectWithin(j.items[i], p);
    }
  }

  lemma RootWithin(o: Object, p: Object -> bool)
    requires p(o)
    ensures SomeObjectWithin(Obj(o), p)
  {
    assert Reaches(Obj(o), [], Obj(o));
  }

  /** A payload is interactive exactly when some object in it, at any depth, is a control. */
  lemma {:induction false} ControlAnywhere(j: Json)
    ensures HasControl(j) <==> SomeObjectWithin(j, IsControl)
  {
    match j
    case Arr(items) =>
      forall i | 0 <= i < |items|
        ensures HasControl(items[i]) <==> SomeObjectWithin(items[i], IsControl)
        ensures SomeObjectWithin(items[i], IsControl) ==> SomeObjectWithin(j, IsControl)
      {
        ControlAnywhere(items[i]);
        if SomeObjectWithin(items[i], IsControl) { SomeObjectInItem(j, i, IsControl); }
      }
      if SomeObjectWithin(j, IsControl) {
        SomeObjectSplits(j, IsControl);
        var i :| 0 <= i < |items| && SomeObjectWithin(items[i], IsControl);
      }
    case Obj(o) =>
      forall k | k in o
        ensures HasControl(o[k]) <==> SomeObjectWithin(o[k], IsControl)
        ensures SomeObjectWithin(o[k], IsControl) ==> SomeObjectWithin(j, IsControl)
      {
        ControlAnywhere(o[k]);
        if SomeObjectWithin(o[k], IsControl) { SomeObjectInField(j, k, IsControl); }
      }
      if IsControl(o) { RootWithin(o, IsControl); }
      if SomeObjectWithin(j, IsControl) { SomeObjectSplits(j, IsControl); }
    case _ =>
      if SomeObjectWithin(j, IsControl) { SomeObjectSplits(j, IsControl); }
  }

  /** And it is an error exactly when some object in it, at any depth, marks one. */
  lemma {:induction false} ErrorAnywhere(j: Json)
    ensures ContainsError(j) <==> SomeObjectWithin(j, MarksError)
  {
    match j
    case Arr(items) =>
      forall i | 0 <= i < |items|
        ensures ContainsError(items[i]) <==> SomeObjectWithin(items[i], MarksError)
        ensures SomeObjectWithin(items[i], MarksError) ==> SomeObjectWithin(j, MarksError)
      {
        ErrorAnywhere(items[i]);
        if SomeObjectWithin(items[i], MarksError) { SomeObjectInItem(j, i, MarksError); }
      }
      if SomeObjectWithin(j, MarksError) {
        SomeObjectSplits(j, MarksError);
        var i :| 0 <= i < |items| && SomeObjectWithin(items[i], MarksError);
      }
    case Obj(o) =>
      forall k | k in o
        ensures ContainsError(o[k]) <==> SomeObjectWithin(o[k], MarksError)
        ensures SomeObjectWithin(o[k], MarksError) ==> SomeObjectWithin(j, MarksError)
      {
        ErrorAnywhere(o[k]);
        if SomeObjectWithin(o[k], MarksError) { SomeObjectInField(j, k, MarksError); }
      }
      if MarksError(o) { RootWithin(o, MarksError); }
      if SomeObjectWithin(j, MarksError) { SomeObjectSplits(j, MarksError); }
    case _ =>
      if SomeObjectWithin(j, MarksError) { SomeObjectSplits(j, MarksError); }
  }

  // ----- what the two questions mean -----

  predicate ErrorObject(o: Object) {
    || ("error" in o && o["error"] != Null && !o["error"].Str?)
    || (HasStr(o, "error") && Strings.TrimSpace(o["error"].s) != "")
    || (HasStr(o, "status") && Lowered(Strings.TrimSpace(o["status"].s), {"error", "failed", "failure"}))
    || (HasStr(o, "type") && Lowered(o["type"].s, {"error"}))
  }

  // In lower case the word is one of `words`.
  predicate Lowered(word: string, words: set<string>) {
    exists w :: w in words && SameLetters(word, w)
  }

  // Letter by letter the same up to case; the dotted capital I counts as an i.
  predicate SameLetters(a: string, b: string) {
    |a| == |b| && forall i :: 0 <= i < |a| ==>
      a[i] == b[i] || ('A' <= a[i] <= 'Z' && a[i] - 'A' + 'a' == b[i]) || (a[i] == '\U{0130}' && b[i] == 'i')
  }

  predicate ControlObject(o: Object) {
    || (HasStr(o, "type") && (o["type"].s == "action-form" || o["type"].s == "action-button"))
    || (HasObj(o, "extension") && "interactive" in o["extension"].fields
        && o["extension"].fields["interactive"] == Bool(true))
    || (HasObj(o, "toggle") && HasStr(o["toggle"].fields, "message") && o["toggle"].fields["message"].s != "")
  }

  lemma LoweredWord(word: string, w: string)
    requires forall i :: 0 <= i < |w| ==> 'a' <= w[i] <= 'z'
    ensures ToLower(word) == w <==> SameLetters(word, w)
  {
    if ToLower(word) == w {
      forall i | 0 <= i < |word|
        ensures word[i] == w[i] || ('A' <= word[i] <= 'Z' && word[i] - 'A' + 'a' == w[i])
          || (word[i] == '\U{0130}' && w[i] == 'i')
      {
        assert ToLower(word)[i] == Lower(word[i]);
      }
    }
    if SameLetters(word, w) {
      forall i | 0 <= i < |word| ensures Lower(word[i]) == w[i] {
        assert 'a' <= w[i] <= 'z';
      }
    }
  }

  lemma ErrorObjects(o: Object)
    ensures MarksError(o) <==> ErrorObject(o)
  {
    if HasStr(o, "status") {
      var word := Strings.TrimSpace(o["status"].s);
      LoweredWord(word, "error");
      LoweredWord(word, "failed");
      LoweredWord(word, "failure");
    }
    if HasStr(o, "type") {
      LoweredWord(o["type"].s, "error");
    }
  }

  lemma SameObjects(j: Json, p: Object -> bool, q: Object -> bool)
    requires forall o: Object :: p(o) <==> q(o)
    ensures SomeObjectWithin(j, p) <==> SomeObjectWithin(j, q)
  {
  }

  /** Content is interactive exactly when an object in it, at any depth, is a form, a button, an extension that
      says so or a toggle with a message. */
  lemma InteractiveMeaning(content: Object)
    ensures Interactive(content) <==> SomeObjectWithin(Obj(content), ControlObject)
  {
    ControlAnywhere(Obj(content));
    SameObjects(Obj(content), IsControl, ControlObject);
  }

  predicate HasPart(content: Object, key: string) {
    key in content &&
    match content[key]
    case Arr(items) => |items| > 0
    case Obj(fields) => fields != map[]
    case _ => false
  }

  /** Content shows a result exactly when no object in it, at any depth, reports an error, and it has panels,
      sections, items, rows, data or an extension, and that is not empty. */
  lemma ResultMeaning(content: Object)
    ensures ShowsResult(content) <==>
      && !SomeObjectWithin(Obj(content), ErrorObject)
      && ((exists key :: key in ["panels", "sections", "items", "rows", "data"] && HasPart(content, key))
          || (HasObj(content, "extension") && HasPart(content, "extension")))
  {
    ErrorAnywhere(Obj(content));
    forall o: Object ensures MarksError(o) <==> ErrorObject(o) { ErrorObjects(o); }
    SameObjects(Obj(content), MarksError, ErrorObject);
    var keys := ["panels", "sections", "items", "rows", "data"];
    assert keys[0] in keys && keys[1] in keys && keys[2] in keys && keys[3] in keys && keys[4] in keys;
    assert forall key :: key in keys ==> (HasPart(content, key) <==> NonEmpty(content, key));
  }
}
