/** packages/chat-component/src/charts/ActionFormBlock.tsx, lines 27-53: the values of a form's selects
    are brought in line with the options that other values leave available. */
module SelectReconcile {

  // An option is available while each value it depends on is one of those accepted.
  datatype Choice = Choice(value: string, dependsOn: map<string, seq<string>>)

  datatype Field = Field(key: string, isSelect: bool, autoSelect: bool, options: seq<Choice>)

  type Values = map<string, string>

  function ValueOf(values: Values, key: string): string {
    if key in values then values[key] else ""
  }

  ghost predicate Matches(c: Choice, values: Values) {
    forall key :: key in c.dependsOn ==> ValueOf(values, key) in c.dependsOn[key]
  }

  function Offered(choices: seq<Choice>): set<string> {
    if choices == [] then {} else Offered(choices[..|choices| - 1]) + {choices[|choices| - 1].value}
  }

  // The matching options, the first of each value.
  ghost function Available(options: seq<Choice>, values: Values): seq<Choice> {
    if options == [] then []
    else
      var front, c := Available(options[..|options| - 1], values), options[|options| - 1];
      if !Matches(c, values) || c.value in Offered(front) then front else front + [c]
  }

  method MatchesAll(c: Choice, values: Values) returns (ok: bool)
    ensures ok == Matches(c, values)
  {
    var waiting := c.dependsOn.Keys;
    while waiting != {}
      invariant waiting <= c.dependsOn.Keys
      invariant forall key :: key in c.dependsOn && key !in waiting ==> ValueOf(values, key) in c.dependsOn[key]
    {
      var key :| key in waiting;
      if ValueOf(values, key) !in c.dependsOn[key] {
        return false;
      }
      waiting := waiting - {key};
    }
    return true;
  }

  method AvailableOptions(field: Field, values: Values) returns (r: seq<Choice>)
    ensures r == Available(field.options, values)
  {
    var seen: set<string> := {};
    r := [];
    for i := 0 to |field.options|
      invariant r == Available(field.options[..i], values) && seen == Offered(r)
    {
      var c := field.options[i];
      assert field.options[..i + 1][..i] == field.options[..i];
      var matches := MatchesAll(c, values);
      if !matches || c.value in seen {
        continue;
      }
      assert (r + [c])[..|r|] == r;
      seen := seen + {c.value};
      r := r + [c];
    }
    assert field.options[..|field.options|] == field.options;
  }

  // What the pass makes of one field.
  ghost function Reconcile(field: Field, values: Values): Values {
    var options := Available(field.options, values);
    if !field.isSelect || (field.key in values && values[field.key] in Offered(options)) then values
    else values[field.key := if field.autoSelect && |options| > 0 then options[0].value else ""]
  }

  ghost function Pass(fields: seq<Field>, values: Values): Values {
    if fields == [] then values
    else Reconcile(fields[|fields| - 1], Pass(fields[..|fields| - 1], values))
  }

  /** reconcileSelectValues. */
  method ReconcileSelectValues(fields: seq<Field>, current: Values) returns (next: Values)
    ensures next == Pass(fields, current)
  {
    next := current;
    for i := 0 to |fields|
      invariant next == Pass(fields[..i], current)
    {
      var field := fields[i];
      assert fields[..i + 1][..i] == fields[..i];
      if !field.isSelect {
        continue;
      }
      var options := AvailableOptions(field, next);
      var held := false;
      if field.key in next {
        held := IsOffered(options, next[field.key]);
      }
      if held {
        continue;
      }
      next := next[field.key := if field.autoSelect && |options| > 0 then options[0].value else ""];
    }
    assert fields[..|fields|] == fields;
  }

  method IsOffered(options: seq<Choice>, value: string) returns (held: bool)
    ensures held <==> value in Offered(options)
  {
    for i := 0 to |options|
      invariant value !in Offered(options[..i])
    {
      assert options[..i + 1][..i] == options[..i];
      if options[i].value == value {
        OfferedGrows(options, i + 1, value);
        return true;
      }
    }
    assert options[..|options|] == options;
    return false;
  }

  lemma {:induction false} OfferedGrows(options: seq<Choice>, k: nat, value: string)
    requires k <= |options| && value in Offered(options[..k])
    ensures value in Offered(options)
    decreases |options| - k
  {
    if k == |options| {
      assert options[..k] == options;
    } else {
      assert options[..k + 1][..k] == options[..k];
      OfferedGrows(options, k + 1, value);
    }
  }

  // ----- what one pass achieves -----

  // Nothing is left to do for a field.
  ghost predicate Settled(field: Field, values: Values) {
    field.isSelect ==>
      && field.key in values
      && (|| values[field.key] in Offered(Available(field.options, values))
          || (values[field.key] == "" && !(field.autoSelect && |Available(field.options, values)| > 0)))
  }

  function SelectKeys(fields: seq<Field>): set<string> {
    if fields == [] then {}
    else if fields[|fields| - 1].isSelect then SelectKeys(fields[..|fields| - 1]) + {fields[|fields| - 1].key}
    else SelectKeys(fields[..|fields| - 1])
  }

  // Every key an option of the field looks at.
  ghost predicate LooksAt(field: Field, key: string) {
    exists c :: c in field.options && key in c.dependsOn
  }

  // A select has a key of its own and looks at no select from itself on.
  ghost predicate Ordered(fields: seq<Field>) {
    fields == [] ||
    (&& Ordered(fields[..|fields| - 1])
     && (fields[|fields| - 1].isSelect ==>
       && fields[|fields| - 1].key !in SelectKeys(fields[..|fields| - 1])
       && forall k :: 0 <= k < |fields| && fields[k].isSelect ==> !LooksAt(fields[k], fields[|fields| - 1].key)))
  }

  lemma {:induction false} AvailableAgrees(options: seq<Choice>, a: Values, b: Values)
    requires forall c, key :: c in options && key in c.dependsOn ==> ValueOf(a, key) == ValueOf(b, key)
    ensures Available(options, a) == Available(options, b)
  {
    if options != [] {
      var front, last := options[..|options| - 1], options[|options| - 1];
      assert options == front + [last] && last in options;
      AvailableAgrees(front, a, b);
      assert Matches(last, a) == Matches(last, b);
    }
  }

  lemma {:induction false} FirstOffered(options: seq<Choice>)
    requires |options| > 0
    ensures options[0].value in Offered(options)
  {
    if |options| > 1 {
      FirstOffered(options[..|options| - 1]);
    }
  }

  lemma ReconcileSettles(field: Field, values: Values)
    requires field.isSelect ==> !LooksAt(field, field.key)
    ensures Settled(field, Reconcile(field, values))
    ensures forall key :: key != field.key || !field.isSelect ==>
      ValueOf(Reconcile(field, values), key) == ValueOf(values, key)
  {
    var after := Reconcile(field, values);
    if field.isSelect {
      forall c, key | c in field.options && key in c.dependsOn ensures ValueOf(values, key) == ValueOf(after, key) {
        assert LooksAt(field, key);
      }
      AvailableAgrees(field.options, values, after);
      var options := Available(field.options, values);
      if |options| > 0 {
        FirstOffered(options);
      }
    }
  }

  // A field that is settled stays so while only other keys change, at which it does not look.
  lemma StaysSettled(field: Field, a: Values, b: Values, changed: string)
    requires Settled(field, a) && (field.isSelect ==> field.key !in {changed} && !LooksAt(field, changed))
    requires forall key :: key !in {changed} ==> ValueOf(a, key) == ValueOf(b, key) && (key in a <==> key in b)
    ensures Settled(field, b)
  {
    if field.isSelect {
      forall c, key | c in field.options && key in c.dependsOn ensures ValueOf(a, key) == ValueOf(b, key) {
        assert LooksAt(field, key);
      }
      AvailableAgrees(field.options, a, b);
      assert ValueOf(a, field.key) == ValueOf(b, field.key);
    }
  }

  lemma {:induction false} KeyOfSelect(fields: seq<Field>, k: nat)
    requires k < |fields| && fields[k].isSelect
    ensures fields[k].key in SelectKeys(fields)
  {
    if k < |fields| - 1 {
      KeyOfSelect(fields[..|fields| - 1], k);
    }
  }

  /** One pass settles every select: it is empty or holds an option that is available under the final
      values. */
  lemma {:induction false} PassSettles(fields: seq<Field>, values: Values, k: nat)
    requires Ordered(fields) && k < |fields|
    ensures Settled(fields[k], Pass(fields, values))
  {
    var front, last := fields[..|fields| - 1], fields[|fields| - 1];
    var before := Pass(front, values);
    if k == |fields| - 1 {
      ReconcileSettles(last, before);
    } else {
      PassSettles(front, values, k);
      if last.isSelect {
        if fields[k].isSelect {
          KeyOfSelect(front, k);
        }
        StaysSettled(fields[k], before, Pass(fields, values), last.key);
      }
    }
  }

  /** A pass touches no key but those of selects. */
  lemma {:induction false} PassTouchesSelects(fields: seq<Field>, values: Values, key: string)
    requires key !in SelectKeys(fields)
    ensures key in Pass(fields, values) <==> key in values
    ensures key in values ==> Pass(fields, values)[key] == values[key]
  {
    if fields != [] {
      PassTouchesSelects(fields[..|fields| - 1], values, key);
    }
  }

  lemma {:induction false} SettledPass(fields: seq<Field>, values: Values)
    requires forall k :: 0 <= k < |fields| ==> Settled(fields[k], values)
    ensures Pass(fields, values) == values
  {
    if fields != [] {
      SettledPass(fields[..|fields| - 1], values);
      var last := fields[|fields| - 1];
      assert Settled(last, values);
      if last.isSelect {
        assert values[last.key := values[last.key]] == values;
      }
    }
  }

  /** A second pass changes nothing. */
  lemma SecondPassIdle(fields: seq<Field>, values: Values)
    requires Ordered(fields)
    ensures Pass(fields, Pass(fields, values)) == Pass(fields, values)
  {
    forall k | 0 <= k < |fields| ensures Settled(fields[k], Pass(fields, values)) {
      PassSettles(fields, values, k);
    }
    SettledPass(fields, Pass(fields, values));
  }

  // ----- what is available, and what a field gets -----

  // Every value the option depends on, or the empty one where there is none, is among those it accepts.
  ghost predicate Accepted(c: Choice, values: Values) {
    forall key :: key in c.dependsOn ==> (if key in values then values[key] else "") in c.dependsOn[key]
  }

  ghost predicate AcceptedWith(options: seq<Choice>, values: Values, value: string) {
    exists c :: c in options && c.value in {value} && Accepted(c, values)
  }

  lemma {:induction false} OfferedMeaning(options: seq<Choice>, values: Values, value: string)
    ensures value in Offered(Available(options, values)) <==> AcceptedWith(options, values, value)
  {
    if options != [] {
      var front, last := options[..|options| - 1], options[|options| - 1];
      assert options == front + [last] && last in options;
      OfferedMeaning(front, values, value);
      OfferedMeaning(front, values, last.value);
      var before := Available(front, values);
      assert (before + [last])[..|before|] == before;
      if AcceptedWith(front, values, value) {
        var c :| c in front && c.value in {value} && Accepted(c, values);
        assert c in options;
      }
    }
  }

  /** The options available are those accepted, in their order, the first of each value: one more option is added
      exactly when it is accepted and none before it with its value is. */
  lemma AvailableMeaning(options: seq<Choice>, c: Choice, values: Values)
    ensures Available([], values) == []
    ensures Available(options + [c], values) == Available(options, values) +
      if Accepted(c, values) && !AcceptedWith(options, values, c.value) then [c] else []
  {
    assert (options + [c])[..|options|] == options;
    OfferedMeaning(options, values, c.value);
  }

  lemma {:induction false} FirstAvailable(options: seq<Choice>, values: Values, i: nat)
    requires i < |options| && Accepted(options[i], values)
    requires forall j :: 0 <= j < i ==> !Accepted(options[j], values)
    ensures |Available(options, values)| > 0 && Available(options, values)[0] == options[i]
  {
    var front := options[..|options| - 1];
    if i < |front| {
      FirstAvailable(front, values, i);
    } else {
      NoneAvailable(front, values);
      assert (front + [options[i]])[..|front|] == front && front + [options[i]] == options;
    }
  }

  lemma {:induction false} NoneAvailable(options: seq<Choice>, values: Values)
    requires forall j :: 0 <= j < |options| ==> !Accepted(options[j], values)
    ensures Available(options, values) == []
  {
    if options != [] {
      NoneAvailable(options[..|options| - 1], values);
    }
  }

  /** A field that is no select, or whose value is that of an accepted option, keeps its value. Any other select gets
      the first accepted option if it picks one by itself and there is one, and the empty value otherwise. */
  lemma ReconcileMeaning(field: Field, values: Values)
    ensures var after := Reconcile(field, values);
      if !field.isSelect || (field.key in values && AcceptedWith(field.options, values, values[field.key]))
      then after == values
      else
        && after.Keys == values.Keys + {field.key}
        && (forall key :: key in values && key !in {field.key} ==> after[key] == values[key])
        && (!field.autoSelect ==> after[field.key] == "")
        && ((forall i :: 0 <= i < |field.options| ==> !Accepted(field.options[i], values)) ==> after[field.key] == "")
        && (field.autoSelect ==> forall i :: 0 <= i < |field.options| && FirstAccepted(field.options, values, i) ==>
          after[field.key] == field.options[i].value)
  {
    if field.key in values {
      OfferedMeaning(field.options, values, values[field.key]);
    }
    forall i | 0 <= i < |field.options| && FirstAccepted(field.options, values, i)
      ensures |Available(field.options, values)| > 0 && Available(field.options, values)[0] == field.options[i]
    {
      FirstAvailable(field.options, values, i);
    }
    if forall i :: 0 <= i < |field.options| ==> !Accepted(field.options[i], values) {
      NoneAvailable(field.options, values);
    }
  }

  ghost predicate FirstAccepted(options: seq<Choice>, values: Values, i: nat)
    requires i < |options|
  {
    Accepted(options[i], values) && forall j :: 0 <= j < i ==> !Accepted(options[j], values)
  }
}
