/** Struct validation (package internal/validator) over the rule tables of
    module Dto.

    The go-playground validator library is replaced by a small engine with
    the behaviour the adapter relies on, which is an assumption about the
    library: fields are visited in declaration order; within a field the
    rules run in the order the tag lists them and only the first failing
    rule is reported; `omitempty` ends the field's checks when the value is
    empty (a plain string that is "") or absent (a nil pointer; a non-nil
    pointer counts as present even when it points to ""). Go's `time.Parse`
    is the parameter `parsesTime(layout, text)`. */
module Validator {
  import opened Wrappers
  import opened Dto
  import opened Errors

  /** What the library reports for one field: its Go name, the failing tag
      and the tag's parameter text. */
  datatype FieldError = FieldError(field: string, tag: string, param: string)

  // ---------------------------------------------------------------------
  // The rule engine

  function Tag(r: Rule): string {
    match r
    case OmitEmpty => "omitempty"
    case Required => "required"
    case Min(_) => "min"
    case Max(_) => "max"
    case OneOf(_) => "oneof"
    case DateTime(_) => "datetime"
  }

  function Digit(d: nat): char
    requires d < 10
  {
    "0123456789"[d]
  }

  /** The decimal text of a number, as it stands in a tag. */
  function Decimal(n: nat): (s: string)
    ensures |s| >= 1
  {
    if n < 10 then [Digit(n)] else Decimal(n / 10) + [Digit(n % 10)]
  }

  function Join(parts: seq<string>, sep: string): string {
    if parts == [] then ""
    else if |parts| == 1 then parts[0]
    else parts[0] + sep + Join(parts[1..], sep)
  }

  /** The parameter text of a rule as written after `=` in the tag. */
  function Param(r: Rule): string {
    match r
    case Min(n) => Decimal(n)
    case Max(n) => Decimal(n)
    case OneOf(options) => Join(options, " ")
    case DateTime(layout) => layout
    case _ => ""
  }

  /** Whether `omitempty` lets the remaining rules run. */
  predicate HasValue(v: FieldValue) {
    match v
    case Str(s) => s != ""
    case StrPtr(p) => p.Some?
    case BoolPtr(b) => b.Some?
  }

  /** Whether a rule accepts a string: lengths count characters (runes). */
  predicate StringHolds(r: Rule, s: string, parsesTime: (string, string) -> bool) {
    match r
    case Min(n) => |s| >= n
    case Max(n) => |s| <= n
    case OneOf(options) => s in options
    case DateTime(layout) => parsesTime(layout, s)
    case _ => true
  }

  /** Whether a rule accepts a field value. A nil pointer fails every rule
      it reaches; no table puts a rule other than omitempty on a pointer,
      nor any rule on the bool field, so those cases are never reached. */
  predicate Holds(r: Rule, v: FieldValue, parsesTime: (string, string) -> bool) {
    match r
    case OmitEmpty => true
    case Required => HasValue(v)
    case _ =>
      match v
      case Str(s) => StringHolds(r, s, parsesTime)
      case StrPtr(p) => p.Some? && StringHolds(r, p.value, parsesTime)
      case BoolPtr(b) => b.Some?
  }

  /** Rule k runs on v: no `omitempty` before it has stopped the field. */
  predicate Reached(rules: seq<Rule>, v: FieldValue, k: nat)
    requires k <= |rules|
  {
    HasValue(v) || OmitEmpty !in rules[..k]
  }

  /** The index of the first rule from k on that runs and fails. */
  function FirstFailureFrom(rules: seq<Rule>, v: FieldValue, parsesTime: (string, string) -> bool, k: nat): (r: Option<nat>)
    requires k <= |rules| && Reached(rules, v, k)
    decreases |rules| - k
    ensures r.Some? ==> k <= r.value < |rules| && Reached(rules, v, r.value)
    ensures r.Some? ==> !Holds(rules[r.value], v, parsesTime)
    ensures r.Some? ==> forall j :: k <= j < r.value ==> Holds(rules[j], v, parsesTime)
    ensures r.None? ==> forall j :: k <= j < |rules| && Reached(rules, v, j) ==> Holds(rules[j], v, parsesTime)
  {
    if k == |rules| then None
    else if rules[k] == OmitEmpty && !HasValue(v) then
      assert forall j :: k < j <= |rules| ==> rules[..j][k] == OmitEmpty;
      None
    else if !Holds(rules[k], v, parsesTime) then Some(k)
    else
      assert rules[..k + 1] == rules[..k] + [rules[k]];
      FirstFailureFrom(rules, v, parsesTime, k + 1)
  }

  /** The rule the library reports for a field, if any. */
  function FirstFailure(rules: seq<Rule>, v: FieldValue, parsesTime: (string, string) -> bool): (r: Option<Rule>)
    ensures r.Some? ==> r.value in rules && r.value != OmitEmpty && !Holds(r.value, v, parsesTime)
    ensures r.Some? ==> exists i :: 0 <= i < |rules| && rules[i] == r.value && Reached(rules, v, i)
                                  && forall j :: 0 <= j < i ==> Holds(rules[j], v, parsesTime)
    ensures r.None? <==> forall j :: 0 <= j < |rules| && Reached(rules, v, j) ==> Holds(rules[j], v, parsesTime)
  {
    assert rules[..0] == [];
    match FirstFailureFrom(rules, v, parsesTime, 0)
    case None => None
    case Some(i) => Some(rules[i])
  }

  /** The rule reported for field j, if any. */
  function Reported(table: seq<FieldRules>, values: seq<FieldValue>, parsesTime: (string, string) -> bool, j: nat): Option<Rule>
    requires |table| == |values| && j < |table|
  {
    FirstFailure(table[j].rules, values[j], parsesTime)
  }

  /** What every field reports, in field order: the library checks all of
      them, whatever an earlier one reported. */
  function Reports(table: seq<FieldRules>, values: seq<FieldValue>, parsesTime: (string, string) -> bool): (rs: seq<Option<Rule>>)
    requires |table| == |values|
    ensures |rs| == |table|
  {
    seq(|table|, j requires 0 <= j < |table| => Reported(table, values, parsesTime, j))
  }

  function Names(table: seq<FieldRules>): (names: seq<string>)
    ensures |names| == |table|
  {
    seq(|table|, j requires 0 <= j < |table| => table[j].name)
  }

  /** The violations of the fields from index k on, in field order: one for
      each field that reports a rule. */
  function Collect(names: seq<string>, reports: seq<Option<Rule>>, k: nat): (vs: seq<FieldError>)
    requires |names| == |reports| && k <= |names|
    decreases |names| - k
    ensures |vs| <= |names| - k
  {
    if k == |names| then []
    else
      var here := match reports[k]
        case None => []
        case Some(r) => [FieldError(names[k], Tag(r), Param(r))];
      here + Collect(names, reports, k + 1)
  }

  /** What `validate.Struct` reports: at most one violation per field. */
  function Violations(table: seq<FieldRules>, values: seq<FieldValue>, parsesTime: (string, string) -> bool): seq<FieldError>
    requires |table| == |values|
  {
    Collect(Names(table), Reports(table, values, parsesTime), 0)
  }

  lemma {:induction false} CollectEmpty(names: seq<string>, reports: seq<Option<Rule>>, k: nat)
    requires |names| == |reports| && k <= |names|
    decreases |names| - k
    ensures Collect(names, reports, k) == [] <==> forall j :: k <= j < |names| ==> reports[j].None?
  {
    if k < |names| {
      CollectEmpty(names, reports, k + 1);
    }
  }

  /** The library reports nothing exactly when every field passes. */
  lemma ViolationsEmpty(table: seq<FieldRules>, values: seq<FieldValue>, parsesTime: (string, string) -> bool)
    requires |table| == |values|
    ensures Violations(table, values, parsesTime) == []
        <==> forall j :: 0 <= j < |table| ==> Reported(table, values, parsesTime, j).None?
  {
    var reports := Reports(table, values, parsesTime);
    CollectEmpty(Names(table), reports, 0);
    assert forall j :: 0 <= j < |table| ==> reports[j] == Reported(table, values, parsesTime, j);
  }

  // ---------------------------------------------------------------------
  // Messages

  const KnownTags: set<string> := {"required", "min", "max", "oneof", "datetime"}
  const ParamTags: set<string> := {"min", "max", "oneof", "datetime"}

  /** The text before and after the parameter in a parameterised message. */
  function Lead(tag: string): string {
    if tag == "min" then "This field must be at least "
    else if tag == "max" then "This field must be at most "
    else if tag == "oneof" then "This field must be one of: "
    else "This field must be a valid datetime in format: "
  }

  function Trail(tag: string): string {
    if tag == "min" || tag == "max" then " characters" else ""
  }

  /** `getValidationMessage`: a message per tag, with the parameter embedded
      verbatim; an unknown tag gets the generic text. */
  function ValidationMessage(tag: string, param: string): (m: string)
    ensures tag in ParamTags ==> m == Lead(tag) + param + Trail(tag)
    ensures tag !in KnownTags ==> m == "This field is invalid"
  {
    if tag == "required" then "This field is required"
    else if tag == "min" then "This field must be at least " + param + " characters"
    else if tag == "max" then "This field must be at most " + param + " characters"
    else if tag == "oneof" then "This field must be one of: " + param
    else if tag == "datetime" then "This field must be a valid datetime in format: " + param
    else "This field is invalid"
  }

  /** The generic text is kept for unknown tags, the required text for
      `required`, and every parameterised tag embeds its parameter verbatim
      between its own lead-in and trailer. */
  lemma MessageShape(tag: string, param: string)
    ensures var m := ValidationMessage(tag, param);
      && (tag !in KnownTags <==> m == "This field is invalid")
      && (tag == "required" <==> m == "This field is required")
      && (tag in ParamTags ==> m == Lead(tag) + param + Trail(tag))
  {
    var m := ValidationMessage(tag, param);
    if tag in ParamTags {
      assert m[11] == Lead(tag)[11] == 'm';
    } else if tag == "required" {
      assert m == "This field is required";
    } else {
      assert m == "This field is invalid";
    }
  }

  /** The message of a reported rule. */
  function Message(r: Rule): string {
    ValidationMessage(Tag(r), Param(r))
  }

  /** A message names the failing rule and, for a parameterised rule, its
      parameter: different rules never produce the same message. */
  lemma MessageDeterminesRule(t1: string, p1: string, t2: string, p2: string)
    requires t1 in KnownTags && t2 in KnownTags
    requires ValidationMessage(t1, p1) == ValidationMessage(t2, p2)
    ensures t1 == t2
    ensures t1 in ParamTags ==> p1 == p2
  {
    MessageShape(t1, p1);
    MessageShape(t2, p2);
    var m := ValidationMessage(t1, p1);
    if t1 != "required" && t2 != "required" {
      var l := Lead(t1);
      if t1 != t2 {
        LeadsDiffer(t1, t2);
        var i :| 0 <= i < |l| && i < |Lead(t2)| && l[i] != Lead(t2)[i];
        MessageAt(t1, p1, i);
        MessageAt(t2, p2, i);
        assert false;
      }
      var t := Trail(t1);
      assert m == l + p1 + t == l + p2 + t;
      assert p1 == m[|l|..|l| + |p1|];
      assert p2 == m[|l|..|l| + |p2|];
    }
  }

  /** A parameterised message starts with its lead-in. */
  lemma MessageAt(tag: string, param: string, i: nat)
    requires tag in ParamTags && i < |Lead(tag)|
    ensures ValidationMessage(tag, param)[i] == Lead(tag)[i]
  {
  }

  /** The lead-ins of two different parameterised messages differ at a
      position both have. */
  lemma LeadsDiffer(t1: string, t2: string)
    requires t1 in ParamTags && t2 in ParamTags && t1 != t2
    ensures exists i :: 0 <= i < |Lead(t1)| && i < |Lead(t2)| && Lead(t1)[i] != Lead(t2)[i]
  {
    var l1, l2 := Lead(t1), Lead(t2);
    if l1[19] != l2[19] {
    } else if l1[20] != l2[20] {
    } else {
      assert l1[22] != l2[22];
    }
  }

  // ---------------------------------------------------------------------
  // The details map

  /** ASCII case folding; the field names are ASCII. */
  function LowerChar(c: char): char {
    if 'A' <= c <= 'Z' then (c as int + 32) as char else c
  }

  function Lower(s: string): string
  {
    seq(|s|, i requires 0 <= i < |s| => LowerChar(s[i]))
  }

  /** The details map that the loop of ValidateStruct leaves after starting
      from acc: later entries overwrite earlier ones under the same key. */
  function Insert(acc: map<string, string>, vs: seq<FieldError>): map<string, string>
    decreases |vs|
  {
    if vs == [] then acc
    else Insert(acc[Lower(vs[0].field) := ValidationMessage(vs[0].tag, vs[0].param)], vs[1..])
  }

  function DetailsOf(vs: seq<FieldError>): map<string, string> {
    Insert(map[], vs)
  }

  lemma {:induction false} InsertAppend(acc: map<string, string>, a: seq<FieldError>, b: seq<FieldError>)
    ensures Insert(acc, a + b) == Insert(Insert(acc, a), b)
    decreases |a|
  {
    if a == [] {
      assert a + b == b;
    } else {
      assert (a + b)[1..] == a[1..] + b;
      InsertAppend(acc[Lower(a[0].field) := ValidationMessage(a[0].tag, a[0].param)], a[1..], b);
    }
  }

  /** The details key of field j: its lower-cased Go name. */
  function FieldKey(table: seq<FieldRules>, j: nat): string
    requires j < |table|
  {
    Lower(table[j].name)
  }

  /** No two fields of a table share a details key. */
  predicate DistinctKeys(table: seq<FieldRules>) {
    forall i, j :: 0 <= i < j < |table| ==> FieldKey(table, i) != FieldKey(table, j)
  }

  predicate DistinctLower(names: seq<string>) {
    forall i, j :: 0 <= i < j < |names| ==> Lower(names[i]) != Lower(names[j])
  }

  /** The details after field k's violation, if any, has gone in. */
  function StepMap(acc: map<string, string>, names: seq<string>, reports: seq<Option<Rule>>, k: nat): map<string, string>
    requires |names| == |reports| && k < |names|
  {
    match reports[k]
    case None => acc
    case Some(rule) => acc[Lower(names[k]) := Message(rule)]
  }

  /** One step of the loop over the fields: field k's violation (if any)
      goes in first, the later fields' after it. */
  lemma CollectStep(acc: map<string, string>, names: seq<string>, reports: seq<Option<Rule>>, k: nat)
    requires |names| == |reports| && k < |names|
    ensures Insert(acc, Collect(names, reports, k)) == Insert(StepMap(acc, names, reports, k), Collect(names, reports, k + 1))
  {
    var here := match reports[k]
      case None => []
      case Some(rule) => [FieldError(names[k], Tag(rule), Param(rule))];
    InsertAppend(acc, here, Collect(names, reports, k + 1));
    if here != [] {
      assert here[1..] == [];
    }
  }

  /** Inserting the violations of fields k.. leaves a key that no field
      from k on owns exactly as it was. */
  lemma {:induction false} CollectOther(acc: map<string, string>, names: seq<string>, reports: seq<Option<Rule>>,
                                         k: nat, key: string)
    requires |names| == |reports| && k <= |names|
    requires forall j :: k <= j < |names| ==> Lower(names[j]) != key
    decreases |names| - k
    ensures var r := Insert(acc, Collect(names, reports, k));
      && (key in r <==> key in acc)
      && (key in acc ==> r[key] == acc[key])
  {
    if k < |names| {
      CollectStep(acc, names, reports, k);
      CollectOther(StepMap(acc, names, reports, k), names, reports, k + 1, key);
    }
  }

  /** After field k's step, the keys of the later fields are still absent. */
  lemma StepFresh(acc: map<string, string>, names: seq<string>, reports: seq<Option<Rule>>, k: nat)
    requires |names| == |reports| && k < |names| && DistinctLower(names)
    requires forall i :: k <= i < |names| ==> Lower(names[i]) !in acc
    ensures forall i :: k + 1 <= i < |names| ==>
              Lower(names[i]) != Lower(names[k]) && Lower(names[i]) !in StepMap(acc, names, reports, k)
  {
  }

  /** ... and holds field j's message under field j's key exactly when
      field j fails, provided the keys are distinct and not there before. */
  lemma {:induction false} CollectAt(acc: map<string, string>, names: seq<string>, reports: seq<Option<Rule>>,
                                      k: nat, j: nat)
    requires |names| == |reports| && k <= j < |names| && DistinctLower(names)
    requires forall i :: k <= i < |names| ==> Lower(names[i]) !in acc
    decreases |names| - k
    ensures var r := Insert(acc, Collect(names, reports, k));
      && (Lower(names[j]) in r <==> reports[j].Some?)
      && (reports[j].Some? ==> r[Lower(names[j])] == Message(reports[j].value))
  {
    CollectStep(acc, names, reports, k);
    StepFresh(acc, names, reports, k);
    if j == k {
      CollectOther(StepMap(acc, names, reports, k), names, reports, k + 1, Lower(names[k]));
    } else {
      CollectAt(StepMap(acc, names, reports, k), names, reports, k + 1, j);
    }
  }

  /** The details map of a table's violations has one entry per failing
      field, under the lower-cased Go field name, holding the message of
      that field's first failing rule; no other key appears. */
  lemma DetailsOfViolations(table: seq<FieldRules>, values: seq<FieldValue>, parsesTime: (string, string) -> bool)
    requires |table| == |values| && DistinctKeys(table)
    ensures var d := DetailsOf(Violations(table, values, parsesTime));
      && (forall key :: key in d ==> exists j :: 0 <= j < |table| && key == FieldKey(table, j))
      && (forall j :: 0 <= j < |table| ==> (FieldKey(table, j) in d <==> Reported(table, values, parsesTime, j).Some?))
      && (forall j :: 0 <= j < |table| && Reported(table, values, parsesTime, j).Some? ==>
            d[FieldKey(table, j)] == Message(Reported(table, values, parsesTime, j).value))
  {
    var names, reports := Names(table), Reports(table, values, parsesTime);
    var d := DetailsOf(Violations(table, values, parsesTime));
    assert forall j :: 0 <= j < |table| ==> FieldKey(table, j) == Lower(names[j]);
    forall key | key in d
      ensures exists j :: 0 <= j < |table| && key == FieldKey(table, j)
    {
      if forall j :: 0 <= j < |table| ==> FieldKey(table, j) != key {
        CollectOther(map[], names, reports, 0, key);
      }
    }
    forall j | 0 <= j < |table|
      ensures FieldKey(table, j) in d <==> Reported(table, values, parsesTime, j).Some?
      ensures Reported(table, values, parsesTime, j).Some? ==>
                d[FieldKey(table, j)] == Message(Reported(table, values, parsesTime, j).value)
    {
      CollectAt(map[], names, reports, 0, j);
    }
  }

  /** `ValidateStruct`: nil when the library reports nothing; otherwise the
      shared ErrValidationFailed object, its details replaced in place by the
      map built from the violations. */
  method ValidateStruct(cat: Catalog, table: seq<FieldRules>, values: seq<FieldValue>, parsesTime: (string, string) -> bool)
    returns (err: Option<AppError>)
    requires cat.Valid() && |table| == |values|
    modifies cat.ErrValidationFailed`Details
    ensures var vs := Violations(table, values, parsesTime);
      && (err.None? <==> vs == [])
      && (vs == [] ==> cat.ErrValidationFailed.Details == old(cat.ErrValidationFailed.Details))
      && (vs != [] ==> err == Some(cat.ErrValidationFailed) && cat.ErrValidationFailed.Details == DetailsOf(vs))
  {
    var vs := Violations(table, values, parsesTime);
    if vs == [] {
      return None;
    }
    var details: map<string, string> := map[];
    var i := 0;
    while i < |vs|
      invariant 0 <= i <= |vs|
      invariant Insert(details, vs[i..]) == DetailsOf(vs)
    {
      assert vs[i..][1..] == vs[i + 1..];
      details := details[Lower(vs[i].field) := ValidationMessage(vs[i].tag, vs[i].param)];
      i := i + 1;
    }
    var e := cat.ErrValidationFailed.WithDetails(details);
    return Some(e);
  }

  // ---------------------------------------------------------------------
  // The rule tables of the two request types

  const TaskKeys: seq<string> := ["title", "description", "priority", "duedate", "completed"]

  /** The details keys are the lower-cased Go field names, not the JSON
      names: DueDate reports under "duedate", not "due_date". */
  lemma TableKeys()
    ensures |CreateTaskRules| == 4 && |UpdateTaskRules| == 5
    ensures forall j :: 0 <= j < 4 ==> FieldKey(CreateTaskRules, j) == TaskKeys[j]
    ensures forall j :: 0 <= j < 5 ==> FieldKey(UpdateTaskRules, j) == TaskKeys[j]
    ensures DistinctKeys(CreateTaskRules) && DistinctKeys(UpdateTaskRules)
  {
    FieldNameKeys();
    assert forall i, j :: 0 <= i < j < 5 ==> TaskKeys[i][0] != TaskKeys[j][0] || TaskKeys[i][1] != TaskKeys[j][1];
  }

  lemma FieldNameKeys()
    ensures Lower("Title") == TaskKeys[0] && Lower("Description") == TaskKeys[1]
    ensures Lower("Priority") == TaskKeys[2] && Lower("DueDate") == TaskKeys[3]
    ensures Lower("Completed") == TaskKeys[4]
  {
    LowerIs("Title", "title");
    LowerIs("Description", "description");
    LowerIs("Priority", "priority");
    LowerIs("DueDate", "duedate");
    LowerIs("Completed", "completed");
  }

  /** Lower-casing works character by character. */
  lemma LowerIs(s: string, t: string)
    requires |s| == |t| && forall i :: 0 <= i < |s| ==> LowerChar(s[i]) == t[i]
    ensures Lower(s) == t
  {
  }

  // The messages the two request tables can produce, with their parameters
  // as the tags spell them.

  lemma TitleMessages()
    ensures Message(Required) == "This field is required"
    ensures Message(Min(1)) == "This field must be at least 1 characters"
    ensures Message(Max(100)) == "This field must be at most 100 characters"
  {
    RequiredMessage();
    MinOneMessage();
    Decimal100();
    MaxMessage("100");
  }

  lemma RequiredMessage()
    ensures Message(Required) == "This field is required"
  {
  }

  lemma MinOneMessage()
    ensures Message(Min(1)) == "This field must be at least 1 characters"
  {
    assert Param(Min(1)) == "1";
  }

  lemma DescriptionMessage()
    ensures Message(Max(500)) == "This field must be at most 500 characters"
  {
    Decimal500();
    MaxMessage("500");
  }

  lemma PriorityMessage()
    ensures Message(OneOf(Priorities)) == "This field must be one of: low medium high"
  {
    assert Param(OneOf(Priorities)) == "low medium high";
  }

  lemma DueDateMessage()
    ensures Message(DateTime(GoRFC3339)) == "This field must be a valid datetime in format: " + GoRFC3339
  {
  }

  lemma Decimal100() ensures Decimal(100) == "100" {}
  lemma Decimal500() ensures Decimal(500) == "500" {}

  lemma MaxMessage(digits: string)
    ensures ValidationMessage("max", digits) == "This field must be at most " + digits + " characters"
  {
  }

  /** A rule behind `omitempty` runs only on a value that is there. */
  lemma OmitEmptyThen(rule: Rule, v: FieldValue, parsesTime: (string, string) -> bool)
    requires rule != OmitEmpty
    ensures FirstFailure([OmitEmpty, rule], v, parsesTime)
         == if HasValue(v) && !Holds(rule, v, parsesTime) then Some(rule) else None
  {
    var rules := [OmitEmpty, rule];
    if HasValue(v) {
      assert FirstFailureFrom(rules, v, parsesTime, 2) == None;
      assert FirstFailureFrom(rules, v, parsesTime, 1) == if Holds(rule, v, parsesTime) then None else Some(1);
    }
  }

  /** A title's length rules after `required` or `omitempty`. */
  lemma TitleRules(first: Rule, v: FieldValue, parsesTime: (string, string) -> bool)
    requires first == Required || first == OmitEmpty
    ensures var rules := [first, Min(1), Max(100)];
      FirstFailure(rules, v, parsesTime)
         == if !HasValue(v) then (if first == Required then Some(Required) else None)
            else if !Holds(Min(1), v, parsesTime) then Some(Min(1))
            else if !Holds(Max(100), v, parsesTime) then Some(Max(100))
            else None
  {
    var rules := [first, Min(1), Max(100)];
    if HasValue(v) {
      assert FirstFailureFrom(rules, v, parsesTime, 3) == None;
      assert FirstFailureFrom(rules, v, parsesTime, 2) == if Holds(Max(100), v, parsesTime) then None else Some(2);
      assert FirstFailureFrom(rules, v, parsesTime, 1)
          == if !Holds(Min(1), v, parsesTime) then Some(1) else FirstFailureFrom(rules, v, parsesTime, 2);
    }
  }

  /** What each field of a CreateTaskRequest reports. The title is required
      and at most 100 characters (min=1 can never be the first failure);
      the description has no omitempty, so max=500 always runs and "" passes;
      priority and due_date are checked only when non-empty. */
  lemma CreateReports(req: CreateTaskRequest, parsesTime: (string, string) -> bool)
    ensures Reported(CreateTaskRules, req.Values(), parsesTime, 0)
         == if req.title == "" then Some(Required) else if |req.title| > 100 then Some(Max(100)) else None
    ensures Reported(CreateTaskRules, req.Values(), parsesTime, 1)
         == if |req.description| > 500 then Some(Max(500)) else None
    ensures Reported(CreateTaskRules, req.Values(), parsesTime, 2)
         == if req.priority != "" && req.priority !in Priorities then Some(OneOf(Priorities)) else None
    ensures Reported(CreateTaskRules, req.Values(), parsesTime, 3)
         == if req.dueDate != "" && !parsesTime(GoRFC3339, req.dueDate) then Some(DateTime(GoRFC3339)) else None
  {
    var vs := req.Values();
    TitleRules(Required, vs[0], parsesTime);
    OmitEmptyThen(OneOf(Priorities), vs[2], parsesTime);
    OmitEmptyThen(DateTime(GoRFC3339), vs[3], parsesTime);
  }

  /** What each field of an UpdateTaskRequest reports: an absent field
      reports nothing; a present one is checked even when it is "";
      completed has no rule. */
  lemma UpdateReports(req: UpdateTaskRequest, parsesTime: (string, string) -> bool)
    ensures Reported(UpdateTaskRules, req.Values(), parsesTime, 0)
         == match req.title
            case None => None
            case Some(t) => if |t| < 1 then Some(Min(1)) else if |t| > 100 then Some(Max(100)) else None
    ensures Reported(UpdateTaskRules, req.Values(), parsesTime, 1)
         == if req.description.Some? && |req.description.value| > 500 then Some(Max(500)) else None
    ensures Reported(UpdateTaskRules, req.Values(), parsesTime, 2)
         == if req.priority.Some? && req.priority.value !in Priorities then Some(OneOf(Priorities)) else None
    ensures Reported(UpdateTaskRules, req.Values(), parsesTime, 3)
         == if req.dueDate.Some? && !parsesTime(GoRFC3339, req.dueDate.value) then Some(DateTime(GoRFC3339)) else None
    ensures Reported(UpdateTaskRules, req.Values(), parsesTime, 4) == None
  {
    var vs := req.Values();
    TitleRules(OmitEmpty, vs[0], parsesTime);
    OmitEmptyThen(Max(500), vs[1], parsesTime);
    OmitEmptyThen(OneOf(Priorities), vs[2], parsesTime);
    OmitEmptyThen(DateTime(GoRFC3339), vs[3], parsesTime);
  }
}
