/** `MemoryJsonValidator`: the closed schema that a session's durable memory
    must satisfy. Jackson's parser is an input (`JsonReader`); the validator
    walks the tree it returns. */
module MemoryJsonValidator {
  import opened Wrappers
  import opened JavaStrings

  /** A Jackson `JsonNode`. Numbers are kept abstract: the schema never looks at them. */
  datatype Json =
    | JNull
    | JBool(b: bool)
    | JNumber(n: int)
    | JString(s: string)
    | JArray(items: seq<Json>)
    | JObject(fields: seq<Field>)

  datatype Field = Field(key: string, value: Json)

  /** What `ObjectMapper.readTree` gives for a text: a tree, or an exception. */
  datatype Parsed = Tree(root: Json) | Malformed

  type JsonReader = string -> Parsed

  const TopLevelKeys: set<string> := {"user_prefs", "project_context", "decisions", "open_questions", "facts"}
  const UserPrefKeys: set<string> := {"language", "tone", "format", "other"}
  const ProjectContextKeys: set<string> := {"app_name", "stack", "current_goal", "notes"}
  const DecisionKeys: set<string> := {"date", "decision"}

  /** `node.get(key)`: the value bound to `key`, or `null` (None) when absent. */
  function Get(fields: seq<Field>, key: string): (r: Option<Json>)
    ensures r.Some? <==> exists i :: 0 <= i < |fields| && fields[i].key == key
    ensures r.Some? ==> exists i :: 0 <= i < |fields| && fields[i] == Field(key, r.value)
  {
    if |fields| == 0 then None
    else if fields[0].key == key then Some(fields[0].value)
    else Get(fields[1..], key)
  }

  /** The `fieldNames()` loop: false as soon as a key outside `allowed` is met. */
  predicate KeysWithin(fields: seq<Field>, allowed: set<string>) {
    if |fields| == 0 then true
    else if fields[0].key !in allowed then false
    else KeysWithin(fields[1..], allowed)
  }

  /** `validateOptionalString`: absent, null or textual. */
  predicate ValidateOptionalString(node: Option<Json>) {
    node.None? || node.value.JNull? || node.value.JString?
  }

  /** The `for (JsonNode item : node)` loop of `validateStringArray`. */
  predicate AllTextual(items: seq<Json>) {
    if |items| == 0 then true
    else if !items[0].JString? then false
    else AllTextual(items[1..])
  }

  /** `validateStringArray`: absent or null, or an array of strings. */
  predicate ValidateStringArray(node: Option<Json>) {
    if node.None? || node.value.JNull? then true
    else if !node.value.JArray? then false
    else AllTextual(node.value.items)
  }

  /** `validateOptionalStringArray`. */
  predicate ValidateOptionalStringArray(node: Option<Json>) {
    node.None? || node.value.JNull? || ValidateStringArray(node)
  }

  /** `validateUserPrefs`. */
  predicate ValidateUserPrefs(node: Option<Json>) {
    if node.None? || node.value.JNull? then true
    else if !node.value.JObject? then false
    else
      var fields := node.value.fields;
      KeysWithin(fields, UserPrefKeys)
      && ValidateOptionalString(Get(fields, "language"))
      && ValidateOptionalString(Get(fields, "tone"))
      && ValidateOptionalString(Get(fields, "format"))
      && ValidateOptionalStringArray(Get(fields, "other"))
  }

  /** `validateProjectContext`. */
  predicate ValidateProjectContext(node: Option<Json>) {
    if node.None? || node.value.JNull? then true
    else if !node.value.JObject? then false
    else
      var fields := node.value.fields;
      KeysWithin(fields, ProjectContextKeys)
      && ValidateOptionalString(Get(fields, "app_name"))
      && ValidateOptionalString(Get(fields, "current_goal"))
      && ValidateOptionalStringArray(Get(fields, "stack"))
      && ValidateOptionalStringArray(Get(fields, "notes"))
  }

  /** One iteration of the loop in `validateDecisions`. */
  predicate ValidateDecision(item: Json) {
    if !item.JObject? then false
    else if !KeysWithin(item.fields, DecisionKeys) then false
    else
      var decision := Get(item.fields, "decision");
      if decision.None? || !decision.value.JString? then false
      else ValidateOptionalString(Get(item.fields, "date"))
  }

  predicate AllDecisions(items: seq<Json>) {
    if |items| == 0 then true
    else if !ValidateDecision(items[0]) then false
    else AllDecisions(items[1..])
  }

  /** `validateDecisions`. */
  predicate ValidateDecisions(node: Option<Json>) {
    if node.None? || node.value.JNull? then true
    else if !node.value.JArray? then false
    else AllDecisions(node.value.items)
  }

  /** `validateRoot`: an object whose keys are all top-level keys and whose
      present sections pass their checks, in the source's order. */
  function ValidateRoot(root: Json): (r: bool)
    ensures r ==> root.JObject? && forall i :: 0 <= i < |root.fields| ==> root.fields[i].key in TopLevelKeys
  {
    if !root.JObject? then false
    else
      var fields := root.fields;
      KeysWithinAll(fields, TopLevelKeys);
      if !KeysWithin(fields, TopLevelKeys) then false
      else if Get(fields, "user_prefs").Some? && !ValidateUserPrefs(Get(fields, "user_prefs")) then false
      else if Get(fields, "project_context").Some? && !ValidateProjectContext(Get(fields, "project_context")) then false
      else if Get(fields, "decisions").Some? && !ValidateDecisions(Get(fields, "decisions")) then false
      else if Get(fields, "open_questions").Some? && !ValidateStringArray(Get(fields, "open_questions")) then false
      else if Get(fields, "facts").Some? && !ValidateStringArray(Get(fields, "facts")) then false
      else true
  }

  /** `isValid`: null, blank and unparsable texts are rejected (the parser's
      exception is caught), otherwise the tree decides. */
  function IsValid(json: Option<string>, readTree: JsonReader): (r: bool)
    ensures r ==> json.Some? && !IsBlank(json.value) && readTree(json.value).Tree? && readTree(json.value).root.JObject?
  {
    if json.None? || IsBlank(json.value) then false
    else
      match readTree(json.value)
      case Malformed => false
      case Tree(root) => ValidateRoot(root)
  }

  // ---------------------------------------------------------------------
  // The schema stated declaratively, and its agreement with the validator.

  /** Jackson's `ObjectNode` is a map, so a parsed tree never binds one key
      twice in the same object. */
  ghost predicate DistinctKeys(fields: seq<Field>) {
    forall i, j :: 0 <= i < j < |fields| ==> fields[i].key != fields[j].key
  }

  /** A tree `readTree` can return: distinct keys in every object. */
  ghost predicate WellFormed(j: Json) {
    match j
    case JArray(items) => forall k :: 0 <= k < |items| ==> WellFormed(items[k])
    case JObject(fields) =>
      DistinctKeys(fields) && forall i :: 0 <= i < |fields| ==> WellFormed(fields[i].value)
    case _ => true
  }

  ghost predicate IsStringOrNull(v: Json) {
    v.JNull? || v.JString?
  }

  ghost predicate IsStringArray(v: Json) {
    v.JArray? && forall k :: 0 <= k < |v.items| ==> v.items[k].JString?
  }

  ghost predicate UserPrefsField(f: Field) {
    && f.key in UserPrefKeys
    && (f.key == "other" ==> f.value.JNull? || IsStringArray(f.value))
    && (f.key != "other" ==> IsStringOrNull(f.value))
  }

  ghost predicate ProjectContextField(f: Field) {
    && f.key in ProjectContextKeys
    && (f.key in {"stack", "notes"} ==> f.value.JNull? || IsStringArray(f.value))
    && (f.key in {"app_name", "current_goal"} ==> IsStringOrNull(f.value))
  }

  /** One decision: an object with no key but `date` and `decision`, a
      textual `decision`, and a `date` that is null or textual. */
  ghost predicate DecisionConforms(v: Json) {
    && v.JObject?
    && (exists i :: 0 <= i < |v.fields| && v.fields[i].key == "decision" && v.fields[i].value.JString?)
    && forall i :: 0 <= i < |v.fields| ==>
         v.fields[i].key in DecisionKeys
         && (v.fields[i].key == "date" ==> IsStringOrNull(v.fields[i].value))
  }

  ghost predicate SectionConforms(f: Field) {
    match f.key
    case "user_prefs" =>
      f.value.JNull? || (f.value.JObject? && forall i :: 0 <= i < |f.value.fields| ==> UserPrefsField(f.value.fields[i]))
    case "project_context" =>
      f.value.JNull? || (f.value.JObject? && forall i :: 0 <= i < |f.value.fields| ==> ProjectContextField(f.value.fields[i]))
    case "decisions" =>
      f.value.JNull? || (f.value.JArray? && forall k :: 0 <= k < |f.value.items| ==> DecisionConforms(f.value.items[k]))
    case "open_questions" => f.value.JNull? || IsStringArray(f.value)
    case "facts" => f.value.JNull? || IsStringArray(f.value)
    case _ => false
  }

  /** The memory schema: an object whose every key is one of the five
      sections and whose every section has its shape; no unknown key is
      accepted at any level. */
  ghost predicate Conforms(root: Json) {
    root.JObject? && forall i :: 0 <= i < |root.fields| ==> SectionConforms(root.fields[i])
  }

  lemma {:induction false} KeysWithinAll(fields: seq<Field>, allowed: set<string>)
    ensures KeysWithin(fields, allowed) <==> forall i :: 0 <= i < |fields| ==> fields[i].key in allowed
  {
    if |fields| > 0 {
      KeysWithinAll(fields[1..], allowed);
      assert forall i :: 1 <= i < |fields| ==> fields[i] == fields[1..][i - 1];
    }
  }

  lemma {:induction false} AllTextualAll(items: seq<Json>)
    ensures AllTextual(items) <==> forall k :: 0 <= k < |items| ==> items[k].JString?
  {
    if |items| > 0 {
      AllTextualAll(items[1..]);
      assert forall k :: 1 <= k < |items| ==> items[k] == items[1..][k - 1];
    }
  }

  lemma {:induction false} AllDecisionsAll(items: seq<Json>)
    ensures AllDecisions(items) <==> forall k :: 0 <= k < |items| ==> ValidateDecision(items[k])
  {
    if |items| > 0 {
      AllDecisionsAll(items[1..]);
      assert forall k :: 1 <= k < |items| ==> items[k] == items[1..][k - 1];
    }
  }

  /** With distinct keys, `get` finds the one binding of a present key. */
  lemma {:induction false} GetDistinct(fields: seq<Field>, i: nat)
    requires DistinctKeys(fields) && i < |fields|
    ensures Get(fields, fields[i].key) == Some(fields[i].value)
  {
    if i > 0 {
      assert fields[0].key != fields[i].key;
      assert DistinctKeys(fields[1..]) by {
        forall a, b | 0 <= a < b < |fields| - 1 ensures fields[1..][a].key != fields[1..][b].key {
          assert fields[1..][a] == fields[a + 1] && fields[1..][b] == fields[b + 1];
        }
      }
      GetDistinct(fields[1..], i - 1);
    }
  }

  lemma {:induction false} StringArrayAgrees(v: Json)
    ensures ValidateStringArray(Some(v)) <==> v.JNull? || IsStringArray(v)
    ensures ValidateOptionalStringArray(Some(v)) <==> v.JNull? || IsStringArray(v)
  {
    if v.JArray? { AllTextualAll(v.items); }
  }

  lemma {:induction false} UserPrefsAgrees(v: Json)
    requires WellFormed(v)
    ensures ValidateUserPrefs(Some(v)) <==>
      v.JNull? || (v.JObject? && forall i :: 0 <= i < |v.fields| ==> UserPrefsField(v.fields[i]))
  {
    if v.JObject? {
      var fields := v.fields;
      KeysWithinAll(fields, UserPrefKeys);
      if ValidateUserPrefs(Some(v)) {
        forall i | 0 <= i < |fields| ensures UserPrefsField(fields[i]) {
          GetDistinct(fields, i);
          StringArrayAgrees(fields[i].value);
        }
      }
      if forall i :: 0 <= i < |fields| ==> UserPrefsField(fields[i]) {
        forall key | key in UserPrefKeys && Get(fields, key).Some?
          ensures key == "other" ==> ValidateOptionalStringArray(Get(fields, key))
          ensures key != "other" ==> ValidateOptionalString(Get(fields, key))
        {
          var i :| 0 <= i < |fields| && fields[i] == Field(key, Get(fields, key).value);
          assert UserPrefsField(fields[i]);
          StringArrayAgrees(fields[i].value);
        }
      }
    }
  }

  lemma {:induction false} ProjectContextAgrees(v: Json)
    requires WellFormed(v)
    ensures ValidateProjectContext(Some(v)) <==>
      v.JNull? || (v.JObject? && forall i :: 0 <= i < |v.fields| ==> ProjectContextField(v.fields[i]))
  {
    if v.JObject? {
      var fields := v.fields;
      KeysWithinAll(fields, ProjectContextKeys);
      if ValidateProjectContext(Some(v)) {
        forall i | 0 <= i < |fields| ensures ProjectContextField(fields[i]) {
          GetDistinct(fields, i);
          StringArrayAgrees(fields[i].value);
        }
      }
      if forall i :: 0 <= i < |fields| ==> ProjectContextField(fields[i]) {
        forall key | key in ProjectContextKeys && Get(fields, key).Some?
          ensures key in {"stack", "notes"} ==> ValidateOptionalStringArray(Get(fields, key))
          ensures key in {"app_name", "current_goal"} ==> ValidateOptionalString(Get(fields, key))
        {
          var i :| 0 <= i < |fields| && fields[i] == Field(key, Get(fields, key).value);
          assert ProjectContextField(fields[i]);
          StringArrayAgrees(fields[i].value);
        }
      }
    }
  }

  lemma {:induction false} DecisionAgrees(v: Json)
    requires WellFormed(v)
    ensures ValidateDecision(v) <==> DecisionConforms(v)
  {
    if v.JObject? {
      KeysWithinAll(v.fields, DecisionKeys);
      forall i | 0 <= i < |v.fields| {
        GetDistinct(v.fields, i);
      }
    }
  }

  lemma {:induction false} DecisionsAgree(v: Json)
    requires WellFormed(v)
    ensures ValidateDecisions(Some(v)) <==>
      v.JNull? || (v.JArray? && forall k :: 0 <= k < |v.items| ==> DecisionConforms(v.items[k]))
  {
    if v.JArray? {
      AllDecisionsAll(v.items);
      forall k | 0 <= k < |v.items| {
        DecisionAgrees(v.items[k]);
      }
    }
  }

  /** A section passes the validator's check for its key exactly when it has
      the shape the schema gives that key. */
  lemma {:induction false} SectionAgrees(f: Field)
    requires WellFormed(f.value) && f.key in TopLevelKeys
    ensures f.key == "user_prefs" ==> (ValidateUserPrefs(Some(f.value)) <==> SectionConforms(f))
    ensures f.key == "project_context" ==> (ValidateProjectContext(Some(f.value)) <==> SectionConforms(f))
    ensures f.key == "decisions" ==> (ValidateDecisions(Some(f.value)) <==> SectionConforms(f))
    ensures f.key in {"open_questions", "facts"} ==> (ValidateStringArray(Some(f.value)) <==> SectionConforms(f))
  {
    UserPrefsAgrees(f.value);
    ProjectContextAgrees(f.value);
    DecisionsAgree(f.value);
    StringArrayAgrees(f.value);
  }

  /** The validator accepts a parsed tree exactly when the tree conforms to
      the schema. */
  lemma {:induction false} ValidateRootMeansConforms(root: Json)
    requires WellFormed(root)
    ensures ValidateRoot(root) <==> Conforms(root)
  {
    if root.JObject? {
      var fields := root.fields;
      KeysWithinAll(fields, TopLevelKeys);
      forall i | 0 <= i < |fields| && fields[i].key in TopLevelKeys
        ensures Get(fields, fields[i].key) == Some(fields[i].value)
        ensures fields[i].key == "user_prefs" ==> (ValidateUserPrefs(Some(fields[i].value)) <==> SectionConforms(fields[i]))
        ensures fields[i].key == "project_context" ==> (ValidateProjectContext(Some(fields[i].value)) <==> SectionConforms(fields[i]))
        ensures fields[i].key == "decisions" ==> (ValidateDecisions(Some(fields[i].value)) <==> SectionConforms(fields[i]))
        ensures fields[i].key in {"open_questions", "facts"} ==> (ValidateStringArray(Some(fields[i].value)) <==> SectionConforms(fields[i]))
      {
        GetDistinct(fields, i);
        SectionAgrees(fields[i]);
      }
    }
  }

  /** For a parser that only ever yields well-formed trees, `isValid` holds
      exactly for present, non-blank texts that parse to a conforming tree. */
  lemma {:induction false} IsValidMeansConforms(json: Option<string>, readTree: JsonReader)
    requires forall s :: readTree(s).Tree? ==> WellFormed(readTree(s).root)
    ensures IsValid(json, readTree) <==>
      (HasText(json) && readTree(json.value).Tree? && Conforms(readTree(json.value).root))
  {
    if HasText(json) && readTree(json.value).Tree? {
      ValidateRootMeansConforms(readTree(json.value).root);
    }
  }

  /** Three trees from the schema's description: the empty object, a decision
      with only its required field, and a decision with a stray key. */
  lemma {:induction false} SchemaExamples()
    ensures ValidateRoot(JObject([]))
    ensures ValidateRoot(JObject([Field("decisions", JArray([JObject([Field("decision", JString("x"))])]))]))
    ensures !ValidateRoot(JObject([Field("decisions", JArray([JObject([Field("foo", JString("x"))])]))]))
    ensures !ValidateRoot(JObject([Field("mood", JString("calm"))]))
  {
  }
}
