/**
 * The syntax validator (validation/validate-syntax.js): every YAML and JSON
 * file must parse, and files whose path names a Port entity kind get a few
 * structural checks.  Blueprint and integration checks run on YAML files,
 * action and scorecard checks on JSON files; each is switched on by a
 * substring of the path.  The checks are specified by pure functions
 * returning a `Report`; the class `SyntaxValidator` pushes the same findings
 * in place.
 */
module SyntaxRules {
  import opened Options
  import opened Strings
  import opened JsValues
  import opened Findings

  // Finding categories.
  const BlueprintValidation := "Blueprint Validation"
  const BlueprintWarning := "Blueprint Warning"
  const IntegrationValidation := "Integration Validation"
  const ActionValidation := "Action Validation"
  const ActionWarning := "Action Warning"
  const ScorecardValidation := "Scorecard Validation"
  const YamlIntegrationWarning := "YAML Integration Warning"
  const YamlSyntaxError := "YAML Syntax Error"
  const JsonSyntaxError := "JSON Syntax Error"

  // Messages and message fragments.
  const MissingRequiredPrefix := "Missing required fields: "
  const SchemaWithoutProperties := "Blueprint schema should have properties defined"
  const ResourcesNotArray := "Integration must have resources array"
  const ResourcePrefix := "Resource "
  const MissingKindSuffix := " missing required 'kind' field"
  const MissingEntitySuffix := " missing port.entity configuration"
  const SelfServiceWithoutInputs := "Self-service action should define userInputs"
  const RulePrefix := "Rule "
  const RuleIncompleteSuffix := " missing required fields (identifier, title, level)"
  const JqWarning := "Integration file contains JQ expressions that may not parse perfectly with YAML validator"

  // The required-field tables of the checks.
  const BlueprintRequired: seq<string> := ["identifier", "title", "schema"]
  const ActionRequired: seq<string> := ["identifier", "title", "trigger", "invocationMethod"]
  const ScorecardRequired: seq<string> := ["identifier", "title", "filter", "rules"]

  /** The error listing a document's missing required fields, if any. */
  function MissingError(path: string, category: string, data: Value, required: seq<string>): (fs: seq<Finding>)
    requires !data.Nullish()
    ensures |fs| <= 1
    ensures fs == [] <==> forall k | 0 <= k < |required| :: Truthy(Prop(data, required[k]))
    ensures fs != [] ==> fs[0] == Finding(path, category, MissingRequiredPrefix + Join(MissingFields(data, required), ", "))
  {
    var missing := MissingFields(data, required);
    MissingFieldsMeaning(data, required);
    if missing == [] then [] else [Finding(path, category, MissingRequiredPrefix + Join(missing, ", "))]
  }

  /** `validatePortBlueprint` */
  function PortBlueprintReport(path: string, data: Value): (r: Report)
    ensures !Contains(path, "blueprint") ==> r == NoFindings
    ensures Contains(path, "blueprint") && !data.Nullish() ==>
      && r.thrown.None?
      && r.errors == MissingError(path, BlueprintValidation, data, BlueprintRequired)
      && (r.warnings != [] <==> Truthy(Prop(data, "schema")) && !Truthy(Prop(Prop(data, "schema"), "properties")))
      && |r.warnings| <= 1
  {
    if !Contains(path, "blueprint") then NoFindings
    else if data.Nullish() then Throw(ReadError(data, "identifier"))
    else
      var schema := Prop(data, "schema");
      Report(
        MissingError(path, BlueprintValidation, data, BlueprintRequired),
        if Truthy(schema) && !Truthy(Prop(schema, "properties")) then [Finding(path, BlueprintWarning, SchemaWithoutProperties)] else [],
        None)
  }

  /** One resource of an integration: `kind` and `port.entity` are checked separately. */
  function ResourceReport(path: string, index: nat, resource: Value): Report {
    if resource.Nullish() then Throw(ReadError(resource, "kind"))
    else
      var port := Prop(resource, "port");
      Errors(
        (if Truthy(Prop(resource, "kind")) then []
         else [Finding(path, IntegrationValidation, ResourcePrefix + NatToString(index) + MissingKindSuffix)])
        + (if Truthy(port) && Truthy(Prop(port, "entity")) then []
           else [Finding(path, IntegrationValidation, ResourcePrefix + NatToString(index) + MissingEntitySuffix)]))
  }

  function ResourceCheck(path: string): (nat, Value) -> Report {
    (i: nat, resource: Value) => ResourceReport(path, i, resource)
  }

  /** `validatePortIntegration` */
  function PortIntegrationReport(path: string, data: Value): (r: Report)
    ensures !Contains(path, "integration") ==> r == NoFindings
    ensures Contains(path, "integration") && !data.Nullish() && !(Truthy(Prop(data, "resources")) && Prop(data, "resources").Arr?) ==>
      r == Errors([Finding(path, IntegrationValidation, ResourcesNotArray)])
  {
    if !Contains(path, "integration") then NoFindings
    else if data.Nullish() then Throw(ReadError(data, "resources"))
    else
      var resources := Prop(data, "resources");
      if !Truthy(resources) || !resources.Arr? then Errors([Finding(path, IntegrationValidation, ResourcesNotArray)])
      else ForEach(resources.items, ResourceCheck(path))
  }

  /** `validatePortAction` */
  function PortActionReport(path: string, data: Value): (r: Report)
    ensures !Contains(path, "action") ==> r == NoFindings
    ensures Contains(path, "action") && !data.Nullish() ==>
      && r.thrown.None?
      && r.errors == MissingError(path, ActionValidation, data, ActionRequired)
      && |r.warnings| <= 1
      && (r.warnings != [] <==>
            Truthy(Prop(data, "trigger")) && Prop(Prop(data, "trigger"), "type") == Str("self-service")
            && !Truthy(Prop(Prop(data, "trigger"), "userInputs")))
  {
    if !Contains(path, "action") then NoFindings
    else if data.Nullish() then Throw(ReadError(data, "identifier"))
    else
      var trigger := Prop(data, "trigger");
      Report(
        MissingError(path, ActionValidation, data, ActionRequired),
        if Truthy(trigger) && Prop(trigger, "type") == Str("self-service") && !Truthy(Prop(trigger, "userInputs"))
        then [Finding(path, ActionWarning, SelfServiceWithoutInputs)]
        else [],
        None)
  }

  /** A rule lacks one of the three fields every scorecard rule needs. */
  predicate Incomplete(rule: Value)
    requires !rule.Nullish()
  {
    !Truthy(Prop(rule, "identifier")) || !Truthy(Prop(rule, "title")) || !Truthy(Prop(rule, "level"))
  }

  /** One rule of a scorecard: a single error however many of its fields are missing. */
  function RuleReport(path: string, index: nat, rule: Value): Report {
    if rule.Nullish() then Throw(ReadError(rule, "identifier"))
    else if Incomplete(rule) then Errors([Finding(path, ScorecardValidation, RulePrefix + NatToString(index) + RuleIncompleteSuffix)])
    else NoFindings
  }

  function RuleCheck(path: string): (nat, Value) -> Report {
    (i: nat, rule: Value) => RuleReport(path, i, rule)
  }

  /** The rule loop of `validatePortScorecard`, when `rules` is a truthy array. */
  function RulesReport(path: string, data: Value): Report
    requires !data.Nullish()
  {
    var rules := Prop(data, "rules");
    if Truthy(rules) && rules.Arr? then ForEach(rules.items, RuleCheck(path)) else NoFindings
  }

  /** `validatePortScorecard` */
  function PortScorecardReport(path: string, data: Value): (r: Report)
    ensures !Contains(path, "scorecard") ==> r == NoFindings
  {
    if !Contains(path, "scorecard") then NoFindings
    else if data.Nullish() then Throw(ReadError(data, "identifier"))
    else Then(Errors(MissingError(path, ScorecardValidation, data, ScorecardRequired)), RulesReport(path, data))
  }

  /**
   * The catch block of `validateYamlFile`: a missed-comma failure on an
   * integration path becomes a warning and the file still counts; any other
   * failure becomes an error carrying the one-based line of the parser's
   * mark, when there is one.
   */
  function YamlCatch(path: string, message: string, mark: Option<nat>): (f: FileResult)
    ensures f.validated <==> IsJqDowngrade(path, message)
    ensures f.validated ==> f.errors == [] && f.warnings == [Finding(path, YamlIntegrationWarning, JqWarning)]
    ensures !f.validated ==>
      f.warnings == [] && f.errors == [LineFinding(path, YamlSyntaxError, message, if mark.Some? then Some(mark.value + 1) else None)]
  {
    if IsJqDowngrade(path, message)
    then FileResult([], [Finding(path, YamlIntegrationWarning, JqWarning)], true)
    else FileResult([LineFinding(path, YamlSyntaxError, message, if mark.Some? then Some(mark.value + 1) else None)], [], false)
  }

  /** The YAML-specific checks run on a parsed document. */
  function YamlChecks(path: string, data: Value): Report {
    Then(PortBlueprintReport(path, data), PortIntegrationReport(path, data))
  }

  /** The JSON-specific checks run on a parsed document. */
  function JsonChecks(path: string, data: Value): Report {
    Then(PortActionReport(path, data), PortScorecardReport(path, data))
  }

  /** The findings of the checks, followed by those of the catch block if a check threw. */
  function AfterChecks(r: Report, handler: string -> FileResult): FileResult {
    match r.thrown
    case None => FileResult(r.errors, r.warnings, true)
    case Some(message) =>
      var c := handler(message);
      FileResult(r.errors + c.errors, r.warnings + c.warnings, c.validated)
  }

  /** `validateYamlFile`, with the file read and the YAML loader given as outcomes. */
  function YamlSyntaxFile(path: string, read: ReadOutcome, load: (string, Schema) -> ParseOutcome): FileResult {
    match read
    case ReadFailed(message) => YamlCatch(path, message, None)
    case Read(content) =>
      match LoadYaml(path, content, load).0
      case ParseFailed(message, mark) => YamlCatch(path, message, mark)
      case Parsed(data) => AfterChecks(YamlChecks(path, data), (message: string) => YamlCatch(path, message, None))
  }

  /** The catch block of `validateJsonFile`: every failure is one error. */
  function JsonCatch(path: string, message: string): FileResult {
    FileResult([Finding(path, JsonSyntaxError, message)], [], false)
  }

  /** `validateJsonFile`, with the file read and `JSON.parse` given as outcomes. */
  function JsonSyntaxFile(path: string, read: ReadOutcome, parseJson: string -> ParseOutcome): FileResult {
    match read
    case ReadFailed(message) => JsonCatch(path, message)
    case Read(content) =>
      match parseJson(content)
      case ParseFailed(message, _) => JsonCatch(path, message)
      case Parsed(data) => AfterChecks(JsonChecks(path, data), (message: string) => JsonCatch(path, message))
  }

  /** `validateYamlFile` as the step of the run over the YAML files. */
  function YamlSyntaxFileStep(load: (string, Schema) -> ParseOutcome): (string, ReadOutcome) -> FileResult {
    (path, read) => YamlSyntaxFile(path, read, load)
  }

  /** `validateJsonFile` as the step of the run over the JSON files. */
  function JsonSyntaxFileStep(parseJson: string -> ParseOutcome): (string, ReadOutcome) -> FileResult {
    (path, read) => JsonSyntaxFile(path, read, parseJson)
  }

  /**
   * The whole run: every YAML file, then every JSON file, each file's
   * findings in order.  It records no error exactly when no file does, and
   * each file counts at most once.
   */
  function SyntaxRun(yamlFiles: seq<(string, ReadOutcome)>, jsonFiles: seq<(string, ReadOutcome)>,
                     load: (string, Schema) -> ParseOutcome, parseJson: string -> ParseOutcome): (t: RunTotal)
    ensures t.validated <= |yamlFiles| + |jsonFiles|
    ensures t.errors == [] <==>
      && (forall k | 0 <= k < |yamlFiles| :: YamlSyntaxFile(yamlFiles[k].0, yamlFiles[k].1, load).errors == [])
      && (forall k | 0 <= k < |jsonFiles| :: JsonSyntaxFile(jsonFiles[k].0, jsonFiles[k].1, parseJson).errors == [])
  {
    var yaml := RunFiles(yamlFiles, YamlSyntaxFileStep(load));
    var json := RunFiles(jsonFiles, JsonSyntaxFileStep(parseJson));
    RunFilesClean(yamlFiles, YamlSyntaxFileStep(load));
    RunFilesClean(jsonFiles, JsonSyntaxFileStep(parseJson));
    RunTotal(yaml.errors + json.errors, yaml.warnings + json.warnings, yaml.validated + json.validated)
  }

  // ---------------------------------------------------------------------
  // Properties.
  // ---------------------------------------------------------------------

  /** One resource: a `kind` error and a `port.entity` error, independently; both may fire. */
  lemma ResourceFindings(path: string, index: nat, resource: Value)
    requires !resource.Nullish()
    ensures var r := ResourceReport(path, index, resource);
      var port := Prop(resource, "port");
      && r.thrown.None? && r.warnings == [] && AllOf(r.errors, IntegrationValidation)
      && |r.errors| == (if Truthy(Prop(resource, "kind")) then 0 else 1) + (if Truthy(port) && Truthy(Prop(port, "entity")) then 0 else 1)
  {
  }

  /** How many of the rules are incomplete. */
  function IncompleteCount(rules: seq<Value>): (n: nat)
    requires forall k | 0 <= k < |rules| :: !rules[k].Nullish()
    ensures n <= |rules|
  {
    if rules == [] then 0
    else IncompleteCount(rules[..|rules| - 1]) + (if Incomplete(rules[|rules| - 1]) then 1 else 0)
  }

  /**
   * The rule loop over defined rules pushes exactly one error per
   * incomplete rule, not one per missing field, and never throws.
   */
  lemma {:induction false} RuleLoopCounts(path: string, rules: seq<Value>)
    requires forall k | 0 <= k < |rules| :: !rules[k].Nullish()
    ensures var r := ForEach(rules, RuleCheck(path));
      && r.thrown.None? && r.warnings == []
      && |r.errors| == IncompleteCount(rules) && AllOf(r.errors, ScorecardValidation)
    decreases |rules|
  {
    if rules != [] {
      RuleLoopCounts(path, rules[..|rules| - 1]);
    }
  }

  /**
   * The scorecard check on a defined document whose rules are all defined:
   * at most one required-field error, then one error per incomplete rule
   * when `rules` is a truthy array; no warning.
   */
  lemma ScorecardFindings(path: string, data: Value)
    requires Contains(path, "scorecard") && !data.Nullish()
    requires Prop(data, "rules").Arr? ==> forall k | 0 <= k < |Prop(data, "rules").items| :: !Prop(data, "rules").items[k].Nullish()
    ensures var r := PortScorecardReport(path, data);
      var rules := Prop(data, "rules");
      && r.thrown.None? && r.warnings == [] && AllOf(r.errors, ScorecardValidation)
      && |r.errors| == |MissingError(path, ScorecardValidation, data, ScorecardRequired)|
                       + (if rules.Arr? then IncompleteCount(rules.items) else 0)
  {
    var rules := Prop(data, "rules");
    if rules.Arr? {
      RuleLoopCounts(path, rules.items);
      if !Truthy(rules) {
        assert false;
      }
    }
  }

  /**
   * A YAML file that fails to parse: it counts as validated exactly when
   * the failure is an integration-path missed comma, which becomes one
   * warning; any other failure is one error with the line after the mark.
   * On an integration path the JSON schema was tried only after the CORE
   * schema failed.
   */
  lemma YamlParseFailure(path: string, content: string, load: (string, Schema) -> ParseOutcome)
    requires LoadYaml(path, content, load).0.ParseFailed?
    ensures var failure := LoadYaml(path, content, load).0;
      var f := YamlSyntaxFile(path, Read(content), load);
      && (f.validated <==> IsJqDowngrade(path, failure.message))
      && (!f.validated ==>
            f.errors == [LineFinding(path, YamlSyntaxError, failure.message,
                                     if failure.mark.Some? then Some(failure.mark.value + 1) else None)])
      && (Contains(path, "integration") ==> load(content, CoreSchema).ParseFailed?)
  {
  }

  /**
   * A YAML file whose checks complete counts as validated, with exactly the
   * checks' findings; a check that throws is caught like a parse failure
   * without a mark, after the findings pushed before it.
   */
  lemma YamlChecksOutcome(path: string, content: string, load: (string, Schema) -> ParseOutcome)
    requires LoadYaml(path, content, load).0.Parsed?
    ensures var r := YamlChecks(path, LoadYaml(path, content, load).0.value);
      var f := YamlSyntaxFile(path, Read(content), load);
      && (r.thrown.None? ==> f == FileResult(r.errors, r.warnings, true))
      && (r.thrown.Some? ==>
            && (f.validated <==> IsJqDowngrade(path, r.thrown.value))
            && (!f.validated ==> f.errors == r.errors + [LineFinding(path, YamlSyntaxError, r.thrown.value, None)]))
  {
  }

  /**
   * A JSON file counts as validated exactly when it parses and its checks
   * complete; otherwise its last error is the one JSON Syntax Error of the
   * catch block, and a file that cannot be read or parsed gets nothing else.
   */
  lemma JsonOutcome(path: string, read: ReadOutcome, parseJson: string -> ParseOutcome)
    ensures var f := JsonSyntaxFile(path, read, parseJson);
      f.validated <==>
        read.Read? && parseJson(read.content).Parsed? && JsonChecks(path, parseJson(read.content).value).thrown.None?
    ensures var f := JsonSyntaxFile(path, read, parseJson);
      !f.validated ==> |f.errors| >= 1 && f.errors[|f.errors| - 1].category == JsonSyntaxError
    ensures read.ReadFailed? ==>
      JsonSyntaxFile(path, read, parseJson) == FileResult([Finding(path, JsonSyntaxError, read.message)], [], false)
    ensures read.Read? && parseJson(read.content).ParseFailed? ==>
      JsonSyntaxFile(path, read, parseJson) == FileResult([Finding(path, JsonSyntaxError, parseJson(read.content).message)], [], false)
  {
    match read {
      case ReadFailed(_) =>
      case Read(content) =>
        match parseJson(content) {
          case ParseFailed(_, _) =>
          case Parsed(data) =>
            var r := JsonChecks(path, data);
            if r.thrown.Some? {
              var c := JsonCatch(path, r.thrown.value);
              assert JsonSyntaxFile(path, read, parseJson) == FileResult(r.errors + c.errors, r.warnings + c.warnings, false);
            }
        }
    }
  }

  // ---------------------------------------------------------------------
  // The validator object.
  // ---------------------------------------------------------------------

  class SyntaxValidator {
    var errors: seq<Finding>
    var warnings: seq<Finding>
    var validatedFiles: nat

    constructor ()
      ensures errors == [] && warnings == [] && validatedFiles == 0
    {
      errors := [];
      warnings := [];
      validatedFiles := 0;
    }

    /** `required.filter(field => !data[field])`, pushed as one error when non-empty. */
    method PushMissing(path: string, category: string, data: Value, required: seq<string>)
      requires !data.Nullish()
      modifies this
      ensures errors == old(errors) + MissingError(path, category, data, required)
      ensures warnings == old(warnings) && validatedFiles == old(validatedFiles)
    {
      var missing := MissingFields(data, required);
      if |missing| > 0 {
        errors := errors + [Finding(path, category, MissingRequiredPrefix + Join(missing, ", "))];
      }
    }

    /** `validatePortBlueprint` */
    method ValidatePortBlueprint(path: string, data: Value) returns (thrown: Option<string>)
      modifies this
      ensures errors == old(errors) + PortBlueprintReport(path, data).errors
      ensures warnings == old(warnings) + PortBlueprintReport(path, data).warnings
      ensures thrown == PortBlueprintReport(path, data).thrown
      ensures validatedFiles == old(validatedFiles)
    {
      if !Contains(path, "blueprint") {
        return None;
      }
      if data.Nullish() {
        return Some(ReadError(data, "identifier"));
      }
      thrown := None;
      PushMissing(path, BlueprintValidation, data, BlueprintRequired);
      var schema := Prop(data, "schema");
      if Truthy(schema) && !Truthy(Prop(schema, "properties")) {
        warnings := warnings + [Finding(path, BlueprintWarning, SchemaWithoutProperties)];
      }
    }

    /** One iteration of the resource loop of `validatePortIntegration`. */
    method CheckResource(path: string, index: nat, resource: Value)
      requires !resource.Nullish()
      modifies this
      ensures errors == old(errors) + ResourceReport(path, index, resource).errors
      ensures warnings == old(warnings)
      ensures validatedFiles == old(validatedFiles)
    {
      var missingKind := [Finding(path, IntegrationValidation, ResourcePrefix + NatToString(index) + MissingKindSuffix)];
      var missingEntity := [Finding(path, IntegrationValidation, ResourcePrefix + NatToString(index) + MissingEntitySuffix)];
      if !Truthy(Prop(resource, "kind")) {
        errors := errors + missingKind;
      }
      var port := Prop(resource, "port");
      if !Truthy(port) || !Truthy(Prop(port, "entity")) {
        ConcatAssoc(old(errors), missingKind, missingEntity);
        errors := errors + missingEntity;
      }
    }

    /** `validatePortIntegration` */
    method ValidatePortIntegration(path: string, data: Value) returns (thrown: Option<string>)
      modifies this
      ensures errors == old(errors) + PortIntegrationReport(path, data).errors
      ensures warnings == old(warnings) + PortIntegrationReport(path, data).warnings
      ensures thrown == PortIntegrationReport(path, data).thrown
      ensures validatedFiles == old(validatedFiles)
    {
      if !Contains(path, "integration") {
        return None;
      }
      if data.Nullish() {
        return Some(ReadError(data, "resources"));
      }
      thrown := None;
      var resources := Prop(data, "resources");
      if !Truthy(resources) || !resources.Arr? {
        errors := errors + [Finding(path, IntegrationValidation, ResourcesNotArray)];
        return;
      }
      var items := resources.items;
      ghost var done := NoFindings;
      var i := 0;
      while i < |items|
        invariant 0 <= i <= |items|
        invariant done == ForEach(items[..i], ResourceCheck(path)) && done.thrown == None
        invariant errors == old(errors) + done.errors
        invariant warnings == old(warnings) + done.warnings
        invariant validatedFiles == old(validatedFiles)
      {
        var resource := items[i];
        ForEachExtend(items, ResourceCheck(path), i);
        ghost var step := ResourceReport(path, i, resource);
        if resource.Nullish() {
          assert step == Throw(ReadError(resource, "kind"));
          ForEachThrowsAt(items, ResourceCheck(path), i, ReadError(resource, "kind"));
          return Some(ReadError(resource, "kind"));
        }
        CheckResource(path, i, resource);
        ConcatAssoc(old(errors), done.errors, step.errors);
        done := Then(done, step);
        i := i + 1;
      }
      ForEachWhole(items, ResourceCheck(path));
    }

    /** `validatePortAction` */
    method ValidatePortAction(path: string, data: Value) returns (thrown: Option<string>)
      modifies this
      ensures errors == old(errors) + PortActionReport(path, data).errors
      ensures warnings == old(warnings) + PortActionReport(path, data).warnings
      ensures thrown == PortActionReport(path, data).thrown
      ensures validatedFiles == old(validatedFiles)
    {
      if !Contains(path, "action") {
        return None;
      }
      if data.Nullish() {
        return Some(ReadError(data, "identifier"));
      }
      thrown := None;
      PushMissing(path, ActionValidation, data, ActionRequired);
      var trigger := Prop(data, "trigger");
      if Truthy(trigger) && Prop(trigger, "type") == Str("self-service") && !Truthy(Prop(trigger, "userInputs")) {
        warnings := warnings + [Finding(path, ActionWarning, SelfServiceWithoutInputs)];
      }
    }

    /** The rule loop of `validatePortScorecard`. */
    method CheckRules(path: string, data: Value) returns (thrown: Option<string>)
      requires !data.Nullish()
      modifies this
      ensures errors == old(errors) + RulesReport(path, data).errors
      ensures warnings == old(warnings) + RulesReport(path, data).warnings
      ensures thrown == RulesReport(path, data).thrown
      ensures validatedFiles == old(validatedFiles)
    {
      thrown := None;
      var rules := Prop(data, "rules");
      if Truthy(rules) && rules.Arr? {
        var items := rules.items;
        ghost var done := NoFindings;
        var i := 0;
        while i < |items|
          invariant 0 <= i <= |items|
          invariant done == ForEach(items[..i], RuleCheck(path)) && done.thrown == None
          invariant errors == old(errors) + done.errors
          invariant warnings == old(warnings) + done.warnings
          invariant validatedFiles == old(validatedFiles)
        {
          var rule := items[i];
          ForEachExtend(items, RuleCheck(path), i);
          ghost var step := RuleReport(path, i, rule);
          if rule.Nullish() {
            assert step == Throw(ReadError(rule, "identifier"));
            ForEachThrowsAt(items, RuleCheck(path), i, ReadError(rule, "identifier"));
            return Some(ReadError(rule, "identifier"));
          }
          if !Truthy(Prop(rule, "identifier")) || !Truthy(Prop(rule, "title")) || !Truthy(Prop(rule, "level")) {
            errors := errors + [Finding(path, ScorecardValidation, RulePrefix + NatToString(i) + RuleIncompleteSuffix)];
          }
          ConcatAssoc(old(errors), done.errors, step.errors);
          done := Then(done, step);
          i := i + 1;
        }
        ForEachWhole(items, RuleCheck(path));
      }
    }

    /** `validatePortScorecard` */
    method ValidatePortScorecard(path: string, data: Value) returns (thrown: Option<string>)
      modifies this
      ensures errors == old(errors) + PortScorecardReport(path, data).errors
      ensures warnings == old(warnings) + PortScorecardReport(path, data).warnings
      ensures thrown == PortScorecardReport(path, data).thrown
      ensures validatedFiles == old(validatedFiles)
    {
      if !Contains(path, "scorecard") {
        return None;
      }
      if data.Nullish() {
        return Some(ReadError(data, "identifier"));
      }
      ghost var head := MissingError(path, ScorecardValidation, data, ScorecardRequired);
      ghost var rules := RulesReport(path, data);
      assert PortScorecardReport(path, data) == Report(head + rules.errors, rules.warnings, rules.thrown);
      PushMissing(path, ScorecardValidation, data, ScorecardRequired);
      thrown := CheckRules(path, data);
      ConcatAssoc(old(errors), head, rules.errors);
    }

    /** The checks of one kind of file, run one after the other as in the try block. */
    method RunChecks(path: string, data: Value, yaml: bool) returns (thrown: Option<string>)
      modifies this
      ensures var r := if yaml then YamlChecks(path, data) else JsonChecks(path, data);
        && errors == old(errors) + r.errors && warnings == old(warnings) + r.warnings
        && thrown == r.thrown && validatedFiles == old(validatedFiles)
    {
      ghost var first := if yaml then PortBlueprintReport(path, data) else PortActionReport(path, data);
      ghost var second := if yaml then PortIntegrationReport(path, data) else PortScorecardReport(path, data);
      if yaml {
        thrown := ValidatePortBlueprint(path, data);
      } else {
        thrown := ValidatePortAction(path, data);
      }
      if thrown.Some? {
        return;
      }
      if yaml {
        thrown := ValidatePortIntegration(path, data);
      } else {
        thrown := ValidatePortScorecard(path, data);
      }
      ConcatAssoc(old(errors), first.errors, second.errors);
      ConcatAssoc(old(warnings), first.warnings, second.warnings);
    }

    /** Push a catch block's findings and count the file if it says so. */
    method Record(f: FileResult)
      modifies this
      ensures errors == old(errors) + f.errors && warnings == old(warnings) + f.warnings
      ensures validatedFiles == old(validatedFiles) + (if f.validated then 1 else 0)
    {
      errors := errors + f.errors;
      warnings := warnings + f.warnings;
      if f.validated {
        validatedFiles := validatedFiles + 1;
      }
    }

    /** `validateYamlFile`, with the file read and the YAML loader given as outcomes. */
    method ValidateYamlFile(path: string, read: ReadOutcome, load: (string, Schema) -> ParseOutcome)
      modifies this
      ensures errors == old(errors) + YamlSyntaxFile(path, read, load).errors
      ensures warnings == old(warnings) + YamlSyntaxFile(path, read, load).warnings
      ensures validatedFiles == old(validatedFiles) + (if YamlSyntaxFile(path, read, load).validated then 1 else 0)
    {
      match read {
        case ReadFailed(message) => Record(YamlCatch(path, message, None));
        case Read(content) =>
          var parsed := LoadYaml(path, content, load).0;
          match parsed {
            case ParseFailed(message, mark) => Record(YamlCatch(path, message, mark));
            case Parsed(data) =>
              ghost var r := YamlChecks(path, data);
              var thrown := RunChecks(path, data, true);
              match thrown {
                case None => validatedFiles := validatedFiles + 1;
                case Some(message) =>
                  var c := YamlCatch(path, message, None);
                  Record(c);
                  ConcatAssoc(old(errors), r.errors, c.errors);
                  ConcatAssoc(old(warnings), r.warnings, c.warnings);
              }
          }
      }
    }

    /** `validateJsonFile`, with the file read and `JSON.parse` given as outcomes. */
    method ValidateJsonFile(path: string, read: ReadOutcome, parseJson: string -> ParseOutcome)
      modifies this
      ensures errors == old(errors) + JsonSyntaxFile(path, read, parseJson).errors
      ensures warnings == old(warnings) + JsonSyntaxFile(path, read, parseJson).warnings
      ensures validatedFiles == old(validatedFiles) + (if JsonSyntaxFile(path, read, parseJson).validated then 1 else 0)
    {
      match read {
        case ReadFailed(message) => Record(JsonCatch(path, message));
        case Read(content) =>
          match parseJson(content) {
            case ParseFailed(message, _) => Record(JsonCatch(path, message));
            case Parsed(data) =>
              ghost var r := JsonChecks(path, data);
              var thrown := RunChecks(path, data, false);
              match thrown {
                case None => validatedFiles := validatedFiles + 1;
                case Some(message) =>
                  var c := JsonCatch(path, message);
                  Record(c);
                  ConcatAssoc(old(errors), r.errors, c.errors);
                  ConcatAssoc(old(warnings), r.warnings, c.warnings);
              }
          }
      }
    }

    /**
     * `validateAllFiles`, over the discovered YAML and JSON files: the
     * findings and the count of `SyntaxRun`, and the run passes exactly when
     * no error was recorded.
     */
    method ValidateAllFiles(yamlFiles: seq<(string, ReadOutcome)>, jsonFiles: seq<(string, ReadOutcome)>,
                            load: (string, Schema) -> ParseOutcome, parseJson: string -> ParseOutcome)
      returns (success: bool)
      modifies this
      ensures errors == old(errors) + SyntaxRun(yamlFiles, jsonFiles, load, parseJson).errors
      ensures warnings == old(warnings) + SyntaxRun(yamlFiles, jsonFiles, load, parseJson).warnings
      ensures validatedFiles == old(validatedFiles) + SyntaxRun(yamlFiles, jsonFiles, load, parseJson).validated
      ensures success <==> errors == []
    {
      var i := 0;
      while i < |yamlFiles|
        invariant 0 <= i <= |yamlFiles|
        invariant errors == old(errors) + RunFiles(yamlFiles[..i], YamlSyntaxFileStep(load)).errors
        invariant warnings == old(warnings) + RunFiles(yamlFiles[..i], YamlSyntaxFileStep(load)).warnings
        invariant validatedFiles == old(validatedFiles) + RunFiles(yamlFiles[..i], YamlSyntaxFileStep(load)).validated
      {
        ghost var before := RunFiles(yamlFiles[..i], YamlSyntaxFileStep(load));
        ValidateYamlFile(yamlFiles[i].0, yamlFiles[i].1, load);
        RunFilesExtend(yamlFiles, YamlSyntaxFileStep(load), i);
        ConcatAssoc(old(errors), before.errors, YamlSyntaxFile(yamlFiles[i].0, yamlFiles[i].1, load).errors);
        ConcatAssoc(old(warnings), before.warnings, YamlSyntaxFile(yamlFiles[i].0, yamlFiles[i].1, load).warnings);
        i := i + 1;
      }
      assert yamlFiles[..i] == yamlFiles;
      ghost var yaml := RunFiles(yamlFiles, YamlSyntaxFileStep(load));
      ghost var mid, midWarnings, midCount := errors, warnings, validatedFiles;
      var j := 0;
      while j < |jsonFiles|
        invariant 0 <= j <= |jsonFiles|
        invariant errors == mid + RunFiles(jsonFiles[..j], JsonSyntaxFileStep(parseJson)).errors
        invariant warnings == midWarnings + RunFiles(jsonFiles[..j], JsonSyntaxFileStep(parseJson)).warnings
        invariant validatedFiles == midCount + RunFiles(jsonFiles[..j], JsonSyntaxFileStep(parseJson)).validated
      {
        ghost var before := RunFiles(jsonFiles[..j], JsonSyntaxFileStep(parseJson));
        ValidateJsonFile(jsonFiles[j].0, jsonFiles[j].1, parseJson);
        RunFilesExtend(jsonFiles, JsonSyntaxFileStep(parseJson), j);
        ConcatAssoc(mid, before.errors, JsonSyntaxFile(jsonFiles[j].0, jsonFiles[j].1, parseJson).errors);
        ConcatAssoc(midWarnings, before.warnings, JsonSyntaxFile(jsonFiles[j].0, jsonFiles[j].1, parseJson).warnings);
        j := j + 1;
      }
      assert jsonFiles[..j] == jsonFiles;
      ghost var json := RunFiles(jsonFiles, JsonSyntaxFileStep(parseJson));
      ConcatAssoc(old(errors), yaml.errors, json.errors);
      ConcatAssoc(old(warnings), yaml.warnings, json.warnings);
      success := |errors| == 0;
    }
  }
}
