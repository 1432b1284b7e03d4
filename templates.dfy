/**
 * The template completeness validator (validation/validate-templates.js):
 * classifies each parsed YAML/JSON document as a blueprint, action,
 * integration or scorecard template, checks the kind's required and
 * recommended fields, then runs the kind's nested checks.  The rule passes
 * are specified by pure functions returning a `Report`; the class
 * `TemplateValidator` pushes the same findings in place, as the source does.
 */
module TemplateRules {
  import opened Options
  import opened Strings
  import opened JsValues
  import opened Findings

  datatype TemplateKind = Blueprint | Action | Integration | Scorecard

  /** The kind's name: what the validator prints, and the path substring that selects it. */
  function KindName(k: TemplateKind): string {
    match k
    case Blueprint => "blueprint"
    case Action => "action"
    case Integration => "integration"
    case Scorecard => "scorecard"
  }

  /** Detection priority, by path and by shape alike: blueprint first. */
  function Rank(k: TemplateKind): nat {
    match k
    case Blueprint => 0
    case Action => 1
    case Integration => 2
    case Scorecard => 3
  }

  /**
   * One kind's rule table.  The nested lists are the schema, trigger,
   * resource and rule tables of the four kinds.
   */
  datatype Requirements = Requirements(
    required: seq<string>,
    recommended: seq<string>,
    nestedRequired: seq<string>,
    nestedRecommended: seq<string>)

  /** `getTemplateRequirements()`, indexed by kind. */
  function TemplateRequirements(k: TemplateKind): (r: Requirements)
    ensures r.required != []
  {
    match k
    case Blueprint => Requirements(["identifier", "title", "schema"], ["icon", "description"], ["properties"], ["required"])
    case Action => Requirements(["identifier", "title", "trigger", "invocationMethod"], ["description", "icon", "permissions"], ["type"], ["userInputs"])
    case Integration => Requirements(["resources"], [], ["kind", "port"], ["selector"])
    case Scorecard => Requirements(["identifier", "title", "filter", "rules"], ["description"], ["identifier", "title", "level"], ["description"])
  }

  // Finding categories.
  const BlueprintSchemaError := "Blueprint Schema Error"
  const BlueprintSchemaWarning := "Blueprint Schema Warning"
  const BlueprintPropertyError := "Blueprint Property Error"
  const BlueprintPropertyWarning := "Blueprint Property Warning"
  const ActionTriggerError := "Action Trigger Error"
  const ActionTriggerWarning := "Action Trigger Warning"
  const ActionInputError := "Action Input Error"
  const ActionInputWarning := "Action Input Warning"
  const ActionInvocationError := "Action Invocation Error"
  const IntegrationResourceError := "Integration Resource Error"
  const IntegrationMappingError := "Integration Mapping Error"
  const ScorecardRuleError := "Scorecard Rule Error"
  const ScorecardRuleWarning := "Scorecard Rule Warning"
  const UnknownTemplateType := "Unknown Template Type"
  const IntegrationTemplateWarning := "Integration Template Warning"
  const TemplateParseError := "Template Parse Error"
  const TemplateErrorSuffix := " Template Error"
  const TemplateWarningSuffix := " Template Warning"

  // Messages and message fragments.
  const MissingRequiredPrefix := "Missing required fields: "
  const MissingRecommendedPrefix := "Missing recommended fields: "
  const SchemaMissingRequiredPrefix := "Schema missing required fields: "
  const SchemaMissingRecommendedPrefix := "Schema missing recommended fields: "
  const TriggerMissingRequiredPrefix := "Trigger missing required fields: "
  const SelfServiceWithoutInputs := "Self-service action should define userInputs"
  const InvocationWithoutType := "Invocation method missing type"
  const UnknownTemplateMessage := "Could not determine template type for validation"
  const PropertyPrefix := "Property '"
  const InputPrefix := "Input '"
  const MissingTypeSuffix := "' missing type definition"
  const MissingTitleSuffix := "' missing title"
  const ResourcePrefix := "Resource "
  const RulePrefix := "Rule "
  const MissingRequiredInfix := " missing required fields: "
  const MissingIdentifierMapping := " missing identifier mapping"
  const MissingBlueprintMapping := " missing blueprint mapping"
  const NonStandardLevelInfix := " has non-standard level: "

  /** The path names the kind (a case-sensitive substring test). */
  predicate PathNames(path: string, k: TemplateKind) {
    Contains(path, KindName(k))
  }

  /** The document has the structural shape that identifies the kind. */
  predicate HasShape(data: Value, k: TemplateKind)
    requires !data.Nullish()
  {
    match k
    case Blueprint => Truthy(Prop(data, "identifier")) && Truthy(Prop(data, "schema"))
    case Action =>
      Truthy(Prop(data, "identifier")) && Truthy(Prop(data, "trigger")) && Truthy(Prop(data, "invocationMethod"))
    case Integration => Truthy(Prop(data, "resources")) && Prop(data, "resources").Arr?
    case Scorecard =>
      Truthy(Prop(data, "identifier")) && Truthy(Prop(data, "rules")) && Prop(data, "rules").Arr?
  }

  /**
   * `detectTemplateType`: the highest-priority kind the path names; failing
   * that, the highest-priority kind whose shape the document has; failing
   * that, none.  Reading a shape property of a null or undefined document
   * throws.
   */
  function DetectTemplateType(path: string, data: Value): Completion<Option<TemplateKind>> {
    if PathNames(path, Blueprint) then Normal(Some(Blueprint))
    else if PathNames(path, Action) then Normal(Some(Action))
    else if PathNames(path, Integration) then Normal(Some(Integration))
    else if PathNames(path, Scorecard) then Normal(Some(Scorecard))
    else if data.Nullish() then Abrupt(ReadError(data, "identifier"))
    else Normal(ShapeKind(data))
  }

  /** The structural half of `detectTemplateType`, in priority order. */
  function ShapeKind(data: Value): Option<TemplateKind>
    requires !data.Nullish()
  {
    if HasShape(data, Blueprint) then Some(Blueprint)
    else if HasShape(data, Action) then Some(Action)
    else if HasShape(data, Integration) then Some(Integration)
    else if HasShape(data, Scorecard) then Some(Scorecard)
    else None
  }

  /**
   * Detection order: a kind the path names always wins, and among those
   * the highest-priority one; only when the path names none is the shape
   * consulted, in the same priority order.  No kind is detected exactly
   * when nothing matches, and only a null or undefined document with an
   * unhelpful path throws.
   */
  lemma DetectionOrder(path: string, data: Value)
    ensures var r := DetectTemplateType(path, data);
      && (r.Abrupt? <==> (forall k :: !PathNames(path, k)) && data.Nullish())
      && (forall k :: PathNames(path, k) ==>
            r.Normal? && r.value.Some? && PathNames(path, r.value.value) && Rank(r.value.value) <= Rank(k))
      && ((forall k :: !PathNames(path, k)) && !data.Nullish() ==>
            r.Normal? && (r.value.None? <==> forall k :: !HasShape(data, k)))
      && ((forall k :: !PathNames(path, k)) && !data.Nullish() ==>
            forall k :: HasShape(data, k) ==>
              r.Normal? && r.value.Some? && HasShape(data, r.value.value) && Rank(r.value.value) <= Rank(k))
  {
    DetectionByPath(path, data);
    if (forall k :: !PathNames(path, k)) && !data.Nullish() {
      DetectionByShape(path, data);
    }
  }

  /** The path part of the detection order. */
  lemma DetectionByPath(path: string, data: Value)
    ensures var r := DetectTemplateType(path, data);
      && (r.Abrupt? <==> (forall k :: !PathNames(path, k)) && data.Nullish())
      && (forall k :: PathNames(path, k) ==>
            r.Normal? && r.value.Some? && PathNames(path, r.value.value) && Rank(r.value.value) <= Rank(k))
  {
    var b, a, i, c := PathNames(path, Blueprint), PathNames(path, Action), PathNames(path, Integration), PathNames(path, Scorecard);
    assert forall k :: PathNames(path, k) == (match k case Blueprint => b case Action => a case Integration => i case Scorecard => c);
  }

  /** The shape part of the detection order, once the path names no kind. */
  lemma DetectionByShape(path: string, data: Value)
    requires forall k :: !PathNames(path, k)
    requires !data.Nullish()
    ensures var r := DetectTemplateType(path, data);
      && r.Normal? && (r.value.None? <==> forall k :: !HasShape(data, k))
      && forall k :: HasShape(data, k) ==>
           r.value.Some? && HasShape(data, r.value.value) && Rank(r.value.value) <= Rank(k)
  {
    assert !PathNames(path, Blueprint) && !PathNames(path, Action) && !PathNames(path, Integration) && !PathNames(path, Scorecard);
    assert DetectTemplateType(path, data) == Normal(ShapeKind(data));
    ShapeKindOrder(data);
  }

  /** The structural detection picks the highest-priority matching shape. */
  lemma ShapeKindOrder(data: Value)
    requires !data.Nullish()
    ensures var r := ShapeKind(data);
      && (r.None? <==> forall k :: !HasShape(data, k))
      && forall k :: HasShape(data, k) ==> r.Some? && HasShape(data, r.value) && Rank(r.value) <= Rank(k)
  {
    var b, a, i, c := HasShape(data, Blueprint), HasShape(data, Action), HasShape(data, Integration), HasShape(data, Scorecard);
    assert forall k :: HasShape(data, k) == (match k case Blueprint => b case Action => a case Integration => i case Scorecard => c);
  }

  // ---------------------------------------------------------------------
  // The rule passes, as pure functions.
  // ---------------------------------------------------------------------

  /**
   * The top-level pass of `validateTemplate`: at most one error listing
   * every falsy required field and at most one warning listing every falsy
   * recommended field, in table order.
   */
  function TopLevelReport(path: string, data: Value, k: TemplateKind): (r: Report)
    ensures data.Nullish() <==> r.thrown.Some?
    ensures |r.errors| <= 1 && |r.warnings| <= 1
  {
    var requirements := TemplateRequirements(k);
    if data.Nullish() then Throw(ReadError(data, requirements.required[0]))
    else
      var missing := MissingFields(data, requirements.required);
      var missingRecommended := MissingFields(data, requirements.recommended);
      Report(
        if missing == [] then []
        else [Finding(path, KindName(k) + TemplateErrorSuffix, MissingRequiredPrefix + Join(missing, ", "))],
        if missingRecommended == [] then []
        else [Finding(path, KindName(k) + TemplateWarningSuffix, MissingRecommendedPrefix + Join(missingRecommended, ", "))],
        None)
  }

  /**
   * The top-level pass: one error exactly when some required field is
   * falsy, listing every such field in table order; one warning exactly
   * when some recommended field is falsy, listing those likewise.
   */
  lemma TopLevelFindings(path: string, data: Value, k: TemplateKind)
    requires !data.Nullish()
    ensures var r := TopLevelReport(path, data, k);
      var requirements := TemplateRequirements(k);
      && r.thrown.None?
      && (r.errors == [] <==> forall f | f in requirements.required :: Truthy(Prop(data, f)))
      && (r.warnings == [] <==> forall f | f in requirements.recommended :: Truthy(Prop(data, f)))
      && (r.errors != [] ==>
            r.errors == [Finding(path, KindName(k) + TemplateErrorSuffix,
                                 MissingRequiredPrefix + Join(MissingFields(data, requirements.required), ", "))])
      && (r.warnings != [] ==>
            r.warnings == [Finding(path, KindName(k) + TemplateWarningSuffix,
                                   MissingRecommendedPrefix + Join(MissingFields(data, requirements.recommended), ", "))])
  {
    TopLevelErrors(path, data, k);
    TopLevelWarnings(path, data, k);
  }

  /** The required-field half of `TopLevelFindings`. */
  lemma TopLevelErrors(path: string, data: Value, k: TemplateKind)
    requires !data.Nullish()
    ensures var r := TopLevelReport(path, data, k);
      var required := TemplateRequirements(k).required;
      && r.thrown.None?
      && (r.errors == [] <==> forall f | f in required :: Truthy(Prop(data, f)))
      && (r.errors != [] ==>
            r.errors == [Finding(path, KindName(k) + TemplateErrorSuffix, MissingRequiredPrefix + Join(MissingFields(data, required), ", "))])
  {
    MissingFieldsMeaning(data, TemplateRequirements(k).required);
  }

  /** The recommended-field half of `TopLevelFindings`. */
  lemma TopLevelWarnings(path: string, data: Value, k: TemplateKind)
    requires !data.Nullish()
    ensures var r := TopLevelReport(path, data, k);
      var recommended := TemplateRequirements(k).recommended;
      && (r.warnings == [] <==> forall f | f in recommended :: Truthy(Prop(data, f)))
      && (r.warnings != [] ==>
            r.warnings == [Finding(path, KindName(k) + TemplateWarningSuffix, MissingRecommendedPrefix + Join(MissingFields(data, recommended), ", "))])
  {
    MissingFieldsMeaning(data, TemplateRequirements(k).recommended);
  }

  /** The schema-level checks of a blueprint whose schema is truthy. */
  function SchemaHead(path: string, schema: Value): Report
    requires !schema.Nullish()
  {
    var requirements := TemplateRequirements(Blueprint);
    var missing := MissingFields(schema, requirements.nestedRequired);
    var missingRecommended := MissingFields(schema, requirements.nestedRecommended);
    Report(
      if missing == [] then []
      else [Finding(path, BlueprintSchemaError, SchemaMissingRequiredPrefix + Join(missing, ", "))],
      if missingRecommended == [] then []
      else [Finding(path, BlueprintSchemaWarning, SchemaMissingRecommendedPrefix + Join(missingRecommended, ", "))],
      None)
  }

  /**
   * One entry of a blueprint's `schema.properties` or an action's
   * `trigger.userInputs.properties`: it needs a `type` and should have a
   * `title`.  `noun` opens the message ("Property '" or "Input '").
   */
  function DefinitionReport(path: string, noun: string, errorCategory: string, warningCategory: string,
                            entry: (string, Value)): Report
  {
    var (name, definition) := entry;
    if definition.Nullish() then Throw(ReadError(definition, "type"))
    else Report(
      if Truthy(Prop(definition, "type")) then []
      else [Finding(path, errorCategory, noun + name + MissingTypeSuffix)],
      if Truthy(Prop(definition, "title")) then []
      else [Finding(path, warningCategory, noun + name + MissingTitleSuffix)],
      None)
  }

  /** The loop body shared by the property and the input loops. */
  function DefinitionCheck(path: string, noun: string, errorCategory: string, warningCategory: string)
    : (nat, (string, Value)) -> Report
  {
    (i: nat, entry: (string, Value)) => DefinitionReport(path, noun, errorCategory, warningCategory, entry)
  }

  function PropertyCheck(path: string): (nat, (string, Value)) -> Report {
    DefinitionCheck(path, PropertyPrefix, BlueprintPropertyError, BlueprintPropertyWarning)
  }


  /** `validateBlueprintTemplate` */
  function BlueprintReport(path: string, data: Value): Report {
    if data.Nullish() then Throw(ReadError(data, "schema"))
    else
      var schema := Prop(data, "schema");
      if !Truthy(schema) then NoFindings
      else
        var properties := Prop(schema, "properties");
        if Truthy(properties) then Then(SchemaHead(path, schema), ForEach(Entries(properties), PropertyCheck(path)))
        else SchemaHead(path, schema)
  }

  function InputCheck(path: string): (nat, (string, Value)) -> Report {
    DefinitionCheck(path, InputPrefix, ActionInputError, ActionInputWarning)
  }


  /** The trigger-level checks of an action whose trigger is truthy. */
  function TriggerHead(path: string, trigger: Value): Report
    requires !trigger.Nullish()
  {
    var missing := MissingFields(trigger, TemplateRequirements(Action).nestedRequired);
    Report(
      if missing == [] then []
      else [Finding(path, ActionTriggerError, TriggerMissingRequiredPrefix + Join(missing, ", "))],
      if Prop(trigger, "type") == Str("self-service") && !Truthy(Prop(trigger, "userInputs"))
      then [Finding(path, ActionTriggerWarning, SelfServiceWithoutInputs)]
      else [],
      None)
  }

  function TriggerReport(path: string, trigger: Value): Report
    requires !trigger.Nullish()
  {
    var inputs := Prop(trigger, "userInputs");
    if Truthy(inputs) && Truthy(Prop(inputs, "properties"))
    then Then(TriggerHead(path, trigger), ForEach(Entries(Prop(inputs, "properties")), InputCheck(path)))
    else TriggerHead(path, trigger)
  }

  /** The check of an action's `invocationMethod`. */
  function InvocationReport(path: string, invocation: Value): Report {
    if Truthy(invocation) && !Truthy(Prop(invocation, "type"))
    then Errors([Finding(path, ActionInvocationError, InvocationWithoutType)])
    else NoFindings
  }

  /** `validateActionTemplate` */
  function ActionReport(path: string, data: Value): Report {
    if data.Nullish() then Throw(ReadError(data, "trigger"))
    else
      var trigger := Prop(data, "trigger");
      Then(if Truthy(trigger) then TriggerReport(path, trigger) else NoFindings,
           InvocationReport(path, Prop(data, "invocationMethod")))
  }

  /** The mapping checks of a resource whose `port` is given: they apply when `port.entity.mappings` is truthy. */
  function MappingReport(path: string, index: nat, port: Value): Report {
    if Truthy(port) && Truthy(Prop(port, "entity")) && Truthy(Prop(Prop(port, "entity"), "mappings")) then
      var mappings := Prop(Prop(port, "entity"), "mappings");
      Errors(
        (if Truthy(Prop(mappings, "identifier")) then []
         else [Finding(path, IntegrationMappingError, ResourcePrefix + NatToString(index) + MissingIdentifierMapping)])
        + (if Truthy(Prop(mappings, "blueprint")) then []
           else [Finding(path, IntegrationMappingError, ResourcePrefix + NatToString(index) + MissingBlueprintMapping)]))
    else NoFindings
  }

  /** The required-field check of one resource. */
  function ResourceHead(path: string, index: nat, missing: seq<string>): Report {
    Errors(if missing == [] then []
           else [Finding(path, IntegrationResourceError,
                         ResourcePrefix + NatToString(index) + MissingRequiredInfix + Join(missing, ", "))])
  }

  /** One resource of an integration. */
  function ResourceReport(path: string, index: nat, resource: Value): Report {
    if resource.Nullish() then Throw(ReadError(resource, "kind"))
    else Then(ResourceHead(path, index, MissingFields(resource, TemplateRequirements(Integration).nestedRequired)),
              MappingReport(path, index, Prop(resource, "port")))
  }

  function ResourceCheck(path: string): (nat, Value) -> Report {
    (i: nat, resource: Value) => ResourceReport(path, i, resource)
  }

  /** `validateIntegrationTemplate` */
  function IntegrationReport(path: string, data: Value): Report {
    if data.Nullish() then Throw(ReadError(data, "resources"))
    else
      var resources := Prop(data, "resources");
      if Truthy(resources) && resources.Arr? then ForEach(resources.items, ResourceCheck(path)) else NoFindings
  }

  const StandardLevels: seq<Value> := [Str("Gold"), Str("Silver"), Str("Bronze")]

  /** One rule of a scorecard. */
  function RuleReport(path: string, index: nat, rule: Value): Report {
    if rule.Nullish() then Throw(ReadError(rule, "identifier"))
    else
      Report(RuleErrors(path, index, MissingFields(rule, TemplateRequirements(Scorecard).nestedRequired)),
             RuleWarnings(path, index, Prop(rule, "level")),
             None)
  }

  /** The error a rule with missing required fields gets. */
  function RuleErrors(path: string, index: nat, missing: seq<string>): seq<Finding> {
    if missing == [] then []
    else [Finding(path, ScorecardRuleError,
                  RulePrefix + NatToString(index) + MissingRequiredInfix + Join(missing, ", "))]
  }

  /** The warning a rule with a non-standard level gets. */
  function RuleWarnings(path: string, index: nat, level: Value): seq<Finding> {
    if Truthy(level) && level !in StandardLevels
    then [Finding(path, ScorecardRuleWarning, RulePrefix + NatToString(index) + NonStandardLevelInfix + ToDisplay(level))]
    else []
  }

  function RuleCheck(path: string): (nat, Value) -> Report {
    (i: nat, rule: Value) => RuleReport(path, i, rule)
  }

  /** `validateScorecardTemplate` */
  function ScorecardReport(path: string, data: Value): Report {
    if data.Nullish() then Throw(ReadError(data, "rules"))
    else
      var rules := Prop(data, "rules");
      if Truthy(rules) && rules.Arr? then ForEach(rules.items, RuleCheck(path)) else NoFindings
  }

  function KindReport(path: string, data: Value, k: TemplateKind): Report {
    match k
    case Blueprint => BlueprintReport(path, data)
    case Action => ActionReport(path, data)
    case Integration => IntegrationReport(path, data)
    case Scorecard => ScorecardReport(path, data)
  }

  /** `validateTemplate`: the top-level pass, then the kind's nested checks. */
  function TemplateReport(path: string, data: Value, k: TemplateKind): Report {
    Then(TopLevelReport(path, data, k), KindReport(path, data, k))
  }

  /** Detection, then either validation or the UnknownTemplateType warning. */
  function DocumentReport(path: string, data: Value): Report {
    match DetectTemplateType(path, data)
    case Abrupt(message) => Throw(message)
    case Normal(None) => Warnings([Finding(path, UnknownTemplateType, UnknownTemplateMessage)])
    case Normal(Some(k)) => TemplateReport(path, data, k)
  }

  const JqWarning := "Integration file contains JQ expressions that may not parse perfectly with YAML validator"

  /**
   * The catch block of the file validators.  YAML files (`lenient`) turn
   * a missed-comma failure on an integration path into a warning and still
   * count the file; every other failure is one TemplateParseError.
   */
  function Catch(path: string, message: string, lenient: bool): FileResult {
    if lenient && IsJqDowngrade(path, message)
    then FileResult([], [Finding(path, IntegrationTemplateWarning, JqWarning)], true)
    else FileResult([Finding(path, TemplateParseError, message)], [], false)
  }

  /** The findings of a file's try block, followed by those of its catch block if it threw. */
  function Settle(path: string, r: Report, lenient: bool): (f: FileResult)
    ensures f.validated <==> r.thrown.None? || (lenient && IsJqDowngrade(path, r.thrown.value))
    ensures f.validated ==> f.errors == r.errors
    ensures !f.validated ==>
      f.errors == r.errors + [Finding(path, TemplateParseError, r.thrown.value)] && f.warnings == r.warnings
    ensures r.thrown.None? ==> f.warnings == r.warnings
    ensures r.thrown.Some? && f.validated ==>
      f.warnings == r.warnings + [Finding(path, IntegrationTemplateWarning, JqWarning)]
  {
    match r.thrown
    case None => FileResult(r.errors, r.warnings, true)
    case Some(message) =>
      var c := Catch(path, message, lenient);
      FileResult(r.errors + c.errors, r.warnings + c.warnings, c.validated)
  }

  /** What the try block of `validateYamlTemplate` pushes, and how it ends. */
  function YamlTemplateTry(path: string, read: ReadOutcome, load: (string, Schema) -> ParseOutcome): Report {
    match read
    case ReadFailed(message) => Throw(message)
    case Read(content) =>
      match LoadYaml(path, content, load).0
      case ParseFailed(message, _) => Throw(message)
      case Parsed(data) => DocumentReport(path, data)
  }

  /** `validateYamlTemplate` */
  function YamlTemplateFile(path: string, read: ReadOutcome, load: (string, Schema) -> ParseOutcome): FileResult {
    Settle(path, YamlTemplateTry(path, read, load), true)
  }

  /** What the try block of `validateJsonTemplate` pushes, and how it ends. */
  function JsonTemplateTry(path: string, read: ReadOutcome, parseJson: string -> ParseOutcome): Report {
    match read
    case ReadFailed(message) => Throw(message)
    case Read(content) =>
      match parseJson(content)
      case ParseFailed(message, _) => Throw(message)
      case Parsed(data) => DocumentReport(path, data)
  }

  /** `validateJsonTemplate` */
  function JsonTemplateFile(path: string, read: ReadOutcome, parseJson: string -> ParseOutcome): FileResult {
    Settle(path, JsonTemplateTry(path, read, parseJson), false)
  }

  /** `validateYamlTemplate` as the step of the run over the YAML files. */
  function YamlTemplateFileStep(load: (string, Schema) -> ParseOutcome): (string, ReadOutcome) -> FileResult {
    (path, read) => YamlTemplateFile(path, read, load)
  }

  /** `validateJsonTemplate` as the step of the run over the JSON files. */
  function JsonTemplateFileStep(parseJson: string -> ParseOutcome): (string, ReadOutcome) -> FileResult {
    (path, read) => JsonTemplateFile(path, read, parseJson)
  }

  /**
   * The whole run: every YAML file, then every JSON file, each file's
   * findings in order.  It records no error exactly when no file does, and
   * each file counts at most once.
   */
  function TemplateRun(yamlFiles: seq<(string, ReadOutcome)>, jsonFiles: seq<(string, ReadOutcome)>,
                     load: (string, Schema) -> ParseOutcome, parseJson: string -> ParseOutcome): (t: RunTotal)
    ensures t.validated <= |yamlFiles| + |jsonFiles|
    ensures t.errors == [] <==>
      && (forall k | 0 <= k < |yamlFiles| :: YamlTemplateFile(yamlFiles[k].0, yamlFiles[k].1, load).errors == [])
      && (forall k | 0 <= k < |jsonFiles| :: JsonTemplateFile(jsonFiles[k].0, jsonFiles[k].1, parseJson).errors == [])
  {
    var yaml := RunFiles(yamlFiles, YamlTemplateFileStep(load));
    var json := RunFiles(jsonFiles, JsonTemplateFileStep(parseJson));
    RunFilesClean(yamlFiles, YamlTemplateFileStep(load));
    RunFilesClean(jsonFiles, JsonTemplateFileStep(parseJson));
    RunTotal(yaml.errors + json.errors, yaml.warnings + json.warnings, yaml.validated + json.validated)
  }

  // ---------------------------------------------------------------------
  // Properties of the rule passes.
  // ---------------------------------------------------------------------

  /** The entries of a schema's `properties`, or none when it is falsy. */
  function PropertyEntries(schema: Value): seq<(string, Value)>
    requires !schema.Nullish()
  {
    var properties := Prop(schema, "properties");
    if Truthy(properties) then Entries(properties) else []
  }

  /** Every entry holds a definition that is neither null nor undefined. */
  predicate Defined(entries: seq<(string, Value)>) {
    forall k | 0 <= k < |entries| :: !entries[k].1.Nullish()
  }

  /** How many of the definitions lack a truthy `key`. */
  function Lacking(entries: seq<(string, Value)>, key: string): (n: nat)
    requires Defined(entries)
    ensures n <= |entries|
  {
    if entries == [] then 0
    else
      var last := entries[|entries| - 1].1;
      Lacking(entries[..|entries| - 1], key) + (if Truthy(Prop(last, key)) then 0 else 1)
  }

  /**
   * The definition loop over defined entries never throws, and pushes one
   * error per definition without a `type` and one warning per definition
   * without a `title`, all of the loop's two categories.
   */
  lemma {:induction false} DefinitionLoopCounts(path: string, noun: string, errorCategory: string, warningCategory: string,
                                                entries: seq<(string, Value)>)
    requires Defined(entries)
    ensures var step := DefinitionCheck(path, noun, errorCategory, warningCategory);
      var r := ForEach(entries, step);
      && r.thrown.None?
      && |r.errors| == Lacking(entries, "type") && AllOf(r.errors, errorCategory)
      && |r.warnings| == Lacking(entries, "title") && AllOf(r.warnings, warningCategory)
    decreases |entries|
  {
    if entries != [] {
      var init := entries[..|entries| - 1];
      assert Defined(init);
      DefinitionLoopCounts(path, noun, errorCategory, warningCategory, init);
    }
  }

  /**
   * Blueprint checks on a truthy schema whose property definitions are all
   * defined: exactly one schema error when `properties` is falsy, exactly
   * one schema warning when `required` is falsy, one property error per
   * property without a `type` and one property warning per property
   * without a `title`, and nothing else.
   */
  lemma BlueprintFindings(path: string, data: Value)
    requires !data.Nullish() && Truthy(Prop(data, "schema"))
    requires Defined(PropertyEntries(Prop(data, "schema")))
    ensures var schema := Prop(data, "schema");
      var r := BlueprintReport(path, data);
      var entries := PropertyEntries(schema);
      && r.thrown.None?
      && CountCategory(r.errors, BlueprintSchemaError) == (if Truthy(Prop(schema, "properties")) then 0 else 1)
      && CountCategory(r.warnings, BlueprintSchemaWarning) == (if Truthy(Prop(schema, "required")) then 0 else 1)
      && CountCategory(r.errors, BlueprintPropertyError) == Lacking(entries, "type")
      && CountCategory(r.warnings, BlueprintPropertyWarning) == Lacking(entries, "title")
      && |r.errors| == CountCategory(r.errors, BlueprintSchemaError) + CountCategory(r.errors, BlueprintPropertyError)
      && |r.warnings| == CountCategory(r.warnings, BlueprintSchemaWarning) + CountCategory(r.warnings, BlueprintPropertyWarning)
  {
    var schema := Prop(data, "schema");
    var head := SchemaHead(path, schema);
    SchemaHeadFindings(path, schema);
    var entries := PropertyEntries(schema);
    var loop := ForEach(entries, PropertyCheck(path));
    PropertyLoopFindings(path, entries);
    if Truthy(Prop(schema, "properties")) {
      assert BlueprintReport(path, data) == Then(head, loop);
    } else {
      assert entries == [];
      assert BlueprintReport(path, data) == head;
      assert loop == NoFindings;
    }
    CountCategoryConcat(head.errors, loop.errors, BlueprintSchemaError);
    CountCategoryConcat(head.errors, loop.errors, BlueprintPropertyError);
    CountCategoryConcat(head.warnings, loop.warnings, BlueprintSchemaWarning);
    CountCategoryConcat(head.warnings, loop.warnings, BlueprintPropertyWarning);
  }

  /** The schema-level checks: one error without `properties`, one warning without `required`. */
  lemma SchemaHeadFindings(path: string, schema: Value)
    requires !schema.Nullish()
    ensures var head := SchemaHead(path, schema);
      && head.thrown.None?
      && CountCategory(head.errors, BlueprintSchemaError) == |head.errors| == (if Truthy(Prop(schema, "properties")) then 0 else 1)
      && CountCategory(head.warnings, BlueprintSchemaWarning) == |head.warnings| == (if Truthy(Prop(schema, "required")) then 0 else 1)
      && CountCategory(head.errors, BlueprintPropertyError) == 0
      && CountCategory(head.warnings, BlueprintPropertyWarning) == 0
  {
    var head := SchemaHead(path, schema);
    var required, recommended := TemplateRequirements(Blueprint).nestedRequired, TemplateRequirements(Blueprint).nestedRecommended;
    assert required == ["properties"] && recommended == ["required"];
    MissingFieldsMeaning(schema, required);
    MissingFieldsMeaning(schema, recommended);
    assert AllOf(head.errors, BlueprintSchemaError) && AllOf(head.warnings, BlueprintSchemaWarning);
    AllOfCount(head.errors, BlueprintSchemaError, BlueprintSchemaError);
    AllOfCount(head.warnings, BlueprintSchemaWarning, BlueprintSchemaWarning);
    AllOfCount(head.errors, BlueprintSchemaError, BlueprintPropertyError);
    AllOfCount(head.warnings, BlueprintSchemaWarning, BlueprintPropertyWarning);
  }

  /** The property loop: one error per property without `type`, one warning per property without `title`. */
  lemma PropertyLoopFindings(path: string, entries: seq<(string, Value)>)
    requires Defined(entries)
    ensures var loop := ForEach(entries, PropertyCheck(path));
      && loop.thrown.None?
      && CountCategory(loop.errors, BlueprintPropertyError) == |loop.errors| == Lacking(entries, "type")
      && CountCategory(loop.warnings, BlueprintPropertyWarning) == |loop.warnings| == Lacking(entries, "title")
      && CountCategory(loop.errors, BlueprintSchemaError) == 0
      && CountCategory(loop.warnings, BlueprintSchemaWarning) == 0
  {
    DefinitionLoopCounts(path, PropertyPrefix, BlueprintPropertyError, BlueprintPropertyWarning, entries);
    var loop := ForEach(entries, PropertyCheck(path));
    AllOfCount(loop.errors, BlueprintPropertyError, BlueprintPropertyError);
    AllOfCount(loop.warnings, BlueprintPropertyWarning, BlueprintPropertyWarning);
    AllOfCount(loop.errors, BlueprintPropertyError, BlueprintSchemaError);
    AllOfCount(loop.warnings, BlueprintPropertyWarning, BlueprintSchemaWarning);
  }

  /**
   * The trigger part of the action checks: at most one trigger warning,
   * exactly for a self-service trigger without truthy `userInputs`, and
   * never an invocation error.
   */
  lemma TriggerFindings(path: string, trigger: Value)
    requires !trigger.Nullish()
    ensures var r := TriggerReport(path, trigger);
      && CountCategory(r.errors, ActionInvocationError) == 0
      && CountCategory(r.warnings, ActionTriggerWarning)
           == (if Prop(trigger, "type") == Str("self-service") && !Truthy(Prop(trigger, "userInputs")) then 1 else 0)
  {
    var head := TriggerHead(path, trigger);
    TriggerHeadFindings(path, trigger);
    var inputs := Prop(trigger, "userInputs");
    if Truthy(inputs) && Truthy(Prop(inputs, "properties")) {
      var properties := Prop(inputs, "properties");
      var loop := ForEach(Entries(properties), InputCheck(path));
      InputLoopFindings(path, properties);
      assert TriggerReport(path, trigger) == Then(head, loop);
      CountCategoryConcat(head.errors, loop.errors, ActionInvocationError);
      CountCategoryConcat(head.warnings, loop.warnings, ActionTriggerWarning);
    }
  }

  lemma InputLoopFindings(path: string, properties: Value)
    requires !properties.Nullish()
    ensures var loop := ForEach(Entries(properties), InputCheck(path));
      CountCategory(loop.errors, ActionInvocationError) == 0 && CountCategory(loop.warnings, ActionTriggerWarning) == 0
  {
    var entries := Entries(properties);
    ForEachCategories(entries, InputCheck(path), ActionInputError, ActionInputWarning);
    var loop := ForEach(entries, InputCheck(path));
    AllOfCount(loop.errors, ActionInputError, ActionInvocationError);
    AllOfCount(loop.warnings, ActionInputWarning, ActionTriggerWarning);
  }

  lemma TriggerHeadFindings(path: string, trigger: Value)
    requires !trigger.Nullish()
    ensures var head := TriggerHead(path, trigger);
      && CountCategory(head.errors, ActionInvocationError) == 0
      && CountCategory(head.warnings, ActionTriggerWarning)
           == (if Prop(trigger, "type") == Str("self-service") && !Truthy(Prop(trigger, "userInputs")) then 1 else 0)
  {
    var head := TriggerHead(path, trigger);
    assert AllOf(head.errors, ActionTriggerError) && AllOf(head.warnings, ActionTriggerWarning);
    AllOfCount(head.errors, ActionTriggerError, ActionInvocationError);
    AllOfCount(head.warnings, ActionTriggerWarning, ActionTriggerWarning);
  }

  /**
   * Action checks: the trigger warning is pushed at most once, exactly when
   * a truthy trigger is a self-service one without truthy `userInputs`; and
   * unless the input loop threw, the invocation error is pushed at most
   * once, exactly when a truthy `invocationMethod` has no truthy `type`.
   */
  lemma ActionFindings(path: string, data: Value)
    requires !data.Nullish()
    ensures var r := ActionReport(path, data);
      var trigger := Prop(data, "trigger");
      var invocation := Prop(data, "invocationMethod");
      && CountCategory(r.warnings, ActionTriggerWarning)
           == (if Truthy(trigger) && Prop(trigger, "type") == Str("self-service") && !Truthy(Prop(trigger, "userInputs")) then 1 else 0)
      && CountCategory(r.errors, ActionInvocationError) <= 1
      && (r.thrown.None? ==>
            CountCategory(r.errors, ActionInvocationError) == (if Truthy(invocation) && !Truthy(Prop(invocation, "type")) then 1 else 0))
  {
    var trigger := Prop(data, "trigger");
    var part := if Truthy(trigger) then TriggerReport(path, trigger) else NoFindings;
    if Truthy(trigger) {
      TriggerFindings(path, trigger);
    }
    var invocation := Prop(data, "invocationMethod");
    var tail := InvocationReport(path, invocation);
    assert ActionReport(path, data) == Then(part, tail);
    InvocationFindings(path, invocation);
    CountCategoryConcat(part.errors, tail.errors, ActionInvocationError);
    CountCategoryConcat(part.warnings, tail.warnings, ActionTriggerWarning);
  }

  lemma InvocationFindings(path: string, invocation: Value)
    ensures var r := InvocationReport(path, invocation);
      && r.warnings == [] && r.thrown.None?
      && CountCategory(r.errors, ActionInvocationError) == |r.errors|
      && |r.errors| == (if Truthy(invocation) && !Truthy(Prop(invocation, "type")) then 1 else 0)
  {
    var r := InvocationReport(path, invocation);
    assert AllOf(r.errors, ActionInvocationError);
    AllOfCount(r.errors, ActionInvocationError, ActionInvocationError);
  }

  /**
   * The mapping checks of one resource: one error for each of `identifier`
   * and `blueprint` that a truthy `port.entity.mappings` lacks.
   */
  lemma MappingFindings(path: string, index: nat, port: Value)
    ensures var r := MappingReport(path, index, port);
      && r.thrown.None? && r.warnings == [] && AllOf(r.errors, IntegrationMappingError)
      && |r.errors|
           == (if Truthy(port) && Truthy(Prop(port, "entity")) && Truthy(Prop(Prop(port, "entity"), "mappings"))
               then var mappings := Prop(Prop(port, "entity"), "mappings");
                    (if Truthy(Prop(mappings, "identifier")) then 0 else 1) + (if Truthy(Prop(mappings, "blueprint")) then 0 else 1)
               else 0)
  {
  }

  /**
   * One integration resource: one resource error exactly when `kind` or
   * `port` is falsy, the mapping errors above, and no warning.
   */
  lemma ResourceFindings(path: string, index: nat, resource: Value)
    requires !resource.Nullish()
    ensures var r := ResourceReport(path, index, resource);
      && r.thrown.None? && r.warnings == []
      && CountCategory(r.errors, IntegrationResourceError)
           == (if Truthy(Prop(resource, "kind")) && Truthy(Prop(resource, "port")) then 0 else 1)
      && CountCategory(r.errors, IntegrationMappingError) == |MappingReport(path, index, Prop(resource, "port")).errors|
      && |r.errors| == CountCategory(r.errors, IntegrationResourceError) + CountCategory(r.errors, IntegrationMappingError)
  {
    var table := TemplateRequirements(Integration).nestedRequired;
    var head := ResourceHead(path, index, MissingFields(resource, table)).errors;
    ResourceHeadFindings(path, index, resource);
    assert ResourceReport(path, index, resource)
        == Report(head + MappingReport(path, index, Prop(resource, "port")).errors, [], None);
    var mapping := MappingReport(path, index, Prop(resource, "port")).errors;
    MappingFindings(path, index, Prop(resource, "port"));
    assert AllOf(head, IntegrationResourceError);
    AllOfCount(head, IntegrationResourceError, IntegrationMappingError);
    AllOfCount(mapping, IntegrationMappingError, IntegrationResourceError);
    CountCategoryConcat(head, mapping, IntegrationResourceError);
    CountCategoryConcat(head, mapping, IntegrationMappingError);
  }

  lemma ResourceHeadFindings(path: string, index: nat, resource: Value)
    requires !resource.Nullish()
    ensures var head := ResourceHead(path, index, MissingFields(resource, TemplateRequirements(Integration).nestedRequired));
      && head.warnings == [] && head.thrown.None? && AllOf(head.errors, IntegrationResourceError)
      && |head.errors| == (if Truthy(Prop(resource, "kind")) && Truthy(Prop(resource, "port")) then 0 else 1)
  {
    var table := TemplateRequirements(Integration).nestedRequired;
    MissingFieldsMeaning(resource, table);
    assert |table| == 2 && table[0] == "kind" && table[1] == "port";
  }

  /**
   * The resource check consults `kind` and `port` only: `selector`, the
   * recommended resource field, never gives rise to a finding.
   */
  lemma ResourceIgnoresOtherFields(path: string, index: nat, resource: Value, other: Value)
    requires !resource.Nullish() && !other.Nullish()
    requires Prop(resource, "kind") == Prop(other, "kind") && Prop(resource, "port") == Prop(other, "port")
    ensures ResourceReport(path, index, resource) == ResourceReport(path, index, other)
  {
    var table := TemplateRequirements(Integration).nestedRequired;
    assert |table| == 2 && table[0] == "kind" && table[1] == "port";
    MissingFieldsDependOnTableOnly(resource, other, table);
  }

  /**
   * The resource loop pushes no warning and only resource and mapping
   * errors, and it runs to the end when every resource is defined.
   */
  lemma {:induction false} ResourceLoopFindings(path: string, items: seq<Value>)
    ensures var loop := ForEach(items, ResourceCheck(path));
      && loop.warnings == []
      && |loop.errors| == CountCategory(loop.errors, IntegrationResourceError) + CountCategory(loop.errors, IntegrationMappingError)
      && ((forall k | 0 <= k < |items| :: !items[k].Nullish()) ==> loop.thrown.None?)
    decreases |items|
  {
    if items != [] {
      var init := items[..|items| - 1];
      var i := |items| - 1;
      ResourceLoopFindings(path, init);
      assert forall k | 0 <= k < |init| :: init[k] == items[k];
      var before := ForEach(init, ResourceCheck(path));
      var step := ResourceReport(path, i, items[i]);
      assert ForEach(items, ResourceCheck(path)) == Then(before, step);
      if !items[i].Nullish() {
        ResourceFindings(path, i, items[i]);
      }
      CountCategoryConcat(before.errors, step.errors, IntegrationResourceError);
      CountCategoryConcat(before.errors, step.errors, IntegrationMappingError);
    }
  }

  /**
   * Integration checks: no warning ever; a `resources` that is not a truthy
   * array gives no nested finding; otherwise the loop runs to the end when
   * every resource is defined, and pushes only resource and mapping errors.
   */
  lemma IntegrationFindings(path: string, data: Value)
    requires !data.Nullish()
    ensures var resources := Prop(data, "resources");
      var r := IntegrationReport(path, data);
      && r.warnings == []
      && (!(Truthy(resources) && resources.Arr?) ==> r == NoFindings)
      && |r.errors| == CountCategory(r.errors, IntegrationResourceError) + CountCategory(r.errors, IntegrationMappingError)
      && (resources.Arr? && (forall k | 0 <= k < |resources.items| :: !resources.items[k].Nullish()) ==> r.thrown.None?)
  {
    var resources := Prop(data, "resources");
    if Truthy(resources) && resources.Arr? {
      ResourceLoopFindings(path, resources.items);
    }
  }

  /**
   * One scorecard rule: at most one error, exactly when one of
   * `identifier`, `title`, `level` is falsy; at most one warning, exactly
   * when a truthy `level` is not Gold, Silver or Bronze.  A rule without a
   * level gets the error and no level warning.
   */
  lemma RuleFindings(path: string, index: nat, rule: Value)
    requires !rule.Nullish()
    ensures var r := RuleReport(path, index, rule);
      var level := Prop(rule, "level");
      && r.thrown.None? && |r.errors| <= 1 && |r.warnings| <= 1
      && (|r.errors| == 1 <==>
            !Truthy(Prop(rule, "identifier")) || !Truthy(Prop(rule, "title")) || !Truthy(level))
      && (|r.warnings| == 1 <==> Truthy(level) && level != Str("Gold") && level != Str("Silver") && level != Str("Bronze"))
      && AllOf(r.errors, ScorecardRuleError) && AllOf(r.warnings, ScorecardRuleWarning)
      && (!Truthy(level) ==> |r.errors| == 1 && r.warnings == [])
  {
    RuleErrorFindings(path, index, rule);
    RuleLevelFindings(path, index, rule);
  }

  lemma RuleErrorFindings(path: string, index: nat, rule: Value)
    requires !rule.Nullish()
    ensures var errors := RuleReport(path, index, rule).errors;
      && |errors| <= 1 && AllOf(errors, ScorecardRuleError)
      && (|errors| == 1 <==>
            !Truthy(Prop(rule, "identifier")) || !Truthy(Prop(rule, "title")) || !Truthy(Prop(rule, "level")))
  {
    var table := TemplateRequirements(Scorecard).nestedRequired;
    MissingFieldsMeaning(rule, table);
    assert |table| == 3 && table[0] == "identifier" && table[1] == "title" && table[2] == "level";
  }

  lemma RuleLevelFindings(path: string, index: nat, rule: Value)
    requires !rule.Nullish()
    ensures var r := RuleReport(path, index, rule);
      var level := Prop(rule, "level");
      && r.thrown.None? && |r.warnings| <= 1 && AllOf(r.warnings, ScorecardRuleWarning)
      && (|r.warnings| == 1 <==> Truthy(level) && level != Str("Gold") && level != Str("Silver") && level != Str("Bronze"))
  {
    var level := Prop(rule, "level");
    assert level in StandardLevels <==> level == Str("Gold") || level == Str("Silver") || level == Str("Bronze");
  }

  /**
   * The rule check consults `identifier`, `title` and `level` only:
   * `description`, the recommended rule field, never gives rise to a finding.
   */
  lemma RuleIgnoresOtherFields(path: string, index: nat, rule: Value, other: Value)
    requires !rule.Nullish() && !other.Nullish()
    requires forall f | f in ["identifier", "title", "level"] :: Prop(rule, f) == Prop(other, f)
    ensures RuleReport(path, index, rule) == RuleReport(path, index, other)
  {
    var table := TemplateRequirements(Scorecard).nestedRequired;
    assert forall k | 0 <= k < |table| :: Prop(rule, table[k]) == Prop(other, table[k]);
    MissingFieldsDependOnTableOnly(rule, other, table);
  }

  // ---------------------------------------------------------------------
  // The validator object.
  // ---------------------------------------------------------------------

  class TemplateValidator {
    var errors: seq<Finding>
    var warnings: seq<Finding>
    var validatedFiles: nat

    constructor ()
      ensures errors == [] && warnings == [] && validatedFiles == 0
    {
      errors := [];
      warnings := [];
      validatedFiles := 0;
    }

    /** The top-level pass of `validateTemplate`, for a document that is neither null nor undefined. */
    method CheckTopLevel(path: string, data: Value, k: TemplateKind)
      requires !data.Nullish()
      modifies this
      ensures errors == old(errors) + TopLevelReport(path, data, k).errors
      ensures warnings == old(warnings) + TopLevelReport(path, data, k).warnings
      ensures validatedFiles == old(validatedFiles)
    {
      var requirements := TemplateRequirements(k);
      var missingRequired := MissingFields(data, requirements.required);
      if |missingRequired| > 0 {
        errors := errors + [Finding(path, KindName(k) + TemplateErrorSuffix, MissingRequiredPrefix + Join(missingRequired, ", "))];
      }
      var missingRecommended := MissingFields(data, requirements.recommended);
      if |missingRecommended| > 0 {
        warnings := warnings + [Finding(path, KindName(k) + TemplateWarningSuffix, MissingRecommendedPrefix + Join(missingRecommended, ", "))];
      }
    }

    /** `validateTemplate` */
    method ValidateTemplate(path: string, data: Value, k: TemplateKind) returns (thrown: Option<string>)
      modifies this
      ensures errors == old(errors) + TemplateReport(path, data, k).errors
      ensures warnings == old(warnings) + TemplateReport(path, data, k).warnings
      ensures thrown == TemplateReport(path, data, k).thrown
      ensures validatedFiles == old(validatedFiles)
    {
      if data.Nullish() {
        return Some(ReadError(data, TemplateRequirements(k).required[0]));
      }
      ghost var top, kind := TopLevelReport(path, data, k), KindReport(path, data, k);
      CheckTopLevel(path, data, k);
      match k {
        case Blueprint => thrown := ValidateBlueprintTemplate(path, data);
        case Action => thrown := ValidateActionTemplate(path, data);
        case Integration => thrown := ValidateIntegrationTemplate(path, data);
        case Scorecard => thrown := ValidateScorecardTemplate(path, data);
      }
      ConcatAssoc(old(errors), top.errors, kind.errors);
      ConcatAssoc(old(warnings), top.warnings, kind.warnings);
    }

    /** The schema-level checks of `validateBlueprintTemplate`. */
    method CheckSchema(path: string, schema: Value)
      requires !schema.Nullish()
      modifies this
      ensures errors == old(errors) + SchemaHead(path, schema).errors
      ensures warnings == old(warnings) + SchemaHead(path, schema).warnings
      ensures validatedFiles == old(validatedFiles)
    {
      var requirements := TemplateRequirements(Blueprint);
      var missingRequired := MissingFields(schema, requirements.nestedRequired);
      if |missingRequired| > 0 {
        errors := errors + [Finding(path, BlueprintSchemaError, SchemaMissingRequiredPrefix + Join(missingRequired, ", "))];
      }
      var missingRecommended := MissingFields(schema, requirements.nestedRecommended);
      if |missingRecommended| > 0 {
        warnings := warnings + [Finding(path, BlueprintSchemaWarning, SchemaMissingRecommendedPrefix + Join(missingRecommended, ", "))];
      }
    }

    /** One iteration of the property loop of `validateBlueprintTemplate` or of the input loop of `validateActionTemplate`. */
    method CheckDefinition(path: string, noun: string, errorCategory: string, warningCategory: string,
                           name: string, definition: Value)
      requires !definition.Nullish()
      modifies this
      ensures errors == old(errors) + DefinitionReport(path, noun, errorCategory, warningCategory, (name, definition)).errors
      ensures warnings == old(warnings) + DefinitionReport(path, noun, errorCategory, warningCategory, (name, definition)).warnings
      ensures validatedFiles == old(validatedFiles)
    {
      if !Truthy(Prop(definition, "type")) {
        errors := errors + [Finding(path, errorCategory, noun + name + MissingTypeSuffix)];
      }
      if !Truthy(Prop(definition, "title")) {
        warnings := warnings + [Finding(path, warningCategory, noun + name + MissingTitleSuffix)];
      }
    }

    /** `validateBlueprintTemplate` */
    method ValidateBlueprintTemplate(path: string, data: Value) returns (thrown: Option<string>)
      modifies this
      ensures errors == old(errors) + BlueprintReport(path, data).errors
      ensures warnings == old(warnings) + BlueprintReport(path, data).warnings
      ensures thrown == BlueprintReport(path, data).thrown
      ensures validatedFiles == old(validatedFiles)
    {
      if data.Nullish() {
        return Some(ReadError(data, "schema"));
      }
      thrown := None;
      var schema := Prop(data, "schema");
      if Truthy(schema) {
        ghost var head := SchemaHead(path, schema);
        CheckSchema(path, schema);
        var properties := Prop(schema, "properties");
        if Truthy(properties) {
          var entries := Entries(properties);
          ghost var loop := ForEach(entries, PropertyCheck(path));
          assert BlueprintReport(path, data) == Report(head.errors + loop.errors, head.warnings + loop.warnings, loop.thrown);
          thrown := CheckDefinitions(path, PropertyPrefix, BlueprintPropertyError, BlueprintPropertyWarning, entries);
          ConcatAssoc(old(errors), head.errors, loop.errors);
          ConcatAssoc(old(warnings), head.warnings, loop.warnings);
        }
      }
    }

    /** The trigger-level checks of `validateActionTemplate`. */
    method CheckTrigger(path: string, trigger: Value)
      requires !trigger.Nullish()
      modifies this
      ensures errors == old(errors) + TriggerHead(path, trigger).errors
      ensures warnings == old(warnings) + TriggerHead(path, trigger).warnings
      ensures validatedFiles == old(validatedFiles)
    {
      var missingRequired := MissingFields(trigger, TemplateRequirements(Action).nestedRequired);
      if |missingRequired| > 0 {
        errors := errors + [Finding(path, ActionTriggerError, TriggerMissingRequiredPrefix + Join(missingRequired, ", "))];
      }
      if Prop(trigger, "type") == Str("self-service") && !Truthy(Prop(trigger, "userInputs")) {
        warnings := warnings + [Finding(path, ActionTriggerWarning, SelfServiceWithoutInputs)];
      }
    }

    /** The trigger part of `validateActionTemplate`, for a truthy trigger. */
    method ValidateTrigger(path: string, trigger: Value) returns (thrown: Option<string>)
      requires !trigger.Nullish()
      modifies this
      ensures errors == old(errors) + TriggerReport(path, trigger).errors
      ensures warnings == old(warnings) + TriggerReport(path, trigger).warnings
      ensures thrown == TriggerReport(path, trigger).thrown
      ensures validatedFiles == old(validatedFiles)
    {
      thrown := None;
      ghost var head := TriggerHead(path, trigger);
      CheckTrigger(path, trigger);
      var inputs := Prop(trigger, "userInputs");
      if Truthy(inputs) && Truthy(Prop(inputs, "properties")) {
        var entries := Entries(Prop(inputs, "properties"));
        ghost var loop := ForEach(entries, InputCheck(path));
        assert TriggerReport(path, trigger) == Report(head.errors + loop.errors, head.warnings + loop.warnings, loop.thrown);
        ghost var errorsBefore, warningsBefore := errors, warnings;
        thrown := CheckDefinitions(path, InputPrefix, ActionInputError, ActionInputWarning, entries);
        ConcatAssoc(old(errors), head.errors, loop.errors);
        ConcatAssoc(old(warnings), head.warnings, loop.warnings);
      }
    }

    /**
     * The loop over `schema.properties` of `validateBlueprintTemplate` or
     * over `trigger.userInputs.properties` of `validateActionTemplate`.
     */
    method CheckDefinitions(path: string, noun: string, errorCategory: string, warningCategory: string,
                            entries: seq<(string, Value)>) returns (thrown: Option<string>)
      modifies this
      ensures var loop := ForEach(entries, DefinitionCheck(path, noun, errorCategory, warningCategory));
        && errors == old(errors) + loop.errors
        && warnings == old(warnings) + loop.warnings
        && thrown == loop.thrown
      ensures validatedFiles == old(validatedFiles)
    {
      thrown := None;
      ghost var check := DefinitionCheck(path, noun, errorCategory, warningCategory);
      ghost var done := NoFindings;
      var i := 0;
      while i < |entries|
        invariant 0 <= i <= |entries|
        invariant done == ForEach(entries[..i], check) && done.thrown == None
        invariant errors == old(errors) + done.errors
        invariant warnings == old(warnings) + done.warnings
        invariant validatedFiles == old(validatedFiles)
      {
        var (name, definition) := entries[i];
        ForEachExtend(entries, check, i);
        ghost var step := DefinitionReport(path, noun, errorCategory, warningCategory, (name, definition));
        if definition.Nullish() {
          assert step == Throw(ReadError(definition, "type"));
          ForEachThrowsAt(entries, check, i, ReadError(definition, "type"));
          return Some(ReadError(definition, "type"));
        }
        CheckDefinition(path, noun, errorCategory, warningCategory, name, definition);
        ConcatAssoc(old(errors), done.errors, step.errors);
        ConcatAssoc(old(warnings), done.warnings, step.warnings);
        done := Then(done, step);
        i := i + 1;
      }
      ForEachWhole(entries, check);
    }

    /** `validateActionTemplate` */
    method ValidateActionTemplate(path: string, data: Value) returns (thrown: Option<string>)
      modifies this
      ensures errors == old(errors) + ActionReport(path, data).errors
      ensures warnings == old(warnings) + ActionReport(path, data).warnings
      ensures thrown == ActionReport(path, data).thrown
      ensures validatedFiles == old(validatedFiles)
    {
      if data.Nullish() {
        return Some(ReadError(data, "trigger"));
      }
      thrown := None;
      var trigger := Prop(data, "trigger");
      ghost var part := if Truthy(trigger) then TriggerReport(path, trigger) else NoFindings;
      ghost var tail := InvocationReport(path, Prop(data, "invocationMethod"));
      assert ActionReport(path, data) == Then(part, tail);
      if Truthy(trigger) {
        thrown := ValidateTrigger(path, trigger);
        if thrown.Some? {
          return;
        }
      }
      CheckInvocation(path, data);
      ConcatAssoc(old(errors), part.errors, tail.errors);
    }

    /** The `invocationMethod` check of `validateActionTemplate`. */
    method CheckInvocation(path: string, data: Value)
      requires !data.Nullish()
      modifies this
      ensures errors == old(errors) + InvocationReport(path, Prop(data, "invocationMethod")).errors
      ensures warnings == old(warnings) && validatedFiles == old(validatedFiles)
    {
      var invocation := Prop(data, "invocationMethod");
      if Truthy(invocation) && !Truthy(Prop(invocation, "type")) {
        errors := errors + [Finding(path, ActionInvocationError, InvocationWithoutType)];
      }
    }

    /** The mapping checks of one iteration of the resource loop. */
    method CheckMappings(path: string, index: nat, resource: Value)
      requires !resource.Nullish()
      modifies this
      ensures errors == old(errors) + MappingReport(path, index, Prop(resource, "port")).errors
      ensures warnings == old(warnings)
      ensures validatedFiles == old(validatedFiles)
    {
      var port := Prop(resource, "port");
      if Truthy(port) && Truthy(Prop(port, "entity")) && Truthy(Prop(Prop(port, "entity"), "mappings")) {
        var mappings := Prop(Prop(port, "entity"), "mappings");
        var missingIdentifier := [Finding(path, IntegrationMappingError, ResourcePrefix + NatToString(index) + MissingIdentifierMapping)];
        var missingBlueprint := [Finding(path, IntegrationMappingError, ResourcePrefix + NatToString(index) + MissingBlueprintMapping)];
        if !Truthy(Prop(mappings, "identifier")) {
          errors := errors + missingIdentifier;
        }
        if !Truthy(Prop(mappings, "blueprint")) {
          ConcatAssoc(old(errors), missingIdentifier, missingBlueprint);
          errors := errors + missingBlueprint;
        }
      }
    }

    /** One iteration of the resource loop of `validateIntegrationTemplate`. */
    method CheckResource(path: string, index: nat, resource: Value)
      requires !resource.Nullish()
      modifies this
      ensures errors == old(errors) + ResourceReport(path, index, resource).errors
      ensures warnings == old(warnings) + ResourceReport(path, index, resource).warnings
      ensures validatedFiles == old(validatedFiles)
    {
      var missingRequired := MissingFields(resource, TemplateRequirements(Integration).nestedRequired);
      var missingError := [Finding(path, IntegrationResourceError,
                                   ResourcePrefix + NatToString(index) + MissingRequiredInfix + Join(missingRequired, ", "))];
      ghost var head := if |missingRequired| > 0 then missingError else [];
      assert ResourceReport(path, index, resource)
          == Report(head + MappingReport(path, index, Prop(resource, "port")).errors, [], None);
      if |missingRequired| > 0 {
        errors := errors + missingError;
      }
      CheckMappings(path, index, resource);
      ConcatAssoc(old(errors), head, MappingReport(path, index, Prop(resource, "port")).errors);
    }

    /** The loop over `resources` of `validateIntegrationTemplate`. */
    method CheckResources(path: string, items: seq<Value>) returns (thrown: Option<string>)
      modifies this
      ensures errors == old(errors) + ForEach(items, ResourceCheck(path)).errors
      ensures warnings == old(warnings) + ForEach(items, ResourceCheck(path)).warnings
      ensures thrown == ForEach(items, ResourceCheck(path)).thrown
      ensures validatedFiles == old(validatedFiles)
    {
      thrown := None;
      ghost var done := NoFindings;
      var i := 0;
      while i < |items|
        invariant 0 <= i <= |items|
        invariant done == ForEach(items[..i], ResourceCheck(path)) && done.thrown == None
        invariant errors == old(errors) + done.errors
        invariant warnings == old(warnings) + done.warnings
        invariant validatedFiles == old(validatedFiles)
      {
        var resource := items[i];
        ForEachExtend(items, ResourceCheck(path), i);
        ghost var step := ResourceReport(path, i, resource);
        if resource.Nullish() {
          assert step == Throw(ReadError(resource, "kind"));
          ForEachThrowsAt(items, ResourceCheck(path), i, ReadError(resource, "kind"));
          return Some(ReadError(resource, "kind"));
        }
        CheckResource(path, i, resource);
        ConcatAssoc(old(errors), done.errors, step.errors);
        ConcatAssoc(old(warnings), done.warnings, step.warnings);
        done := Then(done, step);
        i := i + 1;
      }
      ForEachWhole(items, ResourceCheck(path));
    }

    /** `validateIntegrationTemplate` */
    method ValidateIntegrationTemplate(path: string, data: Value) returns (thrown: Option<string>)
      modifies this
      ensures errors == old(errors) + IntegrationReport(path, data).errors
      ensures warnings == old(warnings) + IntegrationReport(path, data).warnings
      ensures thrown == IntegrationReport(path, data).thrown
      ensures validatedFiles == old(validatedFiles)
    {
      if data.Nullish() {
        return Some(ReadError(data, "resources"));
      }
      thrown := None;
      var resources := Prop(data, "resources");
      if Truthy(resources) && resources.Arr? {
        var items := resources.items;
        thrown := CheckResources(path, items);
      }
    }

    /** One iteration of the rule loop of `validateScorecardTemplate`. */
    method CheckRule(path: string, index: nat, rule: Value)
      requires !rule.Nullish()
      modifies this
      ensures errors == old(errors) + RuleReport(path, index, rule).errors
      ensures warnings == old(warnings) + RuleReport(path, index, rule).warnings
      ensures validatedFiles == old(validatedFiles)
    {
      var missingRequired := MissingFields(rule, TemplateRequirements(Scorecard).nestedRequired);
      var level := Prop(rule, "level");
      assert RuleReport(path, index, rule) == Report(RuleErrors(path, index, missingRequired), RuleWarnings(path, index, level), None);
      if |missingRequired| > 0 {
        errors := errors + [Finding(path, ScorecardRuleError,
                                    RulePrefix + NatToString(index) + MissingRequiredInfix + Join(missingRequired, ", "))];
      }
      if Truthy(level) && level !in StandardLevels {
        warnings := warnings + [Finding(path, ScorecardRuleWarning,
                                        RulePrefix + NatToString(index) + NonStandardLevelInfix + ToDisplay(level))];
      }
    }

    /** The loop over `rules` of `validateScorecardTemplate`. */
    method CheckRules(path: string, items: seq<Value>) returns (thrown: Option<string>)
      modifies this
      ensures errors == old(errors) + ForEach(items, RuleCheck(path)).errors
      ensures warnings == old(warnings) + ForEach(items, RuleCheck(path)).warnings
      ensures thrown == ForEach(items, RuleCheck(path)).thrown
      ensures validatedFiles == old(validatedFiles)
    {
      thrown := None;
      ghost var done := NoFindings;
      var i := 0;
      while i < |items|
        invariant 0 <= i <= |items|
        invariant done == ForEach(items[..i], RuleCheck(path)) && done.thrown == None
        invariant errors == old(errors) + done.errors
        invariant warnings == old(warnings) + done.warnings
        invariant validatedFiles == old(validatedFiles)
      {
        var rule := items[i];
        ForEachExtend(items, RuleCheck(path), i);
        ghost var step := RuleReport(path, i, rule);
        if rule.Nullish() {
          assert step == Throw(ReadError(rule, "identifier"));
          ForEachThrowsAt(items, RuleCheck(path), i, ReadError(rule, "identifier"));
          return Some(ReadError(rule, "identifier"));
        }
        CheckRule(path, i, rule);
        ConcatAssoc(old(errors), done.errors, step.errors);
        ConcatAssoc(old(warnings), done.warnings, step.warnings);
        done := Then(done, step);
        i := i + 1;
      }
      ForEachWhole(items, RuleCheck(path));
    }

    /** `validateScorecardTemplate` */
    method ValidateScorecardTemplate(path: string, data: Value) returns (thrown: Option<string>)
      modifies this
      ensures errors == old(errors) + ScorecardReport(path, data).errors
      ensures warnings == old(warnings) + ScorecardReport(path, data).warnings
      ensures thrown == ScorecardReport(path, data).thrown
      ensures validatedFiles == old(validatedFiles)
    {
      if data.Nullish() {
        return Some(ReadError(data, "rules"));
      }
      thrown := None;
      var rules := Prop(data, "rules");
      if Truthy(rules) && rules.Arr? {
        var items := rules.items;
        thrown := CheckRules(path, items);
      }
    }

    /** Detection, then validation or the unknown-type warning: the part of the try block after parsing. */
    method ValidateDocument(path: string, data: Value) returns (thrown: Option<string>)
      modifies this
      ensures errors == old(errors) + DocumentReport(path, data).errors
      ensures warnings == old(warnings) + DocumentReport(path, data).warnings
      ensures thrown == DocumentReport(path, data).thrown
      ensures validatedFiles == old(validatedFiles)
    {
      var detected := DetectTemplateType(path, data);
      match detected {
        case Abrupt(message) => thrown := Some(message);
        case Normal(None) =>
          warnings := warnings + [Finding(path, UnknownTemplateType, UnknownTemplateMessage)];
          thrown := None;
        case Normal(Some(k)) => thrown := ValidateTemplate(path, data, k);
      }
    }

    /** The catch block shared by both file validators. */
    method CatchFailure(path: string, message: string, lenient: bool)
      modifies this
      ensures errors == old(errors) + Catch(path, message, lenient).errors
      ensures warnings == old(warnings) + Catch(path, message, lenient).warnings
      ensures validatedFiles == old(validatedFiles) + (if Catch(path, message, lenient).validated then 1 else 0)
    {
      if lenient && IsJqDowngrade(path, message) {
        warnings := warnings + [Finding(path, IntegrationTemplateWarning, JqWarning)];
        validatedFiles := validatedFiles + 1;
      } else {
        errors := errors + [Finding(path, TemplateParseError, message)];
      }
    }

    /** The end of a file validator: count the file, or run the catch block. */
    method Finish(path: string, thrown: Option<string>, lenient: bool)
      modifies this
      ensures thrown.None? ==> errors == old(errors) && warnings == old(warnings) && validatedFiles == old(validatedFiles) + 1
      ensures thrown.Some? ==>
        && errors == old(errors) + Catch(path, thrown.value, lenient).errors
        && warnings == old(warnings) + Catch(path, thrown.value, lenient).warnings
        && validatedFiles == old(validatedFiles) + (if Catch(path, thrown.value, lenient).validated then 1 else 0)
    {
      match thrown {
        case None => validatedFiles := validatedFiles + 1;
        case Some(message) => CatchFailure(path, message, lenient);
      }
    }

    /** The try block of `validateYamlTemplate`, up to the count. */
    method TryYamlTemplate(path: string, read: ReadOutcome, load: (string, Schema) -> ParseOutcome) returns (thrown: Option<string>)
      modifies this
      ensures errors == old(errors) + YamlTemplateTry(path, read, load).errors
      ensures warnings == old(warnings) + YamlTemplateTry(path, read, load).warnings
      ensures thrown == YamlTemplateTry(path, read, load).thrown
      ensures validatedFiles == old(validatedFiles)
    {
      match read {
        case ReadFailed(message) => thrown := Some(message);
        case Read(content) =>
          var parsed := LoadYaml(path, content, load).0;
          match parsed {
            case ParseFailed(message, _) => thrown := Some(message);
            case Parsed(data) => thrown := ValidateDocument(path, data);
          }
      }
    }

    /** `validateYamlTemplate`, with the file read and the YAML loader given as outcomes. */
    method ValidateYamlTemplate(path: string, read: ReadOutcome, load: (string, Schema) -> ParseOutcome)
      modifies this
      ensures errors == old(errors) + YamlTemplateFile(path, read, load).errors
      ensures warnings == old(warnings) + YamlTemplateFile(path, read, load).warnings
      ensures validatedFiles == old(validatedFiles) + (if YamlTemplateFile(path, read, load).validated then 1 else 0)
    {
      ghost var attempt := YamlTemplateTry(path, read, load);
      var thrown := TryYamlTemplate(path, read, load);
      Finish(path, thrown, true);
      if thrown.Some? {
        ConcatAssoc(old(errors), attempt.errors, Catch(path, thrown.value, true).errors);
        ConcatAssoc(old(warnings), attempt.warnings, Catch(path, thrown.value, true).warnings);
      }
    }

    /** The try block of `validateJsonTemplate`, up to the count. */
    method TryJsonTemplate(path: string, read: ReadOutcome, parseJson: string -> ParseOutcome) returns (thrown: Option<string>)
      modifies this
      ensures errors == old(errors) + JsonTemplateTry(path, read, parseJson).errors
      ensures warnings == old(warnings) + JsonTemplateTry(path, read, parseJson).warnings
      ensures thrown == JsonTemplateTry(path, read, parseJson).thrown
      ensures validatedFiles == old(validatedFiles)
    {
      match read {
        case ReadFailed(message) => thrown := Some(message);
        case Read(content) =>
          match parseJson(content) {
            case ParseFailed(message, _) => thrown := Some(message);
            case Parsed(data) => thrown := ValidateDocument(path, data);
          }
      }
    }

    /** `validateJsonTemplate`, with the file read and `JSON.parse` given as outcomes. */
    method ValidateJsonTemplate(path: string, read: ReadOutcome, parseJson: string -> ParseOutcome)
      modifies this
      ensures errors == old(errors) + JsonTemplateFile(path, read, parseJson).errors
      ensures warnings == old(warnings) + JsonTemplateFile(path, read, parseJson).warnings
      ensures validatedFiles == old(validatedFiles) + (if JsonTemplateFile(path, read, parseJson).validated then 1 else 0)
    {
      ghost var attempt := JsonTemplateTry(path, read, parseJson);
      var thrown := TryJsonTemplate(path, read, parseJson);
      Finish(path, thrown, false);
      if thrown.Some? {
        ConcatAssoc(old(errors), attempt.errors, Catch(path, thrown.value, false).errors);
        ConcatAssoc(old(warnings), attempt.warnings, Catch(path, thrown.value, false).warnings);
      }
    }

    /**
     * `validateAllTemplates`, over the discovered YAML and JSON files: the
     * findings and the count of `TemplateRun`, and the run passes exactly
     * when no error was recorded.
     */
    method ValidateAllTemplates(yamlFiles: seq<(string, ReadOutcome)>, jsonFiles: seq<(string, ReadOutcome)>,
                                load: (string, Schema) -> ParseOutcome, parseJson: string -> ParseOutcome)
      returns (success: bool)
      modifies this
      ensures errors == old(errors) + TemplateRun(yamlFiles, jsonFiles, load, parseJson).errors
      ensures warnings == old(warnings) + TemplateRun(yamlFiles, jsonFiles, load, parseJson).warnings
      ensures validatedFiles == old(validatedFiles) + TemplateRun(yamlFiles, jsonFiles, load, parseJson).validated
      ensures success <==> errors == []
    {
      var i := 0;
      while i < |yamlFiles|
        invariant 0 <= i <= |yamlFiles|
        invariant errors == old(errors) + RunFiles(yamlFiles[..i], YamlTemplateFileStep(load)).errors
        invariant warnings == old(warnings) + RunFiles(yamlFiles[..i], YamlTemplateFileStep(load)).warnings
        invariant validatedFiles == old(validatedFiles) + RunFiles(yamlFiles[..i], YamlTemplateFileStep(load)).validated
      {
        ghost var before := RunFiles(yamlFiles[..i], YamlTemplateFileStep(load));
        ValidateYamlTemplate(yamlFiles[i].0, yamlFiles[i].1, load);
        RunFilesExtend(yamlFiles, YamlTemplateFileStep(load), i);
        ConcatAssoc(old(errors), before.errors, YamlTemplateFile(yamlFiles[i].0, yamlFiles[i].1, load).errors);
        ConcatAssoc(old(warnings), before.warnings, YamlTemplateFile(yamlFiles[i].0, yamlFiles[i].1, load).warnings);
        i := i + 1;
      }
      assert yamlFiles[..i] == yamlFiles;
      ghost var yaml := RunFiles(yamlFiles, YamlTemplateFileStep(load));
      ghost var mid, midWarnings, midCount := errors, warnings, validatedFiles;
      var j := 0;
      while j < |jsonFiles|
        invariant 0 <= j <= |jsonFiles|
        invariant errors == mid + RunFiles(jsonFiles[..j], JsonTemplateFileStep(parseJson)).errors
        invariant warnings == midWarnings + RunFiles(jsonFiles[..j], JsonTemplateFileStep(parseJson)).warnings
        invariant validatedFiles == midCount + RunFiles(jsonFiles[..j], JsonTemplateFileStep(parseJson)).validated
      {
        ghost var before := RunFiles(jsonFiles[..j], JsonTemplateFileStep(parseJson));
        ValidateJsonTemplate(jsonFiles[j].0, jsonFiles[j].1, parseJson);
        RunFilesExtend(jsonFiles, JsonTemplateFileStep(parseJson), j);
        ConcatAssoc(mid, before.errors, JsonTemplateFile(jsonFiles[j].0, jsonFiles[j].1, parseJson).errors);
        ConcatAssoc(midWarnings, before.warnings, JsonTemplateFile(jsonFiles[j].0, jsonFiles[j].1, parseJson).warnings);
        j := j + 1;
      }
      assert jsonFiles[..j] == jsonFiles;
      ghost var json := RunFiles(jsonFiles, JsonTemplateFileStep(parseJson));
      ConcatAssoc(old(errors), yaml.errors, json.errors);
      ConcatAssoc(old(warnings), yaml.warnings, json.warnings);
      success := |errors| == 0;
    }
  }
}
