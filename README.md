# Workshop content validators and analytics tracker, in Dafny

This project models the rule engines of a Port workshop repository's
`validation/` tools, plus its browser-side analytics tracker. It proves what
each rule reports.

- **Template validator** (`validate-templates.js`). It decides whether a parsed
  YAML or JSON document is a blueprint, an action, an integration or a
  scorecard template. It runs the table of required and recommended top-level
  fields, then the nested checks for that kind. It counts each file that
  finishes, or that fails in the tolerated way.
- **Syntax validator** (`validate-syntax.js`). Every YAML and JSON file must
  parse. Files whose path names a Port entity kind get a few structural checks.
  YAML loading on integration paths falls back from the CORE schema to the JSON
  schema. A "missed comma" failure there is downgraded to a warning.
- **Challenge validator** (`validate-challenges.js`). It detects the difficulty
  from the path and checks the required and recommended section headings. It
  also checks step-by-step markers, the objective text, the bulleted success
  criteria, a weighted keyword complexity score, Port vocabulary and code
  fences. It tallies findings per difficulty.
- **Link checker** (`validate-links.js`). It extracts Markdown and bare
  http(s) links from a text. A run-wide set of checked URLs means no URL is
  probed twice. Denylisted URLs are skipped with a warning. Every other URL is
  probed with HEAD, falling back to GET.
- **Analytics tracker** (`workshop-analytics.js`). `track` fills an event queue
  and `flush` drains it in batches. A batch whose `fetch` is rejected goes back
  to the head of the queue. `optOut`/`optIn` switch tracking off and on. The
  module name is parsed out of a URL.

## How the model is organised

The modules follow the program.

| Module | File | Contents |
|---|---|---|
| `Options` | `options.dfy` | Shared datatype. |
| `Strings` | `strings.dfy` | Substrings, ASCII lower-casing, `trim`, decimal rendering, counting matches, UTF-16 length. |
| `JsValues` | `js_values.dfy` | JavaScript values, truthiness, property access (including its TypeError on `null`/`undefined`), and `fields.filter(f => !v[f])`. |
| `Findings` | `findings.dfy` | Findings, the `Report` of one rule pass, `forEach`, a run over files, and the YAML schema fallback. |
| `TemplateRules` | `templates.dfy` | The model of `validation/validate-templates.js`. |
| `SyntaxRules` | `syntax.dfy` | The model of `validation/validate-syntax.js`. |
| `ChallengeRules` | `challenges.dfy` | The model of `validation/validate-challenges.js`. |
| `LinkChecker` | `links.dfy` | The model of `validation/validate-links.js`. |
| `Analytics` | `analytics.dfy` | The model of `validation/workshop-analytics.js`. |

Each validator appears twice, and the two are proved to agree:

- A pure specification function says what one rule pass pushes onto `errors`
  and `warnings`. It is a `Report`, and it carries the exception that cut the
  pass short, if any. Findings pushed before a throw stay pushed, as they do in
  the program.
- A class with the program's own fields (`errors`, `warnings`,
  `validatedFiles`, `checkedLinks`, `eventQueue`, `config`) has methods that
  push in place with the program's loops. Each method's `ensures` ties the new
  state to the specification function.

The lemmas then state what the rules promise. They give how many findings,
which severity, which fields are listed, and when a file counts as validated.

Some things are parameters of the operations that need them:

- the file system read (`ReadOutcome`);
- the YAML loader and `JSON.parse` (`ParseOutcome`, with js-yaml's `mark`);
- the network (a function from HEAD/GET and URL to a status or a failure code);
- the browser (`Env`: clock, `location.href`, `location.pathname`);
- `navigator.sendBeacon`'s presence;
- the generated user and session ids.

## Model

| member | source | states |
|---|---|---|
| JsValues.MissingFieldsMeaning | validation/validate-templates.js:176-193 | `required.filter(f => !data[f])` lists a field exactly when the table has it and the document's value for it is falsy; the list is empty exactly when every table field is truthy |
| JsValues.MissingFieldsDependOnTableOnly | validation/validate-templates.js:176-193 | two documents that agree on the table's fields lack the same fields |
| Findings.CountRead | validation/validate-challenges.js:47-49 | never more than the number of files |
| Findings.RunFiles | validation/validate-templates.js:56-58 | a run over files counts each file at most once |
| Findings.RunFilesClean | validation/validate-templates.js:66 | a run records no error exactly when no file records one, which is when `errors.length === 0` passes the run |
| Findings.RunFilesCountsRead | validation/validate-challenges.js:47-49 | when a file counts exactly when it was read, the run counts the readable files |
| Findings.LoadYaml | validation/validate-templates.js:73-87 | integration paths load with the CORE schema and try the JSON schema only when CORE throws; other paths use the default schema once; the outcome is that of the last schema tried |
| Findings.ForEachStopsAtThrow | validation/validate-templates.js:235-251 | once one iteration of a `forEach` has thrown, the remaining items add nothing |
| Findings.ForEachThrowsAt | validation/validate-templates.js:235-251 | the first iteration that throws ends the `forEach` with exactly what the earlier iterations pushed and that exception |
| Findings.ForEachCategories | validation/validate-templates.js:235-251 | when every iteration pushes errors of one category and warnings of another, so does the whole loop |
| Findings.CountCategoryConcat | validation/validate-templates.js:212-254 | the number of findings of a category in two runs of pushes is the sum of the two counts |
| TemplateRules.TemplateRequirements | validation/validate-templates.js:17-44 | every kind has a non-empty required-field table (the four tables are the program's) |
| TemplateRules.DetectionOrder | validation/validate-templates.js:153-169 | a kind named by the path (case-sensitive) wins, the highest-priority one among blueprint > action > integration > scorecard; only when the path names none is the shape consulted in the same order; no kind is detected exactly when nothing matches; only a null/undefined document with an unhelpful path throws |
| TemplateRules.DetectionByPath | validation/validate-templates.js:157-160 | the path part of the detection order |
| TemplateRules.DetectionByShape | validation/validate-templates.js:163-166 | with no kind in the path, the detected kind is the highest-priority shape the document has |
| TemplateRules.ShapeKindOrder | validation/validate-templates.js:163-166 | the structural test picks the first matching shape in priority order, and none exactly when no shape matches |
| TemplateRules.TopLevelReport | validation/validate-templates.js:171-193 | the top-level pass throws exactly on a null/undefined document and gives at most one error and one warning |
| TemplateRules.TopLevelFindings | validation/validate-templates.js:176-193 | one error exactly when a required field is falsy, listing every such field in table order joined by ", "; one warning likewise for recommended fields; no error when all required fields are truthy |
| TemplateRules.Settle | validation/validate-templates.js:103-121 | a file counts as validated exactly when its try block completes or (YAML only) an integration path fails with "missed comma", which adds one warning; any other failure appends one Template Parse Error after the findings already pushed |
| TemplateRules.Lacking | validation/validate-templates.js:235-251 | the number of definitions without a truthy field is at most the number of definitions |
| TemplateRules.DefinitionLoopCounts | validation/validate-templates.js:235-251 | over defined definitions the loop never throws, pushes one error per definition without `type` and one warning per definition without `title`, each of the loop's own category |
| TemplateRules.BlueprintFindings | validation/validate-templates.js:212-254 | with a truthy `schema`: exactly one schema error without `properties`, exactly one schema warning without `required`, one property error per property lacking `type`, one property warning per property lacking `title`, and nothing else |
| TemplateRules.SchemaHeadFindings | validation/validate-templates.js:215-232 | the schema-level checks give exactly the `properties` error and the `required` warning |
| TemplateRules.PropertyLoopFindings | validation/validate-templates.js:235-251 | the property loop gives exactly the per-property `type` errors and `title` warnings |
| TemplateRules.TriggerFindings | validation/validate-templates.js:259-296 | a truthy trigger gives exactly one trigger warning when it is self-service without truthy `userInputs`, and never an invocation error |
| TemplateRules.TriggerHeadFindings | validation/validate-templates.js:259-276 | the trigger-level check alone: the self-service warning exactly as above |
| TemplateRules.InputLoopFindings | validation/validate-templates.js:279-296 | the input loop never pushes an invocation error nor a trigger warning |
| TemplateRules.ActionFindings | validation/validate-templates.js:256-307 | the self-service warning is pushed at most once, exactly when a truthy trigger is self-service without truthy `userInputs`; unless the input loop threw, one invocation error exactly when a truthy `invocationMethod` has no truthy `type` |
| TemplateRules.InvocationFindings | validation/validate-templates.js:300-306 | the invocation check gives no warning and exactly one error when a truthy `invocationMethod` lacks `type` |
| TemplateRules.MappingFindings | validation/validate-templates.js:324-339 | a truthy `port.entity.mappings` gives one error for a missing `identifier` and a separate one for a missing `blueprint`; otherwise no mapping error |
| TemplateRules.ResourceFindings | validation/validate-templates.js:312-340 | resource `i` gives one error listing whichever of `kind`/`port` are falsy, plus the mapping errors, and no warning |
| TemplateRules.ResourceHeadFindings | validation/validate-templates.js:314-321 | the `kind`/`port` error appears exactly when one of them is falsy |
| TemplateRules.ResourceIgnoresOtherFields | validation/validate-templates.js:312-340 | the recommended `selector` field never influences the resource findings |
| TemplateRules.ResourceLoopFindings | validation/validate-templates.js:312-340 | the resource loop pushes no warning, only resource and mapping errors, and runs to the end when every resource is defined |
| TemplateRules.IntegrationFindings | validation/validate-templates.js:309-342 | an integration never gets a warning; a `resources` that is not a truthy array gives no nested finding |
| TemplateRules.RuleFindings | validation/validate-templates.js:344-368 | a scorecard rule gets at most one error, exactly when `identifier`, `title` or `level` is falsy, and at most one warning, exactly when a truthy `level` is not Gold, Silver or Bronze; a rule without `level` gets the error and no level warning |
| TemplateRules.RuleErrorFindings | validation/validate-templates.js:349-356 | the required-field half of the rule check |
| TemplateRules.RuleLevelFindings | validation/validate-templates.js:359-365 | the level half of the rule check: a non-standard level is a warning, never an error |
| TemplateRules.RuleIgnoresOtherFields | validation/validate-templates.js:344-368 | the recommended `description` field never influences the rule findings |
| TemplateRules.TemplateValidator.constructor | validation/validate-templates.js:10-15 | a validator starts with no findings and no validated files |
| TemplateRules.TemplateValidator.CheckTopLevel | validation/validate-templates.js:176-193 | pushes exactly the top-level findings |
| TemplateRules.TemplateValidator.ValidateTemplate | validation/validate-templates.js:171-210 | pushes the top-level findings, then the kind's nested findings unless a throw intervened |
| TemplateRules.TemplateValidator.CheckSchema | validation/validate-templates.js:215-232 | pushes exactly the schema-level findings |
| TemplateRules.TemplateValidator.CheckDefinition | validation/validate-templates.js:235-251 | one loop iteration pushes the definition's `type` error and `title` warning |
| TemplateRules.TemplateValidator.CheckDefinitions | validation/validate-templates.js:235-251 | the in-place loop over definitions pushes what the `forEach` specification does and stops at the first throw |
| TemplateRules.TemplateValidator.ValidateBlueprintTemplate | validation/validate-templates.js:212-254 | pushes exactly the blueprint findings, and reports the same exception |
| TemplateRules.TemplateValidator.CheckTrigger | validation/validate-templates.js:259-276 | pushes exactly the trigger-level findings |
| TemplateRules.TemplateValidator.ValidateTrigger | validation/validate-templates.js:259-297 | pushes the trigger findings, then those of the input loop |
| TemplateRules.TemplateValidator.ValidateActionTemplate | validation/validate-templates.js:256-307 | pushes exactly the action findings, and reports the same exception |
| TemplateRules.TemplateValidator.CheckInvocation | validation/validate-templates.js:300-306 | pushes exactly the invocation error, and no warning |
| TemplateRules.TemplateValidator.CheckMappings | validation/validate-templates.js:324-339 | pushes exactly the mapping errors of one resource |
| TemplateRules.TemplateValidator.CheckResource | validation/validate-templates.js:312-340 | pushes exactly the findings of one resource |
| TemplateRules.TemplateValidator.CheckResources | validation/validate-templates.js:312-340 | the in-place resource loop agrees with its `forEach` specification |
| TemplateRules.TemplateValidator.ValidateIntegrationTemplate | validation/validate-templates.js:309-342 | pushes exactly the integration findings |
| TemplateRules.TemplateValidator.CheckRule | validation/validate-templates.js:347-366 | pushes exactly the findings of one rule |
| TemplateRules.TemplateValidator.CheckRules | validation/validate-templates.js:347-366 | the in-place rule loop agrees with its `forEach` specification |
| TemplateRules.TemplateValidator.ValidateScorecardTemplate | validation/validate-templates.js:344-368 | pushes exactly the scorecard findings |
| TemplateRules.TemplateValidator.ValidateDocument | validation/validate-templates.js:89-100 | detection, then validation or the one Unknown Template Type warning |
| TemplateRules.TemplateValidator.CatchFailure | validation/validate-templates.js:103-121 | the catch block pushes the downgrade warning and counts the file, or pushes one parse error |
| TemplateRules.TemplateValidator.Finish | validation/validate-templates.js:102-121 | a completed try block counts the file; a throw runs the catch block |
| TemplateRules.TemplateValidator.TryYamlTemplate | validation/validate-templates.js:69-100 | the YAML try block: read, load with the schema fallback, detect and validate |
| TemplateRules.TemplateValidator.ValidateYamlTemplate | validation/validate-templates.js:69-122 | pushes what the YAML file specification does and counts the file exactly when it says so |
| TemplateRules.TemplateValidator.TryJsonTemplate | validation/validate-templates.js:124-140 | the JSON try block: read, parse, detect and validate |
| TemplateRules.TemplateValidator.ValidateJsonTemplate | validation/validate-templates.js:124-151 | pushes what the JSON file specification does (no downgrade for JSON) and counts the file exactly when it says so |
| TemplateRules.TemplateRun | validation/validate-templates.js:56-63 | every YAML file, then every JSON file, each adding its own findings in order; no error exactly when no file has one; each file counts at most once |
| TemplateRules.TemplateValidator.ValidateAllTemplates | validation/validate-templates.js:46-67 | appends exactly the findings of `TemplateRun` and adds its count; the run passes exactly when no error was recorded |
| SyntaxRules.MissingError | validation/validate-syntax.js:120-126 | at most one error, absent exactly when every required field is truthy, listing the missing fields joined by ", " |
| SyntaxRules.PortBlueprintReport | validation/validate-syntax.js:117-139 | no finding unless the path contains "blueprint"; then the required-field error, and one warning exactly when a truthy `schema` lacks `properties` |
| SyntaxRules.PortIntegrationReport | validation/validate-syntax.js:141-170 | no finding unless the path contains "integration"; a missing or non-array `resources` is exactly one error and no per-resource finding |
| SyntaxRules.PortActionReport | validation/validate-syntax.js:172-194 | no finding unless the path contains "action"; the required-field error, and exactly one warning for a self-service trigger without `userInputs` |
| SyntaxRules.PortScorecardReport | validation/validate-syntax.js:196-222 | no finding unless the path contains "scorecard" |
| SyntaxRules.ResourceFindings | validation/validate-syntax.js:153-169 | resource `i` gets a `kind` error and a `port.entity` error independently; both may fire |
| SyntaxRules.IncompleteCount | validation/validate-syntax.js:211-220 | the number of incomplete rules is at most the number of rules |
| SyntaxRules.RuleLoopCounts | validation/validate-syntax.js:211-220 | exactly one error per incomplete rule, however many of its fields are missing, and never a throw |
| SyntaxRules.ScorecardFindings | validation/validate-syntax.js:196-222 | at most one required-field error plus one error per incomplete rule, no warning |
| SyntaxRules.YamlCatch | validation/validate-syntax.js:74-93 | a missed-comma failure on an integration path becomes one warning and counts the file; any other failure is one error carrying `mark.line + 1` when there is a mark |
| SyntaxRules.YamlParseFailure | validation/validate-syntax.js:48-94 | a YAML parse failure counts the file exactly in the downgrade case; on an integration path the JSON schema was tried only after CORE failed |
| SyntaxRules.YamlChecksOutcome | validation/validate-syntax.js:67-93 | a parsed YAML file whose checks complete counts with exactly their findings; a throwing check is caught like a parse failure without a mark |
| SyntaxRules.JsonOutcome | validation/validate-syntax.js:96-115 | a JSON file counts exactly when it is read, parses and its checks complete; otherwise it ends with one JSON Syntax Error, which is its only finding when it cannot be read or parsed |
| SyntaxRules.SyntaxValidator.constructor | validation/validate-syntax.js:10-14 | a validator starts with no findings and no validated files |
| SyntaxRules.SyntaxValidator.PushMissing | validation/validate-syntax.js:120-126 | pushes exactly the required-field error |
| SyntaxRules.SyntaxValidator.ValidatePortBlueprint | validation/validate-syntax.js:117-139 | pushes exactly the blueprint findings |
| SyntaxRules.SyntaxValidator.CheckResource | validation/validate-syntax.js:153-169 | pushes exactly the findings of one resource |
| SyntaxRules.SyntaxValidator.ValidatePortIntegration | validation/validate-syntax.js:141-170 | pushes exactly the integration findings |
| SyntaxRules.SyntaxValidator.ValidatePortAction | validation/validate-syntax.js:172-194 | pushes exactly the action findings |
| SyntaxRules.SyntaxValidator.CheckRules | validation/validate-syntax.js:211-221 | the in-place rule loop agrees with its specification |
| SyntaxRules.SyntaxValidator.ValidatePortScorecard | validation/validate-syntax.js:196-222 | pushes exactly the scorecard findings |
| SyntaxRules.SyntaxValidator.RunChecks | validation/validate-syntax.js:68-103 | blueprint and integration checks run on YAML files, action and scorecard checks on JSON files, in order |
| SyntaxRules.SyntaxValidator.Record | validation/validate-syntax.js:74-93 | pushes a catch block's findings and counts the file when it says so |
| SyntaxRules.SyntaxValidator.ValidateYamlFile | validation/validate-syntax.js:48-94 | pushes what the YAML file specification does and counts the file exactly when it says so |
| SyntaxRules.SyntaxValidator.ValidateJsonFile | validation/validate-syntax.js:96-115 | pushes what the JSON file specification does and counts the file exactly when it says so |
| SyntaxRules.SyntaxRun | validation/validate-syntax.js:35-42 | every YAML file, then every JSON file, each adding its own findings in order; no error exactly when no file has one; each file counts at most once |
| SyntaxRules.SyntaxValidator.ValidateAllFiles | validation/validate-syntax.js:16-46 | appends exactly the findings of `SyntaxRun` and adds its count; the run passes exactly when no error was recorded |
| ChallengeRules.DifficultyPriority | validation/validate-challenges.js:84-90 | on the lower-cased path, beginner > intermediate > advanced; none exactly when no name occurs |
| ChallengeRules.ChallengeRequirements | validation/validate-challenges.js:16-37 | only beginners need step-by-step instructions, and every difficulty requires the title and the objective |
| ChallengeRules.MissingSectionsMeaning | validation/validate-challenges.js:96-111 | a section is listed exactly when the table has it and the text lacks it; none exactly when every section occurs |
| ChallengeRules.FirstSectionEnd | validation/validate-challenges.js:140-165 | the lazy body ends at the first `\n##` or final `\n` at or after the start |
| ChallengeRules.SpaceRunEnd | validation/validate-challenges.js:140-165 | `\s*` takes the longest run of JavaScript white space |
| ChallengeRules.BodyAfter | validation/validate-challenges.js:140-165 | a captured section body never contains `\n##` |
| ChallengeRules.SectionFrom | validation/validate-challenges.js:140-165 | a section is found only when its heading occurs, and its body holds no `\n##` |
| ChallengeRules.SectionRoundTrip | validation/validate-challenges.js:140 | a text made of the first occurrence of a heading, a line break, a body that starts with a visible character and holds no `\n##`, then the next `##` heading, reads back as exactly that body |
| ChallengeRules.BulletsBelow | validation/validate-challenges.js:168 | at most one bullet per position |
| ChallengeRules.BulletsBelowZero | validation/validate-challenges.js:168 | no bullet is counted exactly when no line starts with `-` or `*` followed by white space |
| ChallengeRules.ScoreMonotone | validation/validate-challenges.js:228-253 | the complexity score never decreases when an indicator count grows |
| ChallengeRules.WeightedSumMonotone | validation/validate-challenges.js:245-250 | the weighted sum is monotone in every count |
| ChallengeRules.ComplexityFormula | validation/validate-challenges.js:228-253 | the rounded score equals the integer-weighted case-insensitive keyword sum plus half the code fences rounded up |
| ChallengeRules.DoubledSumFormula | validation/validate-challenges.js:232-243 | the weighted sum with the doubled weights 2,4,2,4,2,6,4,4,4,1 (twice the program's, so the fence weight 0.5 becomes 1) unfolds term by term |
| ChallengeRules.StructureFindings | validation/validate-challenges.js:92-134 | at most one structure error, present exactly when a required section is missing, and it is the difficulty's error naming every missing required section in table order, comma-joined; the first warning names every missing recommended section the same way; the step-by-step warning appears exactly for a beginner challenge with no line starting with digits and `.` and no `step <digits>` |
| ChallengeRules.TitleNeverMissingBesideObjective | validation/validate-challenges.js:96-98 | `# ` is never reported missing when `## Objective` is present |
| ChallengeRules.CriteriaFindings | validation/validate-challenges.js:164-183 | in the success-criteria section, zero bullet lines is one error, exactly one is one warning, two or more nothing; no section, no finding |
| ChallengeRules.ComplexityFindings | validation/validate-challenges.js:185-193 | exceeding the difficulty's maximum (3/6/10) is one warning and never an error |
| Strings.Utf16Length | validation/validate-challenges.js:143 | `.length` counts UTF-16 code units: between one and two per character |
| Strings.Utf16LengthBmp | validation/validate-challenges.js:143 | the code-unit length is the character count exactly when no character lies outside the Basic Multilingual Plane |
| ChallengeRules.ObjectiveFindings | validation/validate-challenges.js:139-162 | a trimmed objective under 50 UTF-16 code units and one without any action verb (case-insensitive) give separate warnings |
| ChallengeRules.CodeFindings | validation/validate-challenges.js:207-225 | no fence gives one warning below advanced and none for advanced; fences without a yaml/json/yml one give one warning |
| ChallengeRules.ChallengeOutcome | validation/validate-challenges.js:55-82 | every readable file counts; an unknown difficulty gives exactly one warning and no other check; a read failure is one Challenge Read Error |
| ChallengeRules.Bucket | validation/validate-challenges.js:262-276 | every finding falls in one of the four tally buckets |
| ChallengeRules.BucketsAddUp | validation/validate-challenges.js:262-276 | the four bucket counts add up to the number of findings |
| ChallengeRules.ChallengeRunCounts | validation/validate-challenges.js:47-49 | a run over challenge files counts exactly the files that could be read |
| ChallengeRules.ChallengeValidator.constructor | validation/validate-challenges.js:9-14 | a validator starts with no findings and no validated files |
| ChallengeRules.ChallengeValidator.ValidateChallengeStructure | validation/validate-challenges.js:92-134 | pushes exactly the structure findings |
| ChallengeRules.ChallengeValidator.CheckObjective | validation/validate-challenges.js:139-162 | pushes exactly the objective warnings |
| ChallengeRules.ChallengeValidator.CheckCriteria | validation/validate-challenges.js:164-183 | pushes exactly the success-criteria findings |
| ChallengeRules.ChallengeValidator.AssessComplexity | validation/validate-challenges.js:228-253 | the accumulating loop over the indicators computes the complexity score |
| ChallengeRules.ChallengeValidator.CheckComplexity | validation/validate-challenges.js:185-193 | pushes exactly the complexity warning |
| ChallengeRules.ChallengeValidator.CheckTermsAndCode | validation/validate-challenges.js:195-225 | pushes exactly the terminology and code-example warnings |
| ChallengeRules.ChallengeValidator.ValidateChallengeContent | validation/validate-challenges.js:136-226 | pushes exactly the content findings, in the program's order |
| ChallengeRules.ChallengeValidator.ValidateChallenge | validation/validate-challenges.js:55-82 | pushes what the file specification does and counts the file exactly when it was read |
| ChallengeRules.ChallengeValidator.ValidateAllChallenges | validation/validate-challenges.js:39-53 | appends exactly each file's findings in file order; the count grows by the number of readable files; the run passes exactly when no error was recorded |
| ChallengeRules.ChallengeValidator.TallyByDifficulty | validation/validate-challenges.js:262-276 | the per-difficulty error counts add up to the number of errors, the warning counts to the number of warnings |
| LinkChecker.IndexOf | validation/validate-links.js:59 | the first occurrence of a character at or after a position |
| LinkChecker.MarkdownAt | validation/validate-links.js:59 | a `[text](url)` match at a position ends after it |
| LinkChecker.NextMarkdown | validation/validate-links.js:59-61 | the next match of the markdown regex ends after the search position |
| LinkChecker.UrlRunEnd | validation/validate-links.js:73 | `[^\s\)]+` stops at white space or `)` |
| LinkChecker.SchemeLength | validation/validate-links.js:73 | `https?://` is matched exactly |
| LinkChecker.BareAt | validation/validate-links.js:73 | a bare URL match at a position ends after it |
| LinkChecker.NextBare | validation/validate-links.js:73-74 | the next bare URL match ends after the search position |
| LinkChecker.MarkdownLinksShape | validation/validate-links.js:59-70 | only external links are kept from the markdown pass, all of markdown type |
| LinkChecker.BareUrlsShape | validation/validate-links.js:73-83 | every bare URL starts with `http://` or `https://` and holds no white space and no `)` |
| LinkChecker.NextBareIsMatch | validation/validate-links.js:73 | each bare match is external and clean |
| LinkChecker.AddBareAllKeeps | validation/validate-links.js:72-83 | adding bare URLs keeps every link external, markdown links first, and no bare URL equal to an earlier link's URL |
| LinkChecker.ExtractedLinksShape | validation/validate-links.js:55-89 | every extracted link is external; markdown links precede bare ones; a bare URL never repeats an earlier URL and holds no white space or `)`; every bare URL in the text is among the links |
| LinkChecker.Request | validation/validate-links.js:112-142 | a request settles only with a status below 500 |
| LinkChecker.ProbeClassification | validation/validate-links.js:100-165 | a settled HEAD decides (no finding below 400, one Broken Link `HTTP <status>: <url>` from 400); a rejected HEAD hands over to GET with the same classification; a rejected GET is one Link Error; never more than one finding |
| LinkChecker.VisitFindings | validation/validate-links.js:92-169 | a URL already checked changes nothing; a new one is added to the set first, then gives one Link Skipped warning and no error when denylisted, or at most one error and no warning when probed |
| LinkChecker.VisitAllBound | validation/validate-links.js:41-98 | over a file's links the checked set grows by exactly their URLs, findings are only appended, and at most one finding per newly checked URL |
| LinkChecker.UrlsSnoc | validation/validate-links.js:98 | the URLs of the links, one link at a time |
| LinkChecker.LinkValidator.constructor | validation/validate-links.js:10-16 | a validator starts with no findings, no checked links and no validated files |
| LinkChecker.LinkValidator.CollectMarkdownLinks | validation/validate-links.js:58-70 | the `exec` loop collects exactly the external markdown links |
| LinkChecker.LinkValidator.CollectBareLinks | validation/validate-links.js:72-83 | the `exec` loop adds exactly the new bare URLs |
| LinkChecker.LinkValidator.ExtractLinks | validation/validate-links.js:55-86 | returns the extracted links |
| LinkChecker.LinkValidator.ValidateLink | validation/validate-links.js:92-169 | updates findings and the checked set as the visit specification says, and probes a URL only if it was never checked and is not denylisted, so no URL is probed twice |
| LinkChecker.LinkValidator.ValidateLinks | validation/validate-links.js:41-43 | visits the file's links in order |
| LinkChecker.LinkValidator.ValidateLinksInFile | validation/validate-links.js:34-53 | a read failure is one File Read Error and no count; a read file has its links visited and is counted |
| LinkChecker.LinkRunGrows | validation/validate-links.js:26-28 | over a run of files the checked set grows by exactly the URLs of the readable files' links, findings are only appended, and each unreadable file adds an error |
| LinkChecker.LinkValidator.ValidateAllLinks | validation/validate-links.js:18-32 | the findings and checked set become those of the files visited in order with one shared checked set; the count grows by the number of readable files; the run passes exactly when no error was recorded |
| Analytics.ResolveConfig | validation/workshop-analytics.js:7-16 | batch size 10 when absent or 0, otherwise the given one; tracking on unless `enabled` is exactly `false`; a missing endpoint and user id take their defaults |
| Analytics.Assign | validation/workshop-analytics.js:226-236 | `{...props, [key]: value}` sets that key, keeps every other key's value and the existing key order |
| Analytics.MakeEvent | validation/workshop-analytics.js:226-236 | the queued event's `userId`/`sessionId`/`url` always come from the configuration and the location, overriding the caller; a truthy caller `timestamp`/`module` is kept, otherwise the clock and the current module; every other caller property is unchanged |
| Analytics.Remove | validation/workshop-analytics.js:311-317 | removing a pending batch shortens the list by one |
| Analytics.AfterFlush | validation/workshop-analytics.js:291-319 | flushing an empty queue changes nothing; otherwise the queue is empty afterwards |
| Analytics.AfterTrack | validation/workshop-analytics.js:223-247 | a disabled tracker is unchanged by `track` |
| Analytics.AfterRejection | validation/workshop-analytics.js:311-317 | a rejection touches neither configuration nor sent batches |
| Analytics.AfterResolution | validation/workshop-analytics.js:305-311 | a resolution touches neither configuration nor queue |
| Analytics.FlattenAppend | validation/workshop-analytics.js:294-302 | the events of two lists of batches concatenate |
| Analytics.FlattenSnoc | validation/workshop-analytics.js:294-302 | adding a batch adds its events at the end |
| Analytics.FlattenAround | validation/workshop-analytics.js:311-317 | the events around one batch |
| Analytics.FlattenRemove | validation/workshop-analytics.js:311-317 | removing a batch removes exactly its events |
| Analytics.FlushKeepsEvents | validation/workshop-analytics.js:291-319 | a flush loses and invents no event; a non-empty queue becomes exactly one new batch, in queue order (sent with `sendBeacon`, in flight with `fetch`), and the queue is empty |
| Analytics.TrackAddsOneEvent | validation/workshop-analytics.js:223-247 | an enabled `track` adds exactly its one event; the queue grows by it at the tail unless the batch size is reached, when the whole queue, event included, goes out as one batch |
| Analytics.TrackKeepsQueueShort | validation/workshop-analytics.js:244-246 | with batch size at least 1, the queue is shorter than the batch size after an enabled `track` |
| Analytics.BeaconKeepsOrder | validation/workshop-analytics.js:238-302 | with `sendBeacon`, the sent batches followed by the queue list the tracked events in order |
| Analytics.RejectionRequeues | validation/workshop-analytics.js:311-317 | a rejected `fetch` puts its batch back ahead of the events queued since, losing nothing |
| Analytics.ResolutionKeepsEvents | validation/workshop-analytics.js:305-311 | a settled `fetch` moves its batch to the sent batches, losing nothing |
| Analytics.OptOutStopsTracking | validation/workshop-analytics.js:343-348 | after `optOut` tracking is off and the queue empty; the opt-out event is never queued, so no event is added or lost |
| Analytics.OptInRecordsOneEvent | validation/workshop-analytics.js:350-354 | after `optIn` tracking is on and exactly one `analytics_opt_in` event was added |
| Analytics.DigitsEnd | validation/workshop-analytics.js:252 | `\d+` takes the longest run of digits |
| Analytics.SegmentEnd | validation/workshop-analytics.js:252 | `[^\/]+` takes the longest run without `/` |
| Analytics.MatchAt | validation/workshop-analytics.js:252 | the regular expression tried at one index finds the match starting there, or there is none |
| Analytics.FirstMatch | validation/workshop-analytics.js:252-253 | the leftmost match at or after a position, or none at all |
| Analytics.ModuleOf | validation/workshop-analytics.js:250-259 | `'unknown'` exactly when no `modules/<digits>-<segment>` occurs, otherwise `<digits>-<segment>` of a match |
| Analytics.ModuleOfRoundTrip | validation/workshop-analytics.js:256-259 | a path reaching `modules/<digits>-<segment>` (then `/` or the end) before any `m` yields exactly `<digits>-<segment>` |
| Analytics.PathMatchesAt | validation/workshop-analytics.js:252 | such a path matches right after its prefix |
| Analytics.MatchFromPieces | validation/workshop-analytics.js:252-253 | a text laid out as `modules/<digits>-<segment>` matches there with that name |
| Analytics.NoMatchWithout | validation/workshop-analytics.js:252 | no match starts inside a prefix without `m` |
| Analytics.MatchesAreGreedy | validation/workshop-analytics.js:252 | a start index has at most one match |
| Analytics.FlushAccounts | validation/workshop-analytics.js:291-319 | a flush keeps the tracker's events equal to those tracked (and in order with `sendBeacon`) |
| Analytics.PushAccounts | validation/workshop-analytics.js:238 | queueing an event keeps the account with that event added |
| Analytics.RejectionAccounts | validation/workshop-analytics.js:311-317 | a re-queue keeps the account |
| Analytics.ResolutionAccounts | validation/workshop-analytics.js:305-311 | a settled `fetch` keeps the account |
| Analytics.WorkshopAnalytics.constructor | validation/workshop-analytics.js:7-64 | the configuration has its defaults, and an enabled tracker records the `session_start` event |
| Analytics.WorkshopAnalytics.Flush | validation/workshop-analytics.js:291-319 | `flush` in place, agreeing with its specification and keeping every tracked event accounted for |
| Analytics.WorkshopAnalytics.Track | validation/workshop-analytics.js:223-247 | `track` in place; the event is recorded exactly when tracking is enabled |
| Analytics.WorkshopAnalytics.FetchRejected | validation/workshop-analytics.js:311-317 | the `catch` callback re-queues the batch in place |
| Analytics.WorkshopAnalytics.FetchResolved | validation/workshop-analytics.js:305-311 | a settled `fetch` retires its batch |
| Analytics.WorkshopAnalytics.OptOut | validation/workshop-analytics.js:343-348 | `optOut` in place; nothing is recorded |
| Analytics.WorkshopAnalytics.OptIn | validation/workshop-analytics.js:350-354 | `optIn` in place; exactly the opt-in event is recorded |

## Left out

- File discovery (`glob`), the `console`/`chalk` output of every validator and the text of `printResults`: these are I/O. Only the per-difficulty tally behind the challenge report is modelled.
- `fs.readFileSync`, js-yaml and `JSON.parse`: parameters giving a text, a document or an error message with js-yaml's optional `mark`. Parser internals are not modelled.
- axios, its timeout, its redirects and the 100 ms pause between links: the network is a function from HEAD/GET and URL to a status or a failure code, as axios reports it with `validateStatus: status < 500`.
- Asynchrony: every `await` is modelled as sequential, which is how the loops run.
- `validation/environment-check.js` and `validation/validate-all.js` are not part of this model. The first is network probes and tool detection; the second only runs the four validators in turn and prints a duration.
- Analytics: the DOM listeners, `IntersectionObserver`, the timers and `beforeunload` of `setupEventListeners`/`startPeriodicFlush`. The `track*` wrappers built on `track` are also left out, as are `localStorage`, `Math.random`/`Date.now` id generation and the floating-point `scrollPercent`/`calculateCompletionRate`. The clock and location are `Env` parameters. The ids and `sendBeacon`'s presence are constructor parameters. A periodic flush is a `Flush` call.
- Analytics.ResolveConfig: `batchSize` is an integer or absent. Non-numeric values (strings, `NaN`) that JavaScript would compare with `>=` are not modelled.
- Analytics.TrackKeepsQueueShort: stated for a batch size of at least 1. A negative configured batch size makes every `track` flush; this is described by `TrackAddsOneEvent`.
- JsValues.Prop: numeric indices into arrays and strings are not modelled. No validator reads a numeric key.
- Lower-casing works on ASCII letters only (`Strings.AsciiLower`). For every keyword the validators test, full Unicode lower-casing and the regular expressions' `i` flag give the same answers.
- The Markdown-section and keyword regular expressions of the challenge validator are modelled as the substring and line predicates they amount to, not as a general regex engine.
- TemplateRules.BlueprintFindings: stated for documents whose property definitions are all neither `null` nor `undefined`. A null definition makes the loop throw, which `TemplateRules.TemplateValidator.ValidateBlueprintTemplate` still models exactly.
- SyntaxRules.ScorecardFindings: stated for defined rules only, for the same reason.
- TemplateRules.IntegrationFindings: counts the resource and mapping errors together. Their exact per-resource numbers are in `TemplateRules.ResourceFindings`.
- JsValues.Entries: a string's entries are one per character. JavaScript gives a character outside the Basic Multilingual Plane as two surrogate entries, which a Dafny string cannot hold. The validators only reach this when a document has a string where an object of properties is expected.
