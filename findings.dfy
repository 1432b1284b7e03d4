/**
 * What the validators produce and consume: findings, the report of one rule
 * pass (which may end in a thrown exception after some findings were
 * already pushed), the per-file result, and the abstract outcomes of reading
 * and parsing a file, with the YAML loader's schema fallback.
 */
module Findings {
  import opened Options
  import opened Strings
  import opened JsValues

  datatype LinkKind = Markdown | Bare

  /** A hyperlink found in a Markdown text. */
  datatype Link = Link(text: string, url: string, kind: LinkKind)

  /**
   * One entry of a validator's `errors` or `warnings` array: the file, the
   * category (the entry's `type` property) and the message.  YAML syntax
   * errors also carry a line number, link findings the link itself.
   */
  datatype Finding =
    | Finding(file: string, category: string, message: string)
    | LineFinding(file: string, category: string, message: string, line: Option<nat>)
    | LinkFinding(file: string, category: string, message: string, link: Link)

  /**
   * What one rule pass pushes onto `errors` and `warnings`, in order, and
   * the message of the exception that ended it early, if any.  Findings
   * pushed before the exception stay pushed.
   */
  datatype Report = Report(errors: seq<Finding>, warnings: seq<Finding>, thrown: Option<string>)

  const NoFindings := Report([], [], None)

  function Errors(fs: seq<Finding>): Report {
    Report(fs, [], None)
  }

  function Warnings(fs: seq<Finding>): Report {
    Report([], fs, None)
  }

  function Throw(message: string): Report {
    Report([], [], Some(message))
  }

  /** Run `a`, then `b` unless `a` threw. */
  function Then(a: Report, b: Report): (r: Report)
    ensures a.thrown.Some? ==> r == a
    ensures a.thrown.None? ==> r == Report(a.errors + b.errors, a.warnings + b.warnings, b.thrown)
  {
    if a.thrown.Some? then a else Report(a.errors + b.errors, a.warnings + b.warnings, b.thrown)
  }

  /**
   * `items.forEach((item, index) => ...)`: the step runs on each item in
   * order, and an exception in one step abandons the rest.
   */
  function ForEach<T>(items: seq<T>, step: (nat, T) -> Report): Report
    decreases |items|
  {
    if items == [] then NoFindings
    else Then(ForEach(items[..|items| - 1], step), step(|items| - 1, items[|items| - 1]))
  }

  /** One more iteration of a forEach. */
  lemma ForEachExtend<T>(items: seq<T>, step: (nat, T) -> Report, i: nat)
    requires i < |items|
    ensures ForEach(items[..i + 1], step) == Then(ForEach(items[..i], step), step(i, items[i]))
  {
    assert items[..i + 1][..i] == items[..i];
  }

  /** Once a step has thrown, the remaining items change nothing. */
  lemma {:induction false} ForEachStopsAtThrow<T>(items: seq<T>, step: (nat, T) -> Report, k: nat)
    requires k <= |items|
    requires ForEach(items[..k], step).thrown.Some?
    ensures ForEach(items, step) == ForEach(items[..k], step)
    decreases |items| - k
  {
    if k < |items| {
      ForEachExtend(items, step, k);
      ForEachStopsAtThrow(items, step, k + 1);
    } else {
      assert items[..k] == items;
    }
  }

  /** The first step that throws ends the forEach with what the earlier steps pushed. */
  lemma ForEachThrowsAt<T>(items: seq<T>, step: (nat, T) -> Report, i: nat, message: string)
    requires i < |items| && ForEach(items[..i], step).thrown.None? && step(i, items[i]) == Throw(message)
    ensures ForEach(items, step) == Report(ForEach(items[..i], step).errors, ForEach(items[..i], step).warnings, Some(message))
  {
    var before := ForEach(items[..i], step);
    ForEachExtend(items, step, i);
    assert before.errors + [] == before.errors && before.warnings + [] == before.warnings;
    ForEachStopsAtThrow(items, step, i + 1);
  }

  /** A forEach over a whole array, written with the loop's own prefix. */
  lemma ForEachWhole<T>(items: seq<T>, step: (nat, T) -> Report)
    ensures ForEach(items[..|items|], step) == ForEach(items, step)
  {
    assert items[..|items|] == items;
  }

  /** How many of the findings have the given category. */
  function CountCategory(fs: seq<Finding>, category: string): (n: nat)
    ensures n <= |fs|
  {
    if fs == [] then 0
    else CountCategory(fs[..|fs| - 1], category) + (if fs[|fs| - 1].category == category then 1 else 0)
  }

  lemma {:induction false} CountCategoryConcat(a: seq<Finding>, b: seq<Finding>, category: string)
    ensures CountCategory(a + b, category) == CountCategory(a, category) + CountCategory(b, category)
    decreases |b|
  {
    if b == [] {
      assert a + b == a;
    } else {
      assert (a + b)[..|a + b| - 1] == a + b[..|b| - 1];
      CountCategoryConcat(a, b[..|b| - 1], category);
    }
  }

  /** Every finding has the given category. */
  predicate AllOf(fs: seq<Finding>, category: string) {
    forall k | 0 <= k < |fs| :: fs[k].category == category
  }

  lemma {:induction false} AllOfCount(fs: seq<Finding>, category: string, other: string)
    requires AllOf(fs, category)
    ensures CountCategory(fs, category) == |fs|
    ensures other != category ==> CountCategory(fs, other) == 0
    decreases |fs|
  {
    if fs != [] {
      AllOfCount(fs[..|fs| - 1], category, other);
    }
  }

  /**
   * When every step pushes errors of one category and warnings of another,
   * so does the whole forEach.
   */
  lemma {:induction false} ForEachCategories<T>(items: seq<T>, step: (nat, T) -> Report, errorCategory: string, warningCategory: string)
    requires forall i: nat, x: T :: AllOf(step(i, x).errors, errorCategory) && AllOf(step(i, x).warnings, warningCategory)
    ensures AllOf(ForEach(items, step).errors, errorCategory)
    ensures AllOf(ForEach(items, step).warnings, warningCategory)
    decreases |items|
  {
    if items != [] {
      ForEachCategories(items[..|items| - 1], step, errorCategory, warningCategory);
    }
  }

  lemma ConcatAssoc(a: seq<Finding>, b: seq<Finding>, c: seq<Finding>)
    ensures a + b + c == a + (b + c)
  {
  }

  /** The result of validating one file: what it pushed, and whether it was counted as validated. */
  datatype FileResult = FileResult(errors: seq<Finding>, warnings: seq<Finding>, validated: bool)

  /** `fs.readFileSync(path, 'utf8')`: the text, or the message of the error it throws. */
  datatype ReadOutcome = Read(content: string) | ReadFailed(message: string)

  /** How many of the files were read successfully. */
  function CountRead(files: seq<(string, ReadOutcome)>): (n: nat)
    ensures n <= |files|
  {
    if files == [] then 0 else CountRead(files[..|files| - 1]) + (if files[|files| - 1].1.Read? then 1 else 0)
  }

  /** What validating a list of files one after another pushes, and how many of them count. */
  datatype RunTotal = RunTotal(errors: seq<Finding>, warnings: seq<Finding>, validated: nat)

  /** The run so far, followed by one more file. */
  function AddFile(t: RunTotal, f: FileResult): RunTotal {
    RunTotal(t.errors + f.errors, t.warnings + f.warnings, t.validated + (if f.validated then 1 else 0))
  }

  /**
   * `for (const file of files) await validate(file)`: each file's findings
   * appended in file order, and the number of files that counted.
   */
  function RunFiles(files: seq<(string, ReadOutcome)>, validate: (string, ReadOutcome) -> FileResult): (t: RunTotal)
    ensures t.validated <= |files|
    decreases |files|
  {
    if files == [] then RunTotal([], [], 0)
    else AddFile(RunFiles(files[..|files| - 1], validate), validate(files[|files| - 1].0, files[|files| - 1].1))
  }

  /** One more iteration of the run loop. */
  lemma RunFilesExtend(files: seq<(string, ReadOutcome)>, validate: (string, ReadOutcome) -> FileResult, i: nat)
    requires i < |files|
    ensures RunFiles(files[..i + 1], validate) == AddFile(RunFiles(files[..i], validate), validate(files[i].0, files[i].1))
  {
    assert files[..i + 1][..i] == files[..i];
  }

  /** A run records no error exactly when no file records one. */
  lemma {:induction false} RunFilesClean(files: seq<(string, ReadOutcome)>, validate: (string, ReadOutcome) -> FileResult)
    ensures RunFiles(files, validate).errors == [] <==> forall k | 0 <= k < |files| :: validate(files[k].0, files[k].1).errors == []
    decreases |files|
  {
    if files != [] {
      var init := files[..|files| - 1];
      RunFilesClean(init, validate);
      assert forall k | 0 <= k < |init| :: init[k] == files[k];
    }
  }

  /** When a file counts exactly when it was read, a run counts the files that were read. */
  lemma {:induction false} RunFilesCountsRead(files: seq<(string, ReadOutcome)>, validate: (string, ReadOutcome) -> FileResult)
    requires forall k | 0 <= k < |files| :: validate(files[k].0, files[k].1).validated == files[k].1.Read?
    ensures RunFiles(files, validate).validated == CountRead(files)
    decreases |files|
  {
    if files != [] {
      var init := files[..|files| - 1];
      assert forall k | 0 <= k < |init| :: init[k] == files[k];
      RunFilesCountsRead(init, validate);
    }
  }

  /** The schemas js-yaml is asked to load with. */
  datatype Schema = DefaultSchema | CoreSchema | JsonSchema

  /**
   * The outcome of a parser call: the document, or the thrown error's
   * message and, for js-yaml, the zero-based line of its `mark`.
   */
  datatype ParseOutcome = Parsed(value: Value) | ParseFailed(message: string, mark: Option<nat>)

  /**
   * The loading decision shared by the YAML template and syntax validators:
   * files whose path names an integration are loaded with the CORE schema
   * and, only when that throws, again with the JSON schema; other files with
   * the default schema.  Returns the outcome and the schemas tried, in order.
   */
  function LoadYaml(path: string, content: string, load: (string, Schema) -> ParseOutcome): (r: (ParseOutcome, seq<Schema>))
    ensures |r.1| >= 1 && r.0 == load(content, r.1[|r.1| - 1])
    ensures !Contains(path, "integration") ==> r.1 == [DefaultSchema]
    ensures Contains(path, "integration") ==> r.1[0] == CoreSchema && |r.1| <= 2
    ensures JsonSchema in r.1 <==> Contains(path, "integration") && load(content, CoreSchema).ParseFailed?
  {
    if Contains(path, "integration") then
      var core := load(content, CoreSchema);
      if core.Parsed? then (core, [CoreSchema]) else (load(content, JsonSchema), [CoreSchema, JsonSchema])
    else
      (load(content, DefaultSchema), [DefaultSchema])
  }

  /**
   * A failure on an integration file whose message mentions a missed comma
   * (js-yaml's complaint about embedded JQ expressions) is downgraded to a
   * warning and the file still counts as validated.
   */
  predicate IsJqDowngrade(path: string, message: string) {
    Contains(path, "integration") && Contains(message, "missed comma")
  }
}
