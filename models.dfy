/**
 * The behaviour in nerve/models.py: run status, usage arithmetic, the
 * `requires` version check, template-input discovery for a configuration,
 * and the pass/fail bookkeeping of an evaluation.
 */
module Models {
  import opened Wrappers
  import opened Strings
  import opened PyValues

  // ---------------------------------------------------------------------------
  // Status

  datatype Status = Paused | Running | Completed | Failed

  /** The enum's string value. */
  function StatusValue(s: Status): string {
    match s
    case Paused => "paused"
    case Running => "running"
    case Completed => "completed"
    case Failed => "failed"
  }

  /** `Status(value)`: the member with that value, if any. */
  function StatusOf(value: string): (r: Option<Status>)
    ensures r.Some? ==> StatusValue(r.value) == value
  {
    if value == "paused" then Some(Paused)
    else if value == "running" then Some(Running)
    else if value == "completed" then Some(Completed)
    else if value == "failed" then Some(Failed)
    else None
  }

  /** Every member is found again from its value. */
  lemma StatusValueRoundTrip(s: Status)
    ensures StatusOf(StatusValue(s)) == Some(s)
  {
  }

  /**
   * `is_done`: membership in `[COMPLETED, FAILED]`, so a status is done
   * exactly when it is neither paused nor running.
   */
  predicate IsDone(s: Status): (r: bool)
    ensures r <==> s != Paused && s != Running
    ensures r <==> (StatusValue(s) == "completed" || StatusValue(s) == "failed")
  {
    assert s in [Completed, Failed] <==> s == Completed || s == Failed;
    s in [Completed, Failed]
  }

  // ---------------------------------------------------------------------------
  // Usage

  /** `Usage`; the cost is a float in the source and a real here. */
  datatype Usage = Usage(cost: Option<real>, promptTokens: int, completionTokens: int, totalTokens: int)

  /** `cost or 0` */
  function CostOrZero(u: Usage): real {
    if u.cost.Some? then u.cost.value else 0.0
  }

  /** The three token counters of a usage. */
  datatype TokenField = PromptField | CompletionField | TotalField

  function Tokens(u: Usage, f: TokenField): int {
    match f
    case PromptField => u.promptTokens
    case CompletionField => u.completionTokens
    case TotalField => u.totalTokens
  }

  /** `Usage.__add__`: componentwise sums, a missing cost counting as zero. */
  function AddUsage(a: Usage, b: Usage): (r: Usage)
    ensures r.cost == Some(CostOrZero(a) + CostOrZero(b))
    ensures forall f :: Tokens(r, f) == Tokens(a, f) + Tokens(b, f)
  {
    Usage(Some(CostOrZero(a) + CostOrZero(b)),
          a.promptTokens + b.promptTokens,
          a.completionTokens + b.completionTokens,
          a.totalTokens + b.totalTokens)
  }

  /** Addition is commutative and associative, and the default usage is neutral up to the cost becoming set. */
  lemma AddUsageLaws(a: Usage, b: Usage, c: Usage)
    ensures AddUsage(a, b) == AddUsage(b, a)
    ensures AddUsage(AddUsage(a, b), c) == AddUsage(a, AddUsage(b, c))
    ensures AddUsage(Usage(None, 0, 0, 0), a) == a.(cost := Some(CostOrZero(a)))
  {
  }

  /** Summing a sequence of usages from the left. */
  function SumUsage(us: seq<Usage>): (r: Usage)
    decreases |us|
  {
    if us == [] then Usage(None, 0, 0, 0) else AddUsage(SumUsage(us[..|us| - 1]), us[|us| - 1])
  }

  /** The total of one token counter over a sequence of usages. */
  function TokenTotal(us: seq<Usage>, f: TokenField): int
    decreases |us|
  {
    if us == [] then 0 else TokenTotal(us[..|us| - 1], f) + Tokens(us[|us| - 1], f)
  }

  /** The total cost over a sequence of usages, a missing cost counting as zero. */
  function CostTotal(us: seq<Usage>): real
    decreases |us|
  {
    if us == [] then 0.0 else CostTotal(us[..|us| - 1]) + CostOrZero(us[|us| - 1])
  }

  /**
   * Every token counter of a sum is the total of that counter, and the cost
   * of a non-empty sum is set and is the total cost.
   */
  lemma {:induction false} SumUsageTotals(us: seq<Usage>)
    ensures forall f :: Tokens(SumUsage(us), f) == TokenTotal(us, f)
    ensures CostOrZero(SumUsage(us)) == CostTotal(us)
    ensures us != [] ==> SumUsage(us).cost.Some?
    decreases |us|
  {
    if us != [] {
      SumUsageTotals(us[..|us| - 1]);
    }
  }

  // ---------------------------------------------------------------------------
  // Required version

  const Package := "nerve-adk"

  /** Python `str.isdigit` on one character, ASCII digits only. */
  predicate StartsWithDigit(s: string) {
    s != [] && IsDigit(s[0])
  }

  /**
   * The requirement `_check_required_version` builds: a bare version means
   * "at least this version", anything else is appended as a specifier.
   */
  function RequirementText(required: string): (r: string)
    requires required != []
    ensures |r| == |Package| + |required| + (if StartsWithDigit(required) then 2 else 0)
    ensures StartsWith(r, Package)
    ensures r[|r| - |required|..] == required
  {
    if StartsWithDigit(required) then Package + ">=" + required else Package + required
  }

  /** A bare version and the same version written with `>=` give the same requirement. */
  lemma BareVersionMeansAtLeast(version: string)
    requires StartsWithDigit(version)
    ensures RequirementText(version) == RequirementText(">=" + version)
  {
    assert !StartsWithDigit(">=" + version);
    assert Package + ">=" + version == Package + (">=" + version);
  }

  /** Why the validator rejects a configuration. */
  datatype VersionError =
    | InvalidRequirement(required: string)
    | NotSatisfied(message: string)

  /**
   * `_check_required_version`. `accepts(requirement, version)` stands for
   * parsing the requirement with `packaging` (`None` when it does not parse)
   * and testing the installed version against its specifier.
   */
  function CheckRequiredVersion(required: Option<string>, installed: string, accepts: (string, string) -> Option<bool>)
    : (r: Result<Option<string>, VersionError>)
    ensures r.Ok? ==> r.value == required
    ensures required.None? || required.value == [] ==> r.Ok?
    ensures required.Some? && required.value != [] ==>
      (r.Ok? <==> accepts(RequirementText(required.value), installed) == Some(true))
    ensures r.Err? && r.error.NotSatisfied? ==>
      r.error.message == "required version " + required.value + " not satisfied by installed version " + installed
  {
    if required.None? || required.value == [] then Ok(required)
    else
      match accepts(RequirementText(required.value), installed)
      case None => Err(InvalidRequirement(required.value))
      case Some(false) =>
        Err(NotSatisfied("required version " + required.value + " not satisfied by installed version " + installed))
      case Some(true) => Ok(required)
  }

  // ---------------------------------------------------------------------------
  // Inputs of a configuration

  /** An entry of `tools`: a YAML-described `Tool` or a Python callable. */
  datatype ToolEntry =
    | DeclaredTool(name: string, argumentNames: seq<string>, template: Option<string>)
    | FunctionTool(functionName: string)

  /** The fields of `Configuration` that `get_inputs` reads. */
  datatype Configuration = Configuration(
    agent: Option<string>,
    task: Option<string>,
    defaults: map<string, PyValue>,
    tools: seq<ToolEntry>)

  /** A truthy optional string. */
  predicate IsSet(o: Option<string>) {
    o.Some? && o.value != []
  }

  function ToolName(t: ToolEntry): string {
    match t
    case DeclaredTool(name, _, _) => name
    case FunctionTool(functionName) => functionName
  }

  /** `tools_names`: one name per tool, in order. */
  function ToolNames(tools: seq<ToolEntry>): (r: seq<string>)
    ensures |r| == |tools| && forall i :: 0 <= i < |tools| ==> r[i] == ToolName(tools[i])
  {
    seq(|tools|, i requires 0 <= i < |tools| => ToolName(tools[i]))
  }

  /** Variable `n` of tool `t`'s template is an input: not an argument of it and not a tool name. */
  ghost predicate ToolTemplateInput(t: ToolEntry, names: seq<string>, undeclared: string -> set<string>, n: string) {
    && t.DeclaredTool? && IsSet(t.template)
    && n in undeclared(t.template.value)
    && n !in t.argumentNames && n !in names
  }

  /**
   * `n` is an input of the configuration: an undeclared variable of the
   * agent or task prompt that is not a tool name, a tool-template input, or
   * `task` itself when no task is set. `undeclared` stands for jinja2's
   * `find_undeclared_variables` on the parsed template.
   */
  ghost predicate IsInput(config: Configuration, undeclared: string -> set<string>, n: string) {
    var names := ToolNames(config.tools);
    || (IsSet(config.agent) && n in undeclared(config.agent.value) && n !in names)
    || (IsSet(config.task) && n in undeclared(config.task.value) && n !in names)
    || (exists i :: 0 <= i < |config.tools| && ToolTemplateInput(config.tools[i], names, undeclared, n))
    || (!IsSet(config.task) && n == "task")
  }

  /** `defaults.get(name)` */
  function DefaultFor(config: Configuration, n: string): PyValue {
    if n in config.defaults then config.defaults[n] else PyNone
  }

  /** One `for input_name in ...: if ... not in excluded: input_names.add(...)` loop. */
  method AddVariables(inputNames: set<string>, variables: set<string>, excluded: seq<string>)
    returns (r: set<string>)
    ensures forall n :: n in r <==> n in inputNames || (n in variables && n !in excluded)
  {
    r := inputNames;
    var remaining := variables;
    while remaining != {}
      invariant remaining <= variables
      invariant forall n :: n in r <==> n in inputNames || (n in variables - remaining && n !in excluded)
      decreases |remaining|
    {
      var n :| n in remaining;
      if n !in excluded {
        r := r + {n};
      }
      remaining := remaining - {n};
    }
  }

  /** `Configuration.get_inputs`. */
  method GetInputs(config: Configuration, undeclared: string -> set<string>) returns (inputs: map<string, PyValue>)
    ensures forall n :: n in inputs <==> IsInput(config, undeclared, n)
    ensures forall n :: n in inputs ==> inputs[n] == DefaultFor(config, n)
  {
    var names := ToolNames(config.tools);
    var inputNames: set<string> := {};
    if IsSet(config.agent) {
      inputNames := AddVariables(inputNames, undeclared(config.agent.value), names);
    }
    if IsSet(config.task) {
      inputNames := AddVariables(inputNames, undeclared(config.task.value), names);
    }
    ghost var beforeTools := inputNames;
    var i := 0;
    while i < |config.tools|
      invariant 0 <= i <= |config.tools|
      invariant forall n :: n in inputNames <==>
        n in beforeTools || exists j :: 0 <= j < i && ToolTemplateInput(config.tools[j], names, undeclared, n)
    {
      var tool := config.tools[i];
      if tool.DeclaredTool? && IsSet(tool.template) {
        inputNames := AddVariables(inputNames, undeclared(tool.template.value), tool.argumentNames + names);
      }
      i := i + 1;
    }
    if !IsSet(config.task) {
      inputNames := inputNames + {"task"};
    }
    inputs := map n | n in inputNames :: DefaultFor(config, n);
  }

  /**
   * Without a task, `task` is always an input; a tool name is never an
   * input, unless it is `task` with no task set; a name no template mentions
   * is an input only as that `task` slot.
   */
  lemma InputRules(config: Configuration, undeclared: string -> set<string>, n: string)
    ensures !IsSet(config.task) ==> IsInput(config, undeclared, "task")
    ensures n in ToolNames(config.tools) && (n != "task" || IsSet(config.task)) ==> !IsInput(config, undeclared, n)
    ensures (!IsSet(config.agent) || n !in undeclared(config.agent.value))
         && (!IsSet(config.task) || n !in undeclared(config.task.value))
         && (forall t :: t in config.tools && t.DeclaredTool? && IsSet(t.template) ==> n !in undeclared(t.template.value))
         ==> (IsInput(config, undeclared, n) <==> n == "task" && !IsSet(config.task))
  {
    if IsInput(config, undeclared, n) && (exists i :: 0 <= i < |config.tools| && ToolTemplateInput(config.tools[i], ToolNames(config.tools), undeclared, n)) {
      var i :| 0 <= i < |config.tools| && ToolTemplateInput(config.tools[i], ToolNames(config.tools), undeclared, n);
      assert config.tools[i] in config.tools;
    }
  }

  // ---------------------------------------------------------------------------
  // Evaluation bookkeeping

  /**
   * The part of a run's `Output` that the bookkeeping reads (the class is
   * defined outside the modelled files).
   */
  datatype RunOutput = RunOutput(taskSuccess: bool)

  /** `Evaluation.Case`: when the case started, and its runs in order. */
  datatype Case = Case(startedAt: real, runs: seq<RunOutput>)

  /** The number of runs whose success flag is `success`. */
  function CountRuns(runs: seq<RunOutput>, success: bool): nat
    decreases |runs|
  {
    if runs == [] then 0
    else CountRuns(runs[..|runs| - 1], success) + (if runs[|runs| - 1].taskSuccess == success then 1 else 0)
  }

  lemma {:induction false} CountRunsConcat(a: seq<RunOutput>, b: seq<RunOutput>, success: bool)
    ensures CountRuns(a + b, success) == CountRuns(a, success) + CountRuns(b, success)
    decreases |b|
  {
    if b != [] {
      assert (a + b)[..|a + b| - 1] == a + b[..|b| - 1];
      CountRunsConcat(a, b[..|b| - 1], success);
    } else {
      assert a + b == a;
    }
  }

  /** Every run is either a pass or a failure. */
  lemma {:induction false} CountRunsSplit(runs: seq<RunOutput>)
    ensures CountRuns(runs, true) + CountRuns(runs, false) == |runs|
    decreases |runs|
  {
    if runs != [] {
      CountRunsSplit(runs[..|runs| - 1]);
    }
  }

  /** Totals over the cases named in `order`. */
  function CountCases(order: seq<string>, cases: map<string, Case>, success: bool): nat
    decreases |order|
  {
    if order == [] then 0
    else
      var k := order[|order| - 1];
      CountCases(order[..|order| - 1], cases, success) + (if k in cases then CountRuns(cases[k].runs, success) else 0)
  }

  function TotalRuns(order: seq<string>, cases: map<string, Case>): nat
    decreases |order|
  {
    if order == [] then 0
    else
      var k := order[|order| - 1];
      TotalRuns(order[..|order| - 1], cases) + (if k in cases then |cases[k].runs| else 0)
  }

  lemma {:induction false} CountCasesSplit(order: seq<string>, cases: map<string, Case>)
    ensures CountCases(order, cases, true) + CountCases(order, cases, false) == TotalRuns(order, cases)
    decreases |order|
  {
    if order != [] {
      CountCasesSplit(order[..|order| - 1], cases);
      var k := order[|order| - 1];
      if k in cases {
        CountRunsSplit(cases[k].runs);
      }
    }
  }

  /** Changing a case that `order` does not name leaves the totals alone. */
  lemma {:induction false} CountCasesOther(order: seq<string>, cases: map<string, Case>, name: string, c: Case, success: bool)
    requires name !in order
    ensures CountCases(order, cases[name := c], success) == CountCases(order, cases, success)
    decreases |order|
  {
    if order != [] {
      CountCasesOther(order[..|order| - 1], cases, name, c, success);
    }
  }

  /** Replacing one case changes the totals by the difference of its counts. */
  lemma {:induction false} CountCasesUpdate(order: seq<string>, cases: map<string, Case>, name: string, c: Case, success: bool)
    requires name in order && name in cases
    requires forall i, j :: 0 <= i < j < |order| ==> order[i] != order[j]
    ensures CountCases(order, cases[name := c], success)
         == CountCases(order, cases, success) - CountRuns(cases[name].runs, success) + CountRuns(c.runs, success)
    decreases |order|
  {
    var init := order[..|order| - 1];
    if order[|order| - 1] == name {
      assert name !in init;
      CountCasesOther(init, cases, name, c, success);
    } else {
      assert name in init;
      CountCasesUpdate(init, cases, name, c, success);
    }
  }

  /** `add_run`'s effect on the case map. */
  function CasesAfterAdd(cases: map<string, Case>, name: string, run: RunOutput, now: real): (r: map<string, Case>)
    ensures r.Keys == cases.Keys + {name}
    ensures r[name].runs == (if name in cases then cases[name].runs else []) + [run]
    ensures forall k :: k in cases && k != name ==> r[k] == cases[k]
  {
    var c := if name in cases then cases[name] else Case(now, []);
    cases[name := c.(runs := c.runs + [run])]
  }

  /** A Python list index: negative indices count from the end. */
  function NormalizeIndex(idx: int, len: nat): (r: Option<nat>)
    ensures r.Some? <==> -(len as int) <= idx < len
    ensures r.Some? ==> r.value < len && (r.value == idx || r.value == idx + len)
  {
    if 0 <= idx < len then Some(idx)
    else if -(len as int) <= idx < 0 then Some(idx + len)
    else None
  }

  /** `runs.pop(index)` */
  function RemoveAt(runs: seq<RunOutput>, index: nat): (r: seq<RunOutput>)
    requires index < |runs|
    ensures |r| == |runs| - 1
  {
    runs[..index] + runs[index + 1..]
  }

  lemma CountRunsRemoveAt(runs: seq<RunOutput>, index: nat, success: bool)
    requires index < |runs|
    ensures CountRuns(RemoveAt(runs, index), success)
         == CountRuns(runs, success) - (if runs[index].taskSuccess == success then 1 else 0)
  {
    assert runs == runs[..index] + ([runs[index]] + runs[index + 1..]);
    CountRunsConcat(runs[..index], [runs[index]] + runs[index + 1..], success);
    CountRunsConcat([runs[index]], runs[index + 1..], success);
    CountRunsConcat(runs[..index], runs[index + 1..], success);
    assert CountRuns([runs[index]], success) == CountRuns([], success) + (if runs[index].taskSuccess == success then 1 else 0);
  }

  /**
   * `Evaluation`'s cases and statistics. `caseOrder` is the insertion order
   * of the `cases` dict.
   */
  class Evaluation {
    var cases: map<string, Case>
    var caseOrder: seq<string>
    var passed: int
    var failed: int

    /** The counters agree with the stored runs (see `Tallied`). */
    ghost predicate Consistent()
      reads this
    {
      Tallied(caseOrder, cases, passed, failed)
    }

    /** A fresh evaluation: no cases, zero counters. */
    constructor()
      ensures cases == map[] && caseOrder == [] && passed == 0 && failed == 0
      ensures Consistent()
    {
      cases := map[];
      caseOrder := [];
      passed := 0;
      failed := 0;
    }

    /** `add_run`; `now` is the clock reading used for a new case. */
    method AddRun(caseName: string, run: RunOutput, now: real)
      modifies this
      ensures cases == CasesAfterAdd(old(cases), caseName, run, now)
      ensures caseOrder == OrderAfterAdd(old(caseOrder), old(cases), caseName)
      ensures passed == old(passed) + (if run.taskSuccess then 1 else 0)
      ensures failed == old(failed) + (if run.taskSuccess then 0 else 1)
      ensures old(Consistent()) ==> Consistent()
    {
      ghost var order0, cases0, passed0, failed0 := caseOrder, cases, passed, failed;
      if caseName !in cases {
        cases := cases[caseName := Case(now, [])];
        caseOrder := caseOrder + [caseName];
      }
      cases := cases[caseName := cases[caseName].(runs := cases[caseName].runs + [run])];
      if run.taskSuccess {
        passed := passed + 1;
      } else {
        failed := failed + 1;
      }
      assert cases == CasesAfterAdd(old(cases), caseName, run, now);
      if Tallied(order0, cases0, passed0, failed0) {
        assert caseOrder == OrderAfterAdd(order0, cases0, caseName);
        assert passed == passed0 + (if run.taskSuccess then 1 else 0);
        assert failed == failed0 + (if run.taskSuccess then 0 else 1);
        AddRunKeepsTally(order0, cases0, passed0, failed0, caseName, run, now);
      }
    }

    /**
     * `remove_run`: a `KeyError` for an unknown case and an `IndexError` for
     * an index out of range, with nothing changed; otherwise the run is
     * popped and its counter decremented.
     */
    method RemoveRun(caseName: string, runIdx: int) returns (err: Option<PyError>)
      modifies this
      ensures caseName !in old(cases) ==>
        err == Some(KeyError(caseName)) && cases == old(cases) && passed == old(passed) && failed == old(failed)
      ensures caseName in old(cases) && NormalizeIndex(runIdx, |old(cases)[caseName].runs|).None? ==>
        err == Some(IndexError) && cases == old(cases) && passed == old(passed) && failed == old(failed)
      ensures caseName in old(cases) && NormalizeIndex(runIdx, |old(cases)[caseName].runs|).Some? ==>
        var runs := old(cases)[caseName].runs;
        var j := NormalizeIndex(runIdx, |runs|).value;
        && err.None?
        && cases == CasesAfterRemove(old(cases), caseName, j)
        && passed == old(passed) - (if runs[j].taskSuccess then 1 else 0)
        && failed == old(failed) - (if runs[j].taskSuccess then 0 else 1)
      ensures caseOrder == old(caseOrder)
      ensures old(Consistent()) ==> Consistent()
    {
      if caseName !in cases {
        return Some(KeyError(caseName));
      }
      var runs := cases[caseName].runs;
      var j := NormalizeIndex(runIdx, |runs|);
      if j.None? {
        return Some(IndexError);
      }
      var runOutput := runs[j.value];
      if runOutput.taskSuccess {
        passed := passed - 1;
      } else {
        failed := failed - 1;
      }
      cases := cases[caseName := cases[caseName].(runs := RemoveAt(runs, j.value))];
      assert cases == CasesAfterRemove(old(cases), caseName, j.value);
      err := None;
      if old(Consistent()) {
        RemoveRunKeepsTally(caseOrder, old(cases), old(passed), old(failed), caseName, j.value);
      }
    }
  }

  /** The dict's keys are its insertion order, without repeats. */
  ghost predicate OrderedKeys(order: seq<string>, cases: map<string, Case>) {
    && (forall i, j :: 0 <= i < j < |order| ==> order[i] != order[j])
    && (forall k :: k in cases <==> k in order)
  }

  /** The pass and fail counters are the numbers of passing and failing runs stored. */
  ghost predicate Tallied(order: seq<string>, cases: map<string, Case>, passed: int, failed: int) {
    && OrderedKeys(order, cases)
    && passed == CountCases(order, cases, true)
    && failed == CountCases(order, cases, false)
  }

  /** With consistent counters, together they count every stored run. */
  lemma TalliedCountsAllRuns(order: seq<string>, cases: map<string, Case>, passed: int, failed: int)
    requires Tallied(order, cases, passed, failed)
    ensures passed + failed == TotalRuns(order, cases)
    ensures passed >= 0 && failed >= 0
  {
    CountCasesSplit(order, cases);
  }

  /** The dict's key order after `add_run`: a new case goes last. */
  function OrderAfterAdd(order: seq<string>, cases: map<string, Case>, name: string): seq<string> {
    if name in cases then order else order + [name]
  }

  /** `remove_run`'s effect on the case map. */
  function CasesAfterRemove(cases: map<string, Case>, name: string, index: nat): (r: map<string, Case>)
    requires name in cases && index < |cases[name].runs|
    ensures r.Keys == cases.Keys
    ensures forall k :: k in cases && k != name ==> r[k] == cases[k]
    ensures r[name].startedAt == cases[name].startedAt
    ensures r[name].runs == cases[name].runs[..index] + cases[name].runs[index + 1..]
  {
    cases[name := cases[name].(runs := RemoveAt(cases[name].runs, index))]
  }

  lemma CountSingleRun(run: RunOutput, success: bool)
    ensures CountRuns([run], success) == (if run.taskSuccess == success then 1 else 0)
  {
    assert [run][..0] == [];
  }

  /** `add_run` keeps the case order duplicate-free and in step with the keys. */
  lemma OrderedAfterAdd(order: seq<string>, cases: map<string, Case>, name: string, run: RunOutput, now: real)
    requires OrderedKeys(order, cases)
    ensures OrderedKeys(OrderAfterAdd(order, cases, name), CasesAfterAdd(cases, name, run, now))
  {
    if name !in cases {
      var order' := order + [name];
      assert forall i :: 0 <= i < |order| ==> order'[i] == order[i];
      assert order'[|order|] == name;
    }
  }

  lemma CountAfterAddExisting(order: seq<string>, cases: map<string, Case>, name: string, run: RunOutput, now: real, success: bool)
    requires OrderedKeys(order, cases) && name in cases
    ensures CountCases(order, CasesAfterAdd(cases, name, run, now), success)
         == CountCases(order, cases, success) + (if run.taskSuccess == success then 1 else 0)
  {
    var after := CasesAfterAdd(cases, name, run, now);
    CountRunsConcat(cases[name].runs, [run], success);
    CountSingleRun(run, success);
    assert after == cases[name := after[name]];
    CountCasesUpdate(order, cases, name, after[name], success);
  }

  lemma CountAfterAddNew(order: seq<string>, cases: map<string, Case>, name: string, run: RunOutput, now: real, success: bool)
    requires OrderedKeys(order, cases) && name !in cases
    ensures CountCases(order + [name], CasesAfterAdd(cases, name, run, now), success)
         == CountCases(order, cases, success) + (if run.taskSuccess == success then 1 else 0)
  {
    var after := CasesAfterAdd(cases, name, run, now);
    assert after[name].runs == [run];
    CountSingleRun(run, success);
    var order' := order + [name];
    assert order'[..|order'| - 1] == order;
    assert after == cases[name := after[name]];
    CountCasesOther(order, cases, name, after[name], success);
  }

  /** The totals after `add_run` grow by the new run, whether or not the case existed. */
  lemma AddRunCounts(order: seq<string>, cases: map<string, Case>, name: string, run: RunOutput, now: real, success: bool)
    requires OrderedKeys(order, cases)
    ensures OrderedKeys(OrderAfterAdd(order, cases, name), CasesAfterAdd(cases, name, run, now))
    ensures CountCases(OrderAfterAdd(order, cases, name), CasesAfterAdd(cases, name, run, now), success)
         == CountCases(order, cases, success) + (if run.taskSuccess == success then 1 else 0)
  {
    OrderedAfterAdd(order, cases, name, run, now);
    if name in cases {
      CountAfterAddExisting(order, cases, name, run, now, success);
    } else {
      CountAfterAddNew(order, cases, name, run, now, success);
    }
  }

  /** `add_run` keeps the counters consistent with the stored runs. */
  lemma AddRunKeepsTally(order: seq<string>, cases: map<string, Case>, passed: int, failed: int,
                         name: string, run: RunOutput, now: real)
    requires Tallied(order, cases, passed, failed)
    ensures Tallied(OrderAfterAdd(order, cases, name), CasesAfterAdd(cases, name, run, now),
                    passed + (if run.taskSuccess then 1 else 0), failed + (if run.taskSuccess then 0 else 1))
  {
    AddRunCounts(order, cases, name, run, now, true);
    AddRunCounts(order, cases, name, run, now, false);
  }

  /** `remove_run` keeps the counters consistent with the stored runs. */
  lemma RemoveRunKeepsTally(order: seq<string>, cases: map<string, Case>, passed: int, failed: int,
                            name: string, index: nat)
    requires Tallied(order, cases, passed, failed)
    requires name in cases && index < |cases[name].runs|
    ensures var success := cases[name].runs[index].taskSuccess;
      Tallied(order, CasesAfterRemove(cases, name, index),
              passed - (if success then 1 else 0), failed - (if success then 0 else 1))
  {
    var runs := cases[name].runs;
    var c := cases[name].(runs := RemoveAt(runs, index));
    assert CasesAfterRemove(cases, name, index) == cases[name := c];
    CountCasesUpdate(order, cases, name, c, true);
    CountCasesUpdate(order, cases, name, c, false);
    CountRunsRemoveAt(runs, index, true);
    CountRunsRemoveAt(runs, index, false);
  }

  /**
   * A run added and then removed again (at the last index of its case)
   * leaves the cases as they were, except that a case the add created stays,
   * empty.
   */
  lemma AddThenRemoveRestoresCases(cases: map<string, Case>, name: string, run: RunOutput, now: real)
    ensures var added := CasesAfterAdd(cases, name, run, now);
      CasesAfterRemove(added, name, |added[name].runs| - 1)
        == (if name in cases then cases else cases[name := Case(now, [])])
  {
    var added := CasesAfterAdd(cases, name, run, now);
    var last := |added[name].runs| - 1;
    var removed := CasesAfterRemove(added, name, last);
    assert removed[name].runs == added[name].runs[..last];
    if name in cases {
      assert removed[name] == cases[name];
    }
  }

  /** ... and the counters return to their old values, consistent with the restored cases. */
  lemma AddThenRemoveRestoresTally(order: seq<string>, cases: map<string, Case>, passed: int, failed: int,
                                   name: string, run: RunOutput, now: real)
    requires Tallied(order, cases, passed, failed)
    ensures var added := CasesAfterAdd(cases, name, run, now);
      Tallied(OrderAfterAdd(order, cases, name), CasesAfterRemove(added, name, |added[name].runs| - 1), passed, failed)
  {
    var added := CasesAfterAdd(cases, name, run, now);
    var last := |added[name].runs| - 1;
    var passed', failed' := passed + (if run.taskSuccess then 1 else 0), failed + (if run.taskSuccess then 0 else 1);
    AddRunKeepsTally(order, cases, passed, failed, name, run, now);
    assert added[name].runs[last] == run;
    RemoveRunKeepsTally(OrderAfterAdd(order, cases, name), added, passed', failed', name, last);
  }
}
