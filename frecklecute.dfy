/**
 * `frecklecute/frecklecute.py`: assembling a frecklecutable from its parsed
 * task list and variables, and the `Frecklecute` front-end that keeps an
 * ordered table of frecklecutables and hands each to the task runner.
 *
 * The task runner (`create_and_run_nsbl_runner`) is not part of this model;
 * `StartRun` returns the request it would be given.
 */
module Frecklecutables {
  import opened Wrappers
  import opened Sequences
  import opened Values
  import opened OrderedDicts
  import Files

  /** The format used when neither the caller nor the guess names one (frecklecute.py:19). */
  const DefaultTaskListFormat := "freckles"

  /** The file the synthetic include task points at, and the callback writes (frecklecute.py:73, 141). */
  const TargetName := "frecklecutable_default_tasks.yml"

  /** The two task-list formats a frecklecutable may have. */
  datatype Format = Freckles | Ansible

  function FormatName(f: Format): string {
    match f
    case Freckles => "freckles"
    case Ansible => "ansible"
  }

  /**
   * Lines 33-41: a string task list is parsed and kept as the tasks string;
   * a list is kept and dumped to get the string, and a failed dump raises;
   * anything else is refused.
   * The result pairs the task list with its string.
   */
  function ParseTasks(tasks: Value, yaml: Yaml): (r: Result<(Value, string), Error>)
    ensures tasks.VStr? ==>
              (r.Ok? <==> yaml.safeLoad(tasks.s).Ok?) &&
              (r.Ok? ==> r.value == (yaml.safeLoad(tasks.s).value, tasks.s)) &&
              (r.Err? ==> r.error == TasksYamlError(yaml.safeLoad(tasks.s).error))
    ensures tasks.VList? ==>
              (r.Ok? <==> yaml.safeDump(tasks).Ok?) &&
              (r.Ok? ==> r.value == (tasks, yaml.safeDump(tasks).value)) &&
              (r.Err? ==> r.error == TasksDumpError(yaml.safeDump(tasks).error))
    ensures !tasks.VStr? && !tasks.VList? ==> r == Err(InvalidTasksType(tasks))
  {
    match tasks
    case VStr(s) =>
      (match yaml.safeLoad(s)
       case Ok(v) => Ok((v, s))
       case Err(e) => Err(TasksYamlError(e)))
    case VList(_) =>
      (match yaml.safeDump(tasks)
       case Ok(s) => Ok((tasks, s))
       case Err(e) => Err(TasksDumpError(e)))
    case _ => Err(InvalidTasksType(tasks))
  }

  /** The YAML library reads back what it writes. */
  ghost predicate RoundTrips(yaml: Yaml) {
    forall v :: yaml.safeDump(v).Ok? ==> yaml.safeLoad(yaml.safeDump(v).value) == Ok(v)
  }

  /**
   * Whichever branch built them, a frecklecutable's tasks string loads back
   * to its task list, provided YAML reads back what it writes.
   */
  lemma TasksStringLoads(tasks: Value, yaml: Yaml)
    requires RoundTrips(yaml)
    requires ParseTasks(tasks, yaml).Ok?
    ensures var (parsed, text) := ParseTasks(tasks, yaml).value;
            yaml.safeLoad(text) == Ok(parsed)
  {
    if tasks.VList? {
      assert yaml.safeLoad(yaml.safeDump(tasks).value) == Ok(tasks);
    }
  }

  /**
   * Lines 47-59: an explicit format wins; without one the guess is used,
   * and without a guess the default. The chosen value must name one of the
   * two formats.
   */
  function ResolveFormat(tasksFormat: Value, guess: Value): (r: Result<Format, Error>)
    ensures tasksFormat != VNone ==>
              (r.Ok? ==> VStr(FormatName(r.value)) == tasksFormat) &&
              (r.Err? ==> r.error == InvalidTaskListFormat(tasksFormat))
    ensures tasksFormat == VNone && guess != VNone ==>
              (r.Ok? ==> VStr(FormatName(r.value)) == guess) &&
              (r.Err? ==> r.error == InvalidTaskListFormat(guess))
    ensures tasksFormat == VNone && guess == VNone ==> r == Ok(Freckles)
    ensures r.Err? ==> r.error.InvalidTaskListFormat? &&
                       r.error.format != VStr("freckles") && r.error.format != VStr("ansible")
  {
    var chosen :=
      if tasksFormat != VNone then tasksFormat
      else if guess != VNone then guess
      else VStr(DefaultTaskListFormat);
    if chosen == VStr("freckles") then Ok(Freckles)
    else if chosen == VStr("ansible") then Ok(Ansible)
    else Err(InvalidTaskListFormat(chosen))
  }

  /** An explicit format makes the guess irrelevant. */
  lemma ExplicitFormatIgnoresGuess(tasksFormat: Value, guess: Value, guess': Value)
    requires tasksFormat != VNone
    ensures ResolveFormat(tasksFormat, guess) == ResolveFormat(tasksFormat, guess')
  {
    var r, r' := ResolveFormat(tasksFormat, guess), ResolveFormat(tasksFormat, guess');
    if r.Ok? && r'.Ok? {
      assert VStr(FormatName(r.value)) == VStr(FormatName(r'.value));
    }
  }

  /** `os.path.join("{{ playbook_dir }}", "..", "task_lists", TargetName)` (lines 71-73). */
  function IncludePath(): string {
    Files.JoinAll("{{ playbook_dir }}", ["..", "task_lists", TargetName])
  }

  /** The include task points at the file the pre-run callback writes. */
  lemma IncludePathTargetsCallback()
    ensures Files.Basename(IncludePath()) == TargetName
  {
    var names := ["..", "task_lists", TargetName];
    assert names[..|names| - 1] == ["..", "task_lists"];
    assert Files.SaneName(TargetName);
    Files.BasenameJoin(Files.JoinAll("{{ playbook_dir }}", ["..", "task_lists"]), TargetName);
  }

  /** The synthetic `include_tasks` task of an `ansible` task list (lines 74-83). */
  function IncludeTask(): Value {
    VMap(map[
      "meta" := VMap(map[
        "name" := VStr("include_tasks"),
        "task-desc" := VStr("[including tasks]"),
        "var-keys" := VList([VStr("free_form")])]),
      "vars" := VMap(map["free_form" := VStr(IncludePath())])])
  }

  /** Lines 70-86: an `ansible` task list is replaced by one include task. */
  function FinalTasks(format: Format, tasks: Value): (r: Value)
    ensures format == Freckles ==> r == tasks
    ensures format == Ansible ==>
              r.VList? && |r.items| == 1 && r.items[0].VMap? &&
              "vars" in r.items[0].entries && r.items[0].entries["vars"].VMap? &&
              "free_form" in r.items[0].entries["vars"].entries &&
              r.items[0].entries["vars"].entries["free_form"] == VStr(IncludePath())
  {
    match format
    case Ansible => VList([IncludeTask()])
    case Freckles => tasks
  }

  /** An entry of the external task-list map names its playbook target. */
  predicate HasPlayTarget(details: Value) {
    details.VMap? && "play_target" in details.entries
  }

  function PlayTarget(details: Value): Value
    requires HasPlayTarget(details)
  {
    details.entries["play_target"]
  }

  /**
   * Lines 65-67: each entry of the external task-list map gives an alias
   * from its name to its `play_target`; an entry without one raises. Which
   * offending entry is reported depends on the map's iteration order, which
   * this model leaves open.
   */
  method TaskListAliases(externalTaskListMap: map<string, Value>) returns (r: Result<Dict, Error>)
    ensures r.Ok? <==> forall n :: n in externalTaskListMap ==> HasPlayTarget(externalTaskListMap[n])
    ensures r.Ok? ==>
              r.value.Keys == externalTaskListMap.Keys &&
              forall n :: n in externalTaskListMap ==> r.value[n] == PlayTarget(externalTaskListMap[n])
    ensures r.Err? ==>
              r.error.NoPlayTarget? && r.error.name in externalTaskListMap &&
              !HasPlayTarget(externalTaskListMap[r.error.name])
  {
    var aliases: Dict := map[];
    var todo := externalTaskListMap.Keys;
    while todo != {}
      invariant todo <= externalTaskListMap.Keys
      invariant aliases.Keys == externalTaskListMap.Keys - todo
      invariant forall n :: n in aliases ==>
                  HasPlayTarget(externalTaskListMap[n]) && aliases[n] == PlayTarget(externalTaskListMap[n])
      decreases |todo|
    {
      var n :| n in todo;
      var details := externalTaskListMap[n];
      if !HasPlayTarget(details) {
        return Err(NoPlayTarget(n));
      }
      aliases := aliases[n := PlayTarget(details)];
      todo := todo - {n};
    }
    return Ok(aliases);
  }

  /** One task-config block: the tasks and the variables they run with. */
  datatype TaskBlock = TaskBlock(tasks: Value, vars: Dict)

  /** A `Frecklecutable` as its constructor leaves it (lines 22-90). */
  datatype Frecklecutable = Frecklecutable(
    name: string,
    tasks: Value,
    tasksString: string,
    vars: Dict,
    metadata: Dict,
    tasksFormat: Format,
    externalTaskListMap: map<string, Value>,
    additionalRoles: Value,
    taskListAliases: Dict,
    finalTasks: Value,
    allVars: Dict,
    taskConfig: seq<TaskBlock>)

  /** Whether the constructor completes: the tasks parse, the format is valid and every entry has a target. */
  predicate Assembles(tasks: Value, tasksFormat: Value, externalTaskListMap: map<string, Value>,
                      yaml: Yaml, guessFormat: Value -> Value)
  {
    && ParseTasks(tasks, yaml).Ok?
    && ResolveFormat(tasksFormat, guessFormat(ParseTasks(tasks, yaml).value.0)).Ok?
    && forall n :: n in externalTaskListMap ==> HasPlayTarget(externalTaskListMap[n])
  }

  /**
   * `e` is an error the constructor raises for these arguments, in the order
   * it checks them: the tasks' parse error, else the format error, else
   * `NoPlayTarget` for some external task list without a target.
   */
  predicate ConstructorError(e: Error, tasks: Value, tasksFormat: Value, externalTaskListMap: map<string, Value>,
                             yaml: Yaml, guessFormat: Value -> Value)
  {
    var parsed := ParseTasks(tasks, yaml);
    if parsed.Err? then e == parsed.error
    else
      var format := ResolveFormat(tasksFormat, guessFormat(parsed.value.0));
      if format.Err? then e == format.error
      else e.NoPlayTarget? && e.name in externalTaskListMap && !HasPlayTarget(externalTaskListMap[e.name])
  }

  /**
   * `f` is what lines 43-90 leave once the tasks are parsed and the format
   * resolved: one alias per external task list, the final tasks for that
   * format, the variables merged with the aliases into a copy, and one
   * task-config block.
   */
  ghost predicate Completed(f: Frecklecutable, name: string, taskList: Value, tasksString: string, vars: Dict,
                            format: Format, externalTaskListMap: map<string, Value>, additionalRoles: Value,
                            merge: Merge)
  {
    && f.name == name && f.tasks == taskList && f.tasksString == tasksString
    && f.vars == vars && f.metadata == map[] && f.tasksFormat == format
    && f.externalTaskListMap == externalTaskListMap && f.additionalRoles == additionalRoles
    && f.taskListAliases.Keys == externalTaskListMap.Keys
    && (forall n :: n in externalTaskListMap ==>
          HasPlayTarget(externalTaskListMap[n]) && f.taskListAliases[n] == PlayTarget(externalTaskListMap[n]))
    && f.finalTasks == FinalTasks(format, taskList)
    && f.allVars == merge(vars, VMap(f.taskListAliases))
    && f.taskConfig == [TaskBlock(f.finalTasks, f.allVars)]
  }

  /**
   * `f` is what the constructor leaves for these arguments (lines 31-90):
   * the parsed tasks and their string, the resolved format, and the rest
   * as `Completed` says.
   */
  ghost predicate Assembled(f: Frecklecutable, name: string, tasks: Value, vars: Dict, tasksFormat: Value,
                            externalTaskListMap: map<string, Value>, additionalRoles: Value,
                            yaml: Yaml, guessFormat: Value -> Value, merge: Merge)
  {
    && ParseTasks(tasks, yaml) == Ok((f.tasks, f.tasksString))
    && ResolveFormat(tasksFormat, guessFormat(f.tasks)) == Ok(f.tasksFormat)
    && Completed(f, name, f.tasks, f.tasksString, vars, f.tasksFormat, externalTaskListMap, additionalRoles, merge)
  }

  /**
   * The constructor's result is determined by its arguments: in particular
   * it does not depend on the order in which the alias loop visits the
   * external task lists.
   */
  lemma AssembledUnique(f: Frecklecutable, g: Frecklecutable, name: string, tasks: Value, vars: Dict,
                        tasksFormat: Value, externalTaskListMap: map<string, Value>, additionalRoles: Value,
                        yaml: Yaml, guessFormat: Value -> Value, merge: Merge)
    requires Assembled(f, name, tasks, vars, tasksFormat, externalTaskListMap, additionalRoles, yaml, guessFormat, merge)
    requires Assembled(g, name, tasks, vars, tasksFormat, externalTaskListMap, additionalRoles, yaml, guessFormat, merge)
    ensures f == g
  {
    assert f.tasks == g.tasks && f.tasksString == g.tasksString;
    assert f.tasksFormat == g.tasksFormat;
    assert f.taskListAliases == g.taskListAliases;
  }

  /**
   * Lines 43-90, after parsing and format resolution: the alias loop, the
   * final tasks, the merged variables and the task config.
   */
  method Complete(name: string, taskList: Value, tasksString: string, vars: Dict, format: Format,
                  externalTaskListMap: map<string, Value>, additionalRoles: Value, merge: Merge)
    returns (r: Result<Frecklecutable, Error>)
    ensures r.Ok? <==> forall n :: n in externalTaskListMap ==> HasPlayTarget(externalTaskListMap[n])
    ensures r.Err? ==>
              r.error.NoPlayTarget? && r.error.name in externalTaskListMap &&
              !HasPlayTarget(externalTaskListMap[r.error.name])
    ensures r.Ok? ==>
              Completed(r.value, name, taskList, tasksString, vars, format, externalTaskListMap, additionalRoles, merge)
  {
    var aliases := TaskListAliases(externalTaskListMap);
    if aliases.Err? {
      return Err(aliases.error);
    }
    var finalTasks := FinalTasks(format, taskList);
    var allVars := merge(vars, VMap(aliases.value));
    r := Ok(Frecklecutable(name, taskList, tasksString, vars, map[], format, externalTaskListMap,
                           additionalRoles, aliases.value, finalTasks, allVars, [TaskBlock(finalTasks, allVars)]));
  }

  /**
   * `Frecklecutable(name, tasks, vars, tasks_format, external_task_list_map,
   * additional_roles)` (lines 22-90); `guessFormat` is freckles'
   * `get_task_list_format`, which is not part of this model.
   */
  method NewFrecklecutable(name: string, tasks: Value, vars: Dict, tasksFormat: Value,
                           externalTaskListMap: map<string, Value>, additionalRoles: Value,
                           yaml: Yaml, guessFormat: Value -> Value, merge: Merge)
    returns (r: Result<Frecklecutable, Error>)
    ensures r.Ok? <==> Assembles(tasks, tasksFormat, externalTaskListMap, yaml, guessFormat)
    ensures ParseTasks(tasks, yaml).Err? ==> r == Err(ParseTasks(tasks, yaml).error)
    ensures ParseTasks(tasks, yaml).Ok? ==>
              var format := ResolveFormat(tasksFormat, guessFormat(ParseTasks(tasks, yaml).value.0));
              format.Err? ==> r == Err(format.error)
    ensures ParseTasks(tasks, yaml).Ok? &&
            ResolveFormat(tasksFormat, guessFormat(ParseTasks(tasks, yaml).value.0)).Ok? &&
            !(forall n :: n in externalTaskListMap ==> HasPlayTarget(externalTaskListMap[n])) ==>
              r.Err? && r.error.NoPlayTarget?
    ensures r.Err? && r.error.NoPlayTarget? ==>
              r.error.name in externalTaskListMap && !HasPlayTarget(externalTaskListMap[r.error.name])
    ensures r.Err? ==> ConstructorError(r.error, tasks, tasksFormat, externalTaskListMap, yaml, guessFormat)
    ensures r.Ok? ==>
              Assembled(r.value, name, tasks, vars, tasksFormat, externalTaskListMap, additionalRoles,
                        yaml, guessFormat, merge)
  {
    var parsed := ParseTasks(tasks, yaml);
    if parsed.Err? {
      return Err(parsed.error);
    }
    var (taskList, tasksString) := parsed.value;
    var format := ResolveFormat(tasksFormat, guessFormat(taskList));
    if format.Err? {
      return Err(format.error);
    }
    r := Complete(name, taskList, tasksString, vars, format.value, externalTaskListMap, additionalRoles, merge);
  }

  // ---------------------------------------------------------------------
  // Frecklecute

  /** The first argument of `Frecklecute(...)`: one frecklecutable or a list of them. */
  datatype FrecklecutableInput = Single(f: Frecklecutable) | Several(fs: seq<Frecklecutable>)

  /** Lines 106-107: a single frecklecutable is wrapped into a list. */
  function AsList(x: FrecklecutableInput): (r: seq<Frecklecutable>)
    ensures x.Single? ==> r == [x.f]
    ensures x.Several? ==> r == x.fs
  {
    match x
    case Single(f) => [f]
    case Several(fs) => fs
  }

  /** The `(name, frecklecutable)` pairs lines 110-111 store, in order. */
  function Named(fs: seq<Frecklecutable>): (r: seq<(string, Frecklecutable)>)
    ensures |r| == |fs| && forall i :: 0 <= i < |fs| ==> r[i] == (fs[i].name, fs[i])
  {
    seq(|fs|, i requires 0 <= i < |fs| => (fs[i].name, fs[i]))
  }

  /**
   * The table of a `Frecklecute` front-end lists each name once, in the
   * order names are first met, and holds the last frecklecutable given
   * under that name; distinct names keep the given order exactly.
   */
  lemma TableOrder(fs: seq<Frecklecutable>)
    ensures FromPairs(Named(fs)).Valid()
    ensures FromPairs(Named(fs)).keys == Dedup(Firsts(Named(fs)))
    ensures forall n :: n in FromPairs(Named(fs)).values <==> exists f :: f in fs && f.name == n
    ensures forall i :: 0 <= i < |fs| ==>
              fs[i].name in FromPairs(Named(fs)).values &&
              FromPairs(Named(fs)).values[fs[i].name].name == fs[i].name
    ensures Distinct(Firsts(Named(fs))) ==> FromPairs(Named(fs)).keys == Firsts(Named(fs))
  {
    var ps := Named(fs);
    FromPairsSpec(ps);
    forall n | n in FromPairs(ps).values
      ensures exists f :: f in fs && f.name == n
    {
      var i := FirstIndex(Firsts(ps), n);
      assert fs[i] in fs && fs[i].name == n;
    }
    forall i | 0 <= i < |fs|
      ensures fs[i].name in FromPairs(ps).values
      ensures FromPairs(ps).values[fs[i].name].name == fs[i].name
    {
      assert Firsts(ps)[i] == fs[i].name;
      LastValueName(fs, fs[i].name);
    }
    if Distinct(Firsts(ps)) {
      DedupDistinct(Firsts(ps));
    }
  }

  /** The last frecklecutable stored under a name carries that name. */
  lemma {:induction false} LastValueName(fs: seq<Frecklecutable>, n: string)
    requires n in Firsts(Named(fs))
    ensures LastValue(Named(fs), n).name == n
    decreases |fs|
  {
    var ps := Named(fs);
    var k := |ps| - 1;
    if ps[k].0 != n {
      assert ps[..k] == Named(fs[..k]);
      assert Firsts(ps) == Firsts(ps[..k]) + [ps[k].0];
      LastValueName(fs[..k], n);
    }
  }

  /** One entry of `tasks_callback_map` (lines 137-142). */
  datatype CallbackEntry = CallbackEntry(tasks: Value, tasksString: string, tasksFormat: Format, targetName: string)

  /**
   * What `start_frecklecute_run` hands to the task runner (lines 144-177):
   * the inputs of the pre-run callback and the runner's arguments.
   */
  datatype RunRequest = RunRequest(
    taskConfig: seq<TaskBlock>,
    taskMetadata: Dict,
    outputFormat: Value,
    externalTaskListMap: map<string, Value>,
    callbackMap: seq<CallbackEntry>,
    askBecomePass: bool,
    password: Option<string>,
    config: Value,
    hosts: Value,
    additionalRoles: Value,
    noRun: bool)

  /** The request for `f`, with `f`'s own metadata as task metadata. */
  function Request(f: Frecklecutable, askBecomePass: bool, password: Option<string>, config: Value,
                   hosts: Value, noRun: Value, outputFormat: Value): (r: RunRequest)
    ensures r.taskConfig == f.taskConfig && r.taskMetadata == f.metadata
    ensures r.callbackMap == [CallbackEntry(f.tasks, f.tasksString, f.tasksFormat, TargetName)]
    ensures r.noRun == Truthy(noRun)
  {
    RunRequest(f.taskConfig, f.metadata, outputFormat, f.externalTaskListMap,
               [CallbackEntry(f.tasks, f.tasksString, f.tasksFormat, TargetName)],
               askBecomePass, password, config, hosts, f.additionalRoles, Truthy(noRun))
  }

  /** `Frecklecute` (lines 93-181). */
  class Frecklecute {
    /** The ordered name table of line 109. */
    var frecklecutables: ODict<Frecklecutable>
    const config: Value
    const askBecomePass: bool
    const password: Option<string>

    /** Lines 100-114. */
    constructor (input: FrecklecutableInput, config: Value, askBecomePass: bool, password: Option<string>)
      ensures frecklecutables == FromPairs(Named(AsList(input))) && frecklecutables.Valid()
      ensures this.config == config && this.askBecomePass == askBecomePass && this.password == password
    {
      this.config := config;
      this.askBecomePass := askBecomePass;
      this.password := password;
      frecklecutables := Empty();
      new;
      var fs := AsList(input);
      var i := 0;
      while i < |fs|
        invariant 0 <= i <= |fs|
        invariant frecklecutables == FromPairs(Named(fs[..i]))
      {
        assert Named(fs[..i + 1]) == Named(fs[..i]) + [(fs[i].name, fs[i])];
        FromPairsSnoc(Named(fs[..i]), fs[i].name, fs[i]);
        frecklecutables := Put(frecklecutables, fs[i].name, fs[i]);
        i := i + 1;
      }
      assert fs[..i] == fs;
      ConstructedTableValid(input);
    }

    /**
     * `start_frecklecute_run` (lines 126-181) up to the hand-over to the
     * runner: an unknown name is refused; otherwise the request carries the
     * frecklecutable's task config, callback inputs and this front-end's
     * password settings.
     */
    method StartRun(name: string, hosts: Value, noRun: Value, outputFormat: Value) returns (r: Result<RunRequest, Error>)
      ensures name !in frecklecutables.values ==> r == Err(UnknownFrecklecutable(name))
      ensures name in frecklecutables.values ==>
                r == Ok(Request(frecklecutables.values[name], askBecomePass, password, config, hosts, noRun, outputFormat))
    {
      if name !in frecklecutables.values {
        return Err(UnknownFrecklecutable(name));
      }
      var f := frecklecutables.values[name];
      r := Ok(Request(f, askBecomePass, password, config, hosts, noRun, outputFormat));
    }

    /**
     * `start_frecklecute_run` as written: the no-run branch reads
     * `f.task_metadata`, an attribute no frecklecutable has (line 150).
     */
    method StartRunAsWritten(name: string, hosts: Value, noRun: Value, outputFormat: Value) returns (r: Result<RunRequest, Error>)
      ensures name !in frecklecutables.values ==> r == Err(UnknownFrecklecutable(name))
      ensures name in frecklecutables.values && Truthy(noRun) ==> r == Err(MissingAttribute("task_metadata"))
      ensures name in frecklecutables.values && !Truthy(noRun) ==>
                r == Ok(Request(frecklecutables.values[name], askBecomePass, password, config, hosts, noRun, outputFormat))
    {
      if name !in frecklecutables.values {
        return Err(UnknownFrecklecutable(name));
      }
      var f := frecklecutables.values[name];
      if Truthy(noRun) {
        return Err(MissingAttribute("task_metadata"));
      }
      r := Ok(Request(f, askBecomePass, password, config, hosts, noRun, outputFormat));
    }

    /**
     * `execute` (lines 116-124): one run per name in table order. The
     * front-end's table is assumed well formed, as its constructor leaves it.
     */
    method Execute(hosts: Value, noRun: Value, outputFormat: Value) returns (runs: seq<RunRequest>)
      requires frecklecutables.Valid()
      ensures |runs| == |frecklecutables.keys|
      ensures forall i :: 0 <= i < |runs| ==>
                runs[i] == Request(frecklecutables.values[frecklecutables.keys[i]], askBecomePass, password,
                                   config, hosts, noRun, outputFormat)
    {
      runs := [];
      var keys := frecklecutables.keys;
      var i := 0;
      while i < |keys|
        invariant 0 <= i <= |keys|
        invariant |runs| == i
        invariant forall j :: 0 <= j < i ==>
                    runs[j] == Request(frecklecutables.values[keys[j]], askBecomePass, password,
                                       config, hosts, noRun, outputFormat)
      {
        var r := StartRun(keys[i], hosts, noRun, outputFormat);
        runs := runs + [r.value];
        i := i + 1;
      }
    }
  }

  /** Every table the constructor builds is well formed, so `Execute` may run on it. */
  lemma ConstructedTableValid(input: FrecklecutableInput)
    ensures FromPairs(Named(AsList(input))).Valid()
  {
    TableOrder(AsList(input));
  }
}
