/**
 * `frecklecute/cli.py`, `FrecklecuteCommand.freckles_process`: layering the
 * variable sources, rendering and parsing the vars and tasks templates,
 * filtering the result variables, decoding the password option and handing
 * the assembled frecklecutable to a `Frecklecute` front-end.
 *
 * Template rendering, YAML parsing, `frkl.dict_merge`, freckles'
 * `process_extra_task_lists` and `get_task_list_format`, and the key names
 * of freckles' defaults are not part of this model: they arrive as an `Env`.
 */
module Cli {
  import opened Wrappers
  import opened Values
  import opened OrderedDicts
  import opened Frecklecutables

  /** luci's `replace_string`: renders a template against a context, or fails. */
  type Render = (Value, Dict) -> Result<string, string>

  /** freckles' `process_extra_task_lists(metadata, path)`. */
  type ExtraTaskLists = (Dict, Value) -> map<string, Value>

  /** The collaborators of `freckles_process` and the command's own settings. */
  datatype Env = Env(
    merge: Merge,
    yaml: Yaml,
    render: Render,
    extraTaskLists: ExtraTaskLists,
    guessFormat: Value -> Value,
    /** `FX_TASKS_KEY_NAME` and `FX_VARS_KEY_NAME` of freckles' defaults. */
    tasksKey: string,
    varsKey: string,
    /** `self.config` of the command. */
    config: Value)

  /** The arguments of one `freckles_process` call, and the password typed at the prompt. */
  datatype Call = Call(
    commandName: string,
    defaultVars: Dict,
    extraVars: seq<Dict>,
    userInput: Dict,
    metadata: Dict,
    dictletDetails: Dict,
    parentParams: Dict,
    commandVarSpec: map<string, Value>,
    prompted: string)

  // ---------------------------------------------------------------------
  // Variable layering (cli.py:67-71)

  /**
   * Lines 67-71: an empty context merged with the defaults, then each extra
   * source in order, then the user input.
   */
  method PreTemplateContext(merge: Merge, defaultVars: Dict, extraVars: seq<Dict>, userInput: Dict)
    returns (allVars: Dict)
    ensures allVars == FoldMerge(merge, map[], [defaultVars] + extraVars + [userInput])
  {
    allVars := map[];
    allVars := merge(allVars, VMap(defaultVars));
    assert allVars == FoldMerge(merge, map[], [defaultVars] + extraVars[..0]);
    for i := 0 to |extraVars|
      invariant allVars == FoldMerge(merge, map[], [defaultVars] + extraVars[..i])
    {
      assert [defaultVars] + extraVars[..i + 1] == [defaultVars] + extraVars[..i] + [extraVars[i]];
      FoldMergeSnoc(merge, map[], [defaultVars] + extraVars[..i], extraVars[i]);
      allVars := merge(allVars, VMap(extraVars[i]));
    }
    assert extraVars[..|extraVars|] == extraVars;
    FoldMergeSnoc(merge, map[], [defaultVars] + extraVars, userInput);
    allVars := merge(allVars, VMap(userInput));
  }

  /**
   * What a later layer guarantees under a structural merge, for every key it
   * has: a value that is not a mapping replaces the earlier one; a mapping
   * yields a mapping that keeps every key of the later one (nested mappings
   * are merged key by key, so earlier nested keys may remain).
   */
  ghost predicate LaterWins(merge: Merge) {
    forall base: Dict, update: Dict, k :: k in update ==> Wins(merge(base, VMap(update)), update, k)
  }

  /** Key `k` of `update` is reflected in `merged` as a later layer's key must be. */
  predicate Wins(merged: Dict, update: Dict, k: string)
    requires k in update
  {
    && k in merged
    && (!update[k].VMap? ==> merged[k] == update[k])
    && (update[k].VMap? ==> merged[k].VMap? && update[k].entries.Keys <= merged[k].entries.Keys)
  }

  /** The structural merge satisfies `LaterWins`. */
  lemma DeepMergeLaterWins()
    ensures LaterWins((base, update) => DeepMerge(base, update))
  {
    forall base: Dict, update: Dict, k | k in update
      ensures Wins(DeepMerge(base, VMap(update)), update, k)
    {
      var merged := DeepMerge(base, VMap(update));
      assert k in base.Keys + update.Keys;
      if update[k].VMap? && k in base && base[k].VMap? {
        DeepMergeKeepsKeys();
        assert merged[k] == VMap(DeepMerge(base[k].entries, update[k]));
        assert DeepMerge(base[k].entries, VMap(update[k].entries)).Keys == base[k].entries.Keys + update[k].entries.Keys;
      }
    }
  }

  /**
   * Under a structural merge, the user input overrides every other source:
   * each of its non-mapping values is the context's value, and each of its
   * mappings is merged into a mapping keeping all of its keys. The order of
   * the layering is what makes it so.
   */
  lemma UserInputWins(merge: Merge, defaultVars: Dict, extraVars: seq<Dict>, userInput: Dict)
    requires LaterWins(merge)
    ensures forall k :: k in userInput ==>
              Wins(FoldMerge(merge, map[], [defaultVars] + extraVars + [userInput]), userInput, k)
  {
    FoldMergeSnoc(merge, map[], [defaultVars] + extraVars, userInput);
  }

  /** Under a key-keeping merge, the context holds exactly the keys of all its sources. */
  lemma PreTemplateKeys(merge: Merge, defaultVars: Dict, extraVars: seq<Dict>, userInput: Dict)
    requires KeepsKeys(merge)
    ensures FoldMerge(merge, map[], [defaultVars] + extraVars + [userInput]).Keys ==
            defaultVars.Keys + KeysOf(extraVars) + userInput.Keys
  {
    var layers := [defaultVars] + extraVars + [userInput];
    FoldMergeKeys(merge, map[], layers);
    KeysOfAppend([defaultVars] + extraVars, [userInput]);
    KeysOfAppend([defaultVars], extraVars);
    KeysOfOne(defaultVars);
    KeysOfOne(userInput);
  }

  lemma KeysOfOne(d: Dict)
    ensures KeysOf([d]) == d.Keys
  {
    assert [d][1..] == [];
  }

  lemma {:induction false} KeysOfAppend(first: seq<Dict>, second: seq<Dict>)
    ensures KeysOf(first + second) == KeysOf(first) + KeysOf(second)
    decreases |first|
  {
    if first == [] {
      assert first + second == second;
    } else {
      assert (first + second)[1..] == first[1..] + second;
      KeysOfAppend(first[1..], second);
    }
  }

  // ---------------------------------------------------------------------
  // Templates (cli.py:78-96)

  /**
   * Lines 81-90: the vars template rendered against the layered context and
   * parsed; a truthy result is merged into a copy of the context, anything
   * else leaves the context as it was.
   */
  function VarsContext(env: Env, varsString: Value, allVars: Dict): (r: Result<Dict, Error>)
    ensures env.render(varsString, allVars).Err? ==>
              r == Err(RenderFailed(env.render(varsString, allVars).error))
    ensures env.render(varsString, allVars).Ok? ==>
              var loaded := env.yaml.safeLoad(env.render(varsString, allVars).value);
              && (loaded.Err? ==> r == Err(VarsParseError(loaded.error)))
              && (loaded.Ok? && !Truthy(loaded.value) ==> r == Ok(allVars))
              && (loaded.Ok? && Truthy(loaded.value) ==> r == Ok(env.merge(allVars, loaded.value)))
  {
    match env.render(varsString, allVars)
    case Err(e) => Err(RenderFailed(e))
    case Ok(replaced) =>
      match env.yaml.safeLoad(replaced)
      case Err(e) => Err(VarsParseError(e))
      case Ok(varsDictlet) =>
        if Truthy(varsDictlet) then Ok(env.merge(allVars, varsDictlet)) else Ok(allVars)
  }

  /**
   * Lines 92-96: the tasks template rendered against the final context and
   * loaded; a load failure names the command.
   */
  function TasksList(env: Env, commandName: string, tasksString: Value, context: Dict): (r: Result<Value, Error>)
    ensures env.render(tasksString, context).Err? ==>
              r == Err(RenderFailed(env.render(tasksString, context).error))
    ensures env.render(tasksString, context).Ok? ==>
              var loaded := env.yaml.orderedLoad(env.render(tasksString, context).value);
              && (loaded.Err? ==> r == Err(TaskParseError(commandName, loaded.error)))
              && (loaded.Ok? ==> r == Ok(loaded.value))
  {
    match env.render(tasksString, context)
    case Err(e) => Err(RenderFailed(e))
    case Ok(replaced) =>
      match env.yaml.orderedLoad(replaced)
      case Err(e) => Err(TaskParseError(commandName, e))
      case Ok(tasks) => Ok(tasks)
  }

  // ---------------------------------------------------------------------
  // Metadata and options with their defaults (cli.py:73-79, 101-103)

  function Hosts(parentParams: Dict): Value {
    GetOr(parentParams, "hosts", VList([VStr("localhost")]))
  }

  function OutputFormat(parentParams: Dict): Value {
    GetOr(parentParams, "output", VStr("default"))
  }

  function PasswordOption(parentParams: Dict): Value {
    GetOr(parentParams, "password", VNone)
  }

  function NoRun(parentParams: Dict): Value {
    GetOr(parentParams, "no_run", VBool(false))
  }

  /** The `__freckles__` block of the metadata; an absent block is empty, a non-mapping one raises. */
  function Hints(metadata: Dict): (r: Result<Dict, Error>)
    ensures "__freckles__" !in metadata ==> r == Ok(map[])
    ensures "__freckles__" in metadata ==>
              (r.Ok? <==> metadata["__freckles__"].VMap?) &&
              (r.Ok? ==> r.value == metadata["__freckles__"].entries) &&
              (r.Err? ==> r.error == NotADict("__freckles__"))
  {
    match GetOr(metadata, "__freckles__", VMap(map[]))
    case VMap(entries) => Ok(entries)
    case _ => Err(NotADict("__freckles__"))
  }

  /**
   * Every default of the metadata and the run options, when the key is
   * missing: the templates are empty strings, there is no task-list format
   * and no extra role, and the run goes to `localhost` with the default
   * output, no password and `no_run` off.
   */
  lemma MetadataDefaults(env: Env, c: Call)
    requires env.tasksKey !in c.metadata && env.varsKey !in c.metadata && "__freckles__" !in c.metadata
    requires "hosts" !in c.parentParams && "output" !in c.parentParams
    requires "password" !in c.parentParams && "no_run" !in c.parentParams
    ensures Hints(c.metadata) == Ok(map[])
    ensures SetupOf(env, c).Ok? ==>
              && VarsContext(env, VStr(""), PreContext(env, c)) == Ok(SetupOf(env, c).value.context)
              && TasksList(env, c.commandName, VStr(""), SetupOf(env, c).value.context) == Ok(SetupOf(env, c).value.tasksList)
              && SetupOf(env, c).value.taskListFormat == VNone
              && SetupOf(env, c).value.roles == VList([])
    ensures Hosts(c.parentParams) == VList([VStr("localhost")])
    ensures OutputFormat(c.parentParams) == VStr("default")
    ensures DecodePassword(PasswordOption(c.parentParams), c.prompted) == Ok((false, None))
    ensures !Truthy(NoRun(c.parentParams))
  {
  }

  // ---------------------------------------------------------------------
  // Result variables (cli.py:105-108)

  /** `details.get("is_var", False) == True`. */
  predicate IsVar(details: Value)
    requires details.VMap?
  {
    EqualsTrue(GetOr(details.entries, "is_var", VBool(false)))
  }

  /** Every spec entry that the loop reads is a mapping (the loop reads it only for names in the context). */
  predicate VarSpecReadable(spec: map<string, Value>, context: Dict) {
    forall n :: n in spec && n in context ==> spec[n].VMap?
  }

  /** The result variables: the spec names flagged `is_var` that the context has, with their values. */
  function ResultVarsOf(spec: map<string, Value>, context: Dict): (r: Dict)
    requires VarSpecReadable(spec, context)
    ensures forall n :: n in r <==> n in spec && n in context && IsVar(spec[n])
    ensures forall n :: n in r ==> r[n] == context[n]
  {
    map n | n in spec && n in context && IsVar(spec[n]) :: context[n]
  }

  /**
   * Lines 105-108: the loop over the variable spec. Which unreadable entry
   * is reported depends on the spec's iteration order, left open here.
   */
  method ResultVars(spec: map<string, Value>, context: Dict) returns (r: Result<Dict, Error>)
    ensures r.Ok? <==> VarSpecReadable(spec, context)
    ensures r.Ok? ==> r.value == ResultVarsOf(spec, context)
    ensures r.Err? ==>
              r.error.NotADict? && r.error.key in spec && r.error.key in context && !spec[r.error.key].VMap?
  {
    var resultVars: Dict := map[];
    var todo := spec.Keys;
    while todo != {}
      invariant todo <= spec.Keys
      invariant forall n :: n in spec && n !in todo && n in context ==> spec[n].VMap?
      invariant forall n :: n in resultVars <==>
                  n in spec && n !in todo && n in context && spec[n].VMap? && IsVar(spec[n])
      invariant forall n :: n in resultVars ==> resultVars[n] == context[n]
      decreases |todo|
    {
      var name :| name in todo;
      var details := spec[name];
      if name in context {
        if !details.VMap? {
          return Err(NotADict(name));
        }
        if IsVar(details) {
          resultVars := resultVars[name := context[name]];
        }
      }
      todo := todo - {name};
    }
    r := Ok(resultVars);
  }

  // ---------------------------------------------------------------------
  // Password option (cli.py:115-130)

  /**
   * Lines 115-130: the `password` option decoded into `(ask_become_pass,
   * password)`; no option means `"no"`, and `prompted` is what the user
   * types when asked.
   */
  function DecodePassword(option: Value, prompted: string): (r: Result<(bool, Option<string>), Error>)
    ensures r.Ok? <==> option in {VNone, VStr("ask"), VStr("ansible"), VStr("no")}
    ensures r.Err? ==> r.error == InvalidPassword(option)
    ensures r.Ok? ==> (r.value.0 <==> option == VStr("ansible"))
    ensures r.Ok? ==> (r.value.1.Some? <==> option == VStr("ask"))
    ensures r.Ok? && r.value.1.Some? ==> r.value.1.value == prompted
  {
    var passwordType := if option == VNone then VStr("no") else option;
    if passwordType == VStr("ask") then Ok((false, Some(prompted)))
    else if passwordType == VStr("ansible") then Ok((true, None))
    else if passwordType == VStr("no") then Ok((false, None))
    else Err(InvalidPassword(passwordType))
  }

  // ---------------------------------------------------------------------
  // freckles_process (cli.py:64-133)

  /** What lines 67-103 compute before the result variables. */
  datatype Setup = Setup(context: Dict, tasksList: Value, extraTaskLists: map<string, Value>,
                         taskListFormat: Value, roles: Value)

  /** The layered context of lines 67-71. */
  function PreContext(env: Env, c: Call): Dict {
    FoldMerge(env.merge, map[], [c.defaultVars] + c.extraVars + [c.userInput])
  }

  /**
   * Lines 67-103, in the source's order: the vars template, the tasks
   * template, the dictlet's `path`, then the `__freckles__` hints.
   */
  function SetupOf(env: Env, c: Call): (r: Result<Setup, Error>)
    ensures VarsContext(env, GetOr(c.metadata, env.varsKey, VStr("")), PreContext(env, c)).Err? ==>
              r == Err(VarsContext(env, GetOr(c.metadata, env.varsKey, VStr("")), PreContext(env, c)).error)
    ensures r.Ok? ==>
              && VarsContext(env, GetOr(c.metadata, env.varsKey, VStr("")), PreContext(env, c)) == Ok(r.value.context)
              && TasksList(env, c.commandName, GetOr(c.metadata, env.tasksKey, VStr("")), r.value.context) == Ok(r.value.tasksList)
              && "path" in c.dictletDetails
              && r.value.extraTaskLists == env.extraTaskLists(c.metadata, c.dictletDetails["path"])
              && Hints(c.metadata).Ok?
              && r.value.taskListFormat == GetOr(Hints(c.metadata).value, "task_list_format", VNone)
              && r.value.roles == GetOr(Hints(c.metadata).value, "roles", VList([]))
    ensures r.Err? && r.error.MissingKey? ==> "path" !in c.dictletDetails
  {
    var context :- VarsContext(env, GetOr(c.metadata, env.varsKey, VStr("")), PreContext(env, c));
    var tasksList :- TasksList(env, c.commandName, GetOr(c.metadata, env.tasksKey, VStr("")), context);
    if "path" !in c.dictletDetails then Err(MissingKey("path"))
    else
      var extra := env.extraTaskLists(c.metadata, c.dictletDetails["path"]);
      var hints :- Hints(c.metadata);
      Ok(Setup(context, tasksList, extra, GetOr(hints, "task_list_format", VNone), GetOr(hints, "roles", VList([]))))
  }

  /**
   * Everything `freckles_process` needs to reach the runner: each stage
   * before the constructor succeeds, the frecklecutable assembles and the
   * password option decodes.
   */
  ghost predicate Runs(env: Env, c: Call) {
    && SetupOf(env, c).Ok?
    && VarSpecReadable(c.commandVarSpec, SetupOf(env, c).value.context)
    && Assembles(SetupOf(env, c).value.tasksList, SetupOf(env, c).value.taskListFormat,
                 SetupOf(env, c).value.extraTaskLists, env.yaml, env.guessFormat)
    && DecodePassword(PasswordOption(c.parentParams), c.prompted).Ok?
  }

  /**
   * `freckles_process` with line 110 calling the constructor with its
   * actual signature (see Findings): the frecklecutable built from the
   * loaded tasks, the result variables, the hinted format, the extra task
   * lists and roles, run once by a `Frecklecute` front-end.
   */
  method FrecklesProcess(env: Env, c: Call) returns (r: Result<seq<RunRequest>, Error>)
    ensures SetupOf(env, c).Err? ==> r == Err(SetupOf(env, c).error)
    ensures r.Ok? <==> Runs(env, c)
    ensures SetupOf(env, c).Ok? && !VarSpecReadable(c.commandVarSpec, SetupOf(env, c).value.context) ==>
              r.Err? && r.error.NotADict?
    ensures SetupOf(env, c).Ok? && VarSpecReadable(c.commandVarSpec, SetupOf(env, c).value.context) ==>
              var s := SetupOf(env, c).value;
              && (!Assembles(s.tasksList, s.taskListFormat, s.extraTaskLists, env.yaml, env.guessFormat) ==>
                    r.Err? &&
                    ConstructorError(r.error, s.tasksList, s.taskListFormat, s.extraTaskLists, env.yaml, env.guessFormat))
              && (Assembles(s.tasksList, s.taskListFormat, s.extraTaskLists, env.yaml, env.guessFormat) &&
                  DecodePassword(PasswordOption(c.parentParams), c.prompted).Err? ==>
                    r == Err(DecodePassword(PasswordOption(c.parentParams), c.prompted).error))
    ensures Runs(env, c) ==>
              var s := SetupOf(env, c).value;
              var password := DecodePassword(PasswordOption(c.parentParams), c.prompted).value;
              exists f ::
                && Assembled(f, c.commandName, s.tasksList, ResultVarsOf(c.commandVarSpec, s.context),
                             s.taskListFormat, s.extraTaskLists, s.roles, env.yaml, env.guessFormat, env.merge)
                && r == Ok([Request(f, password.0, password.1, env.config, Hosts(c.parentParams),
                                    NoRun(c.parentParams), OutputFormat(c.parentParams))])
  {
    var setup := SetupOf(env, c);
    if setup.Err? {
      return Err(setup.error);
    }
    var s := setup.value;
    var resultVars := ResultVars(c.commandVarSpec, s.context);
    if resultVars.Err? {
      return Err(resultVars.error);
    }
    var built := NewFrecklecutable(c.commandName, s.tasksList, resultVars.value, s.taskListFormat,
                                   s.extraTaskLists, s.roles, env.yaml, env.guessFormat, env.merge);
    if built.Err? {
      return Err(built.error);
    }
    var f := built.value;
    var password := DecodePassword(PasswordOption(c.parentParams), c.prompted);
    if password.Err? {
      return Err(password.error);
    }
    var runs := RunSingle(f, env.config, password.value.0, password.value.1,
                          Hosts(c.parentParams), NoRun(c.parentParams), OutputFormat(c.parentParams));
    r := Ok(runs);
  }

  /**
   * Lines 132-133: a front-end built from the one frecklecutable, executed
   * once; it issues exactly one run request, for that frecklecutable.
   */
  method RunSingle(f: Frecklecutable, config: Value, askBecomePass: bool, password: Option<string>,
                   hosts: Value, noRun: Value, outputFormat: Value)
    returns (runs: seq<RunRequest>)
    ensures runs == [Request(f, askBecomePass, password, config, hosts, noRun, outputFormat)]
  {
    var run := new Frecklecute(Single(f), config, askBecomePass, password);
    TableOfOne(f);
    runs := run.Execute(hosts, noRun, outputFormat);
  }

  /** The table of a front-end built from one frecklecutable holds exactly that one. */
  lemma TableOfOne(f: Frecklecutable)
    ensures FromPairs(Named(AsList(Single(f)))) == ODict([f.name], map[f.name := f])
  {
    assert Named([f]) == [(f.name, f)];
    assert Named([f])[..0] == [];
  }

  /**
   * `freckles_process` as written: line 110 names `Frecklecutable`, which
   * line 27 does not import, so every call that gets that far raises
   * `NameError` before anything runs.
   */
  method FrecklesProcessAsWritten(env: Env, c: Call) returns (r: Result<seq<RunRequest>, Error>)
    ensures r.Err?
    ensures SetupOf(env, c).Err? ==> r == Err(SetupOf(env, c).error)
    ensures SetupOf(env, c).Ok? && VarSpecReadable(c.commandVarSpec, SetupOf(env, c).value.context) ==>
              r == Err(UndefinedName("Frecklecutable"))
  {
    var setup := SetupOf(env, c);
    if setup.Err? {
      return Err(setup.error);
    }
    var resultVars := ResultVars(c.commandVarSpec, setup.value.context);
    if resultVars.Err? {
      return Err(resultVars.error);
    }
    return Err(UndefinedName("Frecklecutable"));
  }

  /** A command with empty templates, no metadata and no options, in an environment that accepts it. */
  lemma QuietCall() returns (env: Env, c: Call)
    ensures SetupOf(env, c) == Ok(Setup(PreContext(env, c), VList([]), map[], VNone, VList([])))
    ensures env.guessFormat(VList([])) == VNone
    ensures env.yaml.safeDump(VList([])) == Ok("")
    ensures c.commandVarSpec == map[] && c.parentParams == map[]
  {
    env := Env(
      (base: Dict, update: Value) => base,
      Yaml(s => Ok(VList([])), s => Ok(VList([])), v => Ok("")),
      (template: Value, context: Dict) => Ok(""),
      (metadata: Dict, path: Value) => map[],
      tasks => VNone,
      "tasks", "vars", VNone);
    c := Call("hello", map[], [], map[], map[], map["path" := VStr("/hello")], map[], map[], "");
    assert VarsContext(env, VStr(""), PreContext(env, c)) == Ok(PreContext(env, c));
  }

  /**
   * Calls that reach the runner exist: for them the corrected process
   * returns a run request and the process as written raises.
   */
  lemma SomeCallRuns()
    ensures exists env: Env, c: Call :: Runs(env, c)
  {
    var env, c := QuietCall();
    assert ResolveFormat(VNone, VNone) == Ok(Freckles);
    assert PasswordOption(c.parentParams) == VNone;
    assert Runs(env, c);
  }
}
