# frecklecute, modelled in Dafny

frecklecute is the command-line front-end of the freckles project. It runs a
*frecklecutable*: a YAML task list with variables, found by name in a set of
trusted repositories or given by path. This project models the three pieces
of sequential logic frecklecute owns and proves what they guarantee:

- **Discovery** (`frecklecute/utils.py`): `find_frecklecutable_dirs` walks a
  search root and finds the folders that hold frecklecutables. These are the
  root itself, subfolders named `frecklecutables` or `.frecklecutables`, and
  folders with a `.frecklecutables` marker file. `is_frecklecutable` and
  `find_frecklecutables_in_folder` pick out the frecklecutable files of one
  folder. The `FrecklecutableFinder` class scans roots and caches what it
  found.
- **Assembly** (`frecklecute/frecklecute.py`): the `Frecklecutable`
  constructor parses the tasks and resolves and checks the task-list format.
  It builds the alias map and the final tasks, then the one-block
  `task_config`. The `Frecklecute` front-end keeps an ordered table of
  frecklecutables and turns each one into a request for the task runner.
- **The command** (`frecklecute/cli.py`, `freckles_process`): it layers the
  variable sources and renders and parses the vars and tasks templates. It
  filters the result variables, decodes the password option and hands the
  frecklecutable to a `Frecklecute` front-end.

Layout, one module per file:

| file | module | contents |
|---|---|---|
| `wrappers.dfy` | `Wrappers` | `Option`, `Result` |
| `sequences.dfy` | `Sequences` | `Distinct`, `FirstIndex`, `Dedup` (keep first occurrences) and their lemmas |
| `values.dfy` | `Values` | Python values, truthiness, `dict.get`, the errors raised, the YAML library and `frkl.dict_merge` as parameters, folds of merges |
| `odict.dfy` | `OrderedDicts` | `OrderedDict` as keys in insertion order plus a map, built from a sequence of assignments |
| `filesystem.dfy` | `Files` | a directory tree with an abstract `realpath`, `os.path.join`/`basename`, `os.walk` top-down with pruning |
| `utils.dfy` | `Utils` | discovery and the finder |
| `frecklecute.dfy` | `Frecklecutables` | the `Frecklecutable` constructor and the `Frecklecute` class |
| `cli.dfy` | `Cli` | `freckles_process` |

The filesystem is a finite tree of entries. `realpath`, the YAML library,
template rendering, `frkl.dict_merge` and freckles' `get_task_list_format`
and `process_extra_task_lists` are not part of this model. Each is a
parameter, and a property that depends on one says so in its `requires`
(for example `KeepsKeys(merge)` or `RoundTrips(yaml)`). Exceptions are `Err`
values of a `Result`. Python's `None` is `VNone`.

## Model

| member | source | states |
|---|---|---|
| Utils.FrecklecutableDirs | frecklecute/utils.py:70-71 | the result is empty when `path` is not a directory |
| Utils.NoFolderTwice | frecklecute/utils.py:85-91 | no path is listed twice, because each append is guarded by a membership test on the result so far |
| Utils.FindFrecklecutableDirs | frecklecute/utils.py:56-93 | the nested append loops return exactly `FrecklecutableDirs`: the candidates in walk order, with repeats dropped |
| Utils.CollectNamedSubfolders | frecklecute/utils.py:82-86 | the loop over the kept subfolder names extends the deduplicated result by the folders named `frecklecutables`/`.frecklecutables` |
| Utils.CollectMarkedFolder | frecklecute/utils.py:88-91 | the loop over file names adds the walked folder when it holds the `.frecklecutables` marker, unless it is already listed |
| Utils.CollectStep | frecklecute/utils.py:80-91 | one walk step, with its excluded subfolders pruned, extends the deduplicated result by what that step finds |
| Utils.CollectSteps | frecklecute/utils.py:78-91 | the walk loop extends the deduplicated result by everything the steps find, in walk order, with repeats dropped |
| Files.WalkShape | frecklecute/utils.py:78-80 | every folder the pruned walk visits is reached from the top along names none of which is excluded |
| Utils.DiscoveredFolders | frecklecute/utils.py:73-91 | a path is in the result iff it is `path` given with `use_root_path`, or a walked folder's subfolder named `frecklecutables`/`.frecklecutables` that is not excluded, or a walked folder with the marker file; every walked folder lies below `realpath(path)` through non-excluded names |
| Utils.RootPathFirst | frecklecute/utils.py:73-74 | with `use_root_path`, the result is non-empty and starts with `path` |
| Utils.RootOnlyWithMarker | frecklecute/utils.py:75-91 | without `use_root_path`, the walked root is in the result iff it directly holds the marker file |
| Utils.FirstMetOrder | frecklecute/utils.py:85-91 | result elements appear in the order the walk first meets them |
| Utils.RootListedTwice | frecklecute/utils.py:74-91 | when `path` is not already canonical and its folder holds the marker, both `path` and `realpath(path)` are listed |
| Utils.IsFrecklecutable | frecklecute/utils.py:95-104 | true iff the path is a regular file and either dots are allowed or its basename has no `.` |
| Utils.FindFrecklecutablesInFolder | frecklecute/utils.py:106-118 | the listing loop returns `InFolder(fs, path)` for every value of `allow_dots_in_filename`, or the `os.listdir` failure when `path` is not a directory |
| Utils.InFolderSpec | frecklecute/utils.py:106-118 | the table's keys are the qualifying children in listing order; a child is a key iff its resolved path passes `is_frecklecutable` with dots disallowed, and it maps to `{"path": realpath, "type": "file"}` |
| Utils.InFolderNoDots | frecklecute/utils.py:111-116 | a listed child whose path `realpath` leaves unchanged has no `.` in its name |
| Utils.ScanPath | frecklecute/utils.py:153-158 | scanning one root merges the listings of its folders in discovery order; the first folder that cannot be listed aborts the scan |
| Utils.MergeFoldersNames | frecklecute/utils.py:156-158 | merging folder listings succeeds iff every folder can be listed; under a key-keeping merge, a name is then in the result iff it was already there or some folder lists it |
| Utils.ScanRootNames | frecklecute/utils.py:153-158 | a root's scan succeeds iff every folder `find_frecklecutable_dirs` finds for it can be listed; under a key-keeping merge, a name is then in the root's table iff one of those folders lists a frecklecutable of that name |
| Utils.MergeRootsFold | frecklecute/utils.py:161-163 | merging the roots' tables one by one equals the left fold of the merge over those tables in root order |
| Utils.MergeRootsNames | frecklecute/utils.py:161-163 | under a key-keeping merge, a name is in the merged table iff some root's table has it |
| Utils.CachedRootsNotRescanned | frecklecute/utils.py:151-152 | once every root is in `path_cache`, a later pass that only adds entries for those roots leaves `path_cache` unchanged |
| Utils.FreshRoots | frecklecute/utils.py:151-152 | the roots a pass over `paths` scans are roots of `paths` that are not yet cached |
| Utils.FreshRootsOnce | frecklecute/utils.py:151-152 | a pass scans every uncached root of `paths` exactly once: its scan order is duplicate-free and holds exactly the uncached roots |
| Utils.FreshRootsAll | frecklecute/utils.py:151-152 | from an empty `path_cache`, a pass over distinct roots scans them in `paths` order |
| Utils.FrecklecutableFinder.constructor | frecklecute/utils.py:133-138 | a new finder has no global cache (`None`) and an empty `path_cache`, and its invariant holds |
| Utils.FrecklecutableFinder.Remember | frecklecute/utils.py:159-161 | a freshly scanned root is added to `path_cache` and merged into the global cache, keeping the invariant: each root scanned once and the global cache equal to the scanned tables merged in scan order |
| Utils.FrecklecutableFinder.ScanIfUncached | frecklecute/utils.py:151-161 | a root already in `path_cache` is not scanned again and nothing changes; otherwise it is scanned, cached and appended to the scan order, or the scan's error is returned and nothing changes |
| Utils.FrecklecutableFinder.Advance | frecklecute/utils.py:150-163 | one turn of the loop over `paths`: the root is made sure of, the cached roots become the old ones plus those met so far, the scan order grows by `FreshRoots`, and the result so far is the merge of the roots met so far; a failure leaves the state as it was |
| Utils.FrecklecutableFinder.MergeAll | frecklecute/utils.py:149-165 | once the global cache exists, the loop over `paths` keeps old `path_cache` entries, scans the uncached roots in `FreshRoots` order, and returns their tables merged in `paths` order, or the scan error of the first uncached root that cannot be scanned |
| Utils.FrecklecutableFinder.GetAllDictlets | frecklecute/utils.py:144-165 | the global cache exists afterwards; old `path_cache` entries are kept and new ones are only for configured roots; on success every root is cached, the result is their tables merged in `paths` order, and the roots newly merged into the global cache are the previously uncached roots of `paths` in `paths` order (so from a fresh finder over distinct roots the global cache equals the result); a failure is the scan error of the first uncached root that cannot be scanned, with the roots before it cached and scanned in order |
| Utils.FrecklecutableFinder.GetAllDictletNames | frecklecute/utils.py:140-142 | the names of the merged table, with the same caching and scan-order guarantees as `GetAllDictlets` |
| Utils.FrecklecutableFinder.GetDictlet | frecklecute/utils.py:167-183 | before the first scan, a literal path that is a frecklecutable is returned as its file record and nothing changes; otherwise the roots are scanned as by `get_all_dictlets`: on success every root is cached in `FreshRoots` order and the result is the global cache's entry for `name`, or `None`; a failure is the scan error of the first uncached root that cannot be scanned |
| Frecklecutables.ParseTasks | frecklecute/frecklecute.py:33-41 | a string is parsed and kept as the tasks string, a parse failure raises; a list is kept and dumped to get the string, and a failed dump raises; any other type raises |
| Frecklecutables.TasksStringLoads | frecklecute/frecklecute.py:33-38 | when YAML reads back whatever it manages to write, the tasks string loads to the task list, whichever branch built them |
| Frecklecutables.ResolveFormat | frecklecute/frecklecute.py:47-59 | an explicit format is used, else the guess, else `"freckles"`; the result is `freckles` or `ansible` and names the chosen value; any other chosen value raises an error that names it |
| Frecklecutables.ExplicitFormatIgnoresGuess | frecklecute/frecklecute.py:47-49 | with an explicit format, the guess makes no difference |
| Frecklecutables.IncludePathTargetsCallback | frecklecute/frecklecute.py:71-73 | the include task's relative path ends in `frecklecutable_default_tasks.yml`, the file the pre-run callback is told to write |
| Frecklecutables.FinalTasks | frecklecute/frecklecute.py:70-86 | for `freckles` the final tasks are the tasks; for `ansible` they are one task whose `vars.free_form` is the include path |
| Frecklecutables.TaskListAliases | frecklecute/frecklecute.py:65-67 | succeeds iff every external task list has a `play_target`; the aliases then have exactly the map's keys, each mapped to its `play_target`; a failure names an entry without one |
| Frecklecutables.AssembledUnique | frecklecute/frecklecute.py:65-90 | the constructed frecklecutable is determined by the arguments, whatever order the alias loop visits the map in |
| Frecklecutables.Complete | frecklecute/frecklecute.py:43-90 | after parsing and format resolution, construction completes iff every external task list has a target; the result then has one alias per entry, the final tasks for the format, `all_vars` = vars merged with the aliases and a one-block `task_config`; a failure names an entry without a target |
| Frecklecutables.NewFrecklecutable | frecklecute/frecklecute.py:22-90 | construction succeeds iff the tasks parse (or dump), the format resolves and every external task list has a target; errors come in source order (`ConstructorError`): the parse error, else the format error, else `NoPlayTarget` for an entry without a target; a result has the parsed tasks, resolved format, aliases, final tasks, `all_vars` = vars merged with the aliases, and `task_config` = one block of final tasks and `all_vars` |
| Frecklecutables.AsList | frecklecute/frecklecute.py:106-107 | a single frecklecutable is wrapped into a one-element list; a list is kept |
| Frecklecutables.TableOrder | frecklecute/frecklecute.py:109-111 | the table lists each name once, in first-insertion order; its names are exactly the given frecklecutables' names; each name maps to a frecklecutable of that name; distinct names keep the given order |
| Frecklecutables.LastValueName | frecklecute/frecklecute.py:110-111 | the frecklecutable stored last under a name carries that name |
| Frecklecutables.ConstructedTableValid | frecklecute/frecklecute.py:109-111 | every table the constructor builds is well formed |
| Frecklecutables.Request | frecklecute/frecklecute.py:137-177 | the runner is given the frecklecutable's `task_config`, its metadata and a one-entry callback map with its tasks, tasks string, format and `frecklecutable_default_tasks.yml` |
| Frecklecutables.Frecklecute.constructor | frecklecute/frecklecute.py:100-114 | the table is built from the given frecklecutables in order, keyed by name, is well formed, and the settings are stored |
| Frecklecutables.Frecklecute.StartRun | frecklecute/frecklecute.py:132-177 | an unknown name raises an error naming it; a known one yields the request for its frecklecutable with this front-end's settings (frecklecute.py:150 corrected, see Findings) |
| Frecklecutables.Frecklecute.StartRunAsWritten | frecklecute/frecklecute.py:147-158 | as written, a known name with `no_run` set fails on the missing `task_metadata` attribute |
| Frecklecutables.Frecklecute.Execute | frecklecute/frecklecute.py:116-124 | one request per table entry, in table order, each as `StartRun` gives it (so with frecklecute.py:150 corrected, see Findings) |
| Cli.PreTemplateContext | frecklecute/cli.py:67-71 | the context is an empty dictionary merged with the defaults, then each extra source in order, then the user input |
| Cli.UserInputWins | frecklecute/cli.py:67-71 | under a structural merge (`LaterWins`), every user-input key is in the context: a non-mapping user value is the context's value, and a mapping user value yields a mapping that keeps all of its keys |
| Values.DeepMergeKeepsKeys | frecklecute/cli.py:67-71 | the structural merge of nested mappings keeps exactly the keys of both sides, so `KeepsKeys` holds for it |
| Cli.DeepMergeLaterWins | frecklecute/cli.py:67-71 | the structural merge satisfies `LaterWins`, so `UserInputWins` applies to a merge of the kind `frkl.dict_merge` performs |
| Cli.PreTemplateKeys | frecklecute/cli.py:67-71 | under a key-keeping merge, the context's keys are the union of all sources' keys |
| Cli.VarsContext | frecklecute/cli.py:81-90 | a rendering or vars-parse failure raises; a falsy parsed template leaves the context as it was; a truthy one is merged on top |
| Cli.TasksList | frecklecute/cli.py:92-96 | the tasks template is rendered against the final context and loaded; a load failure names the command |
| Cli.Hints | frecklecute/cli.py:101-103 | a missing `__freckles__` block counts as empty; a block that is not a mapping raises |
| Cli.MetadataDefaults | frecklecute/cli.py:73-103 | when keys are missing: the set-up context and tasks come from empty vars and tasks templates, there is no task-list format and the roles are `[]`; hosts `["localhost"]`, output `"default"`, the password decodes to `(False, None)`, `no_run` is false |
| Cli.ResultVarsOf | frecklecute/cli.py:105-108 | a name is a result variable iff it is in the spec, in the final context and flagged `is_var == True`; its value is the context's |
| Cli.ResultVars | frecklecute/cli.py:105-108 | the filter loop succeeds iff every spec entry it reads is a mapping, and then returns `ResultVarsOf`; a failure names an unreadable entry |
| Cli.DecodePassword | frecklecute/cli.py:115-130 | `None` counts as `"no"`; `"ask"` gives `(False, prompted)`, `"ansible"` gives `(True, None)`, `"no"` gives `(False, None)`; any other value raises an error naming it |
| Cli.SetupOf | frecklecute/cli.py:67-103 | the stages before the result variables, in source order: vars template, tasks template, the dictlet's `path`, then the hints |
| Cli.RunSingle | frecklecute/cli.py:132-133 | a front-end built from the one frecklecutable issues exactly one request, for it, as `StartRun` gives it (frecklecute.py:150 corrected) |
| Cli.FrecklesProcess | frecklecute/cli.py:64-133 | with both Findings corrected (line 110 here and frecklecute/frecklecute.py:150 in the front-end it runs): each stage's error is passed on (set-up errors exactly, an unreadable spec entry as `NotADict`, the constructor's error as `ConstructorError` describes, the password error exactly), and the command reaches the runner iff every stage succeeds; it then issues one request for the frecklecutable assembled from the loaded tasks, the result variables, the hinted format, the extra task lists and the roles, with the decoded password settings and the run options |
| Cli.FrecklesProcessAsWritten | frecklecute/cli.py:105-110 | as written, every call whose set-up succeeds and whose spec entries can be read fails at line 110 with `NameError`, before the constructor, the password and the run |
| Cli.SomeCallRuns | frecklecute/cli.py:64-133 | some call passes every stage (`Runs` holds for it), so on that call the corrected command issues a request and the command as written fails |

## Left out

- Real filesystem access, the logging calls and the `click.echo`/`click.prompt` output. The filesystem is a finite tree with an abstract `realpath`. The typed password is an input of the call.
- Symbolic-link cycles under `followlinks=True`. The tree is finite, so the walk always ends.
- `DEFAULT_EXCLUDE_DIRS`, `FX_TASKS_KEY_NAME` and `FX_VARS_KEY_NAME` come from freckles' defaults, which are not part of this model. They are parameters (`excl`, `Env.tasksKey`, `Env.varsKey`).
- `frkl.dict_merge`: the merge is a parameter. No rule for keys present on both sides is asserted of it. Properties that need one assume it: `KeepsKeys`, and `LaterWins`, which describes a structural merge where nested mappings merge key by key and other values are replaced. `Values.DeepMerge` is one merge that meets both; it is not claimed to be `frkl`'s exact algorithm. The key order of merged dictionaries is not modelled.
- `frkl.dict_merge` with `copy_dct=False` (cli.py:68-71, utils.py:158-163): the model's merge is a total function on values. It never fails, even for the truthy non-mapping vars value cli.py:88 can pass it. It does not update its first argument in place, so aliasing between the finder's tables, which share nested dictionaries, is not modelled.
- Template rendering, YAML loading and dumping, `get_task_list_format`, `process_extra_task_lists`, `create_external_task_list_callback` and `parse_tasks_dictlet`. These are foreign code and are parameters or left out.
- `create_and_run_nsbl_runner` and everything after it. `Frecklecute.StartRun` returns the request the runner would get, and `print_task_list_details` is not modelled.
- `FrecklecutableReader`, `print_task_list_details`, `print_version`, the click command class and decorators, shell completion, and `setup.py`.
- The `config` argument of `freckles_process`. It is never read, because the front-end gets `self.config` (`Env.config`).
- Utils.FrecklecutableFinder.GetAllDictletNames: returns the names as a set, not as the ordered key view Python gives.
- Frecklecutables.TaskListAliases: when several entries lack a `play_target`, the entry named in the error depends on dictionary iteration order, which is left open.
- Cli.ResultVars: when several readable spec entries are not mappings, the one named in the error depends on iteration order, which is left open.
- Frecklecutables.ParseTasks: tuples are not told apart from lists, nor ordered dicts from plain dicts; whether `yaml.safe_dump` fails on a given value is a parameter of the YAML model, not derived from the Python type of its mappings. Values have no floats either, so the truthiness of `0.0` and the fact that `1.0 == True` holds for an `is_var` flag in cli.py are not modelled.

## Findings

| source | as written | input that shows it | evidently intended | confidence | as-written member | corrected member |
|---|---|---|---|---|---|---|
| frecklecute/cli.py:110 | calls `Frecklecutable(..., tasks_string=tasks_string)`. Line 27 imports only `Frecklecute`, and the constructor (frecklecute/frecklecute.py:23-29) has no `tasks_string` parameter. Every call that reaches line 110 raises (`NameError`, or `TypeError` if the name were imported) | any call whose templates render and parse, whose dictlet has a `path` and whose spec entries are mappings, as built in `Cli.SomeCallRuns` | build the frecklecutable with the constructor's actual parameters and run it | not executed | Cli.FrecklesProcessAsWritten | Cli.FrecklesProcess |
| frecklecute/frecklecute.py:150 | the `no_run` branch passes `f.task_metadata`, an attribute no `Frecklecutable` has, so a dry run raises `AttributeError` | `start_frecklecute_run(name, no_run=True)` for any name in the table | pass `f.metadata`, as the other branch does at line 169 | not executed | Frecklecutables.Frecklecute.StartRunAsWritten | Frecklecutables.Frecklecute.StartRun |
