/**
 * The Python values the front-end passes around (parsed YAML, click option
 * values, variable contexts), the errors it raises, and the dictionary merge
 * of the `frkl` library, which is not part of this model and is therefore a
 * parameter.
 */
module Values {
  import opened Wrappers

  datatype Value =
    | VNone
    | VBool(b: bool)
    | VInt(i: int)
    | VStr(s: string)
    | VList(items: seq<Value>)
    | VMap(entries: map<string, Value>)

  /** A variable context or any other string-keyed dictionary. */
  type Dict = map<string, Value>

  /** Python truthiness, as in `if vars_dictlet:`. */
  predicate Truthy(v: Value) {
    match v
    case VNone => false
    case VBool(b) => b
    case VInt(i) => i != 0
    case VStr(s) => s != []
    case VList(xs) => xs != []
    case VMap(m) => m != map[]
  }

  /** Python's `v == True`, which also holds for the integer 1. */
  predicate EqualsTrue(v: Value) {
    v == VBool(true) || v == VInt(1)
  }

  /** `d.get(k, default)`. */
  function GetOr(d: Dict, k: string, default: Value): Value {
    if k in d then d[k] else default
  }

  /** What the source raises, by where it raises it. */
  datatype Error =
    | ListDirFailed(path: string)
    | InvalidTasksType(tasks: Value)
    | TasksYamlError(message: string)
    | TasksDumpError(message: string)
    | InvalidTaskListFormat(format: Value)
    | NoPlayTarget(name: string)
    | UnknownFrecklecutable(name: string)
    | RenderFailed(message: string)
    | VarsParseError(message: string)
    | TaskParseError(command: string, message: string)
    | NotADict(key: string)
    | MissingKey(key: string)
    | InvalidPassword(option: Value)
    | UndefinedName(name: string)
    | MissingAttribute(name: string)

  /**
   * The YAML library, which is not part of this model: `yaml.safe_load`
   * and luci's `ordered_load` may fail with a message, and so may
   * `yaml.safe_dump` (a value it has no representer for).
   */
  datatype Yaml = Yaml(
    safeLoad: string -> Result<Value, string>,
    orderedLoad: string -> Result<Value, string>,
    safeDump: Value -> Result<string, string>)

  /**
   * `frkl.dict_merge(base, update)`: the merged dictionary. Whether the call
   * merges in place or into a copy does not change this value. How keys
   * present on both sides are resolved is decided inside `frkl` and is not
   * modelled; the update may be any value, since the source passes parsed
   * YAML to it unchecked.
   */
  type Merge = (Dict, Value) -> Dict

  /** Merging each layer, in order, into `acc`. */
  function FoldMerge(merge: Merge, acc: Dict, layers: seq<Dict>): Dict
    decreases |layers|
  {
    if layers == [] then acc
    else FoldMerge(merge, merge(acc, VMap(layers[0])), layers[1..])
  }

  /** One more layer at the end is one more merge on top of the fold. */
  lemma {:induction false} FoldMergeSnoc(merge: Merge, acc: Dict, layers: seq<Dict>, last: Dict)
    ensures FoldMerge(merge, acc, layers + [last]) == merge(FoldMerge(merge, acc, layers), VMap(last))
    decreases |layers|
  {
    if layers == [] {
      assert [last][1..] == [];
    } else {
      assert (layers + [last])[1..] == layers[1..] + [last];
      FoldMergeSnoc(merge, merge(acc, VMap(layers[0])), layers[1..], last);
    }
  }

  /** Folding two runs of layers one after the other is folding their concatenation. */
  lemma {:induction false} FoldMergeAppend(merge: Merge, acc: Dict, first: seq<Dict>, second: seq<Dict>)
    ensures FoldMerge(merge, acc, first + second) == FoldMerge(merge, FoldMerge(merge, acc, first), second)
    decreases |first|
  {
    if first != [] {
      assert (first + second)[1..] == first[1..] + second;
      FoldMergeAppend(merge, merge(acc, VMap(first[0])), first[1..], second);
    } else {
      assert first + second == second;
    }
  }

  /** A merge that keeps exactly the keys of both sides (as a deep merge does). */
  ghost predicate KeepsKeys(merge: Merge) {
    forall base: Dict, update: Dict :: merge(base, VMap(update)).Keys == base.Keys + update.Keys
  }

  /**
   * A structural merge of the kind `frkl.dict_merge` performs: a key of the
   * update whose value and base value are both mappings is merged key by
   * key; any other update value replaces the base value; keys only in the
   * base are kept. An update that is not a mapping leaves the base alone.
   */
  function DeepMerge(base: Dict, update: Value): Dict
    decreases update
  {
    if !update.VMap? then base
    else
      map k | k in base.Keys + update.entries.Keys ::
        if k !in update.entries then base[k]
        else if update.entries[k].VMap? && k in base && base[k].VMap? then
          VMap(DeepMerge(base[k].entries, update.entries[k]))
        else update.entries[k]
  }

  /** The structural merge keeps exactly the keys of both sides. */
  lemma DeepMergeKeepsKeys()
    ensures KeepsKeys((base, update) => DeepMerge(base, update))
  {
    forall base: Dict, update: Dict
      ensures DeepMerge(base, VMap(update)).Keys == base.Keys + update.Keys
    {
      assert forall k :: k in DeepMerge(base, VMap(update)) <==> k in base.Keys + update.Keys;
    }
  }

  function KeysOf(layers: seq<Dict>): set<string>
    decreases |layers|
  {
    if layers == [] then {} else layers[0].Keys + KeysOf(layers[1..])
  }

  /** For a key-keeping merge, no layer's key is lost and no key is invented. */
  lemma {:induction false} FoldMergeKeys(merge: Merge, acc: Dict, layers: seq<Dict>)
    requires KeepsKeys(merge)
    ensures FoldMerge(merge, acc, layers).Keys == acc.Keys + KeysOf(layers)
    decreases |layers|
  {
    if layers != [] {
      FoldMergeKeys(merge, merge(acc, VMap(layers[0])), layers[1..]);
    }
  }
}
