/**
 * Python's `OrderedDict` with string keys: a mapping that remembers the
 * order in which its keys were first inserted. Assigning to a key already
 * present replaces the value and keeps the key's position.
 */
module OrderedDicts {
  import opened Sequences

  datatype ODict<V> = ODict(keys: seq<string>, values: map<string, V>) {
    /** The key order lists every key exactly once. */
    ghost predicate Valid() {
      Distinct(keys) && (forall k :: k in values <==> k in keys)
    }
  }

  function Empty<V>(): ODict<V> {
    ODict([], map[])
  }

  /** `d[k] = v`. */
  function Put<V>(d: ODict<V>, k: string, v: V): ODict<V> {
    if k in d.values then ODict(d.keys, d.values[k := v])
    else ODict(d.keys + [k], d.values[k := v])
  }

  function Firsts<V>(ps: seq<(string, V)>): seq<string> {
    seq(|ps|, i requires 0 <= i < |ps| => ps[i].0)
  }

  /** The value of the last pair whose key is `k`. */
  function LastValue<V>(ps: seq<(string, V)>, k: string): V
    requires k in Firsts(ps)
  {
    var n := |ps| - 1;
    if ps[n].0 == k then ps[n].1
    else
      assert Firsts(ps) == Firsts(ps[..n]) + [ps[n].0];
      LastValue(ps[..n], k)
  }

  /** An empty `OrderedDict` filled by `d[k] = v` for each pair in order. */
  function FromPairs<V>(ps: seq<(string, V)>): ODict<V> {
    if ps == [] then Empty()
    else
      var n := |ps| - 1;
      Put(FromPairs(ps[..n]), ps[n].0, ps[n].1)
  }

  lemma FromPairsSnoc<V>(ps: seq<(string, V)>, k: string, v: V)
    ensures FromPairs(ps + [(k, v)]) == Put(FromPairs(ps), k, v)
    ensures Firsts(ps + [(k, v)]) == Firsts(ps) + [k]
    ensures forall k' :: k' in Firsts(ps + [(k, v)]) ==>
              LastValue(ps + [(k, v)], k') == if k' == k then v else LastValue(ps, k')
  {
    assert (ps + [(k, v)])[..|ps|] == ps;
  }

  /**
   * Filling an `OrderedDict` pair by pair keeps each key once, in the order
   * in which keys are first met, with the value of its last pair.
   */
  lemma FromPairsSpec<V>(ps: seq<(string, V)>)
    ensures FromPairs(ps).Valid()
    ensures FromPairs(ps).keys == Dedup(Firsts(ps))
    ensures forall k :: k in FromPairs(ps).values <==> k in Firsts(ps)
    ensures forall k :: k in FromPairs(ps).values ==> FromPairs(ps).values[k] == LastValue(ps, k)
  {
    FromPairsKeys(ps);
    FromPairsValues(ps);
  }

  lemma {:induction false} FromPairsKeys<V>(ps: seq<(string, V)>)
    ensures FromPairs(ps).keys == Dedup(Firsts(ps))
    ensures forall k :: k in FromPairs(ps).values <==> k in Firsts(ps)
  {
    if ps != [] {
      var n := |ps| - 1;
      FromPairsKeys(ps[..n]);
      assert Firsts(ps) == Firsts(ps[..n]) + [ps[n].0];
      DedupSnoc(Firsts(ps[..n]), ps[n].0);
    }
  }

  lemma {:induction false} FromPairsValues<V>(ps: seq<(string, V)>)
    ensures forall k :: k in Firsts(ps) ==> k in FromPairs(ps).values && FromPairs(ps).values[k] == LastValue(ps, k)
  {
    if ps != [] {
      var n := |ps| - 1;
      FromPairsValues(ps[..n]);
      assert Firsts(ps) == Firsts(ps[..n]) + [ps[n].0];
    }
  }
}
