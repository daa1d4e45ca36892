/** Python's `dict` keyed by strings: besides the key/value mapping it keeps
    the order in which keys were first inserted, which is the order the
    scripts later iterate in (and so the order elements are emitted in). */
module OrderedDict {
  import opened Seqs

  datatype ODict<V> = ODict(keys: seq<string>, vals: map<string, V>)

  /** The keys are listed once each, and exactly the keys of the mapping. */
  ghost predicate Valid<V>(d: ODict<V>) {
    && Distinct(d.keys)
    && (forall k :: k in d.vals <==> k in d.keys)
  }

  function Empty<V>(): (d: ODict<V>)
    ensures Valid(d) && d.keys == [] && d.vals == map[]
  {
    ODict([], map[])
  }

  /** `d[k] = v`: a new key goes to the end of the order, an existing key
      keeps its place and gets the new value. */
  function Put<V>(d: ODict<V>, k: string, v: V): (r: ODict<V>)
    requires Valid(d)
    ensures Valid(r)
    ensures r.vals == d.vals[k := v]
    ensures k in d.vals ==> r.keys == d.keys
    ensures k !in d.vals ==> r.keys == d.keys + [k]
  {
    ODict(if k in d.vals then d.keys else d.keys + [k], d.vals[k := v])
  }

  /** `len(d)`. */
  function Len<V>(d: ODict<V>): nat {
    |d.keys|
  }

  /** A list without repetitions has as many elements as its set. */
  lemma {:induction false} DistinctCard(s: seq<string>)
    requires Distinct(s)
    ensures |set x | x in s| == |s|
  {
    if s != [] {
      var t := s[..|s| - 1];
      DistinctCard(t);
      assert (set x | x in s) == (set x | x in t) + {s[|s| - 1]};
      assert s[|s| - 1] !in (set x | x in t);
    }
  }

  /** `len(d)` counts the keys of the mapping. */
  lemma LenIsCardinality<V>(d: ODict<V>)
    requires Valid(d)
    ensures Len(d) == |d.vals|
  {
    DistinctCard(d.keys);
    assert d.vals.Keys == set x | x in d.keys;
  }
}
