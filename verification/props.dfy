/** A JavaScript object seen as its own enumerable properties in enumeration
    order: an ordered association list whose keys are distinct.  `for (var k in o)`
    visits `Keys(o)` left to right, `k in o` is `Has(o, k)`, `o[k]` is `Get(o, k)`
    and `o[k] = v` is `Put(o, k, v)`. */
module Props {
  import opened Wrappers

  datatype Entry<V> = Entry(key: string, value: V)

  type Object<V> = seq<Entry<V>>

  /** Keys of `o` in enumeration order. */
  function Keys<V>(o: Object<V>): (ks: seq<string>)
    ensures |ks| == |o|
    ensures forall i :: 0 <= i < |o| ==> ks[i] == o[i].key
  {
    seq(|o|, i requires 0 <= i < |o| => o[i].key)
  }

  /** A JavaScript object never holds the same property twice. */
  predicate WellFormed<V>(o: Object<V>) {
    forall i, j :: 0 <= i < j < |o| ==> o[i].key != o[j].key
  }

  /** The `in` operator. */
  predicate Has<V>(o: Object<V>, k: string) {
    k in Keys(o)
  }

  /** Property lookup; `None` when the property is absent. */
  function Get<V>(o: Object<V>, k: string): Option<V> {
    if o == [] then None
    else if o[0].key == k then Some(o[0].value)
    else Get(o[1..], k)
  }

  /** Lookup finds a property exactly when the object has it, and what it finds
      is an entry of the object under that key. */
  lemma {:induction false} GetSpec<V>(o: Object<V>, k: string)
    ensures Get(o, k).None? <==> !Has(o, k)
    ensures Get(o, k).Some? ==> Entry(k, Get(o, k).value) in o
  {
    if o != [] && o[0].key != k {
      GetSpec(o[1..], k);
      assert Keys(o) == [o[0].key] + Keys(o[1..]);
    }
  }

  /** In a well-formed object the entry holding a key is the one lookup finds. */
  lemma GetAt<V>(o: Object<V>, i: nat)
    requires WellFormed(o) && i < |o|
    ensures Get(o, o[i].key) == Some(o[i].value)
  {
    var r := Get(o, o[i].key);
    GetSpec(o, o[i].key);
    assert Keys(o)[i] == o[i].key;
    var j :| 0 <= j < |o| && o[j] == Entry(o[i].key, r.value);
  }

  /** Property assignment: an existing property keeps its place and takes the new
      value, a new property is enumerated after all existing ones. */
  function Put<V>(o: Object<V>, k: string, v: V): (r: Object<V>)
    ensures Has(o, k) ==> Keys(r) == Keys(o)
    ensures !Has(o, k) ==> r == o + [Entry(k, v)]
  {
    if o == [] then [Entry(k, v)]
    else
      KeysCons(o);
      if o[0].key == k then
        KeysCons([Entry(k, v)] + o[1..]);
        [Entry(k, v)] + o[1..]
      else
        var t := Put(o[1..], k, v);
        KeysCons([o[0]] + t);
        [o[0]] + t
  }

  /** The keys of a non-empty object: its first key, then the rest. */
  lemma KeysCons<V>(o: Object<V>)
    requires o != []
    ensures Keys(o) == [o[0].key] + Keys(o[1..])
  {
  }

  /** After `o[k] = v`, `o[k]` reads `v` and every other property reads as before. */
  lemma {:induction false} GetPut<V>(o: Object<V>, k: string, v: V, k': string)
    ensures Get(Put(o, k, v), k') == if k' == k then Some(v) else Get(o, k')
  {
    if o != [] && o[0].key != k {
      GetPut(o[1..], k, v, k');
      assert Put(o, k, v)[1..] == Put(o[1..], k, v);
    }
  }

  lemma PutWellFormed<V>(o: Object<V>, k: string, v: V)
    requires WellFormed(o)
    ensures WellFormed(Put(o, k, v))
  {
    var r := Put(o, k, v);
    if Has(o, k) {
      forall i, j | 0 <= i < j < |r| ensures r[i].key != r[j].key {
        assert Keys(r)[i] == Keys(o)[i] && Keys(r)[j] == Keys(o)[j];
      }
    } else {
      forall i | 0 <= i < |o| ensures o[i].key != k {
        assert Keys(o)[i] == o[i].key;
      }
    }
  }

  /** Adding a property the object lacks keeps it well formed. */
  lemma AppendWellFormed<V>(o: Object<V>, e: Entry<V>)
    requires WellFormed(o)
    requires forall i :: 0 <= i < |o| ==> o[i].key != e.key
    ensures WellFormed(o + [e])
  {
  }

  lemma HasAppend<V>(a: Object<V>, b: Object<V>, k: string)
    ensures Has(a + b, k) <==> Has(a, k) || Has(b, k)
  {
    assert Keys(a + b) == Keys(a) + Keys(b);
  }

  lemma {:induction false} GetAppend<V>(a: Object<V>, b: Object<V>, k: string)
    ensures Get(a + b, k) == if Has(a, k) then Get(a, k) else Get(b, k)
  {
    if a == [] {
      assert a + b == b;
    } else if a[0].key == k {
      assert (a + b)[0] == a[0];
      assert Has(a, k) by { assert Keys(a)[0] == k; }
    } else {
      assert (a + b)[0] == a[0];
      assert (a + b)[1..] == a[1..] + b;
      assert Keys(a) == [a[0].key] + Keys(a[1..]);
      GetAppend(a[1..], b, k);
    }
  }
}
