/** The `Flags` object the caller passes to `compile`, the `defaultFlags` object,
    and `updateFlags`, which fills in the defaults and reports unknown flags. */
module Flags {
  import opened Wrappers
  import opened Props

  /** One input file as the caller supplies it; every property may be null. */
  datatype File = File(path: Option<string>, src: Option<string>, sourceMap: Option<string>)

  /** The JavaScript values a flag can hold in this model (`Null` covers both
      null and undefined). */
  datatype Value = Null | Bool(b: bool) | Str(s: string) | Files(files: seq<File>)

  /** `defaultFlags`: every flag the runner knows, with its default, in the order
      the static initialiser assigns them. */
  const DefaultFlags: Object<Value> := [
    Entry("angularPass", Bool(false)),
    Entry("assumeFunctionWrapper", Bool(false)),
    Entry("compilationLevel", Str("SIMPLE")),
    Entry("dartPass", Bool(false)),
    Entry("exportLocalPropertyDefinitions", Bool(false)),
    Entry("generateExports", Bool(false)),
    Entry("languageIn", Str("ECMASCRIPT6")),
    Entry("languageOut", Str("ECMASCRIPT5")),
    Entry("checksOnly", Bool(false)),
    Entry("newTypeInf", Bool(false)),
    Entry("polymerPass", Bool(false)),
    Entry("preserveTypeAnnotations", Bool(false)),
    Entry("processCommonJsModules", Bool(false)),
    Entry("renamePrefixNamespace", Null),
    Entry("rewritePolyfills", Bool(true)),
    Entry("warningLevel", Str("DEFAULT")),
    Entry("useTypesForOptimization", Bool(true)),
    Entry("jsCode", Null),
    Entry("externs", Null),
    Entry("createSourceMap", Bool(false))
  ]

  /** The entries of `src` whose key `dst` lacks, in the order of `src`: what the
      first loop of `updateFlags` appends to `dst`. */
  function Missing<V>(dst: Object<V>, src: Object<V>): (m: Object<V>)
    ensures |m| <= |src|
    ensures forall i :: 0 <= i < |m| ==> m[i] in src && !Has(dst, m[i].key)
    ensures forall i :: 0 <= i < |src| && !Has(dst, src[i].key) ==> src[i] in m
    ensures WellFormed(src) ==> WellFormed(m)
  {
    if src == [] then []
    else
      var n := |src| - 1;
      var prefix := Missing(dst, src[..n]);
      assert forall i :: 0 <= i < n ==> src[..n][i] == src[i];
      if Has(dst, src[n].key) then prefix
      else
        assert WellFormed(src) ==> forall i :: 0 <= i < |prefix| ==> prefix[i].key != src[n].key;
        prefix + [src[n]]
  }

  /** The user object after the first loop of `updateFlags`. */
  function Merged<V>(dst: Object<V>, src: Object<V>): Object<V> {
    dst + Missing(dst, src)
  }

  /** The keys of `dst` that `src` lacks, in the order of `dst`: the list the
      second loop of `updateFlags` returns. */
  function Unhandled<V>(dst: Object<V>, src: Object<V>): seq<string> {
    if dst == [] then []
    else
      var n := |dst| - 1;
      Unhandled(dst[..n], src) + (if Has(src, dst[n].key) then [] else [dst[n].key])
  }

  /** A key is listed exactly when `dst` has it and `src` does not. */
  lemma {:induction false} UnhandledSpec<V>(dst: Object<V>, src: Object<V>, k: string)
    ensures k in Unhandled(dst, src) <==> Has(dst, k) && !Has(src, k)
  {
    if dst != [] {
      var n := |dst| - 1;
      assert Keys(dst) == Keys(dst[..n]) + [dst[n].key];
      UnhandledSpec(dst[..n], src, k);
    }
  }

  /** `updateFlags(dst, src)`: copies every property of `src` that `dst` lacks onto
      `dst`, then lists the properties of the updated `dst` that `src` lacks. */
  method UpdateFlags<V>(dst: Object<V>, src: Object<V>) returns (merged: Object<V>, unhandled: seq<string>)
    requires WellFormed(dst) && WellFormed(src)
    ensures merged == Merged(dst, src)
    ensures unhandled == Unhandled(dst, src)
    ensures WellFormed(merged)
    ensures forall k :: Has(src, k) ==> Has(merged, k)
    ensures forall k :: Has(dst, k) ==> Get(merged, k) == Get(dst, k)
    ensures forall k :: !Has(dst, k) ==> Get(merged, k) == Get(src, k)
    ensures forall k :: k in unhandled <==> Has(dst, k) && !Has(src, k)
  {
    merged := FillDefaults(dst, src);
    unhandled := ListUnhandled(merged, src);
    UpdateFlagsFacts(dst, src);
    forall k ensures k in unhandled <==> Has(dst, k) && !Has(src, k) {
      UnhandledSpec(dst, src, k);
    }
  }

  /** The first loop of `updateFlags`: `if (!(k in dst)) dst[k] = src[k]` for
      every `k` of `src` in order. */
  method FillDefaults<V>(dst: Object<V>, src: Object<V>) returns (merged: Object<V>)
    requires WellFormed(src)
    ensures merged == Merged(dst, src)
  {
    merged := dst;
    var i := 0;
    while i < |src|
      invariant 0 <= i <= |src|
      invariant merged == dst + Missing(dst, src[..i])
    {
      MissingStep(dst, src, i);
      if !Has(merged, src[i].key) {
        merged := Put(merged, src[i].key, src[i].value);
      }
      i := i + 1;
    }
    assert src[..|src|] == src;
  }

  /** The second loop of `updateFlags`: the keys of `o` that `src` lacks. */
  method ListUnhandled<V>(o: Object<V>, src: Object<V>) returns (unhandled: seq<string>)
    ensures unhandled == Unhandled(o, src)
  {
    unhandled := [];
    var j := 0;
    while j < |o|
      invariant 0 <= j <= |o|
      invariant unhandled == Unhandled(o[..j], src)
    {
      assert o[..j + 1][..j] == o[..j];
      if !Has(src, o[j].key) {
        unhandled := unhandled + [o[j].key];
      }
      j := j + 1;
    }
    assert o[..|o|] == o;
  }

  /** One iteration of the first loop: the `k in dst` test on the partly merged
      object answers as it would on the caller's object. */
  lemma MissingStep<V>(dst: Object<V>, src: Object<V>, i: nat)
    requires WellFormed(src) && i < |src|
    ensures Missing(dst, src[..i + 1]) == Missing(dst, src[..i]) + (if Has(dst, src[i].key) then [] else [src[i]])
    ensures Has(dst + Missing(dst, src[..i]), src[i].key) <==> Has(dst, src[i].key)
  {
    assert src[..i + 1][..i] == src[..i];
    var m := Missing(dst, src[..i]);
    HasAppend(dst, m, src[i].key);
  }

  /** What `updateFlags` promises, stated on the reference definitions. */
  lemma UpdateFlagsFacts<V>(dst: Object<V>, src: Object<V>)
    requires WellFormed(dst) && WellFormed(src)
    ensures Unhandled(Merged(dst, src), src) == Unhandled(dst, src)
    ensures WellFormed(Merged(dst, src))
    ensures forall k :: Has(src, k) ==> Has(Merged(dst, src), k)
    ensures forall k :: Has(dst, k) ==> Get(Merged(dst, src), k) == Get(dst, k)
    ensures forall k :: !Has(dst, k) ==> Get(Merged(dst, src), k) == Get(src, k)
  {
    UnhandledOfMerged(dst, src);
    MergedWellFormed(dst, src);
    forall k ensures Has(src, k) ==> Has(Merged(dst, src), k) {
      MergedKeys(dst, src, k);
    }
    forall k ensures Has(dst, k) ==> Get(Merged(dst, src), k) == Get(dst, k) {
      if Has(dst, k) {
        MergedKeepsUserValue(dst, src, k);
      }
    }
    forall k ensures !Has(dst, k) ==> Get(Merged(dst, src), k) == Get(src, k) {
      if !Has(dst, k) {
        MergedCopiesDefault(dst, src, k);
      }
    }
  }

  /** After the merge the user object holds exactly its own keys and the defaults' keys. */
  lemma MergedKeys<V>(dst: Object<V>, src: Object<V>, k: string)
    ensures Has(Merged(dst, src), k) <==> Has(dst, k) || Has(src, k)
  {
    HasAppend(dst, Missing(dst, src), k);
    if Has(src, k) && !Has(dst, k) {
      var i :| 0 <= i < |src| && src[i].key == k;
      assert src[i] in Missing(dst, src);
    }
    if Has(Missing(dst, src), k) {
      var i :| 0 <= i < |Missing(dst, src)| && Missing(dst, src)[i].key == k;
      assert Missing(dst, src)[i] in src;
    }
  }

  lemma MergedWellFormed<V>(dst: Object<V>, src: Object<V>)
    requires WellFormed(dst) && WellFormed(src)
    ensures WellFormed(Merged(dst, src))
  {
    var m := Missing(dst, src);
    forall i, j | 0 <= i < j < |dst + m|
      ensures (dst + m)[i].key != (dst + m)[j].key
    {
      if i < |dst| && j >= |dst| {
        assert m[j - |dst|] in m;
        assert Keys(dst)[i] == dst[i].key;
      }
    }
  }

  /** The merge never overwrites a flag the caller supplied. */
  lemma MergedKeepsUserValue<V>(dst: Object<V>, src: Object<V>, k: string)
    requires Has(dst, k)
    ensures Get(Merged(dst, src), k) == Get(dst, k)
  {
    GetAppend(dst, Missing(dst, src), k);
  }

  /** A flag the caller left out takes its default value. */
  lemma MergedCopiesDefault<V>(dst: Object<V>, src: Object<V>, k: string)
    requires WellFormed(src)
    requires !Has(dst, k)
    ensures Get(Merged(dst, src), k) == Get(src, k)
  {
    var m := Missing(dst, src);
    GetAppend(dst, m, k);
    if Has(src, k) {
      var i :| 0 <= i < |src| && src[i].key == k;
      assert src[i] in m;
      var j :| 0 <= j < |m| && m[j] == src[i];
      GetAt(src, i);
      GetAt(m, j);
    } else {
      GetSpec(src, k);
      GetSpec(m, k);
    }
  }

  /** The second loop sees the appended defaults but reports none of them. */
  lemma UnhandledOfMerged<V>(dst: Object<V>, src: Object<V>)
    ensures Unhandled(Merged(dst, src), src) == Unhandled(dst, src)
  {
    var m := Missing(dst, src);
    UnhandledAppend(dst, m, src);
    forall i | 0 <= i < |m| ensures Has(src, m[i].key) {
      var j :| 0 <= j < |src| && src[j] == m[i];
      assert Keys(src)[j] == m[i].key;
    }
    UnhandledOfKnown(m, src);
  }

  lemma {:induction false} UnhandledOfKnown<V>(o: Object<V>, src: Object<V>)
    requires forall i :: 0 <= i < |o| ==> Has(src, o[i].key)
    ensures Unhandled(o, src) == []
  {
    if o != [] {
      UnhandledOfKnown(o[..|o| - 1], src);
    }
  }

  lemma {:induction false} UnhandledAppend<V>(a: Object<V>, b: Object<V>, src: Object<V>)
    ensures Unhandled(a + b, src) == Unhandled(a, src) + Unhandled(b, src)
  {
    if b != [] {
      var n := |b| - 1;
      assert (a + b)[..|a + b| - 1] == a + b[..n];
      UnhandledAppend(a, b[..n], src);
    } else {
      assert a + b == a;
    }
  }

  /** The first entry of the list is the first unknown key in enumeration order. */
  lemma UnhandledFirst<V>(o: Object<V>, src: Object<V>, i: nat)
    requires i < |o| && !Has(src, o[i].key)
    requires forall j :: 0 <= j < i ==> Has(src, o[j].key)
    ensures Unhandled(o, src) != [] && Unhandled(o, src)[0] == o[i].key
  {
    var rest := o[i + 1..];
    assert o == o[..i] + ([o[i]] + rest);
    UnhandledAppend(o[..i], [o[i]] + rest, src);
    UnhandledOfKnown(o[..i], src);
    UnhandledAppend([o[i]], rest, src);
    assert [o[i]][..0] == [];
    assert Unhandled([o[i]], src) == [o[i].key];
  }

  /** `compile` proceeds exactly when every flag the caller supplied is known. */
  lemma UnhandledEmptyIff<V>(dst: Object<V>, src: Object<V>)
    ensures Unhandled(dst, src) == [] <==> forall k :: Has(dst, k) ==> Has(src, k)
  {
    if Unhandled(dst, src) != [] {
      UnhandledSpec(dst, src, Unhandled(dst, src)[0]);
    } else {
      forall k | Has(dst, k) ensures Has(src, k) {
        UnhandledSpec(dst, src, k);
      }
    }
  }

  /** Filling in the defaults a second time changes nothing. */
  lemma MergedIdempotent<V>(dst: Object<V>, src: Object<V>)
    ensures Merged(Merged(dst, src), src) == Merged(dst, src)
  {
    var m := Missing(Merged(dst, src), src);
    if m != [] {
      MergedKeys(dst, src, m[0].key);
    }
  }

  /** The defaults object is a genuine JavaScript object: no flag is listed twice. */
  lemma DefaultFlagsWellFormed()
    ensures WellFormed(DefaultFlags)
  {
    var ks := Keys(DefaultFlags);
    forall i, j | 0 <= i < j < |ks| ensures ks[i] != ks[j] {
      assert |ks[i]| != |ks[j]| || ks[i][0] != ks[j][0];
    }
  }

  /** JavaScript truthiness of a flag value, as read by the boolean fields. */
  predicate Truthy(v: Value) {
    match v
    case Null => false
    case Bool(b) => b
    case Str(s) => s != ""
    case Files(_) => true
  }

  predicate BoolFlag(flags: Object<Value>, key: string) {
    match Get<Value>(flags, key)
    case Some(v) => Truthy(v)
    case None => false
  }

  function StringFlag(flags: Object<Value>, key: string): Option<string> {
    match Get<Value>(flags, key)
    case Some(Str(s)) => Some(s)
    case _ => None
  }

  function FilesFlag(flags: Object<Value>, key: string): Option<seq<File>> {
    match Get<Value>(flags, key)
    case Some(Files(fs)) => Some(fs)
    case _ => None
  }
}
