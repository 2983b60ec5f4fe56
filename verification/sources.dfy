/** `fromFileArray` and `buildSourceMaps`: the caller's file arrays turned into the
    compiler's named sources and its input source maps. */
module Sources {
  import opened Wrappers
  import opened Props
  import opened Decimal
  import opened Flags
  import opened Errors

  /** `SourceFile.fromCode(name, code)`. */
  datatype SourceFile = SourceFile(name: string, code: string)

  const MapSuffix := ".map"

  /** The name file `i` of an array is known by: its own path, or
      `unknownPrefix + i` when it has none. */
  function PathOf(f: File, unknownPrefix: string, i: nat): string {
    match f.path
    case Some(p) => p
    case None => unknownPrefix + NatToString(i)
  }

  /** The source the compiler sees for file `i`; a missing text reads as empty. */
  function ToSource(f: File, unknownPrefix: string, i: nat): SourceFile {
    SourceFile(PathOf(f, unknownPrefix, i), f.src.GetOr(""))
  }

  /** The loop of `fromFileArray` over a non-null array. */
  function FromFiles(files: seq<File>, unknownPrefix: string): (out: seq<SourceFile>)
    ensures |out| == |files|
    ensures forall i :: 0 <= i < |files| ==> out[i] == ToSource(files[i], unknownPrefix, i)
  {
    if files == [] then []
    else
      var n := |files| - 1;
      FromFiles(files[..n], unknownPrefix) + [ToSource(files[n], unknownPrefix, n)]
  }

  /** `fromFileArray(src, unknownPrefix)`: a null array gives no sources; otherwise
      one source per file, in order. */
  function FromFileArray(src: Option<seq<File>>, unknownPrefix: string): (out: seq<SourceFile>)
    ensures src.None? ==> out == []
    ensures src.Some? ==> |out| == |src.value|
    ensures src.Some? ==> forall i :: 0 <= i < |src.value| ==>
      && out[i].name == (if src.value[i].path.Some? then src.value[i].path.value else unknownPrefix + NatToString(i))
      && out[i].code == (if src.value[i].src.Some? then src.value[i].src.value else "")
  {
    match src
    case None => []
    case Some(files) => FromFiles(files, unknownPrefix)
  }

  /** Two numbered names with the same prefix and suffix are equal only for the same number. */
  lemma NumberedNamesDistinct(prefix: string, suffix: string, i: nat, j: nat)
    requires prefix + NatToString(i) + suffix == prefix + NatToString(j) + suffix
    ensures i == j
  {
    var a, b := NatToString(i), NatToString(j);
    assert |a| == |b|;
    assert a == (prefix + a + suffix)[|prefix|..|prefix| + |a|];
    assert b == (prefix + b + suffix)[|prefix|..|prefix| + |b|];
    NatToStringInjective(i, j);
  }

  /** Files without a path never share a name. */
  lemma FromFilesUnnamedDistinct(files: seq<File>, unknownPrefix: string, i: nat, j: nat)
    requires i < j < |files|
    requires files[i].path.None? && files[j].path.None?
    ensures FromFiles(files, unknownPrefix)[i].name != FromFiles(files, unknownPrefix)[j].name
  {
    if unknownPrefix + NatToString(i) == unknownPrefix + NatToString(j) {
      assert unknownPrefix + NatToString(i) + "" == unknownPrefix + NatToString(j) + "";
      NumberedNamesDistinct(unknownPrefix, "", i, j);
    }
  }

  /** `isNullOrEmpty(file.sourceMap)` is false. */
  predicate HasSourceMap(f: File) {
    f.sourceMap.Some? && f.sourceMap.value != ""
  }

  /** The entry `buildSourceMaps` puts for file `i`: key `path + ".map"`, content
      the file's source map. */
  function MapEntry(f: File, unknownPrefix: string, i: nat): Entry<string> {
    Entry(PathOf(f, unknownPrefix, i) + MapSuffix, f.sourceMap.GetOr(""))
  }

  /** The positions of the files that have a source map, in ascending order. */
  function MapIndices(files: seq<File>): (idx: seq<nat>)
    ensures forall k :: 0 <= k < |idx| ==> idx[k] < |files| && HasSourceMap(files[idx[k]])
    ensures forall k, l :: 0 <= k < l < |idx| ==> idx[k] < idx[l]
    ensures forall i :: 0 <= i < |files| && HasSourceMap(files[i]) ==> i in idx
  {
    if files == [] then []
    else
      var n := |files| - 1;
      var front := MapIndices(files[..n]);
      assert forall i :: 0 <= i < n ==> files[..n][i] == files[i];
      if HasSourceMap(files[n]) then front + [n] else front
  }

  /** The entries handed to the map builder, in insertion order: one per file that
      has a non-empty source map, following the files' order, and nothing for the
      others. */
  function SourceMapEntries(files: seq<File>, unknownPrefix: string): (es: Object<string>)
    ensures |es| == |MapIndices(files)|
    ensures forall k :: 0 <= k < |es| ==>
      MapIndices(files)[k] < |files| && es[k] == MapEntry(files[MapIndices(files)[k]], unknownPrefix, MapIndices(files)[k])
  {
    if files == [] then []
    else
      var n := |files| - 1;
      var prefix := SourceMapEntries(files[..n], unknownPrefix);
      assert forall i :: 0 <= i < n ==> files[..n][i] == files[i];
      if HasSourceMap(files[n]) then prefix + [MapEntry(files[n], unknownPrefix, n)] else prefix
  }

  /** `buildSourceMaps(src, unknownPrefix)`: the source maps keyed by file name, in
      insertion order, or the builder's refusal when two of them share a key. */
  function BuildSourceMaps(src: Option<seq<File>>, unknownPrefix: string): (r: Result<Object<string>, Error>)
    ensures src.None? ==> r == Success([])
    ensures r.Failure? ==> r.error == DuplicateSourceMapKey
    ensures src.Some? && r.Success? ==> r.value == SourceMapEntries(src.value, unknownPrefix)
  {
    match src
    case None => Success([])
    case Some(files) =>
      var es := SourceMapEntries(files, unknownPrefix);
      if WellFormed(es) then Success(es) else Failure(DuplicateSourceMapKey)
  }

  /** When the builder accepts the entries, looking up `path + ".map"` of a file
      with a source map gives that source map. */
  lemma BuildSourceMapsLookup(files: seq<File>, unknownPrefix: string, i: nat)
    requires i < |files| && HasSourceMap(files[i])
    requires BuildSourceMaps(Some(files), unknownPrefix).Success?
    ensures Get(BuildSourceMaps(Some(files), unknownPrefix).value, PathOf(files[i], unknownPrefix, i) + MapSuffix)
         == Some(files[i].sourceMap.value)
  {
    var es := SourceMapEntries(files, unknownPrefix);
    var k :| 0 <= k < |MapIndices(files)| && MapIndices(files)[k] == i;
    GetAt(es, k);
  }

  /** The builder refuses the entries exactly when two files that both carry a
      source map are known by the same name. */
  lemma BuildSourceMapsFailsIff(files: seq<File>, unknownPrefix: string)
    ensures BuildSourceMaps(Some(files), unknownPrefix).Failure? <==>
      exists i, j :: 0 <= i < j < |files| && HasSourceMap(files[i]) && HasSourceMap(files[j])
        && PathOf(files[i], unknownPrefix, i) == PathOf(files[j], unknownPrefix, j)
  {
    var es := SourceMapEntries(files, unknownPrefix);
    var idx := MapIndices(files);
    assert BuildSourceMaps(Some(files), unknownPrefix).Failure? <==> !WellFormed(es);
    if !WellFormed(es) {
      var k, l :| 0 <= k < l < |es| && es[k].key == es[l].key;
      var i, j := idx[k], idx[l];
      var a, b := PathOf(files[i], unknownPrefix, i), PathOf(files[j], unknownPrefix, j);
      assert a == (a + MapSuffix)[..|a|] && b == (b + MapSuffix)[..|b|];
      assert HasSourceMap(files[i]) && HasSourceMap(files[j]) && a == b;
    } else {
      forall i, j | 0 <= i < j < |files| && HasSourceMap(files[i]) && HasSourceMap(files[j])
        ensures PathOf(files[i], unknownPrefix, i) != PathOf(files[j], unknownPrefix, j)
      {
        var k :| 0 <= k < |idx| && idx[k] == i;
        var l :| 0 <= l < |idx| && idx[l] == j;
        assert es[k].key != es[l].key;
      }
    }
  }

  /** Keys of files that have no explicit path can never collide: such an input
      array always yields a map. */
  lemma {:induction false} UnnamedFilesBuildSourceMaps(files: seq<File>, unknownPrefix: string)
    requires forall i :: 0 <= i < |files| ==> files[i].path.None?
    ensures BuildSourceMaps(Some(files), unknownPrefix).Success?
  {
    if files != [] {
      var n := |files| - 1;
      var front := files[..n];
      UnnamedFilesBuildSourceMaps(front, unknownPrefix);
      var prefix := SourceMapEntries(front, unknownPrefix);
      if HasSourceMap(files[n]) {
        var last := MapEntry(files[n], unknownPrefix, n);
        forall a | 0 <= a < |prefix| ensures prefix[a].key != last.key {
          UnnamedKeyDiffers(front, unknownPrefix, a, n);
        }
        AppendWellFormed(prefix, last);
      }
    }
  }

  lemma UnnamedKeyDiffers(front: seq<File>, unknownPrefix: string, a: nat, n: nat)
    requires forall i :: 0 <= i < |front| ==> front[i].path.None?
    requires a < |SourceMapEntries(front, unknownPrefix)|
    requires n >= |front|
    ensures SourceMapEntries(front, unknownPrefix)[a].key != unknownPrefix + NatToString(n) + MapSuffix
  {
    var prefix := SourceMapEntries(front, unknownPrefix);
    var i := MapIndices(front)[a];
    if prefix[a].key == unknownPrefix + NatToString(n) + MapSuffix {
      NumberedNamesDistinct(unknownPrefix, MapSuffix, i, n);
    }
  }

  /** Every source-map key names one of the sources built from the same array. */
  lemma SourceMapKeysNameSources(files: seq<File>, unknownPrefix: string, k: nat)
    requires k < |SourceMapEntries(files, unknownPrefix)|
    ensures exists i :: 0 <= i < |files| && SourceMapEntries(files, unknownPrefix)[k].key == FromFiles(files, unknownPrefix)[i].name + MapSuffix
  {
    var es := SourceMapEntries(files, unknownPrefix);
    var i := MapIndices(files)[k];
    assert es[k].key == FromFiles(files, unknownPrefix)[i].name + MapSuffix;
  }
}
