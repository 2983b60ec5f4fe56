/** `GwtRunner.compile`: validates and completes the caller's flags, prepares the
    inputs and options, runs the compiler, and packages its output.  The compiler
    library is a parameter. */
module Runner {
  import opened Wrappers
  import opened Props
  import opened Flags
  import opened Errors
  import opened Sources
  import opened Diagnostics
  import opened Options

  const ExternPrefix := "Extern_"
  const InputPrefix := "Input_"

  /** Everything `compile` hands to the compiler. */
  datatype CompileInput<C, W, L> = CompileInput(
    externs: seq<SourceFile>,
    jsCode: seq<SourceFile>,
    options: CompilerOptions<C, W, L>)

  /** What the compiler library produces: the compiled code, the diagnostics it
      prints through the error manager in order, and the text of its source map. */
  datatype CompilerRun = CompilerRun(compiledCode: string, reports: seq<Report>, sourceMap: string)

  /** The `ModuleOutput` object; `sourceMap` is `None` when it was never set. */
  datatype ModuleOutput = ModuleOutput(
    compiledCode: string,
    sourceMap: Option<string>,
    errors: seq<NativeError>,
    warnings: seq<NativeError>)

  /** The result of a call: the caller's flags object as the call leaves it
      (`updateFlags` writes into it even when `compile` then throws), and the
      returned output or the exception. */
  datatype Outcome<T> = Outcome(flags: Object<Value>, result: Result<T, Error>)

  /** `compile` up to the compiler call: the unhandled-flag check, the inputs,
      the source maps and the options, in the order `compile` takes them. */
  function Prepare<C, W, L>(flags: Object<Value>, initial: CompilerOptions<C, W, L>, levels: Levels<C, W, L>)
    : (r: Outcome<CompileInput<C, W, L>>)
    ensures r.flags == Merged(flags, DefaultFlags)
    ensures Unhandled(flags, DefaultFlags) != [] ==>
      r.result == Failure(UnhandledFlag(Unhandled(flags, DefaultFlags)[0]))
    ensures r.result.Success? ==>
      && (forall k :: Has(flags, k) ==> Has(DefaultFlags, k))
      && BuildSourceMaps(FilesFlag(r.flags, "jsCode"), InputPrefix).Success?
      && r.result.value.externs == FromFileArray(FilesFlag(r.flags, "externs"), ExternPrefix)
      && r.result.value.jsCode == FromFileArray(FilesFlag(r.flags, "jsCode"), InputPrefix)
      && r.result.value.options.inputSourceMaps == BuildSourceMaps(FilesFlag(r.flags, "jsCode"), InputPrefix).value
      && !r.result.value.options.dependencySorting
    ensures r.result.Success? ==>
      && ApplyOptionsFromFlags(ApplyDefaultOptions(initial, levels), r.flags, levels).Success?
      && r.result.value.options == DisableUnsupportedOptions(
           ApplyOptionsFromFlags(ApplyDefaultOptions(initial, levels), r.flags, levels).value
             .(inputSourceMaps := BuildSourceMaps(FilesFlag(r.flags, "jsCode"), InputPrefix).value))
    ensures r.result.Success? <==>
      && Unhandled(flags, DefaultFlags) == []
      && BuildSourceMaps(FilesFlag(r.flags, "jsCode"), InputPrefix).Success?
      && CompilationLevelOf(r.flags, levels).Success?
      && WarningLevelOf(r.flags, levels).Success?
    ensures Unhandled(flags, DefaultFlags) == [] && r.result.Failure? ==>
      r.result.error ==
        if BuildSourceMaps(FilesFlag(r.flags, "jsCode"), InputPrefix).Failure? then DuplicateSourceMapKey
        else if CompilationLevelOf(r.flags, levels).Failure? then CompilationLevelOf(r.flags, levels).error
        else WarningLevelOf(r.flags, levels).error
  {
    var merged := Merged(flags, DefaultFlags);
    var unhandled := Unhandled(merged, DefaultFlags);
    UnhandledOfMerged(flags, DefaultFlags);
    UnhandledEmptyIff(flags, DefaultFlags);
    if |unhandled| > 0 then
      Outcome(merged, Failure(UnhandledFlag(unhandled[0])))
    else
      var externs := FromFileArray(FilesFlag(merged, "externs"), ExternPrefix);
      var jsCode := FromFileArray(FilesFlag(merged, "jsCode"), InputPrefix);
      match BuildSourceMaps(FilesFlag(merged, "jsCode"), InputPrefix)
      case Failure(e) => Outcome(merged, Failure(e))
      case Success(sourceMaps) =>
        match ApplyOptionsFromFlags(ApplyDefaultOptions(initial, levels), merged, levels)
        case Failure(e) => Outcome(merged, Failure(e))
        case Success(options) =>
          var options := DisableUnsupportedOptions(options.(inputSourceMaps := sourceMaps));
          Outcome(merged, Success(CompileInput(externs, jsCode, options)))
  }

  /** The second half of `compile`: the error manager collects what the compiler
      prints, and the output carries the code, the errors and warnings as plain
      records, and the source map when one was asked for. */
  function Package(flags: Object<Value>, run: CompilerRun): (out: ModuleOutput)
    ensures out.compiledCode == run.compiledCode
    ensures out.errors == ToNativeErrorArray(OfLevel(run.reports, Error))
    ensures out.warnings == ToNativeErrorArray(OfLevel(run.reports, Warning))
    ensures out.sourceMap.Some? <==> BoolFlag(flags, "createSourceMap")
    ensures out.sourceMap.Some? ==> out.sourceMap.value == run.sourceMap
  {
    var manager := PrintAll(NewErrorManager, run.reports);
    PrintAllPartitions(NewErrorManager, run.reports);
    assert manager.errors == OfLevel(run.reports, Error) by {
      assert NewErrorManager.errors + OfLevel(run.reports, Error) == OfLevel(run.reports, Error);
    }
    assert manager.warnings == OfLevel(run.reports, Warning) by {
      assert NewErrorManager.warnings + OfLevel(run.reports, Warning) == OfLevel(run.reports, Warning);
    }
    ModuleOutput(
      run.compiledCode,
      if BoolFlag(flags, "createSourceMap") then Some(run.sourceMap) else None,
      ToNativeErrorArray(manager.errors),
      ToNativeErrorArray(manager.warnings))
  }

  /** The options handed to the compiler carry what the caller chose: both
      levels, a recognised language mode, and every plain flag of the completed
      object. */
  lemma PreparedOptions<C, W, L>(flags: Object<Value>, initial: CompilerOptions<C, W, L>, levels: Levels<C, W, L>)
    ensures Prepare(flags, initial, levels).result.Success? ==>
      var merged := Merged(flags, DefaultFlags);
      var options := Prepare(flags, initial, levels).result.value.options;
      && Success(options.compilationLevel) == CompilationLevelOf(merged, levels)
      && Success(options.warningLevel) == WarningLevelOf(merged, levels)
      && (StringFlag(merged, "languageIn").Some? && levels.languageModeFromString(StringFlag(merged, "languageIn").value).Some? ==>
            Some(options.languageIn) == levels.languageModeFromString(StringFlag(merged, "languageIn").value))
      && (StringFlag(merged, "languageOut").Some? && levels.languageModeFromString(StringFlag(merged, "languageOut").value).Some? ==>
            Some(options.languageOut) == levels.languageModeFromString(StringFlag(merged, "languageOut").value))
      && (BoolFlag(merged, "assumeFunctionWrapper") ==> options.wrappedOutputOptimizations)
      && (BoolFlag(merged, "useTypesForOptimization") ==> options.typeBasedOptimizations)
      && (BoolFlag(merged, "createSourceMap") ==> options.sourceMapOutputPath == Some(SourceMapOutputPath))
      && options.angularPass == BoolFlag(merged, "angularPass")
      && options.checksOnly == BoolFlag(merged, "checksOnly")
      && options.dartPass == BoolFlag(merged, "dartPass")
      && options.exportLocalPropertyDefinitions == BoolFlag(merged, "exportLocalPropertyDefinitions")
      && options.generateExports == BoolFlag(merged, "generateExports")
      && options.newTypeInference == BoolFlag(merged, "newTypeInf")
      && options.polymerPass == BoolFlag(merged, "polymerPass")
      && options.preserveTypeAnnotations == BoolFlag(merged, "preserveTypeAnnotations")
      && options.processCommonJsModules == BoolFlag(merged, "processCommonJsModules")
      && options.renamePrefixNamespace == StringFlag(merged, "renamePrefixNamespace")
      && options.rewritePolyfills == BoolFlag(merged, "rewritePolyfills")
  {
  }

  /** `compile(flags)`, with `compiler` standing for the compiler library. */
  function Compile<C, W, L>(
    flags: Object<Value>,
    initial: CompilerOptions<C, W, L>,
    levels: Levels<C, W, L>,
    compiler: CompileInput<C, W, L> -> CompilerRun)
    : (r: Outcome<ModuleOutput>)
    ensures r.flags == Merged(flags, DefaultFlags)
    ensures Unhandled(flags, DefaultFlags) != [] ==>
      && r.result == Failure(UnhandledFlag(Unhandled(flags, DefaultFlags)[0]))
      && Message(r.result.error) == Some(UnhandledFlagPrefix + Unhandled(flags, DefaultFlags)[0])
    ensures r.result.Success? <==> Prepare(flags, initial, levels).result.Success?
    ensures r.result.Failure? ==> r.result.error == Prepare(flags, initial, levels).result.error
    ensures r.result.Success? ==>
      && (forall k :: Has(flags, k) ==> Has(DefaultFlags, k))
      && r.result.value == Package(r.flags, compiler(Prepare(flags, initial, levels).result.value))
  {
    var prepared := Prepare(flags, initial, levels);
    match prepared.result
    case Failure(e) => Outcome(prepared.flags, Failure(e))
    case Success(input) => Outcome(prepared.flags, Success(Package(prepared.flags, compiler(input))))
  }

  /** After any call, every known flag is present on the caller's object, the
      caller's own flags keep their values, and the others hold their defaults. */
  lemma CompileCompletesFlags<C, W, L>(
    flags: Object<Value>,
    initial: CompilerOptions<C, W, L>,
    levels: Levels<C, W, L>,
    compiler: CompileInput<C, W, L> -> CompilerRun,
    k: string)
    ensures Has(DefaultFlags, k) ==> Has(Compile(flags, initial, levels, compiler).flags, k)
    ensures Has(flags, k) ==> Get(Compile(flags, initial, levels, compiler).flags, k) == Get(flags, k)
    ensures !Has(flags, k) ==> Get(Compile(flags, initial, levels, compiler).flags, k) == Get(DefaultFlags, k)
  {
    MergedKeys(flags, DefaultFlags, k);
    if Has(flags, k) {
      MergedKeepsUserValue(flags, DefaultFlags, k);
    } else {
      DefaultFlagsWellFormed();
      MergedCopiesDefault(flags, DefaultFlags, k);
    }
  }

  /** A flag the runner does not know stops the call before anything is
      compiled, and the message names the first such flag the caller's object
      enumerates. */
  lemma FirstUnknownFlagReported<C, W, L>(
    flags: Object<Value>,
    initial: CompilerOptions<C, W, L>,
    levels: Levels<C, W, L>,
    compiler: CompileInput<C, W, L> -> CompilerRun,
    i: nat)
    requires i < |flags| && !Has(DefaultFlags, flags[i].key)
    requires forall j :: 0 <= j < i ==> Has(DefaultFlags, flags[j].key)
    ensures Compile(flags, initial, levels, compiler).result == Failure(UnhandledFlag(flags[i].key))
    ensures Message(Compile(flags, initial, levels, compiler).result.error) == Some(UnhandledFlagPrefix + flags[i].key)
  {
    UnhandledFirst(flags, DefaultFlags, i);
  }

  /** A compilation level the library does not know, with every flag known and
      the source maps built, stops the call with `Bad value for compilationLevel: `
      and the text as the caller wrote it. */
  lemma BadCompilationLevelReported<C, W, L>(
    flags: Object<Value>,
    initial: CompilerOptions<C, W, L>,
    levels: Levels<C, W, L>,
    compiler: CompileInput<C, W, L> -> CompilerRun,
    name: string)
    requires levels.compilationLevelFromString(ToUpperAscii(name)).None?
    ensures
      && (forall k :: Has(flags, k) ==> Has(DefaultFlags, k))
      && BuildSourceMaps(FilesFlag(Merged(flags, DefaultFlags), "jsCode"), InputPrefix).Success?
      && StringFlag(Merged(flags, DefaultFlags), "compilationLevel") == Some(name)
      ==>
      && Compile(flags, initial, levels, compiler).result == Failure(BadCompilationLevel(name))
      && Message(Compile(flags, initial, levels, compiler).result.error) == Some(BadCompilationLevelPrefix + name)
  {
    UnhandledEmptyIff(flags, DefaultFlags);
    var merged := Merged(flags, DefaultFlags);
    if StringFlag(merged, "compilationLevel") == Some(name) {
      assert CompilationLevelOf(merged, levels) == Failure(BadCompilationLevel(name));
    }
  }
}
