/** `applyDefaultOptions`, `applyOptionsFromFlags` and `disableUnsupportedOptions`:
    how the merged flags become compiler options.  The level enumerations belong to
    the compiler library, so their lookups are parameters: `C`, `W` and `L` stand
    for `CompilationLevel`, `WarningLevel` and `LanguageMode`. */
module Options {
  import opened Wrappers
  import opened Props
  import opened Flags
  import opened Errors

  /** The library lookups the runner calls, with the constants it names.
      `warningLevelValueOf` answers `None` where `WarningLevel.valueOf` throws;
      the other two answer `None` where the Java method returns null. */
  datatype Levels<C, W, L> = Levels(
    compilationLevelFromString: string -> Option<C>,
    warningLevelValueOf: string -> Option<W>,
    languageModeFromString: string -> Option<L>,
    simpleOptimizations: C,
    defaultWarnings: W,
    ecmascript6: L,
    ecmascript5: L)

  /** The settings of a `CompilerOptions` the runner touches.  The two level
      fields hold the level whose options were applied last;
      `wrappedOutputOptimizations` and `typeBasedOptimizations` say whether that
      level's extra option groups were applied. */
  datatype CompilerOptions<C, W, L> = CompilerOptions(
    compilationLevel: C,
    wrappedOutputOptimizations: bool,
    typeBasedOptimizations: bool,
    warningLevel: W,
    languageIn: L,
    languageOut: L,
    sourceMapOutputPath: Option<string>,
    angularPass: bool,
    checksOnly: bool,
    dartPass: bool,
    exportLocalPropertyDefinitions: bool,
    generateExports: bool,
    newTypeInference: bool,
    polymerPass: bool,
    preserveTypeAnnotations: bool,
    processCommonJsModules: bool,
    renamePrefixNamespace: Option<string>,
    rewritePolyfills: bool,
    dependencySorting: bool,
    inputSourceMaps: Object<string>)

  /** The output path `createSourceMap` asks for. */
  const SourceMapOutputPath := "%output%"

  function UpperChar(c: char): char {
    if 'a' <= c <= 'z' then (c as int - 32) as char else c
  }

  /** `String.toUpperCase` on the ASCII letters. */
  function ToUpperAscii(s: string): (u: string)
    ensures |u| == |s|
    ensures forall i :: 0 <= i < |s| ==> u[i] == UpperChar(s[i])
    ensures forall i :: 0 <= i < |s| ==> !('a' <= u[i] <= 'z')
  {
    if s == [] then [] else ToUpperAscii(s[..|s| - 1]) + [UpperChar(s[|s| - 1])]
  }

  lemma ToUpperAsciiIdempotent(s: string)
    ensures ToUpperAscii(ToUpperAscii(s)) == ToUpperAscii(s)
  {
  }

  /** `applyDefaultOptions`: simple optimisations, default warnings, ECMAScript 6
      in and ECMAScript 5 out, on top of whatever `o` held. */
  function ApplyDefaultOptions<C, W, L>(o: CompilerOptions<C, W, L>, levels: Levels<C, W, L>): (r: CompilerOptions<C, W, L>)
    ensures r.compilationLevel == levels.simpleOptimizations
    ensures r.warningLevel == levels.defaultWarnings
    ensures r.languageIn == levels.ecmascript6 && r.languageOut == levels.ecmascript5
    ensures r.(compilationLevel := o.compilationLevel, warningLevel := o.warningLevel,
               languageIn := o.languageIn, languageOut := o.languageOut) == o
  {
    o.(compilationLevel := levels.simpleOptimizations,
       warningLevel := levels.defaultWarnings,
       languageIn := levels.ecmascript6,
       languageOut := levels.ecmascript5)
  }

  /** The compilation level the flags select: the default when the flag is null,
      otherwise the library's reading of its upper-cased text, and an error naming
      the text as given when the library does not know it. */
  function CompilationLevelOf<C, W, L>(flags: Object<Value>, levels: Levels<C, W, L>): (r: Result<C, Error>)
    ensures StringFlag(flags, "compilationLevel").None? ==> r == Success(levels.simpleOptimizations)
    ensures StringFlag(flags, "compilationLevel").Some? ==>
      var name := StringFlag(flags, "compilationLevel").value;
      && (r.Success? <==> levels.compilationLevelFromString(ToUpperAscii(name)).Some?)
      && (r.Success? ==> Some(r.value) == levels.compilationLevelFromString(ToUpperAscii(name)))
      && (r.Failure? ==> r.error == BadCompilationLevel(name))
  {
    match StringFlag(flags, "compilationLevel")
    case None => Success(levels.simpleOptimizations)
    case Some(name) =>
      match levels.compilationLevelFromString(ToUpperAscii(name))
      case None => Failure(BadCompilationLevel(name))
      case Some(level) => Success(level)
  }

  /** The warning level the flags select: the default when the flag is null,
      otherwise the enum constant of exactly that name. */
  function WarningLevelOf<C, W, L>(flags: Object<Value>, levels: Levels<C, W, L>): (r: Result<W, Error>)
    ensures StringFlag(flags, "warningLevel").None? ==> r == Success(levels.defaultWarnings)
    ensures StringFlag(flags, "warningLevel").Some? ==>
      var name := StringFlag(flags, "warningLevel").value;
      && (r.Success? <==> levels.warningLevelValueOf(name).Some?)
      && (r.Success? ==> Some(r.value) == levels.warningLevelValueOf(name))
      && (r.Failure? ==> r.error == UnknownWarningLevel(name))
  {
    match StringFlag(flags, "warningLevel")
    case None => Success(levels.defaultWarnings)
    case Some(name) =>
      match levels.warningLevelValueOf(name)
      case None => Failure(UnknownWarningLevel(name))
      case Some(level) => Success(level)
  }

  /** What `applyOptionsFromFlags` reads from the flags besides the two levels. */
  datatype FlagSettings = FlagSettings(
    assumeFunctionWrapper: bool,
    useTypesForOptimization: bool,
    languageIn: Option<string>,
    languageOut: Option<string>,
    createSourceMap: bool,
    angularPass: bool,
    checksOnly: bool,
    dartPass: bool,
    exportLocalPropertyDefinitions: bool,
    generateExports: bool,
    newTypeInf: bool,
    polymerPass: bool,
    preserveTypeAnnotations: bool,
    processCommonJsModules: bool,
    renamePrefixNamespace: Option<string>,
    rewritePolyfills: bool)

  function ReadSettings(flags: Object<Value>): FlagSettings {
    FlagSettings(
      BoolFlag(flags, "assumeFunctionWrapper"),
      BoolFlag(flags, "useTypesForOptimization"),
      StringFlag(flags, "languageIn"),
      StringFlag(flags, "languageOut"),
      BoolFlag(flags, "createSourceMap"),
      BoolFlag(flags, "angularPass"),
      BoolFlag(flags, "checksOnly"),
      BoolFlag(flags, "dartPass"),
      BoolFlag(flags, "exportLocalPropertyDefinitions"),
      BoolFlag(flags, "generateExports"),
      BoolFlag(flags, "newTypeInf"),
      BoolFlag(flags, "polymerPass"),
      BoolFlag(flags, "preserveTypeAnnotations"),
      BoolFlag(flags, "processCommonJsModules"),
      StringFlag(flags, "renamePrefixNamespace"),
      BoolFlag(flags, "rewritePolyfills"))
  }

  /** A language mode the library recognises, or the current one otherwise. */
  function LanguageModeOr<C, W, L>(name: Option<string>, levels: Levels<C, W, L>, current: L): L {
    match name
    case None => current
    case Some(n) => levels.languageModeFromString(n).GetOr(current)
  }

  /** The output path for the source map: `%output%` when one is asked for. */
  function SourceMapPath(create: bool, current: Option<string>): Option<string> {
    if create then Some(SourceMapOutputPath) else current
  }

  /** The options once both levels are known: the levels are set, the two
      level-dependent option groups are switched on when asked for and never
      off, the language modes change only to ones the library recognises, and
      every plain flag overwrites its option. */
  function Configure<C, W, L>(o: CompilerOptions<C, W, L>, s: FlagSettings, levels: Levels<C, W, L>, level: C, warningLevel: W)
    : (r: CompilerOptions<C, W, L>)
    ensures r.compilationLevel == level && r.warningLevel == warningLevel
    ensures r.wrappedOutputOptimizations == (o.wrappedOutputOptimizations || s.assumeFunctionWrapper)
    ensures r.typeBasedOptimizations == (o.typeBasedOptimizations || s.useTypesForOptimization)
    ensures s.languageIn.Some? && levels.languageModeFromString(s.languageIn.value).Some? ==>
      Some(r.languageIn) == levels.languageModeFromString(s.languageIn.value)
    ensures s.languageIn.None? || levels.languageModeFromString(s.languageIn.value).None? ==> r.languageIn == o.languageIn
    ensures s.languageOut.Some? && levels.languageModeFromString(s.languageOut.value).Some? ==>
      Some(r.languageOut) == levels.languageModeFromString(s.languageOut.value)
    ensures s.languageOut.None? || levels.languageModeFromString(s.languageOut.value).None? ==> r.languageOut == o.languageOut
    ensures s.createSourceMap ==> r.sourceMapOutputPath == Some(SourceMapOutputPath)
    ensures !s.createSourceMap ==> r.sourceMapOutputPath == o.sourceMapOutputPath
    ensures && r.angularPass == s.angularPass && r.checksOnly == s.checksOnly && r.dartPass == s.dartPass
            && r.exportLocalPropertyDefinitions == s.exportLocalPropertyDefinitions
            && r.generateExports == s.generateExports && r.newTypeInference == s.newTypeInf
            && r.polymerPass == s.polymerPass && r.preserveTypeAnnotations == s.preserveTypeAnnotations
            && r.processCommonJsModules == s.processCommonJsModules
            && r.renamePrefixNamespace == s.renamePrefixNamespace && r.rewritePolyfills == s.rewritePolyfills
    ensures r.dependencySorting == o.dependencySorting && r.inputSourceMaps == o.inputSourceMaps
  {
    CompilerOptions(
      level,
      o.wrappedOutputOptimizations || s.assumeFunctionWrapper,
      o.typeBasedOptimizations || s.useTypesForOptimization,
      warningLevel,
      LanguageModeOr(s.languageIn, levels, o.languageIn),
      LanguageModeOr(s.languageOut, levels, o.languageOut),
      SourceMapPath(s.createSourceMap, o.sourceMapOutputPath),
      s.angularPass,
      s.checksOnly,
      s.dartPass,
      s.exportLocalPropertyDefinitions,
      s.generateExports,
      s.newTypeInf,
      s.polymerPass,
      s.preserveTypeAnnotations,
      s.processCommonJsModules,
      s.renamePrefixNamespace,
      s.rewritePolyfills,
      o.dependencySorting,
      o.inputSourceMaps)
  }

  /** `applyOptionsFromFlags(options, flags)`: fails exactly when the compilation
      or warning level names a level the library does not know (the compilation
      level is checked first); otherwise configures the options from the chosen
      levels and the flags. */
  function ApplyOptionsFromFlags<C, W, L>(o: CompilerOptions<C, W, L>, flags: Object<Value>, levels: Levels<C, W, L>)
    : (r: Result<CompilerOptions<C, W, L>, Error>)
    ensures r.Failure? <==> CompilationLevelOf(flags, levels).Failure? || WarningLevelOf(flags, levels).Failure?
    ensures CompilationLevelOf(flags, levels).Failure? ==> r == Failure(CompilationLevelOf(flags, levels).error)
    ensures CompilationLevelOf(flags, levels).Success? && WarningLevelOf(flags, levels).Failure? ==>
      r == Failure(WarningLevelOf(flags, levels).error)
    ensures r.Success? ==>
      r.value == Configure(o, ReadSettings(flags), levels, CompilationLevelOf(flags, levels).value, WarningLevelOf(flags, levels).value)
  {
    var level :- CompilationLevelOf(flags, levels);
    var warningLevel :- WarningLevelOf(flags, levels);
    Success(Configure(o, ReadSettings(flags), levels, level, warningLevel))
  }

  /** What a successful `applyOptionsFromFlags` leaves in the options, flag by
      flag: a flag that is absent or null reads as false (or null), so it clears
      its option; `createSourceMap` asks for the `%output%` map path. */
  lemma ApplyOptionsFromFlagsSettings<C, W, L>(o: CompilerOptions<C, W, L>, flags: Object<Value>, levels: Levels<C, W, L>)
    requires ApplyOptionsFromFlags(o, flags, levels).Success?
    ensures var r := ApplyOptionsFromFlags(o, flags, levels).value;
      && r.wrappedOutputOptimizations == (o.wrappedOutputOptimizations || BoolFlag(flags, "assumeFunctionWrapper"))
      && r.typeBasedOptimizations == (o.typeBasedOptimizations || BoolFlag(flags, "useTypesForOptimization"))
      && (StringFlag(flags, "languageIn").None? ==> r.languageIn == o.languageIn)
      && (StringFlag(flags, "languageOut").None? ==> r.languageOut == o.languageOut)
      && r.sourceMapOutputPath == (if BoolFlag(flags, "createSourceMap") then Some(SourceMapOutputPath) else o.sourceMapOutputPath)
      && r.angularPass == BoolFlag(flags, "angularPass")
      && r.checksOnly == BoolFlag(flags, "checksOnly")
      && r.dartPass == BoolFlag(flags, "dartPass")
      && r.exportLocalPropertyDefinitions == BoolFlag(flags, "exportLocalPropertyDefinitions")
      && r.generateExports == BoolFlag(flags, "generateExports")
      && r.newTypeInference == BoolFlag(flags, "newTypeInf")
      && r.polymerPass == BoolFlag(flags, "polymerPass")
      && r.preserveTypeAnnotations == BoolFlag(flags, "preserveTypeAnnotations")
      && r.processCommonJsModules == BoolFlag(flags, "processCommonJsModules")
      && r.renamePrefixNamespace == StringFlag(flags, "renamePrefixNamespace")
      && r.rewritePolyfills == BoolFlag(flags, "rewritePolyfills")
  {
  }

  /** `disableUnsupportedOptions`: dependency sorting is switched off. */
  function DisableUnsupportedOptions<C, W, L>(o: CompilerOptions<C, W, L>): (r: CompilerOptions<C, W, L>)
    ensures !r.dependencySorting
    ensures r.(dependencySorting := o.dependencySorting) == o
  {
    o.(dependencySorting := false)
  }

  /** Applying the same flags twice configures exactly what applying them once
      does: every setting is overwritten or switched on, never accumulated. */
  lemma ApplyOptionsFromFlagsIdempotent<C, W, L>(o: CompilerOptions<C, W, L>, flags: Object<Value>, levels: Levels<C, W, L>)
    requires ApplyOptionsFromFlags(o, flags, levels).Success?
    ensures ApplyOptionsFromFlags(ApplyOptionsFromFlags(o, flags, levels).value, flags, levels)
         == ApplyOptionsFromFlags(o, flags, levels)
  {
  }

  /** The compilation level is matched without regard to ASCII case: two flag
      texts that differ only in case select the same level or fail alike. */
  lemma CompilationLevelIgnoresCase<C, W, L>(flags: Object<Value>, flags': Object<Value>, levels: Levels<C, W, L>)
    requires StringFlag(flags, "compilationLevel").Some? && StringFlag(flags', "compilationLevel").Some?
    requires ToUpperAscii(StringFlag(flags, "compilationLevel").value) == ToUpperAscii(StringFlag(flags', "compilationLevel").value)
    ensures CompilationLevelOf(flags, levels).Success? <==> CompilationLevelOf(flags', levels).Success?
    ensures CompilationLevelOf(flags, levels).Success? ==> CompilationLevelOf(flags, levels) == CompilationLevelOf(flags', levels)
  {
  }
}
