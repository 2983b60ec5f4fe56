# GwtRunner input normalisation, in Dafny

This project models the JavaScript entry point of the GWT build of the Closure
Compiler, `GwtRunner.compile(flags)`. The model covers everything the runner does
with the caller's flags object before and after the compiler itself runs:

- `updateFlags` copies every default the caller left out onto the caller's
  object. It then lists the caller's flags that the defaults do not know, and
  `compile` throws `Unhandled flag: <first>` when that list is not empty.
- `fromFileArray` turns the `jsCode` and `externs` file arrays into named
  sources. A file without a path is named `Input_<i>` or `Extern_<i>`, and a
  missing text reads as empty.
- `buildSourceMaps` keys every non-empty input source map by
  `<name>.map`. It fails when two maps get the same key, as Guava's
  `ImmutableMap.Builder.build` does.
- `applyDefaultOptions`, `applyOptionsFromFlags` and
  `disableUnsupportedOptions` turn the flags into compiler options. An unknown
  compilation level throws `Bad value for compilationLevel: <value>`. An unknown
  warning level throws from `WarningLevel.valueOf`. An unknown language mode
  keeps the default.
- `NodeErrorManager.println` sorts the compiler's diagnostics into errors and
  warnings. `toNativeErrorArray` turns each list into plain records.

JavaScript objects are ordered association lists with distinct keys
(`Props`). `for (var k in o)` visits them in insertion order, `k in o` is
`Has`, `o[k]` is `Get`, and `o[k] = v` is `Put`. The compiler library is a
parameter: level and language lookups are the functions in `Options.Levels`,
and the compilation itself is a function from the prepared inputs to a
`Runner.CompilerRun`. An exception becomes a `Failure` carrying an
`Errors.Error`. The caller's object as `compile` leaves it is returned with
every outcome, because `updateFlags` writes into it even when `compile` then
throws.

Modules, in dependency order: `Wrappers`, `Props`, `Decimal`, `Flags`,
`Errors`, `Sources`, `Diagnostics`, `Options`, `Runner`.

## Model

| member | source | states |
|---|---|---|
| Flags.DefaultFlagsWellFormed | src/com/google/javascript/jscomp/gwt/client/GwtRunner.java:84-106 | the defaults object names each of its twenty flags exactly once |
| Flags.UpdateFlags | src/com/google/javascript/jscomp/gwt/client/GwtRunner.java:242-255 | the updated object is the caller's entries followed by the defaults they lack; it has no duplicate key and holds every default key; the caller's values are kept and the others are the defaults; the returned list holds exactly the caller's keys the defaults lack |
| Flags.FillDefaults | src/com/google/javascript/jscomp/gwt/client/GwtRunner.java:243-247 | the first loop, with `Put` on the growing object, yields the reference merge `Merged` |
| Flags.ListUnhandled | src/com/google/javascript/jscomp/gwt/client/GwtRunner.java:248-254 | the second loop yields the reference list `Unhandled`, in enumeration order |
| Flags.Missing | src/com/google/javascript/jscomp/gwt/client/GwtRunner.java:243-247 | every appended entry comes from the defaults and is absent from the caller's object; every default the caller lacks is appended; no key is appended twice |
| Flags.UnhandledSpec | src/com/google/javascript/jscomp/gwt/client/GwtRunner.java:248-254 | a key is listed if and only if the object has it and the defaults do not |
| Flags.UpdateFlagsFacts | src/com/google/javascript/jscomp/gwt/client/GwtRunner.java:242-255 | the reference merge has no duplicate key, holds every default key, keeps the caller's values, copies the missing defaults, and leaves the unhandled list unchanged |
| Flags.MergedKeys | src/com/google/javascript/jscomp/gwt/client/GwtRunner.java:243-247 | after the merge, a key is present if and only if the caller or the defaults had it |
| Flags.MergedWellFormed | src/com/google/javascript/jscomp/gwt/client/GwtRunner.java:243-247 | the merge never creates a duplicate key |
| Flags.MergedKeepsUserValue | src/com/google/javascript/jscomp/gwt/client/GwtRunner.java:244-246 | a flag the caller supplied keeps the caller's value |
| Flags.MergedCopiesDefault | src/com/google/javascript/jscomp/gwt/client/GwtRunner.java:244-246 | a flag the caller left out reads as its default |
| Flags.UnhandledOfMerged | src/com/google/javascript/jscomp/gwt/client/GwtRunner.java:248-254 | the second loop runs on the updated object, yet reports only the caller's own unknown keys: appended defaults are never reported |
| Flags.UnhandledFirst | src/com/google/javascript/jscomp/gwt/client/GwtRunner.java:248-254 | the head of the list is the first unknown key in enumeration order |
| Flags.UnhandledEmptyIff | src/com/google/javascript/jscomp/gwt/client/GwtRunner.java:261-264 | the list is empty exactly when every key of the caller's object is a known flag |
| Flags.MergedIdempotent | src/com/google/javascript/jscomp/gwt/client/GwtRunner.java:243-247 | filling in the defaults a second time changes nothing |
| Props.GetSpec | src/com/google/javascript/jscomp/gwt/client/GwtRunner.java:244-245 | a lookup finds a value exactly when `k in o` holds, and the value is the entry under that key |
| Props.GetAt | src/com/google/javascript/jscomp/gwt/client/GwtRunner.java:245 | in an object without duplicate keys, the lookup of an entry's key returns that entry's value |
| Props.Put | src/com/google/javascript/jscomp/gwt/client/GwtRunner.java:245 | assigning an existing property keeps the key order; assigning a new one appends it at the end of the enumeration |
| Props.GetPut | src/com/google/javascript/jscomp/gwt/client/GwtRunner.java:245 | after `o[k] = v`, `o[k]` reads `v` and every other property reads as before |
| Props.PutWellFormed | src/com/google/javascript/jscomp/gwt/client/GwtRunner.java:245 | assignment never duplicates a key |
| Props.HasAppend | src/com/google/javascript/jscomp/gwt/client/GwtRunner.java:244 | `k in (a then b)` holds if and only if `k` is in `a` or in `b` |
| Props.GetAppend | src/com/google/javascript/jscomp/gwt/client/GwtRunner.java:245 | a lookup in appended entries finds the earlier object's value first |
| Errors.Message | src/com/google/javascript/jscomp/gwt/client/GwtRunner.java:262-263 | the two runner exceptions carry the texts `Unhandled flag: ` and `Bad value for compilationLevel: ` followed by the offending name |
| Errors.MessageNamesValue | src/com/google/javascript/jscomp/gwt/client/GwtRunner.java:154-155 | the level (here) or the flag (the `Unhandled flag: ` message of line 263) can be read back from the message after its prefix |
| Errors.MessagesDistinct | src/com/google/javascript/jscomp/gwt/client/GwtRunner.java:154-155 | an unhandled-flag message (line 263) never equals a bad-level message (here) |
| Decimal.NatToString | src/com/google/javascript/jscomp/gwt/client/GwtRunner.java:209 | the index in `unknownPrefix + i` is a non-empty string of decimal digits with no leading zero |
| Decimal.ParseNatToString | src/com/google/javascript/jscomp/gwt/client/GwtRunner.java:209 | reading the numeral back gives the index |
| Decimal.NatToStringInjective | src/com/google/javascript/jscomp/gwt/client/GwtRunner.java:209 | different indices give different numerals |
| Sources.FromFiles | src/com/google/javascript/jscomp/gwt/client/GwtRunner.java:205-212 | one source per file, in order; file `i` is named by its path or by `prefix + i` and has its text or the empty string |
| Sources.FromFileArray | src/com/google/javascript/jscomp/gwt/client/GwtRunner.java:202-215 | a null array gives no sources; otherwise the output has the array's length and each source's name and code follow the rule above |
| Sources.NumberedNamesDistinct | src/com/google/javascript/jscomp/gwt/client/GwtRunner.java:227-230 | two generated names with the same prefix and suffix are equal only for the same index |
| Sources.FromFilesUnnamedDistinct | src/com/google/javascript/jscomp/gwt/client/GwtRunner.java:207-211 | two files without a path never get the same source name |
| Sources.MapIndices | src/com/google/javascript/jscomp/gwt/client/GwtRunner.java:221-225 | the positions visited past the `isNullOrEmpty` test are exactly the files with a non-empty map, in ascending order |
| Sources.SourceMapEntries | src/com/google/javascript/jscomp/gwt/client/GwtRunner.java:219-233 | the builder receives one entry per file with a non-empty map, in file order, keyed `name + ".map"` and holding that map |
| Sources.BuildSourceMaps | src/com/google/javascript/jscomp/gwt/client/GwtRunner.java:217-236 | a null array gives the empty map; a successful build holds exactly the entries of the files with a non-empty map, in file order; the only failure is a duplicate key |
| Sources.BuildSourceMapsLookup | src/com/google/javascript/jscomp/gwt/client/GwtRunner.java:226-232 | in a built map, `name + ".map"` of a file with a source map looks up that file's map |
| Sources.BuildSourceMapsFailsIff | src/com/google/javascript/jscomp/gwt/client/GwtRunner.java:217-236 | the build fails exactly when two files that both carry a non-empty map are known by the same name |
| Sources.UnnamedFilesBuildSourceMaps | src/com/google/javascript/jscomp/gwt/client/GwtRunner.java:226-235 | when no file has a path, the keys never collide and the build succeeds |
| Sources.SourceMapKeysNameSources | src/com/google/javascript/jscomp/gwt/client/GwtRunner.java:226-230 | every map key is the name of a source built from the same array, followed by `.map` |
| Diagnostics.ToNativeErrorArray | src/com/google/javascript/jscomp/gwt/client/GwtRunner.java:131-140 | one record per error, in order, with its file, description, type key (null when the error has no type), line and column |
| Diagnostics.ToNativeErrorArrayAppend | src/com/google/javascript/jscomp/gwt/client/GwtRunner.java:131-140 | conversion is element-wise: converting a concatenation concatenates the conversions |
| Diagnostics.Println | src/com/google/javascript/jscomp/gwt/client/GwtRunner.java:326-332 | both lists only grow; errors grow by one exactly for an ERROR and warnings by one exactly for a WARNING, and the added element is the printed error |
| Diagnostics.OfLevel | src/com/google/javascript/jscomp/gwt/client/GwtRunner.java:326-332 | an error is among the diagnostics of a level exactly when it was printed at that level |
| Diagnostics.PrintAllPartitions | src/com/google/javascript/jscomp/gwt/client/GwtRunner.java:321-332 | after any sequence of prints, errors are exactly the ERROR diagnostics and warnings exactly the WARNING ones, in print order |
| Diagnostics.OfLevelCounts | src/com/google/javascript/jscomp/gwt/client/GwtRunner.java:326-332 | every printed diagnostic has exactly one of the three levels |
| Options.ToUpperAscii | src/com/google/javascript/jscomp/gwt/client/GwtRunner.java:152 | upper-casing keeps the length, maps each character on its own, and leaves no lower-case ASCII letter |
| Options.ToUpperAsciiIdempotent | src/com/google/javascript/jscomp/gwt/client/GwtRunner.java:152 | upper-casing twice is upper-casing once |
| Options.ApplyDefaultOptions | src/com/google/javascript/jscomp/gwt/client/GwtRunner.java:142-147 | simple optimisations, default warnings, ECMAScript 6 in and ECMAScript 5 out are set, and nothing else changes |
| Options.CompilationLevelOf | src/com/google/javascript/jscomp/gwt/client/GwtRunner.java:150-157 | a null flag selects simple optimisations; otherwise the level is the library's reading of the upper-cased text, and the error names the text as given |
| Options.WarningLevelOf | src/com/google/javascript/jscomp/gwt/client/GwtRunner.java:166-169 | a null flag selects the default warnings; otherwise `valueOf` of the exact text, and the error names the text |
| Options.Configure | src/com/google/javascript/jscomp/gwt/client/GwtRunner.java:158-195 | the chosen levels are set; the wrapped-output and type-based groups are on exactly when they already were or `assumeFunctionWrapper` / `useTypesForOptimization` asks for them; a language mode the library recognises is applied, and an absent or unrecognised one leaves the current mode; with `createSourceMap` the map path is `%output%`, and without it the path is untouched; each of the eleven plain flag settings is copied into its option; dependency sorting and input maps are untouched |
| Options.ApplyOptionsFromFlags | src/com/google/javascript/jscomp/gwt/client/GwtRunner.java:149-196 | fails exactly when the compilation or warning level is unknown; an unknown compilation level gives its error, otherwise an unknown warning level gives its error; on success the options are configured from the levels and flags |
| Options.ApplyOptionsFromFlagsSettings | src/com/google/javascript/jscomp/gwt/client/GwtRunner.java:159-195 | flag by flag, the option equals the flag's truthiness; `createSourceMap` sets the path `%output%`; an absent language keeps the current mode |
| Options.DisableUnsupportedOptions | src/com/google/javascript/jscomp/gwt/client/GwtRunner.java:198-200 | dependency sorting is off and nothing else changes |
| Options.ApplyOptionsFromFlagsIdempotent | src/com/google/javascript/jscomp/gwt/client/GwtRunner.java:149-196 | applying the same flags twice configures the same options as applying them once |
| Options.CompilationLevelIgnoresCase | src/com/google/javascript/jscomp/gwt/client/GwtRunner.java:151-152 | two level texts that differ only in ASCII case select the same level, or fail alike |
| Runner.Prepare | src/com/google/javascript/jscomp/gwt/client/GwtRunner.java:260-274 | the caller's object is completed; an unknown flag stops everything with the first one; preparation succeeds exactly when all flags are known, the source maps build and both levels are known; with all flags known, a failure is the duplicate source-map key if the maps do not build, else the compilation-level error, else the warning-level error; on success the inputs come from the completed flags with the `Extern_` and `Input_` prefixes, and the options are exactly the defaults, then the flags applied, then the built source maps, then unsupported options disabled (dependency sorting off) |
| Runner.Package | src/com/google/javascript/jscomp/gwt/client/GwtRunner.java:276-296 | the output has the compiled code, the ERROR and WARNING diagnostics as records in print order, and a source map exactly when `createSourceMap` is truthy |
| Runner.PreparedOptions | src/com/google/javascript/jscomp/gwt/client/GwtRunner.java:270-274 | the options the compiler receives carry the compilation and warning levels the completed flags select, a recognised language mode, the wrapped-output and type-based groups when asked for, the `%output%` map path when a map is asked for, and the truthiness or text of each of the eleven plain flags (`angularPass` through `rewritePolyfills`) |
| Runner.Compile | src/com/google/javascript/jscomp/gwt/client/GwtRunner.java:260-297 | the caller's object always ends completed; an unknown flag gives `Unhandled flag: <first>`; the call succeeds exactly when preparation does, any failure is preparation's error, and on success it returns the packaged compiler run |
| Runner.CompileCompletesFlags | src/com/google/javascript/jscomp/gwt/client/GwtRunner.java:261 | after any call, every known flag is present on the caller's object, the caller's flags keep their values, and the others hold their defaults |
| Runner.FirstUnknownFlagReported | src/com/google/javascript/jscomp/gwt/client/GwtRunner.java:261-264 | if the caller's `i`-th flag is unknown and all earlier ones are known, the call fails naming that flag |
| Runner.BadCompilationLevelReported | src/com/google/javascript/jscomp/gwt/client/GwtRunner.java:150-156 | with every flag known and the source maps built, a compilation level the library does not know ends the call with `Bad value for compilationLevel: ` followed by the text as the caller wrote it |

## Left out

- The compiler run (lines 277-279 and 282) is a function parameter. The diagnostics are modelled as the sequence of `println` calls the library's error manager makes; how `BasicErrorManager` buffers, sorts and de-duplicates reports before printing them is library code and is not modelled. `printSummary` does nothing and is left out.
- The source map text (lines 286-294) is a field of the compiler run. The `IOException` that `appendTo` could throw into a `StringBuilder` is not modelled; the code ignores it.
- `exportCompile` and `onModuleLoad` (lines 304-316) only publish `compile` to JavaScript. `createError` (lines 123-126) is the record constructor `NativeError`.
- Options.ApplyDefaultOptions: `setOptionsForCompilationLevel` and `setOptionsForWarningLevel` belong to the library. The model records which level was applied last, not the individual option fields those setters change.
- Options.Configure: the level setters are recorded the same way. The wrapped-output and type-based option groups are one flag each, not the options they set.
- Options.CompilationLevelOf: `toUpperCase` is modelled on ASCII letters only. JavaScript's `String.prototype.toUpperCase` also maps non-ASCII letters, some to longer text ('ß' becomes "SS"); those mappings are left out.
- Options.ApplyOptionsFromFlags: `LanguageMode.fromString` on a null flag is taken to return null, so an absent language flag keeps the current mode.
- Runner.Compile: a null or undefined flags object (the exported function called with no argument) makes the runner fail with a JavaScript `TypeError` at `k in dst` (line 244). The model's flags are always an object, so this failure is not modelled.
- Flags.UpdateFlags: JavaScript enumerates integer-like keys first, and `for-in` also visits enumerable inherited properties. The model uses plain insertion order and own properties only. The `k in src` test at line 250 also sees members inherited from `Object.prototype`, so the runner never reports a caller flag named `toString` or `constructor`, while the model reports it as unhandled.
- Flags.BoolFlag reads a flag by JavaScript truthiness: null and false read as false, an empty string reads as false, a non-empty string or any file array reads as true. Flags.StringFlag and Flags.FilesFlag read a flag of another type as null. Numbers and other objects are not among the modelled values.
- Options.CompilationLevelOf: a `compilationLevel` that is neither null nor a string (a boolean or a file array) reads as null here and selects simple optimisations, whereas the runner calls `toUpperCase` on it at line 152 and fails with a JavaScript `TypeError`. A non-string `warningLevel`, `languageIn` or `languageOut` is likewise read as null; what the library lookups do with such a value is not modelled.
- Sources.FromFileArray: a null element inside a file array makes the runner fail with a JavaScript `TypeError` when it reads `file.path`. The model's file arrays have no null elements.
- Flags.FilesFlag: a `jsCode` or `externs` flag holding a string reads as null here and gives no sources, whereas the runner's loop at lines 205-211 walks the string's characters: each has no `path` or `src`, so it yields sources named `Input_0`, `Input_1`, … (or `Extern_<i>`) with empty text.
- Diagnostics.ToNativeErrorArray: line and column numbers are copied unchanged, so Java's 32-bit `int` width plays no part.
- Errors.Message: the texts of exceptions thrown inside library code (`WarningLevel.valueOf`, `ImmutableMap.Builder.build`) are not modelled.
- The agreement between the literal defaults (lines 86-105) and the options `applyDefaultOptions` sets is not stated: the model takes the option defaults from `Levels` and the flag defaults from the literal, independently.
