/** `NodeErrorManager`, which sorts the compiler's diagnostics into errors and
    warnings, and `toNativeErrorArray`, which turns them into plain records. */
module Diagnostics {
  import opened Wrappers

  /** `CheckLevel`. */
  datatype CheckLevel = Error | Warning | Off

  /** A `DiagnosticType`; only its key reaches the output. */
  datatype DiagnosticType = DiagnosticType(key: string)

  /** A `JSError` as the runner reads it. */
  datatype JSError = JSError(
    sourceName: Option<string>,
    description: string,
    diagnosticType: Option<DiagnosticType>,
    lineNumber: int,
    charno: int)

  /** The plain object `createError` builds. */
  datatype NativeError = NativeError(
    file: Option<string>,
    description: string,
    typeKey: Option<string>,
    lineNo: int,
    charNo: int)

  /** One element of `toNativeErrorArray`'s loop. */
  function ToNative(e: JSError): NativeError {
    NativeError(
      e.sourceName,
      e.description,
      match e.diagnosticType case Some(t) => Some(t.key) case None => None,
      e.lineNumber,
      e.charno)
  }

  /** `toNativeErrorArray(errors)`: one plain record per error, in the same order,
      each carrying that error's file, description, type key (null when the error
      has no type), line and column. */
  function ToNativeErrorArray(errors: seq<JSError>): (out: seq<NativeError>)
    ensures |out| == |errors|
    ensures forall i :: 0 <= i < |errors| ==>
      && out[i].file == errors[i].sourceName
      && out[i].description == errors[i].description
      && (errors[i].diagnosticType.None? ==> out[i].typeKey.None?)
      && (errors[i].diagnosticType.Some? ==> out[i].typeKey == Some(errors[i].diagnosticType.value.key))
      && out[i].lineNo == errors[i].lineNumber
      && out[i].charNo == errors[i].charno
  {
    if errors == [] then []
    else
      var n := |errors| - 1;
      ToNativeErrorArray(errors[..n]) + [ToNative(errors[n])]
  }

  /** Converting two lists one after the other is converting their concatenation. */
  lemma {:induction false} ToNativeErrorArrayAppend(a: seq<JSError>, b: seq<JSError>)
    ensures ToNativeErrorArray(a + b) == ToNativeErrorArray(a) + ToNativeErrorArray(b)
  {
    if b == [] {
      assert a + b == a;
    } else {
      var n := |b| - 1;
      assert (a + b)[..|a + b| - 1] == a + b[..n];
      ToNativeErrorArrayAppend(a, b[..n]);
    }
  }

  /** The two lists a `NodeErrorManager` keeps. */
  datatype ErrorManager = ErrorManager(errors: seq<JSError>, warnings: seq<JSError>)

  const NewErrorManager := ErrorManager([], [])

  /** `NodeErrorManager.println(level, error)`: an error is recorded under errors,
      a warning under warnings, and anything else is dropped. */
  function Println(m: ErrorManager, level: CheckLevel, error: JSError): (m': ErrorManager)
    ensures m.errors <= m'.errors && m.warnings <= m'.warnings
    ensures |m'.errors| == |m.errors| + (if level == Error then 1 else 0)
    ensures |m'.warnings| == |m.warnings| + (if level == Warning then 1 else 0)
    ensures error in m'.errors[|m.errors|..] <==> level == Error
    ensures error in m'.warnings[|m.warnings|..] <==> level == Warning
  {
    match level
    case Error => m.(errors := m.errors + [error])
    case Warning => m.(warnings := m.warnings + [error])
    case Off => m
  }

  /** One call the compiler makes to the error manager. */
  datatype Report = Report(level: CheckLevel, error: JSError)

  /** The manager after the compiler has printed `reports`, in order. */
  function PrintAll(m: ErrorManager, reports: seq<Report>): ErrorManager {
    if reports == [] then m
    else
      var n := |reports| - 1;
      Println(PrintAll(m, reports[..n]), reports[n].level, reports[n].error)
  }

  /** The errors of the reports that were printed at `level`, in order. */
  function OfLevel(reports: seq<Report>, level: CheckLevel): (es: seq<JSError>)
    ensures forall e :: e in es <==> Report(level, e) in reports
  {
    if reports == [] then []
    else
      var n := |reports| - 1;
      OfLevel(reports[..n], level) + (if reports[n].level == level then [reports[n].error] else [])
  }

  /** The manager partitions the stream: errors are exactly the ERROR reports and
      warnings exactly the WARNING reports, each in the order they were printed. */
  lemma {:induction false} PrintAllPartitions(m: ErrorManager, reports: seq<Report>)
    ensures PrintAll(m, reports).errors == m.errors + OfLevel(reports, Error)
    ensures PrintAll(m, reports).warnings == m.warnings + OfLevel(reports, Warning)
  {
    if reports != [] {
      var n := |reports| - 1;
      PrintAllPartitions(m, reports[..n]);
    }
  }

  /** Every report lands in exactly one of the three levels. */
  lemma {:induction false} OfLevelCounts(reports: seq<Report>)
    ensures |OfLevel(reports, Error)| + |OfLevel(reports, Warning)| + |OfLevel(reports, Off)| == |reports|
  {
    if reports != [] {
      OfLevelCounts(reports[..|reports| - 1]);
    }
  }
}
