/** The exceptions `compile` can end in before the compiler runs. */
module Errors {
  import opened Wrappers

  datatype Error =
      /** `updateFlags` reported a flag the defaults do not know. */
    | UnhandledFlag(key: string)
      /** `CompilationLevel.fromString` did not recognise the upper-cased name. */
    | BadCompilationLevel(value: string)
      /** `WarningLevel.valueOf` rejected the name (an enum lookup throws). */
    | UnknownWarningLevel(value: string)
      /** Two input source maps were put under the same key, which
          `ImmutableMap.Builder.build` refuses. */
    | DuplicateSourceMapKey

  const UnhandledFlagPrefix := "Unhandled flag: "
  const BadCompilationLevelPrefix := "Bad value for compilationLevel: "

  /** The text of the `RuntimeException` the runner itself throws; `None` for the
      exceptions raised inside library code, whose wording is not modelled. */
  function Message(e: Error): (m: Option<string>)
    ensures e.UnhandledFlag? ==> m.Some? && UnhandledFlagPrefix <= m.value
    ensures e.BadCompilationLevel? ==> m.Some? && BadCompilationLevelPrefix <= m.value
  {
    match e
    case UnhandledFlag(k) => Some(UnhandledFlagPrefix + k)
    case BadCompilationLevel(v) => Some(BadCompilationLevelPrefix + v)
    case _ => None
  }

  /** The flag or level named in a message can be read back from it. */
  lemma MessageNamesValue(e: Error)
    requires e.UnhandledFlag? || e.BadCompilationLevel?
    ensures Message(e).Some?
    ensures e.UnhandledFlag? ==> Message(e).value[|UnhandledFlagPrefix|..] == e.key
    ensures e.BadCompilationLevel? ==> Message(e).value[|BadCompilationLevelPrefix|..] == e.value
  {
  }

  /** The two messages the runner writes can never be confused. */
  lemma MessagesDistinct(key: string, value: string)
    ensures Message(UnhandledFlag(key)) != Message(BadCompilationLevel(value))
  {
    assert Message(UnhandledFlag(key)).value[0] == 'U';
    assert Message(BadCompilationLevel(value)).value[0] == 'B';
  }
}
