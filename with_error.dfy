/**
 * The `@withErrorAsync()` decorator (src/actions/with-error-async.ts),
 * written as an explicit wrapper: run the original method with its receiver
 * and arguments, pass a result through, turn a throw or rejection into one
 * warning and an undefined result.
 */
module WithError {
  import opened Wrappers
  import opened Consts

  const FAILURE_PREFIX: string := "Failed to perform operation "

  /** How `e.message` reads inside a string concatenation. */
  function MessageText(e: Reason): string
  {
    match e
    case Failure(m) => m
    case Text(_) => "undefined"   // a string has no `message` property
  }

  /** The reason itself, for the `|| e` fallback. */
  function ReasonText(e: Reason): string
  {
    match e
    case Failure(m) => m
    case Text(t) => t
  }

  /**
   * `'Failed to perform operation ' + e.message || e`: the concatenation binds
   * first, so the operand of `||` is never empty and the fallback is dead.
   */
  function WarningText(e: Reason): (text: string)
    ensures text == FAILURE_PREFIX + MessageText(e)
    ensures text[..|FAILURE_PREFIX|] == FAILURE_PREFIX
  {
    var concatenated := FAILURE_PREFIX + MessageText(e);
    if concatenated != "" then concatenated else ReasonText(e)
  }

  /** What the decorated method's caller sees: a value or undefined, and the warnings shown. */
  datatype Wrapped<T> = Wrapped(value: Option<T>, warnings: seq<string>)

  /**
   * The replaced `descriptor.value`: `original` stands for the method applied
   * to its receiver and arguments (`args`), which it receives unchanged.
   */
  function WithErrorAsync<Args, T>(original: Args -> Result<T, Reason>, args: Args): (w: Wrapped<T>)
    ensures original(args).Ok? ==> w == Wrapped(Some(original(args).value), [])
    ensures original(args).Err? ==> w.value == None && |w.warnings| == 1
    ensures original(args).Err? ==> w.warnings[0] == FAILURE_PREFIX + MessageText(original(args).error)
  {
    match original(args)
    case Ok(v) => Wrapped(Some(v), [])
    case Err(e) => Wrapped(None, [WarningText(e)])
  }
}
