/** Error values of the pull-policy and buildpack-package commands, and the text an
 *  error prints. Wrapping follows github.com/pkg/errors: a wrapped error prints as
 *  "<context>: <cause>". */
module Errors {

  datatype Option<+T> = None | Some(value: T)

  datatype Result<+T> = Success(value: T) | Failure(error: Error)

  datatype Error =
    | InvalidPullPolicy(policy: string)            // from ParsePullPolicy
    | ConflictingPublishNever                      // from validateBuildpackPackageFlags
    | TooManyArgs(max: nat, received: nat)         // positional-argument maximum
    | WrongArgCount(expected: nat, received: nat)  // positional-argument exact count
    | External(message: string)                    // from the config store, reader or packager
    | Wrapped(context: string, cause: Error)       // errors.Wrap / errors.Wrapf

  const ConflictText: string :=
    "--publish and --pull-policy never cannot be used together. The --publish flag requires the use of remote images."

  /** The decimal digits of n, as fmt's %d prints them. */
  function Decimal(n: nat): (s: string)
    ensures |s| >= 1
    ensures forall i :: 0 <= i < |s| ==> '0' <= s[i] <= '9'
    decreases n
  {
    var digit := [('0' as int + n % 10) as char];
    if n < 10 then digit else Decimal(n / 10) + digit
  }

  /** The text an error prints. */
  function Message(e: Error): string
    decreases e
  {
    match e
    case InvalidPullPolicy(p) => "invalid pull policy " + p
    case ConflictingPublishNever => ConflictText
    case TooManyArgs(m, n) => "accepts at most " + Decimal(m) + " arg(s), received " + Decimal(n)
    case WrongArgCount(m, n) => "accepts " + Decimal(m) + " arg(s), received " + Decimal(n)
    case External(msg) => msg
    case Wrapped(ctx, cause) => ctx + ": " + Message(cause)
  }

  predicate EndsWith(s: string, suffix: string)
  {
    |suffix| <= |s| && s[|s| - |suffix|..] == suffix
  }

  /** The innermost error under all wrapping (what errors.Cause returns). Wrapping
   *  only ever prepends context, so the root cause's text is the tail of the whole
   *  text: an error that names an offending value still names it once wrapped. */
  function RootCause(e: Error): (r: Error)
    ensures !r.Wrapped?
    ensures !e.Wrapped? ==> r == e
    ensures EndsWith(Message(e), Message(r))
    decreases e
  {
    match e
    case Wrapped(ctx, cause) =>
      var r := RootCause(cause);
      assert Message(e) == (ctx + ": ") + Message(cause);
      assert Message(e)[|Message(e)| - |Message(cause)|..] == Message(cause);
      r
    case _ => e
  }
}
