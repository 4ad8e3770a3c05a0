/** The pull-policy enumeration: when a remote image reference is fetched rather
 *  than reused. ParsePullPolicy's own source is not part of this model; its
 *  behaviour here is what the pull-policy tests and the flag help show. */
module PullPolicies {
  import opened Errors

  datatype PullPolicy = Always | Never | IfNotPresent

  /** The canonical name of a policy (PullPolicy.String). It is never empty, and
   *  parsing it gives the policy back. */
  function PolicyString(p: PullPolicy): (s: string)
    ensures s != ""
    ensures ParsePullPolicy(s) == Success(p)
  {
    match p
    case Always => "always"
    case Never => "never"
    case IfNotPresent => "if-not-present"
  }

  /** ParsePullPolicy: the empty string is the "not set" value and means Always;
   *  every other string must be a canonical name. */
  function ParsePullPolicy(s: string): (r: Result<PullPolicy>)
    ensures r.Success? <==> s in {"", "always", "never", "if-not-present"}
    ensures s == "" ==> r == Success(Always)
    ensures r.Failure? ==> r.error == InvalidPullPolicy(s)
  {
    match s
    case "" => Success(Always)
    case "always" => Success(Always)
    case "never" => Success(Never)
    case "if-not-present" => Success(IfNotPresent)
    case _ => Failure(InvalidPullPolicy(s))
  }

  /** Apart from the empty string, a string that parses is the policy's own name:
   *  PolicyString and ParsePullPolicy are inverse on the canonical names. */
  lemma ParsedIsCanonical(s: string, p: PullPolicy)
    requires ParsePullPolicy(s) == Success(p)
    ensures s == "" || s == PolicyString(p)
  {
  }

  /** A parse failure prints "invalid pull policy <s>". */
  lemma InvalidNamesValue(s: string)
    requires ParsePullPolicy(s).Failure?
    ensures Message(ParsePullPolicy(s).error) == "invalid pull policy " + s
  {
  }
}
