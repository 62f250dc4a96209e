/** What each function of the deployment script does to the platform, as a function
    from the platform before the call to the platform after it and the call's outcome.
    The methods in module Deployment are proved to behave exactly so; the lemmas in
    module Properties state what these functions guarantee. */
module Semantics {
  import opened Platform

  /** The exceptions the script can end with: a version that failed to activate, or
      a platform call that was not recovered from. */
  datatype Error = ActivationFailed(name: string, reason: string) | ApiError(failure: Failure)
  {
    /** The text the exception carries. */
    function Message(): (m: string)
      ensures ActivationFailed? ==> |reason| <= |m| && m[|m| - |reason|..] == reason
      ensures ApiError? && failure.Rejected? ==> m == failure.message
    {
      match this
      case ActivationFailed(name, reason) =>
        "Function '" + name + "' failed to activate: " + reason
      case ApiError(Conflict) => "ResourceConflictException"
      case ApiError(Rejected(message)) => message
    }
  }

  /** How a call ends: it returns a value, it raises, or it is still polling for
      readiness when the observed states run out (the script would poll forever). */
  datatype Outcome<T> = Done(value: T) | Raised(error: Error) | Hung
  {
    /** The same abnormal ending, for a caller with another result type. */
    function Propagate<U>(): (o: Outcome<U>)
      requires !Done?
      ensures !o.Done? && o.Raised? == Raised? && (Raised? ==> o.error == error)
    {
      if Raised? then Raised(error) else Hung
    }
  }

  datatype Run<T> = Run(after: Cloud, outcome: Outcome<T>)

  /** The versions one rollout published: the blue one, then the green one. */
  datatype Deployment = Deployment(blue: Version, green: Version)

  /** The alias that carries production traffic. */
  const Live := "live"

  /** The number of states at the head of `s` that are neither Active nor Failed:
      the pauses a poll over `s` takes before it settles. */
  function Pending(s: seq<State>): (k: nat)
    ensures k <= |s|
    ensures forall i :: 0 <= i < k ==> s[i].Other?
    ensures k < |s| ==> !s[k].Other?
  {
    if s == [] || !s[0].Other? then 0 else 1 + Pending(s[1..])
  }

  /** The log of `k` polls that each saw a non-terminal state and slept. */
  function Retries(k: nat): seq<Event> {
    if k == 0 then [] else [GetFunctionCall, Slept] + Retries(k - 1)
  }

  /** wait_for_function_active: poll until Active (return), Failed (raise with the
      StateReason), or anything else (sleep, then poll again). A poll that fails
      raises, whether or not readiness states remain. */
  function WaitForFunctionActive(w: Cloud): Run<()>
    decreases |w.states|
  {
    if w.Exhausted() then Run(w, Hung)
    else
      var p := w.GetFunctionState();
      match p.reply
      case Fail(f) => Run(p.after, Raised(ApiError(f)))
      case Ok(Active) => Run(p.after, Done(()))
      case Ok(Failed(reason)) => Run(p.after, Raised(ActivationFailed(FunctionName, reason)))
      case Ok(Other(_)) => WaitForFunctionActive(p.after.Sleep())
  }

  /** Wait for readiness, then hand back `v`. */
  function ThenReady<T>(w: Cloud, v: T): Run<T> {
    var r := WaitForFunctionActive(w);
    Run(r.after, if r.outcome.Done? then Done(v) else r.outcome.Propagate())
  }

  /** deploy_blue: create the function; if it already exists, fetch it instead;
      then wait for readiness and return the version. */
  function DeployBlue(w: Cloud): Run<Version> {
    var c := w.CreateFunction();
    match c.reply
    case Ok(v) => ThenReady(c.after, v)
    case Fail(Conflict) =>
      var g := c.after.GetFunctionVersion();
      if g.reply.Ok? then ThenReady(g.after, g.reply.value)
      else Run(g.after, Raised(ApiError(g.reply.failure)))
    case Fail(f) => Run(c.after, Raised(ApiError(f)))
  }

  /** deploy_green: publish new code, wait for readiness, return the version. */
  function DeployGreen(w: Cloud): Run<Version> {
    var u := w.UpdateFunctionCode();
    if u.reply.Ok? then ThenReady(u.after, u.reply.value)
    else Run(u.after, Raised(ApiError(u.reply.failure)))
  }

  /** create_or_update_alias: create the alias; on conflict, update it instead. */
  function CreateOrUpdateAlias(w: Cloud, v: Version, name: string): Run<()> {
    var c := w.CreateAlias(name, v);
    match c.reply
    case Ok(_) => Run(c.after, Done(()))
    case Fail(Conflict) =>
      var u := c.after.UpdateAlias(name, v);
      Run(u.after, if u.reply.Ok? then Done(()) else Raised(ApiError(u.reply.failure)))
    case Fail(f) => Run(c.after, Raised(ApiError(f)))
  }

  /** The first half of main: publish blue, point the live alias at it, wait for
      the operator. Returns the blue version. */
  function BluePhase(w: Cloud): Run<Version> {
    var b := DeployBlue(w);
    if !b.outcome.Done? then b
    else
      var a := CreateOrUpdateAlias(b.after, b.outcome.value, Live);
      if !a.outcome.Done? then Run(a.after, a.outcome.Propagate())
      else Run(a.after.Gate(), b.outcome)
  }

  /** The second half of main: publish green and point the live alias at it. */
  function GreenPhase(w: Cloud): Run<Version> {
    var g := DeployGreen(w);
    if !g.outcome.Done? then g
    else
      var a := CreateOrUpdateAlias(g.after, g.outcome.value, Live);
      if !a.outcome.Done? then Run(a.after, a.outcome.Propagate())
      else Run(a.after, g.outcome)
  }

  /** main: the blue half, then the green half; any exception ends the run. */
  function Rollout(w: Cloud): Run<Deployment> {
    var p := BluePhase(w);
    if !p.outcome.Done? then Run(p.after, p.outcome.Propagate())
    else
      var q := GreenPhase(p.after);
      if !q.outcome.Done? then Run(q.after, q.outcome.Propagate())
      else Run(q.after, Done(Deployment(p.outcome.value, q.outcome.value)))
  }
}
