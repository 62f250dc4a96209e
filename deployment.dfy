/** The deployment script itself: each function of blue_green_deployment.py as a
    method that makes its platform calls one after another on a `Client`. Each
    method leaves the platform, and returns the outcome, that its namesake in
    module Semantics describes. */
module Deployment {
  import opened Platform
  import S = Semantics
  import P = Properties

  /** Poll the function's state until it is Active (return) or Failed (raise),
      sleeping after every other state. */
  method WaitForFunctionActive(c: Client) returns (o: S.Outcome<()>)
    modifies c
    ensures S.Run(c.Snapshot(), o) == S.WaitForFunctionActive(old(c.Snapshot()))
    ensures c.deployed == old(c.deployed) && c.version == old(c.version) && c.aliases == old(c.aliases)
    ensures var k := S.Pending(old(c.states));
      o.Done? ==> k < |old(c.states)| && old(c.states)[k] == Active
  {
    P.WaitOnlyPolls(c.Snapshot());
    P.WaitReturnsOnlyWhenActive(c.Snapshot());
    while true
      invariant S.WaitForFunctionActive(c.Snapshot()) == S.WaitForFunctionActive(old(c.Snapshot()))
      decreases |c.states|
    {
      if c.Snapshot().Exhausted() {
        return S.Hung;
      }
      var reply := c.GetFunctionState();
      match reply {
        case Fail(f) =>
          return S.Raised(S.ApiError(f));
        case Ok(Active) =>
          return S.Done(());
        case Ok(Failed(reason)) =>
          return S.Raised(S.ActivationFailed(FunctionName, reason));
        case Ok(Other(_)) =>
          c.Sleep();
      }
    }
  }

  /** Create the function, or fetch it when it already exists; wait until it is
      ready; return the version. */
  method DeployBlue(c: Client) returns (o: S.Outcome<Version>)
    modifies c
    ensures S.Run(c.Snapshot(), o) == S.DeployBlue(old(c.Snapshot()))
    ensures c.aliases == old(c.aliases)
    ensures var k := S.Pending(old(c.states));
      o.Done? ==> k < |old(c.states)| && old(c.states)[k] == Active && c.deployed
  {
    P.DeployBlueFrame(c.Snapshot());
    P.DeployBlueNeedsActive(c.Snapshot());
    var version: Version;
    var created := c.CreateFunction();
    match created {
      case Ok(v) =>
        version := v;
      case Fail(Conflict) =>
        var fetched := c.GetFunctionVersion();
        if fetched.Fail? {
          return S.Raised(S.ApiError(fetched.failure));
        }
        version := fetched.value;
      case Fail(f) =>
        return S.Raised(S.ApiError(f));
    }
    var ready := WaitForFunctionActive(c);
    if !ready.Done? {
      return ready.Propagate();
    }
    return S.Done(version);
  }

  /** Publish new code as a new version, wait until it is ready, return the version. */
  method DeployGreen(c: Client) returns (o: S.Outcome<Version>)
    modifies c
    ensures S.Run(c.Snapshot(), o) == S.DeployGreen(old(c.Snapshot()))
    ensures c.aliases == old(c.aliases)
    ensures var k := S.Pending(old(c.states));
      o.Done? ==> k < |old(c.states)| && old(c.states)[k] == Active && o.value == old(c.version) + 1
  {
    P.DeployGreenFrame(c.Snapshot());
    P.DeployGreenNeedsActive(c.Snapshot());
    var updated := c.UpdateFunctionCode();
    if updated.Fail? {
      return S.Raised(S.ApiError(updated.failure));
    }
    var ready := WaitForFunctionActive(c);
    if !ready.Done? {
      return ready.Propagate();
    }
    return S.Done(updated.value);
  }

  /** Point alias `name` at version `v`: create it, or update it on conflict. */
  method CreateOrUpdateAlias(c: Client, v: Version, name: string) returns (o: S.Outcome<()>)
    modifies c
    ensures S.Run(c.Snapshot(), o) == S.CreateOrUpdateAlias(old(c.Snapshot()), v, name)
    ensures c.aliases == if o.Done? then old(c.aliases)[name := v] else old(c.aliases)
  {
    P.AliasUpsert(c.Snapshot(), v, name);
    var created := c.CreateAlias(name, v);
    match created {
      case Ok(_) =>
        return S.Done(());
      case Fail(Conflict) =>
        var updated := c.UpdateAlias(name, v);
        if updated.Fail? {
          return S.Raised(S.ApiError(updated.failure));
        }
        return S.Done(());
      case Fail(f) =>
        return S.Raised(S.ApiError(f));
    }
  }

  /** The whole rollout: blue, live alias to blue, operator gate, green, live alias
      to green. The first exception ends it. */
  method Rollout(c: Client) returns (o: S.Outcome<S.Deployment>)
    modifies c
    ensures S.Run(c.Snapshot(), o) == S.Rollout(old(c.Snapshot()))
    ensures o.Done? ==> c.aliases == old(c.aliases)[S.Live := o.value.green] && o.value.blue < o.value.green
  {
    P.RolloutEndsOnGreen(c.Snapshot());
    var blue := DeployBlue(c);
    if !blue.Done? {
      return blue.Propagate();
    }
    var switched := CreateOrUpdateAlias(c, blue.value, S.Live);
    if !switched.Done? {
      return switched.Propagate();
    }
    c.Gate();
    var green := DeployGreen(c);
    if !green.Done? {
      return green.Propagate();
    }
    switched := CreateOrUpdateAlias(c, green.value, S.Live);
    if !switched.Done? {
      return switched.Propagate();
    }
    return S.Done(S.Deployment(blue.value, green.value));
  }
}
