/** The compute platform as the deployment script sees it: one function (with
    whether it exists and its latest published version), a map from alias name to
    version, the readiness states that successive polls will observe, the calls the
    platform will reject, and a log of every externally visible action the script
    takes. `Cloud` is that state as a value; `Client` is the same state as an object
    whose methods are the platform calls the script makes. */
module Platform {

  /** Versions are minted by the platform when code is published. */
  type Version = nat

  /** The one function the script deploys. */
  const FunctionName := "BlueGreenLambda"

  /** Readiness as reported by get_function: 'Active', 'Failed' with its
      StateReason, or any other state name (Pending, Inactive, ...). */
  datatype State = Active | Failed(reason: string) | Other(name: string)

  /** Why a platform call did not succeed: the "already exists" conflict, which is
      the only failure the script interprets, or any other rejection. */
  datatype Failure = Conflict | Rejected(message: string)

  datatype Reply<T> = Ok(value: T) | Fail(failure: Failure)

  /** Externally visible actions, in the order they happen. */
  datatype Event =
    | CreateFunctionCall
    | GetFunctionCall
    | UpdateFunctionCodeCall
    | CreateAliasCall(alias: string, version: Version)
    | UpdateAliasCall(alias: string, version: Version)
    | Slept
    | Confirmed

  const NotFound := "ResourceNotFoundException"

  /** The result of one platform call: the platform afterwards and the reply. */
  datatype Step<T> = Step(after: Cloud, reply: Reply<T>)

  datatype Cloud = Cloud(
    deployed: bool,
    version: Version,
    aliases: map<string, Version>,
    states: seq<State>,
    faults: map<nat, string>,
    log: seq<Event>)
  {
    /** The next call is rejected with the given message when its position in the
        log is a key of `faults`. */
    predicate Rejects() { |log| in faults }

    /** No call from now on is rejected. */
    ghost predicate Reliable() { forall n :: n in faults ==> n < |log| }

    /** A readiness poll would succeed now, but no further readiness state is
        known: the poll needs one and rejection or absence do not. */
    predicate Exhausted() { !Rejects() && deployed && states == [] }

    function Record(e: Event): Cloud { this.(log := log + [e]) }

    /** create_function with Publish=True. */
    function CreateFunction(): Step<Version> {
      var w := Record(CreateFunctionCall);
      if Rejects() then Step(w, Fail(Rejected(faults[|log|])))
      else if deployed then Step(w, Fail(Conflict))
      else Step(w.(deployed := true, version := version + 1), Ok(version + 1))
    }

    /** get_function, read for the function's version. */
    function GetFunctionVersion(): Step<Version> {
      var w := Record(GetFunctionCall);
      if Rejects() then Step(w, Fail(Rejected(faults[|log|])))
      else if !deployed then Step(w, Fail(Rejected(NotFound)))
      else Step(w, Ok(version))
    }

    /** get_function, read for the function's readiness: observes the next state.
        A rejected call or a missing function fails without observing one. */
    function GetFunctionState(): (s: Step<State>)
      requires !Exhausted()
      ensures s.reply.Ok? <==> !Rejects() && deployed
      ensures s.reply.Ok? ==> states != [] && s.reply.value == states[0] && s.after.states == states[1..]
      ensures s.reply.Fail? ==> s.after == Record(GetFunctionCall)
    {
      var w := Record(GetFunctionCall);
      if Rejects() then Step(w, Fail(Rejected(faults[|log|])))
      else if !deployed then Step(w, Fail(Rejected(NotFound)))
      else Step(w.(states := states[1..]), Ok(states[0]))
    }

    /** update_function_code with Publish=True. */
    function UpdateFunctionCode(): Step<Version> {
      var w := Record(UpdateFunctionCodeCall);
      if Rejects() then Step(w, Fail(Rejected(faults[|log|])))
      else if !deployed then Step(w, Fail(Rejected(NotFound)))
      else Step(w.(version := version + 1), Ok(version + 1))
    }

    function CreateAlias(name: string, v: Version): Step<()> {
      var w := Record(CreateAliasCall(name, v));
      if Rejects() then Step(w, Fail(Rejected(faults[|log|])))
      else if name in aliases then Step(w, Fail(Conflict))
      else Step(w.(aliases := aliases[name := v]), Ok(()))
    }

    function UpdateAlias(name: string, v: Version): Step<()> {
      var w := Record(UpdateAliasCall(name, v));
      if Rejects() then Step(w, Fail(Rejected(faults[|log|])))
      else if name !in aliases then Step(w, Fail(Rejected(NotFound)))
      else Step(w.(aliases := aliases[name := v]), Ok(()))
    }

    /** The pause between two polls. */
    function Sleep(): Cloud { Record(Slept) }

    /** The operator's go-ahead between the blue and the green half. */
    function Gate(): Cloud { Record(Confirmed) }
  }

  /** The platform as mutable state; each method is one call and leaves the
      object in the state its `Cloud` function describes. */
  class Client {
    var deployed: bool
    var version: Version
    var aliases: map<string, Version>
    var states: seq<State>
    const faults: map<nat, string>
    var log: seq<Event>

    function Snapshot(): Cloud
      reads this
    {
      Cloud(deployed, version, aliases, states, faults, log)
    }

    constructor (w: Cloud)
      ensures Snapshot() == w
    {
      deployed, version, aliases, states, faults, log :=
        w.deployed, w.version, w.aliases, w.states, w.faults, w.log;
    }

    method CreateFunction() returns (r: Reply<Version>)
      modifies this
      ensures Step(Snapshot(), r) == old(Snapshot()).CreateFunction()
    {
      var n := |log|;
      log := log + [CreateFunctionCall];
      if n in faults {
        r := Fail(Rejected(faults[n]));
      } else if deployed {
        r := Fail(Conflict);
      } else {
        deployed, version := true, version + 1;
        r := Ok(version);
      }
    }

    method GetFunctionVersion() returns (r: Reply<Version>)
      modifies this
      ensures Step(Snapshot(), r) == old(Snapshot()).GetFunctionVersion()
    {
      var n := |log|;
      log := log + [GetFunctionCall];
      if n in faults {
        r := Fail(Rejected(faults[n]));
      } else if !deployed {
        r := Fail(Rejected(NotFound));
      } else {
        r := Ok(version);
      }
    }

    method GetFunctionState() returns (r: Reply<State>)
      requires !Snapshot().Exhausted()
      modifies this
      ensures Step(Snapshot(), r) == old(Snapshot()).GetFunctionState()
    {
      var n := |log|;
      log := log + [GetFunctionCall];
      if n in faults {
        r := Fail(Rejected(faults[n]));
      } else if !deployed {
        r := Fail(Rejected(NotFound));
      } else {
        r := Ok(states[0]);
        states := states[1..];
      }
    }

    method UpdateFunctionCode() returns (r: Reply<Version>)
      modifies this
      ensures Step(Snapshot(), r) == old(Snapshot()).UpdateFunctionCode()
    {
      var n := |log|;
      log := log + [UpdateFunctionCodeCall];
      if n in faults {
        r := Fail(Rejected(faults[n]));
      } else if !deployed {
        r := Fail(Rejected(NotFound));
      } else {
        version := version + 1;
        r := Ok(version);
      }
    }

    method CreateAlias(name: string, v: Version) returns (r: Reply<()>)
      modifies this
      ensures Step(Snapshot(), r) == old(Snapshot()).CreateAlias(name, v)
    {
      var n := |log|;
      log := log + [CreateAliasCall(name, v)];
      if n in faults {
        r := Fail(Rejected(faults[n]));
      } else if name in aliases {
        r := Fail(Conflict);
      } else {
        aliases := aliases[name := v];
        r := Ok(());
      }
    }

    method UpdateAlias(name: string, v: Version) returns (r: Reply<()>)
      modifies this
      ensures Step(Snapshot(), r) == old(Snapshot()).UpdateAlias(name, v)
    {
      var n := |log|;
      log := log + [UpdateAliasCall(name, v)];
      if n in faults {
        r := Fail(Rejected(faults[n]));
      } else if name !in aliases {
        r := Fail(Rejected(NotFound));
      } else {
        aliases := aliases[name := v];
        r := Ok(());
      }
    }

    method Sleep()
      modifies this
      ensures Snapshot() == old(Snapshot()).Sleep()
    {
      log := log + [Slept];
    }

    method Gate()
      modifies this
      ensures Snapshot() == old(Snapshot()).Gate()
    {
      log := log + [Confirmed];
    }
  }
}
