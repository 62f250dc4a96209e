# Blue/green Lambda deployment, modelled in Dafny

The deployment script `blue_green_deployment.py` rolls out a serverless function in
two halves. It publishes the blue code, waits until the platform reports the function
`Active`, and points the `live` alias at the blue version. Then it waits for the
operator. Then it publishes the green code as a new version, waits again, and points
`live` at green. Any exception ends the run where it is.

This project models that control logic against an explicit, abstract platform:

- `platform.dfy`, module `Platform`: the platform state. It records whether the
  function exists and its latest published version. It holds a map from alias name
  to version, and the readiness states that successive polls will observe. It holds
  the platform calls it will reject, and a log of every visible action: each platform
  call, each sleep, each pass of the operator gate. `Cloud` is this state as a
  value. `Client` is the same state as an object, with one method per platform call
  the script makes.
- `semantics.dfy`, module `Semantics`: each function of the script as a function
  from the platform before the call to the platform after it plus the call's
  outcome. An outcome returns a value, raises an `Error`, or is `Hung`: the next
  readiness poll would succeed, but no further observed state is known.
- `deployment.dfy`, module `Deployment`: the script's five functions as methods that
  make their platform calls one after another on a `Client`. The readiness poll is a
  `while` loop. Each method is proved to leave the platform, and to return the
  outcome, that its namesake in `Semantics` describes. It also states its main
  effect directly.
- `properties.dfy`, module `Properties`: lemmas about those functions. They cover
  when polling stops and what it reports, the three outcomes of the blue publish,
  the upsert and idempotence of the alias switch, and the ordering and end state of
  the rollout.

Platform behaviour that the script only reacts to is an input:

- **Readiness.** `states` is the sequence of states that successive readiness polls
  report.
- **Rejections.** `faults` maps a log position to a message. The platform call made
  at that position is rejected with that message.
- **Conflicts.** `create_function` conflicts exactly when the function exists.
  `create_alias` conflicts exactly when the alias exists.
- **Versions.** Each publish mints the next version number.

`main` is modelled as `Rollout`.

Where the design description of this system and the script differ, the model
follows the script:

- Polling makes one call per pending state plus one for the state that settles.
  The description counts only the pending states.
- The blue publish always attempts `create_function`. On an existing function that
  attempt conflicts and creates nothing. The description speaks of zero create
  calls.
- Every alias switch attempts `create_alias` first. For an existing alias that
  attempt conflicts, and the update follows.
- Readiness is polled by function name, not per version. So the model never claims
  that a particular version is ready, only that the function was.

## Model

| member | source | states |
|---|---|---|
| Deployment.WaitForFunctionActive | blue_green_deployment.py:15-27 | Loops over polls and ends as `Semantics.WaitForFunctionActive` says. It changes no function, version or alias. It returns only if the first settled state observed is `Active`. |
| Deployment.DeployBlue | blue_green_deployment.py:30-46 | Create, or fetch on conflict, then wait, as `Semantics.DeployBlue` says. Aliases are unchanged. A version is returned only after the first settled state is `Active`, and the function then exists. |
| Deployment.DeployGreen | blue_green_deployment.py:49-57 | Update with publish, then wait, as `Semantics.DeployGreen` says. Aliases are unchanged. It returns the newly minted version, and only after the first settled state is `Active`. |
| Deployment.CreateOrUpdateAlias | blue_green_deployment.py:60-75 | Create, then update on conflict, as `Semantics.CreateOrUpdateAlias` says. On success the aliases are the old ones with `name` set to `v`. On failure they are unchanged. |
| Deployment.Rollout | blue_green_deployment.py:77-91 | Blue, switch, gate, green, switch, stopping at the first exception, as `Semantics.Rollout` says. On success `live` points at green, no other alias changes, and green is newer than blue. |
| Platform.Client.CreateFunction | blue_green_deployment.py:33-41 | One `create_function` call with publish. It is logged. It is rejected at a faulted position. It conflicts if the function exists. Otherwise the function exists with a new version. |
| Platform.Client.GetFunctionVersion | blue_green_deployment.py:44 | One `get_function` call read for the version. It is logged, and changes nothing else. |
| Platform.Client.GetFunctionState | blue_green_deployment.py:18-19 | One `get_function` call read for the state. It is logged. It fails, without observing a state, when the call is rejected or the function does not exist; otherwise it observes the next readiness state. |
| Platform.Client.UpdateFunctionCode | blue_green_deployment.py:51-55 | One `update_function_code` call with publish. It is logged. It is rejected if the function does not exist. Otherwise it mints the next version. |
| Platform.Client.CreateAlias | blue_green_deployment.py:63-68 | One `create_alias` call. It is logged. It conflicts if the alias exists. Otherwise it adds the alias. |
| Platform.Client.UpdateAlias | blue_green_deployment.py:70-75 | One `update_alias` call. It is logged. It re-points an existing alias. |
| Platform.Client.Sleep | blue_green_deployment.py:27 | The pause between polls. It is logged, and nothing else changes. |
| Platform.Client.Gate | blue_green_deployment.py:86 | The operator's go-ahead. It is logged, and nothing else changes. |
| Semantics.Error.Message | blue_green_deployment.py:24 | The activation error's message ends with the platform's `StateReason`. A rejected call's message is the platform's own. |
| Semantics.Pending | blue_green_deployment.py:20-27 | Counts the leading states that are neither `Active` nor `Failed`. All of them are non-terminal, and the state after them, if any, is terminal. |
| Properties.RetriesCount | blue_green_deployment.py:25-27 | `k` unsuccessful polls log exactly `k` `get_function` calls and `k` sleeps, and nothing else. |
| Properties.WaitOnlyPolls | blue_green_deployment.py:17-27 | Polling never changes whether the function exists, its version or any alias. It logs only polls and sleeps. |
| Properties.WaitKeepsPlatform | blue_green_deployment.py:17-27 | Polling leaves unchanged whether the function exists, its version, the aliases and the rejections. |
| Properties.WaitLogsOnlyPolls | blue_green_deployment.py:17-27 | Polling only appends to the log, and only `get_function` calls and sleeps. |
| Properties.WaitReturnsOnlyWhenActive | blue_green_deployment.py:17-27 | Polling returns only when the first settled state is `Active`. It raises `ActivationFailed` only when that state is `Failed`, naming the function and carrying that reason. It consumes exactly the states up to that one. |
| Properties.WaitSettles | blue_green_deployment.py:17-27 | With no rejections on an existing function, polling is `k` poll-and-sleep rounds and then one poll, with `k` the index of the first settled state. It returns exactly when that state is `Active` and raises with the reason when it is `Failed`. No further poll follows. |
| Properties.WaitSettledLog | blue_green_deployment.py:17-27 | With no rejections on an existing function and a settled state ahead, the log gains `k` poll-and-sleep rounds and one final poll, where `k` is the number of pending states. |
| Properties.WaitSettledOutcome | blue_green_deployment.py:17-27 | With no rejections on an existing function, a first settled state of `Active` means the wait returns. A first settled state of `Failed` means it raises the activation error carrying that reason. |
| Properties.WaitHangs | blue_green_deployment.py:17 | With no rejections on an existing function and no settled state, every state is polled and slept on, and the script is still polling. |
| Properties.WaitPollFails | blue_green_deployment.py:17-18 | A poll that is rejected, or that finds no function, ends the wait at once with that error, even when no readiness state is left. |
| Properties.SettledLogCounts | blue_green_deployment.py:17-27 | A log grown by `k` poll-and-sleep rounds and one final poll holds `k + 1` more polls and `k` more sleeps. |
| Properties.WaitPollCount | blue_green_deployment.py:17-27 | With no rejections on an existing function that reaches a settled state, the number of polls is the index of the first settled state plus one. The number of sleeps is that index. |
| Properties.WaitReliable | blue_green_deployment.py:17-27 | With no rejections on an existing function, polling returns if and only if the first settled state exists and is `Active`. A `Failed` one raises with its reason. |
| Properties.DeployBlueFrame | blue_green_deployment.py:30-46 | Blue never touches an alias. It logs only create, `get_function` and sleeps. A returned version is the function's current one. |
| Properties.DeployBlueKeepsAliases | blue_green_deployment.py:30-46 | Blue leaves the aliases and the rejection plan as they were and never lowers the version. A returned version is the function's current one, and the function then exists. |
| Properties.DeployBlueLog | blue_green_deployment.py:30-46 | Blue only appends to the log. What it appends is create, `get_function` calls and sleeps. |
| Properties.DeployBlueCreates | blue_green_deployment.py:32-46 | With no rejections, for a function that does not exist, exactly one create call runs. The function exists afterwards whatever readiness reports. The created version is returned if and only if the first settled state is `Active`. |
| Properties.DeployBlueFallsBack | blue_green_deployment.py:42-46 | With no rejections, for an existing function, create conflicts and the conflict is swallowed. Nothing is created or published. The existing function is fetched, and its version is returned if and only if the first settled state is `Active`. |
| Properties.DeployBlueRejected | blue_green_deployment.py:32-42 | Any other create failure propagates verbatim, and nothing else happens. |
| Properties.DeployBlueNeedsActive | blue_green_deployment.py:45-46 | Blue returns a version only after the first settled state is `Active`. A `Failed` state means no version. |
| Properties.DeployGreenFrame | blue_green_deployment.py:49-57 | Green never touches an alias. It logs only the update and polls. A returned version is the new current one. |
| Properties.DeployGreenPublishes | blue_green_deployment.py:51-57 | With no rejections, on an existing function green mints a new version, returned if and only if the first settled state is `Active`. On a missing function the update's rejection propagates. |
| Properties.DeployGreenNeedsActive | blue_green_deployment.py:56-57 | Green returns a version only after the first settled state is `Active`. A `Failed` state means no version. |
| Properties.AliasUpsert | blue_green_deployment.py:60-75 | A successful switch sets alias `name` to `v` and changes no other alias. A failed switch changes no alias. Neither touches the function. |
| Properties.AliasCreateFirst | blue_green_deployment.py:62-75 | Create is always tried first. Update follows exactly when create conflicted on an existing alias. An existing alias is never created again, and a new one is never updated. |
| Properties.AliasSucceeds | blue_green_deployment.py:62-75 | With no rejections, the switch succeeds whether or not the alias exists. |
| Properties.AliasIdempotent | blue_green_deployment.py:60-75 | When the first switch succeeds, switching a second time to the same version leaves the same aliases as switching once. |
| Properties.BluePhaseFacts | blue_green_deployment.py:81-86 | A completed blue half leaves `live` on blue and the gate as the last event. An incomplete one never reaches the gate. Neither publishes green. |
| Properties.BluePhaseNoGreen | blue_green_deployment.py:81-86 | The blue half only appends to the log and never calls `update_function_code`. |
| Properties.BluePhaseGate | blue_green_deployment.py:81-86 | The blue half passes the gate as its last step when it completes, and never reaches the gate when it does not. |
| Properties.BluePhaseSwitches | blue_green_deployment.py:81-82 | A completed blue half leaves `live` on blue, no other alias changed, and blue as the function's current version. |
| Properties.GreenAfterBlueSwitch | blue_green_deployment.py:81-89 | A green publish happens only after blue was published, `live` was switched to blue, and the gate was passed. The green calls continue that log. |
| Properties.GreenPhaseFrame | blue_green_deployment.py:89-90 | A completed green half leaves `live` on green, the newest version. An incomplete one changes no alias. |
| Properties.RolloutEndsOnGreen | blue_green_deployment.py:81-90 | On full success `live` points at the green version and no other alias changes. Green is the function's latest version and newer than blue. |
| Properties.GreenFailureKeepsBlue | blue_green_deployment.py:86-90 | A failure after the blue half leaves `live` on blue, with no rollback. |
| Properties.RolloutStopsWhenBlueFails | blue_green_deployment.py:81-82 | With no rejections, if blue's first settled state is `Failed`, the run raises with that reason. No alias call is made, no alias changes, and the gate is never reached. |
| Properties.BlueFailureStopsRollout | blue_green_deployment.py:81-82 | On any platform, a blue publish that does not return ends the run with blue's own error and platform state. No alias call is made, no alias changes, and the gate is never reached. |
| Properties.RolloutScenario | blue_green_deployment.py:77-91 | A fresh function with states Pending, Pending, Active, Active deploys blue as 1 and green as 2, and `live` ends on 2. |
| Properties.FailedRolloutScenario | blue_green_deployment.py:77-91 | A fresh function whose blue state is `Failed("OutOfMemory")` raises an error whose message ends with `OutOfMemory`, and `live` does not exist. |

## Left out

- Client construction and configuration (region, role ARN, runtime, handler, alias descriptions) are not modelled. They are configuration passed to a foreign client. The one function name is the constant `FunctionName`.
- Reading `lambda_blue.zip` and `lambda_green.zip` is not modelled. It is file I/O, and the artifacts are opaque to the control logic.
- The five-second sleep duration is not modelled. Sleeps are logged events, and time is not modelled.
- `print` output is not modelled. The gate's `input()` is one logged event that always lets the run continue; the gate failing to read input is not modelled.
- The shapes of the platform's response dictionaries are not modelled. Line 46 reads `Configuration.Version` on the create path as well as on the fetch path. The model takes the version that the platform's reply carries on either path, and proves nothing that depends on the dictionary layout.
- Exception classes are not modelled beyond conflict versus any other rejection. Which calls the platform rejects is an input (`faults`).
- How readiness evolves is not modelled; it is the input sequence `states`. The conflict-path `get_function` at line 44 reads only the version and consumes no readiness state.
- The script's poll loop never ends when no state settles. The model observes a finite sequence of states. When they have run out and the next poll would succeed, the outcome is `Hung`, meaning still polling. A poll that is rejected, or that finds no function, still raises then.
- The `function_name` parameter of `wait_for_function_active` (:15) is dropped. It names the function polled at :18 and printed at :16, :21 and :24. Both call sites (:45, :56) pass `lambda_function_name`, so the poll always reads the one function `FunctionName`.
- The default `alias_name="live"` of `create_or_update_alias` (:60) is not modelled as a default. Both calls (:82, :90) pass `"live"`, and `Rollout` passes `Live` explicitly.
- The platform model does not reject an alias that points at a version that does not exist. The script never produces such a version.
