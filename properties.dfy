/** What the deployment script guarantees, stated over module Semantics. */
module Properties {
  import opened Platform
  import opened Semantics

  /** `r.log` is `w.log` followed by the events of one call. */
  ghost predicate Extends(w: Cloud, r: Cloud) {
    |w.log| <= |r.log| && r.log[..|w.log|] == w.log
  }

  /** The events a call added to the log. */
  ghost function Added(w: Cloud, r: Cloud): seq<Event>
    requires Extends(w, r)
  {
    r.log[|w.log|..]
  }

  predicate IsPoll(e: Event) { e == GetFunctionCall || e == Slept }

  predicate IsAliasCall(e: Event) { e.CreateAliasCall? || e.UpdateAliasCall? }

  lemma ExtendsTrans(a: Cloud, b: Cloud, c: Cloud)
    requires Extends(a, b) && Extends(b, c)
    ensures Extends(a, c) && Added(a, c) == Added(a, b) + Added(b, c)
  {
    assert c.log[..|a.log|] == c.log[..|b.log|][..|a.log|];
    assert c.log[|a.log|..] == c.log[|a.log|..|b.log|] + c.log[|b.log|..];
    assert c.log[|a.log|..|b.log|] == c.log[..|b.log|][|a.log|..];
  }

  lemma AddedIs(w: Cloud, r: Cloud, events: seq<Event>)
    requires r.log == w.log + events
    ensures Extends(w, r) && Added(w, r) == events
  {
    assert r.log[..|w.log|] == w.log;
  }

  // ---------------------------------------------------------------------------
  // Readiness polling

  /** `k` unsuccessful polls: `k` get_function calls and `k` sleeps, nothing else. */
  lemma {:induction false} RetriesCount(k: nat)
    ensures multiset(Retries(k))[GetFunctionCall] == k
    ensures multiset(Retries(k))[Slept] == k
    ensures forall e :: e in Retries(k) ==> IsPoll(e)
  {
    if k > 0 {
      RetriesCount(k - 1);
    }
  }

  /** Polling changes nothing on the platform: the function, its version, the
      aliases and the rejections stay, and only get_function calls and sleeps are
      added to the log. */
  lemma WaitOnlyPolls(w: Cloud)
    ensures var r := WaitForFunctionActive(w).after;
      r.deployed == w.deployed && r.version == w.version && r.aliases == w.aliases &&
      r.faults == w.faults && Extends(w, r) && (forall e :: e in Added(w, r) ==> IsPoll(e))
  {
    WaitKeepsPlatform(w);
    WaitLogsOnlyPolls(w);
  }

  lemma {:induction false} WaitKeepsPlatform(w: Cloud)
    decreases |w.states|
    ensures var r := WaitForFunctionActive(w).after;
      r.deployed == w.deployed && r.version == w.version && r.aliases == w.aliases && r.faults == w.faults
  {
    if !w.Exhausted() {
      var p := w.GetFunctionState();
      if p.reply.Ok? && p.reply.value.Other? {
        WaitKeepsPlatform(p.after.Sleep());
      }
    }
  }

  lemma {:induction false} WaitLogsOnlyPolls(w: Cloud)
    decreases |w.states|
    ensures var r := WaitForFunctionActive(w).after;
      Extends(w, r) && forall e :: e in Added(w, r) ==> IsPoll(e)
  {
    if !w.Exhausted() {
      var p := w.GetFunctionState();
      if p.reply.Ok? && p.reply.value.Other? {
        var s := p.after.Sleep();
        var r := WaitForFunctionActive(s).after;
        assert WaitForFunctionActive(w).after == r;
        WaitLogsOnlyPolls(s);
        AddedIs(w, s, [GetFunctionCall, Slept]);
        ExtendsTrans(w, s, r);
      } else {
        AddedIs(w, p.after, [GetFunctionCall]);
      }
    } else {
      AddedIs(w, w, []);
    }
  }

  /** Polling returns only when the first state that is not pending is Active; it
      raises ActivationFailed only when that state is Failed, naming the function
      and carrying the state's reason; it keeps polling only when no state settles.
      In each case it has consumed exactly the states up to that one. */
  lemma {:induction false} WaitReturnsOnlyWhenActive(w: Cloud)
    decreases |w.states|
    ensures var r := WaitForFunctionActive(w); var k := Pending(w.states);
      (r.outcome.Done? ==>
        k < |w.states| && w.states[k] == Active && r.after.states == w.states[k + 1..]) &&
      (r.outcome.Raised? && r.outcome.error.ActivationFailed? ==>
        k < |w.states| && w.states[k] == Failed(r.outcome.error.reason) &&
        r.outcome.error.name == FunctionName && r.after.states == w.states[k + 1..]) &&
      (r.outcome.Hung? ==> k == |w.states| && r.after.states == [])
  {
    if !w.Exhausted() {
      var p := w.GetFunctionState();
      if p.reply.Ok? && p.reply.value.Other? {
        WaitReturnsOnlyWhenActive(p.after.Sleep());
        var j := Pending(w.states[1..]);
        if j < |w.states[1..]| {
          assert w.states[1..][j + 1..] == w.states[j + 2..];
        }
      }
    }
  }

  /** On a platform that rejects nothing, polling a deployed function is exactly:
      `k` polls that each see a pending state and sleep, then one poll that sees
      the first settled state `k`, where it returns (Active) or raises with the
      reason (Failed). */
  lemma WaitSettles(w: Cloud)
    requires w.deployed && w.Reliable() && Pending(w.states) < |w.states|
    ensures var r := WaitForFunctionActive(w); var k := Pending(w.states);
      r.after == w.(states := w.states[k + 1..], log := w.log + Retries(k) + [GetFunctionCall]) &&
      (r.outcome.Done? <==> w.states[k] == Active) &&
      (w.states[k].Failed? ==> r.outcome == Raised(ActivationFailed(FunctionName, w.states[k].reason)))
  {
    WaitKeepsPlatform(w);
    WaitSettledLog(w);
    WaitReturnsOnlyWhenActive(w);
    WaitSettledOutcome(w);
  }

  /** The log of a poll that settles with no rejections. */
  lemma {:induction false} WaitSettledLog(w: Cloud)
    requires w.deployed && w.Reliable() && Pending(w.states) < |w.states|
    decreases |w.states|
    ensures WaitForFunctionActive(w).after.log == w.log + Retries(Pending(w.states)) + [GetFunctionCall]
  {
    assert !w.Rejects();
    if w.states[0].Other? {
      var s := w.GetFunctionState().after.Sleep();
      assert s == w.(states := w.states[1..], log := w.log + [GetFunctionCall, Slept]);
      var k := Pending(w.states);
      assert Pending(s.states) == k - 1;
      assert s.Reliable();
      WaitSettledLog(s);
      assert WaitForFunctionActive(w) == WaitForFunctionActive(s);
      assert s.log + Retries(k - 1) == w.log + Retries(k);
    }
  }

  /** A poll that settles with no rejections returns or raises by that state. */
  lemma {:induction false} WaitSettledOutcome(w: Cloud)
    requires w.deployed && w.Reliable() && Pending(w.states) < |w.states|
    decreases |w.states|
    ensures var r := WaitForFunctionActive(w); var k := Pending(w.states);
      (w.states[k] == Active ==> r.outcome.Done?) &&
      (w.states[k].Failed? ==> r.outcome == Raised(ActivationFailed(FunctionName, w.states[k].reason)))
  {
    assert !w.Rejects();
    if w.states[0].Other? {
      var s := w.GetFunctionState().after.Sleep();
      assert s.Reliable();
      WaitSettledOutcome(s);
    }
  }

  /** On a platform that rejects nothing, when no observed state settles, every
      state is polled and slept on, and the script is still polling. */
  lemma {:induction false} WaitHangs(w: Cloud)
    requires w.deployed && w.Reliable() && Pending(w.states) == |w.states|
    decreases |w.states|
    ensures WaitForFunctionActive(w) == Run(w.(states := [], log := w.log + Retries(|w.states|)), Hung)
  {
    if !w.Exhausted() {
      var p := w.GetFunctionState();
      assert !p.after.Rejects();
      var s := p.after.Sleep();
      assert s.Reliable();
      WaitHangs(s);
      assert s.log + Retries(|s.states|) == w.log + Retries(|w.states|);
    }
  }

  /** A poll that the platform rejects, or that finds no function, ends the wait
      at once with that error, whatever readiness states remain or have run out. */
  lemma WaitPollFails(w: Cloud)
    requires w.Rejects() || !w.deployed
    ensures WaitForFunctionActive(w) == Run(w.Record(GetFunctionCall),
      Raised(ApiError(Rejected(if w.Rejects() then w.faults[|w.log|] else NotFound))))
  {
  }

  /** The number of polls is the index of the first settled state plus one, and
      the number of sleeps is that index (the count of pending states before it). */
  lemma WaitPollCount(w: Cloud)
    requires w.deployed && w.Reliable() && Pending(w.states) < |w.states|
    ensures var r := WaitForFunctionActive(w).after;
      Extends(w, r) &&
      multiset(Added(w, r))[GetFunctionCall] == Pending(w.states) + 1 &&
      multiset(Added(w, r))[Slept] == Pending(w.states)
  {
    WaitSettles(w);
    SettledLogCounts(w, WaitForFunctionActive(w).after, Pending(w.states));
  }

  /** A log that grew by `k` retries and one final poll holds `k + 1` polls and
      `k` sleeps more. */
  lemma SettledLogCounts(w: Cloud, r: Cloud, k: nat)
    requires r.log == w.log + Retries(k) + [GetFunctionCall]
    ensures Extends(w, r)
    ensures multiset(Added(w, r))[GetFunctionCall] == k + 1 && multiset(Added(w, r))[Slept] == k
  {
    AddedIs(w, r, Retries(k) + [GetFunctionCall]);
    RetriesCount(k);
    assert multiset(Retries(k) + [GetFunctionCall]) == multiset(Retries(k)) + multiset{GetFunctionCall};
  }

  /** Polling on a platform that rejects nothing either settles or runs out of
      states: the two lemmas above, by case. */
  lemma WaitReliable(w: Cloud)
    requires w.deployed && w.Reliable()
    ensures var r := WaitForFunctionActive(w); var k := Pending(w.states);
      (r.outcome.Done? <==> k < |w.states| && w.states[k] == Active) &&
      (k < |w.states| && w.states[k].Failed? ==>
        r.outcome == Raised(ActivationFailed(FunctionName, w.states[k].reason))) &&
      r.after.version == w.version && r.after.deployed
  {
    if Pending(w.states) < |w.states| {
      WaitSettles(w);
    } else {
      WaitHangs(w);
    }
  }

  // ---------------------------------------------------------------------------
  // Publishing

  /** What any blue publish leaves behind: the aliases are untouched, nothing but
      create, get_function and sleeps are logged, and a returned version is the
      function's current one. */
  lemma DeployBlueFrame(w: Cloud)
    ensures var r := DeployBlue(w);
      r.after.aliases == w.aliases && r.after.faults == w.faults &&
      r.after.version >= w.version && Extends(w, r.after) &&
      (forall e :: e in Added(w, r.after) ==> e == CreateFunctionCall || IsPoll(e)) &&
      (r.outcome.Done? ==> r.after.deployed && r.outcome.value == r.after.version)
  {
    DeployBlueKeepsAliases(w);
    DeployBlueLog(w);
  }

  lemma DeployBlueKeepsAliases(w: Cloud)
    ensures var r := DeployBlue(w);
      r.after.aliases == w.aliases && r.after.faults == w.faults && r.after.version >= w.version &&
      (r.outcome.Done? ==> r.after.deployed && r.outcome.value == r.after.version)
  {
    var c := w.CreateFunction();
    if c.reply.Ok? {
      WaitKeepsPlatform(c.after);
    } else if c.reply.failure == Conflict {
      WaitKeepsPlatform(c.after.GetFunctionVersion().after);
    }
  }

  lemma DeployBlueLog(w: Cloud)
    ensures var r := DeployBlue(w);
      Extends(w, r.after) &&
      forall e :: e in Added(w, r.after) ==> e == CreateFunctionCall || IsPoll(e)
  {
    var c := w.CreateFunction();
    var r := DeployBlue(w).after;
    AddedIs(w, c.after, [CreateFunctionCall]);
    if c.reply.Ok? {
      WaitLogsOnlyPolls(c.after);
      assert r == WaitForFunctionActive(c.after).after;
      ExtendsTrans(w, c.after, r);
    } else if c.reply.failure == Conflict {
      var g := c.after.GetFunctionVersion();
      AddedIs(w, g.after, [CreateFunctionCall, GetFunctionCall]);
      if g.reply.Ok? {
        WaitLogsOnlyPolls(g.after);
        assert r == WaitForFunctionActive(g.after).after;
        ExtendsTrans(w, g.after, r);
      } else {
        assert r == g.after;
      }
    } else {
      assert r == c.after;
    }
  }

  /** A function that does not exist is created by the one create call and
      exists afterwards whatever readiness reports; the version that create
      published is returned exactly when the first settled state is Active. */
  lemma DeployBlueCreates(w: Cloud)
    requires !w.deployed && w.Reliable()
    ensures var r := DeployBlue(w); var k := Pending(w.states);
      r.after.deployed && r.after.version == w.version + 1 && r.after.aliases == w.aliases &&
      Extends(w, r.after) && |Added(w, r.after)| >= 1 && Added(w, r.after)[0] == CreateFunctionCall &&
      multiset(Added(w, r.after))[CreateFunctionCall] == 1 &&
      (r.outcome.Done? <==> k < |w.states| && w.states[k] == Active) &&
      (r.outcome.Done? ==> r.outcome.value == w.version + 1)
  {
    var c := w.CreateFunction();
    var r := DeployBlue(w);
    WaitReliable(c.after);
    WaitOnlyPolls(c.after);
    ExtendsTrans(w, c.after, r.after);
    assert Added(w, c.after) == [CreateFunctionCall];
    assert CreateFunctionCall !in Added(c.after, r.after);
  }

  /** A function that already exists makes create conflict: the conflict is not
      an error, nothing is created or published, the existing function is
      fetched, and its version is returned exactly when the first settled state
      is Active. */
  lemma DeployBlueFallsBack(w: Cloud)
    requires w.deployed && w.Reliable()
    ensures var r := DeployBlue(w); var k := Pending(w.states);
      r.after.deployed && r.after.version == w.version && r.after.aliases == w.aliases &&
      Extends(w, r.after) && |Added(w, r.after)| >= 2 &&
      Added(w, r.after)[..2] == [CreateFunctionCall, GetFunctionCall] &&
      multiset(Added(w, r.after))[CreateFunctionCall] == 1 &&
      (r.outcome.Done? <==> k < |w.states| && w.states[k] == Active) &&
      (r.outcome.Done? ==> r.outcome.value == w.version)
  {
    var c := w.CreateFunction();
    var g := c.after.GetFunctionVersion();
    var r := DeployBlue(w);
    WaitReliable(g.after);
    WaitOnlyPolls(g.after);
    ExtendsTrans(w, g.after, r.after);
    assert Added(w, g.after) == [CreateFunctionCall, GetFunctionCall];
    assert CreateFunctionCall !in Added(g.after, r.after);
  }

  /** Any failure of create other than the conflict propagates unchanged, and
      nothing else happens. */
  lemma DeployBlueRejected(w: Cloud)
    requires w.Rejects()
    ensures DeployBlue(w) ==
      Run(w.Record(CreateFunctionCall), Raised(ApiError(Rejected(w.faults[|w.log|]))))
  {
  }

  /** Blue returns a version only after polling saw Active as the first settled
      state; a Failed readiness means no version. */
  lemma DeployBlueNeedsActive(w: Cloud)
    ensures var r := DeployBlue(w); var k := Pending(w.states);
      (r.outcome.Done? ==> k < |w.states| && w.states[k] == Active && r.after.states == w.states[k + 1..]) &&
      (k < |w.states| && w.states[k].Failed? ==> !r.outcome.Done?)
  {
    var c := w.CreateFunction();
    if c.reply.Ok? {
      WaitReturnsOnlyWhenActive(c.after);
    } else if c.reply.failure == Conflict {
      WaitReturnsOnlyWhenActive(c.after.GetFunctionVersion().after);
    }
  }

  /** What any green publish leaves behind: aliases untouched, only the update and
      polling logged, and a returned version is the newly published, current one. */
  lemma DeployGreenFrame(w: Cloud)
    ensures var r := DeployGreen(w);
      r.after.aliases == w.aliases && r.after.faults == w.faults &&
      r.after.version >= w.version && Extends(w, r.after) &&
      (forall e :: e in Added(w, r.after) ==> e == UpdateFunctionCodeCall || IsPoll(e)) &&
      (r.outcome.Done? ==> r.outcome.value == r.after.version == w.version + 1)
  {
    var u := w.UpdateFunctionCode();
    if u.reply.Ok? {
      WaitOnlyPolls(u.after);
      ExtendsTrans(w, u.after, DeployGreen(w).after);
    }
  }

  /** Green on a deployed function publishes a new version, returned exactly when
      the first settled state is Active; on a function that does not exist the
      update is rejected and the error propagates. */
  lemma DeployGreenPublishes(w: Cloud)
    requires w.Reliable()
    ensures var r := DeployGreen(w); var k := Pending(w.states);
      (w.deployed ==>
        r.after.version == w.version + 1 &&
        (r.outcome.Done? <==> k < |w.states| && w.states[k] == Active)) &&
      (!w.deployed ==> r.outcome == Raised(ApiError(Rejected(NotFound))))
  {
    if w.deployed {
      WaitReliable(w.UpdateFunctionCode().after);
    }
  }

  /** Green returns a version only after polling saw Active as the first settled
      state; a Failed readiness means no version. */
  lemma DeployGreenNeedsActive(w: Cloud)
    ensures var r := DeployGreen(w); var k := Pending(w.states);
      (r.outcome.Done? ==> k < |w.states| && w.states[k] == Active && r.after.states == w.states[k + 1..]) &&
      (k < |w.states| && w.states[k].Failed? ==> !r.outcome.Done?)
  {
    var u := w.UpdateFunctionCode();
    if u.reply.Ok? {
      WaitReturnsOnlyWhenActive(u.after);
    }
  }

  // ---------------------------------------------------------------------------
  // Alias switching

  /** A switch that succeeds points alias `name` at `v` and changes no other alias;
      one that fails changes no alias. Only aliases and the log change, and the
      failure, if any, is a platform error. */
  lemma AliasUpsert(w: Cloud, v: Version, name: string)
    ensures var r := CreateOrUpdateAlias(w, v, name);
      r.after.aliases == (if r.outcome.Done? then w.aliases[name := v] else w.aliases) &&
      r.after.deployed == w.deployed && r.after.version == w.version &&
      r.after.states == w.states && r.after.faults == w.faults &&
      (r.outcome.Raised? ==> r.outcome.error.ApiError?) && !r.outcome.Hung?
  {
  }

  /** Create is always tried first, and update is tried only when create reported
      that the alias already exists: so an existing alias is never created again,
      and a new one is never updated. */
  lemma AliasCreateFirst(w: Cloud, v: Version, name: string)
    ensures var r := CreateOrUpdateAlias(w, v, name);
      Extends(w, r.after) &&
      Added(w, r.after) ==
        if name in w.aliases && !w.Rejects()
        then [CreateAliasCall(name, v), UpdateAliasCall(name, v)]
        else [CreateAliasCall(name, v)]
  {
  }

  /** On a platform that rejects nothing, the switch succeeds. */
  lemma AliasSucceeds(w: Cloud, v: Version, name: string)
    requires w.Reliable()
    ensures CreateOrUpdateAlias(w, v, name).outcome.Done?
  {
    var c := w.CreateAlias(name, v);
    assert c.after.Reliable();
  }

  /** Switching twice to the same version leaves the same aliases as switching
      once. */
  lemma AliasIdempotent(w: Cloud, v: Version, name: string)
    ensures var once := CreateOrUpdateAlias(w, v, name);
      var twice := CreateOrUpdateAlias(once.after, v, name);
      once.outcome.Done? ==> twice.after.aliases == once.after.aliases
  {
    var once := CreateOrUpdateAlias(w, v, name);
    AliasUpsert(w, v, name);
    AliasUpsert(once.after, v, name);
    if once.outcome.Done? {
      assert once.after.aliases[name := v] == once.after.aliases;
    }
  }

  // ---------------------------------------------------------------------------
  // The rollout

  /** The blue half either ends the run with the platform as blue's publish or
      alias switch left it, or completes with live on the blue version, the gate
      passed as its last event, and no green publish among its events. */
  lemma BluePhaseFacts(w: Cloud)
    ensures var p := BluePhase(w);
      Extends(w, p.after) && UpdateFunctionCodeCall !in Added(w, p.after) &&
      (p.outcome.Done? ==>
        p.after.aliases == w.aliases[Live := p.outcome.value] &&
        p.after.deployed && p.after.version == p.outcome.value &&
        p.after.log[|p.after.log| - 1] == Confirmed) &&
      (!p.outcome.Done? ==> Confirmed !in Added(w, p.after))
  {
    BluePhaseNoGreen(w);
    BluePhaseGate(w);
    BluePhaseSwitches(w);
  }

  /** The blue half never publishes green. */
  lemma BluePhaseNoGreen(w: Cloud)
    ensures var p := BluePhase(w);
      Extends(w, p.after) && UpdateFunctionCodeCall !in Added(w, p.after)
  {
    var b := DeployBlue(w);
    DeployBlueFrame(w);
    assert UpdateFunctionCodeCall !in Added(w, b.after);
    if b.outcome.Done? {
      var a := CreateOrUpdateAlias(b.after, b.outcome.value, Live);
      AliasCreateFirst(b.after, b.outcome.value, Live);
      NotAddedAcross(UpdateFunctionCodeCall, w, b.after, a.after);
      if a.outcome.Done? {
        var g := a.after.Gate();
        AddedIs(a.after, g, [Confirmed]);
        NotAddedAcross(UpdateFunctionCodeCall, w, a.after, g);
        assert BluePhase(w).after == g;
      } else {
        assert BluePhase(w).after == a.after;
      }
    } else {
      assert BluePhase(w).after == b.after;
    }
  }

  /** The blue half passes the gate exactly as its last step, and only when it
      completes. */
  lemma BluePhaseGate(w: Cloud)
    ensures var p := BluePhase(w);
      Extends(w, p.after) &&
      (p.outcome.Done? ==> p.after.log[|p.after.log| - 1] == Confirmed) &&
      (!p.outcome.Done? ==> Confirmed !in Added(w, p.after))
  {
    var b := DeployBlue(w);
    DeployBlueFrame(w);
    assert Confirmed !in Added(w, b.after);
    if b.outcome.Done? {
      var a := CreateOrUpdateAlias(b.after, b.outcome.value, Live);
      AliasCreateFirst(b.after, b.outcome.value, Live);
      NotAddedAcross(Confirmed, w, b.after, a.after);
      if a.outcome.Done? {
        var g := a.after.Gate();
        ExtendsTrans(w, a.after, g);
        assert BluePhase(w).after == g;
      } else {
        assert BluePhase(w).after == a.after;
      }
    } else {
      assert BluePhase(w).after == b.after;
    }
  }

  lemma NotAddedAcross(e: Event, a: Cloud, b: Cloud, c: Cloud)
    requires Extends(a, b) && Extends(b, c)
    requires e !in Added(a, b) && e !in Added(b, c)
    ensures Extends(a, c) && e !in Added(a, c)
  {
    ExtendsTrans(a, b, c);
  }

  lemma BluePhaseSwitches(w: Cloud)
    ensures var p := BluePhase(w);
      p.outcome.Done? ==>
        p.after.aliases == w.aliases[Live := p.outcome.value] &&
        p.after.deployed && p.after.version == p.outcome.value
  {
    var b := DeployBlue(w);
    DeployBlueFrame(w);
    if b.outcome.Done? {
      var a := CreateOrUpdateAlias(b.after, b.outcome.value, Live);
      AliasUpsert(b.after, b.outcome.value, Live);
      if a.outcome.Done? {
        assert BluePhase(w) == Run(a.after.Gate(), b.outcome);
      }
    }
  }

  /** The green publish happens only after the blue half completed: blue was
      published, live was switched to it, and the operator's gate was passed —
      all before the green update, which continues that log. */
  lemma GreenAfterBlueSwitch(w: Cloud)
    ensures var p := BluePhase(w); var r := Rollout(w);
      Extends(w, r.after) && Extends(w, p.after) &&
      (UpdateFunctionCodeCall in Added(w, r.after) ==>
        p.outcome.Done? && p.after.aliases[Live] == p.outcome.value &&
        p.after.log[|p.after.log| - 1] == Confirmed &&
        UpdateFunctionCodeCall !in Added(w, p.after) &&
        Extends(p.after, r.after))
  {
    var p := BluePhase(w);
    BluePhaseFacts(w);
    if p.outcome.Done? {
      var q := GreenPhase(p.after);
      GreenPhaseFrame(p.after);
      ExtendsTrans(w, p.after, q.after);
    }
  }

  /** The green half leaves live on green when it completes and touches no alias
      when it does not. */
  lemma GreenPhaseFrame(w: Cloud)
    ensures var q := GreenPhase(w);
      Extends(w, q.after) &&
      q.after.aliases == (if q.outcome.Done? then w.aliases[Live := q.outcome.value] else w.aliases) &&
      (q.outcome.Done? ==> q.outcome.value == q.after.version == w.version + 1)
  {
    var g := DeployGreen(w);
    DeployGreenFrame(w);
    if g.outcome.Done? {
      var a := CreateOrUpdateAlias(g.after, g.outcome.value, Live);
      AliasUpsert(g.after, g.outcome.value, Live);
      AliasCreateFirst(g.after, g.outcome.value, Live);
      ExtendsTrans(w, g.after, a.after);
    }
  }

  /** A completed rollout leaves live on the green version, which is the
      function's latest and newer than blue; no other alias changes. */
  lemma RolloutEndsOnGreen(w: Cloud)
    ensures var r := Rollout(w);
      r.outcome.Done? ==>
        r.after.aliases == w.aliases[Live := r.outcome.value.green] &&
        r.outcome.value.green == r.after.version &&
        r.outcome.value.blue < r.outcome.value.green
  {
    var p := BluePhase(w);
    BluePhaseFacts(w);
    if p.outcome.Done? {
      GreenPhaseFrame(p.after);
      var r := Rollout(w);
      if r.outcome.Done? {
        assert w.aliases[Live := p.outcome.value][Live := r.outcome.value.green]
          == w.aliases[Live := r.outcome.value.green];
      }
    }
  }

  /** A rollout that fails after the blue half completed leaves live on blue:
      there is no rollback and no partial switch. */
  lemma GreenFailureKeepsBlue(w: Cloud)
    ensures var p := BluePhase(w); var r := Rollout(w);
      p.outcome.Done? && !r.outcome.Done? ==>
        r.after.aliases == p.after.aliases && r.after.aliases[Live] == p.outcome.value
  {
    BluePhaseFacts(w);
    if BluePhase(w).outcome.Done? {
      GreenPhaseFrame(BluePhase(w).after);
    }
  }

  /** Whatever the platform does, a blue publish that does not return ends the
      run there with blue's own error: no alias call is made, no alias changes,
      and the operator is never asked. */
  lemma BlueFailureStopsRollout(w: Cloud)
    ensures var b := DeployBlue(w); var r := Rollout(w);
      !b.outcome.Done? ==>
        r.after == b.after && r.outcome == b.outcome.Propagate<Deployment>() &&
        r.after.aliases == w.aliases && Extends(w, r.after) &&
        (forall e :: e in Added(w, r.after) ==> !IsAliasCall(e) && e != Confirmed)
  {
    DeployBlueFrame(w);
  }

  /** If blue does not become ready, the run ends there: the error names the
      function and carries the reason, no alias call is made, no alias changes,
      and the operator is never asked. */
  lemma RolloutStopsWhenBlueFails(w: Cloud)
    requires w.Reliable()
    requires Pending(w.states) < |w.states| && w.states[Pending(w.states)].Failed?
    ensures var r := Rollout(w); var reason := w.states[Pending(w.states)].reason;
      r.outcome == Raised(ActivationFailed(FunctionName, reason)) &&
      r.after.aliases == w.aliases && Extends(w, r.after) &&
      (forall e :: e in Added(w, r.after) ==> !IsAliasCall(e) && e != Confirmed)
  {
    DeployBlueFrame(w);
    var c := w.CreateFunction();
    if c.reply.Ok? {
      WaitSettles(c.after);
    } else {
      WaitSettles(c.after.GetFunctionVersion().after);
    }
  }

  // ---------------------------------------------------------------------------
  // Two complete runs

  /** A fresh function; blue is published as version 1 and becomes Active after
      two pending polls; live is created on 1; the gate passes; green is
      published as version 2 and is Active at once; live is updated to 2. */
  lemma RolloutScenario()
    ensures var w := Cloud(false, 0, map[], [Other("Pending"), Other("Pending"), Active, Active], map[], []);
      var r := Rollout(w);
      r.outcome == Done(Deployment(1, 2)) && r.after.aliases == map[Live := 2]
  {
    var w := Cloud(false, 0, map[], [Other("Pending"), Other("Pending"), Active, Active], map[], []);
    var c := w.CreateFunction();
    WaitSettles(c.after);
    var b := DeployBlue(w);
    assert b.outcome == Done(1);
    var p := BluePhase(w);
    AliasSucceeds(b.after, 1, Live);
    DeployGreenPublishes(p.after);
    WaitSettles(p.after.UpdateFunctionCode().after);
    AliasSucceeds(DeployGreen(p.after).after, 2, Live);
    RolloutEndsOnGreen(w);
  }

  /** A fresh function whose blue version fails with reason OutOfMemory: the run
      raises an error whose message ends with that reason, and live does not
      exist afterwards. */
  lemma FailedRolloutScenario()
    ensures var w := Cloud(false, 0, map[], [Failed("OutOfMemory")], map[], []);
      var r := Rollout(w); var m := r.outcome.error.Message();
      r.outcome.Raised? && Live !in r.after.aliases &&
      |m| >= |"OutOfMemory"| && m[|m| - |"OutOfMemory"|..] == "OutOfMemory"
  {
    var w := Cloud(false, 0, map[], [Failed("OutOfMemory")], map[], []);
    RolloutStopsWhenBlueFails(w);
  }
}
