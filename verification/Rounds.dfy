/** Whole configuration rounds with clients lost on the way, and what a client needs to become
    operational again. */
module Rounds {
  import opened Fsm
  import opened Registry
  import opened Protocol

  // ---- between the start of a round and its result ----

  /** A step that does not end the round: registry changes and refused events. */
  ghost predicate Interim(s: Server, step: ProtocolStep) {
    step.Handle? ==> !Apply(s, step.event).accepted
  }

  ghost predicate Waiting(s: Server, steps: seq<ProtocolStep>) {
    forall i | 0 <= i < |steps| :: Interim(Run(s, steps[..i]), steps[i])
  }

  function UnderConfiguration(s: Server): set<ClientId> {
    InState(s.clients, CConfiguring)
  }

  predicate IsOperational(s: Server, c: ClientId) {
    c in s.clients && s.clients[c].operational
  }

  /** The round is the same one, with the clients that are left. */
  ghost predicate SameRound(s: Server, after: Server) {
    && after.run == s.run == Configuring
    && after.configurationSource == s.configurationSource
    && after.configurationPartial == s.configurationPartial
    && UnderConfiguration(after) <= UnderConfiguration(s)
    && UnderConfiguration(after) * Common(s.clients) <= Common(after.clients)
    && Operational(after.clients) <= Operational(s.clients)
  }

  /** A refused event changes at most the noted source state of a configuration, and nothing at all
      exactly when it is not a CONFIGURATION_STARTED that gets as far as its targets, or the state
      it is asked in was noted already. */
  lemma RefusedEventChangesNothing(s: Server, e: Event)
    requires !Apply(s, e).accepted
    ensures Apply(s, e).server == s.(configurationSource := Apply(s, e).server.configurationSource)
    ensures Apply(s, e).server == s <==> BranchOf(s.run, e) != Start || s.configurationSource == Some(s.run)
    ensures BranchOf(s.run, e) == Start ==> e.kind == ConfigurationStarted && s.run in {Connected, Ready}
  {
    BranchAlwaysFits(s.run, e);
    match BranchOf(s.run, e)
    case Start =>
    case Result =>
    case _ =>
  }

  lemma LossKeepsRound(s: Server, c: ClientId, plane: Plane)
    requires s.run == Configuring
    ensures SameRound(s, Lose(s, c, plane))
  {
  }

  lemma AdditionKeepsRound(s: Server, c: ClientId, identity: Option<Identity>)
    requires s.run == Configuring && c != ""
    ensures c !in s.clients ==> SameRound(s, AddControl(s, c, identity))
    ensures SameRound(s, AddOn(s, c, Acquisition)) && SameRound(s, AddOn(s, c, Monitoring))
  {
  }

  lemma InterimKeepsRound(s: Server, step: ProtocolStep)
    requires s.run == Configuring && Interim(s, step) && Planes(s)
    ensures SameRound(s, Take(s, step))
  {
    match step
    case Handle(e) => RefusedEventChangesNothing(s, e);
    case Loss(c, plane) => LossKeepsRound(s, c, plane);
    case Exclusion(c) =>
    case Admission(c, plane, identity) =>
      LossKeepsRound(s, c, plane);
      AdditionKeepsRound(Lose(s, c, plane), c, identity);
  }

  lemma {:induction false} WaitingKeepsRound(s: Server, steps: seq<ProtocolStep>)
    requires Invariant(s) && s.run == Configuring && Waiting(s, steps)
    ensures SameRound(s, Run(s, steps)) && Invariant(Run(s, steps))
  {
    if steps != [] {
      var before := steps[..|steps| - 1];
      assert forall i | 0 <= i < |before| :: before[..i] == steps[..i] && before[i] == steps[i];
      WaitingKeepsRound(s, before);
      InterimKeepsRound(Run(s, before), steps[|steps| - 1]);
      InvariantAfter(Run(s, before), steps[|steps| - 1]);
      assert SameRound(Run(s, before), Run(s, steps));
    }
  }

  // ---- the result ----

  /** A result leaves nobody CONFIGURING; the clients operational afterwards are the reported
      successes still under configuration and, in a partial round, those already operational. */
  ghost predicate RoundClosed(s: Server, after: Server, succeeded: set<ClientId>) {
    && after.run != Configuring
    && after.configurationSource == None
    && !after.configurationPartial
    && UnderConfiguration(after) == {}
    && forall c :: IsOperational(after, c) <==>
        c in succeeded || (s.configurationPartial && IsOperational(s, c))
  }

  lemma SucceededCloses(s: Server, succeeded: set<ClientId>, failed: set<ClientId>)
    requires Invariant(s) && s.run == Configuring && ApplySucceeded(s, succeeded, failed).accepted
    ensures ApplySucceeded(s, succeeded, failed).server.run == Ready
    ensures RoundClosed(s, ApplySucceeded(s, succeeded, failed).server, succeeded)
    ensures succeeded <= UnderConfiguration(s)
  {
    var after := ApplySucceeded(s, succeeded, failed).server;
    forall c | c in s.clients
      ensures after.clients[c] == SucceededRecord(s.clients[c], c in succeeded, c in failed, s.configurationPartial)
      ensures s.clients[c].state == CConfiguring <==> c in succeeded || c in failed
    {
      assert c in UnderConfiguration(s) <==> c in succeeded + failed;
    }
  }

  lemma FailedCloses(s: Server, failed: set<ClientId>)
    requires Invariant(s) && s.run == Configuring && ApplyFailed(s, failed).accepted
    ensures ApplyFailed(s, failed).server.run == ConfigurationOrigin(s)
    ensures RoundClosed(s, ApplyFailed(s, failed).server, {})
  {
    var after := ApplyFailed(s, failed).server;
    forall c | c in s.clients
      ensures after.clients[c] == FailedRecord(s.clients[c], c in failed, s.configurationPartial)
      ensures s.clients[c].state == CConfiguring <==> c in failed
    {
      assert c in UnderConfiguration(s) <==> c in failed;
    }
  }

  lemma ResultTakesItsBranch(run: ServerFsm, e: Event)
    requires run == Configuring && e.kind in {ConfigurationSucceeded, ConfigurationFailed}
    ensures e.described && e.terminal == None ==> BranchOf(run, e) == Result
    ensures BranchOf(run, e) in {Result, Refusal}
  {
  }

  lemma ResultCloses(s: Server, result: Event)
    requires Invariant(s) && s.run == Configuring
    requires result.kind in {ConfigurationSucceeded, ConfigurationFailed}
    requires Apply(s, result).accepted
    ensures Apply(s, result).server.run in {Ready, ConfigurationOrigin(s)}
    ensures var succeeded := if result.kind == ConfigurationSucceeded then IdsOr(result.successful, {}) else {};
            RoundClosed(s, Apply(s, result).server, succeeded * UnderConfiguration(s))
  {
    ResultTakesItsBranch(s.run, result);
    match VerdictOf(UnderConfiguration(s), result)
    case Malformed =>
    case Success(succeeded, failed) =>
      SucceededCloses(s, succeeded, failed);
      assert succeeded == IdsOr(result.successful, {}) * UnderConfiguration(s);
    case Failure(failed) =>
      FailedCloses(s, failed);
      if result.kind == ConfigurationSucceeded {
        assert IdsOr(result.successful, {}) * UnderConfiguration(s) == {};
      } else {
        assert {} * UnderConfiguration(s) == {};
      }
  }

  /** The fallback of every caller: a CONFIGURATION_FAILED with no metadata always ends the round. */
  lemma FallbackNeverRefused(s: Server)
    requires s.run == Configuring
    ensures Apply(s, Plain(ConfigurationFailed)).accepted
    ensures Apply(s, Plain(ConfigurationFailed)).server.run == ConfigurationOrigin(s)
  {
  }

  /** Any round, with any clients lost or admitted before its result. */
  lemma ConfigurationRound(s: Server, start: Event, steps: seq<ProtocolStep>, result: Event)
    requires Invariant(s)
    requires start.kind == ConfigurationStarted && Apply(s, start).accepted
    requires Waiting(Apply(s, start).server, steps)
    requires result.kind in {ConfigurationSucceeded, ConfigurationFailed}
    ensures var left := Run(Apply(s, start).server, steps);
            && left.run == Configuring
            && Apply(left, Plain(ConfigurationFailed)).accepted
            && Apply(left, Plain(ConfigurationFailed)).server.run == s.run
            && (Apply(left, result).accepted ==>
              var after := Apply(left, result).server;
              var reported := if result.kind == ConfigurationSucceeded then IdsOr(result.successful, {}) else {};
              && after.run in {Ready, s.run}
              && UnderConfiguration(after) == {}
              && forall c :: IsOperational(after, c) <==>
                  c in reported * UnderConfiguration(left) || (start.partial && IsOperational(left, c)))
  {
    var started := Apply(s, start).server;
    BranchAlwaysFits(s.run, start);
    assert BranchOf(s.run, start) == Start;
    InvariantAfter(s, Handle(start));
    WaitingKeepsRound(started, steps);
    var left := Run(started, steps);
    FallbackNeverRefused(left);
    if Apply(left, result).accepted {
      ResultCloses(left, result);
    }
  }

  /** A report that accounts for every target of the round, whatever happened to it since. */
  ghost predicate Honest(result: Event, targets: set<ClientId>) {
    && result.kind == ConfigurationSucceeded && result.described && result.terminal == None
    && result.successful.Given? && result.failed.Given?
    && Ids(result.successful.ids) != {}
    && Ids(result.successful.ids) !! Ids(result.failed.ids)
    && Ids(result.successful.ids) + Ids(result.failed.ids) == targets
  }

  lemma HonestVerdict(s: Server, result: Event, targets: set<ClientId>)
    requires s.run == Configuring && Honest(result, targets) && "" !in targets
    requires targets * UnderConfiguration(s) <= Common(s.clients)
    ensures Apply(s, result).accepted <==> UnderConfiguration(s) <= targets
  {
    ResultTakesItsBranch(s.run, result);
    var expected := UnderConfiguration(s);
    var succeeded, failed := Ids(result.successful.ids), Ids(result.failed.ids);
    assert targets <= expected ==> succeeded * expected == succeeded && failed * expected == failed;
    assert succeeded * expected + failed * expected == targets * expected;
    assert (targets * expected == expected) <==> expected <= targets;
  }

  /** A truthful report is accepted, whoever was lost in the meantime, exactly when no client was
      left CONFIGURING by an earlier round that never got its result. */
  lemma TruthfulResultAccepted(s: Server, start: Event, steps: seq<ProtocolStep>, result: Event)
    requires Invariant(s)
    requires start.kind == ConfigurationStarted && Apply(s, start).accepted
    requires Waiting(Apply(s, start).server, steps)
    requires Honest(result, IdsOr(start.targets, Common(s.clients)))
    ensures var left := Run(Apply(s, start).server, steps);
            Apply(left, result).accepted <==>
            UnderConfiguration(left) * UnderConfiguration(s) <= IdsOr(start.targets, Common(s.clients))
  {
    var targets := IdsOr(start.targets, Common(s.clients));
    var started := Apply(s, start).server;
    StartSelects(s, start);
    InvariantAfter(s, Handle(start));
    WaitingKeepsRound(started, steps);
    HonestVerdict(Run(started, steps), result, targets);
  }

  lemma StartSelects(s: Server, start: Event)
    requires start.kind == ConfigurationStarted && Apply(s, start).accepted
    ensures var targets := IdsOr(start.targets, Common(s.clients));
            var started := Apply(s, start).server;
            && started.run == Configuring
            && UnderConfiguration(started) == UnderConfiguration(s) + targets
            && targets <= Common(started.clients)
            && "" !in targets
  {
    BranchAlwaysFits(s.run, start);
    assert BranchOf(s.run, start) == Start;
  }

  /** Such leftovers exist: a disconnect request ends a round without touching its clients. */
  lemma DisconnectLeavesClientsConfiguring(s: Server)
    requires s.run == Configuring
    ensures Apply(s, Plain(DisconnectRequested)).accepted
    ensures Apply(s, Plain(DisconnectRequested)).server.run == Disconnected
    ensures UnderConfiguration(Apply(s, Plain(DisconnectRequested)).server) == UnderConfiguration(s)
  {
  }

  // ---- becoming operational ----

  /** The step accepts a configuration result that reports this client as configured. */
  ghost predicate Configures(s: Server, step: ProtocolStep, c: ClientId) {
    && step.Handle?
    && step.event.kind == ConfigurationSucceeded
    && Apply(s, step.event).accepted
    && c in IdsOr(step.event.successful, {})
  }

  lemma BranchMakesOperational(s: Server, e: Event, branch: Branch, c: ClientId)
    requires !IsOperational(s, c) && branch != Result
    ensures !IsOperational(ApplyBranch(s, e, branch).server, c)
  {
    match branch
    case Acquire => assert c in s.clients ==> !(c in Operational(s.clients));
    case _ =>
  }

  lemma ResultMakesOperational(s: Server, e: Event, c: ClientId)
    requires !IsOperational(s, c) && BranchOf(s.run, e) == Result
    requires IsOperational(ApplyConfigurationResult(s, e).server, c)
    ensures Configures(s, Handle(e), c)
  {
    var verdict := VerdictOf(UnderConfiguration(s), e);
    assert verdict.Success? && c in verdict.succeeded;
  }

  lemma StepMakesOperational(s: Server, step: ProtocolStep, c: ClientId)
    requires Planes(s) && !IsOperational(s, c) && IsOperational(Take(s, step), c)
    ensures Configures(s, step, c)
  {
    if step.Handle? {
      if BranchOf(s.run, step.event) == Result {
        ResultMakesOperational(s, step.event, c);
      } else {
        BranchMakesOperational(s, step.event, BranchOf(s.run, step.event), c);
      }
    }
  }

  /** Whoever is operational at the end of a run and was not at its start has been configured in
      between by an accepted result naming it. */
  lemma {:induction false} OperationalOnlyIfConfigured(s: Server, steps: seq<ProtocolStep>, c: ClientId)
    requires Invariant(s) && !IsOperational(s, c) && IsOperational(Run(s, steps), c)
    ensures Invariant(Run(s, steps))
    ensures exists k | 0 <= k < |steps| :: Configures(Run(s, steps[..k]), steps[k], c)
  {
    var n := |steps| - 1;
    var before := Run(s, steps[..n]);
    InvariantAlong(s, steps[..n]);
    InvariantAfter(before, steps[n]);
    if IsOperational(before, c) {
      OperationalOnlyIfConfigured(s, steps[..n], c);
      var k :| 0 <= k < n && Configures(Run(s, steps[..n][..k]), steps[..n][k], c);
      assert steps[..n][..k] == steps[..k];
    } else {
      StepMakesOperational(before, steps[n], c);
    }
  }

  lemma {:induction false} InvariantAlong(s: Server, steps: seq<ProtocolStep>)
    requires Invariant(s)
    ensures Invariant(Run(s, steps))
  {
    if steps != [] {
      InvariantAlong(s, steps[..|steps| - 1]);
      InvariantAfter(Run(s, steps[..|steps| - 1]), steps[|steps| - 1]);
    }
  }

  lemma ReturningClientIsNotOperational(s: Server, c: ClientId, plane: Plane, identity: Option<Identity>)
    requires Planes(s) && c != "" && plane != Monitoring
    ensures !IsOperational(Admit(s, c, plane, identity), c)
    ensures TargetsAllowed(s) ==> TargetsAllowed(Admit(s, c, plane, identity))
  {
  }

  /** A client that comes back on the Control or Acquisition Plane is not operational, and stays so
      until a later configuration result names it. */
  lemma ReturningClientMustBeConfigured(s: Server, c: ClientId, plane: Plane, identity: Option<Identity>,
                                        steps: seq<ProtocolStep>)
    requires Invariant(s) && c != "" && plane != Monitoring
    ensures var back := Admit(s, c, plane, identity);
            && !IsOperational(back, c)
            && (IsOperational(Run(back, steps), c) ==>
              exists k | 0 <= k < |steps| :: Configures(Run(back, steps[..k]), steps[k], c))
  {
    var back := Admit(s, c, plane, identity);
    AdmissionKeepsCoupling(s, c, plane, identity);
    ReturningClientIsNotOperational(s, c, plane, identity);
    if IsOperational(Run(back, steps), c) {
      OperationalOnlyIfConfigured(back, steps, c);
    }
  }

  // ---- runs in which the code falls short ----

  ghost predicate Reachable(s: Server) {
    exists steps: seq<ProtocolStep> :: Run(INITIAL, steps) == s
  }

  lemma ReachableNext(s: Server, step: ProtocolStep)
    requires Reachable(s)
    ensures Reachable(Take(s, step))
  {
    var steps: seq<ProtocolStep> :| Run(INITIAL, steps) == s;
    var longer: seq<ProtocolStep> := steps + [step];
    assert longer[..|steps|] == steps;
    assert Run(INITIAL, longer) == Take(s, step);
  }

  function At(run: ServerFsm, previous: ServerFsm, source: Option<ServerFsm>, clients: Clients): Server {
    Server(run, Some(previous), None, None, source, false, clients, map[])
  }

  /** CONNECTED with nobody there: the refused start of a configuration is noted all the same. */
  lemma RefusedStartIsNoted()
    ensures var s := At(Connected, ControlConnected, None, map[]);
            && Reachable(s)
            && !Apply(s, Plain(ConfigurationStarted)).accepted
            && Apply(s, Plain(ConfigurationStarted)).server == s.(configurationSource := Some(Connected)) != s
  {
    var none: seq<ProtocolStep> := [];
    assert Run(INITIAL, none) == INITIAL;
    Connect(INITIAL);
    assert Common(map[]) == {};
  }

  const FRESH := NEW_RECORD.(onControl := true, onAcquisition := true)

  lemma JoinBothPlanes(s: Server, c: ClientId)
    requires Reachable(s) && c != "" && c !in s.clients
    ensures Reachable(s.(clients := s.clients[c := FRESH]))
  {
    ReachableNext(s, Admission(c, Control, None));
    var joined := Take(s, Admission(c, Control, None));
    assert joined == s.(clients := s.clients[c := NEW_RECORD.(onControl := true)]);
    ReachableNext(joined, Admission(c, Acquisition, None));
    assert Take(joined, Admission(c, Acquisition, None)) == s.(clients := s.clients[c := FRESH]);
  }

  lemma Connect(s: Server)
    requires Reachable(s) && s.run == Disconnected
    ensures Reachable(s.(run := Connected, previous := Some(ControlConnected)))
  {
    ReachableNext(s, Handle(Plain(ControlConnectionSucceeded)));
    ReachableNext(s.(run := ControlConnected, previous := Some(Disconnected)), Handle(Plain(AcquisitionConnectionSucceeded)));
  }

  function StartFor(c: ClientId): Event {
    Plain(ConfigurationStarted).(targets := Given([c]))
  }

  function ResultFor(c: ClientId): Event {
    Plain(ConfigurationSucceeded).(successful := Given([c]), failed := Given([]))
  }

  lemma StartOfOne(s: Server, c: ClientId)
    requires s.run == Connected && c != "" && c in Common(s.clients)
    ensures Apply(s, StartFor(c)).accepted
    ensures Apply(s, StartFor(c)).server == s.(
              run := Configuring, previous := Some(Connected), configurationSource := Some(Connected),
              configurationPartial := false, clients := map d | d in s.clients :: StartedRecord(s.clients[d], d == c, false))
  {
    assert Ids([c]) == {c};
    assert BranchOf(s.run, StartFor(c)) == Start;
  }

  /** Two clients, the first of them left CONFIGURING. */
  function Leftover(a: ClientId, b: ClientId): Clients {
    map[a := InNewState(FRESH, CConfiguring), b := FRESH]
  }

  lemma TwoConnected(a: ClientId, b: ClientId)
    requires a != "" && b != "" && a != b
    ensures Reachable(At(Connected, ControlConnected, None, map[a := FRESH, b := FRESH]))
  {
    var none: seq<ProtocolStep> := [];
    assert Run(INITIAL, none) == INITIAL;
    JoinBothPlanes(INITIAL, a);
    JoinBothPlanes(INITIAL.(clients := map[a := FRESH]), b);
    assert map[a := FRESH][b := FRESH] == map[a := FRESH, b := FRESH];
    Connect(INITIAL.(clients := map[a := FRESH, b := FRESH]));
  }

  lemma RoundUnderWay(a: ClientId, b: ClientId)
    requires a != "" && b != "" && a != b
    ensures Reachable(At(Configuring, Connected, Some(Connected), Leftover(a, b)))
  {
    var connected := At(Connected, ControlConnected, None, map[a := FRESH, b := FRESH]);
    TwoConnected(a, b);
    StartOfOne(connected, a);
    ReachableNext(connected, Handle(StartFor(a)));
    assert Apply(connected, StartFor(a)).server.clients == Leftover(a, b);
  }

  lemma ConnectedAgain(a: ClientId, b: ClientId)
    requires a != "" && b != "" && a != b
    ensures Reachable(At(Connected, ControlConnected, Some(Connected), Leftover(a, b)))
  {
    RoundUnderWay(a, b);
    ReachableNext(At(Configuring, Connected, Some(Connected), Leftover(a, b)), Handle(Plain(DisconnectRequested)));
    Connect(At(Disconnected, Configuring, Some(Connected), Leftover(a, b)));
  }

  lemma ResultOfOne(s: Server, c: ClientId)
    requires s.run == Configuring && c != "" && c in Common(s.clients)
    ensures Honest(ResultFor(c), {c})
    ensures Apply(s, ResultFor(c)).accepted <==> UnderConfiguration(s) <= {c}
  {
    assert Ids([c]) == {c} && Ids([]) == {};
    HonestVerdict(s, ResultFor(c), {c});
  }

  /** Configure a, disconnect, connect again, configure b: the truthful report about b is refused,
      because a is still CONFIGURING. */
  lemma HonestResultRefused(a: ClientId, b: ClientId)
    requires a != "" && b != "" && a != b
    ensures var s := At(Connected, ControlConnected, Some(Connected), Leftover(a, b));
            && Reachable(s)
            && Apply(s, StartFor(b)).accepted
            && Honest(ResultFor(b), {b})
            && !Apply(Apply(s, StartFor(b)).server, ResultFor(b)).accepted
  {
    var s := At(Connected, ControlConnected, Some(Connected), Leftover(a, b));
    ConnectedAgain(a, b);
    StartOfOne(s, b);
    var started := Apply(s, StartFor(b)).server;
    assert a in UnderConfiguration(started);
    ResultOfOne(started, b);
  }
}
