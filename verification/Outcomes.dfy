/** What each event comes to, told in the states themselves, and how a session ends. */
module Outcomes {
  import opened Fsm
  import opened Registry
  import opened Protocol
  import opened Rounds

  /** A call no transition may refuse for its form: described, and with no terminal requested. */
  predicate Proper(e: Event) {
    e.described && e.terminal == None
  }

  // ---- configuration ----

  /** When the start of a configuration is accepted, and what it makes of every client. */
  lemma ConfigurationStarts(s: Server, e: Event)
    requires e.kind == ConfigurationStarted
    ensures var targets := if e.targets.Given? then Ids(e.targets.ids) else Common(s.clients);
            var o := Apply(s, e);
            && (o.accepted <==>
                 Proper(e) && s.run in {Connected, Ready} && targets != {} && "" !in targets && targets <= Common(s.clients))
            && (o.accepted ==>
                 && o.server.run == Configuring && o.server.previous == Some(s.run)
                 && o.server.configurationSource == Some(s.run) && o.server.configurationPartial == e.partial
                 && o.server.clients.Keys == s.clients.Keys
                 && forall c | c in s.clients :: o.server.clients[c] ==
                      if c in targets then s.clients[c].(state := CConfiguring, previous := Some(s.clients[c].state), operational := false)
                      else if e.partial then s.clients[c] else s.clients[c].(operational := false))
  {
    BranchAlwaysFits(s.run, e);
  }

  /** The reported successes still under configuration. */
  function Won(s: Server, e: Event): set<ClientId> {
    if e.kind == ConfigurationSucceeded && e.successful.Given? then Ids(e.successful.ids) * UnderConfiguration(s) else {}
  }

  lemma SuccessRecords(s: Server, succeeded: set<ClientId>, failed: set<ClientId>)
    requires Coupled(s) && s.run == Configuring && ApplySucceeded(s, succeeded, failed).accepted
    ensures var after := ApplySucceeded(s, succeeded, failed).server;
            && after.clients.Keys == s.clients.Keys
            && forall c | c in s.clients :: after.clients[c] ==
                 if s.clients[c].state == CConfiguring then
                   s.clients[c].(previous := Some(CConfiguring), state := if c in succeeded then CReady else CError, operational := c in succeeded)
                 else if s.configurationPartial then s.clients[c] else s.clients[c].(operational := false)
  {
    var after := ApplySucceeded(s, succeeded, failed).server;
    forall c | c in s.clients
      ensures after.clients[c] == SucceededRecord(s.clients[c], c in succeeded, c in failed, s.configurationPartial)
      ensures s.clients[c].state == CConfiguring <==> c in succeeded + failed
      ensures s.clients[c].state == CConfiguring ==> !s.clients[c].operational
    {
      assert s.clients[c].state == CConfiguring <==> c in UnderConfiguration(s);
    }
  }

  lemma FailureRecords(s: Server, failed: set<ClientId>)
    requires Coupled(s) && s.run == Configuring && ApplyFailed(s, failed).accepted
    ensures var after := ApplyFailed(s, failed).server;
            && after.clients.Keys == s.clients.Keys
            && forall c | c in s.clients :: after.clients[c] ==
                 if s.clients[c].state == CConfiguring then
                   s.clients[c].(previous := Some(CConfiguring), state := CError, operational := false)
                 else if s.configurationPartial then s.clients[c] else s.clients[c].(operational := false)
  {
    var after := ApplyFailed(s, failed).server;
    forall c | c in s.clients
      ensures after.clients[c] == FailedRecord(s.clients[c], c in failed, s.configurationPartial)
      ensures s.clients[c].state == CConfiguring <==> c in failed
      ensures s.clients[c].state == CConfiguring ==> !s.clients[c].operational
    {
      assert s.clients[c].state == CConfiguring <==> c in UnderConfiguration(s);
    }
  }

  /** Every client of the round ends READY and operational or in ERROR, and nobody else moves. */
  lemma ConfigurationEnds(s: Server, e: Event)
    requires Coupled(s) && s.run == Configuring
    requires e.kind in {ConfigurationSucceeded, ConfigurationFailed} && Apply(s, e).accepted
    ensures var after := Apply(s, e).server;
            var won := Won(s, e);
            && after.run == (if won != {} then Ready else if s.configurationSource.Some? then s.configurationSource.value else Connected)
            && after.previous == Some(Configuring)
            && after.clients.Keys == s.clients.Keys
            && forall c | c in s.clients :: after.clients[c] ==
                 if s.clients[c].state == CConfiguring then
                   s.clients[c].(previous := Some(CConfiguring), state := if c in won then CReady else CError, operational := c in won)
                 else if s.configurationPartial then s.clients[c] else s.clients[c].(operational := false)
  {
    ResultTakesItsBranch(s.run, e);
    match VerdictOf(UnderConfiguration(s), e)
    case Malformed =>
    case Success(succeeded, failed) =>
      SuccessRecords(s, succeeded, failed);
      assert succeeded == Won(s, e);
    case Failure(failed) =>
      FailureRecords(s, failed);
      assert Won(s, e) == {};
  }

  function Reported(listed: Listed): set<ClientId> {
    if listed.Given? then Ids(listed.ids) else {}
  }

  lemma DisjointWithin(a: set<ClientId>, b: set<ClientId>, all: set<ClientId>)
    ensures (a * all !! b * all) <==> a * b * all == {}
  {
    if a * all !! b * all {
      assert forall c | c in a * b * all :: c in a * all && c in b * all;
    } else {
      var c :| c in a * all && c in b * all;
      assert c in a * b * all;
    }
  }

  lemma SuccessAccepted(s: Server, e: Event)
    requires s.run == Configuring && e.kind == ConfigurationSucceeded && BranchOf(s.run, e) == Result
    ensures var ok, ko, all := Reported(e.successful), Reported(e.failed), UnderConfiguration(s);
            Apply(s, e).accepted <==>
              && "" !in ok && "" !in ko
              && (if ok * all != {} then ok * ko * all == {} && all <= ok + ko && ok * all <= Common(s.clients)
                  else !(ok + ko <= all) && all <= ko)
  {
    var ok, ko, all := Reported(e.successful), Reported(e.failed), UnderConfiguration(s);
    DisjointWithin(ok, ko, all);
    assert ok * all + ko * all == all <==> all <= ok + ko;
    if ok + ko <= all {
      assert ok * all == ok && ko * all == ko;
    } else {
      assert ko * all == all <==> all <= ko;
    }
  }

  lemma FailureAccepted(s: Server, e: Event)
    requires s.run == Configuring && e.kind == ConfigurationFailed && BranchOf(s.run, e) == Result
    ensures var ok, ko, all := Reported(e.successful), Reported(e.failed), UnderConfiguration(s);
            Apply(s, e).accepted <==> "" !in ok && "" !in ko && (all <= ko || (e.failed == Absent && ok <= all))
  {
    var ok, ko, all := Reported(e.successful), Reported(e.failed), UnderConfiguration(s);
    if ok + ko <= all {
      assert e.failed.Given? ==> (ko == all <==> all <= ko);
    } else {
      assert ko * all == all <==> all <= ko;
      assert e.failed == Absent ==> ok + ko == ok;
    }
  }

  /** When a result is accepted: a success must account for everybody under configuration without
      contradiction, a failure likewise unless it names nobody; those already lost do not matter. */
  lemma ResultAccepted(s: Server, e: Event)
    requires s.run == Configuring && e.kind in {ConfigurationSucceeded, ConfigurationFailed}
    ensures var ok, ko, all := Reported(e.successful), Reported(e.failed), UnderConfiguration(s);
            Apply(s, e).accepted <==>
              && Proper(e) && "" !in ok && "" !in ko
              && (if e.kind == ConfigurationFailed then all <= ko || (e.failed == Absent && ok <= all)
                  else if ok * all != {} then ok * ko * all == {} && all <= ok + ko && ok * all <= Common(s.clients)
                  else !(ok + ko <= all) && all <= ko)
  {
    ResultTakesItsBranch(s.run, e);
    if Proper(e) {
      if e.kind == ConfigurationFailed {
        FailureAccepted(s, e);
      } else {
        SuccessAccepted(s, e);
      }
    }
  }

  // ---- acquisition, errors and the rest ----

  /** The active clients start together; the others drop out of the operational set. */
  lemma AcquisitionStarts(s: Server, e: Event)
    requires e.kind == AcquisitionStarted
    ensures var active := if e.active.Given? then Ids(e.active.ids) else Operational(s.clients);
            var o := Apply(s, e);
            && (o.accepted <==>
                 && Proper(e) && s.run == Ready && active != {} && "" !in active
                 && forall c | c in active :: c in s.clients && s.clients[c].operational && s.clients[c].state == CReady)
            && (o.accepted ==>
                 && o.server.run == Acquiring && o.server.previous == Some(Ready)
                 && o.server.clients.Keys == s.clients.Keys
                 && forall c | c in s.clients :: o.server.clients[c] ==
                      if c in active then s.clients[c].(state := CAcquiring, previous := Some(CReady))
                      else s.clients[c].(operational := false))
  {
    BranchAlwaysFits(s.run, e);
  }

  /** A fatal error is never refused for the state; it ends every session in ERROR. */
  lemma FatalErrorEnds(s: Server, e: Event)
    requires e.kind == FatalError
    ensures Apply(s, e).accepted <==> Proper(e)
    ensures Apply(s, e).accepted ==>
              var after := Apply(s, e).server;
              && after.run == Error && after.previous == Some(s.run)
              && (s.run == Finalizing ==> after.pendingTerminal == None && after.pendingEvent == None)
              && after.clients.Keys == s.clients.Keys
              && forall c | c in s.clients :: after.clients[c] ==
                   if s.clients[c].operational then
                     s.clients[c].(state := CError, previous := Some(s.clients[c].state), operational := false)
                   else s.clients[c]
  {
    BranchAlwaysFits(s.run, e);
  }

  /** The other events move the server alone. */
  lemma OtherEventsTouchNoClient(s: Server, e: Event)
    requires e.kind in {ControlConnectionSucceeded, ControlConnectionFailed, AcquisitionConnectionSucceeded,
                        AcquisitionConnectionFailed, RecoveryStarted, RecoverySucceeded, RecoveryFailed}
             || (e.kind in {ControlConnectionLost, AcquisitionConnectionLost, DisconnectRequested} && s.run !in {Acquiring, Finalizing})
    ensures Apply(s, e).accepted ==> Apply(s, e).server == s.(run := Apply(s, e).server.run, previous := Some(s.run))
  {
    BranchAlwaysFits(s.run, e);
  }

  /** Where the server goes when a connection is lost or given up outside a session. */
  lemma OutsideSessions(s: Server)
    requires s.run !in {Acquiring, Finalizing}
    ensures Apply(s, Plain(DisconnectRequested)).accepted && Apply(s, Plain(DisconnectRequested)).server.run == Disconnected
    ensures s.run in {ControlConnected, Connected, Ready} ==>
              Apply(s, Plain(ControlConnectionLost)).accepted && Apply(s, Plain(ControlConnectionLost)).server.run == Disconnected
    ensures s.run in {Connected, Ready} ==>
              Apply(s, Plain(AcquisitionConnectionLost)).accepted
              && Apply(s, Plain(AcquisitionConnectionLost)).server.run == ControlConnected
    ensures s.run == Configuring ==>
              Apply(s, Plain(ControlConnectionLost)).server.run == Error
              && Apply(s, Plain(AcquisitionConnectionLost)).server.run == Error
  {
  }

  /** The events that only report how a connection attempt or a recovery went. */
  lemma AttemptsAndRecoveries(s: Server, e: Event)
    ensures e.kind == ControlConnectionSucceeded ==>
              (Apply(s, e).accepted <==> Proper(e) && s.run == Disconnected) && (Apply(s, e).accepted ==> Apply(s, e).server.run == ControlConnected)
    ensures e.kind == ControlConnectionFailed ==>
              (Apply(s, e).accepted <==> Proper(e) && s.run == Disconnected) && Apply(s, e).server.run == s.run
    ensures e.kind == AcquisitionConnectionSucceeded ==>
              (Apply(s, e).accepted <==> Proper(e) && s.run == ControlConnected) && (Apply(s, e).accepted ==> Apply(s, e).server.run == Connected)
    ensures e.kind == AcquisitionConnectionFailed ==>
              (Apply(s, e).accepted <==> Proper(e) && s.run in {Disconnected, ControlConnected}) && Apply(s, e).server.run == s.run
    ensures e.kind == RecoveryStarted ==>
              (Apply(s, e).accepted <==> Proper(e) && s.run == Error) && (Apply(s, e).accepted ==> Apply(s, e).server.run == Configuring)
    ensures e.kind == RecoverySucceeded ==>
              (Apply(s, e).accepted <==> Proper(e) && s.run == Configuring) && (Apply(s, e).accepted ==> Apply(s, e).server.run == Ready)
    ensures e.kind == RecoveryFailed ==>
              (Apply(s, e).accepted <==> Proper(e) && s.run == Configuring) && (Apply(s, e).accepted ==> Apply(s, e).server.run == Error)
    ensures e.kind in {StopRequested, ReceiverCompleted} && Apply(s, e).accepted ==> s.run == Acquiring
    ensures e.kind in {FinalizationSucceeded, FinalizationFailed} && Apply(s, e).accepted ==> s.run == Finalizing
  {
    BranchAlwaysFits(s.run, e);
  }

  // ---- the end of a session ----

  /** What ends an acquisition. */
  predicate EndsSession(kind: ServerEvent) {
    kind in {StopRequested, ReceiverCompleted, DisconnectRequested, ControlConnectionLost, AcquisitionConnectionLost}
  }

  /** In ACQUIRING such an event is refused only for its form; every operational client finalizes. */
  lemma SessionStops(s: Server, e: Event)
    requires s.run == Acquiring && EndsSession(e.kind)
    ensures Apply(s, e).accepted <==> e.described && (e.terminal.Some? ==> AllowedTerminal(e.terminal.value))
    ensures Apply(s, e).accepted ==>
              var after := Apply(s, e).server;
              && after.run == Finalizing && after.previous == Some(Acquiring)
              && after.clients.Keys == s.clients.Keys
              && forall c | c in s.clients :: after.clients[c] ==
                   if s.clients[c].operational then s.clients[c].(state := CFinalizing, previous := Some(s.clients[c].state))
                   else s.clients[c]
  {
    BranchAlwaysFits(s.run, e);
  }

  /** The same finalization: refused events, losses, admissions and exclusions leave its target. */
  ghost predicate SameFinalization(s: Server, after: Server) {
    after.run == s.run == Finalizing && after.pendingTerminal == s.pendingTerminal && after.pendingEvent == s.pendingEvent
  }

  lemma InterimKeepsTarget(s: Server, step: ProtocolStep)
    requires s.run == Finalizing && Interim(s, step)
    ensures SameFinalization(s, Take(s, step))
  {
    if step.Handle? {
      RefusedEventChangesNothing(s, step.event);
    }
  }

  lemma {:induction false} WaitingKeepsTarget(s: Server, steps: seq<ProtocolStep>)
    requires Invariant(s) && s.run == Finalizing && Waiting(s, steps)
    ensures SameFinalization(s, Run(s, steps)) && Invariant(Run(s, steps))
  {
    if steps != [] {
      var before := steps[..|steps| - 1];
      assert forall i | 0 <= i < |before| :: before[..i] == steps[..i] && before[i] == steps[i];
      WaitingKeepsTarget(s, before);
      InterimKeepsTarget(Run(s, before), steps[|steps| - 1]);
      InvariantAfter(Run(s, before), steps[|steps| - 1]);
    }
  }

  /** The end of a finalization for every client, by the state the server ends in: only READY leaves
      the finalized clients operational, and nobody else moves. */
  ghost predicate FinalizedInto(s: Server, after: Server, terminal: ServerFsm) {
    && after.run == terminal && after.previous == Some(Finalizing)
    && after.pendingTerminal == None && after.pendingEvent == None
    && after.clients.Keys == s.clients.Keys
    && forall c | c in s.clients :: after.clients[c] ==
         if s.clients[c].state == CFinalizing then
           s.clients[c].(
             previous := Some(CFinalizing),
             operational := terminal == Ready,
             state := if terminal == Ready then CReady
                      else if terminal == Disconnected then CDisconnected
                      else if terminal == Error then CError
                      else CConnected)
         else s.clients[c]
  }

  lemma FinalizationOf(s: Server, result: Event, terminal: ServerFsm)
    requires Invariant(s) && s.run == Finalizing && s.pendingTerminal == Some(terminal)
    requires result.kind in {FinalizationSucceeded, FinalizationFailed} && Proper(result)
    ensures Apply(s, result).accepted && FinalizedInto(s, Apply(s, result).server, terminal)
  {
    assert BranchOf(s.run, result) == LeaveFinalizing;
    forall c | c in s.clients
      ensures s.clients[c].operational ==> s.clients[c].state == CFinalizing
      ensures s.clients[c].state == CFinalizing ==> s.clients[c].operational && s.clients[c].onControl
    {
      assert RecordCoupled(s.run, s.clients[c]);
    }
  }

  lemma EndAfterWaiting(s: Server, steps: seq<ProtocolStep>, result: Event, terminal: ServerFsm)
    requires Invariant(s) && s.run == Finalizing && s.pendingTerminal == Some(terminal) && Waiting(s, steps)
    requires result.kind in {FinalizationSucceeded, FinalizationFailed} && Proper(result)
    ensures var mid := Run(s, steps);
            mid.run == Finalizing && Apply(mid, result).accepted && FinalizedInto(mid, Apply(mid, result).server, terminal)
  {
    WaitingKeepsTarget(s, steps);
    FinalizationOf(Run(s, steps), result, terminal);
  }

  /** A whole end of a session, with any losses, admissions, exclusions and refused events before
      the result: a disconnect and a lost Control Plane end in DISCONNECTED, a lost Acquisition
      Plane in CONTROL_CONNECTED, a stop where it was asked to, or in READY. */
  lemma SessionEnds(s: Server, e: Event, steps: seq<ProtocolStep>, result: Event)
    requires Invariant(s) && s.run == Acquiring && EndsSession(e.kind) && Apply(s, e).accepted
    requires Waiting(Apply(s, e).server, steps)
    requires result.kind in {FinalizationSucceeded, FinalizationFailed} && Proper(result)
    ensures var mid := Run(Apply(s, e).server, steps);
            && mid.run == Finalizing
            && Apply(mid, result).accepted
            && FinalizedInto(mid, Apply(mid, result).server,
                 if e.kind == DisconnectRequested || e.kind == ControlConnectionLost then Disconnected
                 else if e.kind == AcquisitionConnectionLost then ControlConnected
                 else if e.terminal.Some? then e.terminal.value
                 else Ready)
  {
    BranchAlwaysFits(s.run, e);
    assert BranchOf(s.run, e) == EnterFinalizing;
    var finalizing := Apply(s, e).server;
    InvariantAfter(s, Handle(e));
    EndAfterWaiting(finalizing, steps, result, finalizing.pendingTerminal.value);
  }

  /** A disconnect requested during a finalization replaces its target, whatever that was. */
  lemma LaterDisconnectWins(s: Server, e: Event, steps: seq<ProtocolStep>, result: Event)
    requires Invariant(s) && s.run == Finalizing && e.kind == DisconnectRequested && e.described
    requires e.terminal.Some? ==> AllowedTerminal(e.terminal.value)
    requires Waiting(Apply(s, e).server, steps)
    requires result.kind in {FinalizationSucceeded, FinalizationFailed} && Proper(result)
    ensures Apply(s, e).accepted
    ensures var mid := Run(Apply(s, e).server, steps);
            && Apply(mid, result).accepted
            && FinalizedInto(mid, Apply(mid, result).server, Disconnected)
  {
    assert BranchOf(s.run, e) == EnterFinalizing;
    InvariantAfter(s, Handle(e));
    EndAfterWaiting(Apply(s, e).server, steps, result, Disconnected);
  }
}
