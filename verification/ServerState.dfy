/** The mutable server state: every method is proved against the operation on values that
    specifies it in `Registry`. */
module StateClass {
  import opened Fsm
  import opened Registry

  function WithState(clients: Clients, ids: set<ClientId>, state: ClientFsm): Clients {
    map c | c in clients :: if c in ids then InNewState(clients[c], state) else clients[c]
  }

  function WithFlag(clients: Clients, ids: set<ClientId>, flag: bool): Clients {
    map c | c in clients :: if c in ids then clients[c].(operational := flag) else clients[c]
  }

  function WithOperational(clients: Clients, ids: set<ClientId>): Clients {
    map c | c in clients :: clients[c].(operational := c in ids)
  }

  lemma SuccessInSteps(clients: Clients, succeeded: set<ClientId>, failed: set<ClientId>, partial: bool)
    requires succeeded !! failed
    ensures var flagged := if partial then WithFlag(clients, succeeded, true) else WithOperational(clients, succeeded);
            WithState(WithState(flagged, succeeded, CReady), failed, CError)
            == map c | c in clients :: SucceededRecord(clients[c], c in succeeded, c in failed, partial)
  {
    var flagged := if partial then WithFlag(clients, succeeded, true) else WithOperational(clients, succeeded);
    var done := WithState(WithState(flagged, succeeded, CReady), failed, CError);
    forall c | c in clients
      ensures done[c] == SucceededRecord(clients[c], c in succeeded, c in failed, partial)
    {
    }
  }

  lemma FinalizingInSteps(clients: Clients)
    ensures WithState(clients, Operational(clients), CFinalizing) == map c | c in clients :: FinalizingRecord(clients[c])
  {
  }

  class ServerState {
    var runState: ServerFsm
    var previousState: Option<ServerFsm>
    var pendingEvent: Option<ServerEvent>
    var pendingTerminal: Option<ServerFsm>
    var configurationSource: Option<ServerFsm>
    var configurationPartial: bool
    var clients: Clients
    var clientIdByMac: map<string, ClientId>

    function View(): Server
      reads this
    {
      Server(runState, previousState, pendingEvent, pendingTerminal, configurationSource, configurationPartial,
             clients, clientIdByMac)
    }

    constructor ()
      ensures View() == INITIAL
    {
      runState := Disconnected;
      previousState := None;
      pendingEvent := None;
      pendingTerminal := None;
      configurationSource := None;
      configurationPartial := false;
      clients := map[];
      clientIdByMac := map[];
    }

    // ---- loops over the records ----

    /** Duplicates are dropped; an empty id makes the whole list invalid. */
    static method NormalizeClientIds(ids: seq<ClientId>) returns (valid: bool, normalized: set<ClientId>)
      ensures normalized == Ids(ids)
      ensures valid <==> "" !in ids
    {
      normalized := {};
      valid := true;
      for i := 0 to |ids|
        invariant normalized == Ids(ids[..i])
        invariant valid <==> "" !in ids[..i]
      {
        normalized := normalized + {ids[i]};
        valid := valid && ids[i] != "";
      }
      assert ids[..|ids|] == ids;
    }

    method SetClientStates(ids: set<ClientId>, state: ClientFsm)
      modifies this`clients
      ensures clients == WithState(old(clients), ids, state)
    {
      var todo := ids;
      while todo != {}
        invariant todo <= ids
        invariant clients == WithState(old(clients), ids - todo, state)
      {
        var c :| c in todo;
        todo := todo - {c};
        if c in clients {
          clients := clients[c := InNewState(clients[c], state)];
        }
      }
      assert ids - todo == ids;
    }

    method SetFlags(ids: set<ClientId>, flag: bool)
      modifies this`clients
      ensures clients == WithFlag(old(clients), ids, flag)
    {
      var todo := clients.Keys;
      while todo != {}
        invariant todo <= old(clients).Keys
        invariant clients == WithFlag(old(clients), ids - todo, flag)
      {
        var c :| c in todo;
        todo := todo - {c};
        if c in ids {
          clients := clients[c := clients[c].(operational := flag)];
        }
      }
    }

    method SetOperationalLocked(ids: set<ClientId>)
      modifies this`clients
      ensures clients == WithOperational(old(clients), ids)
    {
      var todo := clients.Keys;
      while todo != {}
        invariant todo <= old(clients).Keys
        invariant clients == map c | c in old(clients) ::
                               if c in todo then old(clients)[c] else old(clients)[c].(operational := c in ids)
      {
        var c :| c in todo;
        todo := todo - {c};
        clients := clients[c := clients[c].(operational := c in ids)];
      }
    }

    // ---- process_event ----

    method Advance(next: ServerFsm)
      modifies this`runState, this`previousState
      ensures runState == next && previousState == Some(old(runState))
    {
      previousState := Some(runState);
      runState := next;
    }

    method StartConfiguration(e: Event) returns (ok: bool)
      modifies this
      ensures Outcome(View(), ok) == ApplyConfigurationStarted(old(View()), e)
    {
      configurationSource := Some(runState);
      var valid, targets := true, Common(clients);
      if e.targets.Given? {
        valid, targets := NormalizeClientIds(e.targets.ids);
      } else {
        valid := "" !in targets;
      }
      if !valid || targets == {} || !(targets <= Common(clients)) {
        return false;
      }
      BeginRound(targets, e.partial);
      ok := true;
    }

    method BeginRound(targets: set<ClientId>, partial: bool)
      modifies this`configurationPartial, this`clients, this`runState, this`previousState
      ensures configurationPartial == partial && runState == Configuring && previousState == Some(old(runState))
      ensures clients == map c | c in old(clients) :: StartedRecord(old(clients)[c], c in targets, partial)
    {
      configurationPartial := partial;
      if partial {
        SetFlags(targets, false);
      } else {
        SetOperationalLocked({});
      }
      SetClientStates(targets, CConfiguring);
      Advance(Configuring);
    }

    method EndRound(next: ServerFsm)
      modifies this`runState, this`previousState, this`configurationSource, this`configurationPartial
      ensures runState == next && previousState == Some(old(runState))
      ensures configurationSource == None && !configurationPartial
    {
      Advance(next);
      configurationSource := None;
      configurationPartial := false;
    }

    method ConfigurationSucceed(succeeded: set<ClientId>, failed: set<ClientId>) returns (ok: bool)
      modifies this
      ensures Outcome(View(), ok) == ApplySucceeded(old(View()), succeeded, failed)
    {
      if succeeded == {} || !(succeeded !! failed)
         || succeeded + failed != InState(clients, CConfiguring) || !(succeeded <= Common(clients)) {
        return false;
      }
      if configurationPartial {
        SetFlags(succeeded, true);
      } else {
        SetOperationalLocked(succeeded);
      }
      SetClientStates(succeeded, CReady);
      SetClientStates(failed, CError);
      SuccessInSteps(old(clients), succeeded, failed, old(configurationPartial));
      EndRound(Ready);
      ok := true;
    }

    method ConfigurationFail(failed: set<ClientId>) returns (ok: bool)
      modifies this
      ensures Outcome(View(), ok) == ApplyFailed(old(View()), failed)
    {
      if failed != InState(clients, CConfiguring) {
        return false;
      }
      var next := if configurationSource.Some? then configurationSource.value else Connected;
      if configurationPartial {
        SetFlags(failed, false);
      } else {
        SetOperationalLocked({});
      }
      SetClientStates(failed, CError);
      assert clients == map c | c in old(clients) ::
                 FailedRecord(old(clients)[c], c in failed, old(configurationPartial));
      EndRound(next);
      ok := true;
    }

    /** The clients lost in the meantime are dropped before the result is checked. */
    method ConfigurationResult(e: Event) returns (ok: bool)
      modifies this
      ensures Outcome(View(), ok) == ApplyConfigurationResult(old(View()), e)
    {
      var expected := InState(clients, CConfiguring);
      var succeeded: set<ClientId>, failed: set<ClientId> := {}, {};
      var successValid, failureValid := true, true;
      if e.successful.Given? {
        successValid, succeeded := NormalizeClientIds(e.successful.ids);
      }
      if e.failed.Given? {
        failureValid, failed := NormalizeClientIds(e.failed.ids);
      }
      if !successValid || !failureValid {
        return false;
      }
      var kind := e.kind;
      var failedGiven := e.failed.Given?;
      if !(succeeded + failed <= expected) {
        succeeded, failed, failedGiven := succeeded * expected, failed * expected, true;
        if kind == ConfigurationSucceeded && succeeded == {} {
          kind := ConfigurationFailed;
        }
      }
      if kind == ConfigurationSucceeded {
        assert VerdictOf(expected, e) == Success(succeeded, failed);
        ok := ConfigurationSucceed(succeeded, failed);
      } else {
        assert VerdictOf(expected, e) == Failure(if failedGiven then failed else expected);
        ok := ConfigurationFail(if failedGiven then failed else expected);
      }
    }

    method StartAcquisition(e: Event) returns (ok: bool)
      modifies this
      ensures Outcome(View(), ok) == ApplyAcquisitionStarted(old(View()), e)
    {
      var valid, active := true, Operational(clients);
      if e.active.Given? {
        valid, active := NormalizeClientIds(e.active.ids);
      } else {
        valid := "" !in active;
      }
      if !valid || active == {}
         || exists c | c in active :: c !in clients || !clients[c].operational || clients[c].state != CReady {
        return false;
      }
      BeginAcquisition(active);
      ok := true;
    }

    method BeginAcquisition(active: set<ClientId>)
      modifies this`clients, this`runState, this`previousState
      ensures runState == Acquiring && previousState == Some(old(runState))
      ensures clients == map c | c in old(clients) :: AcquiringRecord(old(clients)[c], c in active)
    {
      SetOperationalLocked(active);
      SetClientStates(active, CAcquiring);
      Advance(Acquiring);
    }

    method Fail()
      modifies this
      ensures Outcome(View(), true) == ApplyFatalError(old(View()))
    {
      SetClientStates(Operational(clients), CError);
      SetOperationalLocked({});
      assert clients == map c | c in old(clients) :: FatalRecord(old(clients)[c]);
      if runState == Finalizing {
        pendingEvent := None;
        pendingTerminal := None;
      }
      Advance(Error);
    }

    method BeginFinalization(e: Event)
      modifies this
      ensures Outcome(View(), true) == ApplyFinalizing(old(View()), e)
    {
      var terminal := Ready;
      match e.kind {
        case DisconnectRequested => terminal := Disconnected;
        case ControlConnectionLost => terminal := Disconnected;
        case AcquisitionConnectionLost => terminal := ControlConnected;
        case _ => if e.terminal.Some? { terminal := e.terminal.value; }
      }
      pendingEvent := Some(e.kind);
      pendingTerminal := Some(terminal);
      SetClientStates(Operational(clients), CFinalizing);
      FinalizingInSteps(old(clients));
      Advance(Finalizing);
    }

    method FinalizeClient(c: ClientId, terminal: ServerFsm)
      requires c in clients
      modifies this`clients
      ensures clients == old(clients)[c := FinalizedRecord(old(clients)[c], terminal)]
    {
      var record := clients[c];
      if !record.operational {
        return;
      }
      if terminal == Ready {
        record := InNewState(record, CReady);
      } else if terminal in {ControlConnected, Disconnected, Connected, Error} {
        record := record.(operational := false);
        match terminal {
          case ControlConnected => record := InNewState(record, if record.onControl then CConnected else CDisconnected);
          case Disconnected => record := InNewState(record, CDisconnected);
          case Connected => record := InNewState(record, CConnected);
          case _ => record := InNewState(record, CError);
        }
      }
      clients := clients[c := record];
    }

    method EndFinalization()
      modifies this
      ensures Outcome(View(), true) == ApplyFinalization(old(View()))
    {
      var terminal := if pendingTerminal.Some? then pendingTerminal.value else Ready;
      var todo := clients.Keys;
      while todo != {}
        invariant todo <= old(clients).Keys
        invariant clients == map c | c in old(clients) ::
                               if c in todo then old(clients)[c] else FinalizedRecord(old(clients)[c], terminal)
        invariant unchanged(`runState) && unchanged(`previousState) && unchanged(`clientIdByMac)
        invariant unchanged(`configurationSource) && unchanged(`configurationPartial)
      {
        var c :| c in todo;
        todo := todo - {c};
        FinalizeClient(c, terminal);
      }
      pendingEvent := None;
      pendingTerminal := None;
      Advance(terminal);
    }

    method ProcessEvent(e: Event) returns (ok: bool)
      modifies this
      ensures Outcome(View(), ok) == Apply(old(View()), e)
    {
      match BranchOf(runState, e) {
        case Refusal => ok := false;
        case Start => ok := StartConfiguration(e);
        case Result => ok := ConfigurationResult(e);
        case Acquire => ok := StartAcquisition(e);
        case Fatal => Fail(); ok := true;
        case EnterFinalizing => BeginFinalization(e); ok := true;
        case LeaveFinalizing => EndFinalization(); ok := true;
        case Move(next) => Advance(next); ok := true;
      }
    }

    // ---- registry ----

    method ProcessClientEvent(c: ClientId, event: ClientEvent) returns (ok: bool)
      modifies this
      ensures Outcome(View(), ok) == ApplyClientEvent(old(View()), c, event)
    {
      if c !in clients {
        return false;
      }
      var next := ClientTable(clients[c].state, event);
      if next.None? {
        return false;
      }
      clients := clients[c := InNewState(clients[c], next.value)];
      ok := true;
    }

    method AddControlClient(c: ClientId, identity: Option<Identity>)
      requires c != ""
      modifies this
      ensures View() == AddControl(old(View()), c, identity)
    {
      if c !in clients {
        clients := clients[c := NEW_RECORD];
      }
      clients := clients[c := clients[c].(onControl := true)];
      if identity.Some? {
        clients := clients[c := clients[c].(identity := identity)];
        if identity.value.mac != "" {
          clientIdByMac := clientIdByMac[identity.value.mac := c];
        }
      }
      assert clients == old(clients)[c := clients[c]];
    }

    method AddPlaneClient(c: ClientId, plane: Plane) returns (ok: bool)
      requires plane != Control
      modifies this
      ensures View() == AddOn(old(View()), c, plane)
      ensures ok <==> OnPlane(old(View()), c, Control)
    {
      if c !in clients || !clients[c].onControl {
        return false;
      }
      if plane == Acquisition {
        clients := clients[c := clients[c].(onAcquisition := true)];
      } else {
        clients := clients[c := clients[c].(onMonitoring := true)];
      }
      ok := true;
    }

    method RemoveAcquisitionClient(c: ClientId)
      modifies this
      ensures View() == RemoveAcquisition(old(View()), c)
    {
      if c in clients {
        clients := clients[c := clients[c].(onAcquisition := false, operational := false)];
      }
    }

    method RemoveMonitoringClient(c: ClientId)
      modifies this
      ensures View() == RemoveMonitoring(old(View()), c)
    {
      if c in clients {
        clients := clients[c := clients[c].(onMonitoring := false)];
      }
    }

    method RemoveOperationalClient(c: ClientId)
      modifies this
      ensures View() == RemoveOperational(old(View()), c)
    {
      if c in clients {
        clients := clients[c := clients[c].(operational := false)];
      }
    }

    method RemoveClient(c: ClientId)
      modifies this
      ensures View() == Forget(old(View()), c)
    {
      if c !in clients {
        return;
      }
      var record := clients[c];
      clients := clients - {c};
      if record.identity.None? {
        return;
      }
      var mac := record.identity.value.mac;
      if mac in clientIdByMac && clientIdByMac[mac] == c {
        clientIdByMac := clientIdByMac - {mac};
      }
    }

    method ClearAcquisitionClients()
      modifies this
      ensures View() == ClearAcquisition(old(View()))
    {
      var todo := clients.Keys;
      while todo != {}
        invariant todo <= old(clients).Keys
        invariant View() == old(View()).(clients := clients)
        invariant clients == map c | c in old(clients) ::
                               if c in todo || !old(clients)[c].onAcquisition then old(clients)[c]
                               else old(clients)[c].(onAcquisition := false, operational := false)
      {
        var c :| c in todo;
        todo := todo - {c};
        if clients[c].onAcquisition {
          clients := clients[c := clients[c].(onAcquisition := false, operational := false)];
        }
      }
    }

    method ResetToDisconnectedState()
      modifies this
      ensures View() == ResetToDisconnected(old(View()))
    {
      Advance(Disconnected);
      SetOperationalLocked({});
      pendingEvent := None;
      pendingTerminal := None;
    }
  }
}
