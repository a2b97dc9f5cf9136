/** What every registry operation, loss and admission does to who is registered where. */
module Membership {
  import opened Fsm
  import opened Registry
  import opened Protocol

  /** Nothing is different but the records of this client. */
  ghost predicate OnlyOne(s: Server, after: Server, c: ClientId) {
    && after.(clients := s.clients, byMac := s.byMac) == s
    && forall d | d != c :: (d in after.clients <==> d in s.clients) && (d in s.clients ==> after.clients[d] == s.clients[d])
  }

  /** Registration: a new record, or the old one with the Control Plane and, if given, the identity. */
  lemma AddedControl(s: Server, c: ClientId, identity: Option<Identity>)
    requires c != ""
    ensures var after := AddControl(s, c, identity);
            && OnlyOne(s, after, c)
            && c in after.clients && after.clients[c].onControl
            && (if c in s.clients then
                  after.clients[c] == s.clients[c].(onControl := true, identity := after.clients[c].identity)
                else
                  && after.clients[c].state == CConnected && !after.clients[c].operational
                  && !after.clients[c].onAcquisition && !after.clients[c].onMonitoring)
            && (identity.Some? ==> after.clients[c].identity == identity)
            && (identity == None ==> after.clients[c].identity == if c in s.clients then s.clients[c].identity else None)
  {
  }

  /** The MAC index learns every identity that has a MAC, and nothing else. */
  lemma MacIndexLearns(s: Server, c: ClientId, identity: Option<Identity>, mac: string)
    requires c != ""
    ensures var after := AddControl(s, c, identity);
            if identity.Some? && identity.value.mac == mac && mac != "" then mac in after.byMac && after.byMac[mac] == c
            else (mac in after.byMac <==> mac in s.byMac) && (mac in s.byMac ==> after.byMac[mac] == s.byMac[mac])
  {
  }

  /** The MAC index forgets a client with its registration, unless the MAC has moved on. */
  lemma MacIndexForgets(s: Server, c: ClientId, mac: string)
    ensures var after := Forget(s, c);
            mac in after.byMac <==>
              mac in s.byMac && !(s.byMac[mac] == c && c in s.clients && s.clients[c].identity.Some? && s.clients[c].identity.value.mac == mac)
    ensures mac in Forget(s, c).byMac ==> Forget(s, c).byMac[mac] == s.byMac[mac]
  {
  }

  /** A client joins the other planes only from the Control Plane, and with nothing else changed. */
  lemma Joined(s: Server, c: ClientId, plane: Plane)
    requires plane != Control
    ensures var after := AddOn(s, c, plane);
            && OnlyOne(s, after, c)
            && (!OnPlane(s, c, Control) ==> after == s)
            && (OnPlane(s, c, Control) ==>
                 && c in after.clients
                 && after.clients[c] == (if plane == Acquisition then s.clients[c].(onAcquisition := true) else s.clients[c].(onMonitoring := true)))
  {
  }

  /** The client state after the loss of the Acquisition Plane. */
  function StateAfterLoss(state: ClientFsm): ClientFsm {
    match state
    case CDisconnected => CDisconnected
    case CConnected => CConnected
    case CReady => CConnected
    case CConfiguring => CError
    case CAcquiring => CError
    case CFinalizing => CError
    case CError => CError
  }

  /** The loss of a plane: nothing if the client was not there, and nobody else is touched. */
  lemma Lost(s: Server, c: ClientId, plane: Plane)
    ensures var after := Lose(s, c, plane);
            && OnlyOne(s, after, c)
            && (!OnPlane(s, c, plane) ==> after == s)
            && (OnPlane(s, c, plane) && plane == Control ==> c !in after.clients)
            && (OnPlane(s, c, plane) && plane == Acquisition ==>
                 && c in after.clients
                 && after.clients[c] == s.clients[c].(
                      onAcquisition := false, operational := false, state := StateAfterLoss(s.clients[c].state),
                      previous := if s.clients[c].state == CDisconnected then s.clients[c].previous else Some(s.clients[c].state)))
            && (OnPlane(s, c, plane) && plane == Monitoring ==>
                 c in after.clients && after.clients[c] == s.clients[c].(onMonitoring := false))
  {
  }

  /** A handshake on the Control Plane always begins a new registration: nothing of an earlier one
      stays, neither planes nor state nor identity. */
  lemma AdmittedToControl(s: Server, c: ClientId, identity: Option<Identity>)
    requires c != "" && Planes(s)
    ensures var after := Admit(s, c, Control, identity);
            && OnlyOne(s, after, c)
            && c in after.clients
            && after.clients[c] == ClientRecord(CConnected, None, identity, true, false, false, false)
  {
  }

  /** A handshake on another plane puts a registered client there, as after a loss of that plane. */
  lemma AdmittedElsewhere(s: Server, c: ClientId, plane: Plane, identity: Option<Identity>)
    requires c != "" && Planes(s) && plane != Control
    ensures var after := Admit(s, c, plane, identity);
            && OnlyOne(s, after, c)
            && (c in after.clients <==> c in s.clients)
            && (c in s.clients ==> OnPlane(after, c, plane) && OnPlane(after, c, Control))
            && (c in s.clients && !OnPlane(s, c, plane) ==> after.clients[c].state == s.clients[c].state)
            && (c in s.clients && OnPlane(s, c, Acquisition) && plane == Acquisition ==>
                 after.clients[c].state == StateAfterLoss(s.clients[c].state) && !after.clients[c].operational)
  {
  }

  /** Leaving one plane, the operational set, or everything. */
  lemma Removed(s: Server, c: ClientId)
    ensures OnlyOne(s, RemoveAcquisition(s, c), c) && OnlyOne(s, RemoveMonitoring(s, c), c)
    ensures OnlyOne(s, RemoveOperational(s, c), c) && OnlyOne(s, Forget(s, c), c)
    ensures c !in Forget(s, c).clients
    ensures c in s.clients ==>
              && c in RemoveAcquisition(s, c).clients && c in RemoveMonitoring(s, c).clients && c in RemoveOperational(s, c).clients
              && RemoveAcquisition(s, c).clients[c] == s.clients[c].(onAcquisition := false, operational := false)
              && RemoveMonitoring(s, c).clients[c] == s.clients[c].(onMonitoring := false)
              && RemoveOperational(s, c).clients[c] == s.clients[c].(operational := false)
  {
  }

  /** Operations on everybody. */
  lemma Cleared(s: Server, c: ClientId)
    requires c in s.clients
    ensures c in ClearAcquisition(s).clients && !ClearAcquisition(s).clients[c].onAcquisition
    ensures ClearAcquisition(s).clients[c].operational <==> s.clients[c].operational && !s.clients[c].onAcquisition
    ensures c in ClearMonitoring(s).clients && ClearMonitoring(s).clients[c] == s.clients[c].(onMonitoring := false)
    ensures c in ClearOperational(s).clients && ClearOperational(s).clients[c] == s.clients[c].(operational := false)
    ensures c in ResetToDisconnected(s).clients && ResetToDisconnected(s).clients[c] == s.clients[c].(operational := false)
    ensures ResetToDisconnected(s).run == Disconnected
    ensures ResetToDisconnected(s).pendingTerminal == None && ResetToDisconnected(s).pendingEvent == None
  {
  }

  /** The operational set can be replaced only by clients on both planes, and then is that set. */
  lemma OperationalReplaced(s: Server, ids: set<ClientId>)
    ensures SetOperational(s, ids).accepted <==>
              forall c | c in ids :: OnPlane(s, c, Control) && OnPlane(s, c, Acquisition)
    ensures SetOperational(s, ids).accepted ==> Operational(SetOperational(s, ids).server.clients) == ids
    ensures !SetOperational(s, ids).accepted ==> SetOperational(s, ids).server == s
  {
    if forall c | c in ids :: OnPlane(s, c, Control) && OnPlane(s, c, Acquisition) {
      assert ids <= Common(s.clients);
    }
  }
}
