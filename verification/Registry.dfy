/** What the server knows: its own state, the client registry, and what every
    registry or event operation does to them, on values. */
module Registry {
  import opened Fsm

  /** ZMQ identity of a client; the empty one is never valid. */
  type ClientId = string

  datatype Identity = Identity(multipmtId: string, batchId: string, mac: string)

  datatype Plane = Control | Acquisition | Monitoring

  datatype ClientRecord = ClientRecord(
    state: ClientFsm,
    previous: Option<ClientFsm>,
    identity: Option<Identity>,
    onControl: bool,
    onAcquisition: bool,
    onMonitoring: bool,
    operational: bool)

  type Clients = map<ClientId, ClientRecord>

  datatype Server = Server(
    run: ServerFsm,
    previous: Option<ServerFsm>,
    pendingEvent: Option<ServerEvent>,
    pendingTerminal: Option<ServerFsm>,
    configurationSource: Option<ServerFsm>,
    configurationPartial: bool,
    clients: Clients,
    byMac: map<string, ClientId>)

  const NEW_RECORD := ClientRecord(CConnected, None, None, false, false, false, false)

  const INITIAL := Server(Disconnected, None, None, None, None, false, map[], map[])

  /** An optional metadata entry holding client ids. */
  datatype Listed = Absent | Given(ids: seq<ClientId>)

  /** A call of process_event; `described` says that reason and source are not blank. */
  datatype Event = Event(
    kind: ServerEvent,
    described: bool,
    terminal: Option<ServerFsm>,
    targets: Listed,
    partial: bool,
    successful: Listed,
    failed: Listed,
    active: Listed)

  datatype Outcome = Outcome(server: Server, accepted: bool)

  function Plain(kind: ServerEvent): Event {
    Event(kind, true, None, Absent, false, Absent, Absent, Absent)
  }

  // ---- queries ----

  function Ids(ids: seq<ClientId>): set<ClientId> {
    set c | c in ids
  }

  function IdsOr(listed: Listed, default: set<ClientId>): set<ClientId> {
    if listed.Given? then Ids(listed.ids) else default
  }

  function InState(clients: Clients, state: ClientFsm): set<ClientId> {
    set c | c in clients && clients[c].state == state
  }

  function Operational(clients: Clients): set<ClientId> {
    set c | c in clients && clients[c].operational
  }

  function Common(clients: Clients): set<ClientId> {
    set c | c in clients && clients[c].onControl && clients[c].onAcquisition
  }

  predicate OnPlane(s: Server, c: ClientId, plane: Plane) {
    c in s.clients &&
    match plane
    case Control => s.clients[c].onControl
    case Acquisition => s.clients[c].onAcquisition
    case Monitoring => s.clients[c].onMonitoring
  }

  /** can_start_acquisition, as written: every operational client on both planes. */
  predicate CanStartAcquisition(s: Server) {
    && s.run == Ready
    && Operational(s.clients) != {}
    && Operational(s.clients) <= Common(s.clients)
  }

  // ---- what an event does to one record ----

  function InNewState(r: ClientRecord, state: ClientFsm): ClientRecord {
    r.(previous := Some(r.state), state := state)
  }

  /** A partial round leaves the clients it does not target operational. */
  function StartedRecord(r: ClientRecord, target: bool, partial: bool): ClientRecord {
    var cleared := if target || !partial then r.(operational := false) else r;
    if target then InNewState(cleared, CConfiguring) else cleared
  }

  function SucceededRecord(r: ClientRecord, succeeded: bool, failed: bool, partial: bool): ClientRecord {
    var flagged := if succeeded || !partial then r.(operational := succeeded) else r;
    if failed then InNewState(flagged, CError) else if succeeded then InNewState(flagged, CReady) else flagged
  }

  function FailedRecord(r: ClientRecord, failed: bool, partial: bool): ClientRecord {
    var cleared := if failed || !partial then r.(operational := false) else r;
    if failed then InNewState(cleared, CError) else cleared
  }

  function AcquiringRecord(r: ClientRecord, active: bool): ClientRecord {
    var flagged := r.(operational := active);
    if active then InNewState(flagged, CAcquiring) else flagged
  }

  function FatalRecord(r: ClientRecord): ClientRecord {
    if r.operational then InNewState(r, CError).(operational := false) else r
  }

  function FinalizingRecord(r: ClientRecord): ClientRecord {
    if r.operational then InNewState(r, CFinalizing) else r
  }

  /** Only a finalization that ends in READY leaves the clients operational. */
  function FinalizedRecord(r: ClientRecord, terminal: ServerFsm): ClientRecord {
    if !r.operational then r
    else
      match terminal
      case Ready => InNewState(r, CReady)
      case ControlConnected => InNewState(r.(operational := false), if r.onControl then CConnected else CDisconnected)
      case Disconnected => InNewState(r.(operational := false), CDisconnected)
      case Connected => InNewState(r.(operational := false), CConnected)
      case Error => InNewState(r.(operational := false), CError)
      case _ => r
  }

  // ---- process_event ----

  function Refuse(s: Server): Outcome {
    Outcome(s, false)
  }

  /** The last lines of process_event: the state moves on with the updated clients. */
  function Accept(s: Server, next: ServerFsm, clients: Clients): Outcome {
    Outcome(s.(run := next, previous := Some(s.run), clients := clients), true)
  }

  /** CONFIGURATION_STARTED. The source state is recorded before the targets are checked. */
  function ApplyConfigurationStarted(s: Server, e: Event): Outcome {
    var recorded := s.(configurationSource := Some(s.run));
    var targets := IdsOr(e.targets, Common(s.clients));
    if "" in targets || targets == {} || !(targets <= Common(s.clients)) then
      Refuse(recorded)
    else
      Accept(recorded.(configurationPartial := e.partial), Configuring,
             map c | c in s.clients :: StartedRecord(s.clients[c], c in targets, e.partial))
  }

  /** Accepts a configuration result and forgets the round. */
  function EndConfiguration(s: Server, next: ServerFsm, clients: Clients): Outcome {
    Accept(s.(configurationSource := None, configurationPartial := false), next, clients)
  }

  function ApplySucceeded(s: Server, succeeded: set<ClientId>, failed: set<ClientId>): Outcome {
    if succeeded == {} || !(succeeded !! failed)
       || succeeded + failed != InState(s.clients, CConfiguring)
       || !(succeeded <= Common(s.clients)) then
      Refuse(s)
    else
      EndConfiguration(s, Ready,
        map c | c in s.clients ::
          SucceededRecord(s.clients[c], c in succeeded, c in failed, s.configurationPartial))
  }

  /** Where a failed round goes back to. */
  function ConfigurationOrigin(s: Server): ServerFsm {
    if s.configurationSource.Some? then s.configurationSource.value else Connected
  }

  function ApplyFailed(s: Server, failed: set<ClientId>): Outcome {
    if failed != InState(s.clients, CConfiguring) then
      Refuse(s)
    else
      EndConfiguration(s, ConfigurationOrigin(s),
        map c | c in s.clients :: FailedRecord(s.clients[c], c in failed, s.configurationPartial))
  }

  /** A configuration result once the clients no longer under configuration are dropped. */
  datatype Verdict =
    | Malformed
    | Success(succeeded: set<ClientId>, failed: set<ClientId>)
    | Failure(failed: set<ClientId>)

  /** A success with nobody left becomes a failure; a failure that names nobody means everybody,
      unless some client had to be dropped. */
  function VerdictOf(expected: set<ClientId>, e: Event): Verdict {
    var succeeded := IdsOr(e.successful, {});
    var failed := IdsOr(e.failed, {});
    if "" in succeeded || "" in failed then Malformed
    else if succeeded + failed <= expected then
      if e.kind == ConfigurationSucceeded then Success(succeeded, failed) else Failure(IdsOr(e.failed, expected))
    else if e.kind == ConfigurationSucceeded && succeeded * expected != {} then
      Success(succeeded * expected, failed * expected)
    else
      Failure(failed * expected)
  }

  function ApplyVerdict(s: Server, verdict: Verdict): Outcome {
    match verdict
    case Malformed => Refuse(s)
    case Success(succeeded, failed) => ApplySucceeded(s, succeeded, failed)
    case Failure(failed) => ApplyFailed(s, failed)
  }

  /** CONFIGURATION_SUCCEEDED or CONFIGURATION_FAILED in CONFIGURING. */
  function ApplyConfigurationResult(s: Server, e: Event): Outcome {
    ApplyVerdict(s, VerdictOf(InState(s.clients, CConfiguring), e))
  }

  function ApplyAcquisitionStarted(s: Server, e: Event): Outcome {
    var active := IdsOr(e.active, Operational(s.clients));
    if "" in active || active == {}
       || exists c | c in active :: c !in s.clients || !s.clients[c].operational || s.clients[c].state != CReady then
      Refuse(s)
    else
      Accept(s, Acquiring, map c | c in s.clients :: AcquiringRecord(s.clients[c], c in active))
  }

  function ApplyFatalError(s: Server): Outcome {
    var base := if s.run == Finalizing then s.(pendingEvent := None, pendingTerminal := None) else s;
    Accept(base, Error, map c | c in s.clients :: FatalRecord(s.clients[c]))
  }

  /** Where a finalization requested by this event has to end. */
  function TerminalFor(e: Event): ServerFsm {
    match e.kind
    case DisconnectRequested => Disconnected
    case ControlConnectionLost => Disconnected
    case AcquisitionConnectionLost => ControlConnected
    case _ => if e.terminal.Some? then e.terminal.value else Ready
  }

  function ApplyFinalizing(s: Server, e: Event): Outcome {
    Accept(s.(pendingEvent := Some(e.kind), pendingTerminal := Some(TerminalFor(e))), Finalizing,
           map c | c in s.clients :: FinalizingRecord(s.clients[c]))
  }

  function ApplyFinalization(s: Server): Outcome {
    var terminal := if s.pendingTerminal.Some? then s.pendingTerminal.value else Ready;
    Accept(s.(pendingEvent := None, pendingTerminal := None), terminal,
           map c | c in s.clients :: FinalizedRecord(s.clients[c], terminal))
  }

  /** The path process_event takes, decided by the table and the shape of the call. */
  datatype Branch =
    | Refusal
    | Start
    | Result
    | Acquire
    | Fatal
    | EnterFinalizing
    | LeaveFinalizing
    | Move(next: ServerFsm)

  function BranchOf(run: ServerFsm, e: Event): Branch {
    var next := ServerTable(run, e.kind);
    if !e.described || (e.terminal.Some? && !AllowedTerminal(e.terminal.value)) || next.None? then Refusal
    else if next.value == Finalizing then EnterFinalizing
    else if e.terminal.Some? then Refusal
    else
      match e.kind
      case ConfigurationStarted => Start
      case ConfigurationSucceeded => Result
      case ConfigurationFailed => Result
      case AcquisitionStarted => Acquire
      case FatalError => Fatal
      case FinalizationSucceeded => LeaveFinalizing
      case FinalizationFailed => LeaveFinalizing
      case _ => Move(next.value)
  }

  function ApplyBranch(s: Server, e: Event, branch: Branch): Outcome {
    match branch
    case Refusal => Refuse(s)
    case Start => ApplyConfigurationStarted(s, e)
    case Result => ApplyConfigurationResult(s, e)
    case Acquire => ApplyAcquisitionStarted(s, e)
    case Fatal => ApplyFatalError(s)
    case EnterFinalizing => ApplyFinalizing(s, e)
    case LeaveFinalizing => ApplyFinalization(s)
    case Move(next) => Accept(s, next, s.clients)
  }

  /** process_event. */
  function Apply(s: Server, e: Event): Outcome {
    ApplyBranch(s, e, BranchOf(s.run, e))
  }

  /** In which states each path can be taken. */
  ghost predicate BranchFits(run: ServerFsm, branch: Branch, e: Event) {
    match branch
    case Refusal => true
    case Start => run in {Connected, Ready}
    case Result => run == Configuring
    case Acquire => run == Ready
    case Fatal => true
    case EnterFinalizing => run in {Acquiring, Finalizing} && AllowedTerminal(TerminalFor(e))
    case LeaveFinalizing => run == Finalizing
    case Move(next) => run !in {Acquiring, Finalizing} && next !in {Acquiring, Finalizing}
  }

  lemma BranchAlwaysFits(run: ServerFsm, e: Event)
    ensures BranchFits(run, BranchOf(run, e), e)
  {
  }

  // ---- registry ----

  /** process_client_event; the flag says whether the client table had the entry. */
  function ApplyClientEvent(s: Server, c: ClientId, event: ClientEvent): Outcome {
    if c !in s.clients || ClientTable(s.clients[c].state, event).None? then Refuse(s)
    else
      var next := ClientTable(s.clients[c].state, event).value;
      Outcome(s.(clients := s.clients[c := InNewState(s.clients[c], next)]), true)
  }

  function AddControl(s: Server, c: ClientId, identity: Option<Identity>): Server
    requires c != ""
  {
    var known := if c in s.clients then s.clients[c] else NEW_RECORD;
    var r := known.(onControl := true, identity := if identity.Some? then identity else known.identity);
    var byMac := if identity.Some? && identity.value.mac != "" then s.byMac[identity.value.mac := c] else s.byMac;
    s.(clients := s.clients[c := r], byMac := byMac)
  }

  /** A client that is not on the Control Plane is refused. */
  function AddOn(s: Server, c: ClientId, plane: Plane): Server
    requires plane != Control
  {
    if !OnPlane(s, c, Control) then s
    else if plane == Acquisition then s.(clients := s.clients[c := s.clients[c].(onAcquisition := true)])
    else s.(clients := s.clients[c := s.clients[c].(onMonitoring := true)])
  }

  function RemoveAcquisition(s: Server, c: ClientId): Server {
    if c !in s.clients then s
    else s.(clients := s.clients[c := s.clients[c].(onAcquisition := false, operational := false)])
  }

  function RemoveMonitoring(s: Server, c: ClientId): Server {
    if c !in s.clients then s
    else s.(clients := s.clients[c := s.clients[c].(onMonitoring := false)])
  }

  function RemoveOperational(s: Server, c: ClientId): Server {
    if c !in s.clients then s else s.(clients := s.clients[c := s.clients[c].(operational := false)])
  }

  /** _forget_client_locked: the MAC entry goes only if it still points at this client. */
  function Forget(s: Server, c: ClientId): Server {
    if c !in s.clients then s
    else
      var id := s.clients[c].identity;
      var byMac := if id.Some? && id.value.mac in s.byMac && s.byMac[id.value.mac] == c
                   then s.byMac - {id.value.mac} else s.byMac;
      s.(clients := s.clients - {c}, byMac := byMac)
  }

  function ClearAcquisition(s: Server): Server {
    s.(clients := map c | c in s.clients ::
         if s.clients[c].onAcquisition then s.clients[c].(onAcquisition := false, operational := false)
         else s.clients[c])
  }

  function ClearMonitoring(s: Server): Server {
    s.(clients := map c | c in s.clients :: s.clients[c].(onMonitoring := false))
  }

  /** set_operational_clients refuses clients that are not on both planes. */
  function SetOperational(s: Server, ids: set<ClientId>): Outcome {
    if ids <= Common(s.clients) then
      Outcome(s.(clients := map c | c in s.clients :: s.clients[c].(operational := c in ids)), true)
    else Refuse(s)
  }

  function ClearOperational(s: Server): Server {
    s.(clients := map c | c in s.clients :: s.clients[c].(operational := false))
  }

  function ResetToDisconnected(s: Server): Server {
    ClearOperational(s).(run := Disconnected, previous := Some(s.run), pendingEvent := None, pendingTerminal := None)
  }

  function ClearPending(s: Server): Server {
    s.(pendingEvent := None, pendingTerminal := None)
  }

  /** handle_client_lost: what the loss of a client on one plane does to the registry. */
  function Lose(s: Server, c: ClientId, plane: Plane): Server {
    if !OnPlane(s, c, plane) then s
    else
      match plane
      case Control => Forget(s, c)
      case Acquisition => RemoveAcquisition(ApplyClientEvent(s, c, AcquisitionPlaneLost).server, c)
      case Monitoring => RemoveMonitoring(s, c)
  }

  /** Completed handshake on a plane: a client found there already is first considered lost. */
  function Admit(s: Server, c: ClientId, plane: Plane, identity: Option<Identity>): Server
    requires c != ""
  {
    var left := Lose(s, c, plane);
    if plane == Control then AddControl(left, c, identity) else AddOn(left, c, plane)
  }
}
