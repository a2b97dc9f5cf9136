/** Invariants of the server over every run of events, admissions and client losses. */
module Protocol {
  import opened Fsm
  import opened Registry

  // ---- the planes ----

  /** An operational client is on both planes, and the other planes rest on the Control Plane. */
  ghost predicate Planes(s: Server) {
    forall c | c in s.clients ::
      && s.clients[c].onControl
      && (s.clients[c].operational ==> s.clients[c].onAcquisition)
  }

  /** Every operation on the registry, in the protocol or not. */
  datatype Operation =
    | Process(event: Event)
    | ProcessClient(c: ClientId, clientEvent: ClientEvent)
    | Add(c: ClientId, identity: Option<Identity>)
    | Join(c: ClientId, plane: Plane)
    | Remove(c: ClientId, plane: Plane)
    | Exclude(c: ClientId)
    | ClearPlane(plane: Plane)
    | ReplaceOperational(ids: set<ClientId>)
    | DropOperational
    | Reset
    | DropPending

  ghost predicate Legal(op: Operation) {
    match op
    case Add(c, _) => c != ""
    case Join(_, plane) => plane != Control
    case ClearPlane(plane) => plane != Control
    case _ => true
  }

  function Perform(s: Server, op: Operation): Server
    requires Legal(op)
  {
    match op
    case Process(e) => Apply(s, e).server
    case ProcessClient(c, e) => ApplyClientEvent(s, c, e).server
    case Add(c, identity) => AddControl(s, c, identity)
    case Join(c, plane) => AddOn(s, c, plane)
    case Remove(c, plane) =>
      if plane == Control then Forget(s, c)
      else if plane == Acquisition then RemoveAcquisition(s, c)
      else RemoveMonitoring(s, c)
    case Exclude(c) => RemoveOperational(s, c)
    case ClearPlane(plane) => if plane == Acquisition then ClearAcquisition(s) else ClearMonitoring(s)
    case ReplaceOperational(ids) => SetOperational(s, ids).server
    case DropOperational => ClearOperational(s)
    case Reset => ResetToDisconnected(s)
    case DropPending => ClearPending(s)
  }

  function PerformAll(s: Server, ops: seq<Operation>): Server
    requires forall op | op in ops :: Legal(op)
  {
    if ops == [] then s else Perform(PerformAll(s, ops[..|ops| - 1]), ops[|ops| - 1])
  }

  /** The client state that goes with an operational client. */
  function Matching(run: ServerFsm): ClientFsm {
    match run
    case Acquiring => CAcquiring
    case Finalizing => CFinalizing
    case _ => CReady
  }

  /** Server and client machines move together, in both directions. */
  ghost predicate RecordCoupled(run: ServerFsm, r: ClientRecord) {
    && (r.operational ==> r.state == Matching(run))
    && (r.state == CAcquiring ==> run == Acquiring && r.operational)
    && (r.state == CFinalizing ==> run == Finalizing && r.operational)
  }

  ghost predicate Coupled(s: Server) {
    forall c | c in s.clients :: RecordCoupled(s.run, s.clients[c])
  }

  // ---- one event, one record ----

  /** What an event does to one registration: nobody is registered, forgotten or moved between
      planes, only a client on both planes becomes operational, and the coupling is kept. */
  ghost predicate Kept(s: Server, after: Server, c: ClientId) {
    && (c in after.clients <==> c in s.clients)
    && (c in s.clients ==>
      var r, q := s.clients[c], after.clients[c];
      && q.onControl == r.onControl
      && q.onAcquisition == r.onAcquisition
      && q.onMonitoring == r.onMonitoring
      && (q.operational ==> r.operational || (r.onControl && r.onAcquisition))
      && (RecordCoupled(s.run, r) ==> RecordCoupled(after.run, q)))
  }

  /** The pending targets are states a finalization or a failed round may end in. */
  ghost predicate TargetsAllowed(s: Server) {
    && (s.pendingTerminal.Some? ==> AllowedTerminal(s.pendingTerminal.value))
    && (s.configurationSource.Some? ==> s.configurationSource.value in {Connected, Ready})
  }

  lemma StartKeeps(s: Server, e: Event, c: ClientId)
    requires s.run in {Connected, Ready}
    ensures Kept(s, ApplyConfigurationStarted(s, e).server, c)
  {
    var outcome := ApplyConfigurationStarted(s, e);
    if outcome.accepted && c in s.clients {
      assert outcome.server.clients[c]
          == StartedRecord(s.clients[c], c in IdsOr(e.targets, Common(s.clients)), e.partial);
    }
  }

  lemma SucceededKeeps(s: Server, succeeded: set<ClientId>, failed: set<ClientId>, c: ClientId)
    requires s.run == Configuring
    ensures Kept(s, ApplySucceeded(s, succeeded, failed).server, c)
  {
    var outcome := ApplySucceeded(s, succeeded, failed);
    if outcome.accepted && c in s.clients {
      assert outcome.server.clients[c]
          == SucceededRecord(s.clients[c], c in succeeded, c in failed, s.configurationPartial);
    }
  }

  lemma FailedKeeps(s: Server, failed: set<ClientId>, c: ClientId)
    requires s.run == Configuring && TargetsAllowed(s)
    ensures Kept(s, ApplyFailed(s, failed).server, c)
  {
    if c in s.clients && failed == InState(s.clients, CConfiguring) {
      assert ApplyFailed(s, failed).server.clients[c] == FailedRecord(s.clients[c], c in failed, s.configurationPartial);
    }
  }

  lemma VerdictKeeps(s: Server, verdict: Verdict, c: ClientId)
    requires s.run == Configuring && TargetsAllowed(s)
    ensures Kept(s, ApplyVerdict(s, verdict).server, c)
  {
    match verdict
    case Malformed =>
    case Success(succeeded, failed) => SucceededKeeps(s, succeeded, failed, c);
    case Failure(failed) => FailedKeeps(s, failed, c);
  }

  lemma AcquireKeeps(s: Server, e: Event, c: ClientId)
    requires s.run == Ready
    ensures Kept(s, ApplyAcquisitionStarted(s, e).server, c)
  {
    var outcome := ApplyAcquisitionStarted(s, e);
    if outcome.accepted && c in s.clients {
      assert outcome.server.clients[c] == AcquiringRecord(s.clients[c], c in IdsOr(e.active, Operational(s.clients)));
    }
  }

  lemma FatalKeeps(s: Server, c: ClientId)
    ensures Kept(s, ApplyFatalError(s).server, c)
  {
  }

  lemma EnterFinalizingKeeps(s: Server, e: Event, c: ClientId)
    requires s.run in {Acquiring, Finalizing}
    ensures Kept(s, ApplyFinalizing(s, e).server, c)
  {
  }

  lemma LeaveFinalizingKeeps(s: Server, c: ClientId)
    requires s.run == Finalizing && TargetsAllowed(s)
    ensures Kept(s, ApplyFinalization(s).server, c)
  {
  }

  lemma BranchKeeps(s: Server, e: Event, branch: Branch, c: ClientId)
    requires TargetsAllowed(s) && BranchFits(s.run, branch, e)
    ensures Kept(s, ApplyBranch(s, e, branch).server, c)
  {
    match branch
    case Refusal =>
    case Start => StartKeeps(s, e, c);
    case Result => VerdictKeeps(s, VerdictOf(InState(s.clients, CConfiguring), e), c);
    case Acquire => AcquireKeeps(s, e, c);
    case Fatal => FatalKeeps(s, c);
    case EnterFinalizing => EnterFinalizingKeeps(s, e, c);
    case LeaveFinalizing => LeaveFinalizingKeeps(s, c);
    case Move(_) =>
  }

  lemma TargetsAllowedAfter(s: Server, e: Event)
    requires TargetsAllowed(s)
    ensures TargetsAllowed(Apply(s, e).server)
  {
    BranchAlwaysFits(s.run, e);
    if BranchOf(s.run, e) == Result {
      VerdictAllows(s, VerdictOf(InState(s.clients, CConfiguring), e));
    } else {
      BranchAllows(s, e, BranchOf(s.run, e));
    }
  }

  lemma VerdictAllows(s: Server, verdict: Verdict)
    requires TargetsAllowed(s)
    ensures TargetsAllowed(ApplyVerdict(s, verdict).server)
  {
  }

  lemma BranchAllows(s: Server, e: Event, branch: Branch)
    requires TargetsAllowed(s) && BranchFits(s.run, branch, e) && branch != Result
    ensures TargetsAllowed(ApplyBranch(s, e, branch).server)
  {
  }

  lemma EventKeeps(s: Server, e: Event, c: ClientId)
    requires TargetsAllowed(s)
    ensures Kept(s, Apply(s, e).server, c)
  {
    BranchAlwaysFits(s.run, e);
    BranchKeeps(s, e, BranchOf(s.run, e), c);
  }

  /** Operations on one registration. */
  lemma PlanesOfOne(s: Server, op: Operation)
    requires Planes(s) && TargetsAllowed(s) && Legal(op)
    requires op.ProcessClient? || op.Add? || op.Join? || op.Remove? || op.Exclude?
    ensures Planes(Perform(s, op)) && TargetsAllowed(Perform(s, op))
  {
    var after := Perform(s, op);
    forall d | d in after.clients
      ensures after.clients[d].onControl && (after.clients[d].operational ==> after.clients[d].onAcquisition)
    {
      assert d != op.c ==> d in s.clients && after.clients[d] == s.clients[d];
    }
  }

  /** Operations on all of them. */
  lemma PlanesOfAll(s: Server, op: Operation)
    requires Planes(s) && TargetsAllowed(s) && Legal(op)
    requires op.ClearPlane? || op.ReplaceOperational? || op.DropOperational? || op.Reset? || op.DropPending?
    ensures Planes(Perform(s, op)) && TargetsAllowed(Perform(s, op))
  {
  }

  lemma PlanesAfter(s: Server, op: Operation)
    requires Planes(s) && TargetsAllowed(s) && Legal(op)
    ensures Planes(Perform(s, op)) && TargetsAllowed(Perform(s, op))
  {
    if op.ProcessClient? || op.Add? || op.Join? || op.Remove? || op.Exclude? {
      PlanesOfOne(s, op);
    } else if !op.Process? {
      PlanesOfAll(s, op);
    } else {
      TargetsAllowedAfter(s, op.event);
      forall c | c in Perform(s, op).clients
        ensures Kept(s, Perform(s, op), c)
      {
        EventKeeps(s, op.event, c);
      }
    }
  }

  /** The plane invariant holds in every reachable state, and turns can_start_acquisition
      into "READY with somebody operational". */
  lemma {:induction false} PlanesAlways(ops: seq<Operation>)
    requires forall op | op in ops :: Legal(op)
    ensures Planes(PerformAll(INITIAL, ops)) && TargetsAllowed(PerformAll(INITIAL, ops))
    ensures var s := PerformAll(INITIAL, ops);
            CanStartAcquisition(s) <==> s.run == Ready && exists c :: c in s.clients && s.clients[c].operational
  {
    if ops != [] {
      PlanesAlways(ops[..|ops| - 1]);
      PlanesAfter(PerformAll(INITIAL, ops[..|ops| - 1]), ops[|ops| - 1]);
    }
    var s := PerformAll(INITIAL, ops);
    assert Operational(s.clients) <= Common(s.clients);
    if c :| c in s.clients && s.clients[c].operational {
      assert c in Operational(s.clients);
    }
  }

  // ---- the protocol ----

  /** The steps the running program takes: whole events, admissions, client losses, and the exclusion
      of a client from the next acquisitions once its session is over. */
  datatype Step =
    | Handle(event: Event)
    | Admission(c: ClientId, plane: Plane, identity: Option<Identity>)
    | Loss(c: ClientId, plane: Plane)
    | Exclusion(c: ClientId)

  type ProtocolStep = step: Step | step.Admission? ==> step.c != "" witness Loss("", Control)

  predicate InSession(s: Server, c: ClientId) {
    c in s.clients && s.clients[c].state in {CAcquiring, CFinalizing}
  }

  /** An exclusion waits for the end of the session. */
  function ExcludeClient(s: Server, c: ClientId): Server {
    if InSession(s, c) then s else RemoveOperational(s, c)
  }

  function Take(s: Server, step: ProtocolStep): Server {
    match step
    case Handle(e) => Apply(s, e).server
    case Admission(c, plane, identity) => Admit(s, c, plane, identity)
    case Loss(c, plane) => Lose(s, c, plane)
    case Exclusion(c) => ExcludeClient(s, c)
  }

  function Run(s: Server, steps: seq<ProtocolStep>): Server {
    if steps == [] then s else Take(Run(s, steps[..|steps| - 1]), steps[|steps| - 1])
  }

  lemma AdmissionKeepsCoupling(s: Server, c: ClientId, plane: Plane, identity: Option<Identity>)
    requires Coupled(s) && Planes(s) && c != ""
    ensures Coupled(Admit(s, c, plane, identity)) && Planes(Admit(s, c, plane, identity))
  {
    LossKeepsCoupling(s, c, plane);
    var left := Lose(s, c, plane);
    if plane == Control {
      AddKeepsCoupling(left, c, identity);
    }
  }

  lemma AddKeepsCoupling(s: Server, c: ClientId, identity: Option<Identity>)
    requires Coupled(s) && Planes(s) && c != ""
    ensures Coupled(AddControl(s, c, identity)) && Planes(AddControl(s, c, identity))
  {
  }

  lemma LossKeepsCoupling(s: Server, c: ClientId, plane: Plane)
    requires Coupled(s) && Planes(s)
    ensures Coupled(Lose(s, c, plane)) && Planes(Lose(s, c, plane))
  {
  }

  lemma ExclusionKeepsCoupling(s: Server, c: ClientId)
    requires Coupled(s) && Planes(s)
    ensures Coupled(ExcludeClient(s, c)) && Planes(ExcludeClient(s, c))
  {
  }

  ghost predicate Invariant(s: Server) {
    Coupled(s) && Planes(s) && TargetsAllowed(s)
  }

  lemma EventKeepsInvariant(s: Server, e: Event)
    requires Invariant(s)
    ensures Invariant(Apply(s, e).server)
  {
    var after := Apply(s, e).server;
    TargetsAllowedAfter(s, e);
    forall c | c in after.clients
      ensures Kept(s, after, c)
    {
      EventKeeps(s, e, c);
    }
  }

  lemma InvariantAfter(s: Server, step: ProtocolStep)
    requires Invariant(s)
    ensures Invariant(Take(s, step))
  {
    match step
    case Handle(e) => EventKeepsInvariant(s, e);
    case Admission(c, plane, identity) => AdmissionKeepsCoupling(s, c, plane, identity);
    case Loss(c, plane) => LossKeepsCoupling(s, c, plane);
    case Exclusion(c) => ExclusionKeepsCoupling(s, c);
  }

  lemma {:induction false} InvariantAlways(steps: seq<ProtocolStep>)
    ensures Invariant(Run(INITIAL, steps))
  {
    if steps != [] {
      InvariantAlways(steps[..|steps| - 1]);
      InvariantAfter(Run(INITIAL, steps[..|steps| - 1]), steps[|steps| - 1]);
    }
  }

  /** Over every run a client is ACQUIRING or FINALIZING exactly while it is operational and the
      server is in that same state, so no client is stranded when the session ends. */
  lemma CoupledAlways(steps: seq<ProtocolStep>, c: ClientId)
    requires c in Run(INITIAL, steps).clients
    ensures var s := Run(INITIAL, steps);
            var r := s.clients[c];
            && (r.state == CAcquiring <==> s.run == Acquiring && r.operational)
            && (r.state == CFinalizing <==> s.run == Finalizing && r.operational)
  {
    InvariantAlways(steps);
  }
}
