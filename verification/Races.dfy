/** What happens to the coupling when an event slips between the two halves of a client loss. */
module Races {
  import opened Fsm
  import opened Registry
  import opened Protocol
  import opened Rounds

  /** First half of an acquisition-plane loss: the client machine, under one lock. */
  function LossReported(s: Server, c: ClientId): Server {
    ApplyClientEvent(s, c, AcquisitionPlaneLost).server
  }

  /** The whole loss with one event handled between its halves. */
  function InterruptedLoss(s: Server, c: ClientId, e: Event): Server {
    RemoveAcquisition(Apply(LossReported(s, c), e).server, c)
  }

  /** A record whose client has been reported lost. */
  ghost predicate Reported(r: ClientRecord) {
    r.state in {CConnected, CError, CDisconnected}
  }

  lemma ReportedAfterVerdict(s: Server, verdict: Verdict, c: ClientId)
    requires c in s.clients && Reported(s.clients[c])
    ensures var after := ApplyVerdict(s, verdict).server;
            c in after.clients && after.clients[c].state !in {CAcquiring, CFinalizing}
  {
    match verdict
    case Malformed =>
    case Success(succeeded, failed) =>
      if ApplySucceeded(s, succeeded, failed).accepted {
        assert ApplySucceeded(s, succeeded, failed).server.clients[c]
            == SucceededRecord(s.clients[c], c in succeeded, c in failed, s.configurationPartial);
      }
    case Failure(failed) =>
      if ApplyFailed(s, failed).accepted {
        assert ApplyFailed(s, failed).server.clients[c]
            == FailedRecord(s.clients[c], c in failed, s.configurationPartial);
      }
  }

  lemma ReportedAfterAcquire(s: Server, e: Event, c: ClientId)
    requires c in s.clients && Reported(s.clients[c])
    ensures var after := ApplyAcquisitionStarted(s, e).server;
            c in after.clients && after.clients[c].state !in {CAcquiring, CFinalizing}
  {
  }

  lemma ReportedAfterFinalization(s: Server, c: ClientId)
    requires c in s.clients && Reported(s.clients[c])
    ensures var after := ApplyFinalization(s).server;
            c in after.clients && after.clients[c].state !in {CAcquiring, CFinalizing}
  {
  }

  lemma ReportedAfterEvent(s: Server, e: Event, branch: Branch, c: ClientId)
    requires c in s.clients && Reported(s.clients[c])
    ensures var after := ApplyBranch(s, e, branch).server;
            && c in after.clients
            && (after.clients[c].state in {CAcquiring, CFinalizing} <==>
                branch == EnterFinalizing && s.clients[c].operational)
  {
    match branch
    case Start =>
    case Result => ReportedAfterVerdict(s, VerdictOf(InState(s.clients, CConfiguring), e), c);
    case Acquire => ReportedAfterAcquire(s, e, c);
    case Fatal =>
    case EnterFinalizing =>
    case LeaveFinalizing => ReportedAfterFinalization(s, c);
    case _ =>
  }

  /** The coupling survives an event between the halves of a loss exactly when that event does not
      take the server into FINALIZING while the lost client is operational. */
  lemma InterruptedLossCoupling(s: Server, c: ClientId, e: Event)
    requires Invariant(s) && OnPlane(s, c, Acquisition)
    ensures Coupled(InterruptedLoss(s, c, e)) <==>
            !(BranchOf(s.run, e) == EnterFinalizing && s.clients[c].operational)
  {
    var half := LossReported(s, c);
    var after := InterruptedLoss(s, c, e);
    ReportedAfterEvent(half, e, BranchOf(s.run, e), c);
    OthersStayCoupled(s, c, e);
    LostRecordAfter(s, c, e);
  }

  lemma OthersStayCoupled(s: Server, c: ClientId, e: Event)
    requires Invariant(s) && OnPlane(s, c, Acquisition)
    ensures var after := InterruptedLoss(s, c, e);
            forall d | d in after.clients && d != c :: RecordCoupled(after.run, after.clients[d])
  {
    var half := LossReported(s, c);
    var after := InterruptedLoss(s, c, e);
    forall d | d in after.clients && d != c
      ensures RecordCoupled(after.run, after.clients[d])
    {
      EventKeeps(half, e, d);
    }
  }

  /** The second half takes the client out of the operational set and leaves its state. */
  lemma LostRecordAfter(s: Server, c: ClientId, e: Event)
    requires Invariant(s) && OnPlane(s, c, Acquisition)
    ensures var half := LossReported(s, c);
            var mid, after := Apply(half, e).server, InterruptedLoss(s, c, e);
            && c in half.clients && Reported(half.clients[c])
            && half.run == s.run && half.clients[c].operational == s.clients[c].operational
            && c in mid.clients && c in after.clients && after.run == mid.run
            && after.clients[c].state == mid.clients[c].state && !after.clients[c].operational
  {
    EventKeeps(LossReported(s, c), e, c);
  }

  // ---- everybody but one client ----

  /** The invariant for everybody but the client that is being removed. */
  ghost predicate InvariantBut(s: Server, c: ClientId) {
    && Planes(s) && TargetsAllowed(s)
    && forall d | d in s.clients && d != c :: RecordCoupled(s.run, s.clients[d])
  }

  /** A step of another thread that is not about this client; a server event may well be. */
  predicate AboutOthers(step: ProtocolStep, c: ClientId) {
    step.Handle? || step.c != c
  }

  lemma EventKeepsBut(s: Server, e: Event, c: ClientId)
    requires InvariantBut(s, c)
    ensures InvariantBut(Apply(s, e).server, c)
  {
    var after := Apply(s, e).server;
    TargetsAllowedAfter(s, e);
    forall d | d in after.clients
      ensures Kept(s, after, d)
    {
      EventKeeps(s, e, d);
    }
  }

  lemma StepKeepsBut(s: Server, step: ProtocolStep, c: ClientId)
    requires InvariantBut(s, c) && AboutOthers(step, c)
    ensures InvariantBut(Take(s, step), c)
  {
    match step
    case Handle(e) => EventKeepsBut(s, e, c);
    case Admission(d, plane, identity) => AdmissionKeepsBut(s, d, plane, identity, c);
    case Loss(d, plane) => LossKeepsBut(s, d, plane, c);
    case Exclusion(d) => ExclusionKeepsBut(s, d, c);
  }

  lemma LossKeepsBut(s: Server, d: ClientId, plane: Plane, c: ClientId)
    requires InvariantBut(s, c) && d != c
    ensures InvariantBut(Lose(s, d, plane), c)
  {
    if OnPlane(s, d, plane) {
      match plane
      case Control =>
      case Acquisition => AcquisitionLossKeepsBut(s, d, c);
      case Monitoring =>
    }
  }

  lemma AcquisitionLossKeepsBut(s: Server, d: ClientId, c: ClientId)
    requires InvariantBut(s, c) && d != c && d in s.clients
    ensures InvariantBut(RemoveAcquisition(LossReported(s, d), d), c)
  {
    var lost := RemoveAcquisition(LossReported(s, d), d).clients[d];
    assert Reported(lost) && lost.onControl && !lost.operational;
  }

  lemma ExclusionKeepsBut(s: Server, d: ClientId, c: ClientId)
    requires InvariantBut(s, c) && d != c
    ensures InvariantBut(ExcludeClient(s, d), c)
  {
  }

  lemma AdmissionKeepsBut(s: Server, d: ClientId, plane: Plane, identity: Option<Identity>, c: ClientId)
    requires InvariantBut(s, c) && d != c && d != ""
    ensures InvariantBut(Admit(s, d, plane, identity), c)
  {
    LossKeepsBut(s, d, plane, c);
    var left := Lose(s, d, plane);
    assert plane == Control ==> d !in left.clients;
  }

  lemma {:induction false} RunKeepsBut(s: Server, steps: seq<ProtocolStep>, c: ClientId)
    requires InvariantBut(s, c) && forall step | step in steps :: AboutOthers(step, c)
    ensures InvariantBut(Run(s, steps), c)
  {
    if steps != [] {
      RunKeepsBut(s, steps[..|steps| - 1], c);
      StepKeepsBut(Run(s, steps[..|steps| - 1]), steps[|steps| - 1], c);
    }
  }

  // ---- many steps between the halves ----

  /** The client is in a session only with the server, whether or not it matches otherwise. */
  ghost predicate HalfCoupled(run: ServerFsm, r: ClientRecord) {
    && (r.state == CAcquiring ==> run == Acquiring && r.operational)
    && (r.state == CFinalizing ==> run == Finalizing && r.operational)
  }

  ghost predicate HalfKept(s: Server, after: Server, c: ClientId) {
    c in s.clients && HalfCoupled(s.run, s.clients[c]) ==> c in after.clients && HalfCoupled(after.run, after.clients[c])
  }

  lemma VerdictHalfKeeps(s: Server, verdict: Verdict, c: ClientId)
    requires s.run == Configuring && TargetsAllowed(s)
    ensures HalfKept(s, ApplyVerdict(s, verdict).server, c)
  {
    match verdict
    case Malformed =>
    case Success(succeeded, failed) =>
      if c in s.clients && ApplySucceeded(s, succeeded, failed).accepted {
        assert ApplySucceeded(s, succeeded, failed).server.clients[c]
            == SucceededRecord(s.clients[c], c in succeeded, c in failed, s.configurationPartial);
      }
    case Failure(failed) =>
      if c in s.clients && ApplyFailed(s, failed).accepted {
        assert ApplyFailed(s, failed).server.clients[c]
            == FailedRecord(s.clients[c], c in failed, s.configurationPartial);
      }
  }

  lemma FinalizationHalfKeeps(s: Server, c: ClientId)
    requires s.run == Finalizing && TargetsAllowed(s)
    ensures HalfKept(s, ApplyFinalization(s).server, c)
  {
  }

  lemma EventHalfKeeps(s: Server, e: Event, branch: Branch, c: ClientId)
    requires TargetsAllowed(s) && BranchFits(s.run, branch, e)
    ensures HalfKept(s, ApplyBranch(s, e, branch).server, c)
  {
    match branch
    case Result => VerdictHalfKeeps(s, VerdictOf(InState(s.clients, CConfiguring), e), c);
    case LeaveFinalizing => FinalizationHalfKeeps(s, c);
    case _ =>
  }

  lemma StepHalfKeeps(s: Server, step: ProtocolStep, c: ClientId)
    requires TargetsAllowed(s) && AboutOthers(step, c)
    ensures HalfKept(s, Take(s, step), c)
  {
    if step.Handle? {
      BranchAlwaysFits(s.run, step.event);
      EventHalfKeeps(s, step.event, BranchOf(s.run, step.event), c);
    } else {
      OthersLeaveRecord(s, step, c);
    }
  }

  lemma OthersLeaveRecord(s: Server, step: ProtocolStep, c: ClientId)
    requires !step.Handle? && step.c != c
    ensures Take(s, step).run == s.run
    ensures c in s.clients ==> c in Take(s, step).clients && Take(s, step).clients[c] == s.clients[c]
  {
    match step
    case Admission(d, plane, identity) => LossLeavesRecord(s, d, plane, c);
    case Loss(d, plane) => LossLeavesRecord(s, d, plane, c);
    case _ =>
  }

  lemma LossLeavesRecord(s: Server, d: ClientId, plane: Plane, c: ClientId)
    requires d != c
    ensures Lose(s, d, plane).run == s.run
    ensures c in s.clients ==> c in Lose(s, d, plane).clients && Lose(s, d, plane).clients[c] == s.clients[c]
  {
  }

  lemma {:induction false} RunHalfKeeps(s: Server, steps: seq<ProtocolStep>, c: ClientId)
    requires InvariantBut(s, c) && c in s.clients && HalfCoupled(s.run, s.clients[c])
    requires forall step | step in steps :: AboutOthers(step, c)
    ensures c in Run(s, steps).clients && HalfCoupled(Run(s, steps).run, Run(s, steps).clients[c])
  {
    if steps != [] {
      RunHalfKeeps(s, steps[..|steps| - 1], c);
      RunKeepsBut(s, steps[..|steps| - 1], c);
      StepHalfKeeps(Run(s, steps[..|steps| - 1]), steps[|steps| - 1], c);
    }
  }

  /** Any steps of other threads between the halves of an acquisition-plane loss: the coupling
      survives exactly when the client is in no session at the second half, as is certain when the
      server is neither ACQUIRING nor FINALIZING then. */
  lemma LossInterruptedByMany(s: Server, c: ClientId, steps: seq<ProtocolStep>)
    requires Invariant(s) && OnPlane(s, c, Acquisition)
    requires forall step | step in steps :: AboutOthers(step, c)
    ensures var mid := Run(LossReported(s, c), steps);
            && (Coupled(RemoveAcquisition(mid, c)) <==> !InSession(mid, c))
            && (InSession(mid, c) ==> mid.run in {Acquiring, Finalizing} && mid.clients[c].operational)
  {
    var half := LossReported(s, c);
    assert Reported(half.clients[c]);
    RunKeepsBut(half, steps, c);
    RunHalfKeeps(half, steps, c);
    var mid := Run(half, steps);
    var after := RemoveAcquisition(mid, c);
    assert after.clients[c].state == mid.clients[c].state && !after.clients[c].operational;
  }

  // ---- the sections of a Control Plane loss ----

  /** A Control Plane loss is four locked sections; other threads run between any two of them. */
  function InterruptedControlLoss(s: Server, c: ClientId, first: seq<ProtocolStep>, second: seq<ProtocolStep>, third: seq<ProtocolStep>): Server {
    var unmonitored := Run(RemoveMonitoring(s, c), first);
    var unacquired := Run(RemoveAcquisition(unmonitored, c), second);
    Forget(Run(RemoveOperational(unacquired, c), third), c)
  }

  /** It keeps the invariant all the same: the client is left uncoupled only until it is forgotten. */
  lemma ControlLossKeepsInvariant(s: Server, c: ClientId, first: seq<ProtocolStep>, second: seq<ProtocolStep>, third: seq<ProtocolStep>)
    requires Invariant(s)
    requires forall step | step in first + second + third :: AboutOthers(step, c)
    ensures Invariant(InterruptedControlLoss(s, c, first, second, third))
    ensures c !in InterruptedControlLoss(s, c, first, second, third).clients
  {
    var a := RemoveMonitoring(s, c);
    RunKeepsBut(a, first, c);
    var b := RemoveAcquisition(Run(a, first), c);
    RunKeepsBut(b, second, c);
    var d := RemoveOperational(Run(b, second), c);
    RunKeepsBut(d, third, c);
  }

  /** remove_operational_client keeps the coupling exactly when the client is not in a session. */
  lemma ExclusionCoupling(s: Server, c: ClientId)
    requires Invariant(s) && c in s.clients
    ensures Coupled(RemoveOperational(s, c)) <==> s.clients[c].state !in {CAcquiring, CFinalizing}
  {
    var after := RemoveOperational(s, c);
    assert after.clients[c].state == s.clients[c].state;
  }

  /** The race is real for every client of every acquisition: a stop request between the halves
      leaves it FINALIZING, outside the operational set, where no later event looks for it. */
  lemma InterruptedLossStrandsTheClient(s: Server, c: ClientId)
    requires Invariant(s) && s.run == Acquiring && c in s.clients && s.clients[c].operational
    ensures var after := InterruptedLoss(s, c, Plain(StopRequested));
            && after.run == Finalizing
            && c in after.clients
            && after.clients[c].state == CFinalizing
            && !after.clients[c].operational
  {
    var half := LossReported(s, c);
    assert c in half.clients && half.clients[c].state == CError && half.clients[c].operational;
    assert BranchOf(half.run, Plain(StopRequested)) == EnterFinalizing;
  }
}
