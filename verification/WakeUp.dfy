/** The wait of an acquisition session while its clients are lost: no wake-up is missed. */
module WakeUp {
  import opened Fsm
  import opened Registry

  datatype Phase = Idle | Starting | Waiting | Awake

  /** `deciding` counts the threads that have seen every acquiring client lost and have left the
      lock, but have not requested the stop yet. */
  datatype Session = Session(
    phase: Phase,
    clients: set<ClientId>,
    acquiring: set<ClientId>,
    lost: set<ClientId>,
    stop: bool,
    deciding: nat)

  const QUIET := Session(Idle, {}, {}, {}, false, 0)

  /** _all_acquiring_clients_lost_locked. */
  predicate AllLost(s: Session) {
    s.acquiring != {} && s.acquiring <= s.lost
  }

  datatype Step =
    | Begin
    | Enter(clients: set<ClientId>)
    | Publish(acquiring: set<ClientId>)
    | LoseOne(c: ClientId, plane: Plane)
    | Request
    | UserStop
    | Wake
    | TimeUp
    | Finish

  predicate Possible(s: Session, step: Step) {
    match step
    case Begin => s.phase == Idle
    case Enter(_) => s.phase == Idle
    case Publish(acquiring) => s.phase == Starting && acquiring <= s.clients
    case LoseOne(_, _) => true
    case Request => s.deciding > 0
    case UserStop => true
    case Wake => s.phase == Waiting && s.stop
    case TimeUp => s.phase == Waiting
    case Finish => s.phase == Awake
  }

  /** A loss outside the session, on the monitoring plane or already recorded changes nothing. */
  function Lost(s: Session, c: ClientId, plane: Plane): Session {
    if plane == Monitoring || c !in s.clients || c in s.lost then s
    else Decided(s.(lost := s.lost + {c}))
  }

  function Decided(s: Session): Session {
    if AllLost(s) then s.(deciding := s.deciding + 1) else s
  }

  /** With nobody acquiring there is nothing to wait for. */
  function Published(s: Session, acquiring: set<ClientId>): Session {
    Decided(s.(acquiring := acquiring, phase := if acquiring == {} then Awake else Waiting))
  }

  function Next(s: Session, step: Step): Session
    requires Possible(s, step)
  {
    match step
    case Begin => s.(stop := false)
    case Enter(clients) => s.(phase := Starting, clients := clients)
    case Publish(acquiring) => Published(s, acquiring)
    case LoseOne(c, plane) => Lost(s, c, plane)
    case Request => s.(stop := true, deciding := s.deciding - 1)
    case UserStop => s.(stop := true)
    case Wake => s.(phase := Awake)
    case TimeUp => s.(phase := Awake)
    case Finish => s.(phase := Idle, clients := {}, acquiring := {}, lost := {})
  }

  function Run(s: Session, steps: seq<Step>): Session {
    if steps == [] then s
    else
      var before := Run(s, steps[..|steps| - 1]);
      if Possible(before, steps[|steps| - 1]) then Next(before, steps[|steps| - 1]) else before
  }

  ghost predicate NotForgotten(s: Session) {
    && (AllLost(s) ==> s.stop || s.deciding > 0)
    && (s.phase == Idle ==> s.clients == {} && s.acquiring == {} && s.lost == {})
    && (s.phase == Starting ==> s.acquiring == {})
    && s.lost <= s.clients
    && s.acquiring <= s.clients
  }

  lemma {:induction false} NeverForgotten(steps: seq<Step>)
    ensures NotForgotten(Run(QUIET, steps))
  {
    if steps != [] {
      NeverForgotten(steps[..|steps| - 1]);
    }
  }

  /** The step after which everybody acquiring is lost, and only that one, sends a thread to request
      the stop: the loss of the last client, or the publication of clients lost already. */
  lemma TheLastLossDecides(steps: seq<Step>, step: Step)
    requires var s := Run(QUIET, steps); Possible(s, step) && step != Request
    ensures var s := Run(QUIET, steps);
            var after := Next(s, step);
            && (after.deciding == s.deciding || after.deciding == s.deciding + 1)
            && (after.deciding == s.deciding + 1 <==> AllLost(after) && (!AllLost(s) || (step.LoseOne? && after.lost != s.lost)))
            && (AllLost(after) && !AllLost(s) ==> step.LoseOne? || step.Publish?)
  {
    NeverForgotten(steps);
  }

  /** A wait whose clients are all lost ends: the session can wake now, or a thread on its way can
      request the stop and then it can. */
  lemma TheWaitEnds(steps: seq<Step>)
    requires var s := Run(QUIET, steps); s.phase == Waiting && AllLost(s)
    ensures var s := Run(QUIET, steps);
            Possible(s, Wake) || (Possible(s, Request) && Possible(Next(s, Request), Wake))
  {
    NeverForgotten(steps);
  }

  /** The state can be reached without anybody asking for a stop. */
  ghost predicate Unstopped(s: Session) {
    exists steps :: UserStop !in steps && Run(QUIET, steps) == s
  }

  lemma UnstoppedNext(s: Session, step: Step)
    requires Unstopped(s) && Possible(s, step) && step != UserStop
    ensures Unstopped(Next(s, step))
  {
    var steps :| UserStop !in steps && Run(QUIET, steps) == s;
    assert (steps + [step])[..|steps|] == steps;
    assert Run(QUIET, steps + [step]) == Next(s, step);
  }

  /** A request that is still on its way when its session ends for another reason stops the next
      one, in which nobody was lost and nobody asked for a stop. */
  lemma LateRequestStopsTheNextSession(c: ClientId)
    ensures Unstopped(Session(Waiting, {c}, {c}, {}, true, 0))
  {
    assert Run(QUIET, []) == QUIET && UserStop !in [];
    UnstoppedNext(QUIET, Begin);
    UnstoppedNext(QUIET, Enter({c}));
    UnstoppedNext(Session(Starting, {c}, {}, {}, false, 0), Publish({c}));
    UnstoppedNext(Session(Waiting, {c}, {c}, {}, false, 0), LoseOne(c, Control));
    UnstoppedNext(Session(Waiting, {c}, {c}, {c}, false, 1), TimeUp);
    UnstoppedNext(Session(Awake, {c}, {c}, {c}, false, 1), Finish);
    UnstoppedNext(Session(Idle, {}, {}, {}, false, 1), Begin);
    UnstoppedNext(Session(Idle, {}, {}, {}, false, 1), Enter({c}));
    UnstoppedNext(Session(Starting, {c}, {}, {}, false, 1), Publish({c}));
    UnstoppedNext(Session(Waiting, {c}, {c}, {}, false, 1), Request);
  }

  /** A loss on the Monitoring Plane, of a client outside the session or of one already recorded
      changes nothing; any other is recorded, and decides exactly when nobody acquiring is left. */
  lemma LossIsRecorded(s: Session, c: ClientId, plane: Plane)
    ensures var after := Lost(s, c, plane);
            if plane == Monitoring || c !in s.clients || c in s.lost then after == s
            else
              && after.(lost := s.lost, deciding := s.deciding) == s
              && after.lost == s.lost + {c}
              && after.deciding == s.deciding
                   + if s.acquiring != {} && (forall a | a in s.acquiring :: a in s.lost || a == c) then 1 else 0
  {
    assert s.acquiring <= s.lost + {c} <==> forall a | a in s.acquiring :: a in s.lost || a == c;
  }

  // ---- when a session is stopped only by its own losses ----

  /** Steps within one session, in which nobody asks for a stop. */
  predicate WithinSession(steps: seq<Step>) {
    UserStop !in steps && Finish !in steps
  }

  /** A stop, requested or on its way, has its reason in this session. */
  predicate OwnStop(s: Session) {
    s.stop || s.deciding > 0 ==> AllLost(s)
  }

  lemma {:induction false} OwnStopStays(s: Session, steps: seq<Step>)
    requires s.phase == Idle && NotForgotten(s) && OwnStop(s) && WithinSession(steps)
    ensures NotForgotten(Run(s, steps)) && OwnStop(Run(s, steps))
  {
    if steps != [] {
      assert steps[|steps| - 1] in steps;
      OwnStopStays(s, steps[..|steps| - 1]);
    }
  }

  /** A thread still on its way at the beginning stops the session although nobody in it is lost. */
  lemma LateRequestArrives(s: Session, c: ClientId)
    requires s.phase == Idle && NotForgotten(s) && s.deciding > 0
    ensures var after := Run(Next(s, Begin), [Enter({c}), Publish({c}), Request]);
            after.phase == Waiting && after.acquiring == {c} && after.lost == {} && after.stop
  {
    var begun := Next(s, Begin);
    var steps := [Enter({c}), Publish({c}), Request];
    assert steps[..2][..1] == [Enter({c})] && steps[..2] == [Enter({c}), Publish({c})];
    assert Run(begun, []) == begun && [Enter({c})][..0] == [];
    assert Run(begun, [Enter({c})]) == begun.(phase := Starting, clients := {c});
    assert Run(begun, steps[..2]) == begun.(phase := Waiting, clients := {c}, acquiring := {c});
  }

  /** Whatever happens in a session that begins here, it is stopped by nothing but the loss of all
      its acquiring clients or a user, exactly when no request of an earlier session is on its way. */
  lemma StoppedOnlyByItsOwnLosses(s: Session)
    requires s.phase == Idle && NotForgotten(s)
    ensures (forall steps | WithinSession(steps) :: OwnStop(Run(Next(s, Begin), steps))) <==> s.deciding == 0
    ensures (forall steps | WithinSession(steps) ::
              Run(Next(s, Begin), steps).stop ==> AllLost(Run(Next(s, Begin), steps))) <==> s.deciding == 0
  {
    var begun := Next(s, Begin);
    if s.deciding == 0 {
      forall steps | WithinSession(steps)
        ensures OwnStop(Run(begun, steps))
      {
        OwnStopStays(begun, steps);
      }
    } else {
      LateRequestArrives(s, "a");
      var steps := [Enter({"a"}), Publish({"a"}), Request];
      assert WithinSession(steps);
      assert !OwnStop(Run(begun, steps));
    }
  }

  class AcquisitionService {
    var sessionClients: set<ClientId>
    var acquiringClients: set<ClientId>
    var lostClients: set<ClientId>
    var stopRequested: bool

    function View(phase: Phase, deciding: nat): Session
      reads this
    {
      Session(phase, sessionClients, acquiringClients, lostClients, stopRequested, deciding)
    }

    constructor ()
      ensures View(Idle, 0) == QUIET
    {
      sessionClients := {};
      acquiringClients := {};
      lostClients := {};
      stopRequested := false;
    }

    /** The locked part of on_client_lost; the caller requests the stop when the answer is true. */
    method RecordLoss(c: ClientId, plane: Plane) returns (allLost: bool)
      modifies this
      ensures forall phase, deciding: nat ::
        View(phase, if allLost then deciding + 1 else deciding) == Lost(old(View(phase, deciding)), c, plane)
      ensures sessionClients == old(sessionClients) && acquiringClients == old(acquiringClients) && stopRequested == old(stopRequested)
      ensures plane == Monitoring || c !in sessionClients || c in old(lostClients) ==> lostClients == old(lostClients) && !allLost
      ensures plane != Monitoring && c in sessionClients && c !in old(lostClients) ==>
                && lostClients == old(lostClients) + {c}
                && (allLost <==> acquiringClients != {} && forall a | a in acquiringClients :: a in lostClients)
    {
      if plane == Monitoring || c !in sessionClients || c in lostClients {
        return false;
      }
      lostClients := lostClients + {c};
      allLost := acquiringClients != {} && acquiringClients <= lostClients;
    }

    method OnClientLost(c: ClientId, plane: Plane)
      modifies this
      ensures sessionClients == old(sessionClients) && acquiringClients == old(acquiringClients)
      ensures AllLost(View(Waiting, 0)) && !old(AllLost(View(Waiting, 0))) ==> stopRequested
      ensures stopRequested && !old(stopRequested) ==> AllLost(View(Waiting, 0))
    {
      var allLost := RecordLoss(c, plane);
      assert View(Waiting, if allLost then 1 else 0) == Lost(old(View(Waiting, 0)), c, plane);
      if allLost {
        stopRequested := true;
      }
    }

    /** The acquiring set becomes visible and is checked in one locked section. */
    method PublishAcquiring(acquiring: set<ClientId>)
      modifies this
      ensures acquiringClients == acquiring && lostClients == old(lostClients) && sessionClients == old(sessionClients)
      ensures stopRequested <==> old(stopRequested) || (acquiring != {} && acquiring <= lostClients)
    {
      acquiringClients := acquiring;
      if acquiring != {} && acquiring <= lostClients {
        stopRequested := true;
      }
    }
  }
}
