/** Client losses and returns: what is removed, and who is announced as complete. */
module Liveness {
  import opened Fsm
  import opened Registry
  import opened Protocol
  import StateClass

  /** What the liveness service remembers about the clients. */
  datatype Memory = Memory(announced: set<ClientId>, seen: set<ClientId>, lossReported: set<(ClientId, Plane)>)

  datatype World = World(server: Server, memory: Memory)

  predicate Complete(s: Server, c: ClientId) {
    OnPlane(s, c, Control) && OnPlane(s, c, Acquisition) && OnPlane(s, c, Monitoring)
  }

  /** The loss is noted even when the client is not on that plane; the rest is not. */
  function MemoryAfterLoss(m: Memory, c: ClientId, plane: Plane, registered: bool): Memory {
    var noted := m.(lossReported := m.lossReported + {(c, plane)});
    if !registered then noted
    else if plane == Control then
      noted.(announced := m.announced - {c}, lossReported := noted.lossReported - {(c, Acquisition), (c, Monitoring)})
    else
      noted.(announced := m.announced - {c})
  }

  function MemoryAfterConnection(m: Memory, c: ClientId, complete: bool): Memory {
    if !complete || c in m.announced then m
    else Memory(m.announced + {c}, m.seen + {c}, set key | key in m.lossReported && key.0 != c)
  }

  function LoseClient(w: World, c: ClientId, plane: Plane): World {
    World(Lose(w.server, c, plane), MemoryAfterLoss(w.memory, c, plane, OnPlane(w.server, c, plane)))
  }

  /** A completed handshake: the old session is lost first, then the client is added and announced. */
  function AdmitClient(w: World, c: ClientId, plane: Plane, identity: Option<Identity>): World
    requires c != ""
  {
    var left := if OnPlane(w.server, c, plane) then LoseClient(w, c, plane) else w;
    var server := Admit(w.server, c, plane, identity);
    World(server, MemoryAfterConnection(left.memory, c, Complete(server, c)))
  }

  function TakeStep(w: World, step: ProtocolStep): World {
    match step
    case Handle(e) => w.(server := Apply(w.server, e).server)
    case Admission(c, plane, identity) => AdmitClient(w, c, plane, identity)
    case Loss(c, plane) => LoseClient(w, c, plane)
    case Exclusion(c) => w.(server := ExcludeClient(w.server, c))
  }

  function RunSteps(w: World, steps: seq<ProtocolStep>): World {
    if steps == [] then w else TakeStep(RunSteps(w, steps[..|steps| - 1]), steps[|steps| - 1])
  }

  const START := World(INITIAL, Memory({}, {}, {}))

  /** The announced clients are exactly those on every plane, with no open loss report. */
  ghost predicate Announced(w: World) {
    forall c ::
      && (c in w.memory.announced <==> Complete(w.server, c))
      && (c in w.memory.announced ==> c in w.memory.seen && forall plane :: (c, plane) !in w.memory.lossReported)
  }

  lemma LossKeepsAnnounced(w: World, c: ClientId, plane: Plane)
    requires Announced(w) && Planes(w.server)
    ensures Announced(LoseClient(w, c, plane))
  {
    var after := LoseClient(w, c, plane);
    forall d
      ensures d != c ==> Complete(after.server, d) == Complete(w.server, d)
    {
    }
    if OnPlane(w.server, c, plane) {
      assert !Complete(after.server, c);
    } else {
      assert !Complete(w.server, c);
    }
  }

  lemma AdmissionChangesOneClient(s: Server, c: ClientId, plane: Plane, identity: Option<Identity>, d: ClientId)
    requires c != "" && d != c
    ensures Complete(Admit(s, c, plane, identity), d) == Complete(s, d)
  {
  }

  lemma AdmissionKeepsAnnounced(w: World, c: ClientId, plane: Plane, identity: Option<Identity>)
    requires Announced(w) && Planes(w.server) && c != ""
    ensures Announced(AdmitClient(w, c, plane, identity))
  {
    if OnPlane(w.server, c, plane) {
      LossKeepsAnnounced(w, c, plane);
    }
    var after := AdmitClient(w, c, plane, identity);
    var left := if OnPlane(w.server, c, plane) then LoseClient(w, c, plane) else w;
    assert c !in left.memory.announced;
    forall d | d != c
      ensures Complete(after.server, d) == Complete(w.server, d)
      ensures d in left.memory.announced <==> d in w.memory.announced
    {
      AdmissionChangesOneClient(w.server, c, plane, identity, d);
    }
  }

  lemma EventKeepsAnnounced(w: World, e: Event)
    requires Announced(w) && TargetsAllowed(w.server)
    ensures Announced(TakeStep(w, Handle(e)))
  {
    forall c
      ensures Complete(Apply(w.server, e).server, c) == Complete(w.server, c)
    {
      EventKeeps(w.server, e, c);
    }
  }

  lemma ExclusionKeepsAnnounced(w: World, c: ClientId)
    requires Announced(w)
    ensures Announced(TakeStep(w, Exclusion(c)))
  {
    forall d
      ensures Complete(ExcludeClient(w.server, c), d) == Complete(w.server, d)
    {
    }
  }

  /** The registry of a run with the liveness service is the one of the plain run. */
  lemma {:induction false} AnnouncedAlways(steps: seq<ProtocolStep>)
    ensures RunSteps(START, steps).server == Run(INITIAL, steps)
    ensures Announced(RunSteps(START, steps))
  {
    if steps != [] {
      var before := steps[..|steps| - 1];
      AnnouncedAlways(before);
      InvariantAlways(before);
      var w := RunSteps(START, before);
      match steps[|steps| - 1]
      case Handle(e) => EventKeepsAnnounced(w, e);
      case Admission(c, plane, identity) => AdmissionKeepsAnnounced(w, c, plane, identity);
      case Loss(c, plane) => LossKeepsAnnounced(w, c, plane);
      case Exclusion(c) => ExclusionKeepsAnnounced(w, c);
    }
  }

  /** A loss is always noted, also one of a client that was not there, and touches no other client's
      notes; only the first of a client that was there takes it off the announced ones. */
  lemma LossIsNoted(w: World, c: ClientId, plane: Plane)
    ensures var after := LoseClient(w, c, plane).memory;
            && (c, plane) in after.lossReported
            && after.seen == w.memory.seen
            && (forall d, p | d != c :: (d, p) in after.lossReported <==> (d, p) in w.memory.lossReported)
            && (forall d | d != c :: d in after.announced <==> d in w.memory.announced)
            && (c in after.announced <==> c in w.memory.announced && !OnPlane(w.server, c, plane))
  {
  }

  /** Whatever has happened to the record of a client, it makes no difference once it is forgotten. */
  lemma ForgetAbsorbs(s: Server, after: Server, c: ClientId)
    requires after.(clients := s.clients) == s
    requires c in s.clients <==> c in after.clients
    requires c in s.clients ==> after.clients == s.clients[c := after.clients[c]] && after.clients[c].identity == s.clients[c].identity
    requires c !in s.clients ==> after.clients == s.clients
    ensures Forget(after, c) == Forget(s, c)
  {
    if c in s.clients {
      assert s.clients[c := after.clients[c]] - {c} == s.clients - {c};
    }
  }

  class ClientLivenessService {
    const serverState: StateClass.ServerState
    var announced: set<ClientId>
    var seen: set<ClientId>
    var lossReported: set<(ClientId, Plane)>

    function View(): World
      reads this, serverState
    {
      World(serverState.View(), Memory(announced, seen, lossReported))
    }

    constructor (serverState: StateClass.ServerState)
      ensures this.serverState == serverState
      ensures View() == World(serverState.View(), Memory({}, {}, {}))
    {
      this.serverState := serverState;
      announced := {};
      seen := {};
      lossReported := {};
    }

    method RemoveFromEveryPlane(c: ClientId)
      modifies serverState
      ensures serverState.View() == Forget(old(serverState.View()), c)
    {
      if OnPlane(serverState.View(), c, Monitoring) {
        serverState.RemoveMonitoringClient(c);
      }
      if OnPlane(serverState.View(), c, Acquisition) {
        serverState.RemoveAcquisitionClient(c);
      }
      serverState.RemoveOperationalClient(c);
      ForgetAbsorbs(old(serverState.View()), serverState.View(), c);
      serverState.RemoveClient(c);
    }

    /** True if the client was registered on the plane and has been removed. */
    method HandleClientLost(c: ClientId, plane: Plane) returns (removed: bool)
      modifies this, serverState
      ensures removed <==> OnPlane(old(serverState.View()), c, plane)
      ensures View() == LoseClient(old(View()), c, plane)
    {
      lossReported := lossReported + {(c, plane)};
      if !OnPlane(serverState.View(), c, plane) {
        return false;
      }
      match plane {
        case Control =>
          RemoveFromEveryPlane(c);
          announced := announced - {c};
          lossReported := lossReported - {(c, Acquisition), (c, Monitoring)};
        case Acquisition =>
          var _ := serverState.ProcessClientEvent(c, AcquisitionPlaneLost);
          serverState.RemoveAcquisitionClient(c);
          announced := announced - {c};
        case Monitoring =>
          serverState.RemoveMonitoringClient(c);
          announced := announced - {c};
      }
      removed := true;
    }

    /** True if this call found the client on every plane for the first time since its last loss. */
    method HandleClientPlaneConnected(c: ClientId) returns (first: bool)
      modifies this
      ensures first <==> Complete(serverState.View(), c) && c !in old(announced)
      ensures View().memory == MemoryAfterConnection(old(View().memory), c, Complete(serverState.View(), c))
    {
      if !Complete(serverState.View(), c) {
        return false;
      }
      if c in announced {
        return false;
      }
      announced := announced + {c};
      lossReported := set key | key in lossReported && key.0 != c;
      seen := seen + {c};
      first := true;
    }
  }
}
