/** Control Plane handshakes: many sessions interleaved in one I/O loop, each ending in an admission. */
module Handshake {
  import opened Fsm
  import opened Registry
  import opened Protocol
  import StateClass
  import Liveness

  datatype Phase = HelloPhase | ReadyPhase | StartupAckPhase | EndPhase | UnknownPhase

  /** A received message; `identity` is None when the payload holds no identity dictionary,
      and a missing identity field is the empty string. */
  datatype Message = Message(
    isHandshake: bool,
    phase: Phase,
    inReplyTo: Option<nat>,
    text: string,
    identity: Option<Identity>)

  datatype Session = Session(phase: Phase, lastSent: nat, deadline: int, identity: Option<Identity>)

  /** What the outside world contributes to one handler: the registered client a search for the
      multipmt id meets first, how the send ends, whether the MAC has a number, and the time. */
  datatype Link = Sent | SendFailed | Unreachable
  datatype World = World(found: Option<ClientId>, link: Link, macKnown: bool, now: int)

  /** The control thread inside `_on_end`, whose registry calls are separate steps. */
  datatype Admission = Idle | Checked(c: ClientId, identity: Identity) | Evicted(c: ClientId, identity: Identity)

  /** What happened, in order; `sent` is the request id of the server's message. */
  datatype Entry =
    | Opened(c: ClientId, sent: nat)
    | Readied(c: ClientId, sent: nat)
    | Identified(c: ClientId, identity: Identity, sent: nat)
    | Dropped(c: ClientId)
    | Cleared
    | Concluded(c: ClientId, identity: Identity, reply: nat)
    | Registered(c: ClientId, identity: Identity)

  datatype System = System(
    server: Server,
    sessions: map<ClientId, Session>,
    admission: Admission,
    nextId: nat,
    log: seq<Entry>)

  const BEGIN := System(INITIAL, map[], Idle, 0, [])

  const HANDSHAKE_STEP_TIMEOUT := 20

  // ---- verdicts ----

  /** get_client_id_by_multipmt_id meets some holder of the id, if there is one. */
  ghost predicate Finds(clients: Clients, id: string, found: Option<ClientId>) {
    match found
    case Some(c) => Holds(clients, c, id)
    case None => forall c | c in clients :: !Holds(clients, c, id)
  }

  predicate Holds(clients: Clients, c: ClientId, id: string) {
    c in clients && clients[c].identity.Some? && clients[c].identity.value.multipmtId == id
  }

  predicate MessageOk(m: Message, phase: Phase, text: string, reply: Option<nat>) {
    && (reply.Some? ==> m.inReplyTo == reply)
    && m.isHandshake
    && m.phase == phase
    && m.text == text
  }

  predicate IdentityOk(c: ClientId, identity: Option<Identity>, found: Option<ClientId>) {
    && identity.Some?
    && identity.value.multipmtId != ""
    && identity.value.batchId != ""
    && identity.value.mac != ""
    && (found.None? || found.value == c)
  }

  // ---- the handlers ----

  function Drop(s: System, c: ClientId): System {
    s.(sessions := s.sessions - {c}, log := s.log + [Dropped(c)])
  }

  /** A failed send ends the session; an unreachable host is also lost as a client. */
  function DropUnsent(s: System, c: ClientId, link: Link): System {
    Drop(s.(server := if link == Unreachable then Lose(s.server, c, Control) else s.server, nextId := s.nextId + 1), c)
  }

  function Keep(s: System, c: ClientId, session: Session, entry: Entry): System {
    s.(sessions := s.sessions[c := session], nextId := s.nextId + 1, log := s.log + [entry])
  }

  function OnHello(s: System, c: ClientId, m: Message, w: World): System {
    if !MessageOk(m, HelloPhase, "Ping", None) then Drop(s, c)
    else if w.link != Sent then DropUnsent(s, c, w.link)
    else Keep(s, c, Session(HelloPhase, s.nextId, w.now + HANDSHAKE_STEP_TIMEOUT, None), Opened(c, s.nextId))
  }

  function OnReady(s: System, c: ClientId, m: Message, w: World): System
    requires c in s.sessions
  {
    var session := s.sessions[c];
    if !MessageOk(m, ReadyPhase, "Ready", Some(session.lastSent)) then Drop(s, c)
    else if w.link != Sent then DropUnsent(s, c, w.link)
    else
      Keep(s, c, Session(ReadyPhase, s.nextId, w.now + HANDSHAKE_STEP_TIMEOUT, session.identity), Readied(c, s.nextId))
  }

  function OnStartupAck(s: System, c: ClientId, m: Message, w: World): System
    requires c in s.sessions
  {
    var session := s.sessions[c];
    if !MessageOk(m, StartupAckPhase, "Identity", Some(session.lastSent)) then Drop(s, c)
    else if !IdentityOk(c, m.identity, w.found) then Drop(s, c)
    else if !w.macKnown then Drop(s, c)
    else if w.link != Sent then DropUnsent(s, c, w.link)
    else
      Keep(s, c, Session(StartupAckPhase, s.nextId, w.now + HANDSHAKE_STEP_TIMEOUT, m.identity),
           Identified(c, m.identity.value, s.nextId))
  }

  /** The checks of `_on_end`; the registry calls follow in `Evict` and `Register`. */
  function OnEnd(s: System, c: ClientId, m: Message, w: World): System
    requires c in s.sessions
  {
    var session := s.sessions[c];
    if !MessageOk(m, EndPhase, "Conclusion_ack", Some(session.lastSent)) then Drop(s, c)
    else if !IdentityOk(c, session.identity, w.found) then Drop(s, c)
    else
      s.(admission := Checked(c, session.identity.value),
         log := s.log + [Concluded(c, session.identity.value, session.lastSent)])
  }

  function Evict(s: System): System
    requires s.admission.Checked?
  {
    s.(server := Lose(s.server, s.admission.c, Control), admission := Evicted(s.admission.c, s.admission.identity))
  }

  function Register(s: System): System
    requires s.admission.Evicted? && s.admission.c != ""
  {
    var Evicted(c, identity) := s.admission;
    s.(server := AddControl(s.server, c, Some(identity)), sessions := s.sessions - {c}, admission := Idle,
       log := s.log + [Registered(c, identity)])
  }

  function Receive(s: System, c: ClientId, m: Message, w: World): System {
    match m.phase
    case HelloPhase => OnHello(s, c, m, w)
    case ReadyPhase => if c in s.sessions then OnReady(s, c, m, w) else s
    case StartupAckPhase => if c in s.sessions then OnStartupAck(s, c, m, w) else s
    case EndPhase => if c in s.sessions then OnEnd(s, c, m, w) else s
    case UnknownPhase => s
  }

  function Expired(sessions: map<ClientId, Session>, now: int): set<ClientId> {
    set c | c in sessions && sessions[c].deadline < now
  }

  // ---- runs ----

  /** The control thread's steps, and what the other threads do between any two of them: every
      registry operation but an admission on the Control Plane, and closing the connection. */
  datatype Step =
    | Receiving(c: ClientId, m: Message, w: World)
    | Expiring(c: ClientId, now: int)
    | Evicting
    | Registering
    | Losing(c: ClientId)
    | Background(op: Operation)
    | Clearing

  ghost predicate Possible(s: System, step: Step) {
    match step
    case Receiving(c, m, w) =>
      && s.admission.Idle?
      && c != ""
      && (m.identity.Some? && m.phase == StartupAckPhase ==>
        Finds(s.server.clients, m.identity.value.multipmtId, w.found))
      && (m.phase == EndPhase && c in s.sessions && s.sessions[c].identity.Some? ==>
        Finds(s.server.clients, s.sessions[c].identity.value.multipmtId, w.found))
    case Expiring(c, now) => s.admission.Idle? && c in Expired(s.sessions, now)
    case Evicting => s.admission.Checked?
    case Registering => s.admission.Evicted? && s.admission.c != ""
    case Losing(_) => true
    case Background(op) => Legal(op) && !op.Add?
    case Clearing => true
  }

  ghost function Take(s: System, step: Step): System
    requires Possible(s, step)
  {
    match step
    case Receiving(c, m, w) => Receive(s, c, m, w)
    case Expiring(c, _) => Drop(s, c)
    case Evicting => Evict(s)
    case Registering => Register(s)
    case Losing(c) => s.(server := Lose(s.server, c, Control))
    case Background(op) => s.(server := Perform(s.server, op))
    case Clearing => s.(sessions := map[], log := s.log + [Cleared])
  }

  /** A step that cannot be taken yet waits. */
  ghost function Reach(steps: seq<Step>): System {
    if steps == [] then BEGIN
    else
      var before := Reach(steps[..|steps| - 1]);
      var step := steps[|steps| - 1];
      if Possible(before, step) then Take(before, step) else before
  }

  // ---- distinct identities ----

  /** Everybody registered came through a handshake, no two with the same multipmt id, and the
      MAC index points at registered clients with that MAC. */
  ghost predicate Distinct(server: Server) {
    && (forall c | c in server.clients ::
      server.clients[c].onControl && server.clients[c].identity.Some?)
    && (forall c, d | c in server.clients && d in server.clients && c != d ::
      server.clients[c].identity.value.multipmtId != server.clients[d].identity.value.multipmtId)
    && (forall mac | mac in server.byMac ::
      server.byMac[mac] in server.clients && server.clients[server.byMac[mac]].identity.value.mac == mac)
  }

  /** The client being admitted has the id for itself, from the check to the registration. */
  ghost predicate Reserved(s: System) {
    match s.admission
    case Idle => true
    case Checked(c, identity) => forall d | d in s.server.clients && d != c :: !Holds(s.server.clients, d, identity.multipmtId)
    case Evicted(c, identity) =>
      c !in s.server.clients && forall d | d in s.server.clients :: !Holds(s.server.clients, d, identity.multipmtId)
  }

  ghost predicate Unique(s: System) {
    Distinct(s.server) && Reserved(s)
  }

  /** Identities only go: what every operation but an addition does to one client. */
  ghost predicate Narrowed(s: Server, after: Server, c: ClientId) {
    c in after.clients ==>
      && c in s.clients
      && after.clients[c].onControl == s.clients[c].onControl
      && after.clients[c].identity == s.clients[c].identity
  }

  lemma VerdictKeepsIdentity(s: Server, verdict: Verdict, c: ClientId)
    ensures var after := ApplyVerdict(s, verdict).server;
            Narrowed(s, after, c) && (c in s.clients ==> c in after.clients) && after.byMac == s.byMac
  {
  }

  lemma StartKeepsIdentity(s: Server, e: Event, c: ClientId)
    ensures var after := ApplyConfigurationStarted(s, e).server;
            Narrowed(s, after, c) && (c in s.clients ==> c in after.clients) && after.byMac == s.byMac
  {
  }

  lemma FinalizationKeepsIdentity(s: Server, c: ClientId)
    ensures var after := ApplyFinalization(s).server;
            Narrowed(s, after, c) && (c in s.clients ==> c in after.clients) && after.byMac == s.byMac
  {
  }

  lemma EventKeepsIdentity(s: Server, e: Event, branch: Branch, c: ClientId)
    ensures var after := ApplyBranch(s, e, branch).server;
            Narrowed(s, after, c) && (c in s.clients ==> c in after.clients) && after.byMac == s.byMac
  {
    match branch
    case Start => StartKeepsIdentity(s, e, c);
    case Result => VerdictKeepsIdentity(s, VerdictOf(InState(s.clients, CConfiguring), e), c);
    case LeaveFinalizing => FinalizationKeepsIdentity(s, c);
    case _ =>
  }

  lemma OperationNarrows(s: Server, op: Operation, c: ClientId)
    requires Legal(op) && !op.Add?
    ensures Narrowed(s, Perform(s, op), c)
  {
    if op.Process? {
      EventKeepsIdentity(s, op.event, BranchOf(s.run, op.event), c);
    }
  }

  lemma ForgetKeepsDistinct(s: Server, c: ClientId)
    requires Distinct(s)
    ensures Distinct(Forget(s, c))
  {
  }

  lemma OperationKeepsClient(s: Server, op: Operation, c: ClientId)
    requires Legal(op) && !op.Add? && !(op.Remove? && op.plane == Control)
    ensures c in s.clients ==> c in Perform(s, op).clients
    ensures Perform(s, op).byMac == s.byMac
  {
    if op.Process? {
      EventKeepsIdentity(s, op.event, BranchOf(s.run, op.event), c);
    }
  }

  lemma SameIdentitiesDistinct(s: Server, after: Server)
    requires Distinct(s) && after.byMac == s.byMac
    requires forall c | c in after.clients :: Narrowed(s, after, c)
    requires forall c | c in s.clients :: c in after.clients
    ensures Distinct(after)
  {
  }

  lemma OperationKeepsDistinct(s: Server, op: Operation)
    requires Distinct(s) && Legal(op) && !op.Add?
    ensures Distinct(Perform(s, op))
  {
    if op.Remove? && op.plane == Control {
      ForgetKeepsDistinct(s, op.c);
    } else {
      var after := Perform(s, op);
      OperationKeepsClient(s, op, "");
      forall c
        ensures Narrowed(s, after, c)
        ensures c in s.clients ==> c in after.clients
      {
        OperationNarrows(s, op, c);
        OperationKeepsClient(s, op, c);
      }
      SameIdentitiesDistinct(s, after);
    }
  }

  lemma ReservedStays(s: System, after: System)
    requires Reserved(s) && after.admission == s.admission
    requires forall c | c in after.server.clients :: Narrowed(s.server, after.server, c)
    ensures Reserved(after)
  {
  }

  lemma LossKeepsUnique(s: System, c: ClientId)
    requires Unique(s)
    ensures Unique(s.(server := Lose(s.server, c, Control)))
  {
    ForgetKeepsDistinct(s.server, c);
    forall d
      ensures Narrowed(s.server, Lose(s.server, c, Control), d)
    {
    }
    ReservedStays(s, s.(server := Lose(s.server, c, Control)));
  }

  lemma ConclusionReserves(s: System, c: ClientId, m: Message, w: World)
    requires Unique(s) && c in s.sessions && Possible(s, Receiving(c, m, w)) && m.phase == EndPhase
    ensures Unique(OnEnd(s, c, m, w))
  {
  }

  lemma ReceivingKeepsUnique(s: System, c: ClientId, m: Message, w: World)
    requires Unique(s) && Possible(s, Receiving(c, m, w))
    ensures Unique(Receive(s, c, m, w))
  {
    if m.phase == EndPhase && c in s.sessions {
      ConclusionReserves(s, c, m, w);
    } else {
      LossKeepsUnique(s, c);
    }
  }

  lemma EvictingKeepsUnique(s: System)
    requires Unique(s) && s.admission.Checked?
    ensures Unique(Evict(s))
  {
    LossKeepsUnique(s, s.admission.c);
  }

  lemma RegisteringKeepsUnique(s: System)
    requires Unique(s) && s.admission.Evicted? && s.admission.c != ""
    ensures Unique(Register(s))
  {
    var Evicted(c, identity) := s.admission;
    forall d | d in s.server.clients
      ensures s.server.clients[d].identity.value.multipmtId != identity.multipmtId
    {
      assert !Holds(s.server.clients, d, identity.multipmtId);
    }
  }

  lemma StepKeepsUnique(s: System, step: Step)
    requires Unique(s) && Possible(s, step)
    ensures Unique(Take(s, step))
  {
    match step
    case Receiving(c, m, w) => ReceivingKeepsUnique(s, c, m, w);
    case Expiring(c, _) =>
    case Evicting => EvictingKeepsUnique(s);
    case Registering => RegisteringKeepsUnique(s);
    case Losing(c) => LossKeepsUnique(s, c);
    case Background(op) =>
      OperationKeepsDistinct(s.server, op);
      forall c ensures Narrowed(s.server, Perform(s.server, op), c) {
        OperationNarrows(s.server, op, c);
      }
      ReservedStays(s, Take(s, step));
    case Clearing =>
  }

  /** However handshakes and other threads interleave, no two registered clients share a multipmt
      id, even when both passed the check of their startup_ack. */
  lemma {:induction false} IdentitiesStayDistinct(steps: seq<Step>)
    ensures Unique(Reach(steps))
  {
    if steps != [] {
      var before, step := Reach(steps[..|steps| - 1]), steps[|steps| - 1];
      IdentitiesStayDistinct(steps[..|steps| - 1]);
      if Possible(before, step) {
        StepKeepsUnique(before, step);
      }
    }
  }

  // ---- where an admission comes from ----

  /** The entry ends whatever session the client had, or begins a new one. */
  predicate Boundary(entry: Entry, c: ClientId) {
    match entry
    case Opened(d, _) => d == c
    case Dropped(d) => d == c
    case Registered(d, _) => d == c
    case Cleared => true
    case _ => false
  }

  /** The request id of the message the server sent to the client, if the entry is one. */
  function SentTo(entry: Entry, c: ClientId): Option<nat> {
    match entry
    case Opened(d, sent) => if d == c then Some(sent) else None
    case Readied(d, sent) => if d == c then Some(sent) else None
    case Identified(d, _, sent) => if d == c then Some(sent) else None
    case _ => None
  }

  /** Entry i opened the session that the client has at position k, and it is still the same one. */
  ghost predicate SessionSince(log: seq<Entry>, i: nat, k: nat, c: ClientId) {
    && i < k <= |log|
    && log[i].Opened? && log[i].c == c
    && forall m | i < m < k :: !Boundary(log[m], c)
  }

  /** Entry j is the last message sent to the client before position k. */
  ghost predicate LastMessage(log: seq<Entry>, j: nat, k: nat, c: ClientId, sent: nat) {
    && j < k <= |log|
    && SentTo(log[j], c) == Some(sent)
    && forall m | j < m < k :: SentTo(log[m], c).None?
  }

  /** Entry j is the last startup_ack accepted from the client before position k. */
  ghost predicate LastIdentity(log: seq<Entry>, j: nat, k: nat, c: ClientId, identity: Identity) {
    && j < k <= |log|
    && log[j].Identified? && log[j].c == c && log[j].identity == identity
    && forall m | j < m < k :: !(log[m].Identified? && log[m].c == c)
  }

  ghost predicate SessionRecorded(log: seq<Entry>, c: ClientId, session: Session) {
    exists i: nat, j: nat ::
      && SessionSince(log, i, |log|, c)
      && LastMessage(log, j, |log|, c, session.lastSent)
      && i <= j
      && (session.identity.Some? ==>
        exists k: nat :: i < k && LastIdentity(log, k, |log|, c, session.identity.value))
  }

  /** The conclusion at position n answers the last message of its session and carries the identity
      accepted in that session since its hello. */
  ghost predicate ConclusionJustified(log: seq<Entry>, n: nat)
    requires n < |log| && log[n].Concluded?
  {
    var Concluded(c, identity, reply) := log[n];
    exists i: nat, j: nat, k: nat ::
      && SessionSince(log, i, n, c)
      && LastMessage(log, j, n, c, reply)
      && LastIdentity(log, k, n, c, identity)
      && i < k <= j
  }

  /** A session on record stays on record while the log grows without touching its client. */
  lemma RecordStays(log: seq<Entry>, entry: Entry, c: ClientId, session: Session)
    requires SessionRecorded(log, c, session)
    requires !Boundary(entry, c) && SentTo(entry, c).None?
    ensures SessionRecorded(log + [entry], c, session)
  {
    var i: nat, j: nat :|
      && SessionSince(log, i, |log|, c) && LastMessage(log, j, |log|, c, session.lastSent) && i <= j
      && (session.identity.Some? ==> exists k: nat :: i < k && LastIdentity(log, k, |log|, c, session.identity.value));
    var longer := log + [entry];
    assert SessionSince(longer, i, |longer|, c);
    assert LastMessage(longer, j, |longer|, c, session.lastSent);
    if session.identity.Some? {
      var k: nat :| i < k && LastIdentity(log, k, |log|, c, session.identity.value);
      assert LastIdentity(longer, k, |longer|, c, session.identity.value);
    }
  }

  lemma OpeningRecorded(log: seq<Entry>, c: ClientId, session: Session)
    requires session.identity.None?
    ensures SessionRecorded(log + [Opened(c, session.lastSent)], c, session)
  {
    var longer := log + [Opened(c, session.lastSent)];
    assert SessionSince(longer, |log|, |longer|, c);
    assert LastMessage(longer, |log|, |longer|, c, session.lastSent);
  }

  lemma ReadyRecorded(log: seq<Entry>, c: ClientId, before: Session, session: Session)
    requires SessionRecorded(log, c, before) && session.identity == before.identity
    ensures SessionRecorded(log + [Readied(c, session.lastSent)], c, session)
  {
    var i: nat :|
      && SessionSince(log, i, |log|, c)
      && (before.identity.Some? ==> exists k: nat :: i < k && LastIdentity(log, k, |log|, c, before.identity.value));
    var longer := log + [Readied(c, session.lastSent)];
    assert SessionSince(longer, i, |longer|, c);
    assert LastMessage(longer, |log|, |longer|, c, session.lastSent);
    if session.identity.Some? {
      var k: nat :| i < k && LastIdentity(log, k, |log|, c, before.identity.value);
      assert LastIdentity(longer, k, |longer|, c, session.identity.value);
    }
  }

  lemma IdentityRecorded(log: seq<Entry>, c: ClientId, before: Session, session: Session)
    requires SessionRecorded(log, c, before) && session.identity.Some?
    ensures SessionRecorded(log + [Identified(c, session.identity.value, session.lastSent)], c, session)
  {
    var i: nat :| SessionSince(log, i, |log|, c);
    var longer := log + [Identified(c, session.identity.value, session.lastSent)];
    assert SessionSince(longer, i, |longer|, c);
    assert LastMessage(longer, |log|, |longer|, c, session.lastSent);
    assert LastIdentity(longer, |log|, |longer|, c, session.identity.value);
  }

  ghost predicate Recorded(s: System) {
    forall c | c in s.sessions :: SessionRecorded(s.log, c, s.sessions[c])
  }

  lemma EntryLeavesOthers(s: System, after: System, c: ClientId, entry: Entry)
    requires Recorded(s) && after.log == s.log + [entry]
    requires forall d | d in after.sessions && d != c :: d in s.sessions && after.sessions[d] == s.sessions[d]
    requires forall d | d in after.sessions && d != c :: !Boundary(entry, d) && SentTo(entry, d).None?
    requires c in after.sessions ==> SessionRecorded(after.log, c, after.sessions[c])
    ensures Recorded(after)
  {
    forall d | d in after.sessions
      ensures SessionRecorded(after.log, d, after.sessions[d])
    {
      if d != c {
        RecordStays(s.log, entry, d, s.sessions[d]);
      }
    }
  }

  lemma DropKeepsRecorded(s: System, after: System, c: ClientId)
    requires Recorded(s) && after.log == s.log + [Dropped(c)] && after.sessions == s.sessions - {c}
    ensures Recorded(after)
  {
    EntryLeavesOthers(s, after, c, Dropped(c));
  }

  lemma HelloKeepsRecorded(s: System, c: ClientId, m: Message, w: World)
    requires Recorded(s)
    ensures Recorded(OnHello(s, c, m, w))
  {
    var after := OnHello(s, c, m, w);
    if c in after.sessions {
      OpeningRecorded(s.log, c, after.sessions[c]);
      EntryLeavesOthers(s, after, c, Opened(c, s.nextId));
    } else {
      DropKeepsRecorded(s, after, c);
    }
  }

  lemma ReadyKeepsRecorded(s: System, c: ClientId, m: Message, w: World)
    requires Recorded(s) && c in s.sessions
    ensures Recorded(OnReady(s, c, m, w))
  {
    var after := OnReady(s, c, m, w);
    if c in after.sessions {
      ReadyRecorded(s.log, c, s.sessions[c], after.sessions[c]);
      EntryLeavesOthers(s, after, c, Readied(c, s.nextId));
    } else {
      DropKeepsRecorded(s, after, c);
    }
  }

  lemma StartupAckKeepsRecorded(s: System, c: ClientId, m: Message, w: World)
    requires Recorded(s) && c in s.sessions
    ensures Recorded(OnStartupAck(s, c, m, w))
  {
    var after := OnStartupAck(s, c, m, w);
    if c in after.sessions {
      IdentityRecorded(s.log, c, s.sessions[c], after.sessions[c]);
      EntryLeavesOthers(s, after, c, Identified(c, m.identity.value, s.nextId));
    } else {
      DropKeepsRecorded(s, after, c);
    }
  }

  lemma EndKeepsRecorded(s: System, c: ClientId, m: Message, w: World)
    requires Recorded(s) && c in s.sessions
    ensures Recorded(OnEnd(s, c, m, w))
    ensures c in OnEnd(s, c, m, w).sessions ==> ConclusionJustified(OnEnd(s, c, m, w).log, |s.log|)
  {
    var after := OnEnd(s, c, m, w);
    if c in after.sessions {
      var session := s.sessions[c];
      var entry := Concluded(c, session.identity.value, session.lastSent);
      RecordStays(s.log, entry, c, session);
      EntryLeavesOthers(s, after, c, entry);
      ConclusionOf(s.log, c, session);
    } else {
      DropKeepsRecorded(s, after, c);
    }
  }

  lemma ConclusionOf(log: seq<Entry>, c: ClientId, session: Session)
    requires SessionRecorded(log, c, session) && session.identity.Some?
    ensures ConclusionJustified(log + [Concluded(c, session.identity.value, session.lastSent)], |log|)
  {
    var i: nat, j: nat :|
      && SessionSince(log, i, |log|, c) && LastMessage(log, j, |log|, c, session.lastSent) && i <= j
      && exists k: nat :: i < k && LastIdentity(log, k, |log|, c, session.identity.value);
    var k: nat :| i < k && LastIdentity(log, k, |log|, c, session.identity.value);
    var longer := log + [Concluded(c, session.identity.value, session.lastSent)];
    assert longer[|log|] == Concluded(c, session.identity.value, session.lastSent);
    assert SessionSince(longer, i, |log|, c);
    assert LastMessage(longer, j, |log|, c, session.lastSent);
    assert LastIdentity(longer, k, |log|, c, session.identity.value);
    assert SentTo(log[k], c).Some?;
  }

  /** The registration at position n completes the latest conclusion, with the same identity. */
  ghost predicate RegistrationJustified(log: seq<Entry>, n: nat)
    requires n < |log| && log[n].Registered?
  {
    exists k: nat :: k < n && Pending(log, k, n, log[n].c, log[n].identity)
  }

  /** Entry k concluded a handshake that has not been followed by another conclusion or registration. */
  ghost predicate Pending(log: seq<Entry>, k: nat, n: nat, c: ClientId, identity: Identity) {
    && k < n <= |log|
    && log[k].Concluded? && log[k].c == c && log[k].identity == identity
    && forall m | k < m < n :: !log[m].Concluded? && !log[m].Registered?
  }

  ghost predicate Justified(log: seq<Entry>) {
    forall n: nat | n < |log| ::
      && (log[n].Concluded? ==> ConclusionJustified(log, n))
      && (log[n].Registered? ==> RegistrationJustified(log, n))
  }

  ghost predicate AdmissionPending(s: System) {
    s.admission.Idle? || exists k: nat :: Pending(s.log, k, |s.log|, s.admission.c, s.admission.identity)
  }

  /** What is justified depends on the past only. */
  lemma JustifiedLonger(log: seq<Entry>, entry: Entry)
    requires Justified(log)
    requires entry.Concluded? ==> ConclusionJustified(log + [entry], |log|)
    requires entry.Registered? ==> RegistrationJustified(log + [entry], |log|)
    ensures Justified(log + [entry])
  {
    var longer := log + [entry];
    forall n: nat | n < |log|
      ensures log[n].Concluded? ==> ConclusionJustified(longer, n)
      ensures log[n].Registered? ==> RegistrationJustified(longer, n)
    {
      if log[n].Concluded? {
        ConclusionLonger(log, entry, n);
      }
      if log[n].Registered? {
        var k: nat :| k < n && Pending(log, k, n, log[n].c, log[n].identity);
        assert longer[n] == log[n];
        assert Pending(longer, k, n, longer[n].c, longer[n].identity);
      }
    }
  }

  lemma ConclusionLonger(log: seq<Entry>, entry: Entry, n: nat)
    requires n < |log| && log[n].Concluded? && ConclusionJustified(log, n)
    ensures ConclusionJustified(log + [entry], n)
  {
    var Concluded(c, identity, reply) := log[n];
    var i: nat, j: nat, k: nat :|
      && SessionSince(log, i, n, c) && LastMessage(log, j, n, c, reply) && LastIdentity(log, k, n, c, identity)
      && i < k <= j;
    var longer := log + [entry];
    assert longer[n] == log[n];
    assert SessionSince(longer, i, n, c);
    assert LastMessage(longer, j, n, c, reply);
    assert LastIdentity(longer, k, n, c, identity);
  }

  /** No entry but a conclusion or a registration touches the admission under way. */
  lemma PendingLonger(s: System, entry: Entry)
    requires AdmissionPending(s) && !entry.Concluded? && !entry.Registered?
    ensures AdmissionPending(s.(log := s.log + [entry]))
  {
    if !s.admission.Idle? {
      var k: nat :| Pending(s.log, k, |s.log|, s.admission.c, s.admission.identity);
      assert Pending(s.log + [entry], k, |s.log| + 1, s.admission.c, s.admission.identity);
    }
  }

  ghost predicate Traced(s: System) {
    Recorded(s) && Justified(s.log) && AdmissionPending(s)
  }

  lemma PlainEntryKeepsTraced(s: System, after: System)
    requires Traced(s) && s.admission.Idle? && after.admission.Idle? && Recorded(after)
    requires |after.log| == |s.log| + 1 && after.log[..|s.log|] == s.log
    requires var entry := after.log[|s.log|]; !entry.Concluded? && !entry.Registered?
    ensures Traced(after)
  {
    JustifiedLonger(s.log, after.log[|s.log|]);
    assert after.log == s.log + [after.log[|s.log|]];
  }

  lemma EndKeepsTraced(s: System, c: ClientId, m: Message, w: World)
    requires Traced(s) && s.admission.Idle? && c in s.sessions
    ensures Traced(OnEnd(s, c, m, w))
  {
    var after := OnEnd(s, c, m, w);
    EndKeepsRecorded(s, c, m, w);
    JustifiedLonger(s.log, after.log[|s.log|]);
    if after.admission.Checked? {
      assert Pending(after.log, |s.log|, |after.log|, c, after.admission.identity);
    }
  }

  lemma ReceivingKeepsTraced(s: System, c: ClientId, m: Message, w: World)
    requires Traced(s) && s.admission.Idle?
    ensures Traced(Receive(s, c, m, w))
  {
    if m.phase == HelloPhase {
      HelloKeepsRecorded(s, c, m, w);
      PlainEntryKeepsTraced(s, OnHello(s, c, m, w));
    } else if c in s.sessions {
      match m.phase {
        case ReadyPhase =>
          ReadyKeepsRecorded(s, c, m, w);
          PlainEntryKeepsTraced(s, OnReady(s, c, m, w));
        case StartupAckPhase =>
          StartupAckKeepsRecorded(s, c, m, w);
          PlainEntryKeepsTraced(s, OnStartupAck(s, c, m, w));
        case EndPhase => EndKeepsTraced(s, c, m, w);
        case _ =>
      }
    }
  }

  lemma RegisteringKeepsTraced(s: System)
    requires Traced(s) && s.admission.Evicted? && s.admission.c != ""
    ensures Traced(Register(s))
  {
    var after := Register(s);
    var entry := Registered(s.admission.c, s.admission.identity);
    EntryLeavesOthers(s, after, s.admission.c, entry);
    var k: nat :| Pending(s.log, k, |s.log|, s.admission.c, s.admission.identity);
    assert after.log[|s.log|] == entry;
    assert Pending(after.log, k, |s.log|, entry.c, entry.identity);
    JustifiedLonger(s.log, entry);
  }

  lemma StepKeepsTraced(s: System, step: Step)
    requires Traced(s) && Possible(s, step)
    ensures Traced(Take(s, step))
  {
    match step
    case Receiving(c, m, w) => ReceivingKeepsTraced(s, c, m, w);
    case Expiring(c, _) =>
      DropKeepsRecorded(s, Take(s, step), c);
      JustifiedLonger(s.log, Dropped(c));
    case Registering => RegisteringKeepsTraced(s);
    case Clearing =>
      JustifiedLonger(s.log, Cleared);
      PendingLonger(s, Cleared);
    case _ =>
  }

  /** In every run, an admission registers exactly the identity accepted by the last startup_ack of
      the same session, after its hello, and the message that concludes the handshake answers the
      last message the server sent in that session; each conclusion is registered at most once. */
  lemma {:induction false} AdmissionsAreJustified(steps: seq<Step>)
    ensures Traced(Reach(steps))
  {
    if steps != [] {
      var before, step := Reach(steps[..|steps| - 1]), steps[|steps| - 1];
      AdmissionsAreJustified(steps[..|steps| - 1]);
      if Possible(before, step) {
        StepKeepsTraced(before, step);
      }
    }
  }

  // ---- what one message does ----

  /** A hello always begins a new session, without an identity; anything else said to be one ends it. */
  lemma HelloBegins(s: System, c: ClientId, m: Message, w: World)
    requires m.phase == HelloPhase
    ensures var after := Receive(s, c, m, w);
            && after.admission == s.admission
            && (forall d | d != c :: (d in after.sessions <==> d in s.sessions) && (d in s.sessions ==> after.sessions[d] == s.sessions[d]))
            && (c in after.sessions <==> m.isHandshake && m.text == "Ping" && w.link == Sent)
            && (c in after.sessions ==>
                 && after.sessions[c].lastSent == s.nextId && after.sessions[c].identity == None
                 && after.sessions[c].deadline == w.now + 20 && after.server == s.server)
  {
  }

  /** Outside a session, and in an unknown phase, a message is ignored. */
  lemma StrayMessageIsIgnored(s: System, c: ClientId, m: Message, w: World)
    requires m.phase == UnknownPhase || (m.phase != HelloPhase && c !in s.sessions)
    ensures Receive(s, c, m, w) == s
  {
  }

  /** A message of the wrong kind or text, or that answers anything but the last message sent in the
      session, ends the session and changes nothing else. */
  lemma WrongAnswerEnds(s: System, c: ClientId, m: Message, w: World)
    requires c in s.sessions && m.phase in {ReadyPhase, StartupAckPhase, EndPhase}
    requires || m.inReplyTo != Some(s.sessions[c].lastSent)
             || !m.isHandshake
             || m.text != (if m.phase == ReadyPhase then "Ready" else if m.phase == StartupAckPhase then "Identity" else "Conclusion_ack")
    ensures var after := Receive(s, c, m, w);
            && after.server == s.server && after.admission == s.admission && after.nextId == s.nextId
            && after.sessions == s.sessions - {c}
            && after.log == s.log + [Dropped(c)]
  {
  }

  /** A well-formed identity message: refused if a field is missing, the id is taken, the MAC has no
      number or the answer cannot be sent; otherwise the session carries that identity. */
  lemma IdentityIsJudged(s: System, c: ClientId, m: Message, w: World)
    requires c in s.sessions && m.phase == StartupAckPhase && m.isHandshake && m.text == "Identity"
    requires m.inReplyTo == Some(s.sessions[c].lastSent)
    ensures var after := Receive(s, c, m, w);
            && after.admission == s.admission
            && (c in after.sessions <==>
                 && m.identity.Some?
                 && m.identity.value.multipmtId != "" && m.identity.value.batchId != "" && m.identity.value.mac != ""
                 && (w.found == None || w.found == Some(c))
                 && w.macKnown && w.link == Sent)
            && (c in after.sessions ==>
                 && after.server == s.server
                 && after.sessions[c] == Session(StartupAckPhase, s.nextId, w.now + 20, m.identity))
            && (w.link != Unreachable ==> after.server == s.server)
  {
  }

  /** A well-formed conclusion: an admission begins exactly when the session has an identity that is
      complete and still free. */
  lemma ConclusionIsJudged(s: System, c: ClientId, m: Message, w: World)
    requires s.admission.Idle? && c in s.sessions && m.phase == EndPhase && m.isHandshake && m.text == "Conclusion_ack"
    requires m.inReplyTo == Some(s.sessions[c].lastSent)
    ensures var after := Receive(s, c, m, w);
            var identity := s.sessions[c].identity;
            && after.server == s.server
            && (if identity.Some? && identity.value.multipmtId != "" && identity.value.batchId != "" && identity.value.mac != ""
                   && (w.found == None || w.found == Some(c))
                then after.admission == Checked(c, identity.value)
                else after.admission == Idle && c !in after.sessions)
  {
  }

  /** A client the answer cannot reach is lost on the Control Plane, and its session ends. */
  lemma UnreachableIsLost(s: System, c: ClientId, m: Message, w: World)
    requires m.phase == HelloPhase && m.isHandshake && m.text == "Ping" && w.link == Unreachable
    ensures var after := Receive(s, c, m, w);
            !OnPlane(after.server, c, Control) && c !in after.sessions
  {
  }

  // ---- complete handshakes ----

  /** Of two sessions that passed their startup_ack with one multipmt id, the second is refused. */
  lemma RivalIsRefused(s: System, c: ClientId, m: Message, w: World, rival: ClientId)
    requires Unique(s) && Possible(s, Receiving(c, m, w)) && m.phase == EndPhase
    requires c in s.sessions && s.sessions[c].identity.Some? && rival != c
    requires Holds(s.server.clients, rival, s.sessions[c].identity.value.multipmtId)
    ensures Receive(s, c, m, w) == Drop(s, c)
  {
    assert w.found.Some?;
    assert Holds(s.server.clients, w.found.value, s.sessions[c].identity.value.multipmtId);
  }

  /** A client that answers every message and whose identity is free is admitted. */
  lemma HandshakeAdmits(s: System, c: ClientId, identity: Identity, now: int)
    requires s.admission.Idle? && c != "" && IdentityOk(c, Some(identity), None)
    requires Finds(s.server.clients, identity.multipmtId, None)
    ensures
      var w := World(None, Sent, true, now);
      var hello := Receive(s, c, Message(true, HelloPhase, None, "Ping", None), w);
      var ready := Receive(hello, c, Message(true, ReadyPhase, Some(s.nextId), "Ready", None), w);
      var ack := Message(true, StartupAckPhase, Some(s.nextId + 1), "Identity", Some(identity));
      var identified := Receive(ready, c, ack, w);
      var end := Message(true, EndPhase, Some(s.nextId + 2), "Conclusion_ack", None);
      var concluded := Receive(identified, c, end, w);
      && Possible(ready, Receiving(c, ack, w))
      && Possible(identified, Receiving(c, end, w))
      && concluded.admission == Checked(c, identity)
      && Register(Evict(concluded)).server == Admit(s.server, c, Control, Some(identity))
      && Register(Evict(concluded)).sessions == s.sessions - {c}
  {
    var w := World(None, Sent, true, now);
    var hello := Receive(s, c, Message(true, HelloPhase, None, "Ping", None), w);
    assert hello.sessions[c] == Session(HelloPhase, s.nextId, now + HANDSHAKE_STEP_TIMEOUT, None);
    var ready := Receive(hello, c, Message(true, ReadyPhase, Some(s.nextId), "Ready", None), w);
    assert ready.sessions[c] == Session(ReadyPhase, s.nextId + 1, now + HANDSHAKE_STEP_TIMEOUT, None);
    var ack := Message(true, StartupAckPhase, Some(s.nextId + 1), "Identity", Some(identity));
    var identified := Receive(ready, c, ack, w);
    assert identified.sessions[c] == Session(StartupAckPhase, s.nextId + 2, now + HANDSHAKE_STEP_TIMEOUT, Some(identity));
    var end := Message(true, EndPhase, Some(s.nextId + 2), "Conclusion_ack", None);
    var concluded := Receive(identified, c, end, w);
    assert concluded.admission == Checked(c, identity);
    assert concluded.server == s.server;
    assert Register(Evict(concluded)).sessions == s.sessions - {c};
  }

  class ControlPlaneManager {
    const serverState: StateClass.ServerState
    const liveness: Liveness.ClientLivenessService
    var sessions: map<ClientId, Session>
    var nextRequestId: nat
    ghost var log: seq<Entry>

    ghost function View(): System
      reads this, serverState
    {
      System(serverState.View(), sessions, Idle, nextRequestId, log)
    }

    predicate Valid() {
      liveness.serverState == serverState
    }

    constructor (serverState: StateClass.ServerState, liveness: Liveness.ClientLivenessService)
      requires liveness.serverState == serverState
      ensures Valid() && View() == BEGIN.(server := serverState.View())
      ensures this.serverState == serverState && this.liveness == liveness
    {
      this.serverState := serverState;
      this.liveness := liveness;
      sessions := map[];
      nextRequestId := 0;
      log := [];
    }

    /** The first client met in a scan of the registry that holds the multipmt id. */
    method ClientWithMultipmtId(id: string) returns (found: Option<ClientId>)
      ensures Finds(serverState.clients, id, found)
    {
      var todo := serverState.clients.Keys;
      while todo != {}
        invariant todo <= serverState.clients.Keys
        invariant forall c | c in serverState.clients && c !in todo :: !Holds(serverState.clients, c, id)
      {
        var c :| c in todo;
        if Holds(serverState.clients, c, id) {
          return Some(c);
        }
        todo := todo - {c};
      }
      found := None;
    }

    /** _validate_handshake_identity; the search for a rival changes nothing. */
    method ValidateIdentity(c: ClientId, identity: Option<Identity>) returns (ok: bool, found: Option<ClientId>)
      ensures identity.Some? ==> Finds(serverState.clients, identity.value.multipmtId, found)
      ensures ok <==> IdentityOk(c, identity, found)
    {
      found := None;
      if identity.None? {
        return false, None;
      }
      found := ClientWithMultipmtId(identity.value.multipmtId);
      if identity.value.multipmtId == "" || identity.value.batchId == "" || identity.value.mac == "" {
        return false, found;
      }
      ok := found.None? || found.value == c;
    }

    method Pop(c: ClientId)
      modifies this`sessions, this`log
      ensures View() == Drop(old(View()), c)
    {
      sessions := sessions - {c};
      log := log + [Dropped(c)];
    }

    /** Sends the answer, with a new request id; a client that cannot be reached is lost. */
    method Send(c: ClientId, link: Link) returns (ok: bool)
      requires Valid()
      modifies this`nextRequestId, liveness, serverState
      ensures Valid() && (ok <==> link == Sent)
      ensures View() == old(View()).(
                nextId := old(nextRequestId) + 1,
                server := if link == Unreachable then Lose(old(serverState.View()), c, Control) else old(serverState.View()))
    {
      nextRequestId := nextRequestId + 1;
      if link == Unreachable {
        var _ := liveness.HandleClientLost(c, Control);
      }
      ok := link == Sent;
    }

    method HandleHello(c: ClientId, m: Message, w: World)
      requires Valid()
      modifies this, liveness, serverState
      ensures Valid() && View() == OnHello(old(View()), c, m, w)
    {
      if !MessageOk(m, HelloPhase, "Ping", None) {
        Pop(c);
        return;
      }
      var id := nextRequestId;
      var ok := Send(c, w.link);
      if !ok {
        Pop(c);
        return;
      }
      sessions := sessions[c := Session(HelloPhase, id, w.now + HANDSHAKE_STEP_TIMEOUT, None)];
      log := log + [Opened(c, id)];
    }

    method HandleReady(c: ClientId, m: Message, w: World)
      requires Valid() && c in sessions
      modifies this, liveness, serverState
      ensures Valid() && View() == OnReady(old(View()), c, m, w)
    {
      var session := sessions[c];
      if !MessageOk(m, ReadyPhase, "Ready", Some(session.lastSent)) {
        Pop(c);
        return;
      }
      var id := nextRequestId;
      var ok := Send(c, w.link);
      if !ok {
        Pop(c);
        return;
      }
      sessions := sessions[c := session.(phase := ReadyPhase, lastSent := id, deadline := w.now + HANDSHAKE_STEP_TIMEOUT)];
      log := log + [Readied(c, id)];
    }

    method HandleStartupAck(c: ClientId, m: Message, w: World) returns (found: Option<ClientId>)
      requires Valid() && c in sessions
      modifies this, liveness, serverState
      ensures Valid() && View() == OnStartupAck(old(View()), c, m, w.(found := found))
      ensures m.identity.Some? ==> Finds(old(serverState.clients), m.identity.value.multipmtId, found)
    {
      var session := sessions[c];
      var valid;
      valid, found := ValidateIdentity(c, m.identity);
      if !MessageOk(m, StartupAckPhase, "Identity", Some(session.lastSent)) || !valid {
        Pop(c);
        return;
      }
      session := session.(identity := m.identity);
      if !w.macKnown {
        Pop(c);
        return;
      }
      var id := nextRequestId;
      var ok := Send(c, w.link);
      if !ok {
        Pop(c);
        return;
      }
      sessions := sessions[c := session.(phase := StartupAckPhase, lastSent := id, deadline := w.now + HANDSHAKE_STEP_TIMEOUT)];
      log := log + [Identified(c, m.identity.value, id)];
    }

    /** The checks, the eviction of the previous session and the registration, in one go. */
    method HandleEnd(c: ClientId, m: Message, w: World) returns (found: Option<ClientId>)
      requires Valid() && c in sessions && c != ""
      modifies this, liveness, serverState
      ensures Valid()
      ensures var checked := OnEnd(old(View()), c, m, w.(found := found));
              View() == if checked.admission.Idle? then checked else Register(Evict(checked))
      ensures old(sessions)[c].identity.Some? ==>
                Finds(old(serverState.clients), old(sessions)[c].identity.value.multipmtId, found)
    {
      var session := sessions[c];
      var valid;
      valid, found := ValidateIdentity(c, session.identity);
      if !MessageOk(m, EndPhase, "Conclusion_ack", Some(session.lastSent)) || !valid {
        Pop(c);
        return;
      }
      log := log + [Concluded(c, session.identity.value, session.lastSent)];
      if OnPlane(serverState.View(), c, Control) {
        var _ := liveness.HandleClientLost(c, Control);
      }
      serverState.AddControlClient(c, session.identity);
      sessions := sessions - {c};
      log := log + [Registered(c, session.identity.value)];
      var _ := liveness.HandleClientPlaneConnected(c);
    }

    /** Every call is a step of the system, with what the search in the registry found. */
    method HandleMessage(c: ClientId, m: Message, w: World) returns (found: Option<ClientId>)
      requires Valid() && c != ""
      modifies this, liveness, serverState
      ensures Valid()
      ensures c in old(sessions) ==> Possible(old(View()), Receiving(c, m, w.(found := found)))
      ensures var received := Receive(old(View()), c, m, w.(found := found));
              View() == if received.admission.Idle? then received else Register(Evict(received))
    {
      found := None;
      if m.phase == UnknownPhase || (m.phase != HelloPhase && c !in sessions) {
        return;
      }
      match m.phase {
        case HelloPhase => HandleHello(c, m, w);
        case ReadyPhase => HandleReady(c, m, w);
        case StartupAckPhase => found := HandleStartupAck(c, m, w);
        case EndPhase => found := HandleEnd(c, m, w);
        case UnknownPhase =>
      }
    }

    /** Every expired session goes, and no other. */
    method ExpireSessions(now: int)
      modifies this`sessions, this`log
      ensures sessions == old(sessions) - Expired(old(sessions), now)
    {
      var expired := Expired(sessions, now);
      var todo := expired;
      while todo != {}
        invariant todo <= expired
        invariant sessions == old(sessions) - (expired - todo)
      {
        var c :| c in todo;
        Pop(c);
        todo := todo - {c};
      }
    }
  }
}
