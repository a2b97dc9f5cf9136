/** The time-sync schedule of the monitoring plane: deterministic slots, and a scheduler that never
    runs more workers than it has, nor one client twice. */
module TimeSync {
  import Bits

  const TIME_SYNC_PERIOD_NS := 300_000_000_000
  const SYNC_WORKERS := 8

  // ---- slots ----

  /** _next_time_sync_slot_ns. */
  function NextSlot(phase: int, period: int, notBefore: int): int
    requires period > 0
  {
    if notBefore <= phase then phase
    else (notBefore - phase + period - 1) / period * period + phase
  }

  /** A slot of the client: its phase plus whole periods, from zero on. */
  ghost predicate IsSlot(phase: int, period: int, t: int) {
    exists k: nat :: t == k * period + phase
  }

  lemma CeilingBounds(x: int, period: int)
    requires period > 0
    ensures var up := (x + period - 1) / period * period; x <= up < x + period
  {
    var q := (x + period - 1) / period;
    assert q * period + (x + period - 1) % period == x + period - 1;
  }

  lemma NoSlotBetween(k: nat, m: int, period: int, x: int)
    requires period > 0 && m * period < x + period && k * period >= x
    ensures m * period <= k * period
  {
    Bits.MultiplesApart(k, m, period);
    Bits.MultiplesApart(m, k, period);
  }

  lemma LeastSlot(phase: int, period: int, m: nat, x: int)
    requires 0 <= phase < period && (m == 0 || m * period < x + period)
    ensures IsSlot(phase, period, m * period + phase)
    ensures forall t | IsSlot(phase, period, t) && x <= t - phase :: m * period + phase <= t
  {
    forall t | IsSlot(phase, period, t) && x <= t - phase
      ensures m * period + phase <= t
    {
      var k: nat :| t == k * period + phase;
      if m > 0 {
        NoSlotBetween(k, m, period, x);
      }
    }
  }

  /** The next slot is the least one not before the bound. */
  lemma NextSlotIsLeast(phase: int, period: int, notBefore: int)
    requires 0 <= phase < period
    ensures var r := NextSlot(phase, period, notBefore);
            && IsSlot(phase, period, r)
            && notBefore <= r
            && forall t | IsSlot(phase, period, t) && notBefore <= t :: r <= t
  {
    var x := notBefore - phase;
    if x <= 0 {
      LeastSlot(phase, period, 0, x);
    } else {
      CeilingBounds(x, period);
      LeastSlot(phase, period, (x + period - 1) / period, x);
    }
  }

  /** The bound _schedule_next_time_sync asks for. */
  function NotBefore(syncedAt: int, initial: bool, period: int): int {
    if initial then syncedAt + period else syncedAt + 1
  }

  /** The first resync comes one to two periods after the synchronization, a later one within the
      next period. */
  lemma ResyncWindow(phase: int, period: int, syncedAt: nat, initial: bool)
    requires 0 <= phase < period
    ensures var r := NextSlot(phase, period, NotBefore(syncedAt, initial, period));
            if initial then syncedAt + period <= r < syncedAt + 2 * period
            else syncedAt < r <= syncedAt + period
  {
    var bound := NotBefore(syncedAt, initial, period);
    if bound > phase {
      CeilingBounds(bound - phase, period);
    }
  }

  // ---- choosing ----

  /** Clients are numbered in the order of their ids. */
  type Client = nat

  /** A client and the time it is due. */
  datatype Turn = Turn(at: int, c: Client)

  predicate Before(a: Turn, b: Turn) {
    a.at < b.at || (a.at == b.at && a.c < b.c)
  }

  predicate InOrder(turns: seq<Turn>) {
    forall i, j | 0 <= i < j < |turns| :: Before(turns[i], turns[j])
  }

  function DueTurns(next: map<Client, int>, inProgress: set<Client>, now: int): set<Turn> {
    set c | c in next && next[c] <= now && c !in inProgress :: Turn(next[c], c)
  }

  function Insert(turns: seq<Turn>, x: Turn): seq<Turn> {
    if turns == [] then [x]
    else if Before(x, turns[0]) then [x] + turns
    else [turns[0]] + Insert(turns[1..], x)
  }

  function Sort(turns: seq<Turn>): seq<Turn> {
    if turns == [] then [] else Insert(Sort(turns[..|turns| - 1]), turns[|turns| - 1])
  }

  lemma {:induction false} InsertKeepsOrder(turns: seq<Turn>, x: Turn)
    requires InOrder(turns) && x !in turns
    ensures InOrder(Insert(turns, x)) && |Insert(turns, x)| == |turns| + 1
    ensures forall t :: t in Insert(turns, x) <==> t in turns || t == x
  {
    if turns != [] && !Before(x, turns[0]) {
      InsertKeepsOrder(turns[1..], x);
      assert turns == [turns[0]] + turns[1..];
      var rest := Insert(turns[1..], x);
      assert forall t | t in rest :: Before(turns[0], t);
    }
  }

  predicate Different(turns: seq<Turn>) {
    forall i, j | 0 <= i < j < |turns| :: turns[i] != turns[j]
  }

  lemma {:induction false} SortOrders(turns: seq<Turn>)
    requires Different(turns)
    ensures InOrder(Sort(turns)) && |Sort(turns)| == |turns|
    ensures forall t :: t in Sort(turns) <==> t in turns
  {
    if turns != [] {
      var before, x := turns[..|turns| - 1], turns[|turns| - 1];
      assert turns == before + [x];
      SortOrders(before);
      InsertKeepsOrder(Sort(before), x);
    }
  }

  /** The first n elements, with a negative n counted from the end. */
  function Slice<T>(s: seq<T>, n: int): seq<T> {
    if n >= |s| then s else if n >= 0 then s[..n] else if |s| + n >= 0 then s[..|s| + n] else []
  }

  /** The turns a scheduling pass takes: as many as there are free workers, the earliest first. */
  ghost predicate Chooses(due: set<Turn>, available: int, chosen: seq<Turn>) {
    && available >= 0
    && InOrder(chosen)
    && (forall t | t in chosen :: t in due)
    && |chosen| == (if |due| < available then |due| else available)
    && (forall t, u | t in chosen && u in due && u !in chosen :: Before(t, u))
  }

  lemma {:induction false} DifferentCard(turns: seq<Turn>)
    requires Different(turns)
    ensures |set t | t in turns| == |turns|
  {
    if turns != [] {
      var before, x := turns[..|turns| - 1], turns[|turns| - 1];
      DifferentCard(before);
      assert (set t | t in turns) == (set t | t in before) + {x};
    }
  }

  lemma SliceChooses(due: set<Turn>, turns: seq<Turn>, available: nat)
    requires Different(turns) && due == set t | t in turns
    ensures Chooses(due, available, Slice(Sort(turns), available))
  {
    SortOrders(turns);
    DifferentCard(turns);
    var sorted := Sort(turns);
    var chosen := Slice(sorted, available);
    forall t, u | t in chosen && u in due && u !in chosen
      ensures Before(t, u)
    {
      var i :| 0 <= i < |chosen| && chosen[i] == t;
      var j :| 0 <= j < |sorted| && sorted[j] == u;
      assert sorted[i] == t;
    }
  }

  // ---- the scheduler ----

  /** `claimed` are chosen but not handed to the executor yet; `working` are the executor's tasks.
      Several scheduler threads may be alive: a stop gives up waiting for one after two seconds. */
  datatype System = System(
    next: map<Client, int>,
    inProgress: set<Client>,
    claimed: multiset<Client>,
    working: multiset<Client>)

  const NOTHING := System(map[], {}, multiset{}, multiset{})

  datatype Step =
    | Schedule(c: Client, at: int)
    | Choose(now: int, chosen: seq<Turn>)
    | Submit(c: Client)
    | GiveUp(c: Client)
    | Finish(c: Client)

  ghost predicate Possible(s: System, step: Step) {
    match step
    case Schedule(_, _) => true
    case Choose(now, chosen) =>
      exists turns :: IsListing(turns, DueTurns(s.next, s.inProgress, now))
                      && chosen == Slice(Sort(turns), SYNC_WORKERS - |s.inProgress|)
    case Submit(c) => c in s.claimed
    case GiveUp(c) => c in s.claimed
    case Finish(c) => c in s.working
  }

  /** The due turns in the order in which the dictionary lists them. */
  ghost predicate IsListing(turns: seq<Turn>, due: set<Turn>) {
    Different(turns) && due == set t | t in turns
  }

  function ClientsOf(turns: seq<Turn>): seq<Client> {
    seq(|turns|, i requires 0 <= i < |turns| => turns[i].c)
  }

  function SetOf(cs: seq<Client>): set<Client> {
    set c | c in cs
  }

  ghost function Next(s: System, step: Step): System
    requires Possible(s, step)
  {
    match step
    case Schedule(c, at) => s.(next := s.next[c := at])
    case Choose(_, chosen) =>
      s.(inProgress := s.inProgress + SetOf(ClientsOf(chosen)), claimed := s.claimed + multiset(ClientsOf(chosen)))
    case Submit(c) => s.(claimed := s.claimed - multiset{c}, working := s.working + multiset{c})
    case GiveUp(c) => s.(claimed := s.claimed - multiset{c}, inProgress := s.inProgress - {c})
    case Finish(c) => s.(working := s.working - multiset{c}, inProgress := s.inProgress - {c})
  }

  /** A step that cannot be taken yet waits. */
  ghost function Reach(steps: seq<Step>): System {
    if steps == [] then NOTHING
    else
      var before := Reach(steps[..|steps| - 1]);
      var step := steps[|steps| - 1];
      if Possible(before, step) then Next(before, step) else before
  }

  /** A client in progress is claimed or worked on once, and nobody else is. */
  ghost predicate Exclusive(s: System) {
    && |s.inProgress| <= SYNC_WORKERS
    && forall c :: s.claimed[c] + s.working[c] == if c in s.inProgress then 1 else 0
  }

  predicate Distinct(cs: seq<Client>) {
    forall i, j | 0 <= i < j < |cs| :: cs[i] != cs[j]
  }

  lemma ClientsDiffer(chosen: seq<Turn>, next: map<Client, int>, inProgress: set<Client>, now: int)
    requires InOrder(chosen) && forall t | t in chosen :: t in DueTurns(next, inProgress, now)
    ensures Distinct(ClientsOf(chosen))
    ensures inProgress !! SetOf(ClientsOf(chosen))
  {
    var cs := ClientsOf(chosen);
    forall i, j | 0 <= i < j < |cs|
      ensures cs[i] != cs[j]
    {
      assert chosen[i] in DueTurns(next, inProgress, now) && chosen[j] in DueTurns(next, inProgress, now);
    }
    forall c | c in SetOf(cs)
      ensures c !in inProgress
    {
      var i :| 0 <= i < |cs| && cs[i] == c;
      assert chosen[i] in DueTurns(next, inProgress, now);
    }
  }

  /** A list without repetitions, as a set and as a multiset. */
  lemma {:induction false} DistinctClients(cs: seq<Client>)
    requires Distinct(cs)
    ensures |SetOf(cs)| == |cs|
    ensures forall c :: multiset(cs)[c] == if c in SetOf(cs) then 1 else 0
  {
    if cs != [] {
      var before, x := cs[..|cs| - 1], cs[|cs| - 1];
      assert cs == before + [x];
      DistinctClients(before);
      assert x !in SetOf(before);
      assert SetOf(cs) == SetOf(before) + {x};
    }
  }

  lemma ClaimKeepsExclusive(s: System, cs: seq<Client>)
    requires Exclusive(s) && Distinct(cs) && s.inProgress !! SetOf(cs) && |s.inProgress| + |cs| <= SYNC_WORKERS
    ensures Exclusive(s.(inProgress := s.inProgress + SetOf(cs), claimed := s.claimed + multiset(cs)))
  {
    DistinctClients(cs);
    assert |s.inProgress + SetOf(cs)| == |s.inProgress| + |SetOf(cs)|;
  }

  lemma ChoiceFits(next: map<Client, int>, inProgress: set<Client>, now: int, available: int, chosen: seq<Turn>)
    requires Chooses(DueTurns(next, inProgress, now), available, chosen)
    ensures Distinct(ClientsOf(chosen)) && inProgress !! SetOf(ClientsOf(chosen)) && |ClientsOf(chosen)| <= available
  {
    ClientsDiffer(chosen, next, inProgress, now);
  }

  lemma PassChooses(s: System, now: int, chosen: seq<Turn>)
    requires |s.inProgress| <= SYNC_WORKERS && Possible(s, Choose(now, chosen))
    ensures Chooses(DueTurns(s.next, s.inProgress, now), SYNC_WORKERS - |s.inProgress|, chosen)
  {
    var due := DueTurns(s.next, s.inProgress, now);
    var turns :| IsListing(turns, due) && chosen == Slice(Sort(turns), SYNC_WORKERS - |s.inProgress|);
    SliceChooses(due, turns, SYNC_WORKERS - |s.inProgress|);
  }

  lemma ChooseKeepsExclusive(s: System, now: int, chosen: seq<Turn>)
    requires Exclusive(s) && Possible(s, Choose(now, chosen))
    ensures Exclusive(Next(s, Choose(now, chosen)))
  {
    PassChooses(s, now, chosen);
    ChoiceFits(s.next, s.inProgress, now, SYNC_WORKERS - |s.inProgress|, chosen);
    ClaimKeepsExclusive(s, ClientsOf(chosen));
  }

  /** In every run at most SYNC_WORKERS clients are in progress, none of them twice; so no client has
      two workers, and the number of free workers is never negative. */
  lemma {:induction false} ExclusiveAlways(steps: seq<Step>)
    ensures Exclusive(Reach(steps))
  {
    if steps != [] {
      var before, step := Reach(steps[..|steps| - 1]), steps[|steps| - 1];
      ExclusiveAlways(steps[..|steps| - 1]);
      if Possible(before, step) && step.Choose? {
        ChooseKeepsExclusive(before, step.now, step.chosen);
      }
    }
  }

  /** Every pass serves the clients that are due the longest. */
  lemma EarliestFirst(steps: seq<Step>, now: int, chosen: seq<Turn>)
    requires Possible(Reach(steps), Choose(now, chosen))
    ensures var s := Reach(steps);
            Chooses(DueTurns(s.next, s.inProgress, now), SYNC_WORKERS - |s.inProgress|, chosen)
  {
    ExclusiveAlways(steps);
    PassChooses(Reach(steps), now, chosen);
  }

  // ---- the object ----

  class MonitoringService {
    var nextResync: map<Client, int>
    var inProgress: set<Client>

    constructor ()
      ensures nextResync == map[] && inProgress == {}
    {
      nextResync := map[];
      inProgress := {};
    }

    method ScheduleNext(c: Client, phase: int, syncedAt: nat, initial: bool)
      requires 0 <= phase < TIME_SYNC_PERIOD_NS
      modifies this
      ensures inProgress == old(inProgress)
      ensures nextResync == old(nextResync)[c := NextSlot(phase, TIME_SYNC_PERIOD_NS, NotBefore(syncedAt, initial, TIME_SYNC_PERIOD_NS))]
    {
      var notBefore := if initial then syncedAt + TIME_SYNC_PERIOD_NS else syncedAt + 1;
      nextResync := nextResync[c := NextSlot(phase, TIME_SYNC_PERIOD_NS, notBefore)];
    }

    /** The locked part of a scheduling pass. */
    method ChooseDue(now: int) returns (chosen: seq<Turn>)
      modifies this`inProgress
      ensures var due := DueTurns(nextResync, old(inProgress), now);
              exists turns :: IsListing(turns, due) && chosen == Slice(Sort(turns), SYNC_WORKERS - |old(inProgress)|)
      ensures inProgress == old(inProgress) + SetOf(ClientsOf(chosen))
    {
      var due := ListDue(now);
      chosen := Slice(Sort(due), SYNC_WORKERS - |inProgress|);
      var cs := ClientsOf(chosen);
      for i := 0 to |cs|
        invariant inProgress == old(inProgress) + SetOf(cs[..i])
      {
        assert cs[..i + 1] == cs[..i] + [cs[i]];
        inProgress := inProgress + {cs[i]};
      }
      assert cs[..|cs|] == cs;
    }

    method ListDue(now: int) returns (due: seq<Turn>)
      ensures IsListing(due, DueTurns(nextResync, inProgress, now))
    {
      due := [];
      var todo := nextResync.Keys;
      while todo != {}
        invariant todo <= nextResync.Keys
        invariant Different(due)
        invariant forall t :: t in due <==> t.c !in todo && t in DueTurns(nextResync, inProgress, now)
      {
        var c :| c in todo;
        todo := todo - {c};
        if nextResync[c] <= now && c !in inProgress {
          due := due + [Turn(nextResync[c], c)];
        }
      }
    }
  }
}
