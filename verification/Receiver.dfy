/** The receiver's threads as interleaved critical sections: the control listener, the worker of
    the delayed closes, the data receiver and the queue workers. */
module Receiver {
  import opened Workers

  const N_WORKERS := 8
  const MAX_DELAYED_CLOSES := 4096
  const CLOSE_GRACE_TIME := 2

  datatype Slot = Free | Active(source: Source, worker: nat, stamp: nat, deadline: nat)

  datatype Command = PlainOpen | ReadyOpen | ReadyClose

  /** Where the listener is in the handling of one command. */
  datatype Listener =
    | Idle
    | Blocked(command: Command, source: Source, stamp: nat)
    | Cleared(command: Command, source: Source, stamp: nat)
    | Awaiting(item: Item)

  /** Where the close worker is with the slot it selected. */
  datatype Closer = Scanning | Holding(index: nat, slot: Slot) | Queued(index: nat, slot: Slot)

  datatype Ack = Ack(serial: nat, waiting: nat, done: bool, success: bool)

  /** The reply to an OPEN_READY or CLOSE_READY. */
  datatype Reply = Reply(item: Item, ok: bool)

  datatype System = System(
    route: Source -> nat,
    now: nat,
    running: bool,
    commands: nat,
    slots: seq<Slot>,
    listener: Listener,
    closer: Closer,
    ack: Ack,
    queues: seq<Queue>,
    replies: seq<Reply>)

  predicate Pending(slots: seq<Slot>, source: Source) {
    exists i | 0 <= i < |slots| :: slots[i].Active? && slots[i].source == source
  }

  function FirstFree(slots: seq<Slot>): (i: nat)
    ensures i <= |slots|
    ensures i < |slots| ==> slots[i].Free?
    ensures forall k | 0 <= k < i :: slots[k].Active?
  {
    if slots == [] || slots[0].Free? then 0 else 1 + FirstFree(slots[1..])
  }

  /** schedule_delayed_close: one slot per source, and nothing when the table is full. */
  function Schedule(slots: seq<Slot>, slot: Slot): seq<Slot>
    requires slot.Active?
  {
    if Pending(slots, slot.source) || FirstFree(slots) == |slots| then slots
    else slots[FirstFree(slots) := slot]
  }

  predicate Nearest(slots: seq<Slot>, index: nat) {
    && index < |slots| && slots[index].Active?
    && forall k | 0 <= k < |slots| && slots[k].Active? ::
        slots[index].deadline < slots[k].deadline || (slots[index].deadline == slots[k].deadline && index <= k)
  }

  // ---- acknowledgements ----

  function TokenOf(x: Item): nat {
    if x.Data? then 0 else x.token
  }

  function BeginAck(a: Ack): Ack {
    Ack(a.serial + 1, a.serial + 1, false, false)
  }

  function CompleteAck(a: Ack, token: nat, success: bool): Ack {
    if token == 0 || a.waiting != token then a else a.(done := true, success := success)
  }

  predicate AckSucceeded(a: Ack, token: nat) {
    a.waiting == token && a.done && a.success
  }

  // ---- steps ----

  datatype Label =
    | Tick(time: nat)
    | Shutdown
    | RequestClose(source: Source)
    | Receive(command: Command, source: Source)
    | PassWait
    | Enqueue
    | EndWait
    | Select(index: nat)
    | EnqueueClose
    | Release
    | Arrive(worker: nat, source: Source)
    | Fetch(worker: nat)
    | Work(worker: nat, fileOk: bool)

  predicate HasSpace(s: System, worker: nat) {
    worker < |s.queues| && |s.queues[worker].ring| < QUEUE_SIZE
  }

  predicate CanStep(s: System, l: Label) {
    match l
    case Tick(time) => s.now <= time
    case Shutdown => true
    case RequestClose(_) => s.listener.Idle?
    case Receive(_, _) => s.listener.Idle?
    case PassWait => s.listener.Blocked? && (!s.running || !Pending(s.slots, s.listener.source))
    case Enqueue => s.listener.Cleared? && s.running && HasSpace(s, s.route(s.listener.source))
    case EndWait => s.listener.Awaiting?
    case Select(i) => s.closer.Scanning? && Nearest(s.slots, i) && s.slots[i].deadline <= s.now
    case EnqueueClose =>
      s.closer.Holding? && s.closer.slot.Active? && s.running && HasSpace(s, s.closer.slot.worker)
    case Release => s.closer.Queued? && s.closer.index < |s.slots|
    case Arrive(w, _) => s.running && HasSpace(s, w)
    case Fetch(w) => s.running && w < |s.queues| && s.queues[w].taken == []
    case Work(w, _) => w < |s.queues| && s.queues[w].taken != []
  }

  function PutOn(s: System, worker: nat, x: Item): System
    requires worker < |s.queues|
  {
    s.(queues := s.queues[worker := Put(s.queues[worker], x)])
  }

  /** The item a cleared command puts in the queue, with its fresh token if it is acknowledged. */
  function CommandItem(l: Listener, a: Ack): Item
    requires l.Cleared?
  {
    match l.command
    case PlainOpen => Open(l.source, 0, l.stamp)
    case ReadyOpen => Open(l.source, a.serial + 1, l.stamp)
    case ReadyClose => Close(l.source, a.serial + 1, l.stamp, 0)
  }

  function Next(s: System, l: Label): System
    requires CanStep(s, l)
  {
    match l
    case Tick(time) => s.(now := time)
    case Shutdown => s.(running := false)
    case RequestClose(source) =>
      var slot := Active(source, s.route(source), s.commands, s.now + CLOSE_GRACE_TIME);
      s.(commands := s.commands + 1, slots := Schedule(s.slots, slot))
    case Receive(command, source) =>
      s.(commands := s.commands + 1, listener := Blocked(command, source, s.commands))
    case PassWait => s.(listener := Cleared(s.listener.command, s.listener.source, s.listener.stamp))
    case Enqueue =>
      var x := CommandItem(s.listener, s.ack);
      var queued := PutOn(s, s.route(s.listener.source), x);
      if s.listener.command.PlainOpen? then queued.(listener := Idle)
      else queued.(listener := Awaiting(x), ack := BeginAck(s.ack))
    case EndWait =>
      var ok := AckSucceeded(s.ack, TokenOf(s.listener.item));
      s.(listener := Idle, ack := s.ack.(waiting := 0), replies := s.replies + [Reply(s.listener.item, ok)])
    case Select(i) => s.(closer := Holding(i, s.slots[i]))
    case EnqueueClose =>
      var slot := s.closer.slot;
      PutOn(s, slot.worker, Close(slot.source, 0, slot.stamp, slot.deadline)).(closer := Queued(s.closer.index, slot))
    case Release => s.(slots := s.slots[s.closer.index := Free], closer := Scanning)
    case Arrive(w, source) => PutOn(s, w, Data(source))
    case Fetch(w) => s.(queues := s.queues[w := Take(s.queues[w])])
    case Work(w, fileOk) =>
      var q := s.queues[w];
      var x := q.taken[0];
      s.(queues := s.queues[w := Execute(q, fileOk)], ack := CompleteAck(s.ack, TokenOf(x), Outcome(q, x, fileOk)))
  }

  function Initial(route: Source -> nat): System {
    System(route, 0, true, 0, seq(MAX_DELAYED_CLOSES, _ => Free), Idle, Scanning, Ack(0, 0, false, false),
           seq(N_WORKERS, _ => EMPTY), [])
  }

  /** A step that cannot be taken yet waits. */
  function Reach(route: Source -> nat, labels: seq<Label>): System {
    if labels == [] then Initial(route)
    else
      var before := Reach(route, labels[..|labels| - 1]);
      var l := labels[|labels| - 1];
      if CanStep(before, l) then Next(before, l) else before
  }
}
