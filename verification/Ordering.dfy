/** Delayed closes keep their place, and an acknowledgement answers the very item it was given for,
    in every interleaving of the receiver's threads. */
module Ordering {
  import opened Workers
  import opened Receiver

  predicate Control(x: Item) {
    !x.Data?
  }

  // ---- the log of one queue ----

  /** Commands about one source are queued in the order they were given. */
  ghost predicate Ordered(log: seq<Item>) {
    forall i, j | 0 <= i < j < |log| && Control(log[i]) && Control(log[j]) && log[i].source == log[j].source ::
      log[i].stamp < log[j].stamp
  }

  /** Every command about the source in this log was given before `stamp`. */
  ghost predicate Before(log: seq<Item>, source: Source, stamp: nat) {
    forall i | 0 <= i < |log| && Control(log[i]) && log[i].source == source :: log[i].stamp < stamp
  }

  ghost predicate ItemSound(s: System, worker: nat, x: Item) {
    Control(x) ==>
      && s.route(x.source) == worker
      && x.stamp < Bound(s)
      && x.token <= s.ack.serial
      && (x.Close? ==> x.due <= s.now)
  }

  ghost predicate LogSound(s: System, worker: nat)
    requires worker < |s.queues|
  {
    var log := Log(s.queues[worker]);
    && Ordered(log)
    && forall i | 0 <= i < |log| :: ItemSound(s, worker, log[i])
  }

  // ---- the whole receiver ----

  /** Commands numbered from here on have put nothing in a queue or in a slot yet. */
  ghost function Bound(s: System): nat {
    if s.listener.Blocked? || s.listener.Cleared? then s.listener.stamp else s.commands
  }

  ghost predicate ListenerSound(s: System) {
    match s.listener
    case Idle => s.ack.waiting == 0
    case Blocked(_, _, stamp) => stamp + 1 == s.commands && s.ack.waiting == 0
    case Cleared(_, source, stamp) =>
      stamp + 1 == s.commands && s.ack.waiting == 0 && (s.running ==> !Pending(s.slots, source))
    case Awaiting(x) => Control(x) && x.token == s.ack.serial == s.ack.waiting && 0 < x.token
  }

  ghost predicate CloserSound(s: System) {
    s.closer.Scanning? ||
    (s.closer.index < |s.slots| && s.slots[s.closer.index] == s.closer.slot && s.closer.slot.Active?
     && s.closer.slot.deadline <= s.now)
  }

  /** The close of a slot is still ahead of everything later about its source, or queued already. */
  ghost predicate SlotSound(s: System, k: nat)
    requires k < |s.slots|
  {
    s.slots[k].Active? ==>
      var slot := s.slots[k];
      && slot.worker == s.route(slot.source)
      && slot.worker < |s.queues|
      && slot.stamp < Bound(s)
      && (if s.closer.Queued? && s.closer.index == k
          then Close(slot.source, 0, slot.stamp, slot.deadline) in Log(s.queues[slot.worker])
            && Before(Log(s.queues[slot.worker]), slot.source, slot.stamp + 1)
          else Before(Log(s.queues[slot.worker]), slot.source, slot.stamp))
  }

  ghost predicate SlotsDistinct(slots: seq<Slot>) {
    forall i, j | 0 <= i < j < |slots| && slots[i].Active? && slots[j].Active? :: slots[i].source != slots[j].source
  }

  ghost predicate Shape(s: System) {
    && |s.queues| == N_WORKERS
    && |s.slots| == MAX_DELAYED_CLOSES
    && forall source :: s.route(source) < N_WORKERS
  }

  ghost predicate Sound(s: System) {
    && Shape(s)
    && (forall w | 0 <= w < N_WORKERS :: LogSound(s, w))
    && (forall k | 0 <= k < |s.slots| :: SlotSound(s, k))
    && SlotsDistinct(s.slots)
    && ListenerSound(s)
    && CloserSound(s)
  }

  // ---- steps that leave every log alone ----

  lemma QuietStep(s: System, l: Label)
    requires Sound(s) && CanStep(s, l) && (l.Tick? || l.Shutdown? || l.Receive? || l.PassWait? || l.EndWait?)
    ensures Sound(Next(s, l))
  {
    var after := Next(s, l);
    assert after.queues == s.queues && after.slots == s.slots;
    assert Bound(s) <= Bound(after);
    forall w | 0 <= w < N_WORKERS
      ensures LogSound(after, w)
    {
      assert LogSound(s, w);
    }
    forall k | 0 <= k < |after.slots|
      ensures SlotSound(after, k)
    {
      assert SlotSound(s, k);
    }
  }

  lemma RequestCloseStep(s: System, source: Source)
    requires Sound(s) && CanStep(s, RequestClose(source))
    ensures Sound(Next(s, RequestClose(source)))
  {
    var after := Next(s, RequestClose(source));
    forall w | 0 <= w < N_WORKERS
      ensures LogSound(after, w)
    {
      assert LogSound(s, w);
    }
    forall k | 0 <= k < |after.slots|
      ensures SlotSound(after, k)
    {
      assert SlotSound(s, k);
      assert LogSound(s, s.route(source));
    }
  }

  lemma SelectStep(s: System, i: nat)
    requires Sound(s) && CanStep(s, Select(i))
    ensures Sound(Next(s, Select(i)))
  {
    var after := Next(s, Select(i));
    forall w | 0 <= w < N_WORKERS
      ensures LogSound(after, w)
    {
      assert LogSound(s, w);
    }
    forall k | 0 <= k < |after.slots|
      ensures SlotSound(after, k)
    {
      assert SlotSound(s, k);
    }
  }

  lemma ReleaseStep(s: System)
    requires Sound(s) && CanStep(s, Release)
    ensures Sound(Next(s, Release))
  {
    var after := Next(s, Release);
    forall w | 0 <= w < N_WORKERS
      ensures LogSound(after, w)
    {
      assert LogSound(s, w);
    }
    forall k | 0 <= k < |after.slots|
      ensures SlotSound(after, k)
    {
      assert SlotSound(s, k);
    }
  }

  // ---- steps of a worker: the log is the same, the work moves through it ----

  lemma WorkerStep(s: System, l: Label)
    requires Sound(s) && CanStep(s, l) && (l.Fetch? || l.Work?)
    ensures Sound(Next(s, l))
  {
    var after := Next(s, l);
    LogAfter(s.queues[l.worker], if l.Fetch? then Taking else Executing(l.fileOk));
    forall w | 0 <= w < N_WORKERS
      ensures Log(after.queues[w]) == Log(s.queues[w]) && LogSound(after, w)
    {
      assert LogSound(s, w);
    }
    forall k | 0 <= k < |after.slots|
      ensures SlotSound(after, k)
    {
      assert SlotSound(s, k);
    }
  }

  // ---- steps that append ----

  lemma PutAppends(q: Queue, x: Item)
    ensures Log(Put(q, x)) == Log(q) + [x]
  {
  }

  lemma OrderedAppend(log: seq<Item>, x: Item)
    requires Ordered(log) && (Control(x) ==> Before(log, x.source, x.stamp))
    ensures Ordered(log + [x])
  {
  }

  /** The rest of the receiver while one queue grows by one item. */
  ghost predicate Grown(s: System, after: System, w: nat, x: Item) {
    && w < |s.queues|
    && after.route == s.route && after.now == s.now && after.slots == s.slots
    && after.queues == s.queues[w := Put(s.queues[w], x)]
    && Bound(s) <= Bound(after)
    && s.ack.serial <= after.ack.serial
  }

  lemma LogSoundAfterPut(s: System, after: System, w: nat, x: Item, v: nat)
    requires Grown(s, after, w, x) && v < |s.queues| && LogSound(s, v)
    requires v == w ==> (Control(x) ==> Before(Log(s.queues[w]), x.source, x.stamp)) && ItemSound(after, w, x)
    ensures LogSound(after, v)
  {
    if v == w {
      PutAppends(s.queues[w], x);
      OrderedAppend(Log(s.queues[w]), x);
    }
  }

  lemma SlotSoundAfterPut(s: System, after: System, w: nat, x: Item, k: nat)
    requires Grown(s, after, w, x) && k < |s.slots| && SlotSound(s, k)
    requires after.closer == s.closer || (s.closer.Holding? && after.closer.Queued? && after.closer.index != k)
    requires s.slots[k].Active? && Control(x) ==> x.source != s.slots[k].source
    ensures SlotSound(after, k)
  {
    PutAppends(s.queues[w], x);
  }

  lemma ArriveStep(s: System, w: nat, source: Source)
    requires Sound(s) && CanStep(s, Arrive(w, source))
    ensures Sound(Next(s, Arrive(w, source)))
  {
    var after := Next(s, Arrive(w, source));
    forall v | 0 <= v < N_WORKERS
      ensures LogSound(after, v)
    {
      LogSoundAfterPut(s, after, w, Data(source), v);
    }
    forall k | 0 <= k < |after.slots|
      ensures SlotSound(after, k)
    {
      SlotSoundAfterPut(s, after, w, Data(source), k);
    }
  }

  lemma EnqueueStep(s: System)
    requires Sound(s) && CanStep(s, Enqueue)
    ensures Sound(Next(s, Enqueue))
  {
    var after := Next(s, Enqueue);
    var w := s.route(s.listener.source);
    var x := CommandItem(s.listener, s.ack);
    forall v | 0 <= v < N_WORKERS
      ensures LogSound(after, v)
    {
      assert LogSound(s, v);
      LogSoundAfterPut(s, after, w, x, v);
    }
    forall k | 0 <= k < |after.slots|
      ensures SlotSound(after, k)
    {
      SlotSoundAfterPut(s, after, w, x, k);
    }
  }

  lemma EnqueueCloseStep(s: System)
    requires Sound(s) && CanStep(s, EnqueueClose)
    ensures Sound(Next(s, EnqueueClose))
  {
    var after := Next(s, EnqueueClose);
    var slot := s.closer.slot;
    var x := Close(slot.source, 0, slot.stamp, slot.deadline);
    assert SlotSound(s, s.closer.index);
    forall v | 0 <= v < N_WORKERS
      ensures LogSound(after, v)
    {
      LogSoundAfterPut(s, after, slot.worker, x, v);
    }
    forall k | 0 <= k < |after.slots|
      ensures SlotSound(after, k)
    {
      if k == s.closer.index {
        PutAppends(s.queues[slot.worker], x);
      } else {
        SlotSoundAfterPut(s, after, slot.worker, x, k);
      }
    }
  }

  lemma SoundAfter(s: System, l: Label)
    requires Sound(s) && CanStep(s, l)
    ensures Sound(Next(s, l))
  {
    match l
    case RequestClose(source) => RequestCloseStep(s, source);
    case Enqueue => EnqueueStep(s);
    case Select(i) => SelectStep(s, i);
    case EnqueueClose => EnqueueCloseStep(s);
    case Release => ReleaseStep(s);
    case Arrive(w, source) => ArriveStep(s, w, source);
    case Fetch(_) => WorkerStep(s, l);
    case Work(_, _) => WorkerStep(s, l);
    case _ => QuietStep(s, l);
  }

  lemma {:induction false} SoundAlways(route: Source -> nat, labels: seq<Label>)
    requires forall source :: route(source) < N_WORKERS
    ensures Sound(Reach(route, labels))
  {
    if labels != [] {
      SoundAlways(route, labels[..|labels| - 1]);
      var before := Reach(route, labels[..|labels| - 1]);
      if CanStep(before, labels[|labels| - 1]) {
        SoundAfter(before, labels[|labels| - 1]);
      }
    } else {
      var s := Initial(route);
      forall w | 0 <= w < N_WORKERS
        ensures LogSound(s, w)
      {
        assert Log(s.queues[w]) == [];
      }
    }
  }

  /** In every reachable state: commands about a source are queued in the order they were given, so
      a delayed CLOSE precedes everything asked after it and ends no file opened later; a source
      has at most one active delayed CLOSE, and nothing later is queued while it is active; no
      delayed CLOSE is queued before its deadline. */
  lemma DelayedClosesKeepTheirPlace(route: Source -> nat, labels: seq<Label>, w: nat)
    requires (forall source :: route(source) < N_WORKERS) && w < N_WORKERS
    ensures var s := Reach(route, labels);
            && |s.queues| == N_WORKERS
            && var log := Log(s.queues[w]);
            && (forall i, j | 0 <= i < |log| && 0 <= j < |log| && Control(log[i]) && Control(log[j])
                              && log[i].source == log[j].source :: i < j <==> log[i].stamp < log[j].stamp)
            && (forall i | 0 <= i < |log| && log[i].Close? :: log[i].due <= s.now)
            && (forall k, i | 0 <= k < |s.slots| && s.slots[k].Active? && 0 <= i < |log| && Control(log[i])
                              && log[i].source == s.slots[k].source :: log[i].stamp <= s.slots[k].stamp)
            && SlotsDistinct(s.slots)
  {
    SoundAlways(route, labels);
    var s := Reach(route, labels);
    var log := Log(s.queues[w]);
    assert LogSound(s, w);
    forall i, j | 0 <= i < |log| && 0 <= j < |log| && Control(log[i]) && Control(log[j]) && log[i].source == log[j].source
      ensures i < j <==> log[i].stamp < log[j].stamp
    {
      if j < i {
        assert log[j].stamp < log[i].stamp;
      }
    }
    forall k, i | 0 <= k < |s.slots| && s.slots[k].Active? && 0 <= i < |log| && Control(log[i])
                  && log[i].source == s.slots[k].source
      ensures log[i].stamp <= s.slots[k].stamp
    {
      assert SlotSound(s, k) && ItemSound(s, w, log[i]);
    }
  }

  /** What the worker executes is a prefix of its log, so a CLOSE it executes after an OPEN of the same source was
      asked for after that OPEN. */
  lemma NoFileEndsByAnEarlierRequest(route: Source -> nat, labels: seq<Label>, w: nat, i: nat, j: nat)
    requires (forall source :: route(source) < N_WORKERS) && w < N_WORKERS
    requires w < |Reach(route, labels).queues|
    requires i < j < |Reach(route, labels).queues[w].executed|
    requires var h := Reach(route, labels).queues[w].executed;
             h[i].item.Open? && h[j].item.Close? && h[i].item.source == h[j].item.source
    ensures var h := Reach(route, labels).queues[w].executed;
            h[i].item.stamp < h[j].item.stamp
  {
    DelayedClosesKeepTheirPlace(route, labels, w);
    var q := Reach(route, labels).queues[w];
    assert Log(q)[i] == q.executed[i].item && Log(q)[j] == q.executed[j].item;
  }
}
