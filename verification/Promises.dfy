/** What the receiver owes to a request: an accepted CLOSE is never forgotten, and an item executed
    in time is answered for what it was. */
module Promises {
  import opened Workers
  import opened Receiver
  import opened Ordering
  import opened Acknowledgements

  // ---- delayed closes ----

  /** The close is still scheduled, or it is in the queue of the worker of its source. */
  ghost predicate Promised(s: System, source: Source, stamp: nat, due: nat) {
    s.route(source) < |s.queues| &&
    (Active(source, s.route(source), stamp, due) in s.slots
     || Close(source, 0, stamp, due) in Log(s.queues[s.route(source)]))
  }

  lemma LogGrows(s: System, l: Label, w: nat, x: Item)
    requires CanStep(s, l) && w < |s.queues| && x in Log(s.queues[w])
    ensures |Next(s, l).queues| == |s.queues| && x in Log(Next(s, l).queues[w])
  {
    var q := s.queues[w];
    match l
    case Enqueue => PutKeeps(q, CommandItem(s.listener, s.ack), x);
    case EnqueueClose => PutKeeps(q, Close(s.closer.slot.source, 0, s.closer.slot.stamp, s.closer.slot.deadline), x);
    case Arrive(_, source) => PutKeeps(q, Data(source), x);
    case Fetch(_) => LogAfter(q, Taking);
    case Work(_, fileOk) => LogAfter(q, Executing(fileOk));
    case _ =>
  }

  lemma PutKeeps(q: Queue, y: Item, x: Item)
    requires x in Log(q)
    ensures x in Log(Put(q, y))
  {
    PutAppends(q, y);
  }

  lemma RouteKept(s: System, l: Label)
    requires CanStep(s, l)
    ensures Next(s, l).route == s.route
  {
  }

  /** A slot goes only when its close is in the queue. */
  lemma SlotGoesQueued(s: System, l: Label, slot: Slot)
    requires Sound(s) && CanStep(s, l) && slot.Active? && slot in s.slots
    ensures slot in Next(s, l).slots || Close(slot.source, 0, slot.stamp, slot.deadline) in Log(s.queues[s.route(slot.source)])
  {
    var k :| 0 <= k < |s.slots| && s.slots[k] == slot;
    assert SlotSound(s, k);
    if l.Release? && s.closer.index == k {
    } else {
      assert Next(s, l).slots[k] == slot;
    }
  }

  lemma PromiseStays(s: System, l: Label, source: Source, stamp: nat, due: nat)
    requires Sound(s) && CanStep(s, l) && Promised(s, source, stamp, due)
    ensures Promised(Next(s, l), source, stamp, due)
  {
    var w := s.route(source);
    RouteKept(s, l);
    var slot := Active(source, w, stamp, due);
    if slot in s.slots {
      SlotGoesQueued(s, l, slot);
    }
    if Close(source, 0, stamp, due) in Log(s.queues[w]) {
      LogGrows(s, l, w, Close(source, 0, stamp, due));
    } else {
      assert slot in Next(s, l).slots;
      assert |Next(s, l).queues| == |s.queues|;
    }
  }

  lemma {:induction false} PromiseKept(route: Source -> nat, before: seq<Label>, labels: seq<Label>, source: Source, stamp: nat, due: nat)
    requires forall source :: route(source) < N_WORKERS
    requires Promised(Reach(route, before), source, stamp, due)
    ensures Promised(Reach(route, before + labels), source, stamp, due)
  {
    if labels == [] {
      assert before + labels == before;
    } else {
      var n := |labels| - 1;
      PromiseKept(route, before, labels[..n], source, stamp, due);
      PromiseStep(route, before + labels[..n], labels[n], source, stamp, due);
      assert before + labels == before + labels[..n] + [labels[n]];
    }
  }

  lemma PromiseStep(route: Source -> nat, labels: seq<Label>, l: Label, source: Source, stamp: nat, due: nat)
    requires forall source :: route(source) < N_WORKERS
    requires Promised(Reach(route, labels), source, stamp, due)
    ensures Promised(Reach(route, labels + [l]), source, stamp, due)
  {
    assert (labels + [l])[..|labels|] == labels;
    SoundAlways(route, labels);
    if CanStep(Reach(route, labels), l) {
      PromiseStays(Reach(route, labels), l, source, stamp, due);
    }
  }

  lemma RequestPromises(s: System, source: Source)
    requires Sound(s) && CanStep(s, RequestClose(source))
    requires !Pending(s.slots, source) && exists k :: 0 <= k < |s.slots| && s.slots[k].Free?
    ensures Promised(Next(s, RequestClose(source)), source, s.commands, s.now + 2)
  {
    var free := FirstFree(s.slots);
    assert free < |s.slots|;
    assert Next(s, RequestClose(source)).slots[free] == Active(source, s.route(source), s.commands, s.now + 2);
  }

  /** In every interleaving, a CLOSE that found no active close of its source and a free slot is, to
      the end of the run, either scheduled or in the queue of its source, due two seconds after the
      request. */
  lemma RequestedCloseIsKept(route: Source -> nat, before: seq<Label>, source: Source, labels: seq<Label>)
    requires forall source :: route(source) < N_WORKERS
    requires var s := Reach(route, before);
             && s.listener.Idle?
             && (forall k | 0 <= k < |s.slots| :: !(s.slots[k].Active? && s.slots[k].source == source))
             && exists k :: 0 <= k < |s.slots| && s.slots[k].Free?
    ensures var s := Reach(route, before);
            Promised(Reach(route, before + [RequestClose(source)] + labels), source, s.commands, s.now + 2)
  {
    var s := Reach(route, before);
    SoundAlways(route, before);
    RequestPromises(s, source);
    assert (before + [RequestClose(source)])[..|before|] == before;
    PromiseKept(route, before + [RequestClose(source)], labels, source, s.commands, s.now + 2);
  }

  /** A close that is already scheduled answers a second request, and is kept likewise. */
  lemma ScheduledCloseIsKept(route: Source -> nat, before: seq<Label>, k: nat, labels: seq<Label>)
    requires forall source :: route(source) < N_WORKERS
    requires k < |Reach(route, before).slots| && Reach(route, before).slots[k].Active?
    ensures var slot := Reach(route, before).slots[k];
            Promised(Reach(route, before + labels), slot.source, slot.stamp, slot.deadline)
  {
    SoundAlways(route, before);
    var s := Reach(route, before);
    assert SlotSound(s, k);
    PromiseKept(route, before, labels, s.slots[k].source, s.slots[k].stamp, s.slots[k].deadline);
  }

  /** While any close is overdue, the close worker has one to take. */
  lemma {:induction false} NearestExists(slots: seq<Slot>) returns (i: nat)
    requires exists k :: 0 <= k < |slots| && slots[k].Active?
    ensures Nearest(slots, i)
  {
    var n := |slots| - 1;
    if exists k :: 0 <= k < n && slots[k].Active? {
      var j :| 0 <= j < n && slots[j].Active?;
      assert slots[..n][j] == slots[j];
      i := NearestExists(slots[..n]);
      if slots[n].Active? && slots[n].deadline < slots[i].deadline {
        i := n;
      }
    } else {
      i := n;
    }
  }

  lemma OverdueCloseCanBeTaken(s: System, k: nat)
    requires s.closer.Scanning? && k < |s.slots| && s.slots[k].Active? && s.slots[k].deadline <= s.now
    ensures exists i :: CanStep(s, Select(i))
  {
    var i := NearestExists(s.slots);
    assert s.slots[i].deadline <= s.slots[k].deadline;
    assert CanStep(s, Select(i));
  }

  // ---- acknowledgements ----

  /** If the awaited item has been executed, its completion is recorded with its outcome. */
  ghost predicate Recorded(s: System) {
    s.listener.Awaiting? ==>
      forall w, i | 0 <= w < |s.queues| && 0 <= i < |s.queues[w].executed| && s.queues[w].executed[i].item == s.listener.item ::
        s.ack.done && s.ack.success == s.queues[w].executed[i].ok
  }

  lemma RecordedUnlessWork(s: System, l: Label)
    requires Sound(s) && Recorded(s) && CanStep(s, l) && !l.Work? && !l.Enqueue?
    ensures Recorded(Next(s, l))
  {
    var after := Next(s, l);
    forall w | 0 <= w < |after.queues|
      ensures w < |s.queues| && after.queues[w].executed == s.queues[w].executed
    {
    }
  }

  lemma RecordedAfterEnqueue(s: System)
    requires Sound(s) && CanStep(s, Enqueue)
    ensures Recorded(Next(s, Enqueue))
  {
    var after := Next(s, Enqueue);
    if after.listener.Awaiting? {
      forall w, i | 0 <= w < |after.queues| && 0 <= i < |after.queues[w].executed|
        ensures after.queues[w].executed[i].item != after.listener.item
      {
        assert after.queues[w].executed == s.queues[w].executed;
        assert LogSound(s, w);
        assert Log(s.queues[w])[i] == s.queues[w].executed[i].item;
        assert ItemSound(s, w, Log(s.queues[w])[i]);
      }
    }
  }

  /** A command is in the log of its worker once. */
  lemma CommandOnce(s: System, w: nat, i: nat, j: nat)
    requires Sound(s) && w < |s.queues| && i < j < |Log(s.queues[w])| && Control(Log(s.queues[w])[i])
    ensures Log(s.queues[w])[i] != Log(s.queues[w])[j]
  {
    assert LogSound(s, w);
  }

  lemma RecordedAfterWork(s: System, w: nat, fileOk: bool)
    requires Sound(s) && Answered(s) && Recorded(s) && CanStep(s, Work(w, fileOk))
    ensures Recorded(Next(s, Work(w, fileOk)))
  {
    var after := Next(s, Work(w, fileOk));
    var q := s.queues[w];
    var y := q.taken[0];
    if s.listener.Awaiting? {
      var x := s.listener.item;
      assert Log(q)[|q.executed|] == y;
      forall v, i | 0 <= v < |after.queues| && 0 <= i < |after.queues[v].executed| && after.queues[v].executed[i].item == x
        ensures after.ack.done && after.ack.success == after.queues[v].executed[i].ok
      {
        ExecutedBeforeOrNow(s, w, fileOk, v, i);
        if v == w && i == |q.executed| {
        } else if y == x {
          assert Log(s.queues[v])[i] == x;
          OneQueue(s, v, i, w, |q.executed|);
          CommandOnce(s, w, i, |q.executed|);
        }
      }
    }
  }

  lemma ExecutedBeforeOrNow(s: System, w: nat, fileOk: bool, v: nat, i: nat)
    requires CanStep(s, Work(w, fileOk)) && v < |s.queues| && i < |Next(s, Work(w, fileOk)).queues[v].executed|
    ensures var q := s.queues[w];
            if v == w && i == |q.executed| then
              Next(s, Work(w, fileOk)).queues[v].executed[i] == Executed(q.taken[0], Outcome(q, q.taken[0], fileOk))
            else i < |s.queues[v].executed| && Next(s, Work(w, fileOk)).queues[v].executed[i] == s.queues[v].executed[i]
  {
  }

  /** The same command cannot be in the logs of two workers. */
  lemma OneQueue(s: System, v: nat, i: nat, w: nat, j: nat)
    requires Sound(s) && v < |s.queues| && w < |s.queues| && i < |Log(s.queues[v])| && j < |Log(s.queues[w])|
    requires Log(s.queues[v])[i] == Log(s.queues[w])[j] && Control(Log(s.queues[w])[j])
    ensures v == w
  {
    assert LogSound(s, v) && LogSound(s, w);
    assert ItemSound(s, v, Log(s.queues[v])[i]) && ItemSound(s, w, Log(s.queues[w])[j]);
  }

  lemma {:induction false} RecordedAlways(route: Source -> nat, labels: seq<Label>)
    requires forall source :: route(source) < N_WORKERS
    ensures Recorded(Reach(route, labels))
  {
    if labels != [] {
      var before, l := Reach(route, labels[..|labels| - 1]), labels[|labels| - 1];
      RecordedAlways(route, labels[..|labels| - 1]);
      SoundAlways(route, labels[..|labels| - 1]);
      OkMeansExecuted(route, labels[..|labels| - 1]);
      if CanStep(before, l) {
        match l
        case Enqueue => RecordedAfterEnqueue(before);
        case Work(w, fileOk) => RecordedAfterWork(before, w, fileOk);
        case _ => RecordedUnlessWork(before, l);
      }
    }
  }

  /** The reply given when a wait ends is OK if and only if the awaited item has been executed with
      success by then. */
  lemma ReplyIsTruthful(route: Source -> nat, labels: seq<Label>)
    requires forall source :: route(source) < N_WORKERS
    requires Reach(route, labels).listener.Awaiting?
    ensures var s := Reach(route, labels);
            var x := s.listener.item;
            exists ok :: Next(s, EndWait).replies == s.replies + [Reply(x, ok)] && (ok <==> Ran(s, x, true))
  {
    var s := Reach(route, labels);
    var x := s.listener.item;
    SoundAlways(route, labels);
    OkMeansExecuted(route, labels);
    RecordedAlways(route, labels);
    var ok := AckSucceeded(s.ack, TokenOf(x));
    if Ran(s, x, true) {
      var w, i :| 0 <= w < |s.queues| && 0 <= i < |s.queues[w].executed| && s.queues[w].executed[i] == Executed(x, true);
      assert s.queues[w].executed[i].item == x;
    }
    assert Next(s, EndWait).replies == s.replies + [Reply(x, ok)];
  }
}
