/** An OK to OPEN_READY or CLOSE_READY means that the worker executed that very item. */
module Acknowledgements {
  import opened Workers
  import opened Receiver
  import opened Ordering

  /** Some worker has executed this item with this outcome. */
  ghost predicate Ran(s: System, x: Item, ok: bool) {
    exists w, i | 0 <= w < |s.queues| && 0 <= i < |s.queues[w].executed| :: s.queues[w].executed[i] == Executed(x, ok)
  }

  /** Only the awaited item carries the awaited token, and a recorded completion is its own. */
  ghost predicate Answered(s: System) {
    && (s.listener.Awaiting? ==>
      && (forall w, i | 0 <= w < |s.queues| && 0 <= i < |Log(s.queues[w])| ::
            TokenOf(Log(s.queues[w])[i]) == TokenOf(s.listener.item) ==> Log(s.queues[w])[i] == s.listener.item)
      && (s.ack.done ==> Ran(s, s.listener.item, s.ack.success)))
    && forall r | r in s.replies && r.ok :: Ran(s, r.item, true)
  }

  lemma RanStays(s: System, after: System, x: Item, ok: bool)
    requires Ran(s, x, ok) && |after.queues| == |s.queues|
    requires forall w | 0 <= w < |s.queues| :: s.queues[w].executed <= after.queues[w].executed
    ensures Ran(after, x, ok)
  {
    var w, i :| 0 <= w < |s.queues| && 0 <= i < |s.queues[w].executed| && s.queues[w].executed[i] == Executed(x, ok);
    assert after.queues[w].executed[i] == Executed(x, ok);
  }

  /** Nothing is executed in this step and no awaited item appears or disappears. */
  lemma AnsweredUnlessWork(s: System, l: Label)
    requires Sound(s) && Answered(s) && CanStep(s, l) && !l.Work? && !l.Enqueue?
    ensures Answered(Next(s, l))
  {
    var after := Next(s, l);
    forall w | 0 <= w < |s.queues|
      ensures s.queues[w].executed == after.queues[w].executed
      ensures forall i | 0 <= i < |Log(after.queues[w])| ::
                TokenOf(Log(after.queues[w])[i]) == 0 || Log(after.queues[w])[i] in Log(s.queues[w])
    {
      match l
      case EnqueueClose => LogsAfterPut(s, after, w, s.closer.slot.worker, Close(s.closer.slot.source, 0, s.closer.slot.stamp, s.closer.slot.deadline));
      case Arrive(v, source) => LogsAfterPut(s, after, w, v, Data(source));
      case Fetch(v) => LogAfter(s.queues[v], Taking);
      case _ =>
    }
    forall x, ok | Ran(s, x, ok)
      ensures Ran(after, x, ok)
    {
      RanStays(s, after, x, ok);
    }
  }

  lemma LogsAfterPut(s: System, after: System, w: nat, v: nat, x: Item)
    requires w < |s.queues| && v < |s.queues| && TokenOf(x) == 0
    requires after.queues == s.queues[v := Put(s.queues[v], x)]
    ensures s.queues[w].executed == after.queues[w].executed
    ensures forall i | 0 <= i < |Log(after.queues[w])| ::
              TokenOf(Log(after.queues[w])[i]) == 0 || Log(after.queues[w])[i] in Log(s.queues[w])
  {
    PutAppends(s.queues[v], x);
  }

  lemma AnsweredAfterEnqueue(s: System)
    requires Sound(s) && Answered(s) && CanStep(s, Enqueue)
    ensures Answered(Next(s, Enqueue))
  {
    var after := Next(s, Enqueue);
    var x := CommandItem(s.listener, s.ack);
    var v := s.route(s.listener.source);
    PutAppends(s.queues[v], x);
    forall w, i | 0 <= w < |after.queues| && 0 <= i < |Log(after.queues[w])|
      ensures TokenOf(Log(after.queues[w])[i]) == s.ack.serial + 1 ==> Log(after.queues[w])[i] == x
    {
      assert LogSound(s, w);
      if i < |Log(s.queues[w])| {
        assert Log(after.queues[w])[i] == Log(s.queues[w])[i];
        assert ItemSound(s, w, Log(s.queues[w])[i]);
      }
    }
    forall r | r in s.replies && r.ok
      ensures Ran(after, r.item, true)
    {
      RanStays(s, after, r.item, true);
    }
  }

  lemma AnsweredAfterWork(s: System, w: nat, fileOk: bool)
    requires Sound(s) && Answered(s) && CanStep(s, Work(w, fileOk))
    ensures Answered(Next(s, Work(w, fileOk)))
  {
    var after := Next(s, Work(w, fileOk));
    var x := s.queues[w].taken[0];
    WorkRuns(s, w, fileOk);
    forall r | r in s.replies && r.ok
      ensures Ran(after, r.item, true)
    {
      RanStays(s, after, r.item, true);
    }
    if s.listener.Awaiting? {
      if s.ack.done {
        RanStays(s, after, s.listener.item, s.ack.success);
      }
      if TokenOf(x) == TokenOf(s.listener.item) {
        assert Log(s.queues[w])[|s.queues[w].executed|] == x;
      }
    }
  }

  /** The step executes the first item taken; no log changes. */
  lemma WorkRuns(s: System, w: nat, fileOk: bool)
    requires CanStep(s, Work(w, fileOk))
    ensures var after := Next(s, Work(w, fileOk));
            var q := s.queues[w];
            && |after.queues| == |s.queues|
            && (forall v | 0 <= v < |s.queues| ::
                 Log(after.queues[v]) == Log(s.queues[v]) && s.queues[v].executed <= after.queues[v].executed)
            && Ran(after, q.taken[0], Outcome(q, q.taken[0], fileOk))
            && |q.executed| < |Log(q)| && Log(q)[|q.executed|] == q.taken[0]
  {
    var after := Next(s, Work(w, fileOk));
    var q := s.queues[w];
    LogAfter(q, Executing(fileOk));
    assert after.queues[w].executed[|q.executed|] == Executed(q.taken[0], Outcome(q, q.taken[0], fileOk));
  }

  /** In every interleaving, an OK reply means that the item put in the queue for that very request
      has been executed with success; a completion whose waiter has given up answers nobody else. */
  lemma {:induction false} OkMeansExecuted(route: Source -> nat, labels: seq<Label>)
    requires forall source :: route(source) < N_WORKERS
    ensures var s := Reach(route, labels);
            Answered(s) && forall r | r in s.replies && r.ok :: Ran(s, r.item, true)
  {
    if labels != [] {
      var before, l := Reach(route, labels[..|labels| - 1]), labels[|labels| - 1];
      OkMeansExecuted(route, labels[..|labels| - 1]);
      SoundAlways(route, labels[..|labels| - 1]);
      if CanStep(before, l) {
        match l
        case Enqueue => AnsweredAfterEnqueue(before);
        case Work(w, fileOk) => AnsweredAfterWork(before, w, fileOk);
        case _ => AnsweredUnlessWork(before, l);
      }
    }
  }
}
