/** No sample is lost or counted twice, whatever the threads do, and stop() leaves every accepted
    sample counted. */
module Conservation {
  import opened Fsm
  import opened Persistence

  // ---- shape ----

  lemma AllOfAppend(samples: seq<Item>, x: Item)
    requires AllOf(samples, x.key)
    ensures AllOf(samples + [x], x.key)
  {
  }

  lemma FlushFits(s: System, t: nat, keys: set<Key>)
    requires Shape(s) && Free(s, t) && (t < PERSISTENCE_WORKERS ==> !s.threads[t].exited)
    ensures Shape(Flushed(s, t, keys))
  {
    var batches := Flushed(s, t, keys).threads[t].batches;
    forall k | k in batches
      ensures k in s.streams && batches[k].samples != [] && AllOf(batches[k].samples, k)
    {
      assert BufferFits(s.streams.Keys, k, s.buffers[k]);
    }
  }

  lemma KeepFits(s: System, t: nat, now: int)
    requires Shape(s) && Possible(s, Keep(t, now))
    ensures Shape(Next(s, Keep(t, now)))
  {
    var x := s.threads[t].job.item;
    assert ThreadFits(s.streams.Keys, t, s.threads[t]);
    assert x.key in s.buffers ==> BufferFits(s.streams.Keys, x.key, s.buffers[x.key]);
    AllOfAppend(BufferOf(s.buffers, x.key).samples, x);
  }

  lemma StreamsFit(s: System, after: System)
    requires Shape(s) && s.streams.Keys <= after.streams.Keys
    requires after.(streams := s.streams, accepted := s.accepted, refused := s.refused, queue := s.queue) == s
    requires |after.queue| <= PERSISTENCE_QUEUE_MAXSIZE
    requires forall i | 0 <= i < |after.queue| :: after.queue[i].key in after.streams
    ensures Shape(after)
  {
    forall u: nat | u < |s.threads|
      ensures ThreadFits(after.streams.Keys, u, s.threads[u])
    {
      assert ThreadFits(s.streams.Keys, u, s.threads[u]);
    }
  }

  lemma WorkFits(s: System, step: Step, t: nat)
    requires Shape(s) && Possible(s, step)
    requires step in {Fetch(t), Discard(t), Mark(t), TaskDone(t), Exit(t)}
    ensures Shape(Next(s, step))
  {
    var after := Next(s, step);
    assert ThreadFits(s.streams.Keys, t, s.threads[t]);
    assert ThreadFits(s.streams.Keys, t, after.threads[t]);
    assert after.streams.Keys == s.streams.Keys;
  }

  lemma BatchFits(s: System, step: Step, t: nat, k: Key)
    requires Shape(s) && Possible(s, step)
    requires step == Tally(t, k) || (step.Write? && step.t == t && step.key == k)
    ensures Shape(Next(s, step))
  {
    var after := Next(s, step);
    assert ThreadFits(s.streams.Keys, t, s.threads[t]);
    assert ThreadFits(s.streams.Keys, t, after.threads[t]);
    assert after.streams.Keys == s.streams.Keys;
  }

  lemma StartFits(s: System)
    requires Shape(s) && Possible(s, Start)
    ensures Shape(Next(s, Start))
  {
    var after := Next(s, Start);
    forall u: nat | u < |s.threads|
      ensures ThreadFits(s.streams.Keys, u, after.threads[u])
    {
      assert ThreadFits(s.streams.Keys, u, s.threads[u]);
    }
  }

  lemma ShapeAfter(s: System, step: Step)
    requires Shape(s) && Possible(s, step)
    ensures Shape(Next(s, step))
  {
    match step
    case Prepare(_) => StreamsFit(s, Next(s, step));
    case Enable(_, _) => StreamsFit(s, Next(s, step));
    case Start => StartFits(s);
    case Enqueue(x, full) => StreamsFit(s, Next(s, step));
    case Fetch(t) => WorkFits(s, step, t);
    case Discard(t) => WorkFits(s, step, t);
    case Mark(t) => WorkFits(s, step, t);
    case TaskDone(t) => WorkFits(s, step, t);
    case Exit(t) => WorkFits(s, step, t);
    case Keep(t, now) => KeepFits(s, t, now);
    case Write(t, k, _) => BatchFits(s, step, t, k);
    case Tally(t, k) => BatchFits(s, step, t, k);
    case FlushDue(t, now) => FlushFits(s, t, Due(s.buffers, now));
    case FlushStream(t, k) => FlushFits(s, t, {k});
    case FlushAll => FlushFits(s, STOPPER, s.buffers.Keys);
    case _ =>
  }

  // ---- conservation ----

  /** How two measures move when one thread changes. */
  lemma SumsAfter(threads: seq<Thread>, t: nat, thread: Thread, sel: Selector)
    requires t < |threads|
    ensures Sum(threads[t := thread], sel, Held) == Sum(threads, sel, Held) - Weight(threads[t], sel, Held) + Weight(thread, sel, Held)
    ensures Sum(threads[t := thread], sel, OnDisk)
            == Sum(threads, sel, OnDisk) - Weight(threads[t], sel, OnDisk) + Weight(thread, sel, OnDisk)
  {
    SumUpdate(threads, t, thread, sel, Held);
    SumUpdate(threads, t, thread, sel, OnDisk);
  }

  lemma ConservedByFetch(s: System, t: nat, sel: Selector)
    requires Shape(s) && Possible(s, Fetch(t)) && Conserved(s, sel)
    ensures Conserved(Next(s, Fetch(t)), sel)
  {
    SumsAfter(s.threads, t, Next(s, Fetch(t)).threads[t], sel);
    CountRest(s.queue, sel);
  }

  lemma ConservedByDiscard(s: System, t: nat, sel: Selector)
    requires Shape(s) && Possible(s, Discard(t)) && Conserved(s, sel)
    ensures Conserved(Next(s, Discard(t)), sel)
  {
    var x := s.threads[t].job.item;
    var thread := s.threads[t].(job := Settled(x));
    assert ThreadFits(s.streams.Keys, t, s.threads[t]);
    SumsAfter(s.threads, t, thread, sel);
    KeepWeights(s.threads[t], thread, x, map[], sel);
    CountAppend(s.lost, x, sel);
    assert Next(s, Discard(t)).threads == s.threads[t := thread];
    assert Next(s, Discard(t)).lost == s.lost + [x];
  }

  /** The sample moves from the worker to the buffer, or with the whole buffer to the batch. */
  lemma KeepMoves(buffers: map<Key, Buffer>, x: Item, now: int, sel: Selector)
    ensures BatchWeight(FullBatch(buffers, x), sel, Held) + Count(BufferOf(Appended(buffers, x, now), KeyOf(sel)).samples, sel)
            == Count(BufferOf(buffers, KeyOf(sel)).samples, sel) + if Picks(sel, x) then 1 else 0
    ensures BatchWeight(FullBatch(buffers, x), sel, OnDisk) == 0
  {
    var before := BufferOf(buffers, x.key).samples;
    CountAppend(before, x, sel);
    assert Count(EMPTY.samples, sel) == 0;
    if KeyOf(sel) == x.key {
      if |before| + 1 >= PERSISTENCE_BATCH_SAMPLES {
        assert FullBatch(buffers, x)[x.key].samples == before + [x];
      } else {
        assert Appended(buffers, x, now)[x.key].samples == before + [x];
      }
    } else {
      assert BufferOf(Appended(buffers, x, now), KeyOf(sel)) == BufferOf(buffers, KeyOf(sel));
    }
  }

  lemma KeepWeights(before: Thread, after: Thread, x: Item, batches: map<Key, Batch>, sel: Selector)
    requires before.job == Fetched(x) && before.batches == map[]
    requires after.job == Settled(x) && after.batches == batches
    ensures Weight(before, sel, Held) == (if Picks(sel, x) then 1 else 0) && Weight(before, sel, OnDisk) == 0
    ensures Weight(after, sel, Held) == BatchWeight(batches, sel, Held)
    ensures Weight(after, sel, OnDisk) == BatchWeight(batches, sel, OnDisk)
  {
  }

  lemma ConservedByKeep(s: System, t: nat, now: int, sel: Selector)
    requires Shape(s) && Possible(s, Keep(t, now)) && Conserved(s, sel)
    ensures Conserved(Next(s, Keep(t, now)), sel)
  {
    var x := s.threads[t].job.item;
    var thread := Next(s, Keep(t, now)).threads[t];
    assert ThreadFits(s.streams.Keys, t, s.threads[t]);
    SumsAfter(s.threads, t, thread, sel);
    KeepMoves(s.buffers, x, now, sel);
    KeepWeights(s.threads[t], thread, x, FullBatch(s.buffers, x), sel);
  }

  lemma WriteMoves(batches: map<Key, Batch>, k: Key, ok: bool, sel: Selector)
    requires k in batches && batches[k].outcome.None? && AllOf(batches[k].samples, k)
    ensures var after := batches[k := batches[k].(outcome := Some(ok))];
            && BatchWeight(after, sel, Held) == BatchWeight(batches, sel, Held)
            && BatchWeight(after, sel, OnDisk) == BatchWeight(batches, sel, OnDisk) + if ok then Count(batches[k].samples, sel) else 0
  {
    CountAllOf(batches[k].samples, k, sel);
  }

  lemma ConservedByWrite(s: System, t: nat, k: Key, ok: bool, sel: Selector)
    requires Shape(s) && Possible(s, Write(t, k, ok)) && Conserved(s, sel)
    ensures Conserved(Next(s, Write(t, k, ok)), sel)
  {
    assert ThreadFits(s.streams.Keys, t, s.threads[t]);
    SumsAfter(s.threads, t, Next(s, Write(t, k, ok)).threads[t], sel);
    WriteMoves(s.threads[t].batches, k, ok, sel);
    CountConcat(s.file, s.threads[t].batches[k].samples, sel);
  }

  lemma TallyMoves(batches: map<Key, Batch>, k: Key, sel: Selector)
    requires k in batches && batches[k].outcome.Some? && AllOf(batches[k].samples, k)
    ensures BatchWeight(batches - {k}, sel, Held) == BatchWeight(batches, sel, Held) - Count(batches[k].samples, sel)
    ensures BatchWeight(batches - {k}, sel, OnDisk)
            == BatchWeight(batches, sel, OnDisk) - if batches[k].outcome.value then Count(batches[k].samples, sel) else 0
  {
    CountAllOf(batches[k].samples, k, sel);
  }

  lemma ConservedByTally(s: System, t: nat, k: Key, sel: Selector)
    requires Shape(s) && Possible(s, Tally(t, k)) && Conserved(s, sel)
    ensures Conserved(Next(s, Tally(t, k)), sel)
  {
    assert ThreadFits(s.streams.Keys, t, s.threads[t]);
    var Batch(samples, outcome) := s.threads[t].batches[k];
    SumsAfter(s.threads, t, Next(s, Tally(t, k)).threads[t], sel);
    TallyMoves(s.threads[t].batches, k, sel);
    CountConcat(if outcome.value then s.stored else s.lost, samples, sel);
  }

  lemma ConservedByFlush(s: System, t: nat, keys: set<Key>, sel: Selector)
    requires Shape(s) && Free(s, t) && Conserved(s, sel)
    ensures Conserved(Flushed(s, t, keys), sel)
  {
    SumsAfter(s.threads, t, Flushed(s, t, keys).threads[t], sel);
    assert Count(EMPTY.samples, sel) == 0;
  }

  /** Nothing moves between the queue and the counters. */
  lemma ConservedByRest(s: System, step: Step, t: nat, sel: Selector)
    requires Shape(s) && Possible(s, step) && Conserved(s, sel)
    requires step in {Mark(t), TaskDone(t), Exit(t)}
    ensures Conserved(Next(s, step), sel)
  {
    var thread := Next(s, step).threads[t];
    SumsAfter(s.threads, t, thread, sel);
    RestWeights(s.threads[t], thread, sel);
    assert Next(s, step).threads == s.threads[t := thread];
  }

  lemma RestWeights(before: Thread, after: Thread, sel: Selector)
    requires after.batches == before.batches && !before.job.Fetched? && !after.job.Fetched?
    ensures Weight(after, sel, Held) == Weight(before, sel, Held)
    ensures Weight(after, sel, OnDisk) == Weight(before, sel, OnDisk)
  {
  }

  lemma ConservedByStart(s: System, sel: Selector)
    requires Possible(s, Start) && Conserved(s, sel)
    ensures Conserved(Next(s, Start), sel)
  {
    SumSame(s.threads, Next(s, Start).threads, sel, Held);
    SumSame(s.threads, Next(s, Start).threads, sel, OnDisk);
  }

  lemma ConservedByEnqueue(s: System, x: Item, full: bool, sel: Selector)
    requires Conserved(s, sel)
    ensures Conserved(Enqueued(s, x, full), sel)
  {
    CountAppend(s.queue, x, sel);
    CountAppend(s.accepted, x, sel);
  }

  lemma ConservedByThread(s: System, step: Step, t: nat, sel: Selector)
    requires Shape(s) && Possible(s, step) && Conserved(s, sel)
    requires OfThread(step) && step.t == t
    ensures Conserved(Next(s, step), sel)
  {
    match step
    case Fetch(_) => ConservedByFetch(s, t, sel);
    case Discard(_) => ConservedByDiscard(s, t, sel);
    case Keep(_, now) => ConservedByKeep(s, t, now, sel);
    case Write(_, k, ok) => ConservedByWrite(s, t, k, ok, sel);
    case Tally(_, k) => ConservedByTally(s, t, k, sel);
    case _ => ConservedByRest(s, step, t, sel);
  }

  predicate OfThread(step: Step) {
    step.Fetch? || step.Discard? || step.Keep? || step.Write? || step.Tally? || step.Mark? || step.TaskDone? || step.Exit?
  }

  /** Steps that move no sample. */
  lemma ConservedQuietly(s: System, step: Step, sel: Selector)
    requires Possible(s, step) && Conserved(s, sel)
    requires step.Prepare? || step.Enable? || step.Close? || step.Join? || step.Release? || step.Return?
    ensures Conserved(Next(s, step), sel)
  {
  }

  lemma ConservedByFlushing(s: System, step: Step, sel: Selector)
    requires Shape(s) && Possible(s, step) && Conserved(s, sel)
    requires step.FlushDue? || step.FlushStream? || step.FlushAll?
    ensures Conserved(Next(s, step), sel)
  {
    match step
    case FlushDue(t, now) => ConservedByFlush(s, t, Due(s.buffers, now), sel);
    case FlushStream(t, k) => ConservedByFlush(s, t, {k}, sel);
    case FlushAll => ConservedByFlush(s, STOPPER, s.buffers.Keys, sel);
  }

  lemma ConservedAfter(s: System, step: Step, sel: Selector)
    requires Shape(s) && Possible(s, step) && Conserved(s, sel)
    ensures Conserved(Next(s, step), sel)
  {
    if OfThread(step) {
      ConservedByThread(s, step, step.t, sel);
    } else if step.FlushDue? || step.FlushStream? || step.FlushAll? {
      ConservedByFlushing(s, step, sel);
    } else if step.Enqueue? {
      ConservedByEnqueue(s, step.item, step.full, sel);
    } else if step.Start? {
      ConservedByStart(s, sel);
    } else {
      ConservedQuietly(s, step, sel);
    }
  }

  // ---- the counters ----

  lemma TruthfulByEnqueue(s: System, x: Item, full: bool, k: Key)
    requires Truthful(s, k)
    ensures Truthful(Enqueued(s, x, full), k)
  {
    if full {
      CountAppend(s.refused, x, OfStream(k));
    } else {
      CountAppend(s.queue, x, OfStream(k));
      CountAppend(s.accepted, x, OfStream(k));
    }
  }

  lemma TruthfulByDiscard(s: System, t: nat, k: Key)
    requires Shape(s) && Possible(s, Discard(t)) && Truthful(s, k)
    ensures Truthful(Next(s, Discard(t)), k)
  {
    assert ThreadFits(s.streams.Keys, t, s.threads[t]);
    SumUpdate(s.threads, t, Next(s, Discard(t)).threads[t], OfStream(k), Awaiting);
    CountAppend(s.lost, s.threads[t].job.item, OfStream(k));
  }

  lemma TruthfulByTally(s: System, t: nat, j: Key, k: Key)
    requires Shape(s) && Possible(s, Tally(t, j)) && Truthful(s, k)
    ensures Truthful(Next(s, Tally(t, j)), k)
  {
    assert ThreadFits(s.streams.Keys, t, s.threads[t]);
    var Batch(samples, outcome) := s.threads[t].batches[j];
    SumUpdate(s.threads, t, Next(s, Tally(t, j)).threads[t], OfStream(k), Awaiting);
    CountConcat(if outcome.value then s.stored else s.lost, samples, OfStream(k));
    CountAllOf(samples, j, OfStream(k));
  }

  lemma TruthfulByMark(s: System, t: nat, k: Key)
    requires Shape(s) && Possible(s, Mark(t)) && Truthful(s, k)
    ensures Truthful(Next(s, Mark(t)), k)
  {
    assert ThreadFits(s.streams.Keys, t, s.threads[t]);
    SumUpdate(s.threads, t, Next(s, Mark(t)).threads[t], OfStream(k), Awaiting);
    SumBounds(s.threads, OfStream(k), Awaiting, t);
  }

  lemma TruthfulByFetch(s: System, t: nat, k: Key)
    requires Shape(s) && Possible(s, Fetch(t)) && Truthful(s, k)
    ensures Truthful(Next(s, Fetch(t)), k)
  {
    SumUpdate(s.threads, t, Next(s, Fetch(t)).threads[t], OfStream(k), Awaiting);
    CountRest(s.queue, OfStream(k));
  }

  /** A step that touches no counter and leaves the job as unmarked as it was. */
  lemma TruthfulByRest(s: System, after: System, t: nat, thread: Thread, k: Key)
    requires Truthful(s, k) && t < |s.threads| && after.threads == s.threads[t := thread]
    requires after.streams == s.streams && after.queue == s.queue && after.accepted == s.accepted
    requires after.refused == s.refused && after.stored == s.stored && after.lost == s.lost
    requires JobWeight(thread.job, OfStream(k), Awaiting) == JobWeight(s.threads[t].job, OfStream(k), Awaiting)
    ensures Truthful(after, k)
  {
    SumUpdate(s.threads, t, thread, OfStream(k), Awaiting);
  }

  lemma TruthfulByStart(s: System, k: Key)
    requires Possible(s, Start) && Truthful(s, k)
    ensures Truthful(Next(s, Start), k)
  {
    SumSame(s.threads, Next(s, Start).threads, OfStream(k), Awaiting);
  }

  lemma TruthfulByOther(s: System, step: Step, k: Key)
    requires Possible(s, step) && Truthful(s, k)
    requires step.Keep? || step.Write? || step.TaskDone? || step.FlushDue? || step.FlushStream? || step.FlushAll?
             || step.Exit? || step.Close? || step.Join? || step.Release? || step.Return?
    ensures Truthful(Next(s, step), k)
  {
    if step.FlushAll? {
      TruthfulByRest(s, Next(s, step), STOPPER, Next(s, step).threads[STOPPER], k);
    } else if !(step.Close? || step.Join? || step.Release? || step.Return?) {
      TruthfulByThread(s, step, step.t, k);
    }
  }

  lemma TruthfulByThread(s: System, step: Step, t: nat, k: Key)
    requires Possible(s, step) && Truthful(s, k)
    requires (step.Keep? || step.Write? || step.TaskDone? || step.FlushDue? || step.FlushStream? || step.Exit?) && step.t == t
    ensures Truthful(Next(s, step), k)
  {
    var after := Next(s, step);
    TruthfulByRest(s, after, t, after.threads[t], k);
  }

  lemma TruthfulAfter(s: System, step: Step, k: Key)
    requires Shape(s) && Possible(s, step) && Truthful(s, k)
    ensures Truthful(Next(s, step), k)
  {
    match step
    case Enqueue(x, full) => TruthfulByEnqueue(s, x, full, k);
    case Fetch(t) => TruthfulByFetch(s, t, k);
    case Discard(t) => TruthfulByDiscard(s, t, k);
    case Tally(t, j) => TruthfulByTally(s, t, j, k);
    case Mark(t) => TruthfulByMark(s, t, k);
    case Start => TruthfulByStart(s, k);
    case Prepare(_) =>
    case Enable(_, _) =>
    case _ => TruthfulByOther(s, step, k);
  }

  /** flush_stream takes the samples of its stream and of no other. */
  lemma FlushTakesOneStream(s: System, t: nat, k: Key)
    requires Possible(s, FlushStream(t, k))
    ensures var after := Next(s, FlushStream(t, k));
            && (forall j | j != k :: BufferOf(after.buffers, j) == BufferOf(s.buffers, j))
            && BufferOf(after.buffers, k).samples == []
            && after.threads[t].batches ==
                 if BufferOf(s.buffers, k).samples == [] then map[] else map[k := Batch(BufferOf(s.buffers, k).samples, None)]
  {
    var taken := Taken(s.buffers, {k});
    assert forall j | j in taken :: j == k;
  }

  /** After a periodic flush no buffer holds anything as old as the interval. */
  lemma FlushLeavesNothingOverdue(s: System, t: nat, now: int)
    requires Possible(s, FlushDue(t, now))
    ensures forall k | k in Next(s, FlushDue(t, now)).buffers ::
              var b := Next(s, FlushDue(t, now)).buffers[k];
              b.samples == [] || b.first == None || now - b.first.value < 5_000_000_000
  {
  }

  // ---- stop ----

  lemma StoppingOfItems(s: System, step: Step)
    requires Shape(s) && Stopping(s) && Possible(s, step)
    requires step.Fetch? || step.Discard? || step.Keep? || step.Mark? || step.TaskDone?
    ensures Stopping(Next(s, step))
  {
    if !step.Fetch? {
      assert Unfinished(s);
    }
    assert s.phase in {Serving, Closing};
  }

  lemma StoppingOfBatches(s: System, step: Step)
    requires Shape(s) && Stopping(s) && Possible(s, step)
    requires step.Write? || step.Tally?
    ensures Stopping(Next(s, step))
  {
    var after := Next(s, step);
    assert ThreadFits(s.streams.Keys, step.t, s.threads[step.t]);
    assert forall t | 0 <= t < |s.threads| :: after.threads[t].job == s.threads[t].job && after.threads[t].exited == s.threads[t].exited;
    assert Unfinished(after) ==> Unfinished(s);
    assert s.phase != Flushing ==> step.t != STOPPER;
  }

  lemma StoppingOfFlushes(s: System, step: Step)
    requires Shape(s) && Stopping(s) && Possible(s, step)
    requires step.FlushDue? || step.FlushStream? || step.FlushAll?
    ensures Stopping(Next(s, step))
  {
    var after := Next(s, step);
    assert forall t | 0 <= t < |s.threads| :: after.threads[t].job == s.threads[t].job && after.threads[t].exited == s.threads[t].exited;
    assert Unfinished(after) ==> Unfinished(s);
  }

  lemma StoppingAfter(s: System, step: Step)
    requires Shape(s) && Stopping(s) && Possible(s, step)
    ensures Stopping(Next(s, step))
  {
    match step
    case Fetch(_) => StoppingOfItems(s, step);
    case Discard(_) => StoppingOfItems(s, step);
    case Keep(_, _) => StoppingOfItems(s, step);
    case Mark(_) => StoppingOfItems(s, step);
    case TaskDone(_) => StoppingOfItems(s, step);
    case Write(_, _, _) => StoppingOfBatches(s, step);
    case Tally(_, _) => StoppingOfBatches(s, step);
    case FlushDue(_, _) => StoppingOfFlushes(s, step);
    case FlushStream(_, _) => StoppingOfFlushes(s, step);
    case FlushAll => StoppingOfFlushes(s, step);
    case _ =>
  }

  // ---- every run ----

  ghost predicate Accounted(s: System) {
    Shape(s) && Stopping(s) && (forall sel :: Conserved(s, sel)) && (forall k :: Truthful(s, k))
  }

  lemma {:induction false} SumZero(threads: seq<Thread>, sel: Selector, m: Measure)
    requires forall t | 0 <= t < |threads| :: Weight(threads[t], sel, m) == 0
    ensures Sum(threads, sel, m) == 0
  {
    if threads != [] {
      SumZero(threads[..|threads| - 1], sel, m);
    }
  }

  lemma InitiallyAccounted(others: nat)
    ensures Accounted(Initial(others))
  {
    var s := Initial(others);
    forall sel
      ensures Conserved(s, sel)
    {
      SumZero(s.threads, sel, Held);
      SumZero(s.threads, sel, OnDisk);
    }
    forall k
      ensures Truthful(s, k)
    {
      SumZero(s.threads, OfStream(k), Awaiting);
    }
  }

  /** In every run every accepted sample is in exactly one place, the counters are right, each
      buffer is below the batch size and has an age exactly when it holds something. */
  lemma {:induction false} AccountedAlways(others: nat, steps: seq<Step>)
    ensures Accounted(Reach(others, steps))
  {
    if steps == [] {
      InitiallyAccounted(others);
    } else {
      var before, step := Reach(others, steps[..|steps| - 1]), steps[|steps| - 1];
      AccountedAlways(others, steps[..|steps| - 1]);
      if Possible(before, step) {
        ShapeAfter(before, step);
        StoppingAfter(before, step);
        forall sel
          ensures Conserved(Next(before, step), sel)
        {
          ConservedAfter(before, step, sel);
        }
        forall k
          ensures Truthful(Next(before, step), k)
        {
          TruthfulAfter(before, step, k);
        }
      }
    }
  }

  /** The samples of a stream that are neither written nor dropped. */
  ghost function Underway(s: System, k: Key): nat {
    Count(s.queue, OfStream(k)) + Sum(s.threads, OfStream(k), Held) + |BufferOf(s.buffers, k).samples|
  }

  /** The law of the counters, with the samples refused because the queue was full. */
  lemma CountersBalance(others: nat, steps: seq<Step>, k: Key)
    requires k in Reach(others, steps).streams
    ensures var s := Reach(others, steps);
            s.streams[k].enqueued + Count(s.refused, OfStream(k))
            == Underway(s, k) + s.streams[k].written + s.streams[k].dropped
  {
    var s := Reach(others, steps);
    AccountedAlways(others, steps);
    assert Conserved(s, OfStream(k)) && Truthful(s, k);
    if k in s.buffers {
      assert BufferFits(s.streams.Keys, k, s.buffers[k]);
      CountAllOf(s.buffers[k].samples, k, OfStream(k));
    }
  }

  /** _mark_item_processed never meets a counter that is not positive. */
  lemma PendingIsPositive(others: nat, steps: seq<Step>, t: nat)
    requires Possible(Reach(others, steps), Mark(t))
    ensures var s := Reach(others, steps);
            s.threads[t].job.item.key in s.streams && s.streams[s.threads[t].job.item.key].pending > 0
  {
    var s := Reach(others, steps);
    AccountedAlways(others, steps);
    assert ThreadFits(s.streams.Keys, t, s.threads[t]);
    var k := s.threads[t].job.item.key;
    assert Truthful(s, k);
    SumBounds(s.threads, OfStream(k), Awaiting, t);
  }

  /** wait_stream_idle: with the counter at zero no sample of the stream is queued or with a worker. */
  lemma IdleStreamIsDrained(others: nat, steps: seq<Step>, k: Key)
    requires k in Reach(others, steps).streams
    ensures var s := Reach(others, steps);
            s.streams[k].pending == 0 <==>
              Count(s.queue, OfStream(k)) == 0
              && forall t | 0 <= t < |s.threads| :: Weight(s.threads[t], OfStream(k), Awaiting) == 0
  {
    var s := Reach(others, steps);
    AccountedAlways(others, steps);
    assert Truthful(s, k);
    if s.streams[k].pending == 0 {
      forall t | 0 <= t < |s.threads|
        ensures Weight(s.threads[t], OfStream(k), Awaiting) == 0
      {
        SumBounds(s.threads, OfStream(k), Awaiting, t);
      }
    } else if forall t | 0 <= t < |s.threads| :: Weight(s.threads[t], OfStream(k), Awaiting) == 0 {
      SumZero(s.threads, OfStream(k), Awaiting);
    }
  }

  /** Somebody else is still writing samples it took out of a buffer with flush_stream. */
  ghost predicate FlushUnderway(s: System) {
    exists t :: STOPPER < t < |s.threads| && s.threads[t].batches != map[]
  }

  lemma WorkersHoldNothing(s: System, t: nat)
    requires Accounted(s) && s.phase == Returned && t < |s.threads| && !FlushUnderway(s)
    ensures s.threads[t].job.Nothing? && s.threads[t].batches == map[]
  {
    assert ThreadFits(s.streams.Keys, t, s.threads[t]);
    assert !Unfinished(s);
  }

  /** Once stop() has returned, every enqueued sample is counted as written or dropped, in every
      stream, exactly when no other thread is in the middle of a flush_stream. */
  lemma StopLeavesAllCounted(others: nat, steps: seq<Step>)
    requires Reach(others, steps).phase == Returned
    ensures var s := Reach(others, steps);
            (forall k | k in s.streams ::
              s.streams[k].enqueued + Count(s.refused, OfStream(k)) == s.streams[k].written + s.streams[k].dropped)
            <==> !FlushUnderway(s)
  {
    var s := Reach(others, steps);
    AccountedAlways(others, steps);
    if FlushUnderway(s) {
      var t: nat :| STOPPER < t < |s.threads| && s.threads[t].batches != map[];
      var k :| k in s.threads[t].batches;
      assert ThreadFits(s.streams.Keys, t, s.threads[t]);
      CountAllOf(s.threads[t].batches[k].samples, k, OfStream(k));
      SumBounds(s.threads, OfStream(k), Held, t);
      CountersBalance(others, steps, k);
      assert k in s.streams;
    } else {
      forall k | k in s.streams
        ensures s.streams[k].enqueued + Count(s.refused, OfStream(k)) == s.streams[k].written + s.streams[k].dropped
      {
        CountersBalance(others, steps, k);
        forall t: nat | t < |s.threads|
          ensures Weight(s.threads[t], OfStream(k), Held) == 0
        {
          WorkersHoldNothing(s, t);
        }
        SumZero(s.threads, OfStream(k), Held);
        assert !Unfinished(s);
      }
    }
  }

  // ---- a stop that returns too early ----

  lemma ReachNext(others: nat, steps: seq<Step>, step: Step)
    requires Possible(Reach(others, steps), step)
    ensures Reach(others, steps + [step]) == Next(Reach(others, steps), step)
  {
    assert (steps + [step])[..|steps|] == steps;
  }

  ghost predicate Reachable(others: nat, s: System) {
    exists steps :: Reach(others, steps) == s
  }

  lemma ReachableNext(others: nat, s: System, step: Step)
    requires Reachable(others, s) && Possible(s, step)
    ensures Reachable(others, Next(s, step))
  {
    var steps :| Reach(others, steps) == s;
    ReachNext(others, steps, step);
  }

  /** One sample, buffered by a worker and then taken out by somebody's flush_stream. */
  lemma FlushWhileServing() returns (s: System)
    ensures Reachable(1, s) && s.phase == Serving && s.queue == [] && FlushUnderway(s) && |s.threads| == STOPPER + 2
    ensures forall k | k in s.buffers :: s.buffers[k] == EMPTY
    ensures forall t | 0 <= t <= STOPPER :: s.threads[t] == IDLE
    ensures s.threads[STOPPER + 1].job.Nothing?
  {
    var k := Key("a", "main");
    var x := Item(k, 0);
    assert Reach(1, []) == Initial(1);
    var s0 := Initial(1);
    ReachableNext(1, s0, Prepare(k));
    var s1 := Next(s0, Prepare(k));
    ReachableNext(1, s1, Enable(k, true));
    var s2 := Next(s1, Enable(k, true));
    ReachableNext(1, s2, Start);
    var s3 := Next(s2, Start);
    ReachableNext(1, s3, Enqueue(x, false));
    var s4 := Next(s3, Enqueue(x, false));
    assert s4.queue == [x];
    s := FlushOfOne(s4, x);
  }

  lemma FlushOfOne(s4: System, x: Item) returns (s: System)
    requires Reachable(1, s4) && s4.phase == Serving && s4.queue == [x] && s4.buffers == map[] && |s4.threads| == STOPPER + 2
    requires forall t | 0 <= t < |s4.threads| :: s4.threads[t] == IDLE
    ensures Reachable(1, s) && s.phase == Serving && s.queue == [] && FlushUnderway(s) && |s.threads| == STOPPER + 2
    ensures forall k | k in s.buffers :: s.buffers[k] == EMPTY
    ensures forall t | 0 <= t <= STOPPER :: s.threads[t] == IDLE
    ensures s.threads[STOPPER + 1].job.Nothing?
  {
    var s6 := WorkBegins(s4, x);
    var s8 := WorkEnds(s6, x);
    ReachableNext(1, s8, FlushStream(STOPPER + 1, x.key));
    s := Next(s8, FlushStream(STOPPER + 1, x.key));
    assert x.key in s.threads[STOPPER + 1].batches;
  }

  lemma WorkBegins(s4: System, x: Item) returns (s6: System)
    requires Reachable(1, s4) && s4.queue == [x] && s4.buffers == map[] && |s4.threads| == STOPPER + 2 && s4.threads[0] == IDLE
    ensures Reachable(1, s6) && s6.phase == s4.phase && s6.queue == [] && s6.buffers == map[x.key := Buffer([x], Some(0))]
    ensures s6.threads == s4.threads[0 := Thread(Settled(x), map[], false)]
  {
    ReachableNext(1, s4, Fetch(0));
    var s5 := Next(s4, Fetch(0));
    ReachableNext(1, s5, Keep(0, 0));
    s6 := Next(s5, Keep(0, 0));
    assert [] + [x] == [x];
  }

  lemma WorkEnds(s6: System, x: Item) returns (s8: System)
    requires Reachable(1, s6) && |s6.threads| == STOPPER + 2
    requires s6.threads[0] == Thread(Settled(x), map[], false)
    ensures Reachable(1, s8) && s8.phase == s6.phase && s8.queue == s6.queue && s8.buffers == s6.buffers
    ensures s8.threads == s6.threads[0 := IDLE]
  {
    ReachableNext(1, s6, Mark(0));
    var s7 := Next(s6, Mark(0));
    ReachableNext(1, s7, TaskDone(0));
    s8 := Next(s7, TaskDone(0));
  }

  /** With no work left for the workers, stop() runs to its end whatever the other threads hold. */
  lemma StopRuns(others: nat, s: System) returns (after: System)
    requires Reachable(others, s) && s.phase == Serving && s.queue == [] && |s.threads| > STOPPER
    requires forall t | 0 <= t <= STOPPER :: s.threads[t] == IDLE
    requires forall t | 0 <= t < |s.threads| :: s.threads[t].job.Nothing?
    requires forall k | k in s.buffers :: s.buffers[k] == EMPTY
    ensures Reachable(others, after) && after.phase == Returned
    ensures forall t | STOPPER < t < |s.threads| :: t < |after.threads| && after.threads[t] == s.threads[t]
  {
    var s2 := QueueJoins(others, s);
    ReachableNext(others, s2, FlushAll);
    var s3 := Next(s2, FlushAll);
    assert s3.threads[STOPPER].batches == map[];
    assert s3.threads == s.threads;
    var s5 := WorkersLeave(others, s3);
    ReachableNext(others, s5, Return);
    after := Next(s5, Return);
  }

  lemma QueueJoins(others: nat, s: System) returns (s2: System)
    requires Reachable(others, s) && s.phase == Serving && s.queue == []
    requires forall t | 0 <= t < |s.threads| :: s.threads[t].job.Nothing?
    ensures Reachable(others, s2) && s2.phase == Joined && s2.threads == s.threads && s2.buffers == s.buffers
  {
    ReachableNext(others, s, Close);
    var s1 := Next(s, Close);
    ReachableNext(others, s1, Join);
    s2 := Next(s1, Join);
  }

  lemma WorkersLeave(others: nat, s: System) returns (after: System)
    requires Reachable(others, s) && s.phase == Flushing && |s.threads| > STOPPER
    requires forall t | 0 <= t <= STOPPER :: s.threads[t] == IDLE
    ensures Reachable(others, after) && after.phase == Leaving && |after.threads| == |s.threads|
    ensures forall t | 0 <= t < STOPPER :: after.threads[t].exited
    ensures forall t | STOPPER <= t < |s.threads| :: after.threads[t] == s.threads[t]
  {
    ReachableNext(others, s, Release);
    after := Next(s, Release);
    for i := 0 to PERSISTENCE_WORKERS
      invariant Reachable(others, after) && after.phase == Leaving && |after.threads| == |s.threads|
      invariant forall t | 0 <= t < i :: after.threads[t].exited
      invariant forall t | i <= t < |s.threads| :: after.threads[t] == s.threads[t]
    {
      ReachableNext(others, after, Exit(i));
      after := Next(after, Exit(i));
    }
  }

  /** stop() does not wait for a flush_stream of another thread: it can return with samples that are
      neither written nor dropped yet. */
  lemma StopCanReturnDuringAFlush()
    ensures exists steps :: Reach(1, steps).phase == Returned && FlushUnderway(Reach(1, steps))
  {
    var s := FlushWhileServing();
    var after := StopRuns(1, s);
    assert after.threads[STOPPER + 1] == s.threads[STOPPER + 1];
    assert FlushUnderway(after);
  }
}
