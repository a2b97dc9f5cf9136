/** The path of a monitoring sample: bounded queue, workers, per-stream buffers, batch writes and
    counters, with flushes from several threads and an orderly stop. */
module Persistence {
  import opened Fsm

  datatype Key = Key(client: string, section: string)

  datatype Item = Item(key: Key, sample: int)

  datatype Stream = Stream(enabled: bool, enqueued: nat, written: nat, dropped: nat, pending: int)

  /** A stream buffer, with the time its first sample arrived. */
  datatype Buffer = Buffer(samples: seq<Item>, first: Option<int>)

  /** A batch taken out of a buffer; once written (or not) it still has to be counted. */
  datatype Batch = Batch(samples: seq<Item>, outcome: Option<bool>)

  /** What a worker does with the item it took from the queue. */
  datatype Job = Nothing | Fetched(item: Item) | Settled(item: Item) | Marked(item: Item)

  datatype Thread = Thread(job: Job, batches: map<Key, Batch>, exited: bool)

  /** How far stop() is. */
  datatype StopPhase = Serving | Closing | Joined | Flushing | Leaving | Returned

  /** The threads are the workers, then the one that calls stop(), then others that flush streams.
      The last five fields are histories: samples accepted, refused because the queue was full,
      in the files, counted as written, and counted as dropped after being accepted. */
  datatype System = System(
    running: bool,
    streams: map<Key, Stream>,
    queue: seq<Item>,
    buffers: map<Key, Buffer>,
    threads: seq<Thread>,
    phase: StopPhase,
    accepted: seq<Item>,
    refused: seq<Item>,
    file: seq<Item>,
    stored: seq<Item>,
    lost: seq<Item>)

  const PERSISTENCE_QUEUE_MAXSIZE := 10000
  const PERSISTENCE_WORKERS := 4
  const PERSISTENCE_BATCH_SAMPLES := 100
  const PERSISTENCE_FLUSH_INTERVAL_NS := 5_000_000_000

  const STOPPER := PERSISTENCE_WORKERS
  const IDLE := Thread(Nothing, map[], false)
  const EMPTY := Buffer([], None)

  function Initial(others: nat): System {
    System(false, map[], [], map[], seq(PERSISTENCE_WORKERS + 1 + others, i => IDLE.(exited := i < PERSISTENCE_WORKERS)), Returned,
           [], [], [], [], [])
  }

  // ---- buffers ----

  function BufferOf(buffers: map<Key, Buffer>, k: Key): Buffer {
    if k in buffers then buffers[k] else EMPTY
  }

  /** _buffer_sample: the samples grow by one, and a full batch is taken out. */
  function Appended(buffers: map<Key, Buffer>, x: Item, now: int): map<Key, Buffer> {
    var before := BufferOf(buffers, x.key);
    if |before.samples| + 1 >= PERSISTENCE_BATCH_SAMPLES then buffers[x.key := EMPTY]
    else buffers[x.key := Buffer(before.samples + [x], if before.samples == [] then Some(now) else before.first)]
  }

  function FullBatch(buffers: map<Key, Buffer>, x: Item): map<Key, Batch> {
    var samples := BufferOf(buffers, x.key).samples + [x];
    if |samples| >= PERSISTENCE_BATCH_SAMPLES then map[x.key := Batch(samples, None)] else map[]
  }

  function Emptied(buffers: map<Key, Buffer>, keys: set<Key>): map<Key, Buffer> {
    map k | k in buffers :: if k in keys then EMPTY else buffers[k]
  }

  function Taken(buffers: map<Key, Buffer>, keys: set<Key>): map<Key, Batch> {
    map k | k in buffers && k in keys && buffers[k].samples != [] :: Batch(buffers[k].samples, None)
  }

  predicate IsDue(b: Buffer, now: int) {
    b.samples != [] && b.first.Some? && now - b.first.value >= PERSISTENCE_FLUSH_INTERVAL_NS
  }

  function Due(buffers: map<Key, Buffer>, now: int): set<Key> {
    set k | k in buffers && IsDue(buffers[k], now)
  }

  // ---- steps, one per critical section ----

  datatype Step =
    | Prepare(key: Key)
    | Enable(key: Key, enabled: bool)
    | Enqueue(item: Item, full: bool)
    | Fetch(t: nat)
    | Discard(t: nat)
    | Keep(t: nat, now: int)
    | Write(t: nat, key: Key, ok: bool)
    | Tally(t: nat, key: Key)
    | Mark(t: nat)
    | TaskDone(t: nat)
    | FlushDue(t: nat, now: int)
    | FlushStream(t: nat, key: Key)
    | Close
    | Join
    | FlushAll
    | Release
    | Exit(t: nat)
    | Return
    | Start

  predicate Free(s: System, t: nat) {
    t < |s.threads| && s.threads[t].job.Nothing? && s.threads[t].batches == map[]
  }

  predicate Worker(s: System, t: nat) {
    t < |s.threads| && t < PERSISTENCE_WORKERS && !s.threads[t].exited
  }

  /** task_done has been called for every item that was ever put. */
  ghost predicate Unfinished(s: System) {
    s.queue != [] || exists t :: 0 <= t < |s.threads| && !s.threads[t].job.Nothing?
  }

  ghost predicate Possible(s: System, step: Step) {
    match step
    case Prepare(_) => true
    case Enable(k, _) => k in s.streams
    case Enqueue(x, full) => (|s.queue| >= PERSISTENCE_QUEUE_MAXSIZE ==> full)
    case Fetch(t) => Worker(s, t) && Free(s, t) && s.queue != []
    case Discard(t) => Worker(s, t) && s.threads[t].job.Fetched?
    case Keep(t, _) => Worker(s, t) && s.threads[t].job.Fetched?
    case Write(t, k, _) => t < |s.threads| && k in s.threads[t].batches && s.threads[t].batches[k].outcome.None?
    case Tally(t, k) => t < |s.threads| && k in s.threads[t].batches && s.threads[t].batches[k].outcome.Some?
    case Mark(t) => Worker(s, t) && s.threads[t].job.Settled? && s.threads[t].batches == map[]
    case TaskDone(t) => Worker(s, t) && s.threads[t].job.Marked?
    case FlushDue(t, _) => Worker(s, t) && Free(s, t)
    case FlushStream(t, _) => Free(s, t) && t > STOPPER
    case Close => s.phase == Serving
    case Join => s.phase == Closing && !Unfinished(s)
    case FlushAll => s.phase == Joined && Free(s, STOPPER)
    case Release => s.phase == Flushing && Free(s, STOPPER)
    case Exit(t) => s.phase == Leaving && Worker(s, t) && Free(s, t)
    case Return => s.phase == Leaving && forall t | 0 <= t < PERSISTENCE_WORKERS && t < |s.threads| :: s.threads[t].exited
    case Start => s.phase == Returned
  }

  function WithJob(s: System, t: nat, job: Job): System
    requires t < |s.threads|
  {
    s.(threads := s.threads[t := s.threads[t].(job := job)])
  }

  function Accepts(s: System, x: Item): bool {
    s.running && x.key in s.streams && s.streams[x.key].enabled
  }

  function Enqueued(s: System, x: Item, full: bool): System {
    if !Accepts(s, x) then s
    else
      var stream := s.streams[x.key];
      if full then
        s.(streams := s.streams[x.key := stream.(dropped := stream.dropped + 1)], refused := s.refused + [x])
      else
        s.(streams := s.streams[x.key := stream.(enqueued := stream.enqueued + 1, pending := stream.pending + 1)],
           queue := s.queue + [x], accepted := s.accepted + [x])
  }

  /** _mark_samples_dropped for samples that had been accepted. */
  function CountLost(s: System, k: Key, samples: seq<Item>): System {
    if k !in s.streams then s
    else
      s.(streams := s.streams[k := s.streams[k].(dropped := s.streams[k].dropped + |samples|)], lost := s.lost + samples)
  }

  function CountStored(s: System, k: Key, samples: seq<Item>): System {
    if k !in s.streams then s
    else
      s.(streams := s.streams[k := s.streams[k].(written := s.streams[k].written + |samples|)], stored := s.stored + samples)
  }

  /** _mark_item_processed, with its branch for a counter that is not positive. */
  function Unmarked(stream: Stream): Stream {
    stream.(pending := if stream.pending <= 0 then 0 else stream.pending - 1)
  }

  function Flushed(s: System, t: nat, keys: set<Key>): System
    requires t < |s.threads|
  {
    s.(threads := s.threads[t := s.threads[t].(batches := Taken(s.buffers, keys))], buffers := Emptied(s.buffers, keys))
  }

  ghost function Next(s: System, step: Step): System
    requires Possible(s, step)
  {
    match step
    case Prepare(k) => if k in s.streams then s else s.(streams := s.streams[k := Stream(false, 0, 0, 0, 0)])
    case Enable(k, enabled) => s.(streams := s.streams[k := s.streams[k].(enabled := enabled)])
    case Enqueue(x, full) => Enqueued(s, x, full)
    case Fetch(t) => WithJob(s, t, Fetched(s.queue[0])).(queue := s.queue[1..])
    case Discard(t) =>
      var x := s.threads[t].job.item;
      WithJob(CountLost(s, x.key, [x]), t, Settled(x))
    case Keep(t, now) =>
      var x := s.threads[t].job.item;
      s.(threads := s.threads[t := s.threads[t].(job := Settled(x), batches := FullBatch(s.buffers, x))],
         buffers := Appended(s.buffers, x, now))
    case Write(t, k, ok) =>
      var batch := s.threads[t].batches[k];
      s.(threads := s.threads[t := s.threads[t].(batches := s.threads[t].batches[k := batch.(outcome := Some(ok))])],
         file := if ok then s.file + batch.samples else s.file)
    case Tally(t, k) =>
      var batch := s.threads[t].batches[k];
      var counted := if batch.outcome.value then CountStored(s, k, batch.samples) else CountLost(s, k, batch.samples);
      counted.(threads := s.threads[t := s.threads[t].(batches := s.threads[t].batches - {k})])
    case Mark(t) =>
      var x := s.threads[t].job.item;
      var streams := if x.key in s.streams then s.streams[x.key := Unmarked(s.streams[x.key])] else s.streams;
      WithJob(s, t, Marked(x)).(streams := streams)
    case TaskDone(t) => WithJob(s, t, Nothing)
    case FlushDue(t, now) => Flushed(s, t, Due(s.buffers, now))
    case FlushStream(t, k) => Flushed(s, t, {k})
    case Close => s.(running := false, phase := Closing)
    case Join => s.(phase := Joined)
    case FlushAll => Flushed(s, STOPPER, s.buffers.Keys).(phase := Flushing)
    case Release => s.(phase := Leaving)
    case Exit(t) => s.(threads := s.threads[t := s.threads[t].(exited := true)])
    case Return => s.(phase := Returned)
    case Start =>
      s.(running := true, phase := Serving,
         threads := seq(|s.threads|, i requires 0 <= i < |s.threads| =>
                          if i < PERSISTENCE_WORKERS then s.threads[i].(exited := false) else s.threads[i]))
  }

  /** A step that cannot be taken yet waits. */
  ghost function Reach(others: nat, steps: seq<Step>): System {
    if steps == [] then Initial(others)
    else
      var before := Reach(others, steps[..|steps| - 1]);
      var step := steps[|steps| - 1];
      if Possible(before, step) then Next(before, step) else before
  }

  // ---- counting ----

  /** All samples of a stream, or the occurrences of one sample. */
  datatype Selector = OfStream(k: Key) | Exactly(x: Item)

  function KeyOf(sel: Selector): Key {
    if sel.OfStream? then sel.k else sel.x.key
  }

  predicate Picks(sel: Selector, x: Item) {
    if sel.OfStream? then x.key == sel.k else x == sel.x
  }

  function Count(s: seq<Item>, sel: Selector): nat {
    if s == [] then 0 else Count(s[..|s| - 1], sel) + if Picks(sel, s[|s| - 1]) then 1 else 0
  }

  lemma {:induction false} CountConcat(a: seq<Item>, b: seq<Item>, sel: Selector)
    ensures Count(a + b, sel) == Count(a, sel) + Count(b, sel)
  {
    if b == [] {
      assert a + b == a;
    } else {
      CountConcat(a, b[..|b| - 1], sel);
      assert (a + b)[..|a + b| - 1] == a + b[..|b| - 1];
    }
  }

  lemma CountOne(x: Item, sel: Selector)
    ensures Count([x], sel) == if Picks(sel, x) then 1 else 0
  {
    assert [x][..0] == [];
  }

  lemma CountAppend(a: seq<Item>, x: Item, sel: Selector)
    ensures Count(a + [x], sel) == Count(a, sel) + if Picks(sel, x) then 1 else 0
  {
    assert (a + [x])[..|a|] == a;
  }

  lemma CountRest(a: seq<Item>, sel: Selector)
    requires a != []
    ensures Count(a, sel) == Count(a[1..], sel) + if Picks(sel, a[0]) then 1 else 0
  {
    assert a == [a[0]] + a[1..];
    CountConcat([a[0]], a[1..], sel);
    CountOne(a[0], sel);
  }

  predicate AllOf(s: seq<Item>, k: Key) {
    forall i | 0 <= i < |s| :: s[i].key == k
  }

  /** Samples of one stream: all of them are picked by it, none by another. */
  lemma {:induction false} CountAllOf(s: seq<Item>, k: Key, sel: Selector)
    requires AllOf(s, k)
    ensures KeyOf(sel) != k ==> Count(s, sel) == 0
    ensures sel == OfStream(k) ==> Count(s, sel) == |s|
  {
    if s != [] {
      CountAllOf(s[..|s| - 1], k, sel);
    }
  }

  // ---- what the threads hold ----

  /** Samples not yet counted, items not yet marked as processed, samples in a file but not counted. */
  datatype Measure = Held | Awaiting | OnDisk

  function BatchWeight(batches: map<Key, Batch>, sel: Selector, m: Measure): nat {
    if KeyOf(sel) !in batches || m == Awaiting then 0
    else
      var batch := batches[KeyOf(sel)];
      if m == Held || batch.outcome == Some(true) then Count(batch.samples, sel) else 0
  }

  function JobWeight(job: Job, sel: Selector, m: Measure): nat {
    match m
    case Held => if job.Fetched? && Picks(sel, job.item) then 1 else 0
    case Awaiting => if (job.Fetched? || job.Settled?) && Picks(sel, job.item) then 1 else 0
    case OnDisk => 0
  }

  function Weight(t: Thread, sel: Selector, m: Measure): nat {
    JobWeight(t.job, sel, m) + BatchWeight(t.batches, sel, m)
  }

  function Sum(threads: seq<Thread>, sel: Selector, m: Measure): nat {
    if threads == [] then 0 else Sum(threads[..|threads| - 1], sel, m) + Weight(threads[|threads| - 1], sel, m)
  }

  lemma {:induction false} SumUpdate(threads: seq<Thread>, t: nat, thread: Thread, sel: Selector, m: Measure)
    requires t < |threads|
    ensures Sum(threads[t := thread], sel, m) == Sum(threads, sel, m) - Weight(threads[t], sel, m) + Weight(thread, sel, m)
  {
    var n := |threads| - 1;
    var after := threads[t := thread];
    if t == n {
      assert after[..n] == threads[..n];
    } else {
      assert after[..n] == threads[..n][t := thread];
      SumUpdate(threads[..n], t, thread, sel, m);
    }
  }

  lemma {:induction false} SumSame(a: seq<Thread>, b: seq<Thread>, sel: Selector, m: Measure)
    requires |a| == |b| && forall i | 0 <= i < |a| :: Weight(a[i], sel, m) == Weight(b[i], sel, m)
    ensures Sum(a, sel, m) == Sum(b, sel, m)
  {
    if a != [] {
      SumSame(a[..|a| - 1], b[..|b| - 1], sel, m);
    }
  }

  lemma {:induction false} SumBounds(threads: seq<Thread>, sel: Selector, m: Measure, t: nat)
    requires t < |threads|
    ensures Sum(threads, sel, m) >= Weight(threads[t], sel, m)
  {
    if t < |threads| - 1 {
      SumBounds(threads[..|threads| - 1], sel, m, t);
    }
  }

  // ---- the invariant ----

  /** Every sample sits under its own stream, one of the streams that exist. */
  ghost predicate ThreadFits(keys: set<Key>, t: nat, thread: Thread) {
    && (!thread.job.Nothing? ==> thread.job.item.key in keys && t < PERSISTENCE_WORKERS)
    && (thread.job.Fetched? || thread.job.Marked? || (thread.exited && t < PERSISTENCE_WORKERS) ==> thread.batches == map[])
    && (thread.exited ==> thread.job.Nothing?)
    && (forall k | k in thread.batches ::
      k in keys && thread.batches[k].samples != [] && AllOf(thread.batches[k].samples, k))
  }

  ghost predicate BufferFits(keys: set<Key>, k: Key, b: Buffer) {
    k in keys && AllOf(b.samples, k) && |b.samples| < PERSISTENCE_BATCH_SAMPLES && (b.samples != [] <==> b.first.Some?)
  }

  /** What each phase of stop() has achieved. */
  ghost predicate Stopping(s: System) {
    && |s.threads| > STOPPER
    && (s.phase == Serving || !s.running)
    && (s.phase in {Joined, Flushing, Leaving, Returned} ==> !Unfinished(s))
    && (s.phase in {Flushing, Leaving, Returned} ==> forall k | k in s.buffers :: s.buffers[k] == EMPTY)
    && (s.phase != Flushing ==> s.threads[STOPPER].batches == map[])
    && (s.phase == Returned ==> forall t | 0 <= t < PERSISTENCE_WORKERS :: s.threads[t].exited)
  }

  ghost predicate Shape(s: System) {
    && |s.queue| <= PERSISTENCE_QUEUE_MAXSIZE
    && (forall i | 0 <= i < |s.queue| :: s.queue[i].key in s.streams)
    && (forall k | k in s.buffers :: BufferFits(s.streams.Keys, k, s.buffers[k]))
    && (forall t: nat | t < |s.threads| :: ThreadFits(s.streams.Keys, t, s.threads[t]))
  }

  /** Every accepted sample is in exactly one place: queued, held by a thread, buffered, counted as
      written or counted as dropped. */
  ghost predicate Conserved(s: System, sel: Selector) {
    && Count(s.accepted, sel) ==
       Count(s.queue, sel) + Sum(s.threads, sel, Held) + Count(BufferOf(s.buffers, KeyOf(sel)).samples, sel)
       + Count(s.stored, sel) + Count(s.lost, sel)
    && Count(s.file, sel) == Count(s.stored, sel) + Sum(s.threads, sel, OnDisk)
  }

  /** The counters of a stream say what happened to its samples. */
  ghost predicate Truthful(s: System, k: Key) {
    var sel := OfStream(k);
    if k in s.streams then
      && s.streams[k].enqueued == Count(s.accepted, sel)
      && s.streams[k].written == Count(s.stored, sel)
      && s.streams[k].dropped == Count(s.lost, sel) + Count(s.refused, sel)
      && s.streams[k].pending == Count(s.queue, sel) + Sum(s.threads, sel, Awaiting)
    else
      Count(s.accepted, sel) == 0 && Count(s.stored, sel) == 0 && Count(s.lost, sel) + Count(s.refused, sel) == 0
      && Count(s.queue, sel) + Sum(s.threads, sel, Awaiting) == 0
  }

  // ---- the objects ----

  class MonitorPersistenceService {
    var running: bool
    var streams: map<Key, Stream>
    var queue: seq<Item>
    var buffers: map<Key, Buffer>
    ghost var history: System

    ghost function View(): System
      reads this
    {
      history.(running := running, streams := streams, queue := queue, buffers := buffers)
    }

    constructor ()
      ensures View() == Initial(0)
    {
      running := false;
      streams := map[];
      queue := [];
      buffers := map[];
      history := Initial(0);
    }

    /** False when not running, not configured, not enabled or full; only the last one is counted. */
    method EnqueueSample(x: Item) returns (ok: bool)
      modifies this
      ensures View() == Enqueued(old(View()), x, |old(queue)| >= PERSISTENCE_QUEUE_MAXSIZE)
      ensures ok <==> old(running) && x.key in old(streams) && old(streams)[x.key].enabled && |old(queue)| < 10000
      ensures ok ==> queue == old(queue) + [x]
                     && streams == old(streams)[x.key := old(streams)[x.key].(
                          enqueued := old(streams)[x.key].enqueued + 1, pending := old(streams)[x.key].pending + 1)]
      ensures !ok ==> queue == old(queue)
      ensures !ok && old(running) && x.key in old(streams) && old(streams)[x.key].enabled ==>
                streams == old(streams)[x.key := old(streams)[x.key].(dropped := old(streams)[x.key].dropped + 1)]
      ensures !old(running) || x.key !in old(streams) || !old(streams)[x.key].enabled ==> streams == old(streams)
      ensures running == old(running) && buffers == old(buffers)
    {
      if !running || x.key !in streams || !streams[x.key].enabled {
        return false;
      }
      var stream := streams[x.key];
      if |queue| >= PERSISTENCE_QUEUE_MAXSIZE {
        streams := streams[x.key := stream.(dropped := stream.dropped + 1)];
        history := history.(refused := history.refused + [x]);
        return false;
      }
      queue := queue + [x];
      streams := streams[x.key := stream.(enqueued := stream.enqueued + 1, pending := stream.pending + 1)];
      history := history.(accepted := history.accepted + [x]);
      ok := true;
    }

    method MarkSamplesWritten(k: Key, samples: seq<Item>)
      modifies this
      ensures View() == CountStored(old(View()), k, samples)
    {
      if k in streams {
        streams := streams[k := streams[k].(written := streams[k].written + |samples|)];
        history := history.(stored := history.stored + samples);
      }
    }

    method MarkSamplesDropped(k: Key, samples: seq<Item>)
      modifies this
      ensures View() == CountLost(old(View()), k, samples)
    {
      if k in streams {
        streams := streams[k := streams[k].(dropped := streams[k].dropped + |samples|)];
        history := history.(lost := history.lost + samples);
      }
    }

    /** True when the stream has become idle and its waiters must be woken. */
    method MarkItemProcessed(k: Key) returns (idle: bool)
      modifies this
      ensures View() == old(View()).(streams := if k in old(streams) then old(streams)[k := Unmarked(old(streams)[k])] else old(streams))
      ensures idle <==> k in streams && streams[k].pending == 0
    {
      if k !in streams {
        return false;
      }
      if streams[k].pending <= 0 {
        streams := streams[k := streams[k].(pending := 0)];
      } else {
        streams := streams[k := streams[k].(pending := streams[k].pending - 1)];
      }
      idle := streams[k].pending == 0;
    }

    /** The batch to write now, if the sample filled the buffer. */
    method BufferSample(x: Item, now: int) returns (batch: map<Key, Batch>)
      modifies this`buffers
      ensures buffers == Appended(old(buffers), x, now)
      ensures batch == FullBatch(old(buffers), x)
      ensures var before := if x.key in old(buffers) then old(buffers)[x.key].samples else [];
              && x.key in buffers
              && (forall k | k != x.key :: (k in buffers <==> k in old(buffers)) && (k in buffers ==> buffers[k] == old(buffers)[k]))
              && (if |before| >= 99 then
                    buffers[x.key] == Buffer([], None) && batch == map[x.key := Batch(before + [x], None)]
                  else
                    && batch == map[]
                    && buffers[x.key].samples == before + [x]
                    && buffers[x.key].first == if before == [] then Some(now) else old(buffers)[x.key].first)
    {
      batch := map[];
      if x.key !in buffers {
        buffers := buffers[x.key := Buffer([], Some(now))];
      }
      var b := buffers[x.key];
      if b.samples == [] {
        b := b.(first := Some(now));
      }
      b := b.(samples := b.samples + [x]);
      if |b.samples| >= PERSISTENCE_BATCH_SAMPLES {
        batch := map[x.key := Batch(b.samples, None)];
        b := Buffer([], None);
      }
      buffers := buffers[x.key := b];
    }

    /** Takes the samples out of the buffers that are old enough. */
    method TakeDue(now: int) returns (batches: map<Key, Batch>)
      modifies this`buffers
      ensures buffers == Emptied(old(buffers), Due(old(buffers), now))
      ensures batches == Taken(old(buffers), Due(old(buffers), now))
      ensures buffers.Keys == old(buffers).Keys && batches.Keys <= old(buffers).Keys
      ensures forall k | k in old(buffers) ::
                var b := old(buffers)[k];
                if b.samples != [] && b.first.Some? && now - b.first.value >= 5_000_000_000 then
                  k in batches && batches[k] == Batch(b.samples, None) && buffers[k] == Buffer([], None)
                else
                  k !in batches && buffers[k] == b
    {
      batches := map[];
      var todo := buffers.Keys;
      while todo != {}
        invariant todo <= buffers.Keys == old(buffers).Keys
        invariant buffers == Emptied(old(buffers), Due(old(buffers), now) - todo)
        invariant batches == Taken(old(buffers), Due(old(buffers), now) - todo)
      {
        var k :| k in todo;
        todo := todo - {k};
        var b := buffers[k];
        if b.samples != [] && b.first.Some? && now - b.first.value >= PERSISTENCE_FLUSH_INTERVAL_NS {
          batches := batches[k := Batch(b.samples, None)];
          buffers := buffers[k := EMPTY];
        }
      }
    }

    /** Takes the samples out of every buffer. */
    method TakeAll() returns (batches: map<Key, Batch>)
      modifies this`buffers
      ensures buffers == Emptied(old(buffers), old(buffers).Keys)
      ensures batches == Taken(old(buffers), old(buffers).Keys)
      ensures buffers.Keys == old(buffers).Keys && batches.Keys <= old(buffers).Keys
      ensures forall k | k in old(buffers) :: buffers[k] == Buffer([], None) && (k in batches <==> old(buffers)[k].samples != [])
      ensures forall k | k in batches :: batches[k] == Batch(old(buffers)[k].samples, None)
    {
      batches := map[];
      var todo := buffers.Keys;
      while todo != {}
        invariant todo <= buffers.Keys == old(buffers).Keys
        invariant buffers == Emptied(old(buffers), old(buffers).Keys - todo)
        invariant batches == Taken(old(buffers), old(buffers).Keys - todo)
      {
        var k :| k in todo;
        todo := todo - {k};
        if buffers[k].samples != [] {
          batches := batches[k := Batch(buffers[k].samples, None)];
        }
        buffers := buffers[k := EMPTY];
      }
    }
  }
}
