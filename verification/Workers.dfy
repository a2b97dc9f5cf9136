/** One receiver worker: its queue, the batch in its hands, what it has executed, and the files
    that are open for its sources. */
module Workers {

  import opened Ring

  const QUEUE_SIZE := 8192

  type Source = seq<bv8>

  /** A queued item. `stamp` numbers the control command that asked for it, `token` is the
      acknowledgement it carries (0 for none) and `due` the earliest time a delayed CLOSE may be queued. */
  datatype Item =
    | Data(source: Source)
    | Open(source: Source, token: nat, stamp: nat)
    | Close(source: Source, token: nat, stamp: nat, due: nat)

  /** An executed item and its outcome: written, opened or closed. */
  datatype Executed = Executed(item: Item, ok: bool)

  datatype Queue = Queue(
    executed: seq<Executed>,
    taken: seq<Item>,
    ring: seq<Item>,
    known: set<Source>,
    open: set<Source>)

  const EMPTY := Queue([], [], [], {}, {})

  function Items(executed: seq<Executed>): (items: seq<Item>)
    ensures |items| == |executed|
  {
    seq(|executed|, i requires 0 <= i < |executed| => executed[i].item)
  }

  /** Everything that was ever put in the queue, in order. */
  function Log(q: Queue): seq<Item> {
    Items(q.executed) + q.taken + q.ring
  }

  // ---- the critical sections and the work of the consumer ----

  function Put(q: Queue, x: Item): Queue {
    q.(ring := q.ring + [x])
  }

  function Take(q: Queue): Queue
    requires q.taken == []
  {
    var size := if |q.ring| > PROCESS_BATCH_SIZE then PROCESS_BATCH_SIZE else |q.ring|;
    q.(taken := q.ring[..size], ring := q.ring[size..])
  }

  /** Outcome of an item. An OPEN of an open source fails whatever the file system says; a CLOSE
      always closes, and reports failure only for an unknown source or a failed write. */
  predicate Outcome(q: Queue, x: Item, fileOk: bool) {
    match x
    case Data(source) => source in q.open
    case Open(source, _, _) => source !in q.open && fileOk
    case Close(source, _, _, _) => if source in q.open then fileOk else source in q.known
  }

  function Execute(q: Queue, fileOk: bool): Queue
    requires q.taken != []
  {
    var x := q.taken[0];
    var ok := Outcome(q, x, fileOk);
    var open := if x.Open? && ok then q.open + {x.source} else if x.Close? then q.open - {x.source} else q.open;
    var known := if x.Open? && ok then q.known + {x.source} else q.known;
    Queue(q.executed + [Executed(x, ok)], q.taken[1..], q.ring, known, open)
  }

  datatype Step = Putting(item: Item) | Taking | Executing(fileOk: bool)

  predicate Enabled(q: Queue, step: Step) {
    match step
    case Putting(_) => |q.ring| < QUEUE_SIZE
    case Taking => q.taken == []
    case Executing(_) => q.taken != []
  }

  /** A step that cannot be taken yet waits. */
  function Advance(q: Queue, step: Step): Queue {
    if !Enabled(q, step) then q
    else
      match step
      case Putting(x) => Put(q, x)
      case Taking => Take(q)
      case Executing(fileOk) => Execute(q, fileOk)
  }

  function Run(steps: seq<Step>): Queue {
    if steps == [] then EMPTY else Advance(Run(steps[..|steps| - 1]), steps[|steps| - 1])
  }

  /** The items the producers got into the queue, in order. */
  function Accepted(steps: seq<Step>): seq<Item> {
    if steps == [] then []
    else
      var last := steps[|steps| - 1];
      var before := Accepted(steps[..|steps| - 1]);
      if last.Putting? && Enabled(Run(steps[..|steps| - 1]), last) then before + [last.item] else before
  }

  // ---- what the history says ----

  /** Some OPEN of the source succeeded and no CLOSE of it has been executed since. */
  ghost predicate HeldOpen(history: seq<Executed>, source: Source) {
    exists j | 0 <= j < |history| ::
      && history[j].item.Open? && history[j].item.source == source && history[j].ok
      && forall k | j < k < |history| :: !(history[k].item.Close? && history[k].item.source == source)
  }

  ghost predicate Consistent(q: Queue) {
    && |q.ring| <= QUEUE_SIZE
    && |q.taken| <= PROCESS_BATCH_SIZE
    && (forall source :: source in q.open <==> HeldOpen(q.executed, source))
    && (forall i | 0 <= i < |q.executed| && q.executed[i].item.Data? ::
          q.executed[i].ok <==> HeldOpen(q.executed[..i], q.executed[i].item.source))
  }

  lemma LogAfter(q: Queue, step: Step)
    ensures Log(Advance(q, step)) ==
            if step.Putting? && Enabled(q, step) then Log(q) + [step.item] else Log(q)
  {
    if Enabled(q, step) && step.Executing? {
      var after := Execute(q, step.fileOk);
      assert Items(after.executed) == Items(q.executed) + [q.taken[0]];
      assert Items(q.executed) + q.taken == Items(after.executed) + after.taken;
    }
  }

  lemma HeldOpenAfter(history: seq<Executed>, x: Executed, source: Source)
    ensures HeldOpen(history + [x], source) <==>
            if x.item.source != source then HeldOpen(history, source)
            else (x.item.Open? && x.ok) || (!x.item.Close? && HeldOpen(history, source))
  {
    var h := history + [x];
    var n := |history|;
    assert forall j | 0 <= j < n :: h[j] == history[j];
    if x.item.source == source && x.item.Open? && x.ok {
      assert h[n] == x;
    } else if HeldOpen(h, source) {
      var j :| 0 <= j <= n && h[j].item.Open? && h[j].item.source == source && h[j].ok
               && forall k | j < k <= n :: !(h[k].item.Close? && h[k].item.source == source);
      assert j < n && history[j] == h[j];
      assert !(h[n].item.Close? && h[n].item.source == source);
    } else if HeldOpen(history, source) {
      var j :| 0 <= j < n && history[j].item.Open? && history[j].item.source == source && history[j].ok
               && forall k | j < k < n :: !(history[k].item.Close? && history[k].item.source == source);
      assert h[j] == history[j];
    }
  }

  lemma ExecuteKeepsConsistent(q: Queue, fileOk: bool)
    requires Consistent(q) && q.taken != []
    ensures Consistent(Execute(q, fileOk))
  {
    var after := Execute(q, fileOk);
    var x := Executed(q.taken[0], Outcome(q, q.taken[0], fileOk));
    forall source
      ensures source in after.open <==> HeldOpen(after.executed, source)
    {
      HeldOpenAfter(q.executed, x, source);
    }
    assert after.executed[..|q.executed|] == q.executed;
    forall i | 0 <= i < |after.executed| && after.executed[i].item.Data?
      ensures after.executed[i].ok <==> HeldOpen(after.executed[..i], after.executed[i].item.source)
    {
      if i < |q.executed| {
        assert after.executed[..i] == q.executed[..i];
      }
    }
  }

  /** Items come out once, in insertion order; a batch is written exactly when its source has been
      opened with success and not closed since, in queue order. */
  lemma {:induction false} WorkerAlways(steps: seq<Step>)
    ensures Log(Run(steps)) == Accepted(steps)
    ensures Consistent(Run(steps))
  {
    if steps != [] {
      var before := steps[..|steps| - 1];
      WorkerAlways(before);
      var q, last := Run(before), steps[|steps| - 1];
      LogAfter(q, last);
      if Enabled(q, last) && last.Executing? {
        ExecuteKeepsConsistent(q, last.fileOk);
      }
    }
  }

  // ---- outcomes ----

  ghost predicate EverOpened(history: seq<Executed>, source: Source) {
    exists j | 0 <= j < |history| :: history[j].item.Open? && history[j].item.source == source && history[j].ok
  }

  ghost predicate KnownSources(q: Queue) {
    forall source :: source in q.known <==> EverOpened(q.executed, source)
  }

  lemma EverOpenedAfter(history: seq<Executed>, x: Executed, source: Source)
    ensures EverOpened(history + [x], source) <==>
            EverOpened(history, source) || (x.item.Open? && x.item.source == source && x.ok)
  {
    var h := history + [x];
    assert h[|history|] == x;
    assert forall j | 0 <= j < |history| :: h[j] == history[j];
  }

  lemma {:induction false} KnownAlways(steps: seq<Step>)
    ensures KnownSources(Run(steps))
  {
    if steps != [] {
      KnownAlways(steps[..|steps| - 1]);
      var q, last := Run(steps[..|steps| - 1]), steps[|steps| - 1];
      if Enabled(q, last) && last.Executing? {
        forall source
          ensures source in Execute(q, last.fileOk).known <==> EverOpened(Execute(q, last.fileOk).executed, source)
        {
          EverOpenedAfter(q.executed, Executed(q.taken[0], Outcome(q, q.taken[0], last.fileOk)), source);
        }
      }
    }
  }

  /** The outcome of the next item, told by what was executed before it: an OPEN fails on an open
      source whatever the file system says, a CLOSE of an open source succeeds with its last write
      and one of a source never opened fails, data are written while the source is held open. */
  lemma NextOutcome(steps: seq<Step>, fileOk: bool)
    requires Run(steps).taken != []
    ensures var q := Run(steps);
            var after := Advance(q, Executing(fileOk));
            var x := q.taken[0];
            && |after.executed| == |q.executed| + 1
            && after.executed[..|q.executed|] == q.executed
            && after.executed[|q.executed|].item == x
            && (after.executed[|q.executed|].ok <==>
                 if x.Data? then HeldOpen(q.executed, x.source)
                 else if x.Open? then fileOk && !HeldOpen(q.executed, x.source)
                 else if HeldOpen(q.executed, x.source) then fileOk
                 else EverOpened(q.executed, x.source))
  {
    WorkerAlways(steps);
    KnownAlways(steps);
  }
}
