/** From an identity on the wire to a file: which batches are written, over the whole receiver. */
module Delivery {
  import opened Workers
  import opened Receiver
  import opened Ordering
  import opened Routing

  ghost predicate QueuesConsistent(s: System) {
    forall w | 0 <= w < |s.queues| :: Consistent(s.queues[w])
  }

  lemma QueuesAfter(s: System, l: Label)
    requires QueuesConsistent(s) && CanStep(s, l)
    ensures QueuesConsistent(Next(s, l))
  {
    if l.Work? {
      ExecuteKeepsConsistent(s.queues[l.worker], l.fileOk);
    }
  }

  lemma {:induction false} QueuesAlways(route: Source -> nat, labels: seq<Label>)
    ensures QueuesConsistent(Reach(route, labels))
  {
    if labels != [] {
      QueuesAlways(route, labels[..|labels| - 1]);
      var before, l := Reach(route, labels[..|labels| - 1]), labels[|labels| - 1];
      if CanStep(before, l) {
        QueuesAfter(before, l);
      }
    }
  }

  /** The commands about a source are executed by the worker it is routed to, and by no other. */
  lemma CommandsOnOneWorker(route: Source -> nat, labels: seq<Label>, w: nat, i: nat)
    requires forall source :: route(source) < N_WORKERS
    requires w < |Reach(route, labels).queues| && i < |Reach(route, labels).queues[w].executed|
    requires !Reach(route, labels).queues[w].executed[i].item.Data?
    ensures route(Reach(route, labels).queues[w].executed[i].item.source) == w
  {
    var s := Reach(route, labels);
    SoundAlways(route, labels);
    RouteStays(route, labels);
    assert LogSound(s, w);
    assert Log(s.queues[w])[i] == s.queues[w].executed[i].item;
  }

  lemma {:induction false} RouteStays(route: Source -> nat, labels: seq<Label>)
    ensures Reach(route, labels).route == route
  {
    if labels != [] {
      RouteStays(route, labels[..|labels| - 1]);
    }
  }

  /** In every interleaving, a batch of a source that a worker executes is written exactly when that
      worker is the one of the source and, in its queue order, the last OPEN of the source that
      succeeded has not been followed by a CLOSE. */
  lemma BatchIsWritten(route: Source -> nat, labels: seq<Label>, w: nat, i: nat)
    requires forall source :: route(source) < N_WORKERS
    requires w < |Reach(route, labels).queues| && i < |Reach(route, labels).queues[w].executed|
    requires Reach(route, labels).queues[w].executed[i].item.Data?
    ensures var history := Reach(route, labels).queues[w].executed;
            var source := history[i].item.source;
            history[i].ok <==> route(source) == w && HeldOpen(history[..i], source)
  {
    var history := Reach(route, labels).queues[w].executed;
    var source := history[i].item.source;
    QueuesAlways(route, labels);
    assert Consistent(Reach(route, labels).queues[w]);
    if HeldOpen(history[..i], source) {
      var j :| 0 <= j < i && history[..i][j].item.Open? && history[..i][j].item.source == source;
      assert history[..i][j] == history[j];
      CommandsOnOneWorker(route, labels, w, j);
    }
  }

  /** The whole path of a batch: the receiver puts it where the bytes of its identity hash to, the
      listener sends the commands where the C string does. It is written exactly when the hidden
      bytes of the identity lead back to the worker of the source and the file is held open there. */
  lemma IdentityIsWritten(labels: seq<Label>, identity: seq<bv8>, i: nat)
    requires DataWorker(identity) < |Reach(WorkerOf, labels).queues|
    requires i < |Reach(WorkerOf, labels).queues[DataWorker(identity)].executed|
    requires Reach(WorkerOf, labels).queues[DataWorker(identity)].executed[i].item == Data(DataTag(identity))
    ensures var history := Reach(WorkerOf, labels).queues[DataWorker(identity)].executed;
            var worker := WorkerOf(DataTag(identity));
            history[i].ok <==> Drift(worker, Hidden(Kept(identity))) == worker && HeldOpen(history[..i], DataTag(identity))
  {
    BatchIsWritten(WorkerOf, labels, DataWorker(identity), i);
    DataFollowTheirFile(identity);
  }
}
