/** In which order a session gives its commands, and what its report says of each client. */
module SessionOrder {
  import opened Fsm
  import opened AcquisitionSession

  // ---- the order of the finalization ----

  /** The pass of the finalization a command belongs to. */
  function Pass(command: Command): nat {
    match command
    case Disable => 1
    case Flush => 2
    case TriggerReset => 3
    case Close => 4
    case _ => 5
  }

  /** Over these clients the passes follow each other: every Disable before every Flush, every Flush
      before every TriggerReset, all of these before every Close. */
  ghost predicate InPasses(entries: Trace, clients: set<Client>) {
    forall i, j | 0 <= i < j < |entries| && entries[i].c in clients && entries[j].c in clients ::
      Pass(entries[i].command) <= Pass(entries[j].command)
  }

  ghost predicate PassesWithin(entries: Trace, low: nat, high: nat) {
    && (forall i | 0 <= i < |entries| :: low <= Pass(entries[i].command) <= high)
    && forall i, j | 0 <= i < j < |entries| :: Pass(entries[i].command) <= Pass(entries[j].command)
  }

  lemma PassesFollow(a: Trace, b: Trace, low: nat, mid: nat, high: nat)
    requires PassesWithin(a, low, mid) && PassesWithin(b, mid, high) && low <= mid <= high
    ensures PassesWithin(a + b, low, high)
  {
    var both := a + b;
    forall i, j | 0 <= i < j < |both|
      ensures Pass(both[i].command) <= Pass(both[j].command)
    {
      if j < |a| {
        assert both[i] == a[i] && both[j] == a[j];
      } else if i < |a| {
        assert both[i] == a[i] && both[j] == b[j - |a|];
      } else {
        assert both[i] == b[i - |a|] && both[j] == b[j - |a|];
      }
    }
  }

  lemma OnePass(ids: seq<Client>, command: Command, trace: Trace, w: World)
    ensures PassesWithin(Swept(ids, command, trace, w), Pass(command), Pass(command))
  {
  }

  lemma PassesWiden(a: Trace, low: nat, mid: nat, high: nat)
    requires PassesWithin(a, low, mid) && mid <= high
    ensures PassesWithin(a, low, high)
  {
  }

  lemma FinalStepsInPasses(ids: seq<Client>, resetTrigger: bool, trace: Trace, w: World)
    ensures PassesWithin(FinalSteps(ids, resetTrigger, trace, w), 1, 4)
  {
    var disabled := Swept(ids, Disable, trace, w);
    OnePass(ids, Disable, trace, w);
    var flush := Swept(ids, Flush, trace + disabled, w);
    OnePass(ids, Flush, trace + disabled, w);
    PassesWiden(disabled, 1, 1, 2);
    PassesFollow(disabled, flush, 1, 2, 2);
    LastPasses(ids, resetTrigger, trace, disabled + flush, w);
  }

  lemma LastPasses(ids: seq<Client>, resetTrigger: bool, trace: Trace, flushed: Trace, w: World)
    requires PassesWithin(flushed, 1, 2)
    ensures var reset := if resetTrigger then flushed + Swept(ids, TriggerReset, trace + flushed, w) else flushed;
            PassesWithin(reset + Swept(ids, Close, trace + reset, w), 1, 4)
  {
    PassesWiden(flushed, 1, 2, 3);
    if resetTrigger {
      OnePass(ids, TriggerReset, trace + flushed, w);
      PassesFollow(flushed, Swept(ids, TriggerReset, trace + flushed, w), 1, 3, 3);
    }
    var reset := if resetTrigger then flushed + Swept(ids, TriggerReset, trace + flushed, w) else flushed;
    PassesWiden(reset, 1, 3, 4);
    OnePass(ids, Close, trace + reset, w);
    PassesFollow(reset, Swept(ids, Close, trace + reset, w), 1, 4, 4);
  }

  lemma {:induction false} PassesOfAlive(full: Trace, short: Trace, alive: set<Client>)
    requires PassesWithin(full, 1, 4) && forall e | e in short :: e.c !in alive
    ensures InPasses(full + short, alive)
  {
    var both := full + short;
    forall i, j | 0 <= i < j < |both| && both[i].c in alive && both[j].c in alive
      ensures Pass(both[i].command) <= Pass(both[j].command)
    {
      ConcatMember(full, short, i);
      ConcatMember(full, short, j);
      assert both[i] == full[i] && both[j] == full[j];
    }
  }

  /** In every session the clients that are not lost are finalized pass by pass: channels off, flush,
      trigger reset, file close. */
  lemma FinalizationInOrder(ids: seq<Client>, resetTrigger: bool, w: World)
    ensures var alive := set c | c in ids && c !in w.lost;
            InPasses(Session(ids, resetTrigger, w).finalizing, alive)
  {
    if ids != [] {
      var p := Started(ids, w);
      var alive := set c | c in ids && c !in w.lost;
      if p.withFile != [] {
        var full := FullSteps(p, resetTrigger, w);
        var short := LostSteps(Gone(p, w), p.trace + full, w);
        FinalStepsInPasses(Alive(p, w), resetTrigger, p.trace, w);
        LostAmong(Gone(p, w), p.trace + full, w);
        AliveAndGone(p, w);
        PassesOfAlive(full, short, alive);
      }
    }
  }

  lemma PassesBehind(start: Trace, entries: Trace)
    requires PassesWithin(entries, 1, 4)
    ensures var trace := start + entries;
            forall i, j | |start| <= i < j < |trace| :: Pass(trace[i].command) <= Pass(trace[j].command) <= 4
  {
    var trace := start + entries;
    assert forall i | |start| <= i < |trace| :: trace[i] == entries[i - |start|];
  }

  /** The same after an exception, for every client. */
  lemma InterruptionInOrder(ids: seq<Client>, resetTrigger: bool, w: World, n: nat)
    requires n <= |Started(ids, w).trace|
    ensures var trace := Interrupted(ids, resetTrigger, w, n);
            && n <= |trace| && trace[..n] == Started(ids, w).trace[..n]
            && forall i, j | n <= i < j < |trace| :: Pass(trace[i].command) <= Pass(trace[j].command) <= 4
  {
    var start := Started(ids, w).trace[..n];
    var entries := FinalSteps(ids, resetTrigger, start, w);
    FinalStepsInPasses(ids, resetTrigger, start, w);
    var trace := Interrupted(ids, resetTrigger, w, n);
    PassesBehind(start, entries);
  }

  /** The trigger configuration is left alone when it has to survive. */
  lemma TriggerPreserved(ids: seq<Client>, trace: Trace, w: World)
    ensures forall e | e in FinalSteps(ids, false, trace, w) :: e.command != TriggerReset
  {
    var disabled := Swept(ids, Disable, trace, w);
    var flush := Swept(ids, Flush, trace + disabled, w);
    var close := Swept(ids, Close, trace + (disabled + flush), w);
    assert FinalSteps(ids, false, trace, w) == disabled + flush + close;
    assert forall e | e in disabled + flush + close :: e in disabled || e in flush || e in close;
  }

  // ---- the stop flag ----

  /** Before every OPEN, START and enable, and right before it, the stop flag was seen down. */
  ghost predicate StopHonoured(trace: Trace) {
    forall n | 0 <= n < |trace| && trace[n].command in {Open, Start, Enable} ::
      n > 0 && trace[n - 1] == Entry(trace[n].c, StopCheck, false)
  }

  lemma HonouredLonger(trace: Trace, entry: Entry)
    requires StopHonoured(trace)
    requires entry.command in {Open, Start, Enable} ==> trace != [] && trace[|trace| - 1] == Entry(entry.c, StopCheck, false)
    ensures StopHonoured(trace + [entry])
  {
    var longer := trace + [entry];
    forall n | 0 <= n < |longer| && longer[n].command in {Open, Start, Enable}
      ensures n > 0 && longer[n - 1] == Entry(longer[n].c, StopCheck, false)
    {
      if n < |trace| {
        assert longer[n] == trace[n];
        assert n > 0 && longer[n - 1] == trace[n - 1];
      } else {
        assert longer[n - 1] == trace[n - 1];
      }
    }
  }

  lemma AskedHonoured(trace: Trace, w: World, c: Client, command: Command)
    requires StopHonoured(trace)
    requires command in {Open, Start, Enable} ==> trace != [] && trace[|trace| - 1] == Entry(c, StopCheck, false)
    ensures StopHonoured(Asked(trace, w, c, command))
    ensures var after := Asked(trace, w, c, command); after[|after| - 1] == Entry(c, command, Ok(after))
  {
    HonouredLonger(trace, Entry(c, command, w.answer(trace, c, command)));
  }

  lemma EnableOneHonours(p: Progress, c: Client, w: World)
    requires StopHonoured(p.trace)
    ensures StopHonoured(EnableOne(p, c, w).trace)
  {
    AskedHonoured(p.trace, w, c, StopCheck);
    var first := Asked(p.trace, w, c, StopCheck);
    if !Ok(first) {
      AskedHonoured(first, w, c, Start);
      var started := Asked(first, w, c, Start);
      if Ok(started) {
        AskedHonoured(started, w, c, StopCheck);
        var second := Asked(started, w, c, StopCheck);
        if !Ok(second) {
          AskedHonoured(second, w, c, Enable);
        }
      }
    }
  }

  lemma StartOneHonours(p: Progress, c: Client, w: World)
    requires StopHonoured(p.trace)
    ensures StopHonoured(StartOne(p, c, w).trace)
  {
    AskedHonoured(p.trace, w, c, StopCheck);
    var first := Asked(p.trace, w, c, StopCheck);
    if !Ok(first) {
      AskedHonoured(first, w, c, Open);
      var confirmed := Asked(first, w, c, Open);
      if Ok(confirmed) {
        EnableOneHonours(p.(trace := confirmed), c, w);
      } else {
        AskedHonoured(confirmed, w, c, Close);
      }
    }
  }

  lemma {:induction false} CheckAllHonours(ids: seq<Client>, w: World)
    ensures StopHonoured(CheckAll(ids, w).trace)
  {
    if ids != [] {
      var before, c := CheckAll(ids[..|ids| - 1], w), ids[|ids| - 1];
      CheckAllHonours(ids[..|ids| - 1], w);
      AskedHonoured(before.trace, w, c, ReadRc19);
      AskedHonoured(Asked(before.trace, w, c, ReadRc19), w, c, Reset);
    }
  }

  lemma {:induction false} StartAllHonours(p: Progress, clients: seq<Client>, w: World)
    requires StopHonoured(p.trace)
    ensures StopHonoured(StartAll(p, clients, w).trace)
  {
    if clients != [] {
      StartAllHonours(p, clients[..|clients| - 1], w);
      StartOneHonours(StartAll(p, clients[..|clients| - 1], w), clients[|clients| - 1], w);
    }
  }

  /** A stop is looked for immediately before every OPEN, START and enable, and obeyed. */
  lemma StopIsHonoured(ids: seq<Client>, w: World)
    ensures StopHonoured(Session(ids, true, w).starting) && StopHonoured(Session(ids, false, w).starting)
    ensures StopHonoured(Started(ids, w).trace)
  {
    CheckAllHonours(ids, w);
    StartAllHonours(CheckAll(ids, w), CheckAll(ids, w).ready, w);
  }

  // ---- the report ----

  lemma EnableOneFiles(p: Progress, c: Client, w: World)
    ensures EnableOne(p, c, w).withFile == p.withFile + [c]
    ensures p.trace <= EnableOne(p, c, w).trace
    ensures forall d | Entry(d, Open, true) in EnableOne(p, c, w).trace :: Entry(d, Open, true) in p.trace
  {
  }

  /** The clients with a file are those whose OPEN was confirmed. */
  ghost predicate FilesConfirmed(p: Progress) {
    forall c :: c in p.withFile <==> Entry(c, Open, true) in p.trace
  }

  lemma StartOneFiles(p: Progress, c: Client, w: World)
    requires FilesConfirmed(p)
    ensures FilesConfirmed(StartOne(p, c, w))
  {
    var first := Asked(p.trace, w, c, StopCheck);
    if !Ok(first) {
      var confirmed := Asked(first, w, c, Open);
      if Ok(confirmed) {
        assert confirmed[|first|] == Entry(c, Open, true);
        EnableOneFiles(p.(trace := confirmed), c, w);
        OpenedNow(first, confirmed, c);
      }
    }
  }

  lemma OpenedNow(first: Trace, confirmed: Trace, c: Client)
    requires confirmed == first + [Entry(c, Open, true)]
    ensures forall d :: Entry(d, Open, true) in confirmed <==> d == c || Entry(d, Open, true) in first
  {
  }

  lemma {:induction false} CheckAllFiles(ids: seq<Client>, w: World)
    ensures FilesConfirmed(CheckAll(ids, w)) && CheckAll(ids, w).withFile == []
  {
    if ids != [] {
      CheckAllFiles(ids[..|ids| - 1], w);
    }
  }

  lemma {:induction false} StartAllFiles(p: Progress, clients: seq<Client>, w: World)
    requires FilesConfirmed(p)
    ensures FilesConfirmed(StartAll(p, clients, w))
  {
    if clients != [] {
      StartAllFiles(p, clients[..|clients| - 1], w);
      StartOneFiles(StartAll(p, clients[..|clients| - 1], w), clients[|clients| - 1], w);
    }
  }

  /** What the other fields of a result say: whether the file was opened, whether the client was
      finalized (for a lost one: its file closed), and why it did not succeed. */
  lemma ReportExplains(ids: seq<Client>, resetTrigger: bool, w: World, c: Client)
    requires c in ids
    ensures var report := Session(ids, resetTrigger, w);
            var r := report.results[c];
            && report.results.Keys == (set d | d in ids)
            && (r.withFile <==> Entry(c, Open, true) in report.starting)
            && (r.withFile && c in w.lost ==> r.error == Some(Lost) && (r.finalized <==> Entry(c, Close, true) in report.finalizing))
            && (r.withFile && c !in w.lost ==> (r.finalized <==> forall e | e in report.finalizing && e.c == c :: e.ok))
            && (r.withFile && c !in w.lost && !r.finalized ==> r.error == Some(NotFinalized))
            && (!r.withFile ==> !r.finalized && r.error.Some? && Explained(report.starting, w, c, r.error.value))
  {
    var p := Started(ids, w);
    CheckAllFiles(ids, w);
    StartAllFiles(CheckAll(ids, w), CheckAll(ids, w).ready, w);
    StartIsCareful(ids, w);
    StartDecides(ids, w);
    HealthyMembers(Finalization(p, resetTrigger, w), c);
  }

  lemma HealthyMembers(entries: Trace, c: Client)
    ensures Healthy(entries, c) <==> forall e | e in entries && e.c == c :: e.ok
  {
    if forall e | e in entries && e.c == c :: e.ok {
      assert forall i | 0 <= i < |entries| :: entries[i] in entries;
    }
  }

  // ---- a session in which nothing goes wrong ----

  /** Every command succeeds and nobody asks for a stop. */
  ghost predicate Smooth(w: World) {
    forall trace: Trace, c, command :: w.answer(trace, c, command) == (command != StopCheck)
  }

  lemma SmoothCheck(p: Progress, c: Client, w: World)
    requires Smooth(w) && MaskOk(w, c) && c in w.metadata
    ensures var q := CheckOne(p, c, w);
            q.errors == p.errors && q.ready == if c in p.ready then p.ready else p.ready + [c]
  {
  }

  lemma SmoothStart(p: Progress, c: Client, w: World)
    requires Smooth(w)
    ensures var q := StartOne(p, c, w);
            q.errors == p.errors && q.acquiring == p.acquiring + [c]
  {
  }

  lemma {:induction false} SmoothCheckAll(ids: seq<Client>, w: World)
    requires Smooth(w) && forall c | c in ids :: MaskOk(w, c) && c in w.metadata
    ensures var p := CheckAll(ids, w); p.errors == map[] && forall c | c in ids :: c in p.ready
  {
    if ids != [] {
      var before, c := ids[..|ids| - 1], ids[|ids| - 1];
      assert ids == before + [c];
      SmoothCheckAll(before, w);
      SmoothCheck(CheckAll(before, w), c, w);
    }
  }

  lemma {:induction false} SmoothStartAll(p: Progress, clients: seq<Client>, w: World)
    requires Smooth(w)
    ensures StartAll(p, clients, w).errors == p.errors
    ensures forall c | c in clients :: c in StartAll(p, clients, w).acquiring
  {
    if clients != [] {
      var before, c := clients[..|clients| - 1], clients[|clients| - 1];
      assert clients == before + [c];
      SmoothStartAll(p, before, w);
      SmoothStart(StartAll(p, before, w), c, w);
    }
  }

  lemma {:induction false} SmoothSwept(ids: seq<Client>, command: Command, trace: Trace, w: World)
    requires Smooth(w) && command != StopCheck
    ensures forall e | e in Swept(ids, command, trace, w) :: e.ok
  {
    if ids != [] {
      SmoothSwept(ids[..|ids| - 1], command, trace, w);
    }
  }

  lemma SmoothFinalSteps(ids: seq<Client>, resetTrigger: bool, trace: Trace, w: World)
    requires Smooth(w)
    ensures forall e | e in FinalSteps(ids, resetTrigger, trace, w) :: e.ok
  {
    var disabled := Swept(ids, Disable, trace, w);
    SmoothSwept(ids, Disable, trace, w);
    var flushed := disabled + Swept(ids, Flush, trace + disabled, w);
    SmoothSwept(ids, Flush, trace + disabled, w);
    var reset := if resetTrigger then flushed + Swept(ids, TriggerReset, trace + flushed, w) else flushed;
    SmoothSwept(ids, TriggerReset, trace + flushed, w);
    SmoothSwept(ids, Close, trace + reset, w);
  }

  lemma {:induction false} SmoothLost(ids: seq<Client>, trace: Trace, w: World)
    requires Smooth(w)
    ensures forall e | e in LostSteps(ids, trace, w) :: e.ok
  {
    if ids != [] {
      SmoothLost(ids[..|ids| - 1], trace, w);
    }
  }

  /** If every client is prepared, every command succeeds, nobody stops and nobody is lost, then every
      requested client succeeds. */
  lemma SmoothSessionSucceeds(ids: seq<Client>, resetTrigger: bool, w: World, c: Client)
    requires Smooth(w) && w.lost == {} && c in ids
    requires forall d | d in ids :: MaskOk(w, d) && d in w.metadata
    ensures Session(ids, resetTrigger, w).results[c].success
  {
    var p := Started(ids, w);
    SmoothCheckAll(ids, w);
    SmoothStartAll(CheckAll(ids, w), CheckAll(ids, w).ready, w);
    StartDecides(ids, w);
    SmoothFinalSteps(Alive(p, w), resetTrigger, p.trace, w);
    SmoothLost(Gone(p, w), p.trace + FullSteps(p, resetTrigger, w), w);
    HealthyMembers(Finalization(p, resetTrigger, w), c);
    assert p.withFile != [];
  }
}
