/** One acquisition session: every client is opened, started, enabled and finalized by commands
    that may fail, while clients die and a stop may be requested. */
module AcquisitionSession {
  import opened Fsm

  type Client = string

  /** `StopCheck` is a look at the stop flag; `Enable` and `Disable` write RC19. */
  datatype Command =
    | ReadRc19 | Reset | StopCheck | Open | Start | Enable | Close | Disable | Flush | TriggerReset | StopProducer

  /** A command given for a client, and whether it succeeded (for StopCheck: whether to stop). */
  datatype Entry = Entry(c: Client, command: Command, ok: bool)

  type Trace = seq<Entry>

  datatype Problem =
    | InvalidMask | ChannelsEnabled | NoMetadata | ResetFailed
    | StoppedBeforeOpen | OpenFailed | StoppedBeforeStart | StartFailed | StoppedBeforeEnable | EnableFailed
    | Lost | NotFinalized

  /** Everything the session meets: the answer to each command may depend on all that happened
      before; `lost` holds the clients recorded as lost when the wait ends. */
  datatype World = World(
    answer: (Trace, Client, Command) -> bool,
    mask: map<Client, int>,
    metadata: set<Client>,
    numericIds: set<Client>,
    lost: set<Client>)

  const RC19_MASK := 0x1FF

  function Asked(trace: Trace, w: World, c: Client, command: Command): (after: Trace)
    ensures |after| == |trace| + 1 && after[..|trace|] == trace
  {
    trace + [Entry(c, command, w.answer(trace, c, command))]
  }

  predicate Ok(trace: Trace)
    requires trace != []
  {
    trace[|trace| - 1].ok
  }

  // ---- starting ----

  /** `ready` are the clients of the first pass that may be opened, each once, in order. */
  datatype Progress = Progress(
    ready: seq<Client>,
    withFile: seq<Client>,
    acquiring: seq<Client>,
    errors: map<Client, Problem>,
    trace: Trace)

  const NO_PROGRESS := Progress([], [], [], map[], [])

  predicate MaskOk(w: World, c: Client) {
    c in w.mask && 0 < w.mask[c] <= RC19_MASK
  }

  function Fail(p: Progress, trace: Trace, c: Client, problem: Problem): Progress {
    p.(trace := trace, errors := p.errors[c := problem])
  }

  /** The first pass over one client: nothing is opened yet. */
  function CheckOne(p: Progress, c: Client, w: World): Progress {
    if !MaskOk(w, c) then Fail(p, p.trace, c, InvalidMask)
    else
      var read := Asked(p.trace, w, c, ReadRc19);
      if !Ok(read) then Fail(p, read, c, ChannelsEnabled)
      else if c !in w.metadata then Fail(p, read, c, NoMetadata)
      else
        var reset := Asked(read, w, c, Reset);
        if !Ok(reset) then Fail(p, reset, c, ResetFailed)
        else p.(trace := reset, ready := if c in p.ready then p.ready else p.ready + [c])
  }

  function CheckAll(ids: seq<Client>, w: World): Progress {
    if ids == [] then NO_PROGRESS else CheckOne(CheckAll(ids[..|ids| - 1], w), ids[|ids| - 1], w)
  }

  /** From a confirmed OPEN_READY to the enabled channels. */
  function EnableOne(p: Progress, c: Client, w: World): Progress {
    var q := p.(withFile := p.withFile + [c]);
    var first := Asked(p.trace, w, c, StopCheck);
    if Ok(first) then Fail(q, first, c, StoppedBeforeStart)
    else
      var started := Asked(first, w, c, Start);
      if !Ok(started) then Fail(q, started, c, StartFailed)
      else
        var second := Asked(started, w, c, StopCheck);
        if Ok(second) then Fail(q, second, c, StoppedBeforeEnable)
        else
          var enabled := Asked(second, w, c, Enable);
          if !Ok(enabled) then Fail(q, enabled, c, EnableFailed)
          else q.(trace := enabled, acquiring := q.acquiring + [c])
  }

  /** An OPEN that is not confirmed may still have opened the file: it is closed. */
  function StartOne(p: Progress, c: Client, w: World): Progress {
    var first := Asked(p.trace, w, c, StopCheck);
    if Ok(first) then Fail(p, first, c, StoppedBeforeOpen)
    else
      var confirmed := Asked(first, w, c, Open);
      if !Ok(confirmed) then Fail(p, Asked(confirmed, w, c, Close), c, OpenFailed)
      else EnableOne(p.(trace := confirmed), c, w)
  }

  function StartAll(p: Progress, clients: seq<Client>, w: World): Progress {
    if clients == [] then p else StartOne(StartAll(p, clients[..|clients| - 1], w), clients[|clients| - 1], w)
  }

  function Started(ids: seq<Client>, w: World): Progress {
    var checked := CheckAll(ids, w);
    StartAll(checked, checked.ready, w)
  }

  // ---- finalizing ----

  /** The commands of one pass over the clients, given after `trace`. */
  function Swept(ids: seq<Client>, command: Command, trace: Trace, w: World): (entries: Trace)
    ensures |entries| == |ids|
    ensures forall i | 0 <= i < |ids| :: entries[i].c == ids[i] && entries[i].command == command
  {
    if ids == [] then []
    else
      var before, c := Swept(ids[..|ids| - 1], command, trace, w), ids[|ids| - 1];
      before + [Entry(c, command, w.answer(trace + before, c, command))]
  }

  /** run_hardware_stop_and_flush. */
  function FinalSteps(ids: seq<Client>, resetTrigger: bool, trace: Trace, w: World): Trace {
    var disabled := Swept(ids, Disable, trace, w);
    var flushed := disabled + Swept(ids, Flush, trace + disabled, w);
    var reset := if resetTrigger then flushed + Swept(ids, TriggerReset, trace + flushed, w) else flushed;
    reset + Swept(ids, Close, trace + reset, w)
  }

  /** A client that is gone: only its producer and its file, and only if its number is known. */
  function LostSteps(ids: seq<Client>, trace: Trace, w: World): Trace {
    if ids == [] then []
    else
      var before, c := LostSteps(ids[..|ids| - 1], trace, w), ids[|ids| - 1];
      if c !in w.numericIds then before
      else
        var stopped := before + [Entry(c, StopProducer, w.answer(trace + before, c, StopProducer))];
        stopped + [Entry(c, Close, w.answer(trace + stopped, c, Close))]
  }

  /** No command for the client failed. */
  predicate Healthy(entries: Trace, c: Client) {
    forall i | 0 <= i < |entries| :: entries[i].c == c ==> entries[i].ok
  }

  predicate Succeeded(entries: Trace, c: Client, command: Command) {
    Entry(c, command, true) in entries
  }

  // ---- the session ----

  datatype ClientResult = ClientResult(withFile: bool, finalized: bool, success: bool, error: Option<Problem>)

  /** The commands of the start phase and those of the finalization are kept apart. */
  datatype Report = Report(results: map<Client, ClientResult>, starting: Trace, finalizing: Trace)

  function TraceOf(report: Report): Trace {
    report.starting + report.finalizing
  }

  function Without(ids: seq<Client>, out: set<Client>): seq<Client> {
    if ids == [] then []
    else
      var rest := Without(ids[..|ids| - 1], out);
      if ids[|ids| - 1] in out then rest else rest + [ids[|ids| - 1]]
  }

  function Alive(p: Progress, w: World): seq<Client> {
    Without(p.withFile, w.lost)
  }

  function Gone(p: Progress, w: World): seq<Client> {
    Without(p.withFile, set c | c in p.withFile && c !in w.lost)
  }

  function ErrorOf(p: Progress, c: Client): Option<Problem> {
    if c in p.errors then Some(p.errors[c]) else None
  }

  /** What is reported about one client; `entries` are the commands of the finalization. */
  function ResultOf(p: Progress, w: World, entries: Trace, c: Client): ClientResult {
    if c !in p.withFile then ClientResult(false, false, false, ErrorOf(p, c))
    else if c in w.lost then ClientResult(true, Succeeded(entries, c, Close), false, Some(Lost))
    else
      var finalized := Healthy(entries, c);
      var error := if finalized then ErrorOf(p, c) else Some(NotFinalized);
      ClientResult(true, finalized, finalized && c !in p.errors, error)
  }

  function FullSteps(p: Progress, resetTrigger: bool, w: World): Trace {
    FinalSteps(Alive(p, w), resetTrigger, p.trace, w)
  }

  /** With no file open there is nothing to finalize. */
  function Finalization(p: Progress, resetTrigger: bool, w: World): Trace {
    if p.withFile == [] then []
    else
      var full := FullSteps(p, resetTrigger, w);
      full + LostSteps(Gone(p, w), p.trace + full, w)
  }

  /** run_acquisition_session without an exception. */
  function Session(ids: seq<Client>, resetTrigger: bool, w: World): Report {
    if ids == [] then Report(map[], [], [])
    else
      var p := Started(ids, w);
      var entries := Finalization(p, resetTrigger, w);
      Report(map c | c in ids :: ResultOf(p, w, entries, c), p.trace, entries)
  }

  /** An exception in the middle of the start: every requested client is finalized. */
  function Interrupted(ids: seq<Client>, resetTrigger: bool, w: World, n: nat): Trace
    requires n <= |Started(ids, w).trace|
  {
    var start := Started(ids, w).trace[..n];
    start + FinalSteps(ids, resetTrigger, start, w)
  }

  // ---- facts about one client's start ----

  predicate Unique(ids: seq<Client>) {
    forall i, j | 0 <= i < j < |ids| :: ids[i] != ids[j]
  }

  /** A confirmed command for the client among the first n. */
  predicate DoneBy(trace: Trace, n: nat, c: Client, command: Command)
    requires n <= |trace|
  {
    exists i :: 0 <= i < n && trace[i] == Entry(c, command, true)
  }

  /** Every write that enables channels comes after a confirmed OPEN_READY and START. */
  ghost predicate EnablesJustified(trace: Trace) {
    forall n | 0 <= n < |trace| && trace[n].command == Enable ::
      DoneBy(trace, n, trace[n].c, Open) && DoneBy(trace, n, trace[n].c, Start)
  }

  /** Only opened clients are enabled, and what the lists say was confirmed. */
  ghost predicate Orderly(p: Progress) {
    && EnablesJustified(p.trace)
    && (forall n | 0 <= n < |p.trace| && p.trace[n].command == Enable :: p.trace[n].c in p.withFile)
    && (forall c | c in p.acquiring :: DoneBy(p.trace, |p.trace|, c, Enable))
  }

  lemma DoneLonger(trace: Trace, entry: Entry, n: nat, c: Client, command: Command)
    requires n <= |trace| && DoneBy(trace, n, c, command)
    ensures forall m | n <= m <= |trace| + 1 :: DoneBy(trace + [entry], m, c, command)
  {
    var i :| 0 <= i < n && trace[i] == Entry(c, command, true);
    assert (trace + [entry])[i] == trace[i];
  }

  lemma JustifiedLonger(trace: Trace, entry: Entry)
    requires EnablesJustified(trace)
    requires entry.command == Enable ==> DoneBy(trace, |trace|, entry.c, Open) && DoneBy(trace, |trace|, entry.c, Start)
    ensures EnablesJustified(trace + [entry])
  {
    var longer := trace + [entry];
    forall n | 0 <= n < |longer| && longer[n].command == Enable
      ensures DoneBy(longer, n, longer[n].c, Open) && DoneBy(longer, n, longer[n].c, Start)
    {
      assert n < |trace| ==> longer[n] == trace[n];
      DoneLonger(trace, entry, n, longer[n].c, Open);
      DoneLonger(trace, entry, n, longer[n].c, Start);
    }
  }

  /** Any command but an enable leaves the lists in order. */
  lemma OrderlyLonger(p: Progress, entry: Entry)
    requires Orderly(p) && entry.command != Enable
    ensures Orderly(p.(trace := p.trace + [entry]))
  {
    var longer := p.trace + [entry];
    JustifiedLonger(p.trace, entry);
    forall c | c in p.acquiring
      ensures DoneBy(longer, |longer|, c, Enable)
    {
      DoneLonger(p.trace, entry, |p.trace|, c, Enable);
    }
  }

  lemma AskedOrderly(p: Progress, w: World, c: Client, command: Command)
    requires Orderly(p) && command != Enable
    ensures Orderly(p.(trace := Asked(p.trace, w, c, command)))
  {
    OrderlyLonger(p, Entry(c, command, w.answer(p.trace, c, command)));
  }

  /** The errors do not matter to the order of the commands. */
  lemma FailOrderly(p: Progress, trace: Trace, c: Client, problem: Problem)
    requires Orderly(p.(trace := trace))
    ensures Orderly(Fail(p, trace, c, problem))
  {
  }

  lemma OpenedOrderly(p: Progress, c: Client)
    requires Orderly(p)
    ensures Orderly(p.(withFile := p.withFile + [c]))
  {
  }

  lemma EnableOrderly(p: Progress, w: World, c: Client)
    requires Orderly(p) && c in p.withFile
    requires DoneBy(p.trace, |p.trace|, c, Open) && DoneBy(p.trace, |p.trace|, c, Start)
    ensures Orderly(p.(trace := Asked(p.trace, w, c, Enable)))
    ensures Ok(Asked(p.trace, w, c, Enable)) ==>
      Orderly(p.(trace := Asked(p.trace, w, c, Enable), acquiring := p.acquiring + [c]))
  {
    var entry := Entry(c, Enable, w.answer(p.trace, c, Enable));
    var longer := p.trace + [entry];
    JustifiedLonger(p.trace, entry);
    forall d | d in p.acquiring
      ensures DoneBy(longer, |longer|, d, Enable)
    {
      DoneLonger(p.trace, entry, |p.trace|, d, Enable);
    }
    if entry.ok {
      assert longer[|p.trace|] == Entry(c, Enable, true);
      assert DoneBy(longer, |longer|, c, Enable);
    }
  }

  lemma EnableOneOrderly(p: Progress, c: Client, w: World)
    requires Orderly(p) && DoneBy(p.trace, |p.trace|, c, Open)
    ensures Orderly(EnableOne(p, c, w))
  {
    OpenedOrderly(p, c);
    var q := p.(withFile := p.withFile + [c]);
    var first := Asked(p.trace, w, c, StopCheck);
    AskedOrderly(q, w, c, StopCheck);
    DoneLonger(p.trace, first[|p.trace|], |p.trace|, c, Open);
    if Ok(first) {
      FailOrderly(q, first, c, StoppedBeforeStart);
      return;
    }
    var started := Asked(first, w, c, Start);
    AskedOrderly(q.(trace := first), w, c, Start);
    DoneLonger(first, started[|first|], |first|, c, Open);
    if !Ok(started) {
      FailOrderly(q, started, c, StartFailed);
      return;
    }
    assert started[|first|] == Entry(c, Start, true);
    assert DoneBy(started, |started|, c, Start);
    SecondHalfOrderly(q.(trace := started), c, w);
    FailOrderly(q, Asked(started, w, c, StopCheck), c, StoppedBeforeEnable);
    FailOrderly(q, Asked(Asked(started, w, c, StopCheck), w, c, Enable), c, EnableFailed);
  }

  lemma SecondHalfOrderly(q: Progress, c: Client, w: World)
    requires Orderly(q) && c in q.withFile
    requires DoneBy(q.trace, |q.trace|, c, Open) && DoneBy(q.trace, |q.trace|, c, Start)
    ensures var second := Asked(q.trace, w, c, StopCheck);
            var enabled := Asked(second, w, c, Enable);
            && Orderly(q.(trace := second))
            && Orderly(q.(trace := enabled))
            && (Ok(enabled) ==> Orderly(q.(trace := enabled, acquiring := q.acquiring + [c])))
  {
    var second := Asked(q.trace, w, c, StopCheck);
    AskedOrderly(q, w, c, StopCheck);
    DoneLonger(q.trace, second[|q.trace|], |q.trace|, c, Open);
    DoneLonger(q.trace, second[|q.trace|], |q.trace|, c, Start);
    EnableOrderly(q.(trace := second), w, c);
  }

  lemma StartOneOrderly(p: Progress, c: Client, w: World)
    requires Orderly(p)
    ensures Orderly(StartOne(p, c, w))
  {
    var first := Asked(p.trace, w, c, StopCheck);
    AskedOrderly(p, w, c, StopCheck);
    var confirmed := Asked(first, w, c, Open);
    AskedOrderly(p.(trace := first), w, c, Open);
    if Ok(first) {
      FailOrderly(p, first, c, StoppedBeforeOpen);
    } else if !Ok(confirmed) {
      AskedOrderly(p.(trace := confirmed), w, c, Close);
      FailOrderly(p, Asked(confirmed, w, c, Close), c, OpenFailed);
    } else {
      assert confirmed[|first|] == Entry(c, Open, true);
      EnableOneOrderly(p.(trace := confirmed), c, w);
    }
  }

  lemma CheckOneOrderly(p: Progress, c: Client, w: World)
    requires Orderly(p)
    ensures Orderly(CheckOne(p, c, w))
  {
    var read := Asked(p.trace, w, c, ReadRc19);
    AskedOrderly(p, w, c, ReadRc19);
    AskedOrderly(p.(trace := read), w, c, Reset);
  }

  lemma {:induction false} CheckAllOrderly(ids: seq<Client>, w: World)
    ensures Orderly(CheckAll(ids, w))
  {
    if ids != [] {
      CheckAllOrderly(ids[..|ids| - 1], w);
      CheckOneOrderly(CheckAll(ids[..|ids| - 1], w), ids[|ids| - 1], w);
    }
  }

  lemma {:induction false} StartAllOrderly(p: Progress, clients: seq<Client>, w: World)
    requires Orderly(p)
    ensures Orderly(StartAll(p, clients, w))
  {
    if clients != [] {
      StartAllOrderly(p, clients[..|clients| - 1], w);
      StartOneOrderly(StartAll(p, clients[..|clients| - 1], w), clients[|clients| - 1], w);
    }
  }

  /** In the start phase a non-zero RC19 is written only to an opened client, after its confirmed
      OPEN_READY and START, and the acquiring clients are those where it was confirmed. */
  lemma StartIsOrderly(ids: seq<Client>, w: World)
    ensures Orderly(Started(ids, w))
  {
    CheckAllOrderly(ids, w);
    StartAllOrderly(CheckAll(ids, w), CheckAll(ids, w).ready, w);
  }

  // ---- who ends where ----

  lemma CheckOneFacts(p: Progress, c: Client, w: World)
    ensures var q := CheckOne(p, c, w);
            && q.withFile == p.withFile && q.acquiring == p.acquiring
            && ((q.errors == p.errors && q.ready == if c in p.ready then p.ready else p.ready + [c])
                || (q.errors.Keys == p.errors.Keys + {c} && q.ready == p.ready))
  {
  }

  lemma UniqueAppend(ids: seq<Client>, c: Client)
    ensures Unique(ids + [c]) <==> Unique(ids) && c !in ids
  {
    var longer := ids + [c];
    if Unique(longer) {
      assert forall i, j | 0 <= i < j < |ids| :: longer[i] == ids[i] && longer[j] == ids[j];
      assert forall i | 0 <= i < |ids| :: longer[i] != longer[|ids|];
    }
  }

  /** What the first pass has established about the clients it has seen. */
  ghost predicate Checked(ids: seq<Client>, p: Progress) {
    && p.withFile == [] && p.acquiring == [] && Unique(p.ready)
    && (forall c | c in p.ready :: c in ids)
    && (forall c | c in p.errors :: c in ids)
    && (forall c | c in ids :: c in p.ready || c in p.errors)
    && (Unique(ids) ==> forall c | c in p.ready :: c !in p.errors)
  }

  lemma CheckedNext(ids: seq<Client>, p: Progress, c: Client, w: World)
    requires Checked(ids, p)
    ensures Checked(ids + [c], CheckOne(p, c, w))
  {
    CheckOneFacts(p, c, w);
    UniqueAppend(ids, c);
    UniqueAppend(p.ready, c);
  }

  lemma {:induction false} CheckAllFacts(ids: seq<Client>, w: World)
    ensures Checked(ids, CheckAll(ids, w))
  {
    if ids != [] {
      var before, c := ids[..|ids| - 1], ids[|ids| - 1];
      assert ids == before + [c];
      CheckAllFacts(before, w);
      CheckedNext(before, CheckAll(before, w), c, w);
    }
  }

  lemma StartOneFacts(p: Progress, c: Client, w: World)
    ensures var q := StartOne(p, c, w);
            || (q.acquiring == p.acquiring + [c] && q.withFile == p.withFile + [c] && q.errors == p.errors)
            || (q.acquiring == p.acquiring && q.errors.Keys == p.errors.Keys + {c}
                && (q.withFile == p.withFile || q.withFile == p.withFile + [c]))
  {
  }

  /** Where the clients handled so far are; `p` is the outcome of the first pass. */
  ghost predicate Sorted(p: Progress, clients: seq<Client>, q: Progress) {
    && Unique(q.withFile)
    && (forall c | c in q.withFile :: c in clients)
    && (forall c | c in q.acquiring :: c in q.withFile)
    && (forall c | c in clients :: c in q.acquiring || c in q.errors)
    && (forall c | c in p.errors :: c in q.errors)
    && (forall c | c in q.errors :: c in p.errors || c in clients)
    && (forall c | c in q.acquiring && c !in p.errors :: c !in q.errors)
  }

  lemma SortedNext(p: Progress, clients: seq<Client>, q: Progress, c: Client, w: World)
    requires Sorted(p, clients, q) && c !in clients
    ensures Sorted(p, clients + [c], StartOne(q, c, w))
  {
    StartOneFacts(q, c, w);
    UniqueAppend(q.withFile, c);
  }

  lemma {:induction false} StartAllFacts(p: Progress, clients: seq<Client>, w: World)
    requires p.withFile == [] && p.acquiring == [] && Unique(clients)
    ensures Sorted(p, clients, StartAll(p, clients, w))
  {
    if clients != [] {
      var before, c := clients[..|clients| - 1], clients[|clients| - 1];
      assert clients == before + [c];
      UniqueAppend(before, c);
      StartAllFacts(p, before, w);
      SortedNext(p, before, StartAll(p, before, w), c, w);
    }
  }

  /** Every requested client ends the start phase enabled or with an error; never both, when no
      client is requested twice. */
  lemma StartDecides(ids: seq<Client>, w: World)
    ensures var p := Started(ids, w);
            && Unique(p.withFile)
            && (forall c | c in ids :: c in p.acquiring || c in p.errors)
            && (forall c | c in p.acquiring :: c in p.withFile)
            && (forall c | c in p.withFile :: c in ids && (c in p.acquiring || c in p.errors))
            && (Unique(ids) ==> forall c | c in ids :: !(c in p.acquiring && c in p.errors))
  {
    var checked := CheckAll(ids, w);
    CheckAllFacts(ids, w);
    StartAllFacts(checked, checked.ready, w);
  }

  // ---- opening, and what an error says ----

  /** A file is opened only after the register was read as disabled and the reset confirmed; an OPEN
      that is not confirmed is followed at once by a CLOSE. */
  ghost predicate OpensJustified(trace: Trace) {
    forall n | 0 <= n < |trace| && trace[n].command == Open ::
      && DoneBy(trace, n, trace[n].c, ReadRc19)
      && DoneBy(trace, n, trace[n].c, Reset)
      && (trace[n].ok || ClosedNext(trace, n))
  }

  predicate ClosedNext(trace: Trace, n: nat)
    requires n < |trace|
  {
    n + 1 < |trace| && trace[n + 1].c == trace[n].c && trace[n + 1].command == Close
  }

  /** What was met when a client got this error. */
  predicate Explained(entries: Trace, w: World, c: Client, problem: Problem) {
    match problem
    case InvalidMask => !MaskOk(w, c)
    case NoMetadata => c !in w.metadata
    case ChannelsEnabled => Entry(c, ReadRc19, false) in entries
    case ResetFailed => Entry(c, Reset, false) in entries
    case StoppedBeforeOpen => Entry(c, StopCheck, true) in entries
    case OpenFailed => Entry(c, Open, false) in entries
    case StoppedBeforeStart => Entry(c, StopCheck, true) in entries && Entry(c, Open, true) in entries
    case StartFailed => Entry(c, Start, false) in entries
    case StoppedBeforeEnable => Entry(c, StopCheck, true) in entries && Entry(c, Start, true) in entries
    case EnableFailed => Entry(c, Enable, false) in entries
    case Lost => false
    case NotFinalized => false
  }

  ghost predicate Careful(p: Progress, w: World) {
    && OpensJustified(p.trace)
    && (forall c | c in p.ready ::
      MaskOk(w, c) && c in w.metadata && DoneBy(p.trace, |p.trace|, c, ReadRc19) && DoneBy(p.trace, |p.trace|, c, Reset))
    && (forall c | c in p.errors :: Explained(p.trace, w, c, p.errors[c]))
  }

  /** The commands of one client's start, and the error it may end with. */
  lemma StartOneSteps(p: Progress, c: Client, w: World) returns (entries: Trace)
    ensures var q := StartOne(p, c, w);
            && q.trace == p.trace + entries
            && q.ready == p.ready
            && (q.errors == p.errors || (c in q.errors && q.errors == p.errors[c := q.errors[c]] && Explained(entries, w, c, q.errors[c])))
    ensures forall i | 0 <= i < |entries| :: entries[i].c == c
    ensures forall i | 0 <= i < |entries| && entries[i].command == Open ::
              i == 1 && (entries[i].ok || ClosedNext(entries, i))
  {
    var x := Entry(c, StopCheck, w.answer(p.trace, c, StopCheck));
    entries := [x];
    if !x.ok {
      var y := Entry(c, Open, w.answer(p.trace + [x], c, Open));
      var confirmed := p.trace + [x] + [y];
      if y.ok {
        var rest := EnableTail(p.(trace := confirmed), c, w);
        entries := [x, y] + rest;
        Together(p.trace, x, y, rest);
        ExplainedAfterOpen(x, rest, w, c);
      } else {
        var z := Entry(c, Close, w.answer(confirmed, c, Close));
        entries := [x, y] + [z];
        Together(p.trace, x, y, [z]);
      }
    }
  }

  lemma Together(trace: Trace, x: Entry, y: Entry, rest: Trace)
    ensures trace + [x] + [y] + rest == trace + ([x, y] + rest)
  {
  }

  lemma ExplainedAfterOpen(x: Entry, rest: Trace, w: World, c: Client)
    ensures forall problem | ExplainedTail(rest, c, problem) ::
              Explained([x, Entry(c, Open, true)] + rest, w, c, problem)
  {
  }

  /** The commands after a confirmed OPEN_READY. */
  lemma EnableTail(p: Progress, c: Client, w: World) returns (rest: Trace)
    ensures var q := EnableOne(p, c, w);
            && q.trace == p.trace + rest
            && (q.errors == p.errors
                || (c in q.errors && q.errors == p.errors[c := q.errors[c]] && ExplainedTail(rest, c, q.errors[c])))
    ensures forall i | 0 <= i < |rest| :: rest[i].c == c && rest[i].command in {StopCheck, Start, Enable}
  {
    var a := Entry(c, StopCheck, w.answer(p.trace, c, StopCheck));
    rest := [a];
    if !a.ok {
      var b := Entry(c, Start, w.answer(p.trace + [a], c, Start));
      rest := [a] + [b];
      Regrouped(p.trace, [a], [b]);
      if b.ok {
        var d := Entry(c, StopCheck, w.answer(p.trace + rest, c, StopCheck));
        Regrouped(p.trace, rest, [d]);
        rest := rest + [d];
        if !d.ok {
          var e := Entry(c, Enable, w.answer(p.trace + rest, c, Enable));
          Regrouped(p.trace, rest, [e]);
          rest := rest + [e];
        }
      }
    }
  }

  /** What explains an error that follows a confirmed OPEN_READY. */
  predicate ExplainedTail(rest: Trace, c: Client, problem: Problem) {
    match problem
    case StoppedBeforeStart => Entry(c, StopCheck, true) in rest
    case StartFailed => Entry(c, Start, false) in rest
    case StoppedBeforeEnable => Entry(c, StopCheck, true) in rest && Entry(c, Start, true) in rest
    case EnableFailed => Entry(c, Enable, false) in rest
    case _ => false
  }

  lemma Regrouped(a: Trace, b: Trace, c: Trace)
    ensures a + b + c == a + (b + c)
  {
  }

  lemma DoneBeyond(trace: Trace, entries: Trace, n: nat, m: nat, c: Client, command: Command)
    requires n <= |trace| && n <= m <= |trace + entries| && DoneBy(trace, n, c, command)
    ensures DoneBy(trace + entries, m, c, command)
  {
    var i :| 0 <= i < n && trace[i] == Entry(c, command, true);
    assert (trace + entries)[i] == trace[i];
  }

  lemma OpensLonger(trace: Trace, entries: Trace, c: Client)
    requires OpensJustified(trace) && forall i | 0 <= i < |entries| :: entries[i].c == c
    requires forall i | 0 <= i < |entries| && entries[i].command == Open ::
               && DoneBy(trace, |trace|, c, ReadRc19) && DoneBy(trace, |trace|, c, Reset)
               && (entries[i].ok || ClosedNext(entries, i))
    ensures OpensJustified(trace + entries)
  {
    var longer := trace + entries;
    forall n | 0 <= n < |longer| && longer[n].command == Open
      ensures DoneBy(longer, n, longer[n].c, ReadRc19) && DoneBy(longer, n, longer[n].c, Reset)
      ensures longer[n].ok || ClosedNext(longer, n)
    {
      if n < |trace| {
        assert longer[n] == trace[n];
        assert n + 1 < |trace| ==> longer[n + 1] == trace[n + 1];
        DoneBeyond(trace, entries, n, n, longer[n].c, ReadRc19);
        DoneBeyond(trace, entries, n, n, longer[n].c, Reset);
      } else {
        assert longer[n] == entries[n - |trace|];
        assert n + 1 < |longer| ==> longer[n + 1] == entries[n - |trace| + 1];
        DoneBeyond(trace, entries, |trace|, n, c, ReadRc19);
        DoneBeyond(trace, entries, |trace|, n, c, Reset);
      }
    }
  }

  lemma ExplainedLonger(a: Trace, b: Trace, w: World, c: Client, problem: Problem)
    ensures Explained(a, w, c, problem) || Explained(b, w, c, problem) ==> Explained(a + b, w, c, problem)
  {
  }

  /** What the commands of one more client leave in order. */
  lemma CarefulLonger(p: Progress, q: Progress, w: World, entries: Trace, c: Client)
    requires Careful(p, w) && q.trace == p.trace + entries && OpensJustified(q.trace)
    requires q.ready == p.ready || (q.ready == p.ready + [c] && MaskOk(w, c) && c in w.metadata
               && DoneBy(q.trace, |q.trace|, c, ReadRc19) && DoneBy(q.trace, |q.trace|, c, Reset))
    requires q.errors == p.errors || (c in q.errors && q.errors == p.errors[c := q.errors[c]] && Explained(entries, w, c, q.errors[c]))
    ensures Careful(q, w)
  {
    forall d | d in q.errors
      ensures Explained(q.trace, w, d, q.errors[d])
    {
      ExplainedLonger(p.trace, entries, w, d, q.errors[d]);
    }
    forall d | d in p.ready
      ensures DoneBy(q.trace, |q.trace|, d, ReadRc19) && DoneBy(q.trace, |q.trace|, d, Reset)
    {
      DoneBeyond(p.trace, entries, |p.trace|, |q.trace|, d, ReadRc19);
      DoneBeyond(p.trace, entries, |p.trace|, |q.trace|, d, Reset);
    }
  }

  lemma StartOneCareful(p: Progress, c: Client, w: World)
    requires Careful(p, w) && c in p.ready
    ensures Careful(StartOne(p, c, w), w) && StartOne(p, c, w).ready == p.ready
  {
    var entries := StartOneSteps(p, c, w);
    OpensLonger(p.trace, entries, c);
    CarefulLonger(p, StartOne(p, c, w), w, entries, c);
  }

  lemma CheckOneSteps(p: Progress, c: Client, w: World) returns (entries: Trace)
    ensures var q := CheckOne(p, c, w);
            && q.trace == p.trace + entries
            && (q.errors == p.errors || (c in q.errors && q.errors == p.errors[c := q.errors[c]] && Explained(entries, w, c, q.errors[c])))
            && (q.ready == p.ready || (q.ready == p.ready + [c] && MaskOk(w, c) && c in w.metadata
                && entries == [Entry(c, ReadRc19, true), Entry(c, Reset, true)]))
    ensures forall i | 0 <= i < |entries| :: entries[i].c == c && entries[i].command != Open
  {
    var read := Asked(p.trace, w, c, ReadRc19);
    var reset := Asked(read, w, c, Reset);
    entries := CheckOne(p, c, w).trace[|p.trace|..];
    var all := [read[|p.trace|], reset[|read|]];
    assert reset == p.trace + all;
    assert entries == all[..|entries|];
    assert |entries| > 0 ==> entries[0] == all[0];
  }

  lemma CheckOneCareful(p: Progress, c: Client, w: World)
    requires Careful(p, w)
    ensures Careful(CheckOne(p, c, w), w)
  {
    var q := CheckOne(p, c, w);
    var entries := CheckOneSteps(p, c, w);
    OpensLonger(p.trace, entries, c);
    if q.ready != p.ready {
      assert q.trace[|p.trace|] == Entry(c, ReadRc19, true) && q.trace[|p.trace| + 1] == Entry(c, Reset, true);
    }
    CarefulLonger(p, q, w, entries, c);
  }

  lemma {:induction false} CheckAllCareful(ids: seq<Client>, w: World)
    ensures Careful(CheckAll(ids, w), w)
  {
    if ids != [] {
      CheckAllCareful(ids[..|ids| - 1], w);
      CheckOneCareful(CheckAll(ids[..|ids| - 1], w), ids[|ids| - 1], w);
    }
  }

  lemma {:induction false} StartAllCareful(p: Progress, clients: seq<Client>, w: World)
    requires Careful(p, w) && forall c | c in clients :: c in p.ready
    ensures Careful(StartAll(p, clients, w), w) && StartAll(p, clients, w).ready == p.ready
  {
    if clients != [] {
      StartAllCareful(p, clients[..|clients| - 1], w);
      StartOneCareful(StartAll(p, clients[..|clients| - 1], w), clients[|clients| - 1], w);
    }
  }

  /** Nothing is opened unchecked, an unconfirmed OPEN is closed at once, and every start error names
      what was really met. */
  lemma StartIsCareful(ids: seq<Client>, w: World)
    ensures Careful(Started(ids, w), w)
  {
    CheckAllCareful(ids, w);
    StartAllCareful(CheckAll(ids, w), CheckAll(ids, w).ready, w);
  }

  // ---- a client requested twice ----

  /** Everything succeeds but the first look at the registers of one client. */
  function FlakyWorld(ids: seq<Client>, c: Client): World {
    World((trace: Trace, d: Client, command: Command) =>
            command != StopCheck && !(command == ReadRc19 && d == c && Entry(c, ReadRc19, false) !in trace),
          map d | d in ids :: 1, set d | d in ids, {}, {})
  }

  ghost predicate FlakyChecked(ids: seq<Client>, c: Client, p: Progress) {
    && (c in ids <==> Entry(c, ReadRc19, false) in p.trace)
    && (c in ids ==> c in p.errors)
    && (!Unique(ids) ==> forall i, j | 0 <= i < j < |ids| && ids[i] == ids[j] == c :: c in p.ready)
  }

  lemma FlakyNext(all: seq<Client>, ids: seq<Client>, c: Client, d: Client)
    requires d in all && FlakyChecked(ids, c, CheckAll(ids, FlakyWorld(all, c)))
    ensures FlakyChecked(ids + [d], c, CheckOne(CheckAll(ids, FlakyWorld(all, c)), d, FlakyWorld(all, c)))
  {
    var w := FlakyWorld(all, c);
    var p := CheckAll(ids, w);
    var q := CheckOne(p, d, w);
    var read := Asked(p.trace, w, d, ReadRc19);
    assert read[|p.trace|] == Entry(d, ReadRc19, w.answer(p.trace, d, ReadRc19));
    if Ok(read) {
      var reset := Asked(read, w, d, Reset);
      assert reset[|read|] == Entry(d, Reset, true);
      assert q.trace == p.trace + [Entry(d, ReadRc19, true), Entry(d, Reset, true)];
    } else {
      assert q.trace == p.trace + [Entry(c, ReadRc19, false)];
      assert Entry(c, ReadRc19, false) in q.trace;
    }
  }

  lemma {:induction false} FlakyAll(all: seq<Client>, ids: seq<Client>, c: Client)
    requires forall d | d in ids :: d in all
    ensures FlakyChecked(ids, c, CheckAll(ids, FlakyWorld(all, c)))
  {
    if ids != [] {
      var before, d := ids[..|ids| - 1], ids[|ids| - 1];
      assert ids == before + [d];
      FlakyAll(all, before, c);
      FlakyNext(all, before, c, d);
    }
  }

  lemma FlakyStartsOne(all: seq<Client>, c: Client, p: Progress, d: Client)
    ensures var q := StartOne(p, d, FlakyWorld(all, c));
            q.errors == p.errors && q.acquiring == p.acquiring + [d]
  {
  }

  /** When nothing fails any more, every client left ends enabled. */
  lemma {:induction false} FlakyStarts(all: seq<Client>, c: Client, p: Progress, clients: seq<Client>)
    ensures var q := StartAll(p, clients, FlakyWorld(all, c));
            q.errors == p.errors && forall d | d in clients :: d in q.acquiring
  {
    if clients != [] {
      var before, d := clients[..|clients| - 1], clients[|clients| - 1];
      assert clients == before + [d];
      FlakyStarts(all, c, p, before);
      FlakyStartsOne(all, c, StartAll(p, before, FlakyWorld(all, c)), d);
    }
  }

  /** A client requested twice can end the start phase both enabled and with an error: the two
      outcomes exclude each other in every world exactly when no client is requested twice. */
  lemma OutcomesExcludeIffUnique(ids: seq<Client>)
    ensures (forall w: World, c | c in ids :: !(c in Started(ids, w).acquiring && c in Started(ids, w).errors)) <==> Unique(ids)
  {
    if Unique(ids) {
      forall w: World, c | c in ids
        ensures !(c in Started(ids, w).acquiring && c in Started(ids, w).errors)
      {
        StartDecides(ids, w);
      }
    } else {
      var i, j :| 0 <= i < j < |ids| && ids[i] == ids[j];
      var c := ids[i];
      var w := FlakyWorld(ids, c);
      FlakyAll(ids, ids, c);
      FlakyStarts(ids, c, CheckAll(ids, w), CheckAll(ids, w).ready);
      assert c in Started(ids, w).acquiring && c in Started(ids, w).errors;
    }
  }

  // ---- finalization ----

  ghost predicate Among(entries: Trace, clients: seq<Client>, commands: set<Command>) {
    forall e | e in entries :: e.c in clients && e.command in commands
  }

  ghost predicate Given(entries: Trace, c: Client, command: Command) {
    exists e :: e in entries && e.c == c && e.command == command
  }

  ghost predicate Covers(entries: Trace, clients: seq<Client>, command: Command) {
    forall c | c in clients :: Given(entries, c, command)
  }

  lemma SweptCovers(ids: seq<Client>, command: Command, trace: Trace, w: World)
    ensures var entries := Swept(ids, command, trace, w);
            Among(entries, ids, {command}) && Covers(entries, ids, command)
  {
    var entries := Swept(ids, command, trace, w);
    forall c | c in ids
      ensures Given(entries, c, command)
    {
      var i :| 0 <= i < |ids| && ids[i] == c;
      assert entries[i] in entries;
    }
  }

  lemma CoversLonger(a: Trace, b: Trace, clients: seq<Client>, command: Command)
    ensures Covers(a, clients, command) || Covers(b, clients, command) ==> Covers(a + b, clients, command)
  {
    if Covers(a, clients, command) || Covers(b, clients, command) {
      forall c | c in clients
        ensures Given(a + b, c, command)
      {
        if Given(a, c, command) {
          var e :| e in a && e.c == c && e.command == command;
          assert e in a + b;
        } else {
          var e :| e in b && e.c == c && e.command == command;
          assert e in a + b;
        }
      }
    }
  }

  /** Every client gets the whole finalization: RC19 off, flush, trigger reset, file close. */
  ghost predicate Complete(entries: Trace, ids: seq<Client>, resetTrigger: bool) {
    && Among(entries, ids, {Disable, Flush, TriggerReset, Close})
    && Covers(entries, ids, Disable)
    && Covers(entries, ids, Flush)
    && Covers(entries, ids, Close)
    && (resetTrigger ==> Covers(entries, ids, TriggerReset))
  }

  lemma FinalStepsComplete(ids: seq<Client>, resetTrigger: bool, trace: Trace, w: World)
    ensures Complete(FinalSteps(ids, resetTrigger, trace, w), ids, resetTrigger)
  {
    var disabled := Swept(ids, Disable, trace, w);
    SweptCovers(ids, Disable, trace, w);
    var flush := Swept(ids, Flush, trace + disabled, w);
    var flushed := disabled + flush;
    SweptCovers(ids, Flush, trace + disabled, w);
    var reset := if resetTrigger then Swept(ids, TriggerReset, trace + flushed, w) else [];
    if resetTrigger {
      SweptCovers(ids, TriggerReset, trace + flushed, w);
    }
    assert flushed + reset == if resetTrigger then flushed + reset else flushed;
    var close := Swept(ids, Close, trace + (flushed + reset), w);
    SweptCovers(ids, Close, trace + (flushed + reset), w);
    forall command
      ensures Covers(disabled, ids, command) || Covers(flush, ids, command) ==> Covers(flushed, ids, command)
      ensures Covers(flushed, ids, command) || Covers(reset, ids, command) ==> Covers(flushed + reset, ids, command)
      ensures Covers(flushed + reset, ids, command) || Covers(close, ids, command) ==> Covers(flushed + reset + close, ids, command)
    {
      CoversLonger(disabled, flush, ids, command);
      CoversLonger(flushed, reset, ids, command);
      CoversLonger(flushed + reset, close, ids, command);
    }
  }

  lemma FinalStepsAmong(ids: seq<Client>, resetTrigger: bool, trace: Trace, w: World)
    ensures Among(FinalSteps(ids, resetTrigger, trace, w), ids, {Disable, Flush, TriggerReset, Close})
  {
    FinalStepsComplete(ids, resetTrigger, trace, w);
  }

  lemma {:induction false} LostAmong(ids: seq<Client>, trace: Trace, w: World)
    ensures Among(LostSteps(ids, trace, w), ids, {StopProducer, Close})
  {
    if ids != [] {
      var before, c := ids[..|ids| - 1], ids[|ids| - 1];
      assert ids == before + [c];
      LostAmong(before, trace, w);
    }
  }

  ghost predicate StoppedThenClosed(entries: Trace, c: Client) {
    exists i :: 0 <= i < |entries| && entries[i].c == c && entries[i].command == StopProducer && ClosedNext(entries, i)
  }

  lemma StopThenClose(before: Trace, stop: Entry, close: Entry)
    requires stop.c == close.c && stop.command == StopProducer && close.command == Close
    ensures StoppedThenClosed(before + [stop] + [close], stop.c)
    ensures forall c | StoppedThenClosed(before, c) :: StoppedThenClosed(before + [stop] + [close], c)
  {
    var entries := before + [stop] + [close];
    assert entries[|before|] == stop && entries[|before| + 1] == close;
    assert ClosedNext(entries, |before|);
    forall c | StoppedThenClosed(before, c)
      ensures StoppedThenClosed(entries, c)
    {
      var i :| 0 <= i < |before| && before[i].c == c && before[i].command == StopProducer && ClosedNext(before, i);
      assert entries[i] == before[i] && ClosedNext(entries, i);
    }
  }

  /** The file of every lost client whose number is known is closed, after its producer is stopped. */
  lemma {:induction false} LostAreClosed(ids: seq<Client>, trace: Trace, w: World, c: Client)
    requires c in ids && c in w.numericIds
    ensures StoppedThenClosed(LostSteps(ids, trace, w), c)
  {
    var n := |ids| - 1;
    var before, d := LostSteps(ids[..n], trace, w), ids[n];
    assert ids == ids[..n] + [d];
    if c in ids[..n] {
      LostAreClosed(ids[..n], trace, w, c);
    }
    if d in w.numericIds {
      var stop := Entry(d, StopProducer, w.answer(trace + before, d, StopProducer));
      StopThenClose(before, stop, Entry(d, Close, w.answer(trace + (before + [stop]), d, Close)));
    }
  }

  lemma {:induction false} WithoutFacts(ids: seq<Client>, out: set<Client>)
    ensures forall c :: c in Without(ids, out) <==> c in ids && c !in out
  {
    if ids != [] {
      var before, c := ids[..|ids| - 1], ids[|ids| - 1];
      assert ids == before + [c];
      WithoutFacts(before, out);
    }
  }

  // ---- the session ----

  lemma AliveAndGone(p: Progress, w: World)
    ensures forall c :: c in Alive(p, w) <==> c in p.withFile && c !in w.lost
    ensures forall c :: c in Gone(p, w) <==> c in p.withFile && c in w.lost
  {
    WithoutFacts(p.withFile, w.lost);
    WithoutFacts(p.withFile, set c | c in p.withFile && c !in w.lost);
  }

  /** The finalization is complete for the clients still there and short for the others. */
  lemma FinalizationParts(p: Progress, resetTrigger: bool, w: World)
    requires p.withFile != []
    ensures var full := FullSteps(p, resetTrigger, w);
            && Complete(full, Alive(p, w), resetTrigger)
            && Finalization(p, resetTrigger, w) == full + LostSteps(Gone(p, w), p.trace + full, w)
            && Among(LostSteps(Gone(p, w), p.trace + full, w), Gone(p, w), {StopProducer, Close})
  {
    FinalStepsComplete(Alive(p, w), resetTrigger, p.trace, w);
    LostAmong(Gone(p, w), p.trace + FullSteps(p, resetTrigger, w), w);
  }

  ghost predicate NeverEnables(entries: Trace) {
    forall e | e in entries :: e.command != Enable
  }

  lemma FinalStepsNeverEnable(ids: seq<Client>, resetTrigger: bool, trace: Trace, w: World)
    ensures NeverEnables(FinalSteps(ids, resetTrigger, trace, w))
  {
    FinalStepsAmong(ids, resetTrigger, trace, w);
  }

  lemma LostStepsNeverEnable(ids: seq<Client>, trace: Trace, w: World)
    ensures NeverEnables(LostSteps(ids, trace, w))
  {
    LostAmong(ids, trace, w);
  }

  lemma FinalizationNeverEnables(p: Progress, resetTrigger: bool, w: World)
    ensures NeverEnables(Finalization(p, resetTrigger, w))
  {
    FinalStepsNeverEnable(Alive(p, w), resetTrigger, p.trace, w);
    LostStepsNeverEnable(Gone(p, w), p.trace + FullSteps(p, resetTrigger, w), w);
  }

  /** The clients still there are all switched off. */
  lemma FinalizationDisables(p: Progress, resetTrigger: bool, w: World, c: Client)
    requires c in p.withFile && c !in w.lost
    ensures Given(Finalization(p, resetTrigger, w), c, Disable)
  {
    FinalizationParts(p, resetTrigger, w);
    AliveAndGone(p, w);
    var full := FullSteps(p, resetTrigger, w);
    CoversLonger(full, LostSteps(Gone(p, w), p.trace + full, w), Alive(p, w), Disable);
  }

  /** Every client whose channels may have been enabled gets its RC19 switched off later. */
  ghost predicate SwitchedOff(trace: Trace, excused: set<Client>) {
    forall n | 0 <= n < |trace| && trace[n].command == Enable && trace[n].c !in excused ::
      exists m :: n < m < |trace| && trace[m].c == trace[n].c && trace[m].command == Disable
  }

  lemma ConcatMember(start: Trace, entries: Trace, n: nat)
    requires n < |start + entries|
    ensures n < |start| ==> (start + entries)[n] == start[n] && start[n] in start
    ensures n >= |start| ==> (start + entries)[n] in entries
  {
    if n >= |start| {
      assert (start + entries)[n] == entries[n - |start|];
    }
  }

  lemma OffAfter(start: Trace, entries: Trace, excused: set<Client>)
    requires NeverEnables(entries)
    requires forall e | e in start && e.command == Enable && e.c !in excused :: Given(entries, e.c, Disable)
    ensures SwitchedOff(start + entries, excused)
  {
    var trace := start + entries;
    forall n | 0 <= n < |trace| && trace[n].command == Enable && trace[n].c !in excused
      ensures exists m :: n < m < |trace| && trace[m].c == trace[n].c && trace[m].command == Disable
    {
      ConcatMember(start, entries, n);
      var e :| e in entries && e.c == trace[n].c && e.command == Disable;
      var i :| 0 <= i < |entries| && entries[i] == e;
      assert trace[|start| + i] == entries[i];
    }
  }

  lemma JustifiedBeyond(start: Trace, entries: Trace)
    requires EnablesJustified(start) && NeverEnables(entries)
    ensures EnablesJustified(start + entries)
  {
    var trace := start + entries;
    forall n | 0 <= n < |trace| && trace[n].command == Enable
      ensures DoneBy(trace, n, trace[n].c, Open) && DoneBy(trace, n, trace[n].c, Start)
    {
      ConcatMember(start, entries, n);
      DonePrefix(start, entries, n, start[n].c);
    }
  }

  lemma DonePrefix(start: Trace, rest: Trace, n: nat, c: Client)
    requires n <= |start| && DoneBy(start, n, c, Open) && DoneBy(start, n, c, Start)
    ensures DoneBy(start + rest, n, c, Open) && DoneBy(start + rest, n, c, Start)
  {
    var i :| 0 <= i < n && start[i] == Entry(c, Open, true);
    assert (start + rest)[i] == start[i];
    var j :| 0 <= j < n && start[j] == Entry(c, Start, true);
    assert (start + rest)[j] == start[j];
  }

  /** Over a whole session, channels are enabled only after a confirmed OPEN_READY and START of that
      client, and are later switched off unless the client is recorded as lost. */
  lemma EnabledIsSwitchedOff(ids: seq<Client>, resetTrigger: bool, w: World)
    ensures EnablesJustified(TraceOf(Session(ids, resetTrigger, w)))
    ensures SwitchedOff(TraceOf(Session(ids, resetTrigger, w)), w.lost)
  {
    if ids != [] {
      var p := Started(ids, w);
      var entries := Finalization(p, resetTrigger, w);
      StartIsOrderly(ids, w);
      FinalizationNeverEnables(p, resetTrigger, w);
      JustifiedBeyond(p.trace, entries);
      forall e | e in p.trace && e.command == Enable && e.c !in w.lost
        ensures Given(entries, e.c, Disable)
      {
        FinalizationDisables(p, resetTrigger, w, e.c);
      }
      OffAfter(p.trace, entries, w.lost);
    }
  }

  lemma EnabledAreRequested(ids: seq<Client>, w: World, n: nat, e: Entry)
    requires n <= |Started(ids, w).trace| && e in Started(ids, w).trace[..n] && e.command == Enable
    ensures e.c in ids
  {
    StartIsOrderly(ids, w);
    StartDecides(ids, w);
    var i :| 0 <= i < n && Started(ids, w).trace[i] == e;
  }

  /** An exception anywhere in the start: whatever may be enabled is switched off, lost or not. */
  lemma InterruptedIsSwitchedOff(ids: seq<Client>, resetTrigger: bool, w: World, n: nat)
    requires n <= |Started(ids, w).trace|
    ensures SwitchedOff(Interrupted(ids, resetTrigger, w, n), {})
  {
    var start := Started(ids, w).trace[..n];
    var entries := FinalSteps(ids, resetTrigger, start, w);
    FinalStepsComplete(ids, resetTrigger, start, w);
    FinalStepsNeverEnable(ids, resetTrigger, start, w);
    forall e | e in start && e.command == Enable
      ensures Given(entries, e.c, Disable)
    {
      EnabledAreRequested(ids, w, n, e);
    }
    OffAfter(start, entries, {});
  }

  // ---- the results ----

  lemma HealthyMeans(entries: Trace, c: Client, command: Command)
    requires Healthy(entries, c) && Given(entries, c, command)
    ensures Succeeded(entries, c, command)
  {
    var e :| e in entries && e.c == c && e.command == command;
    var i :| 0 <= i < |entries| && entries[i] == e;
    assert e == Entry(c, command, true);
  }

  /** Every step of the finalization of this client succeeded. */
  ghost predicate FullyFinalized(entries: Trace, c: Client, resetTrigger: bool) {
    && Succeeded(entries, c, Disable)
    && Succeeded(entries, c, Flush)
    && (resetTrigger ==> Succeeded(entries, c, TriggerReset))
    && Succeeded(entries, c, Close)
    && Healthy(entries, c)
  }

  lemma HealthyIsFull(p: Progress, resetTrigger: bool, w: World, c: Client)
    requires c in p.withFile && c !in w.lost && Healthy(Finalization(p, resetTrigger, w), c)
    ensures FullyFinalized(Finalization(p, resetTrigger, w), c, resetTrigger)
  {
    FinalizationParts(p, resetTrigger, w);
    AliveAndGone(p, w);
    var full := FullSteps(p, resetTrigger, w);
    var short := LostSteps(Gone(p, w), p.trace + full, w);
    forall command | Covers(full, Alive(p, w), command)
      ensures Succeeded(full + short, c, command)
    {
      CoversLonger(full, short, Alive(p, w), command);
      HealthyMeans(full + short, c, command);
    }
  }

  /** A client succeeds only if its channels were enabled, it was not lost and every step of its
      finalization succeeded; if no client is requested twice, it then does. A client without
      success has an error, and one with success has none. */
  lemma ResultsAreTruthful(ids: seq<Client>, resetTrigger: bool, w: World, c: Client)
    requires c in ids
    ensures var p := Started(ids, w);
            var report := Session(ids, resetTrigger, w);
            var enabled := DoneBy(p.trace, |p.trace|, c, Enable);
            var r := report.results[c];
            && (r.success ==> enabled && c !in w.lost && FullyFinalized(report.finalizing, c, resetTrigger))
            && (Unique(ids) && c in p.acquiring && c !in w.lost && Healthy(report.finalizing, c) ==> r.success)
            && (r.success <==> r.error.None?)
  {
    var p := Started(ids, w);
    StartIsOrderly(ids, w);
    StartDecides(ids, w);
    if c in p.withFile && c !in w.lost && Healthy(Finalization(p, resetTrigger, w), c) {
      HealthyIsFull(p, resetTrigger, w, c);
    }
  }

  /** Once a client is recorded as lost, the finalization sends it nothing: it only stops its
      producer and closes its file. */
  lemma LostClientsAreLeftAlone(ids: seq<Client>, resetTrigger: bool, w: World, e: Entry)
    requires e in Session(ids, resetTrigger, w).finalizing && e.c in w.lost
    ensures e.command in {StopProducer, Close}
  {
    if ids != [] {
      var p := Started(ids, w);
      AliveAndGone(p, w);
      var full := FullSteps(p, resetTrigger, w);
      FinalStepsAmong(Alive(p, w), resetTrigger, p.trace, w);
      LostAmong(Gone(p, w), p.trace + full, w);
      NotAmong(full, Alive(p, w), {Disable, Flush, TriggerReset, Close}, e);
      assert e in LostSteps(Gone(p, w), p.trace + full, w);
    }
  }

  /** A lost client with a file and a known number has its producer stopped and its file closed. */
  lemma LostClientsAreClosed(ids: seq<Client>, resetTrigger: bool, w: World, c: Client)
    requires c in Started(ids, w).withFile && c in w.lost && c in w.numericIds
    ensures StoppedThenClosed(Session(ids, resetTrigger, w).finalizing, c)
  {
    var p := Started(ids, w);
    StartDecides(ids, w);
    var full := FullSteps(p, resetTrigger, w);
    var short := LostSteps(Gone(p, w), p.trace + full, w);
    AliveAndGone(p, w);
    LostAreClosed(Gone(p, w), p.trace + full, w, c);
    ClosedWithin(full, short, c);
  }

  lemma ClosedWithin(full: Trace, short: Trace, c: Client)
    requires StoppedThenClosed(short, c)
    ensures StoppedThenClosed(full + short, c)
  {
    var i :| 0 <= i < |short| && short[i].c == c && short[i].command == StopProducer && ClosedNext(short, i);
    var both := full + short;
    assert both[|full| + i] == short[i] && both[|full| + i + 1] == short[i + 1];
    assert ClosedNext(both, |full| + i);
  }

  lemma NotAmong(entries: Trace, clients: seq<Client>, commands: set<Command>, e: Entry)
    requires Among(entries, clients, commands) && e.c !in clients
    ensures e !in entries
  {
  }

  // ---- the loops ----

  /** _open_and_start_prepared_clients: one pass that only checks, one that opens and enables. */
  method OpenAndStartPreparedClients(ids: seq<Client>, w: World) returns (p: Progress)
    ensures p == Started(ids, w)
    ensures forall c | c in ids :: c in p.acquiring || c in p.errors
    ensures Orderly(p) && Careful(p, w)
  {
    p := NO_PROGRESS;
    for i := 0 to |ids|
      invariant p == CheckAll(ids[..i], w)
    {
      assert ids[..i + 1][..i] == ids[..i];
      p := CheckOne(p, ids[i], w);
    }
    assert ids[..|ids|] == ids;
    ghost var checked := p;
    var ready := p.ready;
    for i := 0 to |ready|
      invariant p == StartAll(checked, ready[..i], w)
    {
      assert ready[..i + 1][..i] == ready[..i];
      p := StartOne(p, ready[i], w);
    }
    assert ready[..|ready|] == ready;
    StartIsOrderly(ids, w);
    StartIsCareful(ids, w);
    StartDecides(ids, w);
  }

  /** The outcomes say of each client whether all its commands succeeded. */
  ghost predicate Reflects(outcomes: map<Client, bool>, ids: seq<Client>, entries: Trace) {
    forall c | c in ids :: c in outcomes && outcomes[c] == Healthy(entries, c)
  }

  lemma HealthyLonger(entries: Trace, entry: Entry, c: Client)
    ensures Healthy(entries + [entry], c) <==> Healthy(entries, c) && (entry.c == c ==> entry.ok)
  {
    var longer := entries + [entry];
    assert longer[|entries|] == entry;
    if Healthy(longer, c) {
      assert forall i | 0 <= i < |entries| :: entries[i] == longer[i];
    }
  }

  lemma HealthyConcat(a: Trace, b: Trace, c: Client)
    ensures Healthy(a + b, c) <==> Healthy(a, c) && Healthy(b, c)
  {
    var both := a + b;
    if Healthy(both, c) {
      assert forall i | 0 <= i < |a| :: a[i] == both[i];
      assert forall i | 0 <= i < |b| :: b[i] == both[|a| + i];
    }
  }

  lemma ReflectsNext(outcomes: map<Client, bool>, ids: seq<Client>, entries: Trace, entry: Entry)
    requires Reflects(outcomes, ids, entries) && entry.c !in ids
    requires |entries| == |ids| && forall i | 0 <= i < |ids| :: entries[i].c == ids[i]
    ensures Reflects(outcomes[entry.c := entry.ok], ids + [entry.c], entries + [entry])
  {
    forall c | c in ids + [entry.c]
      ensures outcomes[entry.c := entry.ok][c] == Healthy(entries + [entry], c)
    {
      HealthyLonger(entries, entry, c);
    }
  }

  function Both(results: map<Client, bool>, outcomes: map<Client, bool>): map<Client, bool> {
    map c | c in results :: results[c] && (c in outcomes ==> outcomes[c])
  }

  lemma BothReflect(results: map<Client, bool>, outcomes: map<Client, bool>, ids: seq<Client>, a: Trace, b: Trace)
    requires Reflects(results, ids, a) && Reflects(outcomes, ids, b)
    ensures Reflects(Both(results, outcomes), ids, a + b)
  {
    forall c | c in ids
      ensures Both(results, outcomes)[c] == Healthy(a + b, c)
    {
      HealthyConcat(a, b, c);
    }
  }

  /** One pass of the finalization, with the outcome of each client; where a client is met twice,
      a failure may or may not stick. */
  method SweepClients(ids: seq<Client>, command: Command, sticky: bool, trace: Trace, w: World)
    returns (outcomes: map<Client, bool>, entries: Trace)
    ensures entries == Swept(ids, command, trace, w)
    ensures Unique(ids) ==> Reflects(outcomes, ids, entries)
  {
    outcomes := map[];
    entries := [];
    for i := 0 to |ids|
      invariant entries == Swept(ids[..i], command, trace, w)
      invariant forall c | c in outcomes :: c in ids[..i]
      invariant Unique(ids) ==> Reflects(outcomes, ids[..i], entries)
    {
      var c := ids[i];
      assert ids[..i + 1] == ids[..i] + [c] && ids[..i + 1][..i] == ids[..i];
      var ok := w.answer(trace + entries, c, command);
      if Unique(ids) {
        UniqueAppend(ids[..i], c);
        ReflectsNext(outcomes, ids[..i], entries, Entry(c, command, ok));
      }
      entries := entries + [Entry(c, command, ok)];
      outcomes := outcomes[c := ok && (sticky && c in outcomes ==> outcomes[c])];
    }
    assert ids[..|ids|] == ids;
  }

  /** run_hardware_stop_and_flush: a client is finalized if none of its steps failed. */
  method HardwareStopAndFlush(ids: seq<Client>, resetTrigger: bool, trace: Trace, w: World)
    returns (results: map<Client, bool>, entries: Trace)
    ensures entries == FinalSteps(ids, resetTrigger, trace, w)
    ensures Unique(ids) ==> Reflects(results, ids, entries)
  {
    results, entries := SweepClients(ids, Disable, true, trace, w);
    results, entries := AnotherPass(ids, Flush, false, trace, w, results, entries);
    if resetTrigger {
      results, entries := AnotherPass(ids, TriggerReset, true, trace, w, results, entries);
    }
    results, entries := AnotherPass(ids, Close, false, trace, w, results, entries);
  }

  method AnotherPass(ids: seq<Client>, command: Command, sticky: bool, trace: Trace, w: World, results: map<Client, bool>, entries: Trace)
    returns (after: map<Client, bool>, longer: Trace)
    ensures longer == entries + Swept(ids, command, trace + entries, w)
    ensures Unique(ids) && Reflects(results, ids, entries) ==> Reflects(after, ids, longer)
  {
    var outcomes, steps := SweepClients(ids, command, sticky, trace + entries, w);
    if Unique(ids) && Reflects(results, ids, entries) {
      BothReflect(results, outcomes, ids, entries, steps);
    }
    after := Both(results, outcomes);
    longer := entries + steps;
  }
}
