/** Per-client monitoring metadata: transactions that write the file first and memory second. */
module MetadataStore {
  import opened Fsm

  type Client = string

  type Values = map<nat, Option<int>>

  datatype Section = Section(enabled: bool, format: string, interval: Option<int>, updatedAt: int)

  /** One entry of configuration_history; None is a null value. */
  datatype Change = Change(timestamp: int, register: nat, oldValue: Option<int>, newValue: Option<int>)

  datatype Metadata = Metadata(initial: Values, current: Values, history: seq<Change>, sections: map<string, Section>)

  /** What the orchestrator builds for a client, from the two registers it reads. */
  function Built(rc31: Option<int>, rc39: Option<int>): Metadata {
    var values := map[31 := rc31, 39 := rc39];
    Metadata(values, values, [], map[])
  }

  const RECORDED := {31, 39}

  // ---- the operations ----

  datatype Op =
    | Initialize(metadata: Metadata)
    | UpdateSection(name: string, section: Section)
    | RecordChange(register: nat, value: Option<int>, timestamp: int)

  /** What an operation does with the committed metadata: return at once, or a new version to write. */
  datatype Plan = Answer(result: bool) | Propose(working: Metadata)

  function Lookup(values: Values, register: nat): Option<int> {
    if register in values then values[register] else None
  }

  function PlanFor(op: Op, committed: Option<Metadata>): Plan {
    match op
    case Initialize(metadata) => if committed.Some? then Answer(true) else Propose(metadata)
    case UpdateSection(name, section) =>
      if committed.None? then Answer(false)
      else Propose(committed.value.(sections := committed.value.sections[name := section]))
    case RecordChange(register, value, timestamp) =>
      if register !in RECORDED || committed.None? then Answer(true)
      else
        var m := committed.value;
        var before := Lookup(m.current, register);
        if before == value then Answer(true)
        else
          Propose(m.(current := m.current[register := value],
                     history := m.history + [Change(timestamp, register, before, value)]))
  }

  // ---- transactions ----

  datatype Stage = Prepared | Written

  datatype Transaction = Transaction(stage: Stage, op: Op, working: Metadata)

  /** A client has at most one transaction: it holds the client's lock. `committed` lists, per
      client, the operations whose result was published. */
  datatype System = System(
    memory: map<Client, Metadata>,
    disk: map<string, Metadata>,
    transactions: map<Client, Transaction>,
    committed: map<Client, seq<Op>>)

  const EMPTY := System(map[], map[], map[], map[])

  datatype Step =
    | Begin(c: Client, op: Op)
    | Write(c: Client, ok: bool)
    | Commit(c: Client)

  function Get<K, V>(m: map<K, V>, k: K): Option<V> {
    if k in m then Some(m[k]) else None
  }

  function Committed(s: System, c: Client): seq<Op> {
    if c in s.committed then s.committed[c] else []
  }

  predicate Possible(s: System, step: Step) {
    match step
    case Begin(c, _) => c !in s.transactions
    case Write(c, _) => c in s.transactions && s.transactions[c].stage == Prepared
    case Commit(c) => c in s.transactions && s.transactions[c].stage == Written
  }

  /** The file replaces the old one as a whole, or stays as it was. */
  function Take(folder: Client -> string, s: System, step: Step): System
    requires Possible(s, step)
  {
    match step
    case Begin(c, op) =>
      var plan := PlanFor(op, Get(s.memory, c));
      if plan.Answer? then s else s.(transactions := s.transactions[c := Transaction(Prepared, op, plan.working)])
    case Write(c, ok) =>
      var working := s.transactions[c].working;
      if ok then
        s.(disk := s.disk[folder(c) := working],
           transactions := s.transactions[c := s.transactions[c].(stage := Written)])
      else s.(transactions := s.transactions - {c})
    case Commit(c) =>
      s.(memory := s.memory[c := s.transactions[c].working],
         transactions := s.transactions - {c},
         committed := s.committed[c := Committed(s, c) + [s.transactions[c].op]])
  }

  /** A step that cannot be taken yet waits. */
  function Reach(folder: Client -> string, steps: seq<Step>): System {
    if steps == [] then EMPTY
    else
      var before := Reach(folder, steps[..|steps| - 1]);
      var step := steps[|steps| - 1];
      if Possible(before, step) then Take(folder, before, step) else before
  }

  // ---- memory and disk ----

  ghost predicate Agree(folder: Client -> string, s: System, c: Client) {
    Get(s.memory, c) == Get(s.disk, folder(c))
  }

  ghost predicate ClientConsistent(folder: Client -> string, s: System, c: Client) {
    if c !in s.transactions then Agree(folder, s, c)
    else
      var t := s.transactions[c];
      if t.stage == Prepared then Agree(folder, s, c) else Get(s.disk, folder(c)) == Some(t.working)
  }

  /** No two of these clients share a folder. */
  ghost predicate DistinctOn(folder: Client -> string, clients: set<Client>) {
    forall c, d | c in clients && d in clients && folder(c) == folder(d) :: c == d
  }

  ghost predicate Among(steps: seq<Step>, clients: set<Client>) {
    forall i | 0 <= i < |steps| :: steps[i].c in clients
  }

  lemma ConsistentAfter(folder: Client -> string, clients: set<Client>, s: System, step: Step, c: Client)
    requires DistinctOn(folder, clients) && step.c in clients && c in clients
    requires Possible(s, step) && ClientConsistent(folder, s, c)
    ensures ClientConsistent(folder, Take(folder, s, step), c)
  {
    if step.c != c {
      assert folder(step.c) != folder(c);
    }
  }

  lemma {:induction false} ConsistentAlways(folder: Client -> string, clients: set<Client>, steps: seq<Step>, c: Client)
    requires DistinctOn(folder, clients) && Among(steps, clients) && c in clients
    ensures ClientConsistent(folder, Reach(folder, steps), c)
  {
    if steps != [] {
      ConsistentAlways(folder, clients, steps[..|steps| - 1], c);
      var before, step := Reach(folder, steps[..|steps| - 1]), steps[|steps| - 1];
      if Possible(before, step) {
        ConsistentAfter(folder, clients, before, step, c);
      }
    }
  }

  /** The metadata in memory is the file of the client whenever no transaction of it is open. */
  ghost predicate AgreesAtBoundaries(folder: Client -> string, clients: set<Client>, s: System) {
    forall c | c in clients && c !in s.transactions :: Agree(folder, s, c)
  }

  function InitializeSteps(c: Client, m: Metadata): seq<Step> {
    [Begin(c, Initialize(m)), Write(c, true), Commit(c)]
  }

  /** One whole initialization, from a state without open transactions. */
  lemma InitializeRuns(folder: Client -> string, before: seq<Step>, c: Client, m: Metadata)
    requires Reach(folder, before).transactions == map[] && c !in Reach(folder, before).memory
    ensures var s := Reach(folder, before);
            var after := Reach(folder, before + InitializeSteps(c, m));
            && after.memory == s.memory[c := m]
            && after.disk == s.disk[folder(c) := m]
            && after.transactions == map[]
  {
    var s := Reach(folder, before);
    var op := Initialize(m);
    var first := before + [Begin(c, op)];
    assert first[..|before|] == before;
    assert Reach(folder, first) == s.(transactions := map[c := Transaction(Prepared, op, m)]);
    var second := first + [Write(c, true)];
    assert second[..|first|] == first;
    assert Reach(folder, second)
        == s.(transactions := map[c := Transaction(Written, op, m)], disk := s.disk[folder(c) := m]);
    var third := second + [Commit(c)];
    assert third[..|second|] == second;
    assert third == before + InitializeSteps(c, m);
  }

  /** Two clients with one folder: both are initialized without a failure, and the file of the
      first now holds the metadata of the second. */
  lemma SharedFolderOverwrites(folder: Client -> string, c: Client, d: Client)
    requires folder(c) == folder(d) && c != d
    ensures var s := Reach(folder, InitializeSteps(c, Built(Some(0), None)) + InitializeSteps(d, Built(Some(1), None)));
            && s.transactions == map[]
            && c in s.memory && d in s.memory
            && s.disk == map[folder(c) := s.memory[d]]
            && s.memory[c] != s.memory[d]
            && !Agree(folder, s, c)
  {
    var m, n := Built(Some(0), None), Built(Some(1), None);
    var first := InitializeSteps(c, m);
    assert [] + first == first;
    assert Reach(folder, []) == EMPTY;
    InitializeRuns(folder, [], c, m);
    InitializeRuns(folder, first, d, n);
    assert m.initial[31] != n.initial[31];
  }

  /** Over every run of these clients, whatever writes fail, memory and disk agree at every
      transaction boundary, exactly when no two of them share a folder. */
  lemma AgreementIffDistinctFolders(folder: Client -> string, clients: set<Client>)
    ensures (forall steps | Among(steps, clients) :: AgreesAtBoundaries(folder, clients, Reach(folder, steps)))
            <==> DistinctOn(folder, clients)
  {
    if DistinctOn(folder, clients) {
      forall steps | Among(steps, clients)
        ensures AgreesAtBoundaries(folder, clients, Reach(folder, steps))
      {
        forall c | c in clients && c !in Reach(folder, steps).transactions
          ensures Agree(folder, Reach(folder, steps), c)
        {
          ConsistentAlways(folder, clients, steps, c);
        }
      }
    } else {
      var c, d :| c in clients && d in clients && folder(c) == folder(d) && c != d;
      var steps := InitializeSteps(c, Built(Some(0), None)) + InitializeSteps(d, Built(Some(1), None));
      SharedFolderOverwrites(folder, c, d);
      assert Among(steps, clients);
      assert !AgreesAtBoundaries(folder, clients, Reach(folder, steps));
    }
  }

  // ---- folders ----

  predicate SafeCharacter(x: char) {
    'a' <= x <= 'z' || 'A' <= x <= 'Z' || '0' <= x <= '9' || x in {'-', '_', '.'}
  }

  function Safe(x: char): char {
    if SafeCharacter(x) then x else '_'
  }

  /** The folder name of an identity: other characters become an underscore. */
  function SafeIdentity(identity: string): (folder: string)
    ensures |folder| == |identity|
    ensures forall i | 0 <= i < |identity| :: folder[i] == Safe(identity[i])
  {
    if identity == [] then [] else SafeIdentity(identity[..|identity| - 1]) + [Safe(identity[|identity| - 1])]
  }

  /** Characters that cannot be told apart in a folder name. */
  predicate Alike(x: char, y: char) {
    x == y || ((x == '_' || !SafeCharacter(x)) && (y == '_' || !SafeCharacter(y)))
  }

  lemma SafeCollides(x: char, y: char)
    ensures Safe(x) == Safe(y) <==> Alike(x, y)
  {
  }

  /** Which identities end in one folder. */
  lemma SharedFolder(a: string, b: string)
    ensures SafeIdentity(a) == SafeIdentity(b) <==> |a| == |b| && forall i | 0 <= i < |a| :: Alike(a[i], b[i])
  {
    var left, right := SafeIdentity(a), SafeIdentity(b);
    if |a| == |b| {
      forall i | 0 <= i < |a|
        ensures left[i] == right[i] <==> Alike(a[i], b[i])
      {
        SafeCollides(a[i], b[i]);
      }
    }
  }

  /** Two identities that end in one folder. */
  predicate Confused(a: string, b: string) {
    a != b && |a| == |b| && forall i | 0 <= i < |a| :: Alike(a[i], b[i])
  }

  /** With the folder names of the program, memory and disk agree over every run of a set of clients
      exactly when no two of their identities differ in unsafe characters and underscores only. */
  lemma AgreementOfSafeFolders(clients: set<Client>)
    ensures (forall steps | Among(steps, clients) :: AgreesAtBoundaries(SafeIdentity, clients, Reach(SafeIdentity, steps)))
            <==> forall a, b | a in clients && b in clients :: !Confused(a, b)
  {
    AgreementIffDistinctFolders(SafeIdentity, clients);
    SafeFoldersDistinct(clients);
  }

  lemma ConfusedShare(a: string, b: string)
    ensures Confused(a, b) <==> a != b && SafeIdentity(a) == SafeIdentity(b)
  {
    SharedFolder(a, b);
  }

  lemma SafeFoldersDistinct(clients: set<Client>)
    ensures DistinctOn(SafeIdentity, clients) <==> forall a, b | a in clients && b in clients :: !Confused(a, b)
  {
    if DistinctOn(SafeIdentity, clients) {
      forall a, b | a in clients && b in clients
        ensures !Confused(a, b)
      {
        ConfusedShare(a, b);
      }
    } else {
      var a, b :| a in clients && b in clients && SafeIdentity(a) == SafeIdentity(b) && a != b;
      ConfusedShare(a, b);
    }
  }

  /** Identities that differ only in such characters overwrite each other's metadata. */
  lemma FoldersAreNotDistinct()
    ensures SafeIdentity("a/b") == SafeIdentity("a_b")
    ensures var s := Reach(SafeIdentity,
                           InitializeSteps("a/b", Built(Some(0), None)) + InitializeSteps("a_b", Built(Some(1), None)));
            && "a/b" in s.memory && "a_b" in s.memory && s.transactions == map[]
            && Get(s.disk, SafeIdentity("a/b")) == Some(s.memory["a_b"]) != Some(s.memory["a/b"])
  {
    SharedFolder("a/b", "a_b");
    SharedFolderOverwrites(SafeIdentity, "a/b", "a_b");
  }

  // ---- nothing is lost ----

  /** The metadata that results from doing the operations one after the other. */
  function Sequential(ops: seq<Op>): Option<Metadata> {
    if ops == [] then None
    else
      var before := Sequential(ops[..|ops| - 1]);
      var plan := PlanFor(ops[|ops| - 1], before);
      if plan.Propose? then Some(plan.working) else before
  }

  ghost predicate ClientSerial(s: System, c: Client) {
    && Get(s.memory, c) == Sequential(Committed(s, c))
    && (c in s.transactions ==> PlanFor(s.transactions[c].op, Get(s.memory, c)) == Propose(s.transactions[c].working))
  }

  lemma SequentialAppend(ops: seq<Op>, op: Op)
    ensures var plan := PlanFor(op, Sequential(ops));
            Sequential(ops + [op]) == if plan.Propose? then Some(plan.working) else Sequential(ops)
  {
    assert (ops + [op])[..|ops|] == ops;
  }

  lemma SerialAfter(folder: Client -> string, s: System, step: Step, c: Client)
    requires Possible(s, step) && ClientSerial(s, c)
    ensures ClientSerial(Take(folder, s, step), c)
  {
    if step.Commit? && step.c == c {
      SequentialAppend(Committed(s, c), s.transactions[c].op);
    }
  }

  /** However transactions interleave and fail, what is committed for a client is the result of its
      committed operations one after the other: no update is lost, with any folders. */
  lemma {:induction false} CommitsAreSerial(folder: Client -> string, steps: seq<Step>, c: Client)
    ensures ClientSerial(Reach(folder, steps), c)
  {
    if steps != [] {
      CommitsAreSerial(folder, steps[..|steps| - 1], c);
      var before, step := Reach(folder, steps[..|steps| - 1]), steps[|steps| - 1];
      if Possible(before, step) {
        SerialAfter(folder, before, step, c);
      }
    }
  }

  /** The last committed update of a section is the one that stays. */
  lemma {:induction false} SectionStays(ops: seq<Op>, i: nat)
    requires i < |ops| && ops[i].UpdateSection? && Sequential(ops[..i]).Some?
    requires forall j | i < j < |ops| :: ops[j].UpdateSection? ==> ops[j].name != ops[i].name
    ensures Sequential(ops).Some? && ops[i].name in Sequential(ops).value.sections
    ensures Sequential(ops).value.sections[ops[i].name] == ops[i].section
  {
    var before := ops[..|ops| - 1];
    if i < |before| {
      assert before[..i] == ops[..i];
      SectionStays(before, i);
    }
  }

  /** The last committed change of a register is its current value, whatever else is committed. */
  lemma {:induction false} ChangeStays(ops: seq<Op>, i: nat)
    requires i < |ops| && ops[i].RecordChange? && ops[i].register in {31, 39} && Sequential(ops[..i]).Some?
    requires forall j | i < j < |ops| :: ops[j].RecordChange? ==> ops[j].register != ops[i].register
    ensures Sequential(ops).Some?
    ensures Lookup(Sequential(ops).value.current, ops[i].register) == ops[i].value
  {
    var before := ops[..|ops| - 1];
    if i < |before| {
      assert before[..i] == ops[..i];
      ChangeStays(before, i);
    }
  }

  /** A change is written down exactly when it is one: the history grows by that entry, or not at all. */
  lemma ChangeIsRecorded(ops: seq<Op>, op: Op)
    requires op.RecordChange? && Sequential(ops).Some?
    ensures var m := Sequential(ops).value;
            Sequential(ops + [op]) == Some(
              if op.register in {31, 39} && Lookup(m.current, op.register) != op.value then
                m.(current := m.current[op.register := op.value],
                   history := m.history + [Change(op.timestamp, op.register, Lookup(m.current, op.register), op.value)])
              else m)
  {
    SequentialAppend(ops, op);
  }

  /** The first initialization stays: later ones and failed ones change nothing. */
  lemma InitializationStays(ops: seq<Op>, metadata: Metadata)
    ensures Sequential(ops + [Initialize(metadata)]) == if Sequential(ops).Some? then Sequential(ops) else Some(metadata)
  {
    SequentialAppend(ops, Initialize(metadata));
  }

  // ---- the history ----

  function Replay(values: Values, changes: seq<Change>): Values {
    if changes == [] then values
    else
      var last := changes[|changes| - 1];
      Replay(values, changes[..|changes| - 1])[last.register := last.newValue]
  }

  /** Each change starts from the value its predecessors left, and changes it. */
  ghost predicate Chained(values: Values, changes: seq<Change>) {
    forall i | 0 <= i < |changes| ::
      && changes[i].register in RECORDED
      && changes[i].oldValue == Lookup(Replay(values, changes[..i]), changes[i].register)
      && changes[i].newValue != changes[i].oldValue
  }

  /** The metadata has grown out of `base` by recorded changes. */
  ghost predicate GrownFrom(base: Metadata, m: Metadata) {
    && |base.history| <= |m.history|
    && m.history[..|base.history|] == base.history
    && Chained(base.current, m.history[|base.history|..])
    && m.current == Replay(base.current, m.history[|base.history|..])
    && m.initial == base.initial
  }

  lemma ChainedAppend(values: Values, changes: seq<Change>, change: Change)
    requires Chained(values, changes)
    requires change.register in RECORDED && change.newValue != change.oldValue
    requires change.oldValue == Lookup(Replay(values, changes), change.register)
    ensures Chained(values, changes + [change])
    ensures Replay(values, changes + [change]) == Replay(values, changes)[change.register := change.newValue]
  {
    var longer := changes + [change];
    assert longer[..|changes|] == changes;
    forall i | 0 <= i < |longer|
      ensures longer[i].oldValue == Lookup(Replay(values, longer[..i]), longer[i].register)
      ensures longer[i].register in RECORDED && longer[i].newValue != longer[i].oldValue
    {
      if i < |changes| {
        assert longer[..i] == changes[..i];
      }
    }
  }

  lemma TailAppend(changes: seq<Change>, change: Change, n: nat)
    requires n <= |changes|
    ensures (changes + [change])[..n] == changes[..n]
    ensures (changes + [change])[n..] == changes[n..] + [change]
  {
  }

  lemma GrowthByChange(base: Metadata, m: Metadata, after: Metadata, change: Change)
    requires GrownFrom(base, m)
    requires change.register in RECORDED && change.newValue != change.oldValue
    requires change.oldValue == Lookup(m.current, change.register)
    requires after.history == m.history + [change] && after.initial == m.initial
    requires after.current == m.current[change.register := change.newValue]
    ensures GrownFrom(base, after)
  {
    TailAppend(m.history, change, |base.history|);
    ChainedAppend(base.current, m.history[|base.history|..], change);
  }

  lemma GrowthAfter(base: Metadata, m: Metadata, op: Op)
    requires GrownFrom(base, m) && PlanFor(op, Some(m)).Propose?
    ensures GrownFrom(base, PlanFor(op, Some(m)).working)
  {
    if op.RecordChange? {
      var change := Change(op.timestamp, op.register, Lookup(m.current, op.register), op.value);
      GrowthByChange(base, m, PlanFor(op, Some(m)).working, change);
    }
  }

  /** The first operation that took effect created the metadata. */
  lemma {:induction false} SequentialGrows(ops: seq<Op>)
    requires Sequential(ops).Some?
    ensures exists i :: 0 <= i < |ops| && ops[i].Initialize? && GrownFrom(ops[i].metadata, Sequential(ops).value)
  {
    var earlier := ops[..|ops| - 1];
    var before, op := Sequential(earlier), ops[|ops| - 1];
    if before.None? {
      assert GrownFrom(op.metadata, op.metadata);
    } else {
      SequentialGrows(earlier);
      var i :| 0 <= i < |earlier| && earlier[i].Initialize? && GrownFrom(earlier[i].metadata, before.value);
      if PlanFor(op, before).Propose? {
        GrowthAfter(earlier[i].metadata, before.value, op);
      }
      assert ops[i] == earlier[i];
    }
  }

  /** Clients whose metadata is what the orchestrator builds. */
  ghost predicate BuiltMetadata(steps: seq<Step>) {
    forall i | 0 <= i < |steps| :: steps[i].Begin? && steps[i].op.Initialize? ==>
      exists rc31, rc39 :: steps[i].op.metadata == Built(rc31, rc39)
  }

  ghost predicate IsBuilt(m: Metadata) {
    m.initial == m.current && m.history == []
  }

  ghost predicate OpsBuilt(s: System, c: Client) {
    && (forall i | 0 <= i < |Committed(s, c)| :: Committed(s, c)[i].Initialize? ==> IsBuilt(Committed(s, c)[i].metadata))
    && (c in s.transactions && s.transactions[c].op.Initialize? ==> IsBuilt(s.transactions[c].op.metadata))
  }

  lemma OpsBuiltAfter(folder: Client -> string, s: System, step: Step, c: Client)
    requires Possible(s, step) && OpsBuilt(s, c)
    requires step.Begin? && step.op.Initialize? ==> IsBuilt(step.op.metadata)
    ensures OpsBuilt(Take(folder, s, step), c)
  {
    if step.Commit? && step.c == c {
      assert Committed(Take(folder, s, step), c) == Committed(s, c) + [s.transactions[c].op];
    } else {
      assert Committed(Take(folder, s, step), c) == Committed(s, c);
    }
  }

  lemma {:induction false} OpsStayBuilt(folder: Client -> string, steps: seq<Step>, c: Client)
    requires BuiltMetadata(steps)
    ensures OpsBuilt(Reach(folder, steps), c)
  {
    if steps != [] {
      OpsStayBuilt(folder, steps[..|steps| - 1], c);
      var before, step := Reach(folder, steps[..|steps| - 1]), steps[|steps| - 1];
      if Possible(before, step) {
        OpsBuiltAfter(folder, before, step, c);
      }
    }
  }

  /** In every run, replaying the configuration history of a client from its initial values gives
      its current values, and each old value is what the changes before it left. */
  lemma HistoryReplays(folder: Client -> string, steps: seq<Step>, c: Client)
    requires BuiltMetadata(steps) && c in Reach(folder, steps).memory
    ensures var m := Reach(folder, steps).memory[c];
            Replay(m.initial, m.history) == m.current && Chained(m.initial, m.history)
  {
    var s := Reach(folder, steps);
    var m := s.memory[c];
    CommitsAreSerial(folder, steps, c);
    OpsStayBuilt(folder, steps, c);
    assert Get(s.memory, c) == Some(m);
    SequentialGrows(Committed(s, c));
    var i :| 0 <= i < |Committed(s, c)| && Committed(s, c)[i].Initialize? && GrownFrom(Committed(s, c)[i].metadata, m);
    assert m.history[0..] == m.history;
  }

  // ---- the object ----

  class MetadataTransactions {
    var memory: map<Client, Metadata>
    var disk: map<string, Metadata>

    constructor ()
      ensures memory == map[] && disk == map[]
    {
      memory := map[];
      disk := map[];
    }

    /** One whole transaction: plan on a private copy, write, publish. A write that fails changes
        neither side; an answer without a write changes nothing. */
    method Transact(folder: Client -> string, c: Client, op: Op, writes: bool) returns (ok: bool)
      modifies this
      ensures var plan := PlanFor(op, Get(old(memory), c));
              if plan.Propose? && writes then
                ok && memory == old(memory)[c := plan.working] && disk == old(disk)[folder(c) := plan.working]
              else
                memory == old(memory) && disk == old(disk) && ok == (plan.Answer? && plan.result)
      ensures Get(old(memory), c) == Get(old(disk), folder(c)) ==> Get(memory, c) == Get(disk, folder(c))
      ensures op.RecordChange? && op.register in {31, 39} && c in old(memory)
              && Lookup(old(memory)[c].current, op.register) != op.value ==>
                if writes then
                  && ok && c in memory && folder(c) in disk && disk[folder(c)] == memory[c]
                  && op.register in memory[c].current && memory[c].current[op.register] == op.value
                  && (forall r | r != op.register :: Get(memory[c].current, r) == Get(old(memory)[c].current, r))
                  && memory[c].history == old(memory)[c].history
                       + [Change(op.timestamp, op.register, Lookup(old(memory)[c].current, op.register), op.value)]
                  && memory[c].initial == old(memory)[c].initial && memory[c].sections == old(memory)[c].sections
                else !ok
      ensures op.RecordChange? && op.register !in {31, 39} ==> ok && memory == old(memory) && disk == old(disk)
      ensures op.RecordChange? && c !in old(memory) ==> ok && memory == old(memory) && disk == old(disk)
      ensures op.RecordChange? && c in old(memory) && Lookup(old(memory)[c].current, op.register) == op.value ==>
                ok && memory == old(memory) && disk == old(disk)
      ensures op.UpdateSection? && c !in old(memory) ==> !ok
      ensures op.UpdateSection? && c in old(memory) && writes ==>
                ok && memory[c] == old(memory)[c].(sections := old(memory)[c].sections[op.name := op.section])
      ensures op.Initialize? ==> ok == (c in old(memory) || writes)
      ensures op.Initialize? && c !in old(memory) && writes ==> c in memory && memory[c] == op.metadata
      ensures op.Initialize? && c in old(memory) ==> memory == old(memory) && disk == old(disk)
      ensures !ok ==> memory == old(memory) && disk == old(disk)
      ensures forall d | d != c :: Get(memory, d) == Get(old(memory), d)
    {
      var working: Metadata;
      match op {
        case Initialize(metadata) =>
          if c in memory {
            return true;
          }
          working := metadata;
        case UpdateSection(name, section) =>
          if c !in memory {
            return false;
          }
          working := memory[c];
          working := working.(sections := working.sections[name := section]);
        case RecordChange(register, value, timestamp) =>
          if register !in RECORDED || c !in memory {
            return true;
          }
          working := memory[c];
          var previous := Lookup(working.current, register);
          if previous == value {
            return true;
          }
          working := working.(current := working.current[register := value]);
          working := working.(history := working.history + [Change(timestamp, register, previous, value)]);
      }
      if !writes {
        return false;
      }
      disk := disk[folder(c) := working];
      memory := memory[c := working];
      ok := true;
    }
  }
}
