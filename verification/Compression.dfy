/** Agent status compression: an agent may leave out whatever it last reported
    unchanged, and the registry cannot tell. */
module Compression {
  import opened Fleet

  /** The last value of each compressible field an agent sent since it was registered. */
  datatype Last = Last(description: Option<Description>, health: Option<Health>, packages: map<string, Package>,
                       config: map<string, string>, capabilities: nat)

  const NOTHING := Last(None, None, map[], map[], 0)

  /** Which unchanged fields the sender chooses to leave out of one message. */
  datatype Choice = Choice(description: bool, health: bool, packages: bool, config: bool, capabilities: bool)

  /** Drops a field only when it equals the last one reported. */
  function Compress(msg: Message, last: Last, choice: Choice): Message {
    msg.(description := if choice.description && msg.description == last.description then None else msg.description,
         health := if choice.health && msg.health == last.health then None else msg.health,
         packages := if choice.packages && msg.packages == last.packages then map[] else msg.packages,
         config := if choice.config && msg.config == last.config then map[] else msg.config,
         capabilities := if choice.capabilities && msg.capabilities == last.capabilities then 0 else msg.capabilities)
  }

  function Remember(last: Last, msg: Message): Last {
    Last(if msg.description.Some? then msg.description else last.description,
         if msg.health.Some? then msg.health else last.health,
         if msg.packages != map[] then msg.packages else last.packages,
         if msg.config != map[] then msg.config else last.config,
         if msg.capabilities != 0 then msg.capabilities else last.capabilities)
  }

  // ----- one agent -----

  predicate DescribedBy(cfg: Config, a: Agent, d: Description) {
    && a.descriptionReported && a.identifying == d.identifying && a.nonIdentifying == d.nonIdentifying
    && a.missingAttributes == MissingKeys(a, cfg.requiredAttributes)
    && a.reservedConflicts == ConflictKeys(a, RESERVED_ATTRIBUTE_KEYS)
  }

  predicate HealthyAs(a: Agent, h: Health) {
    && a.healthReported && a.healthy == h.healthy && a.healthError == h.lastError && a.healthStatus == h.status
    && (h.startTime != 0 ==> a.healthStartTime == Some(h.startTime))
    && (h.statusTime != 0 ==> a.healthStatusTime == Some(h.statusTime))
  }

  /** The agent already shows everything it last reported. */
  predicate Absorbs(cfg: Config, a: Agent, last: Last) {
    && (last.description.Some? ==> DescribedBy(cfg, a, last.description.value))
    && AbsorbsReports(a, last)
    && (last.capabilities != 0 ==> a.capabilities == last.capabilities)
  }

  predicate AbsorbsReports(a: Agent, last: Last) {
    && (last.health.Some? ==> HealthyAs(a, last.health.value))
    && (last.packages != map[] ==> a.packages == last.packages)
    && (last.config != map[] ==> a.effectiveConfig == last.config)
  }

  lemma DescribedAgain(cfg: Config, a: Agent, d: Description)
    requires DescribedBy(cfg, a, d)
    ensures TakeDescription(cfg, a, d) == a
  {
  }

  lemma DescribedNow(cfg: Config, a: Agent, d: Description)
    ensures DescribedBy(cfg, TakeDescription(cfg, a, d), d)
  {
    var b, c := WithAttributes(a, d), TakeDescription(cfg, a, d);
    KeysDependOnAttributes(b, c, cfg.requiredAttributes);
    KeysDependOnAttributes(b, c, RESERVED_ATTRIBUTE_KEYS);
  }

  lemma DescribedStill(cfg: Config, a: Agent, b: Agent, d: Description)
    requires DescribedBy(cfg, a, d)
    requires a.identifying == b.identifying && a.nonIdentifying == b.nonIdentifying
    requires a.descriptionReported == b.descriptionReported
    requires a.missingAttributes == b.missingAttributes && a.reservedConflicts == b.reservedConflicts
    ensures DescribedBy(cfg, b, d)
  {
    KeysDependOnAttributes(a, b, cfg.requiredAttributes);
    KeysDependOnAttributes(a, b, RESERVED_ATTRIBUTE_KEYS);
  }

  lemma HealthCompresses(a: Agent, msg: Message, last: Last, choice: Choice)
    requires AbsorbsReports(a, last)
    ensures WithHealth(a, Compress(msg, last, choice).health) == WithHealth(a, msg.health)
  {
  }

  /** Folding the compressed reports gives what folding the full ones gives. */
  lemma ReportsCompress(a: Agent, msg: Message, last: Last, choice: Choice)
    requires AbsorbsReports(a, last)
    ensures FoldReports(a, Compress(msg, last, choice)) == FoldReports(a, msg)
  {
    var short := Compress(msg, last, choice);
    HealthCompresses(a, msg, last, choice);
    var a1 := WithHealth(a, msg.health);
    assert a1.packages == a.packages && a1.effectiveConfig == a.effectiveConfig;
    assert WithPackages(a1, short.packages) == WithPackages(a1, msg.packages);
  }

  lemma FoldCompresses(cfg: Config, a: Agent, msg: Message, meta: ConnMeta, now: Time, last: Last, choice: Choice)
    requires Absorbs(cfg, a, last)
    ensures Fold(cfg, a, Compress(msg, last, choice), meta, now) == Fold(cfg, a, msg, meta, now)
  {
    var short := Compress(msg, last, choice);
    var a1 := Touch(a, msg, meta, now);
    assert Touch(a, short, meta, now) == a1;
    if last.description.Some? {
      DescribedStill(cfg, a, a1, last.description.value);
      DescribedAgain(cfg, a1, last.description.value);
    }
    var a2 := if msg.description.Some? then TakeDescription(cfg, a1, msg.description.value) else a1;
    assert a2 == if short.description.Some? then TakeDescription(cfg, a1, short.description.value) else a1;
    assert AbsorbsReports(a2, last);
    ReportsCompress(a2, msg, last, choice);
  }

  predicate SameHealth(a: Agent, b: Agent) {
    && a.healthReported == b.healthReported && a.healthy == b.healthy && a.healthError == b.healthError
    && a.healthStatus == b.healthStatus && a.healthStartTime == b.healthStartTime && a.healthStatusTime == b.healthStatusTime
  }

  lemma HealthAbsorbed(a: Agent, msg: Message, last: Last)
    requires AbsorbsReports(a, last)
    ensures var health, b := Remember(last, msg).health, WithHealth(a, msg.health);
            && (health.Some? ==> HealthyAs(b, health.value))
            && b.packages == a.packages && b.effectiveConfig == a.effectiveConfig
  {
  }

  lemma FilesKeepHealth(a: Agent, msg: Message)
    ensures SameHealth(WithConfig(WithPackages(a, msg.packages), msg.config), a)
  {
    assert SameHealth(WithPackages(a, msg.packages), a);
  }

  lemma ReportsAbsorbed(a: Agent, msg: Message, last: Last)
    requires AbsorbsReports(a, last)
    ensures AbsorbsReports(FoldReports(a, msg), Remember(last, msg))
  {
    HealthAbsorbed(a, msg, last);
    FilesKeepHealth(WithHealth(a, msg.health), msg);
  }

  predicate SameDescription(a: Agent, b: Agent) {
    && a.identifying == b.identifying && a.nonIdentifying == b.nonIdentifying
    && a.descriptionReported == b.descriptionReported
    && a.missingAttributes == b.missingAttributes && a.reservedConflicts == b.reservedConflicts
  }

  lemma FoldReportsKeepsDescription(a: Agent, msg: Message)
    ensures SameDescription(FoldReports(a, msg), a)
  {
    var a1 := if msg.health.Some? then TakeHealth(a, msg.health.value) else a;
    var a2 := if msg.packages != map[] then a1.(packages := msg.packages) else a1;
    assert SameDescription(a1, a) && SameDescription(a2, a);
  }

  lemma FoldAbsorbs(cfg: Config, a: Agent, msg: Message, meta: ConnMeta, now: Time, last: Last)
    requires Absorbs(cfg, a, last)
    ensures Absorbs(cfg, Fold(cfg, a, msg, meta, now), Remember(last, msg))
  {
    var a1 := Touch(a, msg, meta, now);
    var a2 := if msg.description.Some? then TakeDescription(cfg, a1, msg.description.value) else a1;
    var b := FoldReports(a2, msg);
    var d := Remember(last, msg).description;
    if msg.description.Some? {
      DescribedNow(cfg, a1, d.value);
    } else if d.Some? {
      DescribedStill(cfg, a, a2, d.value);
    }
    FoldReportsKeepsDescription(a2, msg);
    if d.Some? {
      DescribedStill(cfg, a2, b, d.value);
    }
    assert AbsorbsReports(a2, last);
    ReportsAbsorbed(a2, msg, last);
    FoldReportsKeepsSession(a2, msg);
  }

  // ----- whole runs -----

  function LastOf(last: map<Id, Last>, id: Id): Last {
    if id in last then last[id] else NOTHING
  }

  /** What has been reported in each current registration; eviction forgets it. */
  function Track(cfg: Config, agents: map<Id, Agent>, last: map<Id, Last>, op: Op): map<Id, Last> {
    var after := ApplyOp(cfg, agents, op);
    map id | id in after ::
      if op.Report? && op.msg.uid == Some(id) then Remember(LastOf(last, id), op.msg) else LastOf(last, id)
  }

  function CompressOp(last: map<Id, Last>, op: Op, choice: Choice): Op {
    if op.Report? && op.msg.uid.Some?
    then Report(Compress(op.msg, LastOf(last, op.msg.uid.value), choice), op.meta, op.now)
    else op
  }

  function Final(cfg: Config, agents: map<Id, Agent>, ops: seq<Op>): map<Id, Agent>
    decreases |ops|
  {
    if ops == [] then agents else Final(cfg, ApplyOp(cfg, agents, ops[0]), ops[1..])
  }

  function CompressRun(cfg: Config, agents: map<Id, Agent>, last: map<Id, Last>, ops: seq<Op>, choices: seq<Choice>): seq<Op>
    requires |choices| == |ops|
    decreases |ops|
  {
    if ops == [] then []
    else [CompressOp(last, ops[0], choices[0])]
         + CompressRun(cfg, ApplyOp(cfg, agents, ops[0]), Track(cfg, agents, last, ops[0]), ops[1..], choices[1..])
  }

  ghost predicate AllAbsorb(cfg: Config, agents: map<Id, Agent>, last: map<Id, Last>) {
    && last.Keys == agents.Keys
    && (forall id :: id in agents ==> Absorbs(cfg, agents[id], LastOf(last, id)))
  }

  lemma StepCompresses(cfg: Config, agents: map<Id, Agent>, last: map<Id, Last>, op: Op, choice: Choice)
    requires AllAbsorb(cfg, agents, last)
    ensures ApplyOp(cfg, agents, CompressOp(last, op, choice)) == ApplyOp(cfg, agents, op)
  {
    if op.Report? && op.msg.uid.Some? {
      var id := op.msg.uid.value;
      FoldCompresses(cfg, Known(agents, id, op.now), op.msg, op.meta, op.now, LastOf(last, id), choice);
    }
  }

  lemma AbsorbsStill(cfg: Config, a: Agent, last: Last, connected: bool)
    requires Absorbs(cfg, a, last)
    ensures Absorbs(cfg, a.(connected := connected), last)
  {
    if last.description.Some? {
      DescribedStill(cfg, a, a.(connected := connected), last.description.value);
    }
  }

  lemma StepAbsorbs(cfg: Config, agents: map<Id, Agent>, last: map<Id, Last>, op: Op)
    requires AllAbsorb(cfg, agents, last)
    ensures AllAbsorb(cfg, ApplyOp(cfg, agents, op), Track(cfg, agents, last, op))
  {
    var after, track := ApplyOp(cfg, agents, op), Track(cfg, agents, last, op);
    forall id | id in after ensures Absorbs(cfg, after[id], LastOf(track, id)) {
      match op
      case Report(msg, meta, now) =>
        if msg.uid == Some(id) {
          FoldAbsorbs(cfg, Known(agents, id, now), msg, meta, now, LastOf(last, id));
        }
      case SetConnected(x, connected) =>
        AbsorbsStill(cfg, agents[id], LastOf(last, id), connected);
      case Sweep(now) =>
        AbsorbsStill(cfg, agents[id], LastOf(last, id), false);
    }
  }

  lemma {:induction false} RunCompresses(cfg: Config, agents: map<Id, Agent>, last: map<Id, Last>, ops: seq<Op>, choices: seq<Choice>)
    requires |choices| == |ops| && AllAbsorb(cfg, agents, last)
    ensures Final(cfg, agents, CompressRun(cfg, agents, last, ops, choices)) == Final(cfg, agents, ops)
    decreases |ops|
  {
    if ops != [] {
      var short := CompressRun(cfg, agents, last, ops, choices);
      var agents', last' := ApplyOp(cfg, agents, ops[0]), Track(cfg, agents, last, ops[0]);
      StepCompresses(cfg, agents, last, ops[0], choices[0]);
      StepAbsorbs(cfg, agents, last, ops[0]);
      RunCompresses(cfg, agents', last', ops[1..], choices[1..]);
      assert short[1..] == CompressRun(cfg, agents', last', ops[1..], choices[1..]);
    }
  }

  /** Over every run of reports, disconnects and sweeps, and every choice of unchanged
      fields to leave out, the registry ends in the same state. */
  lemma CompressionIsTransparent(cfg: Config, ops: seq<Op>, choices: seq<Choice>)
    requires |choices| == |ops|
    ensures Final(cfg, map[], CompressRun(cfg, map[], map[], ops, choices)) == Final(cfg, map[], ops)
  {
    RunCompresses(cfg, map[], map[], ops, choices);
  }
}
