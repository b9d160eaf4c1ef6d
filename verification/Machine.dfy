/** The fabric as one state machine. Every public call holds one mutex, so each
    call is one step; clock readings, journal outcomes and boot identities are
    inputs of the step. */
module Machine {
  import opened Status
  import opened Entities
  import opened Authorities
  import opened Mutations
  import opened Work
  import opened Extremes
  import Occupancies
  import Policies
  import Provenances
  import Memos

  // ---- state ----------------------------------------------------------------

  datatype Record =
    | ResourceState(resource: Resource)
    | QueueState(queue: Queue)
    | BeginAttempt(begun: Request)
    | CommitMutation(committed: Request)
    | EpochState(boot: Boot, epoch: nat, incarnation: nat)

  /** Records in file order, how many of them are known to be on stable storage,
      and the epoch in the file header. */
  datatype Journal = Journal(records: seq<Record>, synced: nat, headerEpoch: nat)

  /** How the journal answers during one step. */
  datatype Io = Good | BeginFails | CommitFails | SyncFails

  datatype NameKey = NameKey(resource: Id, name: Text)

  datatype Plan = Plan(
    attempt: Attempt, queue: Id, resource: Id, generation: nat, cls: ClassBinding, thresholds: Thresholds,
    principal: Id, epoch: nat, plannedAt: int)

  /** The next identity of each sort, and the last fence token drawn. */
  datatype Ids = Ids(resource: Id, queue: Id, cls: Id, pool: Id, backend: Id, fence: nat)

  datatype Tally = Tally(applied: nat, replayed: nat, rejected: nat)

  datatype State = State(
    healthy: bool, shuttingDown: bool, epoch: nat, boot: Boot, incarnation: nat,
    publishers: Provenances.Table, resources: map<Id, Resource>, queues: map<Id, Queue>, names: map<NameKey, Id>,
    plans: map<Attempt, Plan>, ids: Ids, watermark: int, tally: Tally, journal: Journal)

  datatype Verdict = Took | Repeated(outcome: Code) | Rejected(code: Code)

  datatype Reply = Reply(state: State, verdict: Verdict)

  /** Freshness decisions use the highest time ever read. */
  function Later(watermark: int, clock: int): int {
    if clock > watermark then clock else watermark
  }

  // ---- journal --------------------------------------------------------------

  datatype Written = Written(journal: Journal, code: Code)

  function AppendOne(j: Journal, rec: Record, io: Io): Written {
    var grown := j.records + [rec];
    match io
    case Good => Written(j.(records := grown, synced := |grown|), Ok)
    case SyncFails => Written(j.(records := grown), NotDurable)
    case _ => Written(j, Internal)
  }

  /** A durable mutation is announced, committed and flushed. */
  function AppendCommit(j: Journal, r: Request, io: Io): Written {
    var begun := j.records + [BeginAttempt(r)];
    var grown := begun + [CommitMutation(r)];
    if !Encodable(r) then Written(j, Internal)
    else match io
      case Good => Written(j.(records := grown, synced := |grown|), Ok)
      case BeginFails => Written(j, Internal)
      case CommitFails => Written(j.(records := begun), Internal)
      case SyncFails => Written(j.(records := grown), NotDurable)
  }

  /** Journals a mutation before it is published. */
  function Commit(c: Config, j: Journal, r: Request, io: Io): Written {
    if c.hasJournal then AppendCommit(j, r, io) else Written(j, if c.durable then NotDurable else Ok)
  }

  /** Journals one topology, epoch or plan record. */
  function Persist(c: Config, j: Journal, rec: Record, io: Io): Written {
    if c.hasJournal then AppendOne(j, rec, io) else Written(j, if c.durable then NotDurable else Ok)
  }

  /** Outside mutations a failed flush leaves the fabric unhealthy. */
  predicate StillHealthy(c: Config, s: State, io: Io) {
    s.healthy && !(c.hasJournal && io.SyncFails?)
  }

  // ---- mutations ------------------------------------------------------------

  function Remembered(c: Config, q: Queue, r: Request, outcome: Code, durable: bool): Queue {
    q.(memo := Memos.Remember(q.memo,
      Memo(r.attempt, c.hash(EffectOf(r)), r.kind, outcome, q.def.generation, durable), c.limits.maxMemo))
  }

  /** Every mutation not refused for shutdown is counted exactly once. */
  function Score(t: Tally, v: Verdict): Tally {
    match v
    case Took => t.(applied := t.applied + 1)
    case Repeated(_) => t.(replayed := t.replayed + 1)
    case Rejected(_) => t.(rejected := t.rejected + 1)
  }

  /** What a mutation of one queue leaves behind. */
  datatype Turn = Turn(publishers: Provenances.Table, queue: Queue, fence: nat, journal: Journal, verdict: Verdict)

  /** Work on a copy, journal it, publish it; dynamic evidence is not journalled. */
  function Execute(c: Config, s: State, now: int, publishers: Provenances.Table, r: Request, io: Io): Turn
    requires PayloadMatches(r.kind, r.payload)
    requires r.queue in s.queues && s.queues[r.queue].def.resource in s.resources
  {
    var q := s.queues[r.queue];
    match Perform(c, Env(s.resources[q.def.resource], s.epoch, now, s.ids.fence), q, r)
    case Refused(code) => Turn(publishers, Remembered(c, q, r, code, false), s.ids.fence, s.journal, Rejected(code))
    case Done(next, tokens) =>
      var w := if Durable(r.kind) then Commit(c, s.journal, r, io) else Written(s.journal, Ok);
      if w.code.Ok? then
        Turn(publishers, Remembered(c, next, r, Ok, Durable(r.kind) && c.hasJournal), s.ids.fence + tokens, w.journal, Took)
      else
        Turn(publishers, Remembered(c, q, r, w.code, false), s.ids.fence + tokens, w.journal, Rejected(w.code))
  }

  /** The exact-generation and epoch checks, once the sender has been heard. */
  function CheckCurrent(epoch: nat, q: Queue, r: Request, replaying: bool): Code {
    if r.expectedGeneration == 0 then InvalidArgument
    else if r.expectedGeneration != q.def.generation then StaleGeneration
    else if !replaying && r.expectedEpoch != epoch then StaleEpoch
    else Ok
  }

  function Allowed(authority: Authority, q: Queue, r: Request, replaying: bool): Code {
    Authorize(authority, r.principal, Required(r.kind), if replaying then authority.epoch else r.expectedEpoch,
      q.flags, q.lifecycle)
  }

  /** Refuses a mutation and lets the queue remember that. */
  function Decline(c: Config, s: State, publishers: Provenances.Table, r: Request, code: Code): Turn
    requires r.queue in s.queues
  {
    Turn(publishers, Remembered(c, s.queues[r.queue], r, code, false), s.ids.fence, s.journal, Rejected(code))
  }

  datatype Admission = Admission(code: Code, heard: Provenances.Table)

  /** Authority, then provenance, then exact generation and epoch; a sender that
      was accepted stays heard even if its request is then found stale. */
  function Admit(s: State, q: Queue, r: Request, replaying: bool): Admission {
    var seen := Provenances.Classify(s.publishers, r.provenance, MAX_PUBLISHERS);
    if q.def.resource !in s.resources then Admission(Internal, s.publishers)
    else
      var allowed := Allowed(s.resources[q.def.resource].authority, q, r, replaying);
      if !allowed.Ok? then Admission(allowed, s.publishers)
      else if !replaying && !seen.Accepted? then Admission(Provenances.CodeOf(seen), s.publishers)
      else Admission(
        CheckCurrent(s.epoch, q, r, replaying),
        if replaying then s.publishers else Provenances.Observe(s.publishers, r.provenance))
  }

  function ApplyExisting(c: Config, s: State, now: int, r: Request, io: Io, replaying: bool): Turn
    requires PayloadMatches(r.kind, r.payload) && r.queue in s.queues
  {
    var q := s.queues[r.queue];
    var memo := Memos.Find(q.memo, r.attempt);
    var a := Admit(s, q, r, replaying);
    if memo.Some? then
      if memo.value.fingerprint != c.hash(EffectOf(r)) then Decline(c, s, s.publishers, r, Conflict)
      else Turn(s.publishers, q, s.ids.fence, s.journal, Repeated(memo.value.outcome))
    else if !a.code.Ok? then Decline(c, s, a.heard, r, a.code)
    else Execute(c, s, now, a.heard, r, io)
  }

  function AfterTurn(s: State, r: Request, now: int, t: Turn): Reply {
    Reply(
      s.(watermark := now, publishers := t.publishers, queues := s.queues[r.queue := t.queue],
         ids := s.ids.(fence := t.fence), journal := t.journal, tally := Score(s.tally, t.verdict)),
      t.verdict)
  }

  /** The record a declaration creates. */
  function NewQueue(r: Request, id: Id, now: int): Queue
    requires r.payload.DeclarePayload?
  {
    var p := r.payload;
    Queue(
      Definition(id, p.resource, p.name, p.depth, p.cls, p.pool, p.thresholds, r.principal, 1, r.provenance, now),
      Declared, Flags(false, false), NO_OCCUPANCY, NO_FENCE, NO_DRAIN, NOT_APPLIED, [], [])
  }

  function QueuesOf(queues: map<Id, Queue>, resource: Id): set<Id> {
    set i | i in queues && queues[i].def.resource == resource
  }

  /** The checks a declaration passes between finding no queue of its name and
      being journalled. */
  function CheckPlacement(c: Config, s: State, res: Resource, p: Payload): Code
    requires p.DeclarePayload?
  {
    var cls := FindClass(res.classes, p.cls.id);
    var pool := FindPool(res.pools, p.pool.id);
    if |QueuesOf(s.queues, p.resource)| >= c.limits.maxQueuesPerResource then CapacityExceeded
    else if |s.queues| >= c.limits.maxQueues then CapacityExceeded
    else if cls.None? then NotFound
    else if cls.value.generation != p.cls.generation then StaleGeneration
    else if pool.None? then NotFound
    else if pool.value.generation != p.pool.generation then StaleGeneration
    else if !p.thresholds.Consistent() then InvalidArgument
    else Ok
  }

  /** The very declaration that created q, sent again. */
  predicate SameDeclaration(q: Queue, r: Request) {
    q.def.declaredBy.publisher == r.provenance.publisher && q.def.declaredBy.sequence == r.provenance.sequence
  }

  /** What a declaration is answered before it is journalled. */
  function CheckDeclaration(c: Config, s: State, r: Request, replaying: bool): Verdict
    requires r.payload.DeclarePayload?
  {
    var p := r.payload;
    if p.resource !in s.resources then Rejected(NotFound)
    else
      var res := s.resources[p.resource];
      var key := NameKey(p.resource, p.name);
      var allowed := Authorize(res.authority, r.principal, DeclareQueues,
        if replaying then res.authority.epoch else r.expectedEpoch, Flags(false, false), Active);
      var placed := CheckPlacement(c, s, res, p);
      var seen := Provenances.Classify(s.publishers, r.provenance, MAX_PUBLISHERS);
      if !allowed.Ok? then Rejected(allowed)
      else if key in s.names then
        if s.names[key] in s.queues && SameDeclaration(s.queues[s.names[key]], r) then Repeated(Ok)
        else Rejected(AlreadyExists)
      else if !placed.Ok? then Rejected(placed)
      else if !replaying && !seen.Accepted? then
        Rejected(if seen.Duplicate? then ReplayDetected else StaleIncarnation)
      else Took
  }

  function ApplyDeclare(c: Config, s: State, now: int, r: Request, io: Io, replaying: bool): Reply
    requires r.payload.DeclarePayload?
  {
    var checked := CheckDeclaration(c, s, r, replaying);
    var w := Commit(c, s.journal, r, io);
    if !checked.Took? then Reply(s.(watermark := now, tally := Score(s.tally, checked)), checked)
    else if !w.code.Ok? then
      Reply(s.(watermark := now, journal := w.journal, tally := Score(s.tally, Rejected(w.code))), Rejected(w.code))
    else Reply(Install(c, s, now, r, w.journal, replaying), Took)
  }

  /** Publishes a declared queue. */
  function Install(c: Config, s: State, now: int, r: Request, journal: Journal, replaying: bool): State
    requires r.payload.DeclarePayload? && r.payload.resource in s.resources
  {
    var p := r.payload;
    var id := s.ids.queue;
    var res := s.resources[p.resource];
    s.(
      watermark := now,
      publishers := if replaying then s.publishers else Provenances.Observe(s.publishers, r.provenance),
      ids := s.ids.(queue := id + 1),
      resources := s.resources[p.resource := res.(queueCount := res.queueCount + 1)],
      names := s.names[NameKey(p.resource, p.name) := id],
      queues := s.queues[id := Remembered(c, NewQueue(r, id, now), r, Ok, c.hasJournal)],
      journal := journal,
      tally := Score(s.tally, Took))
  }

  /** The mutation entry point. */
  function Apply(c: Config, s: State, r: Request, clock: int, io: Io, replaying: bool): Reply {
    var now := Later(s.watermark, clock);
    var checked := Check(r);
    if s.shuttingDown then Reply(s.(watermark := now), Rejected(ShuttingDown))
    else if !checked.Ok? then Reply(s.(watermark := now, tally := Score(s.tally, Rejected(checked))), Rejected(checked))
    else if r.kind.DeclareQueue? then ApplyDeclare(c, s, now, r, io, replaying)
    else if r.queue !in s.queues then
      Reply(s.(watermark := now, tally := Score(s.tally, Rejected(NotFound))), Rejected(NotFound))
    else AfterTurn(s, r, now, ApplyExisting(c, s, now, r, io, replaying))
  }

  // ---- topology -------------------------------------------------------------

  const EVERYTHING: set<Capability> := {
    DeclareTopology, DeclareQueues, ValidateQueues, ActivateQueues, RebindClasses, Capability.SetLimits,
    IngestOccupancies, RequestDrains, SubmitEvidence, QuiesceQueues, RetireQueues, FenceQueues, UnfenceQueues,
    FailQueues, TransferOwnerships, AcknowledgeBackends, Admin }

  predicate NameTaken(resources: map<Id, Resource>, name: Text) {
    exists i :: i in resources && resources[i].name == name
  }

  function CheckNewResource(c: Config, s: State, name: Text, owner: Id, sender: Provenance): Code {
    if s.shuttingDown then ShuttingDown
    else if !s.healthy then NotDurable
    else if owner == 0 then InvalidArgument
    else if !sender.Valid() then MalformedInput
    else if name == [] || |name| > MAX_NAME then OutOfRange
    else if |s.resources| >= c.limits.maxResources then CapacityExceeded
    else if NameTaken(s.resources, name) then AlreadyExists
    else Ok
  }

  function DeclareResource(c: Config, s: State, name: Text, owner: Id, sender: Provenance, clock: int, io: Io): Reply {
    var checked := CheckNewResource(c, s, name, owner, sender);
    var now := Later(s.watermark, clock);
    var made := NewResource(s.ids.resource, name, owner, s.epoch, sender, now);
    var w := Persist(c, s.journal, ResourceState(made), io);
    if !checked.Ok? then Reply(s, Rejected(checked))
    else if !w.code.Ok? then
      Reply(s.(watermark := now, journal := w.journal, healthy := StillHealthy(c, s, io)), Rejected(w.code))
    else Reply(
      s.(watermark := now, journal := w.journal, ids := s.ids.(resource := s.ids.resource + 1),
         resources := s.resources[s.ids.resource := made]), Took)
  }

  function NewResource(id: Id, name: Text, owner: Id, epoch: nat, sender: Provenance, now: int): Resource {
    Resource(id, name, owner, 1, epoch, Authority(owner, epoch, [Grant(owner, EVERYTHING)]), [], [], [], sender, now, 0)
  }

  /** A new version of a resource record, or why there is none; identities may
      have been drawn either way. */
  datatype Edit = NoEdit(code: Code, ids: Ids) | Edit(resource: Resource, ids: Ids)

  /** Journals a new version of a resource and publishes it together with what
      it does to the queues. */
  function Publish(c: Config, s: State, id: Id, e: Edit, queues: map<Id, Queue>, clock: int, io: Io): Reply {
    match e
    case NoEdit(code, ids) => Reply(s.(ids := ids), Rejected(code))
    case Edit(resource, ids) =>
      var w := Persist(c, s.journal, ResourceState(resource), io);
      if !w.code.Ok? then
        Reply(s.(ids := ids, journal := w.journal, healthy := StillHealthy(c, s, io)), Rejected(w.code))
      else Reply(
        s.(ids := ids, journal := w.journal, resources := s.resources[id := resource], queues := queues,
           watermark := Later(s.watermark, clock)), Took)
  }

  function AllowedOn(s: State, resource: Id, principal: Id, required: Capability, epoch: nat): Code
    requires resource in s.resources
  {
    Authorize(s.resources[resource].authority, principal, required, epoch, Flags(false, false), Active)
  }

  /** The checks every topology call starts with. */
  function CheckTopology(s: State, resource: Id, principal: Id, required: Capability, epoch: nat): Code {
    if resource !in s.resources then NotFound else AllowedOn(s, resource, principal, required, epoch)
  }

  function SetGrant(grants: seq<Grant>, g: Grant): seq<Grant> {
    if grants == [] then []
    else if grants[0].owner == g.owner then [g] + grants[1..]
    else [grants[0]] + SetGrant(grants[1..], g)
  }

  predicate HasGrant(grants: seq<Grant>, owner: Id) {
    exists k :: 0 <= k < |grants| && grants[k].owner == owner
  }

  function GrantEdit(c: Config, s: State, resource: Id, grant: Grant, principal: Id, epoch: nat, sender: Provenance): Edit {
    var checked := CheckTopology(s, resource, principal, Admin, epoch);
    if s.shuttingDown then NoEdit(ShuttingDown, s.ids)
    else if !sender.Valid() then NoEdit(MalformedInput, s.ids)
    else if !checked.Ok? then NoEdit(checked, s.ids)
    else if grant.owner == 0 then NoEdit(InvalidArgument, s.ids)
    else
      var res := s.resources[resource];
      var grants := res.authority.grants;
      if HasGrant(grants, grant.owner) then
        Edit(res.(authority := res.authority.(grants := SetGrant(grants, grant))), s.ids)
      else if |grants| >= c.limits.maxGrants then NoEdit(CapacityExceeded, s.ids)
      else Edit(res.(authority := res.authority.(grants := grants + [grant])), s.ids)
  }

  function GrantCapabilities(c: Config, s: State, resource: Id, grant: Grant, principal: Id, epoch: nat,
    sender: Provenance, clock: int, io: Io): Reply
  {
    Publish(c, s, resource, GrantEdit(c, s, resource, grant, principal, epoch, sender), s.queues, clock, io)
  }

  function ClassNamed(classes: seq<Class>, name: Text): Option<Class> {
    if classes == [] then None
    else if classes[0].name == name then Some(classes[0])
    else ClassNamed(classes[1..], name)
  }

  function SetClass(classes: seq<Class>, cls: Class): seq<Class> {
    if classes == [] then []
    else if classes[0].name == cls.name then [cls] + classes[1..]
    else [classes[0]] + SetClass(classes[1..], cls)
  }

  /** Bindings to a superseded class generation lose their evidence. */
  function Unbound(q: Queue, resource: Id, cls: Class): Queue {
    if q.def.resource == resource && q.def.cls.id == cls.id && q.def.cls.generation != cls.generation then
      Stale(q).(occupancy := Occupancies.Invalidate(q.occupancy, StaleGenerationSeen))
    else q
  }

  function AllUnbound(queues: map<Id, Queue>, resource: Id, cls: Class): map<Id, Queue> {
    map i | i in queues :: Unbound(queues[i], resource, cls)
  }

  /** The class a declaration leaves behind: the next generation of the class of
      that name, or a first generation under a new identity. */
  function NextClass(s: State, resource: Id, name: Text, priority: nat, qos: Qos, sender: Provenance): Class
    requires resource in s.resources
  {
    match ClassNamed(s.resources[resource].classes, name)
    case Some(cls) => cls.(generation := cls.generation + 1, priority := priority, qos := qos)
    case None => Class(s.ids.cls, resource, name, priority, qos, 1, sender)
  }

  function ClassEdit(c: Config, s: State, resource: Id, name: Text, priority: nat, qos: Qos, principal: Id,
    epoch: nat, sender: Provenance): Edit
  {
    var checked := CheckTopology(s, resource, principal, DeclareTopology, epoch);
    if s.shuttingDown then NoEdit(ShuttingDown, s.ids)
    else if !sender.Valid() then NoEdit(MalformedInput, s.ids)
    else if name == [] || |name| > MAX_NAME then NoEdit(OutOfRange, s.ids)
    else if !checked.Ok? then NoEdit(checked, s.ids)
    else
      var res := s.resources[resource];
      var known := ClassNamed(res.classes, name);
      var next := NextClass(s, resource, name, priority, qos, sender);
      if known.Some? && known.value.generation == COUNTER_MAX then NoEdit(CapacityExceeded, s.ids)
      else if known.None? && |res.classes| >= c.limits.maxClasses then NoEdit(CapacityExceeded, s.ids)
      else
        var ids := if known.Some? then s.ids else s.ids.(cls := s.ids.cls + 1);
        var classes := if known.Some? then SetClass(res.classes, next) else res.classes + [next];
        if res.generation == COUNTER_MAX then NoEdit(CapacityExceeded, ids)
        else Edit(res.(classes := classes, generation := res.generation + 1), ids)
  }

  function DeclareClass(c: Config, s: State, resource: Id, name: Text, priority: nat, qos: Qos, principal: Id,
    epoch: nat, sender: Provenance, clock: int, io: Io): Reply
  {
    var e := ClassEdit(c, s, resource, name, priority, qos, principal, epoch, sender);
    var queues :=
      if e.Edit? then
        var next := NextClass(s, resource, name, priority, qos, sender);
        AllUnbound(s.queues, resource, next)
      else s.queues;
    Publish(c, s, resource, e, queues, clock, io)
  }

  function PoolNamed(pools: seq<Pool>, name: Text): Option<Pool> {
    if pools == [] then None
    else if pools[0].name == name then Some(pools[0])
    else PoolNamed(pools[1..], name)
  }

  function SetPool(pools: seq<Pool>, pool: Pool): seq<Pool> {
    if pools == [] then []
    else if pools[0].name == pool.name then [pool] + pools[1..]
    else [pools[0]] + SetPool(pools[1..], pool)
  }

  function PoolEdit(c: Config, s: State, resource: Id, name: Text, capacity: nat, principal: Id, epoch: nat,
    sender: Provenance): Edit
  {
    var checked := CheckTopology(s, resource, principal, DeclareTopology, epoch);
    if s.shuttingDown then NoEdit(ShuttingDown, s.ids)
    else if !sender.Valid() then NoEdit(MalformedInput, s.ids)
    else if name == [] || |name| > MAX_NAME then NoEdit(OutOfRange, s.ids)
    else if !checked.Ok? then NoEdit(checked, s.ids)
    else
      var res := s.resources[resource];
      match PoolNamed(res.pools, name)
      case Some(pool) =>
        if pool.generation == COUNTER_MAX then NoEdit(CapacityExceeded, s.ids)
        else Edit(res.(pools := SetPool(res.pools, pool.(generation := pool.generation + 1, capacity := capacity))), s.ids)
      case None =>
        if |res.pools| >= c.limits.maxPools then NoEdit(CapacityExceeded, s.ids)
        else Edit(res.(pools := res.pools + [Pool(s.ids.pool, resource, name, capacity, 1, sender)]),
          s.ids.(pool := s.ids.pool + 1))
  }

  function DeclarePool(c: Config, s: State, resource: Id, name: Text, capacity: nat, principal: Id, epoch: nat,
    sender: Provenance, clock: int, io: Io): Reply
  {
    Publish(c, s, resource, PoolEdit(c, s, resource, name, capacity, principal, epoch, sender), s.queues, clock, io)
  }

  function CheckBackend(s: State, resource: Id, incarnation: nat, principal: Id, epoch: nat, sender: Provenance): Code {
    if s.shuttingDown then ShuttingDown
    else if !sender.Valid() then MalformedInput
    else if incarnation == 0 then InvalidArgument
    else CheckTopology(s, resource, principal, DeclareTopology, epoch)
  }

  function WithBackend(r: Resource, b: Backend): Resource {
    r.(backends := r.backends + [b])
  }

  /** Registration mints a new live incarnation; it is in memory before it is
      journalled and stays there when journalling fails. */
  function AddBackend(c: Config, s: State, resource: Id, incarnation: nat, principal: Id, epoch: nat,
    sender: Provenance, clock: int, io: Io): Reply
  {
    var checked := CheckBackend(s, resource, incarnation, principal, epoch, sender);
    var now := Later(s.watermark, clock);
    if !checked.Ok? then Reply(s, Rejected(checked))
    else if |s.resources[resource].backends| >= c.limits.maxResources then
      Reply(s.(watermark := now), Rejected(CapacityExceeded))
    else
      var updated := WithBackend(s.resources[resource], Backend(s.ids.backend, resource, incarnation, s.epoch, now, true));
      var w := Persist(c, s.journal, ResourceState(updated), io);
      Reply(
        s.(watermark := now, ids := s.ids.(backend := s.ids.backend + 1), resources := s.resources[resource := updated],
           journal := w.journal, healthy := StillHealthy(c, s, io)),
        if w.code.Ok? then Took else Rejected(w.code))
  }

  predicate HasBackend(backends: seq<Backend>, id: Id) {
    exists k :: 0 <= k < |backends| && backends[k].id == id
  }

  function FindBackend(backends: seq<Backend>, id: Id): Option<Backend> {
    if backends == [] then None
    else if backends[0].id == id then Some(backends[0])
    else FindBackend(backends[1..], id)
  }

  function Bury(backends: seq<Backend>, id: Id): seq<Backend> {
    if backends == [] then []
    else if backends[0].id == id then [backends[0].(alive := false)] + backends[1..]
    else [backends[0]] + Bury(backends[1..], id)
  }

  function Registrars(resources: map<Id, Resource>, backend: Id): set<Id> {
    set i | i in resources && HasBackend(resources[i].backends, backend)
  }

  function DeathEdit(s: State, id: Id, backend: Id, incarnation: nat, principal: Id, epoch: nat): Edit
    requires id in s.resources
  {
    var allowed := AllowedOn(s, id, principal, Admin, epoch);
    var res := s.resources[id];
    var found := FindBackend(res.backends, backend);
    if !allowed.Ok? then NoEdit(allowed, s.ids)
    else if found.Some? && found.value.incarnation != incarnation then NoEdit(StaleIncarnation, s.ids)
    else Edit(res.(backends := Bury(res.backends, backend)), s.ids)
  }

  /** Unlike other topology calls, this one does not insist on a journal. */
  function MarkDead(c: Config, s: State, backend: Id, incarnation: nat, principal: Id, epoch: nat, clock: int, io: Io): Reply {
    if s.shuttingDown then Reply(s, Rejected(ShuttingDown))
    else if Registrars(s.resources, backend) == {} then Reply(s, Rejected(NotFound))
    else
      var id := Least(Registrars(s.resources, backend));
      Publish(c.(durable := false), s, id, DeathEdit(s, id, backend, incarnation, principal, epoch), s.queues, clock, io)
  }

  // ---- epochs and evidence --------------------------------------------------

  predicate Administers(s: State, principal: Id) {
    s.resources == map[] ||
    exists i :: i in s.resources && Holds(CapabilitiesOf(s.resources[i].authority.grants, principal), Admin)
  }

  function InEpoch(r: Resource, epoch: nat): Resource {
    r.(epoch := epoch, authority := r.authority.(epoch := epoch))
  }

  function Superseded(q: Queue): Queue {
    if q.occupancy.present then Stale(q).(occupancy := Occupancies.Invalidate(q.occupancy, StaleEpochSeen))
    else if q.applied.known then Stale(q)
    else q
  }

  function AllInEpoch(resources: map<Id, Resource>, epoch: nat): map<Id, Resource> {
    map i | i in resources :: InEpoch(resources[i], epoch)
  }

  function AllSuperseded(queues: map<Id, Queue>): map<Id, Queue> {
    map i | i in queues :: Superseded(queues[i])
  }

  function CheckAdvance(s: State, principal: Id, sender: Provenance): Code {
    if s.shuttingDown then ShuttingDown
    else if !s.healthy then NotDurable
    else if !sender.Valid() then MalformedInput
    else if !Administers(s, principal) then AuthorityDenied
    else if s.epoch == COUNTER_MAX then CapacityExceeded
    else Ok
  }

  /** The new epoch is durable before it becomes authoritative. */
  function AdvanceEpoch(c: Config, s: State, principal: Id, sender: Provenance, clock: int, io: Io): Reply {
    var checked := CheckAdvance(s, principal, sender);
    var w := Persist(c, s.journal, EpochState(s.boot, s.epoch + 1, s.incarnation), io);
    if !checked.Ok? then Reply(s, Rejected(checked))
    else if !w.code.Ok? then Reply(s.(journal := w.journal, healthy := StillHealthy(c, s, io)), Rejected(w.code))
    else Reply(
      s.(journal := w.journal,
         epoch := s.epoch + 1,
         resources := AllInEpoch(s.resources, s.epoch + 1),
         queues := AllSuperseded(s.queues),
         watermark := Later(s.watermark, clock)), Took)
  }

  function Discredited(q: Queue): Queue {
    Stale(q).(occupancy := if q.occupancy.present then Occupancies.Invalidate(q.occupancy, StaleBackend) else q.occupancy)
  }

  function CheckInvalidation(s: State, queue: Id, principal: Id, epoch: nat): Code {
    if queue !in s.queues then NotFound
    else
      var q := s.queues[queue];
      if q.def.resource !in s.resources then Internal
      else Authorize(s.resources[q.def.resource].authority, principal, Admin, epoch, q.flags, q.lifecycle)
  }

  function InvalidateEvidence(s: State, queue: Id, principal: Id, epoch: nat, clock: int): Reply {
    var checked := CheckInvalidation(s, queue, principal, epoch);
    if !checked.Ok? then Reply(s, Rejected(checked))
    else Reply(
      s.(queues := s.queues[queue := Discredited(s.queues[queue])], watermark := Later(s.watermark, clock)), Took)
  }

  function Refreshed(c: Config, q: Queue, now: int): Queue {
    q.(occupancy := q.occupancy.(
      freshness := Occupancies.Classify(q.occupancy, now, QueuePolicy(c, q.def), q.def.generation),
      age := Occupancies.AgeAt(now, q.occupancy.observedAt)))
  }

  function AllRefreshed(c: Config, queues: map<Id, Queue>, now: int): map<Id, Queue> {
    map i | i in queues :: Refreshed(c, queues[i], now)
  }

  function Refresh(c: Config, s: State, clock: int): Reply {
    if s.shuttingDown then Reply(s, Rejected(ShuttingDown))
    else
      var now := Later(s.watermark, clock);
      Reply(s.(watermark := now, queues := AllRefreshed(c, s.queues, now)), Took)
  }

  /** Explaining a queue reads the clock and changes nothing else. */
  function Explain(s: State, queue: Id, clock: int): Reply {
    if queue !in s.queues then Reply(s, Rejected(NotFound))
    else Reply(s.(watermark := Later(s.watermark, clock)), Took)
  }

  // ---- two-phase backend application ----------------------------------------

  /** What a reservation is answered before the clock is read. */
  function CheckReservation(c: Config, s: State, queue: Id, expected: nat, principal: Id, sender: Provenance): Code {
    if s.shuttingDown then ShuttingDown
    else if !s.healthy then NotDurable
    else if !sender.Valid() then MalformedInput
    else if queue !in s.queues then NotFound
    else
      var q := s.queues[queue];
      if q.def.resource !in s.resources then Internal
      else
        var res := s.resources[q.def.resource];
        var allowed := Authorize(res.authority, principal, AcknowledgeBackends, s.epoch, q.flags, q.lifecycle);
        var seen := Provenances.Classify(s.publishers, sender, MAX_PUBLISHERS);
        if !allowed.Ok? then allowed
        else if expected == 0 || expected != q.def.generation then StaleGeneration
        else if !CheckBinding(res.classes, q.def.cls).Ok? then StaleGeneration
        else if |s.plans| >= c.limits.maxPending then CapacityExceeded
        else if seen.Duplicate? then ReplayDetected
        else if !seen.Accepted? then StaleIncarnation
        else Ok
  }

  function NewPlan(c: Config, s: State, queue: Id, principal: Id, sender: Provenance, now: int): Plan
    requires queue in s.queues
  {
    var def := s.queues[queue].def;
    Plan(Attempt(sender.publisher, sender.sequence), queue, def.resource, def.generation, def.cls,
      Policies.Resolve(c.policy, def.thresholds, def.cls.id), principal, s.epoch, now)
  }

  function Reserve(c: Config, s: State, queue: Id, expected: nat, principal: Id, sender: Provenance, clock: int, io: Io): Reply {
    var checked := CheckReservation(c, s, queue, expected, principal, sender);
    if !checked.Ok? then Reply(s, Rejected(checked))
    else
      var now := Later(s.watermark, clock);
      var plan := NewPlan(c, s, queue, principal, sender, now);
      if plan.attempt in s.plans then Reply(s.(watermark := now), Rejected(Conflict))
      else
        var heard := Provenances.Observe(s.publishers, sender);
        var w := Persist(c, s.journal, BeginAttempt(AckRequest(plan, NOT_APPLIED, plan.epoch, sender)), io);
        if !w.code.Ok? then
          Reply(s.(watermark := now, publishers := heard, journal := w.journal, healthy := StillHealthy(c, s, io)), Rejected(w.code))
        else
          Reply(s.(watermark := now, publishers := heard, journal := w.journal, plans := s.plans[plan.attempt := plan]), Took)
  }

  function AckRequest(plan: Plan, applied: Applied, epoch: nat, sender: Provenance): Request {
    Request(plan.attempt, AcknowledgeBackend, plan.queue, plan.generation, epoch, plan.principal, sender, AckPayload(applied))
  }

  function CheckPlan(s: State, plan: Plan, sender: Provenance): Code {
    if s.shuttingDown then ShuttingDown
    else if plan.attempt !in s.plans then NotFound
    else if plan.queue !in s.queues then NotFound
    else if s.queues[plan.queue].def.generation != plan.generation then StaleGeneration
    else if !sender.Valid() then MalformedInput
    else Ok
  }

  predicate Succeeded(v: Verdict) {
    v.Took? || (v.Repeated? && v.outcome.Ok?)
  }

  /** The commit marker is durable before the acknowledgement is applied. */
  function CommitPlan(c: Config, s: State, plan: Plan, applied: Applied, sender: Provenance, clock: int, io: Io): Reply {
    var checked := CheckPlan(s, plan, sender);
    var r := AckRequest(plan, applied, s.epoch, sender);
    var w := Persist(c, s.journal, CommitMutation(r), io);
    if !checked.Ok? then Reply(s, Rejected(checked))
    else if !w.code.Ok? then Reply(s.(journal := w.journal, healthy := StillHealthy(c, s, io)), Rejected(w.code))
    else
      var now := Later(s.watermark, clock);
      var t := ApplyExisting(c, s.(journal := w.journal), now, r, io, false);
      var reply := AfterTurn(s, r, now, t);
      Reply(reply.state.(plans := if Succeeded(t.verdict) then s.plans - {plan.attempt} else s.plans), t.verdict)
  }

  /** A structurally valid request that completes an abandoned reservation. */
  function AbortMarker(plan: Plan): Request {
    Request(plan.attempt, NoOp, plan.queue, plan.generation, plan.epoch, plan.principal,
      Provenance(if plan.principal != 0 then plan.principal else 1, plan.resource, 1, plan.epoch, plan.attempt.counter, Boot(1, 1)),
      NoPayload)
  }

  function AbortPlan(c: Config, s: State, plan: Plan, clock: int, io: Io): Reply {
    var w := Persist(c.(durable := false), s.journal, CommitMutation(AbortMarker(plan)), io);
    if plan.attempt !in s.plans then Reply(s, Rejected(NotFound))
    else if !w.code.Ok? then Reply(s.(journal := w.journal, healthy := StillHealthy(c, s, io)), Rejected(w.code))
    else Reply(
      s.(journal := w.journal, plans := s.plans - {plan.attempt}, watermark := Later(s.watermark, clock)), Took)
  }

  // ---- shutdown -------------------------------------------------------------

  function Shutdown(c: Config, s: State, clock: int, io: Io): Reply {
    if s.shuttingDown then Reply(s, Took)
    else
      var flushed := if c.hasJournal && io.Good? then s.journal.(synced := |s.journal.records|) else s.journal;
      Reply(s.(shuttingDown := true, journal := flushed, watermark := Later(s.watermark, clock)), Took)
  }
}
