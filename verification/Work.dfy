/** What each kind of mutation does to an authorized queue record. */
module Work {
  import opened Status
  import opened Entities
  import opened Lifecycles
  import opened Policies
  import opened Occupancies
  import opened Backends
  import opened Mutations
  import Drains

  datatype Limits = Limits(
    maxResources: nat, maxQueuesPerResource: nat, maxClasses: nat, maxPools: nat, maxGrants: nat, maxMemo: nat,
    maxPending: nat, maxQueues: nat)

  datatype Config = Config(
    limits: Limits, policy: Policy, occupancy: OccupancyPolicy, durable: bool, hasJournal: bool, hash: Effect -> nat)

  /** What a mutation may read besides the queue itself. */
  datatype Env = Env(resource: Resource, epoch: nat, now: int, tokens: nat)

  datatype Result = Done(queue: Queue, tokens: nat) | Refused(code: Code)

  function FindClass(classes: seq<Class>, id: Id): Option<Class> {
    if classes == [] then None
    else if classes[0].id == id then Some(classes[0])
    else FindClass(classes[1..], id)
  }

  function FindPool(pools: seq<Pool>, id: Id): Option<Pool> {
    if pools == [] then None
    else if pools[0].id == id then Some(pools[0])
    else FindPool(pools[1..], id)
  }

  function CheckBinding(classes: seq<Class>, b: ClassBinding): Code {
    match FindClass(classes, b.id)
    case None => NotFound
    case Some(cls) => if cls.generation != b.generation then StaleGeneration else Ok
  }

  function QueuePolicy(c: Config, def: Definition): OccupancyPolicy {
    PolicyFor(c.policy, c.occupancy, def)
  }

  function Stale(q: Queue): Queue {
    q.(flags := q.flags.(stale := true))
  }

  /** A changed definition is a new generation, and evidence about the old one
      no longer counts. */
  function Redefine(q: Queue, def: Definition): Result {
    if q.def.generation == COUNTER_MAX then Refused(CapacityExceeded)
    else Done(
      Stale(q).(
        def := def.(generation := q.def.generation + 1),
        occupancy := Invalidate(q.occupancy, StaleGenerationSeen),
        applied := q.applied.(known := false)), 0)
  }

  function Validate(env: Env, q: Queue): Result {
    if q.lifecycle.Validated? then Done(q, 0)
    else if !CheckTransition(q.lifecycle, Validated).Ok? then Refused(LifecycleViolation)
    else if !CheckBinding(env.resource.classes, q.def.cls).Ok? then Refused(CheckBinding(env.resource.classes, q.def.cls))
    else Done(q.(lifecycle := Validated), 0)
  }

  function Activate(env: Env, q: Queue): Result {
    if q.lifecycle.Active? then Done(q, 0)
    else if !CheckTransition(q.lifecycle, Active).Ok? then Refused(LifecycleViolation)
    else if !CheckBinding(env.resource.classes, q.def.cls).Ok? then Refused(CheckBinding(env.resource.classes, q.def.cls))
    else if !q.def.thresholds.Consistent() then Refused(InvalidArgument)
    else Done(q.(lifecycle := Active), 0)
  }

  function Rebind(env: Env, q: Queue, binding: ClassBinding): Result {
    if !CheckBinding(env.resource.classes, binding).Ok? then Refused(CheckBinding(env.resource.classes, binding))
    else if q.def.cls == binding then Done(q, 0)
    else Redefine(q, q.def.(cls := binding))
  }

  function SetLimits(q: Queue, limits: Thresholds): Result {
    if !limits.Consistent() then Refused(InvalidArgument)
    else if limits == q.def.thresholds then Done(q, 0)
    else Redefine(q, q.def.(thresholds := limits))
  }

  function Transfer(q: Queue, owner: Id): Result {
    if owner == q.def.owner then Done(q, 0) else Redefine(q, q.def.(owner := owner))
  }

  /** Same publisher, incarnation and boot as the stored observation. */
  predicate SameLife(o: Occupancy, s: Sample) {
    && o.present
    && o.provenance.publisher == s.provenance.publisher
    && o.provenance.incarnation == s.provenance.incarnation
    && o.provenance.boot == s.provenance.boot
  }

  /** Zero observations count towards a drain in progress; others undo them. */
  function NoteZero(d: Drain, s: Sample): Drain {
    if !d.InProgress() then d
    else if s.bytes == 0 && s.packets == 0 then
      d.(evidence := d.evidence.(zeroObserved := true, zeroObservedAt := s.observedAt, zeroSequence := s.sequence))
    else d.(evidence := d.evidence.(zeroObserved := false))
  }

  function Ingest(c: Config, env: Env, q: Queue, s: Sample, expectedEpoch: nat): Result {
    var skew := QueuePolicy(c, q.def).maxFutureSkew;
    if s.queue != q.def.id then Refused(InvalidArgument)
    else if s.generation != q.def.generation then Refused(StaleGeneration)
    else if expectedEpoch != env.epoch || s.epoch != env.epoch then Refused(StaleEpoch)
    else if s.observedAt > env.now && skew > 0 && s.observedAt - env.now > skew then Refused(StaleOccupancy)
    else if SameLife(q.occupancy, s) && s.sequence <= q.occupancy.sequence then Refused(StaleOccupancy)
    else Done(
      q.(
        occupancy := Occupancy(true, s.bytes, s.packets, s.observedAt, s.sequence, s.epoch, s.provenance, s.generation,
          Fresh, AgeAt(env.now, s.observedAt)),
        flags := q.flags.(stale := false),
        drain := NoteZero(q.drain, s)), 0)
  }

  function BeginDrain(env: Env, q: Queue, r: Request): Result {
    if q.lifecycle.Draining? then Done(q, 0)
    else if !CheckTransition(q.lifecycle, Draining).Ok? then Refused(LifecycleViolation)
    else Done(q.(lifecycle := Draining, drain := Drain(Requested, r.attempt, env.now, r.provenance, NO_EVIDENCE)), 0)
  }

  function EndDrain(q: Queue): Result {
    if !q.lifecycle.Draining? then Refused(DrainIncomplete)
    else Done(q.(lifecycle := Active, drain := NO_DRAIN), 0)
  }

  function Submit(c: Config, env: Env, q: Queue, e: Evidence): Result {
    var live := FindLive(env.resource.backends, e.backend.backend);
    if !q.drain.InProgress() then Refused(DrainIncomplete)
    else if e.records == 0 then Refused(InvalidArgument)
    else if e.records > c.policy.maxEvidence then Refused(OutOfRange)
    else if e.backend.backend != 0 && (live.None? || live.value.incarnation != e.backend.incarnation) then
      Refused(StaleIncarnation)
    else if e.backend.epoch != 0 && e.backend.epoch != env.epoch then Refused(StaleEpoch)
    else Done(q.(drain := q.drain.(phase := EvidencePending, evidence := e.(revalidated := true))), 0)
  }

  function Quiesce(c: Config, env: Env, q: Queue): Result {
    var live := FindLive(env.resource.backends, q.drain.evidence.backend.backend);
    var verdict := Drains.Assess(q.drain, q.occupancy, live, env.epoch, QueuePolicy(c, q.def), env.now);
    if q.lifecycle.Quiesced? then Done(q, 0)
    else if !CheckTransition(q.lifecycle, Quiesced).Ok? then Refused(LifecycleViolation)
    else if !verdict.Ok? then Refused(verdict)
    else if c.policy.requireAck && live.None? then Refused(StaleIncarnation)
    else if c.policy.requireAck && !Verify(q.applied, live.value, env.epoch, q.def.generation, q.def.cls).Ok? then
      Refused(BackendMismatch)
    else Done(q.(lifecycle := Quiesced, drain := q.drain.(phase := Completed)), 0)
  }

  function Bounded(t: Text): Text {
    if |t| <= MAX_REASON then t else t[..MAX_REASON]
  }

  function Raise(env: Env, q: Queue, r: Request, reason: Text): Result {
    if q.fence.fenced then Done(q, 0)
    else Done(
      q.(
        fence := Fence(true, env.tokens + 1, env.epoch, r.principal, Bounded(reason), env.now),
        flags := q.flags.(fenced := true)), 1)
  }

  function Lower(q: Queue): Result {
    if !q.fence.fenced then Done(q, 0)
    else Done(q.(fence := q.fence.(fenced := false, reason := []), flags := q.flags.(fenced := false)), 0)
  }

  function Fail(q: Queue, reason: Text): Result {
    if q.lifecycle.Failed? then Done(q, 0)
    else if !CheckTransition(q.lifecycle, Failed).Ok? then Refused(LifecycleViolation)
    else Done(q.(lifecycle := Failed, failure := Bounded(reason)), 0)
  }

  function Retire(q: Queue): Result {
    if q.lifecycle.Retired? then Done(q, 0)
    else if !CheckTransition(q.lifecycle, Retired).Ok? then Refused(LifecycleViolation)
    else Done(q.(lifecycle := Retired, occupancy := NO_OCCUPANCY, drain := NO_DRAIN, flags := Flags(false, false)), 0)
  }

  function Acknowledge(env: Env, q: Queue, a: Applied): Result {
    var live := FindLive(env.resource.backends, a.backend);
    if !a.known || a.backend == 0 then Refused(InvalidArgument)
    else if live.None? then Refused(StaleIncarnation)
    else if !Verify(a, live.value, env.epoch, q.def.generation, q.def.cls).Ok? then
      Refused(Verify(a, live.value, env.epoch, q.def.generation, q.def.cls))
    else Done(q.(applied := a, flags := q.flags.(stale := false)), 0)
  }

  /** The outcome of one authorized mutation; `tokens` says how many fence
      tokens it drew. */
  function Perform(c: Config, env: Env, q: Queue, r: Request): Result
    requires PayloadMatches(r.kind, r.payload)
  {
    match r.kind
    case ValidateQueue => Validate(env, q)
    case ActivateQueue => Activate(env, q)
    case RebindClass => Rebind(env, q, r.payload.binding)
    case SetThresholds => SetLimits(q, r.payload.limits)
    case TransferOwnership => Transfer(q, r.payload.owner)
    case IngestOccupancy => Ingest(c, env, q, r.payload.sample, r.expectedEpoch)
    case RequestDrain => BeginDrain(env, q, r)
    case CancelDrain => EndDrain(q)
    case SubmitDrainEvidence => Submit(c, env, q, r.payload.evidence)
    case QuiesceQueue => Quiesce(c, env, q)
    case FenceQueue => Raise(env, q, r, r.payload.reason)
    case UnfenceQueue => Lower(q)
    case FailQueue => Fail(q, r.payload.reason)
    case RetireQueue => Retire(q)
    case AcknowledgeBackend => Acknowledge(env, q, r.payload.applied)
    case NoOp => Done(q, 0)
    case _ => Refused(Unsupported)
  }
}
