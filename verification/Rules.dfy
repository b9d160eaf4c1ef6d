/** Lifecycle transitions. */
module Lifecycles {
  import opened Status
  import opened Entities

  /** The pairs the transition table lists. */
  predicate Listed(from: Lifecycle, to: Lifecycle) {
    match from
    case Declared => to.Validated? || to.Retired? || to.Failed?
    case Validated => to.Active? || to.Retired? || to.Failed?
    case Active => to.Draining? || to.Failed?
    case Draining => to.Quiesced? || to.Active? || to.Failed?
    case Quiesced => to.Active? || to.Retired? || to.Failed?
    case Retired => false
    case Failed => to.Retired?
  }

  function CheckTransition(from: Lifecycle, to: Lifecycle): Code {
    if from == to || Listed(from, to) then Ok else LifecycleViolation
  }
}

/** Who may do what, decided in four ordered stages. */
module Authorities {
  import opened Status
  import opened Entities

  function CapabilitiesOf(grants: seq<Grant>, principal: Id): set<Capability> {
    if grants == [] then {}
    else if grants[0].owner == principal then grants[0].capabilities
    else CapabilitiesOf(grants[1..], principal)
  }

  predicate Holds(held: set<Capability>, required: Capability) {
    required.Nothing? || required in held
  }

  function Authorize(authority: Authority, principal: Id, required: Capability, epoch: nat, flags: Flags,
    lifecycle: Lifecycle): Code
  {
    if epoch == 0 || epoch != authority.epoch then StaleEpoch
    else if !Holds(CapabilitiesOf(authority.grants, principal), required) then AuthorityDenied
    else if flags.fenced && !required.UnfenceQueues? && !required.Admin? then FenceViolation
    else if (lifecycle.Retired? || lifecycle.Failed?) && !required.RetireQueues? && !required.Admin? then
      LifecycleViolation
    else Ok
  }
}

/** Configured limits and the freshness window they give a definition. */
module Policies {
  import opened Entities

  datatype ClassPolicy = ClassPolicy(cls: Id, thresholds: Thresholds, staleAfter: int)

  datatype Policy = Policy(defaults: Thresholds, staleAfter: int, classes: seq<ClassPolicy>, maxEvidence: nat, requireAck: bool)

  datatype OccupancyPolicy = OccupancyPolicy(maxAge: int, maxFutureSkew: int, requireGeneration: bool)

  function FindClassPolicy(classes: seq<ClassPolicy>, cls: Id): Option<ClassPolicy> {
    if classes == [] then None
    else if classes[0].cls == cls then Some(classes[0])
    else FindClassPolicy(classes[1..], cls)
  }

  /** A zero field falls back to the class policy and then to the defaults. */
  function Resolve(p: Policy, t: Thresholds, cls: Id): Thresholds {
    var found := FindClassPolicy(p.classes, cls);
    var fallback := if found.Some? then found.value.thresholds else p.defaults;
    Thresholds(
      if t.low != 0 then t.low else fallback.low,
      if t.high != 0 then t.high else fallback.high,
      if t.maxBytes != 0 then t.maxBytes else fallback.maxBytes,
      if t.maxPackets != 0 then t.maxPackets else fallback.maxPackets,
      if t.staleAfter != 0 then t.staleAfter
      else if found.Some? && found.value.staleAfter != 0 then found.value.staleAfter
      else p.staleAfter)
  }

  function StaleAfterFor(p: Policy, effective: Thresholds, cls: Id): int {
    var found := FindClassPolicy(p.classes, cls);
    if effective.staleAfter != 0 then effective.staleAfter
    else if found.Some? && found.value.staleAfter != 0 then found.value.staleAfter
    else p.staleAfter
  }

  /** The occupancy policy a definition is judged by. */
  function PolicyFor(p: Policy, base: OccupancyPolicy, def: Definition): OccupancyPolicy {
    var window := StaleAfterFor(p, Resolve(p, def.thresholds, def.cls.id), def.cls.id);
    if window > 0 then base.(maxAge := window) else base
  }
}

/** Freshness of occupancy evidence. */
module Occupancies {
  import opened Entities
  import opened Policies

  function AgeAt(now: int, observedAt: int): int {
    if observedAt >= now then 0 else now - observedAt
  }

  /** Reasons only new evidence clears. */
  predicate Sticky(f: Freshness) {
    f.StaleRestart? || f.StaleEpochSeen? || f.StaleBackend?
  }

  function Classify(o: Occupancy, now: int, p: OccupancyPolicy, generation: nat): Freshness {
    if !o.present then Unknown
    else if Sticky(o.freshness) then o.freshness
    else if p.requireGeneration && o.generation != generation then StaleGenerationSeen
    else if o.observedAt > now && (p.maxFutureSkew <= 0 || o.observedAt - now > p.maxFutureSkew) then FutureTimestamp
    else if p.maxAge > 0 && AgeAt(now, o.observedAt) > p.maxAge then StaleAge
    else Fresh
  }

  function Invalidate(o: Occupancy, reason: Freshness): Occupancy {
    o.(freshness := if o.present then reason else Unknown)
  }
}

/** Whether a stored acknowledgement can be verified now. */
module Backends {
  import opened Status
  import opened Entities

  /** The first live registration of a backend identity. */
  function FindLive(backends: seq<Backend>, id: Id): Option<Backend> {
    if backends == [] || id == 0 then None
    else if backends[0].id == id && backends[0].alive then Some(backends[0])
    else FindLive(backends[1..], id)
  }

  function Verify(a: Applied, live: Backend, epoch: nat, generation: nat, cls: ClassBinding): Code {
    if !a.known then BackendMismatch
    else if !live.alive then StaleIncarnation
    else if a.backend != live.id then BackendMismatch
    else if a.incarnation != live.incarnation then StaleIncarnation
    else if a.epoch != epoch then StaleEpoch
    else if a.generation != generation then StaleGeneration
    else if a.cls != cls then StaleGeneration
    else Ok
  }
}

/** Whether a drain may be declared complete. */
module Drains {
  import opened Status
  import opened Entities
  import opened Policies
  import opened Occupancies

  function Assess(d: Drain, o: Occupancy, live: Option<Backend>, epoch: nat, p: OccupancyPolicy, now: int): Code {
    var backend := d.evidence.backend;
    if d.phase.Idle? then DrainIncomplete
    else if d.phase.Completed? then Ok
    else if !d.evidence.revalidated then StaleOccupancy
    else if d.evidence.records == 0 then DrainIncomplete
    else if !backend.accepted then DrainIncomplete
    else if !backend.drained then DrainIncomplete
    else if backend.epoch != epoch then StaleEpoch
    else if live.None? then StaleIncarnation
    else if !live.value.alive then StaleIncarnation
    else if backend.backend != live.value.id || backend.incarnation != live.value.incarnation then StaleIncarnation
    else if !d.evidence.zeroObserved then DrainIncomplete
    else if !o.present then StaleOccupancy
    else if !o.freshness.Fresh? then StaleOccupancy
    else if o.bytes != 0 || o.packets != 0 then DrainIncomplete
    else if o.observedAt < d.requestedAt then DrainIncomplete
    else if p.maxAge > 0 && AgeAt(now, o.observedAt) > p.maxAge then StaleOccupancy
    else Ok
  }
}

/** What kinds of mutation need, and which requests are well formed. */
module Mutations {
  import opened Status
  import opened Entities

  function Required(k: Kind): Capability {
    match k
    case DeclareQueue => DeclareQueues
    case ValidateQueue => ValidateQueues
    case ActivateQueue => ActivateQueues
    case RebindClass => RebindClasses
    case SetThresholds => SetLimits
    case TransferOwnership => TransferOwnerships
    case IngestOccupancy => IngestOccupancies
    case RequestDrain => RequestDrains
    case CancelDrain => RequestDrains
    case SubmitDrainEvidence => SubmitEvidence
    case QuiesceQueue => QuiesceQueues
    case FenceQueue => FenceQueues
    case UnfenceQueue => UnfenceQueues
    case FailQueue => FailQueues
    case RetireQueue => RetireQueues
    case AcknowledgeBackend => AcknowledgeBackends
    case RegisterBackend => DeclareTopology
    case NoOp => Nothing
    case NoKind => Nothing
    case UnknownKind(_) => Nothing
  }

  predicate Dynamic(k: Kind) {
    k.IngestOccupancy? || k.SubmitDrainEvidence? || k.AcknowledgeBackend?
  }

  predicate Durable(k: Kind) {
    !Dynamic(k) && !k.NoOp? && !k.NoKind?
  }

  predicate PayloadMatches(k: Kind, p: Payload) {
    match k
    case DeclareQueue => p.DeclarePayload?
    case RebindClass => p.RebindPayload?
    case SetThresholds => p.ThresholdsPayload?
    case TransferOwnership => p.OwnershipPayload?
    case IngestOccupancy => p.OccupancyPayload?
    case SubmitDrainEvidence => p.EvidencePayload?
    case FenceQueue => p.FencePayload?
    case UnfenceQueue => p.FencePayload?
    case FailQueue => p.FencePayload?
    case AcknowledgeBackend => p.AckPayload?
    case RegisterBackend => p.RegistrationPayload?
    case ValidateQueue => p.NoPayload?
    case ActivateQueue => p.NoPayload?
    case RequestDrain => p.NoPayload?
    case CancelDrain => p.NoPayload?
    case QuiesceQueue => p.NoPayload?
    case RetireQueue => p.NoPayload?
    case NoOp => p.NoPayload?
    case NoKind => false
    case UnknownKind(_) => false
  }

  function CheckDeclare(queue: Id, p: Payload): Code
    requires p.DeclarePayload?
  {
    if p.resource == 0 then InvalidArgument
    else if queue != 0 then InvalidArgument
    else if p.name == [] || |p.name| > MAX_NAME then OutOfRange
    else if !p.cls.Valid() then InvalidArgument
    else if !p.pool.Valid() then InvalidArgument
    else if !p.thresholds.Consistent() then InvalidArgument
    else Ok
  }

  /** Structural validation: no authority, lifecycle or generation checks. */
  function Check(r: Request): (code: Code)
    ensures code.Ok? ==> r.attempt.Valid() && r.provenance.Valid() && PayloadMatches(r.kind, r.payload)
  {
    if !r.attempt.Valid() then InvalidArgument
    else if r.kind.NoKind? then InvalidArgument
    else if !r.provenance.Valid() then MalformedInput
    else if r.principal == 0 then InvalidArgument
    else if !PayloadMatches(r.kind, r.payload) then InvalidArgument
    else if r.kind.DeclareQueue? then CheckDeclare(r.queue, r.payload)
    else if r.queue == 0 then InvalidArgument
    else match r.payload
      case OccupancyPayload(sample) => if sample.Valid() then Ok else MalformedInput
      case ThresholdsPayload(limits) => if limits.Consistent() then Ok else InvalidArgument
      case RebindPayload(binding) => if binding.Valid() then Ok else InvalidArgument
      case OwnershipPayload(owner) => if owner != 0 then Ok else InvalidArgument
      case _ => Ok
  }

  /** The part of a request its fingerprint is computed from: neither the
      attempt, nor who sent it, nor the epoch it claims. */
  datatype Effect = Effect(kind: Kind, queue: Id, expectedGeneration: nat, principal: Id, detail: Detail)

  datatype Detail =
    | Plain
    | Whole(payload: Payload)
    | Sampled(bytes: nat, packets: nat, sequence: nat, provenance: Provenance, observedAt: int)
    | Evidenced(records: nat, drained: bool, accepted: bool, zeroObserved: bool, zeroSequence: nat)
    | Acknowledged(sequence: nat, backend: Id, incarnation: nat)

  function EffectOf(r: Request): Effect {
    Effect(r.kind, r.queue, r.expectedGeneration, r.principal,
      match r.payload
      case NoPayload => Plain
      case OccupancyPayload(s) => Sampled(s.bytes, s.packets, s.sequence, s.provenance, s.observedAt)
      case EvidencePayload(e) => Evidenced(e.records, e.backend.drained, e.backend.accepted, e.zeroObserved, e.zeroSequence)
      case AckPayload(a) => Acknowledged(a.sequence, a.backend, a.incarnation)
      case p => Whole(p))
  }

  /** Texts no longer than the byte writer allows. */
  predicate PayloadEncodable(p: Payload) {
    match p
    case DeclarePayload(_, name, _, _, _, _) => |name| <= MAX_NAME
    case FencePayload(_, reason) => |reason| <= MAX_NAME
    case _ => true
  }

  /** What the byte reader accepts of what the writer writes. */
  predicate PayloadDecodable(p: Payload) {
    match p
    case DeclarePayload(_, name, _, _, _, _) => |name| <= MAX_NAME
    case FencePayload(_, reason) => |reason| <= MAX_REASON
    case EvidencePayload(e) => e.records <= MAX_EVIDENCE
    case _ => true
  }

  predicate Encodable(r: Request) {
    PayloadEncodable(r.payload)
  }

  predicate Decodable(r: Request) {
    PayloadDecodable(r.payload)
  }
}

/** The newest provenance observed from each publisher. */
module Provenances {
  import opened Status
  import opened Entities

  datatype Publisher = Publisher(incarnation: nat, boot: Boot, epoch: nat, last: nat)

  type Table = map<Id, Publisher>

  datatype Class = Accepted | Duplicate | OldIncarnation | OtherBoot | OldEpoch | Incomplete | TableFull

  function Classify(t: Table, p: Provenance, capacity: nat): Class {
    if !p.Valid() then Incomplete
    else if p.publisher !in t then (if |t| >= capacity then TableFull else Accepted)
    else
      var known := t[p.publisher];
      if p.incarnation < known.incarnation then OldIncarnation
      else if p.incarnation == known.incarnation then
        if p.boot != known.boot then OtherBoot
        else if p.epoch < known.epoch then OldEpoch
        else if p.sequence <= known.last then Duplicate
        else Accepted
      else Accepted
  }

  function CodeOf(c: Class): Code {
    match c
    case Accepted => Ok
    case Duplicate => ReplayDetected
    case OldIncarnation => StaleIncarnation
    case OtherBoot => StaleBoot
    case OldEpoch => StaleEpoch
    case Incomplete => MalformedInput
    case TableFull => CapacityExceeded
  }

  /** The table after an accepted observation. */
  function Observe(t: Table, p: Provenance): Table {
    t[p.publisher := Publisher(p.incarnation, p.boot, p.epoch, p.sequence)]
  }
}

/** The bounded memo of attempts one queue answers from. */
module Memos {
  import opened Entities

  function Find(memo: seq<Memo>, a: Attempt): Option<Memo> {
    if memo == [] then None
    else if memo[0].attempt == a then Some(memo[0])
    else Find(memo[1..], a)
  }

  function Overwrite(memo: seq<Memo>, m: Memo): seq<Memo> {
    if memo == [] then []
    else if memo[0].attempt == m.attempt then [m] + memo[1..]
    else [memo[0]] + Overwrite(memo[1..], m)
  }

  function Remember(memo: seq<Memo>, m: Memo, capacity: nat): seq<Memo> {
    if capacity == 0 then memo
    else if Find(memo, m.attempt).Some? then Overwrite(memo, m)
    else (if |memo| >= capacity then memo[1..] else memo) + [m]
  }
}
