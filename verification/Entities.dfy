/** Outcome codes, shared by every component. */
module Status {
  datatype Code =
    | Ok | InvalidArgument | OutOfRange | NotFound | AlreadyExists | CapacityExceeded | MalformedInput
    | IntegrityFailure | Unsupported | StaleGeneration | StaleEpoch | StaleIncarnation | StaleBoot
    | StaleOccupancy | ReplayDetected | Conflict | AuthorityDenied | LifecycleViolation | FenceViolation
    | ThresholdExceeded | OccupancyOverflow | DrainIncomplete | BackendMismatch | NotDurable
    | AmbiguousOutcome | ShuttingDown | Cancelled | Busy | Internal
}

/** The records the fabric governs. Identities, epochs, generations, sequences
    and incarnations are naturals in which zero means absent. */
module Entities {
  import opened Words
  import opened Status

  type Id = nat
  type Text = seq<byte>

  const COUNTER_MAX: nat := U64 - 1
  const MAX_NAME: nat := 128
  const MAX_REASON: nat := 96
  const MAX_EVIDENCE: nat := 16
  const MAX_MEMO: nat := 64
  const MAX_PUBLISHERS: nat := 4096

  datatype Option<+T> = None | Some(value: T)

  datatype Boot = Boot(hi: nat, lo: nat) {
    predicate Valid() { hi != 0 || lo != 0 }
  }

  datatype Attempt = Attempt(publisher: Id, counter: nat) {
    predicate Valid() { publisher != 0 && counter != 0 }
  }

  datatype Provenance = Provenance(publisher: Id, node: Id, incarnation: nat, epoch: nat, sequence: nat, boot: Boot) {
    predicate Valid() { publisher != 0 && node != 0 && incarnation != 0 && sequence != 0 && boot.Valid() }
  }

  const NOBODY: Provenance := Provenance(0, 0, 0, 0, 0, Boot(0, 0))

  datatype Thresholds = Thresholds(low: nat, high: nat, maxBytes: nat, maxPackets: nat, staleAfter: int) {
    predicate Consistent() { low <= high <= maxBytes }
  }

  datatype ClassBinding = ClassBinding(id: Id, generation: nat) {
    predicate Valid() { id != 0 && generation != 0 }
  }

  datatype PoolRef = PoolRef(id: Id, generation: nat, capacity: nat) {
    predicate Valid() { id != 0 && generation != 0 }
  }

  // ---- queues ---------------------------------------------------------------

  datatype Definition = Definition(
    id: Id, resource: Id, name: Text, depth: nat, cls: ClassBinding, pool: PoolRef, thresholds: Thresholds,
    owner: Id, generation: nat, declaredBy: Provenance, declaredAt: int)

  datatype Lifecycle = Declared | Validated | Active | Draining | Quiesced | Retired | Failed

  datatype Flags = Flags(stale: bool, fenced: bool)

  datatype Freshness =
    | Unknown | Fresh | StaleAge | StaleRestart | StaleGenerationSeen | StaleEpochSeen | FutureTimestamp | StaleBackend

  datatype Occupancy = Occupancy(
    present: bool, bytes: nat, packets: nat, observedAt: int, sequence: nat, epoch: nat,
    provenance: Provenance, generation: nat, freshness: Freshness, age: int)

  const NO_OCCUPANCY: Occupancy := Occupancy(false, 0, 0, 0, 0, 0, NOBODY, 0, Unknown, 0)

  datatype Fence = Fence(fenced: bool, token: nat, epoch: nat, fencedBy: Id, reason: Text, fencedAt: int)

  const NO_FENCE: Fence := Fence(false, 0, 0, 0, [], 0)

  datatype Phase = Idle | Requested | EvidencePending | Completed

  datatype Observation = Observation(
    accepted: bool, drained: bool, backend: Id, incarnation: nat, epoch: nat, sequence: nat, observedAt: int)

  datatype Evidence = Evidence(
    records: nat, backend: Observation, zeroObserved: bool, zeroObservedAt: int, zeroSequence: nat, revalidated: bool)

  const NO_EVIDENCE: Evidence := Evidence(0, Observation(false, false, 0, 0, 0, 0, 0), false, 0, 0, true)

  datatype Drain = Drain(phase: Phase, attempt: Attempt, requestedAt: int, requestedBy: Provenance, evidence: Evidence) {
    predicate InProgress() { phase == Requested || phase == EvidencePending }
  }

  const NO_DRAIN: Drain := Drain(Idle, Attempt(0, 0), 0, NOBODY, NO_EVIDENCE)

  /** What a backend reported to have applied. */
  datatype Applied = Applied(
    known: bool, backend: Id, incarnation: nat, epoch: nat, sequence: nat, appliedAt: int,
    cls: ClassBinding, generation: nat, high: nat, maxBytes: nat)

  const NOT_APPLIED: Applied := Applied(false, 0, 0, 0, 0, 0, ClassBinding(0, 0), 0, 0, 0)

  datatype Memo = Memo(attempt: Attempt, fingerprint: nat, kind: Kind, outcome: Code, generation: nat, durable: bool)

  datatype Queue = Queue(
    def: Definition, lifecycle: Lifecycle, flags: Flags, occupancy: Occupancy, fence: Fence, drain: Drain,
    applied: Applied, failure: Text, memo: seq<Memo>)

  // ---- resources ------------------------------------------------------------

  datatype Capability =
    | Nothing | DeclareTopology | DeclareQueues | ValidateQueues | ActivateQueues | RebindClasses | SetLimits
    | IngestOccupancies | RequestDrains | SubmitEvidence | QuiesceQueues | RetireQueues | FenceQueues
    | UnfenceQueues | FailQueues | TransferOwnerships | AcknowledgeBackends | Admin

  datatype Grant = Grant(owner: Id, capabilities: set<Capability>)

  datatype Authority = Authority(owner: Id, epoch: nat, grants: seq<Grant>)

  datatype Class = Class(
    id: Id, resource: Id, name: Text, priority: nat, qos: Qos, generation: nat, declaredBy: Provenance)
  datatype Qos = Qos(priorityCode: nat, trafficClass: nat, group: Text)
  datatype Pool = Pool(id: Id, resource: Id, name: Text, capacity: nat, generation: nat, declaredBy: Provenance)
  datatype Backend = Backend(id: Id, resource: Id, incarnation: nat, epoch: nat, registeredAt: int, alive: bool)

  datatype Resource = Resource(
    id: Id, name: Text, owner: Id, generation: nat, epoch: nat, authority: Authority,
    classes: seq<Class>, pools: seq<Pool>, backends: seq<Backend>, declaredBy: Provenance, declaredAt: int,
    queueCount: nat)

  // ---- mutations ------------------------------------------------------------

  datatype Kind =
    | NoKind | DeclareQueue | ValidateQueue | ActivateQueue | RebindClass | SetThresholds | TransferOwnership
    | IngestOccupancy | RequestDrain | CancelDrain | SubmitDrainEvidence | QuiesceQueue | FenceQueue
    | UnfenceQueue | FailQueue | RetireQueue | AcknowledgeBackend | RegisterBackend | NoOp
    | UnknownKind(code: nat)

  datatype Sample = Sample(
    queue: Id, generation: nat, bytes: nat, packets: nat, epoch: nat, sequence: nat, observedAt: int,
    provenance: Provenance) {
    predicate Valid() { queue != 0 && generation != 0 && sequence != 0 && epoch != 0 && provenance.Valid() }
  }

  datatype Payload =
    | NoPayload
    | DeclarePayload(resource: Id, name: Text, depth: nat, cls: ClassBinding, pool: PoolRef, thresholds: Thresholds)
    | RebindPayload(binding: ClassBinding)
    | ThresholdsPayload(limits: Thresholds)
    | OwnershipPayload(owner: Id)
    | OccupancyPayload(sample: Sample)
    | EvidencePayload(evidence: Evidence)
    | FencePayload(fence: bool, reason: Text)
    | AckPayload(applied: Applied)
    | RegistrationPayload(backend: Id, onResource: Id, incarnation: nat)

  datatype Request = Request(
    attempt: Attempt, kind: Kind, queue: Id, expectedGeneration: nat, expectedEpoch: nat, principal: Id,
    provenance: Provenance, payload: Payload)
}
