/** Byte encodings of epoch, resource and queue records, and how they are read
    back. Fields the model leaves out are written as zero in their full width. */
module StateCodec {
  import opened Words
  import opened Status
  import opened Entities
  import opened Recovery
  import opened Codec

  // ---- enumerations ---------------------------------------------------------

  const LIFECYCLES: seq<Lifecycle> := [
    Declared, Validated, Active, Draining, Quiesced, Retired, Failed]

  function LifecycleCode(v: Lifecycle): (n: nat)
    ensures n < |LIFECYCLES| && LIFECYCLES[n] == v
  {
    match v
    case Declared => 0
    case Validated => 1
    case Active => 2
    case Draining => 3
    case Quiesced => 4
    case Retired => 5
    case Failed => 6
  }

  function PutLifecycle(v: Lifecycle, tail: seq<byte>): seq<byte> {
    Num(LifecycleCode(v), 1, tail)
  }

  function GetLifecycle(r: Rest): (Lifecycle, Rest) {
    var (n, rest) := GetNum(r, 1);
    if n < |LIFECYCLES| then (LIFECYCLES[n], rest) else (Declared, None)
  }

  lemma LifecycleRead(v: Lifecycle, tail: seq<byte>)
    ensures GetLifecycle(Some(PutLifecycle(v, tail))) == (v, Some(tail))
  {
    hide Num, GetNum, LifecycleCode;
    Pow2Values();
    NumRead(LifecycleCode(v), 1, tail);
  }

  const FRESHNESSES: seq<Freshness> := [
    Unknown, Fresh, StaleAge, StaleRestart, StaleGenerationSeen, StaleEpochSeen, FutureTimestamp, StaleBackend]

  function FreshnessCode(v: Freshness): (n: nat)
    ensures n < |FRESHNESSES| && FRESHNESSES[n] == v
  {
    match v
    case Unknown => 0
    case Fresh => 1
    case StaleAge => 2
    case StaleRestart => 3
    case StaleGenerationSeen => 4
    case StaleEpochSeen => 5
    case FutureTimestamp => 6
    case StaleBackend => 7
  }

  function PutFreshness(v: Freshness, tail: seq<byte>): seq<byte> {
    Num(FreshnessCode(v), 1, tail)
  }

  function GetFreshness(r: Rest): (Freshness, Rest) {
    var (n, rest) := GetNum(r, 1);
    if n < |FRESHNESSES| then (FRESHNESSES[n], rest) else (Unknown, None)
  }

  lemma FreshnessRead(v: Freshness, tail: seq<byte>)
    ensures GetFreshness(Some(PutFreshness(v, tail))) == (v, Some(tail))
  {
    hide Num, GetNum, FreshnessCode;
    Pow2Values();
    NumRead(FreshnessCode(v), 1, tail);
  }

  const PHASES: seq<Phase> := [
    Idle, Requested, EvidencePending, Completed]

  function PhaseCode(v: Phase): (n: nat)
    ensures n < |PHASES| && PHASES[n] == v
  {
    match v
    case Idle => 0
    case Requested => 1
    case EvidencePending => 2
    case Completed => 3
  }

  function PutPhase(v: Phase, tail: seq<byte>): seq<byte> {
    Num(PhaseCode(v), 1, tail)
  }

  function GetPhase(r: Rest): (Phase, Rest) {
    var (n, rest) := GetNum(r, 1);
    if n < |PHASES| then (PHASES[n], rest) else (Idle, None)
  }

  lemma PhaseRead(v: Phase, tail: seq<byte>)
    ensures GetPhase(Some(PutPhase(v, tail))) == (v, Some(tail))
  {
    hide Num, GetNum, PhaseCode;
    Pow2Values();
    NumRead(PhaseCode(v), 1, tail);
  }

  const OUTCOMES: seq<Code> := [
    Ok, InvalidArgument, OutOfRange, NotFound, AlreadyExists, CapacityExceeded, MalformedInput, IntegrityFailure, Unsupported,
    StaleGeneration, StaleEpoch, StaleIncarnation, StaleBoot, StaleOccupancy, ReplayDetected, Conflict, AuthorityDenied,
    LifecycleViolation, FenceViolation, ThresholdExceeded, OccupancyOverflow, DrainIncomplete, BackendMismatch, NotDurable,
    AmbiguousOutcome, ShuttingDown, Cancelled, Busy, Internal]

  function OutcomeCode(v: Code): (n: nat)
    ensures n < |OUTCOMES| && OUTCOMES[n] == v
  {
    match v
    case Ok => 0
    case InvalidArgument => 1
    case OutOfRange => 2
    case NotFound => 3
    case AlreadyExists => 4
    case CapacityExceeded => 5
    case MalformedInput => 6
    case IntegrityFailure => 7
    case Unsupported => 8
    case StaleGeneration => 9
    case StaleEpoch => 10
    case StaleIncarnation => 11
    case StaleBoot => 12
    case StaleOccupancy => 13
    case ReplayDetected => 14
    case Conflict => 15
    case AuthorityDenied => 16
    case LifecycleViolation => 17
    case FenceViolation => 18
    case ThresholdExceeded => 19
    case OccupancyOverflow => 20
    case DrainIncomplete => 21
    case BackendMismatch => 22
    case NotDurable => 23
    case AmbiguousOutcome => 24
    case ShuttingDown => 25
    case Cancelled => 26
    case Busy => 27
    case Internal => 28
  }

  function PutOutcome(v: Code, tail: seq<byte>): seq<byte> {
    Num(OutcomeCode(v), 2, tail)
  }

  function GetOutcome(r: Rest): (Code, Rest) {
    var (n, rest) := GetNum(r, 2);
    if n < |OUTCOMES| then (OUTCOMES[n], rest) else (Ok, None)
  }

  lemma OutcomeRead(v: Code, tail: seq<byte>)
    ensures GetOutcome(Some(PutOutcome(v, tail))) == (v, Some(tail))
  {
    hide Num, GetNum, OutcomeCode;
    Pow2Values();
    NumRead(OutcomeCode(v), 2, tail);
  }

  function PutMemoKind(v: Kind, tail: seq<byte>): seq<byte> {
    Num(CodeOfKind(v), 2, tail)
  }

  function GetMemoKind(r: Rest): (Kind, Rest) {
    var (n, rest) := GetNum(r, 2);
    (KindOf(n), rest)
  }

  lemma MemoKindRead(v: Kind, tail: seq<byte>)
    requires KindInRange(v)
    ensures GetMemoKind(Some(PutMemoKind(v, tail))) == (v, Some(tail))
  {
    hide Num, GetNum, CodeOfKind, KindOf;
    Pow2Values();
    KindRead(v);
    NumRead(CodeOfKind(v), 2, tail);
  }

  /** The flags share one byte. */
  function PutFlags(v: Flags, tail: seq<byte>): seq<byte> {
    Num((if v.stale then 1 else 0) + (if v.fenced then 2 else 0), 1, tail)
  }

  function GetFlags(r: Rest): (Flags, Rest) {
    var (n, rest) := GetNum(r, 1);
    (Flags(n % 2 == 1, n / 2 % 2 == 1), rest)
  }

  lemma FlagsRead(v: Flags, tail: seq<byte>)
    ensures GetFlags(Some(PutFlags(v, tail))) == (v, Some(tail))
  {
    hide Num, GetNum;
    Pow2Values();
    NumRead((if v.stale then 1 else 0) + (if v.fenced then 2 else 0), 1, tail);
  }

  // ---- capability masks -----------------------------------------------------

  /** The capabilities of bits 0 to 15; administration has bit 30. */
  const BITS: seq<Capability> := [
    DeclareTopology, DeclareQueues, ValidateQueues, ActivateQueues, RebindClasses, SetLimits, IngestOccupancies, RequestDrains,
    SubmitEvidence, QuiesceQueues, RetireQueues, FenceQueues, UnfenceQueues, FailQueues, TransferOwnerships, AcknowledgeBackends]

  /** The mask from bit k upwards. */
  function MaskFrom(held: set<Capability>, k: nat): nat
    requires k <= 16
    decreases 16 - k
  {
    if k == 16 then (if Admin in held then 0x4000 else 0) else (if BITS[k] in held then 1 else 0) + 2 * MaskFrom(held, k + 1)
  }

  function HeldFrom(mask: nat, k: nat): set<Capability>
    requires k <= 16
    decreases 16 - k
  {
    if k == 16 then (if mask / 0x4000 % 2 == 1 then {Admin} else {})
    else (if mask % 2 == 1 then {BITS[k]} else {}) + HeldFrom(mask / 2, k + 1)
  }

  function UpperBits(k: nat): set<Capability>
    requires k <= 16
    decreases 16 - k
  {
    if k == 16 then {Admin} else {BITS[k]} + UpperBits(k + 1)
  }

  lemma {:induction false} MaskBound(held: set<Capability>, k: nat)
    requires k <= 16
    ensures MaskFrom(held, k) < Pow2(32 - k)
    decreases 16 - k
  {
    if k == 16 {
      Pow2Values();
      assert Pow2(32 - k) == Pow2(16);
    } else {
      MaskBound(held, k + 1);
      assert Pow2(32 - k) == 2 * Pow2(32 - (k + 1));
    }
  }

  lemma MaskStep(held: set<Capability>, k: nat)
    requires k < 16
    ensures MaskFrom(held, k) / 2 == MaskFrom(held, k + 1) && (MaskFrom(held, k) % 2 == 1 <==> BITS[k] in held)
  {
  }

  lemma HeldStep(mask: nat, k: nat, c: Capability)
    requires k < 16
    ensures c in HeldFrom(mask, k) <==> (mask % 2 == 1 && c == BITS[k]) || c in HeldFrom(mask / 2, k + 1)
  {
  }

  /** One capability, read from the mask. */
  lemma {:induction false} BitRead(held: set<Capability>, k: nat, c: Capability)
    requires k <= 16
    ensures c in HeldFrom(MaskFrom(held, k), k) <==> c in held && c in UpperBits(k)
    decreases 16 - k
  {
    if k < 16 {
      hide MaskFrom, HeldFrom;
      MaskStep(held, k);
      HeldStep(MaskFrom(held, k), k, c);
      BitRead(held, k + 1, c);
    }
  }

  /** Where a capability stands, counting administration last. */
  function BitOf(c: Capability): (k: nat)
    requires !c.Nothing?
    ensures k <= 16 && c == if k == 16 then Admin else BITS[k]
  {
    match c
    case DeclareTopology => 0
    case DeclareQueues => 1
    case ValidateQueues => 2
    case ActivateQueues => 3
    case RebindClasses => 4
    case SetLimits => 5
    case IngestOccupancies => 6
    case RequestDrains => 7
    case SubmitEvidence => 8
    case QuiesceQueues => 9
    case RetireQueues => 10
    case FenceQueues => 11
    case UnfenceQueues => 12
    case FailQueues => 13
    case TransferOwnerships => 14
    case AcknowledgeBackends => 15
    case Admin => 16
  }

  lemma EveryBit(c: Capability)
    requires !c.Nothing?
    ensures c in UpperBits(0)
  {
    BitIncluded(0, BitOf(c));
  }

  lemma {:induction false} BitIncluded(k: nat, j: nat)
    requires k <= j <= 16
    ensures (if j == 16 then Admin else BITS[j]) in UpperBits(k)
    decreases j - k
  {
    if k < j {
      BitIncluded(k + 1, j);
    }
  }

  function PutGrant(v: Grant, tail: seq<byte>): seq<byte> {
    Num(v.owner, 8, Num(MaskFrom(v.capabilities, 0), 4, tail))
  }

  function GetGrant(r0: Rest): (Grant, Rest) {
    var (owner, r1) := GetNum(r0, 8);
    var (mask, r2) := GetNum(r1, 4);
    (Grant(owner, HeldFrom(mask, 0)), r2)
  }

  predicate GrantInRange(v: Grant) {
    v.owner < U64 && Nothing !in v.capabilities
  }

  lemma CapabilitiesRead(held: set<Capability>)
    requires Nothing !in held
    ensures HeldFrom(MaskFrom(held, 0), 0) == held
  {
    hide MaskFrom, HeldFrom, UpperBits;
    forall c ensures c in HeldFrom(MaskFrom(held, 0), 0) <==> c in held {
      OneCapabilityRead(held, c);
    }
  }

  lemma OneCapabilityRead(held: set<Capability>, c: Capability)
    requires Nothing !in held
    ensures c in HeldFrom(MaskFrom(held, 0), 0) <==> c in held
  {
    hide MaskFrom, HeldFrom;
    BitRead(held, 0, c);
    if !c.Nothing? {
      EveryBit(c);
    }
  }

  lemma GrantRead(v: Grant, tail: seq<byte>)
    requires GrantInRange(v)
    ensures GetGrant(Some(PutGrant(v, tail))) == (v, Some(tail))
  {
    hide Num, GetNum, MaskFrom, HeldFrom;
    Pow2Values();
    MaskBound(v.capabilities, 0);
    CapabilitiesRead(v.capabilities);
    NumRead(MaskFrom(v.capabilities, 0), 4, tail);
    WordRead(v.owner, Num(MaskFrom(v.capabilities, 0), 4, tail));
  }

  lemma GrantSize(v: Grant, tail: seq<byte>)
    ensures |PutGrant(v, tail)| == 12 + |tail|
  {
    hide Layout, Value, MaskFrom;
  }

  // ---- lists ----------------------------------------------------------------

  function PutMany<T>(put: (T, seq<byte>) -> seq<byte>, items: seq<T>, tail: seq<byte>): seq<byte> {
    if items == [] then tail else put(items[0], PutMany(put, items[1..], tail))
  }

  function GetMany<T>(get: Rest -> (T, Rest), n: nat, r: Rest): (seq<T>, Rest) {
    if n == 0 then ([], r)
    else
      var (item, r1) := get(r);
      var (items, r2) := GetMany(get, n - 1, r1);
      ([item] + items, r2)
  }

  ghost predicate ReadsBack<T(!new)>(put: (T, seq<byte>) -> seq<byte>, get: Rest -> (T, Rest), v: T) {
    forall tail: seq<byte> :: get(Some(put(v, tail))) == (v, Some(tail))
  }

  lemma {:induction false} ManyRead<T(!new)>(put: (T, seq<byte>) -> seq<byte>, get: Rest -> (T, Rest), items: seq<T>, tail: seq<byte>)
    requires forall k :: 0 <= k < |items| ==> ReadsBack(put, get, items[k])
    ensures GetMany(get, |items|, Some(PutMany(put, items, tail))) == (items, Some(tail))
  {
    if items != [] {
      var later := PutMany(put, items[1..], tail);
      assert ReadsBack(put, get, items[0]);
      ManyRead(put, get, items[1..], tail);
      assert get(Some(put(items[0], later))) == (items[0], Some(later));
      assert GetMany(get, |items| - 1, Some(later)) == (items[1..], Some(tail));
      assert [items[0]] + items[1..] == items;
    }
  }

  /** A list is its length in four bytes, then its entries. */
  function PutList<T>(put: (T, seq<byte>) -> seq<byte>, items: seq<T>, tail: seq<byte>): seq<byte> {
    Num(|items|, 4, PutMany(put, items, tail))
  }

  function GetList<T>(get: Rest -> (T, Rest), max: nat, r: Rest): (seq<T>, Rest) {
    var (n, r1) := GetNum(r, 4);
    if r1.None? || n > max then ([], None) else GetMany(get, n, r1)
  }

  lemma ListRead<T(!new)>(put: (T, seq<byte>) -> seq<byte>, get: Rest -> (T, Rest), items: seq<T>, max: nat, tail: seq<byte>)
    requires |items| < U32 && forall k :: 0 <= k < |items| ==> ReadsBack(put, get, items[k])
    ensures |items| <= max ==> GetList(get, max, Some(PutList(put, items, tail))) == (items, Some(tail))
    ensures |items| > max ==> GetList(get, max, Some(PutList(put, items, tail))).1.None?
  {
    hide Num, GetNum, ReadsBack;
    Pow2Values();
    NumRead(|items|, 4, PutMany(put, items, tail));
    ManyRead(put, get, items, tail);
  }

  lemma NothingListed<T>(get: Rest -> (T, Rest), max: nat)
    ensures GetList(get, max, None).1.None?
  {
  }

  // ---- records in records ---------------------------------------------------

  function PutClass(v: Class, tail: seq<byte>): seq<byte> {
    Num(v.id, 8, Num(v.resource, 8, PutText(v.name, Num(v.priority, 4, Num(v.qos.priorityCode, 4, Num(v.qos.trafficClass, 4,
    PutText(v.qos.group, Num(v.generation, 8, PutProvenance(v.declaredBy, tail)))))))))
  }

  function GetClass(r0: Rest): (Class, Rest) {
    var (id, r1) := GetNum(r0, 8);
    var (resource, r2) := GetNum(r1, 8);
    var (name, r3) := GetText(r2, MAX_NAME);
    var (priority, r4) := GetNum(r3, 4);
    var (code, r5) := GetNum(r4, 4);
    var (traffic, r6) := GetNum(r5, 4);
    var (group, r7) := GetText(r6, MAX_NAME);
    var (generation, r8) := GetNum(r7, 8);
    var (declaredBy, r9) := GetProvenance(r8);
    (Class(id, resource, name, priority, Qos(code, traffic, group), generation, declaredBy), r9)
  }

  predicate ClassInRange(v: Class) {
    && v.id < U64 && v.resource < U64 && v.priority < U32 && v.qos.priorityCode < U32 && v.qos.trafficClass < U32
    && v.generation < U64 && ProvenanceInRange(v.declaredBy)
  }

  lemma ClassRead(v: Class, tail: seq<byte>)
    requires ClassInRange(v) && |v.name| <= MAX_NAME && |v.qos.group| <= MAX_NAME
    ensures GetClass(Some(PutClass(v, tail))) == (v, Some(tail))
  {
    hide GetNum, GetProvenance, GetText, Num, PutProvenance, PutText;
    Pow2Values();
    ProvenanceRead(v.declaredBy, tail);
    var t8 := PutProvenance(v.declaredBy, tail);
    WordRead(v.generation, t8);
    var t7 := Num(v.generation, 8, t8);
    TextRead(v.qos.group, MAX_NAME, t7);
    var t6 := PutText(v.qos.group, t7);
    NumRead(v.qos.trafficClass, 4, t6);
    var t5 := Num(v.qos.trafficClass, 4, t6);
    NumRead(v.qos.priorityCode, 4, t5);
    var t4 := Num(v.qos.priorityCode, 4, t5);
    NumRead(v.priority, 4, t4);
    var t3 := Num(v.priority, 4, t4);
    TextRead(v.name, MAX_NAME, t3);
    var t2 := PutText(v.name, t3);
    WordRead(v.resource, t2);
    var t1 := Num(v.resource, 8, t2);
    WordRead(v.id, t1);
  }

  lemma ClassSize(v: Class, tail: seq<byte>)
    ensures |PutClass(v, tail)| == 96 + |v.name| + |v.qos.group| + |tail|
  {
    hide Layout, Value;
  }

  function PutPool(v: Pool, tail: seq<byte>): seq<byte> {
    Num(v.id, 8, Num(v.resource, 8, PutText(v.name, Num(v.capacity, 8, Num(v.generation, 8, PutProvenance(v.declaredBy,
    tail))))))
  }

  function GetPool(r0: Rest): (Pool, Rest) {
    var (id, r1) := GetNum(r0, 8);
    var (resource, r2) := GetNum(r1, 8);
    var (name, r3) := GetText(r2, MAX_NAME);
    var (capacity, r4) := GetNum(r3, 8);
    var (generation, r5) := GetNum(r4, 8);
    var (declaredBy, r6) := GetProvenance(r5);
    (Pool(id, resource, name, capacity, generation, declaredBy), r6)
  }

  predicate PoolInRange(v: Pool) {
    v.id < U64 && v.resource < U64 && v.capacity < U64 && v.generation < U64 && ProvenanceInRange(v.declaredBy)
  }

  lemma PoolRead(v: Pool, tail: seq<byte>)
    requires PoolInRange(v) && |v.name| <= MAX_NAME
    ensures GetPool(Some(PutPool(v, tail))) == (v, Some(tail))
  {
    hide GetNum, GetProvenance, GetText, Num, PutProvenance, PutText;
    ProvenanceRead(v.declaredBy, tail);
    var t5 := PutProvenance(v.declaredBy, tail);
    WordRead(v.generation, t5);
    var t4 := Num(v.generation, 8, t5);
    WordRead(v.capacity, t4);
    var t3 := Num(v.capacity, 8, t4);
    TextRead(v.name, MAX_NAME, t3);
    var t2 := PutText(v.name, t3);
    WordRead(v.resource, t2);
    var t1 := Num(v.resource, 8, t2);
    WordRead(v.id, t1);
  }

  lemma PoolSize(v: Pool, tail: seq<byte>)
    ensures |PutPool(v, tail)| == 90 + |v.name| + |tail|
  {
    hide Layout, Value;
  }

  function PutBackend(v: Backend, tail: seq<byte>): seq<byte> {
    Num(v.id, 8, Num(v.resource, 8, Num(v.incarnation, 8, Num(v.epoch, 8, Signed(v.registeredAt, Flag(v.alive, tail))))))
  }

  function GetBackend(r0: Rest): (Backend, Rest) {
    var (id, r1) := GetNum(r0, 8);
    var (resource, r2) := GetNum(r1, 8);
    var (incarnation, r3) := GetNum(r2, 8);
    var (epoch, r4) := GetNum(r3, 8);
    var (registeredAt, r5) := GetSigned(r4);
    var (alive, r6) := GetFlag(r5);
    (Backend(id, resource, incarnation, epoch, registeredAt, alive), r6)
  }

  predicate BackendInRange(v: Backend) {
    v.id < U64 && v.resource < U64 && v.incarnation < U64 && v.epoch < U64 && IsSigned(v.registeredAt)
  }

  lemma BackendRead(v: Backend, tail: seq<byte>)
    requires BackendInRange(v)
    ensures GetBackend(Some(PutBackend(v, tail))) == (v, Some(tail))
  {
    hide Flag, GetFlag, GetNum, GetSigned, Num, Signed;
    FlagRead(v.alive, tail);
    var t5 := Flag(v.alive, tail);
    SignedRead(v.registeredAt, t5);
    var t4 := Signed(v.registeredAt, t5);
    WordRead(v.epoch, t4);
    var t3 := Num(v.epoch, 8, t4);
    WordRead(v.incarnation, t3);
    var t2 := Num(v.incarnation, 8, t3);
    WordRead(v.resource, t2);
    var t1 := Num(v.resource, 8, t2);
    WordRead(v.id, t1);
  }

  lemma BackendSize(v: Backend, tail: seq<byte>)
    ensures |PutBackend(v, tail)| == 41 + |tail|
  {
    hide Layout, Value;
  }

  function PutMemo(v: Memo, tail: seq<byte>): seq<byte> {
    PutAttempt(v.attempt, Num(v.fingerprint, 8, PutMemoKind(v.kind, PutOutcome(v.outcome, Num(v.generation, 8, Flag(v.durable,
    tail))))))
  }

  function GetMemo(r0: Rest): (Memo, Rest) {
    var (attempt, r1) := GetAttempt(r0);
    var (fingerprint, r2) := GetNum(r1, 8);
    var (kind, r3) := GetMemoKind(r2);
    var (outcome, r4) := GetOutcome(r3);
    var (generation, r5) := GetNum(r4, 8);
    var (durable, r6) := GetFlag(r5);
    (Memo(attempt, fingerprint, kind, outcome, generation, durable), r6)
  }

  predicate MemoInRange(v: Memo) {
    AttemptInRange(v.attempt) && v.fingerprint < U64 && KindInRange(v.kind) && v.generation < U64
  }

  lemma MemoRead(v: Memo, tail: seq<byte>)
    requires MemoInRange(v)
    ensures GetMemo(Some(PutMemo(v, tail))) == (v, Some(tail))
  {
    hide Flag, GetAttempt, GetFlag, GetMemoKind, GetNum, GetOutcome, Num, PutAttempt, PutMemoKind, PutOutcome;
    FlagRead(v.durable, tail);
    var t5 := Flag(v.durable, tail);
    WordRead(v.generation, t5);
    var t4 := Num(v.generation, 8, t5);
    OutcomeRead(v.outcome, t4);
    var t3 := PutOutcome(v.outcome, t4);
    MemoKindRead(v.kind, t3);
    var t2 := PutMemoKind(v.kind, t3);
    WordRead(v.fingerprint, t2);
    var t1 := Num(v.fingerprint, 8, t2);
    AttemptRead(v.attempt, t1);
  }

  lemma MemoSize(v: Memo, tail: seq<byte>)
    ensures |PutMemo(v, tail)| == 37 + |tail|
  {
    hide Layout, Value;
  }

  function PutOccupancy(v: Occupancy, tail: seq<byte>): seq<byte> {
    Flag(v.present, Num(v.bytes, 8, Num(v.packets, 8, Signed(v.observedAt, Num(v.sequence, 8, Num(v.epoch, 8,
    PutProvenance(v.provenance, Num(v.generation, 8, PutFreshness(v.freshness, Signed(v.age, tail))))))))))
  }

  function GetOccupancy(r0: Rest): (Occupancy, Rest) {
    var (present, r1) := GetFlag(r0);
    var (bytes, r2) := GetNum(r1, 8);
    var (packets, r3) := GetNum(r2, 8);
    var (observedAt, r4) := GetSigned(r3);
    var (sequence, r5) := GetNum(r4, 8);
    var (epoch, r6) := GetNum(r5, 8);
    var (provenance, r7) := GetProvenance(r6);
    var (generation, r8) := GetNum(r7, 8);
    var (freshness, r9) := GetFreshness(r8);
    var (age, r10) := GetSigned(r9);
    (Occupancy(present, bytes, packets, observedAt, sequence, epoch, provenance, generation, freshness, age), r10)
  }

  predicate OccupancyInRange(v: Occupancy) {
    && v.bytes < U64 && v.packets < U64 && IsSigned(v.observedAt) && v.sequence < U64 && v.epoch < U64
    && ProvenanceInRange(v.provenance) && v.generation < U64 && IsSigned(v.age)
  }

  lemma OccupancyRead(v: Occupancy, tail: seq<byte>)
    requires OccupancyInRange(v)
    ensures GetOccupancy(Some(PutOccupancy(v, tail))) == (v, Some(tail))
  {
    hide Flag, GetFlag, GetFreshness, GetNum, GetProvenance, GetSigned, Num, PutFreshness, PutProvenance, Signed;
    SignedRead(v.age, tail);
    var t9 := Signed(v.age, tail);
    FreshnessRead(v.freshness, t9);
    var t8 := PutFreshness(v.freshness, t9);
    WordRead(v.generation, t8);
    var t7 := Num(v.generation, 8, t8);
    ProvenanceRead(v.provenance, t7);
    var t6 := PutProvenance(v.provenance, t7);
    WordRead(v.epoch, t6);
    var t5 := Num(v.epoch, 8, t6);
    WordRead(v.sequence, t5);
    var t4 := Num(v.sequence, 8, t5);
    SignedRead(v.observedAt, t4);
    var t3 := Signed(v.observedAt, t4);
    WordRead(v.packets, t3);
    var t2 := Num(v.packets, 8, t3);
    WordRead(v.bytes, t2);
    var t1 := Num(v.bytes, 8, t2);
    FlagRead(v.present, t1);
  }

  lemma OccupancySize(v: Occupancy, tail: seq<byte>)
    ensures |PutOccupancy(v, tail)| == 114 + |tail|
  {
    hide Layout, Value;
  }

  function PutDefinition(v: Definition, tail: seq<byte>): seq<byte> {
    Num(v.id, 8, Num(v.resource, 8, PutText(v.name, Num(v.depth, 4, PutBinding(v.cls, PutPoolRef(v.pool,
    PutThresholds(v.thresholds, Num(v.owner, 8, Num(v.generation, 8, PutProvenance(v.declaredBy, Signed(v.declaredAt,
    tail)))))))))))
  }

  function GetDefinition(r0: Rest): (Definition, Rest) {
    var (id, r1) := GetNum(r0, 8);
    var (resource, r2) := GetNum(r1, 8);
    var (name, r3) := GetText(r2, MAX_NAME);
    var (depth, r4) := GetNum(r3, 4);
    var (cls, r5) := GetBinding(r4);
    var (pool, r6) := GetPoolRef(r5);
    var (thresholds, r7) := GetThresholds(r6);
    var (owner, r8) := GetNum(r7, 8);
    var (generation, r9) := GetNum(r8, 8);
    var (declaredBy, r10) := GetProvenance(r9);
    var (declaredAt, r11) := GetSigned(r10);
    (Definition(id, resource, name, depth, cls, pool, thresholds, owner, generation, declaredBy, declaredAt), r11)
  }

  predicate DefinitionInRange(v: Definition) {
    && v.id < U64 && v.resource < U64 && v.depth < U32 && BindingInRange(v.cls) && PoolRefInRange(v.pool)
    && ThresholdsInRange(v.thresholds) && v.owner < U64 && v.generation < U64 && ProvenanceInRange(v.declaredBy)
    && IsSigned(v.declaredAt)
  }

  lemma DefinitionRead(v: Definition, tail: seq<byte>)
    requires DefinitionInRange(v) && |v.name| <= MAX_NAME
    ensures GetDefinition(Some(PutDefinition(v, tail))) == (v, Some(tail))
  {
    hide
    GetBinding, GetNum, GetPoolRef, GetProvenance, GetSigned, GetText, GetThresholds, Num, PutBinding, PutPoolRef, PutProvenance, PutText, PutThresholds, Signed;
    Pow2Values();
    SignedRead(v.declaredAt, tail);
    var t10 := Signed(v.declaredAt, tail);
    ProvenanceRead(v.declaredBy, t10);
    var t9 := PutProvenance(v.declaredBy, t10);
    WordRead(v.generation, t9);
    var t8 := Num(v.generation, 8, t9);
    WordRead(v.owner, t8);
    var t7 := Num(v.owner, 8, t8);
    ThresholdsRead(v.thresholds, t7);
    var t6 := PutThresholds(v.thresholds, t7);
    PoolRefRead(v.pool, t6);
    var t5 := PutPoolRef(v.pool, t6);
    BindingRead(v.cls, t5);
    var t4 := PutBinding(v.cls, t5);
    NumRead(v.depth, 4, t4);
    var t3 := Num(v.depth, 4, t4);
    TextRead(v.name, MAX_NAME, t3);
    var t2 := PutText(v.name, t3);
    WordRead(v.resource, t2);
    var t1 := Num(v.resource, 8, t2);
    WordRead(v.id, t1);
  }

  lemma DefinitionSize(v: Definition, tail: seq<byte>)
    ensures |PutDefinition(v, tail)| == 182 + |v.name| + |tail|
  {
    hide Layout, Value;
  }

  function PutFenceState(v: Fence, tail: seq<byte>): seq<byte> {
    Flag(v.fenced, Num(v.token, 8, Num(v.epoch, 8, Num(v.fencedBy, 8, PutText(v.reason, Signed(v.fencedAt, tail))))))
  }

  function GetFenceState(r0: Rest): (Fence, Rest) {
    var (fenced, r1) := GetFlag(r0);
    var (token, r2) := GetNum(r1, 8);
    var (epoch, r3) := GetNum(r2, 8);
    var (fencedBy, r4) := GetNum(r3, 8);
    var (reason, r5) := GetText(r4, MAX_REASON);
    var (fencedAt, r6) := GetSigned(r5);
    (Fence(fenced, token, epoch, fencedBy, reason, fencedAt), r6)
  }

  predicate FenceInRange(v: Fence) {
    v.token < U64 && v.epoch < U64 && v.fencedBy < U64 && IsSigned(v.fencedAt)
  }

  lemma FenceStateRead(v: Fence, tail: seq<byte>)
    requires FenceInRange(v) && |v.reason| < U16
    ensures |v.reason| <= MAX_REASON ==> GetFenceState(Some(PutFenceState(v, tail))) == (v, Some(tail))
    ensures |v.reason| > MAX_REASON ==> GetFenceState(Some(PutFenceState(v, tail))).1.None?
  {
    hide Flag, GetFlag, Num, GetNum, PutText, GetText, Signed, GetSigned;
    SignedRead(v.fencedAt, tail);
    SignedContinues(None, []);
    var t5 := Signed(v.fencedAt, tail);
    if |v.reason| <= MAX_REASON {
      TextRead(v.reason, MAX_REASON, t5);
    } else {
      LongTextRefused(v.reason, MAX_REASON, t5);
    }
    var t4 := PutText(v.reason, t5);
    WordRead(v.fencedBy, t4);
    var t3 := Num(v.fencedBy, 8, t4);
    WordRead(v.epoch, t3);
    var t2 := Num(v.epoch, 8, t3);
    WordRead(v.token, t2);
    FlagRead(v.fenced, Num(v.token, 8, t2));
  }

  lemma FenceStateSize(v: Fence, tail: seq<byte>)
    ensures |PutFenceState(v, tail)| == 35 + |v.reason| + |tail|
  {
    hide Layout, Value;
  }

  // ---- drains ---------------------------------------------------------------

  /** The evidence behind its record count. */
  function PutFindings(v: Evidence, tail: seq<byte>): seq<byte> {
    PutObservation(v.backend, Flag(v.zeroObserved, Signed(v.zeroObservedAt, Num(v.zeroSequence, 8, Flag(v.revalidated, tail)))))
  }

  function GetFindings(records: nat, r1: Rest): (Evidence, Rest) {
    var (backend, r2) := GetObservation(r1);
    var (zero, r3) := GetFlag(r2);
    var (zeroAt, r4) := GetSigned(r3);
    var (zeroSequence, r5) := GetNum(r4, 8);
    var (revalidated, r6) := GetFlag(r5);
    (Evidence(records, backend, zero, zeroAt, zeroSequence, revalidated), r6)
  }

  lemma FindingsRead(v: Evidence, tail: seq<byte>)
    requires EvidenceInRange(v)
    ensures GetFindings(v.records, Some(PutFindings(v, tail))) == (v, Some(tail))
  {
    hide Num, GetNum, Flag, GetFlag, Signed, GetSigned, PutObservation, GetObservation;
    FlagRead(v.revalidated, tail);
    var t5 := Flag(v.revalidated, tail);
    WordRead(v.zeroSequence, t5);
    var t4 := Num(v.zeroSequence, 8, t5);
    SignedRead(v.zeroObservedAt, t4);
    var t3 := Signed(v.zeroObservedAt, t4);
    FlagRead(v.zeroObserved, t3);
    ObservationRead(v.backend, Flag(v.zeroObserved, t3));
  }

  lemma FindingsSize(v: Evidence, tail: seq<byte>)
    ensures |PutFindings(v, tail)| == 60 + |tail|
  {
    hide Layout, Value;
  }

  function PutDrain(v: Drain, tail: seq<byte>): seq<byte> {
    PutPhase(v.phase, PutAttempt(v.attempt, Signed(v.requestedAt, PutProvenance(v.requestedBy,
      Num(v.evidence.records, 4, PutFindings(v.evidence, tail))))))
  }

  /** A count beyond the bound ends the read where it stands, without failing it. */
  function GetDrain(r0: Rest): (Drain, Rest) {
    var (phase, r1) := GetPhase(r0);
    var (attempt, r2) := GetAttempt(r1);
    var (requestedAt, r3) := GetSigned(r2);
    var (requestedBy, r4) := GetProvenance(r3);
    var (records, r5) := GetNum(r4, 4);
    if r5.None? || records > MAX_EVIDENCE then
      (Drain(phase, attempt, requestedAt, requestedBy, NO_EVIDENCE.(records := records)), r5)
    else
      var (evidence, r6) := GetFindings(records, r5);
      (Drain(phase, attempt, requestedAt, requestedBy, evidence), r6)
  }

  predicate DrainInRange(v: Drain) {
    AttemptInRange(v.attempt) && IsSigned(v.requestedAt) && ProvenanceInRange(v.requestedBy) && EvidenceInRange(v.evidence)
  }

  lemma DrainRead(v: Drain, tail: seq<byte>)
    requires DrainInRange(v)
    ensures v.evidence.records <= MAX_EVIDENCE ==> GetDrain(Some(PutDrain(v, tail))) == (v, Some(tail))
    ensures v.evidence.records > MAX_EVIDENCE ==> GetDrain(Some(PutDrain(v, tail))).1 == Some(PutFindings(v.evidence, tail))
  {
    hide Num, GetNum, PutPhase, GetPhase, PutAttempt, GetAttempt, Signed, GetSigned, PutProvenance, GetProvenance, PutFindings, GetFindings;
    Pow2Values();
    FindingsRead(v.evidence, tail);
    var t5 := PutFindings(v.evidence, tail);
    NumRead(v.evidence.records, 4, t5);
    var t4 := Num(v.evidence.records, 4, t5);
    ProvenanceRead(v.requestedBy, t4);
    var t3 := PutProvenance(v.requestedBy, t4);
    SignedRead(v.requestedAt, t3);
    var t2 := Signed(v.requestedAt, t3);
    AttemptRead(v.attempt, t2);
    PhaseRead(v.phase, PutAttempt(v.attempt, t2));
  }

  lemma DrainSize(v: Drain, tail: seq<byte>)
    ensures |PutDrain(v, tail)| == 145 + |tail|
  {
    hide Layout, Value, PutFindings, PhaseCode;
    FindingsSize(v.evidence, tail);
  }

  // ---- epoch records --------------------------------------------------------

  datatype EpochRecord = EpochRecord(boot: Boot, epoch: nat, incarnation: nat)

  function PutEpoch(v: EpochRecord, tail: seq<byte>): seq<byte> {
    Num(v.boot.hi, 8, Num(v.boot.lo, 8, Num(v.epoch, 8, Num(v.incarnation, 8, tail))))
  }

  function GetEpoch(r0: Rest): (EpochRecord, Rest) {
    var (hi, r1) := GetNum(r0, 8);
    var (lo, r2) := GetNum(r1, 8);
    var (epoch, r3) := GetNum(r2, 8);
    var (incarnation, r4) := GetNum(r3, 8);
    (EpochRecord(Boot(hi, lo), epoch, incarnation), r4)
  }

  predicate EpochInRange(v: EpochRecord) {
    v.boot.hi < U64 && v.boot.lo < U64 && v.epoch < U64 && v.incarnation < U64
  }

  lemma EpochRead(v: EpochRecord, tail: seq<byte>)
    requires EpochInRange(v)
    ensures GetEpoch(Some(PutEpoch(v, tail))) == (v, Some(tail))
  {
    hide GetNum, Num;
    WordRead(v.incarnation, tail);
    var t3 := Num(v.incarnation, 8, tail);
    WordRead(v.epoch, t3);
    var t2 := Num(v.epoch, 8, t3);
    WordRead(v.boot.lo, t2);
    var t1 := Num(v.boot.lo, 8, t2);
    WordRead(v.boot.hi, t1);
  }

  function DecodeEpoch(data: seq<byte>): Option<EpochRecord> {
    var (v, rest) := GetEpoch(Some(data));
    if rest == Some([]) then Some(v) else None
  }

  lemma EpochRoundTrip(v: EpochRecord)
    requires EpochInRange(v)
    ensures DecodeEpoch(PutEpoch(v, [])) == Some(v)
  {
    hide PutEpoch, GetEpoch;
    EpochRead(v, []);
  }

  // ---- resource records -----------------------------------------------------

  /** A resource without its lists and what follows them. */
  function Bare(v: Resource): Resource {
    Resource(v.id, v.name, v.owner, v.generation, v.epoch, Authority(v.authority.owner, v.authority.epoch, []), [], [], [], NOBODY, 0, 0)
  }

  function PutHeader(v: Resource, tail: seq<byte>): seq<byte> {
    Num(v.id, 8, PutText(v.name, Num(v.owner, 8, Num(v.generation, 8, Num(v.epoch, 8, Num(v.authority.owner, 8,
    Num(v.authority.epoch, 8, tail)))))))
  }

  function GetHeader(r0: Rest): (Resource, Rest) {
    var (id, r1) := GetNum(r0, 8);
    var (name, r2) := GetText(r1, MAX_NAME);
    var (owner, r3) := GetNum(r2, 8);
    var (generation, r4) := GetNum(r3, 8);
    var (epoch, r5) := GetNum(r4, 8);
    var (holder, r6) := GetNum(r5, 8);
    var (reign, r7) := GetNum(r6, 8);
    (Resource(id, name, owner, generation, epoch, Authority(holder, reign, []), [], [], [], NOBODY, 0, 0), r7)
  }

  predicate HeaderInRange(v: Resource) {
    && v.id < U64 && v.owner < U64 && v.generation < U64 && v.epoch < U64 && v.authority.owner < U64 && v.authority.epoch < U64
  }

  lemma HeaderRead(v: Resource, tail: seq<byte>)
    requires HeaderInRange(v) && |v.name| <= MAX_NAME
    ensures GetHeader(Some(PutHeader(v, tail))) == (Bare(v), Some(tail))
  {
    hide GetNum, GetText, Num, PutText;
    WordRead(v.authority.epoch, tail);
    var t6 := Num(v.authority.epoch, 8, tail);
    WordRead(v.authority.owner, t6);
    var t5 := Num(v.authority.owner, 8, t6);
    WordRead(v.epoch, t5);
    var t4 := Num(v.epoch, 8, t5);
    WordRead(v.generation, t4);
    var t3 := Num(v.generation, 8, t4);
    WordRead(v.owner, t3);
    var t2 := Num(v.owner, 8, t3);
    TextRead(v.name, MAX_NAME, t2);
    var t1 := PutText(v.name, t2);
    WordRead(v.id, t1);
  }

  lemma HeaderSize(v: Resource, tail: seq<byte>)
    ensures |PutHeader(v, tail)| == 50 + |v.name| + |tail|
  {
    hide Layout, Value;
  }

  /** The byte in front is the resource's applicability, which nothing reads. */
  function PutFooter(v: Resource, tail: seq<byte>): seq<byte> {
    Num(0, 1, PutProvenance(v.declaredBy, Signed(v.declaredAt, Num(v.queueCount, 8, tail))))
  }

  function GetFooter(v: Resource, r0: Rest): (Resource, Rest) {
    var (_, r1) := GetNum(r0, 1);
    var (declaredBy, r2) := GetProvenance(r1);
    var (declaredAt, r3) := GetSigned(r2);
    var (queueCount, r4) := GetNum(r3, 8);
    (v.(declaredBy := declaredBy, declaredAt := declaredAt, queueCount := queueCount), r4)
  }

  predicate FooterInRange(v: Resource) {
    ProvenanceInRange(v.declaredBy) && IsSigned(v.declaredAt) && v.queueCount < U64
  }

  lemma FooterRead(v: Resource, w: Resource, tail: seq<byte>)
    requires FooterInRange(v)
    ensures GetFooter(w, Some(PutFooter(v, tail))) ==
      (w.(declaredBy := v.declaredBy, declaredAt := v.declaredAt, queueCount := v.queueCount), Some(tail))
    ensures GetFooter(w, None).1.None?
  {
    hide Num, GetNum, PutProvenance, GetProvenance, Signed, GetSigned;
    Pow2Values();
    WordRead(v.queueCount, tail);
    var t3 := Num(v.queueCount, 8, tail);
    SignedRead(v.declaredAt, t3);
    var t2 := Signed(v.declaredAt, t3);
    ProvenanceRead(v.declaredBy, t2);
    NumRead(0, 1, PutProvenance(v.declaredBy, t2));
    NumContinues(None, 1, []);
    ProvenanceContinues(None, []);
    SignedContinues(None, []);
    NumContinues(None, 8, []);
  }

  lemma FooterSize(v: Resource, tail: seq<byte>)
    ensures |PutFooter(v, tail)| == 73 + |tail|
  {
    hide Layout, Value;
  }

  function PutLists(v: Resource, tail: seq<byte>): seq<byte> {
    PutList(PutGrant, v.authority.grants, PutList(PutClass, v.classes, PutList(PutPool, v.pools, PutList(PutBackend, v.backends, tail))))
  }

  function GetLists(v: Resource, r0: Rest): (Resource, Rest) {
    var (grants, r1) := GetList(GetGrant, MAX_GRANTS, r0);
    var (classes, r2) := GetList(GetClass, MAX_ENTRIES, r1);
    var (pools, r3) := GetList(GetPool, MAX_ENTRIES, r2);
    var (backends, r4) := GetList(GetBackend, MAX_ENTRIES, r3);
    (v.(authority := v.authority.(grants := grants), classes := classes, pools := pools, backends := backends), r4)
  }

  /** Every number of the record fits the width it is written in. */
  predicate ResourceInRange(v: Resource) {
    && HeaderInRange(v) && FooterInRange(v)
    && (forall k :: 0 <= k < |v.authority.grants| ==> GrantInRange(v.authority.grants[k]))
    && (forall k :: 0 <= k < |v.classes| ==> ClassInRange(v.classes[k]))
    && (forall k :: 0 <= k < |v.pools| ==> PoolInRange(v.pools[k]))
    && (forall k :: 0 <= k < |v.backends| ==> BackendInRange(v.backends[k]))
  }

  /** No text of the record is longer than the writer allows. */
  predicate TextsFit(v: Resource) {
    && |v.name| <= MAX_NAME
    && (forall k :: 0 <= k < |v.classes| ==> |v.classes[k].name| <= MAX_NAME && |v.classes[k].qos.group| <= MAX_NAME)
    && (forall k :: 0 <= k < |v.pools| ==> |v.pools[k].name| <= MAX_NAME)
  }

  /** The lists are no longer than the reader allows. */
  predicate ListsFit(v: Resource) {
    |v.authority.grants| <= MAX_GRANTS && |v.classes| <= MAX_ENTRIES && |v.pools| <= MAX_ENTRIES && |v.backends| <= MAX_ENTRIES
  }

  predicate ShortLists(v: Resource) {
    |v.authority.grants| < U32 && |v.classes| < U32 && |v.pools| < U32 && |v.backends| < U32
  }

  lemma EntriesRead(v: Resource)
    requires ResourceInRange(v) && TextsFit(v)
    ensures forall k :: 0 <= k < |v.authority.grants| ==> ReadsBack(PutGrant, GetGrant, v.authority.grants[k])
    ensures forall k :: 0 <= k < |v.classes| ==> ReadsBack(PutClass, GetClass, v.classes[k])
    ensures forall k :: 0 <= k < |v.pools| ==> ReadsBack(PutPool, GetPool, v.pools[k])
    ensures forall k :: 0 <= k < |v.backends| ==> ReadsBack(PutBackend, GetBackend, v.backends[k])
  {
    hide PutGrant, GetGrant, PutClass, GetClass, PutPool, GetPool, PutBackend, GetBackend, GrantInRange, ClassInRange, PoolInRange, BackendInRange;
    forall k, tail: seq<byte> | 0 <= k < |v.authority.grants|
      ensures GetGrant(Some(PutGrant(v.authority.grants[k], tail))) == (v.authority.grants[k], Some(tail))
    {
      GrantRead(v.authority.grants[k], tail);
    }
    forall k, tail: seq<byte> | 0 <= k < |v.classes| ensures GetClass(Some(PutClass(v.classes[k], tail))) == (v.classes[k], Some(tail)) {
      ClassRead(v.classes[k], tail);
    }
    forall k, tail: seq<byte> | 0 <= k < |v.pools| ensures GetPool(Some(PutPool(v.pools[k], tail))) == (v.pools[k], Some(tail)) {
      PoolRead(v.pools[k], tail);
    }
    forall k, tail: seq<byte> | 0 <= k < |v.backends| ensures GetBackend(Some(PutBackend(v.backends[k], tail))) == (v.backends[k], Some(tail)) {
      BackendRead(v.backends[k], tail);
    }
  }

  function Listed(v: Resource, w: Resource): Resource {
    w.(authority := w.authority.(grants := v.authority.grants), classes := v.classes, pools := v.pools, backends := v.backends)
  }

  /** The four lists are read back, or the first that is too long is refused. */
  lemma ListsRead(v: Resource, w: Resource, tail: seq<byte>)
    requires ResourceInRange(v) && TextsFit(v) && ShortLists(v)
    ensures ListsFit(v) ==> GetLists(w, Some(PutLists(v, tail))) == (Listed(v, w), Some(tail))
    ensures !ListsFit(v) ==> GetLists(w, Some(PutLists(v, tail))).1.None?
  {
    hide PutList, GetList, ReadsBack, ResourceInRange, TextsFit;
    EntriesRead(v);
    ListRead(PutBackend, GetBackend, v.backends, MAX_ENTRIES, tail);
    var t3 := PutList(PutBackend, v.backends, tail);
    ListRead(PutPool, GetPool, v.pools, MAX_ENTRIES, t3);
    var t2 := PutList(PutPool, v.pools, t3);
    ListRead(PutClass, GetClass, v.classes, MAX_ENTRIES, t2);
    var t1 := PutList(PutClass, v.classes, t2);
    ListRead(PutGrant, GetGrant, v.authority.grants, MAX_GRANTS, t1);
    NothingListed(GetClass, MAX_ENTRIES);
    NothingListed(GetPool, MAX_ENTRIES);
    NothingListed(GetBackend, MAX_ENTRIES);
  }

  function PutResource(v: Resource, tail: seq<byte>): seq<byte> {
    PutHeader(v, PutLists(v, PutFooter(v, tail)))
  }

  function GetResource(r0: Rest): (Resource, Rest) {
    var (header, r1) := GetHeader(r0);
    var (listed, r2) := GetLists(header, r1);
    GetFooter(listed, r2)
  }

  /** The record, or nothing when a text or the whole is too long to be written. */
  function EncodeResource(v: Resource): seq<byte> {
    if TextsFit(v) && |PutResource(v, [])| <= MAX_RECORD then PutResource(v, []) else []
  }

  function DecodeResource(data: seq<byte>): Option<Resource> {
    var (v, rest) := GetResource(Some(data));
    if rest == Some([]) then Some(v) else None
  }

  // ---- the size of a resource record ----------------------------------------

  lemma {:induction false} GrantsSize(items: seq<Grant>, tail: seq<byte>)
    ensures |PutMany(PutGrant, items, tail)| == 12 * |items| + |tail|
  {
    hide PutGrant;
    if items != [] {
      GrantsSize(items[1..], tail);
      GrantSize(items[0], PutMany(PutGrant, items[1..], tail));
    }
  }

  lemma {:induction false} ClassesFill(items: seq<Class>, tail: seq<byte>)
    ensures |PutMany(PutClass, items, tail)| == ClassesSize(items) + |tail|
  {
    hide PutClass;
    if items != [] {
      ClassesFill(items[1..], tail);
      ClassSize(items[0], PutMany(PutClass, items[1..], tail));
    }
  }

  lemma {:induction false} PoolsFill(items: seq<Pool>, tail: seq<byte>)
    ensures |PutMany(PutPool, items, tail)| == PoolsSize(items) + |tail|
  {
    hide PutPool;
    if items != [] {
      PoolsFill(items[1..], tail);
      PoolSize(items[0], PutMany(PutPool, items[1..], tail));
    }
  }

  lemma {:induction false} BackendsFill(items: seq<Backend>, tail: seq<byte>)
    ensures |PutMany(PutBackend, items, tail)| == 41 * |items| + |tail|
  {
    hide PutBackend;
    if items != [] {
      BackendsFill(items[1..], tail);
      BackendSize(items[0], PutMany(PutBackend, items[1..], tail));
    }
  }

  lemma NumSize(v: nat, width: nat, tail: seq<byte>)
    ensures |Num(v, width, tail)| == width + |tail|
  {
    hide Layout;
  }

  lemma ListsSize(v: Resource, tail: seq<byte>)
    ensures |PutLists(v, tail)| ==
      16 + 12 * |v.authority.grants| + ClassesSize(v.classes) + PoolsSize(v.pools) + 41 * |v.backends| + |tail|
  {
    hide PutMany, ClassesSize, PoolsSize, Num, PutGrant, PutClass, PutPool, PutBackend;
    BackendsFill(v.backends, tail);
    var t3 := PutMany(PutBackend, v.backends, tail);
    NumSize(|v.backends|, 4, t3);
    var t4 := PutList(PutBackend, v.backends, tail);
    PoolsFill(v.pools, t4);
    NumSize(|v.pools|, 4, PutMany(PutPool, v.pools, t4));
    var t5 := PutList(PutPool, v.pools, t4);
    ClassesFill(v.classes, t5);
    NumSize(|v.classes|, 4, PutMany(PutClass, v.classes, t5));
    var t6 := PutList(PutClass, v.classes, t5);
    GrantsSize(v.authority.grants, t6);
    NumSize(|v.authority.grants|, 4, PutMany(PutGrant, v.authority.grants, t6));
  }

  /** The size the recovery model works with is the size of the layout. */
  lemma ResourceSizeExact(v: Resource)
    ensures |PutResource(v, [])| == ResourceSize(v)
  {
    hide PutHeader, PutLists, PutFooter, ClassesSize, PoolsSize;
    FooterSize(v, []);
    ListsSize(v, PutFooter(v, []));
    HeaderSize(v, PutLists(v, PutFooter(v, [])));
  }

  lemma {:induction false} SizesBound(classes: seq<Class>, pools: seq<Pool>)
    ensures |classes| <= ClassesSize(classes) && |pools| <= PoolsSize(pools)
    decreases |classes| + |pools|
  {
    if classes != [] {
      SizesBound(classes[1..], pools);
    } else if pools != [] {
      SizesBound(classes, pools[1..]);
    }
  }

  lemma WrittenIsShort(v: Resource)
    requires ResourceSize(v) <= MAX_RECORD
    ensures ShortLists(v)
  {
    hide ClassesSize, PoolsSize;
    SizesBound(v.classes, v.pools);
  }

  lemma StorableParts(v: Resource)
    ensures StorableResource(v) <==> TextsFit(v) && ListsFit(v) && ResourceSize(v) <= MAX_RECORD
  {
    hide ClassesSize, PoolsSize;
  }

  /** A resource record reads back as it was written if and only if it is
      storable; what is written of any other is refused. */
  lemma ResourceRoundTrip(v: Resource)
    requires ResourceInRange(v)
    ensures DecodeResource(EncodeResource(v)) == if StorableResource(v) then Some(v) else None
  {
    hide PutHeader, GetHeader, PutLists, GetLists, PutFooter, GetFooter, ResourceInRange, TextsFit, ListsFit, ShortLists, StorableResource,
      ClassesSize, PoolsSize, ResourceSize;
    ResourceSizeExact(v);
    StorableParts(v);
    if TextsFit(v) && ResourceSize(v) <= MAX_RECORD {
      WrittenIsShort(v);
      RangeParts(v);
      var t2 := PutFooter(v, []);
      var t1 := PutLists(v, t2);
      HeaderRead(v, t1);
      ListsRead(v, Bare(v), t2);
      FooterRead(v, GetLists(Bare(v), Some(t1)).0, []);
    } else {
      NothingDecodes();
    }
  }

  lemma RangeParts(v: Resource)
    requires ResourceInRange(v)
    ensures HeaderInRange(v) && FooterInRange(v) && (TextsFit(v) ==> |v.name| <= MAX_NAME)
  {
    hide HeaderInRange, FooterInRange, GrantInRange, ClassInRange, PoolInRange, BackendInRange;
  }

  lemma NothingDecodes()
    ensures DecodeResource([]) == None && DecodeQueue([]) == None
  {
    hide GetNum, GetText, GetLists, GetFooter, GetDefinition, GetLifecycle, GetFlags, GetOccupancy, GetFenceState, GetDrain, GetApplied, GetList;
    NothingRead();
  }

  /** Reading on from a failure fails. */
  lemma NothingRead()
    ensures GetNum(Some([]), 8) == (0, None) && GetNum(None, 8) == (0, None)
    ensures forall w :: GetLists(w, None).1.None?
    ensures forall w :: GetFooter(w, None).1.None?
    ensures GetText(None, MAX_NAME).1.None? && GetText(None, MAX_REASON).1.None?
    ensures GetDefinition(None).1.None? && GetDefinition(Some([])).1.None?
    ensures GetLifecycle(None).1.None? && GetFlags(None).1.None? && GetOccupancy(None).1.None? && GetFenceState(None).1.None?
    ensures GetDrain(None).1.None? && GetApplied(None).1.None? && GetCounters(None).None? && GetList(GetMemo, MAX_MEMO, None).1.None?
  {
    hide Value;
  }

  // ---- queue records --------------------------------------------------------

  /** Five counters and the last attempt, which recovery does not use. */
  function PutCounters(tail: seq<byte>): seq<byte> {
    Num(0, 8, Num(0, 8, Num(0, 8, Num(0, 8, Num(0, 8, PutAttempt(Attempt(0, 0), tail))))))
  }

  function GetCounters(r0: Rest): Rest {
    var (_, r1) := GetNum(r0, 8);
    var (_, r2) := GetNum(r1, 8);
    var (_, r3) := GetNum(r2, 8);
    var (_, r4) := GetNum(r3, 8);
    var (_, r5) := GetNum(r4, 8);
    GetAttempt(r5).1
  }

  lemma CountersRead(tail: seq<byte>)
    ensures GetCounters(Some(PutCounters(tail))) == Some(tail) && |PutCounters(tail)| == 56 + |tail|
  {
    hide Num, GetNum, PutAttempt, GetAttempt;
    AttemptRead(Attempt(0, 0), tail);
    AttemptFills(Attempt(0, 0), tail);
    var t5 := PutAttempt(Attempt(0, 0), tail);
    WordRead(0, t5);
    NumSize(0, 8, t5);
    var t4 := Num(0, 8, t5);
    WordRead(0, t4);
    NumSize(0, 8, t4);
    var t3 := Num(0, 8, t4);
    WordRead(0, t3);
    NumSize(0, 8, t3);
    var t2 := Num(0, 8, t3);
    WordRead(0, t2);
    NumSize(0, 8, t2);
    var t1 := Num(0, 8, t2);
    WordRead(0, t1);
    NumSize(0, 8, t1);
  }

  lemma AttemptFills(v: Attempt, tail: seq<byte>)
    ensures |PutAttempt(v, tail)| == 16 + |tail|
  {
    hide Layout;
  }

  /** What follows the drain. */
  function PutBack(q: Queue): seq<byte> {
    PutApplied(q.applied, PutCounters(PutList(PutMemo, q.memo, [])))
  }

  /** What follows the failure reason. */
  function PutMiddle(q: Queue): seq<byte> {
    PutOccupancy(q.occupancy, PutFenceState(q.fence, PutDrain(q.drain, PutBack(q))))
  }

  function PutQueue(q: Queue): seq<byte> {
    PutDefinition(q.def, PutLifecycle(q.lifecycle, PutFlags(q.flags, PutText(q.failure, PutMiddle(q)))))
  }

  /** The acknowledgement and the memo, when no byte is left behind them. */
  function GetBack(q: Queue, r0: Rest): Option<Queue> {
    var (applied, r1) := GetApplied(r0);
    var (memo, r2) := GetList(GetMemo, MAX_MEMO, GetCounters(r1));
    if r2 == Some([]) then Some(q.(applied := applied, memo := memo)) else None
  }

  function GetMiddle(q: Queue, r0: Rest): Option<Queue> {
    var (occupancy, r1) := GetOccupancy(r0);
    var (fence, r2) := GetFenceState(r1);
    var (drain, r3) := GetDrain(r2);
    GetBack(q.(occupancy := occupancy, fence := fence, drain := drain), r3)
  }

  function DecodeQueue(data: seq<byte>): Option<Queue> {
    var (def, r1) := GetDefinition(Some(data));
    var (lifecycle, r2) := GetLifecycle(r1);
    var (flags, r3) := GetFlags(r2);
    var (failure, r4) := GetText(r3, MAX_REASON);
    GetMiddle(Queue(def, lifecycle, flags, NO_OCCUPANCY, NO_FENCE, NO_DRAIN, NOT_APPLIED, failure, []), r4)
  }

  /** Every number of the record fits the width it is written in. */
  predicate QueueInRange(q: Queue) {
    && DefinitionInRange(q.def) && OccupancyInRange(q.occupancy) && FenceInRange(q.fence) && DrainInRange(q.drain) && AppliedInRange(q.applied)
    && (forall k :: 0 <= k < |q.memo| ==> MemoInRange(q.memo[k]))
  }

  /** No text of the record is longer than the writer allows. */
  predicate QueueTextsFit(q: Queue) {
    |q.def.name| <= MAX_NAME && |q.failure| <= MAX_NAME && |q.fence.reason| <= MAX_NAME
  }

  /** The record, or nothing when a text or the whole is too long to be written. */
  function EncodeQueue(q: Queue): seq<byte> {
    if QueueTextsFit(q) && |PutQueue(q)| <= MAX_RECORD then PutQueue(q) else []
  }

  lemma MemosRead(q: Queue)
    requires QueueInRange(q)
    ensures forall k :: 0 <= k < |q.memo| ==> ReadsBack(PutMemo, GetMemo, q.memo[k])
  {
    hide PutMemo, GetMemo, MemoInRange, DefinitionInRange, OccupancyInRange, FenceInRange, DrainInRange, AppliedInRange;
    forall k, tail: seq<byte> | 0 <= k < |q.memo| ensures GetMemo(Some(PutMemo(q.memo[k], tail))) == (q.memo[k], Some(tail)) {
      MemoRead(q.memo[k], tail);
    }
  }

  lemma {:induction false} MemosFill(items: seq<Memo>, tail: seq<byte>)
    ensures |PutMany(PutMemo, items, tail)| == 37 * |items| + |tail|
  {
    hide PutMemo;
    if items != [] {
      MemosFill(items[1..], tail);
      MemoSize(items[0], PutMany(PutMemo, items[1..], tail));
    }
  }

  lemma AppliedSize(v: Applied, tail: seq<byte>)
    ensures |PutApplied(v, tail)| == 81 + |tail|
  {
    hide Layout;
  }

  lemma BackSize(q: Queue)
    ensures |PutBack(q)| == 141 + 37 * |q.memo|
  {
    hide PutApplied, PutCounters, PutMany, PutMemo, Num;
    MemosFill(q.memo, []);
    NumSize(|q.memo|, 4, PutMany(PutMemo, q.memo, []));
    CountersRead(PutList(PutMemo, q.memo, []));
    AppliedSize(q.applied, PutCounters(PutList(PutMemo, q.memo, [])));
  }

  lemma QueueSizeExact(q: Queue)
    ensures |PutQueue(q)| == 621 + |q.def.name| + |q.failure| + |q.fence.reason| + 37 * |q.memo|
  {
    hide PutDefinition, PutLifecycle, PutFlags, PutText, PutOccupancy, PutFenceState, PutDrain, PutBack;
    BackSize(q);
    var t3 := PutBack(q);
    DrainSize(q.drain, t3);
    var t2 := PutDrain(q.drain, t3);
    FenceStateSize(q.fence, t2);
    OccupancySize(q.occupancy, PutFenceState(q.fence, t2));
    var t1 := PutMiddle(q);
    SmallSizes(q, t1);
    DefinitionSize(q.def, PutLifecycle(q.lifecycle, PutFlags(q.flags, PutText(q.failure, t1))));
  }

  lemma SmallSizes(q: Queue, tail: seq<byte>)
    ensures |PutLifecycle(q.lifecycle, PutFlags(q.flags, PutText(q.failure, tail)))| == 4 + |q.failure| + |tail|
  {
    hide Layout, LifecycleCode;
  }

  /** So many bytes were read, if the read did not fail. */
  predicate Took(before: Rest, after: Rest, n: nat) {
    after.Some? ==> before.Some? && |before.value| == |after.value| + n
  }

  lemma NumTakes(r: Rest, width: nat)
    ensures Took(r, GetNum(r, width).1, width)
  {
    hide Value;
  }

  lemma AttemptTakes(r: Rest)
    ensures Took(r, GetAttempt(r).1, 16)
  {
    hide GetNum;
    NumTakes(r, 8);
    NumTakes(GetNum(r, 8).1, 8);
  }

  lemma AppliedTakes(r: Rest)
    ensures Took(r, GetApplied(r).1, 81)
  {
    hide GetNum;
    NumTakes(r, 1);
    var r1 := GetNum(r, 1).1;
    NumTakes(r1, 8);
    var r2 := GetNum(r1, 8).1;
    NumTakes(r2, 8);
    var r3 := GetNum(r2, 8).1;
    NumTakes(r3, 8);
    var r4 := GetNum(r3, 8).1;
    NumTakes(r4, 8);
    var r5 := GetNum(r4, 8).1;
    NumTakes(r5, 8);
    var r6 := GetNum(r5, 8).1;
    NumTakes(r6, 8);
    var r7 := GetNum(r6, 8).1;
    NumTakes(r7, 8);
    var r8 := GetNum(r7, 8).1;
    NumTakes(r8, 8);
    var r9 := GetNum(r8, 8).1;
    NumTakes(r9, 8);
    NumTakes(GetNum(r9, 8).1, 8);
  }

  lemma CountersTake(r: Rest)
    ensures Took(r, GetCounters(r), 56)
  {
    hide GetNum, GetAttempt;
    NumTakes(r, 8);
    var r1 := GetNum(r, 8).1;
    NumTakes(r1, 8);
    var r2 := GetNum(r1, 8).1;
    NumTakes(r2, 8);
    var r3 := GetNum(r2, 8).1;
    NumTakes(r3, 8);
    var r4 := GetNum(r3, 8).1;
    NumTakes(r4, 8);
    AttemptTakes(GetNum(r4, 8).1);
  }

  lemma MemoTakes(r: Rest)
    ensures Took(r, GetMemo(r).1, 37)
  {
    hide GetNum, GetAttempt, KindOf;
    AttemptTakes(r);
    var r1 := GetAttempt(r).1;
    NumTakes(r1, 8);
    var r2 := GetNum(r1, 8).1;
    NumTakes(r2, 2);
    var r3 := GetNum(r2, 2).1;
    NumTakes(r3, 2);
    var r4 := GetOutcome(r3).1;
    NumTakes(r4, 8);
    NumTakes(GetNum(r4, 8).1, 1);
  }

  lemma {:induction false} MemosConsume(n: nat, r: Rest)
    ensures Took(r, GetMany(GetMemo, n, r).1, 37 * n)
  {
    hide GetMemo;
    if n > 0 {
      MemoTakes(r);
      MemosConsume(n - 1, GetMemo(r).1);
    }
  }

  /** A read that stopped at the evidence count goes on sixty bytes early. That
      is no multiple of a memo entry, so it never ends where the record does. */
  lemma MisalignedRefused(q: Queue, v: Queue)
    ensures GetBack(v, Some(PutFindings(q.drain.evidence, PutBack(q)))) == None
  {
    hide PutFindings, PutBack, GetApplied, GetCounters, GetMemo, GetNum, GetMany;
    var data := PutFindings(q.drain.evidence, PutBack(q));
    FindingsSize(q.drain.evidence, PutBack(q));
    BackSize(q);
    AppliedTakes(Some(data));
    var r1 := GetApplied(Some(data)).1;
    CountersTake(r1);
    var r2 := GetCounters(r1);
    NumTakes(r2, 4);
    var (n, r3) := GetNum(r2, 4);
    MemosConsume(n, r3);
  }

  lemma BackRead(q: Queue, v: Queue)
    requires QueueInRange(q) && |q.memo| < U32
    ensures GetBack(v, Some(PutBack(q))) == if |q.memo| <= MAX_MEMO then Some(v.(applied := q.applied, memo := q.memo)) else None
  {
    hide PutApplied, GetApplied, PutCounters, GetCounters, PutList, GetList, ReadsBack, QueueInRange;
    MemosRead(q);
    QueueRange(q);
    ListRead(PutMemo, GetMemo, q.memo, MAX_MEMO, []);
    CountersRead(PutList(PutMemo, q.memo, []));
    AppliedRead(q.applied, PutCounters(PutList(PutMemo, q.memo, [])));
  }

  lemma QueueRange(q: Queue)
    requires QueueInRange(q)
    ensures DefinitionInRange(q.def) && OccupancyInRange(q.occupancy) && FenceInRange(q.fence) && DrainInRange(q.drain) && AppliedInRange(q.applied)
  {
    hide DefinitionInRange, OccupancyInRange, FenceInRange, DrainInRange, AppliedInRange, MemoInRange;
  }

  lemma NoBack(v: Queue)
    ensures GetBack(v, None) == None
  {
    hide GetApplied, GetCounters, GetList;
    NothingRead();
  }

  predicate MiddleFits(q: Queue) {
    |q.fence.reason| <= MAX_REASON && q.drain.evidence.records <= MAX_EVIDENCE && |q.memo| <= MAX_MEMO
  }

  lemma MiddleRead(q: Queue, v: Queue)
    requires QueueInRange(q) && |q.memo| < U32 && |q.fence.reason| < U16
    ensures GetMiddle(v, Some(PutMiddle(q))) ==
      if MiddleFits(q) then Some(v.(occupancy := q.occupancy, fence := q.fence, drain := q.drain, applied := q.applied, memo := q.memo)) else None
  {
    hide PutOccupancy, GetOccupancy, PutFenceState, GetFenceState, PutDrain, GetDrain, PutBack, GetBack, QueueInRange, PutFindings;
    QueueRange(q);
    var t3 := PutBack(q);
    DrainRead(q.drain, t3);
    var t2 := PutDrain(q.drain, t3);
    FenceStateRead(q.fence, t2);
    OccupancyRead(q.occupancy, PutFenceState(q.fence, t2));
    NothingRead();
    var fence := GetFenceState(Some(PutFenceState(q.fence, t2)));
    var drain := GetDrain(fence.1);
    var w := v.(occupancy := q.occupancy, fence := fence.0, drain := drain.0);
    NoBack(w);
    MisalignedRefused(q, w);
    BackRead(q, w);
  }

  lemma NoMiddle(v: Queue)
    ensures GetMiddle(v, None) == None
  {
    hide GetOccupancy, GetFenceState, GetDrain, GetBack;
    NothingRead();
    var r3 := GetDrain(GetFenceState(GetOccupancy(None).1).1);
    NoBack(v.(occupancy := GetOccupancy(None).0, fence := GetFenceState(GetOccupancy(None).1).0, drain := r3.0));
  }

  lemma StorableQueueParts(q: Queue)
    requires QueueTextsFit(q)
    ensures StorableQueue(q) <==> |q.failure| <= MAX_REASON && MiddleFits(q)
    ensures StorableQueue(q) ==> |PutQueue(q)| <= MAX_RECORD
  {
    hide PutQueue;
    QueueSizeExact(q);
  }

  /** A queue record reads back as it was written if and only if it is storable:
      also when its evidence names too many records, which the reader notices
      without reporting it. */
  lemma QueueRoundTrip(q: Queue)
    requires QueueInRange(q)
    ensures DecodeQueue(EncodeQueue(q)) == if StorableQueue(q) then Some(q) else None
  {
    hide PutDefinition, GetDefinition, PutLifecycle, GetLifecycle, PutFlags, GetFlags, PutText, GetText, PutMiddle, GetMiddle, QueueInRange, StorableQueue;
    if QueueTextsFit(q) && |PutQueue(q)| <= MAX_RECORD {
      QueueSizeExact(q);
      StorableQueueParts(q);
      QueueRange(q);
      var t4 := PutMiddle(q);
      var t3 := PutText(q.failure, t4);
      var t2 := PutFlags(q.flags, t3);
      DefinitionRead(q.def, PutLifecycle(q.lifecycle, t2));
      LifecycleRead(q.lifecycle, t2);
      FlagsRead(q.flags, t3);
      var v := Queue(q.def, q.lifecycle, q.flags, NO_OCCUPANCY, NO_FENCE, NO_DRAIN, NOT_APPLIED, GetText(Some(t3), MAX_REASON).0, []);
      if |q.failure| <= MAX_REASON {
        TextRead(q.failure, MAX_REASON, t4);
        MiddleRead(q, v);
      } else {
        LongTextRefused(q.failure, MAX_REASON, t4);
        NoMiddle(v);
      }
    } else {
      NothingDecodes();
      UnwritableQueue(q);
    }
  }

  lemma UnwritableQueue(q: Queue)
    requires !(QueueTextsFit(q) && |PutQueue(q)| <= MAX_RECORD)
    ensures !StorableQueue(q)
  {
    hide PutQueue;
    if QueueTextsFit(q) {
      StorableQueueParts(q);
    }
  }
}
