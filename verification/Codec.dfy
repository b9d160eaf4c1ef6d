/** Byte encodings of mutations, and how they are read back. */
module Codec {
  import opened Words
  import opened Entities
  import opened Mutations

  /** What is left to read, or nothing once a read has failed. */
  type Rest = Option<seq<byte>>

  function More(r: Rest, y: seq<byte>): Rest {
    if r.Some? then Some(r.value + y) else None
  }

  /** A read that succeeds gives the same value when more bytes follow. */
  predicate Continues<T(==)>(a: (T, Rest), b: (T, Rest), y: seq<byte>) {
    a.1.Some? ==> b == (a.0, Some(a.1.value + y))
  }

  // ---- numbers, flags and texts ---------------------------------------------

  function Num(v: nat, width: nat, tail: seq<byte>): seq<byte> {
    Layout(v, width) + tail
  }

  /** A read past the end fails, gives zero and leaves nothing to read. */
  function GetNum(r: Rest, width: nat): (nat, Rest) {
    if r.Some? && |r.value| >= width then (Value(r.value[..width]), Some(r.value[width..])) else (0, None)
  }

  lemma NumRead(v: nat, width: nat, tail: seq<byte>)
    requires v < Pow2(8 * width)
    ensures GetNum(Some(Num(v, width, tail)), width) == (v, Some(tail))
  {
    hide Value, Layout;
    var x := Num(v, width, tail);
    assert x[..width] == Layout(v, width) && x[width..] == tail;
    ValueOfLayout(v, width);
  }

  lemma WordRead(v: nat, tail: seq<byte>)
    requires v < U64
    ensures GetNum(Some(Num(v, 8, tail)), 8) == (v, Some(tail))
  {
    hide Num, GetNum;
    WordIsPow();
    NumRead(v, 8, tail);
  }

  lemma WordIsPow()
    ensures Pow2(64) == U64
  {
    Pow2Values();
    Pow2Add(32, 32);
  }

  lemma NumContinues(r: Rest, width: nat, y: seq<byte>)
    ensures Continues(GetNum(r, width), GetNum(More(r, y), width), y) && (r.None? ==> GetNum(r, width).1.None?)
  {
    hide Value;
    if r.Some? && |r.value| >= width {
      assert (r.value + y)[..width] == r.value[..width];
      assert (r.value + y)[width..] == r.value[width..] + y;
    }
  }

  predicate IsSigned(v: int) {
    -0x8000_0000_0000_0000 <= v < 0x8000_0000_0000_0000
  }

  function Unsigned(v: int): nat
    requires IsSigned(v)
  {
    if v < 0 then v + U64 else v
  }

  /** Signed numbers travel as their two's complement. */
  function Signed(v: int, tail: seq<byte>): seq<byte> {
    Num(if IsSigned(v) then Unsigned(v) else 0, 8, tail)
  }

  function GetSigned(r: Rest): (int, Rest) {
    var (n, rest) := GetNum(r, 8);
    (if n >= 0x8000_0000_0000_0000 then n - U64 else n, rest)
  }

  lemma SignedRead(v: int, tail: seq<byte>)
    requires IsSigned(v)
    ensures GetSigned(Some(Signed(v, tail))) == (v, Some(tail))
  {
    hide Num, GetNum;
    WordRead(Unsigned(v), tail);
  }

  lemma SignedContinues(r: Rest, y: seq<byte>)
    ensures Continues(GetSigned(r), GetSigned(More(r, y)), y) && (r.None? ==> GetSigned(r).1.None?)
  {
    hide GetNum;
    NumContinues(r, 8, y);
  }

  function Flag(b: bool, tail: seq<byte>): seq<byte> {
    Num(if b then 1 else 0, 1, tail)
  }

  function GetFlag(r: Rest): (bool, Rest) {
    var (n, rest) := GetNum(r, 1);
    (n != 0, rest)
  }

  lemma FlagRead(b: bool, tail: seq<byte>)
    ensures GetFlag(Some(Flag(b, tail))) == (b, Some(tail))
  {
    hide Num, GetNum;
    Pow2Values();
    NumRead(if b then 1 else 0, 1, tail);
  }

  lemma FlagContinues(r: Rest, y: seq<byte>)
    ensures Continues(GetFlag(r), GetFlag(More(r, y)), y) && (r.None? ==> GetFlag(r).1.None?)
  {
    hide GetNum;
    NumContinues(r, 1, y);
  }

  /** A text is its length in two bytes, then its bytes. */
  function PutText(t: Text, tail: seq<byte>): seq<byte> {
    Num(|t|, 2, t + tail)
  }

  function GetText(r: Rest, max: nat): (Text, Rest) {
    var (n, rest) := GetNum(r, 2);
    if rest.None? || n > max || n > |rest.value| then ([], None) else (rest.value[..n], Some(rest.value[n..]))
  }

  lemma TextRead(t: Text, max: nat, tail: seq<byte>)
    requires |t| <= max && max < U16
    ensures GetText(Some(PutText(t, tail)), max) == (t, Some(tail))
  {
    hide Num, GetNum;
    Pow2Values();
    NumRead(|t|, 2, t + tail);
    assert (t + tail)[..|t|] == t && (t + tail)[|t|..] == tail;
  }

  /** A text longer than the reader allows is refused, however it was written. */
  lemma LongTextRefused(t: Text, max: nat, tail: seq<byte>)
    requires max < |t| < U16
    ensures GetText(Some(PutText(t, tail)), max).1.None?
  {
    hide Num, GetNum;
    Pow2Values();
    NumRead(|t|, 2, t + tail);
  }

  lemma TextContinues(r: Rest, max: nat, y: seq<byte>)
    ensures Continues(GetText(r, max), GetText(More(r, y), max), y) && (r.None? ==> GetText(r, max).1.None?)
  {
    hide GetNum;
    NumContinues(r, 2, y);
    var (n, rest) := GetNum(r, 2);
    if rest.Some? && n <= |rest.value| {
      assert (rest.value + y)[..n] == rest.value[..n] && (rest.value + y)[n..] == rest.value[n..] + y;
    }
  }

  // ---- records --------------------------------------------------------------

  function PutAttempt(v: Attempt, tail: seq<byte>): seq<byte> {
    Num(v.publisher, 8, Num(v.counter, 8, tail))
  }

  function GetAttempt(r0: Rest): (Attempt, Rest) {
    var (publisher, r1) := GetNum(r0, 8);
    var (counter, r2) := GetNum(r1, 8);
    (Attempt(publisher, counter), r2)
  }

  predicate AttemptInRange(v: Attempt) {
    v.publisher < U64 && v.counter < U64
  }

  lemma AttemptRead(v: Attempt, tail: seq<byte>)
    requires AttemptInRange(v)
    ensures GetAttempt(Some(PutAttempt(v, tail))) == (v, Some(tail))
  {
    hide GetNum, Num;
    var t2 := tail;
    WordRead(v.counter, t2);
    var t1 := Num(v.counter, 8, t2);
    WordRead(v.publisher, t1);
  }

  lemma AttemptContinues(r: Rest, y: seq<byte>)
    ensures Continues(GetAttempt(r), GetAttempt(More(r, y)), y) && (r.None? ==> GetAttempt(r).1.None?)
  {
    hide GetNum;
    var r0 := r;
    NumContinues(r0, 8, y);
    var r1 := GetNum(r0, 8).1;
    NumContinues(r1, 8, y);
  }

  function PutProvenance(v: Provenance, tail: seq<byte>): seq<byte> {
    Num(v.publisher, 8, Num(v.node, 8, Num(v.incarnation, 8, Num(v.epoch, 8, Num(v.sequence, 8, Num(v.boot.hi, 8,
      Num(v.boot.lo, 8, tail)))))))
  }

  function GetProvenance(r0: Rest): (Provenance, Rest) {
    var (publisher, r1) := GetNum(r0, 8);
    var (node, r2) := GetNum(r1, 8);
    var (incarnation, r3) := GetNum(r2, 8);
    var (epoch, r4) := GetNum(r3, 8);
    var (sequence, r5) := GetNum(r4, 8);
    var (hi, r6) := GetNum(r5, 8);
    var (lo, r7) := GetNum(r6, 8);
    (Provenance(publisher, node, incarnation, epoch, sequence, Boot(hi, lo)), r7)
  }

  predicate ProvenanceInRange(v: Provenance) {
    && v.publisher < U64 && v.node < U64 && v.incarnation < U64 && v.epoch < U64 && v.sequence < U64 && v.boot.hi < U64
    && v.boot.lo < U64
  }

  lemma ProvenanceRead(v: Provenance, tail: seq<byte>)
    requires ProvenanceInRange(v)
    ensures GetProvenance(Some(PutProvenance(v, tail))) == (v, Some(tail))
  {
    hide GetNum, Num;
    var t7 := tail;
    WordRead(v.boot.lo, t7);
    var t6 := Num(v.boot.lo, 8, t7);
    WordRead(v.boot.hi, t6);
    var t5 := Num(v.boot.hi, 8, t6);
    WordRead(v.sequence, t5);
    var t4 := Num(v.sequence, 8, t5);
    WordRead(v.epoch, t4);
    var t3 := Num(v.epoch, 8, t4);
    WordRead(v.incarnation, t3);
    var t2 := Num(v.incarnation, 8, t3);
    WordRead(v.node, t2);
    var t1 := Num(v.node, 8, t2);
    WordRead(v.publisher, t1);
  }

  lemma ProvenanceContinues(r: Rest, y: seq<byte>)
    ensures Continues(GetProvenance(r), GetProvenance(More(r, y)), y) && (r.None? ==> GetProvenance(r).1.None?)
  {
    hide GetNum;
    var r0 := r;
    NumContinues(r0, 8, y);
    var r1 := GetNum(r0, 8).1;
    NumContinues(r1, 8, y);
    var r2 := GetNum(r1, 8).1;
    NumContinues(r2, 8, y);
    var r3 := GetNum(r2, 8).1;
    NumContinues(r3, 8, y);
    var r4 := GetNum(r3, 8).1;
    NumContinues(r4, 8, y);
    var r5 := GetNum(r4, 8).1;
    NumContinues(r5, 8, y);
    var r6 := GetNum(r5, 8).1;
    NumContinues(r6, 8, y);
  }

  function PutThresholds(v: Thresholds, tail: seq<byte>): seq<byte> {
    Num(v.low, 8, Num(v.high, 8, Num(v.maxBytes, 8, Num(v.maxPackets, 8, Signed(v.staleAfter, tail)))))
  }

  function GetThresholds(r0: Rest): (Thresholds, Rest) {
    var (low, r1) := GetNum(r0, 8);
    var (high, r2) := GetNum(r1, 8);
    var (maxBytes, r3) := GetNum(r2, 8);
    var (maxPackets, r4) := GetNum(r3, 8);
    var (staleAfter, r5) := GetSigned(r4);
    (Thresholds(low, high, maxBytes, maxPackets, staleAfter), r5)
  }

  predicate ThresholdsInRange(v: Thresholds) {
    v.low < U64 && v.high < U64 && v.maxBytes < U64 && v.maxPackets < U64 && IsSigned(v.staleAfter)
  }

  lemma ThresholdsRead(v: Thresholds, tail: seq<byte>)
    requires ThresholdsInRange(v)
    ensures GetThresholds(Some(PutThresholds(v, tail))) == (v, Some(tail))
  {
    hide GetNum, GetSigned, Num, Signed;
    var t5 := tail;
    SignedRead(v.staleAfter, t5);
    var t4 := Signed(v.staleAfter, t5);
    WordRead(v.maxPackets, t4);
    var t3 := Num(v.maxPackets, 8, t4);
    WordRead(v.maxBytes, t3);
    var t2 := Num(v.maxBytes, 8, t3);
    WordRead(v.high, t2);
    var t1 := Num(v.high, 8, t2);
    WordRead(v.low, t1);
  }

  lemma ThresholdsContinues(r: Rest, y: seq<byte>)
    ensures Continues(GetThresholds(r), GetThresholds(More(r, y)), y) && (r.None? ==> GetThresholds(r).1.None?)
  {
    hide GetNum, GetSigned;
    var r0 := r;
    NumContinues(r0, 8, y);
    var r1 := GetNum(r0, 8).1;
    NumContinues(r1, 8, y);
    var r2 := GetNum(r1, 8).1;
    NumContinues(r2, 8, y);
    var r3 := GetNum(r2, 8).1;
    NumContinues(r3, 8, y);
    var r4 := GetNum(r3, 8).1;
    SignedContinues(r4, y);
  }

  function PutBinding(v: ClassBinding, tail: seq<byte>): seq<byte> {
    Num(v.id, 8, Num(v.generation, 8, tail))
  }

  function GetBinding(r0: Rest): (ClassBinding, Rest) {
    var (id, r1) := GetNum(r0, 8);
    var (generation, r2) := GetNum(r1, 8);
    (ClassBinding(id, generation), r2)
  }

  predicate BindingInRange(v: ClassBinding) {
    v.id < U64 && v.generation < U64
  }

  lemma BindingRead(v: ClassBinding, tail: seq<byte>)
    requires BindingInRange(v)
    ensures GetBinding(Some(PutBinding(v, tail))) == (v, Some(tail))
  {
    hide GetNum, Num;
    var t2 := tail;
    WordRead(v.generation, t2);
    var t1 := Num(v.generation, 8, t2);
    WordRead(v.id, t1);
  }

  lemma BindingContinues(r: Rest, y: seq<byte>)
    ensures Continues(GetBinding(r), GetBinding(More(r, y)), y) && (r.None? ==> GetBinding(r).1.None?)
  {
    hide GetNum;
    var r0 := r;
    NumContinues(r0, 8, y);
    var r1 := GetNum(r0, 8).1;
    NumContinues(r1, 8, y);
  }

  function PutPoolRef(v: PoolRef, tail: seq<byte>): seq<byte> {
    Num(v.id, 8, Num(v.generation, 8, Num(v.capacity, 8, tail)))
  }

  function GetPoolRef(r0: Rest): (PoolRef, Rest) {
    var (id, r1) := GetNum(r0, 8);
    var (generation, r2) := GetNum(r1, 8);
    var (capacity, r3) := GetNum(r2, 8);
    (PoolRef(id, generation, capacity), r3)
  }

  predicate PoolRefInRange(v: PoolRef) {
    v.id < U64 && v.generation < U64 && v.capacity < U64
  }

  lemma PoolRefRead(v: PoolRef, tail: seq<byte>)
    requires PoolRefInRange(v)
    ensures GetPoolRef(Some(PutPoolRef(v, tail))) == (v, Some(tail))
  {
    hide GetNum, Num;
    var t3 := tail;
    WordRead(v.capacity, t3);
    var t2 := Num(v.capacity, 8, t3);
    WordRead(v.generation, t2);
    var t1 := Num(v.generation, 8, t2);
    WordRead(v.id, t1);
  }

  lemma PoolRefContinues(r: Rest, y: seq<byte>)
    ensures Continues(GetPoolRef(r), GetPoolRef(More(r, y)), y) && (r.None? ==> GetPoolRef(r).1.None?)
  {
    hide GetNum;
    var r0 := r;
    NumContinues(r0, 8, y);
    var r1 := GetNum(r0, 8).1;
    NumContinues(r1, 8, y);
    var r2 := GetNum(r1, 8).1;
    NumContinues(r2, 8, y);
  }

  function PutSample(v: Sample, tail: seq<byte>): seq<byte> {
    Num(v.queue, 8, Num(v.generation, 8, Num(v.bytes, 8, Num(v.packets, 8, Num(v.epoch, 8, Num(v.sequence, 8,
      Signed(v.observedAt, PutProvenance(v.provenance, tail))))))))
  }

  function GetSample(r0: Rest): (Sample, Rest) {
    var (queue, r1) := GetNum(r0, 8);
    var (generation, r2) := GetNum(r1, 8);
    var (bytes, r3) := GetNum(r2, 8);
    var (packets, r4) := GetNum(r3, 8);
    var (epoch, r5) := GetNum(r4, 8);
    var (sequence, r6) := GetNum(r5, 8);
    var (observedAt, r7) := GetSigned(r6);
    var (provenance, r8) := GetProvenance(r7);
    (Sample(queue, generation, bytes, packets, epoch, sequence, observedAt, provenance), r8)
  }

  predicate SampleInRange(v: Sample) {
    && v.queue < U64 && v.generation < U64 && v.bytes < U64 && v.packets < U64 && v.epoch < U64 && v.sequence < U64
    && IsSigned(v.observedAt) && ProvenanceInRange(v.provenance)
  }

  lemma SampleRead(v: Sample, tail: seq<byte>)
    requires SampleInRange(v)
    ensures GetSample(Some(PutSample(v, tail))) == (v, Some(tail))
  {
    hide GetNum, GetProvenance, GetSigned, Num, PutProvenance, Signed;
    var t8 := tail;
    ProvenanceRead(v.provenance, t8);
    var t7 := PutProvenance(v.provenance, t8);
    SignedRead(v.observedAt, t7);
    var t6 := Signed(v.observedAt, t7);
    WordRead(v.sequence, t6);
    var t5 := Num(v.sequence, 8, t6);
    WordRead(v.epoch, t5);
    var t4 := Num(v.epoch, 8, t5);
    WordRead(v.packets, t4);
    var t3 := Num(v.packets, 8, t4);
    WordRead(v.bytes, t3);
    var t2 := Num(v.bytes, 8, t3);
    WordRead(v.generation, t2);
    var t1 := Num(v.generation, 8, t2);
    WordRead(v.queue, t1);
  }

  lemma SampleContinues(r: Rest, y: seq<byte>)
    ensures Continues(GetSample(r), GetSample(More(r, y)), y) && (r.None? ==> GetSample(r).1.None?)
  {
    hide GetNum, GetProvenance, GetSigned;
    var r0 := r;
    NumContinues(r0, 8, y);
    var r1 := GetNum(r0, 8).1;
    NumContinues(r1, 8, y);
    var r2 := GetNum(r1, 8).1;
    NumContinues(r2, 8, y);
    var r3 := GetNum(r2, 8).1;
    NumContinues(r3, 8, y);
    var r4 := GetNum(r3, 8).1;
    NumContinues(r4, 8, y);
    var r5 := GetNum(r4, 8).1;
    NumContinues(r5, 8, y);
    var r6 := GetNum(r5, 8).1;
    SignedContinues(r6, y);
    var r7 := GetSigned(r6).1;
    ProvenanceContinues(r7, y);
  }

  function PutObservation(v: Observation, tail: seq<byte>): seq<byte> {
    Flag(v.accepted, Flag(v.drained, Num(v.backend, 8, Num(v.incarnation, 8, Num(v.epoch, 8, Num(v.sequence, 8,
      Signed(v.observedAt, tail)))))))
  }

  function GetObservation(r0: Rest): (Observation, Rest) {
    var (accepted, r1) := GetFlag(r0);
    var (drained, r2) := GetFlag(r1);
    var (backend, r3) := GetNum(r2, 8);
    var (incarnation, r4) := GetNum(r3, 8);
    var (epoch, r5) := GetNum(r4, 8);
    var (sequence, r6) := GetNum(r5, 8);
    var (observedAt, r7) := GetSigned(r6);
    (Observation(accepted, drained, backend, incarnation, epoch, sequence, observedAt), r7)
  }

  predicate ObservationInRange(v: Observation) {
    v.backend < U64 && v.incarnation < U64 && v.epoch < U64 && v.sequence < U64 && IsSigned(v.observedAt)
  }

  lemma ObservationRead(v: Observation, tail: seq<byte>)
    requires ObservationInRange(v)
    ensures GetObservation(Some(PutObservation(v, tail))) == (v, Some(tail))
  {
    hide Flag, GetFlag, GetNum, GetSigned, Num, Signed;
    var t7 := tail;
    SignedRead(v.observedAt, t7);
    var t6 := Signed(v.observedAt, t7);
    WordRead(v.sequence, t6);
    var t5 := Num(v.sequence, 8, t6);
    WordRead(v.epoch, t5);
    var t4 := Num(v.epoch, 8, t5);
    WordRead(v.incarnation, t4);
    var t3 := Num(v.incarnation, 8, t4);
    WordRead(v.backend, t3);
    var t2 := Num(v.backend, 8, t3);
    FlagRead(v.drained, t2);
    var t1 := Flag(v.drained, t2);
    FlagRead(v.accepted, t1);
  }

  lemma ObservationContinues(r: Rest, y: seq<byte>)
    ensures Continues(GetObservation(r), GetObservation(More(r, y)), y) && (r.None? ==> GetObservation(r).1.None?)
  {
    hide GetFlag, GetNum, GetSigned;
    var r0 := r;
    FlagContinues(r0, y);
    var r1 := GetFlag(r0).1;
    FlagContinues(r1, y);
    var r2 := GetFlag(r1).1;
    NumContinues(r2, 8, y);
    var r3 := GetNum(r2, 8).1;
    NumContinues(r3, 8, y);
    var r4 := GetNum(r3, 8).1;
    NumContinues(r4, 8, y);
    var r5 := GetNum(r4, 8).1;
    NumContinues(r5, 8, y);
    var r6 := GetNum(r5, 8).1;
    SignedContinues(r6, y);
  }

  function PutApplied(v: Applied, tail: seq<byte>): seq<byte> {
    Flag(v.known, Num(v.backend, 8, Num(v.incarnation, 8, Num(v.epoch, 8, Num(v.sequence, 8, Signed(v.appliedAt,
      PutBinding(v.cls, Num(v.generation, 8, Num(v.high, 8, Num(v.maxBytes, 8, tail))))))))))
  }

  function GetApplied(r0: Rest): (Applied, Rest) {
    var (known, r1) := GetFlag(r0);
    var (backend, r2) := GetNum(r1, 8);
    var (incarnation, r3) := GetNum(r2, 8);
    var (epoch, r4) := GetNum(r3, 8);
    var (sequence, r5) := GetNum(r4, 8);
    var (appliedAt, r6) := GetSigned(r5);
    var (cls, r7) := GetBinding(r6);
    var (generation, r8) := GetNum(r7, 8);
    var (high, r9) := GetNum(r8, 8);
    var (maxBytes, r10) := GetNum(r9, 8);
    (Applied(known, backend, incarnation, epoch, sequence, appliedAt, cls, generation, high, maxBytes), r10)
  }

  predicate AppliedInRange(v: Applied) {
    && v.backend < U64 && v.incarnation < U64 && v.epoch < U64 && v.sequence < U64 && IsSigned(v.appliedAt)
    && BindingInRange(v.cls) && v.generation < U64 && v.high < U64 && v.maxBytes < U64
  }

  lemma AppliedRead(v: Applied, tail: seq<byte>)
    requires AppliedInRange(v)
    ensures GetApplied(Some(PutApplied(v, tail))) == (v, Some(tail))
  {
    hide Flag, GetBinding, GetFlag, GetNum, GetSigned, Num, PutBinding, Signed;
    var t10 := tail;
    WordRead(v.maxBytes, t10);
    var t9 := Num(v.maxBytes, 8, t10);
    WordRead(v.high, t9);
    var t8 := Num(v.high, 8, t9);
    WordRead(v.generation, t8);
    var t7 := Num(v.generation, 8, t8);
    BindingRead(v.cls, t7);
    var t6 := PutBinding(v.cls, t7);
    SignedRead(v.appliedAt, t6);
    var t5 := Signed(v.appliedAt, t6);
    WordRead(v.sequence, t5);
    var t4 := Num(v.sequence, 8, t5);
    WordRead(v.epoch, t4);
    var t3 := Num(v.epoch, 8, t4);
    WordRead(v.incarnation, t3);
    var t2 := Num(v.incarnation, 8, t3);
    WordRead(v.backend, t2);
    var t1 := Num(v.backend, 8, t2);
    FlagRead(v.known, t1);
  }

  lemma AppliedContinues(r: Rest, y: seq<byte>)
    ensures Continues(GetApplied(r), GetApplied(More(r, y)), y) && (r.None? ==> GetApplied(r).1.None?)
  {
    hide GetBinding, GetFlag, GetNum, GetSigned;
    var r0 := r;
    FlagContinues(r0, y);
    var r1 := GetFlag(r0).1;
    NumContinues(r1, 8, y);
    var r2 := GetNum(r1, 8).1;
    NumContinues(r2, 8, y);
    var r3 := GetNum(r2, 8).1;
    NumContinues(r3, 8, y);
    var r4 := GetNum(r3, 8).1;
    NumContinues(r4, 8, y);
    var r5 := GetNum(r4, 8).1;
    SignedContinues(r5, y);
    var r6 := GetSigned(r5).1;
    BindingContinues(r6, y);
    var r7 := GetBinding(r6).1;
    NumContinues(r7, 8, y);
    var r8 := GetNum(r7, 8).1;
    NumContinues(r8, 8, y);
    var r9 := GetNum(r8, 8).1;
    NumContinues(r9, 8, y);
  }
  /** Evidence naming more records than allowed is refused when read. */
  function PutEvidence(v: Evidence, tail: seq<byte>): seq<byte> {
    Num(v.records, 4, PutObservation(v.backend,
      Flag(v.zeroObserved, Signed(v.zeroObservedAt, Num(v.zeroSequence, 8, Flag(v.revalidated, tail))))))
  }

  function GetEvidence(r0: Rest): (Evidence, Rest) {
    var (records, r1) := GetNum(r0, 4);
    if r1.None? || records > MAX_EVIDENCE then (NO_EVIDENCE, None)
    else
      var (backend, r2) := GetObservation(r1);
      var (zero, r3) := GetFlag(r2);
      var (zeroAt, r4) := GetSigned(r3);
      var (zeroSequence, r5) := GetNum(r4, 8);
      var (revalidated, r6) := GetFlag(r5);
      (Evidence(records, backend, zero, zeroAt, zeroSequence, revalidated), r6)
  }

  predicate EvidenceInRange(v: Evidence) {
    v.records < U32 && ObservationInRange(v.backend) && IsSigned(v.zeroObservedAt) && v.zeroSequence < U64
  }

  lemma EvidenceRead(v: Evidence, tail: seq<byte>)
    requires EvidenceInRange(v)
    ensures v.records <= MAX_EVIDENCE ==> GetEvidence(Some(PutEvidence(v, tail))) == (v, Some(tail))
    ensures v.records > MAX_EVIDENCE ==> GetEvidence(Some(PutEvidence(v, tail))).1.None?
  {
    hide Num, GetNum, Flag, GetFlag, Signed, GetSigned, PutObservation, GetObservation;
    FlagRead(v.revalidated, tail);
    var t5 := Flag(v.revalidated, tail);
    WordRead(v.zeroSequence, t5);
    var t4 := Num(v.zeroSequence, 8, t5);
    SignedRead(v.zeroObservedAt, t4);
    var t3 := Signed(v.zeroObservedAt, t4);
    FlagRead(v.zeroObserved, t3);
    var t2 := Flag(v.zeroObserved, t3);
    ObservationRead(v.backend, t2);
    Pow2Values();
    NumRead(v.records, 4, PutObservation(v.backend, t2));
  }

  lemma EvidenceContinues(r: Rest, y: seq<byte>)
    ensures Continues(GetEvidence(r), GetEvidence(More(r, y)), y) && (r.None? ==> GetEvidence(r).1.None?)
  {
    hide GetNum, GetFlag, GetSigned, GetObservation;
    NumContinues(r, 4, y);
    var r1 := GetNum(r, 4).1;
    ObservationContinues(r1, y);
    var r2 := GetObservation(r1).1;
    FlagContinues(r2, y);
    var r3 := GetFlag(r2).1;
    SignedContinues(r3, y);
    var r4 := GetSigned(r3).1;
    NumContinues(r4, 8, y);
    FlagContinues(GetNum(r4, 8).1, y);
  }

  // ---- payloads -------------------------------------------------------------

  function TagOf(p: Payload): byte {
    match p
    case NoPayload => 0
    case DeclarePayload(_, _, _, _, _, _) => 1
    case RebindPayload(_) => 2
    case ThresholdsPayload(_) => 3
    case OwnershipPayload(_) => 4
    case OccupancyPayload(_) => 5
    case EvidencePayload(_) => 6
    case FencePayload(_, _) => 7
    case AckPayload(_) => 8
    case RegistrationPayload(_, _, _) => 9
  }

  function PutDeclare(p: Payload, tail: seq<byte>): seq<byte>
    requires p.DeclarePayload?
  {
    Num(p.resource, 8, PutText(p.name, Num(p.depth, 4, PutBinding(p.cls, PutPoolRef(p.pool, PutThresholds(p.thresholds, tail))))))
  }

  function GetDeclare(r0: Rest): (Payload, Rest) {
    var (resource, r1) := GetNum(r0, 8);
    var (name, r2) := GetText(r1, MAX_NAME);
    var (depth, r3) := GetNum(r2, 4);
    var (cls, r4) := GetBinding(r3);
    var (pool, r5) := GetPoolRef(r4);
    var (thresholds, r6) := GetThresholds(r5);
    (DeclarePayload(resource, name, depth, cls, pool, thresholds), r6)
  }

  lemma DeclareRead(p: Payload, tail: seq<byte>)
    requires p.DeclarePayload? && |p.name| <= MAX_NAME && p.resource < U64 && p.depth < U32
    requires BindingInRange(p.cls) && PoolRefInRange(p.pool) && ThresholdsInRange(p.thresholds)
    ensures GetDeclare(Some(PutDeclare(p, tail))) == (p, Some(tail))
  {
    hide Num, GetNum, PutText, GetText, PutBinding, GetBinding, PutPoolRef, GetPoolRef, PutThresholds, GetThresholds;
    ThresholdsRead(p.thresholds, tail);
    var t5 := PutThresholds(p.thresholds, tail);
    PoolRefRead(p.pool, t5);
    var t4 := PutPoolRef(p.pool, t5);
    BindingRead(p.cls, t4);
    var t3 := PutBinding(p.cls, t4);
    Pow2Values();
    NumRead(p.depth, 4, t3);
    var t2 := Num(p.depth, 4, t3);
    TextRead(p.name, MAX_NAME, t2);
    WordRead(p.resource, PutText(p.name, t2));
  }

  lemma DeclareContinues(r: Rest, y: seq<byte>)
    ensures Continues(GetDeclare(r), GetDeclare(More(r, y)), y) && (r.None? ==> GetDeclare(r).1.None?)
  {
    hide GetNum, GetText, GetBinding, GetPoolRef, GetThresholds;
    NumContinues(r, 8, y);
    var r1 := GetNum(r, 8).1;
    TextContinues(r1, MAX_NAME, y);
    var r2 := GetText(r1, MAX_NAME).1;
    NumContinues(r2, 4, y);
    var r3 := GetNum(r2, 4).1;
    BindingContinues(r3, y);
    var r4 := GetBinding(r3).1;
    PoolRefContinues(r4, y);
    ThresholdsContinues(GetPoolRef(r4).1, y);
  }

  function PutFence(p: Payload, tail: seq<byte>): seq<byte>
    requires p.FencePayload?
  {
    Flag(p.fence, PutText(p.reason, tail))
  }

  function GetFence(r0: Rest): (Payload, Rest) {
    var (fence, r1) := GetFlag(r0);
    var (reason, r2) := GetText(r1, MAX_REASON);
    (FencePayload(fence, reason), r2)
  }

  /** Reasons are written up to the length of a name but read back only up to
      the length of a reason. */
  lemma FenceRead(p: Payload, tail: seq<byte>)
    requires p.FencePayload? && |p.reason| < U16
    ensures |p.reason| <= MAX_REASON ==> GetFence(Some(PutFence(p, tail))) == (p, Some(tail))
    ensures |p.reason| > MAX_REASON ==> GetFence(Some(PutFence(p, tail))).1.None?
  {
    hide Flag, GetFlag, PutText, GetText;
    FlagRead(p.fence, PutText(p.reason, tail));
    if |p.reason| <= MAX_REASON {
      TextRead(p.reason, MAX_REASON, tail);
    } else {
      LongTextRefused(p.reason, MAX_REASON, tail);
    }
  }

  lemma FenceContinues(r: Rest, y: seq<byte>)
    ensures Continues(GetFence(r), GetFence(More(r, y)), y) && (r.None? ==> GetFence(r).1.None?)
  {
    hide GetFlag, GetText;
    FlagContinues(r, y);
    TextContinues(GetFlag(r).1, MAX_REASON, y);
  }

  function PutRegistration(p: Payload, tail: seq<byte>): seq<byte>
    requires p.RegistrationPayload?
  {
    Num(p.backend, 8, Num(p.onResource, 8, Num(p.incarnation, 8, tail)))
  }

  function GetRegistration(r0: Rest): (Payload, Rest) {
    var (backend, r1) := GetNum(r0, 8);
    var (resource, r2) := GetNum(r1, 8);
    var (incarnation, r3) := GetNum(r2, 8);
    (RegistrationPayload(backend, resource, incarnation), r3)
  }

  lemma RegistrationRead(p: Payload, tail: seq<byte>)
    requires p.RegistrationPayload? && p.backend < U64 && p.onResource < U64 && p.incarnation < U64
    ensures GetRegistration(Some(PutRegistration(p, tail))) == (p, Some(tail))
  {
    hide Num, GetNum;
    WordRead(p.incarnation, tail);
    WordRead(p.onResource, Num(p.incarnation, 8, tail));
    WordRead(p.backend, Num(p.onResource, 8, Num(p.incarnation, 8, tail)));
  }

  lemma RegistrationContinues(r: Rest, y: seq<byte>)
    ensures Continues(GetRegistration(r), GetRegistration(More(r, y)), y) && (r.None? ==> GetRegistration(r).1.None?)
  {
    hide GetNum;
    NumContinues(r, 8, y);
    NumContinues(GetNum(r, 8).1, 8, y);
    NumContinues(GetNum(GetNum(r, 8).1, 8).1, 8, y);
  }

  function PutPayload(p: Payload, tail: seq<byte>): seq<byte> {
    match p
    case NoPayload => tail
    case DeclarePayload(_, _, _, _, _, _) => PutDeclare(p, tail)
    case RebindPayload(binding) => PutBinding(binding, tail)
    case ThresholdsPayload(limits) => PutThresholds(limits, tail)
    case OwnershipPayload(owner) => Num(owner, 8, tail)
    case OccupancyPayload(sample) => PutSample(sample, tail)
    case EvidencePayload(evidence) => PutEvidence(evidence, tail)
    case FencePayload(_, _) => PutFence(p, tail)
    case AckPayload(applied) => PutApplied(applied, tail)
    case RegistrationPayload(_, _, _) => PutRegistration(p, tail)
  }

  /** The payload a tag announces; an unknown tag fails. */
  function GetPayload(tag: nat, r: Rest): (Payload, Rest) {
    if tag == 0 then (NoPayload, r)
    else if tag == 1 then GetDeclare(r)
    else if tag == 2 then var (v, rest) := GetBinding(r); (RebindPayload(v), rest)
    else if tag == 3 then var (v, rest) := GetThresholds(r); (ThresholdsPayload(v), rest)
    else if tag == 4 then var (v, rest) := GetNum(r, 8); (OwnershipPayload(v), rest)
    else if tag == 5 then var (v, rest) := GetSample(r); (OccupancyPayload(v), rest)
    else if tag == 6 then var (v, rest) := GetEvidence(r); (EvidencePayload(v), rest)
    else if tag == 7 then GetFence(r)
    else if tag == 8 then var (v, rest) := GetApplied(r); (AckPayload(v), rest)
    else if tag == 9 then GetRegistration(r)
    else (NoPayload, None)
  }

  predicate PayloadInRange(p: Payload) {
    match p
    case NoPayload => true
    case DeclarePayload(resource, _, depth, cls, pool, thresholds) =>
      resource < U64 && depth < U32 && BindingInRange(cls) && PoolRefInRange(pool) && ThresholdsInRange(thresholds)
    case RebindPayload(binding) => BindingInRange(binding)
    case ThresholdsPayload(limits) => ThresholdsInRange(limits)
    case OwnershipPayload(owner) => owner < U64
    case OccupancyPayload(sample) => SampleInRange(sample)
    case EvidencePayload(evidence) => EvidenceInRange(evidence)
    case FencePayload(_, _) => true
    case AckPayload(applied) => AppliedInRange(applied)
    case RegistrationPayload(backend, resource, incarnation) => backend < U64 && resource < U64 && incarnation < U64
  }

  lemma PayloadRead(p: Payload, tail: seq<byte>)
    requires PayloadInRange(p) && PayloadEncodable(p)
    ensures PayloadDecodable(p) ==> GetPayload(TagOf(p), Some(PutPayload(p, tail))) == (p, Some(tail))
    ensures !PayloadDecodable(p) ==> GetPayload(TagOf(p), Some(PutPayload(p, tail))).1.None?
  {
    hide Num, GetNum, PutDeclare, GetDeclare, PutBinding, GetBinding, PutThresholds, GetThresholds, PutSample, GetSample, PutEvidence,
      GetEvidence, PutFence, GetFence, PutApplied, GetApplied, PutRegistration, GetRegistration;
    match p
    case NoPayload =>
    case DeclarePayload(_, _, _, _, _, _) => DeclareRead(p, tail);
    case RebindPayload(binding) => BindingRead(binding, tail);
    case ThresholdsPayload(limits) => ThresholdsRead(limits, tail);
    case OwnershipPayload(owner) => WordRead(owner, tail);
    case OccupancyPayload(sample) => SampleRead(sample, tail);
    case EvidencePayload(evidence) => EvidenceRead(evidence, tail);
    case FencePayload(_, _) => FenceRead(p, tail);
    case AckPayload(applied) => AppliedRead(applied, tail);
    case RegistrationPayload(_, _, _) => RegistrationRead(p, tail);
  }

  lemma PayloadContinues(tag: nat, r: Rest, y: seq<byte>)
    ensures Continues(GetPayload(tag, r), GetPayload(tag, More(r, y)), y) && (r.None? ==> GetPayload(tag, r).1.None?)
  {
    hide GetNum, GetDeclare, GetBinding, GetThresholds, GetSample, GetEvidence, GetFence, GetApplied, GetRegistration;
    if tag == 1 {
      DeclareContinues(r, y);
    } else if tag == 2 {
      BindingContinues(r, y);
    } else if tag == 3 {
      ThresholdsContinues(r, y);
    } else if tag == 4 {
      NumContinues(r, 8, y);
    } else if tag == 5 {
      SampleContinues(r, y);
    } else if tag == 6 {
      EvidenceContinues(r, y);
    } else if tag == 7 {
      FenceContinues(r, y);
    } else if tag == 8 {
      AppliedContinues(r, y);
    } else if tag == 9 {
      RegistrationContinues(r, y);
    }
  }

  // ---- mutations ------------------------------------------------------------

  const KINDS: seq<Kind> := [
    NoKind, DeclareQueue, ValidateQueue, ActivateQueue, RebindClass, SetThresholds, TransferOwnership, IngestOccupancy, RequestDrain,
    CancelDrain, SubmitDrainEvidence, QuiesceQueue, FenceQueue, UnfenceQueue, FailQueue, RetireQueue, AcknowledgeBackend, RegisterBackend, NoOp]

  function KindOf(code: nat): Kind {
    if code < |KINDS| then KINDS[code] else UnknownKind(code)
  }

  function CodeOfKind(k: Kind): nat {
    match k
    case NoKind => 0
    case DeclareQueue => 1
    case ValidateQueue => 2
    case ActivateQueue => 3
    case RebindClass => 4
    case SetThresholds => 5
    case TransferOwnership => 6
    case IngestOccupancy => 7
    case RequestDrain => 8
    case CancelDrain => 9
    case SubmitDrainEvidence => 10
    case QuiesceQueue => 11
    case FenceQueue => 12
    case UnfenceQueue => 13
    case FailQueue => 14
    case RetireQueue => 15
    case AcknowledgeBackend => 16
    case RegisterBackend => 17
    case NoOp => 18
    case UnknownKind(code) => code
  }

  predicate KindInRange(k: Kind) {
    k.UnknownKind? ==> |KINDS| <= k.code < U16
  }

  lemma KindRead(k: Kind)
    requires KindInRange(k)
    ensures CodeOfKind(k) < U16 && KindOf(CodeOfKind(k)) == k
  {
  }

  function PutHead(r: Request, tail: seq<byte>): seq<byte> {
    PutAttempt(r.attempt, Num(CodeOfKind(r.kind), 2, Num(r.queue, 8, Num(r.expectedGeneration, 8, Num(r.expectedEpoch, 8, Num(r.principal, 8,
      PutProvenance(r.provenance, Num(TagOf(r.payload), 1, tail))))))))
  }

  /** A request still without its payload, and the payload's tag. */
  function GetHead(r0: Rest): ((Request, nat), Rest) {
    var (attempt, r1) := GetAttempt(r0);
    var (kind, r2) := GetNum(r1, 2);
    var (queue, r3) := GetNum(r2, 8);
    var (generation, r4) := GetNum(r3, 8);
    var (epoch, r5) := GetNum(r4, 8);
    var (principal, r6) := GetNum(r5, 8);
    var (provenance, r7) := GetProvenance(r6);
    var (tag, r8) := GetNum(r7, 1);
    ((Request(attempt, KindOf(kind), queue, generation, epoch, principal, provenance, NoPayload), tag), r8)
  }

  predicate HeadInRange(r: Request) {
    && AttemptInRange(r.attempt) && KindInRange(r.kind) && r.queue < U64 && r.expectedGeneration < U64 && r.expectedEpoch < U64
    && r.principal < U64 && ProvenanceInRange(r.provenance)
  }

  lemma HeadRead(r: Request, tail: seq<byte>)
    requires HeadInRange(r)
    ensures GetHead(Some(PutHead(r, tail))) == ((r.(payload := NoPayload), TagOf(r.payload)), Some(tail))
  {
    hide Num, GetNum, PutAttempt, GetAttempt, PutProvenance, GetProvenance, KindOf, CodeOfKind;
    Pow2Values();
    KindRead(r.kind);
    NumRead(TagOf(r.payload), 1, tail);
    var t7 := Num(TagOf(r.payload), 1, tail);
    ProvenanceRead(r.provenance, t7);
    var t6 := PutProvenance(r.provenance, t7);
    WordRead(r.principal, t6);
    var t5 := Num(r.principal, 8, t6);
    WordRead(r.expectedEpoch, t5);
    var t4 := Num(r.expectedEpoch, 8, t5);
    WordRead(r.expectedGeneration, t4);
    var t3 := Num(r.expectedGeneration, 8, t4);
    WordRead(r.queue, t3);
    var t2 := Num(r.queue, 8, t3);
    NumRead(CodeOfKind(r.kind), 2, t2);
    AttemptRead(r.attempt, Num(CodeOfKind(r.kind), 2, t2));
  }

  lemma HeadContinues(r: Rest, y: seq<byte>)
    ensures Continues(GetHead(r), GetHead(More(r, y)), y) && (r.None? ==> GetHead(r).1.None?)
  {
    hide GetNum, GetAttempt, GetProvenance, KindOf;
    AttemptContinues(r, y);
    var r1 := GetAttempt(r).1;
    NumContinues(r1, 2, y);
    var r2 := GetNum(r1, 2).1;
    NumContinues(r2, 8, y);
    var r3 := GetNum(r2, 8).1;
    NumContinues(r3, 8, y);
    var r4 := GetNum(r3, 8).1;
    NumContinues(r4, 8, y);
    var r5 := GetNum(r4, 8).1;
    NumContinues(r5, 8, y);
    var r6 := GetNum(r5, 8).1;
    ProvenanceContinues(r6, y);
    NumContinues(GetProvenance(r6).1, 1, y);
  }

  /** The encoding of a request, empty when a text is too long to be written. */
  function Encode(r: Request): seq<byte> {
    if PayloadEncodable(r.payload) then PutHead(r, PutPayload(r.payload, [])) else []
  }

  /** A request is read back only if every read succeeds and no byte is left. */
  function Decode(data: seq<byte>): Option<Request> {
    var ((head, tag), r) := GetHead(Some(data));
    var (payload, rest) := GetPayload(tag, r);
    if r.None? || rest.None? || rest.value != [] then None else Some(head.(payload := payload))
  }

  predicate InRange(r: Request) {
    HeadInRange(r) && PayloadInRange(r.payload)
  }

  /** Decoding gives back exactly the requests whose texts and evidence respect
      the reader's bounds, and refuses the encoding of any other. */
  lemma RoundTrip(r: Request)
    requires InRange(r) && Encodable(r)
    ensures Decode(Encode(r)) == if Decodable(r) then Some(r) else None
  {
    hide PutHead, GetHead, PutPayload, GetPayload, HeadInRange, PayloadInRange;
    HeadRead(r, PutPayload(r.payload, []));
    PayloadRead(r.payload, []);
  }

  /** Reading from the front of what decodes leaves something to read. */
  lemma Follow(p: seq<byte>, q: seq<byte>)
    requires Decode(p).Some?
    ensures q != [] ==> Decode(p + q).None?
  {
    hide GetHead, GetPayload;
    HeadContinues(Some(p), q);
    var ((head, tag), r) := GetHead(Some(p));
    PayloadContinues(tag, r, q);
  }

  /** No proper prefix and no proper extension of an encoding is accepted. */
  lemma PrefixSafe(r: Request, n: nat, more: seq<byte>)
    requires InRange(r) && Decodable(r)
    ensures n < |Encode(r)| ==> Decode(Encode(r)[..n]).None?
    ensures more != [] ==> Decode(Encode(r) + more).None?
  {
    hide Decode, Encode, InRange;
    DecodableEncodes(r);
    RoundTrip(r);
    Follow(Encode(r), more);
    if n < |Encode(r)| {
      assert Encode(r)[..n] + Encode(r)[n..] == Encode(r);
      if Decode(Encode(r)[..n]).Some? {
        Follow(Encode(r)[..n], Encode(r)[n..]);
      }
    }
  }

  lemma DecodableEncodes(r: Request)
    requires Decodable(r)
    ensures Encodable(r)
  {
  }

  /** Reasons tell encodings apart also where the reader refuses them. */
  lemma FenceInjective(p: Payload, q: Payload)
    requires p.FencePayload? && q.FencePayload? && |p.reason| <= MAX_NAME && |q.reason| <= MAX_NAME && PutFence(p, []) == PutFence(q, [])
    ensures p == q
  {
    hide Flag, GetFlag, PutText, GetText;
    FlagRead(p.fence, PutText(p.reason, []));
    FlagRead(q.fence, PutText(q.reason, []));
    TextRead(p.reason, MAX_NAME, []);
    TextRead(q.reason, MAX_NAME, []);
  }

  /** What follows the record count. */
  function Findings(v: Evidence): seq<byte> {
    PutObservation(v.backend, Flag(v.zeroObserved, Signed(v.zeroObservedAt, Num(v.zeroSequence, 8, Flag(v.revalidated, [])))))
  }

  lemma EvidenceInjective(v: Evidence, w: Evidence)
    requires EvidenceInRange(v) && EvidenceInRange(w) && PutEvidence(v, []) == PutEvidence(w, [])
    ensures v == w
  {
    hide Num, GetNum, Flag, Signed, PutObservation, GetEvidence, ObservationInRange;
    Pow2Values();
    NumRead(v.records, 4, Findings(v));
    NumRead(w.records, 4, Findings(w));
    assert Findings(v) == Findings(w);
    EvidenceRead(v.(records := 0), []);
    EvidenceRead(w.(records := 0), []);
  }

  lemma PayloadInjective(p: Payload, q: Payload)
    requires PayloadInRange(p) && PayloadInRange(q) && PayloadEncodable(p) && PayloadEncodable(q)
    requires TagOf(p) == TagOf(q) && PutPayload(p, []) == PutPayload(q, [])
    ensures p == q
  {
    hide GetPayload, PutDeclare, PutBinding, PutThresholds, PutSample, PutEvidence, PutFence, PutApplied, PutRegistration, Num;
    if p.FencePayload? {
      FenceInjective(p, q);
    } else if p.EvidencePayload? {
      EvidenceInjective(p.evidence, q.evidence);
    } else {
      PayloadRead(p, []);
      PayloadRead(q, []);
    }
  }

  /** Two requests that are written never share an encoding, whether or not it
      can be read back. */
  lemma EncodingInjective(r: Request, s: Request)
    requires InRange(r) && InRange(s) && Encodable(r) && Encodable(s) && Encode(r) == Encode(s)
    ensures r == s
  {
    hide PutHead, GetHead, PutPayload, HeadInRange, PayloadInRange, PayloadEncodable;
    HeadRead(r, PutPayload(r.payload, []));
    HeadRead(s, PutPayload(s.payload, []));
    PayloadInjective(r.payload, s.payload);
  }
}
