/** The byte writer and reader, each latching its first failure, and the mutation
    codec written with them. */
module ByteStreams {
  import opened Words
  import opened Entities
  import opened Mutations
  import Codec

  const MAX_BUFFER: nat := 0x10_0000

  /** What a writer holds, or nothing once it has failed. */
  type Buffer = Option<seq<byte>>

  function Append(b: Buffer, data: seq<byte>, limit: nat): Buffer {
    if b.None? || |b.value| + |data| > limit then None else Some(b.value + data)
  }

  /** Writing in pieces is writing at once. */
  lemma AppendTwice(b: Buffer, x: seq<byte>, y: seq<byte>, limit: nat)
    ensures Append(Append(b, x, limit), y, limit) == Append(b, x + y, limit)
  {
    if b.Some? {
      assert b.value + x + y == b.value + (x + y);
    }
  }

  // ---- writing --------------------------------------------------------------

  class ByteWriter {
    var buffer: seq<byte>
    var failed: bool
    const limit: nat

    ghost predicate Valid()
      reads this
    {
      |buffer| <= limit
    }

    ghost function Written(): Buffer
      reads this
    {
      if failed then None else Some(buffer)
    }

    constructor (limit: nat)
      ensures Valid() && Written() == Some([]) && this.limit == limit
    {
      this.limit := limit;
      buffer := [];
      failed := false;
    }

    /** The first write that does not fit fails the writer for good. */
    method PutRaw(data: seq<byte>)
      requires Valid()
      modifies this
      ensures Valid() && Written() == Append(old(Written()), data, limit)
    {
      if !failed {
        if |data| > limit || |buffer| > limit - |data| {
          failed := true;
        } else {
          buffer := buffer + data;
        }
      }
    }

    /** Little-endian, one byte at a time. */
    method PutNum(v: nat, width: nat)
      requires Valid()
      modifies this
      ensures Valid() && (old(failed) ==> failed)
      ensures forall tail :: Append(Written(), tail, limit) == Append(old(Written()), Codec.Num(v, width, tail), limit)
    {
      var raw: seq<byte> := [];
      var rest := v;
      for i := 0 to width
        invariant raw + Layout(rest, width - i) == Layout(v, width)
        invariant Valid() && Written() == old(Written()) && failed == old(failed)
      {
        raw := raw + [rest % 256];
        rest := rest / 256;
      }
      assert raw == Layout(v, width);
      PutBytes(raw);
    }

    method PutFlag(b: bool)
      requires Valid()
      modifies this
      ensures Valid() && (old(failed) ==> failed)
      ensures forall tail :: Append(Written(), tail, limit) == Append(old(Written()), Codec.Flag(b, tail), limit)
    {
      PutNum(if b then 1 else 0, 1);
    }

    method PutSigned(v: int)
      requires Valid() && Codec.IsSigned(v)
      modifies this
      ensures Valid() && (old(failed) ==> failed)
      ensures forall tail :: Append(Written(), tail, limit) == Append(old(Written()), Codec.Signed(v, tail), limit)
    {
      PutNum(Codec.Unsigned(v), 8);
    }

    method PutBytes(t: seq<byte>)
      requires Valid()
      modifies this
      ensures Valid() && (old(failed) ==> failed)
      ensures forall tail :: Append(Written(), tail, limit) == Append(old(Written()), t + tail, limit)
    {
      ghost var w := Written();
      PutRaw(t);
      forall tail ensures Append(Written(), tail, limit) == Append(w, t + tail, limit) {
        AppendTwice(w, t, tail, limit);
      }
    }

    /** A text longer than a name fails the writer. */
    method PutText(t: Text)
      requires Valid()
      modifies this
      ensures Valid() && (old(failed) ==> failed) && (|t| > MAX_NAME ==> failed)
      ensures |t| <= MAX_NAME ==>
        forall tail :: Append(Written(), tail, limit) == Append(old(Written()), Codec.PutText(t, tail), limit)
    {
      hide Append, Codec.Num;
      if |t| > MAX_NAME {
        failed := true;
      } else {
        PutNum(|t|, 2);
        PutBytes(t);
      }
    }

    method PutAttempt(v: Attempt)
      requires Valid() && Codec.AttemptInRange(v)
      modifies this
      ensures Valid() && (old(failed) ==> failed)
      ensures forall tail :: Append(Written(), tail, limit) == Append(old(Written()), Codec.PutAttempt(v, tail), limit)
    {
      hide Append, Codec.Num;
      PutNum(v.publisher, 8);
      PutNum(v.counter, 8);
    }

    method PutProvenance(v: Provenance)
      requires Valid() && Codec.ProvenanceInRange(v)
      modifies this
      ensures Valid() && (old(failed) ==> failed)
      ensures forall tail :: Append(Written(), tail, limit) == Append(old(Written()), Codec.PutProvenance(v, tail), limit)
    {
      hide Append, Codec.Num;
      PutNum(v.publisher, 8);
      PutNum(v.node, 8);
      PutNum(v.incarnation, 8);
      PutNum(v.epoch, 8);
      PutNum(v.sequence, 8);
      PutNum(v.boot.hi, 8);
      PutNum(v.boot.lo, 8);
    }

    method PutThresholds(v: Thresholds)
      requires Valid() && Codec.ThresholdsInRange(v)
      modifies this
      ensures Valid() && (old(failed) ==> failed)
      ensures forall tail :: Append(Written(), tail, limit) == Append(old(Written()), Codec.PutThresholds(v, tail), limit)
    {
      hide Append, Codec.Num, Codec.Signed;
      PutNum(v.low, 8);
      PutNum(v.high, 8);
      PutNum(v.maxBytes, 8);
      PutNum(v.maxPackets, 8);
      PutSigned(v.staleAfter);
    }

    method PutBinding(v: ClassBinding)
      requires Valid() && Codec.BindingInRange(v)
      modifies this
      ensures Valid() && (old(failed) ==> failed)
      ensures forall tail :: Append(Written(), tail, limit) == Append(old(Written()), Codec.PutBinding(v, tail), limit)
    {
      hide Append, Codec.Num;
      PutNum(v.id, 8);
      PutNum(v.generation, 8);
    }

    method PutPoolRef(v: PoolRef)
      requires Valid() && Codec.PoolRefInRange(v)
      modifies this
      ensures Valid() && (old(failed) ==> failed)
      ensures forall tail :: Append(Written(), tail, limit) == Append(old(Written()), Codec.PutPoolRef(v, tail), limit)
    {
      hide Append, Codec.Num;
      PutNum(v.id, 8);
      PutNum(v.generation, 8);
      PutNum(v.capacity, 8);
    }

    method PutSample(v: Sample)
      requires Valid() && Codec.SampleInRange(v)
      modifies this
      ensures Valid() && (old(failed) ==> failed)
      ensures forall tail :: Append(Written(), tail, limit) == Append(old(Written()), Codec.PutSample(v, tail), limit)
    {
      hide Append, Codec.Num, Codec.Signed, Codec.PutProvenance;
      PutNum(v.queue, 8);
      PutNum(v.generation, 8);
      PutNum(v.bytes, 8);
      PutNum(v.packets, 8);
      PutNum(v.epoch, 8);
      PutNum(v.sequence, 8);
      PutSigned(v.observedAt);
      PutProvenance(v.provenance);
    }

    method PutObservation(v: Observation)
      requires Valid() && Codec.ObservationInRange(v)
      modifies this
      ensures Valid() && (old(failed) ==> failed)
      ensures forall tail :: Append(Written(), tail, limit) == Append(old(Written()), Codec.PutObservation(v, tail), limit)
    {
      hide Append, Codec.Flag, Codec.Num, Codec.Signed;
      PutFlag(v.accepted);
      PutFlag(v.drained);
      PutNum(v.backend, 8);
      PutNum(v.incarnation, 8);
      PutNum(v.epoch, 8);
      PutNum(v.sequence, 8);
      PutSigned(v.observedAt);
    }

    method PutApplied(v: Applied)
      requires Valid() && Codec.AppliedInRange(v)
      modifies this
      ensures Valid() && (old(failed) ==> failed)
      ensures forall tail :: Append(Written(), tail, limit) == Append(old(Written()), Codec.PutApplied(v, tail), limit)
    {
      hide Append, Codec.Flag, Codec.Num, Codec.Signed, Codec.PutBinding;
      PutFlag(v.known);
      PutNum(v.backend, 8);
      PutNum(v.incarnation, 8);
      PutNum(v.epoch, 8);
      PutNum(v.sequence, 8);
      PutSigned(v.appliedAt);
      PutBinding(v.cls);
      PutNum(v.generation, 8);
      PutNum(v.high, 8);
      PutNum(v.maxBytes, 8);
    }

    method PutEvidence(v: Evidence)
      requires Valid() && Codec.EvidenceInRange(v)
      modifies this
      ensures Valid() && (old(failed) ==> failed)
      ensures forall tail :: Append(Written(), tail, limit) == Append(old(Written()), Codec.PutEvidence(v, tail), limit)
    {
      hide Append, Codec.Num, Codec.PutObservation, Codec.Flag, Codec.Signed;
      PutNum(v.records, 4);
      PutObservation(v.backend);
      PutFlag(v.zeroObserved);
      PutSigned(v.zeroObservedAt);
      PutNum(v.zeroSequence, 8);
      PutFlag(v.revalidated);
    }

    method PutDeclare(p: Payload)
      requires Valid() && p.DeclarePayload? && Codec.PayloadInRange(p)
      modifies this
      ensures Valid() && (old(failed) ==> failed) && (|p.name| > MAX_NAME ==> failed)
      ensures |p.name| <= MAX_NAME ==>
        forall tail :: Append(Written(), tail, limit) == Append(old(Written()), Codec.PutDeclare(p, tail), limit)
    {
      hide Append, Codec.Num, Codec.PutText, Codec.PutBinding, Codec.PutPoolRef, Codec.PutThresholds;
      PutNum(p.resource, 8);
      PutText(p.name);
      PutNum(p.depth, 4);
      PutBinding(p.cls);
      PutPoolRef(p.pool);
      PutThresholds(p.thresholds);
    }

    method PutFence(p: Payload)
      requires Valid() && p.FencePayload?
      modifies this
      ensures Valid() && (old(failed) ==> failed) && (|p.reason| > MAX_NAME ==> failed)
      ensures |p.reason| <= MAX_NAME ==>
        forall tail :: Append(Written(), tail, limit) == Append(old(Written()), Codec.PutFence(p, tail), limit)
    {
      hide Append, Codec.Flag, Codec.PutText;
      PutFlag(p.fence);
      PutText(p.reason);
    }

    method PutRegistration(p: Payload)
      requires Valid() && p.RegistrationPayload?
      modifies this
      ensures Valid() && (old(failed) ==> failed)
      ensures forall tail :: Append(Written(), tail, limit) == Append(old(Written()), Codec.PutRegistration(p, tail), limit)
    {
      hide Append, Codec.Num;
      PutNum(p.backend, 8);
      PutNum(p.onResource, 8);
      PutNum(p.incarnation, 8);
    }

    method PutPayload(p: Payload)
      requires Valid() && Codec.PayloadInRange(p)
      modifies this
      ensures Valid() && (old(failed) ==> failed) && (!PayloadEncodable(p) ==> failed)
      ensures PayloadEncodable(p) ==>
        forall tail :: Append(Written(), tail, limit) == Append(old(Written()), Codec.PutPayload(p, tail), limit)
    {
      hide Append, Codec.Num, Codec.PutDeclare, Codec.PutBinding, Codec.PutThresholds, Codec.PutSample, Codec.PutEvidence, Codec.PutFence,
        Codec.PutApplied, Codec.PutRegistration;
      match p
      case NoPayload =>
      case DeclarePayload(_, _, _, _, _, _) => PutDeclare(p);
      case RebindPayload(binding) => PutBinding(binding);
      case ThresholdsPayload(limits) => PutThresholds(limits);
      case OwnershipPayload(owner) => PutNum(owner, 8);
      case OccupancyPayload(sample) => PutSample(sample);
      case EvidencePayload(evidence) => PutEvidence(evidence);
      case FencePayload(_, _) => PutFence(p);
      case AckPayload(applied) => PutApplied(applied);
      case RegistrationPayload(_, _, _) => PutRegistration(p);
    }

    method PutHead(r: Request)
      requires Valid() && Codec.HeadInRange(r)
      modifies this
      ensures Valid() && (old(failed) ==> failed)
      ensures forall tail :: Append(Written(), tail, limit) == Append(old(Written()), Codec.PutHead(r, tail), limit)
    {
      hide Append, Codec.Num, Codec.PutAttempt, Codec.PutProvenance;
      PutAttempt(r.attempt);
      PutNum(Codec.CodeOfKind(r.kind), 2);
      PutNum(r.queue, 8);
      PutNum(r.expectedGeneration, 8);
      PutNum(r.expectedEpoch, 8);
      PutNum(r.principal, 8);
      PutProvenance(r.provenance);
      PutNum(Codec.TagOf(r.payload), 1);
    }
  }

  lemma AppendToEmpty(data: seq<byte>, limit: nat)
    ensures Append(Some([]), data, limit) == if |data| <= limit then Some(data) else None
  {
    assert [] + data == data;
  }

  /** Encodings are far below the writer's bound. */
  lemma EncodingFits(r: Request)
    requires PayloadEncodable(r.payload)
    ensures |Codec.PutHead(r, Codec.PutPayload(r.payload, []))| <= MAX_BUFFER
  {
    hide Layout;
  }

  /** Encoding writes field by field; a writer that failed yields nothing. */
  method EncodeMutation(r: Request) returns (bytes: seq<byte>)
    requires Codec.InRange(r)
    ensures bytes == Codec.Encode(r)
  {
    hide Codec.PutHead, Codec.PutPayload, Codec.HeadInRange, Codec.PayloadInRange, PayloadEncodable;
    var writer := new ByteWriter(MAX_BUFFER);
    writer.PutHead(r);
    writer.PutPayload(r.payload);
    if PayloadEncodable(r.payload) {
      EncodingFits(r);
      assert Append(writer.Written(), [], MAX_BUFFER) == Append(Some([]), Codec.PutHead(r, Codec.PutPayload(r.payload, [])), MAX_BUFFER);
      AppendToEmpty(Codec.PutHead(r, Codec.PutPayload(r.payload, [])), MAX_BUFFER);
      assert writer.buffer + [] == writer.buffer;
    }
    bytes := if writer.failed then [] else writer.buffer;
  }

  // ---- reading --------------------------------------------------------------

  lemma ValueSnoc(bytes: seq<byte>, b: byte)
    ensures Value(bytes + [b]) == Value(bytes) + Pow2(8 * |bytes|) * b
  {
    ValueConcat(bytes, [b]);
    assert [b][1..] == [];
    assert Value([b]) == b;
  }

  /** The number a little-endian byte string stands for, byte by byte. */
  method Assemble(raw: seq<byte>) returns (value: nat)
    ensures value == Value(raw)
  {
    value := 0;
    var scale: nat := 1;
    for i := 0 to |raw|
      invariant scale == Pow2(8 * i) && value == Value(raw[..i])
    {
      var next: nat := raw[i];
      ValueSnoc(raw[..i], raw[i]);
      assert raw[..i] + [raw[i]] == raw[..i + 1];
      Pow2Add(8 * i, 8);
      Pow2Values();
      value := value + scale * next;
      scale := scale * 256;
    }
    assert raw[..|raw|] == raw;
  }

  class ByteReader {
    const data: seq<byte>
    var position: nat
    var failed: bool

    ghost predicate Valid()
      reads this
    {
      position <= |data|
    }

    ghost function Remaining(): Codec.Rest
      requires Valid()
      reads this
    {
      if failed then None else Some(data[position..])
    }

    constructor (data: seq<byte>)
      ensures Valid() && Remaining() == Some(data) && this.data == data
    {
      this.data := data;
      position := 0;
      failed := false;
    }

    method Ensure(size: nat) returns (enough: bool)
      requires Valid()
      modifies this`failed
      ensures Valid() && enough == (!old(failed) && size <= |data| - position) && failed == !enough
    {
      if failed || size > |data| - position {
        failed := true;
      }
      enough := !failed;
    }

    /** A read past the end gives zero and latches the failure. */
    method GetNum(width: nat) returns (value: nat)
      requires Valid()
      modifies this
      ensures Valid() && (value, Remaining()) == Codec.GetNum(old(Remaining()), width)
    {
      hide Value;
      value := 0;
      var enough := Ensure(width);
      if enough {
        value := Assemble(data[position..position + width]);
        assert data[position..][..width] == data[position..position + width];
        assert data[position..][width..] == data[position + width..];
        position := position + width;
      }
    }

    method GetFlag() returns (b: bool)
      requires Valid()
      modifies this
      ensures Valid() && (b, Remaining()) == Codec.GetFlag(old(Remaining()))
    {
      hide Codec.GetNum;
      var n := GetNum(1);
      b := n != 0;
    }

    method GetSigned() returns (v: int)
      requires Valid()
      modifies this
      ensures Valid() && (v, Remaining()) == Codec.GetSigned(old(Remaining()))
    {
      hide Codec.GetNum;
      var n := GetNum(8);
      v := if n >= 0x8000_0000_0000_0000 then n - U64 else n;
    }

    method GetText(max: nat) returns (t: Text)
      requires Valid()
      modifies this
      ensures Valid() && (t, Remaining()) == Codec.GetText(old(Remaining()), max)
    {
      hide Codec.GetNum;
      t := [];
      var length := GetNum(2);
      if failed || length > max {
        failed := true;
      } else {
        var enough := Ensure(length);
        if enough {
          t := data[position..position + length];
          assert data[position..][..length] == t && data[position..][length..] == data[position + length..];
          position := position + length;
        }
      }
    }

    method GetAttempt() returns (v: Attempt)
      requires Valid()
      modifies this
      ensures Valid() && (v, Remaining()) == Codec.GetAttempt(old(Remaining()))
    {
      hide Codec.GetNum;
      var publisher := GetNum(8);
      var counter := GetNum(8);
      v := Attempt(publisher, counter);
    }

    method GetProvenance() returns (v: Provenance)
      requires Valid()
      modifies this
      ensures Valid() && (v, Remaining()) == Codec.GetProvenance(old(Remaining()))
    {
      hide Codec.GetNum;
      var publisher := GetNum(8);
      var node := GetNum(8);
      var incarnation := GetNum(8);
      var epoch := GetNum(8);
      var sequence := GetNum(8);
      var hi := GetNum(8);
      var lo := GetNum(8);
      v := Provenance(publisher, node, incarnation, epoch, sequence, Boot(hi, lo));
    }

    method GetThresholds() returns (v: Thresholds)
      requires Valid()
      modifies this
      ensures Valid() && (v, Remaining()) == Codec.GetThresholds(old(Remaining()))
    {
      hide Codec.GetNum, Codec.GetSigned;
      var low := GetNum(8);
      var high := GetNum(8);
      var maxBytes := GetNum(8);
      var maxPackets := GetNum(8);
      var staleAfter := GetSigned();
      v := Thresholds(low, high, maxBytes, maxPackets, staleAfter);
    }

    method GetBinding() returns (v: ClassBinding)
      requires Valid()
      modifies this
      ensures Valid() && (v, Remaining()) == Codec.GetBinding(old(Remaining()))
    {
      hide Codec.GetNum;
      var id := GetNum(8);
      var generation := GetNum(8);
      v := ClassBinding(id, generation);
    }

    method GetPoolRef() returns (v: PoolRef)
      requires Valid()
      modifies this
      ensures Valid() && (v, Remaining()) == Codec.GetPoolRef(old(Remaining()))
    {
      hide Codec.GetNum;
      var id := GetNum(8);
      var generation := GetNum(8);
      var capacity := GetNum(8);
      v := PoolRef(id, generation, capacity);
    }

    method GetSample() returns (v: Sample)
      requires Valid()
      modifies this
      ensures Valid() && (v, Remaining()) == Codec.GetSample(old(Remaining()))
    {
      hide Codec.GetNum, Codec.GetSigned, Codec.GetProvenance;
      var queue := GetNum(8);
      var generation := GetNum(8);
      var bytes := GetNum(8);
      var packets := GetNum(8);
      var epoch := GetNum(8);
      var sequence := GetNum(8);
      var observedAt := GetSigned();
      var provenance := GetProvenance();
      v := Sample(queue, generation, bytes, packets, epoch, sequence, observedAt, provenance);
    }

    method GetObservation() returns (v: Observation)
      requires Valid()
      modifies this
      ensures Valid() && (v, Remaining()) == Codec.GetObservation(old(Remaining()))
    {
      hide Codec.GetFlag, Codec.GetNum, Codec.GetSigned;
      var accepted := GetFlag();
      var drained := GetFlag();
      var backend := GetNum(8);
      var incarnation := GetNum(8);
      var epoch := GetNum(8);
      var sequence := GetNum(8);
      var observedAt := GetSigned();
      v := Observation(accepted, drained, backend, incarnation, epoch, sequence, observedAt);
    }

    method GetApplied() returns (v: Applied)
      requires Valid()
      modifies this
      ensures Valid() && (v, Remaining()) == Codec.GetApplied(old(Remaining()))
    {
      hide Codec.GetFlag, Codec.GetNum, Codec.GetSigned, Codec.GetBinding;
      var known := GetFlag();
      var backend := GetNum(8);
      var incarnation := GetNum(8);
      var epoch := GetNum(8);
      var sequence := GetNum(8);
      var appliedAt := GetSigned();
      var cls := GetBinding();
      var generation := GetNum(8);
      var high := GetNum(8);
      var maxBytes := GetNum(8);
      v := Applied(known, backend, incarnation, epoch, sequence, appliedAt, cls, generation, high, maxBytes);
    }

    /** Too many evidence records end the reading at once. */
    method GetEvidence() returns (v: Evidence)
      requires Valid()
      modifies this
      ensures Valid() && (v, Remaining()) == Codec.GetEvidence(old(Remaining()))
    {
      hide Codec.GetNum, Codec.GetObservation, Codec.GetFlag, Codec.GetSigned;
      v := NO_EVIDENCE;
      var records := GetNum(4);
      if failed || records > MAX_EVIDENCE {
        failed := true;
      } else {
        var backend := GetObservation();
        var zero := GetFlag();
        var zeroAt := GetSigned();
        var zeroSequence := GetNum(8);
        var revalidated := GetFlag();
        v := Evidence(records, backend, zero, zeroAt, zeroSequence, revalidated);
      }
    }

    method GetDeclare() returns (p: Payload)
      requires Valid()
      modifies this
      ensures Valid() && (p, Remaining()) == Codec.GetDeclare(old(Remaining()))
    {
      hide Codec.GetNum, Codec.GetText, Codec.GetBinding, Codec.GetPoolRef, Codec.GetThresholds;
      var resource := GetNum(8);
      var name := GetText(MAX_NAME);
      var depth := GetNum(4);
      var cls := GetBinding();
      var pool := GetPoolRef();
      var thresholds := GetThresholds();
      p := DeclarePayload(resource, name, depth, cls, pool, thresholds);
    }

    method GetFence() returns (p: Payload)
      requires Valid()
      modifies this
      ensures Valid() && (p, Remaining()) == Codec.GetFence(old(Remaining()))
    {
      hide Codec.GetFlag, Codec.GetText;
      var fence := GetFlag();
      var reason := GetText(MAX_REASON);
      p := FencePayload(fence, reason);
    }

    method GetRegistration() returns (p: Payload)
      requires Valid()
      modifies this
      ensures Valid() && (p, Remaining()) == Codec.GetRegistration(old(Remaining()))
    {
      hide Codec.GetNum;
      var backend := GetNum(8);
      var resource := GetNum(8);
      var incarnation := GetNum(8);
      p := RegistrationPayload(backend, resource, incarnation);
    }

    method GetPayload(tag: nat) returns (p: Payload)
      requires Valid()
      modifies this
      ensures Valid() && (p, Remaining()) == Codec.GetPayload(tag, old(Remaining()))
    {
      hide Codec.GetNum, Codec.GetDeclare, Codec.GetBinding, Codec.GetThresholds, Codec.GetSample, Codec.GetEvidence, Codec.GetFence,
        Codec.GetApplied, Codec.GetRegistration;
      p := NoPayload;
      if tag == 1 {
        p := GetDeclare();
      } else if tag == 2 {
        var binding := GetBinding();
        p := RebindPayload(binding);
      } else if tag == 3 {
        var limits := GetThresholds();
        p := ThresholdsPayload(limits);
      } else if tag == 4 {
        var owner := GetNum(8);
        p := OwnershipPayload(owner);
      } else if tag == 5 {
        var sample := GetSample();
        p := OccupancyPayload(sample);
      } else if tag == 6 {
        var evidence := GetEvidence();
        p := EvidencePayload(evidence);
      } else if tag == 7 {
        p := GetFence();
      } else if tag == 8 {
        var applied := GetApplied();
        p := AckPayload(applied);
      } else if tag == 9 {
        p := GetRegistration();
      } else if tag != 0 {
        failed := true;
      }
    }

    method GetHead() returns (r: Request, tag: nat)
      requires Valid()
      modifies this
      ensures Valid() && ((r, tag), Remaining()) == Codec.GetHead(old(Remaining()))
    {
      hide Codec.GetNum, Codec.GetAttempt, Codec.GetProvenance;
      var attempt := GetAttempt();
      var kind := GetNum(2);
      var queue := GetNum(8);
      var generation := GetNum(8);
      var epoch := GetNum(8);
      var principal := GetNum(8);
      var provenance := GetProvenance();
      tag := GetNum(1);
      r := Request(attempt, Codec.KindOf(kind), queue, generation, epoch, principal, provenance, NoPayload);
    }
  }

  method DecodeMutation(data: seq<byte>) returns (decoded: Option<Request>)
    ensures decoded == Codec.Decode(data)
  {
    hide Codec.GetHead, Codec.GetPayload;
    var reader := new ByteReader(data);
    var r, tag := reader.GetHead();
    decoded := None;
    if !reader.failed {
      var payload := reader.GetPayload(tag);
      if !reader.failed && |reader.data| - reader.position == 0 {
        decoded := Some(r.(payload := payload));
      }
    }
  }
}
