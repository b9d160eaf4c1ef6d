/** The wire frame codec and its incremental, bounded decoder. */
module Frame {
  import opened Words
  import Crc32c
  import opened Stream
  import opened Status

  const MAGIC: nat := 0x3146_4651
  const VERSION: nat := 1
  const HEADER: nat := 24
  const MAX_PAYLOAD: nat := 0x10_0000

  datatype Frame = Frame(kind: nat, sequence: nat, payload: seq<byte>)

  predicate WellFormed(f: Frame) {
    f.kind < U16 && f.sequence < U32 && |f.payload| < U32
  }

  // ---- layout ---------------------------------------------------------------

  /** The twenty covered header bytes; the encoder writes zero flags, the
      decoder accepts any. */
  function Covered(f: Frame, flags: seq<byte>): (h: seq<byte>)
    requires |flags| == 4
    ensures |h| == 20
  {
    Layout(MAGIC, 4) + Layout(VERSION, 2) + Layout(f.kind, 2) + flags + Layout(f.sequence, 4) +
    Layout(|f.payload|, 4)
  }

  /** A frame laid out with the given flag and reserved bytes. */
  function Assemble(f: Frame, flags: seq<byte>): (out: seq<byte>)
    requires |flags| == 4
    ensures |out| == HEADER + |f.payload|
  {
    Covered(f, flags) + Layout(Crc32c.Checksum(Covered(f, flags) + f.payload), 4) + f.payload
  }

  const NO_FLAGS: seq<byte> := [0, 0, 0, 0]

  /** Encoding refuses an oversized payload with an empty result. */
  method EncodeFrame(table: seq<nat>, f: Frame, maxPayload: nat) returns (out: seq<byte>)
    requires WellFormed(f)
    requires Crc32c.IsTable(table)
    ensures out == if |f.payload| > maxPayload || |f.payload| > MAX_PAYLOAD then [] else Assemble(f, NO_FLAGS)
  {
    if |f.payload| > maxPayload || |f.payload| > MAX_PAYLOAD {
      return [];
    }
    var header := Layout(MAGIC, 4) + Layout(VERSION, 2) + Layout(f.kind, 2) + NO_FLAGS +
    Layout(f.sequence, 4) + Layout(|f.payload|, 4);
    var crc := Crc32c.ExtendByTable(table, 0, header);
    if f.payload != [] {
      Crc32c.ExtendSplit(0, header, f.payload);
      crc := Crc32c.ExtendByTable(table, crc, f.payload);
    } else {
      assert header + f.payload == header;
    }
    out := header + Layout(crc, 4) + f.payload;
  }

  // ---- one decoding step ----------------------------------------------------

  /** What one look at the front of the buffer decides. */
  function DecodeOne(buf: seq<byte>, maxPayload: nat): (r: Step<Frame, Code>)
    ensures r.Got? ==> HEADER <= r.size <= |buf|
    ensures r.Wait? ==> |buf| < HEADER + maxPayload
  {
    if |buf| < HEADER then Wait
    else if Value(buf[..4]) != MAGIC then Refuse(MalformedInput)
    else if Value(buf[4..6]) != VERSION then Refuse(Unsupported)
    else
      var len := Value(buf[16..20]);
      if len > maxPayload then Refuse(CapacityExceeded)
      else if |buf| < HEADER + len then Wait
      else if Value(buf[20..24]) != Crc32c.Extend(Crc32c.Checksum(buf[..20]), buf[24..24 + len]) then
        Refuse(IntegrityFailure)
      else Got(Frame(Value(buf[6..8]), Value(buf[12..16]), buf[24..24 + len]), HEADER + len)
  }

  lemma LayoutValue(bytes: seq<byte>, v: nat)
    requires |bytes| <= 4 && v == Value(bytes)
    ensures Layout(v, |bytes|) == bytes
  {
    LayoutOfValue(bytes);
  }

  lemma FieldWidths(f: Frame)
    requires WellFormed(f)
    ensures Value(Layout(MAGIC, 4)) == MAGIC && Value(Layout(VERSION, 2)) == VERSION
    ensures Value(Layout(f.kind, 2)) == f.kind && Value(Layout(f.sequence, 4)) == f.sequence
    ensures Value(Layout(|f.payload|, 4)) == |f.payload|
  {
    Pow2Values();
    ValueOfLayout(MAGIC, 4);
    ValueOfLayout(VERSION, 2);
    ValueOfLayout(f.kind, 2);
    ValueOfLayout(f.sequence, 4);
    ValueOfLayout(|f.payload|, 4);
  }

  lemma CoveredFields(f: Frame, flags: seq<byte>, h: seq<byte>)
    requires |flags| == 4 && h == Covered(f, flags)
    ensures h[..4] == Layout(MAGIC, 4) && h[4..6] == Layout(VERSION, 2)
    ensures h[6..8] == Layout(f.kind, 2) && h[8..12] == flags
    ensures h[12..16] == Layout(f.sequence, 4) && h[16..20] == Layout(|f.payload|, 4)
  {
  }

  /** An assembled frame at the front of any buffer decodes to that frame. */
  lemma AssembledDecodes(f: Frame, flags: seq<byte>, tail: seq<byte>, maxPayload: nat)
    requires WellFormed(f) && |flags| == 4 && |f.payload| <= maxPayload
    ensures DecodeOne(Assemble(f, flags) + tail, maxPayload) == Got(f, HEADER + |f.payload|)
  {
    var buf, h := Assemble(f, flags) + tail, Covered(f, flags);
    var crc := Crc32c.Checksum(h + f.payload);
    ConcatSlices(h, Layout(crc, 4), f.payload, tail);
    CoveredFields(f, flags, h);
    FieldWidths(f);
    Crc32c.ExtendSplit(0, h, f.payload);
    Pow2Values();
    ValueOfLayout(crc, 4);
  }

  lemma ConcatSlices<T>(h: seq<T>, mid: seq<T>, payload: seq<T>, tail: seq<T>)
    requires |h| == 20 && |mid| == 4
    ensures var buf := h + mid + payload + tail;
            && buf[..20] == h && buf[20..24] == mid && buf[24..24 + |payload|] == payload
            && buf[..4] == h[..4] && buf[4..6] == h[4..6] && buf[6..8] == h[6..8]
            && buf[12..16] == h[12..16] && buf[16..20] == h[16..20]
  {
  }

  /** What the decoder read when it accepted a frame. */
  lemma AcceptedFields(buf: seq<byte>, maxPayload: nat, f: Frame, size: nat)
    requires DecodeOne(buf, maxPayload) == Got(f, size)
    ensures size == HEADER + |f.payload| <= |buf| && |f.payload| <= maxPayload
    ensures Value(buf[..4]) == MAGIC && Value(buf[4..6]) == VERSION && Value(buf[6..8]) == f.kind
    ensures Value(buf[12..16]) == f.sequence && Value(buf[16..20]) == |f.payload|
    ensures buf[24..size] == f.payload && Value(buf[20..24]) == Crc32c.Checksum(buf[..20] + f.payload)
  {
    Crc32c.ExtendSplit(0, buf[..20], buf[24..24 + Value(buf[16..20])]);
  }

  lemma Rebuild(buf: seq<byte>, f: Frame, size: nat)
    requires size == HEADER + |f.payload| <= |buf|
    requires Value(buf[..4]) == MAGIC && Value(buf[4..6]) == VERSION && Value(buf[6..8]) == f.kind
    requires Value(buf[12..16]) == f.sequence && Value(buf[16..20]) == |f.payload|
    requires buf[24..size] == f.payload && Value(buf[20..24]) == Crc32c.Checksum(buf[..20] + f.payload)
    ensures WellFormed(f) && buf[..size] == Assemble(f, buf[8..12])
  {
    var h := buf[..20];
    FrameSlices(buf, size);
    CoveredBytes(f, h);
    LayoutValue(buf[20..24], Crc32c.Checksum(h + f.payload));
  }

  lemma FrameSlices<T>(buf: seq<T>, size: nat)
    requires 24 <= size <= |buf|
    ensures var h := buf[..20];
            && h[..4] == buf[..4] && h[4..6] == buf[4..6] && h[6..8] == buf[6..8] && h[8..12] == buf[8..12]
            && h[12..16] == buf[12..16] && h[16..20] == buf[16..20]
            && buf[..size] == h + buf[20..24] + buf[24..size]
  {
  }

  /** Whatever decodes was laid out as exactly that frame, flags aside. */
  lemma DecodedWasAssembled(buf: seq<byte>, maxPayload: nat, f: Frame, size: nat)
    requires DecodeOne(buf, maxPayload) == Got(f, size)
    ensures WellFormed(f) && |f.payload| <= maxPayload && size == HEADER + |f.payload|
    ensures buf[..size] == Assemble(f, buf[8..12])
  {
    AcceptedFields(buf, maxPayload, f, size);
    Rebuild(buf, f, size);
  }

  lemma CoveredBytes(f: Frame, h: seq<byte>)
    requires |h| == 20 && Value(h[..4]) == MAGIC && Value(h[4..6]) == VERSION && Value(h[6..8]) == f.kind
    requires Value(h[12..16]) == f.sequence && Value(h[16..20]) == |f.payload|
    ensures WellFormed(f) && h == Covered(f, h[8..12])
  {
    Pow2Values();
    ValueBound(h[6..8]);
    ValueBound(h[12..16]);
    ValueBound(h[16..20]);
    assert h == h[..4] + h[4..6] + h[6..8] + h[8..12] + h[12..16] + h[16..20];
    LayoutValue(h[..4], MAGIC);
    LayoutValue(h[4..6], VERSION);
    LayoutValue(h[6..8], f.kind);
    LayoutValue(h[12..16], f.sequence);
    LayoutValue(h[16..20], |f.payload|);
  }

  // ---- draining -------------------------------------------------------------

  /** The decoding step as a function value; it unfolds only where Look asks. */
  ghost predicate Decodes(step: seq<byte> -> Step<Frame, Code>, maxPayload: nat) {
    forall b: seq<byte> {:trigger Look(b)} :: step(b) == DecodeOne(b, maxPayload)
  }

  ghost function FrameStep(maxPayload: nat): (step: seq<byte> -> Step<Frame, Code>)
    ensures Decodes(step, maxPayload)
  {
    assert Decodes((b: seq<byte>) => DecodeOne(b, maxPayload), maxPayload);
    var step :| Decodes(step, maxPayload);
    step
  }

  lemma FrameStepLaws(maxPayload: nat)
    ensures Progress(FrameStep(maxPayload)) && Stable(FrameStep(maxPayload))
    ensures forall b: seq<byte> :: FrameStep(maxPayload)(b).Wait? ==> |b| < HEADER + maxPayload
  {
    var step := FrameStep(maxPayload);
    forall b: seq<byte>
      ensures step(b).Got? ==> 0 < step(b).size <= |b|
      ensures step(b).Wait? ==> |b| < HEADER + maxPayload
    {
      assert Look(b);
    }
    forall a: seq<byte>, b: seq<byte> | !step(a).Wait?
      ensures step(a + b) == step(a)
    {
      assert Look(a) && Look(a + b);
      DecodeStable(a, b, maxPayload);
    }
  }

  /** Everything a buffer decodes to, and how decoding stops. */
  ghost function DrainFrames(buf: seq<byte>, maxPayload: nat): Outcome<byte, Frame, Code> {
    FrameStepLaws(maxPayload);
    Drain(FrameStep(maxPayload), buf)
  }

  /** A decision once taken does not depend on bytes that arrive later. */
  lemma DecodeStable(a: seq<byte>, b: seq<byte>, maxPayload: nat)
    requires !DecodeOne(a, maxPayload).Wait?
    ensures DecodeOne(a + b, maxPayload) == DecodeOne(a, maxPayload)
  {
    var c := a + b;
    assert c[..4] == a[..4] && c[4..6] == a[4..6] && c[6..8] == a[6..8];
    assert c[12..16] == a[12..16] && c[16..20] == a[16..20] && c[20..24] == a[20..24] && c[..20] == a[..20];
    var len := Value(a[16..20]);
    if HEADER + len <= |a| {
      assert c[24..24 + len] == a[24..24 + len];
    }
  }

  lemma DrainFramesGot(buf: seq<byte>, maxPayload: nat, f: Frame, size: nat)
    requires DecodeOne(buf, maxPayload) == Got(f, size)
    ensures size <= |buf| && DrainFrames(buf, maxPayload) == Prepend(f, size, DrainFrames(buf[size..], maxPayload))
  {
    FrameStepLaws(maxPayload);
    assert Look(buf);
    DrainGot(FrameStep(maxPayload), buf, f, size);
  }

  lemma DrainFramesStop(buf: seq<byte>, maxPayload: nat)
    ensures match DecodeOne(buf, maxPayload)
            case Wait => DrainFrames(buf, maxPayload) == Outcome([], 0, Waiting(buf))
            case Refuse(code) => DrainFrames(buf, maxPayload) == Outcome([], 0, Failed(code))
            case Got(_, _) => true
  {
    FrameStepLaws(maxPayload);
    assert Look(buf);
  }

  // ---- the incremental decoder ----------------------------------------------

  datatype Next = Decoded(frame: Frame) | Incomplete | Refused(code: Code)

  class FrameDecoder {
    var buffer: seq<byte>
    var offset: nat
    const maxPayload: nat
    const table: seq<nat>
    var framesDecoded: nat
    var framesRejected: nat
    var bytesConsumed: nat
    var failed: bool
    var failure: Code

    ghost predicate Valid()
      reads this
    {
      offset <= |buffer| && Crc32c.IsTable(table)
    }

    /** Bytes received and not yet decoded. */
    function Pending(): seq<byte>
      reads this
      requires Valid()
    {
      buffer[offset..]
    }

    constructor (maxPayload: nat)
      ensures Valid() && !failed && Pending() == [] && this.maxPayload == maxPayload
      ensures framesDecoded == framesRejected == bytesConsumed == 0
    {
      var t := Crc32c.MakeTable();
      this.table := t;
      this.maxPayload := maxPayload;
      buffer, offset := [], 0;
      framesDecoded, framesRejected, bytesConsumed := 0, 0, 0;
      failed, failure := false, MalformedInput;
    }

    method Fail(code: Code)
      requires Valid()
      modifies this`failed, this`failure, this`framesRejected
      ensures failed && failure == code && framesRejected == old(framesRejected) + 1
    {
      failed, failure := true, code;
      framesRejected := framesRejected + 1;
    }

    /** Appends received bytes; overflowing the bound fails the stream. */
    method Push(data: seq<byte>)
      requires Valid()
      modifies this
      ensures Valid()
      ensures framesDecoded == old(framesDecoded) && bytesConsumed == old(bytesConsumed)
      ensures old(failed) || data == [] ==>
                failed == old(failed) && failure == old(failure) && Pending() == old(Pending()) &&
                framesRejected == old(framesRejected)
      ensures !old(failed) && data != [] && old(|Pending()|) + |data| <= maxPayload + HEADER ==>
                !failed && Pending() == old(Pending()) + data && framesRejected == old(framesRejected)
      ensures !old(failed) && data != [] && old(|Pending()|) + |data| > maxPayload + HEADER ==>
                failed && failure == CapacityExceeded && framesRejected == old(framesRejected) + 1
    {
      if failed || data == [] {
        return;
      }
      var bound := maxPayload + HEADER;
      var buffered := |buffer| - offset;
      if buffered > bound || |data| > bound - buffered {
        Fail(CapacityExceeded);
        return;
      }
      buffer := buffer + data;
    }

    /** Looks at the front of the undecoded bytes without consuming anything. */
    method Inspect(raw: seq<byte>) returns (d: Step<Frame, Code>)
      requires Valid()
      ensures d == DecodeOne(raw, maxPayload)
    {
      if |raw| < HEADER {
        return Wait;
      }
      if Value(raw[..4]) != MAGIC {
        return Refuse(MalformedInput);
      }
      if Value(raw[4..6]) != VERSION {
        return Refuse(Unsupported);
      }
      var len := Value(raw[16..20]);
      if len > maxPayload {
        return Refuse(CapacityExceeded);
      }
      if |raw| < HEADER + len {
        return Wait;
      }
      var head := Crc32c.ExtendByTable(table, 0, raw[..20]);
      var computed := Crc32c.ExtendByTable(table, head, raw[24..24 + len]);
      if Value(raw[20..24]) != computed {
        return Refuse(IntegrityFailure);
      }
      return Got(Frame(Value(raw[6..8]), Value(raw[12..16]), raw[24..24 + len]), HEADER + len);
    }

    /** Decodes the next complete frame, or latches the first refusal. */
    method NextFrame() returns (r: Next)
      requires Valid()
      modifies this
      ensures Valid()
      ensures old(failed) ==>
                r == Refused(failure) && failed && failure == old(failure) && Pending() == old(Pending())
      ensures !old(failed) ==>
                match DecodeOne(old(Pending()), maxPayload)
                case Wait => r == Incomplete && !failed && Pending() == old(Pending())
                case Refuse(code) => r == Refused(code) && failed && failure == code
                case Got(frame, size) => r == Decoded(frame) && !failed && Pending() == old(Pending())[size..]
      ensures framesDecoded == old(framesDecoded) + if r.Decoded? then 1 else 0
      ensures framesRejected == old(framesRejected) + if r.Refused? && !old(failed) then 1 else 0
      // A frame that empties the buffer is not added to the consumed counter.
      ensures bytesConsumed == old(bytesConsumed) +
                               if r.Decoded? && Pending() != [] then old(|buffer|) - |Pending()| else 0
    {
      if failed {
        r := Refused(failure);
      } else {
        var d := Inspect(buffer[offset..]);
        if d.Wait? {
          r := Incomplete;
        } else if d.Refuse? {
          Fail(d.code);
          r := Refused(d.code);
        } else {
          Consume(d.size);
          r := Decoded(d.item);
        }
      }
    }

    /** Steps over one decoded frame. */
    method Consume(size: nat)
      requires Valid() && 0 < size <= |Pending()|
      modifies this`buffer, this`offset, this`bytesConsumed, this`framesDecoded
      ensures Valid() && Pending() == old(Pending())[size..]
      ensures framesDecoded == old(framesDecoded) + 1
      ensures bytesConsumed == old(bytesConsumed) + if Pending() == [] then 0 else old(|buffer|) - |Pending()|
    {
      offset := offset + size;
      framesDecoded := framesDecoded + 1;
      if offset == |buffer| {
        buffer, offset := [], 0;
      } else {
        Compact();
      }
    }

    /** Drops the decoded bytes from the front of the buffer. */
    method Compact()
      requires Valid()
      modifies this`buffer, this`offset, this`bytesConsumed
      ensures Valid() && offset == 0 && Pending() == old(Pending())
      ensures bytesConsumed == old(bytesConsumed + offset)
    {
      if offset == 0 {
        return;
      }
      if offset >= |buffer| {
        bytesConsumed := bytesConsumed + |buffer|;
        buffer, offset := [], 0;
        return;
      }
      buffer := buffer[offset..];
      bytesConsumed := bytesConsumed + offset;
      offset := 0;
    }

    /** Decodes everything that is complete, as every receive loop does. */
    method DrainAll() returns (frames: seq<Frame>)
      requires Valid()
      modifies this
      ensures Valid()
      ensures old(failed) ==> frames == [] && failed && failure == old(failure)
      ensures !old(failed) ==>
                var o := DrainFrames(old(Pending()), maxPayload);
                frames == o.items &&
                match o.end
                case Waiting(rest) => !failed && Pending() == rest
                case Failed(code) => failed && failure == code
    {
      hide DrainFrames, DecodeOne;
      frames := [];
      ghost var whole := DrainFrames(Pending(), maxPayload);
      ghost var left := whole;
      while true
        invariant Valid()
        invariant old(failed) ==> frames == [] && failed && failure == old(failure)
        invariant !old(failed) ==> !failed && left == DrainFrames(Pending(), maxPayload)
        invariant !old(failed) ==> whole.items == frames + left.items && whole.end == left.end
        decreases |Pending()|
      {
        ghost var before := Pending();
        var r := NextFrame();
        if !r.Decoded? {
          DrainFramesStop(before, maxPayload);
          break;
        }
        DrainFramesGot(before, maxPayload, r.frame, |before| - |Pending()|);
        left := DrainFrames(Pending(), maxPayload);
        frames := frames + [r.frame];
      }
    }
  }

  // ---- chunking independence ------------------------------------------------

  const START: Outcome<byte, Frame, Code> := Outcome([], 0, Waiting([]))

  /** Pushes each chunk into a fresh decoder and drains after every push. */
  ghost function ReceiveFrames(chunks: seq<seq<byte>>, maxPayload: nat): Outcome<byte, Frame, Code> {
    FrameStepLaws(maxPayload);
    ReceiveAll(FrameStep(maxPayload), CapacityExceeded, maxPayload + HEADER, START, chunks)
  }

  ghost predicate FitsDecoder(chunks: seq<seq<byte>>, maxPayload: nat) {
    FrameStepLaws(maxPayload);
    Fits(FrameStep(maxPayload), CapacityExceeded, maxPayload + HEADER, START, chunks)
  }

  /** One push and what draining makes of it. */
  ghost function ReceiveChunk(o: Outcome<byte, Frame, Code>, chunk: seq<byte>, maxPayload: nat): Outcome<byte, Frame, Code> {
    FrameStepLaws(maxPayload);
    Receive(FrameStep(maxPayload), CapacityExceeded, maxPayload + HEADER, o, chunk)
  }

  ghost function ReceiveRest(o: Outcome<byte, Frame, Code>, chunks: seq<seq<byte>>, maxPayload: nat): Outcome<byte, Frame, Code> {
    FrameStepLaws(maxPayload);
    ReceiveAll(FrameStep(maxPayload), CapacityExceeded, maxPayload + HEADER, o, chunks)
  }

  lemma ReceiveNext(o: Outcome<byte, Frame, Code>, chunks: seq<seq<byte>>, i: nat, maxPayload: nat)
    requires i < |chunks|
    ensures ReceiveRest(o, chunks[i..], maxPayload) == ReceiveRest(ReceiveChunk(o, chunks[i], maxPayload), chunks[i + 1..], maxPayload)
  {
    FrameStepLaws(maxPayload);
    assert chunks[i..][1..] == chunks[i + 1..];
  }

  /** The decoder has nothing left to decode. */
  ghost predicate Drained(o: Outcome<byte, Frame, Code>, maxPayload: nat) {
    o.end.Waiting? ==> DrainFrames(o.end.rest, maxPayload) == Outcome([], 0, Waiting(o.end.rest))
  }

  /** What one push and one drain of the decoder give is what one more chunk
      gives. */
  lemma ReceivedChunk(o: Outcome<byte, Frame, Code>, chunk: seq<byte>, maxPayload: nat)
    requires Drained(o, maxPayload)
    ensures Drained(ReceiveChunk(o, chunk, maxPayload), maxPayload)
    ensures o.end.Failed? ==> ReceiveChunk(o, chunk, maxPayload) == o
    ensures o.end.Waiting? && chunk == [] ==> ReceiveChunk(o, chunk, maxPayload) == o
    ensures o.end.Waiting? && chunk != [] && |o.end.rest| + |chunk| > maxPayload + HEADER ==>
              ReceiveChunk(o, chunk, maxPayload) == o.(end := Failed(CapacityExceeded))
    ensures o.end.Waiting? && chunk != [] && |o.end.rest| + |chunk| <= maxPayload + HEADER ==>
              var later := DrainFrames(o.end.rest + chunk, maxPayload);
              ReceiveChunk(o, chunk, maxPayload) == Outcome(o.items + later.items, o.used + later.used, later.end)
  {
    FrameStepLaws(maxPayload);
    if o.end.Waiting? && chunk != [] && |o.end.rest| + |chunk| <= maxPayload + HEADER {
      var later := DrainFrames(o.end.rest + chunk, maxPayload);
      if later.end.Waiting? {
        DrainedWaits(FrameStep(maxPayload), o.end.rest + chunk);
      }
    }
  }

  lemma NothingReceived(maxPayload: nat)
    ensures Drained(START, maxPayload)
  {
    DrainFramesStop([], maxPayload);
  }

  /** What the decoder shows of an outcome. */
  ghost predicate Shows(failed: bool, failure: Code, pending: seq<byte>, end: End<byte, Code>) {
    match end
    case Waiting(rest) => !failed && pending == rest
    case Failed(code) => failed && failure == code
  }

  /** A whole reception: each chunk is pushed into a fresh decoder, which is then
      drained. */
  method ReceiveChunks(chunks: seq<seq<byte>>, maxPayload: nat) returns (frames: seq<Frame>, end: End<byte, Code>)
    ensures frames == ReceiveFrames(chunks, maxPayload).items && end == ReceiveFrames(chunks, maxPayload).end
  {
    hide DrainFrames, ReceiveChunk, ReceiveRest, Drained;
    var d := new FrameDecoder(maxPayload);
    frames := [];
    ghost var o := START;
    NothingReceived(maxPayload);
    StartsReceiving(chunks, maxPayload);
    assert chunks[0..] == chunks;
    for i := 0 to |chunks|
      invariant fresh(d) && d.Valid() && d.maxPayload == maxPayload
      invariant ReceiveFrames(chunks, maxPayload) == ReceiveRest(o, chunks[i..], maxPayload)
      invariant frames == o.items && Drained(o, maxPayload) && Shows(d.failed, d.failure, d.Pending(), o.end)
    {
      ReceiveNext(o, chunks, i, maxPayload);
      ReceivedChunk(o, chunks[i], maxPayload);
      DrainedAgain(o, maxPayload);
      d.Push(chunks[i]);
      var more := d.DrainAll();
      frames := frames + more;
      o := ReceiveChunk(o, chunks[i], maxPayload);
    }
    EndsReceiving(o, maxPayload);
    assert chunks[|chunks|..] == [];
    end := if d.failed then Failed(d.failure) else Waiting(d.Pending());
  }

  lemma StartsReceiving(chunks: seq<seq<byte>>, maxPayload: nat)
    ensures ReceiveFrames(chunks, maxPayload) == ReceiveRest(START, chunks, maxPayload)
  {
  }

  lemma EndsReceiving(o: Outcome<byte, Frame, Code>, maxPayload: nat)
    ensures ReceiveRest(o, [], maxPayload) == o
  {
  }

  lemma DrainedAgain(o: Outcome<byte, Frame, Code>, maxPayload: nat)
    requires Drained(o, maxPayload)
    ensures o.end.Waiting? ==> DrainFrames(o.end.rest, maxPayload) == Outcome([], 0, Waiting(o.end.rest))
  {
  }

  /** However a stream is cut, the decoder emits the same frames and ends the
      same way as decoding the whole stream at once. */
  lemma ChunkingIndependent(chunks: seq<seq<byte>>, maxPayload: nat)
    requires FitsDecoder(chunks, maxPayload)
    ensures ReceiveFrames(chunks, maxPayload) == DrainFrames(Flatten(chunks), maxPayload)
  {
    FrameStepLaws(maxPayload);
    DrainFramesStop([], maxPayload);
    ReceiveExtends(FrameStep(maxPayload), CapacityExceeded, maxPayload + HEADER, [], chunks);
    assert [] + Flatten(chunks) == Flatten(chunks);
  }

  /** Pushing one byte at a time never exceeds the buffer bound, so every stream
      has a chunking to which the theorem applies. */
  lemma ByteAtATimeFits(chunks: seq<seq<byte>>, maxPayload: nat)
    requires forall i :: 0 <= i < |chunks| ==> |chunks[i]| <= 1
    ensures FitsDecoder(chunks, maxPayload)
  {
    FrameStepLaws(maxPayload);
    SingleBytesFit(FrameStep(maxPayload), CapacityExceeded, maxPayload + HEADER, START, chunks);
  }

  // ---- round trip and damage ------------------------------------------------

  const EncodeOne: Frame -> seq<byte> := (f: Frame) => Assemble(f, NO_FLAGS)

  /** Concatenated encoded frames come back exactly, in order, nothing left. */
  lemma RoundTrip(frames: seq<Frame>, maxPayload: nat)
    requires forall i :: 0 <= i < |frames| ==> WellFormed(frames[i]) && |frames[i].payload| <= maxPayload
    ensures var bytes := EncodeAll(EncodeOne, frames);
            DrainFrames(bytes, maxPayload) == Outcome(frames, |bytes|, Waiting([]))
  {
    var step, bytes := FrameStep(maxPayload), EncodeAll(EncodeOne, frames);
    FrameStepLaws(maxPayload);
    FramesInvert(frames, maxPayload);
    DrainEncoded(step, EncodeOne, frames, []);
    assert bytes + [] == bytes;
    assert frames + [] == frames;
    DrainFramesStop([], maxPayload);
  }

  lemma FrameInverts(f: Frame, maxPayload: nat)
    requires WellFormed(f) && |f.payload| <= maxPayload
    ensures Inverts(FrameStep(maxPayload), EncodeOne, f)
  {
    forall tail: seq<byte>
      ensures FrameStep(maxPayload)(EncodeOne(f) + tail) == Got(f, |EncodeOne(f)|)
    {
      assert Look(EncodeOne(f) + tail);
      AssembledDecodes(f, NO_FLAGS, tail, maxPayload);
    }
  }

  lemma {:induction false} FramesInvert(frames: seq<Frame>, maxPayload: nat)
    requires forall i :: 0 <= i < |frames| ==> WellFormed(frames[i]) && |frames[i].payload| <= maxPayload
    ensures AllInvert(FrameStep(maxPayload), EncodeOne, frames)
  {
    if frames != [] {
      FrameInverts(frames[0], maxPayload);
      FramesInvert(frames[1..], maxPayload);
    }
  }

  /** Overwrites |window| bytes of a frame. */
  function Overwrite(bytes: seq<byte>, at: nat, window: seq<byte>): (r: seq<byte>)
    requires at + |window| <= |bytes|
    ensures |r| == |bytes|
  {
    bytes[..at] + window + bytes[at + |window|..]
  }

  /** Damage confined to four consecutive bytes of the covered header before the
      length, of the checksum, or of the payload, is always refused. */
  lemma DamageRefused(f: Frame, flags: seq<byte>, at: nat, window: seq<byte>, maxPayload: nat)
    requires WellFormed(f) && |flags| == 4 && |f.payload| <= maxPayload
    requires |window| <= 4
    requires at + |window| <= 16 || (20 <= at && at + |window| <= 24) ||
             (24 <= at && at + |window| <= HEADER + |f.payload|)
    requires Assemble(f, flags)[at..at + |window|] != window
    ensures DecodeOne(Overwrite(Assemble(f, flags), at, window), maxPayload).Refuse?
  {
    var whole := Assemble(f, flags);
    var bad := Overwrite(whole, at, window);
    IntactParts(f, flags);
    KeepLength(whole, at, window);
    if at + |window| <= 16 {
      HeaderDamage(whole, at, window);
    } else if at < 24 {
      ChecksumDamage(whole, at, window);
    } else {
      PayloadDamage(whole, at, window);
    }
    BadChecksumRefused(bad, maxPayload);
  }

  /** A whole frame carries its own length and the checksum of the rest. */
  lemma IntactParts(f: Frame, flags: seq<byte>)
    requires WellFormed(f) && |flags| == 4
    ensures var whole := Assemble(f, flags);
            && Value(whole[16..20]) == |f.payload|
            && Value(whole[20..24]) == Crc32c.Checksum(whole[..20] + whole[24..])
  {
    var whole, h := Assemble(f, flags), Covered(f, flags);
    assert whole[..20] == h && whole[24..] == f.payload && whole[16..20] == h[16..20];
    CoveredFields(f, flags, h);
    FieldWidths(f);
    Pow2Values();
    ValueOfLayout(Crc32c.Checksum(h + f.payload), 4);
    assert whole[20..24] == Layout(Crc32c.Checksum(h + f.payload), 4);
  }

  /** A complete buffer whose checksum is wrong is refused, whatever else it holds. */
  lemma BadChecksumRefused(buf: seq<byte>, maxPayload: nat)
    requires |buf| >= HEADER && Value(buf[16..20]) == |buf| - HEADER <= maxPayload
    requires Value(buf[20..24]) != Crc32c.Checksum(buf[..20] + buf[24..])
    ensures DecodeOne(buf, maxPayload).Refuse?
  {
    Crc32c.ExtendSplit(0, buf[..20], buf[24..]);
    assert buf[24..24 + Value(buf[16..20])] == buf[24..];
  }

  lemma SpliceHeader<T>(whole: seq<T>, at: nat, window: seq<T>)
    requires |whole| >= 24 && at + |window| <= 16
    ensures var bad, end := whole[..at] + window + whole[at + |window|..], at + |window|;
            && bad[20..24] == whole[20..24]
            && whole[..20] + whole[24..] == whole[..at] + whole[at..end] + (whole[end..20] + whole[24..])
            && bad[..20] + bad[24..] == whole[..at] + window + (whole[end..20] + whole[24..])
  {
    var end := at + |window|;
    assert whole[..20] == whole[..at] + whole[at..end] + whole[end..20];
  }

  lemma SplicePayload<T>(whole: seq<T>, at: nat, window: seq<T>)
    requires 24 <= at && at + |window| <= |whole|
    ensures var bad, end := whole[..at] + window + whole[at + |window|..], at + |window|;
            && bad[20..24] == whole[20..24]
            && whole[..20] + whole[24..] == (whole[..20] + whole[24..at]) + whole[at..end] + whole[end..]
            && bad[..20] + bad[24..] == (whole[..20] + whole[24..at]) + window + whole[end..]
  {
    var bad, end := whole[..at] + window + whole[at + |window|..], at + |window|;
    assert whole[24..] == whole[24..at] + whole[at..end] + whole[end..];
    assert bad[..20] == whole[..20] && bad[24..] == whole[24..at] + window + whole[end..];
  }

  lemma KeepLength<T>(whole: seq<T>, at: nat, window: seq<T>)
    requires |whole| >= 24 && at + |window| <= |whole| && (at + |window| <= 16 || 20 <= at)
    ensures (whole[..at] + window + whole[at + |window|..])[16..20] == whole[16..20]
  {
  }

  lemma SubSlice<T>(s: seq<T>, lo: nat, hi: nat, i: nat, j: nat)
    requires lo <= i <= j <= hi <= |s|
    ensures s[i..j] == s[lo..hi][i - lo..j - lo]
  {
    var t := s[lo..hi];
    forall k | 0 <= k < j - i ensures s[i..j][k] == t[i - lo..j - lo][k] {
      assert t[i - lo + k] == s[i + k];
    }
  }

  lemma HeaderDamage(whole: seq<byte>, at: nat, window: seq<byte>)
    requires |whole| >= 24 && |window| <= 4 && at + |window| <= 16 && whole[at..at + |window|] != window
    ensures var bad := Overwrite(whole, at, window);
            bad[20..24] == whole[20..24] &&
            Crc32c.Checksum(bad[..20] + bad[24..]) != Crc32c.Checksum(whole[..20] + whole[24..])
  {
    var end := at + |window|;
    SpliceHeader(whole, at, window);
    Crc32c.BurstDetected(0, whole[..at], whole[at..end], window, whole[end..20] + whole[24..]);
  }

  lemma PayloadDamage(whole: seq<byte>, at: nat, window: seq<byte>)
    requires 24 <= at && at + |window| <= |whole| && |window| <= 4 && whole[at..at + |window|] != window
    ensures var bad := Overwrite(whole, at, window);
            bad[20..24] == whole[20..24] &&
            Crc32c.Checksum(bad[..20] + bad[24..]) != Crc32c.Checksum(whole[..20] + whole[24..])
  {
    var end, before := at + |window|, whole[..20] + whole[24..at];
    var good, bad := whole[..20] + whole[24..], Overwrite(whole, at, window);
    assert good == before + whole[at..end] + whole[end..] && bad[20..24] == whole[20..24] &&
           bad[..20] + bad[24..] == before + window + whole[end..] by {
      SplicePayload(whole, at, window);
    }
    Crc32c.BurstDetected(0, before, whole[at..end], window, whole[end..]);
  }

  lemma ChecksumDamage(whole: seq<byte>, at: nat, window: seq<byte>)
    requires |whole| >= 24 && 20 <= at && at + |window| <= 24 && whole[at..at + |window|] != window
    ensures var bad := Overwrite(whole, at, window);
            bad[..20] == whole[..20] && bad[24..] == whole[24..] && Value(bad[20..24]) != Value(whole[20..24])
  {
    var bad := Overwrite(whole, at, window);
    assert bad[at..at + |window|] == window;
    if Value(bad[20..24]) == Value(whole[20..24]) {
      ValueInjective(bad[20..24], whole[20..24]);
      SubSlice(bad, 20, 24, at, at + |window|);
      SubSlice(whole, 20, 24, at, at + |window|);
    }
  }

  /** One changed byte outside the length field is always refused. */
  lemma ByteDamageRefused(f: Frame, at: nat, b: byte, maxPayload: nat)
    requires WellFormed(f) && |f.payload| <= maxPayload
    requires at < HEADER + |f.payload| && !(16 <= at < 20)
    requires Assemble(f, NO_FLAGS)[at] != b
    ensures DecodeOne(Assemble(f, NO_FLAGS)[at := b], maxPayload).Refuse?
  {
    var whole := Assemble(f, NO_FLAGS);
    assert whole[at..at + 1][0] == whole[at];
    DamageRefused(f, NO_FLAGS, at, [b], maxPayload);
    OverwriteOne(whole, at, b);
  }

  lemma OverwriteOne(whole: seq<byte>, at: nat, b: byte)
    requires at < |whole|
    ensures Overwrite(whole, at, [b]) == whole[at := b]
  {
    assert Overwrite(whole, at, [b])[at + 1..] == whole[at + 1..];
    forall i | 0 <= i < |whole| ensures Overwrite(whole, at, [b])[i] == whole[at := b][i] {
    }
  }
}
