/** The journal file: header and record layout, the recovery scan over arbitrary
    bytes, and the file object that appends, truncates and replaces. */
module JournalFile {
  import opened Words
  import Crc32c
  import opened Stream
  import opened Status
  import Entities

  const MAGIC: nat := 0x314A_4651
  const FORMAT: nat := 1
  const HEADER: nat := 40
  const PREFIX: nat := 10

  type Boot = Entities.Boot
  datatype Record = Record(kind: nat, payload: seq<byte>)

  predicate WellFormed(r: Record, maxRecord: nat) {
    r.kind < U16 && |r.payload| <= maxRecord < U32
  }

  // ---- layout ---------------------------------------------------------------

  function HeaderFields(boot: Boot, epoch: nat): (h: seq<byte>)
    ensures |h| == 32
  {
    Layout(MAGIC, 4) + Layout(FORMAT, 2) + Layout(0, 2) + Layout(boot.hi, 8) + Layout(boot.lo, 8) + Layout(epoch, 8)
  }

  function EncodeHeader(boot: Boot, epoch: nat): (h: seq<byte>)
    ensures |h| == HEADER
  {
    HeaderFields(boot, epoch) + Layout(Crc32c.Checksum(HeaderFields(boot, epoch)), 4) + Layout(0, 4)
  }

  /** The six bytes of a record that its checksum covers besides the payload. */
  function Covered(r: Record): (h: seq<byte>)
    ensures |h| == 6
  {
    Layout(r.kind, 2) + Layout(|r.payload|, 4)
  }

  function EncodeRecord(r: Record): (out: seq<byte>)
    ensures |out| == PREFIX + |r.payload|
  {
    Covered(r) + Layout(Crc32c.Checksum(Covered(r) + r.payload), 4) + r.payload
  }

  const EncodeOne: Record -> seq<byte> := (r: Record) => EncodeRecord(r)

  // ---- one scan step --------------------------------------------------------

  /** A whole record with a matching checksum stands at the front of buf. */
  predicate Intact(buf: seq<byte>, maxRecord: nat) {
    && |buf| >= PREFIX
    && Value(buf[2..6]) <= maxRecord
    && PREFIX + Value(buf[2..6]) <= |buf|
    && Crc32c.Extend(Crc32c.Checksum(buf[..6]), buf[PREFIX..PREFIX + Value(buf[2..6])]) == Value(buf[6..10])
  }

  /** One iteration of the scan: a record, a torn tail, or damage inside the file
      (a broken record with an intact one right behind it). */
  function DecodeRecord(buf: seq<byte>, maxRecord: nat): (r: Step<Record, Code>)
    ensures r.Got? ==> PREFIX <= r.size <= |buf|
    ensures r.Refuse? ==> r.code == IntegrityFailure
  {
    if |buf| < PREFIX then Wait
    else
      var len := Value(buf[2..6]);
      if len > maxRecord || |buf| < PREFIX + len then Wait
      else if Intact(buf, maxRecord) then Got(Record(Value(buf[..2]), buf[PREFIX..PREFIX + len]), PREFIX + len)
      else if Intact(buf[PREFIX + len..], maxRecord) then Refuse(IntegrityFailure)
      else Wait
  }

  /** The scan step as a function value; it unfolds only where Look asks. */
  ghost predicate Decodes(step: seq<byte> -> Step<Record, Code>, maxRecord: nat) {
    forall b: seq<byte> {:trigger Look(b)} :: step(b) == DecodeRecord(b, maxRecord)
  }

  ghost function RecordStep(maxRecord: nat): (step: seq<byte> -> Step<Record, Code>)
    ensures Decodes(step, maxRecord)
  {
    assert Decodes((b: seq<byte>) => DecodeRecord(b, maxRecord), maxRecord);
    var step :| Decodes(step, maxRecord);
    step
  }

  lemma RecordStepProgress(maxRecord: nat)
    ensures Progress(RecordStep(maxRecord))
  {
    forall b: seq<byte> | RecordStep(maxRecord)(b).Got?
      ensures 0 < RecordStep(maxRecord)(b).size <= |b|
    {
      assert Look(b);
    }
  }

  /** Everything the scan finds behind the header. */
  ghost function ScanRecords(buf: seq<byte>, maxRecord: nat): Outcome<byte, Record, Code> {
    RecordStepProgress(maxRecord);
    Drain(RecordStep(maxRecord), buf)
  }

  // ---- encoding and decoding agree ------------------------------------------

  lemma RecordSlices<T>(h: seq<T>, mid: seq<T>, payload: seq<T>, tail: seq<T>)
    requires |h| == 6 && |mid| == 4
    ensures var buf := h + mid + payload + tail;
            && buf[..6] == h && buf[6..10] == mid && buf[10..10 + |payload|] == payload
            && buf[..2] == h[..2] && buf[2..6] == h[2..6]
  {
  }

  lemma RecordWidths(r: Record, maxRecord: nat)
    requires WellFormed(r, maxRecord)
    ensures Value(Covered(r)[..2]) == r.kind && Value(Covered(r)[2..6]) == |r.payload|
  {
    Pow2Values();
    ValueOfLayout(r.kind, 2);
    ValueOfLayout(|r.payload|, 4);
    assert Covered(r)[..2] == Layout(r.kind, 2) && Covered(r)[2..6] == Layout(|r.payload|, 4);
  }

  lemma EncodedDecodes(r: Record, tail: seq<byte>, maxRecord: nat)
    requires WellFormed(r, maxRecord)
    ensures DecodeRecord(EncodeRecord(r) + tail, maxRecord) == Got(r, PREFIX + |r.payload|)
  {
    var h, crc := Covered(r), Crc32c.Checksum(Covered(r) + r.payload);
    RecordSlices(h, Layout(crc, 4), r.payload, tail);
    RecordWidths(r, maxRecord);
    Crc32c.ExtendSplit(0, h, r.payload);
    Pow2Values();
    ValueOfLayout(crc, 4);
  }

  lemma SplitPrefix<T>(buf: seq<T>, n: nat)
    requires PREFIX + n <= |buf|
    ensures buf[..PREFIX + n] == buf[..2] + buf[2..6] + buf[6..10] + buf[10..10 + n]
    ensures buf[..6] == buf[..2] + buf[2..6]
  {
  }

  lemma DecodedWasEncoded(buf: seq<byte>, maxRecord: nat, r: Record, size: nat)
    requires DecodeRecord(buf, maxRecord) == Got(r, size)
    ensures size == PREFIX + |r.payload| <= |buf| && buf[..size] == EncodeRecord(r)
  {
    var n := |r.payload|;
    SplitPrefix(buf, n);
    Crc32c.ExtendSplit(0, buf[..6], r.payload);
    LayoutOfValue(buf[..2]);
    LayoutOfValue(buf[2..6]);
    LayoutOfValue(buf[6..10]);
  }

  function Legal(maxRecord: nat): Record -> bool {
    (r: Record) => WellFormed(r, maxRecord)
  }

  lemma RecordStepFaithful(maxRecord: nat)
    requires maxRecord < U32
    ensures Faithful(RecordStep(maxRecord), EncodeOne, Legal(maxRecord))
  {
    forall b: seq<byte> | RecordStep(maxRecord)(b).Got?
      ensures var d := RecordStep(maxRecord)(b);
              d.size <= |b| && EncodeOne(d.item) == b[..d.size] && Legal(maxRecord)(d.item)
    {
      assert Look(b);
      var d := DecodeRecord(b, maxRecord);
      DecodedWasEncoded(b, maxRecord, d.item, d.size);
      Pow2Values();
      ValueBound(b[..2]);
    }
  }

  /** On any bytes the scan only reports what is there: re-encoding the records
      it returns reproduces the bytes up to the valid prefix, and every record is
      one the journal could have written. */
  lemma ScanSound(buf: seq<byte>, maxRecord: nat)
    requires maxRecord < U32
    ensures var o := ScanRecords(buf, maxRecord);
            o.used <= |buf| && EncodeAll(EncodeOne, o.items) == buf[..o.used] && AllWellFormed(o.items, maxRecord)
  {
    RecordStepProgress(maxRecord);
    RecordStepFaithful(maxRecord);
    DrainFaithful(RecordStep(maxRecord), EncodeOne, Legal(maxRecord), buf);
    var o := ScanRecords(buf, maxRecord);
    forall i | 0 <= i < |o.items| ensures WellFormed(o.items[i], maxRecord) {
      assert Legal(maxRecord)(o.items[i]);
    }
  }

  // ---- torn writes ----------------------------------------------------------

  predicate AllWellFormed(records: seq<Record>, maxRecord: nat) {
    forall i :: 0 <= i < |records| ==> WellFormed(records[i], maxRecord)
  }

  lemma RecordInverts(r: Record, maxRecord: nat)
    requires WellFormed(r, maxRecord)
    ensures Inverts(RecordStep(maxRecord), EncodeOne, r)
  {
    forall tail: seq<byte>
      ensures RecordStep(maxRecord)(EncodeOne(r) + tail) == Got(r, |EncodeOne(r)|)
    {
      assert Look(EncodeRecord(r) + tail);
      EncodedDecodes(r, tail, maxRecord);
    }
  }

  lemma {:induction false} RecordsInvert(records: seq<Record>, maxRecord: nat)
    requires AllWellFormed(records, maxRecord)
    ensures AllInvert(RecordStep(maxRecord), EncodeOne, records)
  {
    if records != [] {
      RecordInverts(records[0], maxRecord);
      RecordsInvert(records[1..], maxRecord);
    }
  }

  /** Whatever follows them, encoded records are found first and in order. */
  lemma ScanFindsRecords(records: seq<Record>, tail: seq<byte>, maxRecord: nat)
    requires AllWellFormed(records, maxRecord)
    ensures ScanRecords(EncodeAll(EncodeOne, records) + tail, maxRecord) ==
            PrependAll(records, |EncodeAll(EncodeOne, records)|, ScanRecords(tail, maxRecord))
  {
    RecordStepProgress(maxRecord);
    RecordsInvert(records, maxRecord);
    DrainEncoded(RecordStep(maxRecord), EncodeOne, records, tail);
  }

  /** Any part of one record short of the whole scans as a torn tail. */
  lemma TornRecordWaits(r: Record, cut: nat, maxRecord: nat)
    requires WellFormed(r, maxRecord) && cut < PREFIX + |r.payload|
    ensures DecodeRecord(EncodeRecord(r)[..cut], maxRecord).Wait?
  {
    hide Covered, Layout, Value, Intact;
    if cut >= PREFIX {
      var whole := EncodeRecord(r);
      RecordSlices(Covered(r), Layout(Crc32c.Checksum(Covered(r) + r.payload), 4), r.payload, []);
      assert whole + [] == whole && whole[..cut][2..6] == whole[2..6];
      RecordWidths(r, maxRecord);
    }
  }

  /** How many of the records lie wholly within the first cut bytes. */
  function WholeBefore(records: seq<Record>, cut: nat): (k: nat)
    ensures k <= |records|
  {
    if records == [] || cut < PREFIX + |records[0].payload| then 0
    else 1 + WholeBefore(records[1..], cut - (PREFIX + |records[0].payload|))
  }

  /** A cut leaves some whole records and a proper part of the next one. */
  lemma {:induction false} CutShape(records: seq<Record>, cut: nat) returns (torn: seq<byte>)
    requires cut <= |EncodeAll(EncodeOne, records)|
    ensures var k := WholeBefore(records, cut);
            && EncodeAll(EncodeOne, records)[..cut] == EncodeAll(EncodeOne, records[..k]) + torn
            && (torn == [] ||
                (k < |records| && |torn| < PREFIX + |records[k].payload| &&
                 torn == EncodeRecord(records[k])[..|torn|]))
    decreases |records|
  {
    if records == [] {
      torn := [];
    } else {
      var first, later := EncodeRecord(records[0]), EncodeAll(EncodeOne, records[1..]);
      assert EncodeAll(EncodeOne, records) == first + later;
      if cut < |first| {
        torn := first[..cut];
        assert (first + later)[..cut] == first[..cut];
        assert EncodeAll(EncodeOne, records[..0]) + torn == torn;
      } else {
        torn := CutShape(records[1..], cut - |first|);
        var k := WholeBefore(records[1..], cut - |first|);
        assert records[..k + 1][0] == records[0] && records[..k + 1][1..] == records[1..][..k];
        assert (first + later)[..cut] == first + later[..cut - |first|];
        assert first + (EncodeAll(EncodeOne, records[1..][..k]) + torn) ==
               (first + EncodeAll(EncodeOne, records[1..][..k])) + torn;
      }
    }
  }

  /** A cut at or behind the first n records keeps them whole. */
  lemma {:induction false} WholeAtLeast(records: seq<Record>, n: nat, cut: nat)
    requires n <= |records| && |EncodeAll(EncodeOne, records[..n])| <= cut
    ensures n <= WholeBefore(records, cut)
    decreases n
  {
    hide EncodeRecord;
    if n > 0 {
      assert records[..n][0] == records[0] && records[..n][1..] == records[1..][..n - 1];
      WholeAtLeast(records[1..], n - 1, cut - |EncodeRecord(records[0])|);
    }
  }

  /** The scan is exact at every cut: it returns precisely the records wholly
      before the cut, their length as valid prefix, and never mistakes the torn
      rest for damage inside the file. */
  lemma ScanExactAtCut(records: seq<Record>, cut: nat, maxRecord: nat)
    requires AllWellFormed(records, maxRecord)
    requires cut <= |EncodeAll(EncodeOne, records)|
    ensures var k := WholeBefore(records, cut);
            var o := ScanRecords(EncodeAll(EncodeOne, records)[..cut], maxRecord);
            && o.items == records[..k]
            && o.used == |EncodeAll(EncodeOne, records[..k])|
            && o.end.Waiting?
  {
    var k := WholeBefore(records, cut);
    var torn := CutShape(records, cut);
    ScanFindsRecords(records[..k], torn, maxRecord);
    if torn != [] {
      TornRecordWaits(records[k], |torn|, maxRecord);
    }
    ScanStops(torn, maxRecord);
  }

  // ---- appending ------------------------------------------------------------

  lemma {:induction false} EncodeAllAppend(records: seq<Record>, r: Record)
    ensures EncodeAll(EncodeOne, records + [r]) == EncodeAll(EncodeOne, records) + EncodeRecord(r)
  {
    hide EncodeRecord;
    if records == [] {
      assert records + [r] == [r];
      assert [r][1..] == [];
    } else {
      assert (records + [r])[1..] == records[1..] + [r];
      EncodeAllAppend(records[1..], r);
    }
  }

  /** Encoded records and nothing else scan back whole. */
  lemma ScanWhole(records: seq<Record>, maxRecord: nat)
    requires AllWellFormed(records, maxRecord)
    ensures var bytes := EncodeAll(EncodeOne, records);
            var o := ScanRecords(bytes, maxRecord);
            o.items == records && o.used == |bytes|
  {
    hide EncodeRecord, ScanRecords, AllWellFormed;
    ScanFindsRecords(records, [], maxRecord);
    ScanStops([], maxRecord);
    assert EncodeAll(EncodeOne, records) + [] == EncodeAll(EncodeOne, records);
  }

  /** The scan reads every byte, and reads these records. */
  ghost predicate ReadsAs(buf: seq<byte>, maxRecord: nat, records: seq<Record>) {
    ScanRecords(buf, maxRecord).items == records && ScanRecords(buf, maxRecord).used == |buf|
  }

  /** Reading whole is being the encoding. */
  lemma ReadsAsEncoded(buf: seq<byte>, maxRecord: nat, records: seq<Record>)
    requires maxRecord < U32
    ensures ReadsAs(buf, maxRecord, records) <==> AllWellFormed(records, maxRecord) && buf == EncodeAll(EncodeOne, records)
  {
    hide EncodeRecord, ScanRecords, AllWellFormed;
    if ReadsAs(buf, maxRecord, records) {
      ScanSound(buf, maxRecord);
      assert buf[..|buf|] == buf;
    }
    if AllWellFormed(records, maxRecord) && buf == EncodeAll(EncodeOne, records) {
      ScanWhole(records, maxRecord);
    }
  }

  /** An appended record is recovered behind those before it if and only if the
      scan had used every byte in front of it: behind a torn tail of any length
      and content it is not. */
  lemma AppendedIsRecovered(buf: seq<byte>, r: Record, maxRecord: nat)
    requires WellFormed(r, maxRecord)
    ensures var o := ScanRecords(buf, maxRecord);
            ReadsAs(buf + EncodeRecord(r), maxRecord, o.items + [r]) <==> o.used == |buf|
  {
    hide EncodeRecord, ScanRecords, EncodeAll, ReadsAs;
    var o := ScanRecords(buf, maxRecord);
    var one := EncodeRecord(r);
    ScanSound(buf, maxRecord);
    EncodeAllAppend(o.items, r);
    ReadsAsEncoded(buf + one, maxRecord, o.items + [r]);
    assert AllWellFormed(o.items + [r], maxRecord);
    SameFront(buf, EncodeAll(EncodeOne, o.items), one);
  }

  lemma SameFront<T>(a: seq<T>, b: seq<T>, tail: seq<T>)
    ensures a + tail == b + tail <==> a == b
  {
    if a + tail == b + tail {
      assert |a| == |b|;
      assert (a + tail)[..|a|] == a && (b + tail)[..|b|] == b;
    }
  }

  // ---- recovering a torn file -----------------------------------------------

  lemma {:induction false} EncodeAllMore(records: seq<Record>, more: seq<Record>)
    ensures EncodeAll(EncodeOne, records + more) == EncodeAll(EncodeOne, records) + EncodeAll(EncodeOne, more)
  {
    hide EncodeRecord;
    if records == [] {
      assert records + more == more;
    } else {
      assert (records + more)[1..] == records[1..] + more;
      EncodeAllMore(records[1..], more);
    }
  }

  /** The bytes behind the header once the file was recovered: replay appends its
      commits at the end of the file, torn or not, and every append moves the
      valid prefix there; only then is what lies behind the valid prefix cut off,
      and the record of the new life appended. */
  ghost function RecoveredBytes(buf: seq<byte>, maxRecord: nat, replayed: seq<Record>, last: Record): seq<byte> {
    var o := ScanRecords(buf, maxRecord);
    (if replayed == [] && o.used <= |buf| then buf[..o.used] else buf) + EncodeAll(EncodeOne, replayed) + EncodeRecord(last)
  }

  /** Recovering a file leaves it legible if and only if it was not torn or
      nothing was appended before the cut. */
  lemma TornRecovery(buf: seq<byte>, maxRecord: nat, replayed: seq<Record>, last: Record)
    requires AllWellFormed(replayed, maxRecord) && WellFormed(last, maxRecord)
    ensures var o := ScanRecords(buf, maxRecord);
            ReadsAs(RecoveredBytes(buf, maxRecord, replayed, last), maxRecord, o.items + replayed + [last]) <==>
              o.used == |buf| || replayed == []
  {
    hide EncodeRecord, ScanRecords, EncodeAll, ReadsAs;
    var o := ScanRecords(buf, maxRecord);
    ScanSound(buf, maxRecord);
    var front := if replayed == [] then buf[..o.used] else buf;
    var tail := EncodeAll(EncodeOne, replayed) + EncodeRecord(last);
    EncodeAllMore(o.items, replayed);
    EncodeAllAppend(o.items + replayed, last);
    ReadsAsEncoded(RecoveredBytes(buf, maxRecord, replayed, last), maxRecord, o.items + replayed + [last]);
    assert AllWellFormed(o.items + replayed + [last], maxRecord);
    Reassociate(front, EncodeAll(EncodeOne, replayed), EncodeRecord(last));
    Reassociate(buf[..o.used], EncodeAll(EncodeOne, replayed), EncodeRecord(last));
    SameFront(front, buf[..o.used], tail);
  }

  lemma Reassociate<T>(a: seq<T>, b: seq<T>, d: seq<T>)
    ensures a + b + d == a + (b + d)
  {
  }

  /** For example, one stray byte hides a short record behind it, and everything
      behind that up to 256 times its length. */
  lemma StrayByteHides(stray: byte, r: Record, more: seq<byte>, maxRecord: nat)
    requires r.kind < 256 && 0 < |r.payload| < 256 && |more| + 1 < 255 * |r.payload|
    ensures DecodeRecord([stray] + EncodeRecord(r) + more, maxRecord).Wait?
  {
    hide EncodeRecord;
    var buf := [stray] + EncodeRecord(r) + more;
    ShiftedLength(stray, r);
    assert buf[2..6] == ([stray] + EncodeRecord(r))[2..6];
  }

  lemma AppendBehindTornTailLost(stray: byte, r: Record, maxRecord: nat)
    requires WellFormed(r, maxRecord) && r.kind < 256 && 0 < |r.payload| < 256
    ensures DecodeRecord([stray], maxRecord).Wait?
    ensures ScanRecords([stray] + EncodeRecord(r), maxRecord).items == []
  {
    hide EncodeRecord, ScanRecords;
    StrayByteHides(stray, r, [], maxRecord);
    assert [stray] + EncodeRecord(r) + [] == [stray] + EncodeRecord(r);
    ScanStops([stray] + EncodeRecord(r), maxRecord);
  }

  lemma ScanStops(buf: seq<byte>, maxRecord: nat)
    requires DecodeRecord(buf, maxRecord).Wait?
    ensures ScanRecords(buf, maxRecord) == Outcome([], 0, Waiting(buf))
  {
    RecordStepProgress(maxRecord);
    assert Look(buf);
  }

  /** Shifted by one byte, a record's length field reads 256 times too large. */
  lemma ShiftedLength(stray: byte, r: Record)
    requires r.kind < 256 && 0 < |r.payload| < 256
    ensures Value(([stray] + EncodeRecord(r))[2..6]) == 256 * |r.payload|
  {
    var mid := Layout(Crc32c.Checksum(Covered(r) + r.payload), 4);
    ShiftedSlice(stray, Covered(r), mid, r.payload);
    SmallCovered(r);
    SecondByteValue(|r.payload|);
  }

  lemma ShiftedSlice<T>(x: T, h: seq<T>, mid: seq<T>, payload: seq<T>)
    requires |h| == 6
    ensures ([x] + (h + mid + payload))[2..6] == h[1..5]
  {
  }

  lemma SmallCovered(r: Record)
    requires r.kind < 256 && |r.payload| < 256
    ensures Covered(r)[1..5] == [0, |r.payload|, 0, 0]
  {
    assert Layout(r.kind, 2) == [r.kind] + Layout(0, 1);
    assert Layout(|r.payload|, 4) == [|r.payload|] + Layout(0, 3);
    assert Layout(0, 1) == [0] && Layout(0, 3) == [0, 0, 0];
  }

  lemma SecondByteValue(n: byte)
    ensures Value([0, n, 0, 0]) == 256 * n
  {
    var low: seq<byte>, high: seq<byte> := [0, n], [0, 0];
    ValueConcat(low, high);
    assert low + high == [0, n, 0, 0] && low[1..] == [n] && high[1..] == [0];
    assert Value([n]) == n && Value([0]) == 0;
  }
}
