/** The journal file object: opening scans whatever bytes are on disk, appending
    writes at the current end, truncation drops a torn tail and compaction
    replaces the whole content atomically. */
module FileJournal {
  import opened Words
  import Crc32c
  import opened Stream
  import opened Status
  import Entities
  import opened JournalFile

  // ---- header ---------------------------------------------------------------

  datatype Verdict = Refused(code: Code) | Accepted(boot: Boot, epoch: nat)

  /** What opening decides from the header of a non-empty file. */
  function CheckHeader(raw: seq<byte>, maxFile: nat): Verdict {
    if |raw| > maxFile then Refused(IntegrityFailure)
    else if |raw| < HEADER then Refused(IntegrityFailure)
    else if Value(raw[..4]) != MAGIC then Refused(IntegrityFailure)
    else if Value(raw[4..6]) != FORMAT then Refused(Unsupported)
    else if Value(raw[32..36]) != Crc32c.Checksum(raw[..32]) then Refused(IntegrityFailure)
    else Accepted(Entities.Boot(Value(raw[8..16]), Value(raw[16..24])), Value(raw[24..32]))
  }

  lemma HeaderSlices<T>(f: seq<T>, mid: seq<T>, pad: seq<T>, tail: seq<T>)
    requires |f| == 32 && |mid| == 4 && |pad| == 4
    ensures var raw := f + mid + pad + tail;
            && raw[..32] == f && raw[32..36] == mid && raw[..4] == f[..4] && raw[4..6] == f[4..6]
            && raw[8..16] == f[8..16] && raw[16..24] == f[16..24] && raw[24..32] == f[24..32]
  {
  }

  lemma HeaderFieldSlices(boot: Boot, epoch: nat)
    ensures var f := HeaderFields(boot, epoch);
            && f[..4] == Layout(MAGIC, 4) && f[4..6] == Layout(FORMAT, 2)
            && f[8..16] == Layout(boot.hi, 8) && f[16..24] == Layout(boot.lo, 8) && f[24..32] == Layout(epoch, 8)
  {
  }

  /** A written header is accepted and gives back the boot and epoch it carries. */
  lemma HeaderRoundTrip(boot: Boot, epoch: nat, tail: seq<byte>, maxFile: nat)
    requires boot.hi < U64 && boot.lo < U64 && epoch < U64
    requires HEADER + |tail| <= maxFile
    ensures CheckHeader(EncodeHeader(boot, epoch) + tail, maxFile) == Accepted(boot, epoch)
  {
    var f := HeaderFields(boot, epoch);
    HeaderSlices(f, Layout(Crc32c.Checksum(f), 4), Layout(0, 4), tail);
    HeaderFieldSlices(boot, epoch);
    Pow2Values();
    assert Pow2(64) == U64 by {
      Pow2Add(32, 32);
    }
    ValueOfLayout(MAGIC, 4);
    ValueOfLayout(FORMAT, 2);
    ValueOfLayout(boot.hi, 8);
    ValueOfLayout(boot.lo, 8);
    ValueOfLayout(epoch, 8);
    ValueOfLayout(Crc32c.Checksum(f), 4);
  }

  // ---- the file object ------------------------------------------------------

  /** Overwrites in place and grows the file when the write runs past its end. */
  function WriteAt(file: seq<byte>, at: nat, data: seq<byte>): seq<byte>
    requires at <= |file|
  {
    file[..at] + data + (if at + |data| <= |file| then file[at + |data|..] else [])
  }

  lemma WriteAtKeeps(file: seq<byte>, at: nat, data: seq<byte>, lo: nat)
    requires lo <= at <= |file|
    ensures var w := WriteAt(file, at, data);
            |w| >= at + |data| && w[lo..at] == file[lo..at] && w[lo..at + |data|] == file[lo..at] + data
  {
  }

  lemma WriteAtEnd(file: seq<byte>, data: seq<byte>)
    ensures WriteAt(file, |file|, data) == file + data
  {
  }

  lemma CutOff(grown: seq<byte>, used: nat, nothing: bool, size: nat)
    requires used <= |grown| && (nothing ==> |grown| == size)
    ensures used == size && nothing ==> grown[..used] == grown
  {
  }

  lemma NothingEncoded()
    ensures EncodeAll(EncodeOne, []) == []
  {
  }

  lemma EncodeAllFits(records: seq<Record>, k: nat)
    requires k <= |records|
    ensures |EncodeAll(EncodeOne, records[..k])| <= |EncodeAll(EncodeOne, records)|
  {
    hide EncodeAll, EncodeRecord;
    EncodeAllMore(records[..k], records[k..]);
    assert records[..k] + records[k..] == records;
  }

  /** What the calls of a recovery leave behind the header. */
  lemma TailBytes(first: seq<byte>, used: nat, maxRecord: nat, replayed: seq<Record>, last: Record, header: seq<byte>, grown: seq<byte>, cut: seq<byte>)
    requires |header| == HEADER <= used <= |first| && used == HEADER + ScanRecords(first[HEADER..], maxRecord).used
    requires grown == header + (first + EncodeAll(EncodeOne, replayed))[HEADER..]
    requires cut == if replayed == [] then grown[..used] else grown
    ensures (cut + EncodeRecord(last))[HEADER..] == RecoveredBytes(first[HEADER..], maxRecord, replayed, last)
    ensures (cut + EncodeRecord(last))[..HEADER] == header
  {
    hide EncodeRecord, EncodeAll, ScanRecords;
    NothingEncoded();
    var body := EncodeAll(EncodeOne, replayed);
    assert (first + body)[HEADER..] == first[HEADER..] + body;
    if replayed == [] {
      assert grown[..used] == header + first[HEADER..][..used - HEADER];
    }
  }

  lemma HeaderReplaced(file: seq<byte>, header: seq<byte>, end: nat)
    requires |header| == HEADER && end <= |file|
    ensures WriteAt(file, 0, header) == header + (if HEADER <= |file| then file[HEADER..] else [])
    ensures |file| <= |WriteAt(file, 0, header)|
    ensures HEADER <= end ==> WriteAt(file, 0, header)[HEADER..end] == file[HEADER..end]
  {
  }

  /** How one scan step advances the outcome. */
  ghost predicate Advances(rest: seq<byte>, maxRecord: nat, d: Step<Record, Code>) {
    match d
    case Got(item, size) =>
      0 < size <= |rest| && ScanRecords(rest, maxRecord) == Prepend(item, size, ScanRecords(rest[size..], maxRecord))
    case Wait => ScanRecords(rest, maxRecord) == Outcome([], 0, Waiting(rest))
    case Refuse(code) => ScanRecords(rest, maxRecord) == Outcome([], 0, Failed(code))
  }

  lemma ScanStep(rest: seq<byte>, maxRecord: nat, d: Step<Record, Code>)
    requires d == DecodeRecord(rest, maxRecord)
    ensures Advances(rest, maxRecord, d)
  {
    RecordStepProgress(maxRecord);
    assert Look(rest);
    if d.Got? {
      DrainGot(RecordStep(maxRecord), rest, d.item, d.size);
    }
  }

  lemma PrependInner(items: seq<Record>, used: nat, item: Record, size: nat, o: Outcome<byte, Record, Code>)
    ensures PrependAll(items, used, Prepend(item, size, o)) == PrependAll(items + [item], used + size, o)
  {
    assert items + ([item] + o.items) == (items + [item]) + o.items;
  }

  /** Checks whether an intact record stands at the front of raw. */
  method ProbeRecord(table: seq<nat>, raw: seq<byte>, maxRecord: nat) returns (intact: bool)
    requires Crc32c.IsTable(table)
    ensures intact == Intact(raw, maxRecord)
  {
    if |raw| < PREFIX {
      return false;
    }
    var len := Value(raw[2..6]);
    if len > maxRecord || |raw| < PREFIX + len {
      return false;
    }
    var head := Crc32c.ExtendByTable(table, 0, raw[..6]);
    var computed := Crc32c.ExtendByTable(table, head, raw[PREFIX..PREFIX + len]);
    return computed == Value(raw[6..10]);
  }

  /** One iteration: the record at the front of rest, a torn tail or damage. */
  method ScanOne(table: seq<nat>, rest: seq<byte>, maxRecord: nat) returns (d: Step<Record, Code>)
    requires Crc32c.IsTable(table)
    ensures Advances(rest, maxRecord, d)
  {
    d := Wait;
    if |rest| >= PREFIX {
      var len := Value(rest[2..6]);
      if len <= maxRecord && PREFIX + len <= |rest| {
        var intact := ProbeRecord(table, rest, maxRecord);
        if intact {
          d := Got(Record(Value(rest[..2]), rest[PREFIX..PREFIX + len]), PREFIX + len);
        } else {
          var damaged := ProbeRecord(table, rest[PREFIX + len..], maxRecord);
          d := if damaged then Refuse(IntegrityFailure) else Wait;
        }
      }
    }
    ScanStep(rest, maxRecord, d);
  }

  /** The records, the end of the valid prefix and whether damage stopped it. */
  ghost predicate Scanned(raw: seq<byte>, maxRecord: nat, records: seq<Record>, cursor: nat, damaged: bool)
    requires HEADER <= |raw|
  {
    var o := ScanRecords(raw[HEADER..], maxRecord);
    records == o.items && cursor == HEADER + o.used && (damaged <==> o.end.Failed?)
  }

  /** The cursor loop over everything behind the header. */
  method ScanFile(table: seq<nat>, raw: seq<byte>, maxRecord: nat)
    returns (records: seq<Record>, cursor: nat, stop: Step<Record, Code>)
    requires Crc32c.IsTable(table) && HEADER <= |raw|
    ensures !stop.Got? && cursor <= |raw|
    ensures Scanned(raw, maxRecord, records, cursor, stop.Refuse?)
  {
    records, cursor, stop := [], HEADER, Wait;
    ghost var whole := ScanRecords(raw[HEADER..], maxRecord);
    while cursor < |raw|
      invariant HEADER <= cursor <= |raw|
      invariant whole == PrependAll(records, cursor - HEADER, ScanRecords(raw[cursor..], maxRecord))
      invariant stop == Wait
    {
      var d := ScanOne(table, raw[cursor..], maxRecord);
      if !d.Got? {
        stop := d;
        return;
      }
      ScannedOne(raw, cursor, maxRecord, records, d.item, d.size);
      records := records + [d.item];
      cursor := cursor + d.size;
    }
    assert raw[cursor..] == [];
    ScanStep([], maxRecord, Wait);
  }

  lemma ScannedOne(raw: seq<byte>, cursor: nat, maxRecord: nat, records: seq<Record>, item: Record, size: nat)
    requires HEADER <= cursor <= |raw| && Advances(raw[cursor..], maxRecord, Got(item, size))
    ensures cursor + size <= |raw|
    ensures PrependAll(records, cursor - HEADER, ScanRecords(raw[cursor..], maxRecord)) ==
            PrependAll(records + [item], cursor + size - HEADER, ScanRecords(raw[cursor + size..], maxRecord))
  {
    assert raw[cursor..][size..] == raw[cursor + size..];
    PrependInner(records, cursor - HEADER, item, size, ScanRecords(raw[cursor + size..], maxRecord));
  }

  lemma AppendedLegible(file: seq<byte>, end: nat, r: Record, maxRecord: nat)
    requires end <= |file| && WellFormed(r, maxRecord)
    ensures HEADER <= end ==>
      var o, next := ScanRecords(file[HEADER..end], maxRecord), WriteAt(file, end, EncodeRecord(r));
      && end + |EncodeRecord(r)| <= |next|
      && (ReadsAs(next[HEADER..end + |EncodeRecord(r)|], maxRecord, o.items + [r]) <==> HEADER + o.used == end)
  {
    hide EncodeRecord, ScanRecords, ReadsAs, WriteAt;
    if HEADER <= end {
      WriteAtKeeps(file, end, EncodeRecord(r), HEADER);
      AppendedIsRecovered(file[HEADER..end], r, maxRecord);
    }
  }

  /** Runs the header checks in the order the file is opened. */
  method ReadHeader(table: seq<nat>, raw: seq<byte>, maxFile: nat) returns (v: Verdict)
    requires Crc32c.IsTable(table)
    ensures v == CheckHeader(raw, maxFile)
    ensures v.Accepted? ==> HEADER <= |raw|
  {
    if |raw| > maxFile || |raw| < HEADER {
      return Refused(IntegrityFailure);
    }
    if Value(raw[..4]) != MAGIC {
      return Refused(IntegrityFailure);
    }
    if Value(raw[4..6]) != FORMAT {
      return Refused(Unsupported);
    }
    var computed := Crc32c.ExtendByTable(table, 0, raw[..32]);
    if Value(raw[32..36]) != computed {
      return Refused(IntegrityFailure);
    }
    return Accepted(Entities.Boot(Value(raw[8..16]), Value(raw[16..24])), Value(raw[24..32]));
  }

  lemma EncodeAllNext(records: seq<Record>, i: nat)
    requires i < |records|
    ensures EncodeAll(EncodeOne, records[..i + 1]) == EncodeAll(EncodeOne, records[..i]) + EncodeRecord(records[i])
  {
    assert records[..i + 1] == records[..i] + [records[i]];
    EncodeAllAppend(records[..i], records[i]);
  }

  lemma LaidOutNext(newer: seq<Record>, i: nat, body: seq<byte>, record: seq<byte>)
    requires i < |newer| && body == EncodeAll(EncodeOne, newer[..i]) && record == EncodeRecord(newer[i])
    ensures body + record == EncodeAll(EncodeOne, newer[..i + 1])
  {
    hide EncodeAll, EncodeRecord;
    EncodeAllNext(newer, i);
  }

  /** Lays out replacement records; ok is false when one is too large. */
  method EncodeRecords(newer: seq<Record>, maxRecord: nat) returns (body: seq<byte>, ok: bool)
    requires maxRecord < U32
    requires forall i :: 0 <= i < |newer| ==> newer[i].kind < U16
    ensures ok ==> body == EncodeAll(EncodeOne, newer)
    ensures ok <==> AllWellFormed(newer, maxRecord)
  {
    hide EncodeRecord;
    body := [];
    for i := 0 to |newer|
      invariant body == EncodeAll(EncodeOne, newer[..i])
      invariant forall j :: 0 <= j < i ==> |newer[j].payload| <= maxRecord
    {
      hide EncodeAll;
      if |newer[i].payload| > maxRecord {
        return [], false;
      }
      var record := EncodeRecord(newer[i]);
      LaidOutNext(newer, i, body, record);
      body := body + record;
    }
    assert newer[..|newer|] == newer;
    return body, true;
  }

  class FileJournal {
    const maxFile: nat
    const maxRecord: nat
    const table: seq<nat>
    var file: seq<byte>
    var records: seq<Record>
    var bytesWritten: nat
    var validPrefix: nat
    var headerBoot: Boot
    var headerEpoch: nat
    var isOpen: bool
    var recordsTruncated: nat
    var bytesTruncated: nat
    var recordsCorrupt: nat

    ghost predicate Valid()
      reads this
    {
      && maxRecord < U32
      && Crc32c.IsTable(table)
      && bytesWritten <= |file|
      && validPrefix <= bytesWritten
    }

    /** The bytes up to the write position are exactly the records held, so a
        scan of the file finds every one of them. */
    ghost predicate Recoverable()
      reads this
    {
      && HEADER <= validPrefix == bytesWritten <= |file|
      && file[HEADER..bytesWritten] == EncodeAll(EncodeOne, records)
      && AllWellFormed(records, maxRecord)
    }

    constructor (file: seq<byte>, maxFile: nat, maxRecord: nat)
      requires maxRecord < U32
      ensures Valid() && this.file == file && this.maxFile == maxFile && this.maxRecord == maxRecord && !isOpen
    {
      var t := Crc32c.MakeTable();
      table := t;
      this.file, this.maxFile, this.maxRecord := file, maxFile, maxRecord;
      records, bytesWritten, validPrefix, isOpen := [], 0, 0, false;
      headerBoot, headerEpoch := Entities.Boot(0, 0), 0;
      recordsTruncated, bytesTruncated, recordsCorrupt := 0, 0, 0;
    }

    /** Opens the store and scans existing content. */
    method Open() returns (code: Code, ghost verdict: Verdict)
      requires Valid()
      modifies this
      ensures Valid() && isOpen
      ensures verdict == CheckHeader(old(file), maxFile)
      ensures old(file) == [] ==>
                code == Ok && file == EncodeHeader(Entities.Boot(0, 0), 0) && records == [] && Recoverable()
      ensures old(file) != [] ==> file == old(file)
      ensures old(file) != [] && verdict.Refused? ==> code == verdict.code && records == []
      ensures old(file) != [] && verdict.Accepted? ==>
                verdict == Accepted(headerBoot, headerEpoch) && Loaded(code) && Held()
    {
      isOpen := true;
      var v := ReadHeader(table, file, maxFile);
      verdict := v;
      if |file| == 0 {
        CreateHeader();
        code := Ok;
      } else if v.Refused? {
        records, bytesWritten, validPrefix := [], 0, 0;
        code := v.code;
      } else {
        headerBoot, headerEpoch := v.boot, v.epoch;
        code := Load();
      }
    }

    /** A fresh file gets an empty header so that it always describes itself. */
    method CreateHeader()
      modifies this`file, this`records, this`bytesWritten, this`validPrefix
      ensures file == EncodeHeader(Entities.Boot(0, 0), 0) && records == [] && Recoverable()
    {
      file, records := EncodeHeader(Entities.Boot(0, 0), 0), [];
      bytesWritten, validPrefix := HEADER, HEADER;
      assert file[HEADER..HEADER] == EncodeAll(EncodeOne, records);
    }

    /** Takes over what the scan of the file finds. */
    method Load() returns (code: Code)
      requires Crc32c.IsTable(table) && HEADER <= |file|
      modifies this`records, this`bytesWritten, this`validPrefix, this`recordsTruncated, this`bytesTruncated,
               this`recordsCorrupt
      ensures Loaded(code) && Held()
    {
      var cursor, stop;
      records, cursor, stop := ScanFile(table, file, maxRecord);
      recordsTruncated, bytesTruncated, recordsCorrupt := 0, 0, 0;
      code := Ok;
      if stop.Refuse? {
        recordsCorrupt, code := 1, IntegrityFailure;
      } else if cursor < |file| {
        recordsTruncated, bytesTruncated := 1, |file| - cursor;
      }
      validPrefix, bytesWritten := cursor, |file|;
      assert file[HEADER..bytesWritten] == file[HEADER..];
    }

    /** The object holds what a scan of its file finds. */
    ghost predicate Loaded(code: Code)
      reads this
    {
      && HEADER <= |file| == bytesWritten
      && Scanned(file, maxRecord, records, validPrefix, code == IntegrityFailure)
      && (code == Ok || code == IntegrityFailure)
      && (recordsTruncated > 0 <==> code == Ok && validPrefix < |file|)
    }

    /** The object holds what a scan of the bytes up to the write position finds;
        behind a torn tail the valid prefix ends before that position. */
    ghost predicate Held()
      reads this
    {
      && HEADER <= validPrefix <= bytesWritten <= |file|
      && var o := ScanRecords(file[HEADER..bytesWritten], maxRecord);
        records == o.items && validPrefix == HEADER + o.used
    }

    /** A scan of the bytes up to the write position reads all of them, as the
        records held. */
    ghost predicate Legible()
      reads this
    {
      HEADER <= bytesWritten <= |file| && ReadsAs(file[HEADER..bytesWritten], maxRecord, records)
    }

    /** Appends one record; reached says how many of its bytes hit the file.
        Without truncating a torn tail first, what is appended is reported
        written and yet not recoverable. */
    method Append(r: Record, reached: nat) returns (code: Code)
      requires Valid() && r.kind < U16
      modifies this`file, this`records, this`bytesWritten, this`validPrefix
      ensures Valid()
      ensures code == Ok ==> records == old(records) + [r]
      ensures code != Ok ==> records == old(records) && bytesWritten == old(bytesWritten)
      ensures code == Ok <==> isOpen && |r.payload| <= maxRecord && reached >= PREFIX + |r.payload| &&
                              old(bytesWritten) + PREFIX + |r.payload| <= maxFile
      ensures old(Recoverable()) ==> Recoverable()
      ensures code == Ok ==> file == WriteAt(old(file), old(bytesWritten), EncodeRecord(r))
      ensures code == Ok ==> bytesWritten == validPrefix == old(bytesWritten) + PREFIX + |r.payload|
      ensures code == Ok && old(Held()) ==> (Legible() <==> old(validPrefix) == old(bytesWritten))
    {
      hide EncodeRecord, WriteAt, EncodeAll, ScanRecords, ReadsAs;
      if !isOpen {
        return Internal;
      }
      if |r.payload| > maxRecord {
        return CapacityExceeded;
      }
      var projected := bytesWritten + PREFIX + |r.payload|;
      if projected > maxFile {
        return CapacityExceeded;
      }
      var bytes := EncodeRecord(r);
      if reached < |bytes| {
        WriteAtKeeps(file, bytesWritten, bytes[..reached], if HEADER <= bytesWritten then HEADER else 0);
        file := WriteAt(file, bytesWritten, bytes[..reached]);
        return Internal;
      }
      WriteAtKeeps(file, bytesWritten, bytes, if HEADER <= bytesWritten then HEADER else 0);
      EncodeAllAppend(records, r);
      AppendedLegible(file, bytesWritten, r, maxRecord);
      file := WriteAt(file, bytesWritten, bytes);
      bytesWritten, validPrefix := projected, projected;
      records := records + [r];
      return Ok;
    }

    /** Rewrites the header in place; a file shorter than a header grows to one. */
    method WriteHeader(boot: Boot, epoch: nat) returns (code: Code)
      requires Valid()
      modifies this`file, this`headerBoot, this`headerEpoch
      ensures Valid() && (code == Ok <==> isOpen)
      ensures isOpen ==> file == EncodeHeader(boot, epoch) + (if HEADER <= |old(file)| then old(file)[HEADER..] else [])
      ensures isOpen ==> headerBoot == boot && headerEpoch == epoch
      ensures old(Recoverable()) ==> Recoverable()
    {
      hide EncodeHeader, WriteAt, EncodeAll, AllWellFormed;
      if !isOpen {
        return Internal;
      }
      var header := EncodeHeader(boot, epoch);
      HeaderReplaced(file, header, bytesWritten);
      file := WriteAt(file, 0, header);
      headerBoot, headerEpoch := boot, epoch;
      return Ok;
    }

    /** Drops a torn tail. After opening a torn file this makes it recoverable. */
    method TruncateToValidPrefix() returns (code: Code)
      requires Valid()
      modifies this`file, this`bytesWritten
      ensures Valid() && (code == Ok <==> isOpen)
      ensures isOpen ==> bytesWritten == validPrefix
      ensures isOpen ==> file == if validPrefix == old(bytesWritten) then old(file) else old(file)[..validPrefix]
      ensures (isOpen && HEADER <= validPrefix && AllWellFormed(records, maxRecord) &&
               old(file)[HEADER..validPrefix] == EncodeAll(EncodeOne, records)) ==> Recoverable()
    {
      if !isOpen {
        return Internal;
      }
      if validPrefix == bytesWritten {
        return Ok;
      }
      file := file[..validPrefix];
      bytesWritten := validPrefix;
      assert HEADER <= validPrefix ==> file[HEADER..validPrefix] == old(file)[HEADER..validPrefix];
      return Ok;
    }

    /** Appends what replay commits again. */
    method AppendAll(replayed: seq<Record>)
      requires Valid() && isOpen && |file| == bytesWritten && AllWellFormed(replayed, maxRecord)
      requires bytesWritten + |EncodeAll(EncodeOne, replayed)| <= maxFile
      modifies this`file, this`records, this`bytesWritten, this`validPrefix
      ensures Valid() && |file| == bytesWritten && file == old(file) + EncodeAll(EncodeOne, replayed) && records == old(records) + replayed
      ensures validPrefix == if replayed == [] then old(validPrefix) else bytesWritten
    {
      hide EncodeRecord, EncodeAll, WriteAt, Legible, Held, Recoverable;
      NothingEncoded();
      for k := 0 to |replayed|
        invariant Valid() && |file| == bytesWritten && isOpen
        invariant file == old(file) + EncodeAll(EncodeOne, replayed[..k]) && records == old(records) + replayed[..k]
        invariant validPrefix == if k == 0 then old(validPrefix) else bytesWritten
      {
        EncodeAllNext(replayed, k);
        EncodeAllFits(replayed, k + 1);
        WriteAtEnd(file, EncodeRecord(replayed[k]));
        Reassociate(old(file), EncodeAll(EncodeOne, replayed[..k]), EncodeRecord(replayed[k]));
        var _ := Append(replayed[k], PREFIX + |replayed[k].payload|);
      }
      assert replayed[..|replayed|] == replayed;
    }

    /** The rest of a recovery: replay's appends, the header of the new life, the
        cut of a torn tail and the record of the new life, in this order. */
    method RecoverTail(replayed: seq<Record>, boot: Boot, epoch: nat, last: Record)
      requires Valid() && isOpen && Held() && |file| == bytesWritten && (recordsTruncated > 0 <==> validPrefix < bytesWritten)
      requires AllWellFormed(replayed, maxRecord) && WellFormed(last, maxRecord)
      requires bytesWritten + |EncodeAll(EncodeOne, replayed)| + PREFIX + |last.payload| <= maxFile
      modifies this
      ensures Valid() && HEADER <= |file| == bytesWritten && file[..HEADER] == EncodeHeader(boot, epoch)
      ensures file[HEADER..] == RecoveredBytes(old(file)[HEADER..], maxRecord, replayed, last) && records == old(records) + replayed + [last]
      ensures ReadsAs(file[HEADER..], maxRecord, records) <==> old(validPrefix) == old(bytesWritten) || replayed == []
    {
      hide EncodeRecord, EncodeAll, WriteAt, EncodeHeader, ScanRecords, ReadsAs, RecoveredBytes, Recoverable, Legible;
      ghost var first, used := file, validPrefix;
      HeldWhole();
      NothingEncoded();
      AppendAll(replayed);
      HeaderReplaced(file, EncodeHeader(boot, epoch), bytesWritten);
      var _ := WriteHeader(boot, epoch);
      ghost var grown := file;
      if recordsTruncated > 0 {
        var _ := TruncateToValidPrefix();
      }
      WriteAtEnd(file, EncodeRecord(last));
      ghost var cut := file;
      CutOff(grown, used, replayed == [], |first|);
      var _ := Append(last, PREFIX + |last.payload|);
      TailBytes(first, used, maxRecord, replayed, last, EncodeHeader(boot, epoch), grown, cut);
      TornRecovery(first[HEADER..], maxRecord, replayed, last);
    }

    lemma HeldWhole()
      requires Held() && |file| == bytesWritten
      ensures HEADER <= validPrefix <= |file|
      ensures var o := ScanRecords(file[HEADER..], maxRecord); records == o.items && validPrefix == HEADER + o.used
    {
      hide ScanRecords;
      assert file[HEADER..bytesWritten] == file[HEADER..];
    }

    /** Replaces the content; a refused compaction leaves the journal alone. */
    method Rewrite(newer: seq<Record>, ioOk: bool) returns (code: Code)
      requires Valid()
      requires forall i :: 0 <= i < |newer| ==> newer[i].kind < U16
      modifies this
      ensures Valid() && isOpen == old(isOpen)
      ensures if code == Ok then records == newer && Recoverable() && file[..HEADER] == EncodeHeader(headerBoot, headerEpoch)
              else file == old(file) && records == old(records) && bytesWritten == old(bytesWritten) &&
                   validPrefix == old(validPrefix)
      ensures (ioOk && isOpen && AllWellFormed(newer, maxRecord) &&
               HEADER + |EncodeAll(EncodeOne, newer)| <= maxFile) ==> code == Ok
    {
      var body, ok := EncodeRecords(newer, maxRecord);
      if isOpen && ok && HEADER + |body| <= maxFile && ioOk {
        Replace(EncodeHeader(headerBoot, headerEpoch), body, newer);
        code := Ok;
      } else {
        code := Internal;
      }
    }

    /** Swaps in a complete new content. */
    method Replace(header: seq<byte>, body: seq<byte>, newer: seq<Record>)
      requires |header| == HEADER && body == EncodeAll(EncodeOne, newer) && AllWellFormed(newer, maxRecord)
      modifies this`file, this`records, this`bytesWritten, this`validPrefix, this`recordsTruncated,
               this`bytesTruncated, this`recordsCorrupt
      ensures records == newer && file == header + body && Recoverable()
    {
      file, records := header + body, newer;
      bytesWritten, validPrefix := |file|, |file|;
      recordsTruncated, bytesTruncated, recordsCorrupt := 0, 0, 0;
      TailSlice(header, body);
    }
  }

  lemma TailSlice<T>(head: seq<T>, tail: seq<T>)
    ensures (head + tail)[|head|..|head + tail|] == tail
  {
  }

  // ---- crash and reopen -----------------------------------------------------

  /** After a crash that cut a recoverable journal, exactly the records wholly
      on disk come back. */
  lemma CutThenScan(file: seq<byte>, records: seq<Record>, end: nat, cut: nat, maxRecord: nat)
    requires HEADER <= cut <= end <= |file| && AllWellFormed(records, maxRecord)
    requires file[HEADER..end] == EncodeAll(EncodeOne, records)
    ensures ScanRecords(file[..cut][HEADER..], maxRecord).items == records[..WholeBefore(records, cut - HEADER)]
  {
    hide EncodeAll, EncodeRecord, ScanRecords, WholeBefore, AllWellFormed;
    CutSlice(file, end, cut);
    ScanExactAtCut(records, cut - HEADER, maxRecord);
  }

  /** Bytes of a write that never completed do not disturb what came before. */
  lemma TornThenScan(file: seq<byte>, records: seq<Record>, end: nat, maxRecord: nat)
    requires HEADER <= end <= |file| && AllWellFormed(records, maxRecord)
    requires file[HEADER..end] == EncodeAll(EncodeOne, records)
    ensures records <= ScanRecords(file[HEADER..], maxRecord).items
  {
    assert file[HEADER..] == file[HEADER..end] + file[end..];
    ScanFindsRecords(records, file[end..], maxRecord);
  }

  lemma CutSlice<T>(file: seq<T>, end: nat, cut: nat)
    requires HEADER <= cut <= end <= |file|
    ensures file[..cut][HEADER..] == file[HEADER..end][..cut - HEADER]
  {
  }
}
