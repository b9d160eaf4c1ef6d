/** The records of the state machine as bytes in the journal file: what recovery
    reads after a crash at any byte is what the state machine's crash keeps. */
module Disk {
  import opened Words
  import opened Entities
  import opened Mutations
  import opened Work
  import opened Machine
  import opened Recovery
  import opened StateCodec
  import Codec
  import opened Stream
  import JournalFile
  import FileJournal
  import Quiescence
  import Reach

  type Wired = JournalFile.Record

  // ---- records and bytes ----------------------------------------------------

  /** A record as it is appended: its type and its encoded payload. */
  function Wire(rec: Record): Wired {
    match rec
    case ResourceState(r) => JournalFile.Record(1, EncodeResource(r))
    case QueueState(q) => JournalFile.Record(2, EncodeQueue(q))
    case BeginAttempt(r) => JournalFile.Record(3, Codec.Encode(r))
    case CommitMutation(r) => JournalFile.Record(4, Codec.Encode(r))
    case EpochState(boot, epoch, incarnation) => JournalFile.Record(5, PutEpoch(EpochRecord(boot, epoch, incarnation), []))
  }

  function Unwire(rec: Wired): Option<Record> {
    if rec.kind == 1 then var v := DecodeResource(rec.payload); if v.Some? then Some(ResourceState(v.value)) else None
    else if rec.kind == 2 then var v := DecodeQueue(rec.payload); if v.Some? then Some(QueueState(v.value)) else None
    else if rec.kind == 3 then var v := Codec.Decode(rec.payload); if v.Some? then Some(BeginAttempt(v.value)) else None
    else if rec.kind == 4 then var v := Codec.Decode(rec.payload); if v.Some? then Some(CommitMutation(v.value)) else None
    else if rec.kind == 5 then
      var v := DecodeEpoch(rec.payload); if v.Some? then Some(EpochState(v.value.boot, v.value.epoch, v.value.incarnation)) else None
    else None
  }

  /** Every number of the record fits the width it is written in. */
  predicate RecordInRange(rec: Record) {
    match rec
    case ResourceState(r) => ResourceInRange(r)
    case QueueState(q) => QueueInRange(q)
    case BeginAttempt(r) => Codec.InRange(r)
    case CommitMutation(r) => Codec.InRange(r)
    case EpochState(boot, epoch, incarnation) => EpochInRange(EpochRecord(boot, epoch, incarnation))
  }

  predicate Readable(rec: Record) {
    match rec
    case ResourceState(r) => StorableResource(r)
    case QueueState(q) => StorableQueue(q)
    case BeginAttempt(r) => Decodable(r)
    case CommitMutation(r) => Decodable(r)
    case EpochState(_, _, _) => true
  }

  lemma MutationRead(r: Request)
    requires Codec.InRange(r)
    ensures Codec.Decode(Codec.Encode(r)) == if Decodable(r) then Some(r) else None
  {
    hide Codec.InRange, Codec.GetHead, Codec.GetPayload, Codec.PutHead, Codec.PutPayload;
    if Encodable(r) {
      Codec.RoundTrip(r);
    } else {
      NoRequest();
    }
  }

  lemma NoRequest()
    ensures Codec.Decode([]) == None
  {
    hide Value, Codec.GetPayload, Codec.KindOf;
  }

  /** Every record that is written reads back as it is, or not at all. */
  lemma WireRead(rec: Record)
    requires RecordInRange(rec)
    ensures Unwire(Wire(rec)) == if Readable(rec) then Some(rec) else None
  {
    hide EncodeResource, DecodeResource, EncodeQueue, DecodeQueue, Codec.Encode, Codec.Decode, PutEpoch, DecodeEpoch, StorableResource, StorableQueue,
      Decodable, ResourceInRange, QueueInRange, Codec.InRange, EpochInRange;
    match rec
    case ResourceState(r) => ResourceRoundTrip(r);
    case QueueState(q) => QueueRoundTrip(q);
    case BeginAttempt(r) => MutationRead(r);
    case CommitMutation(r) => MutationRead(r);
    case EpochState(boot, epoch, incarnation) => EpochRoundTrip(EpochRecord(boot, epoch, incarnation));
  }

  // ---- reading the journal --------------------------------------------------

  function Wires(records: seq<Record>): (ws: seq<Wired>)
    ensures |ws| == |records| && forall k :: 0 <= k < |records| ==> ws[k] == Wire(records[k])
  {
    seq(|records|, k requires 0 <= k < |records| => Wire(records[k]))
  }

  /** One pass over the records found in the file: what does not decode is passed
      over. */
  function LoadWires(ws: seq<Wired>, header: nat): Loaded {
    if ws == [] then Loaded(header, 1, map[], map[], map[], [])
    else
      var before := LoadWires(ws[..|ws| - 1], header);
      var rec := Unwire(ws[|ws| - 1]);
      if rec.Some? then Absorb(before, rec.value) else before
  }

  predicate AllInRange(records: seq<Record>) {
    forall k :: 0 <= k < |records| ==> RecordInRange(records[k])
  }

  lemma UnreadableAbsorbed(l: Loaded, rec: Record)
    requires !Readable(rec)
    ensures Absorb(l, rec) == l
  {
    hide StorableResource, StorableQueue, Decodable, Restored;
  }

  lemma {:induction false} LoadsAlike(records: seq<Record>, header: nat)
    requires AllInRange(records)
    ensures LoadWires(Wires(records), header) == Load(records, header)
  {
    hide Wire, Unwire, Absorb, RecordInRange, Readable;
    if records != [] {
      var n := |records| - 1;
      LoadsAlike(records[..n], header);
      assert Wires(records)[..n] == Wires(records[..n]);
      WireRead(records[n]);
      if !Readable(records[n]) {
        UnreadableAbsorbed(Load(records[..n], header), records[n]);
      }
    }
  }

  // ---- crashes --------------------------------------------------------------

  /** The file holds these records behind its header, and nothing else. */
  predicate Holds(file: seq<byte>, records: seq<Record>, maxRecord: nat) {
    && JournalFile.HEADER <= |file|
    && file[JournalFile.HEADER..] == EncodeAll(JournalFile.EncodeOne, Wires(records))
    && JournalFile.AllWellFormed(Wires(records), maxRecord)
  }

  /** Where the flushed records end. */
  function SyncedBytes(j: Journal): nat
    requires j.synced <= |j.records|
  {
    JournalFile.HEADER + |EncodeAll(JournalFile.EncodeOne, Wires(j.records[..j.synced]))|
  }

  lemma WiresPrefix(records: seq<Record>, n: nat)
    requires n <= |records|
    ensures Wires(records)[..n] == Wires(records[..n])
  {
    hide Wire;
  }

  lemma SurvivorAt(j: Journal, keep: nat)
    requires j.synced <= keep <= |j.records|
    ensures Survivor(j, keep).records == j.records[..keep]
  {
    assert j.records[..|j.records|] == j.records;
  }

  /** A crash that cuts the file at any byte at or behind what was flushed leaves
      exactly the records of some survivor, and reading them gives what the state
      machine loads. */
  lemma CrashIsSurvivor(j: Journal, file: seq<byte>, cut: nat, maxRecord: nat, header: nat) returns (keep: nat)
    requires j.synced <= |j.records| && AllInRange(j.records) && Holds(file, j.records, maxRecord) && SyncedBytes(j) <= cut <= |file|
    ensures var found := JournalFile.ScanRecords(file[..cut][JournalFile.HEADER..], maxRecord).items;
      found == Wires(Survivor(j, keep).records) && LoadWires(found, header) == Load(Survivor(j, keep).records, header)
  {
    hide Wire, EncodeAll, RecordInRange, Load, LoadWires, JournalFile.ScanRecords, JournalFile.AllWellFormed;
    var ws := Wires(j.records);
    keep := JournalFile.WholeBefore(ws, cut - JournalFile.HEADER);
    assert file[JournalFile.HEADER..|file|] == file[JournalFile.HEADER..];
    FileJournal.CutThenScan(file, ws, |file|, cut, maxRecord);
    WiresPrefix(j.records, j.synced);
    JournalFile.WholeAtLeast(ws, j.synced, cut - JournalFile.HEADER);
    WiresPrefix(j.records, keep);
    SurvivorAt(j, keep);
    LoadsAlike(j.records[..keep], header);
  }

  // ---- after the crash ------------------------------------------------------

  lemma WiresMore(records: seq<Record>, more: seq<Record>)
    ensures Wires(records + more) == Wires(records) + Wires(more)
  {
    hide Wire;
  }

  /** Recovery keeps the records it read and appends, first those of the replay
      and at last the one of the new life. */
  lemma RecoverAppends(c: Config, j: Journal, boot: Boot, feed: seq<Moment>, clock: int)
    requires c.hasJournal && Recover(c, j, boot, feed, clock).verdict.Took?
    ensures var records := Recover(c, j, boot, feed, clock).state.journal.records; |j.records| < |records| && records[..|j.records|] == j.records
  {
    hide Load, Replay, Rebuild, Distrust, Base;
    var l := Load(j.records, j.headerEpoch);
    var base := Base(l, j, boot);
    var t := Replay(c, base, l.order, feed);
    BaseJournal(l, j, boot);
    Quiescence.ReplayAddsNoQueue(c, base, l.order, feed);
    Reach.RebuildRest(Distrust(t, l.outstanding));
    DistrustJournal(t, l.outstanding);
  }

  lemma BaseJournal(l: Loaded, j: Journal, boot: Boot)
    ensures Base(l, j, boot).journal == j
  {
    hide AllAdopted, AllCounted, NamesOf, FreshIds;
  }

  lemma DistrustJournal(s: State, outstanding: map<Attempt, Request>)
    ensures Distrust(s, outstanding).journal == s.journal
  {
    hide AllDistrusted;
  }

  /** The file after the recovery of a cut file holds the journal of the recovered
      machine, so that the next crash is again a crash of the machine, if and only
      if the cut fell between records or replay appended nothing. */
  lemma RecoveredHolds(kept: seq<Record>, records: seq<Record>, cut: seq<byte>, file: seq<byte>, maxRecord: nat)
    requires |kept| < |records| && records[..|kept|] == kept && JournalFile.AllWellFormed(Wires(records), maxRecord) && maxRecord < U32
    requires JournalFile.HEADER <= |cut| && JournalFile.ScanRecords(cut[JournalFile.HEADER..], maxRecord).items == Wires(kept)
    requires JournalFile.HEADER <= |file| && file[JournalFile.HEADER..] ==
      JournalFile.RecoveredBytes(cut[JournalFile.HEADER..], maxRecord, Wires(records[|kept|..|records| - 1]), Wire(records[|records| - 1]))
    ensures Holds(file, records, maxRecord) <==>
      JournalFile.ScanRecords(cut[JournalFile.HEADER..], maxRecord).used == |cut| - JournalFile.HEADER || |records| == |kept| + 1
  {
    hide Wire, EncodeAll, JournalFile.ScanRecords, JournalFile.RecoveredBytes, JournalFile.ReadsAs;
    var n := |records| - 1;
    var replayed, last := records[|kept|..n], records[n];
    assert records == kept + replayed + [last];
    WiresMore(kept, replayed);
    WiresMore(kept + replayed, [last]);
    assert Wires([last]) == [Wire(last)];
    SplitWellFormed(Wires(kept), Wires(replayed), Wire(last), maxRecord);
    JournalFile.TornRecovery(cut[JournalFile.HEADER..], maxRecord, Wires(replayed), Wire(last));
    JournalFile.ReadsAsEncoded(file[JournalFile.HEADER..], maxRecord, Wires(records));
  }

  lemma SplitWellFormed(a: seq<Wired>, b: seq<Wired>, d: Wired, maxRecord: nat)
    requires JournalFile.AllWellFormed(a + b + [d], maxRecord)
    ensures JournalFile.AllWellFormed(b, maxRecord) && JournalFile.WellFormed(d, maxRecord)
  {
    var whole := a + b + [d];
    forall i | 0 <= i < |b| ensures JournalFile.WellFormed(b[i], maxRecord) {
      assert whole[|a| + i] == b[i];
    }
    assert whole[|a| + |b|] == d;
  }

  /** One crash and the recovery from it: the file then holds the journal of the
      recovered machine exactly when the cut fell between records or replay
      appended nothing. */
  lemma CrashThenRecover(c: Config, j: Journal, file: seq<byte>, cut: nat, maxRecord: nat, boot: Boot, feed: seq<Moment>, clock: int)
      returns (keep: nat)
    requires c.hasJournal && j.synced <= |j.records| && AllInRange(j.records) && Holds(file, j.records, maxRecord) && maxRecord < U32
    requires SyncedBytes(j) <= cut <= |file|
    ensures JournalFile.HEADER <= |file[..cut]|
    ensures var next := Recover(c, Survivor(j, keep), boot, feed, clock);
      next.verdict.Took? && JournalFile.AllWellFormed(Wires(next.state.journal.records), maxRecord) ==>
        forall after :: Recovers(file[..cut], after, Survivor(j, keep).records, next.state.journal.records, maxRecord) ==>
          (Holds(after, next.state.journal.records, maxRecord) <==>
            Aligned(file[..cut], maxRecord) || |next.state.journal.records| == |Survivor(j, keep).records| + 1)
  {
    hide Recover, Holds, AllInRange, Wires, SyncedBytes, Survivor, Aligned, Recovers, JournalFile.ScanRecords, JournalFile.AllWellFormed, LoadWires, Load;
    CutBehindHeader(j, file, cut, maxRecord);
    keep := CrashIsSurvivor(j, file, cut, maxRecord, 0);
    var kept, next := Survivor(j, keep).records, Recover(c, Survivor(j, keep), boot, feed, clock);
    if next.verdict.Took? && JournalFile.AllWellFormed(Wires(next.state.journal.records), maxRecord) {
      var records := next.state.journal.records;
      RecoverAppends(c, Survivor(j, keep), boot, feed, clock);
      forall after | Recovers(file[..cut], after, kept, records, maxRecord)
        ensures Holds(after, records, maxRecord) <==> Aligned(file[..cut], maxRecord) || |records| == |kept| + 1
      {
        RecoversHolds(kept, records, file[..cut], after, maxRecord);
      }
    }
  }

  lemma RecoversHolds(kept: seq<Record>, records: seq<Record>, cut: seq<byte>, after: seq<byte>, maxRecord: nat)
    requires |kept| < |records| && records[..|kept|] == kept && JournalFile.AllWellFormed(Wires(records), maxRecord) && maxRecord < U32
    requires JournalFile.HEADER <= |cut| && JournalFile.ScanRecords(cut[JournalFile.HEADER..], maxRecord).items == Wires(kept)
    requires Recovers(cut, after, kept, records, maxRecord)
    ensures Holds(after, records, maxRecord) <==> Aligned(cut, maxRecord) || |records| == |kept| + 1
  {
    hide Holds, Wires, Wire, JournalFile.ScanRecords, JournalFile.RecoveredBytes, JournalFile.AllWellFormed;
    RecoveredHolds(kept, records, cut, after, maxRecord);
  }

  lemma CutBehindHeader(j: Journal, file: seq<byte>, cut: nat, maxRecord: nat)
    requires j.synced <= |j.records| && Holds(file, j.records, maxRecord) && SyncedBytes(j) <= cut <= |file|
    ensures JournalFile.HEADER <= |file[..cut]|
  {
    hide Wire, EncodeAll;
  }

  /** The cut file is read to its last byte. */
  ghost predicate Aligned(cut: seq<byte>, maxRecord: nat)
    requires JournalFile.HEADER <= |cut|
  {
    JournalFile.ScanRecords(cut[JournalFile.HEADER..], maxRecord).used == |cut| - JournalFile.HEADER
  }

  /** What a recovery makes of the cut file. */
  ghost predicate Recovers(cut: seq<byte>, after: seq<byte>, kept: seq<Record>, records: seq<Record>, maxRecord: nat)
    requires JournalFile.HEADER <= |cut|
  {
    && |kept| < |records| && JournalFile.HEADER <= |after|
    && after[JournalFile.HEADER..] ==
      JournalFile.RecoveredBytes(cut[JournalFile.HEADER..], maxRecord, Wires(records[|kept|..|records| - 1]), Wire(records[|records| - 1]))
  }
}
