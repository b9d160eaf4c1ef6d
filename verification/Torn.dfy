/** What becomes of a file that was torn, recovered while there was something to
    replay, and torn from power again: the second epoch of its life is founded
    twice. */
module Torn {
  import opened Words
  import opened Entities
  import opened Mutations
  import opened Work
  import opened Machine
  import opened Recovery
  import opened Run
  import opened Steps
  import opened Reach
  import opened GoodRuns
  import Stream
  import opened Ledger
  import opened Scenario
  import opened Evictions
  import opened StateCodec
  import opened Disk
  import Codec
  import ByteStreams
  import JournalFile
  import Authorities

  // ---- sizes and ranges -----------------------------------------------------

  /** Every payload is within the bound of a record. */
  lemma WireFits(rec: Record)
    ensures JournalFile.WellFormed(Wire(rec), MAX_RECORD)
  {
    hide PutResource, PutQueue, Codec.PutHead, Codec.PutPayload, Layout;
    match rec
    case BeginAttempt(r) => MutationFits(r);
    case CommitMutation(r) => MutationFits(r);
    case EpochState(boot, epoch, incarnation) => EpochFills(EpochRecord(boot, epoch, incarnation));
    case ResourceState(_) =>
    case QueueState(_) =>
  }

  lemma MutationFits(r: Request)
    ensures |Codec.Encode(r)| <= MAX_RECORD
  {
    hide Codec.PutHead, Codec.PutPayload;
    if PayloadEncodable(r.payload) {
      ByteStreams.EncodingFits(r);
    }
  }

  lemma EpochFills(v: EpochRecord)
    ensures |PutEpoch(v, [])| == 32
  {
    hide Layout, Value;
  }

  lemma WiresFit(records: seq<Record>)
    ensures JournalFile.AllWellFormed(Wires(records), MAX_RECORD)
  {
    hide Wire;
    forall i | 0 <= i < |records| ensures JournalFile.WellFormed(Wires(records)[i], MAX_RECORD) {
      WireFits(records[i]);
    }
  }

  lemma FirstFills()
    ensures |Wire(BeginAttempt(First())).payload| == 202 && |Wire(CommitMutation(First())).payload| == 202
  {
    hide Layout, Value;
  }

  predicate BootInRange(boot: Boot) {
    boot.hi < U64 && boot.lo < U64
  }

  lemma HousesInRange()
    ensures ResourceInRange(House0()) && ResourceInRange(House1([])) && ResourceInRange(House2([])) && Codec.InRange(First())
  {
  }

  /** The records of the run that declares a queue. */
  function Written(boot: Boot): seq<Record> {
    [EpochState(boot, 1, 1), ResourceState(House0()), ResourceState(House1([])), ResourceState(House2([])), BeginAttempt(First()), CommitMutation(First())]
  }

  lemma WrittenIs(c: Config, boot: Boot)
    ensures Declared1(c, boot, []).journal.records == Written(boot)
  {
    hide House0, House1, House2, House3, TheQueue, First;
  }

  lemma WrittenInRange(boot: Boot)
    requires BootInRange(boot)
    ensures AllInRange(Written(boot))
  {
    hide House0, House1, House2, First, ResourceInRange, Codec.InRange;
    HousesInRange();
  }

  // ---- the life after the torn crash ----------------------------------------

  function Anew(boot: Boot, incarnation: nat): seq<Record> {
    [BeginAttempt(First()), CommitMutation(First()), EpochState(boot, 2, incarnation)]
  }

  /** Recovery replays the declaration, writes it again and founds epoch two. */
  lemma RecoveredOnce(c: Config, boot: Boot, again: Boot)
    requires Roomy(c)
    ensures var s := Declared1(c, boot, []);
      var reply := Recover(c, s.journal, again, [], 0);
      && reply.verdict.Took? && Site(reply.state) && reply.state.epoch == 2 && reply.state.healthy && reply.state.boot == again
      && reply.state.journal.records == s.journal.records + Anew(again, reply.state.incarnation)
      && reply.state.journal.headerEpoch == 2 && Flushed(reply.state)
  {
    hide Load, Base, Apply, Distrust, Rebuild, Vacant, Lone, First, Declared1, Stage, Encodable, Durable, Heard, SameButCount;
    var s := Declared1(c, boot, []);
    OpeningStage(c, boot);
    StageBooked(c, s, [Declaring], FirstLot(c.limits.maxMemo), 4);
    OpenedEpoch(c, boot);
    var l := Stored(s);
    var base := Base(l, s.journal, again);
    BaseVacant(s, [Declaring], again);
    BaseReads(l, s.journal, again);
    DeclareOnVacant(c, base, Moment(0, Good));
    ApplyRest(c, base, First(), 0, Good, true);
    DeclaringAsks();
    var t := Apply(c, base, First(), 0, Good, true).state;
    assert l.order == [First()] && l.order[..0] == [];
    assert Replay(c, base, [], []) == base;
    assert Replay(c, base, l.order, []) == t;
    assert t.journal.records == t.journal.records[..|s.journal.records|] + Added(s.journal, t.journal);
    OnceFinished(c, t, FirstLot(c.limits.maxMemo), l.outstanding);
    BaseRest(l, s.journal, again);
  }

  lemma StageBooked(c: Config, s: State, ops: seq<Op>, lot: Lot, n: nat)
    requires Stage(c, s, ops, lot, n) && ops == [Declaring]
    ensures Booked(s, ops) && Commits(s) == [First()] && Stored(s).epoch == s.epoch && Flushed(s)
  {
    hide Inv, Lone, Load, HeardTo;
    DeclaringAsks();
  }

  lemma BaseRest(l: Loaded, j: Journal, boot: Boot)
    ensures Base(l, j, boot).healthy && Base(l, j, boot).boot == boot
  {
    hide AllAdopted, AllCounted, NamesOf, FreshIds;
  }

  lemma OnceFinished(c: Config, t: State, lot: Lot, outstanding: map<Attempt, Request>)
    requires Lone(t, lot)
    ensures var next := Announce(Rebuild(Distrust(t, outstanding)));
      && Site(next.(watermark := Later(next.watermark, 0))) && next.epoch == t.epoch && next.healthy == t.healthy && next.boot == t.boot
      && next.journal == Journal(t.journal.records + [EpochState(t.boot, t.epoch, next.incarnation)], |t.journal.records| + 1, t.epoch)
  {
    hide Rebuild, AllDistrusted, Lone, Site;
    FinishLone(c, t, lot, outstanding, 0);
    RebuildRest(Distrust(t, outstanding));
    LoneSite(Announce(Rebuild(Distrust(t, outstanding))).(watermark := Later(Announce(Rebuild(Distrust(t, outstanding))).watermark, 0)), lot);
  }

  lemma LoneSite(t: State, lot: Lot)
    requires Lone(t, lot)
    ensures Site(t)
  {
  }

  function Advancing(): Event {
    NewEpoch(1, Sender(9), 0, Good)
  }

  /** The administrator advances the epoch; the record is flushed, the header is
      not rewritten. */
  lemma AdvancedOnce(c: Config, s: State)
    requires c.hasJournal && Site(s) && s.healthy && s.epoch == 2 && Flushed(s)
    ensures var reply := Step(c, s, Advancing());
      && reply.verdict.Took? && reply.state.epoch == 3 && Flushed(reply.state) && reply.state.journal.headerEpoch == s.journal.headerEpoch
      && reply.state.journal.records == s.journal.records + [EpochState(s.boot, 3, s.incarnation)]
  {
    hide Apply, DeclareResource, GrantCapabilities, DeclareClass, DeclarePool, AddBackend, MarkDead, InvalidateEvidence, Refresh, Explain, Reserve,
      CommitPlan, AbortPlan, Compact, Shutdown, Recover, AllInEpoch, AllSuperseded, Authorities.CapabilitiesOf, Authorities.Holds;
    assert Unfold(c, s, Advancing());
    OwnerHolds(Admin);
    assert 1 in s.resources;
  }

  // ---- the file -------------------------------------------------------------

  /** The first byte of the next record, all that reached the disk of it. */
  const STRAY: byte := 5

  /** What the file holds behind its header after that life. */
  function Bytes(records: seq<Record>, more: seq<Record>): seq<byte> {
    Stream.EncodeAll(JournalFile.EncodeOne, Wires(records)) + [STRAY] + Stream.EncodeAll(JournalFile.EncodeOne, Wires(more))
  }

  lemma MoreFills(boot: Boot, incarnation: nat, other: nat)
    ensures var more := Anew(boot, incarnation) + [EpochState(boot, 3, other)];
      var bytes := Stream.EncodeAll(JournalFile.EncodeOne, Wires(more));
      && |bytes| == 508
      && bytes == JournalFile.EncodeRecord(Wire(BeginAttempt(First()))) + Stream.EncodeAll(JournalFile.EncodeOne, Wires(more[1..]))
  {
    hide Wire, JournalFile.EncodeRecord, First;
    var more := Anew(boot, incarnation) + [EpochState(boot, 3, other)];
    var ws := Wires(more);
    FirstFills();
    EpochWireFills(boot, 2, incarnation);
    EpochWireFills(boot, 3, other);
    assert ws[1..] == Wires(more[1..]);
    FourEncoded(ws);
  }

  lemma EpochWireFills(boot: Boot, epoch: nat, incarnation: nat)
    ensures |Wire(EpochState(boot, epoch, incarnation)).payload| == 32
  {
    EpochFills(EpochRecord(boot, epoch, incarnation));
  }

  lemma FourEncoded(ws: seq<Wired>)
    requires |ws| == 4
    ensures |Stream.EncodeAll(JournalFile.EncodeOne, ws)| == 40 + |ws[0].payload| + |ws[1].payload| + |ws[2].payload| + |ws[3].payload|
    ensures Stream.EncodeAll(JournalFile.EncodeOne, ws) == JournalFile.EncodeRecord(ws[0]) + Stream.EncodeAll(JournalFile.EncodeOne, ws[1..])
  {
    hide JournalFile.EncodeRecord;
    assert ws[1..][1..] == ws[2..] && ws[2..][1..] == ws[3..] && ws[3..][1..] == [];
    assert Stream.EncodeAll(JournalFile.EncodeOne, ws[3..]) == JournalFile.EncodeRecord(ws[3]) + [];
    assert Stream.EncodeAll(JournalFile.EncodeOne, ws[2..]) == JournalFile.EncodeRecord(ws[2]) + Stream.EncodeAll(JournalFile.EncodeOne, ws[3..]);
    assert Stream.EncodeAll(JournalFile.EncodeOne, ws[1..]) == JournalFile.EncodeRecord(ws[1]) + Stream.EncodeAll(JournalFile.EncodeOne, ws[2..]);
  }

  /** Everything behind the stray byte is out of reach of the next scan. */
  lemma OutOfReach(records: seq<Record>, boot: Boot, incarnation: nat, other: nat)
    ensures JournalFile.ScanRecords(Bytes(records, Anew(boot, incarnation) + [EpochState(boot, 3, other)]), MAX_RECORD).items == Wires(records)
  {
    hide Wire, JournalFile.EncodeRecord, Stream.EncodeAll, JournalFile.ScanRecords, First;
    var more := Anew(boot, incarnation) + [EpochState(boot, 3, other)];
    var front, tail := Stream.EncodeAll(JournalFile.EncodeOne, Wires(records)), Stream.EncodeAll(JournalFile.EncodeOne, Wires(more));
    var begun, later := JournalFile.EncodeRecord(Wire(BeginAttempt(First()))), Stream.EncodeAll(JournalFile.EncodeOne, Wires(more[1..]));
    MoreFills(boot, incarnation, other);
    FirstFills();
    BegunKind();
    JournalFile.StrayByteHides(STRAY, Wire(BeginAttempt(First())), later, MAX_RECORD);
    JournalFile.Reassociate([STRAY], begun, later);
    JournalFile.Reassociate(front, [STRAY], tail);
    JournalFile.ScanStops([STRAY] + tail, MAX_RECORD);
    WiresFit(records);
    JournalFile.ScanFindsRecords(Wires(records), [STRAY] + tail, MAX_RECORD);
  }

  /** These are the bytes the recovery of the torn file leaves, and the record of
      the advance behind them. */
  lemma BytesAreRecovered(records: seq<Record>, boot: Boot, incarnation: nat, other: nat)
    ensures var anew := Anew(boot, incarnation);
      var torn := Stream.EncodeAll(JournalFile.EncodeOne, Wires(records)) + [STRAY];
      Bytes(records, anew + [EpochState(boot, 3, other)]) ==
        JournalFile.RecoveredBytes(torn, MAX_RECORD, Wires(anew[..2]), Wire(anew[2])) + JournalFile.EncodeRecord(Wire(EpochState(boot, 3, other)))
  {
    hide Wire, JournalFile.EncodeRecord, Stream.EncodeAll, JournalFile.ScanRecords, First;
    var anew, last := Anew(boot, incarnation), EpochState(boot, 3, other);
    assert anew == anew[..2] + [anew[2]];
    WiresMore(anew[..2], [anew[2]]);
    WiresMore(anew, [last]);
    assert Wires([anew[2]]) == [Wire(anew[2])] && Wires([last]) == [Wire(last)];
    JournalFile.EncodeAllAppend(Wires(anew[..2]), Wire(anew[2]));
    JournalFile.EncodeAllAppend(Wires(anew), Wire(last));
  }

  lemma BegunKind()
    ensures Wire(BeginAttempt(First())).kind < 256
  {
    hide Codec.Encode, First;
  }

  /** Declare a queue; crash, one byte of the next record on disk; recover, which
      founds epoch two; advance to epoch three, flushed and acknowledged; crash
      again, nothing lost. The next recovery finds the records of the first life
      only and founds epoch three a second time. */
  lemma EpochFoundedTwice(c: Config, boot: Boot, again: Boot)
    requires Roomy(c) && BootInRange(boot)
    ensures var s := Exec(c, Start(c, boot), Opening([]));
      var first := Recover(c, s.journal, again, [], 0);
      var advanced := Step(c, first.state, Advancing());
      var n := |s.journal.records|;
      && first.verdict.Took? && advanced.verdict.Took? && first.state.epoch == 2 && advanced.state.epoch == 3 && Flushed(advanced.state)
      && n < |advanced.state.journal.records| && advanced.state.journal.records[..n] == s.journal.records
      && var found := JournalFile.ScanRecords(Bytes(s.journal.records, advanced.state.journal.records[n..]), MAX_RECORD).items;
        && found == Wires(s.journal.records)
        && NextEpoch(LoadWires(found, advanced.state.journal.headerEpoch).epoch) == advanced.state.epoch
  {
    hide Step, Exec, Start, Opening, Recover, Declared1, Wire, JournalFile.ScanRecords, Bytes, LoadWires, Load, Site, Stage, First, Written;
    var s := Declared1(c, boot, []);
    OpeningStage(c, boot);
    RecoveredOnce(c, boot, again);
    var first := Recover(c, s.journal, again, [], 0).state;
    AdvancedOnce(c, first);
    var advanced := Step(c, first, Advancing()).state;
    var n, more := |s.journal.records|, Anew(again, first.incarnation) + [EpochState(first.boot, 3, first.incarnation)];
    assert advanced.journal.records == s.journal.records + more;
    assert advanced.journal.records[n..] == more && advanced.journal.records[..n] == s.journal.records;
    OutOfReach(s.journal.records, again, first.incarnation, first.incarnation);
    WrittenIs(c, boot);
    WrittenInRange(boot);
    LoadsAlike(s.journal.records, 2);
    FirstEpochs(boot);
  }

  lemma FirstEpochs(boot: Boot)
    ensures Load(Written(boot), 2).epoch == 2
  {
    hide Load, House0, House1, House2, First;
    var records := Written(boot);
    LoadHeaderEpoch(records, 1, 2);
    OnlyFirstEpoch(boot);
  }

  lemma OnlyFirstEpoch(boot: Boot)
    ensures Load(Written(boot), 1).epoch == 1 && Load(Written(boot), 2).epoch >= 2
  {
    hide Load, House0, House1, House2, First, Absorb;
    var none: seq<Record> := [];
    var first := none + [EpochState(boot, 1, 1)];
    var house0 := first + [ResourceState(House0())];
    var house1 := house0 + [ResourceState(House1([]))];
    var house2 := house1 + [ResourceState(House2([]))];
    HeadEpoch(boot);
    LoadNeutral(first, 1, ResourceState(House0()));
    LoadNeutral(house0, 1, ResourceState(House1([])));
    LoadNeutral(house1, 1, ResourceState(House2([])));
    LoadMarker(house2, 1, First());
    assert Written(boot) == house2 + [BeginAttempt(First()), CommitMutation(First())];
    LoadEpochPrefix(Written(boot), 2, 0);
    assert Written(boot)[..0] == none;
    HeaderAlone();
  }

  lemma HeadEpoch(boot: Boot)
    ensures Load([] + [EpochState(boot, 1, 1)], 1).epoch == 1
  {
    var none: seq<Record> := [];
    LoadAnother(none, EpochState(boot, 1, 1), 1);
  }

  lemma HeaderAlone()
    ensures Load([], 2).epoch == 2
  {
  }
}
